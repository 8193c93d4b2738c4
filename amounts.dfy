/**
 * Building the asset and loan lists from amounts the user typed in:
 * fin_from_amounts, immo_from_amounts, pro_from_amounts and
 * emprunt_from_amounts, and the label normalisation immo_type_manual.
 *
 * An amount dictionary maps each family (e.g. "LivretA", "RL", "PretImmo")
 * to a dictionary from sub-type to a list of amounts; both levels are
 * iterated in insertion order, so they are sequences of pairs here. A leaf
 * that is not a list is skipped, and so is an amount that is null, zero or
 * negative.
 */
module FromAmounts {
  import opened Common
  import opened Tables
  import opened Records

  datatype Leaf = Amounts(values: seq<Option<real>>) | NotAList

  type AmountDict = seq<(string, seq<(string, Leaf)>)>

  /** One kept amount, with the family and sub-type it was listed under. */
  datatype Entry = Entry(family: string, subType: string, value: real)

  /** `v and v > 0`: the amount is present and positive. */
  predicate Kept(v: Option<real>)
  {
    v.Some? && v.value > 0.0
  }

  /** Every entry carries a positive amount. */
  ghost predicate AllPositive(es: seq<Entry>)
  {
    forall e :: e in es ==> e.value > 0.0
  }

  /** Every entry was listed under the given family (and, when `sub` is given, that sub-type). */
  ghost predicate ListedUnder(es: seq<Entry>, family: string, sub: Option<string>)
  {
    forall e :: e in es ==> e.family == family && (sub.Some? ==> e.subType == sub.value)
  }

  /** The kept amounts of one sub-type's list, in order, tagged with their family and sub-type. */
  function ValueEntries(family: string, sub: string, vs: seq<Option<real>>): (es: seq<Entry>)
    ensures |es| <= |vs|
    ensures ListedUnder(es, family, Some(sub)) && AllPositive(es)
  {
    if vs == [] then []
    else
      var v := vs[|vs| - 1];
      ValueEntries(family, sub, vs[..|vs| - 1]) + (if Kept(v) then [Entry(family, sub, v.value)] else [])
  }

  function LeafEntries(family: string, sub: string, leaf: Leaf): seq<Entry>
  {
    match leaf
    case Amounts(vs) => ValueEntries(family, sub, vs)
    case NotAList => []
  }

  /** The kept amounts of one family, sub-type by sub-type. */
  function FamilyEntries(family: string, subs: seq<(string, Leaf)>): (es: seq<Entry>)
    ensures ListedUnder(es, family, None) && AllPositive(es)
  {
    if subs == [] then []
    else
      var last := subs[|subs| - 1];
      FamilyEntries(family, subs[..|subs| - 1]) + LeafEntries(family, last.0, last.1)
  }

  /** The kept amounts of the whole dictionary, in iteration order. */
  function Entries(m: AmountDict): (es: seq<Entry>)
    ensures AllPositive(es)
  {
    if m == [] then []
    else
      var last := m[|m| - 1];
      Entries(m[..|m| - 1]) + FamilyEntries(last.0, last.1)
  }

  /** The amount at position k of a sub-type's list, under family i and sub-type j. */
  ghost predicate Listed(m: AmountDict, i: int, j: int, k: int)
  {
    0 <= i < |m| && 0 <= j < |m[i].1| && m[i].1[j].1.Amounts? && 0 <= k < |m[i].1[j].1.values|
  }

  /** The innermost loop: appends the kept amounts of one sub-type's list. */
  method AppendValues(es0: seq<Entry>, family: string, sub: string, vs: seq<Option<real>>) returns (es: seq<Entry>)
    ensures es == es0 + ValueEntries(family, sub, vs)
  {
    es := es0;
    var k := 0;
    while k < |vs|
      invariant 0 <= k <= |vs|
      invariant es == es0 + ValueEntries(family, sub, vs[..k])
    {
      assert vs[..k + 1][..k] == vs[..k];
      if Kept(vs[k]) {
        es := es + [Entry(family, sub, vs[k].value)];
      }
      k := k + 1;
    }
    assert vs[..k] == vs;
  }

  /** The middle loop: appends the kept amounts of one family, sub-type by sub-type, skipping non-list leaves. */
  method AppendFamily(es0: seq<Entry>, family: string, subs: seq<(string, Leaf)>) returns (es: seq<Entry>)
    ensures es == es0 + FamilyEntries(family, subs)
  {
    es := es0;
    var j := 0;
    while j < |subs|
      invariant 0 <= j <= |subs|
      invariant es == es0 + FamilyEntries(family, subs[..j])
    {
      assert subs[..j + 1][..j] == subs[..j];
      assert FamilyEntries(family, subs[..j + 1]) ==
             FamilyEntries(family, subs[..j]) + LeafEntries(family, subs[j].0, subs[j].1);
      if subs[j].1.Amounts? {
        es := AppendValues(es, family, subs[j].0, subs[j].1.values);
      }
      j := j + 1;
    }
    assert subs[..j] == subs;
  }

  /** The traversal shared by the four builders: every kept amount, in order. */
  method CollectEntries(m: AmountDict) returns (es: seq<Entry>)
    ensures es == Entries(m)
  {
    es := [];
    var i := 0;
    while i < |m|
      invariant 0 <= i <= |m|
      invariant es == Entries(m[..i])
    {
      assert m[..i + 1][..i] == m[..i];
      es := AppendFamily(es, m[i].0, m[i].1);
      i := i + 1;
    }
    assert m[..i] == m;
  }

  lemma {:induction false} ValueEntriesMembers(family: string, sub: string, vs: seq<Option<real>>, e: Entry)
    ensures e in ValueEntries(family, sub, vs) <==>
              e.family == family && e.subType == sub && exists k :: 0 <= k < |vs| && Kept(vs[k]) && vs[k].value == e.value
  {
    if vs != [] {
      var front := vs[..|vs| - 1];
      ValueEntriesMembers(family, sub, front, e);
      if e.family == family && e.subType == sub && exists k :: 0 <= k < |vs| && Kept(vs[k]) && vs[k].value == e.value {
        var k :| 0 <= k < |vs| && Kept(vs[k]) && vs[k].value == e.value;
        if k < |front| {
          assert front[k] == vs[k];
        }
      }
      forall k | 0 <= k < |front| ensures front[k] == vs[k] {
      }
    }
  }

  lemma {:induction false} FamilyEntriesMembers(family: string, subs: seq<(string, Leaf)>, e: Entry)
    ensures e in FamilyEntries(family, subs) <==>
              e.family == family &&
              exists j, k :: 0 <= j < |subs| && subs[j].1.Amounts? && 0 <= k < |subs[j].1.values| &&
                             subs[j].0 == e.subType && Kept(subs[j].1.values[k]) && subs[j].1.values[k].value == e.value
  {
    if subs != [] {
      var front := subs[..|subs| - 1];
      var last := subs[|subs| - 1];
      FamilyEntriesMembers(family, front, e);
      if last.1.Amounts? {
        ValueEntriesMembers(family, last.0, last.1.values, e);
      }
      forall j | 0 <= j < |front| ensures front[j] == subs[j] {
      }
      if e.family == family &&
         exists j, k :: 0 <= j < |subs| && subs[j].1.Amounts? && 0 <= k < |subs[j].1.values| &&
                        subs[j].0 == e.subType && Kept(subs[j].1.values[k]) && subs[j].1.values[k].value == e.value {
        var j, k :| 0 <= j < |subs| && subs[j].1.Amounts? && 0 <= k < |subs[j].1.values| &&
                    subs[j].0 == e.subType && Kept(subs[j].1.values[k]) && subs[j].1.values[k].value == e.value;
        if j == |front| {
          assert subs[j] == last;
        }
      }
    }
  }

  /** The dictionary lists a kept amount with the entry's value under the entry's family and sub-type. */
  ghost predicate ListsAmount(m: AmountDict, e: Entry)
  {
    exists i, j, k :: Listed(m, i, j, k) && m[i].0 == e.family && m[i].1[j].0 == e.subType &&
                      Kept(m[i].1[j].1.values[k]) && m[i].1[j].1.values[k].value == e.value
  }

  /** A dictionary lists an amount iff its front does or its last family yields it. */
  lemma ListsAmountSplit(m: AmountDict, e: Entry)
    requires m != []
    ensures ListsAmount(m, e) <==> ListsAmount(m[..|m| - 1], e) || e in FamilyEntries(m[|m| - 1].0, m[|m| - 1].1)
  {
    var front := m[..|m| - 1];
    var last := m[|m| - 1];
    FamilyEntriesMembers(last.0, last.1, e);
    forall i | 0 <= i < |front| ensures front[i] == m[i] {
    }
    if ListsAmount(m, e) {
      var i, j, k :| Listed(m, i, j, k) && m[i].0 == e.family && m[i].1[j].0 == e.subType &&
                     Kept(m[i].1[j].1.values[k]) && m[i].1[j].1.values[k].value == e.value;
      if i < |front| {
        assert Listed(front, i, j, k);
      } else {
        assert m[i] == last;
      }
    }
    if ListsAmount(front, e) {
      var i, j, k :| Listed(front, i, j, k) && front[i].0 == e.family && front[i].1[j].0 == e.subType &&
                     Kept(front[i].1[j].1.values[k]) && front[i].1[j].1.values[k].value == e.value;
      assert Listed(m, i, j, k);
    }
    if e in FamilyEntries(last.0, last.1) {
      var j, k :| 0 <= j < |last.1| && last.1[j].1.Amounts? && 0 <= k < |last.1[j].1.values| &&
                  last.1[j].0 == e.subType && Kept(last.1[j].1.values[k]) && last.1[j].1.values[k].value == e.value;
      assert Listed(m, |m| - 1, j, k);
    }
  }

  /**
   * An entry is produced exactly when the dictionary lists a kept amount with
   * that value under that family and sub-type.
   */
  lemma {:induction false} EntriesMembers(m: AmountDict, e: Entry)
    ensures e in Entries(m) <==> ListsAmount(m, e)
  {
    if m != [] {
      EntriesMembers(m[..|m| - 1], e);
      ListsAmountSplit(m, e);
    }
  }

  // ---------------------------------------------------------------- how many times each amount is listed

  /** The positions of a sub-type's list that hold a kept amount equal to `x`. */
  ghost function KeptAt(vs: seq<Option<real>>, x: real): set<int>
  {
    set k | 0 <= k < |vs| && Kept(vs[k]) && vs[k].value == x
  }

  /** The (sub-type, position) pairs of a family that hold a kept amount `x` under sub-type `sub`. */
  ghost function FamilyAt(subs: seq<(string, Leaf)>, sub: string, x: real): set<(int, int)>
  {
    set j, k | 0 <= j < |subs| && subs[j].1.Amounts? && 0 <= k < |subs[j].1.values| &&
               subs[j].0 == sub && Kept(subs[j].1.values[k]) && subs[j].1.values[k].value == x :: (j, k)
  }

  /** The (family, sub-type, position) triples of the dictionary that list the entry's amount. */
  ghost function ListedAt(m: AmountDict, e: Entry): set<(int, int, int)>
  {
    set i, j, k | 0 <= i < |m| && 0 <= j < |m[i].1| && m[i].1[j].1.Amounts? && 0 <= k < |m[i].1[j].1.values| &&
                  m[i].0 == e.family && m[i].1[j].0 == e.subType &&
                  Kept(m[i].1[j].1.values[k]) && m[i].1[j].1.values[k].value == e.value :: (i, j, k)
  }

  /** Tagging every pair with the same index loses none of them. */
  lemma {:induction false} TripledSize(i: int, ps: set<(int, int)>)
    ensures |set p | p in ps :: (i, p.0, p.1)| == |ps|
    decreases |ps|
  {
    if |ps| > 0 {
      var x :| x in ps;
      TripledSize(i, ps - {x});
      assert (set p | p in ps :: (i, p.0, p.1)) == (set p | p in ps - {x} :: (i, p.0, p.1)) + {(i, x.0, x.1)};
    }
  }

  /** The positions of a list are those of its front, plus the last one when it holds `x`. */
  lemma KeptAtSnoc(vs: seq<Option<real>>, x: real)
    requires vs != []
    ensures var n := |vs| - 1;
            KeptAt(vs, x) == KeptAt(vs[..n], x) + (if Kept(vs[n]) && vs[n].value == x then {n} else {}) &&
            n !in KeptAt(vs[..n], x)
  {
    var n := |vs| - 1;
    forall k | 0 <= k < n ensures vs[..n][k] == vs[k] {
    }
  }

  /** The pairs of a family are those of its front, plus the positions of its last list when it is `sub`'s. */
  lemma FamilyAtSnoc(subs: seq<(string, Leaf)>, sub: string, x: real)
    requires subs != []
    ensures var n := |subs| - 1;
            var last := subs[n];
            var tail := if last.1.Amounts? && last.0 == sub then set k | k in KeptAt(last.1.values, x) :: (n, k) else {};
            FamilyAt(subs, sub, x) == FamilyAt(subs[..n], sub, x) + tail &&
            FamilyAt(subs[..n], sub, x) !! tail
  {
    var n := |subs| - 1;
    forall j | 0 <= j < n ensures subs[..n][j] == subs[j] {
    }
  }

  /** The triples of a dictionary are those of its front, plus the pairs of its last family when it is the entry's. */
  lemma ListedAtSnoc(m: AmountDict, e: Entry)
    requires m != []
    ensures var n := |m| - 1;
            var last := m[n];
            var ps := FamilyAt(last.1, e.subType, e.value);
            var tail := if last.0 == e.family then set p | p in ps :: (n, p.0, p.1) else {};
            ListedAt(m, e) == ListedAt(m[..n], e) + tail &&
            ListedAt(m[..n], e) !! tail
  {
    var n := |m| - 1;
    var ps := FamilyAt(m[n].1, e.subType, e.value);
    var tail := if m[n].0 == e.family then set p | p in ps :: (n, p.0, p.1) else {};
    forall i | 0 <= i < n ensures m[..n][i] == m[i] {
    }
    forall t | t in ListedAt(m, e) && t.0 == n ensures t in tail {
      assert (t.1, t.2) in ps;
    }
  }

  /** A sub-type's list yields an entry once per position holding that amount. */
  lemma {:induction false} ValueEntriesCount(family: string, sub: string, vs: seq<Option<real>>, e: Entry)
    ensures multiset(ValueEntries(family, sub, vs))[e] ==
              if e.family == family && e.subType == sub then |KeptAt(vs, e.value)| else 0
  {
    if vs == [] {
      assert KeptAt(vs, e.value) == {};
    } else {
      ValueEntriesCount(family, sub, vs[..|vs| - 1], e);
      KeptAtSnoc(vs, e.value);
    }
  }

  /** Tagging the positions of a list with the same index `j` loses none of them. */
  lemma {:induction false} TaggedKeptSize(j: int, vs: seq<Option<real>>, x: real)
    ensures |set k | k in KeptAt(vs, x) :: (j, k)| == |KeptAt(vs, x)|
  {
    if vs == [] {
      assert KeptAt(vs, x) == {};
    } else {
      var n := |vs| - 1;
      TaggedKeptSize(j, vs[..n], x);
      KeptAtSnoc(vs, x);
      assert (set k | k in KeptAt(vs, x) :: (j, k)) ==
             (set k | k in KeptAt(vs[..n], x) :: (j, k)) + (if Kept(vs[n]) && vs[n].value == x then {(j, n)} else {});
    }
  }

  /** One sub-type's leaf, its positions tagged with the leaf's index `j`: a non-list leaf yields nothing. */
  lemma LeafEntriesCount(family: string, sub: string, leaf: Leaf, e: Entry, j: int)
    ensures multiset(LeafEntries(family, sub, leaf))[e] ==
              if e.family == family && leaf.Amounts? && sub == e.subType
              then |set k | k in KeptAt(leaf.values, e.value) :: (j, k)|
              else 0
  {
    if leaf.Amounts? {
      ValueEntriesCount(family, sub, leaf.values, e);
      TaggedKeptSize(j, leaf.values, e.value);
    }
  }

  /** A family yields an entry once per (sub-type, position) pair holding that amount under that sub-type. */
  lemma {:induction false} FamilyEntriesCount(family: string, subs: seq<(string, Leaf)>, e: Entry)
    ensures multiset(FamilyEntries(family, subs))[e] ==
              if e.family == family then |FamilyAt(subs, e.subType, e.value)| else 0
  {
    if subs == [] {
      assert FamilyAt(subs, e.subType, e.value) == {};
    } else {
      var n := |subs| - 1;
      FamilyEntriesCount(family, subs[..n], e);
      LeafEntriesCount(family, subs[n].0, subs[n].1, e, n);
      FamilyAtSnoc(subs, e.subType, e.value);
    }
  }

  /**
   * The dictionary yields an entry once per position that lists its amount
   * under its family and sub-type: repeated amounts are kept, none is merged.
   */
  lemma {:induction false} EntriesCount(m: AmountDict, e: Entry)
    ensures multiset(Entries(m))[e] == |ListedAt(m, e)|
  {
    if m == [] {
      assert ListedAt(m, e) == {};
    } else {
      var n := |m| - 1;
      var last := m[n];
      EntriesCount(m[..n], e);
      FamilyEntriesCount(last.0, last.1, e);
      TripledSize(n, FamilyAt(last.1, e.subType, e.value));
      ListedAtSnoc(m, e);
    }
  }

  // ---------------------------------------------------------------- records of each family

  /** A financial asset held in the household's fixed shares. */
  function FinOf(e: Entry, isCelib: bool): FinAsset
  {
    FinAsset(e.subType, e.value, OwnerShare(isCelib), PartnerShare(isCelib))
  }

  /** fin_from_amounts: one financial asset per kept amount, named by its sub-type. */
  method FinFromAmounts(m: AmountDict, isCelib: bool) returns (fin: seq<FinAsset>)
    ensures |fin| == |Entries(m)|
    ensures forall k :: 0 <= k < |fin| ==> fin[k] == FinOf(Entries(m)[k], isCelib)
    ensures forall a :: a in fin ==> a.value > 0.0 && Shares(a.pctDetention, a.pctDetentionConjoint, isCelib)
  {
    var es := CollectEntries(m);
    fin := [];
    var k := 0;
    while k < |es|
      invariant 0 <= k <= |es|
      invariant |fin| == k && forall i :: 0 <= i < k ==> fin[i] == FinOf(es[i], isCelib)
    {
      fin := fin + [FinOf(es[k], isCelib)];
      k := k + 1;
    }
    forall a | a in fin ensures a.value > 0.0 && Shares(a.pctDetention, a.pctDetentionConjoint, isCelib) {
      var i :| 0 <= i < |fin| && fin[i] == a;
      assert es[i] in es;
    }
  }

  /** A professional asset held in the household's fixed shares. */
  function ProOf(e: Entry, isCelib: bool): ProAsset
  {
    ProAsset(e.subType, e.value, OwnerShare(isCelib), PartnerShare(isCelib))
  }

  /** pro_from_amounts: one professional asset per kept amount, named by its sub-type. */
  method ProFromAmounts(m: AmountDict, isCelib: bool) returns (pro: seq<ProAsset>)
    ensures |pro| == |Entries(m)|
    ensures forall k :: 0 <= k < |pro| ==> pro[k] == ProOf(Entries(m)[k], isCelib)
    ensures forall a :: a in pro ==> a.value > 0.0 && Shares(a.pctDetention, a.pctDetentionConjoint, isCelib)
  {
    var es := CollectEntries(m);
    pro := [];
    var k := 0;
    while k < |es|
      invariant 0 <= k <= |es|
      invariant |pro| == k && forall i :: 0 <= i < k ==> pro[i] == ProOf(es[i], isCelib)
    {
      pro := pro + [ProOf(es[k], isCelib)];
      k := k + 1;
    }
    forall a | a in pro ensures a.value > 0.0 && Shares(a.pctDetention, a.pctDetentionConjoint, isCelib) {
      var i :| 0 <= i < |pro| && pro[i] == a;
      assert es[i] in es;
    }
  }

  /**
   * immo_type_manual: an extended rented-property label names its rental
   * kind ("RL-Nue" or "RL-Meuble"); any other label is already a kind.
   */
  function ImmoTypeManual(ext: string): (t: string)
    ensures ext in RL_NUE_LABELS ==> t == "RL-Nue"
    ensures ext in RL_MEUBLE_LABELS ==> t == "RL-Meuble"
    ensures ext !in RL_NUE_LABELS && ext !in RL_MEUBLE_LABELS ==> t == ext
  {
    if ext in RL_NUE_LABELS then "RL-Nue"
    else if ext in RL_MEUBLE_LABELS then "RL-Meuble"
    else ext
  }

  /** Normalising an extended label twice changes nothing more. */
  lemma ImmoTypeManualIdempotent(ext: string)
    ensures ImmoTypeManual(ImmoTypeManual(ext)) == ImmoTypeManual(ext)
  {
    assert "RL-Nue" in RL_NUE_LABELS;
    assert "RL-Meuble" !in RL_NUE_LABELS && "RL-Meuble" !in RL_MEUBLE_LABELS;
  }

  /** Every label with a manual tax scheme names a rented property. */
  lemma DispositifLabelsAreRentals()
    ensures forall x :: x in IMMO_DISPOSITIF_MANUAL ==> ImmoTypeManual(x) in {"RL-Nue", "RL-Meuble"}
  {
    forall x | x in IMMO_DISPOSITIF_MANUAL ensures ImmoTypeManual(x) in {"RL-Nue", "RL-Meuble"} {
      assert x in RL_NUE_LABELS || x in RL_MEUBLE_LABELS;
    }
  }

  /**
   * A property: rented ones ("RL" family) get their kind and tax scheme from
   * the extended label, defaulting to no scheme; others are named by their
   * sub-type and have no scheme.
   */
  function ImmoOf(e: Entry, isCelib: bool): (a: ImmoAsset)
    ensures e.family != "RL" ==> a.typeImmo == e.subType && a.dispositif == "aucun"
    ensures e.family == "RL" ==> a.typeImmo == ImmoTypeManual(e.subType)
    ensures e.family == "RL" && e.subType in IMMO_DISPOSITIF_MANUAL ==>
              a.typeImmo in {"RL-Nue", "RL-Meuble"} && a.dispositif == IMMO_DISPOSITIF_MANUAL[e.subType]
    ensures e.family == "RL" && e.subType !in IMMO_DISPOSITIF_MANUAL ==> a.dispositif == "aucun"
    ensures a.value == e.value && Shares(a.pctDetention, a.pctDetentionConjoint, isCelib)
  {
    DispositifLabelsAreRentals();
    if e.family == "RL" then
      var dispositif := if e.subType in IMMO_DISPOSITIF_MANUAL then IMMO_DISPOSITIF_MANUAL[e.subType] else "aucun";
      ImmoAsset(ImmoTypeManual(e.subType), dispositif, e.value, OwnerShare(isCelib), PartnerShare(isCelib))
    else
      ImmoAsset(e.subType, "aucun", e.value, OwnerShare(isCelib), PartnerShare(isCelib))
  }

  /** immo_from_amounts: one property per kept amount. */
  method ImmoFromAmounts(m: AmountDict, isCelib: bool) returns (immo: seq<ImmoAsset>)
    ensures |immo| == |Entries(m)|
    ensures forall k :: 0 <= k < |immo| ==> immo[k] == ImmoOf(Entries(m)[k], isCelib)
    ensures forall k :: 0 <= k < |immo| && Entries(m)[k].family == "RL" ==>
              immo[k].typeImmo == ImmoTypeManual(Entries(m)[k].subType)
    ensures forall a :: a in immo ==> a.value > 0.0 && Shares(a.pctDetention, a.pctDetentionConjoint, isCelib)
  {
    var es := CollectEntries(m);
    immo := [];
    var k := 0;
    while k < |es|
      invariant 0 <= k <= |es|
      invariant |immo| == k && forall i :: 0 <= i < k ==> immo[i] == ImmoOf(es[i], isCelib)
    {
      immo := immo + [ImmoOf(es[k], isCelib)];
      k := k + 1;
    }
    forall a | a in immo ensures a.value > 0.0 && Shares(a.pctDetention, a.pctDetentionConjoint, isCelib) {
      var i :| 0 <= i < |immo| && immo[i] == a;
      assert es[i] in es;
    }
  }

  /**
   * The term of a typed-in loan: 90 years for "Immo PVH" and 20 for other
   * property loans, 7 for business loans, 5 for anything else.
   */
  function LoanTerm(family: string, sub: string): (years: nat)
    ensures family == "PretImmo" ==> years == (if sub == "Immo PVH" then PVH_YEARS else PRET_IMMO_TERM)
    ensures family == "PretPro" ==> years == PRET_PRO_TERM
    ensures family != "PretImmo" && family != "PretPro" ==> years == PRET_OTHER_TERM
  {
    if family == "PretImmo" then
      if sub == "Immo PVH" then PVH_YEARS else PRET_IMMO_TERM
    else if family == "PretPro" then PRET_PRO_TERM
    else PRET_OTHER_TERM
  }

  /**
   * A loan: a property loan, when the household owns property, is tied to
   * the first property and owes at most what that property is worth.
   */
  function LoanOf(e: Entry, immo: seq<ImmoAsset>, isCelib: bool, today: Date): (l: Loan)
    ensures e.family == "PretImmo" && |immo| > 0 ==>
              l.immoLie == 0 && l.montantRestantDu == (if e.value < immo[0].value then e.value else immo[0].value)
    ensures !(e.family == "PretImmo" && |immo| > 0) ==> l.immoLie == -1 && l.montantRestantDu == e.value
    ensures l.typeEmprunt == e.subType && l.dtFin == Maturity(today, LoanTerm(e.family, e.subType))
    ensures Shares(l.pctEmprunt, l.pctEmpruntConjoint, isCelib)
  {
    var tied := e.family == "PretImmo" && |immo| > 0;
    var amount := if tied && immo[0].value < e.value then immo[0].value else e.value;
    Loan(e.subType, Maturity(today, LoanTerm(e.family, e.subType)), amount,
         OwnerShare(isCelib), PartnerShare(isCelib), if tied then 0 else -1)
  }

  /** emprunt_from_amounts: one loan per kept amount. */
  method EmpruntFromAmounts(m: AmountDict, immo: seq<ImmoAsset>, isCelib: bool, today: Date) returns (loans: seq<Loan>)
    ensures |loans| == |Entries(m)|
    ensures forall k :: 0 <= k < |loans| ==> loans[k] == LoanOf(Entries(m)[k], immo, isCelib, today)
    ensures LinksHold(loans, immo)
    ensures forall l :: l in loans ==> Shares(l.pctEmprunt, l.pctEmpruntConjoint, isCelib)
  {
    var es := CollectEntries(m);
    loans := [];
    var k := 0;
    while k < |es|
      invariant 0 <= k <= |es|
      invariant |loans| == k && forall i :: 0 <= i < k ==> loans[i] == LoanOf(es[i], immo, isCelib, today)
      invariant LinksHold(loans, immo) && forall l :: l in loans ==> Shares(l.pctEmprunt, l.pctEmpruntConjoint, isCelib)
    {
      var l := LoanOf(es[k], immo, isCelib, today);
      LinksSnoc(loans, l, immo);
      loans := loans + [l];
      k := k + 1;
    }
  }

  /** Appending a loan tied to nothing, or capped by the property it is tied to, keeps the linkage invariant. */
  lemma LinksSnoc(loans: seq<Loan>, l: Loan, immo: seq<ImmoAsset>)
    requires LinksHold(loans, immo)
    requires l.immoLie == -1 || (0 <= l.immoLie < |immo| && l.montantRestantDu <= immo[l.immoLie].value)
    ensures LinksHold(loans + [l], immo)
  {
    forall x | x in loans + [l]
      ensures x.immoLie == -1 || (0 <= x.immoLie < |immo| && x.montantRestantDu <= immo[x.immoLie].value)
    {
      assert x in loans || x == l;
    }
  }

  /**
   * The fixture of the demonstration: 18000 in a Livret A and an empty
   * Livret Bleu yield a single Livret A entry; a non-list leaf adds nothing.
   */
  lemma LivretAFixture()
    ensures Entries([("LivretA", [("LivretA", Amounts([Some(18000.0)])), ("LvretBleu", Amounts([Some(0.0)]))]),
                     ("SCPI", [("SCPI-SCI", NotAList)])])
            == [Entry("LivretA", "LivretA", 18000.0)]
  {
    var livret: seq<(string, Leaf)> := [("LivretA", Amounts([Some(18000.0)])), ("LvretBleu", Amounts([Some(0.0)]))];
    var m: AmountDict := [("LivretA", livret), ("SCPI", [("SCPI-SCI", NotAList)])];
    assert ValueEntries("LivretA", "LivretA", [Some(18000.0)]) == [Entry("LivretA", "LivretA", 18000.0)] by {
      assert [Some(18000.0)][..0] == [];
    }
    assert ValueEntries("LivretA", "LvretBleu", [Some(0.0)]) == [] by {
      assert [Some(0.0)][..0] == [];
    }
    assert livret[..1][..0] == [] && livret[..1] == [livret[0]];
    assert FamilyEntries("LivretA", livret) == [Entry("LivretA", "LivretA", 18000.0)];
    assert m[..1][..0] == [] && m[..1] == [m[0]];
    assert FamilyEntries("SCPI", [("SCPI-SCI", NotAList)]) == [] by {
      assert [("SCPI-SCI", NotAList)][..0] == [];
    }
  }
}
