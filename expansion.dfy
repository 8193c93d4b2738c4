/**
 * How a generator decides how many records of each sub-type to produce and
 * which label each record carries: list_item, list_type_manual,
 * list_nb_manual, list_nb_auto and list_type_auto.
 *
 * The source keys its intermediate dictionaries "list<type>" and "nb<type>";
 * here they are keyed by the sub-type name itself, which is the same data
 * under a fixed renaming.
 */
module Expansion {
  import opened Common
  import opened RangeSampler
  import opened Tables

  /** `[label] * n`: n copies of the label, none when n is not positive. */
  function Copies(name: string, n: int): (r: seq<string>)
    ensures |r| == if n < 0 then 0 else n
    ensures forall i :: 0 <= i < |r| ==> r[i] == name
  {
    seq(if n < 0 then 0 else n, _ => name)
  }

  /** The labels of a label-to-count dictionary, each repeated by its count, in dictionary order. */
  function Repeated(counts: seq<(string, int)>): seq<string>
  {
    if counts == [] then []
    else
      var last := counts[|counts| - 1];
      Repeated(counts[..|counts| - 1]) + Copies(last.0, last.1)
  }

  /** How often the label is requested by the dictionary, negative counts counting as none. */
  function CountFor(counts: seq<(string, int)>, x: string): (n: nat)
  {
    if counts == [] then 0
    else
      var last := counts[|counts| - 1];
      CountFor(counts[..|counts| - 1], x) + (if last.0 == x && last.1 > 0 then last.1 else 0)
  }

  /** The number of records the dictionary requests. */
  function Total(counts: seq<(string, int)>): (n: nat)
  {
    if counts == [] then 0
    else
      var last := counts[|counts| - 1];
      Total(counts[..|counts| - 1]) + (if last.1 > 0 then last.1 else 0)
  }

  /** list_item: extends the result with the copies of each label in turn. */
  method ListItem(counts: seq<(string, int)>) returns (r: seq<string>)
    ensures r == Repeated(counts)
    ensures |r| == Total(counts)
    ensures forall x :: multiset(r)[x] == CountFor(counts, x)
  {
    r := [];
    var i := 0;
    while i < |counts|
      invariant 0 <= i <= |counts|
      invariant r == Repeated(counts[..i])
    {
      assert counts[..i + 1][..i] == counts[..i];
      r := r + Copies(counts[i].0, counts[i].1);
      i := i + 1;
    }
    assert counts[..i] == counts;
    RepeatedLength(counts);
    forall x ensures multiset(r)[x] == CountFor(counts, x) {
      RepeatedMultiplicity(counts, x);
    }
  }

  lemma CopiesMultiplicity(name: string, n: int, x: string)
    ensures multiset(Copies(name, n))[x] == if name == x && n > 0 then n else 0
  {
    var c := Copies(name, n);
    if c == [] {
    } else {
      assert c == Copies(name, n - 1) + [name];
      CopiesMultiplicity(name, n - 1, x);
    }
  }

  /** The expansion holds each label exactly as often as the dictionary requests it. */
  lemma {:induction false} RepeatedMultiplicity(counts: seq<(string, int)>, x: string)
    ensures multiset(Repeated(counts))[x] == CountFor(counts, x)
  {
    if counts != [] {
      var last := counts[|counts| - 1];
      RepeatedMultiplicity(counts[..|counts| - 1], x);
      CopiesMultiplicity(last.0, last.1, x);
    }
  }

  /** The expansion is as long as the requested total. */
  lemma {:induction false} RepeatedLength(counts: seq<(string, int)>)
    ensures |Repeated(counts)| == Total(counts)
  {
    if counts != [] {
      RepeatedLength(counts[..|counts| - 1]);
    }
  }

  /** A label is among n copies of a name exactly when it is that name and n is positive. */
  lemma CopiesMembers(name: string, n: int, x: string)
    ensures x in Copies(name, n) <==> x == name && n > 0
  {
    if x == name && n > 0 {
      assert Copies(name, n)[0] == x;
    }
  }

  /** A label appears in the expansion exactly when some entry requests it a positive number of times. */
  lemma {:induction false} RepeatedMembers(counts: seq<(string, int)>, x: string)
    ensures x in Repeated(counts) <==> exists i :: 0 <= i < |counts| && counts[i].0 == x && counts[i].1 > 0
  {
    if counts != [] {
      var front := counts[..|counts| - 1];
      var last := counts[|counts| - 1];
      RepeatedMembers(front, x);
      CopiesMembers(last.0, last.1, x);
      assert x in Repeated(counts) <==> x in Repeated(front) || x in Copies(last.0, last.1);
      forall i | 0 <= i < |front| ensures counts[i] == front[i] {
      }
      if exists i :: 0 <= i < |counts| && counts[i].0 == x && counts[i].1 > 0 {
        var i :| 0 <= i < |counts| && counts[i].0 == x && counts[i].1 > 0;
        if i == |front| {
          assert counts[i] == last;
        }
      }
    }
  }

  /**
   * The first sub-type, in order, whose prefixed key the dictionary lacks:
   * the key a comprehension over the sub-types fails on.
   */
  function FirstMissing<V>(prefix: string, types: seq<string>, m: map<string, V>): (r: Option<string>)
    ensures r.None? <==> forall t :: t in types ==> prefix + t in m
    ensures r.Some? ==>
              exists i :: 0 <= i < |types| && r.value == prefix + types[i] && r.value !in m &&
                          forall j :: 0 <= j < i ==> prefix + types[j] in m
  {
    if types == [] then None
    else if prefix + types[0] !in m then Some(prefix + types[0])
    else
      var r := FirstMissing(prefix, types[1..], m);
      assert forall t :: t in types ==> t == types[0] || t in types[1..];
      if r.Some? then
        var i :| 0 <= i < |types[1..]| && r.value == prefix + types[1..][i] && r.value !in m &&
                 forall j :: 0 <= j < i ==> prefix + types[1..][j] in m;
        assert r.value == prefix + types[i + 1];
        assert forall j :: 0 <= j < i + 1 ==> prefix + types[j] in m by {
          forall j | 0 <= j < i + 1 ensures prefix + types[j] in m {
            if j > 0 { assert types[j] == types[1..][j - 1]; }
          }
        }
        r
      else
        r
  }

  /** The first missing key is the one at the first position whose key is missing. */
  lemma FirstMissingIs<V>(prefix: string, types: seq<string>, m: map<string, V>, i: nat)
    requires i < |types| && prefix + types[i] !in m
    requires forall j :: 0 <= j < i ==> prefix + types[j] in m
    ensures FirstMissing(prefix, types, m) == Some(prefix + types[i])
  {
    assert types[i] in types;
    var r := FirstMissing(prefix, types, m);
    var i' :| 0 <= i' < |types| && r.value == prefix + types[i'] && r.value !in m &&
              forall j :: 0 <= j < i' ==> prefix + types[j] in m;
    assert i' <= i;
    assert i <= i';
  }

  /**
   * list_type_manual: the labels of each sub-type, expanded from the user's
   * label-to-count dictionary; a sub-type missing from that dictionary fails
   * with its name.
   */
  function ListTypeManual(nb: map<string, seq<(string, int)>>, types: seq<string>): (r: Result<map<string, seq<string>>>)
    ensures r.Err? <==> exists t :: t in types && t !in nb
    ensures r.Err? ==> exists i :: 0 <= i < |types| && r.error == KeyError(types[i]) && types[i] !in nb &&
                                   forall j :: 0 <= j < i ==> types[j] in nb
    ensures r.Ok? ==> forall t :: t in types ==>
                        (t in r.value && t in nb && forall x :: multiset(r.value[t])[x] == CountFor(nb[t], x))
    ensures r.Ok? ==> forall t :: t in types ==> t in r.value && t in nb && r.value[t] == Repeated(nb[t])
  {
    var missing := FirstMissing("", types, nb);
    assert forall t :: "" + t == t;
    if missing.Some? then Err(KeyError(missing.value))
    else
      var labels := map t | t in types :: Repeated(nb[t]);
      assert forall t, x :: t in types ==> multiset(labels[t])[x] == CountFor(nb[t], x) by {
        forall t, x | t in types ensures multiset(labels[t])[x] == CountFor(nb[t], x) {
          RepeatedMultiplicity(nb[t], x);
        }
      }
      Ok(labels)
  }

  /** list_nb_manual: the number of labels listed for each sub-type. */
  function ListNbManual(labels: map<string, seq<string>>, types: seq<string>): (counts: map<string, int>)
    requires forall t :: t in types ==> t in labels
    ensures forall t :: t in types ==> t in counts && counts[t] == |labels[t]| && counts[t] >= 0
  {
    map t | t in types :: |labels[t]|
  }

  /** No sub-type is listed twice. */
  predicate Distinct(types: seq<string>)
  {
    forall i, j :: 0 <= i < j < |types| ==> types[i] != types[j]
  }

  /**
   * list_nb_auto: one count per sub-type, the i-th drawn with `count(i)` from
   * the table under "nb" + its name. A missing table fails with its key and
   * an empty one with an index error.
   */
  function ListNbAuto(types: seq<string>, nbTables: map<string, map<real, int>>, count: nat -> Unit): (r: Result<map<string, int>>)
    ensures r.Ok? <==> forall t :: t in types ==> "nb" + t in nbTables && nbTables["nb" + t] != map[]
    ensures r.Ok? ==> forall t :: t in types ==> t in r.value
    ensures r.Ok? && Distinct(types) ==>
              forall i :: 0 <= i < |types| ==>
                r.value[types[i]] == Sample(count(i), nbTables["nb" + types[i]]).value &&
                IsOutcome(r.value[types[i]], nbTables["nb" + types[i]])
  {
    if types == [] then Ok(map[])
    else
      var n := |types| - 1;
      var front := types[..n];
      var t := types[n];
      assert forall u :: u in types <==> u in front || u == t;
      var m := ListNbAuto(front, nbTables, count);
      if m.Err? then Err(m.error)
      else if "nb" + t !in nbTables then Err(KeyError("nb" + t))
      else
        var c := Sample(count(n), nbTables["nb" + t]);
        if c.Err? then Err(c.error)
        else
          assert Distinct(types) ==> Distinct(front) && forall i :: 0 <= i < n ==> front[i] != t;
          Ok(m.value[t := c.value])
  }

  /**
   * The labels drawn for the sub-type at position `ti`: none for a zero
   * or negative count, otherwise one draw `draw(ti, i)` per record i < n.
   */
  function DrawLabels(n: int, table: map<real, string>, ti: nat, draw: (nat, nat) -> Unit): (r: seq<string>)
    requires table != map[]
    ensures |r| == (if n < 0 then 0 else n)
    ensures forall i :: 0 <= i < |r| ==> IsOutcome(r[i], table)
  {
    var r := seq(if n < 0 then 0 else n, i requires 0 <= i => Sample(draw(ti, i), table).value);
    assert forall i :: 0 <= i < |r| ==> IsOutcome(r[i], table) by {
      forall i | 0 <= i < |r| ensures IsOutcome(r[i], table) {
        SampleIsOutcome(draw(ti, i), table);
      }
    }
    r
  }

  /**
   * list_type_auto, as a value: for each sub-type in turn, no labels for a
   * zero count, and none for a negative one either (its range is empty, so
   * the table is never looked up); for a positive count the label table
   * under "type" + its name is looked up (failing on a missing key or an
   * empty table) and drawn once per record.
   */
  function TypesAuto(counts: map<string, int>, types: seq<string>, typeTables: map<string, map<real, string>>,
                     draw: (nat, nat) -> Unit): (r: Result<map<string, seq<string>>>)
    requires forall t :: t in types ==> t in counts
    ensures r.Ok? ==> forall t :: t in r.value <==> t in types
    ensures r.Err? ==>
              (r.error == IndexError ||
               exists t :: t in types && counts[t] > 0 && "type" + t !in typeTables && r.error == KeyError("type" + t))
  {
    if types == [] then Ok(map[])
    else
      var n := |types| - 1;
      var t := types[n];
      assert forall u :: u in types <==> u in types[..n] || u == t;
      var m := TypesAuto(counts, types[..n], typeTables, draw);
      if m.Err? then m
      else if counts[t] <= 0 then Ok(m.value[t := []])
      else if "type" + t !in typeTables then Err(KeyError("type" + t))
      else if typeTables["type" + t] == map[] then Err(IndexError)
      else
        Ok(m.value[t := DrawLabels(counts[t], typeTables["type" + t], n, draw)])
  }

  /** The labels of every sub-type are as many as its (non-negative) count. */
  lemma {:induction false} TypesAutoLengths(counts: map<string, int>, types: seq<string>,
                                            typeTables: map<string, map<real, string>>, draw: (nat, nat) -> Unit)
    requires forall t :: t in types ==> t in counts
    ensures TypesAuto(counts, types, typeTables, draw).Ok? ==>
              forall t :: t in types ==>
                t in TypesAuto(counts, types, typeTables, draw).value &&
                |TypesAuto(counts, types, typeTables, draw).value[t]| == (if counts[t] < 0 then 0 else counts[t])
  {
    if types != [] {
      var n := |types| - 1;
      assert forall u :: u in types <==> u in types[..n] || u == types[n];
      TypesAutoLengths(counts, types[..n], typeTables, draw);
    }
  }

  /**
   * The labels drawn for a sub-type whose label table is present: each one
   * is an outcome of that table.
   */
  lemma {:induction false} TypesAutoOutcomes(counts: map<string, int>, types: seq<string>,
                                             typeTables: map<string, map<real, string>>, draw: (nat, nat) -> Unit)
    requires forall t :: t in types ==> t in counts
    ensures TypesAuto(counts, types, typeTables, draw).Ok? ==>
              forall t :: t in types && "type" + t in typeTables ==>
                t in TypesAuto(counts, types, typeTables, draw).value &&
                forall x :: x in TypesAuto(counts, types, typeTables, draw).value[t] ==> IsOutcome(x, typeTables["type" + t])
  {
    if types != [] {
      var n := |types| - 1;
      assert forall u :: u in types <==> u in types[..n] || u == types[n];
      TypesAutoOutcomes(counts, types[..n], typeTables, draw);
    }
  }

  /**
   * A sub-type with a positive count whose label table is missing makes the
   * whole draw fail (unless an earlier sub-type already failed).
   */
  lemma {:induction false} TypesAutoMissingTable(counts: map<string, int>, types: seq<string>,
                                                 typeTables: map<string, map<real, string>>, draw: (nat, nat) -> Unit)
    requires forall t :: t in types ==> t in counts
    ensures (exists t :: t in types && counts[t] > 0 && "type" + t !in typeTables) ==>
              TypesAuto(counts, types, typeTables, draw).Err?
  {
    if types != [] {
      var n := |types| - 1;
      assert forall u :: u in types <==> u in types[..n] || u == types[n];
      TypesAutoMissingTable(counts, types[..n], typeTables, draw);
    }
  }

  /**
   * Every sub-type whose count is not positive or whose label table is present and
   * non-empty: the draw succeeds.
   */
  lemma {:induction false} TypesAutoSucceeds(counts: map<string, int>, types: seq<string>,
                                             typeTables: map<string, map<real, string>>, draw: (nat, nat) -> Unit)
    requires forall t :: t in types ==> t in counts
    requires forall t :: t in types && counts[t] > 0 ==> "type" + t in typeTables && typeTables["type" + t] != map[]
    ensures TypesAuto(counts, types, typeTables, draw).Ok?
  {
    if types != [] {
      var n := |types| - 1;
      assert forall u :: u in types[..n] ==> u in types;
      TypesAutoSucceeds(counts, types[..n], typeTables, draw);
    }
  }

  /** list_type_auto: the loop over the sub-types, building the label dictionary. */
  method ListTypeAuto(counts: map<string, int>, types: seq<string>, typeTables: map<string, map<real, string>>,
                      draw: (nat, nat) -> Unit) returns (r: Result<map<string, seq<string>>>)
    requires forall t :: t in types ==> t in counts
    ensures r == TypesAuto(counts, types, typeTables, draw)
  {
    var labels: map<string, seq<string>> := map[];
    var ti := 0;
    while ti < |types|
      invariant 0 <= ti <= |types|
      invariant TypesAuto(counts, types[..ti], typeTables, draw) == Ok(labels)
    {
      var t := types[ti];
      assert types[..ti + 1][..ti] == types[..ti];
      assert types[..ti + 1][ti] == t;
      var nb := counts[t];
      if nb <= 0 {
        labels := labels[t := []];
      } else {
        if "type" + t !in typeTables {
          assert TypesAuto(counts, types[..ti + 1], typeTables, draw) == Err(KeyError("type" + t));
          FailurePersists(counts, types, typeTables, draw, ti + 1);
          assert types[..|types|] == types;
          return Err(KeyError("type" + t));
        }
        var table := typeTables["type" + t];
        if table == map[] {
          assert TypesAuto(counts, types[..ti + 1], typeTables, draw) == Err(IndexError);
          FailurePersists(counts, types, typeTables, draw, ti + 1);
          assert types[..|types|] == types;
          return Err(IndexError);
        }
        var drawn := DrawList(nb, table, ti, draw);
        labels := labels[t := drawn];
      }
      ti := ti + 1;
    }
    assert types[..ti] == types;
    r := Ok(labels);
  }

  /** The comprehension of list_type_auto for one sub-type: nb labels drawn from its table. */
  method DrawList(nb: int, table: map<real, string>, ti: nat, draw: (nat, nat) -> Unit) returns (drawn: seq<string>)
    requires nb > 0 && table != map[]
    ensures drawn == DrawLabels(nb, table, ti, draw)
  {
    drawn := [];
    var i := 0;
    while i < nb
      invariant 0 <= i <= nb
      invariant drawn == DrawLabels(nb, table, ti, draw)[..i]
    {
      drawn := drawn + [Sample(draw(ti, i), table).value];
      i := i + 1;
    }
  }

  /** Once the draw fails on a prefix of the sub-types, it fails the same way on every longer prefix. */
  lemma FailurePersists(counts: map<string, int>, types: seq<string>, typeTables: map<string, map<real, string>>,
                        draw: (nat, nat) -> Unit, k: nat)
    requires forall t :: t in types ==> t in counts
    requires k <= |types| && TypesAuto(counts, types[..k], typeTables, draw).Err?
    ensures TypesAuto(counts, types, typeTables, draw) == TypesAuto(counts, types[..k], typeTables, draw)
    decreases |types| - k
  {
    if k < |types| {
      assert types[..k + 1][..k] == types[..k];
      assert forall t :: t in types[..k + 1] ==> t in types;
      FailurePersists(counts, types, typeTables, draw, k + 1);
    } else {
      assert types[..k] == types;
    }
  }
}
