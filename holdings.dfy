/**
 * The loop the four random generators (fin_random, immo_random, pro_random,
 * emprunt_random) share: settle how many records of each sub-type to draw
 * and their labels (the plan), then walk the sub-types in order, look up the
 * sub-type's amount range, and draw one correlated amount per record.
 */
module Holdings {
  import opened Common
  import opened RangeSampler
  import opened Tables
  import opened Expansion

  /** "manual" carries the user's per-sub-type label-to-count dictionaries; "auto" draws them. */
  datatype Mode = Manual(nb: map<string, seq<(string, int)>>) | Auto

  /**
   * The draws a generator consumes: `count(i)` for the count of the i-th
   * sub-type, `kind(i, j)` for the label of its j-th record, `amount(k)` for
   * the correlated amount of the k-th record overall, and `extra(k)` for any
   * further draw about the k-th record (a tax scheme, a loan duration).
   */
  datatype Draws = Draws(count: nat -> Unit, kind: (nat, nat) -> Unit, amount: nat -> Unit, extra: nat -> Unit)

  /** How many records of each sub-type, and the label of each. */
  datatype Plan = Plan(counts: map<string, int>, labels: map<string, seq<string>>)

  /** Every sub-type has a count and as many labels as its (non-negative) count. */
  ghost predicate Covers(plan: Plan, types: seq<string>)
  {
    forall t :: t in types ==>
      t in plan.counts && t in plan.labels && |plan.labels[t]| == (if plan.counts[t] < 0 then 0 else plan.counts[t])
  }

  /** The plan of a generator: expanded from the user's dictionaries, or drawn from the tables. */
  function PlanFor(mode: Mode, d: Domain, draws: Draws): (r: Result<Plan>)
    ensures r.Ok? ==> Covers(r.value, d.types)
  {
    match mode
    case Manual(nb) =>
      var labels :- ListTypeManual(nb, d.types);
      Ok(Plan(ListNbManual(labels, d.types), labels))
    case Auto =>
      var counts :- ListNbAuto(d.types, d.nbTables, draws.count);
      var labels :- TypesAuto(counts, d.types, d.typeTables, draws.kind);
      TypesAutoLengths(counts, d.types, d.typeTables, draws.kind);
      Ok(Plan(counts, labels))
  }

  /** The plan, with list_type_auto run as its loop. */
  method MakePlan(mode: Mode, d: Domain, draws: Draws) returns (r: Result<Plan>)
    ensures r == PlanFor(mode, d, draws)
  {
    match mode {
      case Manual(nb) =>
        r := PlanFor(mode, d, draws);
      case Auto =>
        var counts := ListNbAuto(d.types, d.nbTables, draws.count);
        if counts.Err? {
          return Err(counts.error);
        }
        var labels := ListTypeAuto(counts.value, d.types, d.typeTables, draws.kind);
        if labels.Err? {
          return Err(labels.error);
        }
        r := Ok(Plan(counts.value, labels.value));
    }
  }

  /** With every count and label table present and non-empty, the random plan always succeeds. */
  lemma AutoPlanOk(d: Domain, draws: Draws)
    requires CountKeys(d) && LabelKeys(d) && Filled(d)
    ensures PlanFor(Auto, d, draws).Ok?
  {
    assert forall t :: t in d.types ==> "nb" + t in d.nbTables && 1.0 in d.nbTables["nb" + t];
    var counts := ListNbAuto(d.types, d.nbTables, draws.count);
    assert counts.Ok?;
    assert forall t :: t in d.types ==> "type" + t in d.typeTables && 1.0 in d.typeTables["type" + t];
    TypesAutoSucceeds(counts.value, d.types, d.typeTables, draws.kind);
  }

  /** A record to draw: its sub-type, its label, and its rank among the records of that sub-type. */
  datatype Slot = Slot(kind: string, name: string, rank: nat)

  function Block(t: string, ls: seq<string>): (b: seq<Slot>)
    ensures |b| == |ls|
  {
    seq(|ls|, i requires 0 <= i < |ls| => Slot(t, ls[i], i))
  }

  /** The records to draw, sub-type by sub-type in order. */
  function Slots(types: seq<string>, labels: map<string, seq<string>>): seq<Slot>
    requires forall t :: t in types ==> t in labels
  {
    if types == [] then []
    else
      var n := |types| - 1;
      assert forall t :: t in types[..n] ==> t in types;
      Slots(types[..n], labels) + Block(types[n], labels[types[n]])
  }

  /** Each record to draw belongs to a listed sub-type and carries that sub-type's label of its rank. */
  lemma {:induction false} SlotsWellFormed(types: seq<string>, labels: map<string, seq<string>>)
    requires forall t :: t in types ==> t in labels
    ensures forall s :: s in Slots(types, labels) ==>
              s.kind in types && s.rank < |labels[s.kind]| && s.name == labels[s.kind][s.rank]
  {
    if types != [] {
      var n := |types| - 1;
      assert forall t :: t in types[..n] ==> t in types;
      SlotsWellFormed(types[..n], labels);
    }
  }

  /** Every planned label of every listed sub-type has its slot. */
  lemma {:induction false} SlotsComplete(types: seq<string>, labels: map<string, seq<string>>, t: string, i: nat)
    requires forall u :: u in types ==> u in labels
    requires t in types && i < |labels[t]|
    ensures Slot(t, labels[t][i], i) in Slots(types, labels)
  {
    var n := |types| - 1;
    assert forall u :: u in types[..n] ==> u in types;
    var block := Block(types[n], labels[types[n]]);
    assert Slots(types, labels) == Slots(types[..n], labels) + block;
    if t == types[n] {
      assert block[i] == Slot(t, labels[t][i], i);
    } else {
      assert t in types[..n];
      SlotsComplete(types[..n], labels, t, i);
    }
  }

  /** Within one sub-type, the records come in the order of their ranks. */
  lemma {:induction false} SlotsRanksIncrease(types: seq<string>, labels: map<string, seq<string>>)
    requires forall t :: t in types ==> t in labels
    requires Distinct(types)
    ensures forall i, j :: (0 <= i < j < |Slots(types, labels)| &&
                            Slots(types, labels)[i].kind == Slots(types, labels)[j].kind) ==>
              Slots(types, labels)[i].rank < Slots(types, labels)[j].rank
  {
    if types != [] {
      var n := |types| - 1;
      var front := types[..n];
      assert forall t :: t in front ==> t in types;
      assert Distinct(front);
      SlotsRanksIncrease(front, labels);
      SlotsWellFormed(front, labels);
      var before := Slots(front, labels);
      var block := Block(types[n], labels[types[n]]);
      var all := Slots(types, labels);
      assert all == before + block;
      forall i, j | 0 <= i < j < |all| && all[i].kind == all[j].kind
        ensures all[i].rank < all[j].rank
      {
        if j < |before| {
          assert all[i] == before[i] && all[j] == before[j];
        } else if i >= |before| {
          assert all[i] == block[i - |before|] && all[j] == block[j - |before|];
        } else {
          assert false;
        }
      }
    }
  }

  /** A drawn record: its slot and its correlated amount. */
  datatype Holding = Holding(slot: Slot, amount: real)

  /** The amount of the k-th record, drawn within the range of its sub-type. */
  function DrawAmount(u: Unit, range: Range): (y: real)
    ensures range.lo <= range.hi ==> range.lo as real <= y <= range.hi as real
  {
    Correlated(u, range.lo as real, range.hi as real)
  }

  /** Every slot's sub-type has an amount range. */
  ghost predicate Priced(slots: seq<Slot>, amounts: map<string, Range>)
  {
    forall s :: s in slots ==> "montant" + s.kind in amounts
  }

  /** One holding per slot, the k-th amount drawn with `amount(k)`. */
  function Rows(slots: seq<Slot>, amounts: map<string, Range>, amount: nat -> Unit): (hs: seq<Holding>)
    requires Priced(slots, amounts)
    ensures |hs| == |slots|
  {
    if slots == [] then []
    else
      var n := |slots| - 1;
      assert Priced(slots[..n], amounts) by {
        forall s | s in slots[..n] ensures "montant" + s.kind in amounts {
          assert s in slots;
        }
      }
      assert slots[n] in slots;
      Rows(slots[..n], amounts, amount) + [Holding(slots[n], DrawAmount(amount(n), amounts["montant" + slots[n].kind]))]
  }

  /** The k-th holding is the k-th slot with the k-th amount draw in its sub-type's range. */
  lemma {:induction false} RowsAt(slots: seq<Slot>, amounts: map<string, Range>, amount: nat -> Unit, k: nat)
    requires Priced(slots, amounts) && k < |slots|
    ensures slots[k] in slots && Rows(slots, amounts, amount)[k] ==
              Holding(slots[k], DrawAmount(amount(k), amounts["montant" + slots[k].kind]))
  {
    var n := |slots| - 1;
    if k < n {
      assert Priced(slots[..n], amounts) by {
        forall s | s in slots[..n] ensures "montant" + s.kind in amounts {
          assert s in slots;
        }
      }
      RowsAt(slots[..n], amounts, amount, k);
      assert slots[..n][k] == slots[k];
    }
  }

  /**
   * The records a generator draws once its plan is settled: sub-type by
   * sub-type, the amount range (a missing one fails with its key) and one
   * holding per planned label.
   */
  function HoldingsOf(plan: Plan, d: Domain, amount: nat -> Unit): (r: Result<seq<Holding>>)
    requires Covers(plan, d.types)
    ensures r.Ok? <==> AmountKeys(d)
    ensures r.Err? ==> r.error.KeyError?
    ensures r.Ok? ==> forall h :: h in r.value ==>
                        (h.slot.kind in d.types &&
                         h.slot.rank < |plan.labels[h.slot.kind]| &&
                         h.slot.name == plan.labels[h.slot.kind][h.slot.rank])
  {
    var missing := FirstMissing("montant", d.types, d.amounts);
    if missing.Some? then Err(KeyError(missing.value))
    else
      var slots := Slots(d.types, plan.labels);
      SlotsWellFormed(d.types, plan.labels);
      assert Priced(slots, d.amounts);
      var hs := Rows(slots, d.amounts, amount);
      assert forall h :: h in hs ==> h.slot in slots by {
        forall h | h in hs ensures h.slot in slots {
          var k :| 0 <= k < |hs| && hs[k] == h;
          RowsAt(slots, d.amounts, amount, k);
        }
      }
      Ok(hs)
  }

  /** The k-th record drawn fills the k-th slot. */
  lemma HoldingsFillSlots(plan: Plan, d: Domain, amount: nat -> Unit)
    requires Covers(plan, d.types)
    ensures HoldingsOf(plan, d, amount).Ok? ==>
              |HoldingsOf(plan, d, amount).value| == |Slots(d.types, plan.labels)| &&
              forall k :: 0 <= k < |Slots(d.types, plan.labels)| ==>
                HoldingsOf(plan, d, amount).value[k].slot == Slots(d.types, plan.labels)[k]
  {
    var r := HoldingsOf(plan, d, amount);
    if r.Ok? {
      var slots := Slots(d.types, plan.labels);
      SlotsWellFormed(d.types, plan.labels);
      assert Priced(slots, d.amounts);
      assert r.value == Rows(slots, d.amounts, amount);
      forall k | 0 <= k < |slots| ensures r.value[k].slot == slots[k] {
        RowsAt(slots, d.amounts, amount, k);
      }
    }
  }

  /** Every planned label of every sub-type is drawn as a record. */
  lemma HoldingsComplete(plan: Plan, d: Domain, amount: nat -> Unit, t: string, i: nat)
    requires Covers(plan, d.types) && t in d.types && i < |plan.labels[t]|
    ensures HoldingsOf(plan, d, amount).Ok? ==>
              exists k :: 0 <= k < |HoldingsOf(plan, d, amount).value| &&
                HoldingsOf(plan, d, amount).value[k].slot == Slot(t, plan.labels[t][i], i)
  {
    HoldingsFillSlots(plan, d, amount);
    SlotsComplete(d.types, plan.labels, t, i);
  }

  /** Records of the same sub-type are drawn in increasing rank, so no two share a rank. */
  lemma HoldingsRanksIncrease(plan: Plan, d: Domain, amount: nat -> Unit)
    requires Covers(plan, d.types) && Distinct(d.types)
    ensures HoldingsOf(plan, d, amount).Ok? ==>
              forall i, j :: (0 <= i < j < |HoldingsOf(plan, d, amount).value| &&
                              HoldingsOf(plan, d, amount).value[i].slot.kind == HoldingsOf(plan, d, amount).value[j].slot.kind) ==>
                HoldingsOf(plan, d, amount).value[i].slot.rank < HoldingsOf(plan, d, amount).value[j].slot.rank
  {
    HoldingsFillSlots(plan, d, amount);
    SlotsRanksIncrease(d.types, plan.labels);
  }

  /** In the manual mode, every record carries a label the user listed, with a positive count, under its sub-type. */
  lemma ManualLabels(nb: map<string, seq<(string, int)>>, d: Domain, draws: Draws)
    ensures PlanFor(Manual(nb), d, draws).Ok? ==>
              var plan := PlanFor(Manual(nb), d, draws).value;
              HoldingsOf(plan, d, draws.amount).Ok? ==>
                forall h :: h in HoldingsOf(plan, d, draws.amount).value ==>
                  h.slot.kind in d.types && h.slot.kind in nb && CountFor(nb[h.slot.kind], h.slot.name) > 0
  {
    var planned := PlanFor(Manual(nb), d, draws);
    if planned.Ok? {
      var plan := planned.value;
      var labels := ListTypeManual(nb, d.types).value;
      assert plan.labels == labels;
      var r := HoldingsOf(plan, d, draws.amount);
      if r.Ok? {
        forall h | h in r.value
          ensures h.slot.kind in d.types && h.slot.kind in nb && CountFor(nb[h.slot.kind], h.slot.name) > 0
        {
          var ls := labels[h.slot.kind];
          assert h.slot.name == ls[h.slot.rank] && ls[h.slot.rank] in ls;
          assert multiset(ls)[h.slot.name] > 0;
        }
      }
    }
  }

  /** In the random mode, every record carries a label drawn from its sub-type's label table. */
  lemma AutoLabels(d: Domain, draws: Draws)
    ensures PlanFor(Auto, d, draws).Ok? ==>
              var plan := PlanFor(Auto, d, draws).value;
              HoldingsOf(plan, d, draws.amount).Ok? ==>
                forall h :: h in HoldingsOf(plan, d, draws.amount).value ==>
                  h.slot.kind in d.types && "type" + h.slot.kind in d.typeTables &&
                  IsOutcome(h.slot.name, d.typeTables["type" + h.slot.kind])
  {
    var planned := PlanFor(Auto, d, draws);
    if planned.Ok? {
      var plan := planned.value;
      var counts := ListNbAuto(d.types, d.nbTables, draws.count).value;
      var labels := TypesAuto(counts, d.types, d.typeTables, draws.kind);
      assert plan.labels == labels.value;
      TypesAutoOutcomes(counts, d.types, d.typeTables, draws.kind);
      TypesAutoMissingTable(counts, d.types, d.typeTables, draws.kind);
      var r := HoldingsOf(plan, d, draws.amount);
      if r.Ok? {
        forall h | h in r.value
          ensures h.slot.kind in d.types && "type" + h.slot.kind in d.typeTables &&
                  IsOutcome(h.slot.name, d.typeTables["type" + h.slot.kind])
        {
          var ls := plan.labels[h.slot.kind];
          assert h.slot.name == ls[h.slot.rank] && ls[h.slot.rank] in ls;
          assert counts[h.slot.kind] > 0;
        }
      }
    }
  }

  /** Each drawn amount lies in the range of its sub-type. */
  lemma HoldingsInRange(plan: Plan, d: Domain, amount: nat -> Unit)
    requires Covers(plan, d.types) && Ordered(d)
    ensures HoldingsOf(plan, d, amount).Ok? ==>
              forall h :: h in HoldingsOf(plan, d, amount).value ==>
                "montant" + h.slot.kind in d.amounts &&
                d.amounts["montant" + h.slot.kind].lo as real <= h.amount <= d.amounts["montant" + h.slot.kind].hi as real
  {
    var r := HoldingsOf(plan, d, amount);
    if r.Ok? {
      var slots := Slots(d.types, plan.labels);
      SlotsWellFormed(d.types, plan.labels);
      assert Priced(slots, d.amounts);
      assert r.value == Rows(slots, d.amounts, amount);
      forall h | h in r.value
        ensures "montant" + h.slot.kind in d.amounts &&
                d.amounts["montant" + h.slot.kind].lo as real <= h.amount <= d.amounts["montant" + h.slot.kind].hi as real
      {
        var k :| 0 <= k < |r.value| && r.value[k] == h;
        RowsAt(slots, d.amounts, amount, k);
      }
    }
  }

  /** Drawing one more record appends one holding, drawn with the next amount draw. */
  lemma RowsAppend(slots: seq<Slot>, s: Slot, amounts: map<string, Range>, amount: nat -> Unit)
    requires Priced(slots + [s], amounts)
    ensures Priced(slots, amounts)
    ensures Rows(slots + [s], amounts, amount) ==
            Rows(slots, amounts, amount) + [Holding(s, DrawAmount(amount(|slots|), amounts["montant" + s.kind]))]
  {
    assert (slots + [s])[..|slots|] == slots;
    assert s == (slots + [s])[|slots|];
  }

  /** One more label of a block extends the slots drawn so far by its slot. */
  lemma BlockStep(before: seq<Slot>, block: seq<Slot>, t: string, ls: seq<string>, i: nat)
    requires block == Block(t, ls) && i < |ls|
    ensures before + block[..i + 1] == (before + block[..i]) + [Slot(t, ls[i], i)]
  {
    assert block[..i + 1] == block[..i] + [block[i]];
  }

  /** A priced slot appended to priced slots keeps them priced. */
  lemma PricedSnoc(xs: seq<Slot>, s: Slot, amounts: map<string, Range>)
    requires Priced(xs, amounts) && "montant" + s.kind in amounts
    ensures Priced(xs + [s], amounts)
  {
    forall x | x in xs + [s] ensures "montant" + x.kind in amounts {
      assert x in xs || x == s;
    }
  }

  /** The records of one sub-type: one holding per planned label, in order. */
  method DrawBlock(hs: seq<Holding>, ghost before: seq<Slot>, t: string, nb: int, ls: seq<string>,
                   amounts: map<string, Range>, amount: nat -> Unit) returns (out: seq<Holding>)
    requires "montant" + t in amounts && |ls| == (if nb < 0 then 0 else nb)
    requires Priced(before, amounts)
    requires hs == Rows(before, amounts, amount)
    ensures Priced(before + Block(t, ls), amounts)
    ensures out == Rows(before + Block(t, ls), amounts, amount)
  {
    var range := amounts["montant" + t];
    ghost var block := Block(t, ls);
    assert before + block[..0] == before;
    out := hs;
    var i := 0;
    while i < nb
      invariant 0 <= i <= |ls|
      invariant Priced(before + block[..i], amounts)
      invariant out == Rows(before + block[..i], amounts, amount)
    {
      ghost var done := before + block[..i];
      BlockStep(before, block, t, ls, i);
      PricedSnoc(done, Slot(t, ls[i], i), amounts);
      RowsAppend(done, Slot(t, ls[i], i), amounts, amount);
      out := out + [Holding(Slot(t, ls[i], i), DrawAmount(amount(|out|), range))];
      i := i + 1;
    }
    assert block[..i] == block;
  }

  /** The outcome is the first missing amount range, or the rows of the slots. */
  lemma OutcomeOfPlan(plan: Plan, d: Domain, amount: nat -> Unit)
    requires Covers(plan, d.types)
    ensures FirstMissing("montant", d.types, d.amounts).Some? ==>
              HoldingsOf(plan, d, amount) == Err(KeyError(FirstMissing("montant", d.types, d.amounts).value))
    ensures FirstMissing("montant", d.types, d.amounts).None? ==>
              Priced(Slots(d.types, plan.labels), d.amounts) &&
              HoldingsOf(plan, d, amount) == Ok(Rows(Slots(d.types, plan.labels), d.amounts, amount))
  {
    if FirstMissing("montant", d.types, d.amounts).None? {
      SlotsWellFormed(d.types, plan.labels);
    }
  }

  /** The first `i` sub-types all have an amount range. */
  ghost predicate RangedUpTo(types: seq<string>, amounts: map<string, Range>, i: nat)
  {
    forall j :: 0 <= j < i && j < |types| ==> "montant" + types[j] in amounts
  }

  /** The slots of one more sub-type follow those of the sub-types before it. */
  lemma SlotsStep(types: seq<string>, labels: map<string, seq<string>>, i: nat)
    requires i < |types| && forall t :: t in types ==> t in labels
    ensures forall t :: t in types[..i] ==> t in labels
    ensures forall t :: t in types[..i + 1] ==> t in labels
    ensures Slots(types[..i + 1], labels) == Slots(types[..i], labels) + Block(types[i], labels[types[i]])
  {
    assert forall t :: t in types[..i + 1] ==> t in types;
    assert forall t :: t in types[..i] ==> t in types;
    assert types[..i + 1][..i] == types[..i];
  }

  /**
   * The generators' shared loop: sub-types in order, records of each in
   * order, the k-th record's amount drawn with `amount(k)`.
   */
  method DrawHoldings(plan: Plan, d: Domain, amount: nat -> Unit) returns (r: Result<seq<Holding>>)
    requires Covers(plan, d.types)
    ensures r == HoldingsOf(plan, d, amount)
  {
    var types := d.types;
    assert forall t :: t in types ==> t in plan.labels && t in plan.counts;
    var hs: seq<Holding> := [];
    var ti := 0;
    while ti < |types|
      invariant 0 <= ti <= |types|
      invariant RangedUpTo(types, d.amounts, ti)
      invariant Priced(Slots(types[..ti], plan.labels), d.amounts)
      invariant hs == Rows(Slots(types[..ti], plan.labels), d.amounts, amount)
    {
      var t := types[ti];
      if "montant" + t !in d.amounts {
        FirstMissingIs("montant", types, d.amounts, ti);
        OutcomeOfPlan(plan, d, amount);
        return Err(KeyError("montant" + t));
      }
      SlotsStep(types, plan.labels, ti);
      assert RangedUpTo(types, d.amounts, ti + 1);
      ghost var before := Slots(types[..ti], plan.labels);
      hs := DrawBlock(hs, before, t, plan.counts[t], plan.labels[t], d.amounts, amount);
      ti := ti + 1;
    }
    assert types[..ti] == types;
    assert forall t :: t in types ==> "montant" + t in d.amounts by {
      forall t | t in types ensures "montant" + t in d.amounts {
        var j :| 0 <= j < |types| && types[j] == t;
      }
    }
    assert FirstMissing("montant", types, d.amounts).None?;
    OutcomeOfPlan(plan, d, amount);
    r := Ok(hs);
  }
}
