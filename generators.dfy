/**
 * The random generators fin_random, immo_random, pro_random and
 * emprunt_random: the shared plan-and-draw loop, then one record per drawn
 * holding, held in the household's fixed shares.
 */
module Generators {
  import opened Common
  import opened RangeSampler
  import opened Tables
  import opened Records
  import opened Expansion
  import opened Holdings
  import opened FromAmounts

  // ---------------------------------------------------------------- fin_random

  /** One financial asset per drawn holding, named by its label. */
  function FinRecords(hs: seq<Holding>, isCelib: bool): (fin: seq<FinAsset>)
    ensures |fin| == |hs|
    ensures forall k :: 0 <= k < |hs| ==>
              fin[k].typeProd == hs[k].slot.name && fin[k].value == hs[k].amount &&
              Shares(fin[k].pctDetention, fin[k].pctDetentionConjoint, isCelib)
  {
    seq(|hs|, k requires 0 <= k < |hs| =>
      FinAsset(hs[k].slot.name, hs[k].amount, OwnerShare(isCelib), PartnerShare(isCelib)))
  }

  /** fin_random: the plan, then one asset per planned label; only the plan can fail. */
  function FinOutcome(mode: Mode, isCelib: bool, draws: Draws): (r: Result<seq<FinAsset>>)
    ensures r.Ok? <==> PlanFor(mode, FIN, draws).Ok?
    ensures r.Err? ==> r.error == PlanFor(mode, FIN, draws).error
  {
    var plan :- PlanFor(mode, FIN, draws);
    FinKeys();
    Ok(FinRecords(HoldingsOf(plan, FIN, draws.amount).value, isCelib))
  }

  method FinRandom(mode: Mode, isCelib: bool, draws: Draws) returns (r: Result<seq<FinAsset>>)
    ensures r == FinOutcome(mode, isCelib, draws)
  {
    var planned := MakePlan(mode, FIN, draws);
    if planned.Err? {
      return Err(planned.error);
    }
    FinKeys();
    var drawn := DrawHoldings(planned.value, FIN, draws.amount);
    r := Ok(FinRecords(drawn.value, isCelib));
  }

  /** Each financial asset comes from one drawn holding: its label, its amount. */
  lemma FinFromHoldings(hs: seq<Holding>, isCelib: bool, a: FinAsset)
    requires a in FinRecords(hs, isCelib)
    ensures exists h :: h in hs && a.typeProd == h.slot.name && a.value == h.amount
  {
    var fin := FinRecords(hs, isCelib);
    var k :| 0 <= k < |fin| && fin[k] == a;
    assert hs[k] in hs;
  }

  /** In the random mode the financial plan never fails, and each label is drawn from its sub-type's table. */
  lemma FinAutoSucceeds(isCelib: bool, draws: Draws)
    ensures FinOutcome(Auto, isCelib, draws).Ok?
    ensures forall a :: a in FinOutcome(Auto, isCelib, draws).value ==>
              exists t :: t in FIN.types && "type" + t in FIN.typeTables && IsOutcome(a.typeProd, FIN.typeTables["type" + t])
  {
    FinKeys();
    FinFilled();
    AutoPlanOk(FIN, draws);
    AutoLabels(FIN, draws);
    var plan := PlanFor(Auto, FIN, draws).value;
    var hs := HoldingsOf(plan, FIN, draws.amount).value;
    forall a | a in FinRecords(hs, isCelib)
      ensures exists t :: t in FIN.types && "type" + t in FIN.typeTables && IsOutcome(a.typeProd, FIN.typeTables["type" + t])
    {
      FinFromHoldings(hs, isCelib, a);
    }
  }

  /**
   * In the manual mode the financial assets exist exactly when every sub-type
   * is listed; a missing one fails with its name, and each asset carries a
   * label the user listed with a positive count.
   */
  lemma FinManual(nb: map<string, seq<(string, int)>>, isCelib: bool, draws: Draws)
    ensures FinOutcome(Manual(nb), isCelib, draws).Ok? <==> forall t :: t in FIN.types ==> t in nb
    ensures FinOutcome(Manual(nb), isCelib, draws).Err? ==>
              exists i :: 0 <= i < |FIN.types| && FinOutcome(Manual(nb), isCelib, draws).error == KeyError(FIN.types[i]) &&
                          FIN.types[i] !in nb
    ensures FinOutcome(Manual(nb), isCelib, draws).Ok? ==>
              forall a :: a in FinOutcome(Manual(nb), isCelib, draws).value ==>
                exists t :: t in FIN.types && t in nb && CountFor(nb[t], a.typeProd) > 0
  {
    FinKeys();
    ManualLabels(nb, FIN, draws);
    var r := FinOutcome(Manual(nb), isCelib, draws);
    if r.Ok? {
      var plan := PlanFor(Manual(nb), FIN, draws).value;
      var hs := HoldingsOf(plan, FIN, draws.amount).value;
      forall a | a in FinRecords(hs, isCelib)
        ensures exists t :: t in FIN.types && t in nb && CountFor(nb[t], a.typeProd) > 0
      {
        FinFromHoldings(hs, isCelib, a);
      }
    }
  }

  /** Each financial amount lies in the range of the sub-type it was drawn for. */
  lemma FinInRange(mode: Mode, isCelib: bool, draws: Draws)
    ensures FinOutcome(mode, isCelib, draws).Ok? ==>
              forall a :: a in FinOutcome(mode, isCelib, draws).value ==>
                exists t :: t in FIN.types && "montant" + t in FIN.amounts &&
                  FIN.amounts["montant" + t].lo as real <= a.value <= FIN.amounts["montant" + t].hi as real
  {
    var r := FinOutcome(mode, isCelib, draws);
    if r.Ok? {
      FinKeys();
      FinOrdered();
      var plan := PlanFor(mode, FIN, draws).value;
      HoldingsInRange(plan, FIN, draws.amount);
      var hs := HoldingsOf(plan, FIN, draws.amount).value;
      forall a | a in FinRecords(hs, isCelib)
        ensures exists t :: t in FIN.types && "montant" + t in FIN.amounts &&
                  FIN.amounts["montant" + t].lo as real <= a.value <= FIN.amounts["montant" + t].hi as real
      {
        FinFromHoldings(hs, isCelib, a);
      }
    }
  }

  /** Every drawn financial asset is held in the household's shares. */
  lemma FinShares(mode: Mode, isCelib: bool, draws: Draws)
    ensures FinOutcome(mode, isCelib, draws).Ok? ==>
              forall a :: a in FinOutcome(mode, isCelib, draws).value ==> Shares(a.pctDetention, a.pctDetentionConjoint, isCelib)
  {
    var r := FinOutcome(mode, isCelib, draws);
    if r.Ok? {
      FinKeys();
      var hs := HoldingsOf(PlanFor(mode, FIN, draws).value, FIN, draws.amount).value;
      assert r.value == FinRecords(hs, isCelib);
      forall a | a in r.value ensures Shares(a.pctDetention, a.pctDetentionConjoint, isCelib) {
        var k :| 0 <= k < |r.value| && r.value[k] == a;
      }
    }
  }

  // ---------------------------------------------------------------- immo_random

  /** A rented-property label with no manual tax scheme. */
  predicate Unmapped(ext: string)
  {
    ImmoTypeManual(ext) in {"RL-Nue", "RL-Meuble"} && ext !in IMMO_DISPOSITIF_MANUAL
  }

  /**
   * The property drawn for a user's extended label: rented property takes
   * its kind from the label and its tax scheme from the manual scheme table,
   * where a label without an entry fails with its name; any other property
   * has no scheme.
   */
  function ImmoRecord(h: Holding, isCelib: bool): (r: Result<ImmoAsset>)
    ensures r.Err? <==> Unmapped(h.slot.name)
    ensures r.Err? ==> r.error == KeyError(h.slot.name)
  {
    var t := ImmoTypeManual(h.slot.name);
    if t == "RL-Nue" || t == "RL-Meuble" then
      if h.slot.name in IMMO_DISPOSITIF_MANUAL then
        Ok(ImmoAsset(t, IMMO_DISPOSITIF_MANUAL[h.slot.name], h.amount, OwnerShare(isCelib), PartnerShare(isCelib)))
      else Err(KeyError(h.slot.name))
    else
      Ok(ImmoAsset(t, "aucun", h.amount, OwnerShare(isCelib), PartnerShare(isCelib)))
  }

  /** A drawn property: its kind normalised from the label, its scheme, its amount and the household's shares. */
  lemma ImmoRecordFields(h: Holding, isCelib: bool)
    ensures ImmoRecord(h, isCelib).Ok? ==>
              var a := ImmoRecord(h, isCelib).value;
              && a.typeImmo == ImmoTypeManual(h.slot.name) && a.value == h.amount
              && Shares(a.pctDetention, a.pctDetentionConjoint, isCelib)
              && (a.typeImmo in {"RL-Nue", "RL-Meuble"} ==>
                    h.slot.name in IMMO_DISPOSITIF_MANUAL && a.dispositif == IMMO_DISPOSITIF_MANUAL[h.slot.name])
              && (a.typeImmo !in {"RL-Nue", "RL-Meuble"} ==> a.dispositif == "aucun")
  {
  }

  /** The properties of the drawn holdings, in order; the first that fails decides the error. */
  function ImmoRecords(hs: seq<Holding>, isCelib: bool): (r: Result<seq<ImmoAsset>>)
    ensures r.Ok? <==> forall k :: 0 <= k < |hs| ==> ImmoRecord(hs[k], isCelib).Ok?
    ensures r.Ok? ==> |r.value| == |hs| && forall k :: 0 <= k < |hs| ==> ImmoRecord(hs[k], isCelib) == Ok(r.value[k])
    ensures r.Err? ==> exists k :: 0 <= k < |hs| && ImmoRecord(hs[k], isCelib) == Err(r.error) &&
                                   forall j :: 0 <= j < k ==> ImmoRecord(hs[j], isCelib).Ok?
    ensures r.Err? ==> r.error.KeyError?
  {
    Collect(hs, (k: nat, h: Holding) => ImmoRecord(h, isCelib))
  }

  /** The loop of immo_random over the drawn holdings: one property each, stopping at the first failure. */
  method BuildProperties(hs: seq<Holding>, isCelib: bool) returns (r: Result<seq<ImmoAsset>>)
    ensures r == ImmoRecords(hs, isCelib)
  {
    var immo: seq<ImmoAsset> := [];
    var k := 0;
    while k < |hs|
      invariant 0 <= k <= |hs|
      invariant |immo| == k && forall j :: 0 <= j < k ==> ImmoRecord(hs[j], isCelib) == Ok(immo[j])
    {
      var a := ImmoRecord(hs[k], isCelib);
      if a.Err? {
        ghost var all := ImmoRecords(hs, isCelib);
        ghost var first :| 0 <= first < |hs| && ImmoRecord(hs[first], isCelib) == Err(all.error) &&
                           forall j :: 0 <= j < first ==> ImmoRecord(hs[j], isCelib).Ok?;
        assert first == k;
        return Err(a.error);
      }
      immo := immo + [a.value];
      k := k + 1;
    }
    assert ImmoRecords(hs, isCelib).Ok?;
    assert ImmoRecords(hs, isCelib).value == immo;
    r := Ok(immo);
  }

  /**
   * immo_random: the plan, then one property per planned label. The random
   * mode always fails once its plan is drawn, on the extended label list that
   * only the manual mode binds.
   */
  function ImmoOutcome(mode: Mode, isCelib: bool, draws: Draws): (r: Result<seq<ImmoAsset>>)
    ensures mode.Auto? ==> r.Err?
  {
    var plan :- PlanFor(mode, IMMO, draws);
    if mode.Auto? then Err(NameError("list_type_ext"))
    else
      ImmoKeys();
      var hs :- HoldingsOf(plan, IMMO, draws.amount);
      ImmoRecords(hs, isCelib)
  }

  method ImmoRandom(mode: Mode, isCelib: bool, draws: Draws) returns (r: Result<seq<ImmoAsset>>)
    ensures r == ImmoOutcome(mode, isCelib, draws)
  {
    var planned := MakePlan(mode, IMMO, draws);
    if planned.Err? {
      return Err(planned.error);
    }
    if mode.Auto? {
      return Err(NameError("list_type_ext"));
    }
    var drawn := DrawHoldings(planned.value, IMMO, draws.amount);
    if drawn.Err? {
      return Err(drawn.error);
    }
    r := BuildProperties(drawn.value, isCelib);
  }

  /** In the random mode immo_random always fails, on the unbound extended label list. */
  lemma ImmoAutoAlwaysFails(isCelib: bool, draws: Draws)
    ensures ImmoOutcome(Auto, isCelib, draws) == Err(NameError("list_type_ext"))
  {
    ImmoKeys();
    ImmoFilled();
    AutoPlanOk(IMMO, draws);
  }

  /** Each property built from the drawn holdings comes from one holding, with the kind and scheme of its label. */
  lemma ImmoRecordsFields(hs: seq<Holding>, isCelib: bool)
    ensures ImmoRecords(hs, isCelib).Ok? ==>
              forall a :: a in ImmoRecords(hs, isCelib).value ==>
                exists h :: h in hs && ImmoRecord(h, isCelib) == Ok(a)
  {
    var r := ImmoRecords(hs, isCelib);
    if r.Ok? {
      forall a | a in r.value ensures exists h :: h in hs && ImmoRecord(h, isCelib) == Ok(a) {
        var k :| 0 <= k < |r.value| && r.value[k] == a;
        assert hs[k] in hs;
      }
    }
  }

  /**
   * A property as the manual mode builds it from some label x listed under
   * a property sub-type: its kind normalised from x and, when rented, the
   * manual scheme of x, otherwise no scheme.
   */
  ghost predicate ListedAs(a: ImmoAsset, nb: map<string, seq<(string, int)>>)
  {
    exists t, x :: t in IMMO.types && t in nb && CountFor(nb[t], x) > 0 &&
      a.typeImmo == ImmoTypeManual(x) &&
      (a.typeImmo in {"RL-Nue", "RL-Meuble"} ==> x in IMMO_DISPOSITIF_MANUAL && a.dispositif == IMMO_DISPOSITIF_MANUAL[x]) &&
      (a.typeImmo !in {"RL-Nue", "RL-Meuble"} ==> a.dispositif == "aucun")
  }

  /**
   * In the manual mode each property's kind is its user label normalised by
   * immo_type_manual, and a rented one carries that label's manual scheme.
   */
  lemma ImmoManualRecords(nb: map<string, seq<(string, int)>>, isCelib: bool, draws: Draws)
    ensures ImmoOutcome(Manual(nb), isCelib, draws).Ok? ==>
              forall a :: a in ImmoOutcome(Manual(nb), isCelib, draws).value ==>
              ListedAs(a, nb)
  {
    var r := ImmoOutcome(Manual(nb), isCelib, draws);
    if r.Ok? {
      ImmoKeys();
      ManualLabels(nb, IMMO, draws);
      ImmoOutcomeManual(nb, isCelib, draws);
      var plan := PlanFor(Manual(nb), IMMO, draws).value;
      var hs := HoldingsOf(plan, IMMO, draws.amount).value;
      assert r == ImmoRecords(hs, isCelib);
      ImmoListed(nb, hs, isCelib);
    }
  }

  /** Properties built from holdings whose labels the user listed carry those labels' kinds and schemes. */
  lemma ImmoListed(nb: map<string, seq<(string, int)>>, hs: seq<Holding>, isCelib: bool)
    requires forall h :: h in hs ==> h.slot.kind in IMMO.types && h.slot.kind in nb && CountFor(nb[h.slot.kind], h.slot.name) > 0
    ensures ImmoRecords(hs, isCelib).Ok? ==>
              forall a :: a in ImmoRecords(hs, isCelib).value ==>
              ListedAs(a, nb)
  {
    var r := ImmoRecords(hs, isCelib);
    if r.Ok? {
      ImmoRecordsFields(hs, isCelib);
      forall a | a in r.value
        ensures ListedAs(a, nb)
      {
        var h :| h in hs && ImmoRecord(h, isCelib) == Ok(a);
        ImmoRecordFields(h, isCelib);
      }
    }
  }

  /** In the manual mode, once the plan and its holdings are drawn, the outcome is the properties built from them. */
  lemma ImmoOutcomeManual(nb: map<string, seq<(string, int)>>, isCelib: bool, draws: Draws)
    ensures PlanFor(Manual(nb), IMMO, draws).Ok? &&
            HoldingsOf(PlanFor(Manual(nb), IMMO, draws).value, IMMO, draws.amount).Ok? ==>
              ImmoOutcome(Manual(nb), isCelib, draws) ==
              ImmoRecords(HoldingsOf(PlanFor(Manual(nb), IMMO, draws).value, IMMO, draws.amount).value, isCelib)
  {
    ImmoKeys();
  }

  /**
   * A listed rented-property label that has no manual scheme, such as the
   * bare "RL-Meuble", makes the manual mode fail with a missing key.
   */
  lemma ImmoManualUnmappedRentalFails(nb: map<string, seq<(string, int)>>, isCelib: bool, draws: Draws, t: string, x: string)
    requires forall u :: u in IMMO.types ==> u in nb
    requires t in IMMO.types && CountFor(nb[t], x) > 0 && Unmapped(x)
    ensures ImmoOutcome(Manual(nb), isCelib, draws).Err?
    ensures ImmoOutcome(Manual(nb), isCelib, draws).error.KeyError?
  {
    ImmoKeys();
    var plan := PlanFor(Manual(nb), IMMO, draws).value;
    var ls := plan.labels[t];
    assert multiset(ls)[x] > 0;
    assert x in ls;
    var i :| 0 <= i < |ls| && ls[i] == x;
    HoldingsComplete(plan, IMMO, draws.amount, t, i);
    var hs := HoldingsOf(plan, IMMO, draws.amount).value;
    var k :| 0 <= k < |hs| && hs[k].slot == Slot(t, x, i);
    assert ImmoRecord(hs[k], isCelib).Err?;
    assert ImmoRecords(hs, isCelib).Err?;
    ImmoOutcomeManual(nb, isCelib, draws);
  }

  /** The bare label "RL-Meuble" names furnished rental but has no manual scheme. */
  lemma BareMeubleIsUnmapped()
    ensures ImmoTypeManual("RL-Meuble") == "RL-Meuble" && Unmapped("RL-Meuble")
  {
    assert "RL-Meuble" !in RL_NUE_LABELS && "RL-Meuble" !in RL_MEUBLE_LABELS;
  }

  /** Every property built is held in the household's shares. */
  lemma ImmoShares(mode: Mode, isCelib: bool, draws: Draws)
    ensures ImmoOutcome(mode, isCelib, draws).Ok? ==>
              forall a :: a in ImmoOutcome(mode, isCelib, draws).value ==> Shares(a.pctDetention, a.pctDetentionConjoint, isCelib)
  {
    var r := ImmoOutcome(mode, isCelib, draws);
    if r.Ok? {
      ImmoKeys();
      ImmoOutcomeManual(mode.nb, isCelib, draws);
      var hs := HoldingsOf(PlanFor(mode, IMMO, draws).value, IMMO, draws.amount).value;
      assert r == ImmoRecords(hs, isCelib);
      ImmoRecordsFields(hs, isCelib);
      forall a | a in r.value ensures Shares(a.pctDetention, a.pctDetentionConjoint, isCelib) {
        var h :| h in hs && ImmoRecord(h, isCelib) == Ok(a);
        ImmoRecordFields(h, isCelib);
      }
    }
  }

  // ---------------------------------------------------------------- pro_random

  /** One professional asset per drawn holding, named by its label. */
  function ProRecords(hs: seq<Holding>, isCelib: bool): (pro: seq<ProAsset>)
    ensures |pro| == |hs|
    ensures forall k :: 0 <= k < |hs| ==>
              pro[k].typeBienPro == hs[k].slot.name && pro[k].value == hs[k].amount &&
              Shares(pro[k].pctDetention, pro[k].pctDetentionConjoint, isCelib)
  {
    seq(|hs|, k requires 0 <= k < |hs| =>
      ProAsset(hs[k].slot.name, hs[k].amount, OwnerShare(isCelib), PartnerShare(isCelib)))
  }

  /** pro_random: the plan, then one asset per planned label; only the plan can fail. */
  function ProOutcome(mode: Mode, isCelib: bool, draws: Draws): (r: Result<seq<ProAsset>>)
    ensures r.Ok? <==> PlanFor(mode, PRO, draws).Ok?
    ensures r.Err? ==> r.error == PlanFor(mode, PRO, draws).error
  {
    var plan :- PlanFor(mode, PRO, draws);
    ProKeys();
    Ok(ProRecords(HoldingsOf(plan, PRO, draws.amount).value, isCelib))
  }

  method ProRandom(mode: Mode, isCelib: bool, draws: Draws) returns (r: Result<seq<ProAsset>>)
    ensures r == ProOutcome(mode, isCelib, draws)
  {
    var planned := MakePlan(mode, PRO, draws);
    if planned.Err? {
      return Err(planned.error);
    }
    ProKeys();
    var drawn := DrawHoldings(planned.value, PRO, draws.amount);
    r := Ok(ProRecords(drawn.value, isCelib));
  }

  /** Each professional asset comes from one drawn holding: its label, its amount. */
  lemma ProFromHoldings(hs: seq<Holding>, isCelib: bool, a: ProAsset)
    requires a in ProRecords(hs, isCelib)
    ensures exists h :: h in hs && a.typeBienPro == h.slot.name && a.value == h.amount
  {
    var pro := ProRecords(hs, isCelib);
    var k :| 0 <= k < |pro| && pro[k] == a;
    assert hs[k] in hs;
  }

  /**
   * In the random mode pro_random fails exactly when it draws a non-zero
   * count for its third sub-type, "Autres", whose label table it looks up as
   * "typeAutres" while the table is filed under "typeAutre".
   */
  lemma ProAutoFailsOnAutres(isCelib: bool, draws: Draws)
    ensures PRO.types[2] == "Autres"
    ensures ProOutcome(Auto, isCelib, draws).Err? <==> Sample(draws.count(2), PRO_NB["nbAutres"]) != Ok(0)
    ensures ProOutcome(Auto, isCelib, draws).Err? ==> ProOutcome(Auto, isCelib, draws).error == KeyError("type" + PRO.types[2])
  {
    ProCountsAuto(draws);
    var counts := ListNbAuto(PRO.types, PRO.nbTables, draws.count).value;
    ProLabelsAuto(counts, draws.kind);
  }

  /** The random professional counts are drawn, the third from its own table. */
  lemma ProCountsAuto(draws: Draws)
    ensures PRO.types == ["Ste", "Sci", "Autres"]
    ensures ListNbAuto(PRO.types, PRO.nbTables, draws.count).Ok?
    ensures forall t :: t in PRO.types ==> t in ListNbAuto(PRO.types, PRO.nbTables, draws.count).value
    ensures ListNbAuto(PRO.types, PRO.nbTables, draws.count).value[PRO.types[2]] == 0 <==>
            Sample(draws.count(2), PRO_NB["nbAutres"]) == Ok(0)
    ensures ListNbAuto(PRO.types, PRO.nbTables, draws.count).value[PRO.types[2]] >= 0
  {
    ProKeys();
    ProFilled();
    var types := PRO.types;
    assert Distinct(types);
    var nbs := ListNbAuto(types, PRO.nbTables, draws.count);
    assert nbs.Ok?;
    assert "nb" + types[2] == "nbAutres";
    var sampled := Sample(draws.count(2), PRO.nbTables["nb" + types[2]]);
    assert sampled.Ok? && nbs.value[types[2]] == sampled.value;
    SampleIsOutcome(draws.count(2), PRO_NB["nbAutres"]);
    var b :| b in PRO_NB["nbAutres"] && PRO_NB["nbAutres"][b] == sampled.value;
    assert b == 0.95 || b == 1.0;
  }

  /** The random professional labels fail exactly when "Autres" has a positive count, on its missing table. */
  lemma ProLabelsAuto(counts: map<string, int>, draw: (nat, nat) -> Unit)
    requires forall t :: t in PRO.types ==> t in counts
    ensures TypesAuto(counts, PRO.types, PRO.typeTables, draw).Err? <==> counts[PRO.types[2]] > 0
    ensures TypesAuto(counts, PRO.types, PRO.typeTables, draw).Err? ==>
              TypesAuto(counts, PRO.types, PRO.typeTables, draw).error == KeyError("type" + PRO.types[2])
  {
    ProKeys();
    ProFilled();
    var types := PRO.types;
    assert types == ["Ste", "Sci", "Autres"];
    var front := types[..2];
    assert forall t :: t in front ==> t == types[0] || t == types[1];
    TypesAutoSucceeds(counts, front, PRO.typeTables, draw);
  }

  /**
   * In the manual mode the professional assets exist exactly when every
   * sub-type is listed; a missing one fails with its name, and each asset
   * carries a label the user listed with a positive count.
   */
  lemma ProManual(nb: map<string, seq<(string, int)>>, isCelib: bool, draws: Draws)
    ensures ProOutcome(Manual(nb), isCelib, draws).Ok? <==> forall t :: t in PRO.types ==> t in nb
    ensures ProOutcome(Manual(nb), isCelib, draws).Err? ==>
              exists i :: 0 <= i < |PRO.types| && ProOutcome(Manual(nb), isCelib, draws).error == KeyError(PRO.types[i]) &&
                          PRO.types[i] !in nb
    ensures ProOutcome(Manual(nb), isCelib, draws).Ok? ==>
              forall a :: a in ProOutcome(Manual(nb), isCelib, draws).value ==>
                exists t :: t in PRO.types && t in nb && CountFor(nb[t], a.typeBienPro) > 0
  {
    ProKeys();
    ManualLabels(nb, PRO, draws);
    var r := ProOutcome(Manual(nb), isCelib, draws);
    if r.Ok? {
      var plan := PlanFor(Manual(nb), PRO, draws).value;
      var hs := HoldingsOf(plan, PRO, draws.amount).value;
      forall a | a in ProRecords(hs, isCelib)
        ensures exists t :: t in PRO.types && t in nb && CountFor(nb[t], a.typeBienPro) > 0
      {
        ProFromHoldings(hs, isCelib, a);
      }
    }
  }

  /** Each professional amount lies in the range of the sub-type it was drawn for. */
  lemma ProInRange(mode: Mode, isCelib: bool, draws: Draws)
    ensures ProOutcome(mode, isCelib, draws).Ok? ==>
              forall a :: a in ProOutcome(mode, isCelib, draws).value ==>
                exists t :: t in PRO.types && "montant" + t in PRO.amounts &&
                  PRO.amounts["montant" + t].lo as real <= a.value <= PRO.amounts["montant" + t].hi as real
  {
    var r := ProOutcome(mode, isCelib, draws);
    if r.Ok? {
      ProKeys();
      ProOrdered();
      var plan := PlanFor(mode, PRO, draws).value;
      HoldingsInRange(plan, PRO, draws.amount);
      var hs := HoldingsOf(plan, PRO, draws.amount).value;
      forall a | a in ProRecords(hs, isCelib)
        ensures exists t :: t in PRO.types && "montant" + t in PRO.amounts &&
                  PRO.amounts["montant" + t].lo as real <= a.value <= PRO.amounts["montant" + t].hi as real
      {
        ProFromHoldings(hs, isCelib, a);
      }
    }
  }

  /** Every drawn business asset is held in the household's shares. */
  lemma ProShares(mode: Mode, isCelib: bool, draws: Draws)
    ensures ProOutcome(mode, isCelib, draws).Ok? ==>
              forall a :: a in ProOutcome(mode, isCelib, draws).value ==> Shares(a.pctDetention, a.pctDetentionConjoint, isCelib)
  {
    var r := ProOutcome(mode, isCelib, draws);
    if r.Ok? {
      ProKeys();
      var hs := HoldingsOf(PlanFor(mode, PRO, draws).value, PRO, draws.amount).value;
      assert r.value == ProRecords(hs, isCelib);
      forall a | a in r.value ensures Shares(a.pctDetention, a.pctDetentionConjoint, isCelib) {
        var k :| 0 <= k < |r.value| && r.value[k] == a;
      }
    }
  }

  // ---------------------------------------------------------------- emprunt_random

  /** random.sample(range(n), k): k distinct indices below n. */
  ghost predicate IsSampleOf(s: seq<nat>, n: nat, k: nat)
  {
    && |s| == k
    && (forall i :: 0 <= i < |s| ==> s[i] < n)
    && (forall i, j :: 0 <= i < j < |s| ==> s[i] != s[j])
  }

  /** A sampler draws k distinct indices below n whenever k <= n. */
  ghost predicate IsSampler(sample: (nat, nat) -> seq<nat>)
  {
    forall n: nat, k: nat :: k <= n ==> IsSampleOf(sample(n, k), n, k)
  }

  /**
   * A loan's duration in years: drawn in 2..25 for property loans, in 1..10
   * for professional loans, and otherwise 90 for the "Immo PVH" label, else
   * drawn in 1..5.
   */
  function LoanYears(kind: string, name: string, u: Unit): (years: nat)
    ensures kind == "PretImmo" ==> PRET_IMMO_YEARS.lo <= years <= PRET_IMMO_YEARS.hi
    ensures kind == "PretPro" ==> PRET_PRO_YEARS.lo <= years <= PRET_PRO_YEARS.hi
    ensures kind != "PretImmo" && kind != "PretPro" ==>
              if name == "Immo PVH" then years == PVH_YEARS else PRET_OTHER_YEARS.lo <= years <= PRET_OTHER_YEARS.hi
  {
    if kind == "PretImmo" then RandInt(u, PRET_IMMO_YEARS.lo, PRET_IMMO_YEARS.hi)
    else if kind == "PretPro" then RandInt(u, PRET_PRO_YEARS.lo, PRET_PRO_YEARS.hi)
    else if name == "Immo PVH" then PVH_YEARS
    else RandInt(u, PRET_OTHER_YEARS.lo, PRET_OTHER_YEARS.hi)
  }

  /**
   * The loan of a drawn holding. With no property it is tied to none and
   * uncapped. Otherwise it is capped by the value of the property sampled
   * for its rank, whatever its sub-type, and only a property loan is tied to
   * that property; a rank past the sampled indices is an index error.
   */
  function LoanRecord(h: Holding, u: Unit, immo: seq<ImmoAsset>, selected: seq<nat>, isCelib: bool, today: Date): (r: Result<Loan>)
    ensures r.Err? <==> |immo| > 0 && (h.slot.rank >= |selected| || selected[h.slot.rank] >= |immo|)
    ensures r.Err? ==> r.error == IndexError
    ensures r.Ok? ==> r.value.typeEmprunt == h.slot.name && r.value.dtFin == Maturity(today, LoanYears(h.slot.kind, h.slot.name, u))
    ensures r.Ok? ==> Shares(r.value.pctEmprunt, r.value.pctEmpruntConjoint, isCelib)
    ensures r.Ok? && |immo| == 0 ==> r.value.immoLie == -1 && r.value.montantRestantDu == h.amount
    ensures r.Ok? && |immo| > 0 ==>
              r.value.montantRestantDu <= h.amount &&
              r.value.montantRestantDu <= immo[selected[h.slot.rank]].value &&
              (r.value.montantRestantDu == h.amount || r.value.montantRestantDu == immo[selected[h.slot.rank]].value) &&
              r.value.immoLie == (if h.slot.kind == "PretImmo" then selected[h.slot.rank] else -1)
  {
    var due := Maturity(today, LoanYears(h.slot.kind, h.slot.name, u));
    if |immo| == 0 then
      Ok(Loan(h.slot.name, due, h.amount, OwnerShare(isCelib), PartnerShare(isCelib), -1))
    else if h.slot.rank >= |selected| || selected[h.slot.rank] >= |immo| then Err(IndexError)
    else
      var p := selected[h.slot.rank];
      var capped := if immo[p].value < h.amount then immo[p].value else h.amount;
      Ok(Loan(h.slot.name, due, capped, OwnerShare(isCelib), PartnerShare(isCelib),
              if h.slot.kind == "PretImmo" then p else -1))
  }

  /** The loans of the drawn holdings, the k-th with duration draw `extra(k)`, in order; any failure is an index error. */
  function LoanRecords(hs: seq<Holding>, immo: seq<ImmoAsset>, selected: seq<nat>, isCelib: bool,
                       extra: nat -> Unit, today: Date): (r: Result<seq<Loan>>)
    ensures r.Ok? <==> forall k :: 0 <= k < |hs| ==> LoanRecord(hs[k], extra(k), immo, selected, isCelib, today).Ok?
    ensures r.Ok? ==> |r.value| == |hs|
    ensures r.Ok? ==> forall k :: 0 <= k < |hs| ==> LoanRecord(hs[k], extra(k), immo, selected, isCelib, today) == Ok(r.value[k])
    ensures r.Err? ==> exists k :: 0 <= k < |hs| && LoanRecord(hs[k], extra(k), immo, selected, isCelib, today) == Err(r.error) &&
                                   forall j :: 0 <= j < k ==> LoanRecord(hs[j], extra(j), immo, selected, isCelib, today).Ok?
    ensures r.Err? ==> r.error == IndexError
  {
    Collect(hs, (k: nat, h: Holding) => LoanRecord(h, extra(k), immo, selected, isCelib, today))
  }

  /** The loop of emprunt_random over the drawn holdings: one loan each, stopping at the first failure. */
  method BuildLoans(hs: seq<Holding>, immo: seq<ImmoAsset>, selected: seq<nat>, isCelib: bool,
                    extra: nat -> Unit, today: Date) returns (r: Result<seq<Loan>>)
    ensures r == LoanRecords(hs, immo, selected, isCelib, extra, today)
  {
    var loans: seq<Loan> := [];
    var k := 0;
    while k < |hs|
      invariant 0 <= k <= |hs|
      invariant |loans| == k &&
                forall j :: 0 <= j < k ==> LoanRecord(hs[j], extra(j), immo, selected, isCelib, today) == Ok(loans[j])
    {
      var l := LoanRecord(hs[k], extra(k), immo, selected, isCelib, today);
      if l.Err? {
        ghost var all := LoanRecords(hs, immo, selected, isCelib, extra, today);
        ghost var first :| 0 <= first < |hs| && LoanRecord(hs[first], extra(first), immo, selected, isCelib, today) == Err(all.error) &&
                           forall j :: 0 <= j < first ==> LoanRecord(hs[j], extra(j), immo, selected, isCelib, today).Ok?;
        assert first == k;
        return Err(l.error);
      }
      loans := loans + [l.value];
      k := k + 1;
    }
    assert LoanRecords(hs, immo, selected, isCelib, extra, today).Ok?;
    assert LoanRecords(hs, immo, selected, isCelib, extra, today).value == loans;
    r := Ok(loans);
  }

  /** The property indices sampled for the property loans: k of them when property is owned, none otherwise. */
  function Selection(immo: seq<ImmoAsset>, k: int, sample: (nat, nat) -> seq<nat>): (selected: seq<nat>)
    requires |immo| > 0 ==> 0 <= k <= |immo|
    ensures |immo| > 0 && IsSampler(sample) ==> IsSampleOf(selected, |immo|, k)
  {
    if |immo| > 0 then sample(|immo|, k) else []
  }

  /**
   * The loans of a plan: with property owned, as many distinct property
   * indices sampled as there are property loans (a count outside 0..|immo|
   * is a value error), then one loan per drawn holding.
   */
  function EmpruntLoans(plan: Plan, immo: seq<ImmoAsset>, isCelib: bool, draws: Draws,
                        sample: (nat, nat) -> seq<nat>, today: Date): (r: Result<seq<Loan>>)
    requires Covers(plan, EMPRUNT.types)
    ensures |immo| > 0 && !(0 <= plan.counts["PretImmo"] <= |immo|) ==> r == Err(ValueError)
    ensures r.Err? ==> r.error == ValueError || r.error == IndexError
  {
    EmpruntKeys();
    var hs := HoldingsOf(plan, EMPRUNT, draws.amount).value;
    var k := plan.counts["PretImmo"];
    if |immo| > 0 && !(0 <= k <= |immo|) then Err(ValueError)
    else LoanRecords(hs, immo, Selection(immo, k, sample), isCelib, draws.extra, today)
  }

  /** emprunt_random: the plan, then its loans; a plan failure is the outcome. */
  function EmpruntOutcome(mode: Mode, immo: seq<ImmoAsset>, isCelib: bool, draws: Draws,
                          sample: (nat, nat) -> seq<nat>, today: Date): (r: Result<seq<Loan>>)
    ensures PlanFor(mode, EMPRUNT, draws).Err? ==> r == Err(PlanFor(mode, EMPRUNT, draws).error)
    ensures PlanFor(mode, EMPRUNT, draws).Ok? ==>
              r == EmpruntLoans(PlanFor(mode, EMPRUNT, draws).value, immo, isCelib, draws, sample, today)
  {
    var plan :- PlanFor(mode, EMPRUNT, draws);
    EmpruntLoans(plan, immo, isCelib, draws, sample, today)
  }

  method EmpruntRandom(mode: Mode, immo: seq<ImmoAsset>, isCelib: bool, draws: Draws,
                       sample: (nat, nat) -> seq<nat>, today: Date) returns (r: Result<seq<Loan>>)
    ensures r == EmpruntOutcome(mode, immo, isCelib, draws, sample, today)
  {
    var planned := MakePlan(mode, EMPRUNT, draws);
    if planned.Err? {
      return Err(planned.error);
    }
    var plan := planned.value;
    EmpruntKeys();
    var drawn := DrawHoldings(plan, EMPRUNT, draws.amount);
    var nbImmo := plan.counts["PretImmo"];
    var selected: seq<nat> := [];
    if |immo| > 0 {
      if !(0 <= nbImmo <= |immo|) {
        return Err(ValueError);
      }
      selected := sample(|immo|, nbImmo);
    }
    r := BuildLoans(drawn.value, immo, selected, isCelib, draws.extra, today);
  }

  /** The loans of a plan, unfolded: one LoanRecord per drawn holding, against the sampled property indices. */
  lemma EmpruntLoansAre(plan: Plan, immo: seq<ImmoAsset>, isCelib: bool, draws: Draws,
                        sample: (nat, nat) -> seq<nat>, today: Date)
    requires Covers(plan, EMPRUNT.types)
    ensures AmountKeys(EMPRUNT) && "PretImmo" in plan.counts
    ensures !(|immo| > 0 && !(0 <= plan.counts["PretImmo"] <= |immo|)) ==>
              EmpruntLoans(plan, immo, isCelib, draws, sample, today) ==
              LoanRecords(HoldingsOf(plan, EMPRUNT, draws.amount).value, immo,
                          Selection(immo, plan.counts["PretImmo"], sample), isCelib, draws.extra, today)
  {
    EmpruntKeys();
  }

  /**
   * Every loan is held in the household's shares and keeps the linkage
   * invariant: tied to no property, or to an existing one whose value caps
   * what is owed. With property owned, every loan, tied or not, is capped by
   * the value of some property; with none, no loan is tied.
   */
  lemma EmpruntLinks(plan: Plan, immo: seq<ImmoAsset>, isCelib: bool, draws: Draws,
                     sample: (nat, nat) -> seq<nat>, today: Date)
    requires Covers(plan, EMPRUNT.types)
    ensures EmpruntLoans(plan, immo, isCelib, draws, sample, today).Ok? ==>
              var loans := EmpruntLoans(plan, immo, isCelib, draws, sample, today).value;
              && LinksHold(loans, immo)
              && (forall l :: l in loans ==> Shares(l.pctEmprunt, l.pctEmpruntConjoint, isCelib))
              && (|immo| > 0 ==> forall l :: l in loans ==> exists p :: 0 <= p < |immo| && l.montantRestantDu <= immo[p].value)
              && (|immo| == 0 ==> forall l :: l in loans ==> l.immoLie == -1)
  {
    if EmpruntLoans(plan, immo, isCelib, draws, sample, today).Ok? {
      EmpruntLoansAre(plan, immo, isCelib, draws, sample, today);
      RecordLinks(HoldingsOf(plan, EMPRUNT, draws.amount).value, immo,
                  Selection(immo, plan.counts["PretImmo"], sample), isCelib, draws.extra, today);
    }
  }

  /** The linkage, share and capping facts of EmpruntLinks, for any holdings and any selection. */
  lemma RecordLinks(hs: seq<Holding>, immo: seq<ImmoAsset>, selected: seq<nat>, isCelib: bool,
                    extra: nat -> Unit, today: Date)
    requires LoanRecords(hs, immo, selected, isCelib, extra, today).Ok?
    ensures var loans := LoanRecords(hs, immo, selected, isCelib, extra, today).value;
              && LinksHold(loans, immo)
              && (forall l :: l in loans ==> Shares(l.pctEmprunt, l.pctEmpruntConjoint, isCelib))
              && (|immo| > 0 ==> forall l :: l in loans ==> exists p :: 0 <= p < |immo| && l.montantRestantDu <= immo[p].value)
              && (|immo| == 0 ==> forall l :: l in loans ==> l.immoLie == -1)
  {
    var loans := LoanRecords(hs, immo, selected, isCelib, extra, today).value;
    forall l | l in loans
      ensures l.immoLie == -1 || (0 <= l.immoLie < |immo| && l.montantRestantDu <= immo[l.immoLie].value)
      ensures Shares(l.pctEmprunt, l.pctEmpruntConjoint, isCelib)
      ensures |immo| > 0 ==> exists p :: 0 <= p < |immo| && l.montantRestantDu <= immo[p].value
      ensures |immo| == 0 ==> l.immoLie == -1
    {
      var j :| 0 <= j < |loans| && loans[j] == l;
      assert LoanRecord(hs[j], extra(j), immo, selected, isCelib, today) == Ok(l);
    }
  }

  /** Without property every plan's loans are drawn, and none is tied to a property. */
  lemma EmpruntWithoutProperty(plan: Plan, isCelib: bool, draws: Draws, sample: (nat, nat) -> seq<nat>, today: Date)
    requires Covers(plan, EMPRUNT.types)
    ensures EmpruntLoans(plan, [], isCelib, draws, sample, today).Ok?
    ensures forall l :: l in EmpruntLoans(plan, [], isCelib, draws, sample, today).value ==> l.immoLie == -1
  {
    EmpruntLoansAre(plan, [], isCelib, draws, sample, today);
    EmpruntLinks(plan, [], isCelib, draws, sample, today);
  }

  /**
   * With property owned and a sampler that honours random.sample, the loans
   * are drawn exactly when no sub-type has more loans than there are
   * property loans: the k-th loan of any sub-type is capped by the k-th
   * sampled property, and there are only as many as property loans.
   */
  lemma EmpruntRanksBounded(plan: Plan, immo: seq<ImmoAsset>, isCelib: bool, draws: Draws,
                            sample: (nat, nat) -> seq<nat>, today: Date)
    requires Covers(plan, EMPRUNT.types) && IsSampler(sample)
    requires |immo| > 0 && "PretImmo" in plan.counts && 0 <= plan.counts["PretImmo"] <= |immo|
    ensures EmpruntLoans(plan, immo, isCelib, draws, sample, today).Ok? <==>
              forall t :: t in EMPRUNT.types ==> |plan.labels[t]| <= plan.counts["PretImmo"]
  {
    EmpruntLoansAre(plan, immo, isCelib, draws, sample, today);
    var hs := HoldingsOf(plan, EMPRUNT, draws.amount).value;
    var k := plan.counts["PretImmo"];
    var selected := Selection(immo, k, sample);
    assert IsSampleOf(selected, |immo|, k);
    var r := LoanRecords(hs, immo, selected, isCelib, draws.extra, today);
    if forall t :: t in EMPRUNT.types ==> |plan.labels[t]| <= k {
      forall j | 0 <= j < |hs| ensures LoanRecord(hs[j], draws.extra(j), immo, selected, isCelib, today).Ok? {
        assert hs[j] in hs;
      }
    } else {
      var t :| t in EMPRUNT.types && |plan.labels[t]| > k;
      HoldingsComplete(plan, EMPRUNT, draws.amount, t, k);
      var j :| 0 <= j < |hs| && hs[j].slot == Slot(t, plan.labels[t][k], k);
      assert LoanRecord(hs[j], draws.extra(j), immo, selected, isCelib, today).Err?;
    }
  }

  /** With a sampler that honours random.sample, no two loans are tied to the same property. */
  lemma EmpruntLinksDistinct(plan: Plan, immo: seq<ImmoAsset>, isCelib: bool, draws: Draws,
                             sample: (nat, nat) -> seq<nat>, today: Date)
    requires Covers(plan, EMPRUNT.types) && IsSampler(sample)
    ensures EmpruntLoans(plan, immo, isCelib, draws, sample, today).Ok? ==>
              var loans := EmpruntLoans(plan, immo, isCelib, draws, sample, today).value;
              forall i, j :: (0 <= i < j < |loans| && loans[i].immoLie != -1 && loans[j].immoLie != -1) ==>
                loans[i].immoLie != loans[j].immoLie
  {
    if EmpruntLoans(plan, immo, isCelib, draws, sample, today).Ok? {
      EmpruntLoansAre(plan, immo, isCelib, draws, sample, today);
      var k := plan.counts["PretImmo"];
      SelectionDistinct(immo, k, sample);
      EmpruntTypesDistinct();
      HoldingsRanksIncrease(plan, EMPRUNT, draws.amount);
      RecordLinksDistinct(HoldingsOf(plan, EMPRUNT, draws.amount).value, immo, Selection(immo, k, sample),
                          isCelib, draws.extra, today);
    }
  }

  /** The loan sub-types are pairwise distinct. */
  lemma EmpruntTypesDistinct()
    ensures Distinct(EMPRUNT.types)
  {
  }

  /** A sampler that honours random.sample selects pairwise distinct properties. */
  lemma SelectionDistinct(immo: seq<ImmoAsset>, k: int, sample: (nat, nat) -> seq<nat>)
    requires IsSampler(sample) && (|immo| > 0 ==> 0 <= k <= |immo|)
    ensures forall i, j :: 0 <= i < j < |Selection(immo, k, sample)| ==>
              Selection(immo, k, sample)[i] != Selection(immo, k, sample)[j]
  {
    if |immo| > 0 {
      assert IsSampleOf(sample(|immo|, k), |immo|, k);
    }
  }

  /**
   * Loans built against distinct selected properties, from holdings whose
   * ranks increase within a sub-type, never share a property: a linked loan
   * takes the property selected at its rank.
   */
  lemma RecordLinksDistinct(hs: seq<Holding>, immo: seq<ImmoAsset>, selected: seq<nat>, isCelib: bool,
                            extra: nat -> Unit, today: Date)
    requires LoanRecords(hs, immo, selected, isCelib, extra, today).Ok?
    requires forall i, j :: 0 <= i < j < |selected| ==> selected[i] != selected[j]
    requires forall i, j :: (0 <= i < j < |hs| && hs[i].slot.kind == hs[j].slot.kind) ==> hs[i].slot.rank < hs[j].slot.rank
    ensures var loans := LoanRecords(hs, immo, selected, isCelib, extra, today).value;
            forall i, j :: (0 <= i < j < |loans| && loans[i].immoLie != -1 && loans[j].immoLie != -1) ==>
              loans[i].immoLie != loans[j].immoLie
  {
    var loans := LoanRecords(hs, immo, selected, isCelib, extra, today).value;
    forall i, j | 0 <= i < j < |loans| && loans[i].immoLie != -1 && loans[j].immoLie != -1
      ensures loans[i].immoLie != loans[j].immoLie
    {
      assert LoanRecord(hs[i], extra(i), immo, selected, isCelib, today) == Ok(loans[i]);
      assert LoanRecord(hs[j], extra(j), immo, selected, isCelib, today) == Ok(loans[j]);
      assert hs[i].slot.kind == "PretImmo" && hs[j].slot.kind == "PretImmo";
    }
  }

  /** Of the loan label tables, only the property-loan one holds "Immo PVH". */
  lemma PvhOnlyPropertyLoans()
    ensures forall t :: t in EMPRUNT.types && t != "PretImmo" && "type" + t in EMPRUNT.typeTables ==>
              !IsOutcome("Immo PVH", EMPRUNT.typeTables["type" + t])
  {
    forall t | t in EMPRUNT.types && t != "PretImmo" && "type" + t in EMPRUNT.typeTables
      ensures !IsOutcome("Immo PVH", EMPRUNT.typeTables["type" + t])
    {
      assert t == "PretConso" || t == "PretAuto" || t == "PretPro";
      var table := EMPRUNT.typeTables["type" + t];
      if t == "PretConso" {
        assert "type" + t == "typePretConso";
      } else if t == "PretAuto" {
        assert "type" + t == "typePretAuto";
      } else {
        assert "type" + t == "typePretPro";
      }
      assert forall b :: b in table ==> table[b] != "Immo PVH";
    }
  }

  /**
   * In the random mode no loan runs 90 years: the "Immo PVH" label is only
   * drawn for property loans, which run 2 to 25 years, so the 90-year branch
   * is reachable only from a manual listing.
   */
  lemma EmpruntAutoTerms(immo: seq<ImmoAsset>, isCelib: bool, draws: Draws, sample: (nat, nat) -> seq<nat>, today: Date)
    ensures EmpruntOutcome(Auto, immo, isCelib, draws, sample, today).Ok? ==>
              forall l :: l in EmpruntOutcome(Auto, immo, isCelib, draws, sample, today).value ==>
                l.dtFin.start == today && 1 <= l.dtFin.years <= PRET_IMMO_YEARS.hi
  {
    var r := EmpruntOutcome(Auto, immo, isCelib, draws, sample, today);
    if r.Ok? {
      var plan := PlanFor(Auto, EMPRUNT, draws).value;
      EmpruntLoansAre(plan, immo, isCelib, draws, sample, today);
      AutoLabels(EMPRUNT, draws);
      PvhOnlyPropertyLoans();
      var hs := HoldingsOf(plan, EMPRUNT, draws.amount).value;
      forall h | h in hs
        ensures h.slot.kind == "PretImmo" || h.slot.name != "Immo PVH"
      {
      }
      RecordTerms(hs, immo, Selection(immo, plan.counts["PretImmo"], sample), isCelib, draws.extra, today);
    }
  }

  /** Loans of holdings that carry "Immo PVH" only as property loans run 1 to 25 years from today. */
  lemma RecordTerms(hs: seq<Holding>, immo: seq<ImmoAsset>, selected: seq<nat>, isCelib: bool,
                    extra: nat -> Unit, today: Date)
    requires LoanRecords(hs, immo, selected, isCelib, extra, today).Ok?
    requires forall h :: h in hs ==> h.slot.kind == "PretImmo" || h.slot.name != "Immo PVH"
    ensures forall l :: l in LoanRecords(hs, immo, selected, isCelib, extra, today).value ==>
              l.dtFin.start == today && 1 <= l.dtFin.years <= PRET_IMMO_YEARS.hi
  {
    var loans := LoanRecords(hs, immo, selected, isCelib, extra, today).value;
    forall l | l in loans
      ensures l.dtFin.start == today && 1 <= l.dtFin.years <= PRET_IMMO_YEARS.hi
    {
      var j :| 0 <= j < |loans| && loans[j] == l;
      assert LoanRecord(hs[j], extra(j), immo, selected, isCelib, today) == Ok(l);
      assert hs[j] in hs;
    }
  }
}
