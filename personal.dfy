/**
 * The personal situation and the yearly cash flows of the household:
 * situation_perso_random, perso_from_dict, cashflow_random and
 * cashflow_from_dict.
 */
module Personal {
  import opened Common
  import opened RangeSampler
  import opened Tables
  import opened Records

  /** The draws situation_perso_random consumes, one per field. */
  datatype PersoDraws = PersoDraws(civilite: Unit, age: Unit, children: Unit, union: Unit, regime: Unit)

  const MARIE := "Marié(e)"
  const NON_APPLICABLE := "non applicable"

  /** The number of children drawn from the table, before it is capped by the mother's age. */
  function DrawnChildren(d: PersoDraws): (n: int)
    ensures 0 <= n <= 4
  {
    assert 1.0 in NB_ENFANTS;
    SampleIsOutcome(d.children, NB_ENFANTS);
    Sample(d.children, NB_ENFANTS).value
  }

  /**
   * The drawn number of children, capped so that the mother was at least
   * AGE_ENFANTS[i] years old at the birth of child i; the cap removes only
   * the children she was too young for.
   */
  function CapChildren(age: int, drawn: int): (n: int)
    requires 0 <= drawn <= 4
    ensures 0 <= n <= drawn
    ensures forall i :: 1 <= i <= n ==> i in AGE_ENFANTS && age >= AGE_ENFANTS[i]
    ensures n < drawn ==> n + 1 in AGE_ENFANTS && age < AGE_ENFANTS[n + 1]
  {
    assert AGE_ENFANTS[1] == 28 && AGE_ENFANTS[2] == 31 && AGE_ENFANTS[3] == 33 && AGE_ENFANTS[4] == 35;
    if age < AGE_ENFANTS[1] then 0
    else if age < AGE_ENFANTS[2] then Min(drawn, 1)
    else if age < AGE_ENFANTS[3] then Min(drawn, 2)
    else if age < AGE_ENFANTS[4] then Min(drawn, 3)
    else drawn
  }

  function Min(a: int, b: int): int { if a < b then a else b }

  /** The matrimonial regime: drawn for a married person, "non applicable" for anyone else. */
  function Regime(union: string, u: Unit): (r: string)
    ensures union == MARIE ==> IsOutcome(r, REGIME_MATRIMONIAL)
    ensures r == NON_APPLICABLE <==> union != MARIE
  {
    assert 1.0 in REGIME_MATRIMONIAL;
    SampleIsOutcome(u, REGIME_MATRIMONIAL);
    if union == MARIE then Sample(u, REGIME_MATRIMONIAL).value else NON_APPLICABLE
  }

  /** The civility drawn from its table: "M" or "Mme". */
  function DrawnCivilite(d: PersoDraws): (c: string)
    ensures c == "M" || c == "Mme"
  {
    assert 1.0 in CIVILITE;
    SampleIsOutcome(d.civilite, CIVILITE);
    var b :| b in CIVILITE && CIVILITE[b] == Sample(d.civilite, CIVILITE).value;
    assert b == 0.484 || b == 1.0;
    Sample(d.civilite, CIVILITE).value
  }

  /** The union type drawn from its table. */
  function DrawnUnion(d: PersoDraws): (t: string)
    ensures IsOutcome(t, TYPE_UNION)
  {
    assert 1.0 in TYPE_UNION;
    SampleIsOutcome(d.union, TYPE_UNION);
    Sample(d.union, TYPE_UNION).value
  }

  /**
   * situation_perso_random: civility, an age in [25, 70], a number of
   * children no larger than the age allows, a union type, and a matrimonial
   * regime that applies only to married people.
   */
  function SituationPersoRandom(d: PersoDraws): (p: Perso)
    ensures p.civilite == "M" || p.civilite == "Mme"
    ensures 25 <= p.age <= 70
    ensures 0 <= p.nbEnfants <= DrawnChildren(d)
    ensures forall i :: 1 <= i <= p.nbEnfants ==> i in AGE_ENFANTS && p.age >= AGE_ENFANTS[i]
    ensures p.nbEnfants < DrawnChildren(d) ==> p.nbEnfants + 1 in AGE_ENFANTS && p.age < AGE_ENFANTS[p.nbEnfants + 1]
    ensures IsOutcome(p.typeUnion, TYPE_UNION)
    ensures p.typeUnion == MARIE ==> IsOutcome(p.regimeMatrimonial, REGIME_MATRIMONIAL)
    ensures p.regimeMatrimonial == NON_APPLICABLE <==> p.typeUnion != MARIE
  {
    var age := RandInt(d.age, 25, 70);
    var union := DrawnUnion(d);
    Perso(DrawnCivilite(d), age, CapChildren(age, DrawnChildren(d)), union, Regime(union, d.regime))
  }

  /** Each field the situation dictionary may carry; absent ones are None. */
  datatype PersoDict = PersoDict(
    civilite: Option<string>,
    age: Option<int>,
    nbEnfants: Option<int>,
    typeUnion: Option<string>,
    regimeMatrimonial: Option<string>)

  function StringOr(o: Option<string>, default: string): string
  {
    match o
    case Some(s) => s
    case None => default
  }

  function IntOr(o: Option<int>, default: int): int
  {
    match o
    case Some(n) => n
    case None => default
  }

  function RealOr(o: Option<real>, default: real): real
  {
    match o
    case Some(x) => x
    case None => default
  }

  /** Widths of the text columns of the personal record: 'U3' and 'U30'. */
  const CIVILITE_WIDTH := 3
  const UNION_WIDTH := 30

  /**
   * perso_from_dict: each field from the dictionary, or its default (a man
   * of 40, no children, single, separate estates); text fields are cut to
   * their column width.
   */
  function PersoFromDict(d: PersoDict): (p: Perso)
    ensures |p.civilite| <= CIVILITE_WIDTH && |p.typeUnion| <= UNION_WIDTH && |p.regimeMatrimonial| <= UNION_WIDTH
    ensures d.civilite.None? ==> p.civilite == "M"
    ensures d.age.None? ==> p.age == 40
    ensures d.nbEnfants.None? ==> p.nbEnfants == 0
    ensures d.typeUnion.None? ==> p.typeUnion == "Célibataire"
    ensures d.regimeMatrimonial.None? ==> p.regimeMatrimonial == "séparation de biens"
    ensures d.civilite.Some? ==> p.civilite <= d.civilite.value
    ensures d.civilite.Some? && |d.civilite.value| <= CIVILITE_WIDTH ==> p.civilite == d.civilite.value
    ensures d.age.Some? ==> p.age == d.age.value
    ensures d.nbEnfants.Some? ==> p.nbEnfants == d.nbEnfants.value
    ensures d.typeUnion.Some? ==> p.typeUnion <= d.typeUnion.value
    ensures d.typeUnion.Some? && |d.typeUnion.value| <= UNION_WIDTH ==> p.typeUnion == d.typeUnion.value
    ensures d.regimeMatrimonial.Some? ==> p.regimeMatrimonial <= d.regimeMatrimonial.value
    ensures d.regimeMatrimonial.Some? && |d.regimeMatrimonial.value| <= UNION_WIDTH ==>
              p.regimeMatrimonial == d.regimeMatrimonial.value
  {
    Perso(
      Truncate(StringOr(d.civilite, "M"), CIVILITE_WIDTH),
      IntOr(d.age, 40),
      IntOr(d.nbEnfants, 0),
      Truncate(StringOr(d.typeUnion, "Célibataire"), UNION_WIDTH),
      Truncate(StringOr(d.regimeMatrimonial, "séparation de biens"), UNION_WIDTH))
  }

  /** Each field the cash-flow dictionary may carry; absent ones are None. */
  datatype CashflowDict = CashflowDict(
    revenusActivite: Option<real>,
    pensionRetraite: Option<real>,
    depensesCourantes: Option<real>,
    revenusActiviteConjoint: Option<real>,
    pensionRetraiteConjoint: Option<real>,
    nbPartFiscal: Option<real>)

  /** cashflow_from_dict: each amount from the dictionary or zero; one tax part by default. */
  function CashflowFromDict(d: CashflowDict): (c: Cashflow)
    ensures d.revenusActivite.None? ==> c.revenusActivite == 0.0
    ensures d.pensionRetraite.None? ==> c.pensionRetraite == 0.0
    ensures d.depensesCourantes.None? ==> c.depensesCourantes == 0.0
    ensures d.revenusActiviteConjoint.None? ==> c.revenusActiviteConjoint == 0.0
    ensures d.pensionRetraiteConjoint.None? ==> c.pensionRetraiteConjoint == 0.0
    ensures d.nbPartFiscal.None? ==> c.nbPartFiscal == 1.0
    ensures d.revenusActivite.Some? ==> c.revenusActivite == d.revenusActivite.value
    ensures d.pensionRetraite.Some? ==> c.pensionRetraite == d.pensionRetraite.value
    ensures d.depensesCourantes.Some? ==> c.depensesCourantes == d.depensesCourantes.value
    ensures d.revenusActiviteConjoint.Some? ==> c.revenusActiviteConjoint == d.revenusActiviteConjoint.value
    ensures d.pensionRetraiteConjoint.Some? ==> c.pensionRetraiteConjoint == d.pensionRetraiteConjoint.value
    ensures d.nbPartFiscal.Some? ==> c.nbPartFiscal == d.nbPartFiscal.value
  {
    Cashflow(
      RealOr(d.revenusActivite, 0.0),
      RealOr(d.pensionRetraite, 0.0),
      RealOr(d.depensesCourantes, 0.0),
      RealOr(d.revenusActiviteConjoint, 0.0),
      RealOr(d.pensionRetraiteConjoint, 0.0),
      RealOr(d.nbPartFiscal, 1.0))
  }

  // ---------------------------------------------------------------- cashflow_random

  /** The draws cashflow_random consumes, one per random quantity. */
  datatype CashflowDraws = CashflowDraws(coef: Unit, income: Unit, pension: Unit, expenses: Unit)

  /** The age from which the household lives on pensions rather than on earned income. */
  const RETIREMENT_AGE := 64

  /**
   * How many of the first n children are under 25, child i being
   * AGE_ENFANTS[i] years younger than the mother.
   */
  function ChildrenUnder25(age: int, n: int): (k: nat)
    requires n <= 4
    ensures k <= (if n < 0 then 0 else n)
  {
    if n <= 0 then 0
    else ChildrenUnder25(age, n - 1) + (if age - AGE_ENFANTS[n] < 25 then 1 else 0)
  }

  /**
   * The number of tax parts: one per adult, half a part for each of the first
   * two dependent children, a whole part for each further one.
   */
  function FiscalParts(isCelib: bool, k: nat): (parts: real)
    ensures var adults := if isCelib then 1.0 else 2.0;
            adults + 0.5 * k as real <= parts <= adults + k as real
  {
    1.0 + (if isCelib then 0.0 else 1.0) + 0.5 * (if k < 2 then k else 2) as real + (if k > 2 then k - 2 else 0) as real
  }

  /** The owner's share of household income: all of it alone, 20% to 80% in a couple. */
  function IncomeShare(isCelib: bool, u: Unit): (c: real)
    ensures isCelib ==> c == 1.0
    ensures !isCelib ==> 0.2 <= c <= 0.8
  {
    if isCelib then 1.0 else RandInt(u, COEF_REPART_REVENU.lo, COEF_REPART_REVENU.hi) as real / 100.0
  }

  /** The partner's income, from the owner's income and the owner's share of the total. */
  function PartnerIncome(own: real, c: real): real
    requires c != 0.0
  {
    own * (1.0 - c) / c
  }

  /** The owner's share c of a total T and the partner's computed income add back up to T. */
  lemma PartnerIncomeCompletes(total: real, c: real)
    requires c != 0.0
    ensures c * total + PartnerIncome(c * total, c) == total
    ensures c == 1.0 ==> PartnerIncome(c * total, c) == 0.0
  {
    assert c * total * (1.0 - c) / c == total * (1.0 - c);
  }

  /**
   * A household amount split between owner and partner: the owner gets the
   * share c of it, and the partner's part, computed back from the owner's,
   * makes up the rest.
   */
  function IncomeSplit(c: real, amount: real): (parts: (real, real))
    requires 0.0 < c <= 1.0
    ensures parts.0 + parts.1 == amount
    ensures parts.0 == c * (parts.0 + parts.1)
    ensures c == 1.0 ==> parts.1 == 0.0
  {
    PartnerIncomeCompletes(amount, c);
    (c * amount, PartnerIncome(c * amount, c))
  }

  /**
   * cashflow_random: the household's yearly flows. Earned income before 64,
   * pension from 64, split between owner and partner by the owner's share;
   * expenses in [3000, 8000]; tax parts from the children under 25. A profile
   * with more than four children fails on the missing fifth child age gap.
   */
  function CashflowRandom(isCelib: bool, perso: Perso, d: CashflowDraws): (r: Result<Cashflow>)
    ensures r.Err? <==> perso.nbEnfants > 4
    ensures r.Err? ==> r.error == IntKeyError(5)
    ensures r.Ok? ==> r.value.nbPartFiscal == FiscalParts(isCelib, ChildrenUnder25(perso.age, perso.nbEnfants))
    ensures r.Ok? && perso.age >= RETIREMENT_AGE ==>
              r.value.revenusActivite == 0.0 && r.value.revenusActiviteConjoint == 0.0 &&
              PENSION_RETRAITE.lo as real <= r.value.pensionRetraite + r.value.pensionRetraiteConjoint <= PENSION_RETRAITE.hi as real
    ensures r.Ok? && perso.age < RETIREMENT_AGE ==>
              r.value.pensionRetraite == 0.0 && r.value.pensionRetraiteConjoint == 0.0 &&
              REVENUS_ACTIVITE.lo as real <= r.value.revenusActivite + r.value.revenusActiviteConjoint <= REVENUS_ACTIVITE.hi as real
    ensures r.Ok? && isCelib ==> r.value.revenusActiviteConjoint == 0.0 && r.value.pensionRetraiteConjoint == 0.0
    ensures r.Ok? ==>
              r.value.revenusActivite == IncomeShare(isCelib, d.coef) * (r.value.revenusActivite + r.value.revenusActiviteConjoint) &&
              r.value.pensionRetraite == IncomeShare(isCelib, d.coef) * (r.value.pensionRetraite + r.value.pensionRetraiteConjoint)
    ensures r.Ok? ==> DEPENSES_COURANTES.lo as real <= r.value.depensesCourantes <= DEPENSES_COURANTES.hi as real
  {
    if perso.nbEnfants > 4 then Err(IntKeyError(5))
    else
      var age := perso.age;
      var parts := FiscalParts(isCelib, ChildrenUnder25(age, perso.nbEnfants));
      var c := IncomeShare(isCelib, d.coef);
      var earned := RandInt(d.income, REVENUS_ACTIVITE.lo, REVENUS_ACTIVITE.hi) as real;
      var pension := RandInt(d.pension, PENSION_RETRAITE.lo, PENSION_RETRAITE.hi) as real;
      var income := IncomeSplit(c, if age >= RETIREMENT_AGE then 0.0 else earned);
      var pensions := IncomeSplit(c, if age < RETIREMENT_AGE then 0.0 else pension);
      var depenses := RandInt(d.expenses, DEPENSES_COURANTES.lo, DEPENSES_COURANTES.hi) as real;
      Ok(Cashflow(income.0, pensions.0, depenses, income.1, pensions.1, parts))
  }

  /** A couple has exactly one tax part more than a single person with the same children. */
  lemma CoupleAddsOnePart(k: nat)
    ensures FiscalParts(false, k) == FiscalParts(true, k) + 1.0
  {
  }

  /** Tax parts never decrease as more children are under 25; each child from the third on adds a whole part. */
  lemma FiscalPartsGrow(isCelib: bool, k: nat)
    ensures FiscalParts(isCelib, k) < FiscalParts(isCelib, k + 1)
    ensures k >= 2 ==> FiscalParts(isCelib, k + 1) == FiscalParts(isCelib, k) + 1.0
    ensures k < 2 ==> FiscalParts(isCelib, k + 1) == FiscalParts(isCelib, k) + 0.5
  {
  }

  /**
   * A married mother of 50 with three children (aged 22, 19 and 17) counts
   * three children under 25 and gets four tax parts.
   */
  lemma CoupleWithThreeYoungChildren()
    ensures ChildrenUnder25(50, 3) == 3
    ensures FiscalParts(false, ChildrenUnder25(50, 3)) == 4.0
  {
    assert ChildrenUnder25(50, 1) == 1;
    assert ChildrenUnder25(50, 2) == 2;
  }

  /** Children counted under 25 never exceed the children the age allows in a drawn situation. */
  lemma DrawnSituationHasFiscalParts(d: PersoDraws, isCelib: bool, c: CashflowDraws)
    ensures CashflowRandom(isCelib, SituationPersoRandom(d), c).Ok?
    ensures 1.0 <= CashflowRandom(isCelib, SituationPersoRandom(d), c).value.nbPartFiscal <= 5.0
  {
    var p := SituationPersoRandom(d);
    var k := ChildrenUnder25(p.age, p.nbEnfants);
    assert k <= 4;
  }
}
