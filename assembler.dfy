/**
 * The two profile assemblers: simul_obj_client draws a whole household
 * (personal situation, cash flows, then financial assets, property,
 * business assets and loans, in that order), and
 * simul_obj_client_from_dicts builds one from what the user typed in. In
 * both, loans come last so that they can be tied to the finished property
 * list, and every list is stored in fixed-width numpy columns.
 */
module Assembler {
  import opened Common
  import opened RangeSampler
  import opened Tables
  import opened Records
  import opened Holdings
  import opened FromAmounts
  import opened Personal
  import opened Generators

  // ---------------------------------------------------------------- storage

  /** Width of the label columns of the asset and loan records: 'U50'. */
  const LABEL_WIDTH := 50

  /** A personal record stored in its 'U3' and 'U30' columns. */
  function StoredPerso(p: Perso): (s: Perso)
    ensures |s.civilite| <= CIVILITE_WIDTH && |s.typeUnion| <= UNION_WIDTH && |s.regimeMatrimonial| <= UNION_WIDTH
    ensures s.civilite <= p.civilite && s.typeUnion <= p.typeUnion && s.regimeMatrimonial <= p.regimeMatrimonial
    ensures s.age == p.age && s.nbEnfants == p.nbEnfants
  {
    p.(civilite := Truncate(p.civilite, CIVILITE_WIDTH),
       typeUnion := Truncate(p.typeUnion, UNION_WIDTH),
       regimeMatrimonial := Truncate(p.regimeMatrimonial, UNION_WIDTH))
  }

  /** A financial asset stored with its label cut to the column width; the numbers are kept. */
  function StoredFin(a: FinAsset): (s: FinAsset)
    ensures |s.typeProd| <= LABEL_WIDTH && s.typeProd <= a.typeProd
    ensures |a.typeProd| <= LABEL_WIDTH ==> s == a
    ensures s.value == a.value && s.pctDetention == a.pctDetention && s.pctDetentionConjoint == a.pctDetentionConjoint
  {
    a.(typeProd := Truncate(a.typeProd, LABEL_WIDTH))
  }

  /** A property stored with its kind and scheme cut to the column width; the numbers are kept. */
  function StoredImmo(a: ImmoAsset): (s: ImmoAsset)
    ensures |s.typeImmo| <= LABEL_WIDTH && s.typeImmo <= a.typeImmo
    ensures |s.dispositif| <= LABEL_WIDTH && s.dispositif <= a.dispositif
    ensures |a.typeImmo| <= LABEL_WIDTH && |a.dispositif| <= LABEL_WIDTH ==> s == a
    ensures s.value == a.value && s.pctDetention == a.pctDetention && s.pctDetentionConjoint == a.pctDetentionConjoint
  {
    a.(typeImmo := Truncate(a.typeImmo, LABEL_WIDTH), dispositif := Truncate(a.dispositif, LABEL_WIDTH))
  }

  /** A business asset stored with its label cut to the column width; the numbers are kept. */
  function StoredPro(a: ProAsset): (s: ProAsset)
    ensures |s.typeBienPro| <= LABEL_WIDTH && s.typeBienPro <= a.typeBienPro
    ensures |a.typeBienPro| <= LABEL_WIDTH ==> s == a
    ensures s.value == a.value && s.pctDetention == a.pctDetention && s.pctDetentionConjoint == a.pctDetentionConjoint
  {
    a.(typeBienPro := Truncate(a.typeBienPro, LABEL_WIDTH))
  }

  /** A loan stored with its label cut to the column width; its term, amount, shares and link are kept. */
  function StoredLoan(l: Loan): (s: Loan)
    ensures |s.typeEmprunt| <= LABEL_WIDTH && s.typeEmprunt <= l.typeEmprunt
    ensures |l.typeEmprunt| <= LABEL_WIDTH ==> s == l
    ensures s.dtFin == l.dtFin && s.montantRestantDu == l.montantRestantDu && s.immoLie == l.immoLie
    ensures s.pctEmprunt == l.pctEmprunt && s.pctEmpruntConjoint == l.pctEmpruntConjoint
  {
    l.(typeEmprunt := Truncate(l.typeEmprunt, LABEL_WIDTH))
  }

  /** Storing keeps the household's shares and the loan-to-property linkage. */
  lemma StoringKeepsValidity(p: Perso, c: Cashflow, fin: seq<FinAsset>, immo: seq<ImmoAsset>, pro: seq<ProAsset>,
                             loans: seq<Loan>, isCelib: bool)
    requires forall a :: a in fin ==> Shares(a.pctDetention, a.pctDetentionConjoint, isCelib)
    requires forall a :: a in immo ==> Shares(a.pctDetention, a.pctDetentionConjoint, isCelib)
    requires forall a :: a in pro ==> Shares(a.pctDetention, a.pctDetentionConjoint, isCelib)
    requires forall l :: l in loans ==> Shares(l.pctEmprunt, l.pctEmpruntConjoint, isCelib)
    requires LinksHold(loans, Map(immo, StoredImmo))
    ensures ProfileValid(Profile(p, c, Map(fin, StoredFin), Map(immo, StoredImmo), Map(pro, StoredPro), Map(loans, StoredLoan)), isCelib)
  {
    var q := Profile(p, c, Map(fin, StoredFin), Map(immo, StoredImmo), Map(pro, StoredPro), Map(loans, StoredLoan));
    forall a | a in q.fin ensures Shares(a.pctDetention, a.pctDetentionConjoint, isCelib) {
      var k :| 0 <= k < |q.fin| && q.fin[k] == a;
      assert fin[k] in fin;
    }
    forall a | a in q.immo ensures Shares(a.pctDetention, a.pctDetentionConjoint, isCelib) {
      var k :| 0 <= k < |q.immo| && q.immo[k] == a;
      assert immo[k] in immo;
    }
    forall a | a in q.pro ensures Shares(a.pctDetention, a.pctDetentionConjoint, isCelib) {
      var k :| 0 <= k < |q.pro| && q.pro[k] == a;
      assert pro[k] in pro;
    }
    forall l | l in q.emprunt
      ensures Shares(l.pctEmprunt, l.pctEmpruntConjoint, isCelib)
      ensures l.immoLie == -1 || (0 <= l.immoLie < |q.immo| && l.montantRestantDu <= q.immo[l.immoLie].value)
    {
      var k :| 0 <= k < |q.emprunt| && q.emprunt[k] == l;
      assert loans[k] in loans;
    }
  }

  // ---------------------------------------------------------------- simul_obj_client

  /** The draws one generated household consumes, generator by generator. */
  datatype ClientDraws = ClientDraws(
    celib: Unit,
    perso: PersoDraws,
    cashflow: CashflowDraws,
    fin: Draws,
    immo: Draws,
    pro: Draws,
    emprunt: Draws)

  /** Whether the household is single, drawn from the {0.30: True, 1.0: False} table. */
  function IsCelib(u: Unit): (b: bool)
    ensures b <==> u < 0.30
  {
    assert 1.0 in IS_CELIB;
    var r := Sample(u, IS_CELIB);
    assert r.Ok?;
    if u < 0.30 then
      assert r == Ok(IS_CELIB[0.30]);
      r.value
    else
      assert r == Ok(IS_CELIB[1.0]);
      r.value
  }

  /** The mode string: "manual" uses the user's dictionaries, anything else draws. */
  function ModeOf(manual: bool, nb: map<string, seq<(string, int)>>): Mode
  {
    if manual then Manual(nb) else Auto
  }

  /**
   * simul_obj_client: a household drawn generator by generator. The first
   * generator that fails decides the outcome; the loans are drawn against
   * the stored property list.
   */
  function SimulObjClient(manual: bool, nbFin: map<string, seq<(string, int)>>, nbImmo: map<string, seq<(string, int)>>,
                          nbPro: map<string, seq<(string, int)>>, nbEmprunt: map<string, seq<(string, int)>>,
                          d: ClientDraws, sample: (nat, nat) -> seq<nat>, today: Date): (r: Result<Profile>)
    ensures r.Ok? ==> manual
    ensures r.Ok? ==> 25 <= r.value.perso.age <= 70 && 1.0 <= r.value.cashflow.nbPartFiscal <= 5.0
  {
    var isCelib := IsCelib(d.celib);
    var perso := SituationPersoRandom(d.perso);
    DrawnSituationHasFiscalParts(d.perso, isCelib, d.cashflow);
    var cashflow := CashflowRandom(isCelib, perso, d.cashflow).value;
    var fin :- FinOutcome(ModeOf(manual, nbFin), isCelib, d.fin);
    var immo :- ImmoOutcome(ModeOf(manual, nbImmo), isCelib, d.immo);
    var pro :- ProOutcome(ModeOf(manual, nbPro), isCelib, d.pro);
    var stored := Map(immo, StoredImmo);
    var loans :- EmpruntOutcome(ModeOf(manual, nbEmprunt), stored, isCelib, d.emprunt, sample, today);
    Ok(Profile(StoredPerso(perso), cashflow, Map(fin, StoredFin), stored, Map(pro, StoredPro), Map(loans, StoredLoan)))
  }

  /**
   * In the random mode no household is ever produced: the situation, cash
   * flows and financial assets are always drawn, and property then fails on
   * the unbound extended label list.
   */
  lemma SimulObjClientAutoFails(nbFin: map<string, seq<(string, int)>>, nbImmo: map<string, seq<(string, int)>>,
                                nbPro: map<string, seq<(string, int)>>, nbEmprunt: map<string, seq<(string, int)>>,
                                d: ClientDraws, sample: (nat, nat) -> seq<nat>, today: Date)
    ensures SimulObjClient(false, nbFin, nbImmo, nbPro, nbEmprunt, d, sample, today) == Err(NameError("list_type_ext"))
  {
    var isCelib := IsCelib(d.celib);
    DrawnSituationHasFiscalParts(d.perso, isCelib, d.cashflow);
    FinAutoSucceeds(isCelib, d.fin);
    ImmoAutoAlwaysFails(isCelib, d.immo);
  }

  /**
   * A generated household is valid: every asset and loan is held in the
   * shares of the drawn marital status, and every loan is tied to no
   * property or to a listed one worth at least what is owed.
   */
  lemma SimulObjClientValid(manual: bool, nbFin: map<string, seq<(string, int)>>, nbImmo: map<string, seq<(string, int)>>,
                            nbPro: map<string, seq<(string, int)>>, nbEmprunt: map<string, seq<(string, int)>>,
                            d: ClientDraws, sample: (nat, nat) -> seq<nat>, today: Date)
    ensures SimulObjClient(manual, nbFin, nbImmo, nbPro, nbEmprunt, d, sample, today).Ok? ==>
              ProfileValid(SimulObjClient(manual, nbFin, nbImmo, nbPro, nbEmprunt, d, sample, today).value, IsCelib(d.celib))
  {
    var r := SimulObjClient(manual, nbFin, nbImmo, nbPro, nbEmprunt, d, sample, today);
    if r.Ok? {
      var isCelib := IsCelib(d.celib);
      var perso := SituationPersoRandom(d.perso);
      var cashflow := CashflowRandom(isCelib, perso, d.cashflow).value;
      var fin := FinOutcome(ModeOf(manual, nbFin), isCelib, d.fin).value;
      var immo := ImmoOutcome(ModeOf(manual, nbImmo), isCelib, d.immo).value;
      var pro := ProOutcome(ModeOf(manual, nbPro), isCelib, d.pro).value;
      var stored := Map(immo, StoredImmo);
      var mode := ModeOf(manual, nbEmprunt);
      var loans := EmpruntOutcome(mode, stored, isCelib, d.emprunt, sample, today).value;
      assert r.value == Profile(StoredPerso(perso), cashflow, Map(fin, StoredFin), stored, Map(pro, StoredPro), Map(loans, StoredLoan));
      FinShares(ModeOf(manual, nbFin), isCelib, d.fin);
      ImmoShares(ModeOf(manual, nbImmo), isCelib, d.immo);
      ProShares(ModeOf(manual, nbPro), isCelib, d.pro);
      EmpruntLinks(PlanFor(mode, EMPRUNT, d.emprunt).value, stored, isCelib, d.emprunt, sample, today);
      StoringKeepsValidity(StoredPerso(perso), cashflow, fin, immo, pro, loans, isCelib);
    }
  }

  // ---------------------------------------------------------------- simul_obj_client_from_dicts

  /** The situation dictionary: an optional "isCelib" flag and the "perso" and "cashflow" dictionaries. */
  datatype SituationDict = SituationDict(isCelib: Option<bool>, perso: Option<PersoDict>, cashflow: Option<CashflowDict>)

  /** `situation_dict.get("isCelib", True)`. */
  function CelibOf(s: SituationDict): bool
  {
    if s.isCelib.Some? then s.isCelib.value else true
  }

  /**
   * simul_obj_client_from_dicts: a household from typed-in dictionaries. A
   * missing "perso" or "cashflow" dictionary is a missing key; otherwise each
   * list holds one stored record per kept amount, loans are built against
   * the stored property list, and the household is valid.
   */
  method SimulObjClientFromDicts(situation: SituationDict, montantsFin: AmountDict, montantsImmo: AmountDict,
                                 montantsPro: AmountDict, montantsEmprunt: AmountDict, today: Date)
    returns (r: Result<Profile>)
    ensures situation.perso.None? ==> r == Err(KeyError("perso"))
    ensures situation.perso.Some? && situation.cashflow.None? ==> r == Err(KeyError("cashflow"))
    ensures r.Ok? <==> situation.perso.Some? && situation.cashflow.Some?
    ensures r.Ok? ==> ProfileValid(r.value, CelibOf(situation))
    ensures r.Ok? ==> r.value.perso == PersoFromDict(situation.perso.value) &&
                      r.value.cashflow == CashflowFromDict(situation.cashflow.value)
    ensures r.Ok? ==> |r.value.fin| == |Entries(montantsFin)| &&
                      forall k :: 0 <= k < |r.value.fin| ==>
                        r.value.fin[k] == StoredFin(FinOf(Entries(montantsFin)[k], CelibOf(situation)))
    ensures r.Ok? ==> |r.value.immo| == |Entries(montantsImmo)| &&
                      forall k :: 0 <= k < |r.value.immo| ==>
                        r.value.immo[k] == StoredImmo(ImmoOf(Entries(montantsImmo)[k], CelibOf(situation)))
    ensures r.Ok? ==> |r.value.pro| == |Entries(montantsPro)| &&
                      forall k :: 0 <= k < |r.value.pro| ==>
                        r.value.pro[k] == StoredPro(ProOf(Entries(montantsPro)[k], CelibOf(situation)))
    ensures r.Ok? ==> |r.value.emprunt| == |Entries(montantsEmprunt)| &&
                      forall k :: 0 <= k < |r.value.emprunt| ==>
                        r.value.emprunt[k] == StoredLoan(LoanOf(Entries(montantsEmprunt)[k], r.value.immo, CelibOf(situation), today))
  {
    var isCelib := CelibOf(situation);
    if situation.perso.None? {
      return Err(KeyError("perso"));
    }
    var perso := PersoFromDict(situation.perso.value);
    if situation.cashflow.None? {
      return Err(KeyError("cashflow"));
    }
    var cashflow := CashflowFromDict(situation.cashflow.value);
    var fin := FinFromAmounts(montantsFin, isCelib);
    var immo := ImmoFromAmounts(montantsImmo, isCelib);
    var pro := ProFromAmounts(montantsPro, isCelib);
    var stored := Map(immo, StoredImmo);
    var loans := EmpruntFromAmounts(montantsEmprunt, stored, isCelib, today);
    StoringKeepsValidity(perso, cashflow, fin, immo, pro, loans, isCelib);
    r := Ok(Profile(perso, cashflow, Map(fin, StoredFin), stored, Map(pro, StoredPro), Map(loans, StoredLoan)));
  }
}
