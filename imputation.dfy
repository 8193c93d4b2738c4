/**
 * impute_json: writing a profile into a document template in place. The
 * client's first detail is rebuilt from the personal record, the first
 * cash-flow detail is updated with the six flows, and the financial,
 * property, business and loan detail lists are rebuilt with one copy of
 * the template's first element per profile row, overwritten field by field.
 */
module Imputation {
  import opened Common
  import opened Records
  import opened Classification

  /**
   * A JSON value. `JDate(start, yearsLater)` is the "%Y-%m-%d" text of the
   * day `yearsLater` years after `start`.
   */
  datatype Json =
    | JNull
    | JBool(b: bool)
    | JInt(i: int)
    | JReal(r: real)
    | JStr(s: string)
    | JDate(start: Date, yearsLater: nat)
    | JArr(items: seq<Json>)
    | JObj(fields: map<string, Json>)

  /** One element of a detail list: a JSON object. */
  type Detail = map<string, Json>

  // ---------------------------------------------------------------- decimal text

  function DigitChar(d: nat): (c: char)
    requires d < 10
    ensures '0' <= c <= '9' && (c as int) - ('0' as int) == d
  {
    (('0' as int) + d) as char
  }

  /** The decimal digits of n, most significant first, without leading zeros. */
  function Digits(n: nat): (s: string)
    ensures |s| >= 1 && forall i :: 0 <= i < |s| ==> '0' <= s[i] <= '9'
    ensures n >= 10 ==> s[0] != '0'
  {
    if n < 10 then [DigitChar(n)] else Digits(n / 10) + [DigitChar(n % 10)]
  }

  /** The number a string of decimal digits denotes. */
  function DigitsValue(s: string): nat
    requires forall i :: 0 <= i < |s| ==> '0' <= s[i] <= '9'
  {
    if s == [] then 0
    else DigitsValue(s[..|s| - 1]) * 10 + ((s[|s| - 1] as int) - ('0' as int))
  }

  /** Reading back the digits of n gives n. */
  lemma {:induction false} DigitsRoundTrip(n: nat)
    ensures DigitsValue(Digits(n)) == n
  {
    if n >= 10 {
      var s := Digits(n);
      assert s[..|s| - 1] == Digits(n / 10);
      DigitsRoundTrip(n / 10);
    }
  }

  /** Python's str() of an int: a minus sign for negative numbers, then the digits. */
  function IntText(n: int): (s: string)
    ensures |s| >= 1
    ensures n >= 0 <==> s[0] != '-'
  {
    if n < 0 then "-" + Digits(-n) else Digits(n)
  }

  /** The year of a birth date, "{2025 - Age}-01-01". */
  const REFERENCE_YEAR := 2025

  function BirthDate(age: int): (s: string)
    ensures |s| > 6 && s[|s| - 6..] == "-01-01"
    ensures s[0] == '-' <==> age > REFERENCE_YEAR
  {
    IntText(REFERENCE_YEAR - age) + "-01-01"
  }

  /** A birth date ends in "-01-01" and, for an age up to 2025, starts with the digits of 2025 - Age. */
  lemma BirthDateReadsBack(age: int)
    requires age <= REFERENCE_YEAR
    ensures var s := BirthDate(age);
            |s| > 6 && s[|s| - 6..] == "-01-01" &&
            (forall i :: 0 <= i < |s| - 6 ==> '0' <= s[i] <= '9') &&
            DigitsValue(s[..|s| - 6]) == REFERENCE_YEAR - age
  {
    var s := BirthDate(age);
    var d := Digits(REFERENCE_YEAR - age);
    assert s == d + "-01-01";
    assert s[..|s| - 6] == d;
    assert s[|s| - 6..] == "-01-01";
    DigitsRoundTrip(REFERENCE_YEAR - age);
  }

  // ---------------------------------------------------------------- fields written

  /** The four client fields written; "regimeMatrimonial" is not among them. */
  function ClientFields(p: Perso): (m: Detail)
    ensures m.Keys == {"civilite", "dateNaissance", "nbEnfants", "typeUnion"}
  {
    map["civilite" := JStr(p.civilite),
        "dateNaissance" := JStr(BirthDate(p.age)),
        "nbEnfants" := JInt(p.nbEnfants),
        "typeUnion" := JStr(p.typeUnion)]
  }

  const CASHFLOW_KEYS := {"revenusActivite", "pensionRetraite", "depensesCourantes",
                          "revenusActiviteConjoint", "pensionRetraiteConjoint", "nbPartFiscal"}

  /** The six cash-flow fields written. */
  function CashflowFields(c: Cashflow): (m: Detail)
    ensures m.Keys == CASHFLOW_KEYS
  {
    map["revenusActivite" := JReal(c.revenusActivite),
        "pensionRetraite" := JReal(c.pensionRetraite),
        "depensesCourantes" := JReal(c.depensesCourantes),
        "revenusActiviteConjoint" := JReal(c.revenusActiviteConjoint),
        "pensionRetraiteConjoint" := JReal(c.pensionRetraiteConjoint),
        "nbPartFiscal" := JReal(c.nbPartFiscal)]
  }

  const FIN_KEYS := {"typeProd", "catProd", "value", "quotePart", "pctDetention", "pctDetentionConjoint", "dateValue"}

  function FinFields(a: FinAsset, today: Date): (m: Detail)
    ensures m.Keys == FIN_KEYS
  {
    map["typeProd" := JStr(a.typeProd),
        "catProd" := JStr(ClassifFin(Some(a.typeProd))),
        "value" := JReal(a.value),
        "quotePart" := JReal(a.value),
        "pctDetention" := JReal(a.pctDetention),
        "pctDetentionConjoint" := JReal(a.pctDetentionConjoint),
        "dateValue" := JDate(today, 0)]
  }

  const IMMO_KEYS := {"typeImmo", "catImmo", "dispositif", "value", "quotePart", "pctDetention",
                      "pctDetentionConjoint", "dateValue"}

  function ImmoFields(a: ImmoAsset, today: Date): (m: Detail)
    ensures m.Keys == IMMO_KEYS
  {
    map["typeImmo" := JStr(a.typeImmo),
        "catImmo" := JStr(ClassifImmo(Some(a.typeImmo))),
        "dispositif" := JStr(a.dispositif),
        "value" := JReal(a.value),
        "quotePart" := JReal(a.value),
        "pctDetention" := JReal(a.pctDetention),
        "pctDetentionConjoint" := JReal(a.pctDetentionConjoint),
        "dateValue" := JDate(today, 0)]
  }

  const PRO_KEYS := {"typeBienPro", "catBienPro", "value", "quotePart", "pctDetention", "pctDetentionConjoint", "dateValue"}

  function ProFields(a: ProAsset, today: Date): (m: Detail)
    ensures m.Keys == PRO_KEYS
  {
    map["typeBienPro" := JStr(a.typeBienPro),
        "catBienPro" := JStr(ClassifPro(Some(a.typeBienPro))),
        "value" := JReal(a.value),
        "quotePart" := JReal(a.value),
        "pctDetention" := JReal(a.pctDetention),
        "pctDetentionConjoint" := JReal(a.pctDetentionConjoint),
        "dateValue" := JDate(today, 0)]
  }

  const EMPRUNT_KEYS := {"typeEmprunt", "catEmprunt", "dtFin", "montantRestantDu", "quotePart", "pctEmprunt",
                         "pctEmpruntConjoint", "ImmoLie", "dateValue"}

  function LoanFields(l: Loan, today: Date): (m: Detail)
    ensures m.Keys == EMPRUNT_KEYS
  {
    map["typeEmprunt" := JStr(l.typeEmprunt),
        "catEmprunt" := JStr(ClassifEmprunt(Some(l.typeEmprunt))),
        "dtFin" := JDate(l.dtFin.start, l.dtFin.years),
        "montantRestantDu" := JReal(l.montantRestantDu),
        "quotePart" := JReal(l.montantRestantDu),
        "pctEmprunt" := JReal(l.pctEmprunt),
        "pctEmpruntConjoint" := JReal(l.pctEmpruntConjoint),
        "ImmoLie" := JInt(l.immoLie),
        "dateValue" := JDate(today, 0)]
  }

  function FinFieldsOn(today: Date): FinAsset -> Detail { a => FinFields(a, today) }
  function ImmoFieldsOn(today: Date): ImmoAsset -> Detail { a => ImmoFields(a, today) }
  function ProFieldsOn(today: Date): ProAsset -> Detail { a => ProFields(a, today) }
  function LoanFieldsOn(today: Date): Loan -> Detail { l => LoanFields(l, today) }

  // ---------------------------------------------------------------- the document

  /**
   * A detail list rebuilt from profile rows: empty for no rows; otherwise
   * one copy of the template's first element per row, with the row's fields
   * written over it. Rows with an empty template fail on the missing first
   * element.
   */
  function Rebuilt<A>(template: seq<Detail>, rows: seq<A>, fields: A -> Detail): (r: Result<seq<Detail>>)
    ensures r.Err? <==> |rows| > 0 && |template| == 0
    ensures r.Err? ==> r.error == IndexError
    ensures r.Ok? ==> |r.value| == |rows|
  {
    if |rows| == 0 then Ok([])
    else if |template| == 0 then Err(IndexError)
    else Ok(seq(|rows|, i requires 0 <= i < |rows| => template[0] + fields(rows[i])))
  }

  /**
   * Each rebuilt element carries its row's fields, keeps every other key of
   * the template's first element, and has no other key.
   */
  lemma RebuiltElements<A>(template: seq<Detail>, rows: seq<A>, fields: A -> Detail, i: nat)
    requires Rebuilt(template, rows, fields).Ok? && i < |rows|
    ensures var e := Rebuilt(template, rows, fields).value[i];
            && (forall k :: k in fields(rows[i]) ==> k in e && e[k] == fields(rows[i])[k])
            && (forall k :: k in template[0] && k !in fields(rows[i]) ==> k in e && e[k] == template[0][k])
            && (forall k :: k in e ==> k in template[0] || k in fields(rows[i]))
  {
  }

  /** Each rebuilt element is the template's first element with its row's fields merged over it. */
  lemma RebuiltElementIs<A>(template: seq<Detail>, rows: seq<A>, fields: A -> Detail, i: nat)
    requires Rebuilt(template, rows, fields).Ok? && i < |rows|
    ensures Rebuilt(template, rows, fields).value[i] == template[0] + fields(rows[i])
  {
  }

  /** The six detail lists of a document; every other part of it is left alone. */
  datatype Document = Document(
    client: seq<Detail>,
    cashflow: seq<Detail>,
    fin: seq<Detail>,
    immo: seq<Detail>,
    pro: seq<Detail>,
    emprunt: seq<Detail>)

  /** A document after an imputation, and the error that stopped it, if any. */
  datatype Imputed = Imputed(doc: Document, failure: Option<Error>)

  /**
   * The document impute_json leaves, part by part in its order: a part that
   * fails stops the imputation with the parts before it already written.
   */
  function ImputeDoc(d: Document, p: Profile, today: Date): (r: Imputed)
    ensures r.failure.None? <==>
              |d.client| > 0 && |d.cashflow| > 0 &&
              (|p.fin| == 0 || |d.fin| > 0) && (|p.immo| == 0 || |d.immo| > 0) &&
              (|p.pro| == 0 || |d.pro| > 0) && (|p.emprunt| == 0 || |d.emprunt| > 0)
    ensures r.failure.Some? ==> r.failure.value == IndexError
    ensures |r.doc.client| == |d.client| && |r.doc.cashflow| == |d.cashflow|
  {
    if |d.client| == 0 then Imputed(d, Some(IndexError))
    else
      var d1 := d.(client := d.client[0 := d.client[0] + ClientFields(p.perso)]);
      if |d1.cashflow| == 0 then Imputed(d1, Some(IndexError))
      else
        var d2 := d1.(cashflow := d1.cashflow[0 := d1.cashflow[0] + CashflowFields(p.cashflow)]);
        var fin := Rebuilt(d2.fin, p.fin, FinFieldsOn(today));
        if fin.Err? then Imputed(d2, Some(fin.error))
        else
          var d3 := d2.(fin := fin.value);
          var immo := Rebuilt(d3.immo, p.immo, ImmoFieldsOn(today));
          if immo.Err? then Imputed(d3, Some(immo.error))
          else
            var d4 := d3.(immo := immo.value);
            var pro := Rebuilt(d4.pro, p.pro, ProFieldsOn(today));
            if pro.Err? then Imputed(d4, Some(pro.error))
            else
              var d5 := d4.(pro := pro.value);
              var loans := Rebuilt(d5.emprunt, p.emprunt, LoanFieldsOn(today));
              if loans.Err? then Imputed(d5, Some(loans.error))
              else Imputed(d5.(emprunt := loans.value), None)
  }

  /** The document template impute_json overwrites in place. */
  class Template {
    var client: seq<Detail>
    var cashflow: seq<Detail>
    var fin: seq<Detail>
    var immo: seq<Detail>
    var pro: seq<Detail>
    var emprunt: seq<Detail>

    constructor (d: Document)
      ensures Doc() == d
    {
      client, cashflow, fin, immo, pro := d.client, d.cashflow, d.fin, d.immo, d.pro;
      emprunt := d.emprunt;
    }

    function Doc(): Document
      reads this
    {
      Document(client, cashflow, fin, immo, pro, emprunt)
    }

    /** impute_json: overwrites the six detail lists in order; `failure` is the error that stopped it. */
    method Impute(p: Profile, today: Date) returns (failure: Option<Error>)
      modifies this
      ensures Imputed(Doc(), failure) == ImputeDoc(old(Doc()), p, today)
    {
      if |client| == 0 {
        return Some(IndexError);
      }
      client := client[0 := client[0] + ClientFields(p.perso)];
      if |cashflow| == 0 {
        return Some(IndexError);
      }
      cashflow := cashflow[0 := cashflow[0] + CashflowFields(p.cashflow)];
      var rows := Rebuilt(fin, p.fin, FinFieldsOn(today));
      if rows.Err? {
        return Some(rows.error);
      }
      fin := rows.value;
      rows := Rebuilt(immo, p.immo, ImmoFieldsOn(today));
      if rows.Err? {
        return Some(rows.error);
      }
      immo := rows.value;
      rows := Rebuilt(pro, p.pro, ProFieldsOn(today));
      if rows.Err? {
        return Some(rows.error);
      }
      pro := rows.value;
      rows := Rebuilt(emprunt, p.emprunt, LoanFieldsOn(today));
      if rows.Err? {
        return Some(rows.error);
      }
      emprunt := rows.value;
      failure := None;
    }
  }

  // ---------------------------------------------------------------- what an imputation writes

  /** A financial detail: the asset's fields and category, its value again as quotePart, today's date, the rest of the template. */
  ghost predicate WritesFin(e: Detail, a: FinAsset, base: Detail, today: Date)
  {
    && e.Keys == base.Keys + FIN_KEYS
    && e["typeProd"] == JStr(a.typeProd) && e["catProd"] == JStr(ClassifFin(Some(a.typeProd)))
    && e["value"] == JReal(a.value) && e["quotePart"] == e["value"]
    && e["pctDetention"] == JReal(a.pctDetention) && e["pctDetentionConjoint"] == JReal(a.pctDetentionConjoint)
    && e["dateValue"] == JDate(today, 0)
    && forall k :: k in base && k !in FIN_KEYS ==> e[k] == base[k]
  }

  /** A property detail: kind, category and scheme, its value again as quotePart, today's date, the rest of the template. */
  ghost predicate WritesImmo(e: Detail, a: ImmoAsset, base: Detail, today: Date)
  {
    && e.Keys == base.Keys + IMMO_KEYS
    && e["typeImmo"] == JStr(a.typeImmo) && e["catImmo"] == JStr(ClassifImmo(Some(a.typeImmo)))
    && e["dispositif"] == JStr(a.dispositif)
    && e["value"] == JReal(a.value) && e["quotePart"] == e["value"]
    && e["pctDetention"] == JReal(a.pctDetention) && e["pctDetentionConjoint"] == JReal(a.pctDetentionConjoint)
    && e["dateValue"] == JDate(today, 0)
    && forall k :: k in base && k !in IMMO_KEYS ==> e[k] == base[k]
  }

  /** A business detail: label and category, its value again as quotePart, today's date, the rest of the template. */
  ghost predicate WritesPro(e: Detail, a: ProAsset, base: Detail, today: Date)
  {
    && e.Keys == base.Keys + PRO_KEYS
    && e["typeBienPro"] == JStr(a.typeBienPro) && e["catBienPro"] == JStr(ClassifPro(Some(a.typeBienPro)))
    && e["value"] == JReal(a.value) && e["quotePart"] == e["value"]
    && e["pctDetention"] == JReal(a.pctDetention) && e["pctDetentionConjoint"] == JReal(a.pctDetentionConjoint)
    && e["dateValue"] == JDate(today, 0)
    && forall k :: k in base && k !in PRO_KEYS ==> e[k] == base[k]
  }

  /**
   * A loan detail: label and category, its end date, the amount owed again
   * as quotePart, its shares, the index of its property, today's date, the
   * rest of the template.
   */
  ghost predicate WritesLoan(e: Detail, l: Loan, base: Detail, today: Date)
  {
    && e.Keys == base.Keys + EMPRUNT_KEYS
    && e["typeEmprunt"] == JStr(l.typeEmprunt) && e["catEmprunt"] == JStr(ClassifEmprunt(Some(l.typeEmprunt)))
    && e["dtFin"] == JDate(l.dtFin.start, l.dtFin.years)
    && e["montantRestantDu"] == JReal(l.montantRestantDu) && e["quotePart"] == e["montantRestantDu"]
    && e["pctEmprunt"] == JReal(l.pctEmprunt) && e["pctEmpruntConjoint"] == JReal(l.pctEmpruntConjoint)
    && e["ImmoLie"] == JInt(l.immoLie)
    && e["dateValue"] == JDate(today, 0)
    && forall k :: k in base && k !in EMPRUNT_KEYS ==> e[k] == base[k]
  }

  /** The lists a complete imputation leaves: each rebuilt from the document's own template element. */
  lemma ImputeDocLists(d: Document, p: Profile, today: Date)
    requires ImputeDoc(d, p, today).failure.None?
    ensures ImputeDoc(d, p, today).doc.fin == Rebuilt(d.fin, p.fin, FinFieldsOn(today)).value
    ensures ImputeDoc(d, p, today).doc.immo == Rebuilt(d.immo, p.immo, ImmoFieldsOn(today)).value
    ensures ImputeDoc(d, p, today).doc.pro == Rebuilt(d.pro, p.pro, ProFieldsOn(today)).value
    ensures ImputeDoc(d, p, today).doc.emprunt == Rebuilt(d.emprunt, p.emprunt, LoanFieldsOn(today)).value
  {
  }

  /** Each element rebuilt from financial rows holds its row as WritesFin says. */
  lemma FinRowsWritten(template: seq<Detail>, rows: seq<FinAsset>, today: Date)
    requires Rebuilt(template, rows, FinFieldsOn(today)).Ok?
    ensures forall i :: 0 <= i < |rows| ==>
              WritesFin(Rebuilt(template, rows, FinFieldsOn(today)).value[i], rows[i], template[0], today)
  {
    forall i | 0 <= i < |rows|
      ensures WritesFin(Rebuilt(template, rows, FinFieldsOn(today)).value[i], rows[i], template[0], today)
    {
      RebuiltElementIs(template, rows, FinFieldsOn(today), i);
      FinMerged(template[0], rows[i], today);
    }
  }

  /** Merging a financial row's fields into a detail. */
  lemma FinMerged(base: Detail, a: FinAsset, today: Date)
    ensures WritesFin(base + FinFields(a, today), a, base, today)
  {
    FinFieldsAt(a, today);
  }

  /** The values FinFields writes, key by key. */
  lemma FinFieldsAt(a: FinAsset, today: Date)
    ensures var f := FinFields(a, today);
            && f["typeProd"] == JStr(a.typeProd) && f["catProd"] == JStr(ClassifFin(Some(a.typeProd)))
            && f["value"] == JReal(a.value) && f["quotePart"] == JReal(a.value)
            && f["pctDetention"] == JReal(a.pctDetention) && f["pctDetentionConjoint"] == JReal(a.pctDetentionConjoint)
            && f["dateValue"] == JDate(today, 0)
  {
  }

  /** Each element rebuilt from property rows holds its row as WritesImmo says. */
  lemma ImmoRowsWritten(template: seq<Detail>, rows: seq<ImmoAsset>, today: Date)
    requires Rebuilt(template, rows, ImmoFieldsOn(today)).Ok?
    ensures forall i :: 0 <= i < |rows| ==>
              WritesImmo(Rebuilt(template, rows, ImmoFieldsOn(today)).value[i], rows[i], template[0], today)
  {
    forall i | 0 <= i < |rows|
      ensures WritesImmo(Rebuilt(template, rows, ImmoFieldsOn(today)).value[i], rows[i], template[0], today)
    {
      RebuiltElementIs(template, rows, ImmoFieldsOn(today), i);
      ImmoMerged(template[0], rows[i], today);
    }
  }

  /** Merging a real-estate row's fields into a detail. */
  lemma ImmoMerged(base: Detail, a: ImmoAsset, today: Date)
    ensures WritesImmo(base + ImmoFields(a, today), a, base, today)
  {
  }

  /** Each element rebuilt from business rows holds its row as WritesPro says. */
  lemma ProRowsWritten(template: seq<Detail>, rows: seq<ProAsset>, today: Date)
    requires Rebuilt(template, rows, ProFieldsOn(today)).Ok?
    ensures forall i :: 0 <= i < |rows| ==>
              WritesPro(Rebuilt(template, rows, ProFieldsOn(today)).value[i], rows[i], template[0], today)
  {
    forall i | 0 <= i < |rows|
      ensures WritesPro(Rebuilt(template, rows, ProFieldsOn(today)).value[i], rows[i], template[0], today)
    {
      RebuiltElementIs(template, rows, ProFieldsOn(today), i);
      ProMerged(template[0], rows[i], today);
    }
  }

  /** Merging a business row's fields into a detail. */
  lemma ProMerged(base: Detail, a: ProAsset, today: Date)
    ensures WritesPro(base + ProFields(a, today), a, base, today)
  {
  }

  /** Each element rebuilt from loans holds its loan as WritesLoan says. */
  lemma LoanRowsWritten(template: seq<Detail>, rows: seq<Loan>, today: Date)
    requires Rebuilt(template, rows, LoanFieldsOn(today)).Ok?
    ensures forall i :: 0 <= i < |rows| ==>
              WritesLoan(Rebuilt(template, rows, LoanFieldsOn(today)).value[i], rows[i], template[0], today)
  {
    forall i | 0 <= i < |rows|
      ensures WritesLoan(Rebuilt(template, rows, LoanFieldsOn(today)).value[i], rows[i], template[0], today)
    {
      RebuiltElementIs(template, rows, LoanFieldsOn(today), i);
      LoanMerged(template[0], rows[i], today);
    }
  }

  /** Merging a loan row's fields into a detail. */
  lemma LoanMerged(base: Detail, l: Loan, today: Date)
    ensures WritesLoan(base + LoanFields(l, today), l, base, today)
  {
  }

  /**
   * A complete imputation rebuilds each detail list with exactly one element
   * per profile row, in row order, each the template's first element with
   * the row written over it; a family without rows gets an empty list.
   */
  lemma ImputeRows(d: Document, p: Profile, today: Date)
    requires ImputeDoc(d, p, today).failure.None?
    ensures var r := ImputeDoc(d, p, today).doc;
            && |r.fin| == |p.fin| && |r.immo| == |p.immo| && |r.pro| == |p.pro| && |r.emprunt| == |p.emprunt|
            && (forall i :: 0 <= i < |p.fin| ==> WritesFin(r.fin[i], p.fin[i], d.fin[0], today))
            && (forall i :: 0 <= i < |p.immo| ==> WritesImmo(r.immo[i], p.immo[i], d.immo[0], today))
            && (forall i :: 0 <= i < |p.pro| ==> WritesPro(r.pro[i], p.pro[i], d.pro[0], today))
            && (forall i :: 0 <= i < |p.emprunt| ==> WritesLoan(r.emprunt[i], p.emprunt[i], d.emprunt[0], today))
  {
    ImputeDocLists(d, p, today);
    FinRowsWritten(d.fin, p.fin, today);
    ImmoRowsWritten(d.immo, p.immo, today);
    ProRowsWritten(d.pro, p.pro, today);
    LoanRowsWritten(d.emprunt, p.emprunt, today);
  }

  /** The first two stages: the client's and the cash flow's first details get their fields merged in. */
  lemma ImputeDocHeads(d: Document, p: Profile, today: Date)
    requires |d.client| > 0
    ensures ImputeDoc(d, p, today).doc.client == d.client[0 := d.client[0] + ClientFields(p.perso)]
    ensures |d.cashflow| > 0 ==>
              ImputeDoc(d, p, today).doc.cashflow == d.cashflow[0 := d.cashflow[0] + CashflowFields(p.cashflow)]
  {
  }

  /**
   * The client's first detail gets the four personal fields over its old
   * content, with the birth date "{2025 - Age}-01-01"; "regimeMatrimonial"
   * is never written, and every other client detail is untouched.
   */
  lemma ImputeClient(d: Document, p: Profile, today: Date)
    requires |d.client| > 0
    ensures var c := ImputeDoc(d, p, today).doc.client;
            && c[0].Keys == d.client[0].Keys + {"civilite", "dateNaissance", "nbEnfants", "typeUnion"}
            && c[0]["civilite"] == JStr(p.perso.civilite)
            && c[0]["dateNaissance"] == JStr(BirthDate(p.perso.age))
            && c[0]["nbEnfants"] == JInt(p.perso.nbEnfants)
            && c[0]["typeUnion"] == JStr(p.perso.typeUnion)
            && ("regimeMatrimonial" in c[0] <==> "regimeMatrimonial" in d.client[0])
            && ("regimeMatrimonial" in c[0] ==> c[0]["regimeMatrimonial"] == d.client[0]["regimeMatrimonial"])
            && (forall j :: 1 <= j < |c| ==> c[j] == d.client[j])
  {
    ImputeDocHeads(d, p, today);
    ClientMerged(d.client[0], p.perso);
  }

  /** Merging the four personal fields into a detail; "regimeMatrimonial" is not among them. */
  lemma ClientMerged(base: Detail, p: Perso)
    ensures var e := base + ClientFields(p);
            && e.Keys == base.Keys + {"civilite", "dateNaissance", "nbEnfants", "typeUnion"}
            && e["civilite"] == JStr(p.civilite)
            && e["dateNaissance"] == JStr(BirthDate(p.age))
            && e["nbEnfants"] == JInt(p.nbEnfants)
            && e["typeUnion"] == JStr(p.typeUnion)
            && ("regimeMatrimonial" in e <==> "regimeMatrimonial" in base)
            && ("regimeMatrimonial" in e ==> e["regimeMatrimonial"] == base["regimeMatrimonial"])
  {
    assert "regimeMatrimonial" !in ClientFields(p);
  }

  /**
   * Once the client is written, the first cash-flow detail gets the six
   * flows over its old content, keeping its other keys; every other
   * cash-flow detail is untouched.
   */
  lemma ImputeCashflow(d: Document, p: Profile, today: Date)
    requires |d.client| > 0 && |d.cashflow| > 0
    ensures var c := ImputeDoc(d, p, today).doc.cashflow;
            && c[0].Keys == d.cashflow[0].Keys + CASHFLOW_KEYS
            && c[0]["revenusActivite"] == JReal(p.cashflow.revenusActivite)
            && c[0]["pensionRetraite"] == JReal(p.cashflow.pensionRetraite)
            && c[0]["depensesCourantes"] == JReal(p.cashflow.depensesCourantes)
            && c[0]["revenusActiviteConjoint"] == JReal(p.cashflow.revenusActiviteConjoint)
            && c[0]["pensionRetraiteConjoint"] == JReal(p.cashflow.pensionRetraiteConjoint)
            && c[0]["nbPartFiscal"] == JReal(p.cashflow.nbPartFiscal)
            && (forall k :: k in d.cashflow[0] && k !in CASHFLOW_KEYS ==> c[0][k] == d.cashflow[0][k])
            && (forall j :: 1 <= j < |c| ==> c[j] == d.cashflow[j])
  {
    ImputeDocHeads(d, p, today);
    CashflowMerged(d.cashflow[0], p.cashflow);
  }

  /** Merging the six flows into a detail. */
  lemma CashflowMerged(base: Detail, c: Cashflow)
    ensures var e := base + CashflowFields(c);
            && e.Keys == base.Keys + CASHFLOW_KEYS
            && e["revenusActivite"] == JReal(c.revenusActivite)
            && e["pensionRetraite"] == JReal(c.pensionRetraite)
            && e["depensesCourantes"] == JReal(c.depensesCourantes)
            && e["revenusActiviteConjoint"] == JReal(c.revenusActiviteConjoint)
            && e["pensionRetraiteConjoint"] == JReal(c.pensionRetraiteConjoint)
            && e["nbPartFiscal"] == JReal(c.nbPartFiscal)
            && (forall k :: k in base && k !in CASHFLOW_KEYS ==> e[k] == base[k])
  {
  }

  /**
   * An imputation that stops leaves the lists it had not reached as they
   * were: without a client detail nothing changes, and a family whose rows
   * find no template element keeps its list and every later one.
   */
  lemma ImputeStops(d: Document, p: Profile, today: Date)
    ensures |d.client| == 0 ==> ImputeDoc(d, p, today).doc == d
    ensures |d.client| > 0 && |d.cashflow| == 0 ==>
              ImputeDoc(d, p, today).doc.cashflow == d.cashflow && ImputeDoc(d, p, today).doc.fin == d.fin
    ensures ImputeDoc(d, p, today).failure.Some? ==> ImputeDoc(d, p, today).doc.emprunt == d.emprunt
  {
  }
}
