/**
 * The household profile: one record per row of the source's numpy
 * structured arrays (perso_dtype, cashflow_dtype, fin_dtype, immo_dtype,
 * pro_dtype, emprunt_dtype), with float64 amounts as reals.
 */
module Records {
  import opened Common

  /** A calendar day, as datetime.now() gives it. */
  datatype Date = Date(year: int, month: int, day: int)

  /**
   * A loan's end date: `years` years after `start`, as
   * `start + relativedelta(years = years)` computes it.
   */
  datatype Maturity = Maturity(start: Date, years: nat)

  datatype Perso = Perso(
    civilite: string,
    age: int,
    nbEnfants: int,
    typeUnion: string,
    regimeMatrimonial: string)

  datatype Cashflow = Cashflow(
    revenusActivite: real,
    pensionRetraite: real,
    depensesCourantes: real,
    revenusActiviteConjoint: real,
    pensionRetraiteConjoint: real,
    nbPartFiscal: real)

  datatype FinAsset = FinAsset(typeProd: string, value: real, pctDetention: real, pctDetentionConjoint: real)

  datatype ImmoAsset = ImmoAsset(
    typeImmo: string,
    dispositif: string,
    value: real,
    pctDetention: real,
    pctDetentionConjoint: real)

  datatype ProAsset = ProAsset(typeBienPro: string, value: real, pctDetention: real, pctDetentionConjoint: real)

  /** `immoLie` is -1 for a loan tied to no property, else an index into the property list. */
  datatype Loan = Loan(
    typeEmprunt: string,
    dtFin: Maturity,
    montantRestantDu: real,
    pctEmprunt: real,
    pctEmpruntConjoint: real,
    immoLie: int)

  /** The `pat` dictionary the assemblers return. */
  datatype Profile = Profile(
    perso: Perso,
    cashflow: Cashflow,
    fin: seq<FinAsset>,
    immo: seq<ImmoAsset>,
    pro: seq<ProAsset>,
    emprunt: seq<Loan>)

  /** The fixed ownership split of a household: (1, 0) alone, (0.5, 0.5) in a couple. */
  predicate Shares(own: real, partner: real, isCelib: bool)
  {
    own == OwnerShare(isCelib) && partner == PartnerShare(isCelib)
  }

  /** Every owned asset and every loan carries the household's fixed split. */
  ghost predicate SharesHeld(p: Profile, isCelib: bool)
  {
    && (forall a :: a in p.fin ==> Shares(a.pctDetention, a.pctDetentionConjoint, isCelib))
    && (forall a :: a in p.immo ==> Shares(a.pctDetention, a.pctDetentionConjoint, isCelib))
    && (forall a :: a in p.pro ==> Shares(a.pctDetention, a.pctDetentionConjoint, isCelib))
    && (forall l :: l in p.emprunt ==> Shares(l.pctEmprunt, l.pctEmpruntConjoint, isCelib))
  }

  /**
   * Loan-to-property linkage: a loan points at no property or at an existing
   * one, and a linked loan owes no more than that property is worth.
   */
  ghost predicate LinksHold(loans: seq<Loan>, immo: seq<ImmoAsset>)
  {
    forall l :: l in loans ==>
      l.immoLie == -1 ||
      (0 <= l.immoLie < |immo| && l.montantRestantDu <= immo[l.immoLie].value)
  }

  ghost predicate ProfileValid(p: Profile, isCelib: bool)
  {
    SharesHeld(p, isCelib) && LinksHold(p.emprunt, p.immo)
  }
}
