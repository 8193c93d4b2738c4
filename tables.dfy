/**
 * The calibration tables of the engine. A breakpoint table maps cumulative
 * probabilities to outcomes; an amount range gives the bounds of a drawn
 * amount. Each asset family is a `Domain`: its ordered sub-type names and its
 * count, label and amount tables, keyed by "nb", "type" and "montant"
 * followed by the sub-type name.
 */
module Tables {

  datatype Range = Range(lo: int, hi: int)

  datatype Domain = Domain(
    types: seq<string>,
    nbTables: map<string, map<real, int>>,
    typeTables: map<string, map<real, string>>,
    amounts: map<string, Range>)

  /** Every sub-type has a count table. */
  ghost predicate CountKeys(d: Domain)
  {
    forall t :: t in d.types ==> "nb" + t in d.nbTables
  }

  /** Every sub-type has a label table. */
  ghost predicate LabelKeys(d: Domain)
  {
    forall t :: t in d.types ==> "type" + t in d.typeTables
  }

  /** Every sub-type has an amount range. */
  ghost predicate AmountKeys(d: Domain)
  {
    forall t :: t in d.types ==> "montant" + t in d.amounts
  }

  /** Every count and label table of the domain has a breakpoint at 1.0, so none is empty. */
  ghost predicate Filled(d: Domain)
  {
    && (forall k :: k in d.nbTables ==> 1.0 in d.nbTables[k])
    && (forall k :: k in d.typeTables ==> 1.0 in d.typeTables[k])
  }

  /** Every amount range of the domain is non-empty. */
  ghost predicate Ordered(d: Domain)
  {
    forall k :: k in d.amounts ==> d.amounts[k].lo <= d.amounts[k].hi
  }

  // ---------------------------------------------------------------- persons

  const CIVILITE: map<real, string> := map[0.484 := "M", 1.0 := "Mme"]

  const NB_ENFANTS: map<real, int> := map[0.25 := 0, 0.52 := 1, 0.84 := 2, 0.96 := 3, 1.0 := 4]

  /** Age of the mother at the birth of her first, ..., fourth child. */
  const AGE_ENFANTS: map<int, int> := map[1 := 28, 2 := 31, 3 := 33, 4 := 35]

  const TYPE_UNION: map<real, string> := map[
    0.23 := "Célibataire",
    0.30 := "Divorcé(e)/FinDePacs",
    0.38 := "Veuf(ve)",
    0.50 := "Union Libre",
    0.54 := "Pacsé(e)",
    1.0 := "Marié(e)"]

  const REGIME_MATRIMONIAL: map<real, string> := map[
    0.85 := "communauté réduite aux acquêts",
    1.0 := "séparation de biens"]

  /** The household is single with probability 0.30. */
  const IS_CELIB: map<real, bool> := map[0.30 := true, 1.0 := false]

  // ---------------------------------------------------------------- cashflow

  const REVENUS_ACTIVITE := Range(60000, 1000000)
  const PENSION_RETRAITE := Range(20000, 300000)
  const DEPENSES_COURANTES := Range(3000, 8000)
  /** The owner's share of household income, in percent. */
  const COEF_REPART_REVENU := Range(20, 80)

  // ---------------------------------------------------------------- financial assets

  const FIN_TYPES: seq<string> := ["LivretA", "LDDS", "Cash", "CTO", "PEA", "Assurance",
    "Retraite", "EpargneSalariale", "Crypto", "Voiture", "Autres"]

  const FIN_NB: map<string, map<real, int>> := map[
    "nbLivretA" := map[0.15 := 0, 1.0 := 1],
    "nbLDDS" := map[0.53 := 0, 1.0 := 1],
    "nbCash" := map[0.44 := 0, 0.84 := 1, 0.97 := 2, 1.0 := 3],
    "nbCTO" := map[0.90 := 0, 1.0 := 1],
    "nbPEA" := map[0.85 := 0, 1.0 := 2],
    "nbAssurance" := map[0.59 := 0, 1.0 := 1],
    "nbRetraite" := map[0.83 := 0, 1.0 := 1],
    "nbEpargneSalariale" := map[0.85 := 0, 1.0 := 1],
    "nbCrypto" := map[0.85 := 0, 1.0 := 1],
    "nbVoiture" := map[0.14 := 0, 0.84 := 1, 1.0 := 2],
    "nbAutres" := map[0.99 := 0, 1.0 := 1]]

  const FIN_TYPE: map<string, map<real, string>> := map[
    "typeLivretA" := map[0.9 := "LivretA", 1.0 := "LvretBleu"],
    "typeLDDS" := map[1.0 := "LDDS"],
    "typeCash" := map[0.29 := "LivretJeune", 0.36 := "LEP", 0.57 := "PEL", 0.71 := "CEL", 0.86 := "CAT", 1.0 := "Compte"],
    "typeCTO" := map[0.5 := "CTO", 0.8 := "CTO Fonds", 0.95 := "CTODefisc", 1.0 := "CTODette"],
    "typePEA" := map[0.9 := "PEA", 0.92 := "PEA-Ass", 1.0 := "PEAPME"],
    "typeAssurance" := map[0.9 := "AV", 1.0 := "CAPI"],
    "typeRetraite" := map[0.6 := "PER", 0.7 := "PERP", 0.8 := "MADELIN", 0.9 := "PERO", 1.0 := "ART83"],
    "typeEpargneSalariale" := map[0.4 := "PEE", 0.7 := "PERECO", 1.0 := "PERCO"],
    "typeCrypto" := map[1.0 := "Crypto"],
    "typeVoiture" := map[1.0 := "Voiture"],
    "typeAutres" := map[0.1 := "NFT", 0.15 := "BiensToken", 0.3 := "Art", 0.6 := "Vins", 0.9 := "Meubles", 1.0 := "Autre"]]

  const FIN_AMOUNT: map<string, Range> := map[
    "montantLivretA" := Range(1000, 22950),
    "montantLDDS" := Range(1000, 12000),
    "montantCash" := Range(1000, 20000),
    "montantCTO" := Range(5000, 20000),
    "montantPEA" := Range(5000, 40000),
    "montantAssurance" := Range(10000, 30000),
    "montantRetraite" := Range(1000, 10000),
    "montantEpargneSalariale" := Range(5000, 8000),
    "montantCrypto" := Range(1000, 10000),
    "montantVoiture" := Range(5000, 30000),
    "montantAutres" := Range(1000, 10000)]

  const FIN := Domain(FIN_TYPES, FIN_NB, FIN_TYPE, FIN_AMOUNT)

  // ---------------------------------------------------------------- real estate

  const IMMO_TYPES: seq<string> := ["RP", "RS", "RL", "SCPI", "Foret", "Terrain"]

  const IMMO_AMOUNT: map<string, Range> := map[
    "montantRP" := Range(100000, 500000),
    "montantRS" := Range(50000, 300000),
    "montantRL" := Range(80000, 300000),
    "montantSCPI" := Range(1000, 50000),
    "montantForet" := Range(5000, 30000),
    "montantTerrain" := Range(5000, 100000)]

  /** Holds an unused "nbRL-Nue" entry besides the six sub-types. */
  const IMMO_NB: map<string, map<real, int>> := map[
    "nbRP" := map[0.42 := 0, 1.0 := 1],
    "nbRS" := map[0.90 := 0, 1.0 := 1],
    "nbRL-Nue" := map[0.81 := 0, 0.95 := 1, 1.0 := 2],
    "nbRL" := map[0.81 := 0, 0.95 := 1, 1.0 := 2],
    "nbSCPI" := map[0.95 := 0, 1.0 := 1],
    "nbForet" := map[0.95 := 0, 1.0 := 1],
    "nbTerrain" := map[0.99 := 0, 1.0 := 1]]

  const IMMO_TYPE: map<string, map<real, string>> := map[
    "typeRP" := map[1.0 := "RP"],
    "typeRS" := map[1.0 := "RS"],
    "typeRL" := map[0.70 := "RL-Nue", 0.90 := "RL-Meuble", 0.95 := "Achat-NuePropriete",
                    0.98 := "Achat-Viager", 1.00 := "Achat-JouissanceDiffere"],
    "typeSCPI" := map[1.0 := "SCPI-SCI"],
    "typeForet" := map[0.95 := "Foret", 1.0 := "GFI/GFF"],
    "typeTerrain" := map[0.5 := "Terrain constructible", 1.0 := "Terrain non constructible"]]

  const IMMO := Domain(IMMO_TYPES, IMMO_NB, IMMO_TYPE, IMMO_AMOUNT)

  /** Tax schemes drawn for rented property in the random mode. */
  const IMMO_DISPOSITIF: map<string, map<real, string>> := map[
    "RL-Nue" := map[0.40 := "aucun", 0.65 := "Pinel", 0.67 := "Pinel+", 0.74 := "ScellierIntBBC",
                    0.81 := "ScellierIntNonBBC", 0.87 := "Denormandie", 0.94 := "LocAvantage",
                    0.97 := "Malraux", 1.00 := "MonumentHistorique"],
    "RL-Meuble" := map[0.14 := "aucun", 0.40 := "CensiBouvard", 0.70 := "TourismeClasse",
                       1.00 := "TourismeNonClasse"]]

  /** Tax scheme of each extended rented-property label of the manual modes. */
  const IMMO_DISPOSITIF_MANUAL: map<string, string> := map[
    "RL-Nue" := "aucun",
    "RL-Nue Pinel" := "Pinel",
    "RL-Nue Pinel+" := "Pinel+",
    "RL-Nue ScellierIntBBC" := "ScellierIntBBC",
    "RL-Nue ScellierIntNonBBC" := "ScellierIntNonBBC",
    "RL-Nue Denormandie" := "Denormandie",
    "RL-Nue LocAvantage" := "LocAvantage",
    "RL-Nue Malraux" := "Malraux",
    "RL-Nue MonumentHistorique" := "MonumentHistorique",
    "RL-Meuble Meublé LT" := "Meublé LT",
    "RL-Meuble Meublé CensiBouvard" := "Meublé CensiBouvard",
    "RL-Meuble Meublé TourismeClasse" := "Meublé TourismeClasse",
    "RL-Meuble Meublé TourismeNonClasse" := "Meublé TourismeNonClasse"]

  /** The extended labels that denote unfurnished rental. */
  const RL_NUE_LABELS: seq<string> := ["RL-Nue", "RL-Nue Pinel", "RL-Nue Pinel+", "RL-Nue ScellierIntBBC",
    "RL-Nue ScellierIntNonBBC", "RL-Nue Denormandie", "RL-Nue LocAvantage", "RL-Nue Malraux",
    "RL-Nue MonumentHistorique"]

  /** The extended labels that denote furnished rental. */
  const RL_MEUBLE_LABELS: seq<string> := ["RL-Meuble Meublé LT", "RL-Meuble Meublé CensiBouvard",
    "RL-Meuble Meublé TourismeClasse", "RL-Meuble Meublé TourismeNonClasse"]

  // ---------------------------------------------------------------- professional assets

  const PRO_TYPES: seq<string> := ["Ste", "Sci", "Autres"]

  const PRO_AMOUNT: map<string, Range> := map[
    "montantSte" := Range(2000, 300000),
    "montantSci" := Range(50000, 500000),
    "montantAutres" := Range(50000, 500000)]

  const PRO_NB: map<string, map<real, int>> := map[
    "nbSte" := map[0.95 := 0, 1.0 := 1],
    "nbSci" := map[0.98 := 0, 1.0 := 1],
    "nbAutres" := map[0.95 := 0, 1.0 := 1]]

  /** The third label table is keyed "typeAutre", while the sub-type is named "Autres". */
  const PRO_TYPE: map<string, map<real, string>> := map[
    "typeSte" := map[1.0 := "Société"],
    "typeSci" := map[0.7 := "SCI-Famille", 1.0 := "SCI-Pro"],
    "typeAutre" := map[0.50 := "Fonds Commerce", 0.80 := "Bien Exploitation", 0.95 := "CCA", 1.0 := "Brevet"]]

  const PRO := Domain(PRO_TYPES, PRO_NB, PRO_TYPE, PRO_AMOUNT)

  // ---------------------------------------------------------------- loans

  const EMPRUNT_TYPES: seq<string> := ["PretImmo", "PretConso", "PretAuto", "PretPro"]

  /** Holds an unused "montantPretAutre" entry besides the four sub-types. */
  const EMPRUNT_AMOUNT: map<string, Range> := map[
    "montantPretImmo" := Range(50000, 500000),
    "montantPretConso" := Range(5000, 20000),
    "montantPretAuto" := Range(5000, 20000),
    "montantPretPro" := Range(10000, 300000),
    "montantPretAutre" := Range(10000, 20000)]

  const EMPRUNT_NB: map<string, map<real, int>> := map[
    "nbPretImmo" := map[0.18 := 0, 0.86 := 1, 0.96 := 2, 1.0 := 3],
    "nbPretConso" := map[0.8 := 0, 1.0 := 1],
    "nbPretAuto" := map[0.8 := 0, 1.0 := 1],
    "nbPretPro" := map[0.88 := 0, 1.0 := 1],
    "nbPretAutre" := map[0.9 := 0, 1.0 := 1]]

  const EMPRUNT_TYPE: map<string, map<real, string>> := map[
    "typePretImmo" := map[0.81 := "Immo TxFixe", 0.92 := "Immo TxFixe Différé", 0.95 := "Immo TxFixe InFine",
                          0.99 := "Immo TxVar", 1.0 := "Immo PVH"],
    "typePretConso" := map[0.95 := "Conso", 1.0 := "Avance"],
    "typePretAuto" := map[1.0 := "Auto"],
    "typePretPro" := map[0.5 := "Pro TxFixe", 0.7 := "Pro TxFixe Différé", 0.8 := "Pro TxFixe InFine",
                         0.90 := "Pro TxVar", 0.95 := "Lease", 1.0 := "CCA"]]

  const EMPRUNT := Domain(EMPRUNT_TYPES, EMPRUNT_NB, EMPRUNT_TYPE, EMPRUNT_AMOUNT)

  /** Loan durations in years: random bounds per family, and the fixed terms of the manual mode. */
  const PRET_IMMO_YEARS := Range(2, 25)
  const PRET_PRO_YEARS := Range(1, 10)
  const PRET_OTHER_YEARS := Range(1, 5)
  const PVH_YEARS := 90
  const PRET_IMMO_TERM := 20
  const PRET_PRO_TERM := 7
  const PRET_OTHER_TERM := 5

  // ---------------------------------------------------------------- key coverage

  /** Every financial sub-type has a count table. */
  lemma FinCountKeys()
    ensures forall t :: t in FIN_TYPES ==> "nb" + t in FIN_NB
  {
    forall t | t in FIN_TYPES ensures "nb" + t in FIN_NB {
      var i :| 0 <= i < |FIN_TYPES| && FIN_TYPES[i] == t;
      if i == 0 { assert "nb" + t == "nbLivretA";
      } else if i == 1 { assert "nb" + t == "nbLDDS";
      } else if i == 2 { assert "nb" + t == "nbCash";
      } else if i == 3 { assert "nb" + t == "nbCTO";
      } else if i == 4 { assert "nb" + t == "nbPEA";
      } else if i == 5 { assert "nb" + t == "nbAssurance";
      } else if i == 6 { assert "nb" + t == "nbRetraite";
      } else if i == 7 { assert "nb" + t == "nbEpargneSalariale";
      } else if i == 8 { assert "nb" + t == "nbCrypto";
      } else if i == 9 { assert "nb" + t == "nbVoiture";
      } else { assert "nb" + t == "nbAutres"; }
    }
  }

  /** Every financial sub-type has a label table. */
  lemma FinLabelKeys()
    ensures forall t :: t in FIN_TYPES ==> "type" + t in FIN_TYPE
  {
    forall t | t in FIN_TYPES ensures "type" + t in FIN_TYPE {
      var i :| 0 <= i < |FIN_TYPES| && FIN_TYPES[i] == t;
      if i == 0 { assert "type" + t == "typeLivretA";
      } else if i == 1 { assert "type" + t == "typeLDDS";
      } else if i == 2 { assert "type" + t == "typeCash";
      } else if i == 3 { assert "type" + t == "typeCTO";
      } else if i == 4 { assert "type" + t == "typePEA";
      } else if i == 5 { assert "type" + t == "typeAssurance";
      } else if i == 6 { assert "type" + t == "typeRetraite";
      } else if i == 7 { assert "type" + t == "typeEpargneSalariale";
      } else if i == 8 { assert "type" + t == "typeCrypto";
      } else if i == 9 { assert "type" + t == "typeVoiture";
      } else { assert "type" + t == "typeAutres"; }
    }
  }

  /** Every financial sub-type has a amount range. */
  lemma FinAmountKeys()
    ensures forall t :: t in FIN_TYPES ==> "montant" + t in FIN_AMOUNT
  {
    forall t | t in FIN_TYPES ensures "montant" + t in FIN_AMOUNT {
      var i :| 0 <= i < |FIN_TYPES| && FIN_TYPES[i] == t;
      if i == 0 { assert "montant" + t == "montantLivretA";
      } else if i == 1 { assert "montant" + t == "montantLDDS";
      } else if i == 2 { assert "montant" + t == "montantCash";
      } else if i == 3 { assert "montant" + t == "montantCTO";
      } else if i == 4 { assert "montant" + t == "montantPEA";
      } else if i == 5 { assert "montant" + t == "montantAssurance";
      } else if i == 6 { assert "montant" + t == "montantRetraite";
      } else if i == 7 { assert "montant" + t == "montantEpargneSalariale";
      } else if i == 8 { assert "montant" + t == "montantCrypto";
      } else if i == 9 { assert "montant" + t == "montantVoiture";
      } else { assert "montant" + t == "montantAutres"; }
    }
  }

  /** The financial tables cover all eleven sub-types. */
  lemma FinKeys()
    ensures CountKeys(FIN) && LabelKeys(FIN) && AmountKeys(FIN)
  {
    FinCountKeys();
    FinLabelKeys();
    FinAmountKeys();
  }

  /** Every real-estate sub-type has a count table. */
  lemma ImmoCountKeys()
    ensures forall t :: t in IMMO_TYPES ==> "nb" + t in IMMO_NB
  {
    forall t | t in IMMO_TYPES ensures "nb" + t in IMMO_NB {
      var i :| 0 <= i < |IMMO_TYPES| && IMMO_TYPES[i] == t;
      if i == 0 { assert "nb" + t == "nbRP";
      } else if i == 1 { assert "nb" + t == "nbRS";
      } else if i == 2 { assert "nb" + t == "nbRL";
      } else if i == 3 { assert "nb" + t == "nbSCPI";
      } else if i == 4 { assert "nb" + t == "nbForet";
      } else { assert "nb" + t == "nbTerrain"; }
    }
  }

  /** Every real-estate sub-type has a label table. */
  lemma ImmoLabelKeys()
    ensures forall t :: t in IMMO_TYPES ==> "type" + t in IMMO_TYPE
  {
    forall t | t in IMMO_TYPES ensures "type" + t in IMMO_TYPE {
      var i :| 0 <= i < |IMMO_TYPES| && IMMO_TYPES[i] == t;
      if i == 0 { assert "type" + t == "typeRP";
      } else if i == 1 { assert "type" + t == "typeRS";
      } else if i == 2 { assert "type" + t == "typeRL";
      } else if i == 3 { assert "type" + t == "typeSCPI";
      } else if i == 4 { assert "type" + t == "typeForet";
      } else { assert "type" + t == "typeTerrain"; }
    }
  }

  /** Every real-estate sub-type has a amount range. */
  lemma ImmoAmountKeys()
    ensures forall t :: t in IMMO_TYPES ==> "montant" + t in IMMO_AMOUNT
  {
    forall t | t in IMMO_TYPES ensures "montant" + t in IMMO_AMOUNT {
      var i :| 0 <= i < |IMMO_TYPES| && IMMO_TYPES[i] == t;
      if i == 0 { assert "montant" + t == "montantRP";
      } else if i == 1 { assert "montant" + t == "montantRS";
      } else if i == 2 { assert "montant" + t == "montantRL";
      } else if i == 3 { assert "montant" + t == "montantSCPI";
      } else if i == 4 { assert "montant" + t == "montantForet";
      } else { assert "montant" + t == "montantTerrain"; }
    }
  }

  /** The real-estate tables cover all six sub-types. */
  lemma ImmoKeys()
    ensures CountKeys(IMMO) && LabelKeys(IMMO) && AmountKeys(IMMO)
  {
    ImmoCountKeys();
    ImmoLabelKeys();
    ImmoAmountKeys();
  }

  /** Every professional sub-type has a count table. */
  lemma ProCountKeys()
    ensures forall t :: t in PRO_TYPES ==> "nb" + t in PRO_NB
  {
    forall t | t in PRO_TYPES ensures "nb" + t in PRO_NB {
      var i :| 0 <= i < |PRO_TYPES| && PRO_TYPES[i] == t;
      if i == 0 { assert "nb" + t == "nbSte";
      } else if i == 1 { assert "nb" + t == "nbSci";
      } else { assert "nb" + t == "nbAutres"; }
    }
  }

  /** Every professional sub-type has a amount range. */
  lemma ProAmountKeys()
    ensures forall t :: t in PRO_TYPES ==> "montant" + t in PRO_AMOUNT
  {
    forall t | t in PRO_TYPES ensures "montant" + t in PRO_AMOUNT {
      var i :| 0 <= i < |PRO_TYPES| && PRO_TYPES[i] == t;
      if i == 0 { assert "montant" + t == "montantSte";
      } else if i == 1 { assert "montant" + t == "montantSci";
      } else { assert "montant" + t == "montantAutres"; }
    }
  }

  /**
   * The professional count and amount tables cover the three sub-types, but
   * the label table of "Autres" is missing: it is filed under "typeAutre".
   */
  lemma ProKeys()
    ensures CountKeys(PRO) && AmountKeys(PRO)
    ensures "type" + "Ste" in PRO.typeTables && "type" + "Sci" in PRO.typeTables
    ensures "type" + "Autres" !in PRO.typeTables
  {
    ProCountKeys();
    ProAmountKeys();
    assert "type" + "Ste" == "typeSte" && "type" + "Sci" == "typeSci";
    assert "type" + "Autres" == "typeAutres";
  }

  /** Every loan sub-type has a count table. */
  lemma EmpruntCountKeys()
    ensures forall t :: t in EMPRUNT_TYPES ==> "nb" + t in EMPRUNT_NB
  {
    forall t | t in EMPRUNT_TYPES ensures "nb" + t in EMPRUNT_NB {
      var i :| 0 <= i < |EMPRUNT_TYPES| && EMPRUNT_TYPES[i] == t;
      if i == 0 { assert "nb" + t == "nbPretImmo";
      } else if i == 1 { assert "nb" + t == "nbPretConso";
      } else if i == 2 { assert "nb" + t == "nbPretAuto";
      } else { assert "nb" + t == "nbPretPro"; }
    }
  }

  /** Every loan sub-type has a label table. */
  lemma EmpruntLabelKeys()
    ensures forall t :: t in EMPRUNT_TYPES ==> "type" + t in EMPRUNT_TYPE
  {
    forall t | t in EMPRUNT_TYPES ensures "type" + t in EMPRUNT_TYPE {
      var i :| 0 <= i < |EMPRUNT_TYPES| && EMPRUNT_TYPES[i] == t;
      if i == 0 { assert "type" + t == "typePretImmo";
      } else if i == 1 { assert "type" + t == "typePretConso";
      } else if i == 2 { assert "type" + t == "typePretAuto";
      } else { assert "type" + t == "typePretPro"; }
    }
  }

  /** Every loan sub-type has a amount range. */
  lemma EmpruntAmountKeys()
    ensures forall t :: t in EMPRUNT_TYPES ==> "montant" + t in EMPRUNT_AMOUNT
  {
    forall t | t in EMPRUNT_TYPES ensures "montant" + t in EMPRUNT_AMOUNT {
      var i :| 0 <= i < |EMPRUNT_TYPES| && EMPRUNT_TYPES[i] == t;
      if i == 0 { assert "montant" + t == "montantPretImmo";
      } else if i == 1 { assert "montant" + t == "montantPretConso";
      } else if i == 2 { assert "montant" + t == "montantPretAuto";
      } else { assert "montant" + t == "montantPretPro"; }
    }
  }

  /** The loan tables cover all four sub-types. */
  lemma EmpruntKeys()
    ensures CountKeys(EMPRUNT) && LabelKeys(EMPRUNT) && AmountKeys(EMPRUNT)
  {
    EmpruntCountKeys();
    EmpruntLabelKeys();
    EmpruntAmountKeys();
  }

  // ---------------------------------------------------------------- table shapes

  lemma FinFilled()
    ensures Filled(FIN)
  {
    forall k | k in FIN_NB ensures 1.0 in FIN_NB[k] {}
    forall k | k in FIN_TYPE ensures 1.0 in FIN_TYPE[k] {}
  }

  lemma ImmoFilled()
    ensures Filled(IMMO)
  {
    forall k | k in IMMO_NB ensures 1.0 in IMMO_NB[k] {}
    forall k | k in IMMO_TYPE ensures 1.0 in IMMO_TYPE[k] {}
  }

  lemma ProFilled()
    ensures Filled(PRO)
  {
    forall k | k in PRO_NB ensures 1.0 in PRO_NB[k] {}
    forall k | k in PRO_TYPE ensures 1.0 in PRO_TYPE[k] {}
  }

  lemma EmpruntFilled()
    ensures Filled(EMPRUNT)
  {
    forall k | k in EMPRUNT_NB ensures 1.0 in EMPRUNT_NB[k] {}
    forall k | k in EMPRUNT_TYPE ensures 1.0 in EMPRUNT_TYPE[k] {}
  }

  lemma FinOrdered()
    ensures Ordered(FIN)
  {
    forall k | k in FIN_AMOUNT ensures FIN_AMOUNT[k].lo <= FIN_AMOUNT[k].hi {}
  }

  lemma ImmoOrdered()
    ensures Ordered(IMMO)
  {
    forall k | k in IMMO_AMOUNT ensures IMMO_AMOUNT[k].lo <= IMMO_AMOUNT[k].hi {}
  }

  lemma ProOrdered()
    ensures Ordered(PRO)
  {
    forall k | k in PRO_AMOUNT ensures PRO_AMOUNT[k].lo <= PRO_AMOUNT[k].hi {}
  }

  lemma EmpruntOrdered()
    ensures Ordered(EMPRUNT)
  {
    forall k | k in EMPRUNT_AMOUNT ensures EMPRUNT_AMOUNT[k].lo <= EMPRUNT_AMOUNT[k].hi {}
  }
}
