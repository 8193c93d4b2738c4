/**
 * The category lookups used when a profile is written into a document:
 * classifFin, classifImmo, classifEmprunt and classifPro. Each maps a
 * product code to its category and sends any other code, or a missing one,
 * to the "other" category of its family.
 */
module Classification {
  import opened Common
  import opened RangeSampler
  import opened Tables

  const FIN_CLASSES: map<string, string> := map[
    "LivretA" := "1-Epargne de précaution",
    "LivretBleu" := "1-Epargne de précaution",
    "LDDS" := "1-Epargne de précaution",
    "LivretJeune" := "1-Epargne de précaution",
    "LEP" := "1-Epargne de précaution",
    "LEE" := "1-Epargne de précaution",
    "PEL" := "1-Epargne de précaution",
    "CEL" := "1-Epargne de précaution",
    "CAT" := "1-Epargne de précaution",
    "Compte" := "1-Epargne de précaution",
    "PEA" := "2-Epargne MT/ LT",
    "PEAPME" := "2-Epargne MT/ LT",
    "PEA-ass" := "2-Epargne MT/ LT",
    "AV" := "2-Epargne MT/ LT",
    "Capi" := "2-Epargne MT/ LT",
    "CTO" := "2-Epargne MT/ LT",
    "CTOFonds" := "2-Epargne MT/ LT",
    "CTODette" := "2-Epargne MT/ LT",
    "CTODefisc" := "2-Epargne MT/ LT",
    "Crypto" := "2-Epargne MT/ LT",
    "PEE" := "2-Epargne MT/ LT",
    "PEI" := "2-Epargne MT/ LT",
    "PER" := "3-Epargne Retraite",
    "PERP" := "3-Epargne Retraite",
    "PREFON" := "3-Epargne Retraite",
    "MADELIN" := "3-Epargne Retraite",
    "PERO" := "3-Epargne Retraite",
    "ART83" := "3-Epargne Retraite",
    "PERECO" := "3-Epargne Retraite",
    "PERCO" := "3-Epargne Retraite"]
  const FIN_OTHER := "4-Autre"

  const IMMO_CLASSES: map<string, string> := map[
    "RP" := "1-Résidence principale",
    "RS" := "2-Résidence secondaire",
    "RL-Nue" := "3-Résidence locative nue",
    "RL-Meuble" := "4-Résidence locative meublée",
    "Achat-NuePropriete" := "5-Achat nue-propriété/ viager",
    "Achat-Viager" := "5-Achat nue-propriété/ viager",
    "Achat-JouissanceDiffere" := "5-Achat nue-propriété/ viager",
    "SCPI-SCI" := "6-SCPI/SCI",
    "Terrain" := "7-Terrain",
    "Foret" := "8-Forêt",
    "GFI/GFF" := "8-Forêt"]
  const IMMO_OTHER := "9-Autre"

  const EMPRUNT_CLASSES: map<string, string> := map[
    "Immo" := "1-Emprunt immobilier",
    "Immo TxFixe" := "1-Emprunt immobilier",
    "Immo TxFixe InFine" := "1-Emprunt immobilier",
    "Immo TxVar" := "1-Emprunt immobilier",
    "Immo PVH" := "1-Emprunt immobilier",
    "Auto" := "2-Emprunt auto",
    "Conso" := "3-Emprunt conso",
    "Pro TxFixe" := "4-Emprunt pro",
    "Pro TxFixe InFine" := "4-Emprunt pro",
    "Pro TxVar" := "4-Emprunt pro",
    "CCA" := "4-Emprunt pro"]
  const EMPRUNT_OTHER := "5-Autre"

  const PRO_CLASSES: map<string, string> := map[
    "Société" := "1-Société",
    "SCI" := "2-SCI",
    "Fond Commerce" := "3-Fond de commerce"]
  const PRO_OTHER := "4-Autre"

  /** A code's category: its entry in the table, or the fallback for a missing or unlisted code. */
  function Classify(st: Option<string>, mapping: map<string, string>, other: string): (c: string)
    ensures c == other || c in mapping.Values
    ensures st.Some? && st.value in mapping ==> c == mapping[st.value]
    ensures st.None? || st.value !in mapping ==> c == other
  {
    if st.Some? && st.value in mapping then mapping[st.value] else other
  }

  /** classifFin: one of the four savings categories. */
  function ClassifFin(st: Option<string>): (c: string)
    ensures c in {"1-Epargne de précaution", "2-Epargne MT/ LT", "3-Epargne Retraite", "4-Autre"}
    ensures st.Some? && st.value in FIN_CLASSES ==> c == FIN_CLASSES[st.value]
    ensures st.None? || st.value !in FIN_CLASSES ==> c == FIN_OTHER
  {
    FinClassesRange();
    Classify(st, FIN_CLASSES, FIN_OTHER)
  }

  /** classifImmo: one of the nine property categories. */
  function ClassifImmo(st: Option<string>): (c: string)
    ensures c in {"1-Résidence principale", "2-Résidence secondaire", "3-Résidence locative nue",
                  "4-Résidence locative meublée", "5-Achat nue-propriété/ viager", "6-SCPI/SCI",
                  "7-Terrain", "8-Forêt", "9-Autre"}
    ensures st.Some? && st.value in IMMO_CLASSES ==> c == IMMO_CLASSES[st.value]
    ensures st.None? || st.value !in IMMO_CLASSES ==> c == IMMO_OTHER
  {
    ImmoClassesRange();
    Classify(st, IMMO_CLASSES, IMMO_OTHER)
  }

  /** classifEmprunt: one of the five loan categories. */
  function ClassifEmprunt(st: Option<string>): (c: string)
    ensures c in {"1-Emprunt immobilier", "2-Emprunt auto", "3-Emprunt conso", "4-Emprunt pro", "5-Autre"}
    ensures st.Some? && st.value in EMPRUNT_CLASSES ==> c == EMPRUNT_CLASSES[st.value]
    ensures st.None? || st.value !in EMPRUNT_CLASSES ==> c == EMPRUNT_OTHER
  {
    EmpruntClassesRange();
    Classify(st, EMPRUNT_CLASSES, EMPRUNT_OTHER)
  }

  /** classifPro: one of the four business-asset categories. */
  function ClassifPro(st: Option<string>): (c: string)
    ensures c in {"1-Société", "2-SCI", "3-Fond de commerce", "4-Autre"}
    ensures st.Some? && st.value in PRO_CLASSES ==> c == PRO_CLASSES[st.value]
    ensures st.None? || st.value !in PRO_CLASSES ==> c == PRO_OTHER
  {
    Classify(st, PRO_CLASSES, PRO_OTHER)
  }

  lemma FinClassesRange()
    ensures forall c :: c in FIN_CLASSES.Values ==>
              c in {"1-Epargne de précaution", "2-Epargne MT/ LT", "3-Epargne Retraite"}
  {
    forall c | c in FIN_CLASSES.Values
      ensures c in {"1-Epargne de précaution", "2-Epargne MT/ LT", "3-Epargne Retraite"}
    {
      var k :| k in FIN_CLASSES && FIN_CLASSES[k] == c;
    }
  }

  lemma ImmoClassesRange()
    ensures forall c :: c in IMMO_CLASSES.Values ==>
              c in {"1-Résidence principale", "2-Résidence secondaire", "3-Résidence locative nue",
                    "4-Résidence locative meublée", "5-Achat nue-propriété/ viager", "6-SCPI/SCI",
                    "7-Terrain", "8-Forêt"}
  {
    forall c | c in IMMO_CLASSES.Values
      ensures c in {"1-Résidence principale", "2-Résidence secondaire", "3-Résidence locative nue",
                    "4-Résidence locative meublée", "5-Achat nue-propriété/ viager", "6-SCPI/SCI",
                    "7-Terrain", "8-Forêt"}
    {
      var k :| k in IMMO_CLASSES && IMMO_CLASSES[k] == c;
    }
  }

  lemma EmpruntClassesRange()
    ensures forall c :: c in EMPRUNT_CLASSES.Values ==>
              c in {"1-Emprunt immobilier", "2-Emprunt auto", "3-Emprunt conso", "4-Emprunt pro"}
  {
    forall c | c in EMPRUNT_CLASSES.Values
      ensures c in {"1-Emprunt immobilier", "2-Emprunt auto", "3-Emprunt conso", "4-Emprunt pro"}
    {
      var k :| k in EMPRUNT_CLASSES && EMPRUNT_CLASSES[k] == c;
    }
  }

  /** The documented lookups: "RP" is a main residence and an unknown code is "other". */
  lemma ClassifExamples()
    ensures ClassifImmo(Some("RP")) == "1-Résidence principale"
    ensures ClassifImmo(Some("UnknownCode")) == "9-Autre"
    ensures ClassifImmo(None) == "9-Autre"
    ensures ClassifFin(Some("LivretA")) == "1-Epargne de précaution"
  {
    assert "UnknownCode" !in IMMO_CLASSES;
  }

  /** "LvretBleu", the misspelt Livret Bleu label the random generator draws, is unclassified. */
  lemma LvretBleuFallsThrough()
    ensures IsOutcome("LvretBleu", FIN_TYPE["typeLivretA"]) && ClassifFin(Some("LvretBleu")) == FIN_OTHER
  {
    assert FIN_TYPE["typeLivretA"][1.0] == "LvretBleu";
    assert "LvretBleu" !in FIN_CLASSES;
  }

  /** "SCI-Famille" and "Fonds Commerce" (listed as "Fond Commerce") are drawn but unclassified. */
  lemma ProLabelsFallThrough()
    ensures IsOutcome("SCI-Famille", PRO_TYPE["typeSci"]) && ClassifPro(Some("SCI-Famille")) == PRO_OTHER
    ensures IsOutcome("Fonds Commerce", PRO_TYPE["typeAutre"]) && ClassifPro(Some("Fonds Commerce")) == PRO_OTHER
  {
    assert PRO_TYPE["typeSci"][0.7] == "SCI-Famille";
    assert PRO_TYPE["typeAutre"][0.50] == "Fonds Commerce";
  }

  /** "Terrain constructible" is drawn for land, but only "Terrain" is classified. */
  lemma TerrainFallsThrough()
    ensures IsOutcome("Terrain constructible", IMMO_TYPE["typeTerrain"]) &&
            ClassifImmo(Some("Terrain constructible")) == IMMO_OTHER
  {
    assert IMMO_TYPE["typeTerrain"][0.5] == "Terrain constructible";
    assert "Terrain constructible" !in IMMO_CLASSES;
  }

  /** The deferred fixed-rate property loan is drawn but unclassified. */
  lemma DeferredLoanFallsThrough()
    ensures IsOutcome("Immo TxFixe Différé", EMPRUNT_TYPE["typePretImmo"]) &&
            ClassifEmprunt(Some("Immo TxFixe Différé")) == EMPRUNT_OTHER
  {
    assert EMPRUNT_TYPE["typePretImmo"][0.92] == "Immo TxFixe Différé";
    assert "Immo TxFixe Différé" !in EMPRUNT_CLASSES;
  }
}
