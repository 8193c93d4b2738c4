# Client-profile simulator and JSON imputation, in Dafny

This project models the engine in `helpers/simul_contraint_main_sous_cat_v2.py`. The engine builds a simulated wealth-management client and writes it into an empty client document. A client profile has six parts:

- the personal situation (`perso`);
- the yearly cash flows (`cashflow`);
- financial assets (`fin`);
- real-estate assets (`immo`);
- business assets (`pro`);
- loans (`emprunt`).

The model covers each stage of the engine:

- **Range sampler.** `valeur_en_fonction_de_plage` turns a uniform draw into a label through a table of cumulative breakpoints.
- **Per-category expansion.** `list_item`, `list_type_manual`, `list_nb_manual`, `list_nb_auto` and `list_type_auto` turn counts per category into lists of sub-type labels. The counts come either from a manual count dictionary or from random draws.
- **Generators.**
  - `situation_perso_random` caps the number of children by the age of the mother and sets the marital regime only for married people.
  - `cashflow_random` computes the fiscal parts. It zeroes activity income from age 64 on and pensions below 64, and splits income with the partner.
  - `perso_from_dict` and `cashflow_from_dict` fill in defaults.
  - The `*_from_amounts` generators turn amount dictionaries into records.
  - The `*_random` generators turn count plans into records, with ownership shares (1, 0) for a single person and (0.5, 0.5) for a couple. Loans are linked to properties, and their amounts are capped by the property's value.
- **Assemblers.** `simul_obj_client` and `simul_obj_client_from_dicts` run the generators in the order perso, cashflow, fin, immo, pro, emprunt. The loans see the finished list of properties. Labels are stored at the fixed widths of the numpy record types.
- **Classifiers.** `classifFin`, `classifImmo`, `classifEmprunt` and `classifPro` are total lookups with a fallback category.
- **Imputation.** `impute_json` overwrites the template document in place. It proceeds as follows:
  - It merges the personal fields into the first client detail.
  - It updates the first cash-flow detail.
  - It rebuilds each asset and loan detail list as one copy of the template's first element per profile row, with the row's fields written over it.

**Randomness and the clock are inputs.** Every `random.random()` draw is a `Unit` value in [0, 1). `randint(lo, hi)` is `RandInt(u, lo, hi)`. `random.sample` is a function parameter `sample(n, k)`. Its one promise is the `IsSampler` hypothesis: k distinct indices below n when k ≤ n. Lemmas that need it take it as a precondition. "Today" is a `Date` parameter. A maturity is kept as the pair (start date, years to add).

**Dictionaries.** A dictionary the source iterates in insertion order is a sequence of pairs. A dictionary it only looks up is a `map`. Python exceptions are values of the `Error` datatype inside a `Result`. These are `KeyError`, `NameError`, `IndexError` and `ValueError`, plus `IntKeyError` for a missing integer key (the fifth child's age gap in `cashflow_plages['age_enfants']`) and `OutOfInterval` for the string the sampler returns for a draw outside [0, 1].

**Modules.** The model follows the source's structure:

| module | file | models |
|---|---|---|
| `RangeSampler` | sampler.dfy | the breakpoint sampler and the correlated amount |
| `Common` | common.dfy | results, the integer draw, ownership shares, fixed-width truncation |
| `Tables` | tables.dfy | the calibration tables |
| `Expansion` | expansion.dfy | the `list_*` helpers |
| `Records` | records.dfy | the six record types and the validity of a profile |
| `Holdings` | holdings.dfy | the per-category loop shared by the `*_random` generators |
| `FromAmounts` | amounts.dfy | the `*_from_amounts` generators and `immo_type_manual` |
| `Personal` | personal.dfy | the person and cash-flow generators |
| `Generators` | generators.dfy | `fin_random`, `immo_random`, `pro_random` and `emprunt_random` |
| `Assembler` | assembler.dfy | the two assemblers |
| `Classification` | classif.dfy | the four classifiers |
| `Imputation` | imputation.dfy | `impute_json` and its `Template` class |

**Form of the model.** Code that appends in a loop is a `method` with a `while` loop whose `ensures` ties it to a specification function, for example `ListItem`, `CollectEntries`, the `*FromAmounts` methods, `DrawHoldings`, `BuildLoans` and `Template.Impute`. The template that `impute_json` overwrites is the class `Imputation.Template`, with one field per detail list.

## Model

| member | source | states |
|---|---|---|
| RangeSampler.Breakpoint | helpers/simul_contraint_main_sous_cat_v2.py:15-19 | the chosen breakpoint is a key of the table: the least key above the draw, or the greatest key when no key is above it |
| RangeSampler.Sample | helpers/simul_contraint_main_sous_cat_v2.py:11-19 | a draw outside [0, 1] gives the out-of-interval result; an empty table gives IndexError; otherwise the label at the smallest breakpoint strictly above the draw, or at the largest breakpoint when none is above |
| RangeSampler.SampleIsOutcome | helpers/simul_contraint_main_sous_cat_v2.py:11-19 | a draw in [0, 1) on a non-empty table always yields one of the table's labels |
| RangeSampler.ScanFindsFirstAbove | helpers/simul_contraint_main_sous_cat_v2.py:15-19 | the scan over sorted breakpoints returns the label of the first breakpoint above the draw, and finds none exactly when every breakpoint is at most the draw |
| RangeSampler.SampleIsScan | helpers/simul_contraint_main_sous_cat_v2.py:15-19 | the map specification and the sorted scan with its last-label fallback agree on every draw |
| RangeSampler.SampleMonotone | helpers/simul_contraint_main_sous_cat_v2.py:15-19 | a larger draw never selects a smaller breakpoint |
| RangeSampler.Correlated | helpers/simul_contraint_main_sous_cat_v2.py:22-41 | the correlated amount lies between min_val2 and max_val2, and equals them when they coincide |
| Common.RandInt | helpers/simul_contraint_main_sous_cat_v2.py:106 | randint(lo, hi) lies in [lo, hi] |
| Common.OwnerShare | helpers/simul_contraint_main_sous_cat_v2.py:287 | the owner's share is positive and at most 1 |
| Common.PartnerShare | helpers/simul_contraint_main_sous_cat_v2.py:288 | the two shares sum to 1, and the partner's share is 0 exactly for a single person |
| Common.Truncate | helpers/simul_contraint_main_sous_cat_v2.py:79-85 | a fixed-width numpy string keeps a prefix of at most the width, and the whole string when it fits |
| Common.Collect | helpers/simul_contraint_main_sous_cat_v2.py:410-428 | building records in order succeeds iff every record succeeds; on success one record per element, and on failure the error of the first failing element |
| Expansion.Copies | helpers/simul_contraint_main_sous_cat_v2.py:46 | `[libelle] * count` has max(count, 0) copies of the label |
| Expansion.ListItem | helpers/simul_contraint_main_sous_cat_v2.py:43-47 | the loop yields the labels repeated in order; its length is the total of the counts, and each label occurs exactly as often as its count |
| Expansion.CopiesMultiplicity | helpers/simul_contraint_main_sous_cat_v2.py:46 | a label occurs count times in its own copies and never in another's |
| Expansion.RepeatedMultiplicity | helpers/simul_contraint_main_sous_cat_v2.py:43-47 | each label occurs in the expansion as often as the counts give it |
| Expansion.RepeatedLength | helpers/simul_contraint_main_sous_cat_v2.py:43-47 | the expansion's length is the sum of the non-negative counts |
| Expansion.RepeatedMembers | helpers/simul_contraint_main_sous_cat_v2.py:43-47 | a label occurs iff some entry gives it a positive count |
| Expansion.FirstMissing | helpers/simul_contraint_main_sous_cat_v2.py:50 | names the first category, in TYPES order, whose key is missing, and nothing iff every key is present |
| Expansion.FirstMissingIs | helpers/simul_contraint_main_sous_cat_v2.py:50 | the first missing key is exactly the one whose predecessors are all present |
| Expansion.ListTypeManual | helpers/simul_contraint_main_sous_cat_v2.py:49-51 | fails iff some category is absent from nb, with the KeyError of the first absent one; otherwise each category's list is list_item of its nb dictionary, each label repeated as often as nb counts it, in nb's order |
| Expansion.ListNbManual | helpers/simul_contraint_main_sous_cat_v2.py:53-55 | each category's count is the length of its list |
| Expansion.ListNbAuto | helpers/simul_contraint_main_sous_cat_v2.py:57-59 | succeeds iff every category has a non-empty count table; each count is the sampled outcome of that category's own table |
| Expansion.DrawLabels | helpers/simul_contraint_main_sous_cat_v2.py:70 | nb_type draws give nb_type labels (none for a non-positive count), each an outcome of the label table |
| Expansion.TypesAuto | helpers/simul_contraint_main_sous_cat_v2.py:61-71 | on success the dictionary has exactly one list per category; a failure is an IndexError of an empty table or the KeyError of a category with a positive count and no label table |
| Expansion.TypesAutoLengths | helpers/simul_contraint_main_sous_cat_v2.py:61-71 | on success every category has a list whose length is its count, or 0 for a non-positive count |
| Expansion.TypesAutoOutcomes | helpers/simul_contraint_main_sous_cat_v2.py:61-71 | on success every drawn label is an outcome of its category's label table |
| Expansion.TypesAutoMissingTable | helpers/simul_contraint_main_sous_cat_v2.py:64-70 | a category with a positive count and no label table makes the expansion fail; a zero or negative count never looks its table up |
| Expansion.TypesAutoSucceeds | helpers/simul_contraint_main_sous_cat_v2.py:61-71 | when every category with a positive count has a non-empty label table, the expansion succeeds |
| Expansion.ListTypeAuto | helpers/simul_contraint_main_sous_cat_v2.py:61-71 | the loop that fills the dictionary, giving [] for a count of zero or below, computes exactly the expansion specification |
| Expansion.DrawList | helpers/simul_contraint_main_sous_cat_v2.py:70 | the comprehension for one category with a positive count computes exactly its drawn labels |
| Expansion.FailurePersists | helpers/simul_contraint_main_sous_cat_v2.py:64-70 | once a category fails, the later categories leave the error unchanged |
| Tables.FinKeys | helpers/simul_contraint_main_sous_cat_v2.py:210-255 | every financial category has a count table, a label table and an amount range |
| Tables.ImmoKeys | helpers/simul_contraint_main_sous_cat_v2.py:310-340 | every real-estate category has a count table, a label table and an amount range |
| Tables.ProKeys | helpers/simul_contraint_main_sous_cat_v2.py:463-483 | every business category has a count table and an amount range; "typeSte" and "typeSci" exist but "typeAutres" does not |
| Tables.EmpruntKeys | helpers/simul_contraint_main_sous_cat_v2.py:539-563 | every loan category has a count table, a label table and an amount range |
| Tables.FinFilled | helpers/simul_contraint_main_sous_cat_v2.py:210-235 | every financial count and label table has a breakpoint at 1.0 |
| Tables.ImmoFilled | helpers/simul_contraint_main_sous_cat_v2.py:318-340 | every real-estate count and label table has a breakpoint at 1.0 |
| Tables.ProFilled | helpers/simul_contraint_main_sous_cat_v2.py:469-479 | every business count and label table has a breakpoint at 1.0 |
| Tables.EmpruntFilled | helpers/simul_contraint_main_sous_cat_v2.py:546-558 | every loan count and label table has a breakpoint at 1.0 |
| Tables.FinOrdered | helpers/simul_contraint_main_sous_cat_v2.py:237-249 | every financial amount range has min ≤ max |
| Tables.ImmoOrdered | helpers/simul_contraint_main_sous_cat_v2.py:310-317 | every real-estate amount range has min ≤ max |
| Tables.ProOrdered | helpers/simul_contraint_main_sous_cat_v2.py:463-467 | every business amount range has min ≤ max |
| Tables.EmpruntOrdered | helpers/simul_contraint_main_sous_cat_v2.py:539-545 | every loan amount range has min ≤ max |
| Holdings.PlanFor | helpers/simul_contraint_main_sous_cat_v2.py:256-262 | a plan (counts and label lists) covers every category of the domain |
| Holdings.MakePlan | helpers/simul_contraint_main_sous_cat_v2.py:256-262 | the manual/auto branch computes exactly the plan specification |
| Holdings.AutoPlanOk | helpers/simul_contraint_main_sous_cat_v2.py:259-262 | in auto mode the plan always succeeds for a domain whose tables are all present and filled |
| Holdings.SlotsWellFormed | helpers/simul_contraint_main_sous_cat_v2.py:271-280 | each slot of the double loop names a category, a rank below its count and the label at that rank |
| Holdings.SlotsComplete | helpers/simul_contraint_main_sous_cat_v2.py:271-280 | every (category, rank) pair of the plan has its slot |
| Holdings.SlotsRanksIncrease | helpers/simul_contraint_main_sous_cat_v2.py:271-275 | within one category the ranks increase along the slots |
| Holdings.DrawAmount | helpers/simul_contraint_main_sous_cat_v2.py:274-277 | a drawn amount lies in its range whenever the range is ordered |
| Holdings.Rows | helpers/simul_contraint_main_sous_cat_v2.py:271-281 | one holding per slot |
| Holdings.HoldingsOf | helpers/simul_contraint_main_sous_cat_v2.py:271-281 | succeeds iff every category has an amount range, else KeyError; every holding names a planned label of its category |
| Holdings.HoldingsFillSlots | helpers/simul_contraint_main_sous_cat_v2.py:271-281 | exactly one holding per slot, in slot order |
| Holdings.HoldingsComplete | helpers/simul_contraint_main_sous_cat_v2.py:271-281 | every planned label gets a holding |
| Holdings.HoldingsRanksIncrease | helpers/simul_contraint_main_sous_cat_v2.py:271-281 | holdings of one category appear in rank order |
| Holdings.ManualLabels | helpers/simul_contraint_main_sous_cat_v2.py:256-281 | in manual mode every holding's label has a positive count in nb for its category |
| Holdings.AutoLabels | helpers/simul_contraint_main_sous_cat_v2.py:259-281 | in auto mode every holding's label is an outcome of its category's label table |
| Holdings.HoldingsInRange | helpers/simul_contraint_main_sous_cat_v2.py:274-279 | every amount lies in its category's amount range |
| Holdings.OutcomeOfPlan | helpers/simul_contraint_main_sous_cat_v2.py:271-281 | a missing amount range gives the KeyError of the first missing one; otherwise the holdings are the rows of all slots |
| Holdings.DrawBlock | helpers/simul_contraint_main_sous_cat_v2.py:275-281 | the inner loop appends one row per label of the category |
| Holdings.DrawHoldings | helpers/simul_contraint_main_sous_cat_v2.py:271-281 | the double loop computes exactly the holdings specification |
| FromAmounts.CollectEntries | helpers/simul_contraint_main_sous_cat_v2.py:290-295 | the nested loops over the amount dictionary compute the entry list |
| FromAmounts.AppendValues | helpers/simul_contraint_main_sous_cat_v2.py:293-295 | the innermost loop appends exactly the kept amounts of one list, in order |
| FromAmounts.AppendFamily | helpers/simul_contraint_main_sous_cat_v2.py:291-295 | the middle loop appends exactly the kept amounts of one family, skipping non-list leaves |
| FromAmounts.ValueEntriesMembers | helpers/simul_contraint_main_sous_cat_v2.py:292-295 | an entry comes from a leaf iff one of its values is truthy and positive |
| FromAmounts.FamilyEntriesMembers | helpers/simul_contraint_main_sous_cat_v2.py:291-295 | an entry comes from a family iff a list-valued sub-type of it holds the value; non-list leaves give nothing |
| FromAmounts.EntriesMembers | helpers/simul_contraint_main_sous_cat_v2.py:290-295 | an entry is emitted iff some family, sub-type and list position hold it as a truthy positive value |
| FromAmounts.ValueEntries | helpers/simul_contraint_main_sous_cat_v2.py:293-295 | a list gives no more entries than it has values, each tagged with its family and sub-type and positive (how often each amount recurs: ValueEntriesCount) |
| FromAmounts.FamilyEntries | helpers/simul_contraint_main_sous_cat_v2.py:291-295 | every entry of a family is tagged with that family and positive |
| FromAmounts.Entries | helpers/simul_contraint_main_sous_cat_v2.py:290-295 | every emitted amount is positive |
| FromAmounts.ValueEntriesCount | helpers/simul_contraint_main_sous_cat_v2.py:293-295 | an entry occurs in a list's output exactly once per position holding a truthy positive value equal to its amount, when its family and sub-type are the list's, and never otherwise: repeated amounts are all kept |
| FromAmounts.LeafEntriesCount | helpers/simul_contraint_main_sous_cat_v2.py:292-295 | a non-list leaf contributes no entry; a list contributes one per matching position |
| FromAmounts.FamilyEntriesCount | helpers/simul_contraint_main_sous_cat_v2.py:291-295 | an entry occurs in a family's output exactly once per (sub-type, position) pair holding its amount under its sub-type, and never under another family |
| FromAmounts.EntriesCount | helpers/simul_contraint_main_sous_cat_v2.py:290-295 | an entry occurs in the whole output exactly once per (family, sub-type, position) triple listing its amount under its family and sub-type: nothing is merged or dropped |
| FromAmounts.LivretAFixture | helpers/jsonGen.py:25-29 | a LivretA of 18000 next to a zero and a non-list leaf gives exactly one record |
| FromAmounts.FinFromAmounts | helpers/simul_contraint_main_sous_cat_v2.py:285-296 | one record (sous_type, v, shares) per emitted entry, in order, with a positive value and valid shares |
| FromAmounts.ProFromAmounts | helpers/simul_contraint_main_sous_cat_v2.py:513-524 | one record (sous_type, v, shares) per emitted entry, in order, with a positive value and valid shares |
| FromAmounts.ImmoTypeManual | helpers/simul_contraint_main_sous_cat_v2.py:378-386 | any "RL-Nue …" code becomes "RL-Nue", any "RL-Meuble Meublé …" code becomes "RL-Meuble", anything else is unchanged |
| FromAmounts.ImmoTypeManualIdempotent | helpers/simul_contraint_main_sous_cat_v2.py:378-386 | mapping twice is mapping once |
| FromAmounts.DispositifLabelsAreRentals | helpers/simul_contraint_main_sous_cat_v2.py:362-386 | every code with a manual dispositif maps to a rental type |
| FromAmounts.ImmoOf | helpers/simul_contraint_main_sous_cat_v2.py:442-448 | under "RL" the type is immo_type_manual of the sub-type (so a rental kind when the code has a manual dispositif) and the dispositif the manual one or "aucun"; elsewhere the sub-type and "aucun"; the value and shares are kept |
| FromAmounts.ImmoFromAmounts | helpers/simul_contraint_main_sous_cat_v2.py:432-449 | one property per emitted entry, in order, as ImmoOf gives it; an "RL" entry has type immo_type_manual of its sub-type; every value positive and the shares valid |
| FromAmounts.LoanTerm | helpers/simul_contraint_main_sous_cat_v2.py:636-644 | 90 years for "Immo PVH" and 20 for other PretImmo loans, 7 for PretPro, 5 otherwise |
| FromAmounts.LoanOf | helpers/simul_contraint_main_sous_cat_v2.py:631-646 | a PretImmo loan with properties links property 0 and is capped by its value; any other loan links -1 and keeps its amount; the maturity is today plus the term |
| FromAmounts.EmpruntFromAmounts | helpers/simul_contraint_main_sous_cat_v2.py:620-647 | one loan per emitted entry, in order, as LoanOf gives it; the links point into the property list and the shares are valid |
| Personal.DrawnChildren | helpers/simul_contraint_main_sous_cat_v2.py:107 | the drawn number of children is between 0 and 4 |
| Personal.CapChildren | helpers/simul_contraint_main_sous_cat_v2.py:109-116 | the capped number never exceeds the drawn one; the mother is old enough for every kept child, and too young for the next one when any was dropped |
| Personal.Regime | helpers/simul_contraint_main_sous_cat_v2.py:118-122 | a married person's regime is drawn from the regime table; the regime is "non applicable" exactly for an unmarried person |
| Personal.DrawnCivilite | helpers/simul_contraint_main_sous_cat_v2.py:105 | the drawn civilité is "M" or "Mme" |
| Personal.DrawnUnion | helpers/simul_contraint_main_sous_cat_v2.py:118 | the drawn union type is one of the union table's outcomes |
| Personal.SituationPersoRandom | helpers/simul_contraint_main_sous_cat_v2.py:104-127 | civilité "M" or "Mme", age 25 to 70, children capped by age as above, union drawn from its table, regime as above |
| Personal.PersoFromDict | helpers/simul_contraint_main_sous_cat_v2.py:129-136 | a missing key takes its default ("M", 40, 0, "Célibataire", "séparation de biens"); a given value is kept, truncated to its U3/U30 width |
| Personal.CashflowFromDict | helpers/simul_contraint_main_sous_cat_v2.py:138-146 | a missing key takes its default (0, or 1 part); a given value is kept |
| Personal.ChildrenUnder25 | helpers/simul_contraint_main_sous_cat_v2.py:179-183 | the number of children under 25 is at most the number of children |
| Personal.IncomeShare | helpers/simul_contraint_main_sous_cat_v2.py:186 | the income coefficient is 1 for a single person and between 0.2 and 0.8 for a couple |
| Personal.PartnerIncomeCompletes | helpers/simul_contraint_main_sous_cat_v2.py:188-192 | the partner's income is what completes the owner's share to the drawn total, and 0 for a single person |
| Personal.IncomeSplit | helpers/simul_contraint_main_sous_cat_v2.py:186-192 | the owner's and partner's parts add up to the household amount, the owner holding the share c of it; the partner gets nothing when c is 1 |
| Personal.CashflowRandom | helpers/simul_contraint_main_sous_cat_v2.py:173-196 | more than 4 children gives KeyError(5); otherwise parts from the children under 25, no activity income from 64 on, no pension before 64, household total in the drawn range, the owner holding the IncomeShare of the household income and of the household pension, nothing for a single person's partner, expenses in range |
| Personal.FiscalParts | helpers/simul_contraint_main_sous_cat_v2.py:184 | the parts are one per adult plus between half a part and a whole part per child under 25 |
| Personal.CoupleAddsOnePart | helpers/simul_contraint_main_sous_cat_v2.py:184 | a couple has one part more than a single person with the same children |
| Personal.FiscalPartsGrow | helpers/simul_contraint_main_sous_cat_v2.py:184 | each of the first two children under 25 adds half a part, each further child a whole part |
| Personal.CoupleWithThreeYoungChildren | helpers/simul_contraint_main_sous_cat_v2.py:175-184 | a couple aged 50 with three children under 25 gets 4.0 parts |
| Personal.DrawnSituationHasFiscalParts | helpers/simul_contraint_main_sous_cat_v2.py:104-184 | a drawn situation never has more than 4 children, so its cash flow succeeds with 1 to 5 parts |
| Generators.FinRecords | helpers/simul_contraint_main_sous_cat_v2.py:271-281 | one record per holding, in order, with its label, its amount and valid shares |
| Generators.FinOutcome | helpers/simul_contraint_main_sous_cat_v2.py:253-283 | fails exactly when the plan fails, with the plan's error |
| Generators.FinRandom | helpers/simul_contraint_main_sous_cat_v2.py:253-283 | the generator computes exactly the financial outcome |
| Generators.FinFromHoldings | helpers/simul_contraint_main_sous_cat_v2.py:280-281 | each record comes from a holding with the same label and amount |
| Generators.FinAutoSucceeds | helpers/simul_contraint_main_sous_cat_v2.py:259-262 | auto mode always succeeds, and every label is an outcome of some category's label table |
| Generators.FinManual | helpers/simul_contraint_main_sous_cat_v2.py:256-258 | manual mode succeeds iff nb has every category, else the KeyError of a missing one; each label has a positive count in nb |
| Generators.FinInRange | helpers/simul_contraint_main_sous_cat_v2.py:274-279 | every amount lies in the amount range of some category |
| Generators.FinShares | helpers/simul_contraint_main_sous_cat_v2.py:265-266 | every record holds (1, 0) for a single person and (0.5, 0.5) for a couple |
| Generators.ImmoRecord | helpers/simul_contraint_main_sous_cat_v2.py:420-428 | fails, with the KeyError of the code, exactly when a rental code has no manual dispositif |
| Generators.ImmoRecordFields | helpers/simul_contraint_main_sous_cat_v2.py:420-428 | the type is the mapped code; a rental carries its manual dispositif, anything else "aucun"; the amount and shares are kept |
| Generators.ImmoRecords | helpers/simul_contraint_main_sous_cat_v2.py:410-428 | succeeds iff every holding does, one property per holding; otherwise the KeyError of the first failing holding |
| Generators.BuildProperties | helpers/simul_contraint_main_sous_cat_v2.py:410-430 | the append loop computes exactly the property records |
| Generators.ImmoOutcome | helpers/simul_contraint_main_sous_cat_v2.py:389-430 | auto mode always fails |
| Generators.ImmoRandom | helpers/simul_contraint_main_sous_cat_v2.py:389-430 | the generator computes exactly the real-estate outcome |
| Generators.ImmoAutoAlwaysFails | helpers/simul_contraint_main_sous_cat_v2.py:398-413 | auto mode reads the local list_type_ext before any assignment (UnboundLocalError, a NameError) |
| Generators.ImmoRecordsFields | helpers/simul_contraint_main_sous_cat_v2.py:410-428 | every property is the record of one of the holdings |
| Generators.ImmoListed | helpers/simul_contraint_main_sous_cat_v2.py:391-428 | properties built from listed holdings are listed in nb |
| Generators.ImmoOutcomeManual | helpers/simul_contraint_main_sous_cat_v2.py:391-428 | manual mode with a plan and holdings gives exactly the property records of those holdings |
| Generators.ImmoManualRecords | helpers/simul_contraint_main_sous_cat_v2.py:391-428 | every manual property comes from a code nb lists with a positive count |
| Generators.ImmoManualUnmappedRentalFails | helpers/simul_contraint_main_sous_cat_v2.py:421-423 | a listed rental code without a manual dispositif makes manual mode fail with a KeyError |
| Generators.BareMeubleIsUnmapped | helpers/simul_contraint_main_sous_cat_v2.py:362-386 | the bare code "RL-Meuble" maps to itself but has no manual dispositif |
| Generators.ImmoShares | helpers/simul_contraint_main_sous_cat_v2.py:404-405 | every property holds (1, 0) for a single person and (0.5, 0.5) for a couple |
| Generators.ProRecords | helpers/simul_contraint_main_sous_cat_v2.py:499-509 | one record per holding, in order, with its label, its amount and valid shares |
| Generators.ProOutcome | helpers/simul_contraint_main_sous_cat_v2.py:482-511 | fails exactly when the plan fails, with the plan's error |
| Generators.ProRandom | helpers/simul_contraint_main_sous_cat_v2.py:482-511 | the generator computes exactly the business outcome |
| Generators.ProFromHoldings | helpers/simul_contraint_main_sous_cat_v2.py:508-509 | each record comes from a holding with the same label and amount |
| Generators.ProCountsAuto | helpers/simul_contraint_main_sous_cat_v2.py:469-489 | auto counts always succeed; the "Autres" count is never negative, and is 0 exactly when its draw samples 0 |
| Generators.ProLabelsAuto | helpers/simul_contraint_main_sous_cat_v2.py:475-490 | the label expansion fails iff the "Autres" count is positive, with KeyError("typeAutres") |
| Generators.ProAutoFailsOnAutres | helpers/simul_contraint_main_sous_cat_v2.py:475-490 | auto mode fails with KeyError("typeAutres") exactly when the "Autres" count draw is non-zero |
| Generators.ProManual | helpers/simul_contraint_main_sous_cat_v2.py:484-486 | manual mode succeeds iff nb has every category, else the KeyError of a missing one; each label has a positive count in nb |
| Generators.ProInRange | helpers/simul_contraint_main_sous_cat_v2.py:502-507 | every amount lies in the amount range of some category |
| Generators.ProShares | helpers/simul_contraint_main_sous_cat_v2.py:493-494 | every record holds (1, 0) for a single person and (0.5, 0.5) for a couple |
| Generators.LoanYears | helpers/simul_contraint_main_sous_cat_v2.py:607-615 | PretImmo 2 to 25 years, PretPro 1 to 10, other loans 90 for "Immo PVH" and 1 to 5 otherwise |
| Generators.LoanRecord | helpers/simul_contraint_main_sous_cat_v2.py:590-616 | with properties, fails with IndexError when the rank has no selected property; otherwise the amount is the smaller of the draw and the selected property's value, linked for PretImmo only; without properties -1 and the full draw |
| Generators.LoanRecords | helpers/simul_contraint_main_sous_cat_v2.py:579-616 | succeeds iff every loan does, one loan per holding; otherwise the IndexError of the first failing loan |
| Generators.BuildLoans | helpers/simul_contraint_main_sous_cat_v2.py:590-616 | the append loop computes exactly the loan records |
| Generators.EmpruntLoans | helpers/simul_contraint_main_sous_cat_v2.py:584-616 | with properties and a PretImmo count outside [0, number of properties], random.sample raises ValueError; every error is ValueError or IndexError |
| Generators.EmpruntOutcome | helpers/simul_contraint_main_sous_cat_v2.py:561-618 | a plan error propagates; otherwise the loans of that plan |
| Generators.EmpruntRandom | helpers/simul_contraint_main_sous_cat_v2.py:561-618 | the generator computes exactly the loan outcome |
| Generators.EmpruntLoansAre | helpers/simul_contraint_main_sous_cat_v2.py:584-616 | past the sample check, the loans are the records of the holdings against the sampled selection |
| Generators.EmpruntLinks | helpers/simul_contraint_main_sous_cat_v2.py:592-601 | every link points into the property list; with properties every loan is capped by some property's value; without, every link is -1 |
| Generators.EmpruntWithoutProperty | helpers/simul_contraint_main_sous_cat_v2.py:586-606 | without properties the loans always succeed and every link is -1 |
| Generators.EmpruntRanksBounded | helpers/simul_contraint_main_sous_cat_v2.py:586-600 | with properties and a valid sample, the loans succeed iff no loan category has more loans than the PretImmo count |
| Generators.RecordLinks | helpers/simul_contraint_main_sous_cat_v2.py:590-601 | for any holdings and selection, every link points into the property list, shares match the household, every loan is capped by some property's value, and without properties no loan is linked |
| Generators.Selection | helpers/simul_contraint_main_sous_cat_v2.py:586-589 | with properties and a sampler that honours random.sample, k distinct indices into the property list |
| Generators.SelectionDistinct | helpers/simul_contraint_main_sous_cat_v2.py:586-589 | with a sampler that honours random.sample, the selected property indices are pairwise distinct |
| Generators.EmpruntLinksDistinct | helpers/simul_contraint_main_sous_cat_v2.py:587-594 | two linked loans never share a property |
| Generators.RecordLinksDistinct | helpers/simul_contraint_main_sous_cat_v2.py:590-600 | loans built against distinct selected properties from rank-ordered holdings never share a property |
| Generators.PvhOnlyPropertyLoans | helpers/simul_contraint_main_sous_cat_v2.py:553-558 | "Immo PVH" is drawn only for PretImmo loans, so the 90-year branch is unreachable in auto mode |
| Generators.EmpruntAutoTerms | helpers/simul_contraint_main_sous_cat_v2.py:607-615 | in auto mode every maturity starts today and lies 1 to 25 years ahead |
| Generators.RecordTerms | helpers/simul_contraint_main_sous_cat_v2.py:607-615 | when "Immo PVH" is only carried by property loans, every maturity starts today and lies 1 to 25 years ahead |
| Assembler.StoredPerso | helpers/simul_contraint_main_sous_cat_v2.py:79-85 | civilité and union strings cut to U3/U30, age and children kept |
| Assembler.StoredFin | helpers/simul_contraint_main_sous_cat_v2.py:202-207 | the label is cut to U50 and the numbers are kept |
| Assembler.StoredImmo | helpers/simul_contraint_main_sous_cat_v2.py:302-308 | type and dispositif cut to U50, numbers kept |
| Assembler.StoredPro | helpers/simul_contraint_main_sous_cat_v2.py:456-461 | the label is cut to U50 and the numbers are kept |
| Assembler.StoredLoan | helpers/simul_contraint_main_sous_cat_v2.py:530-537 | the label is cut to U50; maturity, amount, shares and link kept |
| Assembler.StoringKeepsValidity | helpers/simul_contraint_main_sous_cat_v2.py:655-670 | storing the lists in record arrays keeps every share and link valid |
| Assembler.IsCelib | helpers/simul_contraint_main_sous_cat_v2.py:652 | single exactly when the draw is below 0.30 |
| Assembler.SimulObjClient | helpers/simul_contraint_main_sous_cat_v2.py:650-680 | only manual mode can succeed; a profile has age 25 to 70 and 1 to 5 fiscal parts |
| Assembler.SimulObjClientAutoFails | helpers/simul_contraint_main_sous_cat_v2.py:660-663 | auto mode always stops at immo_random with NameError("list_type_ext") |
| Assembler.SimulObjClientValid | helpers/simul_contraint_main_sous_cat_v2.py:650-680 | every assembled profile has valid shares and loan links |
| Assembler.SimulObjClientFromDicts | helpers/simul_contraint_main_sous_cat_v2.py:682-715 | KeyError("perso") or KeyError("cashflow") when missing, else success; the personal and cash-flow parts come from the dicts, each list holds the stored records of the entries in order, loans see the stored properties, and the profile is valid |
| Classification.Classify | helpers/simul_contraint_main_sous_cat_v2.py:755-757 | a mapped code gets its category; None or an unmapped code gets the fallback |
| Classification.ClassifFin | helpers/simul_contraint_main_sous_cat_v2.py:722-757 | one of the four financial categories; mapped codes get theirs, others "4-Autre" |
| Classification.ClassifImmo | helpers/simul_contraint_main_sous_cat_v2.py:759-775 | one of the nine real-estate categories; mapped codes get theirs, others "9-Autre" |
| Classification.ClassifEmprunt | helpers/simul_contraint_main_sous_cat_v2.py:777-793 | one of the five loan categories; mapped codes get theirs, others "5-Autre" |
| Classification.ClassifPro | helpers/simul_contraint_main_sous_cat_v2.py:795-803 | one of the four business categories; mapped codes get theirs, others "4-Autre" |
| Classification.FinClassesRange | helpers/simul_contraint_main_sous_cat_v2.py:723-754 | no mapped financial code falls into "4-Autre" |
| Classification.ImmoClassesRange | helpers/simul_contraint_main_sous_cat_v2.py:760-772 | no mapped real-estate code falls into "9-Autre" |
| Classification.EmpruntClassesRange | helpers/simul_contraint_main_sous_cat_v2.py:778-790 | no mapped loan code falls into "5-Autre" |
| Classification.ClassifExamples | helpers/simul_contraint_main_sous_cat_v2.py:759-775 | "RP" is "1-Résidence principale"; "UnknownCode" and None are "9-Autre"; "LivretA" is "1-Epargne de précaution" |
| Classification.LvretBleuFallsThrough | helpers/simul_contraint_main_sous_cat_v2.py:224 | the drawn "LvretBleu" is classified "4-Autre" |
| Classification.ProLabelsFallThrough | helpers/simul_contraint_main_sous_cat_v2.py:475-478 | the drawn "SCI-Famille" and "Fonds Commerce" are classified "4-Autre" |
| Classification.TerrainFallsThrough | helpers/simul_contraint_main_sous_cat_v2.py:339 | the drawn "Terrain constructible" is classified "9-Autre" |
| Classification.DeferredLoanFallsThrough | helpers/simul_contraint_main_sous_cat_v2.py:554 | the drawn "Immo TxFixe Différé" is classified "5-Autre" |
| Imputation.DigitsRoundTrip | helpers/simul_contraint_main_sous_cat_v2.py:810 | reading back the decimal digits of a year gives the year |
| Imputation.IntText | helpers/simul_contraint_main_sous_cat_v2.py:810 | the text of an integer is non-empty and starts with "-" exactly when it is negative |
| Imputation.BirthDate | helpers/simul_contraint_main_sous_cat_v2.py:810 | the date ends in "-01-01" and starts with "-" exactly when the age exceeds 2025 |
| Imputation.BirthDateReadsBack | helpers/simul_contraint_main_sous_cat_v2.py:810 | the birth date ends in "-01-01" and its year part reads back as 2025 - Age |
| Imputation.ClientFields | helpers/simul_contraint_main_sous_cat_v2.py:808-812 | the four client keys written, without "regimeMatrimonial" |
| Imputation.CashflowFields | helpers/simul_contraint_main_sous_cat_v2.py:817 | the six cash-flow keys written |
| Imputation.FinFields | helpers/simul_contraint_main_sous_cat_v2.py:829-836 | the seven financial keys written |
| Imputation.ImmoFields | helpers/simul_contraint_main_sous_cat_v2.py:847-855 | the eight real-estate keys written |
| Imputation.ProFields | helpers/simul_contraint_main_sous_cat_v2.py:865-872 | the seven business keys written |
| Imputation.LoanFields | helpers/simul_contraint_main_sous_cat_v2.py:882-891 | the nine loan keys written |
| Imputation.Rebuilt | helpers/simul_contraint_main_sous_cat_v2.py:824-837 | rows with an empty template fail with IndexError; otherwise one element per row, and no rows give [] |
| Imputation.RebuiltElements | helpers/simul_contraint_main_sous_cat_v2.py:828-837 | each element holds its row's fields, keeps every other key of template element 0, and has no other key |
| Imputation.RebuiltElementIs | helpers/simul_contraint_main_sous_cat_v2.py:828-837 | each rebuilt element is template element 0 with its row's fields merged over it |
| Imputation.ImputeDoc | helpers/simul_contraint_main_sous_cat_v2.py:805-893 | finishes iff the client and cash-flow lists are non-empty and each non-empty profile part has a template element, else IndexError; the client and cash-flow lists keep their lengths |
| Imputation.Template.Impute | helpers/simul_contraint_main_sous_cat_v2.py:805-893 | the in-place overwrite leaves exactly the document and failure of the imputation specification |
| Imputation.ImputeDocLists | helpers/simul_contraint_main_sous_cat_v2.py:823-892 | a finished imputation leaves each detail list rebuilt from its own template |
| Imputation.FinRowsWritten | helpers/simul_contraint_main_sous_cat_v2.py:828-837 | every rebuilt financial element carries its row, category, quotePart = value and today's date over template element 0 |
| Imputation.FinMerged | helpers/simul_contraint_main_sous_cat_v2.py:829-836 | merging a financial row writes its label, category, value, quotePart = value, shares and today's date, and keeps the other template keys |
| Imputation.ImmoRowsWritten | helpers/simul_contraint_main_sous_cat_v2.py:846-856 | every rebuilt real-estate element carries its row, category, dispositif, quotePart = value and today's date over template element 0 |
| Imputation.ImmoMerged | helpers/simul_contraint_main_sous_cat_v2.py:847-855 | merging a real-estate row writes its type, category, dispositif, value, quotePart = value, shares and today's date, and keeps the other template keys |
| Imputation.ProRowsWritten | helpers/simul_contraint_main_sous_cat_v2.py:864-873 | every rebuilt business element carries its row, category, quotePart = value and today's date over template element 0 |
| Imputation.ProMerged | helpers/simul_contraint_main_sous_cat_v2.py:865-872 | merging a business row writes its label, category, value, quotePart = value, shares and today's date, and keeps the other template keys |
| Imputation.LoanRowsWritten | helpers/simul_contraint_main_sous_cat_v2.py:881-892 | every rebuilt loan element carries its loan, category, maturity, quotePart = montantRestantDu, link and today's date over template element 0 |
| Imputation.LoanMerged | helpers/simul_contraint_main_sous_cat_v2.py:882-891 | merging a loan writes its label, category, maturity, amount, quotePart = montantRestantDu, shares, link and today's date, and keeps the other template keys |
| Imputation.ImputeRows | helpers/simul_contraint_main_sous_cat_v2.py:823-892 | a finished imputation gives one element per profile row, in row order, each the row written over template element 0, whose other keys keep their values |
| Imputation.ImputeDocHeads | helpers/simul_contraint_main_sous_cat_v2.py:806-819 | the first client detail and the first cash-flow detail get their fields merged in and nothing else in those lists changes |
| Imputation.ImputeClient | helpers/simul_contraint_main_sous_cat_v2.py:806-812 | the first client detail gets civilité, birth date "{2025-Age}-01-01", children and union; "regimeMatrimonial" is left as it was; the other client details are untouched |
| Imputation.ClientMerged | helpers/simul_contraint_main_sous_cat_v2.py:808-812 | merging the personal fields writes the four keys and leaves "regimeMatrimonial" as it was |
| Imputation.ImputeCashflow | helpers/simul_contraint_main_sous_cat_v2.py:815-819 | the first cash-flow detail gets the six flows and keeps its other keys; the other cash-flow details are untouched |
| Imputation.CashflowMerged | helpers/simul_contraint_main_sous_cat_v2.py:819 | `.update` with the six flows sets them and keeps every other key |
| Imputation.ImputeStops | helpers/simul_contraint_main_sous_cat_v2.py:806-893 | without a client detail nothing changes; without a cash-flow detail the cash-flow and financial lists are untouched; a stopped imputation never reaches the loans |

## Left out

- `generate_correlated_variable` (lines 22-41) uses floating point, a normal draw and `norm.cdf`. It is an opaque draw `Correlated(p, lo, hi)` that only promises a value in [lo, hi].
- `random.random`, `random.randint` and `random.sample` are parameters. `random.sample` is a function whose only promise, `IsSampler`, is a hypothesis of the lemmas that use it. The model does not capture which sample is drawn.
- `datetime.now()` and `datetime.today()` are the `today` parameter. `relativedelta` is not part of this model, so a maturity stays (start date, years) and no calendar arithmetic is done. `strftime` formatting of dates is left out the same way: the JSON holds `JDate(start, years)`.
- `import_json` (lines 718-720) is file I/O, and the `print` calls in `impute_json` are output. Both are left out.
- Numpy structured arrays become Dafny datatypes. The int32 width of `Age`, `nbEnfants` and `ImmoLie` is not modelled, because every value the engine produces fits in it. The string widths U3, U30 and U50 are modelled as truncation (`Common.Truncate`). float64 amounts are `real`.
- `impute_json` raises a KeyError for a template that lacks a section such as `input_vide["Fin"]`. The model's template always has all six detail lists, so only the IndexError of an empty list is modelled. `ImputeDoc` and `Template.Impute` do capture the partial write that an error leaves behind.
- `Generators.EmpruntLoans`: it is stated with no contract on its success value. Its loans are described by the lemmas `EmpruntLoansAre`, `EmpruntLinks`, `EmpruntRanksBounded` and `EmpruntLinksDistinct`.
- The rest of the repository is left out: the Streamlit pages, the signed HTTP calls and polling in `helpers/func.py`, the password gate, the dashboard and the launcher. `helpers/jsonGen.py` only holds fixtures; one of them is `FromAmounts.LivretAFixture`.

These source quirks are reproduced rather than fixed:

- `immo_random` assigns the local `list_type_ext` only in its manual branch (helpers/simul_contraint_main_sous_cat_v2.py:392); in auto mode line 413 reads it unassigned, which raises UnboundLocalError, a subclass of NameError, modelled as `NameError("list_type_ext")`.
- `pro_random` in auto mode looks up "typeAutres", which is missing.
- In `emprunt_random`, loans other than PretImmo are also capped by a selected property.
- The "Immo PVH" 90-year branch cannot be reached in auto mode.
- `cashflow_random` gives a couple with three children under 25 four tax parts: two for the adults, half a part for each of the first two children and a whole part for the third (`CoupleWithThreeYoungChildren`).
- The owner's share of household income is drawn as `randint(20, 80)/100` (`IncomeShare`).
- Several drawn codes fall through to the classifiers' "other" category.
