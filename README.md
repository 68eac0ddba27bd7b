# OP-consultation document assembler, modelled in Dafny

This project models `OPConsultationHelper`, the part of the clinical-artifacts service that builds the
FHIR `Bundle` for an outpatient (OP) consultation record out of a patient's `ClinicalData`.

The bundle starts with the OP-consultation `Composition` (the header). With clinical data present, a
`Patient` entry comes next. `createCancerModuleSections` then walks six optional categories in a fixed
order:

1. diagnostics (CBC, biopsy, lipid profile, renal tests)
2. oral-cancer indicators
3. lung-cancer indicators
4. co-morbidities
5. women's-health observations
6. allergies

Each category appends FHIR resources to the bundle and section components to a list. That list becomes
the header's section list.

The model has two layers:

- **The objects the source mutates.** These are Dafny classes: the `Bundle` (entries plus an identifier
  counter), the `Composition` and its `SectionComponent`s, and the `OPConsultationHelper` with its
  indicator-code map. Every method of the helper is a Dafny method that changes exactly what its
  `modifies` clause names.
- **Value specifications.** `Assembly` describes, as pure functions, what each step appends: a `Built`
  value holding the entries, the section slots and the number of identifiers used, or a `Filed` value
  for the reports filed into one section. Each method's `ensures` ties the new state to these functions.
  `Properties` proves what the document promises about them.

Modules:

| module | file | contents |
|---|---|---|
| `Optional` | optional.dfy | `Option` |
| `Strings` | strings.dfy | ASCII `toLowerCase`, `startsWith`, `StringUtils.isNotBlank` |
| `Constants` | constants.dfy | the symbolic names of the constants the helper uses |
| `Fhir` | fhir.dfy | resources, references, and the `Bundle`, `Composition` and `SectionComponent` classes |
| `Codes` | codes.dfy | the indicator code map, the indicator switches, the co-morbidity and women's-health code tables, and fixed concepts |
| `ClinicalInput` | input.dfy | the `ClinicalData` input records |
| `LipidPanel` | lipid.dfy | the lipid test-name matcher of `createLipidProfileObservation` |
| `Assembly` | assembly.dfy | the value specification of every step |
| `OPConsultation` | helper.dfy | the imperative helper |
| `Properties` | properties.dfy | the lemmas about the assembled document |

Source paths in the table below are relative to the repository root.

## Model

| member | source | states |
|---|---|---|
| OPConsultation.OPConsultationHelper.constructor | src/main/java/org/ncg/clinical/artifacts/util/OPConsultationHelper.java:47-61 | After construction, the indicator map is exactly the eleven lower-cased indicator keys, each with its LOINC code, and the indicator switches are the ones from the source. |
| OPConsultation.OPConsultationHelper.Init | src/main/java/org/ncg/clinical/artifacts/util/OPConsultationHelper.java:47-61 | The map after `init` is the map before it, overridden by the eleven `put`s. |
| Codes.IndicatorKeysAreLowerCase | src/main/java/org/ncg/clinical/artifacts/util/OPConsultationHelper.java:50-60 | Every key of the indicator map is lower case and unchanged by lowering. A lower-cased indicator can therefore find its code. |
| Codes.NsgIndicatorHasNoCode | src/main/java/org/ncg/clinical/artifacts/util/OPConsultationHelper.java:263-281 | The lung-cancer switch accepts "molecular markers/nsg as needed", and that string has no entry in the code map. |
| Codes.NgsIndicatorIsRejected | src/main/java/org/ncg/clinical/artifacts/util/OPConsultationHelper.java:58 | The mapped indicator "Molecular markers/NGS as needed", once lowered, is rejected by the lung-cancer switch. |
| Codes.ReportCode | src/main/java/org/ncg/clinical/artifacts/util/OPConsultationHelper.java:296-304 | The report's concept is empty exactly when the indicator is not a map key. Otherwise it is LOINC-coded with the mapped code, and its display and text are the report type. |
| Codes.IndicatorLookupIgnoresCase | src/main/java/org/ncg/clinical/artifacts/util/OPConsultationHelper.java:263-294 | Two indicator spellings that lower to the same string get the same code, or both get none. |
| Codes.DocumentTypeCode | src/main/java/org/ncg/clinical/artifacts/util/OPConsultationHelper.java:522-526 | The DocumentReference type code is present exactly when the raw, not lower-cased, report type is a map key, and then it is that key's code. |
| Codes.DocumentTypeLookupIsCaseSensitive | src/main/java/org/ncg/clinical/artifacts/util/OPConsultationHelper.java:283-294 | "FNAC Report" is accepted as an oral-cancer indicator and gets a report code, but its DocumentReference gets no type code, because that lookup is case-sensitive. |
| Codes.CoMorbiditiesCode | src/main/java/org/ncg/clinical/artifacts/util/OPConsultationHelper.java:583-599 | A co-morbidity has a code exactly when its lower-cased name is one of the switch's cases, and that code is a SNOMED one. |
| Codes.ObservationWomenHealthCode | src/main/java/org/ncg/clinical/artifacts/util/OPConsultationHelper.java:602-615 | A women's-health observation has a code exactly when its lower-cased name is one of the switch's cases, and that code is a LOINC one. |
| Codes.CodeTablesIgnoreCase | src/main/java/org/ncg/clinical/artifacts/util/OPConsultationHelper.java:583-615 | Names that lower to the same string get the same co-morbidity code and the same women's-health code. |
| Codes.HypertensionIsCoded | src/main/java/org/ncg/clinical/artifacts/util/OPConsultationHelper.java:583-599 | "Hypertension" gets the SNOMED hypertension code, in any letter case. |
| Strings.LowerChar | src/main/java/org/ncg/clinical/artifacts/util/OPConsultationHelper.java:265 | An ASCII capital maps to its small letter, and every other character is kept. |
| Strings.LowerIsLower | src/main/java/org/ncg/clinical/artifacts/util/OPConsultationHelper.java:265 | Lowering keeps the length, yields a lower-case string, and is idempotent. |
| Strings.LowerOfLower | src/main/java/org/ncg/clinical/artifacts/util/OPConsultationHelper.java:50-60 | Lowering a lower-case string changes nothing. |
| LipidPanel.LipidMatches | src/main/java/org/ncg/clinical/artifacts/util/OPConsultationHelper.java:436-493 | The terms a test name produces are exactly the terms whose rule fires on it, and there is at most one. |
| LipidPanel.RulesExclusive | src/main/java/org/ncg/clinical/artifacts/util/OPConsultationHelper.java:436-493 | No test name fires two of the eight rules. |
| LipidPanel.FiresByRule | src/main/java/org/ncg/clinical/artifacts/util/OPConsultationHelper.java:438-491 | There are four prefix rules (total, hdl, ldl, vldl) and four exact-match rules (the two triglyceride names, fasting duration, fasting status). |
| LipidPanel.LipidConceptInjective | src/main/java/org/ncg/clinical/artifacts/util/OPConsultationHelper.java:436-493 | Different lipid terms get different observation concepts. |
| LipidPanel.TotalCholesterolExample | src/main/java/org/ncg/clinical/artifacts/util/OPConsultationHelper.java:404-438 | "Total Cholesterol", once lowered, yields the total-cholesterol observation only. |
| LipidPanel.TriglyceridesFastingExample | src/main/java/org/ncg/clinical/artifacts/util/OPConsultationHelper.java:467-479 | "Triglycerides Fasting" yields the fasting-triglycerides observation only, not the plain triglycerides one. |
| LipidPanel.VitaminDExample | src/main/java/org/ncg/clinical/artifacts/util/OPConsultationHelper.java:436-493 | A test name no rule matches yields no observation. |
| LipidPanel.VldlIsNotLdl | src/main/java/org/ncg/clinical/artifacts/util/OPConsultationHelper.java:453-465 | A name starting with "vldl" yields the VLDL observation only, never the LDL one. |
| Assembly.DocumentReferenceFor | src/main/java/org/ncg/clinical/artifacts/util/OPConsultationHelper.java:522-541 | The DocumentReference is current, and its subject is the patient. Its type is coded with the looked-up code and carries "… report" as display and text. It has one attachment, with the report name and value. It has no identifier, so a reference to it names no id. |
| Assembly.ReportFor | src/main/java/org/ncg/clinical/artifacts/util/OPConsultationHelper.java:567-576 | A DiagnosticReport is final, carries the given id and code, references the patient, and starts with no results. |
| Assembly.ConditionFor | src/main/java/org/ncg/clinical/artifacts/util/OPConsultationHelper.java:543-556 | A Condition carries the given id and code, the active clinical status, and no subject. |
| Assembly.FilePlansConcat | src/main/java/org/ncg/clinical/artifacts/util/OPConsultationHelper.java:345-434 | Filing two lists of reports into a section equals filing the first list, then the second with identifiers continuing where the first stopped. |
| Assembly.FiledInTurn | src/main/java/org/ncg/clinical/artifacts/util/OPConsultationHelper.java:345-434 | Two successive filing steps on the bundle and the section amount to filing the concatenated plans. |
| Assembly.FileStepExtends | src/main/java/org/ncg/clinical/artifacts/util/OPConsultationHelper.java:495-511 | One more report filed onto a state that already extends an earlier one still extends it, by that report. |
| Assembly.Measurements | src/main/java/org/ncg/clinical/artifacts/util/OPConsultationHelper.java:436-493 | Each matched lipid term becomes one measured report-and-observation plan, in the matcher's order. |
| Assembly.MeasurePassed | src/main/java/org/ncg/clinical/artifacts/util/OPConsultationHelper.java:436-493 | The plans of the terms passed by the four rules of a group are those rules' plans in order. |
| Assembly.TestsPlansStep | src/main/java/org/ncg/clinical/artifacts/util/OPConsultationHelper.java:402-408 | The lipid tests' plans grow test by test, in list order. |
| Assembly.IndicatorPlansStep | src/main/java/org/ncg/clinical/artifacts/util/OPConsultationHelper.java:106-111 | The indicator plans grow entry by entry, in map iteration order. |
| Assembly.CoMorbidityBuiltStep | src/main/java/org/ncg/clinical/artifacts/util/OPConsultationHelper.java:129-170 | Each further co-morbidity appends one Condition, its section and its gate slot to what the earlier ones built. |
| Assembly.WomenHealthBuiltStep | src/main/java/org/ncg/clinical/artifacts/util/OPConsultationHelper.java:172-224 | Each further women's-health item appends one Observation, its section and its gate slot to what the earlier ones built. |
| Assembly.AssembledOfParts | src/main/java/org/ncg/clinical/artifacts/util/OPConsultationHelper.java:90-235 | The whole assembly joins the report categories with the list categories that follow them. |
| Assembly.ReportsOfParts | src/main/java/org/ncg/clinical/artifacts/util/OPConsultationHelper.java:95-127 | The report categories are the diagnostic part followed by the two cancer histories. |
| Assembly.HistoriesOfParts | src/main/java/org/ncg/clinical/artifacts/util/OPConsultationHelper.java:101-127 | The oral-cancer history comes before the lung-cancer history. |
| Assembly.ListsOfParts | src/main/java/org/ncg/clinical/artifacts/util/OPConsultationHelper.java:129-232 | Co-morbidities come before the later lists. |
| Assembly.LaterListsOfParts | src/main/java/org/ncg/clinical/artifacts/util/OPConsultationHelper.java:172-232 | Women's health comes before allergies. |
| Fhir.Composition.AddSection | src/main/java/org/ncg/clinical/artifacts/util/OPConsultationHelper.java:322 | `addSection` appends one fresh, empty section and returns it. |
| Fhir.Bundle.NewId | src/main/java/org/ncg/clinical/artifacts/util/OPConsultationHelper.java:543-545 | Each new identifier is the next value of the counter. The entries are unchanged. |
| Fhir.Bundle.Add | src/main/java/org/ncg/clinical/artifacts/util/OPConsultationHelper.java:574 | `addToBundleEntry` appends exactly one resource and keeps the identifier invariant. |
| Fhir.Bundle.AddResult | src/main/java/org/ncg/clinical/artifacts/util/OPConsultationHelper.java:505-508 | `addResult` on a report already in the bundle appends to that entry's results and changes nothing else. |
| Fhir.IdsInConcat | src/main/java/org/ncg/clinical/artifacts/util/OPConsultationHelper.java:63-88 | Two runs of strictly increasing identifiers from adjacent ranges join into one such run. |
| OPConsultation.Coin.RandomBool | src/main/java/org/ncg/clinical/artifacts/util/OPConsultationHelper.java:319 | Each draw returns the next outcome of the oracle and advances its counter. |
| OPConsultation.OPConsultationHelper.CreateOPConsultationBundle | src/main/java/org/ncg/clinical/artifacts/util/OPConsultationHelper.java:63-88 | The header is always entry 0, with id 0, the document date, `en-IN`, final status, and the OP type and title. Without clinical data, it is the only entry, it has no sections, and no gate is drawn. With clinical data, the Patient, then the assembled entries, follow it, and the header's sections are the assembled slots. |
| OPConsultation.OPConsultationHelper.CreateHeader | src/main/java/org/ncg/clinical/artifacts/util/OPConsultationHelper.java:65-76 | The new bundle holds the header only, with its fields set as the source sets them. |
| OPConsultation.AddPatientResourceToComposition | src/main/java/org/ncg/clinical/artifacts/util/OPConsultationHelper.java:80 | One Patient is appended, carrying the next identifier. |
| OPConsultation.OPConsultationHelper.AddClinicalData | src/main/java/org/ncg/clinical/artifacts/util/OPConsultationHelper.java:78-85 | The bundle becomes header, Patient, then the assembled entries. The header's section list is replaced by the assembled slots. |
| OPConsultation.OPConsultationHelper.CreateCancerModuleSections | src/main/java/org/ncg/clinical/artifacts/util/OPConsultationHelper.java:90-235 | The appended entries and the returned slots are those of `Assembly.Assembled`. There are `SlotCount` slots. The oracle is drawn `Draws` times. |
| OPConsultation.OPConsultationHelper.FileReportBlocks | src/main/java/org/ncg/clinical/artifacts/util/OPConsultationHelper.java:95-127 | The diagnostic, oral-cancer and lung-cancer blocks append the entries and slots of `Reports`. |
| OPConsultation.OPConsultationHelper.FileHistoryBlocks | src/main/java/org/ncg/clinical/artifacts/util/OPConsultationHelper.java:101-127 | The two cancer blocks append the entries and slots of `Histories`, one slot per present cancer. |
| OPConsultation.OPConsultationHelper.FileListBlocks | src/main/java/org/ncg/clinical/artifacts/util/OPConsultationHelper.java:129-232 | The co-morbidity, women's-health and allergy blocks append the entries and slots of `Lists`. The header gains exactly the gate sections whose draw came up false, in order. |
| OPConsultation.OPConsultationHelper.FileLaterBlocks | src/main/java/org/ncg/clinical/artifacts/util/OPConsultationHelper.java:172-232 | Women's health then allergies append the entries and slots of `LaterLists`. |
| OPConsultation.OPConsultationHelper.FileDiagnosticBlock | src/main/java/org/ncg/clinical/artifacts/util/OPConsultationHelper.java:95-99 | A present diagnostic draws one gate and adds one slot, with the entries `DiagnosticPart` says. An absent one adds nothing and draws nothing. |
| OPConsultation.OPConsultationHelper.FileHistoryBlock | src/main/java/org/ncg/clinical/artifacts/util/OPConsultationHelper.java:101-127 | A present cancer map adds one history section, as `HistoryPart` says. An absent one adds nothing. |
| OPConsultation.OPConsultationHelper.FileCoMorbidityBlock | src/main/java/org/ncg/clinical/artifacts/util/OPConsultationHelper.java:129-170 | The co-morbidity block appends what `CoMorbidityPart` says, takes two slots per item, and draws once per item. |
| OPConsultation.OPConsultationHelper.FileWomenHealthBlock | src/main/java/org/ncg/clinical/artifacts/util/OPConsultationHelper.java:172-224 | The women's-health block appends what `WomenHealthPart` says, takes two slots per item, and draws once per item. |
| OPConsultation.OPConsultationHelper.FileAllergyBlock | src/main/java/org/ncg/clinical/artifacts/util/OPConsultationHelper.java:226-232 | The allergy block appends what `AllergyPart` says, one slot per allergy. |
| OPConsultation.OPConsultationHelper.CreateCancerHistorySection | src/main/java/org/ncg/clinical/artifacts/util/OPConsultationHelper.java:101-127 | The history section and its entries are those of `HistoryBuilt`. |
| OPConsultation.OPConsultationHelper.FileIndicators | src/main/java/org/ncg/clinical/artifacts/util/OPConsultationHelper.java:106-111 | Every indicator in map order is filed into the history section as `IndicatorPlans` says. |
| OPConsultation.OPConsultationHelper.FileIndicator | src/main/java/org/ncg/clinical/artifacts/util/OPConsultationHelper.java:106-111 | One indicator adds its report and the reference to it, or a null reference if it is rejected. |
| OPConsultation.OPConsultationHelper.CreateMedicalHistorySection | src/main/java/org/ncg/clinical/artifacts/util/OPConsultationHelper.java:237-254 | One cancer Condition is appended with the next id. The new section has the medical-history title and code, and references that Condition only. |
| OPConsultation.OPConsultationHelper.GetLungCancerReports | src/main/java/org/ncg/clinical/artifacts/util/OPConsultationHelper.java:263-281 | A report is created exactly when the lowered key is a lung-cancer case, and the bundle grows as filing that indicator says. |
| OPConsultation.OPConsultationHelper.GetOralCancerReports | src/main/java/org/ncg/clinical/artifacts/util/OPConsultationHelper.java:283-294 | A report is created exactly when the lowered key is an oral-cancer case, and the bundle grows as filing that indicator says. |
| OPConsultation.OPConsultationHelper.CreateDiagnosticReport | src/main/java/org/ncg/clinical/artifacts/util/OPConsultationHelper.java:296-315 | One report is appended, coded as `ReportCode` says, whose only result references its unfiled DocumentReference. |
| OPConsultation.OPConsultationHelper.CreateDocumentReferenceResource | src/main/java/org/ncg/clinical/artifacts/util/OPConsultationHelper.java:522-541 | The DocumentReference is `DocumentReferenceFor` of the case-sensitive type lookup, and the bundle is untouched. |
| OPConsultation.CreateDiagnosticReportResource | src/main/java/org/ncg/clinical/artifacts/util/OPConsultationHelper.java:567-576 | One DiagnosticReport with the next id is appended, and its index is returned. |
| OPConsultation.CreateConditionResource | src/main/java/org/ncg/clinical/artifacts/util/OPConsultationHelper.java:543-551 | A Condition with the next id is made, and the bundle's entries are unchanged. |
| OPConsultation.CreateObservation | src/main/java/org/ncg/clinical/artifacts/util/OPConsultationHelper.java:558-565 | An Observation with the next id is made, final, for the patient, effective at the composition date. The entries are unchanged. |
| OPConsultation.CreateSectionComponent | src/main/java/org/ncg/clinical/artifacts/util/OPConsultationHelper.java:256-261 | A fresh section with the given title and code and no entries. |
| OPConsultation.CreateDiagnosticReportAndObservation | src/main/java/org/ncg/clinical/artifacts/util/OPConsultationHelper.java:495-511 | One measured plan is filed: a report whose result references the new Observation. Both are appended, and the section references the report. |
| OPConsultation.OPConsultationHelper.CreateAttachedReport | src/main/java/org/ncg/clinical/artifacts/util/OPConsultationHelper.java:367-382 | One attached plan is filed: the report is appended with a reference to the unfiled DocumentReference, and the section references the report. |
| OPConsultation.OPConsultationHelper.CreateDiagnosticReportSection | src/main/java/org/ncg/clinical/artifacts/util/OPConsultationHelper.java:345-434 | The gate is drawn exactly once. With the gate true, no section is returned. Otherwise the section and the appended entries are those of `DiagnosticBuilt`. |
| OPConsultation.OPConsultationHelper.FileCbcReport | src/main/java/org/ncg/clinical/artifacts/util/OPConsultationHelper.java:355-365 | CBC data files the haemoglobin report and observation, as `CbcPlans` says. |
| OPConsultation.OPConsultationHelper.FileBiopsyReport | src/main/java/org/ncg/clinical/artifacts/util/OPConsultationHelper.java:367-382 | Biopsy data files one attached report, as `BiopsyPlans` says. |
| OPConsultation.OPConsultationHelper.FileBioChemistryReports | src/main/java/org/ncg/clinical/artifacts/util/OPConsultationHelper.java:384-430 | The lipid-profile plans are filed, then the renal plans. |
| OPConsultation.OPConsultationHelper.FileLipidProfileReports | src/main/java/org/ncg/clinical/artifacts/util/OPConsultationHelper.java:384-410 | A non-blank attachment files one attached report. Otherwise a non-empty test list is filed test by test, and an empty or absent one files nothing. |
| OPConsultation.OPConsultationHelper.FileLipidTests | src/main/java/org/ncg/clinical/artifacts/util/OPConsultationHelper.java:402-408 | The tests are filed in list order, as `TestsPlans` says. |
| OPConsultation.OPConsultationHelper.CreateLipidProfileObservation | src/main/java/org/ncg/clinical/artifacts/util/OPConsultationHelper.java:436-493 | One test files a measured plan for each rule that fires on its lowered name, in rule order. |
| OPConsultation.OPConsultationHelper.FileFourTests | src/main/java/org/ncg/clinical/artifacts/util/OPConsultationHelper.java:436-465 | A group of four rules files, in order, the plans of the rules that fire. |
| OPConsultation.OPConsultationHelper.FileTerm | src/main/java/org/ncg/clinical/artifacts/util/OPConsultationHelper.java:438-444 | One rule files its measured plan if it fires, and nothing otherwise. |
| OPConsultation.OPConsultationHelper.FileRenalReport | src/main/java/org/ncg/clinical/artifacts/util/OPConsultationHelper.java:412-430 | Renal data with a non-blank attachment files one attached report, as `RenalPlans` says. |
| OPConsultation.OPConsultationHelper.CreateCoMorbiditySections | src/main/java/org/ncg/clinical/artifacts/util/OPConsultationHelper.java:129-170 | The loop appends what `CoMorbidityBuilt` says, draws once per item, takes two slots per item, and adds to the header the gate sections whose draw came up false. |
| OPConsultation.OPConsultationHelper.CoMorbidityTurn | src/main/java/org/ncg/clinical/artifacts/util/OPConsultationHelper.java:131-168 | One loop turn extends the state of items `[..i]` to that of items `[..i + 1]`. |
| OPConsultation.OPConsultationHelper.FileCoMorbidity | src/main/java/org/ncg/clinical/artifacts/util/OPConsultationHelper.java:131-168 | One co-morbidity appends its Condition, makes its section referencing it, and draws one gate section. |
| OPConsultation.OPConsultationHelper.CreateCoMorbiditiesSection | src/main/java/org/ncg/clinical/artifacts/util/OPConsultationHelper.java:317-329 | The gate is drawn once. A true draw returns null and leaves the composition unchanged. A false draw adds one section, titled and coded by the co-morbidity's name and without entries, to the composition and returns it. |
| OPConsultation.OPConsultationHelper.CreateObservationWomenHealthSections | src/main/java/org/ncg/clinical/artifacts/util/OPConsultationHelper.java:172-224 | The loop appends what `WomenHealthBuilt` says, draws once per item, takes two slots per item, and adds to the header the gate sections whose draw came up false. |
| OPConsultation.OPConsultationHelper.WomenHealthTurn | src/main/java/org/ncg/clinical/artifacts/util/OPConsultationHelper.java:174-222 | One loop turn extends the state of items `[..i]` to that of items `[..i + 1]`. |
| OPConsultation.OPConsultationHelper.FileWomenHealth | src/main/java/org/ncg/clinical/artifacts/util/OPConsultationHelper.java:174-222 | One item appends its Observation, makes its section referencing it, and draws one gate section. |
| OPConsultation.OPConsultationHelper.CreateObservationWomenHealthSection | src/main/java/org/ncg/clinical/artifacts/util/OPConsultationHelper.java:331-343 | This is the women's-health gate section, with the same contract as the co-morbidity one. |
| OPConsultation.OPConsultationHelper.CreateAllergySections | src/main/java/org/ncg/clinical/artifacts/util/OPConsultationHelper.java:226-232 | The loop appends what `AllergyBuilt` says, one section per allergy. |
| OPConsultation.OPConsultationHelper.CreateAllergiesSection | src/main/java/org/ncg/clinical/artifacts/util/OPConsultationHelper.java:628-696 | Only the AllergyIntolerance is appended, although two ids are used. The section references the Condition, which no bundle entry carries. |
| Properties.AssembledInOrder | src/main/java/org/ncg/clinical/artifacts/util/OPConsultationHelper.java:90-235 | The document is the six categories in the fixed order. Each category takes its identifiers and gate draws where the one before it stopped. |
| Properties.CoMorbiditySlots | src/main/java/org/ncg/clinical/artifacts/util/OPConsultationHelper.java:129-170 | Co-morbidity `j` gives entry `j` (its Condition, with id `k + j`), slot `2j` (its section) and slot `2j + 1` (its gate, decided by draw `g + j`). |
| Properties.WomenHealthSlots | src/main/java/org/ncg/clinical/artifacts/util/OPConsultationHelper.java:172-224 | The same layout holds for women's-health items, with Observations. |
| Properties.AllergySlots | src/main/java/org/ncg/clinical/artifacts/util/OPConsultationHelper.java:226-232 | Allergy `j` gives entry `j` (the AllergyIntolerance, id `k + 2j`) and slot `j`, whose section refers to Condition `k + 2j + 1`. |
| Properties.AssembledSlots | src/main/java/org/ncg/clinical/artifacts/util/OPConsultationHelper.java:90-235 | The section list has `SlotCount` slots: one for the diagnostic block, one per present cancer, two per co-morbidity, two per women's-health item, and one per allergy. |
| Properties.CoMorbidityReferencesResolve | src/main/java/org/ncg/clinical/artifacts/util/OPConsultationHelper.java:131-168 | The section of co-morbidity `j` references exactly its own Condition entry, whose subject is the patient. |
| Properties.AllergyReferencesDangle | src/main/java/org/ncg/clinical/artifacts/util/OPConsultationHelper.java:628-696 | Every allergy entry is an AllergyIntolerance, and every allergy section references a Condition id that is not that of its entry. |
| Properties.AssembledIds | src/main/java/org/ncg/clinical/artifacts/util/OPConsultationHelper.java:90-235 | The assembled entries carry strictly increasing ids from the range of ids used, and none of them is a DocumentReference. |
| Properties.AllergyConditionsAreNotFiled | src/main/java/org/ncg/clinical/artifacts/util/OPConsultationHelper.java:686-694 | In the whole document, the slot of allergy `j` references a Condition that no entry of the document carries. |
| Properties.FiledReferences | src/main/java/org/ncg/clinical/artifacts/util/OPConsultationHelper.java:106-111 | Filing a list of plans gives one reference per plan. A reference is null exactly when its plan is rejected. Otherwise it is a DiagnosticReport reference that resolves to a filed entry. |
| Properties.IndicatorPlansInOrder | src/main/java/org/ncg/clinical/artifacts/util/OPConsultationHelper.java:106-111 | Indicator `i` yields plan `i`. |
| Properties.HistoryReferences | src/main/java/org/ncg/clinical/artifacts/util/OPConsultationHelper.java:101-127 | A cancer history is one section. It references its Condition first, then one entry per indicator. An indicator's reference is null exactly when the switch rejects its lowered key, given that `getReferenceToResource(null)` yields a null reference. An accepted indicator's reference resolves. |
| Properties.TestsPlansMeasured | src/main/java/org/ncg/clinical/artifacts/util/OPConsultationHelper.java:402-408 | Every lipid test plan is a measured one. |
| Properties.DiagnosticPlansMeasuredOrAttached | src/main/java/org/ncg/clinical/artifacts/util/OPConsultationHelper.java:345-434 | The diagnostic block never produces a null reference. |
| Properties.EveryReferenceResolves | src/main/java/org/ncg/clinical/artifacts/util/OPConsultationHelper.java:345-434 | When no plan is rejected, every reference filed resolves to a DiagnosticReport entry. |
| Properties.DiagnosticReferences | src/main/java/org/ncg/clinical/artifacts/util/OPConsultationHelper.java:345-434 | With the gate false, the diagnostic section holds one resolving DiagnosticReport reference per plan. |
| Strings.BlankExamples | src/main/java/org/ncg/clinical/artifacts/util/OPConsultationHelper.java:386 | A missing, empty or all-whitespace attachment is blank, including the Unicode separators `Character.isWhitespace` accepts (U+3000). A no-break space (U+00A0) or any other character makes it non-blank. |
| Properties.LipidAttachmentWins | src/main/java/org/ncg/clinical/artifacts/util/OPConsultationHelper.java:386-400 | A non-blank lipid attachment files exactly one biochemistry DiagnosticReport, and no Observation, whatever tests are listed. |
| Properties.OneTestFiles | src/main/java/org/ncg/clinical/artifacts/util/OPConsultationHelper.java:495-511 | A test whose name matches a rule files exactly one report and one Observation, with the report's result referencing the Observation. |
| Properties.UnmatchedTestFilesNothing | src/main/java/org/ncg/clinical/artifacts/util/OPConsultationHelper.java:436-493 | A test that no rule matches files nothing and uses no identifier. |
| Properties.NoCategoriesNoSections | src/main/java/org/ncg/clinical/artifacts/util/OPConsultationHelper.java:90-235 | Clinical data with every category absent adds no entry, no slot and no identifier. |
| Properties.HypertensionOnly | src/main/java/org/ncg/clinical/artifacts/util/OPConsultationHelper.java:129-170 | With one co-morbidity "Hypertension" and a false gate, the document holds one Condition with the SNOMED hypertension code, its section referencing that Condition, and a second, entry-less co-morbidity section. |

## Notable behaviour

What the code does in some less obvious cases, each with the member that states it:

- The DocumentReference an attached report references is never added to the bundle. It is only the id-less target of the report's result, and no assembled entry is a DocumentReference (`AssembledIds`).
- The section list has one slot per present diagnostic block and per present cancer, two per co-morbidity and per women's-health item, and one per allergy. Gate slots can be null (`AssembledSlots`).
- Each allergy section references a Condition that is never added to the bundle (`AllergyConditionsAreNotFiled`).
- Under the assumption about `getReferenceToResource(null)` listed below, a rejected cancer indicator adds a null reference to its history section (`HistoryReferences`).
- A single co-morbidity "Hypertension" gives its coded section and also a second, randomly gated section without entries (`HypertensionOnly`).
- Clinical data with every category absent still adds the Patient entry. Only absent clinical data gives the header alone (`CreateOPConsultationBundle`, `NoCategoriesNoSections`).
- The allergy's patient reference is built from the patient's name, not from the Patient resource. It is modelled as a fixed reference to the patient.

## Left out

- Narratives, `meta` profiles, identifiers and the `hipPrefix` / `IParser` parameters are not modelled, because they do not change which resources or references appear. The same goes for the recorder and performer UUIDs, notes, `recordedDate` and `issued` timestamps.
- `Utils.generateId` and `UUID.randomUUID` resource ids are modelled as the bundle's `issued` counter: a fresh, strictly increasing natural number per resource. The concrete string ids are not modelled.
- `randomBool` is modelled as the `Coin` oracle, a function from call number to outcome. The source's randomness is therefore a parameter of every lemma.
- `FHIRUtils` (bundle creation, `addToBundleEntry`, `addPatientResourceToComposition`, `getCodeableConcept`, `getReferenceToResource`) is not part of this model. Each is given its simplest behaviour: appending, a Patient with the next id, a coded concept, and a reference to the resource.
- Fhir.ReferenceTo: what `getReferenceToResource(null)` does (lines 110 and 124, for a rejected indicator) is unknown. The model assumes it yields a null reference (`NullTarget`). If it dereferenced its argument instead, the first rejected indicator would throw and no bundle would be built; `HistoryReferences`' null references rest on this assumption.
- Strings.LowerChar: lowers the ASCII letters A-Z only, as `toLowerCase` does in the root locale on ASCII text. Java's `toLowerCase` lowers every Unicode capital in the default locale (U+212A to 'k', 'À' to 'à', and in a Turkish locale 'I' to dotless 'ı'). So a non-ASCII indicator, lipid test or co-morbidity name that Java accepts after lowering may be rejected by the model, and under a Turkish locale even the keys of `init` (lines 50-60) differ.
- Strings.LowerIsLower: its length clause holds of the ASCII model only; Java's `toLowerCase` can lengthen a string ('İ' lowers to two characters).
- Strings.LowerOfLower: `IsLower` only means "no A-Z", so strings that Java's `toLowerCase` would still change (such as U+212A or 'À') are covered by this lemma but not by Java's behaviour.
- `Constants.java` is not part of this model. Constants are symbolic names, distinct from each other. The exception is the lipid matcher strings ("total", "hdl", "ldl", "vldl", "triglycerides", "triglycerides fasting", "fasting duration", "fasting status"), which need actual values. The three report-type constants used for DocumentReference types are taken not to be keys of the indicator map.
- The `ClinicalData` value objects are reduced to the fields the helper reads.
- Exceptions (`IOException`) and `null` strings inside present records (which would throw `NullPointerException`) are not modelled. Absent records are `Option`s.
- Java's `HashMap` iteration order is unspecified. The cancer indicator maps are modelled as a sequence of pairs, iterated in that order.
- Floating-point values are modelled as `real` amounts, without rounding.
- `getOralCancerFNACCode` is not modelled, because nothing calls it.
- The indicator switches and code tables are reached through a `Switches` record, so that the lemmas hold for any tables. The helper's class fixes them to the source's tables (`SourceSwitches`).
- OPConsultation.OPConsultationHelper.CreateCancerModuleSections: does not state which gate sections `addSection` appended to `opDoc` along the way, because the caller overwrites `opDoc`'s section list at line 83. FileListBlocks states it.
