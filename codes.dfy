/** The fixed terminology of the OP-consultation assembler (OPConsultationHelper.java): the
    indicator-to-LOINC map, the lung- and oral-cancer allow-lists, the co-morbidity and
    women's-health code tables, and the fixed coded terms of headers and sections. */
module Codes {
  import opened Optional
  import opened Strings
  import opened Constants
  import opened Fhir

  /** The entries `init` puts into `indicatorLoincCodeMap`, keys lower-cased as the source does. */
  function IndicatorLoincCodes(): map<string, string>
  {
    map[
      Lower("2 D ECHO with PASP") := "34552-0",
      Lower("FDG PETCT") := "81553-0",
      Lower("MRI brain") := "24590-2",
      Lower("Fiber optic bronchoscopy") := "18744-3",
      Lower("Endobronchial ultrasound with ROSE reports") := "100231-0",
      Lower("Pulmonary function tests with DLCO") := "58477-1",
      Lower("V/Q scan in pneumonectomy") := "39942-8",
      Lower("6MWT") := "64098-7",
      Lower("Molecular markers/NGS as needed") := "73977-1",
      Lower("FNAC report") := "87179-8",
      Lower("CECT head neck thorax report/ PET Ct/ MRI") := "24627-2"
    ]
  }

  /** Every key of the indicator map is in lower case, so a caller must look up a lower-cased name. */
  lemma IndicatorKeysAreLowerCase()
    ensures forall k :: k in IndicatorLoincCodes() ==> IsLower(k) && Lower(k) == k
  {
    LowerIsLower("2 D ECHO with PASP");
    LowerIsLower("FDG PETCT");
    LowerIsLower("MRI brain");
    LowerIsLower("Fiber optic bronchoscopy");
    LowerIsLower("Endobronchial ultrasound with ROSE reports");
    LowerIsLower("Pulmonary function tests with DLCO");
    LowerIsLower("V/Q scan in pneumonectomy");
    LowerIsLower("6MWT");
    LowerIsLower("Molecular markers/NGS as needed");
    LowerIsLower("FNAC report");
    LowerIsLower("CECT head neck thorax report/ PET Ct/ MRI");
  }

  /** The `case` labels of the switch in `getLungCancerReports`. */
  predicate IsLungCancerIndicator(s: string)
  {
    s in {"2 d echo with pasp", "fdg petct", "mri brain", "fiber optic bronchoscopy",
          "endobronchial ultrasound with rose reports", "pulmonary function tests with dlco",
          "v/q scan in pneumonectomy", "6mwt", "molecular markers/nsg as needed"}
  }

  /** The `case` labels of the switch in `getOralCancerReports`. */
  predicate IsOralCancerIndicator(s: string)
  {
    s in {"fnac report", "cect head neck thorax report/ pet ct/ mri"}
  }

  /** The lung allow-list spells its ninth name "nsg", and no key of the indicator map is that name,
      so an accepted indicator of that spelling gets no LOINC code. */
  lemma NsgIndicatorHasNoCode()
    ensures IsLungCancerIndicator("molecular markers/nsg as needed")
    ensures "molecular markers/nsg as needed" !in IndicatorLoincCodes()
  {
    var ngs := "Molecular markers/NGS as needed";
    assert Lower(ngs)[19] == 'g';
    assert "molecular markers/nsg as needed"[19] == 's';
  }

  /** The indicator the map does have a code for, "Molecular markers/NGS as needed", is not on
      the lung allow-list once lower-cased, so it never produces a report. */
  lemma NgsIndicatorIsRejected()
    ensures Lower("Molecular markers/NGS as needed") in IndicatorLoincCodes()
    ensures !IsLungCancerIndicator(Lower("Molecular markers/NGS as needed"))
  {
    var ngs := "Molecular markers/NGS as needed";
    assert Lower(ngs)[19] == 'g';
    assert "molecular markers/nsg as needed"[19] == 's';
  }

  /** The report code of `createDiagnosticReport`: the LOINC code the map holds for the
      (lower-cased) indicator, displayed as the original `reportType`, or an empty concept when
      the map has no such key. */
  function ReportCode(m: map<string, string>, reportType: string, indicator: string): (c: Concept)
    ensures c.Empty? <==> indicator !in m
    ensures c.Coded? ==> c.code == Lit(m[indicator]) && c.system == Named(LoincSystem)
    ensures c.Coded? ==> c.display == Lit(reportType) && c.text == Lit(reportType)
  {
    if indicator in m then Coded(Lit(m[indicator]), Named(LoincSystem), Lit(reportType), Lit(reportType)) else Empty
  }

  /** Since callers look up the lower-cased key, differently-cased spellings of one indicator
      get the same LOINC code, or both none. */
  lemma {:induction false} IndicatorLookupIgnoresCase(m: map<string, string>, a: string, b: string)
    requires Lower(a) == Lower(b)
    ensures ReportCode(m, a, Lower(a)).Coded? == ReportCode(m, b, Lower(b)).Coded?
    ensures ReportCode(m, a, Lower(a)).Coded? ==> ReportCode(m, a, Lower(a)).code == ReportCode(m, b, Lower(b)).code
  {
  }

  /** The DocumentReference type code of `createDocumentReferenceResource`: the map is consulted
      with `reportType` exactly as given, not lower-cased. A named constant is taken to be no key. */
  function DocumentTypeCode(m: map<string, string>, reportType: Text): (t: Text)
    ensures t != NoText <==> reportType.Lit? && reportType.s in m
    ensures t != NoText ==> t == Lit(m[reportType.s])
  {
    match reportType
    case Lit(s) => if s in m then Lit(m[s]) else NoText
    case _ => NoText
  }

  /** An oral indicator written "FNAC Report" gets the FNAC LOINC code on its report, but its
      DocumentReference type has no code, because that lookup skips the lower-casing. */
  lemma DocumentTypeLookupIsCaseSensitive()
    ensures IsOralCancerIndicator(Lower("FNAC Report"))
    ensures ReportCode(IndicatorLoincCodes(), "FNAC Report", Lower("FNAC Report")).Coded?
    ensures DocumentTypeCode(IndicatorLoincCodes(), Lit("FNAC Report")) == NoText
  {
    assert Lower("FNAC Report") == "fnac report";
    assert Lower("FNAC report") == "fnac report";
    assert "FNAC Report"[0] == 'F';
    assert "FNAC Report" != Lower("FNAC report");
  }

  /** The lower-cased names of `getCoMorbiditiesCode`. */
  function CoMorbidityNames(): set<string>
  {
    {"hypertension", "coronary artery disease", "chronic obstructive pulmonary disease", "diabetes mellitus"}
  }

  /** `getCoMorbiditiesCode(name)`: a SNOMED CT term for four names in any letter case, else null. */
  function CoMorbiditiesCode(name: string): (r: Option<Concept>)
    ensures r.Some? <==> Lower(name) in CoMorbidityNames()
    ensures r.Some? ==> r.value.Coded? && r.value.system == Named(SnomedSystemSct)
                        && r.value.display == Lit(name) && r.value.text == NoText
  {
    var n := Lower(name);
    if n == "hypertension" then Some(Coded(Named(HypertensionCode), Named(SnomedSystemSct), Lit(name), NoText))
    else if n == "coronary artery disease" then
      Some(Coded(Named(CoronaryArteryDiseaseCode), Named(SnomedSystemSct), Lit(name), NoText))
    else if n == "chronic obstructive pulmonary disease" then
      Some(Coded(Named(ChronicObstructivePulmonaryDiseaseCode), Named(SnomedSystemSct), Lit(name), NoText))
    else if n == "diabetes mellitus" then
      Some(Coded(Named(DiabetesMellitusCode), Named(SnomedSystemSct), Lit(name), NoText))
    else None
  }

  /** The lower-cased names of `getObservationWomenHealthCode`. */
  function WomenHealthNames(): set<string>
  {
    {"pregnancy status", "menstrual cycle", "obstetric history", "breast health"}
  }

  /** `getObservationWomenHealthCode(name)`: a LOINC term for four names in any letter case, else null. */
  function ObservationWomenHealthCode(name: string): (r: Option<Concept>)
    ensures r.Some? <==> Lower(name) in WomenHealthNames()
    ensures r.Some? ==> r.value.Coded? && r.value.system == Named(LoincSystem)
                        && r.value.display == Lit(name) && r.value.text == Lit(name)
  {
    var n := Lower(name);
    if n == "pregnancy status" then Some(Coded(Named(PregnancyStatusCode), Named(LoincSystem), Lit(name), Lit(name)))
    else if n == "menstrual cycle" then Some(Coded(Named(MenstrualCycleCode), Named(LoincSystem), Lit(name), Lit(name)))
    else if n == "obstetric history" then Some(Coded(Named(ObstetricHistoryCode), Named(LoincSystem), Lit(name), Lit(name)))
    else if n == "breast health" then Some(Coded(Named(BreastHealthCode), Named(LoincSystem), Lit(name), Lit(name)))
    else None
  }

  /** The code of both tables depends on the lower-cased name only. */
  lemma {:induction false} CodeTablesIgnoreCase(a: string, b: string)
    requires Lower(a) == Lower(b)
    ensures CoMorbiditiesCode(a).Some? == CoMorbiditiesCode(b).Some?
    ensures CoMorbiditiesCode(a).Some? ==> CoMorbiditiesCode(a).value.code == CoMorbiditiesCode(b).value.code
    ensures ObservationWomenHealthCode(a).Some? == ObservationWomenHealthCode(b).Some?
    ensures ObservationWomenHealthCode(a).Some? ==>
              ObservationWomenHealthCode(a).value.code == ObservationWomenHealthCode(b).value.code
  {
  }

  /** "Hypertension" in any case is the hypertension term. */
  lemma HypertensionIsCoded()
    ensures CoMorbiditiesCode("Hypertension")
            == Some(Coded(Named(HypertensionCode), Named(SnomedSystemSct), Lit("Hypertension"), NoText))
    ensures CoMorbiditiesCode("HYPERTENSION").Some?
  {
    assert Lower("Hypertension") == "hypertension";
    assert Lower("HYPERTENSION") == "hypertension";
  }

  // The fixed coded terms.

  /** `getOPConsultationType()`. */
  function OPConsultationType(): Concept
  {
    Coded(Named(OpcrSnomedCode), Named(SnomedSystemSct), Named(ClinicalConsultationReport), Named(ClinicalConsultationReport))
  }

  /** `getCompositionDocumentTitle()`. */
  function CompositionDocumentTitle(): string
  {
    "OP Consultation Record"
  }

  function MedicalHistoryConcept(): Concept
  {
    Coded(Named(MedicalHistorySnomedCode), Named(SnomedSystemSct), Named(MedicalHistorySection), Named(MedicalHistorySection))
  }

  /** The condition code `createMedicalHistorySection` gives the cancer type. */
  function CancerConditionConcept(loincCode: Constant, cancerType: Constant): Concept
  {
    Coded(Named(loincCode), Named(LoincSystem), Named(cancerType), Named(cancerType))
  }

  /** `getConditionClinicalStatus()`. */
  function ConditionClinicalStatus(): Concept
  {
    Coded(LowerNamed(Active), Named(FhirConditionClinicalStatusSystem), LowerNamed(Active), Named(Active))
  }

  function DiagnosticReportSectionConcept(): Concept
  {
    Coded(Named(DrSnomedCode), Named(SnomedSystemSct), Named(Constant.DiagnosticReport), Named(Constant.DiagnosticReport))
  }

  function CbcConcept(): Concept
  {
    Coded(Named(DrCbcSnomedCode), Named(SnomedSystemSct), Named(DrCbc), Named(DrCbc))
  }

  function HaemoglobinConcept(): Concept
  {
    Coded(Named(DrHaemoglobinCode), Named(LoincSystem), Named(DrHaemoglobin), Named(DrHaemoglobin))
  }

  function BiopsyHistopathologyConcept(): Concept
  {
    Coded(Named(BiopsyHistopathologySnomedCode), Named(SnomedSystemSct),
          Named(BiopsyHistopathologyReport), Named(BiopsyHistopathologyReport))
  }

  function BioChemistryConcept(): Concept
  {
    Coded(Named(BioChemistrySnomedCode), Named(SnomedSystemSct), Named(BioChemistry), Named(BioChemistry))
  }

  function RenalTestConcept(): Concept
  {
    Coded(Named(RenalTestLoincCode), Named(LoincSystem), Named(BioChemistry), Named(BioChemistry))
  }

  /** The section code `createCoMorbiditiesSection` builds: the name itself stands as the SNOMED code. */
  function CoMorbiditySectionConcept(name: string): Concept
  {
    Coded(Lit(name), Named(SnomedSystemSct), Named(CoMorbiditiesSection), Named(CoMorbiditiesSection))
  }

  /** The section code `createObservationWomenHealthSection` builds: the name itself as the LOINC code. */
  function WomenHealthSectionConcept(name: string): Concept
  {
    Coded(Lit(name), Named(LoincSystem), Named(ObservationWomenHealthSection), Named(ObservationWomenHealthSection))
  }

  /** `getAllergyIntoleranceCode()`. */
  function AllergyIntoleranceSectionConcept(): Concept
  {
    Coded(Named(AllergyIntoleranceCode), Named(SnomedSystemSct), Named(AllergyIntoleranceSection), Named(AllergyIntoleranceSection))
  }

  /** The code `createAllergiesSection` builds from the allergy and hands to the Condition. */
  function AllergyConditionConcept(name: string, kind: string): Concept
  {
    Coded(Named(AllergyIntoleranceCode), Named(SnomedSystemSct), Lit(name), Lit(name + kind))
  }

  function AllergyClinicalStatus(): Concept
  {
    Coded(Named(FhirAllergyIntoleranceClinicalStatusSystem), Named(SnomedSystemSct), LowerNamed(Active), Named(Active))
  }

  function AllergyVerificationStatus(): Concept
  {
    Coded(Named(FhirAllergyIntoleranceVerificationStatusSystem), Named(SnomedSystemSct), LowerNamed(Confirmed), Named(Confirmed))
  }
}
