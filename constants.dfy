/** The named constants of the repository's `Constants` class. Their string values are not part of
    this model: each is an opaque name, distinct from every other. */
module Constants {
  datatype Constant =
    | OralCancerCode | OralCancer | LungCancerCode | LungCancer
    | MedicalHistorySnomedCode | MedicalHistorySection | MedicalHistory
    | SnomedSystemSct | LoincSystem
    | CoMorbidities | CoMorbiditiesSection
    | ObservationWomenHealth | ObservationWomenHealthSection
    | DrSnomedCode | DiagnosticReport | DiagnosticReports
    | DrCbcSnomedCode | DrCbc | DrHaemoglobinCode | DrHaemoglobin | GramPerDeciliter
    | BiopsyHistopathologySnomedCode | BiopsyHistopathologyReport | BiopsyHistopathology
    | BioChemistrySnomedCode | BioChemistry | LipidProfile | RenalTestLoincCode | RenalTest
    | CholesterolTotalLoincCode | CholesterolTotalCholesterolInHdlMassRatioInSerumOrPlasma
    | CholesterolHdlLoincCode | CholesterolInHdlMassVolumeInSerumOrPlasma
    | CholesterolLdlLoincCode | CholesterolInLdlMassVolumeInSerumOrPlasmaByCalculation
    | CholesterolVldlLoincCode | CholesterolInVldlMassVolumeInSerumOrPlasmaByCalculation
    | TriglycerideLoincCode | TriglycerideMassVolumeInSerumOrPlasma
    | TriglycerideFastingLoincCode | TriglycerideMassVolumeInSerumOrPlasmaFasting
    | FastingDurationLoincCode | FastingDuration | FastingStatusLoincCode | FastingStatus
    | OpcrSnomedCode | ClinicalConsultationReport | EnIn
    | Active | Confirmed | FhirConditionClinicalStatusSystem
    | FhirAllergyIntoleranceClinicalStatusSystem | FhirAllergyIntoleranceVerificationStatusSystem
    | AllergyIntoleranceCode | AllergyIntoleranceSection
    | HypertensionCode | CoronaryArteryDiseaseCode | ChronicObstructivePulmonaryDiseaseCode | DiabetesMellitusCode
    | PregnancyStatusCode | MenstrualCycleCode | ObstetricHistoryCode | BreastHealthCode
}
