/** The clinical input the assembler reads, reduced to the getters it calls. Every Java
    reference that may be null is an `Option`; a Java `Map` the source iterates is the
    sequence of its entries in iteration order. */
module ClinicalInput {
  import opened Optional
  import opened Fhir

  /** One discrete lipid test: `getTestName()`, `getResult()`, `getUnitOfMeasurement()`. */
  datatype Test = Test(testName: string, result: Amount, unitOfMeasurement: string)

  datatype LipidProfile = LipidProfile(attachment: Option<string>, lipidTests: Option<seq<Test>>)

  datatype RenalFunction = RenalFunction(attachment: Option<string>)

  datatype BioChemistry = BioChemistry(lipidProfile: Option<LipidProfile>, renalFunction: Option<RenalFunction>)

  datatype Cbc = Cbc(hemoglobin: Option<Amount>)

  datatype Diagnostic = Diagnostic(
    cbc: Option<Cbc>,
    biopsyHistopathologyReport: Option<string>,
    bioChemistry: Option<BioChemistry>)

  datatype CoMorbidity = CoMorbidity(name: string)

  datatype ObservationWomenHealth = ObservationWomenHealth(name: string, value: string)

  /** `getName()` and `getType()` of an allergy request. */
  datatype AllergyIntoleranceRequest = AllergyIntoleranceRequest(name: string, allergyType: string)

  /** The indicator-to-report entries of an oral- or lung-cancer map. */
  type IndicatorEntries = seq<(string, string)>

  datatype ClinicalData = ClinicalData(
    diagnostic: Option<Diagnostic>,
    oralCancer: Option<IndicatorEntries>,
    lungCancer: Option<IndicatorEntries>,
    coMorbidities: Option<seq<CoMorbidity>>,
    observationWomenHealth: Option<seq<ObservationWomenHealth>>,
    allergyIntolerance: Option<seq<AllergyIntoleranceRequest>>)
}
