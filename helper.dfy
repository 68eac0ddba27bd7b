/** `OPConsultationHelper`: builds the OP-consultation document bundle in place. Every method is
    proved to append exactly the entries, and to build exactly the sections, that `Assembly`
    describes. */
module OPConsultation {
  import opened Optional
  import opened Strings
  import Constants
  import opened Fhir
  import opened Codes
  import opened LipidPanel
  import opened ClinicalInput
  import opened Assembly

  /** `Utils.randomBool()`: the outcome of each call, in call order, is given from outside. */
  class Coin {
    const outcomes: nat -> bool
    var calls: nat

    constructor (outcomes: nat -> bool)
      ensures this.outcomes == outcomes && calls == 0
    {
      this.outcomes, calls := outcomes, 0;
    }

    method RandomBool() returns (b: bool)
      modifies this
      ensures b == outcomes(old(calls)) && calls == old(calls) + 1
    {
      b := outcomes(calls);
      calls := calls + 1;
    }
  }

  /** The observable state of a section slot. */
  function ValueOf(s: SectionComponent?): Option<SectionValue>
    reads s
  {
    if s == null then None else Some(SectionValue(s.title, s.code, s.entry))
  }

  function Values(ss: seq<SectionComponent?>): (vs: seq<Option<SectionValue>>)
    reads ss
    ensures |vs| == |ss|
    decreases |ss|
  {
    if ss == [] then [] else Values(ss[..|ss| - 1]) + [ValueOf(ss[|ss| - 1])]
  }

  lemma {:induction false} ValuesConcat(a: seq<SectionComponent?>, b: seq<SectionComponent?>)
    ensures Values(a + b) == Values(a) + Values(b)
    decreases |b|
  {
    if b == [] {
      assert a + b == a;
    } else {
      assert (a + b)[..|a + b| - 1] == a + b[..|b| - 1];
      ValuesConcat(a, b[..|b| - 1]);
    }
  }

  /** The second slot of every pair of `ss` that is non-null: the sections a gated helper
      appended to the composition itself with `addSection()`. */
  function GateSections(ss: seq<SectionComponent?>): seq<SectionComponent?>
    decreases |ss|
  {
    if |ss| < 2 then []
    else GateSections(ss[..|ss| - 2]) + (if ss[|ss| - 1] != null then [ss[|ss| - 1]] else [])
  }

  lemma {:induction false} GateSectionsStep(ss: seq<SectionComponent?>, a: SectionComponent?, b: SectionComponent?)
    ensures GateSections(ss + [a, b]) == GateSections(ss) + (if b != null then [b] else [])
  {
    assert (ss + [a, b])[..|ss|] == ss;
  }

  lemma {:induction false} MergeUpdate(m: map<string, string>, n: map<string, string>, k: string, v: string)
    ensures (m + n)[k := v] == m + n[k := v]
  {
  }

  lemma {:induction false} AppendThree<T>(a: seq<T>, b: seq<T>, c: seq<T>)
    ensures a + b + c == a + (b + c)
  {
  }

  lemma {:induction false} AppendPairs<T>(a: seq<T>, b: seq<T>, c: seq<T>, d: seq<T>)
    ensures (a + b) + (c + d) == a + b + c + d
  {
  }

  /** One category's block: what it appended and the slots it returned come after those of the
      blocks before it. */
  lemma {:induction false} Accumulated(e0: seq<Resource>, b: Built, done: Built, x: Built, mid: seq<Resource>,
                                       now: seq<Resource>, sections: seq<SectionComponent?>, added: seq<SectionComponent?>)
    requires Joins(b, done, x)
    requires mid == e0 + done.entries
    requires now == mid + x.entries
    requires Values(sections) == done.sections
    requires Values(added) == x.sections
    ensures now == e0 + b.entries && Values(sections + added) == b.sections
  {
    ValuesConcat(sections, added);
  }

  lemma {:induction false} HeadAndRest<T>(e: seq<T>, h: T, p: T, rest: seq<T>)
    requires e == [h, p] + rest
    ensures |e| >= 1 && e[0] == h && e[1..] == [p] + rest
  {
  }

  lemma {:induction false} ValuesSingle(s: SectionComponent?)
    ensures Values([s]) == [ValueOf(s)]
  {
    assert [s][..0] == [];
  }

  /** The section's entry list, the bundle's entries and its next identifier, as one value. */
  function State(bundle: Bundle, s: SectionComponent): Filed
    reads bundle, s
  {
    Filed(bundle.entry, s.entry, bundle.issued)
  }

  /** `FHIRUtils.addPatientResourceToComposition`, of which only the appended Patient is modelled. */
  method AddPatientResourceToComposition(bundle: Bundle) returns (patient: Resource)
    requires bundle.Valid()
    modifies bundle
    ensures bundle.Valid()
    ensures patient == Patient(old(bundle.issued))
    ensures bundle.entry == old(bundle.entry) + [patient] && bundle.issued == old(bundle.issued) + 1
  {
    var id := bundle.NewId();
    patient := Patient(id);
    bundle.Add(patient);
  }

  /** `createSectionComponent(title, code)`. */
  method CreateSectionComponent(title: Text, code: Concept) returns (s: SectionComponent)
    ensures fresh(s) && s.title == title && s.code == Some(code) && s.entry == []
  {
    s := new SectionComponent();
    s.title := title;
    s.code := Some(code);
  }

  /** `createDiagnosticReportResource`: a FINAL report about the patient, appended; the returned
      index is where the caller keeps updating it. */
  method CreateDiagnosticReportResource(bundle: Bundle, code: Concept) returns (at: nat)
    requires bundle.Valid()
    modifies bundle
    ensures bundle.Valid()
    ensures at == |old(bundle.entry)|
    ensures bundle.entry == old(bundle.entry) + [ReportFor(old(bundle.issued), code)]
    ensures bundle.issued == old(bundle.issued) + 1
  {
    var id := bundle.NewId();
    at := |bundle.entry|;
    bundle.Add(ReportFor(id, code));
  }

  /** `createConditionResource(code)`: an active Condition with a fresh identifier, not appended. */
  method CreateConditionResource(bundle: Bundle, code: Concept) returns (condition: Resource)
    requires bundle.Valid()
    modifies bundle
    ensures bundle.Valid()
    ensures condition == ConditionFor(old(bundle.issued), code)
    ensures bundle.entry == old(bundle.entry) && bundle.issued == old(bundle.issued) + 1
  {
    var id := bundle.NewId();
    condition := ConditionFor(id, code);
  }

  /** `createObservation(compositionDate, patient)`: a FINAL Observation about the patient at the
      composition's date, with a fresh identifier, not appended. */
  method CreateObservation(bundle: Bundle, compositionDate: Stamp) returns (observation: Resource)
    requires bundle.Valid()
    modifies bundle
    ensures bundle.Valid()
    ensures observation == Observation(old(bundle.issued), Final, Some(ResourceReference), None, NoValue, compositionDate)
    ensures bundle.entry == old(bundle.entry) && bundle.issued == old(bundle.issued) + 1
  {
    var id := bundle.NewId();
    observation := Observation(id, Final, Some(ResourceReference), None, NoValue, compositionDate);
  }

  /** `createDiagnosticReportAndObservation`: the report, then the Observation, appended; the
      report's result references the Observation and the section references the report. */
  method CreateDiagnosticReportAndObservation(bundle: Bundle, composition: Composition, section: SectionComponent,
                                              diagnosticReportCode: Concept, unit: Text, value: Amount,
                                              observationCode: Concept)
    requires bundle.Valid()
    modifies bundle, section
    ensures bundle.Valid()
    ensures Extends(State(bundle, section), old(State(bundle, section)),
                      FilePlans([Measured(diagnosticReportCode, observationCode, unit, value, composition.date)],
                                old(bundle.issued)))
    ensures section.title == old(section.title) && section.code == old(section.code)
  {
    ghost var e0, k := bundle.entry, bundle.issued;
    var at := CreateDiagnosticReportResource(bundle, diagnosticReportCode);
    var observation := CreateObservation(bundle, composition.date);
    observation := observation.(code := Some(observationCode), value := Quantity(value, unit));
    bundle.Add(observation);
    ghost var report := ReportFor(k, diagnosticReportCode);
    assert bundle.entry == e0 + [report, observation];
    assert at == |e0| && bundle.entry[at] == report;
    bundle.AddResult(at, RefOf(observation));
    assert bundle.entry[at] == MeasuredReport(k, diagnosticReportCode);
    assert bundle.entry[at + 1] == observation;
    assert bundle.entry == e0 + [MeasuredReport(k, diagnosticReportCode), observation];
    section.entry := section.entry + [RefOf(bundle.entry[at])];
    FileSingle(Measured(diagnosticReportCode, observationCode, unit, value, composition.date), k);
  }

  /** The helper, holding the indicator-to-LOINC map. The `@PostConstruct` hook `init` runs once,
      right after construction, so the constructor applies it and the map stays fixed afterwards. */
  class OPConsultationHelper {
    const indicatorLoincCodeMap: map<string, string>
    /** The `switch` tables of the indicator, co-morbidity and women's-health lookups. */
    const switches: Switches

    constructor ()
      ensures indicatorLoincCodeMap == IndicatorLoincCodes() && switches == SourceSwitches()
    {
      var m := Init(map[]);
      indicatorLoincCodeMap := m;
      switches := SourceSwitches();
    }

    /** `init`: the eleven lower-cased indicator keys put into `m0` with their LOINC codes. */
    static method Init(m0: map<string, string>) returns (m: map<string, string>)
      ensures m == m0 + IndicatorLoincCodes()
    {
      m := m0;
      ghost var put: map<string, string> := map[];
      assert m == m0 + put;
      MergeUpdate(m0, put, Lower("2 D ECHO with PASP"), "34552-0");
      m := m[Lower("2 D ECHO with PASP") := "34552-0"];
      put := put[Lower("2 D ECHO with PASP") := "34552-0"];
      MergeUpdate(m0, put, Lower("FDG PETCT"), "81553-0");
      m := m[Lower("FDG PETCT") := "81553-0"];
      put := put[Lower("FDG PETCT") := "81553-0"];
      MergeUpdate(m0, put, Lower("MRI brain"), "24590-2");
      m := m[Lower("MRI brain") := "24590-2"];
      put := put[Lower("MRI brain") := "24590-2"];
      MergeUpdate(m0, put, Lower("Fiber optic bronchoscopy"), "18744-3");
      m := m[Lower("Fiber optic bronchoscopy") := "18744-3"];
      put := put[Lower("Fiber optic bronchoscopy") := "18744-3"];
      MergeUpdate(m0, put, Lower("Endobronchial ultrasound with ROSE reports"), "100231-0");
      m := m[Lower("Endobronchial ultrasound with ROSE reports") := "100231-0"];
      put := put[Lower("Endobronchial ultrasound with ROSE reports") := "100231-0"];
      MergeUpdate(m0, put, Lower("Pulmonary function tests with DLCO"), "58477-1");
      m := m[Lower("Pulmonary function tests with DLCO") := "58477-1"];
      put := put[Lower("Pulmonary function tests with DLCO") := "58477-1"];
      MergeUpdate(m0, put, Lower("V/Q scan in pneumonectomy"), "39942-8");
      m := m[Lower("V/Q scan in pneumonectomy") := "39942-8"];
      put := put[Lower("V/Q scan in pneumonectomy") := "39942-8"];
      MergeUpdate(m0, put, Lower("6MWT"), "64098-7");
      m := m[Lower("6MWT") := "64098-7"];
      put := put[Lower("6MWT") := "64098-7"];
      MergeUpdate(m0, put, Lower("Molecular markers/NGS as needed"), "73977-1");
      m := m[Lower("Molecular markers/NGS as needed") := "73977-1"];
      put := put[Lower("Molecular markers/NGS as needed") := "73977-1"];
      MergeUpdate(m0, put, Lower("FNAC report"), "87179-8");
      m := m[Lower("FNAC report") := "87179-8"];
      put := put[Lower("FNAC report") := "87179-8"];
      MergeUpdate(m0, put, Lower("CECT head neck thorax report/ PET Ct/ MRI"), "24627-2");
      m := m[Lower("CECT head neck thorax report/ PET Ct/ MRI") := "24627-2"];
      put := put[Lower("CECT head neck thorax report/ PET Ct/ MRI") := "24627-2"];
    }

    /** `createOPConsultationBundle`: the header first; with clinical data, the patient and the
        sections of `createCancerModuleSections`, which become the header's section list. */
    method CreateOPConsultationBundle(docDate: Date, clinicalData: Option<ClinicalData>, coin: Coin)
      returns (bundle: Bundle)
      modifies coin
      ensures fresh(bundle) && bundle.Valid() && bundle.timestamp == docDate
      ensures |bundle.entry| >= 1 && bundle.entry[0].Header? && fresh(bundle.entry[0].doc)
      ensures var doc := bundle.entry[0].doc;
              && doc.id == 0 && doc.date == At(docDate) && doc.language == Constants.EnIn && doc.status == Final
              && doc.docType == OPConsultationType() && doc.title == CompositionDocumentTitle()
      ensures clinicalData.None? ==>
                && |bundle.entry| == 1 && bundle.issued == 1 && bundle.entry[0].doc.section == []
                && coin.calls == old(coin.calls)
      ensures clinicalData.Some? ==>
                var B := Assembled(switches, clinicalData.value, coin.outcomes, old(coin.calls), 2, At(docDate), indicatorLoincCodeMap);
                && bundle.entry[1..] == [Patient(1)] + B.entries && bundle.issued == 2 + B.used
                && Values(bundle.entry[0].doc.section) == B.sections
                && coin.calls == old(coin.calls) + Draws(clinicalData.value)
    {
      var opDoc;
      bundle, opDoc := CreateHeader(docDate);
      if clinicalData.Some? {
        AddClinicalData(bundle, opDoc, clinicalData.value, coin, old(coin.calls), At(docDate));
      }
    }

    /** The bundle with the OP-consultation Composition as its one entry. */
    method CreateHeader(docDate: Date) returns (bundle: Bundle, opDoc: Composition)
      ensures fresh(bundle) && fresh(opDoc) && bundle.Valid() && bundle.timestamp == docDate
      ensures bundle.entry == [Header(opDoc)] && bundle.issued == 1
      ensures opDoc.id == 0 && opDoc.date == At(docDate) && opDoc.language == Constants.EnIn && opDoc.status == Final
      ensures opDoc.docType == OPConsultationType() && opDoc.title == CompositionDocumentTitle() && opDoc.section == []
    {
      bundle := new Bundle(docDate);
      var id := bundle.NewId();
      opDoc := new Composition(id, At(bundle.timestamp), Constants.EnIn, Final, OPConsultationType(),
                               CompositionDocumentTitle());
      bundle.Add(Header(opDoc));
    }

    /** The patient, then the sections of `createCancerModuleSections` set as the header's list. */
    method AddClinicalData(bundle: Bundle, opDoc: Composition, clinicalData: ClinicalData, coin: Coin, ghost g: nat,
                           ghost date: Stamp)
      requires bundle.Valid() && bundle.entry == [Header(opDoc)] && bundle.issued == 1 && coin.calls == g
      requires opDoc.date == date
      modifies bundle, opDoc, coin
      ensures bundle.Valid()
      ensures var B := Assembled(switches, clinicalData, coin.outcomes, g, 2, date, indicatorLoincCodeMap);
              && |bundle.entry| >= 1 && bundle.entry[0] == Header(opDoc)
              && bundle.entry[1..] == [Patient(1)] + B.entries && bundle.issued == 2 + B.used
              && Values(opDoc.section) == B.sections
              && coin.calls == g + Draws(clinicalData)
    {
      var patient := AddPatientResourceToComposition(bundle);
      assert bundle.entry == [Header(opDoc), Patient(1)];
      var sections; ghost var b;
      sections, b := CreateCancerModuleSections(bundle, opDoc, clinicalData, coin, g, 2);
      ghost var vs := Values(sections);
      opDoc.section := sections;
      assert Values(opDoc.section) == vs;
      HeadAndRest(bundle.entry, Header(opDoc), Patient(1), b.entries);
    }

    /** `createCancerModuleSections`: the sections of the six categories in fixed order. The
        sections that gated helpers added to `opDoc` with `addSection()` are exactly the non-null
        second slots of the co-morbidity and women's-health pairs. */
    method CreateCancerModuleSections(bundle: Bundle, opDoc: Composition, clinicalData: ClinicalData, coin: Coin,
                                      ghost g: nat, ghost k: Id)
      returns (sections: seq<SectionComponent?>, ghost b: Built)
      requires bundle.Valid() && coin.calls == g && bundle.issued == k
      modifies bundle, opDoc, coin
      ensures bundle.Valid()
      ensures b == Assembled(switches, clinicalData, coin.outcomes, g, k, opDoc.date, indicatorLoincCodeMap)
      ensures bundle.entry == old(bundle.entry) + b.entries && bundle.issued == k + b.used
      ensures Values(sections) == b.sections
      ensures coin.calls == g + Draws(clinicalData)
      ensures |sections| == SlotCount(clinicalData)
    {
      ghost var e0, m := bundle.entry, indicatorLoincCodeMap;
      var reports; ghost var h;
      reports, h := FileReportBlocks(bundle, opDoc, clinicalData, coin, g, k, m);
      ghost var mid := bundle.entry;
      var comAdded, womAdded, allergies; ghost var x;
      ghost var g2, k2 := g + DiagnosticDraws(clinicalData), k + h.used;
      comAdded, womAdded, allergies, x := FileListBlocks(bundle, opDoc, clinicalData, coin, g2, k2);
      AssembledOfParts(switches, clinicalData, coin.outcomes, g, k, opDoc.date, m, h, x, g2, k2);
      b := Assembled(switches, clinicalData, coin.outcomes, g, k, opDoc.date, m);
      Accumulated(e0, b, h, x, mid, bundle.entry, reports, comAdded + (womAdded + allergies));
      sections := reports + (comAdded + (womAdded + allergies));
    }

    /** The diagnostic, oral-cancer and lung-cancer blocks of `createCancerModuleSections`, the
        draws counted from `g`, the identifiers from `k`. */
    method FileReportBlocks(bundle: Bundle, opDoc: Composition, clinicalData: ClinicalData, coin: Coin,
                            ghost g: nat, ghost k: Id, ghost m: map<string, string>)
      returns (sections: seq<SectionComponent?>, ghost b: Built)
      requires bundle.Valid() && coin.calls == g && bundle.issued == k && m == indicatorLoincCodeMap
      modifies bundle, coin
      ensures bundle.Valid()
      ensures b == Reports(switches, clinicalData, coin.outcomes, g, k, opDoc.date, m)
      ensures bundle.entry == old(bundle.entry) + b.entries && bundle.issued == k + b.used
      ensures Values(sections) == b.sections
      ensures coin.calls == g + DiagnosticDraws(clinicalData)
      ensures |sections| == ReportSlots(clinicalData)
    {
      ghost var e0 := bundle.entry;
      var diagnostic; ghost var d;
      diagnostic, d := FileDiagnosticBlock(bundle, opDoc, clinicalData, coin, g, k, m);
      ghost var mid := bundle.entry;
      var histories; ghost var r;
      ghost var k2 := k + d.used;
      histories, r := FileHistoryBlocks(bundle, clinicalData, k2, m);
      ReportsOfParts(switches, clinicalData, coin.outcomes, g, k, opDoc.date, m, d, r, k2);
      b := Reports(switches, clinicalData, coin.outcomes, g, k, opDoc.date, m);
      Accumulated(e0, b, d, r, mid, bundle.entry, diagnostic, histories);
      sections := diagnostic + histories;
    }

    /** The oral-cancer and lung-cancer blocks. */
    method FileHistoryBlocks(bundle: Bundle, clinicalData: ClinicalData, ghost k: Id, ghost m: map<string, string>)
      returns (sections: seq<SectionComponent?>, ghost b: Built)
      requires bundle.Valid() && bundle.issued == k && m == indicatorLoincCodeMap
      modifies bundle
      ensures bundle.Valid()
      ensures b == Histories(switches, clinicalData, k, m)
      ensures bundle.entry == old(bundle.entry) + b.entries && bundle.issued == k + b.used
      ensures Values(sections) == b.sections
      ensures |sections| == (if clinicalData.oralCancer.Some? then 1 else 0) + (if clinicalData.lungCancer.Some? then 1 else 0)
    {
      ghost var e0 := bundle.entry;
      var oral; ghost var o;
      oral, o := FileHistoryBlock(bundle, OralCancer, clinicalData.oralCancer, k, m);
      ghost var mid := bundle.entry;
      var lung; ghost var l;
      ghost var k2 := k + o.used;
      lung, l := FileHistoryBlock(bundle, LungCancer, clinicalData.lungCancer, k2, m);
      HistoriesOfParts(switches, clinicalData, k, m, o, l, k2);
      b := Histories(switches, clinicalData, k, m);
      Accumulated(e0, b, o, l, mid, bundle.entry, oral, lung);
      sections := oral + lung;
    }

    /** The co-morbidity, women's-health and allergy blocks of `createCancerModuleSections`. */
    method FileListBlocks(bundle: Bundle, opDoc: Composition, clinicalData: ClinicalData, coin: Coin,
                          ghost g: nat, ghost k: Id)
      returns (comAdded: seq<SectionComponent?>, womAdded: seq<SectionComponent?>, allergies: seq<SectionComponent?>,
               ghost b: Built)
      requires bundle.Valid() && coin.calls == g && bundle.issued == k
      modifies bundle, opDoc, coin
      ensures bundle.Valid()
      ensures b == Lists(switches, clinicalData, coin.outcomes, g, k)
      ensures bundle.entry == old(bundle.entry) + b.entries && bundle.issued == k + b.used
      ensures Values(comAdded + (womAdded + allergies)) == b.sections
      ensures coin.calls == g + Length(clinicalData.coMorbidities) + Length(clinicalData.observationWomenHealth)
      ensures |comAdded| == 2 * Length(clinicalData.coMorbidities)
      ensures |womAdded| == 2 * Length(clinicalData.observationWomenHealth)
      ensures |allergies| == Length(clinicalData.allergyIntolerance)
      ensures opDoc.section == old(opDoc.section) + GateSections(comAdded) + GateSections(womAdded)
    {
      ghost var e0 := bundle.entry;
      ghost var c;
      comAdded, c := FileCoMorbidityBlock(bundle, opDoc, clinicalData, coin, g, k);
      ghost var mid := bundle.entry;
      ghost var r;
      ghost var g2, k2 := g + Length(clinicalData.coMorbidities), k + c.used;
      womAdded, allergies, r := FileLaterBlocks(bundle, opDoc, clinicalData, coin, g2, k2);
      ListsOfParts(switches, clinicalData, coin.outcomes, g, k, c, r, g2, k2);
      b := Lists(switches, clinicalData, coin.outcomes, g, k);
      Accumulated(e0, b, c, r, mid, bundle.entry, comAdded, womAdded + allergies);
    }

    /** The women's-health and allergy blocks. */
    method FileLaterBlocks(bundle: Bundle, opDoc: Composition, clinicalData: ClinicalData, coin: Coin,
                           ghost g: nat, ghost k: Id)
      returns (womAdded: seq<SectionComponent?>, allergies: seq<SectionComponent?>, ghost b: Built)
      requires bundle.Valid() && coin.calls == g && bundle.issued == k
      modifies bundle, opDoc, coin
      ensures bundle.Valid()
      ensures b == LaterLists(switches, clinicalData, coin.outcomes, g, k)
      ensures bundle.entry == old(bundle.entry) + b.entries && bundle.issued == k + b.used
      ensures Values(womAdded + allergies) == b.sections
      ensures coin.calls == g + Length(clinicalData.observationWomenHealth)
      ensures |womAdded| == 2 * Length(clinicalData.observationWomenHealth)
      ensures |allergies| == Length(clinicalData.allergyIntolerance)
      ensures opDoc.section == old(opDoc.section) + GateSections(womAdded)
    {
      ghost var e0 := bundle.entry;
      ghost var w;
      womAdded, w := FileWomenHealthBlock(bundle, opDoc, clinicalData, coin, g, k);
      ghost var mid := bundle.entry;
      ghost var a;
      ghost var k2 := k + w.used;
      allergies, a := FileAllergyBlock(bundle, clinicalData, k2);
      LaterListsOfParts(switches, clinicalData, coin.outcomes, g, k, w, a, k2);
      b := LaterLists(switches, clinicalData, coin.outcomes, g, k);
      Accumulated(e0, b, w, a, mid, bundle.entry, womAdded, allergies);
    }

    /** The diagnostic block of `createCancerModuleSections`: the one slot of
        `createDiagnosticReportSection`, if the input has a diagnostic. */
    method FileDiagnosticBlock(bundle: Bundle, opDoc: Composition, clinicalData: ClinicalData, coin: Coin,
                               ghost g: nat, ghost k: Id, ghost m: map<string, string>)
      returns (added: seq<SectionComponent?>, ghost b: Built)
      requires bundle.Valid() && coin.calls == g && bundle.issued == k && m == indicatorLoincCodeMap
      modifies bundle, coin
      ensures bundle.Valid()
      ensures b == DiagnosticPart(clinicalData, coin.outcomes, g, k, opDoc.date, m)
      ensures bundle.entry == old(bundle.entry) + b.entries && bundle.issued == k + b.used
      ensures Values(added) == b.sections
      ensures coin.calls == g + DiagnosticDraws(clinicalData)
      ensures |added| == DiagnosticDraws(clinicalData)
    {
      added, b := [], Nothing;
      if clinicalData.diagnostic.Some? {
        var s := CreateDiagnosticReportSection(bundle, opDoc, clinicalData.diagnostic.value, coin);
        ValuesSingle(s);
        added := [s];
        b := DiagnosticBuilt(clinicalData.diagnostic.value, coin.outcomes(g), k, opDoc.date, m);
      }
    }

    /** The oral- or lung-cancer block of `createCancerModuleSections`: one slot, if the input
        has the indicator map. */
    method FileHistoryBlock(bundle: Bundle, cancer: Cancer, items: Option<IndicatorEntries>,
                            ghost k: Id, ghost m: map<string, string>)
      returns (added: seq<SectionComponent?>, ghost b: Built)
      requires bundle.Valid() && bundle.issued == k && m == indicatorLoincCodeMap
      modifies bundle
      ensures bundle.Valid()
      ensures b == HistoryPart(switches, cancer, items, k, m)
      ensures bundle.entry == old(bundle.entry) + b.entries && bundle.issued == k + b.used
      ensures Values(added) == b.sections
      ensures |added| == (if items.Some? then 1 else 0)
    {
      added, b := [], Nothing;
      if items.Some? {
        var s := CreateCancerHistorySection(bundle, cancer, items.value);
        ValuesSingle(s);
        added := [s];
        b := HistoryBuilt(switches, cancer, items.value, k, m);
      }
    }

    /** The co-morbidity block of `createCancerModuleSections`. */
    method FileCoMorbidityBlock(bundle: Bundle, opDoc: Composition, clinicalData: ClinicalData, coin: Coin,
                                ghost g: nat, ghost k: Id)
      returns (added: seq<SectionComponent?>, ghost b: Built)
      requires bundle.Valid() && coin.calls == g && bundle.issued == k
      modifies bundle, opDoc, coin
      ensures bundle.Valid()
      ensures b == CoMorbidityPart(switches, clinicalData.coMorbidities, coin.outcomes, g, k)
      ensures bundle.entry == old(bundle.entry) + b.entries && bundle.issued == k + b.used
      ensures Values(added) == b.sections
      ensures coin.calls == g + Length(clinicalData.coMorbidities)
      ensures |added| == 2 * Length(clinicalData.coMorbidities)
      ensures opDoc.section == old(opDoc.section) + GateSections(added)
    {
      added, b := [], Nothing;
      if clinicalData.coMorbidities.Some? {
        added := CreateCoMorbiditySections(bundle, opDoc, clinicalData.coMorbidities.value, coin);
        b := CoMorbidityBuilt(switches, clinicalData.coMorbidities.value, coin.outcomes, g, k);
      }
    }

    /** The women's-health block of `createCancerModuleSections`. */
    method FileWomenHealthBlock(bundle: Bundle, opDoc: Composition, clinicalData: ClinicalData, coin: Coin,
                                ghost g: nat, ghost k: Id)
      returns (added: seq<SectionComponent?>, ghost b: Built)
      requires bundle.Valid() && coin.calls == g && bundle.issued == k
      modifies bundle, opDoc, coin
      ensures bundle.Valid()
      ensures b == WomenHealthPart(switches, clinicalData.observationWomenHealth, coin.outcomes, g, k)
      ensures bundle.entry == old(bundle.entry) + b.entries && bundle.issued == k + b.used
      ensures Values(added) == b.sections
      ensures coin.calls == g + Length(clinicalData.observationWomenHealth)
      ensures |added| == 2 * Length(clinicalData.observationWomenHealth)
      ensures opDoc.section == old(opDoc.section) + GateSections(added)
    {
      added, b := [], Nothing;
      if clinicalData.observationWomenHealth.Some? {
        added := CreateObservationWomenHealthSections(bundle, opDoc, clinicalData.observationWomenHealth.value, coin);
        b := WomenHealthBuilt(switches, clinicalData.observationWomenHealth.value, coin.outcomes, g, k);
      }
    }

    /** The allergy block of `createCancerModuleSections`. */
    method FileAllergyBlock(bundle: Bundle, clinicalData: ClinicalData, ghost k: Id)
      returns (added: seq<SectionComponent?>, ghost b: Built)
      requires bundle.Valid() && bundle.issued == k
      modifies bundle
      ensures bundle.Valid()
      ensures b == AllergyPart(clinicalData.allergyIntolerance, k)
      ensures bundle.entry == old(bundle.entry) + b.entries && bundle.issued == k + b.used
      ensures Values(added) == b.sections
      ensures |added| == Length(clinicalData.allergyIntolerance)
    {
      added, b := [], Nothing;
      if clinicalData.allergyIntolerance.Some? {
        added := CreateAllergySections(bundle, clinicalData.allergyIntolerance.value);
        b := AllergyBuilt(clinicalData.allergyIntolerance.value, k);
      }
    }

    /** The oral- or lung-cancer block: the medical-history section with its Condition, then one
        reference per indicator entry, in iteration order. */
    method CreateCancerHistorySection(bundle: Bundle, cancer: Cancer, items: IndicatorEntries)
      returns (section: SectionComponent)
      requires bundle.Valid()
      modifies bundle
      ensures bundle.Valid() && fresh(section)
      ensures var B := HistoryBuilt(switches, cancer, items, old(bundle.issued), indicatorLoincCodeMap);
              && bundle.entry == old(bundle.entry) + B.entries && bundle.issued == old(bundle.issued) + B.used
              && [ValueOf(section)] == B.sections
    {
      var m := indicatorLoincCodeMap;
      ghost var k, e0 := bundle.issued, bundle.entry;
      ghost var condition := ConditionFor(k, CancerCondition(cancer));
      if cancer.OralCancer? {
        section := CreateMedicalHistorySection(bundle, Constants.OralCancerCode, Constants.OralCancer);
      } else {
        section := CreateMedicalHistorySection(bundle, Constants.LungCancerCode, Constants.LungCancer);
      }
      ghost var s1 := State(bundle, section);
      assert s1 == Filed(e0 + [condition], [RefTo(ConditionKind, Some(k))], k + 1);
      FileIndicators(bundle, section, cancer, items);
      ghost var f := FilePlans(IndicatorPlans(switches, cancer, items, m), k + 1);
      AppendThree(e0, [condition], f.entries);
      assert ValueOf(section) == Some(HistorySectionValue([RefTo(ConditionKind, Some(k))] + f.refs));
    }

    /** The loop over the indicator map, in iteration order. */
    method FileIndicators(bundle: Bundle, section: SectionComponent, cancer: Cancer, items: IndicatorEntries)
      requires bundle.Valid()
      modifies bundle, section
      ensures bundle.Valid()
      ensures Extends(State(bundle, section), old(State(bundle, section)),
                        FilePlans(IndicatorPlans(switches, cancer, items, indicatorLoincCodeMap), old(bundle.issued)))
      ensures section.title == old(section.title) && section.code == old(section.code)
    {
      var m := indicatorLoincCodeMap;
      ghost var s1 := State(bundle, section);
      ghost var done: seq<ReportPlan> := [];
      ExtendsNothing(s1, s1.used);
      var i := 0;
      while i < |items|
        invariant 0 <= i <= |items|
        invariant bundle.Valid()
        invariant section.title == old(section.title) && section.code == old(section.code)
        invariant done == IndicatorPlans(switches, cancer, items[..i], m)
        invariant Extends(State(bundle, section), s1, FilePlans(done, s1.used))
      {
        ghost var before := State(bundle, section);
        FileIndicator(bundle, section, cancer, items[i]);
        ghost var next := [IndicatorPlan(switches, cancer, items[i].0, items[i].1, m)];
        FiledInTurn(s1, before, State(bundle, section), done, next);
        IndicatorPlansStep(switches, cancer, items, i, m);
        done := done + next;
        i := i + 1;
      }
      assert items[..i] == items;
    }

    /** One turn of the indicator loop: the report of `getOralCancerReports` or
        `getLungCancerReports`, and its reference (`null` for a rejected indicator) in the section. */
    method FileIndicator(bundle: Bundle, section: SectionComponent, cancer: Cancer, detail: (string, string))
      requires bundle.Valid()
      modifies bundle, section
      ensures bundle.Valid()
      ensures Extends(State(bundle, section), old(State(bundle, section)),
                        FilePlans([IndicatorPlan(switches, cancer, detail.0, detail.1, indicatorLoincCodeMap)], old(bundle.issued)))
      ensures section.title == old(section.title) && section.code == old(section.code)
    {
      var report;
      if cancer.OralCancer? {
        report := GetOralCancerReports(bundle, detail);
      } else {
        report := GetLungCancerReports(bundle, detail);
      }
      section.entry := section.entry + [ReferenceTo(report)];
    }

    /** `createMedicalHistorySection`: the Condition of the cancer type is appended and the
        medical-history section references it. */
    method CreateMedicalHistorySection(bundle: Bundle, loincCode: Constants.Constant, cancerType: Constants.Constant)
      returns (section: SectionComponent)
      requires bundle.Valid()
      modifies bundle
      ensures bundle.Valid() && fresh(section)
      ensures bundle.entry == old(bundle.entry) + [ConditionFor(old(bundle.issued), CancerConditionConcept(loincCode, cancerType))]
      ensures bundle.issued == old(bundle.issued) + 1
      ensures section.title == Named(Constants.MedicalHistory) && section.code == Some(MedicalHistoryConcept())
      ensures section.entry == [RefTo(ConditionKind, Some(old(bundle.issued)))]
    {
      section := CreateSectionComponent(Named(Constants.MedicalHistory), MedicalHistoryConcept());
      var condition := CreateConditionResource(bundle, CancerConditionConcept(loincCode, cancerType));
      bundle.Add(condition);
      section.entry := section.entry + [RefOf(condition)];
    }

    /** `getLungCancerReports`: a report for the nine allowed lower-cased indicators, else `null`
        and nothing appended. */
    method GetLungCancerReports(bundle: Bundle, detail: (string, string)) returns (report: Option<Resource>)
      requires bundle.Valid()
      modifies bundle
      ensures bundle.Valid()
      ensures report.Some? <==> switches.lungCancer(Lower(detail.0))
      ensures var f := FilePlans([IndicatorPlan(switches, LungCancer, detail.0, detail.1, indicatorLoincCodeMap)],
                                 old(bundle.issued));
              && bundle.entry == old(bundle.entry) + f.entries && bundle.issued == old(bundle.issued) + f.used
              && [ReferenceTo(report)] == f.refs
    {
      var lungCancerIndicator := Lower(detail.0);
      if switches.lungCancer(lungCancerIndicator) {
        var r := CreateDiagnosticReport(bundle, detail.0, detail.1, lungCancerIndicator);
        report := Some(r);
      } else {
        report := None;
      }
    }

    /** `getOralCancerReports`: a report for the two allowed lower-cased indicators, else `null`
        and nothing appended. */
    method GetOralCancerReports(bundle: Bundle, detail: (string, string)) returns (report: Option<Resource>)
      requires bundle.Valid()
      modifies bundle
      ensures bundle.Valid()
      ensures report.Some? <==> switches.oralCancer(Lower(detail.0))
      ensures var f := FilePlans([IndicatorPlan(switches, OralCancer, detail.0, detail.1, indicatorLoincCodeMap)],
                                 old(bundle.issued));
              && bundle.entry == old(bundle.entry) + f.entries && bundle.issued == old(bundle.issued) + f.used
              && [ReferenceTo(report)] == f.refs
    {
      var oralCancerIndicator := Lower(detail.0);
      if switches.oralCancer(oralCancerIndicator) {
        var r := CreateDiagnosticReport(bundle, detail.0, detail.1, oralCancerIndicator);
        report := Some(r);
      } else {
        report := None;
      }
    }

    /** `createDiagnosticReport`: one FINAL report appended, coded from the map entry of the
        lower-cased indicator, whose one result references a DocumentReference that is not appended
        and whose type is looked up with the indicator as written. */
    method CreateDiagnosticReport(bundle: Bundle, reportType: string, reportValue: string, indicator: string)
      returns (report: Resource)
      requires bundle.Valid()
      modifies bundle
      ensures bundle.Valid()
      ensures report == AttachedReport(old(bundle.issued), ReportCode(indicatorLoincCodeMap, reportType, indicator),
                                       DocumentTypeCode(indicatorLoincCodeMap, Lit(reportType)), Lit(reportType),
                                       reportValue, Lit(reportType + " report"))
      ensures bundle.entry == old(bundle.entry) + [report] && bundle.issued == old(bundle.issued) + 1
    {
      var code := ReportCode(indicatorLoincCodeMap, reportType, indicator);
      var at := CreateDiagnosticReportResource(bundle, code);
      var documentReference := CreateDocumentReferenceResource(Lit(reportType), reportValue, Lit(reportType + " report"));
      bundle.AddResult(at, RefOf(documentReference));
      report := bundle.entry[at];
    }

    /** `createDocumentReferenceResource`: the type is the map entry of `reportType` as given. */
    method CreateDocumentReferenceResource(reportType: Text, reportValue: string, reportName: Text)
      returns (documentReference: Resource)
      ensures documentReference
              == DocumentReferenceFor(DocumentTypeCode(indicatorLoincCodeMap, reportType), reportType, reportValue, reportName)
    {
      documentReference := DocumentReferenceFor(DocumentTypeCode(indicatorLoincCodeMap, reportType), reportType,
                                                reportValue, reportName);
    }

    /** The attachment block of `createDiagnosticReportSection` (biopsy, lipid profile, renal
        test): a report appended whose result references a DocumentReference that is not, and a
        reference to the report in the section. */
    method CreateAttachedReport(bundle: Bundle, section: SectionComponent, code: Concept, reportType: Text,
                                reportValue: string, reportName: Text)
      requires bundle.Valid()
      modifies bundle, section
      ensures bundle.Valid()
      ensures Extends(State(bundle, section), old(State(bundle, section)),
                        FilePlans([Attached(code, DocumentTypeCode(indicatorLoincCodeMap, reportType), reportType,
                                            reportValue, reportName)], old(bundle.issued)))
      ensures section.title == old(section.title) && section.code == old(section.code)
    {
      ghost var e0, k := bundle.entry, bundle.issued;
      var at := CreateDiagnosticReportResource(bundle, code);
      var documentReference := CreateDocumentReferenceResource(reportType, reportValue, reportName);
      bundle.AddResult(at, RefOf(documentReference));
      ghost var typeCode := DocumentTypeCode(indicatorLoincCodeMap, reportType);
      assert bundle.entry[at] == AttachedReport(k, code, typeCode, reportType, reportValue, reportName);
      assert bundle.entry == e0 + [bundle.entry[at]];
      section.entry := section.entry + [RefOf(bundle.entry[at])];
      FileSingle(Attached(code, typeCode, reportType, reportValue, reportName), k);
    }

    /** `createDiagnosticReportSection`: `null` when the gate fires; otherwise the CBC, biopsy,
        lipid-profile and renal reports, in that order. */
    method CreateDiagnosticReportSection(bundle: Bundle, composition: Composition, diagnostic: Diagnostic, coin: Coin)
      returns (section: SectionComponent?)
      requires bundle.Valid()
      modifies bundle, coin
      ensures bundle.Valid()
      ensures var B := DiagnosticBuilt(diagnostic, coin.outcomes(old(coin.calls)), old(bundle.issued), composition.date,
                                       indicatorLoincCodeMap);
              && bundle.entry == old(bundle.entry) + B.entries && bundle.issued == old(bundle.issued) + B.used
              && [ValueOf(section)] == B.sections
      ensures coin.calls == old(coin.calls) + 1
      ensures section != null ==> fresh(section)
    {
      var gate := coin.RandomBool();
      if gate {
        return null;
      }
      var m := indicatorLoincCodeMap;
      var date := composition.date;
      var s := CreateSectionComponent(Named(Constants.DiagnosticReports), DiagnosticReportSectionConcept());
      ghost var s0 := State(bundle, s);
      ghost var cbc, biopsy := CbcPlans(diagnostic, date), BiopsyPlans(diagnostic, m);
      ghost var bio := LipidPlans(diagnostic, date, m) + RenalPlans(diagnostic, m);
      FileCbcReport(bundle, composition, s, diagnostic);
      ghost var s1 := State(bundle, s);
      FileBiopsyReport(bundle, s, diagnostic);
      FiledInTurn(s0, s1, State(bundle, s), cbc, biopsy);
      ghost var s2 := State(bundle, s);
      FileBioChemistryReports(bundle, composition, s, diagnostic);
      FiledInTurn(s0, s2, State(bundle, s), cbc + biopsy, bio);
      AppendPairs(cbc, biopsy, LipidPlans(diagnostic, date, m), RenalPlans(diagnostic, m));
      ghost var f := FilePlans(DiagnosticPlans(diagnostic, date, m), s0.used);
      assert Extends(State(bundle, s), s0, f);
      assert s.entry == [] + f.refs == f.refs;
      assert ValueOf(s) == Some(DiagnosticSectionValue(f.refs));
      section := s;
    }

    /** The haemoglobin block of `createDiagnosticReportSection`. */
    method FileCbcReport(bundle: Bundle, composition: Composition, section: SectionComponent, diagnostic: Diagnostic)
      requires bundle.Valid()
      modifies bundle, section
      ensures bundle.Valid()
      ensures Extends(State(bundle, section), old(State(bundle, section)), FilePlans(CbcPlans(diagnostic, composition.date), old(bundle.issued)))
      ensures section.title == old(section.title) && section.code == old(section.code)
    {
      if diagnostic.cbc.Some? && diagnostic.cbc.value.hemoglobin.Some? {
        CreateDiagnosticReportAndObservation(bundle, composition, section, CbcConcept(), Named(Constants.GramPerDeciliter),
                                             diagnostic.cbc.value.hemoglobin.value, HaemoglobinConcept());
      } else {
        ExtendsNothing(State(bundle, section), bundle.issued);
      }
    }

    /** The biopsy block of `createDiagnosticReportSection`. */
    method FileBiopsyReport(bundle: Bundle, section: SectionComponent, diagnostic: Diagnostic)
      requires bundle.Valid()
      modifies bundle, section
      ensures bundle.Valid()
      ensures Extends(State(bundle, section), old(State(bundle, section)), FilePlans(BiopsyPlans(diagnostic, indicatorLoincCodeMap), old(bundle.issued)))
      ensures section.title == old(section.title) && section.code == old(section.code)
    {
      if diagnostic.biopsyHistopathologyReport.Some? {
        CreateAttachedReport(bundle, section, BiopsyHistopathologyConcept(), Named(Constants.BiopsyHistopathology),
                             diagnostic.biopsyHistopathologyReport.value, Named(Constants.BiopsyHistopathology));
      } else {
        ExtendsNothing(State(bundle, section), bundle.issued);
      }
    }

    /** The bio-chemistry block of `createDiagnosticReportSection`: the lipid profile, then the
        renal test. */
    method FileBioChemistryReports(bundle: Bundle, composition: Composition, section: SectionComponent,
                                   diagnostic: Diagnostic)
      requires bundle.Valid()
      modifies bundle, section
      ensures bundle.Valid()
      ensures Extends(State(bundle, section), old(State(bundle, section)),
                        FilePlans(LipidPlans(diagnostic, composition.date, indicatorLoincCodeMap)
                                  + RenalPlans(diagnostic, indicatorLoincCodeMap), old(bundle.issued)))
      ensures section.title == old(section.title) && section.code == old(section.code)
    {
      ghost var s0 := State(bundle, section);
      if diagnostic.bioChemistry.Some? {
        var bioChemistry := diagnostic.bioChemistry.value;
        if bioChemistry.lipidProfile.Some? {
          FileLipidProfileReports(bundle, composition, section, diagnostic);
        } else {
          ExtendsNothing(s0, s0.used);
        }
        ghost var s1 := State(bundle, section);
        FileRenalReport(bundle, section, diagnostic);
        FiledInTurn(s0, s1, State(bundle, section), LipidPlans(diagnostic, composition.date, indicatorLoincCodeMap),
                    RenalPlans(diagnostic, indicatorLoincCodeMap));
      } else {
        ExtendsNothing(s0, s0.used);
        assert LipidPlans(diagnostic, composition.date, indicatorLoincCodeMap) == [];
        assert RenalPlans(diagnostic, indicatorLoincCodeMap) == [];
      }
    }

    /** The renal-test block of `createDiagnosticReportSection`: a report only for a non-blank
        attachment. */
    method FileRenalReport(bundle: Bundle, section: SectionComponent, diagnostic: Diagnostic)
      requires bundle.Valid()
      modifies bundle, section
      ensures bundle.Valid()
      ensures Extends(State(bundle, section), old(State(bundle, section)), FilePlans(RenalPlans(diagnostic, indicatorLoincCodeMap), old(bundle.issued)))
      ensures section.title == old(section.title) && section.code == old(section.code)
    {
      if diagnostic.bioChemistry.Some? && diagnostic.bioChemistry.value.renalFunction.Some?
         && IsNotBlank(diagnostic.bioChemistry.value.renalFunction.value.attachment) {
        CreateAttachedReport(bundle, section, RenalTestConcept(), Named(Constants.RenalTest),
                             diagnostic.bioChemistry.value.renalFunction.value.attachment.value, Named(Constants.RenalTest));
      } else {
        ExtendsNothing(State(bundle, section), bundle.issued);
      }
    }

    /** The lipid-profile block of `createDiagnosticReportSection`: the attachment when it is not
        blank, else the discrete tests when there are any. */
    method FileLipidProfileReports(bundle: Bundle, composition: Composition, section: SectionComponent,
                                   diagnostic: Diagnostic)
      requires bundle.Valid()
      requires diagnostic.bioChemistry.Some? && diagnostic.bioChemistry.value.lipidProfile.Some?
      modifies bundle, section
      ensures bundle.Valid()
      ensures Extends(State(bundle, section), old(State(bundle, section)),
                        FilePlans(LipidPlans(diagnostic, composition.date, indicatorLoincCodeMap), old(bundle.issued)))
      ensures section.title == old(section.title) && section.code == old(section.code)
    {
      var lipidProfile := diagnostic.bioChemistry.value.lipidProfile.value;
      if IsNotBlank(lipidProfile.attachment) {
        CreateAttachedReport(bundle, section, BioChemistryConcept(), Named(Constants.LipidProfile),
                             lipidProfile.attachment.value, Named(Constants.LipidProfile));
      } else if lipidProfile.lipidTests.Some? && |lipidProfile.lipidTests.value| > 0 {
        FileLipidTests(bundle, composition, section, lipidProfile.lipidTests.value);
      } else {
        ExtendsNothing(State(bundle, section), bundle.issued);
      }
    }

    /** The loop over the discrete lipid tests, each name lower-cased before matching. */
    method FileLipidTests(bundle: Bundle, composition: Composition, section: SectionComponent, tests: seq<Test>)
      requires bundle.Valid()
      modifies bundle, section
      ensures bundle.Valid()
      ensures Extends(State(bundle, section), old(State(bundle, section)), FilePlans(TestsPlans(tests, composition.date), old(bundle.issued)))
      ensures section.title == old(section.title) && section.code == old(section.code)
    {
      ghost var s0 := State(bundle, section);
      ghost var date := composition.date;
      ghost var done: seq<ReportPlan> := [];
      ExtendsNothing(s0, s0.used);
      var i := 0;
      while i < |tests|
        invariant 0 <= i <= |tests|
        invariant bundle.Valid()
        invariant section.title == old(section.title) && section.code == old(section.code)
        invariant done == TestsPlans(tests[..i], date)
        invariant Extends(State(bundle, section), s0, FilePlans(done, s0.used))
      {
        var testName := Lower(tests[i].testName);
        ghost var next := TestPlans(tests[i], date);
        ghost var before := State(bundle, section);
        CreateLipidProfileObservation(bundle, composition, section, tests[i], testName);
        FiledInTurn(s0, before, State(bundle, section), done, next);
        TestsPlansStep(tests, i, date);
        done := done + next;
        i := i + 1;
      }
      assert tests[..i] == tests;
    }

    /** `createLipidProfileObservation`: each of the eight tests on the lower-cased name that
        passes files one report with its Observation. */
    method CreateLipidProfileObservation(bundle: Bundle, composition: Composition, section: SectionComponent,
                                         lipidTest: Test, testName: string)
      requires bundle.Valid()
      modifies bundle, section
      ensures bundle.Valid()
      ensures Extends(State(bundle, section), old(State(bundle, section)),
                      FilePlans(Measurements(LipidMatches(testName), lipidTest, composition.date), old(bundle.issued)))
      ensures section.title == old(section.title) && section.code == old(section.code)
    {
      ghost var s0 := State(bundle, section);
      FileFourTests(bundle, composition, section, lipidTest,
                    StartsWith(testName, "total"), TotalCholesterol, StartsWith(testName, "hdl"), HdlCholesterol,
                    StartsWith(testName, "ldl"), LdlCholesterol, StartsWith(testName, "vldl"), VldlCholesterol);
      ghost var s1 := State(bundle, section);
      FileFourTests(bundle, composition, section, lipidTest,
                    testName == "triglycerides", Triglycerides, testName == "triglycerides fasting", TriglyceridesFasting,
                    testName == "fasting duration", FastingDuration, testName == "fasting status", FastingStatus);
      FiledInTurn(s0, s1, State(bundle, section), Measurements(PrefixMatches(testName), lipidTest, composition.date),
                  Measurements(ExactMatches(testName), lipidTest, composition.date));
      MeasurementsConcat(PrefixMatches(testName), ExactMatches(testName), lipidTest, composition.date);
    }

    /** Four consecutive `if`s of `createLipidProfileObservation` (the prefix tests, or the equality
        tests). */
    method FileFourTests(bundle: Bundle, composition: Composition, section: SectionComponent, lipidTest: Test,
                         fa: bool, a: LipidTerm, fb: bool, b: LipidTerm, fc: bool, c: LipidTerm, fd: bool, d: LipidTerm)
      requires bundle.Valid()
      modifies bundle, section
      ensures bundle.Valid()
      ensures Extends(State(bundle, section), old(State(bundle, section)),
                      FilePlans(Measurements(Passed(fa, a, fb, b, fc, c, fd, d), lipidTest, composition.date),
                                old(bundle.issued)))
      ensures section.title == old(section.title) && section.code == old(section.code)
    {
      ghost var date := composition.date;
      ghost var pa, pb := Measurements(if fa then [a] else [], lipidTest, date), Measurements(if fb then [b] else [], lipidTest, date);
      ghost var pc, pd := Measurements(if fc then [c] else [], lipidTest, date), Measurements(if fd then [d] else [], lipidTest, date);
      ghost var s0 := State(bundle, section);
      FileTerm(bundle, composition, section, lipidTest, fa, a);
      ghost var s1 := State(bundle, section);
      FileTerm(bundle, composition, section, lipidTest, fb, b);
      ghost var s2 := State(bundle, section);
      FiledInTurn(s0, s1, s2, pa, pb);
      FileTerm(bundle, composition, section, lipidTest, fc, c);
      ghost var s3 := State(bundle, section);
      FiledInTurn(s0, s2, s3, pa + pb, pc);
      FileTerm(bundle, composition, section, lipidTest, fd, d);
      FiledInTurn(s0, s3, State(bundle, section), pa + pb + pc, pd);
      MeasurePassed(fa, a, fb, b, fc, c, fd, d, lipidTest, date);
    }

    /** One `if` of `createLipidProfileObservation`: when its test passes, the report of the term
        and its Observation are filed. */
    method FileTerm(bundle: Bundle, composition: Composition, section: SectionComponent, lipidTest: Test,
                    fires: bool, term: LipidTerm)
      requires bundle.Valid()
      modifies bundle, section
      ensures bundle.Valid()
      ensures Extends(State(bundle, section), old(State(bundle, section)),
                      FilePlans(Measurements(if fires then [term] else [], lipidTest, composition.date), old(bundle.issued)))
      ensures section.title == old(section.title) && section.code == old(section.code)
    {
      if fires {
        var code := LipidConcept(term);
        CreateDiagnosticReportAndObservation(bundle, composition, section, code, Lit(lipidTest.unitOfMeasurement),
                                             lipidTest.result, code);
        assert Measurements([term], lipidTest, composition.date) == [MeasuredTerm(term, lipidTest, composition.date)];
      } else {
        ExtendsNothing(State(bundle, section), bundle.issued);
      }
    }

    /** The co-morbidity loop: per item a section referencing a new Condition about the patient,
        then the gated section of `createCoMorbiditiesSection`. */
    method CreateCoMorbiditySections(bundle: Bundle, opDoc: Composition, items: seq<CoMorbidity>, coin: Coin)
      returns (added: seq<SectionComponent?>)
      requires bundle.Valid()
      modifies bundle, opDoc, coin
      ensures bundle.Valid()
      ensures var B := CoMorbidityBuilt(switches, items, coin.outcomes, old(coin.calls), old(bundle.issued));
              && bundle.entry == old(bundle.entry) + B.entries && bundle.issued == old(bundle.issued) + B.used
              && Values(added) == B.sections
      ensures coin.calls == old(coin.calls) + |items|
      ensures |added| == 2 * |items| && opDoc.section == old(opDoc.section) + GateSections(added)
    {
      ghost var k := bundle.issued;
      ghost var g := coin.calls;
      ghost var e0 := bundle.entry;
      ghost var s0 := opDoc.section;
      ghost var b := Nothing;
      added := [];
      var i := 0;
      while i < |items|
        invariant 0 <= i <= |items| && bundle.Valid()
        invariant coin.calls == g + i && |added| == 2 * i
        invariant b == CoMorbidityBuilt(switches, items[..i], coin.outcomes, g, k)
        invariant bundle.entry == e0 + b.entries && bundle.issued == k + b.used && Values(added) == b.sections
        invariant opDoc.section == s0 + GateSections(added)
      {
        added, b := CoMorbidityTurn(bundle, opDoc, items, i, coin, added, e0, g, k, s0, b);
        i := i + 1;
      }
      assert items[..i] == items;
    }

    /** Turn `i` of the loop of `createCoMorbiditySections`: the state after the first `i` items becomes the
        state after the first `i + 1`. */
    method CoMorbidityTurn(bundle: Bundle, opDoc: Composition, items: seq<CoMorbidity>, i: nat, coin: Coin,
                  added: seq<SectionComponent?>, ghost e0: seq<Resource>, ghost g: nat, ghost k: Id,
                  ghost s0: seq<SectionComponent?>, ghost b: Built)
      returns (next: seq<SectionComponent?>, ghost c: Built)
      requires i < |items| && bundle.Valid()
      requires coin.calls == g + i && |added| == 2 * i
      requires b == CoMorbidityBuilt(switches, items[..i], coin.outcomes, g, k)
      requires bundle.entry == e0 + b.entries && bundle.issued == k + b.used && Values(added) == b.sections
      requires opDoc.section == s0 + GateSections(added)
      modifies bundle, opDoc, coin
      ensures bundle.Valid()
      ensures coin.calls == g + i + 1 && |next| == 2 * (i + 1)
      ensures c == CoMorbidityBuilt(switches, items[..i + 1], coin.outcomes, g, k)
      ensures bundle.entry == e0 + c.entries && bundle.issued == k + c.used && Values(next) == c.sections
      ensures opDoc.section == s0 + GateSections(next)
    {
      ghost var id, draw := bundle.issued, coin.outcomes(coin.calls);
      var coMorbiditySection, gated := FileCoMorbidity(bundle, opDoc, items[i], coin);
      next := added + [coMorbiditySection, gated];
      ghost var cond := CoMorbidityCondition(switches, id, items[i].name);
      ghost var pair := [Some(CoMorbiditySectionValue(switches, id, items[i].name)), CoMorbidityGateValue(draw, items[i].name)];
      ghost var tail := if gated != null then [gated] else [];
      assert Values(added) == b.sections;
      ValuesConcat(added, [coMorbiditySection, gated]);
      assert Values([coMorbiditySection, gated]) == pair;
      AppendThree(e0, b.entries, [cond]);
      GateSectionsStep(added, coMorbiditySection, gated);
      AppendThree(s0, GateSections(added), tail);
      assert draw == coin.outcomes(g + i);
      CoMorbidityBuiltStep(switches, items, i, coin.outcomes, g, k, b, id);
      c := Built(b.entries + [cond], b.sections + pair, b.used + 1);
    }

    /** One turn of the co-morbidity loop: a section referencing a new Condition coded by the
        name, then the gated section of `createCoMorbiditiesSection`. */
    method FileCoMorbidity(bundle: Bundle, opDoc: Composition, item: CoMorbidity, coin: Coin)
      returns (coMorbiditySection: SectionComponent, gated: SectionComponent?)
      requires bundle.Valid()
      modifies bundle, opDoc, coin
      ensures bundle.Valid()
      ensures bundle.entry == old(bundle.entry) + [CoMorbidityCondition(switches, old(bundle.issued), item.name)]
      ensures bundle.issued == old(bundle.issued) + 1
      ensures ValueOf(coMorbiditySection) == Some(CoMorbiditySectionValue(switches, old(bundle.issued), item.name))
      ensures ValueOf(gated) == CoMorbidityGateValue(coin.outcomes(old(coin.calls)), item.name)
      ensures coin.calls == old(coin.calls) + 1
      ensures fresh(coMorbiditySection) && (gated != null ==> fresh(gated))
      ensures opDoc.section == old(opDoc.section) + (if gated != null then [gated] else [])
    {
      var name := item.name;
      coMorbiditySection := new SectionComponent();
      coMorbiditySection.title := Named(Constants.CoMorbidities);
      coMorbiditySection.code := switches.coMorbidity(name);
      var id := bundle.NewId();
      var condition := Condition(id, Some(PatientPath), None, switches.coMorbidity(name));
      bundle.Add(condition);
      coMorbiditySection.entry := coMorbiditySection.entry + [RefOf(condition)];
      assert coMorbiditySection.entry == [RefTo(ConditionKind, Some(id))];
      gated := CreateCoMorbiditiesSection(opDoc, item, coin);
    }

    /** `createCoMorbiditiesSection`: `null` when the gate fires; otherwise a section added to the
        composition, coded by the name itself. */
    method CreateCoMorbiditiesSection(composition: Composition, coMorbidity: CoMorbidity, coin: Coin)
      returns (section: SectionComponent?)
      modifies composition, coin
      ensures coin.calls == old(coin.calls) + 1
      ensures ValueOf(section) == CoMorbidityGateValue(coin.outcomes(old(coin.calls)), coMorbidity.name)
      ensures section == null ==> composition.section == old(composition.section)
      ensures section != null ==> fresh(section) && composition.section == old(composition.section) + [section]
    {
      var gate := coin.RandomBool();
      if gate {
        return null;
      }
      var s := composition.AddSection();
      s.title := Named(Constants.CoMorbidities);
      s.code := Some(CoMorbiditySectionConcept(coMorbidity.name));
      section := s;
    }

    /** The women's-health loop: per item a section referencing a new Observation of the value,
        then the gated section of `createObservationWomenHealthSection`. */
    method CreateObservationWomenHealthSections(bundle: Bundle, opDoc: Composition, items: seq<ObservationWomenHealth>,
                                                coin: Coin)
      returns (added: seq<SectionComponent?>)
      requires bundle.Valid()
      modifies bundle, opDoc, coin
      ensures bundle.Valid()
      ensures var B := WomenHealthBuilt(switches, items, coin.outcomes, old(coin.calls), old(bundle.issued));
              && bundle.entry == old(bundle.entry) + B.entries && bundle.issued == old(bundle.issued) + B.used
              && Values(added) == B.sections
      ensures coin.calls == old(coin.calls) + |items|
      ensures |added| == 2 * |items| && opDoc.section == old(opDoc.section) + GateSections(added)
    {
      ghost var k := bundle.issued;
      ghost var g := coin.calls;
      ghost var e0 := bundle.entry;
      ghost var s0 := opDoc.section;
      ghost var b := Nothing;
      added := [];
      var i := 0;
      while i < |items|
        invariant 0 <= i <= |items| && bundle.Valid()
        invariant coin.calls == g + i && |added| == 2 * i
        invariant b == WomenHealthBuilt(switches, items[..i], coin.outcomes, g, k)
        invariant bundle.entry == e0 + b.entries && bundle.issued == k + b.used && Values(added) == b.sections
        invariant opDoc.section == s0 + GateSections(added)
      {
        added, b := WomenHealthTurn(bundle, opDoc, items, i, coin, added, e0, g, k, s0, b);
        i := i + 1;
      }
      assert items[..i] == items;
    }

    /** Turn `i` of the loop of `createObservationWomenHealthSections`: the state after the first `i` items becomes the
        state after the first `i + 1`. */
    method WomenHealthTurn(bundle: Bundle, opDoc: Composition, items: seq<ObservationWomenHealth>, i: nat, coin: Coin,
                  added: seq<SectionComponent?>, ghost e0: seq<Resource>, ghost g: nat, ghost k: Id,
                  ghost s0: seq<SectionComponent?>, ghost b: Built)
      returns (next: seq<SectionComponent?>, ghost c: Built)
      requires i < |items| && bundle.Valid()
      requires coin.calls == g + i && |added| == 2 * i
      requires b == WomenHealthBuilt(switches, items[..i], coin.outcomes, g, k)
      requires bundle.entry == e0 + b.entries && bundle.issued == k + b.used && Values(added) == b.sections
      requires opDoc.section == s0 + GateSections(added)
      modifies bundle, opDoc, coin
      ensures bundle.Valid()
      ensures coin.calls == g + i + 1 && |next| == 2 * (i + 1)
      ensures c == WomenHealthBuilt(switches, items[..i + 1], coin.outcomes, g, k)
      ensures bundle.entry == e0 + c.entries && bundle.issued == k + c.used && Values(next) == c.sections
      ensures opDoc.section == s0 + GateSections(next)
    {
      ghost var id, draw := bundle.issued, coin.outcomes(coin.calls);
      var womenHealthSection, gated := FileWomenHealth(bundle, opDoc, items[i], coin);
      next := added + [womenHealthSection, gated];
      ghost var observation := WomenHealthObservation(switches, id, items[i]);
      ghost var pair := [Some(WomenHealthSectionValue(switches, id, items[i].name)), WomenHealthGateValue(draw, items[i].name)];
      ghost var tail := if gated != null then [gated] else [];
      assert Values(added) == b.sections;
      ValuesConcat(added, [womenHealthSection, gated]);
      assert Values([womenHealthSection, gated]) == pair;
      AppendThree(e0, b.entries, [observation]);
      GateSectionsStep(added, womenHealthSection, gated);
      AppendThree(s0, GateSections(added), tail);
      assert draw == coin.outcomes(g + i);
      WomenHealthBuiltStep(switches, items, i, coin.outcomes, g, k, b, id);
      c := Built(b.entries + [observation], b.sections + pair, b.used + 1);
    }

    /** One turn of the women's-health loop: a section referencing a new Observation of the
        value, then the gated section of `createObservationWomenHealthSection`. */
    method FileWomenHealth(bundle: Bundle, opDoc: Composition, item: ObservationWomenHealth, coin: Coin)
      returns (womenHealthSection: SectionComponent, gated: SectionComponent?)
      requires bundle.Valid()
      modifies bundle, opDoc, coin
      ensures bundle.Valid()
      ensures bundle.entry == old(bundle.entry) + [WomenHealthObservation(switches, old(bundle.issued), item)]
      ensures bundle.issued == old(bundle.issued) + 1
      ensures ValueOf(womenHealthSection) == Some(WomenHealthSectionValue(switches, old(bundle.issued), item.name))
      ensures ValueOf(gated) == WomenHealthGateValue(coin.outcomes(old(coin.calls)), item.name)
      ensures coin.calls == old(coin.calls) + 1
      ensures fresh(womenHealthSection) && (gated != null ==> fresh(gated))
      ensures opDoc.section == old(opDoc.section) + (if gated != null then [gated] else [])
    {
      womenHealthSection := new SectionComponent();
      womenHealthSection.title := Named(Constants.ObservationWomenHealth);
      womenHealthSection.code := switches.womenHealth(item.name);
      var id := bundle.NewId();
      var observation := Observation(id, Final, Some(PatientPath), switches.womenHealth(item.name),
                                     StringValue(item.value), Now);
      bundle.Add(observation);
      womenHealthSection.entry := womenHealthSection.entry + [RefOf(observation)];
      assert womenHealthSection.entry == [RefTo(ObservationKind, Some(id))];
      gated := CreateObservationWomenHealthSection(opDoc, item, coin);
    }

    /** `createObservationWomenHealthSection`: `null` when the gate fires; otherwise a section
        added to the composition, coded by the name itself. */
    method CreateObservationWomenHealthSection(composition: Composition, item: ObservationWomenHealth, coin: Coin)
      returns (section: SectionComponent?)
      modifies composition, coin
      ensures coin.calls == old(coin.calls) + 1
      ensures ValueOf(section) == WomenHealthGateValue(coin.outcomes(old(coin.calls)), item.name)
      ensures section == null ==> composition.section == old(composition.section)
      ensures section != null ==> fresh(section) && composition.section == old(composition.section) + [section]
    {
      var gate := coin.RandomBool();
      if gate {
        return null;
      }
      var s := composition.AddSection();
      s.title := Named(Constants.ObservationWomenHealth);
      s.code := Some(WomenHealthSectionConcept(item.name));
      section := s;
    }

    /** The allergy loop: one section per allergy request, in list order. */
    method CreateAllergySections(bundle: Bundle, items: seq<AllergyIntoleranceRequest>)
      returns (added: seq<SectionComponent?>)
      requires bundle.Valid()
      modifies bundle
      ensures bundle.Valid()
      ensures var B := AllergyBuilt(items, old(bundle.issued));
              && bundle.entry == old(bundle.entry) + B.entries && bundle.issued == old(bundle.issued) + B.used
              && Values(added) == B.sections
      ensures |added| == |items|
    {
      ghost var k := bundle.issued;
      ghost var e0 := bundle.entry;
      added := [];
      var i := 0;
      while i < |items|
        invariant 0 <= i <= |items| && bundle.Valid()
        invariant bundle.entry == e0 + AllergyBuilt(items[..i], k).entries
        invariant bundle.issued == k + AllergyBuilt(items[..i], k).used
        invariant Values(added) == AllergyBuilt(items[..i], k).sections && |added| == i
      {
        var s, condition := CreateAllergiesSection(items[i], bundle);
        ValuesConcat(added, [s]);
        added := added + [s];
        assert items[..i + 1][..i] == items[..i];
        i := i + 1;
      }
      assert items[..i] == items;
    }

    /** `createAllergiesSection`: the AllergyIntolerance (first identifier) is appended; the
        section references a Condition (second identifier) coded by the allergy, which is not. */
    method CreateAllergiesSection(allergyDetail: AllergyIntoleranceRequest, bundle: Bundle)
      returns (section: SectionComponent, ghost condition: Resource)
      requires bundle.Valid()
      modifies bundle
      ensures bundle.Valid() && fresh(section)
      ensures bundle.entry == old(bundle.entry) + [AllergyIntoleranceFor(old(bundle.issued))]
      ensures bundle.issued == old(bundle.issued) + 2
      ensures ValueOf(section) == Some(AllergySectionValue(old(bundle.issued) + 1))
      ensures condition == ConditionFor(old(bundle.issued) + 1, AllergyConditionConcept(allergyDetail.name, allergyDetail.allergyType))
      ensures [RefOf(condition)] == section.entry
      ensures forall i :: 0 <= i < |bundle.entry| ==> IdOf(bundle.entry[i]) != IdOf(condition)
    {
      var id := bundle.NewId();
      var allergyIntolerance := AllergyIntolerance(id, AllergyClinicalStatus(), AllergyVerificationStatus(), PatientName);
      var code := AllergyConditionConcept(allergyDetail.name, allergyDetail.allergyType);
      section := CreateSectionComponent(Named(Constants.AllergyIntoleranceSection), AllergyIntoleranceSectionConcept());
      var c := CreateConditionResource(bundle, code);
      condition := c;
      bundle.Add(allergyIntolerance);
      section.entry := section.entry + [RefOf(c)];
      assert RefOf(c) == RefTo(ConditionKind, Some(id + 1));
      assert section.entry == [RefTo(ConditionKind, Some(id + 1))];
      assert section.title == Named(Constants.AllergyIntoleranceSection);
      assert section.code == Some(AllergyIntoleranceSectionConcept());
      assert ValueOf(section) == Some(SectionValue(section.title, section.code, section.entry));
    }
  }
}
