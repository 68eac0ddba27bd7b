/** What assembling one patient's input adds to the bundle and to the section list, stated as
    values. The methods of `OPConsultation` are proved to produce exactly these values; the
    properties of the document are proved about them in `Properties`. */
module Assembly {
  import opened Optional
  import opened Strings
  import Constants
  import opened Fhir
  import opened Codes
  import opened LipidPanel
  import opened ClinicalInput

  /** The observable state of one `Composition.SectionComponent`. */
  datatype SectionValue = SectionValue(title: Text, code: Option<Concept>, entry: seq<Ref>)

  /** One report a section files: a report with an Observation of a measured value
      (`createDiagnosticReportAndObservation`), a report whose result is a DocumentReference
      (`createDiagnosticReport` and the attachment branches), or an indicator the allow-list
      rejects, which files nothing and leaves a `null` report. */
  datatype ReportPlan =
    | Measured(reportCode: Concept, observationCode: Concept, unit: Text, value: Amount, effective: Stamp)
    | Attached(reportCode: Concept, typeCode: Text, reportType: Text, reportValue: string, reportName: Text)
    | Rejected

  /** The entries a run of report plans appends, the references it adds to its section, and the
      number of identifiers it draws. */
  datatype Filed = Filed(entries: seq<Resource>, refs: seq<Ref>, used: nat)

  /** The entries, the section slots (`None` for a `null` slot) and the identifiers drawn. */
  datatype Built = Built(entries: seq<Resource>, sections: seq<Option<SectionValue>>, used: nat)

  const Nothing := Built([], [], 0)

  /** The four `switch` tables the assembler consults: the lung- and oral-cancer indicator lists
      (`getLungCancerReports`, `getOralCancerReports`, on the lower-cased key) and the overridable
      `getCoMorbiditiesCode` and `getObservationWomenHealthCode`. */
  datatype Switches = Switches(lungCancer: string -> bool, oralCancer: string -> bool,
                               coMorbidity: string -> Option<Concept>, womenHealth: string -> Option<Concept>)

  /** The tables as the source defines them. */
  function SourceSwitches(): Switches
  {
    Switches(IsLungCancerIndicator, IsOralCancerIndicator, CoMorbiditiesCode, ObservationWomenHealthCode)
  }

  /** `b` is what `first` built followed by what `rest` built. */
  predicate Joins(b: Built, first: Built, rest: Built)
  {
    b.entries == first.entries + rest.entries && b.sections == first.sections + rest.sections
    && b.used == first.used + rest.used
  }

  function Length<T>(o: Option<seq<T>>): nat
  {
    if o.Some? then |o.value| else 0
  }

  // --- Resource builders -------------------------------------------------------------------

  /** `createDocumentReferenceResource(reportType, reportValue, patient, reportName)`: a current
      DocumentReference about the patient, typed by `typeCode` (the map entry of the un-lowered
      `reportType`), holding one attachment. It is never given an identifier. */
  function DocumentReferenceFor(typeCode: Text, reportType: Text, reportValue: string, reportName: Text): (d: Resource)
    ensures d.DocumentReference? && IdOf(d).None? && RefOf(d) == RefTo(DocumentReferenceKind, None)
    ensures d.status == Current && d.subject == Some(ResourceReference)
    ensures d.docType.Coded? && d.docType.code == typeCode
    ensures d.docType.display == WithReportSuffix(reportType) && d.docType.text == WithReportSuffix(reportType)
    ensures d.content == [Attachment(reportName, reportValue)]
  {
    var docType := Coded(typeCode, Named(Constants.LoincSystem),
                         WithReportSuffix(reportType), WithReportSuffix(reportType));
    DocumentReference(docType, Some(ResourceReference), Current, [Attachment(reportName, reportValue)])
  }

  /** `createDiagnosticReportResource(bundle, patient, code)` before any result is added. */
  function ReportFor(id: Id, code: Concept): (r: Resource)
    ensures r.DiagnosticReport? && r.id == id && r.status == Final && r.reportCode == code
    ensures r.subject == Some(ReferenceToPatient) && r.result == []
  {
    DiagnosticReport(id, Final, code, Some(ReferenceToPatient), [])
  }

  /** A report whose one result references the DocumentReference holding an attachment. */
  function AttachedReport(id: Id, code: Concept, typeCode: Text, reportType: Text, reportValue: string,
                          reportName: Text): Resource
  {
    DiagnosticReport(id, Final, code, Some(ReferenceToPatient),
                     [RefOf(DocumentReferenceFor(typeCode, reportType, reportValue, reportName))])
  }

  /** A report whose one result references the Observation with identifier `id + 1`. */
  function MeasuredReport(id: Id, code: Concept): Resource
  {
    DiagnosticReport(id, Final, code, Some(ReferenceToPatient), [RefTo(ObservationKind, Some(id + 1))])
  }

  /** `createConditionResource(code)`: active, coded, and with no subject. */
  function ConditionFor(id: Id, code: Concept): (c: Resource)
    ensures c.Condition? && c.id == id && c.subject.None?
    ensures c.clinicalStatus == Some(ConditionClinicalStatus()) && c.code == Some(code)
  {
    Condition(id, None, Some(ConditionClinicalStatus()), Some(code))
  }

  /** `createObservation(compositionDate, patient)` with the code and quantity set after it. */
  function MeasuredObservation(id: Id, code: Concept, unit: Text, value: Amount, effective: Stamp): Resource
  {
    Observation(id, Final, Some(ResourceReference), Some(code), Quantity(value, unit), effective)
  }

  // --- Filing reports ----------------------------------------------------------------------

  /** One more plan filed after `f`, its identifiers drawn from `k + f.used` on. */
  function FileStep(f: Filed, p: ReportPlan, k: Id): Filed
  {
    var id := k + f.used;
    match p
    case Measured(rc, oc, unit, v, effective) =>
      Filed(f.entries + [MeasuredReport(id, rc), MeasuredObservation(id + 1, oc, unit, v, effective)],
            f.refs + [RefTo(DiagnosticReportKind, Some(id))], f.used + 2)
    case Attached(rc, typeCode, reportType, reportValue, reportName) =>
      Filed(f.entries + [AttachedReport(id, rc, typeCode, reportType, reportValue, reportName)],
            f.refs + [RefTo(DiagnosticReportKind, Some(id))], f.used + 1)
    case Rejected =>
      Filed(f.entries, f.refs + [NullTarget], f.used)
  }

  /** `r` is `f` continued by `g`: `g`'s entries and references after `f`'s, and both counts of
      identifiers. */
  predicate Extends(r: Filed, f: Filed, g: Filed)
  {
    r.entries == f.entries + g.entries && r.refs == f.refs + g.refs && r.used == f.used + g.used
  }

  function FilePlans(ps: seq<ReportPlan>, k: Id): Filed
    decreases |ps|
  {
    if ps == [] then Filed([], [], 0)
    else FileStep(FilePlans(ps[..|ps| - 1], k), ps[|ps| - 1], k)
  }

  lemma {:induction false} FileOne(ps: seq<ReportPlan>, p: ReportPlan, k: Id)
    ensures FilePlans(ps + [p], k) == FileStep(FilePlans(ps, k), p, k)
  {
    assert (ps + [p])[..|ps|] == ps;
  }

  lemma {:induction false} FileSingle(p: ReportPlan, k: Id)
    ensures FilePlans([p], k) == FileStep(Filed([], [], 0), p, k)
  {
    assert [p][..0] == [];
  }

  lemma {:induction false} FileStepExtends(r: Filed, f: Filed, g: Filed, p: ReportPlan, k: Id)
    requires Extends(r, f, g)
    ensures Extends(FileStep(r, p, k), f, FileStep(g, p, k + f.used))
  {
    var id := k + r.used;
    assert id == (k + f.used) + g.used;
    match p
    case Measured(_, _, _, _, _) =>
      var two := [MeasuredReport(id, p.reportCode), MeasuredObservation(id + 1, p.observationCode, p.unit, p.value, p.effective)];
      assert r.entries + two == f.entries + (g.entries + two);
      assert r.refs + [RefTo(DiagnosticReportKind, Some(id))] == f.refs + (g.refs + [RefTo(DiagnosticReportKind, Some(id))]);
    case Attached(_, _, _, _, _) =>
      var one := [AttachedReport(id, p.reportCode, p.typeCode, p.reportType, p.reportValue, p.reportName)];
      assert r.entries + one == f.entries + (g.entries + one);
      assert r.refs + [RefTo(DiagnosticReportKind, Some(id))] == f.refs + (g.refs + [RefTo(DiagnosticReportKind, Some(id))]);
    case Rejected =>
      assert r.refs + [NullTarget] == f.refs + (g.refs + [NullTarget]);
  }

  /** Filing `a` and then `b` is filing `a + b`, `b`'s identifiers following `a`'s. */
  lemma {:induction false} FilePlansConcat(a: seq<ReportPlan>, b: seq<ReportPlan>, k: Id)
    ensures Extends(FilePlans(a + b, k), FilePlans(a, k), FilePlans(b, k + FilePlans(a, k).used))
    decreases |b|
  {
    var fa := FilePlans(a, k);
    if b == [] {
      assert a + b == a;
      assert fa.entries + [] == fa.entries && fa.refs + [] == fa.refs;
    } else {
      var b' := b[..|b| - 1];
      var x := b[|b| - 1];
      assert b == b' + [x];
      assert a + b == (a + b') + [x];
      FileOne(a + b', x, k);
      FilePlansConcat(a, b', k);
      FileStepExtends(FilePlans(a + b', k), fa, FilePlans(b', k + fa.used), x, k);
      FileOne(b', x, k + fa.used);
    }
  }

  /** Continuing `s` by `f` and then by `g` is continuing it by `f` followed by `g`. */
  lemma {:induction false} ExtendsInTurn(s: Filed, mid: Filed, end: Filed, f: Filed, g: Filed, fg: Filed)
    requires Extends(mid, s, f) && Extends(end, mid, g) && Extends(fg, f, g)
    ensures Extends(end, s, fg)
  {
    assert s.entries + f.entries + g.entries == s.entries + (f.entries + g.entries);
    assert s.refs + f.refs + g.refs == s.refs + (f.refs + g.refs);
  }

  /** A state `mid` reached by filing `a` from `s`, and then `end` reached by filing `b`, is the
      state reached by filing `a + b`. */
  lemma {:induction false} FiledInTurn(s: Filed, mid: Filed, end: Filed, a: seq<ReportPlan>, b: seq<ReportPlan>)
    requires Extends(mid, s, FilePlans(a, s.used))
    requires Extends(end, mid, FilePlans(b, mid.used))
    ensures Extends(end, s, FilePlans(a + b, s.used))
  {
    FilePlansConcat(a, b, s.used);
    ExtendsInTurn(s, mid, end, FilePlans(a, s.used), FilePlans(b, mid.used), FilePlans(a + b, s.used));
  }

  /** Filing nothing leaves a state as it is. */
  lemma {:induction false} ExtendsNothing(s: Filed, k: Id)
    ensures Extends(s, s, FilePlans([], k))
  {
    assert s.entries + [] == s.entries && s.refs + [] == s.refs;
  }

  // --- The diagnostic section --------------------------------------------------------------

  /** The haemoglobin report, when both `cbc` and its haemoglobin are present. */
  function CbcPlans(d: Diagnostic, date: Stamp): seq<ReportPlan>
  {
    if d.cbc.Some? && d.cbc.value.hemoglobin.Some? then
      [Measured(CbcConcept(), HaemoglobinConcept(), Named(Constants.GramPerDeciliter), d.cbc.value.hemoglobin.value, date)]
    else []
  }

  /** The biopsy report, when a histopathology report is present (with no blankness check). */
  function BiopsyPlans(d: Diagnostic, m: map<string, string>): seq<ReportPlan>
  {
    if d.biopsyHistopathologyReport.Some? then
      [Attached(BiopsyHistopathologyConcept(), DocumentTypeCode(m, Named(Constants.BiopsyHistopathology)),
                Named(Constants.BiopsyHistopathology),
                d.biopsyHistopathologyReport.value, Named(Constants.BiopsyHistopathology))]
    else []
  }

  /** The report of one matcher term: the term's code for both the report and the Observation,
      with the test's unit and result. */
  function MeasuredTerm(x: LipidTerm, t: Test, date: Stamp): ReportPlan
  {
    Measured(LipidConcept(x), LipidConcept(x), Lit(t.unitOfMeasurement), t.result, date)
  }

  /** The reports of one lipid test: one per matcher term. */
  function Measurements(terms: seq<LipidTerm>, t: Test, date: Stamp): (ps: seq<ReportPlan>)
    ensures |ps| == |terms|
    ensures forall i :: 0 <= i < |terms| ==> ps[i] == MeasuredTerm(terms[i], t, date)
  {
    seq(|terms|, i requires 0 <= i < |terms| => MeasuredTerm(terms[i], t, date))
  }

  lemma {:induction false} MeasurementsConcat(x: seq<LipidTerm>, y: seq<LipidTerm>, t: Test, date: Stamp)
    ensures Measurements(x + y, t, date) == Measurements(x, t, date) + Measurements(y, t, date)
  {
    var l, r := Measurements(x + y, t, date), Measurements(x, t, date) + Measurements(y, t, date);
    assert |l| == |r|;
    forall i | 0 <= i < |l| ensures l[i] == r[i]
    {
      if i < |x| {
        assert (x + y)[i] == x[i];
      } else {
        assert (x + y)[i] == y[i - |x|];
      }
    }
  }

  /** The reports of the terms among `a`, `b`, `c`, `d` that passed are those of each passed term
      in turn. */
  lemma {:induction false} MeasurePassed(fa: bool, a: LipidTerm, fb: bool, b: LipidTerm, fc: bool, c: LipidTerm,
                                         fd: bool, d: LipidTerm, t: Test, date: Stamp)
    ensures Measurements(Passed(fa, a, fb, b, fc, c, fd, d), t, date)
            == Measurements(if fa then [a] else [], t, date) + Measurements(if fb then [b] else [], t, date)
               + Measurements(if fc then [c] else [], t, date) + Measurements(if fd then [d] else [], t, date)
  {
    var ta, tb, tc, td := if fa then [a] else [], if fb then [b] else [], if fc then [c] else [], if fd then [d] else [];
    MeasurementsConcat(ta + tb + tc, td, t, date);
    MeasurementsConcat(ta + tb, tc, t, date);
    MeasurementsConcat(ta, tb, t, date);
  }

  function TestPlans(t: Test, date: Stamp): seq<ReportPlan>
  {
    Measurements(LipidMatches(Lower(t.testName)), t, date)
  }

  /** The reports of a list of lipid tests, test by test in list order. */
  function TestsPlans(ts: seq<Test>, date: Stamp): seq<ReportPlan>
    decreases |ts|
  {
    if ts == [] then [] else TestsPlans(ts[..|ts| - 1], date) + TestPlans(ts[|ts| - 1], date)
  }

  lemma {:induction false} TestsPlansStep(ts: seq<Test>, i: nat, date: Stamp)
    requires i < |ts|
    ensures TestsPlans(ts[..i + 1], date) == TestsPlans(ts[..i], date) + TestPlans(ts[i], date)
  {
    assert ts[..i + 1][..i] == ts[..i];
  }

  /** The lipid-profile reports: one attached report for a non-blank attachment, otherwise the
      reports of the discrete tests. */
  function LipidPlans(d: Diagnostic, date: Stamp, m: map<string, string>): seq<ReportPlan>
  {
    if d.bioChemistry.Some? && d.bioChemistry.value.lipidProfile.Some? then
      var lp := d.bioChemistry.value.lipidProfile.value;
      if IsNotBlank(lp.attachment) then
        [Attached(BioChemistryConcept(), DocumentTypeCode(m, Named(Constants.LipidProfile)), Named(Constants.LipidProfile),
                  lp.attachment.value, Named(Constants.LipidProfile))]
      else if lp.lipidTests.Some? && |lp.lipidTests.value| > 0 then TestsPlans(lp.lipidTests.value, date)
      else []
    else []
  }

  /** The renal report, for a non-blank attachment only. */
  function RenalPlans(d: Diagnostic, m: map<string, string>): seq<ReportPlan>
  {
    if d.bioChemistry.Some? && d.bioChemistry.value.renalFunction.Some?
       && IsNotBlank(d.bioChemistry.value.renalFunction.value.attachment) then
      [Attached(RenalTestConcept(), DocumentTypeCode(m, Named(Constants.RenalTest)), Named(Constants.RenalTest),
                d.bioChemistry.value.renalFunction.value.attachment.value, Named(Constants.RenalTest))]
    else []
  }

  function DiagnosticPlans(d: Diagnostic, date: Stamp, m: map<string, string>): seq<ReportPlan>
  {
    CbcPlans(d, date) + BiopsyPlans(d, m) + LipidPlans(d, date, m) + RenalPlans(d, m)
  }

  function DiagnosticSectionValue(refs: seq<Ref>): SectionValue
  {
    SectionValue(Named(Constants.DiagnosticReports), Some(DiagnosticReportSectionConcept()), refs)
  }

  /** `createDiagnosticReportSection`: nothing and a `null` slot when the gate fires. */
  function DiagnosticBuilt(d: Diagnostic, gate: bool, k: Id, date: Stamp, m: map<string, string>): Built
  {
    if gate then Built([], [None], 0)
    else
      var f := FilePlans(DiagnosticPlans(d, date, m), k);
      Built(f.entries, [Some(DiagnosticSectionValue(f.refs))], f.used)
  }

  // --- The oral- and lung-cancer history sections ------------------------------------------

  datatype Cancer = OralCancer | LungCancer

  predicate Accepts(sw: Switches, c: Cancer, indicator: string)
  {
    if c.OralCancer? then sw.oralCancer(indicator) else sw.lungCancer(indicator)
  }

  /** `getOralCancerReports` / `getLungCancerReports` for one map entry. */
  function IndicatorPlan(sw: Switches, c: Cancer, key: string, value: string, m: map<string, string>): ReportPlan
  {
    var indicator := Lower(key);
    if Accepts(sw, c, indicator) then
      Attached(ReportCode(m, key, indicator), DocumentTypeCode(m, Lit(key)), Lit(key), value, Lit(key + " report"))
    else Rejected
  }

  function IndicatorPlans(sw: Switches, c: Cancer, items: IndicatorEntries, m: map<string, string>): seq<ReportPlan>
    decreases |items|
  {
    if items == [] then []
    else IndicatorPlans(sw, c, items[..|items| - 1], m) + [IndicatorPlan(sw, c, items[|items| - 1].0, items[|items| - 1].1, m)]
  }

  lemma {:induction false} IndicatorPlansStep(sw: Switches, c: Cancer, items: IndicatorEntries, i: nat, m: map<string, string>)
    requires i < |items|
    ensures IndicatorPlans(sw, c, items[..i + 1], m)
            == IndicatorPlans(sw, c, items[..i], m) + [IndicatorPlan(sw, c, items[i].0, items[i].1, m)]
  {
    assert items[..i + 1][..i] == items[..i];
  }

  function CancerCondition(c: Cancer): Concept
  {
    if c.OralCancer? then CancerConditionConcept(Constants.OralCancerCode, Constants.OralCancer)
    else CancerConditionConcept(Constants.LungCancerCode, Constants.LungCancer)
  }

  function HistorySectionValue(refs: seq<Ref>): SectionValue
  {
    SectionValue(Named(Constants.MedicalHistory), Some(MedicalHistoryConcept()), refs)
  }

  /** `createMedicalHistorySection` and the loop over the indicator map: the condition first, then
      one reference per map entry. */
  function HistoryBuilt(sw: Switches, c: Cancer, items: IndicatorEntries, k: Id, m: map<string, string>): Built
  {
    var f := FilePlans(IndicatorPlans(sw, c, items, m), k + 1);
    Built([ConditionFor(k, CancerCondition(c))] + f.entries,
          [Some(HistorySectionValue([RefTo(ConditionKind, Some(k))] + f.refs))], 1 + f.used)
  }

  // --- Co-morbidities, women's health, allergies -------------------------------------------

  function CoMorbidityCondition(sw: Switches, id: Id, name: string): Resource
  {
    Condition(id, Some(PatientPath), None, sw.coMorbidity(name))
  }

  function CoMorbiditySectionValue(sw: Switches, id: Id, name: string): SectionValue
  {
    SectionValue(Named(Constants.CoMorbidities), sw.coMorbidity(name), [RefTo(ConditionKind, Some(id))])
  }

  /** `createCoMorbiditiesSection`: a `null` slot when the gate fires, else an entry-less section. */
  function CoMorbidityGateValue(gate: bool, name: string): Option<SectionValue>
  {
    if gate then None else Some(SectionValue(Named(Constants.CoMorbidities), Some(CoMorbiditySectionConcept(name)), []))
  }

  /** The co-morbidity loop: per item one Condition and two slots; the `g`-th draw onwards gate them. */
  function CoMorbidityBuilt(sw: Switches, items: seq<CoMorbidity>, draw: nat -> bool, g: nat, k: Id): Built
    decreases |items|
  {
    if items == [] then Nothing
    else
      var prev := CoMorbidityBuilt(sw, items[..|items| - 1], draw, g, k);
      var name := items[|items| - 1].name;
      var id := k + prev.used;
      Built(prev.entries + [CoMorbidityCondition(sw, id, name)],
            prev.sections + [Some(CoMorbiditySectionValue(sw, id, name)), CoMorbidityGateValue(draw(g + |items| - 1), name)],
            prev.used + 1)
  }

  /** One more item: its entry and its two slots come after those of the items before it. */
  lemma {:induction false} CoMorbidityBuiltStep(sw: Switches, items: seq<CoMorbidity>, i: nat, draw: nat -> bool, g: nat, k: Id, prev: Built, id: Id)
    requires i < |items|
    requires prev == CoMorbidityBuilt(sw, items[..i], draw, g, k) && id == k + prev.used
    ensures CoMorbidityBuilt(sw, items[..i + 1], draw, g, k)
            == Built(prev.entries + [CoMorbidityCondition(sw, id, items[i].name)],
                     prev.sections + [Some(CoMorbiditySectionValue(sw, id, items[i].name)), CoMorbidityGateValue(draw(g + i), items[i].name)],
                     prev.used + 1)
  {
    assert items[..i + 1][..i] == items[..i];
  }

  function WomenHealthObservation(sw: Switches, id: Id, item: ObservationWomenHealth): Resource
  {
    Observation(id, Final, Some(PatientPath), sw.womenHealth(item.name), StringValue(item.value), Now)
  }

  function WomenHealthSectionValue(sw: Switches, id: Id, name: string): SectionValue
  {
    SectionValue(Named(Constants.ObservationWomenHealth), sw.womenHealth(name), [RefTo(ObservationKind, Some(id))])
  }

  /** `createObservationWomenHealthSection`. */
  function WomenHealthGateValue(gate: bool, name: string): Option<SectionValue>
  {
    if gate then None
    else Some(SectionValue(Named(Constants.ObservationWomenHealth), Some(WomenHealthSectionConcept(name)), []))
  }

  function WomenHealthBuilt(sw: Switches, items: seq<ObservationWomenHealth>, draw: nat -> bool, g: nat, k: Id): Built
    decreases |items|
  {
    if items == [] then Nothing
    else
      var prev := WomenHealthBuilt(sw, items[..|items| - 1], draw, g, k);
      var item := items[|items| - 1];
      var id := k + prev.used;
      Built(prev.entries + [WomenHealthObservation(sw, id, item)],
            prev.sections + [Some(WomenHealthSectionValue(sw, id, item.name)), WomenHealthGateValue(draw(g + |items| - 1), item.name)],
            prev.used + 1)
  }

  /** One more item: its entry and its two slots come after those of the items before it. */
  lemma {:induction false} WomenHealthBuiltStep(sw: Switches, items: seq<ObservationWomenHealth>, i: nat, draw: nat -> bool, g: nat, k: Id, prev: Built, id: Id)
    requires i < |items|
    requires prev == WomenHealthBuilt(sw, items[..i], draw, g, k) && id == k + prev.used
    ensures WomenHealthBuilt(sw, items[..i + 1], draw, g, k)
            == Built(prev.entries + [WomenHealthObservation(sw, id, items[i])],
                     prev.sections + [Some(WomenHealthSectionValue(sw, id, items[i].name)), WomenHealthGateValue(draw(g + i), items[i].name)],
                     prev.used + 1)
  {
    assert items[..i + 1][..i] == items[..i];
  }

  function AllergyIntoleranceFor(id: Id): Resource
  {
    AllergyIntolerance(id, AllergyClinicalStatus(), AllergyVerificationStatus(), PatientName)
  }

  /** `createAllergiesSection`'s section: it references the Condition with identifier `conditionId`. */
  function AllergySectionValue(conditionId: Id): SectionValue
  {
    SectionValue(Named(Constants.AllergyIntoleranceSection), Some(AllergyIntoleranceSectionConcept()),
                 [RefTo(ConditionKind, Some(conditionId))])
  }

  /** The allergy loop: per item the AllergyIntolerance (first identifier) is filed, while the
      section references the Condition (second identifier), which is not. */
  function AllergyBuilt(items: seq<AllergyIntoleranceRequest>, k: Id): Built
    decreases |items|
  {
    if items == [] then Nothing
    else
      var prev := AllergyBuilt(items[..|items| - 1], k);
      var id := k + prev.used;
      Built(prev.entries + [AllergyIntoleranceFor(id)], prev.sections + [Some(AllergySectionValue(id + 1))], prev.used + 2)
  }

  // --- The whole document ------------------------------------------------------------------

  function DiagnosticPart(cd: ClinicalData, draw: nat -> bool, g: nat, k: Id, date: Stamp, m: map<string, string>): Built
  {
    if cd.diagnostic.Some? then DiagnosticBuilt(cd.diagnostic.value, draw(g), k, date, m) else Nothing
  }

  function HistoryPart(sw: Switches, c: Cancer, items: Option<IndicatorEntries>, k: Id, m: map<string, string>): Built
  {
    if items.Some? then HistoryBuilt(sw, c, items.value, k, m) else Nothing
  }

  function CoMorbidityPart(sw: Switches, items: Option<seq<CoMorbidity>>, draw: nat -> bool, g: nat, k: Id): Built
  {
    if items.Some? then CoMorbidityBuilt(sw, items.value, draw, g, k) else Nothing
  }

  function WomenHealthPart(sw: Switches, items: Option<seq<ObservationWomenHealth>>, draw: nat -> bool, g: nat, k: Id): Built
  {
    if items.Some? then WomenHealthBuilt(sw, items.value, draw, g, k) else Nothing
  }

  function AllergyPart(items: Option<seq<AllergyIntoleranceRequest>>, k: Id): Built
  {
    if items.Some? then AllergyBuilt(items.value, k) else Nothing
  }

  /** How many `randomBool` draws the categories before co-morbidities and before women's health use. */
  function DiagnosticDraws(cd: ClinicalData): nat
  {
    if cd.diagnostic.Some? then 1 else 0
  }

  /** How many section slots the diagnostic, oral-cancer and lung-cancer categories return: one each
      if present. */
  function ReportSlots(cd: ClinicalData): nat
  {
    DiagnosticDraws(cd) + (if cd.oralCancer.Some? then 1 else 0) + (if cd.lungCancer.Some? then 1 else 0)
  }

  /** How many slots the section list has: then two per co-morbidity and per women's-health item,
      and one per allergy. */
  function SlotCount(cd: ClinicalData): nat
  {
    ReportSlots(cd) + 2 * Length(cd.coMorbidities) + 2 * Length(cd.observationWomenHealth)
    + Length(cd.allergyIntolerance)
  }

  function Draws(cd: ClinicalData): nat
  {
    DiagnosticDraws(cd) + Length(cd.coMorbidities) + Length(cd.observationWomenHealth)
  }

  /** `createCancerModuleSections`: the six categories in their fixed order, identifiers drawn from
      `k` on and gate outcomes from the `g`-th draw on. Each `...Then` function appends, after what
      `b` built, the categories that follow it, counting identifiers on from `k + b.used`. */
  function Assembled(sw: Switches, cd: ClinicalData, draw: nat -> bool, g: nat, k: Id, date: Stamp, m: map<string, string>): Built
  {
    ReportsThen(sw, Reports(sw, cd, draw, g, k, date, m), cd, draw, g + DiagnosticDraws(cd), k)
  }

  function ReportsThen(sw: Switches, b: Built, cd: ClinicalData, draw: nat -> bool, g: nat, k: Id): Built
  {
    var r := Lists(sw, cd, draw, g, k + b.used);
    Built(b.entries + r.entries, b.sections + r.sections, b.used + r.used)
  }

  /** The diagnostic, oral-cancer and lung-cancer categories: at most one slot each. */
  function Reports(sw: Switches, cd: ClinicalData, draw: nat -> bool, g: nat, k: Id, date: Stamp, m: map<string, string>): Built
  {
    DiagnosticThen(sw, DiagnosticPart(cd, draw, g, k, date, m), cd, k, m)
  }

  function DiagnosticThen(sw: Switches, b: Built, cd: ClinicalData, k: Id, m: map<string, string>): Built
  {
    var r := Histories(sw, cd, k + b.used, m);
    Built(b.entries + r.entries, b.sections + r.sections, b.used + r.used)
  }

  function Histories(sw: Switches, cd: ClinicalData, k: Id, m: map<string, string>): Built
  {
    OralCancerThen(sw, HistoryPart(sw, OralCancer, cd.oralCancer, k, m), cd, k, m)
  }

  function OralCancerThen(sw: Switches, b: Built, cd: ClinicalData, k: Id, m: map<string, string>): Built
  {
    var r := HistoryPart(sw, LungCancer, cd.lungCancer, k + b.used, m);
    Built(b.entries + r.entries, b.sections + r.sections, b.used + r.used)
  }

  /** The co-morbidity, women's-health and allergy categories: slots per list item. */
  function Lists(sw: Switches, cd: ClinicalData, draw: nat -> bool, g: nat, k: Id): Built
  {
    CoMorbiditiesThen(sw, CoMorbidityPart(sw, cd.coMorbidities, draw, g, k), cd, draw, g + Length(cd.coMorbidities), k)
  }

  function CoMorbiditiesThen(sw: Switches, b: Built, cd: ClinicalData, draw: nat -> bool, g: nat, k: Id): Built
  {
    var r := LaterLists(sw, cd, draw, g, k + b.used);
    Built(b.entries + r.entries, b.sections + r.sections, b.used + r.used)
  }

  function LaterLists(sw: Switches, cd: ClinicalData, draw: nat -> bool, g: nat, k: Id): Built
  {
    WomenHealthThen(sw, WomenHealthPart(sw, cd.observationWomenHealth, draw, g, k), cd, k)
  }

  function WomenHealthThen(sw: Switches, b: Built, cd: ClinicalData, k: Id): Built
  {
    var r := AllergyPart(cd.allergyIntolerance, k + b.used);
    Built(b.entries + r.entries, b.sections + r.sections, b.used + r.used)
  }

  // Each category block followed by the rest: the halves computed separately compose.

  lemma AssembledOfParts(sw: Switches, cd: ClinicalData, draw: nat -> bool, g: nat, k: Id, date: Stamp, m: map<string, string>,
                         h: Built, x: Built, g2: nat, k2: Id)
    requires h == Reports(sw, cd, draw, g, k, date, m)
    requires g2 == g + DiagnosticDraws(cd) && k2 == k + h.used
    requires x == Lists(sw, cd, draw, g2, k2)
    ensures Joins(Assembled(sw, cd, draw, g, k, date, m), h, x)
  {
    ReportsThenJoins(sw, h, cd, draw, g2, k, x, k2);
  }

  lemma ReportsThenJoins(sw: Switches, b: Built, cd: ClinicalData, draw: nat -> bool, g: nat, k: Id, x: Built, k2: Id)
    requires k2 == k + b.used && x == Lists(sw, cd, draw, g, k2)
    ensures Joins(ReportsThen(sw, b, cd, draw, g, k), b, x)
  {
  }

  lemma ReportsOfParts(sw: Switches, cd: ClinicalData, draw: nat -> bool, g: nat, k: Id, date: Stamp, m: map<string, string>,
                       d: Built, r: Built, k2: Id)
    requires d == DiagnosticPart(cd, draw, g, k, date, m)
    requires k2 == k + d.used
    requires r == Histories(sw, cd, k2, m)
    ensures Joins(Reports(sw, cd, draw, g, k, date, m), d, r)
  {
    DiagnosticThenJoins(sw, d, cd, k, m, r, k2);
  }

  lemma DiagnosticThenJoins(sw: Switches, b: Built, cd: ClinicalData, k: Id, m: map<string, string>, r: Built, k2: Id)
    requires k2 == k + b.used && r == Histories(sw, cd, k2, m)
    ensures Joins(DiagnosticThen(sw, b, cd, k, m), b, r)
  {
  }

  lemma HistoriesOfParts(sw: Switches, cd: ClinicalData, k: Id, m: map<string, string>, o: Built, l: Built, k2: Id)
    requires o == HistoryPart(sw, OralCancer, cd.oralCancer, k, m)
    requires k2 == k + o.used
    requires l == HistoryPart(sw, LungCancer, cd.lungCancer, k2, m)
    ensures Joins(Histories(sw, cd, k, m), o, l)
  {
  }

  lemma ListsOfParts(sw: Switches, cd: ClinicalData, draw: nat -> bool, g: nat, k: Id, c: Built, r: Built, g2: nat, k2: Id)
    requires c == CoMorbidityPart(sw, cd.coMorbidities, draw, g, k)
    requires g2 == g + Length(cd.coMorbidities) && k2 == k + c.used
    requires r == LaterLists(sw, cd, draw, g2, k2)
    ensures Joins(Lists(sw, cd, draw, g, k), c, r)
  {
    CoMorbiditiesThenJoins(sw, c, cd, draw, g2, k, r, k2);
  }

  lemma CoMorbiditiesThenJoins(sw: Switches, b: Built, cd: ClinicalData, draw: nat -> bool, g: nat, k: Id, r: Built, k2: Id)
    requires k2 == k + b.used && r == LaterLists(sw, cd, draw, g, k2)
    ensures Joins(CoMorbiditiesThen(sw, b, cd, draw, g, k), b, r)
  {
  }

  lemma LaterListsOfParts(sw: Switches, cd: ClinicalData, draw: nat -> bool, g: nat, k: Id, w: Built, a: Built, k2: Id)
    requires w == WomenHealthPart(sw, cd.observationWomenHealth, draw, g, k)
    requires k2 == k + w.used
    requires a == AllergyPart(cd.allergyIntolerance, k2)
    ensures Joins(LaterLists(sw, cd, draw, g, k), w, a)
  {
  }
}
