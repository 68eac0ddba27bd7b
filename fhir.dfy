/** The slice of the HL7 FHIR R4 object model that the OP-consultation assembler builds: coded
    terms, references, the five clinical resource kinds, the Composition header with its sections,
    and the document Bundle. */
module Fhir {
  import opened Optional
  import opened Constants

  /** Resource identifiers, as handed out by the bundle's identifier counter. */
  type Id = nat
  /** An abstract point in time (`java.util.Date`). */
  type Date = nat
  /** A `double` measurement, carried without arithmetic. */
  type Amount = real

  /** A timestamp field: a given date, or the wall clock read at the time of the call (`new Date()`). */
  datatype Stamp = At(date: Date) | Now

  /** A string slot of a coded term: a literal, a named constant, a constant lower-cased,
      a text with a suffix appended, or `null`. */
  datatype Text =
    | Lit(s: string)
    | Named(k: Constant)
    | LowerNamed(k: Constant)
    | Suffixed(base: Text, suffix: string)
    | NoText

  /** `reportType + " report"`. */
  function WithReportSuffix(t: Text): Text
  {
    match t
    case Lit(s) => Lit(s + " report")
    case _ => Suffixed(t, " report")
  }

  /** A `CodeableConcept`: `new CodeableConcept()` is `Empty`; `FHIRUtils.getCodeableConcept(code,
      system, display, text)` is `Coded` with its four arguments. */
  datatype Concept = Empty | Coded(code: Text, system: Text, display: Text, text: Text)

  datatype Kind =
    | CompositionKind | PatientKind | ConditionKind | ObservationKind
    | DiagnosticReportKind | DocumentReferenceKind | AllergyIntoleranceKind

  /** A reference to a resource of a kind with an identifier (none if the resource never got one),
      or whatever `FHIRUtils.getReferenceToResource(null)` produces, left abstract. */
  datatype Ref = RefTo(kind: Kind, id: Option<Id>) | NullTarget

  /** The four ways the source points at the patient. */
  datatype PatientLink =
    | ReferenceToPatient   // FHIRUtils.getReferenceToPatient(patient)
    | ResourceReference    // new Reference(patient)
    | PatientPath          // "Patient/" + patient.getId()
    | PatientName          // patient.getName().toString()

  /** The status enumerations the source sets: FINAL (composition, observation, report) and
      CURRENT (document reference). */
  datatype Status = Final | Current

  datatype ObservationValue = NoValue | Quantity(value: Amount, unit: Text) | StringValue(s: string)

  /** `FHIRUtils.getAttachment(name, value)`. */
  datatype Attachment = Attachment(title: Text, data: string)

  datatype Resource =
    | Header(doc: Composition)
    | Patient(id: Id)
    | Condition(id: Id, subject: Option<PatientLink>, clinicalStatus: Option<Concept>, code: Option<Concept>)
    | Observation(id: Id, status: Status, subject: Option<PatientLink>, code: Option<Concept>,
                  value: ObservationValue, effective: Stamp)
    | DiagnosticReport(id: Id, status: Status, reportCode: Concept, subject: Option<PatientLink>, result: seq<Ref>)
    | DocumentReference(docType: Concept, subject: Option<PatientLink>, status: Status, content: seq<Attachment>)
    | AllergyIntolerance(id: Id, clinical: Concept, verification: Concept, patient: PatientLink)

  function KindOf(r: Resource): Kind
  {
    match r
    case Header(_) => CompositionKind
    case Patient(_) => PatientKind
    case Condition(_, _, _, _) => ConditionKind
    case Observation(_, _, _, _, _, _) => ObservationKind
    case DiagnosticReport(_, _, _, _, _) => DiagnosticReportKind
    case DocumentReference(_, _, _, _) => DocumentReferenceKind
    case AllergyIntolerance(_, _, _, _) => AllergyIntoleranceKind
  }

  /** The resource's identifier; a DocumentReference is never given one. */
  function IdOf(r: Resource): Option<Id>
  {
    match r
    case Header(doc) => Some(doc.id)
    case DocumentReference(_, _, _, _) => None
    case _ => Some(r.id)
  }

  /** The identifier as an integer, -1 standing for none. */
  function Key(r: Resource): int
  {
    match IdOf(r)
    case Some(k) => k
    case None => -1
  }

  /** `new Reference(resource)` and `FHIRUtils.getReferenceToResource(resource)`. */
  function RefOf(r: Resource): Ref
  {
    RefTo(KindOf(r), IdOf(r))
  }

  /** `FHIRUtils.getReferenceToResource(report)` where `report` may be null. */
  function ReferenceTo(r: Option<Resource>): Ref
  {
    match r
    case None => NullTarget
    case Some(res) => RefOf(res)
  }

  /** Every entry has an identifier in [lo, hi), and identifiers strictly increase along the list. */
  ghost predicate IdsIn(es: seq<Resource>, lo: int, hi: int)
  {
    && (forall i :: 0 <= i < |es| ==> lo <= Key(es[i]) < hi)
    && (forall i, j :: 0 <= i < j < |es| ==> Key(es[i]) < Key(es[j]))
  }

  lemma {:induction false} IdsInConcat(a: seq<Resource>, b: seq<Resource>, lo: int, mid: int, hi: int)
    requires lo <= mid <= hi
    requires IdsIn(a, lo, mid) && IdsIn(b, mid, hi)
    ensures IdsIn(a + b, lo, hi)
  {
    forall i | 0 <= i < |a + b| ensures lo <= Key((a + b)[i]) < hi {
      if i >= |a| { assert (a + b)[i] == b[i - |a|]; }
    }
    forall i, j | 0 <= i < j < |a + b| ensures Key((a + b)[i]) < Key((a + b)[j]) {
      if j < |a| {
      } else if i < |a| {
        assert Key((a + b)[i]) < mid <= Key((a + b)[j]);
      } else {
        assert (a + b)[i] == b[i - |a|] && (a + b)[j] == b[j - |a|];
      }
    }
  }

  /** One section of the Composition (`Composition.SectionComponent`): its entry list grows in place. */
  class SectionComponent {
    var title: Text
    var code: Option<Concept>
    var entry: seq<Ref>

    /** `new Composition.SectionComponent()`: nothing set. */
    constructor ()
      ensures title == NoText && code == None && entry == []
    {
      title, code, entry := NoText, None, [];
    }
  }

  /** The document header. Its section list is the one mutable part. */
  class Composition {
    const id: Id
    const date: Stamp
    const language: Constant
    const status: Status
    const docType: Concept
    const title: string
    var section: seq<SectionComponent?>

    constructor (id: Id, date: Stamp, language: Constant, status: Status, docType: Concept, title: string)
      ensures this.id == id && this.date == date && this.language == language
      ensures this.status == status && this.docType == docType && this.title == title
      ensures section == []
    {
      this.id, this.date, this.language := id, date, language;
      this.status, this.docType, this.title := status, docType, title;
      section := [];
    }

    /** `addSection()`: a new, empty section appended to this composition's list and returned. */
    method AddSection() returns (s: SectionComponent)
      modifies this
      ensures fresh(s) && s.title == NoText && s.code == None && s.entry == []
      ensures section == old(section) + [s]
    {
      s := new SectionComponent();
      section := section + [s];
    }
  }

  /** The document Bundle: an append-only entry list, plus the counter that hands out the
      identifiers of the resources built for it. */
  class Bundle {
    const timestamp: Date
    var entry: seq<Resource>
    var issued: nat

    /** Every entry carries an identifier the counter has already issued. */
    ghost predicate Valid()
      reads this
    {
      forall i :: 0 <= i < |entry| ==> 0 <= Key(entry[i]) < issued
    }

    /** `FHIRUtils.createBundle(docDate, ...)`: an empty bundle stamped with the document date. */
    constructor (docDate: Date)
      ensures Valid() && timestamp == docDate && entry == [] && issued == 0
    {
      timestamp, entry, issued := docDate, [], 0;
    }

    /** A fresh identifier (`Utils.generateId()`, `UUID.randomUUID()`), above every entry's. */
    method NewId() returns (id: Id)
      requires Valid()
      modifies this
      ensures Valid()
      ensures id == old(issued) && issued == id + 1 && entry == old(entry)
    {
      id := issued;
      issued := issued + 1;
    }

    /** `FHIRUtils.addToBundleEntry(bundle, r, ...)`: append one entry. */
    method Add(r: Resource)
      requires Valid()
      requires 0 <= Key(r) < issued
      modifies this
      ensures Valid()
      ensures entry == old(entry) + [r] && issued == old(issued)
    {
      entry := entry + [r];
    }

    /** `report.addResult(ref)` on a report that is already the bundle entry at index `at`. */
    method AddResult(at: nat, ref: Ref)
      requires Valid()
      requires at < |entry| && entry[at].DiagnosticReport?
      modifies this
      ensures Valid()
      ensures entry == old(entry)[at := old(entry)[at].(result := old(entry)[at].result + [ref])]
      ensures issued == old(issued)
    {
      entry := entry[at := entry[at].(result := entry[at].result + [ref])];
    }
  }
}
