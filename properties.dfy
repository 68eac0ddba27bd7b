/** What the assembled document promises, proved about the values of `Assembly`: the categories
    come in their fixed order, each category fills a fixed number of slots, every appended entry
    carries its own identifier, the co-morbidity references resolve while the allergy references
    do not, and the lipid policy of the diagnostic section. */
module Properties {
  import opened Optional
  import opened Strings
  import Constants
  import opened Fhir
  import opened Codes
  import opened LipidPanel
  import opened ClinicalInput
  import opened Assembly

  // --- Fixed order ------------------------------------------------------------------------

  /** `createCancerModuleSections` is the six categories one after the other (diagnostic, oral
      cancer, lung cancer, co-morbidities, women's health, allergies): each category's entries and
      slots follow those of the categories before it, and it takes its identifiers (`k1` to `k5`)
      and gate draws (`g2`, `g3`) where the one before it stopped. */
  lemma AssembledInOrder(sw: Switches, cd: ClinicalData, draw: nat -> bool, g: nat, k: Id, date: Stamp,
                         m: map<string, string>)
    returns (d: Built, o: Built, l: Built, c: Built, w: Built, a: Built,
             k1: Id, k2: Id, k3: Id, k4: Id, k5: Id, g2: nat, g3: nat)
    ensures d == DiagnosticPart(cd, draw, g, k, date, m) && k1 == k + d.used
    ensures o == HistoryPart(sw, OralCancer, cd.oralCancer, k1, m) && k2 == k1 + o.used
    ensures l == HistoryPart(sw, LungCancer, cd.lungCancer, k2, m) && k3 == k2 + l.used
    ensures g2 == g + DiagnosticDraws(cd) && c == CoMorbidityPart(sw, cd.coMorbidities, draw, g2, k3) && k4 == k3 + c.used
    ensures g3 == g2 + Length(cd.coMorbidities) && w == WomenHealthPart(sw, cd.observationWomenHealth, draw, g3, k4)
    ensures k5 == k4 + w.used && a == AllergyPart(cd.allergyIntolerance, k5)
    ensures var b := Assembled(sw, cd, draw, g, k, date, m);
            && b.entries == d.entries + o.entries + l.entries + c.entries + w.entries + a.entries
            && b.sections == d.sections + o.sections + l.sections + c.sections + w.sections + a.sections
            && b.used == d.used + o.used + l.used + c.used + w.used + a.used
  {
    d := DiagnosticPart(cd, draw, g, k, date, m);
    k1 := k + d.used;
    o := HistoryPart(sw, OralCancer, cd.oralCancer, k1, m);
    k2 := k1 + o.used;
    l := HistoryPart(sw, LungCancer, cd.lungCancer, k2, m);
    k3 := k2 + l.used;
    HistoriesOfParts(sw, cd, k1, m, o, l, k2);
    var hs := Histories(sw, cd, k1, m);
    ReportsOfParts(sw, cd, draw, g, k, date, m, d, hs, k1);
    var h := Reports(sw, cd, draw, g, k, date, m);
    assert k3 == k + h.used;
    g2 := g + DiagnosticDraws(cd);
    c := CoMorbidityPart(sw, cd.coMorbidities, draw, g2, k3);
    g3, k4 := g2 + Length(cd.coMorbidities), k3 + c.used;
    w := WomenHealthPart(sw, cd.observationWomenHealth, draw, g3, k4);
    k5 := k4 + w.used;
    a := AllergyPart(cd.allergyIntolerance, k5);
    LaterListsOfParts(sw, cd, draw, g3, k4, w, a, k5);
    var later := LaterLists(sw, cd, draw, g3, k4);
    ListsOfParts(sw, cd, draw, g2, k3, c, later, g3, k4);
    var x := Lists(sw, cd, draw, g2, k3);
    AssembledOfParts(sw, cd, draw, g, k, date, m, h, x, g2, k3);
    SixInOrder(d.entries, o.entries, l.entries, c.entries, w.entries, a.entries);
    SixInOrder(d.sections, o.sections, l.sections, c.sections, w.sections, a.sections);
  }

  lemma {:induction false} SixInOrder<T>(d: seq<T>, o: seq<T>, l: seq<T>, c: seq<T>, w: seq<T>, a: seq<T>)
    ensures d + (o + l) + (c + (w + a)) == d + o + l + c + w + a
  {
    assert d + (o + l) == d + o + l;
    assert c + (w + a) == c + w + a;
    assert d + o + l + (c + w + a) == d + o + l + c + w + a;
  }

  // --- Slots per category -----------------------------------------------------------------

  /** `b` is the closed form of the co-morbidity loop over `items`: item `j` appended the Condition
      with identifier `k + j` coded by its name, and filled slots `2 * j` (a section referencing
      that Condition) and `2 * j + 1` (the section the `(g + j)`-th draw gates). */
  predicate CoMorbidityLayout(sw: Switches, items: seq<CoMorbidity>, draw: nat -> bool, g: nat, k: Id, b: Built)
  {
    && |b.entries| == |items| && |b.sections| == 2 * |items| && b.used == |items|
    && (forall j :: 0 <= j < |items| ==>
          && b.entries[j] == CoMorbidityCondition(sw, k + j, items[j].name)
          && b.sections[2 * j] == Some(CoMorbiditySectionValue(sw, k + j, items[j].name))
          && b.sections[2 * j + 1] == CoMorbidityGateValue(draw(g + j), items[j].name))
  }

  lemma {:induction false} CoMorbidityLayoutStep(sw: Switches, items: seq<CoMorbidity>, draw: nat -> bool, g: nat, k: Id,
                                                 prev: Built, b: Built)
    requires items != [] && CoMorbidityLayout(sw, items[..|items| - 1], draw, g, k, prev)
    requires var n, name := |items| - 1, items[|items| - 1].name;
             b == Built(prev.entries + [CoMorbidityCondition(sw, k + n, name)],
                        prev.sections + [Some(CoMorbiditySectionValue(sw, k + n, name)), CoMorbidityGateValue(draw(g + n), name)],
                        prev.used + 1)
    ensures CoMorbidityLayout(sw, items, draw, g, k, b)
  {
    var n := |items| - 1;
    forall j | 0 <= j < |items|
      ensures && b.entries[j] == CoMorbidityCondition(sw, k + j, items[j].name)
              && b.sections[2 * j] == Some(CoMorbiditySectionValue(sw, k + j, items[j].name))
              && b.sections[2 * j + 1] == CoMorbidityGateValue(draw(g + j), items[j].name)
    {
      if j < n {
        assert items[..n][j] == items[j];
        assert b.entries[j] == prev.entries[j];
        assert b.sections[2 * j] == prev.sections[2 * j] && b.sections[2 * j + 1] == prev.sections[2 * j + 1];
      }
    }
  }

  /** Each co-morbidity, in list order, appends one Condition about the patient coded by its
      name, and fills two slots: a section referencing that Condition, then the gated section. */
  lemma {:induction false} CoMorbiditySlots(sw: Switches, items: seq<CoMorbidity>, draw: nat -> bool, g: nat, k: Id)
    ensures CoMorbidityLayout(sw, items, draw, g, k, CoMorbidityBuilt(sw, items, draw, g, k))
    decreases |items|
  {
    if items != [] {
      var prefix := items[..|items| - 1];
      CoMorbiditySlots(sw, prefix, draw, g, k);
      CoMorbidityLayoutStep(sw, items, draw, g, k, CoMorbidityBuilt(sw, prefix, draw, g, k), CoMorbidityBuilt(sw, items, draw, g, k));
    }
  }

  /** `b` is the closed form of the women's-health loop over `items`: item `j` appended the
      Observation with identifier `k + j`, and filled slots `2 * j` (a section referencing that
      Observation) and `2 * j + 1` (the section the `(g + j)`-th draw gates). */
  predicate WomenHealthLayout(sw: Switches, items: seq<ObservationWomenHealth>, draw: nat -> bool, g: nat, k: Id, b: Built)
  {
    && |b.entries| == |items| && |b.sections| == 2 * |items| && b.used == |items|
    && (forall j :: 0 <= j < |items| ==>
          && b.entries[j] == WomenHealthObservation(sw, k + j, items[j])
          && b.sections[2 * j] == Some(WomenHealthSectionValue(sw, k + j, items[j].name))
          && b.sections[2 * j + 1] == WomenHealthGateValue(draw(g + j), items[j].name))
  }

  lemma {:induction false} WomenHealthLayoutStep(sw: Switches, items: seq<ObservationWomenHealth>, draw: nat -> bool, g: nat,
                                                 k: Id, prev: Built, b: Built)
    requires items != [] && WomenHealthLayout(sw, items[..|items| - 1], draw, g, k, prev)
    requires var n, item := |items| - 1, items[|items| - 1];
             b == Built(prev.entries + [WomenHealthObservation(sw, k + n, item)],
                        prev.sections + [Some(WomenHealthSectionValue(sw, k + n, item.name)), WomenHealthGateValue(draw(g + n), item.name)],
                        prev.used + 1)
    ensures WomenHealthLayout(sw, items, draw, g, k, b)
  {
    var n := |items| - 1;
    forall j | 0 <= j < |items|
      ensures && b.entries[j] == WomenHealthObservation(sw, k + j, items[j])
              && b.sections[2 * j] == Some(WomenHealthSectionValue(sw, k + j, items[j].name))
              && b.sections[2 * j + 1] == WomenHealthGateValue(draw(g + j), items[j].name)
    {
      if j < n {
        assert items[..n][j] == items[j];
        assert b.entries[j] == prev.entries[j];
        assert b.sections[2 * j] == prev.sections[2 * j] && b.sections[2 * j + 1] == prev.sections[2 * j + 1];
      }
    }
  }

  /** Each women's-health item, in list order, appends one Observation of its value and fills
      two slots: a section referencing that Observation, then the gated section. */
  lemma {:induction false} WomenHealthSlots(sw: Switches, items: seq<ObservationWomenHealth>, draw: nat -> bool, g: nat,
                                            k: Id)
    ensures WomenHealthLayout(sw, items, draw, g, k, WomenHealthBuilt(sw, items, draw, g, k))
    decreases |items|
  {
    if items != [] {
      var prefix := items[..|items| - 1];
      WomenHealthSlots(sw, prefix, draw, g, k);
      WomenHealthLayoutStep(sw, items, draw, g, k, WomenHealthBuilt(sw, prefix, draw, g, k), WomenHealthBuilt(sw, items, draw, g, k));
    }
  }

  /** Each allergy, in list order, appends one AllergyIntolerance (the first of its two
      identifiers) and fills one slot, a section referencing the Condition with the second. */
  lemma {:induction false} AllergySlots(items: seq<AllergyIntoleranceRequest>, k: Id)
    ensures var b := AllergyBuilt(items, k);
            && |b.entries| == |items| && |b.sections| == |items| && b.used == 2 * |items|
            && (forall j :: 0 <= j < |items| ==>
                  b.entries[j] == AllergyIntoleranceFor(k + 2 * j) && b.sections[j] == Some(AllergySectionValue(k + 2 * j + 1)))
    decreases |items|
  {
    if items != [] {
      AllergySlots(items[..|items| - 1], k);
    }
  }

  /** The section list has one slot for each of the diagnostic, oral-cancer and lung-cancer
      categories present, two per co-morbidity and per women's-health item, and one per allergy. */
  lemma AssembledSlots(sw: Switches, cd: ClinicalData, draw: nat -> bool, g: nat, k: Id, date: Stamp, m: map<string, string>)
    ensures |Assembled(sw, cd, draw, g, k, date, m).sections| == SlotCount(cd)
  {
    var d, o, l, c, w, a, k1, k2, k3, k4, k5, g2, g3 := AssembledInOrder(sw, cd, draw, g, k, date, m);
    DiagnosticSlots(cd, draw, g, k, date, m);
    HistorySlots(sw, OralCancer, cd.oralCancer, k1, m);
    HistorySlots(sw, LungCancer, cd.lungCancer, k2, m);
    ListSlots(sw, cd, draw, g2, k3, g3, k4, k5);
    SlotSum(Assembled(sw, cd, draw, g, k, date, m), d, o, l, c, w, a, cd);
  }

  lemma DiagnosticSlots(cd: ClinicalData, draw: nat -> bool, g: nat, k: Id, date: Stamp, m: map<string, string>)
    ensures |DiagnosticPart(cd, draw, g, k, date, m).sections| == DiagnosticDraws(cd)
  {
  }

  lemma HistorySlots(sw: Switches, c: Cancer, items: Option<IndicatorEntries>, k: Id, m: map<string, string>)
    ensures |HistoryPart(sw, c, items, k, m).sections| == if items.Some? then 1 else 0
  {
  }

  lemma ListSlots(sw: Switches, cd: ClinicalData, draw: nat -> bool, gc: nat, kc: Id, gw: nat, kw: Id, ka: Id)
    ensures |CoMorbidityPart(sw, cd.coMorbidities, draw, gc, kc).sections| == 2 * Length(cd.coMorbidities)
    ensures |WomenHealthPart(sw, cd.observationWomenHealth, draw, gw, kw).sections| == 2 * Length(cd.observationWomenHealth)
    ensures |AllergyPart(cd.allergyIntolerance, ka).sections| == Length(cd.allergyIntolerance)
  {
    if cd.coMorbidities.Some? {
      CoMorbiditySlots(sw, cd.coMorbidities.value, draw, gc, kc);
    }
    if cd.observationWomenHealth.Some? {
      WomenHealthSlots(sw, cd.observationWomenHealth.value, draw, gw, kw);
    }
    if cd.allergyIntolerance.Some? {
      AllergySlots(cd.allergyIntolerance.value, ka);
    }
  }

  lemma {:induction false} SlotSum(b: Built, d: Built, o: Built, l: Built, c: Built, w: Built, a: Built, cd: ClinicalData)
    requires b.sections == d.sections + o.sections + l.sections + c.sections + w.sections + a.sections
    requires |d.sections| == DiagnosticDraws(cd)
    requires |o.sections| == (if cd.oralCancer.Some? then 1 else 0) && |l.sections| == (if cd.lungCancer.Some? then 1 else 0)
    requires |c.sections| == 2 * Length(cd.coMorbidities) && |w.sections| == 2 * Length(cd.observationWomenHealth)
    requires |a.sections| == Length(cd.allergyIntolerance)
    ensures |b.sections| == SlotCount(cd)
  {
  }

  // --- References -------------------------------------------------------------------------

  /** The first section of each co-morbidity references the Condition that was appended for it. */
  lemma CoMorbidityReferencesResolve(sw: Switches, items: seq<CoMorbidity>, draw: nat -> bool, g: nat, k: Id, j: nat)
    requires j < |items|
    ensures var b := CoMorbidityBuilt(sw, items, draw, g, k);
            && |b.entries| == |items| && |b.sections| == 2 * |items|
            && b.entries[j].Condition? && b.entries[j].subject == Some(PatientPath)
            && b.sections[2 * j].Some? && b.sections[2 * j].value.entry == [RefOf(b.entries[j])]
  {
    CoMorbiditySlots(sw, items, draw, g, k);
  }

  /** Within the allergy category, each section references a Condition that is not among the
      appended entries, and no section references the appended AllergyIntolerance. */
  lemma AllergyReferencesDangle(items: seq<AllergyIntoleranceRequest>, k: Id)
    ensures var b := AllergyBuilt(items, k);
            && (forall i :: 0 <= i < |b.entries| ==> b.entries[i].AllergyIntolerance?)
            && (forall j :: 0 <= j < |b.sections| ==>
                  b.sections[j].Some? && b.sections[j].value.entry == [RefTo(ConditionKind, Some(k + 2 * j + 1))])
  {
    AllergySlots(items, k);
  }

  // --- Identifiers ------------------------------------------------------------------------

  /** The entries `b` appended carry the identifiers it drew from `k` on, in increasing order. */
  ghost predicate IdsFrom(b: Built, k: Id)
  {
    IdsIn(b.entries, k, k + b.used)
  }

  /** One more entry whose identifier follows those of `es` keeps them in order. */
  lemma {:induction false} IdsAppend(es: seq<Resource>, r: Resource, lo: int, mid: int, hi: int)
    requires lo <= mid && IdsIn(es, lo, mid) && mid <= Key(r) < hi
    ensures IdsIn(es + [r], lo, hi)
  {
    var rs := es + [r];
    forall i | 0 <= i < |rs| ensures lo <= Key(rs[i]) < hi {
      if i < |es| { assert rs[i] == es[i]; } else { assert rs[i] == r; }
    }
    forall i, j | 0 <= i < j < |rs| ensures Key(rs[i]) < Key(rs[j]) {
      assert rs[i] == es[i];
      if j < |es| { assert rs[j] == es[j]; } else { assert rs[j] == r; }
    }
  }

  /** One more filed plan keeps the identifiers in order: its report (and Observation) take the
      next ones. */
  lemma {:induction false} StepIds(f: Filed, p: ReportPlan, k: Id)
    requires IdsIn(f.entries, k, k + f.used)
    ensures IdsIn(FileStep(f, p, k).entries, k, k + FileStep(f, p, k).used)
  {
    var id := k + f.used;
    match p
    case Measured(rc, oc, unit, v, effective) =>
      var report, observation := MeasuredReport(id, rc), MeasuredObservation(id + 1, oc, unit, v, effective);
      assert FileStep(f, p, k).entries == f.entries + [report] + [observation];
      IdsAppend(f.entries, report, k, id, id + 1);
      IdsAppend(f.entries + [report], observation, k, id + 1, id + 2);
    case Attached(rc, typeCode, reportType, reportValue, reportName) =>
      IdsAppend(f.entries, AttachedReport(id, rc, typeCode, reportType, reportValue, reportName), k, id, id + 1);
    case Rejected =>
  }

  lemma {:induction false} FiledIds(ps: seq<ReportPlan>, k: Id)
    ensures IdsIn(FilePlans(ps, k).entries, k, k + FilePlans(ps, k).used)
    decreases |ps|
  {
    if ps != [] {
      var f := FilePlans(ps[..|ps| - 1], k);
      FiledIds(ps[..|ps| - 1], k);
      StepIds(f, ps[|ps| - 1], k);
    }
  }

  lemma {:induction false} CoMorbidityIds(sw: Switches, items: seq<CoMorbidity>, draw: nat -> bool, g: nat, k: Id)
    ensures IdsFrom(CoMorbidityBuilt(sw, items, draw, g, k), k)
    decreases |items|
  {
    if items != [] {
      var prev := CoMorbidityBuilt(sw, items[..|items| - 1], draw, g, k);
      CoMorbidityIds(sw, items[..|items| - 1], draw, g, k);
      var id := k + prev.used;
      var one := [CoMorbidityCondition(sw, id, items[|items| - 1].name)];
      assert IdsIn(one, id, id + 1);
      IdsInConcat(prev.entries, one, k, id, id + 1);
    }
  }

  lemma {:induction false} WomenHealthIds(sw: Switches, items: seq<ObservationWomenHealth>, draw: nat -> bool, g: nat, k: Id)
    ensures IdsFrom(WomenHealthBuilt(sw, items, draw, g, k), k)
    decreases |items|
  {
    if items != [] {
      var prev := WomenHealthBuilt(sw, items[..|items| - 1], draw, g, k);
      WomenHealthIds(sw, items[..|items| - 1], draw, g, k);
      var id := k + prev.used;
      var one := [WomenHealthObservation(sw, id, items[|items| - 1])];
      assert IdsIn(one, id, id + 1);
      IdsInConcat(prev.entries, one, k, id, id + 1);
    }
  }

  lemma {:induction false} AllergyIds(items: seq<AllergyIntoleranceRequest>, k: Id)
    ensures IdsFrom(AllergyBuilt(items, k), k)
    decreases |items|
  {
    if items != [] {
      var prev := AllergyBuilt(items[..|items| - 1], k);
      AllergyIds(items[..|items| - 1], k);
      var id := k + prev.used;
      var one := [AllergyIntoleranceFor(id)];
      assert IdsIn(one, id, id + 2);
      IdsInConcat(prev.entries, one, k, id, id + 2);
    }
  }

  lemma DiagnosticIds(cd: ClinicalData, draw: nat -> bool, g: nat, k: Id, date: Stamp, m: map<string, string>)
    ensures IdsFrom(DiagnosticPart(cd, draw, g, k, date, m), k)
  {
    if cd.diagnostic.Some? && !draw(g) {
      FiledIds(DiagnosticPlans(cd.diagnostic.value, date, m), k);
    }
  }

  lemma HistoryIds(sw: Switches, c: Cancer, items: Option<IndicatorEntries>, k: Id, m: map<string, string>)
    ensures IdsFrom(HistoryPart(sw, c, items, k, m), k)
  {
    if items.Some? {
      var f := FilePlans(IndicatorPlans(sw, c, items.value, m), k + 1);
      FiledIds(IndicatorPlans(sw, c, items.value, m), k + 1);
      var one := [ConditionFor(k, CancerCondition(c))];
      assert IdsIn(one, k, k + 1);
      IdsInConcat(one, f.entries, k, k + 1, k + 1 + f.used);
    }
  }

  lemma ListIds(sw: Switches, cd: ClinicalData, draw: nat -> bool, gc: nat, kc: Id, gw: nat, kw: Id, ka: Id)
    ensures IdsFrom(CoMorbidityPart(sw, cd.coMorbidities, draw, gc, kc), kc)
    ensures IdsFrom(WomenHealthPart(sw, cd.observationWomenHealth, draw, gw, kw), kw)
    ensures IdsFrom(AllergyPart(cd.allergyIntolerance, ka), ka)
  {
    if cd.coMorbidities.Some? {
      CoMorbidityIds(sw, cd.coMorbidities.value, draw, gc, kc);
    }
    if cd.observationWomenHealth.Some? {
      WomenHealthIds(sw, cd.observationWomenHealth.value, draw, gw, kw);
    }
    if cd.allergyIntolerance.Some? {
      AllergyIds(cd.allergyIntolerance.value, ka);
    }
  }

  /** Parts whose identifiers follow one another make a whole whose identifiers do. */
  lemma {:induction false} IdsSum(b: Built, d: Built, o: Built, l: Built, c: Built, w: Built, a: Built,
                                 k: Id, k1: Id, k2: Id, k3: Id, k4: Id, k5: Id)
    requires b.entries == d.entries + o.entries + l.entries + c.entries + w.entries + a.entries
    requires b.used == d.used + o.used + l.used + c.used + w.used + a.used
    requires k1 == k + d.used && k2 == k1 + o.used && k3 == k2 + l.used && k4 == k3 + c.used && k5 == k4 + w.used
    requires IdsFrom(d, k) && IdsFrom(o, k1) && IdsFrom(l, k2) && IdsFrom(c, k3) && IdsFrom(w, k4) && IdsFrom(a, k5)
    ensures IdsFrom(b, k)
  {
    IdsInConcat(d.entries, o.entries, k, k1, k2);
    IdsInConcat(d.entries + o.entries, l.entries, k, k2, k3);
    IdsInConcat(d.entries + o.entries + l.entries, c.entries, k, k3, k4);
    IdsInConcat(d.entries + o.entries + l.entries + c.entries, w.entries, k, k4, k5);
    IdsInConcat(d.entries + o.entries + l.entries + c.entries + w.entries, a.entries, k, k5, k5 + a.used);
  }

  /** Entries whose identifiers lie in a range of natural numbers include no DocumentReference. */
  lemma {:induction false} NoDocumentReferenceIn(es: seq<Resource>, lo: Id, hi: int)
    requires IdsIn(es, lo, hi)
    ensures forall e :: e in es ==> !e.DocumentReference?
  {
    forall e | e in es ensures !e.DocumentReference? {
      var i :| 0 <= i < |es| && es[i] == e;
      assert lo <= Key(es[i]);
    }
  }

  /** Every entry of the assembled document has an identifier drawn from [k, k + used), and the
      identifiers strictly increase along the entry list: no two entries share one, and no
      DocumentReference (which has none) is ever appended. */
  lemma AssembledIds(sw: Switches, cd: ClinicalData, draw: nat -> bool, g: nat, k: Id, date: Stamp, m: map<string, string>)
    ensures IdsFrom(Assembled(sw, cd, draw, g, k, date, m), k)
    ensures forall e :: e in Assembled(sw, cd, draw, g, k, date, m).entries ==> !e.DocumentReference?
  {
    var d, o, l, c, w, a, k1, k2, k3, k4, k5, g2, g3 := AssembledInOrder(sw, cd, draw, g, k, date, m);
    DiagnosticIds(cd, draw, g, k, date, m);
    HistoryIds(sw, OralCancer, cd.oralCancer, k1, m);
    HistoryIds(sw, LungCancer, cd.lungCancer, k2, m);
    ListIds(sw, cd, draw, g2, k3, g3, k4, k5);
    var b := Assembled(sw, cd, draw, g, k, date, m);
    IdsSum(b, d, o, l, c, w, a, k, k1, k2, k3, k4, k5);
    NoDocumentReferenceIn(b.entries, k, k + b.used);
  }

  /** The whole document: the Condition each allergy section references is not among the
      entries. */
  lemma AllergyConditionsAreNotFiled(sw: Switches, cd: ClinicalData, draw: nat -> bool, g: nat, k: Id, date: Stamp,
                                     m: map<string, string>, j: nat)
    requires cd.allergyIntolerance.Some? && j < |cd.allergyIntolerance.value|
    ensures var b := Assembled(sw, cd, draw, g, k, date, m);
            var p := |b.sections| - |cd.allergyIntolerance.value| + j;
            && 0 <= p < |b.sections| && b.sections[p].Some? && |b.sections[p].value.entry| == 1
            && b.sections[p].value.entry[0].RefTo? && b.sections[p].value.entry[0].kind == ConditionKind
            && forall e :: e in b.entries ==> RefOf(e) != b.sections[p].value.entry[0]
  {
    var d, o, l, c, w, a, k1, k2, k3, k4, k5, g2, g3 := AssembledInOrder(sw, cd, draw, g, k, date, m);
    var items := cd.allergyIntolerance.value;
    AllergySlots(items, k5);
    AssembledIds(sw, cd, draw, g, k, date, m);
    DanglingAfter(Assembled(sw, cd, draw, g, k, date, m), d.entries + o.entries + l.entries + c.entries + w.entries,
                  d.sections + o.sections + l.sections + c.sections + w.sections, a, items, k, k5, j);
  }

  /** The allergy part after entries with smaller identifiers: the Condition its `j`-th section
      references is none of the entries. */
  lemma {:induction false} DanglingAfter(b: Built, before: seq<Resource>, earlier: seq<Option<SectionValue>>, a: Built,
                                         items: seq<AllergyIntoleranceRequest>, k: Id, k5: Id, j: nat)
    requires j < |items|
    requires |a.entries| == |items| && |a.sections| == |items|
    requires forall i :: 0 <= i < |items| ==>
               a.entries[i] == AllergyIntoleranceFor(k5 + 2 * i) && a.sections[i] == Some(AllergySectionValue(k5 + 2 * i + 1))
    requires b.entries == before + a.entries && b.sections == earlier + a.sections
    requires IdsIn(b.entries, k, k + b.used)
    ensures var p := |b.sections| - |items| + j;
            && 0 <= p < |b.sections| && b.sections[p].Some? && |b.sections[p].value.entry| == 1
            && b.sections[p].value.entry[0].RefTo? && b.sections[p].value.entry[0].kind == ConditionKind
            && forall e :: e in b.entries ==> RefOf(e) != b.sections[p].value.entry[0]
  {
    var p := |b.sections| - |items| + j;
    assert b.sections[p] == a.sections[j];
    var target := RefTo(ConditionKind, Some(k5 + 2 * j + 1));
    forall e | e in b.entries ensures RefOf(e) != target {
      var i :| 0 <= i < |b.entries| && b.entries[i] == e;
      if i >= |before| {
        assert e == a.entries[i - |before|];
      } else {
        assert b.entries[|before|] == AllergyIntoleranceFor(k5);
        assert Key(e) < Key(b.entries[|before|]);
      }
    }
  }

  // --- Report references ------------------------------------------------------------------

  /** Some entry among `es` is the target of `r`. */
  predicate Resolves(r: Ref, es: seq<Resource>)
  {
    exists i :: 0 <= i < |es| && RefOf(es[i]) == r
  }

  /** `f` filed the plans `ps` in order: one reference per plan, the `null` reference exactly
      for a rejected plan, and otherwise a reference to a DiagnosticReport that `f` appended. */
  predicate ReferencesPlans(ps: seq<ReportPlan>, f: Filed)
  {
    && |f.refs| == |ps|
    && (forall i :: 0 <= i < |ps| ==> (f.refs[i] == NullTarget <==> ps[i].Rejected?))
    && (forall i :: 0 <= i < |ps| && !ps[i].Rejected? ==>
          f.refs[i].RefTo? && f.refs[i].kind == DiagnosticReportKind && Resolves(f.refs[i], f.entries))
  }

  lemma {:induction false} ReferencesStep(ps: seq<ReportPlan>, f: Filed, k: Id)
    requires ps != [] && ReferencesPlans(ps[..|ps| - 1], f)
    ensures ReferencesPlans(ps, FileStep(f, ps[|ps| - 1], k))
  {
    var n := |ps| - 1;
    var h := FileStep(f, ps[n], k);
    assert h.refs[..n] == f.refs && h.entries[..|f.entries|] == f.entries;
    forall i | 0 <= i < |ps| && !ps[i].Rejected?
      ensures h.refs[i].RefTo? && h.refs[i].kind == DiagnosticReportKind && Resolves(h.refs[i], h.entries)
    {
      if i < n {
        assert ps[..n][i] == ps[i];
        var w :| 0 <= w < |f.entries| && RefOf(f.entries[w]) == f.refs[i];
        assert h.entries[w] == f.entries[w];
      } else {
        assert RefOf(h.entries[|f.entries|]) == h.refs[n];
      }
    }
    forall i | 0 <= i < |ps| ensures h.refs[i] == NullTarget <==> ps[i].Rejected? {
      if i < n {
        assert ps[..n][i] == ps[i];
      }
    }
  }

  lemma {:induction false} FiledReferences(ps: seq<ReportPlan>, k: Id)
    ensures ReferencesPlans(ps, FilePlans(ps, k))
    decreases |ps|
  {
    if ps != [] {
      FiledReferences(ps[..|ps| - 1], k);
      ReferencesStep(ps, FilePlans(ps[..|ps| - 1], k), k);
    }
  }

  /** The indicator loop plans one report per map entry, in map order. */
  lemma {:induction false} IndicatorPlansInOrder(sw: Switches, c: Cancer, items: IndicatorEntries, m: map<string, string>)
    ensures |IndicatorPlans(sw, c, items, m)| == |items|
    ensures forall i :: 0 <= i < |items| ==>
              IndicatorPlans(sw, c, items, m)[i] == IndicatorPlan(sw, c, items[i].0, items[i].1, m)
    decreases |items|
  {
    if items != [] {
      var n := |items| - 1;
      IndicatorPlansInOrder(sw, c, items[..n], m);
      forall i | 0 <= i < n
        ensures IndicatorPlans(sw, c, items, m)[i] == IndicatorPlan(sw, c, items[i].0, items[i].1, m)
      {
        assert items[..n][i] == items[i];
      }
    }
  }

  /** The oral- or lung-cancer history section references the cancer Condition first, and then
      one reference per map entry in map order: `null` exactly when the lower-cased indicator is
      not on the category's allow-list, and otherwise the report appended for it. */
  lemma HistoryReferences(sw: Switches, c: Cancer, items: IndicatorEntries, k: Id, m: map<string, string>)
    ensures var b := HistoryBuilt(sw, c, items, k, m);
            && |b.sections| == 1 && b.sections[0].Some? && |b.sections[0].value.entry| == 1 + |items|
            && b.entries[0] == ConditionFor(k, CancerCondition(c)) && b.sections[0].value.entry[0] == RefOf(b.entries[0])
            && (forall i :: 0 <= i < |items| ==>
                  (b.sections[0].value.entry[1 + i] == NullTarget <==> !Accepts(sw, c, Lower(items[i].0))))
            && (forall i :: 0 <= i < |items| && Accepts(sw, c, Lower(items[i].0)) ==>
                  Resolves(b.sections[0].value.entry[1 + i], b.entries))
  {
    var ps := IndicatorPlans(sw, c, items, m);
    var f := FilePlans(ps, k + 1);
    IndicatorPlansInOrder(sw, c, items, m);
    FiledReferences(ps, k + 1);
    HistoryReferencesOf(HistoryBuilt(sw, c, items, k, m), ConditionFor(k, CancerCondition(c)), ps, f, sw, c, items, m);
  }

  lemma {:induction false} HistoryReferencesOf(b: Built, condition: Resource, ps: seq<ReportPlan>, f: Filed, sw: Switches,
                                               c: Cancer, items: IndicatorEntries, m: map<string, string>)
    requires |ps| == |items| && forall i :: 0 <= i < |items| ==> ps[i] == IndicatorPlan(sw, c, items[i].0, items[i].1, m)
    requires ReferencesPlans(ps, f)
    requires b.entries == [condition] + f.entries && b.sections == [Some(HistorySectionValue([RefOf(condition)] + f.refs))]
    ensures && |b.sections| == 1 && b.sections[0].Some? && |b.sections[0].value.entry| == 1 + |items|
            && b.entries[0] == condition && b.sections[0].value.entry[0] == RefOf(b.entries[0])
            && (forall i :: 0 <= i < |items| ==>
                  (b.sections[0].value.entry[1 + i] == NullTarget <==> !Accepts(sw, c, Lower(items[i].0))))
            && (forall i :: 0 <= i < |items| && Accepts(sw, c, Lower(items[i].0)) ==>
                  Resolves(b.sections[0].value.entry[1 + i], b.entries))
  {
    var refs := b.sections[0].value.entry;
    forall i | 0 <= i < |items| ensures refs[1 + i] == f.refs[i] && (ps[i].Rejected? <==> !Accepts(sw, c, Lower(items[i].0))) {
    }
    forall i | 0 <= i < |items| && Accepts(sw, c, Lower(items[i].0)) ensures Resolves(refs[1 + i], b.entries) {
      assert !ps[i].Rejected?;
      var w :| 0 <= w < |f.entries| && RefOf(f.entries[w]) == f.refs[i];
      assert b.entries[1 + w] == f.entries[w];
    }
  }

  /** No plan of the diagnostic section is a rejected one. */
  lemma {:induction false} TestsPlansMeasured(ts: seq<Test>, date: Stamp)
    ensures forall p :: p in TestsPlans(ts, date) ==> p.Measured?
    decreases |ts|
  {
    if ts != [] {
      TestsPlansMeasured(ts[..|ts| - 1], date);
    }
  }

  /** The lipid profile never plans a rejected report. */
  lemma LipidPlansMeasuredOrAttached(d: Diagnostic, date: Stamp, m: map<string, string>)
    ensures forall p :: p in LipidPlans(d, date, m) ==> !p.Rejected?
  {
    if d.bioChemistry.Some? && d.bioChemistry.value.lipidProfile.Some? {
      var lp := d.bioChemistry.value.lipidProfile.value;
      if lp.lipidTests.Some? {
        TestsPlansMeasured(lp.lipidTests.value, date);
      }
    }
  }

  /** The diagnostic section never plans a rejected report. */
  lemma DiagnosticPlansMeasuredOrAttached(d: Diagnostic, date: Stamp, m: map<string, string>)
    ensures forall p :: p in DiagnosticPlans(d, date, m) ==> !p.Rejected?
  {
    var cbc, biopsy, lipid, renal := CbcPlans(d, date), BiopsyPlans(d, m), LipidPlans(d, date, m), RenalPlans(d, m);
    LipidPlansMeasuredOrAttached(d, date, m);
    forall p: ReportPlan | p in cbc + biopsy + lipid + renal ensures !p.Rejected? {
      if p in cbc + biopsy {
        assert p in cbc || p in biopsy;
      }
    }
  }

  lemma {:induction false} EveryReferenceResolves(ps: seq<ReportPlan>, f: Filed)
    requires ReferencesPlans(ps, f) && forall p :: p in ps ==> !p.Rejected?
    ensures forall r :: r in f.refs ==> r.RefTo? && r.kind == DiagnosticReportKind && Resolves(r, f.entries)
  {
    forall r | r in f.refs ensures r.RefTo? && r.kind == DiagnosticReportKind && Resolves(r, f.entries) {
      var i :| 0 <= i < |f.refs| && f.refs[i] == r;
      assert ps[i] in ps;
    }
  }

  /** The diagnostic section, when its gate does not fire, references every report it filed and
      nothing else: one reference per plan, each to a DiagnosticReport among the appended entries. */
  lemma DiagnosticReferences(d: Diagnostic, k: Id, date: Stamp, m: map<string, string>)
    ensures var b := DiagnosticBuilt(d, false, k, date, m);
            && |b.sections| == 1 && b.sections[0].Some?
            && |b.sections[0].value.entry| == |DiagnosticPlans(d, date, m)|
            && forall r :: r in b.sections[0].value.entry ==> r.RefTo? && r.kind == DiagnosticReportKind && Resolves(r, b.entries)
  {
    var ps := DiagnosticPlans(d, date, m);
    FiledReferences(ps, k);
    DiagnosticPlansMeasuredOrAttached(d, date, m);
    EveryReferenceResolves(ps, FilePlans(ps, k));
  }

  // --- The lipid profile ------------------------------------------------------------------

  /** A non-blank lipid attachment wins over the discrete tests: the lipid profile then files a
      single attached DiagnosticReport and no Observation. */
  lemma LipidAttachmentWins(d: Diagnostic, date: Stamp, m: map<string, string>, k: Id)
    requires d.bioChemistry.Some? && d.bioChemistry.value.lipidProfile.Some?
    requires IsNotBlank(d.bioChemistry.value.lipidProfile.value.attachment)
    ensures var f := FilePlans(LipidPlans(d, date, m), k);
            && |f.entries| == 1 && f.entries[0].DiagnosticReport? && f.entries[0].reportCode == BioChemistryConcept()
            && f.refs == [RefTo(DiagnosticReportKind, Some(k))]
            && forall e :: e in f.entries ==> !e.Observation?
  {
    FileSingle(LipidPlans(d, date, m)[0], k);
  }

  /** One measured term files its DiagnosticReport and then its Observation. */
  lemma MeasuredOne(x: LipidTerm, t: Test, date: Stamp, k: Id)
    ensures FilePlans(Measurements([x], t, date), k)
            == Filed([MeasuredReport(k, LipidConcept(x)),
                      MeasuredObservation(k + 1, LipidConcept(x), Lit(t.unitOfMeasurement), t.result, date)],
                     [RefTo(DiagnosticReportKind, Some(k))], 2)
  {
    assert Measurements([x], t, date) == [MeasuredTerm(x, t, date)];
    FileSingle(MeasuredTerm(x, t, date), k);
  }

  lemma {:induction false} OnlyMatch(r: seq<LipidTerm>, x: LipidTerm)
    requires x in r && |r| <= 1
    ensures r == [x]
  {
  }

  /** A discrete test whose lower-cased name one matcher rule accepts files that rule's
      DiagnosticReport and then its Observation, carrying the test's unit and result. */
  lemma OneTestFiles(t: Test, date: Stamp, k: Id, x: LipidTerm)
    requires Fires(x, Lower(t.testName))
    ensures FilePlans(TestPlans(t, date), k)
            == Filed([MeasuredReport(k, LipidConcept(x)),
                      MeasuredObservation(k + 1, LipidConcept(x), Lit(t.unitOfMeasurement), t.result, date)],
                     [RefTo(DiagnosticReportKind, Some(k))], 2)
  {
    OnlyMatch(LipidMatches(Lower(t.testName)), x);
    MeasuredOne(x, t, date, k);
  }

  /** A discrete test no matcher rule accepts files nothing. */
  lemma UnmatchedTestFilesNothing(t: Test, date: Stamp, k: Id)
    requires forall x: LipidTerm :: !Fires(x, Lower(t.testName))
    ensures FilePlans(TestPlans(t, date), k) == Filed([], [], 0)
  {
    var r := LipidMatches(Lower(t.testName));
    if r != [] {
      FirstIsIn(r);
      assert false;
    }
  }

  lemma {:induction false} FirstIsIn(r: seq<LipidTerm>)
    requires r != []
    ensures r[0] in r
  {
  }

  // --- Examples ---------------------------------------------------------------------------

  /** Clinical data with every category absent adds no entry and no slot. */
  lemma NoCategoriesNoSections(sw: Switches, draw: nat -> bool, g: nat, k: Id, date: Stamp, m: map<string, string>)
    ensures Assembled(sw, ClinicalData(None, None, None, None, None, None), draw, g, k, date, m) == Nothing
  {
    var cd := ClinicalData(None, None, None, None, None, None);
    var d, o, l, c, w, a, k1, k2, k3, k4, k5, g2, g3 := AssembledInOrder(sw, cd, draw, g, k, date, m);
  }

  /** A record listing only the co-morbidity "Hypertension", when its gate does not fire: one
      Condition coded with the SNOMED hypertension term, the section referencing it, and the
      entry-less co-morbidity section (with the source's tables). */
  lemma HypertensionOnly(draw: nat -> bool, g: nat, k: Id, date: Stamp, m: map<string, string>)
    requires !draw(g)
    ensures var hypertension := Coded(Named(Constants.HypertensionCode), Named(Constants.SnomedSystemSct), Lit("Hypertension"), NoText);
            Assembled(SourceSwitches(), ClinicalData(None, None, None, Some([CoMorbidity("Hypertension")]), None, None),
                      draw, g, k, date, m)
            == Built([Condition(k, Some(PatientPath), None, Some(hypertension))],
                     [Some(SectionValue(Named(Constants.CoMorbidities), Some(hypertension), [RefTo(ConditionKind, Some(k))])),
                      Some(SectionValue(Named(Constants.CoMorbidities), Some(CoMorbiditySectionConcept("Hypertension")), []))],
                     1)
  {
    var items := [CoMorbidity("Hypertension")];
    var cd := ClinicalData(None, None, None, Some(items), None, None);
    var d, o, l, c, w, a, k1, k2, k3, k4, k5, g2, g3 := AssembledInOrder(SourceSwitches(), cd, draw, g, k, date, m);
    HypertensionIsCoded();
    CoMorbiditySlots(SourceSwitches(), items, draw, g, k);
    assert c == CoMorbidityBuilt(SourceSwitches(), items, draw, g, k);
  }
}
