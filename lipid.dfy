/** The lipid-panel matcher of `createLipidProfileObservation`: eight independent tests on the
    lower-cased test name, four by prefix and four by equality, each one that fires yielding
    one LOINC term. */
module LipidPanel {
  import opened Strings
  import Constants
  import opened Fhir

  datatype LipidTerm =
    | TotalCholesterol | HdlCholesterol | LdlCholesterol | VldlCholesterol
    | Triglycerides | TriglyceridesFasting | FastingDuration | FastingStatus

  /** How one rule tests the name: `startsWith` or `equals`. */
  datatype Rule = Prefix(p: string) | Exactly(s: string)

  /** The rule of each term, with the matched values of `TOTAL`, `HDL`, `LDL`, `VLDL`,
      `TRIGLYCERIDES`, `TRIGLYCERIDES_FASTING` and the lower-cased `FASTING_DURATION` and
      `FASTING_STATUS`. */
  function RuleOf(t: LipidTerm): Rule
  {
    match t
    case TotalCholesterol => Prefix("total")
    case HdlCholesterol => Prefix("hdl")
    case LdlCholesterol => Prefix("ldl")
    case VldlCholesterol => Prefix("vldl")
    case Triglycerides => Exactly("triglycerides")
    case TriglyceridesFasting => Exactly("triglycerides fasting")
    case FastingDuration => Exactly("fasting duration")
    case FastingStatus => Exactly("fasting status")
  }

  predicate Fires(t: LipidTerm, testName: string)
  {
    match RuleOf(t)
    case Prefix(p) => StartsWith(testName, p)
    case Exactly(s) => testName == s
  }

  lemma {:induction false} PrefixAt(s: string, p: string, i: nat)
    requires StartsWith(s, p) && i < |p|
    ensures s[i] == p[i]
  {
    assert s[..|p|][i] == p[i];
  }

  /** The terms whose `if` fires, in the order the source tests them. At most one fires,
      and a term is produced exactly when its rule accepts the name. */
  function LipidMatches(testName: string): (r: seq<LipidTerm>)
    ensures forall t :: t in r <==> Fires(t, testName)
    ensures |r| <= 1
  {
    var r := PrefixMatches(testName) + ExactMatches(testName);
    RulesExclusive(testName);
    FiresByRule(testName);
    r
  }

  /** The terms among `a`, `b`, `c`, `d` whose test passed, in that order. */
  function Passed(fa: bool, a: LipidTerm, fb: bool, b: LipidTerm, fc: bool, c: LipidTerm, fd: bool, d: LipidTerm)
    : seq<LipidTerm>
  {
    (if fa then [a] else []) + (if fb then [b] else []) + (if fc then [c] else []) + (if fd then [d] else [])
  }

  /** The four prefix tests, in source order. */
  function PrefixMatches(testName: string): seq<LipidTerm>
  {
    Passed(StartsWith(testName, "total"), TotalCholesterol, StartsWith(testName, "hdl"), HdlCholesterol,
           StartsWith(testName, "ldl"), LdlCholesterol, StartsWith(testName, "vldl"), VldlCholesterol)
  }

  /** The four equality tests, in source order. */
  function ExactMatches(testName: string): seq<LipidTerm>
  {
    Passed(testName == "triglycerides", Triglycerides, testName == "triglycerides fasting", TriglyceridesFasting,
           testName == "fasting duration", FastingDuration, testName == "fasting status", FastingStatus)
  }

  /** No name passes two of the eight tests: the rules differ in their first or second letter,
      and the equality rules are four distinct strings. */
  lemma {:induction false} RulesExclusive(n: string)
    ensures forall t, u :: Fires(t, n) && Fires(u, n) ==> t == u
  {
    if |n| >= 2 {
      forall t | Fires(t, n) ensures (match RuleOf(t) case Prefix(p) => n[0] == p[0] && n[1] == p[1]
                                                    case Exactly(s) => n == s)
      {
        match RuleOf(t)
        case Prefix(p) => PrefixAt(n, p, 0); PrefixAt(n, p, 1);
        case Exactly(s) =>
      }
    }
  }

  /** `Fires` spelled out term by term. */
  lemma {:induction false} FiresByRule(n: string)
    ensures Fires(TotalCholesterol, n) == StartsWith(n, "total")
    ensures Fires(HdlCholesterol, n) == StartsWith(n, "hdl")
    ensures Fires(LdlCholesterol, n) == StartsWith(n, "ldl")
    ensures Fires(VldlCholesterol, n) == StartsWith(n, "vldl")
    ensures Fires(Triglycerides, n) == (n == "triglycerides")
    ensures Fires(TriglyceridesFasting, n) == (n == "triglycerides fasting")
    ensures Fires(FastingDuration, n) == (n == "fasting duration")
    ensures Fires(FastingStatus, n) == (n == "fasting status")
  {
  }

  /** The code of each term, used both as the report's and as the observation's code. */
  function LipidConcept(t: LipidTerm): Concept
  {
    match t
    case TotalCholesterol =>
      Coded(Named(Constants.CholesterolTotalLoincCode), Named(Constants.LoincSystem),
            Named(Constants.CholesterolTotalCholesterolInHdlMassRatioInSerumOrPlasma),
            Named(Constants.CholesterolTotalCholesterolInHdlMassRatioInSerumOrPlasma))
    case HdlCholesterol =>
      Coded(Named(Constants.CholesterolHdlLoincCode), Named(Constants.LoincSystem),
            Named(Constants.CholesterolInHdlMassVolumeInSerumOrPlasma), Named(Constants.CholesterolInHdlMassVolumeInSerumOrPlasma))
    case LdlCholesterol =>
      Coded(Named(Constants.CholesterolLdlLoincCode), Named(Constants.LoincSystem),
            Named(Constants.CholesterolInLdlMassVolumeInSerumOrPlasmaByCalculation),
            Named(Constants.CholesterolInLdlMassVolumeInSerumOrPlasmaByCalculation))
    case VldlCholesterol =>
      Coded(Named(Constants.CholesterolVldlLoincCode), Named(Constants.LoincSystem),
            Named(Constants.CholesterolInVldlMassVolumeInSerumOrPlasmaByCalculation),
            Named(Constants.CholesterolInVldlMassVolumeInSerumOrPlasmaByCalculation))
    case Triglycerides =>
      Coded(Named(Constants.TriglycerideLoincCode), Named(Constants.LoincSystem),
            Named(Constants.TriglycerideMassVolumeInSerumOrPlasma), Named(Constants.TriglycerideMassVolumeInSerumOrPlasma))
    case TriglyceridesFasting =>
      Coded(Named(Constants.TriglycerideFastingLoincCode), Named(Constants.LoincSystem),
            Named(Constants.TriglycerideMassVolumeInSerumOrPlasmaFasting), Named(Constants.TriglycerideMassVolumeInSerumOrPlasmaFasting))
    case FastingDuration =>
      Coded(Named(Constants.FastingDurationLoincCode), Named(Constants.LoincSystem), Named(Constants.FastingDuration), Named(Constants.FastingDuration))
    case FastingStatus =>
      Coded(Named(Constants.FastingStatusLoincCode), Named(Constants.LoincSystem), Named(Constants.FastingStatus), Named(Constants.FastingStatus))
  }

  /** Distinct terms carry distinct codes. */
  lemma LipidConceptInjective(t: LipidTerm, u: LipidTerm)
    requires LipidConcept(t) == LipidConcept(u)
    ensures t == u
  {
  }

  /** "Total Cholesterol" is classified by the TOTAL prefix. */
  lemma TotalCholesterolExample()
    ensures LipidMatches(Lower("Total Cholesterol")) == [TotalCholesterol]
  {
    var n := Lower("Total Cholesterol");
    assert n[..5] == "total";
    assert n[0] == 't' && n[1] == 'o';
  }

  /** "Triglycerides Fasting" is classified by the fasting rule, not the plain one. */
  lemma TriglyceridesFastingExample()
    ensures LipidMatches(Lower("Triglycerides Fasting")) == [TriglyceridesFasting]
  {
    assert Lower("Triglycerides Fasting") == "triglycerides fasting";
  }

  /** "Vitamin D" matches no rule and yields no observation. */
  lemma VitaminDExample()
    ensures LipidMatches(Lower("Vitamin D")) == []
  {
    assert Lower("Vitamin D")[0] == 'v' && Lower("Vitamin D")[1] == 'i';
    assert |Lower("Vitamin D")| == 9;
  }

  /** A VLDL name is not taken for LDL: the prefix tests look at the start of the name only. */
  lemma {:induction false} VldlIsNotLdl(n: string)
    requires StartsWith(n, "vldl")
    ensures LipidMatches(n) == [VldlCholesterol]
  {
    assert Fires(VldlCholesterol, n);
  }
}
