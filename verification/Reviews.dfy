/**
 * The review verdict and its pass gate (review.utility.ts). Parsing the model's
 * output into `RawReview` is the schema's work; what is modelled is everything
 * that happens to a reply the schema accepted.
 */
module Reviews {
  import opened Common

  datatype Verdict = Pass | Fail
  datatype Severity = Low | Medium | High | Critical
  datatype Issue = Issue(severity: Severity, title: string)
  datatype Dimensions = Dimensions(correctness: bool, tests: bool, criteria: bool, security: bool)

  const ALL_DIMENSIONS_PASS := Dimensions(true, true, true, true)
  const UNPARSEABLE_REVIEW_TITLE := "Unparseable review output"

  /** A reply that satisfied the schema; verdict and dimensions may be absent. */
  datatype RawReview = RawReview(verdict: Option<Verdict>, dimensions: Option<Dimensions>, issues: seq<Issue>)

  datatype ReviewResult = ReviewResult(verdict: Verdict, dimensions: Dimensions, issues: seq<Issue>, verifyOk: Option<bool>)

  predicate AllDimensionsPass(d: Dimensions) {
    d.correctness && d.tests && d.criteria && d.security
  }

  predicate Blocking(i: Issue) {
    i.severity in {High, Critical}
  }

  predicate HasBlockingIssue(issues: seq<Issue>) {
    exists i :: 0 <= i < |issues| && Blocking(issues[i])
  }

  /** parseReview after the schema: an explicit verdict is trusted, an absent one is derived. */
  function FromRaw(raw: RawReview): ReviewResult {
    var dimensions := if raw.dimensions.Some? then raw.dimensions.value else ALL_DIMENSIONS_PASS;
    var verdict :=
      if raw.verdict.Some? then raw.verdict.value
      else if HasBlockingIssue(raw.issues) || !AllDimensionsPass(dimensions) then Fail else Pass;
    ReviewResult(verdict, dimensions, raw.issues, None)
  }

  /** The fallback result recorded when no verdict could be recovered. */
  function Unparseable(verifyOk: Option<bool>): ReviewResult {
    ReviewResult(Fail, Dimensions(false, false, false, false), [Issue(High, UNPARSEABLE_REVIEW_TITLE)], verifyOk)
  }

  predicate MeetsThreshold(r: ReviewResult) {
    r.verdict == Pass && AllDimensionsPass(r.dimensions) && !HasBlockingIssue(r.issues) && r.verifyOk != Some(false)
  }

  /**
   * What is stored of a reply: its issues, its dimensions or all passed, and its verdict;
   * left out, that is PASS exactly if nothing high or critical and no failed dimension
   * stands against it.
   */
  predicate Stores(raw: RawReview, r: ReviewResult) {
    r.issues == raw.issues
    && r.dimensions == (if raw.dimensions.Some? then raw.dimensions.value else Dimensions(true, true, true, true))
    && (raw.verdict.Some? ==> r.verdict == raw.verdict.value)
    && (raw.verdict.None? ==>
          (r.verdict == Pass <==> r.dimensions == Dimensions(true, true, true, true)
                                  && forall i :: 0 <= i < |raw.issues| ==> raw.issues[i].severity in {Low, Medium}))
  }

  lemma RepliesAreStored(raw: RawReview)
    ensures Stores(raw, FromRaw(raw)) && FromRaw(raw).verifyOk == None
  {
    if raw.verdict.None? {
      GateIsTheRubric(raw, None);
    }
  }

  /** The rubric: no FAIL, no failed dimension, nothing high or critical. */
  predicate MeetsRubric(raw: RawReview) {
    raw.verdict != Some(Fail)
    && raw.dimensions in {None, Some(Dimensions(true, true, true, true))}
    && forall i :: 0 <= i < |raw.issues| ==> raw.issues[i].severity in {Low, Medium}
  }

  /**
   * The gate over a parsed reply, whatever it claimed: an explicit PASS never
   * outvotes a failed dimension, a blocking issue or a red build, and leaving the
   * verdict out neither helps nor hurts.
   */
  lemma GateIsTheRubric(raw: RawReview, verifyOk: Option<bool>)
    ensures MeetsThreshold(FromRaw(raw).(verifyOk := verifyOk)) <==> MeetsRubric(raw) && verifyOk != Some(false)
  {
    if forall i :: 0 <= i < |raw.issues| ==> raw.issues[i].severity in {Low, Medium} {
      assert forall i :: 0 <= i < |raw.issues| ==> raw.issues[i].severity in {Low, Medium} && !Blocking(raw.issues[i]);
      assert !HasBlockingIssue(raw.issues);
    } else {
      var i :| 0 <= i < |raw.issues| && raw.issues[i].severity !in {Low, Medium};
      assert Blocking(raw.issues[i]) by {
        match raw.issues[i].severity { case Low => case Medium => case High => case Critical => }
      }
    }
  }
}
