/** The verification framework shared by every checker: the four statuses, the
    result record, the loop that turns per-element entries into a checker's
    verdict, the status aggregation of the top-level verifiers, and the two
    result logs that the source keeps in objects (a verifier's `results` and a
    suite's `results`). */
module Core {
  import opened Wrappers
  import opened Text

  /** VerificationStatus */
  datatype Status = Pass | Fail | Warning | Skip

  /** `status.value` */
  function StatusValue(s: Status): (v: string)
    ensures StatusOf(v) == Some(s)
    ensures v in StatusValues
  {
    match s
    case Pass => "pass"
    case Fail => "fail"
    case Warning => "warning"
    case Skip => "skip"
  }

  /** `VerificationStatus(v)`: the status whose value is `v`, if any. */
  function StatusOf(v: string): Option<Status>
  {
    if v == "pass" then Some(Pass)
    else if v == "fail" then Some(Fail)
    else if v == "warning" then Some(Warning)
    else if v == "skip" then Some(Skip)
    else None
  }

  const StatusValues: set<string> := {"pass", "fail", "warning", "skip"}

  /** An element's observed box, as `_get_element_bounds` reads it from the
      element's location and size. */
  datatype Bounds = Bounds(x: int, y: int, width: int, height: int)

  /** VerificationResult; `details` is generic because each checker stores its
      own structure there. The wall-clock timestamp is not modelled. */
  datatype VerificationResult<D> = VerificationResult(
    checkName: string,
    status: Status,
    message: string,
    details: Option<D>,
    durationMs: Option<real>)

  /** One entry of a checker's per-element list: either the record the check
      produced, or the `{'element': ..., 'passed': False, 'error': str(e)}`
      stand-in that the checker's `verify` loop writes when the check raised. */
  datatype Entry<L, R> = Checked(result: R) | Errored(key: L, error: string)

  /** A checker's entry for one element: its result, or the error entry that
      its `verify` writes when the check raised. */
  function EntryOf<L, R>(key: L, outcome: Outcome<R>): Entry<L, R>
  {
    match outcome
    case Ok(result) => Checked(result)
    case Raised(e) => Errored(key, e)
  }

  /** Looking up every element of a list in order: all boxes, or the first
      lookup's exception (the later ones are never attempted). */
  function AllFound<T>(lookups: seq<Outcome<T>>): (r: Outcome<seq<T>>)
    ensures r.Ok? <==> forall i :: 0 <= i < |lookups| ==> lookups[i].Ok?
    ensures r.Ok? ==>
              |r.value| == |lookups| && forall i :: 0 <= i < |lookups| ==> lookups[i] == Ok(r.value[i])
    ensures r.Raised? ==>
              exists i :: 0 <= i < |lookups| && lookups[i] == Raised(r.error)
                          && forall k :: 0 <= k < i ==> lookups[k].Ok?
  {
    if lookups == [] then Ok([])
    else if lookups[0].Raised? then Raised(lookups[0].error)
    else
      var rest :- AllFound(lookups[1..]);
      Ok([lookups[0].value] + rest)
  }

  // ---------------------------------------------------------------------------
  // Counting results by status

  function CountStatus<D>(rs: seq<VerificationResult<D>>, s: Status): (n: nat)
    ensures n <= |rs|
  {
    if rs == [] then 0
    else CountStatus(rs[..|rs| - 1], s) + (if rs[|rs| - 1].status == s then 1 else 0)
  }

  /** The four statuses are exhaustive, so their counts add up to the length. */
  lemma {:induction false} CountStatusTotal<D>(rs: seq<VerificationResult<D>>)
    ensures CountStatus(rs, Pass) + CountStatus(rs, Fail) + CountStatus(rs, Warning)
            + CountStatus(rs, Skip) == |rs|
  {
    if rs != [] {
      CountStatusTotal(rs[..|rs| - 1]);
    }
  }

  /** Every result has status `s` exactly when the count of `s` is the length. */
  lemma {:induction false} CountStatusAll<D>(rs: seq<VerificationResult<D>>, s: Status)
    ensures CountStatus(rs, s) == |rs| <==> forall i :: 0 <= i < |rs| ==> rs[i].status == s
  {
    if rs != [] {
      var init := rs[..|rs| - 1];
      CountStatusAll(init, s);
      assert forall i :: 0 <= i < |init| ==> init[i] == rs[i];
    }
  }

  /** No result has status `s` exactly when the count of `s` is zero. */
  lemma {:induction false} CountStatusNone<D>(rs: seq<VerificationResult<D>>, s: Status)
    ensures CountStatus(rs, s) == 0 <==> forall i :: 0 <= i < |rs| ==> rs[i].status != s
  {
    if rs != [] {
      var init := rs[..|rs| - 1];
      CountStatusNone(init, s);
      assert forall i :: 0 <= i < |init| ==> init[i] == rs[i];
    }
  }

  /** The `{status.value: count}` dictionary of `get_summary`. */
  function Summary<D>(rs: seq<VerificationResult<D>>): map<string, nat>
  {
    map["pass" := CountStatus(rs, Pass), "fail" := CountStatus(rs, Fail),
        "warning" := CountStatus(rs, Warning), "skip" := CountStatus(rs, Skip)]
  }

  /** A summary has one key per status and its counts add up to the number of results. */
  lemma SummaryTotal<D>(rs: seq<VerificationResult<D>>)
    ensures Summary(rs).Keys == StatusValues
    ensures Summary(rs)["pass"] + Summary(rs)["fail"] + Summary(rs)["warning"]
            + Summary(rs)["skip"] == |rs|
  {
    CountStatusTotal(rs);
  }

  /** Counting one more result adds one to the count of its status. */
  lemma SummaryStep<D>(rs: seq<VerificationResult<D>>, r: VerificationResult<D>)
    ensures var key := StatusValue(r.status);
            Summary(rs + [r]) == Summary(rs)[key := Summary(rs)[key] + 1]
  {
    var t := rs + [r];
    assert t[..|t| - 1] == rs;
  }

  /** The sum of the recorded durations (`if result.duration_ms:` skips the
      missing ones; a zero adds nothing either way). */
  function TotalDuration<D>(rs: seq<VerificationResult<D>>): real
  {
    if rs == [] then 0.0
    else TotalDuration(rs[..|rs| - 1])
         + (match rs[|rs| - 1].durationMs case Some(d) => d case None => 0.0)
  }

  lemma TotalDurationStep<D>(rs: seq<VerificationResult<D>>, r: VerificationResult<D>)
    ensures TotalDuration(rs + [r])
            == TotalDuration(rs) + (match r.durationMs case Some(d) => d case None => 0.0)
  {
    var t := rs + [r];
    assert t[..|t| - 1] == rs;
  }

  // ---------------------------------------------------------------------------
  // The per-checker verify loop and the top-level aggregation

  function CountWhere<R>(rs: seq<R>, p: R -> bool): (n: nat)
    ensures n <= |rs|
  {
    if rs == [] then 0 else CountWhere(rs[..|rs| - 1], p) + (if p(rs[|rs| - 1]) then 1 else 0)
  }

  /** Every entry passes exactly when the passing count is the length. */
  lemma {:induction false} CountWhereAll<R>(rs: seq<R>, p: R -> bool)
    ensures CountWhere(rs, p) == |rs| <==> forall i :: 0 <= i < |rs| ==> p(rs[i])
  {
    if rs != [] {
      var init := rs[..|rs| - 1];
      CountWhereAll(init, p);
      assert forall i :: 0 <= i < |init| ==> init[i] == rs[i];
    }
  }

  /** The loop every checker's `verify` runs over its entries: the
      `all_passed` flag and the passing count that its message prints. */
  method Tally<R>(entries: seq<R>, passed: R -> bool) returns (allPassed: bool, passedCount: nat)
    ensures allPassed <==> forall i :: 0 <= i < |entries| ==> passed(entries[i])
    ensures passedCount == CountWhere(entries, passed)
    ensures allPassed <==> passedCount == |entries|
  {
    allPassed, passedCount := true, 0;
    var i := 0;
    while i < |entries|
      invariant 0 <= i <= |entries|
      invariant allPassed <==> forall k :: 0 <= k < i ==> passed(entries[k])
      invariant passedCount == CountWhere(entries[..i], passed)
    {
      assert entries[..i + 1][..i] == entries[..i];
      if passed(entries[i]) {
        passedCount := passedCount + 1;
      } else {
        allPassed := false;
      }
      i := i + 1;
    }
    assert entries[..i] == entries;
    CountWhereAll(entries, passed);
  }

  /** The `"<prefix>k/n<suffix>"` message of a checker's verdict. */
  function CountMessage(prefix: string, passedCount: nat, total: nat, suffix: string): string
  {
    prefix + NatToString(passedCount) + "/" + NatToString(total) + suffix
  }

  /** The end of every checker's `verify`: PASS when every entry passed,
      otherwise FAIL, with the `k/n` count in the message. */
  method Conclude<R>(name: string, prefix: string, suffix: string, entries: seq<R>, passed: R -> bool)
    returns (r: VerificationResult<seq<R>>)
    ensures r.checkName == name && r.details == Some(entries) && r.durationMs == None
    ensures r.status == Pass <==> forall i :: 0 <= i < |entries| ==> passed(entries[i])
    ensures r.status == Pass || r.status == Fail
    ensures r.message == CountMessage(prefix, CountWhere(entries, passed), |entries|, suffix)
  {
    var allPassed, passedCount := Tally(entries, passed);
    var status := if allPassed then Pass else Fail;
    r := VerificationResult(name, status, CountMessage(prefix, passedCount, |entries|, suffix),
                            Some(entries), None);
  }

  /** The `verify` of a per-element checker: WARNING with `nothingMessage`
      when there is nothing to check; otherwise every input is checked in
      order (`check` already turns an exception into an error entry), and
      the verdict is PASS exactly when every entry passed. */
  method VerifyEach<S, R>(name: string, nothingMessage: string, prefix: string, suffix: string,
                          inputs: seq<S>, check: S -> R, passed: R -> bool)
    returns (r: VerificationResult<seq<R>>)
    ensures inputs == [] ==> r == VerificationResult(name, Warning, nothingMessage, None, None)
    ensures inputs != [] ==>
              r.checkName == name && r.durationMs == None && r.details.Some?
              && |r.details.value| == |inputs|
              && (forall i :: 0 <= i < |inputs| ==> r.details.value[i] == check(inputs[i]))
              && (r.status == Pass <==> forall i :: 0 <= i < |inputs| ==> passed(check(inputs[i])))
              && (r.status == Pass || r.status == Fail)
              && r.message == CountMessage(prefix, CountWhere(r.details.value, passed), |inputs|, suffix)
  {
    if inputs == [] {
      return VerificationResult(name, Warning, nothingMessage, None, None);
    }
    var entries: seq<R> := [];
    var i := 0;
    while i < |inputs|
      invariant 0 <= i <= |inputs|
      invariant |entries| == i
      invariant forall k :: 0 <= k < i ==> entries[k] == check(inputs[k])
    {
      entries := entries + [check(inputs[i])];
      i := i + 1;
    }
    r := Conclude(name, prefix, suffix, entries, passed);
  }

  /** The overall status of a top-level verifier (LayoutVerifier,
      AccessibilityVerifier, VisualVerifier, ResponsiveVerifier,
      PerformanceVerifier, InteractionVerifier): PASS when every sub-result
      passed (also when there are none), otherwise FAIL when one failed,
      otherwise WARNING. */
  function OverallStatus(statuses: seq<Status>): (s: Status)
    ensures s == Pass <==> forall i :: 0 <= i < |statuses| ==> statuses[i] == Pass
    ensures s == Fail <==> exists i :: 0 <= i < |statuses| && statuses[i] == Fail
    ensures s == Warning <==>
              (exists i :: 0 <= i < |statuses| && statuses[i] != Pass)
              && (forall i :: 0 <= i < |statuses| ==> statuses[i] != Fail)
    ensures s != Skip
  {
    if forall i :: 0 <= i < |statuses| ==> statuses[i] == Pass then Pass
    else if exists i :: 0 <= i < |statuses| && statuses[i] == Fail then Fail
    else Warning
  }

  /** The message that goes with OverallStatus; `area` is "layout",
      "accessibility", "visual", "responsive design", "performance" or "interaction". */
  function OverallMessage(area: string, s: Status): string
  {
    match s
    case Pass => "All " + area + " checks passed"
    case Fail => "Some " + area + " checks failed"
    case _ => "Some " + area + " checks have warnings"
  }

  // ---------------------------------------------------------------------------
  // The result logs

  /** What `run_verification` records: the verifier's own result with its
      duration set, or a FAIL named after the verifier's class when `verify` raised. */
  function Recorded<D>(name: string, outcome: Outcome<VerificationResult<D>>, durationMs: real)
    : (r: VerificationResult<D>)
    ensures r.durationMs == Some(durationMs)
    ensures outcome.Raised? ==>
              r.checkName == name && r.status == Fail && r.details == None
              && r.message == "Verification failed with error: " + outcome.error
    ensures outcome.Ok? ==>
              r.checkName == outcome.value.checkName && r.status == outcome.value.status
              && r.message == outcome.value.message && r.details == outcome.value.details
  {
    match outcome
    case Ok(result) => result.(durationMs := Some(durationMs))
    case Raised(e) =>
      VerificationResult(name, Fail, "Verification failed with error: " + e, None, Some(durationMs))
  }

  /** BaseVerifier: its result log. The abstract `verify` is not modelled; its
      outcome for each run (a result or an exception) is given to
      RunVerification, and so is the measured duration. */
  class BaseVerifier<D> {
    const name: string
    var results: seq<VerificationResult<D>>

    constructor (name: string)
      ensures this.name == name && results == []
    {
      this.name := name;
      results := [];
    }

    /** `run_verification`: exactly one result is appended, whether `verify`
        returned or raised. */
    method RunVerification(outcome: Outcome<VerificationResult<D>>, durationMs: real)
      returns (r: VerificationResult<D>)
      modifies this
      ensures r == Recorded(name, outcome, durationMs)
      ensures results == old(results) + [r]
    {
      r := Recorded(name, outcome, durationMs);
      results := results + [r];
    }

    /** `get_results` returns a copy; a Dafny sequence is a value, so a caller
        changing its copy cannot change `results`. */
    method GetResults() returns (rs: seq<VerificationResult<D>>)
      ensures rs == results
    {
      rs := results;
    }

    method ClearResults()
      modifies this
      ensures results == []
    {
      results := [];
    }

    /** `get_summary`: one key per status, counted result by result. */
    method GetSummary() returns (summary: map<string, nat>)
      ensures summary == Summary(results)
      ensures summary.Keys == StatusValues
      ensures forall s: Status :: summary[StatusValue(s)] == CountStatus(results, s)
    {
      summary := map["pass" := 0, "fail" := 0, "warning" := 0, "skip" := 0];
      var i := 0;
      while i < |results|
        invariant 0 <= i <= |results|
        invariant summary == Summary(results[..i])
      {
        assert results[..i + 1] == results[..i] + [results[i]];
        SummaryStep(results[..i], results[i]);
        var key := StatusValue(results[i].status);
        summary := summary[key := summary[key] + 1];
        i := i + 1;
      }
      assert results[..i] == results;
    }
  }

  /** The appended results that RunAll leaves in verifier `v`'s own log after
      the first `n` verifiers ran (a verifier added twice runs twice). */
  function Appended<D>(v: BaseVerifier<D>, vs: seq<BaseVerifier<D>>,
                       outcomes: seq<Outcome<VerificationResult<D>>>, durations: seq<real>, n: nat)
    : seq<VerificationResult<D>>
    requires n <= |vs| && |outcomes| == |vs| && |durations| == |vs|
  {
    if n == 0 then []
    else Appended(v, vs, outcomes, durations, n - 1)
         + (if vs[n - 1] == v then [Recorded(v.name, outcomes[n - 1], durations[n - 1])] else [])
  }

  /** The results RunAll collects from the first `n` verifiers. */
  function Recordings<D>(vs: seq<BaseVerifier<D>>, outcomes: seq<Outcome<VerificationResult<D>>>,
                         durations: seq<real>, n: nat): seq<VerificationResult<D>>
    requires n <= |vs| && |outcomes| == |vs| && |durations| == |vs|
  {
    if n == 0 then [] else Recordings(vs, outcomes, durations, n - 1) + [Recorded(vs[n - 1].name, outcomes[n - 1], durations[n - 1])]
  }

  lemma {:induction false} RecordingsIndex<D>(vs: seq<BaseVerifier<D>>, outcomes: seq<Outcome<VerificationResult<D>>>,
                                              durations: seq<real>, n: nat)
    requires n <= |vs| && |outcomes| == |vs| && |durations| == |vs|
    ensures |Recordings(vs, outcomes, durations, n)| == n
    ensures forall k :: 0 <= k < n ==>
              Recordings(vs, outcomes, durations, n)[k] == Recorded(vs[k].name, outcomes[k], durations[k])
  {
    if n > 0 {
      RecordingsIndex(vs, outcomes, durations, n - 1);
    }
  }

  datatype VerifierSummary = VerifierSummary(name: string, results: map<string, nat>)

  datatype SuiteSummary = SuiteSummary(
    suiteName: string,
    totalChecks: nat,
    statusCounts: map<string, nat>,
    totalDurationMs: real,
    verifiers: seq<VerifierSummary>)

  /** VerificationSuite: its verifiers in insertion order and the results of its last run. */
  class VerificationSuite<D> {
    const name: string
    var verifiers: seq<BaseVerifier<D>>
    var results: seq<VerificationResult<D>>

    constructor (name: string)
      ensures this.name == name && verifiers == [] && results == []
    {
      this.name := name;
      verifiers := [];
      results := [];
    }

    method AddVerifier(v: BaseVerifier<D>)
      modifies this
      ensures verifiers == old(verifiers) + [v] && results == old(results)
    {
      verifiers := verifiers + [v];
    }

    /** `run_all`: earlier results are discarded; afterwards there is exactly
        one result per verifier, in insertion order, and each verifier's own
        log has grown by what it recorded. */
    method RunAll(outcomes: seq<Outcome<VerificationResult<D>>>, durations: seq<real>)
      returns (rs: seq<VerificationResult<D>>)
      requires |outcomes| == |verifiers| && |durations| == |verifiers|
      modifies this, verifiers
      ensures verifiers == old(verifiers)
      ensures rs == results && |results| == |verifiers|
      ensures forall i :: 0 <= i < |verifiers| ==>
                results[i] == Recorded(verifiers[i].name, outcomes[i], durations[i])
      ensures forall v :: v in verifiers ==>
                v.results == old(v.results) + Appended(v, verifiers, outcomes, durations, |verifiers|)
    {
      ghost var vs := verifiers;
      results := [];
      var i := 0;
      while i < |verifiers|
        invariant verifiers == vs
        invariant 0 <= i <= |vs|
        invariant results == Recordings(vs, outcomes, durations, i)
        invariant forall v :: v in vs ==> v.results == old(v.results) + Appended(v, vs, outcomes, durations, i)
      {
        var w := verifiers[i];
        label BeforeRun:
        var r := w.RunVerification(outcomes[i], durations[i]);
        forall v | v in vs
          ensures v.results == old(v.results) + Appended(v, vs, outcomes, durations, i + 1)
        {
          assert old@BeforeRun(v.results) == old(v.results) + Appended(v, vs, outcomes, durations, i);
          if v == w {
            assert v.results == old@BeforeRun(v.results) + [r];
          } else {
            assert v.results == old@BeforeRun(v.results);
          }
        }
        results := results + [r];
        i := i + 1;
      }
      RecordingsIndex(vs, outcomes, durations, i);
      rs := results;
    }

    /** `get_suite_summary` */
    method GetSuiteSummary() returns (s: SuiteSummary)
      ensures s.suiteName == name && s.totalChecks == |results|
      ensures s.statusCounts == Summary(results)
      ensures s.totalDurationMs == TotalDuration(results)
      ensures |s.verifiers| == |verifiers|
      ensures forall i :: 0 <= i < |verifiers| ==>
                s.verifiers[i] == VerifierSummary(verifiers[i].name, Summary(verifiers[i].results))
    {
      var counts := map["pass" := 0, "fail" := 0, "warning" := 0, "skip" := 0];
      var duration := 0.0;
      var i := 0;
      while i < |results|
        invariant 0 <= i <= |results|
        invariant counts == Summary(results[..i])
        invariant duration == TotalDuration(results[..i])
      {
        assert results[..i + 1] == results[..i] + [results[i]];
        SummaryStep(results[..i], results[i]);
        TotalDurationStep(results[..i], results[i]);
        var key := StatusValue(results[i].status);
        counts := counts[key := counts[key] + 1];
        if results[i].durationMs.Some? {
          duration := duration + results[i].durationMs.value;
        }
        i := i + 1;
      }
      assert results[..i] == results;
      var perVerifier: seq<VerifierSummary> := [];
      var j := 0;
      while j < |verifiers|
        invariant 0 <= j <= |verifiers|
        invariant |perVerifier| == j
        invariant forall k :: 0 <= k < j ==>
                    perVerifier[k] == VerifierSummary(verifiers[k].name, Summary(verifiers[k].results))
      {
        var summary := verifiers[j].GetSummary();
        perVerifier := perVerifier + [VerifierSummary(verifiers[j].name, summary)];
        j := j + 1;
      }
      s := SuiteSummary(name, |results|, counts, duration, perVerifier);
    }
  }
}
