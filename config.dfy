/** VerificationConfig (its defaults, the filling-in of the two list fields,
    and the dictionary round trip) and the parts of ReportGenerator that
    compute values rather than render text: the summary statistics and the
    dictionary form of a result. */
module Config {
  import opened Wrappers
  import opened Core

  datatype Viewport = Viewport(name: string, width: int, height: int)

  /** VerificationConfig; the two list fields are `None` until PostInit fills them. */
  datatype VerificationConfig = VerificationConfig(
    screenshotThreshold: real,
    screenshotTolerance: int,
    positionTolerance: int,
    sizeTolerance: int,
    alignmentTolerance: int,
    minContrastRatio: real,
    largeTextRatio: real,
    requiredAriaAttributes: Option<seq<string>>,
    maxLoadTime: int,
    maxDomReadyTime: int,
    maxFirstPaintTime: int,
    maxAnimationDuration: int,
    minFps: int,
    defaultViewports: Option<seq<Viewport>>,
    viewportTolerance: int,
    timeout: int,
    waitTime: int,
    hoverDelay: real)

  const DefaultAriaAttributes: seq<string> := ["aria-label", "aria-labelledby", "aria-describedby"]

  const DefaultViewports: seq<Viewport> :=
    [Viewport("mobile", 375, 667), Viewport("tablet", 768, 1024), Viewport("desktop", 1920, 1080)]

  /** `__post_init__`: a list left `None` gets its default; one that was given is kept. */
  function PostInit(c: VerificationConfig): (r: VerificationConfig)
    ensures r.requiredAriaAttributes.Some? && r.defaultViewports.Some?
    ensures c.requiredAriaAttributes.Some? ==> r.requiredAriaAttributes == c.requiredAriaAttributes
    ensures c.requiredAriaAttributes.None? ==> r.requiredAriaAttributes == Some(DefaultAriaAttributes)
    ensures c.defaultViewports.Some? ==> r.defaultViewports == c.defaultViewports
    ensures c.defaultViewports.None? ==> r.defaultViewports == Some(DefaultViewports)
    ensures r.(requiredAriaAttributes := c.requiredAriaAttributes,
               defaultViewports := c.defaultViewports) == c
  {
    c.(requiredAriaAttributes :=
         if c.requiredAriaAttributes.None? then Some(DefaultAriaAttributes) else c.requiredAriaAttributes,
       defaultViewports :=
         if c.defaultViewports.None? then Some(DefaultViewports) else c.defaultViewports)
  }

  /** Filling in twice is the same as filling in once. */
  lemma PostInitIdempotent(c: VerificationConfig)
    ensures PostInit(PostInit(c)) == PostInit(c)
  {
  }

  /** The field values before `__post_init__` runs, when no argument is given. */
  const Declared: VerificationConfig := VerificationConfig(
    0.95, 5, 5, 5, 5, 4.5, 3.0, None, 3000, 2000, 1000, 500, 30, None, 10, 10, 1, 0.5)

  /** `VerificationConfig()` */
  function Default(): (c: VerificationConfig)
    ensures c.screenshotThreshold == 0.95 && c.screenshotTolerance == 5
    ensures c.positionTolerance == 5 && c.sizeTolerance == 5 && c.alignmentTolerance == 5
    ensures c.minContrastRatio == 4.5 && c.largeTextRatio == 3.0
    ensures c.maxLoadTime == 3000 && c.maxDomReadyTime == 2000 && c.maxFirstPaintTime == 1000
    ensures c.maxAnimationDuration == 500 && c.minFps == 30 && c.viewportTolerance == 10
    ensures c.timeout == 10 && c.waitTime == 1 && c.hoverDelay == 0.5
    ensures c.requiredAriaAttributes == Some(DefaultAriaAttributes)
    ensures c.defaultViewports == Some(DefaultViewports)
  {
    PostInit(Declared)
  }

  // ---------------------------------------------------------------------------
  // to_dict / from_dict

  /** A value of the dictionary that `asdict` produces. */
  datatype Field =
    | RealField(r: real)
    | IntField(i: int)
    | NamesField(names: Option<seq<string>>)
    | ViewportsField(viewports: Option<seq<Viewport>>)

  const FieldNames: set<string> := {
    "screenshot_threshold", "screenshot_tolerance", "position_tolerance", "size_tolerance",
    "alignment_tolerance", "min_contrast_ratio", "large_text_ratio", "required_aria_attributes",
    "max_load_time", "max_dom_ready_time", "max_first_paint_time", "max_animation_duration",
    "min_fps", "default_viewports", "viewport_tolerance", "timeout", "wait_time", "hover_delay"}

  /** The `asdict` value of the field named `key`. */
  function FieldValue(c: VerificationConfig, key: string): Field
  {
    if key == "screenshot_threshold" then RealField(c.screenshotThreshold)
    else if key == "screenshot_tolerance" then IntField(c.screenshotTolerance)
    else if key == "position_tolerance" then IntField(c.positionTolerance)
    else if key == "size_tolerance" then IntField(c.sizeTolerance)
    else if key == "alignment_tolerance" then IntField(c.alignmentTolerance)
    else if key == "min_contrast_ratio" then RealField(c.minContrastRatio)
    else if key == "large_text_ratio" then RealField(c.largeTextRatio)
    else if key == "required_aria_attributes" then NamesField(c.requiredAriaAttributes)
    else if key == "max_load_time" then IntField(c.maxLoadTime)
    else if key == "max_dom_ready_time" then IntField(c.maxDomReadyTime)
    else if key == "max_first_paint_time" then IntField(c.maxFirstPaintTime)
    else if key == "max_animation_duration" then IntField(c.maxAnimationDuration)
    else if key == "min_fps" then IntField(c.minFps)
    else if key == "default_viewports" then ViewportsField(c.defaultViewports)
    else if key == "viewport_tolerance" then IntField(c.viewportTolerance)
    else if key == "timeout" then IntField(c.timeout)
    else if key == "wait_time" then IntField(c.waitTime)
    else RealField(c.hoverDelay)
  }

  /** `to_dict`: one entry per field, under the field's Python name. */
  function ToDict(c: VerificationConfig): (d: map<string, Field>)
    ensures d.Keys == FieldNames
  {
    map key | key in FieldNames :: FieldValue(c, key)
  }

  const WrongKind := "value of the wrong kind for this field"

  function RealArg(d: map<string, Field>, key: string, default: real): Outcome<real>
  {
    if key !in d then Ok(default)
    else if d[key].RealField? then Ok(d[key].r)
    else Raised(WrongKind)
  }

  function IntArg(d: map<string, Field>, key: string, default: int): Outcome<int>
  {
    if key !in d then Ok(default)
    else if d[key].IntField? then Ok(d[key].i)
    else Raised(WrongKind)
  }

  function NamesArg(d: map<string, Field>, key: string): Outcome<Option<seq<string>>>
  {
    if key !in d then Ok(None)
    else if d[key].NamesField? then Ok(d[key].names)
    else Raised(WrongKind)
  }

  function ViewportsArg(d: map<string, Field>, key: string): Outcome<Option<seq<Viewport>>>
  {
    if key !in d then Ok(None)
    else if d[key].ViewportsField? then Ok(d[key].viewports)
    else Raised(WrongKind)
  }

  /** `from_dict`, that is `cls(**d)`: a key that names no field raises a
      TypeError, a missing key takes its declared default, and the result is
      filled in by PostInit. */
  function FromDict(d: map<string, Field>): (r: Outcome<VerificationConfig>)
    ensures !(d.Keys <= FieldNames) ==> r.Raised?
    ensures r.Ok? ==> r.value == PostInit(r.value)
  {
    if !(d.Keys <= FieldNames) then Raised("got an unexpected keyword argument")
    else
      var screenshotThreshold :- RealArg(d, "screenshot_threshold", Declared.screenshotThreshold);
      var screenshotTolerance :- IntArg(d, "screenshot_tolerance", Declared.screenshotTolerance);
      var positionTolerance :- IntArg(d, "position_tolerance", Declared.positionTolerance);
      var sizeTolerance :- IntArg(d, "size_tolerance", Declared.sizeTolerance);
      var alignmentTolerance :- IntArg(d, "alignment_tolerance", Declared.alignmentTolerance);
      var minContrastRatio :- RealArg(d, "min_contrast_ratio", Declared.minContrastRatio);
      var largeTextRatio :- RealArg(d, "large_text_ratio", Declared.largeTextRatio);
      var requiredAriaAttributes :- NamesArg(d, "required_aria_attributes");
      var maxLoadTime :- IntArg(d, "max_load_time", Declared.maxLoadTime);
      var maxDomReadyTime :- IntArg(d, "max_dom_ready_time", Declared.maxDomReadyTime);
      var maxFirstPaintTime :- IntArg(d, "max_first_paint_time", Declared.maxFirstPaintTime);
      var maxAnimationDuration :- IntArg(d, "max_animation_duration", Declared.maxAnimationDuration);
      var minFps :- IntArg(d, "min_fps", Declared.minFps);
      var defaultViewports :- ViewportsArg(d, "default_viewports");
      var viewportTolerance :- IntArg(d, "viewport_tolerance", Declared.viewportTolerance);
      var timeout :- IntArg(d, "timeout", Declared.timeout);
      var waitTime :- IntArg(d, "wait_time", Declared.waitTime);
      var hoverDelay :- RealArg(d, "hover_delay", Declared.hoverDelay);
      Ok(PostInit(VerificationConfig(
        screenshotThreshold, screenshotTolerance, positionTolerance, sizeTolerance,
        alignmentTolerance, minContrastRatio, largeTextRatio, requiredAriaAttributes,
        maxLoadTime, maxDomReadyTime, maxFirstPaintTime, maxAnimationDuration, minFps,
        defaultViewports, viewportTolerance, timeout, waitTime, hoverDelay)))
  }

  /** `from_dict(to_dict(c))` reproduces every field of a constructed config
      (and fills in the lists of one that was never constructed). */
  lemma FromDictToDict(c: VerificationConfig)
    ensures FromDict(ToDict(c)) == Ok(PostInit(c))
    ensures c == PostInit(c) ==> FromDict(ToDict(c)) == Ok(c)
  {
  }

  /** `from_dict({})` is the default config. */
  lemma FromEmptyDict()
    ensures FromDict(map[]) == Ok(Default())
  {
  }

  // ---------------------------------------------------------------------------
  // ReportGenerator

  datatype ReportSummary = ReportSummary(
    totalChecks: nat, passed: nat, failed: nat, warnings: nat, skipped: nat, successRate: real)

  /** `_generate_summary`: counts per status and the percentage that passed. */
  function GenerateSummary<D>(rs: seq<VerificationResult<D>>): (s: ReportSummary)
    ensures s.totalChecks == |rs|
    ensures s.passed == CountStatus(rs, Pass) && s.failed == CountStatus(rs, Fail)
    ensures s.warnings == CountStatus(rs, Warning) && s.skipped == CountStatus(rs, Skip)
    ensures s.passed + s.failed + s.warnings + s.skipped == s.totalChecks
    ensures 0.0 <= s.successRate <= 100.0
    ensures |rs| == 0 ==> s.successRate == 0.0
    ensures s.successRate == 100.0 <==> |rs| > 0 && forall i :: 0 <= i < |rs| ==> rs[i].status == Pass
  {
    CountStatusTotal(rs);
    CountStatusAll(rs, Pass);
    Percentage(CountStatus(rs, Pass), |rs|);
    var passed := CountStatus(rs, Pass);
    ReportSummary(|rs|, passed, CountStatus(rs, Fail), CountStatus(rs, Warning),
                  CountStatus(rs, Skip), Rate(passed, |rs|))
  }

  /** `passed / total_checks * 100`, or 0 when there are no checks. */
  function Rate(part: nat, total: nat): real
  {
    if total > 0 then part as real / total as real * 100.0 else 0.0
  }

  /** A share as a percentage lies in [0, 100] and is 100 exactly when the
      share is the whole of a non-empty total. */
  lemma Percentage(part: nat, total: nat)
    requires part <= total
    ensures 0.0 <= Rate(part, total) <= 100.0
    ensures Rate(part, total) == 100.0 <==> 0 < total && part == total
  {
    if total == 0 { return; }
    var q := part as real / total as real;
    assert q * total as real == part as real;
    if part == total {
      assert q == 1.0;
    } else {
      assert q * total as real < total as real;
    }
  }

  datatype ResultDict<D> = ResultDict(
    checkName: string, status: string, message: string, details: Option<D>, durationMs: Option<real>)

  /** `_result_to_dict` (the timestamp is not modelled): the status becomes its
      string value, which maps back to the same status; the rest is copied. */
  function ResultToDict<D>(r: VerificationResult<D>): (d: ResultDict<D>)
    ensures StatusOf(d.status) == Some(r.status)
    ensures d.checkName == r.checkName && d.message == r.message
    ensures d.details == r.details && d.durationMs == r.durationMs
  {
    ResultDict(r.checkName, StatusValue(r.status), r.message, r.details, r.durationMs)
  }
}
