/** The performance checkers: the decisions LoadTimeChecker takes on a page
    load, a series of navigations and the page's resource entries, the
    decisions AnimationChecker takes on an element's computed animation and
    transition, and both checkers' `verify` loops. Times are the measured
    numbers (in milliseconds), given as inputs; a driver call that raised is
    given as `Raised`. */
module Performance {
  import opened Wrappers
  import opened Text
  import opened Core
  import Arith

  // ---------------------------------------------------------------------------
  // Test records

  /** A resource entry of the page's performance timeline. */
  datatype Resource = Resource(name: string, duration: real, size: int, initiatorType: string)

  /** The kind of each check a test records (its `type` field and the
      numbers it keeps); the message strings are not modelled. */
  datatype PerfCheckKind =
    | TotalLoadTime(loadTime: real, limit: real)
    | DomReadyTime(domReady: real, limit: real)
    | PerformanceApiLoad(loadComplete: real)
    | PerformanceMetricsError(error: string)
    | PageLoadError(error: string)
    | NoNavigationUrls
    | NavigationTime(url: string, navTime: real)
    | NavigationFailed(url: string, error: string)
    | AverageNavigation(average: real, navigations: nat)
    | NoResourceData
    | SlowResources(slowCount: nat, shown: seq<Resource>)
    | LargeResources(largeCount: nat, shown: seq<Resource>)
    | ResourceCount(total: nat)
    | ResourceError(error: string)
    | NoAnimation
    | AnimationDuration(duration: real, limit: real)
    | AnimationTiming(timingFunction: string)
    | NoTransition
    | TransitionDuration(duration: real, limit: real)
    | AnimationFailed(error: string)

  datatype PerfCheck = PerfCheck(kind: PerfCheckKind, passed: bool)

  /** One test's record: its name, its verdict and its checks in order. */
  datatype TestResult = TestResult(test: string, passed: bool, checks: seq<PerfCheck>)

  /** The verdict of a test is the conjunction of its checks. */
  predicate Consistent(r: TestResult)
  {
    r.passed <==> forall i :: 0 <= i < |r.checks| ==> r.checks[i].passed
  }

  const DefaultMaxLoadTime: real := 3000.0
  const DefaultMaxDomReadyTime: real := 2000.0
  const DefaultMaxAnimationDuration: real := 500.0

  // ---------------------------------------------------------------------------
  // Page load

  /** The performance-timing numbers the page's script returns; a missing
      entry reads as 0. */
  datatype PerfMetrics = PerfMetrics(domContentLoaded: Option<real>, loadComplete: Option<real>)

  /** The measured load time, and the metrics or the exception reading them
      raised. */
  datatype PageLoadObservation = PageLoadObservation(loadTime: real, metrics: Outcome<PerfMetrics>)

  function OrZero(v: Option<real>): real { if v.Some? then v.value else 0.0 }

  /** The checks on the performance metrics and whether they let the test
      pass: a DOM-ready check, and a never-failing performance-API check only
      when `loadComplete` is positive. When the metrics could not be read
      the check recording that fails, but the test's verdict is untouched. */
  function MetricsChecks(metrics: Outcome<PerfMetrics>, maxDomReady: real): (r: (seq<PerfCheck>, bool))
  {
    match metrics
    case Raised(e) => ([PerfCheck(PerformanceMetricsError(e), false)], true)
    case Ok(m) =>
      var dom := OrZero(m.domContentLoaded);
      var complete := OrZero(m.loadComplete);
      ([PerfCheck(DomReadyTime(dom, maxDomReady), dom <= maxDomReady)]
       + (if complete > 0.0 then [PerfCheck(PerformanceApiLoad(complete), true)] else []),
       dom <= maxDomReady)
  }

  /** `LoadTimeChecker._test_page_load`: when loading raised, one failing
      check; otherwise the total load time against `maxLoad`, then the
      metrics checks. */
  function PageLoad(seen: Outcome<PageLoadObservation>, maxLoad: real, maxDomReady: real): (r: TestResult)
    ensures r.test == "page_load" && |r.checks| >= 1
    ensures seen.Ok? ==> r.checks[0] == PerfCheck(TotalLoadTime(seen.value.loadTime, maxLoad),
                                                  seen.value.loadTime <= maxLoad)
  {
    match seen
    case Raised(e) => TestResult("page_load", false, [PerfCheck(PageLoadError(e), false)])
    case Ok(o) =>
      var loadOk := o.loadTime <= maxLoad;
      var (metricChecks, domOk) := MetricsChecks(o.metrics, maxDomReady);
      TestResult("page_load", loadOk && domOk, [PerfCheck(TotalLoadTime(o.loadTime, maxLoad), loadOk)] + metricChecks)
  }

  /** The page-load test passes exactly when the page loaded within the
      limit and, if the metrics could be read, the DOM was ready within its
      limit (a missing DOM-ready time counts as 0). */
  lemma PageLoadVerdict(seen: Outcome<PageLoadObservation>, maxLoad: real, maxDomReady: real)
    ensures PageLoad(seen, maxLoad, maxDomReady).passed <==>
              seen.Ok? && seen.value.loadTime <= maxLoad
              && (seen.value.metrics.Ok? ==> OrZero(seen.value.metrics.value.domContentLoaded) <= maxDomReady)
  {
  }

  /** Metrics that cannot be read leave a failing check in a test that still
      passes: the page-load verdict is not the conjunction of its checks. */
  lemma UnreadableMetricsStillPass(loadTime: real, error: string, maxLoad: real, maxDomReady: real)
    requires loadTime <= maxLoad
    ensures var r := PageLoad(Ok(PageLoadObservation(loadTime, Raised(error))), maxLoad, maxDomReady);
            r.passed && !r.checks[1].passed && !Consistent(r)
  {
  }

  /** The performance-API check appears exactly when the metrics were read
      and `loadComplete` is positive, and it always passes. */
  lemma ApiLoadCheck(seen: Outcome<PageLoadObservation>, maxLoad: real, maxDomReady: real)
    ensures var r := PageLoad(seen, maxLoad, maxDomReady);
            (exists i :: 0 <= i < |r.checks| && r.checks[i].kind.PerformanceApiLoad?)
            <==> seen.Ok? && seen.value.metrics.Ok? && OrZero(seen.value.metrics.value.loadComplete) > 0.0
    ensures var r := PageLoad(seen, maxLoad, maxDomReady);
            forall i :: 0 <= i < |r.checks| && r.checks[i].kind.PerformanceApiLoad? ==> r.checks[i].passed
  {
    var r := PageLoad(seen, maxLoad, maxDomReady);
    if seen.Ok? && seen.value.metrics.Ok? && OrZero(seen.value.metrics.value.loadComplete) > 0.0 {
      assert r.checks[2].kind.PerformanceApiLoad?;
    }
  }

  // ---------------------------------------------------------------------------
  // Navigation

  /** Every navigation succeeded. */
  predicate AllOk(navTimes: seq<Outcome<real>>)
  {
    forall i :: 0 <= i < |navTimes| ==> navTimes[i].Ok?
  }

  /** The times of the navigations that succeeded, in order. */
  function Successes(navTimes: seq<Outcome<real>>): (ts: seq<real>)
    ensures |ts| <= |navTimes|
  {
    if navTimes == [] then []
    else Successes(navTimes[..|navTimes| - 1])
         + (if navTimes[|navTimes| - 1].Ok? then [navTimes[|navTimes| - 1].value] else [])
  }

  function Sum(ts: seq<real>): real
  {
    if ts == [] then 0.0 else Sum(ts[..|ts| - 1]) + ts[|ts| - 1]
  }

  /** One check per navigation, in order. */
  function NavigationChecks(urls: seq<string>, navTimes: seq<Outcome<real>>): (cs: seq<PerfCheck>)
    requires |urls| == |navTimes|
    ensures |cs| == |urls|
    ensures forall i :: 0 <= i < |cs| ==> (cs[i].passed <==> navTimes[i].Ok?)
  {
    if urls == [] then []
    else
      var k := |urls| - 1;
      NavigationChecks(urls[..k], navTimes[..k])
      + [NavigationCheck(urls[k], navTimes[k])]
  }

  /** The check of one navigation: its time, or a failing check with the
      exception. */
  function NavigationCheck(url: string, navTime: Outcome<real>): (c: PerfCheck)
    ensures c.passed <==> navTime.Ok?
  {
    match navTime
    case Ok(t) => PerfCheck(NavigationTime(url, t), true)
    case Raised(e) => PerfCheck(NavigationFailed(url, e), false)
  }

  /** The average check, present when at least one navigation succeeded. */
  function AverageCheck(ts: seq<real>): seq<PerfCheck>
  {
    if ts == [] then [] else [PerfCheck(AverageNavigation(Sum(ts) / |ts| as real, |ts|), true)]
  }

  /** `LoadTimeChecker._test_navigation_performance` on the outcome of each
      navigation (its measured time, or the exception it raised). */
  function Navigation(urls: seq<string>, navTimes: seq<Outcome<real>>): (r: TestResult)
    requires |urls| == |navTimes|
    ensures r.test == "navigation_performance"
    ensures urls == [] ==> r.passed && r.checks == [PerfCheck(NoNavigationUrls, true)]
    ensures Consistent(r)
  {
    if urls == [] then TestResult("navigation_performance", true, [PerfCheck(NoNavigationUrls, true)])
    else
      var each := NavigationChecks(urls, navTimes);
      var r := TestResult("navigation_performance", AllOk(navTimes),
                          each + AverageCheck(Successes(navTimes)));
      assert forall i :: 0 <= i < |each| ==> r.checks[i] == each[i];
      r
  }

  /** The navigation loop: it accumulates the successful times and their
      total and appends a check per URL, then the average. */
  method NavigationPerformance(urls: seq<string>, navTimes: seq<Outcome<real>>) returns (r: TestResult)
    requires |urls| == |navTimes|
    ensures r == Navigation(urls, navTimes)
  {
    if urls == [] {
      return TestResult("navigation_performance", true, [PerfCheck(NoNavigationUrls, true)]);
    }
    var passed := true;
    var checks: seq<PerfCheck> := [];
    var total := 0.0;
    var times: seq<real> := [];
    var i := 0;
    while i < |urls|
      invariant 0 <= i <= |urls|
      invariant checks == NavigationChecks(urls[..i], navTimes[..i])
      invariant times == Successes(navTimes[..i]) && total == Sum(times)
      invariant passed == AllOk(navTimes[..i])
    {
      NavigationStep(urls, navTimes, i);
      checks := checks + [NavigationCheck(urls[i], navTimes[i])];
      if navTimes[i].Ok? {
        times := times + [navTimes[i].value];
        total := total + navTimes[i].value;
      } else {
        passed := false;
      }
      i := i + 1;
    }
    assert urls[..i] == urls && navTimes[..i] == navTimes;
    var average: seq<PerfCheck> := [];
    if times != [] {
      average := [PerfCheck(AverageNavigation(total / |times| as real, |times|), true)];
    }
    r := TestResult("navigation_performance", passed, checks + average);
    NavigationOfParts(urls, navTimes, r);
  }

  /** The navigation record assembled from its parts. */
  lemma NavigationOfParts(urls: seq<string>, navTimes: seq<Outcome<real>>, r: TestResult)
    requires |urls| == |navTimes| && urls != []
    requires r.test == "navigation_performance"
    requires r.passed == AllOk(navTimes)
    requires r.checks == NavigationChecks(urls, navTimes) + AverageCheck(Successes(navTimes))
    ensures r == Navigation(urls, navTimes)
  {
  }

  /** How the navigation checks and the successful times grow by one URL. */
  lemma NavigationStep(urls: seq<string>, navTimes: seq<Outcome<real>>, i: nat)
    requires |urls| == |navTimes| && i < |urls|
    ensures NavigationChecks(urls[..i + 1], navTimes[..i + 1])
            == NavigationChecks(urls[..i], navTimes[..i])
               + [NavigationCheck(urls[i], navTimes[i])]
    ensures Successes(navTimes[..i + 1])
            == Successes(navTimes[..i]) + (if navTimes[i].Ok? then [navTimes[i].value] else [])
    ensures AllOk(navTimes[..i + 1]) == (AllOk(navTimes[..i]) && navTimes[i].Ok?)
  {
    assert urls[..i + 1][..i] == urls[..i] && navTimes[..i + 1][..i] == navTimes[..i];
  }

  /** Every time in `ts` lies between `lo` and `hi`. */
  predicate Within(ts: seq<real>, lo: real, hi: real)
  {
    forall i :: 0 <= i < |ts| ==> lo <= ts[i] <= hi
  }

  /** Every successful navigation took between `lo` and `hi`. */
  predicate SuccessesBetween(navTimes: seq<Outcome<real>>, lo: real, hi: real)
  {
    forall i :: 0 <= i < |navTimes| && navTimes[i].Ok? ==> lo <= navTimes[i].value <= hi
  }

  lemma {:induction false} SumBounds(ts: seq<real>, lo: real, hi: real)
    requires Within(ts, lo, hi)
    ensures lo * |ts| as real <= Sum(ts) <= hi * |ts| as real
  {
    if ts != [] {
      var n := |ts| - 1;
      assert Within(ts[..n], lo, hi);
      SumBounds(ts[..n], lo, hi);
      assert lo * (n + 1) as real == lo * n as real + lo;
      assert hi * (n + 1) as real == hi * n as real + hi;
    }
  }

  /** The average lies between the fastest and the slowest successful
      navigation: if every successful navigation took between `lo` and `hi`,
      so does the average. */
  lemma AverageWithin(navTimes: seq<Outcome<real>>, lo: real, hi: real)
    requires SuccessesBetween(navTimes, lo, hi)
    ensures Successes(navTimes) != [] ==>
              lo <= Sum(Successes(navTimes)) / |Successes(navTimes)| as real <= hi
  {
    SuccessesWithin(navTimes, lo, hi);
    if Successes(navTimes) != [] {
      MeanWithin(Successes(navTimes), lo, hi);
    }
  }

  lemma MeanWithin(ts: seq<real>, lo: real, hi: real)
    requires ts != [] && Within(ts, lo, hi)
    ensures lo <= Sum(ts) / |ts| as real <= hi
  {
    SumBounds(ts, lo, hi);
    MeanBetween(Sum(ts), |ts| as real, lo, hi);
  }

  lemma MeanBetween(total: real, n: real, lo: real, hi: real)
    requires n > 0.0 && lo * n <= total <= hi * n
    ensures lo <= total / n <= hi
  {
    Arith.QuotientCompare(total, n, lo);
    Arith.QuotientCompare(total, n, hi);
  }

  lemma {:induction false} SuccessesWithin(navTimes: seq<Outcome<real>>, lo: real, hi: real)
    requires SuccessesBetween(navTimes, lo, hi)
    ensures Within(Successes(navTimes), lo, hi)
  {
    if navTimes != [] {
      var k := |navTimes| - 1;
      assert SuccessesBetween(navTimes[..k], lo, hi);
      SuccessesWithin(navTimes[..k], lo, hi);
    }
  }

  /** The average check is recorded exactly when some navigation succeeded. */
  lemma AverageRecordedIff(urls: seq<string>, navTimes: seq<Outcome<real>>)
    requires |urls| == |navTimes| && urls != []
    ensures |Navigation(urls, navTimes).checks| == |urls| + 1 <==> exists i :: 0 <= i < |navTimes| && navTimes[i].Ok?
  {
    SuccessesEmptyIff(navTimes);
  }

  lemma {:induction false} SuccessesEmptyIff(navTimes: seq<Outcome<real>>)
    ensures Successes(navTimes) == [] <==> forall i :: 0 <= i < |navTimes| ==> navTimes[i].Raised?
  {
    if navTimes != [] {
      var k := |navTimes| - 1;
      SuccessesEmptyIff(navTimes[..k]);
      assert forall i :: 0 <= i < k ==> navTimes[..k][i] == navTimes[i];
    }
  }

  // ---------------------------------------------------------------------------
  // Resources

  /** The elements of `xs` that satisfy `p`, in their original order. */
  function Filter<T>(xs: seq<T>, p: T -> bool): (r: seq<T>)
    ensures |r| <= |xs|
    ensures forall i :: 0 <= i < |r| ==> p(r[i]) && r[i] in xs
    ensures forall i :: 0 <= i < |xs| && p(xs[i]) ==> xs[i] in r
  {
    if xs == [] then []
    else
      var rest := Filter(xs[1..], p);
      assert forall i :: 1 <= i < |xs| ==> xs[i] == xs[1..][i - 1];
      (if p(xs[0]) then [xs[0]] else []) + rest
  }

  predicate IsSlow(r: Resource) { r.duration > 1000.0 }

  predicate IsLarge(r: Resource) { r.size > 1000000 }

  /** `items[:5]` */
  function FirstFive<T>(items: seq<T>): (r: seq<T>)
    ensures |r| <= 5 && r <= items
    ensures |items| <= 5 ==> r == items
  {
    if |items| <= 5 then items else items[..5]
  }

  /** `LoadTimeChecker._test_resource_loading` on the resource entries the
      page reports (or the exception the script raised): no entries give one
      passing check; otherwise the slow resources (over 1 s), the large ones
      (over 1 MB), each failing when there are any and showing the first
      five, and the count, failing above 100. */
  function ResourceLoading(seen: Outcome<seq<Resource>>): (r: TestResult)
    ensures r.test == "resource_loading"
    ensures Consistent(r)
  {
    match seen
    case Raised(e) =>
      var r := TestResult("resource_loading", false, [PerfCheck(ResourceError(e), false)]);
      assert !r.checks[0].passed;
      r
    case Ok(rs) =>
      if rs == [] then TestResult("resource_loading", true, [PerfCheck(NoResourceData, true)])
      else
        var slow := Filter(rs, IsSlow);
        var large := Filter(rs, IsLarge);
        var r := TestResult("resource_loading", slow == [] && large == [] && |rs| <= 100,
                            [PerfCheck(SlowResources(|slow|, FirstFive(slow)), slow == []),
                             PerfCheck(LargeResources(|large|, FirstFive(large)), large == []),
                             PerfCheck(ResourceCount(|rs|), |rs| <= 100)]);
        assert r.checks[0].passed && r.checks[1].passed && r.checks[2].passed ==> r.passed;
        r
  }

  /** Resource loading passes exactly when the entries could be read and
      none of them is slow or large and there are at most 100 of them. */
  lemma ResourceVerdict(seen: Outcome<seq<Resource>>)
    ensures ResourceLoading(seen).passed <==>
              seen.Ok? && |seen.value| <= 100
              && forall i :: 0 <= i < |seen.value| ==> !IsSlow(seen.value[i]) && !IsLarge(seen.value[i])
  {
    if seen.Ok? && seen.value != [] {
      var rs := seen.value;
      var slow, large := Filter(rs, IsSlow), Filter(rs, IsLarge);
      if slow != [] {
        assert IsSlow(slow[0]) && slow[0] in rs;
      }
      if large != [] {
        assert IsLarge(large[0]) && large[0] in rs;
      }
    }
  }

  /** The slow resources shown are the first (up to five) slow ones, in the
      order the page reports them. */
  lemma SlowResourcesShown(rs: seq<Resource>)
    requires rs != []
    ensures ResourceLoading(Ok(rs)).checks[0]
            == PerfCheck(SlowResources(|Filter(rs, IsSlow)|, FirstFive(Filter(rs, IsSlow))), Filter(rs, IsSlow) == [])
    ensures |Filter(rs, IsSlow)| <= 5 ==> ResourceLoading(Ok(rs)).checks[0].kind.shown == Filter(rs, IsSlow)
  {
  }

  // ---------------------------------------------------------------------------
  // Animations and transitions

  /** An animation test: its name and selector (a test missing either makes
      the test raise) and its type (`css_animation` unless given). */
  datatype AnimationSpec = AnimationSpec(name: Option<string>, selector: Option<string>, kind: string)

  /** The computed style properties the two tests read. */
  datatype AnimationStyle = AnimationStyle(
    animationName: string, animationDuration: string, animationTimingFunction: string,
    transitionProperty: string, transitionDuration: string)

  /** Whether the element lookup raised, and the computed style or the
      exception the script raised. */
  datatype AnimationObservation = AnimationObservation(lookup: Outcome<()>, style: Outcome<AnimationStyle>)

  const StandardTimings: seq<string> := ["ease", "ease-in", "ease-out", "ease-in-out", "linear"]

  /** `float(value.replace('s', '')) * 1000`: a duration in seconds to
      milliseconds, or the ValueError. */
  function DurationMs(value: string): (r: Outcome<real>)
    ensures r.Ok? <==> ParseDecimal(RemoveChar(value, 's')).Some?
    ensures r.Ok? ==> r.value == ParseDecimal(RemoveChar(value, 's')).value * 1000.0 && r.value >= 0.0
  {
    var v := RemoveChar(value, 's');
    match ParseDecimal(v)
    case Some(x) => Ok(x * 1000.0)
    case None => Raised(FloatError(v))
  }

  /** `AnimationChecker._test_css_animation`: the duration is converted
      first (so an unreadable duration raises even without an animation);
      `none` gives one passing check; otherwise the duration against the
      limit and the timing function against the standard ones. */
  function CssAnimation(style: AnimationStyle, maxDuration: real): (r: Outcome<seq<PerfCheck>>)
    ensures r.Raised? <==> DurationMs(style.animationDuration).Raised?
    ensures r.Ok? && style.animationName == "none" ==> r.value == [PerfCheck(NoAnimation, true)]
    ensures r.Ok? && style.animationName != "none" ==>
              |r.value| == 2
              && (r.value[0].passed <==> DurationMs(style.animationDuration).value <= maxDuration)
              && (r.value[1].passed <==> style.animationTimingFunction in StandardTimings)
  {
    var duration :- DurationMs(style.animationDuration);
    if style.animationName == "none" then Ok([PerfCheck(NoAnimation, true)])
    else
      Ok([PerfCheck(AnimationDuration(duration, maxDuration), duration <= maxDuration),
          PerfCheck(AnimationTiming(style.animationTimingFunction),
                    style.animationTimingFunction in StandardTimings)])
  }

  /** `AnimationChecker._test_css_transition`: the duration is converted
      first; property `none` gives one passing check; otherwise the duration
      against the limit. */
  function CssTransition(style: AnimationStyle, maxDuration: real): (r: Outcome<seq<PerfCheck>>)
    ensures r.Raised? <==> DurationMs(style.transitionDuration).Raised?
    ensures r.Ok? && style.transitionProperty == "none" ==> r.value == [PerfCheck(NoTransition, true)]
    ensures r.Ok? && style.transitionProperty != "none" ==>
              |r.value| == 1 && (r.value[0].passed <==> DurationMs(style.transitionDuration).value <= maxDuration)
  {
    var duration :- DurationMs(style.transitionDuration);
    if style.transitionProperty == "none" then Ok([PerfCheck(NoTransition, true)])
    else Ok([PerfCheck(TransitionDuration(duration, maxDuration), duration <= maxDuration)])
  }

  function AllPassed(cs: seq<PerfCheck>): bool
  {
    forall i :: 0 <= i < |cs| ==> cs[i].passed
  }

  /** The checks a test's exception leaves: one failing check. */
  function Failed(name: string, error: string): (r: TestResult)
    ensures !r.passed && |r.checks| == 1 && !r.checks[0].passed && Consistent(r)
  {
    TestResult(name, false, [PerfCheck(AnimationFailed(error), false)])
  }

  /** `AnimationChecker._test_animation`: a missing name or selector
      raises; an exception from the lookup, the style script or the
      duration conversion becomes one failing check; a type other than
      `css_animation` and `transition` records nothing and passes. */
  function AnimationTest(spec: AnimationSpec, seen: AnimationObservation, maxDuration: real)
    : (r: Outcome<TestResult>)
    ensures r.Raised? <==> spec.name.None? || spec.selector.None?
    ensures r.Ok? ==> r.value.test == spec.name.value && Consistent(r.value)
  {
    if spec.name.None? then Raised("'name'")
    else if spec.selector.None? then Raised("'selector'")
    else
      var name := spec.name.value;
      if seen.lookup.Raised? then Ok(Failed(name, seen.lookup.error))
      else if spec.kind != "css_animation" && spec.kind != "transition" then Ok(TestResult(name, true, []))
      else if seen.style.Raised? then Ok(Failed(name, seen.style.error))
      else
        var checks := if spec.kind == "css_animation" then CssAnimation(seen.style.value, maxDuration)
                      else CssTransition(seen.style.value, maxDuration);
        match checks
        case Raised(e) => Ok(Failed(name, e))
        case Ok(cs) => Ok(TestResult(name, AllPassed(cs), cs))
  }

  /** An animation passes exactly when it is `none`, or its duration is
      within the limit and its timing function is a standard one. */
  lemma AnimationVerdict(name: string, selector: string, seen: AnimationObservation, maxDuration: real)
    requires seen.lookup.Ok? && seen.style.Ok? && DurationMs(seen.style.value.animationDuration).Ok?
    ensures var st := seen.style.value;
            var r := AnimationTest(AnimationSpec(Some(name), Some(selector), "css_animation"), seen, maxDuration);
            r.Ok? && (r.value.passed <==>
                        st.animationName == "none"
                        || (DurationMs(st.animationDuration).value <= maxDuration
                            && st.animationTimingFunction in StandardTimings))
  {
    var cs := CssAnimation(seen.style.value, maxDuration).value;
    if seen.style.value.animationName != "none" {
      assert AllPassed(cs) <==> cs[0].passed && cs[1].passed;
    }
  }

  /** A duration list such as `1s, 2s` (one duration per animation) holds
      a comma, which `float()` never accepts, so the test fails even on an
      element whose animation is `none`. */
  lemma UnreadableDurationFails(name: string, selector: string, st: AnimationStyle, maxDuration: real)
    requires ',' in st.animationDuration
    ensures AnimationTest(AnimationSpec(Some(name), Some(selector), "css_animation"),
                          AnimationObservation(Ok(()), Ok(st)), maxDuration)
            == Ok(Failed(name, FloatError(RemoveChar(st.animationDuration, 's'))))
  {
    RemoveCharKeeps(st.animationDuration, 's', ',');
    ParseDecimalRejects(RemoveChar(st.animationDuration, 's'), ',');
  }

  // ---------------------------------------------------------------------------
  // The verify loops

  predicate TestPassed(r: TestResult) { r.passed }

  /** `LoadTimeChecker.verify`: the page-load test, then the navigation
      test when asked for, then the resource test when asked for; PASS
      exactly when every test passed, with the count in the message. */
  method LoadTimeVerify(page: Outcome<PageLoadObservation>,
                        navigation: Option<(seq<string>, seq<Outcome<real>>)>,
                        resources: Option<Outcome<seq<Resource>>>,
                        maxLoad: real, maxDomReady: real)
    returns (r: VerificationResult<seq<TestResult>>)
    requires navigation.Some? ==> |navigation.value.0| == |navigation.value.1|
    ensures r.checkName == "LoadTimeChecker"
    ensures r.details == Some([PageLoad(page, maxLoad, maxDomReady)]
                              + (if navigation.Some? then [Navigation(navigation.value.0, navigation.value.1)] else [])
                              + (if resources.Some? then [ResourceLoading(resources.value)] else []))
    ensures r.status == Pass <==> forall i :: 0 <= i < |r.details.value| ==> r.details.value[i].passed
    ensures r.status == Pass || r.status == Fail
    ensures r.message == CountMessage("Load time tests: ", CountWhere(r.details.value, TestPassed),
                                      |r.details.value|, " passed")
  {
    var nav: seq<TestResult> := [];
    if navigation.Some? {
      var n := NavigationPerformance(navigation.value.0, navigation.value.1);
      nav := [n];
    }
    var res: seq<TestResult> := if resources.Some? then [ResourceLoading(resources.value)] else [];
    var results := [PageLoad(page, maxLoad, maxDomReady)] + nav + res;
    r := Conclude("LoadTimeChecker", "Load time tests: ", " passed", results, TestPassed);
  }

  predicate AnimationEntryPassed(e: Entry<string, TestResult>)
  {
    e.Checked? && e.result.passed
  }

  /** The key of a test's error entry: its name, or `unknown`. */
  function TestKey(spec: AnimationSpec): string
  {
    if spec.name.Some? then spec.name.value else "unknown"
  }

  /** `AnimationChecker.verify` over the tests (given, or discovered on the
      page): each test's record or error entry in order; PASS exactly when
      every entry passed; the message counts the passing entries. */
  method AnimationVerify(tests: seq<(AnimationSpec, AnimationObservation)>, maxDuration: real)
    returns (r: VerificationResult<seq<Entry<string, TestResult>>>)
    ensures r.checkName == "AnimationChecker" && r.details.Some? && |r.details.value| == |tests|
    ensures forall i :: 0 <= i < |tests| ==>
              r.details.value[i] == EntryOf(TestKey(tests[i].0), AnimationTest(tests[i].0, tests[i].1, maxDuration))
    ensures r.status == Pass <==> forall i :: 0 <= i < |tests| ==> AnimationEntryPassed(r.details.value[i])
    ensures r.status == Pass || r.status == Fail
    ensures r.message == CountMessage("Animation tests: ", CountWhere(r.details.value, AnimationEntryPassed),
                                      |tests|, " passed")
  {
    var entries: seq<Entry<string, TestResult>> := [];
    var i := 0;
    while i < |tests|
      invariant 0 <= i <= |tests|
      invariant |entries| == i
      invariant forall k :: 0 <= k < i ==>
                  entries[k] == EntryOf(TestKey(tests[k].0), AnimationTest(tests[k].0, tests[k].1, maxDuration))
    {
      entries := entries + [EntryOf(TestKey(tests[i].0), AnimationTest(tests[i].0, tests[i].1, maxDuration))];
      i := i + 1;
    }
    r := Conclude("AnimationChecker", "Animation tests: ", " passed", entries, AnimationEntryPassed);
  }
}
