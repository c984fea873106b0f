/** The click and hover testers: the checks each draws from the element
    states seen before and after the interaction, how a test's verdict
    follows them, and the testers' `verify` loops. Element states, the page
    URL and the elements found after the interaction are inputs; a driver
    call that raised is given as `Raised`. */
module Interaction {
  import opened Wrappers
  import opened Text
  import opened Core

  // ---------------------------------------------------------------------------
  // Test records

  /** The kind of each check (its `type` field and what it names); the
      message strings are not modelled. */
  datatype CheckKind =
    | VisibilityChange
    | ClassChange(expectedClass: string)
    | TextChange(expectedText: string)
    | UrlChange
    | NewElement(selector: string)
    | ClickExecution(error: string)
    | TooltipAppearance(tooltipSelector: string)
    | HoverExecution(error: string)

  datatype InteractionCheck = InteractionCheck(kind: CheckKind, passed: bool)

  /** One test's record: its name, its verdict and its checks in order. */
  datatype TestRecord = TestRecord(test: string, passed: bool, checks: seq<InteractionCheck>)

  predicate AllPass(cs: seq<InteractionCheck>)
  {
    forall i :: 0 <= i < |cs| ==> cs[i].passed
  }

  lemma AllPassConcat(a: seq<InteractionCheck>, b: seq<InteractionCheck>)
    ensures AllPass(a + b) <==> AllPass(a) && AllPass(b)
  {
    if AllPass(a) && AllPass(b) {
      forall i | 0 <= i < |a + b| ensures (a + b)[i].passed {
        if i >= |a| { assert (a + b)[i] == b[i - |a|]; }
      }
    }
    if AllPass(a + b) {
      forall i | 0 <= i < |a| ensures a[i].passed {
        assert (a + b)[i] == a[i];
      }
      forall i | 0 <= i < |b| ensures b[i].passed {
        assert (a + b)[|a| + i] == b[i];
      }
    }
  }

  lemma AllPassOne(c: InteractionCheck)
    ensures AllPass([c]) == c.passed
  {
    assert [c][0] == c;
  }

  /** Appending `more` to a record holding `checks0 + parts`, with the
      verdict turned off by any failing check. */
  lemma Grow(checks0: seq<InteractionCheck>, passed0: bool, parts: seq<InteractionCheck>, more: seq<InteractionCheck>)
    ensures (checks0 + parts) + more == checks0 + (parts + more)
    ensures ((passed0 && AllPass(parts)) && AllPass(more)) == (passed0 && AllPass(parts + more))
  {
    AllPassConcat(parts, more);
  }

  // ---------------------------------------------------------------------------
  // Checks shared by both testers

  /** One check per expected class, passing when the class occurs in the
      class attribute as a substring. */
  function ClassChecks(expected: seq<string>, classes: string): (cs: seq<InteractionCheck>)
    ensures |cs| == |expected|
    ensures forall i :: 0 <= i < |cs| ==> cs[i].kind == ClassChange(expected[i])
    ensures forall i :: 0 <= i < |cs| ==> (cs[i].passed <==> exists k :: OccursAt(classes, expected[i], k))
  {
    if expected == [] then []
    else
      var k := |expected| - 1;
      ContainsIff(classes, expected[k]);
      ClassChecks(expected[..k], classes) + [InteractionCheck(ClassChange(expected[k]), Contains(classes, expected[k]))]
  }

  /** An expected class matches any class attribute that contains it, so
      `btn` is satisfied by `btn-primary`. */
  lemma ClassPrefixMatches()
    ensures ClassChecks(["btn"], "btn-primary") == [InteractionCheck(ClassChange("btn"), true)]
  {
    assert OccursAt("btn-primary", "btn", 0);
  }

  /** The class-check loop: one check per expected class, appended in
      order, each failing one turning the verdict off. */
  method AppendClassChecks(expected: seq<string>, classes: string, checks0: seq<InteractionCheck>, passed0: bool)
    returns (checks: seq<InteractionCheck>, passed: bool)
    ensures checks == checks0 + ClassChecks(expected, classes)
    ensures passed == (passed0 && AllPass(ClassChecks(expected, classes)))
  {
    checks, passed := checks0, passed0;
    var i := 0;
    while i < |expected|
      invariant 0 <= i <= |expected|
      invariant checks == checks0 + ClassChecks(expected[..i], classes)
      invariant passed == (passed0 && AllPass(ClassChecks(expected[..i], classes)))
    {
      assert expected[..i + 1][..i] == expected[..i];
      var c := InteractionCheck(ClassChange(expected[i]), Contains(classes, expected[i]));
      assert ClassChecks(expected[..i + 1], classes) == ClassChecks(expected[..i], classes) + [c];
      Grow(checks0, passed0, ClassChecks(expected[..i], classes), [c]);
      checks := checks + [c];
      if !c.passed {
        passed := false;
      }
      i := i + 1;
    }
    assert expected[..i] == expected;
  }

  /** One check per expected new element, passing when the element was
      found and is displayed (`displayed` maps the selectors found after
      the interaction to whether each is displayed). */
  function NewElementChecks(selectors: seq<string>, displayed: map<string, bool>): (cs: seq<InteractionCheck>)
    ensures |cs| == |selectors|
    ensures forall i :: 0 <= i < |cs| ==> cs[i].kind == NewElement(selectors[i])
    ensures forall i :: 0 <= i < |cs| ==>
              (cs[i].passed <==> selectors[i] in displayed && displayed[selectors[i]])
  {
    if selectors == [] then []
    else
      var k := |selectors| - 1;
      NewElementChecks(selectors[..k], displayed)
      + [InteractionCheck(NewElement(selectors[k]), selectors[k] in displayed && displayed[selectors[k]])]
  }

  // ---------------------------------------------------------------------------
  // Click tests

  /** The optional entries of a click test's `expected_result`. */
  datatype ExpectedClick = ExpectedClick(
    shouldHide: Option<bool>, expectedClasses: Option<seq<string>>, expectedText: Option<string>,
    expectedUrlChange: Option<bool>, expectedNewElements: Option<seq<string>>)

  /** A click test: its name and selector (a test missing either raises). */
  datatype ClickTest = ClickTest(name: Option<string>, selector: Option<string>, expected: ExpectedClick)

  /** The state captured before and after the click. */
  datatype ClickState = ClickState(visible: bool, classes: string, text: string, url: string)

  /** The two captured states (or the exception finding, capturing or
      clicking the element raised), and the elements found after the click
      with whether each is displayed. */
  datatype ClickObservation = ClickObservation(states: Outcome<(ClickState, ClickState)>, displayed: map<string, bool>)

  function VisibilityChecks(shouldHide: Option<bool>, after: ClickState): (cs: seq<InteractionCheck>)
  {
    if shouldHide == Some(true) then [InteractionCheck(VisibilityChange, !after.visible)] else []
  }

  function TextChecks(expectedText: Option<string>, after: ClickState): (cs: seq<InteractionCheck>)
  {
    if expectedText.Some? then [InteractionCheck(TextChange(expectedText.value), Contains(after.text, expectedText.value))]
    else []
  }

  function UrlChecks(expectedUrlChange: Option<bool>, before: ClickState, after: ClickState): (cs: seq<InteractionCheck>)
  {
    if expectedUrlChange == Some(true) then [InteractionCheck(UrlChange, before.url != after.url)] else []
  }

  function OrNone(s: Option<seq<string>>): seq<string>
  {
    if s.Some? then s.value else []
  }

  /** `ClickTester._check_click_results`: the visibility, class, text, URL
      and new-element checks, in that order. */
  function ClickChecks(e: ExpectedClick, before: ClickState, after: ClickState, displayed: map<string, bool>)
    : (cs: seq<InteractionCheck>)
  {
    VisibilityChecks(e.shouldHide, after)
    + ClassChecks(OrNone(e.expectedClasses), after.classes)
    + TextChecks(e.expectedText, after)
    + UrlChecks(e.expectedUrlChange, before, after)
    + NewElementChecks(OrNone(e.expectedNewElements), displayed)
  }

  /** The hide expectation adds a check only when it is true, and that
      check fails exactly when the element is still visible. */
  lemma ShouldHideCheck(shouldHide: Option<bool>, after: ClickState)
    ensures VisibilityChecks(shouldHide, after) != [] <==> shouldHide == Some(true)
    ensures forall i :: 0 <= i < |VisibilityChecks(shouldHide, after)| ==>
              (VisibilityChecks(shouldHide, after)[i].passed <==> !after.visible)
  {
  }

  /** The expected text passes exactly when it occurs in the text after the
      click. */
  lemma TextCheckIsSubstring(expectedText: string, after: ClickState)
    ensures |TextChecks(Some(expectedText), after)| == 1
    ensures TextChecks(Some(expectedText), after)[0].passed <==> exists k :: OccursAt(after.text, expectedText, k)
  {
    ContainsIff(after.text, expectedText);
  }

  /** The URL expectation adds a check only when it is true, and that check
      passes exactly when the URL changed. */
  lemma UrlChangeCheck(expectedUrlChange: Option<bool>, before: ClickState, after: ClickState)
    ensures UrlChecks(expectedUrlChange, before, after) != [] <==> expectedUrlChange == Some(true)
    ensures forall i :: 0 <= i < |UrlChecks(expectedUrlChange, before, after)| ==>
              (UrlChecks(expectedUrlChange, before, after)[i].passed <==> before.url != after.url)
  {
  }

  /** The new-element loop of the click tester: one check per selector,
      appended in order, each failing one turning the verdict off. */
  method AppendNewElementChecks(selectors: seq<string>, displayed: map<string, bool>,
                                checks0: seq<InteractionCheck>, passed0: bool)
    returns (checks: seq<InteractionCheck>, passed: bool)
    ensures checks == checks0 + NewElementChecks(selectors, displayed)
    ensures passed == (passed0 && AllPass(NewElementChecks(selectors, displayed)))
  {
    checks, passed := checks0, passed0;
    var i := 0;
    while i < |selectors|
      invariant 0 <= i <= |selectors|
      invariant checks == checks0 + NewElementChecks(selectors[..i], displayed)
      invariant passed == (passed0 && AllPass(NewElementChecks(selectors[..i], displayed)))
    {
      assert selectors[..i + 1][..i] == selectors[..i];
      var c := InteractionCheck(NewElement(selectors[i]), selectors[i] in displayed && displayed[selectors[i]]);
      assert NewElementChecks(selectors[..i + 1], displayed) == NewElementChecks(selectors[..i], displayed) + [c];
      Grow(checks0, passed0, NewElementChecks(selectors[..i], displayed), [c]);
      checks := checks + [c];
      if !c.passed {
        passed := false;
      }
      i := i + 1;
    }
    assert selectors[..i] == selectors;
  }

  /** The checking step, on the record built so far: the checks are
      appended one by one and `passed` is only ever turned off, by a failing
      check. */
  method CheckClickResults(e: ExpectedClick, before: ClickState, after: ClickState, displayed: map<string, bool>,
                           checks0: seq<InteractionCheck>, passed0: bool)
    returns (checks: seq<InteractionCheck>, passed: bool)
    ensures checks == checks0 + ClickChecks(e, before, after, displayed)
    ensures passed == (passed0 && AllPass(ClickChecks(e, before, after, displayed)))
  {
    checks, passed := checks0, passed0;
    if e.shouldHide == Some(true) {
      var c := InteractionCheck(VisibilityChange, !after.visible);
      AllPassOne(c);
      checks := checks + [c];
      if !c.passed {
        passed := false;
      }
    }
    ghost var parts := VisibilityChecks(e.shouldHide, after);
    assert checks == checks0 + parts && passed == (passed0 && AllPass(parts));
    ghost var more := ClassChecks(OrNone(e.expectedClasses), after.classes);
    Grow(checks0, passed0, parts, more);
    checks, passed := AppendClassChecks(OrNone(e.expectedClasses), after.classes, checks, passed);
    parts := parts + more;
    assert checks == checks0 + parts && passed == (passed0 && AllPass(parts));
    more := TextChecks(e.expectedText, after);
    Grow(checks0, passed0, parts, more);
    if e.expectedText.Some? {
      var c := InteractionCheck(TextChange(e.expectedText.value), Contains(after.text, e.expectedText.value));
      AllPassOne(c);
      checks := checks + [c];
      if !c.passed {
        passed := false;
      }
    }
    parts := parts + more;
    assert checks == checks0 + parts && passed == (passed0 && AllPass(parts));
    more := UrlChecks(e.expectedUrlChange, before, after);
    Grow(checks0, passed0, parts, more);
    if e.expectedUrlChange == Some(true) {
      var c := InteractionCheck(UrlChange, before.url != after.url);
      AllPassOne(c);
      checks := checks + [c];
      if !c.passed {
        passed := false;
      }
    }
    parts := parts + more;
    assert checks == checks0 + parts && passed == (passed0 && AllPass(parts));
    more := NewElementChecks(OrNone(e.expectedNewElements), displayed);
    Grow(checks0, passed0, parts, more);
    checks, passed := AppendNewElementChecks(OrNone(e.expectedNewElements), displayed, checks, passed);
    parts := parts + more;
    assert checks == checks0 + parts && passed == (passed0 && AllPass(parts));
    assert parts == ClickChecks(e, before, after, displayed);
  }

  /** The key of a test's error entry: its name, or `unknown`. */
  function TestKey(name: Option<string>): string
  {
    if name.Some? then name.value else "unknown"
  }

  /** `ClickTester._run_click_test`: a missing name or selector raises;
      when finding, capturing or clicking the element raised, one failing
      check; otherwise the checks on the two states, the test passing
      exactly when all of them do. */
  function ClickTestResult(t: ClickTest, o: ClickObservation): (r: Outcome<TestRecord>)
    ensures r.Raised? <==> t.name.None? || t.selector.None?
    ensures r.Ok? ==> r.value.test == t.name.value && (r.value.passed <==> AllPass(r.value.checks))
    ensures r.Ok? && o.states.Raised? ==> r.value.checks == [InteractionCheck(ClickExecution(o.states.error), false)]
  {
    if t.name.None? then Raised("'name'")
    else if t.selector.None? then Raised("'selector'")
    else
      match o.states
      case Raised(e) =>
        var r := TestRecord(t.name.value, false, [InteractionCheck(ClickExecution(e), false)]);
        assert !r.checks[0].passed;
        Ok(r)
      case Ok(states) =>
        var cs := ClickChecks(t.expected, states.0, states.1, o.displayed);
        Ok(TestRecord(t.name.value, AllPass(cs), cs))
  }

  /** A click test passes exactly when the click went through, the element
      hid if it should, every expected class and the expected text occur,
      the URL changed if it should, and every expected new element is
      displayed. */
  lemma ClickVerdict(t: ClickTest, before: ClickState, after: ClickState, displayed: map<string, bool>)
    requires t.name.Some? && t.selector.Some?
    ensures ClickTestResult(t, ClickObservation(Ok((before, after)), displayed)).Ok?
    ensures ClickTestResult(t, ClickObservation(Ok((before, after)), displayed)).value.passed <==>
              (t.expected.shouldHide == Some(true) ==> !after.visible)
              && (forall c :: c in OrNone(t.expected.expectedClasses) ==> Contains(after.classes, c))
              && (t.expected.expectedText.Some? ==> Contains(after.text, t.expected.expectedText.value))
              && (t.expected.expectedUrlChange == Some(true) ==> before.url != after.url)
              && (forall s :: s in OrNone(t.expected.expectedNewElements) ==> s in displayed && displayed[s])
  {
    var e := t.expected;
    var v, cl, tx, u, n := VisibilityChecks(e.shouldHide, after), ClassChecks(OrNone(e.expectedClasses), after.classes),
                           TextChecks(e.expectedText, after), UrlChecks(e.expectedUrlChange, before, after),
                           NewElementChecks(OrNone(e.expectedNewElements), displayed);
    assert ClickChecks(e, before, after, displayed) == v + cl + tx + u + n;
    AllPassConcat(v, cl);
    AllPassConcat(v + cl, tx);
    AllPassConcat(v + cl + tx, u);
    AllPassConcat(v + cl + tx + u, n);
    if v != [] { AllPassOne(v[0]); assert v == [v[0]]; }
    if tx != [] { AllPassOne(tx[0]); assert tx == [tx[0]]; }
    if u != [] { AllPassOne(u[0]); assert u == [u[0]]; }
    ClassChecksPass(OrNone(e.expectedClasses), after.classes);
    NewElementChecksPass(OrNone(e.expectedNewElements), displayed);
  }

  /** The class checks all pass exactly when every expected class occurs
      in the class attribute. */
  lemma ClassChecksPass(expected: seq<string>, classes: string)
    ensures AllPass(ClassChecks(expected, classes)) <==> forall c :: c in expected ==> Contains(classes, c)
  {
    var cs := ClassChecks(expected, classes);
    if AllPass(cs) {
      forall c | c in expected ensures Contains(classes, c) {
        var i :| 0 <= i < |expected| && expected[i] == c;
        assert cs[i].passed;
        ContainsIff(classes, c);
      }
    } else {
      var i :| 0 <= i < |cs| && !cs[i].passed;
      ContainsIff(classes, expected[i]);
      assert expected[i] in expected;
    }
  }

  /** The new-element checks all pass exactly when every expected element
      was found and is displayed. */
  lemma NewElementChecksPass(selectors: seq<string>, displayed: map<string, bool>)
    ensures AllPass(NewElementChecks(selectors, displayed)) <==>
              forall s :: s in selectors ==> s in displayed && displayed[s]
  {
    var cs := NewElementChecks(selectors, displayed);
    if AllPass(cs) {
      forall s | s in selectors ensures s in displayed && displayed[s] {
        var i :| 0 <= i < |selectors| && selectors[i] == s;
        assert cs[i].passed;
      }
    } else {
      var i :| 0 <= i < |cs| && !cs[i].passed;
      assert selectors[i] in selectors;
    }
  }

  /** The click step of a test, as the tester runs it. */
  method RunClickTest(t: ClickTest, o: ClickObservation) returns (r: Outcome<TestRecord>)
    ensures r == ClickTestResult(t, o)
  {
    if t.name.None? {
      return Raised("'name'");
    }
    if t.selector.None? {
      return Raised("'selector'");
    }
    if o.states.Raised? {
      return Ok(TestRecord(t.name.value, false, [InteractionCheck(ClickExecution(o.states.error), false)]));
    }
    var checks, passed := CheckClickResults(t.expected, o.states.value.0, o.states.value.1, o.displayed, [], true);
    assert checks == ClickChecks(t.expected, o.states.value.0, o.states.value.1, o.displayed);
    r := Ok(TestRecord(t.name.value, passed, checks));
  }

  predicate EntryPassed(e: Entry<string, TestRecord>)
  {
    e.Checked? && e.result.passed
  }

  /** A test's entry in the tester's details: its record, or its error
      entry keyed by its name. */
  function ClickEntry(t: (ClickTest, ClickObservation)): Entry<string, TestRecord>
  {
    EntryOf(TestKey(t.0.name), ClickTestResult(t.0, t.1))
  }

  /** `ClickTester.verify`: WARNING without tests; otherwise each test's
      record (or its error entry) in order, PASS exactly when every entry
      passed, and the count in the message. */
  method ClickVerify(tests: seq<(ClickTest, ClickObservation)>)
    returns (r: VerificationResult<seq<Entry<string, TestRecord>>>)
    ensures tests == [] ==> r == VerificationResult("ClickTester", Warning, "No click tests specified", None, None)
    ensures tests != [] ==>
              r.checkName == "ClickTester" && r.details.Some? && |r.details.value| == |tests|
              && (forall i :: 0 <= i < |tests| ==> r.details.value[i] == ClickEntry(tests[i]))
              && (r.status == Pass <==> forall i :: 0 <= i < |tests| ==> EntryPassed(r.details.value[i]))
              && (r.status == Pass || r.status == Fail)
              && r.message == CountMessage("Click tests: ", CountWhere(r.details.value, EntryPassed), |tests|, " passed")
  {
    r := VerifyEach("ClickTester", "No click tests specified", "Click tests: ", " passed", tests, ClickEntry, EntryPassed);
  }

  // ---------------------------------------------------------------------------
  // Hover tests

  /** The optional entries of a hover test's `expected_result`. */
  datatype ExpectedHover = ExpectedHover(
    tooltipShouldAppear: Option<string>, expectedClasses: Option<seq<string>>, expectedNewElements: Option<seq<string>>)

  datatype HoverTest = HoverTest(name: Option<string>, selector: Option<string>, expected: ExpectedHover)

  /** The state captured after the hover: a `tooltip_<selector>` entry per
      tooltip selector the test lists (whether it is displayed) and the
      target's class attribute. */
  datatype HoverState = HoverState(tooltips: map<string, bool>, targetClasses: string)

  function TooltipKey(selector: string): string
  {
    "tooltip_" + selector
  }

  function TooltipChecks(tooltip: Option<string>, after: HoverState): (cs: seq<InteractionCheck>)
  {
    if tooltip.Some? then
      var key := TooltipKey(tooltip.value);
      [InteractionCheck(TooltipAppearance(tooltip.value), key in after.tooltips && after.tooltips[key])]
    else []
  }

  /** The new-element checks of the hover tester as written: the lookup
      names a driver the method does not have, the bare `except` catches
      the NameError, and every selector is reported as not found. */
  function HoverNewElementChecks(selectors: seq<string>): (cs: seq<InteractionCheck>)
    ensures |cs| == |selectors|
    ensures forall i :: 0 <= i < |cs| ==> cs[i] == InteractionCheck(NewElement(selectors[i]), false)
  {
    if selectors == [] then []
    else
      var k := |selectors| - 1;
      HoverNewElementChecks(selectors[..k]) + [InteractionCheck(NewElement(selectors[k]), false)]
  }

  /** `HoverTester._check_hover_results` as written: the tooltip, class
      and new-element checks, in that order. */
  function HoverChecks(e: ExpectedHover, after: HoverState): (cs: seq<InteractionCheck>)
  {
    TooltipChecks(e.tooltipShouldAppear, after)
    + ClassChecks(OrNone(e.expectedClasses), after.targetClasses)
    + HoverNewElementChecks(OrNone(e.expectedNewElements))
  }

  /** The hover checks as evidently intended: new elements looked up like
      the click tester does, given the elements found after the hover. */
  function HoverChecksIntended(e: ExpectedHover, after: HoverState, displayed: map<string, bool>)
    : (cs: seq<InteractionCheck>)
  {
    TooltipChecks(e.tooltipShouldAppear, after)
    + ClassChecks(OrNone(e.expectedClasses), after.targetClasses)
    + NewElementChecks(OrNone(e.expectedNewElements), displayed)
  }

  /** The tooltip check passes exactly when the state holds the tooltip's
      key and it is true. */
  lemma TooltipCheck(selector: string, after: HoverState)
    ensures |TooltipChecks(Some(selector), after)| == 1
    ensures TooltipChecks(Some(selector), after)[0].passed <==>
              "tooltip_" + selector in after.tooltips && after.tooltips["tooltip_" + selector]
  {
  }

  /** As written, a hover test that expects any new element fails, whatever
      appeared on the page. */
  lemma HoverNewElementsAlwaysFail(e: ExpectedHover, after: HoverState)
    requires OrNone(e.expectedNewElements) != []
    ensures !AllPass(HoverChecks(e, after))
  {
    var front := TooltipChecks(e.tooltipShouldAppear, after) + ClassChecks(OrNone(e.expectedClasses), after.targetClasses);
    var n := HoverNewElementChecks(OrNone(e.expectedNewElements));
    AllPassConcat(front, n);
    assert !n[0].passed;
  }

  /** As intended, the new-element checks pass exactly when every expected
      element is displayed; in particular a hover test whose only
      expectation is a displayed element passes, where as written it
      fails. */
  lemma HoverIntendedNewElements(e: ExpectedHover, after: HoverState, displayed: map<string, bool>)
    ensures AllPass(HoverChecksIntended(e, after, displayed)) <==>
              AllPass(TooltipChecks(e.tooltipShouldAppear, after) + ClassChecks(OrNone(e.expectedClasses), after.targetClasses))
              && forall s :: s in OrNone(e.expectedNewElements) ==> s in displayed && displayed[s]
  {
    var front := TooltipChecks(e.tooltipShouldAppear, after) + ClassChecks(OrNone(e.expectedClasses), after.targetClasses);
    AllPassConcat(front, NewElementChecks(OrNone(e.expectedNewElements), displayed));
    NewElementChecksPass(OrNone(e.expectedNewElements), displayed);
  }

  lemma HoverIntendedDiffers(after: HoverState)
    ensures var e := ExpectedHover(None, None, Some([".menu"]));
            AllPass(HoverChecksIntended(e, after, map[".menu" := true])) && !AllPass(HoverChecks(e, after))
  {
    var e := ExpectedHover(None, None, Some([".menu"]));
    HoverIntendedNewElements(e, after, map[".menu" := true]);
    HoverNewElementsAlwaysFail(e, after);
  }

  /** The new-element loop of the hover tester as written: every selector
      appends a failing check and turns the verdict off. */
  method AppendHoverNewElementChecks(selectors: seq<string>, checks0: seq<InteractionCheck>, passed0: bool)
    returns (checks: seq<InteractionCheck>, passed: bool)
    ensures checks == checks0 + HoverNewElementChecks(selectors)
    ensures passed == (passed0 && AllPass(HoverNewElementChecks(selectors)))
  {
    checks, passed := checks0, passed0;
    var i := 0;
    while i < |selectors|
      invariant 0 <= i <= |selectors|
      invariant checks == checks0 + HoverNewElementChecks(selectors[..i])
      invariant passed == (passed0 && AllPass(HoverNewElementChecks(selectors[..i])))
    {
      assert selectors[..i + 1][..i] == selectors[..i];
      var c := InteractionCheck(NewElement(selectors[i]), false);
      assert HoverNewElementChecks(selectors[..i + 1]) == HoverNewElementChecks(selectors[..i]) + [c];
      Grow(checks0, passed0, HoverNewElementChecks(selectors[..i]), [c]);
      checks := checks + [c];
      passed := false;
      i := i + 1;
    }
    assert selectors[..i] == selectors;
  }

  /** The checking step of a hover test, appending check by check. */
  method CheckHoverResults(e: ExpectedHover, after: HoverState, checks0: seq<InteractionCheck>, passed0: bool)
    returns (checks: seq<InteractionCheck>, passed: bool)
    ensures checks == checks0 + HoverChecks(e, after)
    ensures passed == (passed0 && AllPass(HoverChecks(e, after)))
  {
    checks, passed := checks0, passed0;
    if e.tooltipShouldAppear.Some? {
      var key := TooltipKey(e.tooltipShouldAppear.value);
      var c := InteractionCheck(TooltipAppearance(e.tooltipShouldAppear.value), key in after.tooltips && after.tooltips[key]);
      AllPassOne(c);
      checks := checks + [c];
      if !c.passed {
        passed := false;
      }
    }
    ghost var parts := TooltipChecks(e.tooltipShouldAppear, after);
    assert checks == checks0 + parts && passed == (passed0 && AllPass(parts));
    ghost var more := ClassChecks(OrNone(e.expectedClasses), after.targetClasses);
    Grow(checks0, passed0, parts, more);
    checks, passed := AppendClassChecks(OrNone(e.expectedClasses), after.targetClasses, checks, passed);
    parts := parts + more;
    more := HoverNewElementChecks(OrNone(e.expectedNewElements));
    Grow(checks0, passed0, parts, more);
    checks, passed := AppendHoverNewElementChecks(OrNone(e.expectedNewElements), checks, passed);
    parts := parts + more;
    assert parts == HoverChecks(e, after);
  }

  /** `HoverTester._run_hover_test`: a missing name or selector raises;
      when finding, capturing or hovering raised, one failing check;
      otherwise the hover checks, the test passing exactly when all of them
      do. */
  function HoverTestResult(t: HoverTest, after: Outcome<HoverState>): (r: Outcome<TestRecord>)
    ensures r.Raised? <==> t.name.None? || t.selector.None?
    ensures r.Ok? ==> r.value.test == t.name.value && (r.value.passed <==> AllPass(r.value.checks))
    ensures r.Ok? && after.Raised? ==> r.value.checks == [InteractionCheck(HoverExecution(after.error), false)]
  {
    if t.name.None? then Raised("'name'")
    else if t.selector.None? then Raised("'selector'")
    else
      match after
      case Raised(e) =>
        var r := TestRecord(t.name.value, false, [InteractionCheck(HoverExecution(e), false)]);
        assert !r.checks[0].passed;
        Ok(r)
      case Ok(st) =>
        var cs := HoverChecks(t.expected, st);
        Ok(TestRecord(t.name.value, AllPass(cs), cs))
  }

  method RunHoverTest(t: HoverTest, after: Outcome<HoverState>) returns (r: Outcome<TestRecord>)
    ensures r == HoverTestResult(t, after)
  {
    if t.name.None? {
      return Raised("'name'");
    }
    if t.selector.None? {
      return Raised("'selector'");
    }
    if after.Raised? {
      return Ok(TestRecord(t.name.value, false, [InteractionCheck(HoverExecution(after.error), false)]));
    }
    var checks, passed := CheckHoverResults(t.expected, after.value, [], true);
    assert checks == HoverChecks(t.expected, after.value);
    r := Ok(TestRecord(t.name.value, passed, checks));
  }

  /** A test's entry in the tester's details: its record, or its error
      entry keyed by its name. */
  function HoverEntry(t: (HoverTest, Outcome<HoverState>)): Entry<string, TestRecord>
  {
    EntryOf(TestKey(t.0.name), HoverTestResult(t.0, t.1))
  }

  /** `HoverTester.verify`: WARNING without tests; otherwise each test's
      record (or its error entry) in order, PASS exactly when every entry
      passed, and the count in the message. */
  method HoverVerify(tests: seq<(HoverTest, Outcome<HoverState>)>)
    returns (r: VerificationResult<seq<Entry<string, TestRecord>>>)
    ensures tests == [] ==> r == VerificationResult("HoverTester", Warning, "No hover tests specified", None, None)
    ensures tests != [] ==>
              r.checkName == "HoverTester" && r.details.Some? && |r.details.value| == |tests|
              && (forall i :: 0 <= i < |tests| ==> r.details.value[i] == HoverEntry(tests[i]))
              && (r.status == Pass <==> forall i :: 0 <= i < |tests| ==> EntryPassed(r.details.value[i]))
              && (r.status == Pass || r.status == Fail)
              && r.message == CountMessage("Hover tests: ", CountWhere(r.details.value, EntryPassed), |tests|, " passed")
  {
    r := VerifyEach("HoverTester", "No hover tests specified", "Hover tests: ", " passed", tests, HoverEntry, EntryPassed);
  }
}
