/** The ARIA and contrast checkers of the accessibility module: the
    accessible-name precedence, the per-element ARIA checks (name, required
    ARIA attributes, role, heading level, alt text), the per-element contrast
    decision (colour parsing, font-size units, the large-text rule and the
    required ratio), and the two checkers' `verify` loops. The driver is not
    modelled: an element is the snapshot of what the checks read from it, and
    a lookup that raised is given as `Raised`. */
module Accessibility {
  import opened Wrappers
  import opened Text
  import opened Core
  import Colors

  // ---------------------------------------------------------------------------
  // Element snapshots

  /** What the ARIA checks read from one element: its tag name, its visible
      text, its attributes (`get_attribute` on each name; a name that is not
      in the map reads as None), and the stripped-on-use text of the element
      that `aria-labelledby` names — or the exception that lookup raised. */
  datatype Element = Element(
    tagName: string,
    text: string,
    attributes: map<string, string>,
    labelledBy: Outcome<string>)

  function Attribute(e: Element, name: string): Option<string>
  {
    if name in e.attributes then Some(e.attributes[name]) else None
  }

  /** Python truthiness of an attribute value: present and non-empty. */
  predicate Truthy(v: Option<string>) { v.Some? && v.value != "" }

  /** `v and v.strip()`: present and not all whitespace. */
  predicate HasContent(v: Option<string>) { v.Some? && Strip(v.value) != "" }

  /** `element.tag_name.lower() == tag` */
  predicate IsTag(e: Element, tag: string) { Lower(e.tagName) == tag }

  /** A string with no whitespace at either end, as `strip` leaves it. */
  predicate Trimmed(s: string) { s == [] || (!IsSpace(s[0]) && !IsSpace(s[|s| - 1])) }

  // ---------------------------------------------------------------------------
  // The accessible name

  /** The name taken from `aria-labelledby`: when the attribute is non-empty
      and the referenced element was found, that element's stripped text —
      even when it is empty; when the lookup raised, nothing. */
  function LabelledByName(e: Element): (name: Option<string>)
    ensures name.Some? <==> Truthy(Attribute(e, "aria-labelledby")) && e.labelledBy.Ok?
    ensures name.Some? ==> Trimmed(name.value)
  {
    if Truthy(Attribute(e, "aria-labelledby")) && e.labelledBy.Ok? then
      StripIsTrimmed(e.labelledBy.value);
      Some(Strip(e.labelledBy.value))
    else None
  }

  /** `ARIAChecker._get_accessible_name`: the stripped `aria-label` if it has
      content; else the `aria-labelledby` name; else the stripped visible text
      if non-empty; else, on an `img`, its stripped `alt` whenever the
      attribute exists (even when empty); else the stripped `placeholder` if
      it has content; else None. Whatever it returns is stripped. */
  function AccessibleName(e: Element): (name: Option<string>)
    ensures name.Some? ==> Trimmed(name.value)
  {
    var ariaLabel := Attribute(e, "aria-label");
    var alt := Attribute(e, "alt");
    var placeholder := Attribute(e, "placeholder");
    if HasContent(ariaLabel) then
      StripIsTrimmed(ariaLabel.value);
      Some(Strip(ariaLabel.value))
    else if LabelledByName(e).Some? then
      LabelledByName(e)
    else if Strip(e.text) != "" then
      StripIsTrimmed(e.text);
      Some(Strip(e.text))
    else if IsTag(e, "img") && alt.Some? then
      StripIsTrimmed(alt.value);
      Some(Strip(alt.value))
    else if HasContent(placeholder) then
      StripIsTrimmed(placeholder.value);
      Some(Strip(placeholder.value))
    else None
  }

  /** The first available value of a list of candidates, in order. */
  function FirstSome<T>(cs: seq<Option<T>>): (r: Option<T>)
    ensures r.Some? <==> exists i :: 0 <= i < |cs| && cs[i].Some?
    ensures r.Some? ==> exists i :: 0 <= i < |cs| && cs[i] == r && forall k :: 0 <= k < i ==> cs[k].None?
  {
    if cs == [] then None
    else if cs[0].Some? then cs[0]
    else
      var r := FirstSome(cs[1..]);
      assert forall i :: 1 <= i < |cs| ==> cs[i] == cs[1..][i - 1];
      r
  }

  /** The five sources of an accessible name, each as it would be used if it
      were the first one available. */
  function NameCandidates(e: Element): seq<Option<string>>
  {
    var ariaLabel := Attribute(e, "aria-label");
    var alt := Attribute(e, "alt");
    var placeholder := Attribute(e, "placeholder");
    [ if HasContent(ariaLabel) then Some(Strip(ariaLabel.value)) else None,
      LabelledByName(e),
      if Strip(e.text) != "" then Some(Strip(e.text)) else None,
      if IsTag(e, "img") && alt.Some? then Some(Strip(alt.value)) else None,
      if HasContent(placeholder) then Some(Strip(placeholder.value)) else None ]
  }

  /** The accessible name is the first available of the five sources, in the
      order aria-label, aria-labelledby, text, img alt, placeholder. */
  lemma AccessibleNameIsFirstCandidate(e: Element)
    ensures AccessibleName(e) == FirstSome(NameCandidates(e))
  {
    var cs := NameCandidates(e);
    assert cs == [cs[0]] + ([cs[1]] + ([cs[2]] + ([cs[3]] + [cs[4]])));
    FirstSomeCons(cs[0], [cs[1]] + ([cs[2]] + ([cs[3]] + [cs[4]])));
    FirstSomeCons(cs[1], [cs[2]] + ([cs[3]] + [cs[4]]));
    FirstSomeCons(cs[2], [cs[3]] + [cs[4]]);
    FirstSomeCons(cs[3], [cs[4]]);
    FirstSomeCons(cs[4], []);
  }

  lemma FirstSomeCons<T>(c: Option<T>, rest: seq<Option<T>>)
    ensures FirstSome([c] + rest) == if c.Some? then c else FirstSome(rest)
  {
    assert ([c] + rest)[1..] == rest;
  }

  /** An empty accessible name (which the name check treats as missing) can
      only come from an `aria-labelledby` target without text or from an
      `img` whose `alt` is blank. */
  lemma EmptyNameSources(e: Element)
    ensures AccessibleName(e) == Some([]) ==>
              LabelledByName(e) == Some([])
              || (IsTag(e, "img") && Attribute(e, "alt").Some? && IsBlank(Attribute(e, "alt").value))
  {
    var alt := Attribute(e, "alt");
    if alt.Some? {
      StripEmptyIffBlank(alt.value);
    }
  }

  /** No name at all exactly when no source is available. */
  lemma NoNameIff(e: Element)
    ensures AccessibleName(e).None? <==>
              !HasContent(Attribute(e, "aria-label"))
              && !(Truthy(Attribute(e, "aria-labelledby")) && e.labelledBy.Ok?)
              && IsBlank(e.text)
              && !(IsTag(e, "img") && Attribute(e, "alt").Some?)
              && !HasContent(Attribute(e, "placeholder"))
  {
    StripEmptyIffBlank(e.text);
  }

  // ---------------------------------------------------------------------------
  // The per-element ARIA checks

  /** The kind of each check `_check_element_accessibility` records (its
      `type` field); the message strings are not modelled. */
  datatype AriaCheckKind =
    | NameCheck
    | AttributeCheck(attribute: string)
    | RoleCheck
    | HeadingCheck(level: nat)
    | AltCheck(decorative: bool)

  datatype AriaCheck = AriaCheck(kind: AriaCheckKind, passed: bool)

  datatype AriaResult = AriaResult(element: string, passed: bool, checks: seq<AriaCheck>)

  /** The ARIA attributes the checker requires when configured with none. */
  const DefaultRequiredAria: seq<string> := ["aria-label", "aria-labelledby", "aria-describedby"]

  /** `attr in _get_aria_attributes(element)`: the element carries the
      attribute and its name starts with `aria-`. */
  predicate HasAriaAttribute(e: Element, attr: string)
  {
    attr in e.attributes && "aria-" <= attr
  }

  /** The name check passes when the accessible name is truthy. */
  predicate Named(e: Element)
  {
    AccessibleName(e).Some? && AccessibleName(e).value != ""
  }

  /** A `div` or `span` with a non-empty `onclick` and no non-empty `role`. */
  predicate UnlabelledControl(e: Element)
  {
    !Truthy(Attribute(e, "role")) && (IsTag(e, "div") || IsTag(e, "span"))
    && Truthy(Attribute(e, "onclick"))
  }

  /** An `img` with no `alt` attribute at all. */
  predicate MissingAlt(e: Element)
  {
    IsTag(e, "img") && Attribute(e, "alt").None?
  }

  /** `element.tag_name.lower().startswith('h')` */
  predicate HeadingLike(e: Element)
  {
    |e.tagName| > 0 && LowerChar(e.tagName[0]) == 'h'
  }

  /** One check per required attribute, in order, passing when the element
      carries it. */
  function AttributeChecks(e: Element, required: seq<string>): (cs: seq<AriaCheck>)
    ensures |cs| == |required|
    ensures forall i :: 0 <= i < |cs| ==>
              cs[i] == AriaCheck(AttributeCheck(required[i]), HasAriaAttribute(e, required[i]))
  {
    if required == [] then []
    else
      var last := required[|required| - 1];
      AttributeChecks(e, required[..|required| - 1])
        + [AriaCheck(AttributeCheck(last), HasAriaAttribute(e, last))]
  }

  /** The role check: passing when `role` is non-empty, failing for an
      unlabelled `div`/`span` control, absent otherwise. */
  function RoleChecks(e: Element): (cs: seq<AriaCheck>)
    ensures |cs| <= 1
    ensures forall i :: 0 <= i < |cs| ==> cs[i].kind == RoleCheck
    ensures (forall i :: 0 <= i < |cs| ==> cs[i].passed) <==> !UnlabelledControl(e)
  {
    if Truthy(Attribute(e, "role")) then [AriaCheck(RoleCheck, true)]
    else if (IsTag(e, "div") || IsTag(e, "span")) && Truthy(Attribute(e, "onclick")) then
      var cs := [AriaCheck(RoleCheck, false)];
      assert !cs[0].passed;
      cs
    else []
  }

  /** The heading check: for a tag starting with `h`, `int(tag_name[1])`,
      which raises IndexError on a one-letter tag and ValueError when the
      second character is not a digit (`header`, `hr`, `html`, `head`). */
  function HeadingChecks(e: Element): (r: Outcome<seq<AriaCheck>>)
    ensures r.Raised? <==> HeadingLike(e) && (|e.tagName| < 2 || !IsDigit(e.tagName[1]))
    ensures r.Ok? ==> forall i :: 0 <= i < |r.value| ==> r.value[i].passed && r.value[i].kind.HeadingCheck?
  {
    var tag := e.tagName;
    if !HeadingLike(e) then Ok([])
    else if |tag| < 2 then Raised("string index out of range")
    else if !IsDigit(tag[1]) then Raised("invalid literal for int() with base 10: '" + [tag[1]] + "'")
    else Ok([AriaCheck(HeadingCheck(DigitValue(tag[1])), true)])
  }

  /** The alt-text check on an `img`: failing without `alt`, passing (and
      marked decorative when blank) with one. */
  function AltChecks(e: Element): (cs: seq<AriaCheck>)
    ensures |cs| <= 1
    ensures forall i :: 0 <= i < |cs| ==> cs[i].kind.AltCheck?
    ensures (forall i :: 0 <= i < |cs| ==> cs[i].passed) <==> !MissingAlt(e)
  {
    var alt := Attribute(e, "alt");
    if !IsTag(e, "img") then []
    else if alt.None? then
      var cs := [AriaCheck(AltCheck(false), false)];
      assert !cs[0].passed;
      cs
    else [AriaCheck(AltCheck(Strip(alt.value) == ""), true)]
  }

  /** `ARIAChecker._check_element_accessibility` on a looked-up element (or
      the lookup's exception): the checks in the order the source appends
      them, and the verdict that the name, role and alt checks set. */
  function ElementAccessibility(selector: string, lookup: Outcome<Element>, required: seq<string>)
    : (r: Outcome<AriaResult>)
    ensures lookup.Raised? ==> r == Raised(lookup.error)
    ensures lookup.Ok? ==> (r.Raised? <==> HeadingChecks(lookup.value).Raised?)
    ensures r.Ok? ==> r.value.element == selector
                      && |r.value.checks| >= 1 + |required|
                      && r.value.checks[0] == AriaCheck(NameCheck, Named(lookup.value))
  {
    var e :- lookup;
    var headings :- HeadingChecks(e);
    Ok(AriaResult(selector, Named(e) && !UnlabelledControl(e) && !MissingAlt(e),
                  [AriaCheck(NameCheck, Named(e))] + AttributeChecks(e, required)
                  + RoleChecks(e) + headings + AltChecks(e)))
  }

  /** The loop over the required attributes: one check per attribute, in
      order, appended to `checks`. */
  method AppendAttributeChecks(e: Element, required: seq<string>, checks: seq<AriaCheck>)
    returns (out: seq<AriaCheck>)
    ensures out == checks + AttributeChecks(e, required)
  {
    out := checks;
    var i := 0;
    while i < |required|
      invariant 0 <= i <= |required|
      invariant out == checks + AttributeChecks(e, required[..i])
    {
      var attr := required[i];
      assert required[..i + 1][..i] == required[..i];
      out := out + [AriaCheck(AttributeCheck(attr), HasAriaAttribute(e, attr))];
      i := i + 1;
    }
    assert required[..i] == required;
  }

  /** The imperative check: appends each check and clears `passed` as the
      source does, and builds exactly the result `ElementAccessibility`
      describes. */
  method CheckElementAccessibility(selector: string, lookup: Outcome<Element>, required: seq<string>)
    returns (r: Outcome<AriaResult>)
    ensures r == ElementAccessibility(selector, lookup, required)
  {
    if lookup.Raised? {
      r := Raised(lookup.error);
      return;
    }
    var e := lookup.value;
    assert lookup == Ok(e);
    var passed := true;
    var checks: seq<AriaCheck> := [];
    var name := AccessibleName(e);
    if name.None? || name.value == "" {
      passed := false;
      checks := checks + [AriaCheck(NameCheck, false)];
    } else {
      checks := checks + [AriaCheck(NameCheck, true)];
    }
    assert checks == [AriaCheck(NameCheck, Named(e))];
    checks := AppendAttributeChecks(e, required, checks);
    ghost var front := checks;
    if Truthy(Attribute(e, "role")) {
      checks := checks + [AriaCheck(RoleCheck, true)];
    } else if (IsTag(e, "div") || IsTag(e, "span")) && Truthy(Attribute(e, "onclick")) {
      checks := checks + [AriaCheck(RoleCheck, false)];
      passed := false;
    }
    assert checks == front + RoleChecks(e);
    ghost var withRoles := checks;
    var tag := e.tagName;
    if |tag| > 0 && LowerChar(tag[0]) == 'h' {
      if |tag| < 2 {
        r := Raised("string index out of range");
        assert HeadingChecks(e).Raised? && HeadingChecks(e).error == r.error;
        ElementAccessibilityOfParts(selector, e, required);
        return;
      }
      if !IsDigit(tag[1]) {
        r := Raised("invalid literal for int() with base 10: '" + [tag[1]] + "'");
        assert HeadingChecks(e).Raised? && HeadingChecks(e).error == r.error;
        ElementAccessibilityOfParts(selector, e, required);
        return;
      }
      checks := checks + [AriaCheck(HeadingCheck(DigitValue(tag[1])), true)];
    }
    assert HeadingChecks(e).Ok? && checks == withRoles + HeadingChecks(e).value;
    ghost var withHeadings := checks;
    if IsTag(e, "img") {
      var alt := Attribute(e, "alt");
      if alt.None? {
        passed := false;
        checks := checks + [AriaCheck(AltCheck(false), false)];
      } else {
        checks := checks + [AriaCheck(AltCheck(Strip(alt.value) == ""), true)];
      }
    }
    assert checks == withHeadings + AltChecks(e);
    assert passed == (Named(e) && !UnlabelledControl(e) && !MissingAlt(e));
    assert checks == [AriaCheck(NameCheck, Named(e))] + AttributeChecks(e, required)
                     + RoleChecks(e) + HeadingChecks(e).value + AltChecks(e);
    r := Ok(AriaResult(selector, passed, checks));
    ElementAccessibilityOfParts(selector, e, required);
  }

  /** `ElementAccessibility` on a found element, piece by piece. */
  lemma ElementAccessibilityOfParts(selector: string, e: Element, required: seq<string>)
    ensures HeadingChecks(e).Raised? ==>
              ElementAccessibility(selector, Ok(e), required) == Raised(HeadingChecks(e).error)
    ensures HeadingChecks(e).Ok? ==>
              ElementAccessibility(selector, Ok(e), required)
              == Ok(AriaResult(selector, Named(e) && !UnlabelledControl(e) && !MissingAlt(e),
                               [AriaCheck(NameCheck, Named(e))] + AttributeChecks(e, required)
                               + RoleChecks(e) + HeadingChecks(e).value + AltChecks(e)))
  {
  }

  /** Every check other than a required-attribute check passed. */
  predicate OthersPass(cs: seq<AriaCheck>)
  {
    forall i :: 0 <= i < |cs| && !cs[i].kind.AttributeCheck? ==> cs[i].passed
  }

  lemma OthersPassConcat(a: seq<AriaCheck>, b: seq<AriaCheck>)
    ensures OthersPass(a + b) <==> OthersPass(a) && OthersPass(b)
  {
    if OthersPass(a + b) {
      forall i | 0 <= i < |a| && !a[i].kind.AttributeCheck? ensures a[i].passed {
        assert (a + b)[i] == a[i];
      }
      forall i | 0 <= i < |b| && !b[i].kind.AttributeCheck? ensures b[i].passed {
        var j := |a| + i;
        assert (a + b)[j] == b[i];
        assert 0 <= j < |a + b| && !(a + b)[j].kind.AttributeCheck?;
      }
    }
    if OthersPass(a) && OthersPass(b) {
      forall i | 0 <= i < |a + b| && !(a + b)[i].kind.AttributeCheck? ensures (a + b)[i].passed {
        if i >= |a| {
          assert (a + b)[i] == b[i - |a|];
        }
      }
    }
  }

  /** An element passes exactly when every check other than the
      required-attribute checks passes: a missing required ARIA attribute is
      reported but never fails the element. */
  lemma PassedIffOtherChecksPass(selector: string, e: Element, required: seq<string>)
    requires ElementAccessibility(selector, Ok(e), required).Ok?
    ensures ElementAccessibility(selector, Ok(e), required).value.passed
            <==> OthersPass(ElementAccessibility(selector, Ok(e), required).value.checks)
  {
    ElementAccessibilityOfParts(selector, e, required);
    var name := [AriaCheck(NameCheck, Named(e))];
    var attrs, roles, alts := AttributeChecks(e, required), RoleChecks(e), AltChecks(e);
    var headings := HeadingChecks(e).value;
    OthersPassConcat(name, attrs);
    OthersPassConcat(name + attrs, roles);
    OthersPassConcat(name + attrs + roles, headings);
    OthersPassConcat(name + attrs + roles + headings, alts);
    OthersPassParts(e, required);
  }

  /** What each group of checks contributes to the verdict. */
  lemma OthersPassParts(e: Element, required: seq<string>)
    requires HeadingChecks(e).Ok?
    ensures OthersPass([AriaCheck(NameCheck, Named(e))]) <==> Named(e)
    ensures OthersPass(AttributeChecks(e, required))
    ensures OthersPass(RoleChecks(e)) <==> !UnlabelledControl(e)
    ensures OthersPass(HeadingChecks(e).value)
    ensures OthersPass(AltChecks(e)) <==> !MissingAlt(e)
  {
    assert [AriaCheck(NameCheck, Named(e))][0] == AriaCheck(NameCheck, Named(e));
  }

  /** Which attributes are required changes only the reported checks: the
      element's verdict, and whether the check raises, do not depend on it. */
  lemma RequiredAttributesDoNotDecide(selector: string, lookup: Outcome<Element>,
                                      required1: seq<string>, required2: seq<string>)
    ensures ElementAccessibility(selector, lookup, required1).Ok?
            == ElementAccessibility(selector, lookup, required2).Ok?
    ensures ElementAccessibility(selector, lookup, required1).Ok? ==>
              ElementAccessibility(selector, lookup, required1).value.passed
              == ElementAccessibility(selector, lookup, required2).value.passed
  {
  }

  /** A decorative image (blank `alt`, no other name source) is reported as
      decorative by the alt check but fails the name check, and so fails. */
  lemma DecorativeImageFails(selector: string, e: Element, required: seq<string>)
    requires IsTag(e, "img") && Attribute(e, "alt").Some? && IsBlank(Attribute(e, "alt").value)
    requires !HasContent(Attribute(e, "aria-label")) && LabelledByName(e).None? && IsBlank(e.text)
    ensures AltChecks(e) == [AriaCheck(AltCheck(true), true)]
    ensures ElementAccessibility(selector, Ok(e), required).Ok?
    ensures ElementAccessibility(selector, Ok(e), required).value.checks[0] == AriaCheck(NameCheck, false)
    ensures !ElementAccessibility(selector, Ok(e), required).value.passed
  {
    StripEmptyIffBlank(e.text);
    StripEmptyIffBlank(Attribute(e, "alt").value);
    assert LowerChar(e.tagName[0]) == 'i' by {
      assert Lower(e.tagName)[0] == 'i';
    }
    assert Named(e) == false;
    assert HeadingChecks(e) == Ok([]);
    assert AltChecks(e) == [AriaCheck(AltCheck(true), true)];
  }

  /** Tags that start with `h` but are not `h` plus a digit make the check
      raise, so the element ends up as an error entry. */
  lemma HeadingLikeTagsRaise(selector: string, e: Element, required: seq<string>)
    requires e.tagName in ["header", "hr", "html", "head", "h"]
    ensures ElementAccessibility(selector, Ok(e), required).Raised?
  {
    var t := e.tagName;
    assert t[0] == 'h' && (|t| < 2 || !IsDigit(t[1]));
    assert HeadingChecks(e).Raised?;
  }

  /** `h1` … `h6` record a passing heading check with their level. */
  lemma HeadingLevels(selector: string, e: Element, required: seq<string>, level: nat)
    requires 1 <= level <= 6 && e.tagName == ['h', DigitChar(level)]
    ensures var r := ElementAccessibility(selector, Ok(e), required);
            r.Ok? && AriaCheck(HeadingCheck(level), true) in r.value.checks
  {
    var r := ElementAccessibility(selector, Ok(e), required);
    assert HeadingChecks(e) == Ok([AriaCheck(HeadingCheck(level), true)]);
    assert r.value.checks == [AriaCheck(NameCheck, Named(e))] + AttributeChecks(e, required)
                             + RoleChecks(e) + [AriaCheck(HeadingCheck(level), true)] + AltChecks(e);
  }

  // ---------------------------------------------------------------------------
  // ARIAChecker.verify

  predicate AriaEntryPassed(entry: Entry<string, AriaResult>)
  {
    entry.Checked? && entry.result.passed
  }

  /** `ARIAChecker.verify` over the elements to check (given, or discovered
      on the page): each element's check or error entry in order; PASS
      exactly when every entry passed (also when there were none); the
      message counts the passing entries. */
  method AriaVerify(inputs: seq<(string, Outcome<Element>)>, required: seq<string>)
    returns (r: VerificationResult<seq<Entry<string, AriaResult>>>)
    ensures r.checkName == "ARIAChecker" && r.details.Some? && |r.details.value| == |inputs|
    ensures forall i :: 0 <= i < |inputs| ==>
              r.details.value[i] == EntryOf(inputs[i].0, ElementAccessibility(inputs[i].0, inputs[i].1, required))
    ensures r.status == Pass <==> forall i :: 0 <= i < |inputs| ==> AriaEntryPassed(r.details.value[i])
    ensures r.status == Pass || r.status == Fail
    ensures r.message == CountMessage("ARIA checks: ", CountWhere(r.details.value, AriaEntryPassed),
                                      |inputs|, " passed")
  {
    var entries: seq<Entry<string, AriaResult>> := [];
    var i := 0;
    while i < |inputs|
      invariant 0 <= i <= |inputs|
      invariant |entries| == i
      invariant forall k :: 0 <= k < i ==>
                  entries[k] == EntryOf(inputs[k].0, ElementAccessibility(inputs[k].0, inputs[k].1, required))
    {
      var res := CheckElementAccessibility(inputs[i].0, inputs[i].1, required);
      entries := entries + [EntryOf(inputs[i].0, res)];
      i := i + 1;
    }
    r := Conclude("ARIAChecker", "ARIA checks: ", " passed", entries, AriaEntryPassed);
  }

  // ---------------------------------------------------------------------------
  // Font sizes and the large-text rule

  /** `float(v) * factor`, or the ValueError. */
  function ScaledNumber(v: string, factor: real): (r: Outcome<real>)
    requires factor >= 0.0
    ensures r.Ok? <==> ParseDecimal(v).Some?
    ensures r.Ok? ==> r.value == ParseDecimal(v).value * factor && r.value >= 0.0
  {
    match ParseDecimal(v)
    case Some(x) => Ok(x * factor)
    case None => Raised(FloatError(v))
  }

  /** `ContrastChecker._parse_font_size`: points from a computed font size —
      16 for the empty string; `px` times 0.75, `pt` as is, `em` times 16 and
      0.75, tried in that order on the number before the two-letter unit;
      16 for anything else. A number `float` cannot read raises. */
  function FontSizePoints(s: string): (r: Outcome<real>)
    ensures r.Ok? ==> r.value >= 0.0
    ensures !EndsWith(s, "px") && !EndsWith(s, "pt") && !EndsWith(s, "em") ==> r == Ok(16.0)
  {
    if s == "" then Ok(16.0)
    else if EndsWith(s, "px") then ScaledNumber(s[..|s| - 2], 0.75)
    else if EndsWith(s, "pt") then ScaledNumber(s[..|s| - 2], 1.0)
    else if EndsWith(s, "em") then ScaledNumber(s[..|s| - 2], 16.0 * 0.75)
    else Ok(16.0)
  }

  /** Whole-number sizes in each unit convert to points as CSS defines
      (with a 16px em). */
  lemma FontSizeUnits(n: nat)
    ensures FontSizePoints(NatToString(n) + "px") == Ok(n as real * 0.75)
    ensures FontSizePoints(NatToString(n) + "pt") == Ok(n as real)
    ensures FontSizePoints(NatToString(n) + "em") == Ok(n as real * 12.0)
  {
    var d := NatToString(n);
    ParseDecimalOfNat(n);
    assert (d + "px")[..|d|] == d;
    assert (d + "pt")[..|d|] == d;
    assert (d + "em")[..|d|] == d;
    assert (d + "pt")[|d| + 1] == 't';
    assert (d + "em")[|d| + 1] == 'm';
  }

  /** A `rem` size also ends in `em`, so its number is read with the `r`
      attached, and `float` raises. */
  lemma RemSizeRaises()
    ensures FontSizePoints("1.5rem").Raised?
  {
    var v := "1.5r";
    assert "1.5rem"[..4] == v;
    assert IndexOf(v[1..], '.') == 0;
    assert IndexOf(v, '.') == 1;
    assert v[2..][1] == 'r';
  }

  const BoldWeights: seq<string> := ["bold", "700", "800", "900"]

  /** The large-text rule: at least 18pt, or at least 14pt and bold. */
  predicate IsLargeText(points: real, fontWeight: string)
  {
    points >= 18.0 || (points >= 14.0 && fontWeight in BoldWeights)
  }

  /** In whole pixels the rule reads: at least 24px, or at least 19px and
      bold (14pt is 18.67px). */
  lemma LargeTextInPixels(n: nat, fontWeight: string)
    ensures IsLargeText(n as real * 0.75, fontWeight) <==> n >= 24 || (n >= 19 && fontWeight in BoldWeights)
  {
    if n <= 18 {
      assert n as real * 0.75 <= 13.5;
    }
  }

  // ---------------------------------------------------------------------------
  // The per-element contrast decision

  /** The computed style `_check_element_contrast` reads through the page's
      script. */
  datatype ComputedStyle = ComputedStyle(color: string, backgroundColor: string,
                                         fontSize: string, fontWeight: string)

  /** What the contrast check observes: whether the element lookup raised,
      and the computed style or the exception the script raised. */
  datatype ContrastObservation = ContrastObservation(lookup: Outcome<()>, styles: Outcome<ComputedStyle>)

  /** The single `contrast_ratio` check: the ratio decision, a colour that
      could not be parsed, or an exception caught inside the check. */
  datatype ContrastCheck =
    | RatioCheck(passed: bool, ratio: real, requiredRatio: real, isLargeText: bool)
    | ColorUnknown
    | ContrastError(error: string)

  predicate CheckPassed(c: ContrastCheck) { c.RatioCheck? && c.passed }

  datatype ContrastResult = ContrastResult(element: string, passed: bool, checks: seq<ContrastCheck>)

  /** The body of the `try` in `_check_element_contrast`: both colours must
      parse; the ratio is then compared with `largeRatio` for large text and
      `minRatio` otherwise. A font size `float` cannot read, or a failed
      style script, is an error check. */
  function StyleContrast(gamma: real -> real, styles: Outcome<ComputedStyle>, minRatio: real, largeRatio: real)
    : (c: ContrastCheck)
    requires Colors.ValidGamma(gamma)
    ensures c.RatioCheck? ==> (c.passed <==> c.ratio >= c.requiredRatio)
    ensures c.RatioCheck? ==> c.requiredRatio == (if c.isLargeText then largeRatio else minRatio)
    ensures c.RatioCheck? ==> c.ratio >= 1.0
    ensures (styles.Ok? && (Colors.ParseCssColor(styles.value.color).None?
                            || Colors.ParseCssColor(styles.value.backgroundColor).None?))
            ==> c == ColorUnknown
  {
    match styles
    case Raised(error) => ContrastError(error)
    case Ok(st) =>
      var text := Colors.ParseCssColor(st.color);
      var background := Colors.ParseCssColor(st.backgroundColor);
      if text.None? || background.None? then ColorUnknown
      else
        var ratio := Colors.ContrastRatio(gamma, text.value, background.value);
        match FontSizePoints(st.fontSize)
        case Raised(error) => ContrastError(error)
        case Ok(points) =>
          var large := IsLargeText(points, st.fontWeight);
          var required := if large then largeRatio else minRatio;
          RatioCheck(ratio >= required, ratio, required, large)
  }

  /** `ContrastChecker._check_element_contrast`: the lookup's exception
      propagates; otherwise exactly one check, and the element passes
      exactly when it is a ratio check that passed. */
  function ElementContrast(gamma: real -> real, selector: string, seen: ContrastObservation,
                           minRatio: real, largeRatio: real)
    : (r: Outcome<ContrastResult>)
    requires Colors.ValidGamma(gamma)
    ensures r.Raised? <==> seen.lookup.Raised?
    ensures r.Ok? ==> r.value.element == selector && |r.value.checks| == 1
                      && (r.value.passed <==> CheckPassed(r.value.checks[0]))
  {
    if seen.lookup.Raised? then Raised(seen.lookup.error)
    else
      var c := StyleContrast(gamma, seen.styles, minRatio, largeRatio);
      Ok(ContrastResult(selector, CheckPassed(c), [c]))
  }

  /** With both colours and the size readable, the check is the ratio
      decision on those colours, with the large-text rule on that size. */
  lemma ContrastDecision(gamma: real -> real, st: ComputedStyle, minRatio: real, largeRatio: real,
                         fg: Colors.Rgb, bg: Colors.Rgb, points: real)
    requires Colors.ValidGamma(gamma)
    requires Colors.ParseCssColor(st.color) == Some(fg) && Colors.ParseCssColor(st.backgroundColor) == Some(bg)
    requires FontSizePoints(st.fontSize) == Ok(points)
    ensures StyleContrast(gamma, Ok(st), minRatio, largeRatio)
            == RatioCheck(Colors.ContrastRatio(gamma, fg, bg) >= (if IsLargeText(points, st.fontWeight) then largeRatio else minRatio),
                          Colors.ContrastRatio(gamma, fg, bg),
                          if IsLargeText(points, st.fontWeight) then largeRatio else minRatio,
                          IsLargeText(points, st.fontWeight))
  {
  }

  /** With the default thresholds (4.5, and 3.0 for large text) the check
      agrees with `ColorUtils.is_color_accessible`. */
  lemma DefaultsAgreeWithColorUtils(gamma: real -> real, st: ComputedStyle,
                                    fg: Colors.Rgb, bg: Colors.Rgb, points: real)
    requires Colors.ValidGamma(gamma)
    requires Colors.ParseCssColor(st.color) == Some(fg) && Colors.ParseCssColor(st.backgroundColor) == Some(bg)
    requires FontSizePoints(st.fontSize) == Ok(points)
    ensures CheckPassed(StyleContrast(gamma, Ok(st), 4.5, 3.0))
            == Colors.IsColorAccessible(gamma, fg, bg, IsLargeText(points, st.fontWeight)).0
  {
  }

  /** Black text on white passes whenever both thresholds are at most 21. */
  lemma BlackOnWhitePasses(gamma: real -> real, st: ComputedStyle, minRatio: real, largeRatio: real)
    requires Colors.ValidGamma(gamma)
    requires Colors.ParseCssColor(st.color) == Some(Colors.Rgb(0, 0, 0))
    requires Colors.ParseCssColor(st.backgroundColor) == Some(Colors.Rgb(255, 255, 255))
    requires FontSizePoints(st.fontSize).Ok?
    requires minRatio <= 21.0 && largeRatio <= 21.0
    ensures CheckPassed(StyleContrast(gamma, Ok(st), minRatio, largeRatio))
  {
    Colors.ContrastBlackWhite(gamma);
  }

  /** Text in its own background colour fails whenever both thresholds
      exceed 1. */
  lemma SameColorFails(gamma: real -> real, st: ComputedStyle, minRatio: real, largeRatio: real)
    requires Colors.ValidGamma(gamma)
    requires Colors.ParseCssColor(st.color).Some?
    requires Colors.ParseCssColor(st.backgroundColor) == Colors.ParseCssColor(st.color)
    requires minRatio > 1.0 && largeRatio > 1.0
    ensures !CheckPassed(StyleContrast(gamma, Ok(st), minRatio, largeRatio))
  {
  }

  /** A transparent background as browsers report it, `rgba(0, 0, 0, 0)`,
      parses as black, so black text on it fails whenever both thresholds
      exceed 1. */
  lemma TransparentBackgroundReadsAsBlack(gamma: real -> real, st: ComputedStyle,
                                         minRatio: real, largeRatio: real)
    requires Colors.ValidGamma(gamma)
    requires Colors.ParseCssColor(st.color) == Some(Colors.Rgb(0, 0, 0))
    requires st.backgroundColor == "rgba(0, 0, 0, 0)"
    requires minRatio > 1.0 && largeRatio > 1.0
    ensures !CheckPassed(StyleContrast(gamma, Ok(st), minRatio, largeRatio))
  {
    Colors.ParseTransparentBlack();
  }

  // ---------------------------------------------------------------------------
  // ContrastChecker.verify

  predicate ContrastEntryPassed(entry: Entry<string, ContrastResult>)
  {
    entry.Checked? && entry.result.passed
  }

  /** `ContrastChecker.verify` over the elements to check (given, or the
      text elements discovered on the page): each element's result or error
      entry in order; PASS exactly when every entry passed; the message
      counts the passing entries. */
  method ContrastVerify(gamma: real -> real, inputs: seq<(string, ContrastObservation)>,
                        minRatio: real, largeRatio: real)
    returns (r: VerificationResult<seq<Entry<string, ContrastResult>>>)
    requires Colors.ValidGamma(gamma)
    ensures r.checkName == "ContrastChecker" && r.details.Some? && |r.details.value| == |inputs|
    ensures forall i :: 0 <= i < |inputs| ==>
              r.details.value[i] == EntryOf(inputs[i].0, ElementContrast(gamma, inputs[i].0, inputs[i].1, minRatio, largeRatio))
    ensures r.status == Pass <==> forall i :: 0 <= i < |inputs| ==> ContrastEntryPassed(r.details.value[i])
    ensures r.status == Pass || r.status == Fail
    ensures r.message == CountMessage("Contrast checks: ", CountWhere(r.details.value, ContrastEntryPassed),
                                      |inputs|, " passed")
  {
    var entries: seq<Entry<string, ContrastResult>> := [];
    var i := 0;
    while i < |inputs|
      invariant 0 <= i <= |inputs|
      invariant |entries| == i
      invariant forall k :: 0 <= k < i ==>
                  entries[k] == EntryOf(inputs[k].0, ElementContrast(gamma, inputs[k].0, inputs[k].1, minRatio, largeRatio))
    {
      entries := entries + [EntryOf(inputs[i].0, ElementContrast(gamma, inputs[i].0, inputs[i].1, minRatio, largeRatio))];
      i := i + 1;
    }
    r := Conclude("ContrastChecker", "Contrast checks: ", " passed", entries, ContrastEntryPassed);
  }
}
