// Responsive-design decisions of gui_verification/responsive.py: the
// rectangle-overlap predicate and the pairwise overlap scan, the per-element
// viewport rules, the horizontal-scroll rule, and the breakpoint checker
// (default breakpoints, the test width, visibility expectations). Element
// lookups and visibility are observations passed in as functions.

module Responsive {
  import opened Wrappers
  import opened Core
  import Config
  import Arith

  /* ---------------- Overlap ---------------- */

  /** `_elements_overlap`: two boxes overlap unless one lies wholly left of,
      right of, above or below the other. Shared edges are not overlap. */
  predicate Overlaps(a: Bounds, b: Bounds)
  {
    !(a.x + a.width <= b.x || b.x + b.width <= a.x ||
      a.y + a.height <= b.y || b.y + b.height <= a.y)
  }

  lemma OverlapsSymmetric(a: Bounds, b: Bounds)
    ensures Overlaps(a, b) <==> Overlaps(b, a)
  {
  }

  /** Boxes that only touch along a vertical or horizontal edge do not overlap. */
  lemma TouchingDoNotOverlap(a: Bounds, b: Bounds)
    requires a.x + a.width == b.x || a.y + a.height == b.y
    ensures !Overlaps(a, b) && !Overlaps(b, a)
  {
  }

  function Larger(a: int, b: int): int { if a < b then b else a }
  function Smaller(a: int, b: int): int { if a < b then a else b }

  /** For boxes of positive size, overlap means that the open intersection
      of the two boxes is non-empty on both axes. */
  lemma OverlapsIffIntersection(a: Bounds, b: Bounds)
    requires a.width > 0 && a.height > 0 && b.width > 0 && b.height > 0
    ensures Overlaps(a, b) <==>
              Larger(a.x, b.x) < Smaller(a.x + a.width, b.x + b.width) &&
              Larger(a.y, b.y) < Smaller(a.y + a.height, b.y + b.height)
  {
  }

  /** A box of width zero overlaps a box exactly when its x lies strictly
      inside the other's horizontal extent and the vertical extents overlap;
      so two zero-width boxes never overlap, but a zero-width box strictly
      inside a wider one does. */
  lemma ZeroWidthOverlap(a: Bounds, b: Bounds)
    requires a.width == 0
    ensures Overlaps(a, b) <==>
              b.x < a.x < b.x + b.width && a.y < b.y + b.height && b.y < a.y + a.height
    ensures b.width == 0 ==> !Overlaps(a, b)
  {
  }

  /** A zero-width box inside a 10x10 box counts as overlapping it. */
  lemma ZeroWidthInsideOverlaps()
    ensures Overlaps(Bounds(5, 2, 0, 4), Bounds(0, 0, 10, 10))
  {
  }

  /** A box overlaps itself exactly when it has positive width and height. */
  lemma SelfOverlap(a: Bounds)
    ensures Overlaps(a, a) <==> a.width > 0 && a.height > 0
  {
  }

  /* ---------------- Overlap scan ---------------- */

  /** The first loop of `_check_element_overlaps`: the selectors whose lookup
      succeeded, with their boxes, in order; a lookup that raises is skipped. */
  function Located(selectors: seq<string>, locate: string -> Outcome<Bounds>): (es: seq<(string, Bounds)>)
    ensures |es| <= |selectors|
    ensures forall e :: e in es ==> e.0 in selectors && locate(e.0) == Ok(e.1)
  {
    if selectors == [] then []
    else
      var init := Located(selectors[..|selectors| - 1], locate);
      var last := selectors[|selectors| - 1];
      match locate(last)
      case Ok(b) => init + [(last, b)]
      case Raised(_) => init
  }

  /** Locating is a filter: located boxes of a concatenation are the located
      boxes of each part, in order, so the order of the selectors is kept. */
  lemma {:induction false} LocatedConcat(a: seq<string>, b: seq<string>, locate: string -> Outcome<Bounds>)
    ensures Located(a + b, locate) == Located(a, locate) + Located(b, locate)
    decreases |b|
  {
    if b == [] {
      assert a + b == a;
    } else {
      var init := b[..|b| - 1];
      var last := b[|b| - 1];
      assert (a + b)[..|a + b| - 1] == a + init;
      LocatedConcat(a, init, locate);
    }
  }

  /** Every selector whose lookup succeeds is located, with its box. */
  lemma {:induction false} LocatedComplete(selectors: seq<string>, locate: string -> Outcome<Bounds>)
    ensures forall i :: 0 <= i < |selectors| && locate(selectors[i]).Ok? ==>
              (selectors[i], locate(selectors[i]).value) in Located(selectors, locate)
  {
    if selectors != [] {
      var init := selectors[..|selectors| - 1];
      LocatedComplete(init, locate);
      forall i | 0 <= i < |selectors| && locate(selectors[i]).Ok?
        ensures (selectors[i], locate(selectors[i]).value) in Located(selectors, locate)
      {
        if i < |init| {
          assert selectors[i] == init[i];
        }
      }
    }
  }

  /** One selector is located exactly when its lookup succeeds. */
  lemma LocatedOne(s: string, locate: string -> Outcome<Bounds>)
    ensures Located([s], locate) == (if locate(s).Ok? then [(s, locate(s).value)] else [])
  {
    assert [s][..0] == [];
  }

  /** When every lookup succeeds, every selector is located, in order. */
  lemma {:induction false} LocatedAll(selectors: seq<string>, locate: string -> Outcome<Bounds>)
    requires forall i :: 0 <= i < |selectors| ==> locate(selectors[i]).Ok?
    ensures |Located(selectors, locate)| == |selectors|
    ensures forall i :: 0 <= i < |selectors| ==>
              Located(selectors, locate)[i] == (selectors[i], locate(selectors[i]).value)
  {
    if selectors != [] {
      var init := selectors[..|selectors| - 1];
      var last := selectors[|selectors| - 1];
      assert forall i :: 0 <= i < |init| ==> init[i] == selectors[i];
      LocatedAll(init, locate);
      assert locate(last).Ok?;
      var es := Located(selectors, locate);
      assert es == Located(init, locate) + [(last, locate(last).value)];
      forall i | 0 <= i < |selectors| ensures es[i] == (selectors[i], locate(selectors[i]).value) {
        if i < |init| {
          assert es[i] == Located(init, locate)[i];
        }
      }
    }
  }

  /** The overlapping pairs `(i, k)`, `i < k < j`, that the inner loop of the
      scan finds for element `i`, in the order it finds them. */
  function RowPairs(es: seq<(string, Bounds)>, i: nat, j: nat): (ps: seq<(nat, nat)>)
    requires i < j <= |es|
    ensures forall p :: p in ps ==> p.0 == i && i < p.1 < j
    decreases j
  {
    if j == i + 1 then []
    else RowPairs(es, i, j - 1) + (if Overlaps(es[i].1, es[j - 1].1) then [(i, j - 1)] else [])
  }

  /** The overlapping pairs found by the first `n` rounds of the outer loop. */
  function ScanPairs(es: seq<(string, Bounds)>, n: nat): (ps: seq<(nat, nat)>)
    requires n <= |es|
    ensures forall p :: p in ps ==> p.0 < n && p.0 < p.1 < |es|
  {
    if n == 0 then [] else ScanPairs(es, n - 1) + RowPairs(es, n - 1, |es|)
  }

  lemma {:induction false} RowPairsMembers(es: seq<(string, Bounds)>, i: nat, j: nat)
    requires i < j <= |es|
    ensures forall p :: p in RowPairs(es, i, j) <==>
              p.0 == i && i < p.1 < j && Overlaps(es[i].1, es[p.1].1)
    decreases j
  {
    if j > i + 1 {
      RowPairsMembers(es, i, j - 1);
    }
  }

  /** The scan reports exactly the pairs `i < j` of located elements that overlap. */
  lemma {:induction false} ScanPairsMembers(es: seq<(string, Bounds)>, n: nat)
    requires n <= |es|
    ensures forall p :: p in ScanPairs(es, n) <==>
              p.0 < n && p.0 < p.1 < |es| && Overlaps(es[p.0].1, es[p.1].1)
  {
    if n > 0 {
      var xs, ys := ScanPairs(es, n - 1), RowPairs(es, n - 1, |es|);
      assert ScanPairs(es, n) == xs + ys;
      ScanPairsMembers(es, n - 1);
      RowPairsMembers(es, n - 1, |es|);
      forall p: (nat, nat) ensures p in xs + ys <==> p.0 < n && p.0 < p.1 < |es| && Overlaps(es[p.0].1, es[p.1].1) {
        assert p in xs + ys <==> p in xs || p in ys;
      }
    }
  }

  /** The scan finds nothing exactly when no two located boxes overlap. */
  lemma NoPairsIffDisjoint(es: seq<(string, Bounds)>)
    ensures ScanPairs(es, |es|) == [] <==>
              forall i, j :: 0 <= i < j < |es| ==> !Overlaps(es[i].1, es[j].1)
  {
    ScanPairsMembers(es, |es|);
    var ps := ScanPairs(es, |es|);
    if ps != [] {
      assert ps[0] in ps;
    }
    if !(forall i, j :: 0 <= i < j < |es| ==> !Overlaps(es[i].1, es[j].1)) {
      var i, j :| 0 <= i < j < |es| && Overlaps(es[i].1, es[j].1);
      assert (i, j) in ps;
    }
  }

  /** `p` comes before `q` in the scan's (lexicographic) index order. */
  predicate Before(p: (nat, nat), q: (nat, nat))
  {
    p.0 < q.0 || (p.0 == q.0 && p.1 < q.1)
  }

  predicate InScanOrder(ps: seq<(nat, nat)>)
  {
    forall a, b :: 0 <= a < b < |ps| ==> Before(ps[a], ps[b])
  }

  lemma ConcatInScanOrder(xs: seq<(nat, nat)>, ys: seq<(nat, nat)>)
    requires InScanOrder(xs) && InScanOrder(ys)
    requires forall p, q :: p in xs && q in ys ==> Before(p, q)
    ensures InScanOrder(xs + ys)
  {
    var zs := xs + ys;
    forall a, b | 0 <= a < b < |zs|
      ensures Before(zs[a], zs[b])
    {
      if a < |xs| && b >= |xs| {
        assert zs[a] in xs && zs[b] in ys;
      } else if a >= |xs| {
        assert zs[a] == ys[a - |xs|] && zs[b] == ys[b - |xs|];
      }
    }
  }

  lemma {:induction false} RowPairsOrdered(es: seq<(string, Bounds)>, i: nat, j: nat)
    requires i < j <= |es|
    ensures InScanOrder(RowPairs(es, i, j))
    decreases j
  {
    if j > i + 1 {
      RowPairsOrdered(es, i, j - 1);
      var tail := if Overlaps(es[i].1, es[j - 1].1) then [(i, j - 1)] else [];
      ConcatInScanOrder(RowPairs(es, i, j - 1), tail);
    }
  }

  /** Every unordered pair is reported at most once, in index order: the
      reported pairs are strictly increasing in lexicographic order. */
  lemma {:induction false} ScanPairsOrdered(es: seq<(string, Bounds)>, n: nat)
    requires n <= |es|
    ensures InScanOrder(ScanPairs(es, n))
  {
    if n > 0 {
      var xs, ys := ScanPairs(es, n - 1), RowPairs(es, n - 1, |es|);
      ScanPairsOrdered(es, n - 1);
      RowPairsOrdered(es, n - 1, |es|);
      assert ScanPairs(es, n) == xs + ys;
      ConcatRows(xs, ys, n - 1);
    }
  }

  /** The pairs of earlier rows followed by those of row `k`. */
  lemma ConcatRows(xs: seq<(nat, nat)>, ys: seq<(nat, nat)>, k: nat)
    requires InScanOrder(xs) && InScanOrder(ys)
    requires forall p :: p in xs ==> p.0 < k
    requires forall q :: q in ys ==> q.0 == k
    ensures InScanOrder(xs + ys)
  {
    ConcatInScanOrder(xs, ys);
  }

  predicate InRange(es: seq<(string, Bounds)>, ps: seq<(nat, nat)>)
  {
    forall p :: p in ps ==> p.0 < |es| && p.1 < |es|
  }

  /** The selector pairs that name the index pairs `ps`. */
  function Named(es: seq<(string, Bounds)>, ps: seq<(nat, nat)>): (ns: seq<(string, string)>)
    requires InRange(es, ps)
    ensures |ns| == |ps|
  {
    if ps == [] then []
    else
      var p := ps[|ps| - 1];
      Named(es, ps[..|ps| - 1]) + [(es[p.0].0, es[p.1].0)]
  }

  /** The k-th named pair names the k-th index pair. */
  lemma {:induction false} NamedIndex(es: seq<(string, Bounds)>, ps: seq<(nat, nat)>, k: nat)
    requires InRange(es, ps) && k < |ps|
    ensures Named(es, ps)[k] == (es[ps[k].0].0, es[ps[k].1].0)
  {
    var init := ps[..|ps| - 1];
    if k < |init| {
      assert init[k] == ps[k];
      NamedIndex(es, init, k);
    }
  }

  /** Naming distributes over concatenation. */
  lemma {:induction false} NamedConcat(es: seq<(string, Bounds)>, xs: seq<(nat, nat)>, ys: seq<(nat, nat)>)
    requires InRange(es, xs) && InRange(es, ys)
    ensures InRange(es, xs + ys)
    ensures Named(es, xs + ys) == Named(es, xs) + Named(es, ys)
    decreases |ys|
  {
    if ys == [] {
      assert xs + ys == xs;
    } else {
      var init := ys[..|ys| - 1];
      assert (xs + ys)[..|xs + ys| - 1] == xs + init;
      NamedConcat(es, xs, init);
    }
  }

  /** One more round of the inner loop appends the pair it tests when the boxes overlap. */
  lemma RowStep(es: seq<(string, Bounds)>, i: nat, j: nat)
    requires i < j < |es|
    ensures Named(es, RowPairs(es, i, j + 1)) ==
              Named(es, RowPairs(es, i, j)) + (if Overlaps(es[i].1, es[j].1) then [(es[i].0, es[j].0)] else [])
  {
    var tail := if Overlaps(es[i].1, es[j].1) then [(i, j)] else [];
    NamedConcat(es, RowPairs(es, i, j), tail);
  }

  /** One more round of the outer loop appends the pairs of its row. */
  lemma ScanStep(es: seq<(string, Bounds)>, i: nat)
    requires i < |es|
    ensures Named(es, ScanPairs(es, i + 1)) == Named(es, ScanPairs(es, i)) + Named(es, RowPairs(es, i, |es|))
  {
    NamedConcat(es, ScanPairs(es, i), RowPairs(es, i, |es|));
  }

  /** The result of `_check_element_overlaps`. */
  datatype OverlapCheck = OverlapCheck(passed: bool, overlaps: seq<(string, string)>)

  /** The first loop of `_check_element_overlaps`. */
  method LocateAll(selectors: seq<string>, locate: string -> Outcome<Bounds>)
    returns (es: seq<(string, Bounds)>)
    ensures es == Located(selectors, locate)
  {
    es := [];
    var i := 0;
    while i < |selectors|
      invariant 0 <= i <= |selectors|
      invariant es == Located(selectors[..i], locate)
    {
      assert selectors[..i + 1][..i] == selectors[..i];
      match locate(selectors[i]) {
        case Ok(b) => es := es + [(selectors[i], b)];
        case Raised(_) =>
      }
      i := i + 1;
    }
    assert selectors[..i] == selectors;
  }

  /** The inner loop of the scan: element `i` against every later element. */
  method ScanRow(es: seq<(string, Bounds)>, i: nat) returns (row: seq<(string, string)>)
    requires i < |es|
    ensures row == Named(es, RowPairs(es, i, |es|))
  {
    row := [];
    var j := i + 1;
    while j < |es|
      invariant i + 1 <= j <= |es|
      invariant row == Named(es, RowPairs(es, i, j))
    {
      RowStep(es, i, j);
      if Overlaps(es[i].1, es[j].1) {
        row := row + [(es[i].0, es[j].0)];
      }
      j := j + 1;
    }
  }

  /** `_check_element_overlaps`: locates every selector (skipping those whose
      lookup raises), then compares every pair `i < j` of located boxes and
      lists the overlapping pairs by selector, in the scan's order. */
  method CheckElementOverlaps(selectors: seq<string>, locate: string -> Outcome<Bounds>)
    returns (c: OverlapCheck)
    ensures var es := Located(selectors, locate);
            c.overlaps == Named(es, ScanPairs(es, |es|))
    ensures var es := Located(selectors, locate);
            c.passed <==> forall i, j :: 0 <= i < j < |es| ==> !Overlaps(es[i].1, es[j].1)
  {
    var es := LocateAll(selectors, locate);
    var overlaps: seq<(string, string)> := [];
    var i := 0;
    while i < |es|
      invariant 0 <= i <= |es|
      invariant overlaps == Named(es, ScanPairs(es, i))
    {
      var row := ScanRow(es, i);
      ScanStep(es, i);
      overlaps := overlaps + row;
      i := i + 1;
    }
    NoPairsIffDisjoint(es);
    c := OverlapCheck(overlaps == [], overlaps);
  }

  /* ---------------- Viewport rules ---------------- */

  type Viewport = Config.Viewport

  /** `ViewportTester`'s default viewports (the same three as the configuration's). */
  const TesterViewports: seq<Viewport> := Config.DefaultViewports

  /** `ViewportTester`'s default `viewport_tolerance`. */
  const ViewportTolerance := 10

  /** One check of `_check_element_responsive` and of `_test_viewport`. */
  datatype ResponsiveCheck =
    | ViewportFit(passed: bool, rightEdge: int, viewportWidth: int)
    | Visibility(passed: bool)
    | SizeAppropriateness(passed: bool, widthPercentage: Option<real>)
    | HorizontalScroll(passed: bool, pageWidth: int, viewportWidth: int)
    | ElementError(passed: bool, error: string)

  /** Python's message for a true division by zero. */
  const DivisionByZero := "division by zero"

  /** `_check_element_size_appropriateness`: on the `mobile` viewport a width
      under 44 fails first; otherwise the element fails when its width is
      more than 90% of the viewport's (true division, which raises for a
      zero-width viewport). */
  function SizeAppropriatenessCheck(width: int, viewport: Viewport): (r: Outcome<ResponsiveCheck>)
    ensures r.Ok? ==> r.value.SizeAppropriateness?
    ensures r.Raised? <==> !(viewport.name == "mobile" && width < 44) && viewport.width == 0
  {
    if viewport.name == "mobile" && width < 44 then Ok(SizeAppropriateness(false, None))
    else if viewport.width == 0 then Raised(DivisionByZero)
    else
      var percentage := (width as real / viewport.width as real) * 100.0;
      Ok(SizeAppropriateness(!(percentage > 90.0), Some(percentage)))
  }

  /** On a viewport of positive width the rule is integral: the element
      passes exactly when it is not a small mobile target and ten times its
      width is at most nine times the viewport's. */
  lemma SizeAppropriatenessRule(width: int, viewport: Viewport)
    requires viewport.width > 0
    ensures var r := SizeAppropriatenessCheck(width, viewport);
            r.Ok? && (r.value.passed <==>
                      !(viewport.name == "mobile" && width < 44) && 10 * width <= 9 * viewport.width)
  {
    if !(viewport.name == "mobile" && width < 44) {
      var w, v := width as real, viewport.width as real;
      Arith.QuotientCompare(w, v, 0.9);
      assert (w / v) * 100.0 > 90.0 <==> w / v > 0.9;
    }
  }

  /** `_check_horizontal_scroll`: the page scrolls sideways when it is wider
      than the viewport. */
  function HorizontalScrollCheck(pageWidth: int, viewport: Viewport): (c: ResponsiveCheck)
    ensures c.HorizontalScroll? && c.pageWidth == pageWidth && c.viewportWidth == viewport.width
    ensures c.passed <==> pageWidth <= viewport.width
  {
    HorizontalScroll(!(pageWidth > viewport.width), pageWidth, viewport.width)
  }

  /** What the driver reports about one element: its box and whether it is displayed. */
  datatype ElementObservation = ElementObservation(bounds: Bounds, displayed: bool)

  /** The result of `_check_element_responsive` for one element. */
  datatype ElementResponsive = ElementResponsive(element: string, passed: bool, checks: seq<ResponsiveCheck>)

  predicate AllChecksPass(cs: seq<ResponsiveCheck>)
  {
    forall k :: 0 <= k < |cs| ==> cs[k].passed
  }

  /** `_check_element_responsive`: viewport fit (the right edge must not pass
      the viewport's width), visibility, then size appropriateness. A failed
      lookup gives one error check; a size check that raises leaves the two
      checks already appended and adds an error check. */
  function CheckElementResponsive(selector: string, lookup: Outcome<ElementObservation>, viewport: Viewport)
    : (r: ElementResponsive)
    ensures r.element == selector
    ensures r.passed <==> AllChecksPass(r.checks)
    ensures lookup.Raised? ==> r.checks == [ElementError(false, lookup.error)]
    ensures lookup.Ok? ==>
              var b := lookup.value.bounds;
              |r.checks| == 3
              && r.checks[0] == ViewportFit(b.x + b.width <= viewport.width, b.x + b.width, viewport.width)
              && r.checks[1] == Visibility(lookup.value.displayed)
              && (r.checks[2].ElementError? <==> SizeAppropriatenessCheck(b.width, viewport).Raised?)
  {
    match lookup
    case Raised(e) =>
      var checks := [ElementError(false, e)];
      assert !checks[0].passed;
      ElementResponsive(selector, false, checks)
    case Ok(o) =>
      var right := o.bounds.x + o.bounds.width;
      var fit := ViewportFit(!(right > viewport.width), right, viewport.width);
      var visible := Visibility(o.displayed);
      match SizeAppropriatenessCheck(o.bounds.width, viewport)
      case Ok(size) =>
        var checks := [fit, visible, size];
        assert checks[0] == fit && checks[1] == visible && checks[2] == size;
        ElementResponsive(selector, fit.passed && visible.passed && size.passed, checks)
      case Raised(e) =>
        var checks := [fit, visible, ElementError(false, e)];
        assert !checks[2].passed;
        ElementResponsive(selector, false, checks)
  }

  /** On a zero-width viewport a displayed element that is not a small mobile
      target still gets its fit and visibility checks, then fails with the
      division error. */
  lemma ZeroWidthViewportFails(selector: string, o: ElementObservation, name: string)
    requires !(name == "mobile" && o.bounds.width < 44)
    ensures var r := CheckElementResponsive(selector, Ok(o), Config.Viewport(name, 0, 800));
            !r.passed && r.checks[2] == ElementError(false, DivisionByZero)
  {
  }

  /** Widening a viewport (same name, positive width) never turns a passing
      element check or horizontal-scroll check into a failing one. */
  lemma WiderViewportKeepsPassing(selector: string, lookup: Outcome<ElementObservation>, pageWidth: int,
                                  narrow: Viewport, wide: Viewport)
    requires narrow.name == wide.name && 0 < narrow.width <= wide.width
    ensures CheckElementResponsive(selector, lookup, narrow).passed ==>
              CheckElementResponsive(selector, lookup, wide).passed
    ensures HorizontalScrollCheck(pageWidth, narrow).passed ==> HorizontalScrollCheck(pageWidth, wide).passed
  {
    if lookup.Ok? {
      var w := lookup.value.bounds.width;
      SizeAppropriatenessRule(w, narrow);
      SizeAppropriatenessRule(w, wide);
    }
  }

  /* ---------------- Breakpoints ---------------- */

  datatype Breakpoint = Breakpoint(name: string, minWidth: int, maxWidth: int)

  /** `BreakpointChecker`'s default breakpoints. */
  const DefaultBreakpoints: seq<Breakpoint> :=
    [Breakpoint("mobile", 0, 767), Breakpoint("tablet", 768, 1023), Breakpoint("desktop", 1024, 9999)]

  /** The default breakpoints cover the widths 0 to 9999 without gap or overlap. */
  lemma DefaultBreakpointsPartition(w: int)
    requires 0 <= w <= 9999
    ensures exists k :: 0 <= k < |DefaultBreakpoints| &&
              DefaultBreakpoints[k].minWidth <= w <= DefaultBreakpoints[k].maxWidth
    ensures forall k, m :: 0 <= k < m < |DefaultBreakpoints| ==>
              DefaultBreakpoints[k].maxWidth < DefaultBreakpoints[m].minWidth
  {
    if w <= 767 {
      assert DefaultBreakpoints[0].minWidth <= w <= DefaultBreakpoints[0].maxWidth;
    } else if w <= 1023 {
      assert DefaultBreakpoints[1].minWidth <= w <= DefaultBreakpoints[1].maxWidth;
    } else {
      assert DefaultBreakpoints[2].minWidth <= w <= DefaultBreakpoints[2].maxWidth;
    }
  }

  /** The width a breakpoint test sets: the floored midpoint of the range. */
  function TestWidth(b: Breakpoint): (w: int)
    ensures b.minWidth <= b.maxWidth ==> b.minWidth <= w <= b.maxWidth
    ensures 2 * w <= b.minWidth + b.maxWidth < 2 * w + 2
  {
    (b.minWidth + b.maxWidth) / 2
  }

  /** The height every breakpoint test sets. */
  const TestHeight := 800

  lemma DefaultTestWidths()
    ensures TestWidth(DefaultBreakpoints[0]) == 383
    ensures TestWidth(DefaultBreakpoints[1]) == 895
    ensures TestWidth(DefaultBreakpoints[2]) == 5511
  {
  }

  /** One element of a visibility test; a missing `expected_visible` means visible. */
  datatype VisibilitySpec = VisibilitySpec(selector: string, expectedVisible: Option<bool>)

  function ExpectedVisible(s: VisibilitySpec): bool
  {
    if s.expectedVisible.Some? then s.expectedVisible.value else true
  }

  /** The elements a visibility test checks when it names none: `nav`
      everywhere, `.mobile-menu` only at `mobile`, `.desktop-menu` everywhere
      but `mobile`. */
  function DefaultVisibilitySpecs(breakpointName: string): seq<VisibilitySpec>
  {
    [VisibilitySpec("nav", Some(true)),
     VisibilitySpec(".mobile-menu", Some(breakpointName == "mobile")),
     VisibilitySpec(".desktop-menu", Some(breakpointName != "mobile"))]
  }

  datatype TestType = VisibilityTest | LayoutTest | OtherTest(name: string)

  datatype BreakpointTest = BreakpointTest(
    name: string, breakpoint: Breakpoint, testType: TestType, elements: seq<VisibilitySpec>)

  datatype BreakpointCheck =
    | VisibilityCheck(selector: string, expected: bool, actual: Option<bool>, passed: bool)
    | LayoutPlaceholder(passed: bool)

  /** One element of `_test_breakpoint_visibility`: a found element passes when
      its visibility is the expected one; a lookup that raises passes exactly
      when the element was expected to be invisible. */
  function CheckVisibility(spec: VisibilitySpec, lookup: Outcome<bool>): (c: BreakpointCheck)
    ensures c.VisibilityCheck? && c.selector == spec.selector && c.expected == ExpectedVisible(spec)
    ensures c.passed <==> ExpectedVisible(spec) == (lookup.Ok? && lookup.value)
  {
    var expected := ExpectedVisible(spec);
    match lookup
    case Ok(actual) => VisibilityCheck(spec.selector, expected, Some(actual), actual == expected)
    case Raised(_) => VisibilityCheck(spec.selector, expected, None, !expected)
  }

  function SpecsOf(test: BreakpointTest): seq<VisibilitySpec>
  {
    if test.elements == [] then DefaultVisibilitySpecs(test.breakpoint.name) else test.elements
  }

  predicate AllBreakpointChecksPass(cs: seq<BreakpointCheck>)
  {
    forall k :: 0 <= k < |cs| ==> cs[k].passed
  }

  /** `_test_breakpoint_visibility`: one check per element, in order, each
      looked up on the page as rendered at the test width; `passed` only goes
      from true to false. */
  method TestBreakpointVisibility(test: BreakpointTest, page: (int, string) -> Outcome<bool>)
    returns (checks: seq<BreakpointCheck>, passed: bool)
    ensures var specs := SpecsOf(test);
            |checks| == |specs| &&
            forall k :: 0 <= k < |specs| ==>
              checks[k] == CheckVisibility(specs[k], page(TestWidth(test.breakpoint), specs[k].selector))
    ensures passed <==> AllBreakpointChecksPass(checks)
  {
    var specs := SpecsOf(test);
    var width := TestWidth(test.breakpoint);
    checks, passed := [], true;
    var i := 0;
    while i < |specs|
      invariant 0 <= i <= |specs|
      invariant |checks| == i
      invariant forall k :: 0 <= k < i ==> checks[k] == CheckVisibility(specs[k], page(width, specs[k].selector))
      invariant passed <==> AllBreakpointChecksPass(checks)
    {
      var c := CheckVisibility(specs[i], page(width, specs[i].selector));
      checks := checks + [c];
      if !c.passed {
        passed := false;
      }
      i := i + 1;
    }
  }

  /** The result of `_run_breakpoint_test`. */
  datatype BreakpointResult = BreakpointResult(
    test: string, breakpoint: string, width: int, passed: bool, checks: seq<BreakpointCheck>)

  /** What `_run_breakpoint_test` records for a test: visibility checks, the
      layout placeholder's one passing check, or no check for another type. */
  function BreakpointOutcome(test: BreakpointTest, page: (int, string) -> Outcome<bool>): (r: BreakpointResult)
    ensures r.test == test.name && r.breakpoint == test.breakpoint.name
    ensures r.width == TestWidth(test.breakpoint)
    ensures r.passed <==> AllBreakpointChecksPass(r.checks)
  {
    var width := TestWidth(test.breakpoint);
    var specs := SpecsOf(test);
    match test.testType
    case VisibilityTest =>
      var checks := seq(|specs|, k requires 0 <= k < |specs| =>
                          CheckVisibility(specs[k], page(width, specs[k].selector)));
      BreakpointResult(test.name, test.breakpoint.name, width, AllBreakpointChecksPass(checks), checks)
    case LayoutTest =>
      BreakpointResult(test.name, test.breakpoint.name, width, true, [LayoutPlaceholder(true)])
    case OtherTest(_) =>
      BreakpointResult(test.name, test.breakpoint.name, width, true, [])
  }

  /** `_run_breakpoint_test`. */
  method RunBreakpointTest(test: BreakpointTest, page: (int, string) -> Outcome<bool>)
    returns (r: BreakpointResult)
    ensures r == BreakpointOutcome(test, page)
  {
    var width := TestWidth(test.breakpoint);
    match test.testType {
      case VisibilityTest =>
        var checks, passed := TestBreakpointVisibility(test, page);
        r := BreakpointResult(test.name, test.breakpoint.name, width, passed, checks);
      case LayoutTest =>
        r := BreakpointResult(test.name, test.breakpoint.name, width, true, [LayoutPlaceholder(true)]);
      case OtherTest(_) =>
        r := BreakpointResult(test.name, test.breakpoint.name, width, true, []);
    }
  }

  /** `_create_default_breakpoint_tests`: one visibility test per breakpoint,
      in order, named `breakpoint_<name>`, with the default elements. */
  method DefaultBreakpointTests(breakpoints: seq<Breakpoint>) returns (tests: seq<BreakpointTest>)
    ensures |tests| == |breakpoints|
    ensures forall i :: 0 <= i < |breakpoints| ==>
              tests[i] == BreakpointTest("breakpoint_" + breakpoints[i].name, breakpoints[i], VisibilityTest, [])
  {
    tests := [];
    var i := 0;
    while i < |breakpoints|
      invariant 0 <= i <= |breakpoints|
      invariant |tests| == i
      invariant forall k :: 0 <= k < i ==>
                  tests[k] == BreakpointTest("breakpoint_" + breakpoints[k].name, breakpoints[k], VisibilityTest, [])
    {
      tests := tests + [BreakpointTest("breakpoint_" + breakpoints[i].name, breakpoints[i], VisibilityTest, [])];
      i := i + 1;
    }
  }

  function BreakpointPassed(r: BreakpointResult): bool { r.passed }

  /** `BreakpointChecker.verify`: the given tests, or the default ones when
      none are given, each run in order; PASS exactly when every test passed
      (so also when there is nothing to run), otherwise FAIL. */
  method BreakpointVerify(tests: seq<BreakpointTest>, breakpoints: seq<Breakpoint>,
                          page: (int, string) -> Outcome<bool>)
    returns (r: VerificationResult<seq<BreakpointResult>>)
    ensures r.checkName == "BreakpointChecker" && r.details.Some?
    ensures var run := if tests == [] then |breakpoints| else |tests|;
            |r.details.value| == run
    ensures tests != [] ==>
              forall i :: 0 <= i < |tests| ==> r.details.value[i] == BreakpointOutcome(tests[i], page)
    ensures tests == [] ==>
              forall i :: 0 <= i < |breakpoints| ==>
                r.details.value[i] == BreakpointOutcome(
                  BreakpointTest("breakpoint_" + breakpoints[i].name, breakpoints[i], VisibilityTest, []), page)
    ensures r.status == Pass <==> forall i :: 0 <= i < |r.details.value| ==> r.details.value[i].passed
    ensures r.status == Pass || r.status == Fail
    ensures r.message == CountMessage("Breakpoint tests: ", CountWhere(r.details.value, BreakpointPassed),
                                      |r.details.value|, " passed")
  {
    var run := tests;
    if tests == [] {
      run := DefaultBreakpointTests(breakpoints);
    }
    var entries: seq<BreakpointResult> := [];
    var i := 0;
    while i < |run|
      invariant 0 <= i <= |run|
      invariant |entries| == i
      invariant forall k :: 0 <= k < i ==> entries[k] == BreakpointOutcome(run[k], page)
    {
      var e := RunBreakpointTest(run[i], page);
      entries := entries + [e];
      i := i + 1;
    }
    r := Conclude("BreakpointChecker", "Breakpoint tests: ", " passed", entries, BreakpointPassed);
  }

  /** A page where `nav` and `.mobile-menu` are displayed and `.desktop-menu`
      is absent, at every width. */
  function MobilePage(width: int, selector: string): Outcome<bool>
  {
    if selector == ".desktop-menu" then Raised("no such element") else Ok(true)
  }

  /** That page passes the default mobile test: `nav` and `.mobile-menu` are
      shown, and the absent `.desktop-menu` was expected hidden. */
  lemma MobilePagePassesAtMobile()
    ensures BreakpointOutcome(BreakpointTest("breakpoint_mobile", DefaultBreakpoints[0], VisibilityTest, []),
                              MobilePage).passed
  {
    var test := BreakpointTest("breakpoint_mobile", DefaultBreakpoints[0], VisibilityTest, []);
    var specs := SpecsOf(test);
    assert specs == DefaultVisibilitySpecs("mobile");
    var r := BreakpointOutcome(test, MobilePage);
    assert |r.checks| == 3;
    forall k | 0 <= k < 3
      ensures r.checks[k].passed
    {
      assert r.checks[k] == CheckVisibility(specs[k], MobilePage(383, specs[k].selector));
    }
  }

  /** The same page fails the default desktop test, where `.mobile-menu` is
      expected hidden. */
  lemma MobilePageFailsAtDesktop()
    ensures !BreakpointOutcome(BreakpointTest("breakpoint_desktop", DefaultBreakpoints[2], VisibilityTest, []),
                               MobilePage).passed
  {
    var test := BreakpointTest("breakpoint_desktop", DefaultBreakpoints[2], VisibilityTest, []);
    var specs := SpecsOf(test);
    assert "desktop"[0] != "mobile"[0];
    assert specs == DefaultVisibilitySpecs("desktop");
    assert !ExpectedVisible(specs[1]);
    var r := BreakpointOutcome(test, MobilePage);
    assert r.checks[1] == CheckVisibility(specs[1], MobilePage(5511, specs[1].selector));
    assert !r.checks[1].passed;
  }
}
