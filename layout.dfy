/** The layout checkers: alignment of element boxes along one axis within an
    integer tolerance (horizontal, vertical and grid alignment), position and
    size checks against expected values, the right-of/below relations, and
    the `verify` loops of PositionChecker, SizeChecker and AlignmentChecker.
    Boxes are the observed `(x, y, width, height)` of the elements; a lookup
    that raised is given as `Raised`. */
module Layout {
  import opened Wrappers
  import opened Core

  // ---------------------------------------------------------------------------
  // One axis

  function Max(v: seq<int>): int
    requires |v| > 0
  {
    if |v| == 1 then v[0]
    else
      var rest := Max(v[1..]);
      if v[0] >= rest then v[0] else rest
  }

  function Min(v: seq<int>): int
    requires |v| > 0
  {
    if |v| == 1 then v[0]
    else
      var rest := Min(v[1..]);
      if v[0] <= rest then v[0] else rest
  }

  /** `max` and `min` bound every value and are values of the list. */
  lemma {:induction false} MaxMin(v: seq<int>)
    requires |v| > 0
    ensures forall i :: 0 <= i < |v| ==> Min(v) <= v[i] <= Max(v)
    ensures exists i :: 0 <= i < |v| && v[i] == Max(v)
    ensures exists i :: 0 <= i < |v| && v[i] == Min(v)
  {
    if |v| > 1 {
      MaxMin(v[1..]);
      assert forall i :: 1 <= i < |v| ==> v[i] == v[1..][i - 1];
      var j :| 0 <= j < |v[1..]| && v[1..][j] == Max(v[1..]);
      assert v[j + 1] == Max(v[1..]);
      var k :| 0 <= k < |v[1..]| && v[1..][k] == Min(v[1..]);
      assert v[k + 1] == Min(v[1..]);
    }
  }

  /** `len(set(values)) == 1` on a non-empty list. */
  predicate AllSame(values: seq<int>)
  {
    forall i, j :: 0 <= i < |values| && 0 <= j < |values| ==> values[i] == values[j]
  }

  /** The reading of an alignment rule: the values are all equal, or no two
      of them are further apart than the tolerance. */
  predicate WithinTolerance(values: seq<int>, tolerance: int)
  {
    AllSame(values)
    || forall i, j :: 0 <= i < |values| && 0 <= j < |values| ==> values[i] - values[j] <= tolerance
  }

  /** `spread` is the largest difference between two of the values, and some pair attains it. */
  predicate IsSpread(values: seq<int>, spread: int)
  {
    (forall i, j :: 0 <= i < |values| && 0 <= j < |values| ==> values[i] - values[j] <= spread)
    && (exists i, j :: 0 <= i < |values| && 0 <= j < |values| && values[i] - values[j] == spread)
  }

  datatype AlignKind = TopAlignment | LeftAlignment | CenterAlignment | InsufficientElements

  /** One entry of `result['checks']` of an alignment check. `spread` is the
      `max − min` that the message reports; it is absent when every value was
      equal (the "all aligned" message). Grid checks carry a row or column tag. */
  datatype AlignCheck = AlignCheck(
    kind: AlignKind, passed: bool, spread: Option<int>, row: Option<nat>, column: Option<nat>)

  /** One alignment rule over the values of one axis. */
  function AxisCheck(kind: AlignKind, values: seq<int>, tolerance: int): (c: AlignCheck)
    requires |values| > 0
    ensures c.kind == kind && c.row == None && c.column == None
  {
    var spread := Max(values) - Min(values);
    if spread == 0 then AlignCheck(kind, true, None, None, None)  // a single distinct value
    else AlignCheck(kind, spread <= tolerance, Some(spread), None, None)
  }

  /** An alignment rule passes exactly when the values are within the
      tolerance; its reported spread, present unless all values are equal,
      is the largest difference between two of them. */
  lemma AxisCheckRule(kind: AlignKind, values: seq<int>, tolerance: int)
    requires |values| > 0
    ensures AxisCheck(kind, values, tolerance).passed <==> WithinTolerance(values, tolerance)
    ensures AxisCheck(kind, values, tolerance).spread.None? <==> AllSame(values)
    ensures var s := AxisCheck(kind, values, tolerance).spread;
            s.Some? ==> IsSpread(values, s.value) && 0 < s.value
  {
    MaxMin(values);
    var i :| 0 <= i < |values| && values[i] == Max(values);
    var j :| 0 <= j < |values| && values[j] == Min(values);
    if !AllSame(values) {
      var p, q :| 0 <= p < |values| && 0 <= q < |values| && values[p] != values[q];
      assert 0 < Max(values) - Min(values);
      assert IsSpread(values, Max(values) - Min(values));
    }
  }

  function Tops(boxes: seq<Bounds>): (v: seq<int>)
    ensures |v| == |boxes| && forall i :: 0 <= i < |boxes| ==> v[i] == boxes[i].y
  {
    seq(|boxes|, i requires 0 <= i < |boxes| => boxes[i].y)
  }

  function Lefts(boxes: seq<Bounds>): (v: seq<int>)
    ensures |v| == |boxes| && forall i :: 0 <= i < |boxes| ==> v[i] == boxes[i].x
  {
    seq(|boxes|, i requires 0 <= i < |boxes| => boxes[i].x)
  }

  /** `y + height // 2`: Python's `//` floors, which for the divisor 2 is
      Dafny's `/`. */
  function MiddlesY(boxes: seq<Bounds>): (v: seq<int>)
    ensures |v| == |boxes| && forall i :: 0 <= i < |boxes| ==> v[i] == boxes[i].y + boxes[i].height / 2
  {
    seq(|boxes|, i requires 0 <= i < |boxes| => boxes[i].y + boxes[i].height / 2)
  }

  /** `x + width // 2` */
  function MiddlesX(boxes: seq<Bounds>): (v: seq<int>)
    ensures |v| == |boxes| && forall i :: 0 <= i < |boxes| ==> v[i] == boxes[i].x + boxes[i].width / 2
  {
    seq(|boxes|, i requires 0 <= i < |boxes| => boxes[i].x + boxes[i].width / 2)
  }

  /** `_check_horizontal_alignment`: the top rule and then, independently, the centre rule. */
  function HorizontalChecks(boxes: seq<Bounds>, tolerance: int): (cs: seq<AlignCheck>)
    requires |boxes| > 0
    ensures |cs| == 2 && cs[0].kind == TopAlignment && cs[1].kind == CenterAlignment
    ensures cs[0].row == None && cs[0].column == None && cs[1].row == None && cs[1].column == None
  {
    var top := AxisCheck(TopAlignment, Tops(boxes), tolerance);
    var middle := AxisCheck(CenterAlignment, MiddlesY(boxes), tolerance);
    [top, middle]
  }

  /** `_check_vertical_alignment`: the same two rules on `x` and `x + width // 2`. */
  function VerticalChecks(boxes: seq<Bounds>, tolerance: int): (cs: seq<AlignCheck>)
    requires |boxes| > 0
    ensures |cs| == 2 && cs[0].kind == LeftAlignment && cs[1].kind == CenterAlignment
    ensures cs[0].row == None && cs[0].column == None && cs[1].row == None && cs[1].column == None
  {
    var left := AxisCheck(LeftAlignment, Lefts(boxes), tolerance);
    var middle := AxisCheck(CenterAlignment, MiddlesX(boxes), tolerance);
    [left, middle]
  }

  /** Top alignment holds when the `y` values are within the tolerance,
      centre alignment when the `y + height // 2` values are. */
  lemma HorizontalRules(boxes: seq<Bounds>, tolerance: int)
    requires |boxes| > 0
    ensures HorizontalChecks(boxes, tolerance)[0].passed <==> WithinTolerance(Tops(boxes), tolerance)
    ensures HorizontalChecks(boxes, tolerance)[1].passed <==> WithinTolerance(MiddlesY(boxes), tolerance)
  {
    AxisCheckRule(TopAlignment, Tops(boxes), tolerance);
    AxisCheckRule(CenterAlignment, MiddlesY(boxes), tolerance);
  }

  /** Left alignment holds when the `x` values are within the tolerance,
      centre alignment when the `x + width // 2` values are. */
  lemma VerticalRules(boxes: seq<Bounds>, tolerance: int)
    requires |boxes| > 0
    ensures VerticalChecks(boxes, tolerance)[0].passed <==> WithinTolerance(Lefts(boxes), tolerance)
    ensures VerticalChecks(boxes, tolerance)[1].passed <==> WithinTolerance(MiddlesX(boxes), tolerance)
  {
    AxisCheckRule(LeftAlignment, Lefts(boxes), tolerance);
    AxisCheckRule(CenterAlignment, MiddlesX(boxes), tolerance);
  }

  /** The two rules are independent: boxes with equal tops and different
      heights pass the top rule and fail the centre rule. */
  lemma TopPassesCentreFails()
    ensures var cs := HorizontalChecks([Bounds(0, 0, 10, 10), Bounds(20, 0, 10, 30)], 5);
            cs[0].passed && !cs[1].passed && cs[1].spread == Some(10)
  {
    var boxes := [Bounds(0, 0, 10, 10), Bounds(20, 0, 10, 30)];
    assert Tops(boxes) == [0, 0];
    assert AllSame([0, 0]);
    assert MiddlesY(boxes) == [5, 15];
    assert !AllSame([5, 15]) by { assert [5, 15][0] != [5, 15][1]; }
    assert [5, 15][1..] == [15];
    assert Max([5, 15]) == 15;
    assert Min([5, 15]) == 5;
  }

  predicate AllPassed(cs: seq<AlignCheck>)
  {
    forall k :: 0 <= k < |cs| ==> cs[k].passed
  }

  lemma AllPassedConcat(a: seq<AlignCheck>, b: seq<AlignCheck>)
    ensures AllPassed(a + b) <==> AllPassed(a) && AllPassed(b)
  {
    var cs := a + b;
    assert forall k :: 0 <= k < |a| ==> cs[k] == a[k];
    assert forall k :: 0 <= k < |b| ==> cs[|a| + k] == b[k];
  }

  // ---------------------------------------------------------------------------
  // Grid alignment

  /** `bounds_list[i:i + columns]` for `i` in `range(0, len, columns)`. */
  function Rows(boxes: seq<Bounds>, columns: nat): (rows: seq<seq<Bounds>>)
    requires columns > 0
    ensures forall r :: 0 <= r < |rows| ==> 0 < |rows[r]| <= columns
    decreases |boxes|
  {
    if boxes == [] then []
    else if |boxes| <= columns then [boxes]
    else [boxes[..columns]] + Rows(boxes[columns..], columns)
  }

  function Flatten(rows: seq<seq<Bounds>>): seq<Bounds>
  {
    if rows == [] then [] else rows[0] + Flatten(rows[1..])
  }

  /** The rows put back together are the boxes, and every row but the last is full. */
  lemma {:induction false} RowsPartition(boxes: seq<Bounds>, columns: nat)
    requires columns > 0
    ensures Flatten(Rows(boxes, columns)) == boxes
    ensures forall r :: 0 <= r < |Rows(boxes, columns)| - 1 ==> |Rows(boxes, columns)[r]| == columns
    decreases |boxes|
  {
    if boxes != [] && |boxes| > columns {
      RowsPartition(boxes[columns..], columns);
      var rows := Rows(boxes, columns);
      assert rows[1..] == Rows(boxes[columns..], columns);
      assert boxes[..columns] + boxes[columns..] == boxes;
    }
  }

  /** `[row[col] for row in rows if col < len(row)]` */
  function ColumnOf(rows: seq<seq<Bounds>>, col: nat): seq<Bounds>
  {
    if rows == [] then []
    else (if col < |rows[0]| then [rows[0][col]] else []) + ColumnOf(rows[1..], col)
  }

  /** The boxes `j`, `j + columns`, `j + 2·columns`, … */
  function Stride(boxes: seq<Bounds>, j: nat, columns: nat): seq<Bounds>
    requires columns > 0
    decreases |boxes|
  {
    if |boxes| <= j then []
    else [boxes[j]] + (if |boxes| <= columns then [] else Stride(boxes[columns..], j, columns))
  }

  /** Column `j` of the grid holds every `columns`-th box starting at box `j`. */
  lemma {:induction false} ColumnIsStride(boxes: seq<Bounds>, j: nat, columns: nat)
    requires j < columns
    ensures ColumnOf(Rows(boxes, columns), j) == Stride(boxes, j, columns)
    decreases |boxes|
  {
    if boxes == [] {
    } else if |boxes| <= columns {
      assert Rows(boxes, columns) == [boxes];
      assert Rows(boxes, columns)[1..] == [];
    } else {
      var rows := Rows(boxes, columns);
      assert rows[1..] == Rows(boxes[columns..], columns);
      ColumnIsStride(boxes[columns..], j, columns);
    }
  }

  /** Grid checks run along rows (the horizontal rules) or along columns (the vertical rules). */
  datatype Axis = RowAxis | ColumnAxis

  /** The two rules for one row or column of the grid. */
  function GroupRules(axis: Axis, group: seq<Bounds>, tolerance: int): (cs: seq<AlignCheck>)
    requires |group| > 0
    ensures |cs| == 2
    ensures cs[0].row == None && cs[0].column == None && cs[1].row == None && cs[1].column == None
  {
    if axis == RowAxis then HorizontalChecks(group, tolerance) else VerticalChecks(group, tolerance)
  }

  /** `check_result['row'] = i` (or `['column'] = i`) on each check. */
  function Tag(cs: seq<AlignCheck>, axis: Axis, i: nat): (tagged: seq<AlignCheck>)
    ensures |tagged| == |cs|
    ensures forall k :: 0 <= k < |cs| ==>
              tagged[k] == if axis == RowAxis then cs[k].(row := Some(i)) else cs[k].(column := Some(i))
  {
    seq(|cs|, k requires 0 <= k < |cs| =>
      if axis == RowAxis then cs[k].(row := Some(i)) else cs[k].(column := Some(i)))
  }

  /** The tagged checks of the first `n` groups: every group of at least two
      boxes adds its two rules. */
  function GroupChecks(groups: seq<seq<Bounds>>, n: nat, axis: Axis, tolerance: int): seq<AlignCheck>
    requires n <= |groups|
  {
    if n == 0 then []
    else GroupChecks(groups, n - 1, axis, tolerance)
         + (if |groups[n - 1]| > 1 then Tag(GroupRules(axis, groups[n - 1], tolerance), axis, n - 1) else [])
  }

  /** The columns `0 .. columns - 1` of the grid. */
  function Columns(rows: seq<seq<Bounds>>, columns: nat): (cols: seq<seq<Bounds>>)
    ensures |cols| == columns && forall j :: 0 <= j < columns ==> cols[j] == ColumnOf(rows, j)
  {
    seq(columns, j requires 0 <= j < columns => ColumnOf(rows, j))
  }

  const ZeroDivision := "integer division or modulo by zero"

  /** The checks `_check_grid_alignment` adds: every row with at least two
      boxes, then every column index below `columns` with at least two boxes.
      `columns == 0` raises (the default for `rows` divides by it before
      anything else); a negative `columns` gives no rows and no columns. */
  function GridChecks(boxes: seq<Bounds>, columns: int, tolerance: int): Outcome<seq<AlignCheck>>
  {
    if columns == 0 then Raised(ZeroDivision)
    else if columns < 0 then Ok([])
    else
      var rows := Rows(boxes, columns);
      Ok(GroupChecks(rows, |rows|, RowAxis, tolerance)
         + GroupChecks(Columns(rows, columns), columns, ColumnAxis, tolerance))
  }

  /** The grouping loop of `_check_grid_alignment`: consecutive slices of
      `columns` boxes, the last one possibly shorter. */
  method GroupRows(boxes: seq<Bounds>, columns: nat) returns (rows: seq<seq<Bounds>>)
    requires columns > 0
    ensures rows == Rows(boxes, columns)
  {
    rows := [];
    var i := 0;
    while i < |boxes|
      invariant 0 <= i <= |boxes|
      invariant rows + Rows(boxes[i..], columns) == Rows(boxes, columns)
    {
      var end := if i + columns <= |boxes| then i + columns else |boxes|;
      var rest := boxes[i..];
      assert Rows(rest, columns) == [boxes[i..end]] + Rows(boxes[end..], columns) by {
        if |rest| <= columns {
          assert rest == boxes[i..end] && boxes[end..] == [];
        } else {
          assert rest[..columns] == boxes[i..end] && rest[columns..] == boxes[end..];
        }
      }
      rows := rows + [boxes[i..end]];
      i := end;
    }
    assert boxes[i..] == [];
  }

  /** The row loop (or the column loop) of `_check_grid_alignment`: every
      group of at least two boxes adds its two rules, tagged with the group's
      index, and clears `passed` when one of them fails. */
  method CheckGroups(groups: seq<seq<Bounds>>, axis: Axis, tolerance: int)
    returns (checks: seq<AlignCheck>, passed: bool)
    ensures checks == GroupChecks(groups, |groups|, axis, tolerance)
    ensures passed <==> AllPassed(checks)
  {
    checks, passed := [], true;
    var k := 0;
    while k < |groups|
      invariant 0 <= k <= |groups|
      invariant checks == GroupChecks(groups, k, axis, tolerance)
      invariant passed <==> AllPassed(checks)
    {
      if |groups[k]| > 1 {
        var tagged := Tag(GroupRules(axis, groups[k], tolerance), axis, k);
        AllPassedConcat(checks, tagged);
        assert AllPassed(tagged) <==> tagged[0].passed && tagged[1].passed;
        checks := checks + tagged;
        if !(tagged[0].passed && tagged[1].passed) {
          passed := false;
        }
      }
      assert checks == GroupChecks(groups, k + 1, axis, tolerance);
      k := k + 1;
    }
  }

  /** `_check_grid_alignment`: group the boxes into rows, then check every
      row and every column, tagging each check; nothing short-circuits. */
  method GridAlignment(boxes: seq<Bounds>, columns: int, tolerance: int)
    returns (r: Outcome<seq<AlignCheck>>, passed: bool)
    ensures r == GridChecks(boxes, columns, tolerance)
    ensures r.Ok? ==> (passed <==> AllPassed(r.value))
  {
    if columns == 0 {
      return Raised(ZeroDivision), false;
    }
    if columns < 0 {
      return Ok([]), true;
    }
    var rows := GroupRows(boxes, columns);
    var byRow, rowsPassed := CheckGroups(rows, RowAxis, tolerance);
    var byColumn, columnsPassed := CheckGroups(Columns(rows, columns), ColumnAxis, tolerance);
    AllPassedConcat(byRow, byColumn);
    r := Ok(byRow + byColumn);
    passed := rowsPassed && columnsPassed;
  }

  /** The check carries a tag below `n` on `axis` and none on the other axis. */
  predicate TaggedBelow(c: AlignCheck, axis: Axis, n: nat)
  {
    if axis == RowAxis then c.row.Some? && c.row.value < n && c.column == None
    else c.column.Some? && c.column.value < n && c.row == None
  }

  predicate AllTaggedBelow(cs: seq<AlignCheck>, axis: Axis, n: nat)
  {
    forall k :: 0 <= k < |cs| ==> TaggedBelow(cs[k], axis, n)
  }

  /** Every check of the first `n` groups carries the tag of its group. */
  lemma {:induction false} GroupChecksTagged(groups: seq<seq<Bounds>>, n: nat, axis: Axis, tolerance: int)
    requires n <= |groups|
    ensures AllTaggedBelow(GroupChecks(groups, n, axis, tolerance), axis, n)
  {
    if n > 0 {
      GroupChecksTagged(groups, n - 1, axis, tolerance);
      var prev := GroupChecks(groups, n - 1, axis, tolerance);
      var cs := GroupChecks(groups, n, axis, tolerance);
      if |groups[n - 1]| > 1 {
        var rules := GroupRules(axis, groups[n - 1], tolerance);
        assert cs == prev + Tag(rules, axis, n - 1);
        forall k | 0 <= k < |cs|
          ensures TaggedBelow(cs[k], axis, n)
        {
          if k < |prev| {
            assert cs[k] == prev[k];
            assert TaggedBelow(prev[k], axis, n - 1);
          } else {
            assert cs[k] == Tag(rules, axis, n - 1)[k - |prev|];
          }
        }
      } else {
        assert cs == prev;
        forall k | 0 <= k < |cs|
          ensures TaggedBelow(cs[k], axis, n)
        {
          assert TaggedBelow(prev[k], axis, n - 1);
        }
      }
    }
  }

  /** The number of groups with at least two boxes among the first `n`. */
  function MultiGroups(groups: seq<seq<Bounds>>, n: nat): nat
    requires n <= |groups|
  {
    if n == 0 then 0 else MultiGroups(groups, n - 1) + (if |groups[n - 1]| > 1 then 1 else 0)
  }

  /** Each group with at least two boxes contributes exactly two checks,
      whatever the earlier groups gave. */
  lemma {:induction false} GroupCheckCount(groups: seq<seq<Bounds>>, n: nat, axis: Axis, tolerance: int)
    requires n <= |groups|
    ensures |GroupChecks(groups, n, axis, tolerance)| == 2 * MultiGroups(groups, n)
  {
    if n > 0 {
      GroupCheckCount(groups, n - 1, axis, tolerance);
    }
  }

  /** Grid checks come row-tagged first, then column-tagged with a column
      below `columns`; there are two per row and two per column that hold at
      least two boxes. */
  lemma GridChecksTagged(boxes: seq<Bounds>, columns: int, tolerance: int)
    requires columns > 0
    ensures var rows := Rows(boxes, columns);
            var cs := GridChecks(boxes, columns, tolerance).value;
            var nr := 2 * MultiGroups(rows, |rows|);
            nr <= |cs|
            && AllTaggedBelow(cs[..nr], RowAxis, |rows|)
            && AllTaggedBelow(cs[nr..], ColumnAxis, columns)
            && |cs| == nr + 2 * MultiGroups(Columns(rows, columns), columns)
  {
    var rows := Rows(boxes, columns);
    var cols := Columns(rows, columns);
    var byRow := GroupChecks(rows, |rows|, RowAxis, tolerance);
    var byColumn := GroupChecks(cols, columns, ColumnAxis, tolerance);
    GroupChecksTagged(rows, |rows|, RowAxis, tolerance);
    GroupChecksTagged(cols, columns, ColumnAxis, tolerance);
    GroupCheckCount(rows, |rows|, RowAxis, tolerance);
    GroupCheckCount(cols, columns, ColumnAxis, tolerance);
    var cs := byRow + byColumn;
    assert cs[..|byRow|] == byRow && cs[|byRow|..] == byColumn;
  }

  /** Three boxes in two columns: row 0 holds boxes 0 and 1, row 1 only box
      2, column 0 boxes 0 and 2, column 1 only box 1 — so two row-0 checks
      and two column-0 checks. */
  lemma GridOfThree(a: Bounds, b: Bounds, c: Bounds, tolerance: int)
    ensures var cs := GridChecks([a, b, c], 2, tolerance).value;
            |cs| == 4 && cs[0].row == Some(0) && cs[1].row == Some(0)
            && cs[2].column == Some(0) && cs[3].column == Some(0)
  {
    var row0 := Tag(GroupRules(RowAxis, [a, b], tolerance), RowAxis, 0);
    var column0 := Tag(GroupRules(ColumnAxis, [a, c], tolerance), ColumnAxis, 0);
    ThreeInTwoColumnsChecks(a, b, c, tolerance);
    assert GridChecks([a, b, c], 2, tolerance) == Ok(row0 + column0);
    assert |row0| == 2 && |column0| == 2;
    assert row0[0].row == Some(0) && row0[1].row == Some(0);
    assert column0[0].column == Some(0) && column0[1].column == Some(0);
  }

  lemma ThreeInTwoColumnsChecks(a: Bounds, b: Bounds, c: Bounds, tolerance: int)
    ensures var rows := Rows([a, b, c], 2);
            GroupChecks(rows, |rows|, RowAxis, tolerance)
            == Tag(GroupRules(RowAxis, [a, b], tolerance), RowAxis, 0)
    ensures GroupChecks(Columns(Rows([a, b, c], 2), 2), 2, ColumnAxis, tolerance)
            == Tag(GroupRules(ColumnAxis, [a, c], tolerance), ColumnAxis, 0)
  {
    var rows := Rows([a, b, c], 2);
    var cols := Columns(rows, 2);
    ThreeInTwoColumns(a, b, c);
    var row0 := Tag(GroupRules(RowAxis, [a, b], tolerance), RowAxis, 0);
    assert GroupChecks(rows, 1, RowAxis, tolerance) == row0;
    var column0 := Tag(GroupRules(ColumnAxis, [a, c], tolerance), ColumnAxis, 0);
    assert GroupChecks(cols, 1, ColumnAxis, tolerance) == column0;
  }

  lemma ThreeInTwoColumns(a: Bounds, b: Bounds, c: Bounds)
    ensures Rows([a, b, c], 2) == [[a, b], [c]]
    ensures Columns(Rows([a, b, c], 2), 2) == [[a, c], [b]]
  {
    var boxes := [a, b, c];
    assert boxes[..2] == [a, b] && boxes[2..] == [c];
    assert Rows([c], 2) == [[c]];
    var rows := Rows(boxes, 2);
    assert rows[1..] == [[c]] && rows[1..][1..] == [];
    assert ColumnOf(rows[1..], 1) == [];
    assert ColumnOf(rows[1..], 0) == [c];
    assert ColumnOf(rows, 0) == [a, c];
    assert ColumnOf(rows, 1) == [b];
  }

  // ---------------------------------------------------------------------------
  // _check_alignment

  /** The `type` of an alignment check (default horizontal; grid's `columns`
      defaults to 2). Any other name is accepted and checks nothing. */
  datatype AlignmentType = Horizontal | Vertical | Grid(columns: int) | OtherType(name: string)

  datatype AlignmentResult = AlignmentResult(
    elements: seq<string>, alignmentType: AlignmentType, passed: bool, checks: seq<AlignCheck>)

  /** `_check_alignment` over the selectors of the check and the outcome of
      looking each of them up. */
  function CheckAlignment(elements: seq<string>, alignmentType: AlignmentType,
                          lookups: seq<Outcome<Bounds>>, tolerance: int)
    : (r: Outcome<AlignmentResult>)
    requires |lookups| == |elements|
    ensures |elements| < 2 ==>
              r == Ok(AlignmentResult(elements, alignmentType, false,
                                      [AlignCheck(InsufficientElements, false, None, None, None)]))
    ensures |elements| >= 2 && AllFound(lookups).Raised? ==> r == Raised(AllFound(lookups).error)
    ensures r.Ok? ==> r.value.elements == elements && (r.value.passed <==> AllPassed(r.value.checks))
    ensures |elements| >= 2 && alignmentType.OtherType? && AllFound(lookups).Ok? ==>
              r == Ok(AlignmentResult(elements, alignmentType, true, []))
    ensures |elements| >= 2 && alignmentType == Horizontal && AllFound(lookups).Ok? ==>
              r.Ok? && r.value.checks == HorizontalChecks(AllFound(lookups).value, tolerance)
    ensures |elements| >= 2 && alignmentType == Vertical && AllFound(lookups).Ok? ==>
              r.Ok? && r.value.checks == VerticalChecks(AllFound(lookups).value, tolerance)
    ensures |elements| >= 2 && alignmentType.Grid? && AllFound(lookups).Ok? ==>
              (r.Raised? <==> GridChecks(AllFound(lookups).value, alignmentType.columns, tolerance).Raised?)
              && (r.Ok? ==> r.value.checks == GridChecks(AllFound(lookups).value, alignmentType.columns, tolerance).value)
  {
    if |elements| < 2 then
      var cs := [AlignCheck(InsufficientElements, false, None, None, None)];
      assert !cs[0].passed;
      Ok(AlignmentResult(elements, alignmentType, false, cs))
    else
      var boxes :- AllFound(lookups);
      match alignmentType
      case Horizontal =>
        var cs := HorizontalChecks(boxes, tolerance);
        Ok(AlignmentResult(elements, alignmentType, AllPassed(cs), cs))
      case Vertical =>
        var cs := VerticalChecks(boxes, tolerance);
        Ok(AlignmentResult(elements, alignmentType, AllPassed(cs), cs))
      case Grid(columns) =>
        var cs :- GridChecks(boxes, columns, tolerance);
        Ok(AlignmentResult(elements, alignmentType, AllPassed(cs), cs))
      case OtherType(_) =>
        Ok(AlignmentResult(elements, alignmentType, true, []))
  }

  // ---------------------------------------------------------------------------
  // Position and size checks

  datatype CheckKind = XPosition | YPosition | ToRightOf | Below | Width | Height | MinWidth | MinHeight

  /** One entry of `result['checks']` of a position or size check. */
  datatype LayoutCheck =
    | Offset(kind: CheckKind, expected: int, actual: int, difference: int, tolerance: int, passed: bool)
    | Relation(kind: CheckKind, passed: bool)
    | Minimum(kind: CheckKind, expected: int, actual: int, passed: bool)

  /** An expected-value check: it fails exactly when the actual value is more
      than `tolerance` away from the expected one, and records `actual − expected`. */
  function OffsetCheck(kind: CheckKind, expected: int, actual: int, tolerance: int): (c: LayoutCheck)
    ensures c.Offset? && c.kind == kind && c.expected == expected && c.actual == actual
    ensures c.tolerance == tolerance && expected + c.difference == actual
    ensures !c.passed <==> actual - expected > tolerance || expected - actual > tolerance
  {
    var difference := actual - expected;
    var distance := if difference < 0 then -difference else difference;
    Offset(kind, expected, actual, difference, tolerance, !(distance > tolerance))
  }

  /** A minimum check: it fails exactly when the actual value is below the minimum. */
  function MinimumCheck(kind: CheckKind, minimum: int, actual: int): (c: LayoutCheck)
    ensures c.Minimum? && c.kind == kind && c.expected == minimum && c.actual == actual
    ensures !c.passed <==> actual < minimum
  {
    Minimum(kind, minimum, actual, !(actual < minimum))
  }

  /** `to_right_of`: the element starts strictly after the other one's right edge. */
  predicate IsRightOf(element: Bounds, other: Bounds)
  {
    !(element.x <= other.x + other.width)
  }

  /** `below`: the element starts strictly after the other one's bottom edge. */
  predicate IsBelow(element: Bounds, other: Bounds)
  {
    !(element.y <= other.y + other.height)
  }

  /** Boxes with non-negative widths cannot each be to the right of the
      other, and a box touching the other's right edge is not to its right. */
  lemma RightOfAsymmetric(a: Bounds, b: Bounds)
    requires a.width >= 0 && b.width >= 0
    ensures IsRightOf(a, b) ==> !IsRightOf(b, a)
    ensures a.x == b.x + b.width ==> !IsRightOf(a, b)
  {
  }

  /** The same for `below`, along the vertical axis. */
  lemma BelowAsymmetric(a: Bounds, b: Bounds)
    requires a.height >= 0 && b.height >= 0
    ensures IsBelow(a, b) ==> !IsBelow(b, a)
    ensures a.y == b.y + b.height ==> !IsBelow(a, b)
  {
  }

  datatype RelativeSpec = RelativeSpec(selector: string, toRightOf: bool, below: bool)

  /** `_check_relative_position`: the right-of check (if asked for), then the below check. */
  function RelativeChecks(element: Bounds, other: Bounds, spec: RelativeSpec): (cs: seq<LayoutCheck>)
    ensures |cs| == (if spec.toRightOf then 1 else 0) + (if spec.below then 1 else 0)
    ensures spec.toRightOf ==> cs[0] == Relation(ToRightOf, IsRightOf(element, other))
    ensures spec.below ==> cs[|cs| - 1] == Relation(Below, IsBelow(element, other))
  {
    (if spec.toRightOf then [Relation(ToRightOf, IsRightOf(element, other))] else [])
    + (if spec.below then [Relation(Below, IsBelow(element, other))] else [])
  }

  /** A position check; `tolerance` overrides the checker's for this check. */
  datatype PositionSpec = PositionSpec(
    selector: string, expectedX: Option<int>, expectedY: Option<int>,
    tolerance: Option<int>, relativeTo: Option<RelativeSpec>)

  /** What the browser gave for one position check: the element's box and,
      for a check with `relative_to`, the other element's box. */
  datatype PositionObservation = PositionObservation(element: Outcome<Bounds>, relative: Outcome<Bounds>)

  datatype ElementResult = ElementResult(element: string, bounds: Bounds, passed: bool, checks: seq<LayoutCheck>)

  predicate ChecksPassed(cs: seq<LayoutCheck>)
  {
    forall k :: 0 <= k < |cs| ==> cs[k].passed
  }

  function ToleranceFor(given: Option<int>, default: int): int
  {
    match given case Some(t) => t case None => default
  }

  function OptionalOffset(kind: CheckKind, expected: Option<int>, actual: int, tolerance: int): seq<LayoutCheck>
  {
    match expected
    case Some(e) => [OffsetCheck(kind, e, actual, tolerance)]
    case None => []
  }

  function OptionalMinimum(kind: CheckKind, minimum: Option<int>, actual: int): seq<LayoutCheck>
  {
    match minimum
    case Some(m) => [MinimumCheck(kind, m, actual)]
    case None => []
  }

  /** The kinds of a list of checks, in order. */
  function Kinds(cs: seq<LayoutCheck>): (ks: seq<CheckKind>)
    ensures |ks| == |cs| && forall k :: 0 <= k < |cs| ==> ks[k] == cs[k].kind
  {
    if cs == [] then [] else [cs[0].kind] + Kinds(cs[1..])
  }

  /** `[kind]` when the spec asks for that check, `[]` otherwise. */
  function When(kind: CheckKind, asked: bool): seq<CheckKind>
  {
    if asked then [kind] else []
  }

  /** `abs(actual - expected) <= tolerance` */
  predicate Within(actual: int, expected: int, tolerance: int)
  {
    -tolerance <= actual - expected <= tolerance
  }

  lemma {:induction false} KindsConcat(a: seq<LayoutCheck>, b: seq<LayoutCheck>)
    ensures Kinds(a + b) == Kinds(a) + Kinds(b)
  {
    if a != [] {
      assert (a + b)[1..] == a[1..] + b;
      KindsConcat(a[1..], b);
    }
  }

  lemma ChecksPassedConcat(a: seq<LayoutCheck>, b: seq<LayoutCheck>)
    ensures ChecksPassed(a + b) <==> ChecksPassed(a) && ChecksPassed(b)
  {
    if ChecksPassed(a + b) {
      forall k | 0 <= k < |a| ensures a[k].passed { assert (a + b)[k] == a[k]; }
      forall k | 0 <= k < |b| ensures b[k].passed { assert (a + b)[|a| + k] == b[k]; }
    }
  }

  lemma OffsetPiece(kind: CheckKind, expected: Option<int>, actual: int, tol: int)
    ensures Kinds(OptionalOffset(kind, expected, actual, tol)) == When(kind, expected.Some?)
    ensures ChecksPassed(OptionalOffset(kind, expected, actual, tol)) <==>
              (expected.Some? ==> Within(actual, expected.value, tol))
  {
  }

  lemma MinimumPiece(kind: CheckKind, minimum: Option<int>, actual: int)
    ensures Kinds(OptionalMinimum(kind, minimum, actual)) == When(kind, minimum.Some?)
    ensures ChecksPassed(OptionalMinimum(kind, minimum, actual)) <==>
              (minimum.Some? ==> actual >= minimum.value)
  {
  }

  /** A check of a position result compares the element's own coordinate
      with the spec's expected value, or relates it to the other element. */
  predicate PositionCheckFits(c: LayoutCheck, spec: PositionSpec, b: Bounds, other: Outcome<Bounds>, tol: int)
  {
    match c.kind
    case XPosition => spec.expectedX.Some? && c == OffsetCheck(XPosition, spec.expectedX.value, b.x, tol)
    case YPosition => spec.expectedY.Some? && c == OffsetCheck(YPosition, spec.expectedY.value, b.y, tol)
    case ToRightOf => other.Ok? && c == Relation(ToRightOf, IsRightOf(b, other.value))
    case Below => other.Ok? && c == Relation(Below, IsBelow(b, other.value))
    case _ => false
  }

  /** The kinds a position check produces, in order. */
  function PositionKinds(spec: PositionSpec): seq<CheckKind>
  {
    When(XPosition, spec.expectedX.Some?) + When(YPosition, spec.expectedY.Some?)
    + (match spec.relativeTo
       case Some(rel) => When(ToRightOf, rel.toRightOf) + When(Below, rel.below)
       case None => [])
  }

  predicate PositionChecksFit(cs: seq<LayoutCheck>, spec: PositionSpec, b: Bounds, other: Outcome<Bounds>, tol: int)
  {
    forall k :: 0 <= k < |cs| ==> PositionCheckFits(cs[k], spec, b, other, tol)
  }

  lemma PositionFitConcat(a: seq<LayoutCheck>, c: seq<LayoutCheck>, spec: PositionSpec, b: Bounds,
                          other: Outcome<Bounds>, tol: int)
    requires PositionChecksFit(a, spec, b, other, tol) && PositionChecksFit(c, spec, b, other, tol)
    ensures PositionChecksFit(a + c, spec, b, other, tol)
  {
    forall k | 0 <= k < |a + c| ensures PositionCheckFits((a + c)[k], spec, b, other, tol) {
      if k < |a| { assert (a + c)[k] == a[k]; } else { assert (a + c)[k] == c[k - |a|]; }
    }
  }

  /** The verdict of a position check, stated directly on the box. */
  predicate PositionHolds(spec: PositionSpec, b: Bounds, other: Outcome<Bounds>, tol: int)
  {
    (spec.expectedX.Some? ==> Within(b.x, spec.expectedX.value, tol))
    && (spec.expectedY.Some? ==> Within(b.y, spec.expectedY.value, tol))
    && (spec.relativeTo.Some? && spec.relativeTo.value.toRightOf ==> other.Ok? && IsRightOf(b, other.value))
    && (spec.relativeTo.Some? && spec.relativeTo.value.below ==> other.Ok? && IsBelow(b, other.value))
  }

  /** The x check then the y check of a position check. */
  function OwnChecks(spec: PositionSpec, b: Bounds, tol: int): seq<LayoutCheck>
  {
    OptionalOffset(XPosition, spec.expectedX, b.x, tol) + OptionalOffset(YPosition, spec.expectedY, b.y, tol)
  }

  /** The x and y checks: their kinds, their contents and their verdict. */
  lemma OwnPositionChecks(spec: PositionSpec, b: Bounds, other: Outcome<Bounds>, tol: int)
    ensures Kinds(OwnChecks(spec, b, tol)) == When(XPosition, spec.expectedX.Some?) + When(YPosition, spec.expectedY.Some?)
    ensures PositionChecksFit(OwnChecks(spec, b, tol), spec, b, other, tol)
    ensures ChecksPassed(OwnChecks(spec, b, tol)) <==>
              (spec.expectedX.Some? ==> Within(b.x, spec.expectedX.value, tol))
              && (spec.expectedY.Some? ==> Within(b.y, spec.expectedY.value, tol))
  {
    var x := OptionalOffset(XPosition, spec.expectedX, b.x, tol);
    var y := OptionalOffset(YPosition, spec.expectedY, b.y, tol);
    OffsetPiece(XPosition, spec.expectedX, b.x, tol);
    OffsetPiece(YPosition, spec.expectedY, b.y, tol);
    KindsConcat(x, y);
    ChecksPassedConcat(x, y);
    PositionFitConcat(x, y, spec, b, other, tol);
  }

  /** Without a relative element the x and y checks are all there is. */
  lemma NoRelativeChecks(spec: PositionSpec, b: Bounds, other: Outcome<Bounds>, tol: int)
    requires spec.relativeTo.None?
    ensures Kinds(OwnChecks(spec, b, tol)) == PositionKinds(spec)
    ensures PositionChecksFit(OwnChecks(spec, b, tol), spec, b, other, tol)
    ensures ChecksPassed(OwnChecks(spec, b, tol)) <==> PositionHolds(spec, b, other, tol)
  {
    OwnPositionChecks(spec, b, other, tol);
    assert PositionKinds(spec) == When(XPosition, spec.expectedX.Some?) + When(YPosition, spec.expectedY.Some?) + [];
  }

  lemma RelativePiece(spec: PositionSpec, b: Bounds, other: Outcome<Bounds>, tol: int)
    requires spec.relativeTo.Some? && other.Ok?
    ensures Kinds(RelativeChecks(b, other.value, spec.relativeTo.value))
            == When(ToRightOf, spec.relativeTo.value.toRightOf) + When(Below, spec.relativeTo.value.below)
    ensures PositionChecksFit(RelativeChecks(b, other.value, spec.relativeTo.value), spec, b, other, tol)
    ensures ChecksPassed(RelativeChecks(b, other.value, spec.relativeTo.value)) <==>
              (spec.relativeTo.value.toRightOf ==> IsRightOf(b, other.value))
              && (spec.relativeTo.value.below ==> IsBelow(b, other.value))
  {
  }

  /** With the relative checks appended. */
  lemma RelativePositionChecks(spec: PositionSpec, b: Bounds, other: Outcome<Bounds>, tol: int)
    requires spec.relativeTo.Some? && other.Ok?
    ensures Kinds(OwnChecks(spec, b, tol) + RelativeChecks(b, other.value, spec.relativeTo.value))
            == PositionKinds(spec)
    ensures PositionChecksFit(OwnChecks(spec, b, tol) + RelativeChecks(b, other.value, spec.relativeTo.value),
                              spec, b, other, tol)
    ensures ChecksPassed(OwnChecks(spec, b, tol) + RelativeChecks(b, other.value, spec.relativeTo.value))
            <==> PositionHolds(spec, b, other, tol)
  {
    var own := OwnChecks(spec, b, tol);
    var rel := RelativeChecks(b, other.value, spec.relativeTo.value);
    OwnPositionChecks(spec, b, other, tol);
    RelativePiece(spec, b, other, tol);
    KindsConcat(own, rel);
    ChecksPassedConcat(own, rel);
    PositionFitConcat(own, rel, spec, b, other, tol);
  }

  /** `_check_position`: the x check, the y check, then the relative checks;
      the element passes exactly when every check passed. A failed lookup of
      either element raises. */
  function CheckPosition(spec: PositionSpec, seen: PositionObservation, defaultTolerance: int)
    : (r: Outcome<ElementResult>)
    ensures seen.element.Raised? ==> r == Raised(seen.element.error)
    ensures seen.element.Ok? && spec.relativeTo.Some? && seen.relative.Raised? ==>
              r == Raised(seen.relative.error)
    ensures seen.element.Ok? && (spec.relativeTo.None? || seen.relative.Ok?) ==> r.Ok?
    ensures r.Ok? ==> r.value.element == spec.selector && r.value.bounds == seen.element.value
                      && (r.value.passed <==> ChecksPassed(r.value.checks))
    ensures r.Ok? ==> Kinds(r.value.checks) == PositionKinds(spec)
    ensures r.Ok? ==> PositionChecksFit(r.value.checks, spec, seen.element.value, seen.relative,
                                        ToleranceFor(spec.tolerance, defaultTolerance))
    ensures r.Ok? ==> (r.value.passed <==>
              PositionHolds(spec, seen.element.value, seen.relative, ToleranceFor(spec.tolerance, defaultTolerance)))
  {
    var b :- seen.element;
    var tol := ToleranceFor(spec.tolerance, defaultTolerance);
    var own := OwnChecks(spec, b, tol);
    match spec.relativeTo
    case None =>
      NoRelativeChecks(spec, b, seen.relative, tol);
      Ok(ElementResult(spec.selector, b, ChecksPassed(own), own))
    case Some(rel) =>
      var other :- seen.relative;
      var cs := own + RelativeChecks(b, other, rel);
      RelativePositionChecks(spec, b, seen.relative, tol);
      Ok(ElementResult(spec.selector, b, ChecksPassed(cs), cs))
  }

  /** A size check; `tolerance` overrides the checker's for this check. */
  datatype SizeSpec = SizeSpec(
    selector: string, expectedWidth: Option<int>, expectedHeight: Option<int>,
    minWidth: Option<int>, minHeight: Option<int>, tolerance: Option<int>)

  /** A check of a size result compares the element's width or height with
      the spec's expected value or minimum. */
  predicate SizeCheckFits(c: LayoutCheck, spec: SizeSpec, b: Bounds, tol: int)
  {
    match c.kind
    case Width => spec.expectedWidth.Some? && c == OffsetCheck(Width, spec.expectedWidth.value, b.width, tol)
    case Height => spec.expectedHeight.Some? && c == OffsetCheck(Height, spec.expectedHeight.value, b.height, tol)
    case MinWidth => spec.minWidth.Some? && c == MinimumCheck(MinWidth, spec.minWidth.value, b.width)
    case MinHeight => spec.minHeight.Some? && c == MinimumCheck(MinHeight, spec.minHeight.value, b.height)
    case _ => false
  }

  /** The kinds a size check produces, in order. */
  function SizeKinds(spec: SizeSpec): seq<CheckKind>
  {
    When(Width, spec.expectedWidth.Some?) + When(Height, spec.expectedHeight.Some?)
    + When(MinWidth, spec.minWidth.Some?) + When(MinHeight, spec.minHeight.Some?)
  }

  predicate SizeChecksFit(cs: seq<LayoutCheck>, spec: SizeSpec, b: Bounds, tol: int)
  {
    forall k :: 0 <= k < |cs| ==> SizeCheckFits(cs[k], spec, b, tol)
  }

  lemma SizeFitConcat(a: seq<LayoutCheck>, c: seq<LayoutCheck>, spec: SizeSpec, b: Bounds, tol: int)
    requires SizeChecksFit(a, spec, b, tol) && SizeChecksFit(c, spec, b, tol)
    ensures SizeChecksFit(a + c, spec, b, tol)
  {
    forall k | 0 <= k < |a + c| ensures SizeCheckFits((a + c)[k], spec, b, tol) {
      if k < |a| { assert (a + c)[k] == a[k]; } else { assert (a + c)[k] == c[k - |a|]; }
    }
  }

  /** The verdict of a size check, stated directly on the box. */
  predicate SizeHolds(spec: SizeSpec, b: Bounds, tol: int)
  {
    (spec.expectedWidth.Some? ==> Within(b.width, spec.expectedWidth.value, tol))
    && (spec.expectedHeight.Some? ==> Within(b.height, spec.expectedHeight.value, tol))
    && (spec.minWidth.Some? ==> b.width >= spec.minWidth.value)
    && (spec.minHeight.Some? ==> b.height >= spec.minHeight.value)
  }

  /** The size checks: their kinds, their contents and their verdict. */
  function SizeCheckList(spec: SizeSpec, b: Bounds, tol: int): seq<LayoutCheck>
  {
    OptionalOffset(Width, spec.expectedWidth, b.width, tol)
    + OptionalOffset(Height, spec.expectedHeight, b.height, tol)
    + OptionalMinimum(MinWidth, spec.minWidth, b.width)
    + OptionalMinimum(MinHeight, spec.minHeight, b.height)
  }

  lemma SizeKindsOf(spec: SizeSpec, b: Bounds, tol: int)
    ensures Kinds(SizeCheckList(spec, b, tol)) == SizeKinds(spec)
  {
    var w := OptionalOffset(Width, spec.expectedWidth, b.width, tol);
    var h := OptionalOffset(Height, spec.expectedHeight, b.height, tol);
    var mw := OptionalMinimum(MinWidth, spec.minWidth, b.width);
    var mh := OptionalMinimum(MinHeight, spec.minHeight, b.height);
    OffsetPiece(Width, spec.expectedWidth, b.width, tol);
    OffsetPiece(Height, spec.expectedHeight, b.height, tol);
    MinimumPiece(MinWidth, spec.minWidth, b.width);
    MinimumPiece(MinHeight, spec.minHeight, b.height);
    KindsConcat(w, h);
    KindsConcat(w + h, mw);
    KindsConcat(w + h + mw, mh);
  }

  lemma SizeFitOf(spec: SizeSpec, b: Bounds, tol: int)
    ensures SizeChecksFit(SizeCheckList(spec, b, tol), spec, b, tol)
  {
    var w := OptionalOffset(Width, spec.expectedWidth, b.width, tol);
    var h := OptionalOffset(Height, spec.expectedHeight, b.height, tol);
    var mw := OptionalMinimum(MinWidth, spec.minWidth, b.width);
    var mh := OptionalMinimum(MinHeight, spec.minHeight, b.height);
    assert SizeChecksFit(w, spec, b, tol) && SizeChecksFit(h, spec, b, tol);
    assert SizeChecksFit(mw, spec, b, tol) && SizeChecksFit(mh, spec, b, tol);
    SizeFitConcat(w, h, spec, b, tol);
    SizeFitConcat(w + h, mw, spec, b, tol);
    SizeFitConcat(w + h + mw, mh, spec, b, tol);
  }

  lemma SizePassedOf(spec: SizeSpec, b: Bounds, tol: int)
    ensures ChecksPassed(SizeCheckList(spec, b, tol)) <==> SizeHolds(spec, b, tol)
  {
    var w := OptionalOffset(Width, spec.expectedWidth, b.width, tol);
    var h := OptionalOffset(Height, spec.expectedHeight, b.height, tol);
    var mw := OptionalMinimum(MinWidth, spec.minWidth, b.width);
    var mh := OptionalMinimum(MinHeight, spec.minHeight, b.height);
    OffsetPiece(Width, spec.expectedWidth, b.width, tol);
    OffsetPiece(Height, spec.expectedHeight, b.height, tol);
    MinimumPiece(MinWidth, spec.minWidth, b.width);
    MinimumPiece(MinHeight, spec.minHeight, b.height);
    ChecksPassedConcat(w, h);
    ChecksPassedConcat(w + h, mw);
    ChecksPassedConcat(w + h + mw, mh);
  }

  /** `_check_size`: width, height, minimum width, minimum height, each only
      when asked for; the element passes exactly when every check passed. */
  function CheckSize(spec: SizeSpec, element: Outcome<Bounds>, defaultTolerance: int)
    : (r: Outcome<ElementResult>)
    ensures element.Raised? <==> r.Raised?
    ensures r.Ok? ==> r.value.element == spec.selector && r.value.bounds == element.value
                      && (r.value.passed <==> ChecksPassed(r.value.checks))
    ensures r.Ok? ==> Kinds(r.value.checks) == SizeKinds(spec)
    ensures r.Ok? ==> SizeChecksFit(r.value.checks, spec, element.value, ToleranceFor(spec.tolerance, defaultTolerance))
    ensures r.Ok? ==> (r.value.passed <==>
              SizeHolds(spec, element.value, ToleranceFor(spec.tolerance, defaultTolerance)))
  {
    var b :- element;
    var tol := ToleranceFor(spec.tolerance, defaultTolerance);
    var cs := SizeCheckList(spec, b, tol);
    SizeKindsOf(spec, b, tol);
    SizeFitOf(spec, b, tol);
    SizePassedOf(spec, b, tol);
    Ok(ElementResult(spec.selector, b, ChecksPassed(cs), cs))
  }

  // ---------------------------------------------------------------------------
  // The three checkers' verify loops

  predicate ElementEntryPassed(e: Entry<string, ElementResult>)
  {
    e.Checked? && e.result.passed
  }

  predicate AlignmentEntryPassed(e: Entry<seq<string>, AlignmentResult>)
  {
    e.Checked? && e.result.passed
  }

  /** One position check's entry, keyed by its selector. */
  function PositionEntry(c: (PositionSpec, PositionObservation), tolerance: int): Entry<string, ElementResult>
  {
    EntryOf(c.0.selector, CheckPosition(c.0, c.1, tolerance))
  }

  /** `PositionChecker.verify` */
  method PositionVerify(checks: seq<(PositionSpec, PositionObservation)>, tolerance: int)
    returns (r: VerificationResult<seq<Entry<string, ElementResult>>>)
    ensures checks == [] ==>
              r == VerificationResult("PositionChecker", Warning, "No position checks specified", None, None)
    ensures checks != [] ==>
              r.checkName == "PositionChecker" && r.durationMs == None && r.details.Some?
              && |r.details.value| == |checks|
              && (forall i :: 0 <= i < |checks| ==> r.details.value[i] == PositionEntry(checks[i], tolerance))
              && r.message == CountMessage("Position checks: ", CountWhere(r.details.value, ElementEntryPassed),
                                           |checks|, " passed")
    ensures checks != [] ==>
              (r.status == Pass <==>
                 forall i :: 0 <= i < |checks| ==>
                   var o := CheckPosition(checks[i].0, checks[i].1, tolerance);
                   o.Ok? && o.value.passed)
    ensures checks != [] ==> r.status == Pass || r.status == Fail
  {
    r := VerifyEach("PositionChecker", "No position checks specified", "Position checks: ", " passed",
                    checks, (c: (PositionSpec, PositionObservation)) => PositionEntry(c, tolerance),
                    ElementEntryPassed);
  }

  /** One size check's entry, keyed by its selector. */
  function SizeEntry(c: (SizeSpec, Outcome<Bounds>), tolerance: int): Entry<string, ElementResult>
  {
    EntryOf(c.0.selector, CheckSize(c.0, c.1, tolerance))
  }

  /** `SizeChecker.verify` */
  method SizeVerify(checks: seq<(SizeSpec, Outcome<Bounds>)>, tolerance: int)
    returns (r: VerificationResult<seq<Entry<string, ElementResult>>>)
    ensures checks == [] ==>
              r == VerificationResult("SizeChecker", Warning, "No size checks specified", None, None)
    ensures checks != [] ==>
              r.checkName == "SizeChecker" && r.durationMs == None && r.details.Some?
              && |r.details.value| == |checks|
              && (forall i :: 0 <= i < |checks| ==> r.details.value[i] == SizeEntry(checks[i], tolerance))
              && r.message == CountMessage("Size checks: ", CountWhere(r.details.value, ElementEntryPassed),
                                           |checks|, " passed")
    ensures checks != [] ==>
              (r.status == Pass <==>
                 forall i :: 0 <= i < |checks| ==>
                   var o := CheckSize(checks[i].0, checks[i].1, tolerance);
                   o.Ok? && o.value.passed)
    ensures checks != [] ==> r.status == Pass || r.status == Fail
  {
    r := VerifyEach("SizeChecker", "No size checks specified", "Size checks: ", " passed",
                    checks, (c: (SizeSpec, Outcome<Bounds>)) => SizeEntry(c, tolerance),
                    ElementEntryPassed);
  }

  /** One alignment check: the selectors, the type, and the lookup of each selector. */
  datatype AlignmentRequest = AlignmentRequest(
    elements: seq<string>, alignmentType: AlignmentType, lookups: seq<Outcome<Bounds>>)

  /** A request with one lookup per selector, as the browser gives it. */
  type AlignmentInput = c: AlignmentRequest | |c.lookups| == |c.elements|
    witness AlignmentRequest([], Horizontal, [])

  function AlignmentEntry(c: AlignmentInput, tolerance: int): Entry<seq<string>, AlignmentResult>
  {
    EntryOf(c.elements, CheckAlignment(c.elements, c.alignmentType, c.lookups, tolerance))
  }

  /** `AlignmentChecker.verify` */
  method AlignmentVerify(checks: seq<AlignmentInput>, tolerance: int)
    returns (r: VerificationResult<seq<Entry<seq<string>, AlignmentResult>>>)
    ensures checks == [] ==>
              r == VerificationResult("AlignmentChecker", Warning, "No alignment checks specified", None, None)
    ensures checks != [] ==>
              r.checkName == "AlignmentChecker" && r.durationMs == None && r.details.Some?
              && |r.details.value| == |checks|
              && (forall i :: 0 <= i < |checks| ==> r.details.value[i] == AlignmentEntry(checks[i], tolerance))
              && r.message == CountMessage("Alignment checks: ", CountWhere(r.details.value, AlignmentEntryPassed),
                                           |checks|, " passed")
    ensures checks != [] ==>
              (r.status == Pass <==>
                 forall i :: 0 <= i < |checks| ==>
                   var o := CheckAlignment(checks[i].elements, checks[i].alignmentType, checks[i].lookups, tolerance);
                   o.Ok? && o.value.passed)
    ensures checks != [] ==> r.status == Pass || r.status == Fail
  {
    r := VerifyEach("AlignmentChecker", "No alignment checks specified", "Alignment checks: ", " passed",
                    checks, (c: AlignmentInput) => AlignmentEntry(c, tolerance), AlignmentEntryPassed);
  }

  /** A check of fewer than two elements fails whatever the type, so an
      alignment checker given one fails. */
  lemma SingleElementFails(c: AlignmentInput, tolerance: int)
    requires |c.elements| < 2
    ensures !AlignmentEntryPassed(AlignmentEntry(c, tolerance))
  {
  }
}
