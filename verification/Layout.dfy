/**
 The one layout truth: how the buffer wraps into rows, where the cursor lands, and
 which window of rows is shown.
 */
module Layouts {
  import opened Prelude
  import opened EditorText
  import opened Composers

  const GUTTER_WIDTH: nat := 2

  /** One wrapped row: a slice of one line. */
  datatype Row = Row(line: nat, start: nat, end: nat)

  datatype Layout = Layout(rows: seq<Row>, cursorX: nat, cursorY: nat)

  function Available(width: nat): (r: nat)
    ensures r >= 1 && (width > GUTTER_WIDTH ==> GUTTER_WIDTH + r == width)
  {
    if width >= GUTTER_WIDTH + 1 then width - GUTTER_WIDTH else 1
  }

  /** Whether the unit moves to the next row: it does not fit and the row has width. */
  predicate Wraps(x: nat, width: nat, available: nat) {
    x + width > available && x > 0
  }

  /** The rows of a line from unit `i` on, with a row of width `x` open since `start`. */
  function LineRows(line: Line, index: nat, available: nat, start: nat, i: nat, x: nat): seq<Row>
    requires start <= i <= |line|
    decreases |line| - i
  {
    if i == |line| then [Row(index, start, |line|)]
    else if Wraps(x, line[i].width, available)
    then [Row(index, start, i)] + LineRows(line, index, available, i, i + 1, line[i].width)
    else LineRows(line, index, available, start, i + 1, x + line[i].width)
  }

  /** The cursor's column and row, the row counted from the open one. */
  function LineCursor(line: Line, available: nat, i: nat, x: nat, column: nat): (nat, nat)
    requires i <= column <= |line|
    decreases |line| - i
  {
    if i == |line| then (if x == available then (0, 1) else (x, 0))
    else
      var wraps := Wraps(x, line[i].width, available);
      if i == column then (if wraps then (0, 1) else (x, 0))
      else
        var (cx, cy) := LineCursor(line, available, i + 1, if wraps then line[i].width else x + line[i].width, column);
        (cx, if wraps then cy + 1 else cy)
  }

  /** The rows of the first `n` lines. */
  function AllRows(lines: seq<Line>, available: nat, n: nat): seq<Row>
    requires n <= |lines|
  {
    if n == 0 then [] else AllRows(lines, available, n - 1) + LineRows(lines[n - 1], n - 1, available, 0, 0, 0)
  }

  function LayoutOf(lines: seq<Line>, cursor: Pos, width: nat): Layout
    requires ValidPos(lines, cursor)
  {
    var available := Available(width);
    var (x, y) := LineCursor(lines[cursor.line], available, 0, 0, cursor.column);
    Layout(AllRows(lines, available, |lines|), x, |AllRows(lines, available, cursor.line)| + y)
  }

  /** The wrapped rows, plus one for a cursor resting after a full last row. */
  function RowCount(l: Layout): nat {
    if l.cursorY + 1 > |l.rows| then l.cursorY + 1 else |l.rows|
  }

  // ------------------------------------------------------------------ computing it

  lemma {:induction false} NextRows(lines: seq<Line>, available: nat, n: nat)
    requires n < |lines|
    ensures AllRows(lines, available, n + 1) == AllRows(lines, available, n) + LineRows(lines[n], n, available, 0, 0, 0)
  {
  }

  method ComputeLayout(lines: seq<Line>, cursor: Pos, width: nat) returns (l: Layout)
    requires ValidPos(lines, cursor)
    ensures l == LayoutOf(lines, cursor, width)
  {
    hide LineRows, LineCursor, Wraps;
    var available := Available(width);
    var rows: seq<Row> := [];
    var cursorX: nat, cursorY: nat := 0, 0;
    ghost var goal := LayoutOf(lines, cursor, width);
    var index := 0;
    while index < |lines|
      invariant 0 <= index <= |lines|
      invariant rows == AllRows(lines, available, index)
      invariant index > cursor.line ==> (cursorX, cursorY) == (goal.cursorX, goal.cursorY)
    {
      NextRows(lines, available, index);
      var more, x, y := WrapLine(lines[index], index, available, if index == cursor.line then Some(cursor.column) else None);
      if index == cursor.line { cursorX, cursorY := x, |rows| + y; }
      rows := rows + more;
      index := index + 1;
    }
    l := Layout(rows, cursorX, cursorY);
  }

  /** One line: its rows, and the cursor's place among them when it is here. */
  method WrapLine(line: Line, index: nat, available: nat, column: Option<nat>) returns (rows: seq<Row>, cursorX: nat, cursorY: nat)
    requires column.Some? ==> column.value <= |line|
    ensures rows == LineRows(line, index, available, 0, 0, 0)
    ensures column.Some? ==> (cursorX, cursorY) == LineCursor(line, available, 0, 0, column.value)
  {
    rows, cursorX, cursorY := [], 0, 0;
    var start, x, i, placed := 0, 0, 0, false;
    while i < |line|
      invariant start <= i <= |line|
      invariant rows + LineRows(line, index, available, start, i, x) == LineRows(line, index, available, 0, 0, 0)
      invariant placed ==> column.Some? && (cursorX, cursorY) == LineCursor(line, available, 0, 0, column.value)
      invariant column.Some? && !placed ==> i <= column.value && Shifted(line, available, i, x, column.value, |rows|)
      invariant placed ==> column.Some? && column.value < |line|
    {
      var w := line[i].width;
      if Wraps(x, w, available) {
        rows := rows + [Row(index, start, i)];
        start, x := i, 0;
      }
      if column == Some(i) && !placed {
        cursorX, cursorY, placed := x, |rows|, true;
      }
      x := x + w;
      i := i + 1;
    }
    rows := rows + [Row(index, start, |line|)];
    if column == Some(|line|) && !placed {
      if x == available {
        cursorX, cursorY := 0, |rows|;
      } else {
        cursorX, cursorY := x, |rows| - 1;
      }
    }
  }

  /** The cursor's place, seen from an open row with `done` rows above it. */
  predicate Shifted(line: Line, available: nat, i: nat, x: nat, column: nat, done: nat)
    requires i <= column <= |line|
  {
    var whole := LineCursor(line, available, 0, 0, column);
    var part := LineCursor(line, available, i, x, column);
    whole.0 == part.0 && whole.1 == part.1 + done
  }

  // ------------------------------------------------------------------------ the laws

  function SliceWidth(line: Line, a: nat, b: nat): nat
    requires a <= b <= |line|
  {
    LineWidth(line[a..b])
  }

  lemma {:induction false} SliceSnoc(line: Line, a: nat, b: nat)
    requires a <= b < |line|
    ensures SliceWidth(line, a, b + 1) == SliceWidth(line, a, b) + line[b].width
  {
    assert line[a..b + 1][..b - a] == line[a..b];
  }

  /** The rows cover the line in order, each but the last non-empty. */
  predicate Tiles(rows: seq<Row>, index: nat, start: nat, length: nat) {
    && rows != [] && rows[0].start == start && rows[|rows| - 1].end == length
    && (forall k :: 0 <= k < |rows| ==> rows[k].line == index && rows[k].start <= rows[k].end <= length)
    && (forall k :: 0 <= k < |rows| - 1 ==> rows[k].start < rows[k].end)
    && (forall k :: 1 <= k < |rows| ==> rows[k - 1].end == rows[k].start)
  }

  /** A row ends only where the next unit would not have fit. */
  predicate Greedy(line: Line, available: nat, rows: seq<Row>) {
    forall k :: 0 <= k < |rows| - 1 ==>
      rows[k].start <= rows[k].end < |line|
      && SliceWidth(line, rows[k].start, rows[k].end) + line[rows[k].end].width > available
  }

  predicate Within(line: Line, available: nat, rows: seq<Row>) {
    forall k :: 0 <= k < |rows| ==>
      rows[k].start <= rows[k].end <= |line| && SliceWidth(line, rows[k].start, rows[k].end) <= available
  }

  predicate UnitsFit(line: Line, available: nat) {
    forall i :: 0 <= i < |line| ==> line[i].width <= available
  }

  lemma {:induction false} TilesCons(first: Row, rest: seq<Row>, index: nat, length: nat)
    requires first.line == index && first.start < first.end <= length && Tiles(rest, index, first.end, length)
    ensures Tiles([first] + rest, index, first.start, length)
  {
  }

  lemma {:induction false} GreedyCons(line: Line, available: nat, first: Row, rest: seq<Row>)
    requires first.start <= first.end < |line| && SliceWidth(line, first.start, first.end) + line[first.end].width > available
    requires Greedy(line, available, rest)
    ensures Greedy(line, available, [first] + rest)
  {
    hide SliceWidth;
    var rows := [first] + rest;
    assert forall k :: 1 <= k < |rows| ==> rows[k] == rest[k - 1];
  }

  lemma {:induction false} WithinCons(line: Line, available: nat, first: Row, rest: seq<Row>)
    requires first.start <= first.end <= |line| && SliceWidth(line, first.start, first.end) <= available
    requires Within(line, available, rest)
    ensures Within(line, available, [first] + rest)
  {
    hide SliceWidth;
    var rows := [first] + rest;
    assert forall k :: 1 <= k < |rows| ==> rows[k] == rest[k - 1];
  }

  lemma {:induction false} LastRow(line: Line, index: nat, available: nat, start: nat)
    requires start <= |line|
    ensures Tiles([Row(index, start, |line|)], index, start, |line|) && Greedy(line, available, [Row(index, start, |line|)])
    ensures SliceWidth(line, start, |line|) <= available ==> Within(line, available, [Row(index, start, |line|)])
  {
  }

  lemma {:induction false} EmptySlice(line: Line, i: nat)
    requires i <= |line|
    ensures SliceWidth(line, i, i) == 0
  {
    assert line[i..i] == [];
  }

  lemma {:induction false} LineRowsNext(line: Line, index: nat, available: nat, start: nat, i: nat, x: nat)
    requires start <= i <= |line|
    ensures LineRows(line, index, available, start, i, x)
         == if i == |line| then [Row(index, start, |line|)]
            else if Wraps(x, line[i].width, available)
            then [Row(index, start, i)] + LineRows(line, index, available, i, i + 1, line[i].width)
            else LineRows(line, index, available, start, i + 1, x + line[i].width)
  {
  }

  lemma {:induction false} RowsLaws(line: Line, index: nat, available: nat, start: nat, i: nat, x: nat)
    requires start <= i <= |line| && x == SliceWidth(line, start, i)
    ensures Tiles(LineRows(line, index, available, start, i, x), index, start, |line|)
    ensures Greedy(line, available, LineRows(line, index, available, start, i, x))
    ensures UnitsFit(line, available) && x <= available ==> Within(line, available, LineRows(line, index, available, start, i, x))
    ensures LineRows(line, index, available, start, i, x) != [] && LineRows(line, index, available, start, i, x)[0].end >= i
    decreases |line| - i
  {
    hide Tiles, Greedy, Within, SliceWidth, LineRows;
    LineRowsNext(line, index, available, start, i, x);
    if i == |line| {
      LastRow(line, index, available, start);
    } else {
      var w := line[i].width;
      SliceSnoc(line, start, i);
      EmptySlice(line, i);
      if Wraps(x, w, available) {
        assert start < i;
        SliceSnoc(line, i, i);
        RowsLaws(line, index, available, i, i + 1, w);
        var first, rest := Row(index, start, i), LineRows(line, index, available, i, i + 1, w);
        TilesCons(first, rest, index, |line|);
        GreedyCons(line, available, first, rest);
        if UnitsFit(line, available) && x <= available { WithinCons(line, available, first, rest); }
      } else {
        RowsLaws(line, index, available, start, i + 1, x + w);
      }
    }
  }

  /** The cursor is at the width of what precedes it in its row; after an exactly
      full last row it is at column zero of the row below. */
  predicate Lands(line: Line, available: nat, rows: seq<Row>, column: nat, x: nat, y: nat) {
    if y < |rows| then
      && rows[y].start <= column <= rows[y].end && rows[y].end <= |line|
      && (column == rows[y].end ==> y == |rows| - 1)
      && x == SliceWidth(line, rows[y].start, column)
    else
      && y == |rows| && rows != [] && x == 0 && column == |line|
      && rows[y - 1].start <= |line| && SliceWidth(line, rows[y - 1].start, |line|) == available
  }

  lemma {:induction false} LandsFirst(line: Line, available: nat, rows: seq<Row>, column: nat)
    requires rows != [] && rows[0].start <= column < rows[0].end <= |line|
    ensures Lands(line, available, rows, column, SliceWidth(line, rows[0].start, column), 0)
  {
  }

  lemma {:induction false} LandsBelow(line: Line, available: nat, first: Row, rest: seq<Row>, column: nat, x: nat, y: nat)
    requires Lands(line, available, rest, column, x, y)
    ensures Lands(line, available, [first] + rest, column, x, y + 1)
  {
    hide SliceWidth;
    var rows := [first] + rest;
    assert y < |rest| ==> rows[y + 1] == rest[y];
    assert y == |rest| && y > 0 ==> rows[y] == rest[y - 1];
  }

  lemma {:induction false} LineCursorNext(line: Line, available: nat, i: nat, x: nat, column: nat)
    requires i <= column <= |line|
    ensures LineCursor(line, available, i, x, column) ==
              if i == |line| then (if x == available then (0, 1) else (x, 0))
              else
                var wraps := Wraps(x, line[i].width, available);
                if i == column then (if wraps then (0, 1) else (x, 0))
                else
                  var (cx, cy) := LineCursor(line, available, i + 1, if wraps then line[i].width else x + line[i].width, column);
                  (cx, if wraps then cy + 1 else cy)
  {
  }

  lemma {:induction false} LandsLast(line: Line, index: nat, available: nat, start: nat, x: nat)
    requires start <= |line| && x == SliceWidth(line, start, |line|)
    ensures Lands(line, available, [Row(index, start, |line|)], |line|, if x == available then 0 else x, if x == available then 1 else 0)
  {
  }

  lemma {:induction false} CursorLands(line: Line, index: nat, available: nat, start: nat, i: nat, x: nat, column: nat)
    requires start <= i <= column <= |line| && x == SliceWidth(line, start, i)
    ensures var (cx, cy) := LineCursor(line, available, i, x, column);
            Lands(line, available, LineRows(line, index, available, start, i, x), column, cx, cy)
    decreases |line| - i
  {
    hide Tiles, Greedy, Within, SliceWidth, Lands, LineRows, LineCursor;
    LineRowsNext(line, index, available, start, i, x);
    LineCursorNext(line, available, i, x, column);
    if i == |line| {
      LandsLast(line, index, available, start, x);
    } else {
      var w := line[i].width;
      SliceSnoc(line, start, i);
      EmptySlice(line, i);
      if Wraps(x, w, available) {
        SliceSnoc(line, i, i);
        var first, rest := Row(index, start, i), LineRows(line, index, available, i, i + 1, w);
        if i < column {
          CursorLands(line, index, available, i, i + 1, w, column);
          var (cx, cy) := LineCursor(line, available, i + 1, w, column);
          LandsBelow(line, available, first, rest, column, cx, cy);
        } else {
          FirstRow(line, index, available, i, i + 1, w);
          LandsFirst(line, available, rest, column);
          LandsBelow(line, available, first, rest, column, 0, 0);
        }
      } else if i < column {
        CursorLands(line, index, available, start, i + 1, x + w, column);
      } else {
        FirstRow(line, index, available, start, i + 1, x + w);
        LandsFirst(line, available, LineRows(line, index, available, start, i + 1, x + w), column);
      }
    }
  }

  lemma {:induction false} FirstRow(line: Line, index: nat, available: nat, start: nat, i: nat, x: nat)
    requires start <= i <= |line| && x == SliceWidth(line, start, i)
    ensures var rows := LineRows(line, index, available, start, i, x);
            rows != [] && rows[0].start == start && i <= rows[0].end <= |line|
  {
    hide LineRows, SliceWidth;
    RowsLaws(line, index, available, start, i, x);
  }

  /** What the rows of a line show, end to end, is the line. */
  function Shown(line: Line, rows: seq<Row>): Line
    requires forall k :: 0 <= k < |rows| ==> rows[k].start <= rows[k].end <= |line|
  {
    if rows == [] then [] else line[rows[0].start..rows[0].end] + Shown(line, rows[1..])
  }

  lemma {:induction false} TilesShow(line: Line, rows: seq<Row>, index: nat, start: nat)
    requires start <= |line| && Tiles(rows, index, start, |line|)
    ensures Shown(line, rows) == line[start..]
    decreases |rows|
  {
    if |rows| > 1 {
      TilesShow(line, rows[1..], index, rows[1].start);
      assert line[start..] == line[start..rows[0].end] + line[rows[0].end..];
    } else {
      assert rows[1..] == [];
    }
  }

  /** Wrapping is exact, greedy and never too wide. */
  lemma {:induction false} WrapExact(line: Line, index: nat, available: nat)
    ensures var rows := LineRows(line, index, available, 0, 0, 0);
            && Tiles(rows, index, 0, |line|) && Shown(line, rows) == line
            && Greedy(line, available, rows)
            && (UnitsFit(line, available) ==> Within(line, available, rows))
  {
    hide LineRows;
    assert line[0..0] == [];
    RowsLaws(line, index, available, 0, 0, 0);
    TilesShow(line, LineRows(line, index, available, 0, 0, 0), index, 0);
    assert line[0..] == line;
  }

  lemma {:induction false} RowsPrefix(lines: seq<Line>, available: nat, m: nat, n: nat)
    requires m <= n <= |lines|
    ensures AllRows(lines, available, m) <= AllRows(lines, available, n)
    decreases n
  {
    hide LineRows;
    if m < n { RowsPrefix(lines, available, m, n - 1); }
  }

  /** The rows of one line within the whole layout. */
  lemma {:induction false} RowsOfLine(lines: seq<Line>, available: nat, l: nat)
    requires l < |lines|
    ensures var base, rows := |AllRows(lines, available, l)|, LineRows(lines[l], l, available, 0, 0, 0);
            && base + |rows| <= |AllRows(lines, available, |lines|)|
            && AllRows(lines, available, |lines|)[base..base + |rows|] == rows
            && (base + |rows| == |AllRows(lines, available, |lines|)| <==> l + 1 == |lines|)
  {
    hide LineRows, AllRows;
    RowsPrefix(lines, available, l + 1, |lines|);
    var base, rows := AllRows(lines, available, l), LineRows(lines[l], l, available, 0, 0, 0);
    NextRows(lines, available, l);
    PrefixSlice(AllRows(lines, available, |lines|), base, rows);
    if l + 1 < |lines| {
      RowsPrefix(lines, available, l + 2, |lines|);
      NextRows(lines, available, l + 1);
      SomeRows(lines[l + 1], l + 1, available);
    }
  }

  /** The rows go over the text once, in order: each begins where the one before it ended,
      or at the start of the next line once that line is done. */
  predicate Follows(lines: seq<Line>, rows: seq<Row>, last: nat)
    requires last < |lines|
  {
    && rows != []
    && rows[0].line == 0 && rows[0].start == 0
    && rows[|rows| - 1].line == last && rows[|rows| - 1].end == |lines[last]|
    && (forall k :: 0 <= k < |rows| ==> rows[k].line < |lines| && rows[k].start <= rows[k].end <= |lines[rows[k].line]|)
    && (forall k :: 1 <= k < |rows| ==>
          if rows[k].line == rows[k - 1].line then rows[k].start == rows[k - 1].end
          else rows[k].line == rows[k - 1].line + 1 && rows[k - 1].end == |lines[rows[k - 1].line]| && rows[k].start == 0)
  }

  lemma {:induction false} FollowsOn(lines: seq<Line>, rows: seq<Row>, more: seq<Row>, l: nat)
    requires l < |lines| && Tiles(more, l, 0, |lines[l]|)
    requires if l == 0 then rows == [] else Follows(lines, rows, l - 1)
    ensures Follows(lines, rows + more, l)
  {
    var all := rows + more;
    forall k | 1 <= k < |all|
      ensures if all[k].line == all[k - 1].line then all[k].start == all[k - 1].end
              else all[k].line == all[k - 1].line + 1 && all[k - 1].end == |lines[all[k - 1].line]| && all[k].start == 0
    {
      if k > |rows| { assert all[k] == more[k - |rows|] && all[k - 1] == more[k - |rows| - 1]; }
    }
  }

  lemma {:induction false} RowsFollow(lines: seq<Line>, available: nat, n: nat)
    requires 0 < n <= |lines|
    ensures Follows(lines, AllRows(lines, available, n), n - 1)
    decreases n
  {
    hide LineRows, AllRows, Follows, Tiles, Shown;
    if n > 1 { RowsFollow(lines, available, n - 1); } else { NoRows(lines, available); }
    NextRows(lines, available, n - 1);
    WrapExact(lines[n - 1], n - 1, available);
    FollowsOn(lines, AllRows(lines, available, n - 1), LineRows(lines[n - 1], n - 1, available, 0, 0, 0), n - 1);
  }

  /** The layout shows the whole text, each line of it from its start to its end. */
  lemma {:induction false} LayoutShows(lines: seq<Line>, cursor: Pos, width: nat)
    requires ValidPos(lines, cursor)
    ensures Follows(lines, LayoutOf(lines, cursor, width).rows, |lines| - 1)
  {
    hide AllRows, LineCursor, Follows;
    RowsFollow(lines, Available(width), |lines|);
  }

  lemma {:induction false} NoRows(lines: seq<Line>, available: nat)
    ensures AllRows(lines, available, 0) == []
  {
  }

  lemma {:induction false} PrefixSlice<T>(all: seq<T>, a: seq<T>, b: seq<T>)
    requires a + b <= all
    ensures |a| + |b| <= |all| && all[|a|..|a| + |b|] == b
  {
    assert all[..|a| + |b|] == a + b;
    assert all[|a|..|a| + |b|] == all[..|a| + |b|][|a|..];
  }

  lemma {:induction false} SomeRows(line: Line, index: nat, available: nat)
    ensures LineRows(line, index, available, 0, 0, 0) != []
  {
    hide LineRows;
    assert line[0..0] == [];
    RowsLaws(line, index, available, 0, 0, 0);
  }

  /** The drawn cursor: in the row that holds it, at the width of what precedes it;
      or, after an exactly filled line, at the start of the row below. It is always
      within the rows the band asks for. */
  lemma {:induction false} CursorPlaced(lines: seq<Line>, cursor: Pos, width: nat)
    requires ValidPos(lines, cursor)
    ensures var l := LayoutOf(lines, cursor, width);
            var line, base := lines[cursor.line], |AllRows(lines, Available(width), cursor.line)|;
            var rows := LineRows(line, cursor.line, Available(width), 0, 0, 0);
            && l.cursorY < RowCount(l) && base <= l.cursorY
            && Lands(line, Available(width), rows, cursor.column, l.cursorX, l.cursorY - base)
            && (l.cursorY < base + |rows| ==> l.cursorY < |l.rows| && l.rows[l.cursorY] == rows[l.cursorY - base])
            && (RowCount(l) > |l.rows| <==> l.cursorY == base + |rows| && cursor.line + 1 == |lines|)
  {
    hide LineRows, LineCursor, Lands;
    var line := lines[cursor.line];
    assert line[0..0] == [];
    CursorLands(line, cursor.line, Available(width), 0, 0, 0, cursor.column);
    RowsOfLine(lines, Available(width), cursor.line);
    var (x, y) := LineCursor(line, Available(width), 0, 0, cursor.column);
    LandsWithin(line, Available(width), LineRows(line, cursor.line, Available(width), 0, 0, 0), cursor.column, x, y);
    var base, rows := |AllRows(lines, Available(width), cursor.line)|, LineRows(line, cursor.line, Available(width), 0, 0, 0);
    var all := AllRows(lines, Available(width), |lines|);
    if y < |rows| { assert all[base..base + |rows|][y] == all[base + y]; }
  }

  lemma {:induction false} LandsWithin(line: Line, available: nat, rows: seq<Row>, column: nat, x: nat, y: nat)
    requires Lands(line, available, rows, column, x, y)
    ensures y <= |rows|
  {
  }

  // ---------------------------------------------------------------------- the window

  /** The scroll step of a render: follow the cursor, never past the last rows. */
  function Scrolled(scroll: nat, l: Layout, height: nat): nat {
    var followed := if l.cursorY < scroll then l.cursorY
                    else if l.cursorY >= scroll + height then Less(l.cursorY + 1, height) else scroll;
    var most := Less(RowCount(l), height);
    if followed <= most then followed else most
  }

  /** Whatever the scroll was, the window holds the cursor's row after the step, and
      shows no blank rows while there are rows above to show. It goes no further than
      that takes: up to the cursor's row, down until that row is the last one shown. */
  lemma {:induction false} CursorVisible(lines: seq<Line>, cursor: Pos, width: nat, scroll: nat, height: nat)
    requires ValidPos(lines, cursor) && height >= 1
    ensures var l := LayoutOf(lines, cursor, width);
            var s := Scrolled(scroll, l, height);
            && s <= l.cursorY < s + height
            && (s + height <= RowCount(l) || s == 0)
            && (scroll <= l.cursorY < scroll + height && scroll + height <= RowCount(l) ==> s == scroll)
            && (l.cursorY >= scroll + height ==> s + height == l.cursorY + 1)
            && (l.cursorY < scroll && l.cursorY + height <= RowCount(l) ==> s == l.cursorY)
            && (RowCount(l) <= height ==> s == 0)
            && (l.cursorY < scroll + height && height < RowCount(l) < scroll + height && RowCount(l) < l.cursorY + height ==>
                  s + height == RowCount(l))
  {
    hide LineRows, LineCursor, AllRows;
    CursorPlaced(lines, cursor, width);
  }

  /** The rows a composer of this buffer asks the band for. */
  function DesiredRows(l: Layout): nat {
    var n := if RowCount(l) <= U16_MAX then RowCount(l) else U16_MAX;
    if n >= 1 then n else 1
  }

  /** A band of that many rows shows the whole buffer unscrolled, up to the cap, and
      no smaller one does; always with the cursor's row in view. */
  lemma {:induction false} DesiredShowsAll(lines: seq<Line>, cursor: Pos, width: nat, scroll: nat)
    requires ValidPos(lines, cursor)
    ensures var l := LayoutOf(lines, cursor, width);
            var n, s := DesiredRows(l), Scrolled(scroll, l, DesiredRows(l));
            && 1 <= n <= U16_MAX
            && s <= l.cursorY < s + n
            && (RowCount(l) <= U16_MAX ==> s == 0 && n == RowCount(l) && l.cursorY < n)
            && (RowCount(l) > U16_MAX ==> n == U16_MAX && s + n <= RowCount(l))
  {
    hide LineRows, LineCursor, AllRows;
    CursorPlaced(lines, cursor, width);
    CursorVisible(lines, cursor, width, scroll, DesiredRows(LayoutOf(lines, cursor, width)));
  }

  /** Scrolls the composer for a render of this size; nothing else changes. */
  method ScrollTo(c: Composer, width: nat, height: nat) returns (l: Layout)
    requires c.Valid() && height >= 1
    modifies c`scroll
    ensures c.Valid() && c.Model() == old(c.Model())
    ensures l == LayoutOf(c.lines, c.cursor, width) && c.scroll == Scrolled(old(c.scroll), l, height)
    ensures c.scroll <= l.cursorY < c.scroll + height
  {
    hide LayoutOf;
    l := ComputeLayout(c.lines, c.cursor, width);
    CursorVisible(c.lines, c.cursor, width, c.scroll, height);
    if l.cursorY < c.scroll {
      c.scroll := l.cursorY;
    } else if l.cursorY >= c.scroll + height {
      c.scroll := l.cursorY + 1 - height;
    }
    var most := Less(RowCount(l), height);
    if c.scroll > most { c.scroll := most; }
  }
}
