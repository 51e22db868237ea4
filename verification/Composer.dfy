/**
 The composer: lines, a two-dimensional cursor and a snapshot stack, each operation
 proved to be the flat editor's.
 */
module Composers {
  import opened Prelude
  import opened EditorText
  import F = FlatEditor

  datatype UndoUnit = UndoUnit(lines: seq<Line>, cursor: Pos)

  function LineBytes(line: Line): nat {
    if line == [] then 0 else LineBytes(line[..|line| - 1]) + line[|line| - 1].bytes
  }

  function LinesBytes(lines: seq<Line>): nat {
    if lines == [] then 0 else LineBytes(lines[0]) + LinesBytes(lines[1..])
  }

  predicate UnitOk(u: UndoUnit) {
    ValidPos(u.lines, u.cursor)
  }

  predicate UnitsOk(undo: seq<UndoUnit>) {
    forall k :: 0 <= k < |undo| ==> UnitOk(undo[k])
  }

  function Flatten(u: UndoUnit): F.Snapshot
    requires UnitOk(u)
  {
    F.Snapshot(Join(u.lines), Offset(u.lines, u.cursor))
  }

  function FlattenAll(undo: seq<UndoUnit>): (r: seq<F.Snapshot>)
    requires UnitsOk(undo)
    ensures |r| == |undo| && forall k :: 0 <= k < |r| ==> r[k] == Flatten(undo[k])
  {
    seq(|undo|, k requires 0 <= k < |undo| => Flatten(undo[k]))
  }

  function UndoBytes(undo: seq<UndoUnit>): nat {
    if undo == [] then 0 else LinesBytes(undo[0].lines) + UndoBytes(undo[1..])
  }

  // -------------------------------------------------------- bytes, lines and text

  lemma {:induction false} BytesConcat(a: seq<Unit>, b: seq<Unit>)
    ensures F.Bytes(a + b) == F.Bytes(a) + F.Bytes(b)
    decreases |b|
  {
    if b == [] {
      assert a + b == a;
    } else {
      BytesConcat(a, b[..|b| - 1]);
      assert (a + b)[..|a + b| - 1] == a + b[..|b| - 1];
    }
  }

  lemma {:induction false} BytesLine(line: Line)
    ensures F.Bytes(Units(line)) == LineBytes(line)
    decreases |line|
  {
    if line != [] {
      BytesLine(line[..|line| - 1]);
      assert Units(line)[..|line| - 1] == Units(line[..|line| - 1]);
    }
  }

  lemma {:induction false} BytesAfter(lines: seq<Line>)
    ensures F.Bytes(After(lines)) == LinesBytes(lines)
    decreases |lines|
  {
    if lines != [] {
      BytesAfter(lines[1..]);
      BytesLine(lines[0]);
      BytesConcat([Break], Units(lines[0]));
      BytesConcat([Break] + Units(lines[0]), After(lines[1..]));
      assert [Break][..0] == [] && F.Bytes([Break]) == 0;
    }
  }

  lemma {:induction false} BytesJoin(lines: seq<Line>)
    requires lines != []
    ensures F.Bytes(Join(lines)) == LinesBytes(lines)
  {
    BytesLine(lines[0]);
    BytesAfter(lines[1..]);
    BytesConcat(Units(lines[0]), After(lines[1..]));
  }

  lemma {:induction false} TotalIs(undo: seq<UndoUnit>)
    requires UnitsOk(undo)
    ensures F.Total(FlattenAll(undo)) == UndoBytes(undo)
    decreases |undo|
  {
    if undo != [] {
      BytesJoin(undo[0].lines);
      TotalIs(undo[1..]);
      assert FlattenAll(undo)[1..] == FlattenAll(undo[1..]);
    }
  }

  lemma {:induction false} UndoBytesSnoc(undo: seq<UndoUnit>, u: UndoUnit)
    ensures UndoBytes(undo + [u]) == UndoBytes(undo) + LinesBytes(u.lines)
    decreases |undo|
  {
    if undo == [] {
      assert ([] + [u])[1..] == [];
    } else {
      UndoBytesSnoc(undo[1..], u);
      assert (undo + [u])[1..] == undo[1..] + [u];
    }
  }

  // ------------------------------------------------------------- lines in the text

  /** A line's ends, found on the flat text. */
  lemma {:induction false} LineBounds(lines: seq<Line>, p: Pos)
    requires ValidPos(lines, p)
    ensures Offset(lines, p) <= |Join(lines)|
    ensures F.LineStart(Join(lines), Offset(lines, p)) == Offset(lines, Pos(p.line, 0))
    ensures F.LineEnd(Join(lines), Offset(lines, p)) == Offset(lines, Pos(p.line, |lines[p.line]|))
  {
    var text, at := Join(lines), Offset(lines, p);
    var a, z := Offset(lines, Pos(p.line, 0)), Offset(lines, Pos(p.line, |lines[p.line]|));
    LineInText(lines, p.line);
    StartsAt(text, at, a);
    EndsAt(text, at, z);
  }

  lemma {:induction false} LineInText(lines: seq<Line>, l: nat)
    requires l < |lines|
    ensures var text, a := Join(lines), |Before(lines[..l])|;
            var z := a + |lines[l]|;
            && z <= |text| && text[a..z] == Units(lines[l])
            && (forall k :: a <= k < z ==> text[k].Of?)
            && (a > 0 ==> text[a - 1].Break?) && (a == 0 <==> l == 0)
            && (z < |text| ==> text[z].Break?) && (z == |text| <==> l + 1 == |lines|)
  {
    JoinAt(lines, l);
    var text, b, u, c := Join(lines), Before(lines[..l]), Units(lines[l]), After(lines[l + 1..]);
    assert text == b + u + c;
    assert forall k :: |b| <= k < |b| + |u| ==> text[k] == u[k - |b|];
    if l > 0 {
      BeforeSnoc(lines, l - 1);
      assert b[|b| - 1] == Break;
    }
    if l + 1 < |lines| { assert c[0] == Break; }
  }

  lemma {:induction false} LineHead(lines: seq<Line>, p: Pos)
    requires ValidPos(lines, p)
    ensures Offset(lines, Pos(p.line, 0)) <= Offset(lines, p) <= |Join(lines)|
    ensures Join(lines)[Offset(lines, Pos(p.line, 0))..Offset(lines, p)] == Units(lines[p.line][..p.column])
  {
    hide Join, Before;
    LineInText(lines, p.line);
    var text, a, line := Join(lines), Offset(lines, Pos(p.line, 0)), lines[p.line];
    assert text[a..a + p.column] == text[a..a + |line|][..p.column];
    assert Units(line)[..p.column] == Units(line[..p.column]);
  }

  lemma {:induction false} StartsAt(text: seq<Unit>, at: nat, a: nat)
    requires a <= at <= |text| && (forall k :: a <= k < at ==> text[k].Of?) && (a > 0 ==> text[a - 1].Break?)
    ensures F.LineStart(text, at) == a
    decreases at
  {
    if a < at { StartsAt(text, at - 1, a); }
  }

  lemma {:induction false} EndsAt(text: seq<Unit>, at: nat, z: nat)
    requires at <= z <= |text| && (forall k :: at <= k < z ==> text[k].Of?) && (z < |text| ==> text[z].Break?)
    ensures F.LineEnd(text, at) == z
    decreases z - at
  {
    if at < z { EndsAt(text, at + 1, z); }
  }

  function LineWidth(line: Line): nat {
    if line == [] then 0 else LineWidth(line[..|line| - 1]) + line[|line| - 1].width
  }

  lemma {:induction false} WidthIs(line: Line)
    ensures F.WidthOf(Units(line)) == LineWidth(line)
    decreases |line|
  {
    if line != [] {
      WidthIs(line[..|line| - 1]);
      assert Units(line)[..|line| - 1] == Units(line[..|line| - 1]);
    }
  }

  /** The column a line reaches within `room` display columns. */
  function ReachColumn(line: Line, column: nat, room: nat): (r: nat)
    requires column <= |line|
    ensures r <= |line|
    decreases |line| - column
  {
    if column < |line| && line[column].width <= room then ReachColumn(line, column + 1, room - line[column].width) else column
  }

  lemma {:induction false} ReachIs(text: seq<Unit>, a: nat, line: Line, column: nat, room: nat)
    requires column <= |line| && a + |line| <= |text| && text[a..a + |line|] == Units(line)
    ensures F.Reach(text, a + column, a + |line|, room) == a + ReachColumn(line, column, room)
    decreases |line| - column
  {
    if column < |line| {
      assert text[a + column] == text[a..a + |line|][column] == Of(line[column]);
      if line[column].width <= room { ReachIs(text, a, line, column + 1, room - line[column].width); }
    }
  }

  // ------------------------------------------------------------------ the object

  predicate BufferOk(lines: seq<Line>, cursor: Pos, anchor: Option<Pos>, undo: seq<UndoUnit>) {
    ValidPos(lines, cursor) && (anchor.Some? ==> ValidPos(lines, anchor.value)) && UnitsOk(undo)
  }

  /** The flat editor a buffer stands for. */
  function Flat(lines: seq<Line>, cursor: Pos, anchor: Option<Pos>, preferred: Option<nat>, undo: seq<UndoUnit>,
                run: Option<F.Run>): (e: F.Editor)
    requires BufferOk(lines, cursor, anchor, undo)
  {
    F.Editor(Join(lines), Offset(lines, cursor), if anchor.None? then None else Some(Offset(lines, anchor.value)),
             preferred, FlattenAll(undo), run)
  }

  lemma {:induction false} FlatSane(lines: seq<Line>, cursor: Pos, anchor: Option<Pos>, preferred: Option<nat>, undo: seq<UndoUnit>, run: Option<F.Run>)
    requires BufferOk(lines, cursor, anchor, undo)
    ensures F.Sane(Flat(lines, cursor, anchor, preferred, undo, run))
  {
    hide Join, Offset, FlattenAll;
    JoinSplit(lines, cursor);
    if anchor.Some? { JoinSplit(lines, anchor.value); }
  }

  lemma {:induction false} PushedUnit(undo: seq<UndoUnit>, u: UndoUnit)
    requires UnitsOk(undo) && UnitOk(u)
    ensures FlattenAll(undo + [u]) == FlattenAll(undo) + [Flatten(u)]
    ensures UndoBytes(undo + [u]) == UndoBytes(undo) + LinesBytes(u.lines)
  {
    hide Flatten;
    UndoBytesSnoc(undo, u);
  }

  lemma {:induction false} EvictStep(undo: seq<UndoUnit>)
    requires UnitsOk(undo) && |undo| > 1 && (|undo| > F.MAX_UNDO_UNITS || UndoBytes(undo) > F.MAX_UNDO_BYTES)
    ensures F.Evict(FlattenAll(undo)) == F.Evict(FlattenAll(undo[1..]))
    ensures UndoBytes(undo) == LinesBytes(undo[0].lines) + UndoBytes(undo[1..])
  {
    hide Flatten;
    TotalIs(undo);
    assert FlattenAll(undo)[1..] == FlattenAll(undo[1..]);
  }

  lemma {:induction false} EvictDone(undo: seq<UndoUnit>)
    requires UnitsOk(undo) && !(|undo| > 1 && (|undo| > F.MAX_UNDO_UNITS || UndoBytes(undo) > F.MAX_UNDO_BYTES))
    ensures F.Evict(FlattenAll(undo)) == FlattenAll(undo)
  {
    hide Flatten;
    TotalIs(undo);
  }

  /** One unit back: within the line, or over the break before it. */
  lemma {:induction false} StepBack(lines: seq<Line>, p: Pos)
    requires ValidPos(lines, p)
    ensures Offset(lines, p) == 0 <==> p == Pos(0, 0)
    ensures p.column > 0 ==> Offset(lines, Pos(p.line, p.column - 1)) == Offset(lines, p) - 1
    ensures p.column == 0 && p.line > 0 ==>
              Offset(lines, Pos(p.line - 1, |lines[p.line - 1]|)) == Offset(lines, p) - 1
  {
    if p.line > 0 { BeforeSnoc(lines, p.line - 1); }
  }

  /** One unit on: within the line, or over the break after it. */
  lemma {:induction false} StepOn(lines: seq<Line>, p: Pos)
    requires ValidPos(lines, p)
    ensures Offset(lines, p) <= |Join(lines)|
    ensures Offset(lines, p) == |Join(lines)| <==> p == Pos(|lines| - 1, |lines[|lines| - 1]|)
    ensures p.column < |lines[p.line]| ==> Offset(lines, Pos(p.line, p.column + 1)) == Offset(lines, p) + 1
    ensures p.column == |lines[p.line]| && p.line + 1 < |lines| ==>
              Offset(lines, Pos(p.line + 1, 0)) == Offset(lines, p) + 1
  {
    hide Join;
    LineInText(lines, p.line);
    if p.line + 1 < |lines| { BeforeSnoc(lines, p.line); }
  }

  lemma {:induction false} CutJoin(lines: seq<Line>, l: nat)
    requires l + 1 < |lines|
    ensures Cut(lines, Pos(l, |lines[l]|), Pos(l + 1, 0)) == (lines[..l + 1] + lines[l + 2..])[l := lines[l] + lines[l + 1]]
  {
    assert lines[l][..|lines[l]|] == lines[l] && lines[l + 1][0..] == lines[l + 1];
  }

  lemma {:induction false} CutInLine(lines: seq<Line>, l: nat, a: nat, b: nat)
    requires l < |lines| && a <= b <= |lines[l]|
    ensures Cut(lines, Pos(l, a), Pos(l, b)) == lines[l := lines[l][..a] + lines[l][b..]]
  {
  }

  /** The column a line reaches, seen on the flat text. */
  lemma {:induction false} ReachLine(lines: seq<Line>, l: nat, room: nat)
    requires l < |lines|
    ensures var a, z := Offset(lines, Pos(l, 0)), Offset(lines, Pos(l, |lines[l]|));
            && z <= |Join(lines)|
            && Offset(lines, Pos(l, ReachColumn(lines[l], 0, room))) == F.Reach(Join(lines), a, z, room)
            && (a == 0 <==> l == 0) && (z == |Join(lines)| <==> l + 1 == |lines|)
  {
    hide Join, F.Reach, ReachColumn, Before;
    LineInText(lines, l);
    ReachIs(Join(lines), |Before(lines[..l])|, lines[l], 0, room);
  }

  lemma {:induction false} FirstThen(above: seq<Line>, x: Line, parts: seq<Line>, below: seq<Line>)
    requires parts != []
    ensures (above + [x]) + parts[1..] + below == above + parts[0 := x] + below
  {
    assert parts[0 := x] == [x] + parts[1..];
  }

  lemma {:induction false} EmbeddedIs(head: Line, parts: seq<Line>, tail: Line)
    requires parts != []
    ensures var first := parts[0 := head + parts[0]];
            Embedded(head, parts, tail) == first[|first| - 1 := first[|first| - 1] + tail]
  {
  }

  lemma {:induction false} OneMore(above: seq<Line>, first: seq<Line>, below: seq<Line>, i: nat)
    requires i < |first|
    ensures var lines, at := above + first[..i] + below, |above| + i;
            lines[..at] + [first[i]] + lines[at..] == above + first[..i + 1] + below
  {
    var lines, at := above + first[..i] + below, |above| + i;
    assert lines[..at] == above + first[..i] && lines[at..] == below;
  }

  lemma {:induction false} LastExtended(above: seq<Line>, first: seq<Line>, below: seq<Line>, tail: Line)
    requires first != []
    ensures var lines, at := above + first + below, |above| + |first| - 1;
            lines[at] == first[|first| - 1]
            && lines[at := lines[at] + tail] == above + first[|first| - 1 := first[|first| - 1] + tail] + below
  {
  }

  class Composer {
    var lines: seq<Line>
    var cursor: Pos
    var anchor: Option<Pos>
    var preferredCol: Option<nat>
    var undo: seq<UndoUnit>
    var undoBytes: nat
    var run: Option<F.Run>
    var scroll: nat

    ghost predicate Valid()
      reads this
    {
      BufferOk(lines, cursor, anchor, undo) && undoBytes == UndoBytes(undo)
    }

    ghost function Model(): F.Editor
      requires Valid()
      reads this
    {
      Flat(lines, cursor, anchor, preferredCol, undo, run)
    }

    lemma {:induction false} ModelSane()
      requires Valid()
      ensures F.Sane(Model())
    {
      FlatSane(lines, cursor, anchor, preferredCol, undo, run);
    }

    constructor ()
      ensures Valid() && Model() == F.EMPTY && scroll == 0
    {
      lines, cursor, anchor, preferredCol := [[]], Pos(0, 0), None, None;
      undo, undoBytes, run, scroll := [], 0, None, 0;
      new;
      assert Join([[]]) == [] && Before([]) == [];
      assert lines[..0] == [];
    }

    /** Snapshots the buffer, then evicts the oldest units while over either bound. */
    method PushUndo()
      requires Valid()
      modifies this`undo, this`undoBytes
      ensures Valid() && Model() == F.Push(old(Model()))
    {
      hide Join, Offset, LinesBytes, UndoBytes, FlattenAll, F.Evict;
      var unit := UndoUnit(lines, cursor);
      ghost var start := FlattenAll(undo + [unit]);
      PushedUnit(undo, unit);
      undoBytes := undoBytes + LinesBytes(lines);
      undo := undo + [unit];
      while |undo| > 1 && (|undo| > F.MAX_UNDO_UNITS || undoBytes > F.MAX_UNDO_BYTES)
        invariant undo != [] && UnitsOk(undo) && undoBytes == UndoBytes(undo)
        invariant F.Evict(FlattenAll(undo)) == F.Evict(start)
        decreases |undo|
      {
        EvictStep(undo);
        undoBytes := undoBytes - LinesBytes(undo[0].lines);
        undo := undo[1..];
      }
      EvictDone(undo);
    }

    /** The ordered selection, unless it is degenerate. */
    method SelectionRange() returns (s: Option<(Pos, Pos)>)
      requires Valid()
      ensures s.Some? ==> ValidPos(lines, s.value.0) && ValidPos(lines, s.value.1) && !Precedes(s.value.1, s.value.0)
      ensures F.Selection(Model()) ==
              if s.None? then None else Some((Offset(lines, s.value.0), Offset(lines, s.value.1)))
    {
      hide Join, FlattenAll;
      if anchor.None? { return None; }
      OffsetOrder(lines, anchor.value, cursor);
      if anchor.value == cursor {
        s := None;
      } else if Precedes(anchor.value, cursor) {
        s := Some((anchor.value, cursor));
      } else {
        s := Some((cursor, anchor.value));
      }
    }

    /** Deletes `from..to` and leaves the cursor at `from`. */
    method DeleteRange(from: Pos, to: Pos)
      requires ValidPos(lines, from) && ValidPos(lines, to) && !Precedes(to, from)
      modifies this`lines, this`cursor
      ensures lines == Cut(old(lines), from, to) && cursor == from
    {
      if from.line == to.line {
        lines := lines[from.line := lines[from.line][..from.column] + lines[from.line][to.column..]];
      } else {
        var tail := lines[to.line][to.column..];
        lines := lines[from.line := lines[from.line][..from.column] + tail];
        lines := lines[..from.line + 1] + lines[to.line + 1..];
      }
      cursor := from;
      assert lines == Cut(old(lines), from, to);
    }

    /** The parts after the first become lines of their own below `line`. */
    method PlaceRest(parts: seq<Line>, line: nat) returns (endLine: nat)
      requires parts != [] && line < |lines|
      modifies this`lines
      ensures endLine == line + |parts| - 1
      ensures lines == old(lines)[..line + 1] + parts[1..] + old(lines)[line + 1..]
    {
      ghost var above, rest, below := lines[..line + 1], parts[1..], lines[line + 1..];
      endLine := line;
      var i := 1;
      assert above + rest[..0] + below == lines;
      while i < |parts|
        invariant 1 <= i <= |parts| && endLine == line + i - 1
        invariant lines == above + rest[..i - 1] + below
      {
        endLine := endLine + 1;
        OneMore(above, rest, below, i - 1);
        lines := lines[..endLine] + [parts[i]] + lines[endLine..];
        i := i + 1;
      }
      assert rest[..i - 1] == rest;
    }

    /** Inserts filtered text, splitting the line at its breaks. */
    method InsertText(text: seq<Unit>)
      requires ValidPos(lines, cursor)
      modifies this`lines, this`cursor
      ensures lines == Inserted(old(lines), old(cursor), text) && cursor == Landing(old(cursor), text)
    {
      hide Parts, Embedded;
      var line, column := cursor.line, cursor.column;
      var head, tail := lines[line][..column], lines[line][column..];
      var parts := Parts(text);
      ghost var first := parts[0 := head + parts[0]];
      ghost var above, below := lines[..line], lines[line + 1..];
      EmbeddedIs(head, parts, tail);
      LastExtended(above, first, below, tail);
      lines := lines[line := head + parts[0]];
      assert lines[..line + 1] == above + [head + parts[0]] && lines[line + 1..] == below;
      var endLine := PlaceRest(parts, line);
      FirstThen(above, head + parts[0], parts, below);
      var endColumn := |lines[endLine]|;
      lines := lines[endLine := lines[endLine] + tail];
      cursor := Pos(endLine, endColumn);
    }

    /** Deletes the selection, if any, without a unit of its own. */
    method RemoveSelection() returns (removed: bool)
      requires Valid()
      modifies this`lines, this`cursor, this`anchor
      ensures Valid() && F.Sane(old(Model())) && Model() == F.RemoveSelection(old(Model()))
      ensures removed == F.Selection(old(Model())).Some?
    {
      hide Join, Offset, FlattenAll, Cut, F.Selection, UndoBytes, Precedes;
      ModelSane();
      var range := SelectionRange();
      if range.Some? {
        CutSplices(lines, range.value.0, range.value.1);
        DeleteRange(range.value.0, range.value.1);
      }
      anchor := None;
      removed := range.Some?;
    }

    /** A destructive key with a selection deletes just that. */
    method DeleteSelectionAsUnit() returns (deleted: bool)
      requires Valid()
      modifies this`lines, this`cursor, this`anchor, this`undo, this`undoBytes, this`run, this`preferredCol
      ensures Valid() && F.Sane(old(Model())) && deleted == F.Selection(old(Model())).Some?
      ensures Model() == if deleted then F.CutSelection(old(Model())) else old(Model()).(anchor := None)
      ensures !deleted ==> lines == old(lines) && cursor == old(cursor) && undo == old(undo) && run == old(run)
    {
      hide Join, Offset, FlattenAll, F.Evict, F.RemoveSelection, UndoBytes;
      ModelSane();
      var range := SelectionRange();
      if range.None? {
        anchor := None;
        return false;
      }
      PushUndo();
      var removed := RemoveSelection();
      run, preferredCol := None, None;
      deleted := true;
    }

    method DeleteSelection() returns (deleted: bool)
      requires Valid()
      modifies this
      ensures Valid() && scroll == old(scroll)
      ensures F.Sane(old(Model())) && deleted == F.Selection(old(Model())).Some? && Model() == F.DeleteSelection(old(Model()))
    {
      hide F.CutSelection, F.Selection, Join, Offset, FlattenAll;
      ModelSane();
      deleted := DeleteSelectionAsUnit();
    }

    /** Inserts the filtered input, replacing the selection. */
    method InsertStr(raw: seq<Raw>)
      requires Valid()
      modifies this
      ensures Valid() && scroll == old(scroll)
      ensures F.Sane(old(Model())) && Model() == F.Insert(old(Model()), raw)
    {
      hide Join, Offset, FlattenAll, F.Evict, F.RemoveSelection, F.Selection, UndoBytes, Inserted, Landing, Filter;
      ModelSane();
      var text := Filter(raw);
      if text == [] { return; }
      var single := F.Single(text);
      var range := SelectionRange();
      var coalesce := single && run == Some(F.InsertRun) && range.None?;
      if !coalesce { PushUndo(); }
      var removed := RemoveSelection();
      InsertSplices(lines, cursor, text);
      InsertText(text);
      run := if single then Some(F.InsertRun) else None;
      preferredCol := None;
    }

    /** Splits the line, always in a unit of its own. */
    method InsertNewline()
      requires Valid()
      modifies this
      ensures Valid() && scroll == old(scroll)
      ensures F.Sane(old(Model())) && Model() == F.Newline(old(Model()))
    {
      hide Join, Offset, FlattenAll, F.Evict, F.RemoveSelection, UndoBytes, Inserted, Landing;
      ModelSane();
      PushUndo();
      var removed := RemoveSelection();
      InsertSplices(lines, cursor, [Break]);
      InsertText([Break]);
      run, preferredCol := None, None;
    }

    /** One unit back, or the break before the line, or the selection. */
    method Backspace()
      requires Valid()
      modifies this
      ensures Valid() && scroll == old(scroll)
      ensures F.Sane(old(Model())) && Model() == F.Backspace(old(Model()))
    {
      hide Join, Offset, FlattenAll, F.Evict, F.CutSelection, F.Selection, UndoBytes, LinesBytes;
      ModelSane();
      var deleted := DeleteSelectionAsUnit();
      if deleted { return; }
      StepBack(lines, cursor);
      if cursor == Pos(0, 0) { return; }
      if run != Some(F.BackspaceRun) { PushUndo(); }
      run := Some(F.BackspaceRun);
      preferredCol := None;
      JoinBack();
    }

    /** Removes the unit or the break before the cursor. */
    method JoinBack()
      requires Valid() && anchor.None? && cursor != Pos(0, 0)
      modifies this`lines, this`cursor
      ensures Valid() && F.Sane(old(Model())) && old(Model()).at > 0
      ensures var e := old(Model());
              Model() == e.(text := Splice(e.text, e.at - 1, e.at, []), at := e.at - 1)
    {
      hide Join, Offset, FlattenAll, UndoBytes;
      ModelSane();
      StepBack(lines, cursor);
      var line, column := cursor.line, cursor.column;
      ghost var target := if column == 0 then Pos(line - 1, |lines[line - 1]|) else Pos(line, column - 1);
      CutSplices(lines, target, cursor);
      if column == 0 {
        var previousLength := |lines[line - 1]|;
        var removed := lines[line];
        lines := lines[..line] + lines[line + 1..];
        lines := lines[line - 1 := lines[line - 1] + removed];
        cursor := Pos(line - 1, previousLength);
      } else {
        lines := lines[line := lines[line][..column - 1] + lines[line][column..]];
        cursor := Pos(line, column - 1);
      }
      if column == 0 { CutJoin(old(lines), line - 1); } else { CutInLine(old(lines), line, column - 1, column); }
    }

    /** One unit forward, or the break after the line, or the selection. */
    method DeleteForward()
      requires Valid()
      modifies this
      ensures Valid() && scroll == old(scroll)
      ensures F.Sane(old(Model())) && Model() == F.DeleteForward(old(Model()))
    {
      hide Join, Offset, FlattenAll, F.Evict, F.CutSelection, F.Selection, UndoBytes, LinesBytes;
      ModelSane();
      var deleted := DeleteSelectionAsUnit();
      if deleted { return; }
      StepOn(lines, cursor);
      if cursor.line == |lines| - 1 && cursor.column == |lines[cursor.line]| { return; }
      PushUndo();
      run, preferredCol := None, None;
      JoinOn();
    }

    /** Removes the unit or the break after the cursor. */
    method JoinOn()
      requires Valid() && anchor.None? && cursor != Pos(|lines| - 1, |lines[|lines| - 1]|)
      modifies this`lines
      ensures Valid() && F.Sane(old(Model())) && old(Model()).at < |old(Model()).text|
      ensures var e := old(Model());
              Model() == e.(text := Splice(e.text, e.at, e.at + 1, []))
    {
      hide Join, Offset, FlattenAll, UndoBytes;
      ModelSane();
      StepOn(lines, cursor);
      var line, column := cursor.line, cursor.column;
      ghost var target := if column == |lines[line]| then Pos(line + 1, 0) else Pos(line, column + 1);
      CutSplices(lines, cursor, target);
      if column == |lines[line]| {
        var next := lines[line + 1];
        lines := lines[..line + 1] + lines[line + 2..];
        lines := lines[line := lines[line] + next];
      } else {
        lines := lines[line := lines[line][..column] + lines[line][column + 1..]];
      }
      if column == |old(lines)[line]| { CutJoin(old(lines), line); } else { CutInLine(old(lines), line, column, column + 1); }
    }

    /** The text with the cursor's place in it. */
    method FlatOffset() returns (text: seq<Unit>, offset: nat)
      requires Valid()
      ensures text == Join(lines) && offset == Offset(lines, cursor)
    {
      hide Join;
      offset := 0;
      var i := 0;
      assert lines[..0] == [];
      while i < cursor.line
        invariant 0 <= i <= cursor.line
        invariant offset == |Before(lines[..i])|
      {
        BeforeSnoc(lines, i);
        offset := offset + |lines[i]| + 1;
        i := i + 1;
      }
      text := Join(lines);
      offset := offset + cursor.column;
    }

    /** The place of an offset in the text. */
    method PosOfOffset(offset: nat) returns (p: Pos)
      requires Valid()
      ensures p == PosOf(lines, offset)
    {
      var rest: nat, index: nat := offset, 0;
      while index < |lines|
        invariant index <= |lines|
        invariant index < |lines| ==> PosFrom(lines, index, rest) == PosOf(lines, offset)
        invariant index == |lines| ==> PosOf(lines, offset) == Pos(|lines| - 1, |lines[|lines| - 1]|)
      {
        if rest <= |lines[index]| { return Pos(index, rest); }
        rest := rest - (|lines[index]| + 1);
        index := index + 1;
      }
      p := Pos(|lines| - 1, |lines[|lines| - 1]|);
    }

    /** The start of the current or previous word. */
    method WordLeftPos() returns (p: Pos)
      requires Valid()
      ensures F.Sane(Model()) && ValidPos(lines, p) && Offset(lines, p) == F.WordLeft(Model().text, Model().at)
    {
      hide Join, Offset, FlattenAll;
      ModelSane();
      var text, offset := FlatOffset();
      var i := offset;
      while i > 0 && !F.InWord(text[i - 1])
        invariant i <= offset && F.SkipBack(text, i, false) == F.SkipBack(text, offset, false)
      {
        i := i - 1;
      }
      ghost var mid := i;
      while i > 0 && F.InWord(text[i - 1])
        invariant i <= mid && F.SkipBack(text, i, true) == F.SkipBack(text, mid, true)
      {
        i := i - 1;
      }
      PosInverts(lines, i);
      p := PosOfOffset(i);
    }

    /** The end of the current or next word. */
    method WordRightPos() returns (p: Pos)
      requires Valid()
      ensures F.Sane(Model()) && ValidPos(lines, p) && Offset(lines, p) == F.WordRight(Model().text, Model().at)
    {
      hide Join, Offset, FlattenAll;
      ModelSane();
      var text, offset := FlatOffset();
      var i := offset;
      while i < |text| && !F.InWord(text[i])
        invariant offset <= i <= |text| && F.SkipOn(text, i, false) == F.SkipOn(text, offset, false)
      {
        i := i + 1;
      }
      ghost var mid := i;
      while i < |text| && F.InWord(text[i])
        invariant mid <= i <= |text| && F.SkipOn(text, i, true) == F.SkipOn(text, mid, true)
      {
        i := i + 1;
      }
      PosInverts(lines, i);
      p := PosOfOffset(i);
    }

    method DeleteWordBack()
      requires Valid()
      modifies this
      ensures Valid() && scroll == old(scroll)
      ensures F.Sane(old(Model())) && Model() == F.DeleteWordBack(old(Model()))
    {
      hide Join, Offset, FlattenAll, F.Evict, F.CutSelection, F.Selection, F.WordLeft, UndoBytes, Cut;
      ModelSane();
      var deleted := DeleteSelectionAsUnit();
      if deleted { return; }
      var target := WordLeftPos();
      OffsetOrder(lines, target, cursor);
      OffsetOrder(lines, cursor, target);
      if target == cursor { return; }
      PushUndo();
      CutSplices(lines, target, cursor);
      DeleteRange(target, cursor);
      run, preferredCol := None, None;
    }

    method DeleteWordForward()
      requires Valid()
      modifies this
      ensures Valid() && scroll == old(scroll)
      ensures F.Sane(old(Model())) && Model() == F.DeleteWordForward(old(Model()))
    {
      hide Join, Offset, FlattenAll, F.Evict, F.CutSelection, F.Selection, F.WordRight, UndoBytes, Cut;
      ModelSane();
      var deleted := DeleteSelectionAsUnit();
      if deleted { return; }
      var target := WordRightPos();
      OffsetOrder(lines, target, cursor);
      OffsetOrder(lines, cursor, target);
      if target == cursor { return; }
      PushUndo();
      CutSplices(lines, cursor, target);
      DeleteRange(cursor, target);
      run, preferredCol := None, None;
    }

    /** The one cursor setter: a move extends or drops the selection and ends a run. */
    method MoveTo(p: Pos, select: bool)
      requires Valid() && ValidPos(lines, p)
      modifies this`cursor, this`anchor, this`run
      ensures Valid() && F.Sane(old(Model())) && Offset(lines, p) <= |old(Model()).text|
      ensures Model() == F.Move(old(Model()), Offset(lines, p), select)
    {
      hide Join, Offset, FlattenAll;
      ModelSane();
      JoinSplit(lines, p);
      if select {
        if anchor.None? { anchor := Some(cursor); }
      } else {
        anchor := None;
      }
      cursor := p;
      run := None;
    }

    method MoveLeft(select: bool)
      requires Valid()
      modifies this
      ensures Valid() && scroll == old(scroll)
      ensures F.Sane(old(Model())) && Model() == F.Left(old(Model()), select)
    {
      hide Join, Offset, FlattenAll, F.Move;
      ModelSane();
      preferredCol := None;
      StepBack(lines, cursor);
      MoveTo(if cursor.column > 0 then Pos(cursor.line, cursor.column - 1)
             else if cursor.line > 0 then Pos(cursor.line - 1, |lines[cursor.line - 1]|)
             else Pos(0, 0), select);
    }

    method MoveRight(select: bool)
      requires Valid()
      modifies this
      ensures Valid() && scroll == old(scroll)
      ensures F.Sane(old(Model())) && Model() == F.Right(old(Model()), select)
    {
      hide Join, Offset, FlattenAll, F.Move;
      ModelSane();
      preferredCol := None;
      StepOn(lines, cursor);
      MoveTo(if cursor.column < |lines[cursor.line]| then Pos(cursor.line, cursor.column + 1)
             else if cursor.line + 1 < |lines| then Pos(cursor.line + 1, 0)
             else cursor, select);
    }

    /** Columns before `column` on the line. */
    method DisplayColumn(line: Line, column: nat) returns (width: nat)
      requires column <= |line|
      ensures width == LineWidth(line[..column])
    {
      width := 0;
      var i := 0;
      assert line[..0] == [];
      while i < column
        invariant 0 <= i <= column && width == LineWidth(line[..i])
      {
        assert line[..i + 1][..i] == line[..i];
        width := width + line[i].width;
        i := i + 1;
      }
    }

    /** The last column whose display end stays within `preferred`. */
    method ColumnAtWidth(line: Line, preferred: nat) returns (column: nat)
      ensures column <= |line| && column == ReachColumn(line, 0, preferred)
    {
      var x := 0;
      column := 0;
      while column < |line| && x + line[column].width <= preferred
        invariant column <= |line| && x <= preferred
        invariant ReachColumn(line, column, preferred - x) == ReachColumn(line, 0, preferred)
        decreases |line| - column
      {
        x := x + line[column].width;
        column := column + 1;
      }
    }

    method PreferredColumn() returns (preferred: nat)
      requires Valid()
      ensures F.Sane(Model()) && preferred == F.Preferred(Model())
    {
      hide Join, FlattenAll, F.WidthOf, Offset, F.LineStart;
      ModelSane();
      if preferredCol.Some? { return preferredCol.value; }
      preferred := DisplayColumn(lines[cursor.line], cursor.column);
      LineBounds(lines, cursor);
      LineHead(lines, cursor);
      WidthIs(lines[cursor.line][..cursor.column]);
    }

    /** On the line above, the column the preferred width reaches; on the first
        line, its start. */
    method TargetAbove(preferred: nat) returns (p: Pos)
      requires Valid()
      ensures ValidPos(lines, p) && F.Sane(Model())
      ensures var text := Model().text;
              var start := F.LineStart(text, Model().at);
              Offset(lines, p) == if start == 0 then 0 else F.Reach(text, F.LineStart(text, start - 1), start - 1, preferred)
    {
      hide Join, FlattenAll, F.LineStart, F.Reach, ReachColumn, Offset;
      ModelSane();
      LineBounds(lines, cursor);
      StepBack(lines, Pos(cursor.line, 0));
      StepBack(lines, Pos(0, 0));
      if cursor.line == 0 { return Pos(0, 0); }
      var l := cursor.line - 1;
      var column := ColumnAtWidth(lines[l], preferred);
      p := Pos(l, column);
      LineBounds(lines, Pos(l, |lines[l]|));
      ReachLine(lines, l, preferred);
    }

    method TargetBelow(preferred: nat) returns (p: Pos)
      requires Valid()
      ensures ValidPos(lines, p) && F.Sane(Model())
      ensures var text := Model().text;
              var end := F.LineEnd(text, Model().at);
              Offset(lines, p) == if end == |text| then end else F.Reach(text, end + 1, F.LineEnd(text, end + 1), preferred)
    {
      hide Join, FlattenAll, F.LineEnd, F.Reach, ReachColumn, Offset;
      ModelSane();
      LineBounds(lines, cursor);
      p := Pos(cursor.line, |lines[cursor.line]|);
      StepOn(lines, p);
      if cursor.line + 1 == |lines| { return; }
      var l := cursor.line + 1;
      var column := ColumnAtWidth(lines[l], preferred);
      p := Pos(l, column);
      LineBounds(lines, Pos(l, 0));
      ReachLine(lines, l, preferred);
    }

    method MoveUp(select: bool)
      requires Valid()
      modifies this
      ensures Valid() && scroll == old(scroll)
      ensures F.Sane(old(Model())) && Model() == F.Up(old(Model()), select)
    {
      hide Join, FlattenAll, F.Move, F.Preferred, F.LineStart, F.Reach, Offset;
      ModelSane();
      var preferred := PreferredColumn();
      var p := TargetAbove(preferred);
      preferredCol := Some(preferred);
      MoveTo(p, select);
    }

    method MoveDown(select: bool)
      requires Valid()
      modifies this
      ensures Valid() && scroll == old(scroll)
      ensures F.Sane(old(Model())) && Model() == F.Down(old(Model()), select)
    {
      hide Join, FlattenAll, F.Move, F.Preferred, F.LineEnd, F.Reach, Offset;
      ModelSane();
      var preferred := PreferredColumn();
      var p := TargetBelow(preferred);
      preferredCol := Some(preferred);
      MoveTo(p, select);
    }

    method MoveHome(select: bool)
      requires Valid()
      modifies this
      ensures Valid() && scroll == old(scroll)
      ensures F.Sane(old(Model())) && Model() == F.Home(old(Model()), select)
    {
      hide Join, FlattenAll, F.Move, F.LineStart, F.LineEnd, Offset;
      ModelSane();
      LineBounds(lines, cursor);
      preferredCol := None;
      MoveTo(Pos(cursor.line, 0), select);
    }

    method MoveEnd(select: bool)
      requires Valid()
      modifies this
      ensures Valid() && scroll == old(scroll)
      ensures F.Sane(old(Model())) && Model() == F.End(old(Model()), select)
    {
      hide Join, FlattenAll, F.Move, F.LineStart, F.LineEnd, Offset;
      ModelSane();
      LineBounds(lines, cursor);
      preferredCol := None;
      MoveTo(Pos(cursor.line, |lines[cursor.line]|), select);
    }

    method MoveWordLeft(select: bool)
      requires Valid()
      modifies this
      ensures Valid() && scroll == old(scroll)
      ensures F.Sane(old(Model())) && Model() == F.MoveWordLeft(old(Model()), select)
    {
      hide Join, FlattenAll, F.Move, F.WordLeft, Offset;
      ModelSane();
      preferredCol := None;
      var p := WordLeftPos();
      MoveTo(p, select);
    }

    method MoveWordRight(select: bool)
      requires Valid()
      modifies this
      ensures Valid() && scroll == old(scroll)
      ensures F.Sane(old(Model())) && Model() == F.MoveWordRight(old(Model()), select)
    {
      hide Join, FlattenAll, F.Move, F.WordRight, Offset;
      ModelSane();
      preferredCol := None;
      var p := WordRightPos();
      MoveTo(p, select);
    }

    /** Resets to empty, undoably. */
    method Clear()
      requires Valid()
      modifies this
      ensures Valid() && scroll == old(scroll)
      ensures F.Sane(old(Model())) && Model() == F.Clear(old(Model()))
    {
      hide FlattenAll, F.Evict, UndoBytes;
      ModelSane();
      EmptyText(lines);
      if |lines| == 1 && lines[0] == [] && anchor.None? { return; }
      PushUndo();
      lines := [[]];
      cursor, anchor, preferredCol, run := Pos(0, 0), None, None, None;
      assert Join([[]]) == [] && lines[..0] == [];
    }

    /** Back to the newest unit; false when there is none. */
    method UndoNewest() returns (undone: bool)
      requires Valid()
      modifies this
      ensures Valid() && scroll == old(scroll)
      ensures (Model(), undone) == F.Undo(old(Model()))
      ensures undone ==> old(undo) != [] && lines == old(undo[|undo| - 1].lines) && cursor == old(undo[|undo| - 1].cursor)
    {
      hide Join, Offset, LinesBytes, UndoBytes, FlattenAll;
      if undo == [] { return false; }
      var unit := undo[|undo| - 1];
      PoppedUnit(undo);
      undoBytes := undoBytes - LinesBytes(unit.lines);
      undo := undo[..|undo| - 1];
      lines, cursor := unit.lines, unit.cursor;
      anchor, preferredCol, run := None, None, None;
      undone := true;
    }
  }

  lemma {:induction false} PoppedUnit(undo: seq<UndoUnit>)
    requires UnitsOk(undo) && undo != []
    ensures var n := |undo| - 1;
            && UnitsOk(undo[..n]) && FlattenAll(undo[..n]) == FlattenAll(undo)[..n]
            && UndoBytes(undo) == UndoBytes(undo[..n]) + LinesBytes(undo[n].lines)
            && FlattenAll(undo)[n] == Flatten(undo[n])
  {
    hide Flatten, LinesBytes, UndoBytes, UnitOk;
    var n := |undo| - 1;
    UndoBytesSnoc(undo[..n], undo[n]);
    assert undo == undo[..n] + [undo[n]];
  }

  lemma {:induction false} EmptyText(lines: seq<Line>)
    requires lines != []
    ensures Join(lines) == [] <==> |lines| == 1 && lines[0] == []
  {
    LineInText(lines, 0);
    assert lines[..0] == [];
  }
}
