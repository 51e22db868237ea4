/**
 A terminal as far as inline history depends on it: a screen of cells over an
 unbounded scrollback, a scrolling region from the first row, a pen, and the two
 ways terminals differ.
 */
module Terminals {
  import opened Prelude

  datatype Pen = Pen(fore: Option<string>, back: Option<string>, modifiers: set<string>)

  const PLAIN := Pen(None, None, {})

  /** A wide glyph leads and then continues. */
  datatype Cell = Cell(text: string, pen: Pen) | Continuation

  type Row = seq<Cell>

  /** An indivisible printed unit, `extra + 1` columns wide. */
  datatype Glyph = Glyph(text: string, extra: nat)

  /** What a span asks for: colours, modifiers to add and to remove. */
  datatype Style = Style(fore: Option<string>, back: Option<string>, add: set<string>, sub: set<string>)

  /** `keepsRegionScroll`: a row leaving a partial region enters scrollback.
      `copiesOnClear`: erasing down from the origin first copies the screen. */
  datatype Quirks = Quirks(keepsRegionScroll: bool, copiesOnClear: bool)

  /** `region` rows from the top scroll; `x == width` is a pending wrap. */
  datatype Term = Term(
    width: nat,
    height: nat,
    quirks: Quirks,
    scrollback: seq<Row>,
    screen: seq<Row>,
    x: nat,
    y: nat,
    region: nat,
    pen: Pen)

  predicate Wf(t: Term) {
    && t.width >= 1 && t.height >= 1 && |t.screen| == t.height
    && (forall r :: 0 <= r < |t.screen| ==> |t.screen[r]| == t.width)
    && t.x <= t.width && t.y < t.height && 1 <= t.region <= t.height
  }

  /** Same size, same terminal. */
  predicate Alike(t: Term, u: Term) {
    t.width == u.width && t.height == u.height && t.quirks == u.quirks
  }

  /** Erasing takes the pen's background along. */
  function Erased(pen: Pen): Cell {
    Cell(" ", Pen(None, pen.back, {}))
  }

  const BLANK := Cell(" ", PLAIN)

  function Fill(n: nat, c: Cell): (r: Row)
    ensures |r| == n && forall i :: 0 <= i < n ==> r[i] == c
  {
    seq(n, _ => c)
  }

  function BlankRow(width: nat): Row {
    Fill(width, BLANK)
  }

  function BlankRows(n: nat, width: nat): (r: seq<Row>)
    ensures |r| == n && forall i :: 0 <= i < n ==> r[i] == BlankRow(width)
  {
    seq(n, _ => BlankRow(width))
  }

  // -------------------------------------------------------------- the controls

  /** One escape sequence or one run of text. `Newline` is CR LF; `Region(n)` is
      DECSTBM over the first `n` rows. */
  datatype Op =
    | MoveTo(column: nat, row: nat)
    | Newline
    | ClearRight
    | ClearLine
    | ClearDown
    | Region(bottom: nat)
    | RegionReset
    | ResetPen
    | SetPen(style: Style)
    | Print(glyphs: seq<Glyph>)

  function Min(a: nat, b: nat): nat {
    if a <= b then a else b
  }

  /** Down one row, scrolling at the bottom margin: the row that leaves is kept
      when the region is the whole screen or the terminal keeps it anyway. */
  function LineFeed(t: Term): (u: Term)
    requires Wf(t)
    ensures Wf(u) && Alike(t, u) && u.region == t.region && u.pen == t.pen && u.x == t.x
  {
    if t.y == t.region - 1 then
      t.(scrollback := if t.region == t.height || t.quirks.keepsRegionScroll
                       then t.scrollback + [t.screen[0]] else t.scrollback,
         screen := t.screen[1..t.region] + [Fill(t.width, Erased(t.pen))] + t.screen[t.region..])
    else if t.y + 1 < t.height then t.(y := t.y + 1)
    else t
  }

  function EraseFrom(row: Row, x: nat, pen: Pen): (r: Row)
    requires x <= |row|
    ensures |r| == |row|
  {
    row[..x] + Fill(|row| - x, Erased(pen))
  }

  /** The column an erase starts at: a pending wrap still counts as the last one. */
  function Column(t: Term): nat
    requires Wf(t)
  {
    Min(t.x, t.width - 1)
  }

  function Overwrite(row: Row, x: nat, cells: Row): (r: Row)
    requires x + |cells| <= |row|
    ensures |r| == |row|
  {
    row[..x] + cells + row[x + |cells|..]
  }

  function GlyphCells(g: Glyph, pen: Pen): (r: Row)
    ensures |r| == g.extra + 1
  {
    [Cell(g.text, pen)] + Fill(g.extra, Continuation)
  }

  /** Prints where it fits, wrapping first when the row is full. */
  function PrintGlyph(t: Term, g: Glyph): (u: Term)
    requires Wf(t)
    ensures Wf(u) && Alike(t, u) && u.region == t.region && u.pen == t.pen
  {
    var s := if t.x + g.extra + 1 > t.width then LineFeed(t.(x := 0)) else t;
    if s.x + g.extra + 1 > s.width then s
    else s.(screen := s.screen[s.y := Overwrite(s.screen[s.y], s.x, GlyphCells(g, s.pen))], x := s.x + g.extra + 1)
  }

  function PrintAll(t: Term, glyphs: seq<Glyph>): (u: Term)
    requires Wf(t)
    ensures Wf(u) && Alike(t, u) && u.region == t.region && u.pen == t.pen
    decreases |glyphs|
  {
    if glyphs == [] then t else PrintAll(PrintGlyph(t, glyphs[0]), glyphs[1..])
  }

  function Over<T>(base: Option<T>, top: Option<T>): Option<T> {
    if top.Some? then top else base
  }

  function Exec(t: Term, op: Op): (u: Term)
    requires Wf(t)
    ensures Wf(u) && Alike(t, u)
  {
    match op
    case MoveTo(column, row) => t.(x := Min(column, t.width - 1), y := Min(row, t.height - 1))
    case Newline => LineFeed(t.(x := 0))
    case ClearRight => t.(screen := t.screen[t.y := EraseFrom(t.screen[t.y], Column(t), t.pen)])
    case ClearLine => t.(screen := t.screen[t.y := EraseFrom(t.screen[t.y], 0, t.pen)])
    case ClearDown =>
      t.(scrollback := if t.quirks.copiesOnClear && t.x == 0 && t.y == 0 then t.scrollback + t.screen else t.scrollback,
         screen := t.screen[..t.y] + [EraseFrom(t.screen[t.y], Column(t), t.pen)]
                   + seq(t.height - t.y - 1, _ => Fill(t.width, Erased(t.pen))))
    case Region(bottom) => if Min(bottom, t.height) >= 2 then t.(region := Min(bottom, t.height), x := 0, y := 0) else t
    case RegionReset => t.(region := t.height, x := 0, y := 0)
    case ResetPen => t.(pen := PLAIN)
    case SetPen(style) =>
      t.(pen := Pen(Over(t.pen.fore, style.fore), Over(t.pen.back, style.back), (t.pen.modifiers - style.sub) + style.add))
    case Print(glyphs) => PrintAll(t, glyphs)
  }

  function ExecAll(t: Term, ops: seq<Op>): (u: Term)
    requires Wf(t)
    ensures Wf(u) && Alike(t, u)
    decreases |ops|
  {
    if ops == [] then t else ExecAll(Exec(t, ops[0]), ops[1..])
  }

  lemma {:induction false} ExecConcat(t: Term, a: seq<Op>, b: seq<Op>)
    requires Wf(t)
    ensures ExecAll(t, a + b) == ExecAll(ExecAll(t, a), b)
    decreases |a|
  {
    hide Exec;
    if a == [] {
      assert a + b == b;
    } else {
      ExecConcat(Exec(t, a[0]), a[1..], b);
      assert (a + b)[0] == a[0] && (a + b)[1..] == a[1..] + b;
    }
  }

  lemma {:induction false} ExecOne(t: Term, op: Op)
    requires Wf(t)
    ensures ExecAll(t, [op]) == Exec(t, op)
  {
    hide Exec;
    assert [op][1..] == [];
  }

  lemma {:induction false} ExecThree(t: Term, a: Op, b: Op, c: Op)
    requires Wf(t)
    ensures ExecAll(t, [a, b, c]) == Exec(Exec(Exec(t, a), b), c)
  {
    hide Exec;
    var ops := [a, b, c];
    assert ops[1..] == [b, c] && ops[1..][1..] == [c];
    ExecOne(Exec(Exec(t, a), b), c);
  }

  // ------------------------------------------------------ what a row looks like

  /** ratatui's patch: the span's style over the row's. */
  function Patch(base: Style, top: Style): Style {
    Style(Over(base.fore, top.fore), Over(base.back, top.back),
          (base.add - top.sub) + top.add, (base.sub - top.add) + top.sub)
  }

  datatype Span = Span(text: seq<Glyph>, style: Style)

  datatype Line = Line(spans: seq<Span>, style: Style)

  function Cells(text: seq<Glyph>, pen: Pen): (r: Row)
    ensures |r| == TextWidth(text)
  {
    if text == [] then [] else GlyphCells(text[0], pen) + Cells(text[1..], pen)
  }

  function TextWidth(text: seq<Glyph>): nat {
    if text == [] then 0 else text[0].extra + 1 + TextWidth(text[1..])
  }

  function PenOf(style: Style): Pen {
    Pen(style.fore, style.back, style.add)
  }

  function SpanCells(spans: seq<Span>, base: Style): (r: Row)
    ensures |r| == SpansWidth(spans)
  {
    if spans == [] then []
    else Cells(spans[0].text, PenOf(Patch(base, spans[0].style))) + SpanCells(spans[1..], base)
  }

  function SpansWidth(spans: seq<Span>): nat {
    if spans == [] then 0 else TextWidth(spans[0].text) + SpansWidth(spans[1..])
  }

  /** The row takes no more than the screen's width. */
  predicate Fits(line: Line, width: nat) {
    SpansWidth(line.spans) <= width
  }

  predicate AllFit(rows: seq<Line>, width: nat) {
    forall i :: 0 <= i < |rows| ==> Fits(rows[i], width)
  }

  /** What the word wrapper owes a row that is too wide: at least one row, all fitting. */
  ghost predicate Reflows(wrap: (Line, nat) -> seq<Line>) {
    forall line, width: nat :: width >= 1 && !Fits(line, width) ==> wrap(line, width) != [] && AllFit(wrap(line, width), width)
  }

  type Wrapper = wrap: (Line, nat) -> seq<Line> | Reflows(wrap)
    ghost witness (line: Line, width: nat) => [Line([], line.style)]

  /** Rows that fit stay as they are; a row too wide gives way to its re-wrapped rows. */
  function Rewrapped(wrap: Wrapper, rows: seq<Line>, width: nat): (r: seq<Line>)
    requires width >= 1
    ensures AllFit(r, width) && |rows| <= |r|
    ensures AllFit(rows, width) ==> r == rows
  {
    if rows == [] then []
    else
      var last := rows[|rows| - 1];
      assert AllFit(rows, width) ==> AllFit(rows[..|rows| - 1], width) && Fits(last, width);
      Rewrapped(wrap, rows[..|rows| - 1], width) + (if Fits(last, width) then [last] else wrap(last, width))
  }

  /** The cells a row shows: its spans in their own styles, then blanks. */
  function Render(line: Line, width: nat): (r: Row)
    requires Fits(line, width)
    ensures |r| == width
  {
    SpanCells(line.spans, line.style) + Fill(width - SpansWidth(line.spans), BLANK)
  }

  function RenderAll(rows: seq<Line>, width: nat): (r: seq<Row>)
    requires AllFit(rows, width)
    ensures |r| == |rows| && forall i :: 0 <= i < |r| ==> r[i] == Render(rows[i], width)
  {
    seq(|rows|, i requires 0 <= i < |rows| => Render(rows[i], width))
  }

  // ------------------------------------------------------------ history and tape

  /** Everything above the band whose first row is `top`. */
  function History(t: Term, top: nat): seq<Row>
    requires Wf(t) && top <= t.height
  {
    t.scrollback + t.screen[..top]
  }

  /** Scrollback and screen as one roll of rows. */
  function Tape(t: Term): (r: seq<Row>)
    requires Wf(t)
    ensures |r| == |t.scrollback| + t.height
  {
    t.scrollback + t.screen
  }

  /** The whole screen scrolls and the pen is plain: how every operation leaves it. */
  predicate Settled(t: Term) {
    Wf(t) && t.region == t.height && t.pen == PLAIN
  }

  /** The band lies blank below exactly this history. */
  predicate Stands(t: Term, history: seq<Row>, top: nat)
    ensures Stands(t, history, top) ==> Wf(t) && top <= t.height
  {
    && Settled(t) && top <= t.height
    && History(t, top) == history
    && t.screen[top..] == BlankRows(t.height - top, t.width)
  }

  // --------------------------------------------------------------- writing a row

  lemma {:induction false} OverwriteTwice(row: Row, x: nat, a: Row, b: Row)
    requires x + |a| + |b| <= |row|
    ensures Overwrite(Overwrite(row, x, a), x + |a|, b) == Overwrite(row, x, a + b)
  {
  }

  lemma {:induction false} PrintFits(t: Term, glyphs: seq<Glyph>)
    requires Wf(t) && t.x + TextWidth(glyphs) <= t.width
    ensures PrintAll(t, glyphs)
         == t.(screen := t.screen[t.y := Overwrite(t.screen[t.y], t.x, Cells(glyphs, t.pen))], x := t.x + TextWidth(glyphs))
    decreases |glyphs|
  {
    var row := t.screen[t.y];
    if glyphs == [] {
      assert Overwrite(row, t.x, []) == row;
      assert t.screen[t.y := row] == t.screen;
    } else {
      hide Overwrite, GlyphCells;
      var u := PrintGlyph(t, glyphs[0]);
      PrintFits(u, glyphs[1..]);
      OverwriteTwice(row, t.x, GlyphCells(glyphs[0], t.pen), Cells(glyphs[1..], t.pen));
    }
  }

  /** One span: its own style over a plain pen, whatever the pen was. */
  function SpanOps(span: Span, base: Style): seq<Op> {
    [ResetPen, SetPen(Patch(base, span.style).(sub := {})), Print(span.text)]
  }

  function SpansOps(spans: seq<Span>, base: Style): seq<Op> {
    if spans == [] then [] else SpanOps(spans[0], base) + SpansOps(spans[1..], base)
  }

  function RowOps(line: Line): seq<Op> {
    [ClearRight] + SpansOps(line.spans, line.style) + [ResetPen]
  }

  lemma {:induction false} SpanWritten(t: Term, span: Span, base: Style)
    requires Wf(t) && t.x + TextWidth(span.text) <= t.width
    ensures var pen := PenOf(Patch(base, span.style));
            ExecAll(t, SpanOps(span, base))
              == t.(screen := t.screen[t.y := Overwrite(t.screen[t.y], t.x, Cells(span.text, pen))],
                    x := t.x + TextWidth(span.text), pen := pen)
  {
    hide PrintAll, Patch, Overwrite, Cells, TextWidth, ExecAll;
    var style := Patch(base, span.style).(sub := {});
    var b := Exec(Exec(t, ResetPen), SetPen(style));
    assert {} - style.sub + style.add == style.add;
    assert b == t.(pen := PenOf(Patch(base, span.style)));
    ExecThree(t, ResetPen, SetPen(style), Print(span.text));
    PrintFits(b, span.text);
  }

  lemma {:induction false} NoSpansWritten(t: Term)
    requires Wf(t)
    ensures ExecAll(t, []) == t && t.screen[t.y := Overwrite(t.screen[t.y], t.x, [])] == t.screen
  {
    assert Overwrite(t.screen[t.y], t.x, []) == t.screen[t.y];
  }

  lemma {:induction false} SpansWritten(t: Term, spans: seq<Span>, base: Style)
    requires Wf(t) && t.x + SpansWidth(spans) <= t.width
    ensures var u := ExecAll(t, SpansOps(spans, base));
            u.(pen := t.pen)
              == t.(screen := t.screen[t.y := Overwrite(t.screen[t.y], t.x, SpanCells(spans, base))], x := t.x + SpansWidth(spans))
    decreases |spans|
  {
    hide Overwrite, Cells, SpanOps, TextWidth, Exec, ExecAll, Patch, PenOf;
    if spans == [] {
      NoSpansWritten(t);
    } else {
      var row := t.screen[t.y];
      SpanWritten(t, spans[0], base);
      ExecConcat(t, SpanOps(spans[0], base), SpansOps(spans[1..], base));
      SpansWritten(ExecAll(t, SpanOps(spans[0], base)), spans[1..], base);
      OverwriteTwice(row, t.x, Cells(spans[0].text, PenOf(Patch(base, spans[0].style))), SpanCells(spans[1..], base));
    }
  }

  /** A row written from column zero with a plain pen shows exactly its rendering. */
  lemma {:induction false} RowWritten(t: Term, line: Line)
    requires Wf(t) && t.x == 0 && t.pen == PLAIN && Fits(line, t.width)
    ensures ExecAll(t, RowOps(line))
         == t.(screen := t.screen[t.y := Render(line, t.width)], x := SpansWidth(line.spans))
  {
    hide SpansOps, SpanCells, SpansWidth, ExecAll;
    var spans := SpansOps(line.spans, line.style);
    var a := Exec(t, ClearRight);
    ExecOne(t, ClearRight);
    SpansWritten(a, line.spans, line.style);
    ExecConcat(t, [ClearRight], spans);
    var b := ExecAll(a, spans);
    ExecConcat(t, [ClearRight] + spans, [ResetPen]);
    ExecOne(b, ResetPen);
    assert a.screen[a.y] == Fill(t.width, BLANK);
    assert Overwrite(a.screen[a.y], 0, SpanCells(line.spans, line.style)) == Render(line, t.width);
  }
}
