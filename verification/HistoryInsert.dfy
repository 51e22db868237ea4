/**
 Writing finished rows into a terminal's own history, above a band that stays
 at the bottom: the programs of control functions, and the code that emits them.
 */
module HistoryInsert {
  import opened Prelude
  import opened Terminals

  /** A terminal that loses rows leaving a partial region takes the full screen. */
  datatype Strategy = Standard | FullScreen

  function ForTerminal(zellij: bool, windowsTerminal: bool): Strategy {
    if windowsTerminal && !zellij then FullScreen else Standard
  }

  /** The band: full width, from row `y`. */
  datatype Rect = Rect(y: nat, height: nat)

  // ---------------------------------------------------------------- the programs

  function ClearLines(top: nat, height: nat): seq<Op>
    decreases height - top
  {
    if top >= height then [] else ClearLines(top, height - 1) + [MoveTo(0, height - 1), Terminals.ClearLine]
  }

  /** Row by row at the origin, so that no terminal copies the screen first. */
  function ClearBelowOps(top: nat, height: nat): seq<Op> {
    if top == 0 then ClearLines(0, height) else [MoveTo(0, top), ClearDown]
  }

  /** Rows one under the other from the cursor on. */
  function LinesOps(rows: seq<Line>): seq<Op> {
    if rows == [] then []
    else LinesOps(rows[..|rows| - 1]) + (if |rows| > 1 then [Newline] else []) + RowOps(rows[|rows| - 1])
  }

  /** Rows pushed in at the bottom margin. */
  function ScrollOps(rows: seq<Line>): seq<Op> {
    if rows == [] then [] else ScrollOps(rows[..|rows| - 1]) + ([Newline] + RowOps(rows[|rows| - 1]))
  }

  function BandOps(height: nat): seq<Op> {
    if height == 0 then [] else BandOps(height - 1) + [Newline, ClearRight]
  }

  function NewlineOps(count: nat): seq<Op> {
    if count == 0 then [] else NewlineOps(count - 1) + [Newline]
  }

  const CLEANUP: seq<Op> := [RegionReset, ResetPen]

  /** The band, clipped to the screen. */
  function Clip(area: Rect, height: nat): Rect {
    var h := Min(area.height, height);
    Rect(Min(area.y, height - h), h)
  }

  /** How many rows the blank space under the band takes. */
  function Pushed(area: Rect, height: nat, n: nat): nat {
    var a := Clip(area, height);
    Min(n, height - a.y - a.height)
  }

  function NewArea(area: Rect, height: nat, n: nat): Rect {
    var a := Clip(area, height);
    Rect(a.y + Pushed(area, height, n), a.height)
  }

  function BodyOps(rows: seq<Line>, pushed: nat, area: Rect, strategy: Strategy): seq<Op>
    requires pushed <= |rows|
  {
    if strategy == FullScreen || area.y < 2 then LinesOps(rows) + BandOps(area.height)
    else LinesOps(rows[..pushed])
         + (if pushed < |rows| then [Region(area.y), MoveTo(0, area.y - 1)] + ScrollOps(rows[pushed..]) else [])
  }

  function InsertPayload(rows: seq<Line>, area: Rect, height: nat, strategy: Strategy): seq<Op> {
    var top := Clip(area, height).y;
    [ResetPen] + ClearBelowOps(top, height)
    + ([MoveTo(0, top)] + BodyOps(rows, Pushed(area, height, |rows|), NewArea(area, height, |rows|), strategy))
  }

  function InsertOps(rows: seq<Line>, area: Rect, height: nat, strategy: Strategy): seq<Op> {
    InsertPayload(rows, area, height, strategy) + CLEANUP
  }

  function ScrollStart(bottom: nat, height: nat, strategy: Strategy): seq<Op> {
    if strategy == Standard && bottom > 1 then [Region(bottom), MoveTo(0, bottom - 1)]
    else (if bottom < height then ClearBelowOps(bottom, height) else [])
         + [MoveTo(0, if height == 0 then 0 else height - 1)]
  }

  function ScrollPayload(bottom: nat, height: nat, count: nat, strategy: Strategy): seq<Op> {
    [ResetPen] + ScrollStart(bottom, height, strategy) + NewlineOps(count)
  }

  function ScrollHistoryOps(bottom: nat, height: nat, count: nat, strategy: Strategy): seq<Op> {
    ScrollPayload(bottom, height, count, strategy) + CLEANUP
  }

  // --------------------------------------------------------------- emitting them

  /** The output stream; `script` says which of the next writes fail. */
  class Writer {
    var written: seq<Op>
    var script: seq<bool>

    constructor (script: seq<bool>)
      ensures written == [] && this.script == script
    {
      written, this.script := [], script;
    }

    method Put(op: Op) returns (ok: bool)
      modifies this
      ensures Wrote(old(written), written, [op], ok)
      ensures old(script) == [] ==> ok && script == []
    {
      ok := script == [] || script[0];
      if script != [] { script := script[1..]; }
      if ok { written := written + [op]; }
      assert ok || written + [] == written;
    }
  }

  /** All of `ops` when it went well, and never anything else than a prefix. */
  predicate Wrote(before: seq<Op>, after: seq<Op>, ops: seq<Op>, ok: bool) {
    before <= after <= before + ops && (ok ==> after == before + ops)
  }

  lemma {:induction false} WroteThen(a: seq<Op>, b: seq<Op>, c: seq<Op>, first: seq<Op>, second: seq<Op>, ok: bool)
    requires Wrote(a, b, first, true) && Wrote(b, c, second, ok)
    ensures Wrote(a, c, first + second, ok)
  {
    ConcatAssoc(a, first, second);
  }

  lemma {:induction false} WroteHalf(a: seq<Op>, b: seq<Op>, some: seq<Op>, all: seq<Op>)
    requires Wrote(a, b, some, false) && some <= all
    ensures Wrote(a, b, all, false)
  {
    ConcatAssoc(a, some, all[|some|..]);
    assert all == some + all[|some|..];
    assert b == (a + some)[..|b|] == (a + all)[..|b|];
  }

  lemma {:induction false} WroteNone(a: seq<Op>)
    ensures Wrote(a, a, [], true)
  {
    assert a + [] == a;
  }

  /** Queues controls one by one, stopping at the first failure. */
  method PutAll(w: Writer, ops: seq<Op>) returns (ok: bool)
    modifies w
    ensures Wrote(old(w.written), w.written, ops, ok)
  {
    var start := w.written;
    ok := true;
    var i := 0;
    WroteNone(start);
    while i < |ops| && ok
      invariant 0 <= i <= |ops|
      invariant Wrote(start, w.written, ops[..i], ok)
    {
      var before := w.written;
      ok := w.Put(ops[i]);
      WroteThen(start, before, w.written, ops[..i], [ops[i]], ok);
      assert ops[..i + 1] == ops[..i] + [ops[i]];
      i := i + 1;
    }
    if !ok { WroteHalf(start, w.written, ops[..i], ops); } else { assert ops[..i] == ops; }
  }

  lemma {:induction false} ClearLinesPrefix(i: nat, n: nat)
    requires i <= n
    ensures ClearLines(0, i) <= ClearLines(0, n)
    decreases n
  {
    if i < n { ClearLinesPrefix(i, n - 1); }
  }

  method ClearBelow(w: Writer, top: nat, height: nat) returns (ok: bool)
    modifies w
    ensures Wrote(old(w.written), w.written, ClearBelowOps(top, height), ok)
  {
    if top != 0 {
      ok := PutAll(w, [MoveTo(0, top), ClearDown]);
      return;
    }
    var start := w.written;
    ok := true;
    var row: nat := 0;
    WroteNone(start);
    while row < height && ok
      invariant row <= height
      invariant Wrote(start, w.written, ClearLines(0, row), ok)
    {
      var before := w.written;
      ok := PutAll(w, [MoveTo(0, row), Terminals.ClearLine]);
      WroteThen(start, before, w.written, ClearLines(0, row), [MoveTo(0, row), Terminals.ClearLine], ok);
      row := row + 1;
    }
    if !ok {
      ClearLinesPrefix(row, height);
      WroteHalf(start, w.written, ClearLines(0, row), ClearLines(0, height));
    }
  }

  lemma {:induction false} SpansSnoc(spans: seq<Span>, base: Style)
    requires spans != []
    ensures SpansOps(spans, base) == SpansOps(spans[..|spans| - 1], base) + SpanOps(spans[|spans| - 1], base)
    decreases |spans|
  {
    hide SpanOps;
    if |spans| == 1 {
      assert spans[..0] == [] && spans[1..] == [];
    } else {
      SpansSnoc(spans[1..], base);
      assert spans[1..][..|spans| - 2] == spans[..|spans| - 1][1..];
      ConcatAssoc(SpanOps(spans[0], base), SpansOps(spans[1..][..|spans| - 2], base), SpanOps(spans[|spans| - 1], base));
    }
  }

  lemma {:induction false} SpansPrefix(spans: seq<Span>, i: nat, base: Style)
    requires i <= |spans|
    ensures SpansOps(spans[..i], base) <= SpansOps(spans, base)
    decreases |spans|
  {
    if i < |spans| {
      SpansSnoc(spans, base);
      SpansPrefix(spans[..|spans| - 1], i, base);
      assert spans[..|spans| - 1][..i] == spans[..i];
    } else {
      assert spans[..i] == spans;
    }
  }

  method WriteSpans(w: Writer, line: Line) returns (ok: bool)
    modifies w
    ensures Wrote(old(w.written), w.written, SpansOps(line.spans, line.style), ok)
  {
    hide SpansOps;
    var start := w.written;
    ok := true;
    var i := 0;
    WroteNone(start);
    assert SpansOps(line.spans[..0], line.style) == [] by { NoSpans(line.style); }
    while i < |line.spans| && ok
      invariant 0 <= i <= |line.spans|
      invariant Wrote(start, w.written, SpansOps(line.spans[..i], line.style), ok)
    {
      var span := line.spans[i];
      var before := w.written;
      var style := Patch(line.style, span.style).(sub := {});
      ok := PutAll(w, [ResetPen, SetPen(style), Print(span.text)]);
      WroteThen(start, before, w.written, SpansOps(line.spans[..i], line.style), SpanOps(span, line.style), ok);
      assert line.spans[..i + 1][..i] == line.spans[..i];
      SpansSnoc(line.spans[..i + 1], line.style);
      i := i + 1;
    }
    if !ok {
      SpansPrefix(line.spans, i, line.style);
      WroteHalf(start, w.written, SpansOps(line.spans[..i], line.style), SpansOps(line.spans, line.style));
    } else {
      assert line.spans[..i] == line.spans;
    }
  }

  lemma {:induction false} NoSpans(base: Style)
    ensures SpansOps([], base) == []
  {
  }

  method WriteRow(w: Writer, line: Line) returns (ok: bool)
    modifies w
    ensures Wrote(old(w.written), w.written, RowOps(line), ok)
  {
    hide SpansOps;
    var start := w.written;
    var spans := [ClearRight] + SpansOps(line.spans, line.style);
    ok := w.Put(ClearRight);
    if !ok {
      WroteHalf(start, w.written, [ClearRight], RowOps(line));
      return;
    }
    var cleared := w.written;
    ok := WriteSpans(w, line);
    WroteThen(start, cleared, w.written, [ClearRight], SpansOps(line.spans, line.style), ok);
    if !ok {
      WroteHalf(start, w.written, spans, RowOps(line));
      return;
    }
    var spanned := w.written;
    ok := w.Put(ResetPen);
    WroteThen(start, spanned, w.written, spans, [ResetPen], ok);
  }

  lemma {:induction false} LinesPrefix(rows: seq<Line>, i: nat)
    requires i <= |rows|
    ensures LinesOps(rows[..i]) <= LinesOps(rows) && ScrollOps(rows[..i]) <= ScrollOps(rows)
    decreases |rows|
  {
    hide RowOps;
    if i < |rows| {
      LinesPrefix(rows[..|rows| - 1], i);
      assert rows[..|rows| - 1][..i] == rows[..i];
    } else {
      assert rows[..i] == rows;
    }
  }

  /** Rows one under the other: a line break between rows, none before the first. */
  method WriteLines(w: Writer, rows: seq<Line>) returns (ok: bool)
    modifies w
    ensures Wrote(old(w.written), w.written, LinesOps(rows), ok)
  {
    hide RowOps;
    var start := w.written;
    ok := true;
    var i := 0;
    WroteNone(start);
    while i < |rows| && ok
      invariant 0 <= i <= |rows|
      invariant Wrote(start, w.written, LinesOps(rows[..i]), ok)
    {
      assert rows[..i + 1][..i] == rows[..i];
      var before := w.written;
      ok := WriteNext(w, rows[i], i > 0);
      var next := (if i > 0 then [Newline] else []) + RowOps(rows[i]);
      WroteThen(start, before, w.written, LinesOps(rows[..i]), next, ok);
      ConcatAssoc(LinesOps(rows[..i]), if i > 0 then [Newline] else [], RowOps(rows[i]));
      i := i + 1;
    }
    if !ok {
      LinesPrefix(rows, i);
      WroteHalf(start, w.written, LinesOps(rows[..i]), LinesOps(rows));
    } else {
      assert rows[..i] == rows;
    }
  }

  method WriteNext(w: Writer, line: Line, broken: bool) returns (ok: bool)
    modifies w
    ensures Wrote(old(w.written), w.written, (if broken then [Newline] else []) + RowOps(line), ok)
  {
    hide RowOps;
    var start := w.written;
    ok := true;
    WroteNone(start);
    if broken { ok := w.Put(Newline); }
    var lead := if broken then [Newline] else [];
    if !ok {
      WroteHalf(start, w.written, lead, lead + RowOps(line));
      return;
    }
    var before := w.written;
    ok := WriteRow(w, line);
    WroteThen(start, before, w.written, lead, RowOps(line), ok);
  }

  /** Rows at the bottom margin: a line break before every row. */
  method ScrollLines(w: Writer, rows: seq<Line>) returns (ok: bool)
    modifies w
    ensures Wrote(old(w.written), w.written, ScrollOps(rows), ok)
  {
    hide RowOps;
    var start := w.written;
    ok := true;
    var i := 0;
    WroteNone(start);
    while i < |rows| && ok
      invariant 0 <= i <= |rows|
      invariant Wrote(start, w.written, ScrollOps(rows[..i]), ok)
    {
      assert rows[..i + 1][..i] == rows[..i];
      var before := w.written;
      ok := WriteNext(w, rows[i], true);
      WroteThen(start, before, w.written, ScrollOps(rows[..i]), [Newline] + RowOps(rows[i]), ok);
      i := i + 1;
    }
    if !ok {
      LinesPrefix(rows, i);
      WroteHalf(start, w.written, ScrollOps(rows[..i]), ScrollOps(rows));
    } else {
      assert rows[..i] == rows;
    }
  }

  lemma {:induction false} CountedPrefix(i: nat, n: nat)
    requires i <= n
    ensures BandOps(i) <= BandOps(n) && NewlineOps(i) <= NewlineOps(n)
    decreases n
  {
    if i < n { CountedPrefix(i, n - 1); }
  }

  /** Room for the band, blank. */
  method MakeBand(w: Writer, height: nat) returns (ok: bool)
    modifies w
    ensures Wrote(old(w.written), w.written, BandOps(height), ok)
  {
    var start := w.written;
    ok := true;
    var i: nat := 0;
    WroteNone(start);
    while i < height && ok
      invariant i <= height
      invariant Wrote(start, w.written, BandOps(i), ok)
    {
      var before := w.written;
      ok := PutAll(w, [Newline, ClearRight]);
      WroteThen(start, before, w.written, BandOps(i), [Newline, ClearRight], ok);
      i := i + 1;
    }
    if !ok {
      CountedPrefix(i, height);
      WroteHalf(start, w.written, BandOps(i), BandOps(height));
    }
  }

  method Newlines(w: Writer, count: nat) returns (ok: bool)
    modifies w
    ensures Wrote(old(w.written), w.written, NewlineOps(count), ok)
  {
    var start := w.written;
    ok := true;
    var i: nat := 0;
    WroteNone(start);
    while i < count && ok
      invariant i <= count
      invariant Wrote(start, w.written, NewlineOps(i), ok)
    {
      var before := w.written;
      ok := w.Put(Newline);
      WroteThen(start, before, w.written, NewlineOps(i), [Newline], ok);
      i := i + 1;
    }
    if !ok {
      CountedPrefix(i, count);
      WroteHalf(start, w.written, NewlineOps(i), NewlineOps(count));
    }
  }

  /** The rows and the room for the band, by either strategy. */
  method WriteBody(w: Writer, rows: seq<Line>, pushed: nat, area: Rect, strategy: Strategy) returns (ok: bool)
    requires pushed <= |rows|
    modifies w
    ensures Wrote(old(w.written), w.written, BodyOps(rows, pushed, area, strategy), ok)
  {
    hide LinesOps, ScrollOps, BandOps;
    var start := w.written;
    if strategy == FullScreen || area.y < 2 {
      ok := WriteLines(w, rows);
      if !ok {
        WroteHalf(start, w.written, LinesOps(rows), LinesOps(rows) + BandOps(area.height));
        return;
      }
      var before := w.written;
      ok := MakeBand(w, area.height);
      WroteThen(start, before, w.written, LinesOps(rows), BandOps(area.height), ok);
    } else {
      ok := WriteLines(w, rows[..pushed]);
      var first := LinesOps(rows[..pushed]);
      if !ok || pushed == |rows| {
        if !ok {
          WroteHalf(start, w.written, first, BodyOps(rows, pushed, area, strategy));
        } else {
          assert first + [] == first;
        }
        return;
      }
      var before := w.written;
      var margin := [Region(area.y), MoveTo(0, area.y - 1)];
      ok := PutAll(w, margin);
      WroteThen(start, before, w.written, first, margin, ok);
      ConcatAssoc(first, margin, ScrollOps(rows[pushed..]));
      if !ok {
        WroteHalf(start, w.written, first + margin, BodyOps(rows, pushed, area, strategy));
        return;
      }
      var scrolled := w.written;
      ok := ScrollLines(w, rows[pushed..]);
      WroteThen(start, scrolled, w.written, first + margin, ScrollOps(rows[pushed..]), ok);
    }
  }

  method WriteInsert(w: Writer, rows: seq<Line>, top: nat, height: nat, pushed: nat, area: Rect, strategy: Strategy) returns (ok: bool)
    requires pushed <= |rows|
    modifies w
    ensures Wrote(old(w.written), w.written,
                  [ResetPen] + ClearBelowOps(top, height) + ([MoveTo(0, top)] + BodyOps(rows, pushed, area, strategy)), ok)
  {
    hide ClearBelowOps, BodyOps;
    var start := w.written;
    var cleared := [ResetPen] + ClearBelowOps(top, height);
    var body := [MoveTo(0, top)] + BodyOps(rows, pushed, area, strategy);
    ok := w.Put(ResetPen);
    if !ok {
      WroteHalf(start, w.written, [ResetPen], cleared + body);
      return;
    }
    var a := w.written;
    ok := ClearBelow(w, top, height);
    WroteThen(start, a, w.written, [ResetPen], ClearBelowOps(top, height), ok);
    if !ok {
      WroteHalf(start, w.written, cleared, cleared + body);
      return;
    }
    var b := w.written;
    ok := w.Put(MoveTo(0, top));
    WroteThen(start, b, w.written, cleared, [MoveTo(0, top)], ok);
    ConcatAssoc(cleared, [MoveTo(0, top)], BodyOps(rows, pushed, area, strategy));
    if !ok {
      WroteHalf(start, w.written, cleared + [MoveTo(0, top)], cleared + body);
      return;
    }
    var c := w.written;
    ok := WriteBody(w, rows, pushed, area, strategy);
    WroteThen(start, c, w.written, cleared + [MoveTo(0, top)], BodyOps(rows, pushed, area, strategy), ok);
  }

  /** Re-wraps the rows that are too wide, in place among the others. */
  method RewrapRows(wrap: Wrapper, rows: seq<Line>, width: nat) returns (output: seq<Line>)
    requires width >= 1
    ensures output == Rewrapped(wrap, rows, width)
  {
    output := [];
    for i := 0 to |rows|
      invariant output == Rewrapped(wrap, rows[..i], width)
    {
      assert rows[..i + 1][..i] == rows[..i];
      output := output + (if Fits(rows[i], width) then [rows[i]] else wrap(rows[i], width));
    }
    assert rows[..|rows|] == rows;
  }

  function AtLeastOne(width: nat): (w: nat)
    ensures w >= 1 && (width >= 1 ==> w == width)
  {
    if width >= 1 then width else 1
  }

  /** Inserts rows above the band and returns its new place. The margins are reset
      even when a write failed: what was written is a prefix of the payload, and
      then, as far as the stream takes it, the reset. */
  method Insert(w: Writer, wrap: Wrapper, rows: seq<Line>, requested: Rect, width: nat, height: nat, strategy: Strategy)
    returns (ok: bool, area: Rect)
    modifies w
    ensures var fitted := Rewrapped(wrap, rows, AtLeastOne(width));
            && area == NewArea(requested, height, |fitted|)
            && (ok ==> w.written == old(w.written) + InsertOps(fitted, requested, height, strategy))
            && AttemptedThenReset(old(w.written), w.written, InsertPayload(fitted, requested, height, strategy), ok)
  {
    hide ClearBelowOps, BodyOps, Rewrapped;
    var start := w.written;
    var fitted := RewrapRows(wrap, rows, AtLeastOne(width));
    area := Rect(requested.y, Min(requested.height, height));
    area := area.(y := Min(area.y, height - area.height));
    var oldTop := area.y;
    var pushed := Min(|fitted|, height - (area.y + area.height));
    area := area.(y := area.y + pushed);
    var sent := WriteInsert(w, fitted, oldTop, height, pushed, area, strategy);
    var middle := w.written;
    var cleaned := PutAll(w, CLEANUP);
    ok := sent && cleaned;
    if ok { WroteThen(start, middle, w.written, InsertPayload(fitted, requested, height, strategy), CLEANUP, true); }
  }

  /** Some prefix of the payload went out, and then the reset or a part of it. */
  ghost predicate AttemptedThenReset(before: seq<Op>, after: seq<Op>, payload: seq<Op>, ok: bool) {
    exists middle, sent, cleaned :: Wrote(before, middle, payload, sent) && Wrote(middle, after, CLEANUP, cleaned)
                                    && ok == (sent && cleaned)
  }

  method StartScroll(w: Writer, bottom: nat, height: nat, strategy: Strategy) returns (ok: bool)
    modifies w
    ensures Wrote(old(w.written), w.written, ScrollStart(bottom, height, strategy), ok)
  {
    hide ClearBelowOps;
    var start := w.written;
    if strategy == Standard && bottom > 1 {
      ok := PutAll(w, [Region(bottom), MoveTo(0, bottom - 1)]);
    } else {
      var clear := if bottom < height then ClearBelowOps(bottom, height) else [];
      var last := [MoveTo(0, if height == 0 then 0 else height - 1)];
      ok := true;
      WroteNone(start);
      if bottom < height { ok := ClearBelow(w, bottom, height); }
      if !ok {
        WroteHalf(start, w.written, clear, clear + last);
        return;
      }
      var before := w.written;
      ok := w.Put(last[0]);
      WroteThen(start, before, w.written, clear, last, ok);
    }
  }

  /** Makes room above the band by scrolling history out rather than clearing it. */
  method ScrollHistory(w: Writer, bottom: nat, height: nat, count: nat, strategy: Strategy) returns (ok: bool)
    modifies w
    ensures ok ==> w.written == old(w.written) + ScrollHistoryOps(bottom, height, count, strategy)
    ensures AttemptedThenReset(old(w.written), w.written, ScrollPayload(bottom, height, count, strategy), ok)
  {
    hide ScrollStart, NewlineOps;
    var start := w.written;
    var opening := [ResetPen] + ScrollStart(bottom, height, strategy);
    var payload := ScrollPayload(bottom, height, count, strategy);
    var sent := w.Put(ResetPen);
    if !sent {
      WroteHalf(start, w.written, [ResetPen], payload);
    } else {
      var a := w.written;
      sent := StartScroll(w, bottom, height, strategy);
      WroteThen(start, a, w.written, [ResetPen], ScrollStart(bottom, height, strategy), sent);
      if !sent {
        WroteHalf(start, w.written, opening, payload);
      } else {
        var b := w.written;
        sent := Newlines(w, count);
        WroteThen(start, b, w.written, opening, NewlineOps(count), sent);
      }
    }
    var middle := w.written;
    var cleaned := PutAll(w, CLEANUP);
    ok := sent && cleaned;
    if ok { WroteThen(start, middle, w.written, payload, CLEANUP, true); }
  }
}
