/**
 Inserting is appending: run on the terminal, the emitted programs leave history
 as it was with the new rows after it, and the band blank directly below.
 */
module HistoryLaws {
  import opened Prelude
  import opened Terminals
  import opened HistoryInsert

  // ------------------------------------------------------------ clearing the band

  lemma {:induction false} LinesCleared(t: Term, n: nat)
    requires Settled(t) && n <= t.height
    ensures var u := ExecAll(t, ClearLines(0, n));
            && Settled(u) && u.scrollback == t.scrollback && u.screen == BlankRows(n, t.width) + t.screen[n..]
    decreases n
  {
    hide ExecAll;
    if n == 0 {
      ExecNone(t);
    } else {
      LinesCleared(t, n - 1);
      var u := ExecAll(t, ClearLines(0, n - 1));
      ExecConcat(t, ClearLines(0, n - 1), [MoveTo(0, n - 1), Terminals.ClearLine]);
      ExecTwo(u, MoveTo(0, n - 1), Terminals.ClearLine);
      var v := Exec(Exec(u, MoveTo(0, n - 1)), Terminals.ClearLine);
      assert EraseFrom(u.screen[n - 1], 0, PLAIN) == BlankRow(t.width);
      assert v.screen == BlankRows(n, t.width) + t.screen[n..];
    }
  }

  lemma {:induction false} ExecNone(t: Term)
    requires Wf(t)
    ensures ExecAll(t, []) == t
  {
  }

  lemma {:induction false} ExecTwo(t: Term, a: Op, b: Op)
    requires Wf(t)
    ensures ExecAll(t, [a, b]) == Exec(Exec(t, a), b)
  {
    hide Exec;
    assert [a, b][1..] == [b];
    ExecOne(Exec(t, a), b);
  }

  /** Clearing below a row blanks it and all below, and touches no history, also on
      a terminal that copies the screen when cleared from the origin. */
  lemma {:induction false} ClearedBelow(t: Term, top: nat)
    requires Settled(t) && top < t.height
    ensures Stands(ExecAll(t, ClearBelowOps(top, t.height)), History(t, top), top)
  {
    hide ExecAll, Exec;
    if top == 0 {
      LinesCleared(t, t.height);
      assert t.screen[t.height..] == [];
    } else {
      ExecTwo(t, MoveTo(0, top), ClearDown);
      ErasedDown(t, top);
    }
  }

  lemma {:induction false} ErasedDown(t: Term, top: nat)
    requires Settled(t) && 0 < top < t.height
    ensures Stands(Exec(Exec(t, MoveTo(0, top)), ClearDown), History(t, top), top)
  {
    var u := Exec(Exec(t, MoveTo(0, top)), ClearDown);
    assert EraseFrom(t.screen[top], 0, PLAIN) == BlankRow(t.width);
    assert u.screen[..top] == t.screen[..top];
    assert u.screen[top..] == BlankRows(t.height - top, t.width);
  }

  /** What the row-by-row clear avoids: one erase from the origin copies the band
      into history on exactly the terminals that copy. */
  lemma {:induction false} OriginErase(t: Term)
    requires Settled(t)
    ensures ExecAll(t, [MoveTo(0, 0), ClearDown]).scrollback == t.scrollback <==> !t.quirks.copiesOnClear
  {
    hide ExecAll;
    ExecTwo(t, MoveTo(0, 0), ClearDown);
    assert |t.scrollback + t.screen| != |t.scrollback|;
  }

  // --------------------------------------------------------- the roll of the rows

  /** The cursor is on the last row of `done`, with `m` blank rows below. */
  predicate On(t: Term, done: seq<Row>, m: nat)
    ensures On(t, done, m) ==> Wf(t)
  {
    && Settled(t) && done != []
    && Tape(t) == done + BlankRows(m, t.width)
    && |t.scrollback| + t.y == |done| - 1
  }

  lemma {:induction false} OnLength(t: Term, done: seq<Row>, m: nat)
    requires On(t, done, m)
    ensures |t.scrollback| + t.height == |done| + m
  {
    assert |Tape(t)| == |done + BlankRows(m, t.width)|;
  }

  lemma {:induction false} LineFed(t: Term, done: seq<Row>, m: nat)
    requires On(t, done, m)
    ensures var u := Exec(t, Newline);
            On(u, done + [BlankRow(t.width)], Less(m, 1)) && u.x == 0
  {
    var u := Exec(t, Newline);
    if m == 0 {
      assert done + BlankRows(0, t.width) == done;
      assert t.screen[t.region..] == [];
      assert Tape(u) == Tape(t) + [BlankRow(t.width)] by {
        assert t.screen == [t.screen[0]] + t.screen[1..];
        assert t.screen[1..t.region] == t.screen[1..];
      }
    } else {
      assert Tape(u) == Tape(t);
      assert BlankRows(m, t.width) == [BlankRow(t.width)] + BlankRows(m - 1, t.width);
    }
  }

  lemma {:induction false} RowLanded(t: Term, done: seq<Row>, m: nat, line: Line)
    requires On(t, done + [BlankRow(t.width)], m) && t.x == 0 && Fits(line, t.width)
    ensures On(ExecAll(t, RowOps(line)), done + [Render(line, t.width)], m)
  {
    hide ExecAll, RowOps, Render;
    RowWritten(t, line);
    var u := ExecAll(t, RowOps(line));
    var row := Render(line, t.width);
    assert Tape(u) == Tape(t)[|done| := row];
    assert (done + [BlankRow(t.width)] + BlankRows(m, t.width))[|done| := row] == done + [row] + BlankRows(m, t.width);
  }

  /** Rows one under the other, scrolling when they must. */
  lemma {:induction false} LinesLanded(t: Term, done: seq<Row>, m: nat, rows: seq<Line>)
    requires On(t, done + [BlankRow(t.width)], m) && t.x == 0 && rows != [] && AllFit(rows, t.width)
    ensures On(ExecAll(t, LinesOps(rows)), done + RenderAll(rows, t.width), Less(m, |rows| - 1))
    decreases |rows|
  {
    hide ExecAll, RowOps, Exec, On, Render, Wf, BlankRow, Fits;
    var n := |rows| - 1;
    var init, last := rows[..n], rows[n];
    if init == [] {
      RowLanded(t, done, m, last);
      assert [] + [] + RowOps(last) == RowOps(last) && LinesOps([]) == [];
      assert RenderAll(rows, t.width) == [Render(last, t.width)];
    } else {
      LinesLanded(t, done, m, init);
      var u := ExecAll(t, LinesOps(init));
      var so := done + RenderAll(init, t.width);
      LineFed(u, so, Less(m, n - 1));
      var v := Exec(u, Newline);
      ExecConcat(t, LinesOps(init), [Newline]);
      ExecOne(u, Newline);
      ExecConcat(t, LinesOps(init) + [Newline], RowOps(last));
      RowLanded(v, so, Less(m, n), last);
      assert so + [Render(last, t.width)] == done + RenderAll(rows, t.width);
    }
  }

  lemma {:induction false} BandMade(t: Term, done: seq<Row>, m: nat, height: nat)
    requires On(t, done, m)
    ensures On(ExecAll(t, BandOps(height)), done + BlankRows(height, t.width), Less(m, height))
    decreases height
  {
    hide ExecAll, On, Wf, BlankRow;
    if height == 0 {
      ExecNone(t);
      assert done + BlankRows(0, t.width) == done;
    } else {
      BandMade(t, done, m, height - 1);
      var u := ExecAll(t, BandOps(height - 1));
      var so := done + BlankRows(height - 1, t.width);
      LineFed(u, so, Less(m, height - 1));
      var v := Exec(u, Newline);
      BlankErased(v, so, Less(m, height));
      ExecConcat(t, BandOps(height - 1), [Newline, ClearRight]);
      ExecTwo(u, Newline, ClearRight);
      assert so + [BlankRow(t.width)] == done + BlankRows(height, t.width);
    }
  }

  lemma {:induction false} BlankErased(t: Term, done: seq<Row>, m: nat)
    requires On(t, done + [BlankRow(t.width)], m) && t.x == 0
    ensures Exec(t, ClearRight) == t
  {
    assert Tape(t)[|done|] == t.screen[t.y] == BlankRow(t.width);
    assert EraseFrom(t.screen[t.y], 0, PLAIN) == t.screen[t.y];
    assert t.screen[t.y := t.screen[t.y]] == t.screen;
  }

  /** A cleared band with the cursor at its top is a roll one row past history. */
  lemma {:induction false} AtBandTop(t: Term, history: seq<Row>, top: nat)
    requires Stands(t, history, top) && top < t.height
    ensures var u := Exec(t, MoveTo(0, top));
            On(u, history + [BlankRow(t.width)], t.height - top - 1) && u.x == 0 && |history| == |t.scrollback| + top
  {
    var m := t.height - top;
    assert BlankRows(m, t.width) == [BlankRow(t.width)] + BlankRows(m - 1, t.width);
    assert t.screen == t.screen[..top] + t.screen[top..];
    assert Tape(t) == history + BlankRows(m, t.width);
    ConcatAssoc(history, [BlankRow(t.width)], BlankRows(m - 1, t.width));
  }

  /** A roll that ends in blanks stands on the history before them. */
  lemma {:induction false} RollStands(t: Term, history: seq<Row>, blank: nat, m: nat, top: nat)
    requires On(t, history + BlankRows(blank, t.width), m)
    requires top <= t.height && |history| == |t.scrollback| + top
    ensures Stands(t, history, top)
  {
    var tape := Tape(t);
    assert tape == history + BlankRows(blank + m, t.width);
    assert History(t, top) == tape[..|history|] == history;
    assert t.screen[top..] == tape[|history|..] == BlankRows(blank + m, t.width);
  }

  // ------------------------------------------------------------- the two strategies

  lemma {:induction false} RollBody(t: Term, history: seq<Row>, top: nat, band: nat, rows: seq<Line>) returns (m: nat)
    requires Stands(t, history, top) && rows != [] && AllFit(rows, t.width) && top < t.height
    ensures var v := ExecAll(Exec(t, MoveTo(0, top)), LinesOps(rows) + BandOps(band));
            On(v, history + RenderAll(rows, t.width) + BlankRows(band, t.width), m)
    ensures |history| == |t.scrollback| + top && m == Less(Less(t.height - top - 1, |rows| - 1), band)
  {
    hide ExecAll, Exec, LinesOps, BandOps, Stands, On, AllFit, Wf, BlankRow, Fits, Render, Less, Min;
    AtBandTop(t, history, top);
    var s := Exec(t, MoveTo(0, top));
    LinesLanded(s, history, t.height - top - 1, rows);
    ExecConcat(s, LinesOps(rows), BandOps(band));
    var u := ExecAll(s, LinesOps(rows));
    BandMade(u, history + RenderAll(rows, t.width), Less(t.height - top - 1, |rows| - 1), band);
    m := Less(Less(t.height - top - 1, |rows| - 1), band);
  }

  /** Full-screen scrolling: any terminal, any number of rows. */
  lemma {:induction false} FullScreenBody(t: Term, history: seq<Row>, top: nat, band: nat, rows: seq<Line>)
    requires Stands(t, history, top) && rows != [] && AllFit(rows, t.width) && band >= 1 && top + band <= t.height
    ensures var u := ExecAll(Exec(t, MoveTo(0, top)), LinesOps(rows) + BandOps(band));
            var newTop := top + Min(|rows|, t.height - top - band);
            Stands(u, history + RenderAll(rows, t.width), newTop)
  {
    hide *;
    StandsSize(t, history, top);
    var m := RollBody(t, history, top, band, rows);
    var s := Exec(t, MoveTo(0, top));
    var v := ExecAll(s, LinesOps(rows) + BandOps(band));
    SameSize(t, s);
    SameSize(s, v);
    RollEnds(v, history + RenderAll(rows, t.width), top, band, |rows|, m);
  }

  lemma {:induction false} SameSize(t: Term, u: Term)
    requires Alike(t, u)
    ensures t.width == u.width && t.height == u.height
  {
  }

  lemma {:induction false} StandsSize(t: Term, history: seq<Row>, top: nat)
    requires Stands(t, history, top)
    ensures Wf(t) && top <= t.height
  {
  }

  lemma {:induction false} RollEnds(v: Term, done: seq<Row>, top: nat, band: nat, n: nat, m: nat)
    requires On(v, done + BlankRows(band, v.width), m) && n > 0 && band >= 1 && top + band <= v.height
    requires m == Less(Less(v.height - top - 1, n - 1), band)
    ensures Stands(v, done, top + Min(n, v.height - top - band))
  {
    hide On, Stands, Wf, BlankRow, Less, Min;
    OnLength(v, done + BlankRows(band, v.width), m);
    BandFits(v.height, top, band, n);
    RollStands(v, done, band, m, top + Min(n, v.height - top - band));
  }

  lemma {:induction false} BandFits(height: nat, top: nat, band: nat, n: nat)
    requires n > 0 && top + band <= height && band >= 1
    ensures Less(Less(height - top - 1, n - 1), band) + band + (top + Min(n, height - top - band)) == height
  {
  }

  /** Rows that fit in the blank space under the band need no scrolling. */
  lemma {:induction false} DirectBody(t: Term, history: seq<Row>, top: nat, rows: seq<Line>)
    requires Stands(t, history, top) && AllFit(rows, t.width) && top + |rows| < t.height
    ensures Stands(ExecAll(Exec(t, MoveTo(0, top)), LinesOps(rows)), history + RenderAll(rows, t.width), top + |rows|)
  {
    hide ExecAll, LinesOps, Exec, Stands;
    if rows == [] {
      NoLines(Exec(t, MoveTo(0, top)));
      Parked(t, history, top);
      assert history + RenderAll(rows, t.width) == history;
    } else {
      DirectRows(t, history, top, rows);
    }
  }

  lemma {:induction false} DirectRows(t: Term, history: seq<Row>, top: nat, rows: seq<Line>)
    requires Stands(t, history, top) && rows != [] && AllFit(rows, t.width) && top + |rows| < t.height
    ensures Stands(ExecAll(Exec(t, MoveTo(0, top)), LinesOps(rows)), history + RenderAll(rows, t.width), top + |rows|)
  {
    hide ExecAll, LinesOps, Exec, Stands, On, AllFit, Wf, BlankRow, Fits, Render, Min;
    AtBandTop(t, history, top);
    var s := Exec(t, MoveTo(0, top));
    var m := t.height - top - 1;
    LinesLanded(s, history, m, rows);
    var u := ExecAll(s, LinesOps(rows));
    var done := history + RenderAll(rows, t.width);
    assert done + BlankRows(0, t.width) == done;
    OnLength(u, done, Less(m, |rows| - 1));
    RollStands(u, done, 0, Less(m, |rows| - 1), top + |rows|);
  }

  lemma {:induction false} Parked(t: Term, history: seq<Row>, top: nat)
    requires Stands(t, history, top)
    ensures Stands(Exec(t, MoveTo(0, top)), history, top)
  {
  }

  lemma {:induction false} NoLines(t: Term)
    requires Wf(t)
    ensures ExecAll(t, LinesOps([])) == t
  {
  }

  /** The first `bottom` rows scroll, with the cursor on the last of them. */
  predicate InRegion(t: Term, history: seq<Row>, bottom: nat)
    ensures InRegion(t, history, bottom) ==> Wf(t) && 2 <= bottom < t.height && History(t, bottom) == history
  {
    && Wf(t) && t.pen == PLAIN && t.region == bottom && 2 <= bottom < t.height && t.y == bottom - 1
    && History(t, bottom) == history
    && t.screen[bottom..] == BlankRows(t.height - bottom, t.width)
  }

  lemma {:induction false} RegionSet(t: Term, history: seq<Row>, bottom: nat)
    requires Stands(t, history, bottom) && 2 <= bottom < t.height
    ensures InRegion(ExecAll(t, [Region(bottom), MoveTo(0, bottom - 1)]), history, bottom)
    ensures ExecAll(t, [Region(bottom), MoveTo(0, bottom - 1)]).scrollback == t.scrollback
  {
    hide ExecAll;
    ExecTwo(t, Region(bottom), MoveTo(0, bottom - 1));
  }

  function AboveLast(t: Term, bottom: nat): seq<Row>
    requires Wf(t) && 1 <= bottom <= t.height
  {
    t.scrollback + t.screen[..bottom - 1]
  }

  lemma {:induction false} RegionFed(t: Term, history: seq<Row>, bottom: nat)
    requires InRegion(t, history, bottom)
    ensures var u := Exec(t, Newline);
            && u.x == 0
            && (t.quirks.keepsRegionScroll ==> InRegion(u, history + [BlankRow(t.width)], bottom))
            && (!t.quirks.keepsRegionScroll ==>
                  u.scrollback == t.scrollback && InRegion(u, AboveLast(u, bottom) + [BlankRow(t.width)], bottom))
  {
    var u := Exec(t, Newline);
    assert u.screen[bottom..] == t.screen[bottom..];
    assert u.screen[..bottom] == t.screen[1..bottom] + [BlankRow(t.width)];
    assert t.screen[..bottom] == [t.screen[0]] + t.screen[1..bottom];
    if t.quirks.keepsRegionScroll {
      assert History(u, bottom) == history + [BlankRow(t.width)];
    } else {
      assert u.screen[..bottom] == u.screen[..bottom - 1] + [BlankRow(t.width)];
      assert History(u, bottom) == AboveLast(u, bottom) + [BlankRow(t.width)];
    }
  }

  lemma {:induction false} RegionRow(t: Term, before: seq<Row>, bottom: nat, line: Line)
    requires InRegion(t, before + [BlankRow(t.width)], bottom) && t.x == 0 && Fits(line, t.width)
    ensures InRegion(ExecAll(t, RowOps(line)), before + [Render(line, t.width)], bottom)
    ensures ExecAll(t, RowOps(line)).scrollback == t.scrollback
  {
    hide ExecAll, RowOps, Render;
    RowWritten(t, line);
    var u := ExecAll(t, RowOps(line));
    assert u.screen[bottom..] == t.screen[bottom..];
    assert u.screen[..bottom] == t.screen[..bottom][bottom - 1 := Render(line, t.width)];
    assert History(u, bottom) == History(t, bottom)[|before| := Render(line, t.width)];
    assert (before + [BlankRow(t.width)])[|before| := Render(line, t.width)] == before + [Render(line, t.width)];
  }

  /** A terminal that keeps departing rows: every row scrolled in is history. */
  lemma {:induction false} RowsScrolledIn(t: Term, history: seq<Row>, bottom: nat, rows: seq<Line>)
    requires InRegion(t, history, bottom) && AllFit(rows, t.width) && t.quirks.keepsRegionScroll
    ensures InRegion(ExecAll(t, ScrollOps(rows)), history + RenderAll(rows, t.width), bottom)
    decreases |rows|
  {
    hide ExecAll, Exec, RowOps, InRegion, Render, Wf, BlankRow, Fits;
    if rows == [] {
      ExecNone(t);
      assert history + RenderAll(rows, t.width) == history;
    } else {
      var n := |rows| - 1;
      var init, last := rows[..n], rows[n];
      RowsScrolledIn(t, history, bottom, init);
      var u := ExecAll(t, ScrollOps(init));
      var so := history + RenderAll(init, t.width);
      RegionFed(u, so, bottom);
      var v := Exec(u, Newline);
      RegionRow(v, so, bottom, last);
      ExecConcat(t, ScrollOps(init), [Newline] + RowOps(last));
      ExecConcat(u, [Newline], RowOps(last));
      ExecOne(u, Newline);
      assert so + [Render(last, t.width)] == history + RenderAll(rows, t.width);
    }
  }

  /** A terminal that does not: nothing reaches scrollback. */
  lemma {:induction false} RowsLost(t: Term, history: seq<Row>, bottom: nat, rows: seq<Line>)
    requires InRegion(t, history, bottom) && AllFit(rows, t.width) && !t.quirks.keepsRegionScroll
    ensures var u := ExecAll(t, ScrollOps(rows)); u.scrollback == t.scrollback && InRegion(u, History(u, bottom), bottom)
    decreases |rows|
  {
    hide ExecAll, Exec, RowOps, InRegion, Render, Wf, BlankRow, Fits;
    if rows == [] {
      ExecNone(t);
    } else {
      var n := |rows| - 1;
      var init, last := rows[..n], rows[n];
      RowsLost(t, history, bottom, init);
      var u := ExecAll(t, ScrollOps(init));
      RegionFed(u, History(u, bottom), bottom);
      var v := Exec(u, Newline);
      var before := AboveLast(v, bottom);
      RegionRow(v, before, bottom, last);
      ExecConcat(t, ScrollOps(init), [Newline] + RowOps(last));
      ExecConcat(u, [Newline], RowOps(last));
      ExecOne(u, Newline);
    }
  }

  /** Resetting the margins and the pen settles any terminal, whatever came before. */
  lemma {:induction false} CleanupSettles(t: Term)
    requires Wf(t)
    ensures Settled(ExecAll(t, CLEANUP)) && ExecAll(t, CLEANUP).screen == t.screen && ExecAll(t, CLEANUP).scrollback == t.scrollback
  {
    hide ExecAll;
    ExecTwo(t, RegionReset, ResetPen);
  }

  // ------------------------------------------------------------- the main results

  /** When inserting is appending: full-screen scrolling, directly or because the
      region would be one row, rows that fit below, or a terminal that keeps what
      leaves a region. */
  predicate Safe(strategy: Strategy, area: Rect, t: Term, n: nat) {
    || strategy == FullScreen
    || NewArea(area, t.height, n).y < 2
    || n <= t.height - Clip(area, t.height).y - Clip(area, t.height).height
    || t.quirks.keepsRegionScroll
  }

  /** The strategy chosen for a terminal appends whatever is inserted wherever if and
      only if the terminal keeps what leaves a region, or it is the one known not to
      (Windows Terminal, not under Zellij), or too low for a region at all. */
  lemma {:induction false} ChoiceIsSafe(zellij: bool, windowsTerminal: bool, t: Term)
    ensures (forall area: Rect, n: nat :: area.height >= 1 ==> Safe(ForTerminal(zellij, windowsTerminal), area, t, n))
       <==> t.quirks.keepsRegionScroll || (windowsTerminal && !zellij) || t.height < 3
  {
    var strategy := ForTerminal(zellij, windowsTerminal);
    if t.quirks.keepsRegionScroll || strategy == FullScreen || t.height < 3 {
      forall area: Rect, n: nat | area.height >= 1 ensures Safe(strategy, area, t, n) {
        assert NewArea(area, t.height, n).y < 2 || t.height >= 3;
      }
    } else {
      assert NewArea(Rect(0, 1), t.height, t.height).y == t.height - 1;
      assert !Safe(strategy, Rect(0, 1), t, t.height);
    }
  }

  lemma {:induction false} InsertPhases(t: Term, rows: seq<Line>, area: Rect, strategy: Strategy)
    requires Wf(t)
    ensures var top := Clip(area, t.height).y;
            var b := ExecAll(Exec(t, ResetPen), ClearBelowOps(top, t.height));
            var body := BodyOps(rows, Pushed(area, t.height, |rows|), NewArea(area, t.height, |rows|), strategy);
            ExecAll(t, InsertOps(rows, area, t.height, strategy))
              == ExecAll(ExecAll(Exec(b, MoveTo(0, top)), body), CLEANUP)
  {
    hide ExecAll, Exec, ClearBelowOps, BodyOps, Wf;
    var top := Clip(area, t.height).y;
    var clear := ClearBelowOps(top, t.height);
    var body := BodyOps(rows, Pushed(area, t.height, |rows|), NewArea(area, t.height, |rows|), strategy);
    ExecConcat(t, InsertPayload(rows, area, t.height, strategy), CLEANUP);
    ExecConcat(t, [ResetPen] + clear, [MoveTo(0, top)] + body);
    ExecConcat(t, [ResetPen], clear);
    ExecOne(t, ResetPen);
    var b := ExecAll(Exec(t, ResetPen), clear);
    ExecConcat(b, [MoveTo(0, top)], body);
    ExecOne(b, MoveTo(0, top));
  }

  /** Before the body: history as it was, a blank band, a plain pen. */
  lemma {:induction false} InsertReady(t: Term, top: nat)
    requires Wf(t) && t.region == t.height && top < t.height
    ensures Stands(ExecAll(Exec(t, ResetPen), ClearBelowOps(top, t.height)), History(t, top), top)
  {
    hide ExecAll, ClearBelowOps;
    ClearedBelow(Exec(t, ResetPen), top);
  }

  lemma {:induction false} StandsCleaned(t: Term, history: seq<Row>, top: nat)
    requires Wf(t) && top <= t.height && History(t, top) == history && t.screen[top..] == BlankRows(t.height - top, t.width)
    ensures Stands(ExecAll(t, CLEANUP), history, top)
  {
    hide ExecAll;
    CleanupSettles(t);
  }

  /** The standard path with rows left over for the region. */
  lemma {:induction false} RegionBody(b: Term, history: seq<Row>, top: nat, pushed: nat, rows: seq<Line>)
    requires Stands(b, history, top) && AllFit(rows, b.width) && pushed < |rows| && 2 <= top + pushed < b.height
    ensures var newTop := top + pushed;
            var u := ExecAll(ExecAll(Exec(b, MoveTo(0, top)),
                             LinesOps(rows[..pushed]) + ([Region(newTop), MoveTo(0, newTop - 1)] + ScrollOps(rows[pushed..]))), CLEANUP);
            && (b.quirks.keepsRegionScroll ==> Stands(u, history + RenderAll(rows, b.width), newTop))
            && (!b.quirks.keepsRegionScroll ==> Settled(u) && |History(u, newTop)| == |history| + pushed)
  {
    hide ExecAll, Exec, LinesOps, ScrollOps, Stands, InRegion, Wf, AllFit, BlankRow, Render, Settled;
    var newTop := top + pushed;
    var first, rest := rows[..pushed], rows[pushed..];
    var margin := [Region(newTop), MoveTo(0, newTop - 1)];
    assert AllFit(first, b.width) && AllFit(rest, b.width) by { SomeFit(rows, b.width, pushed); }
    DirectBody(b, history, top, first);
    var s := Exec(b, MoveTo(0, top));
    var d := ExecAll(s, LinesOps(first));
    var so := history + RenderAll(first, b.width);
    RegionSet(d, so, newTop);
    var e := ExecAll(d, margin);
    ExecConcat(s, LinesOps(first), margin + ScrollOps(rest));
    ExecConcat(d, margin, ScrollOps(rest));
    var f := ExecAll(e, ScrollOps(rest));
    if b.quirks.keepsRegionScroll {
      RowsScrolledIn(e, so, newTop, rest);
      assert RenderAll(first, b.width) + RenderAll(rest, b.width) == RenderAll(rows, b.width);
      ConcatAssoc(history, RenderAll(first, b.width), RenderAll(rest, b.width));
      RegionCleaned(f, history + RenderAll(rows, b.width), newTop);
    } else {
      RowsLost(e, so, newTop, rest);
      RegionCleaned(f, History(f, newTop), newTop);
      StandsLength(d, so, newTop);
      StandsLength(ExecAll(f, CLEANUP), History(f, newTop), newTop);
      CleanupSettles(f);
    }
  }

  lemma {:induction false} SomeFit(rows: seq<Line>, width: nat, k: nat)
    requires AllFit(rows, width) && k <= |rows|
    ensures AllFit(rows[..k], width) && AllFit(rows[k..], width)
  {
  }

  lemma {:induction false} StandsLength(t: Term, history: seq<Row>, top: nat)
    requires Stands(t, history, top)
    ensures Settled(t) && History(t, top) == history && |history| == |t.scrollback| + top
  {
  }

  lemma {:induction false} RegionCleaned(t: Term, history: seq<Row>, bottom: nat)
    requires InRegion(t, history, bottom)
    ensures Stands(ExecAll(t, CLEANUP), history, bottom)
  {
    hide ExecAll;
    StandsCleaned(t, history, bottom);
  }

  /** Inserting rows that fit the screen. */
  lemma {:induction false} FittingAppends(t: Term, rows: seq<Line>, area: Rect, strategy: Strategy, u: Term)
    requires Wf(t) && t.region == t.height && rows != [] && AllFit(rows, t.width) && area.height >= 1
    requires u == ExecAll(t, InsertOps(rows, area, t.height, strategy))
    ensures NewArea(area, t.height, |rows|).y + NewArea(area, t.height, |rows|).height <= t.height && Settled(u)
    ensures Safe(strategy, area, t, |rows|) <==>
              History(u, NewArea(area, t.height, |rows|).y)
                == History(t, Clip(area, t.height).y) + RenderAll(rows, t.width)
    ensures Safe(strategy, area, t, |rows|) ==>
              Stands(u, History(t, Clip(area, t.height).y) + RenderAll(rows, t.width), NewArea(area, t.height, |rows|).y)
  {
    hide ExecAll, Exec, LinesOps, ScrollOps, BandOps, Stands, Wf, AllFit, RenderAll, History, ClearBelowOps;
    var at, placed := Clip(area, t.height), NewArea(area, t.height, |rows|);
    var history := History(t, at.y);
    InsertPhases(t, rows, area, strategy);
    assert t.height >= 1 by { SomeHeight(t); }
    InsertReady(t, at.y);
    var b := ExecAll(Exec(t, ResetPen), ClearBelowOps(at.y, t.height));
    var pushed := Pushed(area, t.height, |rows|);
    if strategy == FullScreen || placed.y < 2 {
      FullScreenBody(b, history, at.y, at.height, rows);
      Recleaned(ExecAll(Exec(b, MoveTo(0, at.y)), LinesOps(rows) + BandOps(at.height)), history + RenderAll(rows, t.width), placed.y);
    } else if pushed == |rows| {
      assert rows[..pushed] == rows && LinesOps(rows) + [] == LinesOps(rows);
      DirectBody(b, history, at.y, rows);
      Recleaned(ExecAll(Exec(b, MoveTo(0, at.y)), LinesOps(rows)), history + RenderAll(rows, t.width), placed.y);
    } else {
      RegionBody(b, history, at.y, pushed, rows);
    }
    if Safe(strategy, area, t, |rows|) { StandsLength(u, history + RenderAll(rows, t.width), placed.y); }
  }

  lemma {:induction false} SomeHeight(t: Term)
    requires Wf(t)
    ensures t.height >= 1 && t.width >= 1
  {
  }

  lemma {:induction false} Recleaned(t: Term, history: seq<Row>, top: nat)
    requires Stands(t, history, top)
    ensures Stands(ExecAll(t, CLEANUP), history, top)
  {
    hide ExecAll;
    StandsCleaned(t, history, top);
  }

  /** Inserting is appending, for any terminal, rows of any width, band and screen:
      exactly when the insert is safe, history is what it was followed by the new
      rows, re-wrapped where they are too wide; then the band lies blank directly
      below it. */
  lemma {:induction false} InsertAppends(t: Term, wrap: Wrapper, rows: seq<Line>, area: Rect, strategy: Strategy)
    requires Wf(t) && t.region == t.height && rows != [] && area.height >= 1
    ensures var fitted := Rewrapped(wrap, rows, t.width);
            var n := |fitted|;
            var u := ExecAll(t, InsertOps(fitted, area, t.height, strategy));
            && NewArea(area, t.height, n).y + NewArea(area, t.height, n).height <= t.height && Settled(u)
            && (Safe(strategy, area, t, n) <==>
                  History(u, NewArea(area, t.height, n).y) == History(t, Clip(area, t.height).y) + RenderAll(fitted, t.width))
            && (Safe(strategy, area, t, n) ==>
                  Stands(u, History(t, Clip(area, t.height).y) + RenderAll(fitted, t.width), NewArea(area, t.height, n).y))
            && (AllFit(rows, t.width) ==> fitted == rows)
  {
    hide ExecAll, InsertOps, History, RenderAll, AllFit, Stands, Safe, Rewrapped, NewArea, Clip;
    assert t.width >= 1 by { SomeHeight(t); }
    var fitted := Rewrapped(wrap, rows, t.width);
    FittingAppends(t, fitted, area, strategy, ExecAll(t, InsertOps(fitted, area, t.height, strategy)));
  }

  /** Both strategies leave the same history wherever both are safe. */
  lemma {:induction false} StrategiesAgree(t: Term, wrap: Wrapper, rows: seq<Line>, area: Rect)
    requires Wf(t) && t.region == t.height && rows != [] && area.height >= 1
    requires Safe(Standard, area, t, |Rewrapped(wrap, rows, t.width)|)
    ensures var fitted := Rewrapped(wrap, rows, t.width);
            var y := NewArea(area, t.height, |fitted|).y;
            y <= t.height &&
            History(ExecAll(t, InsertOps(fitted, area, t.height, Standard)), y)
              == History(ExecAll(t, InsertOps(fitted, area, t.height, FullScreen)), y)
  {
    hide ExecAll, InsertOps, History, RenderAll, AllFit, Rewrapped, Wf;
    InsertAppends(t, wrap, rows, area, Standard);
    InsertAppends(t, wrap, rows, area, FullScreen);
  }

  /** A failed write leaks no margin: whatever prefix of a payload went out, once
      the reset did, the whole screen scrolls again and the pen is plain. */
  lemma {:induction false} FailureLeaksNothing(t: Term, payload: seq<Op>, k: nat)
    requires Wf(t) && k <= |payload|
    ensures Settled(ExecAll(t, payload[..k] + CLEANUP))
  {
    hide ExecAll;
    ExecConcat(t, payload[..k], CLEANUP);
    CleanupSettles(ExecAll(t, payload[..k]));
  }
}
