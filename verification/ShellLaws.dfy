/**
 History is conserved: inserts only append, height changes change nothing, a
 settled resize keeps everything and appends the replayed tail; over any run.
 */
module ShellLaws {
  import opened Prelude
  import opened Terminals
  import opened HistoryInsert
  import opened HistoryLaws
  import opened Shells

  // ---------------------------------------------------------- scrolling history out

  /** When scrolling `count` rows out of the first `bottom` keeps them. */
  predicate ScrollSafe(strategy: Strategy, bottom: nat, t: Term, count: nat) {
    count == 0 || strategy == FullScreen || bottom <= 1 || bottom == t.height || t.quirks.keepsRegionScroll
  }

  /** The cursor is at the bottom margin of a region that ends at `bottom`. */
  predicate AtMargin(t: Term, bottom: nat)
    ensures AtMargin(t, bottom) ==> Wf(t) && 1 <= bottom <= t.height
  {
    Wf(t) && t.pen == PLAIN && t.region == bottom && t.y == bottom - 1
  }

  lemma {:induction false} MarginFed(t: Term, bottom: nat)
    requires AtMargin(t, bottom)
    ensures var u := Exec(t, Newline);
            && AtMargin(u, bottom)
            && (bottom == t.height || t.quirks.keepsRegionScroll ==> History(u, bottom) == History(t, bottom) + [BlankRow(t.width)])
            && (bottom < t.height && !t.quirks.keepsRegionScroll ==> u.scrollback == t.scrollback)
  {
    var u := Exec(t, Newline);
    assert u.screen[..bottom] == t.screen[1..bottom] + [BlankRow(t.width)];
    assert t.screen[..bottom] == [t.screen[0]] + t.screen[1..bottom];
  }

  lemma {:induction false} NewlinesAtMargin(t: Term, bottom: nat, count: nat)
    requires AtMargin(t, bottom)
    ensures var u := ExecAll(t, NewlineOps(count));
            && AtMargin(u, bottom)
            && (bottom == t.height || t.quirks.keepsRegionScroll ==>
                  History(u, bottom) == History(t, bottom) + BlankRows(count, t.width))
            && (bottom < t.height && !t.quirks.keepsRegionScroll ==> u.scrollback == t.scrollback)
    decreases count
  {
    hide ExecAll, Exec, AtMargin, Wf, BlankRow, History;
    if count == 0 {
      ExecNone(t);
      assert History(t, bottom) + BlankRows(0, t.width) == History(t, bottom);
    } else {
      NewlinesAtMargin(t, bottom, count - 1);
      var u := ExecAll(t, NewlineOps(count - 1));
      MarginFed(u, bottom);
      ExecConcat(t, NewlineOps(count - 1), [Newline]);
      ExecOne(u, Newline);
      assert History(t, bottom) + BlankRows(count - 1, t.width) + [BlankRow(t.width)]
          == History(t, bottom) + BlankRows(count, t.width);
    }
  }

  /** The margin the newlines run at: the history's own, or the screen's. */
  function MarginOf(strategy: Strategy, bottom: nat, height: nat): nat {
    if strategy == Standard && bottom > 1 then bottom else height
  }

  lemma {:induction false} ScrollReady(t: Term, bottom: nat, strategy: Strategy)
    requires Settled(t) && bottom <= t.height
    ensures var s := ExecAll(t, ScrollStart(bottom, t.height, strategy));
            && AtMargin(s, MarginOf(strategy, bottom, t.height))
            && s.scrollback == t.scrollback && History(s, bottom) == History(t, bottom)
  {
    hide ExecAll, ClearBelowOps;
    if strategy == Standard && bottom > 1 {
      ExecTwo(t, Region(bottom), MoveTo(0, bottom - 1));
    } else {
      WholeReady(t, bottom);
    }
  }

  lemma {:induction false} WholeReady(t: Term, bottom: nat)
    requires Settled(t) && bottom <= t.height
    ensures var clear := if bottom < t.height then ClearBelowOps(bottom, t.height) else [];
            var s := ExecAll(t, clear + [MoveTo(0, t.height - 1)]);
            && AtMargin(s, t.height) && s.scrollback == t.scrollback && History(s, bottom) == History(t, bottom)
  {
    hide ExecAll, ClearBelowOps;
    var clear := if bottom < t.height then ClearBelowOps(bottom, t.height) else [];
    ExecConcat(t, clear, [MoveTo(0, t.height - 1)]);
    if bottom < t.height { ClearedBelow(t, bottom); } else { ExecNone(t); }
    var b := ExecAll(t, clear);
    StillAbove(t, b, bottom);
    ExecOne(b, MoveTo(0, t.height - 1));
  }

  lemma {:induction false} StillAbove(t: Term, b: Term, bottom: nat)
    requires Wf(t) && Wf(b) && Alike(t, b) && bottom <= t.height && History(b, bottom) == History(t, bottom)
    ensures b.scrollback == t.scrollback && b.screen[..bottom] == t.screen[..bottom]
  {
    assert History(t, bottom)[..|History(t, bottom)| - bottom] == t.scrollback;
    assert History(b, bottom)[..|History(b, bottom)| - bottom] == b.scrollback;
    assert History(t, bottom)[|t.scrollback|..] == t.screen[..bottom];
    assert History(b, bottom)[|b.scrollback|..] == b.screen[..bottom];
  }

  /** Rows that scrolled out are still history; what is above the new top is all of it. */
  lemma {:induction false} ScrolledPrefix(t: Term, u: Term, bottom: nat, margin: nat, count: nat)
    requires Wf(t) && Wf(u) && Alike(t, u) && count <= bottom <= margin <= t.height
    requires History(u, margin) == History(t, margin) + BlankRows(count, t.width)
    ensures History(u, bottom - count) == History(t, bottom)
  {
    var roll := History(u, margin);
    assert |u.scrollback| == |t.scrollback| + count;
    assert History(u, bottom - count) == roll[..|t.scrollback| + bottom];
    assert History(t, bottom) == History(t, margin)[..|t.scrollback| + bottom];
  }

  /** Scrolling history out keeps every row of it exactly when it is safe. */
  lemma {:induction false} ScrollConserves(t: Term, bottom: nat, count: nat, strategy: Strategy, u: Term)
    requires Wf(t) && t.region == t.height && count <= bottom <= t.height
    requires u == ExecAll(t, ScrollHistoryOps(bottom, t.height, count, strategy))
    ensures Settled(u)
    ensures ScrollSafe(strategy, bottom, t, count) <==> History(u, bottom - count) == History(t, bottom)
  {
    hide ExecAll, Exec, ScrollStart, NewlineOps, AtMargin, Wf, Settled, History;
    var margin := MarginOf(strategy, bottom, t.height);
    var opening := ScrollStart(bottom, t.height, strategy);
    ExecConcat(t, ScrollPayload(bottom, t.height, count, strategy), CLEANUP);
    ExecConcat(t, [ResetPen] + opening, NewlineOps(count));
    ExecConcat(t, [ResetPen], opening);
    ExecOne(t, ResetPen);
    var p := Exec(t, ResetPen);
    PenReset(t, bottom);
    ScrollReady(p, bottom, strategy);
    var s := ExecAll(p, opening);
    NewlinesAtMargin(s, margin, count);
    var v := ExecAll(s, NewlineOps(count));
    CleanupSettles(v);
    SameHistory(v, u, bottom - count);
    if margin == t.height || t.quirks.keepsRegionScroll {
      ScrolledPrefix(s, v, bottom, margin, count);
    } else if count == 0 {
      NothingScrolled(s);
    } else {
      LostLength(t, v, bottom, count);
    }
  }

  lemma {:induction false} PenReset(t: Term, bottom: nat)
    requires Wf(t) && t.region == t.height && bottom <= t.height
    ensures Settled(Exec(t, ResetPen)) && History(Exec(t, ResetPen), bottom) == History(t, bottom)
    ensures Exec(t, ResetPen).scrollback == t.scrollback
  {
  }

  lemma {:induction false} SameHistory(v: Term, u: Term, top: nat)
    requires Wf(v) && Wf(u) && Alike(v, u) && top <= v.height && u.screen == v.screen && u.scrollback == v.scrollback
    ensures History(u, top) == History(v, top)
  {
  }

  lemma {:induction false} LostLength(t: Term, v: Term, bottom: nat, count: nat)
    requires Wf(t) && Wf(v) && Alike(t, v) && count <= bottom <= t.height && v.scrollback == t.scrollback && count > 0
    ensures History(v, bottom - count) != History(t, bottom)
  {
    assert |History(v, bottom - count)| < |History(t, bottom)|;
  }

  lemma {:induction false} NothingScrolled(s: Term)
    requires Wf(s)
    ensures ExecAll(s, NewlineOps(0)) == s
  {
    ExecNone(s);
  }

  // ----------------------------------------------------------- the three operations

  lemma {:induction false} BandCleared(t: Term, area: Rect)
    requires Settled(t) && Fitted(area, t.height)
    ensures Stands(ExecAll(t, ClearBandOps(area, t.height)), History(t, area.y), area.y)
  {
    hide ExecAll, ClearBelowOps, Exec, Stands;
    var clear := ClearBelowOps(area.y, t.height);
    ClearedBelow(t, area.y);
    var b := ExecAll(t, clear);
    ExecConcat(t, clear, [MoveTo(0, area.y)]);
    ExecOne(b, MoveTo(0, area.y));
    Parked(b, History(t, area.y), area.y);
  }

  lemma {:induction false} SettleStands(t: Term, area: Rect)
    requires Settled(t) && Fitted(area, t.height)
    ensures Stands(ExecAll(t, InstallOps(area) + ClearBandOps(area, t.height)), History(t, area.y), area.y)
  {
    hide ExecAll, ClearBandOps, Stands;
    ExecConcat(t, InstallOps(area), ClearBandOps(area, t.height));
    ExecOne(t, MoveTo(0, area.y));
    BandCleared(Exec(t, MoveTo(0, area.y)), area);
  }

  lemma {:induction false} SettledSize(t: Term)
    requires Settled(t)
    ensures Wf(t) && t.region == t.height && t.height >= 1 && t.width >= 1
  {
  }

  lemma {:induction false} FittingFlushed(t: Term, rows: seq<Line>, area: Rect, strategy: Strategy, u: Term)
    requires Settled(t) && Fitted(area, t.height) && rows != [] && AllFit(rows, t.width)
    requires u == ExecAll(t, FlushOps(rows, area, t.height, strategy))
    ensures Fitted(NewArea(area, t.height, |rows|), t.height)
    ensures Stands(u, History(u, NewArea(area, t.height, |rows|).y), NewArea(area, t.height, |rows|).y)
    ensures Safe(strategy, area, t, |rows|) <==>
              History(u, NewArea(area, t.height, |rows|).y) == History(t, area.y) + RenderAll(rows, t.width)
  {
    hide ExecAll, InsertOps, ClearBandOps, InstallOps, Stands, Settled, RenderAll, AllFit, History, Safe, Wf;
    var placed := NewArea(area, t.height, |rows|);
    SettledSize(t);
    assert Clip(area, t.height) == area;
    var a := ExecAll(t, InsertOps(rows, area, t.height, strategy));
    FittingAppends(t, rows, area, strategy, a);
    SettleStands(a, placed);
    ExecConcat(t, InsertOps(rows, area, t.height, strategy), InstallOps(placed) + ClearBandOps(placed, t.height));
    StandsLength(u, History(a, placed.y), placed.y);
  }

  /** A flush appends its rows to history, re-wrapped where they are too wide, exactly
      when the insert is safe, and leaves the band blank directly below them. */
  lemma {:induction false} FlushAppends(t: Term, wrap: Wrapper, rows: seq<Line>, area: Rect, strategy: Strategy, u: Term)
    requires Settled(t) && Fitted(area, t.height) && rows != []
    requires u == ExecAll(t, FlushOps(Rewrapped(wrap, rows, t.width), area, t.height, strategy))
    ensures var fitted := Rewrapped(wrap, rows, t.width);
            var placed := NewArea(area, t.height, |fitted|);
            && Fitted(placed, t.height) && Stands(u, History(u, placed.y), placed.y)
            && (Safe(strategy, area, t, |fitted|) <==> History(u, placed.y) == History(t, area.y) + RenderAll(fitted, t.width))
            && (AllFit(rows, t.width) ==> fitted == rows)
  {
    hide ExecAll, FlushOps, Stands, Settled, RenderAll, AllFit, History, Safe, NewArea, Rewrapped;
    SettledSize(t);
    FittingFlushed(t, Rewrapped(wrap, rows, t.width), area, strategy, u);
  }

  /** A height change keeps history exactly when the overflow scrolls out safely,
      and keeps the band on screen, blank. */
  lemma {:induction false} HeightConserves(t: Term, area: Rect, target: nat, strategy: Strategy, u: Term)
    requires Settled(t) && Fitted(area, t.height) && 1 <= target <= t.height
    requires u == ExecAll(t, HeightOps(area, t.height, target, strategy))
    ensures Fitted(Rect(HeightTop(area, t.height, target), target), t.height)
    ensures Stands(u, History(u, HeightTop(area, t.height, target)), HeightTop(area, t.height, target))
    ensures ScrollSafe(strategy, area.y, t, area.y - HeightTop(area, t.height, target)) <==>
              History(u, HeightTop(area, t.height, target)) == History(t, area.y)
  {
    hide ExecAll, ClearBandOps, ScrollHistoryOps, InstallOps, Stands, Settled, History, Wf;
    SettledSize(t);
    var top := HeightTop(area, t.height, target);
    var displaced := area.y - top;
    var settle := InstallOps(Rect(top, target)) + ClearBandOps(Rect(top, target), t.height);
    var scroll := if displaced > 0 then ScrollHistoryOps(area.y, t.height, displaced, strategy) else [];
    BandCleared(t, area);
    var a := ExecAll(t, ClearBandOps(area, t.height));
    ExecConcat(t, ClearBandOps(area, t.height), scroll + settle);
    ExecConcat(a, scroll, settle);
    StandsLength(a, History(t, area.y), area.y);
    SettledSize(a);
    var b := ExecAll(a, scroll);
    if displaced > 0 {
      ScrollConserves(a, area.y, displaced, strategy, b);
    } else {
      ExecNone(a);
    }
    SettleStands(b, Rect(top, target));
    StandsLength(u, History(b, top), top);
  }

  lemma {:induction false} SameTail(x: seq<Row>, y: seq<Row>, rows: seq<Row>)
    ensures x + rows == y + rows <==> x == y
  {
    if x + rows == y + rows {
      assert x == (x + rows)[..|x|] && y == (y + rows)[..|y|];
    }
  }

  /** A replay of rows that fit the screen. */
  lemma {:induction false} FittingReplayed(t: Term, tail: seq<Line>, area: Rect, band: nat, strategy: Strategy, u: Term)
    requires Settled(t) && Fitted(area, t.height) && AllFit(tail, t.width) && band >= 1 && |tail| <= Less(t.height, band)
    requires u == ExecAll(t, ReplayOps(tail, area, t.height, band, strategy))
    ensures ReplayArea(tail, t.height, band).y == |tail| && Fitted(ReplayArea(tail, t.height, band), t.height)
    ensures Stands(u, History(u, |tail|), |tail|)
    ensures ScrollSafe(strategy, area.y, t, area.y) <==>
              History(u, |tail|) == History(t, area.y) + RenderAll(tail, t.width)
  {
    hide ExecAll, ClearBandOps, ClearBelowOps, ScrollHistoryOps, InstallOps, FlushOps, Stands, Settled, History, Wf, RenderAll, AllFit;
    SettledSize(t);
    var save := if area.y > 0 then ScrollHistoryOps(area.y, t.height, area.y, strategy) else [];
    var blank := Rect(0, ClampHeight(band, t.height));
    var settle := InstallOps(blank) + ClearBandOps(blank, t.height);
    var flush := FlushOps(tail, blank, t.height, strategy);
    ReplaySplit(t, save, ClearBelowOps(0, t.height), InstallOps(blank), ClearBandOps(blank, t.height), flush);
    var a := ExecAll(t, save);
    Saved(t, area, strategy, a);
    ClearedBelow(a, 0);
    var b := ExecAll(a, ClearBelowOps(0, t.height));
    StandsLength(b, History(a, 0), 0);
    SettleStands(b, blank);
    var c := ExecAll(b, settle);
    StandsLength(c, History(b, 0), 0);
    assert ReplayOps(tail, area, t.height, band, strategy)
        == save + (ClearBelowOps(0, t.height) + (InstallOps(blank) + (ClearBandOps(blank, t.height) + flush)));
    assert u == ExecAll(c, flush);
    Replayed(c, History(a, 0), tail, blank, strategy, u);
    StandsLength(u, History(a, 0) + RenderAll(tail, t.width), |tail|);
    SameTail(History(a, 0), History(t, area.y), RenderAll(tail, t.width));
  }

  /** A settled resize saves the window, then replays: history is the old one and
      the tail after it, re-wrapped where too wide, exactly when the save was safe;
      the band lies directly below, as many rows down as that tail is long. */
  lemma {:induction false} ReplayAppends(t: Term, wrap: Wrapper, tail: seq<Line>, area: Rect, band: nat, strategy: Strategy, u: Term)
    requires Settled(t) && Fitted(area, t.height) && band >= 1
    requires |Rewrapped(wrap, tail, t.width)| <= Less(t.height, band)
    requires u == ExecAll(t, ReplayOps(Rewrapped(wrap, tail, t.width), area, t.height, band, strategy))
    ensures var fitted := Rewrapped(wrap, tail, t.width);
            var placed := ReplayArea(fitted, t.height, band);
            && placed.y == |fitted| && Fitted(placed, t.height) && Stands(u, History(u, placed.y), placed.y)
            && (ScrollSafe(strategy, area.y, t, area.y) <==>
                  History(u, placed.y) == History(t, area.y) + RenderAll(fitted, t.width))
            && (AllFit(tail, t.width) ==> fitted == tail)
  {
    hide ExecAll, ReplayOps, Stands, Settled, RenderAll, AllFit, History, ScrollSafe, NewArea, Rewrapped;
    SettledSize(t);
    FittingReplayed(t, Rewrapped(wrap, tail, t.width), area, band, strategy, u);
  }

  lemma {:induction false} ReplaySplit(t: Term, save: seq<Op>, clear: seq<Op>, install: seq<Op>, band: seq<Op>, flush: seq<Op>)
    requires Wf(t)
    ensures ExecAll(t, save + (clear + (install + (band + flush))))
         == ExecAll(ExecAll(ExecAll(ExecAll(t, save), clear), install + band), flush)
  {
    hide ExecAll, Wf;
    ExecConcat(t, save, clear + (install + (band + flush)));
    var a := ExecAll(t, save);
    ExecConcat(a, clear, install + (band + flush));
    var b := ExecAll(a, clear);
    ConcatAssoc(install, band, flush);
    ExecConcat(b, install + band, flush);
  }

  lemma {:induction false} Saved(t: Term, area: Rect, strategy: Strategy, a: Term)
    requires Settled(t) && Fitted(area, t.height)
    requires a == ExecAll(t, if area.y > 0 then ScrollHistoryOps(area.y, t.height, area.y, strategy) else [])
    ensures Settled(a) && (ScrollSafe(strategy, area.y, t, area.y) <==> History(a, 0) == History(t, area.y))
  {
    hide ExecAll, ScrollHistoryOps, Settled, History;
    SettledSize(t);
    if area.y > 0 {
      ScrollConserves(t, area.y, area.y, strategy, a);
    } else {
      ExecNone(t);
    }
  }

  /** The tail fits the space above the band, so it needs no scrolling at all. */
  lemma {:induction false} Replayed(c: Term, history: seq<Row>, tail: seq<Line>, blank: Rect, strategy: Strategy, u: Term)
    requires Stands(c, history, 0) && blank.y == 0 && Fitted(blank, c.height)
    requires AllFit(tail, c.width) && |tail| + blank.height <= c.height
    requires u == ExecAll(c, FlushOps(tail, blank, c.height, strategy))
    ensures Stands(u, history + RenderAll(tail, c.width), |tail|)
    ensures tail != [] ==> NewArea(blank, c.height, |tail|) == Rect(|tail|, blank.height)
  {
    hide ExecAll, Stands, Settled, RenderAll, AllFit, InsertOps, ClearBandOps;
    StandsLength(c, history, 0);
    if tail == [] {
      ExecNone(c);
      assert RenderAll(tail, c.width) == [] by { NothingRendered(c.width); }
      assert history + [] == history;
    } else {
      FittingFlushed(c, tail, blank, strategy, u);
    }
  }

  lemma {:induction false} NothingRendered(width: nat)
    ensures RenderAll([], width) == []
  {
  }

  // ------------------------------------------------------------------ whole runs

  /** What a session does: rows out, a new height, a settled resize, a repaint. */
  datatype Job = InsertRows(rows: seq<Line>) | ChangeHeight(desired: nat) | ReplayTail(tail: seq<Line>) | Paint(band: seq<Row>)

  datatype Session = Session(term: Term, area: Rect, band: nat)

  predicate SessionOk(s: Session) {
    Settled(s.term) && Fitted(s.area, s.term.height) && s.band >= 1
  }

  /** Rows may be of any width; a replay keeps within its window. */
  predicate JobOk(s: Session, job: Job, wrap: Wrapper)
    requires SessionOk(s)
  {
    match job
    case InsertRows(_) => true
    case ChangeHeight(_) => true
    case ReplayTail(tail) => |Rewrapped(wrap, tail, s.term.width)| <= Less(s.term.height, s.band)
    case Paint(band) => |band| == s.area.height && forall i :: 0 <= i < |band| ==> |band[i]| == s.term.width
  }

  function Perform(s: Session, job: Job, wrap: Wrapper, strategy: Strategy): Session
    requires SessionOk(s) && JobOk(s, job, wrap)
  {
    var height := s.term.height;
    match job
    case InsertRows(rows) =>
      var fitted := Rewrapped(wrap, rows, s.term.width);
      Session(ExecAll(s.term, FlushOps(fitted, s.area, height, strategy)),
              if rows == [] then s.area else NewArea(s.area, height, |fitted|), s.band)
    case ChangeHeight(desired) =>
      var target := ClampHeight(desired, height);
      if target == ClampHeight(s.band, height) then s
      else Session(ExecAll(s.term, HeightOps(s.area, height, target, strategy)),
                   Rect(HeightTop(s.area, height, target), target), target)
    case ReplayTail(tail) =>
      var fitted := Rewrapped(wrap, tail, s.term.width);
      Session(ExecAll(s.term, ReplayOps(fitted, s.area, height, s.band, strategy)), ReplayArea(fitted, height, s.band), s.band)
    case Paint(band) =>
      var y := s.area.y;
      s.(term := s.term.(screen := s.term.screen[..y] + band + s.term.screen[y + |band|..]))
  }

  /** The rows a job adds to history on a screen this wide. */
  function Rows(job: Job, wrap: Wrapper, width: nat): (r: seq<Line>)
    requires width >= 1
    ensures AllFit(r, width)
  {
    match job
    case InsertRows(rows) => Rewrapped(wrap, rows, width)
    case ReplayTail(tail) => Rewrapped(wrap, tail, width)
    case _ => []
  }

  /** A terminal and strategy that never lose a departing row. */
  predicate Keeps(t: Term, strategy: Strategy) {
    strategy == FullScreen || t.quirks.keepsRegionScroll
  }

  lemma {:induction false} JobAppends(s: Session, job: Job, wrap: Wrapper, strategy: Strategy)
    requires SessionOk(s) && JobOk(s, job, wrap) && Keeps(s.term, strategy)
    ensures var r := Perform(s, job, wrap, strategy);
            && SessionOk(r) && Alike(s.term, r.term)
            && History(r.term, r.area.y) == History(s.term, s.area.y) + RenderAll(Rows(job, wrap, s.term.width), s.term.width)
  {
    hide ExecAll, FlushOps, HeightOps, ReplayOps, Stands, Settled, RenderAll, AllFit, History, Rewrapped;
    var t, r := s.term, Perform(s, job, wrap, strategy);
    SettledSize(t);
    NothingRendered(t.width);
    assert History(t, s.area.y) + [] == History(t, s.area.y);
    match job
    case InsertRows(rows) =>
      if rows == [] {
        assert Rewrapped(wrap, rows, t.width) == [] by { NoneRewrapped(wrap, t.width); }
        NoFlush(t, s.area, strategy);
      } else {
        FlushAppends(t, wrap, rows, s.area, strategy, r.term);
        StandsLength(r.term, History(r.term, r.area.y), r.area.y);
      }
    case ChangeHeight(desired) =>
      if r != s {
        var target := ClampHeight(desired, t.height);
        HeightConserves(t, s.area, target, strategy, ExecAll(t, HeightOps(s.area, t.height, target, strategy)));
        StandsLength(r.term, History(r.term, r.area.y), r.area.y);
      }
    case ReplayTail(tail) =>
      ReplayAppends(t, wrap, tail, s.area, s.band, strategy, r.term);
      StandsLength(r.term, History(r.term, r.area.y), r.area.y);
    case Paint(band) =>
      Painted(s, band, wrap);
  }

  lemma {:induction false} NoFlush(t: Term, area: Rect, strategy: Strategy)
    requires Wf(t)
    ensures ExecAll(t, FlushOps([], area, t.height, strategy)) == t
  {
    ExecNone(t);
  }

  lemma {:induction false} NoneRewrapped(wrap: Wrapper, width: nat)
    requires width >= 1
    ensures Rewrapped(wrap, [], width) == []
  {
  }

  lemma {:induction false} Painted(s: Session, band: seq<Row>, wrap: Wrapper)
    requires SessionOk(s) && JobOk(s, Paint(band), wrap)
    ensures var u := s.term.(screen := s.term.screen[..s.area.y] + band + s.term.screen[s.area.y + |band|..]);
            Settled(u) && History(u, s.area.y) == History(s.term, s.area.y)
  {
    var y := s.area.y;
    var screen := s.term.screen[..y] + band + s.term.screen[y + |band|..];
    assert screen[..y] == s.term.screen[..y];
  }

  ghost predicate JobsOk(s: Session, jobs: seq<Job>, wrap: Wrapper, strategy: Strategy)
    decreases |jobs|
  {
    jobs == [] ||
    (SessionOk(s) && JobOk(s, jobs[0], wrap) && JobsOk(Perform(s, jobs[0], wrap, strategy), jobs[1..], wrap, strategy))
  }

  ghost function PerformAll(s: Session, jobs: seq<Job>, wrap: Wrapper, strategy: Strategy): Session
    requires JobsOk(s, jobs, wrap, strategy)
    decreases |jobs|
  {
    if jobs == [] then s else PerformAll(Perform(s, jobs[0], wrap, strategy), jobs[1..], wrap, strategy)
  }

  function RowsOf(jobs: seq<Job>, wrap: Wrapper, width: nat): (r: seq<Line>)
    requires width >= 1
    ensures AllFit(r, width)
  {
    if jobs == [] then [] else Rows(jobs[0], wrap, width) + RowsOf(jobs[1..], wrap, width)
  }

  /** Over any run of inserts, height changes, settled resizes and repaints:
      history only grows, by exactly the inserted and replayed rows, in order. */
  lemma {:induction false} RunAppends(s: Session, jobs: seq<Job>, wrap: Wrapper, strategy: Strategy)
    requires SessionOk(s) && JobsOk(s, jobs, wrap, strategy) && Keeps(s.term, strategy)
    ensures var r := PerformAll(s, jobs, wrap, strategy);
            && SessionOk(r)
            && History(r.term, r.area.y) == History(s.term, s.area.y) + RenderAll(RowsOf(jobs, wrap, s.term.width), s.term.width)
    decreases |jobs|
  {
    hide Perform, SessionOk, JobOk, AllFit, History, Render, Rows;
    SessionHistory(s);
    if jobs != [] {
      var next := Perform(s, jobs[0], wrap, strategy);
      JobAppends(s, jobs[0], wrap, strategy);
      RunAppends(next, jobs[1..], wrap, strategy);
      BothFit(Rows(jobs[0], wrap, s.term.width), RowsOf(jobs[1..], wrap, s.term.width), s.term.width);
      ConcatAssoc(History(s.term, s.area.y), RenderAll(Rows(jobs[0], wrap, s.term.width), s.term.width),
                  RenderAll(RowsOf(jobs[1..], wrap, s.term.width), s.term.width));
    }
  }

  lemma {:induction false} SessionHistory(s: Session)
    requires SessionOk(s)
    ensures Wf(s.term) && s.area.y <= s.term.height && s.term.width >= 1
    ensures History(s.term, s.area.y) + RenderAll([], s.term.width) == History(s.term, s.area.y)
  {
  }

  lemma {:induction false} BothFit(a: seq<Line>, b: seq<Line>, width: nat)
    requires AllFit(a, width) && AllFit(b, width)
    ensures AllFit(a + b, width) && RenderAll(a + b, width) == RenderAll(a, width) + RenderAll(b, width)
  {
  }

  // ------------------------------------------------------------ where the band goes

  /** Rows of history that were on screen have left it. */
  lemma {:induction false} RowsLeft(t: Term, u: Term, top: nat, below: nat, added: nat)
    requires Wf(t) && Wf(u) && top <= t.height && below <= u.height
    requires |History(u, below)| == |History(t, top)| + added && History(t, top) <= History(u, below)
    ensures |u.scrollback| + below == |t.scrollback| + top + added
    ensures t.scrollback <= u.scrollback || u.scrollback <= t.scrollback
  {
    assert |History(u, below)| == |u.scrollback| + below;
    assert |History(t, top)| == |t.scrollback| + top;
    assert History(t, top)[..|t.scrollback|] == t.scrollback;
    assert History(u, below)[..|u.scrollback|] == u.scrollback;
  }

  /** A wanted height on the screen is the height the band gets. A band that still
      fits from where it is keeps its top, and no row leaves the screen; one that does
      not ends on the last row, and exactly the overflow scrolls out. */
  lemma {:induction false} HeightPlaces(s: Session, desired: nat, wrap: Wrapper, strategy: Strategy)
    requires SessionOk(s) && s.band == s.area.height && Keeps(s.term, strategy) && 1 <= desired <= s.term.height
    ensures var r, end := Perform(s, ChangeHeight(desired), wrap, strategy), s.area.y + desired;
            && SessionOk(r) && r.area.height == r.band == desired
            && (end <= s.term.height ==> r.area.y == s.area.y && r.term.scrollback == s.term.scrollback)
            && (end > s.term.height ==>
                  && r.area.y + desired == s.term.height
                  && s.term.scrollback <= r.term.scrollback
                  && |r.term.scrollback| == |s.term.scrollback| + (end - s.term.height))
  {
    hide HeightOps, Settled, History, Stands, ExecAll;
    var r := Perform(s, ChangeHeight(desired), wrap, strategy);
    JobAppends(s, ChangeHeight(desired), wrap, strategy);
    SettledSize(s.term);
    SettledSize(r.term);
    NothingRendered(s.term.width);
    assert History(s.term, s.area.y) + [] == History(s.term, s.area.y);
    RowsLeft(s.term, r.term, s.area.y, r.area.y, 0);
  }

  /** Inserted rows take the blank rows under the band first: while they last the band
      moves down by as many rows as came in and nothing leaves the screen; then it ends
      on the last row, and exactly the overflow scrolls out. Its height stays. */
  lemma {:induction false} InsertPlaces(s: Session, rows: seq<Line>, wrap: Wrapper, strategy: Strategy)
    requires SessionOk(s) && Keeps(s.term, strategy)
    ensures var r := Perform(s, InsertRows(rows), wrap, strategy);
            var end := s.area.y + s.area.height + |Rewrapped(wrap, rows, s.term.width)|;
            && SessionOk(r) && r.area.height == s.area.height && r.band == s.band
            && (end <= s.term.height ==>
                  && r.area.y + r.area.height == end
                  && r.term.scrollback == s.term.scrollback)
            && (end > s.term.height ==>
                  && r.area.y + r.area.height == s.term.height
                  && s.term.scrollback <= r.term.scrollback
                  && |r.term.scrollback| == |s.term.scrollback| + (end - s.term.height))
  {
    hide FlushOps, Settled, History, Stands, ExecAll, Rewrapped, RenderAll;
    var r := Perform(s, InsertRows(rows), wrap, strategy);
    var fitted := Rewrapped(wrap, rows, s.term.width);
    JobAppends(s, InsertRows(rows), wrap, strategy);
    SettledSize(s.term);
    SettledSize(r.term);
    assert rows == [] ==> fitted == [] by { NoneRewrapped(wrap, s.term.width); }
    RenderedLength(fitted, s.term.width);
    RowsLeft(s.term, r.term, s.area.y, r.area.y, |fitted|);
  }

  /** A settled resize puts the band, at its own height, directly under the tail it
      replays, and everything that was on screen above it has left into scrollback. */
  lemma {:induction false} ReplayPlaces(s: Session, tail: seq<Line>, wrap: Wrapper, strategy: Strategy)
    requires SessionOk(s) && JobOk(s, ReplayTail(tail), wrap) && Keeps(s.term, strategy) && s.band <= s.term.height
    ensures var r := Perform(s, ReplayTail(tail), wrap, strategy);
            && SessionOk(r) && r.area == Rect(|Rewrapped(wrap, tail, s.term.width)|, s.band) && r.band == s.band
            && r.term.scrollback == History(s.term, s.area.y)
  {
    hide ReplayOps, Settled, Stands, ExecAll, Rewrapped, RenderAll, History;
    var r := Perform(s, ReplayTail(tail), wrap, strategy);
    var fitted := Rewrapped(wrap, tail, s.term.width);
    JobAppends(s, ReplayTail(tail), wrap, strategy);
    SettledSize(s.term);
    SettledSize(r.term);
    RenderedLength(fitted, s.term.width);
    assert r.area == ReplayArea(fitted, s.term.height, s.band);
    Windowed(r.term, History(s.term, s.area.y), RenderAll(fitted, s.term.width), r.area.y);
  }

  lemma {:induction false} Windowed(u: Term, before: seq<Row>, rows: seq<Row>, top: nat)
    requires Wf(u) && top <= u.height && top == |rows| && History(u, top) == before + rows
    ensures u.scrollback == before
  {
    assert |u.scrollback| == |before|;
    assert (before + rows)[..|before|] == before;
    assert History(u, top)[..|u.scrollback|] == u.scrollback;
  }

  lemma {:induction false} RenderedLength(rows: seq<Line>, width: nat)
    requires AllFit(rows, width)
    ensures |RenderAll(rows, width)| == |rows|
  {
  }
}
