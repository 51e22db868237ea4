/**
 The inline shell: which band it owns, and the programs it runs to insert rows, to
 change the band's height and to replay after a resize.
 */
module Shells {
  import opened Prelude
  import opened Terminals
  import opened HistoryInsert
  import opened HistoryLaws

  function ClampHeight(desired: nat, rows: nat): (h: nat)
    ensures 1 <= h && (rows >= 1 ==> h <= rows)
    ensures 1 <= desired <= rows ==> h == desired
  {
    var most := if rows >= 1 then rows else 1;
    if desired < 1 then 1 else if desired > most then most else desired
  }

  /** The band on a screen it fits. */
  predicate Fitted(area: Rect, height: nat) {
    area.height >= 1 && area.y + area.height <= height
  }

  function Max(a: nat, b: nat): nat {
    if a >= b then a else b
  }

  // ---------------------------------------------------------------- the programs

  function ClearBandOps(area: Rect, height: nat): seq<Op> {
    ClearBelowOps(area.y, Max(height, area.y + area.height)) + [MoveTo(0, area.y)]
  }

  function InstallOps(area: Rect): seq<Op> {
    [MoveTo(0, area.y)]
  }

  function FlushOps(rows: seq<Line>, area: Rect, height: nat, strategy: Strategy): seq<Op> {
    if rows == [] then []
    else
      var placed := NewArea(area, height, |rows|);
      InsertOps(rows, area, height, strategy) + (InstallOps(placed) + ClearBandOps(placed, height))
  }

  /** Where the band's top goes when its height becomes `target`. */
  function HeightTop(area: Rect, height: nat, target: nat): nat {
    Min(area.y, Less(height, target))
  }

  function HeightOps(area: Rect, height: nat, target: nat, strategy: Strategy): seq<Op> {
    var top := HeightTop(area, height, target);
    var displaced := area.y - top;
    ClearBandOps(area, height)
    + ((if displaced > 0 then ScrollHistoryOps(area.y, height, displaced, strategy) else [])
       + (InstallOps(Rect(top, target)) + ClearBandOps(Rect(top, target), height)))
  }

  /** Save the visible window, clear the screen, replay the tail at the top. */
  function ReplayOps(tail: seq<Line>, area: Rect, height: nat, band: nat, strategy: Strategy): seq<Op> {
    var blank := Rect(0, ClampHeight(band, height));
    (if area.y > 0 then ScrollHistoryOps(area.y, height, area.y, strategy) else [])
    + (ClearBelowOps(0, height) + (InstallOps(blank) + (ClearBandOps(blank, height) + FlushOps(tail, blank, height, strategy))))
  }

  function ReplayArea(tail: seq<Line>, height: nat, band: nat): Rect {
    var blank := Rect(0, ClampHeight(band, height));
    if tail == [] then blank else NewArea(blank, height, |tail|)
  }

  // ------------------------------------------------------------------ the object

  class InlineShell {
    var out: Writer
    var area: Rect
    var bandHeight: nat
    var width: nat
    var screenWidth: nat
    var screenHeight: nat
    var replayPending: bool
    var growRefitPending: bool
    const scrollback: Strategy
    const wrap: Wrapper

    /** On a screen of known size, with the band reserved at `area`. */
    constructor (out: Writer, area: Rect, width: nat, height: nat, scrollback: Strategy, wrap: Wrapper)
      requires Fitted(area, height)
      ensures this.wrap == wrap
      ensures this.out == out && this.area == area && bandHeight == area.height && this.scrollback == scrollback
      ensures screenWidth == width && this.width == width && screenHeight == height && !replayPending && !growRefitPending
    {
      this.out, this.area, bandHeight := out, area, area.height;
      this.width, screenWidth, screenHeight := width, width, height;
      replayPending, growRefitPending := false, false;
      this.scrollback, this.wrap := scrollback, wrap;
    }

    /** The rows as they fit the screen. */
    function Fitting(rows: seq<Line>): (r: seq<Line>)
      reads this`screenWidth
      ensures |rows| <= |r|
    {
      Rewrapped(wrap, rows, AtLeastOne(screenWidth))
    }

    /** The screen narrowed, now or since the last settled resize, or it grew. */
    predicate NeedsReplay()
      reads this
    {
      screenWidth < width || replayPending || growRefitPending
    }

    method ClearBand() returns (ok: bool)
      modifies out
      ensures Wrote(old(out.written), out.written, ClearBandOps(area, screenHeight), ok)
    {
      var start := out.written;
      var clear := ClearBelowOps(area.y, Max(screenHeight, area.y + area.height));
      ok := ClearBelow(out, area.y, Max(screenHeight, area.y + area.height));
      if !ok {
        WroteHalf(start, out.written, clear, clear + [MoveTo(0, area.y)]);
        return;
      }
      var before := out.written;
      ok := out.Put(MoveTo(0, area.y));
      WroteThen(start, before, out.written, clear, [MoveTo(0, area.y)], ok);
    }

    method InstallArea(placed: Rect) returns (ok: bool)
      modifies this`area, out
      ensures area == placed && Wrote(old(out.written), out.written, InstallOps(placed), ok)
    {
      area := placed;
      ok := out.Put(MoveTo(0, placed.y));
    }

    /** The tail of every operation: publish the rectangle, then blank it. */
    method Settle(placed: Rect) returns (ok: bool)
      modifies this`area, out
      ensures area == placed
      ensures ok ==> out.written == old(out.written) + (InstallOps(placed) + ClearBandOps(placed, screenHeight))
    {
      ok := InstallArea(placed);
      if !ok { return; }
      ok := ClearBand();
      ConcatAssoc(old(out.written), InstallOps(placed), ClearBandOps(placed, screenHeight));
    }

    /** Completed rows leave above the band. */
    method Flush(rows: seq<Line>) returns (ok: bool)
      modifies this`area, out
      ensures ok ==> out.written == old(out.written) + FlushOps(Fitting(rows), old(area), screenHeight, scrollback)
      ensures ok ==> area == if rows == [] then old(area) else NewArea(old(area), screenHeight, |Fitting(rows)|)
    {
      hide InsertOps, ClearBandOps, NewArea;
      assert rows == [] ==> Fitting(rows) == [];
      ok := true;
      if rows == [] {
        assert out.written + [] == out.written;
        return;
      }
      var placed;
      ok, placed := Insert(out, wrap, rows, area, screenWidth, screenHeight, scrollback);
      if !ok { return; }
      ok := Settle(placed);
      ConcatAssoc(old(out.written), InsertOps(Fitting(rows), old(area), screenHeight, scrollback),
                  InstallOps(placed) + ClearBandOps(placed, screenHeight));
    }

    /** Grow into the blank rows below, scroll only the overflow; shrink in place. */
    method SetHeight(desired: nat) returns (ok: bool)
      requires Fitted(area, screenHeight)
      modifies this`area, this`bandHeight, out
      ensures var target := ClampHeight(desired, screenHeight);
              if target == ClampHeight(old(bandHeight), screenHeight)
              then ok && out.written == old(out.written) && area == old(area) && bandHeight == old(bandHeight)
              else ok ==>
                && out.written == old(out.written) + HeightOps(old(area), screenHeight, target, scrollback)
                && area.height == bandHeight == target && (1 <= desired <= screenHeight ==> target == desired)
                && (old(area).y + target <= screenHeight ==> area.y == old(area).y)
                && (old(area).y + target > screenHeight ==> area.y + target == screenHeight)
    {
      hide ScrollHistoryOps, ClearBandOps;
      var target := ClampHeight(desired, screenHeight);
      ok := true;
      if target == ClampHeight(bandHeight, screenHeight) { return; }
      var start, from := out.written, area;
      ok := ClearBand();
      if !ok { return; }
      var top := Min(from.y, Less(screenHeight, target));
      var displaced := from.y - top;
      var cleared := out.written;
      var scroll := if displaced > 0 then ScrollHistoryOps(from.y, screenHeight, displaced, scrollback) else [];
      if displaced > 0 {
        ok := ScrollHistory(out, from.y, screenHeight, displaced, scrollback);
        if !ok { return; }
      } else {
        assert out.written + [] == out.written;
      }
      bandHeight := target;
      ok := Settle(Rect(top, target));
      var last := InstallOps(Rect(top, target)) + ClearBandOps(Rect(top, target), screenHeight);
      ConcatAssoc(cleared, scroll, last);
      ConcatAssoc(start, ClearBandOps(from, screenHeight), scroll + last);
    }

    /** The settled half of a resize, once the band fits the new size: after a
        narrowing or a growth the window is saved, cleared and replayed. */
    method OnResize(tail: seq<Line>) returns (ok: bool)
      requires Fitted(area, screenHeight)
      requires |tail| <= Less(screenHeight, bandHeight)
      modifies this, out
      ensures out == old(out) && bandHeight == old(bandHeight) && screenHeight == old(screenHeight) && screenWidth == old(screenWidth)
      ensures ok ==> width == screenWidth && !replayPending && !growRefitPending
      ensures ok && old(screenWidth < width || replayPending || growRefitPending) ==>
                && out.written == old(out.written) + ReplayOps(Fitting(tail), old(area), screenHeight, bandHeight, scrollback)
                && area == ReplayArea(Fitting(tail), screenHeight, bandHeight)
      ensures ok && !old(screenWidth < width || replayPending || growRefitPending) ==> out.written == old(out.written) && area == old(area)
    {
      hide ScrollHistoryOps, ClearBandOps, FlushOps, ClearBelowOps, NewArea;
      ok := true;
      assert out.written + [] == out.written;
      if NeedsReplay() {
        ok := Replay(tail);
        if !ok { return; }
      }
      width := screenWidth;
      replayPending, growRefitPending := false, false;
    }

    method Replay(tail: seq<Line>) returns (ok: bool)
      requires Fitted(area, screenHeight)
      modifies this`area, out
      ensures ok ==> out.written == old(out.written) + ReplayOps(Fitting(tail), old(area), screenHeight, bandHeight, scrollback)
      ensures ok ==> area == ReplayArea(Fitting(tail), screenHeight, bandHeight)
    {
      hide ScrollHistoryOps, ClearBandOps, FlushOps, ClearBelowOps, NewArea;
      var start, visible := out.written, area.y;
      var save := if visible > 0 then ScrollHistoryOps(visible, screenHeight, visible, scrollback) else [];
      ok := true;
      assert start + [] == start;
      if visible > 0 {
        ok := ScrollHistory(out, visible, screenHeight, visible, scrollback);
        if !ok { return; }
      }
      var saved := out.written;
      ok := ClearBelow(out, 0, screenHeight);
      if !ok { return; }
      var cleared := out.written;
      var blank := Rect(0, ClampHeight(bandHeight, screenHeight));
      ok := Settle(blank);
      if !ok { return; }
      var settled := out.written;
      ok := Flush(tail);
      var rest := FlushOps(Fitting(tail), blank, screenHeight, scrollback);
      ConcatAssoc(cleared, InstallOps(blank) + ClearBandOps(blank, screenHeight), rest);
      ConcatAssoc(InstallOps(blank), ClearBandOps(blank, screenHeight), rest);
      ConcatAssoc(saved, ClearBelowOps(0, screenHeight), InstallOps(blank) + (ClearBandOps(blank, screenHeight) + rest));
      ConcatAssoc(start, save, ClearBelowOps(0, screenHeight) + (InstallOps(blank) + (ClearBandOps(blank, screenHeight) + rest)));
    }
  }
}
