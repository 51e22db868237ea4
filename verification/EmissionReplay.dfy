/**
 The resize replay: what is re-materialized from source is exactly what already
 reached scrollback, the partly drained front emission included.
 */
module EmissionReplay {
  import opened Prelude
  import opened Emission
  import opened EmissionLaws
  import opened EmissionRuns

  /** The logical lines a source slice names, rendered again from the source. */
  function SourceLines(e: Env, source: string, slice: SourceSlice): seq<Line> {
    var d := e.doc(Take(source, slice.end));
    if slice.trailing + slice.lines <= |d|
    then d[|d| - slice.trailing - slice.lines..|d| - slice.trailing]
    else []
  }

  /** The confirmed display rows of the emission in progress, at the new width. */
  function PartialReplay(e: Env, t: State, k: nat, width: nat): seq<Row>
    requires k < |t.blocks|
  {
    if k == t.flushed && t.partial.Some? then
      var prefix := t.partial.value;
      var original :=
        match t.blocks[k]
        case Static(lines) => WrapLines(e, lines, prefix.width)
        case Agent(source, _, _, _) =>
          if prefix.source.Some? then WrapLines(e, SourceLines(e, source, prefix.source.value), prefix.width) else [];
      RewrapRows(e, Take(original, prefix.rows), width)
    else []
  }

  /** One block's replay: a flushed static block whole, an assistant block's
      acked lines (bounded by the 16-bit row count), then the partial rows. */
  function BlockReplay(e: Env, t: State, k: nat, width: nat): seq<Row>
    requires k < |t.blocks|
  {
    (match t.blocks[k]
     case Static(lines) => if k < t.flushed then WrapLines(e, lines, width) else []
     case Agent(_, _, acked, _) => Last(WrapLines(e, Take(Document(e, t.blocks[k]), acked), width), U16_MAX))
    + PartialReplay(e, t, k, width)
  }

  /** The newest `max` rows of the first `n` blocks, walked newest-first. */
  function ReplayTail(e: Env, t: State, n: nat, max: nat, width: nat): (r: seq<Row>)
    requires n <= |t.blocks|
    ensures |r| <= max
  {
    if n == 0 || max == 0 then []
    else
      var rows := Last(BlockReplay(e, t, n - 1, width), max);
      ReplayTail(e, t, n - 1, max - |rows|, width) + rows
  }

  lemma {:induction false} ReplayTailNext(e: Env, t: State, n: nat, max: nat, width: nat)
    requires 0 < n <= |t.blocks| && max > 0
    ensures var rows := Last(BlockReplay(e, t, n - 1, width), max);
            ReplayTail(e, t, n, max, width) == ReplayTail(e, t, n - 1, max - |rows|, width) + rows
  {
    hide BlockReplay;
  }

  lemma {:induction false} ReplayTailDone(e: Env, t: State, n: nat, max: nat, width: nat)
    requires n <= |t.blocks|
    ensures n == 0 || max == 0 ==> ReplayTail(e, t, n, max, width) == []
  {
    hide BlockReplay;
  }

  /** The same history without any window. */
  function FullReplay(e: Env, t: State, n: nat, width: nat): seq<Row>
    requires n <= |t.blocks|
  {
    if n == 0 then [] else FullReplay(e, t, n - 1, width) + FullBlock(e, t, n - 1, width)
  }

  function FullBlock(e: Env, t: State, k: nat, width: nat): seq<Row>
    requires k < |t.blocks|
  {
    (match t.blocks[k]
     case Static(lines) => if k < t.flushed then WrapLines(e, lines, width) else []
     case Agent(_, _, acked, _) => WrapLines(e, Take(Document(e, t.blocks[k]), acked), width))
    + PartialReplay(e, t, k, width)
  }

  lemma {:induction false} BlockWindow(e: Env, t: State, k: nat, max: nat, width: nat)
    requires k < |t.blocks| && max <= U16_MAX
    ensures Last(BlockReplay(e, t, k, width), max) == Last(FullBlock(e, t, k, width), max)
  {
    hide WrapLines, PartialReplay, Document, Last;
    if t.blocks[k].Agent? {
      var rows := WrapLines(e, Take(Document(e, t.blocks[k]), t.blocks[k].acked), width);
      WindowTwice(rows, PartialReplay(e, t, k, width), U16_MAX, max);
    }
  }

  /** A window taken ahead of a smaller one makes no difference. */
  lemma {:induction false} WindowTwice(rows: seq<Row>, part: seq<Row>, m: nat, n: nat)
    requires n <= m
    ensures Last(Last(rows, m) + part, n) == Last(rows + part, n)
  {
    LastOfConcat(rows, part, n);
    LastOfConcat(Last(rows, m), part, n);
    if |part| <= n { LastOfLast(rows, m, n - |part|); }
  }

  /** The windowed walk is a window over the whole history. */
  lemma {:induction false} ReplayWindow(e: Env, t: State, n: nat, max: nat, width: nat)
    requires n <= |t.blocks| && max <= U16_MAX
    ensures ReplayTail(e, t, n, max, width) == Last(FullReplay(e, t, n, width), max)
    decreases n
  {
    hide BlockReplay, FullBlock, Last;
    if n > 0 && max > 0 {
      BlockWindow(e, t, n - 1, max, width);
      var rows := Last(BlockReplay(e, t, n - 1, width), max);
      ReplayWindow(e, t, n - 1, max - |rows|, width);
      WindowConcat(FullReplay(e, t, n - 1, width), FullBlock(e, t, n - 1, width), max);
    }
  }

  /** The partial rows rebuilt from the source slice are the rows that left. */
  lemma {:induction false} PartialIsFront(e: Env, t: State, width: nat)
    requires Inv(e, t) && t.flushed < |t.blocks|
    ensures PartialReplay(e, t, t.flushed, width) == RewrapRows(e, PartialRows(e, t.blocks, t.queue, Start(t)), width)
  {
    hide StablePrefix, Document, OpenOk, BlockOk;
    if t.partial.Some? {
      var f := t.queue[0];
      assert EmissionOk(e, t.blocks, f, Start(t));
      var lines := SliceLines(e, t.blocks, f.ack, Start(t));
      if f.ack.AgentLines? {
        assert lines != [];
        var b := t.blocks[t.flushed];
        var slice := f.prefix.source.value;
        assert Take(b.source, slice.end) == b.source[..slice.end];
        assert SourceLines(e, b.source, slice) == lines;
      }
    } else {
      assert PartialRows(e, t.blocks, t.queue, Start(t)) == [];
    }
  }

  lemma {:induction false} FlushedReplay(e: Env, t: State, n: nat, width: nat)
    requires Inv(e, t) && n <= t.flushed
    ensures FullReplay(e, t, n, width) == WrapLines(e, BlocksLines(e, t.blocks, n), width)
    decreases n
  {
    hide Inv, BlockOk, WrapLines, FullBlock, Stable;
    InvBlocks(e, t);
    if n == 0 {
      NothingWrapped(e, width);
    } else {
      FlushedReplay(e, t, n - 1, width);
      FlushedBlock(e, t, n - 1, width);
      WrapConcat(e, BlocksLines(e, t.blocks, n - 1), Stable(e, t.blocks[n - 1]), width);
    }
  }

  lemma {:induction false} InvBlocks(e: Env, t: State)
    requires Inv(e, t)
    ensures t.flushed <= t.queued <= |t.blocks|
    ensures forall k :: 0 <= k < |t.blocks| ==> BlockOk(e, t.blocks[k], k, t.flushed, t.queued)
  {
    hide BlockOk, Aligned, OpenOk, FreshTail;
  }

  lemma {:induction false} FlushedBlock(e: Env, t: State, k: nat, width: nat)
    requires k < t.flushed && k < |t.blocks| && BlockOk(e, t.blocks[k], k, t.flushed, t.queued)
    ensures FullBlock(e, t, k, width) == WrapLines(e, Stable(e, t.blocks[k]), width)
  {
    var b := t.blocks[k];
    if b.Agent? { assert Take(Document(e, b), b.acked) == Stable(e, b); }
  }

  lemma {:induction false} UnflushedReplay(e: Env, t: State, n: nat, width: nat)
    requires Inv(e, t) && t.flushed < n <= |t.blocks|
    ensures FullReplay(e, t, n, width) == FullReplay(e, t, t.flushed + 1, width)
    decreases n
  {
    hide Aligned, OpenOk, FullBlock, Stable;
    if n > t.flushed + 1 {
      UnflushedReplay(e, t, n - 1, width);
      UnflushedBlock(e, t, n - 1, width);
    }
  }

  lemma {:induction false} UnflushedBlock(e: Env, t: State, k: nat, width: nat)
    requires t.flushed < k < |t.blocks| && BlockOk(e, t.blocks[k], k, t.flushed, t.queued)
    ensures FullBlock(e, t, k, width) == []
  {
    hide Document, Stable;
  }

  /** Replay at any width: the confirmed lines wrapped at that width, followed by
      the confirmed rows of the emission in progress, cut to the window. */
  lemma {:induction false} ReplayIsConfirmed(e: Env, t: State, max: nat, width: nat)
    requires Inv(e, t) && max <= U16_MAX
    ensures Start(t).block <= |t.blocks|
    ensures ReplayTail(e, t, |t.blocks|, max, width)
         == Last(WrapLines(e, LinesUpTo(e, t.blocks, Start(t)), width)
                 + RewrapRows(e, PartialRows(e, t.blocks, t.queue, Start(t)), width), max)
  {
    hide *;
    ReplayWindow(e, t, |t.blocks|, max, width);
    WholeReplay(e, t, width);
  }

  lemma {:induction false} WholeReplay(e: Env, t: State, width: nat)
    requires Inv(e, t)
    ensures Start(t).block <= |t.blocks|
    ensures FullReplay(e, t, |t.blocks|, width)
         == WrapLines(e, LinesUpTo(e, t.blocks, Start(t)), width)
            + RewrapRows(e, PartialRows(e, t.blocks, t.queue, Start(t)), width)
  {
    hide Aligned, OpenOk, FullBlock, FullReplay, Stable, WrapLines, BlocksLines;
    FlushedReplay(e, t, t.flushed, width);
    if t.flushed < |t.blocks| {
      UnflushedReplay(e, t, |t.blocks|, width);
      CurrentReplay(e, t, width);
    } else {
      NoQueueAtEnd(e, t);
      assert BlocksLines(e, t.blocks, t.flushed) + [] == BlocksLines(e, t.blocks, t.flushed);
    }
  }

  lemma {:induction false} NoQueueAtEnd(e: Env, t: State)
    requires Inv(e, t) && t.flushed == |t.blocks|
    ensures t.queue == []
  {
  }

  lemma {:induction false} CurrentReplay(e: Env, t: State, width: nat)
    requires Inv(e, t) && t.flushed < |t.blocks|
    requires FullReplay(e, t, t.flushed, width) == WrapLines(e, BlocksLines(e, t.blocks, t.flushed), width)
    ensures FullReplay(e, t, t.flushed + 1, width)
         == WrapLines(e, LinesUpTo(e, t.blocks, Start(t)), width)
            + RewrapRows(e, PartialRows(e, t.blocks, t.queue, Start(t)), width)
  {
    hide Aligned, OpenOk, PartialReplay, StablePrefix;
    var b := t.blocks[t.flushed];
    assert BlockOk(e, b, t.flushed, t.flushed, t.queued);
    PartialIsFront(e, t, width);
    var part := PartialReplay(e, t, t.flushed, width);
    var current := Take(Stable(e, b), AckedAt(t.blocks, t.flushed));
    if b.Agent? { assert Take(Document(e, b), b.acked) == current; }
    WrapConcat(e, BlocksLines(e, t.blocks, t.flushed), current, width);
    ConcatAssoc(FullReplay(e, t, t.flushed, width), WrapLines(e, current, width), part);
  }

  // ------------------------------------------------- replay equals scrollback

  /** Rows that came out of the wrapper at `width` fit it: re-wrapping is the identity. */
  ghost predicate WrappedRowsFit(e: Env, width: nat) {
    forall line, row :: row in e.wrap(line, width) ==> e.rewrap(row, width) == [row]
  }

  lemma {:induction false} WrapIsFixed(e: Env, lines: seq<Line>, width: nat)
    requires WrappedRowsFit(e, width)
    ensures forall row :: row in WrapLines(e, lines, width) ==> e.rewrap(row, width) == [row]
    decreases |lines|
  {
    if lines != [] {
      WrapIsFixed(e, lines[1..], width);
    }
  }

  lemma {:induction false} RewrapIdentity(e: Env, rows: seq<Row>, width: nat)
    requires forall row :: row in rows ==> e.rewrap(row, width) == [row]
    ensures RewrapRows(e, rows, width) == rows
    decreases |rows|
  {
    if rows != [] {
      RewrapIdentity(e, rows[1..], width);
      assert rows == [rows[0]] + rows[1..];
    }
  }

  /** Replay refines scrollback: with every row queued at `width`, the replay of
      at most `max` rows is the last `max` rows the shell ever confirmed. */
  lemma {:induction false} ReplayIsScrollback(e: Env, ops: seq<Op>, width: nat, max: nat)
    requires Lawful(e) && WrappedRowsFit(e, width) && OnlyWidth(ops, width) && max <= U16_MAX
    ensures var w := Run(e, ops);
            ReplayTail(e, w.view, |w.view.blocks|, max, width) == Last(w.out, max)
  {
    hide Run, Aligned, OpenOk, Covered, Rendered, Lines, LinesUpTo, Lawful;
    var w := Run(e, ops);
    var t := w.view;
    RunWidth(e, ops, width);
    ScrollbackIsTranscript(e, ops, width);
    LogTiles(e, w);
    ReplayIsConfirmed(e, t, max, width);
    FrontRowsFit(e, w, width);
    RewrapIdentity(e, PartialRows(e, t.blocks, t.queue, Start(t)), width);
  }

  lemma {:induction false} FrontRowsFit(e: Env, w: World, width: nat)
    requires Exact(e, w) && AtWidth(w, width) && WrappedRowsFit(e, width)
    ensures forall row :: row in PartialRows(e, w.view.blocks, w.view.queue, Start(w.view)) ==> e.rewrap(row, width) == [row]
  {
    hide OpenOk, BlockOk, Covered, Rendered;
    var t := w.view;
    if t.queue != [] {
      WrapIsFixed(e, SliceLines(e, t.blocks, t.queue[0].ack, Start(t)), width);
    }
  }

  // ------------------------------------------------------- nothing stays back

  /** The end of everything stable. */
  function StableEnd(e: Env, t: State): Pos {
    if t.openTurn.Some? && t.blocks != []
    then Pos(|t.blocks| - 1, |Stable(e, t.blocks[|t.blocks| - 1])|)
    else Pos(|t.blocks|, 0)
  }

  lemma {:induction false} SnapshotReachesEnd(e: Env, t: State, width: nat)
    requires Inv(e, t)
    ensures var u := Snapshot(e, t, width);
            u.openTurn == t.openTurn && Pos(u.queued, EmittedAt(u.blocks, u.queued)) == StableEnd(e, u)
    decreases |t.blocks| - t.queued
  {
    hide Aligned, EmissionOk, StablePrefix, Document, WrapLines;
    if t.queued < |t.blocks| {
      QueueBlockKeeps(e, t, width);
      var s := QueueBlock(e, t, width);
      assert BlockOk(e, t.blocks[t.queued], t.queued, t.flushed, t.queued);
      if s.queued != t.queued {
        SnapshotReachesEnd(e, s, width);
      } else {
        StableIgnoresEmitted(e, t.blocks[t.queued], s.blocks[t.queued]);
      }
    }
  }

  lemma {:induction false} StableIgnoresEmitted(e: Env, b: Block, c: Block)
    requires b.Agent? && c.Agent? && c == b.(emitted := c.emitted)
    ensures Stable(e, c) == Stable(e, b) && Document(e, c) == Document(e, b)
  {
  }

  lemma {:induction false} DrainAll(q: seq<Emission>, budget: nat)
    requires budget > QueuedLen(q)
    ensures DrainQueue(q, budget).queue == []
    decreases |q|
  {
    if q != [] {
      DrainAll(q[1..], budget - |q[0].rows|);
    }
  }

  /** One whole pump: everything stable is in scrollback and the queue is empty.
      With no turn open that is the whole transcript. */
  lemma {:induction false} DumpCompletes(e: Env, w: World, width: nat, budget: nat)
    requires Lawful(e) && Exact(e, w) && budget > QueuedLen(Snapshot(e, w.view, width).queue)
    ensures Exact(e, Step(e, w, Materialize(width)))
    ensures var r := Step(e, Step(e, w, Materialize(width)), Pump(budget));
            && Exact(e, r)
            && r.view.queue == []
            && Start(r.view) == StableEnd(e, r.view)
            && Within(e, r.view.blocks, Start(r.view))
            && Lines(e, r.view.blocks, r.log, ORIGIN) == LinesUpTo(e, r.view.blocks, StableEnd(e, r.view))
            && r.out == Rendered(e, r.view.blocks, r.log, ORIGIN)
  {
    hide Aligned, OpenOk, Covered, Rendered, Lines, LinesUpTo, Lawful, BlockOk, Snapshot, StableEnd, Acks, End,
         Acknowledge, AcksFit, DrainQueue, FreshTail, EmissionOk, Fits;
    StepExact(e, w, Materialize(width));
    var s := Step(e, w, Materialize(width));
    SnapshotReachesEnd(e, w.view, width);
    StepExact(e, s, Pump(budget));
    var r := Step(e, s, Pump(budget));
    DrainAll(s.view.queue, budget);
    PumpKeeps(e, s.view, budget);
    PumpEnd(e, s.view, budget);
    LogTiles(e, r);
    assert r.out == Rendered(e, r.view.blocks, r.log, ORIGIN) + [];
  }

  lemma {:induction false} PumpEnd(e: Env, t: State, budget: nat)
    requires Inv(e, t) && budget > QueuedLen(t.queue)
    requires Pos(t.queued, EmittedAt(t.blocks, t.queued)) == StableEnd(e, t)
    ensures var d := DrainQueue(t.queue, budget);
            && AcksFit(t.blocks, t.flushed, d.acks)
            && var u := Flush(t.(queue := d.queue), d.acks);
               d.queue == [] && Start(u) == StableEnd(e, u)
  {
    hide Aligned, OpenOk, BlockOk, StablePrefix, Document, StableEnd, Grows;
    PumpKeeps(e, t, budget);
    DrainAll(t.queue, budget);
    DrainExact(e, t.blocks, t.queue, Start(t), budget);
    AckStable(e, t, DrainedLog(t.queue, budget), DrainQueue(t.queue, budget).queue);
  }

  lemma {:induction false} AckStable(e: Env, t: State, log: seq<Slice>, rest: seq<Emission>)
    requires Inv(e, t) && Covered(e, t.blocks, log, Start(t))
    ensures AcksFit(t.blocks, t.flushed, Acks(log))
    ensures var u := Flush(t.(queue := rest), Acks(log));
            |u.blocks| == |t.blocks| && u.openTurn == t.openTurn && StableEnd(e, u) == StableEnd(e, t)
  {
    hide Inv, Stable, Document, StablePrefix, Grows, BlockOk, Covered, Fits, Acknowledge, AcksFit, Acks;
    StartInRange(e, t);
    AckWalk(e, t.blocks, log, t.flushed);
    var (cs, c) := Acknowledge(t.blocks, t.flushed, Acks(log));
    if t.blocks != [] {
      StableIgnoresAcks(e, t.blocks[|t.blocks| - 1], cs[|t.blocks| - 1]);
    }
  }

  lemma {:induction false} StartInRange(e: Env, t: State)
    requires Inv(e, t)
    ensures t.flushed < |t.blocks| ==> AckedAt(t.blocks, t.flushed) <= |Stable(e, t.blocks[t.flushed])|
    ensures forall k :: t.flushed < k < |t.blocks| ==> AckedAt(t.blocks, k) == 0
  {
    hide Aligned, Stable, OpenOk;
    assert forall k :: 0 <= k < |t.blocks| ==> BlockOk(e, t.blocks[k], k, t.flushed, t.queued);
  }
}
