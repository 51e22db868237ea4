/**
 Whole runs of the emission queue: every push, delta, seal, materialization,
 confirmed drain and rewind, in any order, against the scrollback they produce.
 */
module EmissionRuns {
  import opened Prelude
  import opened Emission
  import opened EmissionLaws

  // ----------------------------------------------------------- confirmations

  /** `cs` is `bs` with the acks of a log applied from block `b` on, ending at `end`. */
  predicate Walked(e: Env, bs: seq<Block>, b: nat, cs: seq<Block>, end: Pos) {
    && |cs| == |bs| && b <= end.block && AckedAt(cs, end.block) == end.line
    && (forall k :: 0 <= k < |bs| ==>
          cs[k] == bs[k] || (bs[k].Agent? && cs[k].Agent? && cs[k] == bs[k].(acked := cs[k].acked)))
    && (forall k :: 0 <= k < |bs| && (k < b || k > end.block) ==> cs[k] == bs[k])
    && (forall k :: b <= k < |bs| && k < end.block && bs[k].Agent? ==> AckedAt(cs, k) == |Stable(e, bs[k])|)
    && (end.block < |bs| ==> end.line <= |Stable(e, bs[end.block])|)
  }

  lemma {:induction false} AckWalk(e: Env, bs: seq<Block>, log: seq<Slice>, b: nat)
    requires Covered(e, bs, log, Pos(b, AckedAt(bs, b)))
    requires b < |bs| ==> AckedAt(bs, b) <= |Stable(e, bs[b])|
    requires forall k :: b < k < |bs| ==> AckedAt(bs, k) == 0
    ensures AcksFit(bs, b, Acks(log))
    ensures var (cs, c) := Acknowledge(bs, b, Acks(log));
            var end := LogEnd(log, Pos(b, AckedAt(bs, b)));
            c == end.block && Walked(e, bs, b, cs, end)
    decreases |log|
  {
    hide StablePrefix, Document;
    if log != [] {
      assert Acks(log) == [log[0].ack] + Acks(log[1..]) && Acks(log)[1..] == Acks(log[1..]);
      match log[0].ack
      case WholeBlock => AckWalk(e, bs, log[1..], b + 1);
      case AgentLines(n, completes) => AckWalkAgent(e, bs, log, b);
    }
  }

  lemma {:induction false} AckWalkAgent(e: Env, bs: seq<Block>, log: seq<Slice>, b: nat)
    requires log != [] && log[0].ack.AgentLines?
    requires Covered(e, bs, log, Pos(b, AckedAt(bs, b)))
    requires b < |bs| ==> AckedAt(bs, b) <= |Stable(e, bs[b])|
    requires forall k :: b < k < |bs| ==> AckedAt(bs, k) == 0
    ensures AcksFit(bs, b, Acks(log))
    ensures var (cs, c) := Acknowledge(bs, b, Acks(log));
            var end := LogEnd(log, Pos(b, AckedAt(bs, b)));
            c == end.block && Walked(e, bs, b, cs, end)
    decreases |log|, 0
  {
    hide StablePrefix, Document, Walked, Rendered, Lines;
    assert Acks(log) == [log[0].ack] + Acks(log[1..]) && Acks(log)[1..] == Acks(log[1..]);
    var ack := log[0].ack;
    var ds := bs[b := AckBlock(bs[b], ack.lines)];
    var b' := if ack.completes then b + 1 else b;
    AckGrows(e, bs, b, ack.lines);
    CoveredGrows(e, bs, ds, log[1..], Next(ack, Pos(b, AckedAt(bs, b))));
    assert forall k :: b < k < |bs| ==> AckedAt(ds, k) == AckedAt(bs, k);
    AckWalk(e, ds, log[1..], b');
    var (cs, c) := Acknowledge(ds, b', Acks(log[1..]));
    WalkedCons(e, bs, b, ack, cs, LogEnd(log[1..], Pos(b', AckedAt(ds, b'))));
  }

  /** One agent ack in front of a walk. */
  lemma {:induction false} WalkedCons(e: Env, bs: seq<Block>, b: nat, ack: FlushAck, cs: seq<Block>, end: Pos)
    requires ack.AgentLines? && Fits(e, bs, ack, Pos(b, AckedAt(bs, b)))
    requires Walked(e, bs[b := AckBlock(bs[b], ack.lines)], if ack.completes then b + 1 else b, cs, end)
    ensures Walked(e, bs, b, cs, end)
  {
    hide StablePrefix, Document;
    var ds := bs[b := AckBlock(bs[b], ack.lines)];
    assert Stable(e, ds[b]) == Stable(e, bs[b]);
    if ack.completes { assert cs[b] == ds[b]; }
  }

  lemma {:induction false} AckGrows(e: Env, bs: seq<Block>, b: nat, n: nat)
    requires b < |bs| && bs[b].Agent?
    ensures Grows(e, bs, bs[b := AckBlock(bs[b], n)]) && Grows(e, bs[b := AckBlock(bs[b], n)], bs)
    ensures Stable(e, AckBlock(bs[b], n)) == Stable(e, bs[b])
  {
  }

  lemma {:induction false} CoveredGrows(e: Env, bs: seq<Block>, cs: seq<Block>, log: seq<Slice>, p: Pos)
    requires Grows(e, bs, cs) && Covered(e, bs, log, p)
    ensures Covered(e, cs, log, p)
    ensures Rendered(e, cs, log, p) == Rendered(e, bs, log, p)
    ensures Lines(e, cs, log, p) == Lines(e, bs, log, p)
    decreases |log|
  {
    hide WrapLines;
    if log != [] {
      FitsGrows(e, bs, cs, log[0].ack, p);
      CoveredGrows(e, bs, cs, log[1..], Next(log[0].ack, p));
    }
  }

  lemma {:induction false} LogAppend(e: Env, bs: seq<Block>, a: seq<Slice>, b: seq<Slice>, p: Pos)
    requires Covered(e, bs, a, p) && Covered(e, bs, b, LogEnd(a, p))
    ensures Covered(e, bs, a + b, p)
    ensures LogEnd(a + b, p) == LogEnd(b, LogEnd(a, p))
    ensures Rendered(e, bs, a + b, p) == Rendered(e, bs, a, p) + Rendered(e, bs, b, LogEnd(a, p))
    ensures Lines(e, bs, a + b, p) == Lines(e, bs, a, p) + Lines(e, bs, b, LogEnd(a, p))
    decreases |a|
  {
    hide WrapLines, SliceLines, Fits, Covered, Rendered, Lines, LogEnd;
    if a == [] {
      EmptyLog(e, bs, p);
      assert a + b == b;
      assert [] + Rendered(e, bs, b, p) == Rendered(e, bs, b, p) && [] + Lines(e, bs, b, p) == Lines(e, bs, b, p);
    } else {
      var p1 := Next(a[0].ack, p);
      LogHead(e, bs, a, p);
      LogAppend(e, bs, a[1..], b, p1);
      assert a + b == [a[0]] + (a[1..] + b) && a == [a[0]] + a[1..];
      LogCons(e, bs, a[0], a[1..] + b, p);
      LogCons(e, bs, a[0], a[1..], p);
      ConcatAssoc(WrapLines(e, SliceLines(e, bs, a[0].ack, p), a[0].width),
                  Rendered(e, bs, a[1..], p1), Rendered(e, bs, b, LogEnd(a, p)));
      ConcatAssoc(SliceLines(e, bs, a[0].ack, p), Lines(e, bs, a[1..], p1), Lines(e, bs, b, LogEnd(a, p)));
    }
  }

  lemma {:induction false} EmptyLog(e: Env, bs: seq<Block>, p: Pos)
    ensures Covered(e, bs, [], p) && LogEnd([], p) == p && Rendered(e, bs, [], p) == [] && Lines(e, bs, [], p) == []
  {
  }

  lemma {:induction false} LogHead(e: Env, bs: seq<Block>, a: seq<Slice>, p: Pos)
    requires a != [] && Covered(e, bs, a, p)
    ensures Fits(e, bs, a[0].ack, p) && Covered(e, bs, a[1..], Next(a[0].ack, p))
    ensures LogEnd(a, p) == LogEnd(a[1..], Next(a[0].ack, p))
  {
    hide Fits;
  }

  // ------------------------------------------------------------ the pump step

  /** Drain and, after the successful insert, confirm. */
  lemma {:induction false} PumpKeeps(e: Env, t: State, budget: nat)
    requires Inv(e, t)
    ensures var d := DrainQueue(t.queue, budget);
            var log := DrainedLog(t.queue, budget);
            && d.acks == Acks(log)
            && AcksFit(t.blocks, t.flushed, d.acks)
            && var u := Flush(t.(queue := d.queue), d.acks);
               Inv(e, u) && Grows(e, t.blocks, u.blocks) && Start(u) == LogEnd(log, Start(t))
  {
    hide EmissionOk, Fits, StablePrefix, Document, Rendered, PartialRows, Acknowledge, AcksFit, Acks, Covered,
         OpenOk, DrainQueue, DrainedLog, Aligned, End, Grows, LogEnd;
    DrainExact(e, t.blocks, t.queue, Start(t), budget);
    var d := DrainQueue(t.queue, budget);
    var log := DrainedLog(t.queue, budget);
    assert forall k :: 0 <= k < |t.blocks| ==> BlockOk(e, t.blocks[k], k, t.flushed, t.queued);
    AckWalk(e, t.blocks, log, t.flushed);
    var u := Flush(t.(queue := d.queue), d.acks);
    var end := LogEnd(log, Start(t));
    EndAdvances(e, t.blocks, d.queue, end);
    assert end.block <= t.queued <= |t.blocks|;
    WalkedKeeps(e, t, u.blocks, end);
    AlignedGrows(e, t.blocks, u.blocks, d.queue, end);
    SameOpen(t.(blocks := u.blocks), u);
  }

  lemma {:induction false} SameOpen(t: State, u: State)
    requires OpenOk(t) && u.blocks == t.blocks && u.openTurn == t.openTurn
    ensures OpenOk(u)
  {
  }

  lemma {:induction false} WalkedKeeps(e: Env, t: State, cs: seq<Block>, end: Pos)
    requires t.flushed <= end.block <= t.queued <= |t.blocks| && Walked(e, t.blocks, t.flushed, cs, end)
    requires end.block == t.queued ==> end.line <= EmittedAt(t.blocks, t.queued)
    requires forall k :: 0 <= k < |t.blocks| ==> BlockOk(e, t.blocks[k], k, t.flushed, t.queued)
    ensures Grows(e, t.blocks, cs)
    ensures forall k :: 0 <= k < |cs| ==> BlockOk(e, cs[k], k, end.block, t.queued)
    ensures EmittedAt(cs, t.queued) == EmittedAt(t.blocks, t.queued)
    ensures OpenOk(t) ==> OpenOk(t.(blocks := cs))
  {
    hide StablePrefix, Document;
    forall k | 0 <= k < |cs|
      ensures BlockOk(e, cs[k], k, end.block, t.queued) && BlockGrows(e, t.blocks[k], cs[k])
    {
      assert BlockOk(e, t.blocks[k], k, t.flushed, t.queued);
      StableIgnoresAcks(e, t.blocks[k], cs[k]);
      if k == end.block { assert AckedAt(cs, k) == end.line; }
      if t.flushed <= k < end.block && t.blocks[k].Agent? { assert AckedAt(cs, k) == |Stable(e, t.blocks[k])|; }
    }
  }

  lemma {:induction false} StableIgnoresAcks(e: Env, b: Block, c: Block)
    requires c == b || (b.Agent? && c.Agent? && c == b.(acked := c.acked))
    ensures Stable(e, c) == Stable(e, b)
  {
  }

  // --------------------------------------------------------------- whole runs

  /** The view, every row the shell confirmed, and the slices they came from. */
  datatype World = World(view: State, out: seq<Row>, log: seq<Slice>)

  datatype Op =
    | Push(lines: seq<Line>)
    | TextDelta(turn: nat, text: string)
    | Respond(responseTurn: Option<nat>, text: string)
    | Materialize(width: nat)
    | Pump(budget: nat)
    | WidthChange

  const ORIGIN := Pos(0, 0)

  /** Confirmed rows = the wraps of consecutive slices from the very first line
      on, up to the confirmed cursor, plus the front emission's partial prefix. */
  ghost predicate Exact(e: Env, w: World) {
    && Inv(e, w.view)
    && Covered(e, w.view.blocks, w.log, ORIGIN)
    && LogEnd(w.log, ORIGIN) == Start(w.view)
    && w.out == Rendered(e, w.view.blocks, w.log, ORIGIN)
                + PartialRows(e, w.view.blocks, w.view.queue, Start(w.view))
  }

  /** One step of the app. A response that contradicts the deltas already seen
      breaks the transport's contract and is no step. */
  ghost function Step(e: Env, w: World, op: Op): (r: World)
    requires Lawful(e) && Exact(e, w)
  {
    match op
    case Push(lines) => w.(view := PushStatic(w.view, lines))
    case TextDelta(turn, text) => w.(view := Delta(w.view, turn, text))
    case Respond(turn, text) => if ResponseExtends(w.view, turn, text) then w.(view := Response(w.view, turn, text)) else w
    case Materialize(width) => w.(view := Snapshot(e, w.view, width))
    case Pump(budget) =>
      PumpKeeps(e, w.view, budget);
      var d := DrainQueue(w.view.queue, budget);
      World(Flush(w.view.(queue := d.queue), d.acks), w.out + d.rows, w.log + DrainedLog(w.view.queue, budget))
    case WidthChange => w.(view := Rewind(w.view))
  }

  /** Growing the blocks without touching the front of the queue. */
  lemma {:induction false} ViewGrows(e: Env, w: World, u: State)
    requires Exact(e, w) && Inv(e, u) && Grows(e, w.view.blocks, u.blocks) && Start(u) == Start(w.view)
    requires if w.view.queue != [] && w.view.queue[0].prefix.rows > 0
             then u.queue != [] && u.queue[0] == w.view.queue[0]
             else u.queue != [] ==> u.queue[0].prefix.rows == 0
    ensures Exact(e, w.(view := u))
  {
    hide WrapLines, EmissionOk, BlockOk, OpenOk, BlockGrows;
    CoveredGrows(e, w.view.blocks, u.blocks, w.log, ORIGIN);
    if w.view.queue != [] && w.view.queue[0].prefix.rows > 0 {
      FrontEmissionFits(e, w.view.blocks, w.view.queue, Start(w.view));
      assert BlockGrows(e, w.view.blocks[Start(w.view).block], u.blocks[Start(w.view).block]);
      FitsGrows(e, w.view.blocks, u.blocks, u.queue[0].ack, Start(u));
    } else {
      FreshHasNoPartial(e, w.view.blocks, w.view.queue, Start(w.view));
      FreshHasNoPartial(e, u.blocks, u.queue, Start(u));
    }
  }

  lemma {:induction false} SnapshotFront(e: Env, t: State, width: nat)
    requires t.queued <= |t.blocks|
    ensures var u := Snapshot(e, t, width);
            && u.flushed == t.flushed && t.queue <= u.queue && |u.blocks| == |t.blocks| && u.partial == t.partial
            && (forall i :: |t.queue| <= i < |u.queue| ==> u.queue[i].prefix.rows == 0)
            && (forall k :: 0 <= k < |t.blocks| ==> AckedAt(u.blocks, k) == AckedAt(t.blocks, k))
    decreases |t.blocks| - t.queued
  {
    hide Stable, Document, WrapLines;
    if t.queued < |t.blocks| {
      var s := QueueBlock(e, t, width);
      if s.queued != t.queued {
        SnapshotFront(e, s, width);
      }
    }
  }

  lemma {:induction false} StartGrows(e: Env, t: State, u: State)
    requires Inv(e, t) && Inv(e, u) && Grows(e, t.blocks, u.blocks) && u.flushed == t.flushed
    requires forall k :: 0 <= k < |t.blocks| ==> AckedAt(u.blocks, k) == AckedAt(t.blocks, k)
    requires forall k :: |t.blocks| <= k < |u.blocks| ==> AckedAt(u.blocks, k) == 0
    ensures Start(u) == Start(t)
  {
  }

  lemma {:induction false} PumpExact(e: Env, w: World, budget: nat)
    requires Lawful(e) && Exact(e, w)
    ensures Exact(e, Step(e, w, Pump(budget)))
  {
    hide Lawful, Aligned, FreshTail, OpenOk, BlockOk, EmissionOk, WrapLines, BlockGrows;
    PumpKeeps(e, w.view, budget);
    DrainExact(e, w.view.blocks, w.view.queue, Start(w.view), budget);
    var r := Step(e, w, Pump(budget));
    var d := DrainQueue(w.view.queue, budget);
    var log := DrainedLog(w.view.queue, budget);
    CoveredGrows(e, w.view.blocks, r.view.blocks, w.log, ORIGIN);
    CoveredGrows(e, w.view.blocks, r.view.blocks, log, Start(w.view));
    LogAppend(e, r.view.blocks, w.log, log, ORIGIN);
    var before := Rendered(e, w.view.blocks, w.log, ORIGIN);
    var part := PartialRows(e, w.view.blocks, w.view.queue, Start(w.view));
    var left := PartialRows(e, w.view.blocks, d.queue, Start(r.view));
    PartialGrows(e, w.view.blocks, r.view.blocks, d.queue, Start(r.view));
    ConcatAssoc(before, part, d.rows);
    ConcatAssoc(before, Rendered(e, w.view.blocks, log, Start(w.view)), left);
  }

  lemma {:induction false} PartialGrows(e: Env, bs: seq<Block>, cs: seq<Block>, q: seq<Emission>, p: Pos)
    requires Grows(e, bs, cs) && Aligned(e, bs, q, p) && Aligned(e, cs, q, p)
    ensures PartialRows(e, cs, q, p) == PartialRows(e, bs, q, p)
  {
    if q != [] {
      assert BlockGrows(e, bs[p.block], cs[p.block]);
      FitsGrows(e, bs, cs, q[0].ack, p);
    }
  }

  lemma {:induction false} MaterializeExact(e: Env, w: World, width: nat)
    requires Lawful(e) && Exact(e, w)
    ensures Exact(e, Step(e, w, Materialize(width)))
  {
    hide Aligned, EmissionOk, Lawful, OpenOk, BlockGrows, Stable, Snapshot;
    var t := w.view;
    SnapshotKeeps(e, t, width);
    SnapshotFront(e, t, width);
    StartGrows(e, t, Snapshot(e, t, width));
    ViewGrows(e, w, Snapshot(e, t, width));
  }

  lemma {:induction false} StepExact(e: Env, w: World, op: Op)
    requires Lawful(e) && Exact(e, w)
    ensures Exact(e, Step(e, w, op)) && w.out <= Step(e, w, op).out
  {
    hide Aligned, EmissionOk, Lawful, OpenOk, Grows, BlockOk, Rendered, PartialRows, Covered,
         PushStatic, Delta, Response, ResponseExtends, Snapshot;
    var t := w.view;
    match op
    case Push(lines) => PushStaticKeeps(e, t, lines); ViewGrows(e, w, PushStatic(t, lines));
    case TextDelta(turn, text) => DeltaKeeps(e, t, turn, text); ViewGrows(e, w, Delta(t, turn, text));
    case Respond(turn, text) =>
      if ResponseExtends(t, turn, text) {
        ResponseKeeps(e, t, turn, text); ViewGrows(e, w, Response(t, turn, text));
      }
    case Materialize(width) => MaterializeExact(e, w, width);
    case Pump(budget) => PumpExact(e, w, budget);
    case WidthChange => RewindKeeps(e, t); ViewGrows(e, w, Rewind(t));
  }

  /** A run from the empty transcript; the newest step is the last. */
  ghost function Run(e: Env, ops: seq<Op>): (w: World)
    requires Lawful(e)
    ensures Exact(e, w)
  {
    if ops == [] then
      World(EMPTY, [], [])
    else
      var w := Run(e, ops[..|ops| - 1]);
      StepExact(e, w, ops[|ops| - 1]);
      Step(e, w, ops[|ops| - 1])
  }

  // ------------------------------------------------------------ exactly once

  /** The stable lines of the first `n` blocks, in block order. */
  function BlocksLines(e: Env, bs: seq<Block>, n: nat): seq<Line>
    requires n <= |bs|
  {
    if n == 0 then [] else BlocksLines(e, bs, n - 1) + Stable(e, bs[n - 1])
  }

  /** Every logical line before a position. */
  function LinesUpTo(e: Env, bs: seq<Block>, p: Pos): seq<Line>
    requires p.block <= |bs|
  {
    BlocksLines(e, bs, p.block) + (if p.block < |bs| then Take(Stable(e, bs[p.block]), p.line) else [])
  }

  predicate Within(e: Env, bs: seq<Block>, p: Pos) {
    && p.block <= |bs|
    && (p.block < |bs| ==> p.line <= |Stable(e, bs[p.block])|)
    && (p.block == |bs| ==> p.line == 0)
  }

  lemma {:induction false} SliceExtends(e: Env, bs: seq<Block>, ack: FlushAck, p: Pos)
    requires Within(e, bs, p) && Fits(e, bs, ack, p)
    ensures Within(e, bs, Next(ack, p))
    ensures LinesUpTo(e, bs, p) + SliceLines(e, bs, ack, p) == LinesUpTo(e, bs, Next(ack, p))
  {
    SliceJoins(e, bs, ack, p);
    BlocksSnoc(e, bs, p.block);
    hide Stable, BlocksLines, Take, SliceLines, Fits;
    ConcatAssoc(BlocksLines(e, bs, p.block), Take(Stable(e, bs[p.block]), p.line), SliceLines(e, bs, ack, p));
    if Next(ack, p).block != p.block { StartOfBlock(e, bs, p.block + 1); }
  }

  lemma {:induction false} BlocksSnoc(e: Env, bs: seq<Block>, n: nat)
    requires n < |bs|
    ensures BlocksLines(e, bs, n + 1) == BlocksLines(e, bs, n) + Stable(e, bs[n])
  {
    hide Stable;
  }

  /** Within one block: the slice continues what precedes it. */
  lemma {:induction false} SliceJoins(e: Env, bs: seq<Block>, ack: FlushAck, p: Pos)
    requires Within(e, bs, p) && Fits(e, bs, ack, p)
    ensures var all, next := Stable(e, bs[p.block]), Next(ack, p);
            && Take(all, p.line) + SliceLines(e, bs, ack, p) == (if next.block == p.block then Take(all, next.line) else all)
            && (next.block == p.block ==> next.line <= |all|)
            && (next.block != p.block ==> next == Pos(p.block + 1, 0))
  {
    hide StablePrefix, Document, Take;
    var all := Stable(e, bs[p.block]);
    if ack.AgentLines? { TakeSlice(all, p.line, ack.lines); } else { TakeSlice(all, 0, |all|); }
  }

  lemma {:induction false} TakeSlice(s: seq<Line>, a: nat, n: nat)
    requires a + n <= |s|
    ensures Take(s, a) + s[a..a + n] == Take(s, a + n) && Take(s, |s|) == s
    ensures a == 0 && n == |s| ==> Take(s, a) + s == s
  {
  }

  lemma {:induction false} StartOfBlock(e: Env, bs: seq<Block>, n: nat)
    requires n <= |bs|
    ensures LinesUpTo(e, bs, Pos(n, 0)) == BlocksLines(e, bs, n)
  {
    hide BlocksLines, Stable;
    assert BlocksLines(e, bs, n) + [] == BlocksLines(e, bs, n);
  }

  /** Consecutive slices cover consecutive lines: nothing lost, repeated or moved. */
  lemma {:induction false} SlicesTile(e: Env, bs: seq<Block>, log: seq<Slice>, p: Pos)
    requires Within(e, bs, p) && Covered(e, bs, log, p)
    ensures Within(e, bs, LogEnd(log, p))
    ensures LinesUpTo(e, bs, p) + Lines(e, bs, log, p) == LinesUpTo(e, bs, LogEnd(log, p))
    decreases |log|
  {
    hide LinesUpTo, SliceLines, Fits, Stable;
    if log == [] {
      assert LinesUpTo(e, bs, p) + [] == LinesUpTo(e, bs, p);
    } else {
      SliceExtends(e, bs, log[0].ack, p);
      SlicesTile(e, bs, log[1..], Next(log[0].ack, p));
      ConcatAssoc(LinesUpTo(e, bs, p), SliceLines(e, bs, log[0].ack, p), Lines(e, bs, log[1..], Next(log[0].ack, p)));
    }
  }

  /** Exactly-once emission, for every run: the confirmed rows are the wraps of
      slices whose lines are exactly the lines before the confirmed cursor, plus
      the part of the front emission that already left. */
  lemma {:induction false} ExactlyOnce(e: Env, ops: seq<Op>)
    requires Lawful(e)
    ensures var w := Run(e, ops);
            var bs := w.view.blocks;
            && Start(w.view).block <= |bs|
            && Covered(e, bs, w.log, ORIGIN)
            && Lines(e, bs, w.log, ORIGIN) == LinesUpTo(e, bs, Start(w.view))
            && Aligned(e, bs, w.view.queue, Start(w.view))
            && w.out == Rendered(e, bs, w.log, ORIGIN) + PartialRows(e, bs, w.view.queue, Start(w.view))
  {
    hide Run, Aligned, Rendered, Covered, Fits, BlockOk, OpenOk;
    LogTiles(e, Run(e, ops));
  }

  lemma {:induction false} LogTiles(e: Env, w: World)
    requires Exact(e, w)
    ensures Within(e, w.view.blocks, Start(w.view))
    ensures Lines(e, w.view.blocks, w.log, ORIGIN) == LinesUpTo(e, w.view.blocks, Start(w.view))
  {
    hide Aligned, Rendered, Covered, Fits, BlockOk, OpenOk, Lines;
    var bs := w.view.blocks;
    SlicesTile(e, bs, w.log, ORIGIN);
    assert LinesUpTo(e, bs, ORIGIN) == [];
    assert [] + Lines(e, bs, w.log, ORIGIN) == Lines(e, bs, w.log, ORIGIN);
  }

  // ---------------------------------------------------------------- one width

  /** Everything queued or confirmed was wrapped at `width`. */
  predicate AtWidth(w: World, width: nat) {
    && (forall i :: 0 <= i < |w.log| ==> w.log[i].width == width)
    && QueueAt(w.view.queue, width)
  }

  predicate QueueAt(q: seq<Emission>, width: nat) {
    forall i :: 0 <= i < |q| ==> q[i].prefix.width == width
  }

  lemma {:induction false} RenderedAtWidth(e: Env, bs: seq<Block>, log: seq<Slice>, p: Pos, width: nat)
    requires Covered(e, bs, log, p) && forall i :: 0 <= i < |log| ==> log[i].width == width
    ensures Rendered(e, bs, log, p) == WrapLines(e, Lines(e, bs, log, p), width)
    decreases |log|
  {
    hide SliceLines, Fits;
    if log != [] {
      RenderedAtWidth(e, bs, log[1..], Next(log[0].ack, p), width);
      WrapConcat(e, SliceLines(e, bs, log[0].ack, p), Lines(e, bs, log[1..], Next(log[0].ack, p)), width);
    }
  }

  lemma {:induction false} DrainWidth(q: seq<Emission>, budget: nat, width: nat)
    requires QueueAt(q, width)
    ensures forall i :: 0 <= i < |DrainedLog(q, budget)| ==> DrainedLog(q, budget)[i].width == width
    ensures QueueAt(DrainQueue(q, budget).queue, width)
    decreases |q|
  {
    if q != [] && budget > 0 && |q[0].rows| <= budget {
      assert QueueAt(q[1..], width) by { assert forall i :: 0 <= i < |q[1..]| ==> q[1..][i] == q[i + 1]; }
      DrainWidth(q[1..], budget - |q[0].rows|, width);
    }
  }

  lemma {:induction false} SnapshotWidth(e: Env, t: State, width: nat)
    requires t.queued <= |t.blocks| && QueueAt(t.queue, width)
    ensures QueueAt(Snapshot(e, t, width).queue, width)
    decreases |t.blocks| - t.queued
  {
    hide Stable, Document, WrapLines;
    if t.queued < |t.blocks| {
      var s := QueueBlock(e, t, width);
      if s.queued != t.queued { SnapshotWidth(e, s, width); }
    }
  }

  predicate OnlyWidth(ops: seq<Op>, width: nat) {
    forall i :: 0 <= i < |ops| && ops[i].Materialize? ==> ops[i].width == width
  }

  lemma {:induction false} StepWidth(e: Env, w: World, op: Op, width: nat)
    requires Lawful(e) && Exact(e, w) && AtWidth(w, width) && (op.Materialize? ==> op.width == width)
    ensures AtWidth(Step(e, w, op), width)
  {
    hide Lawful, Aligned, BlockOk, OpenOk, ResponseExtends, Rendered, PartialRows, Covered;
    match op
    case Materialize(_) => SnapshotWidth(e, w.view, width);
    case Pump(budget) => DrainWidth(w.view.queue, budget, width);
    case _ =>
  }

  lemma {:induction false} RunWidth(e: Env, ops: seq<Op>, width: nat)
    requires Lawful(e) && OnlyWidth(ops, width)
    ensures AtWidth(Run(e, ops), width)
    decreases |ops|
  {
    hide Lawful, Exact, Step;
    if ops != [] {
      var init := ops[..|ops| - 1];
      RunWidth(e, init, width);
      StepWidth(e, Run(e, init), ops[|ops| - 1], width);
    }
  }

  /** At one width, scrollback is the transcript wrapped: the confirmed rows are
      the wrap of every line before the confirmed cursor, in block order. */
  lemma {:induction false} ScrollbackIsTranscript(e: Env, ops: seq<Op>, width: nat)
    requires Lawful(e) && OnlyWidth(ops, width)
    ensures var w := Run(e, ops);
            var t := w.view;
            && Start(t).block <= |t.blocks|
            && Aligned(e, t.blocks, t.queue, Start(t))
            && w.out == WrapLines(e, LinesUpTo(e, t.blocks, Start(t)), width)
                        + PartialRows(e, t.blocks, t.queue, Start(t))
  {
    hide Run, Aligned, Covered, Fits, BlockOk, OpenOk, WrapLines, Rendered, Lines;
    RunWidth(e, ops, width);
    var w := Run(e, ops);
    LogTiles(e, w);
    RenderedAtWidth(e, w.view.blocks, w.log, ORIGIN, width);
  }
}
