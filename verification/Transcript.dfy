/**
 The transcript's emission bookkeeping as the app drives it: methods that update
 the blocks, the cursors and the queue in place, each tied to the function of the
 old state it computes.
 */
module Transcripts {
  import opened Prelude
  import opened Emission
  import opened EmissionLaws
  import opened EmissionRuns
  import opened EmissionReplay

  /** The pass computes on the live lines: the queued-but-unacked prefix is
      `emitted - acked`, so slicing the live lines is slicing the stable ones. */
  lemma {:induction false} LiveSlice(e: Env, b: Block, width: nat)
    requires b.Agent? && b.acked <= b.emitted <= |Stable(e, b)|
    ensures var live := Document(e, b)[b.acked..];
            var flushable := |Stable(e, b)| - b.acked;
            var pending := b.emitted - b.acked;
            var end := if b.finalized then |b.source| else CommittedLen(b.source);
            && pending <= flushable <= |live|
            && b.acked + flushable == |Stable(e, b)|
            && (flushable < |live| <==> |Stable(e, b)| < |Document(e, b)|)
            && AgentEmissions(e, b, width) ==
                 if flushable - pending > 0 then
                   [Emission(WrapLines(e, live[pending..flushable], width), AgentLines(flushable - pending, b.finalized),
                             EmissionPrefix(Some(SourceSlice(end, |live| - flushable, flushable - pending)), width, 0))]
                 else if b.finalized then [Emission([], AgentLines(0, true), EmissionPrefix(None, width, 0))]
                 else []
  {
    hide StablePrefix, WrapLines, CommittedLen;
    assert Document(e, b)[b.acked..][b.emitted - b.acked..|Stable(e, b)| - b.acked]
        == Last(Stable(e, b), |Stable(e, b)| - b.emitted);
  }

  /** Sealed with nothing live left is the same as finalized. */
  lemma {:induction false} SealedIsWhole(e: Env, t: State, index: nat)
    requires OpenOk(t) && index < |t.blocks| && t.blocks[index].Agent?
    requires t.blocks[index].acked <= |Stable(e, t.blocks[index])|
    ensures t.blocks[index].finalized <==>
              (t.openTurn.None? || index != |t.blocks| - 1) &&
              |Stable(e, t.blocks[index])| - t.blocks[index].acked == |Document(e, t.blocks[index])[t.blocks[index].acked..]|
    ensures t.blocks[index].finalized <==> t.openTurn.None? || index != |t.blocks| - 1
  {
    hide StablePrefix;
  }

  lemma {:induction false} CursorBlock(e: Env, t: State)
    requires Inv(e, t) && t.queued < |t.blocks| && t.blocks[t.queued].Agent?
    ensures var b := t.blocks[t.queued]; b.acked <= b.emitted <= |Stable(e, b)|
    ensures OpenOk(t)
  {
    assert BlockOk(e, t.blocks[t.queued], t.queued, t.flushed, t.queued);
  }

  /** What the front emission was cut from, and where the cursor stands after it. */
  lemma {:induction false} FrontShape(e: Env, t: State)
    requires Inv(e, t)
    ensures t.queue != [] && t.queue[0].ack.AgentLines? ==> t.flushed < |t.blocks| && t.blocks[t.flushed].Agent?
    ensures t.queue != [] ==>
              Next(t.queue[0].ack, Start(t)).block
                == (if t.queue[0].ack.WholeBlock? || t.queue[0].ack.completes then t.flushed + 1 else t.flushed)
  {
    hide Stable, SourceNames;
    if t.queue != [] { FrontEmissionFits(e, t.blocks, t.queue, Start(t)); }
  }

  /** While a turn is open the tail is its assistant block. */
  lemma {:induction false} OpenTail(e: Env, t: State)
    requires Inv(e, t) && t.openTurn.Some?
    ensures t.blocks != [] && t.blocks[|t.blocks| - 1].Agent?
  {
  }

  /** The queue cursor is within the blocks, and short of an open tail. */
  lemma {:induction false} CursorWithin(e: Env, t: State)
    requires Inv(e, t)
    ensures t.queued <= |t.blocks|
    ensures t.queued < |t.blocks| && t.blocks[t.queued].Static? && t.openTurn.Some? ==> t.queued + 1 < |t.blocks|
    ensures t.openTurn.Some? ==> t.queued < |t.blocks|
  {
    hide Aligned, EmissionOk, Stable;
    if t.openTurn.Some? { assert BlockOk(e, t.blocks[|t.blocks| - 1], |t.blocks| - 1, t.flushed, t.queued); }
  }

  class Transcript {
    const env: Env
    var blocks: seq<Block>
    var flushed: nat
    var queued: nat
    var queue: seq<Emission>
    var partial: Option<EmissionPrefix>
    var openTurn: Option<nat>

    ghost function Model(): State
      reads this
    {
      State(blocks, flushed, queued, queue, partial, openTurn)
    }

    ghost predicate Valid()
      reads this
    {
      Lawful(env) && Inv(env, Model())
    }

    constructor (env: Env)
      requires Lawful(env)
      ensures Valid() && this.env == env && Model() == EMPTY
    {
      this.env := env;
      blocks, flushed, queued, queue, partial, openTurn := [], 0, 0, [], None, None;
    }

    method SealOpen()
      requires Valid()
      modifies this
      ensures Valid() && Model() == Seal(old(Model()))
    {
      hide Inv, Lawful;
      SealKeeps(env, Model());
      var wasOpen := openTurn.Some?;
      openTurn := None;
      if wasOpen && blocks != [] && blocks[|blocks| - 1].Agent? {
        blocks := blocks[|blocks| - 1 := blocks[|blocks| - 1].(finalized := true)];
      }
    }

    /** Prompts, notes and markers: complete at birth. */
    method Push(lines: seq<Line>)
      requires Valid()
      modifies this
      ensures Valid() && Model() == PushStatic(old(Model()), lines)
    {
      hide Inv, Lawful;
      PushStaticKeeps(env, Model(), lines);
      SealOpen();
      blocks := blocks + [Static(lines)];
    }

    /** The turn's assistant block, created on the turn's first delta. */
    method AgentBlock(turn: nat)
      requires Valid()
      modifies this
      ensures Valid() && Model() == OpenBlock(old(Model()), turn) && openTurn == Some(turn)
    {
      hide Inv, Lawful;
      OpenBlockKeeps(env, Model(), turn);
      if openTurn != Some(turn) {
        SealOpen();
        blocks := blocks + [Agent("", false, 0, 0)];
        openTurn := Some(turn);
      }
    }

    method PushDelta(turn: nat, text: string)
      requires Valid()
      modifies this
      ensures Valid() && Model() == Delta(old(Model()), turn, text)
    {
      hide Inv, Lawful;
      DeltaKeeps(env, Model(), turn, text);
      AgentBlock(turn);
      OpenTail(env, Model());
      var tail := blocks[|blocks| - 1];
      blocks := blocks[|blocks| - 1 := tail.(source := tail.source + text)];
    }

    method ApplyResponse(turn: Option<nat>, text: string)
      requires Valid() && ResponseExtends(Model(), turn, text)
      modifies this
      ensures Valid() && Model() == Response(old(Model()), turn, text)
    {
      hide Inv, Lawful;
      ResponseKeeps(env, Model(), turn, text);
      if turn.Some? && turn == openTurn {
        OpenTail(env, Model());
        var tail := blocks[|blocks| - 1];
        blocks := blocks[|blocks| - 1 := tail.(source := text, finalized := true)];
        openTurn := None;
      } else if text != "" {
        SealOpen();
        blocks := blocks + [Agent(text, true, 0, 0)];
      }
    }

    /** One materialization pass; reports whether unstable lines remain. */
    method Materialize(width: nat) returns (tailLive: bool)
      requires Valid()
      modifies this
      ensures Valid() && Model() == Snapshot(env, old(Model()), width)
      ensures tailLive <==> openTurn.Some? &&
                            |Stable(env, blocks[|blocks| - 1])| < |Document(env, blocks[|blocks| - 1])|
    {
      hide Inv, Stable, Document, WrapLines, Lawful, AgentEmissions;
      CursorWithin(env, Model());
      var tail := if blocks == [] then 0 else |blocks| - 1;
      tailLive := false;
      SnapshotKeeps(env, Model(), width);
      while queued < |blocks|
        invariant Valid() && openTurn == old(openTurn) && queued <= |blocks| == old(|blocks|)
        invariant openTurn.Some? ==> queued < |blocks|
        invariant Snapshot(env, Model(), width) == Snapshot(env, old(Model()), width)
        invariant !tailLive
        decreases |blocks| - queued
      {
        ghost var before := Model();
        var index := queued;
        QueueBlockKeeps(env, before, width);
        CursorWithin(env, before);
        match blocks[index]
        case Static(lines) =>
          queue := queue + [Emission(WrapLines(env, lines, width), WholeBlock, EmissionPrefix(None, width, 0))];
          queued := queued + 1;
          assert Model() == QueueBlock(env, before, width);
        case Agent(source, finalized, acked, emitted) =>
          tailLive := QueueAgent(width, index, tail);
          if queued == index { break; }
      }
    }

    /** The assistant arm of the pass: queue what is newly stable, then the
        completing ack if the block is sealed with nothing live left. */
    method QueueAgent(width: nat, index: nat, tail: nat) returns (live: bool)
      requires Valid() && index == queued < |blocks| && blocks[index].Agent? && tail == |blocks| - 1
      modifies this
      ensures Valid() && Model() == QueueBlock(env, old(Model()), width)
      ensures live <==> |Stable(env, blocks[index])| < |Document(env, blocks[index])|
      ensures live ==> queued == index
      ensures queued == index <==> old(openTurn).Some? && index == tail
    {
      hide Inv, Stable, Document, WrapLines, Lawful, CommittedLen, AgentEmissions, OpenOk;
      QueueBlockKeeps(env, Model(), width);
      ghost var before := Model();
      var b := blocks[index];
      CursorBlock(env, before);
      LiveSlice(env, b, width);
      var lines := Document(env, b)[b.acked..];
      var flushable := |Stable(env, b)| - b.acked;
      var sealed := openTurn.None? || index != tail;
      var completes := sealed && flushable == |lines|;
      SealedIsWhole(env, before, index);
      live := flushable < |lines|;
      var pending := b.emitted - b.acked;
      var newly := flushable - pending;
      blocks := blocks[index := b.(emitted := b.acked + flushable)];
      if newly > 0 {
        var end := if b.finalized then |b.source| else CommittedLen(b.source);
        var slice := SourceSlice(end, |lines| - flushable, newly);
        var rows := WrapLines(env, lines[pending..flushable], width);
        queue := queue + [Emission(rows, AgentLines(newly, completes), EmissionPrefix(Some(slice), width, 0))];
      } else if completes {
        queue := queue + [Emission([], AgentLines(0, true), EmissionPrefix(None, width, 0))];
      } else {
        assert queue == queue + [];
      }
      if completes { queued := queued + 1; }
      StableIgnoresEmitted(env, b, blocks[index]);
    }

    method PendingRows() returns (n: nat)
      ensures n == QueuedLen(queue)
    {
      n := 0;
      var i := 0;
      while i < |queue|
        invariant i <= |queue| && n + QueuedLen(queue[i..]) == QueuedLen(queue)
      {
        assert queue[i..][1..] == queue[i + 1..];
        n := n + |queue[i].rows|;
        i := i + 1;
      }
    }

    /** Pop up to `room` rows off the front emission. */
    method PopFront(room: nat) returns (rows: seq<Row>)
      requires queue != []
      modifies this`queue
      ensures rows == Take(old(queue)[0].rows, room)
      ensures |rows| == if room < |old(queue)[0].rows| then room else |old(queue)[0].rows|
      ensures var f := old(queue)[0];
              queue == [f.(rows := f.rows[|rows|..], prefix := f.prefix.(rows := f.prefix.rows + |rows|))] + old(queue)[1..]
    {
      ghost var front := queue[0];
      rows := [];
      while |rows| < room && queue[0].rows != []
        invariant |rows| <= room && rows <= front.rows
        invariant queue == [front.(rows := front.rows[|rows|..], prefix := front.prefix.(rows := front.prefix.rows + |rows|))] + old(queue)[1..]
        decreases |queue[0].rows|
      {
        var f := queue[0];
        rows := rows + [f.rows[0]];
        queue := queue[0 := f.(rows := f.rows[1..], prefix := f.prefix.(rows := f.prefix.rows + 1))];
      }
    }

    /** Pop up to `budget` rows; the acks cover exactly the emissions that left whole. */
    method Drain(budget: nat) returns (rows: seq<Row>, acks: seq<FlushAck>)
      modifies this`queue
      ensures Drained(rows, acks, queue) == DrainQueue(old(queue), budget)
    {
      rows, acks := [], [];
      while |rows| < budget && queue != []
        invariant |rows| <= budget
        invariant rows + DrainQueue(queue, budget - |rows|).rows == DrainQueue(old(queue), budget).rows
        invariant acks + DrainQueue(queue, budget - |rows|).acks == DrainQueue(old(queue), budget).acks
        invariant DrainQueue(queue, budget - |rows|).queue == DrainQueue(old(queue), budget).queue
        decreases |queue|, budget - |rows|
      {
        ghost var queue0, room := queue, budget - |rows|;
        var popped := PopFront(budget - |rows|);
        ghost var rows0 := rows;
        rows := rows + popped;
        if queue[0].rows == [] {
          acks := acks + [queue[0].ack];
          queue := queue[1..];
          assert queue == queue0[1..];
          ConcatAssoc(rows0, popped, DrainQueue(queue, room - |popped|).rows);
        } else {
          assert DrainQueue(queue0, room).queue == queue;
        }
      }
    }

    /** Confirm a drain's successful insert, its partial emission included. */
    method ApplyFlush(acks: seq<FlushAck>)
      requires AcksFit(blocks, flushed, acks)
      modifies this
      ensures Model() == Flush(old(Model()), acks)
    {
      var index := flushed;
      var i := 0;
      while i < |acks|
        invariant i <= |acks| && AcksFit(blocks, index, acks[i..])
        invariant Acknowledge(blocks, index, acks[i..]) == Acknowledge(old(blocks), old(flushed), acks)
        invariant flushed == old(flushed) && queue == old(queue) && queued == old(queued) && openTurn == old(openTurn)
        decreases |acks| - i
      {
        assert acks[i..][1..] == acks[i + 1..];
        match acks[i] {
          case WholeBlock => index := index + 1;
          case AgentLines(n, completes) =>
            blocks := blocks[index := blocks[index].(acked := blocks[index].acked + n)];
            if completes { index := index + 1; }
        }
        i := i + 1;
      }
      flushed := index;
      partial := FrontPrefix(queue);
    }

    /** The app's pump with a successful insert: materialize, drain, confirm. */
    method PumpRows(width: nat, budget: nat) returns (rows: seq<Row>, tailLive: bool)
      requires Valid()
      modifies this
      ensures Valid()
      ensures rows == DrainQueue(Snapshot(env, old(Model()), width).queue, budget).rows
      ensures var s := Snapshot(env, old(Model()), width);
              var d := DrainQueue(s.queue, budget);
              AcksFit(s.blocks, s.flushed, d.acks) && Model() == Flush(s.(queue := d.queue), d.acks)
    {
      hide Inv, Lawful, Stable;
      tailLive := Materialize(width);
      PumpKeeps(env, Model(), budget);
      var acks;
      rows, acks := Drain(budget);
      ApplyFlush(acks);
    }

    /** The width-change rewind. */
    method RewindQueue()
      requires Valid()
      modifies this
      ensures Valid() && Model() == Rewind(old(Model()))
    {
      hide Inv, Stable, Lawful, FoldFrom, FoldBack, EmissionOk, Fits, Start, Next;
      RewindKeeps(env, Model());
      FrontShape(env, Model());
      var first := flushed;
      if queue != [] && queue[0].prefix.rows > 0 {
        var front := queue[0];
        match front.ack {
          case WholeBlock =>
            queued := flushed + 1;
          case AgentLines(lines, completes) =>
            blocks := blocks[flushed := blocks[flushed].(emitted := blocks[flushed].acked + lines)];
            queued := if completes then flushed + 1 else flushed;
        }
        queue := [front];
        first := flushed + 1;
      } else {
        queue := [];
        queued := flushed;
      }
      FoldBlocks(first);
    }

    /** Every block from `first` on forgets what it queued. */
    method FoldBlocks(first: nat)
      modifies this`blocks
      ensures blocks == FoldFrom(old(blocks), first)
    {
      ghost var kept := blocks;
      var k := first;
      while k < |blocks|
        invariant first <= k && |blocks| == |kept|
        invariant forall i :: 0 <= i < |blocks| ==> blocks[i] == if first <= i < k then FoldBack(kept[i]) else kept[i]
      {
        if blocks[k].Agent? {
          blocks := blocks[k := blocks[k].(emitted := blocks[k].acked)];
        }
        k := k + 1;
      }
    }

    /** Resize replay: newest-first over the blocks, stopping once the window is full. */
    method Replay(max: nat, width: nat) returns (rows: seq<Row>)
      requires Valid() && max <= U16_MAX
      ensures rows == ReplayTail(env, Model(), |blocks|, max, width)
      ensures Start(Model()).block <= |blocks|
      ensures rows == Last(WrapLines(env, LinesUpTo(env, blocks, Start(Model())), width)
                           + RewrapRows(env, PartialRows(env, blocks, queue, Start(Model())), width), max)
    {
      hide Inv, Lawful, BlockReplay, ReplayTail;
      rows := [];
      var index := |blocks|;
      assert ReplayTail(env, Model(), index, max, width) + [] == ReplayTail(env, Model(), |blocks|, max, width);
      while index > 0 && |rows| < max
        invariant 0 <= index <= |blocks|
        invariant |rows| <= max
        invariant ReplayTail(env, Model(), index, max - |rows|, width) + rows == ReplayTail(env, Model(), |blocks|, max, width)
      {
        index := index - 1;
        ghost var newer := rows;
        var state := State(blocks, flushed, queued, queue, partial, openTurn);
        var blockRows := Last(BlockReplay(env, state, index, width), max - |rows|);
        ReplayTailNext(env, state, index + 1, max - |rows|, width);
        rows := blockRows + rows;
        ConcatAssoc(ReplayTail(env, Model(), index, max - |rows|, width), blockRows, newer);
      }
      ReplayTailDone(env, Model(), index, max - |rows|, width);
      assert [] + rows == rows;
      ReplayIsConfirmed(env, Model(), max, width);
    }
  }
}
