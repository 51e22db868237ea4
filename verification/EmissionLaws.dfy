/**
 What every run of the emission queue keeps: the confirmed rows are the wraps of
 consecutive slices of the blocks, each exactly once and in order.
 */
module EmissionLaws {
  import opened Prelude
  import opened Emission

  // ------------------------------------------------------------ block growth

  ghost predicate BlockGrows(e: Env, b: Block, c: Block) {
    match b
    case Static(_) => c == b
    case Agent(source, finalized, _, _) =>
      && c.Agent?
      && source <= c.source
      && (finalized ==> c.finalized && c.source == source)
      && Stable(e, b) <= Stable(e, c)
  }

  /** Later blocks may appear and open ones may grow; counters are free. */
  ghost predicate Grows(e: Env, old_: seq<Block>, new_: seq<Block>) {
    |old_| <= |new_| && forall k :: 0 <= k < |old_| ==> BlockGrows(e, old_[k], new_[k])
  }

  lemma {:induction false} EmissionGrows(e: Env, b: Block, c: Block, bs: seq<Block>, cs: seq<Block>, em: Emission, p: Pos)
    requires p.block < |bs| && p.block < |cs| && b == bs[p.block] && c == cs[p.block]
    requires BlockGrows(e, b, c) && EmissionOk(e, bs, em, p)
    ensures EmissionOk(e, cs, em, p)
    ensures SliceLines(e, cs, em.ack, p) == SliceLines(e, bs, em.ack, p)
  {
    hide StablePrefix, Document, WrapLines;
    FitsGrows(e, bs, cs, em.ack, p);
    var lines := SliceLines(e, bs, em.ack, p);
    if em.ack.AgentLines? && lines != [] {
      var slice := em.prefix.source.value;
      assert c.source[..slice.end] == b.source[..slice.end];
      assert SourceNames(e, c, slice, lines);
    }
  }

  lemma {:induction false} FitsGrows(e: Env, bs: seq<Block>, cs: seq<Block>, ack: FlushAck, p: Pos)
    requires p.block < |bs| && p.block < |cs|
    requires BlockGrows(e, bs[p.block], cs[p.block]) && Fits(e, bs, ack, p)
    ensures Fits(e, cs, ack, p)
    ensures SliceLines(e, cs, ack, p) == SliceLines(e, bs, ack, p)
  {
  }

  lemma {:induction false} AlignedGrows(e: Env, bs: seq<Block>, cs: seq<Block>, q: seq<Emission>, p: Pos)
    requires Grows(e, bs, cs) && Aligned(e, bs, q, p)
    ensures Aligned(e, cs, q, p)
    decreases |q|
  {
    if q != [] {
      EmissionGrows(e, bs[p.block], cs[p.block], bs, cs, q[0], p);
      AlignedGrows(e, bs, cs, q[1..], Next(q[0].ack, p));
    }
  }

  lemma {:induction false} AlignedAppend(e: Env, bs: seq<Block>, q: seq<Emission>, em: Emission, p: Pos)
    requires Aligned(e, bs, q, p) && EmissionOk(e, bs, em, End(q, p))
    ensures Aligned(e, bs, q + [em], p)
    ensures End(q + [em], p) == Next(em.ack, End(q, p))
    decreases |q|
  {
    if q == [] {
      assert (q + [em])[1..] == [];
    } else {
      assert (q + [em])[1..] == q[1..] + [em];
      AlignedAppend(e, bs, q[1..], em, Next(q[0].ack, p));
    }
  }

  lemma {:induction false} EndAdvances(e: Env, bs: seq<Block>, q: seq<Emission>, p: Pos)
    requires Aligned(e, bs, q, p)
    ensures p.block <= End(q, p).block
    ensures p.block == End(q, p).block ==> p.line <= End(q, p).line
    decreases |q|
  {
    if q != [] {
      EndAdvances(e, bs, q[1..], Next(q[0].ack, p));
    }
  }

  // ----------------------------------------------- pushes, deltas and seals

  predicate SameCounters(b: Block, c: Block) {
    b.Agent? ==> c.Agent? && c.acked == b.acked && c.emitted == b.emitted
  }

  predicate Fresh(b: Block) {
    b.Agent? ==> b.acked == 0 == b.emitted
  }

  /** Growth that moves no counter and adds only fresh blocks. */
  ghost predicate Extends(e: Env, bs: seq<Block>, cs: seq<Block>) {
    && Grows(e, bs, cs)
    && (forall k :: 0 <= k < |bs| ==> SameCounters(bs[k], cs[k]))
    && (forall k :: |bs| <= k < |cs| ==> Fresh(cs[k]))
  }

  lemma {:induction false} ReplaceExtends(e: Env, bs: seq<Block>, k: nat, c: Block)
    requires k < |bs| && BlockGrows(e, bs[k], c) && SameCounters(bs[k], c)
    ensures Extends(e, bs, bs[k := c])
  {
  }

  lemma {:induction false} AppendExtends(e: Env, bs: seq<Block>, c: Block)
    requires Fresh(c)
    ensures Extends(e, bs, bs + [c])
  {
  }

  lemma {:induction false} BlocksExtend(e: Env, bs: seq<Block>, cs: seq<Block>, k: nat, flushed: nat, queued: nat)
    requires Extends(e, bs, cs) && k < |cs| && flushed <= queued <= |bs|
    requires k < |bs| ==> BlockOk(e, bs[k], k, flushed, queued)
    ensures BlockOk(e, cs[k], k, flushed, queued)
  {
    if k < |bs| {
      assert BlockGrows(e, bs[k], cs[k]) && SameCounters(bs[k], cs[k]);
    }
  }

  lemma {:induction false} CountersExtend(e: Env, bs: seq<Block>, cs: seq<Block>, k: nat)
    requires Extends(e, bs, cs) && k <= |bs|
    ensures AckedAt(cs, k) == AckedAt(bs, k) && EmittedAt(cs, k) == EmittedAt(bs, k)
  {
    if k < |bs| {
      assert BlockGrows(e, bs[k], cs[k]) && SameCounters(bs[k], cs[k]);
    }
  }

  /** Extending the blocks keeps the invariant. */
  lemma {:induction false} InvExtends(e: Env, t: State, u: State)
    requires Inv(e, t) && Extends(e, t.blocks, u.blocks) && OpenOk(u)
    requires u.flushed == t.flushed && u.queued == t.queued && u.queue == t.queue && u.partial == t.partial
    ensures Inv(e, u) && Start(u) == Start(t)
  {
    forall k | 0 <= k < |u.blocks| ensures BlockOk(e, u.blocks[k], k, u.flushed, u.queued) {
      BlocksExtend(e, t.blocks, u.blocks, k, u.flushed, u.queued);
    }
    CountersExtend(e, t.blocks, u.blocks, t.flushed);
    CountersExtend(e, t.blocks, u.blocks, t.queued);
    AlignedGrows(e, t.blocks, u.blocks, t.queue, Start(t));
  }

  /** Replacing the tail block by a grown one. */
  lemma {:induction false} TailGrows(e: Env, t: State, u: State, c: Block)
    requires Inv(e, t) && t.openTurn.Some? && BlockGrows(e, t.blocks[|t.blocks| - 1], c)
    requires SameCounters(t.blocks[|t.blocks| - 1], c)
    requires u == t.(blocks := t.blocks[|t.blocks| - 1 := c], openTurn := if c.finalized then None else t.openTurn)
    ensures Inv(e, u) && Grows(e, t.blocks, u.blocks) && Start(u) == Start(t)
  {
    hide Aligned, EmissionOk;
    ReplaceExtends(e, t.blocks, |t.blocks| - 1, c);
    InvExtends(e, t, u);
  }

  /** Appending one fresh block after everything is sealed. */
  lemma {:induction false} AppendGrows(e: Env, t: State, u: State, c: Block)
    requires Inv(e, t) && t.openTurn == None && Fresh(c)
    requires u == t.(blocks := t.blocks + [c], openTurn := u.openTurn)
    requires u.openTurn.Some? <==> c.Agent? && !c.finalized
    ensures Inv(e, u) && Grows(e, t.blocks, u.blocks) && Start(u) == Start(t)
  {
    hide Aligned, EmissionOk;
    AppendExtends(e, t.blocks, c);
    InvExtends(e, t, u);
  }

  lemma {:induction false} AgentGrows(e: Env, b: Block, source: string, finalized: bool)
    requires Lawful(e) && b.Agent? && !b.finalized && b.source <= source
    ensures BlockGrows(e, b, b.(source := source, finalized := finalized))
  {
  }

  lemma {:induction false} GrowsTrans(e: Env, a: seq<Block>, b: seq<Block>, c: seq<Block>)
    requires Grows(e, a, b) && Grows(e, b, c)
    ensures Grows(e, a, c)
  {
    forall k | 0 <= k < |a| ensures BlockGrows(e, a[k], c[k]) {
      assert BlockGrows(e, a[k], b[k]) && BlockGrows(e, b[k], c[k]);
    }
  }

  lemma {:induction false} SealKeeps(e: Env, t: State)
    requires Lawful(e) && Inv(e, t)
    ensures Inv(e, Seal(t)) && Seal(t).openTurn == None && Grows(e, t.blocks, Seal(t).blocks)
    ensures Start(Seal(t)) == Start(t) && Seal(t).queue == t.queue && |Seal(t).blocks| == |t.blocks|
  {
    hide Aligned, EmissionOk;
    if t.openTurn.Some? {
      var b := t.blocks[|t.blocks| - 1];
      AgentGrows(e, b, b.source, true);
      TailGrows(e, t, Seal(t), b.(finalized := true));
    }
  }

  lemma {:induction false} PushStaticKeeps(e: Env, t: State, lines: seq<Line>)
    requires Lawful(e) && Inv(e, t)
    ensures Inv(e, PushStatic(t, lines)) && Grows(e, t.blocks, PushStatic(t, lines).blocks)
    ensures Start(PushStatic(t, lines)) == Start(t) && PushStatic(t, lines).queue == t.queue
  {
    hide Aligned, EmissionOk;
    SealKeeps(e, t);
    AppendGrows(e, Seal(t), PushStatic(t, lines), Static(lines));
    GrowsTrans(e, t.blocks, Seal(t).blocks, PushStatic(t, lines).blocks);
  }

  lemma {:induction false} OpenBlockKeeps(e: Env, t: State, turn: nat)
    requires Lawful(e) && Inv(e, t)
    ensures Inv(e, OpenBlock(t, turn)) && Grows(e, t.blocks, OpenBlock(t, turn).blocks)
    ensures Start(OpenBlock(t, turn)) == Start(t) && OpenBlock(t, turn).queue == t.queue
    ensures OpenBlock(t, turn).openTurn == Some(turn)
  {
    hide Aligned, EmissionOk;
    if t.openTurn != Some(turn) {
      SealKeeps(e, t);
      AppendGrows(e, Seal(t), OpenBlock(t, turn), Agent("", false, 0, 0));
      GrowsTrans(e, t.blocks, Seal(t).blocks, OpenBlock(t, turn).blocks);
    }
  }

  lemma {:induction false} AppendTextKeeps(e: Env, t: State, text: string)
    requires Lawful(e) && Inv(e, t) && t.openTurn.Some?
    ensures Inv(e, AppendText(t, text)) && Grows(e, t.blocks, AppendText(t, text).blocks)
    ensures Start(AppendText(t, text)) == Start(t) && AppendText(t, text).queue == t.queue
  {
    hide Aligned, EmissionOk, Lawful;
    var b := t.blocks[|t.blocks| - 1];
    AgentGrows(e, b, b.source + text, false);
    TailGrows(e, t, AppendText(t, text), b.(source := b.source + text));
  }

  lemma {:induction false} DeltaKeeps(e: Env, t: State, turn: nat, text: string)
    requires Lawful(e) && Inv(e, t)
    ensures Inv(e, Delta(t, turn, text)) && Grows(e, t.blocks, Delta(t, turn, text).blocks)
    ensures Start(Delta(t, turn, text)) == Start(t) && Delta(t, turn, text).queue == t.queue
  {
    hide Inv, Grows, Lawful, OpenBlock, AppendText, Start;
    OpenBlockKeeps(e, t, turn);
    AppendTextKeeps(e, OpenBlock(t, turn), text);
    GrowsTrans(e, t.blocks, OpenBlock(t, turn).blocks, Delta(t, turn, text).blocks);
  }

  lemma {:induction false} ResponseKeeps(e: Env, t: State, turn: Option<nat>, text: string)
    requires Lawful(e) && Inv(e, t) && ResponseExtends(t, turn, text)
    ensures Inv(e, Response(t, turn, text)) && Grows(e, t.blocks, Response(t, turn, text).blocks)
    ensures Start(Response(t, turn, text)) == Start(t) && Response(t, turn, text).queue == t.queue
  {
    hide Aligned, EmissionOk;
    if turn.Some? && turn == t.openTurn {
      var b := t.blocks[|t.blocks| - 1];
      AgentGrows(e, b, text, true);
      TailGrows(e, t, Response(t, turn, text), b.(source := text, finalized := true));
    } else if text != "" {
      SealKeeps(e, t);
      AppendGrows(e, Seal(t), Response(t, turn, text), Agent(text, true, 0, 0));
      GrowsTrans(e, t.blocks, Seal(t).blocks, Response(t, turn, text).blocks);
    }
  }

  // ------------------------------------------------------------- the snapshot

  /** Appending one emission that starts at the queue's end, for block `queued`. */
  lemma {:induction false} QueueKeeps(e: Env, t: State, u: State, c: Block, em: Emission)
    requires Inv(e, t) && t.queued < |t.blocks|
    requires c == t.blocks[t.queued] || (c.Agent? && t.blocks[t.queued].Agent? && c == t.blocks[t.queued].(emitted := c.emitted))
    requires em.prefix.rows == 0
    requires EmissionOk(e, t.blocks, em, Pos(t.queued, EmittedAt(t.blocks, t.queued)))
    requires Fits(e, t.blocks, em.ack, Pos(t.queued, EmittedAt(t.blocks, t.queued)))
    requires u.queued == t.queued ==> c.Agent?
    requires Next(em.ack, Pos(t.queued, EmittedAt(t.blocks, t.queued))) ==
             if u.queued == t.queued then Pos(t.queued, c.emitted) else Pos(t.queued + 1, 0)
    requires c.Agent? ==> t.blocks[t.queued].emitted <= c.emitted == |Stable(e, c)|
    requires u.queued == if em.ack.WholeBlock? || em.ack.completes then t.queued + 1 else t.queued
    requires u == t.(blocks := t.blocks[t.queued := c], queue := t.queue + [em], queued := u.queued)
    ensures Inv(e, u) && Grows(e, t.blocks, u.blocks)
  {
    hide EmissionOk, Fits, BlockOk, Stable, Aligned, Grows;
    CountersStay(e, t, c);
    AlignedAppend(e, t.blocks, t.queue, em, Start(t));
    AlignedGrows(e, t.blocks, u.blocks, u.queue, Start(t));
    forall k | 0 <= k < |u.blocks|
      ensures BlockOk(e, u.blocks[k], k, u.flushed, u.queued)
      ensures k > t.queued ==> EmittedAt(t.blocks, k) == 0
    {
      QueuedBlockOk(e, t, c, em.ack, u.queued, k);
    }
    assert Start(u) == Start(t);
    assert EmittedAt(u.blocks, u.queued) == if u.queued == t.queued then c.emitted else 0 by {
      if t.queued + 1 < |t.blocks| { assert EmittedAt(t.blocks, t.queued + 1) == 0; }
    }
    assert OpenOk(u);
  }

  lemma {:induction false} QueuedBlockOk(e: Env, t: State, c: Block, ack: FlushAck, queued: nat, k: nat)
    requires t.flushed <= t.queued < |t.blocks| && k < |t.blocks|
    requires BlockOk(e, t.blocks[k], k, t.flushed, t.queued)
    requires c == t.blocks[t.queued] || (c.Agent? && t.blocks[t.queued].Agent? && c == t.blocks[t.queued].(emitted := c.emitted))
    requires c.Agent? ==> t.blocks[t.queued].emitted <= c.emitted == |Stable(e, c)|
    requires Fits(e, t.blocks, ack, Pos(t.queued, EmittedAt(t.blocks, t.queued)))
    requires queued == if ack.WholeBlock? || ack.completes then t.queued + 1 else t.queued
    ensures BlockOk(e, t.blocks[t.queued := c][k], k, t.flushed, queued)
    ensures k > t.queued ==> EmittedAt(t.blocks, k) == 0
  {
    hide StablePrefix, Document;
  }

  lemma {:induction false} CountersStay(e: Env, t: State, c: Block)
    requires t.queued < |t.blocks|
    requires c == t.blocks[t.queued] || (c.Agent? && t.blocks[t.queued].Agent? && c == t.blocks[t.queued].(emitted := c.emitted))
    ensures Grows(e, t.blocks, t.blocks[t.queued := c])
  {
  }

  /** The slice coordinates taken at queue time name the newly queued lines. */
  lemma {:induction false} SliceNames(e: Env, b: Block)
    requires b.Agent? && b.emitted <= |Stable(e, b)|
    ensures var newly := Stable(e, b)[b.emitted..];
            var end := if b.finalized then |b.source| else CommittedLen(b.source);
            SourceNames(e, b, SourceSlice(end, |Document(e, b)| - |Stable(e, b)|, |newly|), newly)
  {
    if b.finalized {
      assert b.source[..|b.source|] == b.source;
    }
    var d := Document(e, b);
    var n := |Stable(e, b)|;
    assert d[..n] == Stable(e, b);
    assert d[b.emitted..n] == Stable(e, b)[b.emitted..];
  }

  /** Queueing everything between `emitted` and the stable end, in one slice. */
  lemma {:induction false} NewEmissionOk(e: Env, bs: seq<Block>, k: nat, width: nat, completes: bool)
    requires k < |bs| && bs[k].Agent? && bs[k].emitted <= |Stable(e, bs[k])| && (completes ==> bs[k].finalized)
    ensures var b := bs[k];
            var newly := Stable(e, b)[b.emitted..];
            var end := if b.finalized then |b.source| else CommittedLen(b.source);
            EmissionOk(e, bs, Emission(WrapLines(e, newly, width), AgentLines(|newly|, completes),
              EmissionPrefix(Some(SourceSlice(end, |Document(e, b)| - |Stable(e, b)|, |newly|)), width, 0)), Pos(k, b.emitted))
  {
    hide SourceNames, WrapLines;
    var b := bs[k];
    var newly := Stable(e, b)[b.emitted..];
    SliceNames(e, b);
    var ack := AgentLines(|newly|, completes);
    assert Fits(e, bs, ack, Pos(k, b.emitted));
    assert SliceLines(e, bs, ack, Pos(k, b.emitted)) == newly;
  }

  lemma {:induction false} QueueBlockKeeps(e: Env, t: State, width: nat)
    requires Inv(e, t) && t.queued < |t.blocks|
    ensures Inv(e, QueueBlock(e, t, width)) && Grows(e, t.blocks, QueueBlock(e, t, width).blocks)
    ensures var u := QueueBlock(e, t, width);
            u.flushed == t.flushed && |u.blocks| == |t.blocks| && u.openTurn == t.openTurn
  {
    hide Aligned, EmissionOk, OpenOk, StablePrefix, Document;
    var b := t.blocks[t.queued];
    assert BlockOk(e, b, t.queued, t.flushed, t.queued);
    if b.Static? {
      var em := Emission(WrapLines(e, b.lines, width), WholeBlock, EmissionPrefix(None, width, 0));
      StaticEmissionOk(e, t.blocks, t.queued, width);
      assert t.blocks[t.queued := b] == t.blocks;
      QueueKeeps(e, t, QueueBlock(e, t, width), b, em);
    } else {
      QueueAgentKeeps(e, t, width);
    }
  }

  lemma {:induction false} StaticEmissionOk(e: Env, bs: seq<Block>, k: nat, width: nat)
    requires k < |bs| && bs[k].Static?
    ensures EmissionOk(e, bs, Emission(WrapLines(e, bs[k].lines, width), WholeBlock, EmissionPrefix(None, width, 0)), Pos(k, 0))
  {
  }

  lemma {:induction false} QueueAgentKeeps(e: Env, t: State, width: nat)
    requires Inv(e, t) && t.queued < |t.blocks| && t.blocks[t.queued].Agent?
    requires BlockOk(e, t.blocks[t.queued], t.queued, t.flushed, t.queued)
    ensures Inv(e, QueueBlock(e, t, width)) && Grows(e, t.blocks, QueueBlock(e, t, width).blocks)
    ensures var u := QueueBlock(e, t, width);
            u.flushed == t.flushed && |u.blocks| == |t.blocks| && u.openTurn == t.openTurn
  {
    hide Aligned, StablePrefix, EmissionOk, OpenOk, Document, WrapLines;
    var b := t.blocks[t.queued];
    var stable := Stable(e, b);
    var c := b.(emitted := |stable|);
    var newly := stable[b.emitted..];
    NewEmissionOk(e, t.blocks, t.queued, width, b.finalized);
    var end := if b.finalized then |b.source| else CommittedLen(b.source);
    assert Last(stable, |stable| - b.emitted) == newly;
    if newly != [] {
      QueueKeeps(e, t, QueueBlock(e, t, width), c, Emission(WrapLines(e, newly, width), AgentLines(|newly|, b.finalized),
        EmissionPrefix(Some(SourceSlice(end, |Document(e, b)| - |stable|, |newly|)), width, 0)));
    } else if b.finalized {
      EmptyEmissionOk(e, t.blocks, t.queued, width);
      QueueKeeps(e, t, QueueBlock(e, t, width), c, Emission([], AgentLines(0, true), EmissionPrefix(None, width, 0)));
    } else {
      assert c == b && t.blocks[t.queued := b] == t.blocks;
      assert t.queue + [] == t.queue;
      assert QueueBlock(e, t, width) == t;
      ReplaceExtends(e, t.blocks, t.queued, b);
    }
  }

  lemma {:induction false} EmptyEmissionOk(e: Env, bs: seq<Block>, k: nat, width: nat)
    requires k < |bs| && bs[k].Agent? && bs[k].emitted == |Stable(e, bs[k])| && bs[k].finalized
    ensures EmissionOk(e, bs, Emission([], AgentLines(0, true), EmissionPrefix(None, width, 0)), Pos(k, bs[k].emitted))
  {
  }

  lemma {:induction false} SnapshotKeeps(e: Env, t: State, width: nat)
    requires Inv(e, t)
    ensures Inv(e, Snapshot(e, t, width)) && Grows(e, t.blocks, Snapshot(e, t, width).blocks)
    decreases |t.blocks| - t.queued
  {
    if t.queued < |t.blocks| {
      QueueBlockKeeps(e, t, width);
      var s := QueueBlock(e, t, width);
      if s.queued != t.queued {
        SnapshotKeeps(e, s, width);
      }
    }
  }

  // --------------------------------------------------------------- the rewind

  lemma {:induction false} FoldGrows(e: Env, bs: seq<Block>, cs: seq<Block>)
    requires |bs| == |cs|
    requires forall k :: 0 <= k < |bs| ==> cs[k] == bs[k] || (bs[k].Agent? && cs[k].Agent? && cs[k] == bs[k].(emitted := cs[k].emitted))
    ensures Grows(e, bs, cs)
  {
  }

  lemma {:induction false} FoldOpen(t: State, u: State)
    requires OpenOk(t) && u.openTurn == t.openTurn && |u.blocks| == |t.blocks|
    requires forall k :: 0 <= k < |t.blocks| ==> u.blocks[k] == t.blocks[k] || u.blocks[k] == FoldBack(t.blocks[k])
    ensures OpenOk(u)
  {
  }

  lemma {:induction false} RewindEmptyKeeps(e: Env, t: State)
    requires Inv(e, t) && FrontPrefix(t.queue).None?
    ensures Inv(e, Rewind(t)) && Grows(e, t.blocks, Rewind(t).blocks)
    ensures Start(Rewind(t)) == Start(t)
  {
    hide EmissionOk, Fits, StablePrefix, Document, OpenOk;
    var u := Rewind(t);
    FoldGrows(e, t.blocks, u.blocks);
    FoldOpen(t, u);
    forall k | 0 <= k < |u.blocks| ensures BlockOk(e, u.blocks[k], k, u.flushed, u.queued) {
      assert BlockOk(e, t.blocks[k], k, t.flushed, t.queued);
    }
  }

  lemma {:induction false} FrontAlone(e: Env, bs: seq<Block>, front: Emission, p: Pos)
    requires EmissionOk(e, bs, front, p)
    ensures Aligned(e, bs, [front], p) && End([front], p) == Next(front.ack, p)
  {
    hide EmissionOk;
    assert [front][1..] == [];
  }

  /** The counters after the rewind, when the front emission stays. */
  lemma {:induction false} RewoundBlockOk(e: Env, t: State, k: nat)
    requires FrontPrefix(t.queue).Some? && k < |t.blocks| && t.flushed <= t.queued
    requires BlockOk(e, t.blocks[k], k, t.flushed, t.queued)
    requires Fits(e, t.blocks, t.queue[0].ack, Start(t)) && Next(t.queue[0].ack, Start(t)).block <= t.queued
    ensures BlockOk(e, Rewind(t).blocks[k], k, t.flushed, Rewind(t).queued)
    ensures Rewind(t).blocks[k] == t.blocks[k] ||
            (t.blocks[k].Agent? && Rewind(t).blocks[k] == t.blocks[k].(emitted := EmittedAt(Rewind(t).blocks, k)))
    ensures AckedAt(Rewind(t).blocks, k) == AckedAt(t.blocks, k)
    ensures k > t.flushed ==> AckedAt(t.blocks, k) == 0
  {
    hide StablePrefix, Document;
  }

  lemma {:induction false} CountersOpen(t: State, u: State)
    requires OpenOk(t) && u.openTurn == t.openTurn && |u.blocks| == |t.blocks|
    requires forall k :: 0 <= k < |t.blocks| ==>
               u.blocks[k] == t.blocks[k] || (t.blocks[k].Agent? && u.blocks[k] == t.blocks[k].(emitted := EmittedAt(u.blocks, k)))
    ensures OpenOk(u)
  {
  }

  lemma {:induction false} RewoundBlocks(e: Env, t: State)
    requires FrontPrefix(t.queue).Some? && t.flushed <= t.queued <= |t.blocks|
    requires forall k :: 0 <= k < |t.blocks| ==> BlockOk(e, t.blocks[k], k, t.flushed, t.queued)
    requires Fits(e, t.blocks, t.queue[0].ack, Start(t)) && Next(t.queue[0].ack, Start(t)).block <= t.queued
    ensures forall k :: 0 <= k < |t.blocks| ==> BlockOk(e, Rewind(t).blocks[k], k, t.flushed, Rewind(t).queued)
    ensures Grows(e, t.blocks, Rewind(t).blocks) && Start(Rewind(t)) == Start(t)
    ensures OpenOk(t) ==> OpenOk(Rewind(t))
    ensures Next(t.queue[0].ack, Start(t)) == Pos(Rewind(t).queued, EmittedAt(Rewind(t).blocks, Rewind(t).queued))
    ensures t.flushed <= Rewind(t).queued <= |t.blocks|
  {
    hide Fits, BlockOk, Stable, Grows, OpenOk;
    var u := Rewind(t);
    forall k | 0 <= k < |t.blocks|
      ensures BlockOk(e, u.blocks[k], k, t.flushed, u.queued) && AckedAt(u.blocks, k) == AckedAt(t.blocks, k)
      ensures k > t.flushed ==> AckedAt(t.blocks, k) == 0
      ensures u.blocks[k] == t.blocks[k] ||
              (t.blocks[k].Agent? && u.blocks[k] == t.blocks[k].(emitted := EmittedAt(u.blocks, k)))
    {
      RewoundBlockOk(e, t, k);
    }
    FoldGrows(e, t.blocks, u.blocks);
    if OpenOk(t) { CountersOpen(t, u); }
    RewoundEnd(e, t);
  }

  lemma {:induction false} RewindFrontKeeps(e: Env, t: State)
    requires Inv(e, t) && FrontPrefix(t.queue).Some?
    ensures Inv(e, Rewind(t)) && Grows(e, t.blocks, Rewind(t).blocks)
    ensures Start(Rewind(t)) == Start(t)
  {
    hide Aligned, EmissionOk, Fits, BlockOk, OpenOk, Grows, FoldFrom;
    FrontEmissionFits(e, t.blocks, t.queue, Start(t));
    EndAdvances(e, t.blocks, t.queue[1..], Next(t.queue[0].ack, Start(t)));
    RewoundBlocks(e, t);
    FrontAlone(e, t.blocks, t.queue[0], Start(t));
    AlignedGrows(e, t.blocks, Rewind(t).blocks, [t.queue[0]], Start(t));
  }

  lemma {:induction false} RewoundEnd(e: Env, t: State)
    requires FrontPrefix(t.queue).Some? && t.flushed <= t.queued <= |t.blocks|
    requires Fits(e, t.blocks, t.queue[0].ack, Start(t))
    requires forall k :: t.flushed < k < |t.blocks| ==> AckedAt(t.blocks, k) == 0
    ensures Next(t.queue[0].ack, Start(t)) == Pos(Rewind(t).queued, EmittedAt(Rewind(t).blocks, Rewind(t).queued))
    ensures t.flushed <= Rewind(t).queued <= |t.blocks|
  {
    hide Stable;
    var k := t.flushed + 1;
    if k < |t.blocks| { assert AckedAt(t.blocks, k) == 0; }
  }

  lemma {:induction false} RewindKeeps(e: Env, t: State)
    requires Inv(e, t)
    ensures Inv(e, Rewind(t)) && Grows(e, t.blocks, Rewind(t).blocks)
    ensures Start(Rewind(t)) == Start(t)
  {
    if FrontPrefix(t.queue).Some? { RewindFrontKeeps(e, t); } else { RewindEmptyKeeps(e, t); }
  }

  // ------------------------------------------------- drains and confirmations

  /** One confirmed slice: what its ack covers and the width it was wrapped at. */
  datatype Slice = Slice(ack: FlushAck, width: nat)

  function Acks(log: seq<Slice>): seq<FlushAck> {
    if log == [] then [] else [log[0].ack] + Acks(log[1..])
  }

  function LogEnd(log: seq<Slice>, p: Pos): Pos {
    if log == [] then p else LogEnd(log[1..], Next(log[0].ack, p))
  }

  /** The slices are consecutive from `p` on, and each exists in the blocks. */
  predicate Covered(e: Env, bs: seq<Block>, log: seq<Slice>, p: Pos) {
    log == [] || (Fits(e, bs, log[0].ack, p) && Covered(e, bs, log[1..], Next(log[0].ack, p)))
  }

  /** The rows of those slices, each wrapped at its own width. */
  function Rendered(e: Env, bs: seq<Block>, log: seq<Slice>, p: Pos): seq<Row>
    requires Covered(e, bs, log, p)
  {
    if log == [] then []
    else WrapLines(e, SliceLines(e, bs, log[0].ack, p), log[0].width) + Rendered(e, bs, log[1..], Next(log[0].ack, p))
  }

  /** The logical lines of those slices. */
  function Lines(e: Env, bs: seq<Block>, log: seq<Slice>, p: Pos): seq<Line>
    requires Covered(e, bs, log, p)
  {
    if log == [] then []
    else SliceLines(e, bs, log[0].ack, p) + Lines(e, bs, log[1..], Next(log[0].ack, p))
  }

  /** The slices a drain of `budget` rows completes. */
  function DrainedLog(queue: seq<Emission>, budget: nat): seq<Slice> {
    if queue == [] || budget == 0 || |queue[0].rows| > budget then []
    else [Slice(queue[0].ack, queue[0].prefix.width)] + DrainedLog(queue[1..], budget - |queue[0].rows|)
  }

  /** The display rows of the front emission that already left. */
  function PartialRows(e: Env, bs: seq<Block>, q: seq<Emission>, p: Pos): seq<Row>
    requires Aligned(e, bs, q, p)
  {
    if q == [] then []
    else WrapLines(e, SliceLines(e, bs, q[0].ack, p), q[0].prefix.width)[..q[0].prefix.rows]
  }

  /** What a drain does to the books: partial prefix plus drained rows are the
      completed slices plus the new partial prefix, and the rest stays aligned. */
  ghost predicate DrainOk(e: Env, bs: seq<Block>, q: seq<Emission>, p: Pos, budget: nat)
    requires Aligned(e, bs, q, p)
  {
    var d := DrainQueue(q, budget);
    var log := DrainedLog(q, budget);
    && d.acks == Acks(log)
    && Covered(e, bs, log, p)
    && Aligned(e, bs, d.queue, LogEnd(log, p))
    && End(d.queue, LogEnd(log, p)) == End(q, p)
    && FreshTail(d.queue)
    && PartialRows(e, bs, q, p) + d.rows
       == Rendered(e, bs, log, p) + PartialRows(e, bs, d.queue, LogEnd(log, p))
  }

  lemma {:induction false} DrainExact(e: Env, bs: seq<Block>, q: seq<Emission>, p: Pos, budget: nat)
    requires Aligned(e, bs, q, p) && FreshTail(q)
    ensures DrainOk(e, bs, q, p, budget)
    decreases |q|
  {
    hide EmissionOk, DrainOk;
    if q == [] || budget == 0 {
      DrainNothing(e, bs, q, p, budget);
    } else if |q[0].rows| <= budget {
      assert FreshTail(q[1..]) by { assert forall i :: 0 < i < |q[1..]| ==> q[1..][i] == q[i + 1]; }
      DrainExact(e, bs, q[1..], Next(q[0].ack, p), budget - |q[0].rows|);
      DrainWhole(e, bs, q, p, budget);
    } else {
      DrainPart(e, bs, q, p, budget);
    }
  }

  lemma {:induction false} DrainNothing(e: Env, bs: seq<Block>, q: seq<Emission>, p: Pos, budget: nat)
    requires Aligned(e, bs, q, p) && FreshTail(q) && (q == [] || budget == 0)
    ensures DrainOk(e, bs, q, p, budget)
  {
    hide EmissionOk, WrapLines, SliceLines;
    var part := PartialRows(e, bs, q, p);
    assert part + [] == [] + part;
  }

  lemma {:induction false} LogCons(e: Env, bs: seq<Block>, head: Slice, log: seq<Slice>, p: Pos)
    requires Fits(e, bs, head.ack, p) && Covered(e, bs, log, Next(head.ack, p))
    ensures Covered(e, bs, [head] + log, p)
    ensures LogEnd([head] + log, p) == LogEnd(log, Next(head.ack, p))
    ensures Acks([head] + log) == [head.ack] + Acks(log)
    ensures Rendered(e, bs, [head] + log, p)
         == WrapLines(e, SliceLines(e, bs, head.ack, p), head.width) + Rendered(e, bs, log, Next(head.ack, p))
    ensures Lines(e, bs, [head] + log, p) == SliceLines(e, bs, head.ack, p) + Lines(e, bs, log, Next(head.ack, p))
  {
    hide WrapLines, SliceLines, Fits;
    assert ([head] + log)[1..] == log;
  }

  lemma {:induction false} FreshHasNoPartial(e: Env, bs: seq<Block>, q: seq<Emission>, p: Pos)
    requires Aligned(e, bs, q, p) && (q != [] ==> q[0].prefix.rows == 0)
    ensures PartialRows(e, bs, q, p) == []
  {
  }

  lemma {:induction false} PartialPlusRest(e: Env, bs: seq<Block>, q: seq<Emission>, p: Pos)
    requires Aligned(e, bs, q, p) && q != []
    ensures PartialRows(e, bs, q, p) + q[0].rows == WrapLines(e, SliceLines(e, bs, q[0].ack, p), q[0].prefix.width)
  {
  }

  lemma {:induction false} DrainWhole(e: Env, bs: seq<Block>, q: seq<Emission>, p: Pos, budget: nat)
    requires Aligned(e, bs, q, p) && FreshTail(q) && q != [] && 0 < budget && |q[0].rows| <= budget
    requires DrainOk(e, bs, q[1..], Next(q[0].ack, p), budget - |q[0].rows|)
    ensures DrainOk(e, bs, q, p, budget)
  {
    hide EmissionOk, SliceLines, WrapLines;
    var p1 := Next(q[0].ack, p);
    var d := DrainQueue(q[1..], budget - |q[0].rows|);
    var log := DrainedLog(q[1..], budget - |q[0].rows|);
    var head := Slice(q[0].ack, q[0].prefix.width);
    FrontEmissionFits(e, bs, q, p);
    LogCons(e, bs, head, log, p);
    FreshHasNoPartial(e, bs, q[1..], p1);
    PartialPlusRest(e, bs, q, p);
    var all := WrapLines(e, SliceLines(e, bs, q[0].ack, p), q[0].prefix.width);
    var left := PartialRows(e, bs, d.queue, LogEnd(log, p1));
    assert d.rows == Rendered(e, bs, log, p1) + left;
    ConcatAssoc(PartialRows(e, bs, q, p), q[0].rows, d.rows);
    ConcatAssoc(all, Rendered(e, bs, log, p1), left);
  }

  lemma {:induction false} FrontEmissionFits(e: Env, bs: seq<Block>, q: seq<Emission>, p: Pos)
    requires Aligned(e, bs, q, p) && q != []
    ensures EmissionOk(e, bs, q[0], p) && Fits(e, bs, q[0].ack, p) && Aligned(e, bs, q[1..], Next(q[0].ack, p))
  {
  }

  lemma {:induction false} DrainPart(e: Env, bs: seq<Block>, q: seq<Emission>, p: Pos, budget: nat)
    requires Aligned(e, bs, q, p) && FreshTail(q) && q != [] && 0 < budget < |q[0].rows|
    ensures DrainOk(e, bs, q, p, budget)
  {
    hide SourceNames, SliceLines, Fits;
    var d := DrainQueue(q, budget);
    var all := WrapLines(e, SliceLines(e, bs, q[0].ack, p), q[0].prefix.width);
    assert d.queue[1..] == q[1..];
    assert all[q[0].prefix.rows..][budget..] == all[q[0].prefix.rows + budget..];
    assert EmissionOk(e, bs, d.queue[0], p);
    assert all[..q[0].prefix.rows] + all[q[0].prefix.rows..][..budget] == all[..q[0].prefix.rows + budget];
  }
}
