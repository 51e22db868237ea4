/**
 The paced emission queue on values: transcript blocks become stable, are
 wrapped into rows, queued, drained a few rows at a time, confirmed after the
 insert and folded back when the width changes.

 `Env` stands for the markdown pipeline and the word wrapper. `doc` renders a
 complete document into logical lines, `stable` says how many leading lines of
 the committed prefix can no longer change, `wrap` is the per-line wrapper and
 `rewrap` re-wraps one display row.
 */
module Emission {
  import opened Prelude
  import Terminals

  /** A logical line of styled text. */
  type Line(==, !new)

  /** One display row of it, as the shell takes it. */
  type Row = Terminals.Line

  datatype Env = Env(
    doc: string -> seq<Line>,
    stable: string -> nat,
    wrap: (Line, nat) -> seq<Row>,
    rewrap: (Row, nat) -> seq<Row>)

  /** Newline gating: the committed prefix ends with the last newline. */
  function CommittedLen(s: string): (n: nat)
    ensures n <= |s| && (n > 0 ==> s[n - 1] == '\n')
    ensures forall k :: n <= k < |s| ==> s[k] != '\n'
  {
    if s == [] then 0
    else if s[|s| - 1] == '\n' then |s|
    else CommittedLen(s[..|s| - 1])
  }

  function StablePrefix(e: Env, source: string): seq<Line> {
    Take(e.doc(source[..CommittedLen(source)]), e.stable(source))
  }

  /** The pipeline's promise: a stable line survives every later delta and the
      finalize, at the same place. */
  ghost predicate Lawful(e: Env) {
    && (forall s, t :: s <= t ==> StablePrefix(e, s) <= StablePrefix(e, t))
    && (forall s, t :: s <= t ==> StablePrefix(e, s) <= e.doc(t))
  }

  /** A static block, or an assistant block over the pipeline. `acked` lines are
      confirmed in scrollback, `emitted` lines are queued or confirmed. */
  datatype Block =
    | Static(lines: seq<Line>)
    | Agent(source: string, finalized: bool, acked: nat, emitted: nat)

  function Document(e: Env, b: Block): seq<Line> {
    match b
    case Static(lines) => lines
    case Agent(source, finalized, _, _) =>
      if finalized then e.doc(source) else e.doc(source[..CommittedLen(source)])
  }

  /** The leading lines that may leave for scrollback. */
  function Stable(e: Env, b: Block): (r: seq<Line>)
    ensures r <= Document(e, b)
  {
    match b
    case Static(lines) => lines
    case Agent(source, finalized, _, _) =>
      if finalized then e.doc(source) else StablePrefix(e, source)
  }

  function WrapLines(e: Env, lines: seq<Line>, width: nat): seq<Row> {
    if lines == [] then [] else e.wrap(lines[0], width) + WrapLines(e, lines[1..], width)
  }

  function RewrapRows(e: Env, rows: seq<Row>, width: nat): seq<Row> {
    if rows == [] then [] else e.rewrap(rows[0], width) + RewrapRows(e, rows[1..], width)
  }

  lemma {:induction false} WrapCons(e: Env, first: Line, rest: seq<Line>, width: nat)
    ensures WrapLines(e, [first] + rest, width) == e.wrap(first, width) + WrapLines(e, rest, width)
  {
    assert ([first] + rest)[1..] == rest;
  }

  lemma {:induction false} NothingWrapped(e: Env, width: nat)
    ensures WrapLines(e, [], width) == []
  {
  }

  lemma {:induction false} WrapConcat(e: Env, a: seq<Line>, b: seq<Line>, width: nat)
    ensures WrapLines(e, a + b, width) == WrapLines(e, a, width) + WrapLines(e, b, width)
  {
    hide WrapLines;
    if a == [] {
      NothingWrapped(e, width);
      assert a + b == b && [] + WrapLines(e, b, width) == WrapLines(e, b, width);
    } else {
      var first, rest := a[0], a[1..];
      WrapConcat(e, rest, b, width);
      assert a + b == [first] + (rest + b) && a == [first] + rest;
      WrapCons(e, first, rest + b, width);
      WrapCons(e, first, rest, width);
      ConcatAssoc(e.wrap(first, width), WrapLines(e, rest, width), WrapLines(e, b, width));
    }
  }

  datatype FlushAck =
    | WholeBlock
    | AgentLines(lines: nat, completes: bool)

  /** A queued slice, counted back from the end of the document that `end`
      characters of source render to. */
  datatype SourceSlice = SourceSlice(end: nat, trailing: nat, lines: nat)

  datatype EmissionPrefix = EmissionPrefix(source: Option<SourceSlice>, width: nat, rows: nat)

  datatype Emission = Emission(rows: seq<Row>, ack: FlushAck, prefix: EmissionPrefix)

  datatype State = State(
    blocks: seq<Block>,
    flushed: nat,
    queued: nat,
    queue: seq<Emission>,
    partial: Option<EmissionPrefix>,
    openTurn: Option<nat>)

  const EMPTY := State([], 0, 0, [], None, None)

  // ---------------------------------------------------------------- positions

  /** A place in the transcript: block index and logical line within it. */
  datatype Pos = Pos(block: nat, line: nat)

  function Next(ack: FlushAck, p: Pos): Pos {
    match ack
    case WholeBlock => Pos(p.block + 1, 0)
    case AgentLines(n, completes) =>
      if completes then Pos(p.block + 1, 0) else Pos(p.block, p.line + n)
  }

  /** The ack describes a slice that starts exactly at `p`; a completing one
      ends exactly at the end of a finalized block. */
  predicate Fits(e: Env, blocks: seq<Block>, ack: FlushAck, p: Pos) {
    && p.block < |blocks|
    && match ack
       case WholeBlock => blocks[p.block].Static? && p.line == 0
       case AgentLines(n, completes) =>
         && blocks[p.block].Agent?
         && p.line + n <= |Stable(e, blocks[p.block])|
         && (completes ==> blocks[p.block].finalized && p.line + n == |Stable(e, blocks[p.block])|)
  }

  /** The logical lines an ack covers. */
  function SliceLines(e: Env, blocks: seq<Block>, ack: FlushAck, p: Pos): seq<Line>
    requires Fits(e, blocks, ack, p)
  {
    match ack
    case WholeBlock => blocks[p.block].lines
    case AgentLines(n, _) => Stable(e, blocks[p.block])[p.line..p.line + n]
  }

  /** The source coordinates of an agent slice name the same logical lines. */
  predicate SourceNames(e: Env, b: Block, slice: SourceSlice, lines: seq<Line>)
    requires b.Agent?
  {
    && slice.end <= |b.source|
    && slice.lines == |lines|
    && var d := e.doc(b.source[..slice.end]);
       && slice.trailing + slice.lines <= |d|
       && d[|d| - slice.trailing - slice.lines..|d| - slice.trailing] == lines
  }

  predicate EmissionOk(e: Env, blocks: seq<Block>, em: Emission, p: Pos) {
    && Fits(e, blocks, em.ack, p)
    && var lines := SliceLines(e, blocks, em.ack, p);
       var all := WrapLines(e, lines, em.prefix.width);
       && em.prefix.rows <= |all|
       && em.rows == all[em.prefix.rows..]
       && (em.ack.AgentLines? && lines != [] ==>
             em.prefix.source.Some? && SourceNames(e, blocks[p.block], em.prefix.source.value, lines))
  }

  /** The queue is a run of consecutive slices from `p` on. */
  predicate Aligned(e: Env, blocks: seq<Block>, queue: seq<Emission>, p: Pos) {
    queue == [] ||
    (EmissionOk(e, blocks, queue[0], p) && Aligned(e, blocks, queue[1..], Next(queue[0].ack, p)))
  }

  function End(queue: seq<Emission>, p: Pos): Pos {
    if queue == [] then p else End(queue[1..], Next(queue[0].ack, p))
  }

  function AckedAt(blocks: seq<Block>, k: nat): nat {
    if k < |blocks| && blocks[k].Agent? then blocks[k].acked else 0
  }

  function EmittedAt(blocks: seq<Block>, k: nat): nat {
    if k < |blocks| && blocks[k].Agent? then blocks[k].emitted else 0
  }

  function Start(t: State): Pos {
    Pos(t.flushed, AckedAt(t.blocks, t.flushed))
  }

  function FrontPrefix(queue: seq<Emission>): Option<EmissionPrefix> {
    if queue != [] && queue[0].prefix.rows > 0 then Some(queue[0].prefix) else None
  }

  /** Only the front emission can have lost rows to a drain. */
  predicate FreshTail(queue: seq<Emission>) {
    forall i :: 0 < i < |queue| ==> queue[i].prefix.rows == 0
  }

  /** One block's counters, given the two cursors. */
  predicate BlockOk(e: Env, b: Block, k: nat, flushed: nat, queued: nat) {
    b.Agent? ==>
      && b.acked <= b.emitted <= |Stable(e, b)|
      && (k < flushed ==> b.acked == |Stable(e, b)|)
      && (k > flushed ==> b.acked == 0)
      && (k < queued ==> b.finalized && b.emitted == |Stable(e, b)|)
      && (k > queued ==> b.emitted == 0)
  }

  /** Only the tail block may be open, exactly while `openTurn` is set. */
  predicate OpenOk(t: State) {
    && (t.openTurn.Some? ==> t.blocks != [] && t.blocks[|t.blocks| - 1].Agent?)
    && (forall k :: 0 <= k < |t.blocks| && t.blocks[k].Agent? ==>
          (t.blocks[k].finalized <==> !(t.openTurn.Some? && k == |t.blocks| - 1)))
  }

  ghost predicate Inv(e: Env, t: State) {
    && t.flushed <= t.queued <= |t.blocks|
    && OpenOk(t)
    && (forall k :: 0 <= k < |t.blocks| ==> BlockOk(e, t.blocks[k], k, t.flushed, t.queued))
    && Aligned(e, t.blocks, t.queue, Start(t))
    && End(t.queue, Start(t)) == Pos(t.queued, EmittedAt(t.blocks, t.queued))
    && FreshTail(t.queue)
    && t.partial == FrontPrefix(t.queue)
  }

  // --------------------------------------------------------------- operations

  function SealBlocks(blocks: seq<Block>): seq<Block> {
    if blocks != [] && blocks[|blocks| - 1].Agent?
    then blocks[|blocks| - 1 := blocks[|blocks| - 1].(finalized := true)]
    else blocks
  }

  /** Close the open assistant block over its own source. */
  function Seal(t: State): State {
    if t.openTurn.Some? then t.(blocks := SealBlocks(t.blocks), openTurn := None) else t
  }

  function PushStatic(t: State, lines: seq<Line>): State {
    var s := Seal(t);
    s.(blocks := s.blocks + [Static(lines)])
  }

  function OpenBlock(t: State, turn: nat): State {
    if t.openTurn == Some(turn) then t
    else
      var s := Seal(t);
      s.(blocks := s.blocks + [Agent("", false, 0, 0)], openTurn := Some(turn))
  }

  function AppendText(t: State, text: string): State {
    if t.blocks != [] && t.blocks[|t.blocks| - 1].Agent? then
      var b := t.blocks[|t.blocks| - 1];
      t.(blocks := t.blocks[|t.blocks| - 1 := b.(source := b.source + text)])
    else t
  }

  function Delta(t: State, turn: nat, text: string): State {
    AppendText(OpenBlock(t, turn), text)
  }

  /** A recorded response: the authoritative text of the open turn, or a block
      of its own when no delta of the turn arrived. */
  function Response(t: State, turn: Option<nat>, text: string): State {
    if turn.Some? && turn == t.openTurn && t.blocks != [] && t.blocks[|t.blocks| - 1].Agent? then
      var b := t.blocks[|t.blocks| - 1];
      t.(blocks := t.blocks[|t.blocks| - 1 := b.(source := text, finalized := true)], openTurn := None)
    else if text != "" then
      var s := Seal(t);
      s.(blocks := s.blocks + [Agent(text, true, 0, 0)])
    else t
  }

  /** The transport's contract on a response: it extends the deltas seen. */
  predicate ResponseExtends(t: State, turn: Option<nat>, text: string) {
    turn.Some? && turn == t.openTurn && t.blocks != [] && t.blocks[|t.blocks| - 1].Agent? ==>
      t.blocks[|t.blocks| - 1].source <= text
  }

  /** What an assistant block queues next: its lines between `emitted` and the
      stable end, or a bare completing ack when they were all queued before. */
  function AgentEmissions(e: Env, b: Block, width: nat): seq<Emission>
    requires b.Agent?
  {
    var stable := Stable(e, b);
    var newly := Last(stable, if b.emitted <= |stable| then |stable| - b.emitted else 0);
    var end := if b.finalized then |b.source| else CommittedLen(b.source);
    if newly != [] then
      [Emission(WrapLines(e, newly, width), AgentLines(|newly|, b.finalized),
                EmissionPrefix(Some(SourceSlice(end, |Document(e, b)| - |stable|, |newly|)), width, 0))]
    else if b.finalized then
      [Emission([], AgentLines(0, true), EmissionPrefix(None, width, 0))]
    else []
  }

  /** Queue block `queued`'s new stable lines; advance past it when complete. */
  function QueueBlock(e: Env, t: State, width: nat): State
    requires t.queued < |t.blocks|
  {
    var b := t.blocks[t.queued];
    match b
    case Static(lines) =>
      t.(queue := t.queue + [Emission(WrapLines(e, lines, width), WholeBlock, EmissionPrefix(None, width, 0))],
         queued := t.queued + 1)
    case Agent(_, finalized, _, _) =>
      t.(blocks := t.blocks[t.queued := b.(emitted := |Stable(e, b)|)],
         queue := t.queue + AgentEmissions(e, b, width),
         queued := if finalized then t.queued + 1 else t.queued)
  }

  /** One materialization pass from the `queued` cursor on. */
  function Snapshot(e: Env, t: State, width: nat): State
    requires t.queued <= |t.blocks|
    decreases |t.blocks| - t.queued
  {
    if t.queued == |t.blocks| then t
    else
      var s := QueueBlock(e, t, width);
      if s.queued == t.queued then s else Snapshot(e, s, width)
  }

  datatype Drained = Drained(rows: seq<Row>, acks: seq<FlushAck>, queue: seq<Emission>)

  /** Up to `budget` rows leave the front; an ack rides out with its last row. */
  function DrainQueue(queue: seq<Emission>, budget: nat): Drained {
    if queue == [] || budget == 0 then Drained([], [], queue)
    else
      var f := queue[0];
      if |f.rows| <= budget then
        var d := DrainQueue(queue[1..], budget - |f.rows|);
        Drained(f.rows + d.rows, [f.ack] + d.acks, d.queue)
      else
        Drained(f.rows[..budget], [],
                [f.(rows := f.rows[budget..], prefix := f.prefix.(rows := f.prefix.rows + budget))] + queue[1..])
  }

  function QueuedLen(queue: seq<Emission>): nat {
    if queue == [] then 0 else |queue[0].rows| + QueuedLen(queue[1..])
  }

  function AckBlock(b: Block, n: nat): Block {
    if b.Agent? then b.(acked := b.acked + n) else b
  }

  /** Every agent ack addresses an assistant block of the transcript. */
  predicate AcksFit(blocks: seq<Block>, index: nat, acks: seq<FlushAck>)
    decreases |acks|
  {
    acks == [] ||
    match acks[0]
    case WholeBlock => AcksFit(blocks, index + 1, acks[1..])
    case AgentLines(n, completes) =>
      && index < |blocks|
      && blocks[index].Agent?
      && AcksFit(blocks[index := AckBlock(blocks[index], n)], if completes then index + 1 else index, acks[1..])
  }

  function Acknowledge(blocks: seq<Block>, index: nat, acks: seq<FlushAck>): (seq<Block>, nat)
    requires AcksFit(blocks, index, acks)
    decreases |acks|
  {
    if acks == [] then (blocks, index)
    else match acks[0]
      case WholeBlock => Acknowledge(blocks, index + 1, acks[1..])
      case AgentLines(n, completes) =>
        Acknowledge(blocks[index := AckBlock(blocks[index], n)], if completes then index + 1 else index, acks[1..])
  }

  function Flush(t: State, acks: seq<FlushAck>): State
    requires AcksFit(t.blocks, t.flushed, acks)
  {
    var (blocks, flushed) := Acknowledge(t.blocks, t.flushed, acks);
    t.(blocks := blocks, flushed := flushed, partial := FrontPrefix(t.queue))
  }

  function FoldBack(b: Block): Block {
    if b.Agent? then b.(emitted := b.acked) else b
  }

  /** Blocks from `first` on forget what they queued. */
  function FoldFrom(blocks: seq<Block>, first: nat): (r: seq<Block>)
    ensures |r| == |blocks|
  {
    seq(|blocks|, i requires 0 <= i < |blocks| => if i < first then blocks[i] else FoldBack(blocks[i]))
  }

  /** The width-change rewind: a partly drained front emission stays, everything
      else folds back into its block. */
  function Rewind(t: State): State {
    if FrontPrefix(t.queue).Some? then
      var front := t.queue[0];
      var kept :=
        if front.ack.AgentLines? && t.flushed < |t.blocks| && t.blocks[t.flushed].Agent? then
          t.blocks[t.flushed := t.blocks[t.flushed].(emitted := t.blocks[t.flushed].acked + front.ack.lines)]
        else t.blocks;
      t.(queue := [front], queued := Next(front.ack, Start(t)).block, blocks := FoldFrom(kept, t.flushed + 1))
    else
      t.(queue := [], queued := t.flushed, blocks := FoldFrom(t.blocks, t.flushed))
  }
}
