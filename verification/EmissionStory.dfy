/**
 What a transcript says: the prompts, notes and turns of a run in order, each with its
 whole text, read off the run itself and not off the blocks.
 */
module EmissionStory {
  import opened Prelude
  import opened Emission
  import opened EmissionLaws
  import opened EmissionRuns
  import opened EmissionRewind

  /** A block as its reader knows it. */
  datatype Entry = Note(lines: seq<Line>) | Turn(text: string, whole: bool)

  /** The entries of a run so far, and the turn whose text still grows: the last one's. */
  datatype Story = Story(entries: seq<Entry>, open: Option<nat>)

  /** The open turn is over as it stands. */
  function Ended(s: Story): Story {
    if s.open.None? || s.entries == [] then s.(open := None)
    else
      var n := |s.entries| - 1;
      Story(if s.entries[n].Turn? then s.entries[n := s.entries[n].(whole := true)] else s.entries, None)
  }

  function Tell(s: Story, op: Op): Story {
    match op
    case Push(lines) => Story(Ended(s).entries + [Note(lines)], None)
    case TextDelta(turn, text) =>
      if s.open == Some(turn) && s.entries != [] && s.entries[|s.entries| - 1].Turn? then
        s.(entries := s.entries[|s.entries| - 1 := Turn(s.entries[|s.entries| - 1].text + text, false)])
      else Story(Ended(s).entries + [Turn(text, false)], Some(turn))
    case Respond(turn, text) =>
      if turn.Some? && s.open == turn && s.entries != [] && s.entries[|s.entries| - 1].Turn? then
        if s.entries[|s.entries| - 1].text <= text
        then Story(s.entries[|s.entries| - 1 := Turn(text, true)], None)
        else s
      else if text != "" then Story(Ended(s).entries + [Turn(text, true)], None)
      else s
    case _ => s
  }

  function Told(ops: seq<Op>): Story {
    if ops == [] then Story([], None) else Tell(Told(ops[..|ops| - 1]), ops[|ops| - 1])
  }

  function EntryOf(b: Block): Entry {
    match b
    case Static(lines) => Note(lines)
    case Agent(source, finalized, _, _) => Turn(source, finalized)
  }

  function Entries(blocks: seq<Block>): (r: seq<Entry>)
    ensures |r| == |blocks| && forall k :: 0 <= k < |r| ==> r[k] == EntryOf(blocks[k])
  {
    seq(|blocks|, k requires 0 <= k < |blocks| => EntryOf(blocks[k]))
  }

  function StoryOf(t: State): Story {
    Story(Entries(t.blocks), t.openTurn)
  }

  /** Counters aside, a pass and a rewind change no block. */
  predicate SameText(a: seq<Block>, b: seq<Block>) {
    |a| == |b| && forall k :: 0 <= k < |a| ==> EntryOf(a[k]) == EntryOf(b[k])
  }

  lemma {:induction false} SnapshotTells(e: Env, t: State, width: nat)
    requires t.queued <= |t.blocks|
    ensures SameText(t.blocks, Snapshot(e, t, width).blocks) && Snapshot(e, t, width).openTurn == t.openTurn
    decreases |t.blocks| - t.queued
  {
    hide Stable, Document, WrapLines;
    if t.queued < |t.blocks| {
      var s := QueueBlock(e, t, width);
      if s.queued != t.queued { SnapshotTells(e, s, width); }
    }
  }

  lemma {:induction false} AcknowledgeTells(blocks: seq<Block>, index: nat, acks: seq<FlushAck>)
    requires AcksFit(blocks, index, acks)
    ensures SameText(blocks, Acknowledge(blocks, index, acks).0)
    decreases |acks|
  {
    if acks != [] {
      match acks[0]
      case WholeBlock => AcknowledgeTells(blocks, index + 1, acks[1..]);
      case AgentLines(n, completes) =>
        AcknowledgeTells(blocks[index := AckBlock(blocks[index], n)], if completes then index + 1 else index, acks[1..]);
    }
  }

  lemma {:induction false} SealTells(t: State)
    ensures StoryOf(Seal(t)) == Ended(StoryOf(t))
  {
    assert Entries(Seal(t).blocks) == Ended(StoryOf(t)).entries;
  }

  lemma {:induction false} StepTells(e: Env, w: World, op: Op)
    requires Lawful(e) && Exact(e, w)
    ensures StoryOf(Step(e, w, op).view) == Tell(StoryOf(w.view), op)
  {
    hide Lawful, Inv, Covered, Rendered, PartialRows, Snapshot, Acknowledge, AcksFit, DrainQueue, DrainedLog;
    var t := w.view;
    match op
    case Push(lines) =>
      SealTells(t);
      assert Entries(PushStatic(t, lines).blocks) == Entries(Seal(t).blocks) + [Note(lines)];
    case TextDelta(turn, text) =>
      OpenTells(e, t);
      DeltaTells(t, turn, text);
    case Respond(turn, text) =>
      OpenTells(e, t);
      SealTells(t);
      ResponseTells(t, turn, text);
    case Materialize(width) =>
      QueuedIn(e, t);
      SnapshotTells(e, t, width);
      assert Entries(Snapshot(e, t, width).blocks) == Entries(t.blocks);
    case Pump(budget) =>
      PumpKeeps(e, t, budget);
      var d := DrainQueue(t.queue, budget);
      AcknowledgeTells(t.blocks, t.flushed, d.acks);
      assert Entries(Acknowledge(t.blocks, t.flushed, d.acks).0) == Entries(t.blocks);
    case WidthChange =>
      assert Entries(Rewind(t).blocks) == Entries(t.blocks);
  }

  lemma {:induction false} QueuedIn(e: Env, t: State)
    requires Inv(e, t)
    ensures t.queued <= |t.blocks|
  {
  }

  lemma {:induction false} OpenTells(e: Env, t: State)
    requires Inv(e, t)
    ensures t.openTurn.Some? ==> t.blocks != [] && t.blocks[|t.blocks| - 1].Agent? && !t.blocks[|t.blocks| - 1].finalized
  {
    hide Aligned, BlockOk;
  }

  lemma {:induction false} DeltaTells(t: State, turn: nat, text: string)
    requires t.openTurn.Some? ==> t.blocks != [] && t.blocks[|t.blocks| - 1].Agent? && !t.blocks[|t.blocks| - 1].finalized
    ensures StoryOf(Delta(t, turn, text)) == Tell(StoryOf(t), TextDelta(turn, text))
  {
    SealTells(t);
    if t.openTurn != Some(turn) {
      assert "" + text == text;
      assert Entries(Delta(t, turn, text).blocks) == Entries(Seal(t).blocks) + [Turn(text, false)];
    } else {
      assert Entries(Delta(t, turn, text).blocks) == Tell(StoryOf(t), TextDelta(turn, text)).entries;
    }
  }

  lemma {:induction false} ResponseTells(t: State, turn: Option<nat>, text: string)
    requires t.openTurn.Some? ==> t.blocks != [] && t.blocks[|t.blocks| - 1].Agent? && !t.blocks[|t.blocks| - 1].finalized
    ensures StoryOf(if ResponseExtends(t, turn, text) then Response(t, turn, text) else t) == Tell(StoryOf(t), Respond(turn, text))
  {
    SealTells(t);
    var u := if ResponseExtends(t, turn, text) then Response(t, turn, text) else t;
    assert Entries(u.blocks) == Tell(StoryOf(t), Respond(turn, text)).entries;
  }

  /** After every run the transcript's blocks say exactly what was told: each note where it
      was pushed, each turn the text of all its deltas or of its response, in order; and
      the turn still growing is the last, exactly while no response, note or other turn
      came after it. */
  lemma {:induction false} BlocksTell(e: Env, ops: seq<Op>)
    requires Lawful(e)
    ensures StoryOf(Run(e, ops).view) == Told(ops)
    decreases |ops|
  {
    hide Lawful, Exact, Step, Tell, StoryOf;
    if ops == [] {
      NothingTold(e);
    } else {
      var init := ops[..|ops| - 1];
      BlocksTell(e, init);
      StepTells(e, Run(e, init), ops[|ops| - 1]);
    }
  }

  lemma {:induction false} NothingTold(e: Env)
    requires Lawful(e)
    ensures StoryOf(Run(e, []).view) == Story([], None)
  {
  }
}
