/**
 What a width change leaves of the emission queue, and how far a drain gets, over
 every run and without a word on how either is done.
 */
module EmissionRewind {
  import opened Prelude
  import opened Emission
  import opened EmissionLaws
  import opened EmissionRuns
  import opened EmissionReplay

  /** The front emission has rows in scrollback already and rows still to go. */
  predicate PartlyOut(queue: seq<Emission>) {
    queue != [] && queue[0].prefix.rows > 0
  }

  lemma {:induction false} RunOne(e: Env, ops: seq<Op>, op: Op)
    requires Lawful(e)
    ensures Run(e, ops + [op]) == Step(e, Run(e, ops), op)
  {
    hide Step;
    assert (ops + [op])[..|ops|] == ops;
  }

  /** Right after a width change the queue holds nothing, except a front emission that
      was partly out: that one stays, with the rows it still owed. */
  lemma {:induction false} WidthChangeClears(e: Env, ops: seq<Op>)
    requires Lawful(e)
    ensures var before, after := Run(e, ops).view, Run(e, ops + [WidthChange]).view;
            && after.queue == (if PartlyOut(before.queue) then [before.queue[0]] else [])
            && Start(after) == Start(before)
            && Run(e, ops + [WidthChange]).out == Run(e, ops).out
  {
    hide Lawful, Run, Inv, Covered, Rendered, PartialRows;
    RunOne(e, ops, WidthChange);
    RewindKeeps(e, Run(e, ops).view);
  }

  /** A pass queues at its own width only, behind what was there. */
  lemma {:induction false} PassWidth(e: Env, t: State, width: nat)
    requires t.queued <= |t.blocks|
    ensures var u := Snapshot(e, t, width);
            && t.queue <= u.queue
            && forall i :: |t.queue| <= i < |u.queue| ==> u.queue[i].prefix.width == width && u.queue[i].prefix.rows == 0
    decreases |t.blocks| - t.queued
  {
    hide Stable, Document, WrapLines;
    if t.queued < |t.blocks| {
      var s := QueueBlock(e, t, width);
      if s.queued != t.queued { PassWidth(e, s, width); }
    }
  }

  /** After a width change and the next pass, whatever was queued before: every emission
      none of whose rows is out is wrapped at the new width, only the front may be partly
      out, and the queue reaches the end of everything stable again. */
  lemma {:induction false} RequeuedAtWidth(e: Env, ops: seq<Op>, width: nat)
    requires Lawful(e)
    ensures var t := Run(e, ops + [WidthChange] + [Materialize(width)]).view;
            && (forall i :: 0 <= i < |t.queue| && t.queue[i].prefix.rows == 0 ==> t.queue[i].prefix.width == width)
            && (forall i :: 0 < i < |t.queue| ==> t.queue[i].prefix.rows == 0)
            && Start(t).block <= |t.blocks| && Aligned(e, t.blocks, t.queue, Start(t))
            && End(t.queue, Start(t)) == StableEnd(e, t)
  {
    hide Lawful, Run, Snapshot, Aligned, End, StableEnd, OpenOk, BlockOk;
    WidthChangeClears(e, ops);
    RunOne(e, ops + [WidthChange], Materialize(width));
    var s, t := Run(e, ops + [WidthChange]).view, Run(e, ops + [WidthChange] + [Materialize(width)]).view;
    PassWidth(e, s, width);
    SnapshotReachesEnd(e, s, width);
  }

  /** A drain takes as many rows as the budget and the queue allow, also out of the middle
      of one emission, and leaves the others queued. */
  lemma {:induction false} DrainTakes(queue: seq<Emission>, budget: nat)
    ensures var d := DrainQueue(queue, budget);
            && |d.rows| == (if budget <= QueuedLen(queue) then budget else QueuedLen(queue))
            && QueuedLen(d.queue) == QueuedLen(queue) - |d.rows|
            && AllRows(queue) == d.rows + AllRows(d.queue)
    decreases |queue|
  {
    hide QueuedLen, AllRows, DrainQueue;
    if queue == [] || budget == 0 {
      NothingTaken(queue, budget);
    } else if |queue[0].rows| <= budget {
      DrainTakes(queue[1..], budget - |queue[0].rows|);
      FrontTaken(queue, budget);
      var d := DrainQueue(queue[1..], budget - |queue[0].rows|);
      ConcatAssoc(queue[0].rows, d.rows, AllRows(d.queue));
    } else {
      PartTaken(queue, budget);
    }
  }

  lemma {:induction false} NothingTaken(queue: seq<Emission>, budget: nat)
    requires queue == [] || budget == 0
    ensures DrainQueue(queue, budget) == Drained([], [], queue) && (queue == [] ==> QueuedLen(queue) == 0)
    ensures [] + AllRows(queue) == AllRows(queue)
  {
    hide AllRows;
  }

  lemma {:induction false} FrontTaken(queue: seq<Emission>, budget: nat)
    requires queue != [] && 0 < budget && |queue[0].rows| <= budget
    ensures var d, u := DrainQueue(queue, budget), DrainQueue(queue[1..], budget - |queue[0].rows|);
            d.rows == queue[0].rows + u.rows && d.queue == u.queue
    ensures QueuedLen(queue) == |queue[0].rows| + QueuedLen(queue[1..])
    ensures AllRows(queue) == queue[0].rows + AllRows(queue[1..])
  {
  }

  lemma {:induction false} PartTaken(queue: seq<Emission>, budget: nat)
    requires queue != [] && 0 < budget < |queue[0].rows|
    ensures var d := DrainQueue(queue, budget);
            && d.rows == queue[0].rows[..budget] && QueuedLen(d.queue) == QueuedLen(queue) - budget
            && budget <= QueuedLen(queue) && AllRows(queue) == d.rows + AllRows(d.queue)
  {
    var f, rest := queue[0], queue[1..];
    var g := f.(rows := f.rows[budget..], prefix := f.prefix.(rows := f.prefix.rows + budget));
    assert DrainQueue(queue, budget).queue == [g] + rest && ([g] + rest)[1..] == rest;
    hide DrainQueue;
    assert f.rows == f.rows[..budget] + f.rows[budget..];
    ConcatAssoc(f.rows[..budget], f.rows[budget..], AllRows(rest));
  }

  /** The rows queued, front first. */
  function AllRows(queue: seq<Emission>): (rows: seq<Row>)
    ensures |rows| == QueuedLen(queue)
  {
    if queue == [] then [] else queue[0].rows + AllRows(queue[1..])
  }

  /** So a pump of any run confirms exactly the next rows in line, up to its budget. */
  lemma {:induction false} PumpTakes(e: Env, ops: seq<Op>, budget: nat)
    requires Lawful(e)
    ensures var before, after := Run(e, ops), Run(e, ops + [Pump(budget)]);
            && after.out == before.out + Take(AllRows(before.view.queue), budget)
            && AllRows(before.view.queue) == Take(AllRows(before.view.queue), budget) + AllRows(after.view.queue)
  {
    hide Lawful, Exact, Run, AllRows, DrainQueue, Acknowledge, AcksFit;
    RunOne(e, ops, Pump(budget));
    var queue := Run(e, ops).view.queue;
    DrainTakes(queue, budget);
    assert Take(AllRows(queue), budget) == DrainQueue(queue, budget).rows;
  }
}
