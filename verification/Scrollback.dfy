/**
 From transcript to terminal: what the pump takes off the emission queue goes out
 through the shell, so the terminal's history is the transcript, each row once.
 */
module Scrollback {
  import opened Prelude
  import E = Emission
  import R = EmissionRuns
  import L = EmissionLaws
  import opened Terminals
  import opened HistoryInsert
  import opened HistoryLaws
  import opened Shells
  import opened ShellLaws

  /** A session's transcript and the terminal it pumps into. */
  datatype Pipe = Pipe(world: R.World, session: Session)

  /** A step of the transcript, whose pumped rows go out at once, or of the band alone. */
  datatype Stage = Feed(op: R.Op) | Height(desired: nat) | Repaint(band: seq<Row>)

  /** The transcript's own steps. */
  function Ops(stages: seq<Stage>): seq<R.Op> {
    if stages == [] then []
    else
      var last := stages[|stages| - 1];
      Ops(stages[..|stages| - 1]) + (if last.Feed? then [last.op] else [])
  }

  function Painted(s: Session, band: seq<Row>, wrap: Wrapper, strategy: Strategy): Session
    requires SessionOk(s)
  {
    if JobOk(s, Paint(band), wrap) then Perform(s, Paint(band), wrap, strategy) else s
  }

  /** One stage: a pump confirms exactly the rows it has the shell insert. */
  ghost function Advance(e: E.Env, wrap: Wrapper, strategy: Strategy, p: Pipe, stage: Stage): Pipe
    requires E.Lawful(e) && R.Exact(e, p.world) && SessionOk(p.session)
  {
    match stage
    case Feed(op) =>
      R.StepExact(e, p.world, op);
      var next := R.Step(e, p.world, op);
      Pipe(next, Perform(p.session, InsertRows(next.out[|p.world.out|..]), wrap, strategy))
    case Height(desired) => p.(session := Perform(p.session, ChangeHeight(desired), wrap, strategy))
    case Repaint(band) => p.(session := Painted(p.session, band, wrap, strategy))
  }

  /** The rows a stage sends out. */
  ghost function Sent(e: E.Env, p: Pipe, stage: Stage): seq<Line>
    requires E.Lawful(e) && R.Exact(e, p.world)
  {
    if stage.Feed? then
      R.StepExact(e, p.world, stage.op);
      R.Step(e, p.world, stage.op).out[|p.world.out|..]
    else []
  }

  lemma {:induction false} SentOut(e: E.Env, p: Pipe, stage: Stage)
    requires E.Lawful(e) && R.Exact(e, p.world)
    ensures (if stage.Feed? then R.Step(e, p.world, stage.op).out else p.world.out) == p.world.out + Sent(e, p, stage)
  {
    hide E.Lawful, R.Exact, R.Step;
    if stage.Feed? { R.StepExact(e, p.world, stage.op); }
  }

  lemma {:induction false} AdvanceAppends(e: E.Env, wrap: Wrapper, strategy: Strategy, p: Pipe, stage: Stage)
    requires E.Lawful(e) && R.Exact(e, p.world) && SessionOk(p.session) && Keeps(p.session.term, strategy)
    ensures var r := Advance(e, wrap, strategy, p, stage);
            var rows := Rewrapped(wrap, Sent(e, p, stage), p.session.term.width);
            && R.Exact(e, r.world) && SessionOk(r.session) && Alike(p.session.term, r.session.term)
            && r.world.out == p.world.out + Sent(e, p, stage)
            && (r.world == if stage.Feed? then R.Step(e, p.world, stage.op) else p.world)
            && History(r.session.term, r.session.area.y)
                 == History(p.session.term, p.session.area.y) + RenderAll(rows, p.session.term.width)
  {
    hide E.Lawful, R.Exact, R.Step, SessionOk, Perform, JobOk, History, RenderAll, Rewrapped;
    var s := p.session;
    SessionHistory(s);
    NoneRewrapped(wrap, s.term.width);
    SentOut(e, p, stage);
    match stage
    case Feed(op) =>
      R.StepExact(e, p.world, op);
      AnyRows(s, Sent(e, p, stage), wrap);
      JobAppends(s, InsertRows(Sent(e, p, stage)), wrap, strategy);
    case Height(desired) =>
      AnyHeight(s, desired, wrap);
      JobAppends(s, ChangeHeight(desired), wrap, strategy);
    case Repaint(band) =>
      if JobOk(s, Paint(band), wrap) { JobAppends(s, Paint(band), wrap, strategy); }
  }

  lemma {:induction false} AnyRows(s: Session, rows: seq<Line>, wrap: Wrapper)
    requires SessionOk(s)
    ensures JobOk(s, InsertRows(rows), wrap)
  {
  }

  lemma {:induction false} AnyHeight(s: Session, desired: nat, wrap: Wrapper)
    requires SessionOk(s)
    ensures JobOk(s, ChangeHeight(desired), wrap)
  {
  }

  /** A run from the empty transcript; the newest stage is the last. */
  ghost function Play(e: E.Env, wrap: Wrapper, strategy: Strategy, start: Session, stages: seq<Stage>): (p: Pipe)
    requires E.Lawful(e) && SessionOk(start) && Keeps(start.term, strategy)
    ensures p.world == R.Run(e, Ops(stages))
    ensures SessionOk(p.session) && Alike(start.term, p.session.term)
    decreases |stages|
  {
    if stages == [] then Pipe(R.Run(e, []), start)
    else
      var init, last := stages[..|stages| - 1], stages[|stages| - 1];
      var before := Play(e, wrap, strategy, start, init);
      AdvanceAppends(e, wrap, strategy, before, last);
      RunSnoc(e, Ops(init), last);
      Advance(e, wrap, strategy, before, last)
  }

  lemma {:induction false} RunSnoc(e: E.Env, ops: seq<R.Op>, stage: Stage)
    requires E.Lawful(e)
    ensures stage.Feed? ==> R.Run(e, ops + [stage.op]) == R.Step(e, R.Run(e, ops), stage.op)
    ensures ops + [] == ops
  {
    if stage.Feed? { assert (ops + [stage.op])[..|ops|] == ops; }
  }

  /** Over every run, whatever the widths the rows were wrapped at: the terminal's
      history is the old one followed by exactly the confirmed rows, in order. */
  lemma {:induction false} HistoryIsConfirmed(e: E.Env, wrap: Wrapper, strategy: Strategy, start: Session, stages: seq<Stage>)
    requires E.Lawful(e) && SessionOk(start) && Keeps(start.term, strategy)
    ensures var p := Play(e, wrap, strategy, start, stages);
            History(p.session.term, p.session.area.y)
              == History(start.term, start.area.y) + RenderAll(Rewrapped(wrap, p.world.out, start.term.width), start.term.width)
    decreases |stages|
  {
    hide E.Lawful, R.Run, R.Exact, SessionOk, History, RenderAll, Rewrapped, Advance, Sent;
    SessionHistory(start);
    NoneRewrapped(wrap, start.term.width);
    var width, old_ := start.term.width, History(start.term, start.area.y);
    if stages == [] {
      NothingOut(e);
    } else {
      var init, last := stages[..|stages| - 1], stages[|stages| - 1];
      var before := Play(e, wrap, strategy, start, init);
      HistoryIsConfirmed(e, wrap, strategy, start, init);
      AdvanceAppends(e, wrap, strategy, before, last);
      var so, rows := before.world.out, Sent(e, before, last);
      RewrappedConcat(wrap, so, rows, width);
      BothFit(Rewrapped(wrap, so, width), Rewrapped(wrap, rows, width), width);
      ConcatAssoc(old_, RenderAll(Rewrapped(wrap, so, width), width), RenderAll(Rewrapped(wrap, rows, width), width));
    }
  }

  lemma {:induction false} NothingOut(e: E.Env)
    requires E.Lawful(e)
    ensures R.Run(e, []).out == []
  {
  }

  lemma {:induction false} RewrappedConcat(wrap: Wrapper, a: seq<Line>, b: seq<Line>, width: nat)
    requires width >= 1
    ensures Rewrapped(wrap, a + b, width) == Rewrapped(wrap, a, width) + Rewrapped(wrap, b, width)
    decreases |b|
  {
    hide Rewrapped;
    if b == [] {
      NoneRewrapped(wrap, width);
      assert a + b == a && Rewrapped(wrap, a, width) + [] == Rewrapped(wrap, a, width);
    } else {
      var init, last := b[..|b| - 1], b[|b| - 1];
      RewrappedConcat(wrap, a, init, width);
      assert a + b == (a + init) + [last] && b == init + [last];
      RewrappedSnoc(wrap, a + init, last, width);
      RewrappedSnoc(wrap, init, last, width);
      ConcatAssoc(Rewrapped(wrap, a, width), Rewrapped(wrap, init, width), if Fits(last, width) then [last] else wrap(last, width));
    }
  }

  lemma {:induction false} RewrappedSnoc(wrap: Wrapper, rows: seq<Line>, last: Line, width: nat)
    requires width >= 1
    ensures Rewrapped(wrap, rows + [last], width)
         == Rewrapped(wrap, rows, width) + (if Fits(last, width) then [last] else wrap(last, width))
  {
    assert (rows + [last])[..|rows|] == rows;
  }

  // ------------------------------------------------------------------ one width

  /** What the word wrapper owes its rows at this width. */
  ghost predicate WrapsWithin(e: E.Env, width: nat) {
    forall line :: AllFit(e.wrap(line, width), width)
  }

  lemma {:induction false} WrappedFit(e: E.Env, lines: seq<E.Line>, width: nat)
    requires WrapsWithin(e, width)
    ensures AllFit(E.WrapLines(e, lines, width), width)
    decreases |lines|
  {
    if lines != [] {
      WrappedFit(e, lines[1..], width);
      assert AllFit(e.wrap(lines[0], width), width);
    }
  }

  /** The partly drained front emission's rows fit too. */
  lemma {:induction false} PartialFits(e: E.Env, bs: seq<E.Block>, q: seq<E.Emission>, at: E.Pos, width: nat)
    requires WrapsWithin(e, width) && E.Aligned(e, bs, q, at) && R.QueueAt(q, width)
    ensures AllFit(L.PartialRows(e, bs, q, at), width)
  {
    if q != [] { WrappedFit(e, E.SliceLines(e, bs, q[0].ack, at), width); }
  }

  /** Every row of the transcript reaches the terminal's history exactly once, over
      every run at the terminal's width: history is the old one followed by the
      transcript, wrapped, up to the confirmed cursor, and by the rows already out of
      the emission in progress. */
  lemma {:induction false} TranscriptReachesHistory(e: E.Env, wrap: Wrapper, strategy: Strategy, start: Session, stages: seq<Stage>)
    requires E.Lawful(e) && SessionOk(start) && Keeps(start.term, strategy)
    requires R.OnlyWidth(Ops(stages), start.term.width) && WrapsWithin(e, start.term.width)
    ensures var p := Play(e, wrap, strategy, start, stages);
            var t, at, width := p.world.view, E.Start(p.world.view), start.term.width;
            && at.block <= |t.blocks| && E.Aligned(e, t.blocks, t.queue, at)
            && var out := E.WrapLines(e, R.LinesUpTo(e, t.blocks, at), width) + L.PartialRows(e, t.blocks, t.queue, at);
               && AllFit(out, width)
               && History(p.session.term, p.session.area.y) == History(start.term, start.area.y) + RenderAll(out, width)
  {
    hide E.Lawful, E.Aligned, E.WrapLines, R.Run, R.Exact, R.LinesUpTo, L.PartialRows, Play, SessionOk, History, RenderAll,
         Rewrapped, AllFit, R.OnlyWidth, WrapsWithin, R.QueueAt;
    SessionHistory(start);
    var p := Play(e, wrap, strategy, start, stages);
    var t, at, width := p.world.view, E.Start(p.world.view), start.term.width;
    R.ScrollbackIsTranscript(e, Ops(stages), width);
    R.RunWidth(e, Ops(stages), width);
    WrappedFit(e, R.LinesUpTo(e, t.blocks, at), width);
    PartialFits(e, t.blocks, t.queue, at, width);
    BothFit(E.WrapLines(e, R.LinesUpTo(e, t.blocks, at), width), L.PartialRows(e, t.blocks, t.queue, at), width);
    HistoryIsConfirmed(e, wrap, strategy, start, stages);
  }
}
