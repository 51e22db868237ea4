/**
 From publish to picture: a client that attached at any moment of any run and
 read its tail to the end holds the hub's open approvals.
 */
module Attaching {
  import opened Prelude
  import opened Contract
  import opened Transport
  import opened ApprovalLaws
  import opened Broadcasting
  import opened Tails
  import opened Clients
  import opened Convergence
  import opened Feeds
  import A = Assembler
  import D = Dialogs

  /** The items the hub took, oldest first. */
  function Taken(parse: A.Parser, capacity: nat, acts: seq<Act>): seq<LiveItem> {
    if acts == [] then []
    else
      var init, act := acts[..|acts| - 1], acts[|acts| - 1];
      Taken(parse, capacity, init)
      + (if act.PublishItem? && !Run(parse, capacity, init).state.closed then [act.item] else [])
  }

  /** The hub, while open, is the fold of what it took. */
  lemma {:induction false} RunIsHub(parse: A.Parser, capacity: nat, acts: seq<Act>)
    requires !Run(parse, capacity, acts).state.closed
    ensures Run(parse, capacity, acts).state == Hub(parse, Taken(parse, capacity, acts))
    decreases |acts|
  {
    hide Hub, Track, Retire, ReadOne, Told, Hangup;
    if acts == [] {
      EmptyHub(parse);
    } else {
      var init, act := acts[..|acts| - 1], acts[|acts| - 1];
      var before := Run(parse, capacity, init);
      StaysClosed(parse, before, act);
      RunIsHub(parse, capacity, init);
      assert Taken(parse, capacity, init) + [] == Taken(parse, capacity, init);
      if act.PublishItem? { HubSnoc(parse, Taken(parse, capacity, init), act.item); }
    }
  }

  lemma {:induction false} EmptyHub(parse: A.Parser)
    ensures Hub(parse, []) == INITIAL
  {
  }

  lemma {:induction false} StaysClosed(parse: A.Parser, w: World, act: Act)
    ensures w.state.closed ==> Step(parse, w, act).state.closed
  {
    hide Track, ReadOne, Told, Hangup, Retire;
  }

  /** A watch splits what the hub took at its attach point. */
  ghost predicate Splits(parse: A.Parser, w: Watch, taken: seq<LiveItem>) {
    && |w.since| <= |taken|
    && w.since == taken[|taken| - |w.since|..]
    && w.base == Hub(parse, taken[..|taken| - |w.since|])
  }

  lemma {:induction false} WatchSplits(parse: A.Parser, capacity: nat, acts: seq<Act>, k: nat)
    requires k < |Run(parse, capacity, acts).watches| && !Run(parse, capacity, acts).state.closed
    ensures Splits(parse, Run(parse, capacity, acts).watches[k], Taken(parse, capacity, acts))
    decreases |acts|
  {
    hide Hub, Step, Splits;
    if acts != [] {
      var init, act := acts[..|acts| - 1], acts[|acts| - 1];
      var before := Run(parse, capacity, init);
      StaysClosed(parse, before, act);
      if k < |before.watches| {
        WatchSplits(parse, capacity, init, k);
        ActSplits(parse, before, Taken(parse, capacity, init), act, k);
      } else {
        RunIsHub(parse, capacity, init);
        AttachSplits(parse, before, Taken(parse, capacity, init), act, k);
      }
    }
  }

  /** One act on a watch that was there, and on the items taken. */
  lemma {:induction false} ActSplits(parse: A.Parser, before: World, taken: seq<LiveItem>, act: Act, k: nat)
    requires k < |before.watches| && Splits(parse, before.watches[k], taken) && !before.state.closed
    ensures var after := Step(parse, before, act);
            Splits(parse, after.watches[k], taken + (if act.PublishItem? then [act.item] else []))
  {
    hide Hub, Publish, Close, Receive, Offer;
    assert taken + [] == taken;
    ReadFrame(before.watches[k]);
    if act.PublishItem? { SplitsSnoc(parse, before.watches[k], taken, before.capacity, act.item); }
  }

  /** A fresh watch starts at the present. */
  lemma {:induction false} AttachSplits(parse: A.Parser, before: World, taken: seq<LiveItem>, act: Act, k: nat)
    requires |before.watches| <= k < |Step(parse, before, act).watches| && before.state == Hub(parse, taken)
    ensures Splits(parse, Step(parse, before, act).watches[k], taken + (if act.PublishItem? then [act.item] else []))
  {
    hide Hub, Publish, Close, ReadOne, Told, Hangup;
    assert taken + [] == taken && taken[|taken|..] == [] && taken[..|taken|] == taken;
  }

  lemma {:induction false} SplitsSnoc(parse: A.Parser, w: Watch, taken: seq<LiveItem>, capacity: nat, item: LiveItem)
    requires Splits(parse, w, taken)
    ensures Splits(parse, Told(w, capacity, item), taken + [item])
  {
    hide Hub, Offer;
    var m := |taken| - |w.since|;
    assert (taken + [item])[..m] == taken[..m];
    assert (taken + [item])[m..] == taken[m..] + [item];
  }

  /** Attach anywhere and keep up: the picture is the hub's after every message if and
      only if every item since the attach is harmless where it occurs. */
  lemma {:induction false} AttachAnywhere(parse: A.Parser, capacity: nat, acts: seq<Act>, k: nat,
                       before: Client, clients: seq<Client>, msgs: seq<Msg>)
    requires k < |Run(parse, capacity, acts).watches| && !Run(parse, capacity, acts).state.closed
    requires Rising(Taken(parse, capacity, acts))
    requires Run(parse, capacity, acts).watches[k].line == Line([], true, true, false)
    requires Follows(clients, msgs)
    requires clients[0] == ApplySync(before, Handshake(Run(parse, capacity, acts).watches[k].base))
    requires Applied(Run(parse, capacity, acts).watches[k].base.lastSeq, msgs)
          == Items(Run(parse, capacity, acts).watches[k].read)
    ensures var taken, w := Taken(parse, capacity, acts), Run(parse, capacity, acts).watches[k];
            var m := |taken| - |w.since|;
            && 0 <= m
            && (Throughout(parse, taken, m, clients, msgs) <==> Sounds(parse, taken, m))
            && (Sounds(parse, taken, m) ==> Agree(Run(parse, capacity, acts).state, clients[|msgs|]))
  {
    hide *;
    var taken := Taken(parse, capacity, acts);
    var w := Run(parse, capacity, acts).watches[k];
    RunIsHub(parse, capacity, acts);
    WatchSplits(parse, capacity, acts, k);
    SplitParts(parse, w, taken);
    TailsExact(parse, capacity, acts, k);
    ReadWhole(w, capacity, Run(parse, capacity, acts).state.closed);
    var m := |taken| - |w.since|;
    AgreesThroughout(parse, taken, m, before, clients, msgs);
    if Sounds(parse, taken, m) { Converges(parse, taken, m, before, clients, msgs); }
  }

  lemma {:induction false} SplitParts(parse: A.Parser, w: Watch, taken: seq<LiveItem>)
    requires Splits(parse, w, taken)
    ensures var m := |taken| - |w.since|;
            0 <= m && taken[m..] == w.since && w.base == Hub(parse, taken[..m])
  {
    hide Hub;
  }

  /** A tail read to the end and never overrun has read everything. */
  lemma {:induction false} ReadWhole(w: Watch, capacity: nat, closed: bool)
    requires Exact(w, capacity, closed) && w.line == Line([], true, true, false)
    ensures Items(w.read) == w.since
  {
    hide Items, AsItems;
    assert Items(w.read) + [] == Items(w.read);
  }

  /** A harmful repeat: the hub drops a repeated terminal record, a client does not,
      and a request made in between stays open on one side only. */
  lemma {:induction false} RepeatDiverges(parse: A.Parser, call: ToolCall)
    ensures var e := Event("e", "t", "s", RunFinished(1), false, None, None, None, None, None, None);
            var items := [LiveItem(1, Recorded(e)), LiveItem(2, ApprovalRequested("r", 1, [call])), LiveItem(3, Recorded(e))];
            var c := ApplySync(Client(0, map[], []), Handshake(INITIAL));
            && |Hub(parse, items).pending| == 1
            && AllSized(c.queue) && AllSized(ApplyItem(c, items[0]).queue)
            && AllSized(ApplyItem(ApplyItem(c, items[0]), items[1]).queue)
            && ApplyItem(ApplyItem(ApplyItem(c, items[0]), items[1]), items[2]).queue == []
  {
    hide Transition, NewPending, Reseed, SlotMap, D.Open;
    var e := Event("e", "t", "s", RunFinished(1), false, None, None, None, None, None, None);
    var first, second, third := LiveItem(1, Recorded(e)), LiveItem(2, ApprovalRequested("r", 1, [call])), LiveItem(3, Recorded(e));
    HubSnoc(parse, [], first);
    HubSnoc(parse, [first], second);
    HubSnoc(parse, [first, second], third);
    assert [first] + [second] == [first, second] && [first, second] + [third] == [first, second, third] && [] + [first] == [first];
    Cleared(INITIAL, first, e);
    NothingSeeded();
  }

  lemma {:induction false} Cleared(s: State, item: LiveItem, e: Event)
    requires e.kind.RunFinished?
    ensures Transition(Positioned(s, item), e).pending == []
  {
  }

  lemma {:induction false} NothingSeeded()
    ensures Reseed([], []) == []
  {
  }
}
