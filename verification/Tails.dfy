/**
 What a subscriber sees: for every interleaving of publishes, reads, attaches,
 departures and the close, a gap-free prefix of what was published after its
 attach, and the lag marker exactly when that prefix was cut short.
 */
module Tails {
  import opened Prelude
  import opened Contract
  import opened Transport
  import opened Broadcasting
  import opened ApprovalLaws
  import A = Assembler

  /** One attachment: the state it was served from, everything published since,
      and what its tail has yielded. */
  datatype Watch = Watch(base: State, since: seq<LiveItem>, read: seq<Update>, line: Line, reported: bool)

  datatype World = World(state: State, capacity: nat, watches: seq<Watch>)

  datatype Act =
    | PublishItem(item: LiveItem)
    | CloseRun
    | AttachClient
    | ReadNext(watch: nat)
    | LeaveTail(watch: nat)

  function Told(w: Watch, capacity: nat, item: LiveItem): Watch {
    w.(since := w.since + [item], line := if w.line.connected then Offer(w.line, capacity, item) else w.line)
  }

  function Hangup(w: Watch): Watch {
    w.(line := w.line.(connected := false))
  }

  /** A read that would block is no step. */
  function ReadOne(w: Watch): Watch {
    if !w.line.receiving || (w.line.queue == [] && w.line.connected) then w
    else
      var (update, line, reported) := Receive(w.line, w.reported);
      w.(read := w.read + (if update.Some? then [update.value] else []), line := line, reported := reported)
  }

  function Step(parse: A.Parser, w: World, act: Act): World {
    match act
    case PublishItem(item) =>
      if w.state.closed then w
      else w.(state := Publish(parse, w.state, item),
              watches := seq(|w.watches|, k requires 0 <= k < |w.watches| => Told(w.watches[k], w.capacity, item)))
    case CloseRun =>
      w.(state := Close(w.state), watches := seq(|w.watches|, k requires 0 <= k < |w.watches| => Hangup(w.watches[k])))
    case AttachClient =>
      w.(watches := w.watches + [Watch(w.state, [], [], Line([], !w.state.closed, true, false), false)])
    case ReadNext(k) =>
      if k < |w.watches| then w.(watches := w.watches[k := ReadOne(w.watches[k])]) else w
    case LeaveTail(k) =>
      if k < |w.watches|
      then w.(watches := w.watches[k := w.watches[k].(line := w.watches[k].line.(receiving := false))])
      else w
  }

  function Run(parse: A.Parser, capacity: nat, acts: seq<Act>): World {
    if acts == [] then World(INITIAL, capacity, [])
    else Step(parse, Run(parse, capacity, acts[..|acts| - 1]), acts[|acts| - 1])
  }

  /** The publisher mints strictly increasing positions. */
  ghost predicate Ordered(parse: A.Parser, capacity: nat, acts: seq<Act>) {
    forall k :: 0 <= k < |acts| && acts[k].PublishItem? ==>
      acts[k].item.position > Run(parse, capacity, acts[..k]).state.lastSeq
  }

  /** The items among the updates. */
  function Items(updates: seq<Update>): seq<LiveItem> {
    if updates == [] then []
    else Items(updates[..|updates| - 1]) +
         (if updates[|updates| - 1].Item? then [updates[|updates| - 1].item] else [])
  }

  /** What the subscriber has, read or waiting. */
  function Got(w: Watch): seq<LiveItem> {
    Items(w.read) + w.line.queue
  }

  function AsItems(items: seq<LiveItem>): (r: seq<Update>)
    ensures |r| == |items|
  {
    seq(|items|, k requires 0 <= k < |items| => Item(items[k]))
  }

  /** The tail's whole promise. */
  ghost predicate Exact(w: Watch, capacity: nat, closed: bool) {
    && Got(w) <= w.since
    && (w.line.receiving && !w.line.lagged && !closed ==> w.line.connected)
    && (w.line.receiving && !w.line.lagged ==> Got(w) == w.since)
    && (w.line.lagged ==> |Got(w)| < |w.since| && |Got(w)| >= capacity && !w.line.connected)
    && w.read == AsItems(Items(w.read)) + (if w.reported then [Lagged] else [])
    && (w.reported ==> w.line.lagged && w.line.queue == [])
    && (w.line.connected ==> Got(w) == w.since)
  }

  predicate Above(items: seq<LiveItem>, floor: nat) {
    && (forall k :: 0 <= k < |items| ==> items[k].position > floor)
    && (forall j, k :: 0 <= j < k < |items| ==> items[j].position < items[k].position)
  }

  /** Everything published since the attach lies above its baseline, in order,
      and folds the baseline into the hub's present state. */
  ghost predicate Current(parse: A.Parser, w: Watch, state: State) {
    && w.base.lastSeq <= state.lastSeq
    && Above(w.since, w.base.lastSeq)
    && (forall k :: 0 <= k < |w.since| ==> w.since[k].position <= state.lastSeq)
    && (state.closed ==> !w.line.connected)
    && (!state.closed ==> TrackAll(parse, w.base, w.since) == state)
  }

  lemma {:induction false} ItemsSnoc(updates: seq<Update>, u: Update)
    ensures Items(updates + [u]) == Items(updates) + (if u.Item? then [u.item] else [])
  {
    assert (updates + [u])[..|updates|] == updates;
  }

  lemma {:induction false} ToldExact(w: Watch, capacity: nat, item: LiveItem)
    requires Exact(w, capacity, false)
    ensures Exact(Told(w, capacity, item), capacity, false)
  {
    hide Items, AsItems;
    var t := Told(w, capacity, item);
    assert t.read == w.read && t.since[..|w.since|] == w.since;
    if w.line.connected && w.line.receiving && |w.line.queue| < capacity {
      ConcatAssoc(Items(w.read), w.line.queue, [item]);
    }
  }

  lemma {:induction false} ReadExact(w: Watch, capacity: nat, closed: bool)
    requires Exact(w, capacity, closed)
    ensures Exact(ReadOne(w), capacity, closed)
  {
    hide Items, AsItems;
    if w.line.receiving && !(w.line.queue == [] && w.line.connected) {
      var next := ReadOne(w);
      if w.line.queue != [] {
        ItemsSnoc(w.read, Item(w.line.queue[0]));
        ReadShifts(w.read, w.line.queue);
        assert Got(next) == Got(w);
      } else if !w.reported && w.line.lagged {
        ItemsSnoc(w.read, Lagged);
        assert w.read + [] == w.read && Items(w.read) + [] == Items(w.read);
      } else {
        assert w.read + [] == w.read;
      }
    }
  }

  lemma {:induction false} ReadShifts(read: seq<Update>, queue: seq<LiveItem>)
    requires queue != [] && read == AsItems(Items(read))
    ensures var more := Items(read) + [queue[0]];
            more + queue[1..] == Items(read) + queue && read + [Item(queue[0])] == AsItems(more)
  {
  }

  /** The whole promise, over every run. */
  lemma {:induction false} TailsExact(parse: A.Parser, capacity: nat, acts: seq<Act>, k: nat)
    requires k < |Run(parse, capacity, acts).watches|
    ensures Exact(Run(parse, capacity, acts).watches[k], capacity, Run(parse, capacity, acts).state.closed)
    decreases |acts|
  {
    hide Exact, Step;
    if acts != [] {
      var init := acts[..|acts| - 1];
      var before := Run(parse, capacity, init);
      RunCapacity(parse, capacity, init);
      if k < |before.watches| {
        TailsExact(parse, capacity, init, k);
        ToldKept(parse, before, k, acts[|acts| - 1]);
      } else {
        FreshTail(parse, before, k, acts[|acts| - 1]);
      }
    }
  }

  lemma {:induction false} FreshTail(parse: A.Parser, before: World, k: nat, act: Act)
    requires |before.watches| <= k < |Step(parse, before, act).watches|
    ensures var after := Step(parse, before, act); Exact(after.watches[k], before.capacity, after.state.closed)
  {
    hide Exact, ReadOne, Told, Hangup, Retire, Track;
    FreshExact(before.state, before.capacity);
  }

  lemma {:induction false} RunCapacity(parse: A.Parser, capacity: nat, acts: seq<Act>)
    ensures Run(parse, capacity, acts).capacity == capacity
    decreases |acts|
  {
    if acts != [] { RunCapacity(parse, capacity, acts[..|acts| - 1]); }
  }

  lemma {:induction false} FreshExact(s: State, capacity: nat)
    ensures Exact(Watch(s, [], [], Line([], !s.closed, true, false), false), capacity, s.closed)
  {
  }

  /** One act on one watch. */
  lemma {:induction false} ToldKept(parse: A.Parser, before: World, k: nat, act: Act)
    requires k < |before.watches| && Exact(before.watches[k], before.capacity, before.state.closed)
    ensures var after := Step(parse, before, act);
            k < |after.watches| && Exact(after.watches[k], before.capacity, after.state.closed)
  {
    hide Items, AsItems, ReadOne, Told, Track, Retire;
    var w := before.watches[k];
    ReadExact(w, before.capacity, before.state.closed);
    if act.PublishItem? && !before.state.closed {
      ToldExact(w, before.capacity, act.item);
      TrackPosition(parse, before.state, act.item);
    }
  }

  lemma {:induction false} ReadFrame(w: Watch)
    ensures ReadOne(w).since == w.since && ReadOne(w).base == w.base && ReadOne(w).line.connected == w.line.connected
  {
  }

  /** Everything published since an attach lies above its `as_of` position, and
      brings its baseline to the hub's present. */
  lemma {:induction false} TailsCurrent(parse: A.Parser, capacity: nat, acts: seq<Act>, k: nat)
    requires Ordered(parse, capacity, acts) && k < |Run(parse, capacity, acts).watches|
    ensures Current(parse, Run(parse, capacity, acts).watches[k], Run(parse, capacity, acts).state)
    decreases |acts|
  {
    hide Offer, Track, Close, Exact;
    if acts != [] {
      var init, act := acts[..|acts| - 1], acts[|acts| - 1];
      var before := Run(parse, capacity, init);
      assert Ordered(parse, capacity, init) by {
        forall j | 0 <= j < |init| && init[j].PublishItem?
          ensures init[j].item.position > Run(parse, capacity, init[..j]).state.lastSeq
        {
          assert acts[..j] == init[..j] && acts[j] == init[j];
        }
      }
      if k < |before.watches| {
        TailsCurrent(parse, capacity, init, k);
        RunCapacity(parse, capacity, init);
        ActKeepsCurrent(parse, before, k, act);
      }
    }
  }

  lemma {:induction false} ActKeepsCurrent(parse: A.Parser, before: World, k: nat, act: Act)
    requires k < |before.watches| && Current(parse, before.watches[k], before.state)
    requires act.PublishItem? ==> act.item.position > before.state.lastSeq
    ensures Current(parse, Step(parse, before, act).watches[k], Step(parse, before, act).state)
  {
    hide Offer, Track, Close, ReadOne, Above, TrackAll;
    var w := before.watches[k];
    ReadFrame(w);
    CloseKeeps(before.state);
    if act.PublishItem? && !before.state.closed {
      PublishCurrent(parse, w, before.state, before.capacity, act.item);
    }
  }

  lemma {:induction false} CloseKeeps(s: State)
    ensures Close(s).lastSeq == s.lastSeq && Close(s).closed
  {
  }

  lemma {:induction false} PublishCurrent(parse: A.Parser, w: Watch, s: State, capacity: nat, item: LiveItem)
    requires Current(parse, w, s) && !s.closed && item.position > s.lastSeq
    ensures Current(parse, Told(w, capacity, item), Publish(parse, s, item))
  {
    hide Offer, Track;
    TrackPosition(parse, s, item);
    assert (w.since + [item])[..|w.since|] == w.since;
  }

  /** A subscriber that kept up, item for item, holds everything the hub holds. */
  lemma {:induction false} CaughtUp(parse: A.Parser, capacity: nat, acts: seq<Act>, k: nat)
    requires Ordered(parse, capacity, acts) && k < |Run(parse, capacity, acts).watches|
    requires !Run(parse, capacity, acts).state.closed
    requires Run(parse, capacity, acts).watches[k].line == Line([], true, true, false)
    ensures var w := Run(parse, capacity, acts).watches[k];
            && TrackAll(parse, w.base, Items(w.read)) == Run(parse, capacity, acts).state
            && w.read == AsItems(Items(w.read))
            && Above(Items(w.read), w.base.lastSeq)
  {
    hide Run, TrackAll, AsItems, Above;
    TailsExact(parse, capacity, acts, k);
    TailsCurrent(parse, capacity, acts, k);
    var w := Run(parse, capacity, acts).watches[k];
    assert Items(w.read) + [] == Items(w.read) && AsItems(Items(w.read)) + [] == AsItems(Items(w.read));
  }

  /** A reader that lagged is told so: draining its queue yields the marker once,
      and nothing after it. */
  lemma {:induction false} LagIsReported(w: Watch, capacity: nat, closed: bool)
    requires Exact(w, capacity, closed) && w.line.receiving && w.line.lagged && w.line.queue == []
    ensures !w.reported ==> ReadOne(w).read == w.read + [Lagged] && ReadOne(w).reported
    ensures w.reported ==> ReadOne(w) == w && w.read != [] && w.read[|w.read| - 1] == Lagged
  {
    assert w.read + [] == w.read;
  }
}
