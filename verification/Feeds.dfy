/**
 Attach anywhere: from whatever point a client attaches, and whatever the stream
 repeats, exactly when its open approvals stay the hub's.
 */
module Feeds {
  import opened Prelude
  import opened Contract
  import opened Transport
  import opened ApprovalLaws
  import opened Dialogs
  import opened Clients
  import opened Convergence
  import A = Assembler
  import T = Trajectory

  /** What reaches a client after a baseline: live items and its own keys. */
  datatype Msg = Live(item: LiveItem) | TabKey(backwards: bool) | AnswerKey

  function Handle(c: Client, m: Msg): (d: Client)
    requires AllSized(c.queue)
  {
    match m
    case Live(item) => ApplyItem(c, item)
    case TabKey(backwards) => ApplyFocus(c, backwards)
    case AnswerKey => ApplyAnswer(c).0
  }

  /** Folding a feed, as a relation: `clients[i]` is the client before message `i`. */
  ghost predicate Follows(clients: seq<Client>, msgs: seq<Msg>) {
    && |clients| == |msgs| + 1
    && forall i :: 0 <= i < |msgs| ==> AllSized(clients[i].queue) && clients[i + 1] == Handle(clients[i], msgs[i])
  }

  /** The items a feed gets applied: those beyond the last position applied. */
  function Applied(asOf: nat, msgs: seq<Msg>): seq<LiveItem> {
    if msgs == [] then []
    else
      var before := Applied(asOf, msgs[..|msgs| - 1]);
      var last := msgs[|msgs| - 1];
      if last.Live? && last.item.position > LastPosition(asOf, before) then before + [last.item] else before
  }

  function LastPosition(asOf: nat, items: seq<LiveItem>): nat {
    if items == [] then asOf else items[|items| - 1].position
  }

  /** Positions rise from one; nothing is said of event or request ids. */
  predicate Rising(items: seq<LiveItem>) {
    && (forall k :: 0 <= k < |items| ==> items[k].position > 0)
    && (forall j, k :: 0 <= j < k < |items| ==> items[j].position < items[k].position)
  }

  /** From the `m`-th on, every item is harmless where it occurs. */
  predicate Sounds(parse: A.Parser, items: seq<LiveItem>, m: nat) {
    forall j :: m <= j < |items| ==> Sound(Hub(parse, items[..j]), items[j])
  }

  lemma {:induction false} HubPosition(parse: A.Parser, items: seq<LiveItem>)
    requires Rising(items)
    ensures Hub(parse, items).lastSeq == LastPosition(0, items)
    decreases |items|
  {
    hide Track;
    if items != [] {
      var init, x := items[..|items| - 1], items[|items| - 1];
      HubPosition(parse, init);
      HubSnoc(parse, init, x);
      assert items == init + [x];
      TrackPosition(parse, Hub(parse, init), x);
    }
  }

  /** Every batch the hub holds is live, for every stream. */
  lemma {:induction false} HubLive(parse: A.Parser, items: seq<LiveItem>)
    ensures PendingLive(Hub(parse, items).pending)
    decreases |items|
  {
    hide PendingLive, Track;
    if items == [] {
      NothingLive();
    } else {
      var init := items[..|items| - 1];
      HubLive(parse, init);
      HubSnoc(parse, init, items[|items| - 1]);
      assert items == init + [items[|items| - 1]];
      TrackLive(parse, Hub(parse, init), items[|items| - 1]);
    }
  }

  lemma {:induction false} NothingLive()
    ensures PendingLive([])
  {
  }

  /** A client's own keys change no decision. */
  lemma {:induction false} KeysAgree(s: State, c: Client, m: Msg)
    requires Agree(s, c) && AllSized(c.queue) && !m.Live?
    ensures Agree(s, Handle(c, m))
  {
    hide SlotMap, Convergence.Shown, Moved, Focused;
    if c.queue != [] {
      var a := c.queue[0];
      FocusedSized(a);
      if m.TabKey? {
        MoveFocused(a, m.backwards);
        MoveMarks(a, m.backwards);
      } else {
        SubmitFocused(a);
        SubmitMarks(a);
      }
      ViewUpdate(c.queue, 0, Handle(c, m).queue[0]);
    }
  }

  lemma {:induction false} Stale(c: Client, item: LiveItem)
    requires AllSized(c.queue) && item.position <= c.asOf
    ensures ApplyItem(c, item) == c
  {
  }

  lemma {:induction false} PositionAfter(parse: A.Parser, items: seq<LiveItem>, m: nat, done: seq<LiveItem>)
    requires Rising(items) && m + |done| <= |items| && done == items[m..m + |done|]
    ensures LastPosition(Hub(parse, items[..m]).lastSeq, done) == Hub(parse, items[..m + |done|]).lastSeq
  {
    hide Hub;
    HubPosition(parse, items[..m + |done|]);
    HubPosition(parse, items[..m]);
  }

  /** The hub as it was when the client had handled `n` messages, and the client then. */
  ghost predicate AgreedAt(parse: A.Parser, items: seq<LiveItem>, m: nat, clients: seq<Client>, msgs: seq<Msg>, n: nat)
    requires m <= |items| && n <= |msgs| && n < |clients|
  {
    var done := |Applied(Hub(parse, items[..m]).lastSeq, msgs[..n])|;
    m + done <= |items| && Agree(Hub(parse, items[..m + done]), clients[n])
  }

  /** They agree after every message handled. */
  ghost predicate Throughout(parse: A.Parser, items: seq<LiveItem>, m: nat, clients: seq<Client>, msgs: seq<Msg>)
    requires m <= |items| && |clients| == |msgs| + 1
  {
    forall n :: 0 <= n <= |msgs| ==> AgreedAt(parse, items, m, clients, msgs, n)
  }

  /** Attach anywhere: whatever the client held before, take a baseline after `m` items
      of any stream and any feed that applies the items since, with stale repeats and
      keys mixed in. Client and hub agree after every message if and only if every
      item since the attach is harmless where it occurs. */
  lemma {:induction false} AgreesThroughout(parse: A.Parser, items: seq<LiveItem>, m: nat, before: Client,
                                            clients: seq<Client>, msgs: seq<Msg>)
    requires Rising(items) && m <= |items|
    requires Follows(clients, msgs) && clients[0] == ApplySync(before, Handshake(Hub(parse, items[..m])))
    requires Applied(Hub(parse, items[..m]).lastSeq, msgs) == items[m..]
    ensures Throughout(parse, items, m, clients, msgs) <==> Sounds(parse, items, m)
    decreases |msgs|
  {
    hide Hub, Agree, Handle, ApplySync, Handshake, Sound, AgreedAt;
    if msgs == [] {
      assert items[..m] == items && items[m..] == [];
      AgreedAtFirst(parse, items, m, before, clients, msgs);
    } else {
      var n := |msgs| - 1;
      var init, last := msgs[..n], msgs[n];
      var done := Applied(Hub(parse, items[..m]).lastSeq, init);
      var earlier := items[..m + |done|];
      assert Follows(clients[..n + 1], init);
      assert earlier[..m] == items[..m] && done == earlier[m..];
      AgreesThroughout(parse, earlier, m, before, clients[..n + 1], init);
      EarlierAgreed(parse, items, m, clients, msgs, earlier);
      EarlierSounds(parse, items, m, |earlier|);
      if AgreedAt(parse, items, m, clients, msgs, n) { LastAgreed(parse, items, m, clients, msgs); }
    }
  }

  lemma {:induction false} AgreedAtFirst(parse: A.Parser, items: seq<LiveItem>, m: nat, before: Client, clients: seq<Client>, msgs: seq<Msg>)
    requires m <= |items| && |clients| == |msgs| + 1
    requires clients[0] == ApplySync(before, Handshake(Hub(parse, items[..m])))
    ensures AgreedAt(parse, items, m, clients, msgs, 0)
  {
    hide Hub, Agree, ApplySync, Handshake;
    HubLive(parse, items[..m]);
    SyncAgrees(Hub(parse, items[..m]), before);
  }

  /** What was agreed before the last message does not depend on it. */
  lemma {:induction false} EarlierAgreed(parse: A.Parser, items: seq<LiveItem>, m: nat, clients: seq<Client>, msgs: seq<Msg>,
                                         earlier: seq<LiveItem>)
    requires m <= |items| && |clients| == |msgs| + 1 && msgs != []
    requires m <= |earlier| <= |items| && earlier == items[..|earlier|]
    requires |earlier| == m + |Applied(Hub(parse, items[..m]).lastSeq, msgs[..|msgs| - 1])|
    ensures Throughout(parse, earlier, m, clients[..|msgs|], msgs[..|msgs| - 1])
       <==> forall n :: 0 <= n < |msgs| ==> AgreedAt(parse, items, m, clients, msgs, n)
  {
    hide Hub, Agree, Applied;
    var k := |msgs| - 1;
    assert earlier[..m] == items[..m];
    forall n | 0 <= n <= k
      ensures AgreedAt(parse, earlier, m, clients[..|msgs|], msgs[..k], n) <==> AgreedAt(parse, items, m, clients, msgs, n)
    {
      var base := Hub(parse, items[..m]).lastSeq;
      assert msgs[..k][..n] == msgs[..n];
      AppliedGrows(base, msgs[..k], n);
      var done := |Applied(base, msgs[..n])|;
      assert earlier[..m + done] == items[..m + done];
    }
  }

  lemma {:induction false} AppliedGrows(asOf: nat, msgs: seq<Msg>, n: nat)
    requires n <= |msgs|
    ensures |Applied(asOf, msgs[..n])| <= |Applied(asOf, msgs)|
    decreases |msgs|
  {
    if n == |msgs| {
      assert msgs[..n] == msgs;
    } else {
      assert msgs[..|msgs| - 1][..n] == msgs[..n];
      AppliedGrows(asOf, msgs[..|msgs| - 1], n);
    }
  }

  lemma {:induction false} EarlierSounds(parse: A.Parser, items: seq<LiveItem>, m: nat, d: nat)
    requires m <= d <= |items|
    ensures Sounds(parse, items[..d], m) <==> forall j :: m <= j < d ==> Sound(Hub(parse, items[..j]), items[j])
  {
    hide Hub, Sound;
    var earlier := items[..d];
    forall j | m <= j < d ensures Sound(Hub(parse, earlier[..j]), earlier[j]) <==> Sound(Hub(parse, items[..j]), items[j]) {
      assert earlier[..j] == items[..j];
    }
  }

  lemma {:induction false} LastApplied(base: nat, since: seq<LiveItem>, msgs: seq<Msg>)
    requires msgs != [] && Applied(base, msgs) == since
    ensures var done, last := Applied(base, msgs[..|msgs| - 1]), msgs[|msgs| - 1];
            && |done| <= |since| <= |done| + 1 && done == since[..|done|]
            && (|since| > |done| <==> last.Live? && last.item.position > LastPosition(base, done))
            && (|since| > |done| ==> last == Live(since[|done|]))
  {
  }

  /** The last message either applies the next item or changes no decision. */
  lemma {:induction false} LastAgreed(parse: A.Parser, items: seq<LiveItem>, m: nat, clients: seq<Client>, msgs: seq<Msg>)
    requires Rising(items) && m <= |items| && Follows(clients, msgs) && msgs != []
    requires Applied(Hub(parse, items[..m]).lastSeq, msgs) == items[m..]
    requires AgreedAt(parse, items, m, clients, msgs, |msgs| - 1)
    ensures var d := m + |Applied(Hub(parse, items[..m]).lastSeq, msgs[..|msgs| - 1])|;
            && d <= |items| <= d + 1
            && (AgreedAt(parse, items, m, clients, msgs, |msgs|)
                <==> forall j :: d <= j < |items| ==> Sound(Hub(parse, items[..j]), items[j]))
  {
    hide Hub, Agree, Handle, Sound, Rising;
    var n := |msgs| - 1;
    var base := Hub(parse, items[..m]).lastSeq;
    var done := Applied(base, msgs[..n]);
    var d := m + |done|;
    LastApplied(base, items[m..], msgs);
    assert items[m..][..|done|] == items[m..d];
    hide Applied;
    PositionAfter(parse, items, m, done);
    assert msgs[..|msgs|] == msgs && items[..m + |items[m..]|] == items;
    hide LastPosition;
    assert clients[n + 1] == Handle(clients[n], msgs[n]) && AllSized(clients[n].queue);
    hide Follows;
    LastStep(parse, items, d, clients[n], msgs[n]);
  }

  lemma {:induction false} LastStep(parse: A.Parser, items: seq<LiveItem>, d: nat, c: Client, last: Msg)
    requires d <= |items| <= d + 1 && Agree(Hub(parse, items[..d]), c) && AllSized(c.queue)
    requires |items| > d <==> last.Live? && last.item.position > Hub(parse, items[..d]).lastSeq
    requires |items| > d ==> last == Live(items[d])
    ensures Agree(Hub(parse, items), Handle(c, last))
       <==> forall j :: d <= j < |items| ==> Sound(Hub(parse, items[..j]), items[j])
  {
    hide Hub, Agree, Handle, Sound;
    if |items| > d {
      ItemStep(parse, items, d, c, last);
    } else {
      assert items[..d] == items;
      QuietStep(Hub(parse, items), c, last);
    }
  }

  lemma {:induction false} ItemStep(parse: A.Parser, items: seq<LiveItem>, d: nat, c: Client, m: Msg)
    requires d + 1 == |items| && m == Live(items[d]) && AllSized(c.queue)
    requires Agree(Hub(parse, items[..d]), c) && items[d].position > Hub(parse, items[..d]).lastSeq
    ensures Agree(Hub(parse, items), Handle(c, m)) <==> Sound(Hub(parse, items[..d]), items[d])
  {
    hide Hub, Agree, ApplyItem, Sound, Track, PendingLive;
    HubLive(parse, items[..d]);
    HubSnoc(parse, items[..d], items[d]);
    assert items[..d] + [items[d]] == items;
    ItemExact(parse, Hub(parse, items[..d]), c, items[d]);
  }

  lemma {:induction false} QuietStep(s: State, c: Client, m: Msg)
    requires Agree(s, c) && AllSized(c.queue) && (m.Live? ==> m.item.position <= s.lastSeq)
    ensures Agree(s, Handle(c, m))
  {
    hide SlotMap, Convergence.Shown, View, AllFocused, ApplyFocus, ApplyAnswer;
    if m.Live? { Stale(c, m.item); } else { KeysAgree(s, c, m); }
  }

  /** So a feed of harmless items ends with the hub's open approvals. */
  lemma {:induction false} Converges(parse: A.Parser, items: seq<LiveItem>, m: nat, before: Client,
                                     clients: seq<Client>, msgs: seq<Msg>)
    requires Rising(items) && m <= |items| && Sounds(parse, items, m)
    requires Follows(clients, msgs) && clients[0] == ApplySync(before, Handshake(Hub(parse, items[..m])))
    requires Applied(Hub(parse, items[..m]).lastSeq, msgs) == items[m..]
    ensures Agree(Hub(parse, items), clients[|msgs|])
  {
    hide Hub, Agree, Handshake, ApplySync, Handle, Sounds, Rising, Applied;
    AgreesThroughout(parse, items, m, before, clients, msgs);
    assert AgreedAt(parse, items, m, clients, msgs, |msgs|);
    assert msgs[..|msgs|] == msgs && items[..|items|] == items;
  }

  // --------------------------------------------------- which streams are harmless

  /** Item `j` repeats an event id published before it. */
  predicate Repeats(items: seq<LiveItem>, j: nat)
    requires j < |items|
  {
    items[j].kind.Recorded? && items[j].kind.event.id in T.Ids(Log(items[..j]))
  }

  /** When no request takes the id of an open one, a stream is harmless if and only if
      each repeated event finds nothing left to do among the requests then open. */
  lemma {:induction false} HarmlessRepeats(parse: A.Parser, items: seq<LiveItem>, m: nat)
    requires Unclashed(items)
    ensures Sounds(parse, items, m) <==>
              forall j :: m <= j < |items| && Repeats(items, j) ==> Harmless(OpenRequests(items[..j], j), items[j].kind.event)
  {
    hide Hub, OpenRequests, Log, T.Ids, Benign, Harmless, PendingOk, Unclashed;
    forall j | m <= j < |items|
      ensures Sound(Hub(parse, items[..j]), items[j]) <==>
                (Repeats(items, j) ==> Harmless(OpenRequests(items[..j], j), items[j].kind.event))
    {
      var init := items[..j];
      UnclashedPrefix(items, j);
      PendingShowsFirstAnswers(parse, init);
      HubLog(parse, init);
      if items[j].kind.Recorded? {
        FirstIsBenign(Hub(parse, init).pending, items[j].kind.event);
        RepeatIsBenign(Hub(parse, init).pending, items[j].kind.event);
      }
    }
  }

  predicate DistinctEvents(items: seq<LiveItem>) {
    forall j, k :: 0 <= j < k < |items| && items[j].kind.Recorded? && items[k].kind.Recorded? ==>
      items[j].kind.event.id != items[k].kind.event.id
  }

  lemma {:induction false} SeenFrom(items: seq<LiveItem>, id: string)
    requires id in T.Ids(Log(items))
    ensures exists j :: 0 <= j < |items| && items[j].kind.Recorded? && items[j].kind.event.id == id
    decreases |items|
  {
    hide T.Ids;
    if items == [] {
      T.EmptyLog();
    } else {
      var init, x := items[..|items| - 1], items[|items| - 1];
      if x.kind.Recorded? { T.IdsSnoc(Log(init), x.kind.event); }
      if id in T.Ids(Log(init)) {
        SeenFrom(init, id);
        var j :| 0 <= j < |init| && init[j].kind.Recorded? && init[j].kind.event.id == id;
        assert items[j].kind.event.id == id;
      } else {
        assert items[|items| - 1].kind.event.id == id;
      }
    }
  }

  /** Distinct event ids, and no request under the id of an open one, are enough. */
  lemma {:induction false} DistinctIsHarmless(parse: A.Parser, items: seq<LiveItem>, m: nat)
    requires Unclashed(items) && DistinctEvents(items)
    ensures Sounds(parse, items, m)
  {
    hide Log, T.Ids, Sounds, Unclashed, Harmless, OpenRequests;
    HarmlessRepeats(parse, items, m);
    forall j | m <= j < |items| ensures !Repeats(items, j) {
      if Repeats(items, j) { SeenFrom(items[..j], items[j].kind.event.id); }
    }
  }
}
