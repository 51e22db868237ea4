/**
 A dialog fed by the hub: its baselines are the hub's own, its recorded decisions
 are events of the stream; so nothing decided is ever submitted.
 */
module DialogFeeds {
  import opened Prelude
  import opened Contract
  import opened Transport
  import opened ApprovalLaws
  import opened Dialogs
  import A = Assembler

  /** After `n` items the request at `p` is open and the hub shows it with these calls
      and decisions. */
  ghost predicate Presented(parse: A.Parser, items: seq<LiveItem>, p: nat, n: nat, r: Pending)
    requires p < n <= |items| && items[p].kind.ApprovalRequested?
  {
    OpenAt(items[..n], p) &&
    exists q :: q in Hub(parse, items[..n]).pending && q.requestId == items[p].kind.requestId
                && r.calls == q.calls && r.decisions == q.decisions
  }

  /** The `n`-th item is a counting answer for slot `i` of the request at `p`. */
  predicate Answers(items: seq<LiveItem>, p: nat, n: nat, i: nat)
    requires p < n <= |items| && items[p].kind.ApprovalRequested?
  {
    && p < n - 1 && Effective(items[..n - 1], items[n - 1])
    && var e := items[n - 1].kind.event;
       e.kind.Issued? && e.kind.command.ResolveApprovalCall?
       && e.kind.command.requestId == items[p].kind.requestId && e.kind.command.callIndex == i
  }

  /** A dialog on the request at `p`: opened after `first` items, and `at[k]` items
      taken when its move `k` happens. */
  ghost predicate FromHub(parse: A.Parser, items: seq<LiveItem>, p: nat, request: Pending, first: nat, moves: seq<Move>, at: seq<nat>) {
    && p < first <= |items| && items[p].kind.ApprovalRequested? && |at| == |moves|
    && Presented(parse, items, p, first, request)
    && (forall k :: 0 <= k < |at| ==> first <= at[k] <= |items|)
    && (forall j, k :: 0 <= j < k < |at| ==> at[j] <= at[k])
    && (forall k :: 0 <= k < |moves| && moves[k].Baseline? ==> Presented(parse, items, p, at[k], moves[k].request))
    && (forall k :: 0 <= k < |moves| && moves[k].Record? ==> Answers(items, p, at[k], moves[k].index))
  }

  /** Everything these slots show as decided has its answer among the first `n` items. */
  ghost predicate Known(items: seq<LiveItem>, p: nat, n: nat, decisions: seq<Option<Approval>>)
    requires p < n <= |items| && items[p].kind.ApprovalRequested?
  {
    forall i :: 0 <= i < |decisions| && decisions[i].Some? ==>
      FirstAnswer(After(items[..n], p), items[p].kind.requestId, i).Some?
  }

  lemma {:induction false} PrefixAnswer(events: seq<Event>, more: seq<Event>, id: string, i: nat)
    requires FirstAnswer(events, id, i).Some?
    ensures FirstAnswer(events + more, id, i) == FirstAnswer(events, id, i)
    decreases |more|
  {
    if more == [] {
      assert events + more == events;
    } else {
      var init, e := more[..|more| - 1], more[|more| - 1];
      PrefixAnswer(events, init, id, i);
      assert events + more == (events + init) + [e];
      FirstAnswerSnoc(events + init, e, id, i);
    }
  }

  /** An answer once first stays first. */
  lemma {:induction false} AnswerStays(items: seq<LiveItem>, p: nat, m: nat, n: nat, i: nat)
    requires p < m <= n <= |items| && items[p].kind.ApprovalRequested?
    requires FirstAnswer(After(items[..m], p), items[p].kind.requestId, i).Some?
    ensures FirstAnswer(After(items[..n], p), items[p].kind.requestId, i)
         == FirstAnswer(After(items[..m], p), items[p].kind.requestId, i)
  {
    hide Log, FirstAnswer;
    assert items[..n][..m] == items[..m] && items[..m][..p + 1] == items[..n][..p + 1];
    LogGrows(items[..n], m);
    LogGrows(items[..m], p + 1);
    var k := |Log(items[..p + 1])|;
    assert items[..m][..p + 1] == items[..p + 1];
    var more := Log(items[..n])[|Log(items[..m])|..];
    assert Log(items[..n]) == Log(items[..m]) + more;
    assert After(items[..n], p) == After(items[..m], p) + more;
    PrefixAnswer(After(items[..m], p), more, items[p].kind.requestId, i);
  }

  /** What the hub presents is the request's calls with their first answers. */
  lemma {:induction false} PresentedIs(parse: A.Parser, items: seq<LiveItem>, p: nat, n: nat, r: Pending)
    requires Unclashed(items) && p < n <= |items| && items[p].kind.ApprovalRequested?
    requires Presented(parse, items, p, n, r)
    ensures r.calls == items[p].kind.calls
    ensures r.decisions == FirstAnswers(After(items[..n], p), items[p].kind.requestId, |items[p].kind.calls|)
  {
    hide Hub, Log, OpenRequests, OpenAt, FirstAnswers, After;
    var init := items[..n];
    assert init[p] == items[p];
    UnclashedPrefix(items, n);
    PendingShowsFirstAnswers(parse, init);
    var open := OpenRequests(init, n);
    var j := OpenListed(init, n, p);
    var q :| q in open && q.requestId == items[p].kind.requestId && r.calls == q.calls && r.decisions == q.decisions;
    var k :| 0 <= k < |open| && open[k] == q;
    assert open[j].requestId == open[k].requestId;
  }

  /** With ids of their own, a request whose id the hub shows is open. */
  lemma {:induction false} ShownIsOpen(parse: A.Parser, items: seq<LiveItem>, p: nat, n: nat)
    requires DistinctRequests(items) && p < n <= |items| && items[p].kind.ApprovalRequested?
    requires !NoneNamed(Hub(parse, items[..n]).pending, items[p].kind.requestId)
    ensures OpenAt(items[..n], p)
  {
    hide Hub, Log, OpenRequests, Ended, FirstAnswers, After;
    var init := items[..n];
    DistinctUnclashed(init);
    PendingShowsFirstAnswers(parse, init);
    OpenFromRequests(init, n);
    var k :| 0 <= k < |OpenRequests(init, n)| && OpenRequests(init, n)[k].requestId == items[p].kind.requestId;
    assert Shown(init, n, OpenRequests(init, n)[k]);
    var s :| 0 <= s < n && Shows(init, s, OpenRequests(init, n)[k]);
    assert init[s] == items[s] && s == p;
  }

  lemma {:induction false} KnownStays(items: seq<LiveItem>, p: nat, m: nat, n: nat, decisions: seq<Option<Approval>>)
    requires p < m <= n <= |items| && items[p].kind.ApprovalRequested? && Known(items, p, m, decisions)
    ensures Known(items, p, n, decisions)
  {
    hide FirstAnswer, After;
    forall i | 0 <= i < |decisions| && decisions[i].Some?
      ensures FirstAnswer(After(items[..n], p), items[p].kind.requestId, i).Some?
    {
      AnswerStays(items, p, m, n, i);
    }
  }

  lemma {:induction false} AnswersKnown(items: seq<LiveItem>, p: nat, n: nat, i: nat)
    requires p < n <= |items| && items[p].kind.ApprovalRequested? && Answers(items, p, n, i)
    ensures FirstAnswer(After(items[..n], p), items[p].kind.requestId, i).Some?
  {
    hide FirstAnswer, Log;
    var init, x := items[..n - 1], items[n - 1];
    assert items[..n] == init + [x];
    AfterSnoc(init, x, p);
    FirstAnswerSnoc(After(init, p), x.kind.event, items[p].kind.requestId, i);
  }

  /** When the last move happens, `first` before any. */
  function Moment(first: nat, at: seq<nat>): nat {
    if at == [] then first else at[|at| - 1]
  }

  /** The dialog never shows a decision its stream does not hold, and every baseline
      keeps what the dialog shows. */
  lemma {:induction false} HubKeepsDecisions(parse: A.Parser, items: seq<LiveItem>, p: nat, request: Pending, first: nat,
                                             moves: seq<Move>, at: seq<nat>)
    requires Unclashed(items) && FromHub(parse, items, p, request, first, moves, at)
    ensures SameRequest(request, moves) && Extends(request, moves)
    ensures |PlayAll(request, moves).ask.request.decisions| == |items[p].kind.calls| == |request.calls|
    ensures p < Moment(first, at) <= |items| && Known(items, p, Moment(first, at), PlayAll(request, moves).ask.request.decisions)
    decreases |moves|
  {
    hide Presented, Answers, Known, Play, Open, FirstAnswer, FirstAnswers, After, Keeps, FromHub, SameRequest, Extends, PlayAll,
         Unclashed;
    FromHubOpens(parse, items, p, request, first, moves, at);
    PresentedIs(parse, items, p, first, request);
    if moves == [] {
      NothingPlayed(request);
      OpenedKnown(items, p, first, request);
    } else {
      var n := |moves| - 1;
      var init, m, s := moves[..n], moves[n], PlayAll(request, moves[..n]);
      FromHubLast(parse, items, p, request, first, moves, at);
      HubKeepsDecisions(parse, items, p, request, first, init, at[..n]);
      KnownStays(items, p, Moment(first, at[..n]), at[n], s.ask.request.decisions);
      if m.Baseline? { PresentedIs(parse, items, p, at[n], m.request); }
      if m.Record? { AnswersKnown(items, p, at[n], m.index); }
      MoveKnown(items, p, at[n], s, m);
      PlayLast(request, moves);
      ExtendsSnoc(request, moves);
      SameSnoc(request, moves);
    }
  }

  lemma {:induction false} FromHubOpens(parse: A.Parser, items: seq<LiveItem>, p: nat, request: Pending, first: nat,
                                        moves: seq<Move>, at: seq<nat>)
    requires FromHub(parse, items, p, request, first, moves, at)
    ensures p < first <= |items| && items[p].kind.ApprovalRequested? && |at| == |moves|
    ensures Presented(parse, items, p, first, request)
  {
    hide Presented, Answers;
  }

  /** The last move, and the run before it. */
  lemma {:induction false} FromHubLast(parse: A.Parser, items: seq<LiveItem>, p: nat, request: Pending, first: nat,
                                       moves: seq<Move>, at: seq<nat>)
    requires FromHub(parse, items, p, request, first, moves, at) && moves != []
    ensures var n := |moves| - 1;
            && |at| == |moves| && p < first <= Moment(first, at[..n]) <= at[n] <= |items| && items[p].kind.ApprovalRequested?
            && FromHub(parse, items, p, request, first, moves[..n], at[..n])
            && (moves[n].Baseline? ==> Presented(parse, items, p, at[n], moves[n].request))
            && (moves[n].Record? ==> Answers(items, p, at[n], moves[n].index))
  {
    hide Presented, Answers;
  }

  lemma {:induction false} NothingPlayed(request: Pending)
    ensures PlayAll(request, []) == Session(Open(request), []) && SameRequest(request, []) && Extends(request, [])
  {
  }

  lemma {:induction false} PlayLast(request: Pending, moves: seq<Move>)
    requires moves != []
    ensures PlayAll(request, moves) == Play(PlayAll(request, moves[..|moves| - 1]), moves[|moves| - 1])
  {
  }

  lemma {:induction false} SameSnoc(request: Pending, moves: seq<Move>)
    requires moves != [] && SameRequest(request, moves[..|moves| - 1])
    requires var m := moves[|moves| - 1]; m.Baseline? ==> |m.request.calls| == |request.calls|
    ensures SameRequest(request, moves)
  {
    var init := moves[..|moves| - 1];
    assert forall k :: 0 <= k < |init| ==> moves[k] == init[k];
  }

  lemma {:induction false} OpenedKnown(items: seq<LiveItem>, p: nat, n: nat, request: Pending)
    requires p < n <= |items| && items[p].kind.ApprovalRequested? && request.calls == items[p].kind.calls
    requires request.decisions == FirstAnswers(After(items[..n], p), items[p].kind.requestId, |items[p].kind.calls|)
    ensures |Open(request).request.decisions| == |request.calls| && Known(items, p, n, Open(request).request.decisions)
  {
    hide FirstAnswer, After;
  }

  lemma {:induction false} MoveKnown(items: seq<LiveItem>, p: nat, n: nat, s: Session, m: Move)
    requires p < n <= |items| && items[p].kind.ApprovalRequested? && Sized(s.ask)
    requires |s.ask.request.decisions| == |items[p].kind.calls| && Known(items, p, n, s.ask.request.decisions)
    requires m.Baseline? ==> m.request.calls == items[p].kind.calls
    requires m.Baseline? ==>
               m.request.decisions == FirstAnswers(After(items[..n], p), items[p].kind.requestId, |items[p].kind.calls|)
    requires m.Record? ==> FirstAnswer(After(items[..n], p), items[p].kind.requestId, m.index).Some?
    ensures |Play(s, m).ask.request.decisions| == |items[p].kind.calls| && Known(items, p, n, Play(s, m).ask.request.decisions)
    ensures m.Baseline? ==> Keeps(s.ask.request.decisions, m.request.decisions)
  {
    hide FirstAnswer, After, Search;
  }

  lemma {:induction false} ExtendsSnoc(request: Pending, moves: seq<Move>)
    requires moves != [] && Extends(request, moves[..|moves| - 1])
    requires var m := moves[|moves| - 1];
             m.Baseline? ==> Keeps(PlayAll(request, moves[..|moves| - 1]).ask.request.decisions, m.request.decisions)
    ensures Extends(request, moves)
  {
    hide PlayAll, Keeps;
    var init := moves[..|moves| - 1];
    forall k | 0 <= k < |moves| && moves[k].Baseline?
      ensures Keeps(PlayAll(request, moves[..k]).ask.request.decisions, moves[k].request.decisions)
    {
      if k < |init| { assert init[..k] == moves[..k] && init[k] == moves[k]; }
    }
  }

  /** So over any run of a dialog fed by the hub, a slot decided at some point, by
      whichever client, is never submitted afterwards. */
  lemma {:induction false} RecordedNeverSent(parse: A.Parser, items: seq<LiveItem>, p: nat, request: Pending, first: nat,
                                             moves: seq<Move>, at: seq<nat>, k: nat, i: nat)
    requires Unclashed(items) && FromHub(parse, items, p, request, first, moves, at)
    requires k <= |moves| && i < |items[p].kind.calls|
    requires var d := PlayAll(request, moves[..k]).ask.request.decisions; i < |d| && d[i].Some?
    ensures var notes := PlayAll(request, moves).notes;
            && |PlayAll(request, moves[..k]).notes| <= |notes|
            && forall n :: |PlayAll(request, moves[..k]).notes| <= n < |notes| ==> notes[n] != Sent(i)
  {
    hide PlayAll, FromHub, Extends, SameRequest;
    HubKeepsDecisions(parse, items, p, request, first, moves, at);
    DecidedNeverSent(request, moves, k, i);
  }
}
