/**
 The approval dialog of one request: what is focused, armed, submitted and
 recorded, over any run of key presses, recorded decisions and re-syncs.
 */
module Dialogs {
  import opened Prelude
  import opened Contract

  datatype Ask = Ask(request: Pending, selected: Option<nat>, armed: bool, submitted: seq<bool>)

  /** One flag and one decision slot per call. */
  predicate Sized(a: Ask) {
    && |a.request.decisions| == |a.request.calls| == |a.submitted|
    && (a.selected.Some? ==> a.selected.value < |a.submitted|)
  }

  predicate Answerable(a: Ask, i: nat)
    requires Sized(a)
  {
    i < |a.submitted| && a.request.decisions[i].None? && !a.submitted[i]
  }

  function Resized(decisions: seq<Option<Approval>>, n: nat): (r: seq<Option<Approval>>)
    ensures |r| == n
    ensures forall i :: 0 <= i < n ==> r[i] == if i < |decisions| then decisions[i] else None
  {
    seq(n, i requires 0 <= i < n => if i < |decisions| then decisions[i] else None)
  }

  /** The slot `offset` steps from `start`, around the ring of `n` slots. */
  function RingSlot(start: nat, n: nat, backwards: bool, offset: nat): (i: nat)
    requires start < n && offset <= n
    ensures i < n
  {
    if backwards then (start + n - offset) % n else (start + offset) % n
  }

  /** The first answerable slot at or beyond `offset` steps. */
  function Search(a: Ask, start: nat, backwards: bool, offset: nat): (r: Option<nat>)
    requires Sized(a) && (a.submitted == [] || start < |a.submitted|)
    ensures r.Some? ==> Answerable(a, r.value)
    decreases |a.submitted| + 1 - offset
  {
    if offset > |a.submitted| || a.submitted == [] then None
    else
      var i := RingSlot(start, |a.submitted|, backwards, offset);
      if Answerable(a, i) then Some(i) else Search(a, start, backwards, offset + 1)
  }

  /** The first answerable slot from the front. */
  function FirstAnswerable(a: Ask, i: nat): (r: Option<nat>)
    requires Sized(a)
    ensures r.Some? ==> Answerable(a, r.value)
    ensures forall j :: i <= j && Answerable(a, j) ==> r.Some? && r.value <= j
    decreases |a.submitted| - i
  {
    if i >= |a.submitted| then None else if Answerable(a, i) then Some(i) else FirstAnswerable(a, i + 1)
  }

  function Open(request: Pending): (a: Ask)
    ensures Sized(a)
  {
    var n := |request.calls|;
    var a := Ask(request.(decisions := Resized(request.decisions, n)), None, false, seq(n, _ => false));
    a.(selected := FirstAnswerable(a, 0))
  }

  /** Takes a fresh baseline; what was submitted stays submitted. */
  function Refresh(a: Ask, request: Pending): (r: Ask)
    ensures Sized(r)
  {
    var asked := Open(request);
    var b := asked.(selected := None, submitted := seq(|asked.submitted|, i requires 0 <= i < |asked.submitted| =>
                       i < |a.submitted| && a.submitted[i]));
    b.(selected := FirstAnswerable(b, 0))
  }

  /** The first press on an answerable slot only arms it. */
  function Moved(a: Ask, backwards: bool): (r: Ask)
    requires Sized(a)
    ensures Sized(r)
  {
    if !a.armed && a.selected.Some? && Answerable(a, a.selected.value) then a.(armed := true)
    else
      var next := Search(a, if a.selected.Some? then a.selected.value else 0, backwards, 1);
      a.(selected := next, armed := next.Some?)
  }

  /** The slot to send an answer for, when one is armed. */
  function Pressed(a: Ask): (r: (Ask, Option<nat>))
    requires Sized(a)
    ensures Sized(r.0)
  {
    var b := a.(armed := false);
    if !a.armed || a.selected.None? then (b, None)
    else
      var sent := b.(submitted := b.submitted[a.selected.value := true]);
      (Moved(sent, false).(armed := false), a.selected)
  }

  /** A recorded decision; the first one on a slot stands. */
  function Decided(a: Ask, i: nat, decision: Approval): (r: Ask)
    requires Sized(a)
    ensures Sized(r)
  {
    if i >= |a.request.decisions| || a.request.decisions[i].Some? then a
    else
      var b := a.(request := a.request.(decisions := a.request.decisions[i := Some(decision)]));
      if b.selected == Some(i) then Moved(b, false).(armed := false) else b
  }

  predicate Finished(a: Ask) {
    forall i :: 0 <= i < |a.request.decisions| ==> a.request.decisions[i].Some?
  }

  // ---------------------------------------------------------------- the object

  class Dialog {
    var request: Pending
    var selected: Option<nat>
    var armed: bool
    var submitted: seq<bool>

    ghost function Model(): Ask
      reads this
    {
      Ask(request, selected, armed, submitted)
    }

    ghost predicate Valid()
      reads this
    {
      Sized(Model())
    }

    constructor (asked: Pending)
      ensures Valid() && Model() == Open(asked)
    {
      var n := |asked.calls|;
      request := asked.(decisions := Resized(asked.decisions, n));
      submitted := seq(n, _ => false);
      selected, armed := None, false;
      new;
      FindFromFront();
    }

    predicate IsAnswerable(i: nat)
      requires |request.decisions| == |submitted|
      reads this
    {
      i < |submitted| && request.decisions[i].None? && !submitted[i]
    }

    method FindFromFront()
      requires |request.decisions| == |request.calls| == |submitted|
      modifies this`selected
      ensures Valid() && Model() == old(Model().(selected := FirstAnswerable(Model().(selected := None), 0)))
    {
      ghost var a := Model().(selected := None);
      var i: nat := 0;
      while i < |submitted| && !IsAnswerable(i)
        invariant i <= |submitted| && FirstAnswerable(a, i) == FirstAnswerable(a, 0)
      {
        i := i + 1;
      }
      selected := if i < |submitted| then Some(i) else None;
    }

    method MoveFocus(backwards: bool)
      requires Valid()
      modifies this`selected, this`armed
      ensures Valid() && Model() == Moved(old(Model()), backwards)
    {
      if !armed && selected.Some? && IsAnswerable(selected.value) {
        armed := true;
        return;
      }
      ghost var a := Model();
      var start := if selected.Some? then selected.value else 0;
      var n := |submitted|;
      var offset: nat := 1;
      var found: Option<nat> := None;
      while offset <= n && found.None?
        invariant 1 <= offset
        invariant if found.Some? then Search(a, start, backwards, 1) == found
                  else Search(a, start, backwards, 1) == Search(a, start, backwards, offset)
        decreases n + 1 - offset, found.None?
      {
        var i := RingSlot(start, n, backwards, offset);
        if IsAnswerable(i) { found := Some(i); } else { offset := offset + 1; }
      }
      selected := found;
      armed := selected.Some?;
    }

    method Submit() returns (index: Option<nat>)
      requires Valid()
      modifies this
      ensures Valid() && (Model(), index) == Pressed(old(Model()))
    {
      var wasArmed := armed;
      armed := false;
      if !wasArmed || selected.None? { return None; }
      index := selected;
      submitted := submitted[index.value := true];
      MoveFocus(false);
      armed := false;
    }

    method Settle(index: nat, decision: Approval)
      requires Valid()
      modifies this
      ensures Valid() && Model() == Decided(old(Model()), index, decision)
    {
      if index >= |request.decisions| || request.decisions[index].Some? { return; }
      request := request.(decisions := request.decisions[index := Some(decision)]);
      if selected == Some(index) {
        MoveFocus(false);
        armed := false;
      }
    }

    method Resync(baseline: Pending)
      requires Valid()
      modifies this
      ensures Valid() && Model() == Refresh(old(Model()), baseline)
    {
      var carried := submitted;
      var n := |baseline.calls|;
      request := baseline.(decisions := Resized(baseline.decisions, n));
      submitted := seq(n, i requires 0 <= i < n => i < |carried| && carried[i]);
      armed := false;
      assert submitted == Refresh(old(Model()), baseline).submitted;
      FindFromFront();
    }

    predicate Complete()
      reads this
      ensures Complete() == Finished(Model())
    {
      forall i :: 0 <= i < |request.decisions| ==> request.decisions[i].Some?
    }
  }

  // ------------------------------------------------------------------ the laws

  /** Focus rests on an answerable slot exactly when there is one; only such a
      slot is armed. */
  ghost predicate Focused(a: Ask) {
    && Sized(a)
    && (a.selected.Some? ==> Answerable(a, a.selected.value))
    && (a.selected.None? ==> !a.armed && forall i: nat :: !Answerable(a, i))
  }

  lemma {:induction false} WrapsOnce(x: nat, n: nat)
    requires 0 < n && x < 2 * n
    ensures x % n == if x >= n then x - n else x
  {
    if x >= n {
      assert x == n * 1 + (x - n);
    }
  }

  lemma {:induction false} RingValue(start: nat, n: nat, backwards: bool, offset: nat)
    requires start < n && offset <= n
    ensures var x := if backwards then start + n - offset else start + offset;
            RingSlot(start, n, backwards, offset) == if x >= n then x - n else x
  {
    WrapsOnce(if backwards then start + n - offset else start + offset, n);
  }

  /** The ring search visits every slot. */
  lemma {:induction false} SearchFinds(a: Ask, start: nat, backwards: bool, offset: nat, i: nat)
    requires Sized(a) && start < |a.submitted| && Answerable(a, i)
    requires 1 <= offset <= |a.submitted|
    requires exists k :: offset <= k <= |a.submitted| && RingSlot(start, |a.submitted|, backwards, k) == i
    ensures Search(a, start, backwards, offset).Some?
    decreases |a.submitted| - offset
  {
    var k :| offset <= k <= |a.submitted| && RingSlot(start, |a.submitted|, backwards, k) == i;
    if k > offset { SearchFinds(a, start, backwards, offset + 1, i); }
  }

  lemma {:induction false} RingReaches(start: nat, n: nat, backwards: bool, i: nat) returns (k: nat)
    requires start < n && i < n
    ensures 1 <= k <= n && RingSlot(start, n, backwards, k) == i
  {
    hide RingSlot;
    if backwards {
      k := if i < start then start - i else start + n - i;
    } else {
      k := if i > start then i - start else i + n - start;
    }
    RingValue(start, n, backwards, k);
  }

  lemma {:induction false} SearchComplete(a: Ask, start: nat, backwards: bool)
    requires Sized(a) && (a.submitted == [] || start < |a.submitted|)
    ensures Search(a, start, backwards, 1).None? ==> forall i: nat :: !Answerable(a, i)
  {
    hide Search, RingSlot;
    forall i: nat | Answerable(a, i) ensures Search(a, start, backwards, 1).Some? {
      var k := RingReaches(start, |a.submitted|, backwards, i);
      SearchFinds(a, start, backwards, 1, i);
    }
  }

  lemma {:induction false} OpenFocused(request: Pending)
    ensures Focused(Open(request)) && !Open(request).armed
  {
  }

  lemma {:induction false} RefreshFocused(a: Ask, request: Pending)
    ensures Focused(Refresh(a, request)) && !Refresh(a, request).armed
  {
  }

  /** Being answerable is a matter of the decisions and the marks alone. */
  lemma {:induction false} SameAnswerable(a: Ask, b: Ask)
    requires Sized(a) && Sized(b) && a.submitted == b.submitted && a.request.decisions == b.request.decisions
    ensures forall i: nat :: Answerable(a, i) == Answerable(b, i)
  {
  }

  lemma {:induction false} MoveFocused(a: Ask, backwards: bool)
    requires Sized(a)
    ensures Focused(Moved(a, backwards))
  {
    hide Search, Answerable;
    SearchComplete(a, if a.selected.Some? then a.selected.value else 0, backwards);
    SameAnswerable(a, Moved(a, backwards));
  }

  lemma {:induction false} SubmitFocused(a: Ask)
    requires Focused(a)
    ensures Focused(Pressed(a).0) && !Pressed(a).0.armed
    ensures Pressed(a).1.Some? <==> a.armed
    ensures Pressed(a).1.Some? ==> Answerable(a, Pressed(a).1.value)
  {
    hide Moved;
    if a.armed {
      MoveFocused(a.(armed := false, submitted := a.submitted[a.selected.value := true]), false);
    }
  }

  lemma {:induction false} SettleFocused(a: Ask, i: nat, decision: Approval)
    requires Focused(a)
    ensures Focused(Decided(a, i, decision)) && (Decided(a, i, decision).armed ==> a.armed)
  {
    hide Moved;
    if i < |a.request.decisions| && a.request.decisions[i].None? {
      var b := a.(request := a.request.(decisions := a.request.decisions[i := Some(decision)]));
      if a.selected == Some(i) {
        MoveFocused(b, false);
        SameAnswerable(Moved(b, false), Moved(b, false).(armed := false));
      } else {
        assert forall j: nat :: Answerable(b, j) ==> Answerable(a, j);
      }
    }
  }

  // ------------------------------------------------------------------ whole runs

  datatype Move =
    | Focus(backwards: bool)
    | Press
    | Record(index: nat, decision: Approval)
    | Baseline(request: Pending)

  /** What a run leaves behind, oldest first. */
  datatype Note = Tabbed | Sent(index: nat)

  datatype Session = Session(ask: Ask, notes: seq<Note>)

  function Play(s: Session, m: Move): (r: Session)
    requires Sized(s.ask)
    ensures Sized(r.ask)
  {
    match m
    case Focus(backwards) => Session(Moved(s.ask, backwards), s.notes + [Tabbed])
    case Press =>
      var (ask, index) := Pressed(s.ask);
      Session(ask, s.notes + (if index.Some? then [Sent(index.value)] else []))
    case Record(index, decision) => s.(ask := Decided(s.ask, index, decision))
    case Baseline(request) => s.(ask := Refresh(s.ask, request))
  }

  function PlayAll(request: Pending, moves: seq<Move>): (s: Session)
    ensures Sized(s.ask)
  {
    if moves == [] then Session(Open(request), [])
    else
      Play(PlayAll(request, moves[..|moves| - 1]), moves[|moves| - 1])
  }

  /** A re-sync is of the same request: it presents the same calls. */
  predicate SameRequest(request: Pending, moves: seq<Move>) {
    forall k :: 0 <= k < |moves| && moves[k].Baseline? ==> |moves[k].request.calls| == |request.calls|
  }

  /** A re-sync keeps every decision already recorded. */
  ghost predicate Extends(request: Pending, moves: seq<Move>) {
    forall k :: 0 <= k < |moves| && moves[k].Baseline? ==>
      Keeps(PlayAll(request, moves[..k]).ask.request.decisions, moves[k].request.decisions)
  }

  predicate Keeps(before: seq<Option<Approval>>, after: seq<Option<Approval>>) {
    forall i :: 0 <= i < |before| && before[i].Some? ==> i < |after| && after[i].Some?
  }

  /** Something was focused after the last answer, or no answer was sent. */
  predicate FocusedSince(notes: seq<Note>) {
    notes != [] && notes[|notes| - 1].Tabbed?
  }

  /** Sent slots are distinct, each marked, and each right after a focus move. */
  ghost predicate Ledger(notes: seq<Note>, submitted: seq<bool>) {
    && (forall k :: 0 <= k < |notes| && notes[k].Sent? ==> notes[k].index < |submitted| && submitted[notes[k].index])
    && (forall j, k :: 0 <= j < k < |notes| && notes[j].Sent? && notes[k].Sent? ==> notes[j].index != notes[k].index)
    && (forall k :: 0 <= k < |notes| && notes[k].Sent? ==> 0 < k && notes[k - 1].Tabbed?)
  }

  ghost predicate Careful(s: Session) {
    Focused(s.ask) && Ledger(s.notes, s.ask.submitted) && (s.ask.armed ==> FocusedSince(s.notes))
  }

  lemma {:induction false} LedgerSends(notes: seq<Note>, submitted: seq<bool>, i: nat)
    requires Ledger(notes, submitted) && FocusedSince(notes) && i < |submitted| && !submitted[i]
    ensures Ledger(notes + [Sent(i)], submitted[i := true])
  {
  }

  /** Over any run on one request: focus is on an answerable slot exactly when
      one exists, no slot is submitted twice, and a focus move comes between. */
  lemma {:induction false} DialogCareful(request: Pending, moves: seq<Move>)
    requires SameRequest(request, moves)
    ensures Careful(PlayAll(request, moves))
    ensures |PlayAll(request, moves).ask.submitted| == |request.calls|
    decreases |moves|
  {
    hide Focused, Moved, Pressed, Decided, Refresh, Open;
    if moves == [] {
      OpenFocused(request);
      OpenCount(request);
    } else {
      var init, m := moves[..|moves| - 1], moves[|moves| - 1];
      DialogCareful(request, init);
      PlayCareful(PlayAll(request, init), m);
    }
  }

  lemma {:induction false} OpenCount(request: Pending)
    ensures |Open(request).submitted| == |request.calls|
  {
  }

  lemma {:induction false} PlayCareful(s: Session, m: Move)
    requires Careful(s)
    requires m.Baseline? ==> |m.request.calls| == |s.ask.submitted|
    ensures Careful(Play(s, m)) && |Play(s, m).ask.submitted| == |s.ask.submitted|
  {
    hide Moved, Decided, Refresh, Pressed, Focused, Ledger;
    match m
    case Focus(backwards) =>
      assert Sized(s.ask) by { hide *; FocusedSized(s.ask); }
      MoveFocused(s.ask, backwards);
      MoveMarks(s.ask, backwards);
      LedgerTabs(s.notes, s.ask.submitted);
    case Press =>
      SubmitFocused(s.ask);
      SubmitMarks(s.ask);
      if s.ask.armed {
        FocusedSized(s.ask);
        LedgerSends(s.notes, s.ask.submitted, s.ask.selected.value);
      } else {
        assert s.notes + [] == s.notes;
      }
    case Record(index, decision) =>
      SettleFocused(s.ask, index, decision);
      FocusedSized(s.ask);
      SettleMarks(s.ask, index, decision);
    case Baseline(request) =>
      RefreshFocused(s.ask, request);
      RefreshMarks(s.ask, request);
  }

  lemma {:induction false} FocusedSized(a: Ask)
    requires Focused(a)
    ensures Sized(a) && (a.armed ==> a.selected.Some? && Answerable(a, a.selected.value))
  {
  }

  lemma {:induction false} LedgerTabs(notes: seq<Note>, submitted: seq<bool>)
    requires Ledger(notes, submitted)
    ensures Ledger(notes + [Tabbed], submitted) && FocusedSince(notes + [Tabbed])
  {
  }

  lemma {:induction false} MoveMarks(a: Ask, backwards: bool)
    requires Sized(a)
    ensures Moved(a, backwards).submitted == a.submitted && Moved(a, backwards).request == a.request
  {
  }

  lemma {:induction false} SubmitMarks(a: Ask)
    requires Focused(a)
    ensures Pressed(a).0.submitted == if a.armed then a.submitted[a.selected.value := true] else a.submitted
    ensures Pressed(a).0.request == a.request && (a.armed ==> Pressed(a).1 == a.selected)
  {
    hide Search;
  }

  lemma {:induction false} SettleMarks(a: Ask, i: nat, decision: Approval)
    requires Sized(a)
    ensures Decided(a, i, decision).submitted == a.submitted
    ensures Keeps(a.request.decisions, Decided(a, i, decision).request.decisions)
  {
    hide Search;
  }

  lemma {:induction false} RefreshMarks(a: Ask, request: Pending)
    ensures |Refresh(a, request).submitted| == |request.calls|
    ensures |request.calls| == |a.submitted| ==> Refresh(a, request).submitted == a.submitted
    ensures Refresh(a, request).request.decisions == Resized(request.decisions, |request.calls|)
  {
  }

  /** A slot decided at some point of the run is never submitted afterwards. */
  lemma {:induction false} DecidedNeverSent(request: Pending, moves: seq<Move>, k: nat, i: nat)
    requires SameRequest(request, moves) && Extends(request, moves) && k <= |moves|
    requires i < |request.calls| && var d := PlayAll(request, moves[..k]).ask.request.decisions; i < |d| && d[i].Some?
    ensures var d := PlayAll(request, moves).ask.request.decisions; i < |d| && d[i].Some?
    ensures forall n :: |PlayAll(request, moves[..k]).notes| <= n < |PlayAll(request, moves).notes| ==>
              PlayAll(request, moves).notes[n] != Sent(i)
    ensures |PlayAll(request, moves[..k]).notes| <= |PlayAll(request, moves).notes|
    decreases |moves|
  {
    hide Focused, Moved, Pressed, Decided, Refresh, Open;
    if k == |moves| {
      assert moves[..k] == moves;
    } else {
      var init, m := moves[..|moves| - 1], moves[|moves| - 1];
      assert init[..k] == moves[..k];
      assert Extends(request, init) by {
        forall j | 0 <= j < |init| && init[j].Baseline?
          ensures Keeps(PlayAll(request, init[..j]).ask.request.decisions, init[j].request.decisions)
        {
          assert init[..j] == moves[..j] && init[j] == moves[j];
        }
      }
      DecidedNeverSent(request, init, k, i);
      DialogCareful(request, init);
      assert moves[..|moves| - 1] == init;
      DecidedStays(PlayAll(request, init), m, i);
    }
  }

  lemma {:induction false} DecidedStays(s: Session, m: Move, i: nat)
    requires Focused(s.ask) && i < |s.ask.request.decisions| && s.ask.request.decisions[i].Some?
    requires m.Baseline? ==> |m.request.calls| == |s.ask.submitted| && Keeps(s.ask.request.decisions, m.request.decisions)
    ensures i < |Play(s, m).ask.request.decisions| && Play(s, m).ask.request.decisions[i].Some?
    ensures |s.notes| <= |Play(s, m).notes| && Play(s, m).notes[..|s.notes|] == s.notes
    ensures forall n :: |s.notes| <= n < |Play(s, m).notes| ==> Play(s, m).notes[n] != Sent(i)
  {
    hide Moved, Decided, Refresh;
    match m
    case Focus(backwards) => MoveMarks(s.ask, backwards);
    case Press =>
      SubmitFocused(s.ask);
      SubmitMarks(s.ask);
      hide Pressed;
    case Record(index, decision) => SettleMarks(s.ask, index, decision);
    case Baseline(request) => RefreshMarks(s.ask, request);
  }
}
