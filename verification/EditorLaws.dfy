/**
 What the editor promises over any run of keys: a bounded undo that never drops the
 newest unit, one unit per typing run, and undos that walk the edits back.
 */
module EditorLaws {
  import opened Prelude
  import opened EditorText
  import opened FlatEditor

  datatype Key =
    | InsertKey(raw: seq<Raw>)
    | NewlineKey
    | BackspaceKey
    | ForwardKey
    | WordBackKey
    | WordForwardKey
    | CutKey
    | ClearKey
    | UndoKey
    | LeftKey(select: bool)
    | RightKey(select: bool)
    | UpKey(select: bool)
    | DownKey(select: bool)
    | HomeKey(select: bool)
    | EndKey(select: bool)
    | WordLeftKey(select: bool)
    | WordRightKey(select: bool)

  /** Every state the stack holds lies within its text. */
  predicate SnapshotsOk(undo: seq<Snapshot>) {
    forall k :: 0 <= k < |undo| ==> undo[k].at <= |undo[k].text|
  }

  function Apply(e: Editor, key: Key): Editor
    requires Sane(e)
  {
    match key
    case InsertKey(raw) => Insert(e, raw)
    case NewlineKey => Newline(e)
    case BackspaceKey => Backspace(e)
    case ForwardKey => DeleteForward(e)
    case WordBackKey => DeleteWordBack(e)
    case WordForwardKey => DeleteWordForward(e)
    case CutKey => DeleteSelection(e)
    case ClearKey => Clear(e)
    case UndoKey => Undo(e).0
    case LeftKey(select) => Left(e, select)
    case RightKey(select) => Right(e, select)
    case UpKey(select) => Up(e, select)
    case DownKey(select) => Down(e, select)
    case HomeKey(select) => Home(e, select)
    case EndKey(select) => End(e, select)
    case WordLeftKey(select) => MoveWordLeft(e, select)
    case WordRightKey(select) => MoveWordRight(e, select)
  }

  // ------------------------------------------------------------------- the bounds

  predicate Bounded(undo: seq<Snapshot>) {
    |undo| <= 1 || (|undo| <= MAX_UNDO_UNITS && Total(undo) <= MAX_UNDO_BYTES)
  }

  /** Eviction takes oldest units only, as few as the bounds ask for, and spares the newest. */
  lemma {:induction false} EvictKeeps(undo: seq<Snapshot>)
    ensures forall j :: 0 <= j < |undo| - |Evict(undo)| ==> !Bounded(undo[j..])
    ensures Bounded(Evict(undo)) && |Evict(undo)| <= |undo|
    ensures Evict(undo) == undo[|undo| - |Evict(undo)|..]
    ensures undo != [] ==> Evict(undo) != [] && Evict(undo)[|Evict(undo)| - 1] == undo[|undo| - 1]
    ensures Evict(undo) == undo <==> Bounded(undo)
    decreases |undo|
  {
    hide Total;
    if !Bounded(undo) {
      EvictKeeps(undo[1..]);
      forall j | 0 <= j < |undo| - |Evict(undo)| ensures !Bounded(undo[j..]) {
        if j > 0 { assert undo[1..][j - 1..] == undo[j..]; } else { assert undo[0..] == undo; }
      }
      assert undo[1..][|undo| - 1 - |Evict(undo)|..] == undo[|undo| - |Evict(undo)|..];
    }
  }

  lemma {:induction false} TotalSnoc(undo: seq<Snapshot>, s: Snapshot)
    ensures Total(undo + [s]) == Total(undo) + Bytes(s.text)
    decreases |undo|
  {
    if undo == [] {
      assert ([] + [s])[1..] == [];
    } else {
      TotalSnoc(undo[1..], s);
      assert (undo + [s])[1..] == undo[1..] + [s];
    }
  }

  lemma {:induction false} BoundedPop(undo: seq<Snapshot>)
    requires Bounded(undo) && undo != []
    ensures Bounded(undo[..|undo| - 1])
  {
    var init, last := undo[..|undo| - 1], undo[|undo| - 1];
    TotalSnoc(init, last);
    assert undo == init + [last];
  }

  // --------------------------------------------------------- what a key leaves behind

  /** A key that starts a unit: it edits, and does not continue a typing run. */
  predicate StartsUnit(e: Editor, key: Key)
    requires Sane(e)
  {
    match key
    case InsertKey(raw) =>
      Filter(raw) != [] && !(Single(Filter(raw)) && e.run == Some(InsertRun) && Selection(e).None?)
    case NewlineKey => true
    case BackspaceKey => Selection(e).Some? || (e.at > 0 && e.run != Some(BackspaceRun))
    case ForwardKey => Selection(e).Some? || e.at < |e.text|
    case WordBackKey => Selection(e).Some? || WordLeft(e.text, e.at) != e.at
    case WordForwardKey => Selection(e).Some? || WordRight(e.text, e.at) != e.at
    case CutKey => Selection(e).Some?
    case ClearKey => e.text != [] || e.anchor.Some?
    case _ => false
  }

  /** A key that goes on in the unit of the run it belongs to. */
  predicate ContinuesRun(e: Editor, key: Key)
    requires Sane(e)
  {
    match key
    case InsertKey(raw) => Single(Filter(raw)) && e.run == Some(InsertRun) && Selection(e).None?
    case BackspaceKey => Selection(e).None? && e.at > 0 && e.run == Some(BackspaceRun)
    case _ => false
  }

  /** Each key does one of three things to the stack: push what was there before it,
      pop (undo), or leave it; and text changes only with a push, a pop or in a run. */
  lemma {:induction false} KeyOnStack(e: Editor, key: Key)
    requires Sane(e)
    ensures StartsUnit(e, key) ==> Apply(e, key).undo == Evict(e.undo + [Snapshot(e.text, e.at)])
    ensures !StartsUnit(e, key) && !key.UndoKey? ==> Apply(e, key).undo == e.undo
    ensures !StartsUnit(e, key) && !key.UndoKey? && !ContinuesRun(e, key) ==> Apply(e, key).text == e.text
  {
    hide Evict, Filter, WordLeft, WordRight, Splice, LineStart, LineEnd, Preferred, Reach;
  }

  /** Undo takes a unit-starting key back: the exact text and cursor from before. */
  lemma {:induction false} UndoRestores(e: Editor, key: Key)
    requires Sane(e) && StartsUnit(e, key)
    ensures var (u, undone) := Undo(Apply(e, key));
            undone && u.text == e.text && u.at == e.at && u.anchor.None? && u.run.None?
  {
    hide Evict, StartsUnit, Apply;
    KeyOnStack(e, key);
    EvictKeeps(e.undo + [Snapshot(e.text, e.at)]);
  }

  /** The stack below is untouched by a push and its undo exactly when the push fit:
      one more unit and its bytes stay within the bounds, or the stack was empty. */
  predicate Room(e: Editor) {
    e.undo == [] || (|e.undo| < MAX_UNDO_UNITS && Total(e.undo) + Bytes(e.text) <= MAX_UNDO_BYTES)
  }

  lemma {:induction false} UndoInverts(e: Editor, key: Key)
    requires Sane(e) && StartsUnit(e, key)
    ensures Room(e) <==> Undo(Apply(e, key)).0 == Editor(e.text, e.at, None, None, e.undo, None)
  {
    hide Evict, StartsUnit, Apply, Total, Bytes;
    KeyOnStack(e, key);
    PopPushed(e.undo, Snapshot(e.text, e.at));
  }

  lemma {:induction false} PopPushed(undo: seq<Snapshot>, s: Snapshot)
    ensures var r := Evict(undo + [s]);
            && r != [] && r[|r| - 1] == s
            && (undo == [] || (|undo| < MAX_UNDO_UNITS && Total(undo) + Bytes(s.text) <= MAX_UNDO_BYTES)
                <==> r[..|r| - 1] == undo)
  {
    hide Evict, Total, Bytes;
    EvictKeeps(undo + [s]);
    TotalSnoc(undo, s);
    assert (undo + [s])[..|undo|] == undo;
  }

  // -------------------------------------------------------------------- typing runs

  /** Single units typed one after the other. */
  function TypeAll(e: Editor, units: seq<Cluster>): (r: Editor)
    requires Sane(e)
    ensures Sane(r)
  {
    if units == [] then e
    else Insert(TypeAll(e, units[..|units| - 1]), [Plain(units[|units| - 1])])
  }

  function BackspaceAll(e: Editor, n: nat): (r: Editor)
    requires Sane(e)
    ensures Sane(r)
  {
    if n == 0 then e else Backspace(BackspaceAll(e, n - 1))
  }

  lemma {:induction false} OneUnit(c: Cluster)
    ensures Filter([Plain(c)]) == [Of(c)] && Single(Filter([Plain(c)]))
  {
    assert [Plain(c)][1..] == [];
  }

  /** A typing run is one unit: however long, it pushes once, and inserts in order. */
  lemma {:induction false} TypingIsOneUnit(e: Editor, units: seq<Cluster>)
    requires Sane(e) && units != [] && Selection(e).None? && e.run != Some(InsertRun)
    ensures var r := TypeAll(e, units);
            && r.undo == Evict(e.undo + [Snapshot(e.text, e.at)])
            && r.run == Some(InsertRun) && r.anchor.None?
            && r.text == Splice(e.text, e.at, e.at, Units(units)) && r.at == e.at + |units|
    decreases |units|
  {
    hide Evict, Insert, Splice;
    var n := |units| - 1;
    var before := TypeAll(e, units[..n]);
    if n > 0 {
      TypingIsOneUnit(e, units[..n]);
      TypeOne(before, units[n]);
      SpliceOn(e.text, e.at, Units(units[..n]), [Of(units[n])]);
      assert Units(units) == Units(units[..n]) + [Of(units[n])];
    } else {
      assert before == e;
      TypeOne(e, units[n]);
      assert Units(units) == [Of(units[n])];
    }
  }

  /** One unit typed: it joins a typing run, or starts one with a unit of its own. */
  lemma {:induction false} TypeOne(e: Editor, c: Cluster)
    requires Sane(e) && Selection(e).None?
    ensures var r := Insert(e, [Plain(c)]);
            && r.undo == (if e.run == Some(InsertRun) then e.undo else Evict(e.undo + [Snapshot(e.text, e.at)]))
            && r.run == Some(InsertRun) && r.anchor.None?
            && r.text == Splice(e.text, e.at, e.at, [Of(c)]) && r.at == e.at + 1
  {
    hide Evict, Filter;
    OneUnit(c);
  }

  lemma {:induction false} SpliceOn(text: seq<Unit>, at: nat, a: seq<Unit>, b: seq<Unit>)
    requires at <= |text|
    ensures Splice(Splice(text, at, at, a), at + |a|, at + |a|, b) == Splice(text, at, at, a + b)
  {
  }

  /** So one undo takes a whole typing run back. */
  lemma {:induction false} TypingUndone(e: Editor, units: seq<Cluster>)
    requires Sane(e) && units != [] && Selection(e).None? && e.run != Some(InsertRun)
    ensures var (u, undone) := Undo(TypeAll(e, units)); undone && u.text == e.text && u.at == e.at
  {
    hide Evict, TypeAll;
    TypingIsOneUnit(e, units);
    EvictKeeps(e.undo + [Snapshot(e.text, e.at)]);
  }

  /** A backspace run is one unit, and removes the units before the cursor. */
  lemma {:induction false} BackspacingIsOneUnit(e: Editor, n: nat)
    requires Sane(e) && 0 < n <= e.at && Selection(e).None? && e.run != Some(BackspaceRun)
    ensures var r := BackspaceAll(e, n);
            && r.undo == Evict(e.undo + [Snapshot(e.text, e.at)])
            && r.run == Some(BackspaceRun) && r.anchor.None?
            && r.text == Splice(e.text, e.at - n, e.at, []) && r.at == e.at - n
    decreases n
  {
    hide Evict, Backspace, Splice;
    var before := BackspaceAll(e, n - 1);
    if n == 1 {
      assert before == e;
      BackspaceOne(e);
    } else {
      BackspacingIsOneUnit(e, n - 1);
      BackspaceOne(before);
      CutOn(e.text, e.at - n, e.at);
    }
  }

  /** One unit removed: it joins a backspacing run, or starts one with a unit of its own. */
  lemma {:induction false} BackspaceOne(e: Editor)
    requires Sane(e) && Selection(e).None? && e.at > 0
    ensures var r := Backspace(e);
            && r.undo == (if e.run == Some(BackspaceRun) then e.undo else Evict(e.undo + [Snapshot(e.text, e.at)]))
            && r.run == Some(BackspaceRun) && r.anchor.None?
            && r.text == Splice(e.text, e.at - 1, e.at, []) && r.at == e.at - 1
  {
    hide Evict;
  }

  lemma {:induction false} CutOn(text: seq<Unit>, from: nat, at: nat)
    requires from < at <= |text|
    ensures Splice(Splice(text, from + 1, at, []), from, from + 1, []) == Splice(text, from, at, [])
  {
  }

  lemma {:induction false} BackspacingUndone(e: Editor, n: nat)
    requires Sane(e) && 0 < n <= e.at && Selection(e).None? && e.run != Some(BackspaceRun)
    ensures var (u, undone) := Undo(BackspaceAll(e, n)); undone && u.text == e.text && u.at == e.at
  {
    hide Evict, BackspaceAll;
    BackspacingIsOneUnit(e, n);
    EvictKeeps(e.undo + [Snapshot(e.text, e.at)]);
  }

  /** Backspacing what was typed gives the text and cursor back. */
  lemma {:induction false} BackspaceUntypes(e: Editor, units: seq<Cluster>)
    requires Sane(e) && units != [] && Selection(e).None? && e.run != Some(InsertRun)
    ensures var r := BackspaceAll(TypeAll(e, units), |units|); r.text == e.text && r.at == e.at
  {
    hide Evict, TypeAll, BackspaceAll;
    TypingIsOneUnit(e, units);
    BackspacingIsOneUnit(TypeAll(e, units), |units|);
  }

  // ----------------------------------------------------------------------- any run

  function ApplyAll(e: Editor, keys: seq<Key>): Editor
    requires Sane(e) && SnapshotsOk(e.undo)
  {
    if keys == [] then e
    else
      var before := ApplyAll(e, keys[..|keys| - 1]);
      if Sane(before) then Apply(before, keys[|keys| - 1]) else before
  }

  ghost predicate Sound(e: Editor) {
    Sane(e) && SnapshotsOk(e.undo) && Bounded(e.undo) && (e.run.Some? ==> e.undo != [])
  }

  lemma {:induction false} KeySound(e: Editor, key: Key)
    requires Sound(e)
    ensures Sound(Apply(e, key))
  {
    if key.UndoKey? {
      hide Total;
      if e.undo != [] { BoundedPop(e.undo); }
    } else {
      hide Evict, Total, Apply, StartsUnit, Bounded;
      KeyOnStack(e, key);
      KeySane(e, key);
      PushSound(e.undo, Snapshot(e.text, e.at));
      if Apply(e, key).run.Some? { KeyRuns(e, key); }
    }
  }

  lemma {:induction false} PushSound(undo: seq<Snapshot>, s: Snapshot)
    requires SnapshotsOk(undo) && s.at <= |s.text|
    ensures var r := Evict(undo + [s]); r != [] && Bounded(r) && SnapshotsOk(r)
  {
    hide Evict, Total;
    var pushed := undo + [s];
    EvictKeeps(pushed);
    var r := Evict(pushed);
    assert forall k :: 0 <= k < |r| ==> r[k] == pushed[|pushed| - |r|..][k] == pushed[k + |pushed| - |r|];
  }

  lemma {:induction false} KeySane(e: Editor, key: Key)
    requires Sane(e) && !key.UndoKey?
    ensures Sane(Apply(e, key))
  {
    hide Evict, Filter, Splice;
  }

  lemma {:induction false} KeyRuns(e: Editor, key: Key)
    requires Sane(e) && Apply(e, key).run.Some? && !key.UndoKey?
    ensures StartsUnit(e, key) || e.run.Some?
  {
    hide Evict, Filter, WordLeft, WordRight;
  }

  /** Over every run of keys from an empty composer: the cursor and the anchor stay
      in the text, the stack holds one unit or keeps both bounds, and a live run
      always has its unit on the stack. */
  lemma {:induction false} RunsSound(keys: seq<Key>)
    ensures Sound(ApplyAll(EMPTY, keys))
    decreases |keys|
  {
    hide Apply;
    if keys != [] {
      RunsSound(keys[..|keys| - 1]);
      KeySound(ApplyAll(EMPTY, keys[..|keys| - 1]), keys[|keys| - 1]);
    }
  }

  /** The states a sequence of unit-starting keys goes through. */
  ghost predicate Edits(states: seq<Editor>, keys: seq<Key>) {
    && |states| == |keys| + 1
    && (forall k :: 0 <= k < |keys| ==>
          Sane(states[k]) && StartsUnit(states[k], keys[k]) && Room(states[k]) && states[k + 1] == Apply(states[k], keys[k]))
  }

  function UndoTimes(e: Editor, n: nat): Editor
    decreases n
  {
    if n == 0 then e else UndoTimes(Undo(e).0, n - 1)
  }

  /** As many undos as edits walk all of them back, while nothing was evicted. */
  lemma {:induction false} UndosWalkBack(states: seq<Editor>, keys: seq<Key>)
    requires Edits(states, keys) && keys != []
    ensures UndoTimes(states[|keys|], |keys|) == Editor(states[0].text, states[0].at, None, None, states[0].undo, None)
    decreases |keys|
  {
    hide Apply, StartsUnit, Room, Undo;
    var n := |keys| - 1;
    UndoInverts(states[n], keys[n]);
    if n > 0 {
      UndosWalkBack(states[..n + 1], keys[..n]);
      UndoRestores(states[n - 1], keys[n - 1]);
      UndoIgnoresRest(states[n], n);
    } else {
      UndoNone(Undo(states[1]).0);
    }
  }

  lemma {:induction false} UndoNone(e: Editor)
    ensures UndoTimes(e, 0) == e
  {
  }

  /** What undo gives back does not depend on the selection, the column or the run. */
  lemma {:induction false} UndoIgnoresRest(e: Editor, n: nat)
    requires n > 0 && Undo(e).1
    ensures UndoTimes(Editor(e.text, e.at, None, None, e.undo, None), n) == UndoTimes(e, n)
  {
  }

  // ------------------------------------------------------------------------- moves

  lemma {:induction false} WidthCons(text: seq<Unit>, a: nat, b: nat)
    requires a < b <= |text|
    ensures WidthOf(text[a..b]) == UnitWidth(text[a]) + WidthOf(text[a + 1..b])
    decreases b
  {
    if b == a + 1 {
      assert text[a..b][..0] == [] && text[a + 1..b] == [];
    } else {
      WidthCons(text, a, b - 1);
      assert text[a..b][..b - a - 1] == text[a..b - 1] && text[a + 1..b][..b - a - 2] == text[a + 1..b - 1];
    }
  }

  /** A reach is the furthest place whose display end stays within the room. */
  lemma {:induction false} ReachFits(text: seq<Unit>, from: nat, to: nat, room: nat)
    requires from <= to <= |text|
    ensures var r := Reach(text, from, to, room);
            && WidthOf(text[from..r]) <= room
            && (r < to ==> WidthOf(text[from..r]) + UnitWidth(text[r]) > room)
    decreases |text| - from
  {
    if from < to && UnitWidth(text[from]) <= room {
      ReachFits(text, from + 1, to, room - UnitWidth(text[from]));
      WidthCons(text, from, Reach(text, from, to, room));
    } else {
      assert text[from..from] == [];
    }
  }

  /** Between two ends of one line, both ends are found from anywhere in it. */
  lemma {:induction false} SameStart(text: seq<Unit>, a: nat, b: nat)
    requires a <= b <= |text| && forall k :: a <= k < b ==> text[k].Of?
    ensures LineStart(text, b) == LineStart(text, a)
    decreases b
  {
    if a < b { SameStart(text, a, b - 1); }
  }

  lemma {:induction false} SameEnd(text: seq<Unit>, a: nat, b: nat)
    requires a <= b <= |text| && forall k :: a <= k < b ==> text[k].Of?
    ensures LineEnd(text, a) == LineEnd(text, b)
    decreases b - a
  {
    if a < b { SameEnd(text, a + 1, b); }
  }

  /** `r` is on the line that starts at `start` and ends at `end`, as far along it as
      `room` columns reach. */
  predicate FarthestOn(text: seq<Unit>, start: nat, end: nat, r: nat, room: nat) {
    && start <= r <= end <= |text|
    && LineStart(text, r) == start && LineEnd(text, r) == end
    && WidthOf(text[start..r]) <= room
    && (r < end ==> WidthOf(text[start..r]) + UnitWidth(text[r]) > room)
  }

  lemma {:induction false} ReachOnLine(text: seq<Unit>, start: nat, end: nat, room: nat)
    requires start <= end <= |text| && LineStart(text, start) == start && LineEnd(text, start) == end
    ensures FarthestOn(text, start, end, Reach(text, start, end, room), room)
  {
    hide Reach, WidthOf;
    var r := Reach(text, start, end, room);
    ReachFits(text, start, end, room);
    SameStart(text, start, r);
    SameEnd(text, start, r);
  }

  /** Up goes to the line above, as far along it as the preferred column; on the
      first line, to its start. */
  lemma {:induction false} UpLands(e: Editor, select: bool)
    requires Sane(e)
    ensures var start := LineStart(e.text, e.at);
            if start == 0 then Up(e, select).at == 0
            else FarthestOn(e.text, LineStart(e.text, start - 1), start - 1, Up(e, select).at, Preferred(e))
    ensures Up(e, select).preferred == Some(Preferred(e))
  {
    hide Reach, WidthOf, Preferred, FarthestOn;
    var start := LineStart(e.text, e.at);
    if start > 0 {
      var above := LineStart(e.text, start - 1);
      SameStart(e.text, above, start - 1);
      SameEnd(e.text, above, start - 1);
      ReachOnLine(e.text, above, start - 1, Preferred(e));
    }
  }

  /** Down, the mirror image. */
  lemma {:induction false} DownLands(e: Editor, select: bool)
    requires Sane(e)
    ensures var end := LineEnd(e.text, e.at);
            if end == |e.text| then Down(e, select).at == end
            else FarthestOn(e.text, end + 1, LineEnd(e.text, end + 1), Down(e, select).at, Preferred(e))
    ensures Down(e, select).preferred == Some(Preferred(e))
  {
    hide Reach, WidthOf, Preferred, FarthestOn;
    var end := LineEnd(e.text, e.at);
    if end < |e.text| { ReachOnLine(e.text, end + 1, LineEnd(e.text, end + 1), Preferred(e)); }
  }

  /** Where word moves land: back to the start of a word, over separators first;
      forward to the end of one. */
  lemma {:induction false} WordMoves(text: seq<Unit>, at: nat) returns (left: nat, right: nat)
    requires at <= |text|
    ensures WordLeft(text, at) <= left <= at <= right <= WordRight(text, at)
    ensures forall k :: left <= k < at ==> !InWord(text[k])
    ensures forall k :: WordLeft(text, at) <= k < left ==> InWord(text[k])
    ensures WordLeft(text, at) > 0 ==> WordLeft(text, at) < left && !InWord(text[WordLeft(text, at) - 1])
    ensures forall k :: at <= k < right ==> !InWord(text[k])
    ensures forall k :: right <= k < WordRight(text, at) ==> InWord(text[k])
    ensures WordRight(text, at) < |text| ==> right < WordRight(text, at) && !InWord(text[WordRight(text, at)])
  {
    left, right := SkipBack(text, at, false), SkipOn(text, at, false);
  }
}
