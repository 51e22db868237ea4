/**
 The prompt editor on flat text: what every operation means, and the laws of its
 bounded undo.
 */
module FlatEditor {
  import opened Prelude
  import opened EditorText

  const MAX_UNDO_UNITS: nat := 64
  const MAX_UNDO_BYTES: nat := 1048576

  datatype Run = InsertRun | BackspaceRun

  datatype Snapshot = Snapshot(text: seq<Unit>, at: nat)

  /** The cursor is `at`; the selection lies between it and `anchor`. */
  datatype Editor = Editor(
    text: seq<Unit>,
    at: nat,
    anchor: Option<nat>,
    preferred: Option<nat>,
    undo: seq<Snapshot>,
    run: Option<Run>)

  const EMPTY := Editor([], 0, None, None, [], None)

  predicate Sane(e: Editor) {
    e.at <= |e.text| && (e.anchor.Some? ==> e.anchor.value <= |e.text|)
  }

  function Bytes(text: seq<Unit>): nat {
    if text == [] then 0
    else Bytes(text[..|text| - 1]) + (if text[|text| - 1].Break? then 0 else text[|text| - 1].cluster.bytes)
  }

  function Total(undo: seq<Snapshot>): nat {
    if undo == [] then 0 else Bytes(undo[0].text) + Total(undo[1..])
  }

  /** Drops the oldest units while over either bound, never the newest. */
  function Evict(undo: seq<Snapshot>): seq<Snapshot>
    decreases |undo|
  {
    if |undo| > 1 && (|undo| > MAX_UNDO_UNITS || Total(undo) > MAX_UNDO_BYTES) then Evict(undo[1..]) else undo
  }

  function Push(e: Editor): Editor {
    e.(undo := Evict(e.undo + [Snapshot(e.text, e.at)]))
  }

  /** The selection, when it is not degenerate. */
  function Selection(e: Editor): Option<(nat, nat)> {
    if e.anchor.None? || e.anchor.value == e.at then None
    else if e.anchor.value < e.at then Some((e.anchor.value, e.at))
    else Some((e.at, e.anchor.value))
  }

  function RemoveSelection(e: Editor): (r: Editor)
    requires Sane(e)
    ensures Sane(r) && r.anchor.None?
  {
    var s := Selection(e);
    if s.None? then e.(anchor := None)
    else e.(text := Splice(e.text, s.value.0, s.value.1, []), at := s.value.0, anchor := None)
  }

  predicate Single(text: seq<Unit>) {
    |text| == 1 && text[0].Of?
  }

  function Type(e: Editor, text: seq<Unit>): (r: Editor)
    requires Sane(e)
    ensures Sane(r)
  {
    e.(text := Splice(e.text, e.at, e.at, text), at := e.at + |text|)
  }

  /** Insert, replacing the selection; a run of single units shares one undo unit. */
  function Insert(e: Editor, raw: seq<Raw>): (r: Editor)
    requires Sane(e)
    ensures Sane(r)
  {
    var text := Filter(raw);
    if text == [] then e
    else
      var coalesce := Single(text) && e.run == Some(InsertRun) && Selection(e).None?;
      Type(RemoveSelection(if coalesce then e else Push(e)), text)
      .(run := if Single(text) then Some(InsertRun) else None, preferred := None)
  }

  function Newline(e: Editor): (r: Editor)
    requires Sane(e)
    ensures Sane(r)
  {
    Type(RemoveSelection(Push(e)), [Break]).(run := None, preferred := None)
  }

  /** A destructive key with a selection deletes the selection. */
  function CutSelection(e: Editor): (r: Editor)
    requires Sane(e)
    ensures Sane(r)
  {
    RemoveSelection(Push(e)).(run := None, preferred := None)
  }

  /** Deletes `from..to` in a unit of its own. */
  function Delete(e: Editor, from: nat, to: nat): (r: Editor)
    requires Sane(e) && from <= to <= |e.text|
    ensures Sane(r)
  {
    Push(e).(text := Splice(e.text, from, to, []), at := from, anchor := None, run := None, preferred := None)
  }

  function Backspace(e: Editor): (r: Editor)
    requires Sane(e)
    ensures Sane(r)
  {
    if Selection(e).Some? then CutSelection(e)
    else if e.at == 0 then e.(anchor := None)
    else
      var unit := if e.run == Some(BackspaceRun) then e else Push(e);
      unit.(text := Splice(e.text, e.at - 1, e.at, []), at := e.at - 1, anchor := None,
            run := Some(BackspaceRun), preferred := None)
  }

  function DeleteForward(e: Editor): (r: Editor)
    requires Sane(e)
    ensures Sane(r)
  {
    if Selection(e).Some? then CutSelection(e)
    else if e.at == |e.text| then e.(anchor := None)
    else Delete(e, e.at, e.at + 1)
  }

  predicate InWord(u: Unit) {
    u.Of? && u.cluster.word
  }

  function SkipBack(text: seq<Unit>, i: nat, words: bool): (r: nat)
    requires i <= |text|
    ensures r <= i
    ensures forall k :: r <= k < i ==> InWord(text[k]) == words
    ensures r > 0 ==> InWord(text[r - 1]) != words
  {
    if i > 0 && InWord(text[i - 1]) == words then SkipBack(text, i - 1, words) else i
  }

  function SkipOn(text: seq<Unit>, i: nat, words: bool): (r: nat)
    requires i <= |text|
    ensures i <= r <= |text|
    ensures forall k :: i <= k < r ==> InWord(text[k]) == words
    ensures r < |text| ==> InWord(text[r]) != words
    decreases |text| - i
  {
    if i < |text| && InWord(text[i]) == words then SkipOn(text, i + 1, words) else i
  }

  /** Back over separators, then over one word. */
  function WordLeft(text: seq<Unit>, at: nat): (r: nat)
    requires at <= |text|
    ensures r <= at
  {
    SkipBack(text, SkipBack(text, at, false), true)
  }

  function WordRight(text: seq<Unit>, at: nat): (r: nat)
    requires at <= |text|
    ensures at <= r <= |text|
  {
    SkipOn(text, SkipOn(text, at, false), true)
  }

  function DeleteWordBack(e: Editor): (r: Editor)
    requires Sane(e)
    ensures Sane(r)
  {
    if Selection(e).Some? then CutSelection(e)
    else if WordLeft(e.text, e.at) == e.at then e.(anchor := None)
    else Delete(e, WordLeft(e.text, e.at), e.at)
  }

  function DeleteWordForward(e: Editor): (r: Editor)
    requires Sane(e)
    ensures Sane(r)
  {
    if Selection(e).Some? then CutSelection(e)
    else if WordRight(e.text, e.at) == e.at then e.(anchor := None)
    else Delete(e, e.at, WordRight(e.text, e.at))
  }

  function DeleteSelection(e: Editor): (r: Editor)
    requires Sane(e)
    ensures Sane(r)
  {
    if Selection(e).Some? then CutSelection(e) else e.(anchor := None)
  }

  function Clear(e: Editor): (r: Editor)
    requires Sane(e)
    ensures Sane(r)
  {
    if e.text == [] && e.anchor.None? then e
    else Push(e).(text := [], at := 0, anchor := None, preferred := None, run := None)
  }

  /** Every move ends a run; with `select` the anchor stays or is dropped here. */
  function Move(e: Editor, at: nat, select: bool): (r: Editor)
    requires Sane(e) && at <= |e.text|
    ensures Sane(r)
  {
    e.(anchor := if !select then None else if e.anchor.None? then Some(e.at) else e.anchor, at := at, run := None)
  }

  function Left(e: Editor, select: bool): (r: Editor)
    requires Sane(e)
    ensures Sane(r)
  {
    Move(e.(preferred := None), if e.at > 0 then e.at - 1 else 0, select)
  }

  function Right(e: Editor, select: bool): (r: Editor)
    requires Sane(e)
    ensures Sane(r)
  {
    Move(e.(preferred := None), if e.at < |e.text| then e.at + 1 else e.at, select)
  }

  /** The first offset of the line. */
  function LineStart(text: seq<Unit>, at: nat): (r: nat)
    requires at <= |text|
    ensures r <= at
    ensures forall k :: r <= k < at ==> text[k].Of?
    ensures r > 0 ==> text[r - 1].Break?
  {
    if at > 0 && text[at - 1].Of? then LineStart(text, at - 1) else at
  }

  /** The offset of the break that ends the line, or of the end. */
  function LineEnd(text: seq<Unit>, at: nat): (r: nat)
    requires at <= |text|
    ensures at <= r <= |text|
    ensures forall k :: at <= k < r ==> text[k].Of?
    ensures r < |text| ==> text[r].Break?
    decreases |text| - at
  {
    if at < |text| && text[at].Of? then LineEnd(text, at + 1) else at
  }

  function UnitWidth(u: Unit): nat {
    if u.Break? then 0 else u.cluster.width
  }

  function WidthOf(text: seq<Unit>): nat {
    if text == [] then 0 else WidthOf(text[..|text| - 1]) + UnitWidth(text[|text| - 1])
  }

  /** As far as `room` columns reach, no further than `to`. */
  function Reach(text: seq<Unit>, from: nat, to: nat, room: nat): (r: nat)
    requires from <= to <= |text|
    ensures from <= r <= to
    decreases |text| - from
  {
    if from < to && UnitWidth(text[from]) <= room then Reach(text, from + 1, to, room - UnitWidth(text[from])) else from
  }

  function Preferred(e: Editor): nat
    requires Sane(e)
  {
    if e.preferred.Some? then e.preferred.value else WidthOf(e.text[LineStart(e.text, e.at)..e.at])
  }

  function Up(e: Editor, select: bool): (r: Editor)
    requires Sane(e)
    ensures Sane(r)
  {
    var start := LineStart(e.text, e.at);
    var to := if start == 0 then 0 else Reach(e.text, LineStart(e.text, start - 1), start - 1, Preferred(e));
    Move(e.(preferred := Some(Preferred(e))), to, select)
  }

  function Down(e: Editor, select: bool): (r: Editor)
    requires Sane(e)
    ensures Sane(r)
  {
    var end := LineEnd(e.text, e.at);
    var to := if end == |e.text| then end else Reach(e.text, end + 1, LineEnd(e.text, end + 1), Preferred(e));
    Move(e.(preferred := Some(Preferred(e))), to, select)
  }

  function Home(e: Editor, select: bool): (r: Editor)
    requires Sane(e)
    ensures Sane(r)
  {
    Move(e.(preferred := None), LineStart(e.text, e.at), select)
  }

  function End(e: Editor, select: bool): (r: Editor)
    requires Sane(e)
    ensures Sane(r)
  {
    Move(e.(preferred := None), LineEnd(e.text, e.at), select)
  }

  function MoveWordLeft(e: Editor, select: bool): (r: Editor)
    requires Sane(e)
    ensures Sane(r)
  {
    Move(e.(preferred := None), WordLeft(e.text, e.at), select)
  }

  function MoveWordRight(e: Editor, select: bool): (r: Editor)
    requires Sane(e)
    ensures Sane(r)
  {
    Move(e.(preferred := None), WordRight(e.text, e.at), select)
  }

  /** Back to the newest unit; false when there is none. */
  function Undo(e: Editor): (Editor, bool) {
    if e.undo == [] then (e, false)
    else
      var top := e.undo[|e.undo| - 1];
      (Editor(top.text, top.at, None, None, e.undo[..|e.undo| - 1], None), true)
  }
}
