/**
 What each key does, said of the text and the cursor alone: an edit replaces one
 stretch, a move changes nothing but where the cursor and the anchor are.
 */
module EditorMeaning {
  import opened Prelude
  import opened EditorText
  import opened FlatEditor
  import opened EditorLaws

  // ---------------------------------------------------------------- what goes in

  /** What the character at `k` puts in: the feed of a carriage return that went
      before puts in nothing of its own. */
  function Piece(raw: seq<Raw>, k: nat): seq<Unit>
    requires k < |raw|
  {
    match raw[k]
    case Return => [Break]
    case Feed => if k > 0 && raw[k - 1].Return? then [] else [Break]
    case Tab => seq(4, _ => Of(Cluster(" ", 1, 1, false)))
    case Control => []
    case Plain(c) => [Of(c)]
  }

  function PiecesFrom(raw: seq<Raw>, k: nat): seq<Unit>
    requires k <= |raw|
    decreases |raw| - k
  {
    if k == |raw| then [] else Piece(raw, k) + PiecesFrom(raw, k + 1)
  }

  /** Filtering puts in each character's piece, in order. */
  lemma {:induction false} FilterReads(raw: seq<Raw>)
    ensures Filter(raw) == PiecesFrom(raw, 0)
  {
    FilterFrom(raw, 0);
    assert raw[0..] == raw;
  }

  lemma {:induction false} FilterFrom(raw: seq<Raw>, k: nat)
    requires k <= |raw| && !(0 < k < |raw| && raw[k - 1].Return? && raw[k].Feed?)
    ensures Filter(raw[k..]) == PiecesFrom(raw, k)
    decreases |raw| - k
  {
    hide Filter, PiecesFrom, Piece;
    if k == |raw| {
      NothingIn(raw);
    } else if raw[k].Return? && k + 1 < |raw| && raw[k + 1].Feed? {
      FilterFrom(raw, k + 2);
      PairIn(raw, k);
    } else {
      FilterFrom(raw, k + 1);
      OneIn(raw, k);
    }
  }

  lemma {:induction false} NothingIn(raw: seq<Raw>)
    ensures Filter(raw[|raw|..]) == PiecesFrom(raw, |raw|)
  {
  }

  lemma {:induction false} PairIn(raw: seq<Raw>, k: nat)
    requires k + 1 < |raw| && raw[k].Return? && raw[k + 1].Feed?
    ensures Filter(raw[k..]) == [Break] + Filter(raw[k + 2..])
    ensures PiecesFrom(raw, k) == [Break] + PiecesFrom(raw, k + 2)
  {
    assert raw[k..][2..] == raw[k + 2..];
    hide Filter;
    assert [] + PiecesFrom(raw, k + 2) == PiecesFrom(raw, k + 2);
  }

  lemma {:induction false} OneIn(raw: seq<Raw>, k: nat)
    requires k < |raw| && !(raw[k].Return? && k + 1 < |raw| && raw[k + 1].Feed?)
    requires !(0 < k && raw[k - 1].Return? && raw[k].Feed?)
    ensures Filter(raw[k..]) == Piece(raw, k) + Filter(raw[k + 1..])
    ensures PiecesFrom(raw, k) == Piece(raw, k) + PiecesFrom(raw, k + 1)
  {
    assert raw[k..][1..] == raw[k + 1..];
    assert [] + Filter(raw[k + 1..]) == Filter(raw[k + 1..]);
    hide PiecesFrom;
    assert raw[k].Tab? ==> Piece(raw, k) == [SPACE, SPACE, SPACE, SPACE];
  }

  // ----------------------------------------------------------------------- edits

  predicate Selected(e: Editor) {
    e.anchor.Some? && e.anchor.value != e.at
  }

  /** Where the selection starts and ends; the cursor when there is none. */
  function Low(e: Editor): nat {
    if e.anchor.Some? && e.anchor.value < e.at then e.anchor.value else e.at
  }

  function High(e: Editor): nat {
    if e.anchor.Some? && e.anchor.value > e.at then e.anchor.value else e.at
  }

  /** `r` is `e` with `from..to` replaced: everything before and after stands, the
      cursor comes after what went in, nothing is selected, and a later vertical move
      starts a column of its own. */
  predicate Replaced(e: Editor, r: Editor, from: nat, to: nat, text: seq<Unit>) {
    && from <= to <= |e.text|
    && |r.text| == |e.text| - (to - from) + |text|
    && r.text[..from] == e.text[..from]
    && r.text[from..from + |text|] == text
    && r.text[from + |text|..] == e.text[to..]
    && r.at == from + |text| && r.anchor.None? && r.preferred.None?
  }

  lemma {:induction false} Spliced(e: Editor, r: Editor, from: nat, to: nat, text: seq<Unit>)
    requires from <= to <= |e.text| && r.text == Splice(e.text, from, to, text)
    requires r.at == from + |text| && r.anchor.None? && r.preferred.None?
    ensures Replaced(e, r, from, to, text)
  {
    Thirds(e.text[..from], text, e.text[to..]);
  }

  lemma {:induction false} Thirds(a: seq<Unit>, b: seq<Unit>, c: seq<Unit>)
    ensures var s := a + b + c;
            s[..|a|] == a && s[|a|..|a| + |b|] == b && s[|a| + |b|..] == c
  {
  }

  lemma {:induction false} CutAndIn(text: seq<Unit>, from: nat, to: nat, s: seq<Unit>)
    requires from <= to <= |text|
    ensures Splice(Splice(text, from, to, []), from, from, s) == Splice(text, from, to, s)
    ensures Splice(text, from, from, []) == text
  {
  }

  /** Removing the selection cuts it out; with none, nothing. */
  lemma {:induction false} SelectionCut(e: Editor)
    requires Sane(e)
    ensures Low(e) <= High(e) <= |e.text|
    ensures var r := RemoveSelection(e);
            && r.text == Splice(e.text, Low(e), High(e), []) && r.at == Low(e) && r.anchor.None?
            && r.preferred == e.preferred && r.undo == e.undo && r.run == e.run
    ensures Selection(e).Some? <==> Selected(e)
  {
    hide Splice;
    CutAndIn(e.text, Low(e), High(e), []);
  }

  /** Text typed where the selection was. */
  lemma {:induction false} TypedOver(e: Editor, undo: seq<Snapshot>, text: seq<Unit>)
    requires Sane(e)
    ensures var r := Type(RemoveSelection(e.(undo := undo)), text);
            && Low(e) <= High(e) <= |e.text|
            && r.text == Splice(e.text, Low(e), High(e), text) && r.at == Low(e) + |text| && r.anchor.None?
  {
    hide Splice, RemoveSelection;
    SelectionCut(e.(undo := undo));
    CutAndIn(e.text, Low(e), High(e), text);
  }

  /** An insert replaces the selection with the filtered text; a newline, with a break. */
  lemma {:induction false} InsertsMean(e: Editor, raw: seq<Raw>)
    requires Sane(e)
    ensures var text, r := PiecesFrom(raw, 0), Apply(e, InsertKey(raw));
            if text == [] then r == e
            else Replaced(e, r, Low(e), High(e), text)
                 && r.run == if |text| == 1 && text[0] != Break then Some(InsertRun) else None
    ensures var r := Apply(e, NewlineKey); Replaced(e, r, Low(e), High(e), [Break]) && r.run.None?
  {
    hide Filter, PiecesFrom, Evict, Replaced, Splice, Type, RemoveSelection, Selection, Low, High;
    FilterReads(raw);
    var text := Filter(raw);
    TypedOver(e, e.undo, text);
    TypedOver(e, Push(e).undo, text);
    TypedOver(e, Push(e).undo, [Break]);
    assert e.(undo := e.undo) == e;
    if text != [] { Spliced(e, Apply(e, InsertKey(raw)), Low(e), High(e), text); }
    Spliced(e, Apply(e, NewlineKey), Low(e), High(e), [Break]);
  }

  /** What a deleting key removes: the selection when there is one, else the stretch
      the key is for; and nothing at all when that is empty. */
  predicate Removes(e: Editor, r: Editor, from: nat, to: nat) {
    if Selected(e) then Replaced(e, r, Low(e), High(e), []) && r.run.None?
    else if from == to then r == e.(anchor := None)
    else Replaced(e, r, from, to, [])
  }

  lemma {:induction false} CutMeans(e: Editor)
    requires Sane(e)
    ensures Selection(e).Some? <==> Selected(e)
    ensures Replaced(e, CutSelection(e), Low(e), High(e), []) && CutSelection(e).run.None?
  {
    hide RemoveSelection, Evict, Splice, Replaced;
    SelectionCut(e);
    SelectionCut(Push(e));
    Spliced(e, CutSelection(e), Low(e), High(e), []);
  }

  lemma {:induction false} DeleteMeans(e: Editor, from: nat, to: nat)
    requires Sane(e) && from <= to <= |e.text|
    ensures Replaced(e, Delete(e, from, to), from, to, []) && Delete(e, from, to).run.None?
  {
    hide Evict, Splice, Replaced;
    Spliced(e, Delete(e, from, to), from, to, []);
  }

  /** Backspace removes the unit before the cursor, and runs on. */
  lemma {:induction false} BackspaceMeans(e: Editor)
    requires Sane(e)
    ensures Removes(e, Apply(e, BackspaceKey), Less(e.at, 1), e.at)
    ensures !Selected(e) && e.at > 0 ==> Apply(e, BackspaceKey).run == Some(BackspaceRun)
  {
    hide Evict, Splice, Replaced, CutSelection, Selection, Low, High;
    CutMeans(e);
    if e.at > 0 && !Selected(e) { Spliced(e, Backspace(e), e.at - 1, e.at, []); }
  }

  /** The other deleting keys: the unit after the cursor, back to the start of a word
      or on to the end of one, the selection alone, everything; each ends a run. */
  lemma {:induction false} DeletesMean(e: Editor)
    requires Sane(e)
    ensures Removes(e, Apply(e, ForwardKey), e.at, if e.at < |e.text| then e.at + 1 else e.at)
    ensures Removes(e, Apply(e, WordBackKey), WordLeft(e.text, e.at), e.at)
    ensures Removes(e, Apply(e, WordForwardKey), e.at, WordRight(e.text, e.at))
    ensures Removes(e, Apply(e, CutKey), e.at, e.at)
    ensures !Selected(e) && e.at < |e.text| ==> Apply(e, ForwardKey).run.None?
    ensures !Selected(e) && WordLeft(e.text, e.at) < e.at ==> Apply(e, WordBackKey).run.None?
    ensures !Selected(e) && WordRight(e.text, e.at) > e.at ==> Apply(e, WordForwardKey).run.None?
    ensures var r := Apply(e, ClearKey);
            if e.text == [] && e.anchor.None? then r == e
            else r.text == [] && r.at == 0 && r.anchor.None? && r.preferred.None? && r.run.None?
  {
    hide WordLeft, WordRight, Replaced, CutSelection, Selection, Delete, Low, High;
    CutMeans(e);
    if e.at < |e.text| { DeleteMeans(e, e.at, e.at + 1); }
    DeleteMeans(e, WordLeft(e.text, e.at), e.at);
    DeleteMeans(e, e.at, WordRight(e.text, e.at));
  }

  // ----------------------------------------------------------------------- moves

  /** `start` is where the line of `at` starts, `end` where it ends. */
  predicate StartsLine(text: seq<Unit>, start: nat, at: nat) {
    && start <= at <= |text|
    && (forall k :: start <= k < at ==> text[k] != Break)
    && (start > 0 ==> text[start - 1] == Break)
  }

  predicate EndsLine(text: seq<Unit>, at: nat, end: nat) {
    && at <= end <= |text|
    && (forall k :: at <= k < end ==> text[k] != Break)
    && (end < |text| ==> text[end] == Break)
  }

  /** A move keeps the text and the undo stack and ends a run. Extending a selection
      keeps its anchor, or drops one where the cursor was; a plain move drops the
      selection. */
  predicate Moved(e: Editor, r: Editor, select: bool) {
    && r.text == e.text && r.undo == e.undo && r.run.None? && r.at <= |e.text|
    && (select ==> r.anchor == Some(if e.anchor.Some? then e.anchor.value else e.at))
    && (!select ==> r.anchor.None?)
  }

  lemma {:induction false} MoveMeans(e: Editor, preferred: Option<nat>, at: nat, select: bool)
    requires Sane(e) && at <= |e.text|
    ensures var r := Move(e.(preferred := preferred), at, select);
            Moved(e, r, select) && r.preferred == preferred && r.at == at
  {
  }

  lemma {:induction false} LinesMean(text: seq<Unit>, at: nat)
    requires at <= |text|
    ensures StartsLine(text, LineStart(text, at), at) && EndsLine(text, at, LineEnd(text, at))
  {
  }

  /** Where each move goes. */
  lemma {:induction false} StepsMean(e: Editor, select: bool)
    requires Sane(e)
    ensures var r := Apply(e, LeftKey(select)); Moved(e, r, select) && r.preferred.None? && r.at == Less(e.at, 1)
    ensures var r := Apply(e, RightKey(select));
            Moved(e, r, select) && r.preferred.None? && r.at == if e.at == |e.text| then e.at else e.at + 1
  {
    hide Move, Moved;
    MoveMeans(e, None, Less(e.at, 1), select);
    MoveMeans(e, None, if e.at == |e.text| then e.at else e.at + 1, select);
  }

  lemma {:induction false} LineMovesMean(e: Editor, select: bool)
    requires Sane(e)
    ensures var r := Apply(e, HomeKey(select)); Moved(e, r, select) && r.preferred.None? && StartsLine(e.text, r.at, e.at)
    ensures var r := Apply(e, EndKey(select)); Moved(e, r, select) && r.preferred.None? && EndsLine(e.text, e.at, r.at)
  {
    hide LineStart, LineEnd, Move, Moved, StartsLine, EndsLine;
    LinesMean(e.text, e.at);
    MoveMeans(e, None, LineStart(e.text, e.at), select);
    MoveMeans(e, None, LineEnd(e.text, e.at), select);
  }

  lemma {:induction false} WordMovesMean(e: Editor, select: bool)
    requires Sane(e)
    ensures var r := Apply(e, WordLeftKey(select)); Moved(e, r, select) && r.preferred.None? && r.at == WordLeft(e.text, e.at)
    ensures var r := Apply(e, WordRightKey(select)); Moved(e, r, select) && r.preferred.None? && r.at == WordRight(e.text, e.at)
  {
    hide WordLeft, WordRight, Move, Moved;
    MoveMeans(e, None, WordLeft(e.text, e.at), select);
    MoveMeans(e, None, WordRight(e.text, e.at), select);
  }

  /** Vertical moves are moves; the column they aim for is set by the first of a
      series, from where the cursor stands on its line, and kept by the others. */
  lemma {:induction false} VerticalMeans(e: Editor, start: nat, select: bool)
    requires Sane(e) && StartsLine(e.text, start, e.at)
    ensures Moved(e, Apply(e, UpKey(select)), select) && Moved(e, Apply(e, DownKey(select)), select)
    ensures var column := if e.preferred.Some? then e.preferred.value else WidthOf(e.text[start..e.at]);
            Apply(e, UpKey(select)).preferred == Apply(e, DownKey(select)).preferred == Some(column)
  {
    hide Reach, WidthOf, Move, Moved, LineStart, LineEnd;
    LineStarts(e.text, start, e.at);
    Aimed(e, select);
    MoveMeans(e, Some(Preferred(e)), Up(e, select).at, select);
    MoveMeans(e, Some(Preferred(e)), Down(e, select).at, select);
  }

  lemma {:induction false} Aimed(e: Editor, select: bool)
    requires Sane(e)
    ensures Up(e, select).at <= |e.text| && Down(e, select).at <= |e.text|
    ensures Up(e, select) == Move(e.(preferred := Some(Preferred(e))), Up(e, select).at, select)
    ensures Down(e, select) == Move(e.(preferred := Some(Preferred(e))), Down(e, select).at, select)
  {
    hide Reach, Preferred, LineStart, LineEnd;
  }

  lemma {:induction false} LineStarts(text: seq<Unit>, start: nat, at: nat)
    requires StartsLine(text, start, at)
    ensures LineStart(text, at) == start
    decreases at
  {
    if start < at { LineStarts(text, start, at - 1); }
  }
}
