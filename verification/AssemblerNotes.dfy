/**
 The rest of what a stream says: what is warned of, how opaque values merge, which
 ids are made up, and how the turn is judged.
 */
module AssemblerNotes {
  import opened Prelude
  import opened Contract
  import opened StableSort
  import opened Assembler
  import opened Arguments
  import opened AssemblerLaws

  // -------------------------------------------------------------------- warnings

  /** What one chunk is warned of, given what came before it. */
  ghost function NoteOf(parse: Parser, before: seq<StreamChunk>, chunk: StreamChunk): seq<Warning> {
    match chunk
    case ToolCallStart(i, _, _) =>
      if LaneRun(parse, Project(before, i)).partial.Some? then [IndexReused(i)] else []
    case ToolArgsDelta(i, _) =>
      if LaneRun(parse, Project(before, i)).partial.None? then [FragmentWithoutStart(i)] else []
    case ToolCallEnd(i) =>
      (match LaneRun(parse, Project(before, i)).partial
       case None => [EndWithoutStart(i)]
       case Some(p) => if Meaning(parse, p.args).None? then [Malformed(p.id)] else [])
    case _ => []
  }

  ghost function Notes(parse: Parser, chunks: seq<StreamChunk>): seq<Warning> {
    if chunks == [] then []
    else
      var init, last := chunks[..|chunks| - 1], chunks[|chunks| - 1];
      Notes(parse, init) + NoteOf(parse, init, last)
  }

  lemma {:induction false} PushNotes(parse: Parser, before: seq<StreamChunk>, chunk: StreamChunk)
    ensures Push(parse, Assemble(parse, before), chunk).warnings == Assemble(parse, before).warnings + NoteOf(parse, before, chunk)
  {
    hide SynthesizedId, Meaning, Assemble, LaneRun, Project, SealCall, MergeOpaque, Keyed;
    var t := Assemble(parse, before);
    assert t.warnings + [] == t.warnings;
    match chunk
    case ToolCallStart(i, _, _) => LaneFollows(parse, before, i);
    case ToolArgsDelta(i, _) => LaneFollows(parse, before, i);
    case ToolCallEnd(i) =>
      LaneFollows(parse, before, i);
      if i in t.partials { SealedOrQuarantined(parse, t.(partials := t.partials - {i}), i, t.partials[i]); }
    case _ =>
  }

  /** The warnings of a stream are exactly those, in stream order. */
  lemma {:induction false} WarningsAre(parse: Parser, chunks: seq<StreamChunk>)
    ensures Assemble(parse, chunks).warnings == Notes(parse, chunks)
    decreases |chunks|
  {
    hide Push, NoteOf;
    if chunks != [] {
      var init := chunks[..|chunks| - 1];
      WarningsAre(parse, init);
      PushNotes(parse, init, chunks[|chunks| - 1]);
    }
  }

  // ------------------------------------------------------------------- the outcome

  /** A turn with neither text nor call is empty, unless it reasoned within its length;
      any other is truncated while a call is open or the terminal chunk is missing. */
  lemma {:induction false} OutcomeIs(parse: Parser, chunks: seq<StreamChunk>)
    ensures var turn := Complete(Assemble(parse, chunks));
            var silent := TextOf(chunks) == "" && forall i: nat :: LaneRun(parse, Project(chunks, i)).done == [];
            var open := exists i: nat :: LaneRun(parse, Project(chunks, i)).partial.Some?;
            && turn.outcome == (if silent && (ReasoningOf(chunks) == "" || LastFinish(chunks) == Some(Length)) then Empty
                                else if open || LastFinish(chunks).None? then Truncated
                                else Content)
            && turn.finish == (if LastFinish(chunks).Some? then LastFinish(chunks).value else Stop)
            && turn.message.role == Assistant && turn.message.opaqueValue == MergeAll(OpaqueOf(chunks))
  {
    hide Assemble, LaneRun, Project, ContentOf, QuarantineOf, OpenKeys, MergeAll;
    FieldsFollow(parse, chunks);
    LanesSay(parse, chunks);
  }

  lemma {:induction false} LanesSay(parse: Parser, chunks: seq<StreamChunk>)
    ensures var t := Assemble(parse, chunks);
            && (t.completed == [] <==> forall i: nat :: LaneRun(parse, Project(chunks, i)).done == [])
            && (t.partials != map[] <==> exists i: nat :: LaneRun(parse, Project(chunks, i)).partial.Some?)
  {
    hide Assemble, LaneRun, Project, Keyed;
    var t := Assemble(parse, chunks);
    forall i: nat
      ensures LaneRun(parse, Project(chunks, i)).partial.Some? <==> i in t.partials
      ensures LaneRun(parse, Project(chunks, i)).done == Keyed(t.completed, i)
    {
      LaneFollows(parse, chunks, i);
    }
    forall i: nat | t.completed == [] ensures Keyed(t.completed, i) == [] { KeyedEmpty(t.completed, i); }
    if t.completed != [] {
      KeyedEmpty(t.completed, t.completed[0].0);
      assert LaneRun(parse, Project(chunks, t.completed[0].0)).done != [];
    }
    if t.partials != map[] {
      var k :| k in t.partials;
      assert LaneRun(parse, Project(chunks, k)).partial.Some?;
    }
  }

  // ----------------------------------------------------------------- opaque values

  /** From the last value that is no object on, later entries of a key win. */
  ghost predicate MergesTo(values: seq<Value>, v: Value) {
    values != [] &&
    if !values[|values| - 1].Object? then v == values[|values| - 1]
    else
      && v.Object?
      && forall key :: (key in v.fields <==> LastWith(values, key).Some?)
                       && (key in v.fields ==> Some(v.fields[key]) == LastWith(values, key))
  }

  /** The newest entry of a key among the objects at the end. */
  function LastWith(values: seq<Value>, key: string): Option<Value> {
    if values == [] || !values[|values| - 1].Object? then None
    else
      var last := values[|values| - 1];
      if key in last.fields then Some(last.fields[key]) else LastWith(values[..|values| - 1], key)
  }

  lemma {:induction false} OpaqueMerges(values: seq<Value>)
    ensures values == [] <==> MergeAll(values).None?
    ensures values != [] ==> MergesTo(values, MergeAll(values).value)
    decreases |values|
  {
    if values != [] {
      var init, last := values[..|values| - 1], values[|values| - 1];
      OpaqueMerges(init);
      if last.Object? && (init == [] || !init[|init| - 1].Object?) {
        assert forall key :: LastWith(init, key) == None;
      }
    }
  }

  // --------------------------------------------------------------- made-up ids

  predicate Digits(s: string) {
    forall i :: 0 <= i < |s| ==> '0' <= s[i] <= '9'
  }

  /** The number a row of digits stands for. */
  function Reads(s: string): nat
    requires Digits(s)
  {
    if s == "" then 0 else 10 * Reads(s[..|s| - 1]) + (s[|s| - 1] as nat - '0' as nat)
  }

  lemma {:induction false} DigitAt(d: nat)
    requires d < 10
    ensures var c := "0123456789"[d]; '0' <= c <= '9' && c as nat - '0' as nat == d
  {
  }

  lemma {:induction false} DecimalEnds(n: nat)
    ensures var head := if n < 10 then "" else Decimal(n / 10);
            && |Decimal(n)| == |head| + 1 && Decimal(n)[..|head|] == head
            && '0' <= Decimal(n)[|head|] <= '9' && Decimal(n)[|head|] as nat - '0' as nat == n % 10
  {
    DigitAt(n % 10);
  }

  lemma {:induction false} DecimalReads(n: nat)
    ensures Digits(Decimal(n)) && Decimal(n) != "" && Reads(Decimal(n)) == n
    ensures n > 0 ==> Decimal(n)[0] != '0'
  {
    hide Decimal;
    DecimalEnds(n);
    var s := Decimal(n);
    if n < 10 {
      assert s[..0] == "" && n % 10 == n;
    } else {
      DecimalReads(n / 10);
      assert s[..|s| - 1] == Decimal(n / 10) && s[0] == s[..|s| - 1][0];
      assert forall i :: 0 <= i < |s| - 1 ==> s[i] == s[..|s| - 1][i];
      assert n == 10 * (n / 10) + n % 10;
    }
  }

  /** A call without a start is called by its index, and no two the same. */
  lemma {:induction false} MadeUpIds(i: nat, j: nat)
    ensures SynthesizedId(i) == "call_" + Decimal(i)
    ensures Digits(Decimal(i)) && Reads(Decimal(i)) == i
    ensures SynthesizedId(i) == SynthesizedId(j) ==> i == j
  {
    hide Decimal, Reads;
    DecimalReads(i);
    DecimalReads(j);
    if SynthesizedId(i) == SynthesizedId(j) {
      assert SynthesizedId(i)[5..] == Decimal(i) && SynthesizedId(j)[5..] == Decimal(j);
    }
  }
}
