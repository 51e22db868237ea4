/**
 Lines and flat text: the buffer is a list of lines, the text is the lines joined
 by breaks, and positions and offsets name the same places.
 */
module EditorText {
  import opened Prelude

  /** An indivisible unit of text: its size in bytes, its display width, and whether
      it belongs to words. */
  datatype Cluster = Cluster(text: string, bytes: nat, width: nat, word: bool)

  datatype Unit = Break | Of(cluster: Cluster)

  type Line = seq<Cluster>

  /** A place in the buffer: line, and units before it on that line. */
  datatype Pos = Pos(line: nat, column: nat)

  function Units(line: Line): (r: seq<Unit>)
    ensures |r| == |line| && forall i :: 0 <= i < |line| ==> r[i] == Of(line[i])
  {
    seq(|line|, i requires 0 <= i < |line| => Of(line[i]))
  }

  lemma {:induction false} UnitsConcat(a: Line, b: Line)
    ensures Units(a + b) == Units(a) + Units(b)
  {
  }

  /** Lines that follow another one: each after its break. */
  function After(lines: seq<Line>): seq<Unit> {
    if lines == [] then [] else [Break] + Units(lines[0]) + After(lines[1..])
  }

  /** Lines that precede another one: each with its break. */
  function Before(lines: seq<Line>): seq<Unit> {
    if lines == [] then [] else Before(lines[..|lines| - 1]) + Units(lines[|lines| - 1]) + [Break]
  }

  /** The whole text. */
  function Join(lines: seq<Line>): seq<Unit>
    requires lines != []
  {
    Units(lines[0]) + After(lines[1..])
  }

  predicate ValidPos(lines: seq<Line>, p: Pos) {
    p.line < |lines| && p.column <= |lines[p.line]|
  }

  /** The flat offset: every earlier line with its break, then the column. */
  function Offset(lines: seq<Line>, p: Pos): nat
    requires ValidPos(lines, p)
  {
    |Before(lines[..p.line])| + p.column
  }

  lemma {:induction false} AfterCons(first: Line, rest: seq<Line>)
    ensures After([first] + rest) == ([Break] + Units(first)) + After(rest)
  {
    hide Units;
    assert ([first] + rest)[1..] == rest;
  }

  lemma {:induction false} NothingAfter()
    ensures After([]) == []
  {
  }

  lemma {:induction false} AfterConcat(a: seq<Line>, b: seq<Line>)
    ensures After(a + b) == After(a) + After(b)
    decreases |a|
  {
    hide After, Units;
    if a == [] {
      NothingAfter();
      assert a + b == b && [] + After(b) == After(b);
    } else {
      var first, rest := a[0], a[1..];
      AfterConcat(rest, b);
      assert a + b == [first] + (rest + b) && a == [first] + rest;
      AfterCons(first, rest + b);
      AfterCons(first, rest);
      ConcatAssoc([Break] + Units(first), After(rest), After(b));
    }
  }

  lemma {:induction false} JoinPair(m: seq<Line>, b: seq<Line>)
    requires m != []
    ensures Join(m + b) == Join(m) + After(b)
  {
    hide Units, After;
    AfterConcat(m[1..], b);
    assert (m + b)[1..] == m[1..] + b;
    ConcatAssoc(Units(m[0]), After(m[1..]), After(b));
  }

  lemma {:induction false} JoinCons(line: Line, m: seq<Line>)
    requires m != []
    ensures Join([line] + m) == Units(line) + [Break] + Join(m)
  {
    hide Units;
    assert ([line] + m)[1..] == m;
    ConcatAssoc([Break], Units(m[0]), After(m[1..]));
    ConcatAssoc(Units(line), [Break], Join(m));
  }

  lemma {:induction false} JoinOne(line: Line)
    ensures Join([line]) == Units(line)
  {
    assert [line][1..] == [] && Units(line) + [] == Units(line);
  }

  /** Joining a run of lines with what surrounds it. */
  lemma {:induction false} JoinThree(a: seq<Line>, m: seq<Line>, b: seq<Line>)
    requires m != []
    ensures Join(a + m + b) == Before(a) + Join(m) + After(b)
    decreases |a|
  {
    hide Units, After, Join;
    if a == [] {
      assert a + m + b == m + b && [] + Join(m) == Join(m);
      JoinPair(m, b);
    } else {
      var init, last := a[..|a| - 1], a[|a| - 1];
      JoinThree(init, [last] + m, b);
      assert init + ([last] + m) + b == a + m + b;
      JoinCons(last, m);
      ConcatAssoc(Before(init), Units(last) + [Break], Join(m));
      ConcatAssoc(Before(init), Units(last), [Break]);
    }
  }

  /** A line in its text. */
  lemma {:induction false} JoinAt(lines: seq<Line>, l: nat)
    requires l < |lines|
    ensures Join(lines) == Before(lines[..l]) + Units(lines[l]) + After(lines[l + 1..])
  {
    hide Units, After, Join, Before;
    JoinThree(lines[..l], [lines[l]], lines[l + 1..]);
    assert lines[..l] + [lines[l]] + lines[l + 1..] == lines;
    JoinOne(lines[l]);
  }

  /** Splitting the text at a position. */
  lemma {:induction false} JoinSplit(lines: seq<Line>, p: Pos)
    requires ValidPos(lines, p)
    ensures Offset(lines, p) <= |Join(lines)|
    ensures Join(lines)[..Offset(lines, p)] == Before(lines[..p.line]) + Units(lines[p.line][..p.column])
    ensures Join(lines)[Offset(lines, p)..] == Units(lines[p.line][p.column..]) + After(lines[p.line + 1..])
  {
    hide Join, Before, After, Units;
    var line := lines[p.line];
    var before, head, tail, after := Before(lines[..p.line]), Units(line[..p.column]), Units(line[p.column..]), After(lines[p.line + 1..]);
    JoinAt(lines, p.line);
    UnitsConcat(line[..p.column], line[p.column..]);
    assert line[..p.column] + line[p.column..] == line;
    Regrouped(before, head, tail, after);
    SplitTwo(before + head, tail + after);
  }

  lemma {:induction false} Regrouped(a: seq<Unit>, b: seq<Unit>, c: seq<Unit>, d: seq<Unit>)
    ensures a + (b + c) + d == (a + b) + (c + d)
  {
  }

  lemma {:induction false} SplitTwo(a: seq<Unit>, b: seq<Unit>)
    ensures (a + b)[..|a|] == a && (a + b)[|a|..] == b
  {
  }

  lemma {:induction false} BeforeSnoc(lines: seq<Line>, l: nat)
    requires l < |lines|
    ensures Before(lines[..l + 1]) == Before(lines[..l]) + Units(lines[l]) + [Break]
  {
    assert lines[..l + 1][..l] == lines[..l];
  }

  /** Later lines lie further on. */
  lemma {:induction false} BeforeGrows(lines: seq<Line>, l: nat, m: nat)
    requires l < m <= |lines|
    ensures |Before(lines[..l])| + |lines[l]| < |Before(lines[..m])|
    decreases m
  {
    BeforeSnoc(lines, m - 1);
    if l < m - 1 { BeforeGrows(lines, l, m - 1); }
  }

  predicate Precedes(p: Pos, q: Pos) {
    p.line < q.line || (p.line == q.line && p.column < q.column)
  }

  /** Positions are ordered as their offsets. */
  lemma {:induction false} OffsetOrder(lines: seq<Line>, p: Pos, q: Pos)
    requires ValidPos(lines, p) && ValidPos(lines, q)
    ensures Precedes(p, q) <==> Offset(lines, p) < Offset(lines, q)
    ensures p == q <==> Offset(lines, p) == Offset(lines, q)
  {
    if p.line < q.line { BeforeGrows(lines, p.line, q.line); }
    if q.line < p.line { BeforeGrows(lines, q.line, p.line); }
  }

  /** The position of an offset: whole lines are walked past from the top. */
  function PosOf(lines: seq<Line>, offset: nat): Pos
    requires lines != []
  {
    PosFrom(lines, 0, offset)
  }

  function PosFrom(lines: seq<Line>, l: nat, rest: nat): Pos
    requires l < |lines|
    decreases |lines| - l
  {
    if rest <= |lines[l]| then Pos(l, rest)
    else if l + 1 == |lines| then Pos(l, |lines[l]|)
    else PosFrom(lines, l + 1, rest - |lines[l]| - 1)
  }

  lemma {:induction false} PosFromInverts(lines: seq<Line>, l: nat, rest: nat)
    requires l < |lines| && |Before(lines[..l])| + rest <= |Join(lines)|
    ensures ValidPos(lines, PosFrom(lines, l, rest)) && Offset(lines, PosFrom(lines, l, rest)) == |Before(lines[..l])| + rest
    decreases |lines| - l
  {
    if rest > |lines[l]| {
      if l + 1 == |lines| {
        JoinAt(lines, l);
      } else {
        BeforeSnoc(lines, l);
        PosFromInverts(lines, l + 1, rest - |lines[l]| - 1);
      }
    }
  }

  /** Offsets and positions invert each other. */
  lemma {:induction false} PosInverts(lines: seq<Line>, offset: nat)
    requires lines != [] && offset <= |Join(lines)|
    ensures ValidPos(lines, PosOf(lines, offset)) && Offset(lines, PosOf(lines, offset)) == offset
  {
    PosFromInverts(lines, 0, offset);
    assert lines[..0] == [];
  }

  lemma {:induction false} OffsetInverts(lines: seq<Line>, p: Pos)
    requires ValidPos(lines, p)
    ensures PosOf(lines, Offset(lines, p)) == p
  {
    JoinSplit(lines, p);
    PosInverts(lines, Offset(lines, p));
    OffsetOrder(lines, p, PosOf(lines, Offset(lines, p)));
  }

  // ----------------------------------------------------------------- two splices

  function Splice(text: seq<Unit>, a: nat, b: nat, s: seq<Unit>): (r: seq<Unit>)
    requires a <= b <= |text|
    ensures |r| == |text| - (b - a) + |s|
  {
    text[..a] + s + text[b..]
  }

  /** Removes `from..to`: what is left of the two ends becomes one line. */
  function Cut(lines: seq<Line>, from: Pos, to: Pos): seq<Line>
    requires ValidPos(lines, from) && ValidPos(lines, to) && !Precedes(to, from)
  {
    lines[..from.line] + [lines[from.line][..from.column] + lines[to.line][to.column..]] + lines[to.line + 1..]
  }

  lemma {:induction false} Regroup<T>(a: seq<T>, h: seq<T>, x: seq<T>, t: seq<T>, b: seq<T>)
    ensures a + (h + x + t) + b == (a + h) + x + (t + b)
  {
  }

  lemma {:induction false} CutSplices(lines: seq<Line>, from: Pos, to: Pos)
    requires ValidPos(lines, from) && ValidPos(lines, to) && !Precedes(to, from)
    ensures Offset(lines, from) <= Offset(lines, to) <= |Join(lines)|
    ensures Join(Cut(lines, from, to)) == Splice(Join(lines), Offset(lines, from), Offset(lines, to), [])
    ensures ValidPos(Cut(lines, from, to), from) && Offset(Cut(lines, from, to), from) == Offset(lines, from)
  {
    hide Units, After, Join, Before, Precedes;
    JoinSplit(lines, from);
    JoinSplit(lines, to);
    OffsetOrder(lines, to, from);
    var head, tail := lines[from.line][..from.column], lines[to.line][to.column..];
    CutJoins(lines[..from.line], head, tail, lines[to.line + 1..]);
    CutLine(lines, from, to);
  }

  lemma {:induction false} CutJoins(a: seq<Line>, head: Line, tail: Line, b: seq<Line>)
    ensures Join(a + [head + tail] + b) == (Before(a) + Units(head)) + [] + (Units(tail) + After(b))
  {
    hide Units, After, Join, Before;
    JoinThree(a, [head + tail], b);
    UnitsConcat(head, tail);
    JoinOne(head + tail);
    assert Units(head) + [] + Units(tail) == Units(head) + Units(tail);
    Regroup(Before(a), Units(head), [], Units(tail), After(b));
  }

  lemma {:induction false} CutLine(lines: seq<Line>, from: Pos, to: Pos)
    requires ValidPos(lines, from) && ValidPos(lines, to) && !Precedes(to, from)
    ensures ValidPos(Cut(lines, from, to), from) && Offset(Cut(lines, from, to), from) == Offset(lines, from)
  {
    hide Units, After, Join, Before;
    assert Cut(lines, from, to)[..from.line] == lines[..from.line];
  }

  /** The lines of a text. */
  function Parts(text: seq<Unit>): (r: seq<Line>)
    ensures r != []
  {
    if text == [] then [[]]
    else
      var init := Parts(text[..|text| - 1]);
      if text[|text| - 1].Break? then init + [[]]
      else init[|init| - 1 := init[|init| - 1] + [text[|text| - 1].cluster]]
  }

  /** Appending to the last line of a text. */
  lemma {:induction false} JoinLast(lines: seq<Line>, last: seq<Line>)
    requires lines != [] && last != []
    ensures var n := |lines| - 1; Join(lines[..n] + last) == Before(lines[..n]) + Join(last)
  {
    hide Units, Join, Before;
    var n := |lines| - 1;
    JoinThree(lines[..n], last, []);
    assert lines[..n] + last + [] == lines[..n] + last;
    assert After([]) == [] && Before(lines[..n]) + Join(last) + [] == Before(lines[..n]) + Join(last);
  }

  lemma {:induction false} PartsJoin(text: seq<Unit>)
    ensures Join(Parts(text)) == text
    decreases |text|
  {
    if text == [] {
      JoinOne([]);
    } else {
      var n := |text| - 1;
      var init := Parts(text[..n]);
      PartsJoin(text[..n]);
      NextPart(init, text[n]);
      assert text == text[..n] + [text[n]];
    }
  }

  lemma {:induction false} NextPart(init: seq<Line>, u: Unit)
    requires init != []
    ensures var next := if u.Break? then init + [[]] else init[|init| - 1 := init[|init| - 1] + [u.cluster]];
            Join(next) == Join(init) + [u]
  {
    var m := |init| - 1;
    var last := init[m];
    JoinLast(init, [last]);
    assert init[..m] + [last] == init;
    JoinOne(last);
    if u.Break? {
      JoinLast(init, [last, []]);
      assert init[..m] + [last, []] == init + [[]];
      JoinCons(last, [[]]);
      JoinOne([]);
      assert [last] + [[]] == [last, []];
      hide Units, Join, Before;
      assert Units(last) + [Break] + [] == Units(last) + [Break];
      ConcatAssoc(Before(init[..m]), Units(last), [Break]);
    } else {
      var grown := last + [u.cluster];
      JoinLast(init, [grown]);
      assert init[..m] + [grown] == init[m := grown];
      JoinOne(grown);
      assert Units(grown) == Units(last) + [u];
      hide Units, Join, Before;
      ConcatAssoc(Before(init[..m]), Units(last), [u]);
    }
  }

  /** Parts put in at a position: the first extends the line's head, the last takes
      its tail. */
  function Embedded(head: Line, parts: seq<Line>, tail: Line): (r: seq<Line>)
    requires parts != []
    ensures |r| == |parts|
  {
    var first := parts[0 := head + parts[0]];
    first[|first| - 1 := first[|first| - 1] + tail]
  }

  function Inserted(lines: seq<Line>, at: Pos, text: seq<Unit>): seq<Line>
    requires ValidPos(lines, at)
  {
    lines[..at.line] + Embedded(lines[at.line][..at.column], Parts(text), lines[at.line][at.column..]) + lines[at.line + 1..]
  }

  /** Where the cursor lands: after the inserted text. */
  function Landing(at: Pos, text: seq<Unit>): Pos {
    var parts := Parts(text);
    var n := |parts| - 1;
    if n == 0 then Pos(at.line, at.column + |parts[0]|) else Pos(at.line + n, |parts[n]|)
  }

  lemma {:induction false} EmbeddedJoin(head: Line, parts: seq<Line>, tail: Line)
    requires parts != []
    ensures Join(Embedded(head, parts, tail)) == Units(head) + Join(parts) + Units(tail)
    ensures |Before(Embedded(head, parts, tail)[..|parts| - 1])| + (if |parts| == 1 then |head| + |parts[0]| else |parts[|parts| - 1]|)
         == |head| + |Join(parts)|
  {
    var n := |parts| - 1;
    var e := Embedded(head, parts, tail);
    var first := parts[0 := head + parts[0]];
    FirstGrown(head, parts);
    UnitsConcat(first[n], tail);
    JoinLast(first, [first[n]]);
    JoinLast(e, [e[n]]);
    JoinOne(first[n]);
    JoinOne(e[n]);
    hide Units, Join, Before;
    assert first[..n] + [first[n]] == first && e[..n] + [e[n]] == e && e[..n] == first[..n];
    ConcatAssoc(Before(e[..n]), Units(first[n]), Units(tail));
  }

  lemma {:induction false} FirstGrown(head: Line, parts: seq<Line>)
    requires parts != []
    ensures Join(parts[0 := head + parts[0]]) == Units(head) + Join(parts)
  {
    hide Units, After;
    var first := parts[0 := head + parts[0]];
    UnitsConcat(head, parts[0]);
    assert first[1..] == parts[1..];
    ConcatAssoc(Units(head), Units(parts[0]), After(parts[1..]));
  }

  lemma {:induction false} InsertSplices(lines: seq<Line>, at: Pos, text: seq<Unit>)
    requires ValidPos(lines, at)
    ensures Offset(lines, at) <= |Join(lines)|
    ensures Join(Inserted(lines, at, text)) == Splice(Join(lines), Offset(lines, at), Offset(lines, at), text)
    ensures ValidPos(Inserted(lines, at, text), Landing(at, text))
    ensures Offset(Inserted(lines, at, text), Landing(at, text)) == Offset(lines, at) + |text|
  {
    hide Units, After, Join, Before, Embedded, Parts, Landing;
    JoinSplit(lines, at);
    PartsJoin(text);
    var head, tail, parts := lines[at.line][..at.column], lines[at.line][at.column..], Parts(text);
    EmbeddedJoin(head, parts, tail);
    var e := Embedded(head, parts, tail);
    JoinThree(lines[..at.line], e, lines[at.line + 1..]);
    LandingOffset(lines, at, text, e);
    Regroup(Before(lines[..at.line]), Units(head), text, Units(tail), After(lines[at.line + 1..]));
  }

  lemma {:induction false} LandingOffset(lines: seq<Line>, at: Pos, text: seq<Unit>, e: seq<Line>)
    requires ValidPos(lines, at) && e == Embedded(lines[at.line][..at.column], Parts(text), lines[at.line][at.column..])
    requires |Before(e[..|e| - 1])| + (if |e| == 1 then at.column + |Parts(text)[0]| else |Parts(text)[|e| - 1]|) == at.column + |text|
    ensures ValidPos(Inserted(lines, at, text), Landing(at, text))
    ensures Offset(Inserted(lines, at, text), Landing(at, text)) == Offset(lines, at) + |text|
  {
    var n := |e| - 1;
    var all := Inserted(lines, at, text);
    assert all[..at.line + n] == lines[..at.line] + e[..n];
    assert all[at.line + n] == e[n];
    BeforeConcat(lines[..at.line], e[..n]);
  }

  lemma {:induction false} BeforeConcat(a: seq<Line>, b: seq<Line>)
    ensures Before(a + b) == Before(a) + Before(b)
    decreases |b|
  {
    hide Before, Units;
    if b == [] {
      NothingBefore();
      assert a + b == a && Before(a) + [] == Before(a);
    } else {
      var init, last := b[..|b| - 1], b[|b| - 1];
      BeforeConcat(a, init);
      assert a + b == (a + init) + [last] && b == init + [last];
      BeforeLast(a + init, last);
      BeforeLast(init, last);
      ConcatAssoc(Before(a), Before(init), Units(last) + [Break]);
    }
  }

  lemma {:induction false} NothingBefore()
    ensures Before([]) == []
  {
  }

  lemma {:induction false} BeforeLast(init: seq<Line>, last: Line)
    ensures Before(init + [last]) == Before(init) + (Units(last) + [Break])
  {
    hide Units;
    assert (init + [last])[..|init|] == init;
    ConcatAssoc(Before(init), Units(last), [Break]);
  }

  // ------------------------------------------------------------------ input filter

  /** Raw input: line endings, tabs, other controls, and text. */
  datatype Raw = Return | Feed | Tab | Control | Plain(cluster: Cluster)

  const SPACE := Of(Cluster(" ", 1, 1, false))

  /** Line endings become breaks, a tab four spaces, other controls nothing. */
  function Filter(raw: seq<Raw>): seq<Unit> {
    if raw == [] then []
    else match raw[0]
      case Return => [Break] + Filter(if |raw| > 1 && raw[1].Feed? then raw[2..] else raw[1..])
      case Feed => [Break] + Filter(raw[1..])
      case Tab => [SPACE, SPACE, SPACE, SPACE] + Filter(raw[1..])
      case Control => Filter(raw[1..])
      case Plain(c) => [Of(c)] + Filter(raw[1..])
  }

  /** Filtering is idempotent on what it produces: text goes in verbatim. */
  function AsRaw(text: seq<Unit>): seq<Raw> {
    if text == [] then [] else [if text[0].Break? then Feed else Plain(text[0].cluster)] + AsRaw(text[1..])
  }

  lemma {:induction false} FilterVerbatim(text: seq<Unit>)
    ensures Filter(AsRaw(text)) == text
    decreases |text|
  {
    if text != [] {
      FilterVerbatim(text[1..]);
      assert AsRaw(text)[1..] == AsRaw(text[1..]);
    }
  }
}
