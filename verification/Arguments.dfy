/**
 What a call's accumulated argument text means: white space around it does not count,
 nothing but white space is the empty object, the rest is the parser's to judge.
 */
module Arguments {
  import opened Prelude
  import opened Contract
  import opened Assembler

  predicate AllSpace(s: string) {
    forall i :: 0 <= i < |s| ==> IsSpace(s[i])
  }

  /** Not empty, and with no white space at either end. */
  predicate Core(s: string) {
    s != "" && !IsSpace(s[0]) && !IsSpace(s[|s| - 1])
  }

  /** `s` is `core` between white space. */
  predicate Around(s: string, i: nat, j: nat) {
    i < j <= |s| && AllSpace(s[..i]) && Core(s[i..j]) && AllSpace(s[j..])
  }

  lemma {:induction false} CoreExists(s: string) returns (i: nat, j: nat)
    requires !AllSpace(s)
    ensures Around(s, i, j)
  {
    i := 0;
    while IsSpace(s[i])
      invariant i < |s| && AllSpace(s[..i])
      decreases |s| - i
    {
      assert forall k :: 0 <= k < i + 1 ==> IsSpace(s[k]) by { assert forall k :: 0 <= k < i ==> s[..i][k] == s[k]; }
      i := i + 1;
    }
    j := |s|;
    while IsSpace(s[j - 1])
      invariant i < j <= |s| && AllSpace(s[j..]) && !IsSpace(s[i])
      decreases j
    {
      j := j - 1;
    }
  }

  lemma {:induction false} AroundAt(s: string, i: nat, j: nat)
    requires Around(s, i, j)
    ensures i < j <= |s| && !IsSpace(s[i]) && !IsSpace(s[j - 1])
    ensures forall k :: 0 <= k < i || j <= k < |s| ==> IsSpace(s[k])
  {
    assert s[i] == s[i..j][0] && s[j - 1] == s[i..j][j - i - 1];
    assert forall k :: 0 <= k < i ==> s[..i][k] == s[k];
    assert forall k :: j <= k < |s| ==> s[j..][k - j] == s[k];
  }

  lemma {:induction false} CoreUnique(s: string, i: nat, j: nat, k: nat, l: nat)
    requires Around(s, i, j) && Around(s, k, l)
    ensures i == k && j == l
  {
    hide Around, IsSpace;
    AroundAt(s, i, j);
    AroundAt(s, k, l);
  }

  /** The text between the white space. */
  ghost function CoreOf(s: string): (core: string)
    requires !AllSpace(s)
    ensures exists i: nat, j: nat :: Around(s, i, j) && core == s[i..j]
  {
    var (i, j) := CoreAt(s);
    s[i..j]
  }

  ghost function CoreAt(s: string): (p: (nat, nat))
    requires !AllSpace(s)
    ensures Around(s, p.0, p.1)
  {
    SomeCore(s);
    var p: (nat, nat) :| Around(s, p.0, p.1);
    p
  }

  lemma {:induction false} SomeCore(s: string)
    requires !AllSpace(s)
    ensures exists p: (nat, nat) :: Around(s, p.0, p.1)
  {
    var i, j := CoreExists(s);
    assert Around(s, (i, j).0, (i, j).1);
  }

  /** What the arguments of a call are, if any. */
  ghost function Meaning(parse: Parser, args: string): Option<Value> {
    if AllSpace(args) then Some(Object(map[])) else parse(CoreOf(args))
  }

  /** Whatever white space stands around a core, the core is what counts. */
  lemma {:induction false} SpaceAside(parse: Parser, a: string, core: string, b: string)
    requires AllSpace(a) && AllSpace(b) && Core(core)
    ensures Meaning(parse, a + core + b) == parse(core)
  {
    var s := a + core + b;
    var i, j := |a|, |a| + |core|;
    assert s[..i] == a && s[i..j] == core && s[j..] == b;
    assert s[i] == core[0];
    var p := CoreAt(s);
    CoreUnique(s, i, j, p.0, p.1);
  }

  lemma {:induction false} TrimAll(s: string)
    requires AllSpace(s)
    ensures Trim(s) == ""
    decreases |s|
  {
    if s != "" { TrimAll(s[1..]); }
  }

  /** The same, place by place. */
  lemma {:induction false} AroundFrom(s: string, i: nat, j: nat)
    requires i < j <= |s| && !IsSpace(s[i]) && !IsSpace(s[j - 1])
    requires forall k :: 0 <= k < i || j <= k < |s| ==> IsSpace(s[k])
    ensures Around(s, i, j)
  {
    hide IsSpace;
    var core := s[i..j];
    assert core[0] == s[i] && core[|core| - 1] == s[j - 1];
  }

  lemma {:induction false} TrimFront(s: string, i: nat, j: nat)
    requires Around(s, i, j) && i > 0
    ensures Trim(s) == Trim(s[1..]) && Around(s[1..], i - 1, j - 1) && s[1..][i - 1..j - 1] == s[i..j]
  {
    AroundAt(s, i, j);
    hide IsSpace, Around;
    var t := s[1..];
    assert forall k :: 0 <= k < |t| ==> t[k] == s[k + 1];
    AroundFrom(t, i - 1, j - 1);
  }

  lemma {:induction false} TrimBack(s: string, j: nat)
    requires Around(s, 0, j) && j < |s|
    ensures Trim(s) == Trim(s[..|s| - 1]) && Around(s[..|s| - 1], 0, j) && s[..|s| - 1][0..j] == s[0..j]
  {
    AroundAt(s, 0, j);
    hide IsSpace, Around;
    var t := s[..|s| - 1];
    assert forall k :: 0 <= k < |t| ==> t[k] == s[k];
    AroundFrom(t, 0, j);
  }

  lemma {:induction false} TrimNone(s: string)
    requires Around(s, 0, |s|)
    ensures Trim(s) == s[0..|s|]
  {
    AroundAt(s, 0, |s|);
    hide IsSpace, Around;
    assert s[0..|s|] == s;
  }

  lemma {:induction false} TrimAround(s: string, i: nat, j: nat)
    requires Around(s, i, j)
    ensures Trim(s) == s[i..j]
    decreases |s|
  {
    AroundAt(s, i, j);
    hide Trim, IsSpace, Around;
    if i > 0 {
      TrimFront(s, i, j);
      TrimAround(s[1..], i - 1, j - 1);
    } else if j < |s| {
      TrimBack(s, j);
      TrimAround(s[..|s| - 1], 0, j);
    } else {
      TrimNone(s);
    }
  }

  lemma {:induction false} TrimReads(s: string)
    ensures Trim(s) == if AllSpace(s) then "" else CoreOf(s)
  {
    if AllSpace(s) {
      TrimAll(s);
    } else {
      var p := CoreAt(s);
      TrimAround(s, p.0, p.1);
    }
  }

  /** Sealing reads exactly that. */
  lemma {:induction false} ArgumentsMean(parse: Parser, args: string)
    ensures ParseArgs(parse, args) == Meaning(parse, args)
  {
    hide Trim, AllSpace, CoreOf;
    TrimReads(args);
    if AllSpace(args) {
      assert Trim(args) == "";
    } else {
      CoreNotEmpty(args);
    }
  }

  lemma {:induction false} CoreNotEmpty(s: string)
    requires !AllSpace(s)
    ensures CoreOf(s) != ""
  {
  }

  /** A sealed call carries its arguments under its own id and name; it is quarantined
      exactly when what is between the white space does not parse. */
  lemma {:induction false} SealedOrQuarantined(parse: Parser, t: Turn, index: nat, p: Partial)
    ensures var u := SealCall(parse, t, index, p);
            match Meaning(parse, p.args)
            case Some(v) => u == t.(completed := t.completed + [(index, ToolCall(p.id, p.name, v))])
            case None => u == t.(warnings := t.warnings + [Malformed(p.id)])
  {
    hide ParseArgs, Meaning;
    ArgumentsMean(parse, p.args);
  }
}
