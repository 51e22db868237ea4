/** Small sequence vocabulary shared by the models. */
module Prelude {

  datatype Option<+T> = None | Some(value: T)

  const U16_MAX: nat := 65535

  /** Subtraction that stops at zero. */
  function Less(a: nat, b: nat): nat {
    if a >= b then a - b else 0
  }

  /** The first `n` elements, or all of them when there are fewer. */
  function Take<T>(s: seq<T>, n: nat): (r: seq<T>)
    ensures r <= s
  {
    if n <= |s| then s[..n] else s
  }

  /** The trailing `n` elements, or all of them when there are fewer. */
  function Last<T>(s: seq<T>, n: nat): (r: seq<T>)
    ensures |r| == if n <= |s| then n else |s|
  {
    if n <= |s| then s[|s| - n..] else s
  }

  lemma {:induction false} LastOfConcat<T>(a: seq<T>, b: seq<T>, n: nat)
    ensures |b| >= n ==> Last(a + b, n) == Last(b, n)
    ensures |b| <= n ==> Last(a + b, n) == Last(a, n - |b|) + b
  {
  }

  /** A window over a concatenation, taken from the right part first. */
  lemma {:induction false} WindowConcat<T>(a: seq<T>, b: seq<T>, n: nat)
    ensures Last(a + b, n) == Last(a, n - |Last(b, n)|) + Last(b, n)
  {
    if |b| >= n {
      assert Last(a, 0) == [];
    }
  }

  lemma {:induction false} LastOfLast<T>(a: seq<T>, m: nat, n: nat)
    requires n <= m
    ensures Last(Last(a, m), n) == Last(a, n)
  {
  }

  lemma {:induction false} ConcatAssoc<T>(a: seq<T>, b: seq<T>, c: seq<T>)
    ensures (a + b) + c == a + (b + c)
  {
  }
}
