/** Option and Result values, sums over table rows, and sizes of UTF-8 text. */
module Basics {

  datatype Option<+T> = None | Some(value: T)

  datatype Result<+T, +E> = Ok(value: T) | Err(error: E)

  function Max(a: int, b: int): int {
    if a < b then b else a
  }

  function Min(a: int, b: int): int {
    if a < b then a else b
  }

  /** f(0) + ... + f(n-1) */
  function Sum(n: nat, f: nat -> int): int {
    if n == 0 then 0 else Sum(n - 1, f) + f(n - 1)
  }

  lemma {:induction false} SumFrame(n: nat, f: nat -> int, g: nat -> int)
    requires forall i: nat | i < n :: f(i) == g(i)
    ensures Sum(n, f) == Sum(n, g)
  {
    if n > 0 {
      SumFrame(n - 1, f, g);
    }
  }

  lemma {:induction false} SumZero(n: nat, f: nat -> int)
    requires forall i: nat | i < n :: f(i) == 0
    ensures Sum(n, f) == 0
  {
    if n > 0 {
      SumZero(n - 1, f);
    }
  }

  /** Rows added beyond the first n only count if they are not zero. */
  lemma {:induction false} SumExtend(n: nat, m: nat, f: nat -> int, g: nat -> int)
    requires n <= m
    requires forall i: nat | i < n :: f(i) == g(i)
    requires forall i: nat | n <= i < m :: g(i) == 0
    ensures Sum(m, g) == Sum(n, f)
  {
    if n == m {
      SumFrame(n, f, g);
    } else {
      SumExtend(n, m - 1, f, g);
    }
  }

  /** Two tables that differ in row k only have sums that differ by that row. */
  lemma {:induction false} SumChange(n: nat, k: nat, f: nat -> int, g: nat -> int)
    requires k < n
    requires forall i: nat | i < n && i != k :: f(i) == g(i)
    ensures Sum(n, g) == Sum(n, f) + g(k) - f(k)
  {
    if k == n - 1 {
      SumFrame(n - 1, f, g);
    } else {
      SumChange(n - 1, k, f, g);
    }
  }

  lemma {:induction false} SumMonotone(n: nat, f: nat -> int, g: nat -> int)
    requires forall i: nat | i < n :: f(i) <= g(i)
    ensures Sum(n, f) <= Sum(n, g)
  {
    if n > 0 {
      SumMonotone(n - 1, f, g);
    }
  }

  lemma {:induction false} SumScale(n: nat, c: int, f: nat -> int, g: nat -> int)
    requires forall i: nat | i < n :: g(i) == c * f(i)
    ensures Sum(n, g) == c * Sum(n, f)
  {
    if n > 0 {
      SumScale(n - 1, c, f, g);
    }
  }

  lemma {:induction false} SumPlus(n: nat, f: nat -> int, g: nat -> int, h: nat -> int)
    requires forall i: nat | i < n :: h(i) == f(i) + g(i)
    ensures Sum(n, h) == Sum(n, f) + Sum(n, g)
  {
    if n > 0 {
      SumPlus(n - 1, f, g, h);
    }
  }

  lemma {:induction false} SumNonNegative(n: nat, f: nat -> int)
    requires forall i: nat | i < n :: f(i) >= 0
    ensures Sum(n, f) >= 0
    ensures forall i: nat | i < n :: f(i) <= Sum(n, f)
  {
    if n > 0 {
      SumNonNegative(n - 1, f);
    }
  }

  /** The positions of s whose elements satisfy p. */
  ghost function Where<T>(s: seq<T>, p: T -> bool): set<nat> {
    set i: nat | i < |s| && p(s[i])
  }

  lemma WhereLast<T>(s: seq<T>, p: T -> bool)
    requires s != []
    ensures |Where(s, p)| == |Where(s[..|s| - 1], p)| + if p(s[|s| - 1]) then 1 else 0
  {
    var n := |s| - 1;
    var before := Where(s[..n], p);
    if p(s[n]) {
      assert Where(s, p) == before + {n};
    } else {
      assert Where(s, p) == before;
    }
  }

  lemma SplitLast<T>(earlier: seq<T>, later: seq<T>)
    requires later != []
    ensures earlier + later == earlier + later[..|later| - 1] + [later[|later| - 1]]
    ensures (earlier + later)[..|earlier + later| - 1] == earlier + later[..|later| - 1]
    ensures (earlier + later)[|earlier + later| - 1] == later[|later| - 1]
  {
  }

  lemma AppendParts<T>(s: seq<T>, e: T)
    ensures (s + [e])[..|s|] == s && (s + [e])[|s|] == e
  {
  }

  lemma TakeAll<T>(s: seq<T>)
    ensures s[..|s|] == s && s[..0] == []
  {
  }

  lemma PlusNothing<T>(s: seq<T>)
    ensures s + [] == s
  {
  }

  lemma TakeNext<T>(s: seq<T>, k: nat)
    requires k < |s|
    ensures s[..k] + [s[k]] == s[..k + 1] && s[..k + 1][..k] == s[..k] && s[..k + 1][k] == s[k]
  {
  }

  /** Bytes of one Unicode scalar value in UTF-8. */
  function Utf8Width(c: char): nat {
    if c as int < 0x80 then 1
    else if c as int < 0x800 then 2
    else if c as int < 0x10000 then 3
    else 4
  }

  function Utf8Bytes(text: string): nat {
    if text == "" then 0 else Utf8Bytes(text[..|text| - 1]) + Utf8Width(text[|text| - 1])
  }
}
