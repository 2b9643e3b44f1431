/**
 The text under which a dispatch is recorded: a base strategy, the digest of the declarations
 in its context, and the number of the retry. frontier_decisions.strategy is unique for each
 claim and action, and the scheduler recognises its own strategies by their text.
 */
module Strategies {
  import opened Basics

  const CONTEXT := "|context:"
  const RETRY := "|retry:"

  const DIGITS := "0123456789abcdef"

  /** n written in base b, without leading zeros. */
  function Digits(n: nat, b: nat): string
    requires 2 <= b <= 16
  {
    (if n < b then "" else Digits(n / b, b)) + [DIGITS[n % b]]
  }

  function Decimal(n: nat): string {
    Digits(n, 10)
  }

  /** Identifiers and digests are written in hexadecimal. */
  function Hex(n: nat): string {
    Digits(n, 16)
  }

  /** Without the separator. */
  predicate Plain(text: string) {
    forall i | 0 <= i < |text| :: text[i] != '|'
  }

  /** base + "|context:" + digest, and "|retry:" + n for the n-th retry */
  function Strategy(base: string, digest: string, retry: nat): string {
    base + CONTEXT + digest + if retry == 0 then "" else RETRY + Decimal(retry)
  }

  predicate StartsWith(text: string, prefix: string) {
    prefix <= text
  }

  /** text.split(sep)[0] */
  function FirstPart(text: string, sep: string): string {
    if text == "" || sep <= text then "" else [text[0]] + FirstPart(text[1..], sep)
  }

  // ----------------------------------------------------------------- digits

  lemma {:induction false} DigitsPlain(n: nat, b: nat)
    requires 2 <= b <= 16
    ensures Plain(Digits(n, b)) && |Digits(n, b)| > 0
    ensures forall i | 0 <= i < |Digits(n, b)| :: Digits(n, b)[i] != '-'
  {
    if n >= b {
      DigitsPlain(n / b, b);
    }
    DigitChars(n % b);
  }

  lemma DigitChars(i: nat)
    requires i < 16
    ensures DIGITS[i] != '|' && DIGITS[i] != '-'
  {
  }

  lemma DigitsDistinct(i: nat, j: nat)
    requires i < 16 && j < 16 && DIGITS[i] == DIGITS[j]
    ensures i == j
  {
  }

  lemma DigitsEnd(n: nat, b: nat)
    requires 2 <= b <= 16
    ensures var s := Digits(n, b); |s| > 0 && s[|s| - 1] == DIGITS[n % b] && s[..|s| - 1] == if n < b then "" else Digits(n / b, b)
  {
    AppendParts(if n < b then "" else Digits(n / b, b), DIGITS[n % b]);
  }

  lemma SameParts(n: nat, m: nat, b: nat)
    requires b > 0 && n / b == m / b && n % b == m % b
    ensures n == m
  {
    assert n == n / b * b + n % b && m == m / b * b + m % b;
  }

  lemma DigitsLast(n: nat, m: nat, b: nat)
    requires 2 <= b <= 16 && Digits(n, b) == Digits(m, b)
    ensures n % b == m % b
  {
    DigitsEnd(n, b);
    DigitsEnd(m, b);
    DigitsDistinct(n % b, m % b);
  }

  function Front(n: nat, b: nat): string
    requires 2 <= b <= 16
  {
    if n < b then "" else Digits(n / b, b)
  }

  lemma DigitsFront(n: nat, m: nat, b: nat)
    requires 2 <= b <= 16 && Digits(n, b) == Digits(m, b)
    ensures Front(n, b) == Front(m, b)
  {
    DigitsEnd(n, b);
    DigitsEnd(m, b);
  }

  lemma FrontEmpty(n: nat, b: nat)
    requires 2 <= b <= 16
    ensures Front(n, b) == "" <==> n < b
  {
    if n >= b {
      DigitsPlain(n / b, b);
    }
  }

  lemma Small(n: nat, b: nat)
    requires n < b
    ensures n % b == n
  {
  }

  /** Equal texts have the same last digit, and the same text before it. */
  lemma DigitsStep(n: nat, m: nat, b: nat)
    requires 2 <= b <= 16 && Digits(n, b) == Digits(m, b)
    ensures n % b == m % b && (n < b <==> m < b)
    ensures n >= b ==> Digits(n / b, b) == Digits(m / b, b)
  {
    DigitsLast(n, m, b);
    DigitsFront(n, m, b);
    FrontEmpty(n, b);
    FrontEmpty(m, b);
  }

  lemma {:induction false} DigitsInjective(n: nat, m: nat, b: nat)
    requires 2 <= b <= 16 && Digits(n, b) == Digits(m, b)
    ensures n == m
    decreases n
  {
    DigitsStep(n, m, b);
    if n < b {
      Small(n, b);
      Small(m, b);
    } else {
      Quotient(n, b);
      DigitsInjective(n / b, m / b, b);
      SameParts(n, m, b);
    }
  }

  lemma Quotient(n: nat, b: nat)
    requires 2 <= b <= n
    ensures 0 <= n / b < n
  {
  }

  // ------------------------------------------------------------- separation

  /** A separated part that is plain is no longer than any other way to reach a separator. */
  lemma NoLonger(a: string, s: string, b: string, t: string)
    requires Plain(b) && a + s == b + t && s != "" && s[0] == '|'
    ensures |b| <= |a|
  {
    assert forall i | 0 <= i < |b| :: (b + t)[i] == b[i];
    assert (a + s)[|a|] == '|';
  }

  /** The plain text before a separator is determined. */
  lemma PlainHead(a: string, s: string, b: string, t: string)
    requires Plain(a) && Plain(b) && a + s == b + t
    requires s != "" && s[0] == '|' && t != "" && t[0] == '|'
    ensures a == b && s == t
  {
    NoLonger(a, s, b, t);
    NoLonger(b, t, a, s);
    assert a == (a + s)[..|a|] && b == (b + t)[..|b|] && s == (a + s)[|a|..] && t == (b + t)[|b|..];
  }

  function Rest(digest: string, retry: nat): string {
    digest + if retry == 0 then "" else RETRY + Decimal(retry)
  }

  lemma StrategyParts(base: string, digest: string, retry: nat)
    ensures Strategy(base, digest, retry) == base + (CONTEXT + Rest(digest, retry))
    ensures Strategy(base, digest, 0) == base + CONTEXT + digest
  {
    assert base + CONTEXT + digest + (if retry == 0 then "" else RETRY + Decimal(retry)) == base + (CONTEXT + Rest(digest, retry));
  }

  lemma RestPlain(d: string, r: nat)
    requires Plain(d)
    ensures Plain(Rest(d, r)) <==> r == 0
  {
    if r == 0 {
      assert Rest(d, r) == d;
    } else {
      assert Rest(d, r)[|d|] == RETRY[0];
    }
  }

  lemma RestInjective(d: string, r: nat, e: string, q: nat)
    requires Plain(d) && Plain(e) && Rest(d, r) == Rest(e, q)
    ensures d == e && r == q
  {
    RestPlain(d, r);
    RestPlain(e, q);
    if r == 0 {
      assert Rest(d, r) == d && Rest(e, q) == e;
    } else {
      PlainHead(d, RETRY + Decimal(r), e, RETRY + Decimal(q));
      assert Decimal(r) == (RETRY + Decimal(r))[|RETRY|..] && Decimal(q) == (RETRY + Decimal(q))[|RETRY|..];
      DigitsInjective(r, q, 10);
    }
  }

  /** The text determines the base, the digest and the retry number. */
  lemma StrategyInjective(base: string, d: string, r: nat, other: string, e: string, q: nat)
    requires Plain(base) && Plain(d) && Plain(other) && Plain(e)
    requires Strategy(base, d, r) == Strategy(other, e, q)
    ensures base == other && d == e && r == q
  {
    StrategyParts(base, d, r);
    StrategyParts(other, e, q);
    PlainHead(base, CONTEXT + Rest(d, r), other, CONTEXT + Rest(e, q));
    assert Rest(d, r) == (CONTEXT + Rest(d, r))[|CONTEXT|..] && Rest(e, q) == (CONTEXT + Rest(e, q))[|CONTEXT|..];
    RestInjective(d, r, e, q);
  }

  // ------------------------------------------------------------- recognition

  /** strategy.startswith(word + "|") tells the base strategy. */
  lemma StartsWithBase(base: string, d: string, r: nat, word: string)
    requires Plain(base) && Plain(word)
    ensures StartsWith(Strategy(base, d, r), word + "|") <==> base == word
  {
    StrategyParts(base, d, r);
    var text, tail := Strategy(base, d, r), CONTEXT + Rest(d, r);
    if word + "|" <= text {
      assert text == word + ("|" + text[|word| + 1..]);
      PlainHead(base, tail, word, "|" + text[|word| + 1..]);
    }
    if base == word {
      assert text[..|word| + 1] == word + "|";
    }
  }

  lemma {:induction false} FirstPartSkips(head: string, text: string, sep: string)
    requires forall i | 0 <= i < |head| :: !(sep <= (head + text)[i..])
    ensures FirstPart(head + text, sep) == head + FirstPart(text, sep)
  {
    if head == "" {
      assert head + text == text;
    } else {
      assert (head + text)[1..] == head[1..] + text;
      forall i | 0 <= i < |head[1..]| ensures !(sep <= (head[1..] + text)[i..]) {
        assert (head[1..] + text)[i..] == (head + text)[i + 1..];
      }
      assert (head + text)[0..] == head + text;
      FirstPartSkips(head[1..], text, sep);
    }
  }

  lemma AtRetry(text: string, i: nat)
    requires i <= |text|
    ensures RETRY <= text[i..] ==> i + 1 < |text| && text[i] == '|' && text[i + 1] == 'r'
  {
    if RETRY <= text[i..] {
      assert text[i..][0] == text[i] && text[i..][1] == text[i + 1];
      assert RETRY[0] == text[i..][0] && RETRY[1] == text[i..][1];
    }
  }

  /** base + "|context:" + digest has one separator, and a 'c' after it. */
  lemma HeadChars(base: string, d: string, i: nat)
    requires Plain(base) && Plain(d) && i < |base + CONTEXT + d|
    ensures (base + CONTEXT + d)[i] == '|' <==> i == |base|
    ensures |base| + 1 < |base + CONTEXT + d| && (base + CONTEXT + d)[|base| + 1] == 'c'
  {
    var head := base + CONTEXT + d;
    if i < |base| {
      assert head[i] == base[i];
    } else if i < |base| + |CONTEXT| {
      assert head[i] == CONTEXT[i - |base|];
    } else {
      assert head[i] == d[i - |base| - |CONTEXT|];
    }
    assert head[|base| + 1] == CONTEXT[1];
  }

  /** No retry separator starts inside base + "|context:" + digest. */
  lemma NoEarlierRetry(base: string, d: string, tail: string, i: nat)
    requires Plain(base) && Plain(d) && i < |base + CONTEXT + d|
    ensures !(RETRY <= (base + CONTEXT + d + tail)[i..])
  {
    var head := base + CONTEXT + d;
    HeadChars(base, d, i);
    AtRetry(head + tail, i);
    assert (head + tail)[i] == head[i] && (head + tail)[|base| + 1] == head[|base| + 1];
  }

  /** strategy.split("|retry:")[0] recovers the text without its retry number. */
  lemma FirstPartIsUnretried(base: string, d: string, r: nat)
    requires Plain(base) && Plain(d)
    ensures FirstPart(Strategy(base, d, r), RETRY) == Strategy(base, d, 0)
  {
    var head := base + CONTEXT + d;
    var tail := if r == 0 then "" else RETRY + Decimal(r);
    forall i | 0 <= i < |head| ensures !(RETRY <= (head + tail)[i..]) {
      NoEarlierRetry(base, d, tail, i);
    }
    FirstPartSkips(head, tail, RETRY);
    StrategyParts(base, d, r);
  }
}
