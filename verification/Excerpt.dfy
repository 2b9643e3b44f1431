/**
 Quoting long text within a byte budget: _excerpt cuts the UTF-8 form, and _json_excerpt
 halves its cut until the JSON form fits too.
 */
module Excerpt {
  import opened Basics

  const MARKER := " [truncated]"

  /** Bytes of a character inside a JSON string (section 7 of RFC 8259): quote, backslash and five
      control characters have two-byte escapes, other control characters six-byte ones. */
  function EscapedWidth(c: char): nat {
    if c in {'"', '\\', '\n', '\r', '\t', '\U{0008}', '\U{000C}'} then 2
    else if c as int < 0x20 then 6
    else Utf8Width(c)
  }

  function EscapedBytes(text: string): nat {
    if text == "" then 0 else EscapedBytes(text[..|text| - 1]) + EscapedWidth(text[|text| - 1])
  }

  /** len(json.dumps(text, ensure_ascii=False).encode("utf-8")) */
  function JsonBytes(text: string): nat {
    2 + EscapedBytes(text)
  }

  /** raw[:n].decode("utf-8", "ignore"): the longest prefix of at most n bytes. */
  function Cut(text: string, n: nat): (r: string)
    ensures r <= text && Utf8Bytes(r) <= n
  {
    if Utf8Bytes(text) <= n then text else Cut(text[..|text| - 1], n)
  }

  /** _excerpt */
  function Excerpted(text: string, n: nat): string {
    if Utf8Bytes(text) <= n then text else Cut(text, n) + MARKER
  }

  function Half(excerpt: string): nat {
    if Utf8Bytes(excerpt) / 2 < 1 then 1 else Utf8Bytes(excerpt) / 2
  }

  /** The excerpt after k rounds of the halving loop. */
  function Round(text: string, max: nat, k: nat): string {
    if k == 0 then Excerpted(text, max) else Excerpted(text, Half(Round(text, max, k - 1)))
  }

  predicate Fits(excerpt: string, max: nat) {
    JsonBytes(excerpt) <= max + 16
  }

  /** The loop reaches an excerpt that fits. */
  ghost predicate Ends(text: string, max: nat) {
    exists k: nat :: Fits(Round(text, max, k), max)
  }

  // ------------------------------------------------------------------ sizes

  lemma {:induction false} EscapedAppend(a: string, b: string)
    ensures EscapedBytes(a + b) == EscapedBytes(a) + EscapedBytes(b)
    ensures Utf8Bytes(a + b) == Utf8Bytes(a) + Utf8Bytes(b)
  {
    if b == "" {
      assert a + b == a;
    } else {
      EscapedAppend(a, b[..|b| - 1]);
      assert (a + b)[..|a + b| - 1] == a + b[..|b| - 1];
    }
  }

  /** Escaping expands UTF-8 at most sixfold. */
  lemma {:induction false} EscapedAtMost(text: string)
    ensures EscapedBytes(text) <= 6 * Utf8Bytes(text)
  {
    if text != "" {
      EscapedAtMost(text[..|text| - 1]);
    }
  }

  lemma MarkerBytes()
    ensures Utf8Bytes(MARKER) == 12 && EscapedBytes(MARKER) == 12
  {
    PlainBytes(MARKER, |MARKER|);
    assert MARKER[..|MARKER|] == MARKER;
  }

  lemma {:induction false} PlainBytes(text: string, n: nat)
    requires n <= |text| && forall i | 0 <= i < |text| :: Utf8Width(text[i]) == 1 && EscapedWidth(text[i]) == 1
    ensures Utf8Bytes(text[..n]) == n && EscapedBytes(text[..n]) == n
  {
    if n > 0 {
      PlainBytes(text, n - 1);
      assert text[..n][..n - 1] == text[..n - 1];
    }
  }

  lemma CutSizes(text: string, n: nat)
    ensures Utf8Bytes(Excerpted(text, n)) <= n + 12
    ensures JsonBytes(Excerpted(text, n)) <= 6 * n + 14
  {
    var part := if Utf8Bytes(text) <= n then text else Cut(text, n);
    EscapedAtMost(part);
    EscapedAppend(part, MARKER);
    MarkerBytes();
  }

  // ------------------------------------------------------------------- loop

  /** What still has to happen: the excerpt shrinks while it is longer than 24 bytes, and a cut
      of at most 12 bytes fits. */
  function Remaining(excerpt: string, max: nat): nat {
    if Fits(excerpt, max) then 0 else if Utf8Bytes(excerpt) <= 25 then 1 else Utf8Bytes(excerpt)
  }

  lemma Progress(text: string, excerpt: string, max: nat)
    requires max >= 70 && !Fits(excerpt, max)
    ensures Remaining(Excerpted(text, Half(excerpt)), max) < Remaining(excerpt, max)
  {
    CutSizes(text, Half(excerpt));
  }

  /** The first excerpt that fits, from this one on. */
  function Shrunk(text: string, max: nat, excerpt: string): string
    requires max >= 70
    decreases Remaining(excerpt, max)
  {
    if Fits(excerpt, max) then excerpt
    else
      Progress(text, excerpt, max);
      Shrunk(text, max, Excerpted(text, Half(excerpt)))
  }

  /** The text itself, or a prefix of it with the marker. */
  ghost predicate Quotes(text: string, excerpt: string) {
    excerpt == text || exists part {:trigger part + MARKER} :: part <= text && excerpt == part + MARKER
  }

  lemma ExcerptedQuotes(text: string, n: nat)
    ensures Quotes(text, Excerpted(text, n))
  {
    assert Cut(text, n) + MARKER == Cut(text, n) + MARKER;
  }

  lemma {:induction false} ShrunkQuotes(text: string, max: nat, excerpt: string)
    requires max >= 70 && Quotes(text, excerpt)
    ensures Fits(Shrunk(text, max, excerpt), max) && Quotes(text, Shrunk(text, max, excerpt))
    decreases Remaining(excerpt, max)
  {
    if !Fits(excerpt, max) {
      Progress(text, excerpt, max);
      ExcerptedQuotes(text, Half(excerpt));
      ShrunkQuotes(text, max, Excerpted(text, Half(excerpt)));
    }
  }

  lemma {:induction false} BytesGrow(text: string, n: nat)
    requires n <= |text|
    ensures Utf8Bytes(text[..n]) <= Utf8Bytes(text)
  {
    if n == |text| {
      assert text[..n] == text;
    } else {
      BytesGrow(text[..|text| - 1], n);
      assert text[..|text| - 1][..n] == text[..n];
    }
  }

  /** A cut is the longest prefix of whole characters within its limit. */
  lemma {:induction false} CutIsLongest(text: string, n: nat, k: nat)
    requires k <= |text| && Utf8Bytes(text[..k]) <= n
    ensures k <= |Cut(text, n)|
  {
    TakeAll(text);
    if Utf8Bytes(text) > n && k < |text| {
      assert text[..|text| - 1][..k] == text[..k];
      CutIsLongest(text[..|text| - 1], n, k);
    }
  }

  /** The limit of the cut in round k: the given one, then half of the excerpt before it, but at least one byte. */
  lemma RoundIsCut(text: string, max: nat, k: nat)
    ensures Round(text, max, 0) == if Utf8Bytes(text) <= max then text else Cut(text, max) + " [truncated]"
    ensures k > 0 ==>
              var n := Max(1, Utf8Bytes(Round(text, max, k - 1)) / 2);
              Round(text, max, k) == if Utf8Bytes(text) <= n then text else Cut(text, n) + " [truncated]"
  {
  }

  lemma NextRound(text: string, max: nat, k: nat)
    requires max >= 70 && !Fits(Round(text, max, k), max)
    ensures Shrunk(text, max, Round(text, max, k)) == Shrunk(text, max, Round(text, max, k + 1))
    ensures Remaining(Round(text, max, k + 1), max) < Remaining(Round(text, max, k), max)
  {
    Progress(text, Round(text, max, k), max);
  }

  /** The loop stops at its first round that fits. */
  lemma {:induction false} FirstFit(text: string, max: nat, k: nat) returns (n: nat)
    requires max >= 70
    ensures n >= k && Shrunk(text, max, Round(text, max, k)) == Round(text, max, n) && Fits(Round(text, max, n), max)
    ensures forall i | k <= i < n :: !Fits(Round(text, max, i), max)
    decreases Remaining(Round(text, max, k), max)
  {
    if Fits(Round(text, max, k), max) {
      n := k;
    } else {
      NextRound(text, max, k);
      n := FirstFit(text, max, k + 1);
    }
  }

  /** _json_excerpt. The result fits in max + 16 bytes of JSON, is the text itself if that fits,
      and otherwise a marked prefix of the text. */
  method JsonExcerpt(text: string, max: nat) returns (excerpt: string)
    requires max >= 70
    ensures JsonBytes(excerpt) <= max + 16 && Quotes(text, excerpt)
    ensures Utf8Bytes(text) <= max && JsonBytes(text) <= max + 16 ==> excerpt == text
    ensures excerpt == Shrunk(text, max, Excerpted(text, max))
  {
    excerpt := Excerpted(text, max);
    ExcerptedQuotes(text, max);
    ShrunkQuotes(text, max, excerpt);
    while JsonBytes(excerpt) > max + 16
      invariant Shrunk(text, max, excerpt) == Shrunk(text, max, Excerpted(text, max))
      decreases Remaining(excerpt, max)
    {
      Progress(text, excerpt, max);
      excerpt := Excerpted(text, Half(excerpt));
    }
  }

  // ------------------------------------------------------ when does it end?

  lemma {:induction false} LongLimitEnds(text: string, max: nat, k: nat)
    requires max >= 70
    ensures Ends(text, max)
    decreases Remaining(Round(text, max, k), max)
  {
    if !Fits(Round(text, max, k), max) {
      Progress(text, Round(text, max, k), max);
      LongLimitEnds(text, max, k + 1);
    }
  }

  /** Two hundred control characters, six bytes each in JSON. */
  const CONTROLS: string := seq(200, i => '\U{0001}')

  lemma {:induction false} ControlBytes(n: nat)
    requires n <= 200
    ensures Utf8Bytes(CONTROLS[..n]) == n && EscapedBytes(CONTROLS[..n]) == 6 * n
  {
    if n > 0 {
      ControlBytes(n - 1);
      TakeNext(CONTROLS, n - 1);
      assert CONTROLS[n - 1] == '\U{0001}';
    }
  }

  lemma {:induction false} ControlCut(m: nat, n: nat)
    requires n <= m <= 200
    ensures Cut(CONTROLS[..m], n) == CONTROLS[..n]
    decreases m
  {
    ControlBytes(m);
    if n < m {
      assert CONTROLS[..m][..m - 1] == CONTROLS[..m - 1];
      ControlCut(m - 1, n);
    }
  }

  lemma ControlExcerpt(n: nat)
    requires n < 200
    ensures Excerpted(CONTROLS, n) == CONTROLS[..n] + MARKER
    ensures Utf8Bytes(Excerpted(CONTROLS, n)) == n + 12 && JsonBytes(Excerpted(CONTROLS, n)) == 6 * n + 14
  {
    assert CONTROLS[..200] == CONTROLS;
    ControlBytes(200);
    ControlCut(200, n);
    ControlBytes(n);
    EscapedAppend(CONTROLS[..n], MARKER);
    MarkerBytes();
  }

  /** A cut of n control characters that does not fit, and leads to another one. */
  predicate Stuck(max: nat, n: nat) {
    n < 70 && 6 * n > max + 2 && (n >= 12 || n >= max)
  }

  lemma StuckAgain(max: nat, n: nat)
    requires 1 <= max < 70 && Stuck(max, n)
    ensures !Fits(Excerpted(CONTROLS, n), max)
    ensures Half(Excerpted(CONTROLS, n)) == (n + 12) / 2 && Stuck(max, (n + 12) / 2)
  {
    ControlExcerpt(n);
  }

  /** Under a limit from 1 to 69 the cuts settle at a length whose encoding is still too long. */
  lemma {:induction false} ShortLimitLoops(max: nat, k: nat) returns (n: nat)
    requires 1 <= max < 70
    ensures Stuck(max, n) && Round(CONTROLS, max, k) == Excerpted(CONTROLS, n)
    ensures !Fits(Round(CONTROLS, max, k), max)
  {
    if k == 0 {
      n := max;
    } else {
      var before := ShortLimitLoops(max, k - 1);
      StuckAgain(max, before);
      n := (before + 12) / 2;
    }
    StuckAgain(max, n);
  }

  /** The halving loop ends for every text exactly when the limit is 0 or at least 70. */
  lemma EndsIff(max: nat)
    ensures (forall text :: Ends(text, max)) <==> max == 0 || max >= 70
  {
    if max >= 70 {
      forall text ensures Ends(text, max) {
        LongLimitEnds(text, max, 0);
      }
    } else if max == 0 {
      forall text ensures Ends(text, max) {
        CutSizes(text, 0);
        assert Fits(Round(text, 0, 0), 0);
      }
    } else {
      forall k: nat ensures !Fits(Round(CONTROLS, max, k), max) {
        var _ := ShortLimitLoops(max, k);
      }
      assert !Ends(CONTROLS, max);
    }
  }
}
