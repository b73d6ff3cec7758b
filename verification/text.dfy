/** The Python `str` operations that the list provider, the receipt formatter and
    the LLM service rely on, written over Dafny strings (sequences of characters).
    Case mapping is ASCII-only; see README. */
module PyText {

  datatype Option<+T> = None | Some(value: T)

  function Max(a: int, b: int): int { if a < b then b else a }

  function Min(a: int, b: int): int { if a < b then a else b }

  // ---------------------------------------------------------------------------
  // Decimal numerals: `str(n)` and `int(s)`
  // ---------------------------------------------------------------------------

  function DigitChar(d: nat): (c: char)
    requires d < 10
    ensures '0' <= c <= '9'
  {
    (('0' as int) + d) as char
  }

  function DigitValue(c: char): nat
    requires '0' <= c <= '9'
  {
    (c as int) - ('0' as int)
  }

  predicate IsDigits(s: string)
  {
    forall k :: 0 <= k < |s| ==> '0' <= s[k] <= '9'
  }

  /** `str(n)` for n >= 0: the decimal digits of n, without a leading zero. */
  function NatToString(n: nat): (s: string)
    ensures |s| >= 1 && IsDigits(s)
    ensures s[0] == '0' <==> n == 0
    decreases n
  {
    if n < 10 then [DigitChar(n)] else NatToString(n / 10) + [DigitChar(n % 10)]
  }

  /** `str(i)` for any integer. */
  function IntToString(i: int): (s: string)
    ensures |s| >= 1
  {
    if i < 0 then "-" + NatToString(-i) else NatToString(i)
  }

  /** The number a string of decimal digits denotes. */
  function DigitsValue(s: string): nat
    requires IsDigits(s)
    decreases |s|
  {
    if s == [] then 0 else DigitsValue(s[..|s| - 1]) * 10 + DigitValue(s[|s| - 1])
  }

  /** Reading back the digits that `NatToString` writes gives the number. */
  lemma {:induction false} DigitsRoundTrip(n: nat)
    ensures DigitsValue(NatToString(n)) == n
  {
    var s := NatToString(n);
    if n >= 10 {
      assert s[..|s| - 1] == NatToString(n / 10);
      DigitsRoundTrip(n / 10);
    }
  }

  /** Python's `int(s)` on a string: an optional sign followed by decimal digits;
      anything else is a ValueError (None). */
  function ParseIntText(s: string): (r: Option<int>)
    ensures r.Some? ==> |s| >= 1
  {
    if |s| >= 2 && (s[0] == '-' || s[0] == '+') && IsDigits(s[1..]) then
      var magnitude: int := DigitsValue(s[1..]);
      Some(if s[0] == '-' then -magnitude else magnitude)
    else if |s| >= 1 && IsDigits(s) then
      Some(DigitsValue(s))
    else
      None
  }

  /** `int(str(i)) == i`. */
  lemma {:induction false} IntRoundTrip(i: int)
    ensures ParseIntText(IntToString(i)) == Some(i)
  {
    var s := IntToString(i);
    if i < 0 {
      var digits := NatToString(-i);
      assert s == "-" + digits;
      assert s[1..] == digits;
      DigitsRoundTrip(-i);
    } else {
      assert s == NatToString(i);
      assert '0' <= s[0] <= '9';
      DigitsRoundTrip(i);
    }
  }

  // ---------------------------------------------------------------------------
  // Searching and case mapping
  // ---------------------------------------------------------------------------

  function LowerChar(c: char): char
  {
    if 'A' <= c <= 'Z' then (c as int + 32) as char else c
  }

  /** `s.lower()` restricted to ASCII letters. */
  function Lower(s: string): (r: string)
    ensures |r| == |s|
  {
    seq(|s|, k requires 0 <= k < |s| => LowerChar(s[k]))
  }

  /** `s.startswith(prefix)`. */
  predicate StartsWith(s: string, prefix: string)
  {
    prefix <= s
  }

  /** `needle in hay` for two strings: needle occurs as a contiguous piece of hay. */
  predicate IsInfix(needle: string, hay: string)
    decreases |hay|
  {
    needle <= hay || (|hay| > 0 && IsInfix(needle, hay[1..]))
  }

  /** IsInfix agrees with the positional definition of an occurrence. */
  lemma {:induction false} IsInfixAt(needle: string, hay: string, k: nat)
    requires k + |needle| <= |hay| && hay[k..k + |needle|] == needle
    ensures IsInfix(needle, hay)
    decreases k
  {
    if k == 0 {
      assert needle <= hay;
    } else {
      assert hay[1..][k - 1..k - 1 + |needle|] == hay[k..k + |needle|];
      IsInfixAt(needle, hay[1..], k - 1);
    }
  }

  /** An occurrence has a position. */
  lemma {:induction false} IsInfixFound(needle: string, hay: string) returns (k: nat)
    requires IsInfix(needle, hay)
    ensures k + |needle| <= |hay| && hay[k..k + |needle|] == needle
    decreases |hay|
  {
    if needle <= hay {
      k := 0;
    } else {
      var k' := IsInfixFound(needle, hay[1..]);
      k := k' + 1;
      assert hay[k..k + |needle|] == hay[1..][k'..k' + |needle|];
    }
  }

  /** What occurs in a piece of a string occurs in the whole string. */
  lemma IsInfixWithin(needle: string, a: string, b: string, c: string)
    requires IsInfix(needle, b)
    ensures IsInfix(needle, a + b + c)
  {
    var k := IsInfixFound(needle, b);
    var hay := a + b + c;
    assert hay[|a| + k..|a| + k + |needle|] == b[k..k + |needle|];
    IsInfixAt(needle, hay, |a| + k);
  }

  // ---------------------------------------------------------------------------
  // Replacement, repetition, joining and splitting
  // ---------------------------------------------------------------------------

  /** `s.replace(pat, rep)`: every non-overlapping occurrence of `pat`, scanning
      left to right, is replaced by `rep`. */
  function Replace(s: string, pat: string, rep: string): string
    requires |pat| > 0
    decreases |s|
  {
    if |s| < |pat| then s
    else if s[..|pat|] == pat then rep + Replace(s[|pat|..], pat, rep)
    else [s[0]] + Replace(s[1..], pat, rep)
  }

  /** A string in which the pattern does not occur is left as it is. */
  lemma {:induction false} ReplaceAbsent(s: string, pat: string, rep: string)
    requires |pat| > 0 && !IsInfix(pat, s)
    ensures Replace(s, pat, rep) == s
    decreases |s|
  {
    if |s| >= |pat| {
      assert !(pat <= s);
      ReplaceAbsent(s[1..], pat, rep);
      assert [s[0]] + s[1..] == s;
    }
  }

  /** Independent reference for replacing a single character: expand each
      character of s on its own. */
  function ReplaceChar(s: string, c: char, rep: string): string
    decreases |s|
  {
    if s == [] then [] else (if s[0] == c then rep else [s[0]]) + ReplaceChar(s[1..], c, rep)
  }

  function Count(s: string, c: char): nat
    decreases |s|
  {
    if s == [] then 0 else (if s[0] == c then 1 else 0) + Count(s[1..], c)
  }

  /** `Replace` with a one-character pattern is the character-wise expansion. */
  lemma {:induction false} ReplaceOneChar(s: string, c: char, rep: string)
    ensures Replace(s, [c], rep) == ReplaceChar(s, c, rep)
    decreases |s|
  {
    if s != [] {
      assert s[..1] == [c] <==> s[0] == c;
      ReplaceOneChar(s[1..], c, rep);
    }
  }

  /** After the expansion no `c` is left (when `rep` has none), and the length
      grows by |rep| - 1 for each `c`. */
  lemma {:induction false} ReplaceCharFacts(s: string, c: char, rep: string)
    requires c !in rep
    ensures c !in ReplaceChar(s, c, rep)
    ensures |ReplaceChar(s, c, rep)| == |s| + Count(s, c) * (|rep| - 1)
    decreases |s|
  {
    if s != [] {
      ReplaceCharFacts(s[1..], c, rep);
    }
  }

  /** `c * n` for a one-character string c. */
  function Repeat(c: char, n: int): (r: string)
    ensures |r| == Max(n, 0)
    ensures forall k :: 0 <= k < |r| ==> r[k] == c
    decreases Max(n, 0)
  {
    if n <= 0 then [] else [c] + Repeat(c, n - 1)
  }

  /** `sep.join(xs)`. */
  function Join(sep: string, xs: seq<string>): string
    decreases |xs|
  {
    if xs == [] then "" else if |xs| == 1 then xs[0] else xs[0] + sep + Join(sep, xs[1..])
  }

  /** `s.split(c)` for a one-character separator: always at least one piece. */
  function Split(s: string, c: char): (r: seq<string>)
    ensures |r| >= 1
    decreases |s|
  {
    if s == [] then [""]
    else
      var rest := Split(s[1..], c);
      if s[0] == c then [""] + rest else [[s[0]] + rest[0]] + rest[1..]
  }

  /** A string without the separator is a single piece. */
  lemma {:induction false} SplitNone(s: string, c: char)
    requires c !in s
    ensures Split(s, c) == [s]
    decreases |s|
  {
    if s != [] {
      SplitNone(s[1..], c);
      assert [s[0]] + s[1..] == s;
    }
  }

  /** Splitting distributes over a separator: the pieces of `a c b` are the
      pieces of a followed by the pieces of b. */
  lemma {:induction false} SplitAround(a: string, c: char, b: string)
    ensures Split(a + [c] + b, c) == Split(a, c) + Split(b, c)
    decreases |a|
  {
    if a == [] {
      assert a + [c] + b == [c] + b;
      assert ([c] + b)[1..] == b;
    } else {
      assert (a + [c] + b)[1..] == a[1..] + [c] + b;
      assert (a + [c] + b)[0] == a[0];
      SplitAround(a[1..], c, b);
    }
  }

  /** Joining pieces that contain no separator and splitting again gives the
      pieces back. */
  lemma {:induction false} SplitJoin(xs: seq<string>, c: char)
    requires |xs| >= 1
    requires forall k :: 0 <= k < |xs| ==> c !in xs[k]
    ensures Split(Join([c], xs), c) == xs
    decreases |xs|
  {
    if |xs| == 1 {
      SplitNone(xs[0], c);
    } else {
      SplitJoin(xs[1..], c);
      SplitAround(xs[0], c, Join([c], xs[1..]));
      SplitNone(xs[0], c);
      assert [xs[0]] + xs[1..] == xs;
    }
  }

  /** A text framed by separator-free lines: the pieces are the head lines,
      the pieces of the text, then the tail lines. */
  lemma {:induction false} SplitFramed(head: seq<string>, mid: string, tail: seq<string>, c: char)
    requires |head| >= 1 && |tail| >= 1
    requires forall k :: 0 <= k < |head| ==> c !in head[k]
    requires forall k :: 0 <= k < |tail| ==> c !in tail[k]
    ensures Split(Join([c], head) + [c] + mid + [c] + Join([c], tail), c) == head + Split(mid, c) + tail
  {
    var h := Join([c], head);
    var t := Join([c], tail);
    var rest := mid + [c] + t;
    assert h + [c] + mid + [c] + t == h + [c] + rest;
    SplitAround(h, c, rest);
    SplitAround(mid, c, t);
    SplitJoin(head, c);
    SplitJoin(tail, c);
    assert Split(h + [c] + rest, c) == head + (Split(mid, c) + tail);
  }

  // ---------------------------------------------------------------------------
  // Truthiness of strings
  // ---------------------------------------------------------------------------

  /** `name or default` for an optional string: None and "" are falsy. */
  function StrOr(name: Option<string>, default: string): (r: string)
    ensures name.Some? && name.value != "" ==> r == name.value
    ensures name.None? || name.value == "" ==> r == default
  {
    match name
    case Some(s) => if s != "" then s else default
    case None => default
  }

  /** Lower-casing twice is lower-casing once. */
  lemma {:induction false} LowerIdempotent(s: string)
    ensures Lower(Lower(s)) == Lower(s)
  {
    assert forall k :: 0 <= k < |s| ==> LowerChar(LowerChar(s[k])) == LowerChar(s[k]);
  }

  /** Every line of a join but the first and the last sits between two
      separators in it. */
  lemma {:induction false} JoinHasLine(xs: seq<string>, j: nat, c: char)
    requires 0 < j < |xs| - 1
    ensures IsInfix([c] + xs[j] + [c], Join([c], xs))
    decreases j
  {
    var rest := Join([c], xs[1..]);
    assert Join([c], xs) == xs[0] + [c] + rest;
    if j == 1 {
      var after := Join([c], xs[2..]);
      assert rest == xs[1] + [c] + after;
      assert Join([c], xs) == xs[0] + ([c] + xs[1] + [c]) + after;
      IsInfixAt([c] + xs[1] + [c], Join([c], xs), |xs[0]|);
    } else {
      JoinHasLine(xs[1..], j - 1, c);
      IsInfixWithin([c] + xs[j] + [c], xs[0] + [c], rest, "");
      assert xs[0] + [c] + rest + "" == Join([c], xs);
    }
  }

  /** A text laid out as an empty line, one head line, a body, and tail
      lines, all separated by `c`. */
  function Framed(c: char, line: string, body: string, tail: seq<string>): string
  {
    Join([c], ["", line]) + [c] + body + [c] + Join([c], tail)
  }

  /** In a framed text the head line and the body come first, each followed
      by a separator, and every inner tail line sits between two separators. */
  lemma FramedLines(c: char, line: string, body: string, tail: seq<string>, j: nat)
    requires 0 < j < |tail| - 1
    ensures [c] + line + [c] + body + [c] <= Framed(c, line, body, tail)
    ensures IsInfix([c] + tail[j] + [c], Framed(c, line, body, tail))
  {
    assert ["", line][1..] == [line];
    assert Join([c], [line]) == line;
    var h := Join([c], ["", line]);
    assert h == "" + [c] + line;
    var t := Join([c], tail);
    JoinHasLine(tail, j, c);
    IsInfixWithin([c] + tail[j] + [c], h + [c] + body + [c], t, "");
    assert h + [c] + body + [c] + t + "" == Framed(c, line, body, tail);
  }
}
