/** Text helpers the service relies on: the decimal rendering JavaScript uses
    when an integer is interpolated into a template literal, and
    `String.prototype.trim`. */
module Text {

  predicate IsDigit(c: char) {
    '0' <= c <= '9'
  }

  predicate AllDigits(s: string) {
    forall i :: 0 <= i < |s| ==> IsDigit(s[i])
  }

  function DigitChar(d: nat): (c: char)
    requires d < 10
    ensures IsDigit(c) && DigitValue(c) == d
  {
    ('0' as int + d) as char
  }

  function DigitValue(c: char): nat {
    if IsDigit(c) then c as int - '0' as int else 0
  }

  /** Decimal text of a non-negative integer, most significant digit first,
      without leading zeros. */
  function NatText(n: nat): (r: string)
    ensures |r| >= 1 && AllDigits(r)
    ensures r[0] != '0' || n == 0
  {
    if n < 10 then [DigitChar(n)] else NatText(n / 10) + [DigitChar(n % 10)]
  }

  /** Decimal text of an integer: a minus sign before the magnitude when it is negative. */
  function IntText(n: int): (r: string)
    ensures ':' !in r && '&' !in r
  {
    if n < 0 then "-" + NatText(-n) else NatText(n)
  }

  /** Reads back a string of digits, most significant first. */
  function ParseNat(s: string): nat {
    if s == [] then 0 else ParseNat(s[..|s| - 1]) * 10 + DigitValue(s[|s| - 1])
  }

  lemma {:induction false} ParseNatText(n: nat)
    ensures ParseNat(NatText(n)) == n
  {
    if n >= 10 {
      var s := NatText(n);
      assert s[..|s| - 1] == NatText(n / 10);
      ParseNatText(n / 10);
    }
  }

  /** Two integers render to the same text only when they are equal. */
  lemma IntTextInjective(m: int, n: int)
    requires IntText(m) == IntText(n)
    ensures m == n
  {
    TextSign(m);
    TextSign(n);
    if m < 0 {
      NatTextInjective(-m, -n);
    } else {
      NatTextInjective(m, n);
    }
  }

  /** The text of an integer starts with a minus sign exactly when it is
      negative, and the magnitude's text follows that sign. */
  lemma TextSign(n: int)
    ensures IntText(n)[0] == '-' <==> n < 0
    ensures n < 0 ==> IntText(n)[1..] == NatText(-n)
    ensures 0 <= n ==> IntText(n) == NatText(n)
  {
    if 0 <= n {
      assert IsDigit(NatText(n)[0]);
    }
  }

  lemma NatTextInjective(m: nat, n: nat)
    requires NatText(m) == NatText(n)
    ensures m == n
  {
    ParseNatText(m);
    ParseNatText(n);
  }

  /** A string splits uniquely at the first occurrence of a separator that
      the part before it does not contain. */
  lemma SplitAtSeparator(a: string, x: string, b: string, y: string, sep: char)
    requires sep !in a && sep !in b
    requires a + [sep] + x == b + [sep] + y
    ensures a == b && x == y
  {
    var s := a + [sep] + x;
    assert s[|a|] == sep;
    assert (b + [sep] + y)[|b|] == sep;
    assert forall i :: 0 <= i < |a| ==> s[i] == a[i] != sep;
    assert forall i :: 0 <= i < |b| ==> s[i] == b[i] != sep;
    assert |a| == |b|;
    assert a == s[..|a|] && b == s[..|b|];
    assert x == s[|a| + 1..] && y == s[|b| + 1..];
  }

  lemma CancelPrefix(p: string, u1: string, u2: string)
    requires p + u1 == p + u2
    ensures u1 == u2
  {
    assert u1 == (p + u1)[|p|..];
    assert u2 == (p + u2)[|p|..];
  }

  /** WhiteSpace and LineTerminator code points of ECMAScript, the set that
      `String.prototype.trim` removes. */
  predicate IsWhite(c: char) {
    var n := c as int;
    || (0x09 <= n <= 0x0D) || n == 0x20 || n == 0xA0 || n == 0x1680
    || (0x2000 <= n <= 0x200A) || n == 0x2028 || n == 0x2029
    || n == 0x202F || n == 0x205F || n == 0x3000 || n == 0xFEFF
  }

  predicate AllWhite(s: string) {
    forall i :: 0 <= i < |s| ==> IsWhite(s[i])
  }

  /** The first index at or after `i` that holds a non-white character,
      or `|s|` when there is none. */
  function SkipWhite(s: string, i: nat): (n: nat)
    requires i <= |s|
    ensures i <= n <= |s|
    ensures forall j :: i <= j < n ==> IsWhite(s[j])
    ensures n < |s| ==> !IsWhite(s[n])
    decreases |s| - i
  {
    if i < |s| && IsWhite(s[i]) then SkipWhite(s, i + 1) else i
  }

  /** The smallest index `n <= k` such that `s[n..k]` is all white. */
  function SkipWhiteBack(s: string, k: nat): (n: nat)
    requires k <= |s|
    ensures n <= k
    ensures forall j :: n <= j < k ==> IsWhite(s[j])
    ensures 0 < n ==> !IsWhite(s[n - 1])
  {
    if 0 < k && IsWhite(s[k - 1]) then SkipWhiteBack(s, k - 1) else k
  }

  /** The index where the text of `s` starts, after its leading white space. */
  function TextStart(s: string): nat {
    SkipWhite(s, 0)
  }

  /** The index where the text of `s` ends, before its trailing white space. */
  function TextEnd(s: string): nat {
    SkipWhiteBack(s, |s|)
  }

  /** The start of the text is the only index with its two properties. */
  lemma TextStartUnique(s: string, n: nat)
    requires n <= |s|
    requires forall j :: 0 <= j < n ==> IsWhite(s[j])
    requires n < |s| ==> !IsWhite(s[n])
    ensures TextStart(s) == n
  {
  }

  /** The end of the text is the only index with its two properties. */
  lemma TextEndUnique(s: string, n: nat)
    requires n <= |s|
    requires forall j :: n <= j < |s| ==> IsWhite(s[j])
    requires 0 < n ==> !IsWhite(s[n - 1])
    ensures TextEnd(s) == n
  {
  }

  /** `s.trim()`: the piece of `s` between its leading and its trailing
      white space, which is empty exactly when `s` is all white space. */
  function Trim(s: string): (r: string)
    ensures |r| <= |s|
    ensures r == [] <==> AllWhite(s)
  {
    var a := TextStart(s);
    if a == |s| then []
    else
      var e := TextEnd(s);
      assert a < e by {
        assert !IsWhite(s[a]);
      }
      s[a..e]
  }

  /** Once the text of `x` is known to start at `a < |x|` and end at `e`,
      its trimmed form is `x[a..e]`, which starts and ends with a character
      that is not white space. */
  lemma TrimBetween(x: string, a: nat, e: nat)
    requires a < |x| && TextStart(x) == a && TextEnd(x) == e
    ensures a < e <= |x| && Trim(x) == x[a..e]
    ensures !IsWhite(Trim(x)[0]) && !IsWhite(Trim(x)[|Trim(x)| - 1])
  {
    assert !IsWhite(x[a]);
  }

  /** White space around a string does not change what `trim` returns. */
  lemma TrimPadding(w1: string, s: string, w2: string)
    requires AllWhite(w1) && AllWhite(w2)
    ensures Trim(w1 + s + w2) == Trim(s)
  {
    if TextStart(s) == |s| {
      PaddedWhite(w1, s, w2);
    } else {
      TrimPaddedText(w1, s, w2);
    }
  }

  lemma TrimPaddedText(w1: string, s: string, w2: string)
    requires AllWhite(w1) && AllWhite(w2) && TextStart(s) < |s|
    ensures Trim(w1 + s + w2) == Trim(s)
  {
    var x, a, e := w1 + s + w2, TextStart(s), TextEnd(s);
    PaddedStart(w1, s, w2);
    PaddedEnd(w1, s, w2);
    TrimBetween(s, a, e);
    TrimBetween(x, |w1| + a, |w1| + e);
    SliceOfMiddle(w1, s, w2, a, e);
  }

  lemma SliceOfMiddle(w1: string, s: string, w2: string, a: nat, c: nat)
    requires a <= c <= |s|
    ensures (w1 + s + w2)[|w1| + a..|w1| + c] == s[a..c]
  {
    var x := w1 + s + w2;
    assert forall j :: 0 <= j < c - a ==> x[|w1| + a..|w1| + c][j] == s[a..c][j];
  }

  lemma PaddedWhite(w1: string, s: string, w2: string)
    requires AllWhite(w1) && AllWhite(s) && AllWhite(w2)
    ensures AllWhite(w1 + s + w2)
  {
    var x := w1 + s + w2;
    forall i | 0 <= i < |x| ensures IsWhite(x[i]) {
      if i < |w1| {
        assert x[i] == w1[i];
      } else if i < |w1| + |s| {
        assert x[i] == s[i - |w1|];
      } else {
        assert x[i] == w2[i - |w1| - |s|];
      }
    }
  }

  lemma PaddedStart(w1: string, s: string, w2: string)
    requires AllWhite(w1) && TextStart(s) < |s|
    ensures TextStart(w1 + s + w2) == |w1| + TextStart(s)
  {
    var x, a := w1 + s + w2, TextStart(s);
    forall i | 0 <= i < |w1| + a ensures IsWhite(x[i]) {
      if i < |w1| {
        assert x[i] == w1[i];
      } else {
        assert x[i] == s[i - |w1|];
      }
    }
    assert x[|w1| + a] == s[a];
    TextStartUnique(x, |w1| + a);
  }

  lemma PaddedEnd(w1: string, s: string, w2: string)
    requires AllWhite(w2) && TextStart(s) < |s|
    ensures TextEnd(w1 + s + w2) == |w1| + TextEnd(s)
  {
    var x, a, e := w1 + s + w2, TextStart(s), TextEnd(s);
    assert a < e by {
      assert !IsWhite(s[a]);
    }
    forall i | |w1| + e <= i < |x| ensures IsWhite(x[i]) {
      if i < |w1| + |s| {
        assert x[i] == s[i - |w1|];
      } else {
        assert x[i] == w2[i - |w1| - |s|];
      }
    }
    assert x[|w1| + e - 1] == s[e - 1];
    TextEndUnique(x, |w1| + e);
  }
}
