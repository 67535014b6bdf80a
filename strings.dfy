/**
 * The JavaScript string operations the core uses. `toLowerCase` is modelled on
 * ASCII letters only; `includes` is contiguous-substring search, `startsWith`
 * is the prefix test, and `trim` strips the ECMAScript white-space and
 * line-terminator characters from both ends.
 */
module Strings {

  predicate IsUpper(c: char) { 'A' <= c <= 'Z' }

  function LowerChar(c: char): (r: char)
    ensures !IsUpper(r)
    ensures IsUpper(c) ==> r as int == c as int + 32
    ensures !IsUpper(c) ==> r == c
  {
    if IsUpper(c) then (c as int + 32) as char else c
  }

  /** `String.prototype.toLowerCase`, restricted to the ASCII letters. */
  function ToLower(s: string): (r: string)
    ensures |r| == |s|
    ensures forall i :: 0 <= i < |r| ==> r[i] == LowerChar(s[i]) && !IsUpper(r[i])
  {
    seq(|s|, i requires 0 <= i < |s| => LowerChar(s[i]))
  }

  /** `String.prototype.startsWith(p)`. */
  predicate StartsWith(s: string, p: string): (b: bool)
    ensures b <==> |p| <= |s| && s[..|p|] == p
  {
    p <= s
  }

  /** `String.prototype.includes(n)`: `n` occurs in `h` as a contiguous piece. */
  predicate Includes(h: string, n: string): (b: bool)
    ensures n <= h ==> b
    ensures b ==> |n| <= |h|
  {
    assert h[0..] == h;
    exists i :: 0 <= i <= |h| && n <= h[i..]
  }

  /** Every string includes the empty string, so an empty search term matches everything.  */
  lemma IncludesEmpty(h: string)
    ensures Includes(h, "")
  {
    assert "" <= h[0..];
  }

  /** White space and line terminators as `String.prototype.trim` recognises them. */
  predicate IsWhitespace(c: char) {
    c in {'\t', '\n', '\U{000B}', '\U{000C}', '\r', ' ', '\U{00A0}', '\U{1680}',
          '\U{2000}', '\U{2001}', '\U{2002}', '\U{2003}', '\U{2004}', '\U{2005}',
          '\U{2006}', '\U{2007}', '\U{2008}', '\U{2009}', '\U{200A}',
          '\U{2028}', '\U{2029}', '\U{202F}', '\U{205F}', '\U{3000}', '\U{FEFF}'}
  }

  ghost predicate AllWhitespace(s: string) {
    forall i :: 0 <= i < |s| ==> IsWhitespace(s[i])
  }

  /** Lowercasing neither creates nor removes white space. */
  lemma LowerCharWhitespace(c: char)
    ensures IsWhitespace(LowerChar(c)) <==> IsWhitespace(c)
  {
  }

  /** `String.prototype.trimStart`. */
  function TrimStart(s: string): (r: string)
    ensures |r| <= |s| && r == s[|s| - |r|..]
    ensures AllWhitespace(s[..|s| - |r|])
    ensures r == [] || !IsWhitespace(r[0])
  {
    if s != [] && IsWhitespace(s[0]) then TrimStart(s[1..]) else s
  }

  /** `String.prototype.trimEnd`. */
  function TrimEnd(s: string): (r: string)
    ensures r <= s
    ensures AllWhitespace(s[|r|..])
    ensures r == [] || !IsWhitespace(r[|r| - 1])
  {
    if s != [] && IsWhitespace(s[|s| - 1]) then TrimEnd(s[..|s| - 1]) else s
  }

  /** `String.prototype.trim`: no white space is left at either end. */
  function Trim(s: string): (r: string)
    ensures |r| <= |s|
    ensures r == [] || (!IsWhitespace(r[0]) && !IsWhitespace(r[|r| - 1]))
  {
    TrimEnd(TrimStart(s))
  }

  /** `Trim(s)` is the piece of `s` left once the white space around it is removed. */
  lemma TrimIsPiece(s: string)
    ensures exists i :: 0 <= i <= |s| - |Trim(s)| && s[i..i + |Trim(s)|] == Trim(s) &&
                        AllWhitespace(s[..i]) && AllWhitespace(s[i + |Trim(s)|..])
  {
    var t := TrimStart(s);
    var r := TrimEnd(t);
    var i := |s| - |t|;
    assert s[i..] == t;
    assert s[i..i + |r|] == r by { assert r <= t; assert s[i..i + |r|] == t[..|r|]; }
    assert s[i + |r|..] == t[|r|..];
    PieceWitness(s, r, i);
  }

  /** Only supplies the witness `i` to `TrimIsPiece`, keeping that proof small. */
  lemma PieceWitness(s: string, r: string, i: nat)
    requires i <= |s| - |r| && s[i..i + |r|] == r && AllWhitespace(s[..i]) && AllWhitespace(s[i + |r|..])
    ensures exists j :: 0 <= j <= |s| - |r| && s[j..j + |r|] == r && AllWhitespace(s[..j]) && AllWhitespace(s[j + |r|..])
  {
  }

  /** A string trims to nothing exactly when it is all white space. */
  lemma TrimEmptyIff(s: string)
    ensures Trim(s) == [] <==> AllWhitespace(s)
  {
  }

  lemma {:induction false} TrimStartSkipsWhitespace(a: string, x: string)
    requires AllWhitespace(a)
    ensures TrimStart(a + x) == TrimStart(x)
  {
    if a != [] {
      assert (a + x)[0] == a[0] && IsWhitespace(a[0]);
      assert (a + x)[1..] == a[1..] + x;
      assert TrimStart(a + x) == TrimStart(a[1..] + x);
      assert AllWhitespace(a[1..]) by {
        forall i | 0 <= i < |a[1..]| ensures IsWhitespace(a[1..][i]) { assert a[1..][i] == a[i + 1]; }
      }
      TrimStartSkipsWhitespace(a[1..], x);
    } else {
      assert a + x == x;
    }
  }

  lemma {:induction false} TrimEndSkipsWhitespace(x: string, b: string)
    requires AllWhitespace(b)
    ensures TrimEnd(x + b) == TrimEnd(x)
  {
    if b != [] {
      var b' := b[..|b| - 1];
      assert (x + b)[|x + b| - 1] == b[|b| - 1] && IsWhitespace(b[|b| - 1]);
      assert (x + b)[..|x + b| - 1] == x + b';
      assert TrimEnd(x + b) == TrimEnd(x + b');
      assert AllWhitespace(b') by {
        forall i | 0 <= i < |b'| ensures IsWhitespace(b'[i]) { assert b'[i] == b[i]; }
      }
      TrimEndSkipsWhitespace(x, b');
    } else {
      assert x + b == x;
    }
  }

  /** Characters after a non-blank part do not change where trimming the start stops. */
  lemma {:induction false} TrimStartAppend(x: string, b: string)
    requires TrimStart(x) != []
    ensures TrimStart(x + b) == TrimStart(x) + b
  {
    assert x != [];
    assert (x + b)[0] == x[0];
    if IsWhitespace(x[0]) {
      assert (x + b)[1..] == x[1..] + b;
      assert TrimStart(x + b) == TrimStart(x[1..] + b);
      assert TrimStart(x) == TrimStart(x[1..]);
      TrimStartAppend(x[1..], b);
    } else {
      assert TrimStart(x) == x;
      assert TrimStart(x + b) == x + b;
    }
  }

  /** Padding a string with white space on either side does not change what it trims to. */
  lemma TrimIgnoresPadding(a: string, f: string, b: string)
    requires AllWhitespace(a) && AllWhitespace(b)
    ensures Trim(a + f + b) == Trim(f)
  {
    assert a + f + b == a + (f + b);
    TrimStartSkipsWhitespace(a, f + b);
    var t := TrimStart(f);
    if t == [] {
      assert f[..|f| - |t|] == f;
      TrimStartSkipsWhitespace(f, b);
      TrimStartSkipsWhitespace(b, []);
      assert b + [] == b;
    } else {
      TrimStartAppend(f, b);
      TrimEndSkipsWhitespace(t, b);
    }
  }

  lemma {:induction false} TrimStartLower(s: string)
    ensures TrimStart(ToLower(s)) == ToLower(TrimStart(s))
  {
    if s != [] {
      LowerCharWhitespace(s[0]);
      if IsWhitespace(s[0]) {
        assert ToLower(s)[1..] == ToLower(s[1..]);
        TrimStartLower(s[1..]);
      }
    }
  }

  lemma {:induction false} TrimEndLower(s: string)
    ensures TrimEnd(ToLower(s)) == ToLower(TrimEnd(s))
  {
    if s != [] {
      LowerCharWhitespace(s[|s| - 1]);
      if IsWhitespace(s[|s| - 1]) {
        assert ToLower(s)[..|s| - 1] == ToLower(s[..|s| - 1]);
        TrimEndLower(s[..|s| - 1]);
      }
    }
  }

  /** Trimming and lowercasing commute. */
  lemma TrimLowerCommute(s: string)
    ensures Trim(ToLower(s)) == ToLower(Trim(s))
  {
    TrimStartLower(s);
    TrimEndLower(TrimStart(s));
  }

  /** A `substring` bound: negative counts as 0, beyond the end as the length. */
  function Clamp(x: int, len: nat): (r: nat)
    ensures r <= len
    ensures 0 <= x <= len ==> r == x
  {
    if x < 0 then 0 else if x > len then len else x
  }

  /**
   * `String.prototype.substring(start, end)`: the characters between the two
   * clamped bounds, whichever of them is the smaller.
   */
  function Substring(s: string, start: int, end: int): (r: string)
    ensures var a, b := Clamp(start, |s|), Clamp(end, |s|);
            var lo := if a <= b then a else b;
            |r| == (if a <= b then b - a else a - b) && forall i :: 0 <= i < |r| ==> r[i] == s[lo + i]
  {
    var a, b := Clamp(start, |s|), Clamp(end, |s|);
    if a <= b then s[a..b] else s[b..a]
  }

  /** Swapping the two bounds of `substring` changes nothing. */
  lemma SubstringSwap(s: string, start: int, end: int)
    ensures Substring(s, start, end) == Substring(s, end, start)
  {
  }

  /** `substring(0, n)` for `n >= 0` is the longest prefix of length at most `n`. */
  lemma SubstringPrefix(s: string, n: nat)
    ensures Substring(s, 0, n) <= s
    ensures |Substring(s, 0, n)| == if n < |s| then n else |s|
  {
  }

  function DigitChar(d: nat): (c: char)
    requires d < 10
    ensures '0' <= c <= '9' && c as int - '0' as int == d
  {
    ('0' as int + d) as char
  }

  /** The decimal text of a number, as a template literal renders it. */
  function NatToString(n: nat): (r: string)
    ensures r != []
    ensures forall i :: 0 <= i < |r| ==> '0' <= r[i] <= '9'
    ensures r[0] == '0' ==> r == "0"
  {
    if n < 10 then [DigitChar(n)] else NatToString(n / 10) + [DigitChar(n % 10)]
  }

  /** Reading decimal digits back into a number. */
  function ParseDigits(s: string): (n: nat)
    requires forall i :: 0 <= i < |s| ==> '0' <= s[i] <= '9'
  {
    if s == [] then 0 else 10 * ParseDigits(s[..|s| - 1]) + (s[|s| - 1] as int - '0' as int)
  }

  /** The decimal text of `n` denotes `n`. */
  lemma {:induction false} NatToStringRoundTrip(n: nat)
    ensures ParseDigits(NatToString(n)) == n
  {
    if n >= 10 {
      var s := NatToString(n);
      assert s[..|s| - 1] == NatToString(n / 10);
      NatToStringRoundTrip(n / 10);
    }
  }
}
