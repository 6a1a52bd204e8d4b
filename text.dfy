/** Text operations the translator borrows from Python's `str`: `strip()`,
    `lower()`, `upper()` and the decimal rendering of integers. */
module Text {
  import opened Wrappers

  /** The characters for which Python's `str.isspace()` holds; `strip()` removes them. */
  predicate IsSpace(c: char)
  {
    var n := c as int;
    (9 <= n <= 13) || (28 <= n <= 32) || n == 0x85 || n == 0xA0 || n == 0x1680
    || (0x2000 <= n <= 0x200A) || n == 0x2028 || n == 0x2029 || n == 0x202F
    || n == 0x205F || n == 0x3000
  }

  predicate AllSpace(s: string)
  {
    forall k :: 0 <= k < |s| ==> IsSpace(s[k])
  }

  /** `s.lstrip()`. */
  function TrimStart(s: string): string
  {
    if s != [] && IsSpace(s[0]) then TrimStart(s[1..]) else s
  }

  /** `s.rstrip()`. */
  function TrimEnd(s: string): string
  {
    if s != [] && IsSpace(s[|s| - 1]) then TrimEnd(s[..|s| - 1]) else s
  }

  /** `s.strip()`. */
  function Strip(s: string): string
  {
    TrimEnd(TrimStart(s))
  }

  /** What `lstrip` removes is whitespace, from the front. */
  lemma {:induction false} LeadingSpace(s: string) returns (a: string)
    ensures AllSpace(a) && s == a + TrimStart(s)
  {
    if s != [] && IsSpace(s[0]) {
      var rest := LeadingSpace(s[1..]);
      a := [s[0]] + rest;
      assert s == [s[0]] + s[1..];
      forall k | 0 <= k < |a| ensures IsSpace(a[k]) {
        if k > 0 {
          assert a[k] == rest[k - 1];
        }
      }
    } else {
      a := [];
    }
  }

  /** `lstrip` stops at the first non-space. */
  lemma {:induction false} TrimStartStops(s: string)
    ensures TrimStart(s) == [] || !IsSpace(TrimStart(s)[0])
  {
    if s != [] && IsSpace(s[0]) {
      TrimStartStops(s[1..]);
    }
  }

  /** What `rstrip` removes is whitespace, from the back. */
  lemma {:induction false} TrailingSpace(t: string) returns (b: string)
    ensures AllSpace(b) && t == TrimEnd(t) + b
  {
    if t != [] && IsSpace(t[|t| - 1]) {
      var init := t[..|t| - 1];
      var rest := TrailingSpace(init);
      b := rest + [t[|t| - 1]];
      assert t == init + [t[|t| - 1]];
      forall k | 0 <= k < |b| ensures IsSpace(b[k]) {
        if k < |rest| {
          assert b[k] == rest[k];
        }
      }
    } else {
      b := [];
    }
  }

  /** `rstrip` stops at the last non-space. */
  lemma {:induction false} TrimEndStops(t: string)
    ensures TrimEnd(t) == [] || !IsSpace(TrimEnd(t)[|TrimEnd(t)| - 1])
  {
    if t != [] && IsSpace(t[|t| - 1]) {
      TrimEndStops(t[..|t| - 1]);
    }
  }

  /** The stripped text neither starts nor ends with whitespace. */
  lemma StripTrimmed(s: string)
    ensures Strip(s) == [] || (!IsSpace(Strip(s)[0]) && !IsSpace(Strip(s)[|Strip(s)| - 1]))
  {
    var t := TrimStart(s);
    TrimStartStops(s);
    TrimEndStops(t);
    var b := TrailingSpace(t);
    var r := TrimEnd(t);
    if r != [] {
      assert r[0] == t[0];
    }
  }

  /** Only whitespace is removed, from either end. */
  lemma StripRemovesSpace(s: string)
    ensures exists a, b :: AllSpace(a) && AllSpace(b) && s == a + Strip(s) + b
  {
    var t := TrimStart(s);
    var a := LeadingSpace(s);
    var b := TrailingSpace(t);
    assert s == a + (TrimEnd(t) + b);
    assert s == a + Strip(s) + b;
  }

  /** Stripping a text padded with whitespace on both sides gives the text back,
      so a cell holding `"  <Logo> "` is recognised as the logo sentinel. */
  lemma {:induction false} StripPadded(a: string, m: string, b: string)
    requires AllSpace(a) && AllSpace(b)
    requires m != [] && !IsSpace(m[0]) && !IsSpace(m[|m| - 1])
    ensures Strip(a + m + b) == m
  {
    assert a + m + b == a + (m + b);
    TrimStartPadded(a, m + b);
    TrimEndPadded(m, b);
  }

  lemma {:induction false} TrimStartPadded(a: string, t: string)
    requires AllSpace(a) && t != [] && !IsSpace(t[0])
    ensures TrimStart(a + t) == t
  {
    if a != [] {
      assert (a + t)[1..] == a[1..] + t;
      TrimStartPadded(a[1..], t);
    }
  }

  lemma {:induction false} TrimEndPadded(t: string, b: string)
    requires AllSpace(b) && t != [] && !IsSpace(t[|t| - 1])
    ensures TrimEnd(t + b) == t
  {
    if b != [] {
      assert (t + b)[..|t + b| - 1] == t + b[..|b| - 1];
      TrimEndPadded(t, b[..|b| - 1]);
    } else {
      assert t + b == t;
    }
  }

  /** ASCII case mapping, as `str.lower()` / `str.upper()` do on ASCII text. */
  function LowerChar(c: char): char
  {
    if 'A' <= c <= 'Z' then (c as int + 32) as char else c
  }

  function UpperChar(c: char): char
  {
    if 'a' <= c <= 'z' then (c as int - 32) as char else c
  }

  function Lower(s: string): (r: string)
    ensures |r| == |s|
  {
    if s == [] then [] else [LowerChar(s[0])] + Lower(s[1..])
  }

  function Upper(s: string): (r: string)
    ensures |r| == |s|
  {
    if s == [] then [] else [UpperChar(s[0])] + Upper(s[1..])
  }

  /** `lower()` maps every character on its own. */
  lemma {:induction false} LowerAt(s: string)
    ensures forall k :: 0 <= k < |s| ==> Lower(s)[k] == LowerChar(s[k])
  {
    if s != [] {
      LowerAt(s[1..]);
    }
  }

  /** `upper()` maps every character on its own. */
  lemma {:induction false} UpperAt(s: string)
    ensures forall k :: 0 <= k < |s| ==> Upper(s)[k] == UpperChar(s[k])
  {
    if s != [] {
      UpperAt(s[1..]);
    }
  }

  predicate IsLetter(c: char)
  {
    'A' <= c <= 'Z' || 'a' <= c <= 'z'
  }

  /** Comparing the upper-cased form of a text with a text that has no ASCII
      letters is comparing the text itself. */
  lemma UpperAgainstCaseless(s: string, t: string)
    requires forall k :: 0 <= k < |t| ==> !IsLetter(t[k])
    ensures Upper(s) == t <==> s == t
  {
    UpperAt(s);
    if Upper(s) == t {
      forall k | 0 <= k < |s| ensures s[k] == t[k] {
        assert Upper(s)[k] == UpperChar(s[k]);
      }
    }
    if s == t {
      forall k | 0 <= k < |s| ensures Upper(s)[k] == t[k] {
        assert Upper(s)[k] == UpperChar(s[k]);
      }
    }
  }

  lemma UpperCharAgainstUpper(c: char, d: char)
    requires !('a' <= d <= 'z')
    ensures UpperChar(c) == d <==> LowerChar(c) == LowerChar(d)
  {
  }

  /** Comparing the upper-cased form of a text with a text that has no
      lower-case letters is a case-insensitive comparison. */
  lemma {:induction false} UpperAgainstUpper(s: string, t: string)
    requires forall k :: 0 <= k < |t| ==> !('a' <= t[k] <= 'z')
    ensures Upper(s) == t <==> Lower(s) == Lower(t)
  {
    UpperAt(s);
    LowerAt(s);
    LowerAt(t);
    if |s| == |t| {
      forall k | 0 <= k < |s|
        ensures Upper(s)[k] == t[k] <==> Lower(s)[k] == Lower(t)[k]
      {
        UpperCharAgainstUpper(s[k], t[k]);
      }
      if Lower(s) == Lower(t) {
        assert forall k :: 0 <= k < |s| ==> Lower(s)[k] == Lower(t)[k];
      }
    }
  }

  // ----- decimal numerals -----

  predicate IsDigit(c: char)
  {
    '0' <= c <= '9'
  }

  predicate AllDigits(s: string)
  {
    forall k :: 0 <= k < |s| ==> IsDigit(s[k])
  }

  function DigitChar(d: nat): char
    requires d < 10
  {
    ('0' as int + d) as char
  }

  /** `str(n)` for a natural number: non-empty, all digits, and without a leading
      zero unless the number is zero. */
  function NatToDecimal(n: nat): (s: string)
    ensures |s| >= 1
    decreases n
  {
    if n < 10 then [DigitChar(n)] else NatToDecimal(n / 10) + [DigitChar(n % 10)]
  }

  lemma {:induction false} NatToDecimalDigits(n: nat)
    ensures AllDigits(NatToDecimal(n))
    ensures NatToDecimal(n)[0] == '0' ==> n == 0
  {
    if n >= 10 {
      NatToDecimalDigits(n / 10);
    }
  }

  /** The number a string of digits denotes. */
  function DecimalValue(s: string): nat
    requires AllDigits(s)
  {
    if s == [] then 0 else DecimalValue(s[..|s| - 1]) * 10 + (s[|s| - 1] as int - '0' as int)
  }

  lemma {:induction false} DecimalRoundTrip(n: nat)
    ensures AllDigits(NatToDecimal(n)) && DecimalValue(NatToDecimal(n)) == n
  {
    NatToDecimalDigits(n);
    if n >= 10 {
      var s := NatToDecimal(n / 10);
      assert (s + [DigitChar(n % 10)])[..|s|] == s;
      DecimalRoundTrip(n / 10);
    }
  }

  /** `str(i)` for a Python int. */
  function IntToDecimal(i: int): (s: string)
    ensures s != [] && (s[0] == '-' || IsDigit(s[0]))
  {
    if i < 0 then NatToDecimalDigits(-i); "-" + NatToDecimal(-i)
    else NatToDecimalDigits(i); NatToDecimal(i)
  }

  /** Reads back what `IntToDecimal` writes. */
  function ParseInt(s: string): Option<int>
  {
    if |s| >= 2 && s[0] == '-' && AllDigits(s[1..]) then Some(0 - DecimalValue(s[1..]))
    else if |s| >= 1 && AllDigits(s) then Some(DecimalValue(s))
    else None
  }

  lemma IntRoundTrip(i: int)
    ensures ParseInt(IntToDecimal(i)) == Some(i)
  {
    if i < 0 {
      var d := NatToDecimal(-i);
      assert ("-" + d)[1..] == d;
      DecimalRoundTrip(-i);
    } else {
      DecimalRoundTrip(i);
    }
  }
}
