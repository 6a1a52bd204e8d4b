/** Spreadsheet coordinates in A1 notation, as the decoder renders them: a
    column in bijective base 26 (`A` .. `Z`, `AA`, ...) followed by the row
    number in decimal. */
module Coords {
  import opened Wrappers
  import opened Text

  predicate IsUpper(c: char)
  {
    'A' <= c <= 'Z'
  }

  predicate AllUpper(s: string)
  {
    forall k :: 0 <= k < |s| ==> IsUpper(s[k])
  }

  function LetterChar(d: nat): char
    requires d < 26
  {
    ('A' as int + d) as char
  }

  /** The column letters of a 1-based column index: `1` is `A`, `26` is `Z`, `27` is `AA`. */
  function ColumnLetters(col: nat): (s: string)
    requires col >= 1
    ensures |s| >= 1
    decreases col
  {
    if col <= 26 then [LetterChar(col - 1)]
    else ColumnLetters((col - 1) / 26) + [LetterChar((col - 1) % 26)]
  }

  lemma {:induction false} ColumnLettersUpper(col: nat)
    requires col >= 1
    ensures AllUpper(ColumnLetters(col))
    decreases col
  {
    if col > 26 {
      ColumnLettersUpper((col - 1) / 26);
    }
  }

  /** The column index that a string of letters denotes. */
  function LettersValue(s: string): nat
    requires AllUpper(s)
  {
    if s == [] then 0 else LettersValue(s[..|s| - 1]) * 26 + (s[|s| - 1] as int - 'A' as int + 1)
  }

  lemma {:induction false} ColumnRoundTrip(col: nat)
    requires col >= 1
    ensures AllUpper(ColumnLetters(col)) && LettersValue(ColumnLetters(col)) == col
  {
    ColumnLettersUpper(col);
    if col > 26 {
      var s := ColumnLetters((col - 1) / 26);
      assert (s + [LetterChar((col - 1) % 26)])[..|s|] == s;
      ColumnRoundTrip((col - 1) / 26);
    }
  }

  /** The coordinate of the cell at a 1-based row and column, e.g. `C7`. */
  function Coordinate(row: nat, col: nat): string
    requires row >= 1 && col >= 1
  {
    ColumnLetters(col) + NatToDecimal(row)
  }

  /** A coordinate holds letters and digits only, never a colon. */
  lemma CoordinateNoColon(row: nat, col: nat)
    requires row >= 1 && col >= 1
    ensures ':' !in Coordinate(row, col)
  {
    ColumnLettersUpper(col);
    NatToDecimalDigits(row);
    var s := Coordinate(row, col);
    forall k | 0 <= k < |s| ensures s[k] != ':' {
      if k < |ColumnLetters(col)| {
        assert IsUpper(ColumnLetters(col)[k]);
      } else {
        assert IsDigit(NatToDecimal(row)[k - |ColumnLetters(col)|]);
      }
    }
  }

  /** The number of leading upper-case letters. */
  function LeadingLetters(s: string): (n: nat)
    ensures n <= |s| && AllUpper(s[..n])
    ensures n < |s| ==> !IsUpper(s[n])
  {
    if s != [] && IsUpper(s[0]) then
      var n := 1 + LeadingLetters(s[1..]);
      assert s[..n] == [s[0]] + s[1..][..n - 1];
      n
    else 0
  }

  /** Reads a coordinate back into its (row, column) pair. */
  function ParseCoordinate(s: string): Option<(nat, nat)>
  {
    var n := LeadingLetters(s);
    if AllDigits(s[n..]) then Some((DecimalValue(s[n..]), LettersValue(s[..n]))) else None
  }

  lemma {:induction false} LeadingLettersOf(a: string, b: string)
    requires AllUpper(a) && (b == [] || !IsUpper(b[0]))
    ensures LeadingLetters(a + b) == |a|
  {
    if a != [] {
      assert (a + b)[1..] == a[1..] + b;
      LeadingLettersOf(a[1..], b);
    }
  }

  lemma CoordinateRoundTrip(row: nat, col: nat)
    requires row >= 1 && col >= 1
    ensures ParseCoordinate(Coordinate(row, col)) == Some((row, col))
  {
    var letters, digits := ColumnLetters(col), NatToDecimal(row);
    var s := letters + digits;
    ColumnLettersUpper(col);
    NatToDecimalDigits(row);
    assert IsDigit(digits[0]);
    LeadingLettersOf(letters, digits);
    assert s[|letters|..] == digits && s[..|letters|] == letters;
    DecimalRoundTrip(row);
    ColumnRoundTrip(col);
  }

  /** Two cells have the same coordinate exactly when they are the same cell. */
  lemma CoordinateInjective(r1: nat, c1: nat, r2: nat, c2: nat)
    requires r1 >= 1 && c1 >= 1 && r2 >= 1 && c2 >= 1
    ensures Coordinate(r1, c1) == Coordinate(r2, c2) <==> r1 == r2 && c1 == c2
  {
    CoordinateRoundTrip(r1, c1);
    CoordinateRoundTrip(r2, c2);
  }

  /** The coordinate of an inclusive rectangle: `TOPLEFT:BOTTOMRIGHT`, or the single
      coordinate when the rectangle is one cell. */
  function RangeCoordinate(minRow: nat, minCol: nat, maxRow: nat, maxCol: nat): string
    requires minRow >= 1 && minCol >= 1 && maxRow >= 1 && maxCol >= 1
  {
    if minRow == maxRow && minCol == maxCol then Coordinate(minRow, minCol)
    else Coordinate(minRow, minCol) + ":" + Coordinate(maxRow, maxCol)
  }

  /** `s.split(':')[0]`: the text before the first colon, or all of it. */
  function FirstField(s: string): string
  {
    if s == [] then []
    else if s[0] == ':' then []
    else [s[0]] + FirstField(s[1..])
  }

  /** The first field has no colon, and is the whole text or the part before
      its first colon. */
  lemma {:induction false} FirstFieldIsPrefix(s: string)
    ensures ':' !in FirstField(s)
    ensures FirstField(s) == s || (|FirstField(s)| < |s| && s[..|FirstField(s)| + 1] == FirstField(s) + ":")
  {
    if s != [] && s[0] != ':' {
      FirstFieldIsPrefix(s[1..]);
      var r := FirstField(s[1..]);
      assert r == s[1..] || s[..|r| + 2] == [s[0]] + s[1..][..|r| + 1];
    }
  }

  lemma {:induction false} FirstFieldOf(a: string, b: string)
    requires ':' !in a
    ensures FirstField(a + ":" + b) == a && FirstField(a) == a
  {
    if a != [] {
      assert (a + ":" + b)[1..] == a[1..] + ":" + b;
      FirstFieldOf(a[1..], b);
    } else {
      assert (a + ":" + b)[0] == ':';
    }
  }

  /** The first field of a range's coordinate is the coordinate of its top-left cell. */
  lemma RangeFirstField(minRow: nat, minCol: nat, maxRow: nat, maxCol: nat)
    requires minRow >= 1 && minCol >= 1 && maxRow >= 1 && maxCol >= 1
    ensures FirstField(RangeCoordinate(minRow, minCol, maxRow, maxCol)) == Coordinate(minRow, minCol)
  {
    CoordinateNoColon(minRow, minCol);
    FirstFieldOf(Coordinate(minRow, minCol), Coordinate(maxRow, maxCol));
  }
}
