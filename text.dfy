/**
 * The handful of Python string operations the ingestion page relies on:
 * `str.split(sep)` with an explicit one-character separator, `str.startswith`,
 * `str(n)` for a natural number and `int(s)` for a decimal literal.
 */
module Text {

  datatype Option<+T> = None | Some(value: T)

  /** `s.split(sep)`: the pieces between occurrences of `sep`; never empty. */
  function Split(s: string, sep: char): (parts: seq<string>)
    ensures |parts| >= 1
    ensures forall i :: 0 <= i < |parts| ==> sep !in parts[i]
    decreases |s|
  {
    if |s| == 0 then [""]
    else
      var rest := Split(s[1..], sep);
      if s[0] == sep then [""] + rest
      else [[s[0]] + rest[0]] + rest[1..]
  }

  /** `sep.join(parts)`. */
  function Join(parts: seq<string>, sep: char): string
    decreases |parts|
  {
    if |parts| == 0 then ""
    else if |parts| == 1 then parts[0]
    else parts[0] + [sep] + Join(parts[1..], sep)
  }

  /** The last piece of `s.split(sep)`, as `s.split(sep)[-1]`. */
  function LastPiece(s: string, sep: char): string
  {
    var parts := Split(s, sep);
    parts[|parts| - 1]
  }

  /** `s.startswith(prefix)`. */
  predicate StartsWith(s: string, prefix: string)
  {
    |prefix| <= |s| && s[..|prefix|] == prefix
  }

  /** Joining the pieces of a split gives back the string. */
  lemma {:induction false} JoinSplit(s: string, sep: char)
    ensures Join(Split(s, sep), sep) == s
    decreases |s|
  {
    if |s| > 0 {
      var rest := Split(s[1..], sep);
      JoinSplit(s[1..], sep);
      if s[0] == sep {
        assert Split(s, sep) == [""] + rest;
      } else {
        var parts := Split(s, sep);
        assert parts == [[s[0]] + rest[0]] + rest[1..];
        if |rest| == 1 {
          assert Join(parts, sep) == [s[0]] + rest[0];
        } else {
          assert parts[1..] == rest[1..];
          assert Join(rest, sep) == rest[0] + [sep] + Join(rest[1..], sep);
          assert Join(parts, sep) == [s[0]] + rest[0] + [sep] + Join(rest[1..], sep);
        }
        assert s == [s[0]] + s[1..];
      }
    }
  }

  /** A string without the separator splits into itself alone. */
  lemma {:induction false} SplitWithoutSeparator(s: string, sep: char)
    requires sep !in s
    ensures Split(s, sep) == [s]
    decreases |s|
  {
    if |s| > 0 {
      SplitWithoutSeparator(s[1..], sep);
      assert s == [s[0]] + s[1..];
    }
  }

  /** An indexable second piece exists exactly when the separator occurs. */
  lemma {:induction false} SplitHasSecondPiece(s: string, sep: char)
    ensures |Split(s, sep)| >= 2 <==> sep in s
    decreases |s|
  {
    if sep !in s {
      SplitWithoutSeparator(s, sep);
    } else if s[0] != sep {
      assert sep in s[1..];
      SplitHasSecondPiece(s[1..], sep);
    }
  }

  /** Splitting at one occurrence of the separator splits the two sides independently. */
  lemma {:induction false} SplitAround(a: string, sep: char, b: string)
    ensures Split(a + [sep] + b, sep) == Split(a, sep) + Split(b, sep)
    decreases |a|
  {
    var s := a + [sep] + b;
    if |a| == 0 {
      assert s[1..] == b;
    } else {
      assert s[1..] == a[1..] + [sep] + b;
      SplitAround(a[1..], sep, b);
    }
  }

  /**
   * The last piece is a separator-free suffix of the string, and it is either
   * the whole string or is preceded by a separator.
   */
  lemma {:induction false} LastPieceSuffix(s: string, sep: char)
    ensures var p := LastPiece(s, sep);
      && sep !in p
      && |p| <= |s|
      && s[|s| - |p|..] == p
      && (|p| < |s| ==> s[|s| - |p| - 1] == sep)
    decreases |s|
  {
    if |s| > 0 {
      var t := s[1..];
      var rest := Split(t, sep);
      LastPieceSuffix(t, sep);
      SplitHasSecondPiece(t, sep);
      if s[0] != sep && |rest| == 1 {
        SplitWithoutSeparator(t, sep);
        assert LastPiece(s, sep) == [s[0]] + t == s;
      } else {
        assert LastPiece(s, sep) == LastPiece(t, sep);
      }
    }
  }

  /** A separator-free prefix stays in the first piece. */
  lemma {:induction false} FirstPieceExtends(a: string, b: string, sep: char)
    requires sep !in a
    ensures Split(a + b, sep)[0] == a + Split(b, sep)[0]
    decreases |a|
  {
    if |a| > 0 {
      var s := a + b;
      assert s[0] == a[0] && s[1..] == a[1..] + b;
      FirstPieceExtends(a[1..], b, sep);
      var rest := Split(s[1..], sep);
      assert Split(s, sep)[0] == [a[0]] + rest[0];
      assert a == [a[0]] + a[1..];
    } else {
      assert a + b == b;
    }
  }

  /** The first piece ends at the first separator. */
  lemma FirstPieceBeforeSeparator(a: string, sep: char, b: string)
    requires sep !in a
    ensures Split(a + [sep] + b, sep)[0] == a
  {
    SplitAround(a, sep, b);
    SplitWithoutSeparator(a, sep);
  }

  /** The last piece after a given separator occurrence, when none follows it. */
  lemma LastPieceIsSuffix(a: string, sep: char, b: string)
    requires sep !in b
    ensures LastPiece(a + [sep] + b, sep) == b
  {
    SplitAround(a, sep, b);
    SplitWithoutSeparator(b, sep);
  }

  // ---------------------------------------------------------------------
  // Decimal numerals: str(n) and int(s)

  predicate IsDigit(c: char)
  {
    '0' <= c <= '9'
  }

  predicate AllDigits(s: string)
  {
    forall i :: 0 <= i < |s| ==> IsDigit(s[i])
  }

  /** A run of digits contains no other character. */
  lemma DigitsExclude(s: string, c: char)
    requires AllDigits(s) && !IsDigit(c)
    ensures c !in s
  {
  }

  /** Python's ASCII whitespace, which `int()` ignores around the literal. */
  predicate IsSpace(c: char)
  {
    c == ' ' || c == '\t' || c == '\n' || c == '\r' || c == '\U{B}' || c == '\U{C}'
  }

  /** The value of a non-empty run of decimal digits. */
  function DigitsValue(ds: string): (v: nat)
    requires AllDigits(ds)
    decreases |ds|
  {
    if |ds| == 0 then 0
    else DigitsValue(ds[..|ds| - 1]) * 10 + (ds[|ds| - 1] as int - '0' as int)
  }

  /** `str(n)` for a natural number: no sign, no leading zero. */
  function Decimal(n: nat): (s: string)
    ensures |s| >= 1 && AllDigits(s)
    ensures |s| > 1 ==> s[0] != '0'
  {
    if n < 10 then [('0' as int + n) as char]
    else Decimal(n / 10) + [('0' as int + n % 10) as char]
  }

  function TrimStart(s: string): string
    decreases |s|
  {
    if |s| > 0 && IsSpace(s[0]) then TrimStart(s[1..]) else s
  }

  function TrimEnd(s: string): string
    decreases |s|
  {
    if |s| > 0 && IsSpace(s[|s| - 1]) then TrimEnd(s[..|s| - 1]) else s
  }

  /**
   * `int(s)` with base 10: surrounding whitespace is ignored, an optional
   * sign is followed by one or more digits; anything else raises
   * ValueError, modelled as None.
   */
  function ParseInt(s: string): Option<int>
  {
    var t := TrimEnd(TrimStart(s));
    var negative := |t| > 0 && t[0] == '-';
    var ds := if |t| > 0 && (t[0] == '-' || t[0] == '+') then t[1..] else t;
    if |ds| == 0 || !AllDigits(ds) then None
    else if negative then Some(-(DigitsValue(ds) as int))
    else Some(DigitsValue(ds))
  }

  lemma {:induction false} DecimalValue(n: nat)
    ensures DigitsValue(Decimal(n)) == n
  {
    if n >= 10 {
      var s := Decimal(n);
      DecimalValue(n / 10);
      assert s[..|s| - 1] == Decimal(n / 10);
    }
  }

  lemma TrimDigits(s: string)
    requires |s| >= 1 && AllDigits(s)
    ensures TrimEnd(TrimStart(s)) == s
  {
  }

  /** A bare run of digits parses to its value. */
  lemma ParseDigits(ds: string)
    requires |ds| >= 1 && AllDigits(ds)
    ensures ParseInt(ds) == Some(DigitsValue(ds))
  {
    TrimDigits(ds);
    assert IsDigit(ds[0]);
  }

  /** `int(str(n)) == n`: the numeral round-trips. */
  lemma ParseDecimal(n: nat)
    ensures ParseInt(Decimal(n)) == Some(n)
  {
    ParseDigits(Decimal(n));
    DecimalValue(n);
  }

  /** `int("")` and every literal without a digit raise. */
  lemma ParseIntNeedsDigit(s: string)
    requires forall i :: 0 <= i < |s| ==> !IsDigit(s[i])
    ensures ParseInt(s) == None
  {
    var t := TrimEnd(TrimStart(s));
    TrimInside(s);
    var ds := if |t| > 0 && (t[0] == '-' || t[0] == '+') then t[1..] else t;
    if |ds| > 0 {
      assert ds[0] in s;
    }
  }

  /**
   * `int(s)` raises on any character that is not a digit, whitespace or a
   * sign, wherever it occurs: `int("7a")` and `int("1.5")` both raise.
   */
  lemma ParseIntRejects(s: string, i: nat)
    requires i < |s| && !IsDigit(s[i]) && !IsSpace(s[i]) && s[i] != '+' && s[i] != '-'
    ensures ParseInt(s) == None
  {
    var c := s[i];
    TrimStartKeeps(s, c);
    TrimEndKeeps(TrimStart(s), c);
    var t := TrimEnd(TrimStart(s));
    var k :| 0 <= k < |t| && t[k] == c;
    var ds := if |t| > 0 && (t[0] == '-' || t[0] == '+') then t[1..] else t;
    if |t| > 0 && (t[0] == '-' || t[0] == '+') {
      assert k != 0;
      assert ds[k - 1] == c;
    } else {
      assert ds[k] == c;
    }
    assert !AllDigits(ds);
  }

  /** Leading whitespace is all that `TrimStart` drops. */
  lemma {:induction false} TrimStartKeeps(s: string, c: char)
    requires c in s && !IsSpace(c)
    ensures c in TrimStart(s)
    decreases |s|
  {
    if |s| > 0 && IsSpace(s[0]) {
      var k :| 0 <= k < |s| && s[k] == c;
      assert s[1..][k - 1] == c;
      TrimStartKeeps(s[1..], c);
    }
  }

  /** Trailing whitespace is all that `TrimEnd` drops. */
  lemma {:induction false} TrimEndKeeps(s: string, c: char)
    requires c in s && !IsSpace(c)
    ensures c in TrimEnd(s)
    decreases |s|
  {
    if |s| > 0 && IsSpace(s[|s| - 1]) {
      var k :| 0 <= k < |s| && s[k] == c;
      assert s[..|s| - 1][k] == c;
      TrimEndKeeps(s[..|s| - 1], c);
    }
  }

  /** Trimming keeps a contiguous part of the string. */
  lemma {:induction false} TrimInside(s: string)
    ensures forall c :: c in TrimEnd(TrimStart(s)) ==> c in s
  {
    TrimStartInside(s);
    TrimEndInside(TrimStart(s));
  }

  lemma {:induction false} TrimStartInside(s: string)
    ensures forall c :: c in TrimStart(s) ==> c in s
    decreases |s|
  {
    if |s| > 0 && IsSpace(s[0]) {
      TrimStartInside(s[1..]);
    }
  }

  lemma {:induction false} TrimEndInside(s: string)
    ensures forall c :: c in TrimEnd(s) ==> c in s
    decreases |s|
  {
    if |s| > 0 && IsSpace(s[|s| - 1]) {
      TrimEndInside(s[..|s| - 1]);
    }
  }
}
