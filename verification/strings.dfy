/**
 * The pieces of Go's `strings` and `strconv` packages that the server relies on:
 * splitting a header on spaces, trimming a prefix, parsing a decimal integer, and
 * the byte-wise order Redis uses to break ties between equal scores.
 */
module Strings {

  // ---------------------------------------------------------------------------
  // Lexicographic order
  // ---------------------------------------------------------------------------

  /**
   * Strict lexicographic order on strings, comparing characters by code point.
   * On UTF-8 encoded strings this is the same order as comparing the bytes,
   * which is how Redis orders the members of a sorted set that share a score.
   */
  predicate LexLess(a: string, b: string)
    decreases |a|
  {
    |b| > 0 && (|a| == 0 || a[0] < b[0] || (a[0] == b[0] && LexLess(a[1..], b[1..])))
  }

  lemma {:induction false} LexLessIrreflexive(a: string)
    ensures !LexLess(a, a)
    decreases |a|
  {
    if |a| > 0 {
      LexLessIrreflexive(a[1..]);
    }
  }

  lemma {:induction false} LexLessTransitive(a: string, b: string, c: string)
    requires LexLess(a, b) && LexLess(b, c)
    ensures LexLess(a, c)
    decreases |a|
  {
    if |a| > 0 && a[0] == b[0] && b[0] == c[0] {
      LexLessTransitive(a[1..], b[1..], c[1..]);
    }
  }

  lemma {:induction false} LexLessTotal(a: string, b: string)
    requires a != b
    ensures LexLess(a, b) || LexLess(b, a)
    decreases |a|
  {
    if |a| > 0 && |b| > 0 && a[0] == b[0] {
      assert a == [a[0]] + a[1..] && b == [b[0]] + b[1..];
      LexLessTotal(a[1..], b[1..]);
    }
  }

  lemma {:induction false} LexLessAsymmetric(a: string, b: string)
    requires LexLess(a, b)
    ensures !LexLess(b, a)
    decreases |a|
  {
    if |a| > 0 && a[0] == b[0] {
      LexLessAsymmetric(a[1..], b[1..]);
    }
  }

  // ---------------------------------------------------------------------------
  // strings.Split(s, " ") and strings.TrimPrefix
  // ---------------------------------------------------------------------------

  /**
   * `strings.Split(s, " ")`: the pieces of `s` between single spaces. Two adjacent
   * spaces give an empty piece, and the empty string gives one empty piece.
   */
  function SplitSpace(s: string): (parts: seq<string>)
    ensures |parts| >= 1
    decreases |s|
  {
    if |s| == 0 then [""]
    else
      var rest := SplitSpace(s[1..]);
      if s[0] == ' ' then [""] + rest
      else [[s[0]] + rest[0]] + rest[1..]
  }

  /** `strings.Join(parts, " ")`, the inverse of SplitSpace. */
  function JoinSpace(parts: seq<string>): string
    requires |parts| >= 1
    decreases |parts|
  {
    if |parts| == 1 then parts[0] else parts[0] + " " + JoinSpace(parts[1..])
  }

  /** No piece produced by SplitSpace contains a space. */
  lemma {:induction false} SplitPiecesHaveNoSpace(s: string)
    ensures forall i :: 0 <= i < |SplitSpace(s)| ==> ' ' !in SplitSpace(s)[i]
    decreases |s|
  {
    if |s| > 0 {
      SplitPiecesHaveNoSpace(s[1..]);
      var rest := SplitSpace(s[1..]);
      if s[0] != ' ' {
        assert ' ' !in rest[0];
        assert ' ' !in [s[0]] + rest[0];
      }
    }
  }

  /** Joining the pieces back with single spaces gives the original string. */
  lemma {:induction false} JoinSplit(s: string)
    ensures JoinSpace(SplitSpace(s)) == s
    decreases |s|
  {
    if |s| > 0 {
      JoinSplit(s[1..]);
      var rest := SplitSpace(s[1..]);
      if s[0] == ' ' {
        assert ([""] + rest)[1..] == rest;
        assert s == [s[0]] + s[1..];
      } else if |rest| == 1 {
        assert s == [s[0]] + s[1..];
      } else {
        var parts := [[s[0]] + rest[0]] + rest[1..];
        assert parts[1..] == rest[1..];
        assert JoinSpace(rest) == rest[0] + " " + JoinSpace(rest[1..]);
        assert s == [s[0]] + s[1..];
      }
    }
  }

  /** A string without spaces is a single piece. */
  lemma {:induction false} SplitWithoutSpace(b: string)
    requires ' ' !in b
    ensures SplitSpace(b) == [b]
    decreases |b|
  {
    if |b| > 0 {
      assert b[0] in b;
      assert forall c :: c in b[1..] ==> c in b;
      SplitWithoutSpace(b[1..]);
      assert [b[0]] + b[1..] == b;
    }
  }

  /** A leading space-free word followed by one space splits off as the first piece. */
  lemma {:induction false} SplitAfterWord(a: string, t: string)
    requires ' ' !in a
    ensures SplitSpace(a + " " + t) == [a] + SplitSpace(t)
    decreases |a|
  {
    if |a| == 0 {
      assert a + " " + t == " " + t;
      assert (" " + t)[1..] == t;
    } else {
      assert a[0] in a;
      assert forall c :: c in a[1..] ==> c in a;
      SplitAfterWord(a[1..], t);
      assert (a + " " + t)[1..] == a[1..] + " " + t;
      assert [a[0]] + a[1..] == a;
    }
  }

  /** `strings.TrimPrefix`: drops `prefix` from the front of `s` when it is there. */
  function TrimPrefix(s: string, prefix: string): (r: string)
    ensures prefix <= s ==> s == prefix + r
    ensures !(prefix <= s) ==> r == s
  {
    if prefix <= s then s[|prefix|..] else s
  }

  // ---------------------------------------------------------------------------
  // strconv.Atoi on a 64-bit platform
  // ---------------------------------------------------------------------------

  const MaxInt64: int := 0x7fff_ffff_ffff_ffff
  const MinInt64: int := -0x8000_0000_0000_0000
  const MaxUint64: int := 0xffff_ffff_ffff_ffff

  /** `strconv.ParseUint`'s early overflow bound for base 10: maxUint64/10 + 1. */
  const Cutoff10: int := MaxUint64 / 10 + 1

  predicate IsDigit(c: char) {
    '0' <= c <= '9'
  }

  predicate AllDigits(s: string) {
    forall i :: 0 <= i < |s| ==> IsDigit(s[i])
  }

  function DigitValue(c: char): nat
    requires IsDigit(c)
  {
    (c as int) - ('0' as int)
  }

  /** The value of the digit string `s` read after the digits already worth `n`. */
  function DecimalFrom(s: string, n: nat): nat
    requires AllDigits(s)
    decreases |s|
  {
    if |s| == 0 then n else DecimalFrom(s[1..], 10 * n + DigitValue(s[0]))
  }

  /** The value of a string of decimal digits. */
  function Decimal(s: string): nat
    requires AllDigits(s)
  {
    DecimalFrom(s, 0)
  }

  /** What `strconv.ParseUint(s, 10, 64)` reports. */
  datatype UintScan = Digits(n: nat) | SyntaxError | RangeError

  /** The digit loop of `strconv.ParseUint`, continuing from the value `n`. */
  function ScanUint(s: string, n: nat): UintScan
    decreases |s|
  {
    if |s| == 0 then Digits(n)
    else if !IsDigit(s[0]) then SyntaxError
    else if n >= Cutoff10 then RangeError
    else
      var n1 := 10 * n + DigitValue(s[0]);
      if n1 > MaxUint64 then RangeError else ScanUint(s[1..], n1)
  }

  lemma {:induction false} DecimalFromGrows(s: string, n: nat)
    requires AllDigits(s)
    ensures DecimalFrom(s, n) >= n
    ensures |s| > 0 ==> DecimalFrom(s, n) >= 10 * n
    decreases |s|
  {
    if |s| > 0 {
      DecimalFromGrows(s[1..], 10 * n + DigitValue(s[0]));
    }
  }

  /** The scan yields a value exactly when the rest is all digits and fits in 64 bits. */
  lemma {:induction false} ScanUintSpec(s: string, n: nat)
    requires n <= MaxUint64
    ensures ScanUint(s, n).Digits? <==> AllDigits(s) && DecimalFrom(s, n) <= MaxUint64
    ensures ScanUint(s, n).Digits? ==> ScanUint(s, n).n == DecimalFrom(s, n)
    decreases |s|
  {
    if |s| > 0 && IsDigit(s[0]) {
      var n1 := 10 * n + DigitValue(s[0]);
      assert AllDigits(s) <==> AllDigits(s[1..]) by {
        if AllDigits(s[1..]) {
          forall i | 0 <= i < |s| ensures IsDigit(s[i]) {
            if i > 0 { assert s[i] == s[1..][i - 1]; }
          }
        }
      }
      if n >= Cutoff10 {
        if AllDigits(s) {
          DecimalFromGrows(s[1..], n1);
        }
      } else if n1 > MaxUint64 {
        if AllDigits(s) {
          DecimalFromGrows(s[1..], n1);
        }
      } else {
        ScanUintSpec(s[1..], n1);
      }
    } else if |s| > 0 {
      assert !AllDigits(s);
    }
  }

  /** A decimal integer as `strconv.ParseInt` accepts it: optional sign, then digits. */
  predicate WellFormedInt(s: string) {
    var body := if |s| > 0 && (s[0] == '+' || s[0] == '-') then s[1..] else s;
    |body| > 0 && AllDigits(body)
  }

  /** The value a well-formed decimal integer denotes. */
  function IntValue(s: string): int
    requires WellFormedInt(s)
  {
    if s[0] == '-' then -(Decimal(s[1..]) as int)
    else if s[0] == '+' then Decimal(s[1..])
    else Decimal(s)
  }

  /** The `(int, error)` pair returned by `strconv.Atoi`. */
  datatype Conversion = Conversion(value: int, ok: bool)

  /**
   * `strconv.Atoi` on a 64-bit platform (the slow path `ParseInt(s, 10, 0)`; the fast
   * path for strings shorter than 19 bytes gives the same answers). A syntax error
   * yields 0; an out-of-range value yields the nearest bound together with the error.
   */
  function Atoi(s: string): (r: Conversion)
    ensures r.ok <==> WellFormedInt(s) && MinInt64 <= IntValue(s) <= MaxInt64
    ensures r.ok ==> r.value == IntValue(s)
    ensures !r.ok ==> r.value == 0 || r.value == MaxInt64 || r.value == MinInt64
  {
    if |s| == 0 then Conversion(0, false)
    else
      var neg := s[0] == '-';
      var body := if s[0] == '+' || s[0] == '-' then s[1..] else s;
      var un := if |body| == 0 then SyntaxError else ScanUint(body, 0);
      ScanUintSpec(body, 0);
      match un
      case SyntaxError => Conversion(0, false)
      case RangeError => if neg then Conversion(MinInt64, false) else Conversion(MaxInt64, false)
      case Digits(n) =>
        if !neg && n > MaxInt64 then Conversion(MaxInt64, false)
        else if neg && n > -MinInt64 then Conversion(MinInt64, false)
        else Conversion(if neg then -(n as int) else n, true)
  }
}
