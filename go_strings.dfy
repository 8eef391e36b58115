/** The parts of Go's `strings` and `strconv` packages the provider relies on,
    restricted to what the provider passes them: single-character separators,
    base-10 integers on a 64-bit platform, and ASCII letter case. */
module GoStrings {
  import opened Wrappers

  const MinInt64: int := -0x8000_0000_0000_0000
  const MaxInt64: int := 0x7FFF_FFFF_FFFF_FFFF

  /** Go's `int` on a 64-bit platform. */
  type Int64 = x: int | MinInt64 <= x <= MaxInt64

  // ---------------------------------------------------------------------------
  // strings.Split / strings.Contains with a one-character separator
  // ---------------------------------------------------------------------------

  /** Position of the first occurrence of `c` in `s`. */
  function IndexOf(s: string, c: char): (k: nat)
    requires c in s
    ensures k < |s| && s[k] == c && c !in s[..k]
  {
    if s[0] == c then 0
    else
      var k := 1 + IndexOf(s[1..], c);
      assert s[..k] == [s[0]] + s[1..][..k - 1];
      k
  }

  /** strings.Split(s, sep): the pieces of `s` between occurrences of `sep`;
      one piece more than there are separators, never an empty list. */
  function Split(s: string, sep: char): (parts: seq<string>)
    ensures |parts| >= 1
    ensures forall i :: 0 <= i < |parts| ==> sep !in parts[i]
    ensures sep in s <==> |parts| >= 2
    decreases |s|
  {
    if sep !in s then [s]
    else
      var k := IndexOf(s, sep);
      [s[..k]] + Split(s[k + 1..], sep)
  }

  /** strings.Join(parts, sep), the inverse of Split. */
  function Join(parts: seq<string>, sep: char): string
    requires |parts| >= 1
  {
    if |parts| == 1 then parts[0] else parts[0] + [sep] + Join(parts[1..], sep)
  }

  lemma {:induction false} SplitThenJoin(s: string, sep: char)
    ensures Join(Split(s, sep), sep) == s
    decreases |s|
  {
    if sep in s {
      var k := IndexOf(s, sep);
      SplitThenJoin(s[k + 1..], sep);
      assert s == s[..k] + [sep] + s[k + 1..];
    }
  }

  lemma {:induction false} JoinThenSplit(parts: seq<string>, sep: char)
    requires |parts| >= 1
    requires forall i :: 0 <= i < |parts| ==> sep !in parts[i]
    ensures Split(Join(parts, sep), sep) == parts
  {
    if |parts| > 1 {
      var head, rest := parts[0], Join(parts[1..], sep);
      var s := head + [sep] + rest;
      assert Join(parts, sep) == s;
      assert s[|head|] == sep;
      IndexOfAfter(head, rest, sep);
      assert s[..|head|] == head;
      assert s[|head| + 1..] == rest;
      JoinThenSplit(parts[1..], sep);
      assert Split(s, sep) == [head] + Split(rest, sep);
      assert parts == [head] + parts[1..];
    }
  }

  /** The first separator in `a`, separator, `b` is the one after `a`. */
  lemma {:induction false} IndexOfAfter(a: string, b: string, c: char)
    requires c !in a
    ensures IndexOf(a + [c] + b, c) == |a|
  {
    if a != [] {
      IndexOfAfter(a[1..], b, c);
      assert (a + [c] + b)[1..] == a[1..] + [c] + b;
    }
  }

  /** A string built as `a`, the separator, `b` splits into exactly `[a, b]`. */
  lemma SplitPair(a: string, b: string, sep: char)
    requires sep !in a && sep !in b
    ensures Split(a + [sep] + b, sep) == [a, b]
  {
    assert Join([a, b], sep) == a + [sep] + b;
    JoinThenSplit([a, b], sep);
  }

  /** Splitting at the first separator: the piece before it, then the
      pieces of the rest. */
  lemma SplitFirst(a: string, b: string, sep: char)
    requires sep !in a
    ensures Split(a + [sep] + b, sep) == [a] + Split(b, sep)
  {
    var s := a + [sep] + b;
    IndexOfAfter(a, b, sep);
    assert s[..|a|] == a;
    assert s[|a| + 1..] == b;
  }

  // ---------------------------------------------------------------------------
  // strconv.Atoi / strconv.Itoa
  // ---------------------------------------------------------------------------

  predicate IsDigit(c: char) { '0' <= c <= '9' }

  predicate AllDigits(s: string) { forall i :: 0 <= i < |s| ==> IsDigit(s[i]) }

  function DigitValue(c: char): nat
    requires IsDigit(c)
  {
    (c as int) - ('0' as int)
  }

  function DigitChar(d: nat): (c: char)
    requires d < 10
    ensures IsDigit(c) && DigitValue(c) == d
  {
    (('0' as int) + d) as char
  }

  /** The number a run of decimal digits denotes, most significant digit first. */
  function DecimalValue(s: string): nat
    requires AllDigits(s)
  {
    if s == [] then 0 else 10 * DecimalValue(s[..|s| - 1]) + DigitValue(s[|s| - 1])
  }

  /** The shortest decimal rendering of a natural number. */
  function NatToDecimal(n: nat): (s: string)
    ensures |s| >= 1 && AllDigits(s)
  {
    if n < 10 then [DigitChar(n)] else NatToDecimal(n / 10) + [DigitChar(n % 10)]
  }

  lemma {:induction false} DecimalOfNatToDecimal(n: nat)
    ensures DecimalValue(NatToDecimal(n)) == n
  {
    if n >= 10 {
      var s := NatToDecimal(n);
      DecimalOfNatToDecimal(n / 10);
      assert s[..|s| - 1] == NatToDecimal(n / 10);
    }
  }

  /** strconv.Atoi on a 64-bit platform: an optional sign and at least one
      decimal digit, denoting a value that fits an `int`; anything else is an
      error (None). The syntax and range errors are not told apart. */
  function Atoi(s: string): Option<int>
  {
    var signed := |s| > 0 && (s[0] == '+' || s[0] == '-');
    var digits := if signed then s[1..] else s;
    if digits == [] || !AllDigits(digits) then None
    else
      var magnitude: int := DecimalValue(digits);
      var v := if signed && s[0] == '-' then -magnitude else magnitude;
      if MinInt64 <= v <= MaxInt64 then Some(v) else None
  }

  /** The text of the error strconv.Atoi returns for a string it rejects:
      a syntax error unless the string is a well-formed number too large
      for an `int`. Go quotes `s` with strconv.Quote; here it is quoted
      verbatim. */
  function AtoiError(s: string): string
  {
    var signed := |s| > 0 && (s[0] == '+' || s[0] == '-');
    var digits := if signed then s[1..] else s;
    var reason := if digits == [] || !AllDigits(digits) then "invalid syntax" else "value out of range";
    "strconv.Atoi: parsing \"" + s + "\": " + reason
  }

  /** strconv.Itoa: a minus sign for negative numbers, then the digits. */
  function Itoa(n: int): string
  {
    if n < 0 then "-" + NatToDecimal(-n) else NatToDecimal(n)
  }

  /** What Atoi accepts: only in-range integers, and never a string that is
      empty or holds a character other than a leading sign and digits. */
  lemma AtoiAccepts(s: string)
    ensures Atoi(s).Some? ==> MinInt64 <= Atoi(s).value <= MaxInt64
    ensures Atoi(s).Some? ==> |s| >= 1 && forall i :: 1 <= i < |s| ==> IsDigit(s[i])
    ensures Atoi(s).Some? ==> IsDigit(s[0]) || s[0] == '+' || s[0] == '-'
  {
    if Atoi(s).Some? {
      var signed := |s| > 0 && (s[0] == '+' || s[0] == '-');
      var digits := if signed then s[1..] else s;
      forall i | 1 <= i < |s| ensures IsDigit(s[i]) {
        if signed { assert s[i] == digits[i - 1]; } else { assert s[i] == digits[i]; }
      }
    }
  }

  /** Itoa writes only digits and a leading minus sign. */
  lemma ItoaChars(n: int)
    ensures forall i :: 0 <= i < |Itoa(n)| ==> IsDigit(Itoa(n)[i]) || (i == 0 && Itoa(n)[i] == '-')
  {
    if n < 0 {
      var d := NatToDecimal(-n);
      assert forall i :: 1 <= i < |Itoa(n)| ==> Itoa(n)[i] == d[i - 1];
    }
  }

  /** Itoa and Atoi are inverse on Go's `int`. */
  lemma AtoiOfItoa(n: Int64)
    ensures Atoi(Itoa(n)) == Some(n)
  {
    if n < 0 {
      var m: nat := -(n as int);
      DecimalOfNatToDecimal(m);
      assert ("-" + NatToDecimal(m))[1..] == NatToDecimal(m);
    } else {
      DecimalOfNatToDecimal(n);
    }
  }

  // ---------------------------------------------------------------------------
  // strconv.FormatBool
  // ---------------------------------------------------------------------------

  function FormatBool(b: bool): (s: string)
    ensures s == "true" <==> b
    ensures s == "false" <==> !b
  {
    if b then "true" else "false"
  }

  // ---------------------------------------------------------------------------
  // strings.ToLower / strings.EqualFold over ASCII
  // ---------------------------------------------------------------------------

  function LowerChar(c: char): char
  {
    if 'A' <= c <= 'Z' then ((c as int) + 32) as char else c
  }

  /** strings.ToLower for ASCII text: every upper-case letter lowered, every
      other character kept. */
  function ToLower(s: string): (r: string)
    ensures |r| == |s|
    ensures forall i :: 0 <= i < |s| ==> r[i] == LowerChar(s[i])
  {
    if s == [] then [] else [LowerChar(s[0])] + ToLower(s[1..])
  }

  lemma ToLowerIdempotent(s: string)
    ensures ToLower(ToLower(s)) == ToLower(s)
  {
  }

  /** strings.EqualFold for ASCII text: the two strings agree character by
      character once letter case is ignored. */
  predicate EqualFold(a: string, b: string)
  {
    if a == [] || b == [] then a == b
    else LowerChar(a[0]) == LowerChar(b[0]) && EqualFold(a[1..], b[1..])
  }

  /** EqualFold holds exactly when both strings lower to the same string. */
  lemma {:induction false} EqualFoldIffSameLower(a: string, b: string)
    ensures EqualFold(a, b) <==> ToLower(a) == ToLower(b)
  {
    if a != [] && b != [] {
      EqualFoldIffSameLower(a[1..], b[1..]);
      assert ToLower(a) == [LowerChar(a[0])] + ToLower(a[1..]);
      assert ToLower(b) == [LowerChar(b[0])] + ToLower(b[1..]);
      if ToLower(a) == ToLower(b) {
        assert ToLower(a)[1..] == ToLower(a[1..]);
        assert ToLower(b)[1..] == ToLower(b[1..]);
      }
    }
  }
}
