/**
 * The few pieces of Go's `strings`, `strconv` and `fmt` that the core relies on,
 * restricted to ASCII: character classes, upper-casing, searching, replacing,
 * and decimal conversion between integers and text.
 */
module Strings {
  import opened Basics

  predicate IsLower(c: char) { 'a' <= c <= 'z' }
  predicate IsUpper(c: char) { 'A' <= c <= 'Z' }
  predicate IsDigit(c: char) { '0' <= c <= '9' }

  // ---------------------------------------------------------------------------
  // Case

  /** Upper-casing of one character; letters outside ASCII are left alone. */
  function UpperChar(c: char): char {
    if IsLower(c) then (c as int - 32) as char else c
  }

  /** strings.ToUpper on ASCII text. */
  function ToUpper(s: string): (r: string)
    ensures |r| == |s|
    ensures forall i :: 0 <= i < |s| ==> r[i] == UpperChar(s[i])
  {
    if s == [] then [] else [UpperChar(s[0])] + ToUpper(s[1..])
  }

  /** a and b differ at most in the case of their ASCII letters. */
  predicate SameIgnoringCase(a: string, b: string) {
    |a| == |b| && forall i :: 0 <= i < |a| ==> UpperChar(a[i]) == UpperChar(b[i])
  }

  /** Two strings upper-case to the same text exactly when they differ only in case. */
  lemma ToUpperEqualIff(a: string, b: string)
    ensures ToUpper(a) == ToUpper(b) <==> SameIgnoringCase(a, b)
  {
    if SameIgnoringCase(a, b) {
      assert forall i :: 0 <= i < |a| ==> ToUpper(a)[i] == ToUpper(b)[i];
    }
  }

  /** Upper-casing twice is upper-casing once. */
  lemma ToUpperIdempotent(s: string)
    ensures ToUpper(ToUpper(s)) == ToUpper(s)
  {
    assert forall i :: 0 <= i < |s| ==> ToUpper(ToUpper(s))[i] == ToUpper(s)[i];
  }

  lemma AppendAssoc(a: string, b: string, c: string)
    ensures a + (b + c) == a + b + c
  {
  }

  // ---------------------------------------------------------------------------
  // Searching

  /** Index of the first occurrence of c in s (strings.IndexByte). */
  function IndexOf(s: string, c: char): (r: Option<nat>)
    ensures r.Some? ==> r.value < |s| && s[r.value] == c && c !in s[..r.value]
    ensures r.None? ==> c !in s
  {
    if s == [] then None
    else if s[0] == c then Some(0)
    else match IndexOf(s[1..], c)
      case None => None
      case Some(i) =>
        assert s[..i + 1] == [s[0]] + s[1..][..i];
        Some(i + 1)
  }

  /** Index of the last occurrence of c in s (strings.LastIndexByte). */
  function LastIndexOf(s: string, c: char): (r: Option<nat>)
    ensures r.Some? ==> r.value < |s| && s[r.value] == c && c !in s[r.value + 1..]
    ensures r.None? ==> c !in s
  {
    if s == [] then None
    else if s[|s| - 1] == c then Some(|s| - 1)
    else
      var r := LastIndexOf(s[..|s| - 1], c);
      assert r.Some? ==> s[r.value + 1..] == s[..|s| - 1][r.value + 1..] + [s[|s| - 1]];
      assert s == s[..|s| - 1] + [s[|s| - 1]];
      r
  }

  /** A position holding c with no earlier c is the one IndexOf finds. */
  lemma {:induction false} IndexOfAt(s: string, c: char, k: nat)
    requires k < |s| && s[k] == c && c !in s[..k]
    ensures IndexOf(s, c) == Some(k)
  {
    if k > 0 {
      assert s[0] == s[..k][0];
      assert s[1..][..k - 1] == s[1..k];
      assert s[..k] == [s[0]] + s[1..k];
      IndexOfAt(s[1..], c, k - 1);
    }
  }

  /** A position holding c with no later c is the one LastIndexOf finds. */
  lemma {:induction false} LastIndexOfAt(s: string, c: char, k: nat)
    requires k < |s| && s[k] == c && c !in s[k + 1..]
    ensures LastIndexOf(s, c) == Some(k)
  {
    if k < |s| - 1 {
      assert s[|s| - 1] == s[k + 1..][|s| - 2 - k];
      assert s[..|s| - 1][k + 1..] == s[k + 1..|s| - 1];
      assert s[k + 1..] == s[k + 1..|s| - 1] + [s[|s| - 1]];
      LastIndexOfAt(s[..|s| - 1], c, k);
    }
  }

  // ---------------------------------------------------------------------------
  // Splitting and joining

  /** The parts written one after another with a single sep between neighbours (strings.Join). */
  function Join(parts: seq<string>, sep: char): string {
    if parts == [] then ""
    else if |parts| == 1 then parts[0]
    else parts[0] + [sep] + Join(parts[1..], sep)
  }

  /** The text cut at every sep (strings.Split with a one-character separator). */
  function Split(s: string, sep: char): (parts: seq<string>)
    ensures |parts| >= 1
    ensures Join(parts, sep) == s
    ensures forall k :: 0 <= k < |parts| ==> sep !in parts[k]
    decreases |s|
  {
    match IndexOf(s, sep)
    case None => [s]
    case Some(i) =>
      var rest := Split(s[i + 1..], sep);
      assert s == s[..i] + [sep] + s[i + 1..];
      assert ([s[..i]] + rest)[1..] == rest;
      [s[..i]] + rest
  }

  /** Cutting sep-free parts joined by sep gives the parts back. */
  lemma {:induction false} SplitJoin(parts: seq<string>, sep: char)
    requires |parts| >= 1
    requires forall k :: 0 <= k < |parts| ==> sep !in parts[k]
    ensures Split(Join(parts, sep), sep) == parts
    decreases |parts|
  {
    if |parts| > 1 {
      var s := Join(parts, sep);
      var p0 := parts[0];
      assert s == p0 + [sep] + Join(parts[1..], sep);
      assert s[..|p0|] == p0;
      assert s[|p0|] == sep;
      IndexOfAt(s, sep, |p0|);
      assert s[|p0| + 1..] == Join(parts[1..], sep);
      assert forall k :: 0 <= k < |parts| - 1 ==> parts[1..][k] == parts[k + 1];
      SplitJoin(parts[1..], sep);
      assert parts == [p0] + parts[1..];
    }
  }

  /** Joining one more part adds a separator and the part. */
  lemma JoinSnoc(parts: seq<string>, last: string, sep: char)
    requires |parts| > 0
    ensures Join(parts + [last], sep) == Join(parts, sep) + [sep] + last
    decreases |parts|
  {
    if |parts| > 1 {
      assert (parts + [last])[1..] == parts[1..] + [last];
      JoinSnoc(parts[1..], last, sep);
    } else {
      assert (parts + [last])[1..] == [last];
    }
  }

  /** p occurs in s starting at index i. */
  predicate OccursAt(p: string, s: string, i: int) {
    0 <= i && i + |p| <= |s| && s[i..i + |p|] == p
  }

  /** p occurs in s as a contiguous piece. */
  ghost predicate Occurs(p: string, s: string) {
    exists i :: OccursAt(p, s, i)
  }

  /** A pattern whose first character is absent from s cannot occur in s. */
  lemma AbsentFirstCharNoOccurrence(p: string, s: string)
    requires |p| > 0 && p[0] !in s
    ensures !Occurs(p, s)
  {
    forall i | 0 <= i && i + |p| <= |s|
      ensures !OccursAt(p, s, i)
    {
      assert s[i..i + |p|][0] == s[i];
    }
  }

  /** Number of occurrences of c in s. */
  function CountChar(s: string, c: char): nat {
    if s == [] then 0 else (if s[0] == c then 1 else 0) + CountChar(s[1..], c)
  }

  lemma {:induction false} CountCharAppend(a: string, b: string, c: char)
    ensures CountChar(a + b, c) == CountChar(a, c) + CountChar(b, c)
  {
    if a != [] {
      assert (a + b)[1..] == a[1..] + b;
      CountCharAppend(a[1..], b, c);
    } else {
      assert a + b == b;
    }
  }

  lemma {:induction false} CountCharAbsent(s: string, c: char)
    requires c !in s
    ensures CountChar(s, c) == 0
  {
    if s != [] {
      assert s[1..] == s[1..] && forall x :: x in s[1..] ==> x in s;
      CountCharAbsent(s[1..], c);
    }
  }

  // ---------------------------------------------------------------------------
  // Replacing

  /**
   * strings.ReplaceAll for a non-empty pattern: occurrences are found left to
   * right and do not overlap; replaced text is never scanned again.
   */
  function ReplaceAll(s: string, pat: string, rep: string): string
    requires |pat| > 0
    decreases |s|
  {
    if |s| < |pat| then s
    else if s[..|pat|] == pat then rep + ReplaceAll(s[|pat|..], pat, rep)
    else [s[0]] + ReplaceAll(s[1..], pat, rep)
  }

  /** Replacing a pattern that does not occur leaves the text unchanged. */
  lemma {:induction false} ReplaceAllAbsent(s: string, pat: string, rep: string)
    requires |pat| > 0 && !Occurs(pat, s)
    ensures ReplaceAll(s, pat, rep) == s
    decreases |s|
  {
    if |s| >= |pat| {
      assert s[0..|pat|] == s[..|pat|];
      assert !OccursAt(pat, s, 0);
      forall i | 0 <= i && i + |pat| <= |s| - 1
        ensures !OccursAt(pat, s[1..], i)
      {
        assert s[1..][i..i + |pat|] == s[i + 1..i + 1 + |pat|];
        assert !OccursAt(pat, s, i + 1);
      }
      ReplaceAllAbsent(s[1..], pat, rep);
      assert s == [s[0]] + s[1..];
    }
  }

  /** Text that is exactly the pattern becomes exactly the replacement. */
  lemma ReplaceAllWhole(pat: string, rep: string)
    requires |pat| > 0
    ensures ReplaceAll(pat, pat, rep) == rep
  {
    assert pat[..|pat|] == pat;
    assert pat[|pat|..] == [];
    assert ReplaceAll([], pat, rep) == [];
  }

  // ---------------------------------------------------------------------------
  // Decimal conversion

  function DigitChar(d: nat): (c: char)
    requires d < 10
    ensures IsDigit(c)
  {
    ('0' as int + d) as char
  }

  function DigitValue(c: char): nat
    requires IsDigit(c)
  {
    c as int - '0' as int
  }

  predicate AllDigits(s: string) {
    forall i :: 0 <= i < |s| ==> IsDigit(s[i])
  }

  /** The decimal digits of n, most significant first, without leading zeros. */
  function NatToString(n: nat): (r: string)
    ensures |r| > 0 && AllDigits(r)
    decreases n
  {
    if n < 10 then [DigitChar(n)] else NatToString(n / 10) + [DigitChar(n % 10)]
  }

  /** fmt.Sprintf("%d", n) and strconv.Itoa(n). */
  function IntToString(n: int): string {
    if n < 0 then "-" + NatToString(-n) else NatToString(n)
  }

  const MaxInt64: int := 0x7FFF_FFFF_FFFF_FFFF
  const MinInt64: int := -0x8000_0000_0000_0000
  const MaxUint64: int := 0xFFFF_FFFF_FFFF_FFFF

  /** Outcome of strconv.ParseUint's digit loop. */
  datatype DigitScan = Scanned(value: nat) | BadDigit | Overflowed

  /**
   * strconv.ParseUint's loop in base 10 from accumulator acc: a non-digit is a
   * syntax error, checked before overflow; exceeding 2^64-1 is a range error and
   * stops the scan.
   */
  function ScanDigits(s: string, acc: nat): DigitScan
    decreases |s|
  {
    if s == [] then Scanned(acc)
    else if !IsDigit(s[0]) then BadDigit
    else if acc * 10 + DigitValue(s[0]) > MaxUint64 then Overflowed
    else ScanDigits(s[1..], acc * 10 + DigitValue(s[0]))
  }

  /**
   * strconv.Atoi on a 64-bit platform with its error discarded: an optional sign
   * followed by decimal digits gives their value, clamped to the int64 range on
   * overflow; any other text gives 0.
   */
  function Atoi(s: string): int {
    var neg := |s| > 0 && s[0] == '-';
    var digits := if |s| > 0 && (s[0] == '+' || s[0] == '-') then s[1..] else s;
    if digits == [] then 0
    else match ScanDigits(digits, 0)
      case BadDigit => 0
      case Overflowed => if neg then MinInt64 else MaxInt64
      case Scanned(u) =>
        if !neg && u > MaxInt64 then MaxInt64
        else if neg && u > -MinInt64 then MinInt64
        else if neg then -(u as int) else u
  }

  /** Text whose first character after the optional sign is not a digit (or that has no such character) reads as 0. */
  lemma AtoiNonNumeric(s: string)
    requires var digits := if |s| > 0 && (s[0] == '+' || s[0] == '-') then s[1..] else s;
      digits == [] || !IsDigit(digits[0])
    ensures Atoi(s) == 0
  {
  }

  lemma {:induction false} ScanDigitsSnoc(s: string, d: char, acc: nat, v: nat)
    requires IsDigit(d) && ScanDigits(s, acc) == Scanned(v)
    ensures ScanDigits(s + [d], acc) ==
      if v * 10 + DigitValue(d) > MaxUint64 then Overflowed else Scanned(v * 10 + DigitValue(d))
    decreases |s|
  {
    if s == [] {
      assert s + [d] == [d];
      assert [d][1..] == [];
    } else {
      assert (s + [d])[0] == s[0];
      assert (s + [d])[1..] == s[1..] + [d];
      ScanDigitsSnoc(s[1..], d, acc * 10 + DigitValue(s[0]), v);
    }
  }

  /** Scanning the decimal text of n gives back n. */
  lemma {:induction false} ScanNatToString(n: nat)
    requires n <= MaxUint64
    ensures ScanDigits(NatToString(n), 0) == Scanned(n)
    decreases n
  {
    if n < 10 {
      assert [DigitChar(n)][1..] == [];
    } else {
      ScanNatToString(n / 10);
      ScanDigitsSnoc(NatToString(n / 10), DigitChar(n % 10), 0, n / 10);
    }
  }

  /** Atoi undoes IntToString on the whole int64 range: the text an int flag reports parses back to its value. */
  lemma AtoiIntToString(n: int)
    requires MinInt64 <= n <= MaxInt64
    ensures Atoi(IntToString(n)) == n
  {
    if n < 0 {
      ScanNatToString(-n);
      assert ("-" + NatToString(-n))[1..] == NatToString(-n);
    } else {
      ScanNatToString(n);
      var s := NatToString(n);
      assert IsDigit(s[0]);
    }
  }

  const TrueSpellings: seq<string> := ["1", "t", "T", "TRUE", "true", "True"]
  const FalseSpellings: seq<string> := ["0", "f", "F", "FALSE", "false", "False"]

  /** strconv.ParseBool: the six spellings of true, the six of false, an error for anything else. */
  function ParseBool(s: string): Result<bool, string> {
    if s in TrueSpellings then Success(true)
    else if s in FalseSpellings then Success(false)
    else Failure(s)
  }

  /** `b, _ := strconv.ParseBool(s)`: the error is dropped and b is then false. */
  function ParseBoolValue(s: string): bool {
    match ParseBool(s)
    case Success(b) => b
    case Failure(_) => false
  }

  // ---------------------------------------------------------------------------
  // Formatting

  /** The elements of xs separated by single spaces. */
  function JoinWithSpaces(xs: seq<string>): string {
    if xs == [] then "" else if |xs| == 1 then xs[0] else xs[0] + " " + JoinWithSpaces(xs[1..])
  }

  /** fmt's `%v` of a []string: the elements between brackets, separated by spaces. */
  function GoSliceString(xs: seq<string>): string {
    "[" + JoinWithSpaces(xs) + "]"
  }
}
