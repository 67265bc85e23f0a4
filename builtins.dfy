/**
 * The few JavaScript built-ins the recipe client relies on, written out so
 * that the rest of the model can reason about them:
 * - `String.prototype.trim` (over ECMAScript's WhiteSpace and LineTerminator characters),
 * - `Number.prototype.toString` on integers (decimal digits),
 * - `Array.prototype.join` and its inverse `String.prototype.split` for a
 *   one-character separator.
 */
module Builtins {

  /** `T | null` (or an absent optional property) in the source. */
  datatype Option<T> = None | Some(value: T)

  // ---------------------------------------------------------------------
  // Whitespace and trim
  // ---------------------------------------------------------------------

  /** The whitespace and line-terminator characters `trim` strips: ECMAScript's set as of Unicode 6.3. */
  const WhitespaceChars: set<char> := {
    ' ', '\t', '\n', '\r', '\U{000B}', '\U{000C}', '\U{00A0}', '\U{1680}',
    '\U{2000}', '\U{2001}', '\U{2002}', '\U{2003}', '\U{2004}', '\U{2005}',
    '\U{2006}', '\U{2007}', '\U{2008}', '\U{2009}', '\U{200A}',
    '\U{2028}', '\U{2029}', '\U{202F}', '\U{205F}', '\U{3000}', '\U{FEFF}'
  }

  predicate IsWhitespace(c: char) {
    c in WhitespaceChars
  }

  predicate AllWhitespace(s: string) {
    forall i :: 0 <= i < |s| ==> IsWhitespace(s[i])
  }

  /** How many whitespace characters `s` starts with. */
  function LeadingWhitespace(s: string): (n: nat)
    ensures n <= |s|
    ensures forall k :: 0 <= k < n ==> IsWhitespace(s[k])
    ensures n < |s| ==> !IsWhitespace(s[n])
  {
    if s != [] && IsWhitespace(s[0]) then 1 + LeadingWhitespace(s[1..]) else 0
  }

  /** How many whitespace characters `s` ends with. */
  function TrailingWhitespace(s: string): (n: nat)
    ensures n <= |s|
    ensures forall k :: |s| - n <= k < |s| ==> IsWhitespace(s[k])
    ensures n < |s| ==> !IsWhitespace(s[|s| - 1 - n])
  {
    if s != [] && IsWhitespace(s[|s| - 1]) then 1 + TrailingWhitespace(s[..|s| - 1]) else 0
  }

  /**
   * `s.trim()`: the infix of `s` that starts after its leading whitespace
   * and is followed by whitespace only. It is empty exactly when `s` is whitespace only, and otherwise it
   * starts and ends with a non-whitespace character.
   */
  function Trim(s: string): (r: string)
    ensures r == [] <==> AllWhitespace(s)
    ensures r != [] ==> !IsWhitespace(r[0]) && !IsWhitespace(r[|r| - 1])
    ensures var i := LeadingWhitespace(s);
            && i + |r| <= |s| && r == s[i..i + |r|]
            && forall k :: i + |r| <= k < |s| ==> IsWhitespace(s[k])
  {
    var lead := LeadingWhitespace(s);
    if lead == |s| then
      ""
    else
      var trail := TrailingWhitespace(s);
      assert trail < |s| - lead;
      var r := s[lead..|s| - trail];
      assert r == s[lead..lead + |r|];
      r
  }

  /** Trimming twice is trimming once. */
  lemma TrimIdempotent(s: string)
    ensures Trim(Trim(s)) == Trim(s)
  {
  }

  // ---------------------------------------------------------------------
  // Decimal rendering of integers
  // ---------------------------------------------------------------------

  predicate IsDigit(c: char) {
    '0' <= c <= '9'
  }

  function DigitChar(d: nat): (c: char)
    requires d < 10
    ensures IsDigit(c) && (c as int) - ('0' as int) == d
  {
    ('0' as int + d) as char
  }

  function DigitValue(c: char): (d: nat)
    requires IsDigit(c)
    ensures d < 10 && DigitChar(d) == c
  {
    (c as int) - ('0' as int)
  }

  /** `n.toString()` for a non-negative integer: digits, no leading zero. */
  function NatToDecimal(n: nat): (s: string)
    ensures |s| >= 1 && forall i :: 0 <= i < |s| ==> IsDigit(s[i])
    ensures s[0] == '0' <==> n == 0
    ensures n == 0 ==> s == "0"
  {
    if n < 10 then [DigitChar(n)] else NatToDecimal(n / 10) + [DigitChar(n % 10)]
  }

  /** The number a digit string denotes. */
  function DecimalValue(s: string): nat
    requires forall i :: 0 <= i < |s| ==> IsDigit(s[i])
  {
    if s == [] then 0 else DecimalValue(s[..|s| - 1]) * 10 + DigitValue(s[|s| - 1])
  }

  /** Reading back the digits of `n` gives `n`. */
  lemma {:induction false} DecimalRoundTrip(n: nat)
    ensures DecimalValue(NatToDecimal(n)) == n
  {
    var s := NatToDecimal(n);
    if n >= 10 {
      DecimalRoundTrip(n / 10);
      assert s[..|s| - 1] == NatToDecimal(n / 10);
    }
  }

  /** `i.toString()` for an integer of magnitude below 10^21 (larger ones print in exponent form). */
  function IntToString(i: int): (s: string)
    ensures |s| >= 1
    ensures i < 0 <==> s[0] == '-'
    ensures i >= 0 ==> s == NatToDecimal(i)
    ensures i < 0 ==> s[1..] == NatToDecimal(-i)
  {
    if i < 0 then "-" + NatToDecimal(-i) else NatToDecimal(i)
  }

  /** The shape `IntToString` produces: an optional minus sign, then digits. */
  predicate IsIntString(s: string) {
    if |s| >= 1 && s[0] == '-' then
      |s| >= 2 && forall i :: 1 <= i < |s| ==> IsDigit(s[i])
    else
      |s| >= 1 && forall i :: 0 <= i < |s| ==> IsDigit(s[i])
  }

  /** The integer a string of that shape denotes. */
  function IntValue(s: string): int
    requires IsIntString(s)
  {
    if s[0] == '-' then -(DecimalValue(s[1..]) as int) else DecimalValue(s)
  }

  /** Reading back `i.toString()` gives `i`. */
  lemma IntRoundTrip(i: int)
    ensures IsIntString(IntToString(i)) && IntValue(IntToString(i)) == i
  {
    if i < 0 {
      DecimalRoundTrip(-i);
    } else {
      DecimalRoundTrip(i);
    }
  }

  // ---------------------------------------------------------------------
  // join and split
  // ---------------------------------------------------------------------

  /** `parts.join(sep)`: `[]` gives "", one part gives that part. */
  function Join(parts: seq<string>, sep: char): string
  {
    if |parts| == 0 then ""
    else if |parts| == 1 then parts[0]
    else
      parts[0] + [sep] + Join(parts[1..], sep)
  }

  /** `s.split(sep)`: never empty; "" splits into [""]. */
  function Split(s: string, sep: char): (parts: seq<string>)
    ensures |parts| >= 1
  {
    if s == [] then [""]
    else
      var rest := Split(s[1..], sep);
      if s[0] == sep then [""] + rest else [[s[0]] + rest[0]] + rest[1..]
  }

  lemma {:induction false} SplitNoSeparator(a: string, sep: char)
    requires sep !in a
    ensures Split(a, sep) == [a]
  {
    if a != [] {
      SplitNoSeparator(a[1..], sep);
      assert [a[0]] + a[1..] == a;
    }
  }

  lemma {:induction false} SplitAfterPart(a: string, sep: char, t: string)
    requires sep !in a
    ensures Split(a + [sep] + t, sep) == [a] + Split(t, sep)
  {
    var s := a + [sep] + t;
    if a == [] {
      assert s[1..] == t;
    } else {
      SplitAfterPart(a[1..], sep, t);
      assert s[1..] == a[1..] + [sep] + t;
      assert [a[0]] + a[1..] == a;
    }
  }

  /**
   * Splitting a join recovers the parts, provided no part contains the
   * separator and there is at least one part.
   */
  lemma {:induction false} SplitJoin(parts: seq<string>, sep: char)
    requires |parts| >= 1
    requires forall p :: p in parts ==> sep !in p
    ensures Split(Join(parts, sep), sep) == parts
  {
    if |parts| == 1 {
      SplitNoSeparator(parts[0], sep);
    } else {
      assert forall p :: p in parts[1..] ==> p in parts;
      SplitJoin(parts[1..], sep);
      SplitAfterPart(parts[0], sep, Join(parts[1..], sep));
      assert [parts[0]] + parts[1..] == parts;
    }
  }

  // ---------------------------------------------------------------------
  // filter by value, subsequences, duplicates
  // ---------------------------------------------------------------------

  predicate NoDuplicates<T(==)>(xs: seq<T>) {
    forall i, j :: 0 <= i < j < |xs| ==> xs[i] != xs[j]
  }

  /** `xs.filter(x => x !== v)`: every copy of `v` removed, the rest kept. */
  function Omit<T(==)>(xs: seq<T>, v: T): (r: seq<T>)
    ensures forall i :: 0 <= i < |r| ==> r[i] in xs && r[i] != v
    ensures forall i :: 0 <= i < |xs| && xs[i] != v ==> xs[i] in r
    ensures |r| <= |xs|
  {
    if xs == [] then []
    else (if xs[0] == v then [] else [xs[0]]) + Omit(xs[1..], v)
  }

  /** `a` is `b` with some elements left out, the rest in their order. */
  predicate IsSubsequence<T(==)>(a: seq<T>, b: seq<T>)
    decreases |b|
  {
    if a == [] then true
    else if b == [] then false
    else if a[0] == b[0] then IsSubsequence(a[1..], b[1..])
    else IsSubsequence(a, b[1..])
  }

  lemma {:induction false} OmitIsSubsequence<T>(xs: seq<T>, v: T)
    ensures IsSubsequence(Omit(xs, v), xs)
  {
    if xs != [] {
      OmitIsSubsequence(xs[1..], v);
      var r := Omit(xs, v);
      if xs[0] != v {
        assert r[1..] == Omit(xs[1..], v);
      } else {
        assert r == Omit(xs[1..], v);
        assert r == [] || r[0] != xs[0];
      }
    }
  }

  /** Filtering out a value that is absent changes nothing. */
  lemma {:induction false} OmitAbsent<T>(xs: seq<T>, v: T)
    requires v !in xs
    ensures Omit(xs, v) == xs
  {
    if xs != [] {
      OmitAbsent(xs[1..], v);
      assert [xs[0]] + xs[1..] == xs;
    }
  }

  lemma {:induction false} OmitAppend<T>(xs: seq<T>, ys: seq<T>, v: T)
    ensures Omit(xs + ys, v) == Omit(xs, v) + Omit(ys, v)
  {
    if xs != [] {
      OmitAppend(xs[1..], ys, v);
      assert (xs + ys)[1..] == xs[1..] + ys;
    } else {
      assert xs + ys == ys;
    }
  }

  /** Appending `v` and then filtering it out gives back a list without `v`. */
  lemma AppendThenOmit<T>(xs: seq<T>, v: T)
    requires v !in xs
    ensures Omit(xs + [v], v) == xs
  {
    OmitAppend(xs, [v], v);
    OmitAbsent(xs, v);
  }

  lemma {:induction false} OmitKeepsNoDuplicates<T>(xs: seq<T>, v: T)
    requires NoDuplicates(xs)
    ensures NoDuplicates(Omit(xs, v))
  {
    if xs != [] {
      OmitKeepsNoDuplicates(xs[1..], v);
      assert xs[0] !in xs[1..];
    }
  }

  /** Filtering out `v` removes exactly its copies from the multiset. */
  lemma {:induction false} OmitMultiset<T>(xs: seq<T>, v: T)
    ensures multiset(Omit(xs, v)) == multiset(xs)[v := 0]
  {
    if xs != [] {
      OmitMultiset(xs[1..], v);
      assert xs == [xs[0]] + xs[1..];
    }
  }

  lemma {:induction false} SubsequenceDropFirst<T>(a: seq<T>, b: seq<T>)
    requires a != [] && IsSubsequence(a, b)
    ensures IsSubsequence(a[1..], b)
    decreases |b|, 1
  {
    if a[0] != b[0] {
      SubsequenceDropFirst(a, b[1..]);
    }
    SubsequenceCons(a[1..], b[0], b[1..]);
    assert [b[0]] + b[1..] == b;
  }

  lemma {:induction false} SubsequenceCons<T>(a: seq<T>, x: T, b: seq<T>)
    requires IsSubsequence(a, b)
    ensures IsSubsequence(a, [x] + b)
    decreases |b|, 2
  {
    var xb := [x] + b;
    assert xb[1..] == b;
    if a != [] && a[0] == x {
      SubsequenceDropFirst(a, b);
    }
  }
}
