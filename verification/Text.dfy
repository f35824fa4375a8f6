/** Strings of C++ chars: byte classes, searching, case folding and decimal numbers. */
module Text {

  /** A std::string holds bytes. */
  predicate Bytes(s: string) {
    forall i :: 0 <= i < |s| ==> s[i] as int < 256
  }

  predicate All(s: string, p: char -> bool) {
    forall i :: 0 <= i < |s| ==> p(s[i])
  }

  /** The index of the first character of s that is one of stops, or the length of s. */
  function Span(s: string, stops: string): (k: nat)
    ensures k <= |s|
    ensures forall i :: 0 <= i < k ==> s[i] !in stops
    ensures k < |s| ==> s[k] in stops
  {
    if s == "" || s[0] in stops then 0 else Span(s[1..], stops) + 1
  }

  /** The index of the first character of s without p, or the length of s. */
  function SpanWhile(s: string, p: char -> bool): (k: nat)
    ensures k <= |s|
    ensures forall i :: 0 <= i < k ==> p(s[i])
    ensures k < |s| ==> !p(s[k])
  {
    if s == "" || !p(s[0]) then 0 else SpanWhile(s[1..], p) + 1
  }

  lemma {:induction false} SpanAt(s: string, stops: string, k: nat)
    requires k <= |s|
    requires forall i :: 0 <= i < k ==> s[i] !in stops
    requires k < |s| ==> s[k] in stops
    ensures Span(s, stops) == k
  {
    if k > 0 {
      SpanAt(s[1..], stops, k - 1);
    }
  }

  lemma {:induction false} SpanWhileAt(s: string, p: char -> bool, k: nat)
    requires k <= |s|
    requires forall i :: 0 <= i < k ==> p(s[i])
    requires k < |s| ==> !p(s[k])
    ensures SpanWhile(s, p) == k
  {
    if k > 0 {
      SpanWhileAt(s[1..], p, k - 1);
    }
  }

  lemma AllConcat(a: string, b: string, p: char -> bool)
    ensures All(a + b, p) <==> All(a, p) && All(b, p)
  {
    forall i | 0 <= i < |a| ensures (a + b)[i] == a[i] {
    }
    forall i | 0 <= i < |b| ensures (a + b)[|a| + i] == b[i] {
    }
  }

  /** A slice of a suffix. */
  lemma Slice(s: string, i: nat, end: nat)
    requires i <= end <= |s|
    ensures s[i..end] == s[i..][..end - i]
    ensures s[end..] == s[i..][end - i..]
  {
  }

  lemma NotInSlice(s: string, c: char, i: nat, end: nat)
    requires i <= end <= |s| && c !in s
    ensures c !in s[i..end]
  {
  }

  /** The first separator of two texts with one in between. */
  lemma {:induction false} SpanBefore(a: string, c: char, b: string)
    ensures Span(a + [c] + b, [c]) == Span(a, [c])
  {
    var s := a + [c] + b;
    if a == "" {
      assert s[0] == c;
    } else {
      assert s[0] == a[0] && s[1..] == a[1..] + [c] + b;
      SpanBefore(a[1..], c, b);
    }
  }

  lemma SlicesBefore(a: string, c: char, b: string, k: nat)
    requires k <= |a|
    ensures (a + [c] + b)[..k] == a[..k]
    ensures k < |a| ==> (a + [c] + b)[k + 1..] == a[k + 1..] + [c] + b
    ensures k == |a| ==> (a + [c] + b)[k + 1..] == b
  {
  }

  /** Where the first piece ends, and what comes behind it. */
  lemma InBetween(a: string, c: char, b: string)
    ensures var s := a + [c] + b; var k := Span(a, [c]);
            && Span(s, [c]) == k < |s| && s[..k] == a[..k]
            && (k < |a| ==> s[k + 1..] == a[k + 1..] + [c] + b)
            && (k == |a| ==> s[k + 1..] == b)
  {
    SpanBefore(a, c, b);
    SlicesBefore(a, c, b, Span(a, [c]));
  }

  // ---------------------------------------------------------------------------
  // C strings
  // ---------------------------------------------------------------------------

  const NUL: char := '\0'

  /** What a function that takes a const char* sees of a string. */
  function CString(s: string): (c: string)
    ensures c <= s && NUL !in c
    ensures NUL !in s ==> c == s
  {
    var k := Span(s, [NUL]);
    assert forall i :: 0 <= i < k ==> s[..k][i] == s[i];
    s[..k]
  }

  /** Reading through a pointer into a NUL-terminated string. */
  function At(s: string, i: nat): char {
    if i < |s| then s[i] else NUL
  }

  // ---------------------------------------------------------------------------
  // Characters of the C locale
  // ---------------------------------------------------------------------------

  predicate IsDigit(c: char) {
    '0' <= c <= '9'
  }

  predicate IsUpper(c: char) {
    'A' <= c <= 'Z'
  }

  predicate IsLower(c: char) {
    'a' <= c <= 'z'
  }

  predicate IsAlpha(c: char) {
    IsUpper(c) || IsLower(c)
  }

  predicate IsAlnum(c: char) {
    IsAlpha(c) || IsDigit(c)
  }

  function ToLower(c: char): char {
    if IsUpper(c) then (c as int - 'A' as int + 'a' as int) as char else c
  }

  function Lower(s: string): (r: string)
    ensures |r| == |s| && forall i :: 0 <= i < |s| ==> r[i] == ToLower(s[i])
  {
    seq(|s|, i requires 0 <= i < |s| => ToLower(s[i]))
  }

  predicate IsLowerCase(s: string) {
    forall i :: 0 <= i < |s| ==> !IsUpper(s[i])
  }

  lemma LowerIsLowerCase(s: string)
    ensures IsLowerCase(Lower(s))
    ensures IsLowerCase(s) ==> Lower(s) == s
  {
  }

  // ---------------------------------------------------------------------------
  // Decimal numbers
  // ---------------------------------------------------------------------------

  function Digit(d: nat): (c: char)
    requires d < 10
    ensures IsDigit(c)
  {
    ('0' as int + d) as char
  }

  function DigitValue(c: char): nat
    requires IsDigit(c)
  {
    c as int - '0' as int
  }

  function Decimal(n: nat): (s: string)
    ensures s != "" && All(s, IsDigit)
  {
    if n < 10 then [Digit(n)]
    else
      AllConcat(Decimal(n / 10), [Digit(n % 10)], IsDigit);
      Decimal(n / 10) + [Digit(n % 10)]
  }

  function DecimalValue(s: string): nat
    requires All(s, IsDigit)
  {
    if s == "" then 0 else DecimalValue(s[..|s| - 1]) * 10 + DigitValue(s[|s| - 1])
  }

  lemma {:induction false} DecimalRoundTrip(n: nat)
    ensures DecimalValue(Decimal(n)) == n
  {
    if n >= 10 {
      DecimalRoundTrip(n / 10);
      assert Decimal(n)[..|Decimal(n)| - 1] == Decimal(n / 10);
    } else {
      assert Decimal(n)[..0] == "";
    }
  }
}
