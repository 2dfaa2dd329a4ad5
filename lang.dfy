/**
 * The small part of the Java platform that the constructs rely on:
 * `Optional`, nullable references, the exceptions the constructs can throw,
 * `Objects.requireNonNull`, the decimal rendering of an `int` that string
 * concatenation performs, and the character classes of the two regular
 * expressions used for sanitizing names.
 */
module Lang {

  /** `java.util.Optional<T>`: a value that is present or empty. */
  datatype Option<+T> = None | Some(value: T)

  /** A Java reference that may be `null`. Kept apart from `Option` so that
      `Optional.empty()` and `null` are never confused. */
  datatype Nullable<+T> = Null | NonNull(value: T)

  /** The exceptions a construct can raise while it is being built. */
  datatype Exception =
    | NullPointerException(message: Option<string>)      // Objects.requireNonNull, with or without a message
    | NoSuchElementException                              // Optional.get() on an empty Optional
    | IndexOutOfBoundsException(index: int, length: int)  // List.get, String.substring
    | ParameterNotFound(name: string)                     // a store key nobody wrote

  /** The outcome of a Java call that returns a value or throws. */
  datatype Result<+R> = Success(value: R) | Failure(error: Exception) {
    predicate IsFailure() { Failure? }
    function PropagateFailure<U>(): Result<U>
      requires Failure?
    {
      Failure(error)
    }
    function Extract(): R
      requires Success?
    {
      value
    }
  }

  /** The outcome of a Java call that returns nothing or throws. */
  datatype Outcome = Pass | Fail(error: Exception) {
    predicate IsFailure() { Fail? }
    function PropagateFailure(): Outcome
      requires Fail?
    {
      this
    }
  }

  /** `Objects.requireNonNull(x)` (no message) or `Objects.requireNonNull(x, message)`. */
  function RequireNonNull<T>(x: Nullable<T>, message: Option<string>): (r: Result<T>)
    ensures r.Success? <==> x.NonNull?
    ensures r.Success? ==> r.value == x.value
    ensures r.Failure? ==> r.error == NullPointerException(message)
  {
    match x
    case Null => Failure(NullPointerException(message))
    case NonNull(v) => Success(v)
  }

  /** `Optional.get()`. */
  function OptionalGet<T>(o: Option<T>): (r: Result<T>)
    ensures r.Success? <==> o.Some?
    ensures r.Success? ==> r.value == o.value
    ensures r.Failure? ==> r.error == NoSuchElementException
  {
    match o
    case None => Failure(NoSuchElementException)
    case Some(v) => Success(v)
  }

  /** `list.get(i)`. */
  function ListGet<T>(xs: seq<T>, i: nat): (r: Result<T>)
    ensures r.Success? <==> i < |xs|
    ensures r.Success? ==> r.value == xs[i]
  {
    if i < |xs| then Success(xs[i]) else Failure(IndexOutOfBoundsException(i, |xs|))
  }

  // ---------------------------------------------------------------------
  // Character classes

  predicate IsDigit(c: char) { '0' <= c <= '9' }

  predicate IsLetter(c: char) { 'a' <= c <= 'z' || 'A' <= c <= 'Z' }

  /** The class `[a-zA-Z0-9]`. */
  predicate IsAlphanumeric(c: char) { IsLetter(c) || IsDigit(c) }

  // ---------------------------------------------------------------------
  // Decimal rendering of integers, as `"" + n` does for a Java `int`

  function DigitChar(d: nat): (c: char)
    requires d < 10
    ensures IsDigit(c)
  {
    ('0' as int + d) as char
  }

  function DigitValue(c: char): (d: nat)
    requires IsDigit(c)
    ensures d < 10
  {
    c as int - '0' as int
  }

  predicate AllDigits(s: string) { forall i :: 0 <= i < |s| ==> IsDigit(s[i]) }

  /** The decimal digits of `n`, most significant first, with no leading zero. */
  function NatToString(n: nat): (r: string)
    ensures |r| >= 1 && AllDigits(r)
    ensures r[0] == '0' ==> n == 0
    decreases n
  {
    if n < 10 then [DigitChar(n)] else NatToString(n / 10) + [DigitChar(n % 10)]
  }

  /** `String.valueOf(n)`: an optional minus sign followed by the digits of `|n|`. */
  function IntToString(n: int): (r: string)
    ensures |r| >= 1 && (r[0] == '-' <==> n < 0)
    ensures AllDigits(if n < 0 then r[1..] else r)
  {
    if n < 0 then "-" + NatToString(-n) else NatToString(n)
  }

  /** Reads a string of decimal digits back as a number. */
  function ParseNat(s: string): (n: nat)
    requires AllDigits(s)
    decreases |s|
  {
    if |s| == 0 then 0 else ParseNat(s[..|s| - 1]) * 10 + DigitValue(s[|s| - 1])
  }

  /** `Integer.parseInt` on what `IntToString` produces. */
  function ParseInt(s: string): (r: Option<int>)
  {
    if |s| > 0 && s[0] == '-' && AllDigits(s[1..]) then Some(-(ParseNat(s[1..]) as int))
    else if AllDigits(s) then Some(ParseNat(s) as int)
    else None
  }

  lemma {:induction false} ParseNatToString(n: nat)
    ensures ParseNat(NatToString(n)) == n
    decreases n
  {
    if n >= 10 {
      var r := NatToString(n);
      ParseNatToString(n / 10);
      assert r[..|r| - 1] == NatToString(n / 10);
      assert DigitValue(r[|r| - 1]) == n % 10;
    }
  }

  /** Reading the decimal rendering of any `int` gives the `int` back. */
  lemma IntToStringRoundTrip(n: int)
    ensures ParseInt(IntToString(n)) == Some(n)
  {
    ParseNatToString(if n < 0 then -n else n);
    if n < 0 {
      assert IntToString(n)[1..] == NatToString(-n);
    } else {
      assert IntToString(n)[0] != '-';
    }
  }

  /** Two different numbers are never rendered alike. */
  lemma IntToStringInjective(a: int, b: int)
    ensures IntToString(a) == IntToString(b) ==> a == b
  {
    IntToStringRoundTrip(a);
    IntToStringRoundTrip(b);
  }

  // ---------------------------------------------------------------------
  // Sequences

  predicate IsSuffix<T(==)>(s: seq<T>, t: seq<T>) { |s| <= |t| && t[|t| - |s|..] == s }

  /** Number of elements of `s` that satisfy `p`. */
  function Count<T>(s: seq<T>, p: T -> bool): (n: nat)
    ensures n <= |s|
  {
    if |s| == 0 then 0 else (if p(s[0]) then 1 else 0) + Count(s[1..], p)
  }

  lemma {:induction false} CountAppend<T>(a: seq<T>, b: seq<T>, p: T -> bool)
    ensures Count(a + b, p) == Count(a, p) + Count(b, p)
    decreases |a|
  {
    if |a| > 0 {
      assert (a + b)[1..] == a[1..] + b;
      CountAppend(a[1..], b, p);
    } else {
      assert a + b == b;
    }
  }

  /**
   * A string of the form `x + "-" + n` whose last segment `n` has no hyphen
   * determines both `x` and `n`.
   */
  lemma LastSegmentUnique(x: string, n: string, y: string, m: string)
    requires '-' !in n && '-' !in m
    requires x + "-" + n == y + "-" + m
    ensures x == y && n == m
  {
    var k := x + "-" + n;
    var k' := y + "-" + m;
    assert forall j :: |x| < j < |k| ==> k[j] == n[j - |x| - 1];
    assert forall j :: |y| < j < |k'| ==> k'[j] == m[j - |y| - 1];
    assert k[|x|] == '-' && k'[|y|] == '-';
    assert |x| == |y|;
    assert n == k[|k| - |n|..];
    assert m == (y + "-" + m)[|k| - |m|..];
    assert x == k[..|x|];
    assert y == (y + "-" + m)[..|y|];
  }
}
