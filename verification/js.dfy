/** JavaScript values and string operations as the modelled code uses them. */
module Js {

  /** A value that may be `undefined` (or `null`). */
  datatype Option<+T> = None | Some(value: T) {
    /** `x ?? d`: the value, or the default when absent. */
    function GetOr(default: T): T {
      match this
      case Some(v) => v
      case None => default
    }
  }

  /** The outcome of a call that may throw. */
  datatype Result<+T, +E> = Ok(value: T) | Err(error: E)

  /** An optional string used as a condition (`if (s)`, `s || d`): false when absent or empty. */
  predicate Truthy(s: Option<string>) {
    s.Some? && s.value != ""
  }

  /** `s || d` for an optional string. */
  function OrElse(s: Option<string>, d: string): string {
    if Truthy(s) then s.value else d
  }

  /** The fields of a thrown error object that the handlers read; each is `undefined` when absent. */
  datatype JsError = JsError(
    name: Option<string>,
    message: Option<string>,
    status: Option<int>,
    errorMessage: Option<string>,
    code: Option<string>,
    stack: Option<string>)

  /** A plain `Error` with the given name and message. */
  function PlainError(name: string, message: string): JsError {
    JsError(Some(name), Some(message), None, None, None, None)
  }

  /** `s.startsWith(p)` */
  predicate StartsWith(s: string, p: string) {
    |p| <= |s| && s[..|p|] == p
  }

  // ---------------------------------------------------------------------------
  // String.prototype.replace with a string pattern: only the first occurrence
  // ---------------------------------------------------------------------------

  /** `p` occurs in `s` starting at index `i`. */
  predicate OccursAt(s: string, p: string, i: nat) {
    i + |p| <= |s| && s[i..i + |p|] == p
  }

  /** `s.indexOf(p, from)`: the first index at or after `from` where `p` occurs, if any. */
  function IndexOf(s: string, p: string, from: nat): (r: Option<nat>)
    decreases |s| - from
    ensures r.Some? ==> from <= r.value && OccursAt(s, p, r.value)
    ensures r.Some? ==> forall j :: from <= j < r.value ==> !OccursAt(s, p, j)
    ensures r.None? ==> forall j :: from <= j ==> !OccursAt(s, p, j)
  {
    if from + |p| > |s| then None
    else if s[from..from + |p|] == p then Some(from)
    else IndexOf(s, p, from + 1)
  }

  /** `s.replace(p, rep)` with a string `p`: replaces the first occurrence only.
      `rep` is taken literally, so it stands for a replacement holding no `$` pattern. */
  function ReplaceFirst(s: string, p: string, rep: string): (r: string)
    ensures IndexOf(s, p, 0).None? ==> r == s
    // the text before the first occurrence is kept, the occurrence replaced, the rest kept
    ensures IndexOf(s, p, 0).Some? ==>
              var i := IndexOf(s, p, 0).value;
              && |r| == |s| - |p| + |rep|
              && r[..i] == s[..i] && r[i..i + |rep|] == rep && r[i + |rep|..] == s[i + |p|..]
  {
    match IndexOf(s, p, 0)
    case None => s
    case Some(i) => s[..i] + rep + s[i + |p|..]
  }

  /** When `s` begins with `p`, replacing the first occurrence of `p` removes exactly that prefix,
      whatever further occurrences `s` holds. */
  lemma ReplaceFirstAtStart(p: string, t: string)
    ensures ReplaceFirst(p + t, p, "") == t
  {
    var s := p + t;
    assert OccursAt(s, p, 0) by { assert s[0..|p|] == p; }
    assert IndexOf(s, p, 0) == Some(0);
    assert s[|p|..] == t;
  }

  /** A string in which `p` does not occur is left as it is. */
  lemma ReplaceFirstAbsent(s: string, p: string, rep: string)
    requires forall j :: !OccursAt(s, p, j)
    ensures ReplaceFirst(s, p, rep) == s
  {
  }

  /** The result of replacing the first occurrence by the empty string is `|p|` shorter. */
  lemma ReplaceFirstShortens(s: string, p: string)
    requires exists j :: OccursAt(s, p, j)
    ensures |ReplaceFirst(s, p, "")| == |s| - |p|
  {
    var j :| OccursAt(s, p, j);
    var r := IndexOf(s, p, 0);
    assert r.Some?;
  }

  /** Removing the first `p` never lengthens `s`, and removes the prefix when `s` starts with `p`. */
  lemma ReplaceFirstPrefix(s: string, p: string)
    ensures |ReplaceFirst(s, p, "")| <= |s|
    ensures StartsWith(s, p) ==> ReplaceFirst(s, p, "") == s[|p|..]
  {
    if StartsWith(s, p) {
      assert s == p + s[|p|..];
      ReplaceFirstAtStart(p, s[|p|..]);
    }
    if IndexOf(s, p, 0).Some? {
      ReplaceFirstShortens(s, p);
    }
  }

  // ---------------------------------------------------------------------------
  // s.replace(/\D/g, ""): keep the ASCII digits only
  // ---------------------------------------------------------------------------

  predicate IsDigit(c: char) {
    '0' <= c <= '9'
  }

  predicate AllDigits(s: string) {
    forall i :: 0 <= i < |s| ==> IsDigit(s[i])
  }

  /** Every non-digit character removed, the digits kept in their order. */
  function StripNonDigits(s: string): (r: string)
    ensures |r| <= |s|
    ensures AllDigits(r)
    ensures forall i :: 0 <= i < |s| && IsDigit(s[i]) ==> s[i] in r
    ensures forall c :: c in r ==> c in s
  {
    if s == [] then []
    else
      var rest := StripNonDigits(s[1..]);
      assert forall i :: 1 <= i < |s| ==> s[i] == s[1..][i - 1];
      if IsDigit(s[0]) then [s[0]] + rest else rest
  }

  /** Stripping distributes over concatenation: the digits come out in the order they came in. */
  lemma {:induction false} StripNonDigitsAppend(a: string, b: string)
    ensures StripNonDigits(a + b) == StripNonDigits(a) + StripNonDigits(b)
  {
    if a == [] {
      assert a + b == b;
    } else {
      assert (a + b)[1..] == a[1..] + b;
      StripNonDigitsAppend(a[1..], b);
    }
  }

  /** A string of digits is returned unchanged; so stripping twice is stripping once. */
  lemma {:induction false} StripNonDigitsOfDigits(s: string)
    requires AllDigits(s)
    ensures StripNonDigits(s) == s
  {
    if s != [] {
      StripNonDigitsOfDigits(s[1..]);
    }
  }

  lemma StripNonDigitsIdempotent(s: string)
    ensures StripNonDigits(StripNonDigits(s)) == StripNonDigits(s)
  {
    StripNonDigitsOfDigits(StripNonDigits(s));
  }

  // ---------------------------------------------------------------------------
  // `${n}` for a non-negative integer, and its inverse
  // ---------------------------------------------------------------------------

  function DigitChar(d: nat): (c: char)
    requires d < 10
    ensures IsDigit(c)
  {
    "0123456789"[d]
  }

  function DigitValue(c: char): (d: nat)
    requires IsDigit(c)
    ensures d < 10
  {
    (c - '0') as nat
  }

  /** The decimal notation of `n`, without leading zeros. */
  function DecimalString(n: nat): (r: string)
    ensures r != [] && AllDigits(r)
    ensures r[0] == '0' ==> r == "0"
  {
    if n < 10 then [DigitChar(n)] else DecimalString(n / 10) + [DigitChar(n % 10)]
  }

  /** The number a string of decimal digits denotes. */
  function DecimalValue(s: string): nat
    requires AllDigits(s)
  {
    if s == [] then 0 else 10 * DecimalValue(s[..|s| - 1]) + DigitValue(s[|s| - 1])
  }

  /** Reading back the decimal notation gives the number again. */
  lemma {:induction false} DecimalRoundTrip(n: nat)
    ensures DecimalValue(DecimalString(n)) == n
  {
    var s := DecimalString(n);
    if n < 10 {
      assert DigitValue(DigitChar(n)) == n;
      assert s[..0] == [];
    } else {
      DecimalRoundTrip(n / 10);
      assert s[..|s| - 1] == DecimalString(n / 10);
      assert DigitValue(DigitChar(n % 10)) == n % 10;
    }
  }

  /** Distinct numbers have distinct decimal notations. */
  lemma DecimalStringInjective(m: nat, n: nat)
    requires DecimalString(m) == DecimalString(n)
    ensures m == n
  {
    DecimalRoundTrip(m);
    DecimalRoundTrip(n);
  }
}
