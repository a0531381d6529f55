/** The libFM indicator token `"{index}:1"` that `libfm_notation` builds for
    user and item indices: the decimal rendering of a non-negative integer
    (Python's `str` of an int) followed by the unit weight `:1`.  The parser
    is the partner that shows the token determines the index. */
module Notation {
  import opened Tables

  predicate IsDigit(c: char) {
    '0' <= c <= '9'
  }

  predicate AllDigits(s: string) {
    forall i :: 0 <= i < |s| ==> IsDigit(s[i])
  }

  function DigitChar(d: nat): (c: char)
    requires d < 10
    ensures IsDigit(c) && c as int - '0' as int == d
  {
    (d + '0' as int) as char
  }

  /** `str(n)` for a non-negative integer: most significant digit first, no leading zeros. */
  function Decimal(n: nat): (s: string)
    ensures |s| >= 1 && AllDigits(s)
    ensures |s| > 1 ==> s[0] != '0'
  {
    if n < 10 then [DigitChar(n)] else Decimal(n / 10) + [DigitChar(n % 10)]
  }

  /** The number a string of decimal digits denotes. */
  function DecimalValue(s: string): nat
    requires AllDigits(s)
  {
    if s == [] then 0
    else DecimalValue(s[..|s| - 1]) * 10 + (s[|s| - 1] as int - '0' as int)
  }

  lemma {:induction false} DecimalRoundTrip(n: nat)
    ensures DecimalValue(Decimal(n)) == n
  {
    if n >= 10 {
      DecimalRoundTrip(n / 10);
      var s := Decimal(n);
      assert s[..|s| - 1] == Decimal(n / 10);
    }
  }

  /** `libfm_notation(val)`: `str(val) + ":1"`. */
  function LibfmNotation(index: nat): (token: string)
    ensures |token| >= 3 && token[|token| - 2..] == ":1"
    ensures AllDigits(token[..|token| - 2])
  {
    var d := Decimal(index);
    assert (d + ":1")[..|d|] == d;
    d + ":1"
  }

  /** Reads back the index of a `"{index}:1"` token; None for any other string. */
  function ParseNotation(token: string): Option<nat> {
    if |token| >= 3 && token[|token| - 2..] == ":1" && AllDigits(token[..|token| - 2])
    then Some(DecimalValue(token[..|token| - 2]))
    else None
  }

  /** The token determines its index. */
  lemma NotationRoundTrip(index: nat)
    ensures ParseNotation(LibfmNotation(index)) == Some(index)
  {
    var d := Decimal(index);
    assert LibfmNotation(index)[..|LibfmNotation(index)| - 2] == d;
    DecimalRoundTrip(index);
  }

  /** Distinct indices give distinct tokens, and equal tokens come from equal indices. */
  lemma NotationInjective(m: nat, n: nat)
    ensures LibfmNotation(m) == LibfmNotation(n) <==> m == n
  {
    if LibfmNotation(m) == LibfmNotation(n) {
      NotationRoundTrip(m);
      NotationRoundTrip(n);
    }
  }
}
