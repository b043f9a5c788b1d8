/**
 * The scanner primitives `get_user_feature` is written with, and the decimal
 * notation `%ld` prints. Scanning is over the remaining input: a primitive
 * that matches returns what is left after the consumed text, one that does
 * not match returns None and consumes nothing.
 */
module Scanner {
  import opened Wrappers
  import opened CInts

  predicate IsDigit(c: char) {
    '0' <= c <= '9'
  }

  predicate AllDigits(s: string) {
    forall i :: 0 <= i < |s| ==> IsDigit(s[i])
  }

  function DigitValue(c: char): (d: nat)
    requires IsDigit(c)
    ensures d < 10
  {
    c as int - '0' as int
  }

  function DigitChar(d: nat): (c: char)
    requires d < 10
    ensures IsDigit(c) && DigitValue(c) == d
  {
    ('0' as int + d) as char
  }

  /** The value of a run of decimal digits, most significant first. */
  function DigitsValue(ds: string): nat
    requires AllDigits(ds)
  {
    if ds == [] then 0 else DigitsValue(ds[..|ds| - 1]) * 10 + DigitValue(ds[|ds| - 1])
  }

  /** The shortest decimal notation of `n` (no leading zeros, "0" for zero). */
  function Decimal(n: nat): (s: string)
    ensures 0 < |s| && AllDigits(s)
    ensures |s| > 1 ==> s[0] != '0'
  {
    if n < 10 then [DigitChar(n)] else Decimal(n / 10) + [DigitChar(n % 10)]
  }

  /** Reading back the decimal notation of `n` gives `n`. */
  lemma {:induction false} DecimalValue(n: nat)
    ensures DigitsValue(Decimal(n)) == n
  {
    if n >= 10 {
      var s := Decimal(n);
      assert s[..|s| - 1] == Decimal(n / 10);
      DecimalValue(n / 10);
    }
  }

  /** Distinct numbers have distinct decimal notations. */
  lemma DecimalInjective(m: nat, n: nat)
    requires Decimal(m) == Decimal(n)
    ensures m == n
  {
    DecimalValue(m);
    DecimalValue(n);
  }

  /** The length of the longest run of digits at the start of `s`. */
  function DigitRun(s: string): (k: nat)
    ensures k <= |s|
    ensures AllDigits(s[..k])
    ensures k < |s| ==> !IsDigit(s[k])
  {
    if s == [] || !IsDigit(s[0]) then 0 else 1 + DigitRun(s[1..])
  }

  /** A digit run followed by a non-digit is exactly what `DigitRun` measures. */
  lemma {:induction false} DigitRunOf(ds: string, rest: string)
    requires AllDigits(ds)
    requires rest == [] || !IsDigit(rest[0])
    ensures DigitRun(ds + rest) == |ds|
    decreases |ds|
  {
    if ds == [] {
      assert ds + rest == rest;
    } else {
      assert (ds + rest)[0] == ds[0];
      assert (ds + rest)[1..] == ds[1..] + rest;
      DigitRunOf(ds[1..], rest);
    }
  }

  /** `scanner_str`: consume `s` when the input starts with it. */
  function ScanStr(input: string, s: string): (r: Option<string>)
    ensures r.Some? <==> s <= input
    ensures r.Some? ==> s + r.value == input
  {
    if s <= input then Some(input[|s|..]) else None
  }

  /** `scanner_char`: consume the character `c` when the input starts with it. */
  function ScanChar(input: string, c: char): (r: Option<string>)
    ensures r.Some? <==> (0 < |input| && input[0] == c)
    ensures r.Some? ==> r.value == input[1..]
  {
    ScanStr(input, [c])
  }

  /**
   * `scanner_int`: consume an optional '-' and a maximal run of at least one
   * digit whose value fits in a C `int`.
   */
  function ScanInt(input: string): (r: Option<(int, string)>)
    ensures r.Some? ==> FitsInt(r.value.0)
    ensures r.Some? ==> |r.value.1| < |input| && r.value.1 == input[|input| - |r.value.1|..]
    ensures r.Some? ==> r.value.1 == [] || !IsDigit(r.value.1[0])
    ensures r.Some? ==> (input[0] == '-' || IsDigit(input[0]))
    ensures r.Some? ==>
              var k := |input| - |r.value.1|;
              var start := if input[0] == '-' then 1 else 0;
              start < k && forall i :: start <= i < k ==> IsDigit(input[i])
  {
    var negative := 0 < |input| && input[0] == '-';
    var digits := if negative then input[1..] else input;
    var k := DigitRun(digits);
    if k == 0 then None
    else
      var v: int := if negative then -(DigitsValue(digits[..k]) as int) else DigitsValue(digits[..k]);
      if FitsInt(v) then Some((v, digits[k..])) else None
  }

  /** `scanner_int` reads back the decimal notation of a number that fits in an `int`. */
  lemma ScanIntDecimal(n: nat, rest: string)
    requires n <= INT_MAX
    requires rest == [] || !IsDigit(rest[0])
    ensures ScanInt(Decimal(n) + rest) == Some((n, rest))
  {
    var d := Decimal(n);
    var s := d + rest;
    DigitRunOf(d, rest);
    assert s[0] == d[0];
    assert s[..|d|] == d;
    assert s[|d|..] == rest;
    DecimalValue(n);
  }

  /** `scanner_int` reads back a minus sign and a magnitude up to 2^31. */
  lemma ScanIntNegative(m: nat, rest: string)
    requires 0 < m <= -INT_MIN
    requires rest == [] || !IsDigit(rest[0])
    ensures ScanInt("-" + Decimal(m) + rest) == Some((-(m as int), rest))
  {
    var d := Decimal(m);
    var s := "-" + d + rest;
    assert s[1..] == d + rest;
    DigitRunOf(d, rest);
    assert (d + rest)[..|d|] == d;
    assert (d + rest)[|d|..] == rest;
    DecimalValue(m);
  }

  /** A number past `INT_MAX` is no match for `scanner_int`. */
  lemma ScanIntTooLarge(n: nat, rest: string)
    requires INT_MAX < n
    requires rest == [] || !IsDigit(rest[0])
    ensures ScanInt(Decimal(n) + rest) == None
  {
    var d := Decimal(n);
    var s := d + rest;
    DigitRunOf(d, rest);
    assert s[0] == d[0];
    assert s[..|d|] == d;
    DecimalValue(n);
  }

  /** A negative number below `INT_MIN` is no match for `scanner_int`. */
  lemma ScanIntTooSmall(m: nat, rest: string)
    requires -INT_MIN < m
    requires rest == [] || !IsDigit(rest[0])
    ensures ScanInt("-" + Decimal(m) + rest) == None
  {
    var d := Decimal(m);
    var s := "-" + d + rest;
    assert s[1..] == d + rest;
    DigitRunOf(d, rest);
    assert (d + rest)[..|d|] == d;
    DecimalValue(m);
  }

  /**
   * The first entry of `table[from..]` the input starts with, as the loops of
   * `get_user_feature` find it: its index and what remains after it.
   */
  function FirstMatch(input: string, table: seq<string>, from: nat): (r: Option<(nat, string)>)
    requires from <= |table|
    ensures r.Some? ==> from <= r.value.0 < |table|
    ensures r.Some? ==> table[r.value.0] + r.value.1 == input
    ensures r.Some? ==> forall j :: from <= j < r.value.0 ==> !(table[j] <= input)
    ensures r.None? <==> forall j :: from <= j < |table| ==> !(table[j] <= input)
    decreases |table| - from
  {
    if from == |table| then None
    else match ScanStr(input, table[from])
      case Some(rest) => Some((from, rest))
      case None => FirstMatch(input, table, from + 1)
  }

  /** An entry the input starts with, preceded by no entry the input starts with, is the first match. */
  lemma FirstMatchIs(input: string, table: seq<string>, i: nat, rest: string)
    requires i < |table|
    requires input == table[i] + rest
    requires forall j :: 0 <= j < i ==> !(table[j] <= input)
    ensures FirstMatch(input, table, 0) == Some((i, rest))
  {
    var r := FirstMatch(input, table, 0);
    assert table[i] <= input;
    var k := r.value.0;
    assert k == i;
    assert table[i] + r.value.1 == table[i] + rest;
    assert r.value.1 == (table[i] + rest)[|table[i]|..];
  }
}
