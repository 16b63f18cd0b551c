/** Decimal printing (`%d`, `%zu`, `%ld`) and the integer readers that undo it. */
module Decimal {
  import opened Text

  const INT32_RANGE: int := 0x1_0000_0000
  const INT32_MAX: int := 0x7fff_ffff
  const INT64_MAX: int := 0x7fff_ffff_ffff_ffff

  predicate IsDigit(c: char) { '0' <= c <= '9' }

  function DigitValue(c: char): (d: nat)
    requires IsDigit(c)
    ensures d <= 9
  {
    (c - '0') as nat
  }

  function DigitChar(d: nat): (c: char)
    requires d <= 9
    ensures IsDigit(c) && DigitValue(c) == d
  {
    '0' + d as char
  }

  /** printf("%d", n) for n >= 0 */
  function Print(n: nat): (s: string)
    ensures s != "" && forall i | 0 <= i < |s| :: IsDigit(s[i])
  {
    if n < 10 then [DigitChar(n)] else Print(n / 10) + [DigitChar(n % 10)]
  }

  /** End of the maximal run of digits that starts at `i`. */
  function DigitsEnd(s: string, i: nat): (j: nat)
    requires i <= |s|
    ensures i <= j <= |s|
    ensures forall k | i <= k < j :: IsDigit(s[k])
    ensures j < |s| ==> !IsDigit(s[j])
    decreases |s| - i
  {
    if i < |s| && IsDigit(s[i]) then DigitsEnd(s, i + 1) else i
  }

  /** The number a run of digits denotes, with no bound on its size. */
  function Value(s: string): nat
    requires forall i | 0 <= i < |s| :: IsDigit(s[i])
  {
    if s == "" then 0 else 10 * Value(s[..|s| - 1]) + DigitValue(s[|s| - 1])
  }

  lemma ValueOfPrint(n: nat)
    ensures Value(Print(n)) == n
  {
    if n < 10 {
      assert Print(n)[..0] == "";
      assert Value("") == 0;
    } else {
      var s := Print(n);
      assert s[..|s| - 1] == Print(n / 10);
      ValueOfPrint(n / 10);
    }
  }

  lemma DigitsEndIs(s: string, i: nat, j: nat)
    requires i <= j <= |s|
    requires forall k | i <= k < j :: IsDigit(s[k])
    requires j < |s| ==> !IsDigit(s[j])
    ensures DigitsEnd(s, i) == j
    decreases j - i
  {
    if i < j { DigitsEndIs(s, i + 1, j); }
  }

  /** Two's-complement truncation to a C `int`. */
  function Wrap32(x: int): (r: int)
    ensures -0x8000_0000 <= r <= INT32_MAX
  {
    (x + 0x8000_0000) % INT32_RANGE - 0x8000_0000
  }

  lemma Wrap32Identity(x: int)
    ensures Wrap32(x) == x <==> -0x8000_0000 <= x <= INT32_MAX
  {
  }

  lemma Wrap32Shift(x: int, k: int)
    ensures Wrap32(x + k * INT32_RANGE) == Wrap32(x)
  {
    var y := x + 0x8000_0000;
    ModShift(y, k, INT32_RANGE);
  }

  lemma ModShift(y: int, k: int, m: int)
    requires m > 0
    ensures (y + k * m) % m == y % m
  {
    var q, r := y / m, y % m;
    assert y == q * m + r;
    assert y + k * m == (q + k) * m + r by { assert (q + k) * m == q * m + k * m; }
    DivModUnique(y + k * m, m, q + k, r);
  }

  lemma DivModUnique(x: int, m: int, q: int, r: int)
    requires m > 0 && 0 <= r < m && x == q * m + r
    ensures x % m == r
  {
    var q', r' := x / m, x % m;
    assert x == q' * m + r';
    assert (q - q') * m == r' - r by { assert (q - q') * m == q * m - q' * m; }
    SmallMultiple(q - q', m);
  }

  lemma SmallMultiple(a: int, m: int)
    requires m > 0 && -m < a * m < m
    ensures a == 0
  {
  }

  /** Accumulating one more digit commutes with truncation, so parseInt's running `int` is the
      truncation of the exact value. */
  lemma WrapDigitStep(v: int, d: int)
    ensures Wrap32(Wrap32(v) * 10 + d) == Wrap32(v * 10 + d)
  {
    var k := (v + 0x8000_0000) / INT32_RANGE;
    assert Wrap32(v) == v + (-k) * INT32_RANGE;
    assert Wrap32(v) * 10 + d == v * 10 + d + (-k * 10) * INT32_RANGE;
    Wrap32Shift(v * 10 + d, -k * 10);
  }

  // ---- strtol(s, NULL, 10) ----

  predicate IsSpace(c: char) {
    c == ' ' || '\t' <= c <= '\r'
  }

  function SkipSpaces(s: string, i: nat): (j: nat)
    requires i <= |s|
    ensures i <= j <= |s|
    decreases |s| - i
  {
    if i < |s| && IsSpace(s[i]) then SkipSpaces(s, i + 1) else i
  }

  function Clamp64(x: int): int {
    if x > INT64_MAX then INT64_MAX else if x < -INT64_MAX - 1 then -INT64_MAX - 1 else x
  }

  function Strtol(s: string): int {
    var i := SkipSpaces(s, 0);
    var negative := i < |s| && s[i] == '-';
    var start := if i < |s| && (s[i] == '-' || s[i] == '+') then i + 1 else i;
    var v: int := Value(s[start..DigitsEnd(s, start)]);
    Clamp64(if negative then -v else v)
  }

  /** strtol reads a printed number back, stopping at the first non-digit. */
  lemma StrtolOfPrint(n: nat, rest: string)
    requires rest == "" || !IsDigit(rest[0])
    ensures Strtol(Print(n) + rest) == Clamp64(n)
  {
    var p := Print(n);
    var s := p + rest;
    assert s[0] == p[0];
    assert SkipSpaces(s, 0) == 0;
    DigitsEndIs(s, 0, |p|);
    assert s[0..|p|] == p;
    ValueOfPrint(n);
  }
}
