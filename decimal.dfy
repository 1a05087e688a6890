/** Decimal digit strings and their value in a C `uint64_t`.

    `_reflect_lexer_integer_lex` accumulates `result = result * 10 + (c - '0')`
    in a `uint64_t`, so every step wraps around modulo 2^64.  `DecValue` is that
    wrapped accumulation; `MathDec` is the unbounded decimal value it is compared
    against.
 */
module Decimal {

  /** 2^64, the modulus of C's `uint64_t` arithmetic. */
  const U64_MODULUS: nat := 0x1_0000_0000_0000_0000

  newtype u64 = x: int | 0 <= x < 0x1_0000_0000_0000_0000

  /** `isdigit` in the "C" locale. */
  predicate IsDigit(c: char) {
    '0' <= c <= '9'
  }

  predicate AllDigits(s: seq<char>) {
    forall i :: 0 <= i < |s| ==> IsDigit(s[i])
  }

  /** `c - '0'` for a decimal digit. */
  function DigitValue(c: char): (d: nat)
    requires IsDigit(c)
    ensures d < 10
  {
    c as int - '0' as int
  }

  function Pow10(n: nat): (p: nat)
    ensures p >= 1
  {
    if n == 0 then 1 else 10 * Pow10(n - 1)
  }

  /** The mathematical (unbounded) value of a decimal digit string. */
  function MathDec(s: seq<char>): nat
    requires AllDigits(s)
  {
    if s == [] then 0 else MathDec(s[..|s| - 1]) * 10 + DigitValue(s[|s| - 1])
  }

  /** The value the integer loop leaves in its `uint64_t` accumulator after
      reading the digits `s` from left to right: every multiply-add wraps. */
  function DecValue(s: seq<char>): u64
    requires AllDigits(s)
  {
    if s == [] then 0
    else ((DecValue(s[..|s| - 1]) as int * 10 + DigitValue(s[|s| - 1])) % U64_MODULUS) as u64
  }

  /** Euclidean division is unique: `y == a * m + r` with `0 <= r < m` fixes both. */
  lemma DivModUnique(y: int, a: int, r: int, m: int)
    requires m > 0 && 0 <= r < m && y == a * m + r
    ensures y % m == r && y / m == a
  {
    var q, s := y / m, y % m;
    assert (a - q) * m == s - r;
    assert a - q >= 1 ==> (a - q) * m >= m;
    assert a - q <= -1 ==> (a - q) * m <= -m;
  }

  /** One more digit: the accumulator's multiply-add step. */
  lemma DecValueAppend(s: seq<char>, c: char)
    requires AllDigits(s) && IsDigit(c)
    ensures AllDigits(s + [c])
    ensures DecValue(s + [c]) as int == (DecValue(s) as int * 10 + DigitValue(c)) % U64_MODULUS
  {
    assert (s + [c])[..|s|] == s;
  }

  lemma MulAddMod(a: nat, d: nat, m: nat)
    requires m > 0
    ensures ((a % m) * 10 + d) % m == (a * 10 + d) % m
  {
    var x := (a % m) * 10 + d;
    var q := a / m;
    assert a == q * m + a % m;
    assert a * 10 + d == (q * 10) * m + x;
    DivModUnique(x, x / m, x % m, m);
    DivModUnique(a * 10 + d, q * 10 + x / m, x % m, m);
  }

  /** The wrapped accumulation equals the true decimal value reduced modulo 2^64. */
  lemma {:induction false} DecValueIsMathDecMod(s: seq<char>)
    requires AllDigits(s)
    ensures DecValue(s) as int == MathDec(s) % U64_MODULUS
  {
    if s != [] {
      var init := s[..|s| - 1];
      DecValueIsMathDecMod(init);
      MulAddMod(MathDec(init), DigitValue(s[|s| - 1]), U64_MODULUS);
    }
  }

  lemma {:induction false} MathDecBound(s: seq<char>)
    requires AllDigits(s)
    ensures MathDec(s) < Pow10(|s|)
  {
    if s != [] {
      var init := s[..|s| - 1];
      MathDecBound(init);
      assert |init| == |s| - 1;
    }
  }

  /** Up to 19 digits never wrap: 10^19 - 1 < 2^64. */
  lemma ShortDigitRunsDoNotWrap(s: seq<char>)
    requires AllDigits(s) && |s| <= 19
    ensures DecValue(s) as int == MathDec(s)
  {
    MathDecBound(s);
    Pow10Monotone(|s|, 19);
    assert Pow10(10) == 10_000_000_000;
    assert Pow10(19) == 10_000_000_000_000_000_000;
    DecValueIsMathDecMod(s);
  }

  lemma {:induction false} Pow10Monotone(i: nat, j: nat)
    requires i <= j
    ensures Pow10(i) <= Pow10(j)
  {
    if i < j {
      Pow10Monotone(i, j - 1);
    }
  }
}
