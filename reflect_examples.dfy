/** The inputs of the repository's three drivers, worked through call by call
    with `Reflect.NextOutcome`.
 */
module ReflectExamples {
  import opened Decimal
  import opened Reflect

  /** One call with the cursor on a digit run `buf[p..e]` that a non-digit
      follows. */
  lemma DigitRunAt(buf: seq<char>, p: nat, e: nat, t: Token)
    requires IsCString(buf) && p < e < |buf|
    requires forall i :: p <= i < e ==> IsDigit(buf[i])
    requires !IsDigit(buf[e])
    ensures AllDigits(buf[p..e])
    ensures NextOutcome(buf, p, t) == Outcome(true, Token(INTEGER, DecValue(buf[p..e])), e + 1)
  {
    assert DigitRunEnd(buf, p) == e;
  }

  /** A single digit followed by a non-digit lexes to its own value. */
  lemma SingleDigitAt(buf: seq<char>, p: nat, t: Token)
    requires IsCString(buf) && p + 1 < |buf|
    requires IsDigit(buf[p]) && !IsDigit(buf[p + 1])
    ensures NextOutcome(buf, p, t) == Outcome(true, Token(INTEGER, DigitValue(buf[p]) as u64), p + 2)
  {
    DigitRunAt(buf, p, p + 1, t);
  }

  /** A `1` followed by zeros denotes a power of ten. */
  lemma {:induction false} OneThenZeros(s: seq<char>)
    requires |s| >= 1 && s[0] == '1'
    requires forall i :: 1 <= i < |s| ==> s[i] == '0'
    ensures AllDigits(s) && MathDec(s) == Pow10(|s| - 1)
  {
    if |s| > 1 {
      OneThenZeros(s[..|s| - 1]);
    }
  }

  /** A `1` and up to eighteen zeros, followed by a non-digit, lexes to that
      power of ten without wrapping. */
  lemma PowerOfTenAt(buf: seq<char>, p: nat, e: nat, t: Token)
    requires IsCString(buf) && p < e < |buf| && e - p <= 19
    requires buf[p] == '1' && forall i :: p < i < e ==> buf[i] == '0'
    requires !IsDigit(buf[e])
    ensures Pow10(e - p - 1) < U64_MODULUS
    ensures NextOutcome(buf, p, t) == Outcome(true, Token(INTEGER, Pow10(e - p - 1) as u64), e + 1)
  {
    DigitRunAt(buf, p, e, t);
    OneThenZeros(buf[p..e]);
    ShortDigitRunsDoNotWrap(buf[p..e]);
  }

  /** tests/lexer.c: `"1 2 3 100000"` gives four integer tokens with values
      1, 2, 3 and 100000; the fourth leaves the cursor past the terminator. */
  lemma IntegerLexingExample(buf: seq<char>, t: Token)
    requires buf == "1 2 3 100000\0"
    ensures var o1 := NextOutcome(buf, 0, t);
      o1 == Outcome(true, Token(INTEGER, 1), 2) &&
      var o2 := NextOutcome(buf, o1.pos, o1.token);
      o2 == Outcome(true, Token(INTEGER, 2), 4) &&
      var o3 := NextOutcome(buf, o2.pos, o2.token);
      o3 == Outcome(true, Token(INTEGER, 3), 6) &&
      var o4 := NextOutcome(buf, o3.pos, o3.token);
      o4 == Outcome(true, Token(INTEGER, 100000), |buf|)
  {
    SingleDigitAt(buf, 0, t);
    SingleDigitAt(buf, 2, Token(INTEGER, 1));
    SingleDigitAt(buf, 4, Token(INTEGER, 2));
    PowerOfTenAt(buf, 6, 12, Token(INTEGER, 3));
    assert Pow10(5) == 100000;
  }

  /** test.c: on `"1 10 100"` the third call already moves the cursor past the
      terminator, so the driver's fourth call reads outside the buffer. */
  lemma DriverRunsPastTerminator(buf: seq<char>, t: Token)
    requires buf == "1 10 100\0"
    ensures var o1 := NextOutcome(buf, 0, t);
      o1 == Outcome(true, Token(INTEGER, 1), 2) &&
      var o2 := NextOutcome(buf, o1.pos, o1.token);
      o2 == Outcome(true, Token(INTEGER, 10), 5) &&
      var o3 := NextOutcome(buf, o2.pos, o2.token);
      o3 == Outcome(true, Token(INTEGER, 100), |buf|)
  {
    SingleDigitAt(buf, 0, t);
    PowerOfTenAt(buf, 2, 4, Token(INTEGER, 1));
    PowerOfTenAt(buf, 5, 8, Token(INTEGER, 10));
  }

  /** A single space before `p + 1` is skipped. */
  lemma OneSpaceBefore(buf: seq<char>, p: nat, t: Token)
    requires IsCString(buf) && p + 1 < |buf|
    requires buf[p] == ' ' && buf[p + 1] != ' '
    ensures NextOutcome(buf, p, t) == NextOutcome(buf, p + 1, t)
  {
  }

  /** A character that starts no token fails the call in place. */
  lemma RejectedAt(buf: seq<char>, p: nat, t: Token)
    requires IsCString(buf) && p < |buf|
    requires buf[p] != ' ' && buf[p] != '\0' && !IsDigit(buf[p]) && Punctuator(buf[p]).None?
    ensures NextOutcome(buf, p, t) == Outcome(false, t, p)
  {
  }

  /** The first eight characters of main.c's input decide its first three
      calls. */
  lemma SuffixStallsOn10ull(buf: seq<char>, t: Token)
    requires IsCString(buf) && |buf| > 8
    requires buf[0] == '1' && buf[1] == 'u' && buf[2] == ' ' && buf[3] == '1'
    requires buf[4] == '0' && buf[5] == 'u' && buf[6] == 'l'
    ensures var o1 := NextOutcome(buf, 0, t);
      o1 == Outcome(true, Token(INTEGER, 1), 2) &&
      var o2 := NextOutcome(buf, o1.pos, o1.token);
      o2 == Outcome(true, Token(INTEGER, 10), 6) &&
      var o3 := NextOutcome(buf, o2.pos, o2.token);
      o3 == Outcome(false, o2.token, 6) &&
      NextOutcome(buf, o3.pos, o3.token) == o3
  {
    SingleDigitAt(buf, 0, t);
    OneSpaceBefore(buf, 2, Token(INTEGER, 1));
    PowerOfTenAt(buf, 3, 5, Token(INTEGER, 1));
    RejectedAt(buf, 6, Token(INTEGER, 10));
  }

  /** main.c: on `"1u 10ull 100ll\n1l\n  1lu"` each integer swallows the first
      suffix letter, and the third call stops on the `'l'` after the swallowed
      `'u'` of `10ull`;
      failure does not move the cursor, so the driver's `continue` retries the
      same failing call forever. */
  lemma SuffixStallsTheDemoLoop(buf: seq<char>, t: Token)
    requires buf == "1u 10ull 100ll\n1l\n  1lu\0"
    ensures var o1 := NextOutcome(buf, 0, t);
      o1 == Outcome(true, Token(INTEGER, 1), 2) &&
      var o2 := NextOutcome(buf, o1.pos, o1.token);
      o2 == Outcome(true, Token(INTEGER, 10), 6) &&
      var o3 := NextOutcome(buf, o2.pos, o2.token);
      o3 == Outcome(false, o2.token, 6) &&
      NextOutcome(buf, o3.pos, o3.token) == o3
  {
    SuffixStallsOn10ull(buf, t);
  }

  /** The calls tests/lexer.c makes, on a `Lexer`: four calls on
      `"1 2 3 100000"` succeed with the expected integers, and afterwards the
      cursor is past the terminator, so a fifth call is not allowed. */
  method IntegerLexingTest() returns (allOk: bool, tokens: seq<Token>, pastEnd: bool)
    ensures allOk
    ensures tokens == [Token(INTEGER, 1), Token(INTEGER, 2), Token(INTEGER, 3), Token(INTEGER, 100000)]
    ensures pastEnd
  {
    var lexer := new Lexer.Init("1 2 3 100000\0");
    IntegerLexingExample(lexer.buf, Token(EOF, 0));
    var ok1, t1 := lexer.Next(Token(EOF, 0));
    var ok2, t2 := lexer.Next(t1);
    var ok3, t3 := lexer.Next(t2);
    var ok4, t4 := lexer.Next(t3);
    allOk := ok1 && ok2 && ok3 && ok4;
    tokens := [t1, t2, t3, t4];
    pastEnd := lexer.stream == |lexer.buf|;
  }
}
