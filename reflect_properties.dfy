/** What one call of `reflect_lexer_token_next` promises, stated about its
    specification `Reflect.NextOutcome` (which `Reflect.Lexer.Next` is proved
    to follow).
 */
module ReflectProperties {
  import opened Decimal
  import opened Reflect

  /** The symbol of each punctuator kind, written independently of the
      `Punctuator` switch; `EOF` and `INTEGER` have none. */
  function PunctuatorSymbol(k: TokenType): Option<char> {
    match k
    case EOF => None
    case INTEGER => None
    case LBRACKET => Some('[')
    case RBRACKET => Some(']')
    case LPAREN => Some('(')
    case RPAREN => Some(')')
    case LBRACE => Some('{')
    case RBRACE => Some('}')
    case DOT => Some('.')
    case AMPERSAND => Some('&')
    case STAR => Some('*')
    case PLUS => Some('+')
    case MINUS => Some('-')
    case TILDE => Some('~')
    case EXCLAMATION => Some('!')
    case SLASH => Some('/')
    case PERCENT => Some('%')
    case LESS => Some('<')
    case GREATER => Some('>')
    case CARET => Some('^')
    case PIPE => Some('|')
    case QUESTION => Some('?')
    case COLON => Some(':')
    case SEMICOLON => Some(';')
    case EQUAL => Some('=')
    case HASH => Some('#')
  }

  /** The switch and the symbol table are inverse: each punctuator character
      has its own kind, and no two characters share one. */
  lemma PunctuatorSymbolInverse(c: char, k: TokenType)
    ensures Punctuator(c) == Some(k) <==> PunctuatorSymbol(k) == Some(c)
  {
  }

  /** Exactly the 24 characters of `PUNCTUATION` are punctuators, and no
      punctuator yields `EOF` or `INTEGER`. */
  lemma PunctuatorTable(c: char)
    ensures |PUNCTUATION| == 24
    ensures Punctuator(c).Some? <==> c in PUNCTUATION
    ensures Punctuator(c).Some? ==> Punctuator(c).value != EOF && Punctuator(c).value != INTEGER
  {
    PunctuationIsPunctuator(c);
  }

  lemma PunctuationIsPunctuator(c: char)
    ensures c in PUNCTUATION ==> Punctuator(c).Some?
  {
  }

  /** A run of spaces before `q` changes nothing: the call behaves as if
      it started at `q`. */
  lemma {:induction false} SkipSpacesOverRun(buf: seq<char>, p: nat, q: nat)
    requires IsCString(buf) && p <= q < |buf|
    requires forall i :: p <= i < q ==> buf[i] == ' '
    ensures SkipSpaces(buf, p) == SkipSpaces(buf, q)
    decreases q - p
  {
    if p < q {
      SkipSpacesOverRun(buf, p + 1, q);
    }
  }

  /** Any run of `' '` is skipped before classification. */
  lemma SpacesAreSkipped(buf: seq<char>, p: nat, q: nat, t: Token)
    requires IsCString(buf) && p <= q < |buf|
    requires forall i :: p <= i < q ==> buf[i] == ' '
    ensures NextOutcome(buf, p, t) == NextOutcome(buf, q, t)
  {
    SkipSpacesOverRun(buf, p, q);
  }

  /** At the terminator (after any spaces) the call succeeds with `EOF`, leaves
      the payload alone, stops on the `'\0'`, and a further call returns the
      same outcome again. */
  lemma EndOfInputIsIdempotent(buf: seq<char>, p: nat, t: Token)
    requires IsCString(buf) && p < |buf|
    requires buf[SkipSpaces(buf, p)] == '\0'
    ensures var o := NextOutcome(buf, p, t);
      o == Outcome(true, t.(kind := EOF), SkipSpaces(buf, p)) &&
      o.pos < |buf| && NextOutcome(buf, o.pos, o.token) == o
  {
    var q := SkipSpaces(buf, p);
    assert SkipSpaces(buf, q) == q;
  }

  /** A successful call returns `EOF` exactly when the first non-space
      character is the terminator. */
  lemma EndOfInputIff(buf: seq<char>, p: nat, t: Token)
    requires IsCString(buf) && p < |buf|
    ensures var o := NextOutcome(buf, p, t);
      (o.ok && o.token.kind == EOF) <==> buf[SkipSpaces(buf, p)] == '\0'
  {
    PunctuatorTable(buf[SkipSpaces(buf, p)]);
  }

  /** A punctuator (after any spaces) yields its own kind, returns true,
      leaves the payload alone and moves the cursor exactly one past it. */
  lemma PunctuatorToken(buf: seq<char>, p: nat, t: Token)
    requires IsCString(buf) && p < |buf|
    requires buf[SkipSpaces(buf, p)] in PUNCTUATION
    ensures var q := SkipSpaces(buf, p);
      var k := Punctuator(buf[q]);
      k.Some? && PunctuatorSymbol(k.value) == Some(buf[q]) &&
      NextOutcome(buf, p, t) == Outcome(true, t.(kind := k.value), q + 1)
  {
    var q := SkipSpaces(buf, p);
    PunctuatorTable(buf[q]);
    PunctuatorSymbolInverse(buf[q], Punctuator(buf[q]).value);
  }

  /** A leading digit yields `INTEGER` whose value is the maximal digit run
      read as a decimal number reduced modulo 2^64; the cursor ends one past
      the first non-digit, which is consumed. */
  lemma IntegerToken(buf: seq<char>, p: nat, t: Token)
    requires IsCString(buf) && p < |buf|
    requires IsDigit(buf[SkipSpaces(buf, p)])
    ensures var q := SkipSpaces(buf, p);
      var e := DigitRunEnd(buf, q);
      var o := NextOutcome(buf, p, t);
      q < e && AllDigits(buf[q..e]) && !IsDigit(buf[e]) &&
      o.ok && o.token.kind == INTEGER &&
      o.token.integer as int == MathDec(buf[q..e]) % U64_MODULUS &&
      o.pos == e + 1
  {
    var q := SkipSpaces(buf, p);
    var e := DigitRunEnd(buf, q);
    assert AllDigits(buf[q..e]);
    DecValueIsMathDecMod(buf[q..e]);
  }

  /** The call fails exactly when the first non-space character is neither
      the terminator, nor a digit, nor a punctuator.  A failure keeps the
      token, leaves the cursor on that character, and a further call fails
      the same way. */
  lemma FailureIsSticky(buf: seq<char>, p: nat, t: Token)
    requires IsCString(buf) && p < |buf|
    ensures var q := SkipSpaces(buf, p);
      var c := buf[q];
      var o := NextOutcome(buf, p, t);
      (!o.ok <==> c != '\0' && !IsDigit(c) && c !in PUNCTUATION) &&
      (!o.ok ==> o == Outcome(false, t, q) && NextOutcome(buf, o.pos, t) == o)
  {
    var q := SkipSpaces(buf, p);
    PunctuatorTable(buf[q]);
    assert SkipSpaces(buf, q) == q;
  }

  /** Only `' '` is skipped: a newline or a tab under the cursor makes the
      call fail without moving it. */
  lemma NewlineAndTabAreRejected(buf: seq<char>, p: nat, t: Token)
    requires IsCString(buf) && p < |buf|
    requires buf[p] == '\n' || buf[p] == '\t'
    ensures NextOutcome(buf, p, t) == Outcome(false, t, p)
  {
    PunctuatorTable(buf[p]);
  }

  /** The cursor never moves backward and never goes further than one past
      the terminator; it leaves the buffer exactly when an integer's digits
      run up to the final `'\0'`. */
  lemma CursorBounds(buf: seq<char>, p: nat, t: Token)
    requires IsCString(buf) && p < |buf|
    ensures var q := SkipSpaces(buf, p);
      var o := NextOutcome(buf, p, t);
      p <= o.pos <= |buf| &&
      (o.pos == |buf| <==> IsDigit(buf[q]) && DigitRunEnd(buf, q) == |buf| - 1)
  {
  }
}
