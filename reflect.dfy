/** The single-header lexer of reflect.h.

    A `Lexer` holds two cursors into a NUL-terminated character buffer:
    `source`, the start of the text, and `stream`, the read position.  Each
    call of `Next` produces one token.  Pointers are modelled as indices into
    `buf`, the characters the pointers refer to; `buf` ends with the
    terminator `'\0'`.

    `NextOutcome` is the specification of one call of
    `reflect_lexer_token_next`; `Lexer.Next` is the imperative model of that
    function (the `goto` loop over spaces and the integer `while` loop) and is
    proved to agree with it.
 */
module Reflect {
  import opened Decimal

  datatype Option<T> = None | Some(value: T)

  /** `ReflectTokenType`: end-of-input, integer literal and 24 single-character
      punctuators.  There is no identifier kind and no multi-character
      operator. */
  datatype TokenType =
    | EOF
    | INTEGER
    | LBRACKET
    | RBRACKET
    | LPAREN
    | RPAREN
    | LBRACE
    | RBRACE
    | DOT
    | AMPERSAND
    | STAR
    | PLUS
    | MINUS
    | TILDE
    | EXCLAMATION
    | SLASH
    | PERCENT
    | LESS
    | GREATER
    | CARET
    | PIPE
    | QUESTION
    | COLON
    | SEMICOLON
    | EQUAL
    | HASH

  /** `ReflectToken`: a kind and the `uint64_t` payload of the union.  The
      payload is only written when an integer is lexed; other calls leave it
      as the caller had it. */
  datatype Token = Token(kind: TokenType, integer: u64)

  /** The 24 characters that the `_REFLECT_LEXER_CASE1` lines dispatch on, in
      the order of the switch. */
  const PUNCTUATION: string := "[](){}.&*+-~!/%<>^|?:;=#"

  /** The `_REFLECT_LEXER_CASE1` table: the token kind of a single-character
      punctuator, or `None` for every other character. */
  function Punctuator(c: char): (k: Option<TokenType>)
    ensures k.Some? ==> k.value != EOF && k.value != INTEGER && c !in " \0" && !IsDigit(c)
  {
    match c
    case '[' => Some(LBRACKET)
    case ']' => Some(RBRACKET)
    case '(' => Some(LPAREN)
    case ')' => Some(RPAREN)
    case '{' => Some(LBRACE)
    case '}' => Some(RBRACE)
    case '.' => Some(DOT)
    case '&' => Some(AMPERSAND)
    case '*' => Some(STAR)
    case '+' => Some(PLUS)
    case '-' => Some(MINUS)
    case '~' => Some(TILDE)
    case '!' => Some(EXCLAMATION)
    case '/' => Some(SLASH)
    case '%' => Some(PERCENT)
    case '<' => Some(LESS)
    case '>' => Some(GREATER)
    case '^' => Some(CARET)
    case '|' => Some(PIPE)
    case '?' => Some(QUESTION)
    case ':' => Some(COLON)
    case ';' => Some(SEMICOLON)
    case '=' => Some(EQUAL)
    case '#' => Some(HASH)
    case _ => None
  }

  /** A buffer as a C string literal lays it out: non-empty, last character
      the terminator. */
  predicate IsCString(buf: seq<char>) {
    |buf| > 0 && buf[|buf| - 1] == '\0'
  }

  /** Index of the first character at or after `p` that is not `' '`. */
  function SkipSpaces(buf: seq<char>, p: nat): (q: nat)
    requires IsCString(buf) && p < |buf|
    ensures p <= q < |buf| && buf[q] != ' '
    ensures forall i :: p <= i < q ==> buf[i] == ' '
    decreases |buf| - p
  {
    if buf[p] == ' ' then SkipSpaces(buf, p + 1) else p
  }

  /** Index of the first character at or after `p` that is not a decimal
      digit: `buf[p..DigitRunEnd(buf, p)]` is the maximal digit run at `p`. */
  function DigitRunEnd(buf: seq<char>, p: nat): (e: nat)
    requires IsCString(buf) && p < |buf|
    ensures p <= e < |buf| && !IsDigit(buf[e])
    ensures forall i :: p <= i < e ==> IsDigit(buf[i])
    decreases |buf| - p
  {
    if IsDigit(buf[p]) then DigitRunEnd(buf, p + 1) else p
  }

  /** What one call of `reflect_lexer_token_next` does: its return value, the
      token it leaves behind and the new `stream`. */
  datatype Outcome = Outcome(ok: bool, token: Token, pos: nat)

  /** The specification of one call of `reflect_lexer_token_next` with the
      cursor at `p` and the caller's token `t0`. */
  function NextOutcome(buf: seq<char>, p: nat, t0: Token): (r: Outcome)
    requires IsCString(buf) && p < |buf|
    ensures p <= r.pos <= |buf|
    ensures !r.ok ==> r.token == t0 && r.pos < |buf|
    ensures r.ok && r.token.kind != INTEGER ==> r.token.integer == t0.integer
  {
    var q := SkipSpaces(buf, p);
    var c := buf[q];
    if c == '\0' then
      Outcome(true, t0.(kind := EOF), q)
    else if IsDigit(c) then
      var e := DigitRunEnd(buf, q);
      // the character after the digits is read by the loop test and consumed
      Outcome(true, Token(INTEGER, DecValue(buf[q..e])), e + 1)
    else
      match Punctuator(c)
      case Some(k) => Outcome(true, t0.(kind := k), q + 1)
      case None => Outcome(false, t0, q)
  }

  /** `ReflectLexer`: `source` and `stream` as indices into `buf`. */
  class Lexer {
    var buf: seq<char>
    var source: nat
    var stream: nat

    /** `stream` may sit one past the terminator: an integer whose digits
        run up to `'\0'` leaves it there. */
    predicate Valid()
      reads this
    {
      IsCString(buf) && source <= stream <= |buf|
    }

    /** `reflect_lexer_init`: both cursors at the start of the text. */
    constructor Init(text: seq<char>)
      requires IsCString(text)
      ensures Valid()
      ensures buf == text && source == 0 && stream == 0
    {
      buf := text;
      source := 0;
      stream := 0;
    }

    /** `_reflect_lexer_char_current`: the character under the cursor. */
    method CharCurrent() returns (c: char)
      requires Valid() && stream < |buf|
      ensures c == buf[stream]
    {
      c := buf[stream];
    }

    /** `_reflect_lexer_char_advance`: move the cursor one character on. */
    method CharAdvance()
      requires Valid() && stream < |buf|
      modifies this`stream
      ensures Valid()
      ensures stream == old(stream) + 1
    {
      stream := stream + 1;
    }

    /** `_reflect_lexer_char_next`: read the character under the cursor and
        move past it. */
    method CharNext() returns (c: char)
      requires Valid() && stream < |buf|
      modifies this`stream
      ensures Valid()
      ensures c == buf[old(stream)] && stream == old(stream) + 1
    {
      c := buf[stream];
      stream := stream + 1;
    }

    /** `_reflect_lexer_integer_lex`: read the digit run at the cursor into a
        wrapping `uint64_t`, consuming the first non-digit after it too. */
    method IntegerLex() returns (ok: bool, value: u64)
      requires Valid() && stream < |buf|
      modifies this`stream
      ensures Valid()
      ensures ok
      ensures var e := DigitRunEnd(buf, old(stream));
        value == DecValue(buf[old(stream)..e]) && stream == e + 1
    {
      ghost var p0 := stream;
      var result: u64 := 0;
      var c := CharNext();
      while IsDigit(c)
        invariant Valid() && buf == old(buf) && source == old(source)
        invariant p0 < stream <= DigitRunEnd(buf, p0) + 1
        invariant c == buf[stream - 1]
        invariant result == DecValue(buf[p0..stream - 1])
        decreases |buf| - stream
      {
        assert buf[p0..stream] == buf[p0..stream - 1] + [c];
        DecValueAppend(buf[p0..stream - 1], c);
        result := ((result as int * 10 + DigitValue(c)) % U64_MODULUS) as u64;
        c := CharNext();
      }
      ok, value := true, result;
    }

    /** `reflect_lexer_token_next`: skip spaces, then classify the character
        under the cursor.  Returns false, leaving the token as it was, for a
        character that starts no token. */
    method Next(t0: Token) returns (ok: bool, t: Token)
      requires Valid() && stream < |buf|
      modifies this`stream
      ensures Valid() && buf == old(buf) && source == old(source)
      ensures old(stream) <= stream
      ensures var o := NextOutcome(buf, old(stream), t0);
        ok == o.ok && t == o.token && stream == o.pos
    {
      var c := CharCurrent();
      while c == ' '
        invariant Valid() && buf == old(buf) && source == old(source)
        invariant old(stream) <= stream <= SkipSpaces(buf, old(stream))
        invariant c == buf[stream]
        decreases |buf| - stream
      {
        CharAdvance();
        c := CharCurrent();
      }
      if c == '\0' {
        ok, t := true, t0.(kind := EOF);
      } else if IsDigit(c) {
        var v;
        ok, v := IntegerLex();
        t := Token(INTEGER, v);
      } else {
        match Punctuator(c)
        case Some(k) =>
          t := t0.(kind := k);
          CharAdvance();
          ok := true;
        case None =>
          ok, t := false, t0;
      }
    }
  }
}
