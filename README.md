# reflect lexer in Dafny

A model of the single-header lexer in `reflect.h` (HalidOdat/reflect), with proofs
about what one call of `reflect_lexer_token_next` does.

The lexer keeps two cursors into a NUL-terminated C string:

- `source` is the start of the text;
- `stream` is the read position.

Each call of `reflect_lexer_token_next` does four things in order:

- it skips `' '` characters;
- it reports `EOF` at `'\0'`;
- it reads a decimal integer into a wrapping `uint64_t`;
- it maps 24 single-character punctuators to their token kinds.

Any other character makes the call return `false`.

Layout:

- `decimal.dfy` (module `Decimal`): digit strings and the `uint64_t` accumulator.
  - `u64` is the type of the accumulator.
  - `DecValue` is the accumulation as the loop computes it, wrapping on every step.
  - `MathDec` is the unbounded decimal value.
  - A lemma proves that `DecValue` equals `MathDec` modulo 2^64.
- `reflect.dfy` (module `Reflect`) has the data model and the lexer itself:
  - the token kinds, the token and the punctuator switch;
  - `NextOutcome`, the specification function of one call;
  - the class `Lexer`, whose methods mirror the C functions and change `stream` in place.
  - `Lexer.IntegerLex` keeps the C `while` loop. `Lexer.Next` turns the `goto` over spaces into a `while` loop. Both are proved against the specification functions.
- `reflect_properties.dfy` (module `ReflectProperties`): the properties of `NextOutcome`.
- `reflect_examples.dfy` (module `ReflectExamples`): the inputs of the repository's three drivers, worked through call by call.

Pointers become indices into `buf`, a `seq<char>` whose last element is `'\0'`.

The token is passed in and returned, because the C code writes only some of its fields:

- at `'\0'` and at a punctuator, only the kind is written;
- at a digit, both the kind and the integer payload are written;
- on failure, nothing is written.

The model follows the code in the behaviour that matters most. The integer loop tests `isdigit` on the character that `_reflect_lexer_char_next` has already consumed. So the first non-digit after a digit run is also consumed. When the digits run up to the terminator, `stream` ends one past `'\0'`.

- `Lexer.Valid` allows `stream == |buf|`.
- `Lexer.Next` requires `stream < |buf|`, because below that lies an out-of-bounds read.
- `ReflectProperties.CursorBounds` states exactly when the cursor leaves the buffer.
- `ReflectExamples.IntegerLexingTest` ends with the cursor past the terminator, so a further `Next` call would not verify.

## Model

| member | source | states |
|---|---|---|
| Reflect.Lexer.Valid | reflect.h:44-48 | the lexer's invariant: `buf` is NUL-terminated and `source <= stream`, with `stream` at most the length of `buf`; `stream` may sit one past the terminator, where an integer at the end of the text leaves it (reflect.h:87) |
| Reflect.Punctuator | reflect.h:117-140 | the `_REFLECT_LEXER_CASE1` switch: a kind for each of the 24 punctuator characters and none for any other; a punctuator is never `EOF` or `INTEGER`, never `' '`, `'\0'` or a digit |
| Reflect.NextOutcome | reflect.h:96-146 | one call of `reflect_lexer_token_next`: the cursor never moves backward and never passes one beyond the terminator; a failure keeps the token and stays inside the buffer; a successful non-integer call keeps the payload |
| Decimal.DecValue | reflect.h:85-90 | the accumulator after the loop reads the digits left to right, each step `(result * 10 + (c - '0')) mod 2^64`; its meaning is stated in `Decimal.DecValueIsMathDecMod` |
| Reflect.Lexer.Init | reflect.h:60-63 | both `source` and `stream` start at the beginning of the text |
| Reflect.Lexer.CharCurrent | reflect.h:70-72 | returns the character under the cursor and changes nothing |
| Reflect.Lexer.CharAdvance | reflect.h:74-76 | moves `stream` on by exactly one; nothing else changes |
| Reflect.Lexer.CharNext | reflect.h:78-82 | returns the character under the cursor, then moves `stream` on by one |
| Reflect.Lexer.IntegerLex | reflect.h:84-93 | always returns true. The value is the wrapping `uint64_t` accumulation of the maximal digit run at the cursor. `stream` ends one past the first non-digit, which is consumed |
| Reflect.Lexer.Next | reflect.h:96-146 | return value, token and new `stream` are those of `NextOutcome`. `buf` and `source` are unchanged and `stream` never moves backward |
| Reflect.SkipSpaces | reflect.h:104-111 | the first index at or after `p` holding no `' '`, with only spaces before it; it is always inside the buffer, since `'\0'` stops it |
| Reflect.DigitRunEnd | reflect.h:87 | the end of the maximal digit run at `p`: digits before it, a non-digit at it |
| Decimal.DigitValue | reflect.h:88 | `c - '0'` of a digit is below 10 |
| Decimal.DecValueAppend | reflect.h:87-89 | one more loop iteration: the new accumulator is `(old * 10 + digit) mod 2^64` |
| Decimal.DecValueIsMathDecMod | reflect.h:85-90 | the wrapped accumulation equals the decimal value of the digits modulo 2^64 |
| Decimal.ShortDigitRunsDoNotWrap | reflect.h:85-90 | a run of at most 19 digits is read exactly, with no wraparound |
| Decimal.MathDecBound | reflect.h:85-90 | a run of n digits has value below 10^n |
| ReflectProperties.PunctuatorSymbolInverse | reflect.h:117-140 | the switch and an independent symbol table are inverse, so each punctuator character has its own kind |
| ReflectProperties.PunctuatorTable | reflect.h:117-140 | exactly the 24 listed characters are punctuators, and none yields `EOF` or `INTEGER` |
| ReflectProperties.SpacesAreSkipped | reflect.h:109-111 | a call started before a run of spaces behaves exactly like one started after it |
| ReflectProperties.NewlineAndTabAreRejected | reflect.h:109-111 | only `' '` is skipped: a call on `'\n'` or `'\t'` fails without moving the cursor or touching the token |
| ReflectProperties.EndOfInputIsIdempotent | reflect.h:106-108 | at `'\0'` the call returns true with kind `EOF` and keeps the payload. The cursor stays on the terminator, and a further call gives the same outcome |
| ReflectProperties.EndOfInputIff | reflect.h:106-108 | a call succeeds with `EOF` if and only if the first non-space character is `'\0'` |
| ReflectProperties.PunctuatorToken | reflect.h:98-102 | a punctuator returns true with its own kind and keeps the payload. The cursor ends exactly one past the punctuator |
| ReflectProperties.IntegerToken | reflect.h:112-115 | a leading digit returns true with kind `INTEGER`. The value is the maximal digit run's decimal value modulo 2^64. The cursor ends one past the first non-digit |
| ReflectProperties.FailureIsSticky | reflect.h:141-142 | a call fails if and only if the first non-space character is neither `'\0'`, a digit nor a punctuator. Failure keeps the token, stops on that character, and the next call fails the same way |
| ReflectProperties.CursorBounds | reflect.h:78-82 | the cursor never moves backward and never passes one beyond the terminator. It leaves the buffer exactly when an integer's digits run up to the final `'\0'` |
| ReflectExamples.IntegerLexingExample | tests/lexer.c:48-57 | on `"1 2 3 100000"` the first four calls give `INTEGER` 1, 2, 3 and 100000; the fourth ends past the terminator |
| ReflectExamples.IntegerLexingTest | tests/lexer.c:14-22 | the driver's calls on a `Lexer`: four successful `Next` calls give the expected tokens, and the cursor ends past the terminator |
| ReflectExamples.DriverRunsPastTerminator | test.c:11-13 | on `"1 10 100"` the third call gives 100 and moves the cursor past `'\0'`, so the loop's fourth call reads out of bounds |
| ReflectExamples.SuffixStallsTheDemoLoop | main.c:9-15 | on `"1u 10ull ..."` the integers swallow one suffix letter each. The third call fails on the `'l'` after the swallowed `'u'`, and failing again at the same place, the `continue` loop never ends |

## Left out

- The enum, struct and switch of `reflect.h` have no identifiers, no multi-character operators, no line and column location and no error state, so the model has none either. A failure does not consume the offending character: the model follows the code.
- `reflect_lexer_error_string_get`, called at main.c:14, is not defined in `reflect.h` and is not part of this model. Only main.c's input is modelled, in `ReflectExamples.SuffixStallsTheDemoLoop`.
- The printing in test.c, tests/lexer.c and main.c is not modelled.
- The `assert` calls in tests/lexer.c are not modelled. Its kind comparison is covered by the token equalities in `ReflectExamples.IntegerLexingTest`, which also fix the values.
- `isdigit` depends on the C locale. It is modelled as `'0'..'9'`.
- `_reflect_lexer_char_advance` is declared to return `char` but has no `return`. The model's `Lexer.CharAdvance` returns nothing, because no caller uses the result.
- `reflect_lexer_token_current` and the `token` field of `ReflectLexer` are commented out in the source, so they are not modelled.
- Pointers are modelled as indices into `buf`, so pointer identity and aliasing of the source text are not modelled.
- Reading past the terminator is undefined behaviour in C. `Reflect.Lexer.Next` requires `stream < |buf|` instead of modelling what such a read returns.
- Reflect.Lexer.Init is a constructor. Re-initialising an existing `ReflectLexer` struct is modelled as making a new `Lexer`.
- main.c:14 calls `reflect_lexer_error_string_get`, and the commented-out lines main.c:22-28 use `token.location` and `token.as.integer`. This `reflect.h` has none of these, so they are not modelled.
- A Dafny `char` is a Unicode scalar value, while a C `char` is a byte that may be signed. On non-ASCII input the model's indices count code points, not bytes. C's `isdigit` on a negative `char` (reflect.h:87) is undefined behaviour; the model's `IsDigit` is simply false there.
