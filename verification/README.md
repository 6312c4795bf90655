# SimpleLang lexer, modelled in Dafny

This project models the lexical scanner of the SimpleLang toy language: the
`sl::Token` value (a kind from a closed set of thirteen, plus a text) and the
`sl::Lexer` scanner, whose `GetNext` skips whitespace and then fills the
caller's token with the next lexical unit — a maximal run of letters
(an identifier, or the keyword `with`), a maximal run of decimal digits (a
number), one of the eight punctuation characters `+ - * / ( ) : ,`, or any
other single character (unknown) — or reports end of line at the buffer's
terminating NUL. The `simplelexer` driver's pull loop, which calls `GetNext`
until it sees end of line, is modelled as the pure function `Tokenize` and as
the method `Drive`.

Modules, one per component:

- `CType` (`ctype.dfy`): `isspace`, `isalpha`, `isdigit` in the C locale.
- `Buffer` (`buffer.dfy`): the NUL-terminated buffer as a `seq<char>`, where
  reading at `|buf|` yields NUL and an embedded NUL also ends the string;
  `RunEnd` is the `while (p(*end)) ++end;` loop and `MaximalRun` its
  specification.
- `Tokens` (`token.dfy`): `TokenType`, `Token` and its accessors, `Is`,
  `IsOneOf` and the variadic `IsOneOf` (`IsOneOfList`).
- `Lexing` (`lexer.dfy`): `InitToken`, `GetNext` as a pure function from
  (buffer, cursor, caller's token) to (filled token, new cursor), a
  code-independent specification `ScanSpec` of one call, and the `Lexer`
  record with its constructor.
- `Driver` (`driver.dfy`): the pull loop.
- `ScanExamples` (`scan_examples.dfy`): concrete inputs and the kinds the
  loop sees for them.

Three behaviours of the code are worth stating, since the names alone
suggest otherwise:

- `Token` has a text field, but `InitToken` (`lexer.cpp`, line 9) always
  sets it to an empty `StringRef`, so every token other than end of line
  carries empty text. The matched characters are the span from `TokenStart`
  (the cursor after the whitespace skip) to the new cursor, kept as the
  `start`/`end` of each `Driver.Lexeme`.
- The end-of-line branch (`lexer.cpp`, lines 17-19) sets only the kind, so
  the text the caller's token held before the call survives.
- Whitespace is skipped before the terminator test, so a call over trailing
  whitespace alone yields end of line with the cursor on the NUL.

## Model

| member | source | states |
|---|---|---|
| Buffer.At | llvm/llvm-simple-lang/simplelang/src/lexer.cpp:14-17 | reading `*p` gives the element at the offset, and gives NUL exactly at the end of the sequence or on an embedded NUL |
| Buffer.RunEnd | llvm/llvm-simple-lang/simplelang/src/lexer.cpp:22-23 | the inner loop stops at the end of the maximal run of the class it tests: every character before the stop satisfies the test and the character read at the stop does not |
| Buffer.MaximalRunUnique | llvm/llvm-simple-lang/simplelang/src/lexer.cpp:22-23 | a maximal run from a given start has exactly one end, so maximal munch is well defined |
| Buffer.Terminator | llvm/llvm-simple-lang/simplelang/src/lexer.cpp:14-17 | the scanner's view of the buffer ends at the first NUL: no NUL before that offset, NUL read at it |
| Tokens.Ordinal | llvm-simple-lang/simplelang/include/lexer.h:10-24 | each kind's enumerator value indexes that kind in the enumeration order |
| Tokens.ExactlyThirteenKinds | llvm-simple-lang/simplelang/include/lexer.h:10-24 | the kind set is closed with exactly thirteen distinct members, and the enumerator values are one-to-one |
| Tokens.Token.GetType | llvm-simple-lang/simplelang/include/lexer.h:27-29 | writing back the kind that was read leaves the token unchanged |
| Tokens.Token.SetType | llvm-simple-lang/simplelang/include/lexer.h:31-33 | the kind becomes the argument and the text is unchanged |
| Tokens.Token.GetText | llvm-simple-lang/simplelang/include/lexer.h:35-37 | writing back the text that was read leaves the token unchanged |
| Tokens.Token.SetText | llvm-simple-lang/simplelang/include/lexer.h:39-41 | the text becomes the argument and the kind is unchanged |
| Tokens.GetAfterSet | llvm-simple-lang/simplelang/include/lexer.h:27-41 | each getter returns what its setter wrote, and each setter leaves the other field as it was |
| Tokens.Token.Is | llvm-simple-lang/simplelang/include/lexer.h:43-45 | `Is(t)` holds exactly when setting the kind to `t` would change nothing |
| Tokens.Token.IsOneOf | llvm-simple-lang/simplelang/include/lexer.h:47-49 | the two-candidate test holds exactly when the kind is in the set of the two candidates, whichever order they come in |
| Tokens.IsAfterSetType | llvm-simple-lang/simplelang/include/lexer.h:43-45 | `Is(u)` holds after `SetType(t)` exactly when `u` is `t` |
| Tokens.IsOneOfIsListOfTwo | llvm-simple-lang/simplelang/include/lexer.h:47-49 | the two-candidate `IsOneOf` holds exactly when the kind is one of the two, and agrees with the variadic form at arity two |
| Tokens.Token.IsOneOfList | llvm-simple-lang/simplelang/include/lexer.h:51-54 | the variadic `IsOneOf`, recursing down to the two-candidate form, holds exactly when the kind is a member of the candidate list |
| Tokens.IsOneOfListExtends | llvm-simple-lang/simplelang/include/lexer.h:51-54 | a match in last position is found, a match stays found when more candidates are put before it, and repeating the candidates changes nothing |
| Lexing.PunctKind | llvm/llvm-simple-lang/simplelang/src/lexer.cpp:36-63 | the switch gives a kind other than unknown exactly to the eight punctuation characters, and never end of line, identifier, number or keyword |
| Lexing.WordKind | llvm/llvm-simple-lang/simplelang/src/lexer.cpp:24-25 | a letter run is an identifier or the keyword, and the keyword exactly when it is "with" |
| Lexing.SkippedBySpaceLoop | llvm/llvm-simple-lang/simplelang/src/lexer.cpp:14 | the skip loop's test holds exactly of the whitespace characters (the NUL test never changes it), and never of a letter, a digit or a punctuation character |
| Lexing.PunctKindClassifies | llvm/llvm-simple-lang/simplelang/src/lexer.cpp:36-62 | exactly the eight punctuation characters get a kind other than unknown, distinct characters get distinct kinds, and none is end of line, identifier, number or keyword |
| Lexing.TokenStart | llvm/llvm-simple-lang/simplelang/src/lexer.cpp:14-16 | the skip loop passes only whitespace and stops at the terminator or at a non-space character |
| Lexing.InitToken | llvm/llvm-simple-lang/simplelang/src/lexer.cpp:7-11 | the filled token is the caller's token with the kind set and the text cleared, and the cursor moves to the token end |
| Lexing.GetNext | llvm/llvm-simple-lang/simplelang/src/lexer.cpp:13-66 | the cursor never decreases and stays within the buffer; end of line is yielded exactly when the terminator follows the whitespace, leaves the cursor there and keeps the old text; every other kind moves the cursor strictly forward and has empty text; the consumed span holds no whitespace and no NUL |
| Lexing.GetNextMeetsSpec | llvm/llvm-simple-lang/simplelang/src/lexer.cpp:13-66 | each call meets the code-independent specification: maximal letter run with the keyword exactly for "with", maximal digit run as a number, one character for each punctuation kind, one character as unknown otherwise |
| Lexing.ScanSpecDeterminesGetNext | llvm/llvm-simple-lang/simplelang/src/lexer.cpp:13-66 | any result meeting that specification is the result of the call, so the specification fixes the scanner's behaviour completely |
| Lexing.TokenStartAtNonSpace | llvm/llvm-simple-lang/simplelang/src/lexer.cpp:14-16 | the skip loop leaves a cursor on a non-space character or on the terminator where it is |
| Lexing.GetNextWord | llvm/llvm-simple-lang/simplelang/src/lexer.cpp:21-28 | after the whitespace, a letter starts a token that ends at the end of the maximal letter run, with kind keyword exactly when the run is "with" and identifier otherwise |
| Lexing.GetNextNumber | llvm/llvm-simple-lang/simplelang/src/lexer.cpp:29-34 | after the whitespace, a digit starts a number token that ends at the end of the maximal digit run |
| Lexing.GetNextSingle | llvm/llvm-simple-lang/simplelang/src/lexer.cpp:35-64 | after the whitespace, any other character is a token of one character, classified by the punctuation switch with unknown as the default |
| Lexing.EolWhenOnlySpaceRemains | llvm/llvm-simple-lang/simplelang/src/lexer.cpp:14-20 | when only whitespace is left before the terminator the call yields end of line with the cursor on the terminator |
| Lexing.EolIdempotent | llvm/llvm-simple-lang/simplelang/src/lexer.cpp:14-20 | calling again after end of line yields the same token and the same cursor |
| Lexing.StaysWithinTerminator | llvm/llvm-simple-lang/simplelang/src/lexer.cpp:13-66 | started at or before the terminator, the cursor ends at or before it; end of line stops exactly on it and any other token starts before it |
| Lexing.Lexer.Next | llvm-simple-lang/simplelang/include/lexer.h:68-75 | a call on the lexer object moves only its cursor, never backwards, strictly forwards unless it yields end of line, never past the terminating NUL, and onto that NUL when it yields end of line |
| Lexing.NewLexer | llvm-simple-lang/simplelang/include/lexer.h:63-66 | a new lexer over a byte string is valid, with its cursor at the start of its buffer |
| Driver.Tokenize | llvm-simple-lang/simplelang/tools/driver.cpp:19-25 | the loop terminates; it sees at most one token per remaining character, none of them end of line and all with empty text, over non-empty spans inside the buffer in strictly increasing order |
| Driver.TokenizeClassifies | llvm-simple-lang/simplelang/tools/driver.cpp:19-25 | every token the loop sees is classified by its own span by the rules of a single call |
| Driver.TokenizeCoversInput | llvm-simple-lang/simplelang/tools/driver.cpp:19-25 | every non-space character before the terminator lies inside the span of some token the loop sees |
| Driver.TokenizeWithinTerminator | llvm-simple-lang/simplelang/tools/driver.cpp:19-25 | no span the loop sees reaches past the terminator |
| Driver.TokenizeIgnoresPriorToken | llvm-simple-lang/simplelang/tools/driver.cpp:19-25 | what the loop sees does not depend on what the token object held before the first call |
| Driver.Drive | llvm-simple-lang/simplelang/tools/driver.cpp:17-25 | the driver's loop hands to its printing statement exactly the tokens `Tokenize` describes, in order, whatever the uninitialised kind of its token object |
| ScanExamples.KindsFollowCalls | llvm-simple-lang/simplelang/tools/driver.cpp:19-25 | the loop sees exactly the kinds of a chain of calls, each starting where the previous one stopped, up to the call that yields end of line |
| ScanExamples.MixedExpression | llvm/llvm-simple-lang/simplelang/src/lexer.cpp:13-66 | "a,with:3+(b-4)" is seen as identifier, comma, keyword, colon, number, plus, left paren, identifier, minus, number, right paren |
| ScanExamples.DigitRunStopsAtDot | llvm/llvm-simple-lang/simplelang/src/lexer.cpp:29-34 | in "3.5" the number stops before the '.', which is an unknown token of its own, followed by a second number |
| ScanExamples.KeywordExactMatch | llvm/llvm-simple-lang/simplelang/src/lexer.cpp:21-27 | the keyword test is exact and case-sensitive: " with(" starts with the keyword, "With" and "without" are identifiers |

## Left out

- The LLVM IR demo programs (`if_else.cpp`, `arithmetic_stat.cpp`, `global_variable.cpp`, `block.cpp`, `function.cpp`, `module.cpp`): straight-line calls into the LLVM library, which is not part of this model, with no logic of their own.
- The Kaleidoscope `ConsoleApplication1.cpp` lexer: it reads standard input, keeps hidden static state, converts with floating-point `strtod`, and one of its paths returns no value.
- The driver's command-line parsing, its printing through `llvm::outs()` and the version string: input and output. `Drive` returns the tokens it would print instead.
- `llvm::StringRef` and `MemoryBuffer` internals, pointer lifetimes and ownership of the input buffer: the buffer is a value here, and a token's text is a sequence of characters.
- One element of a buffer is one C `char`, that is one byte of the input string: a character outside ASCII stands in the buffer as the several bytes of its UTF-8 encoding, and `NewLexer` and `Drive` require every element to be below 256 (`Buffer.IsByteString`). `GetNext` itself is stated for any sequence of characters.
- Locale-dependent `<cctype>` behaviour: the C locale is assumed, and every non-ASCII character is neither space, letter nor digit. Passing a negative `char` value to the classification functions (undefined behaviour in C) is not modelled.
- The uninitialised kind of a default-constructed `Token` is a parameter of `Drive` rather than an indeterminate value.
- `Lexing.Lexer.Next` keeps `buf_start_` as a field that nothing reads, as the C++ class does; no diagnostics use it.
