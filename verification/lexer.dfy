/**
  The SimpleLang scanner, `sl::Lexer`. Its only state is a cursor into a
  NUL-terminated buffer; `GetNext` skips whitespace and then fills the
  caller's token with the next lexical unit, moving the cursor past it.

  The model is a pure function from (buffer, cursor, caller's token) to the
  filled token and the new cursor. As in the C++ code, the token text is
  never the matched characters: `InitToken` clears it, and the end-of-line
  path sets only the kind. The matched characters are the span from the
  first non-space offset `TokenStart` to the new cursor, and the contracts
  below speak of that span.
 */
module Lexing {
  import opened CType
  import opened Buffer
  import opened Tokens

  /** What one call of `GetNext` leaves behind: the caller's token as the
      call fills it, and the new cursor. */
  datatype Scanned = Scanned(token: Token, cursor: nat)

  /** The single-character kinds of the `switch`; any other character is `Unknown`. */
  function PunctKind(c: char): (k: TokenType)
    ensures k != Unknown <==> IsPunct(c)
    ensures k !in {EOL, Ident, Number, KeywordWith}
  {
    match c
    case '+' => Plus
    case '-' => Minus
    case '*' => Star
    case '/' => Slash
    case '(' => LeftParen
    case ')' => RightParen
    case ':' => Colon
    case ',' => Comma
    case _ => Unknown
  }

  /** The eight punctuation characters. */
  predicate IsPunct(c: char) {
    c in "+-*/():,"
  }

  /** Exactly the punctuation characters get a kind of their own; the kind
      tells the character back, and it is never one of the run or end kinds. */
  lemma PunctKindClassifies(c: char, d: char)
    ensures PunctKind(c) != Unknown <==> IsPunct(c)
    ensures PunctKind(c) !in {EOL, Ident, Number, KeywordWith}
    ensures IsPunct(c) && PunctKind(c) == PunctKind(d) ==> c == d
  {
  }

  /** The reserved word. */
  const WITH: seq<char> := "with"

  /** The kind of an alphabetic run: the keyword only for exactly "with". */
  function WordKind(name: seq<char>): (k: TokenType)
    ensures k in {Ident, KeywordWith}
    ensures k == KeywordWith <==> name == WITH
  {
    if name == WITH then KeywordWith else Ident
  }

  /** The whitespace-skipping loop: the test `*p && isspace(*p)`. Its NUL
      test never changes the outcome, because NUL is not a space, and no
      character it skips can start a word, a number or a single token. */
  predicate SkippedBySpaceLoop(c: char)
    ensures SkippedBySpaceLoop(c) <==> IsSpace(c)
    ensures SkippedBySpaceLoop(c) ==> !IsAlpha(c) && !IsDigit(c) && !IsPunct(c)
  {
    c != NUL && IsSpace(c)
  }

  /** Where the skip loop leaves the cursor: past a maximal whitespace run,
      at the terminator or at a non-space character. */
  function TokenStart(buf: seq<char>, cursor: nat): (s: nat)
    requires cursor <= |buf|
    ensures cursor <= s <= |buf|
    ensures forall k | cursor <= k < s :: IsSpace(buf[k])
    ensures At(buf, s) == NUL || !IsSpace(At(buf, s))
  {
    RunEnd(buf, cursor, SkippedBySpaceLoop)
  }

  /** `InitToken(token, token_end, type)`: set the kind, clear the text and
      move the cursor to the end of the token. */
  function InitToken(token: Token, tokenEnd: nat, t: TokenType): (r: Scanned)
    ensures r.token == token.SetType(t).SetText([])
    ensures r.cursor == tokenEnd
  {
    Scanned(Token(t, []), tokenEnd)
  }

  /** `Lexer::GetNext`, one branch per case of the C++ code. */
  function GetNext(buf: seq<char>, cursor: nat, token: Token): (r: Scanned)
    requires cursor <= |buf|
    ensures cursor <= r.cursor <= |buf|
    ensures r.token.kind == EOL <==> At(buf, TokenStart(buf, cursor)) == NUL
    ensures r.token.kind == EOL ==> r.cursor == TokenStart(buf, cursor) && r.token.text == token.text
    ensures r.token.kind != EOL ==> r.cursor > TokenStart(buf, cursor) && r.token.text == []
    ensures forall k | TokenStart(buf, cursor) <= k < r.cursor :: buf[k] != NUL && !IsSpace(buf[k])
  {
    var s := TokenStart(buf, cursor);
    var c := At(buf, s);
    if c == NUL then
      Scanned(token.SetType(EOL), s)
    else if IsAlpha(c) then
      var end := RunEnd(buf, s + 1, IsAlpha);
      InitToken(token, end, WordKind(buf[s..end]))
    else if IsDigit(c) then
      var end := RunEnd(buf, s + 1, IsDigit);
      InitToken(token, end, Number)
    else
      InitToken(token, s + 1, PunctKind(c))
  }

  /** The scanner's behaviour stated without its code: what a call must
      produce once the cursor sits at `s`, the first non-space offset. */
  ghost predicate ScanSpec(buf: seq<char>, s: nat, token: Token, r: Scanned)
    requires s <= |buf|
  {
    var c := At(buf, s);
    if c == NUL then
      r == Scanned(token.(kind := EOL), s)
    else
      && r.token.text == []
      && (if IsAlpha(c) then
            && MaximalRun(buf, s, r.cursor, IsAlpha)
            && (r.token.kind == KeywordWith <==> buf[s..r.cursor] == "with")
            && (r.token.kind == Ident <==> buf[s..r.cursor] != "with")
          else if IsDigit(c) then
            MaximalRun(buf, s, r.cursor, IsDigit) && r.token.kind == Number
          else
            && r.cursor == s + 1
            && (c == '+' ==> r.token.kind == Plus)
            && (c == '-' ==> r.token.kind == Minus)
            && (c == '*' ==> r.token.kind == Star)
            && (c == '/' ==> r.token.kind == Slash)
            && (c == '(' ==> r.token.kind == LeftParen)
            && (c == ')' ==> r.token.kind == RightParen)
            && (c == ':' ==> r.token.kind == Colon)
            && (c == ',' ==> r.token.kind == Comma)
            && (!IsPunct(c) ==> r.token.kind == Unknown))
  }

  /** `GetNext` meets the specification: maximal munch for letters and
      digits, the keyword exactly for "with", one character for the rest. */
  lemma GetNextMeetsSpec(buf: seq<char>, cursor: nat, token: Token)
    requires cursor <= |buf|
    ensures ScanSpec(buf, TokenStart(buf, cursor), token, GetNext(buf, cursor, token))
  {
  }

  /** ... and the specification admits no other result, so it pins the
      scanner's behaviour down completely. */
  lemma ScanSpecDeterminesGetNext(buf: seq<char>, cursor: nat, token: Token, r: Scanned)
    requires cursor <= |buf|
    requires ScanSpec(buf, TokenStart(buf, cursor), token, r)
    ensures r == GetNext(buf, cursor, token)
  {
  }

  /** The skip loop does not move a cursor that is already on the
      terminator or on a non-space character. */
  lemma TokenStartAtNonSpace(buf: seq<char>, cursor: nat)
    requires cursor <= |buf|
    requires At(buf, cursor) == NUL || !IsSpace(At(buf, cursor))
    ensures TokenStart(buf, cursor) == cursor
  {
  }

  /** An alphabetic character after the whitespace starts a word: the call
      consumes the maximal letter run and classifies it by `WordKind`. */
  lemma GetNextWord(buf: seq<char>, cursor: nat, token: Token, end: nat)
    requires cursor <= |buf|
    requires TokenStart(buf, cursor) < end
    requires MaximalRun(buf, TokenStart(buf, cursor), end, IsAlpha)
    ensures GetNext(buf, cursor, token) == Scanned(Token(WordKind(buf[TokenStart(buf, cursor)..end]), []), end)
  {
  }

  /** A digit after the whitespace starts a number: the call consumes the
      maximal digit run, and nothing after it. */
  lemma GetNextNumber(buf: seq<char>, cursor: nat, token: Token, end: nat)
    requires cursor <= |buf|
    requires TokenStart(buf, cursor) < end
    requires MaximalRun(buf, TokenStart(buf, cursor), end, IsDigit)
    ensures GetNext(buf, cursor, token) == Scanned(Token(Number, []), end)
  {
  }

  /** Any other character after the whitespace is a token by itself: one of
      the eight punctuation kinds, or `Unknown`. */
  lemma GetNextSingle(buf: seq<char>, cursor: nat, token: Token)
    requires cursor <= |buf|
    requires TokenStart(buf, cursor) < |buf|
    requires var c := buf[TokenStart(buf, cursor)]; c != NUL && !IsAlpha(c) && !IsDigit(c)
    ensures var s := TokenStart(buf, cursor);
            GetNext(buf, cursor, token) == Scanned(Token(PunctKind(buf[s]), []), s + 1)
  {
  }

  /** If nothing but whitespace is left before the terminator, the call
      yields `EOL` and leaves the cursor at the terminator. */
  lemma EolWhenOnlySpaceRemains(buf: seq<char>, cursor: nat, token: Token)
    requires cursor <= Terminator(buf)
    requires forall k | cursor <= k < Terminator(buf) :: IsSpace(buf[k])
    ensures GetNext(buf, cursor, token).token.kind == EOL
    ensures GetNext(buf, cursor, token).cursor == Terminator(buf)
  {
  }

  /** `EOL` is a fixed point: a call made where the previous call stopped
      with `EOL` returns exactly the same token and cursor. */
  lemma EolIdempotent(buf: seq<char>, cursor: nat, token: Token)
    requires cursor <= |buf|
    requires GetNext(buf, cursor, token).token.kind == EOL
    ensures var r := GetNext(buf, cursor, token);
            GetNext(buf, r.cursor, r.token) == r
  {
  }

  /** The scanner never reads past the terminator: starting at or before
      it, it stops at or before it; `EOL` stops exactly on it, and any other
      token starts before it. */
  lemma StaysWithinTerminator(buf: seq<char>, cursor: nat, token: Token)
    requires cursor <= Terminator(buf)
    ensures GetNext(buf, cursor, token).cursor <= Terminator(buf)
    ensures GetNext(buf, cursor, token).token.kind == EOL ==> GetNext(buf, cursor, token).cursor == Terminator(buf)
    ensures GetNext(buf, cursor, token).token.kind != EOL ==> TokenStart(buf, cursor) < Terminator(buf)
  {
  }

  /** `sl::Lexer`: the buffer, its start and the cursor `buf_ptr_`. */
  datatype Lexer = Lexer(buf: seq<char>, bufStart: nat, bufPtr: nat) {

    /** The buffer holds bytes, and the cursor lies between the start and
        the terminating NUL: it never passes the end of the C string. */
    predicate Valid() {
      IsByteString(buf) && bufStart <= bufPtr <= Terminator(buf)
    }

    /** The member `GetNext(token)`: only the cursor moves, forward, and
        never past the terminator; at `EOL` it rests on the terminator. */
    function Next(token: Token): (r: (Lexer, Token))
      requires Valid()
      ensures r.0.Valid()
      ensures r.0.buf == buf && r.0.bufStart == bufStart
      ensures bufPtr <= r.0.bufPtr
      ensures r.1.kind != EOL ==> bufPtr < r.0.bufPtr
      ensures r.1.kind == EOL ==> r.0.bufPtr == Terminator(buf)
    {
      StaysWithinTerminator(buf, bufPtr, token);
      var step := GetNext(buf, bufPtr, token);
      (this.(bufPtr := step.cursor), step.token)
    }
  }

  /** The constructor: the cursor starts at the first character of the buffer. */
  function NewLexer(buffer: seq<char>): (l: Lexer)
    requires IsByteString(buffer)
    ensures l.Valid() && l.buf == buffer
    ensures l.bufPtr == l.bufStart == 0
  {
    Lexer(buffer, 0, 0)
  }
}
