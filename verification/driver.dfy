/**
  The pull loop of the `simplelexer` driver: construct a lexer over the
  input, call `GetNext` once, and keep calling it while the kind is not
  `EOL`, printing each token's kind and text on the way. Command-line
  parsing and the printing itself are not modelled; what the loop prints is
  returned instead.
 */
module Driver {
  import opened CType
  import opened Buffer
  import opened Tokens
  import opened Lexing

  /** One token the loop sees, with the span `[start, end)` of the buffer it
      was scanned from (the token's own text is empty, so the span is the
      only record of what was matched). */
  datatype Lexeme = Lexeme(token: Token, start: nat, end: nat)

  /** The tokens the loop sees before `EOL`, from `cursor` on, when the
      caller's token object currently holds `token`. */
  function Tokenize(buf: seq<char>, cursor: nat, token: Token): (lx: seq<Lexeme>)
    requires cursor <= |buf|
    ensures |lx| <= |buf| - cursor
    ensures forall i | 0 <= i < |lx| :: lx[i].token.kind != EOL && lx[i].token.text == []
    ensures forall i | 0 <= i < |lx| :: cursor <= lx[i].start < lx[i].end <= |buf|
    ensures forall i, j | 0 <= i < j < |lx| :: lx[i].end <= lx[j].start
    decreases |buf| - cursor
  {
    var r := GetNext(buf, cursor, token);
    if r.token.kind == EOL then []
    else [Lexeme(r.token, TokenStart(buf, cursor), r.cursor)] + Tokenize(buf, r.cursor, r.token)
  }

  /** Each lexeme is what one call of `GetNext` made of its span: its kind
      is fixed by the span alone, by the same rules as a single call. */
  ghost predicate Classified(buf: seq<char>, l: Lexeme)
  {
    && l.start < l.end <= |buf|
    && var c := buf[l.start];
    && (if IsAlpha(c) then
          MaximalRun(buf, l.start, l.end, IsAlpha) && l.token.kind == WordKind(buf[l.start..l.end])
        else if IsDigit(c) then
          MaximalRun(buf, l.start, l.end, IsDigit) && l.token.kind == Number
        else
          c != NUL && !IsSpace(c) && l.end == l.start + 1 && l.token.kind == PunctKind(c))
  }

  /** Every lexeme the loop sees is classified by its span. */
  lemma {:induction false} TokenizeClassifies(buf: seq<char>, cursor: nat, token: Token)
    requires cursor <= |buf|
    ensures forall l | l in Tokenize(buf, cursor, token) :: Classified(buf, l)
    decreases |buf| - cursor
  {
    var r := GetNext(buf, cursor, token);
    if r.token.kind != EOL {
      GetNextMeetsSpec(buf, cursor, token);
      TokenizeClassifies(buf, r.cursor, r.token);
      var s := TokenStart(buf, cursor);
      assert At(buf, s) == buf[s];
    }
  }

  /** Offset `k` lies inside the span of one of the lexemes. */
  ghost predicate Covered(lx: seq<Lexeme>, k: nat) {
    exists i :: 0 <= i < |lx| && lx[i].start <= k < lx[i].end
  }

  /** No character is lost: every non-space character before the
      terminator lies inside the span of some lexeme the loop sees. */
  lemma {:induction false} TokenizeCoversInput(buf: seq<char>, cursor: nat, token: Token)
    requires cursor <= Terminator(buf)
    ensures forall k | cursor <= k < Terminator(buf) && !IsSpace(buf[k]) ::
              Covered(Tokenize(buf, cursor, token), k)
    decreases |buf| - cursor
  {
    var r := GetNext(buf, cursor, token);
    StaysWithinTerminator(buf, cursor, token);
    if r.token.kind != EOL {
      var s := TokenStart(buf, cursor);
      var rest := Tokenize(buf, r.cursor, r.token);
      var lx := [Lexeme(r.token, s, r.cursor)] + rest;
      assert Tokenize(buf, cursor, token) == lx;
      TokenizeCoversInput(buf, r.cursor, r.token);
      forall k | cursor <= k < Terminator(buf) && !IsSpace(buf[k])
        ensures Covered(lx, k)
      {
        if s <= k < r.cursor {
          assert lx[0].start <= k < lx[0].end;
        } else if r.cursor <= k {
          assert Covered(rest, k);
          var i :| 0 <= i < |rest| && rest[i].start <= k < rest[i].end;
          assert lx[i + 1] == rest[i];
        }
      }
    }
  }

  /** The loop never reads past the terminator: started at or before it,
      every span it sees ends at or before it. */
  lemma {:induction false} TokenizeWithinTerminator(buf: seq<char>, cursor: nat, token: Token)
    requires cursor <= Terminator(buf)
    ensures forall l | l in Tokenize(buf, cursor, token) :: l.end <= Terminator(buf)
    decreases |buf| - cursor
  {
    var r := GetNext(buf, cursor, token);
    StaysWithinTerminator(buf, cursor, token);
    if r.token.kind != EOL {
      TokenizeWithinTerminator(buf, r.cursor, r.token);
    }
  }

  /** What the loop sees does not depend on what the caller's token object
      held beforehand: only the `EOL` path would keep its old text, and the
      loop stops there. */
  lemma {:induction false} TokenizeIgnoresPriorToken(buf: seq<char>, cursor: nat, t1: Token, t2: Token)
    requires cursor <= |buf|
    ensures Tokenize(buf, cursor, t1) == Tokenize(buf, cursor, t2)
    decreases |buf| - cursor
  {
    var r1 := GetNext(buf, cursor, t1);
    var r2 := GetNext(buf, cursor, t2);
    if r1.token.kind != EOL {
      assert r1 == r2;
      TokenizeIgnoresPriorToken(buf, r1.cursor, r1.token, r2.token);
    }
  }

  /** The kinds of a lexeme sequence, in order. */
  function Kinds(lx: seq<Lexeme>): (ks: seq<TokenType>)
    ensures |ks| == |lx|
    ensures forall i | 0 <= i < |lx| :: ks[i] == lx[i].token.kind
  {
    if lx == [] then [] else [lx[0].token.kind] + Kinds(lx[1..])
  }

  /** The tokens of a lexeme sequence, in order. */
  function TokensOf(lx: seq<Lexeme>): (ts: seq<Token>)
    ensures |ts| == |lx|
  {
    if lx == [] then [] else [lx[0].token] + TokensOf(lx[1..])
  }

  /** One turn of the loop: a call that does not yield `EOL` contributes
      its lexeme and the loop goes on from where that call left off. */
  lemma TokenizeStep(buf: seq<char>, cursor: nat, token: Token)
    requires cursor <= |buf|
    ensures var r := GetNext(buf, cursor, token);
            r.token.kind != EOL ==>
              Tokenize(buf, cursor, token) == [Lexeme(r.token, TokenStart(buf, cursor), r.cursor)] + Tokenize(buf, r.cursor, r.token)
    ensures GetNext(buf, cursor, token).token.kind == EOL ==> Tokenize(buf, cursor, token) == []
  {
  }

  /** The driver's loop. The `Token` it declares is default-constructed, so
      its kind is indeterminate and its text empty: the kind is a parameter.
      The tokens handed to the printing statement are returned in order. */
  method Drive(input: seq<char>, initialKind: TokenType) returns (printed: seq<Token>)
    requires IsByteString(input)
    ensures printed == TokensOf(Tokenize(input, 0, Token(initialKind, [])))
  {
    var lex := NewLexer(input);
    var token := Token(initialKind, []);
    ghost var all := TokensOf(Tokenize(input, 0, token));
    ghost var from, prior := lex.bufPtr, token;
    var step := lex.Next(token);
    lex, token := step.0, step.1;
    printed := [];
    while token.GetType() != EOL
      invariant from <= |input| && lex.Valid() && lex.buf == input
      invariant GetNext(input, from, prior) == Scanned(token, lex.bufPtr)
      invariant all == printed + TokensOf(Tokenize(input, from, prior))
      decreases |input| - from
    {
      TokenizeStep(input, from, prior);
      ghost var rest := Tokenize(input, lex.bufPtr, token);
      ghost var lx := [Lexeme(token, TokenStart(input, from), lex.bufPtr)] + rest;
      assert lx[1..] == rest;
      assert TokensOf(lx) == [token] + TokensOf(rest);
      printed := printed + [token];
      from, prior := lex.bufPtr, token;
      step := lex.Next(token);
      lex, token := step.0, step.1;
    }
    TokenizeStep(input, from, prior);
  }
}
