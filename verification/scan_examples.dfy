/**
  Concrete inputs and the token kinds the driver's loop sees for them.
 */
module ScanExamples {
  import opened CType
  import opened Buffer
  import opened Tokens
  import opened Lexing
  import opened Driver

  /** A token object as the driver declares it, before the first call. */
  const Fresh: Token := Token(EOL, [])

  /** The kinds the loop sees for `input`, starting from a fresh lexer. */
  function KindsOf(input: seq<char>): seq<TokenType> {
    Kinds(Tokenize(input, 0, Fresh))
  }

  /** From the `i`-th call on, calls from the cursors `cs` yield the kinds
      `ks` in turn, each call ending where the next begins, and the call
      after the last kind yields `EOL`. */
  ghost predicate CallsYield(buf: seq<char>, cs: seq<nat>, ks: seq<TokenType>, i: nat)
    requires |cs| == |ks| + 1 && i <= |ks|
    decreases |ks| - i
  {
    && cs[i] <= |buf|
    && if i == |ks| then GetNext(buf, cs[i], Fresh).token.kind == EOL
       else
         && ks[i] != EOL
         && GetNext(buf, cs[i], Fresh) == Scanned(Token(ks[i], []), cs[i + 1])
         && CallsYield(buf, cs, ks, i + 1)
  }

  /** The loop sees exactly the kinds of the successive calls. */
  lemma {:induction false} KindsFollowCalls(buf: seq<char>, cs: seq<nat>, ks: seq<TokenType>, i: nat)
    requires |cs| == |ks| + 1 && i <= |ks|
    requires CallsYield(buf, cs, ks, i)
    ensures Kinds(Tokenize(buf, cs[i], Fresh)) == ks[i..]
    decreases |ks| - i
  {
    if i < |ks| {
      KindsFollowCalls(buf, cs, ks, i + 1);
      TokenizeIgnoresPriorToken(buf, cs[i + 1], Token(ks[i], []), Fresh);
      var lx := Tokenize(buf, cs[i], Fresh);
      assert lx[1..] == Tokenize(buf, cs[i + 1], Fresh);
      assert Kinds(lx)[1..] == Kinds(lx[1..]);
      assert ks[i..] == [ks[i]] + ks[i + 1..];
    }
  }

  const MIXED: seq<char> := "a,with:3+(b-4)"
  const MIXED_CURSORS: seq<nat> := [0, 1, 2, 6, 7, 8, 9, 10, 11, 12, 13, 14]
  const MIXED_KINDS: seq<TokenType> :=
    [Ident, Comma, KeywordWith, Colon, Number, Plus, LeftParen, Ident, Minus, Number, RightParen]

  /** The calls the loop makes on "a,with:3+(b-4)", one lemma per few calls. */
  lemma MixedCallsHead(b: seq<char>)
    requires b == MIXED
    ensures GetNext(b, 0, Fresh) == Scanned(Token(Ident, []), 1)
    ensures GetNext(b, 1, Fresh) == Scanned(Token(Comma, []), 2)
  {
    assert GetNext(b, 0, Fresh) == Scanned(Token(Ident, []), 1);
  }

  lemma MixedCallsWith(b: seq<char>)
    requires b == MIXED
    ensures GetNext(b, 2, Fresh) == Scanned(Token(KeywordWith, []), 6)
    ensures GetNext(b, 6, Fresh) == Scanned(Token(Colon, []), 7)
  {
    assert b[2..6] == WITH;
    GetNextWord(b, 2, Fresh, 6);
  }

  lemma MixedCallsMiddle(b: seq<char>)
    requires b == MIXED
    ensures GetNext(b, 7, Fresh) == Scanned(Token(Number, []), 8)
    ensures GetNext(b, 8, Fresh) == Scanned(Token(Plus, []), 9)
  {
    assert GetNext(b, 7, Fresh) == Scanned(Token(Number, []), 8);
  }

  lemma MixedCallsParen(b: seq<char>)
    requires b == MIXED
    ensures GetNext(b, 9, Fresh) == Scanned(Token(LeftParen, []), 10)
    ensures GetNext(b, 10, Fresh) == Scanned(Token(Ident, []), 11)
  {
    assert GetNext(b, 9, Fresh) == Scanned(Token(LeftParen, []), 10);
  }

  lemma MixedCallsTail(b: seq<char>)
    requires b == MIXED
    ensures GetNext(b, 11, Fresh) == Scanned(Token(Minus, []), 12)
    ensures GetNext(b, 12, Fresh) == Scanned(Token(Number, []), 13)
    ensures GetNext(b, 13, Fresh) == Scanned(Token(RightParen, []), 14)
    ensures GetNext(b, 14, Fresh).token.kind == EOL
  {
    assert GetNext(b, 11, Fresh) == Scanned(Token(Minus, []), 12);
    assert GetNext(b, 12, Fresh) == Scanned(Token(Number, []), 13);
    assert GetNext(b, 13, Fresh) == Scanned(Token(RightParen, []), 14);
  }

  /** The calls above, put together as a trace. */
  lemma MixedTrace(b: seq<char>)
    requires GetNext.requires(b, 14, Fresh)
    requires GetNext(b, 0, Fresh) == Scanned(Token(Ident, []), 1)
    requires GetNext(b, 1, Fresh) == Scanned(Token(Comma, []), 2)
    requires GetNext(b, 2, Fresh) == Scanned(Token(KeywordWith, []), 6)
    requires GetNext(b, 6, Fresh) == Scanned(Token(Colon, []), 7)
    requires GetNext(b, 7, Fresh) == Scanned(Token(Number, []), 8)
    requires GetNext(b, 8, Fresh) == Scanned(Token(Plus, []), 9)
    requires GetNext(b, 9, Fresh) == Scanned(Token(LeftParen, []), 10)
    requires GetNext(b, 10, Fresh) == Scanned(Token(Ident, []), 11)
    requires GetNext(b, 11, Fresh) == Scanned(Token(Minus, []), 12)
    requires GetNext(b, 12, Fresh) == Scanned(Token(Number, []), 13)
    requires GetNext(b, 13, Fresh) == Scanned(Token(RightParen, []), 14)
    requires GetNext(b, 14, Fresh).token.kind == EOL
    ensures CallsYield(b, MIXED_CURSORS, MIXED_KINDS, 0)
  {
    assert CallsYield(b, MIXED_CURSORS, MIXED_KINDS, 11);
    assert CallsYield(b, MIXED_CURSORS, MIXED_KINDS, 10);
    assert CallsYield(b, MIXED_CURSORS, MIXED_KINDS, 9);
    assert CallsYield(b, MIXED_CURSORS, MIXED_KINDS, 8);
    assert CallsYield(b, MIXED_CURSORS, MIXED_KINDS, 7);
    assert CallsYield(b, MIXED_CURSORS, MIXED_KINDS, 6);
    assert CallsYield(b, MIXED_CURSORS, MIXED_KINDS, 5);
    assert CallsYield(b, MIXED_CURSORS, MIXED_KINDS, 4);
    assert CallsYield(b, MIXED_CURSORS, MIXED_KINDS, 3);
    assert CallsYield(b, MIXED_CURSORS, MIXED_KINDS, 2);
    assert CallsYield(b, MIXED_CURSORS, MIXED_KINDS, 1);
  }

  /** Letters, the keyword, digits and punctuation mixed without spaces. */
  lemma MixedExpression(b: seq<char>)
    requires b == MIXED
    ensures KindsOf(b) ==
      [Ident, Comma, KeywordWith, Colon, Number, Plus, LeftParen, Ident, Minus, Number, RightParen]
  {
    MixedCallsHead(b);
    MixedCallsWith(b);
    MixedCallsMiddle(b);
    MixedCallsParen(b);
    MixedCallsTail(b);
    MixedTrace(b);
    KindsFollowCalls(b, MIXED_CURSORS, MIXED_KINDS, 0);
  }

  /** A digit run stops before a '.', which becomes an unknown token of
      its own; the digits after it are a second number. */
  lemma DigitRunStopsAtDot(b: seq<char>)
    requires b == "3.5"
    ensures GetNext(b, 0, Fresh) == Scanned(Token(Number, []), 1)
    ensures GetNext(b, 1, Fresh) == Scanned(Token(Unknown, []), 2)
    ensures KindsOf(b) == [Number, Unknown, Number]
  {
    assert GetNext(b, 0, Fresh) == Scanned(Token(Number, []), 1);
    assert GetNext(b, 1, Fresh) == Scanned(Token(Unknown, []), 2);
    assert GetNext(b, 2, Fresh) == Scanned(Token(Number, []), 3);
    assert GetNext(b, 3, Fresh).token.kind == EOL;
    var cs: seq<nat> := [0, 1, 2, 3];
    var ks := [Number, Unknown, Number];
    assert CallsYield(b, cs, ks, 2);
    assert CallsYield(b, cs, ks, 1);
    KindsFollowCalls(b, cs, ks, 0);
  }

  /** The keyword test is exact and case-sensitive: only the whole run
      "with" is the keyword, after any leading whitespace. */
  lemma KeywordExactMatch(b1: seq<char>, b2: seq<char>, b3: seq<char>)
    requires b1 == " with(" && b2 == "With" && b3 == "without"
    ensures GetNext(b1, 0, Fresh) == Scanned(Token(KeywordWith, []), 5)
    ensures GetNext(b2, 0, Fresh) == Scanned(Token(Ident, []), 4)
    ensures GetNext(b3, 0, Fresh) == Scanned(Token(Ident, []), 7)
  {
    assert MaximalRun(b1, 0, 1, SkippedBySpaceLoop);
    MaximalRunUnique(b1, 0, TokenStart(b1, 0), 1, SkippedBySpaceLoop);
    assert b1[1..5] == WITH;
    GetNextWord(b1, 0, Fresh, 5);
    GetNextWord(b2, 0, Fresh, 4);
    GetNextWord(b3, 0, Fresh, 7);
  }
}
