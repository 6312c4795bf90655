/**
  The `Token` value of the SimpleLang lexer: a kind from a closed set of
  thirteen and a text. In C++ the text is an `llvm::StringRef`, a borrowed
  view into the input; here it is the sequence of characters that view shows.
 */
module Tokens {

  /** The thirteen token kinds, in the order of the C++ enumeration. */
  datatype TokenType =
    | EOL
    | Unknown
    | Ident
    | Number
    | Comma
    | Colon
    | Plus
    | Minus
    | Star
    | Slash
    | LeftParen
    | RightParen
    | KeywordWith

  /** Every kind, listed once, in enumeration order. */
  const AllTypes: seq<TokenType> :=
    [EOL, Unknown, Ident, Number, Comma, Colon, Plus, Minus, Star, Slash,
     LeftParen, RightParen, KeywordWith]

  /** The integer value of a kind as an unscoped C++ enumerator (what the
      driver prints for a token's type). */
  function Ordinal(t: TokenType): (n: nat)
    ensures n < |AllTypes| && AllTypes[n] == t
  {
    match t
    case EOL => 0
    case Unknown => 1
    case Ident => 2
    case Number => 3
    case Comma => 4
    case Colon => 5
    case Plus => 6
    case Minus => 7
    case Star => 8
    case Slash => 9
    case LeftParen => 10
    case RightParen => 11
    case KeywordWith => 12
  }

  /** The kind set is closed and has exactly thirteen members: the ordinal
      is a bijection between the kinds and 0..12. */
  lemma ExactlyThirteenKinds()
    ensures |AllTypes| == 13
    ensures forall t: TokenType :: t in AllTypes
    ensures forall i, j | 0 <= i < j < |AllTypes| :: AllTypes[i] != AllTypes[j]
    ensures forall t: TokenType, u: TokenType :: Ordinal(t) == Ordinal(u) ==> t == u
  {
    forall t: TokenType ensures t in AllTypes {
      assert AllTypes[Ordinal(t)] == t;
    }
  }

  datatype Token = Token(kind: TokenType, text: seq<char>) {

    /** `GetType`: writing the kind read back changes nothing. */
    function GetType(): (t: TokenType)
      ensures SetType(t) == this
    {
      kind
    }

    /** `GetText`: writing the text read back changes nothing. */
    function GetText(): (s: seq<char>)
      ensures SetText(s) == this
    {
      text
    }

    /** `SetType`: the new kind is stored; the text is untouched. */
    function SetType(t: TokenType): (r: Token)
      ensures r.kind == t && r.text == text
    {
      this.(kind := t)
    }

    /** `SetText`: the new text is stored; the kind is untouched. */
    function SetText(s: seq<char>): (r: Token)
      ensures r.text == s && r.kind == kind
    {
      this.(text := s)
    }

    /** `Is(t)`: the kind is `t` exactly when setting it to `t` changes nothing. */
    predicate Is(t: TokenType)
      ensures Is(t) <==> SetType(t) == this
    {
      kind == t
    }

    /** The two-candidate `IsOneOf`: the kind is one of the two, in either order. */
    predicate IsOneOf(t1: TokenType, t2: TokenType)
      ensures IsOneOf(t1, t2) <==> kind in {t1, t2}
      ensures IsOneOf(t1, t2) <==> GetType() == t2 || GetType() == t1
    {
      Is(t1) || Is(t2)
    }

    /** The variadic `IsOneOf(t1, t2, ts...)`: the head is tested with `Is`
        and the rest with `IsOneOf` again, down to the two-candidate form.
        It holds exactly when the kind is among the candidates. */
    predicate IsOneOfList(ts: seq<TokenType>)
      requires |ts| >= 2
      ensures IsOneOfList(ts) <==> kind in ts
    {
      if |ts| == 2 then IsOneOf(ts[0], ts[1])
      else Is(ts[0]) || IsOneOfList(ts[1..])
    }
  }

  /** The accessor laws: each getter reads back what its setter wrote,
      and each setter leaves the other field as it was. */
  lemma GetAfterSet(tok: Token, t: TokenType, s: seq<char>)
    ensures tok.SetType(t).GetType() == t && tok.SetType(t).GetText() == tok.GetText()
    ensures tok.SetText(s).GetText() == s && tok.SetText(s).GetType() == tok.GetType()
  {
  }

  /** `Is` after `SetType(t)` recognises `t` and nothing else. */
  lemma IsAfterSetType(tok: Token, t: TokenType, u: TokenType)
    ensures tok.SetType(t).Is(u) <==> t == u
  {
  }

  /** The two-candidate `IsOneOf` is the variadic one at arity two, and
      it holds exactly when one of the two candidates is the kind. */
  lemma IsOneOfIsListOfTwo(tok: Token, t1: TokenType, t2: TokenType)
    ensures tok.IsOneOf(t1, t2) <==> tok.IsOneOfList([t1, t2])
    ensures tok.IsOneOf(t1, t2) <==> (tok.kind == t1 || tok.kind == t2)
  {
  }

  /** Repeated candidates do not matter, and a match in last position is
      found: prepending candidates keeps every match of the tail. */
  lemma IsOneOfListExtends(tok: Token, front: seq<TokenType>, ts: seq<TokenType>)
    requires |ts| >= 2
    ensures tok.IsOneOfList(ts) ==> tok.IsOneOfList(front + ts)
    ensures tok.IsOneOfList(ts + ts) <==> tok.IsOneOfList(ts)
    ensures tok.IsOneOfList(ts + [tok.kind])
  {
  }
}
