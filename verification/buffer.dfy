/**
  The lexer's input: a C character buffer seen through a cursor. The buffer
  is a `seq<char>`; reading at index `|buf|` yields the terminating NUL that
  the C string carries after its last character. A NUL inside the sequence
  terminates the string just as well, so the scanner's view of the input
  ends at the first NUL, `Terminator(buf)`.

  One element is one C `char`, that is one byte: a character outside ASCII
  is several elements, one per byte of its UTF-8 encoding (`IsByteString`).
 */
module Buffer {
  import opened CType

  /** `*p` for a pointer `p` at offset `i` into the NUL-terminated buffer. */
  function At(buf: seq<char>, i: nat): (c: char)
    requires i <= |buf|
    ensures i < |buf| ==> c == buf[i]
    ensures c == NUL <==> i == |buf| || buf[i] == NUL
  {
    if i < |buf| then buf[i] else NUL
  }

  /** `[i, j)` is a maximal run of `p`: every character in it satisfies `p`
      and the character read at `j` does not. */
  ghost predicate MaximalRun(buf: seq<char>, i: nat, j: nat, p: char -> bool) {
    && i <= j <= |buf|
    && (forall k | i <= k < j :: p(buf[k]))
    && !p(At(buf, j))
  }

  /** The loop `while (p(*end)) ++end;` started at offset `i`: the end of
      the maximal run of `p` there. It relies on `p` failing at NUL, which is
      what stops it at the terminator. */
  function RunEnd(buf: seq<char>, i: nat, p: char -> bool): (j: nat)
    requires i <= |buf|
    requires !p(NUL)
    ensures MaximalRun(buf, i, j, p)
    decreases |buf| - i
  {
    if p(At(buf, i)) then RunEnd(buf, i + 1, p) else i
  }

  /** A maximal run from a given start has exactly one end. */
  lemma MaximalRunUnique(buf: seq<char>, i: nat, j1: nat, j2: nat, p: char -> bool)
    requires MaximalRun(buf, i, j1, p)
    requires MaximalRun(buf, i, j2, p)
    ensures j1 == j2
  {
  }

  /** Every element is a byte value, as the elements of a C `char` array are. */
  predicate IsByteString(buf: seq<char>) {
    forall k | 0 <= k < |buf| :: buf[k] < 256 as char
  }

  /** True for every character that does not end a C string. */
  predicate NotNul(c: char) {
    c != NUL
  }

  /** The offset of the terminating NUL the scanner stops at: the first NUL
      in the sequence, or `|buf|` when there is none. */
  function Terminator(buf: seq<char>): (t: nat)
    ensures t <= |buf| && At(buf, t) == NUL
    ensures forall k | 0 <= k < t :: buf[k] != NUL
  {
    RunEnd(buf, 0, NotNul)
  }
}
