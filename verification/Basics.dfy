/** Shared vocabulary: optional values, results, bytes, and the splitting lemmas every
    decoding argument in this project rests on. */
module Basics {

  datatype Option<+T> = None | Some(value: T) {
    function GetOr(default: T): T {
      match this
      case Some(v) => v
      case None => default
    }
  }

  datatype Result<+T, +E> = Ok(value: T) | Err(error: E)

  newtype byte = x: int | 0 <= x < 256

  type Bytes = seq<byte>

  /** A 32-byte word: the size of a Keccak-256 digest, of a salt and of a Merkle node. */
  type Word = w: Bytes | |w| == 32 witness seq(32, _ => 0)

  predicate IsWord(b: Bytes) { |b| == 32 }

  /** h maps two different members of `hashed` to the same digest. `hashed` is always a finite set of
      byte strings that a named computation really hashes, so the statement is not vacuous. */
  ghost predicate CollisionIn(h: Bytes -> Word, hashed: set<Bytes>) {
    exists a, b :: a in hashed && b in hashed && a != b && h(a) == h(b)
  }

  function Pow2(k: nat): nat { if k == 0 then 1 else 2 * Pow2(k - 1) }

  /** The blanks of `\s`, which are also those `trim` removes. */
  predicate IsBlank(c: char) {
    c == ' ' || '\t' <= c <= '\r' || c == '\U{00A0}' || c == '\U{1680}' || '\U{2000}' <= c <= '\U{200A}'
    || c == '\U{2028}' || c == '\U{2029}' || c == '\U{202F}' || c == '\U{205F}' || c == '\U{3000}' || c == '\U{FEFF}'
  }

  /** A blank, by its code point. */
  predicate Blank(c: char) {
    var n := c as int;
    9 <= n <= 13 || n in {32, 160, 5760, 8232, 8233, 8239, 8287, 12288, 65279} || 8192 <= n <= 8202
  }

  lemma BlankIff(c: char)
    ensures Blank(c) <==> IsBlank(c)
  {
    var n := c as int;
    assert n == 9 ==> c == '\t';
    assert n == 65279 ==> c == '\U{FEFF}';
  }

  /** Concatenations that agree, cut at the first occurrence of a separator, agree piece by piece. */
  lemma SplitAtFirst<T>(a: seq<T>, c: T, x: seq<T>, b: seq<T>, y: seq<T>)
    requires c !in a && c !in b
    requires a + [c] + x == b + [c] + y
    ensures a == b && x == y
  {
    var whole := a + [c] + x;
    assert whole[|a|] == c && whole[|b|] == c;
    assert |a| == |b|;
    assert a == whole[..|a|] && b == whole[..|b|];
    assert x == whole[|a| + 1..] && y == whole[|b| + 1..];
  }

  /** The same, cut at the last occurrence. */
  lemma SplitAtLast<T>(a: seq<T>, c: T, x: seq<T>, b: seq<T>, y: seq<T>)
    requires c !in x && c !in y
    requires a + [c] + x == b + [c] + y
    ensures a == b && x == y
  {
    var whole := a + [c] + x;
    assert whole[|a|] == c && whole[|b|] == c;
    assert whole[|a| + 1..] == x && whole[|b| + 1..] == y;
    assert |a| == |b|;
    assert a == whole[..|a|] && b == whole[..|b|];
    assert x == whole[|a| + 1..] && y == whole[|b| + 1..];
  }

  /** Dropping a common prefix. */
  lemma DropPrefix<T>(p: seq<T>, x: seq<T>, y: seq<T>)
    requires p + x == p + y
    ensures x == y
  {
    assert x == (p + x)[|p|..];
    assert y == (p + y)[|p|..];
  }
}
