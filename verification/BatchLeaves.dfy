/** Rebuilding the leaves of a batch from the ranks stored with its members (`orderedLeaves` in
    src/blockchain/anchor.service.ts). */
module BatchLeaves {
  import opened Basics

  /** The two columns of a member the rebuilding reads. */
  datatype Member = Member(leafIndex: Option<int>, fingerprint: Option<Word>)

  datatype LeafError = InvalidIndex(item: nat) | NoFingerprint(item: nat) | MissingLeaf(index: nat)

  predicate InRange(m: Member, leafCount: nat) { m.leafIndex.Some? && 0 <= m.leafIndex.value < leafCount }

  predicate Placed(m: Member, leafCount: nat) { InRange(m, leafCount) && m.fingerprint.Some? }

  predicate AllPlaced(items: seq<Member>, leafCount: nat) {
    forall i :: 0 <= i < |items| ==> Placed(items[i], leafCount)
  }

  /** The leaf the last member of rank j leaves there. */
  function LastAt(h: Bytes -> Word, items: seq<Member>, j: nat): Option<Word> {
    if items == [] then None
    else
      var m := items[|items| - 1];
      if m.leafIndex == Some(j) && m.fingerprint.Some? then Some(h(m.fingerprint.value))
      else LastAt(h, items[..|items| - 1], j)
  }

  predicate Covered(h: Bytes -> Word, items: seq<Member>, leafCount: nat) {
    forall j :: 0 <= j < leafCount ==> LastAt(h, items, j).Some?
  }

  /** The leaves, when every member has a rank and a fingerprint and no rank is left out. */
  function Ordered(h: Bytes -> Word, items: seq<Member>, leafCount: nat): Option<seq<Word>> {
    if AllPlaced(items, leafCount) && Covered(h, items, leafCount)
    then Some(seq(leafCount, j requires 0 <= j < leafCount => LastAt(h, items, j).value))
    else None
  }

  /** `orderedLeaves`: the first member without a valid rank or without fingerprint is named; then the first
      rank nobody holds. */
  method OrderedLeaves(h: Bytes -> Word, items: seq<Member>, leafCount: nat) returns (r: Result<seq<Word>, LeafError>)
    ensures r.Ok? <==> Ordered(h, items, leafCount).Some?
    ensures r.Ok? ==> Ordered(h, items, leafCount) == Some(r.value)
    ensures r.Err? && !r.error.MissingLeaf? ==>
              r.error.item < |items| && AllPlaced(items[..r.error.item], leafCount)
              && (r.error.InvalidIndex? <==> !InRange(items[r.error.item], leafCount))
              && (r.error.NoFingerprint? ==> items[r.error.item].fingerprint.None?)
    ensures r.Err? && r.error.MissingLeaf? ==>
              r.error.index < leafCount && AllPlaced(items, leafCount) && LastAt(h, items, r.error.index).None?
              && Covered(h, items, r.error.index)
  {
    var leaves := new Option<Word>[leafCount](_ => None);
    for i := 0 to |items|
      invariant AllPlaced(items[..i], leafCount)
      invariant forall j :: 0 <= j < leafCount ==> leaves[j] == LastAt(h, items[..i], j)
    {
      var m := items[i];
      assert items[..i + 1][..i] == items[..i];
      if m.leafIndex.None? || m.leafIndex.value < 0 || m.leafIndex.value >= leafCount {
        return Err(InvalidIndex(i));
      }
      if m.fingerprint.None? {
        return Err(NoFingerprint(i));
      }
      leaves[m.leafIndex.value] := Some(h(m.fingerprint.value));
    }
    assert items[..|items|] == items;
    var result: seq<Word> := [];
    for j := 0 to leafCount
      invariant |result| == j && Covered(h, items, j)
      invariant forall k :: 0 <= k < j ==> LastAt(h, items, k) == Some(result[k])
    {
      if leaves[j].None? {
        return Err(MissingLeaf(j));
      }
      result := result + [leaves[j].value];
    }
    assert Ordered(h, items, leafCount).Some? && result == Ordered(h, items, leafCount).value;
    r := Ok(result);
  }

  // ---------------------------------------------------------------------------------------------
  // No rank missing and as many members as ranks: a bijection
  // ---------------------------------------------------------------------------------------------

  function Elements(s: seq<int>): set<int> { set i | 0 <= i < |s| :: s[i] }

  lemma {:induction false} ElementsBound(s: seq<int>)
    ensures |Elements(s)| <= |s|
  {
    if s != [] {
      var front := s[..|s| - 1];
      ElementsBound(front);
      assert Elements(s) == Elements(front) + {s[|s| - 1]};
    }
  }

  /** The ranks below n. */
  function Upto(n: nat): (s: set<int>)
    ensures |s| == n && forall j :: j in s <==> 0 <= j < n
  {
    if n == 0 then {} else Upto(n - 1) + {n - 1}
  }

  /** As many places as ranks, and every rank taken: no rank is taken twice. */
  lemma Pigeonhole(s: seq<int>, a: nat, b: nat)
    requires a < b < |s| && Upto(|s|) <= Elements(s)
    ensures s[a] != s[b]
  {
    if s[a] == s[b] {
      var rest := s[..b] + s[b + 1..];
      assert Elements(s) <= Elements(rest) by {
        forall x | x in Elements(s) ensures x in Elements(rest) {
          var i :| 0 <= i < |s| && s[i] == x;
          var k := if i < b then i else if i == b then a else i - 1;
          assert rest[k] == x;
        }
      }
      ElementsBound(rest);
      SubsetSize(Upto(|s|), Elements(s));
      SubsetSize(Elements(s), Elements(rest));
    }
  }

  lemma SubsetSize(a: set<int>, b: set<int>)
    requires a <= b
    ensures |a| <= |b|
  {
    assert b == a + (b - a);
  }

  function Ranks(items: seq<Member>): seq<int> {
    seq(|items|, i requires 0 <= i < |items| => items[i].leafIndex.GetOr(-1))
  }

  lemma {:induction false} LastAtIsMember(h: Bytes -> Word, items: seq<Member>, j: nat) returns (i: nat)
    requires LastAt(h, items, j).Some?
    ensures i < |items| && items[i].leafIndex == Some(j) && items[i].fingerprint.Some?
    ensures LastAt(h, items, j) == Some(h(items[i].fingerprint.value))
  {
    var m := items[|items| - 1];
    if m.leafIndex == Some(j) && m.fingerprint.Some? {
      i := |items| - 1;
    } else {
      i := LastAtIsMember(h, items[..|items| - 1], j);
    }
  }

  /** RANKS ARE A BIJECTION. When the rebuilding succeeds on as many members as the batch has leaves, no two
      members share a rank and every member's own leaf stands at its rank. */
  lemma OrderedIsBijection(h: Bytes -> Word, items: seq<Member>, leafCount: nat)
    requires Ordered(h, items, leafCount).Some? && |items| == leafCount
    ensures forall a, b :: 0 <= a < b < |items| ==> items[a].leafIndex != items[b].leafIndex
    ensures forall i :: 0 <= i < |items| ==>
              Ordered(h, items, leafCount).value[items[i].leafIndex.value] == h(items[i].fingerprint.value)
  {
    var s := Ranks(items);
    forall j | j in Upto(|s|) ensures j in Elements(s) {
      var i := LastAtIsMember(h, items, j);
      assert s[i] == j;
    }
    forall a, b | 0 <= a < b < |items| ensures items[a].leafIndex != items[b].leafIndex {
      Pigeonhole(s, a, b);
    }
    forall i | 0 <= i < |items|
      ensures Ordered(h, items, leafCount).value[items[i].leafIndex.value] == h(items[i].fingerprint.value)
    {
      var k := LastAtIsMember(h, items, items[i].leafIndex.value);
      assert k == i;
    }
  }
}
