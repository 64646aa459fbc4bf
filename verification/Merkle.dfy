/** The Merkle tree of src/blockchain/merkle.util.ts: sorted pairs, and a promoted orphan on a level of
    odd size. Nodes are byte strings; a node is well formed when it has 32 bytes. */
module Merkle {
  import opened Basics

  datatype Tree = Tree(root: Bytes, leaves: seq<Bytes>, layers: seq<seq<Bytes>>)

  datatype Error = NoLeaf | Malformed(index: nat) | OutOfRange(leafIndex: int)

  /** Lexicographic order, which on words of one size is the order of their hexadecimal texts. */
  predicate LexLe(a: Bytes, b: Bytes) {
    a == [] || (b != [] && (a[0] < b[0] || (a[0] == b[0] && LexLe(a[1..], b[1..]))))
  }

  lemma {:induction false} LexLeTotal(a: Bytes, b: Bytes)
    ensures LexLe(a, b) || LexLe(b, a)
  {
    if a != [] && b != [] && a[0] == b[0] {
      LexLeTotal(a[1..], b[1..]);
    }
  }

  lemma {:induction false} LexLeAntisymmetric(a: Bytes, b: Bytes)
    requires LexLe(a, b) && LexLe(b, a)
    ensures a == b
  {
    if a != [] {
      LexLeAntisymmetric(a[1..], b[1..]);
      assert a == [a[0]] + a[1..] && b == [b[0]] + b[1..];
    }
  }

  /** The 64 bytes hashed for a pair: the smaller word first. */
  function Pair(a: Bytes, b: Bytes): Bytes {
    if LexLe(a, b) then a + b else b + a
  }

  function HashPair(h: Bytes -> Word, a: Bytes, b: Bytes): Word {
    h(Pair(a, b))
  }

  lemma PairCommutes(a: Bytes, b: Bytes)
    ensures Pair(a, b) == Pair(b, a)
  {
    LexLeTotal(a, b);
    if LexLe(a, b) && LexLe(b, a) {
      LexLeAntisymmetric(a, b);
    }
  }

  /** A sorted pair forgets sides, and nothing else. */
  lemma PairMembers(a: Bytes, b: Bytes, l: Bytes, r: Bytes)
    requires IsWord(a) && IsWord(b) && IsWord(l) && IsWord(r)
    requires Pair(a, b) == Pair(l, r)
    ensures (a == l && b == r) || (a == r && b == l)
  {
    var p := Pair(a, b);
    assert p[..32] == (if LexLe(a, b) then a else b) && p[32..] == (if LexLe(a, b) then b else a);
    assert p[..32] == (if LexLe(l, r) then l else r) && p[32..] == (if LexLe(l, r) then r else l);
  }

  // ---------------------------------------------------------------------------------------------
  // Which word comes first
  // ---------------------------------------------------------------------------------------------

  function Power256(k: nat): nat { if k == 0 then 1 else 256 * Power256(k - 1) }

  /** The big-endian number of a byte string: how the contract compares words. */
  function Number(b: Bytes): nat {
    if b == [] then 0 else b[0] as nat * Power256(|b| - 1) + Number(b[1..])
  }

  lemma {:induction false} NumberBound(b: Bytes)
    ensures Number(b) < Power256(|b|)
  {
    if b != [] {
      NumberBound(b[1..]);
      Below(b[0] as nat, Power256(|b| - 1), Number(b[1..]));
    }
  }

  lemma Below(d: nat, p: nat, n: nat)
    requires d < 256 && n < p
    ensures d * p + n < 256 * p
  {
    Steps(d + 1, 256, p);
    assert d * p + n < d * p + p == (d + 1) * p;
  }

  lemma Above256(d: nat, e: nat, p: nat, m: nat, n: nat)
    requires d < e && m < p
    ensures d * p + m < e * p + n
  {
    Steps(d + 1, e, p);
    assert d * p + m < d * p + p == (d + 1) * p;
  }

  lemma Steps(d: nat, e: nat, p: nat)
    requires d <= e
    ensures d * p <= e * p
  {
  }

  lemma {:induction false} LexIsNumeric(a: Bytes, b: Bytes)
    requires |a| == |b|
    ensures LexLe(a, b) <==> Number(a) <= Number(b)
  {
    if a != [] {
      var p := Power256(|a| - 1);
      NumberBound(a[1..]);
      NumberBound(b[1..]);
      if a[0] < b[0] {
        Above256(a[0] as nat, b[0] as nat, p, Number(a[1..]), Number(b[1..]));
      } else if b[0] < a[0] {
        Above256(b[0] as nat, a[0] as nat, p, Number(b[1..]), Number(a[1..]));
      } else {
        LexIsNumeric(a[1..], b[1..]);
      }
    }
  }

  /** THE SMALLER WORD FIRST. A pair is hashed as 64 bytes, the word with the smaller number in front. */
  lemma PairIsSorted(h: Bytes -> Word, a: Bytes, b: Bytes)
    requires IsWord(a) && IsWord(b)
    ensures HashPair(h, a, b) == h(if Number(a) <= Number(b) then a + b else b + a)
  {
    LexIsNumeric(a, b);
    if Number(a) == Number(b) {
      LexIsNumeric(b, a);
      LexLeAntisymmetric(a, b);
    }
  }

  /** One level over another: neighbours are hashed, the smaller first, and a last one without neighbour is promoted. */
  ghost predicate PairsUp(h: Bytes -> Word, lower: seq<Bytes>, upper: seq<Bytes>) {
    |upper| == (|lower| + 1) / 2
    && forall i :: 0 <= i < |upper| ==>
         if 2 * i + 1 < |lower|
         then var a, b := lower[2 * i], lower[2 * i + 1];
              upper[i] == h(if Number(a) <= Number(b) then a + b else b + a)
         else upper[i] == lower[2 * i]
  }

  lemma NextPairsUp(h: Bytes -> Word, layer: seq<Bytes>)
    requires AllWords(layer)
    ensures PairsUp(h, layer, NextLayer(h, layer))
  {
    forall i | 0 <= i < |NextLayer(h, layer)| && 2 * i + 1 < |layer|
      ensures var a, b := layer[2 * i], layer[2 * i + 1];
              NextLayer(h, layer)[i] == h(if Number(a) <= Number(b) then a + b else b + a)
    {
      PairIsSorted(h, layer[2 * i], layer[2 * i + 1]);
    }
  }

  /** THE TREE, LEVEL BY LEVEL. From the leaves at the bottom to the single root on top, each level pairs up the one
      below it. */
  lemma {:induction false} LayersPairUp(h: Bytes -> Word, leaves: seq<Bytes>)
    requires leaves != [] && AllWords(leaves)
    ensures var ls := Layers(h, leaves);
            ls[0] == leaves && ls[|ls| - 1] == [Root(h, leaves)]
            && forall k :: 0 <= k < |ls| - 1 ==> |ls[k]| > 1 && PairsUp(h, ls[k], ls[k + 1])
    decreases |leaves|
  {
    TopOfLayers(h, leaves);
    if |leaves| > 1 {
      var next := NextLayer(h, leaves);
      NextPairsUp(h, leaves);
      LayersPairUp(h, next);
      var ls, up := Layers(h, leaves), Layers(h, next);
      forall k | 0 <= k < |ls| - 1 ensures |ls[k]| > 1 && PairsUp(h, ls[k], ls[k + 1]) {
        assert ls[k + 1] == up[k] && (k > 0 ==> ls[k] == up[k - 1]);
      }
    }
  }

  // ---------------------------------------------------------------------------------------------
  // The tree
  // ---------------------------------------------------------------------------------------------

  predicate AllWords(layer: seq<Bytes>) { forall i :: 0 <= i < |layer| ==> IsWord(layer[i]) }

  function Above(h: Bytes -> Word, layer: seq<Bytes>, i: nat): Bytes
    requires 2 * i < |layer|
  {
    if 2 * i + 1 < |layer| then HashPair(h, layer[2 * i], layer[2 * i + 1]) else layer[2 * i]
  }

  function NextLayer(h: Bytes -> Word, layer: seq<Bytes>): (next: seq<Bytes>)
    ensures |next| == (|layer| + 1) / 2
    ensures AllWords(layer) ==> AllWords(next)
  {
    seq((|layer| + 1) / 2, i requires 0 <= i < (|layer| + 1) / 2 => Above(h, layer, i))
  }

  function Layers(h: Bytes -> Word, layer: seq<Bytes>): (layers: seq<seq<Bytes>>)
    requires layer != []
    ensures layers != [] && layers[0] == layer && |layers[|layers| - 1]| == 1
    decreases |layer|
  {
    if |layer| == 1 then [layer] else [layer] + Layers(h, NextLayer(h, layer))
  }

  function Root(h: Bytes -> Word, layer: seq<Bytes>): Bytes
    requires layer != []
    decreases |layer|
  {
    if |layer| == 1 then layer[0] else Root(h, NextLayer(h, layer))
  }

  lemma {:induction false} TopOfLayers(h: Bytes -> Word, layer: seq<Bytes>)
    requires layer != []
    ensures var ls := Layers(h, layer); ls[|ls| - 1] == [Root(h, layer)]
    decreases |layer|
  {
    if |layer| > 1 {
      TopOfLayers(h, NextLayer(h, layer));
      var up := Layers(h, NextLayer(h, layer));
      assert Layers(h, layer)[|up|] == up[|up| - 1];
    }
  }

  /** The pairing loop of one level. */
  method BuildLayer(h: Bytes -> Word, current: seq<Bytes>) returns (next: seq<Bytes>)
    ensures next == NextLayer(h, current)
  {
    next := [];
    var i := 0;
    while i < |current|
      invariant 0 <= i <= |current| + 1 && i % 2 == 0
      invariant next == NextLayer(h, current)[..i / 2]
    {
      next := next + [if i + 1 < |current| then HashPair(h, current[i], current[i + 1]) else current[i]];
      i := i + 2;
    }
  }

  /** The first leaf `assertBytes32` refuses. */
  method FindMalformed(leaves: seq<Bytes>) returns (bad: Option<nat>)
    ensures bad == None <==> AllWords(leaves)
    ensures bad.Some? ==> bad.value < |leaves| && !IsWord(leaves[bad.value]) && AllWords(leaves[..bad.value])
  {
    for index := 0 to |leaves|
      invariant AllWords(leaves[..index])
    {
      if !IsWord(leaves[index]) {
        return Some(index);
      }
    }
    assert leaves[..|leaves|] == leaves;
    return None;
  }

  /** The checks and the layer loop of `buildMerkleTree`. */
  method BuildMerkleTree(h: Bytes -> Word, leaves: seq<Bytes>) returns (r: Result<Tree, Error>)
    ensures leaves == [] <==> r == Err(NoLeaf)
    ensures leaves != [] && AllWords(leaves) ==>
              r == Ok(Tree(Root(h, leaves), leaves, Layers(h, leaves)))
    ensures leaves != [] && !AllWords(leaves) ==>
              r.Err? && r.error.Malformed? && r.error.index < |leaves|
              && !IsWord(leaves[r.error.index]) && AllWords(leaves[..r.error.index])
  {
    if |leaves| == 0 {
      return Err(NoLeaf);
    }
    var malformed := FindMalformed(leaves);
    if malformed.Some? {
      return Err(Malformed(malformed.value));
    }

    var layers := [leaves];
    var current := leaves;
    ghost var below: seq<seq<Bytes>> := [];
    while |current| > 1
      invariant current != [] && layers == below + [current]
      invariant Layers(h, leaves) == below + Layers(h, current)
      invariant Root(h, leaves) == Root(h, current)
      decreases |current|
    {
      var next := BuildLayer(h, current);
      Appended(below, current, Layers(h, next));
      below := layers;
      layers := layers + [next];
      current := next;
    }
    assert Layers(h, current) == [current];
    r := Ok(Tree(current[0], leaves, layers));
  }

  lemma Appended<T>(below: seq<T>, current: T, rest: seq<T>)
    ensures below + ([current] + rest) == (below + [current]) + rest
  {
  }

  /** `index ^ 1` on a non-negative index: the neighbour in the pair. */
  function Sibling(index: nat): nat {
    if index % 2 == 0 then index + 1 else index - 1
  }

  /** What `getProof` collects, level by level; a promoted node contributes nothing. */
  function Siblings(layers: seq<seq<Bytes>>, index: nat): (proof: seq<Bytes>)
    ensures |layers| > 0 ==> |proof| < |layers|
  {
    if |layers| <= 1 then []
    else
      (if Sibling(index) < |layers[0]| then [layers[0][Sibling(index)]] else [])
      + Siblings(layers[1..], index / 2)
  }

  lemma SiblingsAt(layers: seq<seq<Bytes>>, level: nat, index: nat)
    requires level < |layers| - 1
    ensures Siblings(layers[level..], index)
            == (if Sibling(index) < |layers[level]| then [layers[level][Sibling(index)]] else [])
               + Siblings(layers[level + 1..], index / 2)
  {
    assert layers[level..][1..] == layers[level + 1..];
  }

  method GetProof(tree: Tree, leafIndex: int) returns (r: Result<seq<Bytes>, Error>)
    ensures r == if 0 <= leafIndex < |tree.leaves| then Ok(Siblings(tree.layers, leafIndex))
                 else Err(OutOfRange(leafIndex))
  {
    if leafIndex < 0 || leafIndex >= |tree.leaves| {
      return Err(OutOfRange(leafIndex));
    }
    var proof: seq<Bytes> := [];
    var index: nat := leafIndex;
    var level := 0;
    assert tree.layers[0..] == tree.layers;
    while level < |tree.layers| - 1
      invariant 0 <= level <= |tree.layers| && (level == 0 || level <= |tree.layers| - 1)
      invariant Siblings(tree.layers, leafIndex) == proof + Siblings(tree.layers[level..], index)
    {
      var layer := tree.layers[level];
      var siblingIndex := Sibling(index);
      SiblingsAt(tree.layers, level, index);
      ghost var rest := Siblings(tree.layers[level + 1..], index / 2);
      Appended(proof, if siblingIndex < |layer| then layer[siblingIndex] else [], rest);
      if siblingIndex < |layer| {
        proof := proof + [layer[siblingIndex]];
      }
      index := index / 2;
      level := level + 1;
    }
    assert Siblings(tree.layers[level..], index) == [] && proof + [] == proof;
    r := Ok(proof);
  }

  // ---------------------------------------------------------------------------------------------
  // Checking a proof
  // ---------------------------------------------------------------------------------------------

  /** The reduction of `processProof` once every element has been found well formed. */
  function Climb(h: Bytes -> Word, x: Bytes, proof: seq<Bytes>): Bytes
    decreases |proof|
  {
    if proof == [] then x else Climb(h, HashPair(h, x, proof[0]), proof[1..])
  }

  /** `processProof`: None stands for the exception raised on a malformed element. */
  function ProcessProof(h: Bytes -> Word, leaf: Bytes, proof: seq<Bytes>): Option<Bytes> {
    if IsWord(leaf) && AllWords(proof) then Some(Climb(h, leaf, proof)) else None
  }

  predicate VerifyProof(h: Bytes -> Word, leaf: Bytes, proof: seq<Bytes>, root: Bytes) {
    ProcessProof(h, leaf, proof) == Some(root)
  }

  lemma {:induction false} ClimbLast(h: Bytes -> Word, x: Bytes, proof: seq<Bytes>, s: Bytes)
    ensures Climb(h, x, proof + [s]) == HashPair(h, Climb(h, x, proof), s)
    decreases |proof|
  {
    if proof == [] {
      assert Climb(h, x, [s]) == Climb(h, HashPair(h, x, s), [s][1..]);
    } else {
      assert (proof + [s])[1..] == proof[1..] + [s];
      ClimbLast(h, HashPair(h, x, proof[0]), proof[1..], s);
    }
  }

  lemma {:induction false} SiblingsAreWords(h: Bytes -> Word, layer: seq<Bytes>, index: nat)
    requires layer != [] && AllWords(layer)
    ensures AllWords(Siblings(Layers(h, layer), index))
    decreases |layer|
  {
    if |layer| > 1 {
      var next := NextLayer(h, layer);
      SiblingsAreWords(h, next, index / 2);
      assert Layers(h, layer)[1..] == Layers(h, next);
    }
  }

  /** One level: hashing with the sibling, when there is one, gives the node above. */
  lemma OneLevel(h: Bytes -> Word, layer: seq<Bytes>, index: nat)
    requires index < |layer|
    ensures NextLayer(h, layer)[index / 2]
            == if Sibling(index) < |layer| then HashPair(h, layer[index], layer[Sibling(index)]) else layer[index]
  {
    if Sibling(index) < |layer| {
      PairCommutes(layer[index], layer[Sibling(index)]);
    }
  }

  lemma {:induction false} ClimbReachesRoot(h: Bytes -> Word, layer: seq<Bytes>, index: nat)
    requires index < |layer|
    ensures Climb(h, layer[index], Siblings(Layers(h, layer), index)) == Root(h, layer)
    decreases |layer|
  {
    if |layer| > 1 {
      var next := NextLayer(h, layer);
      OneLevel(h, layer, index);
      ClimbReachesRoot(h, next, index / 2);
      var ls := Layers(h, layer);
      assert ls[1..] == Layers(h, next);
      var rest := Siblings(Layers(h, next), index / 2);
      var s := Sibling(index);
      if s < |layer| {
        assert ([layer[s]] + rest)[1..] == rest;
      } else {
        assert Siblings(ls, index) == [] + rest == rest;
      }
    }
  }

  /** COMPLETENESS. For every non-empty list of words and every index, the proof collected by the
      XOR/halving loop carries that leaf to the root. */
  lemma ProofsVerify(h: Bytes -> Word, leaves: seq<Bytes>, index: nat)
    requires AllWords(leaves) && index < |leaves|
    ensures VerifyProof(h, leaves[index], Siblings(Layers(h, leaves), index), Root(h, leaves))
  {
    SiblingsAreWords(h, leaves, index);
    ClimbReachesRoot(h, leaves, index);
  }

  // ---------------------------------------------------------------------------------------------
  // Size
  // ---------------------------------------------------------------------------------------------

  /** k is the ceiling of the binary logarithm of n. */
  predicate CeilLog2(n: nat, k: nat) {
    n <= Pow2(k) && (k == 0 || Pow2(k - 1) < n)
  }

  lemma {:induction false} LayerCount(h: Bytes -> Word, layer: seq<Bytes>)
    requires layer != []
    ensures CeilLog2(|layer|, |Layers(h, layer)| - 1)
    decreases |layer|
  {
    if |layer| > 1 {
      var next := NextLayer(h, layer);
      LayerCount(h, next);
      var k := |Layers(h, next)| - 1;
      assert |Layers(h, layer)| == k + 2;
      assert Pow2(k + 1) == 2 * Pow2(k);
      if k > 0 { assert Pow2(k) == 2 * Pow2(k - 1); }
    }
  }

  /** SIZE. The layer loop stops after ceil(log2 n) + 1 layers, and no proof has more than
      ceil(log2 n) elements. */
  lemma TreeAndProofSize(h: Bytes -> Word, leaves: seq<Bytes>, index: nat)
    requires index < |leaves|
    ensures var k := |Layers(h, leaves)| - 1;
            CeilLog2(|leaves|, k) && |Siblings(Layers(h, leaves), index)| <= k
  {
    LayerCount(h, leaves);
  }

  // ---------------------------------------------------------------------------------------------
  // Soundness
  // ---------------------------------------------------------------------------------------------

  /** The leaf derived from a fingerprint is its second hash (`toLeaf`). */
  function LeavesOf(h: Bytes -> Word, fingerprints: seq<Word>): (leaves: seq<Bytes>)
    ensures |leaves| == |fingerprints| && AllWords(leaves)
    ensures forall i :: 0 <= i < |leaves| ==> leaves[i] == h(fingerprints[i])
  {
    seq(|fingerprints|, i requires 0 <= i < |fingerprints| => h(fingerprints[i]))
  }

  /** Every pair hashed while the tree over `layer` is built. */
  ghost function PairsHashed(h: Bytes -> Word, layer: seq<Bytes>): set<Bytes>
    decreases |layer|
  {
    if |layer| <= 1 then {}
    else (set i | 0 <= i < |layer| / 2 :: Pair(layer[2 * i], layer[2 * i + 1]))
         + PairsHashed(h, NextLayer(h, layer))
  }

  /** Every pair hashed while `proof` is processed from x. */
  ghost function ClimbHashed(h: Bytes -> Word, x: Bytes, proof: seq<Bytes>): set<Bytes> {
    set k | 0 <= k < |proof| :: Pair(Climb(h, x, proof[..k]), proof[k])
  }

  /** All the byte strings hashed by honest tree building over `fingerprints` and by the check of one
      proof for `fingerprint`. */
  ghost function Hashed(h: Bytes -> Word, fingerprints: seq<Word>, fingerprint: Word, proof: seq<Bytes>): set<Bytes> {
    (set i | 0 <= i < |fingerprints| :: fingerprints[i]) + {fingerprint}
    + PairsHashed(h, LeavesOf(h, fingerprints)) + ClimbHashed(h, h(fingerprint), proof)
  }

  lemma {:induction false} ClimbIsWord(h: Bytes -> Word, x: Bytes, proof: seq<Bytes>)
    requires IsWord(x)
    ensures IsWord(Climb(h, x, proof))
    decreases |proof|
  {
    if proof != [] {
      ClimbIsWord(h, HashPair(h, x, proof[0]), proof[1..]);
    }
  }

  /** The last hash made on the way to position k > 0 of a climb. */
  lemma ClimbStep(h: Bytes -> Word, x: Bytes, proof: seq<Bytes>, k: nat)
    requires 0 < k <= |proof|
    ensures Climb(h, x, proof[..k]) == HashPair(h, Climb(h, x, proof[..k - 1]), proof[k - 1])
    ensures Pair(Climb(h, x, proof[..k - 1]), proof[k - 1]) in ClimbHashed(h, x, proof)
  {
    assert proof[..k] == proof[..k - 1] + [proof[k - 1]];
    ClimbLast(h, x, proof[..k - 1], proof[k - 1]);
  }

  /** One layer down: a climb standing on a node made from the pair (l, r) either stood on l or r one
      step earlier, or exhibits a collision. Standing there with no step made, it has taken a leaf for
      an inner node. */
  lemma ThroughPair(h: Bytes -> Word, l: Bytes, r: Bytes, source: Word, proof: seq<Bytes>, k: nat,
                    hashed: set<Bytes>) returns (below: nat)
    requires IsWord(l) && IsWord(r) && AllWords(proof) && k <= |proof|
    requires Climb(h, h(source), proof[..k]) == HashPair(h, l, r)
    requires Pair(l, r) in hashed && source in hashed && ClimbHashed(h, h(source), proof) <= hashed
    ensures below <= |proof|
    ensures Climb(h, h(source), proof[..below]) in [l, r] || CollisionIn(h, hashed)
  {
    below := 0;
    if k == 0 {
      assert proof[..0] == [];
      assert h(source) == h(Pair(l, r)) && |Pair(l, r)| == 64;
    } else {
      below := k - 1;
      ClimbStep(h, h(source), proof, k);
      ClimbIsWord(h, h(source), proof[..below]);
      var node := Climb(h, h(source), proof[..below]);
      if Pair(node, proof[below]) == Pair(l, r) {
        PairMembers(node, proof[below], l, r);
      }
    }
  }

  /** A climb that reaches the root passes, at some height, through the bottom layer. The node it meets
      on each layer above is either a promoted orphan, already on the layer below, or a hashed pair. */
  lemma {:induction false} MeetsLayer(h: Bytes -> Word, layer: seq<Bytes>, source: Word, proof: seq<Bytes>,
                                      hashed: set<Bytes>) returns (k: nat)
    requires layer != [] && AllWords(layer) && AllWords(proof)
    requires Climb(h, h(source), proof) == Root(h, layer)
    requires source in hashed && PairsHashed(h, layer) <= hashed
    requires ClimbHashed(h, h(source), proof) <= hashed
    ensures k <= |proof|
    ensures Climb(h, h(source), proof[..k]) in layer || CollisionIn(h, hashed)
    decreases |layer|
  {
    k := |proof|;
    assert proof[..k] == proof;
    if |layer| > 1 {
      var next := NextLayer(h, layer);
      k := MeetsLayer(h, next, source, proof, hashed);
      var node := Climb(h, h(source), proof[..k]);
      if node in next {
        var i :| 0 <= i < |next| && next[i] == node;
        if 2 * i + 1 < |layer| {
          assert Pair(layer[2 * i], layer[2 * i + 1]) in PairsHashed(h, layer);
          k := ThroughPair(h, layer[2 * i], layer[2 * i + 1], source, proof, k, hashed);
        }
      }
    }
  }

  /** SOUNDNESS. If any proof, of any length, carries the leaf of `fingerprint` to the root of the tree
      over `fingerprints`, then the fingerprint is one of them, or two distinct byte strings among those
      actually hashed have one digest (a leaf taken for an inner node included). */
  lemma ProofsAreSound(h: Bytes -> Word, fingerprints: seq<Word>, fingerprint: Word, proof: seq<Bytes>)
    requires fingerprints != []
    requires VerifyProof(h, h(fingerprint), proof, Root(h, LeavesOf(h, fingerprints)))
    ensures fingerprint in fingerprints || CollisionIn(h, Hashed(h, fingerprints, fingerprint, proof))
  {
    var hashed := Hashed(h, fingerprints, fingerprint, proof);
    var leaves := LeavesOf(h, fingerprints);
    var k := MeetsLayer(h, leaves, fingerprint, proof, hashed);
    var node := Climb(h, h(fingerprint), proof[..k]);
    if node in leaves {
      var i :| 0 <= i < |leaves| && leaves[i] == node;
      assert fingerprints[i] in hashed;
      if k == 0 {
        assert proof[..0] == [];
        assert h(fingerprint) == h(fingerprints[i]);
      } else {
        ClimbStep(h, h(fingerprint), proof, k);
        ClimbIsWord(h, h(fingerprint), proof[..k - 1]);
        assert |Pair(Climb(h, h(fingerprint), proof[..k - 1]), proof[k - 1])| == 64;
      }
    }
  }
}
