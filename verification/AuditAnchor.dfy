/** The contract (contracts/AuditAnchor.sol): a write-once registry of batch roots, and the check of an inclusion that a
    third party can ask of it alone. */
module AuditAnchor {
  import opened Basics
  import opened Anchoring
  import Merkle

  datatype Revert = NotAuthorized | EmptyBatch | ZeroRoot | BatchAlreadyAnchored | UnknownBatch

  const ZERO: Word := seq(32, _ => 0)

  lemma NullIsZero(root: Word)
    ensures IsNull(root) <==> root == ZERO
  {
  }

  /** `_hashPair`: two words compared as numbers. */
  method HashPair(h: Bytes -> Word, a: Word, b: Word) returns (hash: Word)
    ensures hash == Merkle.HashPair(h, a, b)
  {
    Merkle.PairIsSorted(h, a, b);
    if Merkle.Number(a) < Merkle.Number(b) {
      hash := h(a + b);
    } else {
      Merkle.PairCommutes(a, b);
      Merkle.PairIsSorted(h, b, a);
      hash := h(b + a);
    }
  }

  /** `_processProof` */
  method ProcessProof(h: Bytes -> Word, proof: seq<Word>, leaf: Word) returns (computed: Word)
    ensures Merkle.VerifyProof(h, leaf, proof, computed)
  {
    computed := leaf;
    for i := 0 to |proof|
      invariant Merkle.Climb(h, leaf, proof[..i]) == computed
    {
      assert proof[..i + 1] == proof[..i] + [proof[i]];
      Merkle.ClimbLast(h, leaf, proof[..i], proof[i]);
      computed := HashPair(h, computed, proof[i]);
    }
    assert proof[..|proof|] == proof;
    assert Merkle.AllWords(proof);
  }

  class Contract {
    var batches: map<nat, OnChain>
    var submitters: set<nat>

    constructor (owner: nat)
      ensures batches == map[] && submitters == {owner}
    {
      batches, submitters := map[], {owner};
    }

    /** `anchorBatch`: by a submitter only, never empty, never a null root, and once. */
    method AnchorBatch(sender: nat, id: nat, root: Word, leafCount: nat) returns (r: Option<Revert>)
      modifies this`batches
      ensures r == None <==> sender in submitters && leafCount > 0 && root != ZERO && id !in old(batches)
      ensures r == Some(BatchAlreadyAnchored)
              <==> sender in submitters && leafCount > 0 && root != ZERO && id in old(batches)
      ensures batches == if r == None then old(batches)[id := OnChain(root, leafCount)] else old(batches)
      ensures sender in submitters ==> batches == Written(old(batches), id, OnChain(root, leafCount))
    {
      if sender !in submitters {
        return Some(NotAuthorized);
      }
      if leafCount == 0 {
        return Some(EmptyBatch);
      }
      NullIsZero(root);
      if root == ZERO {
        return Some(ZeroRoot);
      }
      if id in batches {
        return Some(BatchAlreadyAnchored);
      }
      batches := batches[id := OnChain(root, leafCount)];
      r := None;
    }

    /** `verifyInclusion`: on an anchored batch, exactly the proofs the gateway itself accepts. */
    method VerifyInclusion(h: Bytes -> Word, id: nat, leaf: Word, proof: seq<Word>) returns (r: Result<bool, Revert>)
      ensures r.Err? <==> id !in batches
      ensures r.Err? ==> r.error == UnknownBatch
      ensures r.Ok? ==> (r.value <==> Merkle.VerifyProof(h, leaf, proof, batches[id].root))
    {
      if id !in batches {
        return Err(UnknownBatch);
      }
      var computed := ProcessProof(h, proof, leaf);
      r := Ok(computed == batches[id].root);
    }
  }
}
