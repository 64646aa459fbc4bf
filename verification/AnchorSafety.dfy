/** What every run of anchoring keeps: published means what it says, ranks are a bijection, and nothing published
    or assigned is ever rewritten. */
module AnchorSafety {
  import opened Basics
  import opened Anchoring
  import Merkle

  /** The stored proof of a member carries its leaf to the root of its batch. */
  lemma MemberProof(h: Bytes -> Word, w: World, i: nat)
    requires Settled(h, w) && i < |w.items| && w.items[i].batch.Some?
    ensures w.items[i].batch.value < |w.batches| && w.items[i].proof.Some?
    ensures Merkle.VerifyProof(h, h(w.items[i].fingerprint), w.items[i].proof.value,
                               w.batches[w.items[i].batch.value].root)
  {
    assert ItemOk(w.roster, w.items[i], i);
    var b, j := w.items[i].batch.value, w.items[i].leafIndex.value;
    var r := w.roster[b];
    assert BatchOk(h, w.items, b, w.batches[b], r);
    assert ProofAt(w.items, Merkle.Layers(h, LeavesOf(h, w.items, r)), r, j);
    Merkle.ProofsVerify(h, LeavesOf(h, w.items, r), j);
  }

  /** ANCHORED MEANS ON CHAIN. In every run, whatever crashes, late writes, overlapping workers and foreign
      submitters it holds: an anchored batch is on the chain with the same root and the same count, no batch
      is attempted more often than allowed, every member's stored proof verifies against the root of its
      batch, and, for an anchored member, against the root on the chain. */
  lemma AnchoredIsOnChain(h: Bytes -> Word, max: nat, steps: seq<Step>, rule: Rule)
    requires Exec(h, max, START, steps, rule).Some?
    ensures var w := Exec(h, max, START, steps, rule).value;
            (forall b :: 0 <= b < |w.batches| ==>
               w.batches[b].attempts <= max && (w.batches[b].status == BatchAnchored ==> Published(w, b)))
            && (forall i :: 0 <= i < |w.items| ==> Proven(h, w, w.items[i]))
  {
    StartHolds(h, max);
    RunKeeps(h, max, START, steps, rule);
    var w := Exec(h, max, START, steps, rule).value;
    forall b | 0 <= b < |w.batches|
      ensures w.batches[b].attempts <= max && (w.batches[b].status == BatchAnchored ==> Published(w, b))
    {
      assert BatchLive(max, w, b);
    }
    forall i | 0 <= i < |w.items| ensures Proven(h, w, w.items[i]) {
      assert ItemLive(w, i);
      if w.items[i].batch.Some? {
        MemberProof(h, w, i);
      }
    }
  }

  predicate Proven(h: Bytes -> Word, w: World, item: Item) {
    (item.batch.Some? ==>
       item.batch.value < |w.batches| && item.proof.Some?
       && Merkle.VerifyProof(h, h(item.fingerprint), item.proof.value, w.batches[item.batch.value].root))
    && (item.status == Anchored ==>
          item.batch.Some? && item.batch.value in w.chain && item.proof.Some?
          && Merkle.VerifyProof(h, h(item.fingerprint), item.proof.value, w.chain[item.batch.value].root))
  }

  predicate Holds(w: World, b: nat, j: nat, i: nat) {
    i < |w.items| && w.items[i].batch == Some(b) && w.items[i].leafIndex == Some(j)
  }

  ghost predicate Held(w: World, b: nat, j: nat) { exists i: nat :: Holds(w, b, j, i) }

  /** RANKS ARE A BIJECTION IN EVERY RUN. Each rank below the leaf count of a batch is held by exactly one
      closure, each member holds one of them, and each closure is in one batch at most. */
  lemma RanksAreBijective(h: Bytes -> Word, max: nat, steps: seq<Step>, rule: Rule, b: nat)
    requires Exec(h, max, START, steps, rule).Some? && b < |Exec(h, max, START, steps, rule).value.batches|
    ensures var w := Exec(h, max, START, steps, rule).value;
            (forall j :: 0 <= j < w.batches[b].leafCount ==> Held(w, b, j))
            && (forall j: nat, i: nat, i': nat :: Holds(w, b, j, i) && Holds(w, b, j, i') ==> i == i')
            && (forall i :: 0 <= i < |w.items| && w.items[i].batch == Some(b) ==>
                  w.items[i].leafIndex.Some? && w.items[i].leafIndex.value < w.batches[b].leafCount)
  {
    StartHolds(h, max);
    RunKeeps(h, max, START, steps, rule);
    var w := Exec(h, max, START, steps, rule).value;
    assert BatchOk(h, w.items, b, w.batches[b], w.roster[b]);
    forall j | 0 <= j < w.batches[b].leafCount ensures Held(w, b, j) {
      assert SeatedAt(w.items, b, w.roster[b], j);
      assert Holds(w, b, j, w.roster[b][j]);
    }
    forall j: nat, i: nat, i': nat | Holds(w, b, j, i) && Holds(w, b, j, i') ensures i == i' {
      assert ItemOk(w.roster, w.items[i], i) && ItemOk(w.roster, w.items[i'], i');
    }
    forall i | 0 <= i < |w.items| && w.items[i].batch == Some(b)
      ensures w.items[i].leafIndex.Some? && w.items[i].leafIndex.value < w.batches[b].leafCount
    {
      assert ItemOk(w.roster, w.items[i], i);
    }
  }

  /** NO INTEGRITY FAILURE COMES FROM THE SERVICE ITSELF. In every run a worker about to check its batch finds
      it coherent. */
  lemma AlwaysCoherent(h: Bytes -> Word, max: nat, steps: seq<Step>, rule: Rule, k: nat)
    requires Exec(h, max, START, steps, rule).Some? && k in Exec(h, max, START, steps, rule).value.workers
    ensures var w := Exec(h, max, START, steps, rule).value;
            Readable(w, w.workers[k]) && Coherent(h, w, w.workers[k])
  {
    StartHolds(h, max);
    RunKeeps(h, max, START, steps, rule);
    var w := Exec(h, max, START, steps, rule).value;
    assert WorkerLive(max, w, w.workers[k]);
    ReadIsCoherent(h, max, w, w.workers[k]);
  }

  // ---------------------------------------------------------------------------------------------
  // What never changes
  // ---------------------------------------------------------------------------------------------

  predicate ItemPersists(x: Item, y: Item) {
    y.fingerprint == x.fingerprint
    && (x.batch.Some? ==> y.batch == x.batch && y.leafIndex == x.leafIndex && y.proof == x.proof)
  }

  ghost predicate Persists(w: World, v: World) {
    ChainGrows(w.chain, v.chain) && |w.items| <= |v.items| && |w.batches| <= |v.batches|
    && (forall i :: 0 <= i < |w.items| ==> ItemPersists(w.items[i], v.items[i]))
    && (forall b :: 0 <= b < |w.batches| ==> SameBatch(w.batches[b], v.batches[b]))
  }

  lemma SettledPersists(w: World, v: World)
    requires SameSettled(w, v) && ChainGrows(w.chain, v.chain)
    ensures Persists(w, v)
  {
  }

  lemma CreatePersists(h: Bytes -> Word, w: World, k: nat, picked: seq<nat>)
    requires Pickable(w, picked)
    ensures Persists(w, Create(h, w, k, picked))
  {
    var v := Create(h, w, k, picked);
    forall i | 0 <= i < |w.items| ensures ItemPersists(w.items[i], v.items[i]) {
      CreateItems(h, w, k, picked, i);
    }
  }

  lemma SavedPersists(max: nat, w: World, v: World, a: Worker, batch: Batch)
    requires WorkerLive(max, w, a) && SameBatch(a.batch, batch) && v.batches == w.batches[a.b := batch]
    requires v.roster == w.roster && v.chain == w.chain && |v.items| == |w.items| && SameItems(w.items, v.items)
    ensures Persists(w, v)
  {
  }

  lemma CheckPersists(h: Bytes -> Word, max: nat, w: World, k: nat)
    requires k in w.workers && WorkerLive(max, w, w.workers[k])
    ensures Persists(w, Check(h, max, w, k, w.workers[k]))
  {
    SavedPersists(max, w, Save(w, k, Counted(w.workers[k])), w.workers[k], Counted(w.workers[k]).batch);
  }

  lemma FinishPersists(max: nat, w: World, k: nat)
    requires k in w.workers && WorkerLive(max, w, w.workers[k])
    ensures Persists(w, Finalize(w, k, w.workers[k]))
    ensures w.workers[k].stage.Failing? ==> Persists(w, Fail(max, w, k, w.workers[k]))
  {
    var a := w.workers[k];
    SavedPersists(max, w, Finalize(w, k, a), a, a.batch.(status := BatchAnchored));
    if a.stage.Failing? {
      var v := Fail(max, w, k, a);
      SavedPersists(max, w, v, a, v.batches[a.b]);
    }
  }

  lemma QuietPersists(w: World, v: World)
    requires v.items == w.items && v.batches == w.batches && ChainGrows(w.chain, v.chain)
    ensures Persists(w, v)
  {
  }

  lemma StepPersists(h: Bytes -> Word, max: nat, w: World, s: Step)
    requires Inv(h, max, w) && Enabled(w, s)
    ensures Persists(w, Next(h, max, w, s))
  {
    match s
    case Close(_) => SettledPersists(w, Next(h, max, w, s));
    case StepCreate(k, picked) => CreatePersists(h, w, k, picked);
    case StepResume(k, b, read) =>
      ReadIsComplete(h, w, b, read);
      QuietPersists(w, Next(h, max, w, s));
    case StepCheck(k) => CheckPersists(h, max, w, k);
    case StepFinalize(k) => FinishPersists(max, w, k);
    case StepFail(k) => FinishPersists(max, w, k);
    case _ => QuietPersists(w, Next(h, max, w, s));
  }

  lemma PersistsTransitive(u: World, v: World, w: World)
    requires Persists(u, v) && Persists(v, w)
    ensures Persists(u, w)
  {
    forall i | 0 <= i < |u.items| ensures ItemPersists(u.items[i], w.items[i]) {
      assert ItemPersists(u.items[i], v.items[i]) && ItemPersists(v.items[i], w.items[i]);
    }
    forall b | 0 <= b < |u.batches| ensures SameBatch(u.batches[b], w.batches[b]) {
      assert SameBatch(u.batches[b], v.batches[b]) && SameBatch(v.batches[b], w.batches[b]);
    }
  }

  lemma {:induction false} RunPersists(h: Bytes -> Word, max: nat, w: World, steps: seq<Step>, rule: Rule)
    requires Inv(h, max, w) && Exec(h, max, w, steps, rule).Some?
    ensures Persists(w, Exec(h, max, w, steps, rule).value)
    decreases |steps|
  {
    if steps != [] {
      var v := Next(h, max, w, steps[0]);
      StepKeeps(h, max, w, steps[0]);
      StepPersists(h, max, w, steps[0]);
      RunPersists(h, max, v, steps[1..], rule);
      PersistsTransitive(w, v, Exec(h, max, v, steps[1..], rule).value);
    }
  }

  /** NOTHING PUBLISHED OR ASSIGNED IS REWRITTEN. Along every run a batch on the chain keeps its root and count,
      a batch row keeps its own, and a closure keeps its batch, its rank and its proof. */
  lemma NothingIsRewritten(h: Bytes -> Word, max: nat, first: seq<Step>, more: seq<Step>, rule: Rule)
    requires Exec(h, max, START, first, rule).Some?
    requires Exec(h, max, Exec(h, max, START, first, rule).value, more, rule).Some?
    ensures var w := Exec(h, max, START, first, rule).value; Persists(w, Exec(h, max, w, more, rule).value)
  {
    StartHolds(h, max);
    RunKeeps(h, max, START, first, rule);
    RunPersists(h, max, Exec(h, max, START, first, rule).value, more, rule);
  }
}
