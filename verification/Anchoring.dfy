/** The life of anchoring batches (src/blockchain/anchor.service.ts) against an immutable contract
    (AuditAnchor): any number of workers, each with its own copy of a batch, crashes between any two steps,
    submitted writes that are mined late or never, and other submitters of the same contract. */
module Anchoring {
  import opened Basics
  import opened BatchLeaves
  import Merkle

  // ---------------------------------------------------------------------------------------------
  // Tables, chain, memory
  // ---------------------------------------------------------------------------------------------

  datatype ItemStatus = Waiting | Anchored | Abandoned

  /** A closure: what anchoring reads and writes of it. */
  datatype Item = Item(
    fingerprint: Word, status: ItemStatus, batch: Option<nat>, leafIndex: Option<nat>, proof: Option<seq<Bytes>>)

  datatype BatchStatus = BatchPending | BatchAnchoring | BatchAnchored | BatchFailed

  datatype Batch = Batch(status: BatchStatus, root: Bytes, leafCount: nat, attempts: nat)

  datatype OnChain = OnChain(root: Bytes, leafCount: nat)

  datatype Stage =
    | Claimed                 // read or created, nothing checked
    | LastLook                // budget spent: one reading of the chain is left
    | Reserved                // attempt counted and saved
    | Absent                  // the chain does not know the batch
    | Sent                    // write submitted
    | Confirmed               // to be finalised
    | Failing(force: bool)    // failure to be recorded

  /** A worker: its copy of the batch and the members it read. */
  datatype Worker = Worker(b: nat, batch: Batch, members: seq<nat>, stage: Stage)

  /** `roster[b]` is the order in which batch b was constituted; no step reads it. */
  datatype World = World(
    items: seq<Item>, batches: seq<Batch>, roster: seq<seq<nat>>, chain: map<nat, OnChain>,
    pool: set<(nat, OnChain)>, workers: map<nat, Worker>)

  const START := World([], [], [], map[], {}, map[])

  // ---------------------------------------------------------------------------------------------
  // Steps
  // ---------------------------------------------------------------------------------------------

  predicate Within(items: seq<Item>, members: seq<nat>) { forall j :: 0 <= j < |members| ==> members[j] < |items| }

  function FingerprintsOf(items: seq<Item>, members: seq<nat>): seq<Word>
    requires Within(items, members)
  {
    seq(|members|, j requires 0 <= j < |members| => items[members[j]].fingerprint)
  }

  function LeavesOf(h: Bytes -> Word, items: seq<Item>, members: seq<nat>): (leaves: seq<Bytes>)
    requires Within(items, members)
    ensures |leaves| == |members| && Merkle.AllWords(leaves)
    ensures forall j :: 0 <= j < |members| ==> leaves[j] == h(items[members[j]].fingerprint)
  {
    Merkle.LeavesOf(h, FingerprintsOf(items, members))
  }

  predicate Pickable(w: World, picked: seq<nat>) {
    picked != []
    && (forall j :: 0 <= j < |picked| ==>
          picked[j] < |w.items| && w.items[picked[j]].status == Waiting && w.items[picked[j]].batch.None?)
    && (forall j, k :: 0 <= j < k < |picked| ==> picked[j] != picked[k])
  }

  /** Where an item stands among the picked ones. */
  function Position(picked: seq<nat>, i: nat): (p: Option<nat>)
    ensures p.Some? ==> p.value < |picked| && picked[p.value] == i
    ensures p.None? ==> i !in picked
  {
    if picked == [] then None
    else if picked[|picked| - 1] == i then Some(|picked| - 1)
    else Position(picked[..|picked| - 1], i)
  }

  /** The item once its batch is constituted. */
  function Enrolled(item: Item, b: nat, layers: seq<seq<Bytes>>, p: Option<nat>): Item {
    if p.None? then item
    else item.(batch := Some(b), leafIndex := p, proof := Some(Merkle.Siblings(layers, p.value)))
  }

  /** The constitution of a batch, one transaction: tree, batch row, rank and proof of each member. */
  function Create(h: Bytes -> Word, w: World, k: nat, picked: seq<nat>): World
    requires Pickable(w, picked)
  {
    var leaves := LeavesOf(h, w.items, picked);
    var b := |w.batches|;
    var batch := Batch(BatchPending, Merkle.Root(h, leaves), |picked|, 0);
    var layers := Merkle.Layers(h, leaves);
    w.(items := seq(|w.items|, i requires 0 <= i < |w.items| => Enrolled(w.items[i], b, layers, Position(picked, i))),
       batches := w.batches + [batch], roster := w.roster + [picked],
       workers := w.workers[k := Worker(b, batch, picked, Claimed)])
  }

  predicate Lists(w: World, b: nat, read: seq<nat>) {
    (forall j :: 0 <= j < |read| ==> read[j] < |w.items| && w.items[read[j]].batch == Some(b))
    && (forall i :: 0 <= i < |w.items| && w.items[i].batch == Some(b) ==> i in read)
    && (forall j, k :: 0 <= j < k < |read| ==> read[j] != read[k])
  }

  function Mark(items: seq<Item>, members: seq<nat>, status: ItemStatus): seq<Item> {
    seq(|items|, i requires 0 <= i < |items| => if i in members then items[i].(status := status) else items[i])
  }

  /** `findResumableBatch` on one candidate, its members read in any order: a complete batch is taken, an
      incomplete one is abandoned. */
  function Resume(w: World, k: nat, b: nat, read: seq<nat>): World
    requires b < |w.batches|
  {
    var batch := w.batches[b];
    if |read| == batch.leafCount && |read| > 0 then w.(workers := w.workers[k := Worker(b, batch, read, Claimed)])
    else w.(batches := w.batches[b := batch.(status := BatchFailed)], items := Mark(w.items, read, Abandoned))
  }

  function MembersOf(items: seq<Item>, members: seq<nat>): seq<Member>
    requires Within(items, members)
  {
    seq(|members|, j requires 0 <= j < |members| =>
      var item := items[members[j]];
      Member(match item.leafIndex case Some(x) => Some(x) case None => None, Some(item.fingerprint)))
  }

  predicate Readable(w: World, a: Worker) {
    a.b < |w.batches| && Within(w.items, a.members)
  }

  /** The checks that open `anchorBatchItems`. */
  predicate Coherent(h: Bytes -> Word, w: World, a: Worker)
    requires Readable(w, a)
  {
    var leaves := Ordered(h, MembersOf(w.items, a.members), a.batch.leafCount);
    leaves.Some? && leaves.value != [] && Merkle.Root(h, leaves.value) == a.batch.root
  }

  function Put(w: World, k: nat, a: Worker): World { w.(workers := w.workers[k := a]) }

  function Save(w: World, k: nat, a: Worker): World
    requires a.b < |w.batches|
  {
    w.(batches := w.batches[a.b := a.batch], workers := w.workers[k := a])
  }

  function Counted(a: Worker): Worker {
    a.(batch := a.batch.(status := BatchAnchoring, attempts := a.batch.attempts + 1), stage := Reserved)
  }

  /** Checks, then either the last look or one more attempt, counted before anything is sent. */
  function Check(h: Bytes -> Word, max: nat, w: World, k: nat, a: Worker): World
    requires Readable(w, a)
  {
    if !Coherent(h, w, a) then Put(w, k, a.(stage := Failing(true)))
    else if a.batch.attempts >= max then Put(w, k, a.(stage := LastLook))
    else Save(w, k, Counted(a))
  }

  /** `finalizeRecoveredBatch`, up to the writing. */
  function Recover(w: World, a: Worker): Worker
    requires a.b in w.chain
  {
    if w.chain[a.b] == OnChain(a.batch.root, a.batch.leafCount) then a.(stage := Confirmed)
    else a.(stage := Failing(true))
  }

  /** `getBatch`, which may not answer. */
  function Look(w: World, a: Worker, answers: bool): Worker
    requires a.stage == LastLook || a.stage == Reserved
  {
    if answers && a.b in w.chain then Recover(w, a)
    else if a.stage == LastLook then a.(stage := Failing(true))
    else if answers then a.(stage := Absent)
    else a.(stage := Failing(false))
  }

  /** `anchorBatch`: refused by the dry run when the contract would; otherwise broadcast, or lost before or
      after it was. */
  datatype Send = Broadcast | LostBefore | LostAfter

  function Submit(w: World, k: nat, a: Worker, send: Send): World {
    var failed, x := a.(stage := Failing(false)), OnChain(a.batch.root, |a.members|);
    if !Writable(w.chain, a.b, x) || send == LostBefore then Put(w, k, failed)
    else
      var v := w.(pool := w.pool + {(a.b, x)});
      Put(v, k, if send == Broadcast then a.(stage := Sent) else failed)
  }

  predicate IsNull(root: Bytes) { forall i :: 0 <= i < |root| ==> root[i] == 0 }

  /** The contract: a batch is written once, never empty and never with a null root. */
  predicate Writable(chain: map<nat, OnChain>, id: nat, x: OnChain) {
    id !in chain && x.leafCount > 0 && !IsNull(x.root)
  }

  function Written(chain: map<nat, OnChain>, id: nat, x: OnChain): map<nat, OnChain> {
    if Writable(chain, id, x) then chain[id := x] else chain
  }

  /** `finalizeBatch` */
  function Finalize(w: World, k: nat, a: Worker): World
    requires a.b < |w.batches|
  {
    w.(batches := w.batches[a.b := a.batch.(status := BatchAnchored)], items := Mark(w.items, a.members, Anchored),
       workers := w.workers - {k})
  }

  /** `recordBatchFailure` */
  function Fail(max: nat, w: World, k: nat, a: Worker): World
    requires a.b < |w.batches| && a.stage.Failing?
  {
    if a.stage.force || a.batch.attempts >= max then
      w.(batches := w.batches[a.b := a.batch.(status := BatchFailed)], items := Mark(w.items, a.members, Abandoned),
         workers := w.workers - {k})
    else w.(batches := w.batches[a.b := a.batch.(status := BatchPending)], workers := w.workers - {k})
  }

  datatype Step =
    | Close(fingerprint: Word)
    | StepCreate(k: nat, picked: seq<nat>) | StepResume(k: nat, b: nat, read: seq<nat>)
    | StepCheck(k: nat) | StepLook(k: nat, answers: bool) | StepSubmit(k: nat, send: Send)
    | StepReceipt(k: nat, received: bool) | StepFinalize(k: nat) | StepFail(k: nat)
    | Crash(k: nat)
    | Mine(id: nat, x: OnChain) | Drop(id: nat, x: OnChain) | Foreign(id: nat, x: OnChain)

  predicate At(w: World, k: nat, stage: Stage) { k in w.workers && w.workers[k].stage == stage }

  predicate Enabled(w: World, s: Step) {
    match s
    case Close(_) => true
    case StepCreate(k, picked) => k !in w.workers && Pickable(w, picked)
    case StepResume(k, b, read) =>
      k !in w.workers && b < |w.batches| && w.batches[b].status in {BatchPending, BatchAnchoring} && Lists(w, b, read)
    case StepCheck(k) => At(w, k, Claimed) && Readable(w, w.workers[k])
    case StepLook(k, _) => At(w, k, LastLook) || At(w, k, Reserved)
    case StepSubmit(k, _) => At(w, k, Absent)
    case StepReceipt(k, received) =>
      At(w, k, Sent)
      && (received ==> var a := w.workers[k];
                       a.b in w.chain && w.chain[a.b] == OnChain(a.batch.root, |a.members|))
    case StepFinalize(k) => At(w, k, Confirmed) && w.workers[k].b < |w.batches|
    case StepFail(k) => k in w.workers && w.workers[k].stage.Failing? && w.workers[k].b < |w.batches|
    case Crash(_) => true
    case Mine(id, x) => (id, x) in w.pool
    case Drop(_, _) => true
    case Foreign(_, _) => true
  }

  function Next(h: Bytes -> Word, max: nat, w: World, s: Step): World
    requires Enabled(w, s)
  {
    match s
    case Close(f) => w.(items := w.items + [Item(f, Waiting, None, None, None)])
    case StepCreate(k, picked) => Create(h, w, k, picked)
    case StepResume(k, b, read) => Resume(w, k, b, read)
    case StepCheck(k) => Check(h, max, w, k, w.workers[k])
    case StepLook(k, answers) => Put(w, k, Look(w, w.workers[k], answers))
    case StepSubmit(k, send) => Submit(w, k, w.workers[k], send)
    case StepReceipt(k, received) => Put(w, k, w.workers[k].(stage := if received then Confirmed else Failing(false)))
    case StepFinalize(k) => Finalize(w, k, w.workers[k])
    case StepFail(k) => Fail(max, w, k, w.workers[k])
    case Crash(k) => w.(workers := w.workers - {k})
    case Mine(id, x) => w.(chain := Written(w.chain, id, x), pool := w.pool - {(id, x)})
    case Drop(id, x) => w.(pool := w.pool - {(id, x)})
    case Foreign(id, x) => w.(chain := Written(w.chain, id, x))
  }

  type Rule = (World, Step) -> bool

  function Exec(h: Bytes -> Word, max: nat, w: World, steps: seq<Step>, rule: Rule): Option<World>
    decreases |steps|
  {
    if steps == [] then Some(w)
    else if Enabled(w, steps[0]) && rule(w, steps[0]) then Exec(h, max, Next(h, max, w, steps[0]), steps[1..], rule)
    else None
  }

  // ---------------------------------------------------------------------------------------------
  // What is settled when a batch is constituted
  // ---------------------------------------------------------------------------------------------

  /** The item of rank j in batch b. */
  predicate SeatedAt(items: seq<Item>, b: nat, r: seq<nat>, j: nat)
    requires j < |r|
  {
    r[j] < |items| && items[r[j]].batch == Some(b) && items[r[j]].leafIndex == Some(j)
  }

  predicate ProofAt(items: seq<Item>, layers: seq<seq<Bytes>>, r: seq<nat>, j: nat)
    requires j < |r| && Within(items, r)
  {
    items[r[j]].proof == Some(Merkle.Siblings(layers, j))
  }

  /** The batch as it was constituted: ranks, root, count and proofs. */
  ghost predicate BatchOk(h: Bytes -> Word, items: seq<Item>, b: nat, batch: Batch, r: seq<nat>) {
    r != [] && Within(items, r) && (forall j :: 0 <= j < |r| ==> SeatedAt(items, b, r, j))
    && batch.leafCount == |r| && batch.root == Merkle.Root(h, LeavesOf(h, items, r))
    && forall j :: 0 <= j < |r| ==> ProofAt(items, Merkle.Layers(h, LeavesOf(h, items, r)), r, j)
  }

  /** A rank belongs to one item. */
  predicate ItemOk(roster: seq<seq<nat>>, item: Item, i: nat) {
    item.batch.Some? ==>
      item.batch.value < |roster| && item.leafIndex.Some? && item.leafIndex.value < |roster[item.batch.value]|
      && roster[item.batch.value][item.leafIndex.value] == i
  }

  ghost predicate Settled(h: Bytes -> Word, w: World) {
    |w.roster| == |w.batches|
    && (forall b :: 0 <= b < |w.batches| ==> BatchOk(h, w.items, b, w.batches[b], w.roster[b]))
    && (forall i :: 0 <= i < |w.items| ==> ItemOk(w.roster, w.items[i], i))
  }

  /** The same items but for their statuses, or more of them. */
  ghost predicate SameItems(a: seq<Item>, b: seq<Item>) {
    |a| <= |b| && forall i :: 0 <= i < |a| ==> b[i] == a[i].(status := b[i].status)
  }

  predicate SameBatch(a: Batch, b: Batch) { b.root == a.root && b.leafCount == a.leafCount }

  lemma BatchStays(h: Bytes -> Word, a: seq<Item>, b: seq<Item>, id: nat, x: Batch, y: Batch, r: seq<nat>)
    requires BatchOk(h, a, id, x, r) && SameItems(a, b) && SameBatch(x, y)
    ensures BatchOk(h, b, id, y, r)
  {
    forall j | 0 <= j < |r| ensures SeatedAt(b, id, r, j) {
      assert SeatedAt(a, id, r, j);
    }
    assert FingerprintsOf(b, r) == FingerprintsOf(a, r);
    forall j | 0 <= j < |r| ensures ProofAt(b, Merkle.Layers(h, LeavesOf(h, b, r)), r, j) {
      assert ProofAt(a, Merkle.Layers(h, LeavesOf(h, a, r)), r, j);
    }
  }

  /** Statuses, attempts and new closures change nothing that is settled. */
  ghost predicate SameSettled(w: World, v: World) {
    SameItems(w.items, v.items) && v.roster == w.roster && |v.batches| == |w.batches|
    && (forall b :: 0 <= b < |w.batches| ==> SameBatch(w.batches[b], v.batches[b]))
    && (forall i :: |w.items| <= i < |v.items| ==> v.items[i].batch.None?)
  }

  lemma SettledStays(h: Bytes -> Word, w: World, v: World)
    requires Settled(h, w) && SameSettled(w, v)
    ensures Settled(h, v)
  {
    forall b | 0 <= b < |v.batches| ensures BatchOk(h, v.items, b, v.batches[b], v.roster[b]) {
      BatchStays(h, w.items, v.items, b, w.batches[b], v.batches[b], w.roster[b]);
    }
    forall i | 0 <= i < |v.items| ensures ItemOk(v.roster, v.items[i], i) {
      if i < |w.items| {
        assert ItemOk(w.roster, w.items[i], i);
      }
    }
  }

  // ---------------------------------------------------------------------------------------------
  // The invariant
  // ---------------------------------------------------------------------------------------------

  /** The chain holds batch b, with the root and the count of its row. */
  predicate Published(w: World, b: nat)
    requires b < |w.batches|
  {
    b in w.chain && w.chain[b] == OnChain(w.batches[b].root, w.batches[b].leafCount)
  }

  predicate BatchLive(max: nat, w: World, b: nat)
    requires b < |w.batches|
  {
    w.batches[b].attempts <= max && (w.batches[b].status == BatchAnchored ==> Published(w, b))
  }

  predicate ItemLive(w: World, i: nat)
    requires i < |w.items|
  {
    w.items[i].status == Anchored ==>
      w.items[i].batch.Some? && w.items[i].batch.value < |w.batches| && Published(w, w.items[i].batch.value)
  }

  predicate WorkerLive(max: nat, w: World, a: Worker) {
    a.b < |w.batches| && SameBatch(w.batches[a.b], a.batch) && a.batch.attempts <= max
    && Lists(w, a.b, a.members) && |a.members| == a.batch.leafCount && Within(w.items, a.members)
    && (a.stage == Confirmed ==> Published(w, a.b))
  }

  ghost predicate Inv(h: Bytes -> Word, max: nat, w: World) {
    Settled(h, w)
    && (forall b :: 0 <= b < |w.batches| ==> BatchLive(max, w, b))
    && (forall i :: 0 <= i < |w.items| ==> ItemLive(w, i))
    && (forall k :: k in w.workers ==> WorkerLive(max, w, w.workers[k]))
  }

  /** What is on the chain stays there, unchanged. */
  ghost predicate ChainGrows(a: map<nat, OnChain>, b: map<nat, OnChain>) {
    forall id :: id in a ==> id in b && b[id] == a[id]
  }

  lemma WorkerStays(max: nat, w: World, v: World, a: Worker)
    requires WorkerLive(max, w, a) && SameSettled(w, v) && ChainGrows(w.chain, v.chain)
    ensures WorkerLive(max, v, a)
  {
    forall i | 0 <= i < |v.items| && v.items[i].batch == Some(a.b) ensures i in a.members {
      assert i < |w.items| && w.items[i].batch == Some(a.b);
    }
  }

  /** Everything but what a step writes is as the invariant wants it. */
  lemma Assemble(h: Bytes -> Word, max: nat, w: World, v: World)
    requires Inv(h, max, w) && SameSettled(w, v) && ChainGrows(w.chain, v.chain)
    requires forall b :: 0 <= b < |v.batches| ==> v.batches[b] == w.batches[b] || BatchLive(max, v, b)
    requires forall i :: 0 <= i < |v.items| ==>
               (i < |w.items| && v.items[i].status == w.items[i].status) || ItemLive(v, i)
    requires forall k :: k in v.workers ==>
               (k in w.workers && v.workers[k] == w.workers[k]) || WorkerLive(max, v, v.workers[k])
    ensures Inv(h, max, v)
  {
    SettledStays(h, w, v);
    forall b | 0 <= b < |v.batches| ensures BatchLive(max, v, b) {
      assert BatchLive(max, w, b);
    }
    forall i | 0 <= i < |v.items| ensures ItemLive(v, i) {
      if i < |w.items| && v.items[i].status == w.items[i].status {
        assert ItemLive(w, i);
      }
    }
    forall k | k in v.workers ensures WorkerLive(max, v, v.workers[k]) {
      if k in w.workers && v.workers[k] == w.workers[k] {
        WorkerStays(max, w, v, w.workers[k]);
      }
    }
  }

  lemma StartHolds(h: Bytes -> Word, max: nat)
    ensures Inv(h, max, START)
  {
  }

  // ---------------------------------------------------------------------------------------------
  // Constituting a batch
  // ---------------------------------------------------------------------------------------------

  /** Items outside the picked ones are untouched; the picked ones were in no batch. */
  lemma CreateItems(h: Bytes -> Word, w: World, k: nat, picked: seq<nat>, i: nat)
    requires Pickable(w, picked) && i < |w.items|
    ensures var v := Create(h, w, k, picked);
            if i in picked
            then v.items[i].batch == Some(|w.batches|) && w.items[i].batch.None? && v.items[i].status == Waiting
                 && v.items[i].leafIndex.Some? && v.items[i].leafIndex.value < |picked|
                 && picked[v.items[i].leafIndex.value] == i
                 && v.items[i].fingerprint == w.items[i].fingerprint
                 && v.items[i].proof == Some(Merkle.Siblings(Merkle.Layers(h, LeavesOf(h, w.items, picked)),
                                                             v.items[i].leafIndex.value))
            else v.items[i] == w.items[i]
  {
    if i in picked {
      var p := Position(picked, i);
      assert picked[p.value] == i;
    }
  }

  lemma CreateNew(h: Bytes -> Word, w: World, k: nat, picked: seq<nat>)
    requires Pickable(w, picked)
    ensures var v := Create(h, w, k, picked);
            BatchOk(h, v.items, |w.batches|, v.batches[|w.batches|], picked)
  {
    var v := Create(h, w, k, picked);
    var b := |w.batches|;
    forall j | 0 <= j < |picked|
      ensures SeatedAt(v.items, b, picked, j) && v.items[picked[j]].fingerprint == w.items[picked[j]].fingerprint
              && v.items[picked[j]].proof == Some(Merkle.Siblings(Merkle.Layers(h, LeavesOf(h, w.items, picked)), j))
    {
      CreateItems(h, w, k, picked, picked[j]);
    }
    assert FingerprintsOf(v.items, picked) == FingerprintsOf(w.items, picked);
    forall j | 0 <= j < |picked| ensures ProofAt(v.items, Merkle.Layers(h, LeavesOf(h, v.items, picked)), picked, j) {
      assert SeatedAt(v.items, b, picked, j);
    }
  }

  lemma CreateOld(h: Bytes -> Word, w: World, k: nat, picked: seq<nat>, b: nat)
    requires Pickable(w, picked) && b < |w.batches| && b < |w.roster|
    requires BatchOk(h, w.items, b, w.batches[b], w.roster[b])
    ensures BatchOk(h, Create(h, w, k, picked).items, b, w.batches[b], w.roster[b])
  {
    var v := Create(h, w, k, picked);
    var r := w.roster[b];
    forall j | 0 <= j < |r| ensures v.items[r[j]] == w.items[r[j]] && SeatedAt(v.items, b, r, j) {
      assert SeatedAt(w.items, b, r, j);
      CreateItems(h, w, k, picked, r[j]);
    }
    assert FingerprintsOf(v.items, r) == FingerprintsOf(w.items, r);
    forall j | 0 <= j < |r| ensures ProofAt(v.items, Merkle.Layers(h, LeavesOf(h, v.items, r)), r, j) {
      assert ProofAt(w.items, Merkle.Layers(h, LeavesOf(h, w.items, r)), r, j);
    }
  }

  lemma CreateSettled(h: Bytes -> Word, w: World, k: nat, picked: seq<nat>)
    requires Settled(h, w) && Pickable(w, picked)
    ensures Settled(h, Create(h, w, k, picked))
  {
    var v := Create(h, w, k, picked);
    forall b | 0 <= b < |v.batches| ensures BatchOk(h, v.items, b, v.batches[b], v.roster[b]) {
      if b < |w.batches| {
        CreateOld(h, w, k, picked, b);
      } else {
        CreateNew(h, w, k, picked);
      }
    }
    forall i | 0 <= i < |v.items| ensures ItemOk(v.roster, v.items[i], i) {
      CreateItems(h, w, k, picked, i);
      assert ItemOk(w.roster, w.items[i], i);
    }
  }

  lemma CreateWorker(h: Bytes -> Word, max: nat, w: World, k: nat, picked: seq<nat>, a: Worker)
    requires Settled(h, w) && Pickable(w, picked) && WorkerLive(max, w, a)
    ensures WorkerLive(max, Create(h, w, k, picked), a)
  {
    var v := Create(h, w, k, picked);
    forall i | 0 <= i < |v.items|
      ensures v.items[i].batch == Some(a.b) <==> w.items[i].batch == Some(a.b)
    {
      CreateItems(h, w, k, picked, i);
    }
  }

  lemma CreateKeeps(h: Bytes -> Word, max: nat, w: World, k: nat, picked: seq<nat>)
    requires Inv(h, max, w) && Pickable(w, picked)
    ensures Inv(h, max, Create(h, w, k, picked))
  {
    var v := Create(h, w, k, picked);
    CreateSettled(h, w, k, picked);
    forall b | 0 <= b < |v.batches| ensures BatchLive(max, v, b) {
      if b < |w.batches| {
        assert BatchLive(max, w, b);
      }
    }
    forall i | 0 <= i < |v.items| ensures ItemLive(v, i) {
      CreateItems(h, w, k, picked, i);
      assert ItemLive(w, i);
    }
    forall l | l in v.workers ensures WorkerLive(max, v, v.workers[l]) {
      if l == k {
        CreatorLive(h, max, w, k, picked);
      } else {
        CreateWorker(h, max, w, k, picked, w.workers[l]);
      }
    }
  }

  lemma CreatorLive(h: Bytes -> Word, max: nat, w: World, k: nat, picked: seq<nat>)
    requires Settled(h, w) && Pickable(w, picked)
    ensures WorkerLive(max, Create(h, w, k, picked), Create(h, w, k, picked).workers[k])
  {
    var v := Create(h, w, k, picked);
    var b := |w.batches|;
    forall i | 0 <= i < |v.items| ensures v.items[i].batch == Some(b) <==> i in picked {
      CreateItems(h, w, k, picked, i);
      assert ItemOk(w.roster, w.items[i], i);
    }
    forall j | 0 <= j < |picked| ensures picked[j] < |v.items| && v.items[picked[j]].batch == Some(b) {
      CreateItems(h, w, k, picked, picked[j]);
    }
  }

  // ---------------------------------------------------------------------------------------------
  // Reading a batch again
  // ---------------------------------------------------------------------------------------------

  predicate Distinct(s: seq<nat>) { forall j, k :: 0 <= j < k < |s| ==> s[j] != s[k] }

  function AsSet(s: seq<nat>): set<nat> { set x | x in s }

  lemma {:induction false} DistinctSize(s: seq<nat>)
    requires Distinct(s)
    ensures |AsSet(s)| == |s|
  {
    if s != [] {
      var front, last := s[..|s| - 1], s[|s| - 1];
      DistinctSize(front);
      assert AsSet(s) == AsSet(front) + {last};
      assert last !in front;
    }
  }

  lemma RosterDistinct(h: Bytes -> Word, items: seq<Item>, b: nat, batch: Batch, r: seq<nat>)
    requires BatchOk(h, items, b, batch, r)
    ensures Distinct(r)
  {
    forall j, k | 0 <= j < k < |r| ensures r[j] != r[k] {
      assert SeatedAt(items, b, r, j) && SeatedAt(items, b, r, k);
    }
  }

  /** THE MEMBERS ARE ALL THERE. Whatever order a batch is read back in, it has as many members as leaves: the
      branch that abandons an incomplete batch is never taken. */
  lemma ReadIsComplete(h: Bytes -> Word, w: World, b: nat, read: seq<nat>)
    requires Settled(h, w) && b < |w.batches| && Lists(w, b, read)
    ensures |read| == w.batches[b].leafCount && |read| > 0
  {
    var r := w.roster[b];
    assert BatchOk(h, w.items, b, w.batches[b], r);
    RosterDistinct(h, w.items, b, w.batches[b], r);
    DistinctSize(read);
    DistinctSize(r);
    forall x | x in read ensures x in r {
      assert ItemOk(w.roster, w.items[x], x);
    }
    forall x | x in r ensures x in read {
      var j :| 0 <= j < |r| && r[j] == x;
      assert SeatedAt(w.items, b, r, j);
    }
    assert AsSet(read) == AsSet(r);
  }

  /** The leaf left at rank j by the members read, in whatever order. */
  lemma {:induction false} LastOfRoster(h: Bytes -> Word, items: seq<Item>, members: seq<nat>, r: seq<nat>, j: nat)
    requires Within(items, members) && Within(items, r) && j < |r|
    requires forall m :: 0 <= m < |members| ==>
               items[members[m]].leafIndex.Some? && items[members[m]].leafIndex.value < |r|
               && r[items[members[m]].leafIndex.value] == members[m]
    requires r[j] in members && items[r[j]].leafIndex == Some(j)
    ensures LastAt(h, MembersOf(items, members), j) == Some(h(items[r[j]].fingerprint))
    decreases |members|
  {
    var all := MembersOf(items, members);
    var front, last := members[..|members| - 1], members[|members| - 1];
    assert all[..|all| - 1] == MembersOf(items, front);
    if last != r[j] {
      assert r[j] in front;
      LastOfRoster(h, items, front, r, j);
    }
  }

  /** A BATCH STAYS COHERENT. Its leaves, rebuilt from the ranks, give back its root: neither integrity failure
      of `anchorBatchItems` ever happens in a run. */
  lemma ReadIsCoherent(h: Bytes -> Word, max: nat, w: World, a: Worker)
    requires Settled(h, w) && WorkerLive(max, w, a)
    ensures Coherent(h, w, a)
  {
    var b, r := a.b, w.roster[a.b];
    assert BatchOk(h, w.items, b, w.batches[b], r);
    var ms := MembersOf(w.items, a.members);
    forall m | 0 <= m < |a.members|
      ensures w.items[a.members[m]].leafIndex.Some? && w.items[a.members[m]].leafIndex.value < |r|
              && r[w.items[a.members[m]].leafIndex.value] == a.members[m]
    {
      assert ItemOk(w.roster, w.items[a.members[m]], a.members[m]);
    }
    forall j | 0 <= j < |r| ensures LastAt(h, ms, j) == Some(h(w.items[r[j]].fingerprint)) {
      assert SeatedAt(w.items, b, r, j);
      LastOfRoster(h, w.items, a.members, r, j);
    }
    assert AllPlaced(ms, |r|) && Covered(h, ms, |r|);
    assert Ordered(h, ms, |r|).value == LeavesOf(h, w.items, r);
  }

  // ---------------------------------------------------------------------------------------------
  // The other steps
  // ---------------------------------------------------------------------------------------------

  lemma PutKeeps(h: Bytes -> Word, max: nat, w: World, k: nat, a: Worker)
    requires Inv(h, max, w) && WorkerLive(max, w, a)
    ensures Inv(h, max, Put(w, k, a))
  {
    WorkerStays(max, w, Put(w, k, a), a);
    Assemble(h, max, w, Put(w, k, a));
  }

  lemma ResumeKeeps(h: Bytes -> Word, max: nat, w: World, k: nat, b: nat, read: seq<nat>)
    requires Inv(h, max, w) && b < |w.batches| && Lists(w, b, read)
    ensures Inv(h, max, Resume(w, k, b, read))
  {
    ReadIsComplete(h, w, b, read);
    assert BatchLive(max, w, b);
    PutKeeps(h, max, w, k, Worker(b, w.batches[b], read, Claimed));
  }

  lemma SaveKeeps(h: Bytes -> Word, max: nat, w: World, k: nat, a: Worker)
    requires Inv(h, max, w) && WorkerLive(max, w, a) && a.batch.status != BatchAnchored && a.stage != Confirmed
    ensures Inv(h, max, Save(w, k, a))
  {
    var v := Save(w, k, a);
    assert SameSettled(w, v);
    WorkerStays(max, w, v, a);
    Assemble(h, max, w, v);
  }

  lemma CheckKeeps(h: Bytes -> Word, max: nat, w: World, k: nat)
    requires Inv(h, max, w) && At(w, k, Claimed)
    ensures Readable(w, w.workers[k]) && Inv(h, max, Check(h, max, w, k, w.workers[k]))
  {
    var a := w.workers[k];
    assert WorkerLive(max, w, a);
    ReadIsCoherent(h, max, w, a);
    if a.batch.attempts >= max {
      PutKeeps(h, max, w, k, a.(stage := LastLook));
    } else {
      SaveKeeps(h, max, w, k, Counted(a));
    }
  }

  lemma LookKeeps(h: Bytes -> Word, max: nat, w: World, k: nat, answers: bool)
    requires Inv(h, max, w) && (At(w, k, LastLook) || At(w, k, Reserved))
    ensures Inv(h, max, Put(w, k, Look(w, w.workers[k], answers)))
  {
    var a := w.workers[k];
    assert WorkerLive(max, w, a);
    PutKeeps(h, max, w, k, Look(w, a, answers));
  }

  lemma PoolKeeps(h: Bytes -> Word, max: nat, w: World, pool: set<(nat, OnChain)>)
    requires Inv(h, max, w)
    ensures Inv(h, max, w.(pool := pool))
  {
    Assemble(h, max, w, w.(pool := pool));
  }

  lemma SubmitKeeps(h: Bytes -> Word, max: nat, w: World, k: nat, send: Send)
    requires Inv(h, max, w) && At(w, k, Absent)
    ensures Inv(h, max, Submit(w, k, w.workers[k], send))
  {
    var a := w.workers[k];
    assert WorkerLive(max, w, a);
    var v := w.(pool := w.pool + {(a.b, OnChain(a.batch.root, |a.members|))});
    PoolKeeps(h, max, w, v.pool);
    PutKeeps(h, max, w, k, a.(stage := Failing(false)));
    PutKeeps(h, max, v, k, a.(stage := Failing(false)));
    PutKeeps(h, max, v, k, a.(stage := Sent));
  }

  lemma ReceiptKeeps(h: Bytes -> Word, max: nat, w: World, k: nat, received: bool)
    requires Inv(h, max, w) && Enabled(w, StepReceipt(k, received))
    ensures Inv(h, max, Put(w, k, w.workers[k].(stage := if received then Confirmed else Failing(false))))
  {
    var a := w.workers[k];
    assert WorkerLive(max, w, a);
    PutKeeps(h, max, w, k, a.(stage := if received then Confirmed else Failing(false)));
  }

  lemma BatchSavedKeeps(h: Bytes -> Word, max: nat, w: World, k: nat, a: Worker, status: BatchStatus)
    requires Inv(h, max, w) && WorkerLive(max, w, a) && (status == BatchAnchored ==> Published(w, a.b))
    ensures Inv(h, max, w.(batches := w.batches[a.b := a.batch.(status := status)], workers := w.workers - {k}))
  {
    var v := w.(batches := w.batches[a.b := a.batch.(status := status)], workers := w.workers - {k});
    assert SameSettled(w, v);
    Assemble(h, max, w, v);
  }

  lemma ItemsMarkedKeeps(h: Bytes -> Word, max: nat, w: World, b: nat, members: seq<nat>, mark: ItemStatus)
    requires Inv(h, max, w) && b < |w.batches| && (mark == Anchored ==> Published(w, b))
    requires forall i :: 0 <= i < |w.items| && i in members ==> w.items[i].batch == Some(b)
    ensures Inv(h, max, w.(items := Mark(w.items, members, mark)))
  {
    var v := w.(items := Mark(w.items, members, mark));
    assert SameSettled(w, v);
    Assemble(h, max, w, v);
  }

  lemma MarkKeeps(h: Bytes -> Word, max: nat, w: World, k: nat, a: Worker, status: BatchStatus, mark: ItemStatus)
    requires Inv(h, max, w) && WorkerLive(max, w, a)
    requires (status == BatchAnchored || mark == Anchored) ==> a.stage == Confirmed
    ensures Inv(h, max, w.(batches := w.batches[a.b := a.batch.(status := status)],
                           items := Mark(w.items, a.members, mark),
                           workers := w.workers - {k}))
    ensures Inv(h, max, w.(batches := w.batches[a.b := a.batch.(status := status)], workers := w.workers - {k}))
  {
    BatchSavedKeeps(h, max, w, k, a, status);
    ItemsMarkedKeeps(h, max, w.(batches := w.batches[a.b := a.batch.(status := status)], workers := w.workers - {k}),
                     a.b, a.members, mark);
  }

  lemma FailKeeps(h: Bytes -> Word, max: nat, w: World, k: nat)
    requires Inv(h, max, w) && k in w.workers && w.workers[k].stage.Failing?
    ensures w.workers[k].b < |w.batches| && Inv(h, max, Fail(max, w, k, w.workers[k]))
  {
    var a := w.workers[k];
    assert WorkerLive(max, w, a);
    MarkKeeps(h, max, w, k, a, BatchFailed, Abandoned);
    MarkKeeps(h, max, w, k, a, BatchPending, Abandoned);
  }

  lemma FinalizeKeeps(h: Bytes -> Word, max: nat, w: World, k: nat)
    requires Inv(h, max, w) && At(w, k, Confirmed)
    ensures w.workers[k].b < |w.batches| && Inv(h, max, Finalize(w, k, w.workers[k]))
  {
    assert WorkerLive(max, w, w.workers[k]);
    MarkKeeps(h, max, w, k, w.workers[k], BatchAnchored, Anchored);
  }

  lemma WrittenKeeps(h: Bytes -> Word, max: nat, w: World, id: nat, x: OnChain)
    requires Inv(h, max, w)
    ensures Inv(h, max, w.(chain := Written(w.chain, id, x)))
  {
    Assemble(h, max, w, w.(chain := Written(w.chain, id, x)));
  }

  lemma StepKeeps(h: Bytes -> Word, max: nat, w: World, s: Step)
    requires Inv(h, max, w) && Enabled(w, s)
    ensures Inv(h, max, Next(h, max, w, s))
  {
    match s
    case Close(f) => Assemble(h, max, w, Next(h, max, w, s));
    case StepCreate(k, picked) => CreateKeeps(h, max, w, k, picked);
    case StepResume(k, b, read) => ResumeKeeps(h, max, w, k, b, read);
    case StepCheck(k) => CheckKeeps(h, max, w, k);
    case StepLook(k, answers) => LookKeeps(h, max, w, k, answers);
    case StepSubmit(k, send) => SubmitKeeps(h, max, w, k, send);
    case StepReceipt(k, received) => ReceiptKeeps(h, max, w, k, received);
    case StepFinalize(k) => FinalizeKeeps(h, max, w, k);
    case StepFail(k) => FailKeeps(h, max, w, k);
    case Crash(k) => Assemble(h, max, w, Next(h, max, w, s));
    case Mine(id, x) =>
      WrittenKeeps(h, max, w, id, x);
      PoolKeeps(h, max, w.(chain := Written(w.chain, id, x)), w.pool - {(id, x)});
    case Drop(id, x) => PoolKeeps(h, max, w, w.pool - {(id, x)});
    case Foreign(id, x) => WrittenKeeps(h, max, w, id, x);
  }

  lemma {:induction false} RunKeeps(h: Bytes -> Word, max: nat, w: World, steps: seq<Step>, rule: Rule)
    requires Inv(h, max, w) && Exec(h, max, w, steps, rule).Some?
    ensures Inv(h, max, Exec(h, max, w, steps, rule).value)
    decreases |steps|
  {
    if steps != [] {
      StepKeeps(h, max, w, steps[0]);
      RunKeeps(h, max, Next(h, max, w, steps[0]), steps[1..], rule);
    }
  }
}
