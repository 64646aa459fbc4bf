/** Anchoring under its advisory lock: one open batch at a time, statuses that agree and are final, and recovery after
    a crash. */
module AnchorRuns {
  import opened Basics
  import opened Anchoring
  import AnchorSafety
  import Merkle
  import Fingerprint
  import R = Registry
  import V = Verifier
  import Verdicts

  /** A worker starts only when no other one holds the lock, which a crash releases; and it constitutes a batch only
      when none is left to resume. */
  predicate Locked(w: World, s: Step) {
    (s.StepCreate? || s.StepResume? ==> w.workers == map[]) && (s.StepCreate? ==> AllFinal(w))
  }

  predicate AllFinal(w: World) { forall b :: 0 <= b < |w.batches| ==> FinalBatch(w.batches[b]) }

  // ---------------------------------------------------------------------------------------------
  // Final statuses
  // ---------------------------------------------------------------------------------------------

  function MemberStatus(s: BatchStatus): ItemStatus {
    match s case BatchAnchored => Anchored case BatchFailed => Abandoned case _ => Waiting
  }

  predicate FinalBatch(b: Batch) { b.status == BatchAnchored || b.status == BatchFailed }

  /** The lock holder has the batch as it is, and the batch is not final. */
  predicate Holder(w: World, a: Worker) {
    a.b < |w.batches| && a.batch == w.batches[a.b] && !FinalBatch(a.batch)
  }

  predicate Agrees(w: World, item: Item) {
    item.status == if item.batch.Some? && item.batch.value < |w.batches|
      then MemberStatus(w.batches[item.batch.value].status) else Waiting
  }

  /** Batch b is the one that is neither anchored nor failed. */
  ghost predicate OnlyOpen(w: World, b: nat) {
    b < |w.batches| && !FinalBatch(w.batches[b])
    && forall c :: 0 <= c < |w.batches| && c != b ==> FinalBatch(w.batches[c])
  }

  ghost predicate OneOpen(w: World) { forall b :: 0 <= b < |w.batches| && !FinalBatch(w.batches[b]) ==> OnlyOpen(w, b) }

  ghost predicate LockInv(w: World) {
    OneOpen(w)
    && (forall k, l :: k in w.workers && l in w.workers ==> k == l)
    && (forall k :: k in w.workers ==> Holder(w, w.workers[k]))
    && (forall i :: 0 <= i < |w.items| ==> Agrees(w, w.items[i]))
  }

  lemma StartLock()
    ensures LockInv(START)
  {
  }

  lemma ItemsAgree(w: World, v: World)
    requires LockInv(w) && v.items == w.items && |v.batches| == |w.batches|
    requires forall b :: 0 <= b < |w.batches| ==> MemberStatus(v.batches[b].status) == MemberStatus(w.batches[b].status)
    ensures forall i :: 0 <= i < |v.items| ==> Agrees(v, v.items[i])
  {
    forall i | 0 <= i < |v.items| ensures Agrees(v, v.items[i]) {
      assert Agrees(w, w.items[i]);
    }
  }

  lemma CreateLock(h: Bytes -> Word, w: World, k: nat, picked: seq<nat>)
    requires Settled(h, w) && LockInv(w) && w.workers == map[] && AllFinal(w) && Pickable(w, picked)
    ensures LockInv(Create(h, w, k, picked))
  {
    var v := Create(h, w, k, picked);
    assert forall b :: 0 <= b < |w.batches| ==> v.batches[b] == w.batches[b];
    forall i | 0 <= i < |v.items| ensures Agrees(v, v.items[i]) {
      CreateItems(h, w, k, picked, i);
      assert Agrees(w, w.items[i]) && ItemOk(w.roster, w.items[i], i);
    }
  }

  /** The holder decides its batch and all its members together. */
  lemma DecideLock(max: nat, w: World, k: nat, status: BatchStatus)
    requires LockInv(w) && k in w.workers && WorkerLive(max, w, w.workers[k])
    ensures var a := w.workers[k];
            LockInv(w.(batches := w.batches[a.b := a.batch.(status := status)],
                       items := Mark(w.items, a.members, MemberStatus(status)), workers := w.workers - {k}))
  {
    var a := w.workers[k];
    var v := w.(batches := w.batches[a.b := a.batch.(status := status)],
                items := Mark(w.items, a.members, MemberStatus(status)), workers := w.workers - {k});
    forall i | 0 <= i < |v.items| ensures Agrees(v, v.items[i]) {
      assert Agrees(w, w.items[i]);
      assert i in a.members <==> w.items[i].batch == Some(a.b);
    }
  }

  /** The holder writes its batch back, not decided. */
  lemma SaveLock(w: World, k: nat, a: Worker)
    requires LockInv(w) && k in w.workers && w.workers[k].b == a.b && !FinalBatch(a.batch)
    ensures Holder(w, w.workers[k])
    ensures LockInv(Save(w, k, a)) && LockInv(w.(batches := w.batches[a.b := a.batch], workers := w.workers - {k}))
  {
    assert Holder(w, w.workers[k]);
    ItemsAgree(w, Save(w, k, a));
    ItemsAgree(w, w.(batches := w.batches[a.b := a.batch], workers := w.workers - {k}));
  }

  lemma PutLock(w: World, v: World, k: nat, stage: Stage)
    requires LockInv(w) && k in w.workers && v.items == w.items && v.batches == w.batches
    requires v.workers == w.workers[k := w.workers[k].(stage := stage)]
    ensures LockInv(v)
  {
    assert Holder(w, w.workers[k]);
    ItemsAgree(w, v);
  }

  lemma CheckLock(h: Bytes -> Word, max: nat, w: World, k: nat)
    requires LockInv(w) && At(w, k, Claimed) && Readable(w, w.workers[k])
    ensures LockInv(Check(h, max, w, k, w.workers[k]))
  {
    var a := w.workers[k];
    PutLock(w, Put(w, k, a.(stage := Failing(true))), k, Failing(true));
    PutLock(w, Put(w, k, a.(stage := LastLook)), k, LastLook);
    SaveLock(w, k, Counted(a));
  }

  lemma FailLock(max: nat, w: World, k: nat)
    requires LockInv(w) && k in w.workers && WorkerLive(max, w, w.workers[k]) && w.workers[k].stage.Failing?
    ensures LockInv(Fail(max, w, k, w.workers[k]))
  {
    var a := w.workers[k];
    DecideLock(max, w, k, BatchFailed);
    SaveLock(w, k, a.(batch := a.batch.(status := BatchPending)));
  }

  lemma ResumeLock(h: Bytes -> Word, w: World, k: nat, b: nat, read: seq<nat>)
    requires Settled(h, w) && LockInv(w) && w.workers == map[] && b < |w.batches| && !FinalBatch(w.batches[b])
    requires Lists(w, b, read)
    ensures LockInv(Resume(w, k, b, read))
  {
    ReadIsComplete(h, w, b, read);
    ItemsAgree(w, Resume(w, k, b, read));
  }

  lemma QuietLock(w: World, v: World)
    requires LockInv(w) && v.batches == w.batches && v.workers == w.workers
    requires v.items == w.items || (exists f :: v.items == w.items + [Item(f, Waiting, None, None, None)])
    ensures LockInv(v)
  {
    forall i | 0 <= i < |v.items| ensures Agrees(v, v.items[i]) {
      if i < |w.items| {
        assert Agrees(w, w.items[i]);
      }
    }
    forall k | k in v.workers ensures Holder(v, v.workers[k]) {
      assert Holder(w, w.workers[k]);
    }
  }

  lemma CrashLock(w: World, k: nat)
    requires LockInv(w)
    ensures LockInv(w.(workers := w.workers - {k}))
  {
    var v := w.(workers := w.workers - {k});
    forall l | l in v.workers ensures Holder(v, v.workers[l]) {
      assert Holder(w, w.workers[l]);
    }
    ItemsAgree(w, v);
  }

  lemma TalkLock(h: Bytes -> Word, max: nat, w: World, s: Step)
    requires LockInv(w) && Enabled(w, s) && (s.StepLook? || s.StepSubmit? || s.StepReceipt?)
    ensures LockInv(Next(h, max, w, s))
  {
    var v := Next(h, max, w, s);
    PutLock(w, v, s.k, v.workers[s.k].stage);
  }

  lemma StepLock(h: Bytes -> Word, max: nat, w: World, s: Step)
    requires Inv(h, max, w) && LockInv(w) && Enabled(w, s) && Locked(w, s)
    ensures LockInv(Next(h, max, w, s))
  {
    match s
    case StepCreate(k, picked) => CreateLock(h, w, k, picked);
    case StepResume(k, b, read) => ResumeLock(h, w, k, b, read);
    case StepCheck(k) => CheckLock(h, max, w, k);
    case StepFinalize(k) => DecideLock(max, w, k, BatchAnchored);
    case StepFail(k) => FailLock(max, w, k);
    case StepLook(_, _) => TalkLock(h, max, w, s);
    case StepSubmit(_, _) => TalkLock(h, max, w, s);
    case StepReceipt(_, _) => TalkLock(h, max, w, s);
    case Crash(k) => CrashLock(w, k);
    case _ => QuietLock(w, Next(h, max, w, s));
  }

  /** A final batch is written by no step. */
  lemma StepFinal(h: Bytes -> Word, max: nat, w: World, s: Step, b: nat)
    requires Inv(h, max, w) && LockInv(w) && Enabled(w, s) && b < |w.batches| && FinalBatch(w.batches[b])
    ensures b < |Next(h, max, w, s).batches| && Next(h, max, w, s).batches[b] == w.batches[b]
  {
    if s.StepResume? {
      ReadIsComplete(h, w, s.b, s.read);
    } else if s.StepCheck? || s.StepFinalize? || s.StepFail? {
      assert Holder(w, w.workers[s.k]);
    }
  }

  lemma {:induction false} RunFinal(h: Bytes -> Word, max: nat, w: World, steps: seq<Step>, b: nat)
    requires Inv(h, max, w) && LockInv(w) && Exec(h, max, w, steps, Locked).Some?
    ensures var v := Exec(h, max, w, steps, Locked).value;
            Inv(h, max, v) && LockInv(v)
            && (b < |w.batches| && FinalBatch(w.batches[b]) ==> b < |v.batches| && v.batches[b] == w.batches[b])
    decreases |steps|
  {
    if steps != [] {
      StepKeeps(h, max, w, steps[0]);
      StepLock(h, max, w, steps[0]);
      if b < |w.batches| && FinalBatch(w.batches[b]) {
        StepFinal(h, max, w, steps[0], b);
      }
      RunFinal(h, max, Next(h, max, w, steps[0]), steps[1..], b);
    }
  }

  /** UNDER THE LOCK ONE BATCH IS OPEN, STATUSES AGREE AND ARE FINAL. In every run that respects the lock at most one
      batch is neither anchored nor failed, the status of every closure is the one of its batch, and an anchored or
      failed batch is never written again. */
  lemma LockedStatuses(h: Bytes -> Word, max: nat, first: seq<Step>, more: seq<Step>, b: nat)
    requires Exec(h, max, START, first, Locked).Some?
    requires Exec(h, max, Exec(h, max, START, first, Locked).value, more, Locked).Some?
    ensures var w := Exec(h, max, START, first, Locked).value;
            var v := Exec(h, max, w, more, Locked).value;
            OneOpen(w) && (forall i :: 0 <= i < |w.items| ==> Agrees(w, w.items[i]))
            && (b < |w.batches| && FinalBatch(w.batches[b]) ==> b < |v.batches| && v.batches[b] == w.batches[b])
  {
    StartHolds(h, max);
    StartLock();
    RunFinal(h, max, START, first, b);
    RunFinal(h, max, Exec(h, max, START, first, Locked).value, more, b);
  }

  // ---------------------------------------------------------------------------------------------
  // Recovery
  // ---------------------------------------------------------------------------------------------

  lemma ExecStep(h: Bytes -> Word, max: nat, w: World, s: Step, rest: seq<Step>, rule: Rule)
    requires Enabled(w, s) && rule(w, s)
    ensures Exec(h, max, w, [s] + rest, rule) == Exec(h, max, Next(h, max, w, s), rest, rule)
  {
    assert ([s] + rest)[1..] == rest;
  }

  function RecoverySteps(k: nat, b: nat, members: seq<nat>): seq<Step> {
    [StepResume(k, b, members)] + ([StepCheck(k)] + ([StepLook(k, true)] + ([StepFinalize(k)] + [])))
  }

  /** The roster is one way to read the members. */
  lemma RosterLists(h: Bytes -> Word, w: World, b: nat)
    requires Settled(h, w) && b < |w.batches|
    ensures Lists(w, b, w.roster[b])
  {
    var r := w.roster[b];
    assert BatchOk(h, w.items, b, w.batches[b], r);
    RosterDistinct(h, w.items, b, w.batches[b], r);
    forall j | 0 <= j < |r| ensures r[j] < |w.items| && w.items[r[j]].batch == Some(b) {
      assert SeatedAt(w.items, b, r, j);
    }
    forall i | 0 <= i < |w.items| && w.items[i].batch == Some(b) ensures i in r {
      assert ItemOk(w.roster, w.items[i], i);
    }
  }

  predicate Recovered(x: Option<World>, w: World, b: nat) {
    x.Some? && b < |x.value.batches| && x.value.batches[b].status == BatchAnchored
    && x.value.chain == w.chain && x.value.pool == w.pool
    && |x.value.items| == |w.items|
    && forall i :: 0 <= i < |w.items| && w.items[i].batch == Some(b) ==> x.value.items[i].status == Anchored
  }

  lemma LookFinds(h: Bytes -> Word, max: nat, w: World, k: nat)
    requires k in w.workers && (w.workers[k].stage == Reserved || w.workers[k].stage == LastLook)
    requires WorkerLive(max, w, w.workers[k]) && Published(w, w.workers[k].b)
    ensures Recovered(Exec(h, max, w, [StepLook(k, true)] + ([StepFinalize(k)] + []), Locked), w, w.workers[k].b)
  {
    var a := w.workers[k];
    var v := Put(w, k, a.(stage := Confirmed));
    ExecStep(h, max, w, StepLook(k, true), [StepFinalize(k)] + [], Locked);
    assert Next(h, max, w, StepLook(k, true)) == v;
    ExecStep(h, max, v, StepFinalize(k), [], Locked);
    var u := Finalize(v, k, v.workers[k]);
    assert Next(h, max, v, StepFinalize(k)) == u;
    forall i | 0 <= i < |w.items| && w.items[i].batch == Some(a.b) ensures u.items[i].status == Anchored {
      assert i in a.members;
    }
  }

  /** The check of a coherent batch: nothing moves but its status and its attempts. */
  lemma CheckResult(h: Bytes -> Word, max: nat, w: World, k: nat)
    requires Inv(h, max, w) && At(w, k, Claimed) && Published(w, w.workers[k].b)
    ensures Readable(w, w.workers[k])
    ensures var v := Check(h, max, w, k, w.workers[k]);
            k in v.workers && v.workers[k].b == w.workers[k].b && v.workers[k].stage in {Reserved, LastLook}
            && v.items == w.items && v.chain == w.chain && v.pool == w.pool
            && WorkerLive(max, v, v.workers[k]) && Published(v, v.workers[k].b)
  {
    var a := w.workers[k];
    CheckKeeps(h, max, w, k);
    ReadIsCoherent(h, max, w, a);
    assert WorkerLive(max, w, a);
  }

  lemma CheckPasses(h: Bytes -> Word, max: nat, w: World, k: nat)
    requires Inv(h, max, w) && At(w, k, Claimed) && Published(w, w.workers[k].b)
    ensures Recovered(Exec(h, max, w, [StepCheck(k)] + ([StepLook(k, true)] + ([StepFinalize(k)] + [])), Locked), w,
                      w.workers[k].b)
  {
    CheckResult(h, max, w, k);
    ExecStep(h, max, w, StepCheck(k), [StepLook(k, true)] + ([StepFinalize(k)] + []), Locked);
    LookFinds(h, max, Check(h, max, w, k, w.workers[k]), k);
  }

  /** ANCHORING SURVIVES CRASHES. At any point of a run at which nobody holds the lock, a batch left pending or
      anchoring is the only one left to resume; and if the chain already has it, resuming it on a node that answers
      leaves it anchored with all its members, nothing being written on the chain again, even when its attempts are
      spent. */
  lemma CrashIsRecovered(h: Bytes -> Word, max: nat, steps: seq<Step>, k: nat, b: nat)
    requires Exec(h, max, START, steps, Locked).Some?
    requires var w := Exec(h, max, START, steps, Locked).value;
             w.workers == map[] && b < |w.batches| && !FinalBatch(w.batches[b]) && Published(w, b)
    ensures var w := Exec(h, max, START, steps, Locked).value;
            OnlyOpen(w, b) && b < |w.roster|
              && Recovered(Exec(h, max, w, RecoverySteps(k, b, w.roster[b]), Locked), w, b)
  {
    StartHolds(h, max);
    StartLock();
    RunFinal(h, max, START, steps, b);
    RecoverFrom(h, max, Exec(h, max, START, steps, Locked).value, k, b);
  }

  lemma RecoverFrom(h: Bytes -> Word, max: nat, w: World, k: nat, b: nat)
    requires Inv(h, max, w) && w.workers == map[] && b < |w.batches| && !FinalBatch(w.batches[b]) && Published(w, b)
    ensures Recovered(Exec(h, max, w, RecoverySteps(k, b, w.roster[b]), Locked), w, b)
  {
    var r := w.roster[b];
    RosterLists(h, w, b);
    ReadIsComplete(h, w, b, r);
    ResumeKeeps(h, max, w, k, b, r);
    ExecStep(h, max, w, StepResume(k, b, r), [StepCheck(k)] + ([StepLook(k, true)] + ([StepFinalize(k)] + [])), Locked);
    CheckPasses(h, max, Resume(w, k, b, r), k);
  }

  // ---------------------------------------------------------------------------------------------
  // What the verifier finds
  // ---------------------------------------------------------------------------------------------

  /** The columns of an event are those of an item, identifiers written out by `name`. */
  predicate ShowsItem(e: R.Event, item: Item, name: nat -> string) {
    e.anchor.status == R.Anchored && item.status == Anchored && item.batch.Some?
    && e.anchor.batchId == Some(name(item.batch.value)) && e.anchor.merkleProof == item.proof
    && Fingerprint.IsHex32(e.fingerprint) && Fingerprint.FromHex(e.fingerprint) == item.fingerprint
  }

  /** A database and a chain as anchoring left them; events that are not anchored are not looked at. */
  ghost predicate ShowsAnchors(s: V.Store, w: World, name: nat -> string) {
    (forall b :: name(b) != "")
    && (forall b :: 0 <= b < |w.batches| ==> name(b) in s.batches && s.batches[name(b)].merkleRoot == w.batches[b].root)
    && (forall b :: b in w.chain ==> name(b) in s.published && s.published[name(b)].merkleRoot == w.chain[b].root)
    && (forall n :: 0 <= n < |s.chain| && s.chain[n].anchor.status == R.Anchored ==> Shown(s.chain[n], w, name))
  }

  ghost predicate Shown(e: R.Event, w: World, name: nat -> string) {
    exists i :: 0 <= i < |w.items| && ShowsItem(e, w.items[i], name)
  }

  lemma AnchorConfirms(sc: R.Scheme, s: V.Store, e: R.Event, rpc: V.Rpc, id: string, f: Word, proof: seq<Bytes>,
                       root: Bytes)
    requires id != "" && e.anchor.batchId == Some(id) && e.anchor.merkleProof == Some(proof)
    requires Fingerprint.ToLeaf(sc.hash, e.fingerprint) == Some(sc.hash(f))
    requires id in s.batches && s.batches[id].merkleRoot == root && id in s.published
    requires s.published[id].merkleRoot == root
    requires Merkle.VerifyProof(sc.hash, sc.hash(f), proof, root)
    ensures var x := V.CheckAnchor(sc, s, e, rpc); x.Ok? && x.value != Some(false)
  {
  }

  lemma AnchorHolds(sc: R.Scheme, max: nat, w: World, s: V.Store, name: nat -> string, e: R.Event, rpc: V.Rpc)
    requires Inv(sc.hash, max, w) && ShowsAnchors(s, w, name) && Shown(e, w, name)
    ensures var x := V.CheckAnchor(sc, s, e, rpc); x.Ok? && x.value != Some(false)
  {
    var i :| 0 <= i < |w.items| && ShowsItem(e, w.items[i], name);
    assert ItemLive(w, i);
    AnchorSafety.MemberProof(sc.hash, w, i);
    var b := w.items[i].batch.value;
    assert Published(w, b);
    AnchorConfirms(sc, s, e, rpc, name(b), w.items[i].fingerprint, w.items[i].proof.value, w.batches[b].root);
  }

  /** ANCHORING NEVER ACCUSES. On a database and a chain as any run of anchoring left them, the anchor check of
      every event confirms it or abstains, whether the node answers or not. */
  lemma AnchorsAlwaysHold(sc: R.Scheme, max: nat, steps: seq<Step>, rule: Rule, s: V.Store, name: nat -> string)
    requires Exec(sc.hash, max, START, steps, rule).Some?
    requires ShowsAnchors(s, Exec(sc.hash, max, START, steps, rule).value, name)
    ensures Verdicts.AnchorsHold(sc, s)
  {
    StartHolds(sc.hash, max);
    RunKeeps(sc.hash, max, START, steps, rule);
    var w := Exec(sc.hash, max, START, steps, rule).value;
    forall n | 0 <= n < |s.chain|
      ensures V.CheckAnchor(sc, s, s.chain[n], s.rpc(n)).Ok?
              && V.CheckAnchor(sc, s, s.chain[n], s.rpc(n)).value != Some(false)
    {
      if s.chain[n].anchor.status == R.Anchored {
        AnchorHolds(sc, max, w, s, name, s.chain[n], s.rpc(n));
      }
    }
  }
}
