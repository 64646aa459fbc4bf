/** What a batch marked FAILED tells of the chain: when it can still appear there, and when it never does. */
module AnchorFailures {
  import opened Basics
  import opened Anchoring
  import opened AnchorRuns

  // ---------------------------------------------------------------------------------------------
  // When a failed batch can still appear
  // ---------------------------------------------------------------------------------------------

  /** Nobody else writes under the identifier of batch b. */
  predicate NoForeign(steps: seq<Step>, b: nat) {
    forall i :: 0 <= i < |steps| && steps[i].Foreign? ==> steps[i].id != b
  }

  /** A write of batch b that the contract would accept is still on its way. */
  ghost predicate InFlight(w: World, b: nat) { exists x :: (b, x) in w.pool && Writable(w.chain, b, x) }

  /** Some continuation under the lock puts batch b on the chain. */
  ghost predicate CanAppear(h: Bytes -> Word, max: nat, w: World, b: nat) {
    exists more :: NoForeign(more, b) && Appears(Exec(h, max, w, more, Locked), b)
  }

  predicate Appears(x: Option<World>, b: nat) { x.Some? && b in x.value.chain }

  /** Decided, not on the chain, and nothing on its way. */
  ghost predicate Gone(w: World, b: nat) {
    b < |w.batches| && FinalBatch(w.batches[b]) && b !in w.chain && !InFlight(w, b)
  }

  lemma GoneStays(h: Bytes -> Word, max: nat, w: World, s: Step, b: nat)
    requires Inv(h, max, w) && LockInv(w) && Enabled(w, s) && Gone(w, b) && (s.Foreign? ==> s.id != b)
    ensures Gone(Next(h, max, w, s), b)
  {
    var v := Next(h, max, w, s);
    StepFinal(h, max, w, s, b);
    if s.StepSubmit? {
      assert Holder(w, w.workers[s.k]);
    }
    assert b !in v.chain;
    forall x | (b, x) in v.pool ensures !Writable(v.chain, b, x) {
      assert (b, x) in w.pool;
    }
  }

  lemma {:induction false} GoneForever(h: Bytes -> Word, max: nat, w: World, steps: seq<Step>, b: nat)
    requires Inv(h, max, w) && LockInv(w) && Gone(w, b) && NoForeign(steps, b) && Exec(h, max, w, steps, Locked).Some?
    ensures Gone(Exec(h, max, w, steps, Locked).value, b)
    decreases |steps|
  {
    if steps != [] {
      StepKeeps(h, max, w, steps[0]);
      StepLock(h, max, w, steps[0]);
      GoneStays(h, max, w, steps[0], b);
      GoneForever(h, max, Next(h, max, w, steps[0]), steps[1..], b);
    }
  }

  /** WHEN FAILED MEANS ABSENT. At any point of any run under the lock, a failed batch that is not on the chain can
      still get there, without another submitter taking its identifier, if and only if a write of it that the
      contract would accept is still on its way. */
  lemma FailedAppearsIff(h: Bytes -> Word, max: nat, steps: seq<Step>, b: nat)
    requires Exec(h, max, START, steps, Locked).Some?
    requires var w := Exec(h, max, START, steps, Locked).value;
             b < |w.batches| && w.batches[b].status == BatchFailed && b !in w.chain
    ensures var w := Exec(h, max, START, steps, Locked).value; CanAppear(h, max, w, b) <==> InFlight(w, b)
  {
    var w := Exec(h, max, START, steps, Locked).value;
    StartHolds(h, max);
    StartLock();
    RunFinal(h, max, START, steps, b);
    if InFlight(w, b) {
      var x :| (b, x) in w.pool && Writable(w.chain, b, x);
      var more := [Mine(b, x)];
      ExecStep(h, max, w, Mine(b, x), [], Locked);
      assert [Mine(b, x)] + [] == more;
      assert NoForeign(more, b) && Appears(Exec(h, max, w, more, Locked), b);
    } else {
      forall more | NoForeign(more, b) && Exec(h, max, w, more, Locked).Some?
        ensures !Appears(Exec(h, max, w, more, Locked), b)
      {
        GoneForever(h, max, w, more, b);
      }
    }
  }

  // ---------------------------------------------------------------------------------------------
  // A batch nobody sent
  // ---------------------------------------------------------------------------------------------

  /** The step sends a write of batch b: it is broadcast, whatever is heard of it. */
  predicate Sends(w: World, s: Step, b: nat) {
    s.StepSubmit? && s.k in w.workers && w.workers[s.k].b == b && s.send != LostBefore
  }

  predicate EverSent(h: Bytes -> Word, max: nat, w: World, steps: seq<Step>, b: nat)
    decreases |steps|
  {
    steps != [] && Enabled(w, steps[0])
      && (Sends(w, steps[0], b) || EverSent(h, max, Next(h, max, w, steps[0]), steps[1..], b))
  }

  ghost predicate Unsent(w: World, b: nat) { b !in w.chain && forall x :: (b, x) !in w.pool }

  lemma UnsentStays(h: Bytes -> Word, max: nat, w: World, s: Step, b: nat)
    requires Enabled(w, s) && Unsent(w, b) && !Sends(w, s, b) && (s.Foreign? ==> s.id != b)
    ensures Unsent(Next(h, max, w, s), b)
  {
  }

  lemma {:induction false} UnsentForever(h: Bytes -> Word, max: nat, w: World, steps: seq<Step>, rule: Rule, b: nat)
    requires Unsent(w, b) && NoForeign(steps, b) && Exec(h, max, w, steps, rule).Some? && !EverSent(h, max, w, steps, b)
    ensures Unsent(Exec(h, max, w, steps, rule).value, b)
    decreases |steps|
  {
    if steps != [] {
      UnsentStays(h, max, w, steps[0], b);
      UnsentForever(h, max, Next(h, max, w, steps[0]), steps[1..], rule, b);
    }
  }

  /** NEVER SENT, NEVER THERE. A failed batch none of whose submissions left the gateway is not on the chain, and no
      continuation under the lock puts it there. */
  lemma NeverSentNeverAppears(h: Bytes -> Word, max: nat, steps: seq<Step>, b: nat)
    requires Exec(h, max, START, steps, Locked).Some? && NoForeign(steps, b) && !EverSent(h, max, START, steps, b)
    requires var w := Exec(h, max, START, steps, Locked).value; b < |w.batches| && w.batches[b].status == BatchFailed
    ensures var w := Exec(h, max, START, steps, Locked).value; b !in w.chain && !CanAppear(h, max, w, b)
  {
    UnsentForever(h, max, START, steps, Locked, b);
    FailedAppearsIff(h, max, steps, b);
  }

  // ---------------------------------------------------------------------------------------------
  // The two ways a failed batch is on the chain
  // ---------------------------------------------------------------------------------------------

  /** One closure, constituted into a batch and sent on the only attempt allowed, then the rest. */
  function Sending(f: Word, rest: seq<Step>): seq<Step> {
    [Close(f)] + ([StepCreate(0, [0])] + ([StepCheck(0)] + ([StepLook(0, true)] + ([StepSubmit(0, Broadcast)] + rest))))
  }

  /** The batch of one closure, sent and not heard of. */
  ghost predicate SentOne(h: Bytes -> Word, w: World, x: OnChain) {
    Inv(h, 1, w) && |w.items| == 1 && w.items[0].batch == Some(0) && w.chain == map[] && w.pool == {(0, x)}
    && w.batches == [Batch(BatchAnchoring, x.root, 1, 1)] && x.leafCount == 1 && !IsNull(x.root)
    && w.workers == map[0 := Worker(0, w.batches[0], [0], Sent)]
  }

  lemma OneConstituted(h: Bytes -> Word, f: Word) returns (v: World)
    ensures var w := START.(items := [Item(f, Waiting, None, None, None)]);
            Pickable(w, [0]) && v == Create(h, w, 0, [0])
    ensures OneBatch(h, v, Batch(BatchPending, h(f), 1, 0), Claimed)
  {
    var w := START.(items := [Item(f, Waiting, None, None, None)]);
    StartHolds(h, 1);
    StepKeeps(h, 1, START, Close(f));
    StepKeeps(h, 1, w, StepCreate(0, [0]));
    v := Create(h, w, 0, [0]);
    CreateItems(h, w, 0, [0], 0);
    assert LeavesOf(h, w.items, [0]) == [h(f)];
  }

  lemma OneSent(h: Bytes -> Word, f: Word, rest: seq<Step>) returns (v: World)
    requires !IsNull(h(f))
    ensures SentOne(h, v, OnChain(h(f), 1))
            && Exec(h, 1, START, Sending(f, rest), Locked) == Exec(h, 1, v, rest, Locked)
  {
    var w := START.(items := [Item(f, Waiting, None, None, None)]);
    var u := OneConstituted(h, f);
    var sent := [StepCheck(0)] + ([StepLook(0, true)] + ([StepSubmit(0, Broadcast)] + rest));
    assert Next(h, 1, START, Close(f)) == w;
    ExecStep(h, 1, START, Close(f), [StepCreate(0, [0])] + sent, Locked);
    ExecStep(h, 1, w, StepCreate(0, [0]), sent, Locked);
    v := OneSubmitted(h, f, u, rest);
  }

  /** One batch of one closure, in the hands of one worker. */
  ghost predicate OneBatch(h: Bytes -> Word, w: World, batch: Batch, stage: Stage) {
    Inv(h, 1, w) && |w.items| == 1 && w.items[0].batch == Some(0) && w.chain == map[] && w.pool == {}
    && w.batches == [batch] && batch.leafCount == 1 && w.workers == map[0 := Worker(0, batch, [0], stage)]
  }

  lemma OneSubmitted(h: Bytes -> Word, f: Word, u: World, rest: seq<Step>) returns (v: World)
    requires !IsNull(h(f)) && OneBatch(h, u, Batch(BatchPending, h(f), 1, 0), Claimed)
    ensures SentOne(h, v, OnChain(h(f), 1))
    ensures Exec(h, 1, u, [StepCheck(0)] + ([StepLook(0, true)] + ([StepSubmit(0, Broadcast)] + rest)), Locked)
            == Exec(h, 1, v, rest, Locked)
  {
    var u1 := OneChecked(h, u, h(f), [StepLook(0, true)] + ([StepSubmit(0, Broadcast)] + rest));
    var u2 := OneLooked(h, u1, Batch(BatchAnchoring, h(f), 1, 1), [StepSubmit(0, Broadcast)] + rest);
    v := OneBroadcast(h, u2, Batch(BatchAnchoring, h(f), 1, 1), rest);
  }

  lemma OneChecked(h: Bytes -> Word, u: World, root: Bytes, rest: seq<Step>) returns (v: World)
    requires OneBatch(h, u, Batch(BatchPending, root, 1, 0), Claimed)
    ensures OneBatch(h, v, Batch(BatchAnchoring, root, 1, 1), Reserved)
    ensures Exec(h, 1, u, [StepCheck(0)] + rest, Locked) == Exec(h, 1, v, rest, Locked)
  {
    var a := u.workers[0];
    assert WorkerLive(1, u, a);
    ReadIsCoherent(h, 1, u, a);
    StepKeeps(h, 1, u, StepCheck(0));
    ExecStep(h, 1, u, StepCheck(0), rest, Locked);
    v := Save(u, 0, Counted(a));
  }

  lemma OneLooked(h: Bytes -> Word, u: World, batch: Batch, rest: seq<Step>) returns (v: World)
    requires OneBatch(h, u, batch, Reserved)
    ensures OneBatch(h, v, batch, Absent)
            && Exec(h, 1, u, [StepLook(0, true)] + rest, Locked) == Exec(h, 1, v, rest, Locked)
  {
    StepKeeps(h, 1, u, StepLook(0, true));
    ExecStep(h, 1, u, StepLook(0, true), rest, Locked);
    v := Put(u, 0, u.workers[0].(stage := Absent));
  }

  lemma OneBroadcast(h: Bytes -> Word, u: World, batch: Batch, rest: seq<Step>) returns (v: World)
    requires OneBatch(h, u, batch, Absent) && batch.status == BatchAnchoring && batch.attempts == 1
    requires !IsNull(batch.root)
    ensures SentOne(h, v, OnChain(batch.root, 1))
    ensures Exec(h, 1, u, [StepSubmit(0, Broadcast)] + rest, Locked) == Exec(h, 1, v, rest, Locked)
  {
    StepKeeps(h, 1, u, StepSubmit(0, Broadcast));
    ExecStep(h, 1, u, StepSubmit(0, Broadcast), rest, Locked);
    v := Submit(u, 0, u.workers[0], Broadcast);
  }

  predicate FailedOnChain(r: Option<World>) {
    r.Some? && |r.value.batches| == 1 && r.value.batches[0].status == BatchFailed && Published(r.value, 0)
  }

  /** The receipt does not come in time, and the write is mined later. */
  function LateMining(x: OnChain): seq<Step> { [StepReceipt(0, false)] + ([StepFail(0)] + ([Mine(0, x)] + [])) }

  /** FAILED IS NOT ABSENT. A run that respects the lock leaves a batch marked failed that is on the chain, root
      and count included: its write was on its way when the last attempt failed. */
  lemma FailedYetOnChain(h: Bytes -> Word, f: Word)
    requires !IsNull(h(f))
    ensures FailedOnChain(Exec(h, 1, START, Sending(f, LateMining(OnChain(h(f), 1))), Locked))
  {
    var x := OnChain(h(f), 1);
    var w := OneSent(h, f, LateMining(x));
    ExecStep(h, 1, w, StepReceipt(0, false), [StepFail(0)] + ([Mine(0, x)] + []), Locked);
    LateMined(h, Put(w, 0, w.workers[0].(stage := Failing(false))), x);
  }

  lemma LateMined(h: Bytes -> Word, v: World, x: OnChain)
    requires v.batches == [Batch(BatchAnchoring, x.root, 1, 1)] && v.pool == {(0, x)} && v.chain == map[]
    requires v.workers == map[0 := Worker(0, v.batches[0], [0], Failing(false))] && x.leafCount == 1 && !IsNull(x.root)
    ensures FailedOnChain(Exec(h, 1, v, [StepFail(0)] + ([Mine(0, x)] + []), Locked))
  {
    ExecStep(h, 1, v, StepFail(0), [Mine(0, x)] + [], Locked);
    ExecStep(h, 1, Fail(1, v, 0, v.workers[0]), Mine(0, x), [], Locked);
  }

  /** The write is mined, the process dies before it hears of it, and the node does not answer the last look of the
      next pass. */
  function BlindLook(x: OnChain): seq<Step> { [Mine(0, x)] + ([Crash(0)] + ([StepResume(0, 0, [0])] + BlindPass())) }

  function BlindPass(): seq<Step> { [StepCheck(0)] + ([StepLook(0, false)] + ([StepFail(0)] + [])) }

  lemma BlindPassFails(h: Bytes -> Word, w: World)
    requires Inv(h, 1, w) && |w.batches| == 1 && w.batches[0].attempts == 1 && Published(w, 0)
    requires w.workers == map[0 := Worker(0, w.batches[0], [0], Claimed)]
    ensures FailedOnChain(Exec(h, 1, w, BlindPass(), Locked))
  {
    var a := w.workers[0];
    assert WorkerLive(1, w, a);
    ReadIsCoherent(h, 1, w, a);
    ExecStep(h, 1, w, StepCheck(0), [StepLook(0, false)] + ([StepFail(0)] + []), Locked);
    var v := Put(w, 0, a.(stage := LastLook));
    assert Next(h, 1, w, StepCheck(0)) == v;
    ExecStep(h, 1, v, StepLook(0, false), [StepFail(0)] + [], Locked);
    var u := Put(v, 0, v.workers[0].(stage := Failing(true)));
    assert Next(h, 1, v, StepLook(0, false)) == u;
    ExecStep(h, 1, u, StepFail(0), [], Locked);
  }

  /** NEITHER IS A BATCH NOBODY COULD LOOK UP. With its attempts spent, a batch already on the chain is marked failed
      because the node does not answer the one reading that is left. */
  lemma BlindLookFails(h: Bytes -> Word, f: Word)
    requires !IsNull(h(f))
    ensures FailedOnChain(Exec(h, 1, START, Sending(f, BlindLook(OnChain(h(f), 1))), Locked))
  {
    var x := OnChain(h(f), 1);
    var w := OneSent(h, f, BlindLook(x));
    ExecStep(h, 1, w, Mine(0, x), [Crash(0)] + ([StepResume(0, 0, [0])] + BlindPass()), Locked);
    StepKeeps(h, 1, w, Mine(0, x));
    var w1 := Next(h, 1, w, Mine(0, x));
    ExecStep(h, 1, w1, Crash(0), [StepResume(0, 0, [0])] + BlindPass(), Locked);
    StepKeeps(h, 1, w1, Crash(0));
    var w2 := w1.(workers := map[]);
    assert Next(h, 1, w1, Crash(0)) == w2;
    assert Lists(w2, 0, [0]);
    ExecStep(h, 1, w2, StepResume(0, 0, [0]), BlindPass(), Locked);
    StepKeeps(h, 1, w2, StepResume(0, 0, [0]));
    BlindPassFails(h, Resume(w2, 0, 0, [0]));
  }
}
