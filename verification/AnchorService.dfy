/** One pass of the anchoring service (`processPendingBatch` in src/blockchain/anchor.service.ts), from the lock
    to the recorded outcome: a run of the anchoring protocol, and exactly what it leaves behind. */
module AnchorService {
  import opened Basics
  import opened Anchoring
  import opened AnchorRuns

  /** How the node behaves during a pass. */
  datatype Node = Node(answers: bool, send: Send, mined: bool, received: bool)

  datatype Outcome = Disabled | AlreadyRunning | NothingToAnchor | Done(leaves: nat) | NotAnchored

  ghost predicate Reaches(h: Bytes -> Word, max: nat, w: World, v: World) {
    exists steps :: Exec(h, max, w, steps, Locked) == Some(v)
  }

  lemma {:induction false} ExecConcat(h: Bytes -> Word, max: nat, w: World, a: seq<Step>, b: seq<Step>, rule: Rule)
    requires Exec(h, max, w, a, rule).Some?
    ensures Exec(h, max, w, a + b, rule) == Exec(h, max, Exec(h, max, w, a, rule).value, b, rule)
    decreases |a|
  {
    if a == [] {
      assert a + b == b;
    } else {
      assert (a + b)[0] == a[0] && (a + b)[1..] == a[1..] + b;
      ExecConcat(h, max, Next(h, max, w, a[0]), a[1..], b, rule);
    }
  }

  lemma ReachesStep(h: Bytes -> Word, max: nat, u: World, w: World, s: Step)
    requires Reaches(h, max, u, w) && Enabled(w, s) && Locked(w, s)
    ensures Reaches(h, max, u, Next(h, max, w, s))
  {
    var a :| Exec(h, max, u, a, Locked) == Some(w);
    assert [s][1..] == [];
    assert Exec(h, max, w, [s], Locked) == Some(Next(h, max, w, s));
    ExecConcat(h, max, u, a, [s], Locked);
  }

  /** A run under the lock keeps the invariants. */
  lemma ReachesKeeps(h: Bytes -> Word, max: nat, u: World, w: World)
    requires Inv(h, max, u) && LockInv(u) && Reaches(h, max, u, w)
    ensures Inv(h, max, w) && LockInv(w)
  {
    var a :| Exec(h, max, u, a, Locked) == Some(w);
    RunFinal(h, max, u, a, 0);
  }

  /** The members of a batch, as the two queries of `findResumableBatch` return them. */
  method ReadMembers(w: World, b: nat) returns (read: seq<nat>)
    ensures Lists(w, b, read)
  {
    read := [];
    for i := 0 to |w.items|
      invariant forall j :: 0 <= j < |read| ==> read[j] < i && w.items[read[j]].batch == Some(b)
      invariant forall k :: 0 <= k < i && w.items[k].batch == Some(b) ==> k in read
      invariant forall j, k :: 0 <= j < k < |read| ==> read[j] != read[k]
    {
      if w.items[i].batch == Some(b) {
        read := read + [i];
      }
    }
  }

  predicate Pending(item: Item) { item.status == Waiting && item.batch.None? }

  /** The oldest pending closures in order, all of them if they fit in one batch. */
  ghost predicate Oldest(w: World, size: nat, picked: seq<nat>) {
    (picked != [] ==> Pickable(w, picked)) && |picked| <= size
    && (|picked| < size ==> forall i :: 0 <= i < |w.items| && Pending(w.items[i]) ==> i in picked)
    && (forall i, j :: 0 <= i < j < |picked| ==> picked[i] < picked[j])
    && (forall i, j :: 0 <= j < |picked| && 0 <= i < picked[j] && i < |w.items| && Pending(w.items[i]) ==> i in picked)
  }

  /** The query for closures to anchor: waiting, in no batch, the oldest ones first. */
  method PickPending(w: World, size: nat) returns (picked: seq<nat>)
    ensures Oldest(w, size, picked)
    ensures forall i :: i in picked ==> i < |w.items| && w.items[i].status == Waiting && w.items[i].batch == None
    ensures forall i :: 0 <= i < |w.items| && i !in picked ==>
              w.items[i].status == Waiting && w.items[i].batch == None ==>
                |picked| == size && forall j :: j in picked ==> j < i
  {
    picked := [];
    for i := 0 to |w.items|
      invariant |picked| <= size
      invariant forall j :: 0 <= j < |picked| ==> picked[j] < i && Pending(w.items[picked[j]])
      invariant |picked| < size ==> forall k :: 0 <= k < i && Pending(w.items[k]) ==> k in picked
      invariant forall j, k :: 0 <= j < k < |picked| ==> picked[j] < picked[k]
      invariant forall j, k :: 0 <= j < |picked| && 0 <= k < picked[j] && Pending(w.items[k]) ==> k in picked
    {
      if |picked| == size {
        break;
      }
      if Pending(w.items[i]) {
        picked := picked + [i];
      }
    }
  }

  // ---------------------------------------------------------------------------------------------
  // What one attempt leaves behind
  // ---------------------------------------------------------------------------------------------

  function Tries(max: nat, batch: Batch): nat { if batch.attempts < max then batch.attempts + 1 else batch.attempts }

  function Entry(batch: Batch): OnChain { OnChain(batch.root, batch.leafCount) }

  /** A write leaves the gateway: an attempt was left, the node answers, and the contract would accept it. */
  predicate Leaves(max: nat, w: World, b: nat, node: Node)
    requires b < |w.batches|
  {
    w.batches[b].attempts < max && node.answers && Writable(w.chain, b, Entry(w.batches[b])) && node.send != LostBefore
  }

  predicate Lands(max: nat, w: World, b: nat, node: Node)
    requires b < |w.batches|
  {
    Leaves(max, w, b, node) && node.send == Broadcast && node.mined
  }

  /** The batch is anchored: the chain has it already and says so, or the write lands and is heard of. */
  predicate Succeeds(max: nat, w: World, b: nat, node: Node)
    requires b < |w.batches|
  {
    (node.answers && Published(w, b)) || (Lands(max, w, b, node) && node.received)
  }

  /** What is left of a batch that is not anchored: it is given up when no attempt is left, or when the chain holds
      something else under its identifier. */
  function StatusAfter(max: nat, w: World, b: nat, node: Node): BatchStatus
    requires b < |w.batches|
  {
    if Succeeds(max, w, b, node) then BatchAnchored
    else if Tries(max, w.batches[b]) >= max || (node.answers && b in w.chain) then BatchFailed
    else BatchPending
  }

  /** One attempt on batch b leads from w to v: its row, its members, the chain and the pool, and nothing else. */
  ghost predicate Attempted(max: nat, w: World, b: nat, node: Node, v: World, outcome: Outcome) {
    b < |w.batches|
    && var batch, status := w.batches[b], StatusAfter(max, w, b, node);
       outcome == (if Succeeds(max, w, b, node) then Done(batch.leafCount) else NotAnchored)
       && v.batches == w.batches[b := Batch(status, batch.root, batch.leafCount, Tries(max, batch))]
       && Decided(w, b, status, v)
       && v.chain == (if Lands(max, w, b, node) then w.chain[b := Entry(batch)] else w.chain)
       && v.pool == (if Lands(max, w, b, node) then w.pool - {(b, Entry(batch))}
                     else if Leaves(max, w, b, node) then w.pool + {(b, Entry(batch))} else w.pool)
  }

  /** The closures of batch b follow its status; the others are as they were. */
  ghost predicate Decided(w: World, b: nat, status: BatchStatus, v: World) {
    v.roster == w.roster && v.workers == map[] && |v.items| == |w.items|
    && forall i :: 0 <= i < |w.items| ==>
         v.items[i] == if w.items[i].batch == Some(b) then w.items[i].(status := MemberStatus(status)) else w.items[i]
  }

  /** WHAT BECOMES OF A BATCH THE CHAIN ALREADY HAS. Nothing is sent again. A node that answers gets it anchored, even
      with no attempt left; without an answer it is given up if and only if this was the last attempt. */
  lemma PublishedFate(max: nat, w: World, b: nat, node: Node, v: World, outcome: Outcome)
    requires Attempted(max, w, b, node, v, outcome) && Published(w, b)
    ensures v.chain == w.chain && v.pool == w.pool
    ensures v.batches[b].status == BatchAnchored <==> node.answers
    ensures v.batches[b].status == BatchFailed <==> !node.answers && w.batches[b].attempts + 1 >= max
    ensures outcome.Done? <==> node.answers
  {
  }

  /** WHAT A PASS LEAVES, CASE BY CASE. A write is sent when an attempt is left, the node answers and the contract would
      take it: the identifier free, some leaf, a root that is not null. The batch is anchored when the chain has it as
      it is, or when the write is mined and its receipt comes back; otherwise it is given up when no attempt is left or
      something else stands under its identifier, and waits for the next pass if not. Its closures follow it. */
  lemma PassTable(max: nat, w: World, b: nat, node: Node, v: World, outcome: Outcome)
    requires Attempted(max, w, b, node, v, outcome)
    ensures var x := w.batches[b];
            var entry := OnChain(x.root, x.leafCount);
            var accepted := b !in w.chain && x.leafCount > 0 && exists i :: 0 <= i < |x.root| && x.root[i] != 0;
            var sends := x.attempts < max && node.answers && accepted && node.send != LostBefore;
            var mines := sends && node.send == Broadcast && node.mined;
            var anchors := (node.answers && b in w.chain && w.chain[b] == entry) || (mines && node.received);
            var spent := x.attempts + 1 >= max || (node.answers && b in w.chain);
            var status := if anchors then BatchAnchored else if spent then BatchFailed else BatchPending;
            v.batches == w.batches[b := Batch(status, x.root, x.leafCount,
                                              if x.attempts < max then x.attempts + 1 else x.attempts)]
            && outcome == (if anchors then Done(x.leafCount) else NotAnchored)
            && v.chain == (if mines then w.chain[b := entry] else w.chain)
            && v.pool == (if mines then w.pool - {(b, entry)} else if sends then w.pool + {(b, entry)} else w.pool)
            && |v.items| == |w.items|
            && forall i :: 0 <= i < |w.items| ==>
                 v.items[i] == if w.items[i].batch != Some(b) then w.items[i]
                               else w.items[i].(status := if anchors then Anchored else if spent then Abandoned
                                                          else Waiting)
  {
    var x := w.batches[b];
    assert IsNull(x.root) <==> !exists i :: 0 <= i < |x.root| && x.root[i] != 0;
  }

  // ---------------------------------------------------------------------------------------------
  // Inside an attempt
  // ---------------------------------------------------------------------------------------------

  /** One worker, holding the lock. */
  predicate Alone(w: World) { 0 in w.workers && w.workers == map[0 := w.workers[0]] }

  /** A worker that has just taken its batch. */
  ghost predicate Taken(h: Bytes -> Word, max: nat, w: World) {
    Inv(h, max, w) && LockInv(w) && Alone(w) && w.workers[0].stage == Claimed
  }

  /** The attempt on the batch taken in w has reached v: the batch is counted, nothing is decided. */
  ghost predicate Underway(max: nat, w: World, v: World) {
    Alone(w) && Alone(v) && w.workers[0].b < |w.batches| && v.items == w.items && v.roster == w.roster
    && (var a, c := w.workers[0], v.workers[0];
        c.b == a.b && c.members == a.members && SameBatch(w.batches[a.b], c.batch)
        && c.batch.attempts == Tries(max, w.batches[a.b])
        && |v.batches| == |w.batches| && v.batches == w.batches[a.b := v.batches[a.b]])
  }

  lemma CheckUnderway(h: Bytes -> Word, max: nat, w: World)
    requires Taken(h, max, w)
    ensures Readable(w, w.workers[0])
    ensures var v := Check(h, max, w, 0, w.workers[0]);
            Underway(max, w, v) && v.chain == w.chain && v.pool == w.pool
            && v.workers[0].stage == if w.batches[w.workers[0].b].attempts < max then Reserved else LastLook
  {
    var a := w.workers[0];
    assert Holder(w, a) && WorkerLive(max, w, a);
    ReadIsCoherent(h, max, w, a);
  }

  /** The writing that closes an attempt. */
  lemma ConcludeDecides(h: Bytes -> Word, max: nat, w: World, v: World, u: World, status: BatchStatus)
    requires Taken(h, max, w) && Underway(max, w, v)
    requires var c := v.workers[0];
             if status == BatchPending
             then u == v.(batches := v.batches[c.b := c.batch.(status := status)], workers := v.workers - {0})
             else u == v.(batches := v.batches[c.b := c.batch.(status := status)],
                          items := Mark(v.items, c.members, MemberStatus(status)), workers := v.workers - {0})
    ensures var b := w.workers[0].b;
            Decided(w, b, status, u)
            && u.batches == w.batches[b := Batch(status, w.batches[b].root, w.batches[b].leafCount,
                                                 Tries(max, w.batches[b]))]
  {
    var a := w.workers[0];
    assert Holder(w, a) && WorkerLive(max, w, a);
    forall i | 0 <= i < |w.items|
      ensures u.items[i] == if w.items[i].batch == Some(a.b) then w.items[i].(status := MemberStatus(status))
              else w.items[i]
    {
      assert Agrees(w, w.items[i]);
      assert i in a.members <==> w.items[i].batch == Some(a.b);
    }
  }

  /** What an attempt leaves does not depend on who holds the lock. */
  lemma WorkersAside(max: nat, w: World, u: World, b: nat, node: Node, v: World, outcome: Outcome)
    requires Attempted(max, w, b, node, v, outcome) && u == w.(workers := u.workers)
    ensures Attempted(max, u, b, node, v, outcome)
    ensures Published(u, b) && node.answers ==>
              outcome.Done? && v.batches[b].status == BatchAnchored && v.chain == u.chain && v.pool == u.pool
  {
  }

  predicate NoneToPick(w: World, size: nat) {
    size == 0 || forall i :: 0 <= i < |w.items| ==> !Pending(w.items[i])
  }

  /** Every batch that is read back has as many members as leaves. */
  ghost predicate Complete(w: World) {
    forall b, read :: 0 <= b < |w.batches| && Lists(w, b, read) ==> |read| == w.batches[b].leafCount && |read| > 0
  }

  lemma AlwaysComplete(h: Bytes -> Word, w: World)
    requires Settled(h, w)
    ensures Complete(w)
  {
    forall b, read | 0 <= b < |w.batches| && Lists(w, b, read) ensures |read| == w.batches[b].leafCount && |read| > 0 {
      ReadIsComplete(h, w, b, read);
    }
  }

  /** The batches before b are decided, b is not. */
  predicate FirstOpen(w: World, b: nat) {
    b < |w.batches| && !FinalBatch(w.batches[b]) && forall c :: 0 <= c < b ==> FinalBatch(w.batches[c])
  }

  /** The table once the picked closures form a batch, nobody working on it yet. */
  function Constituted(h: Bytes -> Word, w: World, picked: seq<nat>): World
    requires Pickable(w, picked)
  {
    Create(h, w, 0, picked).(workers := map[])
  }

  class Service {
    var w: World
    var running: bool

    constructor ()
      ensures w == START && !running
    {
      w, running := START, false;
    }

    /** What every run under the lock keeps. */
    ghost predicate Valid(h: Bytes -> Word, max: nat)
      reads this
    {
      Inv(h, max, w) && LockInv(w)
    }

    /** Neither this process nor another one is at it: the lock is held by whoever works on a batch. */
    predicate Free()
      reads this
    {
      !running && w.workers == map[]
    }

    /** `findResumableBatch`: the oldest interrupted batch that is complete; incomplete ones on the way are abandoned.
        None is found only when every batch is decided; and as long as batches are complete nothing is abandoned. */
    method FindResumable(h: Bytes -> Word, max: nat, ghost start: World) returns (found: bool)
      requires w.workers == map[] && Reaches(h, max, start, w)
      modifies this`w
      ensures Reaches(h, max, start, w)
      ensures !found ==> w.workers == map[] && AllFinal(w)
      ensures found ==>
                Alone(w) && (var a := w.workers[0];
                             a.stage == Claimed && FirstOpen(w, a.b) && a.batch == w.batches[a.b]
                             && Lists(w, a.b, a.members) && |a.members| == a.batch.leafCount > 0)
      ensures Complete(old(w)) ==> w == old(w).(workers := w.workers)
    {
      var b := 0;
      while b < |w.batches|
        invariant w.workers == map[] && Reaches(h, max, start, w)
        invariant b <= |w.batches| && forall c :: 0 <= c < b ==> FinalBatch(w.batches[c])
        invariant Complete(old(w)) ==> w == old(w)
        decreases |w.batches| - b
      {
        if w.batches[b].status == BatchPending || w.batches[b].status == BatchAnchoring {
          var read := ReadMembers(w, b);
          ReachesStep(h, max, start, w, StepResume(0, b, read));
          w := Resume(w, 0, b, read);
          if 0 in w.workers {
            return true;
          }
        }
        b := b + 1;
      }
      found := false;
    }

    /** `findOrCreateBatch`: the open batch is taken as it is; without one, the oldest pending closures form one. */
    method FindOrCreate(h: Bytes -> Word, max: nat, size: nat, ghost start: World)
      returns (claimed: bool, ghost picked: seq<nat>)
      requires Valid(h, max) && w.workers == map[] && Reaches(h, max, start, w)
      modifies this`w
      ensures Reaches(h, max, start, w)
      ensures !claimed <==> AllFinal(old(w)) && NoneToPick(old(w), size)
      ensures !claimed ==> w == old(w)
      ensures claimed ==>
                Taken(h, max, w)
                && if AllFinal(old(w))
                   then Oldest(old(w), size, picked) && picked != []
                        && w == Constituted(h, old(w), picked).(workers := w.workers)
                           && w.workers[0].b == |old(w).batches|
                   else w == old(w).(workers := w.workers) && OnlyOpen(old(w), w.workers[0].b)
    {
      ghost var before := w;
      AlwaysComplete(h, w);
      claimed := FindResumable(h, max, start);
      picked := [];
      if !claimed {
        var oldest := PickPending(w, size);
        picked := oldest;
        if oldest != [] {
          CreateKeeps(h, max, w, 0, oldest);
          CreateLock(h, w, 0, oldest);
          ReachesStep(h, max, start, w, StepCreate(0, oldest));
          w := Create(h, w, 0, oldest);
          claimed := true;
        }
      } else {
        ResumeKeeps(h, max, before, 0, w.workers[0].b, w.workers[0].members);
        ResumeLock(h, before, 0, w.workers[0].b, w.workers[0].members);
        assert w == Resume(before, 0, w.workers[0].b, w.workers[0].members);
      }
    }

    /** `processPendingBatch`: nothing while disabled, running or locked by another process. Otherwise the open batch is
        attempted once; without one, the oldest pending closures are constituted into a batch, which is attempted once;
        without any, there is nothing to anchor. An open batch that the chain already has is recovered by any pass on a
        node that answers. */
    method ProcessPendingBatch(h: Bytes -> Word, max: nat, size: nat, enabled: bool, node: Node)
      returns (outcome: Outcome, ghost picked: seq<nat>)
      requires Valid(h, max)
      modifies this
      ensures Valid(h, max) && running == old(running) && Reaches(h, max, old(w), w)
      ensures outcome == Disabled <==> !enabled
      ensures outcome == AlreadyRunning <==> enabled && !old(Free())
      ensures outcome == NothingToAnchor <==> enabled && old(Free()) && AllFinal(old(w)) && NoneToPick(old(w), size)
      ensures outcome in {Disabled, AlreadyRunning, NothingToAnchor} ==> w == old(w)
      ensures enabled && old(Free()) ==>
                forall b: nat :: OnlyOpen(old(w), b) ==>
                  Attempted(max, old(w), b, node, w, outcome)
                  && (Published(old(w), b) && node.answers ==>
                        outcome.Done? && w.batches[b].status == BatchAnchored && w.chain == old(w).chain
                          && w.pool == old(w).pool)
      ensures (outcome.Done? || outcome == NotAnchored) && AllFinal(old(w)) ==>
                Oldest(old(w), size, picked) && picked != []
                && Attempted(max, Constituted(h, old(w), picked), |old(w).batches|, node, w, outcome)
    {
      ghost var start := w;
      assert Exec(h, max, w, [], Locked) == Some(w);
      picked := [];
      if !enabled {
        return Disabled, picked;
      }
      if running {
        return AlreadyRunning, picked;
      }
      running := true;
      if w.workers != map[] {
        running := false;
        return AlreadyRunning, picked;
      }
      var claimed;
      claimed, picked := FindOrCreate(h, max, size, start);
      if !claimed {
        running := false;
        return NothingToAnchor, picked;
      }
      ghost var taken := w;
      outcome := AnchorBatchItems(h, max, node, start);
      ReachesKeeps(h, max, start, w);
      forall b: nat | OnlyOpen(start, b) ensures b == taken.workers[0].b {
        assert !AllFinal(start);
      }
      if AllFinal(start) {
        WorkersAside(max, taken, Constituted(h, start, picked), taken.workers[0].b, node, w, outcome);
      } else {
        WorkersAside(max, taken, start, taken.workers[0].b, node, w, outcome);
      }
      running := false;
    }

    /** The checks, and the attempt counted before anything is sent. */
    method CheckBatch(h: Bytes -> Word, max: nat, ghost start: World)
      requires Reaches(h, max, start, w) && Taken(h, max, w)
      modifies this`w
      ensures Reaches(h, max, start, w) && Underway(max, old(w), w) && w.chain == old(w).chain && w.pool == old(w).pool
      ensures w.workers[0].stage ==
                if old(w).batches[old(w).workers[0].b].attempts < max then Reserved else LastLook
    {
      CheckUnderway(h, max, w);
      ReachesStep(h, max, start, w, StepCheck(0));
      w := Check(h, max, w, 0, w.workers[0]);
    }

    /** `getBatch`, and what follows from what it says. */
    method LookUp(h: Bytes -> Word, max: nat, answers: bool, ghost start: World, ghost taken: World)
      requires Reaches(h, max, start, w) && Underway(max, taken, w) && w.workers[0].stage in {Reserved, LastLook}
      modifies this`w
      ensures Reaches(h, max, start, w) && Underway(max, taken, w) && w.chain == old(w).chain && w.pool == old(w).pool
      ensures var b, last := taken.workers[0].b, old(w).workers[0].stage == LastLook;
              w.workers[0].stage ==
                if answers && b in old(w).chain
                then if old(w).chain[b] == Entry(taken.batches[b]) then Confirmed else Failing(true)
                else if answers && !last then Absent
                else Failing(last)
    {
      ReachesStep(h, max, start, w, StepLook(0, answers));
      w := Put(w, 0, Look(w, w.workers[0], answers));
    }

    /** `anchorBatch` of the client: the write, its mining, its receipt. */
    method Publish(h: Bytes -> Word, max: nat, node: Node, ghost start: World, ghost taken: World)
      requires Reaches(h, max, start, w) && Underway(max, taken, w) && w.workers[0].stage == Absent
      requires |taken.workers[0].members| == taken.batches[taken.workers[0].b].leafCount
      modifies this`w
      ensures Reaches(h, max, start, w) && Underway(max, taken, w)
      ensures var b := taken.workers[0].b;
              var x := Entry(taken.batches[b]);
              var sent := Writable(old(w).chain, b, x) && node.send != LostBefore;
              var mined := sent && node.send == Broadcast && node.mined;
              w.chain == (if mined then old(w).chain[b := x] else old(w).chain)
              && w.pool == (if mined then old(w).pool - {(b, x)} else if sent then old(w).pool + {(b, x)}
                            else old(w).pool)
              && w.workers[0].stage == (if mined && node.received then Confirmed else Failing(false))
    {
      ReachesStep(h, max, start, w, StepSubmit(0, node.send));
      w := Submit(w, 0, w.workers[0], node.send);
      if w.workers[0].stage == Sent {
        Await(h, max, node, start, taken);
      }
    }

    /** `tx.wait`: mined or not, received or not. */
    method Await(h: Bytes -> Word, max: nat, node: Node, ghost start: World, ghost taken: World)
      requires Reaches(h, max, start, w) && Underway(max, taken, w) && w.workers[0].stage == Sent
      requires |taken.workers[0].members| == taken.batches[taken.workers[0].b].leafCount
      requires var b := taken.workers[0].b;
               (b, Entry(taken.batches[b])) in w.pool && Writable(w.chain, b, Entry(taken.batches[b]))
      modifies this`w
      ensures Reaches(h, max, start, w) && Underway(max, taken, w)
      ensures var b := taken.workers[0].b;
              var x := Entry(taken.batches[b]);
              w.chain == (if node.mined then old(w).chain[b := x] else old(w).chain)
              && w.pool == (if node.mined then old(w).pool - {(b, x)} else old(w).pool)
              && w.workers[0].stage == (if node.mined && node.received then Confirmed else Failing(false))
    {
      var a := w.workers[0];
      var x := OnChain(a.batch.root, |a.members|);
      if node.mined {
        ReachesStep(h, max, start, w, Mine(a.b, x));
        w := w.(chain := Written(w.chain, a.b, x), pool := w.pool - {(a.b, x)});
      }
      var received := node.received && a.b in w.chain && w.chain[a.b] == x;
      ReachesStep(h, max, start, w, StepReceipt(0, received));
      w := Put(w, 0, a.(stage := if received then Confirmed else Failing(false)));
    }

    /** `finalizeBatch` or `recordBatchFailure`. */
    method Conclude(h: Bytes -> Word, max: nat, ghost start: World, ghost taken: World) returns (outcome: Outcome)
      requires Reaches(h, max, start, w) && Taken(h, max, taken) && Underway(max, taken, w)
      requires w.workers[0].stage == Confirmed || w.workers[0].stage.Failing?
      modifies this`w
      ensures Reaches(h, max, start, w) && w.chain == old(w).chain && w.pool == old(w).pool
      ensures var b, stage := taken.workers[0].b, old(w).workers[0].stage;
              var batch := taken.batches[b];
              var status := if stage == Confirmed then BatchAnchored
                            else if stage.force || Tries(max, batch) >= max then BatchFailed else BatchPending;
              outcome == (if stage == Confirmed then Done(batch.leafCount) else NotAnchored)
              && Decided(taken, b, status, w)
              && w.batches == taken.batches[b := Batch(status, batch.root, batch.leafCount, Tries(max, batch))]
    {
      var a := w.workers[0];
      assert Holder(taken, taken.workers[0]) && WorkerLive(max, taken, taken.workers[0]);
      ghost var v := w;
      if a.stage == Confirmed {
        ReachesStep(h, max, start, w, StepFinalize(0));
        w := Finalize(w, 0, a);
        ConcludeDecides(h, max, taken, v, w, BatchAnchored);
        return Done(|a.members|);
      }
      ReachesStep(h, max, start, w, StepFail(0));
      w := Fail(max, w, 0, a);
      ConcludeDecides(h, max, taken, v, w, if a.stage.force || a.batch.attempts >= max then BatchFailed
                      else BatchPending);
      outcome := NotAnchored;
    }

    /** `anchorBatchItems`: checks, one counted attempt, and its outcome. */
    method AnchorBatchItems(h: Bytes -> Word, max: nat, node: Node, ghost start: World) returns (outcome: Outcome)
      requires Reaches(h, max, start, w) && Taken(h, max, w)
      modifies this`w
      ensures Reaches(h, max, start, w)
      ensures Attempted(max, old(w), old(w).workers[0].b, node, w, outcome)
    {
      ghost var taken := w;
      assert Holder(taken, taken.workers[0]) && WorkerLive(max, taken, taken.workers[0]);
      CheckBatch(h, max, start);
      LookUp(h, max, node.answers, start, taken);
      if w.workers[0].stage == Absent {
        Publish(h, max, node, start, taken);
      }
      outcome := Conclude(h, max, start, taken);
    }
  }
}
