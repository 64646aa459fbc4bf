/** What holds over every run of the payment protocol, whatever the interleaving, the staleness of the
    snapshots, the leases that expire and the crashes. */
module Safety {
  import opened Basics
  import opened Domain
  import opened StateMachine
  import opened Gateway

  // ---------------------------------------------------------------------------------------------
  // Counting facts
  // ---------------------------------------------------------------------------------------------

  function Count(facts: seq<Fact>, t: EventType): nat {
    if facts == [] then 0
    else Count(facts[..|facts| - 1], t) + (if facts[|facts| - 1].t == t then 1 else 0)
  }

  lemma CountPush(facts: seq<Fact>, f: Fact)
    ensures forall t :: Count(facts + [f], t) == Count(facts, t) + (if f.t == t then 1 else 0)
  {
    assert (facts + [f])[..|facts|] == facts;
  }

  lemma {:induction false} HasCount(facts: seq<Fact>, t: EventType)
    ensures Has(facts, t) <==> Count(facts, t) > 0
  {
    if facts != [] {
      var front := facts[..|facts| - 1];
      HasCount(front, t);
      if Has(front, t) {
        var i :| 0 <= i < |front| && front[i].t == t;
        assert facts[i].t == t;
      }
      if Has(facts, t) && facts[|facts| - 1].t != t {
        var i :| 0 <= i < |facts| && facts[i].t == t;
        assert front[i].t == t;
      }
    }
  }

  lemma CountClose(facts: seq<Fact>, r: Row)
    ensures forall t :: t != CaseClosed ==> Count(CloseCase(facts, r), t) == Count(facts, t)
    ensures facts != [] ==> Shut(CloseCase(facts, r))
  {
    CountPush(facts, FactOf(r, CaseClosed, None, None));
    HasCount(facts, CaseClosed);
  }

  /** The case is closed, by count. */
  predicate Shut(facts: seq<Fact>) { Count(facts, CaseClosed) > 0 }

  // ---------------------------------------------------------------------------------------------
  // The invariant
  // ---------------------------------------------------------------------------------------------

  /** The columns settled once and for all by the notification that moves the bank leg. */
  datatype Core = Core(amount: nat, currency: string, collected: Option<nat>, collectedCurrency: Option<string>,
                       fee: nat)

  function CoreOf(r: Row): Core { Core(r.amount, r.currency, r.collected, r.collectedCurrency, r.fee) }

  predicate Started(r: Row) { r.state.bank != Some(BNotStarted) }

  predicate RowOk(w: World) {
    Filled(w.row.state) && w.row.state.channel == MobileMoney
    && (Started(w.row) <==> w.row.state.provider == Some(PConfirmed))
    && (Started(w.row) ==> w.row.collected.Some?)
    && (w.row.state.refund != Some(FNotRequired) ==> Started(w.row))
    && (w.row.state.provider == Some(PFailed) || w.row.state.reconciliation == Some(RMatched) ==> Shut(w.facts))
  }

  /** The bank leg moves once: by a conforming confirmation, which alone makes an instruction, or by a
      mismatch, which blocks it for good. */
  predicate LegOk(w: World) {
    Count(w.facts, ProviderConfirmed) + Count(w.facts, AmountMismatchDetected) == (if Started(w.row) then 1 else 0)
    && (w.instruction.Some? <==> Count(w.facts, ProviderConfirmed) == 1)
    && (w.row.state.bank == Some(BBlocked) <==> Count(w.facts, AmountMismatchDetected) == 1)
    && (w.instruction.Some? ==> LegsAgree(w.row.collected, w.row.collectedCurrency, w.row))
  }

  predicate HookOk(w: World, h: Hook) {
    h.before.amount == w.row.amount && h.before.currency == w.row.currency && h.note.amount > 0
  }

  /** A snapshot taken after the leg moved: its settled columns are the row's for ever. */
  predicate SnapshotOk(w: World, tx: Row) {
    Started(w.row) && CoreOf(tx) == CoreOf(w.row) && Filled(tx.state) && tx.state.channel == MobileMoney
    && Started(tx) && tx.state.provider == Some(PConfirmed)
  }

  predicate JobOk(c: Config, w: World, j: Job) {
    w.instruction.Some? && j.i.attempts <= c.maxAttempts + w.reclaims
    && SnapshotOk(w, j.tx) && j.tx.state.bank != Some(BBlocked)
    && (!j.Settled? && !j.Caught? && !j.Unsaved? && j.tx.state.reconciliation == Some(RMatched) ==> Shut(w.facts))
    && (j.Applied? ==> j.tx.state.bank == Some(BCompleted))
    && (w.row.state.bank == Some(BProcessing) ==>
          !j.Applied? && !j.Settled? && !j.Unsaved? && (j.Claimed? ==> j.tx.state.bank == Some(BProcessing)))
  }

  /** A leg in progress has its instruction, waiting or claimed. */
  predicate QueueOk(c: Config, w: World) {
    (w.row.state.bank == Some(BProcessing) ==>
       w.instruction.Some? && w.instruction.value.status in {IPending, IInFlight})
    && (w.instruction.Some? ==>
          w.instruction.value.attempts <= c.maxAttempts + w.reclaims
          && (w.instruction.value.status == IPending ==> w.instruction.value.attempts < c.maxAttempts))
  }

  predicate RecOk(w: World, e: Row) {
    SnapshotOk(w, e) && w.instruction.Some? && e.state.bank == Some(BCompleted)
    && w.row.state.bank != Some(BProcessing)
  }

  predicate FileOk(w: World, f: RefundFile) {
    w.refund.Some? && f.key == w.refund.value.key && f.amount == w.refund.value.amount
  }

  predicate TryOk(w: World, t: Try) {
    (!t.Opened? ==> FileOk(w, t.file))
    && (!t.Found? ==> SnapshotOk(w, t.tx))
  }

  /** Nothing is paid but the collected amount, under the one key of the file. */
  predicate MoneyOk(w: World) {
    (w.refund.Some? ==> Started(w.row) && w.row.collected == Some(w.refund.value.amount))
    && (forall k :: k in w.paid ==> w.refund.Some? && k == w.refund.value.key && w.paid[k] == w.refund.value.amount)
  }

  ghost predicate Inv(c: Config, w: World) {
    RowOk(w) && LegOk(w) && QueueOk(c, w) && MoneyOk(w)
    && (forall p :: p in w.hooks ==> HookOk(w, w.hooks[p]))
    && (forall k :: k in w.jobs ==> JobOk(c, w, w.jobs[k]))
    && (forall p :: p in w.recs ==> RecOk(w, w.recs[p]))
    && (forall p :: p in w.tries ==> TryOk(w, w.tries[p]))
  }

  lemma StartInv(c: Config, amount: nat, currency: string, now: nat)
    requires ValidConfig(c)
    ensures Inv(c, Start(amount, currency, now))
  {
    var w := Start(amount, currency, now);
    CountPush([], w.facts[0]);
    assert w.facts == [] + [w.facts[0]];
  }

  // ---------------------------------------------------------------------------------------------
  // What a step may do to the memory of the others
  // ---------------------------------------------------------------------------------------------

  /** A change of the tables that no handler's memory contradicts. */
  predicate Frame(w: World, v: World) {
    v.row.amount == w.row.amount && v.row.currency == w.row.currency
    && (Started(w.row) ==>
          Started(v.row) && CoreOf(v.row) == CoreOf(w.row)
          && (v.row.state.bank == Some(BProcessing) ==> w.row.state.bank == Some(BProcessing)))
    && (w.instruction.Some? ==> v.instruction.Some?)
    && (w.refund.Some? ==> FileOk(v, w.refund.value))
    && w.reclaims <= v.reclaims
    && (Shut(w.facts) ==> Shut(v.facts))
  }

  ghost predicate TablesOk(c: Config, w: World) { RowOk(w) && LegOk(w) && QueueOk(c, w) && MoneyOk(w) }

  /** Every handler of `v` is one of `w`, or is as the invariant wants it. */
  ghost predicate MemoryFrom(c: Config, w: World, v: World) {
    (forall p :: p in v.hooks ==> (p in w.hooks && w.hooks[p] == v.hooks[p]) || HookOk(v, v.hooks[p]))
    && (forall k :: k in v.jobs ==> (k in w.jobs && w.jobs[k] == v.jobs[k]) || JobOk(c, v, v.jobs[k]))
    && (forall p :: p in v.recs ==> (p in w.recs && w.recs[p] == v.recs[p]) || RecOk(v, v.recs[p]))
    && (forall p :: p in v.tries ==> (p in w.tries && w.tries[p] == v.tries[p]) || TryOk(v, v.tries[p]))
  }

  lemma FrameJob(c: Config, w: World, v: World, j: Job)
    requires LegOk(w) && Frame(w, v) && JobOk(c, w, j)
    ensures JobOk(c, v, j)
  {
  }

  lemma FrameRec(w: World, v: World, e: Row)
    requires Frame(w, v) && RecOk(w, e)
    ensures RecOk(v, e)
  {
  }

  lemma FrameTry(w: World, v: World, t: Try)
    requires Frame(w, v) && TryOk(w, t)
    ensures TryOk(v, t)
  {
  }

  lemma Assemble(c: Config, w: World, v: World)
    requires Inv(c, w) && Frame(w, v) && TablesOk(c, v) && MemoryFrom(c, w, v)
    ensures Inv(c, v)
  {
    forall p | p in v.hooks ensures HookOk(v, v.hooks[p]) {
      if p in w.hooks && w.hooks[p] == v.hooks[p] {
        assert HookOk(w, w.hooks[p]);
      }
    }
    forall k | k in v.jobs ensures JobOk(c, v, v.jobs[k]) {
      if k in w.jobs && w.jobs[k] == v.jobs[k] {
        FrameJob(c, w, v, w.jobs[k]);
      }
    }
    forall p | p in v.recs ensures RecOk(v, v.recs[p]) {
      if p in w.recs && w.recs[p] == v.recs[p] {
        FrameRec(w, v, w.recs[p]);
      }
    }
    forall p | p in v.tries ensures TryOk(v, v.tries[p]) {
      if p in w.tries && w.tries[p] == v.tries[p] {
        FrameTry(w, v, w.tries[p]);
      }
    }
  }

  /** Facts other than the two that move the bank leg. */
  predicate SameLeg(a: seq<Fact>, b: seq<Fact>) {
    Count(a, ProviderConfirmed) == Count(b, ProviderConfirmed)
    && Count(a, AmountMismatchDetected) == Count(b, AmountMismatchDetected)
    && (Shut(a) ==> Shut(b))
  }

  lemma PushLeg(facts: seq<Fact>, f: Fact)
    requires f.t != ProviderConfirmed && f.t != AmountMismatchDetected
    ensures SameLeg(facts, facts + [f])
  {
    CountPush(facts, f);
  }

  lemma CloseLeg(facts: seq<Fact>, r: Row)
    ensures SameLeg(facts, CloseCase(facts, r)) && (facts != [] ==> Shut(CloseCase(facts, r)))
  {
    CountClose(facts, r);
  }

  /** Rows whose bank leg and settled columns are those of the row. */
  lemma RewriteKeeps(c: Config, w: World, v: World)
    requires Inv(c, w) && MemoryFrom(c, w, v)
    requires RowOk(v) && Frame(w, v) && (Started(v.row) <==> Started(w.row))
    requires (v.row.state.bank == Some(BBlocked) <==> w.row.state.bank == Some(BBlocked))
    requires SameLeg(w.facts, v.facts) && (v.instruction.Some? <==> w.instruction.Some?)
    requires QueueOk(c, v) && MoneyOk(v)
    ensures Inv(c, v)
  {
    assert LegOk(v);
    Assemble(c, w, v);
  }

  // ---------------------------------------------------------------------------------------------
  // Webhooks
  // ---------------------------------------------------------------------------------------------

  predicate CanConfirm(w: World) {
    w.row.state.bank == Some(BNotStarted) && w.row.state.provider in {Some(PInitiated), Some(PPending)}
  }

  lemma ConfirmWrites(c: Config, w: World, v: World, f: Fact)
    requires ValidConfig(c) && Inv(c, w) && CanConfirm(w) && f.t == ProviderConfirmed
    requires v == w.(row := v.row, facts := w.facts + [f], instruction := Some(Instruction(IPending, 0, w.now, w.now)))
    requires v.row.state == w.row.state.(provider := Some(PConfirmed), bank := Some(BProcessing),
                                         status := StProcessing)
    requires v.row.collected.Some?
    requires v.row.amount == w.row.amount && v.row.currency == w.row.currency
    requires LegsAgree(v.row.collected, v.row.collectedCurrency, v.row)
    ensures Inv(c, v)
  {
    CountPush(w.facts, f);
    assert LegOk(v);
    Assemble(c, w, v);
  }

  /** A step that only appends facts about something else than the bank leg. */
  lemma FactsKeep(c: Config, w: World, facts: seq<Fact>)
    requires Inv(c, w) && SameLeg(w.facts, facts)
    ensures Inv(c, w.(facts := facts))
  {
    Assemble(c, w, w.(facts := facts));
  }

  lemma ConfirmKeeps(c: Config, w: World, h: Hook)
    requires ValidConfig(c) && Inv(c, w) && HookOk(w, h)
    requires LegsAgree(Some(h.note.amount), Some(h.note.currency), h.before)
    ensures Inv(c, ConfirmAndClaim(c, w, h.before, h.note))
  {
    var v := ConfirmAndClaim(c, w, h.before, h.note);
    if CanConfirm(w) {
      if v != w {
        ConfirmWrites(c, w, v, FactOf(v.row, ProviderConfirmed, Some(h.note.amount), None));
      }
    } else if v != w {
      CloseLeg(w.facts, w.row);
      FactsKeep(c, w, v.facts);
    }
  }

  lemma MismatchWrites(c: Config, w: World, v: World, f: Fact, g: Fact, h: Fact)
    requires Inv(c, w) && !Started(w.row) && f.t == AmountMismatchDetected
    requires g.t == BankProcessingBlocked && h.t == CaseOpened
    requires v == w.(row := v.row, facts := w.facts + [f] + [g] + [h])
    requires v.row.state.bank == Some(BBlocked) && v.row.state.provider == Some(PConfirmed) && v.row.collected.Some?
    requires Filled(v.row.state) && v.row.state.channel == MobileMoney && v.row.state.reconciliation != Some(RMatched)
    requires v.row.amount == w.row.amount && v.row.currency == w.row.currency
    ensures Inv(c, v)
  {
    CountPush(w.facts, f);
    PushLeg(w.facts + [f], g);
    PushLeg(w.facts + [f] + [g], h);
    assert LegOk(v);
    Assemble(c, w, v);
  }

  lemma MismatchKeeps(c: Config, w: World, h: Hook)
    requires Inv(c, w)
    ensures Inv(c, MarkAmountMismatch(w, h.before, h.note))
  {
    var v := MarkAmountMismatch(w, h.before, h.note);
    if v != w {
      var o := Some(h.note.amount);
      MismatchWrites(c, w, v, FactOf(v.row, AmountMismatchDetected, o, None),
                     FactOf(v.row, BankProcessingBlocked, o, None),
                     FactOf(v.row, CaseOpened, o, None));
    }
  }

  lemma RefusalKeeps(c: Config, w: World, h: Hook)
    requires Inv(c, w)
    ensures Inv(c, MarkProviderFailed(w, h.before, h.note))
  {
    var v := MarkProviderFailed(w, h.before, h.note);
    if v != w {
      var f := FactOf(v.row, ProviderFailed, Some(h.note.amount), None);
      PushLeg(w.facts, f);
      CloseLeg(w.facts + [f], v.row);
      RewriteKeeps(c, w, v);
    }
  }

  lemma NoteKeeps(c: Config, w: World, p: nat)
    requires ValidConfig(c) && Inv(c, w) && p in w.hooks
    ensures Inv(c, Next(c, w, HookApply(p)))
  {
    var h := w.hooks[p];
    var v := ApplyNote(c, w, h);
    if h.note.failed {
      RefusalKeeps(c, w, h);
    } else if LegsAgree(Some(h.note.amount), Some(h.note.currency), h.before) {
      ConfirmKeeps(c, w, h);
    } else {
      MismatchKeeps(c, w, h);
    }
    ForgetHook(c, v, p);
  }

  // ---------------------------------------------------------------------------------------------
  // Steps that touch no table
  // ---------------------------------------------------------------------------------------------

  lemma ForgetHook(c: Config, w: World, p: nat)
    requires Inv(c, w)
    ensures Inv(c, w.(hooks := w.hooks - {p}))
  {
    Assemble(c, w, w.(hooks := w.hooks - {p}));
  }

  lemma ForgetJob(c: Config, w: World, k: nat)
    requires Inv(c, w)
    ensures Inv(c, w.(jobs := w.jobs - {k}))
  {
    Assemble(c, w, w.(jobs := w.jobs - {k}));
  }

  lemma ForgetRec(c: Config, w: World, p: nat)
    requires Inv(c, w)
    ensures Inv(c, w.(recs := w.recs - {p}))
  {
    Assemble(c, w, w.(recs := w.recs - {p}));
  }

  lemma ForgetTry(c: Config, w: World, p: nat)
    requires Inv(c, w)
    ensures Inv(c, w.(tries := w.tries - {p}))
  {
    Assemble(c, w, w.(tries := w.tries - {p}));
  }

  lemma KeepJob(c: Config, w: World, k: nat, j: Job)
    requires Inv(c, w) && JobOk(c, w, j)
    ensures Inv(c, w.(jobs := w.jobs[k := j]))
  {
    var v := w.(jobs := w.jobs[k := j]);
    FrameJob(c, w, v, j);
    Assemble(c, w, v);
  }

  lemma KeepTrail(c: Config, w: World, trail: seq<Mark>)
    requires Inv(c, w)
    ensures Inv(c, w.(trail := trail))
  {
    Assemble(c, w, w.(trail := trail));
  }

  lemma PutTry(c: Config, w: World, p: nat, t: Try)
    requires Inv(c, w) && TryOk(w, t)
    ensures Inv(c, w.(tries := w.tries[p := t]))
  {
    FrameTry(w, w.(tries := w.tries[p := t]), t);
    Assemble(c, w, w.(tries := w.tries[p := t]));
  }

  lemma KeepTry(c: Config, w: World, p: nat, t: Try, trail: seq<Mark>)
    requires Inv(c, w) && TryOk(w, t)
    ensures Inv(c, w.(tries := w.tries[p := t], trail := trail))
  {
    PutTry(c, w, p, t);
    KeepTrail(c, w.(tries := w.tries[p := t]), trail);
  }

  // ---------------------------------------------------------------------------------------------
  // The bank leg
  // ---------------------------------------------------------------------------------------------

  lemma ClaimKeeps(c: Config, w: World, k: nat)
    requires ValidConfig(c) && Inv(c, w) && Claimable(w)
    ensures Inv(c, Claim(w, k))
  {
    var v := Claim(w, k);
    assert QueueOk(c, v);
    assert JobOk(c, v, v.jobs[k]);
    RewriteKeeps(c, w, v);
  }

  lemma CallKeeps(c: Config, w: World, k: nat, reply: Reply)
    requires Inv(c, w) && k in w.jobs && w.jobs[k].Claimed?
    ensures Inv(c, Call(w, k, w.jobs[k], reply))
  {
    var v := Call(w, k, w.jobs[k], reply);
    assert JobOk(c, w, w.jobs[k]);
    KeepJob(c, w, k, v.jobs[k]);
  }

  /** The entity of a worker, its statuses moved to a decided leg, written over the row. */
  lemma EntityWrites(c: Config, w: World, r: Row, facts: seq<Fact>)
    requires Inv(c, w) && w.instruction.Some? && SameLeg(w.facts, facts)
    requires SnapshotOk(w, r) && r.state.bank in {Some(BCompleted), Some(BFailed)}
    requires r.state.reconciliation == Some(RMatched) ==> Shut(facts)
    ensures Inv(c, w.(row := r, facts := facts))
  {
    RewriteKeeps(c, w, w.(row := r, facts := facts));
  }

  lemma FailureLeg(facts: seq<Fact>, r: Row)
    ensures SameLeg(facts, FailureFacts(facts, r))
  {
    PushLeg(facts, FactOf(r, BankProcessingFailed, None, None));
    PushLeg(facts + [FactOf(r, BankProcessingFailed, None, None)], FactOf(r, CaseOpened, None, None));
  }

  lemma BankWrites(c: Config, w: World, k: nat, j: Job, r: Row, facts: seq<Fact>, next: Job)
    requires Inv(c, w) && JobOk(c, w, j) && SameLeg(w.facts, facts) && next.i == j.i
    requires SnapshotOk(w, r) && r.state.bank in {Some(BCompleted), Some(BFailed)}
    requires r.state.reconciliation == Some(RMatched) ==> Shut(facts)
    requires next == Settled(j.i, j.at, r) || next == Applied(j.i, j.at, r)
    requires next.Applied? ==> r.state.bank == Some(BCompleted)
    ensures Inv(c, w.(row := r, facts := facts, jobs := w.jobs[k := next]))
  {
    EntityWrites(c, w, r, facts);
    KeepJob(c, w.(row := r, facts := facts), k, next);
  }

  lemma ApplySuccessKeeps(c: Config, w: World, k: nat, j: Job)
    requires Inv(c, w) && j.Replied? && JobOk(c, w, j)
    ensures var r := SuccessRow(j.tx);
            Inv(c, w.(jobs := w.jobs[k := Caught(j.i, j.at, r)]))
            && Inv(c, w.(row := r, facts := w.facts + [FactOf(r, BankProcessingCompleted, None, None)],
                         jobs := w.jobs[k := Applied(j.i, j.at, r)]))
  {
    var r := SuccessRow(j.tx);
    KeepJob(c, w, k, Caught(j.i, j.at, r));
    PushLeg(w.facts, FactOf(r, BankProcessingCompleted, None, None));
    BankWrites(c, w, k, j, r, w.facts + [FactOf(r, BankProcessingCompleted, None, None)], Applied(j.i, j.at, r));
  }

  lemma ApplyFaultKeeps(c: Config, w: World, k: nat, j: Job)
    requires Inv(c, w) && j.Replied? && JobOk(c, w, j)
    ensures var r := FailureRow(j.tx);
            Inv(c, w.(jobs := w.jobs[k := Caught(j.i, j.at, r)]))
            && Inv(c, w.(row := r, facts := FailureFacts(w.facts, r), jobs := w.jobs[k := Settled(j.i, j.at, r)]))
  {
    var r := FailureRow(j.tx);
    KeepJob(c, w, k, Caught(j.i, j.at, r));
    FailureLeg(w.facts, r);
    BankWrites(c, w, k, j, r, FailureFacts(w.facts, r), Settled(j.i, j.at, r));
  }

  lemma SuccessReplyKeeps(c: Config, w: World, k: nat, j: Job, abort: bool)
    requires Inv(c, w) && j.Replied? && JobOk(c, w, j) && j.reply == Success
    ensures Inv(c, ApplyReply(w, k, j, abort))
  {
    ApplySuccessKeeps(c, w, k, j);
  }

  lemma FaultReplyKeeps(c: Config, w: World, k: nat, j: Job, abort: bool)
    requires Inv(c, w) && j.Replied? && JobOk(c, w, j) && j.reply == Fault
    ensures Inv(c, ApplyReply(w, k, j, abort))
  {
    ApplyFaultKeeps(c, w, k, j);
  }

  lemma ApplyReplyKeeps(c: Config, w: World, k: nat, abort: bool)
    requires Inv(c, w) && k in w.jobs && w.jobs[k].Replied?
    ensures Inv(c, ApplyReply(w, k, w.jobs[k], abort))
  {
    var j := w.jobs[k];
    match j.reply
    case Transport => KeepJob(c, w, k, Caught(j.i, j.at, j.tx));
    case Success => SuccessReplyKeeps(c, w, k, j, abort);
    case Fault => FaultReplyKeeps(c, w, k, j, abort);
  }

  /** Reconciling an entity whose leg is completed: after a guarded confirmation, always MATCHED. */
  lemma ReconcileKeeps(c: Config, w: World, e: Row)
    requires Inv(c, w) && RecOk(w, e)
    ensures var x := Reconcile(w, e);
            x.Some? ==> Inv(c, x.value) && x.value == w.(row := x.value.row, facts := x.value.facts)
                        && (x.value.row == w.row || x.value.row.state.reconciliation == Some(RMatched))
                        && x.value.row.state.bank != Some(BProcessing)
  {
    var r := ReconciledRow(e);
    var f := FactOf(r, ReconciliationMatched, r.collected, None);
    if e.state.reconciliation == Some(RMatched) {
      CloseLeg(w.facts, e);
      FactsKeep(c, w, CloseCase(w.facts, e));
    } else if Legal(e.state, r.state) {
      PushLeg(w.facts, f);
      CloseLeg(w.facts + [f], r);
      EntityWrites(c, w, r, CloseCase(w.facts + [f], r));
    }
  }

  lemma AppliedCaught(c: Config, w: World, k: nat, j: Job)
    requires Inv(c, w) && j.Applied? && JobOk(c, w, j)
    ensures Inv(c, w.(jobs := w.jobs[k := Caught(j.i, j.at, ReconciledRow(j.tx))]))
  {
    KeepJob(c, w, k, Caught(j.i, j.at, ReconciledRow(j.tx)));
  }

  lemma AppliedSettled(c: Config, w: World, k: nat, j: Job)
    requires Inv(c, w) && j.Applied? && JobOk(c, w, j) && Reconcile(w, j.tx).Some?
    ensures var v := Reconcile(w, j.tx).value;
            Inv(c, v.(jobs := v.jobs[k := Settled(j.i, j.at, ReconciledRow(j.tx))]))
  {
    ReconcileKeeps(c, w, j.tx);
    var v, next := Reconcile(w, j.tx).value, Settled(j.i, j.at, ReconciledRow(j.tx));
    assert JobOk(c, v, next);
    KeepJob(c, v, k, next);
  }

  lemma ReconcileAppliedKeeps(c: Config, w: World, k: nat, abort: bool)
    requires Inv(c, w) && k in w.jobs && w.jobs[k].Applied?
    ensures Inv(c, ReconcileApplied(w, k, w.jobs[k], abort))
  {
    var j := w.jobs[k];
    AppliedCaught(c, w, k, j);
    if Reconcile(w, j.tx).Some? {
      AppliedSettled(c, w, k, j);
    }
  }

  lemma SaveCompletedKeeps(c: Config, w: World, k: nat)
    requires Inv(c, w) && k in w.jobs && w.jobs[k].Settled?
    ensures Inv(c, SaveCompleted(w, k, w.jobs[k]))
  {
    assert JobOk(c, w, w.jobs[k]);
    RewriteKeeps(c, w, SaveCompleted(w, k, w.jobs[k]));
  }

  lemma InstructionKeeps(c: Config, w: World, i: Instruction)
    requires Inv(c, w) && w.instruction.Some? && QueueOk(c, w.(instruction := Some(i)))
    ensures Inv(c, w.(instruction := Some(i)))
  {
    RewriteKeeps(c, w, w.(instruction := Some(i)));
  }

  lemma RetryWrites(c: Config, w: World, k: nat, j: Job)
    requires Inv(c, w) && JobOk(c, w, j) && j.i.attempts < c.maxAttempts
    ensures Inv(c, w.(instruction := Some(Delayed(j.i, w.now)), jobs := w.jobs - {k}))
  {
    var i := Delayed(j.i, w.now);
    InstructionKeeps(c, w, i);
    ForgetJob(c, w.(instruction := Some(i)), k);
  }

  lemma DeadLetterWrites(c: Config, w: World, k: nat, j: Job, r: Row)
    requires Inv(c, w) && JobOk(c, w, j) && SnapshotOk(w, r) && r.state.bank == Some(BFailed)
    requires r.state.reconciliation != Some(RMatched)
    ensures Inv(c, w.(row := r, facts := FailureFacts(w.facts, r),
                      instruction := Some(j.i.(status := IDeadLetter, updatedAt := w.now)), jobs := w.jobs - {k}))
  {
    var i := j.i.(status := IDeadLetter, updatedAt := w.now);
    var x := w.(row := r, facts := FailureFacts(w.facts, r));
    FailureLeg(w.facts, r);
    EntityWrites(c, w, r, x.facts);
    InstructionKeeps(c, x, i);
    ForgetJob(c, x.(instruction := Some(i)), k);
  }

  lemma DeadLetterKeeps(c: Config, w: World, k: nat, j: Job)
    requires Inv(c, w) && (j.Caught? || j.Unsaved?) && JobOk(c, w, j) && j.i.attempts >= c.maxAttempts
    ensures Inv(c, SaveCaught(c, w, k, j))
  {
    ForgetJob(c, w, k);
    DeadLetterWrites(c, w, k, j, FailureRow(j.tx));
  }

  lemma SaveCaughtKeeps(c: Config, w: World, k: nat)
    requires Inv(c, w) && k in w.jobs && (w.jobs[k].Caught? || w.jobs[k].Unsaved?)
    ensures Inv(c, SaveCaught(c, w, k, w.jobs[k]))
  {
    var j := w.jobs[k];
    assert JobOk(c, w, j);
    if j.i.attempts < c.maxAttempts {
      RetryWrites(c, w, k, j);
    } else {
      DeadLetterKeeps(c, w, k, j);
    }
  }

  // ---------------------------------------------------------------------------------------------
  // Refunds and treasury
  // ---------------------------------------------------------------------------------------------

  lemma FileKeeps(c: Config, w: World, file: RefundFile)
    requires Inv(c, w) && (w.refund.None? || w.refund.value == file)
    requires Started(w.row) && w.row.collected == Some(file.amount)
    ensures Inv(c, w.(refund := Some(file)))
  {
    RewriteKeeps(c, w, w.(refund := Some(file)));
  }

  lemma FindKeeps(c: Config, w: World, p: nat, key: nat)
    requires Inv(c, w) && p in w.tries && w.tries[p].Opened? && w.tries[p].tx.collected.Some?
    ensures Inv(c, FindOrCreate(w, p, w.tries[p], key))
  {
    var t := w.tries[p];
    assert TryOk(w, t);
    var file := FindOrCreate(w, p, t, key).refund.value;
    var x := w.(refund := Some(file));
    FileKeeps(c, w, file);
    CloseLeg(w.facts, t.tx);
    FactsKeep(c, x, CloseCase(w.facts, t.tx));
    ForgetTry(c, x.(facts := CloseCase(w.facts, t.tx)), p);
    KeepTry(c, x, p, Loaded(file, t.tx, t.actor, t.actor.Some?), x.trail);
  }

  /** What a synchronisation writes: the refund and case columns of the row, and nothing else. */
  lemma SyncShape(w: World, tx: Row, status: RefundStatus, resolve: bool)
    requires RowOk(w)
    ensures var x := Sync(w, tx, status, resolve); x.Some? ==> Refunded(w.row, x.value)
  {
  }

  predicate Refunded(a: Row, b: Row) {
    b == a.(state := a.state.(refund := b.state.refund, case_ := b.state.case_))
    && b.state.refund.Some? && b.state.case_.Some?
  }

  /** The refund columns and the refund file written together. */
  lemma RefundWrites(c: Config, w: World, r: Row, file: RefundFile, facts: seq<Fact>)
    requires Inv(c, w) && FileOk(w, file) && Started(w.row) && Refunded(w.row, r) && SameLeg(w.facts, facts)
    ensures Inv(c, w.(row := r, refund := Some(file), facts := facts))
  {
    RewriteKeeps(c, w, w.(row := r, refund := Some(file), facts := facts));
  }

  /** The same, by an attempt that goes on as t. */
  lemma RefundGoesOn(c: Config, w: World, p: nat, r: Row, file: RefundFile, facts: seq<Fact>, t: Try, trail: seq<Mark>)
    requires Inv(c, w) && FileOk(w, file) && Refunded(w.row, r) && SameLeg(w.facts, facts)
    requires t.InFlight? && t.file == file && SnapshotOk(w, t.tx)
    ensures Inv(c, w.(row := r, refund := Some(file), facts := facts, tries := w.tries[p := t], trail := trail))
  {
    RefundWrites(c, w, r, file, facts);
    KeepTry(c, w.(row := r, refund := Some(file), facts := facts), p, t, trail);
  }

  /** The same, by an attempt that ends. */
  lemma RefundEnds(c: Config, w: World, p: nat, r: Row, file: RefundFile, facts: seq<Fact>, trail: seq<Mark>)
    requires Inv(c, w) && FileOk(w, file) && Started(w.row) && Refunded(w.row, r) && SameLeg(w.facts, facts)
    ensures Inv(c, w.(row := r, refund := Some(file), facts := facts, tries := w.tries - {p}, trail := trail))
  {
    var x := w.(row := r, refund := Some(file), facts := facts);
    RefundWrites(c, w, r, file, facts);
    Assemble(c, x, x.(tries := w.tries - {p}, trail := trail));
  }

  lemma StartAttemptKeeps(c: Config, w: World, p: nat)
    requires Inv(c, w) && p in w.tries && w.tries[p].Loaded?
    ensures Inv(c, StartAttempt(w, p, w.tries[p]))
  {
    var t := w.tries[p];
    assert TryOk(w, t);
    var v := StartAttempt(w, p, t);
    if p in v.tries {
      SyncShape(w, t.tx, FRequested, false);
      PushLeg(w.facts, FactOf(v.row, RefundRequested, Some(v.refund.value.amount), t.actor));
      RefundGoesOn(c, w, p, v.row, v.refund.value, v.facts, v.tries[p], v.trail);
    } else {
      ForgetTry(c, w, p);
    }
  }

  lemma CallProviderKeeps(c: Config, w: World, p: nat, o: Outcome)
    requires Inv(c, w) && p in w.tries && w.tries[p].InFlight?
    ensures Inv(c, CallProvider(w, p, w.tries[p], o))
  {
    var t := w.tries[p];
    assert TryOk(w, t);
    var v := CallProvider(w, p, t, o);
    var x := w.(paid := v.paid);
    RewriteKeeps(c, w, x);
    KeepTry(c, x, p, v.tries[p], v.trail);
  }

  lemma RecordSuccessKeeps(c: Config, w: World, p: nat, rollback: Rollback)
    requires Inv(c, w) && p in w.tries && w.tries[p].Answered?
    ensures Inv(c, RecordSuccess(w, p, w.tries[p], rollback))
  {
    var t := w.tries[p];
    assert TryOk(w, t);
    var v := RecordSuccess(w, p, t, rollback);
    if p in v.tries {
      KeepTry(c, w, p, v.tries[p], w.trail);
    } else {
      SyncShape(w, t.tx, FCompleted, true);
      var f := FactOf(v.row, RefundCompleted, Some(v.refund.value.amount), t.actor);
      PushLeg(w.facts, f);
      CloseLeg(w.facts + [f], v.row);
      RefundEnds(c, w, p, v.row, v.refund.value, v.facts, v.trail);
    }
  }

  lemma RecordFailureKeeps(c: Config, w: World, p: nat)
    requires Inv(c, w) && p in w.tries && w.tries[p].Answered?
    ensures Inv(c, RecordFailure(w, p, w.tries[p]))
  {
    var t := w.tries[p];
    assert TryOk(w, t);
    ForgetTry(c, w, p);
    var x := Sync(w, t.tx, FFailed, false);
    if x.Some? {
      SyncShape(w, t.tx, FFailed, false);
      var file := t.file.(status := FFailed, retryable := t.answer != Rejected);
      var f := FactOf(x.value, RefundFailed, Some(file.amount), t.actor);
      PushLeg(w.facts, f);
      RefundEnds(c, w, p, x.value, file, w.facts + [f], if t.answer == Rejected then w.trail + [Refused] else w.trail);
    }
  }

  lemma ReopenKeeps(c: Config, w: World, who: Option<string>)
    requires Inv(c, w) && CanReopen(w, who)
    ensures Inv(c, Reopen(w, who))
  {
    var f := FactOf(w.row, RefundReopened, Some(w.refund.value.amount), who);
    PushLeg(w.facts, f);
    RewriteKeeps(c, w, Reopen(w, who));
  }

  lemma SweepKeeps(c: Config, w: World)
    requires Inv(c, w) && Sweepable(w)
    ensures Inv(c, Sweep(w))
  {
    PushLeg(w.facts, FactOf(w.row, SettlementSwept, w.row.collected, None));
    FactsKeep(c, w, Sweep(w).facts);
  }

  // ---------------------------------------------------------------------------------------------
  // Readings
  // ---------------------------------------------------------------------------------------------

  lemma TickKeeps(c: Config, w: World, d: nat)
    requires Inv(c, w)
    ensures Inv(c, Advance(w, d))
  {
    Assemble(c, w, Advance(w, d));
  }

  lemma HookReadKeeps(c: Config, w: World, p: nat, note: Note)
    requires Inv(c, w) && note.amount > 0
    ensures Inv(c, w.(hooks := w.hooks[p := Hook(note, w.row)]))
  {
    Assemble(c, w, w.(hooks := w.hooks[p := Hook(note, w.row)]));
  }

  lemma KeepRec(c: Config, w: World, p: nat, e: Row)
    requires Inv(c, w) && RecOk(w, e)
    ensures Inv(c, w.(recs := w.recs[p := e]))
  {
    Assemble(c, w, w.(recs := w.recs[p := e]));
  }

  lemma RecReadKeeps(c: Config, w: World, p: nat)
    requires Inv(c, w) && Enabled(w, RecRead(p))
    ensures Inv(c, w.(recs := w.recs[p := w.row]))
  {
    assert RecOk(w, w.row);
    KeepRec(c, w, p, w.row);
  }

  lemma RecApplyKeeps(c: Config, w: World, p: nat)
    requires Inv(c, w) && p in w.recs
    ensures Inv(c, ReconcileRead(w, p))
  {
    ReconcileKeeps(c, w, w.recs[p]);
    ForgetRec(c, w, p);
    if Reconcile(w, w.recs[p]).Some? {
      ForgetRec(c, Reconcile(w, w.recs[p]).value, p);
    }
  }

  // ---------------------------------------------------------------------------------------------
  // Every step, every run
  // ---------------------------------------------------------------------------------------------

  lemma WorkerStepKeeps(c: Config, w: World, s: Step)
    requires ValidConfig(c) && Inv(c, w) && Enabled(w, s)
    requires IsWorkerStep(s)
    ensures Inv(c, Next(c, w, s))
  {
    match s
    case WorkerClaim(k) => ClaimKeeps(c, w, k);
    case WorkerCall(k, reply) => CallKeeps(c, w, k, reply);
    case WorkerApply(k, abort) => ApplyReplyKeeps(c, w, k, abort);
    case WorkerReconcile(k, abort) => ReconcileAppliedKeeps(c, w, k, abort);
    case WorkerSave(k) => if w.jobs[k].Settled? { SaveCompletedKeeps(c, w, k); } else { SaveCaughtKeeps(c, w, k); }
    case WorkerSaveFails(k) =>
      assert JobOk(c, w, w.jobs[k]);
      KeepJob(c, w, k, Unsaved(w.jobs[k].i, w.jobs[k].at, w.jobs[k].tx));
    case WorkerCrash(k) => ForgetJob(c, w, k);
  }

  lemma RefundStepKeeps(c: Config, w: World, s: Step)
    requires ValidConfig(c) && Inv(c, w) && Enabled(w, s)
    requires IsRefundStep(s)
    ensures Inv(c, Next(c, w, s))
  {
    match s
    case RefundOpen(p, who) => KeepTry(c, w, p, Opened(w.row, who), w.trail);
    case RefundFind(p, key) => FindKeeps(c, w, p, key);
    case RetryFind(p) => KeepTry(c, w, p, Found(w.refund.value), w.trail);
    case RetryRow(p) =>
      assert TryOk(w, w.tries[p]);
      KeepTry(c, w, p, Loaded(w.tries[p].file, w.row, Some("refund-retry-worker"), false), w.trail);
    case RefundStart(p) => StartAttemptKeeps(c, w, p);
    case RefundCall(p, o) => CallProviderKeeps(c, w, p, o);
    case RefundFinish(p, rollback) =>
      if w.tries[p].answer == Paid { RecordSuccessKeeps(c, w, p, rollback); } else { RecordFailureKeeps(c, w, p); }
    case RefundReopen(who) => ReopenKeeps(c, w, who);
    case RefundCrash(p) => ForgetTry(c, w, p);
  }

  predicate IsWorkerStep(s: Step) {
    s.WorkerClaim? || s.WorkerCall? || s.WorkerApply? || s.WorkerReconcile? || s.WorkerSave?
    || s.WorkerSaveFails? || s.WorkerCrash?
  }

  predicate IsRefundStep(s: Step) {
    s.RefundOpen? || s.RefundFind? || s.RetryFind? || s.RetryRow? || s.RefundStart? || s.RefundCall?
    || s.RefundFinish? || s.RefundReopen? || s.RefundCrash?
  }

  predicate IsHookStep(s: Step) { s.HookRead? || s.HookApply? || s.HookCrash? }

  lemma HookStepKeeps(c: Config, w: World, s: Step)
    requires ValidConfig(c) && Inv(c, w) && Enabled(w, s) && IsHookStep(s)
    ensures Inv(c, Next(c, w, s))
  {
    match s
    case HookRead(p, note) => HookReadKeeps(c, w, p, note);
    case HookApply(p) => NoteKeeps(c, w, p);
    case HookCrash(p) => ForgetHook(c, w, p);
  }

  lemma RecStepKeeps(c: Config, w: World, s: Step)
    requires ValidConfig(c) && Inv(c, w) && Enabled(w, s) && IsRecStep(s)
    ensures Inv(c, Next(c, w, s))
  {
    match s
    case RecRead(p) => RecReadKeeps(c, w, p);
    case RecApply(p) => RecApplyKeeps(c, w, p);
    case RecCrash(p) => ForgetRec(c, w, p);
  }

  predicate IsRecStep(s: Step) { s.RecRead? || s.RecApply? || s.RecCrash? }

  lemma StepKeeps(c: Config, w: World, s: Step)
    requires ValidConfig(c) && Inv(c, w) && Enabled(w, s)
    ensures Inv(c, Next(c, w, s))
  {
    if IsWorkerStep(s) {
      WorkerStepKeeps(c, w, s);
    } else if IsRefundStep(s) {
      RefundStepKeeps(c, w, s);
    } else if IsHookStep(s) {
      HookStepKeeps(c, w, s);
    } else if IsRecStep(s) {
      RecStepKeeps(c, w, s);
    } else if s.Tick? {
      TickKeeps(c, w, s.d);
    } else {
      SweepKeeps(c, w);
    }
  }

  lemma {:induction false} RunKeeps(c: Config, w: World, steps: seq<Step>, rule: Rule)
    requires ValidConfig(c) && Inv(c, w) && Exec(c, w, steps, rule).Some?
    ensures Inv(c, Exec(c, w, steps, rule).value)
    decreases |steps|
  {
    if steps != [] {
      StepKeeps(c, w, steps[0]);
      RunKeeps(c, Next(c, w, steps[0]), steps[1..], rule);
    }
  }

  /** CONFIRMATION IS EXCLUSIVE. In every run, however many notifications, stale readings and expired
      claims it holds, at most one of the conforming confirmation and the mismatch ever commits; the bank
      instruction exists exactly when the conforming one did, and the leg is blocked exactly when the other
      one did. */
  lemma OneDecision(c: Config, amount: nat, currency: string, now: nat, steps: seq<Step>, rule: Rule)
    requires ValidConfig(c) && Exec(c, Start(amount, currency, now), steps, rule).Some?
    ensures var w := Exec(c, Start(amount, currency, now), steps, rule).value;
            Count(w.facts, ProviderConfirmed) + Count(w.facts, AmountMismatchDetected) <= 1
            && (w.instruction.Some? <==> Count(w.facts, ProviderConfirmed) == 1)
            && (w.row.state.bank == Some(BBlocked) <==> Count(w.facts, AmountMismatchDetected) == 1)
  {
    StartInv(c, amount, currency, now);
    RunKeeps(c, Start(amount, currency, now), steps, rule);
  }

  /** NO BANK LEG IS LOST. In every run a leg in progress has its instruction, waiting or claimed; and no
      instruction is attempted more often than the maximum plus the number of expired leases reclaimed. */
  lemma NoLegIsLost(c: Config, amount: nat, currency: string, now: nat, steps: seq<Step>, rule: Rule)
    requires ValidConfig(c) && Exec(c, Start(amount, currency, now), steps, rule).Some?
    ensures var w := Exec(c, Start(amount, currency, now), steps, rule).value;
            (w.row.state.bank == Some(BProcessing) ==>
               w.instruction.Some? && w.instruction.value.status in {IPending, IInFlight})
            && (w.instruction.Some? ==> w.instruction.value.attempts <= c.maxAttempts + w.reclaims)
  {
    StartInv(c, amount, currency, now);
    RunKeeps(c, Start(amount, currency, now), steps, rule);
  }

  /** ONE PAYOUT PER DEBT. In every run, overlapping attempts and lost replies included, the provider has
      paid under at most one key, and exactly the collected amount. */
  lemma OnePayout(c: Config, amount: nat, currency: string, now: nat, steps: seq<Step>, rule: Rule, k: nat, l: nat)
    requires ValidConfig(c) && Exec(c, Start(amount, currency, now), steps, rule).Some?
    requires var paid := Exec(c, Start(amount, currency, now), steps, rule).value.paid; k in paid && l in paid
    ensures var w := Exec(c, Start(amount, currency, now), steps, rule).value;
            k == l && w.row.collected == Some(w.paid[k]) && w.refund.Some? && w.refund.value.key == k
  {
    StartInv(c, amount, currency, now);
    RunKeeps(c, Start(amount, currency, now), steps, rule);
  }

  /** RECONCILIATION AGREES WITH CONFIRMATION. Whenever some handler of a reachable world reconciles the
      entity it holds, the comparison made before the bank was instructed is confirmed: the row it writes
      is MATCHED. */
  lemma ReconciliationAgrees(c: Config, amount: nat, currency: string, now: nat, steps: seq<Step>, rule: Rule, e: Row)
    requires ValidConfig(c) && Exec(c, Start(amount, currency, now), steps, rule).Some?
    requires var w := Exec(c, Start(amount, currency, now), steps, rule).value;
             (exists p :: p in w.recs && w.recs[p] == e)
               || (exists k :: k in w.jobs && w.jobs[k].Applied? && w.jobs[k].tx == e)
    ensures ReconciledRow(e).state.reconciliation == Some(RMatched)
  {
    StartInv(c, amount, currency, now);
    RunKeeps(c, Start(amount, currency, now), steps, rule);
  }
}
