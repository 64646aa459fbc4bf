/** Runs in which every worker acts within its lease: the bank leg is decided once, and every committed row
    is one the six-dimension state machine describes. */
module Leases {
  import opened Basics
  import opened Domain
  import opened StateMachine
  import opened Gateway
  import opened Safety

  /** The one failing save that does harm: its worker has no attempt left, and nothing refuses the dead letter it
      then writes over a leg already decided. */
  predicate DoublesRefusal(c: Config, j: Job) {
    j.Unsaved? && j.i.attempts >= c.maxAttempts && Legal(j.tx.state, FailureRow(j.tx).state)
  }

  /** A worker acts before its lease expires, or not at all; and it does not double a refusal. */
  predicate LeaseStep(c: Config, w: World, s: Step) {
    match s
    case WorkerCall(k, _) => k in w.jobs && Live(w, w.jobs[k])
    case WorkerApply(k, _) => k in w.jobs && Live(w, w.jobs[k])
    case WorkerReconcile(k, _) => k in w.jobs && Live(w, w.jobs[k])
    case WorkerSave(k) => k in w.jobs && Live(w, w.jobs[k]) && !DoublesRefusal(c, w.jobs[k])
    case WorkerSaveFails(k) => k in w.jobs && Live(w, w.jobs[k])
    case _ => true
  }

  function InLease(c: Config): Rule { (w, s) => LeaseStep(c, w, s) }

  predicate Live(w: World, j: Job) { w.now < j.at + LEASE }

  ghost predicate Implies(rule: Rule, other: Rule) { forall w, s :: rule(w, s) ==> other(w, s) }

  // ---------------------------------------------------------------------------------------------
  // The shapes of a row
  // ---------------------------------------------------------------------------------------------

  /** The debt columns: the case is resolved exactly when the refund is completed. */
  predicate Owing(x: State) {
    x.status == StFailed && x.provider == Some(PConfirmed) && x.refund.Some? && x.refund != Some(FNotRequired)
    && x.case_ == Some(if x.refund == Some(FCompleted) then CResolved else CManualReview)
  }

  predicate Calm(x: State) { x.refund == Some(FNotRequired) && x.case_ == Some(CNone) }

  predicate Shape(x: State) {
    x.channel == MobileMoney && x.bank.Some?
    && match x.bank.value
       case BNotStarted =>
         Calm(x) && ((x.status == StPending && x.provider == Some(PPending) && x.reconciliation == Some(RPending))
                     || (x.status == StFailed && x.provider == Some(PFailed)
                         && x.reconciliation == Some(RNotApplicable)))
       case BProcessing =>
         Calm(x) && x.status == StProcessing && x.provider == Some(PConfirmed) && x.reconciliation == Some(RPending)
       case BCompleted =>
         Calm(x) && x.status == StCompleted && x.provider == Some(PConfirmed)
         && x.reconciliation in {Some(RPending), Some(RMatched)}
       case BFailed => Owing(x) && x.reconciliation == Some(RManualReview)
       case BBlocked => Owing(x) && x.reconciliation in {Some(RAmountMismatch), Some(RCurrencyMismatch)}
  }

  /** Every shape satisfies the five invariants of the state machine. */
  lemma ShapeIsSound(x: State)
    requires Shape(x)
    ensures Sound(x) && Filled(x)
  {
    forall i ensures Holds(i, x) {
    }
  }

  // ---------------------------------------------------------------------------------------------
  // The invariant
  // ---------------------------------------------------------------------------------------------

  /** Each of the two bank facts is posted once, when the leg is in the state it announces. */
  predicate DecidedOnce(w: World) {
    Count(w.facts, BankProcessingCompleted) == (if w.row.state.bank == Some(BCompleted) then 1 else 0)
    && Count(w.facts, BankProcessingFailed) == (if w.row.state.bank == Some(BFailed) then 1 else 0)
  }

  /** An abandoned instruction has left a failed leg and an open case. */
  predicate LetterOk(w: World) {
    w.instruction.Some? && w.instruction.value.status == IDeadLetter ==>
      w.row.state.bank == Some(BFailed) && Count(w.facts, CaseOpened) >= 1
  }

  predicate Owed(r: Row) { r.state.refund != Some(FNotRequired) }

  predicate RefundOk(w: World) { w.refund.Some? ==> Owed(w.row) }

  predicate BankIs(r: Row, b: BankStatus) { r.state.bank == Some(b) }

  /** What a worker within its lease holds. */
  predicate LiveOk(w: World, j: Job) {
    Live(w, j) ==>
      w.instruction == Some(j.i) && j.i.status == IInFlight && j.i.updatedAt == j.at
      && match j
         case Claimed(_, _, tx) =>
           w.row == tx || (w.row.state.bank == tx.state.bank && !BankIs(tx, BProcessing))
         case Replied(_, _, tx, _) => w.row == tx && BankIs(tx, BProcessing)
         case Applied(_, _, tx) => RecLive(w, tx)
         case Settled(_, _, _) => !BankIs(w.row, BProcessing)
         case Unsaved(_, _, _) => !BankIs(w.row, BProcessing)
         case Caught(_, _, tx) =>
           (BankIs(w.row, BProcessing) && (tx == w.row || tx == SuccessRow(w.row) || tx == FailureRow(w.row)))
           || (BankIs(w.row, BCompleted) && BankIs(tx, BCompleted))
  }

  predicate Alone(w: World, k: nat, l: nat)
    requires k in w.jobs && l in w.jobs
  {
    Live(w, w.jobs[k]) && Live(w, w.jobs[l]) ==> k == l
  }

  /** An entity about to be reconciled: a completed leg, as it was before anybody reconciled it. */
  predicate RecLive(w: World, e: Row) {
    BankIs(w.row, BCompleted) && Shape(e.state) && e.state.reconciliation == Some(RPending)
  }

  predicate TablesLease(w: World) { Shape(w.row.state) && DecidedOnce(w) && LetterOk(w) && RefundOk(w) }

  ghost predicate LeaseInv(w: World) {
    TablesLease(w)
    && (forall k :: k in w.jobs ==> LiveOk(w, w.jobs[k]))
    && (forall k, l :: k in w.jobs && l in w.jobs ==> Alone(w, k, l))
    && (forall p :: p in w.recs ==> RecLive(w, w.recs[p]))
    && (forall p :: p in w.tries ==> Owed(w.row))
  }

  lemma StartLease(amount: nat, currency: string, now: nat)
    ensures LeaseInv(Start(amount, currency, now))
  {
    var w := Start(amount, currency, now);
    CountPush([], w.facts[0]);
    assert w.facts == [] + [w.facts[0]];
  }

  // ---------------------------------------------------------------------------------------------
  // Steps that leave the bank leg where it is
  // ---------------------------------------------------------------------------------------------

  /** The instruction is untouched, and so is a leg in progress. */
  predicate Still(w: World, v: World) {
    w.now <= v.now && v.instruction == w.instruction
    && (v.row == w.row || (v.row.state.bank == w.row.state.bank && !BankIs(w.row, BProcessing)))
    && (Owed(w.row) ==> Owed(v.row))
  }

  lemma StillLive(w: World, v: World, j: Job)
    requires Still(w, v) && LiveOk(w, j)
    ensures LiveOk(v, j)
  {
  }

  lemma StillKeeps(w: World, v: World)
    requires LeaseInv(w) && Still(w, v) && TablesLease(v)
    requires forall k :: k in v.jobs ==> k in w.jobs && v.jobs[k].at == w.jobs[k].at
    requires forall k :: k in v.jobs ==> v.jobs[k] == w.jobs[k] || LiveOk(v, v.jobs[k])
    requires forall p :: p in v.recs ==> (p in w.recs && v.recs[p] == w.recs[p]) || RecLive(v, v.recs[p])
    requires forall p :: p in v.tries ==> p in w.tries || Owed(v.row)
    ensures LeaseInv(v)
  {
    forall k | k in v.jobs ensures LiveOk(v, v.jobs[k]) {
      if v.jobs[k] == w.jobs[k] {
        StillLive(w, v, w.jobs[k]);
      }
    }
    forall k, l | k in v.jobs && l in v.jobs ensures Alone(v, k, l) {
      assert Alone(w, k, l);
    }
  }

  /** Facts that say nothing of the bank leg. */
  predicate SameBank(a: seq<Fact>, b: seq<Fact>) {
    Count(a, BankProcessingCompleted) == Count(b, BankProcessingCompleted)
    && Count(a, BankProcessingFailed) == Count(b, BankProcessingFailed)
    && Count(a, CaseOpened) <= Count(b, CaseOpened)
  }

  lemma PushBank(facts: seq<Fact>, f: Fact)
    requires f.t != BankProcessingCompleted && f.t != BankProcessingFailed
    ensures SameBank(facts, facts + [f])
  {
    CountPush(facts, f);
  }

  lemma CloseBank(facts: seq<Fact>, r: Row)
    ensures SameBank(facts, CloseCase(facts, r))
  {
    CountClose(facts, r);
  }

  /** The row keeps its bank status; other columns, facts and refund file may change. */
  lemma TablesKeep(w: World, v: World)
    requires TablesLease(w) && v.row.state.bank == w.row.state.bank && Shape(v.row.state) && RefundOk(v)
    requires SameBank(w.facts, v.facts) && v.instruction == w.instruction
    ensures TablesLease(v)
  {
  }

  lemma FactsLease(w: World, facts: seq<Fact>)
    requires LeaseInv(w) && SameBank(w.facts, facts)
    ensures LeaseInv(w.(facts := facts))
  {
    TablesKeep(w, w.(facts := facts));
    StillKeeps(w, w.(facts := facts));
  }

  // ---------------------------------------------------------------------------------------------
  // Webhooks
  // ---------------------------------------------------------------------------------------------

  /** Before the bank leg moves nobody else works on the transaction. */
  lemma NobodyBefore(c: Config, w: World)
    requires Inv(c, w) && !Started(w.row)
    ensures w.instruction.None? && w.refund.None?
    ensures (forall k :: k !in w.jobs) && (forall p :: p !in w.recs) && (forall p :: p !in w.tries)
  {
  }

  lemma FirstMove(c: Config, w: World, v: World)
    requires Inv(c, w) && !Started(w.row) && Shape(v.row.state)
    requires v.jobs == w.jobs && v.recs == w.recs && v.tries == w.tries && v.refund == w.refund
    requires v.row.state.bank in {Some(BNotStarted), Some(BProcessing), Some(BBlocked)}
    requires SameBank(w.facts, v.facts) && (v.instruction.Some? ==> v.instruction.value.status != IDeadLetter)
    requires LeaseInv(w)
    ensures LeaseInv(v)
  {
    NobodyBefore(c, w);
  }

  lemma ConfirmLease(c: Config, w: World, h: Hook)
    requires ValidConfig(c) && Inv(c, w) && LeaseInv(w)
    ensures LeaseInv(ConfirmAndClaim(c, w, h.before, h.note))
  {
    var v := ConfirmAndClaim(c, w, h.before, h.note);
    if CanConfirm(w) {
      if v != w {
        PushBank(w.facts, FactOf(v.row, ProviderConfirmed, Some(h.note.amount), None));
        FirstMove(c, w, v);
      }
    } else if v != w {
      CloseBank(w.facts, w.row);
      FactsLease(w, v.facts);
    }
  }

  lemma MismatchLease(c: Config, w: World, h: Hook)
    requires Inv(c, w) && LeaseInv(w)
    ensures LeaseInv(MarkAmountMismatch(w, h.before, h.note))
  {
    var v := MarkAmountMismatch(w, h.before, h.note);
    if v != w {
      var o := Some(h.note.amount);
      var f, g := FactOf(v.row, AmountMismatchDetected, o, None), FactOf(v.row, BankProcessingBlocked, o, None);
      PushBank(w.facts, f);
      PushBank(w.facts + [f], g);
      PushBank(w.facts + [f] + [g], FactOf(v.row, CaseOpened, o, None));
      FirstMove(c, w, v);
    }
  }

  lemma RefusalLease(c: Config, w: World, h: Hook)
    requires Inv(c, w) && LeaseInv(w)
    ensures LeaseInv(MarkProviderFailed(w, h.before, h.note))
  {
    var v := MarkProviderFailed(w, h.before, h.note);
    if v != w {
      var f := FactOf(v.row, ProviderFailed, Some(h.note.amount), None);
      PushBank(w.facts, f);
      CloseBank(w.facts + [f], v.row);
      FirstMove(c, w, v);
    }
  }

  lemma HooksLease(w: World, hooks: map<nat, Hook>)
    requires LeaseInv(w)
    ensures LeaseInv(w.(hooks := hooks))
  {
    StillKeeps(w, w.(hooks := hooks));
  }

  lemma NoteLease(c: Config, w: World, p: nat)
    requires ValidConfig(c) && Inv(c, w) && LeaseInv(w) && p in w.hooks
    ensures LeaseInv(Next(c, w, HookApply(p)))
  {
    var h := w.hooks[p];
    var v := ApplyNote(c, w, h);
    if h.note.failed {
      RefusalLease(c, w, h);
    } else if LegsAgree(Some(h.note.amount), Some(h.note.currency), h.before) {
      ConfirmLease(c, w, h);
    } else {
      MismatchLease(c, w, h);
    }
    HooksLease(v, v.hooks - {p});
  }

  // ---------------------------------------------------------------------------------------------
  // The bank leg
  // ---------------------------------------------------------------------------------------------

  /** Nobody is within its lease when an instruction can be claimed. */
  lemma NobodyLive(w: World, k: nat)
    requires LeaseInv(w) && Claimable(w) && k in w.jobs
    ensures !Live(w, w.jobs[k])
  {
    assert LiveOk(w, w.jobs[k]);
  }

  lemma ClaimLease(w: World, k: nat)
    requires LeaseInv(w) && Claimable(w) && k !in w.jobs
    ensures LeaseInv(Claim(w, k))
  {
    var v := Claim(w, k);
    forall l | l in v.jobs ensures LiveOk(v, v.jobs[l]) && (l != k ==> !Live(v, v.jobs[l])) {
      if l != k {
        NobodyLive(w, l);
      }
    }
    assert TablesLease(v);
  }

  /** A worker within its lease moves on without touching the tables. */
  lemma JobLease(w: World, k: nat, j: Job)
    requires LeaseInv(w) && k in w.jobs && j.at == w.jobs[k].at && LiveOk(w, j)
    ensures LeaseInv(w.(jobs := w.jobs[k := j]))
  {
    var v := w.(jobs := w.jobs[k := j]);
    StillLive(w, v, j);
    StillKeeps(w, v);
  }

  lemma CallLease(c: Config, w: World, k: nat, reply: Reply)
    requires LeaseInv(w) && k in w.jobs && w.jobs[k].Claimed? && JobOk(c, w, w.jobs[k])
    ensures LeaseInv(Call(w, k, w.jobs[k], reply))
  {
    var j := w.jobs[k];
    assert LiveOk(w, j);
    JobLease(w, k, Call(w, k, j, reply).jobs[k]);
  }

  /** The worker within its lease writes the instruction, or decides a leg in progress. */
  lemma WorkerWrites(w: World, v: World, k: nat)
    requires LeaseInv(w) && k in w.jobs && Live(w, w.jobs[k]) && v.now == w.now
    requires TablesLease(v) && v.recs == w.recs && v.tries == w.tries && (v.row == w.row || BankIs(w.row, BProcessing))
    requires forall l :: l in v.jobs && l != k ==> l in w.jobs && v.jobs[l] == w.jobs[l]
    requires k in v.jobs ==> v.jobs[k].at == w.jobs[k].at && LiveOk(v, v.jobs[k])
    ensures LeaseInv(v)
  {
    forall l | l in v.jobs && l != k ensures !Live(v, v.jobs[l]) {
      assert Alone(w, k, l);
    }
  }

  /** A worker whose transaction was refused or rolled back carries its mutated entity to the catch. */
  lemma CaughtLease(w: World, k: nat, j: Job, tx: Row)
    requires LeaseInv(w) && k in w.jobs && w.jobs[k] == j && j.Replied? && Live(w, j)
    requires tx == j.tx || tx == SuccessRow(j.tx) || tx == FailureRow(j.tx)
    ensures LeaseInv(w.(jobs := w.jobs[k := Caught(j.i, j.at, tx)]))
  {
    assert LiveOk(w, j);
    JobLease(w, k, Caught(j.i, j.at, tx));
  }

  lemma ApplySuccessLease(w: World, k: nat, j: Job)
    requires LeaseInv(w) && k in w.jobs && w.jobs[k] == j && j.Replied? && Live(w, j)
    ensures var r := SuccessRow(j.tx);
            LeaseInv(w.(row := r, facts := w.facts + [FactOf(r, BankProcessingCompleted, None, None)],
                        jobs := w.jobs[k := Applied(j.i, j.at, r)]))
  {
    assert LiveOk(w, j);
    var r := SuccessRow(j.tx);
    var f := FactOf(r, BankProcessingCompleted, None, None);
    CountPush(w.facts, f);
    var v := w.(row := r, facts := w.facts + [f], jobs := w.jobs[k := Applied(j.i, j.at, r)]);
    assert TablesLease(v) && LiveOk(v, v.jobs[k]);
    WorkerWrites(w, v, k);
  }

  lemma FailureCounts(facts: seq<Fact>, r: Row)
    ensures var after := FailureFacts(facts, r);
            Count(after, BankProcessingFailed) == Count(facts, BankProcessingFailed) + 1
            && Count(after, BankProcessingCompleted) == Count(facts, BankProcessingCompleted)
            && Count(after, CaseOpened) == Count(facts, CaseOpened) + 1
  {
    CountPush(facts, FactOf(r, BankProcessingFailed, None, None));
    CountPush(facts + [FactOf(r, BankProcessingFailed, None, None)], FactOf(r, CaseOpened, None, None));
  }

  lemma ApplyFaultLease(w: World, k: nat, j: Job)
    requires LeaseInv(w) && k in w.jobs && w.jobs[k] == j && j.Replied? && Live(w, j)
    ensures var r := FailureRow(j.tx);
            LeaseInv(w.(row := r, facts := FailureFacts(w.facts, r), jobs := w.jobs[k := Settled(j.i, j.at, r)]))
  {
    assert LiveOk(w, j);
    var r := FailureRow(j.tx);
    FailureCounts(w.facts, r);
    var v := w.(row := r, facts := FailureFacts(w.facts, r), jobs := w.jobs[k := Settled(j.i, j.at, r)]);
    assert TablesLease(v) && LiveOk(v, v.jobs[k]);
    WorkerWrites(w, v, k);
  }

  lemma SuccessReplyLease(w: World, k: nat, j: Job, abort: bool)
    requires LeaseInv(w) && k in w.jobs && w.jobs[k] == j && j.Replied? && Live(w, j) && j.reply == Success
    ensures LeaseInv(ApplyReply(w, k, j, abort))
  {
    CaughtLease(w, k, j, SuccessRow(j.tx));
    ApplySuccessLease(w, k, j);
  }

  lemma FaultReplyLease(w: World, k: nat, j: Job, abort: bool)
    requires LeaseInv(w) && k in w.jobs && w.jobs[k] == j && j.Replied? && Live(w, j) && j.reply == Fault
    ensures LeaseInv(ApplyReply(w, k, j, abort))
  {
    CaughtLease(w, k, j, FailureRow(j.tx));
    ApplyFaultLease(w, k, j);
  }

  lemma ApplyReplyLease(w: World, k: nat, abort: bool)
    requires LeaseInv(w) && k in w.jobs && w.jobs[k].Replied? && Live(w, w.jobs[k])
    ensures LeaseInv(ApplyReply(w, k, w.jobs[k], abort))
  {
    var j := w.jobs[k];
    match j.reply
    case Transport => CaughtLease(w, k, j, j.tx);
    case Success => SuccessReplyLease(w, k, j, abort);
    case Fault => FaultReplyLease(w, k, j, abort);
  }

  /** Reconciling, whoever does it and however late, moves a completed leg to MATCHED and nothing else. */
  lemma ReconcileLease(w: World, e: Row)
    requires LegOk(w) && LeaseInv(w) && RecOk(w, e) && RecLive(w, e)
    ensures var x := Reconcile(w, e);
            x.Some? ==> LeaseInv(x.value) && BankIs(x.value.row, BCompleted)
                        && x.value == w.(row := x.value.row, facts := x.value.facts)
                        && (x.value.row == w.row
                            || x.value.row == w.row.(state := w.row.state.(reconciliation := Some(RMatched))))
  {
    var r := ReconciledRow(e);
    var f := FactOf(r, ReconciliationMatched, r.collected, None);
    if Legal(e.state, r.state) {
      PushBank(w.facts, f);
      CloseBank(w.facts + [f], r);
      var v := w.(row := r, facts := CloseCase(w.facts + [f], r));
      TablesKeep(w, v);
      StillKeeps(w, v);
    }
  }

  lemma AppliedCaughtLease(w: World, k: nat, j: Job)
    requires LeaseInv(w) && k in w.jobs && w.jobs[k] == j && j.Applied? && Live(w, j) && BankIs(j.tx, BCompleted)
    ensures LeaseInv(w.(jobs := w.jobs[k := Caught(j.i, j.at, ReconciledRow(j.tx))]))
  {
    assert LiveOk(w, j);
    JobLease(w, k, Caught(j.i, j.at, ReconciledRow(j.tx)));
  }

  lemma AppliedSettledLease(w: World, k: nat, j: Job)
    requires LegOk(w) && LeaseInv(w) && k in w.jobs && w.jobs[k] == j && j.Applied? && Live(w, j)
    requires RecOk(w, j.tx) && Reconcile(w, j.tx).Some?
    ensures var v := Reconcile(w, j.tx).value;
            LeaseInv(v.(jobs := v.jobs[k := Settled(j.i, j.at, ReconciledRow(j.tx))]))
  {
    assert LiveOk(w, j);
    ReconcileLease(w, j.tx);
    JobLease(Reconcile(w, j.tx).value, k, Settled(j.i, j.at, ReconciledRow(j.tx)));
  }

  lemma ReconcileAppliedLease(c: Config, w: World, k: nat, abort: bool)
    requires LegOk(w) && LeaseInv(w) && k in w.jobs && w.jobs[k].Applied? && Live(w, w.jobs[k])
    requires JobOk(c, w, w.jobs[k])
    ensures LeaseInv(ReconcileApplied(w, k, w.jobs[k], abort))
  {
    var j := w.jobs[k];
    AppliedCaughtLease(w, k, j);
    if Reconcile(w, j.tx).Some? {
      AppliedSettledLease(w, k, j);
    }
  }

  lemma SaveCompletedLease(w: World, k: nat)
    requires LeaseInv(w) && k in w.jobs && w.jobs[k].Settled? && Live(w, w.jobs[k])
    ensures LeaseInv(SaveCompleted(w, k, w.jobs[k]))
  {
    WorkerWrites(w, SaveCompleted(w, k, w.jobs[k]), k);
  }

  lemma CompletedStays(x: State, y: State)
    requires x.bank == Some(BCompleted) && y.bank == Some(BFailed)
    ensures !Legal(x, y)
  {
    assert !Moves(x, y, DBank);
  }

  lemma ForgetLease(w: World, k: nat)
    requires LeaseInv(w)
    ensures LeaseInv(w.(jobs := w.jobs - {k}))
  {
    StillKeeps(w, w.(jobs := w.jobs - {k}));
  }

  lemma DelayLease(w: World, k: nat, i: Instruction)
    requires LeaseInv(w) && k in w.jobs && Live(w, w.jobs[k]) && i.status == IPending
    ensures LeaseInv(w.(instruction := Some(i), jobs := w.jobs - {k}))
  {
    WorkerWrites(w, w.(instruction := Some(i), jobs := w.jobs - {k}), k);
  }

  lemma DeadLetterLease(w: World, k: nat, i: Instruction)
    requires LeaseInv(w) && k in w.jobs && Live(w, w.jobs[k]) && BankIs(w.row, BProcessing)
    ensures var r := FailureRow(w.row);
            LeaseInv(w.(row := r, facts := FailureFacts(w.facts, r), instruction := Some(i), jobs := w.jobs - {k}))
  {
    var r := FailureRow(w.row);
    FailureCounts(w.facts, r);
    WorkerWrites(w, w.(row := r, facts := FailureFacts(w.facts, r), instruction := Some(i), jobs := w.jobs - {k}), k);
  }

  /** The dead letter of a worker within its lease finds the leg still in progress. */
  lemma SaveCaughtLease(c: Config, w: World, k: nat)
    requires LeaseInv(w) && k in w.jobs && w.jobs[k].Caught? && Live(w, w.jobs[k])
    ensures LeaseInv(SaveCaught(c, w, k, w.jobs[k]))
  {
    var j := w.jobs[k];
    assert LiveOk(w, j);
    if j.i.attempts < c.maxAttempts {
      DelayLease(w, k, Delayed(j.i, w.now));
    } else {
      ForgetLease(w, k);
      if BankIs(j.tx, BCompleted) {
        CompletedStays(j.tx.state, FailureRow(j.tx).state);
      } else {
        assert FailureRow(j.tx) == FailureRow(w.row);
        DeadLetterLease(w, k, j.i.(status := IDeadLetter, updatedAt := w.now));
      }
    }
  }

  lemma SaveFailsLease(w: World, k: nat)
    requires LeaseInv(w) && k in w.jobs && w.jobs[k].Settled?
    ensures LeaseInv(SaveFails(w, k, w.jobs[k]))
  {
    var j := w.jobs[k];
    assert LiveOk(w, j);
    JobLease(w, k, Unsaved(j.i, j.at, j.tx));
  }

  /** A harmless failing save: the instruction is delayed, or left to its lease. */
  lemma SaveUnsavedLease(c: Config, w: World, k: nat)
    requires LeaseInv(w) && k in w.jobs && w.jobs[k].Unsaved? && Live(w, w.jobs[k]) && !DoublesRefusal(c, w.jobs[k])
    ensures LeaseInv(SaveCaught(c, w, k, w.jobs[k]))
  {
    var j := w.jobs[k];
    if j.i.attempts < c.maxAttempts {
      DelayLease(w, k, Delayed(j.i, w.now));
    } else {
      ForgetLease(w, k);
    }
  }

  // ---------------------------------------------------------------------------------------------
  // Refunds
  // ---------------------------------------------------------------------------------------------

  /** A resolved case never reopens its debt: the synchronisation that would is refused. */
  lemma SyncLease(w: World, tx: Row, status: RefundStatus, resolve: bool)
    requires Shape(w.row.state) && Owed(w.row) && status != FNotRequired && (resolve <==> status == FCompleted)
    ensures var x := Sync(w, tx, status, resolve);
            x.Some? ==> Shape(x.value.state) && Owed(x.value) && Refunded(w.row, x.value)
                        && (w.row.state.refund == Some(FCompleted) ==> x.value == w.row)
  {
    var x := Sync(w, tx, status, resolve);
    if x.Some? {
      assert Holds(ResolvedRequiresExtinctDebt, x.value.state);
    }
  }

  /** A step of the refund service: it may write the refund columns, the file, and its own memory. */
  lemma RefundLease(w: World, v: World)
    requires LeaseInv(w) && Owed(w.row) && Shape(v.row.state) && Owed(v.row) && Refunded(w.row, v.row)
    requires SameBank(w.facts, v.facts) && v.instruction == w.instruction && v.jobs == w.jobs && v.recs == w.recs
    requires v.now == w.now
    ensures LeaseInv(v)
  {
    TablesKeep(w, v);
    StillKeeps(w, v);
  }

  lemma FindLease(w: World, p: nat, key: nat)
    requires LeaseInv(w) && p in w.tries && w.tries[p].Opened? && w.tries[p].tx.collected.Some?
    ensures LeaseInv(FindOrCreate(w, p, w.tries[p], key))
  {
    var v := FindOrCreate(w, p, w.tries[p], key);
    CloseBank(w.facts, w.tries[p].tx);
    assert v.row == w.row && v.instruction == w.instruction && v.jobs == w.jobs && v.recs == w.recs && v.now == w.now;
    assert SameBank(w.facts, v.facts) && Owed(w.row);
    RefundLease(w, v);
  }

  lemma StartAttemptLease(w: World, p: nat)
    requires LeaseInv(w) && p in w.tries && w.tries[p].Loaded?
    ensures LeaseInv(StartAttempt(w, p, w.tries[p]))
  {
    var t := w.tries[p];
    var v := StartAttempt(w, p, t);
    SyncLease(w, t.tx, FRequested, false);
    if v.facts != w.facts {
      PushBank(w.facts, FactOf(v.row, RefundRequested, Some(v.refund.value.amount), t.actor));
    }
    RefundLease(w, v);
  }

  lemma RecordSuccessLease(w: World, p: nat, rollback: Rollback)
    requires LeaseInv(w) && p in w.tries && w.tries[p].Answered?
    ensures LeaseInv(RecordSuccess(w, p, w.tries[p], rollback))
  {
    var t := w.tries[p];
    var v := RecordSuccess(w, p, t, rollback);
    SyncLease(w, t.tx, FCompleted, true);
    if p !in v.tries {
      var f := FactOf(v.row, RefundCompleted, Some(v.refund.value.amount), t.actor);
      PushBank(w.facts, f);
      CloseBank(w.facts + [f], v.row);
    }
    RefundLease(w, v);
  }

  lemma RecordFailureLease(w: World, p: nat)
    requires LeaseInv(w) && p in w.tries && w.tries[p].Answered?
    ensures LeaseInv(RecordFailure(w, p, w.tries[p]))
  {
    var t := w.tries[p];
    var v := RecordFailure(w, p, t);
    SyncLease(w, t.tx, FFailed, false);
    if v.facts != w.facts {
      PushBank(w.facts, FactOf(v.row, RefundFailed, Some(v.refund.value.amount), t.actor));
    }
    RefundLease(w, v);
  }

  // ---------------------------------------------------------------------------------------------
  // Every step, every run
  // ---------------------------------------------------------------------------------------------

  lemma WorkerStepLease(c: Config, w: World, s: Step)
    requires ValidConfig(c) && Inv(c, w) && LeaseInv(w) && Enabled(w, s) && LeaseStep(c, w, s) && IsWorkerStep(s)
    ensures LeaseInv(Next(c, w, s))
  {
    match s
    case WorkerClaim(k) => ClaimLease(w, k);
    case WorkerCall(k, reply) => CallLease(c, w, k, reply);
    case WorkerApply(k, abort) => ApplyReplyLease(w, k, abort);
    case WorkerReconcile(k, abort) => ReconcileAppliedLease(c, w, k, abort);
    case WorkerSave(k) =>
      if w.jobs[k].Settled? { SaveCompletedLease(w, k); }
      else if w.jobs[k].Unsaved? { SaveUnsavedLease(c, w, k); }
      else { SaveCaughtLease(c, w, k); }
    case WorkerSaveFails(k) => SaveFailsLease(w, k);
    case WorkerCrash(k) => ForgetLease(w, k);
  }

  lemma RefundStepLease(c: Config, w: World, s: Step)
    requires ValidConfig(c) && LeaseInv(w) && Enabled(w, s)
    requires s.RefundFind? || s.RefundStart? || s.RefundFinish? || s.RefundReopen?
    ensures LeaseInv(Next(c, w, s))
  {
    match s
    case RefundFind(p, key) => FindLease(w, p, key);
    case RefundStart(p) => StartAttemptLease(w, p);
    case RefundFinish(p, rollback) =>
      if w.tries[p].answer == Paid { RecordSuccessLease(w, p, rollback); } else { RecordFailureLease(w, p); }
    case RefundReopen(who) =>
      PushBank(w.facts, FactOf(w.row, RefundReopened, Some(w.refund.value.amount), who));
      RefundLease(w, Next(c, w, s));
  }

  lemma TryStepLease(c: Config, w: World, s: Step)
    requires ValidConfig(c) && LeaseInv(w) && Enabled(w, s)
    requires s.RefundOpen? || s.RetryFind? || s.RetryRow? || s.RefundCall? || s.RefundCrash?
    ensures LeaseInv(Next(c, w, s))
  {
    TriesLease(w, Next(c, w, s));
  }

  lemma TriesLease(w: World, v: World)
    requires LeaseInv(w) && v == w.(tries := v.tries, paid := v.paid, trail := v.trail)
    requires forall p :: p in v.tries ==> p in w.tries || Owed(w.row)
    ensures LeaseInv(v)
  {
    StillKeeps(w, v);
  }

  lemma RecApplyLease(w: World, p: nat)
    requires LegOk(w) && LeaseInv(w) && p in w.recs && RecOk(w, w.recs[p])
    ensures LeaseInv(ReconcileRead(w, p))
  {
    assert RecLive(w, w.recs[p]);
    ReconcileLease(w, w.recs[p]);
    ForgetRecLease(w, p);
    if Reconcile(w, w.recs[p]).Some? {
      ForgetRecLease(Reconcile(w, w.recs[p]).value, p);
    }
  }

  lemma ForgetRecLease(w: World, p: nat)
    requires LeaseInv(w)
    ensures LeaseInv(w.(recs := w.recs - {p}))
  {
    StillKeeps(w, w.(recs := w.recs - {p}));
  }

  lemma RecReadLease(w: World, p: nat)
    requires LeaseInv(w) && Enabled(w, RecRead(p))
    ensures LeaseInv(w.(recs := w.recs[p := w.row]))
  {
    StillKeeps(w, w.(recs := w.recs[p := w.row]));
  }

  lemma TickLease(w: World, d: nat)
    requires LeaseInv(w)
    ensures LeaseInv(Advance(w, d))
  {
    StillKeeps(w, Advance(w, d));
  }

  lemma SweepLease(w: World)
    requires LeaseInv(w) && Sweepable(w)
    ensures LeaseInv(Sweep(w))
  {
    PushBank(w.facts, FactOf(w.row, SettlementSwept, w.row.collected, None));
    FactsLease(w, Sweep(w).facts);
  }

  lemma RecStepLease(c: Config, w: World, s: Step)
    requires ValidConfig(c) && LegOk(w) && LeaseInv(w) && Enabled(w, s) && IsRecStep(s)
    requires forall p :: p in w.recs ==> RecOk(w, w.recs[p])
    ensures LeaseInv(Next(c, w, s))
  {
    match s
    case RecRead(p) => RecReadLease(w, p);
    case RecApply(p) => RecApplyLease(w, p);
    case RecCrash(p) => ForgetRecLease(w, p);
  }

  lemma OtherStepLease(c: Config, w: World, s: Step)
    requires ValidConfig(c) && LeaseInv(w) && Enabled(w, s) && (s.Tick? || s.TreasurySweep?)
    ensures LeaseInv(Next(c, w, s))
  {
    match s
    case Tick(d) => TickLease(w, d);
    case TreasurySweep => SweepLease(w);
  }

  lemma HookStepLease(c: Config, w: World, s: Step)
    requires ValidConfig(c) && Inv(c, w) && LeaseInv(w) && Enabled(w, s) && IsHookStep(s)
    ensures LeaseInv(Next(c, w, s))
  {
    match s
    case HookApply(p) => NoteLease(c, w, p);
    case HookRead(p, note) => HooksLease(w, w.hooks[p := Hook(note, w.row)]);
    case HookCrash(p) => HooksLease(w, w.hooks - {p});
  }

  lemma StepLease(c: Config, w: World, s: Step)
    requires ValidConfig(c) && Inv(c, w) && LeaseInv(w) && Enabled(w, s) && LeaseStep(c, w, s)
    ensures LeaseInv(Next(c, w, s))
  {
    if IsWorkerStep(s) {
      WorkerStepLease(c, w, s);
    } else if s.RefundFind? || s.RefundStart? || s.RefundFinish? || s.RefundReopen? {
      RefundStepLease(c, w, s);
    } else if IsRefundStep(s) {
      TryStepLease(c, w, s);
    } else if IsHookStep(s) {
      HookStepLease(c, w, s);
    } else if IsRecStep(s) {
      RecStepLease(c, w, s);
    } else {
      OtherStepLease(c, w, s);
    }
  }

  lemma {:induction false} RunLease(c: Config, w: World, steps: seq<Step>, rule: Rule)
    requires ValidConfig(c) && Inv(c, w) && LeaseInv(w) && Exec(c, w, steps, rule).Some? && Implies(rule, InLease(c))
    ensures LeaseInv(Exec(c, w, steps, rule).value)
    decreases |steps|
  {
    if steps != [] {
      StepKeeps(c, w, steps[0]);
      StepLease(c, w, steps[0]);
      RunLease(c, Next(c, w, steps[0]), steps[1..], rule);
    }
  }

  /** What a worker about to write within its lease knows of the row. */
  lemma LiveHolds(c: Config, w: World, k: nat)
    requires Inv(c, w) && LeaseInv(w) && k in w.jobs && Live(w, w.jobs[k])
    ensures w.jobs[k].Replied? ==> w.jobs[k].tx == w.row && BankIs(w.row, BProcessing)
    ensures w.jobs[k].Caught? ==>
              BankIs(w.jobs[k].tx, BCompleted)
              || (BankIs(w.row, BProcessing) && (w.jobs[k].tx == w.row || w.jobs[k].tx == FailureRow(w.row)))
    ensures w.jobs[k].Applied? ==> RecOk(w, w.jobs[k].tx) && RecLive(w, w.jobs[k].tx)
  {
    assert LiveOk(w, w.jobs[k]) && JobOk(c, w, w.jobs[k]);
  }

  /** A harmless failing save writes nothing but the instruction. */
  lemma UnsavedQuiet(c: Config, w: World, k: nat, j: Job)
    requires j.Unsaved? && !DoublesRefusal(c, j)
    ensures var v := SaveCaught(c, w, k, j);
            v == w.(instruction := v.instruction, jobs := w.jobs - {k})
  {
  }

  lemma ReachesLease(c: Config, amount: nat, currency: string, now: nat, steps: seq<Step>, rule: Rule)
    requires ValidConfig(c) && Implies(rule, InLease(c)) && Exec(c, Start(amount, currency, now), steps, rule).Some?
    ensures var w := Exec(c, Start(amount, currency, now), steps, rule).value; Inv(c, w) && LeaseInv(w)
  {
    StartInv(c, amount, currency, now);
    StartLease(amount, currency, now);
    RunKeeps(c, Start(amount, currency, now), steps, rule);
    RunLease(c, Start(amount, currency, now), steps, rule);
  }

  /** NO BANK LEG IS DOUBLED. In every run within leases, crashes and rollbacks at any point, at most one of
      the two bank facts is ever posted, and it is the one the row shows; an abandoned instruction has left
      a failed leg, an opened case and a debt. */
  lemma LegDecidedOnce(c: Config, amount: nat, currency: string, now: nat, steps: seq<Step>, rule: Rule)
    requires ValidConfig(c) && Implies(rule, InLease(c)) && Exec(c, Start(amount, currency, now), steps, rule).Some?
    ensures var w := Exec(c, Start(amount, currency, now), steps, rule).value;
            Count(w.facts, BankProcessingCompleted) + Count(w.facts, BankProcessingFailed) <= 1
            && (Count(w.facts, BankProcessingCompleted) == 1 <==> w.row.state.bank == Some(BCompleted))
            && (Count(w.facts, BankProcessingFailed) == 1 <==> w.row.state.bank == Some(BFailed))
            && (w.instruction.Some? && w.instruction.value.status == IDeadLetter ==>
                  w.row.state.bank == Some(BFailed) && Owed(w.row) && Has(w.facts, CaseOpened))
  {
    ReachesLease(c, amount, currency, now, steps, rule);
    HasCount(Exec(c, Start(amount, currency, now), steps, rule).value.facts, CaseOpened);
  }

  // ---------------------------------------------------------------------------------------------
  // The flow refines the state machine
  // ---------------------------------------------------------------------------------------------

  /** A mismatch commits on a payment already refused, its handler having read the row before the refusal. */
  predicate OverRefusal(w: World, s: Step) {
    s.HookApply? && s.p in w.hooks && w.row.state.provider == Some(PFailed)
    && var h := w.hooks[s.p];
       !h.note.failed && !LegsAgree(Some(h.note.amount), Some(h.note.currency), h.before)
       && Legal(h.before.state, MismatchedRow(w.row, h.note).state)
  }

  lemma SameLegal(x: State)
    requires Shape(x)
    ensures Legal(x, x)
  {
    ShapeIsSound(x);
    forall d ensures Moves(x, x, d) {
    }
  }

  lemma SettlementIsLegal(x: State)
    requires Shape(x) && x.bank == Some(BProcessing)
    ensures Legal(x, x.(status := StCompleted, bank := Some(BCompleted)))
  {
    var y := x.(status := StCompleted, bank := Some(BCompleted));
    ShapeIsSound(y);
    forall d ensures Moves(x, y, d) {
    }
  }

  lemma FailureLegal(x: State, y: State)
    requires Shape(x) && x.bank == Some(BProcessing)
    requires y == x.(status := StFailed, bank := Some(BFailed), reconciliation := Some(RManualReview),
                     refund := Some(FRequired), case_ := Some(CManualReview))
    ensures Legal(x, y)
  {
    ShapeIsSound(y);
    forall d ensures Moves(x, y, d) {
    }
  }

  lemma MatchLegal(x: State, y: State)
    requires Shape(x) && x.bank == Some(BCompleted) && y == x.(reconciliation := Some(RMatched))
    ensures Legal(x, y)
  {
    ShapeIsSound(y);
    forall d ensures Moves(x, y, d) {
    }
  }

  lemma RefundLegal(x: State, y: State)
    requires Shape(x) && Shape(y) && x.refund != Some(FNotRequired)
    requires y.refund in {Some(FRequested), Some(FFailed), Some(FCompleted)}
    requires y == x.(refund := y.refund, case_ := y.case_) && (x.refund == Some(FCompleted) ==> y == x)
    ensures Legal(x, y)
  {
    ShapeIsSound(y);
    forall d ensures Moves(x, y, d) {
    }
  }

  lemma ConfirmLegal(x: State, y: State)
    requires Shape(x) && x.bank == Some(BNotStarted) && x.provider == Some(PPending)
    requires y == x.(provider := Some(PConfirmed), bank := Some(BProcessing), status := StProcessing)
    ensures Legal(x, y)
  {
    ShapeIsSound(y);
    forall d ensures Moves(x, y, d) {
    }
  }

  lemma RefusedLegal(x: State, y: State)
    requires Shape(x) && x.bank == Some(BNotStarted)
    requires y == x.(provider := Some(PFailed), status := StFailed, reconciliation := Some(RNotApplicable))
    ensures Legal(x, y)
  {
    ShapeIsSound(y);
    forall d ensures Moves(x, y, d) {
    }
  }

  lemma MismatchIsLegal(x: State, y: State)
    requires Shape(x) && x.bank == Some(BNotStarted) && x.provider == Some(PPending) && Shape(y)
    requires y.bank == Some(BBlocked) && y.refund == Some(FRequired)
    ensures Legal(x, y)
  {
    ShapeIsSound(y);
    forall d ensures Moves(x, y, d) {
    }
  }

  lemma ConfirmedIsNotRefused(x: State, y: State)
    requires x.provider == Some(PFailed) && y.provider == Some(PConfirmed)
    ensures !Legal(x, y)
  {
    assert !Moves(x, y, DProvider);
  }

  predicate LegalStep(w: World, v: World) { Legal(w.row.state, v.row.state) }

  lemma NoteConfirmLegal(c: Config, w: World, h: Hook)
    requires ValidConfig(c) && Shape(w.row.state)
    ensures LegalStep(w, ConfirmAndClaim(c, w, h.before, h.note))
  {
    SameLegal(w.row.state);
    if CanConfirm(w) {
      ConfirmLegal(w.row.state, ConfirmedRow(c, w.row, h.note).state);
    }
  }

  lemma NoteRefusalLegal(w: World, h: Hook)
    requires Shape(w.row.state)
    ensures LegalStep(w, MarkProviderFailed(w, h.before, h.note))
  {
    SameLegal(w.row.state);
    if !Started(w.row) {
      RefusedLegal(w.row.state, RefusedRow(w.row, h.note).state);
    }
  }

  lemma NoteMismatchLegal(w: World, h: Hook)
    requires Shape(w.row.state)
    ensures LegalStep(w, MarkAmountMismatch(w, h.before, h.note))
            <==> !(w.row.state.provider == Some(PFailed) && Legal(h.before.state, MismatchedRow(w.row, h.note).state))
  {
    var r := MismatchedRow(w.row, h.note);
    SameLegal(w.row.state);
    if w.row.state.provider == Some(PFailed) {
      ConfirmedIsNotRefused(w.row.state, r.state);
    } else if !Started(w.row) {
      MismatchIsLegal(w.row.state, r.state);
    }
  }

  lemma NoteLegal(c: Config, w: World, p: nat)
    requires ValidConfig(c) && Shape(w.row.state) && p in w.hooks
    ensures LegalStep(w, ApplyNote(c, w, w.hooks[p])) <==> !OverRefusal(w, HookApply(p))
  {
    var h := w.hooks[p];
    if h.note.failed {
      NoteRefusalLegal(w, h);
    } else if LegsAgree(Some(h.note.amount), Some(h.note.currency), h.before) {
      NoteConfirmLegal(c, w, h);
    } else {
      NoteMismatchLegal(w, h);
    }
  }

  lemma ApplyReplyLegal(w: World, k: nat, abort: bool)
    requires LeaseInv(w) && k in w.jobs && w.jobs[k].Replied? && Live(w, w.jobs[k])
    ensures LegalStep(w, ApplyReply(w, k, w.jobs[k], abort))
  {
    assert LiveOk(w, w.jobs[k]);
    SameLegal(w.row.state);
  }

  lemma SaveCaughtLegal(c: Config, w: World, k: nat)
    requires LeaseInv(w) && k in w.jobs && w.jobs[k].Caught? && Live(w, w.jobs[k])
    ensures LegalStep(w, SaveCaught(c, w, k, w.jobs[k]))
  {
    var j := w.jobs[k];
    assert LiveOk(w, j);
    SameLegal(w.row.state);
    if BankIs(j.tx, BCompleted) {
      CompletedStays(j.tx.state, FailureRow(j.tx).state);
    } else {
      assert FailureRow(j.tx) == FailureRow(w.row);
      FailureLegal(w.row.state, FailureRow(w.row).state);
    }
  }

  lemma ReconcileLegal(w: World, e: Row)
    requires LegOk(w) && LeaseInv(w) && RecOk(w, e) && RecLive(w, e)
    ensures var x := Reconcile(w, e); x.Some? ==> LegalStep(w, x.value)
  {
    ReconcileLease(w, e);
    SameLegal(w.row.state);
    MatchLegal(w.row.state, w.row.state.(reconciliation := Some(RMatched)));
  }

  lemma ReconcileAppliedLegal(c: Config, w: World, k: nat, abort: bool)
    requires LegOk(w) && LeaseInv(w) && k in w.jobs && w.jobs[k].Applied? && Live(w, w.jobs[k])
    requires JobOk(c, w, w.jobs[k])
    ensures LegalStep(w, ReconcileApplied(w, k, w.jobs[k], abort))
  {
    assert LiveOk(w, w.jobs[k]);
    SameLegal(w.row.state);
    ReconcileLegal(w, w.jobs[k].tx);
  }

  lemma SaveLegal(c: Config, w: World, k: nat)
    requires ValidConfig(c) && LeaseInv(w) && Enabled(w, WorkerSave(k)) && LeaseStep(c, w, WorkerSave(k))
    ensures LegalStep(w, Next(c, w, WorkerSave(k)))
  {
    SameLegal(w.row.state);
    if w.jobs[k].Caught? {
      SaveCaughtLegal(c, w, k);
    }
  }

  lemma WorkerStepLegal(c: Config, w: World, s: Step)
    requires ValidConfig(c) && Inv(c, w) && LeaseInv(w) && Enabled(w, s) && LeaseStep(c, w, s) && IsWorkerStep(s)
    ensures LegalStep(w, Next(c, w, s))
  {
    match s
    case WorkerApply(k, abort) => ApplyReplyLegal(w, k, abort);
    case WorkerReconcile(k, abort) => ReconcileAppliedLegal(c, w, k, abort);
    case WorkerSave(k) => SaveLegal(c, w, k);
    case _ => SameLegal(w.row.state);
  }

  lemma RefundStepLegal(c: Config, w: World, s: Step)
    requires ValidConfig(c) && LeaseInv(w) && Enabled(w, s) && IsRefundStep(s)
    ensures LegalStep(w, Next(c, w, s))
  {
    SameLegal(w.row.state);
    if s.RefundStart? {
      SyncLegal(w, w.tries[s.p].tx, FRequested, false);
    } else if s.RefundFinish? {
      FinishLegal(w, s.p, w.tries[s.p], s.rollback);
    }
  }

  lemma FinishLegal(w: World, p: nat, t: Try, rollback: Rollback)
    requires Shape(w.row.state) && Owed(w.row) && t.Answered?
    ensures LegalStep(w, RecordSuccess(w, p, t, rollback)) && LegalStep(w, RecordFailure(w, p, t))
  {
    SameLegal(w.row.state);
    SyncLegal(w, t.tx, FCompleted, true);
    SyncLegal(w, t.tx, FFailed, false);
  }

  lemma SyncLegal(w: World, tx: Row, status: RefundStatus, resolve: bool)
    requires Shape(w.row.state) && Owed(w.row) && status in {FRequested, FFailed, FCompleted}
    requires (resolve <==> status == FCompleted)
    ensures var x := Sync(w, tx, status, resolve); x.Some? ==> Legal(w.row.state, x.value.state)
  {
    var x := Sync(w, tx, status, resolve);
    if x.Some? {
      SyncLease(w, tx, status, resolve);
      RefundLegal(w.row.state, x.value.state);
    }
  }

  lemma StepLegal(c: Config, w: World, s: Step)
    requires ValidConfig(c) && Inv(c, w) && LeaseInv(w) && Enabled(w, s) && LeaseStep(c, w, s)
    ensures LegalStep(w, Next(c, w, s)) <==> !OverRefusal(w, s)
  {
    if IsWorkerStep(s) {
      WorkerStepLegal(c, w, s);
    } else if IsRefundStep(s) {
      RefundStepLegal(c, w, s);
    } else if s.HookApply? {
      NoteLegal(c, w, s.p);
    } else if s.RecApply? {
      SameLegal(w.row.state);
      ReconcileLegal(w, w.recs[s.p]);
    } else {
      SameLegal(w.row.state);
    }
  }

  /** The states the row goes through. */
  function History(c: Config, w: World, steps: seq<Step>, rule: Rule): seq<State>
    requires c.feeQ > 0
    decreases |steps|
  {
    if steps == [] || !Enabled(w, steps[0]) || !rule(w, steps[0]) then [w.row.state]
    else [w.row.state] + History(c, Next(c, w, steps[0]), steps[1..], rule)
  }

  lemma {:induction false} HistoryLegal(c: Config, w: World, steps: seq<Step>, rule: Rule)
    requires ValidConfig(c) && Inv(c, w) && LeaseInv(w) && Implies(rule, InLease(c))
    ensures var h := History(c, w, steps, rule);
            |h| >= 1 && h[0] == w.row.state && (LegalHistory(h) <==> !Happens(c, w, steps, rule, OverRefusal))
            && forall k :: 0 <= k < |h| ==> Filled(h[k]) && Sound(h[k])
    decreases |steps|
  {
    ShapeIsSound(w.row.state);
    if steps != [] && Enabled(w, steps[0]) && rule(w, steps[0]) {
      var v := Next(c, w, steps[0]);
      StepKeeps(c, w, steps[0]);
      StepLease(c, w, steps[0]);
      StepLegal(c, w, steps[0]);
      HistoryLegal(c, v, steps[1..], rule);
      PushHistory(w.row.state, History(c, v, steps[1..], rule));
    }
  }

  lemma PushHistory(x: State, h: seq<State>)
    requires |h| >= 1
    ensures LegalHistory([x] + h) <==> Legal(x, h[0]) && LegalHistory(h)
  {
    var g := [x] + h;
    if LegalHistory(g) {
      assert Legal(g[0], g[1]);
      forall k | 0 <= k < |h| - 1 ensures Legal(h[k], h[k + 1]) {
        assert Legal(g[k + 1], g[k + 2]);
      }
    }
    if Legal(x, h[0]) && LegalHistory(h) {
      forall k | 0 <= k < |g| - 1 ensures Legal(g[k], g[k + 1]) {
        if k > 0 {
          assert Legal(h[k - 1], h[k]);
        }
      }
    }
  }

  /** THE FLOW REFINES THE STATE MACHINE, EXACTLY. In every run within leases every row satisfies the five invariants;
      every change is a move of the tables if and only if no mismatch commits on a payment already refused; and
      then a terminal status of any dimension is never left. */
  lemma FlowRefines(c: Config, amount: nat, currency: string, now: nat, steps: seq<Step>, rule: Rule,
                    d: Dimension, i: nat, j: nat)
    requires ValidConfig(c) && Implies(rule, InLease(c))
    requires i <= j < |History(c, Start(amount, currency, now), steps, rule)|
    ensures var h := History(c, Start(amount, currency, now), steps, rule);
            Sound(h[j])
            && (LegalHistory(h) <==> !Happens(c, Start(amount, currency, now), steps, rule, OverRefusal))
            && (LegalHistory(h) && Terminal(At(h[i], d)) ==> At(h[j], d) == At(h[i], d))
  {
    StartInv(c, amount, currency, now);
    StartLease(amount, currency, now);
    HistoryLegal(c, Start(amount, currency, now), steps, rule);
    var h := History(c, Start(amount, currency, now), steps, rule);
    if LegalHistory(h) && i < j {
      FilledHistory(h, d, i, j);
    }
  }

  // ---------------------------------------------------------------------------------------------
  // A leg in progress can be finished
  // ---------------------------------------------------------------------------------------------

  function SettlingSteps(k: nat): seq<Step> {
    [WorkerClaim(k)] + ([WorkerCall(k, Success)]
                        + ([WorkerApply(k, false)] + ([WorkerReconcile(k, false)] + ([WorkerSave(k)] + []))))
  }

  /** The leg is completed and matched, its case closed, its instruction done. */
  predicate Settles(x: Option<World>) {
    x.Some? && x.value.row.state.status == StCompleted && BankIs(x.value.row, BCompleted)
    && x.value.row.state.reconciliation == Some(RMatched) && Closed(x.value.facts)
    && x.value.instruction.Some? && x.value.instruction.value.status == ICompleted
  }

  /** Worker k holds the row as it is, within its lease. */
  predicate AtWork(w: World, k: nat, j: Job) { k in w.jobs && w.jobs[k] == j && Live(w, j) && j.tx == w.row }

  lemma ClosesAtOnce(facts: seq<Fact>, r: Row)
    requires facts != []
    ensures Closed(CloseCase(facts, r))
  {
    if !Closed(facts) {
      assert CloseCase(facts, r)[|facts|].t == CaseClosed;
    }
  }

  lemma AppliedFinishes(c: Config, w: World, k: nat, j: Job)
    requires ValidConfig(c) && AtWork(w, k, j) && j.Applied? && Shape(w.row.state) && BankIs(w.row, BCompleted)
    requires w.row.state.reconciliation == Some(RPending) && LegsAgree(w.row.collected, w.row.collectedCurrency, w.row)
    ensures Settles(Exec(c, w, [WorkerReconcile(k, false)] + ([WorkerSave(k)] + []), InLease(c)))
  {
    var r := ReconciledRow(w.row);
    MatchLegal(w.row.state, r.state);
    var facts := w.facts + [FactOf(r, ReconciliationMatched, r.collected, None)];
    ClosesAtOnce(facts, r);
    ExecStep(c, w, WorkerReconcile(k, false), [WorkerSave(k)] + [], InLease(c));
    var v := ReconcileApplied(w, k, j, false);
    assert v.facts == CloseCase(facts, r) && v.row == r && v.jobs[k] == Settled(j.i, j.at, r);
    ExecStep(c, v, WorkerSave(k), [], InLease(c));
  }

  lemma RepliedFinishes(c: Config, w: World, k: nat, j: Job)
    requires ValidConfig(c) && AtWork(w, k, j) && j.Replied? && j.reply == Success && Shape(w.row.state)
    requires BankIs(w.row, BProcessing) && LegsAgree(w.row.collected, w.row.collectedCurrency, w.row)
    ensures Settles(Exec(c, w, [WorkerApply(k, false)] + ([WorkerReconcile(k, false)] + ([WorkerSave(k)] + [])),
                         InLease(c)))
  {
    SettlementIsLegal(w.row.state);
    ExecStep(c, w, WorkerApply(k, false), [WorkerReconcile(k, false)] + ([WorkerSave(k)] + []), InLease(c));
    AppliedFinishes(c, ApplyReply(w, k, j, false), k, Applied(j.i, j.at, SuccessRow(j.tx)));
  }

  lemma ClaimFinishes(c: Config, w: World, k: nat)
    requires ValidConfig(c) && Claimable(w) && k !in w.jobs && Shape(w.row.state)
    requires BankIs(w.row, BProcessing) && LegsAgree(w.row.collected, w.row.collectedCurrency, w.row)
    ensures Settles(Exec(c, w, SettlingSteps(k), InLease(c)))
  {
    var rest := [WorkerApply(k, false)] + ([WorkerReconcile(k, false)] + ([WorkerSave(k)] + []));
    ExecStep(c, w, WorkerClaim(k), [WorkerCall(k, Success)] + rest, InLease(c));
    var v := Claim(w, k);
    var j := v.jobs[k];
    ExecStep(c, v, WorkerCall(k, Success), rest, InLease(c));
    RepliedFinishes(c, Call(v, k, j, Success), k, Replied(j.i, j.at, j.tx, Success));
  }

  /** A LEG IN PROGRESS CAN BE FINISHED. At any point of any run within leases at which a leg is in progress,
      however many workers crashed on it: its instruction is due once its delay and its lease are over; and
      whenever it is due, one claim answered by a success, with nothing rolled back, completes the leg, matches it
      and closes the case. */
  lemma LegCanFinish(c: Config, amount: nat, currency: string, now: nat, steps: seq<Step>, rule: Rule, d: nat, k: nat)
    requires ValidConfig(c) && Implies(rule, InLease(c)) && Exec(c, Start(amount, currency, now), steps, rule).Some?
    requires var w := Exec(c, Start(amount, currency, now), steps, rule).value;
             BankIs(w.row, BProcessing) && k !in w.jobs
    ensures var w := Exec(c, Start(amount, currency, now), steps, rule).value;
            w.instruction.Some?
            && (w.instruction.value.nextAt <= w.now + d && w.instruction.value.updatedAt + LEASE <= w.now + d ==>
                  Claimable(Advance(w, d)))
            && (Claimable(Advance(w, d)) ==> Settles(Exec(c, w, [Tick(d)] + SettlingSteps(k), InLease(c))))
  {
    var w := Exec(c, Start(amount, currency, now), steps, rule).value;
    ReachesLease(c, amount, currency, now, steps, rule);
    ExecStep(c, w, Tick(d), SettlingSteps(k), InLease(c));
    if Claimable(Advance(w, d)) {
      ClaimFinishes(c, Advance(w, d), k);
    }
  }
}
