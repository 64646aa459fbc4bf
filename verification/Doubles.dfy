/** Exactly which commits post a fact twice: over all runs for the bank leg, over all runs within leases for refunds. */
module Doubles {
  import opened Basics
  import opened Domain
  import opened StateMachine
  import opened Gateway
  import opened Safety
  import opened Leases

  // ---------------------------------------------------------------------------------------------
  // The bank leg
  // ---------------------------------------------------------------------------------------------

  function BankFacts(facts: seq<Fact>): nat {
    Count(facts, BankProcessingCompleted) + Count(facts, BankProcessingFailed)
  }

  /** The worker is about to commit a decision of the leg. */
  predicate Decides(c: Config, w: World, s: Step) {
    match s
    case WorkerApply(k, abort) =>
      k in w.jobs && w.jobs[k].Replied? && !abort
      && (w.jobs[k].reply == Success ==> Legal(w.jobs[k].tx.state, SuccessRow(w.jobs[k].tx).state))
      && (w.jobs[k].reply == Fault ==> Legal(w.jobs[k].tx.state, FailureRow(w.jobs[k].tx).state))
      && w.jobs[k].reply != Transport
    case WorkerSave(k) =>
      k in w.jobs && (w.jobs[k].Caught? || w.jobs[k].Unsaved?) && w.jobs[k].i.attempts >= c.maxAttempts
      && Legal(w.jobs[k].tx.state, FailureRow(w.jobs[k].tx).state)
    case _ => false
  }

  /** ... and finds the leg no longer in progress. */
  function DecidesAgain(c: Config): Rule { (w, s) => Decides(c, w, s) && !BankIs(w.row, BProcessing) }

  predicate Decided(r: Row) { BankIs(r, BCompleted) || BankIs(r, BFailed) }

  /** A bank fact is posted exactly when the leg is decided. */
  predicate BankInv(w: World) { BankFacts(w.facts) > 0 <==> Decided(w.row) }

  lemma StartBank(amount: nat, currency: string, now: nat)
    ensures BankInv(Start(amount, currency, now)) && BankFacts(Start(amount, currency, now).facts) == 0
  {
    var w := Start(amount, currency, now);
    CountPush([], w.facts[0]);
    assert w.facts == [] + [w.facts[0]];
  }

  /** What a step that decides nothing does. */
  predicate SameDecision(w: World, v: World) {
    SameBank(w.facts, v.facts) && (Decided(v.row) <==> Decided(w.row))
  }

  lemma NoteSame(c: Config, w: World, h: Hook)
    requires c.feeQ > 0
    ensures SameDecision(w, ApplyNote(c, w, h))
  {
    var o := Some(h.note.amount);
    if h.note.failed {
      RefusalSame(w, h);
    } else if LegsAgree(o, Some(h.note.currency), h.before) {
      ConfirmSame(c, w, h);
    } else {
      MismatchSame(w, h);
    }
  }

  lemma ConfirmFacts(c: Config, w: World, h: Hook)
    requires c.feeQ > 0
    ensures SameBank(w.facts, ConfirmAndClaim(c, w, h.before, h.note).facts)
  {
    var v := ConfirmAndClaim(c, w, h.before, h.note);
    if CanConfirm(w) {
      if v != w {
        PushBank(w.facts, FactOf(v.row, ProviderConfirmed, Some(h.note.amount), None));
      }
    } else if v != w {
      CloseBank(w.facts, w.row);
    }
  }

  lemma ConfirmSame(c: Config, w: World, h: Hook)
    requires c.feeQ > 0
    ensures SameDecision(w, ConfirmAndClaim(c, w, h.before, h.note))
  {
    ConfirmFacts(c, w, h);
  }

  lemma MismatchSame(w: World, h: Hook)
    ensures SameDecision(w, MarkAmountMismatch(w, h.before, h.note))
  {
    var v := MarkAmountMismatch(w, h.before, h.note);
    if v != w {
      var o := Some(h.note.amount);
      var f, g := FactOf(v.row, AmountMismatchDetected, o, None), FactOf(v.row, BankProcessingBlocked, o, None);
      PushBank(w.facts, f);
      PushBank(w.facts + [f], g);
      PushBank(w.facts + [f] + [g], FactOf(v.row, CaseOpened, o, None));
    }
  }

  lemma RefusalSame(w: World, h: Hook)
    ensures SameDecision(w, MarkProviderFailed(w, h.before, h.note))
  {
    var v := MarkProviderFailed(w, h.before, h.note);
    if v != w {
      var f := FactOf(v.row, ProviderFailed, Some(h.note.amount), None);
      PushBank(w.facts, f);
      CloseBank(w.facts + [f], v.row);
    }
  }

  /** A payment with an instruction has its leg in progress or decided. */
  lemma LegIs(w: World)
    requires RowOk(w) && LegOk(w) && w.instruction.Some?
    ensures BankIs(w.row, BProcessing) <==> !Decided(w.row)
  {
    match w.row.state.bank.value
    case BNotStarted =>
    case BProcessing =>
    case BCompleted =>
    case BFailed =>
    case BBlocked =>
  }

  lemma ReconcileSame(w: World, e: Row)
    requires RowOk(w) && LegOk(w) && RecOk(w, e)
    ensures var x := Reconcile(w, e); x.Some? ==> SameDecision(w, x.value)
  {
    LegIs(w);
    var r := ReconciledRow(e);
    var f := FactOf(r, ReconciliationMatched, r.collected, None);
    if e.state.reconciliation == Some(RMatched) {
      CloseBank(w.facts, e);
    } else {
      PushBank(w.facts, f);
      CloseBank(w.facts + [f], r);
    }
  }

  /** A worker's decision is one more bank fact, and a decided leg. */
  predicate OneMore(w: World, v: World) { BankFacts(v.facts) == BankFacts(w.facts) + 1 && Decided(v.row) }

  lemma FailureDecides(w: World, v: World, r: Row)
    requires v.row == r && BankIs(r, BFailed) && v.facts == FailureFacts(w.facts, r)
    ensures OneMore(w, v)
  {
    FailureCounts(w.facts, r);
  }

  lemma SuccessDecides(w: World, v: World, r: Row)
    requires v.row == r && BankIs(r, BCompleted)
    requires v.facts == w.facts + [FactOf(r, BankProcessingCompleted, None, None)]
    ensures OneMore(w, v)
  {
    CountPush(w.facts, FactOf(r, BankProcessingCompleted, None, None));
  }

  lemma ApplyDecides(c: Config, w: World, k: nat, abort: bool)
    requires k in w.jobs && w.jobs[k].Replied?
    ensures var v := ApplyReply(w, k, w.jobs[k], abort);
            if Decides(c, w, WorkerApply(k, abort)) then OneMore(w, v) else SameDecision(w, v)
  {
    var j := w.jobs[k];
    var v := ApplyReply(w, k, j, abort);
    if Decides(c, w, WorkerApply(k, abort)) {
      if j.reply == Success {
        SuccessDecides(w, v, SuccessRow(j.tx));
      } else {
        FailureDecides(w, v, FailureRow(j.tx));
      }
    } else {
      assert v.row == w.row && v.facts == w.facts;
    }
  }

  lemma SaveDecides(c: Config, w: World, k: nat)
    requires k in w.jobs && (w.jobs[k].Caught? || w.jobs[k].Unsaved?)
    ensures var v := SaveCaught(c, w, k, w.jobs[k]);
            if Decides(c, w, WorkerSave(k)) then OneMore(w, v) else SameDecision(w, v)
  {
    var v := SaveCaught(c, w, k, w.jobs[k]);
    if Decides(c, w, WorkerSave(k)) {
      FailureDecides(w, v, FailureRow(w.jobs[k].tx));
    } else {
      assert v.row == w.row && v.facts == w.facts;
    }
  }

  lemma AppliedSame(c: Config, w: World, k: nat, abort: bool)
    requires RowOk(w) && LegOk(w) && k in w.jobs && w.jobs[k].Applied? && JobOk(c, w, w.jobs[k])
    ensures SameDecision(w, ReconcileApplied(w, k, w.jobs[k], abort))
  {
    ReconcileSame(w, w.jobs[k].tx);
  }

  lemma SaveStepDecides(c: Config, w: World, k: nat)
    requires ValidConfig(c) && Enabled(w, WorkerSave(k))
    ensures var v := Next(c, w, WorkerSave(k));
            if Decides(c, w, WorkerSave(k)) then OneMore(w, v) else SameDecision(w, v)
  {
    if !w.jobs[k].Settled? {
      SaveDecides(c, w, k);
    }
  }

  lemma WorkerDecides(c: Config, w: World, s: Step)
    requires ValidConfig(c) && Inv(c, w) && Enabled(w, s) && IsWorkerStep(s)
    ensures var v := Next(c, w, s); if Decides(c, w, s) then OneMore(w, v) else SameDecision(w, v)
  {
    match s
    case WorkerApply(k, abort) => ApplyDecides(c, w, k, abort);
    case WorkerReconcile(k, abort) => AppliedSame(c, w, k, abort);
    case WorkerSave(k) => SaveStepDecides(c, w, k);
    case _ =>
  }

  lemma SuccessSame(w: World, p: nat, t: Try, rollback: Rollback)
    requires t.Answered?
    ensures SameDecision(w, RecordSuccess(w, p, t, rollback))
  {
    var x := Sync(w, t.tx, FCompleted, true);
    if x.Some? {
      var f := FactOf(x.value, RefundCompleted, Some(t.file.amount), t.actor);
      PushBank(w.facts, f);
      CloseBank(w.facts + [f], x.value);
    }
  }

  lemma FailureSame(w: World, p: nat, t: Try)
    requires t.Answered?
    ensures SameDecision(w, RecordFailure(w, p, t))
  {
    var x := Sync(w, t.tx, FFailed, false);
    if x.Some? {
      PushBank(w.facts, FactOf(x.value, RefundFailed, Some(t.file.amount), t.actor));
    }
  }

  lemma AskSame(w: World, p: nat, t: Try)
    requires t.Loaded?
    ensures SameDecision(w, StartAttempt(w, p, t))
  {
    var v := StartAttempt(w, p, t);
    if v.facts != w.facts {
      AskedSame(w, v, FactOf(v.row, RefundRequested, Some(t.file.amount), t.actor));
    }
  }

  lemma AskedSame(w: World, v: World, f: Fact)
    requires v.facts == w.facts + [f] && f.t == RefundRequested && v.row.state.bank == w.row.state.bank
    ensures SameDecision(w, v)
  {
    PushBank(w.facts, f);
  }

  lemma RefundSame(c: Config, w: World, s: Step)
    requires c.feeQ > 0 && Enabled(w, s) && IsRefundStep(s)
    ensures SameDecision(w, Next(c, w, s))
  {
    match s
    case RefundFind(p, key) => CloseBank(w.facts, w.tries[p].tx);
    case RefundStart(p) => AskSame(w, p, w.tries[p]);
    case RefundFinish(p, rollback) =>
      if w.tries[p].answer == Paid { SuccessSame(w, p, w.tries[p], rollback); } else { FailureSame(w, p, w.tries[p]); }
    case RefundReopen(who) => PushBank(w.facts, FactOf(w.row, RefundReopened, Some(w.refund.value.amount), who));
    case _ =>
  }

  lemma StepDecides(c: Config, w: World, s: Step)
    requires ValidConfig(c) && Inv(c, w) && Enabled(w, s)
    ensures var v := Next(c, w, s); if Decides(c, w, s) then OneMore(w, v) else SameDecision(w, v)
  {
    if IsWorkerStep(s) {
      WorkerDecides(c, w, s);
    } else if IsRefundStep(s) {
      RefundSame(c, w, s);
    } else if s.HookApply? {
      NoteSame(c, w, w.hooks[s.p]);
    } else if s.RecApply? {
      ReconcileSame(w, w.recs[s.p]);
    } else if s.TreasurySweep? {
      PushBank(w.facts, FactOf(w.row, SettlementSwept, w.row.collected, None));
    }
  }

  lemma Undecided(c: Config, w: World, s: Step)
    requires Inv(c, w) && Decides(c, w, s)
    ensures BankIs(w.row, BProcessing) <==> !Decided(w.row)
  {
    assert JobOk(c, w, w.jobs[s.k]);
    LegIs(w);
  }

  /** One step: a second bank fact appears exactly when a decision finds the leg decided. */
  lemma StepCounts(c: Config, w: World, s: Step)
    requires ValidConfig(c) && Inv(c, w) && BankInv(w) && Enabled(w, s)
    ensures var v := Next(c, w, s);
            BankInv(v) && (BankFacts(v.facts) >= 2 <==> BankFacts(w.facts) >= 2 || DecidesAgain(c)(w, s))
  {
    StepDecides(c, w, s);
    if Decides(c, w, s) {
      Undecided(c, w, s);
    }
  }

  lemma {:induction false} RunDecides(c: Config, w: World, steps: seq<Step>, rule: Rule)
    requires ValidConfig(c) && Inv(c, w) && BankInv(w) && Exec(c, w, steps, rule).Some?
    ensures BankFacts(Exec(c, w, steps, rule).value.facts) >= 2
            <==> BankFacts(w.facts) >= 2 || Happens(c, w, steps, rule, DecidesAgain(c))
    decreases |steps|
  {
    if steps != [] {
      StepKeeps(c, w, steps[0]);
      StepCounts(c, w, steps[0]);
      RunDecides(c, Next(c, w, steps[0]), steps[1..], rule);
    }
  }

  /** WHEN A BANK LEG IS DOUBLED. In every run, whatever the leases, the stale workers and the failing saves, a second
      bank fact is posted if and only if some worker commits its decision on a leg no longer in progress. */
  lemma BankDoubledIff(c: Config, amount: nat, currency: string, now: nat, steps: seq<Step>, rule: Rule)
    requires ValidConfig(c) && Exec(c, Start(amount, currency, now), steps, rule).Some?
    ensures var w := Exec(c, Start(amount, currency, now), steps, rule).value;
            Count(w.facts, BankProcessingCompleted) + Count(w.facts, BankProcessingFailed) >= 2
            <==> Happens(c, Start(amount, currency, now), steps, rule, DecidesAgain(c))
  {
    StartInv(c, amount, currency, now);
    StartBank(amount, currency, now);
    RunDecides(c, Start(amount, currency, now), steps, rule);
  }

  // ---------------------------------------------------------------------------------------------
  // Refunds
  // ---------------------------------------------------------------------------------------------

  /** `recordSuccess` is about to commit on a refund already completed. */
  predicate PaysAgain(w: World, s: Step) {
    s.RefundFinish? && s.p in w.tries && w.tries[s.p].Answered? && w.tries[s.p].answer == Paid && s.rollback == Commits
    && w.row.state.refund == Some(FCompleted) && Sync(w, w.tries[s.p].tx, FCompleted, true).Some?
  }

  predicate Completed(r: Row) { r.state.refund == Some(FCompleted) }

  /** A refund is recorded as completed exactly when the row says so. */
  predicate PaidInv(w: World) { Count(w.facts, RefundCompleted) > 0 <==> Completed(w.row) }

  lemma StartPaid(amount: nat, currency: string, now: nat)
    ensures PaidInv(Start(amount, currency, now)) && Count(Start(amount, currency, now).facts, RefundCompleted) == 0
  {
    var w := Start(amount, currency, now);
    CountPush([], w.facts[0]);
    assert w.facts == [] + [w.facts[0]];
  }

  predicate SamePaid(w: World, v: World) {
    Count(v.facts, RefundCompleted) == Count(w.facts, RefundCompleted) && (Completed(v.row) <==> Completed(w.row))
  }

  lemma PushUnpaid(facts: seq<Fact>, f: Fact)
    requires f.t != RefundCompleted
    ensures Count(facts + [f], RefundCompleted) == Count(facts, RefundCompleted)
  {
    CountPush(facts, f);
  }

  lemma CloseUnpaid(facts: seq<Fact>, r: Row)
    ensures Count(CloseCase(facts, r), RefundCompleted) == Count(facts, RefundCompleted)
  {
    CountClose(facts, r);
  }

  lemma FailureUnpaid(facts: seq<Fact>, r: Row)
    ensures Count(FailureFacts(facts, r), RefundCompleted) == Count(facts, RefundCompleted)
  {
    PushUnpaid(facts, FactOf(r, BankProcessingFailed, None, None));
    PushUnpaid(facts + [FactOf(r, BankProcessingFailed, None, None)], FactOf(r, CaseOpened, None, None));
  }

  lemma ConfirmUnpaid(c: Config, w: World, h: Hook)
    requires c.feeQ > 0
    ensures SamePaid(w, ConfirmAndClaim(c, w, h.before, h.note))
  {
    var v := ConfirmAndClaim(c, w, h.before, h.note);
    if CanConfirm(w) {
      if v != w {
        PushUnpaid(w.facts, FactOf(v.row, ProviderConfirmed, Some(h.note.amount), None));
      }
    } else if v != w {
      CloseUnpaid(w.facts, w.row);
    }
  }

  lemma MismatchUnpaid(w: World, h: Hook)
    requires Shape(w.row.state)
    ensures SamePaid(w, MarkAmountMismatch(w, h.before, h.note))
  {
    var v := MarkAmountMismatch(w, h.before, h.note);
    if v != w {
      var o := Some(h.note.amount);
      var f, g := FactOf(v.row, AmountMismatchDetected, o, None), FactOf(v.row, BankProcessingBlocked, o, None);
      PushUnpaid(w.facts, f);
      PushUnpaid(w.facts + [f], g);
      PushUnpaid(w.facts + [f] + [g], FactOf(v.row, CaseOpened, o, None));
    }
  }

  lemma RefusalUnpaid(w: World, h: Hook)
    requires Shape(w.row.state)
    ensures SamePaid(w, MarkProviderFailed(w, h.before, h.note))
  {
    var v := MarkProviderFailed(w, h.before, h.note);
    if v != w {
      var f := FactOf(v.row, ProviderFailed, Some(h.note.amount), None);
      PushUnpaid(w.facts, f);
      CloseUnpaid(w.facts + [f], v.row);
    }
  }

  lemma NoteUnpaid(c: Config, w: World, h: Hook)
    requires c.feeQ > 0 && Shape(w.row.state)
    ensures SamePaid(w, ApplyNote(c, w, h))
  {
    if h.note.failed {
      RefusalUnpaid(w, h);
    } else if LegsAgree(Some(h.note.amount), Some(h.note.currency), h.before) {
      ConfirmUnpaid(c, w, h);
    } else {
      MismatchUnpaid(w, h);
    }
  }

  lemma ReconcileUnpaid(w: World, e: Row)
    requires LegOk(w) && LeaseInv(w) && RecOk(w, e) && RecLive(w, e)
    ensures var x := Reconcile(w, e); x.Some? ==> SamePaid(w, x.value)
  {
    ReconcileLease(w, e);
    var r := ReconciledRow(e);
    var f := FactOf(r, ReconciliationMatched, r.collected, None);
    PushUnpaid(w.facts, f);
    CloseUnpaid(w.facts + [f], r);
  }

  lemma ApplyUnpaid(w: World, k: nat, j: Job, abort: bool)
    requires Shape(w.row.state) && BankIs(w.row, BProcessing) && j.Replied? && j.tx == w.row
    ensures SamePaid(w, ApplyReply(w, k, j, abort))
  {
    match j.reply
    case Transport =>
    case Success => PushUnpaid(w.facts, FactOf(SuccessRow(w.row), BankProcessingCompleted, None, None));
    case Fault => FailureUnpaid(w.facts, FailureRow(w.row));
  }

  lemma UnsavedUnpaid(c: Config, w: World, k: nat, j: Job)
    requires j.Unsaved? && !DoublesRefusal(c, j)
    ensures SamePaid(w, SaveCaught(c, w, k, j))
  {
    assert SaveCaught(c, w, k, j).facts == w.facts;
  }

  lemma SaveUnpaid(c: Config, w: World, k: nat)
    requires ValidConfig(c) && Inv(c, w) && LeaseInv(w) && Enabled(w, WorkerSave(k)) && LeaseStep(c, w, WorkerSave(k))
    ensures SamePaid(w, Next(c, w, WorkerSave(k)))
  {
    if w.jobs[k].Caught? {
      LiveHolds(c, w, k);
      CaughtUnpaid(c, w, k, w.jobs[k]);
    } else if w.jobs[k].Unsaved? {
      UnsavedUnpaid(c, w, k, w.jobs[k]);
    }
  }

  lemma CaughtUnpaid(c: Config, w: World, k: nat, j: Job)
    requires Shape(w.row.state) && j.Caught?
    requires BankIs(j.tx, BCompleted) || (BankIs(w.row, BProcessing) && (j.tx == w.row || j.tx == FailureRow(w.row)))
    ensures SamePaid(w, SaveCaught(c, w, k, j))
  {
    if BankIs(j.tx, BCompleted) {
      CompletedStays(j.tx.state, FailureRow(j.tx).state);
    } else {
      FailureUnpaid(w.facts, FailureRow(w.row));
    }
  }

  lemma WorkerUnpaid(c: Config, w: World, s: Step)
    requires ValidConfig(c) && Inv(c, w) && LeaseInv(w) && Enabled(w, s) && LeaseStep(c, w, s) && IsWorkerStep(s)
    ensures SamePaid(w, Next(c, w, s))
  {
    match s
    case WorkerApply(k, abort) =>
      LiveHolds(c, w, k);
      ApplyUnpaid(w, k, w.jobs[k], abort);
    case WorkerReconcile(k, abort) =>
      LiveHolds(c, w, k);
      ReconcileUnpaid(w, w.jobs[k].tx);
    case WorkerSave(k) => SaveUnpaid(c, w, k);
    case _ =>
  }

  predicate OnePaid(w: World, v: World) {
    Count(v.facts, RefundCompleted) == Count(w.facts, RefundCompleted) + 1 && Completed(v.row)
  }

  lemma SuccessPays(w: World, p: nat, t: Try, rollback: Rollback)
    requires t.Answered?
    ensures var v := RecordSuccess(w, p, t, rollback);
            if rollback == Commits && Sync(w, t.tx, FCompleted, true).Some? then OnePaid(w, v) else SamePaid(w, v)
  {
    var x := Sync(w, t.tx, FCompleted, true);
    if x.Some? {
      var f := FactOf(x.value, RefundCompleted, Some(t.file.amount), t.actor);
      CountPush(w.facts, f);
      CloseUnpaid(w.facts + [f], x.value);
    }
  }

  /** Within leases no other synchronisation touches a completed refund. */
  lemma FailureUnpays(w: World, p: nat, t: Try)
    requires Shape(w.row.state) && Owed(w.row) && t.Answered?
    ensures SamePaid(w, RecordFailure(w, p, t))
  {
    var x := Sync(w, t.tx, FFailed, false);
    SyncLease(w, t.tx, FFailed, false);
    if x.Some? {
      PushUnpaid(w.facts, FactOf(x.value, RefundFailed, Some(t.file.amount), t.actor));
    }
  }

  lemma AskUnpays(w: World, p: nat, t: Try)
    requires Shape(w.row.state) && Owed(w.row) && t.Loaded?
    ensures SamePaid(w, StartAttempt(w, p, t))
  {
    var v := StartAttempt(w, p, t);
    SyncLease(w, t.tx, FRequested, false);
    if v.facts != w.facts {
      PushUnpaid(w.facts, FactOf(v.row, RefundRequested, Some(t.file.amount), t.actor));
    }
  }

  lemma RefundUnpays(c: Config, w: World, s: Step)
    requires ValidConfig(c) && LeaseInv(w) && Enabled(w, s) && IsRefundStep(s) && !s.RefundFinish?
    ensures SamePaid(w, Next(c, w, s))
  {
    match s
    case RefundFind(p, key) => CloseUnpaid(w.facts, w.tries[p].tx);
    case RefundStart(p) => AskUnpays(w, p, w.tries[p]);
    case RefundReopen(who) => PushUnpaid(w.facts, FactOf(w.row, RefundReopened, Some(w.refund.value.amount), who));
    case _ =>
  }

  lemma FinishPays(w: World, p: nat, t: Try, rollback: Rollback)
    requires LeaseInv(w) && p in w.tries && w.tries[p] == t && t.Answered?
    ensures var v := if t.answer == Paid then RecordSuccess(w, p, t, rollback) else RecordFailure(w, p, t);
            if t.answer == Paid && rollback == Commits && Sync(w, t.tx, FCompleted, true).Some? then OnePaid(w, v)
            else SamePaid(w, v)
  {
    if t.answer == Paid {
      SuccessPays(w, p, t, rollback);
    } else {
      FailureUnpays(w, p, t);
    }
  }

  lemma OtherUnpays(c: Config, w: World, s: Step)
    requires ValidConfig(c) && Inv(c, w) && LeaseInv(w) && Enabled(w, s) && LeaseStep(c, w, s) && !IsRefundStep(s)
    ensures SamePaid(w, Next(c, w, s))
  {
    if IsWorkerStep(s) {
      WorkerUnpaid(c, w, s);
    } else if s.HookApply? {
      NoteUnpaid(c, w, w.hooks[s.p]);
    } else if s.RecApply? {
      ReconcileUnpaid(w, w.recs[s.p]);
    } else if s.TreasurySweep? {
      PushUnpaid(w.facts, FactOf(w.row, SettlementSwept, w.row.collected, None));
    }
  }

  lemma FinishStepPays(c: Config, w: World, p: nat, rollback: Rollback)
    requires ValidConfig(c) && LeaseInv(w) && PaidInv(w) && Enabled(w, RefundFinish(p, rollback))
    ensures var v := Next(c, w, RefundFinish(p, rollback));
            PaidInv(v)
            && (Count(v.facts, RefundCompleted) >= 2
                <==> Count(w.facts, RefundCompleted) >= 2 || PaysAgain(w, RefundFinish(p, rollback)))
  {
    FinishPays(w, p, w.tries[p], rollback);
  }

  lemma StepPays(c: Config, w: World, s: Step)
    requires ValidConfig(c) && Inv(c, w) && LeaseInv(w) && PaidInv(w) && Enabled(w, s) && LeaseStep(c, w, s)
    ensures var v := Next(c, w, s);
            PaidInv(v)
            && (Count(v.facts, RefundCompleted) >= 2 <==> Count(w.facts, RefundCompleted) >= 2 || PaysAgain(w, s))
  {
    if s.RefundFinish? {
      FinishStepPays(c, w, s.p, s.rollback);
    } else if IsRefundStep(s) {
      RefundUnpays(c, w, s);
    } else {
      OtherUnpays(c, w, s);
    }
  }

  lemma {:induction false} RunPays(c: Config, w: World, steps: seq<Step>, rule: Rule)
    requires ValidConfig(c) && Inv(c, w) && LeaseInv(w) && PaidInv(w) && Exec(c, w, steps, rule).Some?
    requires Implies(rule, InLease(c))
    ensures Count(Exec(c, w, steps, rule).value.facts, RefundCompleted) >= 2
            <==> Count(w.facts, RefundCompleted) >= 2 || Happens(c, w, steps, rule, PaysAgain)
    decreases |steps|
  {
    if steps != [] {
      StepKeeps(c, w, steps[0]);
      StepLease(c, w, steps[0]);
      StepPays(c, w, steps[0]);
      RunPays(c, Next(c, w, steps[0]), steps[1..], rule);
    }
  }

  /** WHEN A REFUND IS RECORDED TWICE. In every run within leases, however refund attempts overlap, a second completed
      refund is recorded if and only if some `recordSuccess` commits on a row already completed. */
  lemma RefundDoubledIff(c: Config, amount: nat, currency: string, now: nat, steps: seq<Step>, rule: Rule)
    requires ValidConfig(c) && Implies(rule, InLease(c)) && Exec(c, Start(amount, currency, now), steps, rule).Some?
    ensures Count(Exec(c, Start(amount, currency, now), steps, rule).value.facts, RefundCompleted) >= 2
            <==> Happens(c, Start(amount, currency, now), steps, rule, PaysAgain)
  {
    StartInv(c, amount, currency, now);
    StartLease(amount, currency, now);
    StartPaid(amount, currency, now);
    RunPays(c, Start(amount, currency, now), steps, rule);
  }
}
