/** The services as they work: handlers that mutate an entity and write tables, loops over many payments.
    Each method is proved against the steps of the protocol, so that what holds of every run holds here. */
module Services {
  import opened Basics
  import opened Domain
  import opened StateMachine
  import opened Gateway
  import Ledger
  import Leases

  /** No handler is at work on the payment. */
  predicate AtRest(w: World) { w.hooks == map[] && w.jobs == map[] && w.recs == map[] && w.tries == map[] }

  ghost predicate Reaches(c: Config, w: World, v: World, rule: Rule)
    requires c.feeQ > 0
  {
    exists steps :: Exec(c, w, steps, rule) == Some(v)
  }

  lemma ReachesTransitive(c: Config, u: World, v: World, w: World, rule: Rule)
    requires c.feeQ > 0 && Reaches(c, u, v, rule) && Reaches(c, v, w, rule)
    ensures Reaches(c, u, w, rule)
  {
    var a :| Exec(c, u, a, rule) == Some(v);
    var b :| Exec(c, v, b, rule) == Some(w);
    ExecConcat(c, u, a, b, rule);
  }

  lemma ReachesSelf(c: Config, w: World, rule: Rule)
    requires c.feeQ > 0
    ensures Reaches(c, w, w, rule)
  {
    assert Exec(c, w, [], rule) == Some(w);
  }

  lemma ReachesStep(c: Config, w: World, s: Step, rule: Rule)
    requires c.feeQ > 0 && Enabled(w, s) && rule(w, s)
    ensures Reaches(c, w, Next(c, w, s), rule)
  {
    assert [s][1..] == [];
    assert Exec(c, w, [s], rule) == Some(Next(c, w, s));
  }

  predicate Unstarted(w: World) { w.row.state.bank == Some(BNotStarted) }

  predicate CanClaim(w: World) { Unstarted(w) && w.row.state.provider in {Some(PInitiated), Some(PPending)} }

  datatype Settlement = Completed | Retry | DeadLettered

  /** How the bank answers, whether the two local transactions that follow are rolled back, whether the save of the
      settled instruction fails, and whether what the catch writes fails in its turn. */
  datatype BankExchange = BankExchange(
    reply: Reply, abort: bool, abortReconcile: bool, saveFails: bool, catchFails: bool)

  // ---------------------------------------------------------------------------------------------
  // One worker left alone
  // ---------------------------------------------------------------------------------------------

  /** The tables, with one worker at work. */
  function Busy(w: World, j: Job): World { w.(jobs := map[0 := j]) }

  /** The worker after its execution: its exception is caught, or its instruction is to be saved. */
  function After(raised: bool, i: Instruction, at: nat, tx: Row): Job {
    if raised then Caught(i, at, tx) else Settled(i, at, tx)
  }

  /** Only the row and the registry moved, and nothing left the registry. */
  predicate RowAndFacts(w: World, v: World) { v == w.(row := v.row, facts := v.facts) && w.facts <= v.facts }

  /** The same, and the instruction. */
  predicate Instructed(w: World, v: World) {
    v == w.(row := v.row, facts := v.facts, instruction := v.instruction) && w.facts <= v.facts
  }

  /** What the worker does next. */
  function Turn(j: Job, x: BankExchange): Step {
    match j
    case Claimed(_, _, _) => WorkerCall(0, x.reply)
    case Replied(_, _, _, _) => WorkerApply(0, x.abort)
    case Applied(_, _, _) => WorkerReconcile(0, x.abortReconcile)
    case Settled(_, _, _) => if x.saveFails then WorkerSaveFails(0) else WorkerSave(0)
    case _ => if x.catchFails then WorkerCrash(0) else WorkerSave(0)
  }

  function Ahead(w: World): nat {
    if 0 !in w.jobs then 0
    else match w.jobs[0]
         case Claimed(_, _, _) => 5
         case Replied(_, _, _, _) => 4
         case Applied(_, _, _) => 3
         case Settled(_, _, _) => 2
         case _ => 1
  }

  lemma TurnGoes(c: Config, w: World, x: BankExchange)
    requires c.feeQ > 0 && 0 in w.jobs
    ensures Enabled(w, Turn(w.jobs[0], x)) && Ahead(Next(c, w, Turn(w.jobs[0], x))) < Ahead(w)
  {
    if w.jobs[0].Applied? {
      ReconcileGoes(w, x.abortReconcile);
    } else if w.jobs[0].Replied? {
      ApplyGoes(w, x.abort);
    }
  }

  lemma ReconcileGoes(w: World, abort: bool)
    requires 0 in w.jobs && w.jobs[0].Applied?
    ensures Ahead(ReconcileApplied(w, 0, w.jobs[0], abort)) < 3
  {
    var v := ReconcileApplied(w, 0, w.jobs[0], abort);
    assert 0 in v.jobs && (v.jobs[0].Caught? || v.jobs[0].Settled?);
  }

  lemma ApplyGoes(w: World, abort: bool)
    requires 0 in w.jobs && w.jobs[0].Replied?
    ensures Ahead(ApplyReply(w, 0, w.jobs[0], abort)) < 4
  {
    var v := ApplyReply(w, 0, w.jobs[0], abort);
    assert 0 in v.jobs && (v.jobs[0].Caught? || v.jobs[0].Settled? || v.jobs[0].Applied?);
  }

  /** The worker of a claim, left alone until it is done: steps of the protocol, one after the other. */
  function Drive(c: Config, w: World, x: BankExchange): World
    requires c.feeQ > 0
    decreases Ahead(w)
  {
    if 0 !in w.jobs then w
    else
      TurnGoes(c, w, x);
      Drive(c, Next(c, w, Turn(w.jobs[0], x)), x)
  }

  // ---------------------------------------------------------------------------------------------
  // When an attempt fails
  // ---------------------------------------------------------------------------------------------

  /** The reconciliation of e is refused by the state machine. */
  predicate Unmatchable(e: Row) {
    e.state.reconciliation != Some(RMatched) && e.state.provider == Some(PConfirmed) && e.state.bank == Some(BCompleted)
    && !Legal(e.state, ReconciledRow(e).state)
  }

  predicate Unsettled(e: Row, x: BankExchange) { x.abort || !Legal(e.state, SuccessRow(e).state) }

  /** An exception reaches the catch of the worker that read e. */
  predicate Breaks(e: Row, x: BankExchange) {
    x.saveFails
    || (!BankDone(e)
        && match x.reply
           case Transport => true
           case Fault => x.abort || !Legal(e.state, FailureRow(e).state)
           case Success => Unsettled(e, x) || x.abortReconcile || Unmatchable(SuccessRow(e)))
  }

  /** The exchange without the failing save. */
  function Saving(x: BankExchange): BankExchange { x.(saveFails := false) }

  /** The one failing save that does harm: the execution went well, no attempt is left, and nothing refuses a dead
      letter over what it decided. */
  predicate Harms(c: Config, i: Instruction, e: Row, x: BankExchange) {
    x.saveFails && !x.catchFails && !Breaks(e, Saving(x)) && i.attempts >= c.maxAttempts
    && Legal(Remains(e, x).state, FailureRow(Remains(e, x)).state)
  }

  /** The entity as the execution leaves it in the hands of the worker. */
  function Remains(e: Row, x: BankExchange): Row {
    if BankDone(e) then e
    else match x.reply
         case Transport => e
         case Fault => FailureRow(e)
         case Success => if Unsettled(e, x) then SuccessRow(e) else ReconciledRow(SuccessRow(e))
  }

  /** One payment: its tables, and the handlers of its life. */
  class Payment {
    var w: World

    constructor (w: World)
      requires AtRest(w)
      ensures this.w == w
    {
      this.w := w;
    }

    // -------------------------------------------------------------------------------------------
    // src/mobile-money/mobile-money.service.ts
    // -------------------------------------------------------------------------------------------

    /** `confirmAndClaimBankProcessing`: a gap is handed to `markAmountMismatch`; a conforming notification
        claims the bank leg by a guarded update, or repairs the closure of a matched payment. An exception is raised
        by a transaction that is rolled back, by a refused transition, or by an instruction that is already there, and
        leaves everything as it was. */
    method ConfirmAndClaimBankProcessing(c: Config, before: Row, n: Note, abort: bool)
      returns (claimed: bool, raised: bool)
      requires c.feeQ > 0
      modifies this
      ensures w == if abort then old(w) else ApplyNote(c, old(w), Hook(n.(failed := false), before))
      ensures claimed
              <==> !raised && LegsAgree(Some(n.amount), Some(n.currency), before)
                   && old(w).row.state.bank == Some(BNotStarted)
                   && old(w).row.state.provider in {Some(PInitiated), Some(PPending)}
      ensures claimed ==>
                w.row.fee == Ledger.Fee(n.amount, c.feeP, c.feeQ)
                && w == old(w).(
                   row := old(w).row.(
                     state := old(w).row.state.(status := StProcessing, provider := Some(PConfirmed),
                                                bank := Some(BProcessing)),
                     collected := Some(n.amount), collectedCurrency := Some(n.currency), fee := w.row.fee),
                   facts := old(w).facts
                            + [Fact(ProviderConfirmed, w.row.amount, Some(n.amount), w.row.fee, None)],
                   instruction := Some(Instruction(IPending, 0, w.now, w.now)))
      ensures raised ==> w == old(w)
      ensures raised <==>
                abort
                || if LegsAgree(Some(n.amount), Some(n.currency), before)
                   then CanClaim(old(w))
                        && (!Legal(before.state, ConfirmedRow(c, old(w).row, n).state) || old(w).instruction.Some?)
                   else Unstarted(old(w)) && !Legal(before.state, MismatchedRow(old(w).row, n).state)
    {
      raised := false;
      if !AmountsMatch(Some(n.amount), Some(before.amount))
        || !CurrenciesMatch(Some(n.currency), Some(before.currency)) {
        raised := MarkAmountMismatch(before, n, abort);
        return false, raised;
      }
      if abort {
        return false, true;
      }
      if w.row.state.bank == Some(BNotStarted) && w.row.state.provider in {Some(PInitiated), Some(PPending)} {
        var fee := Ledger.Fee(n.amount, c.feeP, c.feeQ);
        var row := w.row;
        row := row.(state := row.state.(provider := Some(PConfirmed)));
        row := row.(collected := Some(n.amount), collectedCurrency := Some(n.currency), fee := fee);
        row := row.(state := row.state.(bank := Some(BProcessing), status := StProcessing));
        var violations := AssertTransition(before.state, row.state);
        if violations != [] || w.instruction.Some? {
          return false, true;
        }
        var fact := Fact(ProviderConfirmed, row.amount, Some(n.amount), row.fee, None);
        w := w.(row := row);
        w := w.(facts := w.facts + [fact]);
        w := w.(instruction := Some(Instruction(IPending, 0, w.now, w.now)));
        return true, false;
      }
      if w.row.state.reconciliation == Some(RMatched) {
        CloseCase(w.row);
      }
      claimed := false;
    }

    /** `markAmountMismatch`: an unstarted leg is blocked, the debt and the case are opened, and three facts say what
        was observed; a leg that has moved is left alone. */
    method MarkAmountMismatch(before: Row, n: Note, abort: bool) returns (raised: bool)
      modifies this
      ensures w == if abort then old(w) else Gateway.MarkAmountMismatch(old(w), before, n)
      ensures old(w).row.state.bank != Some(BNotStarted) ==> w == old(w)
      ensures !raised && old(w).row.state.bank == Some(BNotStarted) ==>
                w == old(w).(
                row := old(w).row.(
                  state := State(StFailed, Some(PConfirmed), Some(BBlocked), w.row.state.reconciliation,
                                 Some(FRequired), Some(CManualReview), old(w).row.state.channel),
                  collected := Some(n.amount), collectedCurrency := Some(n.currency)),
                facts := old(w).facts + [Fact(AmountMismatchDetected, w.row.amount, Some(n.amount), w.row.fee, None)]
                         + [Fact(BankProcessingBlocked, w.row.amount, Some(n.amount), w.row.fee, None)]
                         + [Fact(CaseOpened, w.row.amount, Some(n.amount), w.row.fee, None)])
                && w.row.state.reconciliation
                   == Some(if CurrenciesMatch(Some(n.currency), Some(w.row.currency)) then RAmountMismatch
                           else RCurrencyMismatch)
      ensures raised <==> abort || (Unstarted(old(w)) && !Legal(before.state, MismatchedRow(old(w).row, n).state))
      ensures raised ==> w == old(w)
    {
      if abort {
        return true;
      }
      if w.row.state.bank != Some(BNotStarted) {
        return false;
      }
      var row := w.row.(collected := Some(n.amount), collectedCurrency := Some(n.currency));
      var gap := if CurrenciesMatch(Some(n.currency), Some(row.currency)) then RAmountMismatch else RCurrencyMismatch;
      row := row.(state := row.state.(provider := Some(PConfirmed), bank := Some(BBlocked), status := StFailed));
      row := row.(state := row.state.(reconciliation := Some(gap), refund := Some(FRequired),
                                      case_ := Some(CManualReview)));
      assert row == MismatchedRow(w.row, n);
      var violations := AssertTransition(before.state, row.state);
      if violations != [] {
        return true;
      }
      w := w.(row := row);
      w := w.(facts := w.facts + [Fact(AmountMismatchDetected, row.amount, Some(n.amount), row.fee, None)]);
      w := w.(facts := w.facts + [Fact(BankProcessingBlocked, row.amount, Some(n.amount), row.fee, None)]);
      w := w.(facts := w.facts + [Fact(CaseOpened, row.amount, Some(n.amount), row.fee, None)]);
      raised := false;
    }

    /** `markProviderFailed`: an unstarted payment is refused, owes nothing, and its case is closed. */
    method MarkProviderFailed(before: Row, n: Note, abort: bool) returns (raised: bool)
      modifies this
      ensures w == if abort then old(w) else Gateway.MarkProviderFailed(old(w), before, n)
      ensures old(w).row.state.bank != Some(BNotStarted) ==> w == old(w)
      ensures !raised && old(w).row.state.bank == Some(BNotStarted) ==>
                var failed := Fact(ProviderFailed, w.row.amount, Some(n.amount), w.row.fee, None);
                var closed := Fact(CaseClosed, w.row.amount, None, w.row.fee, None);
                w == old(w).(
                row := old(w).row.(
                  state := old(w).row.state.(
                    status := StFailed, provider := Some(PFailed), reconciliation := Some(RNotApplicable),
                    refund := Some(FNotRequired), case_ := Some(CNone)),
                  collected := Some(n.amount), collectedCurrency := Some(n.currency)),
                facts := old(w).facts + [failed] + (if Has(old(w).facts, CaseClosed) then [] else [closed]))
      ensures raised <==> abort || (Unstarted(old(w)) && !Legal(before.state, RefusedRow(old(w).row, n).state))
      ensures raised ==> w == old(w)
    {
      if abort {
        return true;
      }
      if w.row.state.bank != Some(BNotStarted) {
        return false;
      }
      var row := w.row.(collected := Some(n.amount), collectedCurrency := Some(n.currency));
      row := row.(state := row.state.(provider := Some(PFailed), status := StFailed));
      row := row.(state := row.state.(reconciliation := Some(RNotApplicable), refund := Some(FNotRequired),
                                      case_ := Some(CNone)));
      var violations := AssertTransition(before.state, row.state);
      if violations != [] {
        return true;
      }
      ClosedAsBefore(w.facts, Fact(ProviderFailed, row.amount, Some(n.amount), row.fee, None));
      w := w.(row := row, facts := w.facts + [Fact(ProviderFailed, row.amount, Some(n.amount), row.fee, None)]);
      CloseCase(row);
      raised := false;
    }

    /** `closeCase`: one closure, the last word on a registry that is not empty. */
    method CloseCase(r: Row)
      modifies this
      ensures w == old(w).(facts := Gateway.CloseCase(old(w).facts, r))
      ensures var facts := old(w).facts;
              w.facts == if facts == [] || (exists i :: 0 <= i < |facts| && facts[i].t == CaseClosed) then facts
                         else facts + [Fact(CaseClosed, r.amount, None, r.fee, None)]
    {
      if w.facts == [] || Closed(w.facts) {
        return;
      }
      w := w.(facts := w.facts + [Fact(CaseClosed, r.amount, None, r.fee, None)]);
    }

    // -------------------------------------------------------------------------------------------
    // src/mobile-money/bank-instruction.worker.ts and the execution it drives
    // -------------------------------------------------------------------------------------------

    /** `claimNext`, on the instruction of this payment: one that waits and is due, or one in flight whose lease of five
        minutes is over. It is counted, and in flight from now on. */
    method ClaimNext() returns (job: Option<Job>)
      modifies this
      ensures job.Some?
              <==> old(w).instruction.Some?
                   && var i := old(w).instruction.value;
                      (i.status == IPending && i.nextAt <= w.now)
                      || (i.status == IInFlight && i.updatedAt + 300_000 <= w.now)
      ensures job.None? ==> w == old(w)
      ensures job.Some? ==>
                var i := old(w).instruction.value;
                var j := Instruction(IInFlight, i.attempts + 1, i.nextAt, w.now);
                job == Some(Claimed(j, w.now, w.row))
                && w == old(w).(instruction := Some(j), reclaims := w.reclaims)
                && w.reclaims == old(w).reclaims + (if i.status == IInFlight then 1 else 0)
      ensures if Claimable(old(w))
              then w == Claim(old(w), 0).(jobs := old(w).jobs) && job == Some(Claim(old(w), 0).jobs[0])
              else w == old(w) && job == None
    {
      if w.instruction.None? {
        return None;
      }
      var i := w.instruction.value;
      var due := i.status == IPending && i.nextAt <= w.now;
      var expired := i.status == IInFlight && i.updatedAt + LEASE <= w.now;
      if !due && !expired {
        return None;
      }
      i := i.(status := IInFlight, updatedAt := w.now);
      i := i.(attempts := i.attempts + 1);
      w := w.(instruction := Some(i), reclaims := if expired then w.reclaims + 1 else w.reclaims);
      job := Some(Claimed(i, w.now, w.row));
    }

    /** `reconcile` on an entity: the row it saved, or the exception of a refused or rolled back transaction. A match is
        repeated by a closure alone; legs not both over are put back in line; otherwise the row says whether the legs
        agree, one fact records it, and a match closes the case. */
    method Reconcile(e: Row, abort: bool) returns (saved: Option<Row>)
      modifies this
      ensures saved.None? ==> w == old(w)
      ensures saved.None?
              <==> abort
                   || (e.state.provider == Some(PConfirmed) && e.state.bank == Some(BCompleted)
                       && e.state.reconciliation != Some(RMatched)
                       && var verdict := if LegsAgree(e.collected, e.collectedCurrency, e) then RMatched else RMismatch;
                          !Legal(e.state, e.state.(reconciliation := Some(verdict))))
      ensures saved.Some? ==>
                var over := e.state.provider == Some(PConfirmed) && e.state.bank == Some(BCompleted);
                if e.state.reconciliation == Some(RMatched) then w == old(w).(facts := w.facts) && saved == Some(e)
                else
                  w == old(w).(row := e.(state := e.state.(reconciliation := w.row.state.reconciliation)),
                               facts := w.facts)
                  && w.row.state.reconciliation
                     == Some(if !over then (if e.state.bank == Some(BFailed) then RManualReview else RPending)
                             else if LegsAgree(e.collected, e.collectedCurrency, e) then RMatched else RMismatch)
      ensures saved.Some? ==>
                var over := e.state.provider == Some(PConfirmed) && e.state.bank == Some(BCompleted);
                var fact := if LegsAgree(e.collected, e.collectedCurrency, e) then ReconciliationMatched
                            else ReconciliationMismatch;
                var facts := if e.state.reconciliation == Some(RMatched) || !over then old(w).facts
                             else old(w).facts + [Fact(fact, e.amount, e.collected, e.fee, None)];
                var closes := e.state.reconciliation == Some(RMatched)
                              || (over && LegsAgree(e.collected, e.collectedCurrency, e));
                w.facts == if !closes || facts == [] || Has(facts, CaseClosed) then facts
                           else facts + [Fact(CaseClosed, e.amount, None, e.fee, None)]
      ensures abort ==> w == old(w) && saved == None
      ensures !abort ==>
              match Gateway.Reconcile(old(w), e)
              case Some(v) =>
                w == v && saved.Some?
                && (e.state.reconciliation != Some(RMatched) ==> saved.value == v.row)
                && (e.state.reconciliation == Some(RMatched) ==> saved.value == e)
              case None => w == old(w) && saved == None
    {
      if abort {
        return None;
      }
      var row := e;
      if row.state.reconciliation == Some(RMatched) {
        CloseCase(row);
        return Some(row);
      }
      if row.state.provider != Some(PConfirmed) || row.state.bank != Some(BCompleted) {
        row := row.(state := row.state.(
          reconciliation := Some(if row.state.bank == Some(BFailed) then RManualReview else RPending)));
        w := w.(row := row);
        return Some(row);
      }
      var amounts := AmountsMatch(row.collected, Some(row.amount));
      var currencies := CurrenciesMatch(row.collectedCurrency, Some(row.currency));
      row := row.(state := row.state.(reconciliation := Some(if amounts && currencies then RMatched else RMismatch)));
      var violations := AssertTransition(e.state, row.state);
      if violations != [] {
        return None;
      }
      var t := if row.state.reconciliation == Some(RMatched) then ReconciliationMatched else ReconciliationMismatch;
      w := w.(row := row, facts := w.facts + [Fact(t, row.amount, row.collected, row.fee, None)]);
      if row.state.reconciliation == Some(RMatched) {
        CloseCase(row);
      }
      saved := Some(row);
    }

    /** `handleBankFailure`: the refusal, the debt and the opened case, or, when the transaction is refused or rolled
        back, an exception and an entity that says more than the row. */
    method HandleBankFailure(e: Row, abort: bool, ghost i: Instruction, ghost at: nat) returns (tx: Row, raised: bool)
      modifies this
      ensures raised <==> abort || !Legal(e.state, FailureRow(e).state)
      ensures raised ==> w == old(w)
      ensures RowAndFacts(old(w), w)
      ensures tx == e.(state := State(StFailed, e.state.provider, Some(BFailed), Some(RManualReview), Some(FRequired),
                                      Some(CManualReview), e.state.channel))
      ensures !raised ==>
                w.row == tx
                && w.facts == old(w).facts + [Fact(BankProcessingFailed, e.amount, None, e.fee, None)]
                              + [Fact(CaseOpened, e.amount, None, e.fee, None)]
      ensures var j := Replied(i, at, e, Fault);
              Busy(w, After(raised, i, at, tx)) == ApplyReply(Busy(old(w), j), 0, j, abort)
    {
      tx := e.(state := e.state.(status := StFailed, bank := Some(BFailed), reconciliation := Some(RManualReview)));
      tx := tx.(state := tx.state.(refund := Some(FRequired), case_ := Some(CManualReview)));
      assert tx == FailureRow(e);
      ghost var jobs := Busy(w, Replied(i, at, e, Fault)).jobs;
      var violations := AssertTransition(e.state, tx.state);
      if abort || violations != [] {
        assert jobs[0 := Caught(i, at, tx)] == map[0 := Caught(i, at, tx)];
        return tx, true;
      }
      w := w.(row := tx, facts := w.facts + [Fact(BankProcessingFailed, tx.amount, None, tx.fee, None)]);
      w := w.(facts := w.facts + [Fact(CaseOpened, tx.amount, None, tx.fee, None)]);
      assert jobs[0 := Settled(i, at, tx)] == map[0 := Settled(i, at, tx)];
      raised := false;
    }

    /** `applyBankSuccess`: the settled leg in one transaction, the reconciliation in another, whose failure does not
        undo the first: the leg stays completed, and its fact recorded. */
    method ApplyBankSuccess(e: Row, abort: bool, abortReconcile: bool, ghost i: Instruction, ghost at: nat)
      returns (tx: Row, raised: bool)
      modifies this
      ensures RowAndFacts(old(w), w)
      ensures var settles := !abort && Legal(e.state, SuccessRow(e).state);
              (raised <==> !settles || abortReconcile || Unmatchable(SuccessRow(e)))
              && (!settles ==> w == old(w))
              && (settles ==>
                    w.row == e.(state := e.state.(status := StCompleted, bank := Some(BCompleted),
                                                  reconciliation := w.row.state.reconciliation))
                    && old(w).facts + [Fact(BankProcessingCompleted, e.amount, None, e.fee, None)] <= w.facts)
      ensures var j := Replied(i, at, e, Success);
              var v := ApplyReply(Busy(old(w), j), 0, j, abort);
              Busy(w, After(raised, i, at, tx))
              == if v.jobs[0].Applied? then ReconcileApplied(v, 0, v.jobs[0], abortReconcile) else v
    {
      tx := e.(state := e.state.(status := StCompleted, bank := Some(BCompleted)));
      assert tx == SuccessRow(e);
      ghost var jobs := Busy(w, Replied(i, at, e, Success)).jobs;
      var violations := AssertTransition(e.state, tx.state);
      if abort || violations != [] {
        assert jobs[0 := Caught(i, at, tx)] == map[0 := Caught(i, at, tx)];
        return tx, true;
      }
      w := w.(row := tx, facts := w.facts + [Fact(BankProcessingCompleted, tx.amount, None, tx.fee, None)]);
      assert jobs[0 := Applied(i, at, tx)] == map[0 := Applied(i, at, tx)];
      tx, raised := ReconcileOwn(tx, abortReconcile, i, at);
    }

    /** The reconciliation that ends an execution; the entity is mutated before the transaction. */
    method ReconcileOwn(e: Row, abort: bool, ghost i: Instruction, ghost at: nat) returns (tx: Row, raised: bool)
      modifies this
      ensures raised <==> abort || Unmatchable(e)
      ensures raised ==> w == old(w)
      ensures RowAndFacts(old(w), w)
      ensures e.state.bank == old(w).row.state.bank ==> w.row.state.bank == e.state.bank
      ensures var j := Applied(i, at, e);
              Busy(w, After(raised, i, at, tx)) == ReconcileApplied(Busy(old(w), j), 0, j, abort)
    {
      tx := e.(state := e.state.(reconciliation :=
              Some(if LegsAgree(e.collected, e.collectedCurrency, e) then RMatched else RMismatch)));
      assert tx == ReconciledRow(e);
      OwnReconciled(w, i, at, e, abort);
      var saved := Reconcile(e, abort);
      raised := saved.None?;
    }

    /** `deadLetter`: the instruction is abandoned and the debt opened, all or nothing. */
    method DeadLetter(i: Instruction, tx: Row, abort: bool) returns (done: bool)
      modifies this
      ensures done ==>
                w == old(w).(
                     row := tx.(state := State(StFailed, tx.state.provider, Some(BFailed), Some(RManualReview),
                                               Some(FRequired), Some(CManualReview), tx.state.channel)),
                     facts := old(w).facts + [Fact(BankProcessingFailed, tx.amount, None, tx.fee, None)]
                              + [Fact(CaseOpened, tx.amount, None, tx.fee, None)],
                     instruction := Some(Instruction(IDeadLetter, i.attempts, i.nextAt, w.now)))
      ensures done <==> !abort && Legal(tx.state, FailureRow(tx).state)
      ensures done ==>
                w == old(w).(row := FailureRow(tx), facts := FailureFacts(old(w).facts, FailureRow(tx)),
                             instruction := Some(i.(status := IDeadLetter, updatedAt := old(w).now)))
      ensures !done ==> w == old(w)
    {
      var row := tx.(state := tx.state.(status := StFailed, bank := Some(BFailed),
                                        reconciliation := Some(RManualReview)));
      row := row.(state := row.state.(refund := Some(FRequired), case_ := Some(CManualReview)));
      var violations := AssertTransition(tx.state, row.state);
      if abort || violations != [] {
        return false;
      }
      w := w.(instruction := Some(i.(status := IDeadLetter, updatedAt := w.now)));
      w := w.(row := row, facts := w.facts + [Fact(BankProcessingFailed, row.amount, None, row.fee, None)]);
      w := w.(facts := w.facts + [Fact(CaseOpened, row.amount, None, row.fee, None)]);
      done := true;
    }

    /** The call of `attempt`: a leg already decided is not replayed. */
    method Execute(e: Row, x: BankExchange, ghost c: Config, ghost i: Instruction, ghost at: nat)
      returns (tx: Row, raised: bool)
      requires c.feeQ > 0
      modifies this
      ensures raised <==> !BankDone(e) && Breaks(e, Saving(x))
      ensures raised || x.saveFails <==> Breaks(e, x)
      ensures RowAndFacts(old(w), w)
      ensures Drive(c, Busy(w, After(raised, i, at, tx)), x) == Drive(c, Busy(old(w), Claimed(i, at, e)), x)
      ensures tx == Remains(e, x)
    {
      tx, raised := e, false;
      CallTurn(c, w, i, at, e, x);
      if e.state.bank != Some(BCompleted) && e.state.bank != Some(BFailed) && e.state.bank != Some(BBlocked) {
        ReplyTurn(c, w, i, at, e, x);
        match x.reply {
          case Transport =>
            IncidentTurn(w, i, at, e, x.abort);
            raised := true;
          case Fault => tx, raised := HandleBankFailure(e, x.abort, i, at);
          case Success => tx, raised := ApplyBankSuccess(e, x.abort, x.abortReconcile, i, at);
        }
      }
    }

    /** `attempt`, catch included: worker 0 left alone. The instruction is completed if no exception is raised, delayed
        if one is and attempts are left, abandoned with the debt it leaves otherwise; None when the catch fails too, or
        even the dead letter is refused, and the exception goes on to the caller. */
    method Attempt(c: Config, i: Instruction, ghost at: nat, e: Row, x: BankExchange) returns (s: Option<Settlement>)
      requires c.feeQ > 0 && w.jobs == map[]
      modifies this
      ensures w == Drive(c, Busy(old(w), Claimed(i, at, e)), x) && Instructed(old(w), w)
      ensures s == Some(Completed) <==> !Breaks(e, x)
      ensures s == Some(Retry) <==> Breaks(e, x) && !x.catchFails && i.attempts < c.maxAttempts
      ensures s == None <==> Escapes(c, i, e, x)
      ensures s == Some(Completed) ==> w.instruction == Some(i.(status := ICompleted, updatedAt := w.now))
      ensures s == Some(Retry) ==> w.instruction == Some(Delayed(i, w.now))
      ensures s == Some(DeadLettered) ==>
                w.instruction == Some(i.(status := IDeadLetter, updatedAt := w.now))
                  && w.row == FailureRow(Remains(e, x))
      ensures s == None ==> w.instruction == old(w).instruction
    {
      var tx, raised := Execute(e, x, c, i, at);
      EndTurns(c, w, i, at, tx, raised, x);
      if !raised && !x.saveFails {
        w := w.(instruction := Some(i.(status := ICompleted, updatedAt := w.now)));
        return Some(Completed);
      }
      s := Catch(c, i, tx, x.catchFails);
    }

    /** The catch of `attempt`. */
    method Catch(c: Config, i: Instruction, tx: Row, fails: bool) returns (s: Option<Settlement>)
      requires w.jobs == map[]
      modifies this
      ensures w == if fails then old(w) else Collected(c, old(w), i, tx)
      ensures s == (if fails then None
                    else if i.attempts < c.maxAttempts then Some(Retry)
                    else if Legal(tx.state, FailureRow(tx).state) then Some(DeadLettered) else None)
      ensures Instructed(old(w), w)
      ensures s == Some(Retry) ==> w.instruction == Some(Delayed(i, w.now))
      ensures s == Some(DeadLettered)
              ==> w.instruction == Some(i.(status := IDeadLetter, updatedAt := w.now)) && w.row == FailureRow(tx)
      ensures s == None ==> w == old(w)
    {
      assert Busy(w, Caught(i, 0, tx)).jobs - {0} == map[];
      if i.attempts < c.maxAttempts {
        if fails {
          return None;
        }
        w := w.(instruction := Some(Delayed(i, w.now)));
        return Some(Retry);
      }
      var done := DeadLetter(i, tx, fails);
      s := if done then Some(DeadLettered) else None;
    }
  }

  lemma ClosedAsBefore(facts: seq<Fact>, f: Fact)
    requires f.t != CaseClosed
    ensures Has(facts + [f], CaseClosed) <==> Has(facts, CaseClosed)
  {
    forall i | 0 <= i < |facts| ensures (facts + [f])[i] == facts[i] {
    }
  }

  /** The step of the protocol for a caught exception, whenever the instruction was claimed. */
  function Collected(c: Config, w: World, i: Instruction, tx: Row): World {
    SaveCaught(c, Busy(w, Caught(i, 0, tx)), 0, Caught(i, 0, tx))
  }

  // ---------------------------------------------------------------------------------------------
  // The turns of a worker left alone
  // ---------------------------------------------------------------------------------------------

  lemma RefusedIff(w: World, e: Row)
    ensures Gateway.Reconcile(w, e).None? <==> Unmatchable(e)
  {
  }

  lemma ReconcileMoves(w: World, e: Row)
    ensures var x := Gateway.Reconcile(w, e); x.Some? ==> RowAndFacts(w, x.value)
  {
  }

  lemma ReconcileFrame(w: World, j: Job, e: Row)
    ensures var x := Gateway.Reconcile(w, e);
            Gateway.Reconcile(Busy(w, j), e) == if x.Some? then Some(Busy(x.value, j)) else None
  {
    if e.state.reconciliation == Some(RMatched) {
    } else if e.state.provider != Some(PConfirmed) || e.state.bank != Some(BCompleted) {
    } else {
      var x := Gateway.Reconcile(w, e);
      assert x.Some? ==> x.value.jobs == w.jobs;
    }
  }

  lemma OwnReconciled(w: World, i: Instruction, at: nat, e: Row, abort: bool)
    ensures var j := Applied(i, at, e);
            var x := Gateway.Reconcile(w, e);
            (x.None? <==> Unmatchable(e)) && (x.Some? ==> RowAndFacts(w, x.value))
            && ReconcileApplied(Busy(w, j), 0, j, abort)
               == if abort || x.None? then Busy(w, Caught(i, at, ReconciledRow(e)))
                  else Busy(x.value, Settled(i, at, ReconciledRow(e)))
  {
    var j := Applied(i, at, e);
    RefusedIff(w, e);
    ReconcileMoves(w, e);
    ReconcileFrame(w, j, e);
    assert Busy(w, j).jobs[0 := Caught(i, at, ReconciledRow(e))] == map[0 := Caught(i, at, ReconciledRow(e))];
    assert Busy(w, j).jobs[0 := Settled(i, at, ReconciledRow(e))] == map[0 := Settled(i, at, ReconciledRow(e))];
  }

  lemma CallTurn(c: Config, w: World, i: Instruction, at: nat, e: Row, x: BankExchange)
    requires c.feeQ > 0
    ensures var j := if BankDone(e) then Settled(i, at, e) else Replied(i, at, e, x.reply);
            Drive(c, Busy(w, Claimed(i, at, e)), x) == Drive(c, Busy(w, j), x)
  {
    var u := Busy(w, Claimed(i, at, e));
    assert Call(u, 0, u.jobs[0], x.reply).jobs
           == map[0 := if BankDone(e) then Settled(i, at, e) else Replied(i, at, e, x.reply)];
  }

  lemma ReplyTurn(c: Config, w: World, i: Instruction, at: nat, e: Row, x: BankExchange)
    requires c.feeQ > 0
    ensures var j := Replied(i, at, e, x.reply);
            var v := ApplyReply(Busy(w, j), 0, j, x.abort);
            0 in v.jobs && Drive(c, Busy(w, j), x) == Drive(c, v, x)
            && (v.jobs[0].Applied? ==>
                  Drive(c, v, x) == Drive(c, ReconcileApplied(v, 0, v.jobs[0], x.abortReconcile), x))
  {
    var j := Replied(i, at, e, x.reply);
    DriveOn(c, Busy(w, j), x);
    ReconcileTurn(c, ApplyReply(Busy(w, j), 0, j, x.abort), x);
  }

  lemma ReconcileTurn(c: Config, v: World, x: BankExchange)
    requires c.feeQ > 0
    ensures 0 in v.jobs && v.jobs[0].Applied? ==>
              Drive(c, v, x) == Drive(c, ReconcileApplied(v, 0, v.jobs[0], x.abortReconcile), x)
  {
    if 0 in v.jobs {
      DriveOn(c, v, x);
    }
  }

  lemma IncidentTurn(w: World, i: Instruction, at: nat, e: Row, abort: bool)
    ensures var j := Replied(i, at, e, Transport); ApplyReply(Busy(w, j), 0, j, abort) == Busy(w, Caught(i, at, e))
  {
    assert Busy(w, Replied(i, at, e, Transport)).jobs[0 := Caught(i, at, e)] == map[0 := Caught(i, at, e)];
  }

  lemma DriveOn(c: Config, w: World, x: BankExchange)
    requires c.feeQ > 0 && 0 in w.jobs
    ensures Enabled(w, Turn(w.jobs[0], x)) && Drive(c, w, x) == Drive(c, Next(c, w, Turn(w.jobs[0], x)), x)
  {
  }

  /** The last turns: the save, and the catch. */
  lemma EndTurns(c: Config, w: World, i: Instruction, at: nat, tx: Row, raised: bool, x: BankExchange)
    requires c.feeQ > 0 && w.jobs == map[]
    ensures Drive(c, Busy(w, After(raised, i, at, tx)), x)
            == if !raised && !x.saveFails then w.(instruction := Some(i.(status := ICompleted, updatedAt := w.now)))
               else if x.catchFails then w else Collected(c, w, i, tx)
  {
    if raised {
      CatchTurn(c, w, Caught(i, at, tx), x);
    } else if x.saveFails {
      UnsavedTurn(c, w, i, at, tx, x);
      CatchTurn(c, w, Unsaved(i, at, tx), x);
    } else {
      var u := Busy(w, Settled(i, at, tx));
      DriveOn(c, u, x);
      assert SaveCompleted(u, 0, u.jobs[0]).jobs == map[];
    }
  }

  lemma UnsavedTurn(c: Config, w: World, i: Instruction, at: nat, tx: Row, x: BankExchange)
    requires c.feeQ > 0 && x.saveFails
    ensures Drive(c, Busy(w, Settled(i, at, tx)), x) == Drive(c, Busy(w, Unsaved(i, at, tx)), x)
  {
    var u := Busy(w, Settled(i, at, tx));
    DriveOn(c, u, x);
    assert SaveFails(u, 0, u.jobs[0]) == Busy(w, Unsaved(i, at, tx));
  }

  lemma CatchTurn(c: Config, w: World, j: Job, x: BankExchange)
    requires c.feeQ > 0 && w.jobs == map[] && (j.Caught? || j.Unsaved?)
    ensures Drive(c, Busy(w, j), x) == if x.catchFails then w else Collected(c, w, j.i, j.tx)
  {
    DriveOn(c, Busy(w, j), x);
    if x.catchFails {
      assert Busy(w, j).jobs - {0} == map[];
    } else {
      SaveIsCollected(c, w, j);
    }
  }

  lemma SaveIsCollected(c: Config, w: World, j: Job)
    requires w.jobs == map[] && (j.Caught? || j.Unsaved?)
    ensures SaveCaught(c, Busy(w, j), 0, j) == Collected(c, w, j.i, j.tx)
            && SaveCaught(c, Busy(w, j), 0, j).jobs == map[]
  {
    assert Busy(w, j).jobs - {0} == map[];
    assert Busy(w, Caught(j.i, 0, j.tx)).jobs - {0} == map[];
  }

  // ---------------------------------------------------------------------------------------------
  // The attempt as a run of the protocol
  // ---------------------------------------------------------------------------------------------

  lemma {:induction false} DriveRuns(c: Config, w: World, x: BankExchange)
    requires c.feeQ > 0
    ensures Reaches(c, w, Drive(c, w, x), Free)
    decreases Ahead(w)
  {
    if 0 in w.jobs {
      DriveOn(c, w, x);
      TurnGoes(c, w, x);
      var v := Next(c, w, Turn(w.jobs[0], x));
      ReachesStep(c, w, Turn(w.jobs[0], x), Free);
      DriveRuns(c, v, x);
      ReachesTransitive(c, w, v, Drive(c, w, x), Free);
    } else {
      ReachesSelf(c, w, Free);
    }
  }

  /** What is still ahead of the worker ends in the failing save that does harm. */
  predicate HarmAhead(c: Config, j: Job, x: BankExchange) {
    match j
    case Claimed(i, _, e) => Harms(c, i, e, x)
    case Replied(i, _, e, reply) => reply == x.reply && !BankDone(e) && Harms(c, i, e, x)
    case Applied(i, _, e) =>
      x.saveFails && !x.catchFails && !x.abortReconcile && !Unmatchable(e) && i.attempts >= c.maxAttempts
      && Legal(ReconciledRow(e).state, FailureRow(ReconciledRow(e)).state)
    case Settled(i, at, tx) => x.saveFails && !x.catchFails && Leases.DoublesRefusal(c, Unsaved(i, at, tx))
    case Caught(_, _, _) => false
    case Unsaved(_, _, _) => !x.catchFails && Leases.DoublesRefusal(c, j)
  }

  /** Within its lease, on its reply, with no harm ahead. */
  predicate Harmless(c: Config, w: World, x: BankExchange) {
    0 in w.jobs ==>
      w.now < w.jobs[0].at + LEASE && !HarmAhead(c, w.jobs[0], x)
      && (w.jobs[0].Replied? ==> w.jobs[0].reply == x.reply && !BankDone(w.jobs[0].tx))
  }

  lemma CallHarmless(c: Config, w: World, x: BankExchange)
    requires Harmless(c, w, x) && 0 in w.jobs && w.jobs[0].Claimed?
    ensures Harmless(c, Call(w, 0, w.jobs[0], x.reply), x)
  {
  }

  lemma ApplyHarmless(c: Config, w: World, x: BankExchange)
    requires Harmless(c, w, x) && 0 in w.jobs && w.jobs[0].Replied?
    ensures Harmless(c, ApplyReply(w, 0, w.jobs[0], x.abort), x)
  {
  }

  lemma ReconcileHarmless(c: Config, w: World, x: BankExchange)
    requires Harmless(c, w, x) && 0 in w.jobs && w.jobs[0].Applied?
    ensures Harmless(c, ReconcileApplied(w, 0, w.jobs[0], x.abortReconcile), x)
  {
    RefusedIff(w, w.jobs[0].tx);
    ReconcileMoves(w, w.jobs[0].tx);
  }

  lemma TurnHarmless(c: Config, w: World, x: BankExchange)
    requires c.feeQ > 0 && Harmless(c, w, x) && 0 in w.jobs && Enabled(w, Turn(w.jobs[0], x))
    ensures Leases.LeaseStep(c, w, Turn(w.jobs[0], x)) && Harmless(c, Next(c, w, Turn(w.jobs[0], x)), x)
  {
    match w.jobs[0]
    case Claimed(_, _, _) => CallHarmless(c, w, x);
    case Replied(_, _, _, _) => ApplyHarmless(c, w, x);
    case Applied(_, _, _) => ReconcileHarmless(c, w, x);
    case _ =>
  }

  lemma {:induction false} DriveLeased(c: Config, w: World, x: BankExchange)
    requires c.feeQ > 0 && Harmless(c, w, x)
    ensures Reaches(c, w, Drive(c, w, x), Leases.InLease(c))
    decreases Ahead(w)
  {
    if 0 in w.jobs {
      DriveOn(c, w, x);
      TurnGoes(c, w, x);
      TurnHarmless(c, w, x);
      var v := Next(c, w, Turn(w.jobs[0], x));
      ReachesStep(c, w, Turn(w.jobs[0], x), Leases.InLease(c));
      DriveLeased(c, v, x);
      ReachesTransitive(c, w, v, Drive(c, w, x), Leases.InLease(c));
    } else {
      ReachesSelf(c, w, Leases.InLease(c));
    }
  }

  /** What an attempt at a due instruction leads to. */
  function Drained(c: Config, w: World, x: BankExchange): World
    requires c.feeQ > 0 && Claimable(w)
  {
    Drive(c, Claim(w, 0), x)
  }

  /** AN ATTEMPT IS A RUN. Claiming a due instruction of a payment at rest and attempting it, whatever the bank
      answers, whichever local transactions are rolled back and whichever saves fail, is a run of the protocol;
      and one within leases unless the failing save is the one that does harm. */
  lemma AttemptIsRun(c: Config, w: World, x: BankExchange)
    requires c.feeQ > 0 && AtRest(w) && Claimable(w)
    ensures Reaches(c, w, Drained(c, w, x), Free)
    ensures !Harms(c, Claim(w, 0).jobs[0].i, w.row, x) ==> Reaches(c, w, Drained(c, w, x), Leases.InLease(c))
  {
    var v := Claim(w, 0);
    ReachesStep(c, w, WorkerClaim(0), Free);
    DriveRuns(c, v, x);
    ReachesTransitive(c, w, v, Drained(c, w, x), Free);
    if !Harms(c, v.jobs[0].i, w.row, x) {
      ReachesStep(c, w, WorkerClaim(0), Leases.InLease(c));
      DriveLeased(c, v, x);
      ReachesTransitive(c, w, v, Drained(c, w, x), Leases.InLease(c));
    }
  }

  // ---------------------------------------------------------------------------------------------
  // When an exception leaves the worker
  // ---------------------------------------------------------------------------------------------

  /** The dead letter of what remains is refused. */
  predicate Refusable(e: Row, x: BankExchange) { !Legal(Remains(e, x).state, FailureRow(Remains(e, x)).state) }

  /** The catch fails too, or no attempt is left and the dead letter is refused. */
  predicate Escapes(c: Config, i: Instruction, e: Row, x: BankExchange) {
    Breaks(e, x) && (x.catchFails || (i.attempts >= c.maxAttempts && Refusable(e, x)))
  }

  /** Something fails after the reply of the bank, or there is no reply. */
  predicate LocalFailure(x: BankExchange) {
    x.saveFails || x.reply == Transport || x.abort || (x.reply == Success && x.abortReconcile)
  }

  lemma ProcessingBreaks(e: Row, x: BankExchange)
    requires Leases.Shape(e.state) && e.state.bank == Some(BProcessing)
    requires LegsAgree(e.collected, e.collectedCurrency, e)
    ensures Breaks(e, x) <==> LocalFailure(x)
    ensures Refusable(e, x) <==> x.reply == Success
  {
    var f, y := FailureRow(e), SuccessRow(e);
    Leases.FailureLegal(e.state, f.state);
    Leases.SameLegal(f.state);
    Leases.SettlementIsLegal(e.state);
    Leases.MatchLegal(y.state, ReconciledRow(y).state);
    Leases.CompletedStays(y.state, FailureRow(y).state);
    Leases.CompletedStays(ReconciledRow(y).state, FailureRow(ReconciledRow(y)).state);
  }

  lemma DecidedBreaks(e: Row, x: BankExchange)
    requires Leases.Shape(e.state) && e.state.bank in {Some(BCompleted), Some(BFailed)}
    ensures Breaks(e, x) <==> x.saveFails
    ensures Refusable(e, x)
            <==> e.state.bank == Some(BCompleted) || e.state.refund in {Some(FRequested), Some(FCompleted)}
  {
    if e.state.bank == Some(BCompleted) {
      Leases.CompletedStays(e.state, FailureRow(e).state);
    } else if e.state.refund in {Some(FRequested), Some(FCompleted)} {
      assert !Moves(e.state, FailureRow(e).state, DRefund);
    } else {
      Leases.ShapeIsSound(FailureRow(e).state);
      forall d ensures Moves(e.state, FailureRow(e).state, d) {
      }
    }
  }

  /** WHEN AN EXCEPTION LEAVES THE WORKER. At any point of any run within leases, for an instruction that is due: if and
      only if something fails, and then what the catch writes fails too, or no attempt is left and the dead letter is
      refused. It is refused exactly when the bank has said yes, now or in an earlier attempt, and on a refused leg
      whose refund is requested or done. The instruction then stays in flight. */
  lemma WorkerEscapes(c: Config, amount: nat, currency: string, now: nat, steps: seq<Step>, rule: Rule, x: BankExchange)
    requires ValidConfig(c) && Leases.Implies(rule, Leases.InLease(c))
    requires Exec(c, Start(amount, currency, now), steps, rule).Some?
    requires Claimable(Exec(c, Start(amount, currency, now), steps, rule).value)
    ensures var w := Exec(c, Start(amount, currency, now), steps, rule).value;
            var i, processing := Claim(w, 0).jobs[0].i, w.row.state.bank == Some(BProcessing);
            var fails := if processing then LocalFailure(x) else x.saveFails;
            var refused := if processing then x.reply == Success
                           else
                             w.row.state.bank == Some(BCompleted)
                             || w.row.state.refund in {Some(FRequested), Some(FCompleted)};
            Escapes(c, i, w.row, x) <==> fails && (x.catchFails || (i.attempts >= c.maxAttempts && refused))
  {
    var w := Exec(c, Start(amount, currency, now), steps, rule).value;
    Leases.ReachesLease(c, amount, currency, now, steps, rule);
    if w.row.state.bank == Some(BProcessing) {
      ProcessingBreaks(w.row, x);
    } else {
      DecidedBreaks(w.row, x);
    }
  }

  // ---------------------------------------------------------------------------------------------
  // A worker left alone touches nobody else's memory
  // ---------------------------------------------------------------------------------------------

  predicate OnlyWorker(w: World) {
    w.hooks == map[] && w.recs == map[] && w.tries == map[] && forall k :: k in w.jobs ==> k == 0
  }

  lemma ApplyAlone(w: World, abort: bool)
    requires OnlyWorker(w) && 0 in w.jobs && w.jobs[0].Replied?
    ensures OnlyWorker(ApplyReply(w, 0, w.jobs[0], abort))
  {
  }

  lemma ReconcileAlone(w: World, abort: bool)
    requires OnlyWorker(w) && 0 in w.jobs && w.jobs[0].Applied?
    ensures OnlyWorker(ReconcileApplied(w, 0, w.jobs[0], abort))
  {
    ReconcileMoves(w, w.jobs[0].tx);
  }

  lemma CatchAlone(c: Config, w: World)
    requires OnlyWorker(w) && 0 in w.jobs && (w.jobs[0].Caught? || w.jobs[0].Unsaved?)
    ensures OnlyWorker(SaveCaught(c, w, 0, w.jobs[0]))
  {
  }

  lemma TurnAlone(c: Config, w: World, x: BankExchange)
    requires c.feeQ > 0 && OnlyWorker(w) && 0 in w.jobs && Enabled(w, Turn(w.jobs[0], x))
    ensures OnlyWorker(Next(c, w, Turn(w.jobs[0], x)))
  {
    match w.jobs[0]
    case Replied(_, _, _, _) => ApplyAlone(w, x.abort);
    case Applied(_, _, _) => ReconcileAlone(w, x.abortReconcile);
    case Caught(_, _, _) => CatchAlone(c, w);
    case Unsaved(_, _, _) => CatchAlone(c, w);
    case _ =>
  }

  lemma {:induction false} DriveRests(c: Config, w: World, x: BankExchange)
    requires c.feeQ > 0 && OnlyWorker(w)
    ensures AtRest(Drive(c, w, x))
    decreases Ahead(w)
  {
    if 0 in w.jobs {
      DriveOn(c, w, x);
      TurnGoes(c, w, x);
      TurnAlone(c, w, x);
      DriveRests(c, Next(c, w, Turn(w.jobs[0], x)), x);
    }
  }
}
