/** What always accuses an honest payment, and the interleavings behind it. */
module Races {
  import opened Basics
  import opened Domain
  import opened StateMachine
  import opened Gateway
  import opened Safety
  import opened Leases
  import opened RefundRuns
  import opened Witnesses
  import opened Honest
  import V = Verifier

  // ---------------------------------------------------------------------------------------------
  // Sweeps
  // ---------------------------------------------------------------------------------------------

  /** A sweep is never the last word but after a closure. */
  predicate SweptLate(facts: seq<Fact>) { DigestOf(facts).swept ==> DigestOf(facts).late }

  lemma PushSwept(facts: seq<Fact>, f: Fact)
    requires SweptLate(facts) && (f.t == SettlementSwept ==> DigestOf(facts).closed)
    ensures SweptLate(facts + [f])
  {
    DigestPush(facts, f);
  }

  lemma CloseSwept(facts: seq<Fact>, r: Row)
    requires SweptLate(facts)
    ensures SweptLate(CloseCase(facts, r))
  {
    PushSwept(facts, FactOf(r, CaseClosed, None, None));
  }

  lemma FailureSwept(facts: seq<Fact>, r: Row)
    requires SweptLate(facts)
    ensures SweptLate(FailureFacts(facts, r))
  {
    PushSwept(facts, FactOf(r, BankProcessingFailed, None, None));
    PushSwept(facts + [FactOf(r, BankProcessingFailed, None, None)], FactOf(r, CaseOpened, None, None));
  }

  lemma PushThenCloseSwept(facts: seq<Fact>, f: Fact, r: Row)
    requires SweptLate(facts) && f.t != SettlementSwept
    ensures SweptLate(facts + [f]) && SweptLate(CloseCase(facts + [f], r))
  {
    PushSwept(facts, f);
    CloseSwept(facts + [f], r);
  }

  lemma ConfirmSwept(c: Config, w: World, h: Hook)
    requires c.feeQ > 0 && SweptLate(w.facts)
    ensures SweptLate(ConfirmAndClaim(c, w, h.before, h.note).facts)
  {
    PushSwept(w.facts, FactOf(ConfirmedRow(c, w.row, h.note), ProviderConfirmed, Some(h.note.amount), None));
    CloseSwept(w.facts, w.row);
  }

  lemma MismatchSwept(w: World, h: Hook)
    requires SweptLate(w.facts)
    ensures SweptLate(MarkAmountMismatch(w, h.before, h.note).facts)
  {
    var o := Some(h.note.amount);
    var r := MismatchedRow(w.row, h.note);
    var f, g := FactOf(r, AmountMismatchDetected, o, None), FactOf(r, BankProcessingBlocked, o, None);
    PushSwept(w.facts, f);
    PushSwept(w.facts + [f], g);
    PushSwept(w.facts + [f] + [g], FactOf(r, CaseOpened, o, None));
  }

  lemma NoteSwept(c: Config, w: World, h: Hook)
    requires c.feeQ > 0 && SweptLate(w.facts)
    ensures SweptLate(ApplyNote(c, w, h).facts)
  {
    if h.note.failed {
      var r := RefusedRow(w.row, h.note);
      PushThenCloseSwept(w.facts, FactOf(r, ProviderFailed, Some(h.note.amount), None), r);
    } else {
      ConfirmSwept(c, w, h);
      MismatchSwept(w, h);
    }
  }

  lemma VerdictSwept(w: World, r: Row)
    requires SweptLate(w.facts)
    ensures SweptLate(CloseCase(w.facts + [FactOf(r, ReconciliationMatched, r.collected, None)], r))
    ensures SweptLate(w.facts + [FactOf(r, ReconciliationMismatch, r.collected, None)])
  {
    PushThenCloseSwept(w.facts, FactOf(r, ReconciliationMatched, r.collected, None), r);
    PushSwept(w.facts, FactOf(r, ReconciliationMismatch, r.collected, None));
  }

  lemma ReconcileSwept(w: World, e: Row)
    requires SweptLate(w.facts)
    ensures var x := Reconcile(w, e); x.Some? ==> SweptLate(x.value.facts)
  {
    var x := Reconcile(w, e);
    if x.Some? && x.value.facts != w.facts {
      if e.state.reconciliation == Some(RMatched) {
        CloseSwept(w.facts, e);
      } else {
        VerdictSwept(w, ReconciledRow(e));
      }
    }
  }

  lemma ApplySwept(w: World, k: nat, j: Job, abort: bool)
    requires SweptLate(w.facts) && j.Replied?
    ensures SweptLate(ApplyReply(w, k, j, abort).facts)
  {
    var v := ApplyReply(w, k, j, abort);
    if v.facts != w.facts {
      if j.reply == Success {
        PushSwept(w.facts, FactOf(SuccessRow(j.tx), BankProcessingCompleted, None, None));
      } else {
        FailureSwept(w.facts, FailureRow(j.tx));
      }
    }
  }

  lemma CaughtSwept(c: Config, w: World, k: nat, j: Job)
    requires SweptLate(w.facts) && (j.Caught? || j.Unsaved?)
    ensures SweptLate(SaveCaught(c, w, k, j).facts)
  {
    FailureSwept(w.facts, FailureRow(j.tx));
  }

  lemma AppliedSwept(w: World, k: nat, j: Job, abort: bool)
    requires SweptLate(w.facts) && j.Applied?
    ensures SweptLate(ReconcileApplied(w, k, j, abort).facts)
  {
    ReconcileSwept(w, j.tx);
  }

  lemma WorkerSwept(c: Config, w: World, s: Step)
    requires c.feeQ > 0 && SweptLate(w.facts) && Enabled(w, s) && IsWorkerStep(s)
    ensures SweptLate(Next(c, w, s).facts)
  {
    match s
    case WorkerApply(k, abort) => ApplySwept(w, k, w.jobs[k], abort);
    case WorkerReconcile(k, abort) => AppliedSwept(w, k, w.jobs[k], abort);
    case WorkerSave(k) => if !w.jobs[k].Settled? { CaughtSwept(c, w, k, w.jobs[k]); }
    case _ =>
  }

  lemma FinishSwept(w: World, p: nat, t: Try, rollback: Rollback)
    requires SweptLate(w.facts) && t.Answered?
    ensures SweptLate(RecordSuccess(w, p, t, rollback).facts) && SweptLate(RecordFailure(w, p, t).facts)
  {
    var good, bad := Sync(w, t.tx, FCompleted, true), Sync(w, t.tx, FFailed, false);
    if good.Some? {
      PushThenCloseSwept(w.facts, FactOf(good.value, RefundCompleted, Some(t.file.amount), t.actor), good.value);
    }
    if bad.Some? {
      PushSwept(w.facts, FactOf(bad.value, RefundFailed, Some(t.file.amount), t.actor));
    }
  }

  lemma RefundSwept(c: Config, w: World, s: Step)
    requires c.feeQ > 0 && SweptLate(w.facts) && Enabled(w, s) && IsRefundStep(s)
    ensures SweptLate(Next(c, w, s).facts)
  {
    match s
    case RefundFind(p, key) => CloseSwept(w.facts, w.tries[p].tx);
    case RefundStart(p) =>
      var t := w.tries[p];
      var x := Sync(w, t.tx, FRequested, false);
      if x.Some? {
        PushSwept(w.facts, FactOf(x.value, RefundRequested, Some(t.file.amount), t.actor));
      }
    case RefundFinish(p, rollback) => FinishSwept(w, p, w.tries[p], rollback);
    case RefundReopen(who) => PushSwept(w.facts, FactOf(w.row, RefundReopened, Some(w.refund.value.amount), who));
    case _ =>
  }

  lemma StepSwept(c: Config, w: World, s: Step)
    requires c.feeQ > 0 && RowOk(w) && SweptLate(w.facts) && Enabled(w, s)
    ensures SweptLate(Next(c, w, s).facts)
  {
    if IsWorkerStep(s) {
      WorkerSwept(c, w, s);
    } else if IsRefundStep(s) {
      RefundSwept(c, w, s);
    } else if s.HookApply? {
      NoteSwept(c, w, w.hooks[s.p]);
    } else if s.RecApply? {
      ReconcileSwept(w, w.recs[s.p]);
    } else if s.TreasurySweep? {
      DigestCounts(w.facts);
      PushSwept(w.facts, FactOf(w.row, SettlementSwept, w.row.collected, None));
    }
  }

  lemma {:induction false} RunSwept(c: Config, w: World, steps: seq<Step>, rule: Rule)
    requires ValidConfig(c) && Inv(c, w) && SweptLate(w.facts) && Exec(c, w, steps, rule).Some?
    ensures SweptLate(Exec(c, w, steps, rule).value.facts)
    decreases |steps|
  {
    if steps != [] {
      StepKeeps(c, w, steps[0]);
      StepSwept(c, w, steps[0]);
      RunSwept(c, Next(c, w, steps[0]), steps[1..], rule);
    }
  }

  /** EVERY SWEEP ACCUSES. In every run, once a collection has been swept, `verify` answers TAMPERED, at once
      and for ever: the closure it must follow was written together with the match it requires. */
  lemma EverySweepIsAccused(c: Config, amount: nat, currency: string, now: nat, steps: seq<Step>, rule: Rule,
                            check: V.Check, s: V.Store)
    requires ValidConfig(c) && Exec(c, Start(amount, currency, now), steps, rule).Some?
    requires var w := Exec(c, Start(amount, currency, now), steps, rule).value;
             Has(w.facts, SettlementSwept) && Records(s, w.facts)
    ensures V.VerdictOf(check, s) == V.TAMPERED
  {
    var w0, w := Start(amount, currency, now), Exec(c, Start(amount, currency, now), steps, rule).value;
    StartInv(c, amount, currency, now);
    assert w0.facts == [] + [w0.facts[0]];
    PushSwept([], w0.facts[0]);
    RunSwept(c, w0, steps, rule);
    DigestMeans(w.facts);
    LateIsAccused(check, s, w.facts);
  }

  // ---------------------------------------------------------------------------------------------
  // A run for each accusing step
  // ---------------------------------------------------------------------------------------------

  /** An orderly run from w, one step of which accuses. */
  ghost predicate Accuses(w: World, steps: seq<Step>) {
    Exec(MAX_ONE, w, steps, Orderly(MAX_ONE)).Some? && Happens(MAX_ONE, w, steps, Orderly(MAX_ONE), Accusing)
  }

  ghost predicate Goes(w: World, s: Step, v: World) {
    Enabled(w, s) && OrderlyStep(MAX_ONE, w, s) && Next(MAX_ONE, w, s) == v
  }

  lemma GoesOn(w: World, s: Step, v: World, rest: seq<Step>)
    requires Goes(w, s, v) && Accuses(v, rest)
    ensures Accuses(w, [s] + rest)
  {
    assert ([s] + rest)[1..] == rest;
  }

  lemma Ends(w: World, s: Step)
    requires Enabled(w, s) && OrderlyStep(MAX_ONE, w, s) && Accusing(w, s)
    ensures Accuses(w, [s])
  {
    ExecStep(MAX_ONE, w, s, [], Orderly(MAX_ONE));
    assert [s] + [] == [s];
  }

  lemma {:induction false} GoesFar(w: World, a: seq<Step>, b: seq<Step>)
    requires Exec(MAX_ONE, w, a, Orderly(MAX_ONE)).Some?
    requires Accuses(Exec(MAX_ONE, w, a, Orderly(MAX_ONE)).value, b)
    ensures Accuses(w, a + b)
    decreases |a|
  {
    if a == [] {
      assert a + b == b;
    } else {
      var v := Next(MAX_ONE, w, a[0]);
      GoesFar(v, a[1..], b);
      GoesOn(w, a[0], v, a[1..] + b);
      assert a + b == [a[0]] + (a[1..] + b);
    }
  }

  /** A payment confirmed, instructed and settled by the bank, its worker about to reconcile it. */
  function SettleRun(amount: nat): seq<Step> {
    [HookRead(0, Note(false, amount, "EUR"))]
      + ([HookApply(0)] + ([WorkerClaim(0)] + ([WorkerCall(0, Success)] + ([WorkerApply(0, false)] + []))))
  }

  function SettledWorld(amount: nat): World {
    var w, r := OneWorker(amount, Success), SuccessRow(RunningRow(amount));
    w.(row := r, facts := w.facts + [FactOf(r, BankProcessingCompleted, None, None)],
       jobs := map[0 := Applied(Instruction(IInFlight, 1, 0, 0), 0, r)])
  }

  lemma ReachesSettled(amount: nat)
    requires amount > 0
    ensures Exec(MAX_ONE, Start(amount, "EUR", 0), SettleRun(amount), Orderly(MAX_ONE)) == Some(SettledWorld(amount))
  {
    var last := [WorkerApply(0, false)] + [];
    ReachesConfirmed(amount, [WorkerClaim(0)] + ([WorkerCall(0, Success)] + last), Orderly(MAX_ONE));
    FirstWorker(amount, Success, last, Orderly(MAX_ONE));
    var w := OneWorker(amount, Success);
    SettlementIsLegal(RunningRow(amount).state);
    ExecStep(MAX_ONE, w, WorkerApply(0, false), [], Orderly(MAX_ONE));
    assert ApplyReply(w, 0, w.jobs[0], false).jobs == SettledWorld(amount).jobs;
  }

  function MatchedRow(amount: nat): Row { ReconciledRow(SuccessRow(RunningRow(amount))) }

  function MatchFacts(facts: seq<Fact>, amount: nat): seq<Fact> {
    var r := MatchedRow(amount);
    CloseCase(facts + [FactOf(r, ReconciliationMatched, Some(amount), None)], r)
  }

  lemma Matches(amount: nat, w: World)
    ensures Reconcile(w, SuccessRow(RunningRow(amount)))
            == Some(w.(row := MatchedRow(amount), facts := MatchFacts(w.facts, amount)))
    ensures MatchedRow(amount).state.reconciliation == Some(RMatched)
  {
    SameCurrency();
    var e := SuccessRow(RunningRow(amount));
    assert LegsAgree(e.collected, e.collectedCurrency, e);
    MatchLegal(e.state, MatchedRow(amount).state);
  }

  lemma WorkerGoes(amount: nat, w: World)
    requires w.now == 0 && w.jobs == SettledWorld(amount).jobs
    ensures Enabled(w, WorkerReconcile(0, false)) && OrderlyStep(MAX_ONE, w, WorkerReconcile(0, false))
    ensures Next(MAX_ONE, w, WorkerReconcile(0, false)).row == MatchedRow(amount)
    ensures Next(MAX_ONE, w, WorkerReconcile(0, false)).recs == w.recs
    ensures Next(MAX_ONE, w, WorkerReconcile(0, false)).facts == MatchFacts(w.facts, amount)
  {
    Matches(amount, w);
  }

  lemma NotSwept(amount: nat)
    ensures !Has(MatchFacts(SettledWorld(amount).facts, amount), SettlementSwept)
  {
    var w := SettledWorld(amount);
    var f := FactOf(MatchedRow(amount), ReconciliationMatched, Some(amount), None);
    forall i | 0 <= i < |w.facts| ensures w.facts[i].t != SettlementSwept {
    }
    assert forall i :: 0 <= i < |w.facts + [f]| ==> (w.facts + [f])[i].t != SettlementSwept;
  }

  /** A collection settled, reconciled and then swept: the ordinary course of a payment. */
  lemma SweptRun(amount: nat)
    requires amount > 0
    ensures Accuses(Start(amount, "EUR", 0), SettleRun(amount) + ([WorkerReconcile(0, false)] + [TreasurySweep]))
  {
    var w := SettledWorld(amount);
    ReachesSettled(amount);
    WorkerGoes(amount, w);
    var v := Next(MAX_ONE, w, WorkerReconcile(0, false));
    Matches(amount, w);
    NotSwept(amount);
    Ends(v, TreasurySweep);
    GoesOn(w, WorkerReconcile(0, false), v, [TreasurySweep]);
    GoesFar(Start(amount, "EUR", 0), SettleRun(amount), [WorkerReconcile(0, false)] + [TreasurySweep]);
  }

  lemma ReadsSettled(amount: nat)
    ensures var w := SettledWorld(amount); Goes(w, RecRead(0), w.(recs := map[0 := w.row]))
  {
  }

  /** The periodic pass has read the payment before its worker reconciles it, and reconciles it once more. */
  lemma StalePassRun(amount: nat)
    requires amount > 0
    ensures Accuses(Start(amount, "EUR", 0),
                    SettleRun(amount) + ([RecRead(0)] + ([WorkerReconcile(0, false)] + [RecApply(0)])))
  {
    var w := SettledWorld(amount);
    var u := w.(recs := map[0 := w.row]);
    ReachesSettled(amount);
    ReadsSettled(amount);
    WorkerGoes(amount, u);
    Matches(amount, w);
    var v := Next(MAX_ONE, u, WorkerReconcile(0, false));
    Ends(v, RecApply(0));
    GoesOn(u, WorkerReconcile(0, false), v, [RecApply(0)]);
    GoesOn(w, RecRead(0), u, [WorkerReconcile(0, false)] + [RecApply(0)]);
    GoesFar(Start(amount, "EUR", 0), SettleRun(amount), [RecRead(0)] + ([WorkerReconcile(0, false)] + [RecApply(0)]));
  }

  lemma PassGoes(amount: nat, u: World)
    requires u.recs == map[0 := SuccessRow(RunningRow(amount))]
    ensures Enabled(u, RecApply(0)) && OrderlyStep(MAX_ONE, u, RecApply(0))
    ensures Next(MAX_ONE, u, RecApply(0)).row == MatchedRow(amount)
    ensures Next(MAX_ONE, u, RecApply(0)).jobs == u.jobs && Next(MAX_ONE, u, RecApply(0)).now == u.now
  {
    Matches(amount, u);
  }

  /** The periodic pass reconciles the payment while its worker is about to, which then does it once more. */
  lemma StaleWorkerRun(amount: nat)
    requires amount > 0
    ensures Accuses(Start(amount, "EUR", 0),
                    SettleRun(amount) + ([RecRead(0)] + ([RecApply(0)] + [WorkerReconcile(0, false)])))
  {
    var w := SettledWorld(amount);
    var u := w.(recs := map[0 := w.row]);
    ReachesSettled(amount);
    ReadsSettled(amount);
    PassGoes(amount, u);
    Matches(amount, w);
    var v := Next(MAX_ONE, u, RecApply(0));
    WorkerGoes(amount, v);
    Ends(v, WorkerReconcile(0, false));
    GoesOn(u, RecApply(0), v, [WorkerReconcile(0, false)]);
    GoesOn(w, RecRead(0), u, [RecApply(0)] + [WorkerReconcile(0, false)]);
    GoesFar(Start(amount, "EUR", 0), SettleRun(amount), [RecRead(0)] + ([RecApply(0)] + [WorkerReconcile(0, false)]));
  }

  const REFUSAL := Note(true, 1, "EUR")

  lemma RefusalGoes(amount: nat, w: World)
    requires w.row == PendingRow(amount) && 0 in w.hooks && w.hooks[0] == Hook(REFUSAL, PendingRow(amount))
    ensures Enabled(w, HookApply(0)) && OrderlyStep(MAX_ONE, w, HookApply(0))
    ensures Next(MAX_ONE, w, HookApply(0)).row == RefusedRow(PendingRow(amount), REFUSAL)
    ensures Next(MAX_ONE, w, HookApply(0)).hooks == w.hooks - {0}
  {
    var x, y := PendingRow(amount).state, RefusedRow(PendingRow(amount), REFUSAL).state;
    ShapeIsSound(y);
    forall d ensures Moves(x, y, d) {
    }
  }

  lemma RefusesTwice(amount: nat, w: World)
    requires w.row == RefusedRow(PendingRow(amount), REFUSAL) && 1 in w.hooks && w.hooks[1] == Hook(REFUSAL, w.row)
    ensures Accuses(w, [HookApply(1)])
  {
    var r := RefusedRow(w.row, REFUSAL);
    assert r == w.row;
    ShapeIsSound(r.state);
    SameLegal(r.state);
    assert RefusesAgain(w, HookApply(1));
    Ends(w, HookApply(1));
  }

  /** The same refusal notified twice, under two identifiers. */
  lemma TwiceRefusedRun(amount: nat)
    ensures Accuses(Start(amount, "EUR", 0),
                    [HookRead(0, REFUSAL)] + ([HookApply(0)] + ([HookRead(1, REFUSAL)] + [HookApply(1)])))
  {
    var w := Start(amount, "EUR", 0);
    var w1 := w.(hooks := map[0 := Hook(REFUSAL, w.row)]);
    assert Goes(w, HookRead(0, REFUSAL), w1);
    RefusalGoes(amount, w1);
    var w2 := Next(MAX_ONE, w1, HookApply(0));
    var w3 := w2.(hooks := w2.hooks[1 := Hook(REFUSAL, w2.row)]);
    assert Goes(w2, HookRead(1, REFUSAL), w3);
    RefusesTwice(amount, w3);
    GoesOn(w2, HookRead(1, REFUSAL), w3, [HookApply(1)]);
    GoesOn(w1, HookApply(0), w2, [HookRead(1, REFUSAL)] + [HookApply(1)]);
    GoesOn(w, HookRead(0, REFUSAL), w1, [HookApply(0)] + ([HookRead(1, REFUSAL)] + [HookApply(1)]));
  }

  lemma GapAccuses(amount: nat, k: nat, w: World)
    requires k != amount && w.row == RefusedRow(PendingRow(amount), REFUSAL)
    requires 1 in w.hooks && w.hooks[1] == Hook(Note(false, k, "EUR"), PendingRow(amount))
    ensures Accuses(w, [HookApply(1)])
  {
    var x, y := PendingRow(amount).state, MismatchedRow(w.row, w.hooks[1].note).state;
    ShapeIsSound(y);
    forall d ensures Moves(x, y, d) {
    }
    assert !LegsAgree(Some(k), Some("EUR"), PendingRow(amount));
    assert OverRefusal(w, HookApply(1));
    Ends(w, HookApply(1));
  }

  /** A confirmation for another amount, read before a refusal and applied after it. */
  lemma StaleMismatchRun(amount: nat, k: nat)
    requires k > 0 && k != amount
    ensures Accuses(Start(amount, "EUR", 0),
                    [HookRead(0, REFUSAL)] + ([HookRead(1, Note(false, k, "EUR"))] + ([HookApply(0)] + [HookApply(1)])))
  {
    var w, n := Start(amount, "EUR", 0), Note(false, k, "EUR");
    var w1 := w.(hooks := map[0 := Hook(REFUSAL, w.row)]);
    var w2 := w1.(hooks := w1.hooks[1 := Hook(n, w.row)]);
    assert Goes(w, HookRead(0, REFUSAL), w1);
    assert Goes(w1, HookRead(1, n), w2);
    RefusalGoes(amount, w2);
    var w3 := Next(MAX_ONE, w2, HookApply(0));
    GapAccuses(amount, k, w3);
    GoesOn(w2, HookApply(0), w3, [HookApply(1)]);
    GoesOn(w1, HookRead(1, n), w2, [HookApply(0)] + [HookApply(1)]);
    GoesOn(w, HookRead(0, REFUSAL), w1, [HookRead(1, n)] + ([HookApply(0)] + [HookApply(1)]));
  }
}
