/** Closing cases along runs: when the registry of a payment is never accused, and what always accuses it. */
module Honest {
  import opened Basics
  import opened Domain
  import opened StateMachine
  import opened Gateway
  import opened Safety
  import opened Leases
  import opened RefundRuns
  import R = Registry
  import V = Verifier
  import Verdicts
  import Writers
  import Anchoring
  import AnchorRuns

  // ---------------------------------------------------------------------------------------------
  // What accuses
  // ---------------------------------------------------------------------------------------------

  /** One more refusal commits on a payment already refused. */
  predicate RefusesAgain(w: World, s: Step) {
    s.HookApply? && s.p in w.hooks && w.hooks[s.p].note.failed && w.row.state.provider == Some(PFailed)
    && Legal(w.hooks[s.p].before.state, RefusedRow(w.row, w.hooks[s.p].note).state)
  }

  /** An entity read before the match is reconciled after it. */
  predicate MatchesAgain(w: World, s: Step) {
    w.row.state.reconciliation == Some(RMatched)
    && ((s.RecApply? && s.p in w.recs)
        || (s.WorkerReconcile? && !s.abort && s.k in w.jobs && w.jobs[s.k].Applied?))
  }

  /** The steps that write on a closed registry: a sweep, a second refusal, a mismatch over a refusal, a second
      match. */
  predicate Accusing(w: World, s: Step) {
    s.TreasurySweep? || RefusesAgain(w, s) || OverRefusal(w, s) || MatchesAgain(w, s)
  }

  // ---------------------------------------------------------------------------------------------
  // What the verifier sees of a registry
  // ---------------------------------------------------------------------------------------------

  /** Whether there is a closure, whether the last fact is one, whether a fact that ends a case is present,
      whether a fact follows a closure, whether a sweep is recorded. */
  datatype Digest = Digest(closed: bool, closedLast: bool, ended: bool, late: bool, swept: bool)

  const OPEN := Digest(false, false, false, false, false)
  const ENDED := Digest(false, false, true, false, false)
  const SHUT := Digest(true, true, true, false, false)

  function Read(d: Digest, t: EventType): Digest {
    Digest(d.closed || t == CaseClosed, t == CaseClosed, d.ended || V.EndsCase(t), d.late || d.closed,
           d.swept || t == SettlementSwept)
  }

  function DigestOf(facts: seq<Fact>): Digest {
    if facts == [] then OPEN else Read(DigestOf(facts[..|facts| - 1]), facts[|facts| - 1].t)
  }

  lemma DigestPush(facts: seq<Fact>, f: Fact)
    ensures DigestOf(facts + [f]) == Read(DigestOf(facts), f.t)
  {
    assert (facts + [f])[..|facts|] == facts;
  }

  lemma {:induction false} DigestCounts(facts: seq<Fact>)
    ensures DigestOf(facts).closed <==> Count(facts, CaseClosed) > 0
  {
    if facts != [] {
      DigestCounts(facts[..|facts| - 1]);
    }
  }

  /** The closing of a case: no effect on a shut registry; on an ended one, its one closure. */
  lemma DigestClose(facts: seq<Fact>, r: Row)
    ensures DigestOf(facts) == SHUT ==> CloseCase(facts, r) == facts
    ensures DigestOf(facts) == ENDED ==> DigestOf(CloseCase(facts, r)) == SHUT
  {
    DigestCounts(facts);
    HasCount(facts, CaseClosed);
    DigestPush(facts, FactOf(r, CaseClosed, None, None));
  }

  predicate Plain(t: EventType) { t != CaseClosed && !V.EndsCase(t) && t != SettlementSwept }

  lemma PushPlain(facts: seq<Fact>, f: Fact)
    requires DigestOf(facts) == OPEN && Plain(f.t)
    ensures DigestOf(facts + [f]) == OPEN
  {
    DigestPush(facts, f);
  }

  lemma PushEnd(facts: seq<Fact>, f: Fact, r: Row)
    requires DigestOf(facts) == OPEN && V.EndsCase(f.t)
    ensures DigestOf(CloseCase(facts + [f], r)) == SHUT
  {
    DigestPush(facts, f);
    DigestClose(facts + [f], r);
  }

  // ---------------------------------------------------------------------------------------------
  // The invariant
  // ---------------------------------------------------------------------------------------------

  /** The rows no further fact is expected on. */
  predicate Final(x: State) {
    x.provider == Some(PFailed) || x.reconciliation == Some(RMatched) || x.refund == Some(FCompleted)
  }

  /** The registry is shut exactly when the row is final. */
  predicate HonestInv(w: World) { DigestOf(w.facts) == if Final(w.row.state) then SHUT else OPEN }

  lemma StartHonest(amount: nat, currency: string, now: nat)
    ensures HonestInv(Start(amount, currency, now))
  {
    var w := Start(amount, currency, now);
    assert w.facts == [] + [w.facts[0]];
    PushPlain([], w.facts[0]);
  }

  // ---------------------------------------------------------------------------------------------
  // Webhooks
  // ---------------------------------------------------------------------------------------------

  lemma ConfirmHonest(c: Config, w: World, h: Hook)
    requires ValidConfig(c) && HonestInv(w) && Shape(w.row.state)
    ensures HonestInv(ConfirmAndClaim(c, w, h.before, h.note))
  {
    var v := ConfirmAndClaim(c, w, h.before, h.note);
    if CanConfirm(w) {
      if v != w {
        PushPlain(w.facts, FactOf(v.row, ProviderConfirmed, Some(h.note.amount), None));
      }
    } else {
      DigestClose(w.facts, w.row);
    }
  }

  lemma PushThree(facts: seq<Fact>, f: Fact, g: Fact, h: Fact)
    requires DigestOf(facts) == OPEN && Plain(f.t) && Plain(g.t) && Plain(h.t)
    ensures DigestOf(facts + [f] + [g] + [h]) == OPEN
  {
    PushPlain(facts, f);
    PushPlain(facts + [f], g);
    PushPlain(facts + [f] + [g], h);
  }

  predicate Late(w: World) { DigestOf(w.facts).late }

  lemma PushLate(facts: seq<Fact>, f: Fact)
    requires DigestOf(facts).closed || DigestOf(facts).late
    ensures DigestOf(facts + [f]).late
  {
    DigestPush(facts, f);
  }

  lemma CloseLate(facts: seq<Fact>, r: Row)
    requires DigestOf(facts).late
    ensures DigestOf(CloseCase(facts, r)).late
  {
    PushLate(facts, FactOf(r, CaseClosed, None, None));
  }

  lemma MismatchHonest(w: World, h: Hook)
    requires HonestInv(w) && Shape(w.row.state)
    ensures var v := MarkAmountMismatch(w, h.before, h.note);
            if w.row.state.provider == Some(PFailed) && Legal(h.before.state, MismatchedRow(w.row, h.note).state)
              then Late(v)
            else HonestInv(v)
  {
    var r, o := MismatchedRow(w.row, h.note), Some(h.note.amount);
    var f, g := FactOf(r, AmountMismatchDetected, o, None), FactOf(r, BankProcessingBlocked, o, None);
    if w.row.state.provider == Some(PFailed) {
      PushLate(w.facts, f);
      PushLate(w.facts + [f], g);
      PushLate(w.facts + [f] + [g], FactOf(r, CaseOpened, o, None));
    } else if !Started(w.row) {
      PushThree(w.facts, f, g, FactOf(r, CaseOpened, o, None));
    }
  }

  lemma RefusalHonest(w: World, h: Hook)
    requires HonestInv(w) && Shape(w.row.state)
    ensures var v := MarkProviderFailed(w, h.before, h.note);
            if w.row.state.provider == Some(PFailed) && Legal(h.before.state, RefusedRow(w.row, h.note).state)
              then Late(v)
            else HonestInv(v)
  {
    var r := RefusedRow(w.row, h.note);
    var f := FactOf(r, ProviderFailed, Some(h.note.amount), None);
    if w.row.state.provider == Some(PFailed) {
      PushLate(w.facts, f);
      CloseLate(w.facts + [f], r);
    } else if !Started(w.row) {
      PushEnd(w.facts, f, r);
    }
  }

  lemma NoteHonest(c: Config, w: World, p: nat)
    requires ValidConfig(c) && HonestInv(w) && Shape(w.row.state) && p in w.hooks
    ensures var v := ApplyNote(c, w, w.hooks[p]); if Accusing(w, HookApply(p)) then Late(v) else HonestInv(v)
  {
    var h := w.hooks[p];
    if h.note.failed {
      RefusalHonest(w, h);
    } else if LegsAgree(Some(h.note.amount), Some(h.note.currency), h.before) {
      ConfirmHonest(c, w, h);
    } else {
      MismatchHonest(w, h);
    }
  }

  // ---------------------------------------------------------------------------------------------
  // The bank leg
  // ---------------------------------------------------------------------------------------------

  lemma FailureHonest(facts: seq<Fact>, r: Row)
    requires DigestOf(facts) == OPEN
    ensures DigestOf(FailureFacts(facts, r)) == OPEN
  {
    PushPlain(facts, FactOf(r, BankProcessingFailed, None, None));
    PushPlain(facts + [FactOf(r, BankProcessingFailed, None, None)], FactOf(r, CaseOpened, None, None));
  }

  lemma SettledHonest(w: World, v: World)
    requires HonestInv(w) && Shape(w.row.state) && BankIs(w.row, BProcessing) && v.row == SuccessRow(w.row)
    requires v.facts == w.facts + [FactOf(v.row, BankProcessingCompleted, None, None)]
    ensures HonestInv(v)
  {
    PushPlain(w.facts, FactOf(v.row, BankProcessingCompleted, None, None));
  }

  lemma FailedHonest(w: World, v: World)
    requires HonestInv(w) && Shape(w.row.state) && BankIs(w.row, BProcessing) && v.row == FailureRow(w.row)
    requires v.facts == FailureFacts(w.facts, v.row)
    ensures HonestInv(v)
  {
    FailureHonest(w.facts, v.row);
  }

  lemma ApplyReplyHonest(w: World, k: nat, j: Job, abort: bool)
    requires HonestInv(w) && Shape(w.row.state) && BankIs(w.row, BProcessing) && j.Replied? && j.tx == w.row
    ensures HonestInv(ApplyReply(w, k, j, abort))
  {
    match j.reply
    case Transport =>
    case Success =>
      var r := SuccessRow(w.row);
      SettledHonest(w, w.(row := r, facts := w.facts + [FactOf(r, BankProcessingCompleted, None, None)],
                          jobs := w.jobs[k := Applied(j.i, j.at, r)]));
    case Fault =>
      var r := FailureRow(w.row);
      FailedHonest(w, w.(row := r, facts := FailureFacts(w.facts, r), jobs := w.jobs[k := Settled(j.i, j.at, r)]));
  }

  lemma SaveCaughtHonest(c: Config, w: World, k: nat, j: Job)
    requires HonestInv(w) && Shape(w.row.state) && j.Caught?
    requires BankIs(j.tx, BCompleted) || (BankIs(w.row, BProcessing) && (j.tx == w.row || j.tx == FailureRow(w.row)))
    ensures HonestInv(SaveCaught(c, w, k, j))
  {
    if BankIs(j.tx, BCompleted) {
      CompletedStays(j.tx.state, FailureRow(j.tx).state);
    } else {
      FailureHonest(w.facts, FailureRow(w.row));
    }
  }

  /** A reconciliation always writes its match: on a registry not closed yet, or once too often. */
  lemma ReconcileHonest(w: World, e: Row)
    requires HonestInv(w) && LegOk(w) && Shape(w.row.state) && RecOk(w, e) && RecLive(w, e)
    ensures var x := Reconcile(w, e);
            x.Some? && if w.row.state.reconciliation == Some(RMatched) then Late(x.value) else HonestInv(x.value)
  {
    var r := ReconciledRow(e);
    var f := FactOf(r, ReconciliationMatched, r.collected, None);
    MatchLegal(e.state, r.state);
    if w.row.state.reconciliation == Some(RMatched) {
      PushLate(w.facts, f);
      CloseLate(w.facts + [f], r);
    } else {
      PushEnd(w.facts, f, r);
    }
  }

  lemma AppliedHonest(w: World, k: nat, j: Job, abort: bool)
    requires LegOk(w) && Shape(w.row.state) && HonestInv(w) && j.Applied? && RecOk(w, j.tx) && RecLive(w, j.tx)
    ensures var v := ReconcileApplied(w, k, j, abort);
            if !abort && w.row.state.reconciliation == Some(RMatched) then Late(v) else HonestInv(v)
  {
    ReconcileHonest(w, j.tx);
  }

  lemma SaveHonest(c: Config, w: World, k: nat)
    requires ValidConfig(c) && Inv(c, w) && LeaseInv(w) && HonestInv(w)
    requires Enabled(w, WorkerSave(k)) && LeaseStep(c, w, WorkerSave(k))
    ensures HonestInv(Next(c, w, WorkerSave(k)))
  {
    if w.jobs[k].Caught? {
      LiveHolds(c, w, k);
      SaveCaughtHonest(c, w, k, w.jobs[k]);
    } else if w.jobs[k].Unsaved? {
      UnsavedQuiet(c, w, k, w.jobs[k]);
    }
  }

  lemma RepliedHonest(c: Config, w: World, k: nat, abort: bool)
    requires Inv(c, w) && LeaseInv(w) && HonestInv(w) && k in w.jobs && w.jobs[k].Replied? && Live(w, w.jobs[k])
    ensures HonestInv(ApplyReply(w, k, w.jobs[k], abort))
  {
    LiveHolds(c, w, k);
    ApplyReplyHonest(w, k, w.jobs[k], abort);
  }

  lemma WorkerHonest(c: Config, w: World, s: Step)
    requires ValidConfig(c) && Inv(c, w) && LeaseInv(w) && HonestInv(w) && Enabled(w, s) && IsWorkerStep(s)
    requires LeaseStep(c, w, s)
    requires !s.WorkerReconcile?
    ensures HonestInv(Next(c, w, s))
  {
    match s
    case WorkerApply(k, abort) => RepliedHonest(c, w, k, abort);
    case WorkerSave(k) => SaveHonest(c, w, k);
    case _ =>
  }

  lemma WorkerMatches(c: Config, w: World, k: nat, abort: bool)
    requires ValidConfig(c) && Inv(c, w) && LeaseInv(w) && HonestInv(w)
    requires Enabled(w, WorkerReconcile(k, abort)) && LeaseStep(c, w, WorkerReconcile(k, abort))
    ensures var v := Next(c, w, WorkerReconcile(k, abort));
            if !abort && w.row.state.reconciliation == Some(RMatched) then Late(v) else HonestInv(v)
  {
    LiveHolds(c, w, k);
    AppliedHonest(w, k, w.jobs[k], abort);
  }

  // ---------------------------------------------------------------------------------------------
  // Refunds
  // ---------------------------------------------------------------------------------------------

  /** A debt not yet paid is not final. */
  lemma DebtIsOpen(x: State)
    requires Shape(x) && x.refund != Some(FNotRequired) && x.refund != Some(FCompleted)
    ensures !Final(x)
  {
  }

  lemma StartAttemptHonest(w: World, p: nat)
    requires HonestInv(w) && ApartInv(w) && LeaseInv(w) && p in w.tries && w.tries[p].Loaded?
    ensures HonestInv(StartAttempt(w, p, w.tries[p]))
  {
    var t := w.tries[p];
    assert TryFresh(w, t);
    var v := StartAttempt(w, p, t);
    if p in v.tries {
      SyncLease(w, t.tx, FRequested, false);
      DebtIsOpen(w.row.state);
      DebtIsOpen(v.row.state);
      PushPlain(w.facts, FactOf(v.row, RefundRequested, Some(v.refund.value.amount), t.actor));
    }
  }

  lemma RecordFailureHonest(w: World, p: nat)
    requires HonestInv(w) && ApartInv(w) && LeaseInv(w) && p in w.tries && w.tries[p].Answered?
    ensures HonestInv(RecordFailure(w, p, w.tries[p]))
  {
    var t := w.tries[p];
    assert TryFresh(w, t);
    var x := Sync(w, t.tx, FFailed, false);
    if x.Some? {
      SyncLease(w, t.tx, FFailed, false);
      DebtIsOpen(w.row.state);
      DebtIsOpen(x.value.state);
      PushPlain(w.facts, FactOf(x.value, RefundFailed, Some(t.file.amount), t.actor));
    }
  }

  lemma RecordSuccessHonest(w: World, p: nat, rollback: Rollback)
    requires HonestInv(w) && ApartInv(w) && LeaseInv(w) && p in w.tries && w.tries[p].Answered?
    ensures HonestInv(RecordSuccess(w, p, w.tries[p], rollback))
  {
    var t := w.tries[p];
    assert TryFresh(w, t);
    var x := Sync(w, t.tx, FCompleted, true);
    if x.Some? {
      DebtIsOpen(w.row.state);
      PushEnd(w.facts, FactOf(x.value, RefundCompleted, Some(t.file.amount), t.actor), x.value);
    }
  }

  lemma ReopenHonest(w: World, who: Option<string>)
    requires HonestInv(w) && ApartInv(w) && Shape(w.row.state) && RefundOk(w) && CanReopen(w, who)
    ensures HonestInv(Reopen(w, who))
  {
    DebtIsOpen(w.row.state);
    PushPlain(w.facts, FactOf(w.row, RefundReopened, Some(w.refund.value.amount), who));
  }

  lemma FindHonest(w: World, p: nat, key: nat)
    requires HonestInv(w) && ApartInv(w) && p in w.tries && w.tries[p].Opened? && w.tries[p].tx.collected.Some?
    ensures HonestInv(FindOrCreate(w, p, w.tries[p], key))
  {
    DigestClose(w.facts, w.tries[p].tx);
  }

  lemma RefundHonest(c: Config, w: World, s: Step)
    requires ValidConfig(c) && LeaseInv(w) && ApartInv(w) && HonestInv(w) && Enabled(w, s) && IsRefundStep(s)
    ensures HonestInv(Next(c, w, s))
  {
    match s
    case RefundFind(p, key) => FindHonest(w, p, key);
    case RefundStart(p) => StartAttemptHonest(w, p);
    case RefundFinish(p, rollback) =>
      if w.tries[p].answer == Paid { RecordSuccessHonest(w, p, rollback); } else { RecordFailureHonest(w, p); }
    case RefundReopen(who) => ReopenHonest(w, who);
    case _ =>
  }

  lemma SweepHonest(w: World)
    requires HonestInv(w) && Sweepable(w)
    ensures Late(Sweep(w))
  {
    PushLate(w.facts, FactOf(w.row, SettlementSwept, w.row.collected, None));
  }

  /** Which steps can accuse at all. */
  lemma WhoAccuses(w: World, s: Step)
    ensures Accusing(w, s) ==> CanAccuse(s)
    ensures s.RecApply? && s.p in w.recs ==> (Accusing(w, s) <==> w.row.state.reconciliation == Some(RMatched))
    ensures s.WorkerReconcile? && s.k in w.jobs && w.jobs[s.k].Applied? ==>
              (Accusing(w, s) <==> !s.abort && w.row.state.reconciliation == Some(RMatched))
  {
  }

  lemma QuietHonest(c: Config, w: World, s: Step)
    requires ValidConfig(c) && Inv(c, w) && LeaseInv(w) && ApartInv(w) && HonestInv(w) && Enabled(w, s)
    requires OrderlyStep(c, w, s)
    requires !CanAccuse(s)
    ensures HonestInv(Next(c, w, s))
  {
    if IsWorkerStep(s) {
      WorkerHonest(c, w, s);
    } else if IsRefundStep(s) {
      RefundHonest(c, w, s);
    }
  }

  lemma ReadHonest(w: World, p: nat)
    requires LegOk(w) && Shape(w.row.state) && HonestInv(w) && p in w.recs && RecOk(w, w.recs[p])
    requires RecLive(w, w.recs[p])
    ensures var v := ReconcileRead(w, p);
            if w.row.state.reconciliation == Some(RMatched) then Late(v) else HonestInv(v)
  {
    ReconcileHonest(w, w.recs[p]);
  }

  ghost predicate Exactly(c: Config, w: World, s: Step)
    requires c.feeQ > 0 && Enabled(w, s)
  {
    if Accusing(w, s) then Late(Next(c, w, s)) else HonestInv(Next(c, w, s))
  }

  lemma HookExactly(c: Config, w: World, p: nat)
    requires ValidConfig(c) && Shape(w.row.state) && HonestInv(w) && Enabled(w, HookApply(p))
    ensures Exactly(c, w, HookApply(p))
  {
    NoteHonest(c, w, p);
  }

  lemma RecExactly(c: Config, w: World, p: nat)
    requires ValidConfig(c) && Inv(c, w) && LeaseInv(w) && HonestInv(w) && Enabled(w, RecApply(p))
    ensures Exactly(c, w, RecApply(p))
  {
    WhoAccuses(w, RecApply(p));
    ReadHonest(w, p);
  }

  lemma WorkerExactly(c: Config, w: World, k: nat, abort: bool)
    requires ValidConfig(c) && Inv(c, w) && LeaseInv(w) && HonestInv(w)
    requires Enabled(w, WorkerReconcile(k, abort)) && LeaseStep(c, w, WorkerReconcile(k, abort))
    ensures Exactly(c, w, WorkerReconcile(k, abort))
  {
    WhoAccuses(w, WorkerReconcile(k, abort));
    WorkerMatches(c, w, k, abort);
  }

  predicate CanAccuse(s: Step) { s.TreasurySweep? || s.HookApply? || s.RecApply? || s.WorkerReconcile? }

  lemma LoudExactly(c: Config, w: World, s: Step)
    requires ValidConfig(c) && Inv(c, w) && LeaseInv(w) && HonestInv(w) && Enabled(w, s) && LeaseStep(c, w, s)
    requires CanAccuse(s)
    ensures Exactly(c, w, s)
  {
    match s
    case TreasurySweep => SweepHonest(w);
    case HookApply(p) => HookExactly(c, w, p);
    case RecApply(p) => RecExactly(c, w, p);
    case WorkerReconcile(k, abort) => WorkerExactly(c, w, k, abort);
  }

  lemma QuietExactly(c: Config, w: World, s: Step)
    requires ValidConfig(c) && Enabled(w, s) && !CanAccuse(s) && HonestInv(Next(c, w, s))
    ensures Exactly(c, w, s)
  {
    WhoAccuses(w, s);
  }

  /** ONE STEP, EXACTLY. From an honest registry an orderly step leaves a fact after the closure if it is one of the
      accusing ones, and an honest registry otherwise. */
  lemma StepHonest(c: Config, w: World, s: Step)
    requires ValidConfig(c) && Inv(c, w) && LeaseInv(w) && ApartInv(w) && HonestInv(w) && Enabled(w, s)
    requires OrderlyStep(c, w, s)
    ensures Exactly(c, w, s)
  {
    if CanAccuse(s) {
      LoudExactly(c, w, s);
    } else {
      QuietHonest(c, w, s);
      QuietExactly(c, w, s);
    }
  }

  // ---------------------------------------------------------------------------------------------
  // Registries only grow
  // ---------------------------------------------------------------------------------------------

  lemma ReconcileGrows(w: World, e: Row)
    ensures var x := Reconcile(w, e); x.Some? ==> w.facts <= x.value.facts
  {
  }

  lemma ConfirmGrows(c: Config, w: World, h: Hook)
    requires c.feeQ > 0
    ensures w.facts <= ConfirmAndClaim(c, w, h.before, h.note).facts
  {
  }

  lemma NoteGrows(c: Config, w: World, h: Hook)
    requires c.feeQ > 0
    ensures w.facts <= ApplyNote(c, w, h).facts
  {
    ConfirmGrows(c, w, h);
    assert w.facts <= MarkAmountMismatch(w, h.before, h.note).facts;
    assert w.facts <= MarkProviderFailed(w, h.before, h.note).facts;
  }

  lemma WorkerGrows(c: Config, w: World, s: Step)
    requires c.feeQ > 0 && Enabled(w, s) && IsWorkerStep(s)
    ensures w.facts <= Next(c, w, s).facts
  {
    if s.WorkerReconcile? {
      ReconcileGrows(w, w.jobs[s.k].tx);
    }
  }

  /** No step of any service removes or changes a recorded fact. */
  lemma StepGrows(c: Config, w: World, s: Step)
    requires c.feeQ > 0 && Enabled(w, s)
    ensures w.facts <= Next(c, w, s).facts
  {
    if IsWorkerStep(s) {
      WorkerGrows(c, w, s);
    } else if s.HookApply? {
      NoteGrows(c, w, w.hooks[s.p]);
    } else if s.RecApply? {
      ReconcileGrows(w, w.recs[s.p]);
    }
  }

  lemma {:induction false} LateStays(a: seq<Fact>, b: seq<Fact>)
    requires a <= b && DigestOf(a).late
    ensures DigestOf(b).late
    decreases |b|
  {
    if |a| == |b| {
      assert a == b;
    } else {
      LateStays(a, b[..|b| - 1]);
    }
  }

  lemma {:induction false} RunStaysLate(c: Config, w: World, steps: seq<Step>, rule: Rule)
    requires c.feeQ > 0 && Late(w) && Exec(c, w, steps, rule).Some?
    ensures Late(Exec(c, w, steps, rule).value)
    decreases |steps|
  {
    if steps != [] {
      StepGrows(c, w, steps[0]);
      LateStays(w.facts, Next(c, w, steps[0]).facts);
      RunStaysLate(c, Next(c, w, steps[0]), steps[1..], rule);
    }
  }

  lemma {:induction false} RunHonest(c: Config, w: World, steps: seq<Step>, rule: Rule)
    requires ValidConfig(c) && Inv(c, w) && LeaseInv(w) && ApartInv(w) && HonestInv(w)
    requires Exec(c, w, steps, rule).Some? && Implies(rule, Orderly(c))
    ensures var v := Exec(c, w, steps, rule).value;
            if Happens(c, w, steps, rule, Accusing) then Late(v) else HonestInv(v)
    decreases |steps|
  {
    if steps != [] {
      var v := Next(c, w, steps[0]);
      StepHonest(c, w, steps[0]);
      if Accusing(w, steps[0]) {
        RunStaysLate(c, v, steps[1..], rule);
      } else {
        StepKeeps(c, w, steps[0]);
        StepLease(c, w, steps[0]);
        StepApart(c, w, steps[0]);
        RunHonest(c, v, steps[1..], rule);
      }
    }
  }

  // ---------------------------------------------------------------------------------------------
  // Verdicts
  // ---------------------------------------------------------------------------------------------

  /** A database whose registry and row are those of the world. */
  ghost predicate Shows(s: V.Store, w: World) {
    s.transaction.Some?
    && (var t := s.transaction.value;
        t.paymentChannel == MobileMoney && t.status == w.row.state.status
        && t.providerStatus == w.row.state.provider && t.bankStatus == w.row.state.bank
        && t.reconciliationStatus == w.row.state.reconciliation && t.refundStatus == w.row.state.refund
        && t.caseStatus == w.row.state.case_)
    && Records(s, w.facts)
  }

  ghost predicate Records(s: V.Store, facts: seq<Fact>) {
    |s.chain| == |facts| && forall i :: 0 <= i < |facts| ==> s.chain[i].facts.eventType == facts[i].t
  }

  /** The opening was drafted from a row with the same parties and amount, and is the first fact. */
  ghost predicate OpenedAs(s: V.Store, input: R.Input, id: string) {
    s.chain != [] && s.transaction.Some? && R.IsOpening(input.eventType) && s.chain[0].facts == R.Draft(None, input, id)
    && (var t, u := s.transaction.value, input.transaction;
        t.debtorIban == u.debtorIban && t.debtorName == u.debtorName && t.creditorIban == u.creditorIban
        && t.creditorName == u.creditorName && t.endToEndLabel == u.endToEndLabel && t.amount == u.amount
        && t.currency == u.currency)
  }

  lemma OpeningMatches(s: V.Store, input: R.Input, id: string)
    requires OpenedAs(s, input, id)
    ensures V.RowVerdict(s) == Some(true)
  {
    assert s.chain[0].facts.creditorIban.Some?;
    var o := V.OpeningIndex(s.chain);
    assert o == Some(0);
  }

  /** What the digest says, said of the facts. */
  lemma {:induction false} DigestMeans(facts: seq<Fact>)
    ensures var d := DigestOf(facts);
            (d.closed <==> Has(facts, CaseClosed))
            && (facts != [] ==> (d.closedLast <==> facts[|facts| - 1].t == CaseClosed))
            && ((exists i :: 0 <= i < |facts| && V.EndsCase(facts[i].t)) ==> d.ended)
            && (d.swept <==> Has(facts, SettlementSwept))
            && (d.late ==> exists i :: 0 <= i < |facts| - 1 && facts[i].t == CaseClosed)
  {
    DigestCounts(facts);
    HasCount(facts, CaseClosed);
    HasCount(facts, SettlementSwept);
    if facts != [] {
      HasCount(facts[..|facts| - 1], SettlementSwept);
      var front := facts[..|facts| - 1];
      DigestMeans(front);
      assert forall i :: 0 <= i < |front| ==> front[i] == facts[i];
      DigestCounts(front);
      HasCount(front, CaseClosed);
      CountPush(front, facts[|facts| - 1]);
      assert facts == front + [facts[|facts| - 1]];
    }
  }

  lemma ShutOrOpen(s: V.Store, w: World)
    requires Shows(s, w) && HonestInv(w) && w.facts != []
    ensures R.HasClosure(s.chain) ==> R.IsClosure(V.Last(s.chain))
    ensures !R.HasClosure(s.chain) ==> !V.ClosureExpected(s.transaction, s.chain)
  {
    DigestMeans(w.facts);
    if R.HasClosure(s.chain) {
      var i :| 0 <= i < |s.chain| && R.IsClosure(s.chain[i]);
      assert w.facts[i].t == CaseClosed;
      assert Has(w.facts, CaseClosed);
      assert w.facts[|w.facts| - 1].t == CaseClosed;
    } else {
      NotClosed(s, w);
    }
  }

  lemma SameClosures(s: V.Store, facts: seq<Fact>)
    requires Records(s, facts) && Has(facts, CaseClosed)
    ensures R.HasClosure(s.chain)
  {
    var i :| 0 <= i < |facts| && facts[i].t == CaseClosed;
    assert R.IsClosure(s.chain[i]);
  }

  lemma NotClosed(s: V.Store, w: World)
    requires Shows(s, w) && HonestInv(w) && !R.HasClosure(s.chain)
    ensures !V.ClosureExpected(s.transaction, s.chain)
  {
    DigestMeans(w.facts);
    if Has(w.facts, CaseClosed) {
      SameClosures(s, w.facts);
    }
    assert DigestOf(w.facts) == OPEN;
    forall i | 0 <= i < |s.chain| ensures !V.EndsCase(s.chain[i].facts.eventType) {
      assert !V.EndsCase(w.facts[i].t);
    }
  }

  lemma ReachesHonest(c: Config, amount: nat, currency: string, now: nat, steps: seq<Step>, rule: Rule)
    requires ValidConfig(c) && Implies(rule, Orderly(c)) && Exec(c, Start(amount, currency, now), steps, rule).Some?
    ensures var v := Exec(c, Start(amount, currency, now), steps, rule).value;
            if Happens(c, Start(amount, currency, now), steps, rule, Accusing) then Late(v) else HonestInv(v)
  {
    StartInv(c, amount, currency, now);
    StartLease(amount, currency, now);
    StartApart(amount, currency, now);
    StartHonest(amount, currency, now);
    RunHonest(c, Start(amount, currency, now), steps, rule);
  }

  /** A registry with a fact after a closure is accused, whatever else the database holds. */
  lemma LateIsAccused(check: V.Check, s: V.Store, facts: seq<Fact>)
    requires Records(s, facts) && DigestOf(facts).late
    ensures V.VerdictOf(check, s) == V.TAMPERED
  {
    DigestMeans(facts);
    var i :| 0 <= i < |facts| - 1 && facts[i].t == CaseClosed;
    Verdicts.LateFactIsTampering(check, s, i);
  }

  /** WHEN AN HONEST PAYMENT IS ACCUSED. In every orderly run (leases respected, refund attempts apart), whatever the
      staleness of the webhooks and of the reconciliations: `verify` completes, and answers TAMPERED if and only if
      some step of the run was an accusing one. */
  lemma AccusedIff(c: Config, amount: nat, currency: string, now: nat, steps: seq<Step>, rule: Rule,
                   sc: R.Scheme, s: V.Store, input: R.Input, id: string)
    requires ValidConfig(c) && Implies(rule, Orderly(c)) && Exec(c, Start(amount, currency, now), steps, rule).Some?
    requires Shows(s, Exec(c, Start(amount, currency, now), steps, rule).value) && OpenedAs(s, input, id)
    requires R.Linear(sc, s.chain) && R.DocumentsValid(sc, s.chain) && Verdicts.AnchorsHold(sc, s)
    ensures V.Completes(V.CheckAt(sc, s), |s.chain|)
    ensures V.VerdictOf(V.CheckAt(sc, s), s) == V.TAMPERED
            <==> Happens(c, Start(amount, currency, now), steps, rule, Accusing)
  {
    var w := Exec(c, Start(amount, currency, now), steps, rule).value;
    ReachesHonest(c, amount, currency, now, steps, rule);
    Verdicts.HonestVerdict(sc, s);
    if Happens(c, Start(amount, currency, now), steps, rule, Accusing) {
      LateIsAccused(V.CheckAt(sc, s), s, w.facts);
    } else {
      ShutOrOpen(s, w);
      OpeningMatches(s, input, id);
    }
  }

  /** The stored chain is what the writers committed, but for the columns anchoring writes. */
  ghost predicate Stores(chain: seq<R.Event>, committed: seq<R.Event>) {
    |chain| == |committed| && forall i :: 0 <= i < |chain| ==> chain[i] == committed[i].(anchor := chain[i].anchor)
  }

  lemma StoredIsSound(sc: R.Scheme, chain: seq<R.Event>, committed: seq<R.Event>)
    requires Stores(chain, committed) && R.Linear(sc, committed) && R.DocumentsValid(sc, committed)
    ensures R.Linear(sc, chain) && R.DocumentsValid(sc, chain)
  {
    forall i | 0 <= i < |chain| ensures R.LinkAt(sc, chain, i) {
      assert R.LinkAt(sc, committed, i);
      assert i > 0 ==> chain[i - 1].fingerprint == committed[i - 1].fingerprint;
    }
  }

  /** THE SAME, WITH NOTHING LEFT TO ASSUME of the registry and of the anchors: the chain was committed by any
      interleaving of writers, and anchored by any run of anchoring. */
  lemma GatewayIsNeverWronglyAccused(
    c: Config, amount: nat, currency: string, now: nat, steps: seq<Step>, rule: Rule,
    sc: R.Scheme, s: V.Store, input: R.Input, id: string, writes: seq<Writers.Step>,
    max: nat, anchoring: seq<Anchoring.Step>, order: Anchoring.Rule, name: nat -> string)
    requires ValidConfig(c) && Implies(rule, Orderly(c)) && Exec(c, Start(amount, currency, now), steps, rule).Some?
    requires Shows(s, Exec(c, Start(amount, currency, now), steps, rule).value) && OpenedAs(s, input, id)
    requires Writers.Exec(sc, Writers.INITIAL, writes).Some?
    requires Stores(s.chain, Writers.Exec(sc, Writers.INITIAL, writes).value.committed)
    requires Anchoring.Exec(sc.hash, max, Anchoring.START, anchoring, order).Some?
    requires AnchorRuns.ShowsAnchors(s, Anchoring.Exec(sc.hash, max, Anchoring.START, anchoring, order).value, name)
    ensures V.Completes(V.CheckAt(sc, s), |s.chain|)
    ensures V.VerdictOf(V.CheckAt(sc, s), s) == V.TAMPERED
            <==> Happens(c, Start(amount, currency, now), steps, rule, Accusing)
  {
    Writers.EveryRunIsLinear(sc, writes);
    Writers.EveryRunIsValid(sc, writes);
    StoredIsSound(sc, s.chain, Writers.Exec(sc, Writers.INITIAL, writes).value.committed);
    AnchorRuns.AnchorsAlwaysHold(sc, max, anchoring, order, s, name);
    AccusedIff(c, amount, currency, now, steps, rule, sc, s, input, id);
  }

  // ---------------------------------------------------------------------------------------------
  // Truncation
  // ---------------------------------------------------------------------------------------------

  /** The database once everything after its first n events is gone. */
  function Cut(s: V.Store, n: nat): V.Store
    requires n <= |s.chain|
  {
    s.(chain := s.chain[..n])
  }

  /** A final row, as the verifier reads it. */
  lemma FinalIsOver(s: V.Store, w: World, n: nat)
    requires Shows(s, w) && Shape(w.row.state) && Final(w.row.state) && n <= |s.chain|
    ensures Verdicts.Over(Cut(s, n))
  {
    assert Verdicts.RowIsFinal(s.transaction.value);
  }

  /** Nothing is recorded before the last closure but facts that close nothing. */
  lemma ShutClosesLast(facts: seq<Fact>, n: nat)
    requires DigestOf(facts) == SHUT && n < |facts|
    ensures forall i :: 0 <= i < n ==> facts[i].t != CaseClosed
  {
    var front := facts[..|facts| - 1];
    DigestCounts(front);
    HasCount(front, CaseClosed);
    assert forall i :: 0 <= i < n ==> front[i] == facts[i];
  }

  lemma ReachesShut(c: Config, amount: nat, currency: string, now: nat, steps: seq<Step>, rule: Rule)
    requires ValidConfig(c) && Implies(rule, Orderly(c)) && Exec(c, Start(amount, currency, now), steps, rule).Some?
    requires !Happens(c, Start(amount, currency, now), steps, rule, Accusing)
    requires Final(Exec(c, Start(amount, currency, now), steps, rule).value.row.state)
    ensures var w := Exec(c, Start(amount, currency, now), steps, rule).value;
            DigestOf(w.facts) == SHUT && Shape(w.row.state)
  {
    ReachesHonest(c, amount, currency, now, steps, rule);
    ReachesApart(c, amount, currency, now, steps, rule);
  }

  /** TRUNCATION IS SEEN. In every orderly run that took no accusing step, once the row is final (refused by the
      provider, reconciled, or refunded), `verify` answers TAMPERED on every strict prefix of the recorded chain, the
      empty one included, whatever else the database then holds. */
  lemma TruncationIsTampering(c: Config, amount: nat, currency: string, now: nat, steps: seq<Step>, rule: Rule,
                              check: V.Check, s: V.Store, n: nat)
    requires ValidConfig(c) && Implies(rule, Orderly(c)) && Exec(c, Start(amount, currency, now), steps, rule).Some?
    requires !Happens(c, Start(amount, currency, now), steps, rule, Accusing)
    requires var w := Exec(c, Start(amount, currency, now), steps, rule).value;
             Shows(s, w) && Final(w.row.state) && n < |s.chain|
    ensures V.VerdictOf(check, Cut(s, n)) == V.TAMPERED
  {
    var w := Exec(c, Start(amount, currency, now), steps, rule).value;
    ReachesShut(c, amount, currency, now, steps, rule);
    ShutClosesLast(w.facts, n);
    assert Verdicts.NeverClosed(Cut(s, n).chain);
    FinalIsOver(s, w, n);
    Verdicts.MissingClosureIsTampering(check, Cut(s, n));
  }

  /** A prefix that ends with its one closure. */
  predicate EndsClosed(chain: seq<R.Event>) {
    chain != [] && chain[|chain| - 1].facts.eventType == CaseClosed && Verdicts.NeverClosed(chain[..|chain| - 1])
  }

  /** TRUNCATION, EXACTLY. In every orderly run, accusing steps included, once the row is final: a strict prefix of the
      chain is TAMPERED if and only if it is not the part that ends with the first closure. What an accusing step wrote
      after that closure is the only thing that can be cut off unseen. */
  lemma TruncationIff(c: Config, amount: nat, currency: string, now: nat, steps: seq<Step>, rule: Rule,
                      sc: R.Scheme, s: V.Store, input: R.Input, id: string, n: nat)
    requires ValidConfig(c) && Implies(rule, Orderly(c)) && Exec(c, Start(amount, currency, now), steps, rule).Some?
    requires var w := Exec(c, Start(amount, currency, now), steps, rule).value;
             Shows(s, w) && Final(w.row.state) && n < |s.chain|
    requires OpenedAs(s, input, id)
    requires R.Linear(sc, s.chain) && R.DocumentsValid(sc, s.chain) && Verdicts.AnchorsHold(sc, s)
    ensures V.VerdictOf(V.CheckAt(sc, Cut(s, n)), Cut(s, n)) == V.TAMPERED <==> !EndsClosed(s.chain[..n])
  {
    var w, p := Exec(c, Start(amount, currency, now), steps, rule).value, Cut(s, n);
    ReachesApart(c, amount, currency, now, steps, rule);
    FinalIsOver(s, w, n);
    if Verdicts.NeverClosed(p.chain) {
      Verdicts.MissingClosureIsTampering(V.CheckAt(sc, p), p);
    } else {
      CutIsHonest(sc, s, n);
      OpeningMatches(p, input, id);
      Verdicts.HonestVerdict(sc, p);
      ClosedPrefix(sc, p.chain);
    }
  }

  /** What is left of a chain the registry wrote is one it could have written. */
  lemma CutIsHonest(sc: R.Scheme, s: V.Store, n: nat)
    requires R.Linear(sc, s.chain) && R.DocumentsValid(sc, s.chain) && Verdicts.AnchorsHold(sc, s) && n <= |s.chain|
    ensures var p := Cut(s, n);
            R.Linear(sc, p.chain) && R.DocumentsValid(sc, p.chain) && Verdicts.AnchorsHold(sc, p)
  {
    R.LinearPrefix(sc, s.chain, n);
    var p := Cut(s, n);
    forall i | 0 <= i < n ensures V.CheckAnchor(sc, p, p.chain[i], p.rpc(i))
      == V.CheckAnchor(sc, s, s.chain[i], s.rpc(i)) {
    }
  }

  lemma ClosedPrefix(sc: R.Scheme, chain: seq<R.Event>)
    requires R.Linear(sc, chain) && !Verdicts.NeverClosed(chain)
    ensures R.HasClosure(chain) && (R.IsClosure(V.Last(chain)) <==> EndsClosed(chain))
  {
    var i :| 0 <= i < |chain| && chain[i].facts.eventType == CaseClosed;
    assert R.IsClosure(chain[i]);
    if R.IsClosure(V.Last(chain)) {
      OnlyLast(chain);
    }
  }

  lemma OnlyLast(chain: seq<R.Event>)
    requires chain != [] && R.IsClosure(V.Last(chain))
    requires forall i, j :: 0 <= i < j < |chain| ==> !(R.IsClosure(chain[i]) && R.IsClosure(chain[j]))
    ensures Verdicts.NeverClosed(chain[..|chain| - 1])
  {
    assert forall j :: 0 <= j < |chain| - 1 ==> !R.IsClosure(chain[j]);
  }
}
