/** Runs in which refund attempts do not overlap: what was paid can always be recorded, and whoever reopens
    a rejected refund is not the one who asked for it. */
module RefundRuns {
  import opened Basics
  import opened Domain
  import opened Gateway
  import opened Safety
  import opened Leases

  /** An attempt begins only when no other one is in progress. */
  predicate Apart(w: World, s: Step) { s.RefundOpen? || s.RetryFind? ==> w.tries == map[] }

  /** Leases respected and refund attempts apart. */
  predicate OrderlyStep(c: Config, w: World, s: Step) { LeaseStep(c, w, s) && Apart(w, s) }

  function Orderly(c: Config): Rule { (w, s) => OrderlyStep(c, w, s) }

  // ---------------------------------------------------------------------------------------------
  // Traces
  // ---------------------------------------------------------------------------------------------

  /** The last manual requester. */
  function LastAsked(trail: seq<Mark>): Option<string> {
    if trail == [] then None
    else if trail[|trail| - 1].Asked? then trail[|trail| - 1].who
    else LastAsked(trail[..|trail| - 1])
  }

  /** A rejection has been recorded, and nobody has reopened the refund since. */
  function Barred(trail: seq<Mark>): bool {
    if trail == [] then false
    else
      var m := trail[|trail| - 1];
      m == Refused || (!m.Reopened? && Barred(trail[..|trail| - 1]))
  }

  /** Between a recorded rejection and the next call to the provider somebody reopens the refund, ... */
  ghost predicate CallsWait(trail: seq<Mark>) {
    forall i, j :: 0 <= i < j < |trail| && trail[i] == Refused && trail[j] == Called ==> ReopenedBetween(trail, i, j)
  }

  ghost predicate ReopenedBetween(trail: seq<Mark>, i: int, j: int)
    requires 0 <= i < j <= |trail|
  {
    exists k :: i < k < j && trail[k].Reopened?
  }

  /** ... and that somebody is not the last one who asked for it. */
  ghost predicate FourEyes(trail: seq<Mark>) {
    forall k :: 0 <= k < |trail| && trail[k].Reopened? && trail[k].who.Some? ==> LastAsked(trail[..k]) != trail[k].who
  }

  ghost predicate Segregated(trail: seq<Mark>) { CallsWait(trail) && FourEyes(trail) }

  lemma {:induction false} NotBarred(trail: seq<Mark>, i: nat)
    requires !Barred(trail) && i < |trail| && trail[i] == Refused
    ensures ReopenedBetween(trail, i, |trail|)
  {
    var front, m := trail[..|trail| - 1], trail[|trail| - 1];
    if m.Reopened? {
      assert i < |trail| - 1 && trail[|trail| - 1].Reopened?;
    } else {
      NotBarred(front, i);
      var k :| i < k < |front| && front[k].Reopened?;
      assert trail[k].Reopened?;
    }
  }

  lemma PushMark(trail: seq<Mark>, m: Mark)
    requires Segregated(trail)
    requires m == Called ==> !Barred(trail)
    requires m.Reopened? && m.who.Some? ==> LastAsked(trail) != m.who
    ensures Segregated(trail + [m])
    ensures LastAsked(trail + [m]) == if m.Asked? then m.who else LastAsked(trail)
    ensures Barred(trail + [m]) == (m == Refused || (!m.Reopened? && Barred(trail)))
  {
    var longer := trail + [m];
    assert longer[..|trail|] == trail;
    forall i, j | 0 <= i < j < |longer| && longer[i] == Refused && longer[j] == Called
      ensures ReopenedBetween(longer, i, j)
    {
      if j < |trail| {
        assert ReopenedBetween(trail, i, j);
      } else {
        NotBarred(trail, i);
      }
      var k :| i < k < j && trail[k].Reopened?;
      assert longer[k].Reopened?;
    }
    forall k | 0 <= k < |longer| && longer[k].Reopened? && longer[k].who.Some?
      ensures LastAsked(longer[..k]) != longer[k].who
    {
      if k < |trail| {
        assert longer[..k] == trail[..k];
      }
    }
  }

  // ---------------------------------------------------------------------------------------------
  // The invariant
  // ---------------------------------------------------------------------------------------------

  /** The file and the refund column of the row say the same. */
  predicate FileFits(w: World) {
    if w.refund.None? then w.row.state.refund in {Some(FNotRequired), Some(FRequired)}
    else w.row.state.refund == Some(w.refund.value.status)
         && (w.refund.value.status in {FRequired, FRequested} ==> w.refund.value.retryable)
         && w.refund.value.status != FNotRequired
  }

  /** What was paid is recorded as completed, or can still be attempted; and nothing is recorded as
      completed that was not paid. */
  predicate PaidFits(w: World) {
    (forall k :: k in w.paid ==>
       w.refund.Some? && w.refund.value.status != FRequired
       && (w.refund.value.status == FCompleted || Attemptable(w.refund.value)))
    && (w.refund.Some? && w.refund.value.status == FCompleted ==> w.refund.value.key in w.paid)
  }

  predicate TrailFits(w: World) {
    LastAsked(w.trail) == (if w.refund.Some? then w.refund.value.lastRequestedBy else None)
    && (Barred(w.trail) <==> w.refund.Some? && w.refund.value.status == FFailed && !w.refund.value.retryable)
  }

  /** What the one attempt in progress holds is what the tables hold. */
  predicate TryFresh(w: World, t: Try) {
    match t
    case Opened(tx, _) => tx == w.row
    case Found(file) => w.refund == Some(file) && Attemptable(file) && file.status != FRequired
    case Loaded(file, tx, actor, manual) =>
      tx == w.row && w.refund.Some? && file.status != FCompleted && (manual ==> actor.Some?)
      && (w.refund.value == file || (!Attemptable(file) && w.refund.value == file.(retryable := true)))
    case InFlight(file, tx, _) => tx == w.row && w.refund == Some(file) && file.status == FRequested
    case Answered(file, tx, _, answer) =>
      (answer == Unavailable || tx == w.row) && w.refund == Some(file) && file.status == FRequested
      && (answer == Rejected ==> w.paid == map[]) && (answer == Paid ==> file.key in w.paid)
  }

  ghost predicate FilesOk(w: World) { FileFits(w) && PaidFits(w) && TrailFits(w) && Segregated(w.trail) }

  ghost predicate ApartInv(w: World) {
    FilesOk(w)
    && (forall p, q :: p in w.tries && q in w.tries ==> p == q)
    && (forall p :: p in w.tries ==> TryFresh(w, w.tries[p]))
  }

  lemma StartApart(amount: nat, currency: string, now: nat)
    ensures ApartInv(Start(amount, currency, now))
  {
  }

  // ---------------------------------------------------------------------------------------------
  // The other services leave a debt alone
  // ---------------------------------------------------------------------------------------------

  /** What a step of another service does to refunds: nothing, except to open a debt where there was none. */
  predicate Aside(w: World, v: World) {
    v.refund == w.refund && v.tries == w.tries && v.paid == w.paid && v.trail == w.trail
    && (v.row == w.row || (!Owed(w.row) && v.row.state.refund in {Some(FNotRequired), Some(FRequired)}))
  }

  lemma ConfirmAside(c: Config, w: World, h: Hook)
    requires ValidConfig(c) && Shape(w.row.state)
    ensures Aside(w, ConfirmAndClaim(c, w, h.before, h.note))
  {
  }

  lemma MismatchAside(w: World, h: Hook)
    requires Shape(w.row.state)
    ensures Aside(w, MarkAmountMismatch(w, h.before, h.note))
  {
  }

  lemma RefusalAside(w: World, h: Hook)
    requires Shape(w.row.state)
    ensures Aside(w, MarkProviderFailed(w, h.before, h.note))
  {
  }

  lemma NoteAside(c: Config, w: World, h: Hook)
    requires ValidConfig(c) && Shape(w.row.state)
    ensures Aside(w, ApplyNote(c, w, h))
  {
    ConfirmAside(c, w, h);
    MismatchAside(w, h);
    RefusalAside(w, h);
  }

  lemma ApplyReplyAside(w: World, k: nat, j: Job, abort: bool)
    requires Shape(w.row.state) && BankIs(w.row, BProcessing) && j.Replied? && j.tx == w.row
    ensures Aside(w, ApplyReply(w, k, j, abort))
  {
    var v := ApplyReply(w, k, j, abort);
    if v.row != w.row {
      assert v.row == SuccessRow(w.row) || v.row == FailureRow(w.row);
    }
  }

  lemma SaveCaughtAside(c: Config, w: World, k: nat, j: Job)
    requires Shape(w.row.state) && j.Caught?
    requires BankIs(j.tx, BCompleted) || (BankIs(w.row, BProcessing) && (j.tx == w.row || j.tx == FailureRow(w.row)))
    ensures Aside(w, SaveCaught(c, w, k, j))
  {
    if BankIs(j.tx, BCompleted) {
      CompletedStays(j.tx.state, FailureRow(j.tx).state);
    }
  }

  lemma ReconcileAside(w: World, e: Row)
    requires LegOk(w) && LeaseInv(w) && RecOk(w, e) && RecLive(w, e)
    ensures var x := Reconcile(w, e); x.Some? ==> Aside(w, x.value)
  {
    ReconcileLease(w, e);
  }

  lemma AppliedAside(c: Config, w: World, k: nat, abort: bool)
    requires Inv(c, w) && LeaseInv(w) && k in w.jobs && w.jobs[k].Applied? && Live(w, w.jobs[k])
    ensures Aside(w, ReconcileApplied(w, k, w.jobs[k], abort))
  {
    LiveHolds(c, w, k);
    ReconcileAside(w, w.jobs[k].tx);
  }

  lemma RepliedAside(c: Config, w: World, k: nat, abort: bool)
    requires Inv(c, w) && LeaseInv(w) && k in w.jobs && w.jobs[k].Replied? && Live(w, w.jobs[k])
    ensures Aside(w, ApplyReply(w, k, w.jobs[k], abort))
  {
    LiveHolds(c, w, k);
    ApplyReplyAside(w, k, w.jobs[k], abort);
  }

  lemma SaveAside(c: Config, w: World, k: nat)
    requires ValidConfig(c) && Inv(c, w) && LeaseInv(w) && Enabled(w, WorkerSave(k)) && LeaseStep(c, w, WorkerSave(k))
    ensures Aside(w, Next(c, w, WorkerSave(k)))
  {
    if w.jobs[k].Caught? {
      LiveHolds(c, w, k);
      SaveCaughtAside(c, w, k, w.jobs[k]);
    } else if w.jobs[k].Unsaved? {
      UnsavedQuiet(c, w, k, w.jobs[k]);
    }
  }

  lemma WorkerAside(c: Config, w: World, s: Step)
    requires ValidConfig(c) && Inv(c, w) && LeaseInv(w) && Enabled(w, s) && LeaseStep(c, w, s) && IsWorkerStep(s)
    ensures Aside(w, Next(c, w, s))
  {
    if s.WorkerApply? {
      RepliedAside(c, w, s.k, s.abort);
    } else if s.WorkerReconcile? {
      AppliedAside(c, w, s.k, s.abort);
    } else if s.WorkerSave? {
      SaveAside(c, w, s.k);
    } else {
      JobAside(c, w, s);
    }
  }

  /** The steps of a worker that write no row. */
  lemma JobAside(c: Config, w: World, s: Step)
    requires c.feeQ > 0 && Enabled(w, s) && IsWorkerStep(s) && !s.WorkerApply? && !s.WorkerReconcile? && !s.WorkerSave?
    ensures Aside(w, Next(c, w, s))
  {
  }

  lemma OthersAside(c: Config, w: World, s: Step)
    requires ValidConfig(c) && Inv(c, w) && LeaseInv(w) && Enabled(w, s) && LeaseStep(c, w, s) && !IsRefundStep(s)
    ensures Aside(w, Next(c, w, s))
  {
    if IsWorkerStep(s) {
      WorkerAside(c, w, s);
    } else if s.HookApply? {
      NoteAside(c, w, w.hooks[s.p]);
    } else if s.RecApply? {
      ReconcileAside(w, w.recs[s.p]);
    }
  }

  lemma AsideKeeps(w: World, v: World)
    requires LeaseInv(w) && ApartInv(w) && Aside(w, v)
    ensures ApartInv(v)
  {
    forall p | p in v.tries ensures TryFresh(v, v.tries[p]) {
      assert TryFresh(w, w.tries[p]);
    }
  }

  // ---------------------------------------------------------------------------------------------
  // Refund steps
  // ---------------------------------------------------------------------------------------------

  /** One attempt is left, or none. */
  lemma Only(w: World, v: World, p: nat)
    requires FilesOk(v) && (forall q :: q in v.tries ==> q == p)
    requires p in v.tries ==> TryFresh(v, v.tries[p])
    ensures ApartInv(v)
  {
  }

  lemma FindApart(w: World, p: nat, key: nat)
    requires LeaseInv(w) && ApartInv(w) && p in w.tries && w.tries[p].Opened? && w.tries[p].tx.collected.Some?
    requires forall k :: k in w.paid ==> w.refund.Some?
    ensures ApartInv(FindOrCreate(w, p, w.tries[p], key))
  {
    var t := w.tries[p];
    assert TryFresh(w, t);
    var v := FindOrCreate(w, p, t, key);
    assert FileFits(v) && PaidFits(v) && TrailFits(v);
    Only(w, v, p);
  }

  lemma StartApartTry(w: World, p: nat)
    requires LeaseInv(w) && ApartInv(w) && p in w.tries && w.tries[p].Loaded?
    ensures ApartInv(StartAttempt(w, p, w.tries[p]))
  {
    var t := w.tries[p];
    assert TryFresh(w, t);
    var v := StartAttempt(w, p, t);
    if p !in v.tries {
      ForgetApart(w, p);
    } else {
      PushMark(w.trail, Asked(t.actor));
      assert FileFits(v) && PaidFits(v) && TrailFits(v);
      Only(w, v, p);
    }
  }

  lemma CallApart(w: World, p: nat, o: Outcome)
    requires MoneyOk(w) && ApartInv(w) && p in w.tries && w.tries[p].InFlight?
    ensures ApartInv(CallProvider(w, p, w.tries[p], o))
  {
    var t := w.tries[p];
    assert TryFresh(w, t);
    PushMark(w.trail, Called);
    var v := CallProvider(w, p, t, o);
    assert FileFits(v) && PaidFits(v) && TrailFits(v);
    if t.file.key !in w.paid {
      assert forall k :: k !in w.paid;
      assert w.paid == map[];
    }
    Only(w, v, p);
  }

  lemma SuccessApart(w: World, p: nat, rollback: Rollback)
    requires LeaseInv(w) && ApartInv(w) && p in w.tries && w.tries[p].Answered? && w.tries[p].answer == Paid
    ensures ApartInv(RecordSuccess(w, p, w.tries[p], rollback))
  {
    var t := w.tries[p];
    assert TryFresh(w, t);
    var v := RecordSuccess(w, p, t, rollback);
    assert FileFits(v) && PaidFits(v) && TrailFits(v);
    Only(w, v, p);
  }

  lemma FailureApart(w: World, p: nat)
    requires LeaseInv(w) && ApartInv(w) && p in w.tries && w.tries[p].Answered?
    ensures ApartInv(RecordFailure(w, p, w.tries[p]))
  {
    var t := w.tries[p];
    assert TryFresh(w, t);
    if Sync(w, t.tx, FFailed, false).None? {
      ForgetApart(w, p);
    } else {
      PushMark(w.trail, Refused);
      var v := RecordFailure(w, p, t);
      assert FileFits(v) && PaidFits(v) && TrailFits(v);
      Only(w, v, p);
    }
  }

  lemma ReopenApart(w: World, who: Option<string>)
    requires ApartInv(w) && CanReopen(w, who)
    ensures ApartInv(Reopen(w, who))
  {
    PushMark(w.trail, Reopened(who));
    var v := Reopen(w, who);
    assert FileFits(v) && PaidFits(v) && TrailFits(v);
    forall p | p in v.tries ensures TryFresh(v, v.tries[p]) {
      assert TryFresh(w, w.tries[p]);
    }
  }

  lemma ForgetApart(w: World, p: nat)
    requires ApartInv(w)
    ensures ApartInv(w.(tries := w.tries - {p}))
  {
    var v := w.(tries := w.tries - {p});
    forall q | q in v.tries ensures TryFresh(v, v.tries[q]) {
      assert TryFresh(w, w.tries[q]);
    }
  }

  lemma OpenApart(w: World, p: nat, t: Try)
    requires ApartInv(w) && (w.tries == map[] || (p in w.tries && w.tries[p].Found?)) && TryFresh(w, t)
    ensures ApartInv(w.(tries := w.tries[p := t]))
  {
    Only(w, w.(tries := w.tries[p := t]), p);
  }

  lemma RefundStepApart(c: Config, w: World, s: Step)
    requires ValidConfig(c) && MoneyOk(w) && LeaseInv(w) && ApartInv(w) && Enabled(w, s) && Apart(w, s)
    requires IsRefundStep(s)
    ensures ApartInv(Next(c, w, s))
  {
    match s
    case RefundOpen(p, who) => OpenApart(w, p, Opened(w.row, who));
    case RefundFind(p, key) => FindApart(w, p, key);
    case RetryFind(p) => OpenApart(w, p, Found(w.refund.value));
    case RetryRow(p) =>
      assert TryFresh(w, w.tries[p]);
      OpenApart(w, p, Loaded(w.tries[p].file, w.row, Some("refund-retry-worker"), false));
    case RefundStart(p) => StartApartTry(w, p);
    case RefundCall(p, o) => CallApart(w, p, o);
    case RefundFinish(p, rollback) =>
      if w.tries[p].answer == Paid { SuccessApart(w, p, rollback); } else { FailureApart(w, p); }
    case RefundReopen(who) => ReopenApart(w, who);
    case RefundCrash(p) => ForgetApart(w, p);
  }

  lemma StepApart(c: Config, w: World, s: Step)
    requires ValidConfig(c) && Inv(c, w) && LeaseInv(w) && ApartInv(w) && Enabled(w, s) && OrderlyStep(c, w, s)
    ensures ApartInv(Next(c, w, s))
  {
    if IsRefundStep(s) {
      RefundStepApart(c, w, s);
    } else {
      OthersAside(c, w, s);
      AsideKeeps(w, Next(c, w, s));
    }
  }

  lemma {:induction false} RunApart(c: Config, w: World, steps: seq<Step>, rule: Rule)
    requires ValidConfig(c) && Inv(c, w) && LeaseInv(w) && ApartInv(w)
    requires Exec(c, w, steps, rule).Some? && Implies(rule, Orderly(c))
    ensures ApartInv(Exec(c, w, steps, rule).value)
    decreases |steps|
  {
    if steps != [] {
      StepKeeps(c, w, steps[0]);
      StepLease(c, w, steps[0]);
      StepApart(c, w, steps[0]);
      RunApart(c, Next(c, w, steps[0]), steps[1..], rule);
    }
  }

  lemma ReachesApart(c: Config, amount: nat, currency: string, now: nat, steps: seq<Step>, rule: Rule)
    requires ValidConfig(c) && Implies(rule, Orderly(c)) && Exec(c, Start(amount, currency, now), steps, rule).Some?
    ensures var w := Exec(c, Start(amount, currency, now), steps, rule).value; Inv(c, w) && LeaseInv(w) && ApartInv(w)
  {
    StartInv(c, amount, currency, now);
    StartLease(amount, currency, now);
    StartApart(amount, currency, now);
    ReachesLease(c, amount, currency, now, steps, rule);
    RunApart(c, Start(amount, currency, now), steps, rule);
  }

  /** SEGREGATION OVER TRACES. In every orderly run, no provider call follows a recorded rejection before
      somebody reopens the refund, and an identified person who reopens it is not the last one who
      requested it. */
  lemma SegregationHolds(c: Config, amount: nat, currency: string, now: nat, steps: seq<Step>, rule: Rule)
    requires ValidConfig(c) && Implies(rule, Orderly(c)) && Exec(c, Start(amount, currency, now), steps, rule).Some?
    ensures Segregated(Exec(c, Start(amount, currency, now), steps, rule).value.trail)
  {
    ReachesApart(c, amount, currency, now, steps, rule);
  }

  /** COMPLETED MEANS PAID. In every orderly run a refund recorded as completed was paid, for the collected
      amount, and a paid one is recorded as completed or can still be attempted. */
  lemma CompletedMeansPaid(c: Config, amount: nat, currency: string, now: nat, steps: seq<Step>, rule: Rule)
    requires ValidConfig(c) && Implies(rule, Orderly(c)) && Exec(c, Start(amount, currency, now), steps, rule).Some?
    ensures var w := Exec(c, Start(amount, currency, now), steps, rule).value;
            (w.row.state.refund == Some(FCompleted) ==>
               w.refund.Some? && w.refund.value.key in w.paid && Some(w.paid[w.refund.value.key]) == w.row.collected)
            && (w.paid != map[] ==>
                  w.refund.Some? && (w.row.state.refund == Some(FCompleted) || Attemptable(w.refund.value)))
  {
    ReachesApart(c, amount, currency, now, steps, rule);
    var w := Exec(c, Start(amount, currency, now), steps, rule).value;
    if w.paid != map[] {
      var k :| k in w.paid;
    }
  }

  // ---------------------------------------------------------------------------------------------
  // Finishing what was paid
  // ---------------------------------------------------------------------------------------------

  /** The attempt in progress, if any, dies; then the retry worker passes. */
  function FinishSteps(dead: nat, p: nat): seq<Step> {
    [RefundCrash(dead)] + ([RetryFind(p)] + ([RetryRow(p)] + ([RefundStart(p)]
    + ([RefundCall(p, Accepts)] + ([RefundFinish(p, Commits)] + [])))))
  }

  /** The world once the retry worker holds the file and the row. */
  function LoadedWorld(w: World, p: nat): World
    requires w.refund.Some?
  {
    w.(tries := map[p := Loaded(w.refund.value, w.row, Some("refund-retry-worker"), false)])
  }

  lemma LoadSteps(c: Config, w: World, dead: nat, p: nat, rest: seq<Step>)
    requires ValidConfig(c) && w.refund.Some? && w.refund.value.status != FRequired && Attemptable(w.refund.value)
    requires forall q :: q in w.tries ==> q == dead
    ensures Exec(c, w, [RefundCrash(dead)] + ([RetryFind(p)] + ([RetryRow(p)] + rest)), Orderly(c))
            == Exec(c, LoadedWorld(w, p), rest, Orderly(c))
  {
    var w0 := w.(tries := map[]);
    assert w.tries - {dead} == map[];
    ExecStep(c, w, RefundCrash(dead), [RetryFind(p)] + ([RetryRow(p)] + rest), Orderly(c));
    ReadSteps(c, w0, p, rest);
  }

  lemma ReadSteps(c: Config, w: World, p: nat, rest: seq<Step>)
    requires ValidConfig(c) && w.refund.Some? && w.refund.value.status != FRequired && Attemptable(w.refund.value)
    requires w.tries == map[]
    ensures Exec(c, w, [RetryFind(p)] + ([RetryRow(p)] + rest), Orderly(c))
            == Exec(c, LoadedWorld(w, p), rest, Orderly(c))
  {
    var v := Next(c, w, RetryFind(p));
    assert v == w.(tries := map[p := Found(w.refund.value)]);
    ExecStep(c, w, RetryFind(p), [RetryRow(p)] + rest, Orderly(c));
    assert Next(c, v, RetryRow(p)).tries == LoadedWorld(w, p).tries;
    ExecStep(c, v, RetryRow(p), rest, Orderly(c));
  }

  /** The attempt is recorded: nothing refuses it. */
  lemma StartGoes(w: World, p: nat, t: Try)
    requires Shape(w.row.state) && w.tries == map[p := t] && t.Loaded? && t.tx == w.row && Attemptable(t.file)
    requires Owed(w.row)
    requires w.row.state.refund == Some(t.file.status)
    ensures var v := StartAttempt(w, p, t);
            v.paid == w.paid && p in v.tries && v.tries[p].InFlight? && v.tries[p].file.key == t.file.key
            && v.tries[p].tx == v.row && v.row.state == w.row.state.(refund := Some(FRequested))
            && v.refund == Some(v.tries[p].file) && v.tries[p].file.status == FRequested
               && v.tries == map[p := v.tries[p]]
            && (!t.manual ==> v.trail == w.trail)
  {
    SyncGoes(w);
  }

  lemma SyncGoes(w: World)
    requires Shape(w.row.state) && Owed(w.row) && w.row.state.refund != Some(FCompleted)
    ensures Sync(w, w.row, FRequested, false) == Some(w.row.(state := w.row.state.(refund := Some(FRequested))))
  {
    RefundLegal(w.row.state, w.row.state.(refund := Some(FRequested)));
  }

  lemma SuccessGoes(w: World, p: nat, t: Try)
    requires p in w.tries && w.tries[p] == t && t.Answered? && t.tx == w.row && Shape(w.row.state)
    requires w.row.state.refund == Some(FRequested)
    ensures var v := RecordSuccess(w, p, t, Commits);
            v.refund.Some? && v.refund.value.status == FCompleted && v.paid == w.paid
            && v.row.state.refund == Some(FCompleted) && v.row.state.case_ == Some(CResolved)
  {
    var y := w.row.state.(refund := Some(FCompleted), case_ := Some(CResolved));
    RefundLegal(w.row.state, y);
    assert Sync(w, t.tx, FCompleted, true) == Some(w.row.(state := y));
  }

  /** One pass of the retry worker, over a refund that was paid and is not recorded as completed. */
  lemma FinishFrom(c: Config, w: World, key: nat, dead: nat, p: nat)
    requires ValidConfig(c) && MoneyOk(w) && LeaseInv(w) && ApartInv(w)
    requires key in w.paid && w.row.state.refund != Some(FCompleted) && (forall q :: q in w.tries ==> q == dead)
    ensures Finished(Exec(c, w, FinishSteps(dead, p), Orderly(c)), w)
  {
    LoadSteps(c, w, dead, p, [RefundStart(p)] + ([RefundCall(p, Accepts)] + ([RefundFinish(p, Commits)] + [])));
    LoadedLease(w, p);
    FinishStart(c, LoadedWorld(w, p), p);
  }

  predicate Finished(x: Option<World>, w: World) {
    x.Some? && x.value.row.state.refund == Some(FCompleted) && x.value.row.state.case_ == Some(CResolved)
    && x.value.refund.Some? && x.value.refund.value.status == FCompleted && x.value.paid == w.paid
  }

  lemma FinishStart(c: Config, w: World, p: nat)
    requires ValidConfig(c) && LeaseInv(w) && p in w.tries && w.tries == map[p := w.tries[p]] && w.tries[p].Loaded?
    requires w.tries[p].tx == w.row && Attemptable(w.tries[p].file) && w.tries[p].file.key in w.paid && Owed(w.row)
    requires w.row.state.refund == Some(w.tries[p].file.status)
    ensures Finished(Exec(c, w, [RefundStart(p)] + ([RefundCall(p, Accepts)] + ([RefundFinish(p, Commits)] + [])),
                          Orderly(c)), w)
  {
    StartGoes(w, p, w.tries[p]);
    ExecStep(c, w, RefundStart(p), [RefundCall(p, Accepts)] + ([RefundFinish(p, Commits)] + []), Orderly(c));
    FinishCalls(c, StartAttempt(w, p, w.tries[p]), p);
  }

  /** WHAT WAS PAID CAN BE FINISHED. At any point of an orderly run at which the provider has paid and the
      refund is not recorded as completed, one pass of the retry worker records it, resolves the case, and
      pays nothing more. */
  lemma PaidCanFinish(c: Config, amount: nat, currency: string, now: nat, steps: seq<Step>, rule: Rule,
                      key: nat, dead: nat, p: nat)
    requires ValidConfig(c) && Implies(rule, Orderly(c)) && Exec(c, Start(amount, currency, now), steps, rule).Some?
    requires var w := Exec(c, Start(amount, currency, now), steps, rule).value;
             key in w.paid && w.row.state.refund != Some(FCompleted) && (w.tries == map[] || dead in w.tries)
    ensures var w := Exec(c, Start(amount, currency, now), steps, rule).value;
            Finished(Exec(c, w, FinishSteps(dead, p), Orderly(c)), w)
  {
    ReachesApart(c, amount, currency, now, steps, rule);
    FinishFrom(c, Exec(c, Start(amount, currency, now), steps, rule).value, key, dead, p);
  }

  lemma LoadedLease(w: World, p: nat)
    requires LeaseInv(w) && w.refund.Some?
    ensures LeaseInv(LoadedWorld(w, p))
  {
    StillKeeps(w, LoadedWorld(w, p));
  }

  lemma FinishCalls(c: Config, w: World, p: nat)
    requires ValidConfig(c) && p in w.tries && w.tries[p].InFlight? && w.tries[p].tx == w.row && Shape(w.row.state)
    requires w.row.state.refund == Some(FRequested) && w.tries[p].file.key in w.paid
    ensures Finished(Exec(c, w, [RefundCall(p, Accepts)] + ([RefundFinish(p, Commits)] + []), Orderly(c)), w)
  {
    ExecStep(c, w, RefundCall(p, Accepts), [RefundFinish(p, Commits)] + [], Orderly(c));
    var v := CallProvider(w, p, w.tries[p], Accepts);
    SuccessGoes(v, p, v.tries[p]);
    ExecStep(c, v, RefundFinish(p, Commits), [], Orderly(c));
  }

  // ---------------------------------------------------------------------------------------------
  // What bars another call
  // ---------------------------------------------------------------------------------------------

  function Calls(trail: seq<Mark>): nat {
    if trail == [] then 0 else Calls(trail[..|trail| - 1]) + (if trail[|trail| - 1] == Called then 1 else 0)
  }

  /** Orderly, and nobody reopens the refund. */
  function Unreopened(c: Config): Rule { (w, s) => OrderlyStep(c, w, s) && !s.RefundReopen? }

  ghost predicate CallsAgain(c: Config, w: World, more: seq<Step>)
    requires c.feeQ > 0
  {
    var x := Exec(c, w, more, Unreopened(c));
    x.Some? && Calls(x.value.trail) > Calls(w.trail)
  }

  /** Some orderly continuation calls the provider, nobody having reopened the refund. */
  ghost predicate CanCall(c: Config, w: World)
    requires c.feeQ > 0
  {
    exists more :: CallsAgain(c, w, more)
  }

  /** Completed, or closed to retries. */
  predicate OverOrBarred(w: World) {
    w.refund.Some? && (w.refund.value.status == FCompleted
                       || (w.refund.value.status == FFailed && !w.refund.value.retryable))
  }

  lemma RefundStaysOver(c: Config, w: World, s: Step)
    requires ValidConfig(c) && ApartInv(w) && Enabled(w, s) && IsRefundStep(s) && !s.RefundReopen? && OverOrBarred(w)
    ensures Next(c, w, s).refund == w.refund && Next(c, w, s).trail == w.trail
  {
    if s.RefundStart? || s.RefundCall? || s.RefundFinish? {
      NobodyAsks(w, s.p);
    }
  }

  lemma NobodyAsks(w: World, p: nat)
    requires ApartInv(w) && OverOrBarred(w) && p in w.tries
    ensures !w.tries[p].InFlight? && !w.tries[p].Answered? && (w.tries[p].Loaded? ==> !Attemptable(w.tries[p].file))
  {
    assert TryFresh(w, w.tries[p]);
  }

  /** What every orderly run keeps. */
  ghost predicate Kept(c: Config, w: World) { Inv(c, w) && LeaseInv(w) && ApartInv(w) }

  lemma StepKept(c: Config, w: World, s: Step)
    requires ValidConfig(c) && Kept(c, w) && Enabled(w, s) && OrderlyStep(c, w, s)
    ensures Kept(c, Next(c, w, s))
  {
    StepKeeps(c, w, s);
    StepLease(c, w, s);
    StepApart(c, w, s);
  }

  lemma StepStaysOver(c: Config, w: World, s: Step)
    requires ValidConfig(c) && Kept(c, w) && Enabled(w, s) && OrderlyStep(c, w, s) && !s.RefundReopen?
    requires OverOrBarred(w)
    ensures var v := Next(c, w, s); Kept(c, v) && OverOrBarred(v) && v.trail == w.trail
  {
    StepKept(c, w, s);
    if IsRefundStep(s) {
      RefundStaysOver(c, w, s);
    } else {
      OthersAside(c, w, s);
    }
  }

  lemma {:induction false} RunStaysOver(c: Config, w: World, steps: seq<Step>)
    requires ValidConfig(c) && Kept(c, w) && OverOrBarred(w) && Exec(c, w, steps, Unreopened(c)).Some?
    ensures Exec(c, w, steps, Unreopened(c)).value.trail == w.trail
    decreases |steps|
  {
    if steps != [] {
      StepStaysOver(c, w, steps[0]);
      RunStaysOver(c, Next(c, w, steps[0]), steps[1..]);
    }
  }

  function AskingSteps(dead: nat, key: nat): seq<Step> {
    [RefundCrash(dead)] + ([RefundOpen(0, None)]
                           + ([RefundFind(0, key)] + ([RefundStart(0)] + ([RefundCall(0, Fails)] + []))))
  }

  /** A request by nobody in particular, on the file as it is. */
  lemma AskingLoads(c: Config, w: World, key: nat, rest: seq<Step>)
    requires ValidConfig(c) && w.refund.Some? && w.refund.value.status != FCompleted && Owed(w.row)
    requires w.row.collected.Some?
    requires w.tries == map[] && key !in w.paid
    ensures Exec(c, w, [RefundOpen(0, None)] + ([RefundFind(0, key)] + rest), Unreopened(c))
            == Exec(c, w.(tries := map[0 := Loaded(w.refund.value, w.row, None, false)]), rest, Unreopened(c))
  {
    var w1 := w.(tries := map[0 := Opened(w.row, None)]);
    ExecStep(c, w, RefundOpen(0, None), [RefundFind(0, key)] + rest, Unreopened(c));
    assert Next(c, w, RefundOpen(0, None)) == w1;
    ExecStep(c, w1, RefundFind(0, key), rest, Unreopened(c));
    assert FindOrCreate(w1, 0, w1.tries[0], key).tries == map[0 := Loaded(w.refund.value, w.row, None, false)];
  }

  lemma AttemptForgotten(c: Config, w: World, dead: nat, rest: seq<Step>)
    requires ValidConfig(c) && forall q :: q in w.tries ==> q == dead
    ensures Exec(c, w, [RefundCrash(dead)] + rest, Unreopened(c)) == Exec(c, w.(tries := map[]), rest, Unreopened(c))
  {
    assert w.tries - {dead} == map[];
    ExecStep(c, w, RefundCrash(dead), rest, Unreopened(c));
  }

  lemma LoadedCalls(c: Config, w: World, t: Try)
    requires ValidConfig(c) && Shape(w.row.state) && Owed(w.row) && w.tries == map[0 := t] && t.Loaded? && t.tx == w.row
    requires Attemptable(t.file) && w.row.state.refund == Some(t.file.status) && !t.manual
    ensures var x := Exec(c, w, [RefundStart(0)] + ([RefundCall(0, Fails)] + []), Unreopened(c));
            x.Some? && x.value.trail == w.trail + [Called]
  {
    StartGoes(w, 0, t);
    ExecStep(c, w, RefundStart(0), [RefundCall(0, Fails)] + [], Unreopened(c));
    ExecStep(c, StartAttempt(w, 0, t), RefundCall(0, Fails), [], Unreopened(c));
  }

  /** What an open file needs to be asked for again. */
  lemma OpenIsAskable(c: Config, w: World)
    requires Kept(c, w) && w.refund.Some? && !OverOrBarred(w)
    ensures Shape(w.row.state) && Owed(w.row) && w.row.collected.Some? && w.refund.value.key + 1 !in w.paid
    ensures Attemptable(w.refund.value) && w.row.state.refund == Some(w.refund.value.status)
  {
  }

  lemma TheAttempt(w: World) returns (dead: nat)
    requires ApartInv(w)
    ensures forall q :: q in w.tries ==> q == dead
  {
    dead := 0;
    if w.tries != map[] {
      dead :| dead in w.tries;
    }
  }

  lemma OpenCanCall(c: Config, w: World)
    requires ValidConfig(c) && Kept(c, w) && w.refund.Some? && !OverOrBarred(w)
    ensures CanCall(c, w)
  {
    OpenIsAskable(c, w);
    var dead := TheAttempt(w);
    AskingCalls(c, w, dead, w.refund.value.key + 1);
  }

  lemma AskingCalls(c: Config, w: World, dead: nat, key: nat)
    requires ValidConfig(c) && w.refund.Some? && Shape(w.row.state) && Owed(w.row) && w.row.collected.Some?
    requires key !in w.paid
    requires Attemptable(w.refund.value) && w.row.state.refund == Some(w.refund.value.status)
    requires forall q :: q in w.tries ==> q == dead
    ensures CanCall(c, w)
  {
    var last := [RefundStart(0)] + ([RefundCall(0, Fails)] + []);
    AttemptForgotten(c, w, dead, [RefundOpen(0, None)] + ([RefundFind(0, key)] + last));
    AskingLoads(c, w.(tries := map[]), key, last);
    var v := w.(tries := map[0 := Loaded(w.refund.value, w.row, None, false)]);
    LoadedCalls(c, v, v.tries[0]);
    CallCounts(w.trail);
    assert CallsAgain(c, w, AskingSteps(dead, key));
  }

  lemma CallCounts(trail: seq<Mark>)
    ensures Calls(trail + [Called]) == Calls(trail) + 1
  {
    assert (trail + [Called])[..|trail|] == trail;
  }

  /** ONLY A RECORDED REJECTION BARS, EXACTLY. At any point of any orderly run at which a refund file exists, some
      continuation calls the provider without anybody reopening the refund if and only if the refund is not completed
      and no rejection has been recorded since the last reopening. A rejection that is still in memory, or was lost by
      a crash, bars nothing. */
  lemma CalledAgainIff(c: Config, amount: nat, currency: string, now: nat, steps: seq<Step>, rule: Rule)
    requires ValidConfig(c) && Implies(rule, Orderly(c)) && Exec(c, Start(amount, currency, now), steps, rule).Some?
    requires Exec(c, Start(amount, currency, now), steps, rule).value.refund.Some?
    ensures var w := Exec(c, Start(amount, currency, now), steps, rule).value;
            CanCall(c, w) <==> w.refund.value.status != FCompleted && !Barred(w.trail)
  {
    var w := Exec(c, Start(amount, currency, now), steps, rule).value;
    ReachesApart(c, amount, currency, now, steps, rule);
    if OverOrBarred(w) {
      forall more | Exec(c, w, more, Unreopened(c)).Some? ensures !CallsAgain(c, w, more) {
        RunStaysOver(c, w, more);
      }
    } else {
      OpenCanCall(c, w);
    }
  }

  // ---------------------------------------------------------------------------------------------
  // Who can reopen
  // ---------------------------------------------------------------------------------------------

  /** The last manual request is at i. */
  predicate AskedLastAt(trail: seq<Mark>, i: int) {
    0 <= i < |trail| && trail[i].Asked? && forall k :: i < k < |trail| ==> !trail[k].Asked?
  }

  /** The last manual requester is the author of the last manual request, if there is one. */
  lemma {:induction false} LastAskedIs(trail: seq<Mark>)
    ensures forall i :: AskedLastAt(trail, i) ==> LastAsked(trail) == trail[i].who
    ensures (forall k :: 0 <= k < |trail| ==> !trail[k].Asked?) ==> LastAsked(trail) == None
  {
    if trail != [] {
      var front := trail[..|trail| - 1];
      LastAskedIs(front);
      forall i | AskedLastAt(trail, i) ensures LastAsked(trail) == trail[i].who {
        if i < |front| {
          assert AskedLastAt(front, i);
        }
      }
    }
  }

  predicate RefusedLastAt(trail: seq<Mark>, i: int) {
    0 <= i < |trail| && trail[i] == Refused && forall k :: i < k < |trail| ==> !trail[k].Reopened?
  }

  /** Barred: a rejection, and no reopening after it. */
  lemma {:induction false} BarredIff(trail: seq<Mark>)
    ensures Barred(trail) <==> exists i :: RefusedLastAt(trail, i)
  {
    if trail != [] {
      var front, m := trail[..|trail| - 1], trail[|trail| - 1];
      BarredIff(front);
      if m == Refused {
        assert RefusedLastAt(trail, |front|);
      } else if !m.Reopened? && Barred(front) {
        var i :| RefusedLastAt(front, i);
        assert RefusedLastAt(trail, i);
      }
      forall i | RefusedLastAt(trail, i) ensures Barred(trail) {
        if i < |front| {
          assert RefusedLastAt(front, i);
        }
      }
    }
  }

  /** Somebody asked last, or nobody ever did. */
  lemma {:induction false} SomebodyAsked(trail: seq<Mark>)
    ensures LastAsked(trail).Some? ==> exists i :: AskedLastAt(trail, i)
  {
    if trail != [] {
      var front := trail[..|trail| - 1];
      SomebodyAsked(front);
      if trail[|front|].Asked? {
        assert AskedLastAt(trail, |front|);
      } else if LastAsked(front).Some? {
        var i :| AskedLastAt(front, i);
        assert AskedLastAt(trail, i);
      }
    }
  }

  /** A rejection is recorded, nobody has reopened the refund since, and `who` is not the author of the last manual
      request. */
  ghost predicate Reopenable(trail: seq<Mark>, who: Option<string>) {
    (exists i :: RefusedLastAt(trail, i))
    && (who.None? || forall i :: AskedLastAt(trail, i) ==> trail[i].who != who)
  }

  lemma ReopenableIff(trail: seq<Mark>, who: Option<string>)
    ensures Reopenable(trail, who) <==> Barred(trail) && !(who.Some? && LastAsked(trail) == who)
  {
    BarredIff(trail);
    LastAskedIs(trail);
    SomebodyAsked(trail);
  }

  lemma CanReopenIff(w: World, who: Option<string>)
    requires ApartInv(w)
    ensures CanReopen(w, who) <==> Reopenable(w.trail, who)
  {
    ReopenableIff(w.trail, who);
  }

  /** ANYBODY ELSE CAN REOPEN, EXACTLY. At any point of any orderly run, the refund can be reopened if and only if a
      rejection was recorded and nobody has reopened the refund since, by anybody who is not the author of the last
      manual request; and once it is reopened some continuation calls the provider again. */
  lemma AnybodyElseReopens(c: Config, amount: nat, currency: string, now: nat, steps: seq<Step>, rule: Rule,
                           who: Option<string>)
    requires ValidConfig(c) && Implies(rule, Orderly(c)) && Exec(c, Start(amount, currency, now), steps, rule).Some?
    ensures var w := Exec(c, Start(amount, currency, now), steps, rule).value;
            (Enabled(w, RefundReopen(who)) <==> Reopenable(w.trail, who))
            && (Enabled(w, RefundReopen(who)) ==> CanCall(c, Next(c, w, RefundReopen(who))))
  {
    ReachesApart(c, amount, currency, now, steps, rule);
    KeptReopens(c, Exec(c, Start(amount, currency, now), steps, rule).value, who);
    if Enabled(Exec(c, Start(amount, currency, now), steps, rule).value, RefundReopen(who)) {
      ReopenedCalls(c, Exec(c, Start(amount, currency, now), steps, rule).value, who);
    }
  }

  lemma KeptReopens(c: Config, w: World, who: Option<string>)
    requires Kept(c, w)
    ensures Enabled(w, RefundReopen(who)) <==> Reopenable(w.trail, who)
  {
    CanReopenIff(w, who);
  }

  lemma ReopenedCalls(c: Config, w: World, who: Option<string>)
    requires ValidConfig(c) && Kept(c, w) && Enabled(w, RefundReopen(who))
    ensures CanCall(c, Next(c, w, RefundReopen(who)))
  {
    StepKept(c, w, RefundReopen(who));
    OpenCanCall(c, Next(c, w, RefundReopen(who)));
  }
}
