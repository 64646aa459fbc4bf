/** The payment protocol of one Mobile Money transaction as a transition system: the row, its registry of
    facts, the bank instruction and the refund file, which every SQL transaction updates atomically, and the
    private memory of the handlers, which act on snapshots read earlier. Any number of handlers run
    interleaved; a crash erases the memory of one of them between any two steps. */
module Gateway {
  import opened Basics
  import opened Domain
  import opened StateMachine
  import Ledger

  // ---------------------------------------------------------------------------------------------
  // Tables
  // ---------------------------------------------------------------------------------------------

  /** A row of `transactions`; amounts in cents. */
  datatype Row = Row(
    state: State, amount: nat, currency: string,
    collected: Option<nat>, collectedCurrency: Option<string>, fee: nat)

  /** A recorded fact, with what its posting needs. */
  datatype Fact = Fact(t: EventType, ordered: nat, observed: Option<nat>, fee: nat, actor: Option<string>)

  datatype InstructionStatus = IPending | IInFlight | ICompleted | IDeadLetter

  datatype Instruction = Instruction(status: InstructionStatus, attempts: nat, nextAt: nat, updatedAt: nat)

  datatype RefundFile = RefundFile(
    status: RefundStatus, amount: nat, key: nat, attempts: nat, retryable: bool, lastRequestedBy: Option<string>)

  /** A signed notification of the aggregator. */
  datatype Note = Note(failed: bool, amount: nat, currency: string)

  // ---------------------------------------------------------------------------------------------
  // Private memory
  // ---------------------------------------------------------------------------------------------

  /** A webhook handler that has read the row. */
  datatype Hook = Hook(note: Note, before: Row)

  datatype Reply = Success | Fault | Transport

  /** A worker: the instruction and the row it read when it claimed, at time `at`. */
  datatype Job =
    | Claimed(i: Instruction, at: nat, tx: Row)
    | Replied(i: Instruction, at: nat, tx: Row, reply: Reply)
    | Applied(i: Instruction, at: nat, tx: Row)     // bank success committed, reconciliation to come
    | Settled(i: Instruction, at: nat, tx: Row)     // instruction to be saved as completed
    | Caught(i: Instruction, at: nat, tx: Row)      // an exception reached the worker
    | Unsaved(i: Instruction, at: nat, tx: Row)     // the same, raised by the save of a settled instruction

  datatype Answer = Paid | Rejected | Unavailable

  /** A refund attempt. */
  datatype Try =
    | Opened(tx: Row, actor: Option<string>)                                        // row read
    | Found(file: RefundFile)                                                       // retry: file read
    | Loaded(file: RefundFile, tx: Row, actor: Option<string>, manual: bool)
    | InFlight(file: RefundFile, tx: Row, actor: Option<string>)
    | Answered(file: RefundFile, tx: Row, actor: Option<string>, answer: Answer)

  /** What the outside world can see of refunds, in order. */
  datatype Mark = Asked(who: Option<string>) | Called | Refused | Reopened(who: Option<string>)

  datatype World = World(
    now: nat, row: Row, facts: seq<Fact>, instruction: Option<Instruction>, refund: Option<RefundFile>,
    paid: map<nat, nat>,                 // the provider: amount paid under each idempotency key
    hooks: map<nat, Hook>, jobs: map<nat, Job>, recs: map<nat, Row>, tries: map<nat, Try>,
    reclaims: nat, trail: seq<Mark>)

  datatype Config = Config(maxAttempts: nat, feeP: nat, feeQ: nat)

  ghost predicate ValidConfig(c: Config) { c.maxAttempts >= 1 && c.feeP < c.feeQ }

  const LEASE := 300_000

  /** `backoffMs`: doubling seconds, capped at thirty. */
  function Backoff(attempts: nat): (ms: nat)
    ensures 0 < ms <= 30_000
  {
    var ms := 1000 * Pow2(attempts);
    PowPositive(attempts);
    if ms < 30_000 then ms else 30_000
  }

  /** The delay after n attempts, in milliseconds. */
  function Delay(n: nat): nat {
    if n == 0 then 1_000 else if n == 1 then 2_000 else if n == 2 then 4_000
    else if n == 3 then 8_000 else if n == 4 then 16_000 else 30_000
  }

  lemma BackoffTable(n: nat)
    ensures Backoff(n) == Delay(n)
  {
    assert Pow2(2) == 4 && Pow2(3) == 8 && Pow2(4) == 16 && Pow2(5) == 32;
    if n >= 5 {
      PowGrows(5, n);
    }
  }

  lemma {:induction false} PowGrows(a: nat, b: nat)
    requires a <= b
    ensures Pow2(a) <= Pow2(b)
  {
    if a < b {
      PowGrows(a, b - 1);
    }
  }

  lemma PowPositive(k: nat)
    ensures Pow2(k) > 0
  {
  }

  // ---------------------------------------------------------------------------------------------
  // Comparisons
  // ---------------------------------------------------------------------------------------------

  function UpperChar(c: char): char { if 'a' <= c <= 'z' then 'A' + (c - 'a') else c }

  function Upper(s: string): string { seq(|s|, i requires 0 <= i < |s| => UpperChar(s[i])) }

  function TrimLeft(s: string): string { if s != "" && IsBlank(s[0]) then TrimLeft(s[1..]) else s }

  function TrimRight(s: string): string {
    if s != "" && IsBlank(s[|s| - 1]) then TrimRight(s[..|s| - 1]) else s
  }

  /** `currenciesMatch` */
  predicate CurrenciesMatch(a: Option<string>, b: Option<string>) {
    a.Some? && b.Some? && a.value != "" && b.value != ""
    && Upper(TrimRight(TrimLeft(a.value))) == Upper(TrimRight(TrimLeft(b.value)))
  }

  /** `amountsMatch`, on cents */
  predicate AmountsMatch(a: Option<nat>, b: Option<nat>) { a.Some? && b.Some? && a.value == b.value }

  /** The comparison made before the bank is instructed and again at reconciliation. */
  predicate LegsAgree(amount: Option<nat>, currency: Option<string>, r: Row) {
    AmountsMatch(amount, Some(r.amount)) && CurrenciesMatch(currency, Some(r.currency))
  }

  // ---------------------------------------------------------------------------------------------
  // Facts
  // ---------------------------------------------------------------------------------------------

  function FactOf(r: Row, t: EventType, observed: Option<nat>, actor: Option<string>): Fact {
    Fact(t, r.amount, observed, r.fee, actor)
  }

  predicate Has(facts: seq<Fact>, t: EventType) { exists i :: 0 <= i < |facts| && facts[i].t == t }

  predicate Closed(facts: seq<Fact>) { Has(facts, CaseClosed) }

  /** `closeCase` */
  function CloseCase(facts: seq<Fact>, r: Row): seq<Fact> {
    if facts == [] || Closed(facts) then facts else facts + [FactOf(r, CaseClosed, None, None)]
  }

  // ---------------------------------------------------------------------------------------------
  // Webhooks
  // ---------------------------------------------------------------------------------------------

  function ConfirmedRow(c: Config, r: Row, n: Note): Row
    requires c.feeQ > 0
  {
    r.(state := r.state.(provider := Some(PConfirmed), bank := Some(BProcessing), status := StProcessing),
       collected := Some(n.amount), collectedCurrency := Some(n.currency),
       fee := Ledger.Fee(n.amount, c.feeP, c.feeQ))
  }

  function MismatchedRow(r: Row, n: Note): Row {
    r.(state := r.state.(
         provider := Some(PConfirmed), bank := Some(BBlocked), status := StFailed,
         reconciliation := Some(if CurrenciesMatch(Some(n.currency), Some(r.currency)) then RAmountMismatch
                                else RCurrencyMismatch),
         refund := Some(FRequired), case_ := Some(CManualReview)),
       collected := Some(n.amount), collectedCurrency := Some(n.currency))
  }

  function RefusedRow(r: Row, n: Note): Row {
    r.(state := r.state.(
         provider := Some(PFailed), status := StFailed, reconciliation := Some(RNotApplicable),
         refund := Some(FNotRequired), case_ := Some(CNone)),
       collected := Some(n.amount), collectedCurrency := Some(n.currency))
  }

  /** `confirmAndClaimBankProcessing` on a conforming notification: the guarded update, the check against the
      snapshot, the fact and the instruction, all or nothing. */
  function ConfirmAndClaim(c: Config, w: World, before: Row, n: Note): World
    requires c.feeQ > 0
  {
    if w.row.state.bank == Some(BNotStarted) && w.row.state.provider in {Some(PInitiated), Some(PPending)} then
      var r := ConfirmedRow(c, w.row, n);
      if Legal(before.state, r.state) && w.instruction.None? then
        w.(row := r, facts := w.facts + [FactOf(r, ProviderConfirmed, Some(n.amount), None)],
           instruction := Some(Instruction(IPending, 0, w.now, w.now)))
      else w
    else if w.row.state.reconciliation == Some(RMatched) then w.(facts := CloseCase(w.facts, w.row))
    else w
  }

  /** `markAmountMismatch` */
  function MarkAmountMismatch(w: World, before: Row, n: Note): World {
    var r := MismatchedRow(w.row, n);
    if w.row.state.bank == Some(BNotStarted) && Legal(before.state, r.state) then
      w.(row := r, facts := w.facts + [FactOf(r, AmountMismatchDetected, Some(n.amount), None)]
                                    + [FactOf(r, BankProcessingBlocked, Some(n.amount), None)]
                                    + [FactOf(r, CaseOpened, Some(n.amount), None)])
    else w
  }

  /** `markProviderFailed` */
  function MarkProviderFailed(w: World, before: Row, n: Note): World {
    var r := RefusedRow(w.row, n);
    if w.row.state.bank == Some(BNotStarted) && Legal(before.state, r.state) then
      w.(row := r, facts := CloseCase(w.facts + [FactOf(r, ProviderFailed, Some(n.amount), None)], r))
    else w
  }

  function ApplyNote(c: Config, w: World, h: Hook): World
    requires c.feeQ > 0
  {
    if h.note.failed then MarkProviderFailed(w, h.before, h.note)
    else if !LegsAgree(Some(h.note.amount), Some(h.note.currency), h.before)
        then MarkAmountMismatch(w, h.before, h.note)
    else ConfirmAndClaim(c, w, h.before, h.note)
  }

  // ---------------------------------------------------------------------------------------------
  // The bank leg
  // ---------------------------------------------------------------------------------------------

  predicate Claimable(w: World) {
    w.instruction.Some?
    && ((w.instruction.value.status == IPending && w.instruction.value.nextAt <= w.now)
        || (w.instruction.value.status == IInFlight && w.instruction.value.updatedAt + LEASE <= w.now))
  }

  /** `claimNext`: a due instruction, or one whose lease has expired. */
  function Claim(w: World, k: nat): World
    requires Claimable(w)
  {
    var i := w.instruction.value;
    var j := Instruction(IInFlight, i.attempts + 1, i.nextAt, w.now);
    w.(instruction := Some(j), jobs := w.jobs[k := Claimed(j, w.now, w.row)],
       reclaims := if i.status == IInFlight then w.reclaims + 1 else w.reclaims)
  }

  predicate BankDone(r: Row) { r.state.bank in {Some(BCompleted), Some(BFailed), Some(BBlocked)} }

  /** The start of `attempt`: a leg already decided is not replayed; otherwise the bank is called. */
  function Call(w: World, k: nat, j: Job, reply: Reply): World
    requires j.Claimed?
  {
    w.(jobs := w.jobs[k := if BankDone(j.tx) then Settled(j.i, j.at, j.tx) else Replied(j.i, j.at, j.tx, reply)])
  }

  function SuccessRow(r: Row): Row {
    r.(state := r.state.(status := StCompleted, bank := Some(BCompleted)))
  }

  /** The row written by `handleBankFailure` and by `deadLetter`. */
  function FailureRow(r: Row): Row {
    r.(state := r.state.(status := StFailed, bank := Some(BFailed), reconciliation := Some(RManualReview),
                         refund := Some(FRequired), case_ := Some(CManualReview)))
  }

  function FailureFacts(facts: seq<Fact>, r: Row): seq<Fact> {
    facts + [FactOf(r, BankProcessingFailed, None, None)] + [FactOf(r, CaseOpened, None, None)]
  }

  /** `executeBankInstruction` after the reply. The whole entity is saved over the row; a refused
      transition or an `abort` of the transaction leaves the row and sends the mutated entity to the
      worker's catch. */
  function ApplyReply(w: World, k: nat, j: Job, abort: bool): World
    requires j.Replied?
  {
    match j.reply
    case Transport => w.(jobs := w.jobs[k := Caught(j.i, j.at, j.tx)])
    case Success =>
      var r := SuccessRow(j.tx);
      if abort || !Legal(j.tx.state, r.state) then w.(jobs := w.jobs[k := Caught(j.i, j.at, r)])
      else w.(row := r, facts := w.facts + [FactOf(r, BankProcessingCompleted, None, None)],
              jobs := w.jobs[k := Applied(j.i, j.at, r)])
    case Fault =>
      var r := FailureRow(j.tx);
      if abort || !Legal(j.tx.state, r.state) then w.(jobs := w.jobs[k := Caught(j.i, j.at, r)])
      else w.(row := r, facts := FailureFacts(w.facts, r), jobs := w.jobs[k := Settled(j.i, j.at, r)])
  }

  function ReconciledRow(e: Row): Row {
    e.(state := e.state.(reconciliation :=
         Some(if LegsAgree(e.collected, e.collectedCurrency, e) then RMatched else RMismatch)))
  }

  /** `reconcile` on an entity read earlier; None when its transaction is refused. */
  function Reconcile(w: World, e: Row): Option<World> {
    if e.state.reconciliation == Some(RMatched) then Some(w.(facts := CloseCase(w.facts, e)))
    else if e.state.provider != Some(PConfirmed) || e.state.bank != Some(BCompleted) then
      Some(w.(row := e.(state := e.state.(reconciliation :=
                Some(if e.state.bank == Some(BFailed) then RManualReview else RPending)))))
    else
      var r := ReconciledRow(e);
      if !Legal(e.state, r.state) then None
      else if r.state.reconciliation == Some(RMatched) then
        Some(w.(row := r, facts := CloseCase(w.facts + [FactOf(r, ReconciliationMatched, r.collected, None)], r)))
      else Some(w.(row := r, facts := w.facts + [FactOf(r, ReconciliationMismatch, r.collected, None)]))
  }

  /** One row of `runPending`. */
  function ReconcileRead(w: World, p: nat): World
    requires p in w.recs
  {
    match Reconcile(w, w.recs[p])
    case Some(v) => v.(recs := v.recs - {p})
    case None => w.(recs := w.recs - {p})
  }

  /** The worker's own reconciliation; its entity is mutated before the transaction that may be refused or
      rolled back. */
  function ReconcileApplied(w: World, k: nat, j: Job, abort: bool): World
    requires j.Applied?
  {
    var caught := w.(jobs := w.jobs[k := Caught(j.i, j.at, ReconciledRow(j.tx))]);
    match Reconcile(w, j.tx)
    case Some(v) => if abort then caught else v.(jobs := v.jobs[k := Settled(j.i, j.at, ReconciledRow(j.tx))])
    case None => caught
  }

  function SaveCompleted(w: World, k: nat, j: Job): World
    requires j.Settled?
  {
    w.(instruction := Some(j.i.(status := ICompleted, updatedAt := w.now)), jobs := w.jobs - {k})
  }

  /** The save itself fails: the exception reaches the worker's catch. */
  function SaveFails(w: World, k: nat, j: Job): World
    requires j.Settled?
  {
    w.(jobs := w.jobs[k := Unsaved(j.i, j.at, j.tx)])
  }

  function Delayed(i: Instruction, now: nat): Instruction {
    i.(status := IPending, nextAt := now + Backoff(i.attempts), updatedAt := now)
  }

  /** The worker's catch: another try after a backoff, or the dead letter with the debt it opens. */
  function SaveCaught(c: Config, w: World, k: nat, j: Job): World
    requires j.Caught? || j.Unsaved?
  {
    if j.i.attempts < c.maxAttempts then
      w.(instruction := Some(Delayed(j.i, w.now)), jobs := w.jobs - {k})
    else
      var r := FailureRow(j.tx);
      if Legal(j.tx.state, r.state) then
        w.(row := r, facts := FailureFacts(w.facts, r),
           instruction := Some(j.i.(status := IDeadLetter, updatedAt := w.now)), jobs := w.jobs - {k})
      else w.(jobs := w.jobs - {k})
  }

  // ---------------------------------------------------------------------------------------------
  // Refunds
  // ---------------------------------------------------------------------------------------------

  predicate Attemptable(f: RefundFile) {
    f.status in {FRequired, FRequested} || (f.status == FFailed && f.retryable)
  }

  /** `findOrCreate` for a request that has read the row; a completed file only repairs the closure. */
  function FindOrCreate(w: World, p: nat, t: Try, key: nat): World
    requires t.Opened? && t.tx.collected.Some?
  {
    var file := w.refund.GetOr(RefundFile(FRequired, t.tx.collected.value, key, 0, true, None));
    var v := w.(refund := Some(file));
    if file.status == FCompleted then v.(facts := CloseCase(v.facts, t.tx), tries := v.tries - {p})
    else v.(tries := v.tries[p := Loaded(file, t.tx, t.actor, t.actor.Some?)])
  }

  /** `syncTransaction`: only the refund and case columns move; None when the passage from the snapshot to
      the row just written is refused. */
  function Sync(w: World, tx: Row, status: RefundStatus, resolve: bool): Option<Row> {
    var r := w.row.(state := w.row.state.(refund := Some(status),
                                          case_ := if resolve then Some(CResolved) else w.row.state.case_));
    if Legal(tx.state, r.state) then Some(r) else None
  }

  function SyncedSnapshot(tx: Row, r: Row): Row {
    tx.(state := tx.state.(refund := r.state.refund, case_ := r.state.case_))
  }

  function Requesting(f: RefundFile, who: Option<string>): RefundFile {
    f.(status := FRequested, attempts := f.attempts + 1, lastRequestedBy := who)
  }

  /** The first transaction of `attempt`. */
  function StartAttempt(w: World, p: nat, t: Try): World
    requires t.Loaded?
  {
    if !Attemptable(t.file) then w.(tries := w.tries - {p})
    else
      var file := Requesting(t.file, if t.manual then t.actor else t.file.lastRequestedBy);
      match Sync(w, t.tx, FRequested, false)
      case None => w.(tries := w.tries - {p})
      case Some(r) =>
        w.(row := r, refund := Some(file), facts := w.facts + [FactOf(r, RefundRequested, Some(file.amount), t.actor)],
           tries := w.tries[p := InFlight(file, SyncedSnapshot(t.tx, r), t.actor)],
           trail := if t.manual then w.trail + [Asked(t.actor)] else w.trail)
  }

  datatype Outcome = Accepts | Rejects | Loses | Fails   // Loses: paid, but the reply never comes back

  /** The provider call: a key already paid is answered, never paid again. */
  function CallProvider(w: World, p: nat, t: Try, o: Outcome): World
    requires t.InFlight?
  {
    var answer := if o == Fails || o == Loses then Unavailable
                  else if t.file.key in w.paid || o == Accepts then Paid else Rejected;
    w.(paid := if t.file.key !in w.paid && (o == Accepts || o == Loses) then w.paid[t.file.key := t.file.amount]
       else w.paid,
       tries := w.tries[p := Answered(t.file, t.tx, t.actor, answer)],
       trail := w.trail + [Called])
  }

  /** Whether a transaction of `recordSuccess` commits, or is rolled back before or after its entity was
      synchronised with the row. */
  datatype Rollback = Commits | Early | Late

  /** `recordSuccess`; when its transaction fails the attempt goes on to `recordFailure`. */
  function RecordSuccess(w: World, p: nat, t: Try, rollback: Rollback): World
    requires t.Answered?
  {
    var file := t.file.(status := FCompleted, retryable := false);
    match Sync(w, t.tx, FCompleted, true)
    case None => w.(tries := w.tries[p := t.(answer := Unavailable)])
    case Some(r) =>
      match rollback
      case Early => w.(tries := w.tries[p := t.(answer := Unavailable)])
      case Late => w.(tries := w.tries[p := Answered(t.file, SyncedSnapshot(t.tx, r), t.actor, Unavailable)])
      case Commits =>
        w.(row := r, refund := Some(file), tries := w.tries - {p},
           facts := CloseCase(w.facts + [FactOf(r, RefundCompleted, Some(file.amount), t.actor)], r))
  }

  /** `recordFailure` */
  function RecordFailure(w: World, p: nat, t: Try): World
    requires t.Answered?
  {
    var file := t.file.(status := FFailed, retryable := t.answer != Rejected);
    match Sync(w, t.tx, FFailed, false)
    case None => w.(tries := w.tries - {p})
    case Some(r) =>
      w.(row := r, refund := Some(file), tries := w.tries - {p},
         facts := w.facts + [FactOf(r, RefundFailed, Some(file.amount), t.actor)],
         trail := if t.answer == Rejected then w.trail + [Refused] else w.trail)
  }

  /** Actors, when identified, have non-empty identifiers. */
  predicate CanReopen(w: World, who: Option<string>) {
    w.refund.Some? && w.refund.value.status != FCompleted && !w.refund.value.retryable
    && !(who.Some? && w.refund.value.lastRequestedBy == who)
  }

  /** `reopenRefund` */
  function Reopen(w: World, who: Option<string>): World
    requires CanReopen(w, who)
  {
    w.(refund := Some(w.refund.value.(retryable := true)),
       facts := w.facts + [FactOf(w.row, RefundReopened, Some(w.refund.value.amount), who)],
       trail := w.trail + [Reopened(who)])
  }

  // ---------------------------------------------------------------------------------------------
  // Treasury
  // ---------------------------------------------------------------------------------------------

  predicate Sweepable(w: World) {
    w.row.state.provider == Some(PConfirmed) && w.row.state.reconciliation == Some(RMatched)
    && w.row.state.refund == Some(FNotRequired) && w.row.collected.Some? && !Has(w.facts, SettlementSwept)
  }

  /** `sweep`, for one locked row. */
  function Sweep(w: World): World
    requires Sweepable(w)
  {
    w.(facts := w.facts + [FactOf(w.row, SettlementSwept, w.row.collected, None)])
  }

  // ---------------------------------------------------------------------------------------------
  // Runs
  // ---------------------------------------------------------------------------------------------

  datatype Step =
    | Tick(d: nat)
    | HookRead(p: nat, note: Note) | HookApply(p: nat)
    | WorkerClaim(k: nat) | WorkerCall(k: nat, reply: Reply) | WorkerApply(k: nat, abort: bool)
    | WorkerReconcile(k: nat, abort: bool) | WorkerSave(k: nat) | WorkerSaveFails(k: nat)
    | RecRead(p: nat) | RecApply(p: nat)
    | RefundOpen(p: nat, who: Option<string>) | RefundFind(p: nat, key: nat)
    | RetryFind(p: nat) | RetryRow(p: nat)
    | RefundStart(p: nat) | RefundCall(p: nat, o: Outcome) | RefundFinish(p: nat, rollback: Rollback)
    | RefundReopen(who: Option<string>)
    | TreasurySweep
    | HookCrash(p: nat) | WorkerCrash(k: nat) | RecCrash(p: nat) | RefundCrash(p: nat)

  predicate Enabled(w: World, s: Step) {
    match s
    case Tick(_) => true
    case HookRead(p, note) => p !in w.hooks && note.amount > 0
    case HookApply(p) => p in w.hooks
    case WorkerClaim(k) => k !in w.jobs && Claimable(w)
    case WorkerCall(k, _) => k in w.jobs && w.jobs[k].Claimed?
    case WorkerApply(k, _) => k in w.jobs && w.jobs[k].Replied?
    case WorkerReconcile(k, _) => k in w.jobs && w.jobs[k].Applied?
    case WorkerSave(k) => k in w.jobs && (w.jobs[k].Settled? || w.jobs[k].Caught? || w.jobs[k].Unsaved?)
    case WorkerSaveFails(k) => k in w.jobs && w.jobs[k].Settled?
    case RecRead(p) =>
      p !in w.recs && w.row.state.reconciliation == Some(RPending) && w.row.state.provider == Some(PConfirmed)
      && w.row.state.bank == Some(BCompleted)
    case RecApply(p) => p in w.recs
    case RefundOpen(p, _) => p !in w.tries && w.row.state.refund != Some(FNotRequired) && w.row.collected.Some?
    case RefundFind(p, key) => p in w.tries && w.tries[p].Opened? && w.tries[p].tx.collected.Some? && key !in w.paid
    case RetryFind(p) =>
      p !in w.tries && w.refund.Some?
      && (w.refund.value.status == FRequested || (w.refund.value.status == FFailed && w.refund.value.retryable))
    case RetryRow(p) => p in w.tries && w.tries[p].Found?
    case RefundStart(p) => p in w.tries && w.tries[p].Loaded?
    case RefundCall(p, _) => p in w.tries && w.tries[p].InFlight?
    case RefundFinish(p, _) => p in w.tries && w.tries[p].Answered?
    case RefundReopen(who) => CanReopen(w, who)
    case TreasurySweep => Sweepable(w)
    case HookCrash(p) => true
    case WorkerCrash(k) => true
    case RecCrash(p) => true
    case RefundCrash(p) => true
  }

  function Advance(w: World, d: nat): World { w.(now := w.now + d) }

  function Next(c: Config, w: World, s: Step): World
    requires c.feeQ > 0 && Enabled(w, s)
  {
    match s
    case Tick(d) => Advance(w, d)
    case HookRead(p, note) => w.(hooks := w.hooks[p := Hook(note, w.row)])
    case HookApply(p) => var v := ApplyNote(c, w, w.hooks[p]); v.(hooks := v.hooks - {p})
    case WorkerClaim(k) => Claim(w, k)
    case WorkerCall(k, reply) => Call(w, k, w.jobs[k], reply)
    case WorkerApply(k, abort) => ApplyReply(w, k, w.jobs[k], abort)
    case WorkerReconcile(k, abort) => ReconcileApplied(w, k, w.jobs[k], abort)
    case WorkerSave(k) => if w.jobs[k].Settled? then SaveCompleted(w, k, w.jobs[k]) else SaveCaught(c, w, k, w.jobs[k])
    case WorkerSaveFails(k) => SaveFails(w, k, w.jobs[k])
    case RecRead(p) => w.(recs := w.recs[p := w.row])
    case RecApply(p) => ReconcileRead(w, p)
    case RefundOpen(p, who) => w.(tries := w.tries[p := Opened(w.row, who)])
    case RefundFind(p, key) => FindOrCreate(w, p, w.tries[p], key)
    case RetryFind(p) => w.(tries := w.tries[p := Found(w.refund.value)])
    case RetryRow(p) => w.(tries := w.tries[p := Loaded(w.tries[p].file, w.row, Some("refund-retry-worker"), false)])
    case RefundStart(p) => StartAttempt(w, p, w.tries[p])
    case RefundCall(p, o) => CallProvider(w, p, w.tries[p], o)
    case RefundFinish(p, rollback) =>
      if w.tries[p].answer == Paid then RecordSuccess(w, p, w.tries[p], rollback) else RecordFailure(w, p, w.tries[p])
    case RefundReopen(who) => Reopen(w, who)
    case TreasurySweep => Sweep(w)
    case HookCrash(p) => w.(hooks := w.hooks - {p})
    case WorkerCrash(k) => w.(jobs := w.jobs - {k})
    case RecCrash(p) => w.(recs := w.recs - {p})
    case RefundCrash(p) => w.(tries := w.tries - {p})
  }

  /** `initiate`: the row and its opening fact. */
  function Start(amount: nat, currency: string, now: nat): World {
    var r := Row(State(StPending, Some(PPending), Some(BNotStarted), Some(RPending), Some(FNotRequired), Some(CNone),
                       MobileMoney), amount, currency, None, None, 0);
    World(now, r, [FactOf(r, PaymentInitiated, None, None)], None, None, map[], map[], map[], map[], map[], 0, [])
  }

  /** A rule of conduct a run may be asked to respect at each of its steps. */
  type Rule = (World, Step) -> bool

  /** Anything the handlers allow. */
  predicate Free(w: World, s: Step) { true }

  /** Some step of the run satisfies p when it is taken. */
  predicate Happens(c: Config, w: World, steps: seq<Step>, rule: Rule, p: Rule)
    requires c.feeQ > 0
    decreases |steps|
  {
    steps != [] && Enabled(w, steps[0]) && rule(w, steps[0])
    && (p(w, steps[0]) || Happens(c, Next(c, w, steps[0]), steps[1..], rule, p))
  }

  /** The world a run leads to; None when a step is not enabled, or breaks the rule. */
  function Exec(c: Config, w: World, steps: seq<Step>, rule: Rule): Option<World>
    requires c.feeQ > 0
    decreases |steps|
  {
    if steps == [] then Some(w)
    else if Enabled(w, steps[0]) && rule(w, steps[0]) then Exec(c, Next(c, w, steps[0]), steps[1..], rule)
    else None
  }

  lemma ExecStep(c: Config, w: World, s: Step, rest: seq<Step>, rule: Rule)
    requires c.feeQ > 0 && Enabled(w, s) && rule(w, s)
    ensures Exec(c, w, [s] + rest, rule) == Exec(c, Next(c, w, s), rest, rule)
  {
    assert ([s] + rest)[1..] == rest;
  }

  lemma {:induction false} ExecConcat(c: Config, w: World, a: seq<Step>, b: seq<Step>, rule: Rule)
    requires c.feeQ > 0 && Exec(c, w, a, rule).Some?
    ensures Exec(c, w, a + b, rule) == Exec(c, Exec(c, w, a, rule).value, b, rule)
    decreases |a|
  {
    if a == [] {
      assert a + b == b;
    } else {
      assert (a + b)[0] == a[0] && (a + b)[1..] == a[1..] + b;
      ExecConcat(c, Next(c, w, a[0]), a[1..], b, rule);
    }
  }

  // ---------------------------------------------------------------------------------------------
  // When an instruction comes back
  // ---------------------------------------------------------------------------------------------

  /** WHEN AN INSTRUCTION COMES BACK. One that is claimed can be claimed again once five minutes have passed, and not
      before; one whose attempt failed, attempts being left, once its delay has, two seconds after the first attempt,
      then four, eight, sixteen, and thirty for ever. */
  lemma ComesBack(c: Config, w: World, k: nat, j: Job, d: nat)
    ensures Claimable(w) ==>
              var v := Claim(w, k);
              v.instruction.Some? && v.instruction.value.attempts == w.instruction.value.attempts + 1
              && (Claimable(Advance(v, d)) <==> d >= 300_000)
    ensures (j.Caught? || j.Unsaved?) && j.i.attempts < c.maxAttempts ==>
              var v := SaveCaught(c, w, k, j);
              v.instruction.Some? && v.instruction.value.attempts == j.i.attempts && k !in v.jobs && v.row == w.row
              && (Claimable(Advance(v, d)) <==> d >= Delay(j.i.attempts))
  {
    BackoffTable(j.i.attempts);
  }
}
