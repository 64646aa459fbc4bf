/** Refunds as the service works them (src/refunds): an entity mutated around the call to a provider that
    deduplicates, against the steps of the protocol. */
module RefundService {
  import opened Basics
  import opened Domain
  import opened StateMachine
  import opened Gateway
  import opened Services
  import Leases
  import RefundRuns

  // ---------------------------------------------------------------------------------------------
  // src/refunds/simulator-refund.adapter.ts
  // ---------------------------------------------------------------------------------------------

  /** What the simulator decides from the cents of an amount, for a key it has not paid. */
  function SimulatedOutcome(amount: nat): Outcome {
    if amount % 100 == 13 then Rejects else if amount % 100 == 99 then Fails else Accepts
  }

  /** The answer to a request, and what has been paid after it. */
  function AnswerOf(paid: map<nat, nat>, key: nat, o: Outcome): Answer {
    if o == Fails || o == Loses then Unavailable else if key in paid || o == Accepts then Paid else Rejected
  }

  function PaidAfter(paid: map<nat, nat>, key: nat, amount: nat, o: Outcome): map<nat, nat> {
    if key !in paid && (o == Accepts || o == Loses) then paid[key := amount] else paid
  }

  class Simulator {
    var processed: map<nat, nat>

    constructor ()
      ensures processed == map[]
    {
      processed := map[];
    }

    /** `refund`: a key is paid once, for its first amount, and answered for ever after. */
    method Refund(key: nat, amount: nat) returns (answer: Answer, deduplicated: bool)
      modifies this
      ensures deduplicated <==> key in old(processed)
      ensures deduplicated ==> answer == Paid && processed == old(processed)
      ensures !deduplicated ==>
                answer == AnswerOf(old(processed), key, SimulatedOutcome(amount))
                && processed == PaidAfter(old(processed), key, amount, SimulatedOutcome(amount))
      ensures !deduplicated ==>
                if amount % 100 == 13 then answer == Rejected && processed == old(processed)
                else if amount % 100 == 99 then answer == Unavailable && processed == old(processed)
                else answer == Paid && processed == old(processed)[key := amount]
      ensures answer == Paid <==> key in processed
      ensures forall k :: k in old(processed) ==> k in processed && processed[k] == old(processed[k])
    {
      if key in processed {
        return Paid, true;
      }
      var cents := amount % 100;
      if cents == 13 {
        return Rejected, false;
      }
      if cents == 99 {
        return Unavailable, false;
      }
      processed := processed[key := amount];
      return Paid, false;
    }
  }

  // ---------------------------------------------------------------------------------------------
  // src/refunds/refunds.service.ts
  // ---------------------------------------------------------------------------------------------

  datatype RefundError =
    | RefundNotFound | RefundNotRequired | AmountUnknown
    | AlreadyCompleted | AlreadyRetryable | SegregationOfDuties
    | AttemptRaised

  const RETRY_WORKER := Some("refund-retry-worker")

  // ---------------------------------------------------------------------------------------------
  // One attempt left alone
  // ---------------------------------------------------------------------------------------------

  /** The tables, with one attempt in progress. */
  function Trying(w: World, t: Try): World { w.(tries := map[0 := t]) }

  /** The tables, with one attempt in progress or none. */
  function With(w: World, t: Option<Try>): World { w.(tries := if t.Some? then map[0 := t.value] else map[]) }

  /** How the provider behaves, and what fails around its call: what is read before the request, the recording of the
      request, of a success, of a failure. */
  datatype Exchange = Exchange(
    key: nat, o: Outcome, rollback: Rollback, readFails: bool, requestFails: bool, failureFails: bool)

  /** What the attempt does next. */
  function Turn(t: Try, x: Exchange): Step {
    match t
    case Opened(_, _) => RefundFind(0, x.key)
    case Found(_) => if x.readFails then RefundCrash(0) else RetryRow(0)
    case Loaded(_, _, _, _) => if x.requestFails then RefundCrash(0) else RefundStart(0)
    case InFlight(_, _, _) => RefundCall(0, x.o)
    case Answered(_, _, _, answer) =>
      if answer != Paid && x.failureFails then RefundCrash(0) else RefundFinish(0, x.rollback)
  }

  function Ahead(w: World): nat {
    if 0 !in w.tries then 0
    else match w.tries[0]
         case Opened(_, _) => 5
         case Found(_) => 5
         case Loaded(_, _, _, _) => 4
         case InFlight(_, _, _) => 3
         case Answered(_, _, _, answer) => if answer == Paid then 2 else 1
  }

  /** A request can be filed: the amount collected is known and the key it brings is new. */
  predicate Fileable(w: World, x: Exchange) {
    0 in w.tries && w.tries[0].Opened? ==> w.tries[0].tx.collected.Some? && x.key !in w.paid
  }

  lemma TurnGoes(c: Config, w: World, x: Exchange)
    requires c.feeQ > 0 && 0 in w.tries && Fileable(w, x)
    ensures Enabled(w, Turn(w.tries[0], x))
    ensures var v := Next(c, w, Turn(w.tries[0], x)); Ahead(v) < Ahead(w) && Fileable(v, x)
  {
    var t := w.tries[0];
    if Turn(t, x).RefundCrash? {
      assert 0 !in (w.tries - {0});
    } else if t.Answered? {
      AnsweredGoes(w, x.rollback);
    } else if t.Loaded? {
      StartGoesOn(w);
    }
  }

  lemma StartGoesOn(w: World)
    requires 0 in w.tries && w.tries[0].Loaded?
    ensures var v := StartAttempt(w, 0, w.tries[0]); 0 in v.tries ==> v.tries[0].InFlight?
  {
  }

  lemma AnsweredGoes(w: World, rollback: Rollback)
    requires 0 in w.tries && w.tries[0].Answered?
    ensures var v := Gateway.RecordSuccess(w, 0, w.tries[0], rollback);
            0 in v.tries ==> v.tries[0].Answered? && v.tries[0].answer != Paid
    ensures 0 !in Gateway.RecordFailure(w, 0, w.tries[0]).tries
  {
  }

  /** An attempt left alone until it is done: steps of the protocol, one after the other. */
  function Carry(c: Config, w: World, x: Exchange): World
    requires c.feeQ > 0 && Fileable(w, x)
    decreases Ahead(w)
  {
    if 0 !in w.tries then w
    else
      TurnGoes(c, w, x);
      Carry(c, Next(c, w, Turn(w.tries[0], x)), x)
  }

  /** The exception leaves the attempt: the row cannot be read, or the request or the failure cannot be recorded,
      because its transaction is rolled back or its transition refused. */
  predicate LetsOut(w: World, t: Try, x: Exchange) {
    (t.Found? && x.readFails)
    || (t.Loaded? && Attemptable(t.file) && (x.requestFails || Sync(w, t.tx, FRequested, false).None?))
    || (t.Answered? && t.answer != Paid && (x.failureFails || Sync(w, t.tx, FFailed, false).None?))
  }

  predicate Throws(c: Config, w: World, x: Exchange)
    requires c.feeQ > 0 && Fileable(w, x)
    decreases Ahead(w)
  {
    0 in w.tries
    && (TurnGoes(c, w, x); LetsOut(w, w.tries[0], x) || Throws(c, Next(c, w, Turn(w.tries[0], x)), x))
  }

  /** One more turn. */
  lemma CarryOn(c: Config, w: World, x: Exchange)
    requires c.feeQ > 0 && 0 in w.tries && Fileable(w, x)
    ensures var s := Turn(w.tries[0], x);
            Enabled(w, s)
            && var v := Next(c, w, s);
               Fileable(v, x) && Carry(c, w, x) == Carry(c, v, x)
               && (Throws(c, w, x) <==> LetsOut(w, w.tries[0], x) || Throws(c, v, x))
  {
    TurnGoes(c, w, x);
  }

  /** Two files of one debt: same amount, same key. */
  predicate SameDebt(a: RefundFile, b: RefundFile) { a.amount == b.amount && a.key == b.key }

  /** An attempt on f leads from w to v: it touches the row, the file, the registry and the provider; it keeps the debt,
      pays at most that, under its own key, and completes the file only once that key is paid. */
  predicate Worked(w: World, v: World, f: RefundFile) {
    v == w.(row := v.row, refund := v.refund, facts := v.facts, paid := v.paid, trail := v.trail)
    && (v.paid == w.paid || (f.key !in w.paid && v.paid == w.paid[f.key := f.amount]))
    && (v.refund != w.refund ==>
          v.refund.Some? && SameDebt(v.refund.value, f) && (v.refund.value.status == FCompleted ==> f.key in v.paid))
  }

  lemma WorkedOn(u: World, w: World, v: World, f: RefundFile, g: RefundFile)
    requires Worked(u, w, f) && Worked(w, v, g) && SameDebt(f, g)
    requires w.refund.Some? && w.refund.value.status == FRequested && w.paid == u.paid
    ensures Worked(u, v, f)
  {
  }

  class RefundDesk {
    var w: World

    constructor (w: World)
      requires AtRest(w)
      ensures this.w == w
    {
      this.w := w;
    }

    /** `syncTransaction`: the refund column, and the case column when the debt is extinct, of the row as it is now; the
        passage is judged from the entity read earlier. */
    method SyncTransaction(tx: Row, status: RefundStatus, resolve: bool) returns (r: Option<Row>)
      ensures r == Sync(w, tx, status, resolve)
      ensures var y := w.row.state.(refund := Some(status),
                                    case_ := if resolve then Some(CResolved) else w.row.state.case_);
              r == if Legal(tx.state, y) then Some(w.row.(state := y)) else None
    {
      var row := w.row.(state := w.row.state.(refund := Some(status)));
      if resolve {
        row := row.(state := row.state.(case_ := Some(CResolved)));
      }
      var violations := AssertTransition(tx.state, row.state);
      r := if violations == [] then Some(row) else None;
    }

    /** The request recorded before the provider is called: one more attempt on the same debt, signed by whoever asked
        for it by hand. Nothing is recorded of a file that is not attemptable; a rolled back transaction or a refused
        transition raises. */
    method RecordRequest(file: RefundFile, tx: Row, actor: Option<string>, manual: bool, abort: bool)
      returns (inFlight: Option<Try>, raised: bool)
      modifies this
      ensures raised <==> Attemptable(file) && (abort || Sync(old(w), tx, FRequested, false).None?)
      ensures inFlight.Some? <==> Attemptable(file) && !raised
      ensures inFlight.None? ==> w == old(w)
      ensures inFlight.Some? ==>
                w.refund.Some? && SameDebt(w.refund.value, file) && w.refund.value.status == FRequested
                && w.refund.value.attempts == file.attempts + 1 && w.refund.value.retryable == file.retryable
                && w.refund.value.lastRequestedBy == (if manual then actor else file.lastRequestedBy)
                && w == old(w).(refund := w.refund,
                                row := old(w).row.(state := old(w).row.state.(refund := Some(FRequested))),
                                facts := old(w).facts
                                         + [Fact(RefundRequested, w.row.amount, Some(file.amount), w.row.fee, actor)],
                                trail := if manual then old(w).trail + [Asked(actor)] else old(w).trail)
                && inFlight.value
                   == InFlight(w.refund.value,
                               tx.(state := tx.state.(refund := Some(FRequested), case_ := w.row.state.case_)), actor)
      ensures Worked(old(w), w, file)
      ensures var t := Loaded(file, tx, actor, manual);
              With(w, inFlight) == if abort then With(old(w), None) else StartAttempt(Trying(old(w), t), 0, t)
    {
      StartOn(w, Loaded(file, tx, actor, manual));
      if file.status !in {FRequired, FRequested, FFailed} || (file.status == FFailed && !file.retryable) {
        return None, false;
      }
      var refund := file.(status := FRequested, attempts := file.attempts + 1);
      if manual {
        refund := refund.(lastRequestedBy := actor);
      }
      var r := SyncTransaction(tx, FRequested, false);
      if abort || r.None? {
        return None, true;
      }
      w := w.(refund := Some(refund), row := r.value);
      w := w.(facts := w.facts + [Fact(RefundRequested, w.row.amount, Some(refund.amount), w.row.fee, actor)]);
      w := w.(trail := if manual then w.trail + [Asked(actor)] else w.trail);
      inFlight, raised := Some(InFlight(refund, SyncedSnapshot(tx, w.row), actor)), false;
    }

    /** `recordSuccess`: file, columns, fact and closure, or nothing. */
    method RecordSuccess(file: RefundFile, tx: Row, actor: Option<string>, rollback: Rollback)
      returns (done: bool, after: Row)
      modifies this
      ensures done <==> Sync(old(w), tx, FCompleted, true).Some? && rollback == Commits
      ensures file.key in old(w).paid ==> Worked(old(w), w, file)
      ensures !done ==> w == old(w)
      ensures done ==>
                var r := old(w).row;
                var facts := old(w).facts + [Fact(RefundCompleted, r.amount, Some(file.amount), r.fee, actor)];
                w == old(w).(
                refund := Some(file.(status := FCompleted, retryable := false)),
                row := r.(state := r.state.(refund := Some(FCompleted), case_ := Some(CResolved))),
                facts := if Has(facts, CaseClosed) then facts
                else facts + [Fact(CaseClosed, r.amount, None, r.fee, None)])
      ensures var t := Answered(file, tx, actor, Paid);
              With(w, if done then None else Some(Answered(file, after, actor, Unavailable)))
              == Gateway.RecordSuccess(Trying(old(w), t), 0, t, rollback)
    {
      ghost var t := Answered(file, tx, actor, Paid);
      ghost var start := Trying(w, t);
      var refund := file.(status := FCompleted, retryable := false);
      after := tx;
      var r := SyncTransaction(tx, FCompleted, true);
      assert r == Sync(start, tx, FCompleted, true);
      if r.None? || rollback == Early {
        assert start.tries[0 := t.(answer := Unavailable)] == map[0 := t.(answer := Unavailable)];
        return false, tx;
      }
      after := SyncedSnapshot(tx, r.value);
      if rollback == Late {
        assert start.tries[0 := Answered(file, after, actor, Unavailable)]
               == map[0 := Answered(file, after, actor, Unavailable)];
        return false, after;
      }
      assert start.tries - {0} == map[];
      w := w.(refund := Some(refund), row := r.value);
      w := w.(facts := w.facts + [Fact(RefundCompleted, w.row.amount, Some(refund.amount), w.row.fee, actor)]);
      Leases.ClosesAtOnce(w.facts, w.row);
      w := w.(facts := CloseCase(w.facts, w.row));
      done := true;
    }

    /** `recordFailure`: a business rejection closes the file to retries, an incident does not; nothing is paid back. A
        rolled back transaction or a refused transition raises, and nothing is recorded. */
    method RecordFailure(file: RefundFile, tx: Row, actor: Option<string>, answer: Answer, abort: bool)
      returns (raised: bool)
      requires answer != Paid
      modifies this
      ensures raised <==> abort || Sync(old(w), tx, FFailed, false).None?
      ensures Worked(old(w), w, file)
      ensures raised ==> w == old(w)
      ensures !raised ==>
                var r := old(w).row;
                w == old(w).(
                refund := Some(file.(status := FFailed, retryable := answer != Rejected)),
                row := r.(state := r.state.(refund := Some(FFailed))),
                facts := old(w).facts + [Fact(RefundFailed, r.amount, Some(file.amount), r.fee, actor)],
                trail := if answer == Rejected then old(w).trail + [Refused] else old(w).trail)
      ensures var t := Answered(file, tx, actor, answer);
              With(w, None) == if abort then With(old(w), None) else Gateway.RecordFailure(Trying(old(w), t), 0, t)
    {
      ghost var start := Trying(w, Answered(file, tx, actor, answer));
      assert start.tries - {0} == map[];
      var rejected := answer == Rejected;
      var refund := file.(status := FFailed, retryable := !rejected);
      var r := SyncTransaction(tx, FFailed, false);
      assert r == Sync(start, tx, FFailed, false);
      if abort || r.None? {
        return true;
      }
      w := w.(refund := Some(refund), row := r.value);
      w := w.(facts := w.facts + [Fact(RefundFailed, w.row.amount, Some(refund.amount), w.row.fee, actor)]);
      w := w.(trail := if rejected then w.trail + [Refused] else w.trail);
      raised := false;
    }

    /** `reopenRefund`: by somebody else than the last requester, once the file is closed to retries. Each refusal has
        its exact condition; a reopening makes the file retryable, records who did it, and changes nothing else. */
    method ReopenRefund(reopenedBy: Option<string>) returns (r: Result<RefundFile, RefundError>)
      modifies this
      ensures r.Ok? <==> CanReopen(old(w), reopenedBy)
      ensures r.Ok? ==> w == Reopen(old(w), reopenedBy)
      ensures r.Err? ==> w == old(w)
      ensures r == Err(RefundNotFound) <==> old(w).refund.None?
      ensures r == Err(AlreadyCompleted) <==> old(w).refund.Some? && old(w).refund.value.status == FCompleted
      ensures r == Err(AlreadyRetryable)
              <==> old(w).refund.Some? && old(w).refund.value.status != FCompleted && old(w).refund.value.retryable
      ensures r == Err(SegregationOfDuties)
              <==> old(w).refund.Some? && old(w).refund.value.status != FCompleted && !old(w).refund.value.retryable
                   && reopenedBy.Some? && old(w).refund.value.lastRequestedBy == reopenedBy
      ensures r.Err? ==> r.error in {RefundNotFound, AlreadyCompleted, AlreadyRetryable, SegregationOfDuties}
      ensures r.Ok? ==>
                r.value == old(w).refund.value.(retryable := true)
                && w == old(w).(
                   refund := Some(r.value), trail := w.trail,
                   facts := old(w).facts
                            + [Fact(RefundReopened, w.row.amount, Some(r.value.amount), w.row.fee, reopenedBy)])
    {
      if w.refund.None? {
        return Err(RefundNotFound);
      }
      var refund := w.refund.value;
      if refund.status == FCompleted {
        return Err(AlreadyCompleted);
      }
      if refund.retryable {
        return Err(AlreadyRetryable);
      }
      if reopenedBy.Some? && refund.lastRequestedBy.Some? && refund.lastRequestedBy.value == reopenedBy.value {
        return Err(SegregationOfDuties);
      }
      refund := refund.(retryable := true);
      w := w.(facts := w.facts + [Fact(RefundReopened, w.row.amount, Some(refund.amount), w.row.fee, reopenedBy)]);
      w := w.(refund := Some(refund), trail := w.trail + [Reopened(reopenedBy)]);
      r := Ok(refund);
    }

    /** The recorded outcome; a success that cannot be recorded is recorded as an incident. */
    method Settle(t: Try, x: Exchange, ghost c: Config) returns (raised: bool)
      requires c.feeQ > 0 && t.Answered? && w.tries == map[] && (t.answer == Paid ==> t.file.key in w.paid)
      modifies this
      ensures w == Carry(c, Trying(old(w), t), x) && (raised <==> Throws(c, Trying(old(w), t), x))
      ensures Worked(old(w), w, t.file) && w.paid == old(w).paid
    {
      var tx, bad := t.tx, t.answer;
      if t.answer == Paid {
        SuccessTurn(c, w, t, x);
        var done;
        done, tx := RecordSuccess(t.file, t.tx, t.actor, x.rollback);
        if done {
          return false;
        }
        bad := Unavailable;
      }
      FailureTurn(c, w, Answered(t.file, tx, t.actor, bad), x);
      raised := RecordFailure(t.file, tx, t.actor, bad, x.failureFails);
    }

    /** From the call to the recorded outcome. */
    method Finish(t: Try, x: Exchange, ghost c: Config) returns (raised: bool)
      requires c.feeQ > 0 && t.InFlight? && w.tries == map[]
      modifies this
      ensures w == Carry(c, Trying(old(w), t), x) && (raised <==> Throws(c, Trying(old(w), t), x))
      ensures Worked(old(w), w, t.file) && w.paid == PaidAfter(old(w).paid, t.file.key, t.file.amount, x.o)
    {
      ProviderTurn(c, w, t, x);
      var answer := AnswerOf(w.paid, t.file.key, x.o);
      w := w.(paid := PaidAfter(w.paid, t.file.key, t.file.amount, x.o), trail := w.trail + [Called]);
      raised := Settle(Answered(t.file, t.tx, t.actor, answer), x, c);
    }

    /** `attempt`: the attempt left alone. It pays at most the debt of its file, under its own key, and completes the
        file only once that key is paid; an exception leaves it if and only if the request or the
        failure cannot be recorded, its transaction being rolled back or its transition refused. */
    method Attempt(file: RefundFile, tx: Row, actor: Option<string>, manual: bool, x: Exchange, ghost c: Config)
      returns (raised: bool)
      requires c.feeQ > 0 && w.tries == map[]
      modifies this
      ensures var u := Trying(old(w), Loaded(file, tx, actor, manual));
              w == Carry(c, u, x) && (raised <==> Throws(c, u, x))
      ensures Worked(old(w), w, file)
      ensures !Attemptable(file) ==> w == old(w) && !raised
    {
      ghost var u := w;
      var inFlight;
      inFlight, raised := RecordRequest(file, tx, actor, manual, x.requestFails);
      RequestTurn(c, u, Loaded(file, tx, actor, manual), x, w, inFlight);
      if inFlight.None? {
        return;
      }
      ghost var v := w;
      raised := Finish(inFlight.value, x, c);
      WorkedOn(u, v, w, file, inFlight.value.file);
    }

    /** `findOrCreate`: the file of the debt, opened once, for the amount collected. */
    method FindOrCreate(tx: Row, key: nat) returns (refund: RefundFile)
      requires tx.collected.Some?
      modifies this
      ensures w == old(w).(refund := Some(refund))
      ensures refund == old(w).refund.GetOr(RefundFile(FRequired, tx.collected.value, key, 0, true, None))
    {
      if w.refund.None? {
        w := w.(refund := Some(RefundFile(FRequired, tx.collected.value, key, 0, true, None)));
      }
      refund := w.refund.value;
    }

    /** `requestRefund`: nothing is owed, or the amount is unknown, or the file is opened once and attempted; a
        completed file is not attempted again. What cannot be read or recorded is the error of the request. */
    method RequestRefund(requestedBy: Option<string>, x: Exchange, ghost c: Config) returns (e: Option<RefundError>)
      requires c.feeQ > 0 && w.tries == map[] && x.key !in w.paid
      modifies this
      ensures x.readFails ==> e == Some(AttemptRaised) && w == old(w)
      ensures e == Some(RefundNotRequired) <==> !x.readFails && old(w).row.state.refund == Some(FNotRequired)
      ensures e == Some(AmountUnknown)
              <==> !x.readFails && old(w).row.state.refund != Some(FNotRequired) && old(w).row.collected.None?
      ensures e in {Some(RefundNotRequired), Some(AmountUnknown)} ==> w == old(w)
      ensures !x.readFails && old(w).row.state.refund != Some(FNotRequired) && old(w).row.collected.Some? ==>
                var u := Trying(old(w), Opened(old(w).row, requestedBy));
                e in {None, Some(AttemptRaised)} && w == Carry(c, u, x) && (e.Some? <==> Throws(c, u, x))
    {
      if x.readFails {
        return Some(AttemptRaised);
      }
      var tx := w.row;
      if tx.state.refund == Some(FNotRequired) {
        return Some(RefundNotRequired);
      }
      if tx.collected.None? {
        return Some(AmountUnknown);
      }
      FindTurn(c, w, Opened(tx, requestedBy), x);
      var refund := FindOrCreate(tx, x.key);
      if refund.status == FCompleted {
        w := w.(facts := CloseCase(w.facts, tx));
        return None;
      }
      var raised := Attempt(refund, tx, requestedBy, requestedBy.Some?, x, c);
      e := if raised then Some(AttemptRaised) else None;
    }

    /** One file of `retryPending`: attempted on the row as it is now, for the retry worker. */
    method Retry(x: Exchange, ghost c: Config) returns (raised: bool)
      requires c.feeQ > 0 && w.tries == map[] && Retryable(w)
      modifies this
      ensures w == Retried(c, old(w), x) && (raised <==> RetryThrows(c, old(w), x))
      ensures Worked(old(w), w, old(w).refund.value)
    {
      RetryTurns(c, w, x);
      if x.readFails {
        return true;
      }
      raised := Attempt(w.refund.value, w.row, RETRY_WORKER, false, x, c);
    }
  }

  // ---------------------------------------------------------------------------------------------
  // The turns of an attempt left alone
  // ---------------------------------------------------------------------------------------------

  /** The first transaction of an attempt, on the tables. */
  lemma StartOn(w: World, t: Try)
    requires t.Loaded?
    ensures var r := Sync(w, t.tx, FRequested, false);
            StartAttempt(Trying(w, t), 0, t)
            == if !Attemptable(t.file) || r.None? then With(w, None)
               else
                 var file := Requesting(t.file, if t.manual then t.actor else t.file.lastRequestedBy);
                 With(w.(row := r.value, refund := Some(file),
                         facts := w.facts + [FactOf(r.value, RefundRequested, Some(file.amount), t.actor)],
                         trail := if t.manual then w.trail + [Asked(t.actor)] else w.trail),
                      Some(InFlight(file, SyncedSnapshot(t.tx, r.value), t.actor)))
  {
    var u := Trying(w, t);
    assert Sync(u, t.tx, FRequested, false) == Sync(w, t.tx, FRequested, false);
    assert u.tries - {0} == map[];
    forall f: Try ensures u.tries[0 := f] == map[0 := f] {
    }
  }

  lemma FindTurn(c: Config, w: World, t: Try, x: Exchange)
    requires c.feeQ > 0 && w.tries == map[] && t.Opened? && t.tx.collected.Some? && x.key !in w.paid
    ensures var file := w.refund.GetOr(RefundFile(FRequired, t.tx.collected.value, x.key, 0, true, None));
            var v := w.(refund := Some(file));
            if file.status == FCompleted
            then Carry(c, Trying(w, t), x) == v.(facts := CloseCase(v.facts, t.tx)) && !Throws(c, Trying(w, t), x)
            else var l := Trying(v, Loaded(file, t.tx, t.actor, t.actor.Some?));
                 Carry(c, Trying(w, t), x) == Carry(c, l, x) && (Throws(c, Trying(w, t), x) <==> Throws(c, l, x))
  {
    var u := Trying(w, t);
    var file := w.refund.GetOr(RefundFile(FRequired, t.tx.collected.value, x.key, 0, true, None));
    assert u.tries - {0} == map[];
    assert u.tries[0 := Loaded(file, t.tx, t.actor, t.actor.Some?)]
           == map[0 := Loaded(file, t.tx, t.actor, t.actor.Some?)];
    CarryOn(c, u, x);
  }

  lemma StartTurn(c: Config, w: World, t: Try, x: Exchange)
    requires c.feeQ > 0 && w.tries == map[] && t.Loaded?
    ensures if Unasked(w, t, x)
            then Carry(c, Trying(w, t), x) == w && (Throws(c, Trying(w, t), x) <==> Attemptable(t.file))
            else var v := StartAttempt(Trying(w, t), 0, t);
                 Fileable(v, x) && Carry(c, Trying(w, t), x) == Carry(c, v, x)
                   && (Throws(c, Trying(w, t), x) <==> Throws(c, v, x))
  {
    CarryOn(c, Trying(w, t), x);
    assert Trying(w, t).tries - {0} == map[];
    assert Sync(Trying(w, t), t.tx, FRequested, false) == Sync(w, t.tx, FRequested, false);
  }

  /** The turn of the request, as `RecordRequest` leaves it. */
  lemma RequestTurn(c: Config, w: World, t: Try, x: Exchange, v: World, inFlight: Option<Try>)
    requires c.feeQ > 0 && w.tries == map[] && v.tries == map[] && t.Loaded?
    requires inFlight.Some? <==> !Unasked(w, t, x)
    requires inFlight.Some? ==> With(v, inFlight) == StartAttempt(Trying(w, t), 0, t) && inFlight.value.InFlight?
    ensures if inFlight.Some?
            then Carry(c, Trying(w, t), x) == Carry(c, Trying(v, inFlight.value), x)
                 && (Throws(c, Trying(w, t), x) <==> Throws(c, Trying(v, inFlight.value), x))
            else Carry(c, Trying(w, t), x) == w && (Throws(c, Trying(w, t), x) <==> Attemptable(t.file))
  {
    StartTurn(c, w, t, x);
  }

  /** Nothing is asked of the provider: the file is not attemptable, or the request cannot be recorded. */
  predicate Unasked(w: World, t: Try, x: Exchange)
    requires t.Loaded?
  {
    x.requestFails || !Attemptable(t.file) || Sync(w, t.tx, FRequested, false).None?
  }

  lemma ProviderTurn(c: Config, w: World, t: Try, x: Exchange)
    requires c.feeQ > 0 && w.tries == map[] && t.InFlight?
    ensures var v := w.(paid := PaidAfter(w.paid, t.file.key, t.file.amount, x.o), trail := w.trail + [Called]);
            var u := Trying(v, Answered(t.file, t.tx, t.actor, AnswerOf(w.paid, t.file.key, x.o)));
            Carry(c, Trying(w, t), x) == Carry(c, u, x) && (Throws(c, Trying(w, t), x) <==> Throws(c, u, x))
  {
    var a := Answered(t.file, t.tx, t.actor, AnswerOf(w.paid, t.file.key, x.o));
    CarryOn(c, Trying(w, t), x);
    assert Trying(w, t).tries[0 := a] == map[0 := a];
  }

  lemma SuccessTurn(c: Config, w: World, t: Try, x: Exchange)
    requires c.feeQ > 0 && w.tries == map[] && t.Answered? && t.answer == Paid
    ensures var v := Gateway.RecordSuccess(Trying(w, t), 0, t, x.rollback);
            Fileable(v, x) && Carry(c, Trying(w, t), x) == Carry(c, v, x)
              && (Throws(c, Trying(w, t), x) <==> Throws(c, v, x))
  {
    CarryOn(c, Trying(w, t), x);
  }

  lemma FailureTurn(c: Config, w: World, t: Try, x: Exchange)
    requires c.feeQ > 0 && w.tries == map[] && t.Answered? && t.answer != Paid
    ensures Carry(c, Trying(w, t), x) == if x.failureFails then w else Gateway.RecordFailure(Trying(w, t), 0, t)
    ensures Throws(c, Trying(w, t), x) <==> x.failureFails || Sync(w, t.tx, FFailed, false).None?
  {
    CarryOn(c, Trying(w, t), x);
    assert Trying(w, t).tries - {0} == map[];
    assert Sync(Trying(w, t), t.tx, FFailed, false) == Sync(w, t.tx, FFailed, false);
    assert Gateway.RecordFailure(Trying(w, t), 0, t).tries == map[];
  }

  // ---------------------------------------------------------------------------------------------
  // The attempt as a run of the protocol
  // ---------------------------------------------------------------------------------------------

  lemma TurnOrderly(c: Config, w: World, x: Exchange)
    requires 0 in w.tries
    ensures RefundRuns.OrderlyStep(c, w, Turn(w.tries[0], x))
  {
  }

  lemma {:induction false} CarryRuns(c: Config, w: World, x: Exchange)
    requires c.feeQ > 0 && Fileable(w, x)
    ensures Reaches(c, w, Carry(c, w, x), RefundRuns.Orderly(c))
    decreases Ahead(w)
  {
    if 0 in w.tries {
      CarryOn(c, w, x);
      TurnGoes(c, w, x);
      TurnOrderly(c, w, x);
      var v := Next(c, w, Turn(w.tries[0], x));
      ReachesStep(c, w, Turn(w.tries[0], x), RefundRuns.Orderly(c));
      CarryRuns(c, v, x);
      ReachesTransitive(c, w, v, Carry(c, w, x), RefundRuns.Orderly(c));
    } else {
      ReachesSelf(c, w, RefundRuns.Orderly(c));
    }
  }

  /** A REQUEST IS A RUN. A refund requested on a payment at rest, whatever the provider answers and whatever is
      rolled back, is an orderly run of the protocol: the books, the segregation of duties and the single
      payout proved of such runs hold after it. */
  lemma RequestIsRun(c: Config, w: World, who: Option<string>, x: Exchange)
    requires c.feeQ > 0 && AtRest(w) && w.row.state.refund != Some(FNotRequired) && w.row.collected.Some?
    requires x.key !in w.paid
    ensures Reaches(c, w, Carry(c, Trying(w, Opened(w.row, who)), x), RefundRuns.Orderly(c))
  {
    var u := Trying(w, Opened(w.row, who));
    ReachesStep(c, w, RefundOpen(0, who), RefundRuns.Orderly(c));
    assert Next(c, w, RefundOpen(0, who)).tries == u.tries;
    CarryRuns(c, u, x);
    ReachesTransitive(c, w, u, Carry(c, u, x), RefundRuns.Orderly(c));
  }

  predicate Retryable(w: World) {
    w.refund.Some? && (w.refund.value.status == FRequested
                       || (w.refund.value.status == FFailed && w.refund.value.retryable))
  }

  function Retried(c: Config, w: World, x: Exchange): World
    requires c.feeQ > 0 && w.refund.Some?
  {
    Carry(c, Trying(w, Found(w.refund.value)), x)
  }

  predicate RetryThrows(c: Config, w: World, x: Exchange)
    requires c.feeQ > 0 && w.refund.Some?
  {
    Throws(c, Trying(w, Found(w.refund.value)), x)
  }

  lemma RetryTurns(c: Config, w: World, x: Exchange)
    requires c.feeQ > 0 && w.tries == map[] && w.refund.Some?
    ensures var l := Trying(w, Loaded(w.refund.value, w.row, RETRY_WORKER, false));
            if x.readFails then Retried(c, w, x) == w && RetryThrows(c, w, x)
            else Retried(c, w, x) == Carry(c, l, x) && (RetryThrows(c, w, x) <==> Throws(c, l, x))
  {
    var u := Trying(w, Found(w.refund.value));
    CarryOn(c, u, x);
    assert u.tries - {0} == map[];
    assert Next(c, u, RetryRow(0)).tries == map[0 := Loaded(w.refund.value, w.row, RETRY_WORKER, false)];
  }

  lemma RetryIsRun(c: Config, w: World, x: Exchange)
    requires c.feeQ > 0 && AtRest(w) && Retryable(w)
    ensures Reaches(c, w, Retried(c, w, x), RefundRuns.Orderly(c))
  {
    var u := Trying(w, Found(w.refund.value));
    ReachesStep(c, w, RetryFind(0), RefundRuns.Orderly(c));
    assert Next(c, w, RetryFind(0)).tries == u.tries;
    CarryRuns(c, u, x);
    ReachesTransitive(c, w, u, Carry(c, u, x), RefundRuns.Orderly(c));
  }

  // ---------------------------------------------------------------------------------------------
  // When an exception leaves a retry
  // ---------------------------------------------------------------------------------------------

  lemma PaidCannotFail(w: World, tx: Row)
    requires tx.state.refund == Some(FCompleted)
    ensures Sync(w, tx, FFailed, false).None?
  {
    var y := w.row.state.(refund := Some(FFailed));
    assert !Moves(tx.state, y, DRefund);
  }

  lemma RequestedCanFail(w: World)
    requires Leases.Shape(w.row.state) && w.row.state.refund == Some(FRequested)
    ensures Sync(w, w.row, FFailed, false).Some?
  {
    Leases.RefundLegal(w.row.state, w.row.state.(refund := Some(FFailed)));
  }

  lemma RequestedCanComplete(w: World)
    requires Leases.Shape(w.row.state) && w.row.state.refund == Some(FRequested)
    ensures var r := Sync(w, w.row, FCompleted, true); r.Some? && r.value.state.refund == Some(FCompleted)
  {
    Leases.RefundLegal(w.row.state, w.row.state.(refund := Some(FCompleted), case_ := Some(CResolved)));
  }

  /** Nothing can be recorded of the answer: a payment whose recording is rolled back late, or a failure. */
  predicate Unrecorded(answer: Answer, x: Exchange) {
    (answer == Paid && x.rollback == Late) || ((answer != Paid || x.rollback == Early) && x.failureFails)
  }

  lemma AnsweredThrowsIff(c: Config, w: World, t: Try, x: Exchange)
    requires c.feeQ > 0 && w.tries == map[] && t.Answered? && t.tx == w.row
    requires Leases.Shape(w.row.state) && w.row.state.refund == Some(FRequested)
    ensures Throws(c, Trying(w, t), x) <==> Unrecorded(t.answer, x)
  {
    RequestedCanFail(w);
    if t.answer == Paid {
      SuccessTurn(c, w, t, x);
      SuccessOn(w, t, x.rollback);
      if x.rollback == Early {
        FailureTurn(c, w, t.(answer := Unavailable), x);
      } else if x.rollback == Late {
        var done := SyncedSnapshot(t.tx, Sync(w, w.row, FCompleted, true).value);
        PaidCannotFail(w, done);
        FailureTurn(c, w, Answered(t.file, done, t.actor, Unavailable), x);
      }
    } else {
      FailureTurn(c, w, t, x);
    }
  }

  lemma SuccessOn(w: World, t: Try, rollback: Rollback)
    requires w.tries == map[] && t.Answered? && t.tx == w.row
    requires Leases.Shape(w.row.state) && w.row.state.refund == Some(FRequested)
    ensures var r := Sync(w, w.row, FCompleted, true);
            r.Some? && SyncedSnapshot(t.tx, r.value).state.refund == Some(FCompleted)
            && var v := Gateway.RecordSuccess(Trying(w, t), 0, t, rollback);
               match rollback
               case Commits => v.tries == map[]
               case Early => v == Trying(w, t.(answer := Unavailable))
               case Late => v == Trying(w, Answered(t.file, SyncedSnapshot(t.tx, r.value), t.actor, Unavailable))
  {
    var u := Trying(w, t);
    RequestedCanComplete(w);
    assert Sync(u, w.row, FCompleted, true) == Sync(w, w.row, FCompleted, true);
    assert u.tries - {0} == map[];
    forall a: Try ensures u.tries[0 := a] == map[0 := a] {
    }
  }

  lemma RetryThrowsAt(c: Config, w: World, x: Exchange)
    requires c.feeQ > 0 && w.tries == map[] && Retryable(w)
    requires Leases.Shape(w.row.state) && w.row.state.refund == Some(w.refund.value.status)
    ensures RetryThrows(c, w, x)
            <==> x.readFails || x.requestFails || Unrecorded(AnswerOf(w.paid, w.refund.value.key, x.o), x)
  {
    var t := Loaded(w.refund.value, w.row, RETRY_WORKER, false);
    RetryTurns(c, w, x);
    StartTurn(c, w, t, x);
    var v := RetryStarts(w, t);
    FlightThrowsIff(c, v, InFlight(v.refund.value, v.row, RETRY_WORKER), x);
  }

  /** The request of a retry is never refused. */
  lemma RetryStarts(w: World, t: Try) returns (v: World)
    requires w.tries == map[] && Retryable(w) && t == Loaded(w.refund.value, w.row, RETRY_WORKER, false)
    requires Leases.Shape(w.row.state) && w.row.state.refund == Some(w.refund.value.status)
    ensures Attemptable(t.file) && Sync(w, t.tx, FRequested, false).Some? && v.tries == map[] && v.paid == w.paid
            && v.refund.Some? && v.refund.value.key == w.refund.value.key
    ensures Leases.Shape(v.row.state) && v.row.state.refund == Some(FRequested)
    ensures StartAttempt(Trying(w, t), 0, t) == Trying(v, InFlight(v.refund.value, v.row, RETRY_WORKER))
  {
    StartOn(w, t);
    RefundRuns.SyncGoes(w);
    var r := Sync(w, w.row, FRequested, false).value;
    var file := Requesting(t.file, t.file.lastRequestedBy);
    v := w.(row := r, refund := Some(file),
            facts := w.facts + [FactOf(r, RefundRequested, Some(file.amount), RETRY_WORKER)]);
    assert SyncedSnapshot(w.row, r) == r;
  }

  lemma FlightThrowsIff(c: Config, w: World, t: Try, x: Exchange)
    requires c.feeQ > 0 && w.tries == map[] && t.InFlight? && t.tx == w.row
    requires Leases.Shape(w.row.state) && w.row.state.refund == Some(FRequested)
    ensures Throws(c, Trying(w, t), x) <==> Unrecorded(AnswerOf(w.paid, t.file.key, x.o), x)
  {
    ProviderTurn(c, w, t, x);
    var v := w.(paid := PaidAfter(w.paid, t.file.key, t.file.amount, x.o), trail := w.trail + [Called]);
    AnsweredThrowsIff(c, v, Answered(t.file, t.tx, t.actor, AnswerOf(w.paid, t.file.key, x.o)), x);
  }

  /** WHEN AN EXCEPTION LEAVES A RETRY. At any point of any orderly run, for a pending file nobody is working on: if and
      only if the row cannot be read, or the request cannot be recorded, or the provider has paid and the recording of
      it is rolled back after the entity was synchronised, or the failure that is to be recorded cannot be. No
      transition is ever refused but that last one's, on an entity that already says COMPLETED. */
  lemma RetryEscapes(c: Config, amount: nat, currency: string, now: nat, steps: seq<Step>, rule: Rule, x: Exchange)
    requires ValidConfig(c) && Leases.Implies(rule, RefundRuns.Orderly(c))
    requires Exec(c, Start(amount, currency, now), steps, rule).Some?
    requires var w := Exec(c, Start(amount, currency, now), steps, rule).value; w.tries == map[] && Retryable(w)
    ensures var w := Exec(c, Start(amount, currency, now), steps, rule).value;
            var answer := AnswerOf(w.paid, w.refund.value.key, x.o);
            RetryThrows(c, w, x)
            <==> x.readFails || x.requestFails || (answer == Paid && x.rollback == Late)
                 || ((answer != Paid || x.rollback == Early) && x.failureFails)
  {
    RefundRuns.ReachesApart(c, amount, currency, now, steps, rule);
    RetryThrowsAt(c, Exec(c, Start(amount, currency, now), steps, rule).value, x);
  }

  // ---------------------------------------------------------------------------------------------
  // An attempt left alone touches nobody else's memory
  // ---------------------------------------------------------------------------------------------

  predicate OnlyAttempt(w: World) {
    w.hooks == map[] && w.jobs == map[] && w.recs == map[] && forall p :: p in w.tries ==> p == 0
  }

  lemma FindAlone(w: World, key: nat)
    requires OnlyAttempt(w) && 0 in w.tries && w.tries[0].Opened? && w.tries[0].tx.collected.Some?
    ensures OnlyAttempt(Gateway.FindOrCreate(w, 0, w.tries[0], key))
  {
  }

  lemma StartAlone(w: World)
    requires OnlyAttempt(w) && 0 in w.tries && w.tries[0].Loaded?
    ensures OnlyAttempt(StartAttempt(w, 0, w.tries[0]))
  {
  }

  lemma SuccessAlone(w: World, rollback: Rollback)
    requires OnlyAttempt(w) && 0 in w.tries && w.tries[0].Answered?
    ensures OnlyAttempt(Gateway.RecordSuccess(w, 0, w.tries[0], rollback))
  {
  }

  lemma FailureAlone(w: World)
    requires OnlyAttempt(w) && 0 in w.tries && w.tries[0].Answered?
    ensures OnlyAttempt(Gateway.RecordFailure(w, 0, w.tries[0]))
  {
  }

  lemma TryAlone(c: Config, w: World, x: Exchange)
    requires c.feeQ > 0 && OnlyAttempt(w) && 0 in w.tries && Enabled(w, Turn(w.tries[0], x))
    ensures OnlyAttempt(Next(c, w, Turn(w.tries[0], x)))
  {
    match w.tries[0]
    case Opened(_, _) => FindAlone(w, x.key);
    case Loaded(_, _, _, _) => StartAlone(w);
    case Answered(_, _, _, _) =>
      SuccessAlone(w, x.rollback);
      FailureAlone(w);
    case _ =>
  }

  lemma {:induction false} CarryRests(c: Config, w: World, x: Exchange)
    requires c.feeQ > 0 && Fileable(w, x) && OnlyAttempt(w)
    ensures AtRest(Carry(c, w, x))
    decreases Ahead(w)
  {
    if 0 in w.tries {
      CarryOn(c, w, x);
      TurnGoes(c, w, x);
      TryAlone(c, w, x);
      CarryRests(c, Next(c, w, Turn(w.tries[0], x)), x);
    }
  }
}
