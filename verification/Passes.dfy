/** The periodic passes over many payments: draining the bank queue, retrying refunds, reconciling what is
    pending, sweeping the float. */
module Passes {
  import opened Basics
  import opened Domain
  import opened Gateway
  import opened Services
  import RefundService
  import RefundRuns
  import W = Witnesses
  import Leases

  /** How a drain ends: by itself, because an instruction cannot be claimed, or because an exception leaves an
      attempt. */
  datatype Halt = Finished | Unclaimed | Thrown

  datatype DrainOutcome = DrainOutcome(claimed: nat, completed: nat, deadLettered: nat)

  ghost predicate AllAtRest(payments: map<string, World>) { forall r :: r in payments ==> AtRest(payments[r]) }

  /** Every payment went on by a run of the protocol under the rule; none appeared or disappeared. */
  ghost predicate WentOn(c: Config, a: map<string, World>, b: map<string, World>, rule: Rule)
    requires c.feeQ > 0
  {
    a.Keys == b.Keys && forall r :: r in a ==> Reaches(c, a[r], b[r], rule)
  }

  lemma WentOnSelf(c: Config, a: map<string, World>, rule: Rule)
    requires c.feeQ > 0
    ensures WentOn(c, a, a, rule)
  {
    forall r | r in a ensures Reaches(c, a[r], a[r], rule) {
      ReachesSelf(c, a[r], rule);
    }
  }

  lemma WentOnOne(c: Config, a: map<string, World>, b: map<string, World>, ref: string, w: World, rule: Rule)
    requires c.feeQ > 0 && WentOn(c, a, b, rule) && ref in b && Reaches(c, b[ref], w, rule)
    ensures WentOn(c, a, b[ref := w], rule)
  {
    forall r | r in a ensures Reaches(c, a[r], b[ref := w][r], rule) {
      if r == ref {
        ReachesTransitive(c, a[r], b[r], w, rule);
      }
    }
  }

  predicate SomeDue(payments: map<string, World>) { exists r :: r in payments && Claimable(payments[r]) }

  /** The due instruction that has waited longest. */
  predicate FirstDue(payments: map<string, World>, ref: string) {
    ref in payments && Claimable(payments[ref])
    && forall r :: r in payments && Claimable(payments[r]) ==>
         payments[ref].instruction.value.nextAt <= payments[r].instruction.value.nextAt
  }

  /** One turn of the drain: the first due instruction is claimed and attempted. */
  ghost predicate Took(c: Config, a: map<string, World>, ref: string, x: BankExchange, b: map<string, World>)
    requires c.feeQ > 0
  {
    FirstDue(a, ref) && b == a[ref := Drained(c, a[ref], x)]
  }

  ghost predicate EscapesAt(c: Config, a: map<string, World>, ref: string, x: BankExchange) {
    ref in a && Claimable(a[ref]) && Escapes(c, Claim(a[ref], 0).jobs[0].i, a[ref].row, x)
  }

  ghost predicate HarmsAt(c: Config, a: map<string, World>, ref: string, x: BankExchange) {
    ref in a && Claimable(a[ref]) && Harms(c, Claim(a[ref], 0).jobs[0].i, a[ref].row, x)
  }

  predicate StatusIs(w: World, s: InstructionStatus) { w.instruction.Some? && w.instruction.value.status == s }

  /** The turns of a drain: the payments before and after each of them, and whose turn it was. */
  datatype Trace = Trace(worlds: seq<map<string, World>>, picks: seq<string>)

  /** How many turns left their instruction in status s. */
  ghost function Tally(t: Trace, n: nat, s: InstructionStatus): nat
    requires n <= |t.picks| && |t.worlds| == |t.picks| + 1
  {
    if n == 0 then 0
    else Tally(t, n - 1, s)
         + (if t.picks[n - 1] in t.worlds[n] && StatusIs(t.worlds[n][t.picks[n - 1]], s) then 1 else 0)
  }

  lemma {:induction false} TallyPrefix(t: Trace, u: Trace, n: nat, s: InstructionStatus)
    requires n <= |t.picks| <= |u.picks| && |t.worlds| == |t.picks| + 1 && |u.worlds| == |u.picks| + 1
    requires t.picks <= u.picks && t.worlds <= u.worlds
    ensures Tally(t, n, s) == Tally(u, n, s)
  {
    if n > 0 {
      TallyPrefix(t, u, n - 1, s);
    }
  }

  /** The trace of a drain from a to b: every turn takes the first due instruction. */
  ghost predicate Drains(c: Config, t: Trace, bank: nat -> BankExchange, a: map<string, World>, b: map<string, World>)
    requires c.feeQ > 0
  {
    |t.worlds| == |t.picks| + 1 && t.worlds[0] == a && t.worlds[|t.picks|] == b
    && forall k :: 0 <= k < |t.picks| ==> Took(c, t.worlds[k], t.picks[k], bank(k), t.worlds[k + 1])
  }

  /** An exception leaves the last turn, if it is said to, and no other. */
  ghost predicate Stops(c: Config, t: Trace, bank: nat -> BankExchange, raised: bool) {
    |t.worlds| == |t.picks| + 1 && (raised ==> t.picks != [])
    && forall k :: 0 <= k < |t.picks| ==>
         (EscapesAt(c, t.worlds[k], t.picks[k], bank(k)) <==> raised && k == |t.picks| - 1)
  }

  lemma StopsOn(c: Config, t: Trace, bank: nat -> BankExchange, ref: string, b: map<string, World>,
                d: map<string, World>, raised: bool)
    requires Stops(c, t, bank, false) && t.worlds[|t.picks|] == b && (raised <==> EscapesAt(c, b, ref, bank(|t.picks|)))
    ensures Stops(c, Longer(t, ref, d), bank, raised)
  {
    var u := Longer(t, ref, d);
    forall k | 0 <= k < |u.picks|
      ensures EscapesAt(c, u.worlds[k], u.picks[k], bank(k)) <==> raised && k == |u.picks| - 1
    {
      if k < |t.picks| {
        assert !EscapesAt(c, t.worlds[k], t.picks[k], bank(k));
      }
    }
  }

  /** The outcome counts the turns. */
  ghost predicate Counts(o: DrainOutcome, t: Trace) {
    |t.worlds| == |t.picks| + 1 && o.claimed == |t.picks|
    && o.completed == Tally(t, |t.picks|, ICompleted) && o.deadLettered == Tally(t, |t.picks|, IDeadLetter)
  }

  function Counting(o: DrainOutcome, s: Option<Settlement>): DrainOutcome {
    DrainOutcome(o.claimed + 1, if s == Some(Completed) then o.completed + 1 else o.completed,
                 if s == Some(DeadLettered) then o.deadLettered + 1 else o.deadLettered)
  }

  lemma CountsOn(o: DrainOutcome, t: Trace, ref: string, d: map<string, World>, s: Option<Settlement>)
    requires Counts(o, t) && ref in d
    requires s == Some(Completed) <==> StatusIs(d[ref], ICompleted)
    requires s == Some(DeadLettered) <==> StatusIs(d[ref], IDeadLetter)
    ensures Counts(Counting(o, s), Longer(t, ref, d))
  {
    TallyPrefix(t, Longer(t, ref, d), |t.picks|, ICompleted);
    TallyPrefix(t, Longer(t, ref, d), |t.picks|, IDeadLetter);
  }

  /** One more turn. */
  function Longer(t: Trace, ref: string, b: map<string, World>): Trace { Trace(t.worlds + [b], t.picks + [ref]) }

  lemma DrainsOn(c: Config, t: Trace, bank: nat -> BankExchange, a: map<string, World>, b: map<string, World>,
                 ref: string,
                 d: map<string, World>)
    requires c.feeQ > 0 && Drains(c, t, bank, a, b) && Took(c, b, ref, bank(|t.picks|), d)
    ensures Drains(c, Longer(t, ref, d), bank, a, d)
  {
    var u := Longer(t, ref, d);
    forall k | 0 <= k < |u.picks| ensures Took(c, u.worlds[k], u.picks[k], bank(k), u.worlds[k + 1]) {
      if k < |t.picks| {
        assert Took(c, t.worlds[k], t.picks[k], bank(k), t.worlds[k + 1]);
      }
    }
  }

  /** A drain so far, from a to b: every turn takes the first due instruction, and could claim it. */
  ghost predicate Advances(c: Config, t: Trace, bank: nat -> BankExchange, claimFails: nat -> bool,
                           a: map<string, World>, b: map<string, World>, thrown: bool)
    requires c.feeQ > 0
  {
    Drains(c, t, bank, a, b) && Stops(c, t, bank, thrown) && forall k :: 0 <= k < |t.picks| ==> !claimFails(k)
  }

  lemma AdvancesOn(c: Config, t: Trace, bank: nat -> BankExchange, claimFails: nat -> bool, a: map<string, World>,
                   b: map<string, World>, ref: string, d: map<string, World>, thrown: bool)
    requires c.feeQ > 0 && Advances(c, t, bank, claimFails, a, b, false)
    requires !claimFails(|t.picks|) && Took(c, b, ref, bank(|t.picks|), d)
    requires thrown <==> EscapesAt(c, b, ref, bank(|t.picks|))
    ensures Advances(c, Longer(t, ref, d), bank, claimFails, a, d, thrown)
  {
    DrainsOn(c, t, bank, a, b, ref, d);
    StopsOn(c, t, bank, ref, b, d, thrown);
  }

  predicate Distinct(refs: seq<string>) { forall i, j :: 0 <= i < j < |refs| ==> refs[i] != refs[j] }

  /** What one payment becomes. */
  type Change = (string, World) -> World

  /** The payments once the listed ones have changed. */
  function Pass(a: map<string, World>, refs: seq<string>, f: Change): map<string, World> {
    map r | r in a :: if r in refs then f(r, a[r]) else a[r]
  }

  lemma PassNone(a: map<string, World>, f: Change)
    ensures Pass(a, [], f) == a
  {
  }

  /** A pass over distinct payments finds each of them as it was, and changes it once. */
  lemma PassNext(a: map<string, World>, refs: seq<string>, i: nat, f: Change)
    requires Distinct(refs) && i < |refs| && refs[i] in a
    ensures refs[i] in Pass(a, refs[..i], f) && Pass(a, refs[..i], f)[refs[i]] == a[refs[i]]
    ensures Pass(a, refs[..i + 1], f) == Pass(a, refs[..i], f)[refs[i] := f(refs[i], a[refs[i]])]
  {
    assert refs[..i + 1] == refs[..i] + [refs[i]];
    assert refs[i] !in refs[..i];
  }

  /** How many of the listed payments satisfy p. */
  function CountIn(a: map<string, World>, refs: seq<string>, p: (string, World) -> bool): nat {
    if refs == [] then 0
    else
      var r := refs[|refs| - 1];
      CountIn(a, refs[..|refs| - 1], p) + (if r in a && p(r, a[r]) then 1 else 0)
  }

  lemma CountNext(a: map<string, World>, refs: seq<string>, i: nat, p: (string, World) -> bool)
    requires i < |refs| && refs[i] in a
    ensures CountIn(a, refs[..i + 1], p) == CountIn(a, refs[..i], p) + (if p(refs[i], a[refs[i]]) then 1 else 0)
  {
    assert refs[..i + 1][..i] == refs[..i];
  }

  /** The sum of v over the listed payments. */
  function SumIn(a: map<string, World>, refs: seq<string>, v: World -> nat): nat {
    if refs == [] then 0
    else
      var r := refs[|refs| - 1];
      SumIn(a, refs[..|refs| - 1], v) + (if r in a then v(a[r]) else 0)
  }

  lemma SumNext(a: map<string, World>, refs: seq<string>, i: nat, v: World -> nat)
    requires i < |refs| && refs[i] in a
    ensures SumIn(a, refs[..i + 1], v) == SumIn(a, refs[..i], v) + v(a[refs[i]])
  {
    assert refs[..i + 1][..i] == refs[..i];
  }

  predicate Listed(a: map<string, World>, refs: seq<string>) {
    Distinct(refs) && forall i :: 0 <= i < |refs| ==> refs[i] in a
  }

  predicate RefundDone(w: World) { w.refund.Some? && w.refund.value.status == FCompleted }

  // What the passes do to one payment.

  function Swept(r: string, w: World): World { if Sweepable(w) then Gateway.Sweep(w) else w }

  function SweptCents(w: World): nat { if Sweepable(w) then w.row.collected.value else 0 }

  function Reconciled(r: string, w: World): World { Gateway.Reconcile(w, w.row).GetOr(w) }

  predicate IsRefused(w: World) { Gateway.Reconcile(w, w.row).None? }

  predicate Eligible(r: string, w: World) { Sweepable(w) }

  predicate Matches(r: string, w: World) { Reconciled(r, w).row.state.reconciliation == Some(RMatched) }

  predicate Mismatches(r: string, w: World) { Reconciled(r, w).row.state.reconciliation == Some(RMismatch) }

  /** How the provider behaves for each payment. */
  type Provider = string -> RefundService.Exchange

  function Retried(c: Config, provider: Provider): Change
    requires c.feeQ > 0
  {
    (r: string, w: World) => if RefundService.Retryable(w) then RefundService.Retried(c, w, provider(r)) else w
  }

  predicate RetryRaises(c: Config, provider: Provider, r: string, w: World)
    requires c.feeQ > 0
  {
    RefundService.Retryable(w) && RefundService.RetryThrows(c, w, provider(r))
  }

  function Completes(c: Config, provider: Provider): (string, World) -> bool
    requires c.feeQ > 0
  {
    (r: string, w: World) => RefundService.Retryable(w) && RefundDone(Retried(c, provider)(r, w))
  }

  /** Each of the listed files that is requested, or failed and open to retries, is attempted; the others are left
      alone. */
  ghost predicate Attempts(c: Config, a: map<string, World>, refs: seq<string>, provider: Provider,
                           b: map<string, World>)
    requires c.feeQ > 0
  {
    a.Keys == b.Keys
    && forall r :: r in a ==>
         var file := a[r].refund;
         b[r] == if r in refs && file.Some?
                    && (file.value.status == FRequested || (file.value.status == FFailed && file.value.retryable))
                 then RefundService.Retried(c, a[r], provider(r)) else a[r]
  }

  lemma PassAttempts(c: Config, a: map<string, World>, refs: seq<string>, provider: Provider)
    requires c.feeQ > 0
    ensures Attempts(c, a, refs, provider, Pass(a, refs, Retried(c, provider)))
  {
  }

  class Gatekeeper {
    var payments: map<string, World>
    var running: bool

    constructor ()
      ensures payments == map[] && !running
    {
      payments, running := map[], false;
    }

    /** `claimNext` and `attempt`, on the first due instruction. */
    method AttemptFirst(c: Config, ref: string, x: BankExchange) returns (s: Option<Settlement>)
      requires c.feeQ > 0 && AllAtRest(payments) && FirstDue(payments, ref)
      modifies this`payments
      ensures AllAtRest(payments) && Took(c, old(payments), ref, x, payments)
      ensures s == None <==> EscapesAt(c, old(payments), ref, x)
      ensures ref in payments
      ensures s == Some(Completed) <==> StatusIs(payments[ref], ICompleted)
      ensures s == Some(DeadLettered) <==> StatusIs(payments[ref], IDeadLetter)
    {
      var w := payments[ref];
      var payment := new Payment(w);
      var job := payment.ClaimNext();
      ClaimIsBusy(w, payment.w);
      s := payment.Attempt(c, job.value.i, job.value.at, job.value.tx, x);
      assert s.Some? ==> s.value.Completed? || s.value.Retry? || s.value.DeadLettered?;
      payments := payments[ref := payment.w];
    }

    /** `drain`: one due instruction after the other, the one that has waited longest first, until none is due or the
        limit is reached, or until a claim fails or an exception leaves the attempt: then the pass stops there, and what
        is due stays due. A second call while one is running does nothing. `claimFails` tells which claims fail. */
    method Drain(c: Config, limit: nat, bank: nat -> BankExchange, claimFails: nat -> bool)
      returns (outcome: DrainOutcome, halt: Halt, ghost t: Trace)
      requires c.feeQ > 0 && AllAtRest(payments)
      modifies this
      ensures AllAtRest(payments) && running == old(running)
      ensures Drains(c, t, bank, old(payments), payments)
      ensures Counts(outcome, t) && outcome.claimed <= limit && (old(running) ==> t.picks == [])
      ensures Stops(c, t, bank, halt.Thrown?)
      ensures forall k :: 0 <= k < |t.picks| ==> !claimFails(k)
      ensures halt.Unclaimed? <==> !old(running) && !halt.Thrown? && |t.picks| < limit && claimFails(|t.picks|)
      ensures !old(running) && halt.Finished? && outcome.claimed < limit ==> !SomeDue(payments)
    {
      outcome, halt, t := DrainOutcome(0, 0, 0), Finished, Trace([payments], []);
      if running {
        return;
      }
      running := true;
      while outcome.claimed < limit
        invariant AllAtRest(payments) && Counts(outcome, t) && outcome.claimed <= limit && halt.Finished?
        invariant Advances(c, t, bank, claimFails, old(payments), payments, false)
      {
        if claimFails(outcome.claimed) {
          halt := Unclaimed;
          break;
        }
        var next := NextDue(payments);
        if next.None? {
          break;
        }
        ghost var before := payments;
        var s := AttemptFirst(c, next.value, bank(outcome.claimed));
        AdvancesOn(c, t, bank, claimFails, old(payments), before, next.value, payments, s.None?);
        CountsOn(outcome, t, next.value, payments, s);
        t := Longer(t, next.value, payments);
        outcome := Counting(outcome, s);
        if s.None? {
          halt := Thrown;
          break;
        }
      }
      running := false;
    }

    /** One file of `retryPending`. */
    method RetryFile(c: Config, ref: string, provider: Provider) returns (raised: bool, paid: bool)
      requires c.feeQ > 0 && ref in payments && AtRest(payments[ref])
      modifies this`payments
      ensures payments == old(payments)[ref := Retried(c, provider)(ref, old(payments)[ref])]
      ensures raised <==> RetryRaises(c, provider, ref, old(payments)[ref])
      ensures !raised ==> (paid <==> Completes(c, provider)(ref, old(payments)[ref]))
    {
      raised, paid := false, false;
      if RefundService.Retryable(payments[ref]) {
        var desk := new RefundService.RefundDesk(payments[ref]);
        raised := desk.Retry(provider(ref), c);
        payments := payments[ref := desk.w];
        paid := RefundDone(desk.w);
      }
    }

    /** `retryPending`: one attempt for each pending file of the list read at the start, until an exception leaves one:
        the files after it are not attempted. */
    method RetryPending(c: Config, pending: seq<string>, provider: Provider)
      returns (done: nat, completed: nat, raised: bool)
      requires c.feeQ > 0 && AllAtRest(payments) && Listed(payments, pending)
      modifies this`payments
      ensures done <= |pending| && (raised <==> done < |pending|)
      ensures raised ==> RetryRaises(c, provider, pending[done], old(payments)[pending[done]])
      ensures forall i :: 0 <= i < done ==> !RetryRaises(c, provider, pending[i], old(payments)[pending[i]])
      ensures payments == Pass(old(payments), pending[..if raised then done + 1 else done], Retried(c, provider))
      ensures AllAtRest(payments) && WentOn(c, old(payments), payments, RefundRuns.Orderly(c))
      ensures completed == CountIn(old(payments), pending[..done], Completes(c, provider))
    {
      done, completed, raised := 0, 0, false;
      RetriesNone(c, payments, pending, provider);
      while done < |pending|
        invariant !raised && Retries(c, old(payments), pending, done, provider, payments, completed)
      {
        var ref := pending[done];
        RetriesNext(c, old(payments), pending, done, provider, payments, completed);
        var paid;
        raised, paid := RetryFile(c, ref, provider);
        if raised {
          break;
        }
        completed := if paid then completed + 1 else completed;
        done := done + 1;
      }
      RetriedGoOn(c, old(payments), pending[..if raised then done + 1 else done], provider);
    }

    /** `sweep`: each candidate is checked again under its lock; those still eligible are recorded once, and the
        cents they collected are added up. The pass stops at the first transaction that is rolled back. */
    method Sweep(eligible: seq<string>, fails: string -> bool) returns (done: nat, swept: nat, amount: nat)
      requires Listed(payments, eligible)
      modifies this`payments
      ensures done <= |eligible| && (done < |eligible| ==> fails(eligible[done]))
      ensures forall i :: 0 <= i < done ==> !fails(eligible[i])
      ensures payments == Pass(old(payments), eligible[..done], Swept)
      ensures payments.Keys == old(payments).Keys
      ensures forall r :: r in payments ==>
                payments[r] == if r in eligible[..done] && Collectable(old(payments)[r])
                               then Collecting(old(payments)[r]) else old(payments)[r]
      ensures swept == CountIn(old(payments), eligible[..done], Eligible)
      ensures amount == SumIn(old(payments), eligible[..done], SweptCents)
    {
      swept, amount := 0, 0;
      PassNone(payments, Swept);
      for i := 0 to |eligible|
        invariant forall j :: 0 <= j < i ==> !fails(eligible[j])
        invariant payments == Pass(old(payments), eligible[..i], Swept)
        invariant swept == CountIn(old(payments), eligible[..i], Eligible)
        invariant amount == SumIn(old(payments), eligible[..i], SweptCents)
      {
        var ref := eligible[i];
        if fails(ref) {
          return i, swept, amount;
        }
        PassNext(old(payments), eligible, i, Swept);
        CountNext(old(payments), eligible, i, Eligible);
        SumNext(old(payments), eligible, i, SweptCents);
        var current := payments[ref];
        var cents := SweepOne(current);
        if cents.Some? {
          swept := swept + 1;
          amount := amount + cents.value;
          current := Gateway.Sweep(current);
        }
        payments := payments[ref := current];
      }
      done := |eligible|;
    }

    /** `reconcile` on the row of one payment; None when its transaction is rolled back or its transition refused. */
    method ReconcileOne(ref: string, abort: bool) returns (verdict: Option<Option<ReconciliationStatus>>)
      requires ref in payments && AtRest(payments[ref])
      modifies this`payments
      ensures verdict.None? <==> abort || IsRefused(old(payments)[ref])
      ensures verdict.None? ==> payments == old(payments)
      ensures verdict.Some? ==> payments == old(payments)[ref := Reconciled(ref, old(payments)[ref])]
      ensures verdict.Some? ==> verdict.value == payments[ref].row.state.reconciliation
    {
      var payment := new Payment(payments[ref]);
      var saved := payment.Reconcile(payments[ref].row, abort);
      payments := payments[ref := payment.w];
      verdict := if saved.Some? then Some(saved.value.state.reconciliation) else None;
    }

    /** `runPending`: each pending payment is reconciled on the row read at the start; the pass stops at the first
        transaction that is rolled back, as `fails` tells, or whose transition is refused. */
    method RunPending(pending: seq<string>, fails: string -> bool) returns (done: nat, matched: nat, mismatched: nat)
      requires AllAtRest(payments) && Listed(payments, pending)
      modifies this`payments
      ensures done <= |pending| && payments == Pass(old(payments), pending[..done], Reconciled)
      ensures done < |pending| ==> fails(pending[done]) || IsRefused(old(payments)[pending[done]])
      ensures forall i :: 0 <= i < done ==> !fails(pending[i]) && !IsRefused(old(payments)[pending[i]])
      ensures matched == CountIn(old(payments), pending[..done], Matches)
      ensures mismatched == CountIn(old(payments), pending[..done], Mismatches)
    {
      done, matched, mismatched := 0, 0, 0;
      ReconcilesNone(payments, pending);
      while done < |pending|
        invariant Reconciles(old(payments), pending, done, payments, matched, mismatched)
        invariant forall i :: 0 <= i < done ==> !fails(pending[i])
      {
        var ref := pending[done];
        ghost var before := payments;
        ReconcilesNext(old(payments), pending, done, before, matched, mismatched);
        var verdict := ReconcileOne(ref, fails(ref));
        if verdict.None? {
          return;
        }
        matched, mismatched := Counted(verdict.value, RMatched, matched), Counted(verdict.value, RMismatch, mismatched);
        done := done + 1;
      }
    }
  }

  function Counted(v: Option<ReconciliationStatus>, verdict: ReconciliationStatus, n: nat): nat {
    if v == Some(verdict) then n + 1 else n
  }

  /** The first listed files are attempted, no exception leaving one, and the completed ones counted. */
  ghost predicate Retries(c: Config, a: map<string, World>, pending: seq<string>, done: nat, provider: Provider,
                          b: map<string, World>, completed: nat)
    requires c.feeQ > 0
  {
    Listed(a, pending) && done <= |pending| && b == Pass(a, pending[..done], Retried(c, provider))
    && (forall i :: 0 <= i < done ==> !RetryRaises(c, provider, pending[i], a[pending[i]]))
    && completed == CountIn(a, pending[..done], Completes(c, provider))
  }

  lemma RetriesNone(c: Config, a: map<string, World>, pending: seq<string>, provider: Provider)
    requires c.feeQ > 0 && Listed(a, pending)
    ensures Retries(c, a, pending, 0, provider, a, 0)
  {
    PassNone(a, Retried(c, provider));
  }

  lemma RetriesNext(c: Config, a: map<string, World>, pending: seq<string>, done: nat, provider: Provider,
                    b: map<string, World>, completed: nat)
    requires c.feeQ > 0 && Retries(c, a, pending, done, provider, b, completed) && done < |pending|
    ensures var ref := pending[done];
            ref in b && b[ref] == a[ref]
            && var d := b[ref := Retried(c, provider)(ref, b[ref])];
               d == Pass(a, pending[..done + 1], Retried(c, provider))
               && (!RetryRaises(c, provider, ref, b[ref]) ==>
                     Retries(c, a, pending, done + 1, provider, d,
                             if Completes(c, provider)(ref, b[ref]) then completed + 1 else completed))
  {
    PassNext(a, pending, done, Retried(c, provider));
    CountNext(a, pending, done, Completes(c, provider));
  }

  /** The first listed payments are reconciled, none of them refused, and counted. */
  ghost predicate Reconciles(a: map<string, World>, pending: seq<string>, done: nat, b: map<string, World>, m: nat,
                             n: nat) {
    Listed(a, pending) && done <= |pending| && b == Pass(a, pending[..done], Reconciled)
    && (forall i :: 0 <= i < done ==> !IsRefused(a[pending[i]]))
    && m == CountIn(a, pending[..done], Matches) && n == CountIn(a, pending[..done], Mismatches)
  }

  lemma ReconcilesNone(a: map<string, World>, pending: seq<string>)
    requires Listed(a, pending)
    ensures Reconciles(a, pending, 0, a, 0, 0)
  {
    PassNone(a, Reconciled);
  }

  lemma ReconcilesNext(a: map<string, World>, pending: seq<string>, done: nat, b: map<string, World>, m: nat, n: nat)
    requires Reconciles(a, pending, done, b, m, n) && done < |pending|
    ensures var ref := pending[done];
            ref in b && b[ref] == a[ref]
            && (!IsRefused(a[ref]) ==>
                  var v := Reconciled(ref, b[ref]).row.state.reconciliation;
                  Reconciles(a, pending, done + 1, b[ref := Reconciled(ref, b[ref])],
                             Counted(v, RMatched, m), Counted(v, RMismatch, n)))
  {
    PassNext(a, pending, done, Reconciled);
    CountNext(a, pending, done, Matches);
    CountNext(a, pending, done, Mismatches);
  }

  /** The query of `claimNext`: the due instruction that has waited longest, if any is due. */
  method NextDue(payments: map<string, World>) returns (ref: Option<string>)
    ensures ref.None? <==> !SomeDue(payments)
    ensures ref.Some? ==> FirstDue(payments, ref.value)
  {
    var rest := payments.Keys;
    ref := None;
    while rest != {}
      invariant rest <= payments.Keys
      invariant ref.None? ==> forall r :: r in payments && r !in rest ==> !Claimable(payments[r])
      invariant ref.Some? ==>
                  ref.value in payments && Claimable(payments[ref.value])
                  && forall r :: r in payments && r !in rest && Claimable(payments[r]) ==>
                       payments[ref.value].instruction.value.nextAt <= payments[r].instruction.value.nextAt
      decreases rest
    {
      var r :| r in rest;
      rest := rest - {r};
      if Claimable(payments[r])
         && (ref.None? || payments[r].instruction.value.nextAt < payments[ref.value].instruction.value.nextAt) {
        ref := Some(r);
      }
    }
  }

  lemma ClaimIsBusy(w: World, v: World)
    requires AtRest(w) && Claimable(w) && v == Claim(w, 0).(jobs := w.jobs)
    ensures Busy(v, Claim(w, 0).jobs[0]) == Claim(w, 0) && StatusIs(v, IInFlight)
  {
  }

  // ---------------------------------------------------------------------------------------------
  // A drain is made of runs
  // ---------------------------------------------------------------------------------------------

  /** The first n turns of a trace that starts with a. */
  ghost predicate Turns(c: Config, t: Trace, bank: nat -> BankExchange, a: map<string, World>, n: nat)
    requires c.feeQ > 0
  {
    n <= |t.picks| && |t.worlds| == |t.picks| + 1 && t.worlds[0] == a
    && forall k :: 0 <= k < |t.picks| ==> Took(c, t.worlds[k], t.picks[k], bank(k), t.worlds[k + 1])
  }

  lemma {:induction false} TurnsGoOn(c: Config, t: Trace, bank: nat -> BankExchange, a: map<string, World>, n: nat)
    requires c.feeQ > 0 && Turns(c, t, bank, a, n) && AllAtRest(a)
    ensures AllAtRest(t.worlds[n]) && WentOn(c, a, t.worlds[n], Free)
  {
    if n == 0 {
      WentOnSelf(c, a, Free);
    } else {
      TurnsGoOn(c, t, bank, a, n - 1);
      assert Took(c, t.worlds[n - 1], t.picks[n - 1], bank(n - 1), t.worlds[n - 1 + 1]);
      TurnGoesOn(c, a, t.worlds[n - 1], t.picks[n - 1], bank(n - 1), t.worlds[n]);
    }
  }

  lemma {:induction false} TurnsStayLeased(c: Config, t: Trace, bank: nat -> BankExchange, a: map<string, World>,
                                           n: nat)
    requires c.feeQ > 0 && Turns(c, t, bank, a, n) && AllAtRest(a)
    requires forall k :: 0 <= k < n ==> !HarmsAt(c, t.worlds[k], t.picks[k], bank(k))
    ensures WentOn(c, a, t.worlds[n], Leases.InLease(c))
  {
    if n == 0 {
      WentOnSelf(c, a, Leases.InLease(c));
    } else {
      TurnsGoOn(c, t, bank, a, n - 1);
      TurnsStayLeased(c, t, bank, a, n - 1);
      assert Took(c, t.worlds[n - 1], t.picks[n - 1], bank(n - 1), t.worlds[n - 1 + 1]);
      TurnGoesOn(c, a, t.worlds[n - 1], t.picks[n - 1], bank(n - 1), t.worlds[n]);
    }
  }

  lemma {:induction false} TurnsSkip(c: Config, t: Trace, bank: nat -> BankExchange, a: map<string, World>, n: nat,
                                     r: string)
    requires c.feeQ > 0 && Turns(c, t, bank, a, n) && r in a && r !in t.picks
    ensures r in t.worlds[n] && t.worlds[n][r] == a[r]
  {
    if n > 0 {
      TurnsSkip(c, t, bank, a, n - 1, r);
      assert Took(c, t.worlds[n - 1], t.picks[n - 1], bank(n - 1), t.worlds[n - 1 + 1]);
      assert t.picks[n - 1] in t.picks;
    }
  }

  /** EVERY PAYMENT GOES ON BY A RUN. A drain leads every payment on by a run of the protocol, and by one within
      leases as long as no save failed that does harm; payments whose turn never came are as they were, and stay
      due if they were. */
  lemma DrainGoesOn(c: Config, t: Trace, bank: nat -> BankExchange, a: map<string, World>, b: map<string, World>)
    requires c.feeQ > 0 && Drains(c, t, bank, a, b) && AllAtRest(a)
    ensures AllAtRest(b) && WentOn(c, a, b, Free)
    ensures (forall k :: 0 <= k < |t.picks| ==> !HarmsAt(c, t.worlds[k], t.picks[k], bank(k))) ==>
              WentOn(c, a, b, Leases.InLease(c))
    ensures forall r :: r in a && r !in t.picks ==> r in b && b[r] == a[r]
  {
    var n := |t.picks|;
    TurnsGoOn(c, t, bank, a, n);
    if forall k :: 0 <= k < n ==> !HarmsAt(c, t.worlds[k], t.picks[k], bank(k)) {
      TurnsStayLeased(c, t, bank, a, n);
    }
    forall r | r in a && r !in t.picks ensures r in b && b[r] == a[r] {
      TurnsSkip(c, t, bank, a, n, r);
    }
  }

  lemma TurnGoesOn(c: Config, a: map<string, World>, b: map<string, World>, ref: string, x: BankExchange,
                   d: map<string, World>)
    requires c.feeQ > 0 && AllAtRest(b) && Took(c, b, ref, x, d)
    ensures AllAtRest(d) && (WentOn(c, a, b, Free) ==> WentOn(c, a, d, Free))
    ensures WentOn(c, a, b, Leases.InLease(c)) && !HarmsAt(c, b, ref, x) ==> WentOn(c, a, d, Leases.InLease(c))
    ensures forall r :: r in b && r != ref ==> r in d && d[r] == b[r]
  {
    AttemptIsRun(c, b[ref], x);
    DrainedRests(c, b[ref], x);
    if WentOn(c, a, b, Free) {
      WentOnOne(c, a, b, ref, Drained(c, b[ref], x), Free);
    }
    if WentOn(c, a, b, Leases.InLease(c)) && !HarmsAt(c, b, ref, x) {
      WentOnOne(c, a, b, ref, Drained(c, b[ref], x), Leases.InLease(c));
    }
  }

  lemma DrainedRests(c: Config, w: World, x: BankExchange)
    requires c.feeQ > 0 && AtRest(w) && Claimable(w)
    ensures AtRest(Drained(c, w, x))
  {
    DriveRests(c, Claim(w, 0), x);
  }

  /** Every payment of a retry pass goes on by an orderly run. */
  lemma RetriedGoOn(c: Config, a: map<string, World>, refs: seq<string>, provider: Provider)
    requires c.feeQ > 0 && AllAtRest(a)
    ensures var b := Pass(a, refs, Retried(c, provider)); AllAtRest(b) && WentOn(c, a, b, RefundRuns.Orderly(c))
  {
    var b := Pass(a, refs, Retried(c, provider));
    forall r | r in a ensures AtRest(b[r]) && Reaches(c, a[r], b[r], RefundRuns.Orderly(c)) {
      RetryOne(c, a[r], r, provider);
      ReachesSelf(c, a[r], RefundRuns.Orderly(c));
    }
  }

  /** Matched by both legs, owing nothing, and never swept. */
  predicate Collectable(w: World) {
    w.row.state.provider == Some(PConfirmed) && w.row.state.reconciliation == Some(RMatched)
    && w.row.state.refund == Some(FNotRequired) && w.row.collected.Some?
    && forall i :: 0 <= i < |w.facts| ==> w.facts[i].t != SettlementSwept
  }

  /** One fact more: what was collected left the float. */
  function Collecting(w: World): World {
    w.(facts := w.facts + [Fact(SettlementSwept, w.row.amount, w.row.collected, w.row.fee, None)])
  }

  /** The check made again under the lock. */
  method SweepOne(current: World) returns (cents: Option<nat>)
    ensures cents.Some? <==> Sweepable(current)
    ensures cents.Some? <==> Collectable(current)
    ensures cents == if Collectable(current) then current.row.collected else None
    ensures cents.Some? ==> cents.value == SweptCents(current)
  {
    if current.row.state.provider != Some(PConfirmed) || current.row.state.reconciliation != Some(RMatched)
       || current.row.state.refund != Some(FNotRequired) || current.row.collected.None? {
      return None;
    }
    if Has(current.facts, SettlementSwept) {
      return None;
    }
    cents := current.row.collected;
  }

  lemma RetryOne(c: Config, w: World, ref: string, provider: Provider)
    requires c.feeQ > 0 && AtRest(w)
    ensures Reaches(c, w, Retried(c, provider)(ref, w), RefundRuns.Orderly(c)) && AtRest(Retried(c, provider)(ref, w))
  {
    if RefundService.Retryable(w) {
      RefundService.RetryIsRun(c, w, provider(ref));
      RetriedRests(c, w, provider(ref));
    } else {
      ReachesSelf(c, w, RefundRuns.Orderly(c));
    }
  }

  /** SWEEPING TWICE IS SWEEPING ONCE. A second pass over the same payments records and collects nothing. */
  lemma {:induction false} SweepIsIdempotent(a: map<string, World>, refs: seq<string>)
    requires Listed(a, refs)
    ensures Pass(Pass(a, refs, Swept), refs, Swept) == Pass(a, refs, Swept)
    ensures SumIn(Pass(a, refs, Swept), refs, SweptCents) == 0
  {
    var b := Pass(a, refs, Swept);
    forall r | r in a && r in refs ensures !Sweepable(b[r]) {
      SweptOnce(r, a[r]);
    }
    SumZero(b, refs);
  }

  lemma SweptOnce(r: string, w: World)
    ensures !Sweepable(Swept(r, w))
  {
    if Sweepable(w) {
      var v := Gateway.Sweep(w);
      assert v.facts[|w.facts|].t == SettlementSwept;
    }
  }

  lemma {:induction false} SumZero(b: map<string, World>, refs: seq<string>)
    requires forall i :: 0 <= i < |refs| ==> refs[i] in b && !Sweepable(b[refs[i]])
    ensures SumIn(b, refs, SweptCents) == 0
  {
    if refs != [] {
      SumZero(b, refs[..|refs| - 1]);
    }
  }

  lemma RetriedRests(c: Config, w: World, x: RefundService.Exchange)
    requires c.feeQ > 0 && AtRest(w) && w.refund.Some?
    ensures AtRest(RefundService.Retried(c, w, x))
  {
    RefundService.CarryRests(c, RefundService.Trying(w, Found(w.refund.value)), x);
  }

  // ---------------------------------------------------------------------------------------------
  // Passes that stop
  // ---------------------------------------------------------------------------------------------

  /** A DRAIN CAN STOP. Two payments are due, one attempt is allowed, the bank settles the first and its
      reconciliation is rolled back: the exception leaves the pass, and the second instruction stays due. */
  lemma DrainCanStop(amount: nat)
    requires amount > 0
    ensures var w, x := W.ConfirmedWorld(amount), BankExchange(Success, false, true, false, false);
            var a := map["first" := w, "second" := w];
            Claimable(w)
            && var b := a["first" := Drained(W.MAX_ONE, w, x)];
               var t := Trace([a, b], ["first"]);
               Drains(W.MAX_ONE, t, _ => x, a, b) && Stops(W.MAX_ONE, t, _ => x, true) && SomeDue(b)
  {
    var w, x := W.ConfirmedWorld(amount), BankExchange(Success, false, true, false, false);
    var a := map["first" := w, "second" := w];
    var b := a["first" := Drained(W.MAX_ONE, w, x)];
    W.SameCurrency();
    assert LegsAgree(w.row.collected, w.row.collectedCurrency, w.row);
    ProcessingBreaks(w.row, x);
    assert FirstDue(a, "first");
    assert EscapesAt(W.MAX_ONE, a, "first", x);
    assert b["second"] == w;
  }

  function PendingSteps(): seq<Step> {
    [RefundOpen(0, None)] + ([RefundFind(0, 7)] + ([RefundStart(0)] + ([RefundCrash(0)] + [])))
  }

  lemma PendingFrom(w: World, k: nat)
    requires W.FreshDebt(w, k)
    ensures var x := Exec(W.MAX_ONE, w, PendingSteps(), RefundRuns.Orderly(W.MAX_ONE));
            x.Some? && x.value.tries == map[] && RefundService.Retryable(x.value) && x.value.paid == map[]
            && Leases.Shape(x.value.row.state) && x.value.row.state.refund == Some(x.value.refund.value.status)
  {
    var rule, file := RefundRuns.Orderly(W.MAX_ONE), W.File(k, FRequired);
    W.OneLoads(w, k, [RefundStart(0)] + ([RefundCrash(0)] + []));
    var v := w.(refund := Some(file), tries := map[0 := Loaded(file, w.row, None, false)]);
    RefundRuns.StartGoes(v, 0, v.tries[0]);
    ExecStep(W.MAX_ONE, v, RefundStart(0), [RefundCrash(0)] + [], rule);
    var u := StartAttempt(v, 0, v.tries[0]);
    ExecStep(W.MAX_ONE, u, RefundCrash(0), [], rule);
    assert u.tries - {0} == map[];
  }

  /** SO CAN A RETRY PASS. A refund was requested and its process died; the provider pays the retry, the recording of it
      is rolled back late, and the exception leaves the pass. */
  lemma RetryCanStop(amount: nat, k: nat)
    requires k > 0 && k != amount
    ensures var x := Exec(W.MAX_ONE, Start(amount, "EUR", 0), W.MismatchSteps(k) + PendingSteps(),
                          RefundRuns.Orderly(W.MAX_ONE));
            x.Some? && AtRestRefunds(x.value)
            && RefundService.RetryThrows(W.MAX_ONE, x.value,
                                         RefundService.Exchange(0, Accepts, Late, false, false, false))
  {
    var rule := RefundRuns.Orderly(W.MAX_ONE);
    W.DebtIsReached(amount, k, rule);
    var w := Exec(W.MAX_ONE, Start(amount, "EUR", 0), W.MismatchSteps(k), rule).value;
    ExecConcat(W.MAX_ONE, Start(amount, "EUR", 0), W.MismatchSteps(k), PendingSteps(), rule);
    PendingFrom(w, k);
    RefundService.RetryThrowsAt(W.MAX_ONE, Exec(W.MAX_ONE, w, PendingSteps(), rule).value,
                                RefundService.Exchange(0, Accepts, Late, false, false, false));
  }

  predicate AtRestRefunds(w: World) { w.tries == map[] && RefundService.Retryable(w) }
}
