/** Concrete runs showing that each rule of conduct is needed: a worker that outlives its lease, a save that
    fails, two refund attempts at once. */
module Witnesses {
  import opened Basics
  import opened Domain
  import opened StateMachine
  import opened Gateway
  import opened Safety
  import opened Leases
  import opened RefundRuns
  import opened LedgerRuns
  import L = Ledger

  const MAX_ONE := Config(1, 0, 1)

  // ---------------------------------------------------------------------------------------------
  // A worker that outlives its lease
  // ---------------------------------------------------------------------------------------------

  /** The row of a payment of `amount` cents confirmed for exactly that amount, at no fee. */
  function RunningRow(amount: nat): Row {
    Row(State(StProcessing, Some(PConfirmed), Some(BProcessing), Some(RPending), Some(FNotRequired), Some(CNone),
              MobileMoney),
        amount, "EUR", Some(amount), Some("EUR"), 0)
  }

  function PendingRow(amount: nat): Row {
    Row(State(StPending, Some(PPending), Some(BNotStarted), Some(RPending), Some(FNotRequired), Some(CNone),
              MobileMoney),
        amount, "EUR", None, None, 0)
  }

  lemma ConfirmationIsLegal(amount: nat)
    ensures Legal(PendingRow(amount).state, RunningRow(amount).state)
  {
    var x, y := PendingRow(amount).state, RunningRow(amount).state;
    ShapeIsSound(y);
    forall d ensures Moves(x, y, d) {
    }
  }

  lemma SameCurrency()
    ensures CurrenciesMatch(Some("EUR"), Some("EUR"))
  {
  }

  function ConfirmedWorld(amount: nat): World {
    var w := Start(amount, "EUR", 0);
    var r := RunningRow(amount);
    w.(row := r, facts := w.facts + [FactOf(r, ProviderConfirmed, Some(amount), None)],
       instruction := Some(Instruction(IPending, 0, 0, 0)))
  }

  lemma NoFee(amount: nat)
    ensures L.Fee(amount, 0, 1) == 0
  {
  }

  lemma ReachesConfirmed(amount: nat, rest: seq<Step>, rule: Rule)
    requires amount > 0 && Implies(Orderly(MAX_ONE), rule)
    ensures Exec(MAX_ONE, Start(amount, "EUR", 0), [HookRead(0, Note(false, amount, "EUR"))] + ([HookApply(0)] + rest),
                 rule)
            == Exec(MAX_ONE, ConfirmedWorld(amount), rest, rule)
  {
    var w := Start(amount, "EUR", 0);
    var n := Note(false, amount, "EUR");
    var v := w.(hooks := map[0 := Hook(n, w.row)]);
    assert Orderly(MAX_ONE)(w, HookRead(0, n)) && Orderly(MAX_ONE)(v, HookApply(0));
    ExecStep(MAX_ONE, w, HookRead(0, n), [HookApply(0)] + rest, rule);
    assert Next(MAX_ONE, w, HookRead(0, n)) == v;
    ExecStep(MAX_ONE, v, HookApply(0), rest, rule);
    AppliesNote(amount, v);
  }

  lemma AppliesNote(amount: nat, v: World)
    requires amount > 0 && v == Start(amount, "EUR",
                                      0).(hooks := map[0 := Hook(Note(false, amount, "EUR"), PendingRow(amount))])
    ensures Next(MAX_ONE, v, HookApply(0)) == ConfirmedWorld(amount)
  {
    SameCurrency();
    NoFee(amount);
    ConfirmationIsLegal(amount);
    var h := Hook(Note(false, amount, "EUR"), PendingRow(amount));
    assert LegsAgree(Some(amount), Some("EUR"), h.before);
    assert ConfirmedRow(MAX_ONE, v.row, h.note) == RunningRow(amount);
    var u := ConfirmAndClaim(MAX_ONE, v, h.before, h.note);
    assert u.hooks - {0} == map[];
  }

  /** Two workers hold the same row: the first replied in time, acts after its lease, and was reclaimed. */
  function TwoWorkers(amount: nat): World {
    var r := RunningRow(amount);
    ConfirmedWorld(amount).(
      now := LEASE, instruction := Some(Instruction(IInFlight, 2, 0, LEASE)), reclaims := 1,
      jobs := map[0 := Replied(Instruction(IInFlight, 1, 0, 0), 0, r, Success),
                  1 := Replied(Instruction(IInFlight, 2, 0, LEASE), LEASE, r, Fault)])
  }

  function OneWorker(amount: nat, reply: Reply): World {
    var i := Instruction(IInFlight, 1, 0, 0);
    ConfirmedWorld(amount).(instruction := Some(i), jobs := map[0 := Replied(i, 0, RunningRow(amount), reply)])
  }

  lemma FirstWorker(amount: nat, reply: Reply, rest: seq<Step>, rule: Rule)
    requires Implies(Orderly(MAX_ONE), rule)
    ensures Exec(MAX_ONE, ConfirmedWorld(amount), [WorkerClaim(0)] + ([WorkerCall(0, reply)] + rest), rule)
            == Exec(MAX_ONE, OneWorker(amount, reply), rest, rule)
  {
    var w := ConfirmedWorld(amount);
    assert Orderly(MAX_ONE)(w, WorkerClaim(0));
    ExecStep(MAX_ONE, w, WorkerClaim(0), [WorkerCall(0, reply)] + rest, rule);
    var v := Claim(w, 0);
    assert v.jobs[0] == Claimed(Instruction(IInFlight, 1, 0, 0), 0, RunningRow(amount));
    assert Orderly(MAX_ONE)(v, WorkerCall(0, reply));
    ExecStep(MAX_ONE, v, WorkerCall(0, reply), rest, rule);
    assert Call(v, 0, v.jobs[0], reply).jobs == OneWorker(amount, reply).jobs;
  }

  lemma SecondWorker(amount: nat, rest: seq<Step>)
    ensures Exec(MAX_ONE, OneWorker(amount, Success),
                 [Tick(LEASE)] + ([WorkerClaim(1)] + ([WorkerCall(1, Fault)] + rest)), Free)
            == Exec(MAX_ONE, TwoWorkers(amount), rest, Free)
  {
    var w := OneWorker(amount, Success);
    ExecStep(MAX_ONE, w, Tick(LEASE), [WorkerClaim(1)] + ([WorkerCall(1, Fault)] + rest), Free);
    var u := Advance(w, LEASE);
    ExecStep(MAX_ONE, u, WorkerClaim(1), [WorkerCall(1, Fault)] + rest, Free);
    var v := Claim(u, 1);
    assert v.jobs[1] == Claimed(Instruction(IInFlight, 2, 0, LEASE), LEASE, RunningRow(amount));
    ExecStep(MAX_ONE, v, WorkerCall(1, Fault), rest, Free);
    assert Call(v, 1, v.jobs[1], Fault).jobs == TwoWorkers(amount).jobs;
  }

  lemma ConfirmedCounts(amount: nat)
    ensures Count(ConfirmedWorld(amount).facts, BankProcessingCompleted) == 0
    ensures Count(ConfirmedWorld(amount).facts, BankProcessingFailed) == 0
  {
    var w := Start(amount, "EUR", 0);
    assert w.facts == [] + [w.facts[0]];
    CountPush([], w.facts[0]);
    CountPush(w.facts, FactOf(RunningRow(amount), ProviderConfirmed, Some(amount), None));
  }

  lemma BothApply(amount: nat)
    ensures var x := Exec(MAX_ONE, TwoWorkers(amount), [WorkerApply(1, false)] + ([WorkerApply(0, false)] + []), Free);
            x.Some? && Count(x.value.facts, BankProcessingCompleted) == 1
              && Count(x.value.facts, BankProcessingFailed) == 1
            && x.value.row.state.bank == Some(BCompleted)
  {
    var w, r := TwoWorkers(amount), RunningRow(amount);
    ConfirmedCounts(amount);
    FailureLegal(r.state, FailureRow(r).state);
    SettlementIsLegal(r.state);
    ExecStep(MAX_ONE, w, WorkerApply(1, false), [WorkerApply(0, false)] + [], Free);
    var v := ApplyReply(w, 1, w.jobs[1], false);
    FailureCounts(w.facts, FailureRow(r));
    ExecStep(MAX_ONE, v, WorkerApply(0, false), [], Free);
    CountPush(v.facts, FactOf(SuccessRow(r), BankProcessingCompleted, None, None));
  }

  function ZombieRun(amount: nat): seq<Step> {
    [HookRead(0, Note(false, amount, "EUR"))] + ([HookApply(0)]
    + ([WorkerClaim(0)] + ([WorkerCall(0, Success)]
    + ([Tick(LEASE)] + ([WorkerClaim(1)] + ([WorkerCall(1, Fault)]
    + ([WorkerApply(1, false)] + ([WorkerApply(0, false)] + []))))))))
  }

  /** LEASES ARE NEEDED. A worker that acts after its lease overwrites the failure its successor recorded: both
      bank facts are posted, and the debt opened by the second one is no longer on the row. */
  lemma ZombiePostsBoth(amount: nat)
    requires amount > 0
    ensures var x := Exec(MAX_ONE, Start(amount, "EUR", 0), ZombieRun(amount), Free);
            x.Some? && Count(x.value.facts, BankProcessingCompleted) == 1
              && Count(x.value.facts, BankProcessingFailed) == 1
            && x.value.row.state.bank == Some(BCompleted)
  {
    var last := [WorkerApply(1, false)] + ([WorkerApply(0, false)] + []);
    var middle := [Tick(LEASE)] + ([WorkerClaim(1)] + ([WorkerCall(1, Fault)] + last));
    ReachesConfirmed(amount, [WorkerClaim(0)] + ([WorkerCall(0, Success)] + middle), Free);
    FirstWorker(amount, Success, middle, Free);
    SecondWorker(amount, last);
    BothApply(amount);
  }

  // ---------------------------------------------------------------------------------------------
  // A save that fails
  // ---------------------------------------------------------------------------------------------

  lemma FailsTwice(amount: nat)
    ensures var x := Exec(MAX_ONE, OneWorker(amount, Fault),
                          [WorkerApply(0, false)] + ([WorkerSaveFails(0)] + ([WorkerSave(0)] + [])), Free);
            x.Some? && Count(x.value.facts, BankProcessingFailed) == 2
  {
    var w, r := OneWorker(amount, Fault), RunningRow(amount);
    var f := FailureRow(r);
    ConfirmedCounts(amount);
    FailureLegal(r.state, f.state);
    SameLegal(f.state);
    ExecStep(MAX_ONE, w, WorkerApply(0, false), [WorkerSaveFails(0)] + ([WorkerSave(0)] + []), Free);
    var v := ApplyReply(w, 0, w.jobs[0], false);
    FailureCounts(w.facts, f);
    ExecStep(MAX_ONE, v, WorkerSaveFails(0), [WorkerSave(0)] + [], Free);
    var u := SaveFails(v, 0, v.jobs[0]);
    FailureCounts(v.facts, f);
    ExecStep(MAX_ONE, u, WorkerSave(0), [], Free);
  }

  function LostSaveRun(amount: nat): seq<Step> {
    [HookRead(0, Note(false, amount, "EUR"))] + ([HookApply(0)]
    + ([WorkerClaim(0)] + ([WorkerCall(0, Fault)]
    + ([WorkerApply(0, false)] + ([WorkerSaveFails(0)] + ([WorkerSave(0)] + []))))))
  }

  /** ONE SAVE MUST NOT FAIL. When the bank refuses on the last attempt and the save of the settled instruction
      then fails, the catch takes it for one more failure of the bank: the refusal is posted twice. */
  lemma LostSavePostsTwice(amount: nat)
    requires amount > 0
    ensures var x := Exec(MAX_ONE, Start(amount, "EUR", 0), LostSaveRun(amount), Free);
            x.Some? && Count(x.value.facts, BankProcessingFailed) == 2
  {
    var last := [WorkerApply(0, false)] + ([WorkerSaveFails(0)] + ([WorkerSave(0)] + []));
    ReachesConfirmed(amount, [WorkerClaim(0)] + ([WorkerCall(0, Fault)] + last), Free);
    FirstWorker(amount, Fault, last, Free);
    FailsTwice(amount);
  }

  // ---------------------------------------------------------------------------------------------
  // Two refund attempts at once
  // ---------------------------------------------------------------------------------------------

  /** A debt nobody has worked on yet. */
  predicate FreshDebt(w: World, k: nat) {
    Shape(w.row.state) && w.row.state.refund == Some(FRequired) && w.row.collected == Some(k)
    && w.refund.None? && w.tries == map[] && w.paid == map[]
  }

  function File(k: nat, status: RefundStatus): RefundFile {
    RefundFile(status, k, 7, if status == FRequired then 0 else 1, status != FCompleted, None)
  }

  function RequestedRow(r: Row): Row { r.(state := r.state.(refund := Some(FRequested))) }

  function PaidRow(r: Row): Row { r.(state := r.state.(refund := Some(FCompleted), case_ := Some(CResolved))) }

  function Both(t: Try): map<nat, Try> { map[0 := t, 1 := t] }

  /** Two requests read the same file. */
  lemma BothLoad(w: World, k: nat, rest: seq<Step>)
    requires FreshDebt(w, k)
    ensures Exec(MAX_ONE, w, [RefundOpen(0, None)]
                 + ([RefundOpen(1, None)] + ([RefundFind(0, 7)] + ([RefundFind(1, 8)] + rest))), Free)
            == Exec(MAX_ONE, w.(refund := Some(File(k, FRequired)),
                                tries := Both(Loaded(File(k, FRequired), w.row, None, false))), rest, Free)
  {
    var w1 := w.(tries := map[0 := Opened(w.row, None)]);
    var w2 := w.(tries := Both(Opened(w.row, None)));
    var file := File(k, FRequired);
    ExecStep(MAX_ONE, w, RefundOpen(0, None),
             [RefundOpen(1, None)] + ([RefundFind(0, 7)] + ([RefundFind(1, 8)] + rest)), Free);
    assert Next(MAX_ONE, w, RefundOpen(0, None)) == w1;
    ExecStep(MAX_ONE, w1, RefundOpen(1, None), [RefundFind(0, 7)] + ([RefundFind(1, 8)] + rest), Free);
    assert Next(MAX_ONE, w1, RefundOpen(1, None)).tries == w2.tries;
    BothFind(w2, k, rest);
  }

  lemma BothFind(w: World, k: nat, rest: seq<Step>)
    requires w.tries == Both(Opened(w.row, None)) && w.refund.None? && w.row.collected == Some(k) && w.paid == map[]
    ensures Exec(MAX_ONE, w, [RefundFind(0, 7)] + ([RefundFind(1, 8)] + rest), Free)
            == Exec(MAX_ONE, w.(refund := Some(File(k, FRequired)),
                                tries := Both(Loaded(File(k, FRequired), w.row, None, false))), rest, Free)
  {
    var file := File(k, FRequired);
    ExecStep(MAX_ONE, w, RefundFind(0, 7), [RefundFind(1, 8)] + rest, Free);
    var v := FindOrCreate(w, 0, w.tries[0], 7);
    assert v.refund == Some(file) && v.tries == map[0 := Loaded(file, w.row, None, false), 1 := Opened(w.row, None)];
    ExecStep(MAX_ONE, v, RefundFind(1, 8), rest, Free);
    assert FindOrCreate(v, 1, v.tries[1], 8).tries == Both(Loaded(file, w.row, None, false));
  }

  function Requested(w: World, k: nat): World {
    var r := RequestedRow(w.row);
    var f := FactOf(r, RefundRequested, Some(k), None);
    w.(row := r, refund := Some(File(k, FRequested)), facts := w.facts + [f] + [f],
       tries := Both(InFlight(File(k, FRequested), r, None)))
  }

  lemma OneStart(w: World, p: nat, k: nat, tx: Row)
    requires Legal(tx.state, RequestedRow(w.row).state)
    ensures var r := RequestedRow(w.row);
            StartAttempt(w, p, Loaded(File(k, FRequired), tx, None, false))
            == w.(row := r, refund := Some(File(k, FRequested)),
                  facts := w.facts + [FactOf(r, RefundRequested, Some(k), None)],
                  tries := w.tries[p := InFlight(File(k, FRequested), SyncedSnapshot(tx, r), None)])
  {
    assert Requesting(File(k, FRequired), None) == File(k, FRequested);
  }

  /** Both record their request: the second one repeats the first. */
  lemma BothStart(w: World, k: nat, rest: seq<Step>)
    requires Shape(w.row.state) && w.row.state.refund == Some(FRequired) && w.refund == Some(File(k, FRequired))
    requires w.tries == Both(Loaded(File(k, FRequired), w.row, None, false))
    ensures Exec(MAX_ONE, w, [RefundStart(0)] + ([RefundStart(1)] + rest), Free)
            == Exec(MAX_ONE, Requested(w, k), rest, Free)
  {
    var r := RequestedRow(w.row);
    RefundLegal(w.row.state, r.state);
    var loaded := Loaded(File(k, FRequired), w.row, None, false);
    var v := w.(row := r, refund := Some(File(k, FRequested)),
                facts := w.facts + [FactOf(r, RefundRequested, Some(k), None)],
                tries := map[0 := InFlight(File(k, FRequested), r, None), 1 := loaded]);
    FirstStart(w, v, k);
    ExecStep(MAX_ONE, w, RefundStart(0), [RefundStart(1)] + rest, Free);
    SecondStart(w, v, k, rest);
  }

  lemma FirstStart(w: World, v: World, k: nat)
    requires Legal(w.row.state, RequestedRow(w.row).state)
    requires w.tries == Both(Loaded(File(k, FRequired), w.row, None, false))
    requires v.tries == map[0 := InFlight(File(k, FRequested), v.row, None),
                            1 := Loaded(File(k, FRequired), w.row, None, false)]
    requires v == w.(row := RequestedRow(w.row), refund := Some(File(k, FRequested)), tries := v.tries,
                     facts := w.facts + [FactOf(v.row, RefundRequested, Some(k), None)])
    ensures Next(MAX_ONE, w, RefundStart(0)) == v
  {
    OneStart(w, 0, k, w.row);
    assert w.tries[0 := InFlight(File(k, FRequested), v.row, None)] == v.tries;
  }

  lemma SecondStart(w: World, v: World, k: nat, rest: seq<Step>)
    requires Legal(w.row.state, RequestedRow(w.row).state) && v.row == RequestedRow(w.row)
    requires v.tries == map[0 := InFlight(File(k, FRequested), v.row, None),
                            1 := Loaded(File(k, FRequired), w.row, None, false)]
    requires v == w.(row := v.row, refund := Some(File(k, FRequested)), tries := v.tries,
                     facts := w.facts + [FactOf(v.row, RefundRequested, Some(k), None)])
    ensures Exec(MAX_ONE, v, [RefundStart(1)] + rest, Free) == Exec(MAX_ONE, Requested(w, k), rest, Free)
  {
    OneStart(v, 1, k, w.row);
    ExecStep(MAX_ONE, v, RefundStart(1), rest, Free);
    assert Next(MAX_ONE, v, RefundStart(1)).tries == Requested(w, k).tries;
  }

  function Answered2(w: World, k: nat): World {
    w.(paid := map[7 := k], tries := Both(Answered(File(k, FRequested), w.row, None, Paid)),
       trail := w.trail + [Called] + [Called])
  }

  /** The provider pays once and answers twice. */
  lemma BothCall(w: World, k: nat, rest: seq<Step>)
    requires w.tries == Both(InFlight(File(k, FRequested), w.row, None)) && w.paid == map[]
    ensures Exec(MAX_ONE, w, [RefundCall(0, Accepts)] + ([RefundCall(1, Accepts)] + rest), Free)
            == Exec(MAX_ONE, Answered2(w, k), rest, Free)
  {
    ExecStep(MAX_ONE, w, RefundCall(0, Accepts), [RefundCall(1, Accepts)] + rest, Free);
    var v := CallProvider(w, 0, w.tries[0], Accepts);
    assert v.paid == map[7 := k] && v.tries[1] == w.tries[1];
    ExecStep(MAX_ONE, v, RefundCall(1, Accepts), rest, Free);
    assert CallProvider(v, 1, v.tries[1], Accepts).tries == Answered2(w, k).tries;
  }

  /** Both record their success. */
  lemma BothFinish(w: World, k: nat)
    requires Shape(w.row.state) && w.row.state.refund == Some(FRequested)
    requires w.tries == Both(Answered(File(k, FRequested), w.row, None, Paid))
    ensures var f := FactOf(PaidRow(w.row), RefundCompleted, Some(k), None);
            var first := CloseCase(w.facts + [f], PaidRow(w.row));
            var x := Exec(MAX_ONE, w, [RefundFinish(0, Commits)] + ([RefundFinish(1, Commits)] + []), Free);
            x.Some? && x.value.facts == CloseCase(first + [f], PaidRow(w.row)) && x.value.paid == w.paid
  {
    var r := PaidRow(w.row);
    RefundLegal(w.row.state, r.state);
    ExecStep(MAX_ONE, w, RefundFinish(0, Commits), [RefundFinish(1, Commits)] + [], Free);
    var v := RecordSuccess(w, 0, w.tries[0], Commits);
    assert v.row == r && v.tries[1] == w.tries[1];
    ExecStep(MAX_ONE, v, RefundFinish(1, Commits), [], Free);
    assert Sync(v, w.row, FCompleted, true) == Some(r);
  }

  // ---------------------------------------------------------------------------------------------

  function OverlapSteps(): seq<Step> {
    [RefundOpen(0, None)] + ([RefundOpen(1, None)] + ([RefundFind(0, 7)] + ([RefundFind(1, 8)]
    + ([RefundStart(0)] + ([RefundStart(1)] + ([RefundCall(0, Accepts)] + ([RefundCall(1, Accepts)]
    + ([RefundFinish(0, Commits)] + ([RefundFinish(1, Commits)] + [])))))))))
  }

  lemma OverlapFrom(w: World, k: nat)
    requires FreshDebt(w, k) && LedgerInv(w)
    ensures var x := Exec(MAX_ONE, w, OverlapSteps(), Free);
            x.Some? && x.value.paid == map[7 := k]
            && L.Balance(Lines(x.value.facts), L.PayerPayable) == 0 - k
  {
    var w1 := w.(refund := Some(File(k, FRequired)), tries := Both(Loaded(File(k, FRequired), w.row, None, false)));
    var end := [RefundFinish(0, Commits)] + ([RefundFinish(1, Commits)] + []);
    var calls := [RefundCall(0, Accepts)] + ([RefundCall(1, Accepts)] + end);
    BothLoad(w, k, [RefundStart(0)] + ([RefundStart(1)] + calls));
    BothStart(w1, k, calls);
    var w2 := Requested(w1, k);
    BothCall(w2, k, end);
    var w3 := Answered2(w2, k);
    BothFinish(w3, k);
    var r := PaidRow(w3.row);
    OverlapTally(w, k, FactOf(w2.row, RefundRequested, Some(k), None), FactOf(r, RefundCompleted, Some(k), None), r);
    assert w3.facts == w.facts + [FactOf(w2.row, RefundRequested, Some(k), None)]
           + [FactOf(w2.row, RefundRequested, Some(k), None)];
  }

  lemma OverlapTally(w: World, k: nat, asked: Fact, paid: Fact, r: Row)
    requires FreshDebt(w, k) && LedgerInv(w) && asked.t == RefundRequested
    requires paid.t == RefundCompleted && paid.observed == Some(k)
    ensures var first := CloseCase(w.facts + [asked] + [asked] + [paid], r);
            L.Balance(Lines(CloseCase(first + [paid], r)), L.PayerPayable) == 0 - k
  {
    AskedTwice(w.facts, asked);
    PaidTwice(w.facts + [asked] + [asked], paid, r, k);
  }

  lemma AskedTwice(facts: seq<Fact>, asked: Fact)
    requires asked.t == RefundRequested
    ensures TallyOf(facts + [asked] + [asked]) == TallyOf(facts)
  {
    PushNeutral(facts, asked);
    PushNeutral(facts + [asked], asked);
  }

  lemma PaidTwice(f0: seq<Fact>, paid: Fact, r: Row, k: nat)
    requires TallyOf(f0).book.payer == k && TallyOf(f0).fit && paid.t == RefundCompleted && paid.observed == Some(k)
    ensures var first := CloseCase(f0 + [paid], r);
            L.Balance(Lines(CloseCase(first + [paid], r)), L.PayerPayable) == 0 - k
  {
    var first := CloseCase(f0 + [paid], r);
    CloseNeutral(f0 + [paid], r);
    CloseNeutral(first + [paid], r);
    TallyPush(f0, paid);
    TallyPush(first, paid);
    var end := CloseCase(first + [paid], r);
    TwicePaid(TallyOf(f0), paid, k);
    LinesMove(end);
    assert Balances(Lines(end)).payer == L.Balance(Lines(end), L.PayerPayable);
  }

  lemma TwicePaid(t: Tally, paid: Fact, k: nat)
    requires t.book.payer == k && t.fit && paid.t == RefundCompleted && paid.observed == Some(k)
    ensures var u := Extend(Extend(t, paid), paid); u.book.payer == 0 - k && u.fit
  {
    var m: int := k;
    ExtendBy(t, paid, Book(0 - m, 0, 0, 0 - m, 0));
    ExtendBy(Extend(t, paid), paid, Book(0 - m, 0, 0, 0 - m, 0));
  }

  function MismatchSteps(k: nat): seq<Step> { [HookRead(0, Note(false, k, "EUR"))] + ([HookApply(0)] + []) }

  /** A confirmation for another amount than the one ordered opens a debt. */
  lemma DebtIsReached(amount: nat, k: nat, rule: Rule)
    requires k > 0 && k != amount && Implies(Orderly(MAX_ONE), rule)
    ensures var x := Exec(MAX_ONE, Start(amount, "EUR", 0), MismatchSteps(k), rule);
            x.Some? && FreshDebt(x.value, k) && LedgerInv(x.value)
  {
    var w, n := Start(amount, "EUR", 0), Note(false, k, "EUR");
    var v := w.(hooks := map[0 := Hook(n, w.row)]);
    assert Orderly(MAX_ONE)(w, HookRead(0, n)) && Orderly(MAX_ONE)(v, HookApply(0));
    ExecStep(MAX_ONE, w, HookRead(0, n), [HookApply(0)] + [], rule);
    assert Next(MAX_ONE, w, HookRead(0, n)) == v;
    ExecStep(MAX_ONE, v, HookApply(0), [], rule);
    GapIsBooked(amount, k, v);
  }

  lemma GapIsBooked(amount: nat, k: nat, v: World)
    requires k != amount
    requires v == Start(amount, "EUR", 0).(hooks := map[0 := Hook(Note(false, k, "EUR"), Start(amount, "EUR", 0).row)])
    ensures var x := Next(MAX_ONE, v, HookApply(0)); FreshDebt(x, k) && LedgerInv(x)
  {
    BookedAtStart(amount, v);
    MismatchLedger(v, v.hooks[0]);
    GapOpensDebt(v, v.hooks[0]);
  }

  lemma BookedAtStart(amount: nat, v: World)
    requires v == Start(amount, "EUR", 0).(hooks := v.hooks)
    ensures RowOk(v) && LedgerInv(v)
  {
    StartLedger(amount, "EUR", 0);
    StartInv(MAX_ONE, amount, "EUR", 0);
  }

  lemma GapOpensDebt(v: World, h: Hook)
    requires h.before == v.row && Shape(v.row.state) && v.row.state.provider == Some(PPending)
    requires v.row.state.bank == Some(BNotStarted)
    requires v.refund.None? && v.tries == map[] && v.paid == map[]
    ensures FreshDebt(MarkAmountMismatch(v, h.before, h.note), h.note.amount)
  {
    var r := MismatchedRow(v.row, h.note);
    ShapeIsSound(r.state);
    forall d ensures Moves(v.row.state, r.state, d) {
    }
  }

  /** ATTEMPTS MUST NOT OVERLAP. Two attempts at once on one debt end with one payout and two recorded refunds: the
      payer's account goes below zero by the amount collected, for whatever amounts are ordered and collected. */
  lemma OverlapBreaksTheLedger(amount: nat, k: nat)
    requires k > 0 && k != amount
    ensures var x := Exec(MAX_ONE, Start(amount, "EUR", 0), MismatchSteps(k) + OverlapSteps(), Free);
            x.Some? && x.value.paid == map[7 := k] && L.Balance(Lines(x.value.facts), L.PayerPayable) == 0 - k
  {
    DebtIsReached(amount, k, Free);
    var w := Exec(MAX_ONE, Start(amount, "EUR", 0), MismatchSteps(k), Free).value;
    ExecConcat(MAX_ONE, Start(amount, "EUR", 0), MismatchSteps(k), OverlapSteps(), Free);
    OverlapFrom(w, k);
  }

  // ---------------------------------------------------------------------------------------------
  // A rejection nobody recorded
  // ---------------------------------------------------------------------------------------------

  function RejectSteps(): seq<Step> {
    [RefundOpen(0, None)] + ([RefundFind(0, 7)] + ([RefundStart(0)] + ([RefundCall(0, Rejects)] + [])))
  }

  function AgainSteps(): seq<Step> {
    [RefundCrash(0)] + ([RetryFind(1)] + ([RetryRow(1)] + ([RefundStart(1)] + ([RefundCall(1, Accepts)] + []))))
  }

  lemma OneLoads(w: World, k: nat, rest: seq<Step>)
    requires FreshDebt(w, k)
    ensures Exec(MAX_ONE, w, [RefundOpen(0, None)] + ([RefundFind(0, 7)] + rest), Orderly(MAX_ONE))
            == Exec(MAX_ONE, w.(refund := Some(File(k, FRequired)),
                                tries := map[0 := Loaded(File(k, FRequired), w.row, None, false)]), rest,
                                  Orderly(MAX_ONE))
  {
    var w1 := w.(tries := map[0 := Opened(w.row, None)]);
    ExecStep(MAX_ONE, w, RefundOpen(0, None), [RefundFind(0, 7)] + rest, Orderly(MAX_ONE));
    assert Next(MAX_ONE, w, RefundOpen(0, None)) == w1;
    ExecStep(MAX_ONE, w1, RefundFind(0, 7), rest, Orderly(MAX_ONE));
    assert FindOrCreate(w1, 0, w1.tries[0], 7).tries == map[0 := Loaded(File(k, FRequired), w.row, None, false)];
  }

  /** One attempt up to the answer of the provider. */
  lemma OneCalls(w: World, p: nat, o: Outcome)
    requires p in w.tries && w.tries == map[p := w.tries[p]] && w.tries[p].Loaded? && w.tries[p].tx == w.row
    requires !w.tries[p].manual
    requires Shape(w.row.state) && Owed(w.row) && Attemptable(w.tries[p].file)
    requires w.row.state.refund == Some(w.tries[p].file.status)
    requires w.paid == map[]
    ensures var x := Exec(MAX_ONE, w, [RefundStart(p)] + ([RefundCall(p, o)] + []), Orderly(MAX_ONE));
            x.Some? && x.value.trail == w.trail + [Called] && Shape(x.value.row.state) && Owed(x.value.row)
            && x.value.row.state.refund == Some(FRequested)
            && p in x.value.tries && x.value.tries == map[p := x.value.tries[p]] && x.value.tries[p].Answered?
            && x.value.refund == Some(x.value.tries[p].file) && x.value.refund.value.status == FRequested
            && (o == Rejects ==> x.value.tries[p].answer == Rejected && x.value.paid == map[])
  {
    var v := StartAttempt(w, p, w.tries[p]);
    StartGoes(w, p, w.tries[p]);
    ExecStep(MAX_ONE, w, RefundStart(p), [RefundCall(p, o)] + [], Orderly(MAX_ONE));
    ExecStep(MAX_ONE, v, RefundCall(p, o), [], Orderly(MAX_ONE));
    assert CallProvider(v, p, v.tries[p], o).tries == map[p := CallProvider(v, p, v.tries[p], o).tries[p]];
  }

  /** ONLY A RECORDED REJECTION BARS. When the process dies between the rejection of the provider and its recording,
      the retry worker calls the provider again, though nobody reopened the refund, even with attempts apart. */
  lemma LostRejectionIsRetried(w: World, k: nat)
    requires FreshDebt(w, k)
    ensures var x := Exec(MAX_ONE, w, RejectSteps(), Orderly(MAX_ONE));
            x.Some? && 0 in x.value.tries && x.value.tries[0].Answered? && x.value.tries[0].answer == Rejected
            && var y := Exec(MAX_ONE, x.value, AgainSteps(), Orderly(MAX_ONE));
               y.Some? && y.value.trail == w.trail + [Called] + [Called]
  {
    var w1 := w.(refund := Some(File(k, FRequired)), tries := map[0 := Loaded(File(k, FRequired), w.row, None, false)]);
    OneLoads(w, k, [RefundStart(0)] + ([RefundCall(0, Rejects)] + []));
    OneCalls(w1, 0, Rejects);
    RetriedAfter(Exec(MAX_ONE, w1, [RefundStart(0)] + ([RefundCall(0, Rejects)] + []), Orderly(MAX_ONE)).value);
  }

  lemma RetriedAfter(x: World)
    requires Shape(x.row.state) && Owed(x.row) && x.row.state.refund == Some(FRequested) && x.paid == map[]
    requires 0 in x.tries && x.tries == map[0 := x.tries[0]] && x.refund.Some? && x.refund.value.status == FRequested
    ensures var y := Exec(MAX_ONE, x, AgainSteps(), Orderly(MAX_ONE)); y.Some? && y.value.trail == x.trail + [Called]
  {
    LoadSteps(MAX_ONE, x, 0, 1, [RefundStart(1)] + ([RefundCall(1, Accepts)] + []));
    OneCalls(LoadedWorld(x, 1), 1, Accepts);
  }
}
