/** The journal along runs: in every orderly run the five balances of a payment are a fixed function of its
    row, and of whether its collection was swept. */
module LedgerRuns {
  import opened Basics
  import opened Domain
  import opened StateMachine
  import opened Gateway
  import opened Safety
  import opened Leases
  import opened RefundRuns
  import L = Ledger

  // ---------------------------------------------------------------------------------------------
  // Books
  // ---------------------------------------------------------------------------------------------

  /** The five balances of one transaction. */
  datatype Book = Book(float: int, settlement: int, creditor: int, payer: int, fee: int)

  const EMPTY := Book(0, 0, 0, 0, 0)

  function Plus(a: Book, b: Book): Book {
    Book(a.float + b.float, a.settlement + b.settlement, a.creditor + b.creditor, a.payer + b.payer, a.fee + b.fee)
  }

  function ContextOf(f: Fact): L.Context {
    L.Context(f.ordered, match f.observed case Some(x) => Some(x) case None => None, f.fee)
  }

  /** The lines a recorded fact is posted as, in the same transaction. */
  function Post(f: Fact): seq<L.Line> { L.Posting(MobileMoney, f.t, ContextOf(f)) }

  function Lines(facts: seq<Fact>): seq<L.Line> {
    if facts == [] then [] else Lines(facts[..|facts| - 1]) + Post(facts[|facts| - 1])
  }

  function Balances(lines: seq<L.Line>): Book {
    Book(L.Balance(lines, L.ProviderFloat), L.Balance(lines, L.Settlement), L.Balance(lines, L.CreditorPayable),
         L.Balance(lines, L.PayerPayable), L.Balance(lines, L.FeeRevenue))
  }

  lemma BalancesConcat(a: seq<L.Line>, b: seq<L.Line>)
    ensures Balances(a + b) == Plus(Balances(a), Balances(b))
  {
    BalanceConcat(a, b, L.ProviderFloat);
    BalanceConcat(a, b, L.Settlement);
    BalanceConcat(a, b, L.CreditorPayable);
    BalanceConcat(a, b, L.PayerPayable);
    BalanceConcat(a, b, L.FeeRevenue);
  }

  lemma BalanceConcat(a: seq<L.Line>, b: seq<L.Line>, x: L.Account)
    ensures L.Balance(a + b, x) == L.Balance(a, x) + L.Balance(b, x)
  {
    L.MovedConcat(a, b, x, L.Debit);
    L.MovedConcat(a, b, x, L.Credit);
  }

  /** What one line moves. */
  function Effect(l: L.Line): Book {
    var x := if L.IsAsset(l.account) == (l.direction == L.Debit) then l.amount else -l.amount;
    match l.account
    case ProviderFloat => EMPTY.(float := x)
    case Settlement => EMPTY.(settlement := x)
    case CreditorPayable => EMPTY.(creditor := x)
    case PayerPayable => EMPTY.(payer := x)
    case FeeRevenue => EMPTY.(fee := x)
  }

  lemma OneLine(l: L.Line)
    ensures Balances([l]) == Effect(l)
  {
    assert [l][1..] == [];
    forall a, d ensures L.Moved([l], a, d) == if l.account == a && l.direction == d then l.amount else 0 {
    }
  }

  lemma KeptLine(l: L.Line)
    requires l.amount >= 0
    ensures Balances(if l.amount > 0 then [l] else []) == Effect(l)
  {
    OneLine(l);
  }

  lemma TwoLines(x: L.Line, y: L.Line)
    requires x.amount >= 0 && y.amount >= 0
    ensures Balances(L.WithoutZeros([x, y])) == Plus(Effect(x), Effect(y))
  {
    L.FilterTwo(x, y);
    KeptLine(x);
    KeptLine(y);
    BalancesConcat(if x.amount > 0 then [x] else [], if y.amount > 0 then [y] else []);
  }

  lemma ThreeLines(x: L.Line, y: L.Line, z: L.Line)
    requires x.amount >= 0 && y.amount >= 0 && z.amount >= 0
    ensures Balances(L.WithoutZeros([x, y, z])) == Plus(Effect(x), Plus(Effect(y), Effect(z)))
  {
    L.FilterThree(x, y, z);
    KeptLine(x);
    TwoLines(y, z);
    BalancesConcat(if x.amount > 0 then [x] else [], L.WithoutZeros([y, z]));
  }

  /** What a fact moves: the table behind the posting rules, on facts whose fee fits. */
  function Movement(f: Fact): Book {
    var c := f.observed.GetOr(f.ordered);
    match f.t
    case ProviderConfirmed => Book(c, 0, c - f.fee, 0, f.fee)
    case AmountMismatchDetected => Book(c, 0, 0, c, 0)
    case SettlementSwept => Book(0 - c, c, 0, 0, 0)
    case BankProcessingCompleted => Book(0, f.fee - f.ordered, f.fee - f.ordered, 0, 0)
    case BankProcessingFailed => Book(0, 0, f.fee - f.ordered, f.ordered, 0 - f.fee)
    case RefundCompleted => Book(0 - c, 0, 0, 0 - c, 0)
    case _ => EMPTY
  }

  predicate Fits(f: Fact) {
    (f.t == ProviderConfirmed ==> f.fee <= f.observed.GetOr(f.ordered))
    && (f.t == BankProcessingCompleted || f.t == BankProcessingFailed ==> f.fee <= f.ordered)
  }

  lemma ConfirmedEffects(k: int, fee: int)
    ensures Plus(Effect(L.Line(L.ProviderFloat, L.Debit, k)),
                 Plus(Effect(L.Line(L.CreditorPayable, L.Credit, k - fee)),
                      Effect(L.Line(L.FeeRevenue, L.Credit, fee))))
            == Book(k, 0, k - fee, 0, fee)
  {
  }

  lemma PostsConfirmed(f: Fact, k: int)
    requires Fits(f) && f.t == ProviderConfirmed && k == f.observed.GetOr(f.ordered)
    ensures Balances(Post(f)) == Book(k, 0, k - f.fee, 0, f.fee)
  {
    ThreeLines(L.Line(L.ProviderFloat, L.Debit, k), L.Line(L.CreditorPayable, L.Credit, k - f.fee),
               L.Line(L.FeeRevenue, L.Credit, f.fee));
    ConfirmedEffects(k, f.fee);
  }

  lemma FailedEffects(k: int, fee: int)
    ensures Plus(Effect(L.Line(L.CreditorPayable, L.Debit, k - fee)),
                 Plus(Effect(L.Line(L.FeeRevenue, L.Debit, fee)), Effect(L.Line(L.PayerPayable, L.Credit, k))))
            == Book(0, 0, fee - k, k, 0 - fee)
  {
  }

  lemma PostsBankFailed(f: Fact, k: int)
    requires Fits(f) && f.t == BankProcessingFailed && k == f.ordered
    ensures Balances(Post(f)) == Book(0, 0, f.fee - k, k, 0 - f.fee)
  {
    ThreeLines(L.Line(L.CreditorPayable, L.Debit, k - f.fee), L.Line(L.FeeRevenue, L.Debit, f.fee),
               L.Line(L.PayerPayable, L.Credit, k));
    FailedEffects(k, f.fee);
  }

  lemma PostsPair(f: Fact, from: L.Account, to: L.Account, k: int)
    requires L.RuleLines(f.t, ContextOf(f)) == [L.Line(from, L.Debit, k), L.Line(to, L.Credit, k)] && k >= 0
    ensures Balances(Post(f)) == Plus(Effect(L.Line(from, L.Debit, k)), Effect(L.Line(to, L.Credit, k)))
  {
    TwoLines(L.Line(from, L.Debit, k), L.Line(to, L.Credit, k));
  }

  /** The posting rules implement the table: what the lines of a fact move is its movement, zero lines
      dropped or not. */
  lemma PostMoves(f: Fact)
    requires Fits(f)
    ensures Balances(Post(f)) == Movement(f)
  {
    var k := f.observed.GetOr(f.ordered);
    match f.t
    case ProviderConfirmed => PostsConfirmed(f, k);
    case AmountMismatchDetected => PostsPair(f, L.ProviderFloat, L.PayerPayable, k);
    case SettlementSwept => PostsPair(f, L.Settlement, L.ProviderFloat, k);
    case BankProcessingCompleted => PostsPair(f, L.CreditorPayable, L.Settlement, f.ordered - f.fee);
    case BankProcessingFailed => PostsBankFailed(f, f.ordered);
    case RefundCompleted => PostsPair(f, L.PayerPayable, L.ProviderFloat, k);
    case _ => assert L.RuleLines(f.t, ContextOf(f)) == [];
  }

  /** What a registry amounts to: the running balances, whether it holds a sweep, whether all fees fit. */
  datatype Tally = Tally(book: Book, swept: bool, fit: bool)

  predicate Monetary(t: EventType) {
    t.ProviderConfirmed? || t.AmountMismatchDetected? || t.SettlementSwept? || t.BankProcessingCompleted?
    || t.BankProcessingFailed? || t.RefundCompleted?
  }

  function Extend(t: Tally, f: Fact): Tally {
    if !Monetary(f.t) then t
    else Tally(Plus(t.book, Movement(f)), t.swept || f.t == SettlementSwept, t.fit && Fits(f))
  }

  function TallyOf(facts: seq<Fact>): Tally {
    if facts == [] then Tally(EMPTY, false, true) else Extend(TallyOf(facts[..|facts| - 1]), facts[|facts| - 1])
  }

  lemma TallyPush(facts: seq<Fact>, f: Fact)
    ensures TallyOf(facts + [f]) == Extend(TallyOf(facts), f)
  {
    assert (facts + [f])[..|facts|] == facts;
  }

  lemma BookOne(a: seq<L.Line>, b: seq<L.Line>, m: Book)
    requires Balances(b) == m
    ensures Balances(a + b) == Plus(Balances(a), m)
  {
    BalancesConcat(a, b);
  }

  lemma BalancedOne(a: seq<L.Line>, b: seq<L.Line>)
    requires L.Balanced(a) && L.Balanced(b)
    ensures L.Balanced(a + b)
  {
    L.TotalConcat(a, b, L.Debit);
    L.TotalConcat(a, b, L.Credit);
  }

  lemma ExtendedBook(t: Tally, f: Fact)
    requires Extend(t, f).fit
    ensures Fits(f) && t.fit && Extend(t, f).book == Plus(t.book, Movement(f))
  {
    if !Monetary(f.t) {
      PlusEmpty(t.book, Movement(f));
    }
  }

  lemma PlusEmpty(b: Book, m: Book)
    requires m == EMPTY
    ensures Plus(b, m) == b
  {
  }

  lemma PostBalances(f: Fact)
    requires Fits(f)
    ensures L.Balanced(Post(f))
  {
    L.PostingBalances(MobileMoney, f.t, ContextOf(f));
  }

  /** The journal of a run: its balances are the running ones, and it balances. */
  lemma {:induction false} LinesMove(facts: seq<Fact>)
    requires TallyOf(facts).fit
    ensures Balances(Lines(facts)) == TallyOf(facts).book && L.Balanced(Lines(facts))
  {
    if facts != [] {
      var front, f := facts[..|facts| - 1], facts[|facts| - 1];
      ExtendedBook(TallyOf(front), f);
      LinesMove(front);
      PostMoves(f);
      PostBalances(f);
      BookOne(Lines(front), Post(f), Movement(f));
      BalancedOne(Lines(front), Post(f));
    }
  }

  lemma {:induction false} SweptIsHas(facts: seq<Fact>)
    ensures TallyOf(facts).swept <==> Has(facts, SettlementSwept)
  {
    if facts != [] {
      var front := facts[..|facts| - 1];
      SweptIsHas(front);
      if Has(front, SettlementSwept) {
        var i :| 0 <= i < |front| && front[i].t == SettlementSwept;
        assert facts[i].t == SettlementSwept;
      }
      if Has(facts, SettlementSwept) && facts[|facts| - 1].t != SettlementSwept {
        var i :| 0 <= i < |facts| && facts[i].t == SettlementSwept;
        assert front[i].t == SettlementSwept;
      }
    }
  }

  // ---------------------------------------------------------------------------------------------
  // The balances as a function of the state
  // ---------------------------------------------------------------------------------------------

  /** C cents collected, of which F are the fee. */
  function Expected(r: Row, swept: bool): Book {
    var c, f := r.collected.GetOr(0), r.fee;
    if r.state.provider != Some(PConfirmed) then EMPTY
    else match r.state.bank
         case Some(BProcessing) => Book(c, 0, c - f, 0, f)                  // owed to the creditor
         case Some(BCompleted) =>
           if swept then Book(0, f, 0, 0, f)                                // only the fee is left, at the bank
           else Book(c, f - c, 0, 0, f)                                     // the bank advanced what the float holds
         case _ =>
           if r.state.refund == Some(FCompleted) then EMPTY                 // given back
           else Book(c, 0, 0, c, 0)                                         // owed to the payer
  }

  predicate FeeOk(r: Row) { if Started(r) then r.collected.Some? && r.fee <= r.collected.value else r.fee == 0 }

  predicate LedgerInv(w: World) { Agrees(w.row, TallyOf(w.facts)) }

  /** The row prescribes the tally. */
  predicate Agrees(r: Row, t: Tally) {
    t.book == Expected(r, t.swept) && (t.swept ==> r.state.bank == Some(BCompleted)) && FeeOk(r) && t.fit
  }

  /** Facts that move nothing. */
  predicate Neutral(a: seq<Fact>, b: seq<Fact>) { TallyOf(b) == TallyOf(a) }

  lemma PushNeutral(facts: seq<Fact>, f: Fact)
    requires !Monetary(f.t)
    ensures Neutral(facts, facts + [f])
  {
    TallyPush(facts, f);
  }

  lemma CloseNeutral(facts: seq<Fact>, r: Row)
    ensures Neutral(facts, CloseCase(facts, r))
  {
    PushNeutral(facts, FactOf(r, CaseClosed, None, None));
  }

  lemma FirstTally(facts: seq<Fact>)
    requires |facts| == 1 && !Monetary(facts[0].t)
    ensures TallyOf(facts) == Tally(EMPTY, false, true)
  {
  }

  lemma StartLedger(amount: nat, currency: string, now: nat)
    ensures LedgerInv(Start(amount, currency, now))
  {
    var facts := Start(amount, currency, now).facts;
    FirstTally(facts);
  }

  /** Statuses that leave the balances as they are. */
  predicate SameBalances(a: Row, b: Row) {
    CoreOf(a) == CoreOf(b) && a.state.bank == b.state.bank && a.state.provider == b.state.provider
    && (a.state.refund == Some(FCompleted) <==> b.state.refund == Some(FCompleted))
  }

  lemma NeutralKeeps(w: World, v: World)
    requires LedgerInv(w) && Neutral(w.facts, v.facts) && SameBalances(w.row, v.row)
    ensures LedgerInv(v)
  {
  }

  lemma ExtendBy(t: Tally, f: Fact, m: Book)
    requires Movement(f) == m && Monetary(f.t)
    ensures Extend(t, f) == Tally(Plus(t.book, m), t.swept || f.t == SettlementSwept, t.fit && Fits(f))
  {
  }

  /** One monetary fact f, which moves m, then facts that move nothing. */
  lemma PostKeeps(w: World, v: World, f: Fact, m: Book)
    requires LedgerInv(w) && Neutral(w.facts + [f], v.facts) && Fits(f) && Movement(f) == m && FeeOk(v.row)
    requires Monetary(f.t)
    requires var t := TallyOf(w.facts);
             var swept := t.swept || f.t == SettlementSwept;
             Plus(t.book, m) == Expected(v.row, swept) && (swept ==> v.row.state.bank == Some(BCompleted))
    ensures LedgerInv(v)
  {
    TallyPush(w.facts, f);
    ExtendBy(TallyOf(w.facts), f, m);
  }

  // ---------------------------------------------------------------------------------------------
  // Webhooks
  // ---------------------------------------------------------------------------------------------

  lemma ConfirmedLedger(w: World, v: World, k: nat)
    requires LedgerInv(w) && RowOk(w) && !Started(w.row)
    requires v.row.state.provider == Some(PConfirmed) && BankIs(v.row, BProcessing) && v.row.collected == Some(k)
    requires v.row.fee <= k
    requires v.facts == w.facts + [FactOf(v.row, ProviderConfirmed, Some(k), None)]
    ensures LedgerInv(v)
  {
    PostKeeps(w, v, FactOf(v.row, ProviderConfirmed, Some(k), None), Book(k, 0, k - v.row.fee, 0, v.row.fee));
  }

  lemma ConfirmLedger(c: Config, w: World, h: Hook)
    requires ValidConfig(c) && RowOk(w) && LedgerInv(w)
    ensures LedgerInv(ConfirmAndClaim(c, w, h.before, h.note))
  {
    var v := ConfirmAndClaim(c, w, h.before, h.note);
    if CanConfirm(w) {
      if v != w {
        L.FeeBounds(h.note.amount, c.feeP, c.feeQ);
        ConfirmedLedger(w, v, h.note.amount);
      }
    } else if v != w {
      CloseNeutral(w.facts, w.row);
      NeutralKeeps(w, v);
    }
  }

  lemma MismatchedLedger(w: World, v: World, k: nat, f: Fact, g: Fact, h: Fact)
    requires LedgerInv(w) && RowOk(w) && !Started(w.row)
    requires v.row.state.provider == Some(PConfirmed) && BankIs(v.row, BBlocked) && v.row.collected == Some(k)
    requires v.row.fee == w.row.fee && v.row.state.refund == Some(FRequired)
    requires f.t == AmountMismatchDetected && f.observed == Some(k) && g.t == BankProcessingBlocked && h.t == CaseOpened
    requires v.facts == w.facts + [f] + [g] + [h]
    ensures LedgerInv(v)
  {
    PushNeutral(w.facts + [f], g);
    PushNeutral(w.facts + [f] + [g], h);
    PostKeeps(w, v, f, Book(k, 0, 0, k, 0));
  }

  lemma MismatchLedger(w: World, h: Hook)
    requires RowOk(w) && LedgerInv(w)
    ensures LedgerInv(MarkAmountMismatch(w, h.before, h.note))
  {
    var v := MarkAmountMismatch(w, h.before, h.note);
    if v != w {
      var o := Some(h.note.amount);
      MismatchedLedger(w, v, h.note.amount, FactOf(v.row, AmountMismatchDetected, o, None),
                       FactOf(v.row, BankProcessingBlocked, o, None), FactOf(v.row, CaseOpened, o, None));
    }
  }

  lemma UnconfirmedAgrees(a: Row, b: Row, t: Tally)
    requires Agrees(a, t) && !Started(a) && !Started(b) && a.fee == b.fee
    requires a.state.provider != Some(PConfirmed) && b.state.provider != Some(PConfirmed)
    ensures Agrees(b, t)
  {
  }

  lemma RefusedTally(facts: seq<Fact>, f: Fact, r: Row)
    requires f.t == ProviderFailed
    ensures Neutral(facts, CloseCase(facts + [f], r))
  {
    PushNeutral(facts, f);
    CloseNeutral(facts + [f], r);
  }

  lemma RefusalLedger(w: World, h: Hook)
    requires RowOk(w) && LedgerInv(w)
    ensures LedgerInv(MarkProviderFailed(w, h.before, h.note))
  {
    var v := MarkProviderFailed(w, h.before, h.note);
    if v != w {
      RefusedTally(w.facts, FactOf(v.row, ProviderFailed, Some(h.note.amount), None), v.row);
      UnconfirmedAgrees(w.row, v.row, TallyOf(w.facts));
    }
  }

  lemma NoteLedger(c: Config, w: World, h: Hook)
    requires ValidConfig(c) && RowOk(w) && LedgerInv(w)
    ensures LedgerInv(ApplyNote(c, w, h))
  {
    if h.note.failed {
      RefusalLedger(w, h);
    } else if LegsAgree(Some(h.note.amount), Some(h.note.currency), h.before) {
      ConfirmLedger(c, w, h);
    } else {
      MismatchLedger(w, h);
    }
  }

  // ---------------------------------------------------------------------------------------------
  // The bank leg
  // ---------------------------------------------------------------------------------------------

  /** A leg in progress: the amount ordered is the amount collected. */
  predicate Running(r: Row) {
    BankIs(r, BProcessing) && r.state.provider == Some(PConfirmed) && r.collected == Some(r.amount)
  }

  lemma SettledLedger(w: World, v: World)
    requires LedgerInv(w) && Running(w.row) && v.row == SuccessRow(w.row)
    requires v.facts == w.facts + [FactOf(v.row, BankProcessingCompleted, None, None)]
    ensures LedgerInv(v)
  {
    var k := w.row.fee - w.row.amount;
    PostKeeps(w, v, FactOf(v.row, BankProcessingCompleted, None, None), Book(0, k, k, 0, 0));
  }

  lemma FailedLedger(w: World, v: World)
    requires LedgerInv(w) && Running(w.row) && v.row == FailureRow(w.row) && v.facts == FailureFacts(w.facts, v.row)
    ensures LedgerInv(v)
  {
    var f := FactOf(v.row, BankProcessingFailed, None, None);
    PushNeutral(w.facts + [f], FactOf(v.row, CaseOpened, None, None));
    PostKeeps(w, v, f, Book(0, 0, w.row.fee - w.row.amount, w.row.amount, 0 - w.row.fee));
  }

  lemma ApplyReplyLedger(w: World, k: nat, j: Job, abort: bool)
    requires LedgerInv(w) && j.Replied? && j.tx == w.row && Running(w.row)
    ensures LedgerInv(ApplyReply(w, k, j, abort))
  {
    match j.reply
    case Transport =>
    case Success =>
      var r := SuccessRow(w.row);
      SettledLedger(w, w.(row := r, facts := w.facts + [FactOf(r, BankProcessingCompleted, None, None)],
                          jobs := w.jobs[k := Applied(j.i, j.at, r)]));
    case Fault =>
      var r := FailureRow(w.row);
      FailedLedger(w, w.(row := r, facts := FailureFacts(w.facts, r), jobs := w.jobs[k := Settled(j.i, j.at, r)]));
  }

  lemma SaveCaughtLedger(c: Config, w: World, k: nat, j: Job)
    requires LedgerInv(w) && j.Caught?
    requires BankIs(j.tx, BCompleted) || (Running(w.row) && (j.tx == w.row || j.tx == FailureRow(w.row)))
    ensures LedgerInv(SaveCaught(c, w, k, j))
  {
    var v := SaveCaught(c, w, k, j);
    if BankIs(j.tx, BCompleted) {
      CompletedStays(j.tx.state, FailureRow(j.tx).state);
    } else if v.row != w.row {
      FailedLedger(w, v);
    }
  }

  lemma ReconcileTally(w: World, e: Row)
    requires BankIs(e, BCompleted) && LegsAgree(e.collected, e.collectedCurrency, e)
    requires e.state.provider == Some(PConfirmed)
    ensures var x := Reconcile(w, e); x.Some? ==> Neutral(w.facts, x.value.facts)
  {
    var r := ReconciledRow(e);
    var f := FactOf(r, ReconciliationMatched, r.collected, None);
    if e.state.reconciliation == Some(RMatched) {
      CloseNeutral(w.facts, e);
    } else {
      PushNeutral(w.facts, f);
      CloseNeutral(w.facts + [f], r);
    }
  }

  lemma ReconcileLedger(w: World, e: Row)
    requires LedgerInv(w) && BankIs(e, BCompleted) && LegsAgree(e.collected, e.collectedCurrency, e)
    requires var x := Reconcile(w, e); x.Some? ==> SameBalances(w.row, x.value.row)
    requires e.state.provider == Some(PConfirmed)
    ensures var x := Reconcile(w, e); x.Some? ==> LedgerInv(x.value)
  {
    ReconcileTally(w, e);
    if Reconcile(w, e).Some? {
      NeutralKeeps(w, Reconcile(w, e).value);
    }
  }

  lemma ReconcileRuns(w: World, e: Row)
    requires LedgerInv(w) && LegOk(w) && LeaseInv(w) && RecOk(w, e) && RecLive(w, e)
    ensures var x := Reconcile(w, e); x.Some? ==> LedgerInv(x.value)
  {
    ReconcileLease(w, e);
    ReconcileLedger(w, e);
  }

  lemma LiveRuns(c: Config, w: World, k: nat)
    requires Inv(c, w) && LeaseInv(w) && k in w.jobs && Live(w, w.jobs[k])
    ensures w.jobs[k].Replied? ==> w.jobs[k].tx == w.row && Running(w.row)
    ensures w.jobs[k].Caught? ==>
              BankIs(w.jobs[k].tx, BCompleted)
              || (Running(w.row) && (w.jobs[k].tx == w.row || w.jobs[k].tx == FailureRow(w.row)))
    ensures w.jobs[k].Applied? ==> RecOk(w, w.jobs[k].tx) && RecLive(w, w.jobs[k].tx)
  {
    LiveHolds(c, w, k);
  }

  lemma SaveLedger(c: Config, w: World, k: nat)
    requires ValidConfig(c) && Inv(c, w) && LeaseInv(w) && LedgerInv(w)
    requires Enabled(w, WorkerSave(k)) && LeaseStep(c, w, WorkerSave(k))
    ensures LedgerInv(Next(c, w, WorkerSave(k)))
  {
    if w.jobs[k].Caught? {
      LiveRuns(c, w, k);
      SaveCaughtLedger(c, w, k, w.jobs[k]);
    } else if w.jobs[k].Unsaved? {
      UnsavedQuiet(c, w, k, w.jobs[k]);
    }
  }

  lemma WorkerLedger(c: Config, w: World, s: Step)
    requires ValidConfig(c) && Inv(c, w) && LeaseInv(w) && LedgerInv(w) && Enabled(w, s) && LeaseStep(c, w, s)
    requires IsWorkerStep(s)
    ensures LedgerInv(Next(c, w, s))
  {
    match s
    case WorkerApply(k, abort) =>
      LiveRuns(c, w, k);
      ApplyReplyLedger(w, k, w.jobs[k], abort);
    case WorkerReconcile(k, abort) =>
      LiveRuns(c, w, k);
      ReconcileRuns(w, w.jobs[k].tx);
    case WorkerSave(k) => SaveLedger(c, w, k);
    case _ =>
  }

  // ---------------------------------------------------------------------------------------------
  // Refunds and treasury
  // ---------------------------------------------------------------------------------------------

  /** The refund column moves between two statuses of an open debt. */
  lemma SyncLedger(w: World, v: World, f: Fact)
    requires LedgerInv(w) && v.facts == w.facts + [f] && f.t in {RefundRequested, RefundFailed}
    requires Refunded(w.row, v.row) && w.row.state.refund != Some(FCompleted) && v.row.state.refund != Some(FCompleted)
    ensures LedgerInv(v)
  {
    PushNeutral(w.facts, f);
    NeutralKeeps(w, v);
  }

  /** The payment of the refund extinguishes exactly the debt. */
  lemma PaymentLedger(w: World, v: World, f: Fact)
    requires LedgerInv(w) && Owing(w.row.state) && w.row.state.bank in {Some(BFailed), Some(BBlocked)}
    requires Refunded(w.row, v.row) && w.row.state.refund != Some(FCompleted) && v.row.state.refund == Some(FCompleted)
    requires f.t == RefundCompleted && f.observed == w.row.collected && v.facts == CloseCase(w.facts + [f], v.row)
    ensures LedgerInv(v)
  {
    CloseNeutral(w.facts + [f], v.row);
    var k: int := w.row.collected.value;
    PostKeeps(w, v, f, Book(0 - k, 0, 0, 0 - k, 0));
  }

  lemma StartAttemptLedger(w: World, p: nat)
    requires LedgerInv(w) && RowOk(w) && ApartInv(w) && p in w.tries && w.tries[p].Loaded?
    ensures LedgerInv(StartAttempt(w, p, w.tries[p]))
  {
    var t := w.tries[p];
    assert TryFresh(w, t);
    var v := StartAttempt(w, p, t);
    if p in v.tries {
      SyncShape(w, t.tx, FRequested, false);
      SyncLedger(w, v, FactOf(v.row, RefundRequested, Some(v.refund.value.amount), t.actor));
    }
  }

  lemma RecordFailureLedger(w: World, p: nat)
    requires LedgerInv(w) && RowOk(w) && ApartInv(w) && p in w.tries && w.tries[p].Answered?
    ensures LedgerInv(RecordFailure(w, p, w.tries[p]))
  {
    var t := w.tries[p];
    assert TryFresh(w, t);
    var v := RecordFailure(w, p, t);
    if Sync(w, t.tx, FFailed, false).Some? {
      SyncShape(w, t.tx, FFailed, false);
      SyncLedger(w, v, FactOf(v.row, RefundFailed, Some(v.refund.value.amount), t.actor));
    }
  }

  lemma RecordSuccessLedger(w: World, p: nat, rollback: Rollback)
    requires LedgerInv(w) && RowOk(w) && ApartInv(w) && Shape(w.row.state) && MoneyOk(w)
    requires p in w.tries && w.tries[p].Answered?
    ensures LedgerInv(RecordSuccess(w, p, w.tries[p], rollback))
  {
    var t := w.tries[p];
    assert TryFresh(w, t);
    var v := RecordSuccess(w, p, t, rollback);
    if p !in v.tries {
      SyncShape(w, t.tx, FCompleted, true);
      PaymentLedger(w, v, FactOf(v.row, RefundCompleted, Some(v.refund.value.amount), t.actor));
    }
  }

  lemma SweepLedger(w: World)
    requires LedgerInv(w) && Shape(w.row.state) && Sweepable(w)
    ensures LedgerInv(Sweep(w))
  {
    var f := FactOf(w.row, SettlementSwept, w.row.collected, None);
    SweptIsHas(w.facts);
    var k: int := w.row.collected.value;
    PostKeeps(w, Sweep(w), f, Book(0 - k, k, 0, 0, 0));
  }

  lemma RefundLedger(c: Config, w: World, s: Step)
    requires ValidConfig(c) && RowOk(w) && MoneyOk(w) && Shape(w.row.state) && ApartInv(w) && LedgerInv(w)
    requires Enabled(w, s) && IsRefundStep(s)
    ensures LedgerInv(Next(c, w, s))
  {
    match s
    case RefundFind(p, key) => CloseNeutral(w.facts, w.tries[p].tx);
    case RefundStart(p) => StartAttemptLedger(w, p);
    case RefundFinish(p, rollback) =>
      if w.tries[p].answer == Paid { RecordSuccessLedger(w, p, rollback); } else { RecordFailureLedger(w, p); }
    case RefundReopen(who) => PushNeutral(w.facts, FactOf(w.row, RefundReopened, Some(w.refund.value.amount), who));
    case _ =>
  }

  lemma StepLedger(c: Config, w: World, s: Step)
    requires ValidConfig(c) && Inv(c, w) && LeaseInv(w) && ApartInv(w) && LedgerInv(w) && Enabled(w, s)
    requires OrderlyStep(c, w, s)
    ensures LedgerInv(Next(c, w, s))
  {
    if IsWorkerStep(s) {
      WorkerLedger(c, w, s);
    } else if IsRefundStep(s) {
      RefundLedger(c, w, s);
    } else if s.HookApply? {
      NoteLedger(c, w, w.hooks[s.p]);
    } else if s.RecApply? {
      ReconcileRuns(w, w.recs[s.p]);
    } else if s.TreasurySweep? {
      SweepLedger(w);
    }
  }

  lemma {:induction false} RunLedger(c: Config, w: World, steps: seq<Step>, rule: Rule)
    requires ValidConfig(c) && Inv(c, w) && LeaseInv(w) && ApartInv(w) && LedgerInv(w)
    requires Exec(c, w, steps, rule).Some? && Implies(rule, Orderly(c))
    ensures LedgerInv(Exec(c, w, steps, rule).value)
    decreases |steps|
  {
    if steps != [] {
      StepKeeps(c, w, steps[0]);
      StepLease(c, w, steps[0]);
      StepApart(c, w, steps[0]);
      StepLedger(c, w, steps[0]);
      RunLedger(c, Next(c, w, steps[0]), steps[1..], rule);
    }
  }

  lemma ReachesLedger(c: Config, amount: nat, currency: string, now: nat, steps: seq<Step>, rule: Rule)
    requires ValidConfig(c) && Implies(rule, Orderly(c)) && Exec(c, Start(amount, currency, now), steps, rule).Some?
    ensures var w := Exec(c, Start(amount, currency, now), steps, rule).value; LedgerInv(w) && Shape(w.row.state)
  {
    StartInv(c, amount, currency, now);
    StartLease(amount, currency, now);
    StartApart(amount, currency, now);
    StartLedger(amount, currency, now);
    RunLedger(c, Start(amount, currency, now), steps, rule);
    ReachesLease(c, amount, currency, now, steps, rule);
  }

  /** THE LEDGER REFINES THE STATE. In every orderly run the five balances are those the row prescribes, and
      the journal balances. */
  lemma LedgerFollowsState(c: Config, amount: nat, currency: string, now: nat, steps: seq<Step>, rule: Rule)
    requires ValidConfig(c) && Implies(rule, Orderly(c)) && Exec(c, Start(amount, currency, now), steps, rule).Some?
    ensures var w := Exec(c, Start(amount, currency, now), steps, rule).value;
            Balances(Lines(w.facts)) == Expected(w.row, Has(w.facts, SettlementSwept)) && L.Balanced(Lines(w.facts))
  {
    ReachesLedger(c, amount, currency, now, steps, rule);
    var w := Exec(c, Start(amount, currency, now), steps, rule).value;
    LinesMove(w.facts);
    SweptIsHas(w.facts);
  }

  predicate RefundOwed(x: State) { x.refund in {Some(FRequired), Some(FRequested), Some(FFailed)} }

  lemma ExpectedPayer(r: Row, swept: bool)
    requires Shape(r.state)
    ensures Expected(r, swept).payer == if RefundOwed(r.state) then r.collected.GetOr(0) else 0
  {
    match r.state.refund.value
    case FNotRequired =>
    case FCompleted =>
    case _ => assert RefundOwed(r.state);
  }

  /** THE DEBT IS IN THE BOOKS. In every orderly run the payer is owed exactly the collected amount while a
      refund is due, and nothing otherwise. */
  lemma PayerIsOwed(c: Config, amount: nat, currency: string, now: nat, steps: seq<Step>, rule: Rule)
    requires ValidConfig(c) && Implies(rule, Orderly(c)) && Exec(c, Start(amount, currency, now), steps, rule).Some?
    ensures var w := Exec(c, Start(amount, currency, now), steps, rule).value;
            L.Balance(Lines(w.facts), L.PayerPayable)
            == if RefundOwed(w.row.state) then w.row.collected.GetOr(0) else 0
  {
    var w := Exec(c, Start(amount, currency, now), steps, rule).value;
    ReachesLedger(c, amount, currency, now, steps, rule);
    LedgerFollowsState(c, amount, currency, now, steps, rule);
    ExpectedPayer(w.row, Has(w.facts, SettlementSwept));
    assert Balances(Lines(w.facts)).payer == L.Balance(Lines(w.facts), L.PayerPayable);
  }
}
