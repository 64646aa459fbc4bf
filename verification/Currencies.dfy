/** What it takes for a notification to conform: when two currency codes match, and what follows from it for every run.
    */
module Currencies {
  import opened Basics
  import opened Domain
  import opened StateMachine
  import opened Gateway
  import opened Safety
  import opened Leases
  import Ledger

  // ---------------------------------------------------------------------------------------------
  // Codes
  // ---------------------------------------------------------------------------------------------

  /** One letter, up to its case. */
  predicate SameLetter(x: char, y: char) {
    x == y || ('a' <= x <= 'z' && y as int == x as int - 32) || ('a' <= y <= 'z' && x as int == y as int - 32)
  }

  predicate SameLetters(a: string, b: string) {
    |a| == |b| && forall i :: 0 <= i < |a| ==> SameLetter(a[i], b[i])
  }

  predicate AllBlank(s: string) { forall i :: 0 <= i < |s| ==> Blank(s[i]) }

  /** Neither begins nor ends with a blank. */
  predicate Bare(s: string) { s == "" || (!Blank(s[0]) && !Blank(s[|s| - 1])) }

  /** x is what is left of a without its outer blanks. */
  predicate Strips(a: string, before: string, x: string, after: string) {
    a == before + x + after && AllBlank(before) && AllBlank(after) && Bare(x)
  }

  /** Two texts are one code: equal letters up to case, between blanks. */
  ghost predicate SameCode(a: string, b: string) {
    exists p, x, q, r, y, s :: Strips(a, p, x, q) && Strips(b, r, y, s) && SameLetters(x, y)
  }

  lemma {:induction false} TrimsLeft(p: string, x: string)
    requires AllBlank(p) && (x == "" || !Blank(x[0]))
    ensures TrimLeft(p + x) == x
  {
    if p + x != "" {
      BlankIff((p + x)[0]);
    }
    if p == "" {
      assert p + x == x;
    } else {
      assert (p + x)[1..] == p[1..] + x;
      TrimsLeft(p[1..], x);
    }
  }

  lemma {:induction false} TrimsRight(x: string, q: string)
    requires AllBlank(q) && (x == "" || !Blank(x[|x| - 1]))
    ensures TrimRight(x + q) == x
  {
    if x + q != "" {
      BlankIff((x + q)[|x + q| - 1]);
    }
    if q == "" {
      assert x + q == x;
    } else {
      assert (x + q)[..|x + q| - 1] == x + q[..|q| - 1];
      TrimsRight(x, q[..|q| - 1]);
    }
  }

  lemma {:induction false} BlankVanishes(p: string)
    requires AllBlank(p)
    ensures TrimLeft(p) == ""
  {
    if p != "" {
      BlankIff(p[0]);
      BlankVanishes(p[1..]);
    }
  }

  lemma TrimStrips(a: string, p: string, x: string, q: string)
    requires Strips(a, p, x, q)
    ensures TrimRight(TrimLeft(a)) == x
  {
    if x == "" {
      assert AllBlank(a);
      BlankVanishes(a);
    } else {
      assert a == p + (x + q);
      TrimsLeft(p, x + q);
      TrimsRight(x, q);
    }
  }

  /** Every text has its bare core. */
  lemma {:induction false} Strip(a: string) returns (p: string, x: string, q: string)
    ensures Strips(a, p, x, q)
    decreases |a|
  {
    p, x, q := "", a, "";
    if a != "" && Blank(a[0]) {
      p, x, q := Strip(a[1..]);
      assert a == ([a[0]] + p) + x + q;
      p := [a[0]] + p;
    } else if a != "" && Blank(a[|a| - 1]) {
      p, x, q := Strip(a[..|a| - 1]);
      assert a == p + x + (q + [a[|a| - 1]]);
      q := q + [a[|a| - 1]];
    } else {
      assert a == "" + a + "";
    }
  }

  lemma UpperIff(a: string, b: string)
    ensures Upper(a) == Upper(b) <==> SameLetters(a, b)
  {
    if Upper(a) == Upper(b) {
      assert |Upper(a)| == |a| && |Upper(b)| == |b|;
      forall i | 0 <= i < |a| ensures SameLetter(a[i], b[i]) {
        assert Upper(a)[i] == UpperChar(a[i]) && Upper(b)[i] == UpperChar(b[i]);
      }
    }
  }

  /** WHEN CURRENCIES MATCH. Texts that are present and not empty match if and only if they are one code; outer blanks
      change nothing. */
  lemma MatchIff(a: Option<string>, b: Option<string>)
    ensures CurrenciesMatch(a, b)
            <==> a.Some? && b.Some? && a.value != "" && b.value != "" && SameCode(a.value, b.value)
  {
    if a.Some? && b.Some? {
      var p, x, q := Strip(a.value);
      var r, y, s := Strip(b.value);
      TrimStrips(a.value, p, x, q);
      TrimStrips(b.value, r, y, s);
      UpperIff(x, y);
      forall p', x', q', r', y', s' | Strips(a.value, p', x', q') && Strips(b.value, r', y', s') ensures x' == x
        && y' == y {
        TrimStrips(a.value, p', x', q');
        TrimStrips(b.value, r', y', s');
      }
    }
  }

  /** Two codes without blanks are one when they have one length and the same letters up to case. */
  lemma BareCodes(a: string, b: string)
    requires Bare(a) && Bare(b)
    ensures SameCode(a, b) <==> |a| == |b| && forall i :: 0 <= i < |a| ==> SameLetter(a[i], b[i])
  {
    assert Strips(a, "", a, "") && Strips(b, "", b, "");
    forall p, x, q, r, y, s | Strips(a, p, x, q) && Strips(b, r, y, s) ensures x == a && y == b {
      TrimStrips(a, p, x, q);
      TrimStrips(b, r, y, s);
      TrimStrips(a, "", a, "");
      TrimStrips(b, "", b, "");
    }
  }

  /** The comparison made before the bank is instructed. */
  ghost predicate Conforms(n: Note, r: Row) {
    n.amount == r.amount && n.currency != "" && r.currency != "" && SameCode(n.currency, r.currency)
  }

  lemma AgreeIff(amount: Option<nat>, currency: Option<string>, r: Row)
    ensures LegsAgree(amount, currency, r)
            <==> amount == Some(r.amount) && currency.Some? && currency.value != "" && r.currency != ""
                 && SameCode(currency.value, r.currency)
  {
    MatchIff(currency, Some(r.currency));
  }

  // ---------------------------------------------------------------------------------------------
  // The order never changes
  // ---------------------------------------------------------------------------------------------

  /** The ordered amount and its currency are those of the start; a confirmed payment bears the fee of what was
      collected. */
  predicate Ordered(c: Config, w: World, amount: nat, currency: string)
    requires c.feeQ > 0
  {
    w.row.amount == amount && w.row.currency == currency
    && (w.instruction.Some? && w.row.collected.Some? ==> w.row.fee == Ledger.Fee(w.row.collected.value, c.feeP, c.feeQ))
  }

  lemma NoteOrdered(c: Config, w: World, h: Hook, amount: nat, currency: string)
    requires ValidConfig(c) && Inv(c, w) && Ordered(c, w, amount, currency)
    ensures Ordered(c, ApplyNote(c, w, h), amount, currency)
  {
  }

  predicate SameCore(w: World, v: World) {
    CoreOf(v.row) == CoreOf(w.row) && (v.instruction.Some? <==> w.instruction.Some?)
  }

  lemma ReconcileCore(w: World, e: Row)
    requires CoreOf(e) == CoreOf(w.row)
    ensures var x := Reconcile(w, e); x.Some? ==> SameCore(w, x.value)
  {
    assert CoreOf(ReconciledRow(e)) == CoreOf(w.row);
  }

  lemma ApplyReplyCore(w: World, k: nat, j: Job, abort: bool)
    requires j.Replied? && CoreOf(j.tx) == CoreOf(w.row)
    ensures SameCore(w, ApplyReply(w, k, j, abort))
  {
  }

  lemma SaveCaughtCore(c: Config, w: World, k: nat, j: Job)
    requires (j.Caught? || j.Unsaved?) && CoreOf(j.tx) == CoreOf(w.row) && w.instruction.Some?
    ensures SameCore(w, SaveCaught(c, w, k, j))
  {
  }

  lemma WorkerCore(c: Config, w: World, s: Step)
    requires ValidConfig(c) && Enabled(w, s) && IsWorkerStep(s)
    requires forall k :: k in w.jobs ==> CoreOf(w.jobs[k].tx) == CoreOf(w.row) && w.instruction.Some?
    ensures SameCore(w, Next(c, w, s))
  {
    if s.WorkerApply? {
      ApplyReplyCore(w, s.k, w.jobs[s.k], s.abort);
    } else if s.WorkerReconcile? {
      ReconcileCore(w, w.jobs[s.k].tx);
    } else if s.WorkerSave? && !w.jobs[s.k].Settled? {
      SaveCaughtCore(c, w, s.k, w.jobs[s.k]);
    }
  }

  lemma RecordSuccessCore(w: World, p: nat, t: Try, rollback: Rollback)
    requires t.Answered?
    ensures SameCore(w, RecordSuccess(w, p, t, rollback))
  {
  }

  lemma RecordFailureCore(w: World, p: nat, t: Try)
    requires t.Answered?
    ensures SameCore(w, RecordFailure(w, p, t))
  {
  }

  lemma RefundCore(c: Config, w: World, s: Step)
    requires ValidConfig(c) && Enabled(w, s) && (s.RefundStart? || s.RefundFinish? || s.RefundFind?)
    ensures SameCore(w, Next(c, w, s))
  {
    if s.RefundFinish? {
      RecordSuccessCore(w, s.p, w.tries[s.p], s.rollback);
      RecordFailureCore(w, s.p, w.tries[s.p]);
    }
  }

  lemma OtherCore(c: Config, w: World, s: Step)
    requires ValidConfig(c) && Enabled(w, s) && !IsWorkerStep(s) && !s.HookApply? && !s.RecApply?
    requires !s.RefundStart? && !s.RefundFinish? && !s.RefundFind?
    ensures SameCore(w, Next(c, w, s))
  {
  }

  lemma StepCore(c: Config, w: World, s: Step)
    requires ValidConfig(c) && Inv(c, w) && Enabled(w, s) && !s.HookApply?
    ensures SameCore(w, Next(c, w, s))
  {
    if IsWorkerStep(s) {
      forall k | k in w.jobs ensures CoreOf(w.jobs[k].tx) == CoreOf(w.row) && w.instruction.Some? {
        assert JobOk(c, w, w.jobs[k]);
      }
      WorkerCore(c, w, s);
    } else if s.RecApply? {
      assert RecOk(w, w.recs[s.p]);
      ReconcileCore(w, w.recs[s.p]);
    } else if s.RefundStart? || s.RefundFinish? || s.RefundFind? {
      RefundCore(c, w, s);
    } else {
      OtherCore(c, w, s);
    }
  }

  lemma StepOrdered(c: Config, w: World, s: Step, amount: nat, currency: string)
    requires ValidConfig(c) && Inv(c, w) && Ordered(c, w, amount, currency) && Enabled(w, s)
    ensures Ordered(c, Next(c, w, s), amount, currency)
  {
    if s.HookApply? {
      NoteOrdered(c, w, w.hooks[s.p], amount, currency);
    } else {
      StepCore(c, w, s);
    }
  }

  lemma {:induction false} RunOrdered(c: Config, w: World, steps: seq<Step>, rule: Rule, amount: nat, currency: string)
    requires ValidConfig(c) && Inv(c, w) && Ordered(c, w, amount, currency) && Exec(c, w, steps, rule).Some?
    ensures Ordered(c, Exec(c, w, steps, rule).value, amount, currency)
    decreases |steps|
  {
    if steps != [] {
      StepKeeps(c, w, steps[0]);
      StepOrdered(c, w, steps[0], amount, currency);
      RunOrdered(c, Next(c, w, steps[0]), steps[1..], rule, amount, currency);
    }
  }

  /** THE BANK IS INSTRUCTED OF WHAT WAS ORDERED. In every run, an instruction exists only for a payment of which
      exactly the ordered cents were collected, in the code they were ordered in; and the fee is within half a cent of
      the rate. */
  lemma InstructedAsOrdered(c: Config, amount: nat, currency: string, now: nat, steps: seq<Step>, rule: Rule)
    requires ValidConfig(c) && Exec(c, Start(amount, currency, now), steps, rule).Some?
    requires Exec(c, Start(amount, currency, now), steps, rule).value.instruction.Some?
    ensures var w := Exec(c, Start(amount, currency, now), steps, rule).value;
            w.row.amount == amount && w.row.currency == currency && w.row.collected == Some(amount)
            && w.row.collectedCurrency.Some? && SameCode(w.row.collectedCurrency.value, currency)
            && 2 * (w.row.fee * c.feeQ - amount * c.feeP) <= c.feeQ
               && 2 * (amount * c.feeP - w.row.fee * c.feeQ) <= c.feeQ
  {
    var w := Exec(c, Start(amount, currency, now), steps, rule).value;
    StartInv(c, amount, currency, now);
    RunKeeps(c, Start(amount, currency, now), steps, rule);
    RunOrdered(c, Start(amount, currency, now), steps, rule, amount, currency);
    AgreeIff(w.row.collected, w.row.collectedCurrency, w.row);
    Ledger.FeeBounds(amount, c.feeP, c.feeQ);
  }

  // ---------------------------------------------------------------------------------------------
  // What a fresh notification does
  // ---------------------------------------------------------------------------------------------

  /** The row of a payment that waits for its provider. */
  predicate Waiting(w: World) { w.row.state.bank == Some(BNotStarted) && w.row.state.provider == Some(PPending) }

  lemma FreshGap(c: Config, w: World, n: Note)
    requires ValidConfig(c) && Inv(c, w) && Shape(w.row.state) && Waiting(w) && !n.failed && !Conforms(n, w.row)
    ensures var v := ApplyNote(c, w, Hook(n, w.row));
            v.row.state.bank == Some(BBlocked) && v.row.state.refund == Some(FRequired) && v.instruction == None
            && v.row.collected == Some(n.amount) && v.row.collectedCurrency == Some(n.currency)
            && v.row.state.reconciliation
               == Some(if CurrenciesMatch(Some(n.currency), Some(w.row.currency)) then RAmountMismatch
                       else RCurrencyMismatch)
  {
    AgreeIff(Some(n.amount), Some(n.currency), w.row);
    MismatchIsLegal(w.row.state, MismatchedRow(w.row, n).state);
  }

  lemma FreshMatch(c: Config, w: World, n: Note)
    requires ValidConfig(c) && Inv(c, w) && Shape(w.row.state) && Waiting(w) && !n.failed && Conforms(n, w.row)
    ensures var v := ApplyNote(c, w, Hook(n, w.row));
            v.row.state.bank == Some(BProcessing) && v.row.state.provider == Some(PConfirmed)
            && v.instruction == Some(Instruction(IPending, 0, w.now, w.now))
            && v.row.collected == Some(n.amount) && v.row.collectedCurrency == Some(n.currency)
  {
    AgreeIff(Some(n.amount), Some(n.currency), w.row);
    ConfirmLegal(w.row.state, ConfirmedRow(c, w.row, n).state);
  }

  /** WHAT A NOTIFICATION DECIDES. At any point of any run within leases at which the payment waits for its provider, a
      confirmation handled on the row as it is: for the ordered cents in the ordered code it instructs the bank; for
      anything else it blocks the leg, opens the debt of what was collected, and makes no instruction, and the gap is
      one of currency exactly when the codes differ. */
  lemma NoticeDecides(c: Config, amount: nat, currency: string, now: nat, steps: seq<Step>, rule: Rule, n: Note, p: nat)
    requires ValidConfig(c) && Implies(rule, InLease(c)) && Exec(c, Start(amount, currency, now), steps, rule).Some?
    requires var w := Exec(c, Start(amount, currency, now), steps, rule).value;
             Waiting(w) && p !in w.hooks && n.amount > 0 && !n.failed
    requires n.currency != "" && currency != ""
    ensures var w := Exec(c, Start(amount, currency, now), steps, rule).value;
            var x := Exec(c, w, [HookRead(p, n)] + ([HookApply(p)] + []), InLease(c));
            x.Some? && x.value.row.collected == Some(n.amount) && x.value.row.collectedCurrency == Some(n.currency)
            && if n.amount == amount && SameCode(n.currency, currency)
               then x.value.row.state.bank == Some(BProcessing) && x.value.instruction.Some?
               else x.value.row.state.bank == Some(BBlocked) && x.value.row.state.refund == Some(FRequired)
                    && x.value.instruction == None
                    && (x.value.row.state.reconciliation == Some(RCurrencyMismatch)
                        <==> !SameCode(n.currency, currency))
                    && (x.value.row.state.reconciliation == Some(RAmountMismatch) <==> SameCode(n.currency, currency))
  {
    var w := Exec(c, Start(amount, currency, now), steps, rule).value;
    ReachesLease(c, amount, currency, now, steps, rule);
    StartInv(c, amount, currency, now);
    RunOrdered(c, Start(amount, currency, now), steps, rule, amount, currency);
    ReadsAndApplies(c, w, n, p);
    var u := w.(hooks := w.hooks[p := Hook(n, w.row)]);
    StepKeeps(c, w, HookRead(p, n));
    MatchIff(Some(n.currency), Some(currency));
    if Conforms(n, w.row) {
      FreshMatch(c, u, n);
    } else {
      FreshGap(c, u, n);
    }
  }

  lemma ReadsAndApplies(c: Config, w: World, n: Note, p: nat)
    requires ValidConfig(c) && p !in w.hooks && n.amount > 0
    ensures var u := w.(hooks := w.hooks[p := Hook(n, w.row)]);
            var v := ApplyNote(c, u, Hook(n, w.row));
            Exec(c, w, [HookRead(p, n)] + ([HookApply(p)] + []), InLease(c)) == Some(v.(hooks := v.hooks - {p}))
  {
    var u := w.(hooks := w.hooks[p := Hook(n, w.row)]);
    ExecStep(c, w, HookRead(p, n), [HookApply(p)] + [], InLease(c));
    assert Next(c, w, HookRead(p, n)) == u;
    ExecStep(c, u, HookApply(p), [], InLease(c));
  }
}
