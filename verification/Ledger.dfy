/** Double-entry accounting of monetary facts (src/accounting): posting rules, the journal and its trial
    balance. Amounts are whole cents. */
module Ledger {
  import opened Basics
  import opened Domain

  datatype Account = ProviderFloat | Settlement | CreditorPayable | PayerPayable | FeeRevenue

  datatype Direction = Debit | Credit

  datatype Line = Line(account: Account, direction: Direction, amount: int)

  /** What is known when a fact is posted: ordered amount, observed amount if any, frozen fee. */
  datatype Context = Context(ordered: int, observed: Option<int>, fee: int)

  predicate IsAsset(a: Account) { a == ProviderFloat || a == Settlement }

  /** `balanceOf`: an asset grows with debits, a liability or a revenue with credits. */
  function BalanceOf(a: Account, debits: int, credits: int): int {
    if IsAsset(a) then debits - credits else credits - debits
  }

  // ---------------------------------------------------------------------------------------------
  // The fee
  // ---------------------------------------------------------------------------------------------

  /** `roundToCent(amount * rate)` for a rate p / q: the nearest cent, halves up. */
  function Fee(amount: nat, p: nat, q: nat): nat
    requires q > 0
  {
    (2 * amount * p + q) / (2 * q)
  }

  /** For a rate in [0, 1) the rounded fee is the whole number at most half a cent above the exact fee and less than
      half a cent below it, so that halves are rounded up; it is never negative and never above the amount. */
  lemma FeeBounds(amount: nat, p: nat, q: nat)
    requires p < q
    ensures 0 <= Fee(amount, p, q) <= amount
    ensures 2 * (Fee(amount, p, q) * q - amount * p) <= q && 2 * (amount * p - Fee(amount, p, q) * q) < q
  {
    var n, d := 2 * amount * p + q, 2 * q;
    var f := Fee(amount, p, q);
    assert n == d * f + n % d;
    assert d * f == 2 * (f * q) by { Commute(f, q); }
    assert 2 * amount * p == 2 * (amount * p);
    if f > amount {
      Grow(f, amount + 1, q);
      Grow(q, p + 1, amount);
    }
  }

  lemma Commute(f: int, q: int)
    ensures 2 * q * f == 2 * (f * q)
  {
  }

  lemma Grow(x: nat, y: nat, k: nat)
    requires x >= y
    ensures x * k >= y * k && k * x >= k * y
  {
  }

  // ---------------------------------------------------------------------------------------------
  // Posting rules
  // ---------------------------------------------------------------------------------------------

  function WithoutZeros(lines: seq<Line>): seq<Line> {
    if lines == [] then []
    else (if lines[0].amount > 0 then [lines[0]] else []) + WithoutZeros(lines[1..])
  }

  function Collected(c: Context): int { c.observed.GetOr(c.ordered) }

  /** `POSTING_RULES`, before the filter; facts without a rule have no line. */
  function RuleLines(t: EventType, c: Context): seq<Line> {
    match t
    case ProviderConfirmed =>
      [Line(ProviderFloat, Debit, Collected(c)), Line(CreditorPayable, Credit, Collected(c) - c.fee),
       Line(FeeRevenue, Credit, c.fee)]
    case AmountMismatchDetected =>
      [Line(ProviderFloat, Debit, Collected(c)), Line(PayerPayable, Credit, Collected(c))]
    case SettlementSwept =>
      [Line(Settlement, Debit, Collected(c)), Line(ProviderFloat, Credit, Collected(c))]
    case BankProcessingCompleted =>
      [Line(CreditorPayable, Debit, c.ordered - c.fee), Line(Settlement, Credit, c.ordered - c.fee)]
    case BankProcessingFailed =>
      [Line(CreditorPayable, Debit, c.ordered - c.fee), Line(FeeRevenue, Debit, c.fee),
       Line(PayerPayable, Credit, c.ordered)]
    case RefundCompleted =>
      [Line(PayerPayable, Debit, Collected(c)), Line(ProviderFloat, Credit, Collected(c))]
    case _ => []
  }

  /** The lines `post` writes for a fact. */
  function Posting(channel: PaymentChannel, t: EventType, c: Context): seq<Line> {
    if channel == MobileMoney then WithoutZeros(RuleLines(t, c)) else []
  }

  function Total(lines: seq<Line>, d: Direction): int {
    if lines == [] then 0 else (if lines[0].direction == d then lines[0].amount else 0) + Total(lines[1..], d)
  }

  /** What the lines move on one account, in one direction. */
  function Moved(lines: seq<Line>, a: Account, d: Direction): int {
    if lines == [] then 0
    else (if lines[0].account == a && lines[0].direction == d then lines[0].amount else 0) + Moved(lines[1..], a, d)
  }

  function Balance(lines: seq<Line>, a: Account): int {
    BalanceOf(a, Moved(lines, a, Debit), Moved(lines, a, Credit))
  }

  predicate Balanced(lines: seq<Line>) { Total(lines, Debit) == Total(lines, Credit) }

  predicate Positive(lines: seq<Line>) { forall i :: 0 <= i < |lines| ==> lines[i].amount > 0 }

  /** The fee a rule can absorb: it is taken out of what was collected, or given back out of what was
      ordered. */
  predicate FeeFits(t: EventType, c: Context) {
    match t
    case ProviderConfirmed => 0 <= c.fee <= Collected(c)
    case BankProcessingFailed => 0 <= c.fee <= c.ordered
    case _ => true
  }

  lemma {:induction false} FilterIsPositive(lines: seq<Line>)
    ensures Positive(WithoutZeros(lines))
  {
    if lines != [] {
      FilterIsPositive(lines[1..]);
    }
  }

  /** The filter, line by line, for the two and three lines a rule has. */
  lemma FilterTwo(x: Line, y: Line)
    ensures WithoutZeros([x, y]) == (if x.amount > 0 then [x] else []) + (if y.amount > 0 then [y] else [])
  {
    assert [x, y][1..] == [y] && [y][1..] == [];
    assert WithoutZeros([y]) == if y.amount > 0 then [y] else [];
  }

  lemma FilterThree(x: Line, y: Line, z: Line)
    ensures WithoutZeros([x, y, z]) == (if x.amount > 0 then [x] else []) + WithoutZeros([y, z])
  {
    assert [x, y, z][1..] == [y, z];
  }

  lemma {:induction false} TotalConcat(a: seq<Line>, b: seq<Line>, d: Direction)
    ensures Total(a + b, d) == Total(a, d) + Total(b, d)
  {
    if a == [] {
      assert a + b == b;
    } else {
      assert (a + b)[1..] == a[1..] + b;
      TotalConcat(a[1..], b, d);
    }
  }

  lemma {:induction false} MovedConcat(a: seq<Line>, b: seq<Line>, x: Account, d: Direction)
    ensures Moved(a + b, x, d) == Moved(a, x, d) + Moved(b, x, d)
  {
    if a == [] {
      assert a + b == b;
    } else {
      assert (a + b)[1..] == a[1..] + b;
      MovedConcat(a[1..], b, x, d);
    }
  }

  function Kept(x: Line): int { if x.amount > 0 then x.amount else 0 }

  function On(x: Line, d: Direction): int { if x.direction == d then Kept(x) else 0 }

  lemma TotalTwo(x: Line, y: Line, d: Direction)
    ensures Total(WithoutZeros([x, y]), d) == On(x, d) + On(y, d)
  {
    FilterTwo(x, y);
    var a, b := if x.amount > 0 then [x] else [], if y.amount > 0 then [y] else [];
    TotalConcat(a, b, d);
    assert Total([x], d) == (if x.direction == d then x.amount else 0) + Total([x][1..], d);
    assert Total([y], d) == (if y.direction == d then y.amount else 0) + Total([y][1..], d);
  }

  lemma TotalThree(x: Line, y: Line, z: Line, d: Direction)
    ensures Total(WithoutZeros([x, y, z]), d) == On(x, d) + On(y, d) + On(z, d)
  {
    FilterThree(x, y, z);
    TotalTwo(y, z, d);
    var a := if x.amount > 0 then [x] else [];
    TotalConcat(a, WithoutZeros([y, z]), d);
    assert Total([x], d) == (if x.direction == d then x.amount else 0) + Total([x][1..], d);
  }

  /** BALANCE, EXACTLY. Every line posted is positive; and, the amounts being non-negative, debits equal
      credits even after the zero lines are dropped if and only if the fee fits the rule. */
  lemma PostingBalances(channel: PaymentChannel, t: EventType, c: Context)
    requires c.ordered >= 0 && Collected(c) >= 0
    ensures Positive(Posting(channel, t, c))
    ensures channel == MobileMoney ==> (Balanced(Posting(channel, t, c)) <==> FeeFits(t, c))
  {
    FilterIsPositive(RuleLines(t, c));
    var ls := RuleLines(t, c);
    if |ls| == 3 {
      assert ls == [ls[0], ls[1], ls[2]];
      TotalThree(ls[0], ls[1], ls[2], Debit);
      TotalThree(ls[0], ls[1], ls[2], Credit);
    } else if |ls| == 2 {
      assert ls == [ls[0], ls[1]];
      TotalTwo(ls[0], ls[1], Debit);
      TotalTwo(ls[0], ls[1], Credit);
    }
  }

  /** The journal's rule on a confirmation at a rate in [0, 1): the computed fee always fits. */
  lemma ConfirmationBalances(amount: nat, p: nat, q: nat)
    requires p < q
    ensures Balanced(Posting(MobileMoney, ProviderConfirmed, Context(amount, Some(amount), Fee(amount, p, q))))
    ensures Balanced(Posting(MobileMoney, BankProcessingFailed, Context(amount, None, Fee(amount, p, q))))
  {
    FeeBounds(amount, p, q);
    PostingBalances(MobileMoney, ProviderConfirmed, Context(amount, Some(amount), Fee(amount, p, q)));
    PostingBalances(MobileMoney, BankProcessingFailed, Context(amount, None, Fee(amount, p, q)));
  }

  // ---------------------------------------------------------------------------------------------
  // The journal and its trial balance
  // ---------------------------------------------------------------------------------------------

  datatype Entry = Entry(reference: string, currency: string, eventType: EventType, lines: seq<Line>)

  function LinesOf(entries: seq<Entry>): seq<Line> {
    if entries == [] then [] else LinesOf(entries[..|entries| - 1]) + entries[|entries| - 1].lines
  }

  /** The deferred constraint of the database on each entry. */
  predicate AllBalanced(entries: seq<Entry>) { forall i :: 0 <= i < |entries| ==> Balanced(entries[i].lines) }

  lemma {:induction false} JournalBalances(entries: seq<Entry>)
    requires AllBalanced(entries)
    ensures Balanced(LinesOf(entries))
  {
    if entries != [] {
      var front, last := entries[..|entries| - 1], entries[|entries| - 1];
      JournalBalances(front);
      TotalConcat(LinesOf(front), last.lines, Debit);
      TotalConcat(LinesOf(front), last.lines, Credit);
    }
  }

  function Matches(e: Entry, reference: Option<string>, currency: Option<string>): bool {
    (reference.None? || e.reference == reference.value) && (currency.None? || e.currency == currency.value)
  }

  function Select(entries: seq<Entry>, reference: Option<string>, currency: Option<string>): seq<Entry> {
    if entries == [] then []
    else
      Select(entries[..|entries| - 1], reference, currency)
      + (if Matches(entries[|entries| - 1], reference, currency) then [entries[|entries| - 1]] else [])
  }

  /** The selection keeps, in order, exactly the entries of the reference, if one is given, in the currency, if one is
      given: one entry between two runs of entries is kept or dropped on its own columns alone. */
  lemma {:induction false} SelectIs(a: seq<Entry>, e: Entry, b: seq<Entry>, reference: Option<string>,
                                    currency: Option<string>)
    ensures Select([], reference, currency) == []
    ensures Select(a + [e] + b, reference, currency)
            == Select(a, reference, currency)
               + (if reference in {None, Some(e.reference)} && currency in {None, Some(e.currency)} then [e] else [])
               + Select(b, reference, currency)
    decreases |b|
  {
    if b == [] {
      assert a + [e] + b == a + [e] && (a + [e])[..|a|] == a;
    } else {
      var front, last := b[..|b| - 1], b[|b| - 1];
      var whole := a + [e] + b;
      assert whole[..|whole| - 1] == a + [e] + front && whole[|whole| - 1] == last;
      SelectIs(a, e, front, reference, currency);
    }
  }

  lemma {:induction false} SelectKeeps(entries: seq<Entry>, reference: Option<string>, currency: Option<string>)
    requires AllBalanced(entries)
    ensures AllBalanced(Select(entries, reference, currency))
  {
    if entries != [] {
      SelectKeeps(entries[..|entries| - 1], reference, currency);
    }
  }

  /** One row of `SELECT account, direction, SUM(amount) ... GROUP BY account, direction`. */
  datatype Row = Row(account: Account, direction: Direction, total: int)

  datatype Bucket = Bucket(debits: int, credits: int)

  predicate HasKey(rows: seq<Row>, a: Account, d: Direction) {
    exists i :: 0 <= i < |rows| && rows[i].account == a && rows[i].direction == d
  }

  /** The rows, in whatever order the database returns them, are the grouping of the lines. */
  ghost predicate IsGrouping(rows: seq<Row>, lines: seq<Line>) {
    (forall i, j :: 0 <= i < j < |rows| ==>
       !(rows[i].account == rows[j].account && rows[i].direction == rows[j].direction))
    && (forall i :: 0 <= i < |rows| ==> rows[i].total == Moved(lines, rows[i].account, rows[i].direction))
    && (forall a, d :: HasKey(rows, a, d) <==> Touches(lines, a, d))
  }

  predicate Touches(lines: seq<Line>, a: Account, d: Direction) {
    exists i :: 0 <= i < |lines| && lines[i].account == a && lines[i].direction == d
  }

  lemma {:induction false} MovedAbsent(lines: seq<Line>, a: Account, d: Direction)
    requires !Touches(lines, a, d)
    ensures Moved(lines, a, d) == 0
  {
    if lines != [] {
      assert forall i :: 0 <= i < |lines[1..]| ==> lines[1..][i] == lines[i + 1];
      MovedAbsent(lines[1..], a, d);
    }
  }

  /** The account has a line. */
  predicate Appears(lines: seq<Line>, a: Account) { Touches(lines, a, Debit) || Touches(lines, a, Credit) }

  function RowSum(rows: seq<Row>, a: Account, d: Direction): int {
    if rows == [] then 0
    else RowSum(rows[..|rows| - 1], a, d)
         + (if rows[|rows| - 1].account == a && rows[|rows| - 1].direction == d then rows[|rows| - 1].total else 0)
  }

  lemma {:induction false} RowSumAbsent(rows: seq<Row>, a: Account, d: Direction)
    requires !HasKey(rows, a, d)
    ensures RowSum(rows, a, d) == 0
  {
    if rows != [] {
      var front := rows[..|rows| - 1];
      assert forall i :: 0 <= i < |front| ==> front[i] == rows[i];
      RowSumAbsent(front, a, d);
      assert !(rows[|rows| - 1].account == a && rows[|rows| - 1].direction == d);
    }
  }

  lemma {:induction false} RowSumPresent(rows: seq<Row>, i: nat)
    requires i < |rows|
    requires forall j :: 0 <= j < |rows| && j != i ==>
               !(rows[i].account == rows[j].account && rows[i].direction == rows[j].direction)
    ensures RowSum(rows, rows[i].account, rows[i].direction) == rows[i].total
  {
    var front := rows[..|rows| - 1];
    if i == |front| {
      RowSumAbsent(front, rows[i].account, rows[i].direction);
    } else {
      RowSumPresent(front, i);
    }
  }

  lemma GroupingSums(rows: seq<Row>, lines: seq<Line>, a: Account, d: Direction)
    requires IsGrouping(rows, lines)
    ensures RowSum(rows, a, d) == Moved(lines, a, d)
  {
    if HasKey(rows, a, d) {
      var i :| 0 <= i < |rows| && rows[i].account == a && rows[i].direction == d;
      RowSumPresent(rows, i);
    } else {
      RowSumAbsent(rows, a, d);
      MovedAbsent(lines, a, d);
    }
  }

  const ACCOUNTS: seq<Account> := [CreditorPayable, FeeRevenue, PayerPayable, ProviderFloat, Settlement]

  /** The debits, or the credits, of the five accounts together. */
  function OverAccounts(lines: seq<Line>, d: Direction): int {
    Moved(lines, CreditorPayable, d) + Moved(lines, FeeRevenue, d) + Moved(lines, PayerPayable, d)
    + Moved(lines, ProviderFloat, d) + Moved(lines, Settlement, d)
  }

  lemma {:induction false} AccountsPartition(lines: seq<Line>, d: Direction)
    ensures OverAccounts(lines, d) == Total(lines, d)
  {
    if lines != [] {
      AccountsPartition(lines[1..], d);
    }
  }

  function BucketOf(m: map<Account, Bucket>, a: Account): Bucket {
    if a in m then m[a] else Bucket(0, 0)
  }

  /** The accumulation loop of `trialBalance`. */
  method Accumulate(rows: seq<Row>) returns (byAccount: map<Account, Bucket>)
    ensures forall a :: BucketOf(byAccount, a) == Bucket(RowSum(rows, a, Debit), RowSum(rows, a, Credit))
    ensures forall a :: a in byAccount <==> HasKey(rows, a, Debit) || HasKey(rows, a, Credit)
  {
    byAccount := map[];
    for i := 0 to |rows|
      invariant forall a :: a in byAccount <==> exists k :: 0 <= k < i && rows[k].account == a
      invariant forall a :: BucketOf(byAccount, a) == Bucket(RowSum(rows[..i], a, Debit), RowSum(rows[..i], a, Credit))
    {
      var row := rows[i];
      var bucket := if row.account in byAccount then byAccount[row.account] else Bucket(0, 0);
      assert bucket == BucketOf(byAccount, row.account);
      assert rows[..i + 1][..i] == rows[..i];
      bucket := if row.direction == Debit then bucket.(debits := bucket.debits + row.total)
                else bucket.(credits := bucket.credits + row.total);
      byAccount := byAccount[row.account := bucket];
    }
    assert rows[..|rows|] == rows;
    forall a ensures a in byAccount <==> HasKey(rows, a, Debit) || HasKey(rows, a, Credit) {
      if a in byAccount {
        var k :| 0 <= k < |rows| && rows[k].account == a;
        assert HasKey(rows, a, rows[k].direction);
      }
    }
  }

  datatype Trial = Trial(balances: map<Account, int>, totalDebits: int, totalCredits: int, difference: int)

  datatype TrialError = MixedCurrencies

  datatype PostError = Unbalanced

  predicate OneCurrency(entries: seq<Entry>) {
    forall i, j :: 0 <= i < j < |entries| ==> entries[i].currency == entries[j].currency
  }

  class Journal {
    var entries: seq<Entry>

    constructor ()
      ensures entries == []
    {
      entries := [];
    }

    /** `post`: nothing for a foreign channel, a fact without rule, or no line left after the filter. An
        entry out of balance is refused by the deferred constraint, which takes the fact with it. */
    method Post(channel: PaymentChannel, reference: string, currency: string, t: EventType, c: Context)
        returns (posted: Result<Option<Entry>, PostError>)
      requires AllBalanced(entries)
      modifies this
      ensures AllBalanced(entries)
      ensures posted.Ok? ==> LinesOf(entries) == old(LinesOf(entries)) + Posting(channel, t, c)
      ensures posted.Err? ==> entries == old(entries)
      ensures posted.Err? <==> !Balanced(Posting(channel, t, c))
      ensures posted.Ok? ==> (posted.value.Some? <==> Posting(channel, t, c) != [])
      ensures posted.Ok? && posted.value.Some? ==>
                entries == old(entries) + [posted.value.value]
                && posted.value.value == Entry(reference, currency, t, Posting(channel, t, c))
    {
      if channel != MobileMoney {
        return Ok(None);
      }
      var lines := WithoutZeros(RuleLines(t, c));
      if |lines| == 0 {
        return Ok(None);
      }
      if Total(lines, Debit) != Total(lines, Credit) {
        return Err(Unbalanced);
      }
      var entry := Entry(reference, currency, t, lines);
      assert (entries + [entry])[..|entries|] == entries;
      entries := entries + [entry];
      posted := Ok(Some(entry));
    }

    /** `trialBalance`: on balanced entries the difference is zero, and exactly the accounts that have lines are listed,
        each with what its lines moved. Refused only for a global balance over several currencies. */
    method TrialBalance(reference: Option<string>, currency: Option<string>, rows: seq<Row>)
        returns (r: Result<Trial, TrialError>)
      requires AllBalanced(entries)
      requires IsGrouping(rows, LinesOf(Select(entries, reference, currency)))
      ensures r.Err?
              <==> currency.None? && reference.None?
                   && exists i, j :: 0 <= i < j < |entries| && entries[i].currency != entries[j].currency
      ensures r.Ok? ==> r.value.difference == 0
      ensures var lines := LinesOf(Select(entries, reference, currency));
              r.Ok? ==> r.value.totalDebits == Total(lines, Debit)
                        && (forall a :: a in r.value.balances <==> Appears(lines, a))
                        && (forall a :: a in r.value.balances ==> r.value.balances[a] == Balance(lines, a))
    {
      if currency.None? && reference.None? && !OneCurrency(entries) {
        return Err(MixedCurrencies);
      }
      ghost var lines := LinesOf(Select(entries, reference, currency));
      var byAccount := Accumulate(rows);
      forall a ensures BucketOf(byAccount, a) == Bucket(Moved(lines, a, Debit), Moved(lines, a, Credit)) {
        GroupingSums(rows, lines, a, Debit);
        GroupingSums(rows, lines, a, Credit);
      }
      SelectKeeps(entries, reference, currency);
      JournalBalances(Select(entries, reference, currency));
      var trial := Summarise(byAccount, lines);
      r := Ok(trial);
    }
  }

  /** The balances and totals of `trialBalance`, account by account. */
  method Summarise(byAccount: map<Account, Bucket>, ghost lines: seq<Line>) returns (trial: Trial)
    requires forall a :: BucketOf(byAccount, a) == Bucket(Moved(lines, a, Debit), Moved(lines, a, Credit))
    ensures trial.totalDebits == Total(lines, Debit) && trial.totalCredits == Total(lines, Credit)
    ensures trial.difference == trial.totalDebits - trial.totalCredits
    ensures trial.balances.Keys == byAccount.Keys
    ensures forall a :: a in trial.balances ==> trial.balances[a] == Balance(lines, a)
  {
    var balances: map<Account, int> := map[];
    var totalDebits, totalCredits := 0, 0;
    for i := 0 to |ACCOUNTS|
      invariant forall k :: 0 <= k < i && ACCOUNTS[k] in byAccount ==> ACCOUNTS[k] in balances
      invariant balances.Keys <= byAccount.Keys
      invariant forall a :: a in balances ==> balances[a] == Balance(lines, a)
      invariant totalDebits == Upto(lines, Debit, i) && totalCredits == Upto(lines, Credit, i)
    {
      var a := ACCOUNTS[i];
      var bucket := if a in byAccount then byAccount[a] else Bucket(0, 0);
      assert bucket == BucketOf(byAccount, a);
      if a in byAccount {
        balances := balances[a := BalanceOf(a, bucket.debits, bucket.credits)];
      }
      totalDebits := totalDebits + bucket.debits;
      totalCredits := totalCredits + bucket.credits;
    }
    UptoAll(lines, Debit);
    UptoAll(lines, Credit);
    AccountsPartition(lines, Debit);
    AccountsPartition(lines, Credit);
    forall a | a in byAccount ensures a in balances {
      EveryAccount(a);
    }
    trial := Trial(balances, totalDebits, totalCredits, totalDebits - totalCredits);
  }

  lemma EveryAccount(a: Account)
    ensures a in ACCOUNTS
  {
    var k := match a case CreditorPayable => 0 case FeeRevenue => 1 case PayerPayable => 2 case ProviderFloat => 3
             case Settlement => 4;
    assert ACCOUNTS[k] == a;
  }

  function Upto(lines: seq<Line>, d: Direction, n: nat): int
    requires n <= |ACCOUNTS|
  {
    if n == 0 then 0 else Upto(lines, d, n - 1) + Moved(lines, ACCOUNTS[n - 1], d)
  }

  lemma UptoAll(lines: seq<Line>, d: Direction)
    ensures Upto(lines, d, |ACCOUNTS|) == OverAccounts(lines, d)
  {
    assert Upto(lines, d, 1) == Upto(lines, d, 0) + Moved(lines, ACCOUNTS[0], d);
    assert Upto(lines, d, 2) == Upto(lines, d, 1) + Moved(lines, ACCOUNTS[1], d);
    assert Upto(lines, d, 3) == Upto(lines, d, 2) + Moved(lines, ACCOUNTS[2], d);
    assert Upto(lines, d, 4) == Upto(lines, d, 3) + Moved(lines, ACCOUNTS[3], d);
    assert Upto(lines, d, 5) == Upto(lines, d, 4) + Moved(lines, ACCOUNTS[4], d);
  }
}
