/** The six-dimension state machine of src/transactions/state: transition tables, cross-dimension
    invariants, and what they enforce over whole histories. */
module StateMachine {
  import opened Basics
  import opened Domain

  datatype State = State(
    status: TransactionStatus,
    provider: Option<ProviderStatus>, bank: Option<BankStatus>,
    reconciliation: Option<ReconciliationStatus>, refund: Option<RefundStatus>, case_: Option<CaseStatus>,
    channel: PaymentChannel)

  datatype Dimension = DStatus | DProvider | DBank | DReconciliation | DRefund | DCase

  const DIMENSIONS: seq<Dimension> := [DStatus, DProvider, DBank, DReconciliation, DRefund, DCase]

  /** A value of some dimension, or null. */
  datatype Value =
    | Null
    | Status(s: TransactionStatus) | Provider(p: ProviderStatus) | Bank(b: BankStatus)
    | Reconciliation(r: ReconciliationStatus) | Refund(f: RefundStatus) | Case(c: CaseStatus)

  function At(x: State, d: Dimension): Value {
    match d
    case DStatus => Status(x.status)
    case DProvider => if x.provider.Some? then Provider(x.provider.value) else Null
    case DBank => if x.bank.Some? then Bank(x.bank.value) else Null
    case DReconciliation => if x.reconciliation.Some? then Reconciliation(x.reconciliation.value) else Null
    case DRefund => if x.refund.Some? then Refund(x.refund.value) else Null
    case DCase => if x.case_.Some? then Case(x.case_.value) else Null
  }

  /** `TRANSITIONS`: a value without entry is terminal. */
  function Allowed(v: Value): set<Value> {
    match v
    case Status(StPending) => {Status(StProcessing), Status(StCompleted), Status(StFailed)}
    case Status(StProcessing) => {Status(StCompleted), Status(StFailed)}
    case Provider(PInitiated) => {Provider(PPending), Provider(PConfirmed), Provider(PFailed)}
    case Provider(PPending) => {Provider(PConfirmed), Provider(PFailed)}
    case Bank(BNotStarted) => {Bank(BProcessing), Bank(BBlocked)}
    case Bank(BProcessing) => {Bank(BCompleted), Bank(BFailed)}
    case Reconciliation(RPending) =>
      {Reconciliation(RMatched), Reconciliation(RMismatch), Reconciliation(RAmountMismatch),
       Reconciliation(RCurrencyMismatch), Reconciliation(RNotApplicable), Reconciliation(RManualReview)}
    case Reconciliation(RManualReview) =>
      {Reconciliation(RMatched), Reconciliation(RMismatch), Reconciliation(RPending)}
    case Reconciliation(RMismatch) => {Reconciliation(RManualReview)}
    case Refund(FNotRequired) => {Refund(FRequired)}
    case Refund(FRequired) => {Refund(FRequested), Refund(FCompleted), Refund(FFailed)}
    case Refund(FRequested) => {Refund(FCompleted), Refund(FFailed)}
    case Refund(FFailed) => {Refund(FRequested), Refund(FRequired), Refund(FCompleted)}
    case Case(CNone) => {Case(CManualReview)}
    case Case(CManualReview) => {Case(CResolved)}
    case _ => {}
  }

  predicate Terminal(v: Value) { v != Null && Allowed(v) == {} }

  /** Rewriting a value, writing null, or leaving null is never refused. */
  predicate MoveOk(from: Value, to: Value) {
    from == to || to == Null || from == Null || to in Allowed(from)
  }

  datatype Invariant =
    | BankRequiresConfirmation | RefundRequiresCollection | ResolvedRequiresExtinctDebt
    | MatchedRequiresBothLegs | BlockedImpliesGap

  const INVARIANTS: seq<Invariant> := [
    BankRequiresConfirmation, RefundRequiresCollection, ResolvedRequiresExtinctDebt, MatchedRequiresBothLegs,
    BlockedImpliesGap]

  predicate Holds(i: Invariant, x: State) {
    match i
    case BankRequiresConfirmation =>
      x.channel != MobileMoney || x.bank.None? || x.bank == Some(BNotStarted) || x.provider == Some(PConfirmed)
    case RefundRequiresCollection =>
      x.channel != MobileMoney || x.refund.None?
      || x.refund.value !in {FRequired, FRequested, FCompleted, FFailed} || x.provider == Some(PConfirmed)
    case ResolvedRequiresExtinctDebt =>
      x.case_ != Some(CResolved) || x.refund == Some(FCompleted) || x.refund == Some(FNotRequired) || x.refund.None?
    case MatchedRequiresBothLegs =>
      x.reconciliation != Some(RMatched) || x.channel != MobileMoney
      || (x.provider == Some(PConfirmed) && x.bank == Some(BCompleted))
    case BlockedImpliesGap =>
      x.bank != Some(BBlocked) || x.reconciliation == Some(RAmountMismatch)
        || x.reconciliation == Some(RCurrencyMismatch)
  }

  predicate Sound(x: State) { forall i :: Holds(i, x) }

  /** What `assertTransition` lets through. */
  predicate Legal(before: State, after: State) {
    (forall d :: Moves(before, after, d)) && Sound(after)
  }

  datatype Violation = IllegalMove(d: Dimension, from: Value, to: Value, terminal: bool) | Broken(i: Invariant)

  function Refusal(before: State, after: State, d: Dimension): Violation {
    IllegalMove(d, At(before, d), At(after, d), Allowed(At(before, d)) == {})
  }

  predicate Moves(before: State, after: State, d: Dimension) { MoveOk(At(before, d), At(after, d)) }

  /** The violations of the first n dimensions, in order. */
  function Illegal(before: State, after: State, n: nat): seq<Violation>
    requires n <= |DIMENSIONS|
  {
    if n == 0 then []
    else
      var d := DIMENSIONS[n - 1];
      Illegal(before, after, n - 1) + (if Moves(before, after, d) then [] else [Refusal(before, after, d)])
  }

  function BrokenInvariants(x: State, n: nat): seq<Violation>
    requires n <= |INVARIANTS|
  {
    if n == 0 then []
    else BrokenInvariants(x, n - 1) + (if Holds(INVARIANTS[n - 1], x) then [] else [Broken(INVARIANTS[n - 1])])
  }

  /** `illegalMoves`: the loop over the dimensions. */
  method IllegalMoves(before: State, after: State) returns (violations: seq<Violation>)
    ensures violations == Illegal(before, after, |DIMENSIONS|)
  {
    violations := [];
    for k := 0 to |DIMENSIONS|
      invariant violations == Illegal(before, after, k)
    {
      var from, to := At(before, DIMENSIONS[k]), At(after, DIMENSIONS[k]);
      if from == to || to == Null || from == Null {
        continue;
      }
      if to !in Allowed(from) {
        violations := violations + [IllegalMove(DIMENSIONS[k], from, to, Allowed(from) == {})];
      }
    }
  }

  /** `assertTransition`: reports every violation, and none exactly when the passage is legal. */
  method AssertTransition(before: State, after: State) returns (violations: seq<Violation>)
    ensures violations == [] <==> Legal(before, after)
    ensures forall d :: Refusal(before, after, d) in violations <==> !Moves(before, after, d)
    ensures forall i :: Broken(i) in violations <==> !Holds(i, after)
  {
    var moves := IllegalMoves(before, after);
    var broken := BrokenInvariants(after, |INVARIANTS|);
    IllegalComplete(before, after);
    BrokenComplete(after);
    violations := moves + broken;
    if violations == [] {
      forall d ensures Moves(before, after, d) {
        assert Refusal(before, after, d) !in moves;
      }
      forall i ensures Holds(i, after) {
        assert Broken(i) !in broken;
      }
    } else {
      var v := violations[0];
      assert v in violations;
      if v.IllegalMove? {
        assert v in moves;
        assert !Moves(before, after, v.d);
      } else {
        assert v in broken;
        assert !Holds(v.i, after);
      }
    }
  }

  function Place(d: Dimension): (k: nat)
    ensures k < |DIMENSIONS| && DIMENSIONS[k] == d
  {
    match d
    case DStatus => 0 case DProvider => 1 case DBank => 2 case DReconciliation => 3 case DRefund => 4 case DCase => 5
  }

  lemma {:induction false} IllegalShape(before: State, after: State, n: nat)
    requires n <= |DIMENSIONS|
    ensures forall v :: v in Illegal(before, after, n) ==>
              v.IllegalMove? && !Moves(before, after, v.d) && v == Refusal(before, after, v.d)
    ensures forall k :: 0 <= k < n && !Moves(before, after, DIMENSIONS[k]) ==>
              Refusal(before, after, DIMENSIONS[k]) in Illegal(before, after, n)
  {
    if n > 0 {
      IllegalShape(before, after, n - 1);
    }
  }

  lemma IllegalComplete(before: State, after: State)
    ensures forall v :: v in Illegal(before, after, |DIMENSIONS|) ==>
              v.IllegalMove? && !Moves(before, after, v.d)
    ensures forall d :: Refusal(before, after, d) in Illegal(before, after, |DIMENSIONS|)
                        <==> !Moves(before, after, d)
  {
    IllegalShape(before, after, |DIMENSIONS|);
    forall d ensures Refusal(before, after, d) in Illegal(before, after, |DIMENSIONS|) <==> !Moves(before, after, d) {
      assert DIMENSIONS[Place(d)] == d;
    }
  }

  function Rank(i: Invariant): (k: nat)
    ensures k < |INVARIANTS| && INVARIANTS[k] == i
  {
    match i
    case BankRequiresConfirmation => 0 case RefundRequiresCollection => 1 case ResolvedRequiresExtinctDebt => 2
    case MatchedRequiresBothLegs => 3 case BlockedImpliesGap => 4
  }

  lemma {:induction false} BrokenShape(x: State, n: nat)
    requires n <= |INVARIANTS|
    ensures forall v :: v in BrokenInvariants(x, n) ==> v.Broken? && !Holds(v.i, x)
    ensures forall k :: 0 <= k < n && !Holds(INVARIANTS[k], x) ==> Broken(INVARIANTS[k]) in BrokenInvariants(x, n)
  {
    if n > 0 {
      BrokenShape(x, n - 1);
    }
  }

  lemma BrokenComplete(x: State)
    ensures forall v :: v in BrokenInvariants(x, |INVARIANTS|) ==> v.Broken? && !Holds(v.i, x)
    ensures forall i :: Broken(i) in BrokenInvariants(x, |INVARIANTS|) <==> !Holds(i, x)
  {
    BrokenShape(x, |INVARIANTS|);
    forall i ensures Broken(i) in BrokenInvariants(x, |INVARIANTS|) <==> !Holds(i, x) {
      assert INVARIANTS[Rank(i)] == i;
    }
  }

  // ---------------------------------------------------------------------------------------------
  // Over whole histories
  // ---------------------------------------------------------------------------------------------

  predicate LegalHistory(h: seq<State>) {
    forall k :: 0 <= k < |h| - 1 ==> Legal(h[k], h[k + 1])
  }

  /** TERMINAL VALUES ABSORB. Along any history of legal passages, a dimension that holds a terminal value
      still holds it later, unless it was null at some moment in between. */
  lemma {:induction false} TerminalAbsorbs(h: seq<State>, d: Dimension, i: nat, j: nat)
    requires LegalHistory(h) && i <= j < |h| && Terminal(At(h[i], d))
    ensures At(h[j], d) == At(h[i], d) || exists k :: i < k <= j && At(h[k], d) == Null
  {
    if i < j {
      TerminalAbsorbs(h, d, i, j - 1);
      assert Legal(h[j - 1], h[j]);
      assert Moves(h[j - 1], h[j], d);
    }
  }

  /** The exception is real: two legal passages through null undo a completed bank leg. */
  lemma NullUndoesTerminal()
    ensures var x := State(StCompleted, Some(PConfirmed), Some(BCompleted), Some(RMatched), Some(FNotRequired),
                           Some(CNone), MobileMoney);
            var y := x.(bank := None, reconciliation := None);
            var z := y.(bank := Some(BNotStarted));
            Terminal(At(x, DBank)) && Legal(x, y) && Legal(y, z) && At(z, DBank) != At(x, DBank)
  {
    var x := State(StCompleted, Some(PConfirmed), Some(BCompleted), Some(RMatched), Some(FNotRequired),
                   Some(CNone), MobileMoney);
    var y := x.(bank := None, reconciliation := None);
    var z := y.(bank := Some(BNotStarted));
    forall d ensures Moves(x, y, d) && Moves(y, z, d) {
    }
  }

  /** A payment row of the Mobile Money channel never holds a null. */
  predicate Filled(x: State) {
    x.provider.Some? && x.bank.Some? && x.reconciliation.Some? && x.refund.Some? && x.case_.Some?
  }

  /** THE PROTOCOL IS IRREVERSIBLE. Along any legal history of filled rows, a collected payment stays
      collected, a settled, failed or blocked bank leg and a paid refund stay so, and no state is unsound. */
  lemma FilledHistory(h: seq<State>, d: Dimension, i: nat, j: nat)
    requires LegalHistory(h) && (forall k :: 0 <= k < |h| ==> Filled(h[k]))
    requires i < j < |h|
    ensures Terminal(At(h[i], d)) ==> At(h[j], d) == At(h[i], d)
    ensures Sound(h[j])
  {
    if Terminal(At(h[i], d)) {
      TerminalAbsorbs(h, d, i, j);
    }
    assert Legal(h[j - 1], h[j]);
  }

  // ---------------------------------------------------------------------------------------------
  // The passages, listed
  // ---------------------------------------------------------------------------------------------

  /** A column keeps its value, takes or leaves null, or follows one of the arrows. */
  predicate Follows<T(==)>(x: Option<T>, y: Option<T>, arrows: set<(T, T)>) {
    x == y || x == None || y == None || (x.value, y.value) in arrows
  }

  const STATUS_ARROWS := {(StPending, StProcessing), (StPending, StCompleted), (StPending, StFailed),
                          (StProcessing, StCompleted), (StProcessing, StFailed)}

  const PROVIDER_ARROWS := {(PInitiated, PPending), (PInitiated, PConfirmed), (PInitiated, PFailed),
                            (PPending, PConfirmed), (PPending, PFailed)}

  const BANK_ARROWS := {(BNotStarted, BProcessing), (BNotStarted, BBlocked), (BProcessing, BCompleted),
                        (BProcessing, BFailed)}

  const RECONCILIATION_ARROWS := {(RPending, RMatched), (RPending, RMismatch), (RPending, RAmountMismatch),
                                  (RPending, RCurrencyMismatch), (RPending, RNotApplicable), (RPending, RManualReview),
                                  (RManualReview, RMatched), (RManualReview, RMismatch), (RManualReview, RPending),
                                  (RMismatch, RManualReview)}

  const REFUND_ARROWS := {(FNotRequired, FRequired), (FRequired, FRequested), (FRequired, FCompleted),
                          (FRequired, FFailed), (FRequested, FCompleted), (FRequested, FFailed), (FFailed, FRequested),
                          (FFailed, FRequired), (FFailed, FCompleted)}

  const CASE_ARROWS := {(CNone, CManualReview), (CManualReview, CResolved)}

  lemma FollowsIff(a: State, b: State)
    ensures Moves(a, b, DStatus) <==> Follows(Some(a.status), Some(b.status), STATUS_ARROWS)
    ensures Moves(a, b, DProvider) <==> Follows(a.provider, b.provider, PROVIDER_ARROWS)
    ensures Moves(a, b, DBank) <==> Follows(a.bank, b.bank, BANK_ARROWS)
    ensures Moves(a, b, DReconciliation) <==> Follows(a.reconciliation, b.reconciliation, RECONCILIATION_ARROWS)
    ensures Moves(a, b, DRefund) <==> Follows(a.refund, b.refund, REFUND_ARROWS)
    ensures Moves(a, b, DCase) <==> Follows(a.case_, b.case_, CASE_ARROWS)
  {
  }

  /** On Mobile Money, nothing but a confirmed collection is instructed, refunded or matched; a case is resolved once
      nothing is owed; a match needs a completed transfer; and a blocked one has its named gap. */
  predicate Consistent(x: State) {
    var confirmed := x.provider == Some(PConfirmed);
    (x.channel == MobileMoney && x.bank in {Some(BProcessing), Some(BCompleted), Some(BFailed), Some(BBlocked)} ==>
       confirmed)
    && (x.channel == MobileMoney && x.refund in {Some(FRequired), Some(FRequested), Some(FCompleted), Some(FFailed)} ==>
          confirmed)
    && (x.case_ == Some(CResolved) ==> x.refund !in {Some(FRequired), Some(FRequested), Some(FFailed)})
    && (x.channel == MobileMoney && x.reconciliation == Some(RMatched) ==> confirmed && x.bank == Some(BCompleted))
    && (x.bank == Some(BBlocked) ==> x.reconciliation in {Some(RAmountMismatch), Some(RCurrencyMismatch)})
  }

  lemma ConsistentIff(x: State)
    ensures Sound(x) <==> Consistent(x)
  {
    if Sound(x) {
      assert Holds(BankRequiresConfirmation, x) && Holds(RefundRequiresCollection, x)
             && Holds(MatchedRequiresBothLegs, x);
      assert Holds(ResolvedRequiresExtinctDebt, x) && Holds(BlockedImpliesGap, x);
    }
    if x.bank.Some? {
      EveryBank(x.bank.value);
    }
    if x.refund.Some? {
      EveryRefund(x.refund.value);
    }
  }

  lemma EveryBank(b: BankStatus)
    ensures b in {BNotStarted, BProcessing, BCompleted, BFailed, BBlocked}
  {
    match b case BNotStarted => case BProcessing => case BCompleted => case BFailed => case BBlocked =>
  }

  lemma EveryRefund(f: RefundStatus)
    ensures f in {FNotRequired, FRequired, FRequested, FCompleted, FFailed}
  {
    match f case FNotRequired => case FRequired => case FRequested => case FCompleted => case FFailed =>
  }

  /** THE PASSAGES, LISTED. A passage is let through if and only if each column follows its arrows, and what it leads to
      is consistent. */
  lemma LegalIff(a: State, b: State)
    ensures Legal(a, b)
            <==> Follows(Some(a.status), Some(b.status), STATUS_ARROWS)
                 && Follows(a.provider, b.provider, PROVIDER_ARROWS)
                 && Follows(a.bank, b.bank, BANK_ARROWS)
                 && Follows(a.reconciliation, b.reconciliation, RECONCILIATION_ARROWS)
                 && Follows(a.refund, b.refund, REFUND_ARROWS)
                 && Follows(a.case_, b.case_, CASE_ARROWS)
                 && Consistent(b)
  {
    FollowsIff(a, b);
    ConsistentIff(b);
    if Legal(a, b) {
      assert Moves(a, b, DStatus) && Moves(a, b, DProvider) && Moves(a, b, DBank) && Moves(a, b, DReconciliation)
             && Moves(a, b, DRefund) && Moves(a, b, DCase);
    }
  }
}
