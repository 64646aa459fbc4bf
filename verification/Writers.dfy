/** Every interleaving of concurrent writers of one registry chain. Each writer runs inside its own SQL
    transaction: its rows are invisible to the others until it commits, but the unique indexes make a
    conflicting insertion wait for that transaction to end. */
module Writers {
  import opened Basics
  import opened Domain
  import opened Registry

  /** Where a writer stands in `record`. `start` remembers how many events it could see when it began. */
  datatype Proc =
    | Idle
    | Reading(input: Input, attempt: nat, start: nat)
    | Drafted(input: Input, attempt: nat, start: nat, previous: Option<Event>)
    | GaveUp(start: nat)

  datatype State = State(committed: seq<Event>, pending: map<nat, seq<Event>>, procs: map<nat, Proc>)

  datatype Step =
    | Begin(p: nat, input: Input)
    | BeginClose(p: nat, input: Input)
    | Read(p: nat)
    | Insert(p: nat, id: string, salt: Word)
    | Commit(p: nat)
    | Rollback(p: nat)

  const INITIAL := State([], map[], map[])

  function Pend(s: State, p: nat): seq<Event> {
    if p in s.pending then s.pending[p] else []
  }

  function ProcOf(s: State, p: nat): Proc {
    if p in s.procs then s.procs[p] else Idle
  }

  /** What a writer sees: the committed rows and its own. */
  function Visible(s: State, p: nat): seq<Event> { s.committed + Pend(s, p) }

  /** Another open transaction holds a row that conflicts on one of the two unique indexes. */
  predicate Blocked(s: State, p: nat, rank: int, closing: bool) {
    exists q :: q in s.pending && q != p && (RankTaken(s.pending[q], rank) || (closing && HasClosure(s.pending[q])))
  }

  function InsertStep(sc: Scheme, s: State, p: nat, d: Proc, id: string, salt: Word): State
    requires d.Drafted?
  {
    match InsertResult(sc, Visible(s, p), d.previous, d.input, id, salt)
    case Ok(event) => s.(pending := s.pending[p := Pend(s, p) + [event]], procs := s.procs[p := Idle])
    case Err(SequenceCollision) =>
      s.(procs := s.procs[p := if d.attempt < MAX_SEQUENCE_ATTEMPTS
                               then Reading(d.input, d.attempt + 1, d.start) else GaveUp(d.start)])
    case Err(_) => s.(procs := s.procs[p := Idle])
  }

  /** One step; None when it is not enabled. */
  function Apply(sc: Scheme, s: State, step: Step): Option<State> {
    match step
    case Begin(p, input) =>
      if ProcOf(s, p).Idle? && input.eventType != CaseClosed
      then Some(s.(procs := s.procs[p := Reading(input, 1, |Visible(s, p)|)])) else None
    case BeginClose(p, input) =>
      if !ProcOf(s, p).Idle? || input.eventType != CaseClosed then None
      else if Visible(s, p) == [] || HasClosure(Visible(s, p)) then Some(s)
      else Some(s.(procs := s.procs[p := Reading(input, 1, |Visible(s, p)|)]))
    case Read(p) =>
      (match ProcOf(s, p)
       case Reading(input, attempt, start) =>
         Some(s.(procs := s.procs[p := Drafted(input, attempt, start, Before(Visible(s, p), |Visible(s, p)|))]))
       case _ => None)
    case Insert(p, id, salt) =>
      var d := ProcOf(s, p);
      if !d.Drafted? || Blocked(s, p, Rank(d.previous) + 1, d.input.eventType == CaseClosed) then None
      else Some(InsertStep(sc, s, p, d, id, salt))
    case Commit(p) =>
      if ProcOf(s, p).Idle? then Some(s.(committed := Visible(s, p), pending := s.pending[p := []])) else None
    case Rollback(p) =>
      Some(s.(pending := s.pending[p := []], procs := s.procs[p := Idle]))
  }

  function Exec(sc: Scheme, s: State, steps: seq<Step>): Option<State>
    decreases |steps|
  {
    if steps == [] then Some(s)
    else match Apply(sc, s, steps[0])
         case Some(next) => Exec(sc, next, steps[1..])
         case None => None
  }

  // ---------------------------------------------------------------------------------------------
  // The invariant
  // ---------------------------------------------------------------------------------------------

  /** A draft was made on a real head, each lost attempt has seen the chain grow, and a writer that
      holds uncommitted rows has the true head. */
  ghost predicate ProcOk(s: State, p: nat) {
    var n := |Visible(s, p)|;
    match ProcOf(s, p)
    case Idle => true
    case Reading(_, attempt, start) => 1 <= attempt <= MAX_SEQUENCE_ATTEMPTS && start + attempt - 1 <= n
    case Drafted(_, attempt, start, previous) =>
      1 <= attempt <= MAX_SEQUENCE_ATTEMPTS
      && 0 <= Rank(previous) <= n && previous == Before(Visible(s, p), Rank(previous))
      && start + attempt - 1 <= Rank(previous)
      && (Pend(s, p) != [] ==> Rank(previous) == n)
    case GaveUp(start) => start + MAX_SEQUENCE_ATTEMPTS <= |s.committed|
  }

  /** No two writers hold uncommitted rows. */
  predicate Alone(s: State, p: nat, q: nat) { p != q && Pend(s, p) != [] ==> Pend(s, q) == [] }

  ghost predicate Inv(sc: Scheme, s: State) {
    (forall p :: Linear(sc, Visible(s, p)))
    && (forall p, q :: Alone(s, p, q))
    && (forall p :: ProcOk(s, p))
  }

  lemma InitialInv(sc: Scheme)
    ensures Inv(sc, INITIAL)
  {
    forall p ensures Visible(INITIAL, p) == [] {
    }
  }

  /** A writer with uncommitted rows holds the rank that follows the committed ones. */
  lemma HoldsNextRank(sc: Scheme, s: State, q: nat)
    requires Inv(sc, s) && Pend(s, q) != []
    ensures q in s.pending && RankTaken(s.pending[q], |s.committed| + 1)
  {
    var m := |s.committed|;
    assert Linear(sc, Visible(s, q));
    assert LinkAt(sc, Visible(s, q), m) && Visible(s, q)[m] == s.pending[q][0];
  }

  /** Two writers never hold rows at once: the second would need a rank the first already holds. */
  lemma InsertIsExclusive(sc: Scheme, s: State, p: nat, q: nat, id: string, salt: Word)
    requires Inv(sc, s) && ProcOf(s, p).Drafted? && q != p
    requires var d := ProcOf(s, p);
             !Blocked(s, p, Rank(d.previous) + 1, d.input.eventType == CaseClosed)
             && InsertResult(sc, Visible(s, p), d.previous, d.input, id, salt).Ok?
    ensures Pend(s, q) == []
  {
    var d := ProcOf(s, p);
    assert ProcOk(s, p) && Linear(sc, Visible(s, p));
    InsertIsSound(sc, Visible(s, p), Rank(d.previous), d.input, id, salt);
    assert Alone(s, q, p);
    if Pend(s, q) != [] {
      HoldsNextRank(sc, s, q);
    }
  }

  lemma InsertKeepsInv(sc: Scheme, s: State, p: nat, id: string, salt: Word)
    requires Inv(sc, s) && ProcOf(s, p).Drafted?
    requires !Blocked(s, p, Rank(ProcOf(s, p).previous) + 1, ProcOf(s, p).input.eventType == CaseClosed)
    ensures Inv(sc, InsertStep(sc, s, p, ProcOf(s, p), id, salt))
  {
    var d := ProcOf(s, p);
    var r := InsertResult(sc, Visible(s, p), d.previous, d.input, id, salt);
    var t := InsertStep(sc, s, p, d, id, salt);
    assert ProcOk(s, p) && Linear(sc, Visible(s, p));
    InsertIsSound(sc, Visible(s, p), Rank(d.previous), d.input, id, salt);
    forall q ensures Linear(sc, Visible(t, q)) && ProcOk(t, q) {
      assert ProcOk(s, q) && Linear(sc, Visible(s, q));
      if q != p {
        assert Visible(t, q) == Visible(s, q) && ProcOf(t, q) == ProcOf(s, q);
      } else if r.Ok? {
        assert Visible(t, p) == Visible(s, p) + [r.value];
      } else {
        assert Visible(t, p) == Visible(s, p);
      }
    }
    forall a, b ensures Alone(t, a, b) {
      assert Alone(s, a, b);
      if r.Ok? && a != p { InsertIsExclusive(sc, s, p, a, id, salt); }
      if r.Ok? && b != p { InsertIsExclusive(sc, s, p, b, id, salt); }
    }
  }

  lemma CommitKeepsInv(sc: Scheme, s: State, p: nat)
    requires Inv(sc, s) && ProcOf(s, p).Idle?
    ensures Inv(sc, s.(committed := Visible(s, p), pending := s.pending[p := []]))
  {
    var t := s.(committed := Visible(s, p), pending := s.pending[p := []]);
    forall a, b ensures Alone(t, a, b) {
      assert Alone(s, a, b);
    }
    forall q ensures Linear(sc, Visible(t, q)) && ProcOk(t, q) {
      assert Alone(s, p, q) && Alone(s, q, p);
      assert ProcOk(s, q) && Linear(sc, Visible(s, p)) && Linear(sc, Visible(s, q));
      if q == p || Pend(s, q) == [] {
        assert Visible(t, q) == Visible(s, p);
      } else {
        assert Pend(s, p) == [] && Visible(t, q) == Visible(s, q);
      }
      if ProcOf(s, q).Drafted? && q != p {
        var m := Rank(ProcOf(s, q).previous);
        assert Before(Visible(t, q), m) == Before(Visible(s, q), m);
      }
    }
  }

  lemma RollbackKeepsInv(sc: Scheme, s: State, p: nat)
    requires Inv(sc, s)
    ensures Inv(sc, s.(pending := s.pending[p := []], procs := s.procs[p := Idle]))
  {
    var t := s.(pending := s.pending[p := []], procs := s.procs[p := Idle]);
    forall a, b ensures Alone(t, a, b) {
      assert Alone(s, a, b);
    }
    forall q ensures Linear(sc, Visible(t, q)) && ProcOk(t, q) {
      assert ProcOk(s, q) && Linear(sc, Visible(s, q));
      if q != p {
        assert Visible(t, q) == Visible(s, q) && ProcOf(t, q) == ProcOf(s, q);
      } else {
        assert Visible(t, p) == s.committed == Visible(s, p)[..|s.committed|];
        LinearPrefix(sc, Visible(s, p), |s.committed|);
      }
    }
  }

  /** Steps that only move one writer's private state. */
  lemma MoveKeepsInv(sc: Scheme, s: State, p: nat, proc: Proc)
    requires Inv(sc, s)
    requires ProcOk(s.(procs := s.procs[p := proc]), p)
    ensures Inv(sc, s.(procs := s.procs[p := proc]))
  {
    var t := s.(procs := s.procs[p := proc]);
    forall a, b ensures Alone(t, a, b) {
      assert Alone(s, a, b);
    }
    forall q ensures Visible(t, q) == Visible(s, q) && ProcOk(t, q) && Linear(sc, Visible(t, q)) {
      assert Linear(sc, Visible(s, q));
      if q != p {
        assert ProcOk(s, q) && ProcOf(t, q) == ProcOf(s, q);
      }
    }
  }

  /** Every step keeps the invariant and only ever appends to what is committed. */
  lemma StepKeepsInv(sc: Scheme, s: State, step: Step)
    requires Inv(sc, s) && Apply(sc, s, step).Some?
    ensures Inv(sc, Apply(sc, s, step).value)
    ensures s.committed <= Apply(sc, s, step).value.committed
  {
    match step
    case Begin(p, input) => MoveKeepsInv(sc, s, p, Reading(input, 1, |Visible(s, p)|));
    case BeginClose(p, input) =>
      if Visible(s, p) != [] && !HasClosure(Visible(s, p)) {
        MoveKeepsInv(sc, s, p, Reading(input, 1, |Visible(s, p)|));
      }
    case Read(p) =>
      var r := ProcOf(s, p);
      var n := |Visible(s, p)|;
      assert ProcOk(s, p) && Linear(sc, Visible(s, p));
      assert n > 0 ==> LinkAt(sc, Visible(s, p), n - 1);
      MoveKeepsInv(sc, s, p, Drafted(r.input, r.attempt, r.start, Before(Visible(s, p), n)));
    case Insert(p, id, salt) => InsertKeepsInv(sc, s, p, id, salt);
    case Commit(p) => CommitKeepsInv(sc, s, p);
    case Rollback(p) => RollbackKeepsInv(sc, s, p);
  }

  lemma {:induction false} RunKeepsInv(sc: Scheme, s: State, steps: seq<Step>)
    requires Inv(sc, s) && Exec(sc, s, steps).Some?
    ensures Inv(sc, Exec(sc, s, steps).value) && s.committed <= Exec(sc, s, steps).value.committed
    decreases |steps|
  {
    if steps != [] {
      StepKeepsInv(sc, s, steps[0]);
      RunKeepsInv(sc, Apply(sc, s, steps[0]).value, steps[1..]);
    }
  }

  /** LINEARITY. For every interleaving of writers, with rollbacks and crashes anywhere, the committed
      events have ranks 1..n, each is sealed and points to its predecessor's fingerprint, there is at
      most one closure and it declares its own rank and the true head. */
  lemma EveryRunIsLinear(sc: Scheme, steps: seq<Step>)
    requires Exec(sc, INITIAL, steps).Some?
    ensures Linear(sc, Exec(sc, INITIAL, steps).value.committed)
  {
    InitialInv(sc);
    RunKeepsInv(sc, INITIAL, steps);
    var s := Exec(sc, INITIAL, steps).value;
    assert Linear(sc, Visible(s, 0));
    assert s.committed == Visible(s, 0)[..|s.committed|];
    LinearPrefix(sc, Visible(s, 0), |s.committed|);
  }

  /** APPEND-ONLY. What a run has committed is a prefix of what any continuation of it has committed. */
  lemma CommittedFactsStay(sc: Scheme, before: seq<Step>, after: seq<Step>)
    requires Exec(sc, INITIAL, before).Some?
    requires Exec(sc, Exec(sc, INITIAL, before).value, after).Some?
    ensures Exec(sc, INITIAL, before).value.committed
            <= Exec(sc, Exec(sc, INITIAL, before).value, after).value.committed
  {
    InitialInv(sc);
    RunKeepsInv(sc, INITIAL, before);
    RunKeepsInv(sc, Exec(sc, INITIAL, before).value, after);
  }

  /** FAIR RETRY. A writer that gave up on collisions saw at least five events of others committed since
      it began. */
  lemma GivingUpNeedsFiveOthers(sc: Scheme, steps: seq<Step>, p: nat)
    requires Exec(sc, INITIAL, steps).Some? && ProcOf(Exec(sc, INITIAL, steps).value, p).GaveUp?
    ensures var s := Exec(sc, INITIAL, steps).value;
            |s.committed| >= ProcOf(s, p).start + MAX_SEQUENCE_ATTEMPTS
  {
    InitialInv(sc);
    RunKeepsInv(sc, INITIAL, steps);
    assert ProcOk(Exec(sc, INITIAL, steps).value, p);
  }

  // ---------------------------------------------------------------------------------------------
  // Documents
  // ---------------------------------------------------------------------------------------------

  ghost predicate AllValid(sc: Scheme, s: State) {
    DocumentsValid(sc, s.committed) && forall p :: p in s.pending ==> DocumentsValid(sc, s.pending[p])
  }

  lemma StepKeepsValid(sc: Scheme, s: State, step: Step)
    requires AllValid(sc, s) && Apply(sc, s, step).Some?
    ensures AllValid(sc, Apply(sc, s, step).value)
  {
    var t := Apply(sc, s, step).value;
    forall p | p in t.pending ensures DocumentsValid(sc, t.pending[p]) {
      assert p in s.pending ==> DocumentsValid(sc, s.pending[p]);
    }
  }

  lemma {:induction false} RunKeepsValid(sc: Scheme, s: State, steps: seq<Step>)
    requires AllValid(sc, s) && Exec(sc, s, steps).Some?
    ensures AllValid(sc, Exec(sc, s, steps).value)
    decreases |steps|
  {
    if steps != [] {
      StepKeepsValid(sc, s, steps[0]);
      RunKeepsValid(sc, Apply(sc, s, steps[0]).value, steps[1..]);
    }
  }

  /** NO INVALID DOCUMENT IS COMMITTED, in any interleaving of writers. */
  lemma EveryRunIsValid(sc: Scheme, steps: seq<Step>)
    requires Exec(sc, INITIAL, steps).Some?
    ensures DocumentsValid(sc, Exec(sc, INITIAL, steps).value.committed)
  {
    RunKeepsValid(sc, INITIAL, steps);
  }

  // ---------------------------------------------------------------------------------------------
  // Contents
  // ---------------------------------------------------------------------------------------------

  /** What the writers of a run were asked to record. */
  function Inputs(steps: seq<Step>): set<Input> {
    if steps == [] then {}
    else
      (match steps[0]
       case Begin(_, input) => {input}
       case BeginClose(_, input) => {input}
       case _ => {})
      + Inputs(steps[1..])
  }

  /** The event records one of the inputs, column by column, under its seal. */
  ghost predicate Records(sc: Scheme, asked: set<Input>, e: Event) {
    exists input, id, salt :: input in asked && Bears(e.facts, input, id) && Stored(sc, e, salt)
  }

  ghost predicate AllRecord(sc: Scheme, asked: set<Input>, events: seq<Event>) {
    forall i :: 0 <= i < |events| ==> Records(sc, asked, events[i])
  }

  predicate Asking(asked: set<Input>, proc: Proc) { proc.Reading? || proc.Drafted? ==> proc.input in asked }

  ghost predicate Recorded(sc: Scheme, asked: set<Input>, s: State) {
    AllRecord(sc, asked, s.committed)
    && (forall p :: p in s.pending ==> AllRecord(sc, asked, s.pending[p]))
    && (forall p :: p in s.procs ==> Asking(asked, s.procs[p]))
  }

  lemma AppendRecords(sc: Scheme, asked: set<Input>, events: seq<Event>, e: Event)
    requires AllRecord(sc, asked, events) && Records(sc, asked, e)
    ensures AllRecord(sc, asked, events + [e])
  {
  }

  lemma InsertRecords(sc: Scheme, asked: set<Input>, s: State, p: nat, id: string, salt: Word)
    requires Recorded(sc, asked, s) && ProcOf(s, p).Drafted?
    ensures Recorded(sc, asked, InsertStep(sc, s, p, ProcOf(s, p), id, salt))
  {
    var d := ProcOf(s, p);
    assert Asking(asked, d);
    var r := InsertResult(sc, Visible(s, p), d.previous, d.input, id, salt);
    if r.Ok? {
      var f := Draft(d.previous, d.input, id);
      DraftBears(d.previous, d.input, id);
      SealStores(sc, salt, f);
      assert Records(sc, asked, r.value);
      AppendRecords(sc, asked, Pend(s, p), r.value);
    }
  }

  lemma CommitRecords(sc: Scheme, asked: set<Input>, s: State, p: nat)
    requires Recorded(sc, asked, s)
    ensures AllRecord(sc, asked, Visible(s, p))
  {
    var all := Visible(s, p);
    forall i | 0 <= i < |all| ensures Records(sc, asked, all[i]) {
      if i >= |s.committed| {
        assert AllRecord(sc, asked, s.pending[p]);
      }
    }
  }

  lemma StepRecords(sc: Scheme, asked: set<Input>, s: State, step: Step)
    requires Recorded(sc, asked, s) && Apply(sc, s, step).Some? && Inputs([step]) <= asked
    ensures Recorded(sc, asked, Apply(sc, s, step).value)
  {
    assert Inputs([step][1..]) == {};
    match step
    case Insert(p, id, salt) => InsertRecords(sc, asked, s, p, id, salt);
    case Commit(p) => CommitRecords(sc, asked, s, p);
    case Read(p) => assert Asking(asked, ProcOf(s, p));
    case _ =>
  }

  lemma {:induction false} RunRecords(sc: Scheme, asked: set<Input>, s: State, steps: seq<Step>)
    requires Recorded(sc, asked, s) && Exec(sc, s, steps).Some? && Inputs(steps) <= asked
    ensures Recorded(sc, asked, Exec(sc, s, steps).value)
    decreases |steps|
  {
    if steps != [] {
      assert Inputs([steps[0]]) <= Inputs(steps) by {
        assert [steps[0]][1..] == [];
      }
      StepRecords(sc, asked, s, steps[0]);
      RunRecords(sc, asked, Apply(sc, s, steps[0]).value, steps[1..]);
    }
  }

  /** NOTHING BUT WHAT WAS ASKED, AND ALL OF IT. In every interleaving of writers, every committed event records one of
      the inputs the writers began with: the amounts observed, the actor, the references and statuses of the row at that
      time, and its parties on an opening; it is sealed over a document of exactly these columns. */
  lemma EveryFactWasAsked(sc: Scheme, steps: seq<Step>)
    requires Exec(sc, INITIAL, steps).Some?
    ensures AllRecord(sc, Inputs(steps), Exec(sc, INITIAL, steps).value.committed)
  {
    RunRecords(sc, Inputs(steps), INITIAL, steps);
  }
}
