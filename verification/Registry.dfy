/** The append-only registry of one transaction (src/events/transaction-events.service.ts): drafting,
    sealing and chaining of facts, the retry loop of `record`, and every interleaving of concurrent
    writers over the table and its two unique indexes. */
module Registry {
  import opened Basics
  import opened Domain
  import opened EventXml
  import Fingerprint
  import Utf8

  /** The three foreign ingredients of sealing: the hash, the serialiser of a fact into its canonical
      document, and the schema check of a document. */
  datatype Scheme = Scheme(hash: Bytes -> Word, document: Facts -> string, valid: string -> bool)

  const FORMAT_VERSION := "2.1"
  const MAX_SEQUENCE_ATTEMPTS := 5

  datatype AnchorStatus = NotSealed | Pending | Anchored | Failed

  /** The columns that stay writable after insertion. */
  datatype Anchor = Anchor(status: AnchorStatus, batchId: Option<string>, merkleProof: Option<seq<Bytes>>)

  datatype Event = Event(facts: Facts, fingerprint: string, salt: string, anchor: Anchor)

  /** The row of the `transactions` table, as far as the registry and its verifier read it. */
  datatype Transaction = Transaction(
    reference: string, paymentChannel: PaymentChannel, status: TransactionStatus,
    aggregatorReference: Option<string>, soapOperation: Option<string>,
    providerStatus: Option<ProviderStatus>, bankStatus: Option<BankStatus>,
    reconciliationStatus: Option<ReconciliationStatus>, refundStatus: Option<RefundStatus>,
    caseStatus: Option<CaseStatus>,
    amount: int, currency: string, correlationId: string,
    debtorIban: string, debtorName: Option<string>, creditorIban: string, creditorName: string,
    endToEndLabel: Option<string>)

  datatype Input = Input(
    eventType: EventType, transaction: Transaction, observed: Option<int>, observedCurrency: Option<string>,
    detail: Option<string>, occurredAt: string,
    actorId: Option<string>, actorRole: Option<string>, actionOrigin: Option<string>)

  predicate IsOpening(t: EventType) { t == TransferInitiated || t == PaymentInitiated }

  function Rank(previous: Option<Event>): int {
    if previous.Some? then previous.value.facts.sequence else 0
  }

  function FingerprintOf(previous: Option<Event>): Option<string> {
    if previous.Some? then Some(previous.value.fingerprint) else None
  }

  function When<T>(present: bool, value: Option<T>): Option<T> {
    if present then value else None
  }

  /** The draft of one attempt: rank, link and closure figures all come from the head just read. */
  function Draft(previous: Option<Event>, input: Input, id: string): Facts {
    var t := input.transaction;
    var closing := input.eventType == CaseClosed;
    var opening := IsOpening(input.eventType);
    Facts(FORMAT_VERSION, id, input.eventType, Rank(previous) + 1, t.reference,
          t.aggregatorReference, t.soapOperation,
          t.providerStatus, t.bankStatus, t.reconciliationStatus, t.refundStatus, t.caseStatus,
          t.amount, t.currency, input.observed, input.observedCurrency,
          input.occurredAt, t.correlationId, input.detail,
          input.actorId, input.actorRole, input.actionOrigin,
          FingerprintOf(previous),
          When(closing, Some(Rank(previous) + 1)), When(closing, FingerprintOf(previous)),
          When(opening, Some(t.debtorIban)), When(opening, t.debtorName),
          When(opening, Some(t.creditorIban)), When(opening, Some(t.creditorName)),
          When(opening, t.endToEndLabel))
  }

  /** The row to insert: sealed before it exists. */
  function Seal(sc: Scheme, salt: Word, facts: Facts): Event {
    Event(facts, Fingerprint.ToHex(sc.hash(Fingerprint.Preimage(salt, sc.document(facts)))), Fingerprint.ToHex(salt),
          Anchor(Pending, None, None))
  }

  /** WHAT A FACT RECORDS, column by column: what the caller observed, who acted and when; the references, the statuses
      and the amount of the row at that time; and its parties on an opening, and only there. */
  predicate Bears(f: Facts, input: Input, id: string) {
    var t := input.transaction;
    f.version == "2.1" && f.id == id && f.eventType == input.eventType
    && f.observed == input.observed && f.observedCurrency == input.observedCurrency && f.detail == input.detail
    && f.occurredAt == input.occurredAt
    && f.actorId == input.actorId && f.actorRole == input.actorRole && f.actionOrigin == input.actionOrigin
    && f.transactionReference == t.reference && f.providerReference == t.aggregatorReference
    && f.bankReference == t.soapOperation
    && f.providerStatus == t.providerStatus && f.bankStatus == t.bankStatus
    && f.reconciliationStatus == t.reconciliationStatus && f.refundStatus == t.refundStatus
    && f.caseStatus == t.caseStatus
    && f.expected == t.amount && f.currency == t.currency && f.correlationId == t.correlationId
    && BearsParties(f, t, input.eventType in {TransferInitiated, PaymentInitiated})
  }

  predicate BearsParties(f: Facts, t: Transaction, opening: bool) {
    f.debtorIban == (if opening then Some(t.debtorIban) else None)
    && f.debtorName == (if opening then t.debtorName else None)
    && f.creditorIban == (if opening then Some(t.creditorIban) else None)
    && f.creditorName == (if opening then Some(t.creditorName) else None)
    && f.endToEndLabel == (if opening then t.endToEndLabel else None)
  }

  /** How a fact is stored: its salt and its digest in hexadecimal, waiting to be anchored. */
  predicate Stored(sc: Scheme, e: Event, salt: Word) {
    e.salt == Fingerprint.ToHex(salt)
    && e.fingerprint == Fingerprint.ToHex(sc.hash(salt + Utf8.Encode(sc.document(e.facts))))
    && e.anchor == Anchor(Pending, None, None)
  }

  lemma DraftBears(previous: Option<Event>, input: Input, id: string)
    ensures Bears(Draft(previous, input, id), input, id)
  {
  }

  lemma SealStores(sc: Scheme, salt: Word, facts: Facts)
    ensures Stored(sc, Seal(sc, salt, facts), salt) && Seal(sc, salt, facts).facts == facts
  {
  }

  // ---------------------------------------------------------------------------------------------
  // What a sound chain is
  // ---------------------------------------------------------------------------------------------

  ghost predicate Sealed(sc: Scheme, e: Event) {
    Fingerprint.IsHex32(e.salt) && Fingerprint.IsHex32(e.fingerprint)
    && Fingerprint.ComputeFingerprint(sc.hash, e.salt, sc.document(e.facts)) == Some(e.fingerprint)
  }

  predicate IsClosure(e: Event) { e.facts.eventType == CaseClosed }

  function Before(chain: seq<Event>, i: nat): Option<Event>
    requires i <= |chain|
  {
    if i == 0 then None else Some(chain[i - 1])
  }

  /** The event at place i holds rank i + 1, is sealed, points to its predecessor's fingerprint, and
      carries closure figures (its own rank, the true head) exactly when it is a closure. */
  ghost predicate LinkAt(sc: Scheme, chain: seq<Event>, i: nat)
    requires i < |chain|
  {
    var e, previous := chain[i], Before(chain, i);
    Sealed(sc, e) && e.facts.sequence == i + 1
    && e.facts.previousFingerprint == FingerprintOf(previous)
    && e.facts.closureEventCount == When(IsClosure(e), Some(i + 1))
    && e.facts.closureChainHead == When(IsClosure(e), FingerprintOf(previous))
  }

  ghost predicate Linear(sc: Scheme, chain: seq<Event>) {
    (forall i :: 0 <= i < |chain| ==> LinkAt(sc, chain, i))
    && (forall i, j :: 0 <= i < j < |chain| ==> !(IsClosure(chain[i]) && IsClosure(chain[j])))
  }

  ghost predicate DocumentsValid(sc: Scheme, chain: seq<Event>) {
    forall i :: 0 <= i < |chain| ==> sc.valid(sc.document(chain[i].facts))
  }

  predicate HasClosure(chain: seq<Event>) { exists i :: 0 <= i < |chain| && IsClosure(chain[i]) }

  predicate RankTaken(chain: seq<Event>, rank: int) {
    exists i :: 0 <= i < |chain| && chain[i].facts.sequence == rank
  }

  lemma SealIsSealed(sc: Scheme, salt: Word, facts: Facts)
    ensures Sealed(sc, Seal(sc, salt, facts))
  {
    Fingerprint.HexWord(salt);
    Fingerprint.HexWord(sc.hash(Fingerprint.Preimage(salt, sc.document(facts))));
  }

  /** Appending the draft made on the true head keeps the chain linear. */
  lemma AppendKeepsLinear(sc: Scheme, chain: seq<Event>, input: Input, id: string, salt: Word)
    requires Linear(sc, chain)
    requires input.eventType == CaseClosed ==> !HasClosure(chain)
    ensures Linear(sc, chain + [Seal(sc, salt, Draft(Before(chain, |chain|), input, id))])
  {
    var facts := Draft(Before(chain, |chain|), input, id);
    var longer := chain + [Seal(sc, salt, facts)];
    SealIsSealed(sc, salt, facts);
    forall i | 0 <= i < |longer| ensures LinkAt(sc, longer, i) {
      if i < |chain| {
        assert LinkAt(sc, chain, i) && Before(longer, i) == Before(chain, i);
      } else {
        assert |chain| > 0 ==> LinkAt(sc, chain, |chain| - 1);
        assert Before(longer, i) == Before(chain, |chain|);
      }
    }
  }

  /** In a linear chain a rank is taken exactly when it does not exceed the length. */
  lemma RanksAreDense(sc: Scheme, chain: seq<Event>, rank: int)
    requires Linear(sc, chain)
    ensures RankTaken(chain, rank) <==> 1 <= rank <= |chain|
  {
    if 1 <= rank <= |chain| {
      assert LinkAt(sc, chain, rank - 1);
    }
    if RankTaken(chain, rank) {
      var i :| 0 <= i < |chain| && chain[i].facts.sequence == rank;
      assert LinkAt(sc, chain, i);
    }
  }

  lemma LinearPrefix(sc: Scheme, chain: seq<Event>, n: nat)
    requires Linear(sc, chain) && n <= |chain|
    ensures Linear(sc, chain[..n])
  {
    forall i | 0 <= i < n ensures LinkAt(sc, chain[..n], i) {
      assert LinkAt(sc, chain, i) && Before(chain[..n], i) == Before(chain, i);
    }
  }

  // ---------------------------------------------------------------------------------------------
  // The retry loop
  // ---------------------------------------------------------------------------------------------

  datatype RecordError =
    | InvalidDocument      // the drafted document breaks its schema
    | SequenceCollision    // the rank was taken on the last attempt too
    | ClosureTaken         // the partial unique index on closures
    | ClosureOfNothing     // the check constraint: a closure counts at least two facts

  function Flatten(parts: seq<seq<Event>>): seq<Event> {
    if parts == [] then [] else Flatten(parts[..|parts| - 1]) + parts[|parts| - 1]
  }

  /** The chain once the first n groups of other writers have committed. */
  function Seen(rows: seq<Event>, arrivals: seq<seq<Event>>, n: nat): seq<Event>
    requires n <= |arrivals|
  {
    rows + Flatten(arrivals[..n])
  }

  lemma {:induction false} FlattenPrefix(parts: seq<seq<Event>>, n: nat)
    requires n <= |parts|
    ensures |Flatten(parts[..n])| <= |Flatten(parts)|
    ensures Flatten(parts[..n]) == Flatten(parts)[..|Flatten(parts[..n])|]
  {
    if n < |parts| {
      FlattenPrefix(parts[..|parts| - 1], n);
      assert parts[..|parts| - 1][..n] == parts[..n];
    } else {
      assert parts[..n] == parts;
    }
  }

  /** What inserting the draft made on `previous` does to the rows of the reference: the schema, the
      check constraint, then the unique index on ranks, then the one on closures. */
  function InsertResult(sc: Scheme, rows: seq<Event>, previous: Option<Event>,
                        input: Input, id: string, salt: Word): Result<Event, RecordError> {
    var draft := Draft(previous, input, id);
    if !sc.valid(sc.document(draft)) then Err(InvalidDocument)
    else if input.eventType == CaseClosed && Rank(previous) + 1 <= 1 then Err(ClosureOfNothing)
    else if RankTaken(rows, Rank(previous) + 1) then Err(SequenceCollision)
    else if input.eventType == CaseClosed && HasClosure(rows) then Err(ClosureTaken)
    else Ok(Seal(sc, salt, draft))
  }

  /** A draft made on the head of a prefix collides only when the chain has grown since; when it does
      go in, it goes on the true head. */
  lemma InsertIsSound(sc: Scheme, rows: seq<Event>, m: nat,
                      input: Input, id: string, salt: Word)
    requires Linear(sc, rows) && m <= |rows|
    ensures var r := InsertResult(sc, rows, Before(rows, m), input, id, salt);
            Rank(Before(rows, m)) == m
            && (r == Err(SequenceCollision) ==> m < |rows|)
            && (r == Err(ClosureTaken) ==> m == |rows| && input.eventType == CaseClosed && HasClosure(rows))
            && (r.Ok? ==> m == |rows| && Linear(sc, rows + [r.value])
                          && r.value == Seal(sc, salt, Draft(Before(rows, m), input, id))
                          && r.value.facts.eventType == input.eventType)
  {
    if m > 0 {
      assert LinkAt(sc, rows, m - 1);
    }
    RanksAreDense(sc, rows, m + 1);
    if m == |rows| && (input.eventType == CaseClosed ==> !HasClosure(rows)) {
      AppendKeepsLinear(sc, rows, input, id, salt);
    }
  }

  /** EVERY OUTCOME OF AN INSERTION, EXACTLY. On a linear chain, for a draft made on the head of its first m events: an
      invalid document comes first, then a closure of nothing, then a rank taken because the chain has grown, then a
      closure already there; otherwise the fact goes in. */
  lemma InsertIff(sc: Scheme, rows: seq<Event>, m: nat, input: Input, id: string, salt: Word)
    requires Linear(sc, rows) && m <= |rows|
    ensures var r := InsertResult(sc, rows, Before(rows, m), input, id, salt);
            var closing := input.eventType == CaseClosed;
            var f := Draft(Before(rows, m), input, id);
            Bears(f, input, id)
            && (r == Err(InvalidDocument) <==> !sc.valid(sc.document(f)))
            && (r == Err(ClosureOfNothing) <==> sc.valid(sc.document(f)) && closing && m == 0)
            && (r == Err(SequenceCollision) <==> sc.valid(sc.document(f)) && !(closing && m == 0) && m < |rows|)
            && (r == Err(ClosureTaken)
                <==> sc.valid(sc.document(f)) && closing && 0 < m == |rows|
                     && exists i :: 0 <= i < |rows| && rows[i].facts.eventType == CaseClosed)
            && (r.Ok? ==> Bears(r.value.facts, input, id) && Stored(sc, r.value, salt))
  {
    var f := Draft(Before(rows, m), input, id);
    DraftBears(Before(rows, m), input, id);
    SealStores(sc, salt, f);
    if m > 0 {
      assert LinkAt(sc, rows, m - 1);
    }
    RanksAreDense(sc, rows, m + 1);
    if HasClosure(rows) {
      var i :| 0 <= i < |rows| && IsClosure(rows[i]);
      assert rows[i].facts.eventType == CaseClosed;
    }
    if i :| 0 <= i < |rows| && rows[i].facts.eventType == CaseClosed {
      assert IsClosure(rows[i]);
    }
  }

  /** The event is the sealed draft made on the head of the chain. */
  predicate DraftedOn(sc: Scheme, salt: Word, input: Input, id: string, chain: seq<Event>, e: Event) {
    e == Seal(sc, salt, Draft(Before(chain, |chain|), input, id))
  }

  /** During each of the first n attempts somebody else committed. */
  predicate Disturbed(arrivals: seq<seq<Event>>, n: int)
    requires n <= |arrivals|
  {
    forall j :: 0 <= j < n ==> arrivals[j] != []
  }

  /** The schema refuses some document of this fact. */
  ghost predicate Unprintable(sc: Scheme, input: Input, id: string) {
    exists f :: Bears(f, input, id) && !sc.valid(sc.document(f))
  }

  /** What an outcome says: a fact that went in bears what it was asked to, column by column, and is stored under its
      seal; one that did not had a document the schema refuses, or met other writers, or was a closure out of place. */
  ghost predicate Explained(sc: Scheme, r: Result<Event, RecordError>, input: Input, id: string, salt: Word) {
    (r.Ok? ==> Bears(r.value.facts, input, id) && Stored(sc, r.value, salt))
    && (r == Err(InvalidDocument) ==> Unprintable(sc, input, id))
    && (r == Err(ClosureTaken) || r == Err(ClosureOfNothing) ==> input.eventType == CaseClosed)
  }

  class EventStore {
    /** The committed events of one reference, in the order of their ranks. */
    var rows: seq<Event>

    constructor ()
      ensures rows == []
    {
      rows := [];
    }

    /** One attempt: draft, check, insert. */
    method TryInsert(sc: Scheme, previous: Option<Event>, input: Input, id: string,
                     salt: Word) returns (r: Result<Event, RecordError>)
      modifies this
      ensures r == InsertResult(sc, old(rows), previous, input, id, salt)
      ensures rows == if r.Ok? then old(rows) + [r.value] else old(rows)
    {
      var draft := Draft(previous, input, id);
      if !sc.valid(sc.document(draft)) {
        return Err(InvalidDocument);
      }
      if input.eventType == CaseClosed && draft.sequence <= 1 {
        return Err(ClosureOfNothing);
      }
      if RankTaken(rows, draft.sequence) {
        return Err(SequenceCollision);
      }
      if input.eventType == CaseClosed && HasClosure(rows) {
        return Err(ClosureTaken);
      }
      var event := Seal(sc, salt, draft);
      rows := rows + [event];
      r := Ok(event);
    }

    /** One attempt while others commit `arrived` between the reading of the head and the insertion: it collides
        only if somebody did, and goes in only if nobody did. */
    method Attempt(sc: Scheme, input: Input, id: string, salt: Word, arrived: seq<Event>)
        returns (r: Result<Event, RecordError>)
      requires Linear(sc, rows + arrived)
      modifies this
      ensures Linear(sc, rows)
      ensures rows == if r.Ok? then old(rows) + arrived + [r.value] else old(rows) + arrived
      ensures r == Err(SequenceCollision) ==> arrived != []
      ensures r.Ok? ==> arrived == [] && DraftedOn(sc, salt, input, id, old(rows) + arrived, r.value)
      ensures r == Err(ClosureTaken) ==> input.eventType == CaseClosed && HasClosure(old(rows) + arrived)
      ensures Explained(sc, r, input, id, salt)
      ensures r == Err(ClosureOfNothing) ==> old(rows) == []
    {
      var previous := if rows == [] then None else Some(rows[|rows| - 1]);
      ghost var head := |rows|;
      rows := rows + arrived;
      ghost var seen := rows;
      assert previous == Before(seen, head);
      InsertIsSound(sc, seen, head, input, id, salt);
      InsertIff(sc, seen, head, input, id, salt);
      assert Before(seen, head) == Before(old(rows), head);
      r := TryInsert(sc, previous, input, id, salt);
    }

    /** `record`. Between the reading of the head and the insertion of attempt k, other processes commit
        `arrivals[k]`. The event lands on the chain found by the first attempt nobody disturbed; giving
        up on collisions means that every attempt was disturbed, so five other events at least were
        committed meanwhile. */
    method Record(sc: Scheme, input: Input, id: string, salt: Word, arrivals: seq<seq<Event>>)
        returns (r: Result<Event, RecordError>, ghost tries: nat)
      requires |arrivals| == MAX_SEQUENCE_ATTEMPTS && Linear(sc, Seen(rows, arrivals, |arrivals|))
      modifies this
      ensures 1 <= tries <= |arrivals| && Disturbed(arrivals, tries - 1)
      ensures var seen := Seen(old(rows), arrivals, tries);
              rows == (if r.Ok? then seen + [r.value] else seen)
              && (r.Ok? ==> DraftedOn(sc, salt, input, id, seen, r.value))
              && (r == Err(ClosureTaken) ==> input.eventType == CaseClosed && HasClosure(seen))
      ensures r.Ok? ==> arrivals[tries - 1] == []
      ensures r == Err(SequenceCollision) ==> Disturbed(arrivals, 5) && |rows| >= |old(rows)| + 5
      ensures Linear(sc, rows)
      ensures Explained(sc, r, input, id, salt) && (r == Err(ClosureOfNothing) ==> old(rows) == [])
    {
      ghost var before := rows;
      var attempt := 1;
      tries := 1;
      SeenStart(sc, before, arrivals);
      while true
        invariant 1 <= attempt <= MAX_SEQUENCE_ATTEMPTS && tries == attempt
        invariant rows == Seen(before, arrivals, attempt - 1)
        invariant Disturbed(arrivals, attempt - 1)
        invariant |rows| >= |before| + attempt - 1
        decreases MAX_SEQUENCE_ATTEMPTS - attempt
      {
        SeenNext(sc, before, arrivals, attempt);
        ghost var seen := rows + arrivals[attempt - 1];
        r := Attempt(sc, input, id, salt, arrivals[attempt - 1]);
        assert seen == Seen(before, arrivals, attempt);
        assert r == Err(SequenceCollision) ==> Disturbed(arrivals, attempt);
        if r != Err(SequenceCollision) || attempt == MAX_SEQUENCE_ATTEMPTS {
          break;
        }
        attempt := attempt + 1;
        tries := tries + 1;
      }
    }

    /** `closeCase`: nothing on an empty or closed chain, and the winner's closure when a concurrent process closed the
        case first, whether its closure or five other ranks stood in the way. */
    method CloseCase(sc: Scheme, input: Input, id: string, salt: Word, arrivals: seq<seq<Event>>)
        returns (r: Result<Option<Event>, RecordError>)
      requires |arrivals| == MAX_SEQUENCE_ATTEMPTS && Linear(sc, Seen(rows, arrivals, |arrivals|))
      requires input.eventType == CaseClosed
      modifies this
      ensures old(rows) == [] || HasClosure(old(rows)) ==> r == Ok(None) && rows == old(rows)
      ensures Linear(sc, rows) && old(rows) <= rows
      ensures r.Ok? && r.value.Some? ==> IsClosure(r.value.value) && r.value.value in rows
      ensures r != Err(ClosureTaken)
      ensures r == Err(SequenceCollision) ==> !HasClosure(rows) && |rows| >= |old(rows)| + 5
      ensures r == Ok(None) ==> old(rows) == [] || HasClosure(old(rows))
      ensures r.Ok? && old(rows) != [] ==> exists i :: 0 <= i < |rows| && rows[i].facts.eventType == CaseClosed
      ensures r.Err? ==> r.error == SequenceCollision || (r.error == InvalidDocument && Unprintable(sc, input, id))
    {
      SeenStart(sc, rows, arrivals);
      if rows == [] || HasClosure(rows) {
        return Ok(None);
      }
      var recorded, _ := Record(sc, input, id, salt, arrivals);
      match recorded {
        case Ok(event) =>
          assert rows[|rows| - 1] == event;
          r := Ok(Some(event));
        case Err(e) =>
          if (e == ClosureTaken || e == SequenceCollision) && HasClosure(rows) {
            var i :| 0 <= i < |rows| && IsClosure(rows[i]);
            r := Ok(Some(rows[i]));
          } else {
            r := Err(e);
          }
      }
    }
  }

  lemma SeenIsLinear(sc: Scheme, rows: seq<Event>, arrivals: seq<seq<Event>>, n: nat)
    requires n <= |arrivals| && Linear(sc, Seen(rows, arrivals, |arrivals|))
    ensures Linear(sc, Seen(rows, arrivals, n))
  {
    FlattenPrefix(arrivals, n);
    assert arrivals[..|arrivals|] == arrivals;
    var m := |rows| + |Flatten(arrivals[..n])|;
    LinearPrefix(sc, rows + Flatten(arrivals), m);
    assert (rows + Flatten(arrivals))[..m] == rows + Flatten(arrivals[..n]);
  }

  lemma SeenStart(sc: Scheme, rows: seq<Event>, arrivals: seq<seq<Event>>)
    requires Linear(sc, Seen(rows, arrivals, |arrivals|))
    ensures Seen(rows, arrivals, 0) == rows && Linear(sc, rows)
  {
    assert Seen(rows, arrivals, 0) == rows;
    SeenIsLinear(sc, rows, arrivals, 0);
  }

  lemma SeenNext(sc: Scheme, rows: seq<Event>, arrivals: seq<seq<Event>>, n: nat)
    requires 1 <= n <= |arrivals| && Linear(sc, Seen(rows, arrivals, |arrivals|))
    ensures Seen(rows, arrivals, n) == Seen(rows, arrivals, n - 1) + arrivals[n - 1]
    ensures Linear(sc, Seen(rows, arrivals, n))
  {
    SeenIsLinear(sc, rows, arrivals, n);
    assert arrivals[..n][..n - 1] == arrivals[..n - 1];
  }
}
