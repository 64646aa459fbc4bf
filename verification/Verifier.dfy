/** The integrity check of src/events/event-chain-verification.service.ts, run on arbitrary database
    contents against an immutable chain, and what its verdicts are worth. */
module Verifier {
  import opened Basics
  import opened Domain
  import opened EventXml
  import opened Registry
  import Fingerprint
  import Merkle

  /** A batch as the database has it, and as the contract has it. */
  datatype BatchRow = BatchRow(merkleRoot: Bytes)
  datatype OnChain = OnChain(merkleRoot: Bytes, leafCount: nat)

  /** How the two remote calls made for one event go. */
  datatype Rpc = Answers | ReadFails | CheckFails

  datatype Store = Store(
    chain: seq<Event>, transaction: Option<Transaction>, batches: map<string, BatchRow>,
    published: map<string, OnChain>, rpc: nat -> Rpc)

  /** Exceptions that leave `verify`. */
  datatype Error = MalformedSalt | MalformedFingerprint

  datatype Verdict = VERIFIED | TAMPERED | PARTIALLY_ANCHORED | EMPTY | CHAIN_UNAVAILABLE

  datatype Checked = Checked(xsdValid: bool, fingerprintMatches: bool, chainIntact: bool, anchor: Option<bool>)

  datatype Report = Report(
    verdict: Verdict, closed: bool, finalProofAnchored: bool, transactionMatchesLedger: Option<bool>,
    declaredEventCount: Option<int>, eventCount: nat, anchoredCount: nat)

  function LowerOpt(o: Option<string>): Option<string> {
    if o.Some? then Some(Fingerprint.Lower(o.value)) else None
  }

  /** `verifyAnchor`: None when not anchored or unreachable. */
  function CheckAnchor(sc: Scheme, s: Store, e: Event, rpc: Rpc): Result<Option<bool>, Error> {
    if e.anchor.status != Anchored || !Truthy(e.anchor.batchId) || e.anchor.merkleProof.None? then Ok(None)
    else if e.anchor.batchId.value !in s.batches then Ok(Some(false))
    else
      var id := e.anchor.batchId.value;
      var proof := e.anchor.merkleProof.value;
      match Fingerprint.ToLeaf(sc.hash, e.fingerprint)
      case None => Err(MalformedFingerprint)
      case Some(leaf) =>
        if !Merkle.VerifyProof(sc.hash, leaf, proof, s.batches[id].merkleRoot) then Ok(Some(false))
        else if rpc == ReadFails then Ok(None)
        else if id !in s.published then Ok(Some(false))
        else if s.published[id].merkleRoot != s.batches[id].merkleRoot then Ok(Some(false))
        else if rpc == CheckFails then Ok(None)
        else Ok(Some(Merkle.VerifyProof(sc.hash, leaf, proof, s.published[id].merkleRoot)))
  }

  /** `verifyEvent`: content, order, publication. */
  function CheckEvent(sc: Scheme, s: Store, e: Event, previous: Option<Event>, rpc: Rpc): Result<Checked, Error> {
    var xml := sc.document(e.facts);
    match Fingerprint.ComputeFingerprint(sc.hash, e.salt, xml)
    case None => Err(MalformedSalt)
    case Some(recomputed) =>
      match CheckAnchor(sc, s, e, rpc)
      case Err(error) => Err(error)
      case Ok(anchor) =>
        Ok(Checked(sc.valid(xml),
                   Fingerprint.Lower(recomputed) == Fingerprint.Lower(e.fingerprint),
                   LowerOpt(e.facts.previousFingerprint) == LowerOpt(FingerprintOf(previous)),
                   anchor))
  }

  type Check = nat -> Result<Checked, Error>

  /** `verifyEvent` on the event at a place of the chain. */
  function CheckAt(sc: Scheme, s: Store): Check {
    (i: nat) => if i < |s.chain| then CheckEvent(sc, s, s.chain[i], Before(s.chain, i), s.rpc(i))
      else Err(MalformedSalt)
  }

  predicate Faulty(c: Checked) {
    !c.xsdValid || !c.fingerprintMatches || !c.chainIntact || c.anchor == Some(false)
  }

  /** `chain.find(...)`, as an index. */
  function First(chain: seq<Event>, p: Event -> bool): (i: Option<nat>)
    ensures i.None? ==> forall k :: 0 <= k < |chain| ==> !p(chain[k])
    ensures i.Some? ==> i.value < |chain| && p(chain[i.value]) && forall k :: 0 <= k < i.value ==> !p(chain[k])
  {
    if chain == [] then None
    else if p(chain[0]) then Some(0)
    else match First(chain[1..], p)
         case None => None
         case Some(k) => Some(k + 1)
  }

  function ClosureIndex(chain: seq<Event>): Option<nat> { First(chain, e => IsClosure(e)) }

  function OpeningIndex(chain: seq<Event>): Option<nat> { First(chain, (e: Event) => e.facts.creditorIban.Some?) }

  predicate EndsCase(t: EventType) {
    t in {TransferCompleted, TransferFailed, ProviderFailed, ReconciliationMatched, RefundCompleted}
  }

  /** `isClosureExpected` */
  predicate ClosureExpected(t: Option<Transaction>, chain: seq<Event>) {
    (t.Some? && t.value.paymentChannel == LegacyTransfer && t.value.status in {StCompleted, StFailed})
    || (t.Some? && t.value.providerStatus == Some(PFailed) && t.value.reconciliationStatus == Some(RNotApplicable))
    || (t.Some? && t.value.reconciliationStatus == Some(RMatched))
    || (t.Some? && t.value.refundStatus == Some(FCompleted))
    || exists i :: 0 <= i < |chain| && EndsCase(chain[i].facts.eventType)
  }

  predicate RanksContinuous(chain: seq<Event>) {
    forall i :: 0 <= i < |chain| ==> chain[i].facts.sequence == i + 1
  }

  /** The three findings about a closure found at index c. */
  predicate ClosureFaulty(chain: seq<Event>, c: nat)
    requires c < |chain|
  {
    var f := chain[c].facts;
    f.closureEventCount != Some(|chain|)
    || (c > 0 && LowerOpt(f.closureChainHead) != Some(Fingerprint.Lower(chain[c - 1].fingerprint)))
    || f.sequence != |chain|
  }

  /** The current row against what the opening recorded. */
  predicate RowMatches(opening: Facts, t: Transaction) {
    opening.debtorIban == Some(t.debtorIban) && opening.debtorName == t.debtorName
    && opening.creditorIban == Some(t.creditorIban) && opening.creditorName == Some(t.creditorName)
    && opening.endToEndLabel == t.endToEndLabel
    && opening.expected == t.amount && opening.currency == t.currency
  }

  function RowVerdict(s: Store): Option<bool> {
    var o := OpeningIndex(s.chain);
    if o.Some? && s.transaction.Some? then Some(RowMatches(s.chain[o.value].facts, s.transaction.value)) else None
  }

  /** `results[chain.findIndex(event => event.id === closing.id)]?.anchorVerified === true` */
  predicate FinalProofAnchored(check: Check, chain: seq<Event>) {
    var c := ClosureIndex(chain);
    c.Some?
    && var k := First(chain, (e: Event) => e.facts.id == chain[c.value].facts.id);
       k.Some? && check(k.value).Ok? && check(k.value).value.anchor == Some(true)
  }

  // ---------------------------------------------------------------------------------------------
  // What the verdict means
  // ---------------------------------------------------------------------------------------------

  ghost predicate Completes(check: Check, n: nat) {
    forall i :: 0 <= i < n ==> check(i).Ok?
  }

  ghost predicate SomeFaulty(check: Check, n: nat) {
    exists i :: 0 <= i < n && check(i).Ok? && Faulty(check(i).value)
  }

  ghost predicate SomeUnreachable(check: Check, chain: seq<Event>, n: nat)
    requires n <= |chain|
  {
    exists i :: 0 <= i < n && check(i).Ok? && check(i).value.anchor == None && chain[i].anchor.status == Anchored
  }

  /** Events whose publication was confirmed. */
  ghost function Confirmed(check: Check, n: nat): set<int> {
    set i | 0 <= i < n && check(i).Ok? && check(i).value.anchor == Some(true)
  }

  ghost predicate Tampered(check: Check, s: Store) {
    var c := ClosureIndex(s.chain);
    s.transaction.None?
    || SomeFaulty(check, |s.chain|)
    || !RanksContinuous(s.chain)
    || (if c.Some? then ClosureFaulty(s.chain, c.value) else ClosureExpected(s.transaction, s.chain))
    || RowVerdict(s) == Some(false)
  }

  ghost function VerdictOf(check: Check, s: Store): Verdict {
    if s.chain == [] then (if ClosureExpected(s.transaction, s.chain) then TAMPERED else EMPTY)
    else if Tampered(check, s) then TAMPERED
    else if SomeUnreachable(check, s.chain, |s.chain|) then CHAIN_UNAVAILABLE
    else if !FinalProofAnchored(check, s.chain) then PARTIALLY_ANCHORED
    else VERIFIED
  }

  datatype Tally = Tally(tampered: bool, chainUnavailable: bool, anchoredCount: nat, results: seq<Checked>)

  lemma OneMore(check: Check, chain: seq<Event>, n: nat, c: Checked)
    requires n < |chain| && check(n) == Ok(c)
    ensures SomeFaulty(check, n + 1) <==> SomeFaulty(check, n) || Faulty(c)
    ensures SomeUnreachable(check, chain, n + 1)
            <==> SomeUnreachable(check, chain, n) || (c.anchor == None && chain[n].anchor.status == Anchored)
    ensures Confirmed(check, n + 1) == Confirmed(check, n) + (if c.anchor == Some(true) then {n as int} else {})
  {
  }

  /** The loop of `verify` over the chain, with its accumulators; `check` is `verifyEvent`. */
  method CheckEvents(check: Check, chain: seq<Event>, missing: bool) returns (r: Result<Tally, Error>)
    ensures r.Err? <==> !Completes(check, |chain|)
    ensures r.Ok? ==> |r.value.results| == |chain|
    ensures r.Ok? ==> forall i :: 0 <= i < |chain| ==> check(i) == Ok(r.value.results[i])
    ensures r.Ok? ==> (r.value.tampered <==> missing || SomeFaulty(check, |chain|))
    ensures r.Ok? ==> (r.value.chainUnavailable <==> SomeUnreachable(check, chain, |chain|))
    ensures r.Ok? ==> r.value.anchoredCount == |Confirmed(check, |chain|)|
  {
    var tampered, chainUnavailable, anchoredCount := false, false, 0;
    var results: seq<Checked> := [];
    if missing {
      tampered := true;
    }
    for index := 0 to |chain|
      invariant |results| == index
      invariant forall i :: 0 <= i < index ==> check(i) == Ok(results[i])
      invariant tampered <==> missing || SomeFaulty(check, index)
      invariant chainUnavailable <==> SomeUnreachable(check, chain, index)
      invariant anchoredCount == |Confirmed(check, index)|
    {
      var checked := check(index);
      if checked.Err? {
        return Err(checked.error);
      }
      var result := checked.value;
      OneMore(check, chain, index, result);
      results := results + [result];
      if !result.xsdValid || !result.fingerprintMatches || !result.chainIntact { tampered := true; }
      if result.anchor == Some(true) { anchoredCount := anchoredCount + 1; }
      if result.anchor == None && chain[index].anchor.status == Anchored { chainUnavailable := true; }
      if result.anchor == Some(false) { tampered := true; }
    }
    r := Ok(Tally(tampered, chainUnavailable, anchoredCount, results));
  }

  /** The count declared by the first closure, none without a closure. */
  function DeclaredCount(chain: seq<Event>): Option<int> {
    var c := ClosureIndex(chain);
    if c.Some? then chain[c.value].facts.closureEventCount else None
  }

  /** `verify`: the event loop, then the closing checks. It raises exactly when some event's check
      raises; otherwise its verdict is the one defined above. */
  method Verify(sc: Scheme, s: Store) returns (r: Result<Report, Error>)
    ensures r.Err? <==> !Completes(CheckAt(sc, s), |s.chain|)
    ensures r.Ok? ==> r.value.verdict == VerdictOf(CheckAt(sc, s), s)
    ensures r.Ok? ==> r.value.eventCount == |s.chain| && r.value.closed == HasClosure(s.chain)
    ensures r.Ok? ==> r.value.finalProofAnchored == FinalProofAnchored(CheckAt(sc, s), s.chain)
    ensures r.Ok? ==> r.value.transactionMatchesLedger == (if s.chain == [] then None else RowVerdict(s))
    ensures r.Ok? ==> r.value.anchoredCount == |Confirmed(CheckAt(sc, s), |s.chain|)|
    ensures r.Ok? ==> r.value.declaredEventCount == DeclaredCount(s.chain)
  {
    var check := CheckAt(sc, s);
    r := Conclude(check, s);
  }

  /** The closing figures: whether they contradict the chain, whether the closure is anchored, what it declares. */
  method CheckClosure(check: Check, s: Store, results: seq<Checked>)
      returns (faulty: bool, finalProofAnchored: bool, declaredEventCount: Option<int>)
    requires |results| == |s.chain| && forall i :: 0 <= i < |s.chain| ==> check(i) == Ok(results[i])
    ensures var c := ClosureIndex(s.chain);
            faulty <==> if c.Some? then ClosureFaulty(s.chain, c.value) else ClosureExpected(s.transaction, s.chain)
    ensures finalProofAnchored == FinalProofAnchored(check, s.chain) && declaredEventCount == DeclaredCount(s.chain)
  {
    var chain := s.chain;
    var closing := ClosureIndex(chain);
    faulty, finalProofAnchored, declaredEventCount := false, false, None;
    if closing.Some? {
      var c := closing.value;
      var k := First(chain, (e: Event) => e.facts.id == chain[c].facts.id);
      finalProofAnchored := k.Some? && results[k.value].anchor == Some(true);
      declaredEventCount := chain[c].facts.closureEventCount;
      if declaredEventCount != Some(|chain|) {
        faulty := true;
      }
      if c > 0 && LowerOpt(chain[c].facts.closureChainHead) != Some(Fingerprint.Lower(chain[c - 1].fingerprint)) {
        faulty := true;
      }
      if chain[c].facts.sequence != |chain| {
        faulty := true;
      }
    } else if ClosureExpected(s.transaction, chain) {
      faulty := true;
    }
  }

  method Conclude(check: Check, s: Store) returns (r: Result<Report, Error>)
    ensures r.Err? <==> !Completes(check, |s.chain|)
    ensures r.Ok? ==> r.value.verdict == VerdictOf(check, s)
    ensures r.Ok? ==> r.value.eventCount == |s.chain| && r.value.closed == HasClosure(s.chain)
    ensures r.Ok? ==> r.value.finalProofAnchored == FinalProofAnchored(check, s.chain)
    ensures r.Ok? ==> r.value.transactionMatchesLedger == (if s.chain == [] then None else RowVerdict(s))
    ensures r.Ok? ==> r.value.anchoredCount == |Confirmed(check, |s.chain|)|
    ensures r.Ok? ==> r.value.declaredEventCount == DeclaredCount(s.chain)
  {
    var chain := s.chain;
    if |chain| == 0 {
      return Ok(Report(if ClosureExpected(s.transaction, chain) then TAMPERED else EMPTY,
                       false, false, None, None, 0, 0));
    }
    var checked := CheckEvents(check, chain, s.transaction.None?);
    if checked.Err? {
      return Err(checked.error);
    }
    var tally := checked.value;
    var tampered := tally.tampered;

    if !RanksContinuous(chain) {
      tampered := true;
    }

    var faulty, finalProofAnchored, declaredEventCount := CheckClosure(check, s, tally.results);
    if faulty {
      tampered := true;
    }

    var transactionMatchesLedger := RowVerdict(s);
    if transactionMatchesLedger == Some(false) {
      tampered := true;
    }

    var verdict := if tampered then TAMPERED
                   else if tally.chainUnavailable then CHAIN_UNAVAILABLE
                   else if !finalProofAnchored then PARTIALLY_ANCHORED else VERIFIED;
    r := Ok(Report(verdict, ClosureIndex(chain).Some?, finalProofAnchored, transactionMatchesLedger, declaredEventCount,
                   |chain|, tally.anchoredCount));
  }

  // ---------------------------------------------------------------------------------------------
  // End-to-end commitment
  // ---------------------------------------------------------------------------------------------

  /** Two rows record one fact: the same serialised fields under the same salt, hence the same seal. */
  predicate SameEvent(a: Event, b: Event) {
    Canonical(a.facts) == Canonical(b.facts)
    && Fingerprint.Lower(a.salt) == Fingerprint.Lower(b.salt)
    && Fingerprint.Lower(a.fingerprint) == Fingerprint.Lower(b.fingerprint)
  }

  predicate SameChain(a: seq<Event>, b: seq<Event>) {
    |a| == |b| && forall i :: 0 <= i < |a| ==> SameEvent(a[i], b[i])
  }

  /** A serialiser whose documents determine their facts. */
  ghost predicate Faithful(document: Facts -> string) {
    forall f, g :: document(f) == document(g) ==> Canonical(f) == Canonical(g)
  }

  /** The registry's own serialiser is one. */
  lemma BuildIsFaithful(document: Facts -> string)
    requires forall f :: document(f) == Build(f)
    ensures Faithful(document)
  {
    forall f, g | document(f) == document(g) ensures Canonical(f) == Canonical(g) {
      assert document(f) == Build(f) && document(g) == Build(g);
      DocumentInjective(f, g);
    }
  }

  /** The byte strings hashed to seal a chain. */
  ghost function Seals(sc: Scheme, chain: seq<Event>): set<Bytes> {
    set i | 0 <= i < |chain| && Fingerprint.IsHex32(chain[i].salt)
      :: Fingerprint.Preimage(Fingerprint.FromHex(chain[i].salt), sc.document(chain[i].facts))
  }

  ghost predicate ChecksOut(sc: Scheme, chain: seq<Event>, i: nat)
    requires i < |chain|
  {
    Fingerprint.IsHex32(chain[i].salt)
    && Fingerprint.ComputeFingerprint(sc.hash, chain[i].salt, sc.document(chain[i].facts)).Some?
    && Fingerprint.Lower(Fingerprint.ComputeFingerprint(sc.hash, chain[i].salt, sc.document(chain[i].facts)).value)
       == Fingerprint.Lower(chain[i].fingerprint)
    && LowerOpt(chain[i].facts.previousFingerprint) == LowerOpt(FingerprintOf(Before(chain, i)))
  }

  /** Equal fingerprints: the two rows record one fact, or their seals collide. */
  lemma SameSeal(sc: Scheme, a: seq<Event>, b: seq<Event>, i: nat, j: nat, hashed: set<Bytes>)
    requires i < |a| && j < |b| && ChecksOut(sc, a, i) && Sealed(sc, b[j])
    requires Seals(sc, a) <= hashed && Seals(sc, b) <= hashed
    requires Fingerprint.Lower(a[i].fingerprint) == Fingerprint.Lower(b[j].fingerprint)
    requires Faithful(sc.document)
    ensures SameEvent(a[i], b[j]) || CollisionIn(sc.hash, hashed)
  {
    var x, y := a[i], b[j];
    var p := Fingerprint.Preimage(Fingerprint.FromHex(x.salt), sc.document(x.facts));
    var q := Fingerprint.Preimage(Fingerprint.FromHex(y.salt), sc.document(y.facts));
    assert p in Seals(sc, a) && q in Seals(sc, b);
    Fingerprint.HexWord(sc.hash(p));
    Fingerprint.HexWord(sc.hash(q));
    Fingerprint.SealBinds(sc.hash, x.salt, sc.document(x.facts), y.salt, sc.document(y.facts), hashed);
  }

  /** One fact, hence one link: the predecessors' fingerprints agree. */
  lemma SamePrevious(sc: Scheme, a: seq<Event>, b: seq<Event>, i: nat)
    requires 0 < i < |a| && i < |b| && ChecksOut(sc, a, i) && LinkAt(sc, b, i) && LinkAt(sc, b, i - 1)
    requires SameEvent(a[i], b[i])
    ensures Fingerprint.Lower(a[i - 1].fingerprint) == Fingerprint.Lower(b[i - 1].fingerprint)
  {
    assert Canonical(a[i].facts).previousFingerprint == Canonical(b[i].facts).previousFingerprint;
    assert a[i].facts.previousFingerprint == Some(b[i - 1].fingerprint);
  }

  /** One place: equal fingerprints there make one fact, and equal fingerprints at the place before. */
  lemma AgreeAt(sc: Scheme, a: seq<Event>, b: seq<Event>, i: nat, hashed: set<Bytes>)
    requires Comparable(sc, a, b, i + 1, hashed)
    requires Fingerprint.Lower(a[i].fingerprint) == Fingerprint.Lower(b[i].fingerprint)
    ensures CollisionIn(sc.hash, hashed)
            || (SameEvent(a[i], b[i])
                && (i > 0 ==> Fingerprint.Lower(a[i - 1].fingerprint) == Fingerprint.Lower(b[i - 1].fingerprint)))
  {
    assert LinkAt(sc, b, i) && ChecksOut(sc, a, i);
    SameSeal(sc, a, b, i, i, hashed);
    if i > 0 && SameEvent(a[i], b[i]) {
      assert LinkAt(sc, b, i - 1);
      SamePrevious(sc, a, b, i);
    }
  }

  ghost predicate Comparable(sc: Scheme, a: seq<Event>, b: seq<Event>, n: nat, hashed: set<Bytes>) {
    n <= |a| && n <= |b| && Linear(sc, b) && (forall i :: 0 <= i < n ==> ChecksOut(sc, a, i))
    && Seals(sc, a) <= hashed && Seals(sc, b) <= hashed && Faithful(sc.document)
  }

  /** From equal fingerprints at place n - 1 down to the first event. */
  lemma {:induction false} AgreeDown(sc: Scheme, a: seq<Event>, b: seq<Event>, n: nat, hashed: set<Bytes>)
    requires Comparable(sc, a, b, n, hashed)
    requires n > 0 ==> Fingerprint.Lower(a[n - 1].fingerprint) == Fingerprint.Lower(b[n - 1].fingerprint)
    ensures (forall i :: 0 <= i < n ==> SameEvent(a[i], b[i])) || CollisionIn(sc.hash, hashed)
  {
    if n > 0 {
      AgreeAt(sc, a, b, n - 1, hashed);
      if !CollisionIn(sc.hash, hashed) {
        AgreeDown(sc, a, b, n - 1, hashed);
      }
    }
  }

  /** An honestly recorded and closed chain. */
  ghost predicate Honest(sc: Scheme, chain: seq<Event>) {
    chain != [] && Linear(sc, chain) && IsClosure(chain[|chain| - 1])
  }

  ghost predicate AllHonest(sc: Scheme, honest: seq<seq<Event>>) {
    forall j :: 0 <= j < |honest| ==> Honest(sc, honest[j])
  }

  function Last(chain: seq<Event>): Event
    requires chain != []
  {
    chain[|chain| - 1]
  }

  lemma HonestClosure(sc: Scheme, chain: seq<Event>)
    requires Honest(sc, chain)
    ensures Sealed(sc, Last(chain)) && Last(chain).facts.sequence == |chain|
  {
    assert LinkAt(sc, chain, |chain| - 1);
  }

  /** The fingerprints of the closures of honest chains: the content of a published batch. */
  ghost function Closures(sc: Scheme, honest: seq<seq<Event>>): (r: seq<Word>)
    requires AllHonest(sc, honest)
    ensures |r| == |honest|
    ensures forall j :: 0 <= j < |honest| ==>
              honest[j] != [] && Fingerprint.IsHex32(Last(honest[j]).fingerprint)
              && r[j] == Fingerprint.FromHex(Last(honest[j]).fingerprint)
  {
    if honest == [] then []
    else
      var last := |honest| - 1;
      assert Honest(sc, honest[last]);
      HonestClosure(sc, honest[last]);
      Closures(sc, honest[..last]) + [Fingerprint.FromHex(Last(honest[last]).fingerprint)]
  }

  ghost function HonestSeals(sc: Scheme, honest: seq<seq<Event>>): set<Bytes> {
    if honest == [] then {} else HonestSeals(sc, honest[..|honest| - 1]) + Seals(sc, honest[|honest| - 1])
  }

  lemma {:induction false} SealsOfOne(sc: Scheme, honest: seq<seq<Event>>, j: nat)
    requires j < |honest|
    ensures Seals(sc, honest[j]) <= HonestSeals(sc, honest)
  {
    if j < |honest| - 1 {
      SealsOfOne(sc, honest[..|honest| - 1], j);
    }
  }

  /** Every byte string hashed when the honest chains were sealed and their batch was built, and when the
      chain under check, whose closure is `closing`, was verified. */
  ghost function AllHashed(sc: Scheme, chain: seq<Event>, closing: Event, honest: seq<seq<Event>>): set<Bytes>
    requires AllHonest(sc, honest)
  {
    Seals(sc, chain) + HonestSeals(sc, honest)
    + (if Fingerprint.IsHex32(closing.fingerprint) && closing.anchor.merkleProof.Some?
       then Merkle.Hashed(sc.hash, Closures(sc, honest), Fingerprint.FromHex(closing.fingerprint),
                          closing.anchor.merkleProof.value)
       else {})
  }

  /** The batch the event claims holds, on chain, the root built over the closures of `honest`. */
  ghost predicate PublishedFrom(sc: Scheme, s: Store, e: Event, honest: seq<seq<Event>>)
    requires AllHonest(sc, honest) && honest != []
  {
    e.anchor.batchId.Some? && e.anchor.batchId.value in s.published
    && s.published[e.anchor.batchId.value].merkleRoot
       == Merkle.Root(sc.hash, Merkle.LeavesOf(sc.hash, Closures(sc, honest)))
  }

  /** Identifiers are a primary key. */
  predicate UniqueIds(chain: seq<Event>) {
    forall i, j :: 0 <= i < j < |chain| ==> chain[i].facts.id != chain[j].facts.id
  }

  lemma CheckedMeans(sc: Scheme, s: Store, i: nat)
    requires i < |s.chain| && CheckAt(sc, s)(i).Ok? && !Faulty(CheckAt(sc, s)(i).value)
    ensures ChecksOut(sc, s.chain, i)
  {
    var e := s.chain[i];
    assert CheckAt(sc, s)(i) == CheckEvent(sc, s, e, Before(s.chain, i), s.rpc(i));
    assert Fingerprint.ComputeFingerprint(sc.hash, e.salt, sc.document(e.facts)).Some?;
  }

  /** A confirmed publication rests on a proof the contract accepted. */
  lemma AcceptedMeans(sc: Scheme, s: Store, e: Event, rpc: Rpc)
    requires CheckAnchor(sc, s, e, rpc) == Ok(Some(true))
    ensures Fingerprint.IsHex32(e.fingerprint) && e.anchor.merkleProof.Some? && e.anchor.batchId.Some?
            && e.anchor.batchId.value in s.published
            && Merkle.VerifyProof(sc.hash, sc.hash(Fingerprint.FromHex(e.fingerprint)), e.anchor.merkleProof.value,
                                  s.published[e.anchor.batchId.value].merkleRoot)
  {
    assert Fingerprint.ToLeaf(sc.hash, e.fingerprint).Some?;
  }

  lemma ConfirmedMeans(sc: Scheme, s: Store, i: nat)
    requires i < |s.chain| && CheckAt(sc, s)(i).Ok? && CheckAt(sc, s)(i).value.anchor == Some(true)
    ensures CheckAnchor(sc, s, s.chain[i], s.rpc(i)) == Ok(Some(true))
  {
    assert CheckAt(sc, s)(i) == CheckEvent(sc, s, s.chain[i], Before(s.chain, i), s.rpc(i));
  }

  /** What VERIFIED says of the shape of the chain: its one closure is its last event, confirmed on chain. */
  lemma VerifiedShape(check: Check, s: Store)
    requires UniqueIds(s.chain) && Completes(check, |s.chain|) && VerdictOf(check, s) == VERIFIED
    ensures s.chain != [] && IsClosure(Last(s.chain)) && Last(s.chain).facts.sequence == |s.chain|
    ensures check(|s.chain| - 1).Ok? && check(|s.chain| - 1).value.anchor == Some(true)
    ensures forall i :: 0 <= i < |s.chain| ==> check(i).Ok? && !Faulty(check(i).value)
  {
    var c := ClosureIndex(s.chain).value;
    var k := First(s.chain, (e: Event) => e.facts.id == s.chain[c].facts.id).value;
    assert c == |s.chain| - 1;
    assert k == c;
  }

  /** The closing fingerprint of the chain is that of one of the honest closures. */
  lemma ClosureIsPublished(sc: Scheme, s: Store, i: nat, honest: seq<seq<Event>>) returns (j: nat)
    requires AllHonest(sc, honest) && honest != [] && i < |s.chain|
    requires CheckAt(sc, s)(i).Ok? && CheckAt(sc, s)(i).value.anchor == Some(true)
    requires PublishedFrom(sc, s, s.chain[i], honest)
    ensures j < |honest| && honest[j] != []
    ensures Fingerprint.Lower(s.chain[i].fingerprint) == Fingerprint.Lower(Last(honest[j]).fingerprint)
            || CollisionIn(sc.hash, AllHashed(sc, s.chain, s.chain[i], honest))
  {
    ConfirmedMeans(sc, s, i);
    var e := s.chain[i];
    AcceptedMeans(sc, s, e, s.rpc(i));
    var closures := Closures(sc, honest);
    var fingerprint := Fingerprint.FromHex(e.fingerprint);
    Merkle.ProofsAreSound(sc.hash, closures, fingerprint, e.anchor.merkleProof.value);
    j := 0;
    if fingerprint in closures {
      j :| 0 <= j < |closures| && closures[j] == fingerprint;
      Fingerprint.SameTextSameWord(e.fingerprint, Last(honest[j]).fingerprint);
    } else {
      Widen(sc.hash, Merkle.Hashed(sc.hash, closures, fingerprint, e.anchor.merkleProof.value),
            AllHashed(sc, s.chain, e, honest));
    }
  }

  lemma Widen(h: Bytes -> Word, small: set<Bytes>, large: set<Bytes>)
    requires CollisionIn(h, small) && small <= large
    ensures CollisionIn(h, large)
  {
  }

  /** A verified chain whose closing fingerprint is that of an honest chain is that chain. */
  lemma SameClosureSameChain(sc: Scheme, a: seq<Event>, b: seq<Event>, hashed: set<Bytes>)
    requires Faithful(sc.document) && Honest(sc, b) && a != []
    requires forall i :: 0 <= i < |a| ==> ChecksOut(sc, a, i)
    requires Last(a).facts.sequence == |a|
    requires Fingerprint.Lower(Last(a).fingerprint) == Fingerprint.Lower(Last(b).fingerprint)
    requires Seals(sc, a) <= hashed && Seals(sc, b) <= hashed
    ensures SameChain(a, b) || CollisionIn(sc.hash, hashed)
  {
    HonestClosure(sc, b);
    assert ChecksOut(sc, a, |a| - 1);
    SameSeal(sc, a, b, |a| - 1, |b| - 1, hashed);
    if SameEvent(Last(a), Last(b)) {
      assert Canonical(Last(a).facts).sequence == Canonical(Last(b).facts).sequence;
      AgreeDown(sc, a, b, |a|, hashed);
    }
  }

  ghost predicate AnswersVerified(sc: Scheme, s: Store) {
    Completes(CheckAt(sc, s), |s.chain|) && VerdictOf(CheckAt(sc, s), s) == VERIFIED
  }

  lemma VerifiedChecksOut(sc: Scheme, s: Store)
    requires UniqueIds(s.chain) && AnswersVerified(sc, s)
    ensures s.chain != [] && Last(s.chain).facts.sequence == |s.chain|
    ensures CheckAt(sc, s)(|s.chain| - 1).Ok? && CheckAt(sc, s)(|s.chain| - 1).value.anchor == Some(true)
    ensures forall i :: 0 <= i < |s.chain| ==> ChecksOut(sc, s.chain, i)
  {
    VerifiedShape(CheckAt(sc, s), s);
    forall i | 0 <= i < |s.chain| ensures ChecksOut(sc, s.chain, i) {
      CheckedMeans(sc, s, i);
    }
  }

  /** END-TO-END COMMITMENT. Take any database contents on which `verify` answers VERIFIED, and suppose
      that the root published under the closure's batch was built over the closures of honestly recorded
      chains. Then the whole chain is one of those honest chains, event by event and in every serialised
      field, or two distinct byte strings among those actually hashed have one digest. */
  lemma VerifiedCommits(sc: Scheme, s: Store, honest: seq<seq<Event>>) returns (j: nat)
    requires Faithful(sc.document) && UniqueIds(s.chain) && AnswersVerified(sc, s)
    requires honest != [] && AllHonest(sc, honest)
    requires s.chain != [] ==> PublishedFrom(sc, s, Last(s.chain), honest)
    ensures s.chain != [] && j < |honest|
    ensures SameChain(s.chain, honest[j]) || CollisionIn(sc.hash, AllHashed(sc, s.chain, Last(s.chain), honest))
  {
    VerifiedChecksOut(sc, s);
    var hashed := AllHashed(sc, s.chain, Last(s.chain), honest);
    j := ClosureIsPublished(sc, s, |s.chain| - 1, honest);
    if !CollisionIn(sc.hash, hashed) {
      assert Honest(sc, honest[j]);
      SealsOfOne(sc, honest, j);
      SameClosureSameChain(sc, s.chain, honest[j], hashed);
    }
  }

  /** Facts with one serialised form: when one carries the parties, the other carries the same. */
  lemma SameParties(f: Facts, g: Facts)
    requires Canonical(f) == Canonical(g) && HasBlock(g, Parties)
    ensures f.debtorIban == g.debtorIban && f.creditorIban == g.creditorIban && f.creditorIban.Some?
    ensures f.creditorName.GetOr("") == g.creditorName.GetOr("")
    ensures Optional(f.debtorName) == Optional(g.debtorName)
    ensures Optional(f.endToEndLabel) == Optional(g.endToEndLabel)
    ensures f.expected == g.expected && f.currency == g.currency
  {
    assert Canonical(f).creditorIban == Canonical(g).creditorIban;
    assert Canonical(f).debtorIban == Canonical(g).debtorIban;
    assert Canonical(f).creditorName == Canonical(g).creditorName;
    assert Canonical(f).debtorName == Canonical(g).debtorName;
    assert Canonical(f).endToEndLabel == Canonical(g).endToEndLabel;
    assert Canonical(f).expected == Canonical(g).expected && Canonical(f).currency == Canonical(g).currency;
  }

  lemma VerifiedRow(check: Check, s: Store)
    requires s.chain != [] && VerdictOf(check, s) == VERIFIED && s.chain[0].facts.creditorIban.Some?
    ensures s.transaction.Some? && RowMatches(s.chain[0].facts, s.transaction.value)
  {
    assert OpeningIndex(s.chain) == Some(0);
  }

  /** The row of the transaction is bound too: what VERIFIED vouches for is what the honest opening
      recorded, up to the collapse of an empty optional text. */
  lemma VerifiedBindsRow(check: Check, s: Store, honest: seq<Event>)
    requires s.chain != [] && VerdictOf(check, s) == VERIFIED
    requires SameChain(s.chain, honest) && HasBlock(honest[0].facts, Parties)
    ensures s.transaction.Some?
    ensures var t, f := s.transaction.value, honest[0].facts;
            Some(t.debtorIban) == f.debtorIban && Some(t.creditorIban) == f.creditorIban
            && t.creditorName == f.creditorName.GetOr("") && t.amount == f.expected && t.currency == f.currency
            && Optional(t.debtorName) == Optional(f.debtorName)
            && Optional(t.endToEndLabel) == Optional(f.endToEndLabel)
  {
    assert SameEvent(s.chain[0], honest[0]);
    SameParties(s.chain[0].facts, honest[0].facts);
    VerifiedRow(check, s);
  }
}
