/** The verdict on chains the registry itself wrote: when an honest case is accused, and when not. */
module Verdicts {
  import opened Basics
  import opened EventXml
  import opened Registry
  import opened Verifier
  import opened Domain
  import Fingerprint
  import Merkle
  import Utf8

  /** END-TO-END COMMITMENT, for the registry's own serialiser: no assumption is left but the published
      root and the primary key. */
  lemma GatewayCommits(sc: Scheme, s: Store, honest: seq<seq<Event>>) returns (j: nat)
    requires forall f :: sc.document(f) == Build(f)
    requires UniqueIds(s.chain) && AnswersVerified(sc, s)
    requires honest != [] && AllHonest(sc, honest)
    requires s.chain != [] ==> PublishedFrom(sc, s, Last(s.chain), honest)
    ensures s.chain != [] && j < |honest|
    ensures SameChain(s.chain, honest[j]) || CollisionIn(sc.hash, AllHashed(sc, s.chain, Last(s.chain), honest))
  {
    BuildIsFaithful(sc.document);
    j := VerifiedCommits(sc, s, honest);
  }

  /** ANY FACT AFTER A CLOSURE ACCUSES. Whatever else the database holds, an event stored after a closure
      makes the verdict TAMPERED. */
  lemma LateFactIsTampering(check: Check, s: Store, c: nat)
    requires c + 1 < |s.chain| && IsClosure(s.chain[c])
    ensures VerdictOf(check, s) == TAMPERED
  {
    var first := ClosureIndex(s.chain).value;
    assert first <= c;
    if RanksContinuous(s.chain) {
      assert s.chain[first].facts.sequence == first + 1;
    }
  }

  /** A linear event passes content and order. */
  lemma HonestEventPasses(sc: Scheme, s: Store, i: nat)
    requires Linear(sc, s.chain) && i < |s.chain|
    requires CheckAnchor(sc, s, s.chain[i], s.rpc(i)).Ok?
    ensures CheckAt(sc, s)(i).Ok?
    ensures var c := CheckAt(sc, s)(i).value;
            c.fingerprintMatches && c.chainIntact && c.xsdValid == sc.valid(sc.document(s.chain[i].facts))
            && Ok(c.anchor) == CheckAnchor(sc, s, s.chain[i], s.rpc(i))
  {
    assert LinkAt(sc, s.chain, i);
    assert CheckAt(sc, s)(i) == CheckEvent(sc, s, s.chain[i], Before(s.chain, i), s.rpc(i));
  }

  /** The closure of a linear chain is consistent exactly when it is the last event. */
  lemma HonestClosureFigures(sc: Scheme, chain: seq<Event>, c: nat)
    requires Linear(sc, chain) && c < |chain| && IsClosure(chain[c])
    ensures ClosureFaulty(chain, c) <==> c != |chain| - 1
    ensures ClosureIndex(chain) == Some(c)
  {
    assert LinkAt(sc, chain, c);
  }

  ghost predicate AnchorsHold(sc: Scheme, s: Store) {
    forall i :: 0 <= i < |s.chain| ==>
      CheckAnchor(sc, s, s.chain[i], s.rpc(i)).Ok? && CheckAnchor(sc, s, s.chain[i], s.rpc(i)).value != Some(false)
  }

  lemma HonestEventsPass(sc: Scheme, s: Store)
    requires Linear(sc, s.chain) && DocumentsValid(sc, s.chain) && AnchorsHold(sc, s)
    ensures Completes(CheckAt(sc, s), |s.chain|) && !SomeFaulty(CheckAt(sc, s), |s.chain|)
  {
    forall i | 0 <= i < |s.chain| ensures CheckAt(sc, s)(i).Ok? && !Faulty(CheckAt(sc, s)(i).value) {
      HonestEventPasses(sc, s, i);
    }
  }

  lemma HonestRanks(sc: Scheme, chain: seq<Event>)
    requires Linear(sc, chain)
    ensures RanksContinuous(chain)
  {
    forall i | 0 <= i < |chain| ensures chain[i].facts.sequence == i + 1 {
      assert LinkAt(sc, chain, i);
    }
  }

  /** The one way an honestly written chain is accused: a fact after the closure, a final state without a
      closure, or a row that differs from its opening. */
  predicate Accused(s: Store) {
    (HasClosure(s.chain) && !IsClosure(Last(s.chain)))
    || (!HasClosure(s.chain) && ClosureExpected(s.transaction, s.chain))
    || RowVerdict(s) == Some(false)
  }

  /** The closing checks, for any outcome of the event checks that accuses nothing. */
  lemma VerdictWithoutFault(check: Check, s: Store)
    requires s.chain != [] && s.transaction.Some? && !SomeFaulty(check, |s.chain|) && RanksContinuous(s.chain)
    requires ClosureIndex(s.chain).Some? <==> HasClosure(s.chain)
    requires ClosureIndex(s.chain).Some? ==>
               (ClosureFaulty(s.chain, ClosureIndex(s.chain).value) <==> !IsClosure(Last(s.chain)))
    ensures VerdictOf(check, s) == TAMPERED <==> Accused(s)
  {
  }

  lemma HonestClosure(sc: Scheme, chain: seq<Event>)
    requires Linear(sc, chain) && chain != []
    ensures ClosureIndex(chain).Some? <==> HasClosure(chain)
    ensures ClosureIndex(chain).Some? ==> (ClosureFaulty(chain, ClosureIndex(chain).value) <==> !IsClosure(Last(chain)))
  {
    var c := ClosureIndex(chain);
    if c.Some? {
      assert IsClosure(chain[c.value]);
      HonestClosureFigures(sc, chain, c.value);
    }
  }

  /** HONEST VERDICTS, EXACTLY. On a chain written by `record`, with valid documents and sound anchors,
      `verify` never raises, and answers TAMPERED if and only if the chain is accused as above. */
  lemma HonestVerdict(sc: Scheme, s: Store)
    requires s.chain != [] && s.transaction.Some?
    requires Linear(sc, s.chain) && DocumentsValid(sc, s.chain) && AnchorsHold(sc, s)
    ensures Completes(CheckAt(sc, s), |s.chain|)
    ensures VerdictOf(CheckAt(sc, s), s) == TAMPERED <==> Accused(s)
  {
    HonestEventsPass(sc, s);
    HonestRanks(sc, s.chain);
    HonestClosure(sc, s.chain);
    VerdictWithoutFault(CheckAt(sc, s), s);
  }

  // ---------------------------------------------------------------------------------------------
  // The verdict, column by column
  // ---------------------------------------------------------------------------------------------

  /** The row says that nothing more is expected. */
  predicate RowIsFinal(t: Transaction) {
    (t.paymentChannel == LegacyTransfer && (t.status == StCompleted || t.status == StFailed))
    || (t.providerStatus == Some(PFailed) && t.reconciliationStatus == Some(RNotApplicable))
    || t.reconciliationStatus == Some(RMatched) || t.refundStatus == Some(FCompleted)
  }

  /** A fact says so. */
  predicate FactIsFinal(e: Event) {
    e.facts.eventType == TransferCompleted || e.facts.eventType == TransferFailed || e.facts.eventType == ProviderFailed
    || e.facts.eventType == ReconciliationMatched || e.facts.eventType == RefundCompleted
  }

  predicate NeverClosed(chain: seq<Event>) { forall i :: 0 <= i < |chain| ==> chain[i].facts.eventType != CaseClosed }

  /** The row or a fact of the chain says that the case is over. */
  ghost predicate Over(s: Store) {
    (s.transaction.Some? && RowIsFinal(s.transaction.value))
    || exists i :: 0 <= i < |s.chain| && FactIsFinal(s.chain[i])
  }

  lemma ExpectedIff(s: Store)
    ensures ClosureExpected(s.transaction, s.chain) <==> Over(s)
  {
    if i :| 0 <= i < |s.chain| && EndsCase(s.chain[i].facts.eventType) {
      assert FactIsFinal(s.chain[i]);
    }
  }

  /** A REMOVED CLOSURE IS SEEN. Whatever else the database holds: a case that its row, or a fact still there, shows to
      be over, and whose chain holds no closure, is TAMPERED, an empty chain included. */
  lemma MissingClosureIsTampering(check: Check, s: Store)
    requires NeverClosed(s.chain) && Over(s)
    ensures VerdictOf(check, s) == TAMPERED
  {
    ExpectedIff(s);
    NoClosure(s.chain);
  }

  lemma NoClosure(chain: seq<Event>)
    requires NeverClosed(chain)
    ensures ClosureIndex(chain).None?
  {
    assert forall i :: 0 <= i < |chain| ==> !IsClosure(chain[i]);
  }

  /** The link an event should carry. */
  function LinkBefore(chain: seq<Event>, i: nat): Option<string>
    requires i < |chain|
  {
    if i == 0 then None else Some(Fingerprint.Lower(chain[i - 1].fingerprint))
  }

  /** The text an event should be sealed with. */
  function SealText(sc: Scheme, e: Event): string
    requires Fingerprint.IsHex32(e.salt)
  {
    Fingerprint.ToHex(sc.hash(Fingerprint.FromHex(e.salt) + Utf8.Encode(sc.document(e.facts))))
  }

  /** One event gives the chain away: its document breaks the schema, its seal or its link is not the one it should be,
      or its publication is denied. */
  ghost predicate GivesAway(sc: Scheme, s: Store, i: nat)
    requires i < |s.chain|
  {
    var e := s.chain[i];
    !sc.valid(sc.document(e.facts))
    || (Fingerprint.IsHex32(e.salt) && SealText(sc, e) != Fingerprint.Lower(e.fingerprint))
    || LowerOpt(e.facts.previousFingerprint) != LinkBefore(s.chain, i)
    || CheckAnchor(sc, s, e, s.rpc(i)) == Ok(Some(false))
  }

  lemma EventChecked(sc: Scheme, s: Store, i: nat)
    requires i < |s.chain| && CheckAt(sc, s)(i).Ok?
    ensures Faulty(CheckAt(sc, s)(i).value) <==> GivesAway(sc, s, i)
    ensures Ok(CheckAt(sc, s)(i).value.anchor) == CheckAnchor(sc, s, s.chain[i], s.rpc(i))
    ensures Fingerprint.IsHex32(s.chain[i].salt)
  {
    var e := s.chain[i];
    assert CheckAt(sc, s)(i) == CheckEvent(sc, s, e, Before(s.chain, i), s.rpc(i));
    Fingerprint.SealIs(sc.hash, e.salt, sc.document(e.facts));
    Fingerprint.HexWord(sc.hash(Fingerprint.FromHex(e.salt) + Utf8.Encode(sc.document(e.facts))));
  }

  /** The first closure contradicts the chain: its count, its head or its rank. */
  ghost predicate ClosureLies(chain: seq<Event>, c: nat)
    requires c < |chain|
  {
    chain[c].facts.eventType == CaseClosed && NeverClosed(chain[..c])
    && (chain[c].facts.closureEventCount != Some(|chain|) || chain[c].facts.sequence != |chain|
        || (c > 0 && LowerOpt(chain[c].facts.closureChainHead) != LinkBefore(chain, c)))
  }

  /** The first opening does not say what the row says. */
  ghost predicate RowDiffers(s: Store, o: nat)
    requires o < |s.chain|
  {
    s.transaction.Some? && s.chain[o].facts.creditorIban.Some?
    && (forall i :: 0 <= i < o ==> s.chain[i].facts.creditorIban.None?)
    && var f, t := s.chain[o].facts, s.transaction.value;
       !(f.debtorIban == Some(t.debtorIban) && f.debtorName == t.debtorName && f.creditorIban == Some(t.creditorIban)
         && f.creditorName == Some(t.creditorName) && f.endToEndLabel == t.endToEndLabel && f.expected == t.amount
         && f.currency == t.currency)
  }

  /** The ways a chain is found out. */
  ghost predicate FoundOut(sc: Scheme, s: Store) {
    s.transaction.None?
    || (exists i :: 0 <= i < |s.chain| && GivesAway(sc, s, i))
    || (exists i :: 0 <= i < |s.chain| && s.chain[i].facts.sequence != i + 1)
    || (exists c :: 0 <= c < |s.chain| && ClosureLies(s.chain, c))
    || (NeverClosed(s.chain) && Over(s))
    || (exists o :: 0 <= o < |s.chain| && RowDiffers(s, o))
  }

  lemma FaultyIff(sc: Scheme, s: Store)
    requires Completes(CheckAt(sc, s), |s.chain|)
    ensures SomeFaulty(CheckAt(sc, s), |s.chain|) <==> exists i :: 0 <= i < |s.chain| && GivesAway(sc, s, i)
  {
    forall i | 0 <= i < |s.chain| ensures Faulty(CheckAt(sc, s)(i).value) <==> GivesAway(sc, s, i) {
      EventChecked(sc, s, i);
    }
    if i :| 0 <= i < |s.chain| && GivesAway(sc, s, i) {
      assert Faulty(CheckAt(sc, s)(i).value);
    }
  }

  lemma ClosureIff(s: Store)
    ensures var c := ClosureIndex(s.chain);
            (if c.Some? then ClosureFaulty(s.chain, c.value) else ClosureExpected(s.transaction, s.chain))
            <==> (exists c :: 0 <= c < |s.chain| && ClosureLies(s.chain, c)) || (NeverClosed(s.chain) && Over(s))
  {
    ExpectedIff(s);
    var c := ClosureIndex(s.chain);
    if c.Some? {
      assert s.chain[c.value].facts.eventType == CaseClosed;
      assert NeverClosed(s.chain[..c.value]);
      assert ClosureFaulty(s.chain, c.value) <==> ClosureLies(s.chain, c.value);
      forall k | 0 <= k < |s.chain| && ClosureLies(s.chain, k) ensures k <= c.value {
        FirstOnly(s.chain, c.value, k);
      }
    }
  }

  lemma FirstOnly(chain: seq<Event>, c: nat, k: nat)
    requires k < |chain| && c < |chain| && chain[c].facts.eventType == CaseClosed && NeverClosed(chain[..k])
    ensures k <= c
  {
    assert forall i :: 0 <= i < k ==> chain[..k][i] == chain[i];
  }

  lemma RowIff(s: Store)
    ensures RowVerdict(s) == Some(false) <==> exists o :: 0 <= o < |s.chain| && RowDiffers(s, o)
  {
    var o := OpeningIndex(s.chain);
    if o.Some? {
      assert RowVerdict(s) == Some(false) <==> RowDiffers(s, o.value);
      forall k | 0 <= k < |s.chain| && RowDiffers(s, k) ensures k == o.value {
      }
    }
  }

  lemma RanksIff(chain: seq<Event>)
    ensures !RanksContinuous(chain) <==> exists i :: 0 <= i < |chain| && chain[i].facts.sequence != i + 1
  {
  }

  /** TAMPERED, EXACTLY. On any database on which the check of every event completes, a chain that is not empty is
      TAMPERED if and only if its row is gone, an event gives it away, a rank is missing, its closure lies, it lacks a
      closure its row or its facts call for, or its row differs from its opening. */
  lemma TamperedIff(sc: Scheme, s: Store)
    requires s.chain != [] && Completes(CheckAt(sc, s), |s.chain|)
    ensures VerdictOf(CheckAt(sc, s), s) == TAMPERED <==> FoundOut(sc, s)
  {
    FaultyIff(sc, s);
    ClosureIff(s);
    RowIff(s);
    RanksIff(s.chain);
    TamperedMeans(CheckAt(sc, s), s);
  }

  lemma TamperedMeans(check: Check, s: Store)
    requires s.chain != []
    ensures VerdictOf(check, s) == TAMPERED
            <==> s.transaction.None? || SomeFaulty(check, |s.chain|) || !RanksContinuous(s.chain)
                 || (var c := ClosureIndex(s.chain);
                     if c.Some? then ClosureFaulty(s.chain, c.value) else ClosureExpected(s.transaction, s.chain))
                 || RowVerdict(s) == Some(false)
  {
  }

  /** The publication of the first closure is confirmed. */
  ghost predicate ClosureConfirmed(sc: Scheme, s: Store) {
    exists c :: 0 <= c < |s.chain| && s.chain[c].facts.eventType == CaseClosed
                && CheckAnchor(sc, s, s.chain[c], s.rpc(c)) == Ok(Some(true))
  }

  /** Some event is marked as anchored, and nobody could tell. */
  ghost predicate OutOfReach(sc: Scheme, s: Store) {
    exists i :: 0 <= i < |s.chain| && s.chain[i].anchor.status == Anchored
                && CheckAnchor(sc, s, s.chain[i], s.rpc(i)) == Ok(None)
  }

  lemma ReachIff(sc: Scheme, s: Store)
    requires Completes(CheckAt(sc, s), |s.chain|)
    ensures SomeUnreachable(CheckAt(sc, s), s.chain, |s.chain|) <==> OutOfReach(sc, s)
  {
    forall i | 0 <= i < |s.chain|
      ensures CheckAt(sc, s)(i).value.anchor == None <==> CheckAnchor(sc, s, s.chain[i], s.rpc(i)) == Ok(None)
    {
      EventChecked(sc, s, i);
    }
    if i :| 0 <= i < |s.chain| && s.chain[i].anchor.status == Anchored
            && CheckAnchor(sc, s, s.chain[i], s.rpc(i)) == Ok(None) {
      assert CheckAt(sc, s)(i).value.anchor == None;
    }
  }

  /** A closure at most, as in every chain the unique index allows. */
  predicate OneClosure(chain: seq<Event>) {
    forall i, j :: 0 <= i < j < |chain| ==>
      !(chain[i].facts.eventType == CaseClosed && chain[j].facts.eventType == CaseClosed)
  }

  lemma ConfirmedIff(sc: Scheme, s: Store)
    requires Completes(CheckAt(sc, s), |s.chain|) && UniqueIds(s.chain) && OneClosure(s.chain)
    ensures FinalProofAnchored(CheckAt(sc, s), s.chain) <==> ClosureConfirmed(sc, s)
  {
    var c := ClosureIndex(s.chain);
    if c.Some? {
      var k := First(s.chain, (e: Event) => e.facts.id == s.chain[c.value].facts.id).value;
      assert k == c.value;
      EventChecked(sc, s, k);
      assert s.chain[k].facts.eventType == CaseClosed;
    } else {
      forall i | 0 <= i < |s.chain| ensures s.chain[i].facts.eventType != CaseClosed {
        assert !IsClosure(s.chain[i]);
      }
    }
  }

  /** THE OTHER VERDICTS, EXACTLY. An empty chain is EMPTY unless its row calls for a closure. A chain that is not found
      out is CHAIN_UNAVAILABLE if an event marked as anchored could not be told, else VERIFIED if its closure is
      confirmed on the chain, else PARTIALLY_ANCHORED. */
  lemma VerdictTable(sc: Scheme, s: Store)
    requires Completes(CheckAt(sc, s), |s.chain|) && UniqueIds(s.chain) && OneClosure(s.chain)
    ensures VerdictOf(CheckAt(sc, s), s)
            == if s.chain == [] then (if s.transaction.Some? && RowIsFinal(s.transaction.value) then TAMPERED
                                      else EMPTY)
               else if FoundOut(sc, s) then TAMPERED
               else if OutOfReach(sc, s) then CHAIN_UNAVAILABLE
               else if ClosureConfirmed(sc, s) then VERIFIED
               else PARTIALLY_ANCHORED
  {
    if s.chain == [] {
      ExpectedIff(s);
    } else {
      TamperedIff(sc, s);
      ReachIff(sc, s);
      ConfirmedIff(sc, s);
    }
  }

  /** THE PUBLICATION OF AN EVENT, EXACTLY. It is looked at only when the event is marked, with a batch and a proof. It
      is confirmed when the proof carries the digest of the fingerprint to the root of the batch, and the contract holds
      that root; denied when the batch is unknown, here or there, or the proof or the root is wrong; and undecided when
      the node does not answer in time. */
  lemma AnchorTable(sc: Scheme, s: Store, e: Event, rpc: Rpc)
    ensures var marked := e.anchor.status == Anchored && e.anchor.batchId.Some? && e.anchor.batchId != Some("")
                          && e.anchor.merkleProof.Some?;
            (!marked ==> CheckAnchor(sc, s, e, rpc) == Ok(None))
            && (marked ==>
                  var id, proof := e.anchor.batchId.value, e.anchor.merkleProof.value;
                  var known, readable := id in s.batches, Fingerprint.IsHex32(e.fingerprint);
                  var proven := known && readable
                                && Merkle.VerifyProof(sc.hash, sc.hash(Fingerprint.FromHex(e.fingerprint)), proof,
                                                      s.batches[id].merkleRoot);
                  var same := known && id in s.published && s.published[id].merkleRoot == s.batches[id].merkleRoot;
                  CheckAnchor(sc, s, e, rpc)
                  == if !known then Ok(Some(false))
                     else if !readable then Err(MalformedFingerprint)
                     else if !proven then Ok(Some(false))
                     else if rpc == ReadFails then Ok(None)
                     else if !same then Ok(Some(false))
                     else if rpc == CheckFails then Ok(None)
                     else Ok(Some(true)))
  {
    Fingerprint.SealIs(sc.hash, e.fingerprint, "");
  }
}
