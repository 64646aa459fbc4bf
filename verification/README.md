# A verified model of the payment gateway

This project models, in Dafny, the parts of the gateway on which its guarantees rest, and proves them:
tamper evidence of the event registry, the payment protocol of a Mobile Money transaction, its double-entry
ledger, refunds, and the anchoring of closed cases on an immutable contract. `dafny verify dfyconfig.toml`
checks all of it.

## How the model is built

* **Tamper evidence.** `EventXml` is the canonical document, `Fingerprint` the salted seal, `Merkle` the tree
  and its proofs, `Registry` the drafting, chaining and retry loop of the registry, `Writers` every interleaving
  of concurrent writers, `Verifier` the integrity check, `Verdicts` what its verdicts are worth; `EventText` spells the
  document out word for word and `AuditAnchor` is the contract that checks the proofs. The hash is a
  parameter; soundness is stated as "the data agree, or two distinct members of a named finite set of hashed
  byte strings collide", so that no false assumption about the hash is made.
* **Payment protocol.** `Gateway` is a transition system over the row, the registry of facts, the bank
  instruction and the refund file. Each SQL transaction is one atomic step. Handlers are any in number, interleave,
  act on snapshots read earlier and on entities mutated before a rollback, and may crash between any two steps.
  A `Rule` restricts the runs a theorem speaks of:
  - `Safety` needs no rule at all, and neither does the bank half of `Doubles`;
  - `Leases` asks that workers act within their lease, and that an instruction whose save failed on the last attempt
    is not abandoned over a leg already refused; every other failing save is allowed;
  - `RefundRuns`, `LedgerRuns` and `Honest` ask in addition that refund attempts do not overlap.

  `Currencies` says what it takes for a notification to conform, and what a fresh one decides.
  Where a guarantee fails without its rule, `Doubles`, `Honest` and `Races` say exactly which steps break it, and
  `Witnesses` and `Races` give runs in which they are taken.
* **Services as they are written.** `Services`, `RefundService`, `Passes` and `AnchorService` hold the handlers
  and the periodic loops as methods that mutate entities and tables. A handler is proved against the steps of the
  protocol taken one after the other by one worker or one attempt left alone (`Services.Drive`, `RefundService.Carry`),
  so that the theorems about runs apply to it, and the loops call the handlers, exceptions that leave them included.
* **Anchoring.** `Anchoring` is a second transition system: batches, closures, workers with private copies,
  submitted writes that are mined late or never, foreign submitters, and a write-once contract. `AnchorSafety` is what every
  run keeps, `AnchorRuns` adds the advisory lock, `AnchorFailures` what a failed batch tells of the chain, `BatchLeaves`
  the rebuilding of leaves from ranks.
* **Checks on their own.** `StateMachine`, `Ledger`, `WebhookCodec`, `Webhooks`, `Iban`.

Amounts are whole cents, the fee rate is a fraction p/q, clocks are natural numbers of milliseconds. Clocks, random
salts and keys, replies of the bank, of the refund provider and of the blockchain node, and rollbacks are parameters
of the steps.

## What the code does that its documentation does not say

* Every successful sweep is recorded after the closure of its case, and is therefore accused (`Races.EverySweepIsAccused`,
  `Races.SweptRun`).
* A second refusal notification under a new identifier is appended after the closure (`Races.TwiceRefusedRun`).
* A notification handled on a stale row can take a refused payment to a blocked one (`Races.StaleMismatchRun`).
* The reconciliation of the worker and the periodic one can overlap and both record a match
  (`Races.StalePassRun`, `Races.StaleWorkerRun`).
* These four are all that accuses an orderly payment (`Honest.AccusedIff`).
* A worker past its lease overwrites what its successor decided (`Witnesses.ZombiePostsBoth`).
* When the bank refuses on the last attempt and the save of the instruction then fails, the refusal is posted twice
  (`Witnesses.LostSavePostsTwice`).
* Overlapping refund attempts pay once but are recorded twice (`Witnesses.OverlapBreaksTheLedger`).
* A rejection of the refund provider lost by a crash before it is recorded does not stop the retry worker
  (`Witnesses.LostRejectionIsRetried`, `RefundRuns.CalledAgainIff`).
* An expired webhook claim can be taken over by two handlers (`Webhooks.TakeoverIsShared`).
* When something local fails after the bank has said yes on the last attempt, the dead letter is refused, the exception
  ends the draining pass, and the other due instructions wait for the next one (`Passes.DrainCanStop`). So it does when
  a save fails in the catch (`Services.WorkerEscapes`).
* When the recording of a paid refund is rolled back late, its failure cannot be recorded either, and the exception ends
  the retry pass (`Passes.RetryCanStop`).
* A batch marked failed may be on the chain, or get there later (`AnchorFailures.FailedYetOnChain`,
  `AnchorFailures.BlindLookFails`).
* The state machine never refuses a move to null (`StateMachine.NullUndoesTerminal`).

## Model

| member | source | states |
|---|---|---|
| `Merkle.BuildMerkleTree` | src/blockchain/merkle.util.ts:43-64 | An empty list and the first malformed leaf are refused; otherwise the loops give exactly the layers and the root of the recursive definition |
| `Merkle.PairIsSorted` | src/blockchain/merkle.util.ts:33-36 | A pair is hashed as the two words one after the other, the one whose big-endian number is smaller in front |
| `Merkle.LayersPairUp` | src/blockchain/merkle.util.ts:43-64 | Every node of every layer is the hash of its two children, so sorted, or the promoted orphan |
| `Merkle.GetProof` | src/blockchain/merkle.util.ts:70-92 | The XOR/halving loop collects the siblings of the recursive definition, skipping promoted orphans; an index out of range is refused |
| `Merkle.ProofsVerify` | src/blockchain/merkle.util.ts:70-110 | Completeness: for every non-empty list of leaves and every index the collected proof carries the leaf to the root |
| `Merkle.TreeAndProofSize` | src/blockchain/merkle.util.ts:43-92 | There are ceil(log2 n) + 1 layers and no proof is longer than ceil(log2 n) |
| `Merkle.ProofsAreSound` | src/blockchain/merkle.util.ts:33-110 | Soundness: whatever proof of whatever length carries a fingerprint's leaf to the root, that fingerprint is in the list, or two distinct byte strings hashed by the tree and the proof collide (leaf/node confusion included) |
| `AuditAnchor.Contract.VerifyInclusion` | contracts/AuditAnchor.sol:150-172 | The loop of the contract, which compares words as numbers, accepts exactly the proofs the gateway accepts against the root it holds; an unknown batch reverts |
| `AuditAnchor.Contract.AnchorBatch` | contracts/AuditAnchor.sol:103-117 | Accepted if and only if the sender is a submitter, the batch is not empty, the root not null and the identifier new; otherwise reverts for the first of these reasons and changes nothing |
| `Fingerprint.HexText` | src/blockchain/fingerprint.util.ts:42-55 | Hexadecimal texts equal but for case are one 32-byte word |
| `Fingerprint.SealIs` | src/blockchain/fingerprint.util.ts:42-55 | A fingerprint is the hexadecimal digest of the 32 bytes of the salt followed by the UTF-8 bytes of the document, a leaf the digest of the 32 bytes of a fingerprint; malformed texts have neither |
| `Fingerprint.SealBinds` | src/blockchain/fingerprint.util.ts:42-48 | One fingerprint for two sealed documents means the same salt and document, or a collision of two named preimages |
| `EventXml.FivePassesAreOne` | src/events/transaction-event-xml.builder.ts:138-145 | The five sequential replacements equal a one-pass, character by character escape |
| `EventXml.EscapeInverted` | src/events/transaction-event-xml.builder.ts:138-145 | Escaped text holds no markup character and unescapes to the value |
| `EventText.DocumentIs` | src/events/transaction-event-xml.builder.ts:45-154 | For every fact the builder writes, character for character, the document spelt out apart from it: declaration, namespace, version, each element under its name, in order and indentation, optional ones left out when empty, partial blocks left out whole |
| `Decimal.Fixed2Reads` | src/events/transaction-event-xml.builder.ts:147-149 | The text of an amount is its units without a leading zero, a point and its two cents |
| `EventXml.DocumentDeterminesFields` | src/events/transaction-event-xml.builder.ts:45-136 | Equal documents carry one version and the same text under every tag, with no assumption on the version |
| `EventXml.DocumentInjective` | src/events/transaction-event-xml.builder.ts:45-154 | Two facts have one document if and only if they agree on every serialised field, up to the collapses of the builder (empty or absent optionals, partial blocks) |
| `WebhookCodec.DecodeRender` | src/mobile-money/mobile-money-webhook.service.ts:150-165 | A decoder recovers any list of fields, separators and digits included, from its length-prefixed rendering |
| `WebhookCodec.CanonicalText` | src/mobile-money/mobile-money-webhook.service.ts:150-165 | The signed text is the seven fields in their order, each behind the number of its bytes and a colon, joined by bars |
| `WebhookCodec.CanonicalInjective` | src/mobile-money/mobile-money-webhook.service.ts:150-165 | Two payloads have one canonical text if and only if all seven rendered fields agree |
| `Webhooks.Inbox.RegisterAndClaim` | src/mobile-money/mobile-money-webhook.service.ts:167-229 | A known identifier is a conflict if and only if some signed field differs; a notification that is received, failed or claimed for more than five minutes is claimed if and only if other handlers have left its status as it was read, exactly as the claiming step of the interleavings does; nothing else changes |
| `Webhooks.SameContent` | src/mobile-money/mobile-money-webhook.service.ts:184-195 | An identifier is accepted again if and only if every signed field is the same |
| `Webhooks.FreshClaim` | src/mobile-money/mobile-money-webhook.service.ts:196-229 | A delivery that reads and claims with nobody in between holds the notification if and only if it is received, or failed, or claimed for more than five minutes |
| `Webhooks.ClaimsAreExclusive` | src/mobile-money/mobile-money-webhook.service.ts:196-228 | For any interleaving of deliveries and crashes, as long as no expired claim is taken over, at most one handler holds the notification |
| `Webhooks.SharedIff` | src/mobile-money/mobile-money-webhook.service.ts:196-228 | For any interleaving of deliveries and crashes, two handlers hold the notification at once if and only if an expired claim is taken over while another handler is still at work on it |
| `Webhooks.TakeoverIsShared` | src/mobile-money/mobile-money-webhook.service.ts:205-228 | A concrete run in which two handlers both take over one expired claim |
| `Iban.Mod97` | src/common/validators/is-iban.validator.ts:104-110 | For digit strings of any length the streaming loop gives the remainder of the whole number |
| `Iban.IsValidIban` | src/common/validators/is-iban.validator.ts:96-129 | Accepts exactly the texts that, without blanks and dashes and in upper case, have the right alphabet, the length of their country when it is known and 15 to 34 characters when it is not, and remainder 1 |
| `Iban.CheckDigits` | src/common/validators/is-iban.validator.ts:113-129 | For every text: accepted if and only if it has the structure of an IBAN and its check digits are, modulo 97, 98 less the remainder of account, country and two zeros, letters spelt out as 10 to 35 |
| `Iban.NormalizeIs` | src/common/validators/is-iban.validator.ts:96-98 | The normal form leaves out every blank and hyphen and raises every letter, character by character |
| `Iban.SubstitutionRejected` | src/common/validators/is-iban.validator.ts:104-129 | Replacing any one character of a valid IBAN by another of its class makes it invalid |
| `Iban.TranspositionRejected` | src/common/validators/is-iban.validator.ts:104-129 | Exchanging two unequal neighbours of one class, across the moved prefix included, makes it invalid |
| `StateMachine.IllegalMoves` | src/transactions/state/transaction-state.machine.ts:88-113 | The loop reports exactly the dimensions whose move the tables refuse, in order |
| `StateMachine.AssertTransition` | src/transactions/state/transaction-state.machine.ts:57-72 | No violation if and only if the passage is legal; each refused move and each broken invariant is reported, and nothing else |
| `StateMachine.LegalIff` | src/transactions/state/transaction-state.ts:44-192 | A passage is legal if and only if every column keeps its value, touches null or follows one of the listed arrows, and the result satisfies the five invariants, stated as what they forbid |
| `StateMachine.TerminalAbsorbs` | src/transactions/state/transaction-state.ts:44-120 | Along any legal history a terminal value stays, unless the dimension was null in between |
| `StateMachine.NullUndoesTerminal` | src/transactions/state/transaction-state.machine.ts:96-98 | Two legal passages through null undo a completed bank leg |
| `StateMachine.FilledHistory` | src/transactions/state/transaction-state.ts:143-192 | Without nulls terminal values are absorbing and every reached state satisfies the five invariants |
| `Ledger.FeeBounds` | src/mobile-money/mobile-money.service.ts:40-40 | For every amount and every rate in [0,1) the rounded fee is the whole number at most half a cent above the exact fee and less than half a cent below it, not negative and not above the amount |
| `Ledger.PostingBalances` | src/accounting/posting-rules.ts:39-140 | Every posted line is positive, and debits equal credits after zero lines are dropped if and only if the fee fits the rule |
| `Ledger.ConfirmationBalances` | src/accounting/posting-rules.ts:54-120 | The fee computed at a rate in [0,1) always fits, for the confirmation and for the failure |
| `Ledger.Accumulate` | src/accounting/ledger-posting.service.ts:183-200 | The accumulation loop gives each account the sum of its grouped rows, in any row order |
| `Ledger.SelectIs` | src/accounting/ledger-posting.service.ts:170-175 | The entries of a balance are, in order, exactly those of the reference and of the currency asked for |
| `Ledger.Journal.Post` | src/accounting/ledger-posting.service.ts:68-116 | Posts exactly the lines of the rule, or nothing; an unbalanced entry is refused and leaves the journal as it was |
| `Ledger.Journal.TrialBalance` | src/accounting/ledger-posting.service.ts:133-218 | Difference zero; exactly the accounts that have lines are listed, each with what its lines moved; refused only for a global balance over several currencies |
| `Registry.EventStore.Record` | src/events/transaction-events.service.ts:101-214 | The retry loop appends the draft made on the true head; what it appends bears, column by column, the observed amounts, actor and detail of the input, the references, statuses and amount of the row, and its parties exactly on an opening; giving up on collisions means five events of others; each error has its cause; the chain stays linear |
| `Registry.EventStore.Attempt` | src/events/transaction-events.service.ts:120-214 | One attempt collides only if somebody committed since the head was read, and goes in, on that head, only if nobody did |
| `Registry.EventStore.CloseCase` | src/events/transaction-events.service.ts:234-273 | Nothing on an empty or closed chain; the winner's closure when another process closed first, whether its closure or five other ranks stood in the way; otherwise a closure, unless five collisions or a document the schema refuses prevent it |
| `Registry.InsertIsSound` | src/events/transaction-events.service.ts:120-214 | A draft collides only when the chain has grown since its head was read, and when it goes in it goes on the true head |
| `Registry.InsertIff` | src/events/transaction-events.service.ts:120-214 | Each outcome of an insertion exactly: an invalid document first, then a closure of nothing, then a rank taken because the chain has grown, then a closure already there; otherwise the fact goes in with all its columns |
| `Writers.EveryRunIsLinear` | src/events/transaction-events.service.ts:101-273 | For every interleaving of writers, rollbacks and crashes, committed ranks are 1..n, each event points to its predecessor's fingerprint, at most one closure exists and it declares its rank and true head |
| `Writers.EveryRunIsValid` | src/events/transaction-events.service.ts:120-214 | For every interleaving of writers no document that the schema refuses is committed |
| `Writers.EveryFactWasAsked` | src/events/transaction-events.service.ts:101-214 | For every interleaving of writers every committed event bears, column by column, one of the inputs the writers began with, and is sealed over those columns |
| `Writers.CommittedFactsStay` | src/events/transaction-events.service.ts:101-214 | What a run has committed is a prefix of what any continuation has committed |
| `Writers.GivingUpNeedsFiveOthers` | src/events/transaction-events.service.ts:23-23 | A writer that gave up on collisions saw at least five events of others committed since it began |
| `Verifier.Verify` | src/events/event-chain-verification.service.ts:122-317 | The loops and accumulators give the declarative verdict, the counts, the count the closure declares and whether it is anchored, and raise exactly when the check of some event raises |
| `Verifier.VerifiedCommits` | src/events/event-chain-verification.service.ts:163-464 | Whatever the database holds, VERIFIED against a root built from honest closures means the chain is one of those honest chains, event by event and field by field, or a collision among named preimages |
| `Verifier.VerifiedBindsRow` | src/events/event-chain-verification.service.ts:234-317 | VERIFIED also binds the parties, amount and currency of the current row to the honest opening |
| `Verdicts.GatewayCommits` | src/events/event-chain-verification.service.ts:163-464 | The commitment with the registry's own serialiser: only the published root and distinct event ids are assumed |
| `Verdicts.LateFactIsTampering` | src/events/event-chain-verification.service.ts:175-232 | Any event stored after a closure makes the verdict TAMPERED, whatever else the database holds |
| `Verdicts.MissingClosureIsTampering` | src/events/event-chain-verification.service.ts:131-340 | Whatever else the database holds, a chain without CASE_CLOSED, the empty one included, is TAMPERED when the row is final or one of the five final facts is still there |
| `Verdicts.TamperedIff` | src/events/event-chain-verification.service.ts:175-340 | On any database a chain is TAMPERED if and only if its row is gone, an event fails schema, seal, link or anchor, a rank is missing, the closure lies, it is missing where it is due, or the row differs from the opening, each spelt out over the columns |
| `Verdicts.VerdictTable` | src/events/event-chain-verification.service.ts:122-317 | The other verdicts exactly: empty, unreachable, verified when the first closure is confirmed on the chain, partially anchored otherwise |
| `Verdicts.AnchorTable` | src/events/event-chain-verification.service.ts:426-464 | The anchor check of one event exactly: confirmed, denied, not looked at or out of reach, from what the batch, the proof, the contract and the node say |
| `Verdicts.HonestVerdict` | src/events/event-chain-verification.service.ts:175-340 | On a chain the registry wrote, TAMPERED if and only if a fact follows the closure, a final state has no closure, or the row differs from its opening |
| `Safety.OneDecision` | src/mobile-money/mobile-money.service.ts:182-362 | In every run, for any notifications, stale snapshots and crashes, at most one of confirmation and mismatch commits; an instruction exists exactly for the confirmation, a blocked leg exactly for the mismatch |
| `Currencies.MatchIff` | src/mobile-money/amount.util.ts:33-40 | Two currencies match if and only if both are given and, outer blanks aside, have one length and equal letters up to case |
| `Currencies.InstructedAsOrdered` | src/mobile-money/mobile-money.service.ts:182-262 | In every run an instruction exists only if exactly the ordered cents were collected in the ordered code, and the fee is then within half a cent of the rate |
| `Currencies.NoticeDecides` | src/mobile-money/mobile-money.service.ts:182-362 | At any point of any run within leases at which the payment waits, a fresh confirmation instructs the bank if it has the ordered cents in the ordered code, and otherwise blocks the leg, opens the debt and makes no instruction; the gap is one of currency exactly when the codes differ |
| `Safety.NoLegIsLost` | src/mobile-money/bank-instruction.worker.ts:173-291 | In every run a leg in progress has its instruction, pending or in flight, and attempts never exceed the maximum plus the reclaimed leases |
| `Safety.OnePayout` | src/refunds/refunds.service.ts:287-449 | In every run, overlapping attempts and lost replies included, one key at most is paid, for exactly the collected amount |
| `Safety.ReconciliationAgrees` | src/mobile-money/reconciliation.service.ts:30-121 | Whatever entity a handler of a reachable state reconciles, the result is MATCHED: the check before the bank and the check after it never disagree |
| `Leases.LegDecidedOnce` | src/mobile-money/bank-instruction.worker.ts:225-349 | Within leases, failing saves included but for the one that doubles a refusal, at most one of the two bank facts is posted, and it is the one the row shows; a dead letter leaves a failed leg, an open case and a debt |
| `Leases.LegCanFinish` | src/mobile-money/bank-instruction.worker.ts:173-248 | At any point of any run within leases with a leg in progress, its instruction is due once its delay and its lease are over, and whenever it is due one claim answered by a success, with nothing rolled back, completes the leg, matches it and closes the case |
| `Gateway.ComesBack` | src/mobile-money/bank-instruction.worker.ts:22-26 | A claimed instruction can be claimed again after five minutes and not before; one whose attempt failed after 2, 4, 8, 16 and then 30 seconds and not before |
| `Leases.FlowRefines` | src/transactions/state/transaction-state.machine.ts:57-120 | Within leases every row is sound; every change is a move of the tables if and only if no mismatch commits on a payment already refused; and then terminal values are never left |
| `Doubles.BankDoubledIff` | src/mobile-money/bank-instruction.worker.ts:225-349 | In every run, whatever the leases and the failing saves, a second bank fact is posted if and only if some worker commits its decision on a leg no longer in progress |
| `Doubles.RefundDoubledIff` | src/refunds/refunds.service.ts:390-437 | Within leases, however attempts overlap, a second completed refund is recorded if and only if some success is recorded on a row already completed |
| `RefundRuns.SegregationHolds` | src/refunds/refunds.service.ts:132-208 | In every orderly run no provider call follows a recorded rejection before a reopening, and an identified person who reopens is not the last requester |
| `RefundRuns.AnybodyElseReopens` | src/refunds/refunds.service.ts:132-208 | At any point of any orderly run the refund can be reopened if and only if a rejection was recorded and not reopened since, by anybody unidentified or other than the author of the last manual request; and some continuation then calls the provider again |
| `RefundRuns.CalledAgainIff` | src/refunds/refunds.service.ts:328-388 | At any point of any orderly run with a refund file, some continuation calls the provider without a reopening if and only if the refund is not completed and no rejection has been recorded since the last reopening: one still in memory, or lost, bars nothing |
| `RefundRuns.CompletedMeansPaid` | src/refunds/refunds.service.ts:328-449 | In every orderly run a completed refund was paid for the collected amount, and a paid one is completed or still attemptable |
| `RefundRuns.PaidCanFinish` | src/refunds/refunds.service.ts:228-252 | From any point of an orderly run at which the provider has paid, one pass of the retry worker records it, resolves the case and pays nothing more |
| `LedgerRuns.PostMoves` | src/accounting/posting-rules.ts:54-140 | What the posted lines of a fact move is the fixed movement of its type, zero lines dropped or not |
| `LedgerRuns.LedgerFollowsState` | src/accounting/posting-rules.ts:54-140 | In every orderly run the five balances are a fixed function of provider, bank and refund status and of whether the collection was swept, and the journal balances |
| `LedgerRuns.PayerIsOwed` | src/accounting/posting-rules.ts:67-140 | In every orderly run PAYER_PAYABLE is the collected amount while a refund is owed, and zero otherwise |
| `Honest.StepHonest` | src/events/transaction-events.service.ts:234-273 | From an honest registry an orderly step leaves a fact after the closure if it is a sweep, a second refusal, a mismatch over a refusal or a second match, and an honest registry otherwise |
| `Honest.AccusedIff` | src/events/event-chain-verification.service.ts:175-340 | In every orderly run verify completes, and answers TAMPERED if and only if one of those four steps was taken |
| `Honest.TruncationIsTampering` | src/events/event-chain-verification.service.ts:131-340 | In every orderly run without accusing step, once the row is final, every strict prefix of the recorded chain, the empty one included, is TAMPERED whatever else the database then holds |
| `Honest.TruncationIff` | src/events/event-chain-verification.service.ts:131-340 | With accusing steps: a strict prefix is TAMPERED if and only if it is not the part that ends with the first closure |
| `Honest.GatewayIsNeverWronglyAccused` | src/events/event-chain-verification.service.ts:175-464 | The same with the chain committed by any interleaving of writers and anchored by any run of anchoring: nothing is assumed of linearity, validity or anchors |
| `Races.EverySweepIsAccused` | src/treasury/treasury.service.ts:87-125 | In every run, once a collection has been swept, the verdict is TAMPERED for ever |
| `Races.SweptRun` | src/treasury/treasury.service.ts:87-125 | An orderly run, for any amount, in which a settled and reconciled collection is swept: the sweep accuses |
| `Races.TwiceRefusedRun` | src/mobile-money/mobile-money.service.ts:364-420 | An orderly run in which a second refusal notification accuses |
| `Races.StaleMismatchRun` | src/mobile-money/mobile-money.service.ts:271-362 | An orderly run, for any two amounts, in which a mismatch read before a refusal and applied after it accuses |
| `Races.StalePassRun` | src/mobile-money/reconciliation.service.ts:81-143 | An orderly run in which the periodic reconciliation records a match after the worker's |
| `Races.StaleWorkerRun` | src/mobile-money/reconciliation.service.ts:81-143 | An orderly run in which the worker records a match after the periodic reconciliation's |
| `Witnesses.ZombiePostsBoth` | src/mobile-money/bank-instruction.worker.ts:183-197 | A concrete run in which a worker past its lease posts the second bank fact |
| `Witnesses.LostSavePostsTwice` | src/mobile-money/bank-instruction.worker.ts:250-291 | A concrete run in which the failing save of a settled instruction, on the last attempt, posts the bank refusal twice |
| `Witnesses.OverlapBreaksTheLedger` | src/refunds/refunds.service.ts:328-449 | A run, for any amounts, in which two overlapping attempts pay once and record two refunds: the payer's account ends below zero |
| `Witnesses.LostRejectionIsRetried` | src/refunds/refunds.service.ts:366-388 | From any untouched debt, an orderly run in which a rejection lost by a crash is followed by another provider call with nobody reopening: only a recorded rejection bars |
| `Services.Payment.ConfirmAndClaimBankProcessing` | src/mobile-money/mobile-money.service.ts:182-262 | The handler does exactly what the step of the protocol does, mismatch branch included; it claims if and only if cents and codes agree on an unstarted leg whose provider is initiated or pending, and then writes exactly the confirmed row, one fact with what was collected, and a new instruction; it raises, leaving all as it was, if and only if it is rolled back, a transition is refused or an instruction is already there |
| `Services.Payment.MarkAmountMismatch` | src/mobile-money/mobile-money.service.ts:271-362 | On an unstarted leg, the blocked row with its debt, open case and kind of gap, and three facts with what was observed; nothing on one that has moved; an exception exactly when it is rolled back or the transition is refused |
| `Services.Payment.MarkProviderFailed` | src/mobile-money/mobile-money.service.ts:364-420 | On an unstarted leg, the refused row that owes nothing, its fact and one closure; nothing on one that has moved; an exception exactly when it is rolled back or the transition is refused |
| `Services.Payment.ClaimNext` | src/mobile-money/bank-instruction.worker.ts:173-223 | Claims exactly an instruction that waits and is due, or one in flight for five minutes; it is counted and in flight from now on; otherwise nothing changes |
| `Services.Payment.Reconcile` | src/mobile-money/reconciliation.service.ts:30-121 | A match is repeated by a closure alone; legs not both over are put back in line; otherwise the row says whether cents and codes agree, one fact records it and a match closes the case; it raises exactly when rolled back or when that transition is refused, and changes nothing then |
| `Services.Payment.ApplyBankSuccess` | src/mobile-money/mobile-money-webhook.service.ts:292-355 | Raises exactly when one of its two transactions is refused or rolled back; once the first commits the leg is completed and its fact recorded, whatever becomes of the reconciliation; tables and entity are those of the two protocol steps |
| `Services.Payment.HandleBankFailure` | src/mobile-money/mobile-money-webhook.service.ts:364-441 | Raises exactly when its transaction is refused or rolled back, leaving the tables; otherwise the leg is failed, the collected amount is owed, the case is open and exactly two facts are added; tables and entity are those of the protocol step |
| `Services.Payment.DeadLetter` | src/mobile-money/bank-instruction.worker.ts:293-349 | Instruction abandoned and debt opened together, exactly when the transition is legal and nothing is rolled back; nothing otherwise |
| `Services.Payment.Attempt` | src/mobile-money/bank-instruction.worker.ts:225-291 | Equals the worker of the protocol left alone; completed if and only if nothing fails, delayed if and only if something does, attempts are left and the catch can save it; an exception leaves it if and only if the catch fails too or the last dead letter is refused |
| `Services.AttemptIsRun` | src/mobile-money/bank-instruction.worker.ts:173-291 | Claim and attempt, whatever the bank answers, whatever is rolled back and whichever saves fail, is a run of the protocol; within leases unless the failing save is the one that doubles a refusal |
| `Services.WorkerEscapes` | src/mobile-money/bank-instruction.worker.ts:250-341 | At any point of any run within leases, an exception leaves the attempt at a due instruction if and only if something fails and then what the catch writes fails too, or no attempt is left and the bank has said yes, or the refused leg's refund is requested or done |
| `RefundService.Simulator.Refund` | src/refunds/simulator-refund.adapter.ts:26-62 | A key is paid once, for its first amount, and answered ever after; amounts in .13 are rejected and in .99 unavailable; nothing paid is forgotten |
| `RefundService.RefundDesk.SyncTransaction` | src/refunds/refunds.service.ts:514-538 | Only the refund and case columns of the current row move, exactly when the passage from the snapshot is legal |
| `RefundService.RefundDesk.RecordRequest` | src/refunds/refunds.service.ts:328-364 | Recorded exactly when the file is attemptable, the transition legal and nothing rolled back: one more attempt on the same amount and key, signed only by who asked by hand, nothing paid; raises exactly when an attemptable file cannot be recorded |
| `RefundService.RefundDesk.RecordSuccess` | src/refunds/refunds.service.ts:390-437 | File completed, debt extinct, case resolved, one fact and one closure together, and nothing else, exactly when the transition is legal and nothing is rolled back; otherwise nothing, and a late rollback leaves a synchronised entity behind |
| `RefundService.RefundDesk.RecordFailure` | src/refunds/refunds.service.ts:451-502 | Raises exactly when it is rolled back or the transition is refused, leaving the tables; otherwise the file stays retryable if and only if the provider did not reject it, amount, key and payments unchanged, exactly one fact added |
| `RefundService.RefundDesk.ReopenRefund` | src/refunds/refunds.service.ts:132-208 | Each refusal exactly: no file; a completed one; one still retryable; one asked for by the same person; otherwise the file becomes retryable, one fact records who reopened it, and nothing else changes |
| `RefundService.RefundDesk.Attempt` | src/refunds/refunds.service.ts:328-388 | Equals the attempt of the protocol left alone; pays at most the amount of its file under its own key, completes the file only once that key is paid, and raises if and only if the request or the failure cannot be recorded |
| `RefundService.RefundDesk.RequestRefund` | src/refunds/refunds.service.ts:93-120 | Refused when nothing is owed or the amount is unknown, tables unchanged; otherwise the request of the protocol left alone, with an error exactly when an exception leaves it |
| `RefundService.RequestIsRun` | src/refunds/refunds.service.ts:93-120 | A request, whatever the provider answers and whatever is rolled back, is an orderly run of the protocol |
| `RefundService.RetryIsRun` | src/refunds/refunds.service.ts:228-252 | So is a retry of a pending file |
| `RefundService.RetryEscapes` | src/refunds/refunds.service.ts:234-388 | At any point of any orderly run, an exception leaves the retry of a pending file if and only if the row cannot be read, or the request cannot be recorded, or the provider has paid and the recording of it is rolled back late, or the failure to be recorded cannot be |
| `Passes.NextDue` | src/mobile-money/bank-instruction.worker.ts:173-197 | The due instruction that has waited longest, and none only when none is due |
| `Passes.Gatekeeper.Drain` | src/mobile-money/bank-instruction.worker.ts:128-158 | Turn after turn the first due instruction is claimed and attempted; the pass stops with an exception at exactly the first claim that fails or the first turn whose attempt raises; otherwise nothing is left due below the limit; completed and abandoned instructions are counted; a second call while running does nothing |
| `Passes.DrainGoesOn` | src/mobile-money/bank-instruction.worker.ts:128-158 | Such turns lead every payment on by a run of the protocol, within leases unless a save failed that does harm, and leave the others as they were |
| `Passes.DrainCanStop` | src/mobile-money/bank-instruction.worker.ts:140-155 | A concrete drain that stops with an instruction still due |
| `Passes.Gatekeeper.RetryPending` | src/refunds/refunds.service.ts:228-252 | Listed files are attempted once each, in order, up to and including the first one that raises; those completed before it are counted; later ones and all others are untouched; every payment goes on by an orderly run |
| `Passes.PassAttempts` | src/refunds/refunds.service.ts:228-252 | Exactly the listed files that are requested, or failed and open to retries, are attempted; all others are left alone |
| `Passes.RetryCanStop` | src/refunds/refunds.service.ts:366-388 | An orderly run after which the retry of a pending file raises |
| `Passes.Gatekeeper.Sweep` | src/treasury/treasury.service.ts:87-132 | Up to the first transaction that is rolled back, exactly the listed payments that are confirmed, matched, owe nothing and were never swept get one fact with what they collected; their number and cents are counted; nothing else changes |
| `Passes.Gatekeeper.RunPending` | src/mobile-money/reconciliation.service.ts:124-143 | Listed payments are reconciled in order up to the first transaction rolled back or refused, matches and mismatches are counted |
| `Passes.SweepIsIdempotent` | src/treasury/treasury.service.ts:48-57 | A second pass over the same payments records and collects nothing |
| `BatchLeaves.OrderedLeaves` | src/blockchain/anchor.service.ts:273-291 | The array filled by rank gives the leaves exactly when every rank is valid and held; otherwise the first faulty member or the first missing rank is named |
| `BatchLeaves.OrderedIsBijection` | src/blockchain/anchor.service.ts:273-291 | No rank missing and as many members as leaves: ranks are distinct and each member's own leaf stands at its rank |
| `AnchorSafety.AnchoredIsOnChain` | src/blockchain/anchor.service.ts:326-453 | In every run, with crashes, late writes, overlapping workers and foreign submitters, an anchored batch is on the chain with the same root and count, attempts stay within the maximum, and every stored proof verifies |
| `AnchorSafety.RanksAreBijective` | src/blockchain/anchor.service.ts:169-233 | In every run each rank of a batch is held by exactly one closure, and a closure is in one batch at most |
| `AnchorSafety.AlwaysCoherent` | src/blockchain/anchor.service.ts:329-353 | In every run the leaves rebuilt by a worker give back the root of its batch |
| `Anchoring.ReadIsComplete` | src/blockchain/anchor.service.ts:236-264 | A resumed batch always has all its members, in whatever order they are read |
| `AnchorSafety.NothingIsRewritten` | contracts/AuditAnchor.sol:103-117 | Along every run what is on the chain stays, and a closure keeps its batch, rank and proof |
| `AnchorRuns.LockedStatuses` | src/blockchain/anchor.service.ts:139-171 | Under the lock at most one batch is open, the status of a closure is that of its batch, and anchored or failed batches are never written again |
| `AnchorRuns.CrashIsRecovered` | src/blockchain/anchor.service.ts:355-410 | When nobody holds the lock, a batch left pending or anchoring is the only open one; if the chain already has it, resuming it on a node that answers leaves it anchored without writing on the chain again, even when its attempts are spent |
| `AnchorFailures.FailedAppearsIff` | src/blockchain/anchor.service.ts:385-463 | At any point of any run under the lock, a failed batch that is not on the chain can still get there, but by a foreign submitter, if and only if a write of it that the contract would accept is on its way |
| `AnchorFailures.NeverSentNeverAppears` | src/blockchain/anchor.service.ts:371-389 | A failed batch none of whose submissions left the gateway is not on the chain and never gets there |
| `AnchorFailures.FailedYetOnChain` | src/blockchain/anchor.service.ts:385-463 | A concrete run in which a write mined late leaves a failed batch on the chain |
| `AnchorFailures.BlindLookFails` | src/blockchain/anchor.service.ts:355-369 | A concrete run in which a batch already on the chain is marked failed because the last look got no answer |
| `AnchorRuns.AnchorsAlwaysHold` | src/events/event-chain-verification.service.ts:426-464 | On what any run of anchoring left, the anchor check of every event confirms or abstains, never denies |
| `AnchorService.ReadMembers` | src/blockchain/anchor.service.ts:243-252 | Lists exactly the members of a batch, once each |
| `AnchorService.PickPending` | src/blockchain/anchor.service.ts:185-201 | The oldest pending closures in order, all of them unless the size of a batch is reached |
| `AnchorService.Service.FindResumable` | src/blockchain/anchor.service.ts:236-264 | Takes the oldest open batch that is complete; none is found only when every batch is decided; nothing changes as long as batches are complete |
| `AnchorService.Service.FindOrCreate` | src/blockchain/anchor.service.ts:169-233 | The open batch is taken as it is; without one the oldest pending closures form one; neither exactly when nothing is open and nothing pending |
| `AnchorService.Service.ProcessPendingBatch` | src/blockchain/anchor.service.ts:139-161 | Nothing while disabled, running or locked; nothing to anchor exactly when no batch is open and no closure pending; otherwise one attempt on the open or the new batch with exactly its outcome; an open batch the chain already has is anchored by any pass on a node that answers; the pass is a run under the lock |
| `AnchorService.Service.AnchorBatchItems` | src/blockchain/anchor.service.ts:326-463 | One attempt: status, counted attempts, closures, chain and pool are exactly those of the decision table, from what the chain holds and how the node behaves, and nothing else moves |
| `AnchorService.PublishedFate` | src/blockchain/anchor.service.ts:355-410 | A batch the chain already has is never sent again; it is anchored if and only if the node answers, and given up if and only if it does not on the last attempt |
| `AnchorService.PassTable` | src/blockchain/anchor.service.ts:326-463 | What one attempt leaves, case by case, over the columns: when a write is sent, when it is mined, when the batch is anchored, given up or left to the next pass, with its attempts, closures, chain and pool |

## Left out

- Controllers, data transfer objects, guards, logging, metrics, health probes: plumbing and observability.
- SOAP, ethers, TypeORM, xmllint: foreign libraries; the bank is a success, a fault or a transport error, schema
  validity is an abstract predicate, the contract is a write-once map.
- Field encryption, key derivation, HMAC, API-key hashing, timing-safe comparison: opaque primitives; only the signed
  text is modelled.
- SQL text, migrations and triggers: append-only tables, unique indexes, row locks and the deferred balance
  constraint are taken as given.
- The classic transfer flow and its posting-free facts: a one-leg copy of the same pattern.
- Floating point: amounts are validated to two decimals upstream, so exact cents are used, and rounding to cents
  appears only in the fee.
- Dates are texts already in ISO form, Merkle nodes are bytes and not their hexadecimal text, and letters are upper
  and lower cased in the ASCII range only.
- AuditAnchor.Contract.AnchorBatch: ownership, the list of submitters and its changes are a set fixed from outside.
- The currency of a trial balance is taken as already trimmed and in upper case.
- Texts are assumed to hold no lone surrogates: Utf8 and WebhookCodec speak of well-formed texts.
- The table of IBAN lengths by country is a parameter.
- Legacy batches that also hold transactions, and bank instructions whose transaction has disappeared.
- Services.Payment.ClaimNext: states the claim for the instruction of one payment; the choice among payments is in
  Passes.NextDue, and instances that skip each other's locked rows are not modelled there.
- AnchorService.Service.FindResumable: members are read in the order of their identifiers, where the source orders
  them by rank; the rebuilding by rank makes the order irrelevant.
- Passes.Gatekeeper.RetryPending: the list of pending files, and its order, is a parameter; files of it that are no
  longer pending are skipped.
- RefundService.RefundDesk.ReopenRefund: its own transaction is assumed to go through.
- AnchorService.Service.ProcessPendingBatch: the saves of a pass are assumed to go through; one that fails ends the pass
  as a crash of the protocol does.
- Honest.AccusedIff: assumes the parties of the row unchanged since the opening, which no step of the protocol writes.
