/** The enumerations of the gateway and the texts they are stored and serialised under. */
module Domain {

  datatype EventType =
    | TransferInitiated | TransferCompleted | TransferFailed
    | PaymentInitiated | ProviderConfirmed | ProviderFailed | AmountMismatchDetected
    | BankProcessingBlocked | BankProcessingCompleted | BankProcessingFailed
    | ReconciliationMatched | ReconciliationMismatch
    | CaseOpened | CaseResolved | CaseClosed
    | RefundRequested | RefundReopened | RefundCompleted | RefundFailed
    | SettlementSwept

  datatype TransactionStatus = StPending | StProcessing | StCompleted | StFailed

  datatype ProviderStatus = PInitiated | PPending | PConfirmed | PFailed

  datatype BankStatus = BNotStarted | BProcessing | BCompleted | BFailed | BBlocked

  datatype ReconciliationStatus =
    | RPending | RMatched | RMismatch | RAmountMismatch | RCurrencyMismatch | RNotApplicable | RManualReview

  datatype RefundStatus = FNotRequired | FRequired | FRequested | FCompleted | FFailed

  datatype CaseStatus = CNone | CManualReview | CResolved

  datatype PaymentChannel = LegacyTransfer | MobileMoney

  function TypeText(t: EventType): string {
    match t
    case TransferInitiated => "TRANSFER_INITIATED"
    case TransferCompleted => "TRANSFER_COMPLETED"
    case TransferFailed => "TRANSFER_FAILED"
    case PaymentInitiated => "PAYMENT_INITIATED"
    case ProviderConfirmed => "PROVIDER_CONFIRMED"
    case ProviderFailed => "PROVIDER_FAILED"
    case AmountMismatchDetected => "AMOUNT_MISMATCH_DETECTED"
    case BankProcessingBlocked => "BANK_PROCESSING_BLOCKED"
    case BankProcessingCompleted => "BANK_PROCESSING_COMPLETED"
    case BankProcessingFailed => "BANK_PROCESSING_FAILED"
    case ReconciliationMatched => "RECONCILIATION_MATCHED"
    case ReconciliationMismatch => "RECONCILIATION_MISMATCH"
    case CaseOpened => "CASE_OPENED"
    case CaseResolved => "CASE_RESOLVED"
    case CaseClosed => "CASE_CLOSED"
    case RefundRequested => "REFUND_REQUESTED"
    case RefundReopened => "REFUND_REOPENED"
    case RefundCompleted => "REFUND_COMPLETED"
    case RefundFailed => "REFUND_FAILED"
    case SettlementSwept => "SETTLEMENT_SWEPT"
  }

  function ProviderText(s: ProviderStatus): string {
    match s
    case PInitiated => "INITIATED" case PPending => "PENDING"
    case PConfirmed => "CONFIRMED" case PFailed => "FAILED"
  }

  function BankText(s: BankStatus): string {
    match s
    case BNotStarted => "NOT_STARTED" case BProcessing => "PROCESSING" case BCompleted => "COMPLETED"
    case BFailed => "FAILED" case BBlocked => "BLOCKED"
  }

  function ReconciliationText(s: ReconciliationStatus): string {
    match s
    case RPending => "PENDING" case RMatched => "MATCHED" case RMismatch => "MISMATCH"
    case RAmountMismatch => "AMOUNT_MISMATCH" case RCurrencyMismatch => "CURRENCY_MISMATCH"
    case RNotApplicable => "NOT_APPLICABLE" case RManualReview => "MANUAL_REVIEW"
  }

  function RefundText(s: RefundStatus): string {
    match s
    case FNotRequired => "NOT_REQUIRED" case FRequired => "REQUIRED" case FRequested => "REQUESTED"
    case FCompleted => "COMPLETED" case FFailed => "FAILED"
  }

  function CaseText(s: CaseStatus): string {
    match s
    case CNone => "NONE" case CManualReview => "MANUAL_REVIEW" case CResolved => "RESOLVED"
  }

  lemma TypeTextInjective(a: EventType, b: EventType)
    requires TypeText(a) == TypeText(b)
    ensures a == b
  {
    var s := TypeText(a);
    assert |s| >= 10;
    assert s[0] == TypeText(b)[0] && s[5] == TypeText(b)[5] && s[9] == TypeText(b)[9];
  }

  lemma ProviderTextInjective(a: ProviderStatus, b: ProviderStatus)
    requires ProviderText(a) == ProviderText(b)
    ensures a == b
  {
    assert ProviderText(a)[0] == ProviderText(b)[0];
  }

  lemma BankTextInjective(a: BankStatus, b: BankStatus)
    requires BankText(a) == BankText(b)
    ensures a == b
  {
    assert BankText(a)[0] == BankText(b)[0];
  }

  lemma ReconciliationTextInjective(a: ReconciliationStatus, b: ReconciliationStatus)
    requires ReconciliationText(a) == ReconciliationText(b)
    ensures a == b
  {
    assert ReconciliationText(a)[0] == ReconciliationText(b)[0];
  }

  lemma RefundTextInjective(a: RefundStatus, b: RefundStatus)
    requires RefundText(a) == RefundText(b)
    ensures a == b
  {
    assert RefundText(a)[0] == RefundText(b)[0];
  }

  lemma CaseTextInjective(a: CaseStatus, b: CaseStatus)
    requires CaseText(a) == CaseText(b)
    ensures a == b
  {
    assert |CaseText(a)| == |CaseText(b)|;
  }
}
