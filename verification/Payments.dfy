/** The ledger's row and the three provider-status mappings.

    Payment ids and references are strings, as in the database; amounts are kobo;
    times are milliseconds. */
module Payments {

  type PaymentId = string
  type RequestId = string
  type OperatorId = string

  datatype Option<+T> = None | Some(value: T)

  function Max(a: int, b: int): int { if a < b then b else a }
  function Min(a: int, b: int): int { if a < b then a else b }

  datatype PaymentType = DEPOSIT | BALANCE | REFUND | PAYOUT

  datatype PaymentStatus =
    | PENDING | SUBMITTED | BLOCKED
    | SUCCEEDED | DUPLICATE_SUCCEEDED | FAILED | REVERSED

  datatype BlockReason =
    | NO_BANK_DETAILS | INSUFFICIENT_BALANCE | ACCOUNT_RESTRICTED | PAYOUT_ON_HOLD
    | INVALID_RECIPIENT | INVALID_AMOUNT | INVALID_REFERENCE | PAYSTACK_VALIDATION
    | AWAITING_OTP | NEEDS_CUSTOMER_DETAILS

  /** Provider identifiers are namespaced, so a refund number never meets a transaction's. */
  datatype ProviderRef = Txn(number: nat) | Refund(number: nat) | Transfer(code: string)

  datatype Payment = Payment(
    request: RequestId,
    kind: PaymentType,
    status: PaymentStatus,
    amount: int,
    operator: Option<OperatorId>,
    blockReason: Option<BlockReason>,
    verifyAfter: int,
    verifyAttempts: nat,
    checkoutUrl: Option<string>,
    providerRef: Option<ProviderRef>,
    createdAt: int)

  datatype MappedStatus = MappedStatus(status: PaymentStatus, blockReason: Option<BlockReason>)

  const INITIAL_VERIFY_DELAY_MS := 60 * 1000
  const MAX_VERIFY_BACKOFF_MS := 30 * 60 * 1000
  const MAX_VERIFY_ATTEMPTS := 8

  /** Waiting, verification or a human can still move the row. */
  predicate InFlight(s: PaymentStatus) { s in {PENDING, SUBMITTED, BLOCKED} }

  predicate Terminal(s: PaymentStatus) { !InFlight(s) }

  /** The states claimTerminal's WHERE clause matches. */
  predicate Claimable(s: PaymentStatus) { s == SUBMITTED || s == BLOCKED }

  predicate WellFormed(m: MappedStatus) { m.blockReason.Some? <==> m.status == BLOCKED }

  function Plain(s: PaymentStatus): MappedStatus { MappedStatus(s, None) }

  /** A transfer in one of these states moved nothing and never will. */
  predicate DeadTransfer(s: string) { s == "failed" || s == "reversed" || s == "abandoned" }

  function MapTransferStatus(s: string): (m: MappedStatus)
    ensures WellFormed(m)
    ensures m.status == SUCCEEDED <==> s == "success"
    ensures m.status in {FAILED, REVERSED} <==> DeadTransfer(s)
    ensures m.status == REVERSED <==> s == "reversed"
    ensures m == MappedStatus(BLOCKED, Some(AWAITING_OTP)) <==> s == "otp"
    ensures m.status == BLOCKED ==> s == "otp"
    ensures m.status != PENDING && m.status != DUPLICATE_SUCCEEDED
  {
    match s
    case "success" => Plain(SUCCEEDED)
    case "failed" => Plain(FAILED)
    case "reversed" => Plain(REVERSED)
    case "abandoned" => Plain(FAILED)
    case "otp" => MappedStatus(BLOCKED, Some(AWAITING_OTP))
    case _ => Plain(SUBMITTED)
  }

  /** An abandoned collection is not terminal: the customer may still hold the link. */
  function MapTransactionStatus(s: string): (m: MappedStatus)
    ensures WellFormed(m)
    ensures m.status == SUCCEEDED <==> s == "success"
    ensures m.status == FAILED <==> s == "failed"
    ensures m.status == REVERSED <==> s == "reversed"
    ensures m.status in {SUCCEEDED, FAILED, REVERSED, SUBMITTED}
  {
    match s
    case "success" => Plain(SUCCEEDED)
    case "failed" => Plain(FAILED)
    case "reversed" => Plain(REVERSED)
    case _ => Plain(SUBMITTED)
  }

  function MapRefundStatus(s: string): (m: MappedStatus)
    ensures WellFormed(m)
    ensures m.status == SUCCEEDED <==> s == "processed"
    ensures m.status == FAILED <==> s == "failed"
    ensures m == MappedStatus(BLOCKED, Some(NEEDS_CUSTOMER_DETAILS)) <==> s == "needs-attention"
    ensures m.status == BLOCKED ==> s == "needs-attention"
    ensures m.status in {SUCCEEDED, FAILED, BLOCKED, SUBMITTED}
  {
    match s
    case "processed" => Plain(SUCCEEDED)
    case "failed" => Plain(FAILED)
    case "needs-attention" => MappedStatus(BLOCKED, Some(NEEDS_CUSTOMER_DETAILS))
    case _ => Plain(SUBMITTED)
  }

  /** Which payouts an admin may retry: dead ones, and blocked ones the provider
      never created a transfer for. */
  predicate IsRetryablePayoutState(p: Payment) {
    p.status == FAILED ||
    (p.status == BLOCKED && p.blockReason.Some? &&
     p.blockReason.value !in {AWAITING_OTP, NEEDS_CUSTOMER_DETAILS})
  }

  // ---- References -----------------------------------------------------------

  function ReferencePrefix(kind: PaymentType): string {
    match kind
    case DEPOSIT => "DEP"
    case BALANCE => "BAL"
    case PAYOUT => "payout"
    case REFUND => ""
  }

  /** A refund has no reference at all; everything else is prefix, underscore, id. */
  function ReferenceFor(kind: PaymentType, id: PaymentId): string {
    if kind == REFUND then "" else ReferencePrefix(kind) + "_" + id
  }

  /** What the dot in the webhook's reference pattern matches. */
  predicate OneLine(s: string) {
    forall i | 0 <= i < |s| :: s[i] !in {'\n', '\r', '\U{2028}', '\U{2029}'}
  }

  /** The webhook's reference pattern: one of three prefixes, an underscore, and a
      non-empty rest, which is the payment id. */
  function ParseReference(reference: string): Option<PaymentId> {
    if "DEP_" <= reference then Rest(reference[4..])
    else if "BAL_" <= reference then Rest(reference[4..])
    else if "payout_" <= reference then Rest(reference[7..])
    else None
  }

  function Rest(id: string): Option<PaymentId> {
    if id != "" && OneLine(id) then Some(id) else None
  }

  /** The reference sent to the provider brings the row back, for exactly the payments
      that carry one; so two rows never share a reference. */
  lemma ReferenceRoundTrip(kind: PaymentType, id: PaymentId)
    ensures ParseReference(ReferenceFor(kind, id)) == Some(id) <==>
            kind != REFUND && id != "" && OneLine(id)
  {
    var reference := ReferenceFor(kind, id);
    match kind
    case DEPOSIT => assert reference == "DEP_" + id; assert reference[4..] == id;
    case BALANCE => assert reference == "BAL_" + id; assert reference[4..] == id;
      assert reference[0] == 'B';
    case PAYOUT => assert reference == "payout_" + id; assert reference[7..] == id;
      assert reference[0] == 'p';
    case REFUND =>
  }

  lemma ReferencesAreInjective(k1: PaymentType, id1: PaymentId, k2: PaymentType, id2: PaymentId)
    requires id1 != "" && OneLine(id1) && id2 != "" && OneLine(id2)
    requires k1 != REFUND && k2 != REFUND
    requires ReferenceFor(k1, id1) == ReferenceFor(k2, id2)
    ensures id1 == id2
  {
    ReferenceRoundTrip(k1, id1);
    ReferenceRoundTrip(k2, id2);
  }
}
