/**
  The rows of the money core and the store that holds them. A row's identity is
  its index in its table. Amounts are integer cents in one currency per tenant.
*/
module Tables {
  import opened Sums

  type TenantId = nat
  type ProviderId = nat
  type AccountId = nat
  type Time = int
  type PositiveCents = c: int | 0 < c witness 1

  const CONTROL_NUMBER_CREATION_FEE: int := 5000
  const PAYMENT_SUCCESS_FEE: int := 5000
  const MAX_GENERATION_ATTEMPTS: nat := 5
  const MAX_BILL_NUMBER_ATTEMPTS: nat := 3

  datatype Result<+T> = Ok(value: T) | Raised(error: Error)
  datatype Error = NotFound | IllegalTransition | NotSuccessful | Integrity | ProviderFailure | NoReceipt

  datatype ProviderOutcome = OutcomePending | OutcomeSuccessful | OutcomeFailed | OutcomeUnknown

  /** What a call to a provider adapter comes back with, if it comes back. */
  datatype Reply = TimedOut | Refused | Answered(outcome: ProviderOutcome, reference: string)

  datatype PaymentStatus =
    Initiated | Pending | Successful | Failed | Unknown | Expired | Reversed | Refunded

  /** ALLOWED_TRANSITIONS of the payment model. */
  predicate MayMove(from: PaymentStatus, to: PaymentStatus) {
    match from
    case Initiated => to in {Pending, Successful, Failed, Unknown}
    case Pending => to in {Successful, Failed, Unknown, Expired}
    case Unknown => to in {Successful, Failed}
    case Successful => to in {Reversed, Refunded}
    case _ => false
  }

  predicate EverSuccessful(status: PaymentStatus) {
    status in {Successful, Reversed, Refunded}
  }

  datatype Payment = Payment(
    tenant: TenantId,
    number: nat,
    provider: ProviderId,
    status: PaymentStatus,
    amount: PositiveCents,
    key: string,
    reference: string,
    completedAt: Option<Time>,
    batch: Option<nat>)

  datatype BillStatus =
    Draft | Active | PartiallyPaid | Paid | BillExpired | Cancelled | Disputed

  /** ALLOWED_TRANSITIONS of the bill model. */
  predicate MayMoveBill(from: BillStatus, to: BillStatus) {
    match from
    case Draft => to in {Active, Cancelled}
    case Active => to in {PartiallyPaid, Paid, BillExpired, Cancelled, Disputed}
    case PartiallyPaid => to in {Paid, Disputed, Cancelled}
    case Paid => to == Disputed
    case Disputed => to in {Active, PartiallyPaid, Paid}
    case _ => false
  }

  datatype Bill = Bill(tenant: TenantId, billNumber: string, reference: string, status: BillStatus, total: int)

  datatype Owner = ForBill(bill: nat) | ForAccount(account: AccountId)
  datatype NumberStatus = NumberActive | NumberExpired | NumberCancelled
  datatype ControlNumber = ControlNumber(
    tenant: TenantId, value: string, owner: Owner, status: NumberStatus, expiresAt: Option<Time>)

  datatype Source = OfPayment(payment: nat) | OfNumber(number: nat)

  datatype EntryKind =
    PaymentReceived | InstitutionEntitlement | PlatformControlNumberFee | PlatformPaymentFee | Refund | Reversal
  datatype Account = Customer | Institution | Platform
  datatype LedgerEntry = LedgerEntry(
    tenant: TenantId, kind: EntryKind, account: Account, amount: int, source: Source, related: Option<nat>)

  datatype Policy = Clawback | Retain
  datatype EventKind =
    | ControlNumberCreated | ControlNumberReused
    | PaymentSuccessful | PaymentFailed | PaymentDuplicate | PaymentReversed | PaymentRefunded
  datatype RevenueEvent = RevenueEvent(
    tenant: TenantId, kind: EventKind, amount: int, source: Source, entry: Option<nat>, policy: Option<Policy>)

  datatype Allocation = Allocation(tenant: TenantId, payment: nat, bill: nat, amount: int)

  datatype Receipt = Receipt(
    tenant: TenantId, payment: nat, bill: Option<nat>, amount: int, remaining: Option<int>)

  datatype Batch = Batch(
    tenant: TenantId,
    provider: ProviderId,
    start: Time,
    end: Time,
    gross: int,
    platformFee: int,
    providerFee: int,
    net: int,
    completed: Option<string>)

  datatype CallbackOutcome = Processed | Duplicate | Unmatched | InvalidSignature
  datatype CallbackEvent = CallbackEvent(
    provider: ProviderId, eventId: string, outcome: CallbackOutcome, payment: Option<nat>)

  /** An inbound callback as the provider adapter hands it to the orchestrator. */
  datatype Delivery =
    | Forged
    | Malformed
    | Parsed(eventId: string, reference: string, outcome: ProviderOutcome)

  datatype ExceptionKind = StuckUnknown | StatusMismatch | MissingAtProvider
  datatype ReconException = ReconException(tenant: TenantId, run: nat, payment: nat, kind: ExceptionKind)
  datatype ReconRun = ReconRun(
    tenant: TenantId, checked: nat, matched: nat, exceptions: nat, resolved: nat, completed: bool)

  datatype Store = Store(
    policies: map<TenantId, Policy>,
    bills: seq<Bill>,
    numbers: seq<ControlNumber>,
    payments: seq<Payment>,
    ledger: seq<LedgerEntry>,
    events: seq<RevenueEvent>,
    allocations: seq<Allocation>,
    receipts: seq<Receipt>,
    batches: seq<Batch>,
    callbacks: seq<CallbackEvent>,
    runs: seq<ReconRun>,
    exceptions: seq<ReconException>)

  const EMPTY_STORE := Store(map[], [], [], [], [], [], [], [], [], [], [], [])

  /** Tenant.fee_refund_policy, which defaults to clawback. */
  function PolicyOf(policies: map<TenantId, Policy>, tenant: TenantId): Policy {
    if tenant in policies then policies[tenant] else Clawback
  }

  /** Foreign keys that the services follow: payment to control number to bill. */
  predicate NumberKeys(numbers: seq<ControlNumber>, bills: seq<Bill>) {
    forall n :: 0 <= n < |numbers| && numbers[n].owner.ForBill? ==>
      numbers[n].owner.bill < |bills| && bills[numbers[n].owner.bill].tenant == numbers[n].tenant
  }

  predicate PaymentKeys(payments: seq<Payment>, numbers: seq<ControlNumber>) {
    forall i :: 0 <= i < |payments| ==>
      payments[i].number < |numbers| && payments[i].tenant == numbers[payments[i].number].tenant
  }

  predicate KeysResolve(s: Store) {
    && NumberKeys(s.numbers, s.bills)
    && PaymentKeys(s.payments, s.numbers)
  }

  /** The bill that a control number is bound to, if it is a one-time number. */
  function BillBehind(numbers: seq<ControlNumber>, number: nat): Option<nat>
    requires number < |numbers|
  {
    if numbers[number].owner.ForBill? then Some(numbers[number].owner.bill) else None
  }

  function ToBill(bill: nat): Allocation -> int {
    (a: Allocation) => if a.bill == bill then a.amount else 0
  }

  /** Bill.amount_paid: an aggregate, never a stored field. */
  function AmountPaid(allocations: seq<Allocation>, bill: nat): int {
    Sum(allocations, ToBill(bill))
  }

  /** Bill.balance. */
  function Balance(bills: seq<Bill>, allocations: seq<Allocation>, bill: nat): int
    requires bill < |bills|
  {
    bills[bill].total - AmountPaid(allocations, bill)
  }
}
