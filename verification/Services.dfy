/**
  What each service operation does to the store: the specification that the
  imperative services in Desk are proved against. A raised error rolls the whole
  request back, so an operation returns either the new store or an error.
*/
module Services {
  import opened Sums
  import opened Sweeps
  import opened Tables

  // ---------------------------------------------------------------- ledger and revenue

  function PostEntry(s: Store, entry: LedgerEntry): Store {
    s.(ledger := s.ledger + [entry])
  }

  function RecordEvent(s: Store, event: RevenueEvent): Store {
    s.(events := s.events + [event])
  }

  /** An event of the vocabulary that charges nothing and posts no entry. */
  function ZeroEvent(tenant: TenantId, kind: EventKind, source: Source): RevenueEvent {
    RevenueEvent(tenant, kind, 0, source, None, None)
  }

  function ReceivedEntry(p: Payment, i: nat): LedgerEntry {
    LedgerEntry(p.tenant, PaymentReceived, Customer, p.amount, OfPayment(i), None)
  }

  function EntitlementEntry(p: Payment, i: nat): LedgerEntry {
    LedgerEntry(p.tenant, InstitutionEntitlement, Institution, p.amount, OfPayment(i), None)
  }

  function FeeEntry(p: Payment, i: nat): LedgerEntry {
    LedgerEntry(p.tenant, PlatformPaymentFee, Platform, PAYMENT_SUCCESS_FEE, OfPayment(i), None)
  }

  function SuccessEvent(p: Payment, i: nat, entry: nat): RevenueEvent {
    RevenueEvent(p.tenant, PaymentSuccessful, PAYMENT_SUCCESS_FEE, OfPayment(i), Some(entry), None)
  }

  function RecordControlNumberCreated(s: Store, n: nat): Store
    requires n < |s.numbers|
  {
    var tenant := s.numbers[n].tenant;
    var s1 := PostEntry(s, LedgerEntry(
                             tenant, PlatformControlNumberFee, Platform, CONTROL_NUMBER_CREATION_FEE, OfNumber(n), None));
    RecordEvent(s1, RevenueEvent(
                      tenant, ControlNumberCreated, CONTROL_NUMBER_CREATION_FEE, OfNumber(n), Some(|s.ledger|), None))
  }

  function RecordPaymentSuccessful(s: Store, i: nat): Store
    requires i < |s.payments|
  {
    RecordEvent(PostEntry(s, FeeEntry(s.payments[i], i)), SuccessEvent(s.payments[i], i, |s.ledger|))
  }

  function SuccessEventOf(i: nat): RevenueEvent -> bool {
    (e: RevenueEvent) => e.kind == PaymentSuccessful && e.source == OfPayment(i)
  }

  /** The compensating event and, under clawback, the entry that negates the fee. */
  function Compensate(s: Store, i: nat, eventKind: EventKind, entryKind: EntryKind): Store
    requires i < |s.payments|
  {
    var p := s.payments[i];
    var policy := PolicyOf(s.policies, p.tenant);
    var found := Newest(s.events, SuccessEventOf(i));
    if policy == Clawback && found.Some? && s.events[found.value].amount > 0 then
      var original := s.events[found.value];
      var amount := -original.amount;
      if original.entry.Some? && original.entry.value < |s.ledger| then
        var fee := s.ledger[original.entry.value];
        var s1 := PostEntry(s, LedgerEntry(fee.tenant, entryKind, fee.account, amount, fee.source, original.entry));
        RecordEvent(s1, RevenueEvent(p.tenant, eventKind, amount, OfPayment(i), Some(|s.ledger|), Some(policy)))
      else
        RecordEvent(s, RevenueEvent(p.tenant, eventKind, amount, OfPayment(i), None, Some(policy)))
    else
      RecordEvent(s, RevenueEvent(p.tenant, eventKind, 0, OfPayment(i), None, Some(policy)))
  }

  // ---------------------------------------------------------------- bills

  function BillNumbered(tenant: TenantId, billNumber: string): Bill -> bool {
    (b: Bill) => b.tenant == tenant && b.billNumber == billNumber
  }

  function BillReferenced(tenant: TenantId, reference: string): Bill -> bool {
    (b: Bill) => b.tenant == tenant && b.reference == reference
  }

  function LineTotal(): int -> int {
    (line: int) => line
  }

  /** The first generated bill number that no bill of the tenant carries yet. */
  function FreshBillNumber(bills: seq<Bill>, tenant: TenantId, candidates: seq<string>): Option<string> {
    if |candidates| == 0 then None
    else if Newest(bills, BillNumbered(tenant, candidates[0])).None? then Some(candidates[0])
    else FreshBillNumber(bills, tenant, candidates[1..])
  }

  /** The values that a retry loop of at most `attempts` rounds gets to draw. */
  function Drawn(candidates: seq<string>, attempts: nat): seq<string> {
    candidates[..if |candidates| < attempts then |candidates| else attempts]
  }

  function AddBill(s: Store, bill: Bill): Store {
    s.(bills := s.bills + [bill])
  }

  /** A line may be negative: a quantity has no lower bound. */
  function InvoiceTotal(lines: seq<int>): int {
    Sum(lines, LineTotal())
  }

  /** get_or_create_bill followed by the move to ACTIVE that its callers make on creation. */
  function IssueBill(
    s: Store, tenant: TenantId, lines: seq<int>, reference: string, candidates: seq<string>): Result<(Store, nat, bool)>
  {
    var existing := Newest(s.bills, BillReferenced(tenant, reference));
    if reference != "" && existing.Some? then Ok((s, existing.value, false))
    else
      var generated := Drawn(candidates, MAX_BILL_NUMBER_ATTEMPTS);
      match FreshBillNumber(s.bills, tenant, generated)
      case None => Raised(Integrity)
      case Some(billNumber) =>
        Ok((AddBill(s, Bill(tenant, billNumber, reference, Active, InvoiceTotal(lines))), |s.bills|, true))
  }

  function SetBillStatus(s: Store, b: nat, status: BillStatus): Store
    requires b < |s.bills|
  {
    s.(bills := s.bills[b := s.bills[b].(status := status)])
  }

  function CancelBill(s: Store, b: nat): Result<Store>
    requires b < |s.bills|
  {
    if MayMoveBill(s.bills[b].status, Cancelled) then Ok(SetBillStatus(s, b, Cancelled))
    else Raised(IllegalTransition)
  }

  // ---------------------------------------------------------------- control numbers

  function NumberValued(value: string): ControlNumber -> bool {
    (n: ControlNumber) => n.value == value
  }

  function NumberOfBill(bill: nat): ControlNumber -> bool {
    (n: ControlNumber) => n.owner == ForBill(bill)
  }

  function ActiveNumberOf(account: AccountId): ControlNumber -> bool {
    (n: ControlNumber) => n.owner == ForAccount(account) && n.status == NumberActive
  }

  /** Rows that an idempotent request for this owner gives back instead of creating. */
  function Reusable(owner: Owner): ControlNumber -> bool {
    match owner
    case ForBill(bill) => NumberOfBill(bill)
    case ForAccount(account) => ActiveNumberOf(account)
  }

  function FreshValue(numbers: seq<ControlNumber>, candidates: seq<string>): Option<string> {
    if |candidates| == 0 then None
    else if Newest(numbers, NumberValued(candidates[0])).None? then Some(candidates[0])
    else FreshValue(numbers, candidates[1..])
  }

  /** A genuinely new control number together with its fee entry and its CREATED event. */
  function CreateNumber(s: Store, number: ControlNumber): Store {
    RecordControlNumberCreated(s.(numbers := s.numbers + [number]), |s.numbers|)
  }

  /** get_or_create_for_bill and get_or_create_for_account, run by one client at a time. */
  function GetOrCreateNumber(
    s: Store, tenant: TenantId, owner: Owner, candidates: seq<string>, expiresAt: Option<Time>): Result<(Store, nat, bool)>
  {
    var existing := Newest(s.numbers, Reusable(owner));
    if existing.Some? then
      var row := s.numbers[existing.value];
      Ok((RecordEvent(s, ZeroEvent(row.tenant, ControlNumberReused, OfNumber(existing.value))), existing.value, false))
    else
      var generated := Drawn(candidates, MAX_GENERATION_ATTEMPTS);
      match FreshValue(s.numbers, generated)
      case None => Raised(Integrity)
      case Some(value) =>
        Ok((CreateNumber(s, ControlNumber(tenant, value, owner, NumberActive, expiresAt)), |s.numbers|, true))
  }

  function CancelNumber(s: Store, n: nat): Store
    requires n < |s.numbers|
  {
    s.(numbers := s.numbers[n := s.numbers[n].(status := NumberCancelled)])
  }

  predicate Overdue(n: ControlNumber, tenant: Option<TenantId>, now: Time) {
    && n.status == NumberActive
    && n.expiresAt.Some?
    && n.expiresAt.value < now
    && (tenant.Some? ==> n.tenant == tenant.value)
  }

  function Expired(n: ControlNumber, tenant: Option<TenantId>, now: Time): ControlNumber {
    if Overdue(n, tenant, now) then n.(status := NumberExpired) else n
  }

  function ExpireOverdue(s: Store, tenant: Option<TenantId>, now: Time): Store {
    s.(numbers := seq(|s.numbers|, n requires 0 <= n < |s.numbers| => Expired(s.numbers[n], tenant, now)))
  }

  // ---------------------------------------------------------------- payments

  /** The assignment that a legal Payment.transition_to makes. */
  function SetStatus(s: Store, i: nat, status: PaymentStatus, now: Time): Store
    requires i < |s.payments|
  {
    var p := s.payments[i];
    var completedAt := if status in {Successful, Failed, Reversed, Refunded} then Some(now) else p.completedAt;
    s.(payments := s.payments[i := p.(status := status, completedAt := completedAt)])
  }

  function SetReference(s: Store, i: nat, reference: string): Store
    requires i < |s.payments|
  {
    s.(payments := s.payments[i := s.payments[i].(reference := reference)])
  }

  function PostSettlementEntries(s: Store, i: nat): Store
    requires i < |s.payments|
  {
    PostEntry(PostEntry(s, ReceivedEntry(s.payments[i], i)), EntitlementEntry(s.payments[i], i))
  }

  function BillOf(s: Store, i: nat): (bill: Option<nat>)
    requires KeysResolve(s) && i < |s.payments|
    ensures bill.Some? ==> bill.value < |s.bills|
  {
    BillBehind(s.numbers, s.payments[i].number)
  }

  function AllocateToBill(s: Store, i: nat): (s': Store)
    requires KeysResolve(s) && i < |s.payments|
    ensures KeysResolve(s') && s'.payments == s.payments
  {
    match BillOf(s, i)
    case None => s
    case Some(b) =>
      var s1 := s.(allocations := s.allocations + [Allocation(s.payments[i].tenant, i, b, s.payments[i].amount)]);
      if s1.bills[b].status !in {Active, PartiallyPaid} then s1
      else if Balance(s1.bills, s1.allocations, b) <= 0 then SetBillStatus(s1, b, Paid)
      else if s1.bills[b].status == Active then SetBillStatus(s1, b, PartiallyPaid)
      else s1
  }

  function ReceiptOf(i: nat): Receipt -> bool {
    (r: Receipt) => r.payment == i
  }

  function GenerateReceipt(s: Store, i: nat): (r: Result<Store>)
    requires KeysResolve(s) && i < |s.payments|
    ensures r.Ok? ==> KeysResolve(r.value) && r.value.payments == s.payments
  {
    if Newest(s.receipts, ReceiptOf(i)).Some? then Ok(s)
    else if s.payments[i].status != Successful then Raised(NoReceipt)
    else
      var bill := BillOf(s, i);
      var remaining := if bill.Some? then Some(Balance(s.bills, s.allocations, bill.value)) else None;
      Ok(s.(receipts := s.receipts + [Receipt(s.payments[i].tenant, i, bill, s.payments[i].amount, remaining)]))
  }

  function TargetOf(outcome: ProviderOutcome): PaymentStatus
    requires outcome != OutcomeUnknown
  {
    match outcome
    case OutcomeSuccessful => Successful
    case OutcomeFailed => Failed
    case _ => Pending
  }

  /** Everything that a first move to SUCCESSFUL sets off. */
  function Succeed(s: Store, i: nat, now: Time): (r: Result<Store>)
    requires KeysResolve(s) && i < |s.payments|
    ensures r.Ok? ==> KeysResolve(r.value) && |r.value.payments| == |s.payments|
  {
    var s1 := SetStatus(s, i, Successful, now);
    var s2 := PostSettlementEntries(s1, i);
    var s3 := RecordPaymentSuccessful(s2, i);
    GenerateReceipt(AllocateToBill(s3, i), i)
  }

  function Fail(s: Store, i: nat, now: Time): Store
    requires i < |s.payments|
  {
    RecordEvent(SetStatus(s, i, Failed, now), ZeroEvent(s.payments[i].tenant, PaymentFailed, OfPayment(i)))
  }

  function ApplyOutcome(s: Store, i: nat, outcome: ProviderOutcome, now: Time): (r: Result<Store>)
    requires KeysResolve(s) && i < |s.payments|
    ensures r.Ok? ==> KeysResolve(r.value) && |r.value.payments| == |s.payments|
  {
    var status := s.payments[i].status;
    if outcome == OutcomeUnknown then
      Ok(if status in {Initiated, Pending} then SetStatus(s, i, Unknown, now) else s)
    else if status == TargetOf(outcome) then Ok(s)
    else if !MayMove(status, TargetOf(outcome)) then Raised(IllegalTransition)
    else if outcome == OutcomeSuccessful then Succeed(s, i, now)
    else if outcome == OutcomeFailed then Ok(Fail(s, i, now))
    else Ok(SetStatus(s, i, Pending, now))
  }

  function Keyed(tenant: TenantId, key: string): Payment -> bool {
    (p: Payment) => p.tenant == tenant && p.key == key
  }

  function AddPayment(s: Store, number: nat, provider: ProviderId, amount: PositiveCents, key: string): (s': Store)
    requires number < |s.numbers|
    ensures |s'.payments| == |s.payments| + 1
    ensures KeysResolve(s) ==> KeysResolve(s')
  {
    s.(payments := s.payments +
    [Payment(s.numbers[number].tenant, number, provider, Initiated, amount, key, "", None, None)])
  }

  /** What a new payment makes of the provider's answer, of a lost one, or of an error. */
  function TakeReply(s: Store, i: nat, reply: Reply, now: Time): (r: Result<Store>)
    requires KeysResolve(s) && i < |s.payments|
    ensures r.Ok? ==> KeysResolve(r.value) && |r.value.payments| == |s.payments|
  {
    match reply
    case TimedOut => Ok(SetStatus(s, i, Unknown, now))
    case Refused => Ok(Fail(s, i, now))
    case Answered(outcome, reference) => ApplyOutcome(SetReference(s, i, reference), i, outcome, now)
  }

  function InitiatePayment(
    s: Store, number: nat, provider: ProviderId, amount: PositiveCents, key: string, reply: Reply, now: Time)
    : Result<(Store, nat)>
    requires KeysResolve(s) && number < |s.numbers|
  {
    var existing := Newest(s.payments, Keyed(s.numbers[number].tenant, key));
    if key != "" && existing.Some? then Ok((s, existing.value))
    else
      match TakeReply(AddPayment(s, number, provider, amount, key), |s.payments|, reply, now)
      case Ok(s1) => Ok((s1, |s.payments|))
      case Raised(error) => Raised(error)
  }

  /** The provider's own reference is learnt once and never replaced. */
  function LearnReference(s: Store, i: nat, reference: string): Store
    requires i < |s.payments|
  {
    if reference != "" && s.payments[i].reference == "" then SetReference(s, i, reference) else s
  }

  function QueryPayment(s: Store, i: nat, reply: Reply, now: Time): (r: Result<Store>)
    requires KeysResolve(s) && i < |s.payments|
    ensures r.Ok? ==> KeysResolve(r.value) && |r.value.payments| == |s.payments|
  {
    if !reply.Answered? then Raised(ProviderFailure)
    else ApplyOutcome(LearnReference(s, i, reply.reference), i, reply.outcome, now)
  }

  function Delivered(provider: ProviderId, eventId: string): CallbackEvent -> bool {
    (c: CallbackEvent) => c.provider == provider && c.eventId == eventId
  }

  function PaymentReferenced(reference: string): Payment -> bool {
    (p: Payment) => p.reference == reference
  }

  function LogCallback(s: Store, c: CallbackEvent): Store {
    s.(callbacks := s.callbacks + [c])
  }

  /** A delivery of an event id that is already on file: logged under a blank id, nothing reprocessed. */
  function DuplicateDelivery(s: Store, provider: ProviderId, original: CallbackEvent): Store {
    var s1 := LogCallback(s, CallbackEvent(provider, "", Duplicate, original.payment));
    if original.payment.Some? && original.payment.value < |s.payments| then
      var i := original.payment.value;
      RecordEvent(s1, ZeroEvent(s.payments[i].tenant, PaymentDuplicate, OfPayment(i)))
    else s1
  }

  /** A delivery that is not on file: it is filed, and applied to the payment that carries its reference, if any does. */
  function FirstDelivery(
    s: Store, provider: ProviderId, eventId: string, reference: string, outcome: ProviderOutcome, now: Time)
    : (r: Result<Store>)
    requires KeysResolve(s)
    ensures r.Ok? ==> KeysResolve(r.value) && |r.value.payments| == |s.payments|
  {
    match Newest(s.payments, PaymentReferenced(reference))
    case None => Ok(LogCallback(s, CallbackEvent(provider, eventId, Unmatched, None)))
    case Some(i) =>
      ApplyOutcome(LogCallback(s, CallbackEvent(provider, eventId, Processed, Some(i))), i, outcome, now)
  }

  function ProcessCallback(s: Store, provider: ProviderId, delivery: Delivery, now: Time): Result<Store>
    requires KeysResolve(s)
  {
    match delivery
    case Forged => Ok(LogCallback(s, CallbackEvent(provider, "", InvalidSignature, None)))
    case Malformed => Raised(ProviderFailure)
    case Parsed(eventId, reference, outcome) =>
      var original := Newest(s.callbacks, Delivered(provider, eventId));
      if eventId != "" && original.Some? then
        Ok(DuplicateDelivery(s, provider, s.callbacks[original.value]))
      else
        FirstDelivery(s, provider, eventId, reference, outcome, now)
  }

  function RefundPayment(s: Store, i: nat, reply: Reply, now: Time): Result<Store>
    requires i < |s.payments|
  {
    if s.payments[i].status != Successful then Raised(NotSuccessful)
    else if !reply.Answered? then Raised(ProviderFailure)
    else if reply.outcome != OutcomeSuccessful then Ok(s)
    else Ok(Compensate(SetStatus(s, i, Refunded, now), i, PaymentRefunded, Refund))
  }

  function ReversePayment(s: Store, i: nat, reply: Reply, now: Time): Result<Store>
    requires i < |s.payments|
  {
    if s.payments[i].status != Successful then Raised(NotSuccessful)
    else if !reply.Answered? then Raised(ProviderFailure)
    else if reply.outcome != OutcomeSuccessful then Ok(s)
    else Ok(Compensate(SetStatus(s, i, Reversed, now), i, PaymentReversed, Reversal))
  }

  // ---------------------------------------------------------------- settlement

  predicate Claimable(p: Payment, tenant: TenantId, provider: ProviderId, start: Time, end: Time) {
    && p.tenant == tenant
    && p.provider == provider
    && p.status == Successful
    && p.batch.None?
    && p.completedAt.Some?
    && start <= p.completedAt.value < end
  }

  function ClaimedAmount(tenant: TenantId, provider: ProviderId, start: Time, end: Time): Payment -> int {
    (p: Payment) => if Claimable(p, tenant, provider, start, end) then p.amount else 0
  }

  /** The PAYMENT_SUCCESSFUL events of the tenant whose source is a claimed payment. */
  function ClaimedFee(
    payments: seq<Payment>, tenant: TenantId, provider: ProviderId, start: Time, end: Time): RevenueEvent -> int
  {
    (e: RevenueEvent) =>
      if && e.tenant == tenant
         && e.kind == PaymentSuccessful
         && e.source.OfPayment?
         && e.source.payment < |payments|
         && Claimable(payments[e.source.payment], tenant, provider, start, end)
      then e.amount else 0
  }

  /** The PAYMENT_SUCCESSFUL events of the tenant whose source is in a list of claimed payments. */
  function FeeFor(tenant: TenantId, claimed: set<nat>): RevenueEvent -> int {
    (e: RevenueEvent) =>
      if e.tenant == tenant && e.kind == PaymentSuccessful && e.source.OfPayment? && e.source.payment in claimed
      then e.amount else 0
  }

  function NewBatch(s: Store, tenant: TenantId, provider: ProviderId, start: Time, end: Time): Batch {
    var gross := Sum(s.payments, ClaimedAmount(tenant, provider, start, end));
    var fee := Sum(s.events, ClaimedFee(s.payments, tenant, provider, start, end));
    Batch(tenant, provider, start, end, gross, fee, 0, gross - fee - 0, None)
  }

  function Claim(p: Payment, batch: nat, tenant: TenantId, provider: ProviderId, start: Time, end: Time): Payment {
    if Claimable(p, tenant, provider, start, end) then p.(batch := Some(batch)) else p
  }

  function ClaimAll(
    payments: seq<Payment>, batch: nat, tenant: TenantId, provider: ProviderId, start: Time, end: Time)
    : (claimed: seq<Payment>)
    ensures |claimed| == |payments|
    ensures forall i :: 0 <= i < |payments| ==> claimed[i] == Claim(payments[i], batch, tenant, provider, start, end)
  {
    seq(|payments|, i requires 0 <= i < |payments| => Claim(payments[i], batch, tenant, provider, start, end))
  }

  function GenerateBatch(s: Store, tenant: TenantId, provider: ProviderId, start: Time, end: Time): Store {
    s.(batches := s.batches + [NewBatch(s, tenant, provider, start, end)],
       payments := ClaimAll(s.payments, |s.batches|, tenant, provider, start, end))
  }

  function CompleteBatch(s: Store, k: nat, reference: string): Store
    requires k < |s.batches|
  {
    s.(batches := s.batches[k := s.batches[k].(completed := Some(reference))])
  }

  // ---------------------------------------------------------------- reconciliation

  predicate IsUnknown(p: Payment, tenant: TenantId) {
    p.tenant == tenant && p.status == Unknown
  }

  predicate IsSettled(p: Payment, tenant: TenantId) {
    p.tenant == tenant && p.status in {Successful, Failed} && p.reference != ""
  }

  function OpenException(s: Store, run: nat, i: nat, kind: ExceptionKind): Store
    requires i < |s.payments|
  {
    s.(exceptions := s.exceptions + [ReconException(s.payments[i].tenant, run, i, kind)])
  }

  /** The verdict on one settled payment: an exception kind, or a match. */
  function Discrepancy(status: PaymentStatus, outcome: ProviderOutcome): Option<ExceptionKind> {
    if outcome == OutcomeUnknown then Some(MissingAtProvider)
    else if TargetOf(outcome) != status then Some(StatusMismatch)
    else None
  }

  /** What the passes of a run work on: the store and the run's counters. */
  type Pass = (Store, ReconRun)

  /** What the first pass makes of a payment it has just queried. */
  function Judge(s: Store, run: nat, tally: ReconRun, i: nat): Pass
    requires i < |s.payments|
  {
    if s.payments[i].status != Unknown then
      (s, tally.(checked := tally.checked + 1, resolved := tally.resolved + 1))
    else
      (OpenException(s, run, i, StuckUnknown),
      tally.(checked := tally.checked + 1, exceptions := tally.exceptions + 1))
  }

  /** One payment of the first pass: query it if it is one of the tenant's UNKNOWN ones. */
  function Visit(s: Store, run: nat, tally: ReconRun, ask: nat -> Reply, i: nat, now: Time): Result<Pass>
    requires KeysResolve(s) && i < |s.payments|
  {
    if !IsUnknown(s.payments[i], tally.tenant) then Ok((s, tally))
    else
      match QueryPayment(s, i, ask(i), now)
      case Raised(error) => Raised(error)
      case Ok(s1) => Ok(Judge(s1, run, tally, i))
  }

  function Visiting(run: nat, ask: nat -> Reply, now: Time): (Pass, nat) -> Result<Pass> {
    (pass: Pass, i: nat) =>
      if KeysResolve(pass.0) && i < |pass.0.payments| then Visit(pass.0, run, pass.1, ask, i, now) else Raised(NotFound)
  }

  /** One payment of the second pass: compare it with the provider's view if it is settled. */
  function Compare(s: Store, run: nat, tally: ReconRun, check: string -> Reply, i: nat): Result<Pass>
    requires i < |s.payments|
  {
    var p := s.payments[i];
    if !IsSettled(p, tally.tenant) then Ok((s, tally))
    else if !check(p.reference).Answered? then Raised(ProviderFailure)
    else
      match Discrepancy(p.status, check(p.reference).outcome)
      case Some(kind) =>
        Ok((OpenException(s, run, i, kind),
        tally.(checked := tally.checked + 1, exceptions := tally.exceptions + 1)))
      case None => Ok((s, tally.(checked := tally.checked + 1, matched := tally.matched + 1)))
  }

  function Comparing(run: nat, check: string -> Reply): (Pass, nat) -> Result<Pass> {
    (pass: Pass, i: nat) =>
      if i < |pass.0.payments| then Compare(pass.0, run, pass.1, check, i) else Raised(NotFound)
  }

  /** First the UNKNOWN payments are queried, then the settled ones are compared, newest first. */
  function Reconcile(s: Store, tenant: TenantId, ask: nat -> Reply, check: string -> Reply, now: Time): Result<Store>
    requires KeysResolve(s)
  {
    var run := |s.runs|;
    var blank := ReconRun(tenant, 0, 0, 0, 0, false);
    var s0 := s.(runs := s.runs + [blank]);
    match Sweep<Pass>(Visiting(run, ask, now), (s0, blank), |s0.payments|)
    case Raised(error) => Raised(error)
    case Ok((s1, tally1)) =>
      match Sweep<Pass>(Comparing(run, check), (s1, tally1), |s1.payments|)
      case Raised(error) => Raised(error)
      case Ok((s2, tally2)) =>
        Ok(s2.(runs := s.runs + [tally2.(completed := true)]))
  }
}
