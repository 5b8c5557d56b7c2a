/**
  What holds of the store in every state that the services can reach: each
  payment's own rows are a function of its status, and every aggregate agrees
  with every other one that describes the same money.
*/
module Invariants {
  import opened Sums
  import opened Tables
  import opened Services

  // ---------------------------------------------------------------- the rows of one payment

  function EntryOn(i: nat): LedgerEntry -> bool {
    (e: LedgerEntry) => e.source == OfPayment(i)
  }

  /** The events that can carry money; FAILED and DUPLICATE ones never do. */
  function MoneyEventOn(i: nat): RevenueEvent -> bool {
    (e: RevenueEvent) => e.source == OfPayment(i) && e.kind in {PaymentSuccessful, PaymentReversed, PaymentRefunded}
  }

  function AllocationOn(i: nat): Allocation -> bool {
    (a: Allocation) => a.payment == i
  }

  predicate Posted(ledger: seq<LedgerEntry>, k: Option<nat>, entry: LedgerEntry) {
    k.Some? && k.value < |ledger| && ledger[k.value] == entry
  }

  function PaidEntries(p: Payment, i: nat): seq<LedgerEntry> {
    [ReceivedEntry(p, i), EntitlementEntry(p, i), FeeEntry(p, i)]
  }

  function CompensatingEntry(p: Payment, i: nat, fee: Option<nat>): LedgerEntry {
    LedgerEntry(
      p.tenant, if p.status == Refunded then Refund else Reversal, Platform, -PAYMENT_SUCCESS_FEE, OfPayment(i), fee)
  }

  function CompensatingKind(status: PaymentStatus): EventKind {
    if status == Refunded then PaymentRefunded else PaymentReversed
  }

  /** Nothing at all was recorded for a payment that never succeeded. */
  predicate Untouched(
    entries: seq<LedgerEntry>, events: seq<RevenueEvent>, allocations: seq<Allocation>, receipts: seq<Receipt>)
  {
    entries == [] && events == [] && allocations == [] && receipts == []
  }

  /** The fee was charged once and its event points at the entry that posted it. */
  predicate ChargedOnce(p: Payment, i: nat, events: seq<RevenueEvent>, ledger: seq<LedgerEntry>) {
    && |events| > 0
    && events[0].entry.Some?
    && events[0] == SuccessEvent(p, i, events[0].entry.value)
    && Posted(ledger, events[0].entry, FeeEntry(p, i))
  }

  /** A refund or reversal left one event and, under clawback, one linked negative entry. */
  predicate CompensatedOnce(
    p: Payment, i: nat, entries: seq<LedgerEntry>, events: seq<RevenueEvent>, ledger: seq<LedgerEntry>)
  {
    && |events| == 2
    && events[1].policy.Some?
    && var undo := CompensatingEntry(p, i, events[0].entry);
       match events[1].policy.value
       case Clawback =>
         && entries == PaidEntries(p, i) + [undo]
         && Posted(ledger, events[1].entry, undo)
         && events[1] == RevenueEvent(
                           p.tenant, CompensatingKind(p.status), -PAYMENT_SUCCESS_FEE, OfPayment(i),
                           events[1].entry, Some(Clawback))
       case Retain =>
         && entries == PaidEntries(p, i)
         && events[1] == RevenueEvent(
                           p.tenant, CompensatingKind(p.status), 0, OfPayment(i), None, Some(Retain))
  }

  /** One allocation of the whole amount if the number is bill-bound, and one receipt. */
  predicate AllocatedOnce(
    p: Payment, i: nat, bill: Option<nat>, allocations: seq<Allocation>, receipts: seq<Receipt>)
  {
    && allocations == (if bill.Some? then [Allocation(p.tenant, i, bill.value, p.amount)] else [])
    && |receipts| == 1
    && receipts[0] == Receipt(p.tenant, i, bill, p.amount, receipts[0].remaining)
    && receipts[0].remaining.Some? == bill.Some?
  }

  predicate Books(
    p: Payment,
    i: nat,
    bill: Option<nat>,
    entries: seq<LedgerEntry>,
    events: seq<RevenueEvent>,
    allocations: seq<Allocation>,
    receipts: seq<Receipt>,
    ledger: seq<LedgerEntry>)
  {
    if !EverSuccessful(p.status) then p.batch.None? && Untouched(entries, events, allocations, receipts)
    else
      && p.completedAt.Some?
      && ChargedOnce(p, i, events, ledger)
      && AllocatedOnce(p, i, bill, allocations, receipts)
      && if p.status == Successful then |events| == 1 && entries == PaidEntries(p, i)
         else CompensatedOnce(p, i, entries, events, ledger)
  }

  predicate PaymentBooks(s: Store, i: nat)
    requires KeysResolve(s) && i < |s.payments|
  {
    Books(s.payments[i], i, BillOf(s, i),
          Filter(s.ledger, EntryOn(i)), Filter(s.events, MoneyEventOn(i)),
          Filter(s.allocations, AllocationOn(i)), Filter(s.receipts, ReceiptOf(i)), s.ledger)
  }

  // ---------------------------------------------------------------- the books of one tenant

  function OnPlatform(t: TenantId): LedgerEntry -> int {
    (e: LedgerEntry) => if e.tenant == t && e.account == Platform then e.amount else 0
  }

  function Entitled(t: TenantId): LedgerEntry -> int {
    (e: LedgerEntry) => if e.tenant == t && e.kind == InstitutionEntitlement then e.amount else 0
  }

  function Received(t: TenantId): LedgerEntry -> int {
    (e: LedgerEntry) => if e.tenant == t && e.kind == PaymentReceived then e.amount else 0
  }

  function Earned(t: TenantId): RevenueEvent -> int {
    (e: RevenueEvent) => if e.tenant == t then e.amount else 0
  }

  function ClawedBack(t: TenantId): RevenueEvent -> int {
    (e: RevenueEvent) =>
      if e.tenant == t && e.kind in {PaymentReversed, PaymentRefunded} && e.policy == Some(Clawback) then 1 else 0
  }

  function NumberOfTenant(t: TenantId): ControlNumber -> int {
    (n: ControlNumber) => if n.tenant == t then 1 else 0
  }

  function EverPaid(t: TenantId): Payment -> int {
    (p: Payment) => if p.tenant == t && EverSuccessful(p.status) then 1 else 0
  }

  function EverAmount(t: TenantId): Payment -> int {
    (p: Payment) => if p.tenant == t && EverSuccessful(p.status) then p.amount else 0
  }

  function UnsettledAmount(t: TenantId): Payment -> int {
    (p: Payment) => if p.tenant == t && EverSuccessful(p.status) && p.batch.None? then p.amount else 0
  }

  function GrossOf(t: TenantId): Batch -> int {
    (b: Batch) => if b.tenant == t then b.gross else 0
  }

  predicate TwoBooksAgree(s: Store, t: TenantId) {
    && Sum(s.ledger, OnPlatform(t)) == Sum(s.events, Earned(t))
    && Sum(s.events, Earned(t)) ==
       CONTROL_NUMBER_CREATION_FEE * Sum(s.numbers, NumberOfTenant(t))
       + PAYMENT_SUCCESS_FEE * Sum(s.payments, EverPaid(t))
       - PAYMENT_SUCCESS_FEE * Sum(s.events, ClawedBack(t))
  }

  predicate EntitlementConserved(s: Store, t: TenantId) {
    && Sum(s.ledger, Entitled(t)) == Sum(s.payments, EverAmount(t))
    && Sum(s.ledger, Received(t)) == Sum(s.payments, EverAmount(t))
    && Sum(s.payments, EverAmount(t)) == Sum(s.batches, GrossOf(t)) + Sum(s.payments, UnsettledAmount(t))
  }

  predicate TenantBooks(s: Store, t: TenantId) {
    TwoBooksAgree(s, t) && EntitlementConserved(s, t)
  }

  // ---------------------------------------------------------------- batches and bills

  function BatchAmount(k: nat): Payment -> int {
    (p: Payment) => if p.batch == Some(k) then p.amount else 0
  }

  function InBatch(k: nat): Payment -> int {
    (p: Payment) => if p.batch == Some(k) then 1 else 0
  }

  predicate BatchExact(payments: seq<Payment>, batches: seq<Batch>, k: nat)
    requires k < |batches|
  {
    && batches[k].gross == Sum(payments, BatchAmount(k))
    && batches[k].platformFee == PAYMENT_SUCCESS_FEE * Sum(payments, InBatch(k))
    && batches[k].providerFee == 0
    && batches[k].net == batches[k].gross - batches[k].platformFee - batches[k].providerFee
    && forall i :: 0 <= i < |payments| && payments[i].batch == Some(k) ==>
                     payments[i].tenant == batches[k].tenant && payments[i].provider == batches[k].provider
  }

  function PaidTo(numbers: seq<ControlNumber>, b: nat): Payment -> int {
    (p: Payment) =>
      if EverSuccessful(p.status) && p.number < |numbers| && numbers[p.number].owner == ForBill(b) then p.amount else 0
  }

  function OnBill(b: nat): Receipt -> int {
    (r: Receipt) => if r.bill == Some(b) then r.amount else 0
  }

  /** The status that the amounts alone determine. */
  function DerivedStatus(total: int, paid: int): BillStatus {
    if paid <= 0 then Active else if paid < total then PartiallyPaid else Paid
  }

  predicate BillExact(s: Store, b: nat)
    requires b < |s.bills|
  {
    var paid := AmountPaid(s.allocations, b);
    && paid == Sum(s.payments, PaidTo(s.numbers, b))
    && paid == Sum(s.receipts, OnBill(b))
    && 0 <= paid
    && (s.bills[b].status == Cancelled || s.bills[b].status == DerivedStatus(s.bills[b].total, paid))
  }

  /** A bill-bound receipt shows what its bill still owed just after that receipt. */
  predicate ReceiptRuns(bills: seq<Bill>, receipts: seq<Receipt>, k: nat)
    requires k < |receipts|
  {
    receipts[k].bill.Some? ==>
      && receipts[k].bill.value < |bills|
      && receipts[k].remaining ==
         Some(bills[receipts[k].bill.value].total - Sum(receipts[..k + 1], OnBill(receipts[k].bill.value)))
  }

  // ---------------------------------------------------------------- the whole invariant

  predicate SourceKnown(source: Source, s: Store) {
    match source
    case OfPayment(i) => i < |s.payments|
    case OfNumber(n) => n < |s.numbers|
  }

  /** Every row refers to rows that exist. */
  predicate RowKeys(s: Store) {
    && (forall k :: 0 <= k < |s.ledger| ==> SourceKnown(s.ledger[k].source, s))
    && (forall k :: 0 <= k < |s.events| ==> SourceKnown(s.events[k].source, s))
    && (forall k :: 0 <= k < |s.allocations| ==>
          s.allocations[k].payment < |s.payments| && s.allocations[k].bill < |s.bills|)
    && (forall k :: 0 <= k < |s.receipts| ==>
          && s.receipts[k].payment < |s.payments|
          && (s.receipts[k].bill.Some? ==> s.receipts[k].bill.value < |s.bills|))
    && (forall i :: 0 <= i < |s.payments| && s.payments[i].batch.Some? ==>
          s.payments[i].batch.value < |s.batches|)
  }

  /** The callback log: a non-blank event id is on file once, and repeats are filed under a blank one. */
  predicate CallbackLog(callbacks: seq<CallbackEvent>) {
    && (forall j, k :: 0 <= j < k < |callbacks| && callbacks[j].eventId != "" ==>
          callbacks[j].eventId != callbacks[k].eventId || callbacks[j].provider != callbacks[k].provider)
    && (forall k :: 0 <= k < |callbacks| && callbacks[k].outcome == Duplicate ==> callbacks[k].eventId == "")
  }

  predicate AllBooks(s: Store)
    requires KeysResolve(s)
  {
    forall i :: 0 <= i < |s.payments| ==> PaymentBooks(s, i)
  }

  ghost predicate AllTenants(s: Store) {
    forall t: TenantId :: TenantBooks(s, t)
  }

  predicate AllBatches(s: Store) {
    forall k :: 0 <= k < |s.batches| ==> BatchExact(s.payments, s.batches, k)
  }

  predicate AllBills(s: Store) {
    forall b :: 0 <= b < |s.bills| ==> BillExact(s, b)
  }

  predicate AllReceipts(s: Store) {
    forall k :: 0 <= k < |s.receipts| ==> ReceiptRuns(s.bills, s.receipts, k)
  }

  ghost predicate Inv(s: Store): (sound: bool)
    ensures sound ==> KeysResolve(s)
  {
    && KeysResolve(s)
    && RowKeys(s)
    && AllBooks(s)
    && AllTenants(s)
    && AllBatches(s)
    && AllBills(s)
    && AllReceipts(s)
    && CallbackLog(s.callbacks)
  }
}
