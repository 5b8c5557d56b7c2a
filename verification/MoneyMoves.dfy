/** The three changes that move money keep the invariant: success, compensation, settlement. */
module MoneyMoves {
  import opened Sums
  import opened Tables
  import opened Services
  import opened Invariants
  import opened Preservation

  // ---------------------------------------------------------------- success

  /** The paid payment as a first success leaves it. */
  function PaidOff(p: Payment, now: Time): Payment {
    p.(status := Successful, completedAt := Some(now))
  }

  function AllocationFor(p: Payment, i: nat, bill: Option<nat>): seq<Allocation> {
    if bill.Some? then [Allocation(p.tenant, i, bill.value, p.amount)] else []
  }

  /** Only the paid bill moves, and only to the status its new amounts call for. */
  predicate BillMoved(s: Store, s': Store, bill: Option<nat>) {
    && |s'.bills| == |s.bills|
    && (forall b :: 0 <= b < |s.bills| ==> s'.bills[b] == s.bills[b].(status := s'.bills[b].status))
    && (forall b :: 0 <= b < |s.bills| && Some(b) != bill ==> s'.bills[b] == s.bills[b])
    && (forall b :: 0 <= b < |s.bills| ==> (s'.bills[b].status == Cancelled <==> s.bills[b].status == Cancelled))
  }

  /** Exactly what a first success writes, row by row. */
  predicate SuccessRows(s: Store, s': Store, i: nat, now: Time)
    requires KeysResolve(s) && i < |s.payments|
  {
    var p := s.payments[i];
    var bill := BillOf(s, i);
    && s' == s.(payments := s.payments[i := PaidOff(p, now)], ledger := s'.ledger, events := s'.events,
                allocations := s'.allocations, receipts := s'.receipts, bills := s'.bills)
    && s'.ledger == s.ledger + [ReceivedEntry(p, i)] + [EntitlementEntry(p, i)] + [FeeEntry(p, i)]
    && s'.events == s.events + [SuccessEvent(p, i, |s.ledger| + 2)]
    && s'.allocations == s.allocations + AllocationFor(p, i, bill)
    && BillMoved(s, s', bill)
    && s'.receipts == s.receipts + [Receipt(p.tenant, i, bill, p.amount,
                                            if bill.Some? then Some(Balance(s.bills, s'.allocations, bill.value)) else None)]
  }

  lemma NoReceiptBeforeSuccess(s: Store, i: nat)
    requires KeysResolve(s) && AllBooks(s) && i < |s.payments| && !EverSuccessful(s.payments[i].status)
    ensures Newest(s.receipts, ReceiptOf(i)).None?
  {
    assert PaymentBooks(s, i);
    var found := Newest(s.receipts, ReceiptOf(i));
    if found.Some? {
      FilterMember(s.receipts, ReceiptOf(i), s.receipts[found.value]);
      assert false;
    }
  }

  lemma SucceedWrites(s: Store, i: nat, now: Time)
    requires KeysResolve(s) && AllBooks(s) && i < |s.payments| && !EverSuccessful(s.payments[i].status)
    ensures Succeed(s, i, now).Ok? && SuccessRows(s, Succeed(s, i, now).value, i, now)
  {
    NoReceiptBeforeSuccess(s, i);
    var s3 := RecordPaymentSuccessful(PostSettlementEntries(SetStatus(s, i, Successful, now), i), i);
    assert BillOf(s3, i) == BillOf(s, i);
    var s4 := AllocateToBill(s3, i);
    AllocationWrites(s3, i);
    assert BillOf(s4, i) == BillOf(s, i);
    hide AllBooks, AllocateToBill;
  }

  lemma AllocationWrites(s: Store, i: nat)
    requires KeysResolve(s) && i < |s.payments|
    ensures var s' := AllocateToBill(s, i);
            && s' == s.(allocations := s'.allocations, bills := s'.bills)
            && s'.allocations == s.allocations + AllocationFor(s.payments[i], i, BillOf(s, i))
            && BillMoved(s, s', BillOf(s, i))
  {
  }

  lemma SuccessBooks(s: Store, s': Store, i: nat, now: Time)
    requires KeysResolve(s) && AllBooks(s) && i < |s.payments| && !EverSuccessful(s.payments[i].status)
    requires SuccessRows(s, s', i, now) && KeysResolve(s')
    ensures AllBooks(s')
  {
    forall j | 0 <= j < |s'.payments| ensures PaymentBooks(s', j) {
      assert PaymentBooks(s, j);
      if j != i {
        UnpaidBooksStay(s, s', i, now, j);
      } else {
        PaidBooks(s, s', i, now);
      }
    }
  }

  lemma UnpaidBooksStay(s: Store, s': Store, i: nat, now: Time, j: nat)
    requires KeysResolve(s) && i < |s.payments| && j < |s.payments| && j != i
    requires PaymentBooks(s, j)
    requires SuccessRows(s, s', i, now) && KeysResolve(s')
    ensures PaymentBooks(s', j)
  {
    SuccessFilters(s, s', i, now, j);
    assert s.ledger <= s'.ledger && BillOf(s', j) == BillOf(s, j);
    hide Books, PaymentBooks, SuccessRows;
    BooksFrame(s, s', j);
  }

  lemma PaidBooks(s: Store, s': Store, i: nat, now: Time)
    requires KeysResolve(s) && i < |s.payments| && !EverSuccessful(s.payments[i].status)
    requires PaymentBooks(s, i)
    requires SuccessRows(s, s', i, now) && KeysResolve(s')
    ensures PaymentBooks(s', i)
  {
    SuccessFilters(s, s', i, now, i);
    var p := s'.payments[i];
    var events := Filter(s'.events, MoneyEventOn(i));
    assert events == [SuccessEvent(p, i, |s.ledger| + 2)];
    assert ChargedOnce(p, i, events, s'.ledger);
    assert Filter(s'.ledger, EntryOn(i)) == PaidEntries(p, i);
  }

  /** What a success adds to the rows of payment `j`: everything if it is the paid one, else nothing. */
  lemma SuccessFilters(s: Store, s': Store, i: nat, now: Time, j: nat)
    requires KeysResolve(s) && i < |s.payments| && SuccessRows(s, s', i, now)
    ensures var p := s.payments[i];
            && Filter(s'.ledger, EntryOn(j)) == Filter(s.ledger, EntryOn(j)) + (if j == i then PaidEntries(p, i) else [])
            && Filter(s'.events, MoneyEventOn(j)) ==
               Filter(s.events, MoneyEventOn(j)) + (if j == i then [SuccessEvent(p, i, |s.ledger| + 2)] else [])
            && Filter(s'.allocations, AllocationOn(j)) ==
               Filter(s.allocations, AllocationOn(j)) + (if j == i then AllocationFor(p, i, BillOf(s, i)) else [])
            && Filter(s'.receipts, ReceiptOf(j)) ==
               Filter(s.receipts, ReceiptOf(j)) + (if j == i then [s'.receipts[|s.receipts|]] else [])
  {
    var p := s.payments[i];
    PaidEntriesFiltered(s.ledger, p, i, j);
    FilterPush(s.events, SuccessEvent(p, i, |s.ledger| + 2), MoneyEventOn(j));
    FilterPush(s.receipts, s'.receipts[|s.receipts|], ReceiptOf(j));
    if BillOf(s, i).Some? {
      FilterPush(s.allocations, AllocationFor(p, i, BillOf(s, i))[0], AllocationOn(j));
    } else {
      assert s'.allocations == s.allocations;
    }
    hide Filter, KeysResolve, BillMoved;
  }

  lemma PaidEntriesFiltered(ledger: seq<LedgerEntry>, p: Payment, i: nat, j: nat)
    ensures Filter(ledger + [ReceivedEntry(p, i)] + [EntitlementEntry(p, i)] + [FeeEntry(p, i)], EntryOn(j)) ==
            Filter(ledger, EntryOn(j)) + (if j == i then PaidEntries(p, i) else [])
  {
    FilterPush(ledger, ReceivedEntry(p, i), EntryOn(j));
    FilterPush(ledger + [ReceivedEntry(p, i)], EntitlementEntry(p, i), EntryOn(j));
    FilterPush(ledger + [ReceivedEntry(p, i)] + [EntitlementEntry(p, i)], FeeEntry(p, i), EntryOn(j));
    hide Filter;
  }

  lemma SuccessLedgerSums(ledger: seq<LedgerEntry>, p: Payment, i: nat, t: TenantId)
    ensures var longer := ledger + [ReceivedEntry(p, i)] + [EntitlementEntry(p, i)] + [FeeEntry(p, i)];
            var here := if p.tenant == t then 1 else 0;
            && Sum(longer, OnPlatform(t)) == Sum(ledger, OnPlatform(t)) + PAYMENT_SUCCESS_FEE * here
            && Sum(longer, Entitled(t)) == Sum(ledger, Entitled(t)) + p.amount * here
            && Sum(longer, Received(t)) == Sum(ledger, Received(t)) + p.amount * here
  {
    var l1 := ledger + [ReceivedEntry(p, i)];
    var l2 := l1 + [EntitlementEntry(p, i)];
    PushSums(ledger, ReceivedEntry(p, i), t);
    PushSums(l1, EntitlementEntry(p, i), t);
    PushSums(l2, FeeEntry(p, i), t);
  }

  lemma SuccessPaymentSums(payments: seq<Payment>, i: nat, now: Time, t: TenantId)
    requires i < |payments| && !EverSuccessful(payments[i].status) && payments[i].batch.None?
    ensures var later := payments[i := PaidOff(payments[i], now)];
            var here := if payments[i].tenant == t then 1 else 0;
            && Sum(later, EverPaid(t)) == Sum(payments, EverPaid(t)) + here
            && Sum(later, EverAmount(t)) == Sum(payments, EverAmount(t)) + payments[i].amount * here
            && Sum(later, UnsettledAmount(t)) == Sum(payments, UnsettledAmount(t)) + payments[i].amount * here
  {
    var q := PaidOff(payments[i], now);
    SumUpdate(payments, i, q, EverPaid(t));
    SumUpdate(payments, i, q, EverAmount(t));
    SumUpdate(payments, i, q, UnsettledAmount(t));
  }

  lemma SuccessTenants(s: Store, s': Store, i: nat, now: Time)
    requires KeysResolve(s) && AllBooks(s) && AllTenants(s) && i < |s.payments| && !EverSuccessful(s.payments[i].status)
    requires SuccessRows(s, s', i, now)
    ensures AllTenants(s')
  {
    assert PaymentBooks(s, i);
    forall t: TenantId ensures TenantBooks(s', t) {
      assert TenantBooks(s, t);
      SuccessTenant(s, s', i, now, t);
    }
  }

  lemma SuccessTenant(s: Store, s': Store, i: nat, now: Time, t: TenantId)
    requires KeysResolve(s) && i < |s.payments|
    requires !EverSuccessful(s.payments[i].status) && s.payments[i].batch.None?
    requires SuccessRows(s, s', i, now) && TenantBooks(s, t)
    ensures TenantBooks(s', t)
  {
    var p := s.payments[i];
    SuccessLedgerSums(s.ledger, p, i, t);
    SuccessPaymentSums(s.payments, i, now, t);
    PushEvents(s.events, SuccessEvent(p, i, |s.ledger| + 2), t);
    hide BillMoved, KeysResolve;
  }

  lemma SuccessBatches(s: Store, s': Store, i: nat, now: Time)
    requires KeysResolve(s) && AllBatches(s) && i < |s.payments|
    requires SuccessRows(s, s', i, now)
    ensures AllBatches(s')
  {
    forall k | 0 <= k < |s'.batches| ensures BatchExact(s'.payments, s'.batches, k) {
      assert BatchExact(s.payments, s.batches, k);
      SumUpdate(s.payments, i, PaidOff(s.payments[i], now), BatchAmount(k));
      SumUpdate(s.payments, i, PaidOff(s.payments[i], now), InBatch(k));
    }
  }

  /** The bill's status after the allocation is again the one its amounts determine. */
  lemma AllocationMovesBill(s: Store, i: nat, b: nat)
    requires KeysResolve(s) && i < |s.payments| && BillOf(s, i) == Some(b)
    requires var paid := AmountPaid(s.allocations, b);
             0 <= paid && (s.bills[b].status == Cancelled || s.bills[b].status == DerivedStatus(s.bills[b].total, paid))
    ensures var s' := AllocateToBill(s, i);
            && AmountPaid(s'.allocations, b) == AmountPaid(s.allocations, b) + s.payments[i].amount
            && if s.bills[b].status == Cancelled then s'.bills[b].status == Cancelled
               else s'.bills[b].status == DerivedStatus(s.bills[b].total, AmountPaid(s'.allocations, b))
  {
    SumPush(s.allocations, Allocation(s.payments[i].tenant, i, b, s.payments[i].amount), ToBill(b));
  }

  lemma SuccessBills(s: Store, i: nat, now: Time)
    requires KeysResolve(s) && AllBills(s) && i < |s.payments| && !EverSuccessful(s.payments[i].status)
    requires Succeed(s, i, now).Ok? && SuccessRows(s, Succeed(s, i, now).value, i, now)
    ensures AllBills(Succeed(s, i, now).value)
  {
    var s' := Succeed(s, i, now).value;
    var p := s.payments[i];
    var bill := BillOf(s, i);
    var s3 := RecordPaymentSuccessful(PostSettlementEntries(SetStatus(s, i, Successful, now), i), i);
    forall b | 0 <= b < |s'.bills| ensures BillExact(s', b) {
      assert BillExact(s, b);
      SumUpdate(s.payments, i, PaidOff(p, now), PaidTo(s.numbers, b));
      SumPush(s.receipts, s'.receipts[|s.receipts|], OnBill(b));
      if bill.Some? {
        SumPush(s.allocations, AllocationFor(p, i, bill)[0], ToBill(b));
      } else {
        assert s'.allocations == s.allocations;
      }
      if bill == Some(b) {
        assert BillOf(s3, i) == bill;
        AllocationMovesBill(s3, i, b);
        assert s'.bills[b] == AllocateToBill(s3, i).bills[b];
      }
    }
  }

  lemma SuccessReceipts(s: Store, s': Store, i: nat, now: Time)
    requires KeysResolve(s) && AllReceipts(s) && i < |s.payments| && SuccessRows(s, s', i, now) && AllBills(s')
    ensures AllReceipts(s')
  {
    var bill := BillOf(s, i);
    forall k | 0 <= k < |s'.receipts| ensures ReceiptRuns(s'.bills, s'.receipts, k) {
      if k < |s.receipts| {
        assert ReceiptRuns(s.bills, s.receipts, k);
        assert s'.receipts[..k + 1] == s.receipts[..k + 1];
      } else {
        assert s'.receipts[..k + 1] == s'.receipts;
        if bill.Some? {
          assert BillExact(s', bill.value);
        }
      }
    }
  }

  lemma SucceedKeepsInv(s: Store, i: nat, now: Time)
    requires Inv(s) && i < |s.payments| && !EverSuccessful(s.payments[i].status)
    ensures Succeed(s, i, now).Ok? && Inv(Succeed(s, i, now).value)
    ensures SuccessRows(s, Succeed(s, i, now).value, i, now)
  {
    SucceedWrites(s, i, now);
    var s' := Succeed(s, i, now).value;
    SuccessKeys(s, s', i, now);
    SuccessBooks(s, s', i, now);
    SuccessTenants(s, s', i, now);
    SuccessBatches(s, s', i, now);
    SuccessBills(s, i, now);
    SuccessReceipts(s, s', i, now);
  }

  lemma SuccessKeys(s: Store, s': Store, i: nat, now: Time)
    requires KeysResolve(s) && RowKeys(s) && i < |s.payments| && SuccessRows(s, s', i, now)
    ensures KeysResolve(s') && RowKeys(s')
  {
  }

  // ---------------------------------------------------------------- refund and reversal

  /** The payment as a refund or reversal leaves it. */
  function TakenBack(p: Payment, status: PaymentStatus, now: Time): Payment {
    p.(status := status, completedAt := Some(now))
  }

  lemma SuccessEventFound(s: Store, i: nat)
    requires KeysResolve(s) && AllBooks(s) && i < |s.payments| && s.payments[i].status == Successful
    ensures var events := Filter(s.events, MoneyEventOn(i));
            && |events| == 1
            && Newest(s.events, SuccessEventOf(i)).Some?
            && s.events[Newest(s.events, SuccessEventOf(i)).value] == events[0]
            && ChargedOnce(s.payments[i], i, events, s.ledger)
  {
    assert PaymentBooks(s, i);
    var events := Filter(s.events, MoneyEventOn(i));
    var found := Newest(s.events, SuccessEventOf(i));
    FilterMember(s.events, MoneyEventOn(i), events[0]);
    assert SuccessEventOf(i)(events[0]);
    if found.Some? {
      FilterMember(s.events, MoneyEventOn(i), s.events[found.value]);
    }
  }

  /** Exactly what a refund or reversal writes, under either policy. */
  predicate CompensationRows(s: Store, s': Store, i: nat, status: PaymentStatus, now: Time)
    requires i < |s.payments|
  {
    var q := TakenBack(s.payments[i], status, now);
    var events := Filter(s.events, MoneyEventOn(i));
    && |events| > 0
    && s' == s.(payments := s.payments[i := q], ledger := s'.ledger, events := s'.events)
    && var undo := CompensatingEntry(q, i, events[0].entry);
       match PolicyOf(s.policies, q.tenant)
       case Clawback =>
         && s'.ledger == s.ledger + [undo]
         && s'.events == s.events + [RevenueEvent(q.tenant, CompensatingKind(status), -PAYMENT_SUCCESS_FEE,
                                                  OfPayment(i), Some(|s.ledger|), Some(Clawback))]
       case Retain =>
         && s'.ledger == s.ledger
         && s'.events == s.events + [RevenueEvent(q.tenant, CompensatingKind(status), 0, OfPayment(i), None, Some(Retain))]
  }

  function TakeBack(s: Store, i: nat, status: PaymentStatus, now: Time): Store
    requires i < |s.payments|
  {
    Compensate(SetStatus(s, i, status, now), i, CompensatingKind(status), if status == Refunded then Refund else Reversal)
  }

  lemma TakeBackWrites(s: Store, i: nat, status: PaymentStatus, now: Time)
    requires KeysResolve(s) && AllBooks(s) && i < |s.payments|
    requires s.payments[i].status == Successful && status in {Refunded, Reversed}
    ensures CompensationRows(s, TakeBack(s, i, status, now), i, status, now)
  {
    SuccessEventFound(s, i);
  }

  lemma CompensationBooks(s: Store, s': Store, i: nat, status: PaymentStatus, now: Time)
    requires KeysResolve(s) && AllBooks(s) && i < |s.payments|
    requires s.payments[i].status == Successful && status in {Refunded, Reversed}
    requires CompensationRows(s, s', i, status, now) && KeysResolve(s')
    ensures AllBooks(s')
  {
    forall j | 0 <= j < |s'.payments| ensures PaymentBooks(s', j) {
      assert PaymentBooks(s, j);
      if j != i {
        OtherBooksStay(s, s', i, status, now, j);
      } else {
        CompensatedBooks(s, s', i, status, now);
      }
    }
  }

  /** What a compensation adds to the rows of payment `j`: its event and entry if it is the compensated one, else nothing. */
  lemma CompensationFilters(s: Store, s': Store, i: nat, status: PaymentStatus, now: Time, j: nat)
    requires i < |s.payments| && CompensationRows(s, s', i, status, now)
    ensures |s'.events| == |s.events| + 1 && |s.ledger| <= |s'.ledger| && s.ledger <= s'.ledger
    ensures Filter(s'.events, MoneyEventOn(j)) ==
            Filter(s.events, MoneyEventOn(j)) + (if j == i then [s'.events[|s.events|]] else [])
    ensures Filter(s'.ledger, EntryOn(j)) ==
            Filter(s.ledger, EntryOn(j)) + (if j == i then s'.ledger[|s.ledger|..] else [])
  {
    FilterPush(s.events, s'.events[|s.events|], MoneyEventOn(j));
    if PolicyOf(s.policies, s.payments[i].tenant) == Clawback {
      FilterPush(s.ledger, s'.ledger[|s.ledger|], EntryOn(j));
      assert s'.ledger[|s.ledger|..] == [s'.ledger[|s.ledger|]];
    } else {
      assert s'.ledger[|s.ledger|..] == [];
    }
    hide Filter;
  }

  lemma OtherBooksStay(s: Store, s': Store, i: nat, status: PaymentStatus, now: Time, j: nat)
    requires KeysResolve(s) && KeysResolve(s') && i < |s.payments| && j < |s.payments| && j != i && PaymentBooks(s, j)
    requires CompensationRows(s, s', i, status, now)
    ensures PaymentBooks(s', j)
  {
    CompensationFilters(s, s', i, status, now, j);
    hide Books, Filter, KeysResolve;
    BooksFrame(s, s', j);
  }

  /** The books of a payment, once one compensating event and, under clawback, one entry are added to them. */
  lemma BooksCompensated(
    p: Payment, q: Payment, i: nat, bill: Option<nat>,
    entries: seq<LedgerEntry>, events: seq<RevenueEvent>, allocations: seq<Allocation>, receipts: seq<Receipt>,
    ledger: seq<LedgerEntry>, event: RevenueEvent, undo: seq<LedgerEntry>)
    requires Books(p, i, bill, entries, events, allocations, receipts, ledger) && p.status == Successful
    requires q == p.(status := q.status, completedAt := q.completedAt) && q.completedAt.Some?
    requires q.status in {Refunded, Reversed} && |events| > 0
    requires
      || (&& undo == [CompensatingEntry(q, i, events[0].entry)]
          && event == RevenueEvent(q.tenant, CompensatingKind(q.status), -PAYMENT_SUCCESS_FEE, OfPayment(i),
                                   Some(|ledger|), Some(Clawback)))
      || (&& undo == []
          && event == RevenueEvent(q.tenant, CompensatingKind(q.status), 0, OfPayment(i), None, Some(Retain)))
    ensures Books(q, i, bill, entries + undo, events + [event], allocations, receipts, ledger + undo)
  {
  }

  lemma CompensatedBooks(s: Store, s': Store, i: nat, status: PaymentStatus, now: Time)
    requires KeysResolve(s) && KeysResolve(s') && i < |s.payments| && PaymentBooks(s, i)
    requires s.payments[i].status == Successful && status in {Refunded, Reversed}
    requires CompensationRows(s, s', i, status, now)
    ensures PaymentBooks(s', i)
  {
    CompensationFilters(s, s', i, status, now, i);
    assert BillOf(s', i) == BillOf(s, i);
    var undo := s'.ledger[|s.ledger|..];
    assert s'.ledger == s.ledger + undo;
    hide Books, Filter, KeysResolve;
    BooksCompensated(
      s.payments[i], s'.payments[i], i, BillOf(s, i), Filter(s.ledger, EntryOn(i)), Filter(s.events, MoneyEventOn(i)),
      Filter(s.allocations, AllocationOn(i)), Filter(s.receipts, ReceiptOf(i)), s.ledger, s'.events[|s.events|], undo);
  }

  lemma TakenBackSums(payments: seq<Payment>, i: nat, q: Payment, t: TenantId)
    requires i < |payments| && EverSuccessful(payments[i].status) && EverSuccessful(q.status)
    requires q == payments[i].(status := q.status, completedAt := q.completedAt)
    ensures Sum(payments[i := q], EverPaid(t)) == Sum(payments, EverPaid(t))
    ensures Sum(payments[i := q], EverAmount(t)) == Sum(payments, EverAmount(t))
    ensures Sum(payments[i := q], UnsettledAmount(t)) == Sum(payments, UnsettledAmount(t))
  {
    SumUpdate(payments, i, q, EverPaid(t));
    SumUpdate(payments, i, q, EverAmount(t));
    SumUpdate(payments, i, q, UnsettledAmount(t));
  }

  /** The event's amount and the entry's amount, if any, move both books alike. */
  lemma CompensationTenants(s: Store, s': Store, i: nat, q: Payment, event: RevenueEvent)
    requires AllTenants(s) && i < |s.payments|
    requires EverSuccessful(s.payments[i].status) && EverSuccessful(q.status)
    requires q == s.payments[i].(status := q.status, completedAt := q.completedAt)
    requires s' == s.(payments := s.payments[i := q], ledger := s'.ledger, events := s.events + [event])
    requires event.kind in {PaymentReversed, PaymentRefunded} && event.tenant == q.tenant
    requires if event.policy == Some(Clawback)
             then
               && |s'.ledger| == |s.ledger| + 1
               && var undo := s'.ledger[|s.ledger|];
                  && s'.ledger == s.ledger + [undo]
                  && undo.tenant == q.tenant && undo.account == Platform && undo.kind in {Refund, Reversal}
                  && undo.amount == event.amount == -PAYMENT_SUCCESS_FEE
             else s'.ledger == s.ledger && event.amount == 0
    ensures AllTenants(s')
  {
    forall t: TenantId ensures TenantBooks(s', t) {
      assert TenantBooks(s, t);
      PushEvents(s.events, event, t);
      TakenBackSums(s.payments, i, q, t);
      if event.policy == Some(Clawback) {
        PushSums(s.ledger, s'.ledger[|s.ledger|], t);
      }
    }
  }

  lemma CompensationBatchesAndBills(s: Store, s': Store, i: nat, q: Payment)
    requires AllBatches(s) && AllBills(s) && i < |s.payments|
    requires EverSuccessful(s.payments[i].status) && EverSuccessful(q.status)
    requires q == s.payments[i].(status := q.status, completedAt := q.completedAt)
    requires s' == s.(payments := s.payments[i := q], ledger := s'.ledger, events := s'.events)
    ensures AllBatches(s') && AllBills(s')
  {
    forall k | 0 <= k < |s.batches| ensures BatchExact(s'.payments, s'.batches, k) {
      assert BatchExact(s.payments, s.batches, k);
      SumUpdate(s.payments, i, q, BatchAmount(k));
      SumUpdate(s.payments, i, q, InBatch(k));
    }
    forall b | 0 <= b < |s.bills| ensures BillExact(s', b) {
      assert BillExact(s, b);
      SumUpdate(s.payments, i, q, PaidTo(s.numbers, b));
    }
  }

  lemma TakeBackKeepsInv(s: Store, i: nat, status: PaymentStatus, now: Time)
    requires Inv(s) && i < |s.payments| && s.payments[i].status == Successful && status in {Refunded, Reversed}
    ensures Inv(TakeBack(s, i, status, now))
    ensures CompensationRows(s, TakeBack(s, i, status, now), i, status, now)
  {
    var s' := TakeBack(s, i, status, now);
    TakeBackWrites(s, i, status, now);
    CompensationBooks(s, s', i, status, now);
    CompensationTenants(s, s', i, TakenBack(s.payments[i], status, now), s'.events[|s.events|]);
    CompensationBatchesAndBills(s, s', i, TakenBack(s.payments[i], status, now));
  }

  // ---------------------------------------------------------------- settlement

  function ClaimedCount(tenant: TenantId, provider: ProviderId, start: Time, end: Time): Payment -> int {
    (p: Payment) => if Claimable(p, tenant, provider, start, end) then 1 else 0
  }

  function OneFee(i: nat): RevenueEvent -> int {
    (e: RevenueEvent) => if e.kind == PaymentSuccessful && e.source == OfPayment(i) then e.amount else 0
  }

  lemma OneFeeCharged(s: Store, i: nat)
    requires KeysResolve(s) && AllBooks(s) && i < |s.payments| && s.payments[i].status == Successful
    ensures Sum(s.events, OneFee(i)) == PAYMENT_SUCCESS_FEE
    ensures forall k :: 0 <= k < |s.events| && OneFee(i)(s.events[k]) != 0 ==> s.events[k].tenant == s.payments[i].tenant
  {
    assert PaymentBooks(s, i);
    var events := Filter(s.events, MoneyEventOn(i));
    SumFilter(s.events, MoneyEventOn(i), OneFee(i));
    assert events == [] + [events[0]];
    SumPush([], events[0], OneFee(i));
    forall k | 0 <= k < |s.events| && OneFee(i)(s.events[k]) != 0 ensures s.events[k].tenant == s.payments[i].tenant {
      FilterMember(s.events, MoneyEventOn(i), s.events[k]);
    }
  }

  /** The fee aggregate is the flat fee for each claimed payment: every one was charged exactly once. */
  lemma {:induction false} ClaimedFeesAreFlat(
    s: Store, tenant: TenantId, provider: ProviderId, start: Time, end: Time, n: nat)
    requires KeysResolve(s) && AllBooks(s) && n <= |s.payments|
    ensures Sum(s.events, ClaimedFee(s.payments[..n], tenant, provider, start, end)) ==
            PAYMENT_SUCCESS_FEE * Sum(s.payments[..n], ClaimedCount(tenant, provider, start, end))
  {
    var fees := ClaimedFee(s.payments[..n], tenant, provider, start, end);
    if n == 0 {
      SumZero(s.events, fees);
    } else {
      var i := n - 1;
      var fewer := ClaimedFee(s.payments[..i], tenant, provider, start, end);
      ClaimedFeesAreFlat(s, tenant, provider, start, end, i);
      assert s.payments[..n][..i] == s.payments[..i];
      if Claimable(s.payments[i], tenant, provider, start, end) {
        OneFeeCharged(s, i);
        SumExceeds(s.events, fees, s.events, fewer, OneFee(i));
      } else {
        SumMatch(s.events, fees, s.events, fewer);
      }
    }
  }

  lemma BatchTotals(s: Store, tenant: TenantId, provider: ProviderId, start: Time, end: Time)
    requires KeysResolve(s) && AllBooks(s)
    ensures var b := NewBatch(s, tenant, provider, start, end);
            && b.gross == Sum(s.payments, ClaimedAmount(tenant, provider, start, end))
            && b.platformFee == PAYMENT_SUCCESS_FEE * Sum(s.payments, ClaimedCount(tenant, provider, start, end))
  {
    ClaimedFeesAreFlat(s, tenant, provider, start, end, |s.payments|);
    assert s.payments[..|s.payments|] == s.payments;
  }

  lemma BatchKeepsBatches(s: Store, tenant: TenantId, provider: ProviderId, start: Time, end: Time)
    requires KeysResolve(s) && RowKeys(s) && AllBooks(s) && AllBatches(s)
    ensures AllBatches(GenerateBatch(s, tenant, provider, start, end))
  {
    var s' := GenerateBatch(s, tenant, provider, start, end);
    var latest := |s.batches|;
    forall k | 0 <= k < |s'.batches| ensures BatchExact(s'.payments, s'.batches, k) {
      if k < latest {
        assert BatchExact(s.payments, s.batches, k);
        SumMatch(s.payments, BatchAmount(k), s'.payments, BatchAmount(k));
        SumMatch(s.payments, InBatch(k), s'.payments, InBatch(k));
      } else {
        BatchTotals(s, tenant, provider, start, end);
        SumMatch(s.payments, ClaimedAmount(tenant, provider, start, end), s'.payments, BatchAmount(k));
        SumMatch(s.payments, ClaimedCount(tenant, provider, start, end), s'.payments, InBatch(k));
      }
    }
  }

  lemma BatchKeepsTenants(s: Store, tenant: TenantId, provider: ProviderId, start: Time, end: Time)
    requires AllTenants(s)
    ensures AllTenants(GenerateBatch(s, tenant, provider, start, end))
  {
    var s' := GenerateBatch(s, tenant, provider, start, end);
    var claimed := ClaimedAmount(tenant, provider, start, end);
    forall t: TenantId ensures TenantBooks(s', t) {
      assert TenantBooks(s, t);
      SumMatch(s.payments, EverPaid(t), s'.payments, EverPaid(t));
      SumMatch(s.payments, EverAmount(t), s'.payments, EverAmount(t));
      SumPush(s.batches, s'.batches[|s.batches|], GrossOf(t));
      if t == tenant {
        SumExceeds(s.payments, UnsettledAmount(t), s'.payments, UnsettledAmount(t), claimed);
      } else {
        SumMatch(s.payments, UnsettledAmount(t), s'.payments, UnsettledAmount(t));
      }
    }
  }

  lemma BatchKeepsBooksAndBills(s: Store, tenant: TenantId, provider: ProviderId, start: Time, end: Time)
    requires KeysResolve(s) && AllBooks(s) && AllBills(s)
    ensures var s' := GenerateBatch(s, tenant, provider, start, end);
            KeysResolve(s') && AllBooks(s') && AllBills(s')
  {
    var s' := GenerateBatch(s, tenant, provider, start, end);
    forall i | 0 <= i < |s'.payments| ensures PaymentBooks(s', i) {
      assert PaymentBooks(s, i);
    }
    forall b | 0 <= b < |s.bills| ensures BillExact(s', b) {
      assert BillExact(s, b);
      SumMatch(s.payments, PaidTo(s.numbers, b), s'.payments, PaidTo(s.numbers, b));
    }
  }

  lemma BatchKeepsInv(s: Store, tenant: TenantId, provider: ProviderId, start: Time, end: Time)
    requires Inv(s)
    ensures Inv(GenerateBatch(s, tenant, provider, start, end))
  {
    BatchKeepsBatches(s, tenant, provider, start, end);
    BatchKeepsTenants(s, tenant, provider, start, end);
    BatchKeepsBooksAndBills(s, tenant, provider, start, end);
  }

  lemma CompleteBatchKeepsInv(s: Store, k: nat, reference: string)
    requires Inv(s) && k < |s.batches|
    ensures Inv(CompleteBatch(s, k, reference))
  {
    var s' := CompleteBatch(s, k, reference);
    forall i | 0 <= i < |s'.payments| ensures PaymentBooks(s', i) {
      assert PaymentBooks(s, i);
    }
    forall t: TenantId ensures TenantBooks(s', t) {
      assert TenantBooks(s, t);
      SumUpdate(s.batches, k, s'.batches[k], GrossOf(t));
    }
    forall m | 0 <= m < |s'.batches| ensures BatchExact(s'.payments, s'.batches, m) {
      assert BatchExact(s.payments, s.batches, m);
    }
    forall b | 0 <= b < |s.bills| ensures BillExact(s', b) {
      assert BillExact(s, b);
    }
  }
}
