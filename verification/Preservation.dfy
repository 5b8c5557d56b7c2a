/** Every primitive change that the services are made of keeps the invariant. */
module Preservation {
  import opened Sums
  import opened Tables
  import opened Services
  import opened Invariants

  /** A payment's books survive whatever adds no row of its own. */
  lemma BooksFrame(s: Store, s': Store, i: nat)
    requires KeysResolve(s) && KeysResolve(s')
    requires i < |s.payments| && i < |s'.payments|
    requires PaymentBooks(s, i)
    requires s'.payments[i] == s.payments[i] && BillOf(s', i) == BillOf(s, i)
    requires s.ledger <= s'.ledger
    requires Filter(s'.ledger, EntryOn(i)) == Filter(s.ledger, EntryOn(i))
    requires Filter(s'.events, MoneyEventOn(i)) == Filter(s.events, MoneyEventOn(i))
    requires Filter(s'.allocations, AllocationOn(i)) == Filter(s.allocations, AllocationOn(i))
    requires Filter(s'.receipts, ReceiptOf(i)) == Filter(s.receipts, ReceiptOf(i))
    ensures PaymentBooks(s', i)
  {
    BooksLedgerGrows(
      s.payments[i], i, BillOf(s, i), Filter(s.ledger, EntryOn(i)), Filter(s.events, MoneyEventOn(i)),
      Filter(s.allocations, AllocationOn(i)), Filter(s.receipts, ReceiptOf(i)), s.ledger, s'.ledger);
  }

  lemma BooksLedgerGrows(
    p: Payment, i: nat, bill: Option<nat>, entries: seq<LedgerEntry>, events: seq<RevenueEvent>,
    allocations: seq<Allocation>, receipts: seq<Receipt>, ledger: seq<LedgerEntry>, longer: seq<LedgerEntry>)
    requires Books(p, i, bill, entries, events, allocations, receipts, ledger)
    requires ledger <= longer
    ensures Books(p, i, bill, entries, events, allocations, receipts, longer)
  {
  }

  // ---------------------------------------------------------------- bills

  lemma AddBillKeepsInv(s: Store, bill: Bill)
    requires Inv(s) && bill.status == Active
    ensures Inv(AddBill(s, bill))
  {
    var s' := AddBill(s, bill);
    var b := |s.bills|;
    SumZero(s.allocations, ToBill(b));
    SumZero(s.payments, PaidTo(s.numbers, b));
    SumZero(s.receipts, OnBill(b));
    forall i | 0 <= i < |s.payments| ensures PaymentBooks(s', i) {
      assert PaymentBooks(s, i);
    }
    forall t: TenantId ensures TenantBooks(s', t) {
      assert TenantBooks(s, t);
    }
    forall c | 0 <= c < |s'.bills| ensures BillExact(s', c) {
      if c < b {
        assert BillExact(s, c);
      }
    }
    forall k | 0 <= k < |s.receipts| ensures ReceiptRuns(s'.bills, s.receipts, k) {
      assert ReceiptRuns(s.bills, s.receipts, k);
    }
  }

  lemma CancelBillKeepsInv(s: Store, b: nat)
    requires Inv(s) && b < |s.bills|
    ensures Inv(SetBillStatus(s, b, Cancelled))
  {
    var s' := SetBillStatus(s, b, Cancelled);
    forall i | 0 <= i < |s.payments| ensures PaymentBooks(s', i) {
      assert PaymentBooks(s, i);
    }
    forall t: TenantId ensures TenantBooks(s', t) {
      assert TenantBooks(s, t);
    }
    forall c | 0 <= c < |s'.bills| ensures BillExact(s', c) {
      assert BillExact(s, c);
    }
    forall k | 0 <= k < |s.receipts| ensures ReceiptRuns(s'.bills, s.receipts, k) {
      assert ReceiptRuns(s.bills, s.receipts, k);
    }
  }

  // ---------------------------------------------------------------- control numbers

  /** Rows whose owner and tenant stay put, possibly followed by new rows. */
  predicate NumbersGrow(numbers: seq<ControlNumber>, later: seq<ControlNumber>) {
    && |numbers| <= |later|
    && forall n :: 0 <= n < |numbers| ==>
                     later[n].owner == numbers[n].owner && later[n].tenant == numbers[n].tenant
  }

  lemma NumbersGrowKeepsPayments(s: Store, s': Store)
    requires KeysResolve(s) && AllBills(s)
    requires NumbersGrow(s.numbers, s'.numbers) && NumberKeys(s'.numbers, s.bills)
    requires s'.payments == s.payments && s'.bills == s.bills
    requires s'.allocations == s.allocations && s'.receipts == s.receipts
    ensures KeysResolve(s') && AllBills(s')
    ensures forall i :: 0 <= i < |s.payments| ==> BillOf(s', i) == BillOf(s, i)
  {
    forall b | 0 <= b < |s.bills| ensures BillExact(s', b) {
      assert BillExact(s, b);
      SumMatch(s.payments, PaidTo(s.numbers, b), s.payments, PaidTo(s'.numbers, b));
    }
  }

  lemma NumberStatusKeepsInv(s: Store, numbers: seq<ControlNumber>)
    requires Inv(s)
    requires |numbers| == |s.numbers| && NumbersGrow(s.numbers, numbers)
    ensures Inv(s.(numbers := numbers))
  {
    var s' := s.(numbers := numbers);
    NumbersGrowKeepsPayments(s, s');
    forall i | 0 <= i < |s.payments| ensures PaymentBooks(s', i) {
      BooksFrame(s, s', i);
    }
    forall t: TenantId ensures TenantBooks(s', t) {
      assert TenantBooks(s, t);
      SumMatch(s.numbers, NumberOfTenant(t), numbers, NumberOfTenant(t));
    }
  }

  lemma CreateNumberKeepsInv(s: Store, number: ControlNumber)
    requires Inv(s)
    requires number.owner.ForBill? ==>
               number.owner.bill < |s.bills| && s.bills[number.owner.bill].tenant == number.tenant
    ensures Inv(CreateNumber(s, number))
  {
    var s' := CreateNumber(s, number);
    NumbersGrowKeepsPayments(s, s');
    var n := |s.numbers|;
    var fee := LedgerEntry(
      number.tenant, PlatformControlNumberFee, Platform, CONTROL_NUMBER_CREATION_FEE, OfNumber(n), None);
    var event := RevenueEvent(
      number.tenant, ControlNumberCreated, CONTROL_NUMBER_CREATION_FEE, OfNumber(n), Some(|s.ledger|), None);
    assert s'.ledger == s.ledger + [fee] && s'.events == s.events + [event];
    forall i | 0 <= i < |s.payments| ensures PaymentBooks(s', i) {
      FilterPush(s.ledger, fee, EntryOn(i));
      FilterPush(s.events, event, MoneyEventOn(i));
      BooksFrame(s, s', i);
    }
    forall t: TenantId ensures TenantBooks(s', t) {
      assert TenantBooks(s, t);
      PushSums(s.ledger, fee, t);
      PushEvents(s.events, event, t);
      SumPush(s.numbers, number, NumberOfTenant(t));
    }
  }

  lemma PushSums(ledger: seq<LedgerEntry>, entry: LedgerEntry, t: TenantId)
    ensures Sum(ledger + [entry], OnPlatform(t)) == Sum(ledger, OnPlatform(t)) + OnPlatform(t)(entry)
    ensures Sum(ledger + [entry], Entitled(t)) == Sum(ledger, Entitled(t)) + Entitled(t)(entry)
    ensures Sum(ledger + [entry], Received(t)) == Sum(ledger, Received(t)) + Received(t)(entry)
  {
    SumPush(ledger, entry, OnPlatform(t));
    SumPush(ledger, entry, Entitled(t));
    SumPush(ledger, entry, Received(t));
  }

  lemma PushEvents(events: seq<RevenueEvent>, event: RevenueEvent, t: TenantId)
    ensures Sum(events + [event], Earned(t)) == Sum(events, Earned(t)) + Earned(t)(event)
    ensures Sum(events + [event], ClawedBack(t)) == Sum(events, ClawedBack(t)) + ClawedBack(t)(event)
  {
    SumPush(events, event, Earned(t));
    SumPush(events, event, ClawedBack(t));
  }

  lemma ZeroEventKeepsInv(s: Store, tenant: TenantId, kind: EventKind, source: Source)
    requires Inv(s) && SourceKnown(source, s)
    requires kind in {ControlNumberReused, PaymentFailed, PaymentDuplicate}
    ensures Inv(RecordEvent(s, ZeroEvent(tenant, kind, source)))
  {
    var event := ZeroEvent(tenant, kind, source);
    var s' := RecordEvent(s, event);
    forall i | 0 <= i < |s.payments| ensures PaymentBooks(s', i) {
      FilterPush(s.events, event, MoneyEventOn(i));
      BooksFrame(s, s', i);
    }
    forall t: TenantId ensures TenantBooks(s', t) {
      assert TenantBooks(s, t);
      PushEvents(s.events, event, t);
    }
    forall b | 0 <= b < |s.bills| ensures BillExact(s', b) {
      assert BillExact(s, b);
    }
  }

  // ---------------------------------------------------------------- payments outside success

  lemma AddPaymentKeepsInv(s: Store, number: nat, provider: ProviderId, amount: PositiveCents, key: string)
    requires Inv(s) && number < |s.numbers|
    ensures Inv(AddPayment(s, number, provider, amount, key))
  {
    var s' := AddPayment(s, number, provider, amount, key);
    NewPaymentKeepsBooks(s, s');
    NewPaymentKeepsAggregates(s, s');
  }

  /** The latest payment is freshly initiated; everything else is as before. */
  predicate OnePaymentMore(s: Store, s': Store) {
    && |s'.payments| == |s.payments| + 1
    && s'.payments == s.payments + [s'.payments[|s.payments|]]
    && s' == s.(payments := s'.payments)
    && s'.payments[|s.payments|].status == Initiated
    && s'.payments[|s.payments|].batch.None?
  }

  lemma NewPaymentKeepsBooks(s: Store, s': Store)
    requires KeysResolve(s) && RowKeys(s) && AllBooks(s)
    requires OnePaymentMore(s, s') && KeysResolve(s')
    ensures AllBooks(s')
  {
    forall i | 0 <= i < |s'.payments| ensures PaymentBooks(s', i) {
      if i < |s.payments| {
        assert s'.payments[i] == s.payments[i];
        EarlierBooksStay(s, s', i);
      } else {
        NewPaymentHasNoBooks(s, s');
      }
    }
  }

  lemma EarlierBooksStay(s: Store, s': Store, i: nat)
    requires KeysResolve(s) && KeysResolve(s') && i < |s.payments| && i < |s'.payments|
    requires s' == s.(payments := s'.payments) && s'.payments[i] == s.payments[i]
    requires PaymentBooks(s, i)
    ensures PaymentBooks(s', i)
  {
  }

  lemma NewPaymentHasNoBooks(s: Store, s': Store)
    requires RowKeys(s) && OnePaymentMore(s, s') && KeysResolve(s')
    ensures PaymentBooks(s', |s.payments|)
  {
    NoRowsYet(s, |s.payments|);
  }

  lemma NoRowsYet(s: Store, i: nat)
    requires RowKeys(s) && |s.payments| <= i
    ensures Filter(s.ledger, EntryOn(i)) == [] && Filter(s.events, MoneyEventOn(i)) == []
    ensures Filter(s.allocations, AllocationOn(i)) == [] && Filter(s.receipts, ReceiptOf(i)) == []
  {
    FilterNone(s.ledger, EntryOn(i));
    FilterNone(s.events, MoneyEventOn(i));
    FilterNone(s.allocations, AllocationOn(i));
    FilterNone(s.receipts, ReceiptOf(i));
  }

  lemma NewPaymentKeepsAggregates(s: Store, s': Store)
    requires AllTenants(s) && AllBatches(s) && AllBills(s) && OnePaymentMore(s, s')
    ensures AllTenants(s') && AllBatches(s') && AllBills(s')
  {
    var p := s'.payments[|s.payments|];
    forall t: TenantId ensures TenantBooks(s', t) {
      assert TenantBooks(s, t);
      SumPush(s.payments, p, EverPaid(t));
      SumPush(s.payments, p, EverAmount(t));
      SumPush(s.payments, p, UnsettledAmount(t));
    }
    forall k | 0 <= k < |s.batches| ensures BatchExact(s'.payments, s'.batches, k) {
      assert BatchExact(s.payments, s.batches, k);
      SumPush(s.payments, p, BatchAmount(k));
      SumPush(s.payments, p, InBatch(k));
    }
    forall b | 0 <= b < |s.bills| ensures BillExact(s', b) {
      assert BillExact(s, b);
      SumPush(s.payments, p, PaidTo(s.numbers, b));
    }
  }

  /** A change to a payment that no money hangs on. */
  predicate Quiet(p: Payment, q: Payment) {
    && q.(status := p.status, completedAt := p.completedAt, reference := p.reference) == p
    && if EverSuccessful(p.status) then q.status == p.status && q.completedAt == p.completedAt
       else !EverSuccessful(q.status)
  }

  lemma QuietKeepsInv(s: Store, i: nat, q: Payment)
    requires Inv(s) && i < |s.payments| && Quiet(s.payments[i], q)
    ensures Inv(s.(payments := s.payments[i := q]))
  {
    QuietKeepsBooks(s, i, q);
    QuietKeepsAggregates(s, i, q);
  }

  lemma QuietKeepsBooks(s: Store, i: nat, q: Payment)
    requires KeysResolve(s) && AllBooks(s) && i < |s.payments| && Quiet(s.payments[i], q)
    ensures var s' := s.(payments := s.payments[i := q]);
            KeysResolve(s') && AllBooks(s')
  {
    var s' := s.(payments := s.payments[i := q]);
    forall j | 0 <= j < |s'.payments| ensures PaymentBooks(s', j) {
      assert PaymentBooks(s, j);
    }
  }

  lemma QuietKeepsAggregates(s: Store, i: nat, q: Payment)
    requires AllTenants(s) && AllBatches(s) && AllBills(s) && i < |s.payments| && Quiet(s.payments[i], q)
    ensures var s' := s.(payments := s.payments[i := q]);
            AllTenants(s') && AllBatches(s') && AllBills(s')
  {
    var s' := s.(payments := s.payments[i := q]);
    forall t: TenantId ensures TenantBooks(s', t) {
      assert TenantBooks(s, t);
      SumUpdate(s.payments, i, q, EverPaid(t));
      SumUpdate(s.payments, i, q, EverAmount(t));
      SumUpdate(s.payments, i, q, UnsettledAmount(t));
    }
    forall k | 0 <= k < |s.batches| ensures BatchExact(s'.payments, s'.batches, k) {
      assert BatchExact(s.payments, s.batches, k);
      SumUpdate(s.payments, i, q, BatchAmount(k));
      SumUpdate(s.payments, i, q, InBatch(k));
    }
    forall b | 0 <= b < |s.bills| ensures BillExact(s', b) {
      assert BillExact(s, b);
      SumUpdate(s.payments, i, q, PaidTo(s.numbers, b));
    }
  }

  lemma FailKeepsInv(s: Store, i: nat, now: Time)
    requires Inv(s) && i < |s.payments| && !EverSuccessful(s.payments[i].status)
    ensures Inv(Fail(s, i, now))
  {
    var s1 := SetStatus(s, i, Failed, now);
    QuietKeepsInv(s, i, s1.payments[i]);
    assert Inv(s1);
    ZeroEventKeepsInv(s1, s.payments[i].tenant, PaymentFailed, OfPayment(i));
  }

  // ---------------------------------------------------------------- tables outside the invariant

  lemma LogKeepsInv(s: Store, s': Store)
    requires Inv(s)
    requires s' == s.(policies := s'.policies, callbacks := s'.callbacks, runs := s'.runs, exceptions := s'.exceptions)
    requires CallbackLog(s'.callbacks)
    ensures Inv(s')
  {
    forall i | 0 <= i < |s.payments| ensures PaymentBooks(s', i) {
      assert PaymentBooks(s, i);
    }
    forall t: TenantId ensures TenantBooks(s', t) {
      assert TenantBooks(s, t);
    }
    forall b | 0 <= b < |s.bills| ensures BillExact(s', b) {
      assert BillExact(s, b);
    }
  }
}
