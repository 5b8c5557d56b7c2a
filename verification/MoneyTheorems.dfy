/** What the invariant means for whole runs of requests, in the terms of the people who rely on it. */
module MoneyTheorems {
  import opened Sums
  import opened Tables
  import opened Services
  import opened Invariants
  import opened MoneyMoves
  import opened Runs
  import opened History

  /** From an empty store, every run of requests, completed or rolled back, keeps all books straight. */
  lemma EveryRunIsSound(steps: seq<Step>)
    ensures Inv(EMPTY_STORE) && Inv(Run(EMPTY_STORE, steps))
  {
    EmptyStoreIsSound();
  }

  /**
    Two books agree: the platform's ledger balance is the revenue total, and both
    are 50.00 per control number and per payment that ever succeeded, less 50.00
    per refund or reversal that the policy of its moment clawed back.
  */
  lemma TwoBooksAlwaysAgree(steps: seq<Step>, t: TenantId)
    ensures Inv(EMPTY_STORE)
    ensures var s := Run(EMPTY_STORE, steps);
            && Sum(s.ledger, OnPlatform(t)) == Sum(s.events, Earned(t))
            && Sum(s.events, Earned(t)) ==
               5000 * (Sum(s.numbers, NumberOfTenant(t)) + Sum(s.payments, EverPaid(t)) - Sum(s.events, ClawedBack(t)))
  {
    EmptyStoreIsSound();
    assert TenantBooks(Run(EMPTY_STORE, steps), t);
  }

  /**
    Conservation of entitlement: what the institution is owed is what its batches
    hold gross plus what its ever-successful payments outside any batch amount to,
    and equals what was received.
  */
  lemma EntitlementIsConserved(steps: seq<Step>, t: TenantId)
    ensures Inv(EMPTY_STORE)
    ensures var s := Run(EMPTY_STORE, steps);
            && Sum(s.ledger, Entitled(t)) == Sum(s.batches, GrossOf(t)) + Sum(s.payments, UnsettledAmount(t))
            && Sum(s.ledger, Entitled(t)) == Sum(s.ledger, Received(t))
  {
    EmptyStoreIsSound();
    assert TenantBooks(Run(EMPTY_STORE, steps), t);
  }

  // ---------------------------------------------------------------- exactly once

  function EntryOf(i: nat, kind: EntryKind): LedgerEntry -> int {
    (e: LedgerEntry) => if e.source == OfPayment(i) && e.kind == kind then 1 else 0
  }

  function EventOf(i: nat, kind: EventKind): RevenueEvent -> int {
    (e: RevenueEvent) => if e.source == OfPayment(i) && e.kind == kind then 1 else 0
  }

  function CountReceipt(i: nat): Receipt -> int {
    (r: Receipt) => if r.payment == i then 1 else 0
  }

  function CountAllocation(i: nat): Allocation -> int {
    (a: Allocation) => if a.payment == i then 1 else 0
  }

  lemma SumOfThree<T>(a: T, b: T, c: T, weight: T -> int)
    ensures Sum([a, b, c], weight) == weight(a) + weight(b) + weight(c)
  {
    assert [a, b, c] == ([] + [a] + [b]) + [c];
    SumPush([] + [a] + [b], c, weight);
    SumPush([] + [a], b, weight);
    SumPush([], a, weight);
  }

  /** The ledger total of one payment, row by row, from the rows its books prescribe. */
  lemma EntryTotals(s: Store, i: nat, weight: LedgerEntry -> int)
    requires Inv(s) && i < |s.payments|
    requires forall k :: 0 <= k < |s.ledger| && s.ledger[k].source != OfPayment(i) ==> weight(s.ledger[k]) == 0
    ensures var p := s.payments[i];
            var events := Filter(s.events, MoneyEventOn(i));
            if !EverSuccessful(p.status) then Sum(s.ledger, weight) == 0
            else
              var paid := weight(ReceivedEntry(p, i)) + weight(EntitlementEntry(p, i)) + weight(FeeEntry(p, i));
              if p.status != Successful && |events| == 2 && events[1].policy == Some(Clawback)
              then Sum(s.ledger, weight) == paid + weight(CompensatingEntry(p, i, events[0].entry))
              else Sum(s.ledger, weight) == paid
  {
    assert PaymentBooks(s, i);
    var p := s.payments[i];
    var entries := Filter(s.ledger, EntryOn(i));
    SumFilter(s.ledger, EntryOn(i), weight);
    if EverSuccessful(p.status) {
      SumOfThree(ReceivedEntry(p, i), EntitlementEntry(p, i), FeeEntry(p, i), weight);
      if |entries| == 4 {
        SumPush(PaidEntries(p, i), entries[3], weight);
      }
    }
  }

  lemma SumOfOne<T>(row: T, weight: T -> int)
    ensures Sum([row], weight) == weight(row)
  {
    SumPush([], row, weight);
    assert [] + [row] == [row];
  }

  lemma OneSuccessEvent(s: Store, i: nat)
    requires KeysResolve(s) && i < |s.payments| && PaymentBooks(s, i)
    ensures Sum(s.events, EventOf(i, PaymentSuccessful)) == if EverSuccessful(s.payments[i].status) then 1 else 0
  {
    var events, weight := Filter(s.events, MoneyEventOn(i)), EventOf(i, PaymentSuccessful);
    SumFilter(s.events, MoneyEventOn(i), weight);
    hide Filter;
    if EverSuccessful(s.payments[i].status) {
      SumOfOne(events[0], weight);
      if |events| == 2 {
        assert events == [events[0]] + [events[1]];
        SumPush([events[0]], events[1], weight);
      } else {
        assert events == [events[0]];
      }
    }
  }

  lemma OneReceiptAndAllocation(s: Store, i: nat)
    requires KeysResolve(s) && i < |s.payments| && PaymentBooks(s, i)
    ensures var once := if EverSuccessful(s.payments[i].status) then 1 else 0;
            && Sum(s.receipts, CountReceipt(i)) == once
            && Sum(s.allocations, CountAllocation(i)) == if BillOf(s, i).Some? then once else 0
  {
    var allocations, receipts := Filter(s.allocations, AllocationOn(i)), Filter(s.receipts, ReceiptOf(i));
    SumFilter(s.receipts, ReceiptOf(i), CountReceipt(i));
    SumFilter(s.allocations, AllocationOn(i), CountAllocation(i));
    hide Filter;
    if EverSuccessful(s.payments[i].status) {
      assert receipts == [receipts[0]];
      SumOfOne(receipts[0], CountReceipt(i));
      if BillOf(s, i).Some? {
        assert allocations == [allocations[0]];
        SumOfOne(allocations[0], CountAllocation(i));
      }
    }
  }

  /** The success rows of a payment number exactly one each once it has ever succeeded, and none before. */
  lemma ExactlyOnceMoneyEffects(s: Store, i: nat)
    requires Inv(s) && i < |s.payments|
    ensures var once := if EverSuccessful(s.payments[i].status) then 1 else 0;
            && Sum(s.ledger, EntryOf(i, PaymentReceived)) == once
            && Sum(s.ledger, EntryOf(i, InstitutionEntitlement)) == once
            && Sum(s.ledger, EntryOf(i, PlatformPaymentFee)) == once
            && Sum(s.events, EventOf(i, PaymentSuccessful)) == once
            && Sum(s.receipts, CountReceipt(i)) == once
            && Sum(s.allocations, CountAllocation(i)) == if BillOf(s, i).Some? then once else 0
  {
    assert KeysResolve(s) && PaymentBooks(s, i);
    hide Inv, PaymentBooks;
    OneSuccessEvent(s, i);
    OneReceiptAndAllocation(s, i);
    EntryTotals(s, i, EntryOf(i, PaymentReceived));
    EntryTotals(s, i, EntryOf(i, InstitutionEntitlement));
    EntryTotals(s, i, EntryOf(i, PlatformPaymentFee));
  }

  function PlatformFrom(i: nat): LedgerEntry -> int {
    (e: LedgerEntry) => if e.source == OfPayment(i) && e.account == Platform then e.amount else 0
  }

  /** What the platform keeps of a payment: the fee, unless it never succeeded or the fee was clawed back. */
  lemma EachPaymentNetsItsFee(s: Store, i: nat)
    requires Inv(s) && i < |s.payments|
    ensures var p := s.payments[i];
            var events := Filter(s.events, MoneyEventOn(i));
            Sum(s.ledger, PlatformFrom(i)) ==
            if p.status == Successful then PAYMENT_SUCCESS_FEE
            else if EverSuccessful(p.status) && |events| == 2 && events[1].policy == Some(Retain) then PAYMENT_SUCCESS_FEE
            else 0
  {
    assert PaymentBooks(s, i);
    EntryTotals(s, i, PlatformFrom(i));
  }

  // ---------------------------------------------------------------- settlement

  /** A settled payment stays in its batch, and the batch's figures stay those of its payments, forever. */
  lemma SettledForGood(s: Store, steps: seq<Step>, i: nat)
    requires Inv(s) && i < |s.payments| && s.payments[i].batch.Some?
    ensures var s' := Run(s, steps);
            var k := s.payments[i].batch.value;
            && i < |s'.payments| && k < |s.batches| && k < |s'.batches|
            && s'.payments[i].batch == Some(k)
            && EverSuccessful(s'.payments[i].status)
            && s'.batches[k] == s.batches[k].(completed := s'.batches[k].completed)
            && s'.batches[k].gross == Sum(s'.payments, BatchAmount(k))
            && s'.batches[k].platformFee == PAYMENT_SUCCESS_FEE * Sum(s'.payments, InBatch(k))
            && s'.batches[k].net == s'.batches[k].gross - s'.batches[k].platformFee
  {
    var s' := Run(s, steps);
    var k := s.payments[i].batch.value;
    RunEvolves(s, steps);
    assert PaymentEvolves(s.payments[i], s'.payments[i]);
    assert PaymentBooks(s, i) && PaymentBooks(s', i);
    assert BatchExact(s'.payments, s'.batches, k);
  }

  // ---------------------------------------------------------------- what bills still owe

  function Positive(x: int): int {
    if x > 0 then x else 0
  }

  /** What the tenant's bills that were not cancelled still owe, over the first `n` bills. */
  function Owed(s: Store, t: TenantId, n: nat): int
    requires n <= |s.bills|
  {
    if n == 0 then 0
    else
      Owed(s, t, n - 1)
      + (if s.bills[n - 1].tenant == t && s.bills[n - 1].status != Cancelled
         then Positive(Balance(s.bills, s.allocations, n - 1)) else 0)
  }

  /** A bill that the report's status filter leaves out owes nothing, unless it was cancelled. */
  lemma FilteredOutBillsOweNothing(s: Store, b: nat)
    requires Inv(s) && b < |s.bills| && s.bills[b].status !in {Active, PartiallyPaid, Cancelled}
    ensures Balance(s.bills, s.allocations, b) <= 0
  {
    assert BillExact(s, b);
  }

  /** The stored status says exactly which of the three amounts cases a bill is in. */
  lemma StatusMeansAmount(s: Store, b: nat)
    requires Inv(s) && b < |s.bills| && s.bills[b].status != Cancelled
    ensures var paid, total := AmountPaid(s.allocations, b), s.bills[b].total;
            && paid == Sum(s.payments, PaidTo(s.numbers, b))
            && (s.bills[b].status == Active <==> paid == 0)
            && (s.bills[b].status == PartiallyPaid <==> 0 < paid < total)
            && (s.bills[b].status == Paid <==> 0 < paid && total <= paid)
  {
    assert BillExact(s, b);
  }

  lemma {:induction false} NothingOnBill(receipts: seq<Receipt>, b: nat, j: nat, k: nat)
    requires j <= k <= |receipts|
    requires forall m :: j <= m < k ==> receipts[m].bill != Some(b)
    ensures Sum(receipts[..k], OnBill(b)) == Sum(receipts[..j], OnBill(b))
  {
    if j < k {
      NothingOnBill(receipts, b, j, k - 1);
      assert receipts[..k][..k - 1] == receipts[..k - 1];
    }
  }

  /**
    A bill's receipts, in issue order, carry its running balance: the first starts
    from the total, each next one takes its own amount off, and the last shows
    what the bill still owes.
  */
  lemma ReceiptsCarryRunningBalance(s: Store, b: nat, j: nat, k: nat)
    requires Inv(s) && b < |s.bills| && j <= k < |s.receipts|
    requires s.receipts[k].bill == Some(b)
    requires forall m :: j <= m < k ==> s.receipts[m].bill != Some(b)
    ensures s.receipts[k].remaining.Some?
    ensures j == 0 ==> s.receipts[k].remaining.value == s.bills[b].total - s.receipts[k].amount
    ensures j > 0 && s.receipts[j - 1].bill == Some(b) ==>
              && s.receipts[j - 1].remaining.Some?
              && s.receipts[k].remaining.value == s.receipts[j - 1].remaining.value - s.receipts[k].amount
    ensures (forall m :: k < m < |s.receipts| ==> s.receipts[m].bill != Some(b)) ==>
              s.receipts[k].remaining.value == Balance(s.bills, s.allocations, b)
  {
    assert ReceiptRuns(s.bills, s.receipts, k) && BillExact(s, b);
    assert j > 0 ==> ReceiptRuns(s.bills, s.receipts, j - 1);
    hide Inv;
    NothingOnBill(s.receipts, b, j, k);
    assert s.receipts[..k + 1][..k] == s.receipts[..k];
    if forall m :: k < m < |s.receipts| ==> s.receipts[m].bill != Some(b) {
      NothingOnBill(s.receipts, b, k + 1, |s.receipts|);
      assert s.receipts[..|s.receipts|] == s.receipts;
    }
  }

  /** outstanding_balances_report: it filters on stored status, yet no money is lost. */
  method OutstandingReport(s: Store, t: TenantId) returns (total: int)
    requires Inv(s)
    ensures total == Owed(s, t, |s.bills|)
  {
    total := 0;
    for b := 0 to |s.bills|
      invariant total == Owed(s, t, b)
    {
      if s.bills[b].tenant == t && s.bills[b].status in {Active, PartiallyPaid} {
        var balance := Balance(s.bills, s.allocations, b);
        if balance > 0 {
          total := total + balance;
        }
      } else if s.bills[b].tenant == t && s.bills[b].status != Cancelled {
        FilteredOutBillsOweNothing(s, b);
      }
    }
  }
}
