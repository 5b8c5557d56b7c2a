/**
  What the control number specification promises and the payment service does not
  keep: that a one-time number is unusable once its bill is paid or cancelled.
*/
module Overpayment {
  import opened Sums
  import opened Tables
  import opened Services
  import opened Invariants
  import opened Preservation
  import opened MoneyMoves
  import opened Runs

  /** An initiation is refused for a number that does not exist, and for no other. */
  lemma RefusedIffUnknown(
    s: Store, number: nat, provider: ProviderId, amount: PositiveCents, key: string, reply: Reply, now: Time)
    requires Inv(s)
    ensures Perform(s, Initiating(number, provider, amount, key, reply, now)).Raised? <==> |s.numbers| <= number
  {
    if number < |s.numbers| {
      InitiationNeverRaises(s, number, provider, amount, key, reply, now);
    }
  }

  /** The request was answered with a success, for a bill's number and under a key that is not taken. */
  predicate NewSuccess(s: Store, step: Step, b: nat) {
    && step.Initiating?
    && step.number < |s.numbers| && s.numbers[step.number].owner == ForBill(b)
    && step.reply.Answered? && step.reply.outcome == OutcomeSuccessful
    && (step.key != "" ==> Newest(s.payments, Keyed(s.numbers[step.number].tenant, step.key)).None?)
  }

  /**
    Whatever the status of the number and of its bill, a payment that the provider
    reports successful is taken and allocated in full; a bill that is paid or
    cancelled already stays as it is.
  */
  lemma EveryNumberTakesPayments(s: Store, step: Step, b: nat)
    requires Inv(s) && NewSuccess(s, step, b)
    ensures var s' := After(s, step);
            && b < |s.bills| == |s'.bills|
            && AmountPaid(s'.allocations, b) == AmountPaid(s.allocations, b) + step.amount
            && s'.bills[b] == s.bills[b].(status := s'.bills[b].status)
            && (s.bills[b].status in {Paid, Cancelled} ==> s'.bills[b] == s.bills[b])
            && (s'.bills[b].status == Cancelled ==> s.bills[b].status == Cancelled)
            && s'.numbers == s.numbers
  {
    hide Inv, KeysResolve, TakeReply;
    var s1 := AddPayment(s, step.number, step.provider, step.amount, step.key);
    AddPaymentKeepsInv(s, step.number, step.provider, step.amount, step.key);
    SuccessfulReply(s1, |s.payments|, step.reply, step.now, b);
  }

  lemma SuccessfulReply(s: Store, i: nat, reply: Reply, now: Time, b: nat)
    requires Inv(s) && i < |s.payments| && s.payments[i].status == Initiated && BillOf(s, i) == Some(b)
    requires reply.Answered? && reply.outcome == OutcomeSuccessful
    ensures var r := TakeReply(s, i, reply, now);
            && r.Ok? && b < |s.bills| == |r.value.bills|
            && AmountPaid(r.value.allocations, b) == AmountPaid(s.allocations, b) + s.payments[i].amount
            && r.value.bills[b] == s.bills[b].(status := r.value.bills[b].status)
            && (s.bills[b].status in {Paid, Cancelled} ==> r.value.bills[b] == s.bills[b])
            && (r.value.bills[b].status == Cancelled ==> s.bills[b].status == Cancelled)
            && r.value.numbers == s.numbers
  {
    var s1 := SetReference(s, i, reply.reference);
    ReferenceKeepsInv(s, i, reply.reference);
    hide Inv, KeysResolve, Succeed;
    SuccessIsAllocated(s1, i, now, b);
  }

  lemma SuccessIsAllocated(s: Store, i: nat, now: Time, b: nat)
    requires Inv(s) && i < |s.payments| && !EverSuccessful(s.payments[i].status) && BillOf(s, i) == Some(b)
    ensures var r := Succeed(s, i, now);
            && r.Ok? && |r.value.bills| == |s.bills|
            && AmountPaid(r.value.allocations, b) == AmountPaid(s.allocations, b) + s.payments[i].amount
            && r.value.bills[b] == s.bills[b].(status := r.value.bills[b].status)
            && (s.bills[b].status in {Paid, Cancelled} ==> r.value.bills[b] == s.bills[b])
            && (r.value.bills[b].status == Cancelled ==> s.bills[b].status == Cancelled)
            && r.value.numbers == s.numbers
  {
    SucceedWrites(s, i, now);
    SumPush(s.allocations, AllocationFor(s.payments[i], i, Some(b))[0], ToBill(b));
    if s.bills[b].status in {Paid, Cancelled} {
      ClosedBillStays(s, i, now, b);
    }
  }

  lemma ClosedBillStays(s: Store, i: nat, now: Time, b: nat)
    requires KeysResolve(s) && i < |s.payments| && BillOf(s, i) == Some(b) && s.bills[b].status in {Paid, Cancelled}
    ensures var r := Succeed(s, i, now);
            r.Ok? ==> |r.value.bills| == |s.bills| && r.value.bills[b] == s.bills[b]
  {
  }

  // ---------------------------------------------------------------- two runs of requests

  const BILL_WITH_NUMBER: seq<Step> :=
    [IssuingBill(0, [100], "", ["B"]), RequestingNumber(0, ForBill(0), ["1"], None)]
  const PAYING: Step := Initiating(0, 0, 100, "", Answered(OutcomeSuccessful, "P1"), 0)
  const PAYING_AGAIN: Step := Initiating(0, 0, 100, "", Answered(OutcomeSuccessful, "P2"), 1)

  lemma BillIsReady()
    ensures Inv(EMPTY_STORE)
    ensures var s := Run(EMPTY_STORE, BILL_WITH_NUMBER);
            && s.bills == [Bill(0, "B", "", Active, 100)]
            && s.numbers == [ControlNumber(0, "1", ForBill(0), NumberActive, None)]
            && s.payments == [] && s.allocations == []
  {
    EmptyStoreIsSound();
    var issuing, requesting := BILL_WITH_NUMBER[0], BILL_WITH_NUMBER[1];
    var s1 := After(EMPTY_STORE, issuing);
    assert s1 == EMPTY_STORE.(bills := [Bill(0, "B", "", Active, 100)]) by {
      assert Drawn(["B"], MAX_BILL_NUMBER_ATTEMPTS) == ["B"];
      assert FreshBillNumber([], 0, ["B"]) == Some("B");
      assert InvoiceTotal([100]) == 100;
    }
    NumberIsReady(s1);
    assert [issuing] == [] + [issuing] && BILL_WITH_NUMBER == [issuing] + [requesting];
    RunOneMore(EMPTY_STORE, [], issuing);
    RunOneMore(EMPTY_STORE, [issuing], requesting);
  }

  lemma NumberIsReady(s: Store)
    requires Inv(s) && s == EMPTY_STORE.(bills := [Bill(0, "B", "", Active, 100)])
    ensures var s' := After(s, BILL_WITH_NUMBER[1]);
            && s'.bills == s.bills && s'.payments == [] && s'.allocations == []
            && s'.numbers == [ControlNumber(0, "1", ForBill(0), NumberActive, None)]
  {
    assert Drawn(["1"], MAX_GENERATION_ATTEMPTS) == ["1"];
    assert FreshValue([], ["1"]) == Some("1");
  }

  lemma PayingOnce(s: Store)
    requires Inv(s) && s.bills == [Bill(0, "B", "", Active, 100)] && s.allocations == []
    requires |s.numbers| == 1 && s.numbers[0].owner == ForBill(0)
    ensures var s' := After(s, PAYING);
            && s'.bills == [Bill(0, "B", "", Paid, 100)] && s'.numbers == s.numbers
            && AmountPaid(s'.allocations, 0) == 100
  {
    EveryNumberTakesPayments(s, PAYING, 0);
    StatusFollows(After(s, PAYING), 0);
    hide Inv, After;
  }

  lemma StatusFollows(s: Store, b: nat)
    requires Inv(s) && b < |s.bills|
    ensures s.bills[b].status == Cancelled
            || s.bills[b].status == DerivedStatus(s.bills[b].total, AmountPaid(s.allocations, b))
  {
    assert BillExact(s, b);
  }

  lemma PayingAgain(s: Store)
    requires Inv(s) && s.bills == [Bill(0, "B", "", Paid, 100)]
    requires |s.numbers| == 1 && s.numbers[0].owner == ForBill(0)
    ensures var s' := After(s, PAYING_AGAIN);
            s'.bills == s.bills && AmountPaid(s'.allocations, 0) == AmountPaid(s.allocations, 0) + 100
  {
    EveryNumberTakesPayments(s, PAYING_AGAIN, 0);
    hide Inv, After;
  }

  /** A bill over 1.00 is paid in full through its number, and then paid in full again. */
  lemma PaidBillIsPaidAgain()
    ensures Inv(EMPTY_STORE)
    ensures var once := Run(EMPTY_STORE, BILL_WITH_NUMBER + [PAYING]);
            var twice := Run(EMPTY_STORE, BILL_WITH_NUMBER + [PAYING] + [PAYING_AGAIN]);
            && |once.bills| == |twice.bills| == 1 && once.bills[0].status == twice.bills[0].status == Paid
            && AmountPaid(once.allocations, 0) == once.bills[0].total == twice.bills[0].total
            && AmountPaid(twice.allocations, 0) == 2 * twice.bills[0].total
  {
    BillIsReady();
    hide Inv, Run, After, PAYING, PAYING_AGAIN, BILL_WITH_NUMBER, EMPTY_STORE;
    RunOneMore(EMPTY_STORE, BILL_WITH_NUMBER, PAYING);
    RunOneMore(EMPTY_STORE, BILL_WITH_NUMBER + [PAYING], PAYING_AGAIN);
    var s := Run(EMPTY_STORE, BILL_WITH_NUMBER);
    PayingOnce(s);
    PayingAgain(After(s, PAYING));
  }

  const CANCELLING: seq<Step> := BILL_WITH_NUMBER + [CancellingNumber(0)] + [CancellingBill(0)]

  /** The number and the bill are both cancelled, and then the bill is paid through the number. */
  lemma CancelledBillIsPaid()
    ensures Inv(EMPTY_STORE)
    ensures var s, s' := Run(EMPTY_STORE, CANCELLING), Run(EMPTY_STORE, CANCELLING + [PAYING]);
            && |s.numbers| == 1 && s.numbers[0].status == NumberCancelled && s'.numbers == s.numbers
            && |s.bills| == |s'.bills| == 1 && s.bills[0].status == s'.bills[0].status == Cancelled
            && AmountPaid(s.allocations, 0) == 0 && AmountPaid(s'.allocations, 0) == 100
  {
    BillIsReady();
    assert CANCELLING == BILL_WITH_NUMBER + [CancellingNumber(0)] + [CancellingBill(0)];
    hide Inv, Run, After, PAYING, BILL_WITH_NUMBER, EMPTY_STORE, CANCELLING;
    RunOneMore(EMPTY_STORE, BILL_WITH_NUMBER, CancellingNumber(0));
    RunOneMore(EMPTY_STORE, BILL_WITH_NUMBER + [CancellingNumber(0)], CancellingBill(0));
    RunOneMore(EMPTY_STORE, CANCELLING, PAYING);
    var s := Run(EMPTY_STORE, BILL_WITH_NUMBER);
    BothCancelled(s);
    PayingCancelled(After(After(s, CancellingNumber(0)), CancellingBill(0)));
  }

  lemma BothCancelled(s: Store)
    requires Inv(s) && |s.bills| == |s.numbers| == 1 && s.bills[0].status == Active
    ensures After(After(s, CancellingNumber(0)), CancellingBill(0)) ==
            s.(numbers := [s.numbers[0].(status := NumberCancelled)], bills := [s.bills[0].(status := Cancelled)])
  {
  }

  lemma PayingCancelled(s: Store)
    requires Inv(s) && |s.bills| == |s.numbers| == 1 && s.bills[0].status == Cancelled
    requires s.numbers[0].owner == ForBill(0) && s.allocations == []
    ensures var s' := After(s, PAYING);
            && |s'.bills| == 1 && s'.bills[0].status == Cancelled && s'.numbers == s.numbers
            && AmountPaid(s.allocations, 0) == 0 && AmountPaid(s'.allocations, 0) == 100
  {
    NothingPaidYet(s);
    assert NewSuccess(s, PAYING, 0);
    hide Inv, After, NewSuccess, AmountPaid;
    EveryNumberTakesPayments(s, PAYING, 0);
  }

  lemma NothingPaidYet(s: Store)
    requires s.allocations == []
    ensures AmountPaid(s.allocations, 0) == 0
  {
  }
}
