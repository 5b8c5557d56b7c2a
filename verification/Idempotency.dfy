/**
  Retries are answered with what the first request created, however many other
  requests came in between: a payment by its key, a control number by its bill or
  account, a bill by its external reference.
*/
module Idempotency {
  import opened Sums
  import opened Tables
  import opened Services
  import opened Invariants
  import opened MoneyMoves
  import opened Runs
  import opened History
  import Refinement = Delivery
  import opened Reconciliation
  import opened BillRequests

  // ---------------------------------------------------------------- the unique constraints

  predicate UniqueKeys(payments: seq<Payment>) {
    forall i, j :: 0 <= i < j < |payments| && payments[i].key != "" ==>
      payments[i].key != payments[j].key || payments[i].tenant != payments[j].tenant
  }

  predicate UniqueNumbers(numbers: seq<ControlNumber>) {
    forall i, j :: 0 <= i < j < |numbers| ==>
      && numbers[i].value != numbers[j].value
      && (numbers[i].owner == numbers[j].owner ==>
            numbers[i].owner.ForAccount? && !(numbers[i].status == NumberActive && numbers[j].status == NumberActive))
  }

  predicate UniqueBills(bills: seq<Bill>) {
    forall i, j :: 0 <= i < j < |bills| && bills[i].tenant == bills[j].tenant ==>
      && bills[i].billNumber != bills[j].billNumber
      && (bills[i].reference != "" ==> bills[i].reference != bills[j].reference)
  }

  predicate Unique(s: Store) {
    UniqueKeys(s.payments) && UniqueNumbers(s.numbers) && UniqueBills(s.bills)
  }

  // ---------------------------------------------------------------- what each request adds

  /** Policies, numbers and bills are where they were, with the same terms, and payments in their batches. */
  predicate SameCatalogue(s: Store, s': Store) {
    && s'.policies == s.policies
    && SameBatches(s.payments, s'.payments)
    && s'.numbers == s.numbers
    && |s'.bills| == |s.bills|
    && forall b :: 0 <= b < |s.bills| ==> s'.bills[b] == s.bills[b].(status := s'.bills[b].status)
  }

  lemma AnswerKeepsCatalogue(s: Store, i: nat, outcome: ProviderOutcome, reference: string, now: Time)
    requires Inv(s) && i < |s.payments|
    ensures KeysResolve(SetReference(s, i, reference))
    ensures var r := ApplyOutcome(SetReference(s, i, reference), i, outcome, now);
            r.Ok? ==> SameCatalogue(s, r.value)
  {
    var s1 := SetReference(s, i, reference);
    ReferenceKeepsInv(s, i, reference);
    OutcomeIsSteady(s1, i, outcome, now);
  }

  lemma ReplyKeepsCatalogue(s: Store, i: nat, reply: Reply, now: Time)
    requires Inv(s) && i < |s.payments|
    ensures var r := TakeReply(s, i, reply, now);
            r.Ok? ==> SameCatalogue(s, r.value)
  {
    if reply.Answered? {
      AnswerKeepsCatalogue(s, i, reply.outcome, reply.reference, now);
      hide Inv, KeysResolve, ApplyOutcome;
    } else {
      hide Inv, KeysResolve;
    }
  }

  lemma InitiationKeepsCatalogue(
    s: Store, number: nat, provider: ProviderId, amount: PositiveCents, key: string, reply: Reply, now: Time)
    requires Inv(s) && number < |s.numbers|
    ensures var r := InitiatePayment(s, number, provider, amount, key, reply, now);
            r.Ok? ==> SameCatalogue(s, r.value.0)
  {
    hide Inv, KeysResolve, TakeReply;
    var s1 := AddPayment(s, number, provider, amount, key);
    Preservation.AddPaymentKeepsInv(s, number, provider, amount, key);
    ReplyKeepsCatalogue(s1, |s.payments|, reply, now);
  }

  lemma FilingKeepsBooks(s: Store, c: CallbackEvent)
    requires KeysResolve(s) && AllBooks(s)
    ensures KeysResolve(LogCallback(s, c)) && AllBooks(LogCallback(s, c))
  {
    forall i | 0 <= i < |s.payments| ensures PaymentBooks(LogCallback(s, c), i) {
      assert PaymentBooks(s, i);
    }
  }

  lemma CallbackKeepsCatalogue(s: Store, provider: ProviderId, delivery: Delivery, now: Time)
    requires KeysResolve(s) && AllBooks(s)
    ensures var r := ProcessCallback(s, provider, delivery, now);
            r.Ok? ==> SameCatalogue(s, r.value)
  {
    if delivery.Parsed? {
      var found := Newest(s.payments, PaymentReferenced(delivery.reference));
      if found.Some? {
        var c := CallbackEvent(provider, delivery.eventId, Processed, found);
        FilingKeepsBooks(s, c);
        OutcomeIsSteady(LogCallback(s, c), found.value, delivery.outcome, now);
        hide KeysResolve, AllBooks, ApplyOutcome;
      }
    }
  }

  lemma CompensationKeepsCatalogue(s: Store, i: nat, status: PaymentStatus, now: Time)
    requires i < |s.payments|
    ensures SameCatalogue(s, TakeBack(s, i, status, now))
    ensures |TakeBack(s, i, status, now).payments| == |s.payments|
  {
  }

  lemma RefundKeepsCatalogue(s: Store, i: nat, reply: Reply, now: Time)
    requires i < |s.payments|
    ensures RefundPayment(s, i, reply, now).Ok? ==> SameCatalogue(s, RefundPayment(s, i, reply, now).value)
    ensures ReversePayment(s, i, reply, now).Ok? ==> SameCatalogue(s, ReversePayment(s, i, reply, now).value)
  {
    CompensationKeepsCatalogue(s, i, Refunded, now);
    CompensationKeepsCatalogue(s, i, Reversed, now);
    hide Compensate, SetStatus;
  }

  lemma MoneyStepKeepsCatalogue(s: Store, step: Step)
    requires Inv(s) && MovesPayments(step)
    ensures Perform(s, step).Ok? ==> SameCatalogue(s, Perform(s, step).value)
  {
    assert AllBooks(s);
    hide Inv, KeysResolve, AllBooks, QueryPayment, ProcessCallback, Reconcile, InitiatePayment, RefundPayment,
      ReversePayment;
    match step
    case Initiating(number, provider, amount, key, reply, now) =>
      if number < |s.numbers| {
        InitiationKeepsCatalogue(s, number, provider, amount, key, reply, now);
      }
    case Querying(payment, reply, now) =>
      if payment < |s.payments| {
        QueryIsSteady(s, payment, reply, now);
      }
    case CallingBack(provider, delivery, now) =>
      CallbackKeepsCatalogue(s, provider, delivery, now);
    case Refunding(payment, reply, now) =>
      if payment < |s.payments| {
        RefundKeepsCatalogue(s, payment, reply, now);
      }
    case Reversing(payment, reply, now) =>
      if payment < |s.payments| {
        RefundKeepsCatalogue(s, payment, reply, now);
      }
    case Reconciling(tenant, ask, check, now) =>
      ReconcileIsSteady(s, tenant, ask, check, now);
  }

  /** The payment row that an initiation adds is the requested one, under a key that nobody has used. */
  lemma InitiationAddsOne(
    s: Store, number: nat, provider: ProviderId, amount: PositiveCents, key: string, reply: Reply, now: Time)
    requires Inv(s) && number < |s.numbers|
    ensures var r := InitiatePayment(s, number, provider, amount, key, reply, now);
            var tenant, i := s.numbers[number].tenant, |s.payments|;
            && r.Ok?
            && if key != "" && Newest(s.payments, Keyed(tenant, key)).Some?
               then r.value == (s, Newest(s.payments, Keyed(tenant, key)).value)
               else && r.value.1 == i && |r.value.0.payments| == i + 1
                    && r.value.0.payments[i].tenant == tenant && r.value.0.payments[i].key == key
  {
    hide Inv, KeysResolve, TakeReply;
    InitiationNeverRaises(s, number, provider, amount, key, reply, now);
    if key == "" || Newest(s.payments, Keyed(s.numbers[number].tenant, key)).None? {
      var s1 := AddPayment(s, number, provider, amount, key);
      Preservation.AddPaymentKeepsInv(s, number, provider, amount, key);
      ReplyEvolves(s1, |s.payments|, reply, now);
      var s2 := TakeReply(s1, |s.payments|, reply, now).value;
      assert PaymentEvolves(s1.payments[|s.payments|], s2.payments[|s.payments|]);
    }
  }

  lemma OnlyInitiationsAddPayments(s: Store, step: Step)
    requires Inv(s) && !step.Initiating?
    ensures Perform(s, step).Ok? ==> |Perform(s, step).value.payments| == |s.payments|
  {
    hide Inv, KeysResolve, QueryPayment, ProcessCallback, Reconcile, RefundPayment, ReversePayment, NewBatch;
    if step.CallingBack? {
      Refinement.CallbackKeepsReferences(s, step.provider, step.delivery, step.now);
    } else if step.Reconciling? {
      ReconcileDecides(s, step.tenant, step.ask, step.check, step.now);
    } else if (step.Refunding? || step.Reversing?) && step.payment < |s.payments| {
      Refinement.RefundKeepsReferences(s, step.payment, step.reply, step.now);
    }
  }

  // ---------------------------------------------------------------- uniqueness over whole runs

  predicate NobodyUsed(payments: seq<Payment>, tenant: TenantId, key: string) {
    forall i :: 0 <= i < |payments| ==> payments[i].tenant != tenant || payments[i].key != key
  }

  lemma NoneFoundIsUnused(payments: seq<Payment>, tenant: TenantId, key: string)
    requires Newest(payments, Keyed(tenant, key)).None?
    ensures NobodyUsed(payments, tenant, key)
  {
    forall i | 0 <= i < |payments| ensures payments[i].tenant != tenant || payments[i].key != key {
      assert !Keyed(tenant, key)(payments[i]);
    }
  }

  /** Payments keep their terms, and one more comes under a blank key or one that nobody has used. */
  lemma GrownKeysStayUnique(payments: seq<Payment>, later: seq<Payment>)
    requires UniqueKeys(payments) && PaymentsEvolve(payments, later) && |later| <= |payments| + 1
    requires var n := |payments|;
             |later| > n && later[n].key != "" ==> NobodyUsed(payments, later[n].tenant, later[n].key)
    ensures UniqueKeys(later)
  {
    forall i, j | 0 <= i < j < |later| && later[i].key != ""
      ensures later[i].key != later[j].key || later[i].tenant != later[j].tenant
    {
      assert PaymentEvolves(payments[i], later[i]);
      if j < |payments| {
        assert PaymentEvolves(payments[j], later[j]);
      } else if later[j].key != "" {
        assert payments[i].tenant != later[j].tenant || payments[i].key != later[j].key;
      }
    }
  }

  lemma StepKeepsUniqueKeys(s: Store, step: Step)
    requires Inv(s) && UniqueKeys(s.payments)
    ensures UniqueKeys(After(s, step).payments)
  {
    StepEvolves(s, step);
    assert PaymentsEvolve(s.payments, After(s, step).payments);
    assert KeysResolve(s);
    hide Inv, Services.InitiatePayment, UniqueKeys, Evolves, PaymentsEvolve, NobodyUsed;
    if step.Initiating? && step.number < |s.numbers| {
      InitiationAddsOne(s, step.number, step.provider, step.amount, step.key, step.reply, step.now);
      if Newest(s.payments, Keyed(s.numbers[step.number].tenant, step.key)).None? {
        NoneFoundIsUnused(s.payments, s.numbers[step.number].tenant, step.key);
      }
    } else if !step.Initiating? {
      OnlyInitiationsAddPayments(s, step);
      hide Perform;
    }
    GrownKeysStayUnique(s.payments, After(s, step).payments);
  }

  lemma {:induction false} FreshValueIsFresh(numbers: seq<ControlNumber>, candidates: seq<string>)
    ensures var value := FreshValue(numbers, candidates);
            value.Some? ==> Newest(numbers, NumberValued(value.value)).None?
  {
    if |candidates| > 0 {
      FreshValueIsFresh(numbers, candidates[1..]);
    }
  }

  lemma NewNumberIsUnique(s: Store, tenant: TenantId, owner: Owner, candidates: seq<string>, expiresAt: Option<Time>)
    requires UniqueNumbers(s.numbers)
    ensures var r := GetOrCreateNumber(s, tenant, owner, candidates, expiresAt);
            r.Ok? ==> UniqueNumbers(r.value.0.numbers) && r.value.0.bills == s.bills
  {
    FreshValueIsFresh(s.numbers, Drawn(candidates, MAX_GENERATION_ATTEMPTS));
    var r := GetOrCreateNumber(s, tenant, owner, candidates, expiresAt);
    if r.Ok? && r.value.2 {
      var n, numbers := |s.numbers|, r.value.0.numbers;
      forall i | 0 <= i < n
        ensures numbers[i].value != numbers[n].value && !Reusable(owner)(numbers[i])
      {
        assert !NumberValued(numbers[n].value)(s.numbers[i]);
      }
    }
  }

  lemma {:induction false} FreshBillNumberIsFresh(bills: seq<Bill>, tenant: TenantId, candidates: seq<string>)
    ensures var billNumber := FreshBillNumber(bills, tenant, candidates);
            billNumber.Some? ==> Newest(bills, BillNumbered(tenant, billNumber.value)).None?
  {
    if |candidates| > 0 {
      FreshBillNumberIsFresh(bills, tenant, candidates[1..]);
    }
  }

  lemma NewBillIsUnique(s: Store, tenant: TenantId, lines: seq<int>, reference: string, candidates: seq<string>)
    requires UniqueBills(s.bills)
    ensures var r := IssueBill(s, tenant, lines, reference, candidates);
            r.Ok? ==> UniqueBills(r.value.0.bills) && r.value.0.numbers == s.numbers
  {
    FreshBillNumberIsFresh(s.bills, tenant, Drawn(candidates, MAX_BILL_NUMBER_ATTEMPTS));
    var r := IssueBill(s, tenant, lines, reference, candidates);
    if r.Ok? && r.value.2 {
      var n, bills := |s.bills|, r.value.0.bills;
      forall i | 0 <= i < n && bills[i].tenant == tenant
        ensures bills[i].billNumber != bills[n].billNumber && (reference != "" ==> bills[i].reference != reference)
      {
        assert !BillNumbered(tenant, bills[n].billNumber)(s.bills[i]);
        assert reference != "" ==> !BillReferenced(tenant, reference)(s.bills[i]);
      }
    }
  }

  lemma CatalogueStaysUnique(s: Store, s': Store)
    requires SameCatalogue(s, s') && UniqueNumbers(s.numbers) && UniqueBills(s.bills)
    ensures UniqueNumbers(s'.numbers) && UniqueBills(s'.bills)
  {
  }

  lemma OtherStepKeepsUnique(s: Store, step: Step)
    requires KeysResolve(s) && UniqueNumbers(s.numbers) && UniqueBills(s.bills) && !MovesPayments(step)
    ensures Perform(s, step).Ok? ==>
              UniqueNumbers(Perform(s, step).value.numbers) && UniqueBills(Perform(s, step).value.bills)
  {
    if step.IssuingBill? {
      NewBillIsUnique(s, step.tenant, step.lines, step.reference, step.candidates);
    } else if step.RequestingNumber? {
      NewNumberIsUnique(s, step.tenant, step.owner, step.candidates, step.expiresAt);
    }
  }

  lemma StepKeepsUnique(s: Store, step: Step)
    requires Inv(s) && Unique(s)
    ensures Unique(After(s, step))
  {
    StepKeepsUniqueKeys(s, step);
    assert KeysResolve(s);
    if MovesPayments(step) {
      MoneyStepKeepsCatalogue(s, step);
      hide Inv, Perform;
      if Perform(s, step).Ok? {
        CatalogueStaysUnique(s, Perform(s, step).value);
      }
    } else {
      hide Inv, Perform;
      OtherStepKeepsUnique(s, step);
    }
  }

  lemma {:induction false} RunKeepsUnique(s: Store, steps: seq<Step>)
    requires Inv(s) && Unique(s)
    ensures Unique(Run(s, steps))
    decreases |steps|
  {
    hide Inv, Unique, After;
    if |steps| > 0 {
      StepKeepsUnique(s, steps[0]);
      RunKeepsUnique(After(s, steps[0]), steps[1..]);
    }
  }

  /** From the empty platform, whatever is requested: no key, number, value, bill number or reference is used twice. */
  lemma EveryRunIsUnique(steps: seq<Step>)
    ensures Inv(EMPTY_STORE) && Unique(Run(EMPTY_STORE, steps))
  {
    EmptyStoreIsSound();
    RunKeepsUnique(EMPTY_STORE, steps);
  }

  // ---------------------------------------------------------------- retries, however late

  /** An initiation retried with its key finds its payment and changes nothing, whatever the provider would say. */
  lemma RetryFindsThePayment(
    s: Store, i: nat, steps: seq<Step>,
    number: nat, provider: ProviderId, amount: PositiveCents, reply: Reply, now: Time)
    requires Inv(s) && Unique(s) && i < |s.payments| && s.payments[i].key != ""
    ensures var s' := Run(s, steps);
            number < |s'.numbers| && s'.numbers[number].tenant == s.payments[i].tenant ==>
              InitiatePayment(s', number, provider, amount, s.payments[i].key, reply, now) == Ok((s', i))
  {
    var s' := Run(s, steps);
    RunEvolves(s, steps);
    RunKeepsUnique(s, steps);
    var p := s.payments[i];
    assert PaymentEvolves(p, s'.payments[i]);
    assert Keyed(p.tenant, p.key)(s'.payments[i]);
    var found := Newest(s'.payments, Keyed(p.tenant, p.key));
    assert found == Some(i);
  }

  lemma ServingNumberIsFound(
    s: Store, n: nat, tenant: TenantId, candidates: seq<string>, expiresAt: Option<Time>)
    requires UniqueNumbers(s.numbers) && n < |s.numbers|
    requires s.numbers[n].owner.ForBill? || s.numbers[n].status == NumberActive
    ensures GetOrCreateNumber(s, tenant, s.numbers[n].owner, candidates, expiresAt) ==
            Ok((RecordEvent(s, ZeroEvent(s.numbers[n].tenant, ControlNumberReused, OfNumber(n))), n, false))
  {
    var owner := s.numbers[n].owner;
    assert Reusable(owner)(s.numbers[n]);
    assert Newest(s.numbers, Reusable(owner)) == Some(n);
  }

  /** A request for a number finds the bill's number for good, and the account's as long as it is active. */
  lemma RetryFindsTheNumber(
    s: Store, n: nat, steps: seq<Step>, tenant: TenantId, candidates: seq<string>, expiresAt: Option<Time>)
    requires Inv(s) && Unique(s) && n < |s.numbers|
    ensures var s' := Run(s, steps);
            && n < |s'.numbers| && s'.numbers[n].owner == s.numbers[n].owner
            && (s.numbers[n].owner.ForBill? || s'.numbers[n].status == NumberActive ==>
                  GetOrCreateNumber(s', tenant, s.numbers[n].owner, candidates, expiresAt) ==
                  Ok((RecordEvent(s', ZeroEvent(s.numbers[n].tenant, ControlNumberReused, OfNumber(n))), n, false)))
  {
    var s' := Run(s, steps);
    RunEvolves(s, steps);
    RunKeepsUnique(s, steps);
    assert s'.numbers[n] == s.numbers[n].(status := s'.numbers[n].status);
    hide Inv, Run, Evolves, UniqueNumbers, Services.GetOrCreateNumber;
    if s.numbers[n].owner.ForBill? || s'.numbers[n].status == NumberActive {
      ServingNumberIsFound(s', n, tenant, candidates, expiresAt);
    }
  }

  /** Once cancelled or expired, an account's number is never handed out again, whatever follows. */
  lemma RetiredNumberIsNotReused(
    s: Store, n: nat, steps: seq<Step>, tenant: TenantId, candidates: seq<string>, expiresAt: Option<Time>)
    requires Inv(s) && n < |s.numbers| && s.numbers[n].owner.ForAccount? && s.numbers[n].status != NumberActive
    ensures var s' := Run(s, steps);
            var r := GetOrCreateNumber(s', tenant, s.numbers[n].owner, candidates, expiresAt);
            && n < |s'.numbers| && s'.numbers[n].status != NumberActive
            && (r.Ok? ==> r.value.1 != n)
  {
    RunKeepsRetired(s, n, steps);
    RunEvolves(s, steps);
  }

  lemma StepKeepsRetired(s: Store, n: nat, step: Step)
    requires Inv(s) && n < |s.numbers| && s.numbers[n].status != NumberActive
    ensures n < |After(s, step).numbers| && After(s, step).numbers[n].status != NumberActive
  {
    assert KeysResolve(s);
    if MovesPayments(step) {
      MoneyStepKeepsCatalogue(s, step);
      hide Inv, Perform;
    } else {
      hide Inv;
    }
  }

  lemma {:induction false} RunKeepsRetired(s: Store, n: nat, steps: seq<Step>)
    requires Inv(s) && n < |s.numbers| && s.numbers[n].status != NumberActive
    ensures n < |Run(s, steps).numbers| && Run(s, steps).numbers[n].status != NumberActive
    decreases |steps|
  {
    hide Inv, After;
    if |steps| > 0 {
      StepKeepsRetired(s, n, steps[0]);
      RunKeepsRetired(After(s, steps[0]), n, steps[1..]);
    }
  }

  /** Expiring leaves no overdue number active, and no other number touched. */
  lemma ExpiringIsComplete(s: Store, only: Option<TenantId>, now: Time)
    ensures var s' := ExpireOverdue(s, only, now);
            && s' == s.(numbers := s'.numbers) && |s'.numbers| == |s.numbers|
            && (forall n :: 0 <= n < |s.numbers| ==>
                  && !Due(s'.numbers[n], only, now)
                  && (s'.numbers[n] != s.numbers[n] ==>
                        Due(s.numbers[n], only, now) && s'.numbers[n].status == NumberExpired))
            && ExpireOverdue(s', only, now) == s'
  {
    var s' := ExpireOverdue(s, only, now);
    assert ExpireOverdue(s', only, now).numbers == s'.numbers;
  }

  /** A bill retried under its external reference is found and left as it is, lines and all. */
  lemma RetryFindsTheBill(s: Store, b: nat, steps: seq<Step>, lines: seq<int>, candidates: seq<string>)
    requires Inv(s) && Unique(s) && b < |s.bills| && s.bills[b].reference != ""
    ensures var s' := Run(s, steps);
            IssueBill(s', s.bills[b].tenant, lines, s.bills[b].reference, candidates) == Ok((s', b, false))
  {
    var s' := Run(s, steps);
    RunEvolves(s, steps);
    RunKeepsUnique(s, steps);
    var bill := s.bills[b];
    assert s'.bills[b] == bill.(status := s'.bills[b].status);
    assert BillReferenced(bill.tenant, bill.reference)(s'.bills[b]);
    assert Newest(s'.bills, BillReferenced(bill.tenant, bill.reference)) == Some(b);
  }
}
