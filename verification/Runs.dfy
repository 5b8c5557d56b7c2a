/**
  Requests as steps of one protocol, and what every run of them keeps. A request
  that raises is rolled back, so it leaves the store as it found it.
*/
module Runs {
  import opened Sums
  import opened Sweeps
  import opened Tables
  import opened Services
  import opened Invariants
  import opened Preservation
  import opened MoneyMoves

  datatype Step =
    | IssuingBill(tenant: TenantId, lines: seq<int>, reference: string, candidates: seq<string>)
    | RequestingNumber(tenant: TenantId, owner: Owner, candidates: seq<string>, expiresAt: Option<Time>)
    | CancellingNumber(number: nat)
    | Expiring(only: Option<TenantId>, now: Time)
    | CancellingBill(bill: nat)
    | ChangingPolicy(tenant: TenantId, policy: Policy)
    | Initiating(number: nat, provider: ProviderId, amount: PositiveCents, key: string, reply: Reply, now: Time)
    | Querying(payment: nat, reply: Reply, now: Time)
    | CallingBack(provider: ProviderId, delivery: Delivery, now: Time)
    | Refunding(payment: nat, reply: Reply, now: Time)
    | Reversing(payment: nat, reply: Reply, now: Time)
    | Settling(tenant: TenantId, provider: ProviderId, start: Time, end: Time)
    | CompletingBatch(batch: nat, externalReference: string)
    | Reconciling(tenant: TenantId, ask: nat -> Reply, check: string -> Reply, now: Time)

  /** The owner that a control-number request names exists in the requesting tenant. */
  predicate OwnerFound(s: Store, tenant: TenantId, owner: Owner) {
    owner.ForBill? ==> owner.bill < |s.bills| && s.bills[owner.bill].tenant == tenant
  }

  /** One request against the store; an object that is not there is a 404. */
  function Perform(s: Store, step: Step): Result<Store>
    requires KeysResolve(s)
  {
    match step
    case IssuingBill(tenant, lines, reference, candidates) =>
      StoreOf(IssueBill(s, tenant, lines, reference, candidates))
    case RequestingNumber(tenant, owner, candidates, expiresAt) =>
      if OwnerFound(s, tenant, owner) then StoreOf(GetOrCreateNumber(s, tenant, owner, candidates, expiresAt))
      else Raised(NotFound)
    case CancellingNumber(number) =>
      if number < |s.numbers| then Ok(CancelNumber(s, number)) else Raised(NotFound)
    case Expiring(only, now) => Ok(ExpireOverdue(s, only, now))
    case CancellingBill(bill) => if bill < |s.bills| then CancelBill(s, bill) else Raised(NotFound)
    case ChangingPolicy(tenant, policy) => Ok(s.(policies := s.policies[tenant := policy]))
    case Initiating(number, provider, amount, key, reply, now) =>
      if number < |s.numbers| then
        match InitiatePayment(s, number, provider, amount, key, reply, now)
        case Ok((s1, _)) => Ok(s1)
        case Raised(error) => Raised(error)
      else Raised(NotFound)
    case Querying(payment, reply, now) =>
      if payment < |s.payments| then QueryPayment(s, payment, reply, now) else Raised(NotFound)
    case CallingBack(provider, delivery, now) => ProcessCallback(s, provider, delivery, now)
    case Refunding(payment, reply, now) =>
      if payment < |s.payments| then RefundPayment(s, payment, reply, now) else Raised(NotFound)
    case Reversing(payment, reply, now) =>
      if payment < |s.payments| then ReversePayment(s, payment, reply, now) else Raised(NotFound)
    case Settling(tenant, provider, start, end) => Ok(GenerateBatch(s, tenant, provider, start, end))
    case CompletingBatch(batch, reference) =>
      if batch < |s.batches| then Ok(CompleteBatch(s, batch, reference)) else Raised(NotFound)
    case Reconciling(tenant, ask, check, now) => Reconcile(s, tenant, ask, check, now)
  }

  function StoreOf(r: Result<(Store, nat, bool)>): Result<Store> {
    match r
    case Ok((s, _, _)) => Ok(s)
    case Raised(error) => Raised(error)
  }

  // ---------------------------------------------------------------- every service keeps the invariant

  lemma MoveKeepsInv(s: Store, i: nat, status: PaymentStatus, now: Time)
    requires Inv(s) && i < |s.payments|
    requires !EverSuccessful(s.payments[i].status) && !EverSuccessful(status)
    ensures Inv(SetStatus(s, i, status, now))
  {
    QuietKeepsInv(s, i, SetStatus(s, i, status, now).payments[i]);
  }

  lemma ReferenceKeepsInv(s: Store, i: nat, reference: string)
    requires Inv(s) && i < |s.payments|
    ensures Inv(SetReference(s, i, reference))
  {
    QuietKeepsInv(s, i, s.payments[i].(reference := reference));
  }

  /** A provider outcome keeps the invariant, and it is refused exactly when the transition is illegal. */
  lemma OutcomeKeepsInv(s: Store, i: nat, outcome: ProviderOutcome, now: Time)
    requires Inv(s) && i < |s.payments|
    ensures var r := ApplyOutcome(s, i, outcome, now);
            && (r.Raised? <==> Refuses(s.payments[i].status, outcome))
            && (r.Ok? ==> Inv(r.value))
  {
    var status := s.payments[i].status;
    if outcome == OutcomeUnknown {
      if status in {Initiated, Pending} {
        MoveKeepsInv(s, i, Unknown, now);
      }
    } else if status != TargetOf(outcome) && MayMove(status, TargetOf(outcome)) {
      if outcome == OutcomeSuccessful {
        SucceedKeepsInv(s, i, now);
      } else if outcome == OutcomeFailed {
        FailKeepsInv(s, i, now);
      } else {
        MoveKeepsInv(s, i, Pending, now);
      }
    }
  }

  /** The status neither equals nor may move to what the outcome calls for. */
  predicate Refuses(status: PaymentStatus, outcome: ProviderOutcome) {
    && outcome != OutcomeUnknown
    && status != TargetOf(outcome)
    && !MayMove(status, TargetOf(outcome))
  }

  lemma QueryKeepsInv(s: Store, i: nat, reply: Reply, now: Time)
    requires Inv(s) && i < |s.payments|
    ensures var r := QueryPayment(s, i, reply, now);
            && (r.Raised? <==> !reply.Answered? || Refuses(s.payments[i].status, reply.outcome))
            && (r.Ok? ==> Inv(r.value))
  {
    if reply.Answered? {
      ReferenceKeepsInv(s, i, reply.reference);
      OutcomeKeepsInv(LearnReference(s, i, reply.reference), i, reply.outcome, now);
    }
  }

  /** INITIATED accepts every outcome, a lost answer and an error. */
  lemma ReplyIsTaken(s: Store, i: nat, reply: Reply, now: Time)
    requires Inv(s) && i < |s.payments| && s.payments[i].status == Initiated
    ensures var r := TakeReply(s, i, reply, now);
            r.Ok? && Inv(r.value)
  {
    match reply
    case TimedOut =>
      MoveKeepsInv(s, i, Unknown, now);
    case Refused =>
      FailKeepsInv(s, i, now);
    case Answered(outcome, reference) =>
      ReferenceKeepsInv(s, i, reference);
      OutcomeKeepsInv(SetReference(s, i, reference), i, outcome, now);
  }

  /** A charge that reached the provider is never rolled back: INITIATED accepts every outcome. */
  lemma InitiationNeverRaises(
    s: Store, number: nat, provider: ProviderId, amount: PositiveCents, key: string, reply: Reply, now: Time)
    requires Inv(s) && number < |s.numbers|
    ensures var r := InitiatePayment(s, number, provider, amount, key, reply, now);
            r.Ok? && Inv(r.value.0)
  {
    hide Inv, KeysResolve, TakeReply;
    AddPaymentKeepsInv(s, number, provider, amount, key);
    ReplyIsTaken(AddPayment(s, number, provider, amount, key), |s.payments|, reply, now);
  }

  lemma RepeatKeepsInv(s: Store, provider: ProviderId, original: CallbackEvent)
    requires Inv(s)
    ensures Inv(DuplicateDelivery(s, provider, original))
  {
    var s1 := LogCallback(s, CallbackEvent(provider, "", Duplicate, original.payment));
    LogKeepsInv(s, s1);
    if original.payment.Some? && original.payment.value < |s.payments| {
      var i := original.payment.value;
      ZeroEventKeepsInv(s1, s.payments[i].tenant, PaymentDuplicate, OfPayment(i));
    }
  }

  lemma FilingKeepsInv(s: Store, c: CallbackEvent)
    requires Inv(s) && c.outcome != Duplicate
    requires c.eventId != "" ==> Newest(s.callbacks, Delivered(c.provider, c.eventId)).None?
    ensures Inv(LogCallback(s, c))
  {
    forall k | 0 <= k < |s.callbacks| && c.eventId != ""
      ensures s.callbacks[k].eventId != c.eventId || s.callbacks[k].provider != c.provider
    {
      assert !Delivered(c.provider, c.eventId)(s.callbacks[k]);
    }
    LogKeepsInv(s, LogCallback(s, c));
  }

  lemma FirstDeliveryKeepsInv(
    s: Store, provider: ProviderId, eventId: string, reference: string, outcome: ProviderOutcome, now: Time)
    requires Inv(s) && (eventId != "" ==> Newest(s.callbacks, Delivered(provider, eventId)).None?)
    ensures var r := FirstDelivery(s, provider, eventId, reference, outcome, now);
            r.Ok? ==> Inv(r.value)
  {
    hide Inv, KeysResolve, ApplyOutcome;
    match Newest(s.payments, PaymentReferenced(reference))
    case None =>
      FilingKeepsInv(s, CallbackEvent(provider, eventId, Unmatched, None));
    case Some(i) =>
      var c := CallbackEvent(provider, eventId, Processed, Some(i));
      FilingKeepsInv(s, c);
      OutcomeKeepsInv(LogCallback(s, c), i, outcome, now);
  }

  lemma CallbackKeepsInv(s: Store, provider: ProviderId, delivery: Delivery, now: Time)
    requires Inv(s)
    ensures var r := ProcessCallback(s, provider, delivery, now);
            r.Ok? ==> Inv(r.value)
  {
    hide Inv, KeysResolve, FirstDelivery, DuplicateDelivery;
    if delivery.Forged? {
      FilingKeepsInv(s, CallbackEvent(provider, "", InvalidSignature, None));
    } else if delivery.Parsed? {
      var original := Newest(s.callbacks, Delivered(provider, delivery.eventId));
      if delivery.eventId != "" && original.Some? {
        RepeatKeepsInv(s, provider, s.callbacks[original.value]);
      } else {
        FirstDeliveryKeepsInv(s, provider, delivery.eventId, delivery.reference, delivery.outcome, now);
      }
    }
  }

  /** What a control-number request adds: number, fee entry and linked CREATED event, or a zero-fee event alone. */
  predicate NumberRows(s: Store, s': Store, n: nat, created: bool) {
    && s' == s.(numbers := s'.numbers, ledger := s'.ledger, events := s'.events)
    && n < |s'.numbers|
    && var tenant := s'.numbers[n].tenant;
       if created
       then
         && n == |s.numbers| && s'.numbers == s.numbers + [s'.numbers[n]]
         && s'.ledger == s.ledger + [LedgerEntry(tenant, PlatformControlNumberFee, Platform,
                                                 CONTROL_NUMBER_CREATION_FEE, OfNumber(n), None)]
         && s'.events == s.events + [RevenueEvent(tenant, ControlNumberCreated, CONTROL_NUMBER_CREATION_FEE,
                                                  OfNumber(n), Some(|s.ledger|), None)]
       else
         && s'.numbers == s.numbers && s'.ledger == s.ledger
         && s'.events == s.events + [ZeroEvent(tenant, ControlNumberReused, OfNumber(n))]
  }

  lemma NumberKeepsInv(
    s: Store, tenant: TenantId, owner: Owner, candidates: seq<string>, expiresAt: Option<Time>)
    requires Inv(s) && OwnerFound(s, tenant, owner)
    ensures var r := GetOrCreateNumber(s, tenant, owner, candidates, expiresAt);
            r.Ok? ==> Inv(r.value.0) && NumberRows(s, r.value.0, r.value.1, r.value.2)
  {
    var existing := Newest(s.numbers, Reusable(owner));
    if existing.Some? {
      ZeroEventKeepsInv(s, s.numbers[existing.value].tenant, ControlNumberReused, OfNumber(existing.value));
    } else {
      var generated := Drawn(candidates, MAX_GENERATION_ATTEMPTS);
      var value := FreshValue(s.numbers, generated);
      if value.Some? {
        CreateNumberKeepsInv(s, ControlNumber(tenant, value.value, owner, NumberActive, expiresAt));
      }
    }
  }

  lemma VisitKeepsInv(s: Store, run: nat, tally: ReconRun, ask: nat -> Reply, i: nat, now: Time)
    requires Inv(s) && i < |s.payments|
    ensures var r := Visit(s, run, tally, ask, i, now);
            r.Ok? ==> Inv(r.value.0)
  {
    if IsUnknown(s.payments[i], tally.tenant) {
      QueryKeepsInv(s, i, ask(i), now);
      var r := QueryPayment(s, i, ask(i), now);
      if r.Ok? {
        LogKeepsInv(r.value, Judge(r.value, run, tally, i).0);
      }
    }
  }

  lemma ResolvingKeepsInv(s: Store, run: nat, tally: ReconRun, ask: nat -> Reply, now: Time)
    requires Inv(s)
    ensures var r := Sweep(Visiting(run, ask, now), (s, tally), |s.payments|);
            r.Ok? ==> Inv(r.value.0)
  {
    var good := (pass: Pass, i: nat) => Inv(pass.0);
    forall pass: Pass, i: nat | good(pass, i + 1) && Visiting(run, ask, now)(pass, i).Ok?
      ensures good(Visiting(run, ask, now)(pass, i).value, i)
    {
      VisitKeepsInv(pass.0, run, pass.1, ask, i, now);
    }
    SweepKeeps(Visiting(run, ask, now), good, (s, tally), |s.payments|);
  }

  /** The second pass appends exception rows and writes nothing else. */
  lemma ComparingOnlyReports(s: Store, run: nat, tally: ReconRun, check: string -> Reply)
    ensures var r := Sweep(Comparing(run, check), (s, tally), |s.payments|);
            r.Ok? ==> && r.value.0 == s.(exceptions := r.value.0.exceptions)
                      && s.exceptions <= r.value.0.exceptions
  {
    var good := (pass: Pass, i: nat) =>
      pass.0 == s.(exceptions := pass.0.exceptions) && s.exceptions <= pass.0.exceptions;
    SweepKeeps(Comparing(run, check), good, (s, tally), |s.payments|);
  }

  lemma ReconcileKeepsInv(s: Store, tenant: TenantId, ask: nat -> Reply, check: string -> Reply, now: Time)
    requires Inv(s)
    ensures var r := Reconcile(s, tenant, ask, check, now);
            r.Ok? ==> Inv(r.value)
  {
    var blank := ReconRun(tenant, 0, 0, 0, 0, false);
    var s0 := s.(runs := s.runs + [blank]);
    LogKeepsInv(s, s0);
    ResolvingKeepsInv(s0, |s.runs|, blank, ask, now);
    var r1 := Sweep(Visiting(|s.runs|, ask, now), (s0, blank), |s.payments|);
    if r1.Ok? {
      var (s1, tally1) := r1.value;
      ComparingOnlyReports(s1, |s.runs|, tally1, check);
      var r2 := Sweep(Comparing(|s.runs|, check), (s1, tally1), |s1.payments|);
      if r2.Ok? {
        LogKeepsInv(s1, r2.value.0.(runs := s.runs + [r2.value.1.(completed := true)]));
      }
    }
  }

  /** Requests that can move a payment's status. */
  predicate MovesPayments(step: Step) {
    || step.Initiating? || step.Querying? || step.CallingBack? || step.Refunding? || step.Reversing?
    || step.Reconciling?
  }

  lemma PaymentStepKeepsInv(s: Store, step: Step)
    requires Inv(s) && MovesPayments(step)
    ensures Perform(s, step).Ok? ==> Inv(Perform(s, step).value)
  {
    hide Inv, QueryPayment, ProcessCallback, Reconcile, Compensate, SetStatus;
    match step
    case Initiating(number, provider, amount, key, reply, now) =>
      if number < |s.numbers| {
        InitiationNeverRaises(s, number, provider, amount, key, reply, now);
      }
    case Querying(payment, reply, now) =>
      if payment < |s.payments| {
        QueryKeepsInv(s, payment, reply, now);
      }
    case CallingBack(provider, delivery, now) =>
      CallbackKeepsInv(s, provider, delivery, now);
    case Refunding(payment, reply, now) =>
      if payment < |s.payments| && s.payments[payment].status == Successful {
        TakeBackKeepsInv(s, payment, Refunded, now);
      }
    case Reversing(payment, reply, now) =>
      if payment < |s.payments| && s.payments[payment].status == Successful {
        TakeBackKeepsInv(s, payment, Reversed, now);
      }
    case Reconciling(tenant, ask, check, now) =>
      ReconcileKeepsInv(s, tenant, ask, check, now);
  }

  lemma BillKeepsInv(s: Store, tenant: TenantId, lines: seq<int>, reference: string, candidates: seq<string>)
    requires Inv(s)
    ensures var r := IssueBill(s, tenant, lines, reference, candidates);
            r.Ok? ==>
              && Inv(r.value.0)
              && var (s', b, created) := r.value;
                 && b < |s'.bills| && s'.bills[b].tenant == tenant && s'.bills[b].reference == reference
                 && if created then b == |s.bills| && |s'.bills| == b + 1 else s' == s
  {
    var r := IssueBill(s, tenant, lines, reference, candidates);
    if r.Ok? && r.value.2 {
      AddBillKeepsInv(s, r.value.0.bills[|s.bills|]);
    }
  }

  lemma OtherStepKeepsInv(s: Store, step: Step)
    requires Inv(s) && !MovesPayments(step)
    ensures Perform(s, step).Ok? ==> Inv(Perform(s, step).value)
  {
    assert CallbackLog(s.callbacks);
    hide Inv, KeysResolve, CallbackLog, IssueBill, GetOrCreateNumber, GenerateBatch;
    match step
    case IssuingBill(tenant, lines, reference, candidates) =>
      BillKeepsInv(s, tenant, lines, reference, candidates);
    case RequestingNumber(tenant, owner, candidates, expiresAt) =>
      if OwnerFound(s, tenant, owner) {
        NumberKeepsInv(s, tenant, owner, candidates, expiresAt);
      }
    case CancellingNumber(number) =>
      if number < |s.numbers| {
        NumberStatusKeepsInv(s, CancelNumber(s, number).numbers);
      }
    case Expiring(only, now) =>
      NumberStatusKeepsInv(s, ExpireOverdue(s, only, now).numbers);
    case CancellingBill(bill) =>
      if bill < |s.bills| {
        CancelBillKeepsInv(s, bill);
      }
    case ChangingPolicy(tenant, policy) =>
      LogKeepsInv(s, s.(policies := s.policies[tenant := policy]));
    case Settling(tenant, provider, start, end) =>
      BatchKeepsInv(s, tenant, provider, start, end);
    case CompletingBatch(batch, reference) =>
      if batch < |s.batches| {
        CompleteBatchKeepsInv(s, batch, reference);
      }
  }

  lemma StepKeepsInv(s: Store, step: Step)
    requires Inv(s)
    ensures Perform(s, step).Ok? ==> Inv(Perform(s, step).value)
  {
    hide Perform, Inv;
    if MovesPayments(step) {
      PaymentStepKeepsInv(s, step);
    } else {
      OtherStepKeepsInv(s, step);
    }
  }

  // ---------------------------------------------------------------- whole runs

  lemma EmptyStoreIsSound()
    ensures Inv(EMPTY_STORE)
  {
    forall t: TenantId ensures TenantBooks(EMPTY_STORE, t) {
    }
  }

  /** The store after one request, whether it completed or was rolled back. */
  ghost function After(s: Store, step: Step): (s': Store)
    requires Inv(s)
    ensures Inv(s')
  {
    StepKeepsInv(s, step);
    if Perform(s, step).Ok? then Perform(s, step).value else s
  }

  ghost function Run(s: Store, steps: seq<Step>): (s': Store)
    requires Inv(s)
    ensures Inv(s')
    decreases |steps|
  {
    if |steps| == 0 then s else Run(After(s, steps[0]), steps[1..])
  }

  lemma {:induction false} RunOneMore(s: Store, steps: seq<Step>, step: Step)
    requires Inv(s)
    ensures Run(s, steps + [step]) == After(Run(s, steps), step)
    decreases |steps|
  {
    hide Inv, After;
    var more := steps + [step];
    if |steps| == 0 {
      assert more[0] == step && more[1..] == [];
      assert Run(s, more) == Run(After(s, step), []);
    } else {
      assert more[0] == steps[0] && more[1..] == steps[1..] + [step];
      RunOneMore(After(s, steps[0]), steps[1..], step);
    }
  }
}
