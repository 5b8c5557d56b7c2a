/**
  Nothing recorded is ever taken back: money tables only grow, a payment keeps
  its terms, its provider reference and its batch, and its status only moves
  forward. Over whole runs, not just one request.
*/
module History {
  import opened Sums
  import opened Sweeps
  import opened Tables
  import opened Services
  import opened Invariants
  import opened MoneyMoves
  import opened Runs

  /** The statuses that some chain of legal moves leads to. */
  predicate Reaches(from: PaymentStatus, to: PaymentStatus) {
    || from == to
    || match from
       case Initiated => true
       case Pending => to != Initiated
       case Unknown => to in {Successful, Failed, Reversed, Refunded}
       case Successful => to in {Reversed, Refunded}
       case _ => false
  }

  lemma ReachesIsClosed(a: PaymentStatus, b: PaymentStatus, c: PaymentStatus)
    requires Reaches(a, b)
    ensures Reaches(b, c) || MayMove(b, c) ==> Reaches(a, c)
  {
  }

  /** A transition that is illegal for a payment stays illegal whatever happens to the payment. */
  lemma RefusalIsForever(from: PaymentStatus, to: PaymentStatus, outcome: ProviderOutcome)
    requires Reaches(from, to) && Refuses(from, outcome)
    ensures Refuses(to, outcome)
  {
  }

  predicate PaymentEvolves(p: Payment, q: Payment) {
    && q == p.(status := q.status, completedAt := q.completedAt, reference := q.reference, batch := q.batch)
    && Reaches(p.status, q.status)
    && (p.reference != "" ==> q.reference == p.reference)
    && (p.batch.Some? ==> q.batch == p.batch)
  }

  predicate PaymentsEvolve(payments: seq<Payment>, later: seq<Payment>) {
    && |payments| <= |later|
    && forall i :: 0 <= i < |payments| ==> PaymentEvolves(payments[i], later[i])
  }

  predicate BillsEvolve(bills: seq<Bill>, later: seq<Bill>) {
    && |bills| <= |later|
    && forall b :: 0 <= b < |bills| ==> later[b] == bills[b].(status := later[b].status)
  }

  predicate NumbersEvolve(numbers: seq<ControlNumber>, later: seq<ControlNumber>) {
    && |numbers| <= |later|
    && forall n :: 0 <= n < |numbers| ==> later[n] == numbers[n].(status := later[n].status)
  }

  predicate BatchesEvolve(batches: seq<Batch>, later: seq<Batch>) {
    && |batches| <= |later|
    && forall k :: 0 <= k < |batches| ==> later[k] == batches[k].(completed := later[k].completed)
  }

  predicate Evolves(s: Store, s': Store) {
    && PaymentsEvolve(s.payments, s'.payments)
    && BillsEvolve(s.bills, s'.bills)
    && NumbersEvolve(s.numbers, s'.numbers)
    && BatchesEvolve(s.batches, s'.batches)
    && s.ledger <= s'.ledger
    && s.events <= s'.events
    && s.allocations <= s'.allocations
    && s.receipts <= s'.receipts
    && s.callbacks <= s'.callbacks
    && s.exceptions <= s'.exceptions
    && |s.runs| <= |s'.runs|
  }

  lemma EvolvesTransitive(s: Store, s1: Store, s2: Store)
    requires Evolves(s, s1) && Evolves(s1, s2)
    ensures Evolves(s, s2)
  {
    forall i | 0 <= i < |s.payments| ensures PaymentEvolves(s.payments[i], s2.payments[i]) {
      assert PaymentEvolves(s.payments[i], s1.payments[i]);
      assert PaymentEvolves(s1.payments[i], s2.payments[i]);
      ReachesIsClosed(s.payments[i].status, s1.payments[i].status, s2.payments[i].status);
    }
  }

  lemma MoveEvolves(s: Store, i: nat, status: PaymentStatus, now: Time)
    requires i < |s.payments| && MayMove(s.payments[i].status, status)
    ensures Evolves(s, SetStatus(s, i, status, now))
  {
  }

  lemma FailEvolves(s: Store, i: nat, now: Time)
    requires i < |s.payments| && MayMove(s.payments[i].status, Failed)
    ensures Evolves(s, Fail(s, i, now))
  {
  }

  lemma SuccessEvolves(s: Store, s': Store, i: nat, now: Time)
    requires KeysResolve(s) && i < |s.payments| && MayMove(s.payments[i].status, Successful)
    requires SuccessRows(s, s', i, now)
    ensures Evolves(s, s')
  {
    assert s.ledger <= s'.ledger;
  }

  lemma OutcomeEvolves(s: Store, i: nat, outcome: ProviderOutcome, now: Time)
    requires Inv(s) && i < |s.payments|
    ensures var r := ApplyOutcome(s, i, outcome, now);
            r.Ok? ==> Evolves(s, r.value)
  {
    var status := s.payments[i].status;
    if outcome == OutcomeUnknown {
      if status in {Initiated, Pending} {
        MoveEvolves(s, i, Unknown, now);
      } else {
        EvolvesReflexive(s);
      }
    } else if status == TargetOf(outcome) {
      EvolvesReflexive(s);
    } else if MayMove(status, TargetOf(outcome)) {
      if outcome == OutcomeSuccessful {
        SucceedWrites(s, i, now);
        SuccessEvolves(s, Succeed(s, i, now).value, i, now);
      } else {
        MoveEvolves(s, i, TargetOf(outcome), now);
      }
    }
  }

  lemma EvolvesReflexive(s: Store)
    ensures Evolves(s, s)
  {
  }

  lemma LearningEvolves(s: Store, i: nat, reference: string)
    requires i < |s.payments|
    ensures Evolves(s, LearnReference(s, i, reference))
  {
  }

  lemma QueryEvolves(s: Store, i: nat, reply: Reply, now: Time)
    requires Inv(s) && i < |s.payments|
    ensures var r := QueryPayment(s, i, reply, now);
            r.Ok? ==> Evolves(s, r.value)
  {
    if reply.Answered? {
      var s1 := LearnReference(s, i, reply.reference);
      LearningEvolves(s, i, reply.reference);
      hide Inv, KeysResolve, Evolves, ApplyOutcome;
      ReferenceKeepsInv(s, i, reply.reference);
      OutcomeEvolves(s1, i, reply.outcome, now);
      var r := QueryPayment(s, i, reply, now);
      if r.Ok? {
        EvolvesTransitive(s, s1, r.value);
      }
    }
  }

  lemma AddPaymentEvolves(s: Store, number: nat, provider: ProviderId, amount: PositiveCents, key: string)
    requires number < |s.numbers|
    ensures Evolves(s, AddPayment(s, number, provider, amount, key))
  {
  }

  lemma AnswerEvolves(s: Store, i: nat, outcome: ProviderOutcome, reference: string, now: Time)
    requires Inv(s) && i < |s.payments| && s.payments[i].reference == ""
    ensures KeysResolve(SetReference(s, i, reference))
    ensures var r := ApplyOutcome(SetReference(s, i, reference), i, outcome, now);
            r.Ok? ==> Evolves(s, r.value)
  {
    var s1 := SetReference(s, i, reference);
    assert s1 == LearnReference(s, i, reference);
    LearningEvolves(s, i, reference);
    hide Inv, KeysResolve, Evolves, ApplyOutcome;
    ReferenceKeepsInv(s, i, reference);
    OutcomeEvolves(s1, i, outcome, now);
    var r := ApplyOutcome(s1, i, outcome, now);
    if r.Ok? {
      EvolvesTransitive(s, s1, r.value);
    }
  }

  lemma ReplyEvolves(s: Store, i: nat, reply: Reply, now: Time)
    requires Inv(s) && i < |s.payments| && s.payments[i].status == Initiated && s.payments[i].reference == ""
    ensures var r := TakeReply(s, i, reply, now);
            r.Ok? ==> Evolves(s, r.value)
  {
    match reply
    case TimedOut => MoveEvolves(s, i, Unknown, now);
    case Refused => FailEvolves(s, i, now);
    case Answered(outcome, reference) => AnswerEvolves(s, i, outcome, reference, now);
  }

  lemma InitiationEvolves(
    s: Store, number: nat, provider: ProviderId, amount: PositiveCents, key: string, reply: Reply, now: Time)
    requires Inv(s) && number < |s.numbers|
    ensures var r := InitiatePayment(s, number, provider, amount, key, reply, now);
            r.Ok? ==> Evolves(s, r.value.0)
  {
    hide Inv, KeysResolve, Evolves, TakeReply;
    EvolvesReflexive(s);
    var s1 := AddPayment(s, number, provider, amount, key);
    AddPaymentEvolves(s, number, provider, amount, key);
    Preservation.AddPaymentKeepsInv(s, number, provider, amount, key);
    ReplyEvolves(s1, |s.payments|, reply, now);
    var r := TakeReply(s1, |s.payments|, reply, now);
    if r.Ok? {
      EvolvesTransitive(s, s1, r.value);
    }
  }

  lemma FilingEvolves(s: Store, c: CallbackEvent)
    ensures Evolves(s, LogCallback(s, c))
  {
  }

  lemma FirstDeliveryEvolves(
    s: Store, provider: ProviderId, eventId: string, reference: string, outcome: ProviderOutcome, now: Time)
    requires Inv(s) && (eventId != "" ==> Newest(s.callbacks, Delivered(provider, eventId)).None?)
    ensures var r := FirstDelivery(s, provider, eventId, reference, outcome, now);
            r.Ok? ==> Evolves(s, r.value)
  {
    hide Inv, KeysResolve, Evolves, ApplyOutcome;
    var found := Newest(s.payments, PaymentReferenced(reference));
    FilingEvolves(s, CallbackEvent(provider, eventId, Unmatched, None));
    if found.Some? {
      var c := CallbackEvent(provider, eventId, Processed, found);
      FilingKeepsInv(s, c);
      FilingEvolves(s, c);
      OutcomeEvolves(LogCallback(s, c), found.value, outcome, now);
      var r := ApplyOutcome(LogCallback(s, c), found.value, outcome, now);
      if r.Ok? {
        EvolvesTransitive(s, LogCallback(s, c), r.value);
      }
    }
  }

  lemma RepeatEvolves(s: Store, provider: ProviderId, original: CallbackEvent)
    ensures Evolves(s, DuplicateDelivery(s, provider, original))
  {
  }

  lemma CallbackEvolves(s: Store, provider: ProviderId, delivery: Delivery, now: Time)
    requires Inv(s)
    ensures var r := ProcessCallback(s, provider, delivery, now);
            r.Ok? ==> Evolves(s, r.value)
  {
    hide Inv, KeysResolve, Evolves, FirstDelivery, DuplicateDelivery;
    FilingEvolves(s, CallbackEvent(provider, "", InvalidSignature, None));
    if delivery.Parsed? {
      var original := Newest(s.callbacks, Delivered(provider, delivery.eventId));
      if delivery.eventId != "" && original.Some? {
        RepeatEvolves(s, provider, s.callbacks[original.value]);
      } else {
        FirstDeliveryEvolves(s, provider, delivery.eventId, delivery.reference, delivery.outcome, now);
      }
    }
  }

  lemma VisitEvolves(s: Store, run: nat, tally: ReconRun, ask: nat -> Reply, i: nat, now: Time)
    requires Inv(s) && i < |s.payments|
    ensures var r := Visit(s, run, tally, ask, i, now);
            r.Ok? ==> Evolves(s, r.value.0) && r.value.0.runs == s.runs
  {
    if !IsUnknown(s.payments[i], tally.tenant) {
      EvolvesReflexive(s);
    } else {
      QueryEvolves(s, i, ask(i), now);
      QueryKeepsRuns(s, i, ask(i), now);
      var r := QueryPayment(s, i, ask(i), now);
      if r.Ok? {
        JudgeEvolves(s, r.value, run, tally, i);
      }
    }
  }

  lemma QueryKeepsRuns(s: Store, i: nat, reply: Reply, now: Time)
    requires KeysResolve(s) && i < |s.payments|
    ensures var r := QueryPayment(s, i, reply, now);
            r.Ok? ==> r.value.runs == s.runs
  {
    if reply.Answered? {
      OutcomeKeepsRuns(LearnReference(s, i, reply.reference), i, reply.outcome, now);
      hide KeysResolve, ApplyOutcome;
    }
  }

  lemma OutcomeKeepsRuns(s: Store, i: nat, outcome: ProviderOutcome, now: Time)
    requires KeysResolve(s) && i < |s.payments|
    ensures var r := ApplyOutcome(s, i, outcome, now);
            r.Ok? ==> r.value.runs == s.runs
  {
    hide KeysResolve, Newest, AmountPaid;
  }

  lemma JudgeEvolves(s: Store, s1: Store, run: nat, tally: ReconRun, i: nat)
    requires Evolves(s, s1) && i < |s1.payments|
    ensures var r := Judge(s1, run, tally, i);
            Evolves(s, r.0) && r.0.runs == s1.runs
  {
  }

  lemma ResolvingEvolves(s: Store, run: nat, tally: ReconRun, ask: nat -> Reply, now: Time)
    requires Inv(s)
    ensures var r := Sweep(Visiting(run, ask, now), (s, tally), |s.payments|);
            r.Ok? ==> Evolves(s, r.value.0) && r.value.0.runs == s.runs
  {
    var good := (pass: Pass, i: nat) => Inv(pass.0) && Evolves(s, pass.0) && pass.0.runs == s.runs;
    forall pass: Pass, i: nat | good(pass, i + 1) && Visiting(run, ask, now)(pass, i).Ok?
      ensures good(Visiting(run, ask, now)(pass, i).value, i)
    {
      VisitKeepsInv(pass.0, run, pass.1, ask, i, now);
      VisitEvolves(pass.0, run, pass.1, ask, i, now);
      EvolvesTransitive(s, pass.0, Visiting(run, ask, now)(pass, i).value.0);
    }
    EvolvesReflexive(s);
    SweepKeeps(Visiting(run, ask, now), good, (s, tally), |s.payments|);
  }

  lemma ReconcileEvolves(s: Store, tenant: TenantId, ask: nat -> Reply, check: string -> Reply, now: Time)
    requires Inv(s)
    ensures var r := Reconcile(s, tenant, ask, check, now);
            r.Ok? ==> Evolves(s, r.value)
  {
    var blank := ReconRun(tenant, 0, 0, 0, 0, false);
    var s0 := s.(runs := s.runs + [blank]);
    Preservation.LogKeepsInv(s, s0);
    ResolvingEvolves(s0, |s.runs|, blank, ask, now);
    var r1 := Sweep(Visiting(|s.runs|, ask, now), (s0, blank), |s.payments|);
    if r1.Ok? {
      ComparingOnlyReports(r1.value.0, |s.runs|, r1.value.1, check);
    }
  }

  lemma TakeBackEvolves(s: Store, i: nat, status: PaymentStatus, now: Time)
    requires Inv(s) && i < |s.payments| && s.payments[i].status == Successful && status in {Refunded, Reversed}
    ensures Evolves(s, TakeBack(s, i, status, now))
  {
    TakeBackWrites(s, i, status, now);
  }

  lemma PaymentStepEvolves(s: Store, step: Step)
    requires Inv(s) && MovesPayments(step)
    ensures Perform(s, step).Ok? ==> Evolves(s, Perform(s, step).value)
  {
    EvolvesReflexive(s);
    hide Inv, Evolves, Services.QueryPayment, Services.ProcessCallback, Services.Reconcile, Compensate, SetStatus;
    match step
    case Initiating(number, provider, amount, key, reply, now) =>
      if number < |s.numbers| {
        InitiationEvolves(s, number, provider, amount, key, reply, now);
      }
    case Querying(payment, reply, now) =>
      if payment < |s.payments| {
        QueryEvolves(s, payment, reply, now);
      }
    case CallingBack(provider, delivery, now) =>
      CallbackEvolves(s, provider, delivery, now);
    case Refunding(payment, reply, now) =>
      if payment < |s.payments| && s.payments[payment].status == Successful {
        TakeBackEvolves(s, payment, Refunded, now);
      }
    case Reversing(payment, reply, now) =>
      if payment < |s.payments| && s.payments[payment].status == Successful {
        TakeBackEvolves(s, payment, Reversed, now);
      }
    case Reconciling(tenant, ask, check, now) =>
      ReconcileEvolves(s, tenant, ask, check, now);
  }

  lemma NumberStepEvolves(
    s: Store, tenant: TenantId, owner: Owner, candidates: seq<string>, expiresAt: Option<Time>)
    ensures var r := GetOrCreateNumber(s, tenant, owner, candidates, expiresAt);
            r.Ok? ==> Evolves(s, r.value.0)
  {
  }

  lemma BillStepEvolves(s: Store, tenant: TenantId, lines: seq<int>, reference: string, candidates: seq<string>)
    ensures var r := IssueBill(s, tenant, lines, reference, candidates);
            r.Ok? ==> Evolves(s, r.value.0)
  {
  }

  lemma BatchStepEvolves(s: Store, tenant: TenantId, provider: ProviderId, start: Time, end: Time)
    ensures Evolves(s, GenerateBatch(s, tenant, provider, start, end))
  {
    hide NewBatch;
  }

  lemma ExpiryEvolves(s: Store, only: Option<TenantId>, now: Time)
    ensures Evolves(s, ExpireOverdue(s, only, now))
  {
  }

  lemma OtherStepEvolves(s: Store, step: Step)
    requires KeysResolve(s) && !MovesPayments(step)
    ensures Perform(s, step).Ok? ==> Evolves(s, Perform(s, step).value)
  {
    hide KeysResolve, IssueBill, GetOrCreateNumber, GenerateBatch, ExpireOverdue;
    if step.IssuingBill? {
      BillStepEvolves(s, step.tenant, step.lines, step.reference, step.candidates);
      hide Evolves;
    } else if step.RequestingNumber? {
      NumberStepEvolves(s, step.tenant, step.owner, step.candidates, step.expiresAt);
      hide Evolves;
    } else if step.Expiring? {
      ExpiryEvolves(s, step.only, step.now);
      hide Evolves;
    } else if step.Settling? {
      BatchStepEvolves(s, step.tenant, step.provider, step.start, step.end);
      hide Evolves;
    }
  }

  lemma StepEvolves(s: Store, step: Step)
    requires Inv(s)
    ensures Evolves(s, After(s, step))
  {
    EvolvesReflexive(s);
    if MovesPayments(step) {
      PaymentStepEvolves(s, step);
    } else {
      OtherStepEvolves(s, step);
    }
  }

  lemma {:induction false} RunEvolves(s: Store, steps: seq<Step>)
    requires Inv(s)
    ensures Evolves(s, Run(s, steps))
    decreases |steps|
  {
    if |steps| > 0 {
      StepEvolves(s, steps[0]);
      RunEvolves(After(s, steps[0]), steps[1..]);
      EvolvesTransitive(s, After(s, steps[0]), Run(s, steps));
    }
  }

  // ---------------------------------------------------------------- what provider outcomes leave alone

  /** No payment that was there has joined or left a batch. */
  predicate SameBatches(payments: seq<Payment>, later: seq<Payment>) {
    && |payments| <= |later|
    && forall i :: 0 <= i < |payments| ==> later[i].batch == payments[i].batch
  }

  /** Nothing but payments and what their successes write has changed, and nothing was taken back. */
  ghost predicate Steady(s: Store, s': Store) {
    && s'.policies == s.policies
    && s'.numbers == s.numbers
    && s'.batches == s.batches
    && SameBatches(s.payments, s'.payments)
    && |s'.bills| == |s.bills|
    && (forall b :: 0 <= b < |s.bills| ==>
          && s'.bills[b] == s.bills[b].(status := s'.bills[b].status)
          && (s'.bills[b].status == Cancelled <==> s.bills[b].status == Cancelled))
    && (forall t: TenantId :: Sum(s'.events, ClawedBack(t)) == Sum(s.events, ClawedBack(t)))
  }

  lemma SteadyReflexive(s: Store)
    ensures Steady(s, s)
  {
  }

  lemma SteadyTransitive(s: Store, s1: Store, s2: Store)
    requires Steady(s, s1) && Steady(s1, s2)
    ensures Steady(s, s2)
  {
  }

  lemma EventIsSteady(s: Store, s': Store, event: RevenueEvent)
    requires s'.policies == s.policies && s'.numbers == s.numbers && s'.batches == s.batches && s'.bills == s.bills
    requires SameBatches(s.payments, s'.payments)
    requires s'.events == s.events + [event] && event.kind !in {PaymentReversed, PaymentRefunded}
    ensures Steady(s, s')
  {
    forall t: TenantId ensures Sum(s'.events, ClawedBack(t)) == Sum(s.events, ClawedBack(t)) {
      SumPush(s.events, event, ClawedBack(t));
    }
  }

  lemma SuccessIsSteady(s: Store, s': Store, i: nat, now: Time)
    requires KeysResolve(s) && i < |s.payments| && SuccessRows(s, s', i, now)
    ensures Steady(s, s')
  {
    forall t: TenantId ensures Sum(s'.events, ClawedBack(t)) == Sum(s.events, ClawedBack(t)) {
      SumPush(s.events, SuccessEvent(s.payments[i], i, |s.ledger| + 2), ClawedBack(t));
    }
  }

  lemma OutcomeIsSteady(s: Store, i: nat, outcome: ProviderOutcome, now: Time)
    requires KeysResolve(s) && AllBooks(s) && i < |s.payments|
    ensures var r := ApplyOutcome(s, i, outcome, now);
            r.Ok? ==> Steady(s, r.value)
  {
    var status := s.payments[i].status;
    if outcome == OutcomeSuccessful && MayMove(status, Successful) {
      SucceedWrites(s, i, now);
      SuccessIsSteady(s, Succeed(s, i, now).value, i, now);
    } else if outcome == OutcomeFailed && MayMove(status, Failed) {
      EventIsSteady(s, Fail(s, i, now), ZeroEvent(s.payments[i].tenant, PaymentFailed, OfPayment(i)));
    }
  }

  lemma QueryIsSteady(s: Store, i: nat, reply: Reply, now: Time)
    requires Inv(s) && i < |s.payments|
    ensures var r := QueryPayment(s, i, reply, now);
            r.Ok? ==> Steady(s, r.value)
  {
    if reply.Answered? {
      ReferenceKeepsInv(s, i, reply.reference);
      OutcomeIsSteady(LearnReference(s, i, reply.reference), i, reply.outcome, now);
    }
  }

  lemma ResolvingIsSteady(s: Store, run: nat, tally: ReconRun, ask: nat -> Reply, now: Time)
    requires Inv(s)
    ensures var r := Sweep(Visiting(run, ask, now), (s, tally), |s.payments|);
            r.Ok? ==> Steady(s, r.value.0)
  {
    var good := (pass: Pass, i: nat) => Inv(pass.0) && Steady(s, pass.0);
    forall pass: Pass, i: nat | good(pass, i + 1) && Visiting(run, ask, now)(pass, i).Ok?
      ensures good(Visiting(run, ask, now)(pass, i).value, i)
    {
      VisitKeepsInv(pass.0, run, pass.1, ask, i, now);
      VisitIsSteady(pass.0, run, pass.1, ask, i, now);
      SteadyTransitive(s, pass.0, Visiting(run, ask, now)(pass, i).value.0);
    }
    SweepKeeps(Visiting(run, ask, now), good, (s, tally), |s.payments|);
  }

  lemma VisitIsSteady(s: Store, run: nat, tally: ReconRun, ask: nat -> Reply, i: nat, now: Time)
    requires Inv(s) && i < |s.payments|
    ensures var r := Visit(s, run, tally, ask, i, now);
            r.Ok? ==> Steady(s, r.value.0)
  {
    if IsUnknown(s.payments[i], tally.tenant) {
      QueryIsSteady(s, i, ask(i), now);
    }
  }

  lemma ReconcileIsSteady(s: Store, t: TenantId, ask: nat -> Reply, check: string -> Reply, now: Time)
    requires Inv(s)
    ensures var r := Reconcile(s, t, ask, check, now);
            r.Ok? ==> Steady(s, r.value)
  {
    var blank := ReconRun(t, 0, 0, 0, 0, false);
    var s0 := s.(runs := s.runs + [blank]);
    Preservation.LogKeepsInv(s, s0);
    ResolvingIsSteady(s0, |s.runs|, blank, ask, now);
    var r1 := Sweep(Visiting(|s.runs|, ask, now), (s0, blank), |s.payments|);
    if r1.Ok? {
      ComparingOnlyReports(r1.value.0, |s.runs|, r1.value.1, check);
    }
  }
}
