/**
  At-least-once callback delivery refines exactly-once delivery: dropping every
  repeat of an event id from a run changes nothing but the log of duplicates.
*/
module Delivery {
  import opened Sums
  import opened Sweeps
  import opened Tables
  import opened Services
  import opened Invariants
  import opened Preservation
  import opened MoneyMoves
  import opened Runs
  import opened History

  // ---------------------------------------------------------------- forgetting the duplicate log

  function NotDuplicateEvent(): RevenueEvent -> bool {
    (e: RevenueEvent) => e.kind != PaymentDuplicate
  }

  function NotDuplicateLog(): CallbackEvent -> bool {
    (c: CallbackEvent) => c.outcome != Duplicate
  }

  /** The store without the zero-fee duplicate events and the rows that log duplicates. */
  function Forget(s: Store): Store {
    s.(events := Filter(s.events, NotDuplicateEvent()), callbacks := Filter(s.callbacks, NotDuplicateLog()))
  }

  /** Two stores that differ at most in how many duplicates they logged. */
  predicate Alike(s: Store, d: Store) {
    Forget(s) == Forget(d)
  }

  /** Results that raise together and otherwise leave stores that are alike. */
  predicate AlikeResults(r: Result<Store>, q: Result<Store>) {
    && r.Ok? == q.Ok?
    && (r.Ok? ==> Alike(r.value, q.value))
  }

  ghost predicate AlikePasses(pass: Pass, twin: Pass) {
    Inv(pass.0) && Inv(twin.0) && Alike(pass.0, twin.0) && pass.1 == twin.1
  }

  lemma AlikeTables(s: Store, d: Store)
    requires Alike(s, d)
    ensures d == s.(events := d.events, callbacks := d.callbacks)
  {
    assert Forget(s).payments == s.payments && Forget(d).payments == d.payments;
  }

  /** Stores that agree on everything but events and callbacks, and extend alike stores alike. */
  lemma AlikeAfter(s: Store, d: Store, s': Store, d': Store, more: seq<RevenueEvent>, logged: seq<CallbackEvent>)
    requires Alike(s, d)
    requires d' == s'.(events := d'.events, callbacks := d'.callbacks)
    requires |more| <= 1 && |logged| <= 1
    requires s'.events == s.events + more && d'.events == d.events + more
    requires s'.callbacks == s.callbacks + logged && d'.callbacks == d.callbacks + logged
    ensures Alike(s', d')
  {
    if |more| == 1 {
      FilterPush(s.events, more[0], NotDuplicateEvent());
      FilterPush(d.events, more[0], NotDuplicateEvent());
      assert more == [more[0]];
    } else {
      assert s'.events == s.events && d'.events == d.events;
    }
    if |logged| == 1 {
      FilterPush(s.callbacks, logged[0], NotDuplicateLog());
      FilterPush(d.callbacks, logged[0], NotDuplicateLog());
      assert logged == [logged[0]];
    } else {
      assert s'.callbacks == s.callbacks && d'.callbacks == d.callbacks;
    }
  }

  // ---------------------------------------------------------------- steps do not see the duplicates

  lemma OutcomeAlike(s: Store, d: Store, i: nat, outcome: ProviderOutcome, now: Time)
    requires Inv(s) && Inv(d) && Alike(s, d) && i < |s.payments|
    ensures i < |d.payments|
    ensures AlikeResults(ApplyOutcome(s, i, outcome, now), ApplyOutcome(d, i, outcome, now))
  {
    AlikeTables(s, d);
    assert AllBooks(s);
    hide Inv, KeysResolve, AllBooks, Alike, Succeed;
    if outcome == OutcomeSuccessful && MayMove(s.payments[i].status, Successful) {
      FirstSuccessAlike(s, d, i, now);
    } else {
      OtherOutcomeAlike(s, d, i, outcome, now);
    }
  }

  lemma FirstSuccessAlike(s: Store, d: Store, i: nat, now: Time)
    requires KeysResolve(s) && KeysResolve(d) && AllBooks(s) && Alike(s, d)
    requires d == s.(events := d.events, callbacks := d.callbacks)
    requires i < |s.payments| && MayMove(s.payments[i].status, Successful)
    ensures AlikeResults(Succeed(s, i, now), Succeed(d, i, now))
  {
    hide KeysResolve, AllBooks, Succeed;
    SucceedWrites(s, i, now);
    SucceedAlike(s, d, i, now);
    AlikeAfter(s, d, Succeed(s, i, now).value, Succeed(d, i, now).value,
               [SuccessEvent(s.payments[i], i, |s.ledger| + 2)], []);
  }

  lemma StatusAlike(s: Store, d: Store, i: nat, status: PaymentStatus, now: Time)
    requires Alike(s, d) && d == s.(events := d.events, callbacks := d.callbacks) && i < |s.payments|
    ensures Alike(SetStatus(s, i, status, now), SetStatus(d, i, status, now))
  {
    AlikeAfter(s, d, SetStatus(s, i, status, now), SetStatus(d, i, status, now), [], []);
  }

  lemma FailureAlike(s: Store, d: Store, i: nat, now: Time)
    requires Alike(s, d) && d == s.(events := d.events, callbacks := d.callbacks) && i < |s.payments|
    ensures Alike(Fail(s, i, now), Fail(d, i, now))
  {
    AlikeAfter(s, d, Fail(s, i, now), Fail(d, i, now),
               [ZeroEvent(s.payments[i].tenant, PaymentFailed, OfPayment(i))], []);
  }

  lemma OtherOutcomeAlike(s: Store, d: Store, i: nat, outcome: ProviderOutcome, now: Time)
    requires KeysResolve(s) && KeysResolve(d) && Alike(s, d) && i < |s.payments|
    requires d == s.(events := d.events, callbacks := d.callbacks)
    requires !(outcome == OutcomeSuccessful && MayMove(s.payments[i].status, Successful))
    ensures AlikeResults(ApplyOutcome(s, i, outcome, now), ApplyOutcome(d, i, outcome, now))
  {
    hide KeysResolve, Alike, SetStatus, Fail, Succeed;
    StatusAlike(s, d, i, Unknown, now);
    StatusAlike(s, d, i, Pending, now);
    FailureAlike(s, d, i, now);
  }

  lemma SucceedAlike(s: Store, d: Store, i: nat, now: Time)
    requires KeysResolve(s) && i < |s.payments|
    requires d == s.(events := d.events, callbacks := d.callbacks)
    ensures var r, q := Succeed(s, i, now), Succeed(d, i, now);
            && r.Ok? == q.Ok?
            && (r.Ok? ==>
                  && q.value == r.value.(events := q.value.events, callbacks := q.value.callbacks)
                  && r.value.events == s.events + [SuccessEvent(s.payments[i], i, |s.ledger| + 2)]
                  && q.value.events == d.events + [SuccessEvent(s.payments[i], i, |s.ledger| + 2)]
                  && r.value.callbacks == s.callbacks && q.value.callbacks == d.callbacks)
  {
    var s3 := RecordPaymentSuccessful(PostSettlementEntries(SetStatus(s, i, Successful, now), i), i);
    var d3 := RecordPaymentSuccessful(PostSettlementEntries(SetStatus(d, i, Successful, now), i), i);
    assert d3 == s3.(events := d3.events, callbacks := d3.callbacks);
    AllocatingAlike(s3, d3, i);
    hide AllocateToBill;
  }

  lemma AllocatingAlike(s: Store, d: Store, i: nat)
    requires KeysResolve(s) && i < |s.payments|
    requires d == s.(events := d.events, callbacks := d.callbacks)
    ensures AllocateToBill(d, i) == AllocateToBill(s, i).(events := d.events, callbacks := d.callbacks)
    ensures AllocateToBill(s, i).events == s.events && AllocateToBill(s, i).callbacks == s.callbacks
  {
  }

  lemma QueryAlike(s: Store, d: Store, i: nat, reply: Reply, now: Time)
    requires Inv(s) && Inv(d) && Alike(s, d) && i < |s.payments|
    ensures i < |d.payments|
    ensures AlikeResults(QueryPayment(s, i, reply, now), QueryPayment(d, i, reply, now))
  {
    AlikeTables(s, d);
    if reply.Answered? {
      var s1, d1 := LearnReference(s, i, reply.reference), LearnReference(d, i, reply.reference);
      AlikeAfter(s, d, s1, d1, [], []);
      hide Inv, KeysResolve, Alike, Services.ApplyOutcome;
      ReferenceKeepsInv(s, i, reply.reference);
      ReferenceKeepsInv(d, i, reply.reference);
      OutcomeAlike(s1, d1, i, reply.outcome, now);
    }
  }

  lemma ReplyAlike(s: Store, d: Store, i: nat, reply: Reply, now: Time)
    requires Inv(s) && Inv(d) && Alike(s, d) && i < |s.payments|
    ensures i < |d.payments|
    ensures AlikeResults(TakeReply(s, i, reply, now), TakeReply(d, i, reply, now))
  {
    AlikeTables(s, d);
    hide Inv, KeysResolve, Alike, SetStatus, SetReference, Fail, Services.ApplyOutcome;
    match reply
    case TimedOut => StatusAlike(s, d, i, Unknown, now);
    case Refused => FailureAlike(s, d, i, now);
    case Answered(outcome, reference) => AnswerAlike(s, d, i, outcome, reference, now);
  }

  lemma OpeningAlike(s: Store, d: Store, number: nat, provider: ProviderId, amount: PositiveCents, key: string)
    requires Alike(s, d) && number < |s.numbers|
    ensures number < |d.numbers|
    ensures Alike(AddPayment(s, number, provider, amount, key), AddPayment(d, number, provider, amount, key))
  {
    AlikeTables(s, d);
    AlikeAfter(s, d, AddPayment(s, number, provider, amount, key), AddPayment(d, number, provider, amount, key), [], []);
  }

  lemma InitiationAlike(
    s: Store, d: Store, number: nat, provider: ProviderId, amount: PositiveCents, key: string, reply: Reply, now: Time)
    requires Inv(s) && Inv(d) && Alike(s, d) && number < |s.numbers|
    ensures number < |d.numbers|
    ensures var r, q := InitiatePayment(s, number, provider, amount, key, reply, now),
                        InitiatePayment(d, number, provider, amount, key, reply, now);
            && r.Ok? == q.Ok?
            && (r.Ok? ==> Alike(r.value.0, q.value.0))
  {
    AlikeTables(s, d);
    assert d.payments == s.payments && d.numbers == s.numbers;
    OpeningAlike(s, d, number, provider, amount, key);
    hide Inv, KeysResolve, Alike, AddPayment, TakeReply;
    AddPaymentKeepsInv(s, number, provider, amount, key);
    AddPaymentKeepsInv(d, number, provider, amount, key);
    ReplyAlike(AddPayment(s, number, provider, amount, key), AddPayment(d, number, provider, amount, key),
               |s.payments|, reply, now);
  }

  lemma AnswerAlike(s: Store, d: Store, i: nat, outcome: ProviderOutcome, reference: string, now: Time)
    requires Inv(s) && Inv(d) && Alike(s, d) && i < |s.payments|
    ensures i < |d.payments|
    ensures KeysResolve(SetReference(s, i, reference)) && KeysResolve(SetReference(d, i, reference))
    ensures AlikeResults(ApplyOutcome(SetReference(s, i, reference), i, outcome, now),
                         ApplyOutcome(SetReference(d, i, reference), i, outcome, now))
  {
    AlikeTables(s, d);
    var s1, d1 := SetReference(s, i, reference), SetReference(d, i, reference);
    AlikeAfter(s, d, s1, d1, [], []);
    hide Inv, KeysResolve, Alike, Services.ApplyOutcome;
    ReferenceKeepsInv(s, i, reference);
    ReferenceKeepsInv(d, i, reference);
    OutcomeAlike(s1, d1, i, outcome, now);
  }

  lemma {:induction false} FilterWithin(events: seq<RevenueEvent>, i: nat)
    ensures Filter(Filter(events, NotDuplicateEvent()), MoneyEventOn(i)) == Filter(events, MoneyEventOn(i))
  {
    if |events| > 0 {
      var earlier, last := events[..|events| - 1], events[|events| - 1];
      FilterWithin(earlier, i);
      if NotDuplicateEvent()(last) {
        FilterPush(Filter(earlier, NotDuplicateEvent()), last, MoneyEventOn(i));
      } else {
        assert Filter(events, NotDuplicateEvent()) == Filter(earlier, NotDuplicateEvent());
      }
    }
  }

  lemma SameMoneyEvents(s: Store, d: Store, i: nat)
    requires Alike(s, d)
    ensures Filter(s.events, MoneyEventOn(i)) == Filter(d.events, MoneyEventOn(i))
  {
    FilterWithin(s.events, i);
    FilterWithin(d.events, i);
    assert Forget(s).events == Forget(d).events;
  }

  lemma TakeBackAlike(s: Store, d: Store, i: nat, status: PaymentStatus, now: Time)
    requires Inv(s) && Inv(d) && Alike(s, d)
    requires i < |s.payments| && s.payments[i].status == Successful && status in {Refunded, Reversed}
    ensures i < |d.payments| && Alike(TakeBack(s, i, status, now), TakeBack(d, i, status, now))
  {
    AlikeTables(s, d);
    assert KeysResolve(s) && KeysResolve(d) && AllBooks(s) && AllBooks(d);
    hide Inv, AllBooks;
    SameMoneyEvents(s, d, i);
    TakeBackWrites(s, i, status, now);
    TakeBackWrites(d, i, status, now);
    hide KeysResolve, TakeBack, Filter;
    var s', d' := TakeBack(s, i, status, now), TakeBack(d, i, status, now);
    AlikeAfter(s, d, s', d', [s'.events[|s.events|]], []);
  }

  lemma SameBatch(s: Store, d: Store, tenant: TenantId, provider: ProviderId, start: Time, end: Time)
    requires KeysResolve(s) && KeysResolve(d) && AllBooks(s) && AllBooks(d) && d.payments == s.payments
    ensures NewBatch(s, tenant, provider, start, end) == NewBatch(d, tenant, provider, start, end)
  {
    BatchTotals(s, tenant, provider, start, end);
    BatchTotals(d, tenant, provider, start, end);
    hide KeysResolve, AllBooks, Sum;
  }

  lemma BatchAlike(s: Store, d: Store, tenant: TenantId, provider: ProviderId, start: Time, end: Time)
    requires Inv(s) && Inv(d) && Alike(s, d)
    ensures Alike(GenerateBatch(s, tenant, provider, start, end), GenerateBatch(d, tenant, provider, start, end))
  {
    AlikeTables(s, d);
    assert AllBooks(s) && AllBooks(d);
    hide Inv, KeysResolve, AllBooks, Alike, NewBatch, ClaimAll;
    SameBatch(s, d, tenant, provider, start, end);
    AlikeAfter(
      s, d, GenerateBatch(s, tenant, provider, start, end), GenerateBatch(d, tenant, provider, start, end), [], []);
  }

  lemma JudgedAlike(s: Store, d: Store, run: nat, tally: ReconRun, i: nat)
    requires Inv(s) && Inv(d) && Alike(s, d) && i < |s.payments|
    ensures i < |d.payments|
    ensures AlikePasses(Judge(s, run, tally, i), Judge(d, run, tally, i))
  {
    AlikeTables(s, d);
    var s1, d1 := Judge(s, run, tally, i).0, Judge(d, run, tally, i).0;
    LogKeepsInv(s, s1);
    LogKeepsInv(d, d1);
    AlikeAfter(s, d, s1, d1, [], []);
  }

  lemma VisitAlike(pass: Pass, twin: Pass, run: nat, ask: nat -> Reply, i: nat, now: Time)
    requires AlikePasses(pass, twin)
    ensures Matched(AlikePasses, Visiting(run, ask, now)(pass, i), Visiting(run, ask, now)(twin, i))
  {
    var (s, d) := (pass.0, twin.0);
    AlikeTables(s, d);
    if i < |s.payments| {
      QueryKeepsInv(s, i, ask(i), now);
      QueryKeepsInv(d, i, ask(i), now);
      QueryAlike(s, d, i, ask(i), now);
      var r, q := QueryPayment(s, i, ask(i), now), QueryPayment(d, i, ask(i), now);
      hide QueryPayment, Inv, Judge, Alike;
      if r.Ok? {
        JudgedAlike(r.value, q.value, run, pass.1, i);
      }
    }
  }

  lemma ReportedAlike(s: Store, d: Store, s': Store, d': Store)
    requires Inv(s) && Inv(d) && Alike(s, d)
    requires s' == s.(exceptions := s'.exceptions) && d' == d.(exceptions := s'.exceptions)
    ensures Inv(s') && Inv(d') && Alike(s', d')
  {
    AlikeTables(s, d);
    LogKeepsInv(s, s');
    LogKeepsInv(d, d');
    AlikeAfter(s, d, s', d', [], []);
  }

  lemma CompareAlike(pass: Pass, twin: Pass, run: nat, check: string -> Reply, i: nat)
    requires AlikePasses(pass, twin)
    ensures Matched(AlikePasses, Comparing(run, check)(pass, i), Comparing(run, check)(twin, i))
  {
    AlikeTables(pass.0, twin.0);
    var r, q := Comparing(run, check)(pass, i), Comparing(run, check)(twin, i);
    if r.Ok? {
      ReportedAlike(pass.0, twin.0, r.value.0, q.value.0);
    }
  }

  lemma ReconcileAlike(s: Store, d: Store, tenant: TenantId, ask: nat -> Reply, check: string -> Reply, now: Time)
    requires Inv(s) && Inv(d) && Alike(s, d)
    ensures AlikeResults(Reconcile(s, tenant, ask, check, now), Reconcile(d, tenant, ask, check, now))
  {
    AlikeTables(s, d);
    var blank := ReconRun(tenant, 0, 0, 0, 0, false);
    var run, n := |s.runs|, |s.payments|;
    var s0, d0 := s.(runs := s.runs + [blank]), d.(runs := d.runs + [blank]);
    LogKeepsInv(s, s0);
    LogKeepsInv(d, d0);
    AlikeAfter(s, d, s0, d0, [], []);
    forall pass: Pass, twin: Pass, i: nat | AlikePasses(pass, twin)
      ensures Matched(AlikePasses, Visiting(run, ask, now)(pass, i), Visiting(run, ask, now)(twin, i))
    {
      VisitAlike(pass, twin, run, ask, i, now);
    }
    SweepsMatch(Visiting(run, ask, now), AlikePasses, (s0, blank), (d0, blank), n);
    var r1, q1 := Sweep(Visiting(run, ask, now), (s0, blank), n), Sweep(Visiting(run, ask, now), (d0, blank), n);
    if r1.Ok? {
      ComparingAlike(s.runs, r1.value, q1.value, check);
    }
  }

  lemma ComparingAlike(runs: seq<ReconRun>, pass: Pass, twin: Pass, check: string -> Reply)
    requires AlikePasses(pass, twin)
    ensures |pass.0.payments| == |twin.0.payments|
    ensures var r := Sweep(Comparing(|runs|, check), pass, |pass.0.payments|);
            var q := Sweep(Comparing(|runs|, check), twin, |pass.0.payments|);
            && Matched(AlikePasses, r, q)
            && (r.Ok? ==> Alike(r.value.0.(runs := runs + [r.value.1.(completed := true)]),
                                q.value.0.(runs := runs + [q.value.1.(completed := true)])))
  {
    AlikeTables(pass.0, twin.0);
    forall a: Pass, b: Pass, i: nat | AlikePasses(a, b)
      ensures Matched(AlikePasses, Comparing(|runs|, check)(a, i), Comparing(|runs|, check)(b, i))
    {
      CompareAlike(a, b, |runs|, check, i);
    }
    SweepsMatch(Comparing(|runs|, check), AlikePasses, pass, twin, |pass.0.payments|);
    var r := Sweep(Comparing(|runs|, check), pass, |pass.0.payments|);
    var q := Sweep(Comparing(|runs|, check), twin, |pass.0.payments|);
    if r.Ok? {
      AlikeTables(r.value.0, q.value.0);
      var ended := runs + [r.value.1.(completed := true)];
      AlikeAfter(r.value.0, q.value.0, r.value.0.(runs := ended), q.value.0.(runs := ended), [], []);
    }
  }

  /** An event id that is on file in one store is on file in the other. */
  lemma FiledAlike(s: Store, d: Store, provider: ProviderId, eventId: string)
    requires Alike(s, d) && CallbackLog(s.callbacks) && eventId != ""
    ensures OnFile(s.callbacks, provider, eventId) ==> OnFile(d.callbacks, provider, eventId)
  {
    var found := Newest(s.callbacks, Delivered(provider, eventId));
    if found.Some? {
      var row := s.callbacks[found.value];
      FilterMember(s.callbacks, NotDuplicateLog(), row);
      FilterMember(d.callbacks, NotDuplicateLog(), row);
      assert Forget(s).callbacks == Forget(d).callbacks;
      var k :| 0 <= k < |d.callbacks| && d.callbacks[k] == row;
      assert Delivered(provider, eventId)(d.callbacks[k]);
    }
  }

  predicate OnFile(callbacks: seq<CallbackEvent>, provider: ProviderId, eventId: string) {
    Newest(callbacks, Delivered(provider, eventId)).Some?
  }

  /** Logging a duplicate is exactly what is forgotten. */
  lemma DuplicateIsForgotten(s: Store, provider: ProviderId, original: CallbackEvent)
    ensures Alike(s, DuplicateDelivery(s, provider, original))
  {
    FilterPush(s.callbacks, CallbackEvent(provider, "", Duplicate, original.payment), NotDuplicateLog());
    if original.payment.Some? && original.payment.value < |s.payments| {
      var i := original.payment.value;
      FilterPush(s.events, ZeroEvent(s.payments[i].tenant, PaymentDuplicate, OfPayment(i)), NotDuplicateEvent());
    }
  }

  lemma LoggedAlike(s: Store, d: Store, c: CallbackEvent)
    requires Alike(s, d)
    ensures Alike(LogCallback(s, c), LogCallback(d, c))
  {
    AlikeTables(s, d);
    AlikeAfter(s, d, LogCallback(s, c), LogCallback(d, c), [], [c]);
  }

  lemma FirstDeliveryAlike(
    s: Store, d: Store, provider: ProviderId, eventId: string, reference: string, outcome: ProviderOutcome, now: Time)
    requires Inv(s) && Inv(d) && Alike(s, d)
    requires eventId != "" ==> !OnFile(s.callbacks, provider, eventId) && !OnFile(d.callbacks, provider, eventId)
    ensures AlikeResults(FirstDelivery(s, provider, eventId, reference, outcome, now),
                         FirstDelivery(d, provider, eventId, reference, outcome, now))
  {
    AlikeTables(s, d);
    var found := Newest(s.payments, PaymentReferenced(reference));
    var c := CallbackEvent(provider, eventId, if found.Some? then Processed else Unmatched, found);
    LoggedAlike(s, d, c);
    FilingKeepsInv(s, c);
    FilingKeepsInv(d, c);
    hide Inv, KeysResolve, Alike, OnFile, LogCallback, Services.ApplyOutcome;
    if found.Some? {
      assert LogCallback(s, c).payments == s.payments && LogCallback(d, c).payments == d.payments by {
        LogKeepsPayments(s, c);
        LogKeepsPayments(d, c);
      }
      OutcomeAlike(LogCallback(s, c), LogCallback(d, c), found.value, outcome, now);
    }
  }

  lemma LogKeepsPayments(s: Store, c: CallbackEvent)
    ensures LogCallback(s, c).payments == s.payments
  {
  }

  lemma RepeatAlike(s: Store, d: Store, provider: ProviderId, a: CallbackEvent, b: CallbackEvent)
    requires Alike(s, d)
    ensures Alike(DuplicateDelivery(s, provider, a), DuplicateDelivery(d, provider, b))
  {
    DuplicateIsForgotten(s, provider, a);
    DuplicateIsForgotten(d, provider, b);
  }

  lemma CallbackAlike(s: Store, d: Store, provider: ProviderId, delivery: Delivery, now: Time)
    requires Inv(s) && Inv(d) && Alike(s, d)
    ensures AlikeResults(ProcessCallback(s, provider, delivery, now), ProcessCallback(d, provider, delivery, now))
  {
    assert CallbackLog(s.callbacks) && CallbackLog(d.callbacks);
    hide Inv, KeysResolve, Alike, CallbackLog, FirstDelivery, DuplicateDelivery;
    if delivery.Forged? {
      LoggedAlike(s, d, CallbackEvent(provider, "", InvalidSignature, None));
    } else if delivery.Parsed? {
      var eventId := delivery.eventId;
      if eventId != "" {
        FiledAlike(s, d, provider, eventId);
        FiledAlike(d, s, provider, eventId);
      }
      if eventId != "" && OnFile(s.callbacks, provider, eventId) {
        RepeatAlike(s, d, provider, s.callbacks[Newest(s.callbacks, Delivered(provider, eventId)).value],
                    d.callbacks[Newest(d.callbacks, Delivered(provider, eventId)).value]);
      } else {
        FirstDeliveryAlike(s, d, provider, eventId, delivery.reference, delivery.outcome, now);
      }
    }
  }

  lemma InitiatingAlike(s: Store, d: Store, step: Step)
    requires Inv(s) && Inv(d) && Alike(s, d) && step.Initiating?
    ensures AlikeResults(Perform(s, step), Perform(d, step))
  {
    AlikeTables(s, d);
    hide Inv, KeysResolve, Alike, Services.InitiatePayment;
    if step.number < |s.numbers| {
      InitiationAlike(s, d, step.number, step.provider, step.amount, step.key, step.reply, step.now);
    }
  }

  lemma RefundAlike(s: Store, d: Store, i: nat, reply: Reply, now: Time)
    requires Inv(s) && Inv(d) && Alike(s, d) && i < |s.payments|
    ensures i < |d.payments| && AlikeResults(RefundPayment(s, i, reply, now), RefundPayment(d, i, reply, now))
  {
    AlikeTables(s, d);
    hide Inv, Alike, Compensate, SetStatus;
    if s.payments[i].status == Successful {
      TakeBackAlike(s, d, i, Refunded, now);
    }
  }

  lemma ReversalAlike(s: Store, d: Store, i: nat, reply: Reply, now: Time)
    requires Inv(s) && Inv(d) && Alike(s, d) && i < |s.payments|
    ensures i < |d.payments| && AlikeResults(ReversePayment(s, i, reply, now), ReversePayment(d, i, reply, now))
  {
    AlikeTables(s, d);
    hide Inv, Alike, Compensate, SetStatus;
    if s.payments[i].status == Successful {
      TakeBackAlike(s, d, i, Reversed, now);
    }
  }

  lemma PaymentStepAlike(s: Store, d: Store, step: Step)
    requires Inv(s) && Inv(d) && Alike(s, d) && MovesPayments(step)
    ensures AlikeResults(Perform(s, step), Perform(d, step))
  {
    AlikeTables(s, d);
    hide Inv, Alike, Services.InitiatePayment, Services.QueryPayment, Services.ProcessCallback, Services.Reconcile,
      RefundPayment, ReversePayment;
    if step.Initiating? {
      InitiatingAlike(s, d, step);
    } else if step.Querying? {
      if step.payment < |s.payments| {
        QueryAlike(s, d, step.payment, step.reply, step.now);
      }
    } else if step.CallingBack? {
      CallbackAlike(s, d, step.provider, step.delivery, step.now);
    } else if step.Reconciling? {
      ReconcileAlike(s, d, step.tenant, step.ask, step.check, step.now);
    } else if step.payment < |s.payments| {
      if step.Refunding? {
        RefundAlike(s, d, step.payment, step.reply, step.now);
      } else {
        ReversalAlike(s, d, step.payment, step.reply, step.now);
      }
    }
  }

  lemma NumberStepAlike(
    s: Store, d: Store, tenant: TenantId, owner: Owner, candidates: seq<string>, expiresAt: Option<Time>)
    requires Alike(s, d)
    ensures var r, q := GetOrCreateNumber(s, tenant, owner, candidates, expiresAt),
                        GetOrCreateNumber(d, tenant, owner, candidates, expiresAt);
            && r.Ok? == q.Ok?
            && (r.Ok? ==> Alike(r.value.0, q.value.0))
  {
    AlikeTables(s, d);
    var r := GetOrCreateNumber(s, tenant, owner, candidates, expiresAt);
    var q := GetOrCreateNumber(d, tenant, owner, candidates, expiresAt);
    if r.Ok? {
      AlikeAfter(s, d, r.value.0, q.value.0, [r.value.0.events[|s.events|]], []);
    }
  }

  /** Requests that write neither an event nor a callback. */
  predicate LogsNothing(step: Step) {
    !MovesPayments(step) && !step.RequestingNumber? && !step.Settling?
  }

  lemma SilentStepIsBlind(s: Store, d: Store, step: Step)
    requires KeysResolve(s) && KeysResolve(d) && LogsNothing(step)
    requires d == s.(events := d.events, callbacks := d.callbacks)
    ensures var r, q := Perform(s, step), Perform(d, step);
            && r.Ok? == q.Ok?
            && (r.Ok? ==>
                  && q.value == r.value.(events := d.events, callbacks := d.callbacks)
                  && r.value.events == s.events && r.value.callbacks == s.callbacks)
  {
    hide KeysResolve;
  }

  lemma OtherStepAlike(s: Store, d: Store, step: Step)
    requires Inv(s) && Inv(d) && Alike(s, d) && !MovesPayments(step)
    ensures AlikeResults(Perform(s, step), Perform(d, step))
  {
    AlikeTables(s, d);
    hide Inv, KeysResolve, Alike, Services.GetOrCreateNumber, Services.GenerateBatch;
    if step.RequestingNumber? {
      NumberStepAlike(s, d, step.tenant, step.owner, step.candidates, step.expiresAt);
    } else if step.Settling? {
      BatchAlike(s, d, step.tenant, step.provider, step.start, step.end);
    } else {
      SilentStepIsBlind(s, d, step);
      hide Perform;
      var r, q := Perform(s, step), Perform(d, step);
      if r.Ok? {
        AlikeAfter(s, d, r.value, q.value, [], []);
      }
    }
  }

  lemma StepAlike(s: Store, d: Store, step: Step)
    requires Inv(s) && Inv(d) && Alike(s, d)
    ensures Alike(After(s, step), After(d, step))
  {
    if MovesPayments(step) {
      PaymentStepAlike(s, d, step);
    } else {
      OtherStepAlike(s, d, step);
    }
  }

  // ---------------------------------------------------------------- honest providers

  /** Every reference a payment has learnt is its own: `owner` says whose a reference is. */
  predicate Owned(payments: seq<Payment>, owner: string -> nat) {
    forall i :: 0 <= i < |payments| && payments[i].reference != "" ==> owner(payments[i].reference) == i
  }

  predicate HonestReply(reply: Reply, owner: string -> nat, i: nat) {
    reply.Answered? && reply.reference != "" ==> owner(reply.reference) == i
  }

  /** The provider never reports one payment's reference for another payment. */
  ghost predicate HonestStep(s: Store, step: Step, owner: string -> nat) {
    match step
    case Initiating(_, _, _, _, reply, _) => HonestReply(reply, owner, |s.payments|)
    case Querying(payment, reply, _) => HonestReply(reply, owner, payment)
    case Reconciling(_, ask, _, _) => forall i: nat :: HonestReply(ask(i), owner, i)
    case _ => true
  }

  ghost predicate HonestRun(s: Store, steps: seq<Step>, owner: string -> nat)
    requires Inv(s)
    decreases |steps|
  {
    |steps| > 0 ==> HonestStep(s, steps[0], owner) && HonestRun(After(s, steps[0]), steps[1..], owner)
  }

  lemma OutcomeKeepsReferences(s: Store, i: nat, outcome: ProviderOutcome, now: Time)
    requires KeysResolve(s) && i < |s.payments|
    ensures var r := ApplyOutcome(s, i, outcome, now);
            r.Ok? ==> forall j :: 0 <= j < |s.payments| ==> r.value.payments[j].reference == s.payments[j].reference
  {
  }

  lemma QueryStaysOwned(s: Store, i: nat, reply: Reply, now: Time, owner: string -> nat)
    requires KeysResolve(s) && i < |s.payments| && Owned(s.payments, owner) && HonestReply(reply, owner, i)
    ensures var r := QueryPayment(s, i, reply, now);
            r.Ok? ==> Owned(r.value.payments, owner)
  {
    if reply.Answered? {
      OutcomeKeepsReferences(LearnReference(s, i, reply.reference), i, reply.outcome, now);
    }
  }

  predicate SameReferences(payments: seq<Payment>, later: seq<Payment>) {
    && |later| == |payments|
    && forall i :: 0 <= i < |payments| ==> later[i].reference == payments[i].reference
  }

  lemma OpeningStaysOwned(s: Store, step: Step, owner: string -> nat)
    requires Owned(s.payments, owner) && step.Initiating? && step.number < |s.numbers|
    ensures Owned(AddPayment(s, step.number, step.provider, step.amount, step.key).payments, owner)
  {
  }

  lemma ReplyStaysOwned(s: Store, i: nat, reply: Reply, now: Time, owner: string -> nat)
    requires KeysResolve(s) && i < |s.payments| && Owned(s.payments, owner) && HonestReply(reply, owner, i)
    ensures var r := TakeReply(s, i, reply, now);
            r.Ok? ==> Owned(r.value.payments, owner)
  {
    if reply.Answered? {
      OutcomeKeepsReferences(SetReference(s, i, reply.reference), i, reply.outcome, now);
      hide KeysResolve, Services.ApplyOutcome;
    } else {
      hide KeysResolve;
    }
  }

  lemma InitiationStaysOwned(s: Store, step: Step, owner: string -> nat)
    requires Inv(s) && Owned(s.payments, owner) && step.Initiating? && HonestStep(s, step, owner)
    ensures Owned(After(s, step).payments, owner)
  {
    if step.number < |s.numbers| {
      OpeningStaysOwned(s, step, owner);
      hide Inv, KeysResolve, Owned, AddPayment, TakeReply;
      ReplyStaysOwned(AddPayment(s, step.number, step.provider, step.amount, step.key), |s.payments|,
                      step.reply, step.now, owner);
    }
  }

  lemma FirstDeliveryKeepsReferences(
    s: Store, provider: ProviderId, eventId: string, reference: string, outcome: ProviderOutcome, now: Time)
    requires KeysResolve(s)
    ensures var r := FirstDelivery(s, provider, eventId, reference, outcome, now);
            r.Ok? ==> SameReferences(s.payments, r.value.payments)
  {
    var found := Newest(s.payments, PaymentReferenced(reference));
    if found.Some? {
      OutcomeKeepsReferences(
        LogCallback(s, CallbackEvent(provider, eventId, Processed, found)), found.value, outcome, now);
      hide KeysResolve, Services.ApplyOutcome;
    }
  }

  lemma CallbackKeepsReferences(s: Store, provider: ProviderId, delivery: Delivery, now: Time)
    requires KeysResolve(s)
    ensures var r := ProcessCallback(s, provider, delivery, now);
            r.Ok? ==> SameReferences(s.payments, r.value.payments)
  {
    if delivery.Parsed? {
      FirstDeliveryKeepsReferences(s, provider, delivery.eventId, delivery.reference, delivery.outcome, now);
    }
    hide KeysResolve, FirstDelivery;
  }

  lemma ReconcileStaysOwned(
    s: Store, tenant: TenantId, ask: nat -> Reply, check: string -> Reply, now: Time, owner: string -> nat)
    requires Inv(s) && Owned(s.payments, owner) && forall i: nat :: HonestReply(ask(i), owner, i)
    ensures var r := Reconcile(s, tenant, ask, check, now);
            r.Ok? ==> Owned(r.value.payments, owner)
  {
    var blank := ReconRun(tenant, 0, 0, 0, 0, false);
    var run := |s.runs|;
    var s0 := s.(runs := s.runs + [blank]);
    var good := (pass: Pass, i: nat) => Owned(pass.0.payments, owner);
    forall pass: Pass, i: nat | good(pass, i + 1) && Visiting(run, ask, now)(pass, i).Ok?
      ensures good(Visiting(run, ask, now)(pass, i).value, i)
    {
      QueryStaysOwned(pass.0, i, ask(i), now, owner);
    }
    SweepKeeps(Visiting(run, ask, now), good, (s0, blank), |s.payments|);
    var r1 := Sweep(Visiting(run, ask, now), (s0, blank), |s.payments|);
    if r1.Ok? {
      ComparingOnlyReports(r1.value.0, run, r1.value.1, check);
    }
  }

  lemma CompensationKeepsReferences(s: Store, i: nat, status: PaymentStatus, now: Time)
    requires i < |s.payments|
    ensures SameReferences(s.payments, TakeBack(s, i, status, now).payments)
  {
  }

  lemma RefundKeepsReferences(s: Store, i: nat, reply: Reply, now: Time)
    requires i < |s.payments|
    ensures var r := RefundPayment(s, i, reply, now);
            r.Ok? ==> SameReferences(s.payments, r.value.payments)
    ensures var r := ReversePayment(s, i, reply, now);
            r.Ok? ==> SameReferences(s.payments, r.value.payments)
  {
    CompensationKeepsReferences(s, i, Refunded, now);
    CompensationKeepsReferences(s, i, Reversed, now);
    hide Compensate, SetStatus;
  }

  lemma TakingBackKeepsReferences(s: Store, step: Step)
    requires KeysResolve(s) && (step.Refunding? || step.Reversing?)
    ensures Perform(s, step).Ok? ==> SameReferences(s.payments, Perform(s, step).value.payments)
  {
    hide KeysResolve, RefundPayment, ReversePayment;
    if step.payment < |s.payments| {
      RefundKeepsReferences(s, step.payment, step.reply, step.now);
    }
  }

  lemma OtherStepStaysOwned(s: Store, step: Step, owner: string -> nat)
    requires Inv(s) && Owned(s.payments, owner)
    requires !step.Initiating? && !step.Querying? && !step.CallingBack? && !step.Reconciling?
    ensures Owned(After(s, step).payments, owner)
  {
    assert KeysResolve(s);
    hide Inv, RefundPayment, ReversePayment;
    if step.Refunding? || step.Reversing? {
      TakingBackKeepsReferences(s, step);
      hide Perform;
    } else {
      assert SameReferences(s.payments, After(s, step).payments);
    }
  }

  lemma StepStaysOwned(s: Store, step: Step, owner: string -> nat)
    requires Inv(s) && Owned(s.payments, owner) && HonestStep(s, step, owner)
    ensures Owned(After(s, step).payments, owner)
  {
    assert KeysResolve(s);
    hide Inv, KeysResolve, Services.InitiatePayment, Services.QueryPayment, Services.ProcessCallback, Services.Reconcile;
    if step.Initiating? {
      InitiationStaysOwned(s, step, owner);
    } else if step.Querying? {
      if step.payment < |s.payments| {
        QueryStaysOwned(s, step.payment, step.reply, step.now, owner);
      }
    } else if step.CallingBack? {
      CallbackKeepsReferences(s, step.provider, step.delivery, step.now);
    } else if step.Reconciling? {
      ReconcileStaysOwned(s, step.tenant, step.ask, step.check, step.now, owner);
    } else {
      OtherStepStaysOwned(s, step, owner);
    }
  }

  // ---------------------------------------------------------------- dropping the repeats

  type EventKey = (ProviderId, string)

  /** An event id always carries the same, non-blank, content. */
  predicate Tells(step: Step, content: EventKey -> (string, ProviderOutcome)) {
    step.CallingBack? && step.delivery.Parsed? ==>
      && step.delivery.eventId != ""
      && step.delivery.reference != ""
      && content((step.provider, step.delivery.eventId)) == (step.delivery.reference, step.delivery.outcome)
  }

  function KeyOf(step: Step): Option<EventKey> {
    if step.CallingBack? && step.delivery.Parsed? then Some((step.provider, step.delivery.eventId)) else None
  }

  /** The run with every repeat delivery of an event id dropped. */
  function OnceOnly(steps: seq<Step>, seen: set<EventKey>): seq<Step> {
    if |steps| == 0 then []
    else
      var key := KeyOf(steps[0]);
      if key.None? then [steps[0]] + OnceOnly(steps[1..], seen)
      else if key.value in seen then OnceOnly(steps[1..], seen)
      else [steps[0]] + OnceOnly(steps[1..], seen + {key.value})
  }

  /** Some payment carries the reference and can never take the outcome. */
  predicate RefusedFor(payments: seq<Payment>, told: (string, ProviderOutcome)) {
    exists i :: 0 <= i < |payments| && payments[i].reference == told.0 && Refuses(payments[i].status, told.1)
  }

  /** An event id that was delivered is on file, or its delivery was and stays illegal. */
  predicate Dealt(s: Store, key: EventKey, told: (string, ProviderOutcome)) {
    OnFile(s.callbacks, key.0, key.1) || RefusedFor(s.payments, told)
  }

  lemma DealtIsForever(s: Store, s': Store, key: EventKey, told: (string, ProviderOutcome))
    requires Evolves(s, s') && Dealt(s, key, told) && told.0 != ""
    ensures Dealt(s', key, told)
  {
    var found := Newest(s.callbacks, Delivered(key.0, key.1));
    if found.Some? {
      assert s'.callbacks[found.value] == s.callbacks[found.value];
      assert Delivered(key.0, key.1)(s'.callbacks[found.value]);
    } else {
      var i :| 0 <= i < |s.payments| && s.payments[i].reference == told.0 && Refuses(s.payments[i].status, told.1);
      assert PaymentEvolves(s.payments[i], s'.payments[i]);
      RefusalIsForever(s.payments[i].status, s'.payments[i].status, told.1);
    }
  }

  lemma DeliveryIsDealt(s: Store, step: Step, key: EventKey, told: (string, ProviderOutcome))
    requires Inv(s) && KeyOf(step) == Some(key) && key.1 != ""
    requires told == (step.delivery.reference, step.delivery.outcome)
    ensures Dealt(After(s, step), key, told)
  {
    hide Inv, KeysResolve, FirstDelivery;
    var original := Newest(s.callbacks, Delivered(key.0, key.1));
    if original.Some? {
      StepEvolves(s, step);
      hide After;
      FiledStays(s, After(s, step), key, original.value);
    } else {
      FirstDeliveryIsDealt(s, key, told, step.now);
      hide OnFile, RefusedFor;
    }
  }

  lemma FiledStays(s: Store, s': Store, key: EventKey, k: nat)
    requires Evolves(s, s') && k < |s.callbacks| && Delivered(key.0, key.1)(s.callbacks[k])
    ensures OnFile(s'.callbacks, key.0, key.1)
  {
    assert s'.callbacks[k] == s.callbacks[k];
  }

  /** A first delivery is filed, unless its transition is refused, now and forever. */
  lemma FirstDeliveryIsDealt(s: Store, key: EventKey, told: (string, ProviderOutcome), now: Time)
    requires Inv(s) && key.1 != "" && Newest(s.callbacks, Delivered(key.0, key.1)).None?
    ensures var r := FirstDelivery(s, key.0, key.1, told.0, told.1, now);
            if r.Ok? then OnFile(r.value.callbacks, key.0, key.1) else RefusedFor(s.payments, told)
  {
    var found := Newest(s.payments, PaymentReferenced(told.0));
    var c := CallbackEvent(key.0, key.1, if found.Some? then Processed else Unmatched, found);
    var s1 := LogCallback(s, c);
    assert Delivered(key.0, key.1)(s1.callbacks[|s.callbacks|]);
    if found.Some? {
      FilingKeepsInv(s, c);
      OutcomeKeepsInv(s1, found.value, told.1, now);
      OutcomeEvolves(s1, found.value, told.1, now);
      hide Inv, KeysResolve, Services.ApplyOutcome;
      var r := ApplyOutcome(s1, found.value, told.1, now);
      if r.Ok? {
        FiledStays(s1, r.value, key, |s.callbacks|);
      }
    }
  }

  lemma RefusedAgain(s: Store, key: EventKey, told: (string, ProviderOutcome), owner: string -> nat, now: Time)
    requires Inv(s) && Owned(s.payments, owner) && told.0 != "" && RefusedFor(s.payments, told)
    requires key.1 != "" && Newest(s.callbacks, Delivered(key.0, key.1)).None?
    ensures FirstDelivery(s, key.0, key.1, told.0, told.1, now).Raised?
  {
    var i :| 0 <= i < |s.payments| && s.payments[i].reference == told.0 && Refuses(s.payments[i].status, told.1);
    var found := Newest(s.payments, PaymentReferenced(told.0));
    assert PaymentReferenced(told.0)(s.payments[i]);
    assert found == Some(i);
    var c := CallbackEvent(key.0, key.1, Processed, found);
    FilingKeepsInv(s, c);
    OutcomeKeepsInv(LogCallback(s, c), i, told.1, now);
    hide Inv, KeysResolve, Services.ApplyOutcome;
  }

  lemma RepeatChangesNothing(
    s: Store, step: Step, key: EventKey, told: (string, ProviderOutcome), owner: string -> nat)
    requires Inv(s) && Owned(s.payments, owner)
    requires KeyOf(step) == Some(key) && key.1 != "" && told.0 != ""
    requires told == (step.delivery.reference, step.delivery.outcome)
    requires Dealt(s, key, told)
    ensures Alike(s, After(s, step))
  {
    hide Inv, KeysResolve, Alike, Owned, RefusedFor, FirstDelivery, DuplicateDelivery;
    var original := Newest(s.callbacks, Delivered(key.0, key.1));
    if original.Some? {
      DuplicateIsForgotten(s, step.provider, s.callbacks[original.value]);
    } else {
      RefusedAgain(s, key, told, owner, step.now);
      AlikeReflexive(s);
    }
  }

  lemma AlikeReflexive(s: Store)
    ensures Alike(s, s)
  {
  }

  lemma RunFirst(s: Store, steps: seq<Step>)
    requires Inv(s) && |steps| > 0
    ensures Run(s, steps) == Run(After(s, steps[0]), steps[1..])
  {
  }

  lemma RunPrepended(s: Store, step: Step, rest: seq<Step>)
    requires Inv(s)
    ensures Run(s, [step] + rest) == Run(After(s, step), rest)
  {
    assert ([step] + rest)[1..] == rest;
    hide Inv, After;
  }

  /** Every event id of a set was delivered with its content, and is dealt with. */
  predicate AllDealt(s: Store, seen: set<EventKey>, content: EventKey -> (string, ProviderOutcome)) {
    forall key :: key in seen ==> key.1 != "" && content(key).0 != "" && Dealt(s, key, content(key))
  }

  lemma AllDealtForever(s: Store, s': Store, seen: set<EventKey>, content: EventKey -> (string, ProviderOutcome))
    requires Evolves(s, s') && AllDealt(s, seen, content)
    ensures AllDealt(s', seen, content)
  {
    forall key | key in seen ensures Dealt(s', key, content(key)) {
      DealtIsForever(s, s', key, content(key));
    }
  }

  /** What has been delivered by the end of a step is dealt with by then. */
  function Seen(step: Step, seen: set<EventKey>): set<EventKey> {
    if KeyOf(step).Some? then seen + {KeyOf(step).value} else seen
  }

  lemma StepIsDealt(s: Store, step: Step, seen: set<EventKey>, content: EventKey -> (string, ProviderOutcome))
    requires Inv(s) && AllDealt(s, seen, content) && Tells(step, content)
    ensures AllDealt(After(s, step), Seen(step, seen), content)
  {
    StepEvolves(s, step);
    AllDealtForever(s, After(s, step), seen, content);
    hide Inv, KeysResolve, After, Evolves, Dealt;
    if KeyOf(step).Some? {
      DeliveryIsDealt(s, step, KeyOf(step).value, content(KeyOf(step).value));
    }
  }

  lemma OnceOnlyFirst(steps: seq<Step>, seen: set<EventKey>)
    requires |steps| > 0
    ensures OnceOnly(steps, seen) ==
            if IsRepeat(steps[0], seen) then OnceOnly(steps[1..], seen)
            else [steps[0]] + OnceOnly(steps[1..], Seen(steps[0], seen))
  {
  }

  predicate IsRepeat(step: Step, seen: set<EventKey>) {
    KeyOf(step).Some? && KeyOf(step).value in seen
  }

  lemma RepeatIsForgotten(
    s: Store, step: Step, seen: set<EventKey>, owner: string -> nat, content: EventKey -> (string, ProviderOutcome))
    requires Inv(s) && Owned(s.payments, owner) && AllDealt(s, seen, content) && Tells(step, content)
    requires IsRepeat(step, seen)
    ensures Alike(s, After(s, step)) && Seen(step, seen) == seen
  {
    hide Inv, KeysResolve, Alike, After, Owned, Dealt;
    var key := KeyOf(step).value;
    assert seen + {key} == seen;
    RepeatChangesNothing(s, step, key, content(key), owner);
  }

  lemma HonestFirst(s: Store, steps: seq<Step>, owner: string -> nat)
    requires Inv(s) && |steps| > 0 && HonestRun(s, steps, owner)
    ensures HonestStep(s, steps[0], owner) && HonestRun(After(s, steps[0]), steps[1..], owner)
  {
  }

  predicate AllTell(steps: seq<Step>, content: EventKey -> (string, ProviderOutcome)) {
    forall k :: 0 <= k < |steps| ==> Tells(steps[k], content)
  }

  lemma TellsFirst(steps: seq<Step>, content: EventKey -> (string, ProviderOutcome))
    requires |steps| > 0 && AllTell(steps, content)
    ensures Tells(steps[0], content) && AllTell(steps[1..], content)
  {
  }

  lemma {:induction false} DroppingRepeats(
    s: Store, d: Store, steps: seq<Step>, seen: set<EventKey>,
    owner: string -> nat, content: EventKey -> (string, ProviderOutcome))
    requires Inv(s) && Inv(d) && Alike(s, d)
    requires Owned(s.payments, owner) && HonestRun(s, steps, owner)
    requires AllTell(steps, content) && AllDealt(s, seen, content)
    ensures Alike(Run(s, steps), Run(d, OnceOnly(steps, seen)))
    decreases |steps|
  {
    if |steps| > 0 {
      hide Inv, KeysResolve, Owned, Alike, After, Run, HonestRun, HonestStep, OnceOnly, AllDealt, AllTell, Seen, IsRepeat,
        Tells;
      var step, rest := steps[0], steps[1..];
      TellsFirst(steps, content);
      RunFirst(s, steps);
      OnceOnlyFirst(steps, seen);
      HonestFirst(s, steps, owner);
      StepIsDealt(s, step, seen, content);
      StepStaysOwned(s, step, owner);
      if IsRepeat(step, seen) {
        RepeatIsForgotten(s, step, seen, owner, content);
        AlikeSwaps(s, After(s, step), d);
        DroppingRepeats(After(s, step), d, rest, seen, owner, content);
      } else {
        StepAlike(s, d, step);
        DroppingRepeats(After(s, step), After(d, step), rest, Seen(step, seen), owner, content);
        RunPrepended(d, step, OnceOnly(rest, Seen(step, seen)));
      }
    }
  }

  lemma AlikeSwaps(s: Store, s': Store, d: Store)
    requires Alike(s, d) && Alike(s, s')
    ensures Alike(s', d)
  {
  }

  /**
    At-least-once refines exactly-once: with an honest provider whose event ids
    always carry the same content, any run ends in the store that the same run
    without its repeat deliveries ends in, except for the log of duplicates.
  */
  lemma AtLeastOnceRefinesExactlyOnce(
    s: Store, steps: seq<Step>, owner: string -> nat, content: EventKey -> (string, ProviderOutcome))
    requires Inv(s) && Owned(s.payments, owner) && HonestRun(s, steps, owner)
    requires forall k :: 0 <= k < |steps| ==> Tells(steps[k], content)
    ensures var full, once := Run(s, steps), Run(s, OnceOnly(steps, {}));
            && full == once.(events := full.events, callbacks := full.callbacks)
            && Filter(full.events, NotDuplicateEvent()) == Filter(once.events, NotDuplicateEvent())
            && forall t: TenantId :: Sum(full.events, Earned(t)) == Sum(once.events, Earned(t))
  {
    DroppingRepeats(s, s, steps, {}, owner, content);
    var full, once := Run(s, steps), Run(s, OnceOnly(steps, {}));
    AlikeTables(once, full);
    assert Forget(full).events == Forget(once).events;
    forall t: TenantId ensures Sum(full.events, Earned(t)) == Sum(once.events, Earned(t)) {
      assert TenantBooks(full, t) && TenantBooks(once, t);
    }
  }
}
