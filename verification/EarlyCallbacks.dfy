/**
  A callback that comes before the payment has learnt its reference: it is filed
  as unmatched, and from then on every redelivery of it is a duplicate.
*/
module EarlyCallbacks {
  import opened Sums
  import opened Tables
  import opened Services
  import opened Invariants
  import opened Runs
  import opened History
  import opened CallbackRace
  import Reconciliation

  function Referenced(s: Store, e: Event): Option<nat> {
    Newest(s.payments, PaymentReferenced(e.reference))
  }

  function UnmatchedRow(e: Event): CallbackEvent {
    CallbackEvent(e.provider, e.eventId, Unmatched, None)
  }

  lemma EarlyDeliveryIsFiled(s: Store, e: Event, now: Time)
    requires Inv(s) && Original(s, e).None? && Referenced(s, e).None?
    ensures After(s, Delivering(e, now)) == LogCallback(s, UnmatchedRow(e))
  {
    hide Inv, Services.ApplyOutcome;
  }

  /** The row of a filed event is the one that a redelivery finds, whatever came in between. */
  lemma FiledRowIsFound(s: Store, e: Event, k: nat)
    requires CallbackLog(s.callbacks) && e.eventId != "" && k < |s.callbacks|
    requires s.callbacks[k].provider == e.provider && s.callbacks[k].eventId == e.eventId
    ensures Original(s, e) == Some(k)
  {
    assert Delivered(e.provider, e.eventId)(s.callbacks[k]);
  }

  lemma RedeliveryIsIgnored(s: Store, e: Event, k: nat, now: Time)
    requires Inv(s) && e.eventId != "" && k < |s.callbacks| && s.callbacks[k] == UnmatchedRow(e)
    ensures After(s, Delivering(e, now)) == LogCallback(s, CallbackEvent(e.provider, "", Duplicate, None))
  {
    assert CallbackLog(s.callbacks);
    FiledRowIsFound(s, e, k);
    hide Inv, Services.ApplyOutcome;
  }

  /**
    An event that was first delivered before any payment carried its reference has
    no effect, then or ever: whatever is requested in between, and even if a payment
    has learnt the reference, its redelivery adds one row to the callback log.
  */
  lemma EarlyDeliveryIsLost(s: Store, e: Event, now: Time, steps: seq<Step>, later: Time)
    requires Inv(s) && e.eventId != "" && Original(s, e).None? && Referenced(s, e).None?
    ensures var filed := After(s, Delivering(e, now));
            var between := Run(filed, steps);
            && filed == LogCallback(s, UnmatchedRow(e))
            && After(between, Delivering(e, later)) ==
               LogCallback(between, CallbackEvent(e.provider, "", Duplicate, None))
  {
    EarlyDeliveryIsFiled(s, e, now);
    var filed := After(s, Delivering(e, now));
    RunEvolves(filed, steps);
    hide Inv, After, Run;
    var between := Run(filed, steps);
    assert filed.callbacks[|s.callbacks|] == between.callbacks[|s.callbacks|];
    RedeliveryIsIgnored(between, e, |s.callbacks|, later);
  }

  /** If the reference is known by then, a first delivery moves its payment to the outcome, or is refused for good. */
  lemma TimelyDeliveryCounts(s: Store, e: Event, now: Time)
    requires Inv(s) && Original(s, e).None? && Referenced(s, e).Some? && e.outcome != OutcomeUnknown
    ensures var i := Referenced(s, e).value;
            var s' := After(s, Delivering(e, now));
            && i < |s.payments| == |s'.payments|
            && s'.payments[i].status ==
               (if Refuses(s.payments[i].status, e.outcome) then s.payments[i].status else TargetOf(e.outcome))
            && (s' == s <==> Refuses(s.payments[i].status, e.outcome))
  {
    var i := Referenced(s, e).value;
    var s1 := LogCallback(s, CallbackEvent(e.provider, e.eventId, Processed, Some(i)));
    FilingKeepsInv(s, e, i);
    OutcomeKeepsInv(s1, i, e.outcome, now);
    OutcomeLands(s1, i, e.outcome, now);
    hide Inv, Services.ApplyOutcome;
  }

  lemma FilingKeepsInv(s: Store, e: Event, i: nat)
    requires Inv(s) && Original(s, e).None?
    ensures var s1 := LogCallback(s, CallbackEvent(e.provider, e.eventId, Processed, Some(i)));
            Inv(s1) && KeysResolve(s1)
  {
    var c := CallbackEvent(e.provider, e.eventId, Processed, Some(i));
    assert forall k :: 0 <= k < |s.callbacks| ==> !Delivered(e.provider, e.eventId)(s.callbacks[k]);
    Preservation.LogKeepsInv(s, LogCallback(s, c));
  }

  lemma OutcomeLands(s: Store, i: nat, outcome: ProviderOutcome, now: Time)
    requires KeysResolve(s) && i < |s.payments| && outcome != OutcomeUnknown
    ensures var r := ApplyOutcome(s, i, outcome, now);
            r.Ok? ==> r.value.payments[i].status == TargetOf(outcome) && s.callbacks == r.value.callbacks
  {
  }

  // ---------------------------------------------------------------- a run of requests

  const EVENT: Event := Event(0, "E", "P", OutcomeSuccessful)

  const ASKING: Step := Querying(0, Answered(OutcomeUnknown, "P"), 2)

  /** The initiation timed out, the callback comes, and only then a query learns the reference. */
  const LATE_REFERENCE: seq<Step> :=
    Reconciliation.LOST_INITIATION + [Delivering(EVENT, 1)] + [ASKING]

  /**
    One callback event must lead to one financial event. Here the provider reports a
    success, twice, and the payment stays UNKNOWN with no receipt.
  */
  lemma SuccessIsNeverSeen()
    ensures Inv(EMPTY_STORE)
    ensures var s := Run(EMPTY_STORE, LATE_REFERENCE + [Delivering(EVENT, 3)]);
            && |s.payments| == 1 && s.payments[0].status == Unknown && s.payments[0].reference == EVENT.reference
            && s.receipts == []
            && |s.callbacks| == 2 && s.callbacks[0].outcome == Unmatched && s.callbacks[1].outcome == Duplicate
  {
    LostPaymentHasNoReference();
    var start := Reconciliation.LOST_INITIATION;
    hide Inv, Run, After, EMPTY_STORE, EVENT, Reconciliation.LOST_INITIATION;
    RunOneMore(EMPTY_STORE, start, Delivering(EVENT, 1));
    RunOneMore(EMPTY_STORE, start + [Delivering(EVENT, 1)], ASKING);
    RunOneMore(EMPTY_STORE, LATE_REFERENCE, Delivering(EVENT, 3));
    SuccessIsLost(Run(EMPTY_STORE, start));
  }

  lemma SuccessIsLost(s: Store)
    requires Inv(s) && |s.payments| == 1 && s.payments[0].status == Unknown && s.payments[0].reference == ""
    requires s.receipts == [] && s.callbacks == []
    ensures var s' := After(After(After(s, Delivering(EVENT, 1)), ASKING), Delivering(EVENT, 3));
            && |s'.payments| == 1 && s'.payments[0].status == Unknown && s'.payments[0].reference == EVENT.reference
            && s'.receipts == []
            && |s'.callbacks| == 2 && s'.callbacks[0].outcome == Unmatched && s'.callbacks[1].outcome == Duplicate
  {
    hide Inv, After;
    EarlyDeliveryIsFiled(s, EVENT, 1);
    var filed := After(s, Delivering(EVENT, 1));
    QueryLearns(filed);
    RedeliveryIsIgnored(After(filed, ASKING), EVENT, 0, 3);
  }

  lemma QueryLearns(s: Store)
    requires Inv(s) && |s.payments| == 1 && s.payments[0].status == Unknown && s.payments[0].reference == ""
    ensures After(s, ASKING) == SetReference(s, 0, "P")
  {
  }

  lemma LostPaymentHasNoReference()
    ensures Inv(EMPTY_STORE)
    ensures var s := Run(EMPTY_STORE, Reconciliation.LOST_INITIATION);
            && |s.payments| == 1 && s.payments[0].status == Unknown && s.payments[0].reference == ""
            && s.receipts == [] && s.callbacks == []
  {
    Reconciliation.FirstNumberIsCreated();
    var a, b := Reconciliation.LOST_INITIATION[0], Reconciliation.LOST_INITIATION[1];
    assert Reconciliation.LOST_INITIATION == [a, b];
    Reconciliation.TwoSteps(EMPTY_STORE, a, b);
    var s := After(EMPTY_STORE, a);
    NumberStepLogsNothing();
    LostInitiationLogsNothing(s);
  }

  lemma NumberStepLogsNothing()
    requires Inv(EMPTY_STORE)
    ensures var s := After(EMPTY_STORE, Reconciliation.LOST_INITIATION[0]);
            s.receipts == [] && s.callbacks == []
  {
  }

  lemma LostInitiationLogsNothing(s: Store)
    requires Inv(s) && |s.numbers| == 1 && s.payments == []
    ensures var s' := After(s, Reconciliation.LOST_INITIATION[1]);
            && |s'.payments| == 1 && s'.payments[0].status == Unknown && s'.payments[0].reference == ""
            && s'.receipts == s.receipts && s'.callbacks == s.callbacks
  {
  }
}
