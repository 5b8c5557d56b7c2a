/**
  What each payment request does, written out: statuses, amounts and rows by name,
  and no function that the services are made of.
*/
module PaymentRequests {
  import opened Sums
  import opened Tables
  import opened Services
  import opened Invariants
  import opened MoneyMoves
  import opened Runs
  import opened History
  import opened Idempotency

  // ---------------------------------------------------------------- outcomes

  /** Where an outcome takes a payment, for every status; nowhere if the move is refused. */
  function Landing(from: PaymentStatus, outcome: ProviderOutcome): Option<PaymentStatus> {
    match outcome
    case OutcomeUnknown => Some(if from in {Initiated, Pending} then Unknown else from)
    case OutcomePending => if from in {Initiated, Pending} then Some(Pending) else None
    case OutcomeSuccessful => if from in {Initiated, Pending, Unknown, Successful} then Some(Successful) else None
    case OutcomeFailed => if from in {Initiated, Pending, Unknown, Failed} then Some(Failed) else None
  }

  /** The payment once it is in a status; a final one stamps the time. */
  function Landed(p: Payment, to: PaymentStatus, now: Time): Payment {
    if to == p.status then p
    else if to in {Successful, Failed} then p.(status := to, completedAt := Some(now))
    else p.(status := to)
  }

  /** The rows of a first success: three entries, an event, an allocation if a bill is behind, and a receipt. */
  predicate SuccessWritten(s: Store, s': Store, i: nat)
    requires i < |s.payments| && s.payments[i].number < |s.numbers|
  {
    var p, owner := s.payments[i], s.numbers[s.payments[i].number].owner;
    && s'.ledger == s.ledger
                    + [LedgerEntry(p.tenant, PaymentReceived, Customer, p.amount, OfPayment(i), None)]
                    + [LedgerEntry(p.tenant, InstitutionEntitlement, Institution, p.amount, OfPayment(i), None)]
                    + [LedgerEntry(p.tenant, PlatformPaymentFee, Platform, 5000, OfPayment(i), None)]
    && s'.events == s.events
                    + [RevenueEvent(p.tenant, PaymentSuccessful, 5000, OfPayment(i), Some(|s.ledger| + 2), None)]
    && s'.allocations == s.allocations
                         + (if owner.ForBill? then [Allocation(p.tenant, i, owner.bill, p.amount)] else [])
    && |s'.receipts| == |s.receipts| + 1
    && s'.receipts[..|s.receipts|] == s.receipts
    && var receipt := s'.receipts[|s.receipts|];
       && receipt.tenant == p.tenant && receipt.payment == i && receipt.amount == p.amount
       && receipt.bill == (if owner.ForBill? then Some(owner.bill) else None)
  }

  predicate SameMoneyRows(s: Store, s': Store) {
    s'.ledger == s.ledger && s'.allocations == s.allocations && s'.receipts == s.receipts && s'.bills == s.bills
  }

  /** What an outcome that is not refused writes. */
  predicate OutcomeWritten(s: Store, s': Store, i: nat, to: PaymentStatus, now: Time)
    requires i < |s.payments| && s.payments[i].number < |s.numbers|
  {
    var p := s.payments[i];
    && s'.payments == s.payments[i := Landed(p, to, now)]
    && s' == s.(payments := s'.payments, bills := s'.bills, ledger := s'.ledger, events := s'.events,
                allocations := s'.allocations, receipts := s'.receipts)
    && if to == p.status then SameMoneyRows(s, s') && s'.events == s.events
       else if to == Successful then SuccessWritten(s, s', i)
       else
         && SameMoneyRows(s, s')
         && s'.events == s.events
                         + (if to == Failed then [RevenueEvent(p.tenant, PaymentFailed, 0, OfPayment(i), None, None)]
                            else [])
  }

  /** An outcome is refused, or lands, exactly as the table says, whatever the payment's status. */
  lemma OutcomeLandsByTable(s: Store, i: nat, outcome: ProviderOutcome, now: Time)
    requires KeysResolve(s) && AllBooks(s) && i < |s.payments|
    ensures var r, to := ApplyOutcome(s, i, outcome, now), Landing(s.payments[i].status, outcome);
            if to.None? then r == Raised(IllegalTransition)
            else r.Ok? && OutcomeWritten(s, r.value, i, to.value, now)
  {
    var p := s.payments[i];
    if outcome == OutcomeSuccessful && p.status in {Initiated, Pending, Unknown} {
      SucceedWrites(s, i, now);
      SuccessIsWritten(s, Succeed(s, i, now).value, i, now);
      hide Succeed, SuccessWritten;
    }
    hide AllBooks, KeysResolve;
  }

  lemma SuccessIsWritten(s: Store, s': Store, i: nat, now: Time)
    requires KeysResolve(s) && i < |s.payments| && SuccessRows(s, s', i, now)
    ensures SuccessWritten(s, s', i)
  {
  }

  // ---------------------------------------------------------------- initiating and querying

  /** The status that the reply to an initiation leaves its payment in. */
  function Opening(reply: Reply): PaymentStatus {
    match reply
    case TimedOut => Unknown
    case Refused => Failed
    case Answered(outcome, _) =>
      match outcome
      case OutcomeUnknown => Unknown
      case OutcomePending => Pending
      case OutcomeSuccessful => Successful
      case OutcomeFailed => Failed
  }

  lemma ReplyOpens(s: Store, i: nat, reply: Reply, now: Time)
    requires Inv(s) && i < |s.payments| && s.payments[i].status == Initiated && s.payments[i].completedAt.None?
    ensures var r := TakeReply(s, i, reply, now);
            && r.Ok?
            && r.value.payments == s.payments[i := s.payments[i].(
                 status := Opening(reply),
                 reference := if reply.Answered? then reply.reference else s.payments[i].reference,
                 completedAt := if Opening(reply) in {Successful, Failed} then Some(now) else None)]
  {
    if reply.Answered? {
      ReferenceKeepsInv(s, i, reply.reference);
      var s1 := SetReference(s, i, reply.reference);
      assert AllBooks(s1);
      OutcomeLandsByTable(s1, i, reply.outcome, now);
      hide Inv, KeysResolve, AllBooks, ApplyOutcome, SuccessWritten, SameMoneyRows;
    } else {
      hide Inv, KeysResolve;
    }
  }

  /** An initiation opens exactly the requested payment, unless its key is taken or its number does not exist. */
  lemma InitiationOpensOne(
    s: Store, number: nat, provider: ProviderId, amount: PositiveCents, key: string, reply: Reply, now: Time)
    requires Inv(s)
    ensures var r := Perform(s, Initiating(number, provider, amount, key, reply, now));
            if |s.numbers| <= number then r == Raised(NotFound)
            else if key != "" && exists j :: 0 <= j < |s.payments| && s.payments[j].tenant == s.numbers[number].tenant
                                             && s.payments[j].key == key
            then r == Ok(s)
            else
              && r.Ok?
              && r.value.payments == s.payments + [
                   Payment(s.numbers[number].tenant, number, provider, Opening(reply), amount, key,
                           if reply.Answered? then reply.reference else "",
                           if Opening(reply) in {Successful, Failed} then Some(now) else None,
                           None)]
  {
    if number < |s.numbers| {
      var tenant := s.numbers[number].tenant;
      KeyLookup(s.payments, tenant, key);
      var s1 := AddPayment(s, number, provider, amount, key);
      Preservation.AddPaymentKeepsInv(s, number, provider, amount, key);
      hide Inv, KeysResolve, TakeReply, Opening;
      ReplyOpens(s1, |s.payments|, reply, now);
    }
  }

  lemma KeyLookup(payments: seq<Payment>, tenant: TenantId, key: string)
    ensures Newest(payments, Keyed(tenant, key)).Some? <==>
            exists j :: 0 <= j < |payments| && payments[j].tenant == tenant && payments[j].key == key
  {
    if j :| 0 <= j < |payments| && payments[j].tenant == tenant && payments[j].key == key {
      assert Keyed(tenant, key)(payments[j]);
    }
  }

  /** A query raises without a payment, an answer or a legal move; else it learns a missing reference and lands. */
  lemma QueryLandsByTable(s: Store, i: nat, reply: Reply, now: Time)
    requires Inv(s)
    ensures var r := Perform(s, Querying(i, reply, now));
            && (r.Raised? <==> || |s.payments| <= i || !reply.Answered?
                               || Landing(s.payments[i].status, reply.outcome).None?)
            && (r.Ok? ==>
                  var p := s.payments[i];
                  var to := Landing(p.status, reply.outcome).value;
                  r.value.payments ==
                  s.payments[i := Landed(p, to, now).(reference := if p.reference == "" then reply.reference
                                                                   else p.reference)])
  {
    if i < |s.payments| && reply.Answered? {
      ReferenceKeepsInv(s, i, reply.reference);
      var s1 := LearnReference(s, i, reply.reference);
      assert AllBooks(s1);
      OutcomeLandsByTable(s1, i, reply.outcome, now);
      hide Inv, KeysResolve, AllBooks, ApplyOutcome, SuccessWritten, SameMoneyRows, Landing;
    } else {
      hide Inv, KeysResolve, QueryPayment;
    }
  }

  // ---------------------------------------------------------------- callbacks

  /** A forged delivery is logged under a blank id and no payment; a malformed one raises. */
  lemma ForgedAndMalformed(s: Store, provider: ProviderId, now: Time)
    requires KeysResolve(s)
    ensures Perform(s, CallingBack(provider, Forged, now)) ==
            Ok(s.(callbacks := s.callbacks + [CallbackEvent(provider, "", InvalidSignature, None)]))
    ensures Perform(s, CallingBack(provider, Malformed, now)) == Raised(ProviderFailure)
  {
  }

  /** A repeat of a filed event adds a duplicate row and, if a payment was matched, a zero-fee event on it. */
  lemma RepeatIsLogged(
    s: Store, provider: ProviderId, eventId: string, reference: string, outcome: ProviderOutcome, now: Time, k: nat)
    requires Inv(s) && eventId != "" && k < |s.callbacks|
    requires s.callbacks[k].provider == provider && s.callbacks[k].eventId == eventId
    ensures var matched := s.callbacks[k].payment;
            Perform(s, CallingBack(provider, Parsed(eventId, reference, outcome), now)) ==
            Ok(s.(callbacks := s.callbacks + [CallbackEvent(provider, "", Duplicate, matched)],
                  events := s.events + (if matched.Some? && matched.value < |s.payments|
                                        then [RevenueEvent(s.payments[matched.value].tenant, PaymentDuplicate, 0,
                                                           OfPayment(matched.value), None, None)]
                                        else [])))
  {
    assert CallbackLog(s.callbacks);
    assert Delivered(provider, eventId)(s.callbacks[k]);
    assert Newest(s.callbacks, Delivered(provider, eventId)) == Some(k);
    assert s.events + [] == s.events;
    hide Inv, KeysResolve, FirstDelivery;
  }

  /** An event that is new, or has a blank id. */
  predicate IsNewEvent(s: Store, provider: ProviderId, eventId: string) {
    eventId == "" || forall k :: 0 <= k < |s.callbacks| ==>
                                   s.callbacks[k].provider != provider || s.callbacks[k].eventId != eventId
  }

  /** A new event that no payment is waiting for is filed as unmatched, and nothing else happens. */
  lemma UnmatchedIsFiled(
    s: Store, provider: ProviderId, eventId: string, reference: string, outcome: ProviderOutcome, now: Time)
    requires KeysResolve(s) && IsNewEvent(s, provider, eventId)
    requires forall i :: 0 <= i < |s.payments| ==> s.payments[i].reference != reference
    ensures Perform(s, CallingBack(provider, Parsed(eventId, reference, outcome), now)) ==
            Ok(s.(callbacks := s.callbacks + [CallbackEvent(provider, eventId, Unmatched, None)]))
  {
    hide KeysResolve, ApplyOutcome, DuplicateDelivery;
  }

  /** A new event for a payment, the newest that carries its reference, is filed and lands by the table, or raises. */
  lemma MatchedLandsByTable(
    s: Store, provider: ProviderId, eventId: string, reference: string, outcome: ProviderOutcome, now: Time, i: nat)
    requires Inv(s) && IsNewEvent(s, provider, eventId)
    requires i < |s.payments| && s.payments[i].reference == reference
    requires forall j :: i < j < |s.payments| ==> s.payments[j].reference != reference
    ensures var r := Perform(s, CallingBack(provider, Parsed(eventId, reference, outcome), now));
            var to := Landing(s.payments[i].status, outcome);
            && (r.Raised? <==> to.None?)
            && (r.Ok? ==>
                  && r.value.payments == s.payments[i := Landed(s.payments[i], to.value, now)]
                  && r.value.callbacks == s.callbacks + [CallbackEvent(provider, eventId, Processed, Some(i))])
  {
    assert PaymentReferenced(reference)(s.payments[i]);
    assert Newest(s.payments, PaymentReferenced(reference)) == Some(i);
    var c := CallbackEvent(provider, eventId, Processed, Some(i));
    assert eventId != "" ==> Newest(s.callbacks, Delivered(provider, eventId)).None?;
    FilingKeepsInv(s, c);
    var s1 := LogCallback(s, c);
    assert AllBooks(s1);
    OutcomeLandsByTable(s1, i, outcome, now);
    hide Inv, KeysResolve, AllBooks, ApplyOutcome, SuccessWritten, SameMoneyRows, Landing, DuplicateDelivery;
  }

  // ---------------------------------------------------------------- refunds and reversals

  /**
    The rows of a confirmed refund or reversal: the payment in its new status, one
    event and, under clawback, one entry that takes back the fee that was charged.
  */
  predicate TakenBackWritten(s: Store, s': Store, i: nat, to: PaymentStatus, now: Time)
    requires i < |s.payments|
  {
    var p := s.payments[i];
    var eventKind := if to == Refunded then PaymentRefunded else PaymentReversed;
    var entryKind := if to == Refunded then Refund else Reversal;
    && s'.payments == s.payments[i := p.(status := to, completedAt := Some(now))]
    && s' == s.(payments := s'.payments, ledger := s'.ledger, events := s'.events)
    && if PolicyOf(s.policies, p.tenant) == Clawback
       then
         && |s'.ledger| == |s.ledger| + 1 && s'.ledger[..|s.ledger|] == s.ledger
         && var undo := s'.ledger[|s.ledger|];
            && undo == LedgerEntry(p.tenant, entryKind, Platform, -5000, OfPayment(i), undo.related)
            && undo.related.Some? && undo.related.value < |s.ledger|
            && s.ledger[undo.related.value] ==
               LedgerEntry(p.tenant, PlatformPaymentFee, Platform, 5000, OfPayment(i), None)
            && s'.events == s.events + [RevenueEvent(p.tenant, eventKind, -5000, OfPayment(i),
                                                     Some(|s.ledger|), Some(Clawback))]
       else
         && s'.ledger == s.ledger
         && s'.events == s.events + [RevenueEvent(p.tenant, eventKind, 0, OfPayment(i), None, Some(Retain))]
  }

  lemma CompensationIsWritten(s: Store, i: nat, to: PaymentStatus, now: Time)
    requires KeysResolve(s) && AllBooks(s) && i < |s.payments|
    requires s.payments[i].status == Successful && to in {Refunded, Reversed}
    ensures TakenBackWritten(s, TakeBack(s, i, to, now), i, to, now)
    ensures |TakeBack(s, i, to, now).payments| == |s.payments| && TakeBack(s, i, to, now).payments[i].status == to
  {
    TakeBackWrites(s, i, to, now);
    SuccessEventFound(s, i);
    hide AllBooks, KeysResolve, TakeBack, Filter;
  }

  /**
    A refund raises without a SUCCESSFUL payment or an answer. Otherwise the payment is
    refunded exactly when the provider confirms; on any other answer nothing changes.
  */
  lemma RefundedIffConfirmed(s: Store, i: nat, reply: Reply, now: Time)
    requires Inv(s)
    ensures var r := Perform(s, Refunding(i, reply, now));
            && (r.Raised? <==> |s.payments| <= i || s.payments[i].status != Successful || !reply.Answered?)
            && (r.Ok? ==>
                  && i < |r.value.payments|
                  && (r.value.payments[i].status == Refunded <==> reply.outcome == OutcomeSuccessful)
                  && (reply.outcome == OutcomeSuccessful ==> TakenBackWritten(s, r.value, i, Refunded, now))
                  && (reply.outcome != OutcomeSuccessful ==> r.value == s))
  {
    assert AllBooks(s);
    assert Perform(s, Refunding(i, reply, now)) ==
           if i < |s.payments| then RefundPayment(s, i, reply, now) else Raised(NotFound);
    hide Inv, KeysResolve, AllBooks, Compensate, SetStatus, TakenBackWritten, Perform;
    if i < |s.payments| && s.payments[i].status == Successful {
      CompensationIsWritten(s, i, Refunded, now);
    }
  }

  /** The same for a reversal. */
  lemma ReversedIffConfirmed(s: Store, i: nat, reply: Reply, now: Time)
    requires Inv(s)
    ensures var r := Perform(s, Reversing(i, reply, now));
            && (r.Raised? <==> |s.payments| <= i || s.payments[i].status != Successful || !reply.Answered?)
            && (r.Ok? ==>
                  && i < |r.value.payments|
                  && (r.value.payments[i].status == Reversed <==> reply.outcome == OutcomeSuccessful)
                  && (reply.outcome == OutcomeSuccessful ==> TakenBackWritten(s, r.value, i, Reversed, now))
                  && (reply.outcome != OutcomeSuccessful ==> r.value == s))
  {
    assert AllBooks(s);
    assert Perform(s, Reversing(i, reply, now)) ==
           if i < |s.payments| then ReversePayment(s, i, reply, now) else Raised(NotFound);
    hide Inv, KeysResolve, AllBooks, Compensate, SetStatus, TakenBackWritten, Perform;
    if i < |s.payments| && s.payments[i].status == Successful {
      CompensationIsWritten(s, i, Reversed, now);
    }
  }

  // ---------------------------------------------------------------- the policy that a refund follows

  /** The policy that a tenant set last, or clawback if it never set one. */
  function LastPolicy(steps: seq<Step>, tenant: TenantId): Policy {
    if |steps| == 0 then Clawback
    else
      var last := steps[|steps| - 1];
      if last.ChangingPolicy? && last.tenant == tenant then last.policy else LastPolicy(steps[..|steps| - 1], tenant)
  }

  lemma StepChangesPolicy(s: Store, step: Step, tenant: TenantId)
    requires Inv(s)
    ensures PolicyOf(After(s, step).policies, tenant) ==
            if step.ChangingPolicy? && step.tenant == tenant then step.policy else PolicyOf(s.policies, tenant)
  {
    if MovesPayments(step) {
      MoneyStepKeepsCatalogue(s, step);
      hide Inv, KeysResolve, Perform;
    } else {
      hide Inv, KeysResolve, IssueBill, GetOrCreateNumber, NewBatch;
      OtherStepKeepsPolicy(s, step, tenant);
    }
  }

  lemma OtherStepKeepsPolicy(s: Store, step: Step, tenant: TenantId)
    requires KeysResolve(s) && !MovesPayments(step)
    ensures Perform(s, step).Ok? ==>
              PolicyOf(Perform(s, step).value.policies, tenant) ==
              if step.ChangingPolicy? && step.tenant == tenant then step.policy else PolicyOf(s.policies, tenant)
  {
  }

  lemma {:induction false} LastPolicyIsInForce(steps: seq<Step>, tenant: TenantId)
    ensures Inv(EMPTY_STORE)
    ensures PolicyOf(Run(EMPTY_STORE, steps).policies, tenant) == LastPolicy(steps, tenant)
    decreases |steps|
  {
    EmptyStoreIsSound();
    hide Inv, After, PolicyOf;
    if |steps| > 0 {
      var last := |steps| - 1;
      LastPolicyIsInForce(steps[..last], tenant);
      StepChangesPolicy(Run(EMPTY_STORE, steps[..last]), steps[last], tenant);
      RunOneMore(EMPTY_STORE, steps[..last], steps[last]);
      assert steps == steps[..last] + [steps[last]];
    } else {
      EmptyStoreHasNoPolicy(tenant);
    }
  }

  lemma EmptyStoreHasNoPolicy(tenant: TenantId)
    ensures PolicyOf(EMPTY_STORE.policies, tenant) == Clawback
  {
  }

  /**
    After any run, a confirmed refund or reversal records the policy that its tenant set last
    in that run, or clawback, and takes the fee of 50.00 back exactly under clawback.
  */
  lemma TakingBackFollowsTheLastPolicy(steps: seq<Step>, i: nat, reference: string, now: Time, refund: bool)
    ensures Inv(EMPTY_STORE)
    ensures var s := Run(EMPTY_STORE, steps);
            i < |s.payments| && s.payments[i].status == Successful ==>
              var reply := Reply.Answered(OutcomeSuccessful, reference);
              var s' := After(s, if refund then Refunding(i, reply, now) else Reversing(i, reply, now));
              var policy := LastPolicy(steps, s.payments[i].tenant);
              && |s'.events| == |s.events| + 1
              && s'.events[|s.events|].policy == Some(policy)
              && s'.events[|s.events|].amount == (if policy == Clawback then -5000 else 0)
              && (policy == Retain ==> s'.ledger == s.ledger)
  {
    EmptyStoreIsSound();
    var s := Run(EMPTY_STORE, steps);
    if i < |s.payments| && s.payments[i].status == Successful {
      var reply := Reply.Answered(OutcomeSuccessful, reference);
      RefundedIffConfirmed(s, i, reply, now);
      ReversedIffConfirmed(s, i, reply, now);
      LastPolicyIsInForce(steps, s.payments[i].tenant);
      hide Inv, KeysResolve, Perform, Run, LastPolicy, PolicyOf;
    }
  }
}
