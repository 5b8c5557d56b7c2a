/**
  The services as they run: one desk whose tables are updated in place, row by
  row, each request a transaction that is rolled back when it raises. Every
  request does to the tables exactly what its specification in Services says.
*/
module Desk {
  import opened Sums
  import opened Sweeps
  import opened Tables
  import opened Services
  import opened Invariants
  import opened Runs
  import BillRequests

  /** The error that a specification raises, if it does. */
  function Failure<T>(r: Result<T>): Option<Error> {
    match r
    case Ok(_) => None
    case Raised(error) => Some(error)
  }

  /** The bulk update: every payment in the list points at the batch. */
  function Claiming(payments: seq<Payment>, claimed: set<nat>, batch: nat): seq<Payment> {
    seq(|payments|, i requires 0 <= i < |payments| =>
      if i in claimed then payments[i].(batch := Some(batch)) else payments[i])
  }

  lemma ClaimsOfClaimed(
    payments: seq<Payment>, claimed: set<nat>, batch: nat,
    tenant: TenantId, provider: ProviderId, start: Time, end: Time)
    requires forall k: nat :: k in claimed <==> k < |payments| && Claimable(payments[k], tenant, provider, start, end)
    ensures Claiming(payments, claimed, batch) == ClaimAll(payments, batch, tenant, provider, start, end)
  {
  }

  lemma FiguresOfClaimed(
    s: Store, claimed: set<nat>, gross: int, tenant: TenantId, provider: ProviderId, start: Time, end: Time)
    requires forall k: nat :: k in claimed <==>
                              k < |s.payments| && Claimable(s.payments[k], tenant, provider, start, end)
    requires gross == Sum(s.payments, ClaimedAmount(tenant, provider, start, end))
    ensures var fees := Sum(s.events, FeeFor(tenant, claimed));
            Batch(tenant, provider, start, end, gross, fees, 0, gross - fees - 0, None) ==
            NewBatch(s, tenant, provider, start, end)
  {
    SumMatch(s.events, FeeFor(tenant, claimed), s.events, ClaimedFee(s.payments, tenant, provider, start, end));
    hide Claimable;
  }

  class ServiceDesk {
    var policies: map<TenantId, Policy>
    var bills: seq<Bill>
    var numbers: seq<ControlNumber>
    var payments: seq<Payment>
    var ledger: seq<LedgerEntry>
    var events: seq<RevenueEvent>
    var allocations: seq<Allocation>
    var receipts: seq<Receipt>
    var batches: seq<Batch>
    var callbacks: seq<CallbackEvent>
    var runs: seq<ReconRun>
    var exceptions: seq<ReconException>

    function View(): Store
      reads this
    {
      Store(policies, bills, numbers, payments, ledger, events, allocations, receipts, batches, callbacks, runs, exceptions)
    }

    constructor ()
      ensures View() == EMPTY_STORE && Inv(View())
    {
      policies := map[];
      bills, numbers, payments, ledger, events, allocations := [], [], [], [], [], [];
      receipts, batches, callbacks, runs, exceptions := [], [], [], [], [];
      new;
      EmptyStoreIsSound();
    }

    /** The rollback of a request that raised. */
    method RollBack(saved: Store)
      modifies this
      ensures View() == saved
    {
      policies, bills, numbers, payments := saved.policies, saved.bills, saved.numbers, saved.payments;
      ledger, events, allocations, receipts := saved.ledger, saved.events, saved.allocations, saved.receipts;
      batches, callbacks, runs, exceptions := saved.batches, saved.callbacks, saved.runs, saved.exceptions;
    }

    // -------------------------------------------------------------- ledger and revenue

    method PostEntry(entry: LedgerEntry) returns (id: nat)
      modifies this
      ensures View() == Services.PostEntry(old(View()), entry)
      ensures id == |old(ledger)| && id < |ledger|
    {
      id := |ledger|;
      ledger := ledger + [entry];
    }

    method RecordEvent(event: RevenueEvent)
      modifies this
      ensures View() == Services.RecordEvent(old(View()), event)
    {
      events := events + [event];
    }

    method RecordControlNumberCreated(n: nat)
      requires n < |numbers|
      modifies this
      ensures View() == Services.RecordControlNumberCreated(old(View()), n)
    {
      var tenant := numbers[n].tenant;
      var entry := PostEntry(
        LedgerEntry(tenant, PlatformControlNumberFee, Platform, CONTROL_NUMBER_CREATION_FEE, OfNumber(n), None));
      RecordEvent(
        RevenueEvent(tenant, ControlNumberCreated, CONTROL_NUMBER_CREATION_FEE, OfNumber(n), Some(entry), None));
    }

    method RecordPaymentSuccessful(i: nat)
      requires i < |payments|
      modifies this
      ensures View() == Services.RecordPaymentSuccessful(old(View()), i)
    {
      var entry := PostEntry(FeeEntry(payments[i], i));
      RecordEvent(SuccessEvent(payments[i], i, entry));
    }

    method Compensate(i: nat, eventKind: EventKind, entryKind: EntryKind)
      requires i < |payments|
      modifies this
      ensures View() == Services.Compensate(old(View()), i, eventKind, entryKind)
    {
      var tenant := payments[i].tenant;
      var policy := PolicyOf(policies, tenant);
      var original := Newest(events, SuccessEventOf(i));
      var shouldClawBack := policy == Clawback && original.Some? && events[original.value].amount > 0;
      var entry := None;
      var amount := 0;
      if shouldClawBack {
        amount := -events[original.value].amount;
        var charged := events[original.value].entry;
        if charged.Some? && charged.value < |ledger| {
          var fee := ledger[charged.value];
          var id := PostEntry(LedgerEntry(fee.tenant, entryKind, fee.account, amount, fee.source, charged));
          entry := Some(id);
        }
      }
      RecordEvent(RevenueEvent(tenant, eventKind, amount, OfPayment(i), entry, Some(policy)));
    }

    // -------------------------------------------------------------- bills

    method TransitionBill(b: nat, status: BillStatus) returns (error: Option<Error>)
      requires b < |bills|
      modifies this
      ensures error == if MayMoveBill(old(bills[b].status), status) then None else Some(IllegalTransition)
      ensures View() == if error.None? then SetBillStatus(old(View()), b, status) else old(View())
    {
      if !MayMoveBill(bills[b].status, status) {
        return Some(IllegalTransition);
      }
      bills := bills[b := bills[b].(status := status)];
      return None;
    }

    /** Creates the bill with its items under the first of up to three numbers that is free, and issues it. */
    method InsertWithFreshNumber(tenant: TenantId, lines: seq<int>, reference: string, candidates: seq<string>)
      returns (r: Result<nat>)
      modifies this
      ensures var generated := Drawn(candidates, MAX_BILL_NUMBER_ATTEMPTS);
              var unused := FreshBillNumber(old(bills), tenant, generated);
              if unused.None? then r == Raised(Integrity) && View() == old(View())
              else && r == Ok(|old(bills)|)
                   && View() == AddBill(old(View()), Bill(tenant, unused.value, reference, Active, InvoiceTotal(lines)))
    {
      ghost var generated := Drawn(candidates, MAX_BILL_NUMBER_ATTEMPTS);
      var attempt := 0;
      while attempt < MAX_BILL_NUMBER_ATTEMPTS && attempt < |candidates|
        invariant attempt <= |generated|
        invariant View() == old(View())
        invariant FreshBillNumber(bills, tenant, generated) == FreshBillNumber(bills, tenant, generated[attempt..])
      {
        var taken := Newest(bills, BillNumbered(tenant, candidates[attempt]));
        assert generated[attempt..][0] == candidates[attempt];
        if taken.None? {
          var b := |bills|;
          bills := bills + [Bill(tenant, candidates[attempt], reference, Draft, 0)];
          bills := bills[b := bills[b].(total := InvoiceTotal(lines))];
          var error := TransitionBill(b, Active);
          return Ok(b);
        }
        assert generated[attempt..][1..] == generated[attempt + 1..];
        attempt := attempt + 1;
      }
      return Raised(Integrity);
    }

    /** get_or_create_bill and the issue of a bill that it created. */
    method IssueBill(tenant: TenantId, lines: seq<int>, reference: string, candidates: seq<string>)
      returns (r: Result<(nat, bool)>)
      requires Inv(View())
      modifies this
      ensures View() == After(old(View()), IssuingBill(tenant, lines, reference, candidates))
      ensures var spec := Services.IssueBill(old(View()), tenant, lines, reference, candidates);
              if spec.Ok? then r == Ok((spec.value.1, spec.value.2)) else r == Raised(spec.error)
    {
      hide Inv;
      if reference != "" {
        var existing := Newest(bills, BillReferenced(tenant, reference));
        if existing.Some? {
          return Ok((existing.value, false));
        }
      }
      var inserted := InsertWithFreshNumber(tenant, lines, reference, candidates);
      match inserted
      case Ok(b) => return Ok((b, true));
      case Raised(error) => return Raised(error);
    }

    method CancelBill(b: nat) returns (error: Option<Error>)
      requires Inv(View())
      modifies this
      ensures View() == After(old(View()), CancellingBill(b))
      ensures error == Failure(Perform(old(View()), CancellingBill(b)))
    {
      hide Inv;
      if |bills| <= b {
        return Some(NotFound);
      }
      error := TransitionBill(b, Cancelled);
    }

    // -------------------------------------------------------------- control numbers

    /** The insert under its unique constraints, with the fee it triggers; a conflict leaves no trace. */
    method InsertNumber(row: ControlNumber) returns (inserted: bool)
      requires row.status == NumberActive
      modifies this
      ensures inserted <==> Newest(old(numbers), NumberValued(row.value)).None?
                            && Newest(old(numbers), Reusable(row.owner)).None?
      ensures View() == if inserted then CreateNumber(old(View()), row) else old(View())
    {
      var valueTaken := Newest(numbers, NumberValued(row.value));
      var ownerTaken := Newest(numbers, Reusable(row.owner));
      if valueTaken.Some? || ownerTaken.Some? {
        return false;
      }
      numbers := numbers + [row];
      RecordControlNumberCreated(|numbers| - 1);
      return true;
    }

    /** The retry loop: up to five generated values, until one is not taken. */
    method InsertWithFreshValue(tenant: TenantId, owner: Owner, candidates: seq<string>, expiresAt: Option<Time>)
      returns (r: Result<nat>)
      requires Newest(numbers, Reusable(owner)).None?
      modifies this
      ensures var generated := Drawn(candidates, MAX_GENERATION_ATTEMPTS);
              var unused := FreshValue(old(numbers), generated);
              if unused.None? then r == Raised(Integrity) && View() == old(View())
              else && r == Ok(|old(numbers)|)
                   && View() == CreateNumber(
                                  old(View()), ControlNumber(tenant, unused.value, owner, NumberActive, expiresAt))
    {
      ghost var generated := Drawn(candidates, MAX_GENERATION_ATTEMPTS);
      var attempt := 0;
      while attempt < MAX_GENERATION_ATTEMPTS && attempt < |candidates|
        invariant attempt <= |generated|
        invariant View() == old(View())
        invariant FreshValue(numbers, generated) == FreshValue(numbers, generated[attempt..])
      {
        assert generated[attempt..][0] == candidates[attempt];
        var n := |numbers|;
        var inserted := InsertNumber(ControlNumber(tenant, candidates[attempt], owner, NumberActive, expiresAt));
        if inserted {
          return Ok(n);
        }
        // With one client at a time the re-read finds no winner: the value was taken. See NumberRace.
        assert Newest(numbers, Reusable(owner)).None?;
        assert generated[attempt..][1..] == generated[attempt + 1..];
        attempt := attempt + 1;
      }
      return Raised(Integrity);
    }

    method GetOrCreateNumber(tenant: TenantId, owner: Owner, candidates: seq<string>, expiresAt: Option<Time>)
      returns (r: Result<(nat, bool)>)
      requires Inv(View())
      modifies this
      ensures View() == After(old(View()), RequestingNumber(tenant, owner, candidates, expiresAt))
      ensures var spec := Services.GetOrCreateNumber(old(View()), tenant, owner, candidates, expiresAt);
              if !OwnerFound(old(View()), tenant, owner) then r == Raised(NotFound)
              else if spec.Ok? then r == Ok((spec.value.1, spec.value.2)) else r == Raised(spec.error)
    {
      hide Inv;
      if owner.ForBill? && (|bills| <= owner.bill || bills[owner.bill].tenant != tenant) {
        return Raised(NotFound);
      }
      var existing := Newest(numbers, Reusable(owner));
      if existing.Some? {
        RecordEvent(ZeroEvent(numbers[existing.value].tenant, ControlNumberReused, OfNumber(existing.value)));
        return Ok((existing.value, false));
      }
      var inserted := InsertWithFreshValue(tenant, owner, candidates, expiresAt);
      match inserted
      case Ok(n) => return Ok((n, true));
      case Raised(error) => return Raised(error);
    }

    method CancelNumber(n: nat) returns (error: Option<Error>)
      requires Inv(View())
      modifies this
      ensures View() == After(old(View()), CancellingNumber(n))
      ensures error == Failure(Perform(old(View()), CancellingNumber(n)))
    {
      hide Inv;
      if |numbers| <= n {
        return Some(NotFound);
      }
      numbers := numbers[n := numbers[n].(status := NumberCancelled)];
      return None;
    }

    /** The count is of the rows that this call expired. */
    method ExpireOverdue(only: Option<TenantId>, now: Time) returns (count: nat)
      requires Inv(View())
      modifies this
      ensures View() == After(old(View()), Expiring(only, now))
      ensures count == |set n | 0 <= n < |old(numbers)| && BillRequests.Due(old(numbers)[n], only, now)|
    {
      hide Inv;
      ghost var due := set n | 0 <= n < |numbers| && BillRequests.Due(numbers[n], only, now);
      var overdue := set n | 0 <= n < |numbers| && Overdue(numbers[n], only, now);
      assert overdue == due;
      count := |overdue|;
      numbers := seq(|numbers|, n requires 0 <= n < |numbers| reads this => Services.Expired(numbers[n], only, now));
      assert View() == Services.ExpireOverdue(old(View()), only, now);
    }

    method ChangePolicy(tenant: TenantId, policy: Policy)
      requires Inv(View())
      modifies this
      ensures View() == After(old(View()), ChangingPolicy(tenant, policy))
    {
      hide Inv;
      policies := policies[tenant := policy];
    }

    // -------------------------------------------------------------- payments

    /** Payment.transition_to. */
    method TransitionTo(i: nat, status: PaymentStatus, now: Time) returns (error: Option<Error>)
      requires i < |payments|
      modifies this
      ensures error == if MayMove(old(payments[i].status), status) then None else Some(IllegalTransition)
      ensures View() == if error.None? then SetStatus(old(View()), i, status, now) else old(View())
    {
      if !MayMove(payments[i].status, status) {
        return Some(IllegalTransition);
      }
      payments := payments[i := payments[i].(status := status)];
      if status in {Successful, Failed, Reversed, Refunded} {
        payments := payments[i := payments[i].(completedAt := Some(now))];
      }
      return None;
    }

    method PostSettlementEntries(i: nat)
      requires i < |payments|
      modifies this
      ensures View() == Services.PostSettlementEntries(old(View()), i)
    {
      var received := PostEntry(ReceivedEntry(payments[i], i));
      var entitled := PostEntry(EntitlementEntry(payments[i], i));
    }

    method AllocateToBill(i: nat)
      requires KeysResolve(View()) && i < |payments|
      modifies this
      ensures View() == Services.AllocateToBill(old(View()), i)
    {
      var owner := numbers[payments[i].number].owner;
      if !owner.ForBill? {
        return;
      }
      var b := owner.bill;
      allocations := allocations + [Allocation(payments[i].tenant, i, b, payments[i].amount)];
      if bills[b].status !in {Active, PartiallyPaid} {
        return;
      }
      var balance := bills[b].total - AmountPaid(allocations, b);
      if balance <= 0 {
        var error := TransitionBill(b, Paid);
      } else if bills[b].status == Active {
        var error := TransitionBill(b, PartiallyPaid);
      }
    }

    method GenerateReceipt(i: nat) returns (error: Option<Error>)
      requires KeysResolve(View()) && i < |payments|
      modifies this
      ensures var r := Services.GenerateReceipt(old(View()), i);
              error == Failure(r) && View() == if r.Ok? then r.value else old(View())
    {
      if Newest(receipts, ReceiptOf(i)).Some? {
        return None;
      }
      if payments[i].status != Successful {
        return Some(NoReceipt);
      }
      var owner := numbers[payments[i].number].owner;
      var bill, remaining := None, None;
      if owner.ForBill? {
        bill := Some(owner.bill);
        remaining := Some(bills[owner.bill].total - AmountPaid(allocations, owner.bill));
      }
      receipts := receipts + [Receipt(payments[i].tenant, i, bill, payments[i].amount, remaining)];
      return None;
    }

    /** The status is moved first, then its effects follow in order. */
    method ApplyOutcome(i: nat, outcome: ProviderOutcome, now: Time) returns (error: Option<Error>)
      requires KeysResolve(View()) && i < |payments|
      modifies this
      ensures var r := Services.ApplyOutcome(old(View()), i, outcome, now);
              error == Failure(r) && (r.Ok? ==> View() == r.value)
    {
      if outcome == OutcomeUnknown {
        if payments[i].status in {Initiated, Pending} {
          error := TransitionTo(i, Unknown, now);
        }
        return None;
      }
      var target := TargetOf(outcome);
      if payments[i].status == target {
        return None;
      }
      error := TransitionTo(i, target, now);
      if error.Some? {
        return;
      }
      if target == Successful {
        PostSettlementEntries(i);
        RecordPaymentSuccessful(i);
        AllocateToBill(i);
        error := GenerateReceipt(i);
      } else if target == Failed {
        RecordEvent(ZeroEvent(payments[i].tenant, PaymentFailed, OfPayment(i)));
      }
    }

    /** What a new payment makes of the provider's answer, of a lost one, or of an error. */
    method TakeReply(i: nat, reply: Reply, now: Time)
      requires KeysResolve(View()) && i < |payments| && payments[i].status == Initiated
      modifies this
      ensures var r := Services.TakeReply(old(View()), i, reply, now);
              r.Ok? ==> View() == r.value
    {
      match reply {
        case TimedOut =>
          var error := TransitionTo(i, Unknown, now);
        case Refused =>
          var error := TransitionTo(i, Failed, now);
          RecordEvent(ZeroEvent(payments[i].tenant, PaymentFailed, OfPayment(i)));
        case Answered(outcome, reference) =>
          payments := payments[i := payments[i].(reference := reference)];
          var error := ApplyOutcome(i, outcome, now);
      }
    }

    method InitiatePayment(
      number: nat, provider: ProviderId, amount: PositiveCents, key: string, reply: Reply, now: Time)
      returns (r: Result<nat>)
      requires Inv(View())
      modifies this
      ensures View() == After(old(View()), Initiating(number, provider, amount, key, reply, now))
      ensures r.Raised? <==> |old(numbers)| <= number
      ensures r.Ok? ==>
                var spec := Services.InitiatePayment(old(View()), number, provider, amount, key, reply, now);
                spec.Ok? && r.value == spec.value.1
    {
      if |numbers| <= number {
        return Raised(NotFound);
      }
      InitiationNeverRaises(View(), number, provider, amount, key, reply, now);
      assert KeysResolve(View());
      hide Inv, KeysResolve, Services.InitiatePayment;
      var i := Initiate(number, provider, amount, key, reply, now);
      return Ok(i);
    }

    method Initiate(number: nat, provider: ProviderId, amount: PositiveCents, key: string, reply: Reply, now: Time)
      returns (i: nat)
      requires KeysResolve(View()) && number < |numbers|
      modifies this
      ensures var spec := Services.InitiatePayment(old(View()), number, provider, amount, key, reply, now);
              spec.Ok? ==> spec.value == (View(), i)
    {
      hide Services.TakeReply;
      if key != "" {
        var existing := Newest(payments, Keyed(numbers[number].tenant, key));
        if existing.Some? {
          return existing.value;
        }
      }
      i := |payments|;
      payments := payments +
        [Payment(numbers[number].tenant, number, provider, Initiated, amount, key, "", None, None)];
      TakeReply(i, reply, now);
    }

    method Query(i: nat, reply: Reply, now: Time) returns (error: Option<Error>)
      requires KeysResolve(View()) && i < |payments|
      modifies this
      ensures var r := Services.QueryPayment(old(View()), i, reply, now);
              error == Failure(r) && (r.Ok? ==> View() == r.value)
    {
      if !reply.Answered? {
        return Some(ProviderFailure);
      }
      if reply.reference != "" && payments[i].reference == "" {
        payments := payments[i := payments[i].(reference := reply.reference)];
      }
      error := ApplyOutcome(i, reply.outcome, now);
    }

    method QueryPayment(i: nat, reply: Reply, now: Time) returns (error: Option<Error>)
      requires Inv(View())
      modifies this
      ensures View() == After(old(View()), Querying(i, reply, now))
      ensures error == Failure(Perform(old(View()), Querying(i, reply, now)))
    {
      if |payments| <= i {
        return Some(NotFound);
      }
      assert KeysResolve(View());
      hide Inv, KeysResolve, Services.QueryPayment;
      var saved := View();
      error := Query(i, reply, now);
      if error.Some? {
        RollBack(saved);
      }
    }

    method ProcessCallback(provider: ProviderId, delivery: Delivery, now: Time) returns (error: Option<Error>)
      requires Inv(View())
      modifies this
      ensures View() == After(old(View()), CallingBack(provider, delivery, now))
      ensures error == Failure(Perform(old(View()), CallingBack(provider, delivery, now)))
    {
      assert KeysResolve(View());
      hide Inv;
      if delivery.Forged? {
        callbacks := callbacks + [CallbackEvent(provider, "", InvalidSignature, None)];
        return None;
      }
      if delivery.Malformed? {
        return Some(ProviderFailure);
      }
      var original := Newest(callbacks, Delivered(provider, delivery.eventId));
      if delivery.eventId != "" && original.Some? {
        var matched := callbacks[original.value].payment;
        callbacks := callbacks + [CallbackEvent(provider, "", Duplicate, matched)];
        if matched.Some? && matched.value < |payments| {
          RecordEvent(ZeroEvent(payments[matched.value].tenant, PaymentDuplicate, OfPayment(matched.value)));
        }
        return None;
      }
      var found := Newest(payments, PaymentReferenced(delivery.reference));
      if found.None? {
        callbacks := callbacks + [CallbackEvent(provider, delivery.eventId, Unmatched, None)];
        return None;
      }
      var saved := View();
      callbacks := callbacks + [CallbackEvent(provider, delivery.eventId, Processed, found)];
      error := ApplyOutcome(found.value, delivery.outcome, now);
      if error.Some? {
        RollBack(saved);
      }
    }

    /** refund_payment and reverse_payment, which differ in the status they move to and the rows that say so. */
    method TakeBack(i: nat, target: PaymentStatus, reply: Reply, now: Time) returns (error: Option<Error>)
      requires Inv(View()) && target in {Refunded, Reversed}
      modifies this
      ensures var step := if target == Refunded then Refunding(i, reply, now) else Reversing(i, reply, now);
              View() == After(old(View()), step) && error == Failure(Perform(old(View()), step))
    {
      hide Inv;
      if |payments| <= i {
        return Some(NotFound);
      }
      if payments[i].status != Successful {
        return Some(NotSuccessful);
      }
      if !reply.Answered? {
        return Some(ProviderFailure);
      }
      if reply.outcome == OutcomeSuccessful {
        error := TransitionTo(i, target, now);
        if target == Refunded {
          Compensate(i, PaymentRefunded, Refund);
        } else {
          Compensate(i, PaymentReversed, Reversal);
        }
      }
      return None;
    }

    // -------------------------------------------------------------- settlement

    /** The unsettled payments of the period, and their gross amount. */
    method SelectClaimable(tenant: TenantId, provider: ProviderId, start: Time, end: Time)
      returns (claimed: set<nat>, gross: int)
      ensures forall k: nat :: k in claimed <==> k < |payments| && Claimable(payments[k], tenant, provider, start, end)
      ensures gross == Sum(payments, ClaimedAmount(tenant, provider, start, end))
    {
      claimed, gross := {}, 0;
      for i := 0 to |payments|
        invariant forall k: nat :: k in claimed <==> k < i && Claimable(payments[k], tenant, provider, start, end)
        invariant gross == Sum(payments[..i], ClaimedAmount(tenant, provider, start, end))
      {
        assert payments[..i + 1][..i] == payments[..i];
        var p := payments[i];
        if && p.tenant == tenant && p.provider == provider && p.status == Successful && p.batch.None?
           && p.completedAt.Some? && start <= p.completedAt.value < end
        {
          claimed := claimed + {i};
          gross := gross + p.amount;
        }
      }
      assert payments[..|payments|] == payments;
    }

    method GenerateBatch(tenant: TenantId, provider: ProviderId, start: Time, end: Time) returns (batch: nat)
      requires Inv(View())
      modifies this
      ensures View() == After(old(View()), Settling(tenant, provider, start, end))
      ensures batch == |old(batches)|
    {
      hide Inv, KeysResolve, Services.GenerateBatch;
      batch := ClaimIntoBatch(tenant, provider, start, end);
    }

    /** The batch is created with its totals first, then the selected payments are pointed at it. */
    method ClaimIntoBatch(tenant: TenantId, provider: ProviderId, start: Time, end: Time) returns (batch: nat)
      modifies this
      ensures View() == Services.GenerateBatch(old(View()), tenant, provider, start, end)
      ensures batch == |old(batches)|
    {
      hide Claimable, ClaimAll, Claiming, Sum, NewBatch;
      var claimed, gross := SelectClaimable(tenant, provider, start, end);
      var fees := Sum(events, FeeFor(tenant, claimed));
      ClaimsOfClaimed(payments, claimed, |batches|, tenant, provider, start, end);
      FiguresOfClaimed(View(), claimed, gross, tenant, provider, start, end);
      batch := |batches|;
      batches := batches + [Batch(tenant, provider, start, end, gross, fees, 0, gross - fees - 0, None)];
      payments := Claiming(payments, claimed, batch);
    }

    method CompleteBatch(k: nat, reference: string) returns (error: Option<Error>)
      requires Inv(View())
      modifies this
      ensures View() == After(old(View()), CompletingBatch(k, reference))
      ensures error == Failure(Perform(old(View()), CompletingBatch(k, reference)))
    {
      hide Inv;
      if |batches| <= k {
        return Some(NotFound);
      }
      batches := batches[k := batches[k].(completed := Some(reference))];
      return None;
    }

    // -------------------------------------------------------------- reconciliation

    /** One UNKNOWN payment: query it, then count it as resolved or open an exception for it. */
    method ResolveUnknownPayment(run: nat, counters: ReconRun, i: nat, reply: Reply, now: Time)
      returns (error: Option<Error>, tally: ReconRun)
      requires KeysResolve(View()) && i < |payments| && IsUnknown(payments[i], counters.tenant)
      modifies this
      ensures var q := Services.QueryPayment(old(View()), i, reply, now);
              error == Failure(q) && (q.Ok? ==> (View(), tally) == Judge(q.value, run, counters, i))
      ensures error.None? ==> KeysResolve(View()) && |payments| == |old(payments)|
    {
      tally := counters;
      error := Query(i, reply, now);
      if error.None? {
        tally := tally.(checked := tally.checked + 1);
        if payments[i].status != Unknown {
          tally := tally.(resolved := tally.resolved + 1);
        } else {
          exceptions := exceptions + [ReconException(payments[i].tenant, run, i, StuckUnknown)];
          tally := tally.(exceptions := tally.exceptions + 1);
        }
      }
    }

    /** _resolve_unknown_payments, newest payment first. */
    method ResolveUnknownPayments(run: nat, blank: ReconRun, ask: nat -> Reply, now: Time)
      returns (error: Option<Error>, tally: ReconRun)
      requires KeysResolve(View())
      modifies this
      ensures var r := Sweep<Pass>(Visiting(run, ask, now), (old(View()), blank), |old(payments)|);
              error == Failure(r) && (r.Ok? ==> r.value == (View(), tally))
    {
      hide Services.QueryPayment, Judge;
      ghost var visit := Visiting(run, ask, now);
      ghost var whole := Sweep<Pass>(visit, (View(), blank), |payments|);
      tally := blank;
      var i: nat := |payments|;
      while i > 0
        invariant i <= |payments| && KeysResolve(View())
        invariant whole == Sweep<Pass>(visit, (View(), tally), i)
      {
        i := i - 1;
        ghost var before: Pass := (View(), tally);
        if payments[i].tenant == tally.tenant && payments[i].status == Unknown {
          error, tally := ResolveUnknownPayment(run, tally, i, ask(i), now);
          hide KeysResolve;
          assert visit(before, i) == Visit(before.0, run, before.1, ask, i, now);
          if error.Some? {
            return;
          }
          assert visit(before, i) == Ok((View(), tally));
        }
      }
      return None, tally;
    }

    /** One settled payment against the provider's view of it. */
    method CheckSettledPayment(run: nat, counters: ReconRun, i: nat, reply: Reply) returns (tally: ReconRun)
      requires i < |payments| && IsSettled(payments[i], counters.tenant) && reply.Answered?
      modifies this
      ensures var verdict := Discrepancy(old(payments[i].status), reply.outcome);
              if verdict.Some?
              then && View() == OpenException(old(View()), run, i, verdict.value)
                   && tally == counters.(checked := counters.checked + 1, exceptions := counters.exceptions + 1)
              else && View() == old(View())
                   && tally == counters.(checked := counters.checked + 1, matched := counters.matched + 1)
    {
      var p := payments[i];
      tally := counters.(checked := counters.checked + 1);
      if reply.outcome == OutcomeUnknown {
        exceptions := exceptions + [ReconException(p.tenant, run, i, MissingAtProvider)];
        tally := tally.(exceptions := tally.exceptions + 1);
      } else if TargetOf(reply.outcome) != p.status {
        exceptions := exceptions + [ReconException(p.tenant, run, i, StatusMismatch)];
        tally := tally.(exceptions := tally.exceptions + 1);
      } else {
        tally := tally.(matched := tally.matched + 1);
      }
    }

    /** _check_settled_payments: a mismatch opens an exception and corrects nothing. */
    method CheckSettledPayments(run: nat, resolved: ReconRun, check: string -> Reply)
      returns (error: Option<Error>, tally: ReconRun)
      modifies this
      ensures var r := Sweep<Pass>(Comparing(run, check), (old(View()), resolved), |old(payments)|);
              error == Failure(r) && (r.Ok? ==> r.value == (View(), tally))
    {
      ghost var compare := Comparing(run, check);
      ghost var whole := Sweep<Pass>(compare, (View(), resolved), |payments|);
      tally := resolved;
      var i: nat := |payments|;
      while i > 0
        invariant i <= |payments|
        invariant whole == Sweep<Pass>(compare, (View(), tally), i)
      {
        i := i - 1;
        ghost var before: Pass := (View(), tally);
        if payments[i].tenant == tally.tenant && payments[i].status in {Successful, Failed} && payments[i].reference != "" {
          var reply := check(payments[i].reference);
          if !reply.Answered? {
            return Some(ProviderFailure), tally;
          }
          tally := CheckSettledPayment(run, tally, i, reply);
          assert compare(before, i) == Ok((View(), tally));
        }
      }
      return None, tally;
    }

    method Reconcile(tenant: TenantId, ask: nat -> Reply, check: string -> Reply, now: Time)
      returns (error: Option<Error>)
      requires Inv(View())
      modifies this
      ensures View() == After(old(View()), Reconciling(tenant, ask, check, now))
      ensures error == Failure(Perform(old(View()), Reconciling(tenant, ask, check, now)))
    {
      assert KeysResolve(View());
      hide Inv, KeysResolve, Services.Reconcile;
      var saved := View();
      error := RunBothPasses(tenant, ask, check, now);
      if error.Some? {
        RollBack(saved);
      }
    }

    method RunBothPasses(tenant: TenantId, ask: nat -> Reply, check: string -> Reply, now: Time)
      returns (error: Option<Error>)
      requires KeysResolve(View())
      modifies this
      ensures var r := Services.Reconcile(old(View()), tenant, ask, check, now);
              error == Failure(r) && (r.Ok? ==> View() == r.value)
    {
      var earlier := runs;
      var tally := ReconRun(tenant, 0, 0, 0, 0, false);
      runs := runs + [tally];
      error, tally := ResolveUnknownPayments(|earlier|, tally, ask, now);
      if error.None? {
        error, tally := CheckSettledPayments(|earlier|, tally, check);
      }
      if error.None? {
        runs := earlier + [tally.(completed := true)];
      }
    }
  }
}
