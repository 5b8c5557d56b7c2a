/**
  What each request about bills, control numbers and policies does, written out:
  columns and amounts by name, and no function that the services are made of.
*/
module BillRequests {
  import opened Sums
  import opened Tables
  import opened Services
  import opened Runs

  // ---------------------------------------------------------------- bills

  predicate BillNumberTaken(bills: seq<Bill>, tenant: TenantId, billNumber: string) {
    exists b :: 0 <= b < |bills| && bills[b].tenant == tenant && bills[b].billNumber == billNumber
  }

  lemma {:induction false} FirstFreeBillNumber(bills: seq<Bill>, tenant: TenantId, candidates: seq<string>)
    ensures var found := FreshBillNumber(bills, tenant, candidates);
            if found.None? then forall k :: 0 <= k < |candidates| ==> BillNumberTaken(bills, tenant, candidates[k])
            else exists k :: 0 <= k < |candidates| && found.value == candidates[k]
                             && !BillNumberTaken(bills, tenant, candidates[k])
                             && forall j :: 0 <= j < k ==> BillNumberTaken(bills, tenant, candidates[j])
  {
    if |candidates| > 0 {
      var first := Newest(bills, BillNumbered(tenant, candidates[0]));
      if first.None? {
        forall b | 0 <= b < |bills| ensures bills[b].tenant != tenant || bills[b].billNumber != candidates[0] {
          assert !BillNumbered(tenant, candidates[0])(bills[b]);
        }
      } else {
        assert BillNumberTaken(bills, tenant, candidates[0]);
        var rest := candidates[1..];
        FirstFreeBillNumber(bills, tenant, rest);
        var found := FreshBillNumber(bills, tenant, rest);
        if found.Some? {
          var k :| 0 <= k < |rest| && found.value == rest[k] && !BillNumberTaken(bills, tenant, rest[k])
                   && forall j :: 0 <= j < k ==> BillNumberTaken(bills, tenant, rest[j]);
          assert candidates[k + 1] == rest[k];
          assert forall j :: 0 < j <= k ==> candidates[j] == rest[j - 1];
        } else {
          assert forall j :: 0 < j < |candidates| ==> candidates[j] == rest[j - 1];
        }
      }
    }
  }

  /** The tenant has a bill under the reference, which is not blank. */
  predicate BillOnFile(bills: seq<Bill>, tenant: TenantId, reference: string) {
    reference != "" && exists b :: 0 <= b < |bills| && bills[b].tenant == tenant && bills[b].reference == reference
  }

  lemma BillLookup(bills: seq<Bill>, tenant: TenantId, reference: string)
    ensures reference != "" ==>
              (Newest(bills, BillReferenced(tenant, reference)).Some? <==> BillOnFile(bills, tenant, reference))
  {
    if BillOnFile(bills, tenant, reference) {
      var b :| 0 <= b < |bills| && bills[b].tenant == tenant && bills[b].reference == reference;
      assert BillReferenced(tenant, reference)(bills[b]);
    }
  }

  /** The first of the first three generated bill numbers that is free, if any. */
  predicate DrawsBillNumber(bills: seq<Bill>, tenant: TenantId, candidates: seq<string>, k: nat) {
    && k < |candidates| && k < 3
    && !BillNumberTaken(bills, tenant, candidates[k])
    && forall j :: 0 <= j < k ==> BillNumberTaken(bills, tenant, candidates[j])
  }

  /**
    A bill on file is left as it is. Otherwise an ACTIVE bill is issued under the first
    free one of three generated numbers, and the request raises if all three are taken.
  */
  lemma BillIsIssued(s: Store, tenant: TenantId, lines: seq<int>, reference: string, candidates: seq<string>)
    requires KeysResolve(s)
    ensures var r := Perform(s, IssuingBill(tenant, lines, reference, candidates));
            if BillOnFile(s.bills, tenant, reference) then r == Ok(s)
            else
              && (r.Raised? <==> forall k :: 0 <= k < |candidates| && k < 3 ==>
                                               BillNumberTaken(s.bills, tenant, candidates[k]))
              && (r.Ok? ==>
                    && |r.value.bills| == |s.bills| + 1
                    && exists k: nat :: DrawsBillNumber(s.bills, tenant, candidates, k)
                                        && r.value == s.(bills := s.bills + [Bill(tenant, candidates[k], reference, Active,
                                                                                  r.value.bills[|s.bills|].total)]))
  {
    BillLookup(s.bills, tenant, reference);
    var generated := Drawn(candidates, MAX_BILL_NUMBER_ATTEMPTS);
    FirstFreeBillNumber(s.bills, tenant, generated);
    assert BillOnFile(s.bills, tenant, reference) ==> reference != "";
    hide KeysResolve, BillNumberTaken, BillOnFile;
    var found := FreshBillNumber(s.bills, tenant, generated);
    if found.Some? {
      var k :| 0 <= k < |generated| && found.value == generated[k] && !BillNumberTaken(s.bills, tenant, generated[k])
               && forall j :: 0 <= j < k ==> BillNumberTaken(s.bills, tenant, generated[j]);
      assert forall j :: 0 <= j <= k ==> candidates[j] == generated[j];
      assert DrawsBillNumber(s.bills, tenant, candidates, k);
    } else {
      assert forall j :: 0 <= j < |generated| ==> candidates[j] == generated[j];
    }
  }

  /** The new bill is for all its lines: nothing without lines, and `x` more with one more line of `x`. */
  lemma BillIsForItsLines(
    s: Store, tenant: TenantId, lines: seq<int>, x: int, reference: string, candidates: seq<string>)
    requires KeysResolve(s) && !BillOnFile(s.bills, tenant, reference)
    requires Perform(s, IssuingBill(tenant, lines, reference, candidates)).Ok?
    ensures var s1 := Perform(s, IssuingBill(tenant, lines, reference, candidates)).value;
            var r2 := Perform(s, IssuingBill(tenant, lines + [x], reference, candidates));
            && r2.Ok? && |s1.bills| == |r2.value.bills| == |s.bills| + 1
            && var b, b2 := s1.bills[|s.bills|], r2.value.bills[|s.bills|];
               && (lines == [] ==> b.total == 0)
               && b2 == b.(total := b.total + x)
  {
    BillLookup(s.bills, tenant, reference);
    SumPush(lines, x, LineTotal());
    hide KeysResolve, FreshBillNumber;
  }

  /** A bill may be cancelled while it is a draft, active or partly paid; only its status changes. */
  lemma BillIsCancelled(s: Store, b: nat)
    requires KeysResolve(s)
    ensures var r := Perform(s, CancellingBill(b));
            && (r.Raised? <==> |s.bills| <= b || s.bills[b].status !in {Draft, Active, PartiallyPaid})
            && (r.Ok? ==> r.value == s.(bills := s.bills[b := s.bills[b].(status := Cancelled)]))
  {
    hide KeysResolve;
  }

  // ---------------------------------------------------------------- control numbers

  predicate ValueTaken(numbers: seq<ControlNumber>, value: string) {
    exists n :: 0 <= n < |numbers| && numbers[n].value == value
  }

  lemma {:induction false} FirstFreeValue(numbers: seq<ControlNumber>, candidates: seq<string>)
    ensures var found := FreshValue(numbers, candidates);
            if found.None? then forall k :: 0 <= k < |candidates| ==> ValueTaken(numbers, candidates[k])
            else exists k :: 0 <= k < |candidates| && found.value == candidates[k]
                             && !ValueTaken(numbers, candidates[k])
                             && forall j :: 0 <= j < k ==> ValueTaken(numbers, candidates[j])
  {
    if |candidates| > 0 {
      var first := Newest(numbers, NumberValued(candidates[0]));
      if first.None? {
        forall n | 0 <= n < |numbers| ensures numbers[n].value != candidates[0] {
          assert !NumberValued(candidates[0])(numbers[n]);
        }
      } else {
        assert ValueTaken(numbers, candidates[0]);
        var rest := candidates[1..];
        FirstFreeValue(numbers, rest);
        var found := FreshValue(numbers, rest);
        if found.Some? {
          var k :| 0 <= k < |rest| && found.value == rest[k] && !ValueTaken(numbers, rest[k])
                   && forall j :: 0 <= j < k ==> ValueTaken(numbers, rest[j]);
          assert candidates[k + 1] == rest[k];
          assert forall j :: 0 < j <= k ==> candidates[j] == rest[j - 1];
        } else {
          assert forall j :: 0 < j < |candidates| ==> candidates[j] == rest[j - 1];
        }
      }
    }
  }

  /** The number serves its owner: a bill's number for good, an account's while it is active. */
  predicate Serves(n: ControlNumber, owner: Owner) {
    n.owner == owner && (owner.ForBill? || n.status == NumberActive)
  }

  /** The bill that the request names does not exist in the tenant. */
  predicate NoSuchBill(s: Store, tenant: TenantId, owner: Owner) {
    owner.ForBill? && (|s.bills| <= owner.bill || s.bills[owner.bill].tenant != tenant)
  }

  /** A number that serves the owner, the newest one, is the answer: nothing but a zero-fee event is added. */
  lemma ServingNumberAnswers(
    s: Store, tenant: TenantId, owner: Owner, candidates: seq<string>, expiresAt: Option<Time>, n: nat)
    requires KeysResolve(s) && !NoSuchBill(s, tenant, owner)
    requires n < |s.numbers| && Serves(s.numbers[n], owner)
    requires forall m :: n < m < |s.numbers| ==> !Serves(s.numbers[m], owner)
    ensures Perform(s, RequestingNumber(tenant, owner, candidates, expiresAt)) ==
            Ok(s.(events := s.events + [RevenueEvent(s.numbers[n].tenant, ControlNumberReused, 0, OfNumber(n), None, None)]))
  {
    assert Reusable(owner)(s.numbers[n]);
    assert Newest(s.numbers, Reusable(owner)) == Some(n);
    hide KeysResolve, FreshValue;
  }

  /** The first of the first five generated values that is free, if any. */
  predicate DrawsValue(numbers: seq<ControlNumber>, candidates: seq<string>, k: nat) {
    && k < |candidates| && k < 5
    && !ValueTaken(numbers, candidates[k])
    && forall j :: 0 <= j < k ==> ValueTaken(numbers, candidates[j])
  }

  /** The rows of a new number: the number, the fee of 50.00 and its event. */
  predicate NumberCreated(
    s: Store, s': Store, tenant: TenantId, value: string, owner: Owner, expiresAt: Option<Time>)
  {
    var n := |s.numbers|;
    s' == s.(numbers := s.numbers + [ControlNumber(tenant, value, owner, NumberActive, expiresAt)],
             ledger := s.ledger + [LedgerEntry(tenant, PlatformControlNumberFee, Platform, 5000, OfNumber(n), None)],
             events := s.events + [RevenueEvent(tenant, ControlNumberCreated, 5000, OfNumber(n), Some(|s.ledger|), None)])
  }

  /**
    Without one, a request for a bill that does not exist raises, and so does one that
    finds five generated values taken. Any other creates and charges one number.
  */
  lemma NewNumberIsCharged(
    s: Store, tenant: TenantId, owner: Owner, candidates: seq<string>, expiresAt: Option<Time>)
    requires KeysResolve(s)
    ensures var r := Perform(s, RequestingNumber(tenant, owner, candidates, expiresAt));
            && (NoSuchBill(s, tenant, owner) ==> r == Raised(NotFound))
            && (!NoSuchBill(s, tenant, owner) && (forall n :: 0 <= n < |s.numbers| ==> !Serves(s.numbers[n], owner)) ==>
                  && (r.Raised? <==> forall k :: 0 <= k < |candidates| && k < 5 ==> ValueTaken(s.numbers, candidates[k]))
                  && (r.Ok? ==> exists k: nat :: && DrawsValue(s.numbers, candidates, k)
                                                 && NumberCreated(s, r.value, tenant, candidates[k], owner, expiresAt)))
  {
    var generated := Drawn(candidates, MAX_GENERATION_ATTEMPTS);
    if !NoSuchBill(s, tenant, owner) && forall n :: 0 <= n < |s.numbers| ==> !Serves(s.numbers[n], owner) {
      FirstFreeValue(s.numbers, generated);
      hide KeysResolve, ValueTaken;
      var existing := Newest(s.numbers, Reusable(owner));
      assert existing.Some? ==> Serves(s.numbers[existing.value], owner);
      var found := FreshValue(s.numbers, generated);
      if found.Some? {
        var k :| 0 <= k < |generated| && found.value == generated[k] && !ValueTaken(s.numbers, generated[k])
                 && forall j :: 0 <= j < k ==> ValueTaken(s.numbers, generated[j]);
        assert forall j :: 0 <= j <= k ==> candidates[j] == generated[j];
        assert DrawsValue(s.numbers, candidates, k);
        assert NumberCreated(s, Perform(s, RequestingNumber(tenant, owner, candidates, expiresAt)).value, tenant,
                             candidates[k], owner, expiresAt);
      } else {
        assert forall j :: 0 <= j < |generated| ==> candidates[j] == generated[j];
      }
    }
  }

  /** Cancelling a number sets its status whatever it was, and nothing else. */
  lemma NumberIsCancelled(s: Store, n: nat)
    requires KeysResolve(s)
    ensures Perform(s, CancellingNumber(n)) ==
            if n < |s.numbers| then Ok(s.(numbers := s.numbers[n := s.numbers[n].(status := NumberCancelled)]))
            else Raised(NotFound)
  {
    hide KeysResolve;
  }

  /** Active, in scope, and with an expiry strictly before now. */
  predicate Due(n: ControlNumber, only: Option<TenantId>, now: Time) {
    && n.status == NumberActive
    && n.expiresAt.Some? && n.expiresAt.value < now
    && (only.None? || n.tenant == only.value)
  }

  /** Expiring marks exactly the numbers that are due, and nothing else changes. */
  lemma DueNumbersExpire(s: Store, only: Option<TenantId>, now: Time)
    requires KeysResolve(s)
    ensures var r := Perform(s, Expiring(only, now));
            && r.Ok? && |r.value.numbers| == |s.numbers| && r.value == s.(numbers := r.value.numbers)
            && forall n :: 0 <= n < |s.numbers| ==>
                             r.value.numbers[n] == if Due(s.numbers[n], only, now)
                                                   then s.numbers[n].(status := NumberExpired) else s.numbers[n]
  {
    hide KeysResolve;
  }
}
