/**
  Which payments a settlement takes, written out column by column, and what that
  means over whole runs: only a SUCCESSFUL payment is ever paid out.
*/
module SettlementRequests {
  import opened Sums
  import opened Tables
  import opened Services
  import opened Invariants
  import opened MoneyMoves
  import opened Runs
  import opened History
  import opened Idempotency

  /**
    A batch takes the SUCCESSFUL payments of its tenant and provider that completed in
    [start, end) and are in no batch yet; every other payment stays as it is.
  */
  lemma BatchTakesExactly(s: Store, tenant: TenantId, provider: ProviderId, start: Time, end: Time, i: nat)
    requires Inv(s) && i < |s.payments|
    ensures var r := Perform(s, Settling(tenant, provider, start, end));
            var p := s.payments[i];
            && r.Ok? && |r.value.payments| == |s.payments|
            && (r.value.payments[i].batch == Some(|s.batches|) <==>
                && p.tenant == tenant
                && p.provider == provider
                && p.status == Successful
                && p.batch.None?
                && p.completedAt.Some? && start <= p.completedAt.value < end)
            && r.value.payments[i] ==
               (if r.value.payments[i].batch == Some(|s.batches|) then p.(batch := Some(|s.batches|)) else p)
  {
    assert s.payments[i].batch != Some(|s.batches|);
    hide Inv, KeysResolve, NewBatch;
  }

  /** The new batch row holds its payments' amounts less 50.00 for each; nothing else is written. */
  lemma BatchIsRecorded(s: Store, tenant: TenantId, provider: ProviderId, start: Time, end: Time)
    requires Inv(s)
    ensures var s' := After(s, Settling(tenant, provider, start, end));
            var k := |s.batches|;
            var gross, count := Sum(s'.payments, BatchAmount(k)), Sum(s'.payments, InBatch(k));
            s' == s.(payments := s'.payments,
                     batches := s.batches + [Batch(tenant, provider, start, end, gross, 5000 * count, 0,
                                                   gross - 5000 * count, None)])
  {
    var s', k := After(s, Settling(tenant, provider, start, end)), |s.batches|;
    assert BatchExact(s'.payments, s'.batches, k);
    assert s'.batches[k] == NewBatch(s, tenant, provider, start, end);
    hide Inv, KeysResolve, BatchExact;
  }

  /** Completing a batch sets its external reference; a batch that does not exist raises. */
  lemma BatchIsCompleted(s: Store, k: nat, reference: string)
    requires KeysResolve(s)
    ensures Perform(s, CompletingBatch(k, reference)) ==
            if k < |s.batches| then Ok(s.(batches := s.batches[k := s.batches[k].(completed := Some(reference))]))
            else Raised(NotFound)
  {
    hide KeysResolve;
  }

  // ---------------------------------------------------------------- over whole runs

  /** A payment joins a batch only by a settlement of its tenant and provider, while it is SUCCESSFUL. */
  lemma OnlySettlingClaims(s: Store, step: Step, i: nat)
    requires Inv(s) && i < |s.payments| && s.payments[i].batch.None?
    ensures i < |After(s, step).payments|
    ensures After(s, step).payments[i].batch.Some? ==>
              && step.Settling?
              && s.payments[i].status == Successful
              && s.payments[i].tenant == step.tenant && s.payments[i].provider == step.provider
  {
    StepEvolves(s, step);
    if MovesPayments(step) {
      MoneyStepKeepsCatalogue(s, step);
      hide Inv, KeysResolve, Perform, Evolves;
    } else if step.Settling? {
      BatchTakesExactly(s, step.tenant, step.provider, step.start, step.end, i);
      hide Inv, KeysResolve, Evolves, Perform;
    } else {
      hide Inv, KeysResolve, IssueBill, GetOrCreateNumber, Evolves;
      OtherStepKeepsPayments(s, step);
    }
  }

  lemma OtherStepKeepsPayments(s: Store, step: Step)
    requires KeysResolve(s) && !MovesPayments(step) && !step.Settling?
    ensures Perform(s, step).Ok? ==> Perform(s, step).value.payments == s.payments
  {
  }

  /** Refunded or reversed before it was settled, a payment is never settled, whatever follows. */
  lemma {:induction false} TakenBackIsNeverSettled(s: Store, i: nat, steps: seq<Step>)
    requires Inv(s) && i < |s.payments|
    requires s.payments[i].status in {Refunded, Reversed} && s.payments[i].batch.None?
    ensures var s' := Run(s, steps);
            i < |s'.payments| && s'.payments[i].status == s.payments[i].status && s'.payments[i].batch.None?
    decreases |steps|
  {
    if |steps| > 0 {
      var s1 := After(s, steps[0]);
      StepEvolves(s, steps[0]);
      assert PaymentEvolves(s.payments[i], s1.payments[i]);
      OnlySettlingClaims(s, steps[0], i);
      hide Inv, After, Evolves;
      TakenBackIsNeverSettled(s1, i, steps[1..]);
    }
  }
}
