/**
  Splitting a settlement period changes nothing: batches over consecutive windows
  claim the payments that one batch over the whole period would have claimed,
  each in the window it completed in, and their totals add up to that batch's.
*/
module Settlement {
  import opened Sums
  import opened Tables
  import opened Services
  import opened Invariants
  import opened MoneyMoves

  /** Consecutive windows [cuts[0], cuts[1]), [cuts[1], cuts[2]), ... */
  predicate Consecutive(cuts: seq<Time>) {
    && |cuts| > 0
    && forall j, k :: 0 <= j < k < |cuts| ==> cuts[j] <= cuts[k]
  }

  /** One batch for each window, in order. */
  function BatchesOver(s: Store, tenant: TenantId, provider: ProviderId, cuts: seq<Time>): Store
    requires |cuts| > 0
  {
    var last := |cuts| - 1;
    if last == 0 then s
    else GenerateBatch(BatchesOver(s, tenant, provider, cuts[..last]), tenant, provider, cuts[last - 1], cuts[last])
  }

  function Gross(): Batch -> int {
    (b: Batch) => b.gross
  }

  function Fees(): Batch -> int {
    (b: Batch) => b.platformFee
  }

  function Net(): Batch -> int {
    (b: Batch) => b.net
  }

  /** The payment sits in the batch of the window it completed in. */
  predicate InItsWindow(p: Payment, q: Payment, base: nat, cuts: seq<Time>) {
    && q.batch.Some?
    && base <= q.batch.value < base + |cuts| - 1
    && q == p.(batch := q.batch)
    && p.completedAt.Some?
    && cuts[q.batch.value - base] <= p.completedAt.value < cuts[q.batch.value - base + 1]
  }

  /** What the period as a whole may claim is claimed, in its window; the rest is left alone. */
  predicate SplitClaims(
    payments: seq<Payment>, later: seq<Payment>, base: nat, tenant: TenantId, provider: ProviderId, cuts: seq<Time>)
    requires |cuts| > 0
  {
    && |later| == |payments|
    && forall i :: 0 <= i < |payments| ==>
                     if && payments[i].tenant == tenant
                        && payments[i].provider == provider
                        && payments[i].status == Successful
                        && payments[i].batch.None?
                        && payments[i].completedAt.Some?
                        && cuts[0] <= payments[i].completedAt.value < cuts[|cuts| - 1]
                     then InItsWindow(payments[i], later[i], base, cuts)
                     else later[i] == payments[i]
  }

  lemma LastWindowStillOpen(
    payments: seq<Payment>, later: seq<Payment>, base: nat, tenant: TenantId, provider: ProviderId,
    cuts: seq<Time>, end: Time)
    requires Consecutive(cuts) && SplitClaims(payments, later, base, tenant, provider, cuts)
    ensures var start := cuts[|cuts| - 1];
            forall i :: 0 <= i < |payments| ==>
                          (Claimable(later[i], tenant, provider, start, end) <==>
                           Claimable(payments[i], tenant, provider, start, end))
                          && later[i].amount == payments[i].amount
  {
    var start := cuts[|cuts| - 1];
    forall i | 0 <= i < |payments|
      ensures Claimable(later[i], tenant, provider, start, end) <==> Claimable(payments[i], tenant, provider, start, end)
      ensures later[i].amount == payments[i].amount
    {
      if Claimable(payments[i], tenant, provider, cuts[0], start) {
        assert InItsWindow(payments[i], later[i], base, cuts);
      }
    }
  }

  lemma {:induction false} SplitKeepsBooks(s: Store, tenant: TenantId, provider: ProviderId, cuts: seq<Time>)
    requires Inv(s) && Consecutive(cuts)
    ensures var s' := BatchesOver(s, tenant, provider, cuts);
            Inv(s')
    decreases |cuts|
  {
    hide Inv, GenerateBatch;
    var last := |cuts| - 1;
    if last > 0 {
      SplitKeepsBooks(s, tenant, provider, cuts[..last]);
      BatchKeepsInv(BatchesOver(s, tenant, provider, cuts[..last]), tenant, provider, cuts[last - 1], cuts[last]);
    }
  }

  lemma {:induction false} SplitClaimsOnce(s: Store, tenant: TenantId, provider: ProviderId, cuts: seq<Time>)
    requires Consecutive(cuts)
    ensures var s' := BatchesOver(s, tenant, provider, cuts);
            && s' == s.(payments := s'.payments, batches := s'.batches)
            && s.batches <= s'.batches && |s'.batches| == |s.batches| + |cuts| - 1
            && SplitClaims(s.payments, s'.payments, |s.batches|, tenant, provider, cuts)
    decreases |cuts|
  {
    var last := |cuts| - 1;
    assert 0 <= last;
    hide SplitClaims, GenerateBatch, Consecutive;
    if last == 0 {
      NothingClaimed(s.payments, |s.batches|, tenant, provider, cuts);
    } else {
      EarlierCuts(cuts);
      SplitClaimsOnce(s, tenant, provider, cuts[..last]);
      WindowBatch(s, BatchesOver(s, tenant, provider, cuts[..last]), tenant, provider, cuts[..last], cuts[last]);
    }
  }

  lemma WindowBatch(
    s: Store, s1: Store, tenant: TenantId, provider: ProviderId, cuts: seq<Time>, end: Time)
    requires Consecutive(cuts + [end]) && Consecutive(cuts)
    requires s1 == s.(payments := s1.payments, batches := s1.batches)
    requires s.batches <= s1.batches && |s1.batches| == |s.batches| + |cuts| - 1
    requires SplitClaims(s.payments, s1.payments, |s.batches|, tenant, provider, cuts)
    ensures var s' := GenerateBatch(s1, tenant, provider, cuts[|cuts| - 1], end);
            && s' == s.(payments := s'.payments, batches := s'.batches)
            && s.batches <= s'.batches && |s'.batches| == |s.batches| + |cuts|
            && SplitClaims(s.payments, s'.payments, |s.batches|, tenant, provider, cuts + [end])
  {
    hide SplitClaims, NewBatch, Consecutive, ClaimAll;
    WindowClaims(s.payments, s1.payments, GenerateBatch(s1, tenant, provider, cuts[|cuts| - 1], end).payments,
                 |s.batches|, tenant, provider, cuts, end);
  }

  lemma EarlierCuts(cuts: seq<Time>)
    requires Consecutive(cuts) && |cuts| > 1
    ensures Consecutive(cuts[..|cuts| - 1]) && cuts == cuts[..|cuts| - 1] + [cuts[|cuts| - 1]]
  {
  }

  lemma NothingClaimed(payments: seq<Payment>, base: nat, tenant: TenantId, provider: ProviderId, cuts: seq<Time>)
    requires |cuts| == 1
    ensures SplitClaims(payments, payments, base, tenant, provider, cuts)
  {
  }

  lemma WindowClaims(
    payments: seq<Payment>, claimed: seq<Payment>, later: seq<Payment>, base: nat,
    tenant: TenantId, provider: ProviderId, cuts: seq<Time>, end: Time)
    requires Consecutive(cuts + [end]) && Consecutive(cuts)
    requires SplitClaims(payments, claimed, base, tenant, provider, cuts)
    requires later == ClaimAll(claimed, base + |cuts| - 1, tenant, provider, cuts[|cuts| - 1], end)
    ensures SplitClaims(payments, later, base, tenant, provider, cuts + [end])
  {
    LastWindowStillOpen(payments, claimed, base, tenant, provider, cuts, end);
    forall i | 0 <= i < |payments|
      ensures if Claimable(payments[i], tenant, provider, cuts[0], end)
              then InItsWindow(payments[i], later[i], base, cuts + [end])
              else later[i] == payments[i]
    {
      assert later[i] == Claim(claimed[i], base + |cuts| - 1, tenant, provider, cuts[|cuts| - 1], end);
      assert (cuts + [end])[|cuts|] == end && (cuts + [end])[|cuts| - 1] == cuts[|cuts| - 1];
      assert cuts[|cuts| - 1] <= end && cuts[0] <= cuts[|cuts| - 1];
      if Claimable(payments[i], tenant, provider, cuts[0], cuts[|cuts| - 1]) {
        assert InItsWindow(payments[i], claimed[i], base, cuts);
      }
    }
  }

  lemma BooksOf(s: Store)
    requires Inv(s)
    ensures KeysResolve(s) && AllBooks(s)
  {
  }

  /** What the period up to `end` claims is what the period so far claims and what the next window claims. */
  lemma OneMoreWindow(
    payments: seq<Payment>, later: seq<Payment>, base: nat, tenant: TenantId, provider: ProviderId,
    cuts: seq<Time>, end: Time)
    requires Consecutive(cuts + [end]) && Consecutive(cuts)
    requires SplitClaims(payments, later, base, tenant, provider, cuts)
    ensures var start, middle := cuts[0], cuts[|cuts| - 1];
            && Sum(payments, ClaimedAmount(tenant, provider, start, end)) ==
               Sum(payments, ClaimedAmount(tenant, provider, start, middle))
               + Sum(later, ClaimedAmount(tenant, provider, middle, end))
            && Sum(payments, ClaimedCount(tenant, provider, start, end)) ==
               Sum(payments, ClaimedCount(tenant, provider, start, middle))
               + Sum(later, ClaimedCount(tenant, provider, middle, end))
  {
    var start, middle := cuts[0], cuts[|cuts| - 1];
    assert (cuts + [end])[|cuts|] == end && (cuts + [end])[|cuts| - 1] == middle;
    assert start <= middle <= end;
    LastWindowStillOpen(payments, later, base, tenant, provider, cuts, end);
    hide SplitClaims;
    SumMatch(later, ClaimedAmount(tenant, provider, middle, end), payments, ClaimedAmount(tenant, provider, middle, end));
    SumMatch(later, ClaimedCount(tenant, provider, middle, end), payments, ClaimedCount(tenant, provider, middle, end));
    SumExceeds(payments, ClaimedAmount(tenant, provider, start, end),
               payments, ClaimedAmount(tenant, provider, start, middle), ClaimedAmount(tenant, provider, middle, end));
    SumExceeds(payments, ClaimedCount(tenant, provider, start, end),
               payments, ClaimedCount(tenant, provider, start, middle), ClaimedCount(tenant, provider, middle, end));
  }

  /** What the batches hold together: `amount` gross, the flat fee on `count` payments, and the rest net. */
  predicate Totals(batches: seq<Batch>, amount: int, count: int) {
    && Sum(batches, Gross()) == amount
    && Sum(batches, Fees()) == PAYMENT_SUCCESS_FEE * count
    && Sum(batches, Net()) == amount - PAYMENT_SUCCESS_FEE * count
  }

  lemma TotalsPush(batches: seq<Batch>, batch: Batch, amount: int, count: int)
    requires Totals(batches, amount, count)
    requires batch.net == batch.gross - batch.platformFee && batch.platformFee % PAYMENT_SUCCESS_FEE == 0
    ensures Totals(batches + [batch], amount + batch.gross, count + batch.platformFee / PAYMENT_SUCCESS_FEE)
  {
    SumPush(batches, batch, Gross());
    SumPush(batches, batch, Fees());
    SumPush(batches, batch, Net());
  }

  lemma NextBatchTotals(
    s1: Store, made: seq<Batch>, payments: seq<Payment>, base: nat, tenant: TenantId, provider: ProviderId,
    cuts: seq<Time>, end: Time)
    requires KeysResolve(s1) && AllBooks(s1)
    requires Consecutive(cuts + [end]) && Consecutive(cuts)
    requires SplitClaims(payments, s1.payments, base, tenant, provider, cuts)
    requires Totals(made, Sum(payments, ClaimedAmount(tenant, provider, cuts[0], cuts[|cuts| - 1])),
                    Sum(payments, ClaimedCount(tenant, provider, cuts[0], cuts[|cuts| - 1])))
    ensures Totals(made + [NewBatch(s1, tenant, provider, cuts[|cuts| - 1], end)],
                   Sum(payments, ClaimedAmount(tenant, provider, cuts[0], end)),
                   Sum(payments, ClaimedCount(tenant, provider, cuts[0], end)))
  {
    var batch := NewBatch(s1, tenant, provider, cuts[|cuts| - 1], end);
    BatchTotals(s1, tenant, provider, cuts[|cuts| - 1], end);
    assert batch.net == batch.gross - batch.platformFee;
    OneMoreWindow(payments, s1.payments, base, tenant, provider, cuts, end);
    hide NewBatch, Totals, SplitClaims, AllBooks;
    TotalsPush(made, batch, Sum(payments, ClaimedAmount(tenant, provider, cuts[0], cuts[|cuts| - 1])),
               Sum(payments, ClaimedCount(tenant, provider, cuts[0], cuts[|cuts| - 1])));
  }

  lemma {:induction false} SplitTotals(s: Store, tenant: TenantId, provider: ProviderId, cuts: seq<Time>)
    requires Inv(s) && Consecutive(cuts)
    ensures var s' := BatchesOver(s, tenant, provider, cuts);
            var start, end := cuts[0], cuts[|cuts| - 1];
            && |s.batches| <= |s'.batches|
            && Totals(s'.batches[|s.batches|..], Sum(s.payments, ClaimedAmount(tenant, provider, start, end)),
                      Sum(s.payments, ClaimedCount(tenant, provider, start, end)))
    decreases |cuts|
  {
    hide Inv, Totals, NewBatch, AllBooks, SplitClaims, KeysResolve, Claimable;
    var last := |cuts| - 1;
    if last == 0 {
      NoWindow(s.payments, tenant, provider, cuts[0]);
    } else {
      var earlier := cuts[..last];
      SplitTotals(s, tenant, provider, earlier);
      SplitClaimsOnce(s, tenant, provider, earlier);
      SplitKeepsBooks(s, tenant, provider, earlier);
      var s1 := BatchesOver(s, tenant, provider, earlier);
      BooksOf(s1);
      var made := s1.batches[|s.batches|..];
      assert cuts == earlier + [cuts[last]];
      NextBatchTotals(s1, made, s.payments, |s.batches|, tenant, provider, earlier, cuts[last]);
      assert BatchesOver(s, tenant, provider, cuts).batches[|s.batches|..] ==
             made + [NewBatch(s1, tenant, provider, cuts[last - 1], cuts[last])];
    }
  }

  lemma NoWindow(payments: seq<Payment>, tenant: TenantId, provider: ProviderId, at: Time)
    ensures Totals([], Sum(payments, ClaimedAmount(tenant, provider, at, at)),
                   Sum(payments, ClaimedCount(tenant, provider, at, at)))
  {
    SumZero(payments, ClaimedAmount(tenant, provider, at, at));
    SumZero(payments, ClaimedCount(tenant, provider, at, at));
  }

  /** Batch by batch or all at once: the same payments, each once, and the same money. */
  lemma SplittingAPeriod(s: Store, tenant: TenantId, provider: ProviderId, cuts: seq<Time>)
    requires Inv(s) && Consecutive(cuts)
    ensures var one := GenerateBatch(s, tenant, provider, cuts[0], cuts[|cuts| - 1]);
            var split := BatchesOver(s, tenant, provider, cuts);
            && |one.payments| == |split.payments| == |s.payments|
            && |one.batches| == |s.batches| + 1
            && |split.batches| == |s.batches| + |cuts| - 1
            && (forall i :: 0 <= i < |s.payments| ==>
                  if one.payments[i].batch == Some(|s.batches|) && s.payments[i].batch.None?
                  then InItsWindow(s.payments[i], split.payments[i], |s.batches|, cuts)
                  else split.payments[i] == one.payments[i] == s.payments[i])
            && var batch, batches := one.batches[|s.batches|], split.batches[|s.batches|..];
               && Sum(batches, Gross()) == batch.gross
               && Sum(batches, Fees()) == batch.platformFee
               && Sum(batches, Net()) == batch.net
  {
    SplitClaimsOnce(s, tenant, provider, cuts);
    SplitTotals(s, tenant, provider, cuts);
    BatchTotals(s, tenant, provider, cuts[0], cuts[|cuts| - 1]);
  }
}
