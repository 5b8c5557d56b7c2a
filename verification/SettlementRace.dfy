/**
  Any number of settlement batches generated at once, over periods that may
  overlap. Each one locks the payments it selects, newest first, and keeps them
  locked until it commits; a payment that another one has locked is waited for.
*/
module SettlementRace {
  import opened Sums
  import opened Tables
  import opened Services
  import opened Invariants
  import opened Runs
  import opened Interleavings

  datatype Period = Period(tenant: TenantId, provider: ProviderId, start: Time, end: Time)

  /** The payments from `next` on have been looked at, and those in `claimed` are locked. */
  datatype Phase = Selecting(next: nat, claimed: set<nat>) | Finished(batch: nat) | Dropped

  datatype Client = Client(period: Period, phase: Phase)

  /** The committed store, the periods settled so far, in that order, and all requests. */
  datatype World = World(store: Store, settled: seq<Period>, clients: seq<Client>)

  datatype Move = Visit(client: nat) | Commit(client: nat) | Drop(client: nat)

  predicate Selects(period: Period, p: Payment) {
    && p.tenant == period.tenant
    && p.provider == period.provider
    && p.status == Successful
    && p.batch.None?
    && p.completedAt.Some?
    && period.start <= p.completedAt.value < period.end
  }

  predicate Locks(client: Client, i: nat) {
    client.phase.Selecting? && i in client.phase.claimed
  }

  predicate LockedByOther(w: World, c: nat, i: nat) {
    exists d :: 0 <= d < |w.clients| && d != c && Locks(w.clients[d], i)
  }

  predicate Enabled(w: World, m: Move) {
    && m.client < |w.clients|
    && var client := w.clients[m.client];
       && client.phase.Selecting?
       && match m
          case Visit(c) =>
            && 0 < client.phase.next <= |w.store.payments|
            && var i := client.phase.next - 1;
               Selects(client.period, w.store.payments[i]) ==> !LockedByOther(w, c, i)
          case Commit(_) => client.phase.next == 0
          case Drop(_) => true
  }

  function ClaimedGross(payments: seq<Payment>, claimed: set<nat>, n: nat): int
    requires n <= |payments|
  {
    if n == 0 then 0
    else ClaimedGross(payments, claimed, n - 1) + (if n - 1 in claimed then payments[n - 1].amount else 0)
  }

  function BatchOf(s: Store, period: Period, claimed: set<nat>): Batch {
    var gross := ClaimedGross(s.payments, claimed, |s.payments|);
    var fees := Sum(s.events, FeeFor(period.tenant, claimed));
    Batch(period.tenant, period.provider, period.start, period.end, gross, fees, 0, gross - fees - 0, None)
  }

  /** The batch of the payments that were locked, and those payments pointing at it. */
  function Settle(s: Store, period: Period, claimed: set<nat>): Store {
    s.(batches := s.batches + [BatchOf(s, period, claimed)],
       payments := seq(|s.payments|, i requires 0 <= i < |s.payments| =>
         if i in claimed then s.payments[i].(batch := Some(|s.batches|)) else s.payments[i]))
  }

  function Become(w: World, c: nat, phase: Phase): World
    requires c < |w.clients|
  {
    w.(clients := w.clients[c := w.clients[c].(phase := phase)])
  }

  function Turn(w: World, m: Move): World {
    if !Enabled(w, m) then w
    else
      var client := w.clients[m.client];
      match m
      case Visit(c) =>
        var i := client.phase.next - 1;
        Become(w, c, Selecting(i, if Selects(client.period, w.store.payments[i]) then client.phase.claimed + {i}
                                  else client.phase.claimed))
      case Commit(c) =>
        Become(w, c, Finished(|w.store.batches|)).(
          store := Settle(w.store, client.period, client.phase.claimed),
          settled := w.settled + [client.period])
      case Drop(c) => Become(w, c, Dropped)
  }

  function Start(s: Store, periods: seq<Period>): World {
    World(s, [], seq(|periods|, c requires 0 <= c < |periods| => Client(periods[c], Selecting(|s.payments|, {}))))
  }

  // ---------------------------------------------------------------- the invariant

  /** What a request has locked is what it may claim among the payments it has looked at. */
  ghost predicate Exact(payments: seq<Payment>, client: Client) {
    client.phase.Selecting? ==>
      && client.phase.next <= |payments|
      && ClaimsExactly(payments, client.period, client.phase.claimed, client.phase.next)
  }

  /** Exactly the payments from `next` on that the period selects. */
  ghost predicate ClaimsExactly(payments: seq<Payment>, period: Period, claimed: set<nat>, next: nat) {
    forall i: nat :: i in claimed <==> next <= i < |payments| && Selects(period, payments[i])
  }

  ghost predicate AllExact(w: World) {
    forall c :: 0 <= c < |w.clients| ==> Exact(w.store.payments, w.clients[c])
  }

  /** No payment is locked twice. */
  predicate Exclusive(w: World) {
    forall c, d :: 0 <= c < d < |w.clients| ==> Apart(w.clients[c], w.clients[d])
  }

  predicate Apart(a: Client, b: Client) {
    a.phase.Selecting? && b.phase.Selecting? ==> a.phase.claimed !! b.phase.claimed
  }

  function SettlingOf(period: Period): Step {
    Settling(period.tenant, period.provider, period.start, period.end)
  }

  function Settlings(periods: seq<Period>): seq<Step> {
    if |periods| == 0 then []
    else Settlings(periods[..|periods| - 1]) + [SettlingOf(periods[|periods| - 1])]
  }

  /** The store is what the batches leave when they are generated one after another. */
  ghost predicate Serial(s: Store, w: World)
    requires Inv(s)
  {
    && w.store == Run(s, Settlings(w.settled))
    && |w.store.payments| == |s.payments|
    && AllExact(w)
    && Exclusive(w)
  }

  // ---------------------------------------------------------------- every move keeps it

  lemma GrossIsClaimed(payments: seq<Payment>, period: Period, claimed: set<nat>)
    requires ClaimsExactly(payments, period, claimed, 0)
    ensures ClaimedGross(payments, claimed, |payments|) ==
            Sum(payments, ClaimedAmount(period.tenant, period.provider, period.start, period.end))
  {
    GrossUpTo(payments, period, claimed, |payments|);
    assert payments[..|payments|] == payments;
  }

  lemma {:induction false} GrossUpTo(payments: seq<Payment>, period: Period, claimed: set<nat>, n: nat)
    requires n <= |payments|
    requires ClaimsExactly(payments, period, claimed, 0)
    ensures ClaimedGross(payments, claimed, n) ==
            Sum(payments[..n], ClaimedAmount(period.tenant, period.provider, period.start, period.end))
  {
    if n > 0 {
      GrossUpTo(payments, period, claimed, n - 1);
      assert payments[..n][..n - 1] == payments[..n - 1];
    }
  }

  lemma FeesAreClaimed(s: Store, period: Period, claimed: set<nat>)
    requires ClaimsExactly(s.payments, period, claimed, 0)
    ensures Sum(s.events, FeeFor(period.tenant, claimed)) ==
            Sum(s.events, ClaimedFee(s.payments, period.tenant, period.provider, period.start, period.end))
  {
    SumMatch(s.events, FeeFor(period.tenant, claimed),
             s.events, ClaimedFee(s.payments, period.tenant, period.provider, period.start, period.end));
  }

  lemma ClaimsAreClaimed(s: Store, period: Period, claimed: set<nat>)
    requires ClaimsExactly(s.payments, period, claimed, 0)
    ensures Settle(s, period, claimed).payments ==
            ClaimAll(s.payments, |s.batches|, period.tenant, period.provider, period.start, period.end)
  {
  }

  lemma FiguresAreClaimed(s: Store, period: Period, claimed: set<nat>)
    requires ClaimsExactly(s.payments, period, claimed, 0)
    ensures BatchOf(s, period, claimed) == NewBatch(s, period.tenant, period.provider, period.start, period.end)
  {
    GrossIsClaimed(s.payments, period, claimed);
    FeesAreClaimed(s, period, claimed);
    hide ClaimsExactly, Sum, ClaimedGross;
  }

  /** A batch of the payments that a finished selection has locked is the batch of a request that ran alone. */
  lemma SettlingAlone(s: Store, client: Client)
    requires client.phase.Selecting? && client.phase.next == 0 && Exact(s.payments, client)
    ensures var period := client.period;
            Settle(s, period, client.phase.claimed) ==
            GenerateBatch(s, period.tenant, period.provider, period.start, period.end)
  {
    hide ClaimsExactly, BatchOf, NewBatch, ClaimAll;
    FiguresAreClaimed(s, client.period, client.phase.claimed);
    ClaimsAreClaimed(s, client.period, client.phase.claimed);
  }

  lemma VisitKeepsSerial(s: Store, w: World, c: nat)
    requires Inv(s) && Serial(s, w) && Enabled(w, Visit(c))
    ensures Serial(s, Turn(w, Visit(c)))
  {
    hide Inv, Run;
    var w' := Turn(w, Visit(c));
    forall d | 0 <= d < |w'.clients| ensures Exact(w'.store.payments, w'.clients[d]) {
      assert Exact(w.store.payments, w.clients[d]);
    }
    forall d, e | 0 <= d < e < |w'.clients| ensures Apart(w'.clients[d], w'.clients[e]) {
      assert Apart(w.clients[d], w.clients[e]);
      var i := w.clients[c].phase.next - 1;
      if Selects(w.clients[c].period, w.store.payments[i]) {
        assert d != c ==> !Locks(w.clients[d], i);
        assert e != c ==> !Locks(w.clients[e], i);
      }
    }
  }

  lemma CommitKeepsExact(w: World, c: nat)
    requires AllExact(w) && Exclusive(w) && Enabled(w, Commit(c))
    ensures AllExact(Turn(w, Commit(c))) && Exclusive(Turn(w, Commit(c)))
  {
    var w' := Turn(w, Commit(c));
    forall d | 0 <= d < |w'.clients| ensures Exact(w'.store.payments, w'.clients[d]) {
      assert Exact(w.store.payments, w.clients[d]) && Exact(w.store.payments, w.clients[c]);
      assert d < c ==> Apart(w.clients[d], w.clients[c]);
      assert c < d ==> Apart(w.clients[c], w.clients[d]);
    }
    forall d, e | 0 <= d < e < |w'.clients| ensures Apart(w'.clients[d], w'.clients[e]) {
      assert Apart(w.clients[d], w.clients[e]);
    }
  }

  lemma SettledLast(s: Store, settled: seq<Period>, period: Period)
    requires Inv(s)
    ensures Run(s, Settlings(settled + [period])) ==
            GenerateBatch(Run(s, Settlings(settled)), period.tenant, period.provider, period.start, period.end)
  {
    assert (settled + [period])[..|settled|] == settled;
    hide Inv, GenerateBatch, Perform, After;
    RunOneMore(s, Settlings(settled), SettlingOf(period));
    SettlingGenerates(Run(s, Settlings(settled)), period);
  }

  lemma SettlingGenerates(s: Store, period: Period)
    requires Inv(s)
    ensures After(s, SettlingOf(period)) ==
            GenerateBatch(s, period.tenant, period.provider, period.start, period.end)
  {
    hide Inv, GenerateBatch;
  }

  lemma CommitKeepsSerial(s: Store, w: World, c: nat)
    requires Inv(s) && Serial(s, w) && Enabled(w, Commit(c))
    ensures Serial(s, Turn(w, Commit(c)))
  {
    assert Exact(w.store.payments, w.clients[c]);
    hide Inv, Run, GenerateBatch;
    SettlingAlone(w.store, w.clients[c]);
    CommitKeepsExact(w, c);
    SettledLast(s, w.settled, w.clients[c].period);
    hide AllExact, Exclusive, Exact;
  }

  lemma DropKeepsSerial(s: Store, w: World, c: nat)
    requires Inv(s) && Serial(s, w) && Enabled(w, Drop(c))
    ensures Serial(s, Turn(w, Drop(c)))
  {
    hide Inv, Run;
    var w' := Turn(w, Drop(c));
    forall d | 0 <= d < |w'.clients| ensures Exact(w'.store.payments, w'.clients[d]) {
      assert Exact(w.store.payments, w.clients[d]);
    }
    forall d, e | 0 <= d < e < |w'.clients| ensures Apart(w'.clients[d], w'.clients[e]) {
      assert Apart(w.clients[d], w.clients[e]);
    }
  }

  lemma TurnKeepsSerial(s: Store, w: World, m: Move)
    requires Inv(s) && Serial(s, w)
    ensures Serial(s, Turn(w, m))
  {
    hide Inv, Serial;
    if Enabled(w, m) {
      match m
      case Visit(c) => VisitKeepsSerial(s, w, c);
      case Commit(c) => CommitKeepsSerial(s, w, c);
      case Drop(c) => DropKeepsSerial(s, w, c);
    }
  }

  lemma PlayIsSerial(s: Store, periods: seq<Period>, moves: seq<Move>)
    requires Inv(s)
    ensures Serial(s, Play(Turn, Start(s, periods), moves))
  {
    hide Inv;
    var good := (w: World) => Serial(s, w);
    assert good(Start(s, periods));
    forall w: World, m: Move | good(w) ensures good(Turn(w, m)) {
      TurnKeepsSerial(s, w, m);
    }
    PlayKeeps(Turn, good, Start(s, periods), moves);
  }

  // ---------------------------------------------------------------- what it means for the payments

  /**
    However the requests interleave and their periods overlap, the batches are those
    of the same requests made one after another; so every batch's figures are those
    of the payments pointing at it, and none was claimed away from another batch.
  */
  lemma NoPaymentIsClaimedTwice(s: Store, periods: seq<Period>, moves: seq<Move>, k: nat)
    requires Inv(s)
    ensures var w := Play(Turn, Start(s, periods), moves);
            && Inv(w.store)
            && w.store == Run(s, Settlings(w.settled))
            && (k < |w.store.batches| ==>
                  && w.store.batches[k].gross == Sum(w.store.payments, BatchAmount(k))
                  && w.store.batches[k].platformFee == PAYMENT_SUCCESS_FEE * Sum(w.store.payments, InBatch(k)))
  {
    PlayIsSerial(s, periods, moves);
    var w := Play(Turn, Start(s, periods), moves);
    if k < |w.store.batches| {
      assert BatchExact(w.store.payments, w.store.batches, k);
    }
  }

  lemma TurnKeepsClaims(w: World, m: Move, i: nat)
    requires AllExact(w) && i < |w.store.payments| && w.store.payments[i].batch.Some?
    ensures i < |Turn(w, m).store.payments| && Turn(w, m).store.payments[i] == w.store.payments[i]
  {
    if Enabled(w, m) && m.Commit? {
      assert Exact(w.store.payments, w.clients[m.client]);
    }
  }

  /** A payment that has a batch keeps it, whatever the requests go on to do. */
  lemma ClaimedForGood(s: Store, periods: seq<Period>, moves: seq<Move>, more: seq<Move>, i: nat)
    requires Inv(s) && i < |s.payments|
    ensures var w := Play(Turn, Start(s, periods), moves);
            var later := Play(Turn, w, more);
            && |w.store.payments| == |later.store.payments| == |s.payments|
            && (w.store.payments[i].batch.Some? ==> later.store.payments[i] == w.store.payments[i])
  {
    PlayIsSerial(s, periods, moves);
    var w := Play(Turn, Start(s, periods), moves);
    var claimed := w.store.payments[i];
    var good := (v: World) =>
      Serial(s, v) && (claimed.batch.Some? ==> v.store.payments[i] == claimed);
    hide Inv, Run;
    forall v: World, m: Move | good(v) ensures good(Turn(v, m)) {
      TurnKeepsSerial(s, v, m);
      if claimed.batch.Some? {
        TurnKeepsClaims(v, m, i);
      }
    }
    PlayKeeps(Turn, good, w, more);
  }

  /** No deadlock: payments are locked in one order, so the request that is furthest can always go on. */
  lemma {:induction false} SomeoneCanGoOn(w: World, c: nat)
    requires AllExact(w) && c < |w.clients| && w.clients[c].phase.Selecting?
    ensures exists d: nat :: Enabled(w, Visit(d)) || Enabled(w, Commit(d))
    decreases w.clients[c].phase.next
  {
    assert Exact(w.store.payments, w.clients[c]);
    var next := w.clients[c].phase.next;
    if next == 0 {
      assert Enabled(w, Commit(c));
    } else if Selects(w.clients[c].period, w.store.payments[next - 1]) && LockedByOther(w, c, next - 1) {
      var d :| 0 <= d < |w.clients| && d != c && Locks(w.clients[d], next - 1);
      assert Exact(w.store.payments, w.clients[d]);
      SomeoneCanGoOn(w, d);
    } else {
      assert Enabled(w, Visit(c));
    }
  }
}
