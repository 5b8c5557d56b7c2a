/**
  Lost responses do not matter: initiations some of whose answers were lost, with
  manual queries in between, followed by one reconciliation run, end with the same
  money everywhere as the same calls with every answer received.
*/
module LostResponses {
  import opened Sums
  import opened Tables
  import opened Services
  import opened Invariants
  import opened Preservation
  import opened MoneyMoves
  import opened Runs
  import opened History
  import opened Reconciliation
  import opened MockProvider

  datatype World = World(store: Store, txns: seq<Txn>)

  datatype Request = Request(
    number: nat, provider: ProviderId, amount: PositiveCents, key: string, hint: string, reference: string, now: Time)

  predicate Deduplicated(s: Store, r: Request)
    requires r.number < |s.numbers|
  {
    r.key != "" && Newest(s.payments, Keyed(s.numbers[r.number].tenant, r.key)).Some?
  }

  /** An initiation served by the sandbox provider; a repeated key never reaches the provider. */
  ghost function Serve(w: World, r: Request): (w': World)
    requires Inv(w.store)
    ensures Inv(w'.store)
  {
    if r.number >= |w.store.numbers| then w
    else
      InitiationNeverRaises(w.store, r.number, r.provider, r.amount, r.key, ReplyTo(r.hint, r.reference), r.now);
      var s' := InitiatePayment(
                  w.store, r.number, r.provider, r.amount, r.key, ReplyTo(r.hint, r.reference), r.now).value.0;
      World(s', if Deduplicated(w.store, r) then w.txns else w.txns + [TxnFor(|w.store.payments|, r.hint, r.reference)])
  }

  /** A manual query, answered from the provider's transactions; one that raises is rolled back. */
  ghost function Ask(w: World, i: nat, now: Time): (w': World)
    requires Inv(w.store)
    ensures Inv(w'.store)
  {
    World(After(w.store, Querying(i, QueryReply(w.txns, i), now)), w.txns)
  }

  datatype Call = Initiation(request: Request) | Query(payment: nat, now: Time)

  ghost function Handle(w: World, call: Call): (w': World)
    requires Inv(w.store)
    ensures Inv(w'.store)
  {
    match call
    case Initiation(r) => Serve(w, r)
    case Query(i, now) => Ask(w, i, now)
  }

  ghost function HandleAll(w: World, calls: seq<Call>): (w': World)
    requires Inv(w.store)
    ensures Inv(w'.store)
    decreases |calls|
  {
    if |calls| == 0 then w else HandleAll(Handle(w, calls[0]), calls[1..])
  }

  /** The same request, with its answer received. */
  function Heard(r: Request): Request {
    if r.hint == "timeout" then r.(hint := "successful") else r
  }

  function HeardCall(call: Call): Call {
    if call.Initiation? then Initiation(Heard(call.request)) else call
  }

  function AllHeard(calls: seq<Call>): (heard: seq<Call>)
    ensures |heard| == |calls|
  {
    seq(|calls|, k requires 0 <= k < |calls| => HeardCall(calls[k]))
  }

  // ---------------------------------------------------------------- what an initiation adds

  /** The payment row that a served request adds. */
  function Opened(s: Store, r: Request): Payment
    requires r.number < |s.numbers|
  {
    var p := Payment(s.numbers[r.number].tenant, r.number, r.provider, Initiated, r.amount, r.key, "", None, None);
    if r.hint == "timeout" then p.(status := Unknown)
    else
      match ActualOutcome(r.hint)
      case OutcomeFailed => p.(status := Failed, reference := r.reference, completedAt := Some(r.now))
      case OutcomePending => p.(status := Pending, reference := r.reference)
      case _ => p.(status := Successful, reference := r.reference, completedAt := Some(r.now))
  }

  lemma ReplyOpens(w: World, r: Request, s1: Store)
    requires Inv(w.store) && Inv(s1) && r.number < |w.store.numbers|
    requires s1 == AddPayment(w.store, r.number, r.provider, r.amount, r.key)
    ensures var i, taken := |w.store.payments|, TakeReply(s1, |w.store.payments|, ReplyTo(r.hint, r.reference), r.now);
            && taken.Ok? && Steady(s1, taken.value)
            && taken.value.payments == w.store.payments + [Opened(w.store, r)]
  {
    hide Inv, KeysResolve;
    if r.hint != "timeout" {
      AnsweringAddsOne(s1, |w.store.payments|, ActualOutcome(r.hint), r.reference, r.now);
      hide Services.ApplyOutcome, Steady;
    }
  }

  lemma ServingAddsOne(w: World, r: Request)
    requires Inv(w.store) && r.number < |w.store.numbers|
    ensures var w' := Serve(w, r);
            && Steady(w.store, w'.store)
            && if Deduplicated(w.store, r) then w' == w
               else && w'.store.payments == w.store.payments + [Opened(w.store, r)]
                    && w'.txns == w.txns + [TxnFor(|w.store.payments|, r.hint, r.reference)]
  {
    hide Inv, KeysResolve, TakeReply, Opened;
    if !Deduplicated(w.store, r) {
      var s1 := AddPayment(w.store, r.number, r.provider, r.amount, r.key);
      AddPaymentKeepsInv(w.store, r.number, r.provider, r.amount, r.key);
      ReplyOpens(w, r, s1);
    }
  }

  lemma AnsweringAddsOne(s1: Store, i: nat, outcome: ProviderOutcome, reference: string, now: Time)
    requires Inv(s1) && i < |s1.payments| && s1.payments[i].status == Initiated && outcome != OutcomeUnknown
    ensures var s2 := SetReference(s1, i, reference);
            KeysResolve(s2) && var r := ApplyOutcome(s2, i, outcome, now);
            && r.Ok? && Steady(s1, r.value)
            && r.value.payments == s1.payments[i := s1.payments[i].(
                 status := TargetOf(outcome), reference := reference,
                 completedAt := if outcome == OutcomePending then s1.payments[i].completedAt else Some(now))]
  {
    var s2 := SetReference(s1, i, reference);
    ReferenceKeepsInv(s1, i, reference);
    OutcomeIsSteady(s2, i, outcome, now);
    if outcome == OutcomeSuccessful {
      SucceedWrites(s2, i, now);
    }
  }

  // ---------------------------------------------------------------- what a query changes

  /** The payment as a query answered from its transaction leaves it. */
  function Asked(p: Payment, txn: Txn, now: Time): Payment
    requires txn.outcome != OutcomeUnknown
  {
    var q := if p.reference == "" then p.(reference := txn.reference) else p;
    var target := TargetOf(txn.outcome);
    if p.status == target then q
    else if !MayMove(p.status, target) then p
    else q.(status := target, completedAt := if target == Pending then p.completedAt else Some(now))
  }

  /** The payments of a world in which one query was answered. */
  predicate AskedOne(w: World, w': World, i: nat, now: Time)
    requires Faithful(w.store.payments, w.txns)
  {
    && w'.txns == w.txns
    && w'.store.payments ==
       if i < |w.txns| then
         assert Known(w.store.payments[i], w.txns[i], i);
         w.store.payments[i := Asked(w.store.payments[i], w.txns[i], now)]
       else w.store.payments
  }

  lemma AskingIsQuerying(w: World, i: nat, now: Time)
    requires Inv(w.store)
    ensures var w' := Ask(w, i, now);
            && w'.txns == w.txns
            && if i < |w.store.payments| then
                 var r := QueryPayment(w.store, i, QueryReply(w.txns, i), now);
                 w'.store == if r.Ok? then r.value else w.store
               else w'.store == w.store
  {
    hide Inv, KeysResolve, Services.QueryPayment;
  }

  lemma AskingChangesOne(w: World, i: nat, now: Time)
    requires Inv(w.store) && Faithful(w.store.payments, w.txns)
    ensures Steady(w.store, Ask(w, i, now).store) && AskedOne(w, Ask(w, i, now), i, now)
  {
    SteadyReflexive(w.store);
    AskingIsQuerying(w, i, now);
    hide Inv, KeysResolve, Services.QueryPayment, Steady, Ask;
    if i < |w.store.payments| {
      FiledOnce(w.store.payments, w.txns, i);
      assert Known(w.store.payments[i], w.txns[i], i);
      AnswerChangesOne(w.store, i, w.txns[i], now);
    }
  }

  lemma AnswerChangesOne(s: Store, i: nat, txn: Txn, now: Time)
    requires Inv(s) && i < |s.payments| && txn.outcome != OutcomeUnknown && txn.reference != ""
    ensures var r := QueryPayment(s, i, Answered(txn.outcome, txn.reference), now);
            if r.Ok? then Steady(s, r.value) && r.value.payments == s.payments[i := Asked(s.payments[i], txn, now)]
            else Asked(s.payments[i], txn, now) == s.payments[i]
  {
    var s1 := LearnReference(s, i, txn.reference);
    QueryIsSteady(s, i, Answered(txn.outcome, txn.reference), now);
    ReferenceKeepsInv(s, i, txn.reference);
    assert KeysResolve(s1) && AllBooks(s1);
    hide Inv, Steady, AllBooks;
    OutcomeChangesOne(s1, i, txn.outcome, now);
    hide Services.ApplyOutcome, KeysResolve;
  }

  lemma OutcomeChangesOne(s: Store, i: nat, outcome: ProviderOutcome, now: Time)
    requires KeysResolve(s) && AllBooks(s) && i < |s.payments| && outcome != OutcomeUnknown
    ensures var r, p, target := ApplyOutcome(s, i, outcome, now), s.payments[i], TargetOf(outcome);
            if p.status == target then r == Ok(s)
            else if !MayMove(p.status, target) then r.Raised?
            else
              && r.Ok?
              && r.value.payments == s.payments[i := p.(
                   status := target, completedAt := if target == Pending then p.completedAt else Some(now))]
  {
    if outcome == OutcomeSuccessful && MayMove(s.payments[i].status, Successful) {
      SucceedWrites(s, i, now);
    }
    hide KeysResolve, AllBooks, Succeed;
  }

  // ---------------------------------------------------------------- with and without the losses

  /** The provider's transaction is what the payment says, as far as the payment has heard. */
  predicate Known(p: Payment, txn: Txn, i: nat) {
    && txn.merchant == i
    && txn.reference != ""
    && p.reference in {"", txn.reference}
    && (p.status == Successful && p.reference != "" ==> txn.outcome == OutcomeSuccessful)
    && (p.status == Failed && p.reference != "" ==> txn.outcome == OutcomeFailed)
    && (p.status == Unknown ==> txn.outcome == OutcomeSuccessful)
    && txn.outcome != OutcomeUnknown
  }

  predicate DistinctReferences(txns: seq<Txn>) {
    forall j, k :: 0 <= j < k < |txns| ==> txns[j].reference != txns[k].reference
  }

  /** Each payment has its own transaction at the provider, and references are never shared. */
  predicate Faithful(payments: seq<Payment>, txns: seq<Txn>) {
    && |txns| == |payments|
    && (forall i :: 0 <= i < |payments| ==> Known(payments[i], txns[i], i))
    && DistinctReferences(txns)
  }

  predicate NoneUnknown(payments: seq<Payment>, t: TenantId) {
    forall i :: 0 <= i < |payments| ==> !IsUnknown(payments[i], t)
  }

  predicate IsNew(txns: seq<Txn>, reference: string) {
    reference != "" && forall j :: 0 <= j < |txns| ==> txns[j].reference != reference
  }

  /** Provider references are new and distinct. */
  predicate FreshReferences(txns: seq<Txn>, calls: seq<Call>) {
    && (forall k :: 0 <= k < |calls| && calls[k].Initiation? ==> IsNew(txns, calls[k].request.reference))
    && (forall j, k :: 0 <= j < k < |calls| && calls[j].Initiation? && calls[k].Initiation? ==>
          calls[j].request.reference != calls[k].request.reference)
  }

  /** The same payment, but for the time it was completed at. */
  predicate CaughtUp(p: Payment, q: Payment) {
    q == p.(completedAt := q.completedAt)
  }

  /** A payment, and what it would have been had its answer not been lost. */
  predicate HeardOf(p: Payment, q: Payment, txn: Txn, t: TenantId) {
    || (CaughtUp(p, q) && !IsUnknown(p, t))
    || (&& p.status == Unknown && p.reference == ""
        && q == p.(status := Successful, reference := txn.reference, completedAt := q.completedAt))
  }

  predicate Lockstep(w: World, v: World, t: TenantId) {
    && w.txns == v.txns
    && w.store.numbers == v.store.numbers
    && |w.store.payments| == |v.store.payments|
    && Faithful(w.store.payments, w.txns)
    && (forall i :: 0 <= i < |w.store.payments| ==>
          HeardOf(w.store.payments[i], v.store.payments[i], w.txns[i], t))
  }

  lemma SameDeduplication(w: World, v: World, r: Request, t: TenantId)
    requires Lockstep(w, v, t) && r.number < |w.store.numbers|
    ensures Deduplicated(w.store, r) == Deduplicated(v.store, r)
  {
    var keyed := Keyed(w.store.numbers[r.number].tenant, r.key);
    forall i | 0 <= i < |w.store.payments| ensures keyed(w.store.payments[i]) == keyed(v.store.payments[i]) {
      assert HeardOf(w.store.payments[i], v.store.payments[i], w.txns[i], t);
    }
  }

  lemma ServingKeepsLockstep(w: World, v: World, r: Request, t: TenantId)
    requires Inv(w.store) && Inv(v.store) && Lockstep(w, v, t)
    requires IsNew(w.txns, r.reference)
    ensures Lockstep(Serve(w, r), Serve(v, Heard(r)), t)
    ensures Steady(w.store, Serve(w, r).store) && Steady(v.store, Serve(v, Heard(r)).store)
  {
    if r.number < |w.store.numbers| {
      SameDeduplication(w, v, r, t);
      ServingAddsOne(w, r);
      ServingAddsOne(v, Heard(r));
      hide Serve, Inv, KeysResolve, Steady, Opened, Deduplicated;
      if !Deduplicated(w.store, r) {
        BothOpened(w, v, r, t);
        LockstepPush(w, v, Serve(w, r), Serve(v, Heard(r)), Opened(w.store, r), Opened(v.store, Heard(r)),
                     TxnFor(|w.txns|, r.hint, r.reference), t);
      }
    }
  }

  lemma LockstepPush(
    w: World, v: World, w': World, v': World, p: Payment, q: Payment, txn: Txn, t: TenantId)
    requires Lockstep(w, v, t) && HeardOf(p, q, txn, t) && Faithful(w.store.payments + [p], w.txns + [txn])
    requires w'.store.payments == w.store.payments + [p] && v'.store.payments == v.store.payments + [q]
    requires w'.txns == w.txns + [txn] && v'.txns == v.txns + [txn] && w'.store.numbers == v'.store.numbers
    ensures Lockstep(w', v', t)
  {
    hide Known, DistinctReferences, HeardOf;
  }

  lemma BothOpened(w: World, v: World, r: Request, t: TenantId)
    requires Lockstep(w, v, t) && r.number < |w.store.numbers| && IsNew(w.txns, r.reference)
    ensures var p, q, txn := Opened(w.store, r), Opened(v.store, Heard(r)), TxnFor(|w.txns|, r.hint, r.reference);
            && HeardOf(p, q, txn, t)
            && TxnFor(|w.txns|, Heard(r).hint, Heard(r).reference) == txn
            && Faithful(w.store.payments + [p], w.txns + [txn])
  {
  }

  /** A query leaves a payment that was lost and the one that was heard alike, or brings the lost one back. */
  lemma AskedAlike(p: Payment, q: Payment, txn: Txn, t: TenantId, i: nat, now: Time)
    requires Known(p, txn, i) && HeardOf(p, q, txn, t)
    ensures Known(Asked(p, txn, now), txn, i)
    ensures HeardOf(Asked(p, txn, now), Asked(q, txn, now), txn, t)
  {
  }

  lemma AskedKeepsLockstep(w: World, v: World, w': World, v': World, i: nat, now: Time, t: TenantId)
    requires Lockstep(w, v, t) && Faithful(v.store.payments, v.txns)
    requires AskedOne(w, w', i, now) && AskedOne(v, v', i, now) && w'.store.numbers == v'.store.numbers
    ensures Lockstep(w', v', t)
  {
    if i < |w.txns| {
      assert Known(w.store.payments[i], w.txns[i], i);
      AskedAlike(w.store.payments[i], v.store.payments[i], w.txns[i], t, i, now);
      hide Known, HeardOf, Asked;
    }
  }

  lemma AskingKeepsLockstep(w: World, v: World, i: nat, now: Time, t: TenantId)
    requires Inv(w.store) && Inv(v.store) && Lockstep(w, v, t) && Faithful(v.store.payments, v.txns)
    ensures Lockstep(Ask(w, i, now), Ask(v, i, now), t)
    ensures Steady(w.store, Ask(w, i, now).store) && Steady(v.store, Ask(v, i, now).store)
  {
    hide Inv, Ask, AskedOne, Faithful;
    AskingChangesOne(w, i, now);
    AskingChangesOne(v, i, now);
    AskedKeepsLockstep(w, v, Ask(w, i, now), Ask(v, i, now), i, now, t);
  }

  /** What the provider has on file is also what the payments say that lost no answer. */
  lemma HeardIsFaithful(w: World, v: World, t: TenantId)
    requires Lockstep(w, v, t)
    ensures Faithful(v.store.payments, v.txns)
  {
    forall i | 0 <= i < |v.store.payments| ensures Known(v.store.payments[i], v.txns[i], i) {
      assert Known(w.store.payments[i], w.txns[i], i);
      assert HeardOf(w.store.payments[i], v.store.payments[i], w.txns[i], t);
    }
  }

  lemma HandlingKeepsLockstep(w: World, v: World, call: Call, t: TenantId)
    requires Inv(w.store) && Inv(v.store) && Lockstep(w, v, t)
    requires call.Initiation? ==> IsNew(w.txns, call.request.reference)
    ensures Lockstep(Handle(w, call), Handle(v, HeardCall(call)), t)
    ensures Steady(w.store, Handle(w, call).store) && Steady(v.store, Handle(v, HeardCall(call)).store)
  {
    if call.Query? {
      HeardIsFaithful(w, v, t);
    }
    hide Inv, Lockstep, Steady, Serve, Ask, IsNew, Heard;
    match call
    case Initiation(r) => ServingKeepsLockstep(w, v, r, t);
    case Query(i, now) => AskingKeepsLockstep(w, v, i, now, t);
  }

  lemma {:induction false} HandlingAllKeepsLockstep(w: World, v: World, calls: seq<Call>, t: TenantId)
    requires Inv(w.store) && Inv(v.store) && Lockstep(w, v, t)
    requires FreshReferences(w.txns, calls)
    ensures var w', v' := HandleAll(w, calls), HandleAll(v, AllHeard(calls));
            Lockstep(w', v', t) && Steady(w.store, w'.store) && Steady(v.store, v'.store)
    decreases |calls|
  {
    hide Lockstep, Handle, Inv, Steady, HeardCall, IsNew;
    HeardOneByOne(calls);
    if |calls| > 0 {
      var call, rest := calls[0], calls[1..];
      FreshAfter(w, calls);
      HandlingKeepsLockstep(w, v, call, t);
      HandlingAllKeepsLockstep(Handle(w, call), Handle(v, HeardCall(call)), rest, t);
      SteadyTransitive(w.store, Handle(w, call).store, HandleAll(w, calls).store);
      SteadyTransitive(v.store, Handle(v, HeardCall(call)).store, HandleAll(v, AllHeard(calls)).store);
    } else {
      SteadyReflexive(w.store);
      SteadyReflexive(v.store);
    }
  }

  lemma HeardOneByOne(calls: seq<Call>)
    ensures |calls| > 0 ==> AllHeard(calls)[0] == HeardCall(calls[0]) && AllHeard(calls)[1..] == AllHeard(calls[1..])
  {
  }

  lemma FreshAfter(w: World, calls: seq<Call>)
    requires Inv(w.store) && |calls| > 0 && FreshReferences(w.txns, calls)
    ensures FreshReferences(Handle(w, calls[0]).txns, calls[1..])
    ensures calls[0].Initiation? ==> IsNew(w.txns, calls[0].request.reference)
  {
    var rest := calls[1..];
    var txns := Handle(w, calls[0]).txns;
    if calls[0].Initiation? && calls[0].request.number < |w.store.numbers| {
      ServingAddsOne(w, calls[0].request);
    }
    hide Inv, Serve, Ask;
    forall k | 0 <= k < |rest| && rest[k].Initiation? ensures IsNew(txns, rest[k].request.reference) {
      assert IsNew(w.txns, calls[k + 1].request.reference);
      assert calls[0].Initiation? ==> calls[0].request.reference != calls[k + 1].request.reference;
    }
  }

  // ---------------------------------------------------------------- the reconciliation run

  function AskMock(txns: seq<Txn>): nat -> Reply {
    (i: nat) => QueryReply(txns, i)
  }

  function CheckMock(txns: seq<Txn>): string -> Reply {
    (reference: string) => CheckReply(txns, reference)
  }

  lemma FiledOnce(payments: seq<Payment>, txns: seq<Txn>, i: nat)
    requires Faithful(payments, txns) && i < |txns|
    ensures QueryReply(txns, i) == Answered(txns[i].outcome, txns[i].reference)
    ensures CheckReply(txns, txns[i].reference) == Answered(txns[i].outcome, txns[i].reference)
  {
    assert FiledUnder(i)(txns[i]) && FiledAs(txns[i].reference)(txns[i]);
    var found := Newest(txns, FiledUnder(i));
    assert Known(payments[found.value], txns[found.value], found.value);
  }

  lemma {:induction false} NoRows<T>(row: nat -> Option<T>, holds: nat -> bool, i: nat, n: nat)
    requires forall j: nat :: i <= j < n ==> row(j).None? && !holds(j)
    ensures Rows(row, i, n) == [] && Count(holds, i, n) == 0
    decreases n - i
  {
    if i < n {
      NoRows(row, holds, i + 1, n);
    }
  }

  /** The provider agrees with every payment that has been answered. */
  lemma AnsweredMatches(payments: seq<Payment>, txns: seq<Txn>, t: TenantId, now: Time, i: nat)
    requires Faithful(payments, txns) && i < |payments|
    ensures var ask, check := AskMock(txns), CheckMock(txns);
            var answered := AnswerAll(payments, t, ask, now);
            && !BrokenAt(payments, t, ask)(i) && !StuckAt(payments, t, ask)(i)
            && !SilentAt(answered, t, check)(i) && !FoundAt(answered, t, check)(i)
  {
    FiledOnce(payments, txns, i);
    assert Known(payments[i], txns[i], i);
    var answered := AnswerAll(payments, t, AskMock(txns), now);
    var p := answered[i];
    assert AskMock(txns)(i) == Answered(txns[i].outcome, txns[i].reference);
    assert SettledAt(answered, t)(i) == IsSettled(p, t);
    assert !SilentAt(answered, t, CheckMock(txns))(i);
    if IsSettled(p, t) {
      assert p.reference == txns[i].reference;
      assert TargetOf(txns[i].outcome) == p.status;
      assert CheckMock(txns)(p.reference) == Answered(txns[i].outcome, p.reference);
      assert Discrepancy(p.status, txns[i].outcome).None?;
      assert FindingAt(answered, t, CheckMock(txns))(i) == Discrepancy(p.status, CheckMock(txns)(p.reference).outcome);
    } else {
      assert FindingAt(answered, t, CheckMock(txns))(i) == None;
    }
  }

  lemma NothingToReport(w: World, t: TenantId, now: Time)
    requires Faithful(w.store.payments, w.txns)
    ensures var ask, check, n := AskMock(w.txns), CheckMock(w.txns), |w.store.payments|;
            var answered := AnswerAll(w.store.payments, t, ask, now);
            && !SomeBroken(w.store.payments, t, ask)
            && !SomeSilent(answered, t, check)
            && (forall run: nat :: Rows(StuckRow(w.store.payments, t, ask, run), 0, n) == [])
            && (forall run: nat :: Rows(FindingRow(answered, t, check, run), 0, n) == [])
            && Count(StuckAt(w.store.payments, t, ask), 0, n) == 0
            && Count(FoundAt(answered, t, check), 0, n) == 0
  {
    var ask, check, n := AskMock(w.txns), CheckMock(w.txns), |w.store.payments|;
    var answered := AnswerAll(w.store.payments, t, ask, now);
    forall i: nat | i < n
      ensures !BrokenAt(w.store.payments, t, ask)(i) && !StuckAt(w.store.payments, t, ask)(i)
      ensures !SilentAt(answered, t, check)(i) && !FoundAt(answered, t, check)(i)
    {
      AnsweredMatches(w.store.payments, w.txns, t, now, i);
    }
    hide BrokenAt, SilentAt, Faithful;
    NoRows(NoRow(), StuckAt(w.store.payments, t, ask), 0, n);
    NoRows(NoRow(), FoundAt(answered, t, check), 0, n);
    forall run: nat
      ensures Rows(StuckRow(w.store.payments, t, ask, run), 0, n) == []
      ensures Rows(FindingRow(answered, t, check, run), 0, n) == []
    {
      NoExceptionRows(w.store.payments, answered, t, ask, check, run);
    }
  }

  function NoRow(): nat -> Option<ReconException> {
    (i: nat) => None
  }

  lemma NoExceptionRows(
    payments: seq<Payment>, answered: seq<Payment>, t: TenantId, ask: nat -> Reply, check: string -> Reply, run: nat)
    requires |answered| == |payments|
    requires forall i: nat :: i < |payments| ==> !StuckAt(payments, t, ask)(i) && !FoundAt(answered, t, check)(i)
    ensures Rows(StuckRow(payments, t, ask, run), 0, |payments|) == []
    ensures Rows(FindingRow(answered, t, check, run), 0, |payments|) == []
  {
    var n := |payments|;
    forall i: nat | i < n ensures StuckRow(payments, t, ask, run)(i).None? && FindingRow(answered, t, check, run)(i).None? {
      assert !StuckAt(payments, t, ask)(i) && !FoundAt(answered, t, check)(i);
    }
    NoRows(StuckRow(payments, t, ask, run), StuckAt(payments, t, ask), 0, n);
    NoRows(FindingRow(answered, t, check, run), FoundAt(answered, t, check), 0, n);
  }

  lemma RunCatchesUp(w: World, v: World, t: TenantId, now: Time)
    requires Inv(w.store) && Lockstep(w, v, t)
    ensures var r := Reconcile(w.store, t, AskMock(w.txns), CheckMock(w.txns), now);
            && r.Ok?
            && r.value.exceptions == w.store.exceptions
            && |r.value.runs| == |w.store.runs| + 1
            && r.value.runs[|w.store.runs|].exceptions == 0
            && |r.value.payments| == |v.store.payments|
            && (forall i :: 0 <= i < |v.store.payments| && v.store.payments[i].tenant == t ==>
                  CaughtUp(r.value.payments[i], v.store.payments[i]))
            && (forall i :: 0 <= i < |v.store.payments| ==>
                  r.value.payments[i].tenant == v.store.payments[i].tenant)
  {
    ReconcileDecides(w.store, t, AskMock(w.txns), CheckMock(w.txns), now);
    NothingToReport(w, t, now);
    hide Reconcile, Inv, Rows, Count, SomeBroken, SomeSilent;
    forall i | 0 <= i < |v.store.payments| ensures
        var answered := AnswerAll(w.store.payments, t, AskMock(w.txns), now)[i];
        && answered.tenant == v.store.payments[i].tenant
        && (v.store.payments[i].tenant == t ==> CaughtUp(answered, v.store.payments[i]))
    {
      FiledOnce(w.store.payments, w.txns, i);
      assert Known(w.store.payments[i], w.txns[i], i);
      assert HeardOf(w.store.payments[i], v.store.payments[i], w.txns[i], t);
    }
  }

  // ---------------------------------------------------------------- the same money everywhere

  predicate SamePayments(s: Store, d: Store, t: TenantId) {
    && |s.payments| == |d.payments|
    && forall i :: 0 <= i < |s.payments| ==>
                     && s.payments[i].tenant == d.payments[i].tenant
                     && (d.payments[i].tenant == t ==> CaughtUp(s.payments[i], d.payments[i]))
  }

  /** Bills and what was paid on them, and every book of the tenant. */
  predicate SameMoney(s: Store, d: Store, t: TenantId) {
    && |s.bills| == |d.bills|
    && (forall b :: 0 <= b < |s.bills| && s.bills[b].tenant == t ==>
          s.bills[b] == d.bills[b] && AmountPaid(s.allocations, b) == AmountPaid(d.allocations, b))
    && Sum(s.ledger, OnPlatform(t)) == Sum(d.ledger, OnPlatform(t))
    && Sum(s.ledger, Entitled(t)) == Sum(d.ledger, Entitled(t))
    && Sum(s.ledger, Received(t)) == Sum(d.ledger, Received(t))
    && Sum(s.events, Earned(t)) == Sum(d.events, Earned(t))
  }

  lemma SameBill(s0: Store, s: Store, d: Store, t: TenantId, b: nat)
    requires Inv(s) && Inv(d) && Steady(s0, s) && Steady(s0, d) && SamePayments(s, d, t)
    requires b < |s0.bills| && s0.bills[b].tenant == t
    ensures s.bills[b] == d.bills[b] && AmountPaid(s.allocations, b) == AmountPaid(d.allocations, b)
  {
    assert BillExact(s, b) && BillExact(d, b);
    forall i | 0 <= i < |s.payments|
      ensures PaidTo(s.numbers, b)(s.payments[i]) == PaidTo(d.numbers, b)(d.payments[i])
    {
      assert s.numbers[s.payments[i].number].owner == ForBill(b) ==> s.payments[i].tenant == t;
      assert d.numbers[d.payments[i].number].owner == ForBill(b) ==> d.payments[i].tenant == t;
    }
    SumMatch(s.payments, PaidTo(s.numbers, b), d.payments, PaidTo(d.numbers, b));
  }

  lemma SameTenantBooks(s0: Store, s: Store, d: Store, t: TenantId)
    requires Inv(s) && Inv(d) && Steady(s0, s) && Steady(s0, d) && SamePayments(s, d, t)
    ensures SameMoney(s, d, t)
  {
    assert TenantBooks(s, t) && TenantBooks(d, t);
    SumMatch(s.payments, EverPaid(t), d.payments, EverPaid(t));
    SumMatch(s.payments, EverAmount(t), d.payments, EverAmount(t));
    forall b | 0 <= b < |s.bills| && s.bills[b].tenant == t
      ensures s.bills[b] == d.bills[b] && AmountPaid(s.allocations, b) == AmountPaid(d.allocations, b)
    {
      SameBill(s0, s, d, t, b);
    }
  }

  /**
    For every sequence of initiations and manual queries and every choice of lost
    answers: one run completes without opening an exception and leaves every payment
    of the tenant in the status it would have had, and with it every bill, ledger
    and revenue total.
  */
  lemma LostResponsesDoNotMatter(w: World, calls: seq<Call>, t: TenantId, now: Time)
    requires Inv(w.store) && Faithful(w.store.payments, w.txns) && FreshReferences(w.txns, calls)
    requires NoneUnknown(w.store.payments, t)
    ensures var lossy, heard := HandleAll(w, calls), HandleAll(w, AllHeard(calls));
            && lossy.txns == heard.txns
            && Recovers(lossy, heard, t, now)
  {
    var lossy, heard := HandleAll(w, calls), HandleAll(w, AllHeard(calls));
    StartsInLockstep(w, t);
    HandlingAllKeepsLockstep(w, w, calls, t);
    hide Inv, HandleAll, Steady, Recovers, FreshReferences, Faithful;
    RunRecovers(w.store, lossy, heard, t, now);
  }

  lemma StartsInLockstep(w: World, t: TenantId)
    requires Faithful(w.store.payments, w.txns) && NoneUnknown(w.store.payments, t)
    ensures Lockstep(w, w, t)
  {
  }

  /** One reconciliation run brings the lossy world to where the other one is. */
  ghost predicate Recovers(lossy: World, heard: World, t: TenantId, now: Time)
    requires Inv(lossy.store)
  {
    var r := Reconcile(lossy.store, t, AskMock(lossy.txns), CheckMock(lossy.txns), now);
    && r.Ok?
    && r.value.exceptions == lossy.store.exceptions
    && |r.value.runs| == |lossy.store.runs| + 1 && r.value.runs[|lossy.store.runs|].exceptions == 0
    && SamePayments(r.value, heard.store, t)
    && SameMoney(r.value, heard.store, t)
  }

  lemma RunRecovers(s0: Store, lossy: World, heard: World, t: TenantId, now: Time)
    requires Inv(lossy.store) && Inv(heard.store) && Lockstep(lossy, heard, t)
    requires Steady(s0, lossy.store) && Steady(s0, heard.store)
    ensures Recovers(lossy, heard, t, now)
  {
    ReconcileKeepsInv(lossy.store, t, AskMock(lossy.txns), CheckMock(lossy.txns), now);
    ReconcileIsSteady(lossy.store, t, AskMock(lossy.txns), CheckMock(lossy.txns), now);
    RunCatchesUp(lossy, heard, t, now);
    var s := Reconcile(lossy.store, t, AskMock(lossy.txns), CheckMock(lossy.txns), now).value;
    hide Reconcile, Inv, Lockstep;
    SteadyTransitive(s0, lossy.store, s);
    SameTenantBooks(s0, s, heard.store, t);
  }
}
