/**
  The race for control numbers is about the same table as the service: a request in
  the race sees what the service sees, and what it commits is what the service writes.
*/
module NumberRaceService {
  import opened Sums
  import opened Tables
  import opened NumberRace
  import Services
  import BillRequests
  import Idempotency

  // ---------------------------------------------------------------- reading

  /** The committed rows are those of the control-number table, by their place in it. */
  ghost predicate Mirrors(rows: map<RowId, Row>, numbers: seq<ControlNumber>) {
    && (forall id: RowId :: id in rows <==> id < |numbers|)
    && forall id :: 0 <= id < |numbers| ==> rows[id] == Row(numbers[id].value, numbers[id].owner, numbers[id].status)
  }

  /** Race and service have the same unique constraints. */
  lemma SameConstraints(w: World, numbers: seq<ControlNumber>)
    requires Mirrors(w.rows, numbers)
    ensures CommittedDistinct(w) <==> Idempotency.UniqueNumbers(numbers)
  {
    if Idempotency.UniqueNumbers(numbers) {
      forall i, j | i in w.rows && j in w.rows && i != j ensures !Clash(w.rows[i], w.rows[j]) {
        var a, b := if i < j then i else j, if i < j then j else i;
        assert numbers[a].value != numbers[b].value;
      }
    }
    if CommittedDistinct(w) {
      forall i, j | 0 <= i < j < |numbers|
        ensures && numbers[i].value != numbers[j].value
                && (numbers[i].owner == numbers[j].owner ==>
                      && numbers[i].owner.ForAccount?
                      && !(numbers[i].status == NumberActive && numbers[j].status == NumberActive))
      {
        assert !Clash(w.rows[i], w.rows[j]);
      }
    }
  }

  lemma ServesAlike(w: World, numbers: seq<ControlNumber>, owner: Owner, n: RowId)
    requires Mirrors(w.rows, numbers) && n < |numbers|
    ensures Services.Reusable(owner)(numbers[n]) == Serves(w.rows[n], owner) == BillRequests.Serves(numbers[n], owner)
  {
  }

  /** On the same table, a request in the race sees the number that the service finds. */
  lemma RaceReadsTheTable(w: World, numbers: seq<ControlNumber>, owner: Owner, found: Option<RowId>)
    requires Mirrors(w.rows, numbers) && CommittedDistinct(w)
    ensures Sees(w, owner, found) <==> found == Newest(numbers, Services.Reusable(owner))
  {
    forall n: RowId | n < |numbers| ensures Services.Reusable(owner)(numbers[n]) == Serves(w.rows[n], owner) {
      ServesAlike(w, numbers, owner, n);
    }
    forall i, j | i in w.rows && j in w.rows && Serves(w.rows[i], owner) && Serves(w.rows[j], owner) ensures i == j {
      assert i != j ==> !Clash(w.rows[i], w.rows[j]);
    }
    hide Serves, CommittedDistinct;
  }

  /** Its insert fails exactly when its value is taken or its owner is being served. */
  lemma RaceInsertsUnlessTaken(w: World, numbers: seq<ControlNumber>, owner: Owner, value: string)
    requires Mirrors(w.rows, numbers)
    ensures ClashesWithCommitted(w, Row(value, owner, NumberActive)) <==>
              || BillRequests.ValueTaken(numbers, value)
              || exists n :: 0 <= n < |numbers| && BillRequests.Serves(numbers[n], owner)
  {
    var row := Row(value, owner, NumberActive);
    forall n: RowId | n < |numbers|
      ensures Clash(w.rows[n], row) <==> numbers[n].value == value || BillRequests.Serves(numbers[n], owner)
    {
      ServesAlike(w, numbers, owner, n);
    }
    hide Serves, Clash, BillRequests.Serves;
  }

  // ---------------------------------------------------------------- writing

  function FeeOf(id: RowId): LedgerEntry -> int {
    (e: LedgerEntry) => if e.kind == PlatformControlNumberFee && e.source == OfNumber(id) then 1 else 0
  }

  function EventOf(id: RowId, kind: EventKind): RevenueEvent -> int {
    (e: RevenueEvent) => if e.kind == kind && e.source == OfNumber(id) then 1 else 0
  }

  predicate TracksRow(w: World, s: Store, id: RowId) {
    && w.fees[id] == Sum(s.ledger, FeeOf(id))
    && w.created[id] == Sum(s.events, EventOf(id, ControlNumberCreated))
    && w.reused[id] == Sum(s.events, EventOf(id, ControlNumberReused))
  }

  /** The world has the store's control numbers, and counts their fees and events. */
  ghost predicate Tracks(w: World, s: Store) {
    Mirrors(w.rows, s.numbers) && forall id: RowId :: TracksRow(w, s, id)
  }

  /** Committing a new number writes the rows that the service writes: the number, its fee and its CREATED event. */
  lemma CreatingIsTheService(w: World, s: Store, c: nat, tenant: TenantId, expiresAt: Option<Time>)
    requires Tracks(w, s) && Enabled(w, Commit(c)) && w.clients[c].phase.write.Insert?
    requires w.clients[c].phase.id == |s.numbers|
    ensures var row := w.clients[c].phase.write.row;
            Tracks(Apply(w, Commit(c)),
                   Services.CreateNumber(s, ControlNumber(tenant, row.value, row.owner, row.status, expiresAt)))
  {
    var row := w.clients[c].phase.write.row;
    var number := ControlNumber(tenant, row.value, row.owner, row.status, expiresAt);
    var w' := Apply(w, Commit(c));
    CommitInserts(w, c);
    hide Enabled, Apply, Services.CreateNumber, Sum;
    forall id: RowId ensures TracksRow(w', Services.CreateNumber(s, number), id) {
      assert TracksRow(w, s, id);
      NewNumberCounts(s, number, id);
    }
    MirrorsPush(w.rows, s.numbers, number);
    NewNumberCounts(s, number, 0);
  }

  lemma CommitInserts(w: World, c: nat)
    requires Enabled(w, Commit(c)) && w.clients[c].phase.write.Insert?
    ensures var w', phase := Apply(w, Commit(c)), w.clients[c].phase;
            && w'.rows == w.rows[phase.id := phase.write.row]
            && w'.fees == w.fees + multiset{phase.id}
            && w'.created == w.created + multiset{phase.id}
            && w'.reused == w.reused
  {
  }

  lemma MirrorsPush(rows: map<RowId, Row>, numbers: seq<ControlNumber>, number: ControlNumber)
    requires Mirrors(rows, numbers)
    ensures Mirrors(rows[|numbers| := Row(number.value, number.owner, number.status)], numbers + [number])
  {
  }

  lemma NewNumberCounts(s: Store, number: ControlNumber, id: RowId)
    ensures var s' := Services.CreateNumber(s, number);
            var more := if id == |s.numbers| then 1 else 0;
            && s'.numbers == s.numbers + [number]
            && Sum(s'.ledger, FeeOf(id)) == Sum(s.ledger, FeeOf(id)) + more
            && Sum(s'.events, EventOf(id, ControlNumberCreated)) == Sum(s.events, EventOf(id, ControlNumberCreated)) + more
            && Sum(s'.events, EventOf(id, ControlNumberReused)) == Sum(s.events, EventOf(id, ControlNumberReused))
  {
    var s' := Services.CreateNumber(s, number);
    SumPush(s.ledger, s'.ledger[|s.ledger|], FeeOf(id));
    SumPush(s.events, s'.events[|s.events|], EventOf(id, ControlNumberCreated));
    SumPush(s.events, s'.events[|s.events|], EventOf(id, ControlNumberReused));
  }

  /** A request that finds its number and commits undisturbed leaves what the service leaves, one REUSED event more. */
  lemma ReuseIsTheService(
    w: World, s: Store, c: nat, id: RowId, tenant: TenantId, candidates: seq<string>, expiresAt: Option<Time>)
    requires Tracks(w, s) && CommittedDistinct(w) && Enabled(w, Check(c, Some(id)))
    ensures var w1 := Apply(w, Check(c, Some(id)));
            var r := Services.GetOrCreateNumber(s, tenant, w.clients[c].owner, candidates, expiresAt);
            && Enabled(w1, Commit(c))
            && Apply(w1, Commit(c)).clients[c].phase == Finished(id, false)
            && r.Ok? && r.value.1 == id && !r.value.2
            && Tracks(Apply(w1, Commit(c)), r.value.0)
  {
    RaceReadsTheTable(w, s.numbers, w.clients[c].owner, Some(id));
    var w2 := Apply(Apply(w, Check(c, Some(id))), Commit(c));
    assert w2.rows == w.rows && w2.fees == w.fees && w2.created == w.created && w2.reused == w.reused + multiset{id};
    var s' := Services.GetOrCreateNumber(s, tenant, w.clients[c].owner, candidates, expiresAt).value.0;
    var event := RevenueEvent(s.numbers[id].tenant, ControlNumberReused, 0, OfNumber(id), None, None);
    assert s' == s.(events := s.events + [event]);
    hide Enabled, Apply, Services.GetOrCreateNumber, Sum, CommittedDistinct, Mirrors;
    forall j: RowId ensures TracksRow(w2, s', j) {
      assert TracksRow(w, s, j);
      SumPush(s.events, event, EventOf(j, ControlNumberCreated));
      SumPush(s.events, event, EventOf(j, ControlNumberReused));
    }
  }

  /** Cancelling and expiring in the middle of the race are the service's updates of the table. */
  lemma CancellingIsTheService(w: World, s: Store, id: RowId)
    requires Tracks(w, s) && id < |s.numbers|
    ensures Enabled(w, Cancel(id)) && Tracks(Apply(w, Cancel(id)), Services.CancelNumber(s, id))
  {
    forall j: RowId ensures TracksRow(Apply(w, Cancel(id)), Services.CancelNumber(s, id), j) {
      assert TracksRow(w, s, j);
    }
  }

  lemma ExpiringIsTheService(w: World, s: Store, ids: set<RowId>, only: Option<TenantId>, now: Time)
    requires Tracks(w, s)
    requires ids == set n: nat | n < |s.numbers| && BillRequests.Due(s.numbers[n], only, now)
    ensures Enabled(w, Expire(ids)) && Tracks(Apply(w, Expire(ids)), Services.ExpireOverdue(s, only, now))
  {
    var w', s' := Apply(w, Expire(ids)), Services.ExpireOverdue(s, only, now);
    assert forall n: RowId :: n in w'.rows <==> n in w.rows;
    forall j: RowId ensures TracksRow(w', s', j) {
      assert TracksRow(w, s, j);
    }
  }
}
