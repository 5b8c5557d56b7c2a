/**
  Any number of payment initiations at once. The payment row is inserted before
  the provider is called, so the unique constraint on (tenant, key) decides the
  race while nobody has been charged yet. A charge is not undone by a rollback.
*/
module ChargeRace {
  import opened Sums
  import opened Tables
  import opened Interleavings
  import Services

  type RowId = nat

  datatype Row = Row(tenant: TenantId, key: string)

  datatype Phase =
    | Checking
    | Inserting
    | Inserted(id: RowId)
    | Charged(id: RowId)
    | Returning(id: RowId)
    | Finished(id: RowId)
    | RolledBack

  datatype Client = Client(row: Row, phase: Phase)

  /** The committed payments, the charges at the provider by payment, and the requests in flight. */
  datatype World = World(rows: map<RowId, Row>, charges: multiset<RowId>, clients: seq<Client>)

  datatype Move =
    | Check(client: nat, found: Option<RowId>)
    | Insert(client: nat, id: RowId)
    | Charge(client: nat)
    | Answer(client: nat, reply: Reply)
    | Commit(client: nat)
    | Abort(client: nat)

  /** The unique constraint on the idempotency key of a tenant, which ignores blank keys. */
  predicate Clash(a: Row, b: Row) {
    a.key != "" && a == b
  }

  /** The request has inserted a row that is not committed yet. */
  predicate Holds(client: Client) {
    client.phase.Inserted? || client.phase.Charged? || client.phase.Returning?
  }

  predicate ClashesWithCommitted(w: World, row: Row) {
    exists id :: id in w.rows && Clash(w.rows[id], row)
  }

  predicate ClashesWithHeld(w: World, c: nat, row: Row) {
    exists d :: 0 <= d < |w.clients| && d != c && Holds(w.clients[d]) && Clash(w.clients[d].row, row)
  }

  predicate Unissued(w: World, id: RowId) {
    && id !in w.rows
    && forall d :: 0 <= d < |w.clients| && Holds(w.clients[d]) ==> w.clients[d].phase.id != id
  }

  /** A blank key looks nothing up; otherwise the query sees committed payments only. */
  predicate Sees(w: World, row: Row, found: Option<RowId>) {
    match found
    case Some(id) => id in w.rows && Clash(w.rows[id], row)
    case None => forall id :: id in w.rows ==> !Clash(w.rows[id], row)
  }

  predicate Enabled(w: World, m: Move) {
    && m.client < |w.clients|
    && var phase := w.clients[m.client].phase;
       match m
       case Check(c, found) => phase.Checking? && Sees(w, w.clients[c].row, found)
       case Insert(c, id) =>
         && phase.Inserting?
         && Unissued(w, id) && id !in w.charges
         && (ClashesWithHeld(w, c, w.clients[c].row) ==> ClashesWithCommitted(w, w.clients[c].row))
       case Charge(_) => phase.Inserted?
       case Answer(_, _) => phase.Charged?
       case Commit(_) => phase.Returning?
       case Abort(_) => phase.Checking? || phase.Inserting? || phase.Inserted?
  }

  function Become(w: World, c: nat, phase: Phase): World
    requires c < |w.clients|
  {
    w.(clients := w.clients[c := w.clients[c].(phase := phase)])
  }

  /** The status that the reply calls for: a lost one is UNKNOWN, never FAILED. */
  function LandsOn(reply: Reply): PaymentStatus {
    match reply
    case TimedOut => Unknown
    case Refused => Failed
    case Answered(outcome, _) => if outcome == OutcomeUnknown then Unknown else Services.TargetOf(outcome)
  }

  /** A reply that calls for a status the new payment may not move to raises, which rolls the row back. */
  function Apply(w: World, m: Move): World
    requires Enabled(w, m)
  {
    match m
    case Check(c, found) => Become(w, c, if found.Some? then Finished(found.value) else Inserting)
    case Insert(c, id) =>
      Become(w, c, if ClashesWithCommitted(w, w.clients[c].row) then RolledBack else Inserted(id))
    case Charge(c) =>
      var id := w.clients[c].phase.id;
      Become(w, c, Charged(id)).(charges := w.charges + multiset{id})
    case Answer(c, reply) =>
      Become(w, c, if MayMove(Initiated, LandsOn(reply)) then Returning(w.clients[c].phase.id) else RolledBack)
    case Commit(c) =>
      var id := w.clients[c].phase.id;
      Become(w, c, Finished(id)).(rows := w.rows[id := w.clients[c].row])
    case Abort(c) => Become(w, c, RolledBack)
  }

  function Start(requests: seq<Row>): World {
    World(map[], multiset{}, seq(|requests|, c requires 0 <= c < |requests| => Client(requests[c], Checking)))
  }

  /** A move that is not enabled, such as a blocked insert, does nothing. */
  function Turn(w: World, m: Move): World {
    if Enabled(w, m) then Apply(w, m) else w
  }

  // ---------------------------------------------------------------- the invariant

  predicate CommittedDistinct(w: World) {
    forall i, j :: i in w.rows && j in w.rows && i != j ==> !Clash(w.rows[i], w.rows[j])
  }

  predicate HolderSafe(w: World, c: nat)
    requires c < |w.clients|
  {
    Holds(w.clients[c]) ==>
      && w.clients[c].phase.id !in w.rows
      && !ClashesWithCommitted(w, w.clients[c].row)
      && forall d :: 0 <= d < |w.clients| && d != c && Holds(w.clients[d]) ==>
                       && w.clients[d].phase.id != w.clients[c].phase.id
                       && !Clash(w.clients[d].row, w.clients[c].row)
  }

  predicate AllHolders(w: World) {
    forall c :: 0 <= c < |w.clients| ==> HolderSafe(w, c)
  }

  predicate AllAnswers(w: World) {
    forall c :: 0 <= c < |w.clients| && w.clients[c].phase.Finished? ==>
                  w.clients[c].phase.id in w.rows && w.rows[w.clients[c].phase.id] == w.clients[c].row
  }

  /** The payment was charged and its request has yet to commit it. */
  predicate InFlight(w: World, c: nat, id: RowId) {
    c < |w.clients| && w.clients[c].phase in {Charged(id), Returning(id)}
  }

  /** One charge for each payment that is committed or in flight to be, and no other charge. */
  ghost predicate ChargesExact(w: World) {
    forall id: RowId ::
      w.charges[id] == if id in w.rows || exists c: nat :: InFlight(w, c, id) then 1 else 0
  }

  ghost predicate RaceInv(w: World) {
    CommittedDistinct(w) && AllHolders(w) && AllAnswers(w) && ChargesExact(w)
  }

  lemma StartIsSafe(requests: seq<Row>)
    ensures RaceInv(Start(requests))
  {
  }

  // ---------------------------------------------------------------- every move keeps it

  lemma SameCharges(w: World, w': World)
    requires ChargesExact(w) && w'.charges == w.charges && w'.rows == w.rows
    requires forall c: nat, id: RowId :: InFlight(w', c, id) <==> InFlight(w, c, id)
    ensures ChargesExact(w')
  {
    forall id: RowId
      ensures w'.charges[id] == if id in w'.rows || exists c: nat :: InFlight(w', c, id) then 1 else 0
    {
      if c: nat :| InFlight(w, c, id) {
        assert InFlight(w', c, id);
      }
    }
  }

  /** Moves that insert, charge and commit nothing. */
  lemma QuietKeepsInv(w: World, c: nat, phase: Phase)
    requires RaceInv(w) && c < |w.clients|
    requires w.clients[c].phase.Checking? || w.clients[c].phase.Inserting? || w.clients[c].phase.Inserted?
    requires phase.Inserting? || phase.RolledBack? || phase.Finished?
    requires phase.Finished? ==> phase.id in w.rows && w.rows[phase.id] == w.clients[c].row
    ensures RaceInv(Become(w, c, phase))
  {
    var w' := Become(w, c, phase);
    forall d | 0 <= d < |w'.clients| ensures HolderSafe(w', d) {
      assert HolderSafe(w, d);
    }
    SameCharges(w, w');
  }

  lemma InsertKeepsInv(w: World, c: nat, id: RowId)
    requires RaceInv(w) && Enabled(w, Insert(c, id)) && !ClashesWithCommitted(w, w.clients[c].row)
    ensures RaceInv(Apply(w, Insert(c, id)))
  {
    var w' := Apply(w, Insert(c, id));
    forall d | 0 <= d < |w'.clients| ensures HolderSafe(w', d) {
      assert HolderSafe(w, d);
      if d != c && Holds(w.clients[d]) {
        assert !Clash(w.clients[d].row, w.clients[c].row);
      }
    }
    SameCharges(w, w');
  }

  /** The provider is called for a payment that was never charged before. */
  lemma ChargeKeepsInv(w: World, c: nat)
    requires RaceInv(w) && Enabled(w, Charge(c))
    ensures RaceInv(Apply(w, Charge(c)))
  {
    var w', id := Apply(w, Charge(c)), w.clients[c].phase.id;
    assert HolderSafe(w, c);
    forall d | 0 <= d < |w'.clients| ensures HolderSafe(w', d) {
      assert HolderSafe(w, d);
    }
    assert InFlight(w', c, id);
    forall d: nat ensures !InFlight(w, d, id) {
      assert d < |w.clients| && d != c && Holds(w.clients[d]) ==> w.clients[d].phase.id != id;
    }
    forall i: RowId
      ensures w'.charges[i] == if i in w'.rows || exists d: nat :: InFlight(w', d, i) then 1 else 0
    {
      forall d: nat | i != id ensures InFlight(w', d, i) <==> InFlight(w, d, i) {
      }
      if i != id {
        if d: nat :| InFlight(w, d, i) {
          assert InFlight(w', d, i);
        }
      }
    }
  }

  lemma AnswerKeepsInv(w: World, c: nat, reply: Reply)
    requires RaceInv(w) && Enabled(w, Answer(c, reply))
    ensures RaceInv(Apply(w, Answer(c, reply)))
  {
    var w' := Apply(w, Answer(c, reply));
    forall d | 0 <= d < |w'.clients| ensures HolderSafe(w', d) {
      assert HolderSafe(w, d);
    }
    SameCharges(w, w');
  }

  lemma CommitKeepsInv(w: World, c: nat)
    requires RaceInv(w) && Enabled(w, Commit(c))
    ensures RaceInv(Apply(w, Commit(c)))
  {
    var w', id := Apply(w, Commit(c)), w.clients[c].phase.id;
    assert HolderSafe(w, c) && InFlight(w, c, id);
    forall d | 0 <= d < |w'.clients| ensures HolderSafe(w', d) {
      assert HolderSafe(w, d);
    }
    CommittedRows(w, c);
    forall i: RowId
      ensures w'.charges[i] == if i in w'.rows || exists d: nat :: InFlight(w', d, i) then 1 else 0
    {
      forall d: nat | i != id ensures InFlight(w', d, i) <==> InFlight(w, d, i) {
      }
      if i != id {
        if d: nat :| InFlight(w, d, i) {
          assert InFlight(w', d, i);
        }
      }
    }
  }

  lemma CommittedRows(w: World, c: nat)
    requires CommittedDistinct(w) && c < |w.clients| && Holds(w.clients[c]) && HolderSafe(w, c)
    ensures CommittedDistinct(w.(rows := w.rows[w.clients[c].phase.id := w.clients[c].row]))
  {
  }

  lemma MoveKeepsInv(w: World, m: Move)
    requires RaceInv(w) && Enabled(w, m)
    ensures RaceInv(Apply(w, m))
  {
    match m
    case Check(c, found) => QuietKeepsInv(w, c, Apply(w, m).clients[c].phase);
    case Insert(c, id) =>
      if ClashesWithCommitted(w, w.clients[c].row) {
        QuietKeepsInv(w, c, RolledBack);
      } else {
        InsertKeepsInv(w, c, id);
      }
    case Charge(c) => ChargeKeepsInv(w, c);
    case Answer(c, reply) => AnswerKeepsInv(w, c, reply);
    case Commit(c) => CommitKeepsInv(w, c);
    case Abort(c) => QuietKeepsInv(w, c, RolledBack);
  }

  predicate AskedBy(w: World, requests: seq<Row>) {
    && |w.clients| == |requests|
    && forall c :: 0 <= c < |requests| ==> w.clients[c].row == requests[c]
  }

  lemma PlayIsSafe(requests: seq<Row>, moves: seq<Move>)
    ensures RaceInv(Play(Turn, Start(requests), moves)) && AskedBy(Play(Turn, Start(requests), moves), requests)
  {
    var good := (w: World) => RaceInv(w) && AskedBy(w, requests);
    StartIsSafe(requests);
    hide RaceInv;
    forall w: World, m: Move | good(w) ensures good(Turn(w, m)) {
      if Enabled(w, m) {
        MoveKeepsInv(w, m);
      }
    }
    PlayKeeps(Turn, good, Start(requests), moves);
  }
}
