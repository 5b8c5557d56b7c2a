/**
  Any number of clients asking for control numbers at once. Each request is a
  transaction under read-committed isolation: it sees committed rows only, its
  own writes are committed or dropped together, an insert that clashes with a
  committed row fails, and one that clashes with a row another request still
  holds has to wait for that request.
*/
module NumberRace {
  import opened Sums
  import opened Tables
  import opened Interleavings

  type RowId = nat

  datatype Row = Row(value: string, owner: Owner, status: NumberStatus)

  /** What a request is about to commit besides its answer. */
  datatype Write = Nothing | Reuse | Insert(row: Row)

  datatype Phase =
    | Checking
    | Trying(attempt: nat)
    | Rereading(attempt: nat)
    | Returning(id: RowId, write: Write)
    | Finished(id: RowId, created: bool)
    | GaveUp

  datatype Client = Client(owner: Owner, phase: Phase)

  /** The committed tables, and the requests in flight. Fees and events are listed by the row they are for. */
  datatype World = World(
    rows: map<RowId, Row>,
    fees: multiset<RowId>,
    created: multiset<RowId>,
    reused: multiset<RowId>,
    clients: seq<Client>)

  datatype Move =
    | Check(client: nat, found: Option<RowId>)
    | TryInsert(client: nat, id: RowId, value: string)
    | Reread(client: nat, found: Option<RowId>)
    | Exhaust(client: nat)
    | Commit(client: nat)
    | Abort(client: nat)
    | Cancel(id: RowId)
    | Expire(ids: set<RowId>)

  /** The unique constraints: values, bills, and active numbers of an account. */
  predicate Clash(a: Row, b: Row) {
    || a.value == b.value
    || (a.owner == b.owner && (a.owner.ForBill? || (a.status == NumberActive && b.status == NumberActive)))
  }

  /** A row that a request for this owner gives back instead of creating one. */
  predicate Serves(row: Row, owner: Owner) {
    row.owner == owner && (owner.ForBill? || row.status == NumberActive)
  }

  predicate Holds(client: Client) {
    client.phase.Returning? && client.phase.write.Insert?
  }

  predicate ClashesWithCommitted(w: World, row: Row) {
    exists id :: id in w.rows && Clash(w.rows[id], row)
  }

  predicate ClashesWithHeld(w: World, c: nat, row: Row) {
    exists d :: 0 <= d < |w.clients| && d != c && Holds(w.clients[d]) && Clash(w.clients[d].phase.write.row, row)
  }

  /** No row has this identity yet, committed or held. */
  predicate Unissued(w: World, id: RowId) {
    && id !in w.rows
    && forall d :: 0 <= d < |w.clients| && Holds(w.clients[d]) ==> w.clients[d].phase.id != id
  }

  /** The query by owner sees committed rows only. */
  predicate Sees(w: World, owner: Owner, found: Option<RowId>) {
    match found
    case Some(id) => id in w.rows && Serves(w.rows[id], owner)
    case None => forall id :: id in w.rows ==> !Serves(w.rows[id], owner)
  }

  predicate Enabled(w: World, m: Move) {
    match m
    case Check(c, found) =>
      c < |w.clients| && w.clients[c].phase.Checking? && Sees(w, w.clients[c].owner, found)
    case TryInsert(c, id, value) =>
      && c < |w.clients| && w.clients[c].phase.Trying?
      && w.clients[c].phase.attempt < MAX_GENERATION_ATTEMPTS
      && Unissued(w, id)
      && var row := Row(value, w.clients[c].owner, NumberActive);
         ClashesWithHeld(w, c, row) ==> ClashesWithCommitted(w, row)
    case Reread(c, found) =>
      c < |w.clients| && w.clients[c].phase.Rereading? && Sees(w, w.clients[c].owner, found)
    case Exhaust(c) =>
      c < |w.clients| && w.clients[c].phase.Trying? && w.clients[c].phase.attempt >= MAX_GENERATION_ATTEMPTS
    case Commit(c) => c < |w.clients| && w.clients[c].phase.Returning?
    case Abort(c) => c < |w.clients| && !w.clients[c].phase.Finished? && !w.clients[c].phase.GaveUp?
    case Cancel(id) => id in w.rows
    case Expire(ids) => forall id :: id in ids ==> id in w.rows && w.rows[id].status == NumberActive
  }

  function Become(w: World, c: nat, phase: Phase): World
    requires c < |w.clients|
  {
    w.(clients := w.clients[c := w.clients[c].(phase := phase)])
  }

  function Apply(w: World, m: Move): World
    requires Enabled(w, m)
  {
    match m
    case Check(c, found) =>
      Become(w, c, if found.Some? then Returning(found.value, Reuse) else Trying(0))
    case TryInsert(c, id, value) =>
      var row := Row(value, w.clients[c].owner, NumberActive);
      Become(w, c, if ClashesWithCommitted(w, row) then Rereading(w.clients[c].phase.attempt)
                   else Returning(id, Insert(row)))
    case Reread(c, found) =>
      Become(w, c, if found.Some? then Returning(found.value, Nothing) else Trying(w.clients[c].phase.attempt + 1))
    case Exhaust(c) => Become(w, c, GaveUp)
    case Commit(c) =>
      var id := w.clients[c].phase.id;
      var w1 := Become(w, c, Finished(id, w.clients[c].phase.write.Insert?));
      (match w.clients[c].phase.write
       case Nothing => w1
       case Reuse => w1.(reused := w1.reused + multiset{id})
       case Insert(row) =>
         w1.(rows := w1.rows[id := row], fees := w1.fees + multiset{id}, created := w1.created + multiset{id}))
    case Abort(c) => Become(w, c, GaveUp)
    case Cancel(id) => w.(rows := w.rows[id := w.rows[id].(status := NumberCancelled)])
    case Expire(ids) =>
      w.(rows := map id | id in w.rows :: if id in ids then w.rows[id].(status := NumberExpired) else w.rows[id])
  }

  /** Nobody has asked yet and there is no control number. */
  function Start(owners: seq<Owner>): World {
    World(map[], multiset{}, multiset{}, multiset{},
          seq(|owners|, c requires 0 <= c < |owners| => Client(owners[c], Checking)))
  }

  /** A move that is not enabled, such as a blocked insert, does nothing. */
  function Turn(w: World, m: Move): World {
    if Enabled(w, m) then Apply(w, m) else w
  }

  // ---------------------------------------------------------------- the invariant

  predicate CommittedDistinct(w: World) {
    forall i, j :: i in w.rows && j in w.rows && i != j ==> !Clash(w.rows[i], w.rows[j])
  }

  /** What a holder is about to insert clashes with nothing. */
  predicate HolderSafe(w: World, c: nat)
    requires c < |w.clients|
  {
    Holds(w.clients[c]) ==>
      var phase := w.clients[c].phase;
      && phase.write.row.owner == w.clients[c].owner
      && phase.write.row.status == NumberActive
      && phase.id !in w.rows
      && !ClashesWithCommitted(w, phase.write.row)
      && forall d :: 0 <= d < |w.clients| && d != c && Holds(w.clients[d]) ==>
                       && w.clients[d].phase.id != phase.id
                       && !Clash(w.clients[d].phase.write.row, phase.write.row)
  }

  predicate AnswerSafe(w: World, c: nat)
    requires c < |w.clients|
  {
    match w.clients[c].phase
    case Returning(id, write) => !write.Insert? ==> id in w.rows && w.rows[id].owner == w.clients[c].owner
    case Finished(id, _) => id in w.rows && w.rows[id].owner == w.clients[c].owner
    case Trying(attempt) => attempt <= MAX_GENERATION_ATTEMPTS
    case Rereading(attempt) => attempt < MAX_GENERATION_ATTEMPTS
    case _ => true
  }

  predicate CreatedBy(w: World, c: nat, id: RowId) {
    c < |w.clients| && w.clients[c].phase == Finished(id, true)
  }

  /** Rows and the requests that report having created them correspond one to one. */
  ghost predicate OneCreator(w: World) {
    && (forall id :: id in w.rows ==> exists c: nat :: CreatedBy(w, c, id))
    && (forall c: nat, d: nat, id: RowId :: CreatedBy(w, c, id) && CreatedBy(w, d, id) ==> c == d)
  }

  predicate ChargedOnce(w: World) {
    && w.fees == multiset(w.rows.Keys)
    && w.created == multiset(w.rows.Keys)
  }

  ghost predicate RaceInv(w: World) {
    && CommittedDistinct(w)
    && AllHolders(w)
    && AllAnswers(w)
    && OneCreator(w)
    && ChargedOnce(w)
  }

  predicate AllHolders(w: World) {
    forall c :: 0 <= c < |w.clients| ==> HolderSafe(w, c)
  }

  predicate AllAnswers(w: World) {
    forall c :: 0 <= c < |w.clients| ==> AnswerSafe(w, c)
  }

  lemma StartIsSafe(owners: seq<Owner>)
    ensures RaceInv(Start(owners))
  {
  }

  // ---------------------------------------------------------------- every move keeps it

  /** Who created what stays as it was, request by request. */
  lemma SameCreators(w: World, w': World)
    requires OneCreator(w) && w'.rows.Keys == w.rows.Keys
    requires forall c: nat, id: RowId :: CreatedBy(w', c, id) <==> CreatedBy(w, c, id)
    ensures OneCreator(w')
  {
    forall id | id in w'.rows ensures exists c: nat :: CreatedBy(w', c, id) {
      var c: nat :| CreatedBy(w, c, id);
      assert CreatedBy(w', c, id);
    }
  }

  /** The client becomes one that holds, and has created, nothing. */
  lemma QuietMove(w: World, c: nat, phase: Phase)
    requires RaceInv(w) && c < |w.clients| && !w.clients[c].phase.Finished?
    requires phase.Finished? ==> !phase.created
    requires phase.Returning? ==> !phase.write.Insert?
    requires AnswerSafe(Become(w, c, phase), c)
    ensures RaceInv(Become(w, c, phase))
  {
    var w' := Become(w, c, phase);
    QuietHolders(w, c, phase);
    QuietAnswers(w, c, phase);
    hide AllHolders, AllAnswers, CommittedDistinct, AnswerSafe;
    SameCreators(w, w');
  }

  lemma QuietAnswers(w: World, c: nat, phase: Phase)
    requires AllAnswers(w) && c < |w.clients| && AnswerSafe(Become(w, c, phase), c)
    ensures AllAnswers(Become(w, c, phase))
  {
    var w' := Become(w, c, phase);
    forall d | 0 <= d < |w'.clients| ensures AnswerSafe(w', d) {
      assert AnswerSafe(w, d);
    }
  }

  lemma QuietHolders(w: World, c: nat, phase: Phase)
    requires AllHolders(w) && c < |w.clients|
    requires phase.Returning? ==> !phase.write.Insert?
    ensures AllHolders(Become(w, c, phase))
  {
    var w' := Become(w, c, phase);
    forall d | 0 <= d < |w'.clients| ensures HolderSafe(w', d) {
      assert HolderSafe(w, d);
    }
  }

  lemma InsertKeepsInv(w: World, c: nat, id: RowId, row: Row)
    requires RaceInv(w) && c < |w.clients| && w.clients[c].phase.Trying?
    requires Unissued(w, id) && row.owner == w.clients[c].owner && row.status == NumberActive
    requires !ClashesWithCommitted(w, row) && !ClashesWithHeld(w, c, row)
    ensures RaceInv(Become(w, c, Returning(id, Insert(row))))
  {
    var w' := Become(w, c, Returning(id, Insert(row)));
    InsertedHolders(w, c, id, row);
    QuietAnswers(w, c, Returning(id, Insert(row)));
    hide AllHolders, AllAnswers, CommittedDistinct;
    SameCreators(w, w');
  }

  lemma InsertedHolders(w: World, c: nat, id: RowId, row: Row)
    requires AllHolders(w) && c < |w.clients|
    requires Unissued(w, id) && row.owner == w.clients[c].owner && row.status == NumberActive
    requires !ClashesWithCommitted(w, row) && !ClashesWithHeld(w, c, row)
    ensures AllHolders(Become(w, c, Returning(id, Insert(row))))
  {
    var w' := Become(w, c, Returning(id, Insert(row)));
    forall d | 0 <= d < |w'.clients| ensures HolderSafe(w', d) {
      assert HolderSafe(w, d);
      if d != c && Holds(w.clients[d]) {
        assert !Clash(w.clients[d].phase.write.row, row);
      }
    }
  }

  lemma CommitInsertKeepsInv(w: World, c: nat)
    requires RaceInv(w) && c < |w.clients| && Holds(w.clients[c])
    ensures RaceInv(Apply(w, Commit(c)))
  {
    assert HolderSafe(w, c);
    hide HolderSafe, AllHolders, AllAnswers, CommittedDistinct, OneCreator, ChargedOnce, Apply;
    CommittedRows(w, c);
    CommittedHolders(w, c);
    CommittedAnswers(w, c);
    CommittedCreator(w, c);
    CommittedCharges(w, c);
  }

  lemma CommittedCharges(w: World, c: nat)
    requires ChargedOnce(w) && c < |w.clients| && Holds(w.clients[c]) && HolderSafe(w, c)
    ensures ChargedOnce(Apply(w, Commit(c)))
  {
    var id := w.clients[c].phase.id;
    assert Apply(w, Commit(c)).rows.Keys == w.rows.Keys + {id};
  }

  lemma CommittedRows(w: World, c: nat)
    requires CommittedDistinct(w) && c < |w.clients| && Holds(w.clients[c]) && HolderSafe(w, c)
    ensures CommittedDistinct(Apply(w, Commit(c)))
  {
    var w' := Apply(w, Commit(c));
    var id, row := w.clients[c].phase.id, w.clients[c].phase.write.row;
    forall i, j | i in w'.rows && j in w'.rows && i != j ensures !Clash(w'.rows[i], w'.rows[j]) {
      if i == id {
        assert !Clash(w.rows[j], row);
      } else if j == id {
        assert !Clash(w.rows[i], row);
      }
    }
  }

  lemma CommittedHolders(w: World, c: nat)
    requires AllHolders(w) && c < |w.clients| && Holds(w.clients[c])
    ensures AllHolders(Apply(w, Commit(c)))
  {
    var w' := Apply(w, Commit(c));
    forall d | 0 <= d < |w'.clients| ensures HolderSafe(w', d) {
      assert HolderSafe(w, d);
    }
  }

  lemma CommittedAnswers(w: World, c: nat)
    requires AllAnswers(w) && c < |w.clients| && Holds(w.clients[c]) && HolderSafe(w, c)
    ensures AllAnswers(Apply(w, Commit(c)))
  {
    var w' := Apply(w, Commit(c));
    forall d | 0 <= d < |w'.clients| ensures AnswerSafe(w', d) {
      assert AnswerSafe(w, d);
    }
  }

  lemma CommittedCreator(w: World, c: nat)
    requires OneCreator(w) && AllAnswers(w) && c < |w.clients| && Holds(w.clients[c]) && HolderSafe(w, c)
    ensures OneCreator(Apply(w, Commit(c)))
  {
    var w' := Apply(w, Commit(c));
    var id := w.clients[c].phase.id;
    assert CreatedBy(w', c, id);
    forall d: nat, i: RowId ensures CreatedBy(w', d, i) <==> CreatedBy(w, d, i) || (d == c && i == id) {
    }
    forall d: nat ensures !CreatedBy(w, d, id) {
      assert d < |w.clients| ==> AnswerSafe(w, d);
    }
    forall i | i in w'.rows ensures exists d: nat :: CreatedBy(w', d, i) {
      if i != id {
        var d: nat :| CreatedBy(w, d, i);
        assert CreatedBy(w', d, i);
      }
    }
  }

  lemma AnswerWritesNoRow(w: World, c: nat)
    requires c < |w.clients| && w.clients[c].phase.Returning? && !Holds(w.clients[c])
    ensures Apply(w, Commit(c)) ==
            Become(w, c, Finished(w.clients[c].phase.id, false)).(reused := Apply(w, Commit(c)).reused)
  {
  }

  lemma AnswerOf(w: World, c: nat)
    requires RaceInv(w) && c < |w.clients|
    ensures AnswerSafe(w, c)
  {
  }

  lemma FinishedAnswersSafely(w: World, c: nat)
    requires c < |w.clients| && w.clients[c].phase.Returning? && !Holds(w.clients[c]) && AnswerSafe(w, c)
    ensures AnswerSafe(Become(w, c, Finished(w.clients[c].phase.id, false)), c)
  {
  }

  lemma CommitAnswerKeepsInv(w: World, c: nat, reused: multiset<RowId>)
    requires RaceInv(w) && c < |w.clients| && w.clients[c].phase.Returning? && !Holds(w.clients[c])
    ensures RaceInv(Become(w, c, Finished(w.clients[c].phase.id, false)).(reused := reused))
  {
    AnswerOf(w, c);
    FinishedAnswersSafely(w, c);
    hide RaceInv, AnswerSafe, Become, Holds;
    QuietMove(w, c, Finished(w.clients[c].phase.id, false));
    LogKeepsInv(Become(w, c, Finished(w.clients[c].phase.id, false)), reused);
  }

  lemma LogKeepsInv(w: World, reused: multiset<RowId>)
    requires RaceInv(w)
    ensures RaceInv(w.(reused := reused))
  {
    var w' := w.(reused := reused);
    forall d | 0 <= d < |w'.clients| ensures HolderSafe(w', d) && AnswerSafe(w', d) {
      assert HolderSafe(w, d) && AnswerSafe(w, d);
    }
    SameCreators(w, w');
  }

  /** Rows that are cancelled or expired clash with less. */
  predicate Retired(row: Row, later: Row) {
    later == row || (later == row.(status := later.status) && later.status != NumberActive)
  }

  predicate AllRetired(rows: map<RowId, Row>, later: map<RowId, Row>) {
    later.Keys == rows.Keys && forall id :: id in rows ==> Retired(rows[id], later[id])
  }

  lemma RetiringKeepsInv(w: World, later: map<RowId, Row>)
    requires RaceInv(w) && AllRetired(w.rows, later)
    ensures RaceInv(w.(rows := later))
  {
    RetiringRows(w, later);
    RetiringHolders(w, later);
    RetiringAnswers(w, later);
    hide AllHolders, AllAnswers, CommittedDistinct;
    SameCreators(w, w.(rows := later));
  }

  lemma RetiringRows(w: World, later: map<RowId, Row>)
    requires CommittedDistinct(w) && AllRetired(w.rows, later)
    ensures CommittedDistinct(w.(rows := later))
  {
    forall i, j | i in later && j in later && i != j ensures !Clash(later[i], later[j]) {
      assert Retired(w.rows[i], later[i]) && Retired(w.rows[j], later[j]);
      assert !Clash(w.rows[i], w.rows[j]);
    }
  }

  lemma RetiringAnswers(w: World, later: map<RowId, Row>)
    requires AllAnswers(w) && AllRetired(w.rows, later)
    ensures AllAnswers(w.(rows := later))
  {
    var w' := w.(rows := later);
    forall d | 0 <= d < |w'.clients| ensures AnswerSafe(w', d) {
      assert AnswerSafe(w, d);
    }
  }

  lemma RetiringHolders(w: World, later: map<RowId, Row>)
    requires AllHolders(w) && AllRetired(w.rows, later)
    ensures AllHolders(w.(rows := later))
  {
    var w' := w.(rows := later);
    forall d | 0 <= d < |w'.clients| ensures HolderSafe(w', d) {
      assert HolderSafe(w, d);
      if Holds(w.clients[d]) {
        forall id | id in later ensures !Clash(later[id], w.clients[d].phase.write.row) {
          assert Retired(w.rows[id], later[id]);
          assert !Clash(w.rows[id], w.clients[d].phase.write.row);
        }
      }
    }
  }

  lemma TryKeepsInv(w: World, c: nat, id: RowId, value: string)
    requires RaceInv(w) && Enabled(w, TryInsert(c, id, value))
    ensures RaceInv(Apply(w, TryInsert(c, id, value)))
  {
    var row := Row(value, w.clients[c].owner, NumberActive);
    if ClashesWithCommitted(w, row) {
      QuietMove(w, c, Rereading(w.clients[c].phase.attempt));
    } else {
      InsertKeepsInv(w, c, id, row);
    }
  }

  lemma MoveKeepsInv(w: World, m: Move)
    requires RaceInv(w) && Enabled(w, m)
    ensures RaceInv(Apply(w, m))
  {
    hide RaceInv;
    if m.TryInsert? {
      TryKeepsInv(w, m.client, m.id, m.value);
    } else if m.Commit? {
      if Holds(w.clients[m.client]) {
        CommitInsertKeepsInv(w, m.client);
      } else {
        AnswerWritesNoRow(w, m.client);
        CommitAnswerKeepsInv(w, m.client, Apply(w, m).reused);
      }
    } else if m.Cancel? || m.Expire? {
      RetiringKeepsInv(w, Apply(w, m).rows);
    } else {
      ReadingKeepsInv(w, m);
    }
  }

  /** Moves that read, or end a request with nothing. */
  lemma ReadingAnswersSafely(w: World, m: Move)
    requires Enabled(w, m) && (m.Check? || m.Reread? || m.Exhaust? || m.Abort?) && AnswerSafe(w, m.client)
    ensures AnswerSafe(Apply(w, m), m.client)
  {
  }

  lemma ReadingKeepsInv(w: World, m: Move)
    requires RaceInv(w) && Enabled(w, m) && (m.Check? || m.Reread? || m.Exhaust? || m.Abort?)
    ensures RaceInv(Apply(w, m))
  {
    assert AnswerSafe(w, m.client);
    ReadingAnswersSafely(w, m);
    hide RaceInv, AnswerSafe;
    QuietMove(w, m.client, Apply(w, m).clients[m.client].phase);
  }

  predicate AskedBy(w: World, owners: seq<Owner>) {
    && |w.clients| == |owners|
    && forall c :: 0 <= c < |owners| ==> w.clients[c].owner == owners[c]
  }

  lemma MoveKeepsOwners(w: World, m: Move, owners: seq<Owner>)
    requires Enabled(w, m) && AskedBy(w, owners)
    ensures AskedBy(Apply(w, m), owners)
  {
  }

  lemma PlayIsSafe(owners: seq<Owner>, moves: seq<Move>)
    ensures RaceInv(Play(Turn, Start(owners), moves)) && AskedBy(Play(Turn, Start(owners), moves), owners)
  {
    var good := (w: World) => RaceInv(w) && AskedBy(w, owners);
    StartIsSafe(owners);
    hide RaceInv;
    forall w: World, m: Move | good(w) ensures good(Turn(w, m)) {
      if Enabled(w, m) {
        MoveKeepsInv(w, m);
        MoveKeepsOwners(w, m, owners);
      }
    }
    PlayKeeps(Turn, good, Start(owners), moves);
  }
}
