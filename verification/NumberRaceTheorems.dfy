/** What the race for control numbers comes to, for every interleaving of the requests. */
module NumberRaceTheorems {
  import opened Sums
  import opened Tables
  import opened Interleavings
  import opened NumberRace

  // ---------------------------------------------------------------- what it means for the requests

  /**
    However the requests interleave: one number per bill, one active number per
    account, distinct values, and exactly one fee and one CREATED event per number.
  */
  lemma NumbersAreUniqueAndChargedOnce(owners: seq<Owner>, moves: seq<Move>, i: RowId, j: RowId)
    ensures var w := Play(Turn, Start(owners), moves);
            && w.fees[i] == (if i in w.rows then 1 else 0)
            && w.created[i] == (if i in w.rows then 1 else 0)
            && (i in w.rows && j in w.rows && i != j ==>
                  && w.rows[i].value != w.rows[j].value
                  && (w.rows[i].owner.ForBill? ==> w.rows[i].owner != w.rows[j].owner)
                  && (w.rows[i].status == NumberActive && w.rows[j].status == NumberActive ==>
                        w.rows[i].owner != w.rows[j].owner))
  {
    PlayIsSafe(owners, moves);
    var w := Play(Turn, Start(owners), moves);
    if i in w.rows && j in w.rows && i != j {
      assert !Clash(w.rows[i], w.rows[j]);
    }
  }

  /** Finished requests for one bill got the same number, and at most one of them created it. */
  lemma SameBillSameNumber(owners: seq<Owner>, moves: seq<Move>, c: nat, d: nat)
    requires c < |owners| && d < |owners| && c != d && owners[c] == owners[d] && owners[c].ForBill?
    ensures var w := Play(Turn, Start(owners), moves);
            && |w.clients| == |owners|
            && (w.clients[c].phase.Finished? && w.clients[d].phase.Finished? ==>
                  && w.clients[c].phase.id == w.clients[d].phase.id
                  && !(w.clients[c].phase.created && w.clients[d].phase.created))
  {
    PlayIsSafe(owners, moves);
    var w := Play(Turn, Start(owners), moves);
    assert AnswerSafe(w, c) && AnswerSafe(w, d);
    if w.clients[c].phase.Finished? && w.clients[d].phase.Finished? {
      var i, j := w.clients[c].phase.id, w.clients[d].phase.id;
      assert i != j ==> !Clash(w.rows[i], w.rows[j]);
      assert w.clients[c].phase.created ==> CreatedBy(w, c, i);
      assert w.clients[d].phase.created ==> CreatedBy(w, d, j);
    }
  }

  /** The request finished, reported that it created this number, and no other request did. */
  ghost predicate SoleCreator(w: World, c: nat, id: RowId) {
    CreatedBy(w, c, id) && forall d: nat :: CreatedBy(w, d, id) ==> d == c
  }

  /** The numbers are exactly what finished requests report to have created; one that raised left none, and no fee. */
  lemma RaisedRequestsLeaveNothing(owners: seq<Owner>, moves: seq<Move>, id: RowId)
    ensures var w := Play(Turn, Start(owners), moves);
            && (id in w.rows <==> exists c: nat :: SoleCreator(w, c, id))
            && (id in w.fees <==> exists c: nat :: SoleCreator(w, c, id))
            && forall c: nat :: SoleCreator(w, c, id) ==> w.clients[c].owner == w.rows[id].owner
  {
    PlayIsSafe(owners, moves);
    var w := Play(Turn, Start(owners), moves);
    if id in w.rows {
      var c: nat :| CreatedBy(w, c, id);
      assert SoleCreator(w, c, id);
    }
    forall c: nat | SoleCreator(w, c, id) ensures id in w.rows && w.clients[c].owner == w.rows[id].owner {
      assert AnswerSafe(w, c);
    }
  }

  // ---------------------------------------------------------------- progress

  /** How many moves of its own a request still has before it at most. */
  function Remaining(client: Client): nat {
    match client.phase
    case Checking => 2 * MAX_GENERATION_ATTEMPTS + 3
    case Trying(k) => if k <= MAX_GENERATION_ATTEMPTS then 2 * (MAX_GENERATION_ATTEMPTS - k) + 2 else 1
    case Rereading(k) => if k < MAX_GENERATION_ATTEMPTS then 2 * (MAX_GENERATION_ATTEMPTS - k) + 1 else 3
    case Returning(_, _) => 1
    case _ => 0
  }

  function MoverOf(m: Move): Option<nat> {
    match m
    case Cancel(_) => None
    case Expire(_) => None
    case _ => Some(m.client)
  }

  /** Retries are bounded: a move takes its own request closer to the end and no other request anywhere. */
  lemma MovesMakeProgress(w: World, m: Move, c: nat)
    requires AllAnswers(w) && Enabled(w, m) && c < |w.clients|
    ensures |Apply(w, m).clients| == |w.clients|
    ensures if MoverOf(m) == Some(c) then Remaining(Apply(w, m).clients[c]) < Remaining(w.clients[c])
            else Apply(w, m).clients[c] == w.clients[c]
  {
    assert AnswerSafe(w, c);
  }

  /** No deadlock: an insert that has to wait waits for a request that is free to commit. */
  lemma BlockedOnlyByACommitter(w: World, c: nat, id: RowId, value: string)
    requires c < |w.clients| && w.clients[c].phase.Trying?
    requires w.clients[c].phase.attempt < MAX_GENERATION_ATTEMPTS && Unissued(w, id)
    ensures || Enabled(w, TryInsert(c, id, value))
            || exists d: nat :: d != c && Enabled(w, Commit(d)) && Holds(w.clients[d])
                                && Clash(w.clients[d].phase.write.row, Row(value, w.clients[c].owner, NumberActive))
  {
    var row := Row(value, w.clients[c].owner, NumberActive);
    if ClashesWithHeld(w, c, row) {
      var d: nat :| d < |w.clients| && d != c && Holds(w.clients[d]) && Clash(w.clients[d].phase.write.row, row);
      assert Enabled(w, Commit(d));
    }
  }

  /** The committed number of a bill is the only one a query for that bill can see. */
  lemma QueryFindsTheWinner(w: World, owner: Owner, id: RowId, found: Option<RowId>)
    requires CommittedDistinct(w) && owner.ForBill? && id in w.rows && w.rows[id].owner == owner
    requires Sees(w, owner, found)
    ensures found == Some(id)
  {
  }

  /** While a bill's number is committed, no request for that bill can be about to commit another. */
  lemma AnswersAreTheWinner(w: World, c: nat, id: RowId)
    requires CommittedDistinct(w) && c < |w.clients| && HolderSafe(w, c) && AnswerSafe(w, c)
    requires w.clients[c].owner.ForBill? && id in w.rows && w.rows[id].owner == w.clients[c].owner
    requires w.clients[c].phase.Returning?
    ensures !Holds(w.clients[c]) && w.clients[c].phase.id == id
  {
    if Holds(w.clients[c]) {
      assert Clash(w.rows[id], w.clients[c].phase.write.row);
    } else {
      var answer := w.clients[c].phase.id;
      assert answer != id ==> !Clash(w.rows[answer], w.rows[id]);
    }
  }

  /** A request for a bill whose number is committed never creates another: losing the race, it gets that number. */
  lemma LoserGetsTheWinner(w: World, c: nat, id: RowId, m: Move)
    requires CommittedDistinct(w) && c < |w.clients| && HolderSafe(w, c) && AnswerSafe(w, c)
    requires w.clients[c].owner.ForBill? && id in w.rows && w.rows[id].owner == w.clients[c].owner
    requires MoverOf(m) == Some(c) && Enabled(w, m)
    ensures match m
            case Check(_, found) => found == Some(id)
            case TryInsert(_, _, _) => Apply(w, m).clients[c].phase == Rereading(w.clients[c].phase.attempt)
            case Reread(_, found) => found == Some(id)
            case Commit(_) => Apply(w, m).clients[c].phase == Finished(id, false)
            case _ => true
  {
    if m.Check? || m.Reread? {
      QueryFindsTheWinner(w, w.clients[c].owner, id, m.found);
    } else if m.Commit? {
      AnswersAreTheWinner(w, c, id);
    } else if m.TryInsert? {
      assert Clash(w.rows[id], Row(m.value, w.clients[c].owner, NumberActive));
    }
  }
}
