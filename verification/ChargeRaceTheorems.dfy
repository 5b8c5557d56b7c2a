/** What concurrent initiations come to for the payer, for every interleaving of the requests. */
module ChargeRaceTheorems {
  import opened Sums
  import opened Tables
  import opened Interleavings
  import opened ChargeRace
  import Services
  import Invariants
  import Runs
  import Idempotency

  // ---------------------------------------------------------------- what it means for the payer

  /** The payment that a charge was made for, committed or still held by its request. */
  predicate ChargedFor(w: World, id: RowId, row: Row) {
    || (id in w.rows && w.rows[id] == row)
    || exists c :: 0 <= c < |w.clients| && w.clients[c].row == row && InFlight(w, c, id)
  }

  /**
    However the requests interleave: a payment is charged at most once, every
    charge is for a payment that is committed or that its request is about to
    commit, every committed payment was charged, and two charges never carry the
    same non-blank key of one tenant.
  */
  lemma ChargedAtMostOnce(requests: seq<Row>, moves: seq<Move>, i: RowId, j: RowId, row: Row)
    ensures var w := Play(Turn, Start(requests), moves);
            && w.charges[i] <= 1
            && (i in w.charges <==> exists paid: Row :: ChargedFor(w, i, paid))
            && (i in w.rows ==> w.charges[i] == 1)
            && (i in w.charges && j in w.charges && ChargedFor(w, i, row) && ChargedFor(w, j, row) && row.key != ""
                ==> i == j)
  {
    PlayIsSafe(requests, moves);
    var w := Play(Turn, Start(requests), moves);
    ChargesHaveRows(w, i);
    if ChargedFor(w, i, row) && ChargedFor(w, j, row) && row.key != "" && i != j {
      ChargesAreDistinct(w, i, j, row);
      assert false;
    }
  }

  lemma ChargesHaveRows(w: World, i: RowId)
    requires ChargesExact(w)
    ensures w.charges[i] <= 1
    ensures i in w.charges <==> exists paid: Row :: ChargedFor(w, i, paid)
  {
    if i in w.charges {
      if i in w.rows {
        assert ChargedFor(w, i, w.rows[i]);
      } else {
        var c: nat :| InFlight(w, c, i);
        assert ChargedFor(w, i, w.clients[c].row);
      }
    }
  }

  lemma HeldRowIsNew(w: World, c: nat, id: RowId)
    requires AllHolders(w) && c < |w.clients| && Holds(w.clients[c]) && id in w.rows
    ensures !Clash(w.rows[id], w.clients[c].row)
  {
    assert HolderSafe(w, c);
  }

  lemma ChargesAreDistinct(w: World, i: RowId, j: RowId, row: Row)
    requires CommittedDistinct(w) && AllHolders(w) && row.key != ""
    requires ChargedFor(w, i, row) && ChargedFor(w, j, row)
    ensures i == j
  {
    var iCommitted, jCommitted := i in w.rows && w.rows[i] == row, j in w.rows && w.rows[j] == row;
    if !iCommitted {
      var c :| 0 <= c < |w.clients| && w.clients[c].row == row && InFlight(w, c, i);
      if jCommitted {
        HeldRowIsNew(w, c, j);
      } else {
        var d :| 0 <= d < |w.clients| && w.clients[d].row == row && InFlight(w, d, j);
        assert HolderSafe(w, c);
        assert c != d ==> !Clash(w.clients[d].row, w.clients[c].row);
      }
    } else if !jCommitted {
      var d :| 0 <= d < |w.clients| && w.clients[d].row == row && InFlight(w, d, j);
      HeldRowIsNew(w, d, i);
    }
  }

  /**
    A request that charged is never rolled back, whether the provider answers,
    refuses or is never heard of: the new payment may move to whatever follows.
  */
  lemma ChargedRequestsCommit(w: World, c: nat, reply: Reply)
    requires Enabled(w, Answer(c, reply))
    ensures var w' := Apply(w, Answer(c, reply));
            && Enabled(w', Commit(c))
            && !Enabled(w', Abort(c))
            && Apply(w', Commit(c)).clients[c].phase == Finished(w.clients[c].phase.id)
            && Apply(w', Commit(c)).rows == w.rows[w.clients[c].phase.id := w.clients[c].row]
  {
  }

  /** The status that a charged request lands on here is the one that the service gives its payment. */
  lemma ServiceLandsThere(
    s: Store, number: nat, provider: ProviderId, amount: PositiveCents, key: string, reply: Reply, now: Time)
    requires Invariants.Inv(s) && number < |s.numbers|
    requires key == "" || Newest(s.payments, Services.Keyed(s.numbers[number].tenant, key)).None?
    ensures var r := Services.InitiatePayment(s, number, provider, amount, key, reply, now);
            && r.Ok? && r.value.1 == |s.payments| < |r.value.0.payments|
            && r.value.0.payments[|s.payments|].status == LandsOn(reply)
  {
    Runs.InitiationNeverRaises(s, number, provider, amount, key, reply, now);
    Idempotency.InitiationAddsOne(s, number, provider, amount, key, reply, now);
  }

  /**
    An initiation that loses the race for its key is rolled back, uncharged: unlike
    a control-number request it does not recover the winner's payment.
  */
  lemma LosingInitiationRaises(w: World, c: nat, id: RowId)
    requires RaceInv(w) && Enabled(w, Insert(c, id))
    ensures var w' := Apply(w, Insert(c, id));
            && (w'.clients[c].phase == RolledBack <==>
                exists winner :: winner in w.rows && w.rows[winner] == w.clients[c].row && w.clients[c].row.key != "")
            && w'.charges == w.charges && w'.rows == w.rows
            && (w'.clients[c].phase == RolledBack || (w'.clients[c].phase == Inserted(id) && w'.charges[id] == 0))
  {
    if ClashesWithCommitted(w, w.clients[c].row) {
      var winner :| winner in w.rows && Clash(w.rows[winner], w.clients[c].row);
      assert w.rows[winner] == w.clients[c].row;
    }
  }

  /** Two requests with one key, both past the lookup before either has inserted. */
  function LostRace(outcome: ProviderOutcome): seq<Move> {
    [Check(0, None), Check(1, None), Insert(0, 0), Charge(0), Answer(0, Answered(outcome, "P")), Commit(0)]
    + [Insert(1, 1)]
  }

  /**
    Nor is this a race that cannot happen. ADR-010 wants the loser to be given what
    the winner created; here it is rolled back, and the payer has an error.
  */
  lemma LoserIsRolledBack(row: Row, outcome: ProviderOutcome)
    requires row.key != ""
    ensures var w := Play(Turn, Start([row, row]), LostRace(outcome));
            && w.rows == map[0 := row]
            && w.clients == [Client(row, Finished(0)), Client(row, RolledBack)]
            && w.charges == multiset{0}
  {
    WinnerFinishes(row, outcome);
    var winning := LostRace(outcome)[..6];
    assert LostRace(outcome) == winning + [Insert(1, 1)];
    PlayOneMore(Turn, Start([row, row]), winning, Insert(1, 1));
    var w := Play(Turn, Start([row, row]), winning);
    assert Clash(w.rows[0], row);
    assert ClashesWithCommitted(w, row);
  }

  /** Both requests are past the lookup, and neither has inserted. */
  function BothPastLookup(row: Row): World {
    World(map[], multiset{}, [Client(row, Inserting), Client(row, Inserting)])
  }

  lemma LookUps(row: Row)
    ensures Turn(Turn(Start([row, row]), Check(0, None)), Check(1, None)) == BothPastLookup(row)
  {
    var start := Start([row, row]);
    assert start == World(map[], multiset{}, [Client(row, Checking), Client(row, Checking)]);
    var w := Turn(start, Check(0, None));
    assert w == World(map[], multiset{}, [Client(row, Inserting), Client(row, Checking)]);
  }

  lemma {:induction false} PlayTwo(start: World, a: Move, b: Move)
    ensures Play(Turn, start, [a, b]) == Turn(Turn(start, a), b)
  {
    hide Turn;
    var none: seq<Move> := [];
    PlayOneMore(Turn, start, none, a);
    PlayOneMore(Turn, start, [a], b);
    assert none + [a] == [a] && [a] + [b] == [a, b];
  }

  lemma BothLookUp(row: Row)
    ensures Play(Turn, Start([row, row]), [Check(0, None), Check(1, None)]) == BothPastLookup(row)
  {
    hide Turn, Start, BothPastLookup, Play;
    LookUps(row);
    PlayTwo(Start([row, row]), Check(0, None), Check(1, None));
  }

  /** From there the first request inserts, is charged and answered, and commits. */
  lemma WinnerGoesThrough(row: Row, reply: Reply)
    ensures Turn(Turn(Turn(Turn(BothPastLookup(row), Insert(0, 0)), Charge(0)), Answer(0, reply)), Commit(0)) ==
            World(map[0 := row], multiset{0}, [Client(row, Finished(0)), Client(row, Inserting)])
  {
    var w1 := Turn(BothPastLookup(row), Insert(0, 0));
    assert w1 == World(map[], multiset{}, [Client(row, Inserted(0)), Client(row, Inserting)]);
    var w2 := Turn(w1, Charge(0));
    assert w2 == World(map[], multiset{0}, [Client(row, Charged(0)), Client(row, Inserting)]);
    var w3 := Turn(w2, Answer(0, reply));
    assert w3 == World(map[], multiset{0}, [Client(row, Returning(0)), Client(row, Inserting)]);
  }

  lemma RaceInOrder(outcome: ProviderOutcome)
    ensures var moves := LostRace(outcome)[..6];
            && moves[..2] == [Check(0, None), Check(1, None)]
            && moves[..3] == moves[..2] + [Insert(0, 0)] && moves[..4] == moves[..3] + [Charge(0)]
            && moves[..5] == moves[..4] + [Answer(0, Answered(outcome, "P"))] && moves == moves[..5] + [Commit(0)]
  {
  }

  lemma WinnerFinishes(row: Row, outcome: ProviderOutcome)
    ensures Play(Turn, Start([row, row]), LostRace(outcome)[..6]) ==
            World(map[0 := row], multiset{0}, [Client(row, Finished(0)), Client(row, Inserting)])
  {
    var start, moves, reply := Start([row, row]), LostRace(outcome)[..6], Answered(outcome, "P");
    BothLookUp(row);
    WinnerGoesThrough(row, reply);
    RaceInOrder(outcome);
    hide Turn, Start, Play, LostRace, BothPastLookup;
    PlayOneMore(Turn, start, moves[..2], Insert(0, 0));
    PlayOneMore(Turn, start, moves[..3], Charge(0));
    PlayOneMore(Turn, start, moves[..4], Answer(0, reply));
    PlayOneMore(Turn, start, moves[..5], Commit(0));
  }

  /** Finished requests with one non-blank key of one tenant got one and the same payment. */
  lemma SameKeySamePayment(requests: seq<Row>, moves: seq<Move>, c: nat, d: nat)
    requires c < |requests| && d < |requests| && requests[c] == requests[d] && requests[c].key != ""
    ensures var w := Play(Turn, Start(requests), moves);
            && |w.clients| == |requests|
            && (w.clients[c].phase.Finished? && w.clients[d].phase.Finished? ==>
                  w.clients[c].phase.id == w.clients[d].phase.id)
  {
    PlayIsSafe(requests, moves);
  }
}
