/**
  Any number of deliveries of one event at once. The unique constraint on
  (provider, event id) makes a second delivery wait for the first, so whatever
  the interleaving they are processed one after another, and one takes effect.
*/
module CallbackRace {
  import opened Sums
  import opened Tables
  import opened Services
  import opened Invariants
  import opened Runs
  import opened History
  import opened Interleavings
  import Refinement = Delivery

  datatype Event = Event(provider: ProviderId, eventId: string, reference: string, outcome: ProviderOutcome)

  /** A delivery files its event row, then applies its outcome; `pending` is what it will have committed. */
  datatype Phase = Arrived | Filed | Applied(pending: Store) | Repeated | Finished | RolledBack | Dropped

  datatype Client = Client(now: Time, phase: Phase)

  /** The committed store, when the deliveries answered so far came, in that order, and all deliveries. */
  datatype World = World(event: Event, store: Store, answered: seq<Time>, clients: seq<Client>)

  datatype Move =
    | File(client: nat)
    | Apply(client: nat)
    | Commit(client: nat)
    | LogRepeat(client: nat)
    | Drop(client: nat)

  function Delivering(e: Event, now: Time): Step {
    CallingBack(e.provider, Parsed(e.eventId, e.reference, e.outcome), now)
  }

  function Deliveries(e: Event, times: seq<Time>): (steps: seq<Step>)
    ensures |steps| == |times|
  {
    if |times| == 0 then []
    else Deliveries(e, times[..|times| - 1]) + [Delivering(e, times[|times| - 1])]
  }

  function Original(s: Store, e: Event): Option<nat> {
    Newest(s.callbacks, Delivered(e.provider, e.eventId))
  }

  /** Its event row is inserted but not committed. */
  predicate Holds(client: Client) {
    client.phase.Filed? || client.phase.Applied?
  }

  /** An insert of the same event id waits for whoever holds one. */
  predicate MustWait(w: World, c: nat) {
    exists d :: 0 <= d < |w.clients| && d != c && Holds(w.clients[d])
  }

  predicate Enabled(w: World, m: Move) {
    && m.client < |w.clients|
    && KeysResolve(w.store)
    && var phase := w.clients[m.client].phase;
       match m
       case File(c) => phase.Arrived? && !MustWait(w, c)
       case Apply(_) => phase.Filed?
       case Commit(_) => phase.Applied?
       case LogRepeat(_) => phase.Repeated? && Original(w.store, w.event).Some?
       case Drop(_) => !phase.Finished? && !phase.RolledBack? && !phase.Dropped?
  }

  function Become(w: World, c: nat, phase: Phase): World
    requires c < |w.clients|
  {
    w.(clients := w.clients[c := w.clients[c].(phase := phase)])
  }

  function Answer(w: World, c: nat, store: Store, phase: Phase): World
    requires c < |w.clients|
  {
    Become(w, c, phase).(store := store, answered := w.answered + [w.clients[c].now])
  }

  /** What a delivery whose event row is in does next: find the payment and apply the outcome. */
  function Process(s: Store, e: Event, now: Time): Result<Store>
    requires KeysResolve(s)
  {
    FirstDelivery(s, e.provider, e.eventId, e.reference, e.outcome, now)
  }

  function Turn(w: World, m: Move): World {
    if !Enabled(w, m) then w
    else
      match m
      case File(c) => Become(w, c, if Original(w.store, w.event).Some? then Repeated else Filed)
      case Apply(c) =>
        (match Process(w.store, w.event, w.clients[c].now)
         case Ok(pending) => Become(w, c, Applied(pending))
         case Raised(_) => Answer(w, c, w.store, RolledBack))
      case Commit(c) => Answer(w, c, w.clients[c].phase.pending, Finished)
      case LogRepeat(c) =>
        var original := w.store.callbacks[Original(w.store, w.event).value];
        Answer(w, c, DuplicateDelivery(w.store, w.event.provider, original), Finished)
      case Drop(c) => Become(w, c, Dropped)
  }

  function Start(s: Store, e: Event, times: seq<Time>): World {
    World(e, s, [], seq(|times|, c requires 0 <= c < |times| => Client(times[c], Arrived)))
  }

  // ---------------------------------------------------------------- one after another

  /** One delivery at a time holds the event id, and what it is about to commit is what it would do alone. */
  predicate ClientSafe(w: World, c: nat)
    requires KeysResolve(w.store) && c < |w.clients|
  {
    && (Holds(w.clients[c]) ==> !MustWait(w, c) && Original(w.store, w.event).None?)
    && match w.clients[c].phase
       case Applied(pending) => Perform(w.store, Delivering(w.event, w.clients[c].now)) == Ok(pending)
       case Repeated => Original(w.store, w.event).Some?
       case _ => true
  }

  function WasAnswered(): Client -> int {
    (c: Client) => if c.phase.Finished? || c.phase.RolledBack? then 1 else 0
  }

  /** The store is what the answered deliveries leave when they are processed one after another. */
  ghost predicate Serial(s: Store, e: Event, w: World)
    requires Inv(s)
  {
    && w.event == e
    && Inv(w.store)
    && w.store == Run(s, Deliveries(e, w.answered))
    && |w.answered| == Sum(w.clients, WasAnswered())
    && forall c :: 0 <= c < |w.clients| ==> ClientSafe(w, c)
  }

  lemma ProcessingAlone(s: Store, e: Event, now: Time)
    requires KeysResolve(s) && Original(s, e).None?
    ensures Process(s, e, now) == Perform(s, Delivering(e, now))
  {
    hide FirstDelivery, KeysResolve;
  }

  lemma RepeatingAlone(s: Store, e: Event, now: Time)
    requires KeysResolve(s) && e.eventId != "" && Original(s, e).Some?
    ensures Perform(s, Delivering(e, now)) ==
            Ok(DuplicateDelivery(s, e.provider, s.callbacks[Original(s, e).value]))
  {
  }

  /** An answer is one more serial request. */
  lemma AnswerIsSerial(s: Store, e: Event, answered: seq<Time>, now: Time)
    requires Inv(s)
    ensures Run(s, Deliveries(e, answered + [now])) == After(Run(s, Deliveries(e, answered)), Delivering(e, now))
  {
    assert (answered + [now])[..|answered|] == answered;
    RunOneMore(s, Deliveries(e, answered), Delivering(e, now));
  }

  /** A delivery that is on file stays there. */
  lemma FiledForGood(s: Store, e: Event, now: Time)
    requires Inv(s) && Original(s, e).Some?
    ensures Original(After(s, Delivering(e, now)), e).Some?
  {
    StepEvolves(s, Delivering(e, now));
    hide Inv, After;
    var k := Original(s, e).value;
    assert After(s, Delivering(e, now)).callbacks[k] == s.callbacks[k];
  }

  /** Moves that commit nothing and answer nobody. */
  lemma QuietTurn(s: Store, e: Event, w: World, c: nat, phase: Phase)
    requires Inv(s) && Serial(s, e, w) && c < |w.clients|
    requires WasAnswered()(w.clients[c]) == 0 && WasAnswered()(Client(w.clients[c].now, phase)) == 0
    requires Holds(w.clients[c]) || !Holds(Client(w.clients[c].now, phase)) || !MustWait(w, c)
    requires ClientSafe(Become(w, c, phase), c)
    ensures Serial(s, e, Become(w, c, phase))
  {
    var w' := Become(w, c, phase);
    assert KeysResolve(w.store);
    hide Inv, ClientSafe, Run;
    SumUpdate(w.clients, c, w'.clients[c], WasAnswered());
    forall d | 0 <= d < |w'.clients| ensures ClientSafe(w', d) {
      if d != c {
        OtherStaysSafe(w, c, phase, d);
      }
    }
  }

  lemma OtherStaysSafe(w: World, c: nat, phase: Phase, d: nat)
    requires KeysResolve(w.store) && c < |w.clients| && d < |w.clients| && d != c && ClientSafe(w, d)
    requires Holds(w.clients[c]) || !Holds(Client(w.clients[c].now, phase)) || !MustWait(w, c)
    ensures ClientSafe(Become(w, c, phase), d)
  {
  }

  /** Moves that answer a delivery, at a moment when no other one holds the event id. */
  lemma AnswerTurn(s: Store, e: Event, w: World, c: nat, store: Store, phase: Phase)
    requires Inv(s) && Serial(s, e, w) && c < |w.clients|
    requires WasAnswered()(w.clients[c]) == 0 && (phase.Finished? || phase.RolledBack?)
    requires !MustWait(w, c)
    requires store == After(w.store, Delivering(e, w.clients[c].now))
    ensures Serial(s, e, Answer(w, c, store, phase))
  {
    var w' := Answer(w, c, store, phase);
    assert KeysResolve(w.store) && KeysResolve(store);
    AnswerIsSerial(s, e, w.answered, w.clients[c].now);
    if Original(w.store, e).Some? {
      FiledForGood(w.store, e, w.clients[c].now);
    }
    hide Inv, KeysResolve, Run, After, ClientSafe;
    SumUpdate(w.clients, c, w'.clients[c], WasAnswered());
    forall d | 0 <= d < |w'.clients| ensures ClientSafe(w', d) {
      OtherSafeAfterAnswer(w, c, store, phase, d);
    }
  }

  lemma OtherSafeAfterAnswer(w: World, c: nat, store: Store, phase: Phase, d: nat)
    requires KeysResolve(w.store) && KeysResolve(store)
    requires c < |w.clients| && d < |w.clients| && ClientSafe(w, d)
    requires (phase.Finished? || phase.RolledBack?) && !MustWait(w, c)
    requires Original(w.store, w.event).Some? ==> Original(store, w.event).Some?
    ensures ClientSafe(Answer(w, c, store, phase), d)
  {
  }

  lemma ApplyTurn(s: Store, e: Event, w: World, c: nat)
    requires Inv(s) && Serial(s, e, w) && Enabled(w, Apply(c))
    ensures Serial(s, e, Turn(w, Apply(c)))
  {
    var now := w.clients[c].now;
    assert ClientSafe(w, c);
    ProcessingAlone(w.store, e, now);
    var r := Process(w.store, e, now);
    if r.Ok? {
      AppliedIsSafe(w, c, r.value);
      hide Inv, Process;
      QuietTurn(s, e, w, c, Applied(r.value));
    } else {
      assert After(w.store, Delivering(e, now)) == w.store;
      hide Inv, Process;
      AnswerTurn(s, e, w, c, w.store, RolledBack);
    }
  }

  lemma AppliedIsSafe(w: World, c: nat, pending: Store)
    requires KeysResolve(w.store) && c < |w.clients| && w.clients[c].phase.Filed? && ClientSafe(w, c)
    requires Perform(w.store, Delivering(w.event, w.clients[c].now)) == Ok(pending)
    ensures ClientSafe(Become(w, c, Applied(pending)), c)
  {
  }

  lemma CommitTurn(s: Store, e: Event, w: World, c: nat)
    requires Inv(s) && Serial(s, e, w) && Enabled(w, Commit(c))
    ensures Serial(s, e, Turn(w, Commit(c)))
  {
    assert ClientSafe(w, c);
    assert After(w.store, Delivering(e, w.clients[c].now)) == w.clients[c].phase.pending;
    hide Inv, Perform, After, Run;
    AnswerTurn(s, e, w, c, w.clients[c].phase.pending, Finished);
  }

  lemma RepeatTurn(s: Store, e: Event, w: World, c: nat)
    requires Inv(s) && Serial(s, e, w) && e.eventId != "" && Enabled(w, LogRepeat(c))
    ensures Serial(s, e, Turn(w, LogRepeat(c)))
  {
    var now := w.clients[c].now;
    forall d | 0 <= d < |w.clients| ensures !Holds(w.clients[d]) {
      assert ClientSafe(w, d);
    }
    RepeatingAlone(w.store, e, now);
    var store := DuplicateDelivery(w.store, e.provider, w.store.callbacks[Original(w.store, e).value]);
    assert After(w.store, Delivering(e, now)) == store;
    hide Inv, Perform, After, Run;
    AnswerTurn(s, e, w, c, store, Finished);
  }

  lemma TurnKeepsSerial(s: Store, e: Event, w: World, m: Move)
    requires Inv(s) && Serial(s, e, w) && e.eventId != ""
    ensures Serial(s, e, Turn(w, m))
  {
    hide Inv, Serial;
    if Enabled(w, m) {
      match m
      case File(c) => FileTurn(s, e, w, c);
      case Apply(c) => ApplyTurn(s, e, w, c);
      case Commit(c) => CommitTurn(s, e, w, c);
      case LogRepeat(c) => RepeatTurn(s, e, w, c);
      case Drop(c) => DropTurn(s, e, w, c);
    }
  }

  lemma FileTurn(s: Store, e: Event, w: World, c: nat)
    requires Inv(s) && Serial(s, e, w) && Enabled(w, File(c))
    ensures Serial(s, e, Turn(w, File(c)))
  {
    hide Inv, Run;
    QuietTurn(s, e, w, c, Turn(w, File(c)).clients[c].phase);
  }

  lemma DropTurn(s: Store, e: Event, w: World, c: nat)
    requires Inv(s) && Serial(s, e, w) && Enabled(w, Drop(c))
    ensures Serial(s, e, Turn(w, Drop(c)))
  {
    hide Inv, Run;
    QuietTurn(s, e, w, c, Dropped);
  }

  lemma StartIsSerial(s: Store, e: Event, times: seq<Time>)
    requires Inv(s)
    ensures Serial(s, e, Start(s, e, times))
  {
    SumZero(Start(s, e, times).clients, WasAnswered());
  }

  /**
    However the deliveries interleave, the store is what the answered ones leave when
    they are processed one after another, and a delivery that was dropped left nothing.
  */
  lemma DeliveriesAreSerial(s: Store, e: Event, times: seq<Time>, moves: seq<Move>)
    requires Inv(s) && e.eventId != ""
    ensures var w := Play(Turn, Start(s, e, times), moves);
            && w.store == Run(s, Deliveries(e, w.answered))
            && |w.answered| == Sum(w.clients, WasAnswered())
  {
    hide Inv;
    var good := (w: World) => Serial(s, e, w);
    StartIsSerial(s, e, times);
    forall w: World, m: Move | good(w) ensures good(Turn(w, m)) {
      TurnKeepsSerial(s, e, w, m);
    }
    PlayKeeps(Turn, good, Start(s, e, times), moves);
  }

  // ---------------------------------------------------------------- exactly one takes effect

  lemma {:induction false} DeliveriesAreHonest(s: Store, e: Event, times: seq<Time>, owner: string -> nat)
    requires Inv(s)
    ensures Refinement.HonestRun(s, Deliveries(e, times), owner)
    decreases |times|
  {
    DeliverOneByOne(e, times);
    hide Inv, After, Deliveries;
    if |times| > 0 {
      DeliveriesAreHonest(After(s, Delivering(e, times[0])), e, times[1..], owner);
    }
  }

  lemma {:induction false} DeliverOneByOne(e: Event, times: seq<Time>)
    ensures |times| > 0 ==> Deliveries(e, times) == [Delivering(e, times[0])] + Deliveries(e, times[1..])
    ensures forall k :: 0 <= k < |times| ==> Deliveries(e, times)[k] == Delivering(e, times[k])
  {
    if |times| > 0 {
      var earlier := times[..|times| - 1];
      DeliverOneByOne(e, earlier);
      if |times| > 1 {
        assert earlier[1..] == times[1..][..|times| - 2];
      }
    }
  }

  lemma {:induction false} RepeatsAreDropped(e: Event, times: seq<Time>, seen: set<Refinement.EventKey>)
    requires (e.provider, e.eventId) in seen
    ensures Refinement.OnceOnly(Deliveries(e, times), seen) == []
  {
    DeliverOneByOne(e, times);
    hide Deliveries;
    if |times| > 0 {
      RepeatsAreDropped(e, times[1..], seen);
      assert Deliveries(e, times)[1..] == Deliveries(e, times[1..]);
    }
  }

  /**
    One event, however often it is delivered at once: the first delivery to be
    answered does all that any of them does, up to the log of duplicates.
  */
  lemma OneDeliveryTakesEffect(s: Store, e: Event, times: seq<Time>, moves: seq<Move>, owner: string -> nat)
    requires Inv(s) && e.eventId != "" && e.reference != "" && Refinement.Owned(s.payments, owner)
    ensures var w := Play(Turn, Start(s, e, times), moves);
            if w.answered == [] then w.store == s
            else
              var once := After(s, Delivering(e, w.answered[0]));
              && w.store == once.(events := w.store.events, callbacks := w.store.callbacks)
              && Filter(w.store.events, Refinement.NotDuplicateEvent())
                 == Filter(once.events, Refinement.NotDuplicateEvent())
              && forall t: TenantId :: Sum(w.store.events, Earned(t)) == Sum(once.events, Earned(t))
  {
    DeliveriesAreSerial(s, e, times, moves);
    hide Inv, KeysResolve, Turn, Play, Start, Run, After, Refinement.HonestRun, Refinement.OnceOnly;
    var answered := Play(Turn, Start(s, e, times), moves).answered;
    if |answered| > 0 {
      var key: Refinement.EventKey := (e.provider, e.eventId);
      var content := (k: Refinement.EventKey) => (e.reference, e.outcome);
      DeliverOneByOne(e, answered);
      DeliveriesAreHonest(s, e, answered, owner);
      Refinement.AtLeastOnceRefinesExactlyOnce(s, Deliveries(e, answered), owner, content);
      OnlyTheFirst(e, answered);
      RunOneMore(s, [], Delivering(e, answered[0]));
      assert [] + [Delivering(e, answered[0])] == [Delivering(e, answered[0])];
    }
  }

  lemma OnlyTheFirst(e: Event, times: seq<Time>)
    requires |times| > 0
    ensures Refinement.OnceOnly(Deliveries(e, times), {}) == [Delivering(e, times[0])]
  {
    DeliverOneByOne(e, times);
    hide Deliveries;
    assert Deliveries(e, times)[1..] == Deliveries(e, times[1..]);
    RepeatsAreDropped(e, times[1..], {} + {(e.provider, e.eventId)});
  }
}
