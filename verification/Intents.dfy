/** App-to-app intents on the requester's side (src/LogosQmlBridge.cpp:110-283): requests waiting for an
    answer, answers queued for the event loop, hot reload and destruction. */
module IntentModel {
  import opened Sequences

  type Id = nat
  type Engine = nat

  /** What an answer carries; the one envelope made here says that nobody provides the intent. */
  datatype Envelope = Unavailable | Routed(ok: bool, data: string, error: string)

  datatype Pending = Pending(callable: bool, engine: Option<Engine>, generation: nat)
  datatype Queued = Queued(id: Id, envelope: Envelope, pending: Pending)
  datatype Invocation = Invocation(id: Id, envelope: Envelope)
  datatype Fate = NotCallable | EngineGone | Abandoned | Stale | Destroyed

  /** What a router may do to the bridge from inside a call the bridge makes to it. */
  datatype Reentry = Answer(id: Id, envelope: Envelope) | Ask(id: Id, callable: bool)

  /** The bridge. `engines` are the script engines still alive and `engine` the one it is bound to. The rest from `requested`
      on is history: the ids handed out and what each request was recorded with, the callbacks run, what became of those that
      were not, the id lists given to intentsAbandoned, the calls of bridgeDestroyed, the engines that have died, and the
      requests the router was given, in order. */
  datatype Bridge = Bridge(
    alive: bool, router: bool, generation: nat, engine: Option<Engine>, engines: set<Engine>,
    pending: map<Id, Pending>, queue: seq<Queued>,
    requested: set<Id>, stamps: map<Id, Pending>, invoked: seq<Invocation>, dropped: map<Id, Fate>,
    reported: seq<set<Id>>, goodbyes: nat, died: set<Engine>, routed: seq<Id>)

  const NEW_BRIDGE := Bridge(true, false, 0, None, {}, map[], [], {}, map[], [], map[], [], 0, {}, [])

  predicate Runs(b: Bridge, engine: Option<Engine>) { engine.Some? && engine.value in b.engines }

  function Drop(b: Bridge, ids: set<Id>, fate: Fate): Bridge {
    b.(dropped := b.dropped + (map id | id in ids :: fate))
  }

  function DropOne(b: Bridge, id: Id, fate: Fate): Bridge { b.(dropped := b.dropped[id := fate]) }

  // ---- the operations ----

  function Record(b: Bridge, id: Id, callable: bool): Bridge {
    var stamp := Pending(callable, b.engine, b.generation);
    b.(pending := b.pending[id := stamp], requested := b.requested + {id}, stamps := b.stamps[id := stamp])
  }

  /** Why an answer to this request leads to no callback, if it does not. */
  function AnswerFate(b: Bridge, p: Pending): Option<Fate> {
    if !p.callable then Some(NotCallable) else if !Runs(b, p.engine) then Some(EngineGone) else None
  }

  /** An answer erases its request at once and only queues the callback. */
  function Deliver(b: Bridge, id: Id, envelope: Envelope): Bridge {
    if id !in b.pending then b
    else
      var p, b' := b.pending[id], b.(pending := b.pending - {id});
      var fate := AnswerFate(b, p);
      if fate.Some? then DropOne(b', id, fate.value) else b'.(queue := b.queue + [Queued(id, envelope, p)])
  }

  /** routeIntent(): the router is given the request. */
  function Route(b: Bridge, id: Id): Bridge { b.(routed := b.routed + [id]) }

  /** A request up to the point where the router has been given it. Without a router it fails at once. */
  function Requested(b: Bridge, id: Id, callable: bool): Bridge {
    var b' := Record(b, id, callable);
    if b.router then Route(b', id) else Deliver(b', id, Unavailable)
  }

  function Reenter(b: Bridge, r: Reentry): Bridge {
    match r
    case Answer(id, envelope) => Deliver(b, id, envelope)
    case Ask(id, callable) => if id in b.requested then b else Requested(b, id, callable)
  }

  function ReenterAll(b: Bridge, rs: seq<Reentry>): Bridge
    decreases |rs|
  {
    if rs == [] then b else ReenterAll(Reenter(b, rs[0]), rs[1..])
  }

  /** request(): a fresh id is recorded before the router, if any, is told; `inline` is what the router does before it
      returns. */
  function Request(b: Bridge, id: Id, callable: bool, inline: seq<Reentry>): Bridge
    requires id !in b.requested
  {
    if b.router then ReenterAll(Requested(b, id, callable), inline) else Requested(b, id, callable)
  }

  /** A reload, up to the point where the router is told. */
  function Cleared(b: Bridge): Bridge {
    Drop(b.(pending := map[], generation := b.generation + 1), b.pending.Keys, Abandoned)
  }

  function Abandon(b: Bridge, inline: seq<Reentry>): Bridge {
    if b.pending == map[] then b.(generation := b.generation + 1)
    else if !b.router then Cleared(b)
    else ReenterAll(Told(b), inline)
  }

  function Told(b: Bridge): Bridge { Cleared(b).(reported := b.reported + [b.pending.Keys]) }

  /** The destructor. Whatever the router does on being told, no callback is left to run. */
  function Destroy(b: Bridge, inline: seq<Reentry>): Bridge {
    var b1 := Drop(b.(pending := map[]), b.pending.Keys, Destroyed);
    var b2 := if b.router then ReenterAll(b1.(router := false), inline) else b1;
    Drop(b2.(alive := false, queue := [], goodbyes := b.goodbyes + if b.router then 1 else 0), Ids(b2.queue), Destroyed)
  }

  function Ids(queue: seq<Queued>): set<Id> { set k | 0 <= k < |queue| :: queue[k].id }

  /** Why a queued answer's turn runs no callback, if it does not. */
  function TurnFate(b: Bridge, p: Pending): Option<Fate> {
    if p.generation != b.generation then Some(Stale)
    else if !Runs(b, p.engine) then Some(EngineGone)
    else if !p.callable then Some(NotCallable)
    else None
  }

  /** One turn of the event loop: the only place a callback runs. */
  function Turn(b: Bridge): Bridge {
    if b.queue == [] then b
    else
      var q, b' := b.queue[0], b.(queue := b.queue[1..]);
      var fate := TurnFate(b, q.pending);
      if fate.Some? then DropOne(b', q.id, fate.value)
      else b'.(invoked := b.invoked + [Invocation(q.id, q.envelope)])
  }

  datatype Step =
    | DoRequest(id: Id, callable: bool, inline: seq<Reentry>)
    | DoDeliver(id: Id, envelope: Envelope)
    | DoAbandon(inline: seq<Reentry>)
    | DoDestroy(inline: seq<Reentry>)
    | DoTurn
    | SetRouter(present: bool)
    | EngineDies(dead: Engine)
    | Bind(bound: Option<Engine>)

  /** Ids are fresh, an engine that has died does not come back, and nothing happens to a bridge after its destructor. */
  function Apply(b: Bridge, s: Step): Bridge {
    if !b.alive then b
    else
      match s
      case DoRequest(id, callable, inline) =>
        if id in b.requested then b else Request(b, id, callable, inline)
      case DoDeliver(id, envelope) => Deliver(b, id, envelope)
      case DoAbandon(inline) => Abandon(b, inline)
      case DoDestroy(inline) => Destroy(b, inline)
      case DoTurn => Turn(b)
      case SetRouter(present) => b.(router := present)
      case EngineDies(e) => b.(engines := b.engines - {e}, died := b.died + {e})
      case Bind(e) =>
        if e.Some? && e.value in b.died then b
        else b.(engine := e, engines := if e.Some? then b.engines + {e.value} else b.engines)
  }

  function Run(b: Bridge, steps: seq<Step>): Bridge
    decreases |steps|
  {
    if steps == [] then b else Run(Apply(b, steps[0]), steps[1..])
  }
}

module IntentLaws {
  import opened Sequences
  import opened IntentModel

  ghost predicate InQueue(b: Bridge, id: Id) {
    exists k :: 0 <= k < |b.queue| && b.queue[k].id == id
  }

  ghost predicate WasInvoked(b: Bridge, id: Id) {
    exists k :: 0 <= k < |b.invoked| && b.invoked[k].id == id
  }

  /** Every id ever requested is in exactly one place, and in it once. */
  ghost predicate Conserved(b: Bridge) {
    && (forall id :: id in b.requested <==>
          id in b.pending || InQueue(b, id) || WasInvoked(b, id) || id in b.dropped)
    && b.pending.Keys !! b.dropped.Keys
    && (forall k :: 0 <= k < |b.queue| ==>
          b.queue[k].id !in b.pending && b.queue[k].id !in b.dropped && !WasInvoked(b, b.queue[k].id))
    && (forall k :: 0 <= k < |b.invoked| ==>
          b.invoked[k].id !in b.pending && b.invoked[k].id !in b.dropped)
    && (forall i, j :: 0 <= i < j < |b.queue| ==> b.queue[i].id != b.queue[j].id)
    && (forall i, j :: 0 <= i < j < |b.invoked| ==> b.invoked[i].id != b.invoked[j].id)
  }

  /** What waits belongs to the present generation; what is queued, to no later one. */
  ghost predicate Stamped(b: Bridge) {
    && (forall id :: id in b.pending ==> b.pending[id].generation == b.generation)
    && (forall k :: 0 <= k < |b.queue| ==> b.queue[k].pending.generation <= b.generation)
  }

  /** No id is reported to the router twice, and none that is still waiting. */
  ghost predicate Reported(b: Bridge) {
    && (forall i, j :: 0 <= i < j < |b.reported| ==> b.reported[i] !! b.reported[j])
    && (forall i, id :: 0 <= i < |b.reported| && id in b.reported[i] ==>
          id in b.dropped && b.dropped[id] == Abandoned)
    && b.goodbyes <= (if b.alive then 0 else 1)
    && (!b.alive ==> b.pending == map[] && b.queue == [])
  }

  ghost predicate Inv(b: Bridge) {
    Conserved(b) && Stamped(b) && Reported(b)
  }

  // ---- every operation keeps it ----

  lemma RecordKeeps(b: Bridge, id: Id, callable: bool)
    requires Inv(b) && b.alive && id !in b.requested
    ensures Inv(Record(b, id, callable))
  {
    var b' := Record(b, id, callable);
    assert forall x :: InQueue(b', x) <==> InQueue(b, x);
    assert forall x :: WasInvoked(b', x) <==> WasInvoked(b, x);
  }

  lemma QueueAppend(b: Bridge, b': Bridge, q: Queued, id: Id)
    requires b'.queue == b.queue + [q]
    ensures InQueue(b', id) <==> InQueue(b, id) || id == q.id
  {
    assert b'.queue[|b.queue|] == q;
    if InQueue(b, id) {
      var k :| 0 <= k < |b.queue| && b.queue[k].id == id;
      assert b'.queue[k].id == id;
    }
  }

  lemma QueuePop(b: Bridge, b': Bridge, id: Id)
    requires b.queue != [] && b'.queue == b.queue[1..]
    requires forall i, j :: 0 <= i < j < |b.queue| ==> b.queue[i].id != b.queue[j].id
    ensures InQueue(b', id) <==> InQueue(b, id) && id != b.queue[0].id
  {
    if InQueue(b, id) && id != b.queue[0].id {
      var k :| 0 <= k < |b.queue| && b.queue[k].id == id;
      assert b'.queue[k - 1].id == id;
    }
  }

  lemma InvokedAppend(b: Bridge, b': Bridge, i: Invocation, id: Id)
    requires b'.invoked == b.invoked + [i]
    ensures WasInvoked(b', id) <==> WasInvoked(b, id) || id == i.id
  {
    assert b'.invoked[|b.invoked|] == i;
    if WasInvoked(b, id) {
      var k :| 0 <= k < |b.invoked| && b.invoked[k].id == id;
      assert b'.invoked[k].id == id;
    }
  }

  lemma DeliverKeeps(b: Bridge, id: Id, envelope: Envelope)
    requires Inv(b)
    ensures Inv(Deliver(b, id, envelope))
  {
    if id in b.pending {
      var b' := Deliver(b, id, envelope);
      assert Stamped(b') && Reported(b') by {
        assert id !in b.dropped;
        hide Conserved;
      }
      hide Stamped, Reported;
      if b.pending[id].callable && Runs(b, b.pending[id].engine) {
        DeliverQueues(b, id, envelope);
      } else {
        DeliverDrops(b, id, envelope);
      }
    }
  }

  lemma DeliverQueues(b: Bridge, id: Id, envelope: Envelope)
    requires Conserved(b) && id in b.pending && b.pending[id].callable && Runs(b, b.pending[id].engine)
    ensures Conserved(Deliver(b, id, envelope))
  {
    var b', p := Deliver(b, id, envelope), b.pending[id];
    forall x ensures InQueue(b', x) <==> InQueue(b, x) || x == id {
      QueueAppend(b, b', Queued(id, envelope, p), x);
    }
    forall x ensures WasInvoked(b', x) <==> WasInvoked(b, x) {
    }
    assert !InQueue(b, id) && !WasInvoked(b, id);
    assert forall k :: 0 <= k < |b.queue| ==> b.queue[k].id != id && b'.queue[k] == b.queue[k];
    hide InQueue, WasInvoked;
  }

  lemma DeliverDrops(b: Bridge, id: Id, envelope: Envelope)
    requires Conserved(b) && id in b.pending && !(b.pending[id].callable && Runs(b, b.pending[id].engine))
    ensures Conserved(Deliver(b, id, envelope))
  {
    var b' := Deliver(b, id, envelope);
    forall x ensures InQueue(b', x) <==> InQueue(b, x) {
    }
    forall x ensures WasInvoked(b', x) <==> WasInvoked(b, x) {
    }
    assert b'.dropped.Keys == b.dropped.Keys + {id};
    hide InQueue, WasInvoked;
  }

  lemma TurnKeeps(b: Bridge)
    requires Inv(b)
    ensures Inv(Turn(b))
  {
    hide TurnFate;
    if b.queue != [] {
      var b', q := Turn(b), b.queue[0];
      assert Stamped(b') && Reported(b') by {
        HeadIsQueued(b);
        hide Conserved;
      }
      hide Stamped, Reported;
      if b'.invoked == b.invoked {
        TurnDrops(b);
      } else {
        TurnInvokes(b);
      }
    }
  }

  lemma HeadIsQueued(b: Bridge)
    requires Conserved(b) && b.queue != []
    ensures var id := b.queue[0].id;
            InQueue(b, id) && id !in b.pending && id !in b.dropped && !WasInvoked(b, id) && id in b.requested
  {
    assert InQueue(b, b.queue[0].id);
  }

  lemma SameInvoked(b: Bridge, b': Bridge)
    requires b'.invoked == b.invoked
    ensures forall id :: WasInvoked(b', id) <==> WasInvoked(b, id)
  {
  }

  lemma NeverInvoked(b: Bridge, id: Id)
    requires !WasInvoked(b, id)
    ensures forall k :: 0 <= k < |b.invoked| ==> b.invoked[k].id != id
  {
  }

  lemma TurnDrops(b: Bridge)
    requires Conserved(b) && b.queue != [] && Turn(b).invoked == b.invoked
    ensures Conserved(Turn(b))
  {
    hide TurnFate;
    var b', q := Turn(b), b.queue[0];
    assert b'.queue == b.queue[1..] && b'.pending == b.pending && b'.requested == b.requested;
    assert b'.dropped.Keys == b.dropped.Keys + {q.id};
    hide Turn;
    HeadIsQueued(b);
    SameInvoked(b, b');
    NeverInvoked(b, q.id);
    assert (forall x :: InQueue(b', x) <==> InQueue(b, x) && x != q.id) by {
      OnlyHeadLeaves(b, b');
    }
    hide Conserved, InQueue, WasInvoked;
    HeadDropped(b, b');
  }

  lemma OnlyHeadLeaves(b: Bridge, b': Bridge)
    requires Conserved(b) && b.queue != [] && b'.queue == b.queue[1..]
    ensures forall x :: InQueue(b', x) <==> InQueue(b, x) && x != b.queue[0].id
  {
    forall x ensures InQueue(b', x) <==> InQueue(b, x) && x != b.queue[0].id {
      QueuePop(b, b', x);
    }
  }

  lemma HeadDropped(b: Bridge, b': Bridge)
    requires Conserved(b) && b.queue != []
    requires b'.queue == b.queue[1..] && b'.pending == b.pending && b'.requested == b.requested && b'.invoked == b.invoked
    requires var id := b.queue[0].id;
             && id in b.requested && id !in b.pending && b'.dropped.Keys == b.dropped.Keys + {id}
             && (forall x :: InQueue(b', x) <==> InQueue(b, x) && x != id)
             && (forall k :: 0 <= k < |b.invoked| ==> b.invoked[k].id != id)
    requires forall x :: WasInvoked(b', x) <==> WasInvoked(b, x)
    ensures Conserved(b')
  {
    hide InQueue, WasInvoked;
  }

  lemma TurnInvokes(b: Bridge)
    requires Conserved(b) && b.queue != [] && Turn(b).invoked != b.invoked
    ensures Conserved(Turn(b))
  {
    hide TurnFate;
    var b', q := Turn(b), b.queue[0];
    assert b' == b.(queue := b.queue[1..], invoked := b.invoked + [Invocation(q.id, q.envelope)]);
    hide Turn;
    HeadIsQueued(b);
    OnlyHeadLeaves(b, b');
    forall x ensures WasInvoked(b', x) <==> WasInvoked(b, x) || x == q.id {
      InvokedAppend(b, b', Invocation(q.id, q.envelope), x);
    }
    assert forall k :: 0 <= k < |b.invoked| ==> WasInvoked(b, b.invoked[k].id);
    hide InQueue, WasInvoked;
  }

  /** Clearing the table drops exactly what waited. */
  lemma ClearKeeps(b: Bridge, fate: Fate, generation: nat)
    requires Inv(b) && b.generation <= generation
    ensures var b' := Drop(b.(pending := map[], generation := generation), b.pending.Keys, fate);
            Inv(b') && forall id :: id in b.pending ==> id in b'.dropped && b'.dropped[id] == fate
  {
    var b' := Drop(b.(pending := map[], generation := generation), b.pending.Keys, fate);
    forall x ensures InQueue(b', x) <==> InQueue(b, x) {
    }
    forall x ensures WasInvoked(b', x) <==> WasInvoked(b, x) {
    }
    hide InQueue, WasInvoked;
    assert Conserved(b');
  }

  lemma ReenterKeeps(b: Bridge, r: Reentry)
    requires Inv(b) && b.alive
    ensures Inv(Reenter(b, r)) && Reenter(b, r).alive
  {
    hide Inv;
    match r
    case Answer(id, envelope) => DeliverKeeps(b, id, envelope);
    case Ask(id, callable) =>
      if id !in b.requested {
        RequestedKeeps(b, id, callable);
      }
  }

  lemma RequestedKeeps(b: Bridge, id: Id, callable: bool)
    requires Inv(b) && b.alive && id !in b.requested
    ensures Inv(Requested(b, id, callable)) && Requested(b, id, callable).alive
  {
    RecordKeeps(b, id, callable);
    hide Inv;
    var b' := Record(b, id, callable);
    if b.router {
      FlagsKeep(b', Route(b', id));
    } else {
      DeliverKeeps(b', id, Unavailable);
    }
  }

  lemma {:induction false} ReenterAllKeeps(b: Bridge, rs: seq<Reentry>)
    requires Inv(b) && b.alive
    ensures Inv(ReenterAll(b, rs)) && ReenterAll(b, rs).alive
    decreases |rs|
  {
    hide Inv, Reenter;
    if rs != [] {
      ReenterKeeps(b, rs[0]);
      ReenterAllKeeps(Reenter(b, rs[0]), rs[1..]);
    }
  }

  lemma ReportKeeps(b: Bridge, ids: set<Id>)
    requires Inv(b) && (forall id :: id in ids ==> id in b.dropped && b.dropped[id] == Abandoned)
    requires forall i :: 0 <= i < |b.reported| ==> b.reported[i] !! ids
    ensures Inv(b.(reported := b.reported + [ids]))
  {
    var b' := b.(reported := b.reported + [ids]);
    assert Conserved(b') && Stamped(b') by {
      SameLedger(b, b');
    }
  }

  /** Nothing but the ledger counts for conservation and stamps. */
  lemma SameLedger(b: Bridge, b': Bridge)
    requires Conserved(b) && Stamped(b)
    requires b'.pending == b.pending && b'.queue == b.queue && b'.requested == b.requested
    requires b'.invoked == b.invoked && b'.dropped == b.dropped && b'.generation == b.generation
    ensures Conserved(b') && Stamped(b')
  {
    assert forall x :: InQueue(b', x) <==> InQueue(b, x);
    assert forall x :: WasInvoked(b', x) <==> WasInvoked(b, x);
    hide InQueue, WasInvoked;
  }

  lemma AbandonKeeps(b: Bridge, inline: seq<Reentry>)
    requires Inv(b) && b.alive
    ensures Inv(Abandon(b, inline)) && Abandon(b, inline).alive
  {
    if b.pending == map[] {
      AgeKeeps(b);
    } else {
      ToldKeeps(b);
      hide Inv;
      if b.router {
        ReenterAllKeeps(Told(b), inline);
      }
    }
  }

  lemma AgeKeeps(b: Bridge)
    requires Inv(b) && b.pending == map[]
    ensures Inv(b.(generation := b.generation + 1))
  {
    ClearKeeps(b, Abandoned, b.generation + 1);
    assert b.dropped + (map id | id in b.pending.Keys :: Abandoned) == b.dropped;
  }

  lemma ToldKeeps(b: Bridge)
    requires Inv(b)
    ensures Inv(Cleared(b)) && Inv(Told(b))
  {
    hide Inv, IntentModel.Drop;
    ReportedGone(b);
    ClearKeeps(b, Abandoned, b.generation + 1);
    ClearingReportsNothing(b);
    ReportKeeps(Cleared(b), b.pending.Keys);
  }

  lemma ClearingReportsNothing(b: Bridge)
    ensures Cleared(b).reported == b.reported
  {
  }

  lemma ReportedGone(b: Bridge)
    requires Inv(b)
    ensures forall i :: 0 <= i < |b.reported| ==> b.reported[i] !! b.pending.Keys
  {
  }

  lemma {:induction false} WithoutRouterNothingWaits(b: Bridge, rs: seq<Reentry>)
    requires !b.router && b.pending == map[]
    ensures ReenterAll(b, rs).pending == map[] && !ReenterAll(b, rs).router
    ensures ReenterAll(b, rs).goodbyes == b.goodbyes && ReenterAll(b, rs).invoked == b.invoked
    decreases |rs|
  {
    if rs != [] {
      assert Reenter(b, rs[0]).pending == map[];
      WithoutRouterNothingWaits(Reenter(b, rs[0]), rs[1..]);
    }
  }

  /** The end: whatever is still queued is dropped with the object. */
  lemma ShutKeeps(b: Bridge, goodbyes: nat)
    requires Inv(b) && b.pending == map[] && goodbyes <= 1
    ensures var b' := Drop(b.(alive := false, queue := [], goodbyes := goodbyes), Ids(b.queue), Destroyed);
            Inv(b') && b'.invoked == b.invoked
  {
    var b' := Drop(b.(alive := false, queue := [], goodbyes := goodbyes), Ids(b.queue), Destroyed);
    assert b' == b.(alive := false, queue := [], goodbyes := goodbyes, dropped := b'.dropped);
    assert b'.dropped.Keys == b.dropped.Keys + Ids(b.queue);
    assert Stamped(b');
    assert Reported(b') by {
      assert forall id :: id in Ids(b.queue) ==> id !in b.dropped by {
        InIds(b);
      }
      hide Conserved, Stamped, Ids;
    }
    hide Stamped, Reported, Drop;
    InIds(b);
    SameInvoked(b, b');
    assert forall id :: !InQueue(b', id);
    hide Ids, InQueue, WasInvoked;
  }

  lemma InIds(b: Bridge)
    requires Conserved(b)
    ensures forall id :: id in Ids(b.queue) <==> InQueue(b, id)
    ensures forall id :: id in Ids(b.queue) ==> id !in b.dropped && id !in b.pending && !WasInvoked(b, id)
  {
  }

  lemma DestroyKeeps(b: Bridge, inline: seq<Reentry>)
    requires Inv(b) && b.alive
    ensures Inv(Destroy(b, inline)) && Destroy(b, inline).invoked == b.invoked
  {
    var b1 := Drop(b.(pending := map[]), b.pending.Keys, Destroyed);
    ForgottenKeeps(b);
    NoFarewellYet(b);
    DroppingLeaves(b.(pending := map[]), b.pending.Keys, Destroyed);
    hide Inv, Drop, Ids, ReenterAll;
    if b.router {
      FarewellKeeps(b1, inline);
    } else {
      ShutKeeps(b1, 0);
    }
  }

  lemma ForgottenKeeps(b: Bridge)
    requires Inv(b)
    ensures Inv(Drop(b.(pending := map[]), b.pending.Keys, Destroyed))
  {
    hide Inv;
    ClearKeeps(b, Destroyed, b.generation);
    assert b.(pending := map[], generation := b.generation) == b.(pending := map[]);
  }

  lemma NoFarewellYet(b: Bridge)
    requires Inv(b) && b.alive
    ensures b.goodbyes == 0
  {
  }

  lemma DroppingLeaves(b: Bridge, ids: set<Id>, fate: Fate)
    ensures Drop(b, ids, fate) == b.(dropped := Drop(b, ids, fate).dropped)
  {
  }

  lemma FarewellKeeps(b: Bridge, inline: seq<Reentry>)
    requires Inv(b) && b.alive && b.pending == map[]
    ensures var b2 := ReenterAll(b.(router := false), inline);
            var b' := Drop(b2.(alive := false, queue := [], goodbyes := 1), Ids(b2.queue), Destroyed);
            Inv(b') && b'.invoked == b.invoked
  {
    hide Inv, ReenterAll, IntentModel.Drop, Ids;
    var b1 := b.(router := false);
    FlagsKeep(b, b1);
    ReenterAllKeeps(b1, inline);
    WithoutRouterNothingWaits(b1, inline);
    ShutKeeps(ReenterAll(b1, inline), 1);
  }

  lemma ApplyKeeps(b: Bridge, s: Step)
    requires Inv(b)
    ensures Inv(Apply(b, s))
  {
    hide Inv, Abandon, Destroy, Turn, Deliver, Record;
    if b.alive {
      match s
      case DoRequest(id, callable, inline) =>
        if id !in b.requested {
          RequestKeeps(b, id, callable, inline);
        }
      case DoDeliver(id, envelope) => DeliverKeeps(b, id, envelope);
      case DoAbandon(inline) => AbandonKeeps(b, inline);
      case DoDestroy(inline) => DestroyKeeps(b, inline);
      case DoTurn => TurnKeeps(b);
      case _ => FlagsKeep(b, Apply(b, s));
    }
  }

  lemma RequestKeeps(b: Bridge, id: Id, callable: bool, inline: seq<Reentry>)
    requires Inv(b) && b.alive && id !in b.requested
    ensures Inv(Request(b, id, callable, inline))
  {
    hide Inv, Requested;
    RequestedKeeps(b, id, callable);
    if b.router {
      ReenterAllKeeps(Requested(b, id, callable), inline);
    }
  }

  lemma FlagsKeep(b: Bridge, b': Bridge)
    requires Inv(b) && b' == b.(router := b'.router, engine := b'.engine, engines := b'.engines, died := b'.died,
                                 routed := b'.routed)
    ensures Inv(b')
  {
    SameLedger(b, b');
  }

  lemma {:induction false} RunKeeps(b: Bridge, steps: seq<Step>)
    requires Inv(b)
    ensures Inv(Run(b, steps))
    decreases |steps|
  {
    hide Inv, Apply;
    if steps != [] {
      ApplyKeeps(b, steps[0]);
      RunKeeps(Apply(b, steps[0]), steps[1..]);
    }
  }

  lemma Reached(steps: seq<Step>)
    ensures Inv(Run(NEW_BRIDGE, steps))
  {
    assert Inv(NEW_BRIDGE);
    RunKeeps(NEW_BRIDGE, steps);
  }

  // ---- what holds of every run ----

  function Count(here: bool): nat { if here then 1 else 0 }

  /** Conservation: each id ever requested is waiting, queued, invoked or dropped, exactly one of them;
      no callback runs twice. */
  lemma IntentLaw(steps: seq<Step>, id: Id)
    ensures var b := Run(NEW_BRIDGE, steps);
            && Count(id in b.pending) + Count(InQueue(b, id)) + Count(WasInvoked(b, id)) + Count(id in b.dropped)
               == Count(id in b.requested)
            && forall i, j :: 0 <= i < j < |b.invoked| ==> b.invoked[i].id != b.invoked[j].id
  {
    Reached(steps);
  }

  /** Nothing but a turn of the event loop runs a callback: not request(), however the router answers from
      inside it, not an answer, not a reload, not the destructor. */
  lemma {:induction false} OnlyTurnsInvoke(b: Bridge, steps: seq<Step>)
    requires DoTurn !in steps
    ensures Run(b, steps).invoked == b.invoked
    decreases |steps|
  {
    hide Apply;
    if steps != [] {
      assert DoTurn !in steps[1..];
      QuietStep(b, steps[0]);
      OnlyTurnsInvoke(Apply(b, steps[0]), steps[1..]);
    }
  }

  lemma QuietStep(b: Bridge, s: Step)
    requires !s.DoTurn?
    ensures Apply(b, s).invoked == b.invoked
  {
    match s
    case DoRequest(id, callable, inline) => ReenterQuietly(Requested(b, id, callable), inline);
    case DoAbandon(inline) => ReenterQuietly(Told(b), inline);
    case DoDestroy(inline) =>
      ReenterQuietly(Drop(b.(pending := map[]), b.pending.Keys, Destroyed).(router := false), inline);
    case _ =>
  }

  lemma {:induction false} ReenterQuietly(b: Bridge, rs: seq<Reentry>)
    ensures ReenterAll(b, rs).invoked == b.invoked
    ensures ReenterAll(b, rs).generation == b.generation && b.requested <= ReenterAll(b, rs).requested
    decreases |rs|
  {
    if rs != [] {
      ReenterQuietly(Reenter(b, rs[0]), rs[1..]);
    }
  }

  /** Ids whose callbacks can no longer run: none waits, and the queued ones carry an older generation. */
  ghost predicate Forsaken(b: Bridge, ids: set<Id>) {
    && ids <= b.requested
    && (forall id :: id in ids ==> id !in b.pending)
    && (forall k :: 0 <= k < |b.queue| && b.queue[k].id in ids ==> b.queue[k].pending.generation < b.generation)
  }

  lemma ForsakenReenter(b: Bridge, r: Reentry, ids: set<Id>)
    requires Forsaken(b, ids)
    ensures Forsaken(Reenter(b, r), ids)
  {
  }

  lemma {:induction false} ForsakenReenterAll(b: Bridge, rs: seq<Reentry>, ids: set<Id>)
    requires Forsaken(b, ids)
    ensures Forsaken(ReenterAll(b, rs), ids)
    decreases |rs|
  {
    hide Forsaken, Reenter;
    if rs != [] {
      ForsakenReenter(b, rs[0], ids);
      ForsakenReenterAll(Reenter(b, rs[0]), rs[1..], ids);
    }
  }

  lemma ForsakenTurn(b: Bridge, ids: set<Id>)
    requires Forsaken(b, ids)
    ensures Forsaken(Turn(b), ids) && b.invoked <= Turn(b).invoked
    ensures forall k :: |b.invoked| <= k < |Turn(b).invoked| ==> Turn(b).invoked[k].id !in ids
  {
  }

  lemma ForsakenStep(b: Bridge, s: Step, ids: set<Id>)
    requires Forsaken(b, ids)
    ensures Forsaken(Apply(b, s), ids)
    ensures b.invoked <= Apply(b, s).invoked
    ensures forall k :: |b.invoked| <= k < |Apply(b, s).invoked| ==> Apply(b, s).invoked[k].id !in ids
  {
    if s.DoTurn? {
      ForsakenTurn(b, ids);
    } else {
      QuietStep(b, s);
      ForsakenQuietStep(b, s, ids);
    }
  }

  lemma ForsakenQuietStep(b: Bridge, s: Step, ids: set<Id>)
    requires Forsaken(b, ids) && !s.DoTurn?
    ensures Forsaken(Apply(b, s), ids)
  {
    hide Destroy, Abandon;
    match s
    case DoRequest(id, callable, inline) =>
      if b.alive && id !in b.requested {
        ForsakenReenterAll(Requested(b, id, callable), inline, ids);
      }
    case DoAbandon(inline) => ForsakenAbandon(b, inline, ids);
    case DoDestroy(inline) => ForsakenDestroy(b, inline, ids);
    case _ =>
  }

  lemma ForsakenAbandon(b: Bridge, inline: seq<Reentry>, ids: set<Id>)
    requires Forsaken(b, ids)
    ensures Forsaken(Abandon(b, inline), ids)
  {
    ForsakenReenterAll(Told(b), inline, ids);
  }

  lemma ForsakenDestroy(b: Bridge, inline: seq<Reentry>, ids: set<Id>)
    requires Forsaken(b, ids)
    ensures Forsaken(Destroy(b, inline), ids)
  {
    ForsakenReenterAll(Drop(b.(pending := map[]), b.pending.Keys, Destroyed).(router := false), inline, ids);
  }

  lemma {:induction false} ForsakenRun(b: Bridge, steps: seq<Step>, ids: set<Id>)
    requires Forsaken(b, ids)
    ensures var t := Run(b, steps);
            b.invoked <= t.invoked && forall k :: |b.invoked| <= k < |t.invoked| ==> t.invoked[k].id !in ids
    decreases |steps|
  {
    hide Forsaken, Apply;
    if steps != [] {
      ForsakenStep(b, steps[0], ids);
      ForsakenRun(Apply(b, steps[0]), steps[1..], ids);
    }
  }

  /** After a hot reload no callback of an earlier request ever runs, not even one already queued, whatever the router
      does from inside intentsAbandoned and whatever happens afterwards. */
  lemma AbandonmentIsFinal(before: seq<Step>, inline: seq<Reentry>, later: seq<Step>)
    requires Run(NEW_BRIDGE, before).alive
    ensures var b := Run(NEW_BRIDGE, before); var t := Run(Abandon(b, inline), later);
            && b.invoked <= t.invoked
            && forall k :: |b.invoked| <= k < |t.invoked| ==> t.invoked[k].id !in b.requested
  {
    var b := Run(NEW_BRIDGE, before);
    Reached(before);
    assert Forsaken(Cleared(b), b.requested);
    assert Forsaken(b.(generation := b.generation + 1), b.requested) || b.pending != map[];
    ForsakenReenterAll(Told(b), inline, b.requested);
    ReenterQuietly(Told(b), inline);
    assert Cleared(b).invoked == b.invoked;
    ForsakenRun(Abandon(b, inline), later, b.requested);
  }

  /** What the router is told: at a reload exactly the ids waiting at that moment, all of them, once; no id
      twice over a whole run; and one farewell at most. */
  lemma ReportLaw(steps: seq<Step>, inline: seq<Reentry>)
    ensures var b := Run(NEW_BRIDGE, steps); var told := Abandon(b, inline).reported;
            && (told == if b.router && b.pending != map[] then b.reported + [b.pending.Keys] else b.reported)
            && (forall i, j :: 0 <= i < j < |b.reported| ==> b.reported[i] !! b.reported[j])
            && (forall i, id :: 0 <= i < |b.reported| && id in b.reported[i] ==>
                  id !in b.pending && !InQueue(b, id) && !WasInvoked(b, id))
            && b.goodbyes <= 1 && (b.alive ==> b.goodbyes == 0)
  {
    var b := Run(NEW_BRIDGE, steps);
    Reached(steps);
    ReenterReportsNothing(Told(b), inline);
    hide Run, ReenterAll;
    ReportedAreDropped(b);
    hide Conserved, Stamped;
  }

  lemma ReportedAreDropped(b: Bridge)
    requires Inv(b)
    ensures forall i, id :: 0 <= i < |b.reported| && id in b.reported[i] ==>
              id !in b.pending && !InQueue(b, id) && !WasInvoked(b, id)
  {
    forall i, id | 0 <= i < |b.reported| && id in b.reported[i]
      ensures id !in b.pending && !InQueue(b, id) && !WasInvoked(b, id)
    {
      assert id in b.dropped;
    }
  }

  lemma {:induction false} ReenterReportsNothing(b: Bridge, rs: seq<Reentry>)
    ensures ReenterAll(b, rs).reported == b.reported
    decreases |rs|
  {
    if rs != [] {
      ReenterReportsNothing(Reenter(b, rs[0]), rs[1..]);
    }
  }

  /** The destructor runs no callback and leaves none to run; the router hears of it once, if there is one. */
  lemma DestructionIsFinal(before: seq<Step>, inline: seq<Reentry>, later: seq<Step>)
    requires Run(NEW_BRIDGE, before).alive
    ensures var b := Run(NEW_BRIDGE, before); var t := Run(Destroy(b, inline), later);
            && t.invoked == b.invoked && !t.alive && t.goodbyes == (if b.router then 1 else 0)
            && forall id :: id in t.requested ==> WasInvoked(t, id) || id in t.dropped
  {
    var b := Run(NEW_BRIDGE, before);
    Reached(before);
    DestroyKeeps(b, inline);
    DeadStaysDead(Destroy(b, inline), later);
  }

  lemma {:induction false} DeadStaysDead(b: Bridge, steps: seq<Step>)
    requires !b.alive
    ensures Run(b, steps) == b
    decreases |steps|
  {
    if steps != [] {
      DeadStaysDead(b, steps[1..]);
    }
  }

  function Turns(n: nat): seq<Step> { seq(n, _ => DoTurn) }

  /** The other half of the promise: an answer that is queued in the present generation, for an engine that lives on,
      runs its callback when its turn comes. */
  lemma {:induction false} QueuedAnswersRun(b: Bridge, k: nat)
    requires b.alive && k < |b.queue|
    requires var p := b.queue[k].pending;
             p.generation == b.generation && Runs(b, p.engine) && p.callable
    ensures var t := Run(b, Turns(k + 1));
            t.invoked != [] && t.invoked[|t.invoked| - 1] == Invocation(b.queue[k].id, b.queue[k].envelope)
    decreases k
  {
    hide Turn;
    assert Turns(k + 1)[1..] == Turns(k);
    assert Run(b, Turns(k + 1)) == Run(Turn(b), Turns(k));
    if k > 0 {
      TurnPops(b);
      assert Turn(b).queue[k - 1] == b.queue[k];
      QueuedAnswersRun(Turn(b), k - 1);
    } else {
      assert Run(Turn(b), Turns(0)) == Turn(b);
      HeadRuns(b);
    }
  }

  /** A request made while there is no router is answered in its own turn, and the answer says that nobody provides
      the intent. */
  lemma NoRouterMeansUnavailable(b: Bridge, id: Id, inline: seq<Reentry>)
    requires b.alive && !b.router && id !in b.requested && Runs(b, b.engine)
    ensures var b' := Request(b, id, true, inline);
            && b'.invoked == b.invoked
            && var t := Run(b', Turns(|b.queue| + 1));
               t.invoked != [] && t.invoked[|t.invoked| - 1] == Invocation(id, Unavailable)
  {
    QueuedAnswersRun(Request(b, id, true, inline), |b.queue|);
  }

  // ---- the first answer counts ----

  /** The request is settled: if its callback ever runs, it is with this envelope. */
  ghost predicate Settled(b: Bridge, id: Id, envelope: Envelope) {
    && id in b.requested && id !in b.pending
    && (forall k :: 0 <= k < |b.queue| && b.queue[k].id == id ==> b.queue[k].envelope == envelope)
    && (forall k :: 0 <= k < |b.invoked| && b.invoked[k].id == id ==> b.invoked[k].envelope == envelope)
  }

  lemma SettledReenter(b: Bridge, r: Reentry, id: Id, envelope: Envelope)
    requires Settled(b, id, envelope)
    ensures Settled(Reenter(b, r), id, envelope)
  {
  }

  lemma {:induction false} SettledReenterAll(b: Bridge, rs: seq<Reentry>, id: Id, envelope: Envelope)
    requires Settled(b, id, envelope)
    ensures Settled(ReenterAll(b, rs), id, envelope)
    decreases |rs|
  {
    hide Settled, Reenter;
    if rs != [] {
      SettledReenter(b, rs[0], id, envelope);
      SettledReenterAll(Reenter(b, rs[0]), rs[1..], id, envelope);
    }
  }

  lemma SettledTurn(b: Bridge, id: Id, envelope: Envelope)
    requires Settled(b, id, envelope)
    ensures Settled(Turn(b), id, envelope)
  {
  }

  lemma SettledStep(b: Bridge, s: Step, id: Id, envelope: Envelope)
    requires Settled(b, id, envelope)
    ensures Settled(Apply(b, s), id, envelope)
  {
    hide Turn, Destroy, Abandon;
    match s
    case DoRequest(x, callable, inline) =>
      if b.alive && x !in b.requested {
        SettledReenterAll(Requested(b, x, callable), inline, id, envelope);
      }
    case DoAbandon(inline) => SettledAbandon(b, inline, id, envelope);
    case DoDestroy(inline) => SettledDestroy(b, inline, id, envelope);
    case DoTurn => SettledTurn(b, id, envelope);
    case _ =>
  }

  lemma SettledAbandon(b: Bridge, inline: seq<Reentry>, id: Id, envelope: Envelope)
    requires Settled(b, id, envelope)
    ensures Settled(Abandon(b, inline), id, envelope)
  {
    SettledReenterAll(Told(b), inline, id, envelope);
  }

  lemma SettledDestroy(b: Bridge, inline: seq<Reentry>, id: Id, envelope: Envelope)
    requires Settled(b, id, envelope)
    ensures Settled(Destroy(b, inline), id, envelope)
  {
    SettledReenterAll(Drop(b.(pending := map[]), b.pending.Keys, Destroyed).(router := false), inline, id, envelope);
  }

  lemma {:induction false} SettledRun(b: Bridge, steps: seq<Step>, id: Id, envelope: Envelope)
    requires Settled(b, id, envelope)
    ensures Settled(Run(b, steps), id, envelope)
    decreases |steps|
  {
    hide Settled, Apply;
    if steps != [] {
      SettledStep(b, steps[0], id, envelope);
      SettledRun(Apply(b, steps[0]), steps[1..], id, envelope);
    }
  }

  /** The first answer to a waiting request is the only one its callback can ever be given. */
  lemma FirstAnswerCounts(before: seq<Step>, id: Id, envelope: Envelope, later: seq<Step>)
    requires id in Run(NEW_BRIDGE, before).pending
    ensures var t := Run(Deliver(Run(NEW_BRIDGE, before), id, envelope), later);
            forall k :: 0 <= k < |t.invoked| && t.invoked[k].id == id ==> t.invoked[k].envelope == envelope
  {
    var b := Run(NEW_BRIDGE, before);
    Reached(before);
    assert id in b.requested && forall k :: 0 <= k < |b.invoked| ==> b.invoked[k].id != id;
    SettledRun(Deliver(b, id, envelope), later, id, envelope);
  }

  lemma TurnPops(b: Bridge)
    requires b.queue != []
    ensures var b' := Turn(b);
            b'.queue == b.queue[1..] && b'.generation == b.generation && b'.engines == b.engines && b'.alive == b.alive
  {
    hide TurnFate;
  }

  lemma HeadRuns(b: Bridge)
    requires b.queue != []
    requires var p := b.queue[0].pending;
             p.generation == b.generation && Runs(b, p.engine) && p.callable
    ensures Turn(b).invoked == b.invoked + [Invocation(b.queue[0].id, b.queue[0].envelope)]
  {
  }
}

/** The requester's side of the bridge as an object. What the router does before a call to it returns is passed
    in as a list and carried out where the call stands. */
module IntentBridges {
  import opened Sequences
  import opened IntentModel

  class QmlIntents {
    var router: bool
    var generation: nat
    var engine: Option<Engine>
    var pending: map<Id, Pending>

    // The world outside: which engines live, what this bridge has in the event loop, and the ids
    // the generator has handed out.
    var engines: set<Engine>
    var queue: seq<Queued>
    var requested: set<Id>
    var died: set<Engine>

    ghost var alive: bool
    ghost var stamps: map<Id, Pending>
    ghost var invoked: seq<Invocation>
    ghost var dropped: map<Id, Fate>
    ghost var reported: seq<set<Id>>
    ghost var goodbyes: nat
    ghost var routed: seq<Id>

    ghost function View(): Bridge
      reads this
    {
      Bridge(alive, router, generation, engine, engines, pending, queue, requested, stamps, invoked, dropped, reported,
             goodbyes, died, routed)
    }

    constructor ()
      ensures View() == NEW_BRIDGE
    {
      router, generation, engine, pending := false, 0, None, map[];
      engines, queue := {}, [];
      alive, requested, stamps, invoked, dropped := true, {}, map[], [], map[];
      reported, goodbyes, died, routed := [], 0, {}, [];
    }

    ghost method Drop(ids: set<Id>, fate: Fate)
      modifies this`dropped
      ensures View() == IntentModel.Drop(old(View()), ids, fate)
    {
      dropped := dropped + (map id | id in ids :: fate);
    }

    /** Erase before queueing: firing once is a property of the table. */
    method DeliverIntentResult(id: Id, envelope: Envelope)
      modifies this
      ensures View() == Deliver(old(View()), id, envelope)
    {
      if id !in pending {
        return;
      }
      var entry := pending[id];
      pending := pending - {id};
      if !entry.callable {
        dropped := dropped[id := NotCallable];
        return;
      }
      if entry.engine.None? || entry.engine.value !in engines {
        dropped := dropped[id := EngineGone];
        return;
      }
      queue := queue + [Queued(id, envelope, entry)];
    }

    method FailIntentLocally(id: Id)
      modifies this
      ensures View() == Deliver(old(View()), id, Unavailable)
    {
      DeliverIntentResult(id, Unavailable);
    }

    method RecordRequest(id: Id, callable: bool)
      modifies this
      ensures View() == Record(old(View()), id, callable)
    {
      pending := pending[id := Pending(callable, engine, generation)];
      requested := requested + {id};
      stamps := stamps[id := pending[id]];
    }

    /** What a router does to this bridge while one of its methods is running. */
    method Reentered(actions: seq<Reentry>)
      modifies this
      ensures View() == ReenterAll(old(View()), actions)
      decreases |actions|, 0
    {
      hide Deliver, Record;
      ghost var start := View();
      assert actions[0..] == actions;
      for i := 0 to |actions|
        invariant ReenterAll(View(), actions[i..]) == ReenterAll(start, actions)
      {
        assert actions[i..][0] == actions[i] && actions[i..][1..] == actions[i + 1..];
        ghost var before := View();
        match actions[i] {
          case Answer(id, envelope) => DeliverIntentResult(id, envelope);
          case Ask(id, callable) =>
            if id !in requested {
              Request(id, callable, []);
            }
        }
        assert View() == Reenter(before, actions[i]);
      }
      assert actions[|actions|..] == [];
    }

    method Request(id: Id, callable: bool, inline: seq<Reentry>)
      requires id !in requested
      modifies this
      ensures View() == IntentModel.Request(old(View()), id, callable, inline)
      decreases |inline|, 1
    {
      RecordRequest(id, callable);
      if !router {
        FailIntentLocally(id);
        return;
      }
      RouteIntent(id);
      if inline != [] {
        Reentered(inline);
      }
    }

    /** What the router is handed; the request's name and parameters go with it untouched. */
    ghost method RouteIntent(id: Id)
      modifies this`routed
      ensures View() == Route(old(View()), id)
    {
      routed := routed + [id];
    }

    method AbandonPendingIntents(inline: seq<Reentry>)
      modifies this
      ensures View() == Abandon(old(View()), inline)
    {
      hide ReenterAll, IntentModel.Drop;
      generation := generation + 1;
      if pending == map[] {
        return;
      }
      var ids := ClearTable();
      if router {
        reported := reported + [ids];
        Reentered(inline);
      }
    }

    /** Nothing is left to answer. */
    method ClearTable() returns (ids: set<Id>)
      modifies this`pending, this`dropped
      ensures ids == old(pending.Keys)
      ensures View() == IntentModel.Drop(old(View()).(pending := map[]), ids, Abandoned)
    {
      ids := pending.Keys;
      pending := map[];
      Drop(ids, Abandoned);
    }

    /** The destructor: the router is forgotten before it is told, and the event loop drops what was queued. */
    method Destruct(inline: seq<Reentry>)
      modifies this
      ensures View() == Destroy(old(View()), inline)
    {
      hide ReenterAll, IntentModel.Drop, Ids;
      ghost var had := router;
      ghost var waiting := pending.Keys;
      pending := map[];
      Drop(waiting, Destroyed);
      if router {
        router := false;
        Reentered(inline);
      }
      Shut(old(goodbyes) + if had then 1 else 0);
    }

    /** The event loop drops what a deleted object has queued. */
    method Shut(ghost farewells: nat)
      modifies this`alive, this`queue, this`goodbyes, this`dropped
      ensures View() == IntentModel.Drop(old(View()).(alive := false, queue := [], goodbyes := farewells),
                                         Ids(old(queue)), Destroyed)
    {
      ghost var left := Ids(queue);
      alive, queue, goodbyes := false, [], farewells;
      Drop(left, Destroyed);
    }

    /** The event loop runs the closure at the head of the queue. */
    method Turn()
      modifies this
      ensures View() == IntentModel.Turn(old(View()))
    {
      if queue == [] {
        return;
      }
      var q := queue[0];
      queue := queue[1..];
      if q.pending.generation != generation {
        dropped := dropped[q.id := Stale];
        return;
      }
      if q.pending.engine.None? || q.pending.engine.value !in engines {
        dropped := dropped[q.id := EngineGone];
        return;
      }
      if !q.pending.callable {
        dropped := dropped[q.id := NotCallable];
        return;
      }
      invoked := invoked + [Invocation(q.id, q.envelope)];
    }
  }
}
