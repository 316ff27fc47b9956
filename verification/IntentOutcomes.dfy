/** From the answer to a request to its callback: what gets an answer there, and why one did not. */
module IntentAnswers {
  import opened Sequences
  import opened IntentModel
  import opened IntentLaws

  /** Nothing in the run cuts an answer off: no reload, no destruction, and that engine does not die. */
  predicate Undisturbed(steps: seq<Step>, e: Engine) {
    forall i :: 0 <= i < |steps| ==> !steps[i].DoAbandon? && !steps[i].DoDestroy? && steps[i] != EngineDies(e)
  }

  function TurnsIn(steps: seq<Step>): nat
    decreases |steps|
  {
    if steps == [] then 0 else (if steps[0].DoTurn? then 1 else 0) + TurnsIn(steps[1..])
  }

  lemma {:induction false} ReenterOnlyQueues(b: Bridge, rs: seq<Reentry>)
    ensures var b' := ReenterAll(b, rs);
            b.queue <= b'.queue && b'.generation == b.generation && b'.alive == b.alive && b'.engines == b.engines
    decreases |rs|
  {
    if rs != [] {
      ReenterOnlyQueues(Reenter(b, rs[0]), rs[1..]);
    }
  }

  lemma StepOnlyQueues(b: Bridge, s: Step, e: Engine)
    requires !s.DoTurn? && Undisturbed([s], e)
    ensures var b' := Apply(b, s);
            && b.queue <= b'.queue && b'.generation == b.generation && b'.alive == b.alive
            && (e in b.engines ==> e in b'.engines)
  {
    assert [s][0] == s;
    match s
    case DoRequest(id, callable, inline) =>
      if b.alive && id !in b.requested {
        ReenterOnlyQueues(Requested(b, id, callable), inline);
      }
    case _ =>
  }

  /** A queued answer that nothing cuts off has run its callback after as many turns as it had to wait for. */
  lemma {:induction false} QueuedGetsThrough(b: Bridge, k: nat, steps: seq<Step>)
    requires b.alive && k < |b.queue|
    requires var p := b.queue[k].pending; p.generation == b.generation && p.callable && Runs(b, p.engine)
    requires Undisturbed(steps, b.queue[k].pending.engine.value) && TurnsIn(steps) > k
    ensures Invocation(b.queue[k].id, b.queue[k].envelope) in Run(b, steps).invoked
    decreases |steps|
  {
    hide Turn, Apply;
    var q, s, rest := b.queue[k], steps[0], steps[1..];
    assert steps == [s] + rest;
    assert Undisturbed(rest, q.pending.engine.value) && Undisturbed([s], q.pending.engine.value);
    if !s.DoTurn? {
      StepOnlyQueues(b, s, q.pending.engine.value);
      assert Apply(b, s).queue[k] == q;
      QueuedGetsThrough(Apply(b, s), k, rest);
    } else {
      assert Apply(b, s) == Turn(b) by {
        TurnApplies(b);
      }
      if k > 0 {
        TurnPops(b);
        assert Turn(b).queue[k - 1] == q;
        QueuedGetsThrough(Turn(b), k - 1, rest);
      } else {
        HeadRuns(b);
        InvokedStays(Turn(b), rest);
        assert Turn(b).invoked[|b.invoked|] == Invocation(q.id, q.envelope);
      }
    }
  }

  lemma TurnApplies(b: Bridge)
    requires b.alive
    ensures Apply(b, DoTurn) == Turn(b)
  {
  }

  lemma InvokedStays(b: Bridge, steps: seq<Step>)
    ensures b.invoked <= Run(b, steps).invoked
  {
    assert Forsaken(b, {});
    ForsakenRun(b, steps, {});
  }

  /** From the answer to the callback: a waiting request whose callback can be called, answered while its engine lives, has
      its callback run with that answer once the event loop has turned as often as its queue was long and once more, whatever
      else happens, unless there is a reload, a destruction, or that engine dies first. */
  lemma AnswersGetThrough(before: seq<Step>, id: Id, envelope: Envelope, later: seq<Step>)
    requires var b := Run(NEW_BRIDGE, before);
             b.alive && id in b.pending && b.pending[id].callable && Runs(b, b.pending[id].engine)
    requires var b := Run(NEW_BRIDGE, before);
             Undisturbed(later, b.pending[id].engine.value) && TurnsIn(later) > |b.queue|
    ensures Invocation(id, envelope) in Run(Deliver(Run(NEW_BRIDGE, before), id, envelope), later).invoked
  {
    var b := Run(NEW_BRIDGE, before);
    Reached(before);
    var b' := Deliver(b, id, envelope);
    assert b'.queue[|b.queue|] == Queued(id, envelope, b.pending[id]);
    QueuedGetsThrough(b', |b.queue|, later);
  }
}

/** Every request is carried as it was recorded, and every callback that will not run has a reason. */
module IntentFates {
  import opened Sequences
  import opened IntentModel
  import opened IntentLaws

  predicate Fits(fate: Fate, stamp: Pending, generation: nat, died: set<Engine>) {
    match fate
    case NotCallable => !stamp.callable
    case EngineGone => stamp.engine.None? || stamp.engine.value in died
    case Abandoned => stamp.generation < generation
    case Stale => stamp.generation < generation
    case Destroyed => true
  }

  /** Every request is carried as it was recorded, and every fate has its cause. */
  ghost predicate Caused(b: Bridge) {
    && b.stamps.Keys == b.requested
    && (forall id :: id in b.pending ==> id in b.stamps && b.pending[id] == b.stamps[id])
    && (forall k :: 0 <= k < |b.queue| ==> b.queue[k].id in b.stamps && b.queue[k].pending == b.stamps[b.queue[k].id])
    && (forall id :: id in b.dropped ==> id in b.stamps && Fits(b.dropped[id], b.stamps[id], b.generation, b.died))
    && (forall k :: 0 <= k < |b.invoked| ==> b.invoked[k].id in b.stamps && b.stamps[b.invoked[k].id].callable)
    && (forall id :: id in b.stamps ==>
          Known(b.engines, b.died, b.stamps[id].engine) && b.stamps[id].generation <= b.generation)
    && Known(b.engines, b.died, b.engine)
  }

  predicate Known(engines: set<Engine>, died: set<Engine>, engine: Option<Engine>) {
    engine.Some? ==> engine.value in engines || engine.value in died
  }

  lemma RecordCaused(b: Bridge, id: Id, callable: bool)
    requires Caused(b) && id !in b.requested
    ensures Caused(Record(b, id, callable))
  {
    hide Fits;
  }

  lemma DeliverCaused(b: Bridge, id: Id, envelope: Envelope)
    requires Caused(b)
    ensures Caused(Deliver(b, id, envelope))
  {
    if id in b.pending {
      var p, b' := b.pending[id], b.(pending := b.pending - {id});
      TakenCaused(b, id);
      StampIsPast(b, id);
      hide Caused;
      var fate := AnswerFate(b, p);
      if fate.Some? {
        DropOneCaused(b', id, fate.value);
      } else {
        QueueCaused(b', Queued(id, envelope, p));
      }
    }
  }

  lemma TakenCaused(b: Bridge, id: Id)
    requires Caused(b) && id in b.pending
    ensures Caused(b.(pending := b.pending - {id})) && id in b.stamps && b.stamps[id] == b.pending[id]
  {
    hide Fits, Known;
  }

  lemma PoppedCaused(b: Bridge)
    requires Caused(b) && b.queue != []
    ensures Caused(b.(queue := b.queue[1..]))
    ensures b.queue[0].id in b.stamps && b.stamps[b.queue[0].id] == b.queue[0].pending
  {
    hide Fits, Known;
  }

  lemma StampIsPast(b: Bridge, id: Id)
    requires Caused(b) && id in b.stamps
    ensures b.stamps[id].generation <= b.generation
    ensures !Runs(b, b.stamps[id].engine) ==> b.stamps[id].engine.None? || b.stamps[id].engine.value in b.died
  {
    hide Fits;
  }

  lemma DropOneCaused(b: Bridge, id: Id, fate: Fate)
    requires Caused(b) && id in b.stamps && Fits(fate, b.stamps[id], b.generation, b.died)
    ensures Caused(DropOne(b, id, fate))
  {
    hide Fits, Known;
  }

  lemma QueueCaused(b: Bridge, q: Queued)
    requires Caused(b) && q.id in b.stamps && q.pending == b.stamps[q.id]
    ensures Caused(b.(queue := b.queue + [q]))
  {
    hide Fits, Known;
  }

  lemma InvokeCaused(b: Bridge, i: Invocation)
    requires Caused(b) && i.id in b.stamps && b.stamps[i.id].callable
    ensures Caused(b.(invoked := b.invoked + [i]))
  {
    hide Fits, Known;
  }

  lemma TurnCaused(b: Bridge)
    requires Caused(b)
    ensures Caused(Turn(b))
  {
    if b.queue != [] {
      var q, b' := b.queue[0], b.(queue := b.queue[1..]);
      PoppedCaused(b);
      StampIsPast(b, q.id);
      hide Caused;
      var fate := TurnFate(b, q.pending);
      if fate.Some? {
        DropOneCaused(b', q.id, fate.value);
      } else {
        InvokeCaused(b', Invocation(q.id, q.envelope));
      }
    }
  }

  lemma DropCaused(b: Bridge, ids: set<Id>, fate: Fate)
    requires Caused(b) && forall id :: id in ids ==> id in b.stamps && Fits(fate, b.stamps[id], b.generation, b.died)
    ensures Caused(Drop(b, ids, fate))
  {
    hide Fits;
  }

  lemma AgeCaused(b: Bridge)
    requires Caused(b)
    ensures Caused(b.(generation := b.generation + 1))
  {
  }

  lemma ReenterCaused(b: Bridge, r: Reentry)
    requires Caused(b)
    ensures Caused(Reenter(b, r))
  {
    hide Caused, Deliver;
    match r
    case Answer(id, envelope) => DeliverCaused(b, id, envelope);
    case Ask(id, callable) =>
      if id !in b.requested {
        RequestedCaused(b, id, callable);
      }
  }

  lemma RequestedCaused(b: Bridge, id: Id, callable: bool)
    requires Caused(b) && id !in b.requested
    ensures Caused(Requested(b, id, callable))
  {
    hide Caused, Deliver;
    var b' := Record(b, id, callable);
    RecordCaused(b, id, callable);
    SameCauses(b', Route(b', id));
    DeliverCaused(b', id, Unavailable);
  }

  lemma {:induction false} ReenterAllCaused(b: Bridge, rs: seq<Reentry>)
    requires Caused(b)
    ensures Caused(ReenterAll(b, rs))
    decreases |rs|
  {
    hide Caused, Reenter;
    if rs != [] {
      ReenterCaused(b, rs[0]);
      ReenterAllCaused(Reenter(b, rs[0]), rs[1..]);
    }
  }

  lemma RequestCaused(b: Bridge, id: Id, callable: bool, inline: seq<Reentry>)
    requires Caused(b) && id !in b.requested
    ensures Caused(Request(b, id, callable, inline))
  {
    hide Caused, Requested;
    RequestedCaused(b, id, callable);
    ReenterAllCaused(Requested(b, id, callable), inline);
  }

  /** What a report or a flag says changes no cause. */
  lemma SameCauses(b: Bridge, b': Bridge)
    requires Caused(b)
    requires b' == b.(alive := b'.alive, router := b'.router, pending := b'.pending, queue := b'.queue,
                      reported := b'.reported, goodbyes := b'.goodbyes, routed := b'.routed)
    requires (b'.pending == b.pending || b'.pending == map[]) && (b'.queue == b.queue || b'.queue == [])
    ensures Caused(b')
  {
    hide Fits;
  }

  lemma ClearedCaused(b: Bridge)
    requires Caused(b)
    ensures Caused(Cleared(b))
  {
    hide Caused, Drop, Fits;
    var aged := b.(generation := b.generation + 1);
    AgeCaused(b);
    EmptyCaused(aged);
    AbandonedFits(b);
    DropCaused(aged.(pending := map[]), b.pending.Keys, Abandoned);
  }

  lemma EmptyCaused(b: Bridge)
    requires Caused(b)
    ensures Caused(b.(pending := map[]))
  {
    hide Caused;
    SameCauses(b, b.(pending := map[]));
  }

  lemma AbandonedFits(b: Bridge)
    requires Caused(b)
    ensures forall id :: id in b.pending ==>
      id in b.stamps && Fits(Abandoned, b.stamps[id], b.generation + 1, b.died)
  {
    PendingIsPast(b);
    hide Caused;
  }

  lemma PendingIsPast(b: Bridge)
    requires Caused(b)
    ensures forall id :: id in b.pending ==> id in b.stamps && b.stamps[id].generation <= b.generation
  {
    hide Fits, Known;
  }

  lemma AbandonCaused(b: Bridge, inline: seq<Reentry>)
    requires Caused(b)
    ensures Caused(Abandon(b, inline))
  {
    hide Caused, Cleared;
    AgeCaused(b);
    ClearedCaused(b);
    SameCauses(Cleared(b), Told(b));
    ReenterAllCaused(Told(b), inline);
  }

  lemma DestroyCaused(b: Bridge, inline: seq<Reentry>)
    requires Caused(b)
    ensures Caused(Destroy(b, inline))
  {
    PendingIsPast(b);
    hide Caused, Drop, ReenterAll;
    var emptied := b.(pending := map[]);
    SameCauses(b, emptied);
    DropCaused(emptied, b.pending.Keys, Destroyed);
    var b1 := Drop(emptied, b.pending.Keys, Destroyed);
    SameCauses(b1, b1.(router := false));
    ReenterAllCaused(b1.(router := false), inline);
    var b2 := if b.router then ReenterAll(b1.(router := false), inline) else b1;
    ShutCaused(b2, b.goodbyes + if b.router then 1 else 0);
  }

  lemma ShutCaused(b: Bridge, goodbyes: nat)
    requires Caused(b)
    ensures Caused(Drop(b.(alive := false, queue := [], goodbyes := goodbyes), Ids(b.queue), Destroyed))
  {
    var shut := b.(alive := false, queue := [], goodbyes := goodbyes);
    SameCauses(b, shut);
    forall id | id in Ids(b.queue) ensures id in b.stamps {
      var k :| 0 <= k < |b.queue| && b.queue[k].id == id;
    }
    DropCaused(shut, Ids(b.queue), Destroyed);
  }

  lemma EnginesCaused(b: Bridge, s: Step)
    requires Caused(b) && (s.EngineDies? || s.Bind?)
    ensures Caused(Apply(b, s))
  {
  }

  lemma StepCaused(b: Bridge, s: Step)
    requires Caused(b)
    ensures Caused(Apply(b, s))
  {
    if s.EngineDies? || s.Bind? {
      EnginesCaused(b, s);
    } else {
      hide Caused, Request, Deliver, Abandon, Destroy, Turn;
      match s
      case DoRequest(id, callable, inline) =>
        if id !in b.requested {
          RequestCaused(b, id, callable, inline);
        }
      case DoDeliver(id, envelope) => DeliverCaused(b, id, envelope);
      case DoAbandon(inline) => AbandonCaused(b, inline);
      case DoDestroy(inline) => DestroyCaused(b, inline);
      case DoTurn => TurnCaused(b);
      case SetRouter(present) => SameCauses(b, b.(router := present));
      case _ =>
    }
  }

  lemma {:induction false} RunCaused(b: Bridge, steps: seq<Step>)
    requires Caused(b)
    ensures Caused(Run(b, steps))
    decreases |steps|
  {
    hide Caused, Apply;
    if steps != [] {
      StepCaused(b, steps[0]);
      RunCaused(Apply(b, steps[0]), steps[1..]);
    }
  }

  ghost predicate NotDestroyed(b: Bridge) { forall id :: id in b.dropped ==> b.dropped[id] != Destroyed }

  lemma {:induction false} ReenterDestroysNothing(b: Bridge, rs: seq<Reentry>)
    requires NotDestroyed(b)
    ensures NotDestroyed(ReenterAll(b, rs)) && ReenterAll(b, rs).alive == b.alive
    decreases |rs|
  {
    if rs != [] {
      ReenterDestroysNothing(Reenter(b, rs[0]), rs[1..]);
    }
  }

  lemma OnlyDestroyDestroys(b: Bridge, s: Step)
    requires b.alive ==> NotDestroyed(b)
    ensures Apply(b, s).alive ==> NotDestroyed(Apply(b, s))
  {
    match s
    case DoRequest(id, callable, inline) =>
      if b.alive && id !in b.requested {
        ReenterDestroysNothing(Requested(b, id, callable), inline);
      }
    case DoAbandon(inline) =>
      if b.alive {
        ReenterDestroysNothing(Told(b), inline);
      }
    case _ =>
  }

  lemma {:induction false} LivingDestroysNothing(b: Bridge, steps: seq<Step>)
    requires b.alive ==> NotDestroyed(b)
    ensures Run(b, steps).alive ==> NotDestroyed(Run(b, steps))
    decreases |steps|
  {
    hide NotDestroyed, Apply;
    if steps != [] {
      OnlyDestroyDestroys(b, steps[0]);
      LivingDestroysNothing(Apply(b, steps[0]), steps[1..]);
    }
  }

  /** A callback that will never run has a reason: there was none to call, its engine was missing or has died, a reload came
      after the request, or the bridge is gone. One that ran could be called. */
  lemma FateLaw(steps: seq<Step>, id: Id)
    ensures var b := Run(NEW_BRIDGE, steps);
            && (id in b.requested <==> id in b.stamps)
            && (WasInvoked(b, id) ==> id in b.stamps && b.stamps[id].callable)
            && (id in b.dropped ==>
                  && id in b.stamps && Fits(b.dropped[id], b.stamps[id], b.generation, b.died)
                  && (b.dropped[id] == Destroyed ==> !b.alive))
  {
    RunCaused(NEW_BRIDGE, steps);
    LivingDestroysNothing(NEW_BRIDGE, steps);
    hide Run, Fits;
  }
}

/** What becomes of a request once it is made: it waits until it is answered, and every envelope has a giver. */
module IntentRouting {
  import opened Sequences
  import opened IntentModel
  import opened IntentLaws
  import opened IntentFates

  predicate Answers(inline: seq<Reentry>, id: Id) {
    exists i :: 0 <= i < |inline| && inline[i].Answer? && inline[i].id == id
  }

  /** The step gives this request no answer and does not end its wait. */
  predicate LeavesWaiting(s: Step, id: Id) {
    match s
    case DoRequest(_, _, inline) => !Answers(inline, id)
    case DoDeliver(x, _) => x != id
    case DoAbandon(_) => false
    case DoDestroy(_) => false
    case _ => true
  }

  predicate Waits(b: Bridge, id: Id, stamp: Pending) { id in b.pending && b.pending[id] == stamp && id in b.requested }

  lemma {:induction false} ReenterWaits(b: Bridge, rs: seq<Reentry>, id: Id, stamp: Pending)
    requires Waits(b, id, stamp) && !Answers(rs, id)
    ensures Waits(ReenterAll(b, rs), id, stamp)
    decreases |rs|
  {
    if rs != [] {
      var b', rest := Reenter(b, rs[0]), rs[1..];
      assert Waits(b', id, stamp);
      assert !Answers(rest, id) by {
        assert forall i :: 0 <= i < |rest| ==> rest[i] == rs[i + 1];
      }
      hide Waits, Answers, Reenter;
      ReenterWaits(b', rest, id, stamp);
    }
  }

  lemma StepWaits(b: Bridge, s: Step, id: Id, stamp: Pending)
    requires Waits(b, id, stamp) && LeavesWaiting(s, id)
    ensures Waits(Apply(b, s), id, stamp)
  {
    match s
    case DoRequest(x, callable, inline) =>
      if b.alive && x !in b.requested {
        assert Waits(Requested(b, x, callable), id, stamp);
        hide Waits, Answers, Requested;
        ReenterWaits(Requested(b, x, callable), inline, id, stamp);
      }
    case _ =>
  }

  lemma {:induction false} RunWaits(b: Bridge, steps: seq<Step>, id: Id, stamp: Pending)
    requires Waits(b, id, stamp) && forall i :: 0 <= i < |steps| ==> LeavesWaiting(steps[i], id)
    ensures Waits(Run(b, steps), id, stamp)
    decreases |steps|
  {
    hide Waits, LeavesWaiting, Apply;
    if steps != [] {
      StepWaits(b, steps[0], id, stamp);
      RunWaits(Apply(b, steps[0]), steps[1..], id, stamp);
    }
  }

  /** With a router a request is not failed but waits, as it was made, until somebody answers it: not the router before it
      returns, and no later step up to a reload or the end of the bridge. */
  lemma RequestWaits(b: Bridge, id: Id, callable: bool, inline: seq<Reentry>, later: seq<Step>)
    requires b.router && id !in b.requested && !Answers(inline, id)
    requires forall i :: 0 <= i < |later| ==> LeavesWaiting(later[i], id)
    ensures var asked, t := Request(b, id, callable, inline), Run(Request(b, id, callable, inline), later);
            && id in asked.pending && asked.invoked == b.invoked
            && id in t.pending && t.pending[id] == Pending(callable, b.engine, b.generation)
  {
    var stamp, b' := Pending(callable, b.engine, b.generation), Requested(b, id, callable);
    assert Waits(b', id, stamp) && b'.invoked == b.invoked;
    hide Requested, Apply, Answers, LeavesWaiting;
    ReenterWaits(b', inline, id, stamp);
    ReenterQuietly(b', inline);
    RunWaits(ReenterAll(b', inline), later, id, stamp);
  }

  // ---- the router is told, once, of exactly the requests made while there was one ----

  /** Whether the router was given a request is settled when the request is made. */
  ghost predicate SameRouting(b: Bridge, b': Bridge) {
    && b.requested <= b'.requested
    && (forall id :: id in b.requested ==> (id in b'.routed <==> id in b.routed))
  }

  lemma {:induction false} ReenterRouting(b: Bridge, rs: seq<Reentry>)
    ensures SameRouting(b, ReenterAll(b, rs))
    decreases |rs|
  {
    if rs != [] {
      assert SameRouting(b, Reenter(b, rs[0]));
      hide Reenter;
      ReenterRouting(Reenter(b, rs[0]), rs[1..]);
    }
  }

  lemma StepRouting(b: Bridge, s: Step)
    ensures SameRouting(b, Apply(b, s))
  {
    match s
    case DoRequest(id, callable, inline) =>
      if b.alive && id !in b.requested {
        assert SameRouting(b, Requested(b, id, callable));
        hide Requested;
        ReenterRouting(Requested(b, id, callable), inline);
      }
    case DoAbandon(inline) =>
      ReenterRouting(Told(b), inline);
    case DoDestroy(inline) =>
      ReenterRouting(Drop(b.(pending := map[]), b.pending.Keys, Destroyed).(router := false), inline);
    case _ =>
  }

  lemma {:induction false} RunRouting(b: Bridge, steps: seq<Step>)
    ensures SameRouting(b, Run(b, steps))
    decreases |steps|
  {
    hide Apply;
    if steps != [] {
      StepRouting(b, steps[0]);
      RunRouting(Apply(b, steps[0]), steps[1..]);
    }
  }

  // ---- where an envelope comes from ----

  /** The step hands this answer to the bridge, from outside or from inside a call to the router. */
  predicate Gives(s: Step, id: Id, envelope: Envelope) {
    match s
    case DoRequest(_, _, inline) => Answer(id, envelope) in inline
    case DoDeliver(x, e) => x == id && e == envelope
    case DoAbandon(inline) => Answer(id, envelope) in inline
    case DoDestroy(inline) => Answer(id, envelope) in inline
    case _ => false
  }

  ghost predicate Given(steps: seq<Step>, id: Id, envelope: Envelope) {
    exists i :: 0 <= i < |steps| && Gives(steps[i], id, envelope)
  }

  /** An envelope for a request the router was given is one that was given for it; any other says that nobody provides. */
  ghost predicate Fair(routed: seq<Id>, steps: seq<Step>, id: Id, envelope: Envelope) {
    if id in routed then Given(steps, id, envelope) else envelope == Unavailable
  }

  ghost predicate Sourced(b: Bridge, steps: seq<Step>) {
    && (forall i, j :: 0 <= i < j < |b.routed| ==> b.routed[i] != b.routed[j])
    && (forall i :: 0 <= i < |b.routed| ==> b.routed[i] in b.requested)
    && (forall id :: id in b.pending ==> id in b.routed)
    && (forall k :: 0 <= k < |b.queue| ==>
          b.queue[k].id in b.requested && Fair(b.routed, steps, b.queue[k].id, b.queue[k].envelope))
    && (forall k :: 0 <= k < |b.invoked| ==>
          b.invoked[k].id in b.requested && Fair(b.routed, steps, b.invoked[k].id, b.invoked[k].envelope))
  }

  lemma DeliverSourced(b: Bridge, id: Id, envelope: Envelope, steps: seq<Step>)
    requires Sourced(b, steps) && Given(steps, id, envelope)
    ensures Sourced(Deliver(b, id, envelope), steps)
  {
    hide Given;
  }

  /** A request with a router. */
  lemma RoutedSourced(b: Bridge, id: Id, callable: bool, steps: seq<Step>)
    requires Sourced(b, steps) && id !in b.requested && b.router
    ensures Sourced(Requested(b, id, callable), steps)
  {
    hide Given;
    var b' := Requested(b, id, callable);
    assert b'.routed == b.routed + [id];
    assert forall x :: x in b.requested ==> (x in b'.routed <==> x in b.routed);
  }

  /** A request without one. */
  lemma FailedSourced(b: Bridge, id: Id, callable: bool, steps: seq<Step>)
    requires Sourced(b, steps) && id !in b.requested && !b.router
    ensures Sourced(Requested(b, id, callable), steps)
  {
    hide Given;
  }

  lemma RequestedSourced(b: Bridge, id: Id, callable: bool, steps: seq<Step>)
    requires Sourced(b, steps) && id !in b.requested
    ensures Sourced(Requested(b, id, callable), steps)
  {
    hide Sourced, Requested;
    if b.router {
      RoutedSourced(b, id, callable, steps);
    } else {
      FailedSourced(b, id, callable, steps);
    }
  }

  lemma {:induction false} ReenterAllSourced(b: Bridge, rs: seq<Reentry>, steps: seq<Step>)
    requires Sourced(b, steps) && forall id, e :: Answer(id, e) in rs ==> Given(steps, id, e)
    ensures Sourced(ReenterAll(b, rs), steps)
    decreases |rs|
  {
    hide Sourced, Given, Deliver, Requested;
    if rs != [] {
      match rs[0] {
        case Answer(id, e) =>
          assert rs[0] in rs;
          DeliverSourced(b, id, e, steps);
        case Ask(id, callable) =>
          if id !in b.requested {
            RequestedSourced(b, id, callable, steps);
          }
      }
      assert forall r :: r in rs[1..] ==> r in rs;
      ReenterAllSourced(Reenter(b, rs[0]), rs[1..], steps);
    }
  }

  /** Forgetting what waits or is queued, or setting a flag, changes no source. */
  lemma FewerSourced(b: Bridge, b': Bridge, steps: seq<Step>)
    requires Sourced(b, steps)
    requires b'.routed == b.routed && b'.requested == b.requested && b'.invoked == b.invoked
    requires b'.pending.Keys <= b.pending.Keys && (b'.queue == b.queue || b'.queue == [])
    ensures Sourced(b', steps)
  {
    hide Fair;
  }

  lemma TurnSourced(b: Bridge, steps: seq<Step>)
    requires Sourced(b, steps)
    ensures Sourced(Turn(b), steps)
  {
    hide Fair, TurnFate;
  }

  lemma InlineGiven(steps: seq<Step>, s: Step, inline: seq<Reentry>)
    requires s in steps
    requires s == DoAbandon(inline) || s == DoDestroy(inline) || (s.DoRequest? && s.inline == inline)
    ensures forall id, e :: Answer(id, e) in inline ==> Given(steps, id, e)
  {
    var i :| 0 <= i < |steps| && steps[i] == s;
    forall id, e | Answer(id, e) in inline ensures Given(steps, id, e) {
      assert Gives(steps[i], id, e);
    }
  }

  lemma DirectlyGiven(steps: seq<Step>, id: Id, envelope: Envelope)
    requires DoDeliver(id, envelope) in steps
    ensures Given(steps, id, envelope)
  {
    var i :| 0 <= i < |steps| && steps[i] == DoDeliver(id, envelope);
    assert Gives(steps[i], id, envelope);
  }

  lemma StepSourced(b: Bridge, s: Step, steps: seq<Step>)
    requires Sourced(b, steps) && s in steps
    ensures Sourced(Apply(b, s), steps)
  {
    hide Sourced, Given, Deliver, Requested, Turn, Abandon, Destroy;
    match s
    case DoRequest(id, callable, inline) =>
      if b.alive && id !in b.requested {
        RequestedSourced(b, id, callable, steps);
        InlineGiven(steps, s, inline);
        ReenterAllSourced(Requested(b, id, callable), inline, steps);
      }
    case DoDeliver(id, e) =>
      DirectlyGiven(steps, id, e);
      DeliverSourced(b, id, e, steps);
    case DoAbandon(inline) =>
      InlineGiven(steps, s, inline);
      AbandonSourced(b, inline, steps);
    case DoDestroy(inline) =>
      InlineGiven(steps, s, inline);
      DestroySourced(b, inline, steps);
    case DoTurn => TurnSourced(b, steps);
    case _ => FewerSourced(b, Apply(b, s), steps);
  }

  lemma AbandonSourced(b: Bridge, inline: seq<Reentry>, steps: seq<Step>)
    requires Sourced(b, steps) && forall id, e :: Answer(id, e) in inline ==> Given(steps, id, e)
    ensures Sourced(Abandon(b, inline), steps)
  {
    hide Sourced, Given, ReenterAll;
    FewerSourced(b, b.(generation := b.generation + 1), steps);
    FewerSourced(b, Cleared(b), steps);
    FewerSourced(b, Told(b), steps);
    ReenterAllSourced(Told(b), inline, steps);
  }

  lemma DestroySourced(b: Bridge, inline: seq<Reentry>, steps: seq<Step>)
    requires Sourced(b, steps) && forall id, e :: Answer(id, e) in inline ==> Given(steps, id, e)
    ensures Sourced(Destroy(b, inline), steps)
  {
    hide Sourced, Given, ReenterAll, Ids;
    var b1 := Drop(b.(pending := map[]), b.pending.Keys, Destroyed);
    FewerSourced(b, b1, steps);
    FewerSourced(b, b1.(router := false), steps);
    ReenterAllSourced(b1.(router := false), inline, steps);
    FewerSourced(if b.router then ReenterAll(b1.(router := false), inline) else b1, Destroy(b, inline), steps);
  }

  lemma {:induction false} RunSourced(b: Bridge, rest: seq<Step>, steps: seq<Step>)
    requires Sourced(b, steps) && forall s :: s in rest ==> s in steps
    ensures Sourced(Run(b, rest), steps)
    decreases |rest|
  {
    hide Sourced, Apply;
    if rest != [] {
      assert rest[0] in rest && forall s :: s in rest[1..] ==> s in rest;
      StepSourced(b, rest[0], steps);
      RunSourced(Apply(b, rest[0]), rest[1..], steps);
    }
  }

  /** No envelope comes from nowhere: a callback is given an answer that was handed in for its request, unless there was no
      router when the request was made; then, and only then, the envelope is the bridge's own. The router is given a request
      when there is one, never twice, and what waits is what it was given. */
  lemma EveryAnswerHasAGiver(steps: seq<Step>)
    ensures var b := Run(NEW_BRIDGE, steps);
            && (forall k :: 0 <= k < |b.invoked| ==>
                  if b.invoked[k].id in b.routed then Given(steps, b.invoked[k].id, b.invoked[k].envelope)
                  else b.invoked[k].envelope == Unavailable)
            && (forall i, j :: 0 <= i < j < |b.routed| ==> b.routed[i] != b.routed[j])
            && (forall id :: id in b.pending ==> id in b.routed)
            && (forall i :: 0 <= i < |b.routed| ==> b.routed[i] in b.requested)
  {
    RunSourced(NEW_BRIDGE, steps, steps);
    hide Run, Given;
  }

  /** The router is given exactly the requests made while there was one. */
  lemma RouterIsTold(before: seq<Step>, id: Id, callable: bool, inline: seq<Reentry>, later: seq<Step>)
    requires var b := Run(NEW_BRIDGE, before); b.alive && id !in b.requested
    ensures var b := Run(NEW_BRIDGE, before);
            id in Run(Request(b, id, callable, inline), later).routed <==> b.router
  {
    var b := Run(NEW_BRIDGE, before);
    RunSourced(NEW_BRIDGE, before, before);
    var asked := Requested(b, id, callable);
    assert id in asked.requested && (id in asked.routed <==> b.router);
    hide Run, Sourced, Requested;
    ReenterRouting(asked, inline);
    RunRouting(Request(b, id, callable, inline), later);
  }

  // ---- the dead hear nothing ----

  /** Every callback run from the n-th on belongs to an engine that is not among these. */
  ghost predicate NotFor(b: Bridge, n: nat, gone: set<Engine>) {
    && gone <= b.died && n <= |b.invoked| && b.engines !! b.died
    && (forall k :: n <= k < |b.invoked| ==> OfLiving(b, b.invoked[k].id, gone))
  }

  predicate OfLiving(b: Bridge, id: Id, gone: set<Engine>) {
    id in b.stamps && b.stamps[id].engine.Some? && b.stamps[id].engine.value !in gone
  }

  /** A stamp, once written, stays. */
  ghost predicate SameStamps(b: Bridge, b': Bridge) {
    && b.requested <= b'.requested && b'.engines == b.engines && b'.died == b.died
    && (forall id :: id in b.stamps ==> (id in b.requested ==> id in b'.stamps && b'.stamps[id] == b.stamps[id]))
  }

  lemma {:induction false} ReenterStamps(b: Bridge, rs: seq<Reentry>)
    ensures SameStamps(b, ReenterAll(b, rs))
    decreases |rs|
  {
    if rs != [] {
      assert SameStamps(b, Reenter(b, rs[0]));
      hide Reenter;
      ReenterStamps(Reenter(b, rs[0]), rs[1..]);
    }
  }

  lemma QuietStamps(b: Bridge, s: Step)
    requires !s.EngineDies? && !s.Bind?
    ensures SameStamps(b, Apply(b, s))
  {
    match s
    case DoRequest(id, callable, inline) =>
      if b.alive && id !in b.requested {
        assert SameStamps(b, Requested(b, id, callable));
        hide Requested;
        ReenterStamps(Requested(b, id, callable), inline);
      }
    case DoAbandon(inline) =>
      ReenterStamps(Told(b), inline);
    case DoDestroy(inline) =>
      ReenterStamps(Drop(b.(pending := map[]), b.pending.Keys, Destroyed).(router := false), inline);
    case _ =>
  }

  lemma TurnNotFor(b: Bridge, n: nat, gone: set<Engine>)
    requires Caused(b) && NotFor(b, n, gone)
    ensures NotFor(Turn(b), n, gone)
  {
    hide Fits;
  }

  lemma StepNotFor(b: Bridge, s: Step, n: nat, gone: set<Engine>)
    requires Caused(b) && NotFor(b, n, gone)
    ensures NotFor(Apply(b, s), n, gone)
  {
    hide Fits;
    if s.EngineDies? || s.Bind? {
    } else if s.DoTurn? {
      hide Turn, Caused, NotFor;
      TurnNotFor(b, n, gone);
    } else {
      QuietStep(b, s);
      QuietStamps(b, s);
      hide Apply;
    }
  }

  lemma {:induction false} RunNotFor(b: Bridge, steps: seq<Step>, n: nat, gone: set<Engine>)
    requires Caused(b) && NotFor(b, n, gone)
    ensures NotFor(Run(b, steps), n, gone)
    decreases |steps|
  {
    hide Caused, NotFor, Apply;
    if steps != [] {
      StepCaused(b, steps[0]);
      StepNotFor(b, steps[0], n, gone);
      RunNotFor(Apply(b, steps[0]), steps[1..], n, gone);
    }
  }

  /** Once an engine has died no callback of a request it made is run, not even one already queued. */
  lemma TheDeadHearNothing(before: seq<Step>, later: seq<Step>)
    ensures var b, t := Run(NEW_BRIDGE, before), Run(Run(NEW_BRIDGE, before), later);
            forall k :: |b.invoked| <= k < |t.invoked| ==>
              var id := t.invoked[k].id; id in t.stamps && t.stamps[id].engine.Some? && t.stamps[id].engine.value !in b.died
  {
    var b := Run(NEW_BRIDGE, before);
    RunCaused(NEW_BRIDGE, before);
    RunNotFor(NEW_BRIDGE, before, 0, {});
    RunNotFor(b, later, |b.invoked|, b.died);
  }
}
