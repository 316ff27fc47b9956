/** A backend call from the Web container (src/LogosWebBridge.cpp, src/LogosWebCallRouter.cpp):
    the bridge that holds, sends and answers calls. Request ids are the numbers the bridge counts up from 1; 0 stands for
    the empty id, which no bridge issues. */
module WebBridgeModel {
  import opened Sequences

  type Id = nat

  datatype Request = Request(target: string, slot: string, args: string)

  /** The error payloads built on this side of the host, and whatever the host answers. */
  datatype Reason = TimedOut | NoBackend | NoBackendRouter
  datatype Payload = ErrorPayload(reason: Reason, target: string, slot: string) | Answer(text: string)

  datatype Call = Call(id: Id, request: Request)
  datatype Outcome = Outcome(id: Id, payload: Payload)
  datatype PendingCall = PendingCall(request: Request, callable: bool, dispatched: bool)

  /** The bridge. `issued`, `sent`, `resolved` and `called` are history: the requests by id (the
      first has id 1), the calls handed to the router's replica, the payload each finished id was finished with, the
      callbacks invoked, in order, and the ids that came with a callback that can be called. */
  datatype Bridge = Bridge(
    node: bool, acquired: bool, initialised: bool, connected: bool,
    pending: map<Id, PendingCall>, timers: set<Id>,
    issued: seq<Request>, sent: seq<Call>, resolved: map<Id, Payload>, called: seq<Outcome>, wanted: set<Id>)

  const NEW_BRIDGE := Bridge(true, false, false, false, map[], {}, [], [], map[], [], {})

  /** What the node does when the router's replica is asked for: it may fail to give one, the
      replica may know its source at once, and its signal may or may not connect. `order` is the order
      in which the pending table happens to list its keys. */
  datatype Replica = Replica(given: bool, known: bool, connects: bool, order: seq<Id>)

  ghost predicate Lists(order: seq<Id>, ids: set<Id>) {
    && (forall i, j :: 0 <= i < j < |order| ==> order[i] != order[j])
    && (forall id :: id in order <==> id in ids)
  }

  // ---- the bridge's operations ----

  /** Erases first; an id that is no longer pending is ignored. */
  function Deliver(b: Bridge, id: Id, payload: Payload): Bridge {
    if id !in b.pending then b
    else
      b.(pending := b.pending - {id}, resolved := b.resolved[id := payload],
         called := if b.pending[id].callable then b.called + [Outcome(id, payload)] else b.called)
  }

  function Dispatch(b: Bridge, id: Id): Bridge
    requires id in b.pending
  {
    var p := b.pending[id];
    b.(pending := b.pending[id := p.(dispatched := true)], sent := b.sent + [Call(id, p.request)])
  }

  function DrainOne(b: Bridge, id: Id): Bridge {
    if id !in b.pending || b.pending[id].dispatched then b else Dispatch(b, id)
  }

  function DrainAll(b: Bridge, order: seq<Id>): Bridge
    decreases |order|
  {
    if order == [] then b else DrainAll(DrainOne(b, order[0]), order[1..])
  }

  function OnRouterInitialised(b: Bridge, r: Replica): Bridge {
    if !b.connected && !r.connects then b
    else DrainAll(b.(connected := true), r.order)
  }

  function EnsureRouter(b: Bridge, r: Replica): Bridge {
    if b.acquired || !b.node || !r.given then b
    else
      var b' := b.(acquired := true, initialised := r.known);
      if r.known then OnRouterInitialised(b', r) else b'
  }

  function Record(b: Bridge, request: Request, callable: bool, timed: bool): Bridge {
    var id := |b.issued| + 1;
    b.(issued := b.issued + [request], pending := b.pending[id := PendingCall(request, callable, false)],
       timers := if timed then b.timers + {id} else b.timers, wanted := if callable then b.wanted + {id} else b.wanted)
  }

  function CallModuleAsync(b: Bridge, request: Request, callable: bool, timed: bool, r: Replica): Bridge {
    var id, b1 := |b.issued| + 1, Record(b, request, callable, timed);
    if !b1.node then Deliver(b1, id, ErrorPayload(NoBackend, request.target, request.slot))
    else Settle(EnsureRouter(b1, r), id, request)
  }

  /** The call once the router has been asked for: refused, already sent by the drain, held, or sent. */
  function Settle(b: Bridge, id: Id, request: Request): Bridge {
    if !b.acquired then Deliver(b, id, ErrorPayload(NoBackendRouter, request.target, request.slot))
    else if id !in b.pending || b.pending[id].dispatched || !b.initialised then b
    else Dispatch(b, id)
  }

  /** A single-shot timer armed by the call fires once. */
  function Fire(b: Bridge, id: Id): Bridge
    requires id in b.timers && 1 <= id <= |b.issued|
  {
    var request := b.issued[id - 1];
    Deliver(b.(timers := b.timers - {id}), id, ErrorPayload(TimedOut, request.target, request.slot))
  }

  /** The replica learns its source's meta and emits initialized(). */
  function RouterInitialises(b: Bridge, r: Replica): Bridge {
    if !b.acquired then b else OnRouterInitialised(b.(initialised := true), r)
  }

  // ---- what the bridge keeps by itself ----

  ghost predicate OnceEach(log: seq<Outcome>) {
    forall i, j :: 0 <= i < j < |log| ==> log[i].id != log[j].id
  }

  ghost predicate CallsOnceEach(log: seq<Call>) {
    forall i, j :: 0 <= i < j < |log| ==> log[i].id != log[j].id
  }

  ghost predicate Sent(b: Bridge, id: Id) {
    exists k :: 0 <= k < |b.sent| && b.sent[k].id == id
  }

  ghost predicate LedgerInv(b: Bridge) {
    && b.pending.Keys !! b.resolved.Keys
    && (forall id :: 1 <= id <= |b.issued| <==> id in b.pending || id in b.resolved)
    && (forall id :: id in b.timers ==> 1 <= id <= |b.issued|)
    && OnceEach(b.called)
    && (forall k :: 0 <= k < |b.called| ==>
          b.called[k].id in b.resolved && b.resolved[b.called[k].id] == b.called[k].payload)
  }

  ghost predicate SendingInv(b: Bridge) {
    && CallsOnceEach(b.sent)
    && (forall k :: 0 <= k < |b.sent| ==>
          1 <= b.sent[k].id <= |b.issued| && b.sent[k].request == b.issued[b.sent[k].id - 1])
    && (forall id :: id in b.pending ==>
          1 <= id <= |b.issued| && b.pending[id].request == b.issued[id - 1]
          && (b.pending[id].dispatched <==> Sent(b, id)))
    && (b.connected ==> b.initialised) && (b.initialised ==> b.acquired)
  }

  ghost predicate AllSent(b: Bridge) {
    forall id :: id in b.pending ==> b.pending[id].dispatched
  }

  ghost predicate BridgeInv(b: Bridge) {
    LedgerInv(b) && SendingInv(b) && (b.connected ==> AllSent(b))
  }

  ghost predicate FailedHere(b: Bridge, id: Id, payload: Payload) {
    && 1 <= id <= |b.issued| && payload.ErrorPayload?
    && payload.target == b.issued[id - 1].target && payload.slot == b.issued[id - 1].slot
  }

  /** What any operation may do to the history: only add. A call it sends, or calls back about,
      had not been finished before, and an id it finishes is given an error built here or one of the `answers`. */
  ghost predicate Extends(b: Bridge, b': Bridge, answers: seq<Outcome>) {
    && b.issued <= b'.issued && b.sent <= b'.sent && b.called <= b'.called
    && (forall id :: id in b.resolved ==> id in b'.resolved && b'.resolved[id] == b.resolved[id])
    && (forall k :: |b.sent| <= k < |b'.sent| ==> b'.sent[k].id !in b.resolved)
    && (forall k :: |b.called| <= k < |b'.called| ==> b'.called[k].id !in b.resolved)
    && (forall id :: id in b'.resolved && id !in b.resolved ==>
          FailedHere(b', id, b'.resolved[id]) || Outcome(id, b'.resolved[id]) in answers)
  }

  /** A call that has just been recorded may be unsent for a moment. */
  ghost predicate AllSentBut(b: Bridge, id: Id) {
    forall x :: x in b.pending && x != id ==> b.pending[x].dispatched
  }

  lemma DeliverKeeps(b: Bridge, id: Id, payload: Payload)
    requires LedgerInv(b) && SendingInv(b) && (b.connected ==> AllSentBut(b, id))
    ensures BridgeInv(Deliver(b, id, payload))
    ensures Extends(b, Deliver(b, id, payload), [Outcome(id, payload)])
    ensures FailedHere(b, id, payload) ==> Extends(b, Deliver(b, id, payload), [])
  {
    if id in b.pending {
      var b' := Deliver(b, id, payload);
      assert LedgerInv(b');
      assert SendingInv(b') by {
        assert forall x :: Sent(b', x) <==> Sent(b, x);
      }
    }
  }

  lemma LocalFailure(b: Bridge, id: Id, reason: Reason)
    requires 1 <= id <= |b.issued|
    ensures FailedHere(b, id, ErrorPayload(reason, b.issued[id - 1].target, b.issued[id - 1].slot))
  {
  }

  lemma SentAppend(b: Bridge, b': Bridge, c: Call, id: Id)
    requires b'.sent == b.sent + [c]
    ensures Sent(b', id) <==> Sent(b, id) || id == c.id
  {
    assert b'.sent[|b.sent|] == c;
    if Sent(b, id) {
      var k :| 0 <= k < |b.sent| && b.sent[k].id == id;
      assert b'.sent[k].id == id;
    }
  }

  lemma DispatchSending(b: Bridge, id: Id)
    requires SendingInv(b) && id in b.pending && !b.pending[id].dispatched
    ensures SendingInv(Dispatch(b, id))
  {
    var b' := Dispatch(b, id);
    NotSentYet(b, id);
    forall x ensures Sent(b', x) <==> Sent(b, x) || x == id {
      SentAppend(b, b', Call(id, b.pending[id].request), x);
    }
    hide Sent;
    assert forall k :: 0 <= k < |b.sent| ==> b'.sent[k] == b.sent[k];
  }

  lemma DispatchKeeps(b: Bridge, id: Id)
    requires LedgerInv(b) && SendingInv(b) && id in b.pending && !b.pending[id].dispatched
    ensures var b' := Dispatch(b, id);
            LedgerInv(b') && SendingInv(b') && Extends(b, b', []) && b'.pending.Keys == b.pending.Keys
            && (forall x :: x in b.pending && x != id ==> b'.pending[x] == b.pending[x])
  {
    hide SendingInv;
    DispatchSending(b, id);
    assert Dispatch(b, id).sent[..|b.sent|] == b.sent;
  }

  lemma NotSentYet(b: Bridge, id: Id)
    requires SendingInv(b) && id in b.pending && !b.pending[id].dispatched
    ensures forall k :: 0 <= k < |b.sent| ==> b.sent[k].id != id
  {
  }

  lemma {:induction false} DrainKeeps(b: Bridge, order: seq<Id>)
    requires LedgerInv(b) && SendingInv(b)
    ensures var b' := DrainAll(b, order);
            && LedgerInv(b') && SendingInv(b') && Extends(b, b', []) && b'.pending.Keys == b.pending.Keys
            && b' == b.(pending := b'.pending, sent := b'.sent)
            && (forall id :: id in b.pending && (b.pending[id].dispatched || id in order) ==> b'.pending[id].dispatched)
    decreases |order|
  {
    hide LedgerInv, SendingInv, Extends;
    if order == [] {
      ExtendsItself(b);
    } else {
      var id, b1 := order[0], DrainOne(b, order[0]);
      if id in b.pending && !b.pending[id].dispatched {
        DispatchKeeps(b, id);
      } else {
        ExtendsItself(b);
      }
      DrainKeeps(b1, order[1..]);
      ExtendsTwice(b, b1, DrainAll(b1, order[1..]));
      assert order == [order[0]] + order[1..];
    }
  }

  lemma InitialisedKeeps(b: Bridge, r: Replica)
    requires LedgerInv(b) && SendingInv(b) && b.initialised && b.acquired && Lists(r.order, b.pending.Keys)
    ensures BridgeInv(OnRouterInitialised(b, r)) && Extends(b, OnRouterInitialised(b, r), [])
  {
    if b.connected || r.connects {
      var b1 := b.(connected := true);
      assert SendingInv(b1) by {
        assert forall id :: Sent(b1, id) <==> Sent(b, id);
      }
      DrainKeeps(b1, r.order);
    }
  }

  lemma RecordKeeps(b: Bridge, request: Request, callable: bool, timed: bool)
    requires BridgeInv(b)
    ensures var b' := Record(b, request, callable, timed);
            LedgerInv(b') && SendingInv(b') && Extends(b, b', []) && b'.issued == b.issued + [request]
            && |b.issued| + 1 in b'.pending && (b'.connected ==> AllSentBut(b', |b.issued| + 1))
  {
    var b' := Record(b, request, callable, timed);
    assert forall id :: Sent(b', id) <==> Sent(b, id);
    assert LedgerInv(b');
    assert SendingInv(b');
  }

  lemma EnsureKeeps(b: Bridge, r: Replica, id: Id)
    requires LedgerInv(b) && SendingInv(b) && (b.connected ==> AllSentBut(b, id))
    requires Lists(r.order, b.pending.Keys)
    ensures var b' := EnsureRouter(b, r);
            && LedgerInv(b') && SendingInv(b') && Extends(b, b', []) && b'.issued == b.issued
            && (b'.connected ==> AllSentBut(b', id))
  {
    if !b.acquired && b.node && r.given {
      assert !b.connected by {
        ConnectedNeedsRouter(b);
      }
      var b1 := b.(acquired := true, initialised := r.known);
      FlagsKeep(b, b1);
      if r.known {
        InitialisedKeeps(b1, r);
        DrainIssuesNothing(b1.(connected := true), r.order);
      }
    }
  }

  lemma ConnectedNeedsRouter(b: Bridge)
    requires SendingInv(b)
    ensures b.connected ==> b.acquired
  {
  }

  lemma {:induction false} DrainIssuesNothing(b: Bridge, order: seq<Id>)
    ensures DrainAll(b, order).issued == b.issued
    decreases |order|
  {
    if order != [] {
      DrainIssuesNothing(DrainOne(b, order[0]), order[1..]);
    }
  }

  /** The flags about the router's replica are not part of any ledger. */
  lemma FlagsKeep(b: Bridge, b': Bridge)
    requires LedgerInv(b) && SendingInv(b)
    requires b' == b.(node := b'.node, acquired := b'.acquired, initialised := b'.initialised, connected := b'.connected)
    requires (b'.connected ==> b'.initialised) && (b'.initialised ==> b'.acquired)
    ensures LedgerInv(b') && SendingInv(b') && Extends(b, b', [])
  {
    assert forall id :: Sent(b', id) <==> Sent(b, id);
  }

  lemma SettleKeeps(b: Bridge, id: Id, request: Request)
    requires LedgerInv(b) && SendingInv(b) && (b.connected ==> AllSentBut(b, id))
    requires 1 <= id <= |b.issued| && b.issued[id - 1] == request
    ensures var b' := Settle(b, id, request);
            BridgeInv(b') && Extends(b, b', []) && b'.issued == b.issued
  {
    if !b.acquired {
      LocalFailure(b, id, NoBackendRouter);
      DeliverKeeps(b, id, ErrorPayload(NoBackendRouter, request.target, request.slot));
    } else if id in b.pending && !b.pending[id].dispatched && b.initialised {
      DispatchKeeps(b, id);
    } else {
      assert b.connected ==> b.initialised by {
        hide AllSentBut;
      }
    }
  }

  lemma CallKeeps(b: Bridge, request: Request, callable: bool, timed: bool, r: Replica)
    requires BridgeInv(b) && Lists(r.order, Record(b, request, callable, timed).pending.Keys)
    ensures var b' := CallModuleAsync(b, request, callable, timed, r);
            BridgeInv(b') && Extends(b, b', []) && b'.issued == b.issued + [request]
  {
    var id, b1 := |b.issued| + 1, Record(b, request, callable, timed);
    RecordKeeps(b, request, callable, timed);
    hide BridgeInv, LedgerInv, SendingInv, Lists, AllSentBut, EnsureRouter, Settle, Deliver, Extends;
    if b1.node {
      EnsureKeeps(b1, r, id);
      SettleKeeps(EnsureRouter(b1, r), id, request);
      ExtendsTwice(b, b1, EnsureRouter(b1, r));
      ExtendsTwice(b, EnsureRouter(b1, r), Settle(EnsureRouter(b1, r), id, request));
    } else {
      LocalFailure(b1, id, NoBackend);
      DeliverKeeps(b1, id, ErrorPayload(NoBackend, request.target, request.slot));
      ExtendsTwice(b, b1, Deliver(b1, id, ErrorPayload(NoBackend, request.target, request.slot)));
      DeliverIssuesNothing(b1, id, ErrorPayload(NoBackend, request.target, request.slot));
    }
  }

  lemma DeliverIssuesNothing(b: Bridge, id: Id, payload: Payload)
    ensures Deliver(b, id, payload).issued == b.issued
  {
  }

  lemma ExtendsItself(b: Bridge)
    ensures Extends(b, b, [])
  {
  }

  lemma ExtendsTwice(b: Bridge, b1: Bridge, b2: Bridge)
    requires Extends(b, b1, []) && Extends(b1, b2, [])
    ensures Extends(b, b2, [])
  {
  }

  lemma FireKeeps(b: Bridge, id: Id)
    requires BridgeInv(b) && id in b.timers && 1 <= id <= |b.issued|
    ensures BridgeInv(Fire(b, id)) && Extends(b, Fire(b, id), [])
  {
    var b1 := b.(timers := b.timers - {id});
    assert forall x :: Sent(b1, x) <==> Sent(b, x);
    assert LedgerInv(b1) && SendingInv(b1);
    LocalFailure(b1, id, TimedOut);
    DeliverKeeps(b1, id, ErrorPayload(TimedOut, b.issued[id - 1].target, b.issued[id - 1].slot));
  }

  lemma RouterInitialisesKeeps(b: Bridge, r: Replica)
    requires BridgeInv(b) && Lists(r.order, b.pending.Keys)
    ensures BridgeInv(RouterInitialises(b, r)) && Extends(b, RouterInitialises(b, r), [])
  {
    if b.acquired {
      var b1 := b.(initialised := true);
      FlagsKeep(b, b1);
      InitialisedKeeps(b1, r);
    }
  }

  // ---- who is called back ----

  ghost predicate WasCalled(b: Bridge, id: Id) {
    exists k :: 0 <= k < |b.called| && b.called[k].id == id
  }

  /** A finished id was called back exactly if it came with a callback that can be called. */
  ghost predicate CalledInv(b: Bridge) {
    && b.pending.Keys !! b.resolved.Keys
    && (forall id :: id in b.pending || id in b.resolved || id in b.wanted ==> id <= |b.issued|)
    && (forall id :: WasCalled(b, id) ==> id in b.resolved)
    && (forall id :: id in b.pending ==> (b.pending[id].callable <==> id in b.wanted))
    && (forall id :: id in b.resolved ==> (WasCalled(b, id) <==> id in b.wanted))
  }

  lemma DeliverCalls(b: Bridge, id: Id, payload: Payload)
    requires CalledInv(b)
    ensures CalledInv(Deliver(b, id, payload))
  {
    if id in b.pending {
      var b' := Deliver(b, id, payload);
      forall x ensures WasCalled(b', x) <==> WasCalled(b, x) || (x == id && b.pending[id].callable) {
        CalledAppend(b, b', Outcome(id, payload), x);
      }
      hide WasCalled;
    }
  }

  lemma CalledAppend(b: Bridge, b': Bridge, o: Outcome, id: Id)
    requires b'.called == b.called || b'.called == b.called + [o]
    ensures WasCalled(b', id) <==> WasCalled(b, id) || (b'.called != b.called && id == o.id)
  {
    if b'.called != b.called {
      assert b'.called[|b.called|] == o;
      if WasCalled(b, id) {
        var k :| 0 <= k < |b.called| && b.called[k].id == id;
        assert b'.called[k].id == id;
      }
    }
  }

  /** Operations that finish nothing and record nothing call nobody. */
  lemma QuietCalls(b: Bridge, b': Bridge)
    requires CalledInv(b) && b'.pending.Keys == b.pending.Keys
    requires b'.issued == b.issued && b'.resolved == b.resolved && b'.called == b.called && b'.wanted == b.wanted
    requires forall id :: id in b.pending ==> b'.pending[id].callable == b.pending[id].callable
    ensures CalledInv(b')
  {
    assert forall id :: WasCalled(b', id) <==> WasCalled(b, id);
    hide WasCalled;
  }

  lemma {:induction false} DrainIsQuiet(b: Bridge, order: seq<Id>)
    ensures var b' := DrainAll(b, order);
            && b'.pending.Keys == b.pending.Keys
            && b'.issued == b.issued && b'.resolved == b.resolved && b'.called == b.called && b'.wanted == b.wanted
            && (forall id :: id in b.pending ==> b'.pending[id].callable == b.pending[id].callable)
    decreases |order|
  {
    if order != [] {
      DrainIsQuiet(DrainOne(b, order[0]), order[1..]);
    }
  }

  lemma RecordCalls(b: Bridge, request: Request, callable: bool, timed: bool)
    requires CalledInv(b)
    ensures CalledInv(Record(b, request, callable, timed))
  {
    var b' := Record(b, request, callable, timed);
    assert forall id :: WasCalled(b', id) <==> WasCalled(b, id);
    hide WasCalled;
    assert |b.issued| + 1 !in b.resolved && |b.issued| + 1 !in b.wanted;
  }

  lemma InitialisedCalls(b: Bridge, r: Replica)
    requires CalledInv(b)
    ensures CalledInv(OnRouterInitialised(b, r))
  {
    hide CalledInv;
    DrainIsQuiet(b.(connected := true), r.order);
    QuietCalls(b, OnRouterInitialised(b, r));
  }

  lemma EnsureCalls(b: Bridge, r: Replica)
    requires CalledInv(b)
    ensures CalledInv(EnsureRouter(b, r))
  {
    hide CalledInv, OnRouterInitialised;
    var b' := b.(acquired := true, initialised := r.known);
    QuietCalls(b, b');
    InitialisedCalls(b', r);
  }

  lemma SettleCalls(b: Bridge, id: Id, request: Request)
    requires CalledInv(b)
    ensures CalledInv(Settle(b, id, request))
  {
    hide CalledInv, Deliver;
    DeliverCalls(b, id, ErrorPayload(NoBackendRouter, request.target, request.slot));
    if id in b.pending {
      QuietCalls(b, Dispatch(b, id));
    }
  }

  lemma CallCalls(b: Bridge, request: Request, callable: bool, timed: bool, r: Replica)
    requires CalledInv(b)
    ensures CalledInv(CallModuleAsync(b, request, callable, timed, r))
  {
    hide CalledInv, Deliver, Record, EnsureRouter, Settle;
    var id, b1 := |b.issued| + 1, Record(b, request, callable, timed);
    RecordCalls(b, request, callable, timed);
    DeliverCalls(b1, id, ErrorPayload(NoBackend, request.target, request.slot));
    EnsureCalls(b1, r);
    SettleCalls(EnsureRouter(b1, r), id, request);
  }

  lemma FireCalls(b: Bridge, id: Id)
    requires CalledInv(b) && id in b.timers && 1 <= id <= |b.issued|
    ensures CalledInv(Fire(b, id))
  {
    hide CalledInv, Deliver;
    var b1, request := b.(timers := b.timers - {id}), b.issued[id - 1];
    QuietCalls(b, b1);
    DeliverCalls(b1, id, ErrorPayload(TimedOut, request.target, request.slot));
  }

  lemma RouterInitialisesCalls(b: Bridge, r: Replica)
    requires CalledInv(b)
    ensures CalledInv(RouterInitialises(b, r))
  {
    hide CalledInv, OnRouterInitialised;
    QuietCalls(b, b.(initialised := true));
    InitialisedCalls(b.(initialised := true), r);
  }
}
