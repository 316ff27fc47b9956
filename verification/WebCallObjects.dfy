/** The bridge and the router as objects. */
module WebCallObjects {
  import opened Sequences
  import opened WebBridgeModel
  import opened CallRouterModel

  ghost function Listing(ids: set<Id>): (order: seq<Id>)
    ensures Lists(order, ids)
  {
    if ids == {} then [] else var id :| id in ids; [id] + Listing(ids - {id})
  }

  lemma {:induction false} DrainAppend(b: Bridge, order: seq<Id>, id: Id)
    ensures DrainAll(b, order + [id]) == DrainOne(DrainAll(b, order), id)
    decreases |order|
  {
    if order == [] {
      assert [id][1..] == [];
    } else {
      assert (order + [id])[1..] == order[1..] + [id];
      DrainAppend(DrainOne(b, order[0]), order[1..], id);
    }
  }

  class WebBridge {
    var node: bool
    var acquired: bool      // m_router is set
    var initialised: bool   // ... and knows its source
    var connected: bool
    var pending: map<Id, PendingCall>
    var nextRequestId: nat

    ghost var timers: set<Id>
    ghost var issued: seq<Request>
    ghost var sent: seq<Call>
    ghost var resolved: map<Id, Payload>
    ghost var called: seq<Outcome>
    ghost var wanted: set<Id>

    ghost function View(): Bridge
      reads this
    {
      Bridge(node, acquired, initialised, connected, pending, timers, issued, sent, resolved, called, wanted)
    }

    ghost predicate Valid()
      reads this
    {
      nextRequestId == |issued|
    }

    constructor ()
      ensures Valid() && View() == NEW_BRIDGE
    {
      node, acquired, initialised, connected := true, false, false, false;
      pending, nextRequestId := map[], 0;
      timers, issued, sent, resolved, called, wanted := {}, [], [], map[], [], {};
    }

    method Deliver(id: Id, payload: Payload)
      requires Valid()
      modifies this
      ensures Valid() && View() == WebBridgeModel.Deliver(old(View()), id, payload)
    {
      if id !in pending {
        return;
      }
      var entry := pending[id];
      pending := pending - {id};
      resolved := resolved[id := payload];
      if entry.callable {
        called := called + [Outcome(id, payload)];
      }
    }

    /** Marks the entry and invokes the replica's slot. */
    method Dispatch(id: Id)
      requires Valid() && id in pending
      modifies this
      ensures Valid() && View() == WebBridgeModel.Dispatch(old(View()), id)
    {
      var entry := pending[id];
      pending := pending[id := entry.(dispatched := true)];
      sent := sent + [Call(id, entry.request)];
    }

    /** Sends everything asked so far, in whatever order the table lists it. */
    method OnRouterInitialised(connects: bool) returns (ghost order: seq<Id>)
      requires Valid()
      modifies this
      ensures Valid() && Lists(order, old(pending.Keys))
      ensures forall given, known ::
                View() == WebBridgeModel.OnRouterInitialised(old(View()), Replica(given, known, connects, order))
    {
      if !connected {
        connected := connects;
        if !connected {
          order := Listing(pending.Keys);
          return;
        }
      }
      ghost var b := View();
      var waiting := pending.Keys;
      order := [];
      while waiting != {}
        invariant Valid() && View() == DrainAll(b, order)
        invariant Lists(order, b.pending.Keys - waiting) && waiting <= b.pending.Keys
      {
        var id :| id in waiting;
        waiting := waiting - {id};
        DrainAppend(b, order, id);
        order := order + [id];
        if id in pending && !pending[id].dispatched {
          Dispatch(id);
        }
      }
    }

    method EnsureRouter(given: bool, known: bool, connects: bool) returns (ghost order: seq<Id>)
      requires Valid()
      modifies this
      ensures Valid() && Lists(order, old(pending.Keys))
      ensures View() == WebBridgeModel.EnsureRouter(old(View()), Replica(given, known, connects, order))
    {
      order := Listing(pending.Keys);
      if acquired || !node {
        return;
      }
      acquired := given;
      if !acquired {
        return;
      }
      initialised := known;
      if initialised {
        order := OnRouterInitialised(connects);
      }
    }

    method CallModuleAsync(request: Request, callable: bool, timeoutMs: int,
                           given: bool, known: bool, connects: bool)
      returns (ghost replica: Replica)
      requires Valid()
      modifies this
      ensures Valid()
      ensures Lists(replica.order, Record(old(View()), request, callable, timeoutMs > 0).pending.Keys)
      ensures View() == WebBridgeModel.CallModuleAsync(old(View()), request, callable, timeoutMs > 0, replica)
    {
      hide WebBridgeModel.Deliver, WebBridgeModel.EnsureRouter, WebBridgeModel.Dispatch, Lists;
      nextRequestId := nextRequestId + 1;
      var id := nextRequestId;
      issued := issued + [request];
      pending := pending[id := PendingCall(request, callable, false)];
      wanted := if callable then wanted + {id} else wanted;
      if timeoutMs > 0 {
        timers := timers + {id};
      }
      ghost var recorded := View();
      assert recorded == Record(old(View()), request, callable, timeoutMs > 0);
      replica := Replica(given, known, connects, Listing(pending.Keys));
      if !node {
        Deliver(id, ErrorPayload(NoBackend, request.target, request.slot));
        return;
      }
      ghost var order := EnsureRouter(given, known, connects);
      replica := Replica(given, known, connects, order);
      ghost var asked := View();
      assert asked == WebBridgeModel.EnsureRouter(recorded, replica);
      assert WebBridgeModel.CallModuleAsync(old(View()), request, callable, timeoutMs > 0, replica)
          == Settle(asked, id, request);
      if !acquired {
        Deliver(id, ErrorPayload(NoBackendRouter, request.target, request.slot));
        return;
      }
      if id !in pending || pending[id].dispatched {
        return;
      }
      if !initialised {
        return;
      }
      Dispatch(id);
    }

    /** The closure of the single-shot timer that a call with a deadline arms. */
    method TimerFires(id: Id, request: Request)
      requires Valid() && id in timers && 1 <= id <= |issued| && issued[id - 1] == request
      modifies this
      ensures Valid() && View() == Fire(old(View()), id)
    {
      timers := timers - {id};
      Deliver(id, ErrorPayload(TimedOut, request.target, request.slot));
    }
  }

  class CallRouter {
    var handler: bool
    var inFlight: set<Id>

    ghost var history: seq<HostEvent>
    ghost var handled: seq<Call>
    ghost var emitted: seq<Outcome>

    ghost function View(): Host
      reads this
    {
      Host(handler, inFlight, history, handled, emitted)
    }

    constructor ()
      ensures View() == NEW_HOST
    {
      handler, inFlight, history, handled, emitted := false, {}, [], [], [];
    }

    method SetHandler(installed: bool)
      modifies this`handler
      ensures handler == installed
    {
      handler := installed;
    }

    method Complete(id: Id, payload: Payload)
      modifies this
      ensures View() == CallRouterModel.Complete(old(View()), id, payload)
    {
      history := history + [Completed(id, payload)];
      if id !in inFlight {
        return;
      }
      inFlight := inFlight - {id};
      emitted := emitted + [Outcome(id, payload)];
    }

    method HandleCall(c: Call)
      modifies this
      ensures View() == Receive(old(View()), c)
    {
      if c.id == 0 {
        return;
      }
      history := history + [Arrived(c.id)];
      inFlight := inFlight + {c.id};
      if !handler {
        Complete(c.id, ErrorPayload(NoBackendRouter, c.request.target, c.request.slot));
        return;
      }
      handled := handled + [c];
    }
  }
}
