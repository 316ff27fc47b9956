/** The far half: the router the host installs its handler on. */
module CallRouterModel {
  import opened Sequences
  import opened WebBridgeModel

  datatype HostEvent = Arrived(id: Id) | Completed(id: Id, payload: Payload)

  /** The router. Everything but `handler` and `inFlight` is history: what happened in order, the calls
      the handler was given, and the callCompleted signals emitted. */
  datatype Host = Host(
    handler: bool, inFlight: set<Id>,
    history: seq<HostEvent>, handled: seq<Call>, emitted: seq<Outcome>)

  const NEW_HOST := Host(false, {}, [], [], [])

  function Complete(h: Host, id: Id, payload: Payload): Host {
    var h' := h.(history := h.history + [Completed(id, payload)]);
    if id !in h.inFlight then h'
    else h'.(inFlight := h.inFlight - {id}, emitted := h.emitted + [Outcome(id, payload)])
  }

  /** A call without an id is ignored. */
  function Receive(h: Host, c: Call): Host {
    var h' := h.(inFlight := h.inFlight + {c.id}, history := h.history + [Arrived(c.id)]);
    if c.id == 0 then h
    else if h.handler then h'.(handled := h.handled + [c])
    else Complete(h', c.id, ErrorPayload(NoBackendRouter, c.request.target, c.request.slot))
  }

  ghost predicate HasArrived(history: seq<HostEvent>, id: Id) {
    exists k :: 0 <= k < |history| && history[k] == Arrived(id)
  }

  /** The reference answer: the first completion of an id that follows its arrival. */
  ghost function FirstAnswer(history: seq<HostEvent>, id: Id): Option<Payload> {
    if history == [] then None
    else
      var before, last := history[..|history| - 1], history[|history| - 1];
      if FirstAnswer(before, id).Some? then FirstAnswer(before, id)
      else if last.Completed? && last.id == id && HasArrived(before, id) then Some(last.payload)
      else None
  }

  ghost predicate HostInv(h: Host) {
    && OnceEach(h.emitted) && CallsOnceEach(h.handled)
    && (forall k :: 0 <= k < |h.handled| ==> HasArrived(h.history, h.handled[k].id))
    && (forall k :: 0 <= k < |h.emitted| ==>
          FirstAnswer(h.history, h.emitted[k].id) == Some(h.emitted[k].payload))
    && (forall id :: id in h.inFlight <==> HasArrived(h.history, id) && FirstAnswer(h.history, id) == None)
  }

  lemma HistoryGrows(history: seq<HostEvent>, e: HostEvent, id: Id)
    ensures HasArrived(history + [e], id) <==> HasArrived(history, id) || e == Arrived(id)
    ensures FirstAnswer(history + [e], id) ==
            if FirstAnswer(history, id).Some? then FirstAnswer(history, id)
            else if e.Completed? && e.id == id && HasArrived(history, id) then Some(e.payload)
            else None
  {
    var h := history + [e];
    assert h[..|h| - 1] == history && h[|h| - 1] == e;
    if HasArrived(history, id) {
      var k :| 0 <= k < |history| && history[k] == Arrived(id);
      assert h[k] == Arrived(id);
    }
  }

  lemma {:induction false} AnsweredHasArrived(history: seq<HostEvent>, id: Id)
    ensures FirstAnswer(history, id).Some? ==> HasArrived(history, id)
    decreases |history|
  {
    if history != [] {
      var before, last := history[..|history| - 1], history[|history| - 1];
      AnsweredHasArrived(before, id);
      HistoryGrows(before, last, id);
      assert before + [last] == history;
    }
  }

  lemma CompleteKeeps(h: Host, id: Id, payload: Payload)
    requires HostInv(h)
    ensures HostInv(Complete(h, id, payload))
  {
    var h' := Complete(h, id, payload);
    forall x ensures
      && (HasArrived(h'.history, x) <==> HasArrived(h.history, x))
      && FirstAnswer(h'.history, x) ==
         (if FirstAnswer(h.history, x).None? && x == id && HasArrived(h.history, id) then Some(payload)
          else FirstAnswer(h.history, x))
    {
      HistoryGrows(h.history, Completed(id, payload), x);
    }
    hide FirstAnswer, HasArrived;
    if id in h.inFlight {
      assert forall k :: 0 <= k < |h.emitted| ==> h.emitted[k].id != id;
    }
  }

  lemma ReceiveKeeps(h: Host, c: Call)
    requires HostInv(h) && !HasArrived(h.history, c.id)
    ensures HostInv(Receive(h, c))
  {
    var h1 := h.(inFlight := h.inFlight + {c.id}, history := h.history + [Arrived(c.id)]);
    forall x ensures
      && (HasArrived(h1.history, x) <==> HasArrived(h.history, x) || x == c.id)
      && FirstAnswer(h1.history, x) == FirstAnswer(h.history, x)
    {
      HistoryGrows(h.history, Arrived(c.id), x);
      AnsweredHasArrived(h.history, x);
    }
    AnsweredHasArrived(h.history, c.id);
    hide FirstAnswer, HasArrived;
    assert HostInv(h1);
    if h.handler {
      assert forall k :: 0 <= k < |h.handled| ==> h.handled[k].id != c.id;
    } else {
      CompleteKeeps(h1, c.id, ErrorPayload(NoBackendRouter, c.request.target, c.request.slot));
    }
  }
}
