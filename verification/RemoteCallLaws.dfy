/** What a call meets on its way: held, sent or refused by the bridge, and handed on by the router. */
module HeldCalls {
  import opened Sequences
  import opened WebBridgeModel

  /** What a call that is refused at once is answered. */
  function Refusal(reason: Reason, request: Request): Payload { ErrorPayload(reason, request.target, request.slot) }

  /** A call is refused only for want of a node or of the router's replica; it is then finished at once and never sent. */
  lemma CallIsRefused(b: Bridge, request: Request, callable: bool, timed: bool, r: Replica)
    requires BridgeInv(b) && (!b.node || (!b.acquired && !r.given))
    ensures var id, b' := |b.issued| + 1, CallModuleAsync(b, request, callable, timed, r);
            var p := Refusal(if b.node then NoBackendRouter else NoBackend, request);
            && b'.pending == b.pending && b'.sent == b.sent && b'.resolved == b.resolved[id := p]
            && b'.called == b.called + (if callable then [Outcome(id, p)] else [])
            && b'.acquired == b.acquired && b'.initialised == b.initialised && b'.connected == b.connected
  {
    hide SendingInv;
  }

  /** Any other call is held: it waits, nobody is called back, and it has been sent if and only if the router's replica knows
      its source by then. The calls held before go out with it when the replica connects, and stay as they were if not. */
  lemma CallIsHeld(b: Bridge, request: Request, callable: bool, timed: bool, r: Replica)
    requires BridgeInv(b) && b.node && (b.acquired || r.given)
    requires Lists(r.order, Record(b, request, callable, timed).pending.Keys)
    ensures var id, b' := |b.issued| + 1, CallModuleAsync(b, request, callable, timed, r);
            && b'.resolved == b.resolved && b'.called == b.called
            && b'.acquired && b'.initialised == (if b.acquired then b.initialised else r.known)
            && b'.connected == (b.connected || (!b.acquired && r.known && r.connects))
            && b'.pending.Keys == b.pending.Keys + {id}
            && b'.pending[id] == PendingCall(request, callable, b'.initialised)
            && (b'.connected ==> AllSent(b'))
            && (!b'.connected ==> forall x :: x in b.pending ==> b'.pending[x] == b.pending[x])
  {
    var id, b1 := |b.issued| + 1, Record(b, request, callable, timed);
    assert b1 == b.(issued := b1.issued, pending := b.pending[id := PendingCall(request, callable, false)],
                    timers := b1.timers, wanted := b1.wanted);
    FreshId(b);
    RouterFirst(b);
    RecordKeeps(b, request, callable, timed);
    assert CallModuleAsync(b, request, callable, timed, r) == Settle(EnsureRouter(b1, r), id, request);
    hide BridgeInv, LedgerInv, SendingInv, Record, EnsureRouter, Settle, Lists, CallModuleAsync;
    RouterIsAsked(b1, r);
    SettleSends(EnsureRouter(b1, r), id, request);
  }

  /** The entry is the same call, whether or not it has been sent by now. */
  predicate SameCall(p: PendingCall, q: PendingCall) { p.request == q.request && p.callable == q.callable }

  ghost predicate SameCalls(b: Bridge, b': Bridge) {
    b'.pending.Keys == b.pending.Keys && forall id :: id in b.pending ==> SameCall(b.pending[id], b'.pending[id])
  }

  lemma {:induction false} DrainSame(b: Bridge, order: seq<Id>)
    ensures SameCalls(b, DrainAll(b, order))
    decreases |order|
  {
    if order != [] {
      DrainSame(DrainOne(b, order[0]), order[1..]);
    }
  }

  lemma FreshId(b: Bridge)
    requires BridgeInv(b)
    ensures |b.issued| + 1 !in b.pending && (b.connected ==> AllSent(b))
  {
  }

  lemma RouterIsAsked(b: Bridge, r: Replica)
    requires LedgerInv(b) && SendingInv(b) && Lists(r.order, b.pending.Keys)
    requires b.node && (b.acquired || r.given) && (b.connected ==> b.acquired)
    ensures var b' := EnsureRouter(b, r);
            if b.acquired then b' == b
            else
              && b' == b.(acquired := true, initialised := r.known, connected := r.known && r.connects,
                          pending := b'.pending, sent := b'.sent)
              && SameCalls(b, b')
              && (if b'.connected then AllSent(b') else b'.pending == b.pending && b'.sent == b.sent)
  {
    if !b.acquired {
      var b' := b.(acquired := true, initialised := r.known);
      FlagsKeep(b, b');
      if r.known {
        SourceKnown(b', r);
        hide OnRouterInitialised;
      }
      hide LedgerInv, SendingInv, Lists;
    }
  }

  lemma SettleSends(b: Bridge, id: Id, request: Request)
    requires b.acquired && id in b.pending
    ensures var b' := Settle(b, id, request);
            && b' == b.(pending := b'.pending, sent := b'.sent) && SameCalls(b, b')
            && (b'.pending[id].dispatched <==> b.pending[id].dispatched || b.initialised)
            && (forall x :: x in b.pending && x != id ==> b'.pending[x] == b.pending[x])
  {
    assert id in b.pending && !b.pending[id].dispatched ==>
             Dispatch(b, id).pending.Keys == b.pending.Keys + {id} == b.pending.Keys;
  }

  lemma RouterFirst(b: Bridge)
    requires BridgeInv(b)
    ensures b.connected ==> b.initialised && b.acquired
  {
  }

  /** The replica knows its source: once its signal is connected everything that waits is sent, and until then nothing is. */
  lemma SourceKnown(b: Bridge, r: Replica)
    requires LedgerInv(b) && SendingInv(b) && b.initialised && b.acquired && Lists(r.order, b.pending.Keys)
    ensures var b' := OnRouterInitialised(b, r);
            && b' == b.(connected := b.connected || r.connects, pending := b'.pending, sent := b'.sent)
            && SameCalls(b, b')
            && (if b'.connected then AllSent(b') else b'.pending == b.pending && b'.sent == b.sent)
  {
    if b.connected || r.connects {
      var b1 := b.(connected := true);
      FlagsKeep(b, b1);
      DrainKeeps(b1, r.order);
      DrainSame(b1, r.order);
      hide LedgerInv, SendingInv, DrainAll;
    }
  }

  /** initialized(): the bridge connects if it can, and a connected bridge holds nothing back. */
  lemma InitialisingSends(b: Bridge, r: Replica)
    requires BridgeInv(b) && Lists(r.order, b.pending.Keys)
    ensures var b' := RouterInitialises(b, r);
            && b'.resolved == b.resolved && b'.called == b.called && b'.pending.Keys == b.pending.Keys
            && b'.initialised == (b.initialised || b.acquired)
            && b'.connected == (b.connected || (b.acquired && r.connects))
            && (if b'.connected then AllSent(b') else b'.pending == b.pending && b'.sent == b.sent)
  {
    RouterFirst(b);
    if b.acquired {
      FlagsKeep(b, b.(initialised := true));
      SourceKnown(b.(initialised := true), r);
      hide LedgerInv, SendingInv, Lists, OnRouterInitialised;
    }
  }
}

/** Over whole runs: which step finishes a call, what its deadline promises, and what the host's handler is owed. */
module AnsweredCalls {
  import opened Sequences
  import opened WebBridgeModel
  import opened CallRouterModel
  import opened RemoteCalls
  import opened HeldCalls

  /** The steps that finish a call, with their payloads: a refusal when it is made, its own timer, or its answer coming in
      over a connected replica. */
  ghost predicate Finishes(s: System, step: Step, id: Id, p: Payload) {
    var b := s.bridge;
    match step
    case Ask(request, _, _, r) =>
      && id == |b.issued| + 1
      && if !b.node then p == Refusal(NoBackend, request)
         else !b.acquired && !r.given && p == Refusal(NoBackendRouter, request)
    case TimerFires(x) => x == id && id in b.pending && 1 <= id <= |b.issued| && p == Refusal(TimedOut, b.issued[id - 1])
    case AnswerArrives =>
      s.alive && b.connected && s.answers != [] && s.answers[0] == Outcome(id, p) && id in b.pending
    case _ => false
  }

  /** Both directions: a step finishes a call with a payload if and only if it is one of those. */
  lemma FinishesExactly(s: System, step: Step, id: Id, p: Payload)
    requires Inv(s) && Enabled(s, step)
    ensures var b, b' := s.bridge, Apply(s, step).bridge;
            id !in b.resolved && id in b'.resolved && b'.resolved[id] == p <==> Finishes(s, step, id, p)
  {
    EachHalf(s);
    Unfinished(s.bridge);
    ResolvedBy(s, step);
    hide Inv, BridgeInv, HostInv, Lists, Apply;
  }

  lemma ResolvedBy(s: System, step: Step)
    requires Inv(s) && Enabled(s, step)
    ensures var b := s.bridge;
            Apply(s, step).bridge.resolved ==
            match step
            case Ask(request, _, _, r) =>
              if !b.node then b.resolved[|b.issued| + 1 := Refusal(NoBackend, request)]
              else if !b.acquired && !r.given then b.resolved[|b.issued| + 1 := Refusal(NoBackendRouter, request)]
              else b.resolved
            case TimerFires(x) =>
              if x in b.pending then b.resolved[x := Refusal(TimedOut, b.issued[x - 1])] else b.resolved
            case AnswerArrives =>
              if s.alive && b.connected && s.answers != [] && s.answers[0].id in b.pending
              then b.resolved[s.answers[0].id := s.answers[0].payload] else b.resolved
            case _ => b.resolved
  {
    EachHalf(s);
    hide Inv, BridgeInv, HostInv, Lists, Record, Apply;
    match step
    case Ask(request, callable, timed, r) =>
      AskFinishes(s.bridge, request, callable, timed, r);
      StepOfTheBridge(s, step);
    case TimerFires(id) => StepOfTheBridge(s, step);
    case Initialise(r) =>
      InitialisingSends(s.bridge, r);
      StepOfTheBridge(s, step);
    case AnswerArrives => AnswerResolves(s);
    case _ => OthersResolveNothing(s, step);
  }

  lemma StepOfTheBridge(s: System, step: Step)
    requires Enabled(s, step) && (step.Ask? || step.TimerFires? || step.Initialise?)
    ensures Apply(s, step).bridge ==
            match step
            case Ask(request, callable, timed, r) => CallModuleAsync(s.bridge, request, callable, timed, r)
            case TimerFires(id) => Fire(s.bridge, id)
            case Initialise(r) => RouterInitialises(s.bridge, r)
  {
    hide CallModuleAsync, Fire, RouterInitialises, Lists, Record;
  }

  lemma AnswerResolves(s: System)
    ensures Apply(s, AnswerArrives).bridge ==
            if s.alive && s.bridge.connected && s.answers != []
            then Deliver(s.bridge, s.answers[0].id, s.answers[0].payload) else s.bridge
  {
    hide Deliver;
  }

  lemma OthersResolveNothing(s: System, step: Step)
    requires !step.Ask? && !step.TimerFires? && !step.Initialise? && !step.AnswerArrives?
    ensures Apply(s, step).bridge.resolved == s.bridge.resolved
  {
    hide Receive, Complete;
  }

  lemma AskFinishes(b: Bridge, request: Request, callable: bool, timed: bool, r: Replica)
    requires BridgeInv(b) && Lists(r.order, Record(b, request, callable, timed).pending.Keys)
    ensures CallModuleAsync(b, request, callable, timed, r).resolved ==
            if !b.node then b.resolved[|b.issued| + 1 := Refusal(NoBackend, request)]
            else if !b.acquired && !r.given then b.resolved[|b.issued| + 1 := Refusal(NoBackendRouter, request)]
            else b.resolved
  {
    hide BridgeInv, Lists, Record, CallModuleAsync;
    if b.node && (b.acquired || r.given) {
      CallIsHeld(b, request, callable, timed, r);
    } else {
      CallIsRefused(b, request, callable, timed, r);
    }
  }

  lemma Unfinished(b: Bridge)
    requires BridgeInv(b)
    ensures |b.issued| + 1 !in b.resolved && b.pending.Keys !! b.resolved.Keys
  {
  }

  lemma {:induction false} RunSplits(s: System, steps: seq<Step>)
    requires steps != []
    ensures Run(s, steps) == Apply(Run(s, steps[..|steps| - 1]), steps[|steps| - 1])
    decreases |steps|
  {
    hide Apply;
    if |steps| > 1 {
      RunSplits(Apply(s, steps[0]), steps[1..]);
      assert steps[1..][..|steps| - 2] == steps[..|steps| - 1][1..];
    }
  }

  lemma Reached(steps: seq<Step>)
    ensures Inv(Run(START, steps))
  {
    StartInv();
    RunKeeps(START, steps);
  }

  lemma NotEnabledNothing(s: System, step: Step)
    requires !Enabled(s, step)
    ensures Apply(s, step) == s
  {
  }

  ghost predicate FinishedAt(steps: seq<Step>, i: nat, id: Id, p: Payload) {
    i < |steps| && var s := Run(START, steps[..i]); Enabled(s, steps[i]) && Finishes(s, steps[i], id, p)
  }

  lemma FinishedBefore(steps: seq<Step>, i: nat, id: Id, p: Payload)
    requires steps != [] && i < |steps| - 1
    ensures FinishedAt(steps, i, id, p) <==> FinishedAt(steps[..|steps| - 1], i, id, p)
  {
    assert steps[..|steps| - 1][..i] == steps[..i];
  }

  /** What the last step of a run adds: nothing, or the call it finishes. */
  lemma LastStep(s: System, step: Step, id: Id, p: Payload)
    requires Inv(s)
    ensures var b, b' := s.bridge, Apply(s, step).bridge;
            id in b'.resolved && b'.resolved[id] == p <==>
              (id in b.resolved && b.resolved[id] == p) || (Enabled(s, step) && Finishes(s, step, id, p))
  {
    AppliedExtends(s, step);
    if Enabled(s, step) {
      FinishesExactly(s, step, id, p);
    } else {
      NotEnabledNothing(s, step);
    }
    hide Inv, Apply, Enabled, Finishes;
  }

  /** Over a whole run: a call is finished with a payload if and only if some step of the run finished it with that. */
  lemma {:induction false} EveryOutcomeHasItsStep(steps: seq<Step>, id: Id, p: Payload)
    ensures var b := Run(START, steps).bridge;
            id in b.resolved && b.resolved[id] == p <==> exists i: nat :: FinishedAt(steps, i, id, p)
    decreases |steps|
  {
    if steps == [] {
    } else {
      var n, before := |steps| - 1, steps[..|steps| - 1];
      EveryOutcomeHasItsStep(before, id, p);
      RunSplits(START, steps);
      Reached(before);
      LastStep(Run(START, before), steps[n], id, p);
      forall i: nat | i < n ensures FinishedAt(steps, i, id, p) <==> FinishedAt(before, i, id, p) {
        FinishedBefore(steps, i, id, p);
      }
      assert FinishedAt(steps, n, id, p) <==>
               Enabled(Run(START, before), steps[n]) && Finishes(Run(START, before), steps[n], id, p);
      assert forall i: nat :: FinishedAt(steps, i, id, p) ==> i <= n;
      assert forall i: nat :: FinishedAt(before, i, id, p) ==> i < n;
      hide Run, FinishedAt, Inv, Apply, Finishes, Enabled;
    }
  }

  // ---- deadlines ----

  lemma TimersStep(s: System, step: Step)
    requires Inv(s) && Enabled(s, step)
    ensures Apply(s, step).bridge.timers ==
            match step
            case Ask(_, _, timed, _) => if timed then s.bridge.timers + {|s.bridge.issued| + 1} else s.bridge.timers
            case TimerFires(id) => s.bridge.timers - {id}
            case _ => s.bridge.timers
  {
    hide Inv, Lists, Receive, Complete;
    match step
    case Ask(request, callable, timed, r) =>
      var b := Record(s.bridge, request, callable, timed);
      DrainKeepsTimers(b.(acquired := true, initialised := r.known, connected := true), r.order);
    case Initialise(r) =>
      DrainKeepsTimers(s.bridge.(initialised := true, connected := true), r.order);
    case _ =>
  }

  lemma {:induction false} DrainKeepsTimers(b: Bridge, order: seq<Id>)
    ensures DrainAll(b, order).timers == b.timers
    decreases |order|
  {
    if order != [] {
      DrainKeepsTimers(DrainOne(b, order[0]), order[1..]);
    }
  }

  /** The deadline of a call: its timer is armed, or it has been finished. */
  predicate OnTheClock(b: Bridge, id: Id) { 1 <= id <= |b.issued| && (id in b.timers || id in b.resolved) }

  lemma StepOnTheClock(s: System, step: Step, id: Id)
    requires Inv(s) && OnTheClock(s.bridge, id)
    ensures OnTheClock(Apply(s, step).bridge, id)
  {
    AppliedExtends(s, step);
    IssuesOnly(s, step);
    if Enabled(s, step) {
      TimersStep(s, step);
      if step == TimerFires(id) {
        TimerFinishes(s, id);
      }
    } else {
      NotEnabledNothing(s, step);
    }
    hide Inv, Apply, Enabled;
  }

  lemma TimerFinishes(s: System, id: Id)
    requires Inv(s) && Enabled(s, TimerFires(id))
    ensures id in Apply(s, TimerFires(id)).bridge.resolved
  {
    hide HostInv, SendingInv, CallsInv, AnswersInv, NoneStranded;
  }

  lemma IssuesOnly(s: System, step: Step)
    requires Inv(s)
    ensures s.bridge.issued <= Apply(s, step).bridge.issued
  {
    EachHalf(s);
    hide Inv, BridgeInv, HostInv, Record, CallModuleAsync, RouterInitialises, Lists;
    if Enabled(s, step) {
      match step
      case Ask(request, callable, timed, r) => CallKeeps(s.bridge, request, callable, timed, r);
      case Initialise(r) => RouterInitialisesKeeps(s.bridge, r);
      case _ =>
    }
  }

  lemma {:induction false} RunOnTheClock(s: System, steps: seq<Step>, id: Id)
    requires Inv(s) && OnTheClock(s.bridge, id)
    ensures Inv(Run(s, steps)) && OnTheClock(Run(s, steps).bridge, id)
    decreases |steps|
  {
    hide Inv, OnTheClock, Apply;
    if steps != [] {
      ApplyKeeps(s, steps[0]);
      StepOnTheClock(s, steps[0], id);
      RunOnTheClock(Apply(s, steps[0]), steps[1..], id);
    }
  }

  /** A call with a deadline is never left for good: whatever happens after it was made, it has been finished, or its timer is
      still armed, and then, as long as the bridge lives, the timer finishes it. */
  lemma DeadlinesHold(before: seq<Step>, request: Request, callable: bool, r: Replica, later: seq<Step>)
    requires Enabled(Run(START, before), Ask(request, callable, true, r))
    ensures var s := Run(START, before); var id := |s.bridge.issued| + 1;
            var t := Run(Apply(s, Ask(request, callable, true, r)), later);
            && (id in t.bridge.resolved || id in t.bridge.timers)
            && (id !in t.bridge.resolved && t.alive ==>
                  Enabled(t, TimerFires(id)) && id in Apply(t, TimerFires(id)).bridge.resolved)
  {
    var s, ask := Run(START, before), Ask(request, callable, true, r);
    var id, s' := |s.bridge.issued| + 1, Apply(s, ask);
    Reached(before);
    ApplyKeeps(s, ask);
    TimersStep(s, ask);
    assert |s'.bridge.issued| == |s.bridge.issued| + 1 by {
      EachHalf(s);
      CallKeeps(s.bridge, request, callable, true, r);
    }
    hide Inv, Apply;
    RunOnTheClock(s', later, id);
    var t := Run(s', later);
    if id !in t.bridge.resolved && t.alive {
      TimerFinishes(t, id);
    }
  }
}

/** What the host's handler is owed: every call that reaches it while it is there, and the last word on each. */
module HandedCalls {
  import opened Sequences
  import opened WebBridgeModel
  import opened CallRouterModel
  import opened RemoteCalls
  import opened HeldCalls
  import opened AnsweredCalls

  /** The handler has the call and has not answered it. */
  predicate InHand(h: Host, c: Call) { c in h.handled && c.id in h.inFlight }

  lemma ArrivingCall(s: System)
    requires Inv(s) && s.calls != []
    ensures s.calls[0].id != 0 && s.calls[0].id !in s.host.inFlight && HostInv(s.host)
  {
    assert WasSent(s.bridge, s.calls[0]);
  }

  lemma CallIsTaken(s: System)
    requires Inv(s) && s.calls != [] && s.host.handler
    ensures Apply(s, CallArrives) == s.(calls := s.calls[1..], host := Taken(s.host, s.calls[0]))
  {
    ArrivingCall(s);
    Taking(s.host, s.calls[0]);
    HostedQuietly(s.(calls := s.calls[1..]), Taken(s.host, s.calls[0]));
    hide Inv, HostInv, CallModuleAsync, RouterInitialises, Fire, Lists, Record, Complete, Deliver, Receive, Taken, Hosted;
  }

  lemma Taking(h: Host, c: Call)
    requires h.handler && c.id != 0
    ensures Receive(h, c) == Taken(h, c) && Taken(h, c).emitted == h.emitted
  {
  }

  lemma HostedQuietly(s: System, h: Host)
    requires h.emitted == s.host.emitted
    ensures Hosted(s, h) == s.(host := h)
  {
    assert h.emitted[|h.emitted|..] == [];
  }

  lemma StepInHand(s: System, step: Step, c: Call)
    requires Inv(s) && InHand(s.host, c) && !(step.HostCompletes? && step.id == c.id)
    ensures InHand(Apply(s, step).host, c)
  {
    if s.calls != [] {
      ArrivingCall(s);
    }
    hide Inv, HostInv, CallModuleAsync, RouterInitialises, Fire, Lists;
  }

  lemma {:induction false} RunInHand(s: System, steps: seq<Step>, c: Call)
    requires Inv(s) && InHand(s.host, c)
    requires forall i :: 0 <= i < |steps| ==> !(steps[i].HostCompletes? && steps[i].id == c.id)
    ensures Inv(Run(s, steps)) && InHand(Run(s, steps).host, c)
    decreases |steps|
  {
    hide Inv, InHand, Apply;
    if steps != [] {
      ApplyKeeps(s, steps[0]);
      StepInHand(s, steps[0], c);
      RunInHand(Apply(s, steps[0]), steps[1..], c);
    }
  }

  lemma InHandUnanswered(h: Host, c: Call)
    requires HostInv(h) && InHand(h, c)
    ensures forall k :: 0 <= k < |h.emitted| ==> h.emitted[k].id != c.id
  {
    hide FirstAnswer, HasArrived;
  }

  /** A call that arrives is handed to the handler if there is one, and nothing is answered for it until the host completes
      that id, whatever else happens; the completion is then what is answered. */
  lemma HandedOver(before: seq<Step>, later: seq<Step>, p: Payload)
    requires var s := Run(START, before); s.calls != [] && s.host.handler
    requires forall i :: 0 <= i < |later| ==>
               !(later[i].HostCompletes? && later[i].id == Run(START, before).calls[0].id)
    ensures var s := Run(START, before); var c, t := s.calls[0], Run(Apply(s, CallArrives), later);
            && Apply(s, CallArrives).host.handled == s.host.handled + [c]
            && c in t.host.handled && c.id in t.host.inFlight
            && (forall k :: 0 <= k < |t.host.emitted| ==> t.host.emitted[k].id != c.id)
            && Apply(t, HostCompletes(c.id, p)).host.emitted == t.host.emitted + [Outcome(c.id, p)]
  {
    var s := Run(START, before);
    var c := s.calls[0];
    Reached(before);
    CallIsTaken(s);
    ApplyKeeps(s, CallArrives);
    hide Inv, HostInv, Run, Apply;
    var taken := Apply(s, CallArrives);
    RunInHand(taken, later, c);
    EachHalf(Run(taken, later));
    InHandUnanswered(Run(taken, later).host, c);
    CompletionGoesOut(Run(taken, later), c.id, p);
  }

  lemma CompletionGoesOut(s: System, id: Id, p: Payload)
    requires id in s.host.inFlight
    ensures var t := Apply(s, HostCompletes(id, p));
            && t.host.emitted == s.host.emitted + [Outcome(id, p)] && t.answers == s.answers + [Outcome(id, p)]
            && t.host.handled == s.host.handled && t.bridge == s.bridge && t.calls == s.calls && t.alive == s.alive
  {
    var h := Complete(s.host, id, p);
    assert h.emitted[|s.host.emitted|..] == [Outcome(id, p)];
  }

  /** With no handler installed the call is answered at once that there is no backend router, and is not in flight. */
  lemma NobodyHandles(before: seq<Step>)
    requires var s := Run(START, before); s.calls != [] && !s.host.handler
    ensures var s := Run(START, before); var c, t := s.calls[0], Apply(s, CallArrives);
            && t.host.handled == s.host.handled && c.id !in t.host.inFlight
            && t.answers == s.answers + [Outcome(c.id, Refusal(NoBackendRouter, c.request))]
  {
    Reached(before);
    ArrivingCall(Run(START, before));
    hide Run, Inv, HostInv;
  }

  // ---- the handler has the last word on what it was given ----

  predicate WasHandled(h: Host, id: Id) { exists k :: 0 <= k < |h.handled| && h.handled[k].id == id }

  /** A completed id was completed by the host, or nobody was there to be given the call. */
  ghost predicate Completions(h: Host, steps: seq<Step>) {
    forall k :: 0 <= k < |h.history| && h.history[k].Completed? ==>
      var e := h.history[k];
      HostCompletes(e.id, e.payload) in steps || (HasArrived(h.history, e.id) && !WasHandled(h, e.id))
  }

  /** Of two completions only the first counts, and it is in the history. */
  lemma {:induction false} FirstIsCompleted(history: seq<HostEvent>, id: Id)
    requires FirstAnswer(history, id).Some?
    ensures Completed(id, FirstAnswer(history, id).value) in history
    decreases |history|
  {
    var before, last := history[..|history| - 1], history[|history| - 1];
    assert history == before + [last];
    if FirstAnswer(before, id).Some? {
      FirstIsCompleted(before, id);
    }
  }

  lemma CompleteRecorded(h: Host, id: Id, payload: Payload, steps: seq<Step>)
    requires Completions(h, steps)
    requires HostCompletes(id, payload) in steps || (HasArrived(h.history, id) && !WasHandled(h, id))
    ensures Completions(Complete(h, id, payload), steps)
  {
    var h' := Complete(h, id, payload);
    ArrivedAlike(h.history, Completed(id, payload));
    assert forall x :: WasHandled(h', x) <==> WasHandled(h, x);
    hide HasArrived, WasHandled;
  }

  lemma ReceiveRecorded(h: Host, c: Call, steps: seq<Step>)
    requires Completions(h, steps) && !HasArrived(h.history, c.id) && !WasHandled(h, c.id)
    ensures Completions(Receive(h, c), steps)
  {
    if c.id != 0 {
      var h1 := Taken(h, c);
      ArrivalAlike(h.history, c.id);
      forall x | x != c.id ensures WasHandled(h1, x) <==> WasHandled(h, x) {
        HandedOne(h, c, x);
      }
      assert !h.handler ==> !WasHandled(h1, c.id);
      hide HasArrived, WasHandled;
      assert Completions(h1, steps);
      if !h.handler {
        CompleteRecorded(h1, c.id, Refusal(NoBackendRouter, c.request), steps);
      }
    }
  }

  lemma HandedOne(h: Host, c: Call, id: Id)
    requires id != c.id
    ensures WasHandled(Taken(h, c), id) <==> WasHandled(h, id)
  {
    if WasHandled(h, id) {
      var k :| 0 <= k < |h.handled| && h.handled[k].id == id;
      assert Taken(h, c).handled[k].id == id;
    }
  }

  lemma NewcomerUnhandled(s: System)
    requires Inv(s) && s.calls != []
    ensures !HasArrived(s.host.history, s.calls[0].id) && !WasHandled(s.host, s.calls[0].id)
  {
    hide FirstAnswer, HasArrived;
  }

  lemma StepRecorded(s: System, step: Step, steps: seq<Step>)
    requires Inv(s) && Completions(s.host, steps) && step in steps
    ensures Completions(Apply(s, step).host, steps)
  {
    if s.calls != [] {
      NewcomerUnhandled(s);
    }
    hide Inv, CallModuleAsync, RouterInitialises, Fire, Lists, Complete, Receive, Deliver;
    match step
    case CallArrives =>
      if s.calls != [] {
        hide Completions;
        ReceiveRecorded(s.host, s.calls[0], steps);
      }
    case HostCompletes(id, payload) =>
      hide Completions;
      CompleteRecorded(s.host, id, payload, steps);
    case InstallHandler(installed) =>
      assert forall x :: WasHandled(s.host.(handler := installed), x) <==> WasHandled(s.host, x);
    case _ =>
  }

  lemma {:induction false} RunRecorded(s: System, rest: seq<Step>, steps: seq<Step>)
    requires Inv(s) && Completions(s.host, steps) && forall step :: step in rest ==> step in steps
    ensures Completions(Run(s, rest).host, steps)
    decreases |rest|
  {
    hide Inv, Completions, Apply;
    if rest != [] {
      assert rest[0] in rest && forall step :: step in rest[1..] ==> step in rest;
      ApplyKeeps(s, rest[0]);
      StepRecorded(s, rest[0], steps);
      RunRecorded(Apply(s, rest[0]), rest[1..], steps);
    }
  }

  /** Over a whole run: whatever the router answers to a call the handler was given is something the host completed that
      call with; the router answers for itself only calls that nobody was there to take. */
  lemma HandlerHasTheLastWord(steps: seq<Step>)
    ensures var h := Run(START, steps).host;
            forall k :: 0 <= k < |h.emitted| && WasHandled(h, h.emitted[k].id) ==>
              HostCompletes(h.emitted[k].id, h.emitted[k].payload) in steps
  {
    var h := Run(START, steps).host;
    StartInv();
    RunRecorded(START, steps, steps);
    Reached(steps);
    EachHalf(Run(START, steps));
    hide Run, Inv, HasArrived, WasHandled;
    forall k | 0 <= k < |h.emitted| && WasHandled(h, h.emitted[k].id)
      ensures HostCompletes(h.emitted[k].id, h.emitted[k].payload) in steps
    {
      FirstIsCompleted(h.history, h.emitted[k].id);
    }
  }

  /** There and back: over a connected bridge with nothing on the wire, a call goes out, reaches the handler as it was asked,
      and calls back with what the host completed it with. */
  lemma RoundTrip(before: seq<Step>, request: Request, callable: bool, timed: bool, r: Replica, p: Payload)
    requires var s := Run(START, before);
             && s.bridge.node && s.bridge.connected && s.host.handler && s.calls == [] && s.answers == []
             && Enabled(s, Ask(request, callable, timed, r))
    ensures var s := Run(START, before); var id := |s.bridge.issued| + 1;
            var t := Run(s, [Ask(request, callable, timed, r), CallArrives, HostCompletes(id, p), AnswerArrives]);
            && t.host.handled == s.host.handled + [Call(id, request)]
            && t.bridge.resolved == s.bridge.resolved[id := p]
            && t.bridge.called == s.bridge.called + (if callable then [Outcome(id, p)] else [])
            && t.calls == [] && t.answers == []
  {
    var s := Run(START, before);
    var id, c, ask := |s.bridge.issued| + 1, Call(|s.bridge.issued| + 1, request), Ask(request, callable, timed, r);
    Reached(before);
    ApplyKeeps(s, ask);
    hide Inv, Apply, Run, Enabled;
    CallGoesOut(s, request, callable, timed, r);
    CallIsTaken(Apply(s, ask));
    CompletionGoesOut(Apply(Apply(s, ask), CallArrives), id, p);
    AnswerComesIn(Apply(Apply(Apply(s, ask), CallArrives), HostCompletes(id, p)), id, p);
    FourSteps(s, ask, CallArrives, HostCompletes(id, p), AnswerArrives);
  }

  lemma CallGoesOut(s: System, request: Request, callable: bool, timed: bool, r: Replica)
    requires Inv(s) && s.bridge.node && s.bridge.connected && s.calls == []
    requires Enabled(s, Ask(request, callable, timed, r))
    ensures var c, t := Call(|s.bridge.issued| + 1, request), Apply(s, Ask(request, callable, timed, r));
            && t.bridge == Sending(s.bridge, request, callable, timed) && t.calls == [c]
            && t.host == s.host && t.answers == s.answers && t.alive == s.alive
  {
    EachHalf(s);
    ConnectedCall(s.bridge, request, callable, timed, r);
    hide Inv, BridgeInv, HostInv, CallModuleAsync, Lists;
    assert Sending(s.bridge, request, callable, timed).sent[|s.bridge.sent|..] == [Call(|s.bridge.issued| + 1, request)];
  }

  lemma AnswerComesIn(s: System, id: Id, p: Payload)
    requires s.alive && s.bridge.connected && id in s.bridge.pending && s.answers == [Outcome(id, p)] && s.calls == []
    ensures var b, t := s.bridge, Apply(s, AnswerArrives);
            && t.host == s.host && t.calls == [] && t.answers == [] && t.bridge.resolved == b.resolved[id := p]
            && t.bridge.called == b.called + (if b.pending[id].callable then [Outcome(id, p)] else [])
  {
  }

  ghost function Sending(b: Bridge, request: Request, callable: bool, timed: bool): Bridge {
    var id, b' := |b.issued| + 1, Record(b, request, callable, timed);
    b'.(pending := b'.pending[id := PendingCall(request, callable, true)], sent := b.sent + [Call(id, request)])
  }

  lemma ConnectedCall(b: Bridge, request: Request, callable: bool, timed: bool, r: Replica)
    requires BridgeInv(b) && b.node && b.connected
    ensures CallModuleAsync(b, request, callable, timed, r) == Sending(b, request, callable, timed)
  {
    RouterFirst(b);
    hide BridgeInv;
    var id, b1 := |b.issued| + 1, Record(b, request, callable, timed);
    assert b1.pending[id] == PendingCall(request, callable, false);
    assert EnsureRouter(b1, r) == b1 && Settle(b1, id, request) == Dispatch(b1, id);
  }

  lemma FourSteps(s: System, s1: Step, s2: Step, s3: Step, s4: Step)
    ensures Run(s, [s1, s2, s3, s4]) == Apply(Apply(Apply(Apply(s, s1), s2), s3), s4)
  {
    hide Apply;
    var t1, t2 := Apply(s, s1), Apply(Apply(s, s1), s2);
    assert [s1, s2, s3, s4][1..] == [s2, s3, s4] && [s2, s3, s4][1..] == [s3, s4] && [s3, s4][1..] == [s4];
    assert Run(s, [s1, s2, s3, s4]) == Run(t1, [s2, s3, s4]) == Run(t2, [s3, s4]);
    assert Run(t2, [s3, s4]) == Run(Apply(t2, s3), [s4]) == Apply(Apply(t2, s3), s4);
  }
}
