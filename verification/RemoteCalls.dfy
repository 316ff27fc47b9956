/** One bridge and one router joined by a wire that keeps order and may lose what it carries. */
module RemoteCalls {
  import opened Sequences
  import opened WebBridgeModel
  import opened CallRouterModel

  /** `calls` and `answers` are what the wire carries each way; `alive` ends with the bridge's destructor;
      `intact` records that nothing has been lost or dropped so far. */
  datatype System = System(
    bridge: Bridge, host: Host, calls: seq<Call>, answers: seq<Outcome>, alive: bool, intact: bool)

  const START := System(NEW_BRIDGE, NEW_HOST, [], [], true, true)

  datatype Step =
    | Ask(request: Request, callable: bool, timed: bool, replica: Replica)
    | TimerFires(id: Id)
    | Initialise(replica: Replica)
    | CallArrives
    | HostCompletes(id: Id, payload: Payload)
    | AnswerArrives
    | LoseCall
    | LoseAnswer
    | InstallHandler(installed: bool)
    | NodeGone
    | Destroy

  /** A step of the bridge: what it newly sent goes onto the wire. */
  function Bridged(s: System, b: Bridge): System {
    s.(bridge := b, calls := s.calls + (if |s.bridge.sent| <= |b.sent| then b.sent[|s.bridge.sent|..] else []))
  }

  /** A step of the host: what it newly emitted goes onto the wire. */
  function Hosted(s: System, h: Host): System {
    s.(host := h, answers := s.answers + (if |s.host.emitted| <= |h.emitted| then h.emitted[|s.host.emitted|..] else []))
  }

  /** Steps that cannot happen: the bridge acting after its destructor, a timer that is not armed, a table that
      lists keys it does not hold. */
  ghost predicate Enabled(s: System, step: Step) {
    match step
    case Ask(request, callable, timed, r) =>
      s.alive && Lists(r.order, Record(s.bridge, request, callable, timed).pending.Keys)
    case TimerFires(id) => s.alive && id in s.bridge.timers && 1 <= id <= |s.bridge.issued|
    case Initialise(r) => s.alive && Lists(r.order, s.bridge.pending.Keys)
    case NodeGone => s.alive
    case _ => true
  }

  ghost function Apply(s: System, step: Step): System {
    if !Enabled(s, step) then s
    else
      match step
      case Ask(request, callable, timed, r) =>
        Bridged(s, CallModuleAsync(s.bridge, request, callable, timed, r))
      case TimerFires(id) => Bridged(s, Fire(s.bridge, id))
      case Initialise(r) => Bridged(s, RouterInitialises(s.bridge, r))
      case CallArrives =>
        if s.calls == [] then s else Hosted(s.(calls := s.calls[1..]), Receive(s.host, s.calls[0]))
      case HostCompletes(id, payload) => Hosted(s, Complete(s.host, id, payload))
      case AnswerArrives =>
        if s.answers == [] then s
        else
          var rest := s.(answers := s.answers[1..]);
          if s.alive && s.bridge.connected then
            Bridged(rest, Deliver(s.bridge, s.answers[0].id, s.answers[0].payload))
          else rest.(intact := false)
      case LoseCall => if s.calls == [] then s else s.(calls := s.calls[1..], intact := false)
      case LoseAnswer => if s.answers == [] then s else s.(answers := s.answers[1..], intact := false)
      case InstallHandler(installed) => s.(host := s.host.(handler := installed))
      case NodeGone => s.(bridge := s.bridge.(node := false))
      case Destroy => s.(alive := false)
  }

  ghost function Run(s: System, steps: seq<Step>): System
    decreases |steps|
  {
    if steps == [] then s else Run(Apply(s, steps[0]), steps[1..])
  }

  // ---- what holds between the two halves ----

  ghost predicate WasSent(b: Bridge, c: Call) {
    exists k :: 0 <= k < |b.sent| && b.sent[k] == c
  }

  ghost predicate WasEmitted(h: Host, o: Outcome) {
    exists k :: 0 <= k < |h.emitted| && h.emitted[k] == o
  }

  ghost predicate CallsInv(b: Bridge, h: Host, calls: seq<Call>) {
    && CallsOnceEach(calls)
    && (forall k :: 0 <= k < |calls| ==> WasSent(b, calls[k]) && !HasArrived(h.history, calls[k].id))
    && (forall k :: 0 <= k < |h.handled| ==> WasSent(b, h.handled[k]))
    && (forall id :: HasArrived(h.history, id) ==> Sent(b, id))
  }

  ghost predicate AnswersInv(b: Bridge, h: Host, answers: seq<Outcome>) {
    && (forall k :: 0 <= k < |answers| ==> WasEmitted(h, answers[k]))
    && (forall id :: id in b.resolved ==>
          FailedHere(b, id, b.resolved[id]) || WasEmitted(h, Outcome(id, b.resolved[id])))
  }

  /** Where a sent call that is still waiting must be, as long as nothing has been lost. */
  ghost predicate Located(h: Host, calls: seq<Call>, answers: seq<Outcome>, id: Id) {
    || (exists k :: 0 <= k < |calls| && calls[k].id == id)
    || id in h.inFlight
    || (exists k :: 0 <= k < |answers| && answers[k].id == id)
  }

  ghost predicate NoneStranded(s: System) {
    s.intact ==>
      forall id :: id in s.bridge.pending && Sent(s.bridge, id) ==> Located(s.host, s.calls, s.answers, id)
  }

  ghost predicate Inv(s: System) {
    && BridgeInv(s.bridge) && HostInv(s.host)
    && CallsInv(s.bridge, s.host, s.calls) && AnswersInv(s.bridge, s.host, s.answers) && NoneStranded(s)
  }

  // ---- a step of the bridge ----

  lemma BridgedKeeps(s: System, b: Bridge)
    requires Inv(s) && BridgeInv(b) && Extends(s.bridge, b, [])
    ensures Inv(Bridged(s, b))
  {
    var s' := Bridged(s, b);
    assert CallsInv(b, s.host, s'.calls) by {
      BridgedCalls(s, b);
    }
    assert AnswersInv(b, s.host, s.answers) by {
      hide BridgeInv, HostInv, CallsInv, Sent;
      FailuresStay(s.bridge, b);
    }
    assert NoneStranded(s') by {
      BridgedLocates(s, b);
    }
  }

  lemma FailuresStay(b: Bridge, b': Bridge)
    requires b.issued <= b'.issued
    ensures forall id, p :: FailedHere(b, id, p) ==> FailedHere(b', id, p)
  {
  }

  /** A call that was not in the old log has an id that was not in the old log. */
  lemma NewlySent(b: Bridge, b': Bridge, k: nat)
    requires BridgeInv(b) && BridgeInv(b') && b.sent <= b'.sent && |b.sent| <= k < |b'.sent|
    ensures !Sent(b, b'.sent[k].id)
  {
    forall j | 0 <= j < |b.sent| ensures b.sent[j].id != b'.sent[k].id {
      assert b'.sent[j] == b.sent[j];
    }
  }

  lemma SentStays(b: Bridge, b': Bridge)
    requires b.sent <= b'.sent
    ensures forall c :: WasSent(b, c) ==> WasSent(b', c)
    ensures forall id :: Sent(b, id) ==> Sent(b', id)
  {
    forall c | WasSent(b, c) ensures WasSent(b', c) {
      var k :| 0 <= k < |b.sent| && b.sent[k] == c;
      assert b'.sent[k] == c;
    }
    forall id | Sent(b, id) ensures Sent(b', id) {
      var k :| 0 <= k < |b.sent| && b.sent[k].id == id;
      assert b'.sent[k].id == id;
    }
  }

  lemma BridgedCalls(s: System, b: Bridge)
    requires Inv(s) && BridgeInv(b) && s.bridge.sent <= b.sent
    ensures CallsInv(b, s.host, Bridged(s, b).calls)
  {
    var n, calls := |s.bridge.sent|, Bridged(s, b).calls;
    SentStays(s.bridge, b);
    assert forall k :: |s.calls| <= k < |calls| ==> calls[k] == b.sent[n + k - |s.calls|];
    forall k | |s.calls| <= k < |calls| ensures WasSent(b, calls[k]) && !Sent(s.bridge, calls[k].id) {
      NewlySent(s.bridge, b, n + k - |s.calls|);
    }
    OldCallsSent(s);
    SentOnce(b);
    hide BridgeInv, HostInv, AnswersInv, NoneStranded, HasArrived, Sent, WasSent;
    forall i, j | 0 <= i < j < |calls| ensures calls[i].id != calls[j].id {
    }
  }

  lemma OldCallsSent(s: System)
    requires CallsInv(s.bridge, s.host, s.calls)
    ensures forall k :: 0 <= k < |s.calls| ==> Sent(s.bridge, s.calls[k].id)
  {
    hide HasArrived;
    forall k | 0 <= k < |s.calls| ensures Sent(s.bridge, s.calls[k].id) {
      assert WasSent(s.bridge, s.calls[k]);
    }
  }

  lemma SentOnce(b: Bridge)
    requires BridgeInv(b)
    ensures forall i, j :: 0 <= i < j < |b.sent| ==> b.sent[i].id != b.sent[j].id
  {
  }

  lemma BridgedLocates(s: System, b: Bridge)
    requires Inv(s) && BridgeInv(b) && Extends(s.bridge, b, [])
    ensures NoneStranded(Bridged(s, b))
  {
    var s', n := Bridged(s, b), |s.bridge.sent|;
    if s.intact {
      forall id | id in b.pending && Sent(b, id) ensures Located(s.host, s'.calls, s.answers, id) {
        var k :| 0 <= k < |b.sent| && b.sent[k].id == id;
        if k >= n {
          assert s'.calls[|s.calls| + k - n].id == id;
        } else {
          assert s.bridge.sent[k].id == id;
          StillPending(s.bridge, b, id);
          hide BridgeInv, HostInv, CallsInv, AnswersInv, Extends, Located;
          StillLocated(s.host, s.calls, s.answers, s.host, s'.calls, s.answers, id);
        }
      }
    }
  }

  /** A sent call that is waiting was waiting before. */
  lemma StillPending(b: Bridge, b': Bridge, id: Id)
    requires BridgeInv(b) && BridgeInv(b') && Extends(b, b', []) && id in b'.pending && Sent(b, id)
    ensures id in b.pending
  {
    hide FailedHere, CallsOnceEach, OnceEach;
  }

  lemma StillLocated(h: Host, calls: seq<Call>, answers: seq<Outcome>,
                     h': Host, calls': seq<Call>, answers': seq<Outcome>, id: Id)
    requires Located(h, calls, answers, id)
    requires calls <= calls' && answers <= answers' && (id in h.inFlight ==> id in h'.inFlight)
    ensures Located(h', calls', answers', id)
  {
    if k :| 0 <= k < |calls| && calls[k].id == id {
      assert calls'[k].id == id;
    } else if k :| 0 <= k < |answers| && answers[k].id == id {
      assert answers'[k].id == id;
    }
  }

  // ---- a step of the host ----

  lemma EmittedStays(h: Host, h': Host)
    requires h.emitted <= h'.emitted
    ensures forall o :: WasEmitted(h, o) ==> WasEmitted(h', o)
  {
    forall o | WasEmitted(h, o) ensures WasEmitted(h', o) {
      var k :| 0 <= k < |h.emitted| && h.emitted[k] == o;
      assert h'.emitted[k] == o;
    }
  }

  lemma HostedAnswers(s: System, h: Host)
    requires AnswersInv(s.bridge, s.host, s.answers) && s.host.emitted <= h.emitted
    ensures AnswersInv(s.bridge, h, Hosted(s, h).answers)
  {
    hide FailedHere;
    EmittedStays(s.host, h);
    var n, answers := |s.host.emitted|, Hosted(s, h).answers;
    forall k | 0 <= k < |answers| ensures WasEmitted(h, answers[k]) {
      if k >= |s.answers| {
        assert h.emitted[n + k - |s.answers|] == answers[k];
      }
    }
  }

  /** An id the host stops tracking has just been answered. */
  lemma HostedLocates(s: System, h: Host)
    requires NoneStranded(s) && s.host.emitted <= h.emitted
    requires forall id :: id in s.host.inFlight && id !in h.inFlight ==>
               exists k :: |s.host.emitted| <= k < |h.emitted| && h.emitted[k].id == id
    ensures NoneStranded(Hosted(s, h))
  {
    var s', n := Hosted(s, h), |s.host.emitted|;
    if s.intact {
      forall id | id in s.bridge.pending && Sent(s.bridge, id) ensures Located(h, s'.calls, s'.answers, id) {
        assert Located(s.host, s.calls, s.answers, id);
        if id in s.host.inFlight && id !in h.inFlight {
          var k :| n <= k < |h.emitted| && h.emitted[k].id == id;
          assert s'.answers[|s.answers| + k - n].id == id;
        } else {
          StillLocated(s.host, s.calls, s.answers, h, s'.calls, s'.answers, id);
        }
      }
    }
  }

  lemma CompletesKeeps(s: System, id: Id, payload: Payload)
    requires Inv(s)
    ensures Inv(Hosted(s, Complete(s.host, id, payload)))
  {
    var h := Complete(s.host, id, payload);
    CompleteKeeps(s.host, id, payload);
    assert CallsInv(s.bridge, h, s.calls) by {
      hide BridgeInv, FirstAnswer, HasArrived;
      ArrivedAlike(s.host.history, Completed(id, payload));
    }
    hide BridgeInv, HostInv, CallsInv;
    HostedAnswers(s, h);
    assert id in s.host.inFlight ==> h.emitted[|s.host.emitted|].id == id;
    HostedLocates(s, h);
  }

  lemma ArrivedAlike(history: seq<HostEvent>, e: HostEvent)
    requires e.Completed?
    ensures forall x :: HasArrived(history + [e], x) <==> HasArrived(history, x)
  {
    forall x ensures HasArrived(history + [e], x) <==> HasArrived(history, x) {
      HistoryGrows(history, e, x);
    }
  }

  lemma ArrivalAlike(history: seq<HostEvent>, id: Id)
    ensures forall x :: HasArrived(history + [Arrived(id)], x) <==> HasArrived(history, x) || x == id
  {
    forall x ensures HasArrived(history + [Arrived(id)], x) <==> HasArrived(history, x) || x == id {
      HistoryGrows(history, Arrived(id), x);
    }
  }

  /** The part of a receipt before any answer: the id is in flight and, with a handler, handed on. */
  function Taken(h: Host, c: Call): Host {
    h.(inFlight := h.inFlight + {c.id}, history := h.history + [Arrived(c.id)],
       handled := if h.handler then h.handled + [c] else h.handled)
  }

  lemma TakenKeeps(s: System)
    requires Inv(s) && s.calls != []
    ensures var h := Taken(s.host, s.calls[0]);
            HostInv(h) && Inv(s.(calls := s.calls[1..], host := h))
  {
    var c, h := s.calls[0], Taken(s.host, s.calls[0]);
    var s' := s.(calls := s.calls[1..], host := h);
    assert c.id != 0 by {
      assert WasSent(s.bridge, c);
    }
    assert HostInv(h) by {
      ReceiveKeeps(s.host.(handler := true), c);
      if !s.host.handler {
        TakenQuietly(s.host, c);
      } else {
        assert h == Receive(s.host, c);
      }
    }
    ArrivalAlike(s.host.history, c.id);
    assert CallsInv(s.bridge, h, s'.calls) by {
      hide BridgeInv, HostInv, HasArrived;
      assert WasSent(s.bridge, c);
      assert Sent(s.bridge, c.id);
    }
    assert AnswersInv(s.bridge, h, s.answers) by {
      EmittedStays(s.host, h);
    }
    assert NoneStranded(s') by {
      hide BridgeInv, HostInv, CallsInv, AnswersInv;
      forall id | Located(s.host, s.calls, s.answers, id) ensures Located(h, s'.calls, s.answers, id) {
        if k :| 0 <= k < |s.calls| && s.calls[k].id == id {
          if k > 0 {
            assert s'.calls[k - 1].id == id;
          }
        }
      }
    }
  }

  lemma TakenQuietly(h: Host, c: Call)
    requires HostInv(h) && !HasArrived(h.history, c.id) && !h.handler
    ensures HostInv(Taken(h, c))
  {
    var h' := Taken(h, c);
    forall x ensures FirstAnswer(h'.history, x) == FirstAnswer(h.history, x) {
      HistoryGrows(h.history, Arrived(c.id), x);
    }
    AnsweredHasArrived(h.history, c.id);
    ArrivalAlike(h.history, c.id);
    hide FirstAnswer, HasArrived;
  }

  lemma CallArrivesKeeps(s: System)
    requires Inv(s) && s.calls != []
    ensures Inv(Hosted(s.(calls := s.calls[1..]), Receive(s.host, s.calls[0])))
  {
    var c := s.calls[0];
    var taken := s.(calls := s.calls[1..], host := Taken(s.host, c));
    TakenKeeps(s);
    assert c.id != 0 by {
      assert WasSent(s.bridge, c);
    }
    if s.host.handler {
      assert Receive(s.host, c) == taken.host;
      assert Hosted(s.(calls := s.calls[1..]), taken.host) == taken;
    } else {
      var p := ErrorPayload(NoBackendRouter, c.request.target, c.request.slot);
      CompletesKeeps(taken, c.id, p);
      assert Receive(s.host, c) == Complete(taken.host, c.id, p);
      assert Hosted(s.(calls := s.calls[1..]), Receive(s.host, c)) == Hosted(taken, Complete(taken.host, c.id, p));
    }
  }

  // ---- an answer comes back; something is lost ----

  lemma AnswerArrivesKeeps(s: System)
    requires Inv(s) && s.answers != []
    ensures var b := Deliver(s.bridge, s.answers[0].id, s.answers[0].payload);
            Inv(Bridged(s.(answers := s.answers[1..]), b))
  {
    var o := s.answers[0];
    var b := Deliver(s.bridge, o.id, o.payload);
    var s' := Bridged(s.(answers := s.answers[1..]), b);
    DeliverKeeps(s.bridge, o.id, o.payload);
    assert s'.calls == s.calls && b.sent == s.bridge.sent;
    SentStays(s.bridge, b);
    SentStays(b, s.bridge);
    assert CallsInv(b, s.host, s.calls);
    assert AnswersInv(b, s.host, s'.answers) by {
      hide BridgeInv, HostInv, CallsInv, Sent;
      FailuresStay(s.bridge, b);
      assert WasEmitted(s.host, o);
    }
    assert NoneStranded(s') by {
      hide HostInv, CallsInv, AnswersInv;
      forall id | id != o.id && Located(s.host, s.calls, s.answers, id)
        ensures Located(s.host, s.calls, s'.answers, id)
      {
        if k :| 0 <= k < |s.answers| && s.answers[k].id == id {
          assert s'.answers[k - 1].id == id;
        }
      }
      assert o.id !in b.pending;
    }
  }

  lemma LossKeeps(s: System, calls: seq<Call>, answers: seq<Outcome>)
    requires Inv(s)
    requires calls == s.calls || (s.calls != [] && calls == s.calls[1..])
    requires answers == s.answers || (s.answers != [] && answers == s.answers[1..])
    ensures Inv(s.(calls := calls, answers := answers, intact := false))
  {
    hide BridgeInv, HostInv, HasArrived, WasSent, WasEmitted, FailedHere, Sent;
  }

  lemma ApplyKeeps(s: System, step: Step)
    requires Inv(s)
    ensures Inv(Apply(s, step))
  {
    hide Inv, Bridged, Hosted, Deliver, Receive, Complete;
    if Enabled(s, step) {
      match step
      case Ask(request, callable, timed, r) =>
        EachHalf(s);
        CallKeeps(s.bridge, request, callable, timed, r);
        BridgedKeeps(s, CallModuleAsync(s.bridge, request, callable, timed, r));
      case TimerFires(id) =>
        EachHalf(s);
        FireKeeps(s.bridge, id);
        BridgedKeeps(s, Fire(s.bridge, id));
      case Initialise(r) =>
        EachHalf(s);
        RouterInitialisesKeeps(s.bridge, r);
        BridgedKeeps(s, RouterInitialises(s.bridge, r));
      case CallArrives =>
        if s.calls != [] {
          CallArrivesKeeps(s);
        }
      case HostCompletes(id, payload) => CompletesKeeps(s, id, payload);
      case AnswerArrives =>
        if s.answers != [] {
          AnswerArrivesKeeps(s);
          LossKeeps(s, s.calls, s.answers[1..]);
        }
      case LoseCall =>
        if s.calls != [] {
          LossKeeps(s, s.calls[1..], s.answers);
        }
      case LoseAnswer =>
        if s.answers != [] {
          LossKeeps(s, s.calls, s.answers[1..]);
        }
      case InstallHandler(installed) => FlagsDoNotMatter(s, s.bridge.node, installed, s.alive);
      case NodeGone => FlagsDoNotMatter(s, false, s.host.handler, s.alive);
      case Destroy => FlagsDoNotMatter(s, s.bridge.node, s.host.handler, false);
    }
  }

  lemma EachHalf(s: System)
    requires Inv(s)
    ensures BridgeInv(s.bridge) && HostInv(s.host)
  {
  }

  lemma FlagsDoNotMatter(s: System, node: bool, handler: bool, alive: bool)
    requires Inv(s)
    ensures Inv(s.(bridge := s.bridge.(node := node), host := s.host.(handler := handler), alive := alive))
  {
    var b, h := s.bridge.(node := node), s.host.(handler := handler);
    FlagsKeep(s.bridge, b);
    SentStays(s.bridge, b);
    SentStays(b, s.bridge);
    EmittedStays(s.host, h);
    hide LedgerInv, SendingInv, FirstAnswer, HasArrived, Sent, WasSent, WasEmitted;
    assert NoneStranded(s.(bridge := b, host := h, alive := alive)) by {
      hide HostInv, BridgeInv, CallsInv, AnswersInv;
      forall id | Located(s.host, s.calls, s.answers, id) ensures Located(h, s.calls, s.answers, id) {
        StillLocated(s.host, s.calls, s.answers, h, s.calls, s.answers, id);
      }
    }
  }

  lemma StartInv()
    ensures Inv(START)
  {
  }

  lemma {:induction false} RunKeeps(s: System, steps: seq<Step>)
    requires Inv(s)
    ensures Inv(Run(s, steps))
    decreases |steps|
  {
    hide Inv, Apply;
    if steps != [] {
      ApplyKeeps(s, steps[0]);
      RunKeeps(Apply(s, steps[0]), steps[1..]);
    }
  }

  // ---- what holds of every run ----

  lemma ApplyCalls(s: System, step: Step)
    requires CalledInv(s.bridge)
    ensures CalledInv(Apply(s, step).bridge)
  {
    hide CalledInv, CallModuleAsync, Fire, RouterInitialises, Deliver, Receive, Complete, Lists, Record;
    if Enabled(s, step) {
      match step
      case Ask(request, callable, timed, r) => CallCalls(s.bridge, request, callable, timed, r);
      case TimerFires(id) => FireCalls(s.bridge, id);
      case Initialise(r) => RouterInitialisesCalls(s.bridge, r);
      case AnswerArrives =>
        if s.answers != [] {
          DeliverCalls(s.bridge, s.answers[0].id, s.answers[0].payload);
        }
      case NodeGone => QuietCalls(s.bridge, s.bridge.(node := false));
      case _ =>
    }
  }

  lemma {:induction false} RunCalls(s: System, steps: seq<Step>)
    requires CalledInv(s.bridge)
    ensures CalledInv(Run(s, steps).bridge)
    decreases |steps|
  {
    hide CalledInv, Apply;
    if steps != [] {
      ApplyCalls(s, steps[0]);
      RunCalls(Apply(s, steps[0]), steps[1..]);
    }
  }

  /** Every id ever issued is waiting or finished, never both. Each call reaches the handler at most once, as
      it was asked. A callback runs once if its call is finished, and never before, with an error built here or with exactly
      the first answer the host gave after the call reached it; a call without a callback has none run. */
  lemma CallLaw(steps: seq<Step>)
    ensures var s := Run(START, steps); var b, h := s.bridge, s.host;
            && (forall id :: 1 <= id <= |b.issued| <==> id in b.pending || id in b.resolved)
            && b.pending.Keys !! b.resolved.Keys
            && CallsOnceEach(b.sent) && CallsOnceEach(h.handled)
            && (forall k :: 0 <= k < |h.handled| ==>
                  1 <= h.handled[k].id <= |b.issued| && h.handled[k].request == b.issued[h.handled[k].id - 1])
            && OnceEach(b.called)
            && (forall id :: WasCalled(b, id) <==> id in b.resolved && id in b.wanted)
            && (forall k :: 0 <= k < |b.called| ==>
                  var o := b.called[k];
                  && o.id in b.resolved && b.resolved[o.id] == o.payload
                  && (FailedHere(b, o.id, o.payload) || FirstAnswer(h.history, o.id) == Some(o.payload)))
  {
    StartInv();
    RunKeeps(START, steps);
    var s := Run(START, steps);
    var b, h := s.bridge, s.host;
    assert forall id :: WasCalled(b, id) <==> id in b.resolved && id in b.wanted by {
      RunCalls(START, steps);
    }
    hide FirstAnswer, HasArrived, Run, WasCalled;
    forall k | 0 <= k < |h.handled|
      ensures 1 <= h.handled[k].id <= |b.issued| && h.handled[k].request == b.issued[h.handled[k].id - 1]
    {
      assert WasSent(b, h.handled[k]);
    }
    forall k | 0 <= k < |b.called|
      ensures FailedHere(b, b.called[k].id, b.called[k].payload)
              || FirstAnswer(h.history, b.called[k].id) == Some(b.called[k].payload)
    {
      assert b.called[k].id in b.resolved;
    }
  }

  /** Held calls are conserved: once the router is connected, every call still waiting has been sent, once; and
      as long as nothing was lost, it is on the wire, in flight at the host, or on its way back. */
  lemma HeldCallLaw(steps: seq<Step>, id: Id)
    ensures var s := Run(START, steps); var b := s.bridge;
            && CallsOnceEach(b.sent)
            && (id in b.pending ==> (b.pending[id].dispatched <==> Sent(b, id)))
            && (id in b.pending && b.connected ==> Sent(b, id))
            && (id in b.pending && Sent(b, id) && s.intact ==> Located(s.host, s.calls, s.answers, id))
  {
    StartInv();
    RunKeeps(START, steps);
    hide Run;
  }

  lemma AppliedExtends(s: System, step: Step)
    requires Inv(s)
    ensures var b, b' := s.bridge, Apply(s, step).bridge;
            && b.sent <= b'.sent && b.called <= b'.called
            && (forall id :: id in b.resolved ==> id in b'.resolved && b'.resolved[id] == b.resolved[id])
            && (forall k :: |b.sent| <= k < |b'.sent| ==> b'.sent[k].id !in b.resolved)
            && (forall k :: |b.called| <= k < |b'.called| ==> b'.called[k].id !in b.resolved)
  {
    EachHalf(s);
    hide Inv, BridgeInv, HostInv, LedgerInv, SendingInv, AllSentBut, FailedHere, Record;
    hide CallModuleAsync, Fire, RouterInitialises, Deliver, Receive, Complete;
    if Enabled(s, step) {
      match step
      case Ask(request, callable, timed, r) => CallKeeps(s.bridge, request, callable, timed, r);
      case TimerFires(id) => FireKeeps(s.bridge, id);
      case Initialise(r) => RouterInitialisesKeeps(s.bridge, r);
      case AnswerArrives =>
        if s.answers != [] {
          BridgeParts(s.bridge);
          DeliverKeeps(s.bridge, s.answers[0].id, s.answers[0].payload);
        }
      case _ =>
    }
  }

  lemma BridgeParts(b: Bridge)
    requires BridgeInv(b)
    ensures LedgerInv(b) && SendingInv(b) && (forall id :: b.connected ==> AllSentBut(b, id))
  {
  }

  /** A finished call stays finished as it was: late answers, second completions and late timers neither change its
      payload nor call back again, and if it had not been sent (it timed out while held), it never is. */
  lemma {:induction false} FinishedIsFinal(s: System, steps: seq<Step>, id: Id)
    requires Inv(s) && id in s.bridge.resolved
    ensures var b, b' := s.bridge, Run(s, steps).bridge;
            && id in b'.resolved && b'.resolved[id] == b.resolved[id]
            && (!Sent(b, id) ==> !Sent(b', id))
            && b.called <= b'.called && forall k :: |b.called| <= k < |b'.called| ==> b'.called[k].id != id
    decreases |steps|
  {
    hide Inv, Apply;
    if steps != [] {
      var s' := Apply(s, steps[0]);
      ApplyKeeps(s, steps[0]);
      AppliedExtends(s, steps[0]);
      if Sent(s'.bridge, id) {
        var k :| 0 <= k < |s'.bridge.sent| && s'.bridge.sent[k].id == id;
        assert k < |s.bridge.sent| && s.bridge.sent[k].id == id;
      }
      FinishedIsFinal(s', steps[1..], id);
    }
  }

  /** From the start: a call that was answered for while it was held never reaches the host. */
  lemma TimedOutWhileHeld(before: seq<Step>, id: Id, later: seq<Step>)
    requires var b := Run(START, before).bridge; id in b.resolved && !Sent(b, id)
    ensures var t := Run(Run(START, before), later);
            !Sent(t.bridge, id) && forall k :: 0 <= k < |t.host.handled| ==> t.host.handled[k].id != id
  {
    var s := Run(START, before);
    StartInv();
    RunKeeps(START, before);
    FinishedIsFinal(s, later, id);
    RunKeeps(s, later);
    var t := Run(s, later);
    hide Run, FirstAnswer, HasArrived;
    forall k | 0 <= k < |t.host.handled| ensures t.host.handled[k].id != id {
      assert WasSent(t.bridge, t.host.handled[k]);
    }
  }
}
