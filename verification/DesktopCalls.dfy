/** The desktop bridge's held call (src/LogosQmlBridge.cpp:365-473): a deadline, the module becoming reachable, the reply and
    the bridge's own end race for one callback. */
module DesktopCallModel {

  datatype Refusal = IsViewModule | NoApi | NotConnected

  datatype Payload =
    | Refused(why: Refusal)
    | TimedOut
    | NotReachable
    | SourceUnavailable(message: string)
    | InvalidResponse
    | Result(text: string)

  /** What the client reports for a call that was sent. */
  datatype Outcome = Failed(message: string) | Invalid | Value(text: string)

  /** One call and the state its closures share. `sent` counts the times it went out to the module; `answers` is what the
      caller's callback was given. */
  datatype Call = Call(callable: bool, deadlineMs: int, armed: bool, bridgeAlive: bool,
                       fired: bool, sent: nat, answers: seq<Payload>)

  datatype Event = TimerFires | Available(ready: bool) | Replied(outcome: Outcome) | BridgeDestroyed

  /** What a call finds: the module is a view module, there is an API object, the API has a client. */
  datatype World = World(viewModule: bool, api: bool, client: bool)

  const READINESS_FALLBACK_MS := 30000

  function PayloadOf(o: Outcome): Payload {
    match o
    case Failed(message) => SourceUnavailable(message)
    case Invalid => InvalidResponse
    case Value(text) => Result(text)
  }

  function Invoke(c: Call, p: Payload): Call {
    if c.fired then c
    else c.(fired := true, answers := if c.callable then c.answers + [p] else c.answers)
  }

  function Refuse(w: World): Refusal
    requires w.viewModule || !w.api || !w.client
  {
    if w.viewModule then IsViewModule else if !w.api then NoApi else NotConnected
  }

  function Begin(w: World, callable: bool, timeoutMs: int): Call {
    var unarmed := Call(callable, 0, false, true, false, 0, []);
    if w.viewModule || !w.api || !w.client then Invoke(unarmed, Refused(Refuse(w)))
    else unarmed.(armed := true, deadlineMs := if timeoutMs > 0 then timeoutMs else READINESS_FALLBACK_MS)
  }

  function Do(c: Call, e: Event): Call {
    match e
    case TimerFires => if c.armed then Invoke(c.(armed := false), TimedOut) else c
    case Available(ready) =>
      if !c.bridgeAlive || c.fired then c
      else if !ready then Invoke(c, NotReachable)
      else c.(sent := c.sent + 1)
    case Replied(outcome) => if c.sent > 0 then Invoke(c, PayloadOf(outcome)) else c
    case BridgeDestroyed => c.(bridgeAlive := false, armed := false)
  }

  function Play(c: Call, h: seq<Event>): Call
    decreases |h|
  {
    if h == [] then c else Do(Play(c, h[..|h| - 1]), h[|h| - 1])
  }

  // ---- the bridge and its calls ----

  datatype Bridge = Bridge(alive: bool, calls: seq<Call>)

  datatype Step = Ask(world: World, callable: bool, timeoutMs: int) | Happens(call: nat, event: Event) | Destroy

  function DestroyAll(calls: seq<Call>): (gone: seq<Call>)
    ensures |gone| == |calls| && forall i :: 0 <= i < |calls| ==> gone[i] == Do(calls[i], BridgeDestroyed)
  {
    seq(|calls|, i requires 0 <= i < |calls| => Do(calls[i], BridgeDestroyed))
  }

  function Apply(b: Bridge, step: Step): Bridge {
    match step
    case Ask(w, callable, timeoutMs) => if b.alive then b.(calls := b.calls + [Begin(w, callable, timeoutMs)]) else b
    case Happens(id, e) =>
      if id < |b.calls| && e != BridgeDestroyed then b.(calls := b.calls[id := Do(b.calls[id], e)]) else b
    case Destroy => Bridge(false, DestroyAll(b.calls))
  }

  function Run(b: Bridge, steps: seq<Step>): Bridge
    decreases |steps|
  {
    if steps == [] then b else Run(Apply(b, steps[0]), steps[1..])
  }
}

module DesktopCallLaws {
  import opened DesktopCallModel

  // ---- what could answer, told from the history alone ----

  ghost predicate AliveBefore(h: seq<Event>, i: nat)
    requires i <= |h|
  {
    BridgeDestroyed !in h[..i]
  }

  /** The event has an answer to give: the first timer or a refusal while the bridge lives, or a reply after the module was
      reported reachable to a living bridge. */
  ghost predicate Offers(h: seq<Event>, i: nat)
    requires i < |h|
  {
    match h[i]
    case TimerFires => AliveBefore(h, i) && TimerFires !in h[..i]
    case Available(ready) => !ready && AliveBefore(h, i)
    case Replied(_) => exists j: nat :: j < i && h[j] == Available(true) && AliveBefore(h, j)
    case BridgeDestroyed => false
  }

  ghost predicate FirstOffer(h: seq<Event>, i: nat)
    requires i < |h|
  {
    Offers(h, i) && forall j: nat :: j < i ==> !Offers(h, j)
  }

  function Offered(e: Event): Payload {
    match e
    case TimerFires => TimedOut
    case Available(_) => NotReachable
    case Replied(outcome) => PayloadOf(outcome)
    case BridgeDestroyed => TimedOut
  }

  /** The event sends the call to the module. */
  ghost predicate Sends(h: seq<Event>, i: nat)
    requires i < |h|
  {
    h[i] == Available(true) && AliveBefore(h, i) && forall j: nat :: j < i ==> !Offers(h, j)
  }

  ghost predicate Offering(h: seq<Event>) { exists i: nat :: i < |h| && Offers(h, i) }

  ghost predicate Sending(h: seq<Event>) { exists i: nat :: i < |h| && Sends(h, i) }

  ghost predicate Answered(c: Call, h: seq<Event>) {
    && (!c.fired ==> c.answers == [])
    && (forall i: nat :: i < |h| && FirstOffer(h, i) ==> c.answers == if c.callable then [Offered(h[i])] else [])
  }

  ghost predicate Tells(c: Call, h: seq<Event>) {
    && (c.bridgeAlive <==> BridgeDestroyed !in h)
    && (c.armed <==> BridgeDestroyed !in h && TimerFires !in h)
    && (c.fired <==> Offering(h)) && (c.sent > 0 <==> Sending(h)) && Answered(c, h)
  }

  lemma Grows(h: seq<Event>, e: Event, i: nat)
    requires i < |h|
    ensures Offers(h + [e], i) == Offers(h, i)
  {
    var g := h + [e];
    assert g[..i] == h[..i];
    forall j: nat | j < i ensures g[..j] == h[..j] && g[j] == h[j] {
    }
  }

  lemma GrowsAll(h: seq<Event>, e: Event)
    ensures forall i: nat :: i < |h| ==>
      Offers(h + [e], i) == Offers(h, i) && FirstOffer(h + [e], i) == FirstOffer(h, i) && Sends(h + [e], i) == Sends(h, i)
  {
    var g := h + [e];
    forall i: nat | i < |h| ensures Offers(g, i) == Offers(h, i) && g[..i] == h[..i] {
      Grows(h, e, i);
    }
    hide Offers;
  }

  lemma GrowsOffering(h: seq<Event>, e: Event)
    ensures var g := h + [e];
            && (Offering(g) <==> Offering(h) || Offers(g, |h|))
            && (Sending(g) <==> Sending(h) || Sends(g, |h|))
            && (FirstOffer(g, |h|) <==> !Offering(h) && Offers(g, |h|))
  {
    GrowsAll(h, e);
    var g := h + [e];
    hide Offers, Sends;
    if i: nat :| i < |h| && Offers(h, i) {
      assert Offers(g, i);
    }
    if i: nat :| i < |h| && Sends(h, i) {
      assert Sends(g, i);
    }
    if Offering(g) {
      var i: nat :| i < |g| && Offers(g, i);
      assert i == |h| || Offers(h, i);
    }
    if Sending(g) {
      var i: nat :| i < |g| && Sends(g, i);
      assert i == |h| || Sends(h, i);
    }
  }

  /** Where there is an offer there is a first one. */
  lemma {:induction false} HasFirst(h: seq<Event>, i: nat) returns (first: nat)
    requires i < |h| && Offers(h, i)
    ensures first <= i && FirstOffer(h, first)
  {
    if j: nat :| j < i && Offers(h, j) {
      first := HasFirst(h, j);
    } else {
      first := i;
    }
  }

  /** Before anything has offered an answer, a call is sent by every report of reachability to a living bridge. */
  lemma SendingBefore(h: seq<Event>)
    requires !Offering(h)
    ensures Sending(h) <==> exists j: nat :: j < |h| && h[j] == Available(true) && AliveBefore(h, j)
  {
    if j: nat :| j < |h| && h[j] == Available(true) && AliveBefore(h, j) {
      assert Sends(h, j);
    }
  }

  /** A living bridge before some event is the same thing told from the longer history. */
  lemma SameBefore(h: seq<Event>, e: Event, i: nat)
    requires i < |h|
    ensures (h + [e])[..i] == h[..i] && (h + [e])[i] == h[i]
    ensures AliveBefore(h + [e], i) == AliveBefore(h, i)
  {
  }

  lemma LastReplies(h: seq<Event>, o: Outcome)
    requires !Offering(h)
    ensures Offers(h + [Replied(o)], |h|) <==> Sending(h)
  {
    var g := h + [Replied(o)];
    assert g[|h|] == Replied(o);
    SendingBefore(h);
    hide Offering, Sending, AliveBefore;
    forall j: nat | j < |h| ensures g[j] == h[j] && AliveBefore(g, j) == AliveBefore(h, j) {
      SameBefore(h, Replied(o), j);
    }
  }

  /** The last event offers exactly when the call's own state lets it answer. */
  lemma LastOffers(c: Call, h: seq<Event>, e: Event)
    requires Tells(c, h) && !c.fired
    ensures Offers(h + [e], |h|) <==>
            match e
            case TimerFires => c.armed
            case Available(ready) => !ready && c.bridgeAlive
            case Replied(_) => c.sent > 0
            case BridgeDestroyed => false
  {
    var g := h + [e];
    assert g[..|h|] == h && g[|h|] == e;
    hide Answered, Offering, Sending;
    match e
    case Replied(o) => LastReplies(h, o);
    case _ =>
  }

  lemma LastSends(c: Call, h: seq<Event>, e: Event)
    requires Tells(c, h) && !c.fired
    ensures Sends(h + [e], |h|) <==> e == Available(true) && c.bridgeAlive
  {
    var g := h + [e];
    assert g[..|h|] == h && g[|h|] == e;
    hide Answered, Sending, Offers;
    forall i: nat | i < |h| ensures !Offers(g, i) {
      Grows(h, e, i);
    }
  }

  lemma StaysAnswered(c: Call, h: seq<Event>, e: Event)
    requires Tells(c, h) && c.fired
    ensures Answered(c, h + [e]) && !Sends(h + [e], |h|)
  {
    GrowsOffering(h, e);
    GrowsAll(h, e);
    var i: nat :| i < |h| && Offers(h, i);
    assert Offers(h + [e], i);
    hide Offers, FirstOffer;
  }

  lemma NowAnswered(c: Call, h: seq<Event>, e: Event)
    requires !Offering(h) && c.fired == Offers(h + [e], |h|)
    requires c.answers == if c.callable && c.fired then [Offered(e)] else []
    ensures Answered(c, h + [e])
  {
    GrowsAll(h, e);
    hide Offers, Sends;
  }

  lemma Flags(h: seq<Event>, e: Event)
    ensures BridgeDestroyed in h + [e] <==> BridgeDestroyed in h || e == BridgeDestroyed
    ensures TimerFires in h + [e] <==> TimerFires in h || e == TimerFires
  {
  }

  lemma Extend(c: Call, h: seq<Event>, e: Event)
    requires Tells(c, h)
    ensures Tells(Do(c, e), h + [e])
    ensures Do(c, e).sent == c.sent + if Sends(h + [e], |h|) then 1 else 0
  {
    hide Offers, Sends, FirstOffer, Offering, Sending, AliveBefore, Answered;
    Flags(h, e);
    GrowsOffering(h, e);
    if c.fired {
      StaysAnswered(c, h, e);
      assert Answered(Do(c, e), h + [e]) by {
        SameAnswers(c, Do(c, e), h + [e]);
      }
    } else {
      assert c.answers == [] by {
        EmptyYet(c, h);
      }
      LastOffers(c, h, e);
      LastSends(c, h, e);
      NowAnswered(Do(c, e), h, e);
    }
  }

  lemma SameAnswers(c: Call, c': Call, h: seq<Event>)
    requires Answered(c, h) && c'.answers == c.answers && c'.callable == c.callable && c'.fired == c.fired
    ensures Answered(c', h)
  {
  }

  lemma EmptyYet(c: Call, h: seq<Event>)
    requires Answered(c, h) && !c.fired
    ensures c.answers == []
  {
  }

  lemma {:induction false} PlayTells(c: Call, h: seq<Event>)
    requires Tells(c, [])
    ensures Tells(Play(c, h), h) && Play(c, h).callable == c.callable && Play(c, h).deadlineMs == c.deadlineMs
    decreases |h|
  {
    hide Tells;
    if h != [] {
      var g, e := h[..|h| - 1], h[|h| - 1];
      PlayTells(c, g);
      Extend(Play(c, g), g, e);
      assert h == g + [e];
    }
  }

  lemma PlayOne(c: Call, h: seq<Event>, e: Event)
    ensures Play(c, h + [e]) == Do(Play(c, h), e)
  {
    assert (h + [e])[..|h|] == h;
  }

  lemma {:induction false} PlayFrom(c: Call, e: Event, h: seq<Event>)
    ensures Play(c, [e] + h) == Play(Do(c, e), h)
    decreases |h|
  {
    if h == [] {
      assert [e] + h == [] + [e];
      PlayOne(c, [], e);
    } else {
      var n := |h| - 1;
      PlayFrom(c, e, h[..n]);
      assert [e] + h == ([e] + h[..n]) + [h[n]];
      PlayOne(c, [e] + h[..n], h[n]);
    }
  }

  ghost predicate Admits(w: World) { !w.viewModule && w.api && w.client }

  /** The callback is invoked at most once; an admitted call's with what the first event that had an answer offered, and
      never while none has offered one. */
  lemma AnswerLaw(w: World, callable: bool, timeoutMs: int, h: seq<Event>)
    requires Admits(w)
    ensures var c := Play(Begin(w, callable, timeoutMs), h);
            && |c.answers| <= 1
            && (c.fired <==> Offering(h))
            && (!Offering(h) ==> c.answers == [])
            && (forall i: nat :: i < |h| && FirstOffer(h, i) ==> c.answers == if callable then [Offered(h[i])] else [])
  {
    var c := Begin(w, callable, timeoutMs);
    PlayTells(c, h);
    if i: nat :| i < |h| && Offers(h, i) {
      var _ := HasFirst(h, i);
    }
  }

  /** What the caller is told, by what answers first: a timeout; that the module is not reachable; or what the reply brought,
      its text, its error message or that it was no valid response. A callback that cannot be called is told nothing. */
  lemma ToldByKind(w: World, callable: bool, timeoutMs: int, h: seq<Event>, i: nat)
    requires Admits(w) && i < |h| && FirstOffer(h, i)
    ensures var answers := Play(Begin(w, callable, timeoutMs), h).answers;
            if !callable then answers == []
            else
              match h[i]
              case TimerFires => answers == [TimedOut]
              case Available(ready) => !ready && answers == [NotReachable]
              case Replied(Failed(message)) => answers == [SourceUnavailable(message)]
              case Replied(Invalid) => answers == [InvalidResponse]
              case Replied(Value(text)) => answers == [Result(text)]
              case BridgeDestroyed => false
  {
    AnswerLaw(w, callable, timeoutMs, h);
    FirstIsNoFarewell(h, i);
  }

  /** The call goes out exactly at the reports of reachability that reach a living bridge before anything has answered:
      never after the callback has run. */
  lemma SendLaw(w: World, callable: bool, timeoutMs: int, h: seq<Event>, e: Event)
    requires Admits(w)
    ensures var c, c' := Play(Begin(w, callable, timeoutMs), h), Play(Begin(w, callable, timeoutMs), h + [e]);
            && c'.sent == c.sent + (if Sends(h + [e], |h|) then 1 else 0)
            && (c.fired ==> c'.sent == c.sent)
  {
    var c0 := Begin(w, callable, timeoutMs);
    PlayTells(c0, h);
    PlayOne(c0, h, e);
    Extend(Play(c0, h), h, e);
  }

  function Reports(h: seq<Event>): nat { multiset(h)[Available(true)] }

  /** A call whose module is reported reachable at most once goes out at most once. */
  lemma {:induction false} SentAtMostOnce(w: World, callable: bool, timeoutMs: int, h: seq<Event>)
    requires Admits(w)
    ensures Play(Begin(w, callable, timeoutMs), h).sent <= Reports(h)
    decreases |h|
  {
    if h != [] {
      var g, e := h[..|h| - 1], h[|h| - 1];
      SentAtMostOnce(w, callable, timeoutMs, g);
      SendLaw(w, callable, timeoutMs, g, e);
      assert h == g + [e];
    }
  }

  /** Whatever deadline the caller gave, an admitted call that is unanswered has a live timer as long as the bridge lives,
      and that timer answers it: after the caller's deadline if it is positive and thirty seconds if it is not. */
  lemma {:induction false} NeverStranded(w: World, callable: bool, timeoutMs: int, h: seq<Event>)
    requires Admits(w)
    ensures var c := Play(Begin(w, callable, timeoutMs), h);
            && c.deadlineMs == (if timeoutMs > 0 then timeoutMs else 30000)
            && (BridgeDestroyed !in h && !c.fired ==> c.armed)
            && (BridgeDestroyed !in h ==> Play(Begin(w, callable, timeoutMs), h + [TimerFires]).fired)
  {
    var c0 := Begin(w, callable, timeoutMs);
    PlayTells(c0, h);
    PlayOne(c0, h, TimerFires);
    if BridgeDestroyed !in h && TimerFires in h {
      var i := FirstAt(h, TimerFires);
      assert Offers(h, i) by {
        assert forall k :: 0 <= k < i ==> h[..i][k] == h[k];
      }
    }
  }

  lemma {:induction false} FirstAt(h: seq<Event>, e: Event) returns (i: nat)
    requires e in h
    ensures i < |h| && h[i] == e && e !in h[..i]
    decreases |h|
  {
    i := |h| - 1;
    if e in h[..i] {
      var g := h[..i];
      i := FirstAt(g, e);
      assert g[..i] == h[..i];
    }
  }

  /** After the bridge is gone an unanswered call is answered only by the reply to a call that had been sent. */
  lemma {:induction false} AfterTheBridge(c: Call, h: seq<Event>)
    requires !c.bridgeAlive && !c.armed
    ensures var c' := Play(c, h);
            && !c'.bridgeAlive && !c'.armed && c'.sent == c.sent
            && (c'.fired <==> c.fired || (c.sent > 0 && exists i: nat :: i < |h| && h[i].Replied?))
    decreases |h|
  {
    if h != [] {
      var g, e := h[..|h| - 1], h[|h| - 1];
      AfterTheBridge(c, g);
      assert h == g + [e];
      if i: nat :| i < |h| && h[i].Replied? && !e.Replied? {
        assert i < |g| && g[i] == h[i];
      }
      if i: nat :| i < |g| && g[i].Replied? {
        assert h[i] == g[i];
      }
    }
  }

  /** The fallback deadline of a call without one is not cancelled when the call is sent: if it expires first the caller is
      told of a timeout, and the reply, whenever it comes, is dropped. */
  lemma FallbackCapsTheMethod(w: World, timeoutMs: int, later: seq<Event>)
    requires Admits(w) && timeoutMs <= 0
    ensures var c := Play(Begin(w, true, timeoutMs), [Available(true), TimerFires] + later);
            c.deadlineMs == READINESS_FALLBACK_MS && c.answers == [TimedOut] && c.sent == 1
  {
    var c0 := Begin(w, true, timeoutMs);
    PlayFrom(c0, Available(true), [TimerFires] + later);
    assert [Available(true), TimerFires] + later == [Available(true)] + ([TimerFires] + later);
    PlayFrom(Do(c0, Available(true)), TimerFires, later);
    FiredIsFinal(Do(Do(c0, Available(true)), TimerFires), later);
  }

  /** Exactly when a call without a deadline of its own is capped: when the fallback timer is the first event that has an
      answer, whether or not the call had been sent. */
  lemma CappedExactly(w: World, timeoutMs: int, h: seq<Event>)
    requires Admits(w) && timeoutMs <= 0
    ensures Play(Begin(w, true, timeoutMs), h).answers == [TimedOut] <==>
            exists i: nat :: i < |h| && FirstOffer(h, i) && h[i].TimerFires?
  {
    hide Offers, FirstOffer;
    AnswerLaw(w, true, timeoutMs, h);
    if Offering(h) {
      var i := SomeFirst(h);
      assert Offered(h[i]) == TimedOut <==> h[i].TimerFires? by {
        FirstIsNoFarewell(h, i);
      }
      forall j: nat | j < |h| && FirstOffer(h, j) ensures j == i {
        OneFirst(h, i, j);
      }
    } else if j: nat :| j < |h| && FirstOffer(h, j) {
      FirstOffers(h, j);
    }
  }

  lemma SomeFirst(h: seq<Event>) returns (i: nat)
    requires Offering(h)
    ensures i < |h| && FirstOffer(h, i)
  {
    var k: nat :| k < |h| && Offers(h, k);
    i := HasFirst(h, k);
  }

  lemma FirstOffers(h: seq<Event>, i: nat)
    requires i < |h| && FirstOffer(h, i)
    ensures Offering(h)
  {
  }

  lemma OneFirst(h: seq<Event>, i: nat, j: nat)
    requires i < |h| && j < |h| && FirstOffer(h, i) && FirstOffer(h, j)
    ensures i == j
  {
  }

  lemma FirstIsNoFarewell(h: seq<Event>, i: nat)
    requires i < |h| && FirstOffer(h, i)
    ensures !h[i].BridgeDestroyed?
  {
  }

  lemma {:induction false} FiredIsFinal(c: Call, h: seq<Event>)
    requires c.fired
    ensures var c' := Play(c, h);
            c'.fired && c'.answers == c.answers && c'.sent == c.sent && c'.deadlineMs == c.deadlineMs
    decreases |h|
  {
    if h != [] {
      FiredIsFinal(c, h[..|h| - 1]);
    }
  }

  /** A refused call is answered before callModuleAsync returns, and nothing later changes that or sends it. A view module is
      named first, then the missing API, then the missing client. */
  lemma {:induction false} RefusedLaw(w: World, callable: bool, timeoutMs: int, h: seq<Event>)
    requires !Admits(w)
    ensures var c := Play(Begin(w, callable, timeoutMs), h);
            && c.sent == 0 && c.fired && !c.armed
            && (if !callable then c.answers == []
                else if w.viewModule then c.answers == [Refused(IsViewModule)]
                else if !w.api then c.answers == [Refused(NoApi)]
                else c.answers == [Refused(NotConnected)])
    decreases |h|
  {
    if h != [] {
      RefusedLaw(w, callable, timeoutMs, h[..|h| - 1]);
    }
  }

  // ---- many calls on one bridge ----

  /** What happens to one call in a run of the bridge. */
  function Mine(steps: seq<Step>, id: nat): seq<Event>
    decreases |steps|
  {
    if steps == [] then []
    else
      (match steps[0]
       case Ask(_, _, _) => []
       case Happens(k, e) => if k == id && e != BridgeDestroyed then [e] else []
       case Destroy => [BridgeDestroyed])
      + Mine(steps[1..], id)
  }

  /** Calls do not disturb each other: in any run of the bridge each goes through its own events, and so obeys the laws of a
      single call. */
  lemma {:induction false} CallsAreIndependent(b: Bridge, steps: seq<Step>, id: nat)
    requires id < |b.calls|
    ensures var b' := Run(b, steps); |b'.calls| >= |b.calls| && b'.calls[id] == Play(b.calls[id], Mine(steps, id))
    decreases |steps|
  {
    if steps != [] {
      var b1, rest := Apply(b, steps[0]), Mine(steps[1..], id);
      CallsAreIndependent(b1, steps[1..], id);
      match steps[0]
      case Ask(_, _, _) => assert [] + rest == rest;
      case Happens(k, e) =>
        if k == id && e != BridgeDestroyed {
          PlayFrom(b.calls[id], e, rest);
        } else {
          assert [] + rest == rest;
        }
      case Destroy => PlayFrom(b.calls[id], BridgeDestroyed, rest);
    }
  }

  /** So the laws above hold of every call a living bridge is asked for: in any run that follows, it goes through its own events
      from where it began. */
  lemma AskedCall(b: Bridge, w: World, callable: bool, timeoutMs: int, steps: seq<Step>)
    requires b.alive
    ensures var id, t := |b.calls|, Run(b, [Ask(w, callable, timeoutMs)] + steps);
            id < |t.calls| && t.calls[id] == Play(Begin(w, callable, timeoutMs), Mine(steps, id))
  {
    var ask := Ask(w, callable, timeoutMs);
    assert ([ask] + steps)[1..] == steps;
    CallsAreIndependent(Apply(b, ask), steps, |b.calls|);
  }
}

/** One call as the closures that share its flag. */
module DesktopCallObjects {
  import opened DesktopCallModel

  class DesktopCall {
    const callable: bool
    const deadlineMs: int
    var armed: bool
    var bridgeAlive: bool
    var fired: bool
    ghost var sent: nat
    ghost var answers: seq<Payload>

    ghost function View(): Call
      reads this
    {
      Call(callable, deadlineMs, armed, bridgeAlive, fired, sent, answers)
    }

    /** callModuleAsync(): refuses at once, or arms a timer and waits for the module. */
    constructor (w: World, callable: bool, timeoutMs: int)
      ensures View() == Begin(w, callable, timeoutMs)
    {
      this.callable := callable;
      armed, bridgeAlive, fired, sent, answers := false, true, false, 0, [];
      var admitted := !w.viewModule && w.api && w.client;
      deadlineMs := if !admitted then 0 else if timeoutMs > 0 then timeoutMs else READINESS_FALLBACK_MS;
      new;
      if w.viewModule {
        InvokeCallback(Refused(IsViewModule));
        return;
      }
      if !w.api {
        InvokeCallback(Refused(NoApi));
        return;
      }
      if !w.client {
        InvokeCallback(Refused(NotConnected));
        return;
      }
      armed := true;
    }

    method InvokeCallback(payload: Payload)
      modifies this`fired, this`answers
      ensures View() == Invoke(old(View()), payload)
    {
      if fired { return; }
      fired := true;
      if callable {
        answers := answers + [payload];
      }
    }

    method OnTimer()
      modifies this
      ensures View() == Do(old(View()), TimerFires)
    {
      if armed {
        armed := false;
        InvokeCallback(TimedOut);
      }
    }

    method OnAvailable(ready: bool)
      modifies this
      ensures View() == Do(old(View()), Available(ready))
    {
      if !bridgeAlive { return; }
      if fired { return; }
      if !ready {
        InvokeCallback(NotReachable);
        return;
      }
      sent := sent + 1;
    }

    method OnResult(outcome: Outcome)
      requires sent > 0
      modifies this
      ensures View() == Do(old(View()), Replied(outcome))
    {
      match outcome
      case Failed(message) => InvokeCallback(SourceUnavailable(message));
      case Invalid => InvokeCallback(InvalidResponse);
      case Value(text) => InvokeCallback(Result(text));
    }

    method OnBridgeDestroyed()
      modifies this
      ensures View() == Do(old(View()), BridgeDestroyed)
    {
      bridgeAlive, armed := false, false;
    }
  }
}
