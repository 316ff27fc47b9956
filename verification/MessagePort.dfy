/** The loopback message port (src/LogosMessagePort.cpp).

    The first module describes one channel, both halves and the event queue they share, as a value
    with one function for each operation. The second proves what every run of it keeps. The
    third holds the port itself: an object with a peer pointer, flags and a backlog. */
module Wire {
  import opened Sequences

  datatype End = Left | Right {
    function Peer(): End { if this == Left then Right else Left }
  }

  /** A queued closure: a message on its way, a released backlog, or the news that the peer closed. */
  datatype Event =
    | Deliver(to: End, message: Bytes)
    | Flush(to: End, released: seq<Bytes>)
    | PeerClose(to: End)

  /** One end. `open`, `started` and `backlog` are its state; the rest is the history of what
      its signals and callers saw: the messages emitted, how often closed() was
      emitted, the messages its peer was allowed to post to it, and the sizes of backlog
      and traffic in flight at the moment start() took effect. */
  datatype Half = Half(
    open: bool, started: bool, backlog: seq<Bytes>,
    received: seq<Bytes>, closes: nat, accepted: seq<Bytes>, held: nat, flying: nat)

  datatype Channel = Channel(left: Half, right: Half, events: seq<Event>) {
    function At(e: End): Half { if e == Left then left else right }

    function With(e: End, h: Half): Channel {
      if e == Left then this.(left := h) else this.(right := h)
    }

    function Queue(ev: Event): Channel { this.(events := events + [ev]) }

    predicate IsOpen(e: End) { At(e).open && At(e.Peer()).open }
  }

  const UNUSED := Half(true, false, [], [], 0, [], 0, 0)
  /** What is left of an end that has been deleted. */
  const GONE := UNUSED.(open := false, closes := 1)

  const FRESH := Channel(UNUSED, UNUSED, [])

  // ---- what is on its way ----

  function Carried(ev: Event, e: End): seq<Bytes> {
    match ev
    case Deliver(to, m) => if to == e then [m] else []
    case Flush(to, ms) => if to == e then ms else []
    case PeerClose(_) => []
  }

  function InFlight(events: seq<Event>, e: End): seq<Bytes> {
    if events == [] then [] else Carried(events[0], e) + InFlight(events[1..], e)
  }

  lemma {:induction false} InFlightAppend(events: seq<Event>, ev: Event, e: End)
    ensures InFlight(events + [ev], e) == InFlight(events, e) + Carried(ev, e)
  {
    if events == [] {
      assert [ev][1..] == [];
    } else {
      assert (events + [ev])[1..] == events[1..] + [ev];
      InFlightAppend(events[1..], ev, e);
    }
  }

  // ---- the operations ----

  function Post(w: Channel, from: End, m: Bytes): Channel {
    if !w.IsOpen(from) then w
    else
      var to := from.Peer();
      w.With(to, w.At(to).(accepted := w.At(to).accepted + [m])).Queue(Deliver(to, m))
  }

  function Start(w: Channel, e: End): Channel {
    var h := w.At(e);
    if h.started then w
    else
      var w' := w.With(e, Opened(h, |InFlight(w.events, e)|));
      if h.backlog == [] then w' else w'.Queue(Flush(e, h.backlog))
  }

  function Opened(h: Half, flying: nat): Half {
    h.(started := true, backlog := [], held := |h.backlog|, flying := flying)
  }

  function Close(w: Channel, e: End): Channel {
    var h := w.At(e);
    if !h.open then w
    else w.With(e, h.(open := false, closes := h.closes + 1)).Queue(PeerClose(e.Peer()))
  }

  function Arrive(h: Half, m: Bytes): Half {
    if !h.open then h
    else if !h.started then h.(backlog := h.backlog + [m])
    else h.(received := h.received + [m])
  }

  function Release(h: Half, ms: seq<Bytes>): Half {
    if !h.open then h else h.(received := h.received + ms)
  }

  /** One turn of the event loop. */
  function Turn(w: Channel): Channel {
    if w.events == [] then w
    else
      var rest := w.(events := w.events[1..]);
      match w.events[0]
      case Deliver(to, m) => rest.With(to, Arrive(rest.At(to), m))
      case Flush(to, ms) => rest.With(to, Release(rest.At(to), ms))
      case PeerClose(to) => Close(rest, to)
  }

  datatype Step = DoPost(from: End, message: Bytes) | DoStart(end: End) | DoClose(end: End) | DoTurn

  function Apply(w: Channel, s: Step): Channel {
    match s
    case DoPost(from, m) => Post(w, from, m)
    case DoStart(e) => Start(w, e)
    case DoClose(e) => Close(w, e)
    case DoTurn => Turn(w)
  }

  function Run(w: Channel, steps: seq<Step>): Channel
    decreases |steps|
  {
    if steps == [] then w else Run(Apply(w, steps[0]), steps[1..])
  }
}

module WireLaws {
  import opened Sequences
  import opened Wire

  /** The order in which an end that was started with `held` messages in its backlog and
      `flying` in the event queue hears what was posted to it: the flying ones, then the
      backlog, then everything posted later. */
  function Arrival(posted: seq<Bytes>, held: nat, flying: nat): seq<Bytes>
    requires held + flying <= |posted|
  {
    posted[held..held + flying] + posted[..held] + posted[held + flying..]
  }

  predicate NoFlush(events: seq<Event>, e: End) {
    forall i :: 0 <= i < |events| ==> !(events[i].Flush? && events[i].to == e)
  }

  /** What holds of one end, given the messages on their way to it. */
  predicate HalfInv(h: Half, onWay: seq<Bytes>) {
    && h.closes == (if h.open then 0 else 1)
    && (if h.started then
          && h.backlog == [] && h.held + h.flying <= |h.accepted|
          && h.received <= Arrival(h.accepted, h.held, h.flying)
          && (h.open ==> h.received + onWay == Arrival(h.accepted, h.held, h.flying))
        else
          && h.received == [] && h.held == 0 && h.flying == 0
          && |h.backlog| + |onWay| <= |h.accepted|
          && (h.open ==> h.backlog + onWay == h.accepted))
  }

  /** What holds of one end of a channel: besides the above, no backlog is on its way to an end that
      still keeps one, and an end that outlives its peer will hear of the close. */
  ghost predicate EndInv(w: Channel, e: End) {
    && HalfInv(w.At(e), InFlight(w.events, e))
    && (!w.At(e).started ==> NoFlush(w.events, e))
    && (w.At(e).open && !w.At(e.Peer()).open ==> PeerClose(e) in w.events)
    && (w.At(e.Peer()).open ==> PeerClose(e) !in w.events)
  }

  ghost predicate Inv(w: Channel) {
    EndInv(w, Left) && EndInv(w, Right)
  }

  // ---- one end under each operation ----

  lemma PostHalf(h: Half, onWay: seq<Bytes>, m: Bytes)
    requires HalfInv(h, onWay) && h.open
    ensures HalfInv(h.(accepted := h.accepted + [m]), onWay + [m])
  {
    if h.started {
      assert Arrival(h.accepted + [m], h.held, h.flying) == Arrival(h.accepted, h.held, h.flying) + [m];
      assert h.received + onWay + [m] == h.received + (onWay + [m]);
    } else {
      assert h.backlog + onWay + [m] == h.backlog + (onWay + [m]);
    }
  }

  lemma StartHalf(h: Half, onWay: seq<Bytes>)
    requires HalfInv(h, onWay) && !h.started
    ensures HalfInv(Opened(h, |onWay|), onWay + h.backlog)
  {
    if h.open {
      var b := |h.backlog|;
      assert h.accepted[..b] == h.backlog && h.accepted[b..b + |onWay|] == onWay;
      assert Arrival(h.accepted, b, |onWay|) == onWay + h.backlog;
    }
  }

  lemma ArriveHalf(h: Half, m: Bytes, onWay: seq<Bytes>)
    requires HalfInv(h, [m] + onWay)
    ensures HalfInv(Arrive(h, m), onWay)
  {
    assert h.received + [m] + onWay == h.received + ([m] + onWay);
    assert h.backlog + [m] + onWay == h.backlog + ([m] + onWay);
  }

  lemma ReleaseHalf(h: Half, ms: seq<Bytes>, onWay: seq<Bytes>)
    requires HalfInv(h, ms + onWay) && h.started
    ensures HalfInv(Release(h, ms), onWay)
  {
    assert h.received + ms + onWay == h.received + (ms + onWay);
  }

  lemma CloseHalf(h: Half, onWay: seq<Bytes>)
    requires HalfInv(h, onWay) && h.open
    ensures HalfInv(h.(open := false, closes := h.closes + 1), onWay)
  {
  }

  // ---- the channel under each operation ----

  /** Queueing an event that carries nothing to `e` leaves what is on its way to `e` alone. */
  lemma NotForMe(events: seq<Event>, ev: Event, e: End)
    requires Carried(ev, e) == []
    ensures InFlight(events + [ev], e) == InFlight(events, e)
  {
    InFlightAppend(events, ev, e);
    assert InFlight(events, e) + [] == InFlight(events, e);
  }

  lemma PostKeeps(w: Channel, from: End, m: Bytes)
    requires Inv(w)
    ensures Inv(Post(w, from, m))
  {
    hide HalfInv, InFlight;
    if w.IsOpen(from) {
      var to, w' := from.Peer(), Post(w, from, m);
      assert EndInv(w, from) && EndInv(w, to);
      assert EndInv(w', from) by {
        NotForMe(w.events, Deliver(to, m), from);
      }
      assert EndInv(w', to) by {
        InFlightAppend(w.events, Deliver(to, m), to);
        PostHalf(w.At(to), InFlight(w.events, to), m);
      }
    }
  }

  lemma StartKeeps(w: Channel, e: End)
    requires Inv(w)
    ensures Inv(Start(w, e))
  {
    hide HalfInv, InFlight;
    var h, onWay := w.At(e), InFlight(w.events, e);
    assert EndInv(w, e) && EndInv(w, e.Peer());
    if !h.started {
      StartHalf(h, onWay);
      var w' := w.With(e, Opened(h, |onWay|));
      if h.backlog == [] {
        assert onWay + h.backlog == onWay;
        assert EndInv(w', e) && EndInv(w', e.Peer());
      } else {
        FlushKeeps(w', e, h.backlog);
      }
    }
  }

  lemma FlushKeeps(w: Channel, e: End, ms: seq<Bytes>)
    requires EndInv(w, e.Peer()) && w.At(e).started
    requires HalfInv(w.At(e), InFlight(w.events, e) + ms)
    requires w.At(e).open && !w.At(e.Peer()).open ==> PeerClose(e) in w.events
    requires w.At(e.Peer()).open ==> PeerClose(e) !in w.events
    ensures Inv(w.Queue(Flush(e, ms)))
  {
    hide HalfInv, InFlight;
    var w' := w.Queue(Flush(e, ms));
    assert EndInv(w', e.Peer()) by {
      NotForMe(w.events, Flush(e, ms), e.Peer());
    }
    assert EndInv(w', e) by {
      InFlightAppend(w.events, Flush(e, ms), e);
    }
  }

  /** Closing also repairs an end whose news of its peer's close has just left the queue. */
  lemma CloseKeeps(w: Channel, e: End)
    requires EndInv(w, e.Peer()) && HalfInv(w.At(e), InFlight(w.events, e))
    requires !w.At(e).started ==> NoFlush(w.events, e)
    requires w.At(e.Peer()).open ==> PeerClose(e) !in w.events
    ensures Inv(Close(w, e))
  {
    hide HalfInv, InFlight;
    var p, w' := e.Peer(), Close(w, e);
    if w.At(e).open {
      assert EndInv(w', p) by {
        NotForMe(w.events, PeerClose(p), p);
        assert w'.events[|w.events|] == PeerClose(p);
      }
      assert EndInv(w', e) by {
        NotForMe(w.events, PeerClose(p), e);
        CloseHalf(w.At(e), InFlight(w.events, e));
      }
    } else {
      assert EndInv(w, e);
    }
  }

  /** The head of the queue means nothing to the end it is not for. */
  lemma PoppedPeer(w: Channel, p: End)
    requires EndInv(w, p) && w.events != [] && w.events[0].to != p
    ensures EndInv(w.(events := w.events[1..]), p)
  {
    hide HalfInv;
    var ev, rest := w.events[0], w.events[1..];
    assert w.events == [ev] + rest;
    assert InFlight(w.events, p) == InFlight(rest, p) by {
      assert [] + InFlight(rest, p) == InFlight(rest, p);
    }
    hide InFlight;
    assert PeerClose(p) in w.events <==> PeerClose(p) in rest;
    assert forall i :: 0 <= i < |rest| ==> rest[i] == w.events[i + 1];
  }

  /** What remains when the head of the queue is taken off. */
  lemma Popped(w: Channel)
    requires Inv(w) && w.events != []
    ensures var ev, rest := w.events[0], w.(events := w.events[1..]);
            && EndInv(rest, ev.to.Peer())
            && HalfInv(w.At(ev.to), Carried(ev, ev.to) + InFlight(rest.events, ev.to))
            && (ev.Flush? ==> w.At(ev.to).started)
            && (!w.At(ev.to).started ==> NoFlush(rest.events, ev.to))
            && (!ev.PeerClose? && w.At(ev.to).open && !w.At(ev.to.Peer()).open ==> PeerClose(ev.to) in rest.events)
            && (w.At(ev.to.Peer()).open ==> PeerClose(ev.to) !in rest.events)
  {
    hide HalfInv;
    var ev, rest := w.events[0], w.events[1..];
    assert EndInv(w, ev.to) && EndInv(w, ev.to.Peer());
    PoppedPeer(w, ev.to.Peer());
    assert w.events == [ev] + rest;
    assert PeerClose(ev.to) in w.events ==> ev.PeerClose? || PeerClose(ev.to) in rest;
    assert PeerClose(ev.to) in rest ==> PeerClose(ev.to) in w.events;
    assert forall i :: 0 <= i < |rest| ==> rest[i] == w.events[i + 1];
  }

  /** Hearing a message opens, starts and closes nothing. */
  lemma HearKeeps(w: Channel, to: End, h: Half)
    requires EndInv(w, to.Peer()) && HalfInv(h, InFlight(w.events, to))
    requires h.open == w.At(to).open && h.started == w.At(to).started
    requires !h.started ==> NoFlush(w.events, to)
    requires h.open && !w.At(to.Peer()).open ==> PeerClose(to) in w.events
    requires w.At(to.Peer()).open ==> PeerClose(to) !in w.events
    ensures Inv(w.With(to, h))
  {
    hide HalfInv, InFlight;
    assert EndInv(w.With(to, h), to) && EndInv(w.With(to, h), to.Peer());
  }

  lemma TurnKeeps(w: Channel)
    requires Inv(w)
    ensures Inv(Turn(w))
  {
    hide HalfInv, InFlight;
    if w.events != [] {
      Popped(w);
      var ev, rest := w.events[0], w.(events := w.events[1..]);
      var to, onWay := ev.to, InFlight(rest.events, ev.to);
      match ev
      case Deliver(_, m) =>
        ArriveHalf(w.At(to), m, onWay);
        HearKeeps(rest, to, Arrive(w.At(to), m));
      case Flush(_, ms) =>
        ReleaseHalf(w.At(to), ms, onWay);
        HearKeeps(rest, to, Release(w.At(to), ms));
      case PeerClose(_) =>
        assert [] + onWay == onWay;
        CloseKeeps(rest, to);
    }
  }

  lemma ApplyKeeps(w: Channel, s: Step)
    requires Inv(w)
    ensures Inv(Apply(w, s))
  {
    match s
    case DoPost(from, m) => PostKeeps(w, from, m);
    case DoStart(e) => StartKeeps(w, e);
    case DoClose(e) => CloseKeeps(w, e);
    case DoTurn => TurnKeeps(w);
  }

  lemma {:induction false} RunKeeps(w: Channel, steps: seq<Step>)
    requires Inv(w)
    ensures Inv(Run(w, steps))
    decreases |steps|
  {
    if steps != [] {
      ApplyKeeps(w, steps[0]);
      RunKeeps(Apply(w, steps[0]), steps[1..]);
    }
  }

  // ---- what holds of every run ----

  lemma FreshInv()
    ensures Inv(FRESH)
  {
    assert EndInv(FRESH, Left) && EndInv(FRESH, Right);
  }

  lemma Reached(steps: seq<Step>, e: End)
    ensures Inv(Run(FRESH, steps)) && EndInv(Run(FRESH, steps), e)
  {
    FreshInv();
    RunKeeps(FRESH, steps);
  }

  lemma UnstartedHeardNothing(w: Channel, e: End)
    requires Inv(w) && !w.At(e).started
    ensures w.At(e).received == []
  {
    assert EndInv(w, e);
  }

  /** The whole law of delivery. An end that has not been started has heard nothing and is owed
      exactly what was posted to it; a started one has heard a prefix of the arrival order and,
      while it stays open, is still owed precisely the rest. */
  lemma DeliveryLaw(steps: seq<Step>, e: End)
    ensures var w := Run(FRESH, steps); var h := w.At(e);
            && (!h.started ==>
                  && h.received == [] && h.held == 0 && h.flying == 0
                  && (h.open ==> h.backlog + InFlight(w.events, e) == h.accepted))
            && (h.started ==>
                  && h.held + h.flying <= |h.accepted|
                  && h.received <= Arrival(h.accepted, h.held, h.flying)
                  && (h.open ==> h.received + InFlight(w.events, e) == Arrival(h.accepted, h.held, h.flying)))
  {
    Reached(steps, e);
  }

  /** The arrival order loses and repeats nothing ... */
  lemma ArrivalKeepsAll(posted: seq<Bytes>, held: nat, flying: nat)
    requires held + flying <= |posted|
    ensures multiset(Arrival(posted, held, flying)) == multiset(posted)
  {
    var w, d, rest := posted[..held], posted[held..held + flying], posted[held + flying..];
    assert posted == w + d + rest;
  }

  /** ... and, for messages that can be told apart, is the posting order exactly when the start
      found the backlog empty or nothing in flight. */
  lemma ArrivalInOrder(posted: seq<Bytes>, held: nat, flying: nat)
    requires held + flying <= |posted|
    ensures held == 0 || flying == 0 ==> Arrival(posted, held, flying) == posted
    ensures Distinct(posted) && Arrival(posted, held, flying) == posted ==> held == 0 || flying == 0
  {
    if held == 0 || flying == 0 {
      assert posted == posted[..held] + posted[held..held + flying] + posted[held + flying..];
    } else {
      assert Arrival(posted, held, flying)[0] == posted[held];
    }
  }

  lemma {:induction false} StartSticks(w: Channel, steps: seq<Step>, e: End)
    requires w.At(e).started
    ensures var h, t := w.At(e), Run(w, steps).At(e);
            t.started && t.held == h.held && t.flying == h.flying && h.accepted <= t.accepted
    decreases |steps|
  {
    hide InFlight;
    if steps != [] {
      StartSticks(Apply(w, steps[0]), steps[1..], e);
    }
  }

  lemma ArrivalOf(W: seq<Bytes>, D: seq<Bytes>, later: seq<Bytes>)
    ensures Arrival(W + D + later, |W|, |D|) == D + W + later
  {
    var posted := W + D + later;
    assert posted[|W|..|W| + |D|] == D && posted[..|W|] == W && posted[|W| + |D|..] == later;
  }

  /** start() with W in the backlog and D in the event loop: the end hears D, then W, then
      what is posted later, whatever happens afterwards. */
  lemma StartLaw(before: seq<Step>, e: End, later: seq<Step>)
    requires !Run(FRESH, before).At(e).started && Run(FRESH, before).At(e).open
    ensures var w := Run(FRESH, before); var t := Run(Start(w, e), later);
            var D, W := InFlight(w.events, e), w.At(e).backlog;
            && t.At(e).started && w.At(e).accepted <= t.At(e).accepted
            && var order := D + W + t.At(e).accepted[|w.At(e).accepted|..];
            && t.At(e).received <= order
            && (t.At(e).open ==> t.At(e).received + InFlight(t.events, e) == order)
  {
    var w := Run(FRESH, before);
    Reached(before, e);
    StartKeeps(w, e);
    StartLawFrom(w, e, later);
  }

  lemma StartLawFrom(w: Channel, e: End, later: seq<Step>)
    requires EndInv(w, e) && !w.At(e).started && w.At(e).open && Inv(Start(w, e))
    ensures var t := Run(Start(w, e), later);
            var D, W := InFlight(w.events, e), w.At(e).backlog;
            && t.At(e).started && w.At(e).accepted <= t.At(e).accepted
            && var order := D + W + t.At(e).accepted[|w.At(e).accepted|..];
            && t.At(e).received <= order
            && (t.At(e).open ==> t.At(e).received + InFlight(t.events, e) == order)
  {
    hide InFlight, Run, Inv;
    var s, t, D := Start(w, e), Run(Start(w, e), later), InFlight(w.events, e);
    StartSticks(s, later, e);
    assert EndInv(t, e) by {
      RunKeeps(s, later);
      EitherEnd(t, e);
    }
    OwedAfterStart(t.At(e), InFlight(t.events, e), w.At(e).backlog, D);
  }

  lemma EitherEnd(w: Channel, e: End)
    requires Inv(w)
    ensures EndInv(w, e)
  {
  }

  lemma OwedAfterStart(h: Half, onWay: seq<Bytes>, W: seq<Bytes>, D: seq<Bytes>)
    requires HalfInv(h, onWay) && h.started && h.held == |W| && h.flying == |D| && W + D <= h.accepted
    ensures var order := D + W + h.accepted[|W + D|..];
            h.received <= order && (h.open ==> h.received + onWay == order)
  {
    var later := h.accepted[|W + D|..];
    assert h.accepted == W + D + later;
    ArrivalOf(W, D, later);
  }

  // ---- closing ----

  function OpenEnds(w: Channel): nat {
    (if w.left.open then 1 else 0) + (if w.right.open then 1 else 0)
  }

  /** The loop with nobody left to post: it stops, since a close that queues an event uses up an
      open end. */
  function Drain(w: Channel): Channel
    decreases |w.events| + OpenEnds(w)
  {
    if w.events == [] then w else Drain(Turn(w))
  }

  function Turns(n: nat): seq<Step> { seq(n, _ => DoTurn) }

  /** Draining takes at most one turn for each queued event and each open end. */
  lemma {:induction false} DrainIsShort(w: Channel)
    ensures exists n: nat :: n <= |w.events| + OpenEnds(w) && Drain(w) == Run(w, Turns(n))
    decreases |w.events| + OpenEnds(w)
  {
    if w.events == [] {
      assert Drain(w) == Run(w, Turns(0));
    } else {
      DrainIsShort(Turn(w));
      var n: nat :| n <= |Turn(w).events| + OpenEnds(Turn(w)) && Drain(Turn(w)) == Run(Turn(w), Turns(n));
      assert Turns(n + 1)[1..] == Turns(n);
      assert Drain(w) == Run(w, Turns(n + 1));
    }
  }

  lemma {:induction false} DrainEmpties(w: Channel)
    requires Inv(w)
    ensures Drain(w).events == [] && Inv(Drain(w))
    decreases |w.events| + OpenEnds(w)
  {
    hide HalfInv, InFlight;
    if w.events != [] {
      TurnKeeps(w);
      DrainEmpties(Turn(w));
    }
  }

  /** closed() is emitted once by an end that closed and never by one that did not; when the loop has run dry both
      ends agree, and an end that is started and still open has heard everything. */
  lemma ClosingLaw(steps: seq<Step>, e: End)
    ensures var w := Run(FRESH, steps);
            && w.At(e).closes == (if w.At(e).open then 0 else 1)
            && Drain(w).events == []
            && Drain(w).left.open == Drain(w).right.open
            && (var h := Drain(w).At(e); h.started && h.open ==>
                 h.held + h.flying <= |h.accepted| && h.received == Arrival(h.accepted, h.held, h.flying))
  {
    Reached(steps, e);
    Drained(Run(FRESH, steps), e);
  }

  lemma Drained(w: Channel, e: End)
    requires Inv(w)
    ensures Drain(w).events == [] && Drain(w).left.open == Drain(w).right.open
    ensures var h := Drain(w).At(e); h.started && h.open ==>
              h.held + h.flying <= |h.accepted| && h.received == Arrival(h.accepted, h.held, h.flying)
  {
    DrainEmpties(w);
    assert EndInv(Drain(w), e) && EndInv(Drain(w), Left) && EndInv(Drain(w), Right);
    assert Drain(w).At(e).received + [] == Drain(w).At(e).received;
  }

  lemma {:induction false} RunThen(w: Channel, steps: seq<Step>, s: Step)
    ensures Run(w, steps + [s]) == Apply(Run(w, steps), s)
    decreases |steps|
  {
    hide Apply;
    if steps == [] {
      assert [] + [s] == [s];
      assert Run(Apply(w, s), [s][1..]) == Apply(w, s);
    } else {
      assert (steps + [s])[0] == steps[0] && (steps + [s])[1..] == steps[1..] + [s];
      RunThen(Apply(w, steps[0]), steps[1..], s);
    }
  }

  predicate SameSoFar(h: Half, t: Half) {
    t.open == h.open && t.started == h.started && t.accepted == h.accepted && t.held == h.held && t.flying == h.flying
  }

  lemma OpenTurn(w: Channel)
    requires Inv(w) && w.left.open && w.right.open
    ensures SameSoFar(w.left, Turn(w).left) && SameSoFar(w.right, Turn(w).right)
  {
    hide HalfInv, InFlight;
    if w.events != [] {
      assert w.events[0] in w.events;
    }
  }

  /** An open channel with nobody acting on it stays open. */
  lemma {:induction false} OpenDrain(w: Channel)
    requires Inv(w) && w.left.open && w.right.open
    ensures SameSoFar(w.left, Drain(w).left) && SameSoFar(w.right, Drain(w).right)
    decreases |w.events| + OpenEnds(w)
  {
    hide Inv, InFlight;
    if w.events != [] {
      TurnKeeps(w);
      OpenTurn(w);
      OpenDrain(Turn(w));
    }
  }

  /** What post() takes is heard: it takes a message exactly if both ends are open, leaves the poster as it was, and an end that
      has been started hears the message behind everything else once the event loop has run dry. */
  lemma PostedIsHeard(steps: seq<Step>, from: End, m: Bytes)
    ensures var w, to := Run(FRESH, steps), from.Peer(); var w' := Post(w, from, m);
            && w'.At(to).accepted == w.At(to).accepted + (if w.left.open && w.right.open then [m] else [])
            && w'.At(from) == w.At(from)
            && (w.left.open && w.right.open && w.At(to).started ==>
                  var h, t := w.At(to), Drain(w').At(to);
                  && h.held + h.flying <= |h.accepted| && t.open
                  && t.received == Arrival(h.accepted, h.held, h.flying) + [m])
  {
    var w := Run(FRESH, steps);
    PostAccepts(w, from, m);
    Reached(steps, from);
    hide Run, Drain, Inv, InFlight, Post, Arrival;
    if w.left.open && w.right.open && w.At(from.Peer()).started {
      PostedOn(w, from, m);
    }
  }

  lemma PostedOn(w: Channel, from: End, m: Bytes)
    requires Inv(w) && w.left.open && w.right.open && w.At(from.Peer()).started
    ensures var h, t := w.At(from.Peer()), Drain(Post(w, from, m)).At(from.Peer());
            && h.held + h.flying <= |h.accepted| && t.open
            && t.received == Arrival(h.accepted, h.held, h.flying) + [m]
  {
    PostAccepts(w, from, m);
    PostKeeps(w, from, m);
    EitherEnd(w, from.Peer());
    hide Run, Drain, Inv, InFlight, Post, Arrival;
    Drained(Post(w, from, m), from.Peer());
    OpenDrain(Post(w, from, m));
    HeardLast(w.At(from.Peer()), Drain(Post(w, from, m)).At(from.Peer()), m);
  }

  lemma PostAccepts(w: Channel, from: End, m: Bytes)
    ensures var to, w' := from.Peer(), Post(w, from, m);
            if w.left.open && w.right.open
            then w' == w.With(to, w.At(to).(accepted := w.At(to).accepted + [m])).Queue(Deliver(to, m))
            else w' == w
  {
  }

  lemma HeardLast(h: Half, t: Half, m: Bytes)
    requires h.held + h.flying <= |h.accepted| && t.accepted == h.accepted + [m]
    requires t.held == h.held && t.flying == h.flying && t.received == Arrival(t.accepted, t.held, t.flying)
    ensures t.received == Arrival(h.accepted, h.held, h.flying) + [m]
  {
  }

  lemma {:induction false} ShutDrain(w: Channel, e: End)
    requires !w.At(e).open
    ensures !Drain(w).At(e).open
    decreases |w.events| + OpenEnds(w)
  {
    if w.events != [] {
      ShutDrain(Turn(w), e);
    }
  }

  /** close() reaches both ends: the one that closes is closed at once, and when the event loop has run dry so is its peer, each
      having said closed() once. */
  lemma CloseReachesBoth(steps: seq<Step>, e: End)
    ensures var w := Run(FRESH, steps); var t := Drain(Close(w, e));
            && !Close(w, e).At(e).open && Close(w, e).At(e.Peer()) == w.At(e.Peer())
            && !t.left.open && !t.right.open && t.left.closes == 1 && t.right.closes == 1
  {
    var w := Run(FRESH, steps);
    RunThen(FRESH, steps, DoClose(e));
    ClosingLaw(steps + [DoClose(e)], e);
    Reached(steps + [DoClose(e)], e);
    DrainEmpties(Close(w, e));
    ShutDrain(Close(w, e), e);
    hide Run, Drain, InFlight;
  }

  /** A started end whose peer has closed will have heard `order`, and no more, by the time it is told of the close. */
  ghost predicate Winding(w: Channel, e: End, order: seq<Bytes>) {
    var h := w.At(e);
    && h.started && !w.At(e.Peer()).open
    && (if h.open then exists k: nat :: NewsAt(w.events, e, k) && h.received + InFlight(w.events[..k], e) == order
        else h.received == order)
  }

  predicate NewsAt(events: seq<Event>, e: End, k: nat) {
    k < |events| && events[k] == PeerClose(e) && PeerClose(e) !in events[..k]
  }

  lemma WindingQueue(w: Channel, e: End, ev: Event, order: seq<Bytes>)
    requires Winding(w, e, order)
    ensures Winding(w.Queue(ev), e, order)
  {
    if w.At(e).open {
      var k: nat :| NewsAt(w.events, e, k) && w.At(e).received + InFlight(w.events[..k], e) == order;
      assert (w.events + [ev])[..k] == w.events[..k];
      assert NewsAt(w.Queue(ev).events, e, k);
    }
  }

  lemma WindingTurn(w: Channel, e: End, order: seq<Bytes>)
    requires Winding(w, e, order) && w.events != []
    ensures Winding(Turn(w), e, order)
  {
    var ev, rest, h := w.events[0], w.events[1..], w.At(e);
    if h.open {
      var k: nat :| NewsAt(w.events, e, k) && h.received + InFlight(w.events[..k], e) == order;
      if k == 0 {
        assert h.received + [] == h.received;
      } else {
        assert w.events[..k] == [ev] + rest[..k - 1];
        assert InFlight(w.events[..k], e) == Carried(ev, e) + InFlight(rest[..k - 1], e) by {
          assert w.events[..k][1..] == rest[..k - 1];
        }
        assert NewsAt(rest, e, k - 1) && ev != PeerClose(e);
        WindingHear(w, e, k - 1, order);
      }
    }
  }

  lemma WindingHear(w: Channel, e: End, k: nat, order: seq<Bytes>)
    requires w.At(e).started && !w.At(e.Peer()).open && w.At(e).open && w.events != [] && w.events[0] != PeerClose(e)
    requires NewsAt(w.events[1..], e, k)
    requires w.At(e).received + (Carried(w.events[0], e) + InFlight(w.events[1..][..k], e)) == order
    ensures Winding(Turn(w), e, order)
  {
    hide InFlight;
    var ev, rest, h := w.events[0], w.events[1..], w.At(e);
    assert h.received + Carried(ev, e) + InFlight(rest[..k], e) == order;
    assert h.received + [] == h.received;
  }

  lemma {:induction false} WindingRun(w: Channel, steps: seq<Step>, e: End, order: seq<Bytes>)
    requires Winding(w, e, order) && DoClose(e) !in steps
    ensures Winding(Run(w, steps), e, order)
    decreases |steps|
  {
    if steps != [] {
      var s := steps[0];
      if s.DoTurn? {
        if w.events != [] {
          WindingTurn(w, e, order);
        }
      } else if s.DoStart? && s.end != e && !w.At(s.end).started && w.At(s.end).backlog != [] {
        var h := Opened(w.At(s.end), |InFlight(w.events, s.end)|);
        assert Winding(w.With(s.end, h), e, order);
        WindingQueue(w.With(s.end, h), e, Flush(s.end, w.At(s.end).backlog), order);
      }
      assert Winding(Apply(w, s), e, order);
      assert DoClose(e) !in steps[1..];
      WindingRun(Apply(w, s), steps[1..], e, order);
    }
  }

  /** An end that was started before its peer closed hears every message the peer ever
      had accepted before it reports the close. */
  lemma HeardBeforeClose(before: seq<Step>, e: End, later: seq<Step>)
    requires var w := Run(FRESH, before);
             w.At(e).started && w.At(e).open && w.At(e.Peer()).open
    requires DoClose(e) !in later
    ensures var w := Run(FRESH, before); var t := Run(Close(w, e.Peer()), later).At(e);
            && t.accepted == w.At(e).accepted && w.At(e).held + w.At(e).flying <= |t.accepted|
            && (!t.open ==> t.received == Arrival(t.accepted, w.At(e).held, w.At(e).flying))
  {
    Reached(before, e);
    var w := Run(FRESH, before);
    var c, h := Close(w, e.Peer()), w.At(e);
    assert c.events[..|w.events|] == w.events;
    assert NewsAt(c.events, e, |w.events|);
    var order := Arrival(h.accepted, h.held, h.flying);
    assert Winding(c, e, order);
    WindingRun(c, later, e, order);
    ShutStaysShut(c, later, e);
  }

  // ---- an end that is started too late ----

  /** Until an end is started, everything its closed peer had said is queued ahead of the news of the close. */
  ghost predicate NewsIsLast(w: Channel, e: End) {
    !w.At(e).started && w.At(e).open && !w.At(e.Peer()).open ==>
      exists k: nat :: NewsAt(w.events, e, k) && InFlight(w.events[..k], e) == InFlight(w.events, e)
  }

  lemma NewsStays(w: Channel, e: End, ev: Event)
    requires NewsIsLast(w, e) && Carried(ev, e) == []
    ensures NewsIsLast(w.Queue(ev), e)
  {
    if !w.At(e).started && w.At(e).open && !w.At(e.Peer()).open {
      var k: nat :| NewsAt(w.events, e, k) && InFlight(w.events[..k], e) == InFlight(w.events, e);
      NotForMe(w.events, ev, e);
      assert (w.events + [ev])[..k] == w.events[..k];
      assert NewsAt(w.Queue(ev).events, e, k);
    }
  }

  lemma NewsArrivesLast(w: Channel, e: End)
    requires PeerClose(e) !in w.events
    ensures var events := w.events + [PeerClose(e)];
            NewsAt(events, e, |w.events|) && InFlight(events[..|w.events|], e) == InFlight(events, e)
  {
    NotForMe(w.events, PeerClose(e), e);
    assert (w.events + [PeerClose(e)])[..|w.events|] == w.events;
  }

  lemma CloseKeepsNews(w: Channel, x: End, e: End)
    requires NewsIsLast(w, e) && EndInv(w, e)
    ensures NewsIsLast(Close(w, x), e)
  {
    hide HalfInv, InFlight, NewsAt;
    if w.At(x).open && x != e {
      NewsArrivesLast(w, e);
    }
  }

  lemma StartKeepsNews(w: Channel, x: End, e: End)
    requires NewsIsLast(w, e)
    ensures NewsIsLast(Start(w, x), e)
  {
    hide InFlight, NewsAt;
    if x != e && !w.At(x).started && w.At(x).backlog != [] {
      NewsStays(w.With(x, Opened(w.At(x), |InFlight(w.events, x)|)), e, Flush(x, w.At(x).backlog));
    }
  }

  lemma TurnKeepsNews(w: Channel, e: End)
    requires NewsIsLast(w, e) && EndInv(w, e) && EndInv(w, e.Peer()) && w.events != []
    ensures NewsIsLast(Turn(w), e)
  {
    hide HalfInv, InFlight;
    var ev, p, t := w.events[0], e.Peer(), Turn(w);
    assert w.At(e).open ==> ev != PeerClose(p) by {
      assert ev in w.events;
    }
    if !t.At(e).started && t.At(e).open && !t.At(p).open {
      var k: nat :| NewsAt(w.events, e, k) && InFlight(w.events[..k], e) == InFlight(w.events, e);
      assert t.events == w.events[1..];
      NewsMovesUp(w.events, e, k);
    }
  }

  lemma NewsMovesUp(events: seq<Event>, e: End, k: nat)
    requires NewsAt(events, e, k) && InFlight(events[..k], e) == InFlight(events, e) && events[0] != PeerClose(e)
    ensures k > 0 && NewsAt(events[1..], e, k - 1)
    ensures InFlight(events[1..][..k - 1], e) == InFlight(events[1..], e)
  {
    var ev, rest := events[0], events[1..];
    assert events[..k][1..] == rest[..k - 1] && events[..k] == [ev] + rest[..k - 1];
    SameFront(Carried(ev, e), InFlight(rest[..k - 1], e), InFlight(rest, e));
  }

  lemma SameFront<T>(a: seq<T>, b: seq<T>, c: seq<T>)
    requires a + b == a + c
    ensures b == c
  {
    assert b == (a + b)[|a|..] && c == (a + c)[|a|..];
  }

  lemma ApplyKeepsNews(w: Channel, s: Step, e: End)
    requires NewsIsLast(w, e) && Inv(w)
    ensures NewsIsLast(Apply(w, s), e)
  {
    hide HalfInv, InFlight, NewsAt;
    EitherEnd(w, e);
    EitherEnd(w, e.Peer());
    match s
    case DoPost(_, _) =>
    case DoStart(x) => StartKeepsNews(w, x, e);
    case DoClose(x) => CloseKeepsNews(w, x, e);
    case DoTurn =>
      if w.events != [] {
        TurnKeepsNews(w, e);
      }
  }

  lemma {:induction false} RunKeepsNews(w: Channel, steps: seq<Step>, e: End)
    requires NewsIsLast(w, e) && Inv(w)
    ensures NewsIsLast(Run(w, steps), e)
    decreases |steps|
  {
    hide Inv, NewsIsLast, Apply;
    if steps != [] {
      ApplyKeeps(w, steps[0]);
      ApplyKeepsNews(w, steps[0], e);
      RunKeepsNews(Apply(w, steps[0]), steps[1..], e);
    }
  }

  /** An end started after its peer closed, but before it was told, hears exactly what was still in the event loop: it loses
      its backlog, all of it and nothing else, because the loop releases it behind the close. */
  lemma LateStartLaw(before: seq<Step>, e: End, later: seq<Step>)
    requires var w := Run(FRESH, before);
             !w.At(e).started && w.At(e).open && !w.At(e.Peer()).open
    requires DoClose(e) !in later
    ensures var w := Run(FRESH, before); var t := Run(Start(w, e), later).At(e);
            && t.accepted == w.At(e).backlog + InFlight(w.events, e)
            && t.received <= InFlight(w.events, e)
            && (!t.open ==> t.received == InFlight(w.events, e))
  {
    var w := Run(FRESH, before);
    Reached(before, e);
    FreshInv();
    RunKeepsNews(FRESH, before, e);
    StartWinds(w, e);
    WindingRun(Start(w, e), later, e, InFlight(w.events, e));
    ShutStaysShut(Start(w, e), later, e);
  }

  lemma StartWinds(w: Channel, e: End)
    requires NewsIsLast(w, e) && !w.At(e).started && w.At(e).open && !w.At(e.Peer()).open && w.At(e).received == []
    ensures Winding(Start(w, e), e, InFlight(w.events, e))
  {
    var k: nat :| NewsAt(w.events, e, k) && InFlight(w.events[..k], e) == InFlight(w.events, e);
    var s := w.With(e, Opened(w.At(e), |InFlight(w.events, e)|));
    assert s.At(e).received + InFlight(s.events[..k], e) == InFlight(w.events, e);
    assert Winding(s, e, InFlight(w.events, e));
    WindingQueue(s, e, Flush(e, w.At(e).backlog), InFlight(w.events, e));
  }

  lemma {:induction false} ShutStaysShut(w: Channel, steps: seq<Step>, e: End)
    requires !w.At(e.Peer()).open
    ensures Run(w, steps).At(e).accepted == w.At(e).accepted
    decreases |steps|
  {
    hide InFlight;
    if steps != [] {
      ShutStaysShut(Apply(w, steps[0]), steps[1..], e);
    }
  }

  /** A run in which a late start loses a message. */
  lemma LateStartLoses(m: Bytes)
    ensures var w := Run(FRESH, [DoPost(Left, m), DoTurn, DoClose(Left), DoStart(Right), DoTurn]);
            !w.right.open && w.right.started && w.right.accepted == [m] && w.right.received == []
  {
    var w1 := Post(FRESH, Left, m);
    var w2 := Turn(w1);
    assert w2.right.backlog == [m] && w2.events == [];
    var w3 := Close(w2, Left);
    var w4 := Start(w3, Right);
    assert w4.events == [PeerClose(Right), Flush(Right, [m])];
    var w5 := Turn(w4);
    calc {
      Run(FRESH, [DoPost(Left, m), DoTurn, DoClose(Left), DoStart(Right), DoTurn]);
      Run(w1, [DoTurn, DoClose(Left), DoStart(Right), DoTurn]);
      Run(w2, [DoClose(Left), DoStart(Right), DoTurn]);
      Run(w3, [DoStart(Right), DoTurn]);
      Run(w4, [DoTurn]);
      Run(w5, []);
    }
  }
}

/** The port as an object: two of them point at each other and share the thread's event queue with whatever else
    runs there. A port whose peer has been deleted points at nothing, and so do the closures that were meant for it. */
module LoopbackPorts {
  import opened Sequences
  import Wire

  /** A closure handed to the event loop by a port, with the port it acts on when it runs; a released backlog acts on the
      port that handed it over. */
  datatype Queued =
    | DeliverTo(from: LoopbackPort, port: LoopbackPort?, message: Bytes)
    | FlushTo(from: LoopbackPort, released: seq<Bytes>)
    | CloseOf(from: LoopbackPort, port: LoopbackPort?)

  ghost function Seen(q: Queued): Wire.Event {
    match q
    case DeliverTo(from, _, m) => Wire.Deliver(from.side.Peer(), m)
    case FlushTo(from, ms) => Wire.Flush(from.side, ms)
    case CloseOf(from, _) => Wire.PeerClose(from.side.Peer())
  }

  /** What these ports have in the queue. */
  ghost function SeenFrom(qs: seq<Queued>, ports: set<LoopbackPort?>): seq<Wire.Event> {
    if qs == [] then []
    else (if qs[0].from in ports then [Seen(qs[0])] else []) + SeenFrom(qs[1..], ports)
  }

  lemma {:induction false} SeenAppend(qs: seq<Queued>, q: Queued, ports: set<LoopbackPort?>)
    ensures SeenFrom(qs + [q], ports) == SeenFrom(qs, ports) + if q.from in ports then [Seen(q)] else []
  {
    hide Seen;
    if qs == [] {
      assert [q][1..] == [] && [] + [q] == [q];
    } else {
      assert (qs + [q])[1..] == qs[1..] + [q];
      SeenAppend(qs[1..], q, ports);
      Regroup(if qs[0].from in ports then [Seen(qs[0])] else [], SeenFrom(qs[1..], ports),
              if q.from in ports then [Seen(q)] else []);
    }
  }

  lemma {:induction false} SeenNothing(qs: seq<Queued>, ports: set<LoopbackPort?>)
    requires forall i :: 0 <= i < |qs| ==> qs[i].from !in ports
    ensures SeenFrom(qs, ports) == []
  {
    if qs != [] {
      SeenNothing(qs[1..], ports);
    }
  }

  /** What the closure does to the channel it belongs to. */
  ghost function Effect(w: Wire.Channel, ev: Wire.Event): Wire.Channel {
    match ev
    case Deliver(to, m) => w.With(to, Wire.Arrive(w.At(to), m))
    case Flush(to, ms) => w.With(to, Wire.Release(w.At(to), ms))
    case PeerClose(to) => Wire.Close(w, to)
  }

  lemma TurnIsEffect(w: Wire.Channel)
    requires w.events != []
    ensures Wire.Turn(w) == Effect(w.(events := w.events[1..]), w.events[0])
  {
  }

  /** Closures are added behind what is queued already, all of them these ports'. */
  ghost predicate OnlyAdds(before: seq<Queued>, after: seq<Queued>, ports: set<LoopbackPort?>) {
    before <= after && forall i :: |before| <= i < |after| ==> after[i].from in ports
  }

  lemma {:induction false} OthersSeeNothing(before: seq<Queued>, after: seq<Queued>,
                                            adding: set<LoopbackPort?>, ports: set<LoopbackPort?>)
    requires OnlyAdds(before, after, adding) && forall x :: x in adding && x in ports ==> x == null
    ensures SeenFrom(after, ports) == SeenFrom(before, ports)
    decreases |after|
  {
    if before == [] {
      SeenNothing(after, ports);
    } else {
      assert OnlyAdds(before[1..], after[1..], adding) by {
        assert forall i :: |before| <= i < |after| ==> after[1..][i - 1] == after[i];
      }
      OthersSeeNothing(before[1..], after[1..], adding, ports);
    }
  }

  class EventLoop {
    var events: seq<Queued>

    constructor ()
      ensures events == []
    {
      events := [];
    }

    /** Runs the closure at the head of the queue. `p` is any port of the thread: a channel whose closure it is makes its
        turn, and every other channel stays as it is. */
    method Turn(ghost p: LoopbackPort)
      requires p.Valid() && p.loop == this
      requires events != [] ==> events[0].from.Valid() && events[0].from.loop == this
      modifies this, if events == [] then {} else events[0].from.Ends()
      ensures p.Valid() && p.peer == old(p.peer)
      ensures p.View() == if old(events != [] && events[0].from in {p, p.peer}) then Wire.Turn(old(p.View()))
                          else old(p.View())
    {
      if events == [] {
        return;
      }
      p.PeerSeesTheSame();
      ghost var f := events[0].from;
      ghost var was := f.View();
      var head := Pop(p);
      RunHead(p, head, was);
    }

    /** Takes the head off the queue; nobody but its channel notices. */
    method Pop(ghost p: LoopbackPort) returns (head: Queued)
      requires events != [] && p.Valid() && p.loop == this
      requires events[0].from.Valid() && events[0].from.loop == this
      modifies `events
      ensures head == old(events[0]) && p.Valid() && head.from.Valid()
      ensures !head.FlushTo? ==> head.port == head.from.peer
      ensures old(head.from.View()).events == [Seen(head)] + head.from.View().events
      ensures head.from.View() == old(head.from.View()).(events := head.from.View().events)
      ensures head.from !in {p, p.peer} ==> p.View() == old(p.View())
    {
      hide Seen;
      head := events[0];
      events := events[1..];
    }

    method RunHead(ghost p: LoopbackPort, head: Queued, ghost was: Wire.Channel)
      requires p.Valid() && p.loop == this && head.from.Valid() && head.from.loop == this
      requires !head.FlushTo? ==> head.port == head.from.peer
      requires was.events == [Seen(head)] + head.from.View().events
      requires head.from.View() == was.(events := head.from.View().events)
      modifies this, head.from.Ends()
      ensures p.Valid() && p.peer == old(p.peer)
      ensures p.View() == if head.from in {p, p.peer} then Wire.Turn(was) else old(p.View())
    {
      hide Effect, Seen, OnlyAdds, Wire.Turn;
      ghost var f, left := head.from, events;
      TurnIsEffect(was);
      assert was.events[1..] == f.View().events;
      RunClosure(head);
      f.PeerSeesTheSame();
      if f !in {p, p.peer} {
        OthersSeeNothing(left, events, {f, f.peer}, {p, p.peer});
      }
    }
  }

  method RunClosure(q: Queued)
    requires q.from.Valid() && (!q.FlushTo? ==> q.port == q.from.peer)
    modifies q.from.Ends(), q.from.loop
    ensures q.from.Valid() && q.from.peer == old(q.from.peer)
    ensures q.from.View() == Effect(old(q.from.View()), Seen(q))
    ensures OnlyAdds(old(q.from.loop.events), q.from.loop.events, {q.from, q.from.peer})
  {
    q.from.PeerSeesTheSame();
    match q
    case DeliverTo(_, port, message) =>
      if port != null {
        port.Arrive(message);
        port.PeerSeesTheSame();
      }
    case FlushTo(from, released) =>
      RunFlush(from, released);
    case CloseOf(_, port) =>
      if port != null {
        port.Close();
        port.PeerSeesTheSame();
      }
  }

  /** The closure start() queues. */
  method RunFlush(port: LoopbackPort, released: seq<Bytes>)
    requires port.Valid()
    modifies port`received
    ensures port.Valid()
    ensures port.View() == old(port.View()).With(port.side, Wire.Release(old(port.Half()), released))
  {
    if port.open {
      for i := 0 to |released|
        invariant port.Half() == Wire.Release(old(port.Half()), released[..i])
      {
        assert released[..i + 1] == released[..i] + [released[i]];
        port.Emit(released[i]);
      }
      assert released[..|released|] == released;
    }
  }

  class LoopbackPort {
    ghost const side: Wire.End
    const loop: EventLoop
    var peer: LoopbackPort?
    var open: bool
    var started: bool
    var queued: seq<Bytes>

    // What listeners and callers have seen so far.
    ghost var received: seq<Bytes>
    ghost var closes: nat
    ghost var accepted: seq<Bytes>
    ghost var held: nat
    ghost var flying: nat

    /** Two ports that point at each other, or one whose peer is gone; closures name the peer of the port they come from. */
    ghost predicate Valid()
      reads this, peer, loop
    {
      && (peer != null ==> peer != this && peer.peer == this && peer.loop == loop && side == peer.side.Peer())
      && forall i :: 0 <= i < |loop.events| && loop.events[i].from in {this, peer} && !loop.events[i].FlushTo? ==>
           loop.events[i].port == if loop.events[i].from == this then peer else this
    }

    ghost function Half(): Wire.Half
      reads this
    {
      Wire.Half(open, started, queued, received, closes, accepted, held, flying)
    }

    /** The whole channel as seen from either end; a peer that is gone is an end that has closed. */
    ghost function View(): Wire.Channel
      reads this, peer, loop
    {
      var events := SeenFrom(loop.events, {this, peer});
      var other := if peer == null then Wire.GONE else peer.Half();
      if side == Wire.Left then Wire.Channel(Half(), other, events) else Wire.Channel(other, Half(), events)
    }

    ghost function Ends(): set<object>
      reads this
    {
      if peer == null then {this} else {this, peer}
    }

    /** What a post may change. */
    ghost function Beyond(): set<object>
      reads this
    {
      if peer == null then {loop} else {loop, peer}
    }

    lemma PeerSeesTheSame()
      requires Valid()
      ensures peer != null ==> peer.Valid() && peer.View() == View()
    {
      if peer != null {
        assert {this, peer} == {peer, peer.peer};
      }
    }

    constructor (loop: EventLoop, ghost side: Wire.End)
      ensures this.loop == loop && this.side == side && peer == null && Half() == Wire.UNUSED
    {
      this.loop, this.side, peer := loop, side, null;
      open, started, queued := true, false, [];
      received, closes, accepted, held, flying := [], 0, [], 0, 0;
    }

    static method CreatePair(loop: EventLoop) returns (a: LoopbackPort, b: LoopbackPort)
      ensures fresh(a) && fresh(b) && a.Valid() && a.peer == b && a.loop == loop
      ensures a.side == Wire.Left && a.View() == Wire.FRESH
    {
      a := new LoopbackPort(loop, Wire.Left);
      b := new LoopbackPort(loop, Wire.Right);
      a.peer := b;
      b.peer := a;
      SeenNothing(loop.events, {a, b});
    }

    method IsOpen() returns (live: bool)
      requires Valid()
      ensures live == View().IsOpen(side)
    {
      live := open && peer != null && peer.open;
    }

    method Post(message: Bytes)
      requires Valid()
      modifies Beyond()
      ensures Valid() && peer == old(peer) && View() == Wire.Post(old(View()), side, message)
      ensures OnlyAdds(old(loop.events), loop.events, {this})
      ensures Half() == old(Half()) && (peer != null ==> peer.Half() == old(peer.Half()).(accepted := peer.accepted))
    {
      var live := IsOpen();
      if !live {
        return;
      }
      SeenAppend(loop.events, DeliverTo(this, peer, message), {this, peer});
      loop.events := loop.events + [DeliverTo(this, peer, message)];
      peer.accepted := peer.accepted + [message];
    }

    method Start()
      requires Valid()
      modifies this, loop
      ensures Valid() && peer == old(peer) && View() == Wire.Start(old(View()), side)
      ensures OnlyAdds(old(loop.events), loop.events, {this})
    {
      if started {
        return;
      }
      started := true;
      held, flying := |queued|, |Wire.InFlight(View().events, side)|;
      var backlog := queued;
      queued := [];
      if backlog == [] {
        return;
      }
      SeenAppend(loop.events, FlushTo(this, backlog), {this, peer});
      loop.events := loop.events + [FlushTo(this, backlog)];
    }

    method Close()
      requires Valid()
      modifies this, loop
      ensures Valid() && peer == old(peer) && View() == Wire.Close(old(View()), side)
      ensures OnlyAdds(old(loop.events), loop.events, {this})
    {
      if !open {
        return;
      }
      open := false;
      closes := closes + 1;
      SeenAppend(loop.events, CloseOf(this, peer), {this, peer});
      loop.events := loop.events + [CloseOf(this, peer)];
    }

    /** `deliver` in the source: what a queued message does when its turn comes. */
    method Arrive(message: Bytes)
      requires Valid()
      modifies this
      ensures Valid() && peer == old(peer)
      ensures View() == old(View()).With(side, Wire.Arrive(old(Half()), message))
    {
      if !open {
        return;
      }
      if !started {
        queued := queued + [message];
        return;
      }
      Emit(message);
    }

    /** emit messageReceived(message) */
    method Emit(message: Bytes)
      modifies this`received
      ensures received == old(received) + [message]
    {
      ghost var heard := received + [message];
      received := heard;
    }
  }
}
