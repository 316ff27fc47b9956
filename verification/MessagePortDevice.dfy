/** The byte stream over a message port (src/LogosMessagePortDevice.cpp): the read buffer with its
    cursor, and two devices on one channel composed into a system. */
module PortBuffer {
  import opened Sequences

  /** A device. `taken` and `written` record the bytes its reader took and its writer had accepted. */
  datatype Device = Device(attached: bool, open: bool, buffer: Bytes, readPos: nat, taken: Bytes, written: Bytes) {
    predicate Valid() {
      && readPos <= |buffer|
      && (readPos == |buffer| ==> buffer == [])
      && (!attached ==> buffer == [] && taken == [] && written == [])
    }

    function Unread(): Bytes {
      if readPos <= |buffer| then buffer[readPos..] else []
    }
  }

  const NO_DEVICE := Device(false, false, [], 0, [], [])

  function OnMessage(d: Device, message: Bytes): Device {
    if !d.attached || message == [] then d else d.(buffer := d.buffer + message)
  }

  function OnMessages(d: Device, messages: seq<Bytes>): Device
    decreases |messages|
  {
    if messages == [] then d else OnMessages(OnMessage(d, messages[0]), messages[1..])
  }

  function OnPortClosed(d: Device): Device { d.(open := false) }

  /** Reading at most `maxSize` bytes; a drained buffer is reclaimed. */
  function Read(d: Device, maxSize: nat): Device {
    if !d.open || |d.buffer| - d.readPos <= 0 then d
    else
      var n := Min(|d.buffer| - d.readPos, maxSize);
      var d' := d.(readPos := d.readPos + n, taken := d.taken + d.buffer[d.readPos..d.readPos + n]);
      if d'.readPos == |d.buffer| then d'.(buffer := [], readPos := 0) else d'
  }

  /** A read moves bytes from the front of what is unread to the end of what was taken. */
  lemma ReadTakesFromTheFront(d: Device, maxSize: nat)
    requires d.Valid()
    ensures var d' := Read(d, maxSize);
            && d'.Valid() && d'.taken + d'.Unread() == d.taken + d.Unread()
            && d.taken <= d'.taken
            && |d'.taken| - |d.taken| == (if d.open then Min(|d.Unread()|, maxSize) else 0)
  {
    if d.open && d.readPos < |d.buffer| {
      var n := Min(|d.buffer| - d.readPos, maxSize);
      assert d.buffer[d.readPos..] == d.buffer[d.readPos..d.readPos + n] + d.buffer[d.readPos + n..];
    }
  }

  lemma {:induction false} MessagesAppend(d: Device, messages: seq<Bytes>)
    requires d.Valid()
    ensures var d' := OnMessages(d, messages);
            && d'.Valid() && d'.attached == d.attached && d'.open == d.open
            && d'.taken == d.taken && d'.written == d.written
            && d'.Unread() == (if d.attached then d.Unread() + Flatten(messages) else [])
    decreases |messages|
  {
    if messages == [] {
      assert d.Unread() + [] == d.Unread();
    } else {
      var d1 := OnMessage(d, messages[0]);
      assert d.attached ==> d1.Unread() == d.Unread() + messages[0];
      MessagesAppend(d1, messages[1..]);
    }
  }
}

module Stream {
  import opened Sequences
  import opened PortBuffer
  import Wire
  import WireLaws

  type End = Wire.End

  /** One channel with room for a device at each end. */
  datatype System = System(wire: Wire.Channel, left: Device, right: Device) {
    function At(e: End): Device { if e == Wire.Left then left else right }

    function With(e: End, d: Device): System {
      if e == Wire.Left then this.(left := d) else this.(right := d)
    }
  }

  const IDLE := System(Wire.FRESH, NO_DEVICE, NO_DEVICE)

  datatype Step =
    | Attach(end: End)
    | Write(end: End, data: Bytes)
    | TakeBytes(end: End, maxSize: nat)
    | Turn
    | ClosePort(end: End)
    | CloseDevice(end: End)

  /** Building a device on an end connects it, opens it, and only then starts the port. Ports are
      handed out once, so a second device on the same end does not arise. */
  function AttachAt(s: System, e: End): System {
    if s.At(e).attached then s
    else s.With(e, NO_DEVICE.(attached := true, open := true)).(wire := Wire.Start(s.wire, e))
  }

  /** A write is refused, with -1, when the device or the port is not open. */
  function WriteAt(s: System, e: End, data: Bytes): System {
    var d := s.At(e);
    if !d.attached || !d.open || !s.wire.IsOpen(e) then s
    else s.With(e, d.(written := d.written + data)).(wire := Wire.Post(s.wire, e, data))
  }

  /** What the signals emitted between two states of the wire did to the device at one end. */
  function Notified(d: Device, before: Wire.Half, after: Wire.Half): Device
    requires before.received <= after.received
  {
    var d' := OnMessages(d, after.received[|before.received|..]);
    if before.closes < after.closes then OnPortClosed(d') else d'
  }

  lemma WireGrows(w: Wire.Channel, s: Wire.Step, e: End)
    ensures var h, h' := w.At(e), Wire.Apply(w, s).At(e);
            h.received <= h'.received && (s.DoTurn? || s.DoClose? || h.received == h'.received)
  {
  }

  function Signalled(s: System, step: Wire.Step): System {
    var w := Wire.Apply(s.wire, step);
    WireGrows(s.wire, step, Wire.Left);
    WireGrows(s.wire, step, Wire.Right);
    System(w, Notified(s.left, s.wire.left, w.left), Notified(s.right, s.wire.right, w.right))
  }

  function Apply(s: System, step: Step): System {
    match step
    case Attach(e) => AttachAt(s, e)
    case Write(e, data) => WriteAt(s, e, data)
    case TakeBytes(e, n) => s.With(e, Read(s.At(e), n))
    case Turn => Signalled(s, Wire.DoTurn)
    case ClosePort(e) => Signalled(s, Wire.DoClose(e))
    case CloseDevice(e) => s.With(e, OnPortClosed(s.At(e)))
  }

  // ---- what holds of one end, and what holds of the system ----

  /** A device against the port it reads and the messages its own writes had accepted. */
  ghost predicate DeviceInv(d: Device, port: Wire.Half, posted: seq<Bytes>) {
    && d.Valid() && d.attached == port.started
    && d.taken + d.Unread() == Flatten(port.received)
    && d.written == Flatten(posted)
  }

  ghost predicate EndInv(s: System, e: End) {
    DeviceInv(s.At(e), s.wire.At(e), s.wire.At(e.Peer()).accepted)
  }

  ghost predicate Inv(s: System) {
    WireLaws.Inv(s.wire) && EndInv(s, Wire.Left) && EndInv(s, Wire.Right)
  }

  lemma IdleInv()
    ensures Inv(IDLE)
  {
    WireLaws.FreshInv();
  }

  lemma NotifiedKeeps(d: Device, before: Wire.Half, after: Wire.Half, posted: seq<Bytes>)
    requires DeviceInv(d, before, posted) && before.received <= after.received
    requires after.started == before.started
    requires !before.started ==> after.received == before.received
    ensures DeviceInv(Notified(d, before, after), after, posted)
  {
    hide Flatten, OnMessages;
    var news := after.received[|before.received|..];
    assert after.received == before.received + news;
    MessagesAppend(d, news);
    if d.attached {
      FlattenAppend(before.received, news);
      Regroup(d.taken, d.Unread(), Flatten(news));
    }
    assert DeviceInv(OnMessages(d, news), after, posted);
  }

  /** Turns and closes of the port leave alone what has been posted and who has started. */
  lemma TurnLeaves(w: Wire.Channel, s: Wire.Step, e: End)
    requires WireLaws.Inv(w) && (s.DoTurn? || s.DoClose?)
    ensures var h, h' := w.At(e), Wire.Apply(w, s).At(e);
            && h'.started == h.started && h'.accepted == h.accepted
            && (!h.started ==> h'.received == h.received)
  {
    hide WireLaws.HalfInv, Wire.InFlight;
    assert WireLaws.EndInv(w, e);
  }

  /** What a step of the wire that posts and starts nothing leaves of both ends. */
  predicate Quiet(w: Wire.Channel, w': Wire.Channel, e: End) {
    && w'.At(e).started == w.At(e).started && w'.At(e.Peer()).accepted == w.At(e.Peer()).accepted
    && w.At(e).received <= w'.At(e).received && (!w.At(e).started ==> w'.At(e).received == w.At(e).received)
  }

  lemma SignalledEnd(s: System, step: Wire.Step, e: End)
    requires EndInv(s, e) && Quiet(s.wire, Wire.Apply(s.wire, step), e)
    ensures EndInv(Signalled(s, step), e) && Signalled(s, step).wire == Wire.Apply(s.wire, step)
  {
    hide Wire.Apply;
    var w := Wire.Apply(s.wire, step);
    NotifiedKeeps(s.At(e), s.wire.At(e), w.At(e), s.wire.At(e.Peer()).accepted);
  }

  lemma TurnIsQuiet(w: Wire.Channel, step: Wire.Step, e: End)
    requires WireLaws.Inv(w) && (step.DoTurn? || step.DoClose?)
    ensures Quiet(w, Wire.Apply(w, step), e)
  {
    TurnLeaves(w, step, e);
    TurnLeaves(w, step, e.Peer());
    WireGrows(w, step, e);
    hide WireLaws.Inv, Wire.Apply;
  }

  /** Starting a port emits nothing and posts nothing. */
  lemma StartLeaves(w: Wire.Channel, e: End)
    ensures var w' := Wire.Start(w, e);
            && w'.At(e).started && w'.At(e.Peer()) == w.At(e.Peer())
            && w'.At(e).received == w.At(e).received && w'.At(e).accepted == w.At(e).accepted
  {
  }

  lemma AttachKeeps(s: System, e: End)
    requires Inv(s)
    ensures Inv(AttachAt(s, e))
  {
    hide WireLaws.Inv, Wire.Start, Flatten, DeviceInv;
    WireLaws.StartKeeps(s.wire, e);
    StartLeaves(s.wire, e);
    assert EndInv(s, e) && EndInv(s, e.Peer());
    if !s.At(e).attached {
      var w, d := Wire.Start(s.wire, e), NO_DEVICE.(attached := true, open := true);
      NewDevice(s, e, w.At(e), d);
      DeviceChange(s.(wire := w), e, d);
    }
  }

  /** A device has nothing to account for where nothing has been heard. */
  lemma NewDevice(s: System, e: End, h: Wire.Half, d: Device)
    requires WireLaws.Inv(s.wire) && EndInv(s, e) && !s.At(e).attached
    requires h.started && h.received == s.wire.At(e).received
    requires d == NO_DEVICE.(attached := true, open := true)
    ensures DeviceInv(d, h, s.wire.At(e.Peer()).accepted)
  {
    hide WireLaws.Inv;
    WireLaws.UnstartedHeardNothing(s.wire, e);
    EmptyStream();
  }

  /** It is enough to look at the end that changed. */
  lemma DeviceChange(s: System, e: End, d: Device)
    requires WireLaws.Inv(s.wire) && EndInv(s, e.Peer())
    requires DeviceInv(d, s.wire.At(e), s.wire.At(e.Peer()).accepted)
    ensures Inv(s.With(e, d))
  {
    hide WireLaws.Inv, DeviceInv;
    assert EndInv(s.With(e, d), e) && EndInv(s.With(e, d), e.Peer());
  }

  lemma EmptyStream()
    ensures Flatten([]) == []
  {
  }

  /** A post that goes through adds one message to what the peer is owed and touches no device. */
  lemma PostLeaves(w: Wire.Channel, e: End, data: Bytes)
    requires w.IsOpen(e)
    ensures var w', p := Wire.Post(w, e, data), e.Peer();
            && w'.At(e) == w.At(e)
            && w'.At(p) == w.At(p).(accepted := w.At(p).accepted + [data])
  {
  }

  lemma PostedBytes(posted: seq<Bytes>, data: Bytes)
    ensures Flatten(posted + [data]) == Flatten(posted) + data
  {
    FlattenAppend(posted, [data]);
    assert [data][1..] == [] && data + [] == data;
  }

  /** A write that goes through: the writer has written that much more, and the reader's device is as it was. */
  lemma WriteEnds(s: System, e: End, data: Bytes)
    requires EndInv(s, e) && EndInv(s, e.Peer())
    ensures EndInv(WriteAt(s, e, data), e) && EndInv(WriteAt(s, e, data), e.Peer())
  {
    hide Wire.Post, Flatten;
    var d, p := s.At(e), e.Peer();
    if d.attached && d.open && s.wire.IsOpen(e) {
      PostLeaves(s.wire, e, data);
      PostedBytes(s.wire.At(p).accepted, data);
    }
  }

  lemma ReadDevice(d: Device, port: Wire.Half, posted: seq<Bytes>, n: nat)
    requires DeviceInv(d, port, posted)
    ensures DeviceInv(Read(d, n), port, posted)
  {
    hide Flatten;
    ReadTakesFromTheFront(d, n);
  }

  lemma ShutDevice(d: Device, port: Wire.Half, posted: seq<Bytes>)
    requires DeviceInv(d, port, posted)
    ensures DeviceInv(OnPortClosed(d), port, posted)
  {
    hide Flatten;
  }

  lemma BothEnds(s: System, e: End)
    requires WireLaws.Inv(s.wire) && EndInv(s, e) && EndInv(s, e.Peer())
    ensures Inv(s)
  {
    hide WireLaws.Inv, DeviceInv;
  }

  lemma ApplyKeeps(s: System, step: Step)
    requires Inv(s)
    ensures Inv(Apply(s, step))
  {
    hide WireLaws.Inv, DeviceInv, Signalled, AttachAt, Read, OnPortClosed, Wire.Apply, Quiet;
    match step
    case Attach(e) => AttachKeeps(s, e);
    case Write(e, data) =>
      WriteEnds(s, e, data);
      WireLaws.PostKeeps(s.wire, e, data);
      BothEnds(WriteAt(s, e, data), e);
    case TakeBytes(e, n) =>
      ReadDevice(s.At(e), s.wire.At(e), s.wire.At(e.Peer()).accepted, n);
      DeviceChange(s, e, Read(s.At(e), n));
    case Turn => assert Inv(Signalled(s, Wire.DoTurn)) by {
      WireLaws.ApplyKeeps(s.wire, Wire.DoTurn);
      TurnIsQuiet(s.wire, Wire.DoTurn, Wire.Left);
      TurnIsQuiet(s.wire, Wire.DoTurn, Wire.Right);
      SignalledEnd(s, Wire.DoTurn, Wire.Left);
      SignalledEnd(s, Wire.DoTurn, Wire.Right);
    }
    case ClosePort(e) => assert Inv(Signalled(s, Wire.DoClose(e))) by {
      WireLaws.ApplyKeeps(s.wire, Wire.DoClose(e));
      TurnIsQuiet(s.wire, Wire.DoClose(e), Wire.Left);
      TurnIsQuiet(s.wire, Wire.DoClose(e), Wire.Right);
      SignalledEnd(s, Wire.DoClose(e), Wire.Left);
      SignalledEnd(s, Wire.DoClose(e), Wire.Right);
    }
    case CloseDevice(e) =>
      ShutDevice(s.At(e), s.wire.At(e), s.wire.At(e.Peer()).accepted);
      DeviceChange(s, e, OnPortClosed(s.At(e)));
  }

  function Run(s: System, steps: seq<Step>): System
    decreases |steps|
  {
    if steps == [] then s else Run(Apply(s, steps[0]), steps[1..])
  }

  lemma {:induction false} RunKeeps(s: System, steps: seq<Step>)
    requires Inv(s)
    ensures Inv(Run(s, steps))
    decreases |steps|
  {
    hide Inv, Apply;
    if steps != [] {
      ApplyKeeps(s, steps[0]);
      RunKeeps(Apply(s, steps[0]), steps[1..]);
    }
  }

  // ---- the stream ----

  /** The messages still between the peer's writer and this end's reader, in the order they will
      be heard if nothing else is started. */
  function InTransit(w: Wire.Channel, e: End): seq<Bytes> {
    w.At(e).backlog + Wire.InFlight(w.events, e)
  }

  /** Every run, exactly: what the reader took, what lies unread and what is in transit are, end to
      end, what the peer's writer wrote, in arrival order; a reader whose port has closed has a prefix. */
  lemma StreamLaw(steps: seq<Step>, e: End)
    ensures var s := Run(IDLE, steps); var d, h, p := s.At(e), s.wire.At(e), s.At(e.Peer());
            && p.written == Flatten(h.accepted)
            && h.held + h.flying <= |h.accepted|
            && var order := WireLaws.Arrival(h.accepted, h.held, h.flying);
            && d.taken + d.Unread() <= Flatten(order)
            && (h.open ==> d.taken + d.Unread() + Flatten(InTransit(s.wire, e)) == Flatten(order))
  {
    IdleInv();
    RunKeeps(IDLE, steps);
    var s := Run(IDLE, steps);
    StreamOf(s, e);
  }

  lemma StreamOf(s: System, e: End)
    requires Inv(s)
    ensures var d, h, p := s.At(e), s.wire.At(e), s.At(e.Peer());
            && p.written == Flatten(h.accepted)
            && h.held + h.flying <= |h.accepted|
            && var order := WireLaws.Arrival(h.accepted, h.held, h.flying);
            && d.taken + d.Unread() <= Flatten(order)
            && (h.open ==> d.taken + d.Unread() + Flatten(InTransit(s.wire, e)) == Flatten(order))
  {
    hide Flatten, Wire.InFlight;
    assert EndInv(s, e) && EndInv(s, e.Peer()) && WireLaws.EndInv(s.wire, e);
    HeardAndComing(s.wire.At(e), Wire.InFlight(s.wire.events, e));
  }

  lemma HeardAndComing(h: Wire.Half, onWay: seq<Bytes>)
    requires WireLaws.HalfInv(h, onWay)
    ensures h.held + h.flying <= |h.accepted|
    ensures var order := WireLaws.Arrival(h.accepted, h.held, h.flying);
            && Flatten(h.received) <= Flatten(order)
            && (h.open ==> Flatten(h.received) + Flatten(h.backlog + onWay) == Flatten(order))
  {
    var order := WireLaws.Arrival(h.accepted, h.held, h.flying);
    if h.started {
      FlattenPrefix(h.received, order);
      FlattenAppend(h.received, onWay);
      assert h.backlog + onWay == onWay;
    } else {
      WireLaws.ArrivalInOrder(h.accepted, 0, 0);
    }
  }

  /** When the port was started with an empty backlog or with nothing in the event loop, the reader's
      bytes are a prefix of the writer's, and none is missing from what is taken, unread and in transit. */
  lemma StreamInOrder(steps: seq<Step>, e: End)
    requires Run(IDLE, steps).wire.At(e).held == 0 || Run(IDLE, steps).wire.At(e).flying == 0
    ensures var s := Run(IDLE, steps); var d, p := s.At(e), s.At(e.Peer());
            && d.taken + d.Unread() <= p.written
            && (s.wire.At(e).open ==> d.taken + d.Unread() + Flatten(InTransit(s.wire, e)) == p.written)
  {
    StreamLaw(steps, e);
    var h := Run(IDLE, steps).wire.At(e);
    WireLaws.ArrivalInOrder(h.accepted, h.held, h.flying);
  }

  /** Without that condition the stream can be scrambled: one message already delivered and held back, a
      second on its way when the reader's device is built, and the second is read first. */
  lemma ScrambledStream(a: byte, b: byte)
    ensures var s := Run(IDLE, [Attach(Wire.Left), Write(Wire.Left, [a]), Turn, Write(Wire.Left, [b]),
                                Attach(Wire.Right), Turn, Turn]);
            s.left.written == [a, b] && s.right.buffer == [b, a] && s.right.readPos == 0
  {
    var s1 := Apply(IDLE, Attach(Wire.Left));
    var s2 := Apply(s1, Write(Wire.Left, [a]));
    assert s2.wire.events == [Wire.Deliver(Wire.Right, [a])];
    var s3 := Apply(s2, Turn);
    assert s3.wire.right.backlog == [[a]] && s3.wire.events == [];
    var s4 := Apply(s3, Write(Wire.Left, [b]));
    var s5 := Apply(s4, Attach(Wire.Right));
    assert s5.wire.events == [Wire.Deliver(Wire.Right, [b]), Wire.Flush(Wire.Right, [[a]])];
    assert s5.left.written == [a, b];
    var s6 := Apply(s5, Turn);
    assert s6.wire.right.received == [[b]] && s6.wire.events == [Wire.Flush(Wire.Right, [[a]])];
    assert s6.right == OnMessages(s5.right, [[b]]);
    assert OnMessages(s5.right, [[b]]) == OnMessage(s5.right, [b]);
    var s7 := Apply(s6, Turn);
    assert s7.wire.right.received[1..] == [[a]];
    assert OnMessages(s6.right, [[a]]) == OnMessage(s6.right, [a]) by {
      assert [[a]][1..] == [];
    }
    Unfold7(IDLE, Attach(Wire.Left), Write(Wire.Left, [a]), Turn, Write(Wire.Left, [b]), Attach(Wire.Right), Turn, Turn);
  }

  lemma Unfold7(s: System, a: Step, b: Step, c: Step, d: Step, e: Step, f: Step, g: Step)
    ensures Run(s, [a, b, c, d, e, f, g])
         == Apply(Apply(Apply(Apply(Apply(Apply(Apply(s, a), b), c), d), e), f), g)
  {
    hide Apply;
    var s1 := Apply(s, a);
    var s2 := Apply(s1, b);
    var s3 := Apply(s2, c);
    var s4 := Apply(s3, d);
    calc {
      Run(s, [a, b, c, d, e, f, g]);
      Run(s1, [b, c, d, e, f, g]);
      Run(s2, [c, d, e, f, g]);
      Run(s3, [d, e, f, g]);
      Run(s4, [e, f, g]);
      Run(Apply(s4, e), [f, g]);
      Run(Apply(Apply(s4, e), f), [g]);
      Run(Apply(Apply(Apply(s4, e), f), g), []);
    }
  }
}

/** What a device does for its user: bytes written come out at the other end, and the device follows its port. */
module StreamLaws {
  import opened Sequences
  import opened PortBuffer
  import opened Stream
  import Wire
  import WireLaws

  function Turns(n: nat): seq<Step> { seq(n, _ => Turn) }

  lemma {:induction false} TurnsOfTheWire(s: System, n: nat)
    ensures Run(s, Turns(n)).wire == Wire.Run(s.wire, WireLaws.Turns(n))
    decreases n
  {
    if n > 0 {
      assert Turns(n)[1..] == Turns(n - 1) && WireLaws.Turns(n)[1..] == WireLaws.Turns(n - 1);
      assert Apply(s, Turn).wire == Wire.Apply(s.wire, Wire.DoTurn);
      hide Apply, Wire.Apply;
      TurnsOfTheWire(Apply(s, Turn), n - 1);
    }
  }

  /** A write is taken exactly if the device is there and open and its port is open, and then taken whole. */
  lemma WriteTakes(s: System, e: End, data: Bytes)
    ensures var d, d', t := s.At(e), Apply(s, Write(e, data)).At(e), Apply(s, Write(e, data));
            && t.At(e.Peer()) == s.At(e.Peer())
            && (if d.attached && d.open && s.wire.left.open && s.wire.right.open
                then d' == d.(written := d.written + data) && t.wire == Wire.Post(s.wire, e, data)
                else t == s)
  {
    hide Wire.Post;
  }

  /** What is written is read: bytes that a write takes are, after so many turns of the event loop, the last of those the
      reader has taken or can take, behind everything that was written before. */
  lemma WrittenIsRead(steps: seq<Step>, e: End, data: Bytes)
    requires var s := Run(IDLE, steps);
             && s.At(e).attached && s.At(e).open && s.At(e.Peer()).attached && s.wire.left.open && s.wire.right.open
    ensures var s := Run(IDLE, steps); var h := s.wire.At(e.Peer());
            && h.held + h.flying <= |h.accepted|
            && exists n: nat :: n <= |s.wire.events| + 3
                 && var d := Run(Apply(s, Write(e, data)), Turns(n)).At(e.Peer());
                    d.taken + d.Unread() == Flatten(WireLaws.Arrival(h.accepted, h.held, h.flying)) + data
  {
    var s := Run(IDLE, steps);
    IdleInv();
    RunKeeps(IDLE, steps);
    hide Run, Apply, Inv, Flatten, WireLaws.Arrival;
    var n := WriteThenTurns(s, e, data);
    HeardInFull(s, e, data, n);
  }

  lemma WriteThenTurns(s: System, e: End, data: Bytes) returns (n: nat)
    requires s.At(e).attached && s.At(e).open && s.wire.left.open && s.wire.right.open
    ensures n <= |s.wire.events| + 3
    ensures Run(Apply(s, Write(e, data)), Turns(n)).wire == WireLaws.Drain(Wire.Post(s.wire, e, data))
  {
    var w := Wire.Post(s.wire, e, data);
    WriteTakes(s, e, data);
    WireLaws.PostAccepts(s.wire, e, data);
    WireLaws.DrainIsShort(w);
    hide Run, Apply, Wire.Run, Wire.Post, WireLaws.Drain;
    n :| n <= |w.events| + WireLaws.OpenEnds(w) && WireLaws.Drain(w) == Wire.Run(w, WireLaws.Turns(n));
    TurnsOfTheWire(Apply(s, Write(e, data)), n);
  }

  lemma HeardInFull(s: System, e: End, data: Bytes, n: nat)
    requires Inv(s) && s.At(e.Peer()).attached && s.wire.left.open && s.wire.right.open
    requires Run(Apply(s, Write(e, data)), Turns(n)).wire == WireLaws.Drain(Wire.Post(s.wire, e, data))
    ensures var h, d := s.wire.At(e.Peer()), Run(Apply(s, Write(e, data)), Turns(n)).At(e.Peer());
            && h.held + h.flying <= |h.accepted|
            && d.taken + d.Unread() == Flatten(WireLaws.Arrival(h.accepted, h.held, h.flying)) + data
  {
    var p, s1, h := e.Peer(), Apply(s, Write(e, data)), s.wire.At(e.Peer());
    hide Inv, Run, Apply, Flatten, WireLaws.Inv, WireLaws.Drain, WireLaws.Arrival, Wire.Post;
    ApplyKeeps(s, Write(e, data));
    StartedIsAttached(s, p);
    WireLaws.PostedOn(s.wire, e, data);
    RunKeeps(s1, Turns(n));
    ReadsWhatWasHeard(Run(s1, Turns(n)), p);
    PostedBytes(WireLaws.Arrival(h.accepted, h.held, h.flying), data);
  }

  lemma StartedIsAttached(s: System, e: End)
    requires Inv(s)
    ensures s.wire.At(e).started == s.At(e).attached && WireLaws.Inv(s.wire)
  {
    hide WireLaws.Inv, Flatten;
    assert EndInv(s, e);
  }

  lemma ReadsWhatWasHeard(s: System, e: End)
    requires Inv(s)
    ensures s.At(e).taken + s.At(e).Unread() == Flatten(s.wire.At(e).received)
  {
    hide WireLaws.Inv, Flatten;
    assert EndInv(s, e);
  }

  // ---- the device follows its port ----

  /** The device is there, and is open as long as its port is open and nobody has closed the device. */
  predicate Follows(s: System, e: End, shut: bool) {
    s.At(e).attached && (s.At(e).open <==> s.wire.At(e).open && !shut)
  }

  lemma FollowsStep(s: System, step: Step, e: End, shut: bool)
    requires Follows(s, e, shut)
    ensures Follows(Apply(s, step), e, shut || step == CloseDevice(e))
  {
    match step
    case Turn => FollowsSignal(s, Wire.DoTurn, e, shut);
    case ClosePort(x) => FollowsSignal(s, Wire.DoClose(x), e, shut);
    case _ => hide Flatten;
  }

  lemma FollowsSignal(s: System, step: Wire.Step, e: End, shut: bool)
    requires Follows(s, e, shut) && (step.DoTurn? || step.DoClose?)
    ensures Follows(Signalled(s, step), e, shut)
  {
    var h, h' := s.wire.At(e), Wire.Apply(s.wire, step).At(e);
    assert if h.open && !h'.open then h'.closes > h.closes else h'.open == h.open && h'.closes == h.closes;
    WireGrows(s.wire, step, e);
    hide Wire.Apply;
    MessagesLeaveOpen(s.At(e), h'.received[|h.received|..]);
  }

  lemma {:induction false} MessagesLeaveOpen(d: Device, messages: seq<Bytes>)
    ensures OnMessages(d, messages).open == d.open && OnMessages(d, messages).attached == d.attached
    decreases |messages|
  {
    if messages != [] {
      MessagesLeaveOpen(OnMessage(d, messages[0]), messages[1..]);
    }
  }

  lemma {:induction false} FollowsRun(s: System, steps: seq<Step>, e: End, shut: bool)
    requires Follows(s, e, shut)
    ensures Follows(Run(s, steps), e, shut || CloseDevice(e) in steps)
    decreases |steps|
  {
    hide Follows, Apply;
    if steps != [] {
      FollowsStep(s, steps[0], e, shut);
      FollowsRun(Apply(s, steps[0]), steps[1..], e, shut || steps[0] == CloseDevice(e));
      assert steps == [steps[0]] + steps[1..];
    }
  }

  /** A device built on an open port is open as long as that port is, and no longer: over any later run it is open if and only
      if the port has not closed and the device has not been closed itself. Building it starts the port. */
  lemma DeviceFollowsPort(before: seq<Step>, e: End, later: seq<Step>)
    requires var s := Run(IDLE, before); !s.At(e).attached && s.wire.At(e).open
    ensures var s1 := Apply(Run(IDLE, before), Attach(e)); var t := Run(s1, later);
            && s1.wire.At(e).started && s1.At(e.Peer()) == Run(IDLE, before).At(e.Peer())
            && t.At(e).attached && (t.At(e).open <==> t.wire.At(e).open && CloseDevice(e) !in later)
  {
    var s := Run(IDLE, before);
    var s1 := Apply(s, Attach(e));
    StartLeaves(s.wire, e);
    assert s1.wire.At(e).open;
    hide Run, Wire.Start;
    FollowsRun(s1, later, e, false);
  }
}

/** The device as an object over a borrowed port, which may be missing or have been deleted since. */
module PortDevices {
  import opened Sequences
  import opened PortBuffer
  import Wire
  import LoopbackPorts

  class PortDevice {
    var port: LoopbackPorts.LoopbackPort?
    var open: bool
    var buffer: Bytes
    var readPos: nat

    ghost var taken: Bytes
    ghost var written: Bytes

    ghost function View(): Device
      reads this
    {
      Device(true, open, buffer, readPos, taken, written)
    }

    /** The port, if there is one, is started last, once the reader is connected and open. */
    constructor (port: LoopbackPorts.LoopbackPort?)
      requires port != null ==> port.Valid()
      modifies if port == null then {} else {port, port.loop}
      ensures this.port == port && (port != null ==> port.Valid())
      ensures View() == NO_DEVICE.(attached := true, open := true) && View().Valid()
      ensures port != null ==> port.View() == Wire.Start(old(port.View()), port.side)
    {
      this.port := port;
      open, buffer, readPos := true, [], 0;
      taken, written := [], [];
      new;
      if port != null {
        port.Start();
      }
    }

    method BytesAvailable() returns (n: nat)
      requires View().Valid()
      ensures n == |View().Unread()|
    {
      n := |buffer| - readPos;
    }

    method Close()
      modifies this`open
      ensures !open
    {
      if !open {
        return;
      }
      open := false;
    }

    /** Copies the next bytes into the caller's memory, as many as there are and it has room for. */
    method ReadData(data: array<byte>, maxSize: nat) returns (n: nat)
      requires View().Valid() && open && maxSize <= data.Length
      modifies this, data
      ensures View() == Read(old(View()), maxSize) && View().Valid()
      ensures n == Min(|old(View()).Unread()|, maxSize)
      ensures data[..n] == old(View()).Unread()[..n]
      ensures data[n..] == old(data[n..])
    {
      var available := |buffer| - readPos;
      if available <= 0 {
        return 0;
      }
      n := Min(available, maxSize);
      ghost var before := data[..];
      for i := 0 to n
        invariant readPos == old(readPos) && buffer == old(buffer) && open
        invariant taken == old(taken) && written == old(written)
        invariant data[..i] == buffer[readPos..readPos + i]
        invariant data[i..] == before[i..]
      {
        data[i] := buffer[readPos + i];
        assert data[..i + 1] == data[..i] + [buffer[readPos + i]];
      }
      taken := taken + buffer[readPos..readPos + n];
      readPos := readPos + n;
      if readPos == |buffer| {
        buffer, readPos := [], 0;
      }
    }

    /** Posts the bytes as one message, or answers -1 when there is no port or it is not open. */
    method WriteData(data: Bytes) returns (n: int)
      requires open && (port != null ==> port.Valid())
      modifies this`written, if port == null then {} else port.Beyond()
      ensures port != null ==> port.Valid() && port.View() == Wire.Post(old(port.View()), port.side, data)
      ensures n == if port != null && old(port.View().IsOpen(port.side)) then |data| else -1
      ensures View() == old(View()).(written := if n < 0 then old(written) else old(written) + data)
    {
      if port == null {
        return -1;
      }
      var live := port.IsOpen();
      if !live {
        return -1;
      }
      port.Post(data);
      written := written + data;
      n := |data|;
    }

    method HandleMessage(message: Bytes)
      modifies this`buffer
      ensures View() == OnMessage(old(View()), message)
    {
      if message == [] {
        return;
      }
      buffer := buffer + message;
    }

    method HandlePortClosed()
      modifies this`open
      ensures View() == OnPortClosed(old(View()))
    {
      Close();
    }
  }
}
