/** Qt Remote Objects over message ports (src/LogosMessagePortTransport.cpp): the registry that
    hands each published port out once, the clients that retry and the servers that listen. */
module PortTransportModel {
  import opened Sequences

  type Name = string

  /** The two ends of one channel are numbered 2k and 2k + 1. */
  type Port = nat

  function Peer(p: Port): Port { if p % 2 == 0 then p + 1 else p - 1 }

  /** A device on a port. `bornDead` records that the port's own end had already closed when it was taken. */
  datatype Device = Device(port: Port, open: bool, bornDead: bool)

  datatype Client = Client(name: Name, device: Option<Device>, closing: bool, retries: nat)

  /** `announcements` counts the newConnection signals still in the event loop. */
  datatype Server = Server(name: Name, listening: bool, pending: seq<Port>, devices: seq<Device>, announcements: nat)

  // ---- names ----

  /** The name a URL path stands for: the path without its leading slashes. */
  function PortNameOf(path: string): Name {
    if path != [] && path[0] == '/' then PortNameOf(path[1..]) else path
  }

  lemma {:induction false} PortNameStripsSlashes(path: string)
    ensures var name := PortNameOf(path);
            && |name| <= |path| && name == path[|path| - |name|..]
            && (forall i :: 0 <= i < |path| - |name| ==> path[i] == '/')
            && (name == [] || name[0] != '/')
    decreases |path|
  {
    if path != [] && path[0] == '/' {
      PortNameStripsSlashes(path[1..]);
    }
  }

  method PortNameOfLoop(path: string) returns (name: Name)
    ensures name == PortNameOf(path)
  {
    name := path;
    while name != [] && name[0] == '/'
      invariant PortNameOf(name) == PortNameOf(path)
      decreases |name|
    {
      name := name[1..];
    }
  }

  // ---- one component at a time ----

  function Discarded(c: Client): Client { c.(device := None) }

  /** connectToServer(): a live device is kept; anything else is let go and the next port taken. */
  function Connected(c: Client, ports: map<Name, Port>, closed: set<Port>): Client {
    if c.device.Some? && c.device.value.open then c
    else if c.name in ports then
      var p := ports[c.name];
      Discarded(c).(device := Some(Device(p, true, p in closed)))
    else Discarded(c).(retries := c.retries + 1)
  }

  predicate Takes(c: Client, ports: map<Name, Port>) {
    !(c.device.Some? && c.device.value.open) && c.name in ports
  }

  /** doDisconnectFromServer() and the device's part of doClose(). */
  function ShutDevice(c: Client): Client {
    if c.device.None? then c else c.(device := Some(c.device.value.(open := false)))
  }

  /** What a client does when a port emits closed(): a device on that port is dropped and a retry asked for. */
  function ClientHearsClose(c: Client, p: Port): Client {
    if c.device.Some? && c.device.value.port == p then Discarded(c).(retries := c.retries + 1) else c
  }

  function DeviceHearsClose(d: Device, p: Port): Device { if d.port == p then d.(open := false) else d }

  function ServerHearsClose(s: Server, p: Port): Server {
    s.(devices := seq(|s.devices|, k requires 0 <= k < |s.devices| => DeviceHearsClose(s.devices[k], p)))
  }

  predicate Wants(s: Server, name: Name, ports: map<Name, Port>) {
    s.listening && name == s.name && name in ports
  }

  /** onPublished(): a listening server of that name takes the port and announces it through the event loop. */
  function Heard(s: Server, name: Name, ports: map<Name, Port>): Server {
    if Wants(s, name, ports) then s.(pending := s.pending + [ports[name]], announcements := s.announcements + 1)
    else s
  }

  function PortsAfter(s: Server, name: Name, ports: map<Name, Port>): map<Name, Port> {
    if Wants(s, name, ports) then ports - {name} else ports
  }

  /** configureNewConnection() */
  function Configured(s: Server, closed: set<Port>): Server {
    if s.pending == [] then s
    else s.(pending := s.pending[1..], devices := s.devices + [Device(s.pending[0], true, s.pending[0] in closed)])
  }
}

module PortTransport {
  import opened Sequences
  import opened PortTransportModel

  /** Where a published port is now. */
  datatype Place = InRegistry(name: Name) | Waiting(server: nat) | AtClient(client: nat) | AtServer(server: nat) | LetGo

  /** The whole transport of one process. `closed` are the port ends that have closed and `news` the closes on their way
      to the other end. `place` follows every port ever published. */
  datatype State = State(
    ports: map<Name, Port>, clients: seq<Client>, servers: seq<Server>,
    closed: set<Port>, news: seq<Port>, place: map<Port, Place>)

  const EMPTY := State(map[], [], [], {}, [], map[])

  datatype Step =
    | Publish(name: Name, port: Port)
    | Withdraw(name: Name)
    | NewClient(path: string)
    | NewServer
    | Listen(i: nat, path: string)
    | CloseServer(i: nat)
    | Announce(i: nat)
    | Connect(i: nat)
    | Disconnect(i: nat)
    | CloseClient(i: nat)
    | ClosePort(port: Port)
    | NewsArrives

  function Move(place: map<Port, Place>, ports: map<Name, Port>, name: Name, to: Place): map<Port, Place> {
    if name in ports then place[ports[name] := to] else place
  }

  function Hear(t: State, i: nat, name: Name): State
    requires i < |t.servers|
  {
    var s := t.servers[i];
    if !Wants(s, name, t.ports) then t
    else t.(servers := t.servers[i := Heard(s, name, t.ports)], ports := PortsAfter(s, name, t.ports),
            place := Move(t.place, t.ports, name, Waiting(i)))
  }

  /** published() reaches the servers one after the other. */
  function HearFrom(t: State, i: nat, name: Name): State
    requires i <= |t.servers|
    decreases |t.servers| - i
  {
    if i == |t.servers| then t else HearFrom(Hear(t, i, name), i + 1, name)
  }

  function Entered(t: State, name: Name, p: Port): State {
    t.(ports := t.ports[name := p], place := Move(t.place, t.ports, name, LetGo)[p := InRegistry(name)])
  }

  function Published(t: State, name: Name, p: Port): State {
    if name == [] then t else HearFrom(Entered(t, name, p), 0, name)
  }

  function Listened(t: State, i: nat, path: string): State
    requires i < |t.servers|
  {
    var name := PortNameOf(path);
    var s := t.servers[i].(name := name);
    if name == [] then t.(servers := t.servers[i := s])
    else Hear(t.(servers := t.servers[i := s.(listening := true)]), i, name)
  }

  function SetServer(t: State, i: nat, s: Server): State
    requires i < |t.servers|
  {
    t.(servers := t.servers[i := s])
  }

  function LetGoAll(place: map<Port, Place>, ports: seq<Port>): map<Port, Place> {
    place + map p | p in ports :: LetGo
  }

  function Served(t: State, i: nat): State
    requires i < |t.servers|
  {
    var s := t.servers[i];
    if s.announcements == 0 then t
    else
      var s' := s.(announcements := s.announcements - 1);
      if s.pending == [] then SetServer(t, i, s')
      else SetServer(t, i, Configured(s', t.closed)).(place := t.place[s.pending[0] := AtServer(i)])
  }

  function Reconnected(t: State, i: nat): State
    requires i < |t.clients|
  {
    var c := t.clients[i];
    if c.device.Some? && c.device.value.open then t
    else
      var place := if c.device.Some? then t.place[c.device.value.port := LetGo] else t.place;
      var t' := t.(clients := t.clients[i := Connected(c, t.ports, t.closed)]);
      if c.name !in t.ports then t'.(place := place)
      else t'.(ports := t.ports - {c.name}, place := place[t.ports[c.name] := AtClient(i)])
  }

  function PortClosed(t: State, p: Port): State {
    if p in t.closed then t
    else
      t.(closed := t.closed + {p}, news := t.news + [Peer(p)],
         clients := seq(|t.clients|, i requires 0 <= i < |t.clients| => ClientHearsClose(t.clients[i], p)),
         servers := seq(|t.servers|, i requires 0 <= i < |t.servers| => ServerHearsClose(t.servers[i], p)),
         place := if exists i :: 0 <= i < |t.clients| && t.clients[i].device.Some? && t.clients[i].device.value.port == p
                  then t.place[p := LetGo] else t.place)
  }

  function Apply(t: State, step: Step): State {
    match step
    case Publish(name, p) => Published(t, name, p)
    case Withdraw(name) => t.(ports := t.ports - {name}, place := Move(t.place, t.ports, name, LetGo))
    case NewClient(path) => t.(clients := t.clients + [Client(PortNameOf(path), None, false, 0)])
    case NewServer => t.(servers := t.servers + [Server([], false, [], [], 0)])
    case Listen(i, path) => if i < |t.servers| then Listened(t, i, path) else t
    case CloseServer(i) =>
      if i < |t.servers|
      then SetServer(t, i, t.servers[i].(listening := false, pending := []))
             .(place := LetGoAll(t.place, t.servers[i].pending))
      else t
    case Announce(i) => if i < |t.servers| then Served(t, i) else t
    case Connect(i) => if i < |t.clients| then Reconnected(t, i) else t
    case Disconnect(i) => if i < |t.clients| then t.(clients := t.clients[i := ShutDevice(t.clients[i])]) else t
    case CloseClient(i) =>
      if i < |t.clients| then t.(clients := t.clients[i := ShutDevice(t.clients[i]).(closing := true)]) else t
    case ClosePort(p) => PortClosed(t, p)
    case NewsArrives => if t.news == [] then t else PortClosed(t.(news := t.news[1..]), t.news[0])
  }

  function Run(t: State, steps: seq<Step>): State
    decreases |steps|
  {
    if steps == [] then t else Run(Apply(t, steps[0]), steps[1..])
  }

  // ---- who holds what ----

  datatype Holder =
    | TheRegistry(name: Name)
    | PendingAt(server: nat, k: nat)
    | TheClient(client: nat)
    | DeviceAt(server: nat, k: nat)

  predicate Holds(t: State, h: Holder, p: Port) {
    match h
    case TheRegistry(name) => name in t.ports && t.ports[name] == p
    case PendingAt(i, k) => i < |t.servers| && k < |t.servers[i].pending| && t.servers[i].pending[k] == p
    case TheClient(i) => i < |t.clients| && t.clients[i].device.Some? && t.clients[i].device.value.port == p
    case DeviceAt(i, k) => i < |t.servers| && k < |t.servers[i].devices| && t.servers[i].devices[k].port == p
  }

  predicate At(t: State, p: Port, x: Place) { p in t.place && t.place[p] == x }

  ghost predicate RegistryInv(t: State) {
    forall name :: name in t.ports ==> name != [] && At(t, t.ports[name], InRegistry(name))
  }

  ghost predicate ServerInv(t: State, i: nat)
    requires i < |t.servers|
  {
    var s := t.servers[i];
    && (forall k :: 0 <= k < |s.pending| ==> At(t, s.pending[k], Waiting(i)))
    && (forall k :: 0 <= k < |s.devices| ==> At(t, s.devices[k].port, AtServer(i)))
    && (forall j, k :: 0 <= j < k < |s.pending| ==> s.pending[j] != s.pending[k])
    && (forall j, k :: 0 <= j < k < |s.devices| ==> s.devices[j].port != s.devices[k].port)
    && |s.pending| <= s.announcements
  }

  /** A listening server leaves nothing under its name in the registry. */
  predicate Drained(t: State, i: nat)
    requires i < |t.servers|
  {
    t.servers[i].listening ==> t.servers[i].name !in t.ports
  }

  ghost predicate ClientInv(t: State, i: nat)
    requires i < |t.clients|
  {
    var c := t.clients[i];
    c.device.Some? ==> At(t, c.device.value.port, AtClient(i))
  }

  /** Everything but Drained. */
  ghost predicate HeldInv(t: State) {
    && RegistryInv(t)
    && (forall i :: 0 <= i < |t.servers| ==> ServerInv(t, i))
    && (forall i :: 0 <= i < |t.clients| ==> ClientInv(t, i))
  }

  ghost predicate Inv(t: State) {
    HeldInv(t) && forall i :: 0 <= i < |t.servers| ==> Drained(t, i)
  }

  /** Somebody other than the entry of this name has the port. */
  ghost predicate HeldElsewhere(t: State, name: Name, p: Port) {
    exists h :: Holds(t, h, p) && h != TheRegistry(name)
  }

  /** The step publishes a port that is still held: it was published before and has not been let go. */
  ghost predicate Shares(t: State, step: Step) {
    step.Publish? && step.name != [] && HeldElsewhere(t, step.name, step.port)
  }

  ghost predicate NoneShared(t: State, steps: seq<Step>)
    decreases |steps|
  {
    steps == [] || (!Shares(t, steps[0]) && NoneShared(Apply(t, steps[0]), steps[1..]))
  }

  // ---- every step keeps the invariant ----

  lemma HearKeeps(t: State, i: nat, name: Name)
    requires HeldInv(t) && i < |t.servers|
    ensures var t' := Hear(t, i, name);
            && HeldInv(t') && |t'.servers| == |t.servers| && t'.ports.Keys <= t.ports.Keys
            && (forall j :: 0 <= j < |t.servers| ==>
                  t'.servers[j].listening == t.servers[j].listening && t'.servers[j].name == t.servers[j].name)
            && (t.servers[i].listening && t.servers[i].name == name ==> name !in t'.ports)
  {
    var s, t' := t.servers[i], Hear(t, i, name);
    if Wants(s, name, t.ports) {
      var p := t.ports[name];
      assert At(t, p, InRegistry(name));
      assert ServerInv(t, i);
      forall j | 0 <= j < |t'.servers| ensures ServerInv(t', j) {
        assert ServerInv(t, j);
      }
      forall j | 0 <= j < |t'.clients| ensures ClientInv(t', j) {
        assert ClientInv(t, j);
      }
      assert RegistryInv(t');
    }
  }

  lemma {:induction false} HearFromKeeps(t: State, i: nat, name: Name)
    requires HeldInv(t) && i <= |t.servers|
    requires forall j :: 0 <= j < |t.servers| && (j < i || t.servers[j].name != name) ==> Drained(t, j)
    ensures Inv(HearFrom(t, i, name))
    decreases |t.servers| - i
  {
    hide HeldInv, Hear;
    if i < |t.servers| {
      HearKeeps(t, i, name);
      HearFromKeeps(Hear(t, i, name), i + 1, name);
    }
  }

  lemma NotHeld(t: State, name: Name, p: Port)
    requires !HeldElsewhere(t, name, p)
    ensures forall n :: n in t.ports && n != name ==> t.ports[n] != p
    ensures forall i, k :: 0 <= i < |t.servers| && 0 <= k < |t.servers[i].pending| ==> t.servers[i].pending[k] != p
    ensures forall i, k :: 0 <= i < |t.servers| && 0 <= k < |t.servers[i].devices| ==> t.servers[i].devices[k].port != p
    ensures forall i :: 0 <= i < |t.clients| && t.clients[i].device.Some? ==> t.clients[i].device.value.port != p
  {
    forall n | n in t.ports && n != name ensures t.ports[n] != p {
      assert !Holds(t, TheRegistry(n), p);
    }
    forall i, k | 0 <= i < |t.servers| && 0 <= k < |t.servers[i].pending| ensures t.servers[i].pending[k] != p {
      assert !Holds(t, PendingAt(i, k), p);
    }
    forall i, k | 0 <= i < |t.servers| && 0 <= k < |t.servers[i].devices| ensures t.servers[i].devices[k].port != p {
      assert !Holds(t, DeviceAt(i, k), p);
    }
    forall i | 0 <= i < |t.clients| && t.clients[i].device.Some? ensures t.clients[i].device.value.port != p {
      assert !Holds(t, TheClient(i), p);
    }
  }

  lemma PublishKeeps(t: State, name: Name, p: Port)
    requires Inv(t) && !HeldElsewhere(t, name, p)
    ensures Inv(Published(t, name, p))
  {
    hide HeldElsewhere;
    NotHeld(t, name, p);
    if name != [] {
      var t1 := Entered(t, name, p);
      assert forall x :: x in t.place && x != p && !(name in t.ports && x == t.ports[name]) ==> t1.place[x] == t.place[x];
      assert name in t.ports ==> At(t, t.ports[name], InRegistry(name));
      forall j | 0 <= j < |t.servers| ensures ServerInv(t1, j) {
        assert ServerInv(t, j);
      }
      forall j | 0 <= j < |t.clients| ensures ClientInv(t1, j) {
        assert ClientInv(t, j);
      }
      assert RegistryInv(t1);
      forall j | 0 <= j < |t.servers| && t.servers[j].name != name ensures Drained(t1, j) {
        assert Drained(t, j);
      }
      HearFromKeeps(t1, 0, name);
    }
  }

  lemma WithdrawKeeps(t: State, name: Name)
    requires Inv(t)
    ensures Inv(Apply(t, Withdraw(name)))
  {
    var t' := Apply(t, Withdraw(name));
    if name in t.ports {
      assert At(t, t.ports[name], InRegistry(name));
      forall j | 0 <= j < |t.servers| ensures ServerInv(t', j) && Drained(t', j) {
        assert ServerInv(t, j) && Drained(t, j);
      }
      forall j | 0 <= j < |t.clients| ensures ClientInv(t', j) {
        assert ClientInv(t, j);
      }
      assert RegistryInv(t');
    } else {
      assert t' == t;
    }
  }

  lemma ListenKeeps(t: State, i: nat, path: string)
    requires Inv(t) && i < |t.servers|
    ensures Inv(Listened(t, i, path))
  {
    var name := PortNameOf(path);
    var s := t.servers[i].(name := name, listening := t.servers[i].listening || name != []);
    var t1 := t.(servers := t.servers[i := s]);
    assert HeldInv(t1) by {
      forall j | 0 <= j < |t.servers| ensures ServerInv(t1, j) {
        assert ServerInv(t, j) && ServerInv(t, i);
      }
      forall j | 0 <= j < |t.clients| ensures ClientInv(t1, j) {
        assert ClientInv(t, j);
      }
      assert RegistryInv(t1);
    }
    if name == [] {
      assert Listened(t, i, path) == t1;
      assert name !in t.ports;
    } else {
      assert Listened(t, i, path) == Hear(t1, i, name);
      HearKeeps(t1, i, name);
    }
    forall j | 0 <= j < |t.servers| ensures Drained(Listened(t, i, path), j) {
      assert Drained(t, j);
    }
  }

  lemma CloseServerKeeps(t: State, i: nat)
    requires Inv(t) && i < |t.servers|
    ensures Inv(Apply(t, CloseServer(i)))
  {
    var t', left := Apply(t, CloseServer(i)), t.servers[i].pending;
    assert ServerInv(t, i);
    assert forall p :: p in left ==> At(t, p, Waiting(i));
    assert forall x :: x in t.place && x !in left ==> x in t'.place && t'.place[x] == t.place[x];
    forall j | 0 <= j < |t.servers| ensures ServerInv(t', j) && Drained(t', j) {
      assert ServerInv(t, j) && Drained(t, j);
    }
    forall j | 0 <= j < |t.clients| ensures ClientInv(t', j) {
      assert ClientInv(t, j);
    }
    assert RegistryInv(t');
  }

  lemma ServeKeeps(t: State, i: nat)
    requires Inv(t) && i < |t.servers|
    ensures Inv(Served(t, i))
  {
    var t', s := Served(t, i), t.servers[i];
    assert ServerInv(t, i);
    if s.announcements != 0 {
      if s.pending != [] {
        assert At(t, s.pending[0], Waiting(i));
      }
      forall j | 0 <= j < |t.servers| ensures ServerInv(t', j) && Drained(t', j) {
        assert ServerInv(t, j) && Drained(t, j);
      }
      forall j | 0 <= j < |t.clients| ensures ClientInv(t', j) {
        assert ClientInv(t, j);
      }
      assert RegistryInv(t');
    }
  }

  lemma ConnectKeeps(t: State, i: nat)
    requires Inv(t) && i < |t.clients|
    ensures Inv(Reconnected(t, i))
  {
    var t', c := Reconnected(t, i), t.clients[i];
    assert ClientInv(t, i);
    if !(c.device.Some? && c.device.value.open) {
      if c.name in t.ports {
        assert At(t, t.ports[c.name], InRegistry(c.name));
      }
      forall j | 0 <= j < |t.servers| ensures ServerInv(t', j) && Drained(t', j) {
        assert ServerInv(t, j) && Drained(t, j);
      }
      forall j | 0 <= j < |t.clients| ensures ClientInv(t', j) {
        assert ClientInv(t, j);
      }
      assert RegistryInv(t');
    }
  }

  lemma ShutKeeps(t: State, i: nat, closing: bool)
    requires Inv(t) && i < |t.clients|
    ensures Inv(t.(clients := t.clients[i := ShutDevice(t.clients[i]).(closing := closing)]))
  {
    var t' := t.(clients := t.clients[i := ShutDevice(t.clients[i]).(closing := closing)]);
    forall j | 0 <= j < |t.servers| ensures ServerInv(t', j) && Drained(t', j) {
      assert ServerInv(t, j) && Drained(t, j);
    }
    forall j | 0 <= j < |t.clients| ensures ClientInv(t', j) {
      assert ClientInv(t, j) && ClientInv(t, i);
    }
    assert RegistryInv(t');
  }

  lemma ClosePortKeeps(t: State, p: Port)
    requires Inv(t)
    ensures Inv(PortClosed(t, p))
  {
    var t' := PortClosed(t, p);
    if p !in t.closed {
      forall j | 0 <= j < |t.clients| ensures ClientInv(t', j) {
        assert ClientInv(t, j);
      }
      forall j | 0 <= j < |t.servers| ensures ServerInv(t', j) && Drained(t', j) {
        assert ServerInv(t, j) && Drained(t, j);
        var s, s' := t.servers[j], t'.servers[j];
        assert forall k :: 0 <= k < |s.devices| ==> s'.devices[k].port == s.devices[k].port;
        if i :| 0 <= i < |t.clients| && t.clients[i].device.Some? && t.clients[i].device.value.port == p {
          assert ClientInv(t, i);
        }
      }
      assert RegistryInv(t') by {
        if i :| 0 <= i < |t.clients| && t.clients[i].device.Some? && t.clients[i].device.value.port == p {
          assert ClientInv(t, i);
        }
      }
    }
  }

  lemma ApplyKeeps(t: State, step: Step)
    requires Inv(t) && !Shares(t, step)
    ensures Inv(Apply(t, step))
  {
    match step
    case Publish(name, p) =>
      if name != [] {
        PublishKeeps(t, name, p);
      }
    case Withdraw(name) => WithdrawKeeps(t, name);
    case NewClient(path) => NewKeeps(t, Apply(t, step));
    case NewServer => NewKeeps(t, Apply(t, step));
    case Listen(i, path) =>
      if i < |t.servers| {
        ListenKeeps(t, i, path);
      }
    case CloseServer(i) =>
      if i < |t.servers| {
        CloseServerKeeps(t, i);
      }
    case Announce(i) =>
      if i < |t.servers| {
        ServeKeeps(t, i);
      }
    case Connect(i) =>
      if i < |t.clients| {
        ConnectKeeps(t, i);
      }
    case Disconnect(i) =>
      if i < |t.clients| {
        ShutKeeps(t, i, t.clients[i].closing);
        assert ShutDevice(t.clients[i]).(closing := t.clients[i].closing) == ShutDevice(t.clients[i]);
      }
    case CloseClient(i) =>
      if i < |t.clients| {
        ShutKeeps(t, i, true);
      }
    case ClosePort(p) => ClosePortKeeps(t, p);
    case NewsArrives =>
      if t.news != [] {
        NewsKeeps(t);
      }
  }

  lemma NewsKeeps(t: State)
    requires Inv(t) && t.news != []
    ensures Inv(PortClosed(t.(news := t.news[1..]), t.news[0]))
  {
    var t1 := t.(news := t.news[1..]);
    forall j | 0 <= j < |t.servers| ensures ServerInv(t1, j) && Drained(t1, j) {
      assert ServerInv(t, j) && Drained(t, j);
    }
    forall j | 0 <= j < |t.clients| ensures ClientInv(t1, j) {
      assert ClientInv(t, j);
    }
    assert RegistryInv(t1);
    ClosePortKeeps(t1, t.news[0]);
  }

  lemma NewKeeps(t: State, t': State)
    requires Inv(t)
    requires t' == t.(clients := t'.clients, servers := t'.servers)
    requires t'.clients == t.clients || exists c :: Blank(c) && t'.clients == t.clients + [c]
    requires t'.servers == t.servers || t'.servers == t.servers + [Server([], false, [], [], 0)]
    ensures Inv(t')
  {
    forall j | 0 <= j < |t'.servers| ensures ServerInv(t', j) && Drained(t', j) {
      if j < |t.servers| {
        assert ServerInv(t, j) && Drained(t, j);
      }
    }
    forall j | 0 <= j < |t'.clients| ensures ClientInv(t', j) {
      if j < |t.clients| {
        assert ClientInv(t, j);
      }
    }
    assert RegistryInv(t');
  }

  predicate Blank(c: Client) { c.device.None? }

  lemma {:induction false} RunKeeps(t: State, steps: seq<Step>)
    requires Inv(t) && NoneShared(t, steps)
    ensures Inv(Run(t, steps))
    decreases |steps|
  {
    hide Inv, Apply, Shares;
    if steps != [] {
      ApplyKeeps(t, steps[0]);
      RunKeeps(Apply(t, steps[0]), steps[1..]);
    }
  }

  // ---- what holds of every run ----

  ghost predicate Linear(t: State) {
    forall p, h1, h2 :: Holds(t, h1, p) && Holds(t, h2, p) ==> h1 == h2
  }

  lemma HeldOnce(t: State)
    requires Inv(t)
    ensures Linear(t)
  {
    forall p, h1, h2 | Holds(t, h1, p) && Holds(t, h2, p) ensures h1 == h2 {
      HolderTellsPlace(t, p, h1);
      HolderTellsPlace(t, p, h2);
      match t.place[p]
      case InRegistry(_) =>
      case Waiting(i) => assert ServerInv(t, i);
      case AtClient(_) =>
      case AtServer(i) => assert ServerInv(t, i);
      case LetGo =>
    }
  }

  /** Linear ownership: as long as no port is published while it is held, at every moment a port is held by at most one of
      registry entry, waiting list, client and server device; and a listening server has taken whatever was published under
      its name. */
  lemma OwnershipLaw(steps: seq<Step>)
    requires NoneShared(EMPTY, steps)
    ensures var t := Run(EMPTY, steps);
            && Linear(t)
            && (forall i :: 0 <= i < |t.servers| && t.servers[i].listening ==> t.servers[i].name !in t.ports)
            && (forall i :: 0 <= i < |t.servers| ==> |t.servers[i].pending| <= t.servers[i].announcements)
  {
    var t := Run(EMPTY, steps);
    assert Inv(EMPTY);
    RunKeeps(EMPTY, steps);
    hide Run, NoneShared, Linear;
    HeldOnce(t);
    forall i | 0 <= i < |t.servers| && t.servers[i].listening ensures t.servers[i].name !in t.ports {
      assert Drained(t, i);
    }
    forall i | 0 <= i < |t.servers| ensures |t.servers[i].pending| <= t.servers[i].announcements {
      assert ServerInv(t, i);
    }
  }

  /** Exactly as long: publishing a port that somebody else still holds gives it two holders. */
  lemma PublishingExactly(steps: seq<Step>, step: Step)
    requires NoneShared(EMPTY, steps)
    ensures Linear(Apply(Run(EMPTY, steps), step)) <==> !Shares(Run(EMPTY, steps), step)
  {
    var t := Run(EMPTY, steps);
    assert Inv(EMPTY);
    RunKeeps(EMPTY, steps);
    hide Run, NoneShared, Inv, Apply, HeldElsewhere;
    if Shares(t, step) {
      TwoHolders(t, step.name, step.port);
      assert Apply(t, step) == Published(t, step.name, step.port) by {
        PublishApplies(t, step);
      }
    } else {
      ApplyKeeps(t, step);
      HeldOnce(Apply(t, step));
    }
  }

  /** A run that gets there: a client takes the port, and its owner publishes it again. */
  lemma SharedPort()
    ensures var steps := [NewClient("a"), Publish("a", 0), Connect(0)];
            && NoneShared(EMPTY, steps) && Shares(Run(EMPTY, steps), Publish("a", 0))
            && Holds(Apply(Run(EMPTY, steps), Publish("a", 0)), TheRegistry("a"), 0)
            && Holds(Apply(Run(EMPTY, steps), Publish("a", 0)), TheClient(0), 0)
  {
    var t1 := Apply(EMPTY, NewClient("a"));
    assert PortNameOf("a") == "a";
    var t2 := Apply(t1, Publish("a", 0));
    assert t2 == t1.(ports := map["a" := 0], place := map[0 := InRegistry("a")]);
    var t3 := Apply(t2, Connect(0));
    NothingHeld(t1, "a", 0);
    assert NoneShared(t3, []);
    assert NoneShared(t2, [Connect(0)]);
    assert NoneShared(t1, [Publish("a", 0), Connect(0)]);
    assert [NewClient("a"), Publish("a", 0), Connect(0)][1..] == [Publish("a", 0), Connect(0)];
    assert [Publish("a", 0), Connect(0)][1..] == [Connect(0)] && [Connect(0)][1..] == [];
    assert Run(EMPTY, [NewClient("a"), Publish("a", 0), Connect(0)]) == t3;
    assert Holds(t3, TheClient(0), 0);
  }

  lemma NothingHeld(t: State, name: Name, p: Port)
    requires t.ports == map[] && t.servers == [] && forall i :: 0 <= i < |t.clients| ==> t.clients[i].device.None?
    ensures !HeldElsewhere(t, name, p)
  {
  }

  // ---- publishing each port once ----

  /** The ports a run publishes, in order. */
  function PortsPublished(steps: seq<Step>): seq<Port>
    decreases |steps|
  {
    if steps == [] then []
    else (if steps[0].Publish? then [steps[0].port] else []) + PortsPublished(steps[1..])
  }

  /** Every port that anything holds is one of these. */
  ghost predicate HoldsOnly(t: State, ports: set<Port>) {
    && (forall name :: name in t.ports ==> t.ports[name] in ports)
    && (forall i :: 0 <= i < |t.servers| ==> ServerHoldsOnly(t.servers[i], ports))
    && (forall i :: 0 <= i < |t.clients| && t.clients[i].device.Some? ==> t.clients[i].device.value.port in ports)
  }

  predicate ServerHoldsOnly(s: Server, ports: set<Port>) {
    && (forall k :: 0 <= k < |s.pending| ==> s.pending[k] in ports)
    && (forall k :: 0 <= k < |s.devices| ==> s.devices[k].port in ports)
  }

  lemma {:induction false} HearingHolds(t: State, i: nat, name: Name, ports: set<Port>)
    requires i <= |t.servers| && HoldsOnly(t, ports)
    ensures HoldsOnly(HearFrom(t, i, name), ports)
    decreases |t.servers| - i
  {
    if i < |t.servers| {
      assert ServerHoldsOnly(t.servers[i], ports);
      HearingHolds(Hear(t, i, name), i + 1, name, ports);
    }
  }

  lemma PublishHolds(t: State, name: Name, p: Port, ports: set<Port>)
    requires HoldsOnly(t, ports)
    ensures HoldsOnly(Published(t, name, p), ports + {p})
  {
    forall i | 0 <= i < |t.servers| ensures ServerHoldsOnly(t.servers[i], ports + {p}) {
      assert ServerHoldsOnly(t.servers[i], ports);
    }
    if name != [] {
      assert HoldsOnly(Entered(t, name, p), ports + {p});
      HearingHolds(Entered(t, name, p), 0, name, ports + {p});
    }
  }

  lemma ServerHolds(t: State, i: nat, s: Server, ports: set<Port>)
    requires HoldsOnly(t, ports) && i < |t.servers| && ServerHoldsOnly(s, ports)
    ensures HoldsOnly(t.(servers := t.servers[i := s]), ports)
  {
    hide ServerHoldsOnly;
  }

  lemma ListenHolds(t: State, i: nat, path: string, ports: set<Port>)
    requires HoldsOnly(t, ports) && i < |t.servers|
    ensures HoldsOnly(Listened(t, i, path), ports)
  {
    var name := PortNameOf(path);
    assert ServerHoldsOnly(t.servers[i], ports);
    var s := t.servers[i].(name := name, listening := t.servers[i].listening || name != []);
    ServerHolds(t, i, s, ports);
    if name != [] {
      var t1 := t.(servers := t.servers[i := s]);
      ServerHolds(t1, i, Heard(s, name, t.ports), ports);
    }
  }

  lemma ServeHolds(t: State, i: nat, ports: set<Port>)
    requires HoldsOnly(t, ports) && i < |t.servers|
    ensures HoldsOnly(Served(t, i), ports)
  {
    var s := t.servers[i];
    assert ServerHoldsOnly(s, ports);
    if s.announcements > 0 {
      var s' := s.(announcements := s.announcements - 1);
      ServerHolds(t, i, s', ports);
      ServerHolds(t, i, Configured(s', t.closed), ports);
    }
  }

  lemma CloseServerHolds(t: State, i: nat, ports: set<Port>)
    requires HoldsOnly(t, ports) && i < |t.servers|
    ensures HoldsOnly(Apply(t, CloseServer(i)), ports)
  {
    assert ServerHoldsOnly(t.servers[i], ports);
    ServerHolds(t, i, t.servers[i].(listening := false, pending := []), ports);
  }

  /** No port comes from nowhere. */
  lemma StepHolds(t: State, step: Step, ports: set<Port>)
    requires HoldsOnly(t, ports)
    ensures HoldsOnly(Apply(t, step), if step.Publish? then ports + {step.port} else ports)
  {
    hide Published, Listened, Served, PortClosed, ServerHoldsOnly, PortNameOf, LetGoAll, Move;
    match step
    case Publish(name, p) => PublishHolds(t, name, p, ports);
    case NewServer => assert ServerHoldsOnly(Server([], false, [], [], 0), ports) by { BlankServer(ports); }
    case Listen(i, path) =>
      if i < |t.servers| {
        ListenHolds(t, i, path, ports);
      }
    case CloseServer(i) =>
      if i < |t.servers| {
        CloseServerHolds(t, i, ports);
      }
    case Announce(i) =>
      if i < |t.servers| {
        ServeHolds(t, i, ports);
      }
    case ClosePort(p) => CloseHolds(t, p, ports);
    case NewsArrives =>
      if t.news != [] {
        CloseHolds(t.(news := t.news[1..]), t.news[0], ports);
      }
    case _ =>
  }

  lemma BlankServer(ports: set<Port>)
    ensures ServerHoldsOnly(Server([], false, [], [], 0), ports)
  {
  }

  lemma CloseHolds(t: State, p: Port, ports: set<Port>)
    requires HoldsOnly(t, ports)
    ensures HoldsOnly(PortClosed(t, p), ports)
  {
    forall i | 0 <= i < |t.servers| ensures ServerHoldsOnly(ServerHearsClose(t.servers[i], p), ports) {
      assert ServerHoldsOnly(t.servers[i], ports);
    }
  }

  lemma HeldIsKnown(t: State, h: Holder, p: Port, ports: set<Port>)
    requires HoldsOnly(t, ports) && Holds(t, h, p)
    ensures p in ports
  {
    match h
    case PendingAt(i, k) => assert ServerHoldsOnly(t.servers[i], ports);
    case DeviceAt(i, k) => assert ServerHoldsOnly(t.servers[i], ports);
    case _ =>
  }

  lemma UnknownIsUnheld(t: State, name: Name, p: Port, ports: set<Port>)
    requires HoldsOnly(t, ports) && p !in ports
    ensures !HeldElsewhere(t, name, p)
  {
    hide Holds, HoldsOnly;
    if h :| Holds(t, h, p) && h != TheRegistry(name) {
      HeldIsKnown(t, h, p, ports);
    }
  }

  lemma {:induction false} NewPortsAreUnshared(t: State, steps: seq<Step>, ports: set<Port>)
    requires HoldsOnly(t, ports)
    requires Distinct(PortsPublished(steps)) && forall p :: p in PortsPublished(steps) ==> p !in ports
    ensures NoneShared(t, steps)
    decreases |steps|
  {
    hide HoldsOnly, Apply, HeldElsewhere;
    if steps != [] {
      var step, rest := steps[0], PortsPublished(steps[1..]);
      StepHolds(t, step, ports);
      if step.Publish? {
        assert PortsPublished(steps)[0] == step.port;
        assert forall k :: 0 <= k < |rest| ==> PortsPublished(steps)[k + 1] == rest[k];
        UnknownIsUnheld(t, step.name, step.port, ports);
        NewPortsAreUnshared(Apply(t, step), steps[1..], ports + {step.port});
      } else {
        assert PortsPublished(steps) == rest;
        NewPortsAreUnshared(Apply(t, step), steps[1..], ports);
      }
    }
  }

  /** What a publisher can see to: if no two publications of a run are of the same port, no port ever has two holders. */
  lemma PublishedOnceIsHeldOnce(steps: seq<Step>)
    requires Distinct(PortsPublished(steps))
    ensures NoneShared(EMPTY, steps) && Linear(Run(EMPTY, steps))
  {
    NewPortsAreUnshared(EMPTY, steps, {});
    OwnershipLaw(steps);
  }

  lemma PublishApplies(t: State, step: Step)
    requires step.Publish?
    ensures Apply(t, step) == Published(t, step.name, step.port)
  {
  }

  lemma TwoHolders(t: State, name: Name, p: Port)
    requires name != [] && HeldElsewhere(t, name, p)
    ensures !Linear(Published(t, name, p))
  {
    var h :| Holds(t, h, p) && h != TheRegistry(name);
    var t1 := Entered(t, name, p);
    assert Holds(t1, h, p);
    var other := StillHeld(t1, 0, name, p, h);
    assert Holds(Published(t, name, p), h, p);
  }

  /** Servers that hear of a port add it behind what waits already: whoever else held it still does. */
  lemma {:induction false} StillHeld(t: State, i: nat, name: Name, p: Port, h: Holder) returns (other: Holder)
    requires i <= |t.servers| && Holds(t, h, p) && h != TheRegistry(name)
    requires name in t.ports && t.ports[name] == p
    ensures var t' := HearFrom(t, i, name); Holds(t', h, p) && Holds(t', other, p) && other != h
    decreases |t.servers| - i
  {
    other := TheRegistry(name);
    if i < |t.servers| {
      var t1, s := Hear(t, i, name), t.servers[i];
      assert Holds(t1, h, p);
      if Wants(s, name, t.ports) {
        other := PendingAt(i, |s.pending|);
        assert Holds(t1, other, p) && other != h;
        TakenStays(t1, i + 1, name, p, h);
        TakenStays(t1, i + 1, name, p, other);
      } else {
        other := StillHeld(t1, i + 1, name, p, h);
      }
    }
  }

  lemma {:induction false} TakenStays(t: State, i: nat, name: Name, p: Port, h: Holder)
    requires i <= |t.servers| && name !in t.ports && Holds(t, h, p)
    ensures Holds(HearFrom(t, i, name), h, p)
    decreases |t.servers| - i
  {
    if i < |t.servers| {
      TakenStays(Hear(t, i, name), i + 1, name, p, h);
    }
  }

  predicate Fits(h: Holder, x: Place) {
    match h
    case TheRegistry(name) => x == InRegistry(name)
    case PendingAt(i, _) => x == Waiting(i)
    case TheClient(i) => x == AtClient(i)
    case DeviceAt(i, _) => x == AtServer(i)
  }

  lemma HolderTellsPlace(t: State, p: Port, h: Holder)
    requires Inv(t)
    ensures Holds(t, h, p) ==> p in t.place && Fits(h, t.place[p])
  {
    match h
    case TheRegistry(name) =>
    case PendingAt(i, k) =>
      if i < |t.servers| {
        assert ServerInv(t, i);
      }
    case TheClient(i) =>
      if i < |t.clients| {
        assert ClientInv(t, i);
      }
    case DeviceAt(i, k) =>
      if i < |t.servers| {
        assert ServerInv(t, i);
      }
  }

  /** Every connection attempt ends with an open device, or with none and a retry asked for. */
  lemma ConnectEnds(t: State, i: nat)
    requires i < |t.clients|
    ensures var c, c' := t.clients[i], Apply(t, Connect(i)).clients[i];
            || (c'.device.Some? && c'.device.value.open && c'.retries == c.retries)
            || (c'.device.None? && c'.retries == c.retries + 1)
  {
  }

  // ---- dead ports ----

  /** A device was born dead exactly if its port has closed: one that closes later is let go. Every closed end's peer has
      closed or will hear of it. None of this depends on who holds what. */
  ghost predicate LifeInv(t: State) {
    && (forall x :: x in t.closed && Peer(x) !in t.closed ==> Peer(x) in t.news)
    && (forall i :: 0 <= i < |t.clients| ==> ClientLife(t.clients[i], t.closed))
  }

  predicate ClientLife(c: Client, closed: set<Port>) {
    c.device.Some? ==> (c.device.value.bornDead <==> c.device.value.port in closed)
  }

  /** Closing `p` settles a close whose news has just been taken off the queue. */
  lemma ClosingLife(t: State, p: Port)
    requires forall i :: 0 <= i < |t.clients| ==> ClientLife(t.clients[i], t.closed)
    requires forall x :: x in t.closed && Peer(x) !in t.closed ==> Peer(x) in t.news || Peer(x) == p
    ensures LifeInv(PortClosed(t, p))
  {
    var t' := PortClosed(t, p);
    if p !in t.closed {
      assert t'.news[|t.news|] == Peer(p);
      assert forall x :: x in t.news ==> x in t'.news;
    }
  }

  lemma LifeKeeps(t: State, step: Step)
    requires LifeInv(t)
    ensures LifeInv(Apply(t, step))
  {
    match step
    case Publish(name, p) => HearingMovesNoClient(Entered(t, name, p), 0, name);
    case ClosePort(p) => ClosingLife(t, p);
    case NewsArrives =>
      if t.news != [] {
        assert t.news == [t.news[0]] + t.news[1..];
        ClosingLife(t.(news := t.news[1..]), t.news[0]);
      }
    case _ =>
  }

  lemma {:induction false} LifeRun(t: State, steps: seq<Step>)
    requires LifeInv(t)
    ensures LifeInv(Run(t, steps))
    decreases |steps|
  {
    hide LifeInv, Apply;
    if steps != [] {
      LifeKeeps(t, steps[0]);
      LifeRun(Apply(t, steps[0]), steps[1..]);
    }
  }

  predicate OpenChannel(t: State, p: Port) { p !in t.closed && Peer(p) !in t.closed }

  lemma DrainedLife(t: State, i: nat)
    requires LifeInv(t) && t.news == [] && i < |t.clients| && t.clients[i].device.Some?
    ensures var d := t.clients[i].device.value; OpenChannel(t, d.port) <==> !d.bornDead
  {
    assert ClientLife(t.clients[i], t.closed);
    var p := t.clients[i].device.value.port;
    assert Peer(Peer(p)) == p;
    assert Peer(p) in t.closed ==> p in t.closed;
  }

  /** Once the closes have drained, a client's device is on a live channel exactly when its port was
      open when it was taken. */
  lemma DeviceLife(steps: seq<Step>, i: nat)
    requires var t := Run(EMPTY, steps); i < |t.clients| && t.clients[i].device.Some? && t.news == []
    ensures var t := Run(EMPTY, steps); var d := t.clients[i].device.value;
            OpenChannel(t, d.port) <==> !d.bornDead
  {
    LifeRun(EMPTY, steps);
    hide Run, LifeInv;
    DrainedLife(Run(EMPTY, steps), i);
  }

  predicate HasOpenDevice(c: Client) { c.device.Some? && c.device.value.open }

  /** A retry, exactly: once the closes have drained, connectToServer() leaves the client on a live channel if and only if it
      has an open device on a port that was open when taken, or has no open device and finds a live port under its name. */
  lemma RetryExactly(steps: seq<Step>, i: nat)
    requires i < |Run(EMPTY, steps).clients| && Run(EMPTY, steps).news == []
    ensures var t := Run(EMPTY, steps); var c, c' := t.clients[i], Apply(t, Connect(i)).clients[i];
            HasOpenDevice(c') && OpenChannel(t, c'.device.value.port) <==>
            if HasOpenDevice(c) then !c.device.value.bornDead
            else c.name in t.ports && OpenChannel(t, t.ports[c.name])
  {
    if Run(EMPTY, steps).clients[i].device.Some? {
      DeviceLife(steps, i);
    }
  }

  /** Recovery at the retry: whatever led here, once the closes have drained a client whose channel is dead and was not taken
      dead takes the live port under its name. */
  lemma RetryTakes(steps: seq<Step>, i: nat)
    requires var t := Run(EMPTY, steps);
             && i < |t.clients| && t.news == []
             && t.clients[i].name in t.ports && OpenChannel(t, t.ports[t.clients[i].name])
    requires var t := Run(EMPTY, steps); Doomed(t, t.clients[i])
    ensures var t := Run(EMPTY, steps); var name := t.clients[i].name;
            var t' := Apply(t, Connect(i));
            && t'.clients[i].device == Some(Device(t.ports[name], true, false))
            && t'.ports == t.ports - {name} && t'.closed == t.closed && t'.news == []
  {
    if Run(EMPTY, steps).clients[i].device.Some? {
      DeviceLife(steps, i);
    }
  }

  /** The client has no open device, or one whose channel has closed at either end since it was taken; the news of that may
      still be on its way. */
  predicate Doomed(t: State, c: Client) {
    HasOpenDevice(c) ==> !c.device.value.bornDead && !OpenChannel(t, c.device.value.port)
  }

  /** The step leaves the port published under the name of client i to that client, and its device to the port. */
  predicate LeavesTo(t: State, step: Step, i: nat, name: Name) {
    match step
    case Publish(other, _) => other != name
    case Withdraw(other) => other != name
    case Listen(_, path) => PortNameOf(path) != name
    case Connect(j) => j == i || j >= |t.clients| || t.clients[j].name != name
    case Disconnect(j) => j != i
    case CloseClient(j) => j != i
    case _ => true
  }

  predicate LeftAlone(t: State, steps: seq<Step>, i: nat, name: Name)
    decreases |steps|
  {
    steps == [] || (LeavesTo(t, steps[0], i, name) && LeftAlone(Apply(t, steps[0]), steps[1..], i, name))
  }

  /** The port waits under the client's name for a client that will want it, or the client has it. */
  ghost predicate Promised(t: State, i: nat, name: Name, p: Port) {
    && i < |t.clients| && t.clients[i].name == name
    && ((name in t.ports && t.ports[name] == p && Doomed(t, t.clients[i]))
        || t.clients[i].device == Some(Device(p, true, false)))
  }

  lemma {:induction false} OthersHear(t: State, k: nat, other: Name, name: Name)
    requires k <= |t.servers| && other != name
    ensures var t' := HearFrom(t, k, other);
            && t'.clients == t.clients && t'.closed == t.closed && t'.news == t.news
            && (name in t'.ports <==> name in t.ports) && (name in t.ports ==> t'.ports[name] == t.ports[name])
    decreases |t.servers| - k
  {
    if k < |t.servers| {
      OthersHear(Hear(t, k, other), k + 1, other, name);
    }
  }

  lemma PromiseKept(t: State, step: Step, i: nat, name: Name, p: Port)
    requires Promised(t, i, name, p) && LeavesTo(t, step, i, name) && OpenChannel(Apply(t, step), p)
    ensures Promised(Apply(t, step), i, name, p)
  {
    hide PortNameOf;
    match step
    case Publish(other, x) =>
      if other != [] {
        OthersHear(Entered(t, other, x), 0, other, name);
      }
    case ClosePort(x) => CloseKeepsPromise(t, x, i, name, p);
    case NewsArrives =>
      if t.news != [] {
        CloseKeepsPromise(t.(news := t.news[1..]), t.news[0], i, name, p);
      }
    case _ =>
  }

  lemma CloseKeepsPromise(t: State, x: Port, i: nat, name: Name, p: Port)
    requires Promised(t, i, name, p) && OpenChannel(PortClosed(t, x), p)
    ensures Promised(PortClosed(t, x), i, name, p)
  {
  }

  lemma ClosedStays(t: State, step: Step)
    ensures t.closed <= Apply(t, step).closed
  {
    match step
    case Publish(name, p) => HearingMovesNoClient(Entered(t, name, p), 0, name);
    case _ =>
  }

  lemma {:induction false} ClosedStaysRun(t: State, steps: seq<Step>)
    ensures t.closed <= Run(t, steps).closed
    decreases |steps|
  {
    hide Apply;
    if steps != [] {
      ClosedStays(t, steps[0]);
      ClosedStaysRun(Apply(t, steps[0]), steps[1..]);
    }
  }

  lemma {:induction false} PromiseKeptOverRuns(t: State, steps: seq<Step>, i: nat, name: Name, p: Port)
    requires Promised(t, i, name, p) && LeftAlone(t, steps, i, name) && OpenChannel(Run(t, steps), p)
    ensures Promised(Run(t, steps), i, name, p)
    decreases |steps|
  {
    hide Promised, Apply, LeavesTo;
    if steps != [] {
      var t1 := Apply(t, steps[0]);
      ClosedStaysRun(t1, steps[1..]);
      PromiseKept(t, steps[0], i, name, p);
      PromiseKeptOverRuns(t1, steps[1..], i, name, p);
    }
  }

  /** Recovery: a client's channel has died, and a port is published under its name, whether or not the news of the death has
      arrived. Whatever else happens, retries of that client included, as long as nobody else takes, replaces or
      withdraws that port, it stays open and the client is not told to disconnect: once the closes have drained, the next
      retry finds or leaves the client on that port, and the channel is live. */
  lemma RecoveryLaw(before: seq<Step>, i: nat, p: Port, between: seq<Step>)
    requires var t := Run(EMPTY, before);
             && i < |t.clients| && t.clients[i].name != [] && Doomed(t, t.clients[i])
             && (forall j :: 0 <= j < |t.servers| && t.servers[j].listening ==> t.servers[j].name != t.clients[i].name)
    requires var t := Run(EMPTY, before); var name := t.clients[i].name;
             var t1 := Apply(t, Publish(name, p));
             LeftAlone(t1, between, i, name) && Run(t1, between).news == [] && OpenChannel(Run(t1, between), p)
    ensures var t := Run(EMPTY, before);
            var t' := Apply(Run(Apply(t, Publish(t.clients[i].name, p)), between), Connect(i));
            i < |t'.clients| && t'.clients[i].device == Some(Device(p, true, false)) && OpenChannel(t', p)
  {
    var t := Run(EMPTY, before);
    var name := t.clients[i].name;
    var publish := Publish(name, p);
    var t1 := Apply(t, publish);
    NobodyHears(Entered(t, name, p), 0, name);
    assert Promised(t1, i, name, p);
    PromiseKeptOverRuns(t1, between, i, name, p);
    var t2 := Run(t1, between);
    assert LifeInv(t2) by {
      LifeRun(EMPTY, before);
      LifeKeeps(t, publish);
      LifeRun(t1, between);
    }
    hide Run, LeftAlone, LifeInv;
    if t2.clients[i].device.Some? {
      DrainedLife(t2, i);
    }
  }

  lemma {:induction false} NobodyHears(t: State, i: nat, name: Name)
    requires i <= |t.servers|
    requires forall j :: 0 <= j < |t.servers| && t.servers[j].listening ==> t.servers[j].name != name
    ensures HearFrom(t, i, name) == t
    decreases |t.servers| - i
  {
    if i < |t.servers| {
      NobodyHears(t, i + 1, name);
    }
  }

  /** Without the condition a client is stuck: a port that had already closed when it was taken gives an open device that
      hears of no close, and every later retry keeps it. */
  lemma {:induction false} StuckOnADeadPort(t: State, steps: seq<Step>, i: nat)
    requires LifeInv(t) && i < |t.clients|
    requires t.clients[i].device.Some? && t.clients[i].device.value.open && t.clients[i].device.value.bornDead
    requires Disconnect(i) !in steps && CloseClient(i) !in steps
    ensures var t' := Run(t, steps); i < |t'.clients| && t'.clients[i].device == t.clients[i].device
    decreases |steps|
  {
    if steps != [] {
      assert ClientLife(t.clients[i], t.closed);
      LifeKeeps(t, steps[0]);
      StuckStep(t, steps[0], i);
      assert Disconnect(i) !in steps[1..] && CloseClient(i) !in steps[1..];
      StuckOnADeadPort(Apply(t, steps[0]), steps[1..], i);
    }
  }

  lemma StuckStep(t: State, step: Step, i: nat)
    requires i < |t.clients| && t.clients[i].device.Some? && t.clients[i].device.value.open
    requires t.clients[i].device.value.port in t.closed
    requires step != Disconnect(i) && step != CloseClient(i)
    ensures var t' := Apply(t, step); i < |t'.clients| && t'.clients[i].device == t.clients[i].device
  {
    match step
    case Publish(name, p) =>
      HearingMovesNoClient(Entered(t, name, p), 0, name);
    case _ =>
  }

  lemma {:induction false} HearingMovesNoClient(t: State, i: nat, name: Name)
    requires i <= |t.servers|
    ensures var t' := HearFrom(t, i, name); t'.clients == t.clients && t'.closed == t.closed && t'.news == t.news
    decreases |t.servers| - i
  {
    if i < |t.servers| {
      HearingMovesNoClient(Hear(t, i, name), i + 1, name);
    }
  }

  /** ... and such a client exists: the port is closed, published, and then connected to. */
  lemma DeadPortIsTaken(path: string)
    requires PortNameOf(path) != []
    ensures var t := Run(EMPTY, [NewClient(path), ClosePort(0), NewsArrives, NewsArrives,
                                 Publish(PortNameOf(path), 0), Connect(0)]);
            |t.clients| == 1 && t.clients[0].device == Some(Device(0, true, true)) && t.news == []
  {
    hide PortNameOf;
    var name := PortNameOf(path);
    var t1 := Apply(EMPTY, NewClient(path));
    var t4 := Apply(Apply(Apply(t1, ClosePort(0)), NewsArrives), NewsArrives);
    ClosedChannel(t1, 0);
    assert t4 == t1.(closed := {0, 1});
    Unfold6(EMPTY, NewClient(path), ClosePort(0), NewsArrives, NewsArrives, Publish(name, 0), Connect(0));
    assert Apply(t4, Publish(name, 0)) == t4.(ports := map[name := 0], place := map[0 := InRegistry(name)]);
  }

  lemma ClosedChannel(t: State, p: Port)
    requires t.news == [] && t.servers == [] && t.closed == {}
    requires forall i :: 0 <= i < |t.clients| ==> t.clients[i].device.None?
    ensures Apply(Apply(Apply(t, ClosePort(p)), NewsArrives), NewsArrives) == t.(closed := {p, Peer(p)})
  {
    assert Peer(Peer(p)) == p;
    var t2 := Apply(t, ClosePort(p));
    assert t2 == t.(news := [Peer(p)], closed := {p});
    var t3 := Apply(t2, NewsArrives);
    assert t3 == t.(news := [p], closed := {p, Peer(p)});
  }

  lemma Unfold6(t: State, a: Step, b: Step, c: Step, d: Step, e: Step, f: Step)
    ensures Run(t, [a, b, c, d, e, f]) == Apply(Apply(Apply(Apply(Apply(Apply(t, a), b), c), d), e), f)
  {
    hide Apply;
    var t1 := Apply(t, a);
    var t2 := Apply(t1, b);
    var t3 := Apply(t2, c);
    calc {
      Run(t, [a, b, c, d, e, f]);
      Run(t1, [b, c, d, e, f]);
      Run(t2, [c, d, e, f]);
      Run(t3, [d, e, f]);
      Run(Apply(t3, d), [e, f]);
      Run(Apply(Apply(t3, d), e), [f]);
      Run(Apply(Apply(Apply(t3, d), e), f), []);
    }
  }
}

/** The registry, a client's and a server's end as objects. */
module PortTransportObjects {
  import opened Sequences
  import opened PortTransportModel
  import PortTransport

  /** What published(name) does to the servers connected to it, from the i-th on, and to the table of ports. */
  function Round(servers: seq<Server>, i: nat, name: Name, ports: map<Name, Port>): (seq<Server>, map<Name, Port>)
    requires i <= |servers|
    decreases |servers| - i
  {
    if i == |servers| then (servers, ports)
    else
      var s := servers[i];
      Round(servers[i := Heard(s, name, ports)], i + 1, name, PortsAfter(s, name, ports))
  }

  /** The objects' rounds are the transport's. */
  lemma {:induction false} RoundIsHearFrom(t: PortTransport.State, i: nat, name: Name)
    requires i <= |t.servers|
    ensures var t' := PortTransport.HearFrom(t, i, name);
            (t'.servers, t'.ports) == Round(t.servers, i, name, t.ports)
    decreases |t.servers| - i
  {
    if i < |t.servers| {
      var s := t.servers[i];
      if !Wants(s, name, t.ports) {
        assert t.servers[i := s] == t.servers;
      }
      RoundIsHearFrom(PortTransport.Hear(t, i, name), i + 1, name);
    }
  }

  class PortRegistry {
    var ports: map<Name, Port>
    var listeners: seq<MessagePortServer>

    ghost predicate Valid()
      reads this
    {
      forall i, j :: 0 <= i < j < |listeners| ==> listeners[i] != listeners[j]
    }

    ghost function Views(): seq<Server>
      reads this, listeners
    {
      seq(|listeners|, i requires 0 <= i < |listeners| reads this, listeners => listeners[i].View())
    }

    constructor ()
      ensures Valid() && ports == map[] && listeners == []
    {
      ports, listeners := map[], [];
    }

    method Publish(name: Name, port: Port)
      requires Valid()
      modifies this`ports, listeners
      ensures Valid()
      ensures name == [] ==> ports == old(ports) && Views() == old(Views())
      ensures name != [] ==> (Views(), ports) == Round(old(Views()), 0, name, old(ports)[name := port])
    {
      if name == [] {
        return;
      }
      ports := ports[name := port];
      assert Views() == old(Views());
      ghost var goal := Round(Views(), 0, name, ports);
      for i := 0 to |listeners|
        invariant Round(Views(), i, name, ports) == goal
      {
        ghost var before := Views();
        ghost var s := before[i];
        label here:
        listeners[i].OnPublished(name, this);
        assert Views() == before[i := Heard(s, name, old@here(ports))];
      }
    }

    method Withdraw(name: Name)
      modifies this`ports
      ensures ports == old(ports) - {name}
    {
      ports := ports - {name};
    }

    /** Taken, not borrowed. */
    method Take(name: Name) returns (port: Option<Port>)
      modifies this`ports
      ensures port == if name in old(ports) then Some(old(ports)[name]) else None
      ensures ports == old(ports) - {name}
    {
      if name !in ports {
        assert ports - {name} == ports;
        return None;
      }
      port := Some(ports[name]);
      ports := ports - {name};
    }
  }

  class MessagePortServer {
    var name: Name
    var listening: bool
    var pending: seq<Port>
    var devices: seq<Device>
    ghost var announcements: nat

    ghost function View(): Server
      reads this
    {
      Server(name, listening, pending, devices, announcements)
    }

    constructor ()
      ensures View() == Server([], false, [], [], 0)
    {
      name, listening, pending, devices, announcements := [], false, [], [], 0;
    }

    method OnPublished(name': Name, registry: PortRegistry)
      modifies this, registry`ports
      ensures View() == Heard(old(View()), name', old(registry.ports))
      ensures registry.ports == PortsAfter(old(View()), name', old(registry.ports))
    {
      if !listening || name' != name {
        return;
      }
      var port := registry.Take(name');
      if port.None? {
        assert registry.ports == old(registry.ports);
        return;
      }
      pending := pending + [port.value];
      announcements := announcements + 1;
    }

    method Listen(path: string, registry: PortRegistry) returns (ok: bool)
      modifies this, registry`ports
      ensures ok == (PortNameOf(path) != [])
      ensures var s := old(View()).(name := PortNameOf(path));
              if ok then
                var s' := s.(listening := true);
                && View() == Heard(s', s'.name, old(registry.ports))
                && registry.ports == PortsAfter(s', s'.name, old(registry.ports))
              else View() == s && registry.ports == old(registry.ports)
    {
      name := PortNameOfLoop(path);
      if name == [] {
        return false;
      }
      listening := true;
      OnPublished(name, registry);
      ok := true;
    }

    /** The device is built on the port that waited longest. */
    method ConfigureNewConnection(closed: set<Port>) returns (served: bool)
      modifies this
      ensures served == (old(pending) != []) && View() == Configured(old(View()), closed)
    {
      if pending == [] {
        return false;
      }
      devices := devices + [Device(pending[0], true, pending[0] in closed)];
      pending := pending[1..];
      served := true;
    }

    method Close()
      modifies this
      ensures View() == old(View()).(listening := false, pending := [])
    {
      listening := false;
      pending := [];
    }
  }

  class MessagePortClientIo {
    const name: Name
    var device: Option<Device>
    var closing: bool
    ghost var retries: nat

    ghost function View(): Client
      reads this
    {
      Client(name, device, closing, retries)
    }

    constructor (path: string)
      ensures View() == Client(PortNameOf(path), None, false, 0)
    {
      name, device, closing, retries := PortNameOf(path), None, false, 0;
    }

    method ConnectToServer(registry: PortRegistry, closed: set<Port>)
      modifies this, registry`ports
      ensures View() == Connected(old(View()), old(registry.ports), closed)
      ensures registry.ports ==
              if Takes(old(View()), old(registry.ports)) then old(registry.ports) - {name} else old(registry.ports)
    {
      if device.Some? && device.value.open {
        return;
      }
      DiscardDevice();
      var port := registry.Take(name);
      if port.None? {
        assert registry.ports == old(registry.ports);
        retries := retries + 1;
        return;
      }
      device := Some(Device(port.value, true, port.value in closed));
    }

    /** The slot on the device's disconnected(). */
    method OnDisconnected(port: Port)
      requires device.Some? && device.value.port == port
      modifies this
      ensures View() == ClientHearsClose(old(View()), port)
    {
      DiscardDevice();
      retries := retries + 1;
    }

    method DiscardDevice()
      modifies this`device
      ensures device == None
    {
      if device.None? {
        return;
      }
      device := None;
    }

    method DoDisconnectFromServer()
      modifies this`device
      ensures View() == ShutDevice(old(View()))
    {
      if device.Some? {
        device := Some(device.value.(open := false));
      }
    }

    method DoClose()
      modifies this`device, this`closing
      ensures View() == ShutDevice(old(View())).(closing := true)
    {
      DoDisconnectFromServer();
      closing := true;
    }

    method IsOpen() returns (open: bool)
      ensures open == (!closing && device.Some? && device.value.open)
    {
      open := !closing && device.Some? && device.value.open;
    }
  }
}
