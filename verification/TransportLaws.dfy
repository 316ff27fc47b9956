/** The positive half of the port transport: retries that are asked for, ports that reach whoever listens, and servers that
    serve what they took. */
module PortRetries {
  import opened Sequences
  import opened PortTransportModel
  import opened PortTransport

  // ---- losing a device is asking for a new one ----

  /** A step asks for one retry of a client if it leaves it without the device it had, or is a connection attempt that leaves
      it without one; no other step asks for any. */
  lemma RetryAskedExactly(t: State, step: Step, i: nat)
    requires i < |t.clients|
    ensures var t' := Apply(t, step);
            && i < |t'.clients|
            && t'.clients[i].retries == t.clients[i].retries
                 + if t'.clients[i].device.None? && (step == Connect(i) || t.clients[i].device.Some?) then 1 else 0
  {
    match step
    case Publish(name, p) => HearingMovesNoClient(Entered(t, name, p), 0, name);
    case _ =>
  }

  lemma {:induction false} RetriesGrow(t: State, steps: seq<Step>, i: nat)
    requires i < |t.clients|
    ensures i < |Run(t, steps).clients| && t.clients[i].retries <= Run(t, steps).clients[i].retries
    decreases |steps|
  {
    hide Apply;
    if steps != [] {
      RetryAskedExactly(t, steps[0], i);
      RetriesGrow(Apply(t, steps[0]), steps[1..], i);
    }
  }

  /** Over any run: a client that had a device and has none has asked for a retry since. */
  lemma {:induction false} LostMeansRetry(t: State, steps: seq<Step>, i: nat)
    requires i < |t.clients| && t.clients[i].device.Some?
    ensures var t' := Run(t, steps);
            i < |t'.clients| && (t'.clients[i].device.None? ==> t'.clients[i].retries > t.clients[i].retries)
    decreases |steps|
  {
    hide Apply;
    if steps != [] {
      var t1 := Apply(t, steps[0]);
      RetryAskedExactly(t, steps[0], i);
      if t1.clients[i].device.Some? {
        LostMeansRetry(t1, steps[1..], i);
      } else {
        RetriesGrow(t1, steps[1..], i);
      }
    }
  }

  /** When a port emits closed() the client whose device is on it lets the device go and asks for a retry. */
  lemma ClosedPortIsLetGo(t: State, p: Port, i: nat)
    requires i < |t.clients| && t.clients[i].device.Some? && t.clients[i].device.value.port == p && p !in t.closed
    ensures var c := Apply(t, ClosePort(p)).clients[i];
            c.device.None? && c.retries == t.clients[i].retries + 1
  {
    RetryAskedExactly(t, ClosePort(p), i);
  }

  // ---- being told to disconnect ----

  predicate IsOpen(c: Client) { !c.closing && HasOpenDevice(c) }

  lemma ClosingStays(t: State, step: Step, i: nat)
    requires i < |t.clients|
    ensures i < |Apply(t, step).clients|
    ensures Apply(t, step).clients[i].closing == (t.clients[i].closing || step == CloseClient(i))
  {
    match step
    case Publish(name, p) => HearingMovesNoClient(Entered(t, name, p), 0, name);
    case _ =>
  }

  /** Told to disconnect or to close, a client keeps its device but closed; once closed it is never open again, whatever port
      it takes. */
  lemma {:induction false} ShutForGood(t: State, steps: seq<Step>, i: nat)
    requires i < |t.clients| && t.clients[i].closing
    ensures i < |Run(t, steps).clients| && !IsOpen(Run(t, steps).clients[i])
    decreases |steps|
  {
    hide Apply;
    if steps != [] {
      ClosingStays(t, steps[0], i);
      ShutForGood(Apply(t, steps[0]), steps[1..], i);
    }
  }

  lemma ToldToDisconnect(t: State, i: nat, later: seq<Step>)
    requires i < |t.clients|
    ensures var c, left, shut := t.clients[i], Apply(t, Disconnect(i)).clients[i], Run(Apply(t, CloseClient(i)), later);
            && !HasOpenDevice(left) && left.device.Some? == c.device.Some? && left.retries == c.retries
            && (c.device.Some? ==> left.device.value.port == c.device.value.port)
            && i < |shut.clients| && !IsOpen(shut.clients[i])
  {
    ShutForGood(Apply(t, CloseClient(i)), later, i);
  }
}

/** What the servers take, announce and serve. */
module PortServing {
  import opened Sequences
  import opened PortTransportModel
  import opened PortTransport

  predicate Listens(s: Server, name: Name) { s.listening && s.name == name }

  predicate Heeded(t: State, name: Name) { exists j :: 0 <= j < |t.servers| && Listens(t.servers[j], name) }

  lemma {:induction false} NothingToTake(t: State, k: nat, name: Name)
    requires k <= |t.servers| && name !in t.ports
    ensures HearFrom(t, k, name) == t
    decreases |t.servers| - k
  {
    if k < |t.servers| {
      NothingToTake(t, k + 1, name);
    }
  }

  lemma {:induction false} FirstTakes(t: State, k: nat, i: nat, name: Name)
    requires k <= i < |t.servers| && name in t.ports && Listens(t.servers[i], name)
    requires forall j :: k <= j < i ==> !Listens(t.servers[j], name)
    ensures HearFrom(t, k, name) == Hear(t, i, name)
    decreases i - k
  {
    if k < i {
      assert Hear(t, k, name) == t;
      FirstTakes(t, k + 1, i, name);
    } else {
      NothingToTake(Hear(t, i, name), i + 1, name);
    }
  }

  lemma {:induction false} FirstListener(t: State, name: Name, j: nat) returns (i: nat)
    requires j < |t.servers| && Listens(t.servers[j], name)
    ensures i <= j && Listens(t.servers[i], name) && forall k :: 0 <= k < i ==> !Listens(t.servers[k], name)
  {
    if k: nat :| k < j && Listens(t.servers[k], name) {
      i := FirstListener(t, name, k);
    } else {
      i := j;
    }
  }

  /** The port waits at this server, which has one more connection to announce, and is no longer in the registry. */
  predicate TakenBy(t: State, t': State, i: nat, name: Name, p: Port) {
    && i < |t.servers| == |t'.servers| && name !in t'.ports
    && t'.servers[i] == t.servers[i].(pending := t.servers[i].pending + [p], announcements := t.servers[i].announcements + 1)
    && (forall j :: 0 <= j < |t.servers| && j != i ==> t'.servers[j] == t.servers[j])
  }

  /** A published port goes to the first server that listens for its name, behind the ports that wait there; with none it stays
      in the registry for whoever comes. A port with no name is not published. */
  lemma PublishedReaches(t: State, name: Name, p: Port)
    ensures var t' := Apply(t, Publish(name, p));
            && (name == [] ==> t' == t)
            && (name != [] && !Heeded(t, name) ==>
                  t'.ports == t.ports[name := p] && t'.servers == t.servers && t'.clients == t.clients)
            && (name != [] && Heeded(t, name) ==>
                  exists i: nat :: TakenBy(t, t', i, name, p)
                    && Listens(t.servers[i], name) && forall k :: 0 <= k < i ==> !Listens(t.servers[k], name))
  {
    var t1 := Entered(t, name, p);
    if name != [] {
      if Heeded(t, name) {
        var j: nat :| j < |t.servers| && Listens(t.servers[j], name);
        var i := FirstListener(t, name, j);
        FirstTakes(t1, 0, i, name);
        assert TakenBy(t, Hear(t1, i, name), i, name, p);
      } else {
        assert forall j :: 0 <= j < |t.servers| && t.servers[j].listening ==> t.servers[j].name != name by {
          assert forall j :: 0 <= j < |t.servers| ==> !Listens(t.servers[j], name);
        }
        NobodyHears(t1, 0, name);
      }
    }
  }

  /** listen() takes the port that was published under the name before, and refuses a URL that names none. */
  lemma ListenTakes(t: State, i: nat, path: string)
    requires i < |t.servers|
    ensures var name, t' := PortNameOf(path), Apply(t, Listen(i, path));
            && |t'.servers| == |t.servers| && t'.servers[i].name == name
            && t'.servers[i].listening == (t.servers[i].listening || name != [])
            && (if name != [] && name in t.ports
                then t'.servers[i].pending == t.servers[i].pending + [t.ports[name]] && t'.ports == t.ports - {name}
                     && t'.servers[i].announcements == t.servers[i].announcements + 1
                else t'.servers[i].pending == t.servers[i].pending && t'.ports == t.ports)
  {
    hide PortNameOf;
  }

  /** The step takes whatever is published under the name out of the registry. */
  predicate Removes(t: State, step: Step, name: Name) {
    match step
    case Withdraw(x) => x == name
    case Listen(i, path) => i < |t.servers| && PortNameOf(path) == name && name != []
    case Connect(i) => i < |t.clients| && !HasOpenDevice(t.clients[i]) && t.clients[i].name == name
    case _ => false
  }

  /** The registry, exactly: a name is taken by a publication that no server listens for, and given up when it is withdrawn,
      listened for or connected to; every other step leaves it as it was. */
  lemma RegistryExactly(t: State, step: Step, name: Name)
    ensures var t' := Apply(t, step);
            if step.Publish? && step.name == name && name != []
            then if Heeded(t, name) then name !in t'.ports else name in t'.ports && t'.ports[name] == step.port
            else (name in t'.ports <==> name in t.ports && !Removes(t, step, name))
                 && (name in t'.ports ==> t'.ports[name] == t.ports[name])
  {
    hide PortNameOf;
    match step
    case Publish(other, p) =>
      if other != [] {
        if other == name {
          hide Apply;
          PublishedReaches(t, name, p);
        } else {
          OthersHear(Entered(t, other, p), 0, other, name);
        }
      }
    case _ =>
  }

  // ---- served in the order taken ----

  function PortsOf(devices: seq<Device>): seq<Port> { seq(|devices|, k requires 0 <= k < |devices| => devices[k].port) }

  /** Everything a server has taken and kept: the ports it serves, then those that wait. */
  function Kept(s: Server): seq<Port> { PortsOf(s.devices) + s.pending }

  lemma {:induction false} HearingKeeps(t: State, k: nat, name: Name, i: nat)
    requires k <= |t.servers| && i < |t.servers|
    ensures var t' := HearFrom(t, k, name);
            && |t'.servers| == |t.servers| && t'.servers[i].devices == t.servers[i].devices
            && t.servers[i].pending <= t'.servers[i].pending
    decreases |t.servers| - k
  {
    if k < |t.servers| {
      HearingKeeps(Hear(t, k, name), k + 1, name, i);
    }
  }

  lemma ServingKeeps(s: Server, closed: set<Port>)
    ensures Kept(Configured(s, closed)) == Kept(s)
    ensures |Configured(s, closed).pending| == if s.pending == [] then 0 else |s.pending| - 1
  {
    if s.pending != [] {
      assert s.pending == [s.pending[0]] + s.pending[1..];
      assert PortsOf(Configured(s, closed).devices) == PortsOf(s.devices) + [s.pending[0]];
    }
  }

  lemma KeptGrows(s: Server, s': Server)
    requires PortsOf(s'.devices) == PortsOf(s.devices) && s.pending <= s'.pending
    ensures Kept(s) <= Kept(s')
  {
  }

  lemma StepKeeps(t: State, step: Step, i: nat)
    requires i < |t.servers| && step != CloseServer(i)
    ensures var t' := Apply(t, step); i < |t'.servers| && Kept(t.servers[i]) <= Kept(t'.servers[i])
  {
    hide PortNameOf, Configured;
    match step
    case Publish(name, p) =>
      HearingKeeps(Entered(t, name, p), 0, name, i);
      KeptGrows(t.servers[i], Apply(t, step).servers[i]);
    case Listen(k, path) => KeptGrows(t.servers[i], Apply(t, step).servers[i]);
    case Announce(k) =>
      var s := t.servers[i].(announcements := if t.servers[i].announcements == 0 then 0 else t.servers[i].announcements - 1);
      assert Kept(s) == Kept(t.servers[i]);
      ServingKeeps(s, t.closed);
    case ClosePort(p) => HearingClose(t.servers[i], p);
    case NewsArrives =>
      if t.news != [] {
        HearingClose(t.servers[i], t.news[0]);
      }
    case _ =>
  }

  lemma HearingClose(s: Server, p: Port)
    ensures Kept(ServerHearsClose(s, p)) == Kept(s)
  {
    assert PortsOf(ServerHearsClose(s, p).devices) == PortsOf(s.devices);
  }

  /** Ports are served in the order they were taken, and none is passed over: whatever happens, until it is closed a server
      only adds at the end of what it serves and what waits. */
  lemma {:induction false} ServedInOrder(t: State, steps: seq<Step>, i: nat)
    requires i < |t.servers| && CloseServer(i) !in steps
    ensures var t' := Run(t, steps); i < |t'.servers| && Kept(t.servers[i]) <= Kept(t'.servers[i])
    decreases |steps|
  {
    hide Apply, Kept;
    if steps != [] {
      assert CloseServer(i) !in steps[1..];
      StepKeeps(t, steps[0], i);
      ServedInOrder(Apply(t, steps[0]), steps[1..], i);
    }
  }

  function Announcing(i: nat, n: nat): seq<Step> { seq(n, _ => Announce(i)) }

  /** As many announcements as ports wait have them all served, in order: no port taken is left without its connection. */
  lemma {:induction false} AllAreServed(t: State, i: nat)
    requires i < |t.servers| && |t.servers[i].pending| <= t.servers[i].announcements
    ensures var s, t' := t.servers[i], Run(t, Announcing(i, |t.servers[i].pending|));
            && i < |t'.servers| && t'.servers[i].pending == []
            && PortsOf(t'.servers[i].devices) == PortsOf(s.devices) + s.pending
    decreases |t.servers[i].pending|
  {
    var s, n := t.servers[i], |t.servers[i].pending|;
    if n > 0 {
      var t1 := Apply(t, Announce(i));
      assert Announcing(i, n)[1..] == Announcing(i, n - 1);
      assert t1.servers[i] == Configured(s.(announcements := s.announcements - 1), t.closed);
      ServingKeeps(s.(announcements := s.announcements - 1), t.closed);
      assert Kept(s.(announcements := s.announcements - 1)) == Kept(s);
      AllAreServed(t1, i);
    }
  }

  /** From the start: every port that waits at a server has its announcement in the event loop, so the loop serves them all. */
  lemma TakenIsServed(steps: seq<Step>, i: nat)
    requires NoneShared(EMPTY, steps) && i < |Run(EMPTY, steps).servers|
    ensures var t := Run(EMPTY, steps); var s := t.servers[i];
            var t' := Run(t, Announcing(i, |s.pending|));
            i < |t'.servers| && t'.servers[i].pending == [] && PortsOf(t'.servers[i].devices) == PortsOf(s.devices) + s.pending
  {
    PortTransport.RunKeeps(EMPTY, steps);
    assert ServerInv(Run(EMPTY, steps), i);
    AllAreServed(Run(EMPTY, steps), i);
  }

  /** A closed server forgets what waits, keeps what it serves, and takes nothing more until it listens again. */
  lemma {:induction false} ClosedTakesNothing(t: State, steps: seq<Step>, i: nat)
    requires i < |t.servers| && !t.servers[i].listening && t.servers[i].pending == []
    requires forall k :: 0 <= k < |steps| ==> !(steps[k].Listen? && steps[k].i == i)
    ensures var t' := Run(t, steps);
            && i < |t'.servers| && !t'.servers[i].listening && t'.servers[i].pending == []
            && PortsOf(t'.servers[i].devices) == PortsOf(t.servers[i].devices)
    decreases |steps|
  {
    if steps != [] {
      IdleStep(t, steps[0], i);
      hide Apply, PortsOf;
      ClosedTakesNothing(Apply(t, steps[0]), steps[1..], i);
    }
  }

  lemma IdleStep(t: State, step: Step, i: nat)
    requires i < |t.servers| && !t.servers[i].listening && t.servers[i].pending == []
    requires !(step.Listen? && step.i == i)
    ensures var t' := Apply(t, step);
            && i < |t'.servers| && !t'.servers[i].listening && t'.servers[i].pending == []
            && PortsOf(t'.servers[i].devices) == PortsOf(t.servers[i].devices)
  {
    hide PortNameOf;
    match step
    case Publish(name, p) => IdleHears(Entered(t, name, p), 0, name, i);
    case ClosePort(p) => assert PortsOf(ServerHearsClose(t.servers[i], p).devices) == PortsOf(t.servers[i].devices);
    case NewsArrives =>
      if t.news != [] {
        assert PortsOf(ServerHearsClose(t.servers[i], t.news[0]).devices) == PortsOf(t.servers[i].devices);
      }
    case _ =>
  }

  lemma {:induction false} IdleHears(t: State, k: nat, name: Name, i: nat)
    requires k <= |t.servers| && i < |t.servers| && !t.servers[i].listening
    ensures |HearFrom(t, k, name).servers| == |t.servers| && HearFrom(t, k, name).servers[i] == t.servers[i]
    decreases |t.servers| - k
  {
    if k < |t.servers| {
      IdleHears(Hear(t, k, name), k + 1, name, i);
    }
  }

  lemma ClosingServer(t: State, i: nat, later: seq<Step>)
    requires i < |t.servers| && forall k :: 0 <= k < |later| ==> !(later[k].Listen? && later[k].i == i)
    ensures var t' := Run(Apply(t, CloseServer(i)), later);
            && i < |t'.servers| && !t'.servers[i].listening && t'.servers[i].pending == []
            && PortsOf(t'.servers[i].devices) == PortsOf(t.servers[i].devices)
  {
    ClosedTakesNothing(Apply(t, CloseServer(i)), later, i);
  }

  // ---- the devices a server serves ----

  /** A served device is closed exactly when its port has closed since it was taken. */
  predicate ServedLife(d: Device, closed: set<Port>) {
    (d.bornDead ==> d.port in closed) && (d.open <==> d.bornDead || d.port !in closed)
  }

  ghost predicate AllServedLife(t: State) {
    forall i, k :: 0 <= i < |t.servers| && 0 <= k < |t.servers[i].devices| ==> ServedLife(t.servers[i].devices[k], t.closed)
  }

  lemma {:induction false} HearingServesNone(t: State, k: nat, name: Name)
    requires k <= |t.servers|
    ensures var t' := HearFrom(t, k, name);
            && t'.closed == t.closed && |t'.servers| == |t.servers|
            && forall i :: 0 <= i < |t.servers| ==> t'.servers[i].devices == t.servers[i].devices
    decreases |t.servers| - k
  {
    if k < |t.servers| {
      HearingServesNone(Hear(t, k, name), k + 1, name);
    }
  }

  lemma ServedStep(t: State, step: Step)
    requires AllServedLife(t)
    ensures AllServedLife(Apply(t, step))
  {
    hide PortNameOf;
    match step
    case Publish(name, p) => HearingServesNone(Entered(t, name, p), 0, name);
    case ClosePort(p) => ServedClose(t, p);
    case NewsArrives =>
      if t.news != [] {
        ServedClose(t.(news := t.news[1..]), t.news[0]);
      }
    case _ =>
  }

  lemma ServedClose(t: State, p: Port)
    requires AllServedLife(t)
    ensures AllServedLife(PortClosed(t, p))
  {
  }

  lemma {:induction false} ServedRun(t: State, steps: seq<Step>)
    requires AllServedLife(t)
    ensures AllServedLife(Run(t, steps))
    decreases |steps|
  {
    hide AllServedLife, Apply;
    if steps != [] {
      ServedStep(t, steps[0]);
      ServedRun(Apply(t, steps[0]), steps[1..]);
    }
  }

  /** Over whole runs: a server's device is open if and only if its port has not closed, or had already closed when it was
      taken. */
  lemma ServedDevices(steps: seq<Step>, i: nat, k: nat)
    requires i < |Run(EMPTY, steps).servers| && k < |Run(EMPTY, steps).servers[i].devices|
    ensures var t := Run(EMPTY, steps); var d := t.servers[i].devices[k];
            (d.open <==> d.bornDead || d.port !in t.closed) && (d.bornDead ==> d.port in t.closed)
  {
    ServedRun(EMPTY, steps);
    hide Run;
    assert ServedLife(Run(EMPTY, steps).servers[i].devices[k], Run(EMPTY, steps).closed);
  }
}
