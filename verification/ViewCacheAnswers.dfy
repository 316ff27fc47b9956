/** What the view-module caches promise their user: the last registration counts, and what was handed out once is handed out
    again until something makes it stale. */
module ViewCacheAnswers {
  import opened Sequences
  import opened ViewCacheModel
  import opened ViewCacheLaws

  // ---- the last registration counts ----

  /** The socket and the plugin path a module was last given in a run. */
  function LastSocket(steps: seq<Step>, m: Name): Option<string>
    decreases |steps|
  {
    if steps == [] then None
    else if LastSocket(steps[1..], m).Some? then LastSocket(steps[1..], m)
    else if steps[0].DoSetSocket? && steps[0].owner == m then Some(steps[0].socket)
    else None
  }

  function LastPath(steps: seq<Step>, m: Name): Option<string>
    decreases |steps|
  {
    if steps == [] then None
    else if LastPath(steps[1..], m).Some? then LastPath(steps[1..], m)
    else if steps[0].DoSetPlugin? && steps[0].owner == m then Some(steps[0].path)
    else None
  }

  function Lookup(registered: map<Name, string>, m: Name): Option<string> {
    if m in registered then Some(registered[m]) else None
  }

  predicate SameRegistered(s: State, s': State) { s'.sockets == s.sockets && s'.paths == s.paths }

  /** Making and dropping objects registers and unregisters nothing. */
  lemma MakingRegistersNothing(s: State, m: Name, name: string, plugin: Plugin, acquires: bool)
    ensures SameRegistered(s, LoadFactory(s, m, plugin)) && SameRegistered(s, Module(s, m, plugin, acquires))
    ensures SameRegistered(s, ModelOf(s, m, name, acquires))
  {
    var s1 := LoadFactory(s, m, plugin);
    LoadingRegistersNothing(s, m, plugin);
    ConnectingRegistersNothing(s, m);
    ConnectingRegistersNothing(s1, m);
    hide LoadFactory, GetOrCreateNode, Key;
  }

  lemma LoadingRegistersNothing(s: State, m: Name, plugin: Plugin)
    ensures SameRegistered(s, LoadFactory(s, m, plugin))
  {
  }

  lemma ConnectingRegistersNothing(s: State, m: Name)
    ensures SameRegistered(s, GetOrCreateNode(s, m))
  {
  }

  lemma DropRegistersNothing(s: State, m: Name)
    ensures SameRegistered(s, DropReplica(s, m)) && SameRegistered(s, DropModels(s, m))
    ensures SameRegistered(s, DropFactory(s, m)) && SameRegistered(s, DropNode(s, m))
  {
    hide Key, Deleting;
  }

  lemma DroppingRegistersNothing(s: State, m: Name)
    ensures SameRegistered(s, DropReplica(s, m)) && SameRegistered(s, DropFactory(s, m))
    ensures SameRegistered(s, DropCaches(s, m))
  {
    var s1 := DropReplica(s, m);
    var s2 := DropModels(s1, m);
    DropRegistersNothing(s, m);
    DropRegistersNothing(s1, m);
    DropRegistersNothing(s2, m);
    DropRegistersNothing(DropFactory(s2, m), m);
    hide DropReplica, DropModels, DropFactory, DropNode;
  }

  lemma RegistrationStep(s: State, step: Step, m: Name)
    ensures var s' := Apply(s, step);
            && Lookup(s'.sockets, m) ==
               (if step.DoSetSocket? && step.owner == m then Some(step.socket) else Lookup(s.sockets, m))
            && Lookup(s'.paths, m) ==
               (if step.DoSetPlugin? && step.owner == m then Some(step.path) else Lookup(s.paths, m))
  {
    var owner := step.owner;
    DroppingRegistersNothing(s, owner);
    hide LoadFactory, Module, ModelOf, DropReplica, DropFactory, DropCaches;
    match step
    case DoModule(_, plugin, acquires) => MakingRegistersNothing(s, owner, "", plugin, acquires);
    case DoModel(_, name, acquires) => MakingRegistersNothing(s, owner, name, Plugin(false, false, false), acquires);
    case DoSetPlugin(_, path, plugin) =>
      DroppingRegistersNothing(DropReplica(s, owner), owner);
      var s1 := DropFactory(DropReplica(s, owner), owner);
      MakingRegistersNothing(s1.(paths := s1.paths[owner := path]), owner, "", plugin, false);
    case _ =>
  }

  lemma {:induction false} RegistrationRun(s: State, steps: seq<Step>, m: Name)
    ensures var s' := Run(s, steps);
            && Lookup(s'.sockets, m) == (if LastSocket(steps, m).Some? then LastSocket(steps, m) else Lookup(s.sockets, m))
            && Lookup(s'.paths, m) == (if LastPath(steps, m).Some? then LastPath(steps, m) else Lookup(s.paths, m))
    decreases |steps|
  {
    hide Apply, Lookup;
    if steps != [] {
      RegistrationStep(s, steps[0], m);
      RegistrationRun(Apply(s, steps[0]), steps[1..], m);
    }
  }

  /** Over every run a module is registered on the socket and the plugin it was last given, whatever came between: crashes and
      requests unregister nothing. What is cached for it is on that socket and from that plugin. */
  lemma LastRegistrationCounts(steps: seq<Step>, m: Name)
    ensures var s := Run(EMPTY, steps);
            && Lookup(s.sockets, m) == LastSocket(steps, m) && Lookup(s.paths, m) == LastPath(steps, m)
            && (m in s.nodes ==> LastSocket(steps, m) == Some(s.nodes[m].socket))
            && (m in s.factories ==> LastPath(steps, m) == Some(s.factories[m].path))
  {
    RegistrationRun(EMPTY, steps, m);
    CacheLaw(steps);
    hide Run, LastSocket, LastPath, Accounted;
  }

  // ---- handed out once, handed out again ----

  /** The step takes a module's node from under it: a crash of its view, or another socket. */
  predicate Unseats(step: Step, m: Name, socket: Option<string>) {
    step.owner == m && (step.DoCrash? || (step.DoSetSocket? && Some(step.socket) != socket))
  }

  predicate Unplugs(step: Step, m: Name, path: Option<string>) {
    step.owner == m && step.DoSetPlugin? && Some(step.path) != path
  }

  predicate HasReplica(s: State, m: Name, replica: Replica, socket: Option<string>, path: Option<string>) {
    m in s.replicas && s.replicas[m] == replica && Lookup(s.sockets, m) == socket && Lookup(s.paths, m) == path
  }

  lemma OthersLeave(s: State, s': State, owner: Name, m: Name, replica: Replica,
                    socket: Option<string>, path: Option<string>)
    requires HasReplica(s, m, replica, socket, path) && OthersKept(s, s', owner) && owner != m
    ensures HasReplica(s', m, replica, socket, path)
  {
  }

  lemma StepLeavesReplica(s: State, step: Step, m: Name, replica: Replica,
                          socket: Option<string>, path: Option<string>)
    requires Inv(s) && HasReplica(s, m, replica, socket, path)
    requires !Unseats(step, m, socket) && !Unplugs(step, m, path)
    ensures HasReplica(Apply(s, step), m, replica, socket, path)
  {
    if step.owner != m {
      ApplyKeeps(s, step);
      hide Inv, Apply, HasReplica, OthersKept;
      OthersLeave(s, Apply(s, step), step.owner, m, replica, socket, path);
    } else {
      hide Inv, Key, DropCaches;
    }
  }

  lemma {:induction false} RunLeavesReplica(s: State, steps: seq<Step>, m: Name, replica: Replica,
                                            socket: Option<string>, path: Option<string>)
    requires Inv(s) && HasReplica(s, m, replica, socket, path)
    requires forall i :: 0 <= i < |steps| ==> !Unseats(steps[i], m, socket) && !Unplugs(steps[i], m, path)
    ensures Inv(Run(s, steps)) && HasReplica(Run(s, steps), m, replica, socket, path)
    decreases |steps|
  {
    hide Inv, Apply, HasReplica, Unseats, Unplugs;
    if steps != [] {
      ApplyKeeps(s, steps[0]);
      StepLeavesReplica(s, steps[0], m, replica, socket, path);
      RunLeavesReplica(Apply(s, steps[0]), steps[1..], m, replica, socket, path);
    }
  }

  /** A replica that module() has handed out is the one it hands out, whatever other modules do and whatever else is asked of
      this one, registering the same socket and plugin again included, until its view crashes or it is given another socket or
      another plugin. */
  lemma SameReplicaAgain(before: seq<Step>, m: Name, between: seq<Step>, plugin: Plugin, acquires: bool)
    requires var s := Run(EMPTY, before);
             && m in s.replicas
             && forall i :: 0 <= i < |between| ==>
                  !Unseats(between[i], m, Lookup(s.sockets, m)) && !Unplugs(between[i], m, Lookup(s.paths, m))
    ensures var s := Run(EMPTY, before); var t := Run(s, between);
            && m in t.replicas && t.replicas[m] == s.replicas[m]
            && Module(t, m, plugin, acquires) == t
  {
    var s := Run(EMPTY, before);
    CacheLaw(before);
    RunLeavesReplica(s, between, m, s.replicas[m], Lookup(s.sockets, m), Lookup(s.paths, m));
    hide Run, Agrees, Accounted;
  }

  predicate HasModel(s: State, key: string, model: Model, socket: Option<string>) {
    key in s.models && s.models[key] == model && Lookup(s.sockets, model.owner) == socket
  }

  lemma StepLeavesModel(s: State, step: Step, key: string, model: Model, socket: Option<string>)
    requires Inv(s) && HasModel(s, key, model, socket)
    requires if step.owner == model.owner then !Unseats(step, model.owner, socket) else Apart(step.owner, model.owner)
    ensures HasModel(Apply(s, step), key, model, socket)
  {
    if step.owner != model.owner {
      StepKeepsModels(s, step, model.owner);
      ApplyKeeps(s, step);
      hide Inv, Apply;
    } else {
      match step
      case DoModule(m, plugin, acquires) =>
        MakingModels(s, m, "", plugin, acquires);
        RegistrationStep(s, step, m);
        hide Module, Inv;
      case DoModel(m, name, acquires) => hide Inv, Key;
      case DoSetPlugin(m, path, plugin) =>
        SettingModels(s, m, "", path, plugin);
        RegistrationStep(s, step, m);
        hide SetPlugin, Inv;
      case _ => hide Inv, DropCaches;
    }
  }

  lemma {:induction false} RunLeavesModel(s: State, steps: seq<Step>, key: string, model: Model, socket: Option<string>)
    requires Inv(s) && HasModel(s, key, model, socket)
    requires forall i :: 0 <= i < |steps| ==>
               if steps[i].owner == model.owner then !Unseats(steps[i], model.owner, socket)
               else Apart(steps[i].owner, model.owner)
    ensures Inv(Run(s, steps)) && HasModel(Run(s, steps), key, model, socket)
    decreases |steps|
  {
    hide Inv, Apply, HasModel, Unseats, Apart;
    if steps != [] {
      ApplyKeeps(s, steps[0]);
      StepLeavesModel(s, steps[0], key, model, socket);
      RunLeavesModel(Apply(s, steps[0]), steps[1..], key, model, socket);
    }
  }

  /** So is a model: model() hands out the same one until the view of its module crashes or the module is given another socket,
      as long as the other modules are apart from it. Another plugin leaves it. */
  lemma SameModelAgain(before: seq<Step>, key: string, between: seq<Step>)
    requires var s := Run(EMPTY, before);
             && key in s.models
             && forall i :: 0 <= i < |between| ==>
                  var m := s.models[key].owner;
                  if between[i].owner == m then !Unseats(between[i], m, Lookup(s.sockets, m)) else Apart(between[i].owner, m)
    ensures var s := Run(EMPTY, before); var t := Run(s, between);
            key in t.models && t.models[key] == s.models[key]
  {
    var s := Run(EMPTY, before);
    CacheLaw(before);
    RunLeavesModel(s, between, key, s.models[key], Lookup(s.sockets, s.models[key].owner));
    hide Run, Agrees, Accounted;
  }

  /** Asked again, a model is the cached one and nothing new is made. */
  lemma CachedIsServed(s: State, m: Name, name: string, acquires: bool)
    requires Inv(s)
    ensures var t := ModelOf(s, m, name, acquires);
            Key(m, name) in t.models ==>
              && ModelOf(t, m, name, true) == t && ModelOf(t, m, name, false) == t
              && (Key(m, name) in s.models ==> t == s)
  {
    hide Inv, Key;
  }
}
