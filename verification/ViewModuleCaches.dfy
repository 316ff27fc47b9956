/** What the desktop bridge caches for a view module (src/LogosQmlBridge.cpp:536-673, 799-902): a node on
    the module's socket, a replica factory from its plugin, the replica and the models. */
module ViewCacheModel {
  import opened Sequences

  type Name = string
  type Id = nat

  datatype Node = Node(id: Id, socket: string)
  datatype Loader = Loader(id: Id, path: string)

  /** A factory is the root object of a loaded plugin. */
  datatype Factory = Factory(loader: Id, path: string)
  datatype Replica = Replica(id: Id, node: Id, factory: Id)
  datatype Model = Model(id: Id, owner: Name, name: string, node: Id)

  /** Where an object that was created is now; objects are numbered in the order of creation. */
  datatype Slot = NodeOf(owner: Name) | LoaderOf(owner: Name) | ReplicaOf(owner: Name) | ModelAt(key: string) | Deleted

  datatype State = State(
    sockets: map<Name, string>, paths: map<Name, string>,
    nodes: map<Name, Node>, loaders: map<Name, Loader>, factories: map<Name, Factory>,
    replicas: map<Name, Replica>, models: map<string, Model>,
    next: Id, slots: map<Id, Slot>)

  const EMPTY := State(map[], map[], map[], map[], map[], map[], map[], 0, map[])

  /** What the plugin at the registered path turns out to be. */
  datatype Plugin = Plugin(present: bool, loads: bool, implements: bool)

  function Key(owner: Name, name: string): string { owner + "/" + name }

  /** One name is the other followed by a slash and more. */
  predicate Extends(longer: Name, shorter: Name) { Key(shorter, "") <= longer }

  predicate Apart(m: Name, x: Name) { m != x && !Extends(m, x) && !Extends(x, m) }

  // ---- the operations ----

  function LoadFactory(s: State, m: Name, plugin: Plugin): State {
    if m in s.factories || m !in s.paths || s.paths[m] == "" || !plugin.present then s
    else if !plugin.loads || !plugin.implements then s.(next := s.next + 1, slots := s.slots[s.next := Deleted])
    else
      var path := s.paths[m];
      s.(next := s.next + 1, slots := s.slots[s.next := LoaderOf(m)],
         loaders := s.loaders[m := Loader(s.next, path)], factories := s.factories[m := Factory(s.next, path)])
  }

  function GetOrCreateNode(s: State, m: Name): State {
    if m in s.nodes || m !in s.sockets then s
    else s.(next := s.next + 1, slots := s.slots[s.next := NodeOf(m)], nodes := s.nodes[m := Node(s.next, s.sockets[m])])
  }

  /** module(): `acquires` tells whether the factory hands over a replica. */
  function Module(s: State, m: Name, plugin: Plugin, acquires: bool): State {
    if m in s.replicas then s
    else
      var s1 := LoadFactory(s, m, plugin);
      if m !in s1.factories then s1
      else
        var s2 := GetOrCreateNode(s1, m);
        if m !in s2.nodes || !acquires then s2
        else
          s2.(next := s2.next + 1, slots := s2.slots[s2.next := ReplicaOf(m)],
              replicas := s2.replicas[m := Replica(s2.next, s2.nodes[m].id, s2.factories[m].loader)])
  }

  function ModelOf(s: State, m: Name, name: string, acquires: bool): State {
    var key := Key(m, name);
    if key in s.models then s
    else
      var s1 := GetOrCreateNode(s, m);
      if m !in s1.nodes || !acquires then s1
      else
        s1.(next := s1.next + 1, slots := s1.slots[s1.next := ModelAt(key)],
            models := s1.models[key := Model(s1.next, m, name, s1.nodes[m].id)])
  }

  function DropReplica(s: State, m: Name): State {
    if m !in s.replicas then s
    else s.(replicas := s.replicas - {m}, slots := s.slots[s.replicas[m].id := Deleted])
  }

  function Deleting(slots: map<Id, Slot>, ids: set<Id>): map<Id, Slot> {
    slots + map id | id in ids :: Deleted
  }

  /** Deletes every model whose key starts with the module's name and a slash. */
  function DropModels(s: State, m: Name): State {
    var gone := set k | k in s.models && Key(m, "") <= k;
    s.(models := s.models - gone, slots := Deleting(s.slots, set k | k in gone :: s.models[k].id))
  }

  function DropFactory(s: State, m: Name): State {
    var s1 := s.(factories := s.factories - {m});
    if m !in s1.loaders then s1
    else s1.(loaders := s1.loaders - {m}, slots := s1.slots[s1.loaders[m].id := Deleted])
  }

  function DropNode(s: State, m: Name): State {
    if m !in s.nodes then s
    else s.(nodes := s.nodes - {m}, slots := s.slots[s.nodes[m].id := Deleted])
  }

  function DropCaches(s: State, m: Name): State {
    DropNode(DropFactory(DropModels(DropReplica(s, m), m), m), m)
  }

  function SetSocket(s: State, m: Name, socket: string): State {
    if m in s.sockets && s.sockets[m] == socket then s
    else
      var s1 := DropCaches(s, m);
      s1.(sockets := s1.sockets[m := socket])
  }

  function SetPlugin(s: State, m: Name, path: string, plugin: Plugin): State {
    if m in s.paths && s.paths[m] == path then s
    else
      var s1 := DropFactory(DropReplica(s, m), m);
      LoadFactory(s1.(paths := s1.paths[m := path]), m, plugin)
  }

  datatype Step =
    | DoModule(owner: Name, plugin: Plugin, acquires: bool)
    | DoModel(owner: Name, name: string, acquires: bool)
    | DoSetSocket(owner: Name, socket: string)
    | DoSetPlugin(owner: Name, path: string, plugin: Plugin)
    | DoCrash(owner: Name)

  function Apply(s: State, step: Step): State {
    match step
    case DoModule(m, plugin, acquires) => Module(s, m, plugin, acquires)
    case DoModel(m, name, acquires) => ModelOf(s, m, name, acquires)
    case DoSetSocket(m, socket) => SetSocket(s, m, socket)
    case DoSetPlugin(m, path, plugin) => SetPlugin(s, m, path, plugin)
    case DoCrash(m) => DropCaches(s, m)
  }

  function Run(s: State, steps: seq<Step>): State
    decreases |steps|
  {
    if steps == [] then s else Run(Apply(s, steps[0]), steps[1..])
  }
}
