/** What every run keeps of the view-module caches. */
module ViewCacheLaws {
  import opened Sequences
  import opened ViewCacheModel

  // ---- keys ----

  lemma ExtendsTail(longer: Name, shorter: Name) returns (t: string)
    requires Extends(longer, shorter)
    ensures longer == Key(shorter, t)
  {
    t := longer[|shorter| + 1..];
    assert longer == Key(shorter, "") + t;
  }

  /** Model names can be chosen to make two modules share a key exactly when one module's name extends the other's. */
  lemma KeyCollision(m: Name, x: Name)
    ensures (exists n1: string, n2: string :: Key(m, n1) == Key(x, n2)) <==> !Apart(m, x)
  {
    forall n1: string, n2: string | Key(m, n1) == Key(x, n2) ensures !Apart(m, x) {
      SharedKey(m, n1, x, n2);
    }
    if m == x {
      assert Key(m, "") == Key(x, "");
    } else if Extends(m, x) {
      var t := ExtendsTail(m, x);
      assert Key(m, "") == Key(x, Key(t, ""));
    } else if Extends(x, m) {
      var t := ExtendsTail(x, m);
      assert Key(x, "") == Key(m, Key(t, ""));
    }
  }

  lemma SharedKey(m: Name, n1: string, x: Name, n2: string)
    requires Key(m, n1) == Key(x, n2)
    ensures m == x || Extends(m, x) || Extends(x, m)
    ensures m == x ==> n1 == n2
  {
    var k := Key(m, n1);
    assert k[..|m|] == m && k[..|x|] == x && k[|m|] == k[|x|] == '/';
    if |m| > |x| {
      assert k[..|m|][..|x| + 1] == Key(x, "");
    } else if |m| < |x| {
      assert k[..|x|][..|m| + 1] == Key(m, "");
    } else {
      assert n1 == k[|m| + 1..] && n2 == k[|x| + 1..];
    }
  }

  /** The prefix test finds every model of the module, and no model of a module whose name is apart from it. */
  lemma PrefixPicks(m: Name, owner: Name, name: string)
    ensures m == owner ==> Key(m, "") <= Key(owner, name)
    ensures Apart(m, owner) ==> !(Key(m, "") <= Key(owner, name))
  {
    var k := Key(owner, name);
    if m == owner {
      assert k == Key(m, "") + name;
    }
    if Key(m, "") <= k {
      assert k == Key(m, k[|m| + 1..]);
      SharedKey(m, k[|m| + 1..], owner, name);
    }
  }

  // ---- what the caches keep ----

  ghost predicate NodesAgree(nodes: map<Name, Node>, sockets: map<Name, string>) {
    forall m :: m in nodes ==> m in sockets && nodes[m].socket == sockets[m]
  }

  ghost predicate PluginsAgree(factories: map<Name, Factory>, loaders: map<Name, Loader>, paths: map<Name, string>) {
    && factories.Keys == loaders.Keys
    && forall m :: m in factories ==>
         && m in paths && factories[m].path == paths[m] && loaders[m].path == paths[m]
         && factories[m].loader == loaders[m].id
  }

  ghost predicate ReplicasAgree(replicas: map<Name, Replica>, nodes: map<Name, Node>, factories: map<Name, Factory>) {
    forall m :: m in replicas ==>
      && m in nodes && m in factories
      && replicas[m].node == nodes[m].id && replicas[m].factory == factories[m].loader
  }

  ghost predicate ModelsAgree(models: map<string, Model>, nodes: map<Name, Node>) {
    forall k :: k in models ==>
      var x := models[k];
      k == Key(x.owner, x.name) && x.owner in nodes && x.node == nodes[x.owner].id
  }

  /** Everything cached was made from what is configured now. */
  ghost predicate Agrees(s: State) {
    && NodesAgree(s.nodes, s.sockets) && PluginsAgree(s.factories, s.loaders, s.paths)
    && ReplicasAgree(s.replicas, s.nodes, s.factories) && ModelsAgree(s.models, s.nodes)
  }

  ghost predicate NodeSlots(slots: map<Id, Slot>, nodes: map<Name, Node>) {
    && (forall m :: m in nodes ==> nodes[m].id in slots && slots[nodes[m].id] == NodeOf(m))
    && (forall id :: id in slots && slots[id].NodeOf? ==>
          slots[id].owner in nodes && nodes[slots[id].owner].id == id)
  }

  ghost predicate LoaderSlots(slots: map<Id, Slot>, loaders: map<Name, Loader>) {
    && (forall m :: m in loaders ==> loaders[m].id in slots && slots[loaders[m].id] == LoaderOf(m))
    && (forall id :: id in slots && slots[id].LoaderOf? ==>
          slots[id].owner in loaders && loaders[slots[id].owner].id == id)
  }

  ghost predicate ReplicaSlots(slots: map<Id, Slot>, replicas: map<Name, Replica>) {
    && (forall m :: m in replicas ==> replicas[m].id in slots && slots[replicas[m].id] == ReplicaOf(m))
    && (forall id :: id in slots && slots[id].ReplicaOf? ==>
          slots[id].owner in replicas && replicas[slots[id].owner].id == id)
  }

  ghost predicate ModelSlots(slots: map<Id, Slot>, models: map<string, Model>) {
    && (forall k :: k in models ==> models[k].id in slots && slots[models[k].id] == ModelAt(k))
    && (forall id :: id in slots && slots[id].ModelAt? ==>
          slots[id].key in models && models[slots[id].key].id == id)
  }

  ghost predicate Numbered(slots: map<Id, Slot>, next: Id) {
    forall id: Id :: id in slots <==> id < next
  }

  /** Every object made is in exactly one cache, or deleted. */
  ghost predicate Accounted(s: State) {
    && Numbered(s.slots, s.next)
    && NodeSlots(s.slots, s.nodes) && LoaderSlots(s.slots, s.loaders)
    && ReplicaSlots(s.slots, s.replicas) && ModelSlots(s.slots, s.models)
  }

  ghost predicate Inv(s: State) { Agrees(s) && Accounted(s) }

  ghost predicate SameBut<V>(a: map<Name, V>, b: map<Name, V>, m: Name) {
    forall x :: x != m ==> (x in a <==> x in b) && (x in a ==> a[x] == b[x])
  }

  /** Nothing of any other module is touched, its models aside. */
  ghost predicate OthersKept(s: State, s': State, m: Name) {
    && SameBut(s.sockets, s'.sockets, m) && SameBut(s.paths, s'.paths, m)
    && SameBut(s.nodes, s'.nodes, m) && SameBut(s.loaders, s'.loaders, m) && SameBut(s.factories, s'.factories, m)
    && SameBut(s.replicas, s'.replicas, m)
  }

  lemma OthersTwice(s: State, s1: State, s2: State, m: Name)
    requires OthersKept(s, s1, m) && OthersKept(s1, s2, m)
    ensures OthersKept(s, s2, m)
  {
  }

  lemma OthersSame(s: State, m: Name)
    ensures OthersKept(s, s, m)
  {
  }

  lemma EntrySet<V>(a: map<Name, V>, m: Name, v: V)
    ensures SameBut(a, a[m := v], m) && SameBut(a, a, m)
  {
  }

  lemma EntryGone<V>(a: map<Name, V>, m: Name)
    ensures SameBut(a, a - {m}, m) && SameBut(a, a, m)
  {
  }

  // ---- one slot at a time ----

  /** Filling or changing one slot disturbs no cache but the ones it leaves and enters. */
  lemma SlotChange(s: State, id: Id, slot: Slot)
    requires Accounted(s)
    requires id in s.slots || id == s.next
    ensures var slots := s.slots[id := slot]; var was := if id in s.slots then s.slots[id] else Deleted;
            && Numbered(slots, if id == s.next then s.next + 1 else s.next)
            && (!was.NodeOf? && !slot.NodeOf? ==> NodeSlots(slots, s.nodes))
            && (!was.LoaderOf? && !slot.LoaderOf? ==> LoaderSlots(slots, s.loaders))
            && (!was.ReplicaOf? && !slot.ReplicaOf? ==> ReplicaSlots(slots, s.replicas))
            && (!was.ModelAt? && !slot.ModelAt? ==> ModelSlots(slots, s.models))
            && (id == s.next ==> id !in s.slots)
  {
  }

  lemma NodeAdded(slots: map<Id, Slot>, nodes: map<Name, Node>, m: Name, node: Node)
    requires NodeSlots(slots, nodes) && m !in nodes && node.id !in slots
    ensures NodeSlots(slots[node.id := NodeOf(m)], nodes[m := node])
  {
  }

  lemma NodeRemoved(slots: map<Id, Slot>, nodes: map<Name, Node>, m: Name)
    requires NodeSlots(slots, nodes) && m in nodes
    ensures nodes[m].id in slots && slots[nodes[m].id] == NodeOf(m)
    ensures NodeSlots(slots[nodes[m].id := Deleted], nodes - {m})
  {
  }

  lemma LoaderAdded(slots: map<Id, Slot>, loaders: map<Name, Loader>, m: Name, loader: Loader)
    requires LoaderSlots(slots, loaders) && m !in loaders && loader.id !in slots
    ensures LoaderSlots(slots[loader.id := LoaderOf(m)], loaders[m := loader])
  {
  }

  lemma LoaderRemoved(slots: map<Id, Slot>, loaders: map<Name, Loader>, m: Name)
    requires LoaderSlots(slots, loaders) && m in loaders
    ensures loaders[m].id in slots && slots[loaders[m].id] == LoaderOf(m)
    ensures LoaderSlots(slots[loaders[m].id := Deleted], loaders - {m})
  {
  }

  lemma ReplicaAdded(slots: map<Id, Slot>, replicas: map<Name, Replica>, m: Name, replica: Replica)
    requires ReplicaSlots(slots, replicas) && m !in replicas && replica.id !in slots
    ensures ReplicaSlots(slots[replica.id := ReplicaOf(m)], replicas[m := replica])
  {
  }

  lemma ReplicaRemoved(slots: map<Id, Slot>, replicas: map<Name, Replica>, m: Name)
    requires ReplicaSlots(slots, replicas) && m in replicas
    ensures replicas[m].id in slots && slots[replicas[m].id] == ReplicaOf(m)
    ensures ReplicaSlots(slots[replicas[m].id := Deleted], replicas - {m})
  {
  }

  lemma ModelAdded(slots: map<Id, Slot>, models: map<string, Model>, k: string, model: Model)
    requires ModelSlots(slots, models) && k !in models && model.id !in slots
    ensures ModelSlots(slots[model.id := ModelAt(k)], models[k := model])
  {
  }

  // ---- what making an object keeps ----

  lemma LoadAgrees(s: State, m: Name, loader: Loader, factory: Factory)
    requires Agrees(s) && m !in s.factories && m in s.paths
    requires loader.path == factory.path == s.paths[m] && factory.loader == loader.id
    ensures m !in s.loaders
    ensures PluginsAgree(s.factories[m := factory], s.loaders[m := loader], s.paths)
    ensures ReplicasAgree(s.replicas, s.nodes, s.factories[m := factory])
  {
    hide NodesAgree, ModelsAgree;
    assert m !in s.loaders;
  }

  lemma LoadKeeps(s: State, m: Name, plugin: Plugin)
    requires Inv(s)
    ensures Inv(LoadFactory(s, m, plugin)) && OthersKept(s, LoadFactory(s, m, plugin), m)
  {
    hide NodeSlots, LoaderSlots, ReplicaSlots, ModelSlots, Numbered, SameBut;
    hide NodesAgree, PluginsAgree, ReplicasAgree, ModelsAgree;
    OthersSame(s, m);
    var s' := LoadFactory(s, m, plugin);
    if s' != s {
      SlotChange(s, s.next, s'.slots[s.next]);
      if plugin.loads && plugin.implements {
        LoadAgrees(s, m, s'.loaders[m], s'.factories[m]);
        LoaderAdded(s.slots, s.loaders, m, s'.loaders[m]);
        EntrySet(s.loaders, m, s'.loaders[m]);
        EntrySet(s.factories, m, s'.factories[m]);
      }
    }
  }

  lemma NodeAgrees(s: State, m: Name, node: Node)
    requires Agrees(s) && m !in s.nodes && m in s.sockets && node.socket == s.sockets[m]
    ensures NodesAgree(s.nodes[m := node], s.sockets)
    ensures ReplicasAgree(s.replicas, s.nodes[m := node], s.factories)
    ensures ModelsAgree(s.models, s.nodes[m := node])
  {
    hide PluginsAgree, Key;
  }

  lemma NodeKeeps(s: State, m: Name)
    requires Inv(s)
    ensures Inv(GetOrCreateNode(s, m)) && OthersKept(s, GetOrCreateNode(s, m), m)
  {
    hide NodeSlots, LoaderSlots, ReplicaSlots, ModelSlots, Numbered, SameBut;
    hide NodesAgree, PluginsAgree, ReplicasAgree, ModelsAgree;
    OthersSame(s, m);
    var s' := GetOrCreateNode(s, m);
    if s' != s {
      SlotChange(s, s.next, NodeOf(m));
      NodeAgrees(s, m, s'.nodes[m]);
      NodeAdded(s.slots, s.nodes, m, s'.nodes[m]);
      EntrySet(s.nodes, m, s'.nodes[m]);
    }
  }

  lemma ModuleKeeps(s: State, m: Name, plugin: Plugin, acquires: bool)
    requires Inv(s)
    ensures Inv(Module(s, m, plugin, acquires)) && OthersKept(s, Module(s, m, plugin, acquires), m)
  {
    hide Inv, OthersKept;
    if m in s.replicas {
      OthersSame(s, m);
    } else {
      var s1 := LoadFactory(s, m, plugin);
      LoadKeeps(s, m, plugin);
      if m in s1.factories {
        var s2 := GetOrCreateNode(s1, m);
        NodeKeeps(s1, m);
        OthersTwice(s, s1, s2, m);
        if m in s2.nodes && acquires {
          ReplicaKeeps(s2, m);
          OthersTwice(s, s2, WithReplica(s2, m), m);
        }
      }
    }
  }

  function WithReplica(s: State, m: Name): State
    requires m in s.nodes && m in s.factories
  {
    s.(next := s.next + 1, slots := s.slots[s.next := ReplicaOf(m)],
       replicas := s.replicas[m := Replica(s.next, s.nodes[m].id, s.factories[m].loader)])
  }

  lemma ReplicaAgrees(s: State, m: Name, replica: Replica)
    requires Agrees(s) && m in s.nodes && m in s.factories
    requires replica.node == s.nodes[m].id && replica.factory == s.factories[m].loader
    ensures ReplicasAgree(s.replicas[m := replica], s.nodes, s.factories)
  {
    hide NodesAgree, PluginsAgree, ModelsAgree;
  }

  lemma ReplicaKeeps(s: State, m: Name)
    requires Inv(s) && m in s.nodes && m in s.factories && m !in s.replicas
    ensures Inv(WithReplica(s, m)) && OthersKept(s, WithReplica(s, m), m)
  {
    hide NodeSlots, LoaderSlots, ReplicaSlots, ModelSlots, Numbered, SameBut;
    hide NodesAgree, PluginsAgree, ReplicasAgree, ModelsAgree;
    OthersSame(s, m);
    var replica := WithReplica(s, m).replicas[m];
    SlotChange(s, s.next, ReplicaOf(m));
    ReplicaAgrees(s, m, replica);
    ReplicaAdded(s.slots, s.replicas, m, replica);
    EntrySet(s.replicas, m, replica);
  }

  function WithModel(s: State, m: Name, name: string): State
    requires m in s.nodes
  {
    s.(next := s.next + 1, slots := s.slots[s.next := ModelAt(Key(m, name))],
       models := s.models[Key(m, name) := Model(s.next, m, name, s.nodes[m].id)])
  }

  lemma NewModelAgrees(s: State, m: Name, name: string, model: Model)
    requires Agrees(s) && m in s.nodes && Key(m, name) !in s.models
    requires model.owner == m && model.name == name && model.node == s.nodes[m].id
    ensures ModelsAgree(s.models[Key(m, name) := model], s.nodes)
  {
    hide NodesAgree, PluginsAgree, ReplicasAgree, Key;
  }

  lemma NewModelKeeps(s: State, m: Name, name: string)
    requires Inv(s) && m in s.nodes && Key(m, name) !in s.models
    ensures Inv(WithModel(s, m, name)) && OthersKept(s, WithModel(s, m, name), m)
  {
    hide NodeSlots, LoaderSlots, ReplicaSlots, ModelSlots, Numbered, SameBut;
    hide NodesAgree, PluginsAgree, ReplicasAgree, ModelsAgree, Key;
    OthersSame(s, m);
    var k := Key(m, name);
    var model := WithModel(s, m, name).models[k];
    SlotChange(s, s.next, ModelAt(k));
    NewModelAgrees(s, m, name, model);
    ModelAdded(s.slots, s.models, k, model);
  }

  lemma ModelKeeps(s: State, m: Name, name: string, acquires: bool)
    requires Inv(s)
    ensures Inv(ModelOf(s, m, name, acquires)) && OthersKept(s, ModelOf(s, m, name, acquires), m)
  {
    hide Inv, OthersKept, Key;
    if Key(m, name) in s.models {
      OthersSame(s, m);
    } else {
      var s1 := GetOrCreateNode(s, m);
      NodeKeeps(s, m);
      if m in s1.nodes && acquires {
        NewModelKeeps(s1, m, name);
        OthersTwice(s, s1, WithModel(s1, m, name), m);
      }
    }
  }

  // ---- dropping ----

  lemma ReplicaGoneAgrees(s: State, m: Name)
    requires Agrees(s)
    ensures ReplicasAgree(s.replicas - {m}, s.nodes, s.factories)
  {
    hide NodesAgree, PluginsAgree, ModelsAgree;
  }

  lemma DropReplicaKeeps(s: State, m: Name)
    requires Inv(s)
    ensures var s' := DropReplica(s, m);
            Inv(s') && OthersKept(s, s', m) && m !in s'.replicas && s' == s.(replicas := s'.replicas, slots := s'.slots)
  {
    hide NodeSlots, LoaderSlots, ReplicaSlots, ModelSlots, Numbered, SameBut;
    hide NodesAgree, PluginsAgree, ReplicasAgree, ModelsAgree;
    OthersSame(s, m);
    if m in s.replicas {
      ReplicaRemoved(s.slots, s.replicas, m);
      SlotChange(s, s.replicas[m].id, Deleted);
      ReplicaGoneAgrees(s, m);
      EntryGone(s.replicas, m);
    }
  }

  lemma FactoryGoneAgrees(s: State, m: Name)
    requires Agrees(s) && m !in s.replicas
    ensures PluginsAgree(s.factories - {m}, s.loaders - {m}, s.paths)
    ensures ReplicasAgree(s.replicas, s.nodes, s.factories - {m})
    ensures m in s.loaders <==> m in s.factories
  {
    hide NodesAgree, ModelsAgree;
    assert m in s.loaders <==> m in s.loaders.Keys;
    assert m in s.factories <==> m in s.factories.Keys;
  }

  lemma DropFactoryKeeps(s: State, m: Name)
    requires Inv(s) && m !in s.replicas
    ensures var s' := DropFactory(s, m);
            && Inv(s') && OthersKept(s, s', m) && m !in s'.factories && m !in s'.loaders
            && s' == s.(factories := s'.factories, loaders := s'.loaders, slots := s'.slots)
  {
    hide NodeSlots, LoaderSlots, ReplicaSlots, ModelSlots, Numbered, SameBut;
    hide NodesAgree, PluginsAgree, ReplicasAgree, ModelsAgree;
    OthersSame(s, m);
    FactoryGoneAgrees(s, m);
    EntryGone(s.factories, m);
    if m in s.loaders {
      LoaderRemoved(s.slots, s.loaders, m);
      SlotChange(s, s.loaders[m].id, Deleted);
      EntryGone(s.loaders, m);
    } else {
      assert s.factories - {m} == s.factories;
    }
  }

  lemma NodeGoneAgrees(s: State, m: Name)
    requires Agrees(s) && m !in s.replicas && forall k :: k in s.models ==> s.models[k].owner != m
    ensures NodesAgree(s.nodes - {m}, s.sockets)
    ensures ReplicasAgree(s.replicas, s.nodes - {m}, s.factories)
    ensures ModelsAgree(s.models, s.nodes - {m})
  {
    hide PluginsAgree, Key;
  }

  lemma DropNodeKeeps(s: State, m: Name)
    requires Inv(s) && m !in s.replicas && forall k :: k in s.models ==> s.models[k].owner != m
    ensures var s' := DropNode(s, m);
            Inv(s') && OthersKept(s, s', m) && m !in s'.nodes && s' == s.(nodes := s'.nodes, slots := s'.slots)
  {
    hide NodeSlots, LoaderSlots, ReplicaSlots, ModelSlots, Numbered, SameBut;
    hide NodesAgree, PluginsAgree, ReplicasAgree, ModelsAgree;
    OthersSame(s, m);
    if m in s.nodes {
      NodeRemoved(s.slots, s.nodes, m);
      SlotChange(s, s.nodes[m].id, Deleted);
      NodeGoneAgrees(s, m);
      EntryGone(s.nodes, m);
    }
  }

  /** Deleting models leaves every other cache's objects where they are. */
  lemma ModelSlotsOnly(s: State, slots: map<Id, Slot>)
    requires Accounted(s) && slots.Keys == s.slots.Keys
    requires forall id :: id in slots ==> slots[id] == s.slots[id] || (s.slots[id].ModelAt? && slots[id] == Deleted)
    ensures Numbered(slots, s.next) && NodeSlots(slots, s.nodes)
            && LoaderSlots(slots, s.loaders) && ReplicaSlots(slots, s.replicas)
  {
  }

  lemma PrefixFindsModels(s: State, m: Name)
    requires Agrees(s)
    ensures forall k :: k in s.models && s.models[k].owner == m ==> Key(m, "") <= k
  {
    forall k | k in s.models && s.models[k].owner == m ensures Key(m, "") <= k {
      PrefixPicks(m, s.models[k].owner, s.models[k].name);
    }
  }

  lemma ModelsGone(slots: map<Id, Slot>, models: map<string, Model>, gone: set<string>)
    requires ModelSlots(slots, models) && gone <= models.Keys
    ensures var slots' := Deleting(slots, set k | k in gone :: models[k].id);
            && ModelSlots(slots', models - gone)
            && slots'.Keys == slots.Keys
            && (forall id :: id in slots' ==> slots'[id] == slots[id] || (slots[id].ModelAt? && slots'[id] == Deleted))
  {
  }

  lemma ModelsGoneAgrees(s: State, m: Name, gone: set<string>)
    requires Agrees(s) && forall k :: k in s.models && s.models[k].owner == m ==> k in gone
    ensures ModelsAgree(s.models - gone, s.nodes)
    ensures forall k :: k in s.models - gone ==> s.models[k].owner != m
  {
    hide NodesAgree, PluginsAgree, ReplicasAgree, Key;
  }

  lemma DropModelsKeeps(s: State, m: Name)
    requires Inv(s)
    ensures var s' := DropModels(s, m);
            && Inv(s') && OthersKept(s, s', m) && s' == s.(models := s'.models, slots := s'.slots)
            && (forall k :: k in s'.models ==> s'.models[k].owner != m)
  {
    hide NodeSlots, LoaderSlots, ReplicaSlots, ModelSlots, Numbered, SameBut;
    hide NodesAgree, PluginsAgree, ReplicasAgree, ModelsAgree, Key;
    OthersSame(s, m);
    PrefixFindsModels(s, m);
    var s' := DropModels(s, m);
    var gone := set k | k in s.models && Key(m, "") <= k;
    ModelsGone(s.slots, s.models, gone);
    ModelSlotsOnly(s, s'.slots);
    ModelsGoneAgrees(s, m, gone);
  }

  /** Dropping a module's caches removes everything made for it, deletes it, and nothing else. */
  lemma DropKeeps(s: State, m: Name)
    requires Inv(s)
    ensures var s' := DropCaches(s, m);
            && Inv(s') && OthersKept(s, s', m)
            && m !in s'.nodes && m !in s'.factories && m !in s'.loaders && m !in s'.replicas
            && (forall k :: k in s'.models ==> s'.models[k].owner != m)
            && s'.sockets == s.sockets && s'.paths == s.paths
  {
    hide Inv, OthersKept, DropReplica, DropModels, DropFactory, DropNode;
    var s1 := DropReplica(s, m);
    DropReplicaKeeps(s, m);
    var s2 := DropModels(s1, m);
    DropModelsKeeps(s1, m);
    OthersTwice(s, s1, s2, m);
    var s3 := DropFactory(s2, m);
    DropFactoryKeeps(s2, m);
    OthersTwice(s, s2, s3, m);
    DropNodeKeeps(s3, m);
    OthersTwice(s, s3, DropNode(s3, m), m);
  }

  lemma SocketKeeps(s: State, m: Name, socket: string)
    requires Inv(s) && m !in s.nodes
    ensures var s' := s.(sockets := s.sockets[m := socket]); Inv(s') && OthersKept(s, s', m)
  {
    hide Accounted, PluginsAgree, ReplicasAgree, ModelsAgree;
    assert Accounted(s.(sockets := s.sockets[m := socket])) by {
      SameSlots(s, s.(sockets := s.sockets[m := socket]));
    }
  }

  lemma PathKeeps(s: State, m: Name, path: string)
    requires Inv(s) && m !in s.factories
    ensures var s' := s.(paths := s.paths[m := path]); Inv(s') && OthersKept(s, s', m)
  {
    hide Accounted, NodesAgree, ReplicasAgree, ModelsAgree;
    assert Accounted(s.(paths := s.paths[m := path])) by {
      SameSlots(s, s.(paths := s.paths[m := path]));
    }
  }

  lemma SameSlots(s: State, s': State)
    requires Accounted(s) && s' == s.(sockets := s'.sockets, paths := s'.paths)
    ensures Accounted(s')
  {
  }

  lemma SetSocketKeeps(s: State, m: Name, socket: string)
    requires Inv(s)
    ensures Inv(SetSocket(s, m, socket)) && OthersKept(s, SetSocket(s, m, socket), m)
  {
    DropKeeps(s, m);
    hide Inv, OthersKept, DropCaches;
    OthersSame(s, m);
    var s1 := DropCaches(s, m);
    SocketKeeps(s1, m, socket);
    OthersTwice(s, s1, s1.(sockets := s1.sockets[m := socket]), m);
  }

  lemma SetPluginKeeps(s: State, m: Name, path: string, plugin: Plugin)
    requires Inv(s)
    ensures Inv(SetPlugin(s, m, path, plugin)) && OthersKept(s, SetPlugin(s, m, path, plugin), m)
  {
    hide Inv, OthersKept, DropReplica, DropFactory, LoadFactory;
    OthersSame(s, m);
    var s1 := DropReplica(s, m);
    DropReplicaKeeps(s, m);
    var s2 := DropFactory(s1, m);
    DropFactoryKeeps(s1, m);
    OthersTwice(s, s1, s2, m);
    var s3 := s2.(paths := s2.paths[m := path]);
    PathKeeps(s2, m, path);
    OthersTwice(s, s2, s3, m);
    LoadKeeps(s3, m, plugin);
    OthersTwice(s, s3, LoadFactory(s3, m, plugin), m);
  }

  lemma ApplyKeeps(s: State, step: Step)
    requires Inv(s)
    ensures Inv(Apply(s, step)) && OthersKept(s, Apply(s, step), step.owner)
  {
    hide Inv, OthersKept, Module, ModelOf, SetSocket, SetPlugin, DropCaches;
    match step
    case DoModule(m, plugin, acquires) => ModuleKeeps(s, m, plugin, acquires);
    case DoModel(m, name, acquires) => ModelKeeps(s, m, name, acquires);
    case DoSetSocket(m, socket) => SetSocketKeeps(s, m, socket);
    case DoSetPlugin(m, path, plugin) => SetPluginKeeps(s, m, path, plugin);
    case DoCrash(m) => DropKeeps(s, m);
  }

  lemma {:induction false} RunKeeps(s: State, steps: seq<Step>)
    requires Inv(s)
    ensures Inv(Run(s, steps))
    decreases |steps|
  {
    hide Inv, Apply;
    if steps != [] {
      ApplyKeeps(s, steps[0]);
      RunKeeps(Apply(s, steps[0]), steps[1..]);
    }
  }

  /** Over every run, whatever is cached was made from what is registered now, and every object ever created is in exactly
      one cache or has been deleted. */
  lemma CacheLaw(steps: seq<Step>)
    ensures Agrees(Run(EMPTY, steps)) && Accounted(Run(EMPTY, steps))
  {
    assert Inv(EMPTY);
    RunKeeps(EMPTY, steps);
  }

  // ---- what dropping deletes ----

  predicate BelongsTo(slot: Slot, m: Name) {
    match slot
    case NodeOf(owner) => owner == m
    case LoaderOf(owner) => owner == m
    case ReplicaOf(owner) => owner == m
    case ModelAt(key) => Key(m, "") <= key
    case Deleted => false
  }

  ghost predicate DeletesOnly(before: map<Id, Slot>, after: map<Id, Slot>, gone: Slot -> bool) {
    && before.Keys == after.Keys
    && forall id :: id in before ==> after[id] == if gone(before[id]) then Deleted else before[id]
  }

  lemma DropReplicaDeletes(s: State, m: Name)
    requires ReplicaSlots(s.slots, s.replicas)
    ensures DeletesOnly(s.slots, DropReplica(s, m).slots, x => x == ReplicaOf(m))
  {
  }

  lemma DropModelsDeletes(s: State, m: Name)
    requires ModelSlots(s.slots, s.models)
    ensures DeletesOnly(s.slots, DropModels(s, m).slots, (x: Slot) => x.ModelAt? && Key(m, "") <= x.key)
  {
    hide Key;
  }

  lemma DropFactoryDeletes(s: State, m: Name)
    requires LoaderSlots(s.slots, s.loaders)
    ensures DeletesOnly(s.slots, DropFactory(s, m).slots, x => x == LoaderOf(m))
  {
  }

  lemma DropNodeDeletes(s: State, m: Name)
    requires NodeSlots(s.slots, s.nodes)
    ensures DeletesOnly(s.slots, DropNode(s, m).slots, x => x == NodeOf(m))
  {
  }

  /** Dropping a module's caches deletes exactly the objects that belong to it. */
  lemma DropDeletes(s: State, m: Name)
    requires Inv(s)
    ensures DeletesOnly(s.slots, DropCaches(s, m).slots, x => BelongsTo(x, m))
  {
    hide DropReplica, DropModels, DropFactory, DropNode, Agrees, OthersKept, Key;
    hide NodeSlots, LoaderSlots, ReplicaSlots, ModelSlots, Numbered;
    DropReplicaDeletes(s, m);
    var s1 := DropReplica(s, m);
    DropReplicaKeeps(s, m);
    DropModelsDeletes(s1, m);
    var s2 := DropModels(s1, m);
    DropModelsKeeps(s1, m);
    DropFactoryDeletes(s2, m);
    var s3 := DropFactory(s2, m);
    DropFactoryKeeps(s2, m);
    DropNodeDeletes(s3, m);
  }

  /** For a module with nothing cached everything module() makes is new. */
  lemma FreshModule(s: State, m: Name, plugin: Plugin, acquires: bool)
    requires m !in s.nodes && m !in s.factories && m !in s.replicas && m in s.sockets
    ensures var s' := Module(s, m, plugin, acquires);
            m in s'.replicas ==>
              && m in s'.nodes && m in s'.factories && s'.nodes[m].socket == s.sockets[m]
              && s'.replicas[m].node == s'.nodes[m].id >= s.next
              && s'.replicas[m].factory == s'.factories[m].loader >= s.next && s'.replicas[m].id >= s.next
  {
  }

  /** Once a module is given another socket, module() never serves anything made before: the replica, its node and its
      factory's loader are new, and the node is on that socket. */
  lemma NothingStale(s: State, m: Name, socket: string, plugin: Plugin, acquires: bool)
    requires Inv(s) && !(m in s.sockets && s.sockets[m] == socket)
    ensures var s' := Module(SetSocket(s, m, socket), m, plugin, acquires);
            m in s'.replicas ==>
              && m in s'.nodes && m in s'.factories && s'.nodes[m].socket == socket
              && s'.replicas[m].node == s'.nodes[m].id >= s.next
              && s'.replicas[m].factory == s'.factories[m].loader >= s.next && s'.replicas[m].id >= s.next
  {
    DropKeeps(s, m);
    hide Inv, OthersKept, Module, DropCaches;
    CachesAreNotNumbered(s, m);
    FreshModule(SetSocket(s, m, socket), m, plugin, acquires);
  }

  lemma CachesAreNotNumbered(s: State, m: Name)
    ensures DropCaches(s, m).next == s.next
  {
    hide DropReplica, DropModels, DropFactory, DropNode;
    var s1 := DropReplica(s, m);
    var s2 := DropModels(s1, m);
    var s3 := DropFactory(s2, m);
    DroppingNumbersNothing(s, m);
    DroppingNumbersNothing(s1, m);
    DroppingNumbersNothing(s2, m);
    DroppingNumbersNothing(s3, m);
  }

  lemma DroppingNumbersNothing(s: State, m: Name)
    ensures DropReplica(s, m).next == DropModels(s, m).next == DropFactory(s, m).next == DropNode(s, m).next == s.next
  {
    hide Key, Deleting;
  }

  // ---- when an operation succeeds ----

  predicate Loads(p: Plugin) { p.present && p.loads && p.implements }

  lemma LoadsExactly(s: State, m: Name, plugin: Plugin)
    ensures var s' := LoadFactory(s, m, plugin);
            && (m in s'.factories <==> m in s.factories || (m in s.paths && s.paths[m] != "" && Loads(plugin)))
            && s'.nodes == s.nodes && s'.sockets == s.sockets && s'.replicas == s.replicas
  {
  }

  lemma ConnectsExactly(s: State, m: Name)
    ensures var s' := GetOrCreateNode(s, m);
            && (m in s'.nodes <==> m in s.nodes || m in s.sockets)
            && s'.factories == s.factories && s'.replicas == s.replicas && s'.models == s.models
  {
  }

  /** What is cached is also registered. */
  lemma CachedIsRegistered(s: State, m: Name)
    requires Inv(s)
    ensures (m in s.nodes ==> m in s.sockets) && (m in s.factories ==> m in s.paths)
  {
    hide Accounted, ReplicasAgree, ModelsAgree;
  }

  /** module() has a replica to hand out exactly when it had one, or the factory acquires one and both a socket and a working
      plugin (or a factory already loaded from it) are there. */
  lemma ModuleAnswersExactly(s: State, m: Name, plugin: Plugin, acquires: bool)
    requires Inv(s)
    ensures m in Module(s, m, plugin, acquires).replicas <==>
            || m in s.replicas
            || (acquires && m in s.sockets && m in s.paths && (m in s.factories || (s.paths[m] != "" && Loads(plugin))))
  {
    CachedIsRegistered(s, m);
    hide Inv, LoadFactory, GetOrCreateNode, Loads;
    LoadsExactly(s, m, plugin);
    ConnectsExactly(LoadFactory(s, m, plugin), m);
  }

  /** model() likewise, exactly when it had one, or there is a socket and the node acquires one. */
  lemma ModelAnswersExactly(s: State, m: Name, name: string, acquires: bool)
    requires Inv(s)
    ensures Key(m, name) in ModelOf(s, m, name, acquires).models <==>
            Key(m, name) in s.models || (acquires && m in s.sockets)
  {
    CachedIsRegistered(s, m);
    hide Inv, GetOrCreateNode, Key;
    ConnectsExactly(s, m);
  }

  /** A path that is registered anew is used at once: the factory is there exactly when that plugin loads; the old replica
      is not. */
  lemma PluginIsReplaced(s: State, m: Name, path: string, plugin: Plugin)
    requires Inv(s) && !(m in s.paths && s.paths[m] == path)
    ensures var s' := SetPlugin(s, m, path, plugin);
            && s'.paths == s.paths[m := path] && m !in s'.replicas
            && (m in s'.factories <==> path != "" && Loads(plugin))
            && (m in s'.factories ==> s'.factories[m].path == path && s'.factories[m].loader >= s.next)
  {
    hide Inv, OthersKept, DropReplica, DropFactory, LoadFactory;
    DropReplicaKeeps(s, m);
    var s1 := DropReplica(s, m);
    DropFactoryKeeps(s1, m);
    var s2 := DropFactory(s1, m);
    FreshFactory(s2.(paths := s2.paths[m := path]), m, plugin);
  }

  lemma FreshFactory(s: State, m: Name, plugin: Plugin)
    requires m in s.paths && m !in s.factories
    ensures var s' := LoadFactory(s, m, plugin);
            && s'.paths == s.paths && s'.replicas == s.replicas
            && (m in s'.factories <==> s.paths[m] != "" && Loads(plugin))
            && (m in s'.factories ==> s'.factories[m].path == s.paths[m] && s'.factories[m].loader == s.next)
  {
  }

  // ---- other modules ----

  ghost predicate ModelsKept(a: map<string, Model>, b: map<string, Model>, x: Name) {
    && (forall k :: k in a && a[k].owner == x ==> k in b && b[k] == a[k])
    && (forall k :: k in b && b[k].owner == x ==> k in a && a[k] == b[k])
  }

  ghost predicate SameAt<V>(a: map<Name, V>, b: map<Name, V>, x: Name) {
    (x in a <==> x in b) && (x in a ==> a[x] == b[x])
  }

  /** Nothing of this module is touched. */
  ghost predicate KeptFor(s: State, s': State, x: Name) {
    && SameAt(s.sockets, s'.sockets, x) && SameAt(s.paths, s'.paths, x) && SameAt(s.nodes, s'.nodes, x)
    && SameAt(s.loaders, s'.loaders, x) && SameAt(s.factories, s'.factories, x) && SameAt(s.replicas, s'.replicas, x)
    && ModelsKept(s.models, s'.models, x)
  }

  lemma DroppedModelsKept(s: State, m: Name, x: Name)
    requires Agrees(s) && Apart(m, x)
    ensures ModelsKept(s.models, DropModels(s, m).models, x)
  {
    hide NodesAgree, PluginsAgree, ReplicasAgree;
    forall k | k in s.models && s.models[k].owner == x ensures !(Key(m, "") <= k) {
      PrefixPicks(m, x, s.models[k].name);
    }
  }

  lemma PartsLeaveModels(s: State, m: Name, plugin: Plugin)
    ensures LoadFactory(s, m, plugin).models == GetOrCreateNode(s, m).models == s.models
    ensures DropReplica(s, m).models == DropFactory(s, m).models == DropNode(s, m).models == s.models
  {
    LoadLeavesModels(s, m, plugin);
    ConnectsExactly(s, m);
    hide LoadFactory, GetOrCreateNode;
  }

  lemma LoadLeavesModels(s: State, m: Name, plugin: Plugin)
    ensures LoadFactory(s, m, plugin).models == s.models
  {
  }

  lemma DropCachesModels(s: State, m: Name)
    ensures DropCaches(s, m).models == DropModels(s, m).models
  {
    var s1, any := DropReplica(s, m), Plugin(false, false, false);
    PartsLeaveModels(s, m, any);
    var s2 := DropModels(s1, m);
    assert s2.models == DropModels(s, m).models;
    hide DropReplica, DropModels, DropFactory, DropNode;
    PartsLeaveModels(s2, m, any);
    PartsLeaveModels(DropFactory(s2, m), m, any);
  }

  lemma MakingModels(s: State, m: Name, name: string, plugin: Plugin, acquires: bool)
    ensures Module(s, m, plugin, acquires).models == s.models
    ensures var after := ModelOf(s, m, name, acquires).models;
            || after == s.models
            || exists x: Model :: x.owner == m && Key(m, name) !in s.models && after == s.models[Key(m, name) := x]
  {
    hide LoadFactory, GetOrCreateNode, Key;
    PartsLeaveModels(s, m, plugin);
    PartsLeaveModels(LoadFactory(s, m, plugin), m, plugin);
  }

  lemma SettingModels(s: State, m: Name, socket: string, path: string, plugin: Plugin)
    ensures SetPlugin(s, m, path, plugin).models == s.models
    ensures var after := SetSocket(s, m, socket).models; after == s.models || after == DropModels(s, m).models
  {
    DropCachesModels(s, m);
    hide DropCaches, DropModels, LoadFactory, DropReplica, DropFactory;
    PartsLeaveModels(s, m, plugin);
    PartsLeaveModels(DropReplica(s, m), m, plugin);
    var s1 := DropFactory(DropReplica(s, m), m);
    PartsLeaveModels(s1.(paths := s1.paths[m := path]), m, plugin);
  }

  /** What each operation does to the models. */
  lemma ModelsAfter(s: State, step: Step)
    ensures var after := Apply(s, step).models;
            || after == s.models
            || after == DropModels(s, step.owner).models
            || exists x: Model, name: string ::
                 x.owner == step.owner && Key(step.owner, name) !in s.models && after == s.models[Key(step.owner, name) := x]
  {
    hide Key, Module, ModelOf, SetSocket, SetPlugin, DropModels, DropCaches;
    match step
    case DoModule(m, plugin, acquires) => MakingModels(s, m, "", plugin, acquires);
    case DoModel(m, name, acquires) => MakingModels(s, m, name, Plugin(false, false, false), acquires);
    case DoSetSocket(m, socket) => SettingModels(s, m, socket, "", Plugin(false, false, false));
    case DoSetPlugin(m, path, plugin) => SettingModels(s, m, "", path, plugin);
    case DoCrash(m) => DropCachesModels(s, m);
  }

  lemma StepKeepsModels(s: State, step: Step, x: Name)
    requires Agrees(s) && Apart(step.owner, x)
    ensures ModelsKept(s.models, Apply(s, step).models, x)
  {
    hide Agrees, DropModels, Key, Extends, Apply;
    ModelsAfter(s, step);
    DroppedModelsKept(s, step.owner, x);
  }

  lemma OthersKeptAt(s: State, s': State, m: Name, x: Name)
    requires OthersKept(s, s', m) && x != m && ModelsKept(s.models, s'.models, x)
    ensures KeptFor(s, s', x)
  {
  }

  lemma StepIsolates(s: State, step: Step, x: Name)
    requires Inv(s) && Apart(step.owner, x)
    ensures KeptFor(s, Apply(s, step), x)
  {
    hide Agrees, Accounted, OthersKept, ModelsKept, Apply, Extends;
    ApplyKeeps(s, step);
    StepKeepsModels(s, step, x);
    OthersKeptAt(s, Apply(s, step), step.owner, x);
  }

  lemma KeptTwice(s: State, s1: State, s2: State, x: Name)
    requires KeptFor(s, s1, x) && KeptFor(s1, s2, x)
    ensures KeptFor(s, s2, x)
  {
  }

  /** A run that names only modules apart from this one leaves everything of this one as it was. */
  lemma {:induction false} IsolationLaw(s: State, steps: seq<Step>, x: Name)
    requires Inv(s) && forall i :: 0 <= i < |steps| ==> Apart(steps[i].owner, x)
    ensures KeptFor(s, Run(s, steps), x)
    decreases |steps|
  {
    if steps != [] {
      hide Inv, Apart, Apply, KeptFor;
      var s1 := Apply(s, steps[0]);
      StepIsolates(s, steps[0], x);
      ApplyKeeps(s, steps[0]);
      IsolationLaw(s1, steps[1..], x);
      KeptTwice(s, s1, Run(s1, steps[1..]), x);
    }
  }

  /** Being apart is exactly what isolation needs: two different modules whose names are not apart have a run after which
      a crash of one takes a model of the other. */
  lemma IsolationExactly(m: Name, x: Name)
    requires m != x
    ensures Apart(m, x) <==>
            forall steps: seq<Step>, step: Step :: step.owner == m ==>
              KeptFor(Run(EMPTY, steps), Apply(Run(EMPTY, steps), step), x)
  {
    if Apart(m, x) {
      forall steps: seq<Step>, step: Step | step.owner == m
        ensures KeptFor(Run(EMPTY, steps), Apply(Run(EMPTY, steps), step), x)
      {
        CacheLaw(steps);
        StepIsolates(Run(EMPTY, steps), step, x);
      }
    } else {
      var name := CollidingName(m, x);
      var steps := [DoSetSocket(x, "s"), DoModel(x, name, true)];
      CrashTakesModel(m, x, name);
      assert !KeptFor(Run(EMPTY, steps), Apply(Run(EMPTY, steps), DoCrash(m)), x);
    }
  }

  lemma CollidingName(m: Name, x: Name) returns (name: string)
    requires m != x && !Apart(m, x)
    ensures Key(m, "") <= Key(x, name)
  {
    if Extends(x, m) {
      name := "";
      assert x <= Key(x, name);
    } else {
      var t := ExtendsTail(m, x);
      name := Key(t, "");
      assert Key(x, name) == Key(m, "");
    }
  }

  lemma OneModel(x: Name, name: string)
    ensures var s := Run(EMPTY, [DoSetSocket(x, "s"), DoModel(x, name, true)]);
            s.models == map[Key(x, name) := Model(1, x, name, 0)]
  {
    hide Key;
    var s1 := SetSocket(EMPTY, x, "s");
    assert DropModels(EMPTY, x) == EMPTY by {
      assert (set k | k in EMPTY.models && Key(x, "") <= k) == {};
    }
    assert s1 == EMPTY.(sockets := map[x := "s"]);
    var steps := [DoSetSocket(x, "s"), DoModel(x, name, true)];
    assert steps[1..] == [DoModel(x, name, true)] && steps[1..][1..] == [];
    assert Run(EMPTY, steps) == Run(s1, steps[1..]) == Run(ModelOf(s1, x, name, true), []);
  }

  lemma CrashTakesModel(m: Name, x: Name, name: string)
    requires m != x && Key(m, "") <= Key(x, name)
    ensures var s := Run(EMPTY, [DoSetSocket(x, "s"), DoModel(x, name, true)]);
            Key(x, name) in s.models && s.models[Key(x, name)].owner == x && Key(x, name) !in DropCaches(s, m).models
  {
    hide Key, Run;
    OneModel(x, name);
  }

  // ---- what model() answers ----

  ghost predicate OwnersIn(s: State, names: set<Name>) { forall k :: k in s.models ==> s.models[k].owner in names }

  lemma StepOwners(s: State, step: Step, names: set<Name>)
    requires OwnersIn(s, names) && step.owner in names
    ensures OwnersIn(Apply(s, step), names)
  {
    hide Apply, Key;
    ModelsAfter(s, step);
  }

  lemma {:induction false} RunOwners(s: State, steps: seq<Step>, names: set<Name>)
    requires OwnersIn(s, names) && forall i :: 0 <= i < |steps| ==> steps[i].owner in names
    ensures OwnersIn(Run(s, steps), names)
    decreases |steps|
  {
    if steps != [] {
      hide OwnersIn, Apply;
      StepOwners(s, steps[0], names);
      RunOwners(Apply(s, steps[0]), steps[1..], names);
    }
  }

  /** When every other module named in a run is apart from this one, model() never answers with a model made for another
      module or under another name. */
  lemma AnswerLaw(steps: seq<Step>, m: Name, name: string)
    requires forall i :: 0 <= i < |steps| ==> steps[i].owner == m || Apart(steps[i].owner, m)
    ensures var s := Run(EMPTY, steps); var key := Key(m, name);
            key in s.models ==> s.models[key].owner == m && s.models[key].name == name
  {
    var s, key := Run(EMPTY, steps), Key(m, name);
    CacheLaw(steps);
    RunOwners(EMPTY, steps, set i | 0 <= i < |steps| :: steps[i].owner);
    if key in s.models {
      SharedKey(m, name, s.models[key].owner, s.models[key].name);
    }
  }
}
