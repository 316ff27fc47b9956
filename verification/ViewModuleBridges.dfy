/** The caches as fields of the bridge. */
module ViewModuleBridges {
  import opened Sequences
  import opened ViewCacheModel

  ghost function Matching(keys: set<string>, prefix: string): set<string> { set k | k in keys && prefix <= k }

  ghost function IdsOf(models: map<string, Model>, keys: set<string>): set<Id>
    requires keys <= models.Keys
  {
    set k | k in keys :: models[k].id
  }

  lemma MatchesOne(seen: set<string>, key: string, prefix: string)
    requires key !in seen
    ensures key !in Matching(seen, prefix)
    ensures Matching(seen + {key}, prefix) == Matching(seen, prefix) + if prefix <= key then {key} else {}
  {
  }

  lemma MatchesNone(prefix: string, models: map<string, Model>, slots: map<Id, Slot>)
    ensures Matching({}, prefix) == {} && Deleting(slots, IdsOf(models, {})) == slots
  {
  }

  lemma DeletesOne(models: map<string, Model>, slots: map<Id, Slot>, was: set<string>, key: string)
    requires was <= models.Keys && key in models && key !in was
    ensures models - (was + {key}) == models - was - {key}
    ensures Deleting(slots, IdsOf(models, was + {key})) == Deleting(slots, IdsOf(models, was))[models[key].id := Deleted]
  {
    assert IdsOf(models, was + {key}) == IdsOf(models, was) + {models[key].id};
    hide IdsOf;
    DeletingOne(slots, IdsOf(models, was), models[key].id);
  }

  lemma DeletingOne(slots: map<Id, Slot>, ids: set<Id>, id: Id)
    ensures Deleting(slots, ids + {id}) == Deleting(slots, ids)[id := Deleted]
  {
  }

  lemma AllErased(s: State, m: Name)
    ensures var gone := Matching(s.models.Keys, Key(m, ""));
            DropModels(s, m) == s.(models := s.models - gone, slots := Deleting(s.slots, IdsOf(s.models, gone)))
  {
    var gone := Matching(s.models.Keys, Key(m, ""));
    assert gone == set k | k in s.models && Key(m, "") <= k;
    assert IdsOf(s.models, gone) == set k | k in gone :: s.models[k].id;
  }

  /** The view-module part of LogosQmlBridge. Where the objects it made are now is ghost. */
  class ViewModuleBridge {
    var viewModuleSockets: map<Name, string>
    var replicaPluginPaths: map<Name, string>
    var replicaNodes: map<Name, Node>
    var factoryLoaders: map<Name, Loader>
    var factories: map<Name, Factory>
    var replicas: map<Name, Replica>
    var modelReplicas: map<string, Model>
    var made: Id
    ghost var slots: map<Id, Slot>

    ghost function View(): State reads this {
      State(viewModuleSockets, replicaPluginPaths, replicaNodes, factoryLoaders, factories, replicas, modelReplicas,
            made, slots)
    }

    constructor ()
      ensures View() == EMPTY
    {
      viewModuleSockets, replicaPluginPaths, replicaNodes, factoryLoaders := map[], map[], map[], map[];
      factories, replicas, modelReplicas := map[], map[], map[];
      made, slots := 0, map[];
    }

    method GetOrCreateNode(moduleName: Name) returns (node: Option<Node>)
      modifies this
      ensures View() == ViewCacheModel.GetOrCreateNode(old(View()), moduleName)
      ensures node == if moduleName in replicaNodes then Some(replicaNodes[moduleName]) else None
    {
      if moduleName in replicaNodes { return Some(replicaNodes[moduleName]); }
      if moduleName !in viewModuleSockets { return None; }
      var created := Node(made, viewModuleSockets[moduleName]);
      made, slots := made + 1, slots[made := NodeOf(moduleName)];
      replicaNodes := replicaNodes[moduleName := created];
      node := Some(created);
    }

    method LoadFactory(moduleName: Name, plugin: Plugin) returns (factory: Option<Factory>)
      modifies this
      ensures View() == ViewCacheModel.LoadFactory(old(View()), moduleName, plugin)
      ensures factory == if moduleName in factories then Some(factories[moduleName]) else None
    {
      if moduleName in factories { return Some(factories[moduleName]); }
      if moduleName !in replicaPluginPaths || replicaPluginPaths[moduleName] == "" { return None; }
      var path := replicaPluginPaths[moduleName];
      if !plugin.present { return None; }
      var loader := Loader(made, path);
      made := made + 1;
      if !plugin.loads || !plugin.implements {
        slots := slots[loader.id := Deleted];
        return None;
      }
      slots := slots[loader.id := LoaderOf(moduleName)];
      factoryLoaders := factoryLoaders[moduleName := loader];
      factories := factories[moduleName := Factory(loader.id, path)];
      factory := Some(factories[moduleName]);
    }

    method Module(moduleName: Name, plugin: Plugin, acquires: bool) returns (replica: Option<Replica>)
      modifies this
      ensures View() == ViewCacheModel.Module(old(View()), moduleName, plugin, acquires)
      ensures replica == if moduleName in replicas then Some(replicas[moduleName]) else None
    {
      if moduleName in replicas { return Some(replicas[moduleName]); }
      var factory := LoadFactory(moduleName, plugin);
      if factory.None? { return None; }
      var node := GetOrCreateNode(moduleName);
      if node.None? || !acquires { return None; }
      var acquired := Replica(made, node.value.id, factory.value.loader);
      made, slots := made + 1, slots[made := ReplicaOf(moduleName)];
      replicas := replicas[moduleName := acquired];
      replica := Some(acquired);
    }

    method ModelOf(moduleName: Name, modelName: string, acquires: bool) returns (model: Option<Model>)
      modifies this
      ensures View() == ViewCacheModel.ModelOf(old(View()), moduleName, modelName, acquires)
      ensures var key := Key(moduleName, modelName);
              model == if key in modelReplicas then Some(modelReplicas[key]) else None
    {
      var key := Key(moduleName, modelName);
      if key in modelReplicas { return Some(modelReplicas[key]); }
      var node := GetOrCreateNode(moduleName);
      if node.None? || !acquires { return None; }
      var acquired := Model(made, moduleName, modelName, node.value.id);
      made, slots := made + 1, slots[made := ModelAt(key)];
      modelReplicas := modelReplicas[key := acquired];
      model := Some(acquired);
    }

    method DropReplica(moduleName: Name)
      modifies this
      ensures View() == ViewCacheModel.DropReplica(old(View()), moduleName)
    {
      if moduleName in replicas {
        slots := slots[replicas[moduleName].id := Deleted];
        replicas := replicas - {moduleName};
      }
    }

    method DropFactory(moduleName: Name)
      modifies this
      ensures View() == ViewCacheModel.DropFactory(old(View()), moduleName)
    {
      if moduleName in factories {
        factories := factories - {moduleName};
      }
      assert factories == old(factories) - {moduleName};
      if moduleName in factoryLoaders {
        slots := slots[factoryLoaders[moduleName].id := Deleted];
        factoryLoaders := factoryLoaders - {moduleName};
      }
    }

    /** Walks the models and erases those whose key starts with the prefix. */
    method EraseModels(prefix: string)
      modifies `modelReplicas, `slots
      ensures var gone := Matching(old(modelReplicas).Keys, prefix);
              && modelReplicas == old(modelReplicas) - gone
              && slots == Deleting(old(slots), IdsOf(old(modelReplicas), gone))
    {
      hide Matching, IdsOf, Deleting;
      var todo := modelReplicas.Keys;
      ghost var seen: set<string>, gone: set<string> := {}, {};
      MatchesNone(prefix, modelReplicas, slots);
      ghost var models, was := modelReplicas, slots;
      while todo != {}
        invariant todo !! seen && todo + seen == models.Keys
        invariant gone == Matching(seen, prefix) && gone <= seen
        invariant modelReplicas == models - gone && slots == Deleting(was, IdsOf(models, gone))
        decreases todo
      {
        var key :| key in todo;
        MatchesOne(seen, key, prefix);
        DeletesOne(models, was, gone, key);
        if prefix <= key {
          slots := slots[modelReplicas[key].id := Deleted];
          modelReplicas := modelReplicas - {key};
          gone := gone + {key};
        }
        todo, seen := todo - {key}, seen + {key};
      }
      assert seen == models.Keys;
    }

    method DropModels(moduleName: Name)
      modifies `modelReplicas, `slots
      ensures View() == ViewCacheModel.DropModels(old(View()), moduleName)
    {
      hide Key, Matching, IdsOf, Deleting, ViewCacheModel.DropModels;
      AllErased(View(), moduleName);
      EraseModels(Key(moduleName, ""));
    }

    method DropNode(moduleName: Name)
      modifies this
      ensures View() == ViewCacheModel.DropNode(old(View()), moduleName)
    {
      if moduleName in replicaNodes {
        slots := slots[replicaNodes[moduleName].id := Deleted];
        replicaNodes := replicaNodes - {moduleName};
      }
    }

    method DropViewModuleCaches(moduleName: Name)
      modifies this
      ensures View() == DropCaches(old(View()), moduleName)
    {
      DropReplica(moduleName);
      DropModels(moduleName);
      DropFactory(moduleName);
      DropNode(moduleName);
    }

    method SetViewModuleSocket(moduleName: Name, socketName: string)
      modifies this
      ensures View() == SetSocket(old(View()), moduleName, socketName)
    {
      if moduleName in viewModuleSockets && viewModuleSockets[moduleName] == socketName { return; }
      DropViewModuleCaches(moduleName);
      viewModuleSockets := viewModuleSockets[moduleName := socketName];
    }

    method SetViewReplicaPlugin(moduleName: Name, pluginPath: string, plugin: Plugin)
      modifies this
      ensures View() == SetPlugin(old(View()), moduleName, pluginPath, plugin)
    {
      if moduleName in replicaPluginPaths && replicaPluginPaths[moduleName] == pluginPath { return; }
      DropReplica(moduleName);
      DropFactory(moduleName);
      replicaPluginPaths := replicaPluginPaths[moduleName := pluginPath];
      var _ := LoadFactory(moduleName, plugin);
    }
  }
}
