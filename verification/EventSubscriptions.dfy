/** Subscriptions to module events (src/LogosQmlBridge.cpp:675-764): the bridge's record of what it subscribed to, checked
    against the registry that tracks the subscriptions and may drop them, with or without a notice. */
module SubscriptionModel {

  type Id = nat

  datatype Key = Key(target: string, event: string)

  /** `record` is the bridge's; `tracked` and `notices` are the registry's: the subscriptions it keeps alive, and the ones
      it gave up whose notice has not reached the bridge yet. Ids are issued in order, and 0 is a refusal. */
  datatype State = State(record: map<Key, Id>, tracked: map<Id, Key>, notices: map<Id, Key>, issued: Id)

  const START := State(map[], map[], map[], 0)

  /** What onModuleEvent() finds before it looks at its record. */
  datatype World = World(api: bool, viewModule: bool, client: bool)

  datatype Step =
    | Subscribe(key: Key, world: World, granted: bool)
    | SilentDrop(id: Id)
    | GiveUp(id: Id)
    | Notice(id: Id)

  predicate Refused(key: Key, w: World) {
    !w.api || key.target == "" || key.event == "" || w.viewModule || !w.client
  }

  predicate Known(s: State, key: Key) { key in s.record && s.record[key] in s.tracked }

  function DoSubscribe(s: State, key: Key, w: World, granted: bool): State {
    if Refused(key, w) || Known(s, key) then s
    else if !granted then s.(record := s.record - {key})
    else
      var id := s.issued + 1;
      State(s.record[key := id], s.tracked[id := key], s.notices, id)
  }

  /** What onModuleEvent() returns. */
  predicate Accepts(s: State, key: Key, w: World, granted: bool) {
    !Refused(key, w) && (Known(s, key) || granted)
  }

  function Apply(s: State, step: Step): State {
    match step
    case Subscribe(key, w, granted) => DoSubscribe(s, key, w, granted)
    case SilentDrop(id) => s.(tracked := s.tracked - {id})
    case GiveUp(id) =>
      if id !in s.tracked then s else s.(tracked := s.tracked - {id}, notices := s.notices[id := s.tracked[id]])
    case Notice(id) =>
      if id !in s.notices then s else s.(record := s.record - {s.notices[id]}, notices := s.notices - {id})
  }

  function Run(s: State, steps: seq<Step>): State
    decreases |steps|
  {
    if steps == [] then s else Run(Apply(s, steps[0]), steps[1..])
  }
}

module SubscriptionLaws {
  import opened SubscriptionModel

  /** The live subscriptions to a key; an event of that key is signalled once for each. */
  function Live(s: State, key: Key): set<Id> { set id | id in s.tracked && s.tracked[id] == key }

  ghost predicate AtMostOne(s: State) {
    forall i, j :: i in s.tracked && j in s.tracked && s.tracked[i] == s.tracked[j] ==> i == j
  }

  /** Every live subscription is the one on record for its key. */
  ghost predicate OnRecord(s: State) {
    forall id :: id in s.tracked ==> s.tracked[id] in s.record && s.record[s.tracked[id]] == id
  }

  ghost predicate Numbered(s: State) {
    && (forall id :: id in s.tracked ==> 0 < id <= s.issued)
    && (forall id :: id in s.notices ==> 0 < id <= s.issued && id !in s.tracked)
    && (forall k :: k in s.record ==> 0 < s.record[k] <= s.issued)
    && (forall k :: k in s.record && s.record[k] in s.tracked ==> s.tracked[s.record[k]] == k)
  }

  ghost predicate Inv(s: State) { OnRecord(s) && Numbered(s) }

  /** The notice comes after a newer subscription to the same pair, which is still alive. */
  predicate Late(s: State, step: Step) {
    step.Notice? && step.id in s.notices && Known(s, s.notices[step.id])
  }

  predicate NoneLate(s: State, steps: seq<Step>)
    decreases |steps|
  {
    steps == [] || (!Late(s, steps[0]) && NoneLate(Apply(s, steps[0]), steps[1..]))
  }

  lemma NumberedKept(s: State, step: Step)
    requires Numbered(s)
    ensures Numbered(Apply(s, step))
  {
  }

  /** A step keeps every live subscription on record exactly when it is not a late notice. */
  lemma OnlyLateLosesTrack(s: State, step: Step)
    requires Inv(s)
    ensures OnRecord(Apply(s, step)) <==> !Late(s, step)
  {
    var s' := Apply(s, step);
    if Late(s, step) {
      var newer := s.record[s.notices[step.id]];
      assert newer in s'.tracked && s'.tracked[newer] !in s'.record;
    }
  }

  lemma RecordedIsOne(s: State)
    requires OnRecord(s)
    ensures AtMostOne(s)
  {
  }

  lemma {:induction false} RunKeeps(s: State, steps: seq<Step>)
    requires Inv(s) && NoneLate(s, steps)
    ensures Inv(Run(s, steps))
    decreases |steps|
  {
    hide OnRecord, Numbered, Late, Apply;
    if steps != [] {
      assert Inv(Apply(s, steps[0])) by {
        NumberedKept(s, steps[0]);
        OnlyLateLosesTrack(s, steps[0]);
      }
      RunKeeps(Apply(s, steps[0]), steps[1..]);
    }
  }

  /** Over every run of subscriptions, silent drops, refusals and notices, none of them late, there is at most one live
      subscription to each (module, event) pair, so an event reaches the view at most once. */
  lemma OneSubscriptionLaw(steps: seq<Step>, key: Key)
    requires NoneLate(START, steps)
    ensures var s := Run(START, steps); AtMostOne(s) && |Live(s, key)| <= 1
  {
    RunKeeps(START, steps);
    var s := Run(START, steps);
    RecordedIsOne(s);
    SmallSet(Live(s, key));
  }

  lemma SmallSet(ids: set<Id>)
    requires forall i, j :: i in ids && j in ids ==> i == j
    ensures |ids| <= 1
  {
    if id :| id in ids {
      assert ids == {id};
    }
  }

  /** Exactly then: after the first late notice of a run, asking for the same pair again makes a second live subscription
      beside the one that was on record. */
  lemma LateNoticeDoubles(steps: seq<Step>, late: Step, w: World)
    requires NoneLate(START, steps) && Late(Run(START, steps), late)
    requires var key := Run(START, steps).notices[late.id]; !Refused(key, w)
    ensures var s := Run(START, steps); var key := s.notices[late.id];
            var s' := DoSubscribe(Apply(s, late), key, w, true);
            Live(s', key) == {s.record[key], s.issued + 1} && s.record[key] != s.issued + 1 && !AtMostOne(s')
  {
    RunKeeps(START, steps);
    var s := Run(START, steps);
    var key := s.notices[late.id];
    var s1 := Apply(s, late);
    var s' := DoSubscribe(s1, key, w, true);
    assert key !in s1.record && s1.tracked == s.tracked;
    assert s'.tracked == s.tracked[s.issued + 1 := key];
    assert forall id :: id in Live(s', key) <==> id == s.record[key] || id == s.issued + 1;
  }

  /** Such a run: the registry gives up a subscription, the view asks again before the notice is delivered,
      and once more after it. */
  lemma LateNoticeHappens(key: Key)
    requires key.target != "" && key.event != ""
    ensures var w := World(true, false, true);
            var s := Run(START, [Subscribe(key, w, true), GiveUp(1), Subscribe(key, w, true), Notice(1),
                                 Subscribe(key, w, true)]);
            Live(s, key) == {2, 3}
  {
    var w := World(true, false, true);
    var ask := Subscribe(key, w, true);
    var s1 := Apply(START, ask);
    var s2 := Apply(s1, GiveUp(1));
    var s3 := Apply(s2, ask);
    var s4 := Apply(s3, Notice(1));
    var s5 := Apply(s4, ask);
    assert Run(s4, [ask]) == Run(s5, []);
    assert Run(s3, [Notice(1), ask]) == Run(s4, [ask]);
    assert Run(s2, [ask, Notice(1), ask]) == Run(s3, [Notice(1), ask]);
    assert Run(s1, [GiveUp(1), ask, Notice(1), ask]) == Run(s2, [ask, Notice(1), ask]);
    assert Run(START, [ask, GiveUp(1), ask, Notice(1), ask]) == Run(s1, [GiveUp(1), ask, Notice(1), ask]);
    assert s5.tracked == map[2 := key, 3 := key];
  }

  /** onModuleEvent(), exactly. It refuses without an API, for an empty module or event name, for a view module and without a
      client, and then changes nothing. Otherwise it answers true exactly when a subscription to the pair is alive and on
      record once it returns, which is when one was before or the registry grants one now; a stale record is never taken for a
      subscription. */
  lemma AcceptsExactly(s: State, key: Key, w: World, granted: bool)
    requires Inv(s)
    ensures var s' := DoSubscribe(s, key, w, granted);
            if !w.api || key.target == "" || key.event == "" || w.viewModule || !w.client
            then s' == s && !Accepts(s, key, w, granted)
            else
              && (Accepts(s, key, w, granted) <==> Known(s', key))
              && (Known(s', key) <==> Live(s, key) != {} || granted)
              && (Live(s, key) != {} ==> s' == s)
              && (Known(s', key) ==> Live(s', key) == {s'.record[key]})
              && (!Accepts(s, key, w, granted) ==> Live(s', key) == {} && key !in s'.record)
  {
    if !Refused(key, w) {
      LiveIsKnown(s, key);
      OnlyLateLosesTrack(s, Subscribe(key, w, granted));
      LiveIsKnown(DoSubscribe(s, key, w, granted), key);
    }
  }

  lemma LiveIsKnown(s: State, key: Key)
    requires OnRecord(s) && (Known(s, key) ==> s.tracked[s.record[key]] == key)
    ensures Live(s, key) == if Known(s, key) then {s.record[key]} else {}
  {
  }

  lemma TrackedStays(s: State, step: Step, id: Id, key: Key)
    requires Numbered(s) && id in s.tracked && s.tracked[id] == key && step != SilentDrop(id) && step != GiveUp(id)
    ensures id in Apply(s, step).tracked && Apply(s, step).tracked[id] == key
  {
  }

  lemma {:induction false} TrackedStaysRun(s: State, steps: seq<Step>, id: Id, key: Key)
    requires Numbered(s) && id in s.tracked && s.tracked[id] == key && SilentDrop(id) !in steps && GiveUp(id) !in steps
    ensures id in Run(s, steps).tracked && Run(s, steps).tracked[id] == key
    decreases |steps|
  {
    hide Numbered, Apply;
    if steps != [] {
      NumberedKept(s, steps[0]);
      TrackedStays(s, steps[0], id, key);
      assert SilentDrop(id) !in steps[1..] && GiveUp(id) !in steps[1..];
      TrackedStaysRun(Apply(s, steps[0]), steps[1..], id, key);
    }
  }

  /** A subscription that onModuleEvent() has accepted lasts: the pair is subscribed to through everything that follows, late
      notices included, until the registry itself drops or gives up that subscription. */
  lemma AcceptedLasts(before: seq<Step>, key: Key, w: World, granted: bool, later: seq<Step>)
    requires NoneLate(START, before) && Accepts(Run(START, before), key, w, granted)
    ensures var s' := DoSubscribe(Run(START, before), key, w, granted);
            && key in s'.record
            && (SilentDrop(s'.record[key]) !in later && GiveUp(s'.record[key]) !in later ==>
                  s'.record[key] in Live(Run(s', later), key))
  {
    var s := Run(START, before);
    var s' := DoSubscribe(s, key, w, granted);
    RunKeeps(START, before);
    AcceptsExactly(s, key, w, granted);
    NumberedKept(s, Subscribe(key, w, granted));
    assert s' == Apply(s, Subscribe(key, w, granted));
    if SilentDrop(s'.record[key]) !in later && GiveUp(s'.record[key]) !in later {
      TrackedStaysRun(s', later, s'.record[key], key);
    }
  }
}

/** The bridge's side of it, against a registry. */
module SubscriptionObjects {
  import opened SubscriptionModel

  class Registry {
    var tracked: map<Id, Key>
    var notices: map<Id, Key>
    var issued: Id

    constructor ()
      ensures tracked == map[] && notices == map[] && issued == 0
    {
      tracked, notices, issued := map[], map[], 0;
    }

    predicate IsKnown(id: Id)
      reads this
    {
      id in tracked
    }

    method Offer(key: Key, granted: bool) returns (id: Id)
      modifies this
      ensures granted ==> id == issued == old(issued) + 1 && tracked == old(tracked)[id := key]
      ensures !granted ==> id == 0 && issued == old(issued) && tracked == old(tracked)
      ensures notices == old(notices)
    {
      if !granted { return 0; }
      issued := issued + 1;
      tracked := tracked[issued := key];
      id := issued;
    }

    /** The notice about a subscription given up has been handed over. */
    method Delivered(id: Id)
      modifies this`notices
      ensures notices == old(notices) - {id}
    {
      notices := notices - {id};
    }
  }

  class EventBridge {
    const registry: Registry
    var eventSubscriptions: map<Key, Id>

    ghost function View(): State
      reads this, registry
    {
      State(eventSubscriptions, registry.tracked, registry.notices, registry.issued)
    }

    constructor ()
      ensures View() == START && fresh(registry)
    {
      eventSubscriptions := map[];
      registry := new Registry();
    }

    method OnModuleEvent(key: Key, w: World, granted: bool) returns (accepted: bool)
      modifies this, registry
      ensures View() == DoSubscribe(old(View()), key, w, granted)
      ensures accepted == Accepts(old(View()), key, w, granted)
    {
      if !w.api { return false; }
      if key.target == "" || key.event == "" { return false; }
      if w.viewModule { return false; }
      if !w.client { return false; }
      if key in eventSubscriptions {
        if registry.IsKnown(eventSubscriptions[key]) { return true; }
        eventSubscriptions := eventSubscriptions - {key};
      }
      assert eventSubscriptions == old(eventSubscriptions) - {key};
      var id := registry.Offer(key, granted);
      if id == 0 { return false; }
      eventSubscriptions := eventSubscriptions[key := id];
      accepted := true;
    }

    /** What a subscription's closure does when the registry tells it that it was armed or given up: the record is removed by
        the key the closure captured, whichever subscription is on it by then. */
    method OnNotice(id: Id, key: Key, armed: bool)
      requires armed ==> id in registry.tracked && registry.tracked[id] == key
      requires !armed ==> id in registry.notices && registry.notices[id] == key
      modifies this, registry
      ensures View() == if armed then old(View()) else Apply(old(View()), Notice(id))
    {
      if !armed {
        registry.Delivered(id);
        eventSubscriptions := eventSubscriptions - {key};
      }
    }
  }
}
