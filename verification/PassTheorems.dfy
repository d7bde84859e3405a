/** What follows for the actors of a core over whole passes: whom a reap takes when an id has
    been used before, and when no `onInit` frame is ever orphaned. */
module PassTheorems {
  import opened Lifecycle
  import opened LifecycleSafety
  import opened LifecycleTheorems
  import opened Passes

  // ---------------------------------------------------------------- kills add up

  /** The same core with more kills recorded. */
  function More(k: Core, ids: set<Id>): Core {
    k.(toRemove := k.toRemove + ids)
  }

  lemma {:induction false} KillAllMore(k: Core, words: seq<Id>, ids: set<Id>)
    ensures KillAll(More(k, ids), words) == More(KillAll(k, words), ids)
    decreases |words|
  {
    if words != [] {
      assert k.toRemove + ids + {words[0]} == k.toRemove + {words[0]} + ids;
      KillAllMore(KillIn(k, words[0]), words[1..], ids);
    }
  }

  lemma RemoveMore(k: Core, id: Id, ids: set<Id>)
    ensures RemoveIn(More(k, ids), id) == More(RemoveIn(k, id), ids)
  {
    if !(id in k.activating && k.activating[id].frame.Suspended?) && id in k.actors {
      var m := if id in k.activating
               then k.(activating := k.activating - {id}, dying := k.dying - {id}, leaked := k.leaked + k.activating[id].stash)
               else k;
      KillAllMore(m.(actors := m.actors - {id}), m.actors[id].lastWords, ids);
    }
  }

  lemma EmplaceMore(k: Core, id: Id, actor: Actor, ids: set<Id>)
    ensures Emplace(More(k, ids), id, actor) == More(Emplace(k, id, actor), ids)
  {
    KillAllMore(k, actor.lastWords, ids);
  }

  lemma SettleMore(n: Core, id: Id, a: Action, ids: set<Id>)
    requires a.Spawn?
    ensures Settle(More(n, ids), id, a) == More(Settle(n, id, a), ids)
  {
    var m := if a.suicide then n.(toRemove := n.toRemove + {id}) else n;
    assert n.toRemove + ids + {id} == n.toRemove + {id} + ids;
    match a.outcome
    case ReadyTrue =>
      EmplaceMore(m, id, Actor(!a.suicide, true, a.lastWords), ids);
    case ReadyFalse =>
      RemoveMore(m, id, ids);
      KillAllMore(RemoveIn(m, id), a.lastWords, ids);
    case Suspends =>
      var b := BeginIn(m, id, a.deadline).(orphaned := m.orphaned || Orphans(m, id));
      EmplaceMore(b, id, Actor(!a.suicide, false, a.lastWords), ids);
  }

  /** User code does not look at the kills recorded: it adds its own. */
  lemma {:induction false} PerformMore(k: Core, a: Action, ids: set<Id>)
    ensures Perform(More(k, ids), a) == More(Perform(k, a), ids)
    decreases a, 1
  {
    if a.Kill? {
      assert k.toRemove + ids + {a.id} == k.toRemove + {a.id} + ids;
    } else {
      var id := NewId(k, a.service);
      var m := k.(free := k.free - {id});
      KillAllMore(m, a.lastWords, ids);
      PerformAllMore(m, a.script, ids);
      SettleMore(PerformAll(m, a.script), id, a, ids);
    }
  }

  lemma {:induction false} PerformAllMore(k: Core, script: seq<Action>, ids: set<Id>)
    ensures PerformAll(More(k, ids), script) == More(PerformAll(k, script), ids)
    decreases script, 0
  {
    if script != [] {
      PerformMore(k, script[0], ids);
      PerformAllMore(Perform(k, script[0]), script[1..], ids);
    }
  }

  /** The kills this user code records. */
  ghost function KillsOf(k: Core, script: seq<Action>): set<Id> {
    PerformAll(k.(toRemove := {}), script).toRemove
  }

  lemma KillsAddUp(k: Core, script: seq<Action>)
    ensures PerformAll(k, script).toRemove == k.toRemove + KillsOf(k, script)
  {
    assert k == More(k.(toRemove := {}), k.toRemove);
    PerformAllMore(k.(toRemove := {}), script, k.toRemove);
  }

  /** The actor is gone, or as good as gone. */
  predicate Taken(k: Core, id: Id) {
    id !in k.actors || id in k.dying
  }

  // ---------------------------------------------------------------- what a pass does with its input

  /** Events with the handlers they meet, as they would arrive. */
  function Arrivals(stash: seq<Event>, scripts: seq<seq<Action>>): seq<Incoming>
    decreases |stash|
  {
    if stash == [] then []
    else if scripts == [] then [Incoming(stash[0], false, [])] + Arrivals(stash[1..], [])
    else [Incoming(stash[0], false, scripts[0])] + Arrivals(stash[1..], scripts[1..])
  }

  /** A replay delivers the stashed events as if they arrived now, each to its handlers. */
  lemma {:induction false} ReplayIsReceive(k: Core, id: Id, stash: seq<Event>, scripts: seq<seq<Action>>)
    requires Good(k) && !k.orphaned && id in k.actors && id !in k.activating && SaneScripts(scripts, k.services)
    requires (forall i :: 0 <= i < |stash| ==> stash[i].dest == To(id)) && !ReplayIn(k, stash, scripts).orphaned
    ensures ReplayIn(k, stash, scripts) == ReceiveAll(k, Arrivals(stash, scripts))
    decreases |stash|
  {
    if stash != [] {
      var script := if scripts == [] then [] else scripts[0];
      var more := if scripts == [] then [] else scripts[1..];
      var m := RouteIn(k, stash[0], script);
      if m.orphaned {
        ReplayStaysOrphaned(m, stash[1..], more);
      }
      RouteUndisturbs(k, stash[0], script);
      ReplayIsReceive(m, id, stash[1..], more);
      var all := Arrivals(stash, scripts);
      assert all[0] == Incoming(stash[0], false, script) && all[1..] == Arrivals(stash[1..], more);
    }
  }

  /** The loop callbacks run after everything is received, unless a kill is recorded by then;
      in that case they are skipped. */
  lemma CallbacksRunUnlessKilled(k: Core, p: Pass, order: seq<Id>)
    ensures var quiet := BeforeReap(k, p.(callbacks := []), order);
            BeforeReap(k, p, order) == if quiet.toRemove == {} then PerformAll(quiet, p.callbacks) else quiet
    ensures BeforeReap(k, p.(callbacks := []), order) == ReceiveAll(Pumped(k, p, order), p.inbox)
  {
    assert ListenIn(k, p.(callbacks := [])) == ListenIn(k, p);
    assert Pumped(k, p.(callbacks := []), order) == Pumped(k, p, order);
  }

  lemma {:induction false} KillIsRecorded(k: Core, script: seq<Action>, id: Id)
    requires id in k.toRemove || Action.Kill(id) in script
    ensures id in PerformAll(k, script).toRemove
    decreases |script|
  {
    if script != [] {
      if id in k.toRemove || script[0] == Action.Kill(id) {
        RecordedStays(k, script[0], id);
      }
      KillIsRecorded(Perform(k, script[0]), script[1..], id);
    }
  }

  lemma RecordedStays(k: Core, a: Action, id: Id)
    requires id in k.toRemove || a == Action.Kill(id)
    ensures id in Perform(k, a).toRemove
  {
    if id in k.toRemove {
      PerformMore(k.(toRemove := k.toRemove - {id}), a, {id});
      assert More(k.(toRemove := k.toRemove - {id}), {id}) == k;
    }
  }

  lemma {:induction false} ReceiveRecords(k: Core, batch: seq<Incoming>, id: Id)
    requires id in k.toRemove
    ensures id in ReceiveAll(k, batch).toRemove
    decreases |batch|
  {
    if batch != [] {
      var x := batch[0];
      KillIsRecorded(k.(routed := k.routed + [x.e]), x.script, id);
      ReceiveRecords(ReceiveIn(k, x.e, x.answers, x.script), batch[1..], id);
    }
  }

  lemma {:induction false} ReplayRecords(k: Core, stash: seq<Event>, scripts: seq<seq<Action>>, id: Id)
    requires id in k.toRemove
    ensures id in ReplayIn(k, stash, scripts).toRemove
    decreases |stash|
  {
    if stash != [] {
      var script := if scripts == [] then [] else scripts[0];
      KillIsRecorded(k.(routed := k.routed + [stash[0]]), script, id);
      ReplayRecords(RouteIn(k, stash[0], script), stash[1..], if scripts == [] then [] else scripts[1..], id);
    }
  }

  lemma RemoveRecords(k: Core, who: Id, id: Id)
    requires id in k.toRemove
    ensures id in RemoveIn(k, who).toRemove
  {
    RemoveMore(k.(toRemove := k.toRemove - {id}), who, {id});
    assert More(k.(toRemove := k.toRemove - {id}), {id}) == k;
  }

  lemma {:induction false} FinishRecords(k: Core, order: seq<Id>, replays: map<Id, seq<seq<Action>>>, id: Id)
    requires id in k.toRemove
    ensures id in FinishAllIn(k, order, replays).toRemove
    decreases |order|
  {
    if order != [] {
      var one := order[0];
      var m := if one in k.activating then FinishIn(k, one, Scripts(replays, one)) else k;
      if one in k.activating {
        var a := k.activating[one];
        var k' := k.(activating := k.activating - {one}, dying := k.dying - {one});
        RemoveRecords(k'.(disposed := k'.disposed + a.stash), one, id);
        if one in k.actors {
          ReplayRecords(k'.(actors := k'.actors[one := k'.actors[one].(activated := true)]), a.stash, Scripts(replays, one), id);
        }
      }
      FinishRecords(m, order[1..], replays, id);
    }
  }

  /** Whoever is killed in a pass, before it by now pending kills, by a coroutine, by a
      callback that ran, or by the handler of an event, is gone at its end or waits for its
      frame. */
  lemma KilledInPassIsTaken(k: Core, p: Pass, t: Turn, id: Id)
    requires Steady(k) && SanePass(p, k.services) && Follows(k, p, t) && !LeavesEarly(k, p, t.order) && !BeforeReap(k, p, t.order).orphaned
    requires || id in k.toRemove || Action.Kill(id) in p.coroutines
             || id in ReceiveAll(Pumped(k, p, t.order), p.inbox).toRemove
             || (Action.Kill(id) in p.callbacks && ReceiveAll(Pumped(k, p, t.order), p.inbox).toRemove == {})
    ensures Taken(PassIn(k, p, t), id)
  {
    var b := BeforeReap(k, p, t.order);
    if id in k.toRemove || Action.Kill(id) in p.coroutines {
      KillIsRecorded(k, p.coroutines, id);
      var l := ListenIn(k, p);
      FinishRecords(ExpireIn(l, p.now), t.order, p.replays, id);
      ReceiveRecords(Pumped(k, p, t.order), p.inbox, id);
    }
    KillIsRecorded(ReceiveAll(Pumped(k, p, t.order), p.inbox), p.callbacks, id);
    assert id in b.toRemove;
    BeforeReapKeeps(k, p, t.order);
    ReapExact(b, t.batches);
  }

  // ---------------------------------------------------------------- ids used again

  /** An actor that user code created is taken by the reap that follows exactly when it was
      killed: by that user code, by the destructor of another actor that goes, or by a kill
      recorded for its id before it was created. */
  lemma NewcomerIsReapedIff(k: Core, script: seq<Action>, batches: seq<seq<Id>>, id: Id)
    requires Ripe(k) && !k.orphaned && SaneAll(script, k.services, {})
    requires var r := PerformAll(k, script);
             !r.orphaned && Reaps(r, batches) && id in r.actors && id !in k.actors && id !in r.dying
    ensures var r := PerformAll(k, script);
            Taken(ReapIn(r, batches), id) <==>
            id in k.toRemove || id in KillsOf(k, script) || id in Words(r, Reaped(batches) - {id})
  {
    var r := PerformAll(k, script);
    PerformAllKeeps(k, script, {});
    KillsAddUp(k, script);
    ReapExact(r, batches);
    if id in Reaped(batches) {
      ReapedByAnother(r, batches, id);
    }
    WordsGrow(r, r, Reaped(batches) - {id}, Reaped(batches));
  }

  /** A plain actor gets the least free id. When neither its own code, nor code that runs
      after it, nor a destructor kills it, the next reap takes it exactly when a kill was
      recorded for that id before. */
  lemma SpawnedIsReapedIff(k: Core, a: Action, later: seq<Action>, batches: seq<seq<Id>>)
    requires Ripe(k) && !k.orphaned && SaneAll([a] + later, k.services, {})
    requires a.Spawn? && a.service == 0 && !a.outcome.ReadyFalse? && k.free != {}
    requires var r := PerformAll(k, [a] + later);
             !r.orphaned && Reaps(r, batches)
             && Least(k.free) !in KillsOf(k, [a] + later) && Least(k.free) !in Words(r, Reaped(batches) - {Least(k.free)})
    ensures Taken(ReapIn(PerformAll(k, [a] + later), batches), Least(k.free)) <==> Least(k.free) in k.toRemove
  {
    var id := Least(k.free);
    assert ([a] + later)[1..] == later;
    var m := Perform(k, a);
    if m.orphaned {
      StaysOrphaned(m, later);
    }
    SpawnedActor(k, a);
    PerformKeeps(k, a, {});
    PerformAllKeeps(m, later, {});
    NewcomerIsReapedIff(k, [a] + later, batches, id);
  }

  /** New actors take free ids or service ids. */
  lemma {:induction false} NewcomersTakeFreeIds(k: Core, script: seq<Action>, id: Id)
    requires Good(k) && !k.orphaned && SaneAll(script, k.services, {}) && !PerformAll(k, script).orphaned
    requires id in PerformAll(k, script).actors && id !in k.actors
    ensures id in k.free || id <= k.services
    decreases script, 0
  {
    if script != [] {
      var m := Perform(k, script[0]);
      if m.orphaned {
        StaysOrphaned(m, script[1..]);
      }
      PerformKeeps(k, script[0], {});
      if id in m.actors {
        NewcomerTakesFreeId(k, script[0], id);
      } else {
        NewcomersTakeFreeIds(m, script[1..], id);
      }
    }
  }

  lemma {:induction false} NewcomerTakesFreeId(k: Core, a: Action, id: Id)
    requires Good(k) && !k.orphaned && Sane(a, k.services, {}) && !Perform(k, a).orphaned
    requires id in Perform(k, a).actors && id !in k.actors
    ensures id in k.free || id <= k.services
    decreases a, 1
  {
    if a.Spawn? {
      var it := NewId(k, a.service);
      var m := k.(free := k.free - {it});
      KillAllOnlyKills(m, a.lastWords);
      if it !in k.actors {
        var n := PerformAll(m, a.script);
        SettledKeys(n, it, a);
        if n.orphaned {
          SettleStaysOrphaned(n, it, a);
        }
        ReserveKept(k, it, {});
        if id in n.actors {
          NewcomersTakeFreeIds(m, a.script, id);
        }
      }
    }
  }

  lemma EmplacedKeys(k: Core, id: Id, actor: Actor)
    ensures Emplace(k, id, actor).actors.Keys <= k.actors.Keys + {id}
  {
    KillAllOnlyKills(k, actor.lastWords);
  }

  lemma SettledKeys(n: Core, id: Id, a: Action)
    requires a.Spawn?
    ensures Settle(n, id, a).actors.Keys <= n.actors.Keys + {id}
  {
    var m := if a.suicide then n.(toRemove := n.toRemove + {id}) else n;
    match a.outcome
    case ReadyTrue =>
      EmplacedKeys(m, id, Actor(!a.suicide, true, a.lastWords));
    case ReadyFalse =>
      RemovedKeys(m, id);
      KillAllOnlyKills(RemoveIn(m, id), a.lastWords);
    case Suspends =>
      EmplacedKeys(BeginIn(m, id, a.deadline).(orphaned := m.orphaned || Orphans(m, id)), id, Actor(!a.suicide, false, a.lastWords));
  }

  /** A removal never adds an actor, and records kills only if it destroys one. */
  lemma RemovedKeys(k: Core, id: Id)
    ensures var r := RemoveIn(k, id);
            && r.actors.Keys <= k.actors.Keys && r.orphaned == k.orphaned
            && (r.actors.Keys == k.actors.Keys ==> r.toRemove == k.toRemove)
  {
    RemoveStaysOrphaned(k, id);
    if !(id in k.activating && k.activating[id].frame.Suspended?) && id in k.actors {
      var m := if id in k.activating
               then k.(activating := k.activating - {id}, dying := k.dying - {id}, leaked := k.leaked + k.activating[id].stash)
               else k;
      DestroyShape(m, id);
      assert id !in RemoveIn(k, id).actors;
    }
  }

  /** While no kill is recorded for a free id, no plain actor is ever taken by a kill older
      than itself. */
  lemma UnusedIdsAreSafe(k: Core, script: seq<Action>, batches: seq<seq<Id>>, id: Id)
    requires Ripe(k) && !k.orphaned && SaneAll(script, k.services, {}) && k.free !! k.toRemove
    requires var r := PerformAll(k, script);
             !r.orphaned && Reaps(r, batches) && id in r.actors && id !in k.actors && id !in r.dying && id > k.services
    ensures var r := PerformAll(k, script);
            Taken(ReapIn(r, batches), id) <==> id in KillsOf(k, script) || id in Words(r, Reaped(batches) - {id})
  {
    NewcomersTakeFreeIds(k, script, id);
    NewcomerIsReapedIff(k, script, batches, id);
  }

  // ---------------------------------------------------------------- a run in which it happens

  /** The ids of plain actors from `lo` on. */
  function PlainIds(lo: nat): (ids: set<Id>)
    ensures forall id :: id in ids <==> lo <= id < BROADCAST_SID
    decreases BROADCAST_SID - lo
  {
    if lo >= BROADCAST_SID then {} else {lo} + PlainIds(lo + 1)
  }

  /** A core before its first actor. */
  function Fresh(services: nat): Core {
    Core(map[], map[], {}, {}, PlainIds(services + 1), services, [], [], [], false)
  }

  const PLAIN := Spawn(0, [], ReadyTrue, 0, false, [])
  const WAITING := Spawn(0, [], Suspends, 0, false, [])

  lemma PlainSpawns(k: Core, id: Id)
    requires Good(k) && id in k.free && forall x :: x in k.free ==> id <= x
    ensures Perform(k, PLAIN) == k.(free := k.free - {id}, actors := k.actors[id := Actor(true, true, [])])
    ensures Perform(k, WAITING) == k.(free := k.free - {id}, actors := k.actors[id := Actor(true, false, [])],
                                      activating := k.activating[id := Activation(Suspended, 0, false, [], [], |k.routed|)])
  {
    assert NewId(k, 0) == id;
    assert PerformAll(k.(free := k.free - {id}), []) == k.(free := k.free - {id});
    assert id !in k.activating && id != 0;
  }

  /** First pass: an actor whose `onInit` waits, and another. */
  const FIRST := Pass(map[], [WAITING, PLAIN], 0, map[], [], [])

  /** Second pass: the waiting actor is killed, its `onInit` fails, and a handler of the
      other one creates an actor. */
  function Second(one: Id): Pass {
    Pass(map[one := false], [Action.Kill(one)], 0, map[], [Incoming(Event(0, To(one + 1), false), false, [PLAIN])], [])
  }

  /** The core after the first pass. */
  function Waiting(services: nat): Core {
    var one := services + 1;
    Core(map[one := Actor(true, false, []), one + 1 := Actor(true, true, [])],
         map[one := Activation(Suspended, 0, false, [], [], 0)],
         {}, {}, PlainIds(services + 1) - {one} - {one + 1}, services, [], [], [], false)
  }

  lemma FirstPass(services: nat)
    requires services + 2 < BROADCAST_SID
    ensures Follows(Fresh(services), FIRST, Turn([], [])) && PassIn(Fresh(services), FIRST, Turn([], [])) == Waiting(services)
  {
    var k, w := Fresh(services), Waiting(services);
    FirstSpawns(services);
    assert ResumeIn(w, map[]).activating == w.activating;
    assert ListenIn(k, FIRST) == w;
    assert ExpireIn(w, 0).activating == w.activating;
    assert Pumped(k, FIRST, []) == w;
    assert Done(w) == {};
    assert w.actors != map[] by {
      assert services + 1 in w.actors;
    }
  }

  lemma FirstSpawns(services: nat)
    requires services + 2 < BROADCAST_SID
    ensures PerformAll(Fresh(services), [WAITING, PLAIN]) == Waiting(services)
  {
    var k := Fresh(services);
    var one := services + 1;
    assert Good(k);
    PlainSpawns(k, one);
    var m := Perform(k, WAITING);
    PerformKeeps(k, WAITING, {});
    PlainSpawns(m, one + 1);
    var w := Perform(m, PLAIN);
    assert [WAITING, PLAIN][1..] == [PLAIN] && [PLAIN][1..] == [];
    assert PerformAll(m, [PLAIN]) == PerformAll(w, []);
  }

  /** The core when the second pass has pumped: the killed actor is gone, its id is free
      again, and the kill is still recorded. */
  function Freed(services: nat): Core {
    var one := services + 1;
    Core(map[one + 1 := Actor(true, true, [])], map[], {}, {one},
         PlainIds(services + 1) - {one} - {one + 1} + {one}, services, [], [], [], false)
  }

  lemma SecondPump(services: nat)
    requires services + 2 < BROADCAST_SID
    ensures var one := services + 1;
            && Done(ListenIn(Waiting(services), Second(one))) == {one}
            && Pumped(Waiting(services), Second(one), [one]) == Freed(services)
  {
    var one := services + 1;
    var k := Waiting(services);
    var d := KillIn(k, one);
    assert PerformAll(k, [Action.Kill(one)]) == d by {
      assert [Action.Kill(one)][1..] == [];
      assert Perform(k, Action.Kill(one)) == d;
    }
    var a := Activation(Finished(false), 0, false, [], [], 0);
    var l := ResumeIn(d, map[one := false]);
    assert l.activating == map[one := a];
    assert ListenIn(k, Second(one)) == l;
    assert ExpireIn(l, 0).activating == l.activating;
    assert FinishIn(l, one, []) == Freed(services) by {
      assert l.activating - {one} == map[];
      assert l.actors - {one} == map[one + 1 := Actor(true, true, [])];
    }
    assert FinishAllIn(l, [one], map[]) == FinishIn(l, one, []) by {
      assert [one][1..] == [];
    }
  }

  predicate Well(k: Core, id: Id) {
    id in k.actors && k.actors[id].alive && k.actors[id].activated
  }

  /** Over two passes from a new core: an actor is killed and its activation fails, a new
      actor gets its id, and the reap takes the new actor, whom nobody killed. */
  lemma ReusedIdIsReaped(services: nat)
    requires services + 2 < BROADCAST_SID
    ensures var one := services + 1;
            var k := PassIn(Fresh(services), FIRST, Turn([], []));
            var born := BeforeReap(k, Second(one), [one]);
            && Follows(Fresh(services), FIRST, Turn([], [])) && Follows(k, Second(one), Turn([one], [[one]]))
            && one !in Pumped(k, Second(one), [one]).actors && Well(born, one)
            && one !in PassIn(k, Second(one), Turn([one], [[one]])).actors
  {
    var one := services + 1;
    FirstPass(services);
    SecondPump(services);
    var k, f := Waiting(services), Freed(services);
    var born := f.(routed := [Event(0, To(one + 1), false)], free := f.free - {one}, actors := f.actors[one := Actor(true, true, [])]);
    Reborn(services);
    assert BeforeReap(k, Second(one), [one]) == born;
    RebornReaped(born, one);
    assert f.actors != map[] by {
      assert one + 1 in f.actors;
    }
  }

  lemma Reborn(services: nat)
    requires services + 2 < BROADCAST_SID
    ensures var one, f := services + 1, Freed(services);
            ReceiveAll(f, Second(one).inbox)
            == f.(routed := [Event(0, To(one + 1), false)], free := f.free - {one}, actors := f.actors[one := Actor(true, true, [])])
  {
    var one, f := services + 1, Freed(services);
    var e := Event(0, To(one + 1), false);
    var g := f.(routed := [e]);
    assert Good(g);
    PlainSpawns(g, one);
    var born := Perform(g, PLAIN);
    assert ReceiveIn(f, e, false, [PLAIN]) == born by {
      assert [PLAIN][1..] == [];
      assert f.routed + [e] == [e];
      assert PerformAll(g, [PLAIN]) == born;
    }
    var x := Incoming(e, false, [PLAIN]);
    assert [x][1..] == [];
    assert ReceiveAll(f, [x]) == born;
  }

  lemma RebornReaped(born: Core, one: Id)
    requires born.toRemove == {one} && one in born.actors && one !in born.activating && born.actors[one].lastWords == []
    ensures Reaps(born, [[one]]) && one !in ReapIn(born, [[one]]).actors
  {
    var left := RemoveIn(born.(toRemove := {}), one);
    assert RemoveAllIn(born.(toRemove := {}), [one]) == left by {
      assert [one][1..] == [];
    }
    assert left.toRemove == {} && one !in left.actors;
    assert ReapIn(born, [[one]]) == left by {
      assert [[one]][1..] == [];
    }
    assert Reaps(born, [[one]]) by {
      assert [[one]][1..] == [] && Reaps(left, []);
    }
  }

  // ---------------------------------------------------------------- enough ids for whole passes

  function ScriptsDemand(scripts: seq<seq<Action>>): nat
    decreases |scripts|
  {
    if scripts == [] then 0 else CreationsIn(scripts[0]) + ScriptsDemand(scripts[1..])
  }

  function InboxDemand(inbox: seq<Incoming>): nat
    decreases |inbox|
  {
    if inbox == [] then 0 else CreationsIn(inbox[0].script) + InboxDemand(inbox[1..])
  }

  ghost function ReplayDemand(replays: map<Id, seq<seq<Action>>>): nat
    decreases replays.Keys
  {
    if replays == map[] then 0
    else
      var id := Least(replays.Keys);
      ScriptsDemand(replays[id]) + ReplayDemand(replays - {id})
  }

  /** How many actors the user code of a pass tries to create. */
  ghost function Demand(p: Pass): nat {
    CreationsIn(p.coroutines) + ReplayDemand(p.replays) + InboxDemand(p.inbox) + CreationsIn(p.callbacks)
  }

  ghost function DemandAll(passes: seq<Pass>): nat
    decreases |passes|
  {
    if passes == [] then 0 else Demand(passes[0]) + DemandAll(passes[1..])
  }

  predicate TidyScripts(scripts: seq<seq<Action>>, services: nat) {
    forall i :: 0 <= i < |scripts| ==> TidyAll(scripts[i], services)
  }

  predicate TidyPass(p: Pass, services: nat) {
    && TidyAll(p.coroutines, services) && TidyAll(p.callbacks, services)
    && (forall i :: 0 <= i < |p.inbox| ==> TidyAll(p.inbox[i].script, services))
    && (forall id :: id in p.replays ==> TidyScripts(p.replays[id], services))
  }

  /** Any entry can be counted first. */
  lemma {:induction false} DemandSplits(replays: map<Id, seq<seq<Action>>>, id: Id)
    requires id in replays
    ensures ReplayDemand(replays) == ScriptsDemand(replays[id]) + ReplayDemand(replays - {id})
    decreases replays.Keys
  {
    var least := Least(replays.Keys);
    if id != least {
      DemandSplits(replays - {least}, id);
      DemandSplits(replays - {id}, least);
      assert replays - {least} - {id} == replays - {id} - {least};
    }
  }

  lemma PlentyLeft(k: Core, r: Core, n: int)
    requires Plenty(k, n) && Good(r) && !r.orphaned && k.free <= r.free
    ensures Plenty(r, n)
  {
    SubsetSize(k.free, r.free);
  }

  lemma RoutePlenty(k: Core, e: Event, script: seq<Action>, spare: nat)
    requires Plenty(k, CreationsIn(script) + spare) && !Gated(k, e) && SaneAll(script, k.services, {}) && TidyAll(script, k.services)
    ensures Plenty(RouteIn(k, e, script), spare) && RouteIn(k, e, script).services == k.services
  {
    RoutedGood(k, e);
    EnoughIds(k.(routed := k.routed + [e]), script, spare);
  }

  lemma {:induction false} ReplayPlenty(k: Core, id: Id, stash: seq<Event>, scripts: seq<seq<Action>>, spare: nat)
    requires Plenty(k, ScriptsDemand(scripts) + spare) && id in k.actors && id !in k.activating
    requires SaneScripts(scripts, k.services) && TidyScripts(scripts, k.services)
    requires forall i :: 0 <= i < |stash| ==> stash[i].dest == To(id)
    ensures Plenty(ReplayIn(k, stash, scripts), spare)
    decreases |stash|
  {
    if stash != [] {
      var script := if scripts == [] then [] else scripts[0];
      var more := if scripts == [] then [] else scripts[1..];
      RoutePlenty(k, stash[0], script, ScriptsDemand(more) + spare);
      RouteUndisturbs(k, stash[0], script);
      ReplayPlenty(RouteIn(k, stash[0], script), id, stash[1..], more, spare);
    }
  }

  lemma FinishPlenty(k: Core, id: Id, scripts: seq<seq<Action>>, spare: nat)
    requires Plenty(k, ScriptsDemand(scripts) + spare) && Sound(k, {}) && id in k.activating && k.activating[id].frame.Finished?
    requires SaneScripts(scripts, k.services) && TidyScripts(scripts, k.services)
    ensures Plenty(FinishIn(k, id, scripts), spare)
  {
    assert GateOk(k, id);
    if Succeeded(k, id) {
      GoodWithoutActivation(k, id);
      var m := k.(activating := k.activating - {id}, dying := k.dying - {id},
                  actors := k.actors[id := k.actors[id].(activated := true)]);
      assert FinishIn(k, id, scripts) == ReplayIn(m, k.activating[id].stash, scripts);
      ReplayPlenty(m, id, k.activating[id].stash, scripts, spare);
    } else {
      FailureKeeps(k, id, scripts, {});
      FailureIsDestruction(k, id, scripts);
      DestroyShape(Condemned(k, id), id);
      PlentyLeft(k, FinishIn(k, id, scripts), ScriptsDemand(scripts) + spare);
    }
  }

  lemma {:induction false} FinishAllPlenty(k1: Core, k: Core, all: set<Id>, todo: set<Id>, order: seq<Id>,
                                           replays: map<Id, seq<seq<Action>>>, spare: nat)
    requires Good(k1) && PumpInv(k1, k, all, todo) && todo <= all <= Done(k1) && Enumerates(order, todo)
    requires Plenty(k, ReplayDemand(replays) + spare) && SaneReplays(replays, k.services)
    requires forall id :: id in replays ==> TidyScripts(replays[id], k.services)
    ensures Plenty(FinishAllIn(k, order, replays), spare)
    decreases |order|
  {
    if order != [] {
      var id := order[0];
      var scripts := Scripts(replays, id);
      var m := FinishIn(k, id, scripts);
      var rest := replays - {id};
      if id in replays {
        DemandSplits(replays, id);
      } else {
        assert rest == replays;
      }
      FinishPlenty(k, id, scripts, ReplayDemand(rest) + spare);
      FinishOne(k1, k, all, todo, id, scripts);
      EnumeratesRest(order, todo);
      FinishAllPlenty(k1, m, all, todo - {id}, order[1..], rest, spare);
      OtherReplays(m, order[1..], replays, id);
    }
  }

  /** Handlers of an actor that is not met do not matter. */
  lemma {:induction false} OtherReplays(k: Core, order: seq<Id>, replays: map<Id, seq<seq<Action>>>, id: Id)
    requires id !in order
    ensures FinishAllIn(k, order, replays) == FinishAllIn(k, order, replays - {id})
    decreases |order|
  {
    if order != [] {
      var m := if order[0] in k.activating then FinishIn(k, order[0], Scripts(replays, order[0])) else k;
      OtherReplays(m, order[1..], replays, id);
    }
  }

  lemma PumpPlenty(k: Core, now: nat, order: seq<Id>, replays: map<Id, seq<seq<Action>>>, spare: nat)
    requires Plenty(k, ReplayDemand(replays) + spare) && Sound(k, {}) && Enumerates(order, Done(k)) && SaneReplays(replays, k.services)
    requires forall id :: id in replays ==> TidyScripts(replays[id], k.services)
    ensures Plenty(PumpIn(k, now, order, replays), spare)
  {
    var e := ExpireIn(k, now);
    PumpBegins(k, now);
    FinishAllPlenty(e, e, Done(e), Done(e), order, replays, spare);
  }

  lemma {:induction false} ReceivePlenty(k: Core, inbox: seq<Incoming>, spare: nat)
    requires Plenty(k, InboxDemand(inbox) + spare) && FramesSuspended(k) && SaneInbox(inbox, k.services)
    requires forall i :: 0 <= i < |inbox| ==> TidyAll(inbox[i].script, k.services)
    ensures Plenty(ReceiveAll(k, inbox), spare)
    decreases |inbox|
  {
    if inbox != [] {
      var x := inbox[0];
      var m := ReceiveIn(k, x.e, x.answers, x.script);
      if !Gated(k, x.e) {
        RoutePlenty(k, x.e, x.script, InboxDemand(inbox[1..]) + spare);
      }
      ReceiveKeeps(k, x);
      ReceivePlenty(m, inbox[1..], spare);
    }
  }

  /** A pass that tries to create no more actors than there are ids orphans no frame. */
  lemma PassPlenty(k: Core, p: Pass, t: Turn, spare: nat)
    requires Plenty(k, Demand(p) + spare) && Steady(k) && SanePass(p, k.services) && TidyPass(p, k.services) && Follows(k, p, t)
    ensures Plenty(PassIn(k, p, t), spare)
  {
    PumpedPlenty(k, p, t.order, InboxDemand(p.inbox) + CreationsIn(p.callbacks) + spare);
    var m := Pumped(k, p, t.order);
    PumpedKeeps(k, p, t.order);
    if !LeavesEarly(k, p, t.order) {
      ReceivePlenty(m, p.inbox, CreationsIn(p.callbacks) + spare);
      ReceiveAllKeeps(m, p.inbox);
      var r := ReceiveAll(m, p.inbox);
      EnoughIds(r, p.callbacks, spare);
      BeforeReapKeeps(k, p, t.order);
      var b := BeforeReap(k, p, t.order);
      assert Plenty(b, spare);
      ReapExact(b, t.batches);
      PlentyLeft(b, ReapIn(b, t.batches), spare);
    }
  }

  lemma PumpedPlenty(k: Core, p: Pass, order: seq<Id>, spare: nat)
    requires Plenty(k, CreationsIn(p.coroutines) + ReplayDemand(p.replays) + spare) && Steady(k)
    requires SanePass(p, k.services) && TidyPass(p, k.services) && Enumerates(order, Done(ListenIn(k, p)))
    ensures Plenty(Pumped(k, p, order), spare)
  {
    var l := ListenIn(k, p);
    ListenKeeps(k, p);
    EnoughIds(k, p.coroutines, ReplayDemand(p.replays) + spare);
    ResumeKeeps(PerformAll(k, p.coroutines), p.verdicts);
    PumpPlenty(l, p.now, order, p.replays, spare);
  }
}
