/** What the operations of a core keep, and what follows for the actors on it. */
module LifecycleSafety {
  import opened Lifecycle

  // ---------------------------------------------------------------- kills

  /** Killing changes liveness and the kill set, nothing else. */
  predicate OnlyKilled(k: Core, r: Core) {
    && r == k.(actors := r.actors, toRemove := r.toRemove)
    && r.actors.Keys == k.actors.Keys && k.toRemove <= r.toRemove
    && forall id :: id in k.actors ==>
         || r.actors[id] == k.actors[id]
         || (r.actors[id] == k.actors[id].(alive := false) && id in r.toRemove)
  }

  lemma {:induction false} KillAllOnlyKills(k: Core, ids: seq<Id>)
    ensures OnlyKilled(k, KillAll(k, ids))
    ensures forall i :: 0 <= i < |ids| ==> Doomed(KillAll(k, ids), ids[i])
    decreases |ids|
  {
    if ids != [] {
      KillAllOnlyKills(KillIn(k, ids[0]), ids[1..]);
      assert Doomed(KillIn(k, ids[0]), ids[0]);
      forall i | 0 <= i < |ids|
        ensures Doomed(KillAll(k, ids), ids[i])
      {
        assert i > 0 ==> ids[i] == ids[1..][i - 1];
      }
    }
  }

  /** Killed: recorded for removal and dead if it exists. */
  predicate Doomed(k: Core, id: Id) {
    id in k.toRemove && (id in k.actors ==> !k.actors[id].alive)
  }

  lemma OnlyKilledKeeps(k: Core, r: Core, batch: set<Id>)
    requires Good(k) && OnlyKilled(k, r)
    ensures Good(r)
    ensures NoneStranded(k, batch) ==> NoneStranded(r, batch)
    ensures FramesSuspended(k) ==> FramesSuspended(r)
  {
    forall id | id in r.activating
      ensures GateOk(r, id)
    {
      assert GateOk(k, id);
    }
  }

  // ---------------------------------------------------------------- removal

  /** Destroying an actor touches nobody else's activation. */
  lemma DestroyShape(k: Core, id: Id)
    requires id in k.actors
    ensures var d := Destroy(k, id);
            && d == k.(actors := d.actors, toRemove := d.toRemove, free := d.free)
            && d.actors.Keys == k.actors.Keys - {id} && k.toRemove <= d.toRemove
            && (forall x :: x in d.actors ==> d.actors[x] == k.actors[x].(alive := d.actors[x].alive))
            && (forall x :: x in d.actors && !d.actors[x].alive ==> !k.actors[x].alive || x in d.toRemove)
            && d.free == if id > k.services && id < BROADCAST_SID then k.free + {id} else k.free
  {
    KillAllOnlyKills(k.(actors := k.actors - {id}), k.actors[id].lastWords);
  }

  lemma DestroyKeeps(k: Core, id: Id, batch: set<Id>)
    requires Good(k) && id in k.actors && id !in k.activating
    ensures Good(Destroy(k, id))
    ensures NoneStranded(k, batch + {id}) ==> NoneStranded(Destroy(k, id), batch)
    ensures FramesSuspended(k) ==> FramesSuspended(Destroy(k, id))
    ensures Destroy(k, id).actors.Keys == k.actors.Keys - {id}
    ensures Destroy(k, id).leaked == k.leaked && Destroy(k, id).disposed == k.disposed && Destroy(k, id).dying == k.dying
    ensures Destroy(k, id).activating == k.activating && Destroy(k, id).routed == k.routed
    ensures k.toRemove <= Destroy(k, id).toRemove && Destroy(k, id).orphaned == k.orphaned && Destroy(k, id).services == k.services
  {
    DestroyShape(k, id);
    GatesStand(k, Destroy(k, id));
  }

  /** Removal in a core none of whose frames has finished: deferred or complete, and never
      at the price of a stash. */
  lemma RemoveKeeps(k: Core, id: Id, batch: set<Id>)
    requires Good(k) && (id in k.activating ==> k.activating[id].frame.Suspended?)
    ensures var r := RemoveIn(k, id);
            && Good(r)
            && (NoneStranded(k, batch + {id}) ==> NoneStranded(r, batch))
            && (FramesSuspended(k) ==> FramesSuspended(r))
            && r.leaked == k.leaked && r.disposed == k.disposed && r.routed == k.routed
            && (if id in k.activating then r == k.(dying := k.dying + {id})
                else r.actors.Keys == k.actors.Keys - {id} && r.dying == k.dying && r.activating == k.activating)
            && k.toRemove <= r.toRemove && r.orphaned == k.orphaned && r.services == k.services
            && (id !in k.actors ==> r == k)
  {
    if id in k.activating {
      var r := RemoveIn(k, id);
      forall x | x in r.activating
        ensures GateOk(r, x)
      {
        assert GateOk(k, x);
      }
    } else if id in k.actors {
      DestroyKeeps(k, id, batch);
    }
  }

  /** The one place a stash can be lost: removing an actor whose frame has finished and was
      not pumped. It is lost exactly then, and exactly when it holds something. */
  lemma RemoveLeaksExactlyFinishedStashes(k: Core, id: Id)
    requires Good(k)
    ensures RemoveIn(k, id).leaked != k.leaked <==>
            id in k.activating && k.activating[id].frame.Finished? && k.activating[id].stash != []
  {
    if id in k.activating && k.activating[id].frame.Finished? {
      var m := k.(activating := k.activating - {id}, dying := k.dying - {id}, leaked := k.leaked + k.activating[id].stash);
      KillAllOnlyKills(m.(actors := m.actors - {id}), m.actors[id].lastWords);
      assert |RemoveIn(k, id).leaked| == |k.leaked| + |k.activating[id].stash|;
    } else if id in k.actors && id !in k.activating {
      KillAllOnlyKills(k.(actors := k.actors - {id}), k.actors[id].lastWords);
    }
  }

  // ---------------------------------------------------------------- user code

  /** An activation nothing has happened to yet. */
  predicate Unstarted(a: Activation) {
    a.frame.Suspended? && a.stash == []
  }

  /** What user code can change: it adds actors and activations and records kills. */
  predicate Grown(k: Core, r: Core) {
    && k.actors.Keys <= r.actors.Keys && k.toRemove <= r.toRemove
    && (forall id :: id in k.actors ==> r.actors[id] == k.actors[id].(alive := r.actors[id].alive) && (id in r.dying <==> id in k.dying))
    && r.services == k.services && r.free <= k.free
    && r.routed == k.routed && r.disposed == k.disposed && r.leaked == k.leaked
    && k.activating.Keys <= r.activating.Keys
    && (forall id :: id in k.activating ==> r.activating[id] == k.activating[id])
    && (forall id :: id in r.activating && id !in k.activating ==> Unstarted(r.activating[id]))
  }

  /** What user code leaves behind unless it orphaned a frame: a good core with the same ids reserved, and nobody stranded. */
  ghost predicate Kept(k: Core, r: Core, ids: set<Id>) {
    r.orphaned || (
      && Grown(k, r) && Good(r) && Reserved(r, ids)
      && (forall batch :: NoneStranded(k, batch) ==> NoneStranded(r, batch)))
  }

  lemma OnlyKilledIsKept(k: Core, r: Core, ids: set<Id>)
    requires Good(k) && Reserved(k, ids) && OnlyKilled(k, r)
    ensures Kept(k, r, ids)
  {
    OnlyKilledKeeps(k, r, {});
    forall batch | NoneStranded(k, batch)
      ensures NoneStranded(r, batch)
    {
      OnlyKilledKeeps(k, r, batch);
    }
  }

  lemma KeptTwice(k: Core, m: Core, r: Core, ids: set<Id>)
    requires Kept(k, m, ids) && !m.orphaned && Kept(m, r, ids)
    ensures Kept(k, r, ids)
  {
  }

  /** A new active actor under an unused id; when it is dead, its kill was recorded. */
  lemma ActiveKept(k: Core, id: Id, actor: Actor)
    requires Good(k) && id != 0 && id !in k.actors && id !in k.free
    requires actor.activated && (!actor.alive ==> id in k.toRemove)
    ensures Kept(k, k.(actors := k.actors[id := actor]), {})
  {
    GatesStand(k, k.(actors := k.actors[id := actor]));
  }

  /** A new activating actor under an unused id. */
  lemma ActivatingKept(k: Core, id: Id, deadline: nat, actor: Actor)
    requires Good(k) && id != 0 && id !in k.actors && id !in k.free
    requires !actor.activated && (!actor.alive ==> id in k.toRemove)
    ensures Kept(k, BeginIn(k, id, deadline).(actors := k.actors[id := actor]), {})
  {
    var r := BeginIn(k, id, deadline).(actors := k.actors[id := actor]);
    ActivatingGood(k, id, deadline, actor);
    ActivatingGrown(k, id, deadline, actor);
    forall batch | NoneStranded(k, batch)
      ensures NoneStranded(r, batch)
    {
    }
  }

  lemma ActivatingGrown(k: Core, id: Id, deadline: nat, actor: Actor)
    requires k.activating.Keys <= k.actors.Keys && id !in k.actors
    ensures Grown(k, BeginIn(k, id, deadline).(actors := k.actors[id := actor]))
  {
  }

  lemma ActivatingGood(k: Core, id: Id, deadline: nat, actor: Actor)
    requires Good(k) && id != 0 && id !in k.activating && id !in k.free && !actor.activated
    ensures Good(BeginIn(k, id, deadline).(actors := k.actors[id := actor]))
  {
    var r := BeginIn(k, id, deadline).(actors := k.actors[id := actor]);
    assert r.actors.Keys == k.actors.Keys + {id} && r.activating.Keys == k.activating.Keys + {id};
    GatesStand(k, r);
    forall x | x in r.actors
      ensures r.actors[x].activated <==> x !in r.activating
    {
    }
  }

  lemma KillsKept(k: Core, ids: seq<Id>)
    requires Good(k)
    ensures Kept(k, KillAll(k, ids), {}) && KillAll(k, ids).actors.Keys == k.actors.Keys && KillAll(k, ids).free == k.free
  {
    KillAllOnlyKills(k, ids);
    OnlyKilledIsKept(k, KillAll(k, ids), {});
  }

  lemma EmplaceKept(k: Core, id: Id, a: Action)
    requires Good(k) && !k.orphaned && a.Spawn? && id !in k.actors && id !in k.free
    ensures var r := Settle(k, id, a);
            Kept(k, r, {}) && (!r.orphaned ==> r.free == k.free && r.actors.Keys <= k.actors.Keys + {id})
  {
    var k' := if a.suicide then k.(toRemove := k.toRemove + {id}) else k;
    OnlyKilledIsKept(k, k', {});
    var r := Settle(k, id, a);
    if a.outcome.ReadyFalse? || (a.outcome.ReadyTrue? && id == 0) {
      KillsKept(k', a.lastWords);
    } else if a.outcome.ReadyTrue? {
      ActiveKept(k', id, Actor(!a.suicide, true, a.lastWords));
    } else if id == 0 {
      assert id !in k'.activating;
      KillAllOnlyKills(BeginIn(k', id, a.deadline).(orphaned := true), a.lastWords);
    } else {
      ActivatingKept(k', id, a.deadline, Actor(!a.suicide, false, a.lastWords));
    }
    if !r.orphaned {
      KeptTwice(k, k', r, {});
    }
  }

  /** Gates of activations that were there before, and of new ones, hold as long as nothing
      has been routed. */
  lemma GatesStand(k: Core, r: Core)
    requires Good(k) && r.routed == k.routed
    requires forall id :: id in r.activating ==>
               (id in k.activating && r.activating[id] == k.activating[id])
               || (r.activating[id].stash == [] && r.activating[id].gated == [] && r.activating[id].since == |r.routed|)
    ensures forall id :: id in r.activating ==> GateOk(r, id)
  {
    forall id | id in r.activating
      ensures GateOk(r, id)
    {
      if id in k.activating && r.activating[id] == k.activating[id] {
        assert GateOk(k, id);
      }
    }
  }

  /** Taking an id out of the pool reserves it. */
  lemma ReserveKept(k: Core, id: Id, ids: set<Id>)
    requires Good(k) && Reserved(k, ids)
    ensures Kept(k, k.(free := k.free - {id}), ids)
    ensures id !in k.actors ==> Reserved(k.(free := k.free - {id}), ids + {id})
  {
    GatesStand(k, k.(free := k.free - {id}));
  }

  /** The actor enters the table after its script ran with its id reserved. */
  lemma SpawnKept(k: Core, n: Core, id: Id, a: Action, ids: set<Id>)
    requires Good(k) && Kept(k, n, ids) && !n.orphaned && a.Spawn? && id !in n.actors && id !in n.free
    requires id != 0 ==> id !in ids
    ensures Kept(k, Settle(n, id, a), ids)
  {
    EmplaceKept(n, id, a);
    var r := Settle(n, id, a);
    if !r.orphaned {
      assert Reserved(r, ids);
      assert Kept(n, r, ids);
      KeptTwice(k, n, r, ids);
    }
  }

  /** A service whose `onInit` created itself: the inner one is in the table. The outer one
      is destroyed, and takes the inner one with it when it failed. */
  lemma RecreatedKept(k: Core, n: Core, id: Id, a: Action, ids: set<Id>)
    requires Good(k) && Kept(k, n, ids) && !n.orphaned && a.Spawn? && id !in k.actors && id in n.actors && id <= n.services
    ensures Kept(k, Settle(n, id, a), ids)
    ensures a.outcome.ReadyFalse? ==> id !in Settle(n, id, a).actors || id in Settle(n, id, a).dying
  {
    var m := if a.suicide then n.(toRemove := n.toRemove + {id}) else n;
    OnlyKilledIsKept(n, m, ids);
    KeptTwice(k, n, m, ids);
    var r := Settle(n, id, a);
    if a.outcome.ReadyFalse? {
      RemovedAgainKept(k, m, id, ids);
      KillAllOnlyKills(RemoveIn(m, id), a.lastWords);
      KillsKeptWith(RemoveIn(m, id), a.lastWords, ids);
      KeptTwice(k, RemoveIn(m, id), r, ids);
    } else if a.outcome.ReadyTrue? || id in n.activating {
      KillsKeptWith(m, a.lastWords, ids);
      KeptTwice(k, m, r, ids);
    } else {
      KillAllOnlyKills(BeginIn(m, id, a.deadline).(orphaned := true), a.lastWords);
    }
  }

  lemma KillsKeptWith(k: Core, words: seq<Id>, ids: set<Id>)
    requires Good(k) && Reserved(k, ids)
    ensures Kept(k, KillAll(k, words), ids)
  {
    KillAllOnlyKills(k, words);
    OnlyKilledIsKept(k, KillAll(k, words), ids);
  }

  /** Removing a service that was not there before. */
  lemma RemovedAgainKept(k: Core, m: Core, id: Id, ids: set<Id>)
    requires Good(k) && Kept(k, m, ids) && !m.orphaned && id !in k.actors && id in m.actors && id <= m.services
    ensures Kept(k, RemoveIn(m, id), ids) && !RemoveIn(m, id).orphaned
    ensures id !in RemoveIn(m, id).actors || id in RemoveIn(m, id).dying
  {
    var r := RemoveIn(m, id);
    RemovedAgainGrown(k, m, id);
    RemoveKeeps(m, id, {});
    assert Reserved(r, ids);
    forall batch | NoneStranded(k, batch)
      ensures NoneStranded(r, batch)
    {
      assert NoneStranded(m, batch);
      assert NoneStranded(m, batch + {id});
      RemoveKeeps(m, id, batch);
    }
  }

  lemma RemovedAgainGrown(k: Core, m: Core, id: Id)
    requires Good(k) && Good(m) && Grown(k, m) && id !in k.actors && id in m.actors && id <= m.services
    ensures id in m.activating ==> m.activating[id].frame.Suspended?
    ensures Grown(k, RemoveIn(m, id)) && RemoveIn(m, id).free == m.free
  {
    var r := RemoveIn(m, id);
    assert id !in k.activating;
    RemoveKeeps(m, id, {});
    if id !in m.activating {
      DestroyShape(m, id);
    }
  }

  /** User code keeps a core good, unless it orphans a frame. */
  lemma {:induction false} PerformKeeps(k: Core, a: Action, ids: set<Id>)
    requires Good(k) && !k.orphaned && Reserved(k, ids) && Sane(a, k.services, ids)
    ensures Kept(k, Perform(k, a), ids)
    decreases a, 1
  {
    match a
    case Kill(id) =>
      OnlyKilledIsKept(k, Perform(k, a), ids);
    case Spawn(service, script, _, _, _, lastWords) =>
      var id := NewId(k, service);
      var m := k.(free := k.free - {id});
      ReserveKept(k, id, ids);
      if id in k.actors {
        KillAllOnlyKills(m, lastWords);
        OnlyKilledIsKept(m, Perform(k, a), ids);
        KeptTwice(k, m, Perform(k, a), ids);
      } else {
        var inner := if service == 0 then ids + {id} else ids;
        SaneInside(script, k.services, ids, inner);
        PerformAllKeeps(m, script, inner);
        var n := PerformAll(m, script);
        if n.orphaned {
          SettleStaysOrphaned(n, id, a);
        } else {
          assert Kept(m, n, ids);
          KeptTwice(k, m, n, ids);
          if id in n.actors {
            RecreatedKept(k, n, id, a, ids);
          } else {
            SpawnKept(k, n, id, a, ids);
          }
        }
      }
  }

  /** Ids above the service range never clash with services. */
  lemma {:induction false} SaneInside(script: seq<Action>, services: nat, outer: set<Id>, inner: set<Id>)
    requires SaneAll(script, services, outer)
    requires forall id :: id in inner && id !in outer ==> id > services || id == 0
    ensures SaneAll(script, services, inner)
    decreases script, 0
  {
    if script != [] {
      SaneOne(script[0], services, outer, inner);
      SaneInside(script[1..], services, outer, inner);
    }
  }

  lemma {:induction false} SaneOne(a: Action, services: nat, outer: set<Id>, inner: set<Id>)
    requires Sane(a, services, outer)
    requires forall id :: id in inner && id !in outer ==> id > services || id == 0
    ensures Sane(a, services, inner)
    decreases a, 1
  {
    if a.Spawn? {
      SaneInside(a.script, services, outer, inner);
    }
  }

  lemma SettleStaysOrphaned(k: Core, id: Id, a: Action)
    requires k.orphaned && a.Spawn?
    ensures Settle(k, id, a).orphaned
  {
    var k' := if a.suicide then k.(toRemove := k.toRemove + {id}) else k;
    KillAllOnlyKills(k', a.lastWords);
    KillAllOnlyKills(BeginIn(k', id, a.deadline).(orphaned := true), a.lastWords);
    RemoveStaysOrphaned(k', id);
    KillAllOnlyKills(RemoveIn(k', id), a.lastWords);
  }

  lemma RemoveStaysOrphaned(k: Core, id: Id)
    ensures RemoveIn(k, id).orphaned == k.orphaned
  {
    if !(id in k.activating && k.activating[id].frame.Suspended?) && id in k.actors {
      var m := if id in k.activating
               then k.(activating := k.activating - {id}, dying := k.dying - {id}, leaked := k.leaked + k.activating[id].stash)
               else k;
      KillAllOnlyKills(m.(actors := m.actors - {id}), m.actors[id].lastWords);
    }
  }

  lemma {:induction false} StaysOrphaned(k: Core, script: seq<Action>)
    requires k.orphaned
    ensures PerformAll(k, script).orphaned
    decreases script, 0
  {
    if script != [] {
      PerformStaysOrphaned(k, script[0]);
      StaysOrphaned(Perform(k, script[0]), script[1..]);
    }
  }

  lemma {:induction false} PerformStaysOrphaned(k: Core, a: Action)
    requires k.orphaned
    ensures Perform(k, a).orphaned
    decreases a, 1
  {
    if a.Spawn? {
      var id := NewId(k, a.service);
      var m := k.(free := k.free - {id});
      KillAllOnlyKills(m, a.lastWords);
      StaysOrphaned(m, a.script);
      SettleStaysOrphaned(PerformAll(m, a.script), id, a);
    }
  }

  lemma {:induction false} PerformAllKeeps(k: Core, script: seq<Action>, ids: set<Id>)
    requires Good(k) && !k.orphaned && Reserved(k, ids) && SaneAll(script, k.services, ids)
    ensures Kept(k, PerformAll(k, script), ids)
    decreases script, 0
  {
    if script != [] {
      PerformKeeps(k, script[0], ids);
      var m := Perform(k, script[0]);
      if m.orphaned {
        StaysOrphaned(m, script[1..]);
      } else {
        PerformAllKeeps(m, script[1..], ids);
        KeptTwice(k, m, PerformAll(k, script), ids);
      }
    }
  }
}
