/** Events, activations and whole batches: the gate, the replay, and the two ways the life
    cycle can go wrong, each with its exact condition. */
module LifecycleTheorems {
  import opened Lifecycle
  import opened LifecycleSafety

  // ---------------------------------------------------------------- routing and the gate

  /** Routing an event the gate lets through shows it to nobody the gate protects. */
  lemma RoutedGood(k: Core, e: Event)
    requires Good(k) && !Gated(k, e)
    ensures Good(k.(routed := k.routed + [e]))
  {
    var r := k.(routed := k.routed + [e]);
    forall id | id in r.activating
      ensures GateOk(r, id)
    {
      assert GateOk(k, id);
    }
  }

  lemma RouteKeeps(k: Core, e: Event, script: seq<Action>)
    requires Good(k) && !k.orphaned && !Gated(k, e) && SaneAll(script, k.services, {})
    ensures var r := RouteIn(k, e, script);
            Kept(k.(routed := k.routed + [e]), r, {})
  {
    RoutedGood(k, e);
    PerformAllKeeps(k.(routed := k.routed + [e]), script, {});
  }

  /** Stashing keeps the first arrivals in order and disposes the rest. */
  lemma StashKeeps(k: Core, id: Id, e: Event)
    requires Good(k) && id in k.activating && e.dest == To(id)
    ensures var r := StashIn(k, id, e);
            && Good(r) && r.activating.Keys == k.activating.Keys
            && r.activating[id].gated == k.activating[id].gated + [e]
            && r.activating[id].frame == k.activating[id].frame
            && (forall x :: x in k.activating && x != id ==> r.activating[x] == k.activating[x])
            && (forall batch :: NoneStranded(k, batch) ==> NoneStranded(r, batch))
            && (if |k.activating[id].gated| < STASH_CAP
                then r.activating[id].stash == k.activating[id].stash + [e] && r.disposed == k.disposed
                else r.activating[id].stash == k.activating[id].stash && r.disposed == k.disposed + [e])
  {
    assert GateOk(k, id);
    StashGates(k, id, e);
  }

  lemma StashGates(k: Core, id: Id, e: Event)
    requires Good(k) && id in k.activating && e.dest == To(id)
    ensures forall x :: x in k.activating ==> GateOk(StashIn(k, id, e), x)
  {
    var r := StashIn(k, id, e);
    forall x | x in k.activating
      ensures GateOk(r, x)
    {
      assert GateOk(k, x);
    }
  }

  // ---------------------------------------------------------------- frames

  /** Exactly the suspended frames with a verdict have ended, each with its own; nothing else
      changed. */
  predicate Resumed(k: Core, r: Core, verdicts: map<Id, bool>) {
    && r == k.(activating := r.activating) && r.activating.Keys == k.activating.Keys
    && forall id :: id in k.activating ==>
         && r.activating[id] == k.activating[id].(frame := r.activating[id].frame)
         && (if k.activating[id].frame.Suspended? && id in verdicts then r.activating[id].frame == Finished(verdicts[id])
             else r.activating[id].frame == k.activating[id].frame)
  }

  lemma ResumeKeeps(k: Core, verdicts: map<Id, bool>)
    requires Good(k)
    ensures Good(ResumeIn(k, verdicts)) && Resumed(k, ResumeIn(k, verdicts), verdicts)
    ensures forall batch :: NoneStranded(k, batch) ==> NoneStranded(ResumeIn(k, verdicts), batch)
  {
    var r := ResumeIn(k, verdicts);
    assert r.activating.Keys == k.activating.Keys;
    forall id | id in r.activating
      ensures GateOk(r, id)
    {
      assert GateOk(k, id);
    }
  }

  lemma ExpireKeeps(k: Core, now: nat)
    requires Good(k)
    ensures var r := ExpireIn(k, now);
            && Good(r) && r.activating.Keys == k.activating.Keys
            && (forall id :: id in k.activating ==> r.activating[id] == k.activating[id].(cancelling := r.activating[id].cancelling))
            && (forall id :: id in k.activating ==> (r.activating[id].cancelling <==> k.activating[id].cancelling || Overdue(k.activating[id], now)))
            && (forall batch :: NoneStranded(k, batch) ==> NoneStranded(r, batch))
  {
    var r := ExpireIn(k, now);
    assert r.activating.Keys == k.activating.Keys;
    forall id | id in r.activating
      ensures GateOk(r, id)
    {
      assert GateOk(k, id);
    }
  }

  /** The frame is still suspended at its deadline. */
  predicate Overdue(a: Activation, now: nat) {
    a.frame.Suspended? && a.deadline != 0 && now >= a.deadline
  }

  /** An activation whose stash overflowed while its frame was suspended is cancelled by the
      next pump, whatever its deadline was. */
  lemma OverflowCancels(k: Core, id: Id, e: Event, now: nat)
    requires Good(k) && id in k.activating && e.dest == To(id) && now >= 1
    requires |k.activating[id].gated| >= STASH_CAP && k.activating[id].frame.Suspended?
    ensures ExpireIn(StashIn(k, id, e), now).activating[id].cancelling
  {
    assert GateOk(k, id);
    StashKeeps(k, id, e);
    ExpireKeeps(StashIn(k, id, e), now);
  }

  predicate SaneScripts(scripts: seq<seq<Action>>, services: nat) {
    forall i :: 0 <= i < |scripts| ==> SaneAll(scripts[i], services, {})
  }

  /** The part of the state a replay or a removal does not touch. */
  ghost predicate Undisturbed(k: Core, r: Core) {
    && r.leaked == k.leaked && r.services == k.services
    && k.actors.Keys <= r.actors.Keys && k.activating.Keys <= r.activating.Keys
    && (forall x :: x in k.actors ==> (x in r.dying <==> x in k.dying))
    && (forall x :: x in k.activating ==> r.activating[x] == k.activating[x])
    && (forall x :: x in r.activating && x !in k.activating ==> Unstarted(r.activating[x]))
    && (forall batch :: NoneStranded(k, batch) ==> NoneStranded(r, batch))
  }

  lemma UndisturbedTwice(k: Core, m: Core, r: Core)
    requires Undisturbed(k, m) && Undisturbed(m, r)
    ensures Undisturbed(k, r)
  {
  }

  /** Routing one event leaves every activation alone. */
  lemma RouteUndisturbs(k: Core, e: Event, script: seq<Action>)
    requires Good(k) && !k.orphaned && !Gated(k, e) && SaneAll(script, k.services, {})
    ensures var r := RouteIn(k, e, script);
            r.orphaned || (
              && Good(r) && Undisturbed(k, r)
              && (forall id :: id in k.actors && id !in k.activating ==> id !in r.activating)
              && r.routed == k.routed + [e] && r.disposed == k.disposed)
  {
    RouteKeeps(k, e, script);
    var r := RouteIn(k, e, script);
    if !r.orphaned {
      forall id | id in k.actors && id !in k.activating
        ensures id !in r.activating
      {
        assert k.actors[id].activated && r.actors[id].activated;
      }
    }
  }

  lemma {:induction false} ReplayKeeps(k: Core, id: Id, stash: seq<Event>, scripts: seq<seq<Action>>)
    requires Good(k) && !k.orphaned && id in k.actors && id !in k.activating && SaneScripts(scripts, k.services)
    requires forall i :: 0 <= i < |stash| ==> stash[i].dest == To(id)
    ensures var r := ReplayIn(k, stash, scripts);
            r.orphaned || (Good(r) && Undisturbed(k, r) && r.routed == k.routed + stash && r.disposed == k.disposed)
    decreases |stash|
  {
    if stash != [] {
      var script := if scripts == [] then [] else scripts[0];
      var more := if scripts == [] then [] else scripts[1..];
      RouteUndisturbs(k, stash[0], script);
      var m := RouteIn(k, stash[0], script);
      if m.orphaned {
        ReplayStaysOrphaned(m, stash[1..], more);
      } else {
        ReplayKeeps(m, id, stash[1..], more);
        var r := ReplayIn(k, stash, scripts);
        if !r.orphaned {
          UndisturbedTwice(k, m, r);
        }
        assert k.routed + [stash[0]] + stash[1..] == k.routed + stash;
      }
    }
  }

  lemma {:induction false} ReplayStaysOrphaned(k: Core, stash: seq<Event>, scripts: seq<seq<Action>>)
    requires k.orphaned
    ensures ReplayIn(k, stash, scripts).orphaned
    decreases |stash|
  {
    if stash != [] {
      var script := if scripts == [] then [] else scripts[0];
      StaysOrphaned(k.(routed := k.routed + [stash[0]]), script);
      ReplayStaysOrphaned(RouteIn(k, stash[0], script), stash[1..], if scripts == [] then [] else scripts[1..]);
    }
  }

  // ---------------------------------------------------------------- the end of an activation

  /** The table without the activation of `id`, which is about to be finished. */
  lemma DropActivation(k: Core, id: Id, batch: set<Id>)
    requires Good(k) && id in k.activating && NoneStranded(k, batch)
    ensures var m := k.(activating := k.activating - {id}, dying := k.dying - {id},
                        actors := k.actors[id := k.actors[id].(activated := true)]);
            Good(m) && NoneStranded(m, batch + {id}) && (id !in k.dying ==> NoneStranded(m, batch))
  {
    var m := k.(activating := k.activating - {id}, dying := k.dying - {id},
                actors := k.actors[id := k.actors[id].(activated := true)]);
    forall x | x in m.activating
      ensures GateOk(m, x)
    {
      assert GateOk(k, x);
    }
  }

  /** A failed, expired or killed activation: its whole stash is disposed, its actor goes. */
  lemma FailureKeeps(k: Core, id: Id, scripts: seq<seq<Action>>, batch: set<Id>)
    requires Good(k) && !k.orphaned && id in k.activating && NoneStranded(k, batch)
    requires id in k.dying || k.activating[id].frame != Finished(true)
    ensures var r := FinishIn(k, id, scripts);
            && Good(r) && !r.orphaned && NoneStranded(r, batch)
            && r.actors.Keys == k.actors.Keys - {id} && r.activating == k.activating - {id}
            && r.dying == k.dying - {id} && r.leaked == k.leaked && r.routed == k.routed && r.services == k.services
            && r.disposed == k.disposed + Prefix(k.activating[id].gated)
  {
    assert GateOk(k, id);
    var n := Condemned(k, id);
    FailureIsDestruction(k, id, scripts);
    DropActivation(k, id, batch);
    GatesStandDisposed(k.(activating := n.activating, dying := n.dying, actors := n.actors), n);
    DestroyKeeps(n, id, batch);
  }

  /** The core just before the actor of a failed activation is destroyed. The actor's own
      flag no longer matters and is set. */
  function Condemned(k: Core, id: Id): Core
    requires Good(k) && id in k.activating
  {
    k.(activating := k.activating - {id}, dying := k.dying - {id},
       actors := k.actors[id := k.actors[id].(activated := true)],
       disposed := k.disposed + k.activating[id].stash)
  }

  lemma FailureIsDestruction(k: Core, id: Id, scripts: seq<seq<Action>>)
    requires Good(k) && id in k.activating && (id in k.dying || k.activating[id].frame != Finished(true))
    ensures FinishIn(k, id, scripts) == Destroy(Condemned(k, id), id)
  {
    var n := Condemned(k, id);
    var m := n.(actors := k.actors);
    assert n.actors - {id} == m.actors - {id};
    assert Destroy(n, id) == Destroy(m, id);
    assert FinishIn(k, id, scripts) == RemoveIn(m, id);
  }

  lemma GatesStandDisposed(k: Core, r: Core)
    requires Good(k) && r == k.(disposed := r.disposed)
    ensures Good(r)
  {
    forall x | x in r.activating
      ensures GateOk(r, x)
    {
      assert GateOk(k, x);
    }
  }

  /** A successful activation: the actor becomes active and the events routed next are
      exactly the first arrivals its gate held back, at most 4096 of them, in order. */
  lemma SuccessReplays(k: Core, id: Id, scripts: seq<seq<Action>>)
    requires Good(k) && !k.orphaned && id in k.activating && id !in k.dying && SaneScripts(scripts, k.services)
    requires k.activating[id].frame == Finished(true)
    ensures var r := FinishIn(k, id, scripts);
            r.orphaned || (
              && Good(r) && id in r.actors && r.actors[id].activated
              && r.routed == k.routed + Prefix(k.activating[id].gated) && r.disposed == k.disposed
              && r.leaked == k.leaked && r.services == k.services
              && (forall x :: x in k.actors ==> (x in r.dying <==> x in k.dying))
              && k.activating.Keys - {id} <= r.activating.Keys
              && (forall x :: x in k.activating && x != id ==> r.activating[x] == k.activating[x])
              && (forall x :: x in r.activating && x !in k.activating ==> Unstarted(r.activating[x]))
              && id !in r.activating
              && (forall batch :: NoneStranded(k, batch) ==> NoneStranded(r, batch)))
  {
    assert GateOk(k, id);
    var m := k.(activating := k.activating - {id}, dying := k.dying - {id},
                actors := k.actors[id := k.actors[id].(activated := true)]);
    forall batch | NoneStranded(k, batch)
      ensures NoneStranded(m, batch)
    {
      DropActivation(k, id, batch);
    }
    assert Good(m) by {
      GoodWithoutActivation(k, id);
    }
    assert k.dying - {id} == k.dying;
    ReplayKeeps(m, id, k.activating[id].stash, scripts);
    ReplayLeavesActive(m, id, k.activating[id].stash, scripts);
  }

  lemma GoodWithoutActivation(k: Core, id: Id)
    requires Good(k) && id in k.activating
    ensures Good(k.(activating := k.activating - {id}, dying := k.dying - {id},
                    actors := k.actors[id := k.actors[id].(activated := true)]))
  {
    var everyone := k.actors.Keys;
    assert NoneStranded(k, everyone);
    DropActivation(k, id, everyone);
  }

  lemma {:induction false} ReplayLeavesActive(k: Core, id: Id, stash: seq<Event>, scripts: seq<seq<Action>>)
    requires Good(k) && !k.orphaned && id in k.actors && k.actors[id].activated && SaneScripts(scripts, k.services)
    requires forall i :: 0 <= i < |stash| ==> stash[i].dest == To(id)
    ensures var r := ReplayIn(k, stash, scripts); r.orphaned || (id in r.actors && r.actors[id].activated)
    decreases |stash|
  {
    if stash != [] {
      var script := if scripts == [] then [] else scripts[0];
      var more := if scripts == [] then [] else scripts[1..];
      RouteKeeps(k, stash[0], script);
      var m := RouteIn(k, stash[0], script);
      if m.orphaned {
        ReplayStaysOrphaned(m, stash[1..], more);
      } else {
        ReplayLeavesActive(m, id, stash[1..], more);
      }
    }
  }

  // ---------------------------------------------------------------- creation

  /** How an actor enters the table, with the destructor it was created with; one whose
      `onInit` failed is destroyed instead. */
  predicate Entered(r: Core, id: Id, a: Action)
    requires a.Spawn?
  {
    && id !in r.free && id !in r.dying && (a.suicide ==> id in r.toRemove)
    && match a.outcome
       case ReadyTrue => id in r.actors && r.actors[id] == Actor(!a.suicide, true, a.lastWords) && id !in r.activating
       case Suspends =>
         id in r.actors && r.actors[id] == Actor(!a.suicide, false, a.lastWords)
         && id in r.activating && r.activating[id] == Activation(Suspended, a.deadline, false, [], [], |r.routed|)
       case ReadyFalse => id !in r.actors && Destroyed(r, a.lastWords)
  }

  /** A destructor that names these actors has run. */
  predicate Destroyed(r: Core, words: seq<Id>) {
    forall i :: 0 <= i < |words| ==> Doomed(r, words[i])
  }

  lemma SettledEnters(n: Core, id: Id, a: Action)
    requires Good(n) && a.Spawn? && id != 0 && id !in n.actors && id !in n.free
    ensures Entered(Settle(n, id, a), id, a)
  {
    var m := if a.suicide then n.(toRemove := n.toRemove + {id}) else n;
    assert id !in m.activating && id !in m.dying;
    KillAllOnlyKills(m, a.lastWords);
  }

  /** The actor under construction: a plain one while an id is left, or a service that is not
      in the table and does not create itself again. */
  predicate Eligible(k: Core, a: Action) {
    && a.Spawn? && Sane(a, k.services, {})
    && if a.service == 0 then k.free != {} else a.service !in k.actors && SaneAll(a.script, k.services, {a.service})
  }

  /** A plain actor gets the least free id and a service its own, which is in use from then
      on, and its `onInit` decides how it enters the table, if at all; what its `onInit` did
      stays. */
  lemma SpawnedActor(k: Core, a: Action)
    requires Good(k) && !k.orphaned && Eligible(k, a)
    ensures Perform(k, a).orphaned || Entered(Perform(k, a), if a.service == 0 then Least(k.free) else a.service, a)
    ensures Perform(k, a).orphaned || Grown(Driven(k, a), Perform(k, a))
  {
    var id := NewId(k, a.service);
    var m := k.(free := k.free - {id});
    ReserveKept(k, id, {});
    SaneInside(a.script, k.services, if a.service == 0 then {} else {id}, {id});
    PerformAllKeeps(m, a.script, {id});
    var n := PerformAll(m, a.script);
    if n.orphaned {
      SettleStaysOrphaned(n, id, a);
    } else {
      SettledEnters(n, id, a);
      EmplaceKept(n, id, a);
    }
  }

  /** An actor that does not enter the table is destroyed, and nothing but its destructor's
      kills remains of it: a service that is there already, whose `onInit` does not run, and
      a plain actor without an id, whose `onInit` did. */
  lemma RejectedActor(k: Core, a: Action)
    requires Good(k) && a.Spawn?
    ensures a.service in k.actors ==>
              OnlyKilled(k, Perform(k, a)) && Destroyed(Perform(k, a), a.lastWords)
    ensures a.service == 0 && k.free == {} && a.outcome.ReadyTrue? ==>
              var n := PerformAll(k, a.script);
              OnlyKilled(n, Perform(k, a)) && Destroyed(Perform(k, a), a.lastWords) && (a.suicide ==> 0 in Perform(k, a).toRemove)
  {
    if a.service in k.actors {
      assert k.free - {a.service} == k.free;
      KillAllOnlyKills(k, a.lastWords);
    } else if a.service == 0 && k.free == {} {
      assert k.free - {0} == k.free;
      var n := PerformAll(k, a.script);
      var m := if a.suicide then n.(toRemove := n.toRemove + {0}) else n;
      KillAllOnlyKills(m, a.lastWords);
    }
  }

  // ---------------------------------------------------------------- the exact conditions

  /** The core in which a new actor is about to settle: its `onInit` has run under the id
      it was given. */
  ghost function Driven(k: Core, a: Action): Core
    requires a.Spawn?
  {
    PerformAll(k.(free := k.free - {NewId(k, a.service)}), a.script)
  }

  lemma DrivenKeeps(k: Core, a: Action, avoid: set<Id>)
    requires Good(k) && !k.orphaned && a.Spawn? && Sane(a, k.services, {}) && NewId(k, a.service) !in k.actors
    requires avoid <= {NewId(k, a.service)} && SaneAll(a.script, k.services, avoid)
    ensures Driven(k, a).orphaned || (Good(Driven(k, a)) && Reserved(Driven(k, a), avoid) && Driven(k, a).services == k.services)
  {
    ReserveKept(k, NewId(k, a.service), {});
    PerformAllKeeps(k.(free := k.free - {NewId(k, a.service)}), a.script, avoid);
  }

  /** A plain actor whose `onInit` suspends, whatever it does before: with the pool exhausted
      its frame outlives the actor, and only then. */
  lemma SuspendedSpawnIsSafeIffIdLeft(k: Core, a: Action)
    requires Good(k) && !k.orphaned && a.Spawn? && Sane(a, k.services, {}) && a.service == 0 && a.outcome.Suspends?
    requires !Driven(k, a).orphaned
    ensures Good(Perform(k, a)) <==> k.free != {}
  {
    if k.free == {} {
      DrivenKeeps(k, a, {});
      var n := Driven(k, a);
      var m := if a.suicide then n.(toRemove := n.toRemove + {0}) else n;
      assert 0 !in m.activating;
      KillAllOnlyKills(BeginIn(m, 0, a.deadline).(orphaned := true), a.lastWords);
      assert 0 in Perform(k, a).activating && 0 !in Perform(k, a).actors;
    } else {
      SaneInside(a.script, k.services, {}, {NewId(k, 0)});
      DrivenKeeps(k, a, {NewId(k, 0)});
      PerformKeeps(k, a, {});
    }
  }

  /** A service whose `onInit` suspends, whatever it does before: its frame is recorded under
      another actor exactly when its `onInit` left an active actor under its own id. */
  lemma SuspendedServiceIsSafeIff(k: Core, a: Action)
    requires Good(k) && !k.orphaned && a.Spawn? && Sane(a, k.services, {}) && a.service != 0 && a.outcome.Suspends?
    requires a.service !in k.actors && !Driven(k, a).orphaned
    ensures Good(Perform(k, a)) <==> a.service !in Driven(k, a).actors || a.service in Driven(k, a).activating
  {
    var id, n := a.service, Driven(k, a);
    DrivenKeeps(k, a, {});
    assert Perform(k, a) == Settle(n, id, a);
    if id in n.actors && id !in n.activating {
      SettleMismatches(n, id, a);
    } else {
      PerformKeeps(k, a, {});
      SettleCovered(n, id, a);
    }
  }

  /** A frame recorded under the id of an active actor. */
  lemma SettleMismatches(n: Core, id: Id, a: Action)
    requires Good(n) && a.Spawn? && a.outcome.Suspends? && id in n.actors && id !in n.activating
    ensures !Good(Settle(n, id, a))
  {
    var m := if a.suicide then n.(toRemove := n.toRemove + {id}) else n;
    var b := BeginIn(m, id, a.deadline).(orphaned := true);
    KillAllOnlyKills(b, a.lastWords);
    assert id in Settle(n, id, a).activating && Settle(n, id, a).actors[id].activated;
  }

  lemma SettleCovered(n: Core, id: Id, a: Action)
    requires Good(n) && !n.orphaned && a.Spawn? && a.outcome.Suspends? && id != 0 && (id !in n.actors || id in n.activating)
    ensures !Settle(n, id, a).orphaned
  {
    var m := if a.suicide then n.(toRemove := n.toRemove + {id}) else n;
    KillAllOnlyKills(BeginIn(m, id, a.deadline).(orphaned := m.orphaned || Orphans(m, id)), a.lastWords);
  }

  /** A service that does not create itself again is safe. */
  lemma ServiceIsSafe(k: Core, a: Action)
    requires Good(k) && !k.orphaned && a.Spawn? && Sane(a, k.services, {}) && a.service != 0
    requires SaneAll(a.script, k.services, {a.service}) && !Driven(k, a).orphaned
    ensures Good(Perform(k, a)) && !Perform(k, a).orphaned
  {
    PerformKeeps(k, a, {});
    if a.service in k.actors {
      KillAllOnlyKills(k.(free := k.free - {a.service}), a.lastWords);
    } else {
      DrivenKeeps(k, a, {a.service});
      SettleNotOrphaned(Driven(k, a), a.service, a);
    }
  }

  lemma SettleNotOrphaned(n: Core, id: Id, a: Action)
    requires !n.orphaned && a.Spawn? && id != 0 && id !in n.actors
    ensures !Settle(n, id, a).orphaned
  {
    var m := if a.suicide then n.(toRemove := n.toRemove + {id}) else n;
    RemoveStaysOrphaned(m, id);
    KillAllOnlyKills(RemoveIn(m, id), a.lastWords);
  }

  /** The input: a service that creates itself in its `onInit` and then suspends, in any
      good core that does not have it. */
  lemma RecreatedServiceIsOrphaned(k: Core, service: Id, deadline: nat, words: seq<Id>, inner: seq<Id>)
    requires Good(k) && !k.orphaned && 0 < service <= k.services && service !in k.actors
    ensures var again := Spawn(service, [], ReadyTrue, 0, false, inner);
            !Good(Perform(k, Spawn(service, [again], Suspends, deadline, false, words)))
  {
    var again := Spawn(service, [], ReadyTrue, 0, false, inner);
    var a := Spawn(service, [again], Suspends, deadline, false, words);
    var m := k.(free := k.free - {service});
    assert service !in m.activating;
    assert m.free - {service} == m.free && PerformAll(m, []) == m;
    assert Driven(k, a) == Perform(m, again) by {
      assert [again][1..] == [];
      assert PerformAll(m, [again]) == Perform(m, again);
    }
    assert Perform(m, again) == m.(actors := m.actors[service := Actor(true, true, inner)]);
    assert SaneAll([again], k.services, {}) by {
      assert SaneAll([again][1..], k.services, {}) && Sane(again, k.services, {});
    }
    SuspendedServiceIsSafeIff(k, a);
  }

  // ---------------------------------------------------------------- enough ids

  /** How many actors an action, or a script, tries to create, at any depth. */
  function Creations(a: Action): nat
    decreases a, 1
  {
    if a.Kill? then 0 else 1 + CreationsIn(a.script)
  }

  function CreationsIn(script: seq<Action>): nat
    decreases script, 0
  {
    if script == [] then 0 else Creations(script[0]) + CreationsIn(script[1..])
  }

  /** A good core without an orphan, and at least this many ids left. */
  predicate Plenty(k: Core, n: int) {
    Good(k) && !k.orphaned && |k.free| >= n
  }

  lemma SubsetSize(a: set<Id>, b: set<Id>)
    requires a <= b
    ensures |a| <= |b| && (|a| == |b| ==> a == b)
  {
    assert b == a + (b - a);
  }

  lemma RemoveFrees(k: Core, id: Id)
    ensures k.free <= RemoveIn(k, id).free
  {
    var m := if id in k.activating
             then k.(activating := k.activating - {id}, dying := k.dying - {id}, leaked := k.leaked + k.activating[id].stash)
             else k;
    if id in m.actors {
      DestroyShape(m, id);
    }
  }

  lemma SettleFrees(n: Core, id: Id, a: Action)
    requires a.Spawn?
    ensures n.free <= Settle(n, id, a).free
  {
    var m := if a.suicide then n.(toRemove := n.toRemove + {id}) else n;
    RemoveFrees(m, id);
    KillAllOnlyKills(RemoveIn(m, id), a.lastWords);
    KillAllOnlyKills(m, a.lastWords);
    var b := BeginIn(m, id, a.deadline).(orphaned := m.orphaned || Orphans(m, id));
    KillAllOnlyKills(b, a.lastWords);
  }

  /** User code that tries to create no more actors than there are ids left, and no service
      from inside its own `onInit`, never orphans a frame. */
  lemma {:induction false} EnoughIds(k: Core, script: seq<Action>, spare: nat)
    requires Plenty(k, CreationsIn(script) + spare) && SaneAll(script, k.services, {}) && TidyAll(script, k.services)
    ensures Plenty(PerformAll(k, script), spare) && PerformAll(k, script).services == k.services
    decreases script, 0
  {
    if script != [] {
      EnoughForOne(k, script[0], CreationsIn(script[1..]) + spare);
      EnoughIds(Perform(k, script[0]), script[1..], spare);
    }
  }

  lemma {:induction false} EnoughForOne(k: Core, a: Action, spare: nat)
    requires Plenty(k, Creations(a) + spare) && Sane(a, k.services, {}) && Tidy(a, k.services)
    ensures Plenty(Perform(k, a), spare) && Perform(k, a).services == k.services
    decreases a, 1
  {
    PerformKeeps(k, a, {});
    if a.Spawn? {
      var id := NewId(k, a.service);
      var m := k.(free := k.free - {id});
      ReserveKept(k, id, {});
      assert k.free <= m.free + {id};
      SubsetSize(k.free, m.free + {id});
      if id in k.actors {
        KillAllOnlyKills(m, a.lastWords);
      } else {
        EnoughIds(m, a.script, spare);
        SaneInside(a.script, k.services, if a.service == 0 then {} else {a.service}, {id});
        PerformAllKeeps(m, a.script, {id});
        SettleNotOrphaned(PerformAll(m, a.script), id, a);
        SettleFrees(PerformAll(m, a.script), id, a);
        SubsetSize(PerformAll(m, a.script).free, Perform(k, a).free);
      }
    }
  }
}
