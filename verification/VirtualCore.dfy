/** The worker's actor loops: dispatch, the activation pump, the reap and the workflow. */
module VirtualCore {
  import opened Lifecycle
  import opened LifecycleSafety
  import opened LifecycleTheorems
  import opened Passes
  import opened PassTheorems
  import IdPool

  /** The first drive of `onInit` for an actor that was appended before the start. */
  datatype FirstInit = FirstInit(id: Id, script: seq<Action>, outcome: Outcome, deadline: nat)

  /** An actor of the table becomes activating. */
  function SuspendIn(k: Core, id: Id, deadline: nat): Core
    requires id in k.actors
  {
    BeginIn(k, id, deadline).(actors := k.actors[id := k.actors[id].(activated := false)])
  }

  /** What driving one appended actor does. */
  ghost function InitIn(k: Core, a: FirstInit): Core {
    var m := PerformAll(k, a.script);
    if a.outcome.Suspends? && a.id in m.actors then SuspendIn(m, a.id, a.deadline) else m
  }

  ghost function InitAll(k: Core, inits: seq<FirstInit>): Core
    decreases |inits|
  {
    if inits == [] then k else InitAll(InitIn(k, inits[0]), inits[1..])
  }

  class Worker {
    var actors: map<Id, Actor>
    var activating: map<Id, Activation>
    var dying: set<Id>
    var toRemove: set<Id>
    var removeBatch: set<Id>
    var free: set<Id>
    const services: nat
    // histories
    var routed: seq<Event>
    var disposed: seq<Event>
    var leaked: seq<Event>
    var orphaned: bool

    ghost function View(): Core
      reads this
    {
      Core(actors, activating, dying, toRemove, free, services, routed, disposed, leaked, orphaned)
    }

    constructor (nbServices: nat)
      requires nbServices < BROADCAST_SID
      ensures services == nbServices && View() == Fresh(nbServices) && Steady(View()) && !orphaned
    {
      actors, activating, dying, toRemove, removeBatch := map[], map[], {}, {}, {};
      services := nbServices;
      free := PlainIds(nbServices + 1);
      routed, disposed, leaked, orphaned := [], [], [], false;
    }

    /** `__init__actors__`: drives every appended actor once; false when one fails. Those
        that suspended are activating, the others are active. */
    method InitActors(inits: seq<FirstInit>) returns (ok: bool)
      requires !orphaned && Steady(View()) && AllActive(View(), inits, 0)
      requires forall i :: 0 <= i < |inits| ==> SaneAll(inits[i].script, services, {})
      modifies this`actors, this`activating, this`dying, this`toRemove, this`free, this`leaked, this`orphaned
      ensures ok <==> forall i :: 0 <= i < |inits| ==> !inits[i].outcome.ReadyFalse?
      ensures ok ==> View() == InitAll(old(View()), inits)
      ensures ok ==> orphaned || (Steady(View()) && StartedUpTo(View(), inits, |inits|))
    {
      var i := 0;
      while i < |inits|
        invariant 0 <= i <= |inits| && forall j :: 0 <= j < i ==> !inits[j].outcome.ReadyFalse?
        invariant InitAll(View(), inits[i..]) == InitAll(old(View()), inits)
        invariant orphaned || (Steady(View()) && AllActive(View(), inits, i) && StartedUpTo(View(), inits, i))
      {
        assert inits[i..][1..] == inits[i + 1..];
        if orphaned {
          StaysOrphaned(View(), inits[i].script);
        } else if !inits[i].outcome.ReadyFalse? {
          InitKeeps(View(), inits, i);
        }
        ok := InitActor(inits[i]);
        if !ok {
          return;
        }
        i := i + 1;
      }
      assert inits[i..] == [];
      ok := true;
    }

    method InitActor(a: FirstInit) returns (ok: bool)
      modifies this`actors, this`activating, this`dying, this`toRemove, this`free, this`leaked, this`orphaned
      ensures ok <==> !a.outcome.ReadyFalse?
      ensures View() == InitIn(old(View()), a)
    {
      ActAll(a.script);
      if a.outcome.ReadyFalse? {
        return false;
      }
      if a.outcome.Suspends? && a.id in actors {
        BeginActivation(a.id, a.deadline);
        actors := actors[a.id := actors[a.id].(activated := false)];
      }
      return true;
    }

    /** `Actor::kill`, from any user code. */
    method Kill(id: Id)
      modifies this`actors, this`toRemove
      ensures View() == KillIn(old(View()), id)
    {
      if id in actors {
        actors := actors[id := actors[id].(alive := false)];
      }
      toRemove := toRemove + {id};
    }

    /** The destructor of an actor. */
    method LastWords(ids: seq<Id>)
      modifies this`actors, this`toRemove
      ensures View() == KillAll(old(View()), ids)
    {
      var i := 0;
      while i < |ids|
        invariant 0 <= i <= |ids|
        invariant KillAll(View(), ids[i..]) == KillAll(old(View()), ids)
      {
        Kill(ids[i]);
        assert ids[i..][1..] == ids[i + 1..];
        i := i + 1;
      }
      assert ids[i..] == [];
    }

    method RemoveActor(id: Id)
      modifies this`actors, this`activating, this`dying, this`toRemove, this`free, this`leaked
      ensures View() == RemoveIn(old(View()), id)
    {
      if id in activating {
        if activating[id].frame.Suspended? {
          dying := dying + {id};
          return;
        }
        leaked := leaked + activating[id].stash;
        activating := activating - {id};
        dying := dying - {id};
      }
      if id in actors {
        var actor := actors[id];
        actors := actors - {id};
        LastWords(actor.lastWords);
        if id > services && id < BROADCAST_SID {
          free := free + {id};
        }
      }
    }

    /** `__generate_id__`: the smallest free id. */
    method GenerateId() returns (id: Id)
      modifies this`free
      ensures id == NewId(old(View()), 0)
      ensures View() == old(View()).(free := old(free) - {id})
    {
      if free == {} {
        return 0;
      }
      LeastExists(free);
      id :| id in free && forall x :: x in free ==> id <= x;
      free := free - {id};
    }

    method BeginActivation(id: Id, deadline: nat)
      modifies this`activating
      ensures View() == BeginIn(old(View()), id, deadline)
    {
      if id !in activating {
        activating := activating[id := Activation(Suspended, deadline, false, [], [], |routed|)];
      }
    }

    /** The second half of `appendActor`, after `onInit` was driven once. */
    method SettleActor(id: Id, a: Action)
      requires a.Spawn?
      modifies this`actors, this`activating, this`dying, this`toRemove, this`free, this`leaked, this`orphaned
      ensures View() == Settle(old(View()), id, a)
    {
      if a.suicide {
        toRemove := toRemove + {id};
      }
      match a.outcome {
        case ReadyFalse =>
          RemoveActor(id);
          LastWords(a.lastWords);
          return;
        case ReadyTrue =>
        case Suspends =>
          orphaned := orphaned || (id !in activating && (id == 0 || id in actors));
          BeginActivation(id, a.deadline);
      }
      if id != 0 && id !in actors {
        actors := actors[id := Actor(!a.suicide, a.outcome.ReadyTrue?, a.lastWords)];
      } else {
        LastWords(a.lastWords);
      }
    }

    /** One action of user code; creating an actor runs its `onInit`, which is user code. */
    method Act(a: Action)
      modifies this`actors, this`activating, this`dying, this`toRemove, this`free, this`leaked, this`orphaned
      ensures View() == Perform(old(View()), a)
      decreases a, 1
    {
      match a {
        case Kill(id) =>
          Kill(id);
        case Spawn(service, script, _, _, _, lastWords) =>
          var id := service;
          if service == 0 {
            id := GenerateId();
          } else {
            free := free - {id};
          }
          if id in actors {
            LastWords(lastWords);
          } else {
            ActAll(script);
            SettleActor(id, a);
          }
      }
    }

    method ActAll(script: seq<Action>)
      modifies this`actors, this`activating, this`dying, this`toRemove, this`free, this`leaked, this`orphaned
      ensures View() == PerformAll(old(View()), script)
      decreases script, 0
    {
      if script != [] {
        Act(script[0]);
        ActAll(script[1..]);
      }
    }

    method Route(e: Event, script: seq<Action>)
      modifies this`actors, this`activating, this`dying, this`toRemove, this`free, this`leaked, this`orphaned, this`routed
      ensures View() == RouteIn(old(View()), e, script)
    {
      routed := routed + [e];
      ActAll(script);
    }

    /** `__stash_event__`: false when the stash is full, and then the activation is made to
        expire. */
    method StashEvent(id: Id, e: Event) returns (kept: bool)
      requires id in activating
      modifies this`activating
      ensures kept <==> |old(activating)[id].stash| < STASH_CAP
      ensures View() == StashIn(old(View()), id, e).(disposed := old(disposed))
    {
      var a := activating[id];
      if |a.stash| >= STASH_CAP {
        activating := activating[id := a.(deadline := 1, gated := a.gated + [e])];
        return false;
      }
      activating := activating[id := a.(stash := a.stash + [e], gated := a.gated + [e])];
      return true;
    }

    /** `__receive_events__` over one batch. */
    method ReceiveEvents(batch: seq<Incoming>)
      modifies this`actors, this`activating, this`dying, this`toRemove, this`free, this`leaked, this`orphaned, this`routed, this`disposed
      ensures View() == ReceiveAll(old(View()), batch)
    {
      var i := 0;
      while i < |batch|
        invariant 0 <= i <= |batch|
        invariant ReceiveAll(View(), batch[i..]) == ReceiveAll(old(View()), batch)
      {
        var x := batch[i];
        assert batch[i..][1..] == batch[i + 1..];
        if x.e.dest.To? && x.e.dest.id in activating && !x.e.kill {
          if x.answers {
            disposed := disposed + [x.e];
          } else {
            var kept := StashEvent(x.e.dest.id, x.e);
            if !kept {
              disposed := disposed + [x.e];
            }
          }
        } else {
          Route(x.e, x.script);
        }
        i := i + 1;
      }
      assert batch[i..] == [];
    }

    /** The success path of the pump: routes a stash in order. */
    method Replay(stash: seq<Event>, scripts: seq<seq<Action>>)
      modifies this`actors, this`activating, this`dying, this`toRemove, this`free, this`leaked, this`orphaned, this`routed
      ensures View() == ReplayIn(old(View()), stash, scripts)
    {
      var i := 0;
      var rest := scripts;
      while i < |stash|
        invariant 0 <= i <= |stash|
        invariant ReplayIn(View(), stash[i..], rest) == ReplayIn(old(View()), stash, scripts)
      {
        assert stash[i..][1..] == stash[i + 1..];
        Route(stash[i], if rest == [] then [] else rest[0]);
        rest := if rest == [] then [] else rest[1..];
        i := i + 1;
      }
      assert stash[i..] == [];
    }

    /** Finishes one activation whose frame has run to its end. */
    method FinishActivation(id: Id, scripts: seq<seq<Action>>)
      requires id in activating
      modifies this`actors, this`activating, this`dying, this`toRemove, this`free, this`leaked, this`orphaned, this`routed, this`disposed
      ensures View() == FinishIn(old(View()), id, scripts)
    {
      var a := activating[id];
      var wasDying := id in dying;
      activating := activating - {id};
      dying := dying - {id};
      if wasDying || a.frame != Finished(true) || id !in actors {
        disposed := disposed + a.stash;
        if id in actors {
          RemoveActor(id);
        }
      } else {
        actors := actors[id := actors[id].(activated := true)];
        Replay(a.stash, scripts);
      }
    }

    /** `__pump_activations__`: expires overdue activations, then finishes every activation
        whose frame is done, in any order. Afterwards every frame left is suspended, and
        everybody was told exactly the first arrivals of its gate. */
    method PumpActivations(now: nat, replays: map<Id, seq<seq<Action>>>) returns (ghost order: seq<Id>)
      requires Sound(View(), {}) && SaneReplays(replays, services)
      modifies this`actors, this`activating, this`dying, this`toRemove, this`free, this`leaked, this`orphaned, this`routed, this`disposed
      ensures Enumerates(order, Done(old(View()))) && View() == PumpIn(old(View()), now, order, replays)
      ensures Steady(View())
      ensures orphaned || (!old(orphaned) && Told(old(View()), View(), Done(old(View()))) && Expired(old(View()), View(), now))
    {
      ghost var k := View();
      Expire(now);
      ExpiryOwesTheSame(k, now);
      var done := set id | id in activating && activating[id].frame.Finished?;
      order := FinishAll(done, replays);
      PumpKeeps(k, now, order, replays);
    }

    /** Cancels the scope of every activation past its deadline. */
    method Expire(now: nat)
      modifies this`activating
      ensures View() == ExpireIn(old(View()), now)
    {
      activating := map id | id in activating ::
        var a := activating[id];
        if a.frame.Suspended? && !a.cancelling && a.deadline != 0 && now >= a.deadline then a.(cancelling := true) else a;
    }

    method FinishAll(done: set<Id>, replays: map<Id, seq<seq<Action>>>) returns (ghost order: seq<Id>)
      modifies this`actors, this`activating, this`dying, this`toRemove, this`free, this`leaked, this`orphaned, this`routed, this`disposed
      ensures Enumerates(order, done) && View() == FinishAllIn(old(View()), order, replays)
    {
      var todo := done;
      order := [];
      while todo != {}
        invariant todo <= done && Enumerates(order, done - todo) && View() == FinishAllIn(old(View()), order, replays)
      {
        var id :| id in todo;
        FinishSnoc(old(View()), order, id, replays);
        EnumeratesMore(order, done - todo, id);
        if id in activating {
          FinishActivation(id, if id in replays then replays[id] else []);
        }
        order := order + [id];
        assert done - todo + {id} == done - (todo - {id});
        todo := todo - {id};
      }
    }

    /** The reap: drains the kill set into a batch until no new kill appears. Destructors
        may kill others; the loop ends whatever they do, and nobody dead is left behind
        unless it is waiting for its frame. */
    method Reap() returns (ghost batches: seq<seq<Id>>)
      requires Steady(View())
      modifies this`actors, this`activating, this`dying, this`toRemove, this`free, this`leaked, this`removeBatch
      ensures Reaps(old(View()), batches) && View() == ReapIn(old(View()), batches)
      ensures orphaned == old(orphaned) && toRemove == {} && removeBatch == {} && actors.Keys <= old(actors).Keys
      ensures Steady(View())
      ensures orphaned || forall id :: id in actors && !actors[id].alive ==> id in dying
      ensures orphaned || forall id :: id in old(toRemove) ==> id !in actors || id in dying
      ensures orphaned || activating == old(activating)
    {
      batches := [];
      while toRemove != {}
        invariant Leads(old(View()), batches, View()) && orphaned == old(orphaned) && actors.Keys <= old(actors).Keys
        decreases |actors.Keys|, |toRemove|
      {
        ghost var k := View();
        ghost var batch := ReapRound();
        LeadsSnoc(old(View()), batches, k, batch);
        batches := batches + [batch];
      }
      removeBatch := {};
      LeadsReaps(old(View()), batches, View());
      if !orphaned {
        ReapKeeps(old(View()), batches);
        ReapExact(old(View()), batches);
      }
    }

    /** One turn of the reap loop; it leaves fewer actors, or as many and no new kills. */
    method ReapRound() returns (ghost batch: seq<Id>)
      requires toRemove != {}
      modifies this`actors, this`activating, this`dying, this`toRemove, this`free, this`leaked, this`removeBatch
      ensures Enumerates(batch, old(toRemove)) && View() == RemoveAllIn(old(View()).(toRemove := {}), batch)
      ensures orphaned == old(orphaned) && actors.Keys <= old(actors).Keys
      ensures |actors.Keys| < |old(actors).Keys| || (|actors.Keys| == |old(actors).Keys| && |toRemove| < |old(toRemove)|)
    {
      ghost var k := View();
      removeBatch := toRemove;
      toRemove := {};
      batch := RemoveBatch();
      SubsetSize(actors.Keys, k.actors.Keys);
      NonEmptySize(k.toRemove);
    }

    /** Removes every actor of the batch, in any order. New kills come only from destructors,
        so there are none unless an actor went away. */
    method RemoveBatch() returns (ghost order: seq<Id>)
      requires toRemove == {}
      modifies this`actors, this`activating, this`dying, this`toRemove, this`free, this`leaked
      ensures Enumerates(order, removeBatch) && View() == RemoveAllIn(old(View()), order)
      ensures orphaned == old(orphaned) && actors.Keys <= old(actors).Keys
      ensures actors.Keys == old(actors).Keys ==> toRemove == {}
    {
      var rest := removeBatch;
      order := [];
      while rest != {}
        invariant rest <= removeBatch && orphaned == old(orphaned) && actors.Keys <= old(actors).Keys
        invariant Enumerates(order, removeBatch - rest) && View() == RemoveAllIn(old(View()), order)
        invariant actors.Keys == old(actors).Keys ==> toRemove == {}
      {
        var id :| id in rest;
        RemovedKeys(View(), id);
        RemoveSnoc(old(View()), order, id);
        EnumeratesMore(order, removeBatch - rest, id);
        RemoveActor(id);
        order := order + [id];
        assert removeBatch - rest + {id} == removeBatch - (rest - {id});
        rest := rest - {id};
      }
    }

    /** The workflow over any finite number of passes, until its last actor is gone. At
        every step boundary the core is steady; when it leaves, nothing is left behind. This
        holds outright when the passes try to create no more actors than there are ids, and
        no service from inside its own `onInit`. */
    method Workflow(passes: seq<Pass>) returns (left: bool, ghost turns: seq<Turn>)
      requires Steady(View()) && forall i :: 0 <= i < |passes| ==> SanePass(passes[i], services)
      modifies this
      ensures |turns| <= |passes| && InOrder(old(View()), passes, turns) && View() == After(old(View()), passes, turns)
      ensures (left <==> LeftAfter(old(View()), passes, turns)) && (!left ==> |turns| == |passes|)
      ensures Steady(View())
      ensures left && !orphaned ==> actors == map[] && activating == map[] && dying == {}
      ensures Affordable(old(View()), passes) ==> Good(View()) && !orphaned && leaked == []
      ensures old(actors) != map[] && !orphaned ==> (left <==> actors == map[]) && PeopledBefore(old(View()), passes, turns)
    {
      var i := 0;
      left, turns := false, [];
      while i < |passes| && !left
        invariant 0 <= i <= |passes| && |turns| == i && Steady(View())
        invariant InOrder(old(View()), passes, turns) && View() == After(old(View()), passes, turns)
        invariant left <==> LeftAfter(old(View()), passes, turns)
        invariant left && !orphaned ==> actors == map[] && activating == map[] && dying == {}
        invariant Affordable(old(View()), passes) ==> Affordable(View(), passes[i..])
      {
        ghost var k := View();
        ghost var turn;
        left, turn := OnePass(passes[i]);
        OneMore(old(View()), passes, turns, k, turn);
        turns := turns + [turn];
        if Affordable(k, passes[i..]) {
          AffordableNext(k, passes[i..], turn);
          assert passes[i..][1..] == passes[i + 1..];
        }
        i := i + 1;
      }
      if old(actors) != map[] && !orphaned {
        PeopledUntilLeft(old(View()), passes, turns);
      }
    }

    method OnePass(p: Pass) returns (left: bool, ghost turn: Turn)
      requires Steady(View()) && SanePass(p, services)
      modifies this
      ensures Follows(old(View()), p, turn) && View() == PassIn(old(View()), p, turn) && (left <==> Left(old(View()), p, turn))
      ensures Steady(View())
      ensures left && !orphaned ==> actors == map[] && activating == map[] && dying == {}
      ensures left ==> actors == map[]
      ensures turn.batches != [] && actors == map[] ==> left
      ensures old(actors) != map[] && !orphaned ==> (left <==> actors == map[])
    {
      ghost var k := View();
      left, turn := PassParts(p);
      PassKeeps(k, p, turn);
      if k.actors != map[] && !orphaned {
        LeavesIffLastActorGone(k, p, turn);
      }
    }

    method PassParts(p: Pass) returns (left: bool, ghost turn: Turn)
      requires Steady(View()) && SanePass(p, services)
      modifies this
      ensures Follows(old(View()), p, turn) && View() == PassIn(old(View()), p, turn) && (left <==> Left(old(View()), p, turn))
    {
      ghost var k := View();
      var early;
      ghost var order;
      early, order := ListenAndPump(p);
      if early {
        return true, Turn(order, []);
      }
      ReceiveEvents(p.inbox);
      if toRemove == {} {
        ActAll(p.callbacks);
      }
      BeforeReapKeeps(k, p, order);
      ghost var batches := [];
      if toRemove != {} {
        batches := Reap();
        left := actors == map[];
      } else {
        left := false;
      }
      turn := Turn(order, batches);
    }

    /** The first half of a pass; `early` when the pump removed the last actor. */
    method ListenAndPump(p: Pass) returns (early: bool, ghost order: seq<Id>)
      requires Steady(View()) && SanePass(p, services)
      modifies this
      ensures Enumerates(order, Done(ListenIn(old(View()), p)))
      ensures View() == Pumped(old(View()), p, order) && (early <==> LeavesEarly(old(View()), p, order))
    {
      ListenKeeps(View(), p);
      Listen(p);
      early, order := false, [];
      if activating != map[] {
        order := PumpActivations(p.now, p.replays);
        early := actors == map[];
      }
    }

    /** Coroutines run, and some suspended `onInit` frames run to their end. */
    method Listen(p: Pass)
      modifies this`actors, this`activating, this`dying, this`toRemove, this`free, this`leaked, this`orphaned
      ensures View() == ListenIn(old(View()), p)
    {
      ActAll(p.coroutines);
      activating := map id | id in activating ::
        if id in p.verdicts && activating[id].frame.Suspended?
        then activating[id].(frame := Finished(p.verdicts[id])) else activating[id];
    }
  }

  // ---------------------------------------------------------------- the start

  /** The ids to start are all different; those from the i-th on are in the table and
      active. */
  predicate AllActive(k: Core, inits: seq<FirstInit>, i: nat) {
    && (forall j :: i <= j < |inits| ==> inits[j].id in k.actors && k.actors[inits[j].id].activated)
    && (forall j, l :: 0 <= j < l < |inits| ==> inits[j].id != inits[l].id)
  }

  /** Driven once: activating when it suspended, active otherwise. */
  predicate Started(k: Core, a: FirstInit) {
    && a.id in k.actors
    && if a.outcome.Suspends? then a.id in k.activating && k.activating[a.id].deadline == a.deadline && !k.actors[a.id].activated
       else k.actors[a.id].activated && a.id !in k.activating
  }

  predicate StartedUpTo(k: Core, inits: seq<FirstInit>, i: nat)
    requires i <= |inits|
  {
    forall j :: 0 <= j < i ==> Started(k, inits[j])
  }

  /** The same but for one actor's activation. */
  predicate Beside(k: Core, r: Core, id: Id) {
    && r == k.(actors := r.actors, activating := r.activating)
    && r.actors - {id} == k.actors - {id} && r.activating - {id} == k.activating - {id}
  }

  /** Driving one actor runs its script and otherwise concerns its own activation only. */
  lemma InitRunsScript(k: Core, a: FirstInit)
    ensures Beside(PerformAll(k, a.script), InitIn(k, a), a.id)
  {
    var m, r := PerformAll(k, a.script), InitIn(k, a);
    assert r.actors - {a.id} == m.actors - {a.id} && r.activating - {a.id} == m.activating - {a.id};
  }

  /** Actors are driven one after the other. */
  lemma {:induction false} InitAllSnoc(k: Core, inits: seq<FirstInit>, a: FirstInit)
    ensures InitAll(k, inits + [a]) == InitIn(InitAll(k, inits), a)
    decreases |inits|
  {
    if inits == [] {
      assert inits + [a] == [a] && [a][1..] == [];
    } else {
      assert (inits + [a])[1..] == inits[1..] + [a];
      InitAllSnoc(InitIn(k, inits[0]), inits[1..], a);
    }
  }

  lemma InitKeeps(k: Core, inits: seq<FirstInit>, i: nat)
    requires Steady(k) && !k.orphaned && i < |inits| && AllActive(k, inits, i) && StartedUpTo(k, inits, i)
    requires SaneAll(inits[i].script, k.services, {}) && !inits[i].outcome.ReadyFalse?
    ensures var r := InitIn(k, inits[i]);
            r.orphaned || (Steady(r) && AllActive(r, inits, i + 1) && StartedUpTo(r, inits, i + 1))
  {
    var m := PerformAll(k, inits[i].script);
    ScriptKeeps(k, inits[i].script);
    PerformAllKeeps(k, inits[i].script, {});
    if !m.orphaned {
      assert AllActive(m, inits, i);
      StartedStays(k, m, inits, i);
      if inits[i].outcome.Suspends? {
        SuspendKeeps(m, inits, i);
      }
    }
  }

  lemma StartedStays(k: Core, m: Core, inits: seq<FirstInit>, i: nat)
    requires i <= |inits| && Good(k) && Good(m) && Grown(k, m) && StartedUpTo(k, inits, i)
    ensures StartedUpTo(m, inits, i)
  {
    forall j | 0 <= j < i
      ensures Started(m, inits[j])
    {
      assert Started(k, inits[j]);
    }
  }

  lemma SuspendKeeps(k: Core, inits: seq<FirstInit>, i: nat)
    requires Steady(k) && !k.orphaned && i < |inits| && AllActive(k, inits, i) && StartedUpTo(k, inits, i) && inits[i].outcome.Suspends?
    ensures var r := SuspendIn(k, inits[i].id, inits[i].deadline);
            !r.orphaned && Steady(r) && AllActive(r, inits, i + 1) && StartedUpTo(r, inits, i + 1)
  {
    var r := SuspendIn(k, inits[i].id, inits[i].deadline);
    SuspendGood(k, inits[i].id, inits[i].deadline);
    forall j | 0 <= j < i + 1
      ensures Started(r, inits[j])
    {
      assert j < i ==> Started(k, inits[j]);
    }
  }

  lemma SuspendGood(k: Core, id: Id, deadline: nat)
    requires Steady(k) && !k.orphaned && id in k.actors && id !in k.activating
    ensures Steady(SuspendIn(k, id, deadline)) && !SuspendIn(k, id, deadline).orphaned
  {
    ActivatingGood(k, id, deadline, k.actors[id].(activated := false));
  }

  /** The set of free ids is what the bitset pool refines: its least id is the new id. */
  lemma PoolGivesNewId(k: Core, id: nat, after: set<nat>)
    requires IdPool.Draws(k.free, id, after)
    ensures id == NewId(k, 0) && after == k.free - {id}
  {
    if k.free != {} {
      var least := Least(k.free);
      assert least <= id && id <= least;
    }
  }

  // ---------------------------------------------------------------- helpers of the loops

  lemma EnumeratesMore(order: seq<Id>, ids: set<Id>, id: Id)
    requires Enumerates(order, ids) && id !in ids
    ensures Enumerates(order + [id], ids + {id})
  {
    var more := order + [id];
    forall x | x in ids + {id}
      ensures x in more
    {
      if x in ids {
        var i :| 0 <= i < |order| && order[i] == x;
        assert more[i] == x;
      } else {
        assert more[|order|] == x;
      }
    }
  }

  lemma {:induction false} FinishSnoc(k: Core, order: seq<Id>, id: Id, replays: map<Id, seq<seq<Action>>>)
    ensures var m := FinishAllIn(k, order, replays);
            FinishAllIn(k, order + [id], replays) == if id in m.activating then FinishIn(m, id, Scripts(replays, id)) else m
    decreases |order|
  {
    if order == [] {
      assert [id][1..] == [] && order + [id] == [id];
    } else {
      var m := if order[0] in k.activating then FinishIn(k, order[0], Scripts(replays, order[0])) else k;
      FinishSnoc(m, order[1..], id, replays);
      assert (order + [id])[1..] == order[1..] + [id];
    }
  }

  lemma {:induction false} RemoveSnoc(k: Core, order: seq<Id>, id: Id)
    ensures RemoveAllIn(k, order + [id]) == RemoveIn(RemoveAllIn(k, order), id)
    decreases |order|
  {
    if order == [] {
      assert [id][1..] == [] && order + [id] == [id];
    } else {
      RemoveSnoc(RemoveIn(k, order[0]), order[1..], id);
      assert (order + [id])[1..] == order[1..] + [id];
    }
  }

  /** These batches of a reap lead from k to r. */
  predicate Leads(k: Core, batches: seq<seq<Id>>, r: Core)
    decreases |batches|
  {
    if batches == [] then r == k
    else
      && k.toRemove != {} && Enumerates(batches[0], k.toRemove)
      && Leads(RemoveAllIn(k.(toRemove := {}), batches[0]), batches[1..], r)
  }

  lemma {:induction false} LeadsSnoc(k: Core, batches: seq<seq<Id>>, r: Core, batch: seq<Id>)
    requires Leads(k, batches, r) && r.toRemove != {} && Enumerates(batch, r.toRemove)
    ensures Leads(k, batches + [batch], RemoveAllIn(r.(toRemove := {}), batch))
    decreases |batches|
  {
    if batches == [] {
      assert [batch][1..] == [] && batches + [batch] == [batch];
    } else {
      LeadsSnoc(RemoveAllIn(k.(toRemove := {}), batches[0]), batches[1..], r, batch);
      assert (batches + [batch])[1..] == batches[1..] + [batch];
    }
  }

  lemma {:induction false} LeadsReaps(k: Core, batches: seq<seq<Id>>, r: Core)
    requires Leads(k, batches, r) && r.toRemove == {}
    ensures Reaps(k, batches) && ReapIn(k, batches) == r
    decreases |batches|
  {
    if batches != [] {
      LeadsReaps(RemoveAllIn(k.(toRemove := {}), batches[0]), batches[1..], r);
    }
  }

  lemma NonEmptySize(s: set<Id>)
    requires s != {}
    ensures |s| > 0
  {
  }

  /** The core after the first passes, played in these orders. */
  ghost function After(k: Core, passes: seq<Pass>, turns: seq<Turn>): Core
    requires |turns| <= |passes|
    decreases |turns|
  {
    if turns == [] then k
    else
      var n := |turns| - 1;
      PassIn(After(k, passes, turns[..n]), passes[n], turns[n])
  }

  ghost predicate LeftAfter(k: Core, passes: seq<Pass>, turns: seq<Turn>)
    requires |turns| <= |passes|
  {
    turns != [] && var n := |turns| - 1; Left(After(k, passes, turns[..n]), passes[n], turns[n])
  }

  /** These are orders the passes can meet, and only the last pass may leave. */
  ghost predicate InOrder(k: Core, passes: seq<Pass>, turns: seq<Turn>)
    requires |turns| <= |passes|
    decreases |turns|
  {
    turns == [] || (
      var n := |turns| - 1;
      && InOrder(k, passes, turns[..n]) && !LeftAfter(k, passes, turns[..n])
      && Follows(After(k, passes, turns[..n]), passes[n], turns[n]))
  }

  /** There were actors before each of these passes. */
  ghost predicate PeopledBefore(k: Core, passes: seq<Pass>, turns: seq<Turn>)
    requires |turns| <= |passes|
  {
    forall n :: 0 <= n < |turns| ==> After(k, passes, turns[..n]).actors != map[]
  }

  /** The first pass that takes the last actor is the one that leaves. */
  lemma {:induction false} PeopledUntilLeft(k: Core, passes: seq<Pass>, turns: seq<Turn>)
    requires Steady(k) && k.actors != map[] && |turns| <= |passes| && InOrder(k, passes, turns)
    requires (forall i :: 0 <= i < |passes| ==> SanePass(passes[i], k.services)) && !After(k, passes, turns).orphaned
    ensures PeopledBefore(k, passes, turns) && (LeftAfter(k, passes, turns) <==> After(k, passes, turns).actors == map[])
    ensures Steady(After(k, passes, turns)) && After(k, passes, turns).services == k.services
    decreases |turns|
  {
    if turns != [] {
      var n := |turns| - 1;
      var m := After(k, passes, turns[..n]);
      if m.orphaned {
        PassStaysOrphaned(m, passes[n], turns[n]);
      }
      PeopledUntilLeft(k, passes, turns[..n]);
      PassKeeps(m, passes[n], turns[n]);
      LeavesIffLastActorGone(m, passes[n], turns[n]);
      PeopledMore(k, passes, turns);
    }
  }

  lemma PeopledMore(k: Core, passes: seq<Pass>, turns: seq<Turn>)
    requires turns != [] && |turns| <= |passes| && PeopledBefore(k, passes, turns[..|turns| - 1])
    requires After(k, passes, turns[..|turns| - 1]).actors != map[]
    ensures PeopledBefore(k, passes, turns)
  {
    forall i | 0 <= i < |turns|
      ensures After(k, passes, turns[..i]).actors != map[]
    {
      assert i < |turns| - 1 ==> turns[..|turns| - 1][..i] == turns[..i];
    }
  }

  lemma OneMore(k: Core, passes: seq<Pass>, turns: seq<Turn>, m: Core, turn: Turn)
    requires |turns| < |passes| && InOrder(k, passes, turns) && !LeftAfter(k, passes, turns) && m == After(k, passes, turns)
    requires Follows(m, passes[|turns|], turn)
    ensures InOrder(k, passes, turns + [turn]) && After(k, passes, turns + [turn]) == PassIn(m, passes[|turns|], turn)
    ensures LeftAfter(k, passes, turns + [turn]) <==> Left(m, passes[|turns|], turn)
  {
    assert (turns + [turn])[..|turns|] == turns;
  }

  /** The core has an id for every actor these passes try to create, and no service creates
      itself again. */
  ghost predicate Affordable(k: Core, passes: seq<Pass>) {
    Plenty(k, DemandAll(passes)) && k.leaked == [] && forall i :: 0 <= i < |passes| ==> TidyPass(passes[i], k.services)
  }

  lemma AffordableNext(k: Core, passes: seq<Pass>, turn: Turn)
    requires passes != [] && Affordable(k, passes) && Steady(k) && SanePass(passes[0], k.services) && Follows(k, passes[0], turn)
    ensures Affordable(PassIn(k, passes[0], turn), passes[1..])
  {
    PassPlenty(k, passes[0], turn, DemandAll(passes[1..]));
    PassKeeps(k, passes[0], turn);
  }
}
