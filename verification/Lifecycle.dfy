/** The life of the actors of one core: creation, asynchronous activation with its event
    gate and stash, kills, deferred destruction and the reuse of ids. Pure functions on the
    core's state; the loops that use them are in `VirtualCore`. */
module Lifecycle {

  /** A service id. 0 stands for `NotFound`. */
  type Id = nat

  const BROADCAST_SID: nat := 65535
  const STASH_CAP: nat := 4096

  datatype Dest = Everyone | To(id: Id)

  /** `kill` says the event is a KillEvent. */
  datatype Event = Event(token: nat, dest: Dest, kill: bool)

  /** A suspended `onInit` frame, or one that ran to its end with a verdict. */
  datatype Frame = Suspended | Finished(ok: bool)

  /** `gated` and `since` are history: every event the gate kept from the actor, and how
      many events had been routed on the core when the activation began. */
  datatype Activation = Activation(
    frame: Frame, deadline: nat, cancelling: bool, stash: seq<Event>,
    gated: seq<Event>, since: nat)

  /** `lastWords` are the actors its destructor kills. */
  datatype Actor = Actor(alive: bool, activated: bool, lastWords: seq<Id>)

  datatype Core = Core(
    actors: map<Id, Actor>,
    activating: map<Id, Activation>,
    dying: set<Id>,          // killed while their onInit frame was suspended
    toRemove: set<Id>,       // kills recorded since the last reap
    free: set<Id>,           // the id pool
    services: nat,           // ids up to this one belong to services and are never pooled
    routed: seq<Event>,      // history: events handed to the router, which disposes them
    disposed: seq<Event>,    // history: events disposed without being routed
    leaked: seq<Event>,      // history: stashed events dropped undisposed
    orphaned: bool)          // history: an onInit frame was kept whose actor was not

  datatype Outcome = ReadyTrue | ReadyFalse | Suspends

  /** What user code can do that matters here: kill an actor, or create one, whose `onInit`
      is user code too. `service` is 0 for a plain actor; `suicide` says it kills itself. */
  datatype Action =
    | Kill(id: Id)
    | Spawn(service: Id, script: seq<Action>, outcome: Outcome, deadline: nat, suicide: bool, lastWords: seq<Id>)

  // ---------------------------------------------------------------- kills

  /** `Actor::kill`. */
  function KillIn(k: Core, id: Id): Core {
    k.(actors := if id in k.actors then k.actors[id := k.actors[id].(alive := false)] else k.actors,
       toRemove := k.toRemove + {id})
  }

  function KillAll(k: Core, ids: seq<Id>): Core
    decreases |ids|
  {
    if ids == [] then k else KillAll(KillIn(k, ids[0]), ids[1..])
  }

  // ---------------------------------------------------------------- removal

  /** Destroys an actor that is in the table: its destructor may kill others; then a plain
      id goes back to the pool. */
  function Destroy(k: Core, id: Id): Core
    requires id in k.actors
  {
    var k' := KillAll(k.(actors := k.actors - {id}), k.actors[id].lastWords);
    if id > k.services && id < BROADCAST_SID then k'.(free := k'.free + {id}) else k'
  }

  /** `removeActor`: deferred while the actor's onInit frame is suspended. */
  function RemoveIn(k: Core, id: Id): Core {
    if id in k.activating && k.activating[id].frame.Suspended? then k.(dying := k.dying + {id})
    else
      var k' := if id in k.activating
                then k.(activating := k.activating - {id}, dying := k.dying - {id}, leaked := k.leaked + k.activating[id].stash)
                else k;
      if id in k'.actors then Destroy(k', id) else k'
  }

  // ---------------------------------------------------------------- creation

  /** The smallest element of a non-empty set. */
  ghost function Least(s: set<Id>): (m: Id)
    requires s != {}
    ensures m in s && forall x :: x in s ==> m <= x
  {
    LeastExists(s);
    var m :| m in s && forall x :: x in s ==> m <= x;
    m
  }

  lemma {:induction false} LeastExists(s: set<Id>)
    requires s != {}
    ensures exists m :: m in s && forall x :: x in s ==> m <= x
  {
    var a :| a in s;
    if s != {a} {
      LeastExists(s - {a});
      var b :| b in s - {a} && forall x :: x in s - {a} ==> b <= x;
      var m := if a <= b then a else b;
      assert m in s && forall x :: x in s ==> m <= x by {
        forall x | x in s
          ensures m <= x
        {
          assert x == a || x in s - {a};
        }
      }
    }
  }

  /** The id an actor is constructed with. */
  ghost function NewId(k: Core, service: Id): Id {
    if service != 0 then service else if k.free == {} then 0 else Least(k.free)
  }

  /** `__begin_activation__`: a frame recorded before under this id stays. */
  function BeginIn(k: Core, id: Id, deadline: nat): Core {
    if id in k.activating then k
    else k.(activating := k.activating[id := Activation(Suspended, deadline, false, [], [], |k.routed|)])
  }

  /** The end of `appendActor`: a valid id that is not in use puts the actor in the table,
      otherwise the actor is destroyed. */
  function Emplace(k: Core, id: Id, a: Actor): Core {
    if id == 0 || id in k.actors then KillAll(k, a.lastWords) else k.(actors := k.actors[id := a])
  }

  /** A frame recorded now would not belong to the actor in the table. */
  predicate Orphans(k: Core, id: Id) {
    id !in k.activating && (id == 0 || id in k.actors)
  }

  /** After `onInit` was driven once. */
  function Settle(k: Core, id: Id, a: Action): Core
    requires a.Spawn?
  {
    var k' := if a.suicide then k.(toRemove := k.toRemove + {id}) else k;
    match a.outcome
    case ReadyTrue => Emplace(k', id, Actor(!a.suicide, true, a.lastWords))
    case ReadyFalse => KillAll(RemoveIn(k', id), a.lastWords)
    case Suspends =>
      var b := BeginIn(k', id, a.deadline).(orphaned := k'.orphaned || Orphans(k', id));
      Emplace(b, id, Actor(!a.suicide, false, a.lastWords))
  }

  /** One action of user code. A rejected duplicate is destroyed before its `onInit`. */
  ghost function Perform(k: Core, a: Action): Core
    decreases a, 1
  {
    match a
    case Kill(id) => KillIn(k, id)
    case Spawn(service, script, _, _, _, lastWords) =>
      var id := NewId(k, service);
      var k' := k.(free := k.free - {id});
      if id in k.actors then KillAll(k', lastWords) else Settle(PerformAll(k', script), id, a)
  }

  ghost function PerformAll(k: Core, script: seq<Action>): Core
    decreases script, 0
  {
    if script == [] then k else PerformAll(Perform(k, script[0]), script[1..])
  }

  // ---------------------------------------------------------------- events

  /** Routing hands the event to its handlers, which run `script`, and disposes it. */
  ghost function RouteIn(k: Core, e: Event, script: seq<Action>): Core {
    PerformAll(k.(routed := k.routed + [e]), script)
  }

  /** `__stash_event__`, with the disposal of an event that does not fit. */
  function StashIn(k: Core, id: Id, e: Event): Core
    requires id in k.activating
  {
    var a := k.activating[id];
    if |a.stash| >= STASH_CAP then
      k.(activating := k.activating[id := a.(deadline := 1, gated := a.gated + [e])], disposed := k.disposed + [e])
    else
      k.(activating := k.activating[id := a.(stash := a.stash + [e], gated := a.gated + [e])])
  }

  predicate Gated(k: Core, e: Event) {
    e.dest.To? && e.dest.id in k.activating && !e.kill
  }

  /** One event of a batch: gated while its actor is activating, routed otherwise. An event
      that `answers` a pending ask of the actor is consumed by it. */
  ghost function ReceiveIn(k: Core, e: Event, answers: bool, script: seq<Action>): Core {
    if !Gated(k, e) then RouteIn(k, e, script)
    else if answers then k.(disposed := k.disposed + [e])
    else StashIn(k, e.dest.id, e)
  }

  // ---------------------------------------------------------------- activation

  /** Frames only advance inside the listener: those in `verdicts` run to their end. */
  function ResumeIn(k: Core, verdicts: map<Id, bool>): Core {
    k.(activating := map id | id in k.activating ::
         if id in verdicts && k.activating[id].frame.Suspended?
         then k.activating[id].(frame := Finished(verdicts[id])) else k.activating[id])
  }

  /** First half of the pump: an expired activation has its scope cancelled. */
  function ExpireIn(k: Core, now: nat): Core {
    k.(activating := map id | id in k.activating ::
         var a := k.activating[id];
         if a.frame.Suspended? && !a.cancelling && a.deadline != 0 && now >= a.deadline then a.(cancelling := true) else a)
  }

  ghost function ReplayIn(k: Core, stash: seq<Event>, scripts: seq<seq<Action>>): Core
    decreases |stash|
  {
    if stash == [] then k
    else
      var script := if scripts == [] then [] else scripts[0];
      ReplayIn(RouteIn(k, stash[0], script), stash[1..], if scripts == [] then [] else scripts[1..])
  }

  /** Second half of the pump, for one finished frame. */
  ghost function FinishIn(k: Core, id: Id, scripts: seq<seq<Action>>): Core
    requires id in k.activating
  {
    var a := k.activating[id];
    var k' := k.(activating := k.activating - {id}, dying := k.dying - {id});
    if id in k.dying || a.frame != Finished(true) || id !in k.actors then
      var d := k'.(disposed := k'.disposed + a.stash);
      if id in k.actors then RemoveIn(d, id) else d
    else
      ReplayIn(k'.(actors := k'.actors[id := k'.actors[id].(activated := true)]), a.stash, scripts)
  }

  // ---------------------------------------------------------------- what every operation keeps

  function Prefix(gated: seq<Event>): seq<Event> {
    if |gated| <= STASH_CAP then gated else gated[..STASH_CAP]
  }

  /** The gate of an activating actor: its stash is the first gated arrivals in order, and
      nothing but KillEvents has been routed to it. */
  predicate GateOk(k: Core, id: Id)
    requires id in k.activating
  {
    var a := k.activating[id];
    && a.stash == Prefix(a.gated)
    && (forall i :: 0 <= i < |a.gated| ==> a.gated[i].dest == To(id))
    && a.since <= |k.routed|
    && forall i :: a.since <= i < |k.routed| && k.routed[i].dest == To(id) ==> k.routed[i].kill
  }

  /** An actor outlives its suspended frame, is activated exactly when it has none, and no
      live id is in the pool. */
  predicate Good(k: Core) {
    && k.dying <= k.activating.Keys <= k.actors.Keys
    && (forall id :: id in k.actors ==> (k.actors[id].activated <==> id !in k.activating))
    && (forall id :: id in k.activating ==> GateOk(k, id))
    && 0 !in k.actors
    && k.free !! k.actors.Keys
    && (forall id :: id in k.free ==> k.services < id < BROADCAST_SID)
  }

  /** Every dead actor still in the table is due for removal. */
  predicate NoneStranded(k: Core, batch: set<Id>) {
    forall id :: id in k.actors && !k.actors[id].alive ==> id in k.toRemove || id in batch || id in k.dying
  }

  /** No frame has finished since the last pump. */
  predicate FramesSuspended(k: Core) {
    forall id :: id in k.activating ==> k.activating[id].frame.Suspended?
  }

  /** The ids of actors under construction: neither in the table nor in the pool. */
  predicate Reserved(k: Core, ids: set<Id>) {
    ids !! k.actors.Keys && ids !! k.free
  }

  /** Services have service ids, and none of those in `avoid` is created at any depth. */
  predicate Sane(a: Action, services: nat, avoid: set<Id>)
    decreases a, 1
  {
    match a
    case Kill(_) => true
    case Spawn(service, script, _, _, _, _) =>
      service <= services && (service == 0 || service !in avoid) && SaneAll(script, services, avoid)
  }

  predicate SaneAll(script: seq<Action>, services: nat, avoid: set<Id>)
    decreases script, 0
  {
    script == [] || (Sane(script[0], services, avoid) && SaneAll(script[1..], services, avoid))
  }

  /** No service is created again from inside its own `onInit`. */
  predicate Tidy(a: Action, services: nat)
    decreases a, 1
  {
    a.Spawn? ==> (a.service != 0 ==> SaneAll(a.script, services, {a.service})) && TidyAll(a.script, services)
  }

  predicate TidyAll(script: seq<Action>, services: nat)
    decreases script, 0
  {
    script == [] || (Tidy(script[0], services) && TidyAll(script[1..], services))
  }
}
