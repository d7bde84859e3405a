/** Whole passes of a core's workflow as functions of its state. Where the source walks a
    hash table or a hash set, the order in which it meets the entries is a parameter. */
module Passes {
  import opened Lifecycle
  import opened LifecycleSafety
  import opened LifecycleTheorems

  /** An event of a batch, whether a pending ask of its destination takes it, and what the
      handlers it is routed to do. */
  datatype Incoming = Incoming(e: Event, answers: bool, script: seq<Action>)

  /** What the outside world and user code contribute to one pass of the workflow: the
      frames that run to their end and the coroutines that run in the listener, the clock,
      the handlers of replayed events, the received events, and the loop callbacks. */
  datatype Pass = Pass(
    verdicts: map<Id, bool>, coroutines: seq<Action>, now: nat,
    replays: map<Id, seq<seq<Action>>>, inbox: seq<Incoming>, callbacks: seq<Action>)

  /** The orders of one pass: of the activations the pump finishes, and of the actors in
      each batch of the reap. */
  datatype Turn = Turn(order: seq<Id>, batches: seq<seq<Id>>)

  predicate Enumerates(order: seq<Id>, ids: set<Id>) {
    && (forall i :: 0 <= i < |order| ==> order[i] in ids) && (forall id :: id in ids ==> id in order)
    && (forall i, j :: 0 <= i < j < |order| ==> order[i] != order[j])
  }

  // ---------------------------------------------------------------- the parts of a pass

  ghost function ReceiveAll(k: Core, batch: seq<Incoming>): Core
    decreases |batch|
  {
    if batch == [] then k else ReceiveAll(ReceiveIn(k, batch[0].e, batch[0].answers, batch[0].script), batch[1..])
  }

  /** Coroutines run, and some suspended `onInit` frames run to their end. */
  ghost function ListenIn(k: Core, p: Pass): Core {
    ResumeIn(PerformAll(k, p.coroutines), p.verdicts)
  }

  /** The activations whose frame has run to its end. */
  function Done(k: Core): set<Id> {
    set id | id in k.activating && k.activating[id].frame.Finished?
  }

  function Scripts(replays: map<Id, seq<seq<Action>>>, id: Id): seq<seq<Action>> {
    if id in replays then replays[id] else []
  }

  ghost function FinishAllIn(k: Core, order: seq<Id>, replays: map<Id, seq<seq<Action>>>): Core
    decreases |order|
  {
    if order == [] then k
    else
      var m := if order[0] in k.activating then FinishIn(k, order[0], Scripts(replays, order[0])) else k;
      FinishAllIn(m, order[1..], replays)
  }

  /** `__pump_activations__`. */
  ghost function PumpIn(k: Core, now: nat, order: seq<Id>, replays: map<Id, seq<seq<Action>>>): Core {
    FinishAllIn(ExpireIn(k, now), order, replays)
  }

  function RemoveAllIn(k: Core, order: seq<Id>): Core
    decreases |order|
  {
    if order == [] then k else RemoveAllIn(RemoveIn(k, order[0]), order[1..])
  }

  /** The reap, batch after batch. */
  function ReapIn(k: Core, batches: seq<seq<Id>>): Core
    decreases |batches|
  {
    if batches == [] then k else ReapIn(RemoveAllIn(k.(toRemove := {}), batches[0]), batches[1..])
  }

  /** These are the batches of a reap: each is the kills recorded until then, and after the
      last there are none. */
  predicate Reaps(k: Core, batches: seq<seq<Id>>)
    decreases |batches|
  {
    if batches == [] then k.toRemove == {}
    else
      && k.toRemove != {} && Enumerates(batches[0], k.toRemove)
      && Reaps(RemoveAllIn(k.(toRemove := {}), batches[0]), batches[1..])
  }

  // ---------------------------------------------------------------- a pass

  ghost function Pumped(k: Core, p: Pass, order: seq<Id>): Core {
    var l := ListenIn(k, p);
    if l.activating == map[] then l else PumpIn(l, p.now, order, p.replays)
  }

  /** The last actor was one the pump removed. */
  ghost predicate LeavesEarly(k: Core, p: Pass, order: seq<Id>) {
    ListenIn(k, p).activating != map[] && Pumped(k, p, order).actors == map[]
  }

  ghost function BeforeReap(k: Core, p: Pass, order: seq<Id>): Core {
    var r := ReceiveAll(Pumped(k, p, order), p.inbox);
    if r.toRemove == {} then PerformAll(r, p.callbacks) else r
  }

  ghost function PassIn(k: Core, p: Pass, t: Turn): Core {
    if LeavesEarly(k, p, t.order) then Pumped(k, p, t.order) else ReapIn(BeforeReap(k, p, t.order), t.batches)
  }

  /** The pass ends the workflow. */
  ghost predicate Left(k: Core, p: Pass, t: Turn) {
    LeavesEarly(k, p, t.order) || (BeforeReap(k, p, t.order).toRemove != {} && PassIn(k, p, t).actors == map[])
  }

  /** These are orders the pass can meet. */
  ghost predicate Follows(k: Core, p: Pass, t: Turn) {
    && Enumerates(t.order, Done(ListenIn(k, p)))
    && (LeavesEarly(k, p, t.order) || Reaps(BeforeReap(k, p, t.order), t.batches))
  }

  // ---------------------------------------------------------------- well-formed input

  predicate SaneInbox(batch: seq<Incoming>, services: nat) {
    forall i :: 0 <= i < |batch| ==> SaneAll(batch[i].script, services, {})
  }

  predicate SaneReplays(replays: map<Id, seq<seq<Action>>>, services: nat) {
    forall id :: id in replays ==> SaneScripts(replays[id], services)
  }

  predicate SanePass(p: Pass, services: nat) {
    && SaneAll(p.coroutines, services, {}) && SaneAll(p.callbacks, services, {})
    && SaneInbox(p.inbox, services) && SaneReplays(p.replays, services)
  }

  /** What holds at every step boundary of a core that orphaned no frame: the life cycle is
      in order, no killed actor is stranded and no stashed event has leaked. */
  predicate Sound(k: Core, batch: set<Id>) {
    k.orphaned || (Good(k) && NoneStranded(k, batch) && k.leaked == [])
  }

  /** Sound, and no frame has finished since the last pump. */
  predicate Steady(k: Core) {
    Sound(k, {}) && (k.orphaned || FramesSuspended(k))
  }

  // ---------------------------------------------------------------- listening and receiving

  /** User code run from a step boundary. */
  lemma ScriptKeeps(k: Core, script: seq<Action>)
    requires Sound(k, {}) && SaneAll(script, k.services, {})
    ensures var r := PerformAll(k, script);
            Sound(r, {}) && (r.orphaned || (!k.orphaned && r.services == k.services && (FramesSuspended(k) ==> FramesSuspended(r))))
  {
    if k.orphaned {
      StaysOrphaned(k, script);
    } else {
      PerformAllKeeps(k, script, {});
    }
  }

  lemma ListenKeeps(k: Core, p: Pass)
    requires Sound(k, {}) && SanePass(p, k.services)
    ensures var l := ListenIn(k, p);
            && Sound(l, {}) && (l.orphaned || (!k.orphaned && l.services == k.services && (l.activating == map[] ==> FramesSuspended(l))))
            && (l.orphaned || Resumed(PerformAll(k, p.coroutines), l, p.verdicts))
  {
    ScriptKeeps(k, p.coroutines);
    if !PerformAll(k, p.coroutines).orphaned {
      ResumeKeeps(PerformAll(k, p.coroutines), p.verdicts);
    }
  }

  lemma {:induction false} ReceiveAllStaysOrphaned(k: Core, batch: seq<Incoming>)
    requires k.orphaned
    ensures ReceiveAll(k, batch).orphaned
    decreases |batch|
  {
    if batch != [] {
      var x := batch[0];
      StaysOrphaned(k.(routed := k.routed + [x.e]), x.script);
      ReceiveAllStaysOrphaned(ReceiveIn(k, x.e, x.answers, x.script), batch[1..]);
    }
  }

  /** A received event is routed to its handlers, which run, or consumed by a pending ask, or
      kept by the gate, which disposes it when the stash is full. KillEvents and broadcasts
      are always routed, and so is mail to an actor that is not activating. */
  ghost predicate Accounted(k: Core, r: Core, x: Incoming) {
    if x.e.kill || x.e.dest.Everyone? || x.e.dest.id !in k.activating then
      && r.routed == k.routed + [x.e] && r.disposed == k.disposed
      && r == PerformAll(k.(routed := k.routed + [x.e]), x.script)
    else
      var id := x.e.dest.id;
      && r.routed == k.routed && id in r.activating
      && if x.answers then r.disposed == k.disposed + [x.e] && r.activating == k.activating
         else
           && r.activating[id].gated == k.activating[id].gated + [x.e]
           && r.disposed == if |k.activating[id].gated| < STASH_CAP then k.disposed else k.disposed + [x.e]
  }

  lemma ReceiveKeeps(k: Core, x: Incoming)
    requires Good(k) && !k.orphaned && FramesSuspended(k) && SaneAll(x.script, k.services, {})
    ensures var r := ReceiveIn(k, x.e, x.answers, x.script);
            r.orphaned || (
              && Good(r) && FramesSuspended(r) && r.leaked == k.leaked && r.services == k.services
              && Accounted(k, r, x)
              && (forall batch :: NoneStranded(k, batch) ==> NoneStranded(r, batch)))
  {
    if !Gated(k, x.e) {
      RouteKeeps(k, x.e, x.script);
    } else if x.answers {
      GatesStandDisposed(k, ReceiveIn(k, x.e, x.answers, x.script));
    } else {
      GateKeeps(k, x);
    }
  }

  /** The gate keeps an event. */
  lemma GateKeeps(k: Core, x: Incoming)
    requires Good(k) && FramesSuspended(k) && Gated(k, x.e) && !x.answers
    ensures var r := ReceiveIn(k, x.e, x.answers, x.script);
            && Good(r) && FramesSuspended(r) && r == k.(activating := r.activating, disposed := r.disposed)
            && Accounted(k, r, x)
            && (forall batch :: NoneStranded(k, batch) ==> NoneStranded(r, batch))
  {
    StashKeeps(k, x.e.dest.id, x.e);
  }

  lemma {:induction false} ReceiveAllKeeps(k: Core, batch: seq<Incoming>)
    requires Steady(k) && SaneInbox(batch, k.services)
    ensures Steady(ReceiveAll(k, batch))
    ensures ReceiveAll(k, batch).orphaned || ReceiveAll(k, batch).services == k.services
    decreases |batch|
  {
    if k.orphaned {
      ReceiveAllStaysOrphaned(k, batch);
    } else if batch != [] {
      var x := batch[0];
      ReceiveKeeps(k, x);
      var m := ReceiveIn(k, x.e, x.answers, x.script);
      if m.orphaned {
        ReceiveAllStaysOrphaned(m, batch[1..]);
      } else {
        ReceiveAllKeeps(m, batch[1..]);
      }
    }
  }

  // ---------------------------------------------------------------- who is told what

  /** The events of a log that are addressed to one actor, in order. */
  function For(log: seq<Event>, id: Id): seq<Event>
    decreases |log|
  {
    if log == [] then [] else (if log[0].dest == To(id) then [log[0]] else []) + For(log[1..], id)
  }

  lemma {:induction false} ForConcat(a: seq<Event>, b: seq<Event>, id: Id)
    ensures For(a + b, id) == For(a, id) + For(b, id)
    decreases |a|
  {
    if a == [] {
      assert a + b == b;
    } else {
      ForConcat(a[1..], b, id);
      assert (a + b)[1..] == a[1..] + b;
    }
  }

  lemma {:induction false} ForOne(log: seq<Event>, dest: Id, id: Id)
    requires forall i :: 0 <= i < |log| ==> log[i].dest == To(dest)
    ensures For(log, id) == if id == dest then log else []
    decreases |log|
  {
    if log != [] {
      ForOne(log[1..], dest, id);
      assert [log[0]] + log[1..] == log;
    }
  }

  /** The activation came to a good end: its actor was not killed and `onInit` said so. */
  predicate Succeeded(k: Core, id: Id)
    requires id in k.activating
  {
    id !in k.dying && k.activating[id].frame == Finished(true)
  }

  /** What finishing these activations of k replays to an actor, and what it disposes. */
  function Replayed(k: Core, ids: set<Id>, id: Id): seq<Event> {
    if id in ids && id in k.activating && Succeeded(k, id) then Prefix(k.activating[id].gated) else []
  }

  function Discarded(k: Core, ids: set<Id>, id: Id): seq<Event> {
    if id in ids && id in k.activating && !Succeeded(k, id) then Prefix(k.activating[id].gated) else []
  }

  /** Since k, everybody was told exactly what finishing these activations owes. */
  ghost predicate Told(k: Core, r: Core, ids: set<Id>) {
    && k.routed <= r.routed && k.disposed <= r.disposed
    && (forall id :: For(r.routed[|k.routed|..], id) == Replayed(k, ids, id))
    && (forall id :: For(r.disposed[|k.disposed|..], id) == Discarded(k, ids, id))
  }

  lemma ToldNothing(k: Core)
    ensures Told(k, k, {})
  {
    assert k.routed[|k.routed|..] == [] && k.disposed[|k.disposed|..] == [];
  }

  /** One more activation of k1 is finished, in state k, which leads to r. */
  lemma ToldOne(k1: Core, k: Core, r: Core, ids: set<Id>, one: Id)
    requires Told(k1, k, ids) && one !in ids && one in k1.activating && GateOk(k1, one)
    requires r.routed == k.routed + Replayed(k1, {one}, one) && r.disposed == k.disposed + Discarded(k1, {one}, one)
    ensures Told(k1, r, ids + {one})
  {
    var more := Replayed(k1, {one}, one);
    var gone := Discarded(k1, {one}, one);
    forall id
      ensures For(r.routed[|k1.routed|..], id) == Replayed(k1, ids + {one}, id)
    {
      ForAppended(k.routed, |k1.routed|, more, one, id);
    }
    forall id
      ensures For(r.disposed[|k1.disposed|..], id) == Discarded(k1, ids + {one}, id)
    {
      ForAppended(k.disposed, |k1.disposed|, gone, one, id);
    }
  }

  lemma ForAppended(log: seq<Event>, from: nat, part: seq<Event>, dest: Id, id: Id)
    requires from <= |log| && forall i :: 0 <= i < |part| ==> part[i].dest == To(dest)
    ensures For((log + part)[from..], id) == For(log[from..], id) + if id == dest then part else []
  {
    assert (log + part)[from..] == log[from..] + part;
    ForConcat(log[from..], part, id);
    ForOne(part, dest, id);
  }

  // ---------------------------------------------------------------- the pump

  /** The activations still to be finished are as they were when the pump began, and no
      other frame is done. */
  predicate Pending(k1: Core, k: Core, todo: set<Id>) {
    && k.services == k1.services && todo <= Done(k1) && todo <= k.activating.Keys
    && (forall id :: id in todo ==> k.activating[id] == k1.activating[id] && (id in k.dying <==> id in k1.dying))
    && Done(k) <= todo && StillSuspended(k1, k)
  }

  /** The frames that are suspended in k1 are as they were. */
  predicate StillSuspended(k1: Core, k: Core) {
    forall id :: id in k1.activating && k1.activating[id].frame.Suspended? ==> id in k.activating && k.activating[id] == k1.activating[id]
  }

  ghost predicate PumpInv(k1: Core, k: Core, all: set<Id>, todo: set<Id>) {
    Sound(k, {}) && !k.orphaned && Pending(k1, k, todo) && Told(k1, k, all - todo)
  }

  lemma FinishStaysOrphaned(k: Core, id: Id, scripts: seq<seq<Action>>)
    requires k.orphaned && id in k.activating
    ensures FinishIn(k, id, scripts).orphaned
  {
    var a := k.activating[id];
    var m := k.(activating := k.activating - {id}, dying := k.dying - {id});
    if id in k.dying || a.frame != Finished(true) || id !in k.actors {
      RemoveStaysOrphaned(m.(disposed := m.disposed + a.stash), id);
    } else {
      ReplayStaysOrphaned(m.(actors := m.actors[id := m.actors[id].(activated := true)]), a.stash, scripts);
    }
  }

  lemma {:induction false} FinishAllStaysOrphaned(k: Core, order: seq<Id>, replays: map<Id, seq<seq<Action>>>)
    requires k.orphaned
    ensures FinishAllIn(k, order, replays).orphaned
    decreases |order|
  {
    if order != [] {
      if order[0] in k.activating {
        FinishStaysOrphaned(k, order[0], Scripts(replays, order[0]));
        FinishAllStaysOrphaned(FinishIn(k, order[0], Scripts(replays, order[0])), order[1..], replays);
      } else {
        FinishAllStaysOrphaned(k, order[1..], replays);
      }
    }
  }

  lemma FinishFails(k1: Core, k: Core, todo: set<Id>, id: Id, scripts: seq<seq<Action>>)
    requires Sound(k, {}) && !k.orphaned && Pending(k1, k, todo) && id in todo && !Succeeded(k, id)
    ensures var r := FinishIn(k, id, scripts);
            && !r.orphaned && Sound(r, {}) && Pending(k1, r, todo - {id})
            && r.routed == k.routed && r.disposed == k.disposed + Prefix(k.activating[id].gated)
  {
    var r := FinishIn(k, id, scripts);
    FailureKeeps(k, id, scripts, {});
    StillPending(k1, k, r, todo, id);
  }

  lemma FinishSucceeds(k1: Core, k: Core, todo: set<Id>, id: Id, scripts: seq<seq<Action>>)
    requires Sound(k, {}) && !k.orphaned && Pending(k1, k, todo) && id in todo && Succeeded(k, id) && SaneScripts(scripts, k.services)
    ensures var r := FinishIn(k, id, scripts);
            r.orphaned || (
              && Sound(r, {}) && Pending(k1, r, todo - {id})
              && r.routed == k.routed + Prefix(k.activating[id].gated) && r.disposed == k.disposed)
  {
    var r := FinishIn(k, id, scripts);
    SuccessReplays(k, id, scripts);
    if !r.orphaned {
      StillPending(k1, k, r, todo, id);
    }
  }

  lemma StillPending(k1: Core, k: Core, r: Core, todo: set<Id>, id: Id)
    requires Good(k) && Pending(k1, k, todo) && id in todo && r.services == k.services
    requires forall x :: x in todo && x != id ==> (x in r.dying <==> x in k.dying)
    requires k.activating.Keys - {id} <= r.activating.Keys && id !in r.activating
    requires forall x :: x in k.activating && x != id ==> r.activating[x] == k.activating[x]
    requires forall x :: x in r.activating && x !in k.activating ==> Unstarted(r.activating[x])
    ensures Pending(k1, r, todo - {id})
  {
    assert Done(r) <= todo - {id} by {
      forall x | x in Done(r)
        ensures x in todo - {id}
      {
        assert x in k.activating && x in Done(k);
      }
    }
  }

  /** Finishing one activation tells its actor what it is owed and leaves the others as they
      are. */
  lemma FinishOne(k1: Core, k: Core, all: set<Id>, todo: set<Id>, id: Id, scripts: seq<seq<Action>>)
    requires Good(k1) && PumpInv(k1, k, all, todo) && id in todo && todo <= all && SaneScripts(scripts, k.services)
    ensures var r := FinishIn(k, id, scripts);
            r.orphaned || PumpInv(k1, r, all, todo - {id})
  {
    var r := FinishIn(k, id, scripts);
    assert GateOk(k1, id);
    if Succeeded(k, id) {
      FinishSucceeds(k1, k, todo, id, scripts);
    } else {
      FinishFails(k1, k, todo, id, scripts);
    }
    if !r.orphaned {
      ToldOne(k1, k, r, all - todo, id);
      assert all - todo + {id} == all - (todo - {id});
    }
  }

  lemma {:induction false} FinishAllKeeps(k1: Core, k: Core, all: set<Id>, todo: set<Id>, order: seq<Id>, replays: map<Id, seq<seq<Action>>>)
    requires Good(k1) && PumpInv(k1, k, all, todo) && todo <= all && Enumerates(order, todo) && SaneReplays(replays, k.services)
    ensures var r := FinishAllIn(k, order, replays); r.orphaned || PumpInv(k1, r, all, {})
    decreases |order|
  {
    if order == [] {
      assert todo == {};
    } else {
      var id := order[0];
      var m := FinishIn(k, id, Scripts(replays, id));
      FinishOne(k1, k, all, todo, id, Scripts(replays, id));
      if m.orphaned {
        FinishAllStaysOrphaned(m, order[1..], replays);
      } else {
        EnumeratesRest(order, todo);
        FinishAllKeeps(k1, m, all, todo - {id}, order[1..], replays);
      }
    }
  }

  lemma EnumeratesRest(order: seq<Id>, ids: set<Id>)
    requires order != [] && Enumerates(order, ids)
    ensures Enumerates(order[1..], ids - {order[0]})
  {
    forall id | id in ids - {order[0]}
      ensures id in order[1..]
    {
      var i :| 0 <= i < |order| && order[i] == id;
      assert order[1..][i - 1] == id;
    }
  }

  /** Of the frames that were suspended, those past their deadline are being cancelled, and
      nothing else happened to any of them. */
  predicate Expired(k: Core, r: Core, now: nat) {
    forall id :: id in k.activating && k.activating[id].frame.Suspended? ==>
      && id in r.activating
      && r.activating[id] == k.activating[id].(cancelling := k.activating[id].cancelling || Overdue(k.activating[id], now))
  }

  /** The pump: sound, every frame left is suspended, and everybody was told exactly the
      first arrivals of its gate, once, in order, replayed or disposed. */
  lemma PumpKeeps(k: Core, now: nat, order: seq<Id>, replays: map<Id, seq<seq<Action>>>)
    requires Sound(k, {}) && Enumerates(order, Done(k)) && SaneReplays(replays, k.services)
    ensures var r := PumpIn(k, now, order, replays);
            Steady(r) && (r.orphaned || (!k.orphaned && r.services == k.services && Told(k, r, Done(k)) && Expired(k, r, now)))
  {
    var e := ExpireIn(k, now);
    var r := PumpIn(k, now, order, replays);
    if k.orphaned {
      FinishAllStaysOrphaned(e, order, replays);
    } else {
      PumpBegins(k, now);
      FinishAllKeeps(e, e, Done(e), Done(e), order, replays);
      if !r.orphaned {
        ToldSinceExpiry(k, now, r);
        NobodyDone(r);
        ExpiredSince(k, now, r);
      }
    }
  }

  lemma ExpiredSince(k: Core, now: nat, r: Core)
    requires Good(k) && StillSuspended(ExpireIn(k, now), r)
    ensures Expired(k, r, now)
  {
    ExpireKeeps(k, now);
  }

  lemma PumpBegins(k: Core, now: nat)
    requires Sound(k, {}) && !k.orphaned
    ensures var e := ExpireIn(k, now); Good(e) && PumpInv(e, e, Done(e), Done(e)) && Done(e) == Done(k) && e.services == k.services
  {
    var e := ExpireIn(k, now);
    ExpireKeeps(k, now);
    ExpiryOwesTheSame(k, now);
    ToldNothing(e);
    assert Done(e) - Done(e) == {};
  }

  lemma ToldSinceExpiry(k: Core, now: nat, r: Core)
    requires var e := ExpireIn(k, now); Told(e, r, Done(e) - {})
    ensures Told(k, r, Done(k))
  {
    var e := ExpireIn(k, now);
    ExpiryOwesTheSame(k, now);
    assert Done(e) - {} == Done(k);
    forall id
      ensures For(r.routed[|k.routed|..], id) == Replayed(k, Done(k), id)
      ensures For(r.disposed[|k.disposed|..], id) == Discarded(k, Done(k), id)
    {
      assert For(r.routed[|e.routed|..], id) == Replayed(e, Done(k), id);
      assert For(r.disposed[|e.disposed|..], id) == Discarded(e, Done(k), id);
    }
  }

  lemma NobodyDone(k: Core)
    requires Done(k) <= {}
    ensures FramesSuspended(k)
  {
    assert forall id :: id in k.activating && k.activating[id].frame.Finished? ==> id in Done(k);
  }

  /** Expiry changes neither which frames are done nor what they are owed. */
  lemma ExpiryOwesTheSame(k: Core, now: nat)
    ensures Done(ExpireIn(k, now)) == Done(k)
    ensures forall ids, id :: Replayed(ExpireIn(k, now), ids, id) == Replayed(k, ids, id)
    ensures forall ids, id :: Discarded(ExpireIn(k, now), ids, id) == Discarded(k, ids, id)
  {
    var e := ExpireIn(k, now);
    assert e.activating.Keys == k.activating.Keys;
  }

  /** Before every later delivery: what an actor was told from the moment its activation
      began until the pump that completed it is KillEvents, and then exactly the first
      arrivals its gate held back. */
  lemma ReplayComesFirst(k: Core, r: Core, id: Id)
    requires Good(k) && id in k.activating && Succeeded(k, id) && Told(k, r, Done(k))
    ensures var a := k.activating[id];
            && a.since <= |k.routed| <= |r.routed|
            && For(r.routed[a.since..], id) == For(k.routed[a.since..], id) + Prefix(a.gated)
            && forall i :: 0 <= i < |For(k.routed[a.since..], id)| ==> For(k.routed[a.since..], id)[i].kill
  {
    var a := k.activating[id];
    assert GateOk(k, id);
    assert r.routed[a.since..] == k.routed[a.since..] + r.routed[|k.routed|..];
    ForConcat(k.routed[a.since..], r.routed[|k.routed|..], id);
    ForKills(k.routed[a.since..], id);
  }

  lemma {:induction false} ForKills(log: seq<Event>, id: Id)
    requires forall i :: 0 <= i < |log| && log[i].dest == To(id) ==> log[i].kill
    ensures forall i :: 0 <= i < |For(log, id)| ==> For(log, id)[i].kill
    decreases |log|
  {
    if log != [] {
      ForKills(log[1..], id);
    }
  }

  // ---------------------------------------------------------------- the reap

  /** The ids of all batches. */
  function Reaped(batches: seq<seq<Id>>): set<Id> {
    set i, j | 0 <= i < |batches| && 0 <= j < |batches[i]| :: batches[i][j]
  }

  /** Whom the destructors of those of these actors that can go at once name. */
  function Words(k: Core, ids: set<Id>): set<Id> {
    set id, i | id in ids && id in k.actors && id !in k.activating && 0 <= i < |k.actors[id].lastWords| :: k.actors[id].lastWords[i]
  }

  /** What a reap works in. */
  predicate Ripe(k: Core) {
    Good(k) && k.leaked == [] && FramesSuspended(k)
  }

  /** Exactly these actors went; those with a suspended frame are dying instead. */
  predicate Gone(k: Core, r: Core, ids: set<Id>) {
    && r.activating == k.activating && r.dying == k.dying + ids * k.activating.Keys
    && r.actors.Keys == k.actors.Keys - (ids - k.activating.Keys)
    && (forall id :: id in r.actors ==> r.actors[id] == k.actors[id].(alive := r.actors[id].alive))
    && r.routed == k.routed && r.disposed == k.disposed && r.services == k.services && r.orphaned == k.orphaned
    && k.free <= r.free
  }

  lemma {:induction false} KillAllRecords(k: Core, ids: seq<Id>)
    ensures KillAll(k, ids).toRemove == k.toRemove + set i | 0 <= i < |ids| :: ids[i]
    decreases |ids|
  {
    if ids != [] {
      KillAllRecords(KillIn(k, ids[0]), ids[1..]);
      var rest := set i | 0 <= i < |ids[1..]| :: ids[1..][i];
      var all := set i | 0 <= i < |ids| :: ids[i];
      forall x | x in all
        ensures x in {ids[0]} + rest
      {
        var i :| 0 <= i < |ids| && ids[i] == x;
        assert i > 0 ==> ids[1..][i - 1] == x;
      }
      assert all == {ids[0]} + rest;
    }
  }

  lemma RemoveOne(k: Core, id: Id)
    requires Ripe(k)
    ensures var r := RemoveIn(k, id);
            Ripe(r) && Gone(k, r, {id}) && r.toRemove == k.toRemove + Words(k, {id})
  {
    RemoveKeeps(k, id, {});
    if id in k.actors && id !in k.activating {
      DestroyOne(k, id);
    } else {
      assert Words(k, {id}) == {};
      assert id !in k.activating ==> k.dying + {id} * k.activating.Keys == k.dying;
    }
  }

  lemma DestroyOne(k: Core, id: Id)
    requires id in k.actors && id !in k.activating
    ensures Gone(k, Destroy(k, id), {id}) && Destroy(k, id).toRemove == k.toRemove + Words(k, {id})
  {
    DestroyShape(k, id);
    KillAllRecords(k.(actors := k.actors - {id}), k.actors[id].lastWords);
    assert (set i | 0 <= i < |k.actors[id].lastWords| :: k.actors[id].lastWords[i]) == Words(k, {id});
    assert {id} - k.activating.Keys == {id} && k.dying + {id} * k.activating.Keys == k.dying;
  }

  function Ids(order: seq<Id>): set<Id> {
    set i | 0 <= i < |order| :: order[i]
  }

  lemma GoneTwice(k: Core, m: Core, r: Core, a: set<Id>, b: set<Id>)
    requires Gone(k, m, a) && Gone(m, r, b)
    ensures Gone(k, r, a + b) && Words(k, a + b) == Words(k, a) + Words(m, b)
  {
    assert r.dying == k.dying + (a + b) * k.activating.Keys;
    assert r.actors.Keys == k.actors.Keys - ((a + b) - k.activating.Keys);
    forall x | x in Words(k, a + b)
      ensures x in Words(k, a) + Words(m, b)
    {
      var id, i :| id in a + b && id in k.actors && id !in k.activating && 0 <= i < |k.actors[id].lastWords| && k.actors[id].lastWords[i] == x;
      assert id !in a ==> id in m.actors && m.actors[id].lastWords[i] == x;
    }
    forall x | x in Words(m, b)
      ensures x in Words(k, a + b)
    {
      var id, i :| id in b && id in m.actors && id !in m.activating && 0 <= i < |m.actors[id].lastWords| && m.actors[id].lastWords[i] == x;
      assert k.actors[id].lastWords[i] == x;
    }
  }

  /** A batch in any order: exactly its members go, and exactly the kills of the destructors
      run are recorded. */
  lemma {:induction false} RemoveAllExact(k: Core, order: seq<Id>)
    requires Ripe(k)
    ensures var r := RemoveAllIn(k, order);
            Ripe(r) && Gone(k, r, Ids(order)) && r.toRemove == k.toRemove + Words(k, Ids(order))
    decreases |order|
  {
    if order != [] {
      var m := RemoveIn(k, order[0]);
      RemoveOne(k, order[0]);
      RemoveAllExact(m, order[1..]);
      var r := RemoveAllIn(k, order);
      GoneTwice(k, m, r, {order[0]}, Ids(order[1..]));
      IdsCons(order);
    }
  }

  lemma IdsCons(order: seq<Id>)
    requires order != []
    ensures Ids(order) == {order[0]} + Ids(order[1..])
  {
    forall x | x in Ids(order)
      ensures x in {order[0]} + Ids(order[1..])
    {
      var i :| 0 <= i < |order| && order[i] == x;
      assert i > 0 ==> order[1..][i - 1] == x;
    }
  }

  lemma ReapedCons(batches: seq<seq<Id>>)
    requires batches != []
    ensures Reaped(batches) == Ids(batches[0]) + Reaped(batches[1..])
  {
    forall x | x in Reaped(batches)
      ensures x in Ids(batches[0]) + Reaped(batches[1..])
    {
      var i, j :| 0 <= i < |batches| && 0 <= j < |batches[i]| && batches[i][j] == x;
      assert i > 0 ==> batches[1..][i - 1][j] == x;
    }
    forall x | x in Reaped(batches[1..])
      ensures x in Reaped(batches)
    {
      var i, j :| 0 <= i < |batches[1..]| && 0 <= j < |batches[1..][i]| && batches[1..][i][j] == x;
      assert batches[i + 1][j] == x;
    }
  }

  /** The reap, exactly: those go who were killed before or are named by the destructor of
      an actor that goes, and nobody else. */
  lemma {:induction false} ReapExact(k: Core, batches: seq<seq<Id>>)
    requires Ripe(k) && Reaps(k, batches)
    ensures var r := ReapIn(k, batches);
            && Ripe(r) && r.toRemove == {} && Gone(k, r, Reaped(batches))
            && Reaped(batches) == k.toRemove + Words(k, Reaped(batches))
    decreases |batches|
  {
    if batches == [] {
      assert Reaped(batches) == {} && Words(k, {}) == {};
    } else {
      var m := RemoveAllIn(k.(toRemove := {}), batches[0]);
      FirstBatch(k, batches[0]);
      ReapExact(m, batches[1..]);
      ReapedCons(batches);
      GoneTwice(k, m, ReapIn(k, batches), Ids(batches[0]), Reaped(batches[1..]));
    }
  }

  lemma FirstBatch(k: Core, order: seq<Id>)
    requires Ripe(k) && Enumerates(order, k.toRemove)
    ensures var m := RemoveAllIn(k.(toRemove := {}), order);
            Ripe(m) && Gone(k, m, Ids(order)) && Ids(order) == k.toRemove && m.toRemove == Words(k, k.toRemove)
  {
    var k0 := k.(toRemove := {});
    RipeWithout(k);
    RemoveAllExact(k0, order);
    assert Words(k, k.toRemove) == Words(k0, k.toRemove);
  }

  /** Nobody goes on its own word: it was killed before, or another actor that goes names
      it. */
  lemma {:induction false} ReapedByAnother(k: Core, batches: seq<seq<Id>>, id: Id)
    requires Ripe(k) && Reaps(k, batches) && id in Reaped(batches)
    ensures id in k.toRemove || id in Words(k, Reaped(batches) - {id})
    decreases |batches|
  {
    var m := RemoveAllIn(k.(toRemove := {}), batches[0]);
    FirstBatch(k, batches[0]);
    ReapedCons(batches);
    if id !in k.toRemove {
      ReapedByAnother(m, batches[1..], id);
      WordsGrow(k, k, k.toRemove, Reaped(batches) - {id});
      WordsGrow(m, k, Reaped(batches[1..]) - {id}, Reaped(batches) - {id});
    }
  }

  lemma WordsGrow(m: Core, k: Core, a: set<Id>, b: set<Id>)
    requires a <= b && m.activating == k.activating && m.actors.Keys <= k.actors.Keys
    requires forall id :: id in m.actors ==> m.actors[id].lastWords == k.actors[id].lastWords
    ensures Words(m, a) <= Words(k, b)
  {
    forall x | x in Words(m, a)
      ensures x in Words(k, b)
    {
      var id, i :| id in a && id in m.actors && id !in m.activating && 0 <= i < |m.actors[id].lastWords| && m.actors[id].lastWords[i] == x;
      assert k.actors[id].lastWords[i] == x;
    }
  }

  lemma RipeWithout(k: Core)
    requires Ripe(k)
    ensures Ripe(k.(toRemove := {}))
  {
    GatesStand(k, k.(toRemove := {}));
  }

  /** After a reap nobody dead is left behind unless it is waiting for its frame. */
  lemma {:induction false} ReapKeeps(k: Core, batches: seq<seq<Id>>)
    requires Steady(k) && !k.orphaned && Reaps(k, batches)
    ensures var r := ReapIn(k, batches);
            Steady(r) && !r.orphaned && r.services == k.services && forall id :: id in r.actors && !r.actors[id].alive ==> id in r.dying
    decreases |batches|
  {
    ReapExact(k, batches);
    if batches != [] {
      var m := RemoveAllIn(k.(toRemove := {}), batches[0]);
      RipeWithout(k);
      RemoveAllExact(k.(toRemove := {}), batches[0]);
      BatchStrandsNobody(k.(toRemove := {}), batches[0], k.toRemove);
      ReapKeeps(m, batches[1..]);
    }
  }

  lemma {:induction false} BatchStrandsNobody(k: Core, order: seq<Id>, due: set<Id>)
    requires Ripe(k) && NoneStranded(k, due) && Enumerates(order, due)
    ensures NoneStranded(RemoveAllIn(k, order), {})
    decreases |order|
  {
    if order == [] {
      assert due == {};
    } else {
      assert due - {order[0]} + {order[0]} == due;
      RemoveKeeps(k, order[0], due - {order[0]});
      RemoveOne(k, order[0]);
      EnumeratesRest(order, due);
      BatchStrandsNobody(RemoveIn(k, order[0]), order[1..], due - {order[0]});
    }
  }

  // ---------------------------------------------------------------- a pass keeps everything

  lemma PumpedKeeps(k: Core, p: Pass, order: seq<Id>)
    requires Steady(k) && SanePass(p, k.services) && Enumerates(order, Done(ListenIn(k, p)))
    ensures var m := Pumped(k, p, order); Steady(m) && (m.orphaned || (!k.orphaned && m.services == k.services))
  {
    ListenKeeps(k, p);
    var l := ListenIn(k, p);
    if l.orphaned {
      FinishAllStaysOrphaned(ExpireIn(l, p.now), order, p.replays);
    } else {
      PumpKeeps(l, p.now, order, p.replays);
    }
  }

  lemma BeforeReapKeeps(k: Core, p: Pass, order: seq<Id>)
    requires Steady(k) && SanePass(p, k.services) && Enumerates(order, Done(ListenIn(k, p)))
    ensures var r := BeforeReap(k, p, order); Steady(r) && (r.orphaned || (!k.orphaned && r.services == k.services))
  {
    PumpedKeeps(k, p, order);
    var m := Pumped(k, p, order);
    var r := ReceiveAll(m, p.inbox);
    if m.orphaned {
      ReceiveAllStaysOrphaned(m, p.inbox);
    } else {
      ReceiveAllKeeps(m, p.inbox);
    }
    if r.orphaned {
      StaysOrphaned(r, p.callbacks);
    } else {
      ScriptKeeps(r, p.callbacks);
    }
  }

  lemma {:induction false} ReapStaysOrphaned(k: Core, batches: seq<seq<Id>>)
    requires k.orphaned
    ensures ReapIn(k, batches).orphaned
    decreases |batches|
  {
    if batches != [] {
      RemoveAllStaysOrphaned(k.(toRemove := {}), batches[0]);
      ReapStaysOrphaned(RemoveAllIn(k.(toRemove := {}), batches[0]), batches[1..]);
    }
  }

  lemma {:induction false} RemoveAllStaysOrphaned(k: Core, order: seq<Id>)
    ensures RemoveAllIn(k, order).orphaned == k.orphaned
    decreases |order|
  {
    if order != [] {
      RemoveStaysOrphaned(k, order[0]);
      RemoveAllStaysOrphaned(RemoveIn(k, order[0]), order[1..]);
    }
  }

  /** A pass keeps a core steady, and when it ends the workflow nothing is left behind. */
  lemma PassKeeps(k: Core, p: Pass, t: Turn)
    requires Steady(k) && SanePass(p, k.services) && Follows(k, p, t)
    ensures var r := PassIn(k, p, t);
            && Steady(r) && (r.orphaned || (!k.orphaned && r.services == k.services))
            && (Left(k, p, t) && !r.orphaned ==> r.actors == map[] && r.activating == map[] && r.dying == {})
  {
    PumpedKeeps(k, p, t.order);
    BeforeReapKeeps(k, p, t.order);
    var b := BeforeReap(k, p, t.order);
    if !LeavesEarly(k, p, t.order) {
      if b.orphaned {
        ReapStaysOrphaned(b, t.batches);
      } else {
        ReapKeeps(b, t.batches);
      }
    }
  }

  lemma BeforeReapUnharmed(k: Core, p: Pass, t: Turn)
    requires !PassIn(k, p, t).orphaned && !LeavesEarly(k, p, t.order)
    ensures !BeforeReap(k, p, t.order).orphaned && !Pumped(k, p, t.order).orphaned
  {
    var m, b := Pumped(k, p, t.order), BeforeReap(k, p, t.order);
    if m.orphaned {
      ReceiveAllStaysOrphaned(m, p.inbox);
      StaysOrphaned(ReceiveAll(m, p.inbox), p.callbacks);
    }
    if b.orphaned {
      ReapStaysOrphaned(b, t.batches);
    }
  }

  lemma PassStaysOrphaned(k: Core, p: Pass, t: Turn)
    requires k.orphaned
    ensures PassIn(k, p, t).orphaned
  {
    StaysOrphaned(k, p.coroutines);
    var l := ListenIn(k, p);
    FinishAllStaysOrphaned(ExpireIn(l, p.now), t.order, p.replays);
    var m := Pumped(k, p, t.order);
    ReceiveAllStaysOrphaned(m, p.inbox);
    StaysOrphaned(ReceiveAll(m, p.inbox), p.callbacks);
    ReapStaysOrphaned(BeforeReap(k, p, t.order), t.batches);
  }

  // ---------------------------------------------------------------- when the workflow ends

  lemma {:induction false} ReceiveAllGrows(k: Core, batch: seq<Incoming>)
    requires Steady(k) && SaneInbox(batch, k.services) && !ReceiveAll(k, batch).orphaned
    ensures k.actors.Keys <= ReceiveAll(k, batch).actors.Keys
    decreases |batch|
  {
    if k.orphaned {
      ReceiveAllStaysOrphaned(k, batch);
    }
    if batch != [] {
      var x := batch[0];
      var m := ReceiveIn(k, x.e, x.answers, x.script);
      if m.orphaned {
        ReceiveAllStaysOrphaned(m, batch[1..]);
      }
      ReceiveKeeps(k, x);
      if !Gated(k, x.e) {
        RouteKeeps(k, x.e, x.script);
      }
      ReceiveAllGrows(m, batch[1..]);
    }
  }

  /** Between the pump and the reap nobody goes. */
  lemma BusyGrows(k: Core, p: Pass, order: seq<Id>)
    requires Steady(k) && SanePass(p, k.services) && Enumerates(order, Done(ListenIn(k, p)))
    requires !BeforeReap(k, p, order).orphaned && !Pumped(k, p, order).orphaned
    ensures Pumped(k, p, order).actors.Keys <= BeforeReap(k, p, order).actors.Keys
  {
    var m := Pumped(k, p, order);
    var r := ReceiveAll(m, p.inbox);
    PumpedKeeps(k, p, order);
    if r.orphaned {
      StaysOrphaned(r, p.callbacks);
    }
    ReceiveAllGrows(m, p.inbox);
    ReceiveAllKeeps(m, p.inbox);
    PerformAllKeeps(r, p.callbacks, {});
  }

  lemma ListenGrows(k: Core, p: Pass)
    requires Steady(k) && SanePass(p, k.services) && !ListenIn(k, p).orphaned
    ensures k.actors.Keys <= ListenIn(k, p).actors.Keys
  {
    if k.orphaned {
      StaysOrphaned(k, p.coroutines);
    }
    PerformAllKeeps(k, p.coroutines, {});
  }

  /** A core that has actors leaves its workflow in a pass exactly when that pass takes its
      last one. */
  lemma LeavesIffLastActorGone(k: Core, p: Pass, t: Turn)
    requires Steady(k) && SanePass(p, k.services) && Follows(k, p, t) && !PassIn(k, p, t).orphaned && k.actors != map[]
    ensures Left(k, p, t) <==> PassIn(k, p, t).actors == map[]
  {
    if !LeavesEarly(k, p, t.order) {
      var l, m, b := ListenIn(k, p), Pumped(k, p, t.order), BeforeReap(k, p, t.order);
      BeforeReapUnharmed(k, p, t);
      assert m.actors != map[] by {
        if l.activating == map[] {
          ListenGrows(k, p);
          var id :| id in k.actors;
          assert id in m.actors;
        }
      }
      BusyGrows(k, p, t.order);
      var id :| id in m.actors;
      assert id in b.actors;
    }
  }
}
