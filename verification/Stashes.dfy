/** The stashes of the life cycle are the stash of the transport. A joint run plays a core's
    life cycle and the transport together: an event the gate keeps is held, a replayed or
    disposed one is taken out again, and everything else leaves the stash alone. So a core
    that leaves its workflow has nothing stashed, which is what the transport asks of a core
    that begins to drain. */
module Stashes {
  import opened Lifecycle
  import opened LifecycleSafety
  import opened LifecycleTheorems
  import opened Passes
  import opened PassTheorems
  import T = Transport
  import V = VirtualCore

  // ---------------------------------------------------------------- what a core holds

  function Count(es: seq<Event>, token: nat): nat {
    if es == [] then 0 else (if es[0].token == token then 1 else 0) + Count(es[1..], token)
  }

  /** How often a token is stashed, over all activations. */
  ghost function Held(activating: map<Id, Activation>, token: nat): nat
    decreases activating.Keys
  {
    if activating == map[] then 0
    else
      var id := Least(activating.Keys);
      Count(activating[id].stash, token) + Held(activating - {id}, token)
  }

  lemma {:induction false} HeldSplits(activating: map<Id, Activation>, id: Id, token: nat)
    requires id in activating
    ensures Held(activating, token) == Count(activating[id].stash, token) + Held(activating - {id}, token)
    decreases activating.Keys
  {
    var least := Least(activating.Keys);
    if id != least {
      HeldSplits(activating - {least}, id, token);
      HeldSplits(activating - {id}, least, token);
      assert activating - {least} - {id} == activating - {id} - {least};
    }
  }

  /** The same stashes, and empty ones. */
  predicate SameStashes(a: map<Id, Activation>, b: map<Id, Activation>) {
    && a.Keys <= b.Keys && (forall id :: id in a ==> b[id].stash == a[id].stash)
    && forall id :: id in b && id !in a ==> b[id].stash == []
  }

  lemma {:induction false} HeldSame(a: map<Id, Activation>, b: map<Id, Activation>, token: nat)
    requires SameStashes(a, b)
    ensures Held(b, token) == Held(a, token)
    decreases b.Keys
  {
    if b == map[] {
      assert a == map[];
    } else {
      var id := Least(b.Keys);
      if id in a {
        HeldSplits(a, id, token);
        HeldSame(a - {id}, b - {id}, token);
      } else {
        HeldSame(a, b - {id}, token);
      }
    }
  }

  /** The stash of a core of the transport holds what the core's activations hold. */
  ghost predicate Linked(s: T.System, c: nat, k: Core) {
    && T.Shape(s) && c < |s.cores| && s.cores[c].phase.Running?
    && forall token :: T.Count(s.cores[c].stash, token) == Held(k.activating, token)
  }

  // ---------------------------------------------------------------- the moves of a core

  datatype Move =
    | Act(script: seq<Action>)
    | Resume(verdicts: map<Id, bool>)
    | Expire(now: nat)
    | Finish(id: Id, scripts: seq<seq<Action>>)
    | Receive(x: Incoming)
    | Batch
    | Remove(who: Id)

  ghost function Moved(k: Core, m: Move): Core {
    match m
    case Act(script) => PerformAll(k, script)
    case Resume(verdicts) => ResumeIn(k, verdicts)
    case Expire(now) => ExpireIn(k, now)
    case Finish(id, scripts) => if id in k.activating then FinishIn(k, id, scripts) else k
    case Receive(x) => ReceiveIn(k, x.e, x.answers, x.script)
    case Batch => k.(toRemove := {})
    case Remove(id) => RemoveIn(k, id)
  }

  ghost function MovedAll(k: Core, moves: seq<Move>): Core
    decreases |moves|
  {
    if moves == [] then k else MovedAll(Moved(k, moves[0]), moves[1..])
  }

  /** Moves a workflow makes: it finishes frames that are done, and removes actors only while
      their frame, if any, is suspended. */
  ghost predicate Fine(k: Core, m: Move) {
    && Good(k) && !k.orphaned && !Moved(k, m).orphaned
    && match m
       case Act(script) => SaneAll(script, k.services, {})
       case Finish(id, scripts) => id in k.activating && k.activating[id].frame.Finished? && SaneScripts(scripts, k.services)
       case Receive(x) => SaneAll(x.script, k.services, {})
       case Remove(id) => id in k.activating ==> k.activating[id].frame.Suspended?
       case _ => true
  }

  ghost predicate FineAll(k: Core, moves: seq<Move>)
    decreases |moves|
  {
    moves == [] || (Fine(k, moves[0]) && FineAll(Moved(k, moves[0]), moves[1..]))
  }

  lemma {:induction false} MovedConcat(k: Core, a: seq<Move>, b: seq<Move>)
    ensures MovedAll(k, a + b) == MovedAll(MovedAll(k, a), b)
    ensures FineAll(k, a) && FineAll(MovedAll(k, a), b) ==> FineAll(k, a + b)
    decreases |a|
  {
    if a == [] {
      assert a + b == b;
    } else {
      MovedConcat(Moved(k, a[0]), a[1..], b);
      assert (a + b)[1..] == a[1..] + b;
    }
  }

  /** The gate keeps the event in the stash. */
  predicate Stashed(k: Core, x: Incoming) {
    Gated(k, x.e) && !x.answers && |k.activating[x.e.dest.id].stash| < STASH_CAP
  }

  /** Which stashed events a move lets go. */
  function Released(k: Core, m: Move): seq<Event> {
    if m.Finish? && m.id in k.activating then k.activating[m.id].stash else []
  }

  // ---------------------------------------------------------------- what a move does to the stashes

  lemma ActStashes(k: Core, script: seq<Action>)
    requires Fine(k, Act(script))
    ensures SameStashes(k.activating, PerformAll(k, script).activating)
  {
    PerformAllKeeps(k, script, {});
  }

  lemma ReceiveStashes(k: Core, x: Incoming)
    requires Fine(k, Receive(x)) && !Stashed(k, x)
    ensures SameStashes(k.activating, Moved(k, Receive(x)).activating)
  {
    if !Gated(k, x.e) {
      RouteKeeps(k, x.e, x.script);
    }
  }

  lemma RemoveStashes(k: Core, id: Id)
    requires Fine(k, Remove(id))
    ensures RemoveIn(k, id).activating == k.activating
  {
    if id in k.actors && id !in k.activating {
      DestroyShape(k, id);
    }
  }

  lemma FinishStashes(k: Core, id: Id, scripts: seq<seq<Action>>)
    requires Fine(k, Finish(id, scripts))
    ensures SameStashes(k.activating - {id}, FinishIn(k, id, scripts).activating)
  {
    if Succeeded(k, id) {
      SuccessReplays(k, id, scripts);
    } else {
      var everyone := k.actors.Keys;
      assert NoneStranded(k, everyone);
      FailureKeeps(k, id, scripts, everyone);
    }
  }

  /** Only receiving and finishing change what is held. */
  lemma OtherMovesStash(k: Core, m: Move, token: nat)
    requires Fine(k, m) && !m.Finish? && !(m.Receive? && Stashed(k, m.x))
    ensures Held(Moved(k, m).activating, token) == Held(k.activating, token)
  {
    match m {
      case Act(script) => ActStashes(k, script);
      case Receive(x) => ReceiveStashes(k, x);
      case Remove(id) => RemoveStashes(k, id);
      case _ =>
    }
    HeldSame(k.activating, Moved(k, m).activating, token);
  }

  lemma {:induction false} CountSnoc(es: seq<Event>, e: Event, token: nat)
    ensures Count(es + [e], token) == Count(es, token) + if e.token == token then 1 else 0
    decreases |es|
  {
    if es == [] {
      assert es + [e] == [e] && [e][1..] == [];
    } else {
      CountSnoc(es[1..], e, token);
      assert (es + [e])[1..] == es[1..] + [e];
    }
  }

  /** An event the gate keeps is held once more. */
  lemma StashHolds(k: Core, x: Incoming, token: nat)
    requires Stashed(k, x)
    ensures Held(Moved(k, Receive(x)).activating, token) == Held(k.activating, token) + if x.e.token == token then 1 else 0
  {
    var id := x.e.dest.id;
    var r := Moved(k, Receive(x)).activating;
    HeldSplits(k.activating, id, token);
    HeldSplits(r, id, token);
    assert r - {id} == k.activating - {id};
    CountSnoc(k.activating[id].stash, x.e, token);
  }

  /** Finishing an activation releases its stash and nothing else. */
  lemma FinishReleases(k: Core, id: Id, scripts: seq<seq<Action>>, token: nat)
    requires Fine(k, Finish(id, scripts))
    ensures Held(Moved(k, Finish(id, scripts)).activating, token) + Count(k.activating[id].stash, token) == Held(k.activating, token)
  {
    FinishStashes(k, id, scripts);
    HeldSplits(k.activating, id, token);
    HeldSame(k.activating - {id}, FinishIn(k, id, scripts).activating, token);
  }

  // ---------------------------------------------------------------- the transport's side

  /** A step that neither handles an event on core c nor changes its phase. */
  predicate Quiet(a: T.Step, c: nat) {
    match a
    case Dispatch(_, d, _) => d != c
    case Unstash(d, _, _) => d != c
    case BeginDrain(d) => d != c
    case Stop(d) => d != c
    case _ => true
  }

  lemma QuietStep(s: T.System, a: T.Step, c: nat)
    requires T.Shape(s) && c < |s.cores| && Quiet(a, c)
    ensures T.Apply(s, a).cores[c].stash == s.cores[c].stash && T.Apply(s, a).cores[c].phase == s.cores[c].phase
  {
  }

  lemma {:induction false} QuietRun(s: T.System, steps: seq<T.Step>, c: nat)
    requires T.Shape(s) && c < |s.cores| && forall i :: 0 <= i < |steps| ==> Quiet(steps[i], c)
    ensures T.Run(s, steps).cores[c].stash == s.cores[c].stash && T.Run(s, steps).cores[c].phase == s.cores[c].phase
    decreases |steps|
  {
    if steps != [] {
      QuietStep(s, steps[0], c);
      QuietRun(T.Apply(s, steps[0]), steps[1..], c);
    }
  }

  lemma {:induction false} TransportCountConcat(a: seq<T.Event>, b: seq<T.Event>, token: nat)
    ensures T.Count(a + b, token) == T.Count(a, token) + T.Count(b, token)
    decreases |a|
  {
    if a == [] {
      assert a + b == b;
    } else {
      TransportCountConcat(a[1..], b, token);
      assert (a + b)[1..] == a[1..] + b;
    }
  }

  /** Handling an event on core c: held it joins the stash, otherwise the stash stays. */
  lemma DispatchStash(s: T.System, p: nat, c: nat, how: T.Outcome, token: nat)
    requires T.Shape(s) && T.Enabled(s, T.Dispatch(p, c, how)) && s.cores[c].phase.Running?
    ensures var r := T.Apply(s, T.Dispatch(p, c, how));
            && r.cores[c].phase.Running?
            && T.Count(r.cores[c].stash, token) == T.Count(s.cores[c].stash, token)
               + (if how.Hold? && T.At(s, p, c).batch[0].token == token then 1 else 0)
  {
    var e := T.At(s, p, c).batch[0];
    TransportCountConcat(s.cores[c].stash, [e], token);
    assert [e][1..] == [];
  }

  lemma UnstashStash(s: T.System, c: nat, i: nat, how: T.Outcome, token: nat)
    requires T.Shape(s) && T.Enabled(s, T.Unstash(c, i, how)) && s.cores[c].phase.Running?
    ensures var r := T.Apply(s, T.Unstash(c, i, how));
            && r.cores[c].phase.Running?
            && T.Count(r.cores[c].stash, token) + (if s.cores[c].stash[i].token == token then 1 else 0) == T.Count(s.cores[c].stash, token)
  {
    var st := s.cores[c].stash;
    assert st == st[..i] + ([st[i]] + st[i + 1..]);
    TransportCountConcat(st[..i], [st[i]] + st[i + 1..], token);
    TransportCountConcat(st[..i], st[i + 1..], token);
  }

  // ---------------------------------------------------------------- joint runs

  /** These steps take exactly these events out of the stash of core c, in order. */
  predicate Unstashes(s: T.System, c: nat, es: seq<Event>, steps: seq<T.Step>)
    requires T.Shape(s)
    decreases |es|
  {
    if es == [] || steps == [] then es == [] && steps == []
    else
      && steps[0].Unstash? && steps[0].d == c && T.Enabled(s, steps[0]) && s.cores[c].stash[steps[0].i].token == es[0].token
      && Unstashes(T.Apply(s, steps[0]), c, es[1..], steps[1..])
  }

  predicate AllConsume(steps: seq<T.Step>) {
    forall i :: 0 <= i < |steps| ==> steps[i].Unstash? ==> steps[i].how.Consume?
  }

  /** These steps of the transport are a move of core c: a received event is handled, held
      exactly when the gate keeps it and consumed when the gate disposes it; the events of a
      finished activation are taken out of the stash, and consumed when it failed; other
      moves handle no event. */
  predicate Matches(s: T.System, c: nat, k: Core, m: Move, steps: seq<T.Step>)
    requires T.Shape(s)
  {
    match m
    case Receive(x) =>
      && |steps| == 1 && steps[0].Dispatch? && steps[0].d == c && T.Enabled(s, steps[0])
      && T.At(s, steps[0].c, c).batch[0].token == x.e.token && (steps[0].how.Hold? <==> Stashed(k, x))
      && (Gated(k, x.e) && !Stashed(k, x) ==> steps[0].how.Consume?)
    case Finish(id, _) =>
      Unstashes(s, c, Released(k, m), steps) && (id in k.activating && !Succeeded(k, id) ==> AllConsume(steps))
    case _ => steps == []
  }

  /** A move of core c, after steps of the transport that do not concern it. */
  datatype Joint = Joint(before: seq<T.Step>, move: Move, steps: seq<T.Step>)

  ghost predicate Legal(s: T.System, c: nat, k: Core, joints: seq<Joint>)
    requires T.Shape(s)
    decreases |joints|
  {
    joints == [] || (
      && (forall i :: 0 <= i < |joints[0].before| ==> Quiet(joints[0].before[i], c))
      && var m := T.Run(s, joints[0].before);
         && Matches(m, c, k, joints[0].move, joints[0].steps)
         && Legal(T.Run(m, joints[0].steps), c, Moved(k, joints[0].move), joints[1..]))
  }

  function Steps(joints: seq<Joint>): seq<T.Step>
    decreases |joints|
  {
    if joints == [] then [] else joints[0].before + joints[0].steps + Steps(joints[1..])
  }

  function Moves(joints: seq<Joint>): seq<Move>
    decreases |joints|
  {
    if joints == [] then [] else [joints[0].move] + Moves(joints[1..])
  }

  lemma {:induction false} UnstashAll(s: T.System, c: nat, es: seq<Event>, steps: seq<T.Step>, token: nat)
    requires T.Shape(s) && c < |s.cores| && s.cores[c].phase.Running? && Unstashes(s, c, es, steps)
    ensures var r := T.Run(s, steps);
            r.cores[c].phase.Running? && T.Count(r.cores[c].stash, token) + Count(es, token) == T.Count(s.cores[c].stash, token)
    decreases |es|
  {
    if es != [] && steps != [] {
      UnstashStash(s, c, steps[0].i, steps[0].how, token);
      UnstashAll(T.Apply(s, steps[0]), c, es[1..], steps[1..], token);
    }
  }

  lemma MatchRuns(s: T.System, c: nat, k: Core, m: Move, steps: seq<T.Step>, token: nat)
    requires Linked(s, c, k) && Fine(k, m) && Matches(s, c, k, m, steps)
    ensures var r := T.Run(s, steps);
            r.cores[c].phase.Running? && T.Count(r.cores[c].stash, token) == Held(Moved(k, m).activating, token)
  {
    assert T.Count(s.cores[c].stash, token) == Held(k.activating, token);
    if m.Finish? {
      UnstashAll(s, c, Released(k, m), steps, token);
      FinishReleases(k, m.id, m.scripts, token);
    } else if m.Receive? {
      assert T.Run(s, steps) == T.Apply(s, steps[0]) by {
        assert steps[1..] == [];
      }
      DispatchStash(s, steps[0].c, c, steps[0].how, token);
      if Stashed(k, m.x) {
        StashHolds(k, m.x, token);
      } else {
        OtherMovesStash(k, m, token);
      }
    } else {
      OtherMovesStash(k, m, token);
    }
  }

  lemma OneMoveStaysLinked(s: T.System, c: nat, k: Core, j: Joint)
    requires Linked(s, c, k) && Fine(k, j.move) && forall i :: 0 <= i < |j.before| ==> Quiet(j.before[i], c)
    requires Matches(T.Run(s, j.before), c, k, j.move, j.steps)
    ensures Linked(T.Run(T.Run(s, j.before), j.steps), c, Moved(k, j.move))
  {
    QuietRun(s, j.before, c);
    var m := T.Run(s, j.before);
    assert Linked(m, c, k);
    MatchRuns(m, c, k, j.move, j.steps, 0);
    forall token
      ensures T.Count(T.Run(m, j.steps).cores[c].stash, token) == Held(Moved(k, j.move).activating, token)
    {
      MatchRuns(m, c, k, j.move, j.steps, token);
    }
  }

  lemma {:induction false} RunTwice(s: T.System, a: seq<T.Step>, b: seq<T.Step>)
    requires T.Shape(s)
    ensures T.Run(s, a + b) == T.Run(T.Run(s, a), b)
    decreases |a|
  {
    if a == [] {
      assert a + b == b;
    } else {
      RunTwice(T.Apply(s, a[0]), a[1..], b);
      assert (a + b)[1..] == a[1..] + b;
    }
  }

  /** However the other threads interleave, a core that makes fine moves keeps the stash of
      the transport and its own stashes in step. */
  lemma {:induction false} StaysLinked(s: T.System, c: nat, k: Core, joints: seq<Joint>)
    requires Linked(s, c, k) && Legal(s, c, k, joints) && FineAll(k, Moves(joints))
    ensures Linked(T.Run(s, Steps(joints)), c, MovedAll(k, Moves(joints)))
    decreases |joints|
  {
    if joints != [] {
      var j := joints[0];
      assert Moves(joints)[0] == j.move && Moves(joints)[1..] == Moves(joints[1..]);
      OneMoveStaysLinked(s, c, k, j);
      var m := T.Run(T.Run(s, j.before), j.steps);
      StaysLinked(m, c, Moved(k, j.move), joints[1..]);
      RunTwice(s, j.before, j.steps);
      RunTwice(s, j.before + j.steps, Steps(joints[1..]));
    }
  }

  /** A received event can always be handled as the life cycle says: held exactly when the
      gate keeps it. */
  lemma ReceiveHasSteps(s: T.System, p: nat, c: nat, k: Core, x: Incoming)
    requires Linked(s, c, k) && p < |s.cores| && T.At(s, p, c).batch != [] && T.At(s, p, c).batch[0].token == x.e.token
    ensures Matches(s, c, k, Receive(x), [T.Dispatch(p, c, if Stashed(k, x) then T.Hold else T.Consume)])
  {
  }

  /** The steps a finished activation calls for can always be taken. */
  lemma FinishHasSteps(s: T.System, c: nat, k: Core, id: Id, scripts: seq<seq<Action>>) returns (steps: seq<T.Step>)
    requires Linked(s, c, k) && id in k.activating
    ensures Matches(s, c, k, Finish(id, scripts), steps)
  {
    forall token
      ensures Count(k.activating[id].stash, token) <= T.Count(s.cores[c].stash, token)
    {
      HeldSplits(k.activating, id, token);
    }
    steps := CanUnstash(s, c, k.activating[id].stash);
  }

  lemma {:induction false} CanUnstash(s: T.System, c: nat, es: seq<Event>) returns (steps: seq<T.Step>)
    requires T.Shape(s) && c < |s.cores| && s.cores[c].phase.Running?
    requires forall token :: Count(es, token) <= T.Count(s.cores[c].stash, token)
    ensures Unstashes(s, c, es, steps) && AllConsume(steps)
    decreases |es|
  {
    if es == [] {
      steps := [];
    } else {
      assert Count(es, es[0].token) <= T.Count(s.cores[c].stash, es[0].token);
      var i := Find(s.cores[c].stash, es[0].token);
      var a := T.Unstash(c, i, T.Consume);
      var r := T.Apply(s, a);
      UnstashStash(s, c, i, T.Consume, 0);
      forall token
        ensures Count(es[1..], token) <= T.Count(r.cores[c].stash, token)
      {
        assert Count(es, token) <= T.Count(s.cores[c].stash, token);
        UnstashStash(s, c, i, T.Consume, token);
      }
      var rest := CanUnstash(r, c, es[1..]);
      steps := [a] + rest;
      assert steps[1..] == rest;
    }
  }

  lemma {:induction false} Find(es: seq<T.Event>, token: nat) returns (i: nat)
    requires T.Count(es, token) > 0
    ensures i < |es| && es[i].token == token
    decreases |es|
  {
    if es[0].token == token {
      i := 0;
    } else {
      var j := Find(es[1..], token);
      i := j + 1;
    }
  }

  // ---------------------------------------------------------------- passes

  function Finishes(order: seq<Id>, replays: map<Id, seq<seq<Action>>>): seq<Move>
    decreases |order|
  {
    if order == [] then [] else [Finish(order[0], Scripts(replays, order[0]))] + Finishes(order[1..], replays)
  }

  function Receives(inbox: seq<Incoming>): seq<Move>
    decreases |inbox|
  {
    if inbox == [] then [] else [Receive(inbox[0])] + Receives(inbox[1..])
  }

  function Removes(order: seq<Id>): seq<Move>
    decreases |order|
  {
    if order == [] then [] else [Remove(order[0])] + Removes(order[1..])
  }

  function ReapMoves(batches: seq<seq<Id>>): seq<Move>
    decreases |batches|
  {
    if batches == [] then [] else [Batch] + Removes(batches[0]) + ReapMoves(batches[1..])
  }

  ghost function PumpMoves(k: Core, p: Pass, order: seq<Id>): seq<Move> {
    [Act(p.coroutines), Resume(p.verdicts)] +
    if ListenIn(k, p).activating == map[] then [] else [Expire(p.now)] + Finishes(order, p.replays)
  }

  ghost function BusyMoves(k: Core, p: Pass, order: seq<Id>): seq<Move> {
    Receives(p.inbox) + if ReceiveAll(Pumped(k, p, order), p.inbox).toRemove == {} then [Act(p.callbacks)] else []
  }

  /** The moves of one pass. */
  ghost function PassMoves(k: Core, p: Pass, t: Turn): seq<Move> {
    PumpMoves(k, p, t.order) +
    if LeavesEarly(k, p, t.order) then [] else BusyMoves(k, p, t.order) + ReapMoves(t.batches)
  }

  lemma {:induction false} FinishesMove(k1: Core, k: Core, all: set<Id>, todo: set<Id>, order: seq<Id>, replays: map<Id, seq<seq<Action>>>)
    requires Good(k1) && PumpInv(k1, k, all, todo) && todo <= all <= Done(k1) && Enumerates(order, todo) && SaneReplays(replays, k.services)
    requires !FinishAllIn(k, order, replays).orphaned
    ensures MovedAll(k, Finishes(order, replays)) == FinishAllIn(k, order, replays) && FineAll(k, Finishes(order, replays))
    decreases |order|
  {
    if order != [] {
      var id := order[0];
      var moves := Finishes(order, replays);
      var m := Moved(k, moves[0]);
      assert moves[1..] == Finishes(order[1..], replays);
      if m.orphaned {
        FinishAllStaysOrphaned(m, order[1..], replays);
      }
      FinishOne(k1, k, all, todo, id, Scripts(replays, id));
      EnumeratesRest(order, todo);
      FinishesMove(k1, m, all, todo - {id}, order[1..], replays);
    }
  }

  lemma {:induction false} ReceivesMove(k: Core, inbox: seq<Incoming>)
    requires Steady(k) && SaneInbox(inbox, k.services) && !ReceiveAll(k, inbox).orphaned
    ensures MovedAll(k, Receives(inbox)) == ReceiveAll(k, inbox) && FineAll(k, Receives(inbox))
    decreases |inbox|
  {
    if k.orphaned {
      ReceiveAllStaysOrphaned(k, inbox);
    }
    if inbox != [] {
      var moves := Receives(inbox);
      var m := Moved(k, moves[0]);
      assert moves[1..] == Receives(inbox[1..]);
      if m.orphaned {
        ReceiveAllStaysOrphaned(m, inbox[1..]);
      }
      ReceiveKeeps(k, inbox[0]);
      ReceivesMove(m, inbox[1..]);
    }
  }

  lemma {:induction false} RemovesMove(k: Core, order: seq<Id>)
    requires Ripe(k) && !k.orphaned
    ensures MovedAll(k, Removes(order)) == RemoveAllIn(k, order) && FineAll(k, Removes(order))
    decreases |order|
  {
    if order != [] {
      var moves := Removes(order);
      assert moves[1..] == Removes(order[1..]);
      RemoveOne(k, order[0]);
      RemovesMove(RemoveIn(k, order[0]), order[1..]);
    }
  }

  lemma {:induction false} ReapsMove(k: Core, batches: seq<seq<Id>>)
    requires Ripe(k) && !k.orphaned
    ensures MovedAll(k, ReapMoves(batches)) == ReapIn(k, batches) && FineAll(k, ReapMoves(batches))
    decreases |batches|
  {
    if batches != [] {
      var k0 := k.(toRemove := {});
      var m := RemoveAllIn(k0, batches[0]);
      RipeWithout(k);
      RemovesMove(k0, batches[0]);
      RemoveAllExact(k0, batches[0]);
      ReapsMove(m, batches[1..]);
      MovedConcat(k0, Removes(batches[0]), ReapMoves(batches[1..]));
      var moves := ReapMoves(batches);
      assert moves[0] == Batch && moves[1..] == Removes(batches[0]) + ReapMoves(batches[1..]);
    }
  }

  lemma ListenMoves(k: Core, p: Pass)
    requires Steady(k) && SanePass(p, k.services) && !ListenIn(k, p).orphaned
    ensures var moves := [Act(p.coroutines), Resume(p.verdicts)];
            MovedAll(k, moves) == ListenIn(k, p) && FineAll(k, moves)
  {
    var moves := [Act(p.coroutines), Resume(p.verdicts)];
    var m := PerformAll(k, p.coroutines);
    ScriptKeeps(k, p.coroutines);
    assert moves[1..] == [Resume(p.verdicts)] && [Resume(p.verdicts)][1..] == [];
    assert MovedAll(m, [Resume(p.verdicts)]) == ListenIn(k, p);
    assert Fine(k, moves[0]) && Fine(m, Resume(p.verdicts));
    assert FineAll(m, [Resume(p.verdicts)]);
  }

  lemma PumpMovesMove(k: Core, p: Pass, order: seq<Id>)
    requires Steady(k) && SanePass(p, k.services) && Enumerates(order, Done(ListenIn(k, p))) && !Pumped(k, p, order).orphaned
    ensures MovedAll(k, PumpMoves(k, p, order)) == Pumped(k, p, order) && FineAll(k, PumpMoves(k, p, order))
  {
    var l := ListenIn(k, p);
    ListenKeeps(k, p);
    if l.orphaned {
      FinishAllStaysOrphaned(ExpireIn(l, p.now), order, p.replays);
    }
    ListenMoves(k, p);
    var first := [Act(p.coroutines), Resume(p.verdicts)];
    if l.activating == map[] {
      assert first + [] == first;
    } else {
      var rest := [Expire(p.now)] + Finishes(order, p.replays);
      FinishMoves(l, p, order);
      MovedConcat(k, first, rest);
    }
  }

  lemma FinishMoves(l: Core, p: Pass, order: seq<Id>)
    requires Sound(l, {}) && !l.orphaned && SanePass(p, l.services) && Enumerates(order, Done(l))
    requires !PumpIn(l, p.now, order, p.replays).orphaned
    ensures var moves := [Expire(p.now)] + Finishes(order, p.replays);
            MovedAll(l, moves) == PumpIn(l, p.now, order, p.replays) && FineAll(l, moves)
  {
    var e := ExpireIn(l, p.now);
    PumpBegins(l, p.now);
    FinishesMove(e, e, Done(e), Done(e), order, p.replays);
    var moves := [Expire(p.now)] + Finishes(order, p.replays);
    assert moves[1..] == Finishes(order, p.replays);
  }

  lemma BusyMovesMove(k: Core, p: Pass, order: seq<Id>)
    requires Steady(k) && SanePass(p, k.services) && Enumerates(order, Done(ListenIn(k, p))) && !BeforeReap(k, p, order).orphaned
    ensures var m := Pumped(k, p, order);
            MovedAll(m, BusyMoves(k, p, order)) == BeforeReap(k, p, order) && FineAll(m, BusyMoves(k, p, order))
  {
    var m := Pumped(k, p, order);
    PumpedKeeps(k, p, order);
    var r := ReceiveAll(m, p.inbox);
    if m.orphaned {
      ReceiveAllStaysOrphaned(m, p.inbox);
    }
    if r.orphaned {
      StaysOrphaned(r, p.callbacks);
    }
    ReceiveAllKeeps(m, p.inbox);
    ReceivesMove(m, p.inbox);
    if r.toRemove == {} {
      var last := [Act(p.callbacks)];
      assert last[1..] == [];
      assert MovedAll(r, last) == PerformAll(r, p.callbacks) && FineAll(r, last);
      MovedConcat(m, Receives(p.inbox), last);
    } else {
      assert BusyMoves(k, p, order) == Receives(p.inbox);
    }
  }

  /** The moves of a pass are fine and lead to where the pass leads. */
  lemma PassMovesMove(k: Core, p: Pass, t: Turn)
    requires Steady(k) && SanePass(p, k.services) && Follows(k, p, t) && !PassIn(k, p, t).orphaned
    ensures MovedAll(k, PassMoves(k, p, t)) == PassIn(k, p, t) && FineAll(k, PassMoves(k, p, t))
  {
    var first := PumpMoves(k, p, t.order);
    if LeavesEarly(k, p, t.order) {
      PumpMovesMove(k, p, t.order);
      assert first + [] == first;
    } else {
      BeforeReapUnharmed(k, p, t);
      PumpMovesMove(k, p, t.order);
      LaterMoves(k, p, t);
      MovedConcat(k, first, BusyMoves(k, p, t.order) + ReapMoves(t.batches));
    }
  }

  lemma LaterMoves(k: Core, p: Pass, t: Turn)
    requires Steady(k) && SanePass(p, k.services) && Follows(k, p, t) && !LeavesEarly(k, p, t.order)
    requires !BeforeReap(k, p, t.order).orphaned
    ensures var moves := BusyMoves(k, p, t.order) + ReapMoves(t.batches);
            MovedAll(Pumped(k, p, t.order), moves) == PassIn(k, p, t) && FineAll(Pumped(k, p, t.order), moves)
  {
    BeforeReapKeeps(k, p, t.order);
    BusyMovesMove(k, p, t.order);
    ReapsMove(BeforeReap(k, p, t.order), t.batches);
    MovedConcat(Pumped(k, p, t.order), BusyMoves(k, p, t.order), ReapMoves(t.batches));
  }

  // ---------------------------------------------------------------- leaving the workflow

  lemma LinkedAtStart(g: T.Config, c: nat, services: nat)
    requires c < g.n
    ensures Linked(T.Start(g), c, Fresh(services))
  {
  }

  /** Driving the first `onInit` of an appended actor stashes nothing. */
  lemma InitStaysLinked(s: T.System, c: nat, k: Core, a: V.FirstInit)
    requires Linked(s, c, k) && Good(k) && !k.orphaned && SaneAll(a.script, k.services, {}) && !V.InitIn(k, a).orphaned
    ensures Linked(s, c, V.InitIn(k, a))
  {
    var m := PerformAll(k, a.script);
    ActStashes(k, a.script);
    forall token
      ensures Held(V.InitIn(k, a).activating, token) == Held(k.activating, token)
    {
      HeldSame(k.activating, m.activating, token);
      HeldSame(m.activating, V.InitIn(k, a).activating, token);
    }
  }

  /** A pass played jointly with the transport, whatever the other threads do meanwhile. */
  ghost predicate Plays(s: T.System, c: nat, k: Core, p: Pass, t: Turn, joints: seq<Joint>)
    requires T.Shape(s)
  {
    Follows(k, p, t) && Legal(s, c, k, joints) && Moves(joints) == PassMoves(k, p, t)
  }

  lemma PassStaysLinked(s: T.System, c: nat, k: Core, p: Pass, t: Turn, joints: seq<Joint>)
    requires Linked(s, c, k) && Steady(k) && SanePass(p, k.services) && Plays(s, c, k, p, t, joints) && !PassIn(k, p, t).orphaned
    ensures Linked(T.Run(s, Steps(joints)), c, PassIn(k, p, t))
  {
    PassMovesMove(k, p, t);
    StaysLinked(s, c, k, joints);
  }

  lemma NothingCounted(es: seq<T.Event>)
    requires forall token :: T.Count(es, token) == 0
    ensures es == []
  {
    if es != [] {
      assert T.Count(es, es[0].token) > 0;
    }
  }

  /** Passes one after the other, with what the transport does meanwhile. */
  datatype Played = Played(pass: Pass, turn: Turn, joints: seq<Joint>)

  ghost predicate PlaysAll(s: T.System, c: nat, k: Core, run: seq<Played>)
    requires T.Shape(s)
    decreases |run|
  {
    run == [] || (
      && SanePass(run[0].pass, k.services) && Plays(s, c, k, run[0].pass, run[0].turn, run[0].joints)
      && PlaysAll(T.Run(s, Steps(run[0].joints)), c, PassIn(k, run[0].pass, run[0].turn), run[1..]))
  }

  ghost function CoreAfter(k: Core, run: seq<Played>): Core
    decreases |run|
  {
    if run == [] then k else CoreAfter(PassIn(k, run[0].pass, run[0].turn), run[1..])
  }

  function StepsAfter(run: seq<Played>): seq<T.Step>
    decreases |run|
  {
    if run == [] then [] else Steps(run[0].joints) + StepsAfter(run[1..])
  }

  /** Over any number of passes the stashes stay in step. */
  lemma {:induction false} WorkflowStaysLinked(s: T.System, c: nat, k: Core, run: seq<Played>)
    requires Linked(s, c, k) && Steady(k) && PlaysAll(s, c, k, run) && !CoreAfter(k, run).orphaned
    ensures Linked(T.Run(s, StepsAfter(run)), c, CoreAfter(k, run)) && Steady(CoreAfter(k, run))
    decreases |run|
  {
    if run != [] {
      var r := PassIn(k, run[0].pass, run[0].turn);
      PassKeeps(k, run[0].pass, run[0].turn);
      if r.orphaned {
        CoreStaysOrphaned(r, run[1..]);
      }
      PassStaysLinked(s, c, k, run[0].pass, run[0].turn, run[0].joints);
      var m := T.Run(s, Steps(run[0].joints));
      WorkflowStaysLinked(m, c, r, run[1..]);
      RunTwice(s, Steps(run[0].joints), StepsAfter(run[1..]));
    }
  }

  lemma {:induction false} CoreStaysOrphaned(k: Core, run: seq<Played>)
    requires k.orphaned
    ensures CoreAfter(k, run).orphaned
    decreases |run|
  {
    if run != [] {
      PassStaysOrphaned(k, run[0].pass, run[0].turn);
      CoreStaysOrphaned(PassIn(k, run[0].pass, run[0].turn), run[1..]);
    }
  }

  /** A core that leaves its workflow may begin to drain: whatever its actors and the other
      threads did, nothing is stashed any more. */
  lemma LeavingAllowsDrain(s: T.System, c: nat, k: Core, run: seq<Played>, last: Played)
    requires Linked(s, c, k) && Steady(k) && PlaysAll(s, c, k, run + [last]) && !CoreAfter(k, run + [last]).orphaned
    requires Left(CoreAfter(k, run), last.pass, last.turn)
    ensures T.Enabled(T.Run(s, StepsAfter(run + [last])), T.BeginDrain(c))
  {
    WorkflowStaysLinked(s, c, k, run + [last]);
    LastPass(s, c, k, run, last);
    var r := T.Run(s, StepsAfter(run + [last]));
    assert forall token :: Held(map[], token) == 0;
    NothingCounted(r.cores[c].stash);
  }

  lemma {:induction false} LastPass(s: T.System, c: nat, k: Core, run: seq<Played>, last: Played)
    requires T.Shape(s) && Steady(k) && PlaysAll(s, c, k, run + [last]) && !CoreAfter(k, run + [last]).orphaned
    requires Left(CoreAfter(k, run), last.pass, last.turn)
    ensures CoreAfter(k, run + [last]).activating == map[]
    decreases |run|
  {
    if run == [] {
      assert run + [last] == [last] && [last][1..] == [];
      PassKeeps(k, last.pass, last.turn);
      assert CoreAfter(k, [last]) == PassIn(k, last.pass, last.turn);
    } else {
      assert (run + [last])[1..] == run[1..] + [last];
      PassKeeps(k, run[0].pass, run[0].turn);
      LastPass(T.Run(s, Steps(run[0].joints)), c, PassIn(k, run[0].pass, run[0].turn), run[1..], last);
    }
  }
}
