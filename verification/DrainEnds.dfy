/** Shutdown ends: when every core is in its residual loop and the cores' rounds are
    interleaved fairly, all of them stop, within a bound on the number of rounds.

    A run is a start state and the list of steps taken from it; `Moment` is the state after
    the first i of them. What a round of a core's loop does is a property of a stretch of the
    run, whatever the other cores do in between. */
module DrainEnds {
  import opened Transport
  import opened TransportTheorems

  // ---------------------------------------------------------------- what is left to deliver

  /** Events queued by core c for core d, another core. */
  function Queued(s: System, c: nat, d: nat): nat
    requires Shape(s) && InRange(s, c, d)
  {
    if d == c then 0 else |At(s, c, d).pipe|
  }

  /** Events queued by core c for other cores among the first k. */
  function Backlog(s: System, c: nat, k: nat): nat
    requires Shape(s) && c < |s.cores| && k <= |s.cores|
  {
    if k == 0 then 0 else Backlog(s, c, k - 1) + Queued(s, c, k - 1)
  }

  /** The first k outbound pipes of c are empty. */
  predicate Clear(s: System, c: nat, k: nat)
    requires Shape(s) && c < |s.cores| && k <= |s.cores|
  {
    forall j :: 0 <= j < k && j != c ==> At(s, c, j).pipe == []
  }

  lemma BacklogStep(s: System, c: nat, k: nat)
    requires Shape(s) && c < |s.cores| && k < |s.cores|
    ensures Backlog(s, c, k + 1) == Backlog(s, c, k) + Queued(s, c, k)
  {
  }

  /** Pipes that do not grow leave no more to deliver, and strictly less if one shrank. */
  lemma {:induction false} BacklogShrinks(s: System, r: System, c: nat, k: nat)
    requires Shape(s) && Shape(r) && c < |s.cores| == |r.cores| && k <= |s.cores|
    requires forall d :: 0 <= d < k && d != c ==> |At(r, c, d).pipe| <= |At(s, c, d).pipe|
    ensures Backlog(r, c, k) <= Backlog(s, c, k)
    ensures (exists d :: 0 <= d < k && d != c && |At(r, c, d).pipe| < |At(s, c, d).pipe|) ==> Backlog(r, c, k) < Backlog(s, c, k)
  {
    if k > 0 {
      BacklogShrinks(s, r, c, k - 1);
    }
  }

  lemma {:induction false} BacklogEmpty(s: System, c: nat, k: nat)
    requires Shape(s) && c < |s.cores| && k <= |s.cores|
    ensures Backlog(s, c, k) == 0 <==> Clear(s, c, k)
  {
    if k > 0 {
      BacklogEmpty(s, c, k - 1);
    }
  }

  /** The cores among the first k that have not stopped, and all they have queued. */
  function Unfinished(s: System, k: nat): nat
    requires Shape(s) && k <= |s.cores|
  {
    if k == 0 then 0
    else Unfinished(s, k - 1) + Backlog(s, k - 1, |s.cores|) + if s.cores[k - 1].phase.Stopped? then 0 else 1
  }

  // ---------------------------------------------------------------- runs

  function Moment(s: System, trace: seq<Step>, i: nat): (m: System)
    requires Shape(s) && i <= |trace|
    ensures Shape(m) && |m.cores| == |s.cores| && m.cap == s.cap
  {
    Run(s, trace[..i])
  }

  lemma NextMoment(s: System, trace: seq<Step>, i: nat)
    requires Shape(s) && i < |trace|
    ensures Moment(s, trace, i + 1) == Apply(Moment(s, trace, i), trace[i])
  {
    assert trace[..i + 1] == trace[..i] + [trace[i]];
    RunConcat(s, trace[..i], [trace[i]]);
    assert [trace[i]][1..] == [];
    assert Run(Moment(s, trace, i), [trace[i]]) == Apply(Moment(s, trace, i), trace[i]);
  }

  /** A run that goes on has the same moments. */
  lemma SameMoment(s: System, trace: seq<Step>, more: seq<Step>, i: nat)
    requires Shape(s) && i <= |trace| && trace <= more
    ensures Moment(s, more, i) == Moment(s, trace, i)
  {
    assert more[..i] == trace[..i];
  }

  // ---------------------------------------------------------------- a round of one core

  /** Between moments j and k core c found what is in the ring of p at j, and at k takes at
      least as much. */
  predicate TakesAll(s: System, trace: seq<Step>, j: nat, k: nat, p: nat, c: nat)
    requires Shape(s) && j <= k < |trace| && p < |s.cores| && c < |s.cores|
  {
    && trace[k].Take? && trace[k].c == p && trace[k].d == c
    && trace[k].n >= |At(Moment(s, trace, j), p, c).ring|
    && At(Moment(s, trace, k), p, c).batch == [] && !Moment(s, trace, k).cores[c].phase.Stopped?
  }

  predicate TookAll(s: System, trace: seq<Step>, lo: nat, hi: nat, p: nat, c: nat)
    requires Shape(s) && hi <= |trace| && p < |s.cores| && c < |s.cores|
  {
    exists j, k | lo <= j < hi && j <= k < hi :: TakesAll(s, trace, j, k, p, c)
  }

  predicate Tried(trace: seq<Step>, lo: nat, hi: nat, c: nat, d: nat)
    requires hi <= |trace|
  {
    exists k | lo <= k < hi :: trace[k] == Attempt(c, d)
  }

  /** One round of the residual loop of core c, after which it goes on: it received from
      every producer what it found, tried every outbound pipe, freed what was queued for
      cores that had stopped, and still has mail for somebody. */
  predicate Round(s: System, trace: seq<Step>, lo: nat, hi: nat, c: nat)
    requires Shape(s) && lo <= hi <= |trace| && c < |s.cores|
  {
    && (forall p :: 0 <= p < |s.cores| && p != c ==> TookAll(s, trace, lo, hi, p, c))
    && (forall d :: 0 <= d < |s.cores| && d != c ==>
          Tried(trace, lo, hi, c, d) || At(Moment(s, trace, hi), c, d).pipe == [])
    && (forall d :: 0 <= d < |s.cores| && d != c && Moment(s, trace, lo).cores[d].phase.Stopped? ==>
          At(Moment(s, trace, hi), c, d).pipe == [])
    && !Clear(Moment(s, trace, hi), c, |s.cores|)
  }

  /** Every core has stopped by the end of the stretch or did a round in it. */
  predicate Fair(s: System, trace: seq<Step>, lo: nat, hi: nat)
    requires Shape(s) && lo <= hi <= |trace|
  {
    forall c :: 0 <= c < |s.cores| ==> Moment(s, trace, hi).cores[c].phase.Stopped? || Round(s, trace, lo, hi, c)
  }

  // ---------------------------------------------------------------- draining never goes back

  predicate Leaving(s: System, c: nat)
    requires c < |s.cores|
  {
    !s.cores[c].phase.Running?
  }

  /** Core c's pipes to other cores only shrink, and one that did not shrink has fed nothing
      into its ring; cores that stopped stay stopped. */
  predicate Drains(s: System, r: System, c: nat)
    requires Shape(s) && Shape(r) && c < |s.cores| == |r.cores|
  {
    && Leaving(r, c)
    && (forall k :: 0 <= k < |s.cores| && s.cores[k].phase.Stopped? ==> r.cores[k].phase.Stopped?)
    && (forall d :: 0 <= d < |s.cores| && d != c ==> LinkDrains(At(s, c, d), At(r, c, d)))
  }

  predicate LinkDrains(l: Link, r: Link) {
    |r.pipe| <= |l.pipe| && (|r.pipe| == |l.pipe| ==> |r.ring| <= |l.ring|)
  }

  /** The core itself changes one of its links. */
  lemma OwnDrains(s: System, i: nat, j: nat, l: Link, r: System, c: nat)
    requires Shape(s) && InRange(s, i, j) && c < |s.cores| && Leaving(s, c)
    requires i == c && j != c ==> LinkDrains(At(s, i, j), l)
    requires Shape(r) && r.cores == Set(s, i, j, l).cores
    ensures Drains(s, r, c)
  {
    forall d | 0 <= d < |s.cores| && d != c
      ensures LinkDrains(At(s, c, d), At(r, c, d))
    {
      assert At(r, c, d) == At(Set(s, i, j, l), c, d);
    }
  }

  lemma SameDrains(s: System, r: System, c: nat)
    requires Shape(s) && Shape(r) && c < |s.cores| == |r.cores| && Leaving(r, c)
    requires forall k :: 0 <= k < |s.cores| && s.cores[k].phase.Stopped? ==> r.cores[k].phase.Stopped?
    requires forall d :: 0 <= d < |s.cores| ==> At(r, c, d) == At(s, c, d)
    ensures Drains(s, r, c)
  {
  }

  lemma OwnStepDrains(s: System, a: Step, c: nat)
    requires Shape(s) && c < |s.cores| && Leaving(s, c) && By(s, a) == c && Enabled(s, a)
    ensures Drains(s, Apply(s, a), c)
  {
    var r := Apply(s, a);
    match a
    case Push(_, _, _) =>
    case Send(_, _, _, _) =>
    case Attempt(i, j) =>
      if Judge(s.cap, At(s, i, j)).Leaves? {
        OwnDrains(s, i, j, LinkLeave(At(s, i, j), Judge(s.cap, At(s, i, j)).fate), r, c);
      } else {
        SameDrains(s, r, c);
      }
    case Take(i, j, n) => OwnDrains(s, i, j, LinkTake(i == j, At(s, i, j), n), r, c);
    case Dispatch(i, j, _) => OwnDrains(s, i, j, LinkDispatch(At(s, i, j)), r, c);
    case Unstash(_, _, _) => SameDrains(s, r, c);
    case BeginDrain(_) =>
    case Abandon(i, j) => OwnDrains(s, i, j, LinkLeave(At(s, i, j), Abandoned), r, c);
    case Stop(_) => SameDrains(s, r, c);
    case Sweep(_, _) =>
  }

  lemma StepDrains(s: System, a: Step, c: nat)
    requires Shape(s) && c < |s.cores| && Leaving(s, c)
    ensures Drains(s, Apply(s, a), c)
  {
    if !Enabled(s, a) {
      SameDrains(s, Apply(s, a), c);
    } else if By(s, a) == c {
      OwnStepDrains(s, a, c);
    } else {
      OneWriter(s, a, c);
      forall d | 0 <= d < |s.cores| && d != c
        ensures LinkDrains(At(s, c, d), At(Apply(s, a), c, d))
      {
        assert OwnerView(At(s, c, d), At(Apply(s, a), c, d));
      }
    }
  }

  lemma DrainsTwice(s: System, m: System, r: System, c: nat)
    requires Shape(s) && Shape(m) && Shape(r) && c < |s.cores| == |m.cores| == |r.cores|
    requires Drains(s, m, c) && Drains(m, r, c)
    ensures Drains(s, r, c)
  {
    forall d | 0 <= d < |s.cores| && d != c
      ensures LinkDrains(At(s, c, d), At(r, c, d))
    {
      assert LinkDrains(At(s, c, d), At(m, c, d)) && LinkDrains(At(m, c, d), At(r, c, d));
    }
  }

  lemma {:induction false} RunDrains(s: System, trace: seq<Step>, i: nat, j: nat, c: nat)
    requires Shape(s) && i <= j <= |trace| && c < |s.cores| && Leaving(Moment(s, trace, i), c)
    ensures Drains(Moment(s, trace, i), Moment(s, trace, j), c)
    decreases j
  {
    if i == j {
      SameDrains(Moment(s, trace, i), Moment(s, trace, j), c);
    } else {
      RunDrains(s, trace, i, j - 1, c);
      NextMoment(s, trace, j - 1);
      StepDrains(Moment(s, trace, j - 1), trace[j - 1], c);
      DrainsTwice(Moment(s, trace, i), Moment(s, trace, j - 1), Moment(s, trace, j), c);
    }
  }

  lemma DrainsBacklog(s: System, r: System, c: nat)
    requires Shape(s) && Shape(r) && c < |s.cores| == |r.cores| && Drains(s, r, c)
    ensures Backlog(r, c, |s.cores|) <= Backlog(s, c, |s.cores|)
    ensures Backlog(r, c, |s.cores|) == Backlog(s, c, |s.cores|) ==>
              forall d :: 0 <= d < |s.cores| && d != c ==> |At(r, c, d).pipe| == |At(s, c, d).pipe|
  {
    forall d | 0 <= d < |s.cores| && d != c
      ensures |At(r, c, d).pipe| <= |At(s, c, d).pipe|
    {
      assert LinkDrains(At(s, c, d), At(r, c, d));
    }
    BacklogShrinks(s, r, c, |s.cores|);
  }

  // ---------------------------------------------------------------- one core, two rounds

  /** If a pipe did not shrink between two moments it did not shrink in between. */
  lemma Unchanged(s: System, trace: seq<Step>, lo: nat, i: nat, hi: nat, c: nat, d: nat)
    requires Shape(s) && lo <= i <= hi <= |trace| && c < |s.cores| && d < |s.cores| && c != d
    requires Leaving(Moment(s, trace, lo), c)
    requires |At(Moment(s, trace, hi), c, d).pipe| == |At(Moment(s, trace, lo), c, d).pipe|
    ensures Leaving(Moment(s, trace, i), c) && |At(Moment(s, trace, i), c, d).pipe| == |At(Moment(s, trace, lo), c, d).pipe|
    ensures |At(Moment(s, trace, i), c, d).ring| <= |At(Moment(s, trace, lo), c, d).ring|
    ensures |At(Moment(s, trace, hi), c, d).ring| <= |At(Moment(s, trace, i), c, d).ring|
  {
    RunDrains(s, trace, lo, i, c);
    assert LinkDrains(At(Moment(s, trace, lo), c, d), At(Moment(s, trace, i), c, d));
    RunDrains(s, trace, i, hi, c);
    assert LinkDrains(At(Moment(s, trace, i), c, d), At(Moment(s, trace, hi), c, d));
  }

  /** A receive of core d empties the ring of c if c wrote nothing into it meanwhile: nobody
      else does. */
  lemma TakeEmpties(s: System, trace: seq<Step>, lo: nat, hi: nat, c: nat, d: nat)
    requires Shape(s) && lo <= hi <= |trace| && c < |s.cores| && d < |s.cores| && c != d
    requires Leaving(Moment(s, trace, lo), c) && TookAll(s, trace, lo, hi, c, d)
    requires |At(Moment(s, trace, hi), c, d).pipe| == |At(Moment(s, trace, lo), c, d).pipe|
    ensures At(Moment(s, trace, hi), c, d).ring == []
  {
    var j, k :| lo <= j < hi && j <= k < hi && TakesAll(s, trace, j, k, c, d);
    Unchanged(s, trace, lo, j, hi, c, d);
    Unchanged(s, trace, j, k, hi, c, d);
    NextMoment(s, trace, k);
    assert At(Moment(s, trace, k + 1), c, d).ring == [];
    Unchanged(s, trace, lo, k + 1, hi, c, d);
  }

  /** An attempt at a pipe whose ring is empty makes the pipe shrink. */
  lemma AttemptShrinks(s: System, c: nat, d: nat)
    requires Shape(s) && InRange(s, c, d) && c != d && !s.cores[c].phase.Stopped?
    requires At(s, c, d).pipe != [] && At(s, c, d).ring == []
    ensures |At(Apply(s, Attempt(c, d)), c, d).pipe| < |At(s, c, d).pipe|
  {
  }

  lemma TriedShrinks(s: System, trace: seq<Step>, lo: nat, hi: nat, c: nat, d: nat)
    requires Shape(s) && lo <= hi <= |trace| && c < |s.cores| && d < |s.cores| && c != d
    requires Leaving(Moment(s, trace, lo), c) && Tried(trace, lo, hi, c, d) && !Moment(s, trace, hi).cores[c].phase.Stopped?
    requires At(Moment(s, trace, lo), c, d).pipe != [] && At(Moment(s, trace, lo), c, d).ring == []
    ensures |At(Moment(s, trace, hi), c, d).pipe| < |At(Moment(s, trace, lo), c, d).pipe|
  {
    var k :| lo <= k < hi && trace[k] == Attempt(c, d);
    RunDrains(s, trace, lo, k, c);
    RunDrains(s, trace, k + 1, hi, c) by {
      NextMoment(s, trace, k);
      StepDrains(Moment(s, trace, k), trace[k], c);
    }
    var a, b, z := Moment(s, trace, lo), Moment(s, trace, k), Moment(s, trace, hi);
    assert LinkDrains(At(a, c, d), At(b, c, d));
    NextMoment(s, trace, k);
    assert LinkDrains(At(Moment(s, trace, k + 1), c, d), At(z, c, d));
    if |At(b, c, d).pipe| == |At(a, c, d).pipe| {
      AttemptShrinks(b, c, d);
    } else {
      StepDrains(b, trace[k], c);
      assert LinkDrains(At(b, c, d), At(Moment(s, trace, k + 1), c, d));
    }
  }

  /** Every other core has stopped by the end of the stretch or received from c in it. */
  predicate PeersReceived(s: System, trace: seq<Step>, lo: nat, hi: nat, c: nat)
    requires Shape(s) && lo <= hi <= |trace| && c < |s.cores|
  {
    forall d :: 0 <= d < |s.cores| && d != c ==> Moment(s, trace, hi).cores[d].phase.Stopped? || TookAll(s, trace, lo, hi, c, d)
  }

  /** Two rounds of a core, in the first of which its peers received, shrink its backlog,
      whatever all the other cores do. */
  lemma TwoRoundsShrink(s: System, trace: seq<Step>, lo: nat, mid: nat, hi: nat, c: nat)
    requires Shape(s) && lo <= mid <= hi <= |trace| && c < |s.cores| && Leaving(Moment(s, trace, lo), c)
    requires Round(s, trace, lo, mid, c) && Round(s, trace, mid, hi, c) && PeersReceived(s, trace, lo, mid, c)
    requires !Moment(s, trace, hi).cores[c].phase.Stopped?
    ensures Backlog(Moment(s, trace, hi), c, |s.cores|) < Backlog(Moment(s, trace, lo), c, |s.cores|)
  {
    var a, b, z := Moment(s, trace, lo), Moment(s, trace, mid), Moment(s, trace, hi);
    RunDrains(s, trace, lo, mid, c);
    RunDrains(s, trace, mid, hi, c);
    DrainsBacklog(a, b, c);
    DrainsBacklog(b, z, c);
    var d :| 0 <= d < |s.cores| && d != c && At(b, c, d).pipe != [];
    assert LinkDrains(At(a, c, d), At(b, c, d)) && LinkDrains(At(b, c, d), At(z, c, d));
    if |At(b, c, d).pipe| == |At(a, c, d).pipe| && !b.cores[d].phase.Stopped? {
      TakeEmpties(s, trace, lo, mid, c, d);
      assert Tried(trace, mid, hi, c, d) ==> |At(z, c, d).pipe| < |At(b, c, d).pipe| by {
        if Tried(trace, mid, hi, c, d) {
          TriedShrinks(s, trace, mid, hi, c, d);
        }
      }
    }
    assert |At(z, c, d).pipe| < |At(a, c, d).pipe|;
  }

  /** Rounds of core c one after the other, in each of which its peers receive. */
  predicate Served(s: System, trace: seq<Step>, at: seq<nat>, c: nat)
    requires Shape(s) && c < |s.cores|
  {
    && at != [] && (forall i :: 0 <= i < |at| ==> at[i] <= |trace|)
    && (forall i :: 0 < i < |at| ==> at[i - 1] <= at[i])
    && (forall i :: 0 < i < |at| ==> Round(s, trace, at[i - 1], at[i], c) && PeersReceived(s, trace, at[i - 1], at[i], c))
    && Leaving(Moment(s, trace, at[0]), c) && !Moment(s, trace, at[|at| - 1]).cores[c].phase.Stopped?
  }

  /** Two rounds later the core is still served and its backlog is smaller. */
  lemma ServedLater(s: System, trace: seq<Step>, at: seq<nat>, c: nat)
    requires Shape(s) && c < |s.cores| && Served(s, trace, at, c) && |at| > 2
    ensures Served(s, trace, at[2..], c)
    ensures Backlog(Moment(s, trace, at[2]), c, |s.cores|) < Backlog(Moment(s, trace, at[0]), c, |s.cores|)
  {
    assert Round(s, trace, at[1 - 1], at[1], c) && Round(s, trace, at[2 - 1], at[2], c);
    Ordered(at, 2, |at| - 1);
    RunDrains(s, trace, at[0], at[2], c);
    RunDrains(s, trace, at[2], at[|at| - 1], c);
    TwoRoundsShrink(s, trace, at[0], at[1], at[2], c);
    var rest := at[2..];
    forall i | 0 < i < |rest|
      ensures rest[i - 1] <= rest[i]
      ensures Round(s, trace, rest[i - 1], rest[i], c) && PeersReceived(s, trace, rest[i - 1], rest[i], c)
    {
      assert rest[i] == at[i + 2] && rest[i - 1] == at[i + 2 - 1];
    }
  }

  /** The residual loop of one core ends: while its peers go on receiving, it goes round at
      most twice per event queued, whatever the other cores do. */
  lemma {:induction false} LoopEnds(s: System, trace: seq<Step>, at: seq<nat>, c: nat)
    requires Shape(s) && c < |s.cores| && Served(s, trace, at, c)
    ensures |at| <= 2 * Backlog(Moment(s, trace, at[0]), c, |s.cores|) + 1
    decreases |at|
  {
    if |at| > 2 {
      ServedLater(s, trace, at, c);
      LoopEnds(s, trace, at[2..], c);
    } else if |at| == 2 {
      assert Round(s, trace, at[1 - 1], at[1], c);
      RunDrains(s, trace, at[0], at[1], c);
      DrainsBacklog(Moment(s, trace, at[0]), Moment(s, trace, at[1]), c);
      BacklogEmpty(Moment(s, trace, at[1]), c, |s.cores|);
    }
  }

  // ---------------------------------------------------------------- all cores

  predicate AllLeaving(s: System) {
    forall c :: 0 <= c < |s.cores| ==> Leaving(s, c)
  }

  /** Nothing more to do than before, and less if a core stopped or delivered something. */
  lemma {:induction false} UnfinishedShrinks(s: System, r: System, k: nat)
    requires Shape(s) && Shape(r) && |r.cores| == |s.cores| && k <= |s.cores|
    requires forall c :: 0 <= c < |s.cores| ==> Drains(s, r, c)
    ensures Unfinished(r, k) <= Unfinished(s, k)
    ensures (exists c :: 0 <= c < k && CoreProgress(s, r, c)) ==> Unfinished(r, k) < Unfinished(s, k)
  {
    if k > 0 {
      UnfinishedShrinks(s, r, k - 1);
      DrainsBacklog(s, r, k - 1);
    }
  }

  predicate CoreProgress(s: System, r: System, c: nat)
    requires Shape(s) && Shape(r) && c < |s.cores| == |r.cores|
  {
    || (r.cores[c].phase.Stopped? && !s.cores[c].phase.Stopped?)
    || Backlog(r, c, |s.cores|) < Backlog(s, c, |s.cores|)
  }

  lemma AllDrain(s: System, trace: seq<Step>, lo: nat, hi: nat)
    requires Shape(s) && lo <= hi <= |trace| && AllLeaving(Moment(s, trace, lo))
    ensures forall c :: 0 <= c < |s.cores| ==> Drains(Moment(s, trace, lo), Moment(s, trace, hi), c)
    ensures AllLeaving(Moment(s, trace, hi))
  {
    forall c | 0 <= c < |s.cores|
      ensures Drains(Moment(s, trace, lo), Moment(s, trace, hi), c) && Leaving(Moment(s, trace, hi), c)
    {
      assert Leaving(Moment(s, trace, lo), c);
      RunDrains(s, trace, lo, hi, c);
    }
  }

  /** In a fair stretch in which nobody stops, the peers of every running core receive. */
  lemma FairServes(s: System, trace: seq<Step>, lo: nat, hi: nat, c: nat)
    requires Shape(s) && lo <= hi <= |trace| && c < |s.cores| && Fair(s, trace, lo, hi)
    ensures PeersReceived(s, trace, lo, hi, c)
  {
    forall d | 0 <= d < |s.cores| && d != c && !Moment(s, trace, hi).cores[d].phase.Stopped?
      ensures TookAll(s, trace, lo, hi, c, d)
    {
      assert Round(s, trace, lo, hi, d);
    }
  }

  /** Two fair stretches leave less to do. */
  lemma TwoRoundsProgress(s: System, trace: seq<Step>, lo: nat, mid: nat, hi: nat)
    requires Shape(s) && lo <= mid <= hi <= |trace| && AllLeaving(Moment(s, trace, lo))
    requires Fair(s, trace, lo, mid) && Fair(s, trace, mid, hi) && !AllStopped(Moment(s, trace, lo))
    ensures Unfinished(Moment(s, trace, hi), |s.cores|) < Unfinished(Moment(s, trace, lo), |s.cores|)
  {
    var a, z := Moment(s, trace, lo), Moment(s, trace, hi);
    AllDrain(s, trace, lo, mid);
    AllDrain(s, trace, mid, hi);
    AllDrain(s, trace, lo, hi);
    UnfinishedShrinks(a, z, |s.cores|);
    var c :| 0 <= c < |s.cores| && !a.cores[c].phase.Stopped?;
    if !z.cores[c].phase.Stopped? {
      assert Drains(Moment(s, trace, mid), z, c);
      FairServes(s, trace, lo, mid, c);
      assert Leaving(a, c);
      TwoRoundsShrink(s, trace, lo, mid, hi, c);
    }
    assert CoreProgress(a, z, c);
  }

  /** Moments in order, each stretch between two of them fair. */
  predicate FairRun(s: System, trace: seq<Step>, at: seq<nat>)
    requires Shape(s)
  {
    && at != [] && (forall i :: 0 <= i < |at| ==> at[i] <= |trace|)
    && (forall i :: 0 < i < |at| ==> at[i - 1] <= at[i])
    && (forall i :: 0 < i < |at| ==> Fair(s, trace, at[i - 1], at[i]))
  }

  /** No deadlock at shutdown: once every core is in its residual loop, twice as many fair
      rounds as there are events queued and cores running stop all of them. */
  lemma {:induction false} AllCoresStop(s: System, trace: seq<Step>, at: seq<nat>)
    requires Shape(s) && FairRun(s, trace, at) && AllLeaving(Moment(s, trace, at[0]))
    requires |at| > 2 * Unfinished(Moment(s, trace, at[0]), |s.cores|)
    ensures AllStopped(Moment(s, trace, at[|at| - 1]))
    decreases |at|
  {
    if AllStopped(Moment(s, trace, at[0])) {
      Ordered(at, 0, |at| - 1);
      AllDrain(s, trace, at[0], at[|at| - 1]);
      assert |s.cores| > 0 ==> Drains(Moment(s, trace, at[0]), Moment(s, trace, at[|at| - 1]), 0);
    } else {
      SomethingUnfinished(Moment(s, trace, at[0]), |s.cores|);
      assert Fair(s, trace, at[1 - 1], at[1]) && Fair(s, trace, at[2 - 1], at[2]);
      TwoRoundsProgress(s, trace, at[0], at[1], at[2]);
      AllDrain(s, trace, at[0], at[2]);
      var rest := at[2..];
      forall i | 0 < i < |rest|
        ensures rest[i - 1] <= rest[i] && Fair(s, trace, rest[i - 1], rest[i])
      {
        assert rest[i] == at[i + 2] && rest[i - 1] == at[i + 2 - 1];
      }
      AllCoresStop(s, trace, rest);
    }
  }

  lemma {:induction false} Ordered(at: seq<nat>, i: nat, j: nat)
    requires i <= j < |at| && forall k :: 0 < k < |at| ==> at[k - 1] <= at[k]
    ensures at[i] <= at[j]
    decreases j
  {
    if i < j {
      Ordered(at, i, j - 1);
    }
  }

  lemma {:induction false} SomethingUnfinished(s: System, k: nat)
    requires Shape(s) && k <= |s.cores|
    ensures (exists c :: 0 <= c < k && !s.cores[c].phase.Stopped?) ==> Unfinished(s, k) > 0
  {
    if k > 0 {
      SomethingUnfinished(s, k - 1);
    }
  }
}
