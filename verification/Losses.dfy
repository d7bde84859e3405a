/** What may be lost: the ledger of lost payloads is exactly the best-effort events that the
    logs of the links record as dropped. Everything else that was created is resident or was
    freed. */
module Losses {
  import opened Transport
  import opened TransportSafety

  // ---------------------------------------------------------------- what the logs say

  /** How often a log records the payload `t` as lost. */
  function LostIn(log: seq<Exit>, t: nat): nat {
    if log == [] then 0 else (if log[0].fate.Lost? && log[0].event.token == t then 1 else 0) + LostIn(log[1..], t)
  }

  function RowLost(row: seq<Link>, t: nat): nat {
    if row == [] then 0 else LostIn(row[0].log, t) + RowLost(row[1..], t)
  }

  /** How often the logs of all links record it. */
  function AllLost(cores: seq<Core>, t: nat): nat {
    if cores == [] then 0 else RowLost(cores[0].out, t) + AllLost(cores[1..], t)
  }

  /** The ledger of lost payloads is, as a multiset, what the logs record. */
  ghost predicate Booked(s: System) {
    forall t: nat :: Occ(s.ledger.lost, t) == AllLost(s.cores, t)
  }

  /** Some link dropped the payload `t`: a best-effort event that its ring could hold. */
  predicate Dropped(s: System, t: nat)
    requires Shape(s)
  {
    exists c, d | 0 <= c < |s.cores| && 0 <= d < |s.cores| :: DroppedOn(s.cap, At(s, c, d).log, t)
  }

  predicate DroppedOn(cap: nat, log: seq<Exit>, t: nat) {
    exists i | 0 <= i < |log| :: log[i].fate.Lost? && log[i].event.token == t && log[i].event.qos == 0 && log[i].event.width <= cap
  }

  // ---------------------------------------------------------------- sums over logs

  lemma {:induction false} LostConcat(a: seq<Exit>, b: seq<Exit>, t: nat)
    ensures LostIn(a + b, t) == LostIn(a, t) + LostIn(b, t)
    decreases |a|
  {
    if a == [] {
      assert a + b == b;
    } else {
      LostConcat(a[1..], b, t);
      assert (a + b)[1..] == a[1..] + b;
    }
  }

  lemma {:induction false} SentLosesNothing(es: seq<Event>, t: nat)
    ensures LostIn(All(es, Sent), t) == 0
    decreases |es|
  {
    if es != [] {
      SentLosesNothing(es[1..], t);
      assert All(es, Sent)[1..] == All(es[1..], Sent);
    }
  }

  lemma {:induction false} RowLostUpdate(row: seq<Link>, d: nat, l: Link, t: nat)
    requires d < |row|
    ensures RowLost(row[d := l], t) + LostIn(row[d].log, t) == RowLost(row, t) + LostIn(l.log, t)
    decreases |row|
  {
    var row' := row[d := l];
    if d == 0 {
      assert row'[1..] == row[1..];
    } else {
      assert row'[1..] == row[1..][d - 1 := l];
      RowLostUpdate(row[1..], d - 1, l, t);
    }
  }

  lemma {:induction false} AllLostUpdate(cores: seq<Core>, c: nat, k: Core, t: nat)
    requires c < |cores|
    ensures AllLost(cores[c := k], t) + RowLost(cores[c].out, t) == AllLost(cores, t) + RowLost(k.out, t)
    decreases |cores|
  {
    var cores' := cores[c := k];
    if c == 0 {
      assert cores'[1..] == cores[1..];
    } else {
      assert cores'[1..] == cores[1..][c - 1 := k];
      AllLostUpdate(cores[1..], c - 1, k, t);
    }
  }

  /** Only the log of the changed link matters. */
  lemma SetLost(s: System, c: nat, d: nat, l: Link, t: nat)
    requires Shape(s) && InRange(s, c, d)
    ensures AllLost(Set(s, c, d, l).cores, t) + LostIn(At(s, c, d).log, t) == AllLost(s.cores, t) + LostIn(l.log, t)
  {
    AllLostUpdate(s.cores, c, s.cores[c].(out := s.cores[c].out[d := l]), t);
    RowLostUpdate(s.cores[c].out, d, l, t);
  }

  // ---------------------------------------------------------------- every step

  /** A change that leaves the ledger of losses and what the logs say about them alone. */
  lemma SetBooked(s: System, c: nat, d: nat, l: Link, r: System)
    requires Shape(s) && InRange(s, c, d) && Booked(s)
    requires r.ledger.lost == s.ledger.lost && r.cores == Set(s, c, d, l).cores
    requires forall t: nat :: LostIn(l.log, t) == LostIn(At(s, c, d).log, t)
    ensures Booked(r)
  {
    forall t: nat
      ensures Occ(r.ledger.lost, t) == AllLost(r.cores, t)
    {
      SetLost(s, c, d, l, t);
    }
  }

  /** Stashes and phases do not matter. */
  lemma CoreBooked(s: System, c: nat, k: Core, r: System)
    requires c < |s.cores| && Booked(s) && k.out == s.cores[c].out
    requires r.ledger.lost == s.ledger.lost && r.cores == s.cores[c := k]
    ensures Booked(r)
  {
    forall t: nat
      ensures Occ(r.ledger.lost, t) == AllLost(r.cores, t)
    {
      AllLostUpdate(s.cores, c, k, t);
    }
  }

  lemma SettleBooked(s: System, d: nat, e: Event, how: Outcome)
    requires Shape(s) && d < |s.cores| && Booked(s)
    ensures Booked(Settle(s, d, e, how))
  {
    match how
    case Consume =>
    case Hold =>
      CoreBooked(s, d, s.cores[d].(stash := s.cores[d].stash + [e]), Settle(s, d, e, how));
    case _ =>
      var e' := Redirected(e, how);
      var to := Slot(s.route, e'.dest);
      SetBooked(s, d, to, LinkSend(s.cap, d == to, At(s, d, to), e', how.front), Settle(s, d, e, how));
  }

  /** A loss enters both books; another way out of a pipe enters neither. */
  lemma DepartBooked(s: System, c: nat, d: nat, f: Fate)
    requires Shape(s) && InRange(s, c, d) && At(s, c, d).pipe != [] && Booked(s)
    ensures Booked(Depart(s, c, d, f))
  {
    var l, r := At(s, c, d), Depart(s, c, d, f);
    var x := Exit(l.pipe[0], f);
    forall t: nat
      ensures Occ(r.ledger.lost, t) == AllLost(r.cores, t)
    {
      SetLost(s, c, d, LinkLeave(l, f), t);
      LostConcat(l.log, [x], t);
      OccConcat(s.ledger.lost, [l.pipe[0].token], t);
      assert [x][1..] == [];
    }
  }

  lemma TakeBooked(s: System, a: Step)
    requires Shape(s) && a.Take? && Enabled(s, a) && Booked(s)
    ensures Booked(Apply(s, a))
  {
    var l := At(s, a.c, a.d);
    forall t: nat
      ensures LostIn(LinkTake(a.c == a.d, l, a.n).log, t) == LostIn(l.log, t)
    {
      LostConcat(l.log, All(l.pipe, Sent), t);
      SentLosesNothing(l.pipe, t);
    }
    SetBooked(s, a.c, a.d, LinkTake(a.c == a.d, l, a.n), Apply(s, a));
  }

  lemma HandleBooked(s: System, a: Step)
    requires Shape(s) && (a.Dispatch? || a.Unstash?) && Enabled(s, a) && Booked(s)
    ensures Booked(Apply(s, a))
  {
    if a.Dispatch? {
      var l := At(s, a.c, a.d);
      var m := Set(s, a.c, a.d, LinkDispatch(l));
      SetBooked(s, a.c, a.d, LinkDispatch(l), m);
      SettleBooked(m, a.d, l.batch[0], a.how);
    } else {
      var st := s.cores[a.d].stash;
      var m := SetStash(s, a.d, st[..a.i] + st[a.i + 1..]);
      CoreBooked(s, a.d, s.cores[a.d].(stash := st[..a.i] + st[a.i + 1..]), m);
      SettleBooked(m, a.d, st[a.i], a.how);
    }
  }

  lemma StepKeepsBooked(s: System, a: Step)
    requires Shape(s) && Booked(s)
    ensures Booked(Apply(s, a))
  {
    if Enabled(s, a) {
      match a
      case Push(c, d, e) => SetBooked(s, c, d, LinkPush(At(s, c, d), e), Apply(s, a));
      case Send(c, d, e, front) => SetBooked(s, c, d, LinkSend(s.cap, c == d, At(s, c, d), e, front), Apply(s, a));
      case Attempt(c, d) =>
        if Judge(s.cap, At(s, c, d)).Leaves? {
          DepartBooked(s, c, d, Judge(s.cap, At(s, c, d)).fate);
        }
      case Take(_, _, _) => TakeBooked(s, a);
      case Dispatch(_, _, _) => HandleBooked(s, a);
      case Unstash(_, _, _) => HandleBooked(s, a);
      case BeginDrain(c) => CoreBooked(s, c, s.cores[c].(phase := Draining), Apply(s, a));
      case Abandon(c, d) => DepartBooked(s, c, d, Abandoned);
      case Stop(c) => CoreBooked(s, c, s.cores[c].(phase := Stopped), Apply(s, a));
      case Sweep(c, d) => SetBooked(s, c, d, LinkSweep(At(s, c, d)), Apply(s, a));
    }
  }

  /** After every run the ledger of losses is what the logs record. */
  lemma {:induction false} RunKeepsBooked(s: System, steps: seq<Step>)
    requires Shape(s) && Booked(s)
    ensures Booked(Run(s, steps))
    decreases |steps|
  {
    if steps != [] {
      StepKeepsBooked(s, steps[0]);
      RunKeepsBooked(Apply(s, steps[0]), steps[1..]);
    }
  }

  lemma StartBooked(g: Config)
    ensures Booked(Start(g))
  {
    forall t: nat
      ensures AllLost(Start(g).cores, t) == 0
    {
      NoneLost(Start(g).cores, t);
    }
  }

  lemma {:induction false} NoneLost(cores: seq<Core>, t: nat)
    requires forall c, d :: 0 <= c < |cores| && 0 <= d < |cores[c].out| ==> LostIn(cores[c].out[d].log, t) == 0
    ensures AllLost(cores, t) == 0
    decreases |cores|
  {
    if cores != [] {
      NoneLostInRow(cores[0].out, t);
      NoneLost(cores[1..], t);
    }
  }

  lemma {:induction false} NoneLostInRow(row: seq<Link>, t: nat)
    requires forall d :: 0 <= d < |row| ==> LostIn(row[d].log, t) == 0
    ensures RowLost(row, t) == 0
    decreases |row|
  {
    if row != [] {
      NoneLostInRow(row[1..], t);
    }
  }

  // ---------------------------------------------------------------- what was lost

  lemma {:induction false} LostIffDroppedOn(cap: nat, log: seq<Exit>, t: nat)
    requires forall i :: 0 <= i < |log| ==> Justified(cap, log[i])
    ensures LostIn(log, t) > 0 <==> DroppedOn(cap, log, t)
    decreases |log|
  {
    if log != [] {
      LostIffDroppedOn(cap, log[1..], t);
      assert forall i :: 0 < i < |log| ==> log[i] == log[1..][i - 1];
      if DroppedOn(cap, log[1..], t) {
        var i :| 0 <= i < |log[1..]| && log[1..][i].fate.Lost? && log[1..][i].event.token == t
                 && log[1..][i].event.qos == 0 && log[1..][i].event.width <= cap;
        assert log[i + 1] == log[1..][i];
      }
      assert Justified(cap, log[0]);
    }
  }

  /** Exactly the best-effort events that some link dropped are lost. */
  lemma LostIffDropped(s: System, t: nat)
    requires Inv(s) && Booked(s)
    ensures Occ(s.ledger.lost, t) > 0 <==> Dropped(s, t)
  {
    if Dropped(s, t) {
      var c, d :| 0 <= c < |s.cores| && 0 <= d < |s.cores| && DroppedOn(s.cap, At(s, c, d).log, t);
      assert LinkOk(s.cap, c == d, At(s, c, d));
      LostIffDroppedOn(s.cap, At(s, c, d).log, t);
      SetLost(s, c, d, EMPTY_LINK, t);
    } else {
      forall c, d | 0 <= c < |s.cores| && 0 <= d < |s.cores[c].out|
        ensures LostIn(s.cores[c].out[d].log, t) == 0
      {
        assert !DroppedOn(s.cap, At(s, c, d).log, t) && LinkOk(s.cap, c == d, At(s, c, d));
        LostIffDroppedOn(s.cap, At(s, c, d).log, t);
      }
      NoneLost(s.cores, t);
    }
  }

  /** What was created and not dropped was freed once or is resident once; what was dropped
      is neither, and was lost once. */
  lemma FreedOrResident(s: System, t: nat)
    requires Inv(s) && Booked(s)
    ensures Occ(s.ledger.lost, t) == if Dropped(s, t) then 1 else 0
    ensures Occ(s.ledger.disposed, t) + Resident(s.cores, t) == if t in s.ledger.created && !Dropped(s, t) then 1 else 0
    ensures Dropped(s, t) ==> t in s.ledger.created
  {
    assert Balanced(s, t);
    LostIffDropped(s, t);
    if t in s.ledger.created {
      OccPresent(s.ledger.created, t);
    } else {
      OccAbsent(s.ledger.created, t);
    }
  }

  lemma {:induction false} OccPresent(ts: seq<nat>, t: nat)
    requires t in ts
    ensures Occ(ts, t) >= 1
  {
    if ts[0] != t {
      OccPresent(ts[1..], t);
    }
  }
}
