/** What every step of the transport keeps, and what follows for whole runs: each payload
    is owned exactly once, pushes stay in order, rings stay within capacity, and a
    deliverable guaranteed event is discarded only once its destination has stopped. */
module TransportSafety {
  import opened Transport

  // ---------------------------------------------------------------- the invariant

  /** Every payload ever created is destroyed, dropped best-effort or resident, once. */
  ghost predicate Books(s: System) {
    forall t: nat :: Balanced(s, t)
  }

  predicate Balanced(s: System, t: nat) {
    && Occ(s.ledger.created, t) == Occ(s.ledger.disposed, t) + Occ(s.ledger.lost, t) + Resident(s.cores, t)
    && Occ(s.ledger.created, t) <= 1
  }

  /** Pushes leave the pipe in push order, and those that were not dropped are dispatched
      in that same order. Events that entered through `send` may sit anywhere between. */
  predicate Fifo(l: Link) {
    && l.pushed == PushOnly(Events(l.log) + l.pipe)
    && PushOnly(Survivors(l.log)) == PushOnly(Mail(l))
  }

  /** Everything that ever crossed, oldest first. */
  function Mail(l: Link): seq<Event> {
    l.received + l.batch + l.swept + l.ring
  }

  /** A dropped event was dropped for the reason recorded. */
  predicate Justified(cap: nat, x: Exit) {
    match x.fate
    case Sent => true
    case Oversize => x.event.width > cap
    case Lost => x.event.width <= cap && x.event.qos == 0
    case Abandoned => true
  }

  predicate LinkOk(cap: nat, self: bool, l: Link) {
    && Fifo(l)
    && Width(l.ring) <= cap
    && (self ==> l.ring == [])
    && (forall i :: 0 <= i < |l.log| ==> Justified(cap, l.log[i]))
  }

  /** A link whose consumer has not stopped has lost nothing to the shutdown. */
  predicate Unharmed(l: Link) {
    && l.swept == []
    && (forall i :: 0 <= i < |l.log| ==> !l.log[i].fate.Abandoned?)
  }

  /** What the phases of the two ends of a link say about it. */
  predicate PhaseOk(p: Phase, q: Phase, l: Link) {
    && (p.Stopped? ==> l.pipe == [])
    && (q.Stopped? ==> l.batch == [])
    && (!q.Stopped? ==> Unharmed(l))
  }

  predicate LinksOk(s: System)
    requires Shape(s)
  {
    forall c, d :: 0 <= c < |s.cores| && 0 <= d < |s.cores| ==>
      LinkOk(s.cap, c == d, At(s, c, d)) && PhaseOk(s.cores[c].phase, s.cores[d].phase, At(s, c, d))
  }

  predicate StashesOk(s: System) {
    forall c :: 0 <= c < |s.cores| && !s.cores[c].phase.Running? ==> s.cores[c].stash == []
  }

  ghost predicate Inv(s: System) {
    Shape(s) && Books(s) && LinksOk(s) && StashesOk(s)
  }

  // ---------------------------------------------------------------- algebra of lists

  lemma {:induction false} CountConcat(a: seq<Event>, b: seq<Event>, t: nat)
    ensures Count(a + b, t) == Count(a, t) + Count(b, t)
  {
    if a == [] {
      assert a + b == b;
    } else {
      CountConcat(a[1..], b, t);
      assert (a + b)[1..] == a[1..] + b;
    }
  }

  lemma {:induction false} OccConcat(a: seq<nat>, b: seq<nat>, t: nat)
    ensures Occ(a + b, t) == Occ(a, t) + Occ(b, t)
  {
    if a == [] {
      assert a + b == b;
    } else {
      OccConcat(a[1..], b, t);
      assert (a + b)[1..] == a[1..] + b;
    }
  }

  lemma {:induction false} OccTokens(es: seq<Event>, t: nat)
    ensures Occ(Tokens(es), t) == Count(es, t)
  {
    if es != [] {
      OccTokens(es[1..], t);
      assert Tokens(es)[1..] == Tokens(es[1..]);
    }
  }

  lemma {:induction false} OccAbsent(ts: seq<nat>, t: nat)
    requires t !in ts
    ensures Occ(ts, t) == 0
  {
    if ts != [] {
      OccAbsent(ts[1..], t);
    }
  }

  lemma {:induction false} WidthConcat(a: seq<Event>, b: seq<Event>)
    ensures Width(a + b) == Width(a) + Width(b)
  {
    if a == [] {
      assert a + b == b;
    } else {
      WidthConcat(a[1..], b);
      assert (a + b)[1..] == a[1..] + b;
    }
  }

  lemma {:induction false} PushOnlyConcat(a: seq<Event>, b: seq<Event>)
    ensures PushOnly(a + b) == PushOnly(a) + PushOnly(b)
  {
    if a == [] {
      assert a + b == b;
    } else {
      PushOnlyConcat(a[1..], b);
      assert (a + b)[1..] == a[1..] + b;
      var first := if a[0].viaPush then [a[0]] else [];
      assert PushOnly(a + b) == first + (PushOnly(a[1..]) + PushOnly(b));
      assert PushOnly(a) == first + PushOnly(a[1..]);
    }
  }

  lemma {:induction false} SurvivorsConcat(a: seq<Exit>, b: seq<Exit>)
    ensures Survivors(a + b) == Survivors(a) + Survivors(b)
  {
    if a == [] {
      assert a + b == b;
    } else {
      SurvivorsConcat(a[1..], b);
      assert (a + b)[1..] == a[1..] + b;
    }
  }

  lemma {:induction false} SurvivorsAll(es: seq<Event>, f: Fate)
    ensures Survivors(All(es, f)) == if f.Sent? then es else []
  {
    if es != [] {
      SurvivorsAll(es[1..], f);
      assert All(es, f)[1..] == All(es[1..], f);
    }
  }

  // ---------------------------------------------------------------- links, one operation each

  lemma PushLink(cap: nat, self: bool, l: Link, e: Event, t: nat)
    requires LinkOk(cap, self, l) && e.viaPush
    ensures LinkOk(cap, self, LinkPush(l, e))
    ensures LinkCount(LinkPush(l, e), t) == LinkCount(l, t) + Count([e], t)
  {
    assert Events(l.log) + (l.pipe + [e]) == (Events(l.log) + l.pipe) + [e];
    PushOnlyConcat(Events(l.log) + l.pipe, [e]);
    assert PushOnly([e]) == [e];
    CountConcat(l.pipe, [e], t);
  }

  lemma SendLink(cap: nat, self: bool, l: Link, e: Event, front: bool, t: nat)
    requires LinkOk(cap, self, l) && !e.viaPush
    ensures LinkOk(cap, self, LinkSend(cap, self, l, e, front))
    ensures LinkCount(LinkSend(cap, self, l, e, front), t) == LinkCount(l, t) + Count([e], t)
  {
    assert PushOnly([e]) == [];
    if !self && Room(cap, l, e) {
      assert Mail(l.(ring := l.ring + [e])) == Mail(l) + [e];
      PushOnlyConcat(Mail(l), [e]);
      WidthConcat(l.ring, [e]);
      CountConcat(l.ring, [e], t);
    } else if front {
      PushOnlyConcat(Events(l.log), l.pipe);
      PushOnlyConcat(Events(l.log), [e] + l.pipe);
      PushOnlyConcat([e], l.pipe);
      CountConcat([e], l.pipe, t);
    } else {
      assert Events(l.log) + (l.pipe + [e]) == (Events(l.log) + l.pipe) + [e];
      PushOnlyConcat(Events(l.log) + l.pipe, [e]);
      CountConcat(l.pipe, [e], t);
    }
  }

  lemma LeaveLink(cap: nat, l: Link, f: Fate, t: nat)
    requires LinkOk(cap, false, l) && l.pipe != [] && Justified(cap, Exit(l.pipe[0], f))
    requires f.Sent? ==> Room(cap, l, l.pipe[0])
    ensures LinkOk(cap, false, LinkLeave(l, f))
    ensures LinkCount(l, t) == LinkCount(LinkLeave(l, f), t) + if f.Sent? then 0 else Count([l.pipe[0]], t)
  {
    LeaveOrder(l, f);
    LeaveCount(l, f, t);
    WidthConcat(l.ring, [l.pipe[0]]);
  }

  lemma LeaveCount(l: Link, f: Fate, t: nat)
    requires l.pipe != []
    ensures LinkCount(l, t) == LinkCount(LinkLeave(l, f), t) + if f.Sent? then 0 else Count([l.pipe[0]], t)
  {
    var e := l.pipe[0];
    assert Count([e], t) == if e.token == t then 1 else 0;
    CountConcat(l.ring, [e], t);
  }

  /** Leaving a pipe from its head keeps the order. */
  lemma LeaveOrder(l: Link, f: Fate)
    requires Fifo(l) && l.pipe != []
    ensures Fifo(LinkLeave(l, f))
  {
    var e, x := l.pipe[0], [Exit(l.pipe[0], f)];
    assert Events(l.log + x) + l.pipe[1..] == Events(l.log) + l.pipe;
    SurvivorsConcat(l.log, x);
    assert Survivors(x) == if f.Sent? then [e] else [];
    if f.Sent? {
      assert Mail(LinkLeave(l, f)) == Mail(l) + [e];
      PushOnlyConcat(Mail(l), [e]);
      PushOnlyConcat(Survivors(l.log), [e]);
    } else {
      assert Survivors(l.log + x) == Survivors(l.log);
    }
  }

  /** The self-pipe swap keeps the order. */
  lemma SwapOrder(l: Link)
    requires Fifo(l) && l.batch == [] && l.swept == [] && l.ring == []
    ensures Fifo(LinkTake(true, l, 0))
  {
    var r := LinkTake(true, l, 0);
    SwapSurvives(l.log, l.pipe);
    assert Events(r.log) + r.pipe == Events(l.log) + l.pipe;
    assert Mail(l) == l.received && Mail(r) == l.received + l.pipe;
    PushOnlyConcat(l.received, l.pipe);
    PushOnlyConcat(Survivors(l.log), l.pipe);
  }

  lemma SwapSurvives(log: seq<Exit>, pipe: seq<Event>)
    ensures Events(log + All(pipe, Sent)) == Events(log) + pipe
    ensures Survivors(log + All(pipe, Sent)) == Survivors(log) + pipe
  {
    SurvivorsConcat(log, All(pipe, Sent));
    SurvivorsAll(pipe, Sent);
  }

  lemma SwapLink(cap: nat, l: Link, n: nat, t: nat)
    requires LinkOk(cap, true, l) && l.batch == [] && l.swept == []
    ensures LinkOk(cap, true, LinkTake(true, l, n))
    ensures LinkCount(LinkTake(true, l, n), t) == LinkCount(l, t)
  {
    SwapOrder(l);
  }

  lemma DrainLink(cap: nat, l: Link, n: nat, t: nat)
    requires LinkOk(cap, false, l) && l.batch == [] && l.swept == [] && n <= |l.ring|
    ensures LinkOk(cap, false, LinkTake(false, l, n))
    ensures LinkCount(LinkTake(false, l, n), t) == LinkCount(l, t)
  {
    assert l.ring[..n] + l.ring[n..] == l.ring;
    assert Mail(LinkTake(false, l, n)) == Mail(l);
    CountConcat(l.ring[..n], l.ring[n..], t);
    WidthConcat(l.ring[..n], l.ring[n..]);
  }

  lemma TakeLink(cap: nat, self: bool, l: Link, n: nat, t: nat)
    requires LinkOk(cap, self, l) && l.batch == [] && l.swept == []
    ensures LinkOk(cap, self, LinkTake(self, l, n))
    ensures LinkCount(LinkTake(self, l, n), t) == LinkCount(l, t)
  {
    if self {
      SwapLink(cap, l, n, t);
    } else {
      DrainLink(cap, l, if n <= |l.ring| then n else |l.ring|, t);
    }
  }

  lemma DispatchLink(cap: nat, self: bool, l: Link, t: nat)
    requires LinkOk(cap, self, l) && l.batch != []
    ensures LinkOk(cap, self, LinkDispatch(l))
    ensures LinkCount(l, t) == LinkCount(LinkDispatch(l), t) + Count([l.batch[0]], t)
  {
    assert Mail(LinkDispatch(l)) == Mail(l);
    CountConcat([l.batch[0]], l.batch[1..], t);
    assert [l.batch[0]] + l.batch[1..] == l.batch;
  }

  lemma SweepLink(cap: nat, self: bool, l: Link, t: nat)
    requires LinkOk(cap, self, l)
    ensures LinkOk(cap, self, LinkSweep(l))
    ensures LinkCount(l, t) == LinkCount(LinkSweep(l), t) + Count(l.ring, t)
  {
    assert Mail(LinkSweep(l)) == Mail(l);
  }

  // ---------------------------------------------------------------- from links to systems

  lemma {:induction false} RowCountUpdate(row: seq<Link>, d: nat, l: Link, t: nat)
    requires d < |row|
    ensures RowCount(row[d := l], t) + LinkCount(row[d], t) == RowCount(row, t) + LinkCount(l, t)
  {
    var row' := row[d := l];
    if d == 0 {
      assert row'[1..] == row[1..];
    } else {
      assert row'[1..] == row[1..][d - 1 := l];
      RowCountUpdate(row[1..], d - 1, l, t);
    }
  }

  lemma {:induction false} ResidentUpdate(cores: seq<Core>, c: nat, k: Core, t: nat)
    requires c < |cores|
    ensures Resident(cores[c := k], t) + CoreCount(cores[c], t) == Resident(cores, t) + CoreCount(k, t)
  {
    var cores' := cores[c := k];
    if c == 0 {
      assert cores'[1..] == cores[1..];
    } else {
      assert cores'[1..] == cores[1..][c - 1 := k];
      ResidentUpdate(cores[1..], c - 1, k, t);
    }
  }

  lemma SetCount(s: System, c: nat, d: nat, l: Link, t: nat)
    requires Shape(s) && InRange(s, c, d)
    ensures Resident(Set(s, c, d, l).cores, t) + LinkCount(At(s, c, d), t) == Resident(s.cores, t) + LinkCount(l, t)
  {
    ResidentUpdate(s.cores, c, s.cores[c].(out := s.cores[c].out[d := l]), t);
    RowCountUpdate(s.cores[c].out, d, l, t);
  }

  lemma StashCount(s: System, c: nat, stash: seq<Event>, t: nat)
    requires Shape(s) && c < |s.cores|
    ensures Resident(SetStash(s, c, stash).cores, t) + Count(s.cores[c].stash, t) == Resident(s.cores, t) + Count(stash, t)
  {
    ResidentUpdate(s.cores, c, s.cores[c].(stash := stash), t);
  }

  lemma SetKeeps(s: System, c: nat, d: nat, l: Link)
    requires Shape(s) && InRange(s, c, d) && LinksOk(s)
    requires LinkOk(s.cap, c == d, l) && PhaseOk(s.cores[c].phase, s.cores[d].phase, l)
    ensures LinksOk(Set(s, c, d, l))
  {
    var r := Set(s, c, d, l);
    forall i, j | 0 <= i < |s.cores| && 0 <= j < |s.cores|
      ensures LinkOk(s.cap, i == j, At(r, i, j)) && PhaseOk(s.cores[i].phase, s.cores[j].phase, At(r, i, j))
    {
    }
  }

  lemma SamePlaces(s: System, r: System)
    requires Shape(s) && LinksOk(s) && Shape(r) && r.cap == s.cap && |r.cores| == |s.cores|
    requires forall i, j :: 0 <= i < |s.cores| && 0 <= j < |s.cores| ==> At(r, i, j) == At(s, i, j)
    requires forall i :: 0 <= i < |s.cores| ==> r.cores[i].phase == s.cores[i].phase
    ensures LinksOk(r)
  {
  }

  // ---------------------------------------------------------------- one step at a time

  /** Handling an event that was in nobody's hands accounts for its payload once. */
  lemma SettleCount(s: System, d: nat, e: Event, how: Outcome, t: nat)
    requires Shape(s) && d < |s.cores| && LinksOk(s) && Allowed(s, d, how)
    ensures var r := Settle(s, d, e, how);
            && r.ledger.created == s.ledger.created
            && Occ(r.ledger.disposed, t) + Occ(r.ledger.lost, t) + Resident(r.cores, t)
               == Occ(s.ledger.disposed, t) + Occ(s.ledger.lost, t) + Resident(s.cores, t) + Count([e], t)
  {
    match how
    case Consume =>
      OccConcat(s.ledger.disposed, Tokens([e]), t);
      OccTokens([e], t);
    case Hold =>
      CountConcat(s.cores[d].stash, [e], t);
      StashCount(s, d, s.cores[d].stash + [e], t);
    case _ =>
      var e' := Redirected(e, how);
      var to := Slot(s.route, e'.dest);
      SendLink(s.cap, d == to, At(s, d, to), e', how.front, t);
      SetCount(s, d, to, LinkSend(s.cap, d == to, At(s, d, to), e', how.front), t);
      assert Count([e'], t) == Count([e], t);
  }

  lemma SettleKeeps(s: System, d: nat, e: Event, how: Outcome)
    requires Shape(s) && d < |s.cores| && LinksOk(s) && StashesOk(s) && Allowed(s, d, how)
    ensures LinksOk(Settle(s, d, e, how)) && StashesOk(Settle(s, d, e, how))
  {
    var r := Settle(s, d, e, how);
    match how
    case Consume =>
      SamePlaces(s, r);
    case Hold =>
      SamePlaces(s, r);
    case _ =>
      var e' := Redirected(e, how);
      var to := Slot(s.route, e'.dest);
      SendLink(s.cap, d == to, At(s, d, to), e', how.front, 0);
      SetKeeps(s, d, to, LinkSend(s.cap, d == to, At(s, d, to), e', how.front));
  }

  lemma PushKeeps(s: System, a: Step)
    requires Inv(s) && a.Push? && Enabled(s, a)
    ensures Inv(Apply(s, a))
  {
    var l := At(s, a.c, a.d);
    var l' := LinkPush(l, a.e);
    PushLink(s.cap, a.c == a.d, l, a.e, 0);
    SetKeeps(s, a.c, a.d, l');
    SamePlaces(Set(s, a.c, a.d, l'), Apply(s, a));
    forall t: nat
      ensures Balanced(Apply(s, a), t)
    {
      assert Balanced(s, t);
      PushLink(s.cap, a.c == a.d, l, a.e, t);
      SetCount(s, a.c, a.d, l', t);
      CreateCount(s, a.e, t);
    }
  }

  lemma CreateCount(s: System, e: Event, t: nat)
    requires e.token !in s.ledger.created && Occ(s.ledger.created, t) <= 1
    ensures Occ(s.ledger.created + [e.token], t) == Occ(s.ledger.created, t) + Count([e], t) <= 1
  {
    OccConcat(s.ledger.created, [e.token], t);
    OccAbsent(s.ledger.created, e.token);
  }

  lemma SendKeeps(s: System, a: Step)
    requires Inv(s) && a.Send? && Enabled(s, a)
    ensures Inv(Apply(s, a))
  {
    var l := At(s, a.c, a.d);
    var l' := LinkSend(s.cap, a.c == a.d, l, a.e, a.front);
    SendLink(s.cap, a.c == a.d, l, a.e, a.front, 0);
    SetKeeps(s, a.c, a.d, l');
    SamePlaces(Set(s, a.c, a.d, l'), Apply(s, a));
    forall t: nat
      ensures Balanced(Apply(s, a), t)
    {
      assert Balanced(s, t);
      SendLink(s.cap, a.c == a.d, l, a.e, a.front, t);
      SetCount(s, a.c, a.d, l', t);
      CreateCount(s, a.e, t);
    }
  }

  lemma DepartKeeps(s: System, c: nat, d: nat, f: Fate)
    requires Inv(s) && InRange(s, c, d) && c != d && At(s, c, d).pipe != []
    requires f.Sent? ==> Room(s.cap, At(s, c, d), At(s, c, d).pipe[0])
    requires Justified(s.cap, Exit(At(s, c, d).pipe[0], f))
    requires f.Abandoned? ==> s.cores[d].phase.Stopped?
    ensures Inv(Depart(s, c, d, f))
  {
    var l := At(s, c, d);
    var e, l', r := l.pipe[0], LinkLeave(l, f), Depart(s, c, d, f);
    assert PhaseOk(s.cores[c].phase, s.cores[d].phase, l);
    LeaveLink(s.cap, l, f, 0);
    SetKeeps(s, c, d, l');
    SamePlaces(Set(s, c, d, l'), r);
    forall t: nat
      ensures Balanced(r, t)
    {
      assert Balanced(s, t);
      LeaveLink(s.cap, l, f, t);
      SetCount(s, c, d, l', t);
      OccConcat(s.ledger.disposed, Tokens([e]), t);
      OccConcat(s.ledger.lost, [e.token], t);
      OccTokens([e], t);
      assert Tokens([e]) == [e.token];
    }
  }

  lemma AttemptKeeps(s: System, a: Step)
    requires Inv(s) && a.Attempt? && Enabled(s, a)
    ensures Inv(Apply(s, a))
  {
    match Judge(s.cap, At(s, a.c, a.d))
    case Stays =>
    case Leaves(f) => DepartKeeps(s, a.c, a.d, f);
  }

  lemma TakeKeeps(s: System, a: Step)
    requires Inv(s) && a.Take? && Enabled(s, a)
    ensures Inv(Apply(s, a))
  {
    var l := At(s, a.c, a.d);
    var l' := LinkTake(a.c == a.d, l, a.n);
    assert PhaseOk(s.cores[a.c].phase, s.cores[a.d].phase, l);
    TakeLink(s.cap, a.c == a.d, l, a.n, 0);
    SetKeeps(s, a.c, a.d, l');
    forall t: nat
      ensures Balanced(Apply(s, a), t)
    {
      assert Balanced(s, t);
      TakeLink(s.cap, a.c == a.d, l, a.n, t);
      SetCount(s, a.c, a.d, l', t);
    }
  }

  lemma DispatchKeeps(s: System, a: Step)
    requires Inv(s) && a.Dispatch? && Enabled(s, a)
    ensures Inv(Apply(s, a))
  {
    var l := At(s, a.c, a.d);
    var e, l' := l.batch[0], LinkDispatch(l);
    var m := Set(s, a.c, a.d, l');
    DispatchLink(s.cap, a.c == a.d, l, 0);
    SetKeeps(s, a.c, a.d, l');
    SettleKeeps(m, a.d, e, a.how);
    forall t: nat
      ensures Balanced(Apply(s, a), t)
    {
      assert Balanced(s, t);
      DispatchLink(s.cap, a.c == a.d, l, t);
      SetCount(s, a.c, a.d, l', t);
      SettleCount(m, a.d, e, a.how, t);
    }
  }

  lemma UnstashKeeps(s: System, a: Step)
    requires Inv(s) && a.Unstash? && Enabled(s, a)
    ensures Inv(Apply(s, a))
  {
    var st := s.cores[a.d].stash;
    var e, rest := st[a.i], st[..a.i] + st[a.i + 1..];
    var m := SetStash(s, a.d, rest);
    SamePlaces(s, m);
    SettleKeeps(m, a.d, e, a.how);
    assert st == st[..a.i] + ([e] + st[a.i + 1..]);
    forall t: nat
      ensures Balanced(Apply(s, a), t)
    {
      assert Balanced(s, t);
      CountConcat(st[..a.i], [e] + st[a.i + 1..], t);
      CountConcat([e], st[a.i + 1..], t);
      CountConcat(st[..a.i], st[a.i + 1..], t);
      StashCount(s, a.d, rest, t);
      SettleCount(m, a.d, e, a.how, t);
    }
  }

  lemma PhaseKeeps(s: System, a: Step)
    requires Inv(s) && (a.BeginDrain? || a.Stop?) && Enabled(s, a)
    ensures Inv(Apply(s, a))
  {
    var p := if a.BeginDrain? then Draining else Stopped;
    var r := Apply(s, a);
    forall i, j | 0 <= i < |s.cores| && 0 <= j < |s.cores|
      ensures LinkOk(s.cap, i == j, At(r, i, j)) && PhaseOk(r.cores[i].phase, r.cores[j].phase, At(r, i, j))
    {
      assert PhaseOk(s.cores[i].phase, s.cores[j].phase, At(s, i, j));
    }
    forall t: nat
      ensures Balanced(r, t)
    {
      assert Balanced(s, t);
      ResidentUpdate(s.cores, a.c, s.cores[a.c].(phase := p), t);
    }
  }

  lemma SweepKeeps(s: System, a: Step)
    requires Inv(s) && a.Sweep? && Enabled(s, a)
    ensures Inv(Apply(s, a))
  {
    var l := At(s, a.c, a.d);
    var l' := LinkSweep(l);
    assert PhaseOk(s.cores[a.c].phase, s.cores[a.d].phase, l);
    SweepLink(s.cap, a.c == a.d, l, 0);
    SetKeeps(s, a.c, a.d, l');
    SamePlaces(Set(s, a.c, a.d, l'), Apply(s, a));
    forall t: nat
      ensures Balanced(Apply(s, a), t)
    {
      assert Balanced(s, t);
      SweepLink(s.cap, a.c == a.d, l, t);
      SetCount(s, a.c, a.d, l', t);
      OccConcat(s.ledger.disposed, Tokens(l.ring), t);
      OccTokens(l.ring, t);
    }
  }

  lemma StepKeepsInv(s: System, a: Step)
    requires Inv(s)
    ensures Inv(Apply(s, a))
  {
    if Enabled(s, a) {
      match a
      case Push(_, _, _) => PushKeeps(s, a);
      case Send(_, _, _, _) => SendKeeps(s, a);
      case Attempt(_, _) => AttemptKeeps(s, a);
      case Take(_, _, _) => TakeKeeps(s, a);
      case Dispatch(_, _, _) => DispatchKeeps(s, a);
      case Unstash(_, _, _) => UnstashKeeps(s, a);
      case BeginDrain(_) => PhaseKeeps(s, a);
      case Abandon(c, d) => DepartKeeps(s, c, d, Abandoned);
      case Stop(_) => PhaseKeeps(s, a);
      case Sweep(_, _) => SweepKeeps(s, a);
    }
  }

  /** Main safety theorem: the invariant holds after every run from every good state. */
  lemma {:induction false} RunKeepsInv(s: System, steps: seq<Step>)
    requires Inv(s)
    ensures Inv(Run(s, steps))
    decreases |steps|
  {
    if steps != [] {
      StepKeepsInv(s, steps[0]);
      RunKeepsInv(Apply(s, steps[0]), steps[1..]);
    }
  }
}
