/** The transport's promises, stated for every run of every number of cores. */
module TransportTheorems {
  import opened Transport
  import opened TransportSafety
  import opened Losses

  /** The state after a run of the engine from its start. */
  function Reached(g: Config, steps: seq<Step>): (s: System)
    ensures Shape(s) && |s.cores| == g.n && s.cap == g.cap && s.route == g.route
  {
    Run(Start(g), steps)
  }

  lemma {:induction false} EmptyResident(cores: seq<Core>, t: nat)
    requires forall c :: 0 <= c < |cores| ==> cores[c].stash == []
    requires forall c, d :: 0 <= c < |cores| && 0 <= d < |cores[c].out| ==> LinkCount(cores[c].out[d], t) == 0
    ensures Resident(cores, t) == 0
  {
    if cores != [] {
      EmptyRow(cores[0].out, t);
      EmptyResident(cores[1..], t);
    }
  }

  lemma {:induction false} EmptyRow(row: seq<Link>, t: nat)
    requires forall d :: 0 <= d < |row| ==> LinkCount(row[d], t) == 0
    ensures RowCount(row, t) == 0
  {
    if row != [] {
      EmptyRow(row[1..], t);
    }
  }

  lemma StartInv(g: Config)
    ensures Inv(Start(g))
  {
    var s := Start(g);
    forall t: nat
      ensures Balanced(s, t)
    {
      EmptyResident(s.cores, t);
    }
  }

  lemma ReachedInv(g: Config, steps: seq<Step>)
    ensures Inv(Reached(g, steps)) && Booked(Reached(g, steps))
  {
    StartInv(g);
    RunKeepsInv(Start(g), steps);
    StartBooked(g);
    RunKeepsBooked(Start(g), steps);
  }

  /** Ownership: at every point of every run each payload ever created is in exactly one
      place: destroyed once, or resident once, or lost once. Those lost are exactly those of
      best-effort events that a link dropped because its ring was full. */
  lemma OwnedExactlyOnce(g: Config, steps: seq<Step>, t: nat)
    ensures var s := Reached(g, steps);
            && Occ(s.ledger.lost, t) == (if Dropped(s, t) then 1 else 0)
            && Occ(s.ledger.disposed, t) + Resident(s.cores, t) == (if t in s.ledger.created && !Dropped(s, t) then 1 else 0)
            && (Dropped(s, t) ==> t in s.ledger.created)
  {
    ReachedInv(g, steps);
    FreedOrResident(Reached(g, steps), t);
  }

  predicate RingsEmpty(s: System)
    requires Shape(s)
  {
    forall c, d :: 0 <= c < |s.cores| && 0 <= d < |s.cores| ==> At(s, c, d).ring == []
  }

  /** Nothing leaks: once every core has stopped and the mailboxes have been swept, no
      payload is resident anywhere and every one that no link dropped as best-effort has
      been destroyed, exactly once. */
  lemma NothingLeaks(s: System, t: nat)
    requires Inv(s) && Booked(s) && AllStopped(s) && RingsEmpty(s)
    ensures Resident(s.cores, t) == 0
    ensures Occ(s.ledger.disposed, t) == if t in s.ledger.created && !Dropped(s, t) then 1 else 0
  {
    forall c, d | 0 <= c < |s.cores| && 0 <= d < |s.cores[c].out|
      ensures LinkCount(s.cores[c].out[d], t) == 0
    {
      assert PhaseOk(s.cores[c].phase, s.cores[d].phase, At(s, c, d));
    }
    EmptyResident(s.cores, t);
    FreedOrResident(s, t);
  }

  /** `pushed` with the events a log records as dropped taken out of it. Entries of the log
      that were not pushed are passed over. */
  function MinusDrops(log: seq<Exit>, pushed: seq<Event>): seq<Event> {
    if log == [] then pushed
    else if !log[0].event.viaPush then MinusDrops(log[1..], pushed)
    else if pushed == [] then []
    else (if log[0].fate.Sent? then [pushed[0]] else []) + MinusDrops(log[1..], pushed[1..])
  }

  lemma PushOnlyCons(e: Event, es: seq<Event>)
    ensures PushOnly([e] + es) == (if e.viaPush then [e] else []) + PushOnly(es)
  {
    assert ([e] + es)[1..] == es;
  }

  /** What one entry of a log contributes. */
  function Kept(x: Exit): seq<Event> {
    if x.event.viaPush && x.fate.Sent? then [x.event] else []
  }

  lemma SurvivorsCons(x: Exit, log: seq<Exit>)
    ensures PushOnly(Survivors([x] + log)) == Kept(x) + PushOnly(Survivors(log))
  {
    assert ([x] + log)[1..] == log;
    if x.fate.Sent? {
      PushOnlyCons(x.event, Survivors(log));
    } else {
      assert Survivors([x] + log) == Survivors(log);
    }
  }

  lemma MinusDropsCons(x: Exit, log: seq<Exit>, es: seq<Event>)
    ensures MinusDrops([x] + log, PushOnly([x.event] + es)) == Kept(x) + MinusDrops(log, PushOnly(es))
  {
    assert ([x] + log)[1..] == log;
    PushOnlyCons(x.event, es);
    if x.event.viaPush {
      assert ([x.event] + PushOnly(es))[1..] == PushOnly(es);
    } else {
      assert PushOnly([x.event] + es) == PushOnly(es);
    }
  }

  lemma {:induction false} MinusDropsSplits(log: seq<Exit>, pipe: seq<Event>)
    ensures MinusDrops(log, PushOnly(Events(log) + pipe)) == PushOnly(Survivors(log)) + PushOnly(pipe)
  {
    if log == [] {
      assert Events(log) + pipe == pipe;
    } else {
      var x, rest := log[0], log[1..];
      assert log == [x] + rest;
      assert Events(log) + pipe == [x.event] + (Events(rest) + pipe);
      MinusDropsSplits(rest, pipe);
      MinusDropsCons(x, rest, Events(rest) + pipe);
      SurvivorsCons(x, rest);
    }
  }

  /** End-to-end FIFO: on every ordered pair of cores, at every point of every run, the
      pushed sequence minus the recorded drops is what was dispatched, then what is in the
      batch, the ring and the pipe, in that order and nothing else. */
  lemma EndToEndFifo(g: Config, steps: seq<Step>, c: nat, d: nat)
    requires c < g.n && d < g.n
    ensures var l := At(Reached(g, steps), c, d);
            MinusDrops(l.log, l.pushed) == PushOnly(l.received + l.batch + l.swept + l.ring + l.pipe)
  {
    ReachedInv(g, steps);
    var l := At(Reached(g, steps), c, d);
    MinusDropsSplits(l.log, l.pipe);
    PushOnlyConcat(Mail(l), l.pipe);
  }

  /** A deliverable guaranteed event is discarded only if its destination has stopped, and
      an oversize or best-effort one never for another reason. */
  lemma DiscardedOnlyToTheStopped(g: Config, steps: seq<Step>, c: nat, d: nat)
    requires c < g.n && d < g.n
    ensures var s := Reached(g, steps);
            var l := At(s, c, d);
            && Width(l.ring) <= g.cap
            && (l.swept != [] ==> s.cores[d].phase.Stopped?)
            && forall i :: 0 <= i < |l.log| && !l.log[i].fate.Sent? && !s.cores[d].phase.Stopped? ==>
                 l.log[i].event.width > g.cap || l.log[i].event.qos == 0
  {
    ReachedInv(g, steps);
    var s := Reached(g, steps);
    var l := At(s, c, d);
    assert LinkOk(g.cap, c == d, l) && PhaseOk(s.cores[c].phase, s.cores[d].phase, l);
    forall i | 0 <= i < |l.log| && !l.log[i].fate.Sent? && !s.cores[d].phase.Stopped?
      ensures l.log[i].event.width > g.cap || l.log[i].event.qos == 0
    {
      assert Justified(g.cap, l.log[i]);
    }
  }

  // ---------------------------------------------------------------- one writer per ring

  /** Core c's own parts of the system: its pipes, its histories, its phase, its stash; and
      its rings, which others can only drain. */
  predicate Untouched(s: System, r: System, c: nat)
    requires Shape(s) && Shape(r) && c < |s.cores| == |r.cores|
  {
    && r.cap == s.cap
    && r.cores[c].phase == s.cores[c].phase
    && r.cores[c].stash == s.cores[c].stash
    && (forall d :: 0 <= d < |s.cores| ==> OwnerView(At(s, c, d), At(r, c, d)) && Suffix(At(r, c, d).ring, At(s, c, d).ring))
    && (forall d :: 0 <= d < |s.cores| ==> At(r, d, c).batch == At(s, d, c).batch)
    && (forall d :: 0 <= d < |s.cores| && s.cores[d].phase.Stopped? ==> r.cores[d].phase.Stopped?)
  }

  predicate OwnerView(l: Link, r: Link) {
    r.pipe == l.pipe && r.pushed == l.pushed && r.log == l.log && |r.ring| <= |l.ring|
  }

  predicate Suffix(a: seq<Event>, b: seq<Event>) {
    |a| <= |b| && a == b[|b| - |a|..]
  }

  lemma SuffixTwice(a: seq<Event>, b: seq<Event>, c: seq<Event>)
    requires Suffix(a, b) && Suffix(b, c)
    ensures Suffix(a, c)
  {
    assert c[|c| - |b|..][|b| - |a|..] == c[|c| - |a|..];
  }

  lemma SetUntouched(s: System, i: nat, j: nat, l: Link, c: nat)
    requires Shape(s) && InRange(s, i, j) && c < |s.cores|
    requires i == c ==> OwnerView(At(s, i, j), l) && Suffix(l.ring, At(s, i, j).ring)
    requires j == c ==> l.batch == At(s, i, j).batch
    ensures Untouched(s, Set(s, i, j, l), c)
  {
  }

  lemma SameCores(s: System, r: System, c: nat)
    requires Shape(s) && c < |s.cores| && r.cores == s.cores && r.cap == s.cap && r.route == s.route
    ensures Untouched(s, r, c)
  {
  }

  lemma UntouchedTwice(s: System, m: System, r: System, c: nat)
    requires Shape(s) && Shape(m) && Shape(r) && c < |s.cores| == |m.cores| == |r.cores|
    requires Untouched(s, m, c) && Untouched(m, r, c)
    ensures Untouched(s, r, c)
  {
    forall d | 0 <= d < |s.cores|
      ensures OwnerView(At(s, c, d), At(r, c, d)) && Suffix(At(r, c, d).ring, At(s, c, d).ring)
    {
      SuffixTwice(At(r, c, d).ring, At(m, c, d).ring, At(s, c, d).ring);
    }
  }

  lemma SettleUntouched(s: System, d: nat, e: Event, how: Outcome, c: nat)
    requires Shape(s) && d < |s.cores| && c < |s.cores| && d != c
    ensures Untouched(s, Settle(s, d, e, how), c)
  {
    match how
    case Consume => SameCores(s, Settle(s, d, e, how), c);
    case Hold =>
    case _ =>
      var e' := Redirected(e, how);
      var to := Slot(s.route, e'.dest);
      SetUntouched(s, d, to, LinkSend(s.cap, d == to, At(s, d, to), e', how.front), c);
  }

  lemma DispatchUntouched(s: System, a: Step, c: nat)
    requires Shape(s) && c < |s.cores| && a.Dispatch? && Enabled(s, a) && a.d != c
    ensures Untouched(s, Apply(s, a), c)
  {
    var l := At(s, a.c, a.d);
    var m := Set(s, a.c, a.d, LinkDispatch(l));
    SetUntouched(s, a.c, a.d, LinkDispatch(l), c);
    SettleUntouched(m, a.d, l.batch[0], a.how, c);
    UntouchedTwice(s, m, Apply(s, a), c);
  }

  lemma UnstashUntouched(s: System, a: Step, c: nat)
    requires Shape(s) && c < |s.cores| && a.Unstash? && Enabled(s, a) && a.d != c
    ensures Untouched(s, Apply(s, a), c)
  {
    var st := s.cores[a.d].stash;
    var m := SetStash(s, a.d, st[..a.i] + st[a.i + 1..]);
    assert Untouched(s, m, c);
    SettleUntouched(m, a.d, st[a.i], a.how, c);
    UntouchedTwice(s, m, Apply(s, a), c);
  }

  lemma LedgerUntouched(s: System, m: System, r: System, c: nat)
    requires Shape(s) && Shape(m) && c < |s.cores| == |m.cores| && Untouched(s, m, c)
    requires r.cores == m.cores && r.cap == m.cap && r.route == m.route
    ensures Untouched(s, r, c)
  {
    SameCores(m, r, c);
    UntouchedTwice(s, m, r, c);
  }

  /** A step that changes one link and the ledger. */
  lemma LinkUntouched(s: System, i: nat, j: nat, l: Link, r: System, c: nat)
    requires Shape(s) && InRange(s, i, j) && c < |s.cores|
    requires i == c ==> OwnerView(At(s, i, j), l) && Suffix(l.ring, At(s, i, j).ring)
    requires j == c ==> l.batch == At(s, i, j).batch
    requires r.cores == Set(s, i, j, l).cores && r.cap == s.cap && r.route == s.route
    ensures Untouched(s, r, c)
  {
    SetUntouched(s, i, j, l, c);
    LedgerUntouched(s, Set(s, i, j, l), r, c);
  }

  lemma AttemptUntouched(s: System, a: Step, c: nat)
    requires Shape(s) && c < |s.cores| && a.Attempt? && Enabled(s, a) && a.c != c
    ensures Untouched(s, Apply(s, a), c)
  {
    var v := Judge(s.cap, At(s, a.c, a.d));
    if v.Stays? {
      SameCores(s, Apply(s, a), c);
    } else {
      LinkUntouched(s, a.c, a.d, LinkLeave(At(s, a.c, a.d), v.fate), Apply(s, a), c);
    }
  }

  /** Every ring has one writer: a step of any other thread leaves c's pipes alone and at
      most drains c's rings, even when it forwards an event that c once sent. */
  lemma OneWriter(s: System, a: Step, c: nat)
    requires Shape(s) && c < |s.cores| && By(s, a) != c
    ensures Untouched(s, Apply(s, a), c)
  {
    var r := Apply(s, a);
    if !Enabled(s, a) {
      SameCores(s, r, c);
    } else {
      match a
      case Push(i, j, e) => LinkUntouched(s, i, j, LinkPush(At(s, i, j), e), r, c);
      case Send(i, j, e, front) => LinkUntouched(s, i, j, LinkSend(s.cap, i == j, At(s, i, j), e, front), r, c);
      case Attempt(_, _) => AttemptUntouched(s, a, c);
      case Take(_, _, _) => TakeUntouched(s, a, c);
      case Dispatch(_, _, _) => DispatchUntouched(s, a, c);
      case Unstash(_, _, _) => UnstashUntouched(s, a, c);
      case BeginDrain(_) => PhaseUntouched(s, a, c);
      case Abandon(i, j) => LinkUntouched(s, i, j, LinkLeave(At(s, i, j), Abandoned), r, c);
      case Stop(_) => PhaseUntouched(s, a, c);
      case Sweep(i, j) => LinkUntouched(s, i, j, LinkSweep(At(s, i, j)), r, c);
    }
  }

  lemma TakeUntouched(s: System, a: Step, c: nat)
    requires Shape(s) && c < |s.cores| && a.Take? && Enabled(s, a) && a.d != c
    ensures Untouched(s, Apply(s, a), c)
  {
    SetUntouched(s, a.c, a.d, LinkTake(a.c == a.d, At(s, a.c, a.d), a.n), c);
  }

  lemma PhaseUntouched(s: System, a: Step, c: nat)
    requires Shape(s) && c < |s.cores| && (a.BeginDrain? || a.Stop?) && Enabled(s, a) && a.c != c
    ensures Untouched(s, Apply(s, a), c)
  {
  }

  /** The steps of a schedule that core c does not take itself. */
  function ByOthers(s: System, c: nat, steps: seq<Step>): (o: seq<Step>)
    ensures forall i :: 0 <= i < |o| ==> By(s, o[i]) != c
  {
    if steps == [] then []
    else (if By(s, steps[0]) != c then [steps[0]] else []) + ByOthers(s, c, steps[1..])
  }

  lemma {:induction false} OthersLeaveAlone(s: System, steps: seq<Step>, c: nat)
    requires Shape(s) && c < |s.cores|
    requires forall i :: 0 <= i < |steps| ==> By(s, steps[i]) != c
    ensures Untouched(s, Run(s, steps), c)
    decreases |steps|
  {
    if steps == [] {
      SameCores(s, s, c);
    } else {
      var m := Apply(s, steps[0]);
      OneWriter(s, steps[0], c);
      forall i | 0 <= i < |steps[1..]|
        ensures By(m, steps[1..][i]) != c
      {
        assert steps[1..][i] == steps[i + 1];
      }
      OthersLeaveAlone(m, steps[1..], c);
      UntouchedTwice(s, m, Run(s, steps), c);
    }
  }

  // ---------------------------------------------------------------- one reader per ring

  /** What the consumer of a link sees of other threads: its ring may have grown. */
  predicate ReaderView(l: Link, r: Link) {
    r.batch == l.batch && r.received == l.received && l.ring <= r.ring
  }

  /** All the links into core c. */
  predicate Inbox(s: System, r: System, c: nat)
    requires Shape(s) && Shape(r) && c < |s.cores| == |r.cores|
  {
    forall p :: 0 <= p < |s.cores| ==> ReaderView(At(s, p, c), At(r, p, c))
  }

  lemma SetInbox(s: System, i: nat, j: nat, l: Link, r: System, c: nat)
    requires Shape(s) && InRange(s, i, j) && c < |s.cores| && (j == c ==> ReaderView(At(s, i, j), l))
    requires Shape(r) && r.cores == Set(s, i, j, l).cores
    ensures Inbox(s, r, c)
  {
    forall p | 0 <= p < |s.cores|
      ensures ReaderView(At(s, p, c), At(r, p, c))
    {
      assert At(r, p, c) == At(Set(s, i, j, l), p, c);
    }
  }

  lemma SameInbox(s: System, r: System, c: nat)
    requires Shape(s) && Shape(r) && c < |s.cores| == |r.cores|
    requires forall p :: 0 <= p < |s.cores| ==> At(r, p, c) == At(s, p, c)
    ensures Inbox(s, r, c)
  {
  }

  lemma InboxTwice(s: System, m: System, r: System, c: nat)
    requires Shape(s) && Shape(m) && Shape(r) && c < |s.cores| == |m.cores| == |r.cores|
    requires Inbox(s, m, c) && Inbox(m, r, c)
    ensures Inbox(s, r, c)
  {
    forall p | 0 <= p < |s.cores|
      ensures ReaderView(At(s, p, c), At(r, p, c))
    {
      assert ReaderView(At(s, p, c), At(m, p, c)) && ReaderView(At(m, p, c), At(r, p, c));
    }
  }

  lemma SettleInbox(s: System, d: nat, e: Event, how: Outcome, c: nat)
    requires Shape(s) && d < |s.cores| && c < |s.cores| && d != c
    ensures Inbox(s, Settle(s, d, e, how), c)
  {
    if how.Consume? || how.Hold? {
      SameInbox(s, Settle(s, d, e, how), c);
    } else {
      var e' := Redirected(e, how);
      var to := Slot(s.route, e'.dest);
      SetInbox(s, d, to, LinkSend(s.cap, d == to, At(s, d, to), e', how.front), Settle(s, d, e, how), c);
    }
  }

  lemma WriteInbox(s: System, a: Step, c: nat)
    requires Shape(s) && c < |s.cores| && Enabled(s, a) && (a.Push? || a.Send? || a.Attempt? || a.Abandon?)
    ensures Inbox(s, Apply(s, a), c)
  {
    var r, l := Apply(s, a), At(s, a.c, a.d);
    if a.Push? {
      SetInbox(s, a.c, a.d, LinkPush(l, a.e), r, c);
    } else if a.Send? {
      SetInbox(s, a.c, a.d, LinkSend(s.cap, a.c == a.d, l, a.e, a.front), r, c);
    } else if a.Abandon? {
      SetInbox(s, a.c, a.d, LinkLeave(l, Abandoned), r, c);
    } else if Judge(s.cap, l).Leaves? {
      SetInbox(s, a.c, a.d, LinkLeave(l, Judge(s.cap, l).fate), r, c);
    } else {
      SameInbox(s, r, c);
    }
  }

  lemma HandleInbox(s: System, a: Step, c: nat)
    requires Shape(s) && c < |s.cores| && Enabled(s, a) && (a.Dispatch? || a.Unstash?) && a.d != c
    ensures Inbox(s, Apply(s, a), c)
  {
    if a.Dispatch? {
      var l := At(s, a.c, a.d);
      var m := Set(s, a.c, a.d, LinkDispatch(l));
      SetInbox(s, a.c, a.d, LinkDispatch(l), m, c);
      SettleInbox(m, a.d, l.batch[0], a.how, c);
      InboxTwice(s, m, Apply(s, a), c);
    } else {
      var st := s.cores[a.d].stash;
      var m := SetStash(s, a.d, st[..a.i] + st[a.i + 1..]);
      SameInbox(s, m, c);
      SettleInbox(m, a.d, st[a.i], a.how, c);
      InboxTwice(s, m, Apply(s, a), c);
    }
  }

  /** Every ring has one reader: a step of any other thread takes nothing from the rings of
      a core that has not stopped. */
  lemma OneReader(s: System, a: Step, c: nat)
    requires Shape(s) && c < |s.cores| && By(s, a) != c && !s.cores[c].phase.Stopped?
    ensures Inbox(s, Apply(s, a), c)
  {
    var r := Apply(s, a);
    if !Enabled(s, a) {
      SameInbox(s, r, c);
    } else if a.Push? || a.Send? || a.Attempt? || a.Abandon? {
      WriteInbox(s, a, c);
    } else if a.Dispatch? || a.Unstash? {
      HandleInbox(s, a, c);
    } else if a.Take? {
      SetInbox(s, a.c, a.d, LinkTake(a.c == a.d, At(s, a.c, a.d), a.n), r, c);
    } else {
      assert a.BeginDrain? || a.Stop?;
      SameInbox(s, r, c);
    }
  }

  lemma {:induction false} OthersOnlyWrite(s: System, steps: seq<Step>, c: nat)
    requires Shape(s) && c < |s.cores| && !s.cores[c].phase.Stopped?
    requires forall i :: 0 <= i < |steps| ==> By(s, steps[i]) != c
    ensures Inbox(s, Run(s, steps), c)
    decreases |steps|
  {
    if steps == [] {
      SameInbox(s, s, c);
    } else {
      var m := Apply(s, steps[0]);
      OneReader(s, steps[0], c);
      OneWriter(s, steps[0], c);
      forall i | 0 <= i < |steps[1..]|
        ensures By(m, steps[1..][i]) != c
      {
        assert steps[1..][i] == steps[i + 1];
      }
      OthersOnlyWrite(m, steps[1..], c);
      InboxTwice(s, m, Run(s, steps), c);
    }
  }

  lemma {:induction false} RunConcat(s: System, a: seq<Step>, b: seq<Step>)
    requires Shape(s)
    ensures Run(s, a + b) == Run(Run(s, a), b)
    decreases |a|
  {
    if a == [] {
      assert a + b == b;
    } else {
      RunConcat(Apply(s, a[0]), a[1..], b);
      assert (a + b)[1..] == a[1..] + b;
    }
  }
}
