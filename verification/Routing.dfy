/** Addresses: mail arrives where its destination resolves to, and why the producer slot must
    be the one of the running core. */
module Routing {
  import opened Transport
  import opened TransportTheorems
  import CoreSet

  // ---------------------------------------------------------------- the index table

  /** The table of a core set's index is a routing table for as many mailboxes as it has
      members, and looking up a slot is resolving the id. */
  lemma IndexRoutes(index: CoreSet.Index)
    requires index.Valid() && true in index.raw
    ensures Routes(index.table[..], index.nbCore)
    ensures forall id: nat :: Slot(index.table[..], id) == index.Resolve(id)
  {
    forall id | 0 <= id < |index.table[..]|
      ensures index.table[..][id] < index.nbCore
    {
      assert index.Resolve(id) < index.nbCore;
    }
  }

  // ---------------------------------------------------------------- where mail arrives

  predicate AllTo(route: seq<nat>, es: seq<Event>, d: nat) {
    forall i :: 0 <= i < |es| ==> Slot(route, es[i].dest) == d
  }

  /** Everything on a link to core d, or received over it, is for core d. */
  predicate Addressed(route: seq<nat>, d: nat, l: Link) {
    AllTo(route, l.pipe, d) && AllTo(route, l.ring, d) && AllTo(route, l.batch, d) && AllTo(route, l.received, d)
  }

  predicate Posted(s: System)
    requires Shape(s)
  {
    forall c, d :: 0 <= c < |s.cores| && 0 <= d < |s.cores| ==> Addressed(s.route, d, At(s, c, d))
  }

  lemma SetPosted(s: System, c: nat, d: nat, l: Link, r: System)
    requires Shape(s) && InRange(s, c, d) && Posted(s) && Addressed(s.route, d, l)
    requires Shape(r) && r.cores == Set(s, c, d, l).cores && r.route == s.route
    ensures Posted(r)
  {
    forall i, j | 0 <= i < |s.cores| && 0 <= j < |s.cores|
      ensures Addressed(r.route, j, At(r, i, j))
    {
      assert At(r, i, j) == At(Set(s, c, d, l), i, j);
    }
  }

  lemma SamePosted(s: System, r: System)
    requires Shape(s) && Shape(r) && Posted(s) && |r.cores| == |s.cores| && r.route == s.route
    requires forall i, j :: 0 <= i < |s.cores| && 0 <= j < |s.cores| ==> At(r, i, j) == At(s, i, j)
    ensures Posted(r)
  {
  }

  lemma SettlePosted(s: System, d: nat, e: Event, how: Outcome)
    requires Shape(s) && d < |s.cores| && Posted(s)
    ensures Posted(Settle(s, d, e, how))
  {
    if how.Consume? || how.Hold? {
      SamePosted(s, Settle(s, d, e, how));
    } else {
      var e' := Redirected(e, how);
      var to := Slot(s.route, e'.dest);
      assert Addressed(s.route, to, At(s, d, to));
      SetPosted(s, d, to, LinkSend(s.cap, d == to, At(s, d, to), e', how.front), Settle(s, d, e, how));
    }
  }

  lemma DispatchPosted(s: System, a: Step)
    requires Shape(s) && Posted(s) && a.Dispatch? && Enabled(s, a)
    ensures Posted(Apply(s, a))
  {
    var l := At(s, a.c, a.d);
    var m := Set(s, a.c, a.d, LinkDispatch(l));
    assert Addressed(s.route, a.d, l);
    SetPosted(s, a.c, a.d, LinkDispatch(l), m);
    SettlePosted(m, a.d, l.batch[0], a.how);
  }

  lemma UnstashPosted(s: System, a: Step)
    requires Shape(s) && Posted(s) && a.Unstash? && Enabled(s, a)
    ensures Posted(Apply(s, a))
  {
    var st := s.cores[a.d].stash;
    var m := SetStash(s, a.d, st[..a.i] + st[a.i + 1..]);
    SamePosted(s, m);
    SettlePosted(m, a.d, st[a.i], a.how);
  }

  /** A step that changes one link, which becomes `l`. */
  lemma LinkPosted(s: System, a: Step, c: nat, d: nat, l: Link)
    requires Shape(s) && Posted(s) && InRange(s, c, d) && Apply(s, a).cores == Set(s, c, d, l).cores
    requires Addressed(s.route, d, At(s, c, d)) ==> Addressed(s.route, d, l)
    ensures Posted(Apply(s, a))
  {
    assert Addressed(s.route, d, At(s, c, d));
    SetPosted(s, c, d, l, Apply(s, a));
  }

  /** Entering a pipe or a ring. */
  lemma EnterPosted(s: System, a: Step)
    requires Shape(s) && Posted(s) && (a.Push? || a.Send?) && Enabled(s, a)
    ensures Posted(Apply(s, a))
  {
    var l := At(s, a.c, a.d);
    if a.Push? {
      LinkPosted(s, a, a.c, a.d, LinkPush(l, a.e));
    } else {
      LinkPosted(s, a, a.c, a.d, LinkSend(s.cap, a.c == a.d, l, a.e, a.front));
    }
  }

  /** Leaving a pipe. */
  lemma LeavePosted(s: System, a: Step)
    requires Shape(s) && Posted(s) && (a.Attempt? || a.Abandon?) && Enabled(s, a)
    ensures Posted(Apply(s, a))
  {
    var l := At(s, a.c, a.d);
    if a.Abandon? {
      LinkPosted(s, a, a.c, a.d, LinkLeave(l, Abandoned));
    } else if Judge(s.cap, l).Leaves? {
      LinkPosted(s, a, a.c, a.d, LinkLeave(l, Judge(s.cap, l).fate));
    }
  }

  /** Leaving a ring. */
  lemma TakePosted(s: System, a: Step)
    requires Shape(s) && Posted(s) && (a.Take? || a.Sweep?) && Enabled(s, a)
    ensures Posted(Apply(s, a))
  {
    var l := At(s, a.c, a.d);
    if a.Take? {
      LinkPosted(s, a, a.c, a.d, LinkTake(a.c == a.d, l, a.n));
    } else {
      LinkPosted(s, a, a.c, a.d, LinkSweep(l));
    }
  }

  lemma StepKeepsPosted(s: System, a: Step)
    requires Shape(s) && Posted(s)
    ensures Posted(Apply(s, a))
  {
    if Enabled(s, a) {
      match a
      case Push(_, _, _) => EnterPosted(s, a);
      case Send(_, _, _, _) => EnterPosted(s, a);
      case Attempt(_, _) => LeavePosted(s, a);
      case Take(_, _, _) => TakePosted(s, a);
      case Dispatch(_, _, _) => DispatchPosted(s, a);
      case Unstash(_, _, _) => UnstashPosted(s, a);
      case BeginDrain(_) => SamePosted(s, Apply(s, a));
      case Abandon(_, _) => LeavePosted(s, a);
      case Stop(_) => SamePosted(s, Apply(s, a));
      case Sweep(_, _) => TakePosted(s, a);
    }
  }

  lemma {:induction false} RunKeepsPosted(s: System, steps: seq<Step>)
    requires Shape(s) && Posted(s)
    ensures Posted(Run(s, steps))
    decreases |steps|
  {
    if steps != [] {
      StepKeepsPosted(s, steps[0]);
      RunKeepsPosted(Apply(s, steps[0]), steps[1..]);
    }
  }

  /** After any run, through replies and forwards, a core holds and has received only mail
      whose destination resolves to it. */
  lemma MailIsAddressed(g: Config, steps: seq<Step>, c: nat, d: nat)
    requires c < g.n && d < g.n
    ensures Addressed(g.route, d, At(Reached(g, steps), c, d))
  {
    RunKeepsPosted(Start(g), steps);
  }

  // ---------------------------------------------------------------- the slot that must not be used

  // ---------------------------------------------------------------- where mail is sent

  /** A link that an event was sent on: it is last in the ring if that is another core's and
      has room for it, and otherwise first or last in the pipe. */
  predicate Gains(cap: nat, self: bool, l: Link, r: Link, e: Event, front: bool) {
    && r == l.(ring := r.ring, pipe := r.pipe)
    && if !self && Width(l.ring) + e.width <= cap then r.ring == l.ring + [e] && r.pipe == l.pipe
       else r.ring == l.ring && r.pipe == if front then [e] + l.pipe else l.pipe + [e]
  }

  /** Core d sent an event to core `to` and did nothing else. */
  predicate SentOn(s: System, r: System, d: nat, to: nat, e: Event, front: bool)
    requires Shape(s) && Shape(r) && InRange(s, d, to)
  {
    && r == s.(cores := r.cores) && |r.cores| == |s.cores|
    && Gains(s.cap, d == to, At(s, d, to), At(r, d, to), e, front)
    && (forall i, j :: 0 <= i < |s.cores| && 0 <= j < |s.cores| && !(i == d && j == to) ==> At(r, i, j) == At(s, i, j))
    && (forall i :: 0 <= i < |s.cores| ==> r.cores[i].stash == s.cores[i].stash && r.cores[i].phase == s.cores[i].phase)
  }

  /** A core with actors has an event in its hands; which one, and the system without it. */
  predicate Handles(s: System, a: Step)
    requires Shape(s)
  {
    match a
    case Dispatch(c, d, _) => InRange(s, c, d) && At(s, c, d).batch != [] && s.cores[d].phase.Running?
    case Unstash(d, i, how) => d < |s.cores| && i < |s.cores[d].stash| && s.cores[d].phase.Running? && !how.Hold?
    case _ => false
  }

  function Handled(s: System, a: Step): Event
    requires Shape(s) && Handles(s, a)
  {
    if a.Dispatch? then At(s, a.c, a.d).batch[0] else s.cores[a.d].stash[a.i]
  }

  function Without(s: System, a: Step): (m: System)
    requires Shape(s) && Handles(s, a)
    ensures Shape(m) && |m.cores| == |s.cores| && m.route == s.route
  {
    if a.Dispatch? then
      var l := At(s, a.c, a.d);
      Set(s, a.c, a.d, l.(batch := l.batch[1..], received := l.received + [l.batch[0]]))
    else
      var st := s.cores[a.d].stash;
      SetStash(s, a.d, st[..a.i] + st[a.i + 1..])
  }

  /** A reply goes to the core of the sender, with the ends swapped and the same payload, and
      nowhere else; whoever the handled event came through. */
  lemma ReplyGoesBack(s: System, a: Step)
    requires Shape(s) && Handles(s, a) && a.how.Reply?
    ensures var e := Handled(s, a);
            SentOn(Without(s, a), Apply(s, a), a.d, Slot(s.route, e.source),
                   Event(e.token, e.width, e.qos, false, e.dest, e.source), a.how.front)
  {
  }

  /** A forward goes to the core of the new destination and keeps the sender. */
  lemma ForwardGoesOn(s: System, a: Step)
    requires Shape(s) && Handles(s, a) && a.how.Forward?
    ensures var e := Handled(s, a);
            SentOn(Without(s, a), Apply(s, a), a.d, Slot(s.route, a.how.dest),
                   Event(e.token, e.width, e.qos, false, e.source, a.how.dest), a.how.front)
  {
  }

  /** An event an actor pushes is last in the pipe to the core of its destination, and one it
      sends goes there as a forward does. Any new event of a running core can be. */
  lemma PostedGoesOut(s: System, c: nat, e: Event, front: bool)
    requires Shape(s) && c < |s.cores| && s.cores[c].phase.Running? && Slot(s.route, e.source) == c && Slot(s.route, e.dest) < |s.cores|
    requires 1 <= e.width < 65536 && e.token !in s.ledger.created
    ensures var to, made := Slot(s.route, e.dest), s.(ledger := s.ledger.(created := s.ledger.created + [e.token]));
            if e.viaPush then
              var l := At(s, c, to);
              Apply(s, Push(c, to, e)) == Set(made, c, to, l.(pipe := l.pipe + [e], pushed := l.pushed + [e]))
            else SentOn(made, Apply(s, Send(c, to, e, front)), c, to, e, front)
  {
  }

  /** Sending an event on with the producer slot of its sender instead. */
  function ResendBySource(s: System, e: Event, front: bool): (r: System)
    requires Shape(s) && |s.cores| > 0
    ensures Shape(r) && |r.cores| == |s.cores|
  {
    var from, to := Slot(s.route, e.source), Slot(s.route, e.dest);
    Set(s, from, to, LinkSend(s.cap, from == to, At(s, from, to), e, front))
  }

  /** The sender's slot leaves every other core alone exactly when the sender is on the
      running core. */
  lemma BySourceIsSafeIff(s: System, d: nat, e: Event, front: bool)
    requires Shape(s) && d < |s.cores|
    ensures (forall c :: 0 <= c < |s.cores| && c != d ==> Untouched(s, ResendBySource(s, e, front), c))
            <==> Slot(s.route, e.source) == d
  {
    var from, to := Slot(s.route, e.source), Slot(s.route, e.dest);
    var l := LinkSend(s.cap, from == to, At(s, from, to), e, front);
    if from == d {
      forall c | 0 <= c < |s.cores| && c != d
        ensures Untouched(s, ResendBySource(s, e, front), c)
      {
        SetUntouched(s, from, to, l, c);
      }
    } else {
      assert !OwnerView(At(s, from, to), l);
      assert !Untouched(s, ResendBySource(s, e, front), from);
    }
  }

  const THREE: Config := Setup(3, 10, [0, 1, 2])

  /** Core 0 sends an event to core 2, which forwards it to core 1. */
  const SENT := Event(7, 1, 1, true, 0, 2)
  const RELAYED := Event(7, 1, 1, false, 0, 1)

  /** The state just before the forward: the event is in core 2's hands and nothing is on
      the way to core 1. */
  predicate BeforeRelay(s: System) {
    && Shape(s) && |s.cores| == 3 && s.cap == 10 && s.route == [0, 1, 2]
    && At(s, 0, 2).batch == [SENT] && At(s, 0, 1) == EMPTY_LINK && At(s, 2, 1) == EMPTY_LINK
  }

  lemma RelayReached()
    ensures BeforeRelay(Reached(THREE, [Push(0, 2, SENT), Attempt(0, 2), Take(0, 2, 1)]))
  {
    var s0 := Start(THREE);
    var s1 := Apply(s0, Push(0, 2, SENT));
    assert At(s1, 0, 2).pipe == [SENT] && At(s1, 0, 2).ring == [];
    var s2 := Apply(s1, Attempt(0, 2));
    assert At(s2, 0, 2).ring == [SENT];
    ThreeSteps(s0, Push(0, 2, SENT), Attempt(0, 2), Take(0, 2, 1));
  }

  lemma ThreeSteps(s: System, a: Step, b: Step, c: Step)
    requires Shape(s)
    ensures Run(s, [a, b, c]) == Apply(Apply(Apply(s, a), b), c)
  {
    var s1 := Apply(s, a);
    var s2 := Apply(s1, b);
    assert [a, b, c][1..] == [b, c] && [b, c][1..] == [c] && [c][1..] == [];
    assert Run(s2, [c]) == Apply(s2, c);
    assert Run(s1, [b, c]) == Run(s2, [c]);
  }

  /** With the sender's slot, the forward of core 2 would write the ring of core 0 to core 1,
      which core 0 writes itself; the real forward writes the ring of core 2. */
  lemma SlotBySourceHasTwoWriters(s: System)
    requires BeforeRelay(s)
    ensures Redirected(SENT, Forward(1, true)) == RELAYED
    ensures At(ResendBySource(s, RELAYED, true), 0, 1).ring == [RELAYED] && !Untouched(s, ResendBySource(s, RELAYED, true), 0)
    ensures At(Resend(s, 2, RELAYED, true), 0, 1) == At(s, 0, 1) && At(Resend(s, 2, RELAYED, true), 2, 1).ring == [RELAYED]
  {
    assert Width([]) == 0;
    BySourceIsSafeIff(s, 2, RELAYED, true);
    assert At(ResendBySource(s, RELAYED, true), 0, 1) == LinkSend(10, false, EMPTY_LINK, RELAYED, true);
  }
}
