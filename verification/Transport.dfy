/** The cross-core transport as a state machine over N cores.

    Every ordered pair of cores (c, d) has a `Link`: the outbound pipe of c for d, the
    single-producer ring of c in d's mailbox, and the batch d has copied out of that ring
    and is still walking. A core's pipe to itself is the link (c, c): it has no ring, and
    receiving swaps the pipe out as a batch. A run is a list of atomic `Step`s; `Apply`
    ignores a step that is not enabled, so every list of steps is a run and every
    interleaving of the cores is some list. */
module Transport {

  // ---------------------------------------------------------------- data model

  /** `token` names the payload the event owns, `width` is its `bucket_size`. `viaPush`
      says the event entered its pipe through `push` rather than `send`, `reply` or
      `forward`, which may overtake. `source` and `dest` are the ids of the cores of its
      sender and its destination; after `forward` the sender need not be on the core that
      sends it. */
  datatype Event = Event(token: nat, width: nat, qos: nat, viaPush: bool, source: nat, dest: nat)

  /** How an event left a pipe. */
  datatype Fate = Sent | Oversize | Lost | Abandoned

  datatype Exit = Exit(event: Event, fate: Fate)

  datatype Link = Link(
    pipe: seq<Event>,      // queued by the producer, not yet in the ring
    ring: seq<Event>,      // in the consumer's mailbox
    batch: seq<Event>,     // copied out by the consumer, not yet dispatched
    pushed: seq<Event>,    // history: everything `push`ed on this link
    log: seq<Exit>,        // history: everything that left the pipe, in order
    received: seq<Event>,  // history: everything dispatched by the consumer
    swept: seq<Event>)     // history: freed from the ring after every core stopped

  /** Running: the core has actors. Draining: its last actor is gone and it is in the
      residual loop at the end of its workflow. Stopped: it has published its flag. */
  datatype Phase = Running | Draining | Stopped

  datatype Core = Core(out: seq<Link>, stash: seq<Event>, phase: Phase)

  /** Payload accounting: tokens created, destroyed, and dropped best-effort (QoS 0, whose
      payload is trivially destructible), each in the order it happened. */
  datatype Ledger = Ledger(created: seq<nat>, disposed: seq<nat>, lost: seq<nat>)

  /** `cap` is the ring capacity in buckets, `route` the index table of the core set. */
  datatype System = System(cap: nat, route: seq<nat>, cores: seq<Core>, ledger: Ledger)

  /** What dispatching one event does with it: the router consumes it, the activation gate
      holds it in a stash, or the handler replies to it or forwards it to another core. */
  datatype Outcome = Consume | Hold | Reply(front: bool) | Forward(dest: nat, front: bool)

  datatype Step =
    | Push(c: nat, d: nat, e: Event)
    | Send(c: nat, d: nat, e: Event, front: bool)
    | Attempt(c: nat, d: nat)                        // one try_send on the head of a pipe
    | Take(c: nat, d: nat, n: nat)                   // d takes what it found in the ring of c, or swaps its own pipe
    | Dispatch(c: nat, d: nat, how: Outcome)         // d handles the head of a batch
    | Unstash(d: nat, i: nat, how: Outcome)          // d replays or disposes a stashed event
    | BeginDrain(c: nat)
    | Abandon(c: nat, d: nat)                        // c disposes the head of its pipe to a stopped core
    | Stop(c: nat)
    | Sweep(c: nat, d: nat)                          // Main::join frees one ring after every worker returned

  const EMPTY_LINK := Link([], [], [], [], [], [], [])

  // ---------------------------------------------------------------- shapes and updates

  /** The index table names mailboxes that exist. */
  predicate Routes(route: seq<nat>, n: nat) {
    forall id :: 0 <= id < |route| ==> route[id] < n
  }

  /** `CoreSet::resolve`: an id outside the table resolves to 0. */
  function Slot(route: seq<nat>, id: nat): nat {
    if id < |route| then route[id] else 0
  }

  predicate Shape(s: System) {
    Routes(s.route, |s.cores|) && forall c :: 0 <= c < |s.cores| ==> |s.cores[c].out| == |s.cores|
  }

  predicate InRange(s: System, c: nat, d: nat) {
    c < |s.cores| && d < |s.cores|
  }

  function At(s: System, c: nat, d: nat): Link
    requires Shape(s) && InRange(s, c, d)
  {
    s.cores[c].out[d]
  }

  function Set(s: System, c: nat, d: nat, l: Link): (r: System)
    requires Shape(s) && InRange(s, c, d)
    ensures Shape(r) && |r.cores| == |s.cores| && r.cap == s.cap && r.route == s.route && r.ledger == s.ledger
    ensures At(r, c, d) == l
    ensures forall i, j :: 0 <= i < |s.cores| && 0 <= j < |s.cores| && !(i == c && j == d) ==> At(r, i, j) == At(s, i, j)
    ensures forall i :: 0 <= i < |s.cores| ==> r.cores[i].stash == s.cores[i].stash && r.cores[i].phase == s.cores[i].phase
  {
    s.(cores := s.cores[c := s.cores[c].(out := s.cores[c].out[d := l])])
  }

  function SetStash(s: System, c: nat, stash: seq<Event>): (r: System)
    requires Shape(s) && c < |s.cores|
    ensures Shape(r) && |r.cores| == |s.cores| && r.route == s.route
    ensures forall i, j :: 0 <= i < |s.cores| && 0 <= j < |s.cores| ==> At(r, i, j) == At(s, i, j)
  {
    s.(cores := s.cores[c := s.cores[c].(stash := stash)])
  }

  function SetPhase(s: System, c: nat, p: Phase): (r: System)
    requires Shape(s) && c < |s.cores|
    ensures Shape(r) && |r.cores| == |s.cores| && r.route == s.route
    ensures forall i, j :: 0 <= i < |s.cores| && 0 <= j < |s.cores| ==> At(r, i, j) == At(s, i, j)
  {
    s.(cores := s.cores[c := s.cores[c].(phase := p)])
  }

  function Dispose(s: System, es: seq<Event>): System {
    s.(ledger := s.ledger.(disposed := s.ledger.disposed + Tokens(es)))
  }

  function Create(s: System, e: Event): System {
    s.(ledger := s.ledger.(created := s.ledger.created + [e.token]))
  }

  function Lose(s: System, e: Event): System {
    s.(ledger := s.ledger.(lost := s.ledger.lost + [e.token]))
  }

  // ---------------------------------------------------------------- sums over events

  function Width(es: seq<Event>): nat {
    if es == [] then 0 else es[0].width + Width(es[1..])
  }

  function Tokens(es: seq<Event>): (ts: seq<nat>)
    ensures |ts| == |es|
  {
    if es == [] then [] else [es[0].token] + Tokens(es[1..])
  }

  function PushOnly(es: seq<Event>): seq<Event> {
    if es == [] then [] else (if es[0].viaPush then [es[0]] else []) + PushOnly(es[1..])
  }

  function Events(log: seq<Exit>): (es: seq<Event>)
    ensures |es| == |log|
    ensures forall i :: 0 <= i < |log| ==> es[i] == log[i].event
  {
    if log == [] then [] else [log[0].event] + Events(log[1..])
  }

  /** The events of a log that reached the other side. */
  function Survivors(log: seq<Exit>): seq<Event> {
    if log == [] then [] else (if log[0].fate.Sent? then [log[0].event] else []) + Survivors(log[1..])
  }

  /** A log in which every event of `es` has the same fate. */
  function All(es: seq<Event>, f: Fate): (log: seq<Exit>)
    ensures |log| == |es|
    ensures forall i :: 0 <= i < |es| ==> log[i] == Exit(es[i], f)
  {
    if es == [] then [] else [Exit(es[0], f)] + All(es[1..], f)
  }

  /** How often a token occurs in a list. */
  function Occ(ts: seq<nat>, t: nat): nat {
    if ts == [] then 0 else (if ts[0] == t then 1 else 0) + Occ(ts[1..], t)
  }

  function Count(es: seq<Event>, t: nat): nat {
    if es == [] then 0 else (if es[0].token == t then 1 else 0) + Count(es[1..], t)
  }

  function LinkCount(l: Link, t: nat): nat {
    Count(l.pipe, t) + Count(l.ring, t) + Count(l.batch, t)
  }

  function RowCount(row: seq<Link>, t: nat): nat {
    if row == [] then 0 else LinkCount(row[0], t) + RowCount(row[1..], t)
  }

  function CoreCount(c: Core, t: nat): nat {
    RowCount(c.out, t) + Count(c.stash, t)
  }

  /** How many pipes, rings, batches and stashes hold the payload `t`, with multiplicity. */
  function Resident(cores: seq<Core>, t: nat): nat {
    if cores == [] then 0 else CoreCount(cores[0], t) + Resident(cores[1..], t)
  }

  // ---------------------------------------------------------------- links

  predicate Room(cap: nat, l: Link, e: Event) {
    Width(l.ring) + e.width <= cap
  }

  /** `push`: append to the pipe. */
  function LinkPush(l: Link, e: Event): Link {
    l.(pipe := l.pipe + [e], pushed := l.pushed + [e])
  }

  /** `send`, `reply`, `forward`: straight into the ring when the destination is remote and
      its ring has room, otherwise into the pipe, at the front or at the back. */
  function LinkSend(cap: nat, self: bool, l: Link, e: Event, front: bool): Link {
    if !self && Room(cap, l, e) then l.(ring := l.ring + [e])
    else if front then l.(pipe := [e] + l.pipe)
    else l.(pipe := l.pipe + [e])
  }

  /** The head leaves the pipe with the given fate. */
  function LinkLeave(l: Link, f: Fate): Link
    requires l.pipe != []
  {
    l.(pipe := l.pipe[1..],
       ring := if f.Sent? then l.ring + [l.pipe[0]] else l.ring,
       log := l.log + [Exit(l.pipe[0], f)])
  }

  /** The consumer takes the first n events of the ring, those it found there when it began
      to read, or swaps out its own pipe. */
  function LinkTake(self: bool, l: Link, n: nat): Link {
    if self then l.(pipe := [], batch := l.pipe, log := l.log + All(l.pipe, Sent))
    else
      var m := if n <= |l.ring| then n else |l.ring|;
      l.(ring := l.ring[m..], batch := l.ring[..m])
  }

  function LinkDispatch(l: Link): Link
    requires l.batch != []
  {
    l.(batch := l.batch[1..], received := l.received + [l.batch[0]])
  }

  function LinkSweep(l: Link): Link {
    l.(ring := [], swept := l.swept + l.ring)
  }

  // ---------------------------------------------------------------- steps

  /** An event of the run: at least one bucket wide and its uint16 size has not wrapped. */
  predicate Sized(e: Event) {
    1 <= e.width < 65536
  }

  /** An event that is sent on: a reply swaps its ends, a forward changes its destination
      only. */
  function Redirected(e: Event, how: Outcome): Event {
    match how
    case Reply(_) => e.(viaPush := false, source := e.dest, dest := e.source)
    case Forward(dest, _) => e.(viaPush := false, dest := dest)
    case _ => e
  }

  /** Core d sends an event on. The mailbox is the destination's; the producer slot in it,
      like the pipe, is the one of the core whose thread is running, whoever the sender
      was. */
  function Resend(s: System, d: nat, e: Event, front: bool): (r: System)
    requires Shape(s) && d < |s.cores|
    ensures Shape(r) && |r.cores| == |s.cores| && r.cap == s.cap && r.route == s.route
  {
    var to := Slot(s.route, e.dest);
    Set(s, d, to, LinkSend(s.cap, d == to, At(s, d, to), e, front))
  }

  /** What the state after handling `e` on core d is, `e` being owned by nobody else. */
  function Settle(s: System, d: nat, e: Event, how: Outcome): (r: System)
    requires Shape(s) && d < |s.cores|
    ensures Shape(r) && |r.cores| == |s.cores| && r.cap == s.cap && r.route == s.route
  {
    match how
    case Consume => Dispose(s, [e])
    case Hold => SetStash(s, d, s.cores[d].stash + [e])
    case _ => Resend(s, d, Redirected(e, how), how.front)
  }

  /** What a `try_send` of the head of a pipe decides when it is the last one: the ring
      takes it, no ring can ever hold it, or it is best-effort and dropped. None: retry. */
  datatype Verdict = Leaves(fate: Fate) | Stays

  function Judge(cap: nat, l: Link): Verdict
    requires l.pipe != []
  {
    var e := l.pipe[0];
    if Room(cap, l, e) then Leaves(Sent)
    else if e.width > cap then Leaves(Oversize)
    else if e.qos == 0 then Leaves(Lost)
    else Stays
  }

  function Depart(s: System, c: nat, d: nat, f: Fate): (r: System)
    requires Shape(s) && InRange(s, c, d) && At(s, c, d).pipe != []
    ensures Shape(r) && |r.cores| == |s.cores| && r.cap == s.cap && r.route == s.route
  {
    var l := At(s, c, d);
    var t := Set(s, c, d, LinkLeave(l, f));
    match f
    case Sent => t
    case Oversize => Dispose(t, [l.pipe[0]])
    case Lost => Lose(t, l.pipe[0])
    case Abandoned => Dispose(t, [l.pipe[0]])
  }

  predicate AllStopped(s: System) {
    forall c :: 0 <= c < |s.cores| ==> s.cores[c].phase.Stopped?
  }

  /** The core has nothing left to deliver or to flush: what the residual loop leaves. */
  predicate Drained(s: System, c: nat)
    requires Shape(s) && c < |s.cores|
  {
    && (forall d :: 0 <= d < |s.cores| ==> At(s, c, d).pipe == [])
    && (forall d :: 0 <= d < |s.cores| ==> At(s, d, c).batch == [])
  }

  /** Outcomes a core can produce: without actors nothing holds or re-sends an event. */
  predicate Allowed(s: System, d: nat, how: Outcome)
    requires d < |s.cores|
  {
    how.Consume? || s.cores[d].phase.Running?
  }

  /** A new event of an actor on core c for core d. */
  predicate Posts(s: System, c: nat, d: nat, e: Event) {
    && InRange(s, c, d) && s.cores[c].phase.Running? && Sized(e) && e.token !in s.ledger.created
    && Slot(s.route, e.source) == c && Slot(s.route, e.dest) == d
  }

  predicate Enabled(s: System, a: Step)
    requires Shape(s)
  {
    match a
    case Push(c, d, e) => Posts(s, c, d, e) && e.viaPush
    case Send(c, d, e, _) => Posts(s, c, d, e) && !e.viaPush
    case Attempt(c, d) =>
      InRange(s, c, d) && c != d && !s.cores[c].phase.Stopped? && At(s, c, d).pipe != []
    case Take(c, d, _) =>
      InRange(s, c, d) && !s.cores[d].phase.Stopped? && At(s, c, d).batch == []
    case Dispatch(c, d, how) =>
      InRange(s, c, d) && At(s, c, d).batch != [] && Allowed(s, d, how)
    case Unstash(d, i, how) =>
      d < |s.cores| && i < |s.cores[d].stash| && Allowed(s, d, how) && !how.Hold?
    case BeginDrain(c) =>
      c < |s.cores| && s.cores[c].phase.Running? && s.cores[c].stash == []
    case Abandon(c, d) =>
      InRange(s, c, d) && c != d && s.cores[c].phase.Draining? && s.cores[d].phase.Stopped? && At(s, c, d).pipe != []
    case Stop(c) =>
      c < |s.cores| && s.cores[c].phase.Draining? && Drained(s, c)
    case Sweep(c, d) => InRange(s, c, d) && AllStopped(s)
  }

  function Apply(s: System, a: Step): (r: System)
    requires Shape(s)
    ensures Shape(r) && |r.cores| == |s.cores| && r.cap == s.cap && r.route == s.route
  {
    if !Enabled(s, a) then s else
    match a
    case Push(c, d, e) => Create(Set(s, c, d, LinkPush(At(s, c, d), e)), e)
    case Send(c, d, e, front) => Create(Set(s, c, d, LinkSend(s.cap, c == d, At(s, c, d), e, front)), e)
    case Attempt(c, d) =>
      (match Judge(s.cap, At(s, c, d))
       case Leaves(f) => Depart(s, c, d, f)
       case Stays => s)
    case Take(c, d, n) => Set(s, c, d, LinkTake(c == d, At(s, c, d), n))
    case Dispatch(c, d, how) =>
      Settle(Set(s, c, d, LinkDispatch(At(s, c, d))), d, At(s, c, d).batch[0], how)
    case Unstash(d, i, how) =>
      var st := s.cores[d].stash;
      Settle(SetStash(s, d, st[..i] + st[i + 1..]), d, st[i], how)
    case BeginDrain(c) => SetPhase(s, c, Draining)
    case Abandon(c, d) => Depart(s, c, d, Abandoned)
    case Stop(c) => SetPhase(s, c, Stopped)
    case Sweep(c, d) => Dispose(Set(s, c, d, LinkSweep(At(s, c, d))), At(s, c, d).ring)
  }

  /** The core whose thread performs a step (the number of cores for `Main::join`). */
  function By(s: System, a: Step): nat {
    match a
    case Push(c, _, _) => c
    case Send(c, _, _, _) => c
    case Attempt(c, _) => c
    case Take(_, d, _) => d
    case Dispatch(_, d, _) => d
    case Unstash(d, _, _) => d
    case BeginDrain(c) => c
    case Abandon(c, _) => c
    case Stop(c) => c
    case Sweep(_, _) => |s.cores|
  }

  function Run(s: System, steps: seq<Step>): (r: System)
    requires Shape(s)
    ensures Shape(r) && |r.cores| == |s.cores| && r.cap == s.cap && r.route == s.route
    decreases |steps|
  {
    if steps == [] then s else Run(Apply(s, steps[0]), steps[1..])
  }

  /** What the engine is built with: the number of cores, the ring capacity and the index
      table of the core set. */
  datatype Setup = Setup(n: nat, cap: nat, route: seq<nat>)

  type Config = g: Setup | Routes(g.route, g.n) witness Setup(0, 0, [])

  function Start(g: Config): (s: System)
    ensures Shape(s)
  {
    System(g.cap, g.route,
           seq(g.n, i => Core(seq(g.n, j => EMPTY_LINK), [], Running)),
           Ledger([], [], []))
  }
}
