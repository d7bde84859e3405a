/** Asks in flight on one thread: correlation ids, the registry of slots, and awaiters with
    three wake sources guarded by one flag. */
module Ask {
  import opened Words

  // ---------------------------------------------------------------- correlation ids

  /** 2^48 and 2^64. */
  const ASKS: nat := 0x1_0000_0000_0000
  const COUNTS: nat := 0x1_0000_0000_0000_0000

  /** The id of ask number `n` by an actor of core `core`: the core in the high 16 bits,
      combined with the number. */
  function Mint(core: nat, n: nat): nat {
    Or(core * ASKS, n)
  }

  lemma OrDoubled(x: nat, y: nat, b: nat)
    requires b < 2
    ensures Or(2 * x, 2 * y + b) == 2 * Or(x, y) + b
  {
  }

  /** `x << k` */
  function Shl(x: nat, k: nat): nat
    decreases k
  {
    if k == 0 then x else 2 * Shl(x, k - 1)
  }

  lemma {:induction false} ShlIsTimes(x: nat, k: nat)
    ensures Shl(x, k) == x * Pow2(k)
    decreases k
  {
    if k > 0 {
      ShlIsTimes(x, k - 1);
    }
  }

  /** Or-ing a shifted number changes the high part only. */
  lemma {:induction false} OrShifted(x: nat, q: nat, r: nat, k: nat)
    requires r < Pow2(k)
    ensures Or(Shl(x, k), Shl(q, k) + r) == Shl(Or(x, q), k) + r
    decreases k
  {
    if k > 0 {
      OrShifted(x, q, r / 2, k - 1);
      OrDoubled(Shl(x, k - 1), Shl(q, k - 1) + r / 2, r % 2);
    }
  }

  lemma OrHigh(x: nat, q: nat, r: nat, k: nat)
    requires Pow2(k) == ASKS && r < ASKS
    ensures Or(x * ASKS, q * ASKS + r) == Or(x, q) * ASKS + r
  {
    OrShifted(x, q, r, k);
    ShlIsTimes(x, k);
    ShlIsTimes(q, k);
    ShlIsTimes(Or(x, q), k);
  }

  lemma AsksIsPow2()
    ensures Pow2(48) == ASKS
  {
    assert Pow2(4) == 0x10;
    Pow2Sum(4, 4);
    Pow2Sum(8, 8);
    Pow2Sum(16, 16);
    Pow2Sum(32, 16);
  }

  /** The high part of an id is the core or-ed with what the number has beyond 48 bits. */
  lemma MintParts(core: nat, n: nat)
    ensures Mint(core, n) == Or(core, n / ASKS) * ASKS + n % ASKS
    ensures Mint(core, n) / ASKS == Or(core, n / ASKS) && Mint(core, n) % ASKS == n % ASKS
  {
    AsksIsPow2();
    OrHigh(core, n / ASKS, n % ASKS, 48);
  }

  /** Exactly when two asks have the same id, on any two cores and for any numbers. */
  lemma SameIdIff(a: nat, n: nat, b: nat, m: nat)
    ensures Mint(a, n) == Mint(b, m) <==> n % ASKS == m % ASKS && Or(a, n / ASKS) == Or(b, m / ASKS)
  {
    MintParts(a, n);
    MintParts(b, m);
  }

  /** Below 2^48 asks per core, ids are unique across cores and name the core they belong
      to, so that a lookup on another core misses. */
  lemma IdsAreUnique(a: nat, n: nat, b: nat, m: nat)
    requires n < ASKS && m < ASKS
    ensures Mint(a, n) == Mint(b, m) <==> a == b && n == m
    ensures Mint(a, n) / ASKS == a
  {
    SameIdIff(a, n, b, m);
    MintParts(a, n);
  }

  /** Beyond it they are not: the next ask of core 0 has the id of the first of core 1. */
  lemma IdsCollideBeyond()
    ensures Mint(0, ASKS + 1) == Mint(1, 1)
  {
    SameIdIff(0, ASKS + 1, 1, 1);
  }

  // ---------------------------------------------------------------- awaiters

  datatype Outcome = Pending | Replied(reply: nat) | TimedOut | Cancelled

  /** `scheduled` is history: how often the continuation was scheduled. */
  datatype Awaiter = Awaiter(
    id: nat, owner: nat, scope: nat, timed: bool, done: bool, outcome: Outcome,
    suspended: bool, timerStarted: bool, scheduled: nat)

  /** One thread. Awaiters are named by numbers that are never used twice. */
  datatype State = State(
    slots: map<nat, nat>,          // correlation id to awaiter
    counter: nat,
    frames: map<nat, Awaiter>,     // the awaiters that exist
    born: nat,
    timers: set<nat>,              // awaiters whose timer the event loop holds
    hooks: set<nat>,               // awaiters whose cancel hook their scope holds
    cancelled: set<nat>)           // cancelled scopes

  /** Something can still wake the awaiter. */
  predicate Wakeable(s: State, a: nat) {
    a in s.timers || a in s.hooks || exists id :: id in s.slots && s.slots[id] == a
  }

  predicate AwaiterOk(s: State, a: nat)
    requires a in s.frames
  {
    var k := s.frames[a];
    && k.scheduled <= 1 && (k.done <==> k.outcome != Pending) && (k.done ==> k.scheduled == 1)
    && (k.scheduled == 1 && !k.done ==> !Wakeable(s, a))
    && (a in s.timers ==> k.timerStarted)
  }

  /** Every slot, timer and hook belongs to an awaiter that exists. */
  predicate Inv(s: State) {
    && (forall id :: id in s.slots ==> s.slots[id] in s.frames && s.frames[s.slots[id]].id == id)
    && s.timers <= s.frames.Keys && s.hooks <= s.frames.Keys
    && (forall a :: a in s.hooks ==> s.frames[a].scope !in s.cancelled)
    && (forall a :: a in s.frames ==> a < s.born && AwaiterOk(s, a))
  }

  /** What no later step changes: an outcome once set stays, and no continuation is
      scheduled twice. */
  predicate Follows(s: State, t: State) {
    && s.born <= t.born && (forall a :: a in s.frames ==> a < s.born)
    && (forall a :: a in t.frames && a < s.born ==> a in s.frames)
    && (forall a :: a in s.frames && a in t.frames ==>
          && t.frames[a].id == s.frames[a].id && t.frames[a].owner == s.frames[a].owner
          && t.frames[a].scope == s.frames[a].scope && t.frames[a].timed == s.frames[a].timed
          && s.frames[a].scheduled <= t.frames[a].scheduled
          && (s.frames[a].done ==> t.frames[a].done && t.frames[a].outcome == s.frames[a].outcome))
  }

  /** While there were fewer than 2^48 asks, awaiter number `a` has the id of ask `a + 1` of
      this core. */
  predicate Own(core: nat, s: State) {
    s.born < ASKS ==> s.counter == s.born && forall a :: a in s.frames ==> s.frames[a].id == Mint(core, a + 1)
  }

  lemma FollowsOwn(core: nat, s: State, t: State)
    requires Own(core, s) && Follows(s, t) && t.born == s.born && t.counter == s.counter && forall a :: a in t.frames ==> a < t.born
    ensures Own(core, t)
  {
  }

  /** An id minted on one core never resolves a slot on another. */
  lemma ForeignIdMisses(core: nat, s: State, other: nat, n: nat)
    requires Inv(s) && Own(core, s) && s.born < ASKS && other != core && n < ASKS
    ensures Mint(other, n) !in s.slots
  {
    if Mint(other, n) in s.slots {
      var a := s.slots[Mint(other, n)];
      IdsAreUnique(core, a + 1, other, n);
    }
  }

  lemma FollowsTwice(s: State, t: State, u: State)
    requires Follows(s, t) && Follows(t, u)
    ensures Follows(s, u)
  {
  }

  /** A wake source found the awaiter not done. */
  function Woken(k: Awaiter, outcome: Outcome): Awaiter {
    k.(done := true, outcome := outcome, scheduled := k.scheduled + 1)
  }

  function Wake(s: State, a: nat, outcome: Outcome): State
    requires a in s.frames
  {
    s.(frames := s.frames[a := Woken(s.frames[a], outcome)])
  }

  lemma WakeKeeps(s: State, a: nat, outcome: Outcome)
    requires Inv(s) && a in s.frames && s.frames[a].scheduled == 0 && outcome != Pending
    ensures Inv(Wake(s, a, outcome)) && Follows(s, Wake(s, a, outcome)) && Wake(s, a, outcome).frames[a].scheduled == 1
  {
    var t := Wake(s, a, outcome);
    assert AwaiterOk(s, a);
    forall b | b in t.frames
      ensures b < t.born && AwaiterOk(t, b)
    {
      assert AwaiterOk(s, b);
      assert Wakeable(t, b) == Wakeable(s, b);
    }
  }

  /** Taking away slots, timers and hooks, and whole awaiters that have none left. */
  predicate Dropped(s: State, t: State) {
    && t.born == s.born && s.cancelled <= t.cancelled
    && (forall a :: a in t.hooks && a in s.frames ==> s.frames[a].scope !in t.cancelled)
    && t.slots.Keys <= s.slots.Keys && (forall id :: id in t.slots ==> t.slots[id] == s.slots[id])
    && t.timers <= s.timers && t.hooks <= s.hooks
    && t.frames.Keys <= s.frames.Keys
    && (forall a :: a in t.frames ==> t.frames[a] == s.frames[a].(timerStarted := t.frames[a].timerStarted))
    && (forall a :: a in t.timers ==> a in t.frames && t.frames[a].timerStarted)
    && (forall a :: a in s.frames && a !in t.frames ==> !Wakeable(t, a))
  }

  lemma DroppedKeeps(s: State, t: State)
    requires Inv(s) && Dropped(s, t)
    ensures Inv(t) && Follows(s, t)
  {
    forall id | id in t.slots
      ensures t.slots[id] in t.frames && t.frames[t.slots[id]].id == id
    {
      assert Wakeable(t, t.slots[id]);
    }
    forall a | a in t.timers + t.hooks
      ensures a in t.frames
    {
      assert Wakeable(t, a);
    }
    forall a | a in t.frames
      ensures AwaiterOk(t, a)
    {
      assert AwaiterOk(s, a);
      assert Wakeable(t, a) ==> Wakeable(s, a);
    }
  }

  /** These awaiters are done, cancelled if they were not done before; the others are as
      they were. */
  predicate Fired(before: map<nat, Awaiter>, after: map<nat, Awaiter>, hooked: set<nat>) {
    && after.Keys == before.Keys
    && forall a :: a in after ==>
         after[a] == if a in hooked && !before[a].done then Woken(before[a], Cancelled) else before[a]
  }

  lemma FiredOne(before: map<nat, Awaiter>, mid: map<nat, Awaiter>, after: map<nat, Awaiter>, hooked: set<nat>, a: nat)
    requires a in before && a !in hooked && Fired(before, mid, hooked)
    requires after == mid[a := if mid[a].done then mid[a] else Woken(mid[a], Cancelled)]
    ensures Fired(before, after, hooked + {a})
  {
  }

  lemma HookedAreWaiting(s: State, all: set<nat>)
    requires Inv(s) && all <= s.hooks
    ensures forall a :: a in all ==> s.frames[a].done || s.frames[a].scheduled == 0
  {
    forall a | a in all
      ensures s.frames[a].done || s.frames[a].scheduled == 0
    {
      assert AwaiterOk(s, a) && Wakeable(s, a);
    }
  }

  /** `await_suspend`: on a cancelled scope it only schedules; otherwise it arms the three
      wake sources. */
  function Suspended(s: State, a: nat): State
    requires a in s.frames
  {
    var k := s.frames[a];
    if k.scope in s.cancelled then s.(frames := s.frames[a := k.(suspended := true, scheduled := k.scheduled + 1)])
    else s.(slots := s.slots[k.id := a], timers := if k.timed then s.timers + {a} else s.timers, hooks := s.hooks + {a},
            frames := s.frames[a := k.(suspended := true, timerStarted := k.timed)])
  }

  // ---------------------------------------------------------------- the thread as a function

  /** The counter wraps at 2^64 and skips 0. */
  function Counted(n: nat): nat {
    if (n + 1) % COUNTS == 0 then 1 else (n + 1) % COUNTS
  }

  function CreatedIn(s: State, core: nat, owner: nat, scope: nat, timed: bool): State {
    var n := Counted(s.counter);
    s.(counter := n, born := s.born + 1,
       frames := s.frames[s.born := Awaiter(Mint(core, n), owner, scope, timed, false, Pending, false, false, 0)])
  }

  /** `finish` */
  function FinishedIn(s: State, a: nat): State
    requires a in s.frames
  {
    var k := s.frames[a];
    s.(slots := s.slots - {k.id}, hooks := s.hooks - {a},
       timers := if k.timerStarted then s.timers - {a} else s.timers,
       frames := s.frames[a := k.(timerStarted := false)])
  }

  function AskedIn(s: State, core: nat, owner: nat, scope: nat, timed: bool): State {
    var t := CreatedIn(s, core, owner, scope, timed);
    if scope in s.cancelled then FinishedIn(t, s.born) else Suspended(t, s.born)
  }

  /** A reply is taken when the registry has its id for this owner and it is not done. */
  predicate Takes(s: State, id: nat, owner: nat) {
    id != 0 && id in s.slots && s.slots[id] in s.frames && s.frames[s.slots[id]].owner == owner && !s.frames[s.slots[id]].done
  }

  function DeliveredIn(s: State, id: nat, owner: nat, reply: nat): State {
    if Takes(s, id, owner) then Wake(s, s.slots[id], Replied(reply)) else s
  }

  function ExpiredIn(s: State, a: nat): State
    requires a in s.frames
  {
    var t := if s.frames[a].done then s else Wake(s, a, TimedOut);
    t.(timers := s.timers - {a})
  }

  /** The awaiters a scope holds the hooks of. */
  function Hooked(s: State, scope: nat): set<nat> {
    set a | a in s.hooks && a in s.frames && s.frames[a].scope == scope
  }

  function CancelledIn(s: State, scope: nat): State {
    if scope in s.cancelled then s
    else
      s.(cancelled := s.cancelled + {scope}, hooks := s.hooks - Hooked(s, scope),
         frames := map a | a in s.frames ::
           if a in Hooked(s, scope) && !s.frames[a].done then Woken(s.frames[a], Cancelled) else s.frames[a])
  }

  function DestroyedIn(s: State, a: nat): State
    requires a in s.frames
  {
    var t := FinishedIn(s, a);
    t.(frames := t.frames - {a})
  }

  datatype Command =
    | Begin(owner: nat, scope: nat, timed: bool)
    | Reply(id: nat, owner: nat, reply: nat)
    | Timeout(a: nat)
    | Cancel(scope: nat)
    | Resume(a: nat)
    | End(a: nat)

  function DoIn(s: State, core: nat, command: Command): State {
    match command
    case Begin(owner, scope, timed) => AskedIn(s, core, owner, scope, timed)
    case Reply(id, owner, reply) => DeliveredIn(s, id, owner, reply)
    case Timeout(a) => if a in s.timers && a in s.frames then ExpiredIn(s, a) else s
    case Cancel(scope) => CancelledIn(s, scope)
    case Resume(a) => if a in s.frames && s.frames[a].scheduled == 1 then FinishedIn(s, a) else s
    case End(a) => if a in s.frames then DestroyedIn(s, a) else s
  }

  function RunIn(s: State, core: nat, commands: seq<Command>): State
    decreases |commands|
  {
    if commands == [] then s else RunIn(DoIn(s, core, commands[0]), core, commands[1..])
  }

  lemma CancelledShape(s: State, scope: nat)
    requires Inv(s)
    ensures var t := CancelledIn(s, scope);
            && Fired(s.frames, t.frames, Hooked(s, scope)) && t.cancelled == s.cancelled + {scope}
            && forall a :: a in t.hooks <==> a in s.hooks && s.frames[a].scope != scope
  {
    if scope in s.cancelled {
      assert Hooked(s, scope) == {};
      assert s.cancelled + {scope} == s.cancelled;
    }
  }

  /** The scope is cancelled and lets go of its hooks before they run. */
  lemma UnhookedKeeps(s: State, scope: nat)
    requires Inv(s)
    ensures var t := s.(cancelled := s.cancelled + {scope}, hooks := s.hooks - Hooked(s, scope)); Inv(t) && Follows(s, t)
  {
    DroppedKeeps(s, s.(cancelled := s.cancelled + {scope}, hooks := s.hooks - Hooked(s, scope)));
  }

  lemma FiredFrames(s: State, scope: nat, after: map<nat, Awaiter>)
    requires scope !in s.cancelled && Fired(s.frames, after, Hooked(s, scope))
    ensures after == CancelledIn(s, scope).frames
  {
  }

  lemma SuspendKeeps(s: State, a: nat)
    requires Inv(s) && a in s.frames && !Wakeable(s, a) && s.frames[a].scheduled == 0
    ensures Inv(Suspended(s, a)) && Follows(s, Suspended(s, a))
    ensures s.frames[a].scope in s.cancelled ==> !Wakeable(Suspended(s, a), a)
  {
    var t := Suspended(s, a);
    assert AwaiterOk(s, a);
    forall b | b in t.frames
      ensures b < t.born && AwaiterOk(t, b)
    {
      assert AwaiterOk(s, b);
      assert b != a && Wakeable(t, b) ==> Wakeable(s, b);
    }
    assert s.frames[a].scope in s.cancelled ==> Wakeable(t, a) == Wakeable(s, a);
  }

  // ---------------------------------------------------------------- every command

  /** Nothing but awaiter a, its slot, its timer and its hook is touched. */
  predicate OnlyTouches(s: State, t: State, a: nat)
    requires a in s.frames
  {
    && t.born == s.born && t.counter == s.counter && t.cancelled == s.cancelled
    && t.slots - {s.frames[a].id} == s.slots - {s.frames[a].id}
    && t.timers - {a} == s.timers - {a} && t.hooks - {a} == s.hooks - {a} && t.frames - {a} == s.frames - {a}
  }

  lemma CreateKeeps(s: State, core: nat, owner: nat, scope: nat, timed: bool)
    requires Inv(s)
    ensures var t := CreatedIn(s, core, owner, scope, timed);
            Inv(t) && Follows(s, t) && (Own(core, s) ==> Own(core, t)) && !Wakeable(t, s.born)
  {
    var t := CreatedIn(s, core, owner, scope, timed);
    forall b | b in t.frames
      ensures b < t.born && AwaiterOk(t, b)
    {
      if b != s.born {
        assert AwaiterOk(s, b);
        assert Wakeable(t, b) == Wakeable(s, b);
      }
    }
  }

  lemma FinishKeeps(s: State, a: nat)
    requires Inv(s) && a in s.frames
    ensures var t := FinishedIn(s, a);
            Inv(t) && Follows(s, t) && !Wakeable(t, a) && OnlyTouches(s, t, a)
  {
    assert AwaiterOk(s, a);
    DroppedKeeps(s, FinishedIn(s, a));
  }

  lemma DestroyKeeps(s: State, a: nat)
    requires Inv(s) && a in s.frames
    ensures var t := DestroyedIn(s, a);
            Inv(t) && Follows(s, t) && !Wakeable(t, a) && OnlyTouches(s, t, a) && a !in t.frames
  {
    var m, t := FinishedIn(s, a), DestroyedIn(s, a);
    FinishKeeps(s, a);
    assert Wakeable(t, a) == Wakeable(m, a);
    DroppedKeeps(m, t);
    FollowsTwice(s, m, t);
  }

  lemma AskKeeps(s: State, core: nat, owner: nat, scope: nat, timed: bool)
    requires Inv(s) && Own(core, s)
    ensures var t := AskedIn(s, core, owner, scope, timed); Inv(t) && Own(core, t) && Follows(s, t)
  {
    var m, t := CreatedIn(s, core, owner, scope, timed), AskedIn(s, core, owner, scope, timed);
    CreateKeeps(s, core, owner, scope, timed);
    if scope in s.cancelled {
      FinishKeeps(m, s.born);
    } else {
      SuspendKeeps(m, s.born);
    }
    FollowsOwn(core, m, t);
    FollowsTwice(s, m, t);
  }

  lemma DeliverKeeps(s: State, id: nat, owner: nat, reply: nat)
    requires Inv(s)
    ensures var t := DeliveredIn(s, id, owner, reply); Inv(t) && Follows(s, t)
  {
    if Takes(s, id, owner) {
      assert Wakeable(s, s.slots[id]) && AwaiterOk(s, s.slots[id]);
      WakeKeeps(s, s.slots[id], Replied(reply));
    }
  }

  lemma ExpireKeeps(s: State, a: nat)
    requires Inv(s) && a in s.timers && a in s.frames
    ensures var t := ExpiredIn(s, a); Inv(t) && Follows(s, t)
  {
    assert AwaiterOk(s, a) && Wakeable(s, a);
    var m := if s.frames[a].done then s else Wake(s, a, TimedOut);
    if !s.frames[a].done {
      WakeKeeps(s, a, TimedOut);
    }
    DroppedKeeps(m, ExpiredIn(s, a));
    FollowsTwice(s, m, ExpiredIn(s, a));
  }

  lemma CancelKeeps(s: State, scope: nat)
    requires Inv(s)
    ensures var t := CancelledIn(s, scope); Inv(t) && Follows(s, t)
  {
    var t := CancelledIn(s, scope);
    HookedAreWaiting(s, Hooked(s, scope));
    forall b | b in t.frames
      ensures b < t.born && AwaiterOk(t, b)
    {
      assert AwaiterOk(s, b);
      assert Wakeable(t, b) ==> Wakeable(s, b);
    }
  }

  lemma DoKeeps(s: State, core: nat, command: Command)
    requires Inv(s) && Own(core, s)
    ensures var t := DoIn(s, core, command); Inv(t) && Own(core, t) && Follows(s, t)
  {
    match command {
      case Begin(owner, scope, timed) => AskKeeps(s, core, owner, scope, timed);
      case Reply(id, owner, reply) => DeliverKeeps(s, id, owner, reply);
      case Timeout(a) => if a in s.timers && a in s.frames { ExpireKeeps(s, a); }
      case Cancel(scope) => CancelKeeps(s, scope);
      case Resume(a) => if a in s.frames { FinishKeeps(s, a); }
      case End(a) => if a in s.frames { DestroyKeeps(s, a); }
    }
    if !command.Begin? {
      FollowsOwn(core, s, DoIn(s, core, command));
    }
  }

  // ---------------------------------------------------------------- asks that wait

  /** Suspended and not yet decided. */
  predicate Waiting(s: State, a: nat) {
    a in s.frames && s.frames[a].suspended && !s.frames[a].done && s.frames[a].scheduled == 0
  }

  /** Its reply finds it, its scope holds its hook, and the loop its timer if it has one. */
  predicate Armed(s: State, a: nat)
    requires a in s.frames
  {
    && s.frames[a].id in s.slots && s.slots[s.frames[a].id] == a && a in s.hooks
    && (s.frames[a].timed ==> a in s.timers)
  }

  ghost predicate AllArmed(s: State) {
    s.born < ASKS ==> forall a :: Waiting(s, a) ==> Armed(s, a)
  }

  /** Below 2^48 asks no two awaiters share an id. */
  lemma Distinct(core: nat, s: State, a: nat, b: nat)
    requires Inv(s) && Own(core, s) && s.born < ASKS && a in s.frames && b in s.frames && a != b
    ensures s.frames[a].id != s.frames[b].id
  {
    IdsAreUnique(core, a + 1, core, b + 1);
  }

  /** What concerns one awaiter leaves the others armed. */
  lemma OthersStayArmed(core: nat, s: State, t: State, a: nat)
    requires Inv(s) && Own(core, s) && s.born < ASKS && a in s.frames && OnlyTouches(s, t, a)
    requires forall b :: Waiting(s, b) && b != a ==> Armed(s, b)
    ensures forall b :: Waiting(t, b) && b != a ==> Armed(t, b)
  {
    forall b | Waiting(t, b) && b != a
      ensures Armed(t, b)
    {
      assert b in t.frames - {a} && b in s.frames - {a};
      assert s.frames[b] == (s.frames - {a})[b] == (t.frames - {a})[b] == t.frames[b];
      assert Waiting(s, b) && Armed(s, b);
      Distinct(core, s, a, b);
      var id := s.frames[b].id;
      assert id in s.slots - {s.frames[a].id} && (s.slots - {s.frames[a].id})[id] == b;
      assert id in t.slots - {s.frames[a].id};
      assert b in s.hooks - {a};
      assert s.frames[b].timed ==> b in s.timers - {a};
    }
  }

  lemma SuspendTouchesOne(s: State, a: nat)
    requires a in s.frames
    ensures OnlyTouches(s, Suspended(s, a), a)
  {
  }

  lemma AskTouchesOne(s: State, core: nat, owner: nat, scope: nat, timed: bool)
    requires Inv(s)
    ensures OnlyTouches(CreatedIn(s, core, owner, scope, timed), AskedIn(s, core, owner, scope, timed), s.born)
    ensures var t := AskedIn(s, core, owner, scope, timed); Waiting(t, s.born) ==> Armed(t, s.born)
  {
  }

  lemma AskArms(core: nat, s: State, owner: nat, scope: nat, timed: bool)
    requires Inv(s) && Own(core, s) && AllArmed(s)
    ensures AllArmed(AskedIn(s, core, owner, scope, timed))
  {
    var m, t := CreatedIn(s, core, owner, scope, timed), AskedIn(s, core, owner, scope, timed);
    if t.born < ASKS {
      CreateKeeps(s, core, owner, scope, timed);
      AskTouchesOne(s, core, owner, scope, timed);
      forall b | Waiting(m, b) && b != s.born
        ensures Armed(m, b)
      {
        assert Waiting(s, b);
      }
      OthersStayArmed(core, m, t, s.born);
    }
  }

  lemma CancelArms(s: State, scope: nat)
    requires Inv(s) && AllArmed(s)
    ensures AllArmed(CancelledIn(s, scope))
  {
    var t := CancelledIn(s, scope);
    if t.born < ASKS {
      forall b | Waiting(t, b)
        ensures Armed(t, b)
      {
        assert Waiting(s, b);
      }
    }
  }

  /** Every command leaves every waiting ask armed. */
  lemma DoArms(core: nat, s: State, command: Command)
    requires Inv(s) && Own(core, s) && AllArmed(s)
    ensures AllArmed(DoIn(s, core, command))
  {
    var t := DoIn(s, core, command);
    if t.born < ASKS {
      match command
      case Begin(owner, scope, timed) => AskArms(core, s, owner, scope, timed);
      case Cancel(scope) => CancelArms(s, scope);
      case Reply(id, owner, reply) =>
        if Takes(s, id, owner) {
          OthersStayArmed(core, s, t, s.slots[id]);
        }
      case Timeout(a) =>
        if a in s.timers && a in s.frames {
          OthersStayArmed(core, s, t, a);
        }
      case Resume(a) =>
        if a in s.frames && s.frames[a].scheduled == 1 {
          FinishKeeps(s, a);
          OthersStayArmed(core, s, t, a);
        }
      case End(a) =>
        if a in s.frames {
          DestroyKeeps(s, a);
          OthersStayArmed(core, s, t, a);
        }
    }
  }

  lemma {:induction false} RunArms(core: nat, s: State, commands: seq<Command>)
    requires Inv(s) && Own(core, s) && AllArmed(s)
    ensures var t := RunIn(s, core, commands); Inv(t) && Own(core, t) && AllArmed(t)
    decreases |commands|
  {
    if commands != [] {
      DoKeeps(s, core, commands[0]);
      DoArms(core, s, commands[0]);
      RunArms(core, DoIn(s, core, commands[0]), commands[1..]);
    }
  }

  const NEW_THREAD := State(map[], 0, map[], 0, {}, {}, {})

  /** After any run of fewer than 2^48 asks, an ask that was not decided, resumed or destroyed
      takes its reply, its timeout and the end of its scope, whichever comes first. */
  lemma WaitingAskIsServed(core: nat, commands: seq<Command>, a: nat, reply: nat)
    requires var s := RunIn(NEW_THREAD, core, commands); s.born < ASKS && Waiting(s, a)
    ensures var s := RunIn(NEW_THREAD, core, commands);
            var k := s.frames[a];
            var r, x, c := DoIn(s, core, Reply(k.id, k.owner, reply)), DoIn(s, core, Timeout(a)), DoIn(s, core, Cancel(k.scope));
            && a in r.frames && r.frames[a].outcome == Replied(reply) && r.frames[a].scheduled == 1
            && a in x.frames && (k.timed ==> x.frames[a].outcome == TimedOut && x.frames[a].scheduled == 1)
            && a in c.frames && c.frames[a].outcome == Cancelled && c.frames[a].scheduled == 1
  {
    RunArms(core, NEW_THREAD, commands);
    var s := RunIn(NEW_THREAD, core, commands);
    assert Armed(s, a) && AwaiterOk(s, a);
    IdsAreUnique(core, a + 1, core, 0);
    assert s.frames[a].id != 0 by {
      MintParts(core, a + 1);
    }
  }

  class AskThread {
    const core: nat
    var slots: map<nat, nat>
    var counter: nat
    var frames: map<nat, Awaiter>
    var born: nat
    var timers: set<nat>
    var hooks: set<nat>
    var cancelled: set<nat>

    ghost function View(): State
      reads this
    {
      State(slots, counter, frames, born, timers, hooks, cancelled)
    }

    constructor (index: nat)
      ensures core == index && Inv(View()) && Own(core, View()) && View() == NEW_THREAD
    {
      core := index;
      slots, counter, frames, born := map[], 0, map[], 0;
      timers, hooks, cancelled := {}, {}, {};
    }

    /** The next correlation id; never 0, which means no ask. The counter wraps at 2^64. */
    method NextId() returns (id: nat)
      modifies this`counter
      ensures counter == Counted(old(counter)) && 1 <= counter < COUNTS && id == Mint(core, counter) != 0
      ensures old(counter) + 1 < COUNTS ==> counter == old(counter) + 1
    {
      counter := (counter + 1) % COUNTS;
      if counter == 0 {
        counter := 1;
      }
      OrAtLeast(core * ASKS, counter);
      return Mint(core, counter);
    }

    /** Constructs the awaiter of a new ask. */
    method Create(owner: nat, scope: nat, timed: bool) returns (a: nat)
      requires Inv(View())
      modifies this
      ensures View() == CreatedIn(old(View()), core, owner, scope, timed)
      ensures Inv(View()) && Follows(old(View()), View()) && (old(Own(core, View())) ==> Own(core, View()))
      ensures a == old(born) && a in frames && frames[a].id == Mint(core, counter) && frames[a].owner == owner
      ensures !frames[a].suspended && frames[a].scheduled == 0 && !Wakeable(View(), a)
      ensures frames[a].scope == scope && frames[a].timed == timed
      ensures cancelled == old(cancelled)
    {
      var id := NextId();
      a := born;
      frames := frames[a := Awaiter(id, owner, scope, timed, false, Pending, false, false, 0)];
      born := born + 1;
      CreateKeeps(old(View()), core, owner, scope, timed);
    }

    /** `await_suspend`: on a cancelled scope it only schedules; otherwise it arms the three
        wake sources. */
    method Suspend(a: nat)
      requires Inv(View()) && a in frames && !frames[a].suspended && !Wakeable(View(), a) && frames[a].scheduled == 0
      modifies this
      ensures View() == Suspended(old(View()), a) && OnlyTouches(old(View()), View(), a)
      ensures Inv(View()) && Follows(old(View()), View()) && a in frames && born == old(born) && counter == old(counter)
      ensures frames[a].suspended && frames[a].timed == old(frames[a].timed) && cancelled == old(cancelled)
      ensures old(frames[a].scope) in cancelled ==> frames[a].scheduled == 1 && !Wakeable(View(), a)
      ensures old(frames[a].scope) !in cancelled ==>
                frames[a].scheduled == 0 && a in hooks && frames[a].id in slots && slots[frames[a].id] == a
                && (frames[a].timed ==> a in timers)
    {
      var k := frames[a];
      if k.scope in cancelled {
        frames := frames[a := k.(suspended := true, scheduled := k.scheduled + 1)];
      } else {
        slots := slots[k.id := a];
        if k.timed {
          timers := timers + {a};
        }
        frames := frames[a := k.(suspended := true, timerStarted := k.timed)];
        hooks := hooks + {a};
      }
      SuspendKeeps(old(View()), a);
      SuspendTouchesOne(old(View()), a);
    }

    /** `ask_deliver`: resolves the slot of an id for its owner, once. */
    method Deliver(id: nat, owner: nat, reply: nat) returns (taken: bool)
      requires Inv(View())
      modifies this`frames
      ensures View() == DeliveredIn(old(View()), id, owner, reply)
      ensures Inv(View()) && Follows(old(View()), View())
      ensures taken <==> id != 0 && id in slots && old(frames)[slots[id]].owner == owner && !old(frames)[slots[id]].done
      ensures taken ==> frames[slots[id]].outcome == Replied(reply) && frames[slots[id]].scheduled == 1
      ensures frames == if taken then old(frames)[slots[id] := frames[slots[id]]] else old(frames)
    {
      if id == 0 || id !in slots {
        return false;
      }
      var a := slots[id];
      if frames[a].done || frames[a].owner != owner {
        return false;
      }
      DeliverKeeps(View(), id, owner, reply);
      assert Wakeable(View(), a) && AwaiterOk(View(), a);
      frames := frames[a := frames[a].(done := true, outcome := Replied(reply), scheduled := frames[a].scheduled + 1)];
      return true;
    }

    /** The event loop runs the one-shot timer of an awaiter. */
    method Expire(a: nat)
      requires Inv(View()) && a in timers
      modifies this`frames, this`timers
      ensures a in old(frames) && View() == ExpiredIn(old(View()), a)
      ensures Inv(View()) && Follows(old(View()), View()) && a !in timers && a in frames
      ensures frames == if old(frames)[a].done then old(frames) else old(frames)[a := frames[a]]
      ensures (!old(frames)[a].done ==> frames[a].outcome == TimedOut && frames[a].scheduled == 1)
    {
      ExpireKeeps(View(), a);
      assert AwaiterOk(View(), a) && Wakeable(View(), a);
      if !frames[a].done {
        frames := frames[a := frames[a].(done := true, outcome := TimedOut, scheduled := frames[a].scheduled + 1)];
      }
      timers := timers - {a};
    }

    /** The cancel hook of one awaiter, which its scope no longer holds. */
    method OnCancel(a: nat)
      requires Inv(View()) && a in frames && (frames[a].done || frames[a].scheduled == 0)
      modifies this`frames
      ensures Inv(View()) && Follows(old(View()), View()) && a in frames
      ensures frames == old(frames)[a := frames[a]] && frames[a].done
      ensures frames[a] == if old(frames)[a].done then old(frames)[a] else Woken(old(frames)[a], Cancelled)
    {
      if !frames[a].done {
        WakeKeeps(View(), a, Cancelled);
        frames := frames[a := frames[a].(done := true, outcome := Cancelled, scheduled := frames[a].scheduled + 1)];
      }
    }

    /** Runs the hooks taken from a scope, in any order. */
    method FireAll(hooked: set<nat>)
      requires Inv(View()) && hooked <= frames.Keys
      requires forall a :: a in hooked ==> frames[a].done || frames[a].scheduled == 0
      modifies this`frames
      ensures Inv(View()) && Follows(old(View()), View()) && Fired(old(frames), frames, hooked)
    {
      var firing := hooked;
      while firing != {}
        invariant Inv(View()) && Follows(old(View()), View())
        invariant firing <= hooked && Fired(old(frames), frames, hooked - firing)
      {
        var a :| a in firing;
        ghost var t := View();
        OnCancel(a);
        FollowsTwice(old(View()), t, View());
        FiredOne(old(frames), t.frames, frames, hooked - firing, a);
        assert hooked - firing + {a} == hooked - (firing - {a});
        firing := firing - {a};
      }
      assert hooked - firing == hooked;
    }

    /** Cancels a scope: every awaiter hooked to it is done afterwards, and those that were
        not done before are cancelled. */
    method CancelScope(scope: nat)
      requires Inv(View())
      modifies this
      ensures View() == CancelledIn(old(View()), scope)
      ensures Inv(View()) && Follows(old(View()), View()) && cancelled == old(cancelled) + {scope}
      ensures born == old(born) && counter == old(counter)
      ensures Fired(old(frames), frames, Hooked(old(View()), scope))
      ensures forall a :: a in hooks <==> a in old(hooks) && old(frames)[a].scope != scope
    {
      CancelledShape(View(), scope);
      if scope !in cancelled {
        CancelOpen(scope);
      }
    }

    method CancelOpen(scope: nat)
      requires Inv(View()) && scope !in cancelled
      modifies this
      ensures View() == CancelledIn(old(View()), scope) && Inv(View()) && Follows(old(View()), View())
    {
      ghost var s := View();
      var firing := set a | a in hooks && a in frames && frames[a].scope == scope;
      cancelled := cancelled + {scope};
      hooks := hooks - firing;
      UnhookedKeeps(s, scope);
      HookedAreWaiting(s, firing);
      ghost var t := View();
      FireAll(firing);
      FollowsTwice(s, t, View());
      FiredFrames(s, scope, frames);
    }

    /** `finish`: gives back the slot, the hook and the timer. */
    method Finish(a: nat)
      requires Inv(View()) && a in frames
      modifies this`slots, this`hooks, this`timers, this`frames
      ensures View() == FinishedIn(old(View()), a) && OnlyTouches(old(View()), View(), a)
      ensures Inv(View()) && Follows(old(View()), View()) && !Wakeable(View(), a)
      ensures frames == old(frames)[a := old(frames)[a].(timerStarted := false)]
    {
      var k := frames[a];
      slots := slots - {k.id};
      hooks := hooks - {a};
      if k.timerStarted {
        timers := timers - {a};
        frames := frames[a := k.(timerStarted := false)];
      }
      FinishKeeps(old(View()), a);
    }

    /** The end of the awaiter, resumed or not: nothing refers to it any more. */
    method Destroy(a: nat)
      requires Inv(View()) && a in frames
      modifies this`slots, this`hooks, this`timers, this`frames
      ensures View() == DestroyedIn(old(View()), a) && OnlyTouches(old(View()), View(), a)
      ensures Inv(View()) && Follows(old(View()), View()) && frames == old(frames) - {a} && !Wakeable(View(), a)
    {
      Finish(a);
      frames := frames - {a};
      DestroyKeeps(old(View()), a);
    }

    /** Any sequence of asks, replies, timer expiries, cancellations, resumptions and frame
        destructions: outcomes are set at most once, no continuation is scheduled twice, and
        the registry holds no slot of an awaiter that is gone. */
    method Run(commands: seq<Command>)
      requires Inv(View()) && Own(core, View())
      modifies this
      ensures View() == RunIn(old(View()), core, commands)
      ensures Inv(View()) && Own(core, View()) && Follows(old(View()), View())
    {
      var i := 0;
      while i < |commands|
        invariant 0 <= i <= |commands| && RunIn(View(), core, commands[i..]) == RunIn(old(View()), core, commands)
        invariant Inv(View()) && Own(core, View()) && Follows(old(View()), View())
      {
        assert commands[i..][1..] == commands[i + 1..];
        ghost var t := View();
        Do(commands[i]);
        FollowsTwice(old(View()), t, View());
        i := i + 1;
      }
    }

    /** Mints an id, constructs the awaiter and awaits it. On a cancelled scope it is ready at
        once: nothing is suspended, armed or scheduled. Otherwise it waits for its reply, its
        timer or the end of its scope. */
    method Ask(owner: nat, scope: nat, timed: bool) returns (a: nat, ready: bool)
      requires Inv(View()) && Own(core, View())
      modifies this
      ensures View() == AskedIn(old(View()), core, owner, scope, timed)
      ensures Inv(View()) && Own(core, View()) && Follows(old(View()), View())
      ensures a == old(born) && a in frames && frames[a].owner == owner && frames[a].id == Mint(core, counter)
      ensures (ready <==> scope in old(cancelled)) && frames[a].scheduled == 0 && (frames[a].suspended <==> !ready)
      ensures ready ==> !Wakeable(View(), a)
      ensures !ready ==> a in hooks && frames[a].id in slots && slots[frames[a].id] == a && (timed ==> a in timers)
    {
      a := Create(owner, scope, timed);
      ready := scope in cancelled;
      ghost var t := View();
      if ready {
        Finish(a);
      } else {
        Suspend(a);
      }
      FollowsOwn(core, t, View());
      FollowsTwice(old(View()), t, View());
    }

    method Do(command: Command)
      requires Inv(View()) && Own(core, View())
      modifies this
      ensures View() == DoIn(old(View()), core, command)
      ensures Inv(View()) && Own(core, View()) && Follows(old(View()), View())
    {
      if command.Begin? {
        var a, ready := Ask(command.owner, command.scope, command.timed);
        return;
      }
      match command {
        case Begin(_, _, _) =>
        case Reply(id, owner, reply) =>
          var taken := Deliver(id, owner, reply);
        case Timeout(a) =>
          if a in timers {
            Expire(a);
          }
        case Cancel(scope) =>
          CancelScope(scope);
        case Resume(a) =>
          if a in frames && frames[a].scheduled == 1 {
            Finish(a);
          }
        case End(a) =>
          if a in frames {
            Destroy(a);
          }
      }
      FollowsOwn(core, old(View()), View());
    }
  }
}
