/** The worker's transport loops: the outbound flush with its bounded retries, the residual
    drain at the end of a workflow, and the mailbox sweep in `Main::join`.

    `sys` is the whole system. Between any two actions of the running core the other
    threads may do anything: `Interfere` plays an arbitrary list of their steps, taken from
    a schedule the caller chooses. `trace` records every step taken since construction, so
    what the methods do is always a run of the transport from a good state, and all its
    theorems apply to it. */
module Shutdown {
  import opened Transport
  import opened TransportSafety
  import opened Losses
  import opened TransportTheorems
  import opened DrainEnds

  /** What the other threads do before the core's k-th action. */
  type Schedule = nat -> seq<Step>

  const YIELD_ATTEMPTS: nat := 512

  // ---------------------------------------------------------------- specification

  /** A prefix of the pipe has left it, in order, each event sent or dropped for its own
      reason. */
  predicate Partly(cap: nat, l: Link, r: Link) {
    && r.pushed == l.pushed
    && |l.log| <= |r.log| && r.log[..|l.log|] == l.log
    && Events(r.log[|l.log|..]) + r.pipe == l.pipe
    && (forall i :: |l.log| <= i < |r.log| ==> !r.log[i].fate.Abandoned? && Justified(cap, r.log[i]))
  }

  /** How one flush pass splits a pipe: what stays is headed by an event worth keeping. */
  predicate Flushed(cap: nat, l: Link, r: Link) {
    Partly(cap, l, r) && (r.pipe != [] ==> r.pipe[0].width <= cap && r.pipe[0].qos != 0)
  }

  /** The head left the pipe and the log says why. */
  predicate HeadGone(cap: nat, l: Link, r: Link) {
    && l.pipe != [] && r.pipe == l.pipe[1..] && r.pushed == l.pushed
    && |r.log| == |l.log| + 1 && r.log[..|l.log|] == l.log && r.log[|l.log|].event == l.pipe[0]
    && !r.log[|l.log|].fate.Abandoned? && Justified(cap, r.log[|l.log|])
  }

  /** What left last was sent. */
  predicate WasSent(r: Link) {
    r.log != [] && r.log[|r.log| - 1].fate == Sent
  }

  /** The head is a guaranteed event some ring can hold: it is never dropped. */
  predicate Keeps(cap: nat, l: Link) {
    l.pipe != [] && l.pipe[0].width <= cap && l.pipe[0].qos != 0
  }

  /** The head stayed: a guaranteed event some ring can hold. */
  predicate HeadKept(cap: nat, l: Link, r: Link) {
    && l.pipe != [] && r.pipe == l.pipe && r.pushed == l.pushed && r.log == l.log
    && r.pipe[0].width <= cap && r.pipe[0].qos != 0
  }

  predicate NoBatch(s: System, c: nat)
    requires Shape(s) && c < |s.cores|
  {
    forall p :: 0 <= p < |s.cores| ==> At(s, p, c).batch == []
  }

  ghost predicate IsStart(s: System) {
    Shape(s) && exists g: Config :: s == Start(g)
  }

  lemma FromStart(s: System, steps: seq<Step>)
    requires IsStart(s)
    ensures Inv(Run(s, steps)) && Booked(Run(s, steps))
  {
    var g: Config :| s == Start(g);
    ReachedInv(g, steps);
  }

  class Engine {
    var sys: System
    var tick: nat
    ghost const origin: System
    ghost var trace: seq<Step>
    ghost var attempts: nat            // calls of `try_send`

    ghost predicate Valid()
      reads this
    {
      IsStart(origin) && sys == Run(origin, trace)
    }

    /** Valid, and core c is a core that is still working. */
    ghost predicate Working(c: nat)
      reads this
    {
      Valid() && c < |sys.cores| && !sys.cores[c].phase.Stopped?
    }

    constructor (g: Config)
      ensures Valid() && sys == Start(g) && trace == [] && attempts == 0
    {
      sys, tick := Start(g), 0;
      origin, trace, attempts := Start(g), [], 0;
    }

    /** One atomic step of the system. */
    method Do(a: Step)
      requires Valid()
      modifies this
      ensures Valid() && tick == old(tick) && trace == old(trace) + [a] && attempts == old(attempts)
      ensures sys == Apply(old(sys), a)
    {
      RunConcat(origin, trace, [a]);
      assert Run(sys, [a]) == Apply(sys, a) by {
        assert [a][1..] == [];
      }
      sys := Apply(sys, a);
      trace := trace + [a];
    }

    /** The other threads run for a while. */
    method Interfere(c: nat, env: Schedule)
      requires Working(c)
      modifies this
      ensures Working(c) && |sys.cores| == |old(sys).cores| && old(trace) <= trace && attempts == old(attempts)
      ensures Untouched(old(sys), sys, c) && Inbox(old(sys), sys, c)
      ensures tick == old(tick) + 1 && trace == old(trace) + ByOthers(old(sys), c, env(old(tick)))
    {
      var steps := ByOthers(sys, c, env(tick));
      RunConcat(origin, trace, steps);
      OthersLeaveAlone(sys, steps, c);
      OthersOnlyWrite(sys, steps, c);
      sys := Run(sys, steps);
      trace := trace + steps;
      tick := tick + 1;
    }

    /** One `try_send`: all-or-nothing enqueue of the head of a pipe into the destination's
        ring. */
    method TrySend(c: nat, d: nat) returns (ok: bool)
      requires Working(c) && InRange(sys, c, d) && c != d && At(sys, c, d).pipe != []
      modifies this
      ensures Working(c) && |sys.cores| == |old(sys).cores| && sys.cap == old(sys).cap
      ensures attempts == old(attempts) + 1 && tick == old(tick)
      ensures ok <==> Room(old(sys).cap, At(old(sys), c, d), At(old(sys), c, d).pipe[0])
      ensures ok ==> Elsewhere(old(sys), sys, c, d) && HeadGone(sys.cap, At(old(sys), c, d), At(sys, c, d))
      ensures ok ==> WasSent(At(sys, c, d))
      ensures !ok ==> sys == old(sys)
      ensures trace == if ok || Keeps(sys.cap, At(old(sys), c, d)) then old(trace) + [Attempt(c, d)] else old(trace)
    {
      var l := At(sys, c, d);
      ok := Width(l.ring) + l.pipe[0].width <= sys.cap;
      attempts := attempts + 1;
      if ok {
        DepartEffect(sys, c, d, Sent);
        Do(Attempt(c, d));
      } else if l.pipe[0].width <= sys.cap && l.pipe[0].qos != 0 {
        Do(Attempt(c, d));
      }
    }

    /** Drops the head of a pipe whose send just failed. */
    method DropHead(c: nat, d: nat)
      requires Working(c) && InRange(sys, c, d) && c != d && At(sys, c, d).pipe != []
      requires !Room(sys.cap, At(sys, c, d), At(sys, c, d).pipe[0]) && !Keeps(sys.cap, At(sys, c, d))
      modifies this
      ensures Working(c) && |sys.cores| == |old(sys).cores| && sys.cap == old(sys).cap
      ensures attempts == old(attempts) && tick == old(tick) && trace == old(trace) + [Attempt(c, d)]
      ensures Elsewhere(old(sys), sys, c, d) && HeadGone(sys.cap, At(old(sys), c, d), At(sys, c, d))
    {
      DepartEffect(sys, c, d, if At(sys, c, d).pipe[0].width > sys.cap then Oversize else Lost);
      Do(Attempt(c, d));
    }

    /** The bounded backoff of a guaranteed event: at most 512 attempts, and all of them
        before it gives up. */
    method Retry(c: nat, d: nat, env: Schedule) returns (sent: bool)
      requires Working(c) && InRange(sys, c, d) && c != d && Keeps(sys.cap, At(sys, c, d))
      modifies this
      ensures Working(c) && |sys.cores| == |old(sys).cores| && sys.cap == old(sys).cap
      ensures Elsewhere(old(sys), sys, c, d) && old(trace) <= trace
      ensures old(attempts) <= attempts <= old(attempts) + YIELD_ATTEMPTS && (!sent ==> attempts == old(attempts) + YIELD_ATTEMPTS)
      ensures tick - old(tick) == attempts - old(attempts)
      ensures sent ==> HeadGone(sys.cap, At(old(sys), c, d), At(sys, c, d)) && WasSent(At(sys, c, d))
      ensures !sent ==> HeadKept(sys.cap, At(old(sys), c, d), At(sys, c, d))
    {
      ghost var s0 := sys;
      sent := false;
      UntouchedSelf(s0, c);
      var attempt := 0;
      while attempt < YIELD_ATTEMPTS && !sent
        invariant attempt <= YIELD_ATTEMPTS && Working(c) && |sys.cores| == |s0.cores| && sys.cap == s0.cap
        invariant attempts == old(attempts) + attempt && tick == old(tick) + attempt && old(trace) <= trace
        invariant Elsewhere(s0, sys, c, d)
        invariant sent ==> HeadGone(sys.cap, At(s0, c, d), At(sys, c, d))
        invariant !sent ==> HeadKept(sys.cap, At(s0, c, d), At(sys, c, d))
        decreases YIELD_ATTEMPTS - attempt
      {
        ghost var s1 := sys;
        Interfere(c, env);
        UntouchedElsewhere(s1, sys, c, d);
        ghost var s2 := sys;
        sent := TrySend(c, d);
        ElsewhereTwice(s0, s1, s2, c, d);
        if sent {
          ElsewhereTwice(s0, s2, sys, c, d);
        }
        attempt := attempt + 1;
      }
    }

    /** Handles the head of a pipe: send it, drop it, or give up after the retry budget of
        513 attempts. */
    method FlushHead(c: nat, d: nat, env: Schedule) returns (left: bool)
      requires Working(c) && InRange(sys, c, d) && c != d && At(sys, c, d).pipe != []
      modifies this
      ensures Working(c) && |sys.cores| == |old(sys).cores| && sys.cap == old(sys).cap
      ensures Elsewhere(old(sys), sys, c, d) && old(trace) <= trace && Tried(trace, |old(trace)|, |trace|, c, d)
      ensures tick - old(tick) == attempts - old(attempts)
      ensures old(attempts) <= attempts <= old(attempts) + 513 && (!left ==> attempts == old(attempts) + 513)
      ensures left ==> HeadGone(sys.cap, At(old(sys), c, d), At(sys, c, d))
      ensures !left ==> HeadKept(sys.cap, At(old(sys), c, d), At(sys, c, d))
      ensures At(old(sys), c, d).ring == [] ==> left
      ensures At(old(sys), c, d).ring == [] && At(old(sys), c, d).pipe[0].width <= sys.cap ==> WasSent(At(sys, c, d))
    {
      ghost var s0 := sys;
      Interfere(c, env);
      UntouchedElsewhere(s0, sys, c, d);
      ghost var s1, k := sys, |trace|;
      left := TrySend(c, d);
      if !left {
        if At(sys, c, d).pipe[0].width > sys.cap || At(sys, c, d).pipe[0].qos == 0 {
          DropHead(c, d);
          left := true;
        } else {
          left := Retry(c, d, env);
        }
      }
      TriedHere(trace, |old(trace)|, k, c, d);
      ElsewhereTwice(s0, s1, sys, c, d);
    }

    /** Flushes one pipe until it is empty or its head has to wait. */
    method FlushPipe(c: nat, d: nat, env: Schedule)
      requires Working(c) && InRange(sys, c, d) && c != d && At(sys, c, d).pipe != []
      modifies this
      ensures Working(c) && |sys.cores| == |old(sys).cores| && sys.cap == old(sys).cap
      ensures Elsewhere(old(sys), sys, c, d) && old(trace) <= trace && Tried(trace, |old(trace)|, |trace|, c, d)
      ensures Flushed(sys.cap, At(old(sys), c, d), At(sys, c, d))
      ensures tick - old(tick) == attempts - old(attempts)
      ensures old(attempts) <= attempts <= old(attempts) + 513 * |At(old(sys), c, d).pipe|
      ensures At(old(sys), c, d).ring == [] ==> |At(sys, c, d).pipe| < |At(old(sys), c, d).pipe|
    {
      ghost var s0 := sys;
      ghost var l := At(sys, c, d);
      var partial := false;
      UntouchedSelf(s0, c);
      PartlySelf(sys.cap, l);
      while |At(sys, c, d).pipe| != 0 && !partial
        invariant Working(c) && |sys.cores| == |s0.cores| && sys.cap == s0.cap && old(trace) <= trace
        invariant Elsewhere(s0, sys, c, d) && FlushLoop(sys.cap, l, At(sys, c, d), partial)
        invariant tick - old(tick) == attempts - old(attempts)
        invariant (!partial && |At(sys, c, d).pipe| == |l.pipe|) || Tried(trace, |old(trace)|, |trace|, c, d)
        invariant old(attempts) <= attempts <= old(attempts) + 513 * (|l.pipe| - |At(sys, c, d).pipe|) + (if partial then 513 else 0)
        decreases |At(sys, c, d).pipe|, !partial
      {
        ghost var s1, t1 := sys, trace;
        var left := FlushHead(c, d, env);
        ElsewhereTwice(s0, s1, sys, c, d);
        PartlyStep(sys.cap, l, At(s1, c, d), At(sys, c, d));
        TriedGrows(trace, |t1|, |trace|, |old(trace)|, |trace|, c, d);
        partial := !left;
      }
    }

    /** In the middle of a pass of core c that began in state `s0`, with this many events
        queued in the pipes done. */
    ghost predicate FlushedTo(s0: System, c: nat, d: nat, queued: nat)
      reads this
    {
      && Working(c) && Shape(s0) && |s0.cores| == |sys.cores| && s0.cap == sys.cap && d <= |s0.cores|
      && Flushing(s0, sys, c, d) && queued == Backlog(s0, c, d)
    }

    /** The pipe to d's turn in a pass that began in state `s0`. */
    method FlushSlot(c: nat, d: nat, env: Schedule, ghost s0: System, ghost t0: seq<Step>, ghost queued: nat)
        returns (work: bool, ghost more: nat)
      requires FlushedTo(s0, c, d, queued) && d < |sys.cores| && t0 <= trace && TriedUpTo(sys, trace, |t0|, c, d)
      modifies this
      ensures FlushedTo(s0, c, d + 1, more) && queued <= more && t0 <= trace
      ensures TriedUpTo(sys, trace, |t0|, c, d + 1)
      ensures (work <==> more > queued) && old(attempts) <= attempts <= old(attempts) + 513 * (more - queued)
    {
      BacklogStep(s0, c, d);
      more := queued + Queued(s0, c, d);
      assert OwnerView(At(s0, c, d), At(sys, c, d));
      work := d != c && |At(sys, c, d).pipe| != 0;
      if work {
        FlushBusy(c, d, env, s0, t0, queued);
      } else {
        SlotIdle(s0, sys, trace, |t0|, c, d);
      }
    }

    method FlushBusy(c: nat, d: nat, env: Schedule, ghost s0: System, ghost t0: seq<Step>, ghost queued: nat)
      requires FlushedTo(s0, c, d, queued) && d < |sys.cores| && t0 <= trace && TriedUpTo(sys, trace, |t0|, c, d)
      requires d != c && At(sys, c, d).pipe != [] && OwnerView(At(s0, c, d), At(sys, c, d))
      modifies this
      ensures FlushedTo(s0, c, d + 1, queued + Queued(s0, c, d)) && t0 <= trace
      ensures TriedUpTo(sys, trace, |t0|, c, d + 1)
      ensures old(attempts) <= attempts <= old(attempts) + 513 * Queued(s0, c, d)
    {
      BacklogStep(s0, c, d);
      ghost var s1 := sys;
      FlushPipe(c, d, env);
      SlotFlushed(s0, s1, sys, old(trace), trace, |t0|, c, d);
    }

    /** One pass over every outbound pipe. Terminates whatever the other threads do, with at
        most 513 attempts per queued event. */
    method FlushAll(c: nat, env: Schedule) returns (anyWork: bool, ghost queued: nat)
      requires Working(c)
      modifies this
      ensures Working(c) && |sys.cores| == |old(sys).cores| && sys.cap == old(sys).cap && old(trace) <= trace
      ensures Flushing(old(sys), sys, c, |old(sys).cores|)
      ensures queued == Backlog(old(sys), c, |old(sys).cores|) && (anyWork <==> queued > 0)
      ensures attempts <= old(attempts) + 513 * queued
      ensures TriedUpTo(sys, trace, |old(trace)|, c, |sys.cores|)
    {
      ghost var s0, t0 := sys, trace;
      FlushBegins(s0, c);
      anyWork := false;
      queued := 0;
      var d := 0;
      while d < |sys.cores|
        invariant FlushedTo(s0, c, d, queued) && t0 <= trace && TriedUpTo(sys, trace, |t0|, c, d)
        invariant (anyWork <==> queued > 0) && old(attempts) <= attempts <= old(attempts) + 513 * queued
        decreases |s0.cores| - d
      {
        var work;
        work, queued := FlushSlot(c, d, env, s0, t0, queued);
        anyWork := anyWork || work;
        d := d + 1;
      }
    }

    /** Receives what it finds in one ring, or in the core's own pipe, while the core has no
        actors left: every event is routed to nobody and disposed. */
    method ReceiveFrom(p: nat, c: nat, env: Schedule)
      requires Working(c) && InRange(sys, p, c) && sys.cores[c].phase.Draining? && At(sys, p, c).batch == []
      modifies this
      ensures Working(c) && |sys.cores| == |old(sys).cores| && sys.cap == old(sys).cap
      ensures old(trace) <= trace && attempts == old(attempts)
      ensures OwnView(old(sys), sys, c) && InboxBut(old(sys), sys, c, p) && At(sys, p, c).batch == []
      ensures At(sys, c, c).pipe == if p == c then [] else At(old(sys), c, c).pipe
      ensures At(sys, p, c).received == At(old(sys), p, c).received + Found(At(old(sys), p, c), p == c)
      ensures p != c ==> TookAll(origin, trace, |old(trace)|, |trace|, p, c)
      ensures tick == old(tick) + 1 + |Found(At(old(sys), p, c), p == c)|
    {
      ghost var s0 := sys;
      var n := |At(sys, p, c).ring|;
      Interfere(c, env);
      UntouchedReceive(s0, sys, p, c);
      ghost var s1, k := sys, |trace|;
      TakeEffect(s0, sys, p, c, n);
      Do(Step.Take(p, c, n));
      if p != c {
        TookHere(origin, old(trace), trace, k, p, c);
      }
      ghost var t1 := trace;
      DispatchAll(p, c, env, s0);
      if p != c {
        TookGrows(origin, t1, trace, |old(trace)|, |old(trace)|, |t1|, p, c);
      }
    }

    /** Disposes a batch taken after state `s0`. */
    method DispatchAll(p: nat, c: nat, env: Schedule, ghost s0: System)
      requires Working(c) && InRange(sys, p, c) && sys.cores[c].phase.Draining?
      requires Shape(s0) && |s0.cores| == |sys.cores| && Receiving(s0, sys, p, c)
      modifies this
      ensures Working(c) && |sys.cores| == |s0.cores| && sys.cap == old(sys).cap
      ensures old(trace) <= trace && attempts == old(attempts)
      ensures Receiving(s0, sys, p, c) && At(sys, p, c).batch == []
      ensures tick == old(tick) + |At(old(sys), p, c).batch|
    {
      while |At(sys, p, c).batch| != 0
        invariant Working(c) && |sys.cores| == |s0.cores| && sys.cap == old(sys).cap && sys.cores[c].phase.Draining?
        invariant old(trace) <= trace && attempts == old(attempts) && Receiving(s0, sys, p, c)
        invariant tick + |At(sys, p, c).batch| == old(tick) + |At(old(sys), p, c).batch|
        decreases |At(sys, p, c).batch|
      {
        ghost var s1 := sys;
        Interfere(c, env);
        StillReceiving(s0, s1, sys, p, c);
        ConsumeEffect(s0, sys, p, c);
        Do(Dispatch(p, c, Consume));
      }
    }

    /** `__receive__`: the core's own pipe first, then every producer's ring. Everything that
        was there when it began is received. */
    method Receive(c: nat, env: Schedule)
      requires Working(c) && sys.cores[c].phase.Draining? && NoBatch(sys, c)
      modifies this
      ensures Working(c) && |sys.cores| == |old(sys).cores| && sys.cap == old(sys).cap
      ensures old(trace) <= trace && attempts == old(attempts)
      ensures OwnView(old(sys), sys, c) && NoBatch(sys, c) && At(sys, c, c).pipe == []
      ensures forall p :: 0 <= p < |sys.cores| ==>
                At(old(sys), p, c).received + Found(At(old(sys), p, c), p == c) <= At(sys, p, c).received
      ensures forall p :: 0 <= p < |sys.cores| && p != c ==> TookAll(origin, trace, |old(trace)|, |trace|, p, c)
    {
      ghost var s0 := sys;
      ReceiveFrom(c, c, env);
      ReceiveBegins(s0, sys, origin, trace, |old(trace)|, c);
      var p := 0;
      while p < |sys.cores|
        invariant 0 <= p <= |sys.cores| == |s0.cores| && Working(c) && sys.cap == s0.cap
        invariant old(trace) <= trace && attempts == old(attempts)
        invariant OwnView(s0, sys, c) && NoBatch(sys, c) && At(sys, c, c).pipe == []
        invariant ReceivedUpTo(s0, sys, c, p) && TookUpTo(origin, trace, |old(trace)|, c, p)
      {
        if p != c {
          ghost var s1, t1 := sys, trace;
          ReceiveFrom(p, c, env);
          OwnViewTwice(s0, s1, sys, c);
          ReceiveNext(s0, s1, sys, c, p);
          TookNext(origin, t1, trace, |old(trace)|, c, p);
        }
        p := p + 1;
      }
    }

    /** Frees what is queued for core d if it has stopped. */
    method DisposeSlot(c: nat, d: nat, env: Schedule, ghost s0: System) returns (live: bool)
      requires Working(c) && InRange(sys, c, d) && sys.cores[c].phase.Draining?
      requires Shape(s0) && |s0.cores| == |sys.cores| && Inbound(s0, sys, c) && ClearedUpTo(s0, sys, c, d)
      modifies this
      ensures Working(c) && |sys.cores| == |s0.cores| && sys.cap == old(sys).cap
      ensures old(trace) <= trace && attempts == old(attempts)
      ensures Inbound(s0, sys, c) && ClearedUpTo(s0, sys, c, d + 1)
      ensures !live && Clear(old(sys), c, d) ==> Clear(sys, c, d + 1)
      ensures live || !Clear(old(sys), c, d) ==> !Clear(sys, c, d + 1)
      ensures tick == old(tick) + if d != c && At(old(sys), c, d).pipe != [] then 1 else 0
    {
      ghost var s1 := sys;
      live := false;
      if d != c && |At(sys, c, d).pipe| != 0 {
        Interfere(c, env);
        UntouchedElsewhere(s1, sys, c, d);
        live := !sys.cores[d].phase.Stopped?;
        if !live {
          ghost var s2 := sys;
          DisposePipe(c, d);
          ElsewhereTwice(s1, s2, sys, c, d);
        }
        ClearOne(s0, s1, sys, c, d);
      } else {
        ClearNone(s0, sys, c, d);
      }
    }

    /** Frees what is queued for cores that have stopped; true when some of the rest is
        queued for a core that has not. */
    method DisposeResidual(c: nat, env: Schedule) returns (live: bool)
      requires Working(c) && sys.cores[c].phase.Draining?
      modifies this
      ensures Working(c) && |sys.cores| == |old(sys).cores| && sys.cap == old(sys).cap
      ensures old(trace) <= trace && attempts == old(attempts)
      ensures Inbound(old(sys), sys, c) && ClearedUpTo(old(sys), sys, c, |old(sys).cores|)
      ensures live <==> !Clear(sys, c, |sys.cores|)
    {
      ghost var s0 := sys;
      live := false;
      var d := 0;
      while d < |sys.cores|
        invariant 0 <= d <= |sys.cores| == |s0.cores| && Working(c) && sys.cap == s0.cap
        invariant old(trace) <= trace && attempts == old(attempts)
        invariant Inbound(s0, sys, c) && ClearedUpTo(s0, sys, c, d)
        invariant live <==> !Clear(sys, c, d)
      {
        var pending := DisposeSlot(c, d, env, s0);
        live := live || pending;
        d := d + 1;
      }
    }

    /** Frees the head of a pipe to a core that has stopped. */
    method AbandonHead(c: nat, d: nat)
      requires Working(c) && InRange(sys, c, d) && c != d && At(sys, c, d).pipe != []
      requires sys.cores[c].phase.Draining? && sys.cores[d].phase.Stopped?
      modifies this
      ensures Working(c) && |sys.cores| == |old(sys).cores| && sys.cap == old(sys).cap
      ensures Elsewhere(old(sys), sys, c, d) && At(sys, c, d).pipe == At(old(sys), c, d).pipe[1..]
      ensures old(trace) <= trace && attempts == old(attempts) && tick == old(tick)
    {
      Do(Abandon(c, d));
    }

    method DisposePipe(c: nat, d: nat)
      requires Working(c) && InRange(sys, c, d) && c != d
      requires sys.cores[c].phase.Draining? && sys.cores[d].phase.Stopped?
      modifies this
      ensures Working(c) && |sys.cores| == |old(sys).cores| && sys.cap == old(sys).cap
      ensures Elsewhere(old(sys), sys, c, d) && At(sys, c, d).pipe == []
      ensures old(trace) <= trace && attempts == old(attempts) && tick == old(tick)
    {
      ghost var s0 := sys;
      while At(sys, c, d).pipe != []
        invariant Working(c) && |sys.cores| == |s0.cores| && sys.cap == s0.cap
        invariant old(trace) <= trace && attempts == old(attempts) && tick == old(tick)
        invariant sys.cores[d].phase.Stopped? && Elsewhere(s0, sys, c, d)
        decreases |At(sys, c, d).pipe|
      {
        ghost var s1 := sys;
        AbandonHead(c, d);
        ElsewhereTwice(s0, s1, sys, c, d);
      }
    }

    /** One round of the residual loop. When it is not the last, it was a round as the
        liveness theorems need it. */
    method DrainRound(c: nat, env: Schedule) returns (done: bool)
      requires Working(c) && sys.cores[c].phase.Draining? && NoBatch(sys, c)
      modifies this
      ensures Working(c) && |sys.cores| == |old(sys).cores| && sys.cap == old(sys).cap && old(trace) <= trace
      ensures sys.cores[c].phase.Draining? && NoBatch(sys, c)
      ensures done ==> Drained(sys, c)
      ensures !done ==> Round(origin, trace, |old(trace)|, |trace|, c)
      ensures attempts <= old(attempts) + 513 * Backlog(old(sys), c, |sys.cores|)
    {
      ghost var s1, t1 := sys, trace;
      Receive(c, env);
      OwnViewBacklog(s1, sys, c, |s1.cores|);
      ghost var s2, t2 := sys, trace;
      var any, _ := FlushAll(c, env);
      if !any {
        FlushedClean(s2, sys, c);
        return true;
      }
      ghost var s3, t3 := sys, trace;
      var live := DisposeResidual(c, env);
      if live {
        TookStill(origin, t2, trace, |t1|, c);
        TriedStill(s3, sys, t3, trace, |t2|, |t1|, c);
        StoppedCleared(origin, t1, trace, s1, s2, s3, sys, c);
        RoundMade(origin, t1, trace, sys, c);
      }
      return !live;
    }

    /** The residual loop that ends a workflow, followed over at most `rounds` rounds. `at`
        are the points of the run between its rounds.

        No deadlock: as long as the peers of the core go on receiving, the loop goes round
        at most twice per event queued, however the threads are scheduled. It ends with
        nothing left and the core stopped. */
    method Drain(c: nat, env: Schedule, rounds: nat) returns (done: bool, ghost at: seq<nat>)
      requires Working(c) && sys.cores[c].phase.Draining? && NoBatch(sys, c)
      modifies this
      ensures Valid() && |sys.cores| == |old(sys).cores| && sys.cap == old(sys).cap && old(trace) <= trace
      ensures done ==> c < |sys.cores| && sys.cores[c].phase.Stopped? && Drained(sys, c)
      ensures Rounds(origin, trace, at, c) && at[0] == |old(trace)| && (!done ==> |at| == rounds + 1)
      ensures !done && PeersGoOn(origin, trace, at, c) ==> rounds <= 2 * Backlog(old(sys), c, |old(sys).cores|)
    {
      ghost var s0 := sys;
      done, at := false, [|trace|];
      var round := 0;
      while round < rounds && !done
        invariant round <= rounds && Working(c) && |sys.cores| == |s0.cores| && sys.cap == s0.cap && old(trace) <= trace
        invariant sys.cores[c].phase.Draining? && NoBatch(sys, c)
        invariant done ==> Drained(sys, c)
        invariant Rounds(origin, trace, at, c) && at[0] == |old(trace)| && (!done ==> |at| == round + 1 && at[round] == |trace|)
        decreases rounds - round
      {
        ghost var t1 := trace;
        done := DrainRound(c, env);
        RoundsStay(origin, t1, trace, at, c);
        if !done {
          RoundAdded(origin, trace, at, c);
          at := at + [|trace|];
        }
        round := round + 1;
      }
      if !done {
        LastMoment(origin, trace);
        SameMoment(origin, old(trace), trace, |old(trace)|);
        LastMoment(origin, old(trace));
        if PeersGoOn(origin, trace, at, c) {
          LoopEnds(origin, trace, at, c);
        }
      } else {
        ghost var t2 := trace;
        Do(Stop(c));
        RoundsStay(origin, t2, trace, at, c);
      }
    }

    /** Empties the rings of one mailbox. */
    method SweepMailbox(d: nat)
      requires Valid() && AllStopped(sys) && d < |sys.cores| && SweptUpTo(sys, d)
      modifies this
      ensures Valid() && AllStopped(sys) && |sys.cores| == |old(sys).cores| && SweptUpTo(sys, d + 1)
      ensures sys.ledger.created == old(sys).ledger.created
    {
      var c := 0;
      while c < |sys.cores|
        invariant 0 <= c <= |sys.cores| == |old(sys).cores| && Valid() && AllStopped(sys)
        invariant sys.ledger.created == old(sys).ledger.created && SweptTo(sys, c, d)
      {
        SweepEffect(sys, c, d);
        Do(Sweep(c, d));
        c := c + 1;
      }
    }

    /** `Main::join` after every worker returned: frees what is left in the mailboxes. */
    method Join()
      requires Valid() && AllStopped(sys)
      modifies this
      ensures Valid() && AllStopped(sys) && RingsEmpty(sys)
      ensures sys.ledger.created == old(sys).ledger.created
      ensures forall t: nat :: Resident(sys.cores, t) == 0
      ensures forall t: nat :: Occ(sys.ledger.disposed, t) == if t in sys.ledger.created && !Dropped(sys, t) then 1 else 0
    {
      ghost var s0 := sys;
      var d := 0;
      while d < |sys.cores|
        invariant 0 <= d <= |sys.cores| && Valid() && AllStopped(sys) && sys.ledger.created == s0.ledger.created
        invariant SweptUpTo(sys, d)
      {
        SweepMailbox(d);
        d := d + 1;
      }
      FromStart(origin, trace);
      forall t: nat
        ensures Resident(sys.cores, t) == 0
        ensures Occ(sys.ledger.disposed, t) == if t in sys.ledger.created && !Dropped(sys, t) then 1 else 0
      {
        NothingLeaks(sys, t);
      }
    }
  }

  /** The rings of the first d mailboxes are empty. */
  predicate SweptUpTo(s: System, d: nat)
    requires Shape(s) && d <= |s.cores|
  {
    forall i, j :: 0 <= i < |s.cores| && 0 <= j < d ==> At(s, i, j).ring == []
  }

  /** And so are the rings of the first c producers of mailbox d. */
  predicate SweptTo(s: System, c: nat, d: nat)
    requires Shape(s) && d < |s.cores| && c <= |s.cores|
  {
    SweptUpTo(s, d) && forall i :: 0 <= i < c ==> At(s, i, d).ring == []
  }

  /** Everything of core c except its link to d is as before, up to drained rings. */
  predicate Elsewhere(s: System, r: System, c: nat, d: nat)
    requires Shape(s) && Shape(r) && c < |s.cores| == |r.cores| && d < |s.cores|
  {
    && Inbound(s, r, c)
    && (forall j :: 0 <= j < |s.cores| && j != d ==> OwnerView(At(s, c, j), At(r, c, j)))
    && (forall j :: 0 <= j < |s.cores| && s.cores[j].phase.Stopped? ==> r.cores[j].phase.Stopped?)
  }

  /** Core c is in the same phase, has received nothing and its own pipe is as before. */
  predicate Inbound(s: System, r: System, c: nat)
    requires Shape(s) && Shape(r) && c < |s.cores| == |r.cores|
  {
    && r.cores[c].phase == s.cores[c].phase
    && (forall p :: 0 <= p < |s.cores| ==> At(r, p, c).batch == At(s, p, c).batch)
    && At(r, c, c).pipe == At(s, c, c).pipe
  }

  /** Core c's outbound links are as before, up to drained rings. */
  predicate OwnView(s: System, r: System, c: nat)
    requires Shape(s) && Shape(r) && c < |s.cores| == |r.cores|
  {
    && r.cores[c].phase == s.cores[c].phase && StopsStay(s, r)
    && (forall j :: 0 <= j < |s.cores| && j != c ==> OwnerView(At(s, c, j), At(r, c, j)))
  }

  /** The links into core c but the one from p, as their consumer sees them. */
  predicate InboxBut(s: System, r: System, c: nat, p: nat)
    requires Shape(s) && Shape(r) && c < |s.cores| == |r.cores|
  {
    forall j :: 0 <= j < |s.cores| && j != p ==> ReaderView(At(s, j, c), At(r, j, c))
  }

  /** What a receive that begins now finds on a link. */
  function Found(l: Link, self: bool): seq<Event> {
    if self then l.pipe else l.ring
  }

  /** In the middle of receiving from p what was there in state s. */
  predicate Receiving(s: System, r: System, p: nat, c: nat)
    requires Shape(s) && Shape(r) && c < |s.cores| == |r.cores| && p < |s.cores|
  {
    && OwnView(s, r, c) && InboxBut(s, r, c, p)
    && At(r, c, c).pipe == (if p == c then [] else At(s, c, c).pipe)
    && At(r, p, c).received + At(r, p, c).batch == At(s, p, c).received + Found(At(s, p, c), p == c)
  }

  /** Of what was there in state s, everything from the first k producers has been received;
      the other links are as their consumer saw them. */
  predicate ReceivedUpTo(s: System, r: System, c: nat, k: nat)
    requires Shape(s) && Shape(r) && c < |s.cores| == |r.cores| && k <= |s.cores|
  {
    && (forall p :: 0 <= p < |s.cores| && (p < k || p == c) ==>
          At(s, p, c).received + Found(At(s, p, c), p == c) <= At(r, p, c).received)
    && (forall p :: k <= p < |s.cores| && p != c ==> ReaderView(At(s, p, c), At(r, p, c)))
  }

  predicate TookUpTo(s: System, trace: seq<Step>, lo: nat, c: nat, k: nat)
    requires Shape(s) && c < |s.cores| && k <= |s.cores|
  {
    forall p :: 0 <= p < k && p != c ==> TookAll(s, trace, lo, |trace|, p, c)
  }

  /** Each of the first k pipes was tried since, or is empty. */
  predicate TriedUpTo(s: System, trace: seq<Step>, lo: nat, c: nat, k: nat)
    requires Shape(s) && c < |s.cores| && k <= |s.cores|
  {
    forall d :: 0 <= d < k && d != c ==> Tried(trace, lo, |trace|, c, d) || At(s, c, d).pipe == []
  }

  /** The loop over one pipe, which was `l`. */
  predicate FlushLoop(cap: nat, l: Link, r: Link, partial: bool) {
    && Partly(cap, l, r) && |r.pipe| <= |l.pipe|
    && (partial ==> HeadKept(cap, r, r) && (l.ring == [] ==> |r.pipe| < |l.pipe|))
    && (|r.pipe| < |l.pipe| || r == l || partial)
  }

  /** In every stretch the live peers of core c received what it had sent them. */
  predicate PeersGoOn(s: System, trace: seq<Step>, at: seq<nat>, c: nat)
    requires Shape(s) && Rounds(s, trace, at, c)
  {
    forall i :: 0 < i < |at| ==> PeersReceived(s, trace, at[i - 1], at[i], c)
  }

  /** Consecutive rounds of core c. */
  predicate Rounds(s: System, trace: seq<Step>, at: seq<nat>, c: nat)
    requires Shape(s)
  {
    && c < |s.cores| && at != [] && (forall i :: 0 <= i < |at| ==> at[i] <= |trace|)
    && (forall i :: 0 < i < |at| ==> at[i - 1] <= at[i])
    && (forall i :: 0 < i < |at| ==> Round(s, trace, at[i - 1], at[i], c))
  }

  /** The first k outbound pipes of c have been flushed, and one whose ring was empty made
      progress; the others are as before. */
  predicate FlushedUpTo(s: System, r: System, c: nat, k: nat)
    requires Shape(s) && Shape(r) && c < |s.cores| == |r.cores| && k <= |s.cores|
  {
    && (forall j :: 0 <= j < |s.cores| && s.cores[j].phase.Stopped? ==> r.cores[j].phase.Stopped?)
    && (forall j :: 0 <= j < k && j != c ==> FlushedLink(s.cap, At(s, c, j), At(r, c, j)))
    && (forall j :: k <= j < |s.cores| ==> OwnerView(At(s, c, j), At(r, c, j)))
  }

  /** In the middle of a pass of core c that began in state s. */
  predicate Flushing(s: System, r: System, c: nat, k: nat)
    requires Shape(s) && Shape(r) && c < |s.cores| == |r.cores| && k <= |s.cores|
  {
    Inbound(s, r, c) && FlushedUpTo(s, r, c, k)
  }

  predicate FlushedLink(cap: nat, l: Link, r: Link) {
    Flushed(cap, l, r) && (l.ring == [] && l.pipe != [] ==> |r.pipe| < |l.pipe|)
  }

  /** Of the first k outbound pipes of c, those to stopped cores are empty and the others
      empty or as before; the rest are as before. */
  predicate ClearedUpTo(s: System, r: System, c: nat, k: nat)
    requires Shape(s) && Shape(r) && c < |s.cores| == |r.cores| && k <= |s.cores|
  {
    && (forall j :: 0 <= j < k && j != c ==>
          At(r, c, j).pipe == [] || (At(r, c, j).pipe == At(s, c, j).pipe && !s.cores[j].phase.Stopped?))
    && (forall j :: k <= j < |s.cores| ==> At(r, c, j).pipe == At(s, c, j).pipe)
    && (forall j :: 0 <= j < |s.cores| && s.cores[j].phase.Stopped? ==> r.cores[j].phase.Stopped?)
  }

  // ---------------------------------------------------------------- what the pieces add up to

  lemma UntouchedSelf(s: System, c: nat)
    requires Shape(s) && c < |s.cores|
    ensures forall d :: 0 <= d < |s.cores| ==> Elsewhere(s, s, c, d)
  {
  }

  lemma UntouchedElsewhere(s: System, r: System, c: nat, d: nat)
    requires Shape(s) && Shape(r) && c < |s.cores| == |r.cores| && d < |s.cores| && Untouched(s, r, c)
    ensures Elsewhere(s, r, c, d) && OwnerView(At(s, c, d), At(r, c, d)) && r.cap == s.cap
  {
    assert OwnerView(At(s, c, c), At(r, c, c));
  }

  lemma DepartEffect(s: System, c: nat, d: nat, f: Fate)
    requires Shape(s) && InRange(s, c, d) && c != d && At(s, c, d).pipe != []
    requires !f.Abandoned? && Justified(s.cap, Exit(At(s, c, d).pipe[0], f))
    ensures Elsewhere(s, Depart(s, c, d, f), c, d)
    ensures HeadGone(s.cap, At(s, c, d), At(Depart(s, c, d, f), c, d))
  {
  }

  lemma ElsewhereTwice(s: System, m: System, r: System, c: nat, d: nat)
    requires Shape(s) && Shape(m) && Shape(r) && c < |s.cores| == |m.cores| == |r.cores| && d < |s.cores|
    requires Elsewhere(s, m, c, d) && Elsewhere(m, r, c, d)
    ensures Elsewhere(s, r, c, d)
  {
    forall j | 0 <= j < |s.cores| && j != d
      ensures OwnerView(At(s, c, j), At(r, c, j))
    {
      assert OwnerView(At(s, c, j), At(m, c, j));
      assert OwnerView(At(m, c, j), At(r, c, j));
    }
  }

  lemma PartlySelf(cap: nat, l: Link)
    ensures Partly(cap, l, l)
  {
    assert l.log[|l.log|..] == [];
  }

  lemma PartlyStep(cap: nat, l: Link, m: Link, r: Link)
    requires Partly(cap, l, m) && (HeadGone(cap, m, r) || HeadKept(cap, m, r))
    ensures Partly(cap, l, r)
  {
    if HeadGone(cap, m, r) {
      var k, x := |l.log|, r.log[|m.log|];
      assert r.log == m.log + [x];
      LogsGrow(l.log, m.log, x);
      EventsSnoc(m.log[k..], x);
      assert [m.pipe[0]] + m.pipe[1..] == m.pipe;
    }
  }

  lemma LogsGrow(a: seq<Exit>, b: seq<Exit>, x: Exit)
    requires |a| <= |b| && b[..|a|] == a
    ensures (b + [x])[..|a|] == a && (b + [x])[|a|..] == b[|a|..] + [x]
  {
  }

  lemma EventsSnoc(log: seq<Exit>, x: Exit)
    ensures Events(log + [x]) == Events(log) + [x.event]
  {
  }

  lemma ClearNone(s0: System, s: System, c: nat, d: nat)
    requires Shape(s0) && Shape(s) && c < |s0.cores| == |s.cores| && d < |s.cores|
    requires ClearedUpTo(s0, s, c, d) && (d == c || At(s, c, d).pipe == [])
    ensures ClearedUpTo(s0, s, c, d + 1) && (Clear(s, c, d) ==> Clear(s, c, d + 1))
  {
  }

  lemma FlushBegins(s: System, c: nat)
    requires Shape(s) && c < |s.cores|
    ensures Flushing(s, s, c, 0)
  {
  }

  lemma FlushOne(s0: System, s1: System, s2: System, c: nat, d: nat)
    requires Shape(s0) && Shape(s1) && Shape(s2) && c < |s0.cores| == |s1.cores| == |s2.cores| && d < |s0.cores| && d != c
    requires s0.cap == s1.cap == s2.cap && Inbound(s0, s1, c) && FlushedUpTo(s0, s1, c, d)
    requires Elsewhere(s1, s2, c, d) && Flushed(s0.cap, At(s1, c, d), At(s2, c, d))
    requires At(s1, c, d).ring == [] && At(s1, c, d).pipe != [] ==> |At(s2, c, d).pipe| < |At(s1, c, d).pipe|
    ensures Inbound(s0, s2, c) && FlushedUpTo(s0, s2, c, d + 1)
  {
    forall j | 0 <= j < |s0.cores| && j != d
      ensures OwnerView(At(s1, c, j), At(s2, c, j))
    {
    }
    assert OwnerView(At(s0, c, d), At(s1, c, d));
    forall j | d + 1 <= j < |s0.cores|
      ensures OwnerView(At(s0, c, j), At(s2, c, j))
    {
      assert OwnerView(At(s0, c, j), At(s1, c, j));
    }
    forall j | 0 <= j < d && j != c
      ensures FlushedLink(s0.cap, At(s0, c, j), At(s2, c, j))
    {
      assert FlushedLink(s0.cap, At(s0, c, j), At(s1, c, j));
    }
  }

  lemma FlushNone(s0: System, s1: System, c: nat, d: nat)
    requires Shape(s0) && Shape(s1) && c < |s0.cores| == |s1.cores| && d < |s0.cores|
    requires FlushedUpTo(s0, s1, c, d) && (d == c || At(s1, c, d).pipe == [])
    ensures FlushedUpTo(s0, s1, c, d + 1)
  {
    assert OwnerView(At(s0, c, d), At(s1, c, d));
    PartlySelf(s0.cap, At(s0, c, d));
  }

  lemma UntouchedReceive(s: System, r: System, p: nat, c: nat)
    requires Shape(s) && Shape(r) && c < |s.cores| == |r.cores| && p < |s.cores| && Untouched(s, r, c) && Inbox(s, r, c)
    ensures OwnView(s, r, c) && InboxBut(s, r, c, p) && r.cap == s.cap
    ensures ReaderView(At(s, p, c), At(r, p, c)) && At(r, c, c).pipe == At(s, c, c).pipe
  {
    assert OwnerView(At(s, c, c), At(r, c, c));
  }

  lemma OwnViewTwice(s: System, m: System, r: System, c: nat)
    requires Shape(s) && Shape(m) && Shape(r) && c < |s.cores| == |m.cores| == |r.cores|
    requires OwnView(s, m, c) && OwnView(m, r, c)
    ensures OwnView(s, r, c)
  {
    forall j | 0 <= j < |s.cores| && j != c
      ensures OwnerView(At(s, c, j), At(r, c, j))
    {
      assert OwnerView(At(s, c, j), At(m, c, j));
      assert OwnerView(At(m, c, j), At(r, c, j));
    }
  }

  /** The other threads do not disturb a receive. */
  lemma StillReceiving(s: System, m: System, r: System, p: nat, c: nat)
    requires Shape(s) && Shape(m) && Shape(r) && c < |s.cores| == |m.cores| == |r.cores| && p < |s.cores|
    requires Receiving(s, m, p, c) && Untouched(m, r, c) && Inbox(m, r, c)
    ensures Receiving(s, r, p, c) && At(r, p, c).batch == At(m, p, c).batch
  {
    UntouchedReceive(m, r, p, c);
    OwnViewTwice(s, m, r, c);
    InboxButTwice(s, m, r, c, p);
  }

  lemma InboxButTwice(s: System, m: System, r: System, c: nat, p: nat)
    requires Shape(s) && Shape(m) && Shape(r) && c < |s.cores| == |m.cores| == |r.cores|
    requires InboxBut(s, m, c, p) && InboxBut(m, r, c, p)
    ensures InboxBut(s, r, c, p)
  {
    forall j | 0 <= j < |s.cores| && j != p
      ensures ReaderView(At(s, j, c), At(r, j, c))
    {
      assert ReaderView(At(s, j, c), At(m, j, c)) && ReaderView(At(m, j, c), At(r, j, c));
    }
  }

  /** Core c changes its link from p, on the consumer's side, or swaps out its own pipe. */
  lemma ReaderSet(s: System, m: System, p: nat, c: nat, l: Link, r: System)
    requires Shape(s) && Shape(m) && c < |s.cores| == |m.cores| && p < |s.cores| && OwnView(s, m, c) && InboxBut(s, m, c, p)
    requires Shape(r) && r.cores == Set(m, p, c, l).cores
    ensures OwnView(s, r, c) && InboxBut(s, r, c, p) && At(r, p, c) == l && (p != c ==> At(r, c, c) == At(m, c, c))
  {
    forall j | 0 <= j < |s.cores| && j != c
      ensures OwnerView(At(s, c, j), At(r, c, j))
    {
      assert OwnerView(At(s, c, j), At(m, c, j)) && At(r, c, j) == At(Set(m, p, c, l), c, j);
    }
    forall j | 0 <= j < |s.cores| && j != p
      ensures ReaderView(At(s, j, c), At(r, j, c))
    {
      assert ReaderView(At(s, j, c), At(m, j, c)) && At(r, j, c) == At(Set(m, p, c, l), j, c);
    }
    assert At(r, p, c) == At(Set(m, p, c, l), p, c) && At(r, c, c) == At(Set(m, p, c, l), c, c);
  }

  lemma TakeEffect(s: System, m: System, p: nat, c: nat, n: nat)
    requires Shape(s) && Shape(m) && c < |s.cores| == |m.cores| && p < |s.cores|
    requires OwnView(s, m, c) && InboxBut(s, m, c, p) && ReaderView(At(s, p, c), At(m, p, c)) && At(m, c, c).pipe == At(s, c, c).pipe
    requires At(s, p, c).batch == [] && !m.cores[c].phase.Stopped? && n == |At(s, p, c).ring|
    ensures Receiving(s, Apply(m, Step.Take(p, c, n)), p, c)
  {
    var r := Apply(m, Step.Take(p, c, n));
    ReaderSet(s, m, p, c, LinkTake(p == c, At(m, p, c), n), r);
    assert p != c ==> At(m, p, c).ring[..n] == At(s, p, c).ring;
  }

  lemma ConsumeEffect(s: System, m: System, p: nat, c: nat)
    requires Shape(s) && Shape(m) && c < |s.cores| == |m.cores| && p < |s.cores|
    requires Receiving(s, m, p, c) && At(m, p, c).batch != []
    ensures var r := Apply(m, Dispatch(p, c, Consume));
            Receiving(s, r, p, c) && At(r, p, c).batch == At(m, p, c).batch[1..] && r.cores[c].phase == m.cores[c].phase
  {
    var r := Apply(m, Dispatch(p, c, Consume));
    var l := LinkDispatch(At(m, p, c));
    ReaderSet(s, m, p, c, l, r);
    assert l.received + l.batch == At(m, p, c).received + At(m, p, c).batch;
  }

  /** The take of a receive that began with this run. */
  lemma TookHere(s: System, before: seq<Step>, trace: seq<Step>, k: nat, p: nat, c: nat)
    requires Shape(s) && p < |s.cores| && c < |s.cores| && |before| <= k && k + 1 == |trace| && before <= trace
    requires trace[k] == Step.Take(p, c, |At(Run(s, before), p, c).ring|)
    requires At(Run(s, trace[..k]), p, c).batch == [] && !Run(s, trace[..k]).cores[c].phase.Stopped?
    ensures TookAll(s, trace, |before|, |trace|, p, c)
  {
    assert trace[..|before|] == before;
    assert TakesAll(s, trace, |before|, k, p, c);
  }

  lemma TookGrows(s: System, before: seq<Step>, trace: seq<Step>, lo: nat, from: nat, hi: nat, p: nat, c: nat)
    requires Shape(s) && p < |s.cores| && c < |s.cores| && lo <= from && hi <= |before| && before <= trace
    requires TookAll(s, before, from, hi, p, c)
    ensures TookAll(s, trace, lo, |trace|, p, c)
  {
    TookStays(s, before, trace, from, hi, p, c);
    var j, k :| from <= j < hi && j <= k < hi && TakesAll(s, trace, j, k, p, c);
  }

  lemma TriedGrows(trace: seq<Step>, from: nat, to: nat, lo: nat, hi: nat, c: nat, d: nat)
    requires lo <= from && to <= hi <= |trace| && Tried(trace, from, to, c, d)
    ensures Tried(trace, lo, hi, c, d)
  {
    var k :| from <= k < to && trace[k] == Attempt(c, d);
  }

  lemma TriedHere(trace: seq<Step>, lo: nat, k: nat, c: nat, d: nat)
    requires lo <= k < |trace| && trace[k] == Attempt(c, d)
    ensures Tried(trace, lo, |trace|, c, d)
  {
  }

  lemma TriedNext(s: System, r: System, before: seq<Step>, trace: seq<Step>, lo: nat, c: nat, d: nat)
    requires Shape(s) && Shape(r) && c < |s.cores| == |r.cores| && d < |s.cores| && lo <= |before| && before <= trace
    requires TriedUpTo(s, before, lo, c, d) && Elsewhere(s, r, c, d)
    requires d != c ==> Tried(trace, |before|, |trace|, c, d) || At(r, c, d).pipe == []
    ensures TriedUpTo(r, trace, lo, c, d + 1)
  {
    forall j | 0 <= j < d + 1 && j != c
      ensures Tried(trace, lo, |trace|, c, j) || At(r, c, j).pipe == []
    {
      if j < d {
        assert OwnerView(At(s, c, j), At(r, c, j));
        if Tried(before, lo, |before|, c, j) {
          var k :| lo <= k < |before| && before[k] == Attempt(c, j);
          assert trace[k] == Attempt(c, j);
        }
      } else if Tried(trace, |before|, |trace|, c, d) {
        TriedGrows(trace, |before|, |trace|, lo, |trace|, c, d);
      }
    }
  }

  lemma SlotFlushed(s0: System, s1: System, s2: System, before: seq<Step>, trace: seq<Step>, lo: nat, c: nat, d: nat)
    requires Shape(s0) && Shape(s1) && Shape(s2) && c < |s0.cores| == |s1.cores| == |s2.cores| && d < |s0.cores| && d != c
    requires s0.cap == s1.cap == s2.cap && Flushing(s0, s1, c, d) && lo <= |before| && before <= trace
    requires TriedUpTo(s1, before, lo, c, d) && Tried(trace, |before|, |trace|, c, d)
    requires Elsewhere(s1, s2, c, d) && Flushed(s0.cap, At(s1, c, d), At(s2, c, d))
    requires At(s1, c, d).ring == [] && At(s1, c, d).pipe != [] ==> |At(s2, c, d).pipe| < |At(s1, c, d).pipe|
    ensures Flushing(s0, s2, c, d + 1) && TriedUpTo(s2, trace, lo, c, d + 1)
  {
    FlushOne(s0, s1, s2, c, d);
    TriedNext(s1, s2, before, trace, lo, c, d);
  }

  lemma SlotIdle(s0: System, s1: System, trace: seq<Step>, lo: nat, c: nat, d: nat)
    requires Shape(s0) && Shape(s1) && c < |s0.cores| == |s1.cores| && d < |s0.cores| && (d == c || At(s1, c, d).pipe == [])
    requires Flushing(s0, s1, c, d) && TriedUpTo(s1, trace, lo, c, d)
    ensures Flushing(s0, s1, c, d + 1) && TriedUpTo(s1, trace, lo, c, d + 1)
  {
    FlushNone(s0, s1, c, d);
  }

  lemma ReceiveBegins(s: System, r: System, o: System, trace: seq<Step>, lo: nat, c: nat)
    requires Shape(s) && Shape(r) && Shape(o) && c < |s.cores| == |r.cores| == |o.cores| && InboxBut(s, r, c, c)
    requires At(r, c, c).received == At(s, c, c).received + Found(At(s, c, c), true)
    ensures ReceivedUpTo(s, r, c, 0) && TookUpTo(o, trace, lo, c, 0)
  {
  }

  lemma ReceiveNext(s: System, m: System, r: System, c: nat, p: nat)
    requires Shape(s) && Shape(m) && Shape(r) && c < |s.cores| == |m.cores| == |r.cores| && p < |s.cores| && p != c
    requires ReceivedUpTo(s, m, c, p) && InboxBut(m, r, c, p)
    requires At(r, p, c).received == At(m, p, c).received + Found(At(m, p, c), false)
    ensures ReceivedUpTo(s, r, c, p + 1)
  {
    forall q | 0 <= q < |s.cores| && (q < p + 1 || q == c)
      ensures At(s, q, c).received + Found(At(s, q, c), q == c) <= At(r, q, c).received
    {
      if q != p {
        assert ReaderView(At(m, q, c), At(r, q, c));
      } else {
        assert ReaderView(At(s, p, c), At(m, p, c));
      }
    }
    forall q | p + 1 <= q < |s.cores| && q != c
      ensures ReaderView(At(s, q, c), At(r, q, c))
    {
      assert ReaderView(At(s, q, c), At(m, q, c)) && ReaderView(At(m, q, c), At(r, q, c));
    }
  }

  lemma TookNext(s: System, before: seq<Step>, trace: seq<Step>, lo: nat, c: nat, p: nat)
    requires Shape(s) && c < |s.cores| && p < |s.cores| && p != c && lo <= |before| && before <= trace
    requires TookUpTo(s, before, lo, c, p) && TookAll(s, trace, |before|, |trace|, p, c)
    ensures TookUpTo(s, trace, lo, c, p + 1)
  {
    forall q | 0 <= q < p + 1 && q != c
      ensures TookAll(s, trace, lo, |trace|, q, c)
    {
      if q < p {
        TookGrows(s, before, trace, lo, lo, |before|, q, c);
      } else {
        TookGrows(s, trace, trace, lo, |before|, |trace|, p, c);
      }
    }
  }

  lemma TookStill(s: System, before: seq<Step>, trace: seq<Step>, lo: nat, c: nat)
    requires Shape(s) && c < |s.cores| && lo <= |before| && before <= trace
    requires forall p :: 0 <= p < |s.cores| && p != c ==> TookAll(s, before, lo, |before|, p, c)
    ensures TookUpTo(s, trace, lo, c, |s.cores|)
  {
    forall p | 0 <= p < |s.cores| && p != c
      ensures TookAll(s, trace, lo, |trace|, p, c)
    {
      TookGrows(s, before, trace, lo, lo, |before|, p, c);
    }
  }

  lemma TriedStill(s: System, r: System, before: seq<Step>, trace: seq<Step>, from: nat, lo: nat, c: nat)
    requires Shape(s) && Shape(r) && c < |s.cores| == |r.cores| && lo <= from <= |before| && before <= trace
    requires TriedUpTo(s, before, from, c, |s.cores|) && ClearedUpTo(s, r, c, |s.cores|)
    ensures TriedUpTo(r, trace, lo, c, |s.cores|)
  {
    forall d | 0 <= d < |s.cores| && d != c
      ensures Tried(trace, lo, |trace|, c, d) || At(r, c, d).pipe == []
    {
      if Tried(before, from, |before|, c, d) {
        var k :| from <= k < |before| && before[k] == Attempt(c, d);
        assert trace[k] == Attempt(c, d);
      }
    }
  }

  /** Pipes to cores that had stopped when the round began are empty when it ends. */
  lemma StoppedCleared(o: System, before: seq<Step>, trace: seq<Step>, s1: System, s2: System, s3: System, s4: System, c: nat)
    requires Shape(o) && before <= trace && s1 == Run(o, before)
    requires Shape(s1) && Shape(s2) && Shape(s3) && Shape(s4)
    requires c < |o.cores| == |s1.cores| == |s2.cores| == |s3.cores| == |s4.cores|
    requires StopsStay(s1, s2) && FlushedUpTo(s2, s3, c, |s2.cores|) && ClearedUpTo(s3, s4, c, |s3.cores|)
    ensures forall d :: 0 <= d < |o.cores| && d != c && Moment(o, trace, |before|).cores[d].phase.Stopped? ==> At(s4, c, d).pipe == []
  {
    assert trace[..|before|] == before;
  }

  predicate StopsStay(s: System, r: System) {
    |r.cores| == |s.cores| && forall j :: 0 <= j < |s.cores| && s.cores[j].phase.Stopped? ==> r.cores[j].phase.Stopped?
  }

  lemma RoundMade(o: System, before: seq<Step>, trace: seq<Step>, s: System, c: nat)
    requires Shape(o) && c < |o.cores| && before <= trace && s == Run(o, trace)
    requires TookUpTo(o, trace, |before|, c, |o.cores|) && TriedUpTo(s, trace, |before|, c, |o.cores|) && !Clear(s, c, |o.cores|)
    requires forall d :: 0 <= d < |o.cores| && d != c && Moment(o, trace, |before|).cores[d].phase.Stopped? ==> At(s, c, d).pipe == []
    ensures Round(o, trace, |before|, |trace|, c)
  {
    LastMoment(o, trace);
  }

  lemma LastMoment(o: System, trace: seq<Step>)
    requires Shape(o)
    ensures Moment(o, trace, |trace|) == Run(o, trace)
  {
    assert trace[..|trace|] == trace;
  }

  lemma TookStays(s: System, before: seq<Step>, trace: seq<Step>, lo: nat, hi: nat, p: nat, c: nat)
    requires Shape(s) && p < |s.cores| && c < |s.cores| && hi <= |before| && before <= trace
    requires TookAll(s, before, lo, hi, p, c)
    ensures TookAll(s, trace, lo, hi, p, c)
  {
    var j, k :| lo <= j < hi && j <= k < hi && TakesAll(s, before, j, k, p, c);
    SameMoment(s, before, trace, j);
    SameMoment(s, before, trace, k);
    assert TakesAll(s, trace, j, k, p, c);
  }

  /** A round stays one when the run goes on. */
  lemma RoundStays(s: System, before: seq<Step>, trace: seq<Step>, lo: nat, hi: nat, c: nat)
    requires Shape(s) && lo <= hi <= |before| && c < |s.cores| && before <= trace && Round(s, before, lo, hi, c)
    ensures Round(s, trace, lo, hi, c)
  {
    SameMoment(s, before, trace, lo);
    SameMoment(s, before, trace, hi);
    forall p | 0 <= p < |s.cores| && p != c
      ensures TookAll(s, trace, lo, hi, p, c)
    {
      assert TookAll(s, before, lo, hi, p, c);
      TookStays(s, before, trace, lo, hi, p, c);
    }
    forall d | 0 <= d < |s.cores| && d != c
      ensures Tried(trace, lo, hi, c, d) || At(Moment(s, trace, hi), c, d).pipe == []
    {
      if Tried(before, lo, hi, c, d) {
        var k :| lo <= k < hi && before[k] == Attempt(c, d);
        assert trace[k] == Attempt(c, d);
      }
    }
  }

  lemma RoundsStay(s: System, before: seq<Step>, trace: seq<Step>, at: seq<nat>, c: nat)
    requires Shape(s) && before <= trace && Rounds(s, before, at, c)
    ensures Rounds(s, trace, at, c)
  {
    forall i | 0 < i < |at|
      ensures Round(s, trace, at[i - 1], at[i], c)
    {
      RoundStays(s, before, trace, at[i - 1], at[i], c);
    }
  }

  lemma RoundAdded(s: System, trace: seq<Step>, at: seq<nat>, c: nat)
    requires Shape(s) && Rounds(s, trace, at, c) && Round(s, trace, at[|at| - 1], |trace|, c)
    ensures Rounds(s, trace, at + [|trace|], c)
  {
  }

  lemma ClearOne(s0: System, s1: System, s2: System, c: nat, d: nat)
    requires Shape(s0) && Shape(s1) && Shape(s2) && c < |s0.cores| == |s1.cores| == |s2.cores| && d < |s0.cores| && d != c
    requires Inbound(s0, s1, c) && ClearedUpTo(s0, s1, c, d) && Elsewhere(s1, s2, c, d)
    requires At(s2, c, d).pipe == [] || (At(s2, c, d).pipe == At(s1, c, d).pipe && !s2.cores[d].phase.Stopped?)
    ensures Inbound(s0, s2, c) && ClearedUpTo(s0, s2, c, d + 1)
    ensures forall j :: 0 <= j < d ==> At(s2, c, j).pipe == At(s1, c, j).pipe
  {
    forall j | 0 <= j < |s0.cores| && j != d
      ensures At(s2, c, j).pipe == At(s1, c, j).pipe
    {
      assert OwnerView(At(s1, c, j), At(s2, c, j));
    }
  }

  lemma OwnViewBacklog(s: System, r: System, c: nat, k: nat)
    requires Shape(s) && Shape(r) && c < |s.cores| == |r.cores| && k <= |s.cores| && OwnView(s, r, c)
    ensures Backlog(r, c, k) <= Backlog(s, c, k)
  {
    forall d | 0 <= d < k && d != c
      ensures |At(r, c, d).pipe| <= |At(s, c, d).pipe|
    {
      assert OwnerView(At(s, c, d), At(r, c, d));
    }
    BacklogShrinks(s, r, c, k);
  }

  lemma SweepEffect(s: System, c: nat, d: nat)
    requires Shape(s) && AllStopped(s) && InRange(s, c, d) && SweptTo(s, c, d)
    ensures var r := Apply(s, Sweep(c, d));
            AllStopped(r) && r.ledger.created == s.ledger.created && SweptTo(r, c + 1, d)
  {
    var r := Apply(s, Sweep(c, d));
    var t := Set(s, c, d, LinkSweep(At(s, c, d)));
    assert r.cores == t.cores;
    forall i, j | 0 <= i < |s.cores| && 0 <= j < |s.cores|
      ensures At(r, i, j) == if i == c && j == d then LinkSweep(At(s, c, d)) else At(s, i, j)
    {
      assert At(r, i, j) == At(t, i, j);
    }
  }

  lemma FlushedClean(s: System, r: System, c: nat)
    requires Shape(s) && Shape(r) && c < |s.cores| == |r.cores| && FlushedUpTo(s, r, c, |s.cores|)
    requires Backlog(s, c, |s.cores|) == 0
    ensures Clear(r, c, |s.cores|)
  {
    BacklogEmpty(s, c, |s.cores|);
    forall d | 0 <= d < |s.cores| && d != c
      ensures At(r, c, d).pipe == []
    {
      assert FlushedLink(s.cap, At(s, c, d), At(r, c, d));
    }
  }
}
