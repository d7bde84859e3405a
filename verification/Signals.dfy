/** Signal delivery: raises that store the signal number and then bump a 32-bit generation,
    and core passes that poll both. All interleavings of their atomic steps. */
module Signals {

  const SIGINT: int := 2
  const GENERATIONS: nat := 0x1_0000_0000

  /** Where a core is in its pass: outside the poll, past the first load with the stop flag
      it read, or holding the generation it read. `bumps` is how many bumps that was. */
  datatype Poll = Idle | Noticed(stop: bool) | Holding(stop: bool, bumps: nat)

  /** A core. `seen` is the history of `last`: the number of bumps at the generation of its
      last signal; `signals` are the numbers delivered for raises and `events` all of them. */
  datatype Receiver = Receiver(poll: Poll, last: nat, stopDelivered: bool, seen: nat, signals: seq<int>, events: seq<int>)

  /** The generation is `bumps` modulo 2^32; `stores` counts the raises begun. */
  datatype State = State(pending: int, bumps: nat, stores: nat, stopRequested: bool, cores: seq<Receiver>)

  datatype Step =
    | Store(signum: int)      // first half of a raise
    | Bump                    // second half of some raise
    | RequestStop
    | Notice(c: nat)          // first load of a pass, with the stop token
    | LoadGeneration(c: nat)
    | Deliver(c: nat)         // second load of the number, and what follows

  function Generation(bumps: nat): nat {
    bumps % GENERATIONS
  }

  /** The rest of the pass, with the number loaded last. */
  function Synthesize(k: Receiver, pending: int): Receiver
    requires k.poll.Holding?
  {
    var generation := Generation(k.poll.bumps);
    var newSignal := pending != 0 && generation != k.last;
    var k' := k.(poll := Idle);
    if newSignal || (k.poll.stop && !k.stopDelivered) then
      var signum := if pending != 0 then pending else SIGINT;
      var k'' := k'.(stopDelivered := k.stopDelivered || k.poll.stop, events := k.events + [signum]);
      if newSignal then k''.(last := generation, seen := k.poll.bumps, signals := k.signals + [signum]) else k''
    else k'
  }

  predicate Enabled(s: State, step: Step) {
    match step
    case Store(signum) => signum != 0
    case Bump => s.bumps < s.stores
    case RequestStop => true
    case Notice(c) => c < |s.cores| && s.cores[c].poll.Idle?
    case LoadGeneration(c) => c < |s.cores| && s.cores[c].poll.Noticed?
    case Deliver(c) => c < |s.cores| && s.cores[c].poll.Holding?
  }

  function Apply(s: State, step: Step): State {
    if !Enabled(s, step) then s else
    match step
    case Store(signum) => s.(pending := signum, stores := s.stores + 1)
    case Bump => s.(bumps := s.bumps + 1)
    case RequestStop => s.(stopRequested := true)
    case Notice(c) =>
      if s.pending != 0 || s.stopRequested
      then s.(cores := s.cores[c := s.cores[c].(poll := Noticed(s.stopRequested))]) else s
    case LoadGeneration(c) =>
      s.(cores := s.cores[c := s.cores[c].(poll := Holding(s.cores[c].poll.stop, s.bumps))])
    case Deliver(c) => s.(cores := s.cores[c := Synthesize(s.cores[c], s.pending)])
  }

  function Run(s: State, steps: seq<Step>): State
    decreases |steps|
  {
    if steps == [] then s else Run(Apply(s, steps[0]), steps[1..])
  }

  function Start(n: nat): State {
    State(0, 0, 0, false, seq(n, _ => Receiver(Idle, 0, false, 0, [], [])))
  }

  // ---------------------------------------------------------------- what every step keeps

  /** The events sent are the deliveries for raises in order, with one more in between when
      the stop token had an event of its own. */
  predicate Woven(events: seq<int>, signals: seq<int>, stop: bool) {
    events == signals || (stop && exists i | 0 <= i < |events| :: events[..i] + events[i + 1..] == signals)
  }

  predicate EndsWith(events: seq<int>, signum: int) {
    events != [] && events[|events| - 1] == signum
  }

  /** A core that has seen every raise sent the latest number last; its deliveries for
      raises are no more than the bumps it saw, and the stop token added at most one. */
  predicate ReceiverOk(s: State, k: Receiver) {
    && k.seen <= s.bumps && k.last == Generation(k.seen)
    && (k.poll.Holding? ==> k.seen <= k.poll.bumps <= s.bumps)
    && |k.signals| <= k.seen && Woven(k.events, k.signals, k.stopDelivered)
    && (k.stopDelivered ==> s.stopRequested) && (!k.poll.Idle? && k.poll.stop ==> s.stopRequested)
    && (k.seen == s.stores > 0 ==> EndsWith(k.signals, s.pending) && EndsWith(k.events, s.pending))
  }

  predicate Inv(s: State) {
    && s.bumps <= s.stores && (s.pending != 0 <==> s.stores > 0)
    && forall c :: 0 <= c < |s.cores| ==> ReceiverOk(s, s.cores[c])
  }

  lemma DeliverKeeps(s: State, k: Receiver)
    requires s.bumps <= s.stores && (s.pending != 0 <==> s.stores > 0) && ReceiverOk(s, k) && k.poll.Holding?
    ensures ReceiverOk(s, Synthesize(k, s.pending))
  {
    var r := Synthesize(k, s.pending);
    if r.signals != k.signals {
      WovenMore(k.events, k.signals, k.stopDelivered, s.pending);
    } else if r.events != k.events {
      assert r.events[..|k.events|] + r.events[|k.events| + 1..] == k.events;
    }
  }

  lemma WovenMore(events: seq<int>, signals: seq<int>, stop: bool, signum: int)
    requires Woven(events, signals, stop)
    ensures Woven(events + [signum], signals + [signum], stop)
  {
    if events != signals {
      var i :| 0 <= i < |events| && events[..i] + events[i + 1..] == signals;
      var more := events + [signum];
      assert more[..i] + more[i + 1..] == signals + [signum];
    }
  }

  lemma StepKeepsInv(s: State, step: Step)
    requires Inv(s)
    ensures Inv(Apply(s, step)) && |Apply(s, step).cores| == |s.cores|
  {
    if step.Deliver? && Enabled(s, step) {
      DeliverKeeps(s, s.cores[step.c]);
    }
    var t := Apply(s, step);
    forall c | 0 <= c < |t.cores|
      ensures ReceiverOk(t, t.cores[c])
    {
      assert ReceiverOk(s, s.cores[c]);
    }
  }

  lemma {:induction false} RunKeepsInv(s: State, steps: seq<Step>)
    requires Inv(s)
    ensures Inv(Run(s, steps)) && |Run(s, steps).cores| == |s.cores|
    decreases |steps|
  {
    if steps != [] {
      StepKeepsInv(s, steps[0]);
      RunKeepsInv(Apply(s, steps[0]), steps[1..]);
    }
  }

  /** Over every run, a core sends the events of its deliveries for raises, in order, and at
      most one more, for the stop token; they never outnumber the raises by more. */
  lemma DeliveriesAreBounded(n: nat, steps: seq<Step>, c: nat)
    requires c < n
    ensures var t := Run(Start(n), steps);
            && c < |t.cores| && |t.cores[c].signals| <= t.bumps <= t.stores
            && Woven(t.cores[c].events, t.cores[c].signals, t.stopRequested)
            && |t.cores[c].events| <= t.stores + (if t.stopRequested then 1 else 0)
  {
    RunKeepsInv(Start(n), steps);
  }

  /** The number of the last raise begun, or 0. */
  function LastStored(steps: seq<Step>): int
    decreases |steps|
  {
    if steps == [] then 0
    else
      var n := |steps| - 1;
      if steps[n].Store? && steps[n].signum != 0 then steps[n].signum else LastStored(steps[..n])
  }

  /** The pending number is the one raised last. */
  lemma {:induction false} PendingIsLatest(n: nat, steps: seq<Step>)
    ensures Run(Start(n), steps).pending == LastStored(steps)
    decreases |steps|
  {
    if steps != [] {
      var m := |steps| - 1;
      PendingIsLatest(n, steps[..m]);
      assert steps == steps[..m] + [steps[m]];
      RunConcat(Start(n), steps[..m], [steps[m]]);
      assert [steps[m]][1..] == [];
      assert Run(Run(Start(n), steps[..m]), [steps[m]]) == Apply(Run(Start(n), steps[..m]), steps[m]);
    }
  }

  // ---------------------------------------------------------------- one more pass

  /** Steps of other cores, and the stop request. */
  predicate Quiet(steps: seq<Step>, c: nat) {
    forall i :: 0 <= i < |steps| ==>
      match steps[i]
      case Store(_) => false
      case Bump => false
      case RequestStop => true
      case Notice(d) => d != c
      case LoadGeneration(d) => d != c
      case Deliver(d) => d != c
  }

  lemma {:induction false} QuietKeeps(s: State, steps: seq<Step>, c: nat)
    requires c < |s.cores| && Quiet(steps, c)
    ensures var t := Run(s, steps);
            && |t.cores| == |s.cores| && t.cores[c] == s.cores[c]
            && t.pending == s.pending && t.bumps == s.bumps && t.stores == s.stores
            && (s.stopRequested ==> t.stopRequested)
    decreases |steps|
  {
    if steps != [] {
      QuietKeeps(Apply(s, steps[0]), steps[1..], c);
    }
  }

  lemma {:induction false} RunConcat(s: State, a: seq<Step>, b: seq<Step>)
    ensures Run(s, a + b) == Run(Run(s, a), b)
    decreases |a|
  {
    if a == [] {
      assert a + b == b;
    } else {
      assert (a + b)[1..] == a[1..] + b;
      RunConcat(Apply(s, a[0]), a[1..], b);
    }
  }

  /** A whole pass of core `c` with steps of other cores in between. */
  function Pass(c: nat, a: seq<Step>, b: seq<Step>, d: seq<Step>): seq<Step> {
    a + ([Notice(c)] + (b + ([LoadGeneration(c)] + (d + [Deliver(c)]))))
  }

  lemma PassRuns(s: State, c: nat, a: seq<Step>, b: seq<Step>, d: seq<Step>)
    requires c < |s.cores| && s.cores[c].poll.Idle? && (s.pending != 0 || s.stopRequested)
    requires Quiet(a, c) && Quiet(b, c) && Quiet(d, c)
    ensures var t := Run(s, Pass(c, a, b, d));
            && |t.cores| == |s.cores| && t.pending == s.pending && t.bumps == s.bumps && t.stores == s.stores
            && exists stop :: (s.stopRequested ==> stop) && t.cores[c] == Synthesize(s.cores[c].(poll := Holding(stop, s.bumps)), s.pending)
  {
    var s1 := Run(s, a);
    QuietKeeps(s, a, c);
    var s2 := Apply(s1, Notice(c));
    var s3 := Run(s2, b);
    QuietKeeps(s2, b, c);
    var s4 := Apply(s3, LoadGeneration(c));
    var s5 := Run(s4, d);
    QuietKeeps(s4, d, c);
    var r1 := d + [Deliver(c)];
    var r2 := b + ([LoadGeneration(c)] + r1);
    RunConcat(s, a, [Notice(c)] + r2);
    StepThen(s1, Notice(c), r2);
    RunConcat(s2, b, [LoadGeneration(c)] + r1);
    StepThen(s3, LoadGeneration(c), r1);
    RunConcat(s4, d, [Deliver(c)]);
    StepThen(s5, Deliver(c), []);
    assert s5.cores[c] == s.cores[c].(poll := Holding(s1.stopRequested, s.bumps));
  }

  lemma StepThen(s: State, step: Step, rest: seq<Step>)
    ensures Run(s, [step] + rest) == Run(Apply(s, step), rest)
  {
    assert ([step] + rest)[1..] == rest;
  }

  /** When all raises have finished, one more pass brings the core up to date, and then the
      last event it sent carries the final number, exactly unless the raises it missed are a
      positive multiple of 2^32. */
  lemma FinalSignalIsDelivered(n: nat, before: seq<Step>, c: nat, a: seq<Step>, b: seq<Step>, d: seq<Step>)
    requires var s := Run(Start(n), before);
             && c < |s.cores| && s.cores[c].poll.Idle? && s.bumps == s.stores > 0
             && Quiet(a, c) && Quiet(b, c) && Quiet(d, c)
    ensures var s := Run(Start(n), before);
            var t := Run(s, Pass(c, a, b, d));
            && c < |t.cores| && t.pending == s.pending
            && (t.cores[c].seen == t.stores <==> s.cores[c].seen == s.stores || (s.stores - s.cores[c].seen) % GENERATIONS != 0)
            && (t.cores[c].seen == t.stores ==> EndsWith(t.cores[c].events, LastStored(before)))
  {
    var s := Run(Start(n), before);
    RunKeepsInv(Start(n), before);
    PassRuns(s, c, a, b, d);
    RunKeepsInv(s, Pass(c, a, b, d));
    assert ReceiverOk(s, s.cores[c]);
    SameGeneration(s.cores[c].seen, s.stores);
    PendingIsLatest(n, before);
  }

  lemma SameGeneration(a: nat, b: nat)
    requires a <= b
    ensures Generation(a) == Generation(b) <==> (b - a) % GENERATIONS == 0
  {
    var qa, qb := a / GENERATIONS, b / GENERATIONS;
    assert a == qa * GENERATIONS + a % GENERATIONS && b == qb * GENERATIONS + b % GENERATIONS;
  }

  /** The events of one pass: one with the pending number when there was a new signal, one
      with that number or an interrupt when a stop request was not delivered yet, and none
      when neither. A stop request has been delivered after it. */
  lemma PassSends(n: nat, before: seq<Step>, c: nat, a: seq<Step>, b: seq<Step>, d: seq<Step>)
    requires var s := Run(Start(n), before);
             c < |s.cores| && s.cores[c].poll.Idle? && s.bumps == s.stores && (s.stores > 0 || s.stopRequested)
             && Quiet(a, c) && Quiet(b, c) && Quiet(d, c)
    ensures var s := Run(Start(n), before);
            var t := Run(s, Pass(c, a, b, d));
            var k := s.cores[c];
            && c < |t.cores| && (s.stopRequested ==> t.cores[c].stopDelivered)
            && if (s.stores - k.seen) % GENERATIONS != 0 then t.cores[c].events == k.events + [s.pending]
               else if s.stopRequested && !k.stopDelivered then t.cores[c].events == k.events + [if s.stores > 0 then s.pending else SIGINT]
               else k.stopDelivered ==> t.cores[c].events == k.events
  {
    var s := Run(Start(n), before);
    RunKeepsInv(Start(n), before);
    assert ReceiverOk(s, s.cores[c]);
    PassRuns(s, c, a, b, d);
    SameGeneration(s.cores[c].seen, s.stores);
  }

  /** A stop request without signals becomes one interrupt, once. */
  lemma StopIsDeliveredOnce(n: nat, before: seq<Step>, c: nat, a: seq<Step>, b: seq<Step>, d: seq<Step>)
    requires var s := Run(Start(n), before);
             c < |s.cores| && s.cores[c].poll.Idle? && s.stopRequested && Quiet(a, c) && Quiet(b, c) && Quiet(d, c)
    ensures var s := Run(Start(n), before);
            var t := Run(s, Pass(c, a, b, d));
            && c < |t.cores| && t.cores[c].stopDelivered
            && (s.stores == 0 ==> t.cores[c].events == if s.cores[c].stopDelivered then s.cores[c].events else [SIGINT])
  {
    var s := Run(Start(n), before);
    RunKeepsInv(Start(n), before);
    assert ReceiverOk(s, s.cores[c]);
    PassRuns(s, c, a, b, d);
  }

  /** With fewer than 2^32 raises there is no exception. */
  lemma NoSignalIsLost(n: nat, before: seq<Step>, c: nat, a: seq<Step>, b: seq<Step>, d: seq<Step>)
    requires var s := Run(Start(n), before);
             && c < |s.cores| && s.cores[c].poll.Idle? && 0 < s.bumps == s.stores < GENERATIONS
             && Quiet(a, c) && Quiet(b, c) && Quiet(d, c)
    ensures var s := Run(Start(n), before);
            var t := Run(s, Pass(c, a, b, d));
            && c < |t.cores| && EndsWith(t.cores[c].events, LastStored(before))
  {
    var s := Run(Start(n), before);
    RunKeepsInv(Start(n), before);
    assert ReceiverOk(s, s.cores[c]);
    FinalSignalIsDelivered(n, before, c, a, b, d);
  }

  /** `k` whole raises of the same signal. */
  function Raises(k: nat, signum: int): seq<Step> {
    if k == 0 then [] else Raises(k - 1, signum) + [Store(signum), Bump]
  }

  lemma {:induction false} RaisesRun(s: State, k: nat, signum: int)
    requires signum != 0 && s.bumps == s.stores
    ensures var t := Run(s, Raises(k, signum));
            t == s.(pending := if k == 0 then s.pending else signum, bumps := s.bumps + k, stores := s.stores + k)
    decreases k
  {
    if k > 0 {
      RaisesRun(s, k - 1, signum);
      RunConcat(s, Raises(k - 1, signum), [Store(signum), Bump]);
      var m := Run(s, Raises(k - 1, signum));
      StepThen(m, Store(signum), [Bump]);
      assert [Store(signum), Bump] == [Store(signum)] + [Bump];
      StepThen(Apply(m, Store(signum)), Bump, []);
      assert [Bump] == [Bump] + [];
    }
  }

  /** The exception is real: a positive multiple of 2^32 raises between two passes of a core
      is lost to it. */
  lemma WrappedSignalsAreLost(signum: int, k: nat)
    requires signum != 0 && k > 0 && k % GENERATIONS == 0
    ensures var t := Run(Run(Start(1), Raises(k, signum)), Pass(0, [], [], []));
            t.stores == k && |t.cores| == 1 && t.cores[0].events == []
  {
    var s := Run(Start(1), Raises(k, signum));
    RaisesRun(Start(1), k, signum);
    PassRuns(s, 0, [], [], []);
  }
}
