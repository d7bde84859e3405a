/** The startup barrier: one counter that holds the number of cores ready, or an error. */
module Barrier {

  const BAD_INIT: nat := 512
  const EXCEPTION_THROWN: nat := 4096
  const MAX_CORES: nat := 256

  /** `clean` says the core came to the barrier without an error of its own. */
  datatype Stage = Booting | Failing | Waiting(clean: bool) | Working | Gone(clean: bool)

  /** `erred` is history: some error has been stored. */
  datatype State = State(counter: nat, cores: seq<Stage>, erred: bool)

  datatype Step =
    | StoreError(c: nat, shift: nat)   // the init of core c fails: BadInit, NoActor or BadActorInit
    | Arrive(c: nat)                   // fetch_add
    | Load(c: nat)                     // one turn of the spin loop, and the return after it
    | Throw(c: nat)                    // an exception ends the thread of core c
    | Leave(c: nat)                    // the workflow of core c ends

  predicate Enabled(s: State, step: Step) {
    && step.c < |s.cores|
    && match step
       case StoreError(c, shift) => s.cores[c].Booting? && shift <= 2
       case Arrive(c) => s.cores[c].Booting? || s.cores[c].Failing?
       case Load(c) => s.cores[c].Waiting?
       case Throw(c) => s.cores[c].Booting? || s.cores[c].Failing? || s.cores[c].Working?
       case Leave(c) => s.cores[c].Working?
  }

  function ErrorCode(shift: nat): nat {
    if shift == 0 then BAD_INIT else 2 * ErrorCode(shift - 1)
  }

  function Apply(s: State, step: Step): State {
    if !Enabled(s, step) then s else
    var c := step.c;
    match step
    case StoreError(_, shift) => s.(counter := ErrorCode(shift), cores := s.cores[c := Failing], erred := true)
    case Arrive(_) => s.(counter := s.counter + 1, cores := s.cores[c := Waiting(s.cores[c].Booting?)])
    case Load(_) =>
      if s.counter < |s.cores| then s
      else s.(cores := s.cores[c := if s.counter < BAD_INIT then Working else Gone(s.cores[c].clean)])
    case Throw(_) => s.(counter := EXCEPTION_THROWN, cores := s.cores[c := Gone(s.cores[c].Working?)], erred := true)
    case Leave(_) => s.(cores := s.cores[c := Gone(true)])
  }

  function Run(s: State, steps: seq<Step>): State
    decreases |steps|
  {
    if steps == [] then s else Run(Apply(s, steps[0]), steps[1..])
  }

  function Start(n: nat): State {
    State(0, seq(n, _ => Booting), false)
  }

  predicate CleanlyArrived(k: Stage) {
    (k.Waiting? && k.clean) || k.Working? || (k.Gone? && k.clean)
  }

  /** How many cores have left the boot sequence. */
  function Arrived(cores: seq<Stage>): (n: nat)
    ensures n <= |cores|
  {
    if cores == [] then 0 else Arrived(cores[1..]) + if cores[0].Booting? then 0 else 1
  }

  /** Until an error is stored the counter is the number of cores that arrived; afterwards
      it is an error for good. A core works only when all arrived cleanly. */
  predicate Inv(s: State) {
    && |s.cores| <= MAX_CORES
    && (if s.erred then s.counter >= BAD_INIT
        else s.counter == Arrived(s.cores) && forall c :: 0 <= c < |s.cores| ==> s.cores[c].Booting? || CleanlyArrived(s.cores[c]))
    && ((exists c :: 0 <= c < |s.cores| && s.cores[c].Working?) ==> forall c :: 0 <= c < |s.cores| ==> CleanlyArrived(s.cores[c]))
  }

  lemma {:induction false} ArrivedSet(cores: seq<Stage>, c: nat, k: Stage)
    requires c < |cores| && !k.Booting?
    ensures Arrived(cores[c := k]) == Arrived(cores) + if cores[c].Booting? then 1 else 0
    decreases |cores|
  {
    if c == 0 {
      assert cores[c := k][1..] == cores[1..];
    } else {
      assert cores[c := k][1..] == cores[1..][c - 1 := k];
      ArrivedSet(cores[1..], c - 1, k);
    }
  }

  lemma {:induction false} AllArrived(cores: seq<Stage>)
    ensures Arrived(cores) == |cores| <==> forall c :: 0 <= c < |cores| ==> !cores[c].Booting?
    decreases |cores|
  {
    if cores != [] {
      AllArrived(cores[1..]);
      assert forall c :: 0 < c < |cores| ==> cores[c] == cores[1..][c - 1];
      assert (forall c :: 0 <= c < |cores| ==> !cores[c].Booting?)
        ==> forall c :: 0 <= c < |cores[1..]| ==> !cores[1..][c].Booting?;
    }
  }

  lemma ErrorCodes(shift: nat)
    ensures ErrorCode(shift) >= BAD_INIT
  {
  }

  lemma StepKeepsInv(s: State, step: Step)
    requires Inv(s)
    ensures Inv(Apply(s, step)) && |Apply(s, step).cores| == |s.cores| && (s.erred ==> Apply(s, step).erred)
  {
    if Enabled(s, step) {
      var c := step.c;
      if step.StoreError? {
        ErrorCodes(step.shift);
      }
      AllArrived(s.cores);
      if step.Arrive? {
        ArrivedSet(s.cores, c, Waiting(s.cores[c].Booting?));
      } else if step.Load? {
        ArrivedSet(s.cores, c, Working);
      } else if step.Leave? {
        ArrivedSet(s.cores, c, Gone(true));
      }
    }
  }

  lemma {:induction false} RunKeepsInv(s: State, steps: seq<Step>)
    requires Inv(s)
    ensures Inv(Run(s, steps)) && |Run(s, steps).cores| == |s.cores| && (s.erred ==> Run(s, steps).erred)
    decreases |steps|
  {
    if steps != [] {
      StepKeepsInv(s, steps[0]);
      RunKeepsInv(Apply(s, steps[0]), steps[1..]);
    }
  }

  lemma {:induction false} NoneArrived(n: nat)
    ensures Arrived(seq(n, _ => Booting)) == 0
    decreases n
  {
    if n > 0 {
      assert seq(n, _ => Booting)[1..] == seq(n - 1, _ => Booting);
      NoneArrived(n - 1);
    }
  }

  lemma Reached(n: nat, steps: seq<Step>)
    requires n <= MAX_CORES
    ensures Inv(Run(Start(n), steps)) && |Run(Start(n), steps).cores| == n
  {
    NoneArrived(n);
    RunKeepsInv(Start(n), steps);
  }

  /** After any run, a turn of the spin loop of a waiting core ends exactly when an error was
      stored or nobody is still booting, and it lets the core work exactly when, besides, no
      error was ever stored; then all cores have arrived cleanly. */
  lemma BarrierOpens(n: nat, steps: seq<Step>, c: nat)
    requires c < n <= MAX_CORES && var s := Run(Start(n), steps); c < |s.cores| && s.cores[c].Waiting?
    ensures var s := Run(Start(n), steps);
            var t := Apply(s, Load(c));
            && |t.cores| == n
            && (!t.cores[c].Waiting? <==> s.erred || forall d :: 0 <= d < n ==> !s.cores[d].Booting?)
            && (t.cores[c].Working? <==> !s.erred && forall d :: 0 <= d < n ==> !s.cores[d].Booting?)
            && (t.cores[c].Working? ==> forall d :: 0 <= d < n ==> CleanlyArrived(s.cores[d]))
  {
    var s := Run(Start(n), steps);
    Reached(n, steps);
    AllArrived(s.cores);
  }

  /** Once an error is stored, whatever happens next, no core waiting then or later starts
      to work, and every one leaves the barrier at its next turn. */
  lemma NobodyStartsAfterAnError(n: nat, before: seq<Step>, after: seq<Step>, c: nat)
    requires c < n <= MAX_CORES && Run(Start(n), before).erred
    ensures var s := Run(Run(Start(n), before), after);
            |s.cores| == n && (s.cores[c].Waiting? ==> Apply(s, Load(c)).cores[c] == Gone(s.cores[c].clean))
  {
    Reached(n, before);
    RunKeepsInv(Run(Start(n), before), after);
  }

  // ---------------------------------------------------------------- a clean start

  function Arrivals(k: nat): seq<Step> {
    if k == 0 then [] else Arrivals(k - 1) + [Arrive(k - 1)]
  }

  function Loads(k: nat): seq<Step> {
    if k == 0 then [] else Loads(k - 1) + [Load(k - 1)]
  }

  lemma {:induction false} RunSnoc(s: State, steps: seq<Step>, step: Step)
    ensures Run(s, steps + [step]) == Apply(Run(s, steps), step)
    decreases |steps|
  {
    if steps == [] {
      assert steps + [step] == [step] && [step][1..] == [];
    } else {
      assert (steps + [step])[1..] == steps[1..] + [step];
      RunSnoc(Apply(s, steps[0]), steps[1..], step);
    }
  }

  lemma {:induction false} ArrivalsRun(n: nat, k: nat)
    requires k <= n
    ensures Run(Start(n), Arrivals(k)) == State(k, seq(n, c => if c < k then Waiting(true) else Booting), false)
    decreases k
  {
    if k > 0 {
      ArrivalsRun(n, k - 1);
      RunSnoc(Start(n), Arrivals(k - 1), Arrive(k - 1));
    }
  }

  lemma {:induction false} LoadsRun(n: nat, k: nat)
    requires k <= n <= MAX_CORES
    ensures Run(State(n, seq(n, _ => Waiting(true)), false), Loads(k))
            == State(n, seq(n, c => if c < k then Working else Waiting(true)), false)
    decreases k
  {
    var s := State(n, seq(n, _ => Waiting(true)), false);
    if k > 0 {
      LoadsRun(n, k - 1);
      RunSnoc(s, Loads(k - 1), Load(k - 1));
    } else {
      assert s.cores == seq(n, c => if c < 0 then Working else Waiting(true));
    }
  }

  /** When every core arrives and then loads once, every core works. */
  lemma EveryoneStarts(n: nat)
    requires n <= MAX_CORES
    ensures Run(Run(Start(n), Arrivals(n)), Loads(n)) == State(n, seq(n, _ => Working), false)
  {
    ArrivalsRun(n, n);
    LoadsRun(n, n);
    assert seq(n, c => if c < n then Waiting(true) else Booting) == seq(n, _ => Waiting(true));
    assert seq(n, c => if c < n then Working else Waiting(true)) == seq(n, _ => Working);
  }

  // ---------------------------------------------------------------- errors

  /** The error codes are the bits from 512 on. */
  lemma ErrorCodeValues()
    ensures ErrorCode(0) == 512 && ErrorCode(1) == 1024 && ErrorCode(2) == 2048 && EXCEPTION_THROWN == 4096
  {
  }

  /** A core whose init fails stores its error, arrives all the same, and leaves at its next
      turn without having worked. */
  lemma FailedInitLeaves(n: nat, steps: seq<Step>, c: nat, shift: nat)
    requires c < n <= MAX_CORES && shift <= 2 && var s := Run(Start(n), steps); c < |s.cores| && s.cores[c].Booting?
    ensures var s := Run(Start(n), steps);
            var e := Apply(s, StoreError(c, shift));
            var a := Apply(e, Arrive(c));
            && |a.cores| == n && e.counter == ErrorCode(shift) && e.erred
            && a.cores == s.cores[c := Waiting(false)] && Apply(a, Load(c)).cores == s.cores[c := Gone(false)]
  {
    Reached(n, steps);
    ErrorCodes(shift);
  }

  /** An exception ends the thread of a core that is booting or working, and is an error for
      all. */
  lemma ExceptionIsAnError(n: nat, steps: seq<Step>, c: nat)
    requires c < n <= MAX_CORES && var s := Run(Start(n), steps); c < |s.cores| && (s.cores[c].Booting? || s.cores[c].Working?)
    ensures var s := Run(Start(n), steps);
            var t := Apply(s, Throw(c));
            t.erred && t.counter == EXCEPTION_THROWN && t.cores == s.cores[c := Gone(s.cores[c].Working?)]
  {
    Reached(n, steps);
  }

  /** The end of a core's workflow concerns nobody else. */
  lemma LeavingConcernsNobodyElse(s: State, c: nat)
    requires c < |s.cores| && s.cores[c].Working?
    ensures Apply(s, Leave(c)) == s.(cores := s.cores[c := Gone(true)])
  {
  }
}
