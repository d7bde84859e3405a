/** Polling, and whole runs of a loop over the epoll backend: what the loop hands on, and
    when it can hand on an event of a file its descriptor does not have any more. */
module EpollRuns {
  import opened IoEvents
  import opened Epoll

  /** What a wait reports: a registration, the generation in its user data, and what
      happened. The file is history: the process sees only the user data. */
  datatype Event = Event(fd: nat, file: nat, gen: nat, got: Interest)

  datatype Verdict = Stale | Failed | Dispatched

  // ---------------------------------------------------------------- one event

  /** The body of the loop in `epoll_poll`. */
  function HandleIn(s: State, e: Event, fault: bool): (State, Verdict) {
    var a := Get(s, e.fd);
    if e.gen % GENERATIONS != a.egen % GENERATIONS then (s, Stale)
    else if Within(e.got, a.events) then (s, Dispatched)
    else
      var (k, errno) := Ctl(s.kernel, if a.events != NOTHING then MOD else DEL, e.fd, Registration(e.gen, a.events), fault);
      var t := SetAnfd(s, e.fd, a.(emask := Known(a.events)));
      if errno == OK then (t.(kernel := k), Dispatched) else (t, Failed)
  }

  /** The registration of the present file gets the wanted mask, or goes when nothing is
      wanted. */
  predicate Trimmed(s: State, t: State, fd: nat, gen: nat)
    requires fd in s.kernel.open
  {
    var key := (fd, s.kernel.open[fd]);
    var wanted := Get(s, fd).events;
    t.kernel == s.kernel.(regs := if wanted == NOTHING then s.kernel.regs - {key} else s.kernel.regs[key := Registration(gen, wanted)])
  }

  /** The generation is the descriptor's, and the event is wanted or the registration of the
      present file can be changed. */
  predicate HandedOn(s: State, e: Event, fault: bool) {
    && e.gen % GENERATIONS == Get(s, e.fd).egen % GENERATIONS
    && (Within(e.got, Get(s, e.fd).events) || (CurrentIn(s.kernel, e.fd) && s.kernel.open[e.fd] !in s.kernel.unpollable && !fault))
  }

  lemma HandlesIff(s: State, e: Event, fault: bool)
    ensures var (t, verdict) := HandleIn(s, e, fault);
            var wanted := Within(e.got, Get(s, e.fd).events);
            && (verdict == Stale <==> e.gen % GENERATIONS != Get(s, e.fd).egen % GENERATIONS)
            && (verdict == Dispatched <==> HandedOn(s, e, fault))
            && (if verdict == Dispatched && !wanted then e.fd in s.kernel.open && Trimmed(s, t, e.fd, e.gen) else t.kernel == s.kernel)
  {
  }

  /** Generations that are compared by their low 32 bits are the same number while there
      were fewer than 2^32 modifications of the descriptor. */
  lemma SameGeneration(gen: nat, egen: nat)
    requires gen <= egen < GENERATIONS
    ensures gen % GENERATIONS == egen % GENERATIONS <==> gen == egen
  {
  }

  /** The same descriptors, generations and wanted events. */
  ghost predicate Alike(s: State, t: State) {
    && t.kernel.open == s.kernel.open && t.kernel.unpollable == s.kernel.unpollable
    && t.eperms == s.eperms && t.synced == s.synced
    && forall fd :: Get(t, fd) == Get(s, fd).(emask := Get(t, fd).emask)
  }

  lemma AlikeTwice(s: State, t: State, u: State)
    requires Alike(s, t) && Alike(t, u)
    ensures Alike(s, u)
  {
  }

  predicate Plausible(regs: map<(nat, nat), Registration>, events: seq<Event>) {
    forall i :: 0 <= i < |events| ==>
      var e := events[i]; (e.fd, e.file) in regs && regs[(e.fd, e.file)].gen == e.gen
  }

  /** What the kernel can report, before any descriptor has used up its generations. */
  predicate Reported(s: State, events: seq<Event>) {
    Plausible(s.kernel.regs, events) && forall fd :: fd in s.anfds ==> s.anfds[fd].egen < GENERATIONS
  }

  /** The event is of the present file of its descriptor, if the descriptor has the file of
      its last modification. */
  predicate Genuine(s: State, e: Event) {
    e.fd in s.synced ==> e.fd in s.kernel.open && e.file == s.kernel.open[e.fd]
  }

  lemma DispatchedAreGenuine(s: State, e: Event)
    requires Safe(s) && (e.fd, e.file) in s.kernel.regs && s.kernel.regs[(e.fd, e.file)].gen == e.gen
    requires Get(s, e.fd).egen < GENERATIONS && e.gen % GENERATIONS == Get(s, e.fd).egen % GENERATIONS
    ensures Genuine(s, e)
  {
    assert GenOk(s.kernel, Get(s, e.fd).egen, e.fd);
    SameGeneration(e.gen, Get(s, e.fd).egen);
  }

  /** Beyond that number: a registration of another file passes for the present one exactly
      when the descriptor is a multiple of 2^32 generations ahead of it. */
  lemma GhostPassesIff(s: State, e: Event)
    requires Safe(s) && (e.fd, e.file) in s.kernel.regs && s.kernel.regs[(e.fd, e.file)].gen == e.gen && !Genuine(s, e)
    ensures e.gen < Get(s, e.fd).egen
    ensures e.gen % GENERATIONS == Get(s, e.fd).egen % GENERATIONS <==> (Get(s, e.fd).egen - e.gen) % GENERATIONS == 0
  {
    assert GenOk(s.kernel, Get(s, e.fd).egen, e.fd);
    assert NoGhost(s.kernel, e.fd, Get(s, e.fd).egen);
  }

  lemma HandleAlike(s: State, e: Event, fault: bool)
    ensures Alike(s, HandleIn(s, e, fault).0) && (Loose(s) ==> Loose(HandleIn(s, e, fault).0))
  {
  }

  /** Handling an event keeps the generations right, whether it fails or not. */
  lemma HandleSafe(s: State, e: Event, fault: bool)
    requires Safe(s) && e.gen <= Get(s, e.fd).egen < GENERATIONS
    ensures Safe(HandleIn(s, e, fault).0)
  {
    var (t, verdict) := HandleIn(s, e, fault);
    assert GenOk(s.kernel, Get(s, e.fd).egen, e.fd);
    SameGeneration(e.gen, Get(s, e.fd).egen);
    HandleAlike(s, e, fault);
    OneFdSafe(s, t, e.fd);
  }

  // ---------------------------------------------------------------- one event and the masks

  /** The registration of the present file gets the wanted mask. */
  function RemaskedIn(s: State, fd: nat): State
    requires fd in s.kernel.open
  {
    var a := Get(s, fd);
    SetAnfd(s, fd, a.(emask := Known(a.events))).(
      kernel := s.kernel.(regs := s.kernel.regs[(fd, s.kernel.open[fd]) := Registration(a.egen, a.events)]))
  }

  /** The registration of the present file goes. */
  function DroppedIn(s: State, fd: nat): State
    requires fd in s.kernel.open
  {
    var a := Get(s, fd);
    SetAnfd(s, fd, a.(emask := Known(a.events))).(kernel := s.kernel.(regs := s.kernel.regs - {(fd, s.kernel.open[fd])}))
  }

  lemma HandleCases(s: State, e: Event, fault: bool)
    requires e.gen <= Get(s, e.fd).egen < GENERATIONS
    ensures var (t, verdict) := HandleIn(s, e, fault);
            || t == s || verdict == Failed
            || (CurrentIn(s.kernel, e.fd) && (t == RemaskedIn(s, e.fd) || t == DroppedIn(s, e.fd)))
  {
    SameGeneration(e.gen, Get(s, e.fd).egen);
  }

  lemma RemaskedKeeps(s: State, fd: nat)
    requires Inv(s) && CurrentIn(s.kernel, fd)
    ensures Inv(RemaskedIn(s, fd))
  {
    assert FdOk(s.kernel, Get(s, fd), fd);
    RemaskedOwn(s.kernel, Get(s, fd), fd);
    var t := RemaskedIn(s, fd);
    assert Loose(t);
    OneFd(s, t, fd);
  }

  lemma RemaskedOwn(k: Kernel, a: Anfd, fd: nat)
    requires FdOk(k, a, fd) && CurrentIn(k, fd)
    ensures var k' := k.(regs := k.regs[(fd, k.open[fd]) := Registration(a.egen, a.events)]);
            FdOk(k', a.(emask := Known(a.events)), fd) && (NoGhost(k, fd, a.egen) ==> NoGhost(k', fd, a.egen))
  {
  }

  lemma DroppedKeeps(s: State, fd: nat)
    requires Inv(s) && CurrentIn(s.kernel, fd)
    ensures Inv(DroppedIn(s, fd))
  {
    assert FdOk(s.kernel, Get(s, fd), fd);
    var t := DroppedIn(s, fd);
    assert Loose(t);
    OneFd(s, t, fd);
  }

  /** Handling an event keeps the record right unless it fails, which makes the loop recreate
      the kernel state. */
  lemma HandleKeeps(s: State, e: Event, fault: bool)
    requires Inv(s) && e.gen <= Get(s, e.fd).egen < GENERATIONS
    ensures var (t, verdict) := HandleIn(s, e, fault);
            verdict == Failed || Inv(t)
  {
    HandleCases(s, e, fault);
    if CurrentIn(s.kernel, e.fd) {
      RemaskedKeeps(s, e.fd);
      DroppedKeeps(s, e.fd);
    }
  }

  // ---------------------------------------------------------------- a poll

  /** The events of a poll from the i-th on; those in `faults` meet a kernel that refuses.
      With the events that are handed on. */
  function PollIn(s: State, events: seq<Event>, faults: set<nat>, i: nat): (State, seq<Event>)
    decreases |events| - i
  {
    if i >= |events| then (s, [])
    else
      var (t, verdict) := HandleIn(s, events[i], i in faults);
      var (u, rest) := PollIn(t, events, faults, i + 1);
      (u, if verdict == Dispatched then [events[i]] + rest else rest)
  }

  lemma {:induction false} PollFeedsSome(s: State, events: seq<Event>, faults: set<nat>, i: nat)
    requires i <= |events|
    ensures var (u, fed) := PollIn(s, events, faults, i);
            |fed| <= |events| - i && (|fed| == |events| - i ==> fed == events[i..]) && forall e :: e in fed ==> e in events[i..]
    decreases |events| - i
  {
    if i < |events| {
      PollFeedsSome(HandleIn(s, events[i], i in faults).0, events, faults, i + 1);
      assert events[i..] == [events[i]] + events[i + 1..];
    }
  }

  /** Only genuine events are handed on, and the generations stay right, whatever fails. */
  lemma {:induction false} PollSafe(s0: State, s: State, events: seq<Event>, faults: set<nat>, i: nat)
    requires Safe(s0) && Safe(s) && Alike(s0, s) && Reported(s0, events) && i <= |events|
    ensures var (u, fed) := PollIn(s, events, faults, i);
            Safe(u) && Alike(s0, u) && (Loose(s) ==> Loose(u)) && forall e :: e in fed ==> Genuine(s0, e)
    decreases |events| - i
  {
    if i < |events| {
      var e := events[i];
      var (t, verdict) := HandleIn(s, e, i in faults);
      assert GenOk(s0.kernel, Get(s0, e.fd).egen, e.fd);
      HandleSafe(s, e, i in faults);
      HandleAlike(s, e, i in faults);
      AlikeTwice(s0, s, t);
      if verdict == Dispatched {
        DispatchedAreGenuine(s0, e);
      }
      PollSafe(s0, t, events, faults, i + 1);
    }
  }

  predicate Mine(s: State, e: Event) {
    e.gen % GENERATIONS == Get(s, e.fd).egen % GENERATIONS
  }

  /** The events of a list that are wanted, and, if asked for, whose generation matches. */
  function Wanted(s: State, events: seq<Event>, mine: bool): seq<Event>
    decreases |events|
  {
    if events == [] then []
    else
      (if Within(events[0].got, Get(s, events[0].fd).events) && (mine ==> Mine(s, events[0])) then [events[0]] else [])
      + Wanted(s, events[1..], mine)
  }

  /** What a poll hands on: of the wanted events exactly those whose generation matches, in
      order, whatever happens to the others; and never one whose generation does not. */
  lemma {:induction false} PollFeeds(s0: State, s: State, events: seq<Event>, faults: set<nat>, i: nat)
    requires Alike(s0, s) && i <= |events|
    ensures var fed := PollIn(s, events, faults, i).1;
            && Wanted(s0, fed, false) == Wanted(s0, events[i..], true)
            && forall j :: 0 <= j < |fed| ==> Mine(s0, fed[j])
    decreases |events| - i
  {
    if i < |events| {
      var e := events[i];
      var (t, verdict) := HandleIn(s, e, i in faults);
      HandleAlike(s, e, i in faults);
      AlikeTwice(s0, s, t);
      HandlesIff(s, e, i in faults);
      PollFeeds(s0, t, events, faults, i + 1);
      var rest := PollIn(t, events, faults, i + 1).1;
      assert events[i..][1..] == events[i + 1..];
      assert ([e] + rest)[1..] == rest;
    }
  }

  /** The record stays right unless an event fails, and then not everything is handed on. */
  lemma {:induction false} PollKeeps(s0: State, s: State, events: seq<Event>, faults: set<nat>, i: nat)
    requires Inv(s0) && Inv(s) && Alike(s0, s) && Reported(s0, events) && i <= |events|
    ensures var (u, fed) := PollIn(s, events, faults, i);
            |fed| == |events| - i ==> Inv(u)
    decreases |events| - i
  {
    if i < |events| {
      var e := events[i];
      var (t, verdict) := HandleIn(s, e, i in faults);
      assert FdOk(s0.kernel, Get(s0, e.fd), e.fd);
      HandleKeeps(s, e, i in faults);
      HandleAlike(s, e, i in faults);
      AlikeTwice(s0, s, t);
      PollFeedsSome(t, events, faults, i + 1);
      if verdict == Dispatched {
        PollKeeps(s0, t, events, faults, i + 1);
      }
    }
  }

  // ---------------------------------------------------------------- files that epoll refuses

  predicate AlwaysReady(a: Anfd) {
    a.emask == Refused && a.events != NOTHING
  }

  /** An entry is taken off the list by moving the last one into its place. */
  function DropIn(s: State, i: nat): State
    requires i < |s.eperms|
  {
    SetAnfd(s, s.eperms[i], Get(s, s.eperms[i]).(emask := Known(NOTHING))).(
      eperms := s.eperms[i := s.eperms[|s.eperms| - 1]][..|s.eperms| - 1])
  }

  /** The list is cleared of what is not always ready, from its end. */
  function ScanIn(s: State, i: nat): State
    requires i <= |s.eperms|
    decreases i
  {
    if i == 0 then s
    else if AlwaysReady(Get(s, s.eperms[i - 1])) then ScanIn(s, i - 1)
    else ScanIn(DropIn(s, i - 1), i - 1)
  }

  lemma DropLoose(s: State, i: nat)
    requires Loose(s) && i < |s.eperms|
    ensures Loose(DropIn(s, i))
  {
    var t := DropIn(s, i);
    var n := |s.eperms| - 1;
    forall x | x in t.anfds && t.anfds[x].emask == Refused
      ensures x in t.eperms
    {
      assert x in s.eperms;
      var j :| 0 <= j <= n && s.eperms[j] == x;
      assert if j == n then t.eperms[i] == x else t.eperms[j] == x;
    }
  }

  lemma DropKeeps(s: State, i: nat)
    requires Inv(s) && i < |s.eperms|
    ensures Inv(DropIn(s, i))
  {
    DropLoose(s, i);
    assert FdOk(s.kernel, Get(s, s.eperms[i]), s.eperms[i]);
    OneFd(s, DropIn(s, i), s.eperms[i]);
  }

  lemma DropSafe(s: State, i: nat)
    requires Safe(s) && i < |s.eperms|
    ensures Safe(DropIn(s, i))
  {
    assert GenOk(s.kernel, Get(s, s.eperms[i]).egen, s.eperms[i]);
    OneFdSafe(s, DropIn(s, i), s.eperms[i]);
  }

  lemma {:induction false} ScanLoose(s: State, i: nat)
    requires Loose(s) && i <= |s.eperms|
    ensures Loose(ScanIn(s, i))
    decreases i
  {
    if i > 0 {
      if AlwaysReady(Get(s, s.eperms[i - 1])) {
        ScanLoose(s, i - 1);
      } else {
        DropLoose(s, i - 1);
        ScanLoose(DropIn(s, i - 1), i - 1);
      }
    }
  }

  lemma {:induction false} ScanKeeps(s: State, i: nat)
    requires Inv(s) && i <= |s.eperms|
    ensures Inv(ScanIn(s, i))
    decreases i
  {
    if i > 0 {
      if AlwaysReady(Get(s, s.eperms[i - 1])) {
        ScanKeeps(s, i - 1);
      } else {
        DropKeeps(s, i - 1);
        ScanKeeps(DropIn(s, i - 1), i - 1);
      }
    }
  }

  /** The entries from the i-th on are always ready. */
  predicate ReadyAfter(s: State, i: nat) {
    forall j :: i <= j < |s.eperms| ==> AlwaysReady(Get(s, s.eperms[j]))
  }

  /** Afterwards the list has always-ready files only, and nothing changed but the marks of
      those taken off it. */
  lemma {:induction false} ScanClears(s: State, i: nat)
    requires i <= |s.eperms| && ReadyAfter(s, i)
    ensures var r := ScanIn(s, i);
            && ReadyAfter(r, 0) && r.kernel == s.kernel && r.synced == s.synced
            && forall fd :: if AlwaysReady(Get(s, fd)) then Get(r, fd) == Get(s, fd)
                            else Get(r, fd) == Get(s, fd) || Get(r, fd) == Get(s, fd).(emask := Known(NOTHING))
    decreases i
  {
    if i > 0 {
      if AlwaysReady(Get(s, s.eperms[i - 1])) {
        ScanClears(s, i - 1);
      } else {
        var t := DropIn(s, i - 1);
        DropReady(s, i);
        ScanClears(t, i - 1);
      }
    }
  }

  lemma DropReady(s: State, i: nat)
    requires 0 < i <= |s.eperms| && ReadyAfter(s, i) && !AlwaysReady(Get(s, s.eperms[i - 1]))
    ensures ReadyAfter(DropIn(s, i - 1), i - 1)
  {
    var t, fd := DropIn(s, i - 1), s.eperms[i - 1];
    forall j | i - 1 <= j < |t.eperms|
      ensures AlwaysReady(Get(t, t.eperms[j]))
    {
      assert t.eperms[j] == if j == i - 1 then s.eperms[|s.eperms| - 1] else s.eperms[j];
      assert AlwaysReady(Get(s, t.eperms[j])) && t.eperms[j] != fd;
    }
  }

  lemma {:induction false} ScanSafe(s: State, i: nat)
    requires Safe(s) && i <= |s.eperms|
    ensures Safe(ScanIn(s, i))
    decreases i
  {
    if i > 0 {
      if AlwaysReady(Get(s, s.eperms[i - 1])) {
        ScanSafe(s, i - 1);
      } else {
        DropSafe(s, i - 1);
        ScanSafe(DropIn(s, i - 1), i - 1);
      }
    }
  }

  // ---------------------------------------------------------------- the loop

  /** What can happen: the loop changes what it wants and waits; the process opens and closes
      descriptors, and others let go of files. */
  datatype Command =
    | Want(fd: nat, nev: Interest, force: bool, fault: bool, again: bool)
    | Wait(events: seq<Event>, faults: set<nat>)
    | Open(fd: nat, file: nat)
    | Close(fd: nat, elsewhere: bool)
    | LetGo(file: nat)

  /** An event that was handed on, and the state it was reported in. */
  datatype Fed = Fed(at: State, e: Event)

  /** `postfork`: the kernel state is due to be recreated. `log`: everything handed on. */
  datatype Loop = Loop(st: State, postfork: bool, log: seq<Fed>)

  /** `epoll_fork` and `fd_rearm_all`: a new epoll instance, and every wanted descriptor is
      to be modified again. */
  function RecreateIn(s: State): State {
    s.(kernel := s.kernel.(regs := map[]),
       anfds := map fd | fd in s.anfds ::
         if s.anfds[fd].events != NOTHING then s.anfds[fd].(emask := Known(NOTHING), events := NOTHING) else s.anfds[fd])
  }

  /** What the loop does first. */
  function Due(l: Loop): Loop {
    if l.postfork then Loop(RecreateIn(l.st), false, l.log) else l
  }

  /** One entry of `fd_reify`: the wanted events of a descriptor become `nev`. */
  function ReifyIn(s: State, fd: nat, nev: Interest, force: bool, fault: bool, again: bool): (State, bool) {
    var a := Get(s, fd);
    var t := SetAnfd(s, fd, a.(events := nev));
    if a.events != nev || force then ModifyIn(t, fd, a.events, nev, fault, again) else (t, false)
  }

  /** `epoll_poll`. */
  function WaitIn(s: State, events: seq<Event>, faults: set<nat>): (State, seq<Event>) {
    var (t, fed) := PollIn(s, events, faults, 0);
    (ScanIn(t, |t.eperms|), fed)
  }

  function Log(at: State, fed: seq<Event>): seq<Fed> {
    seq(|fed|, i requires 0 <= i < |fed| => Fed(at, fed[i]))
  }

  function DoIn(l: Loop, command: Command): Loop {
    match command
    case Want(fd, nev, force, fault, again) =>
      var d := Due(l);
      d.(st := ReifyIn(d.st, fd, nev, force, fault, again).0)
    case Wait(events, faults) =>
      var d := Due(l);
      var (t, fed) := WaitIn(d.st, events, faults);
      Loop(t, |fed| < |events|, d.log + Log(d.st, fed))
    case Open(fd, file) => if fd in l.st.kernel.open then l else l.(st := OpenIn(l.st, fd, file))
    case Close(fd, elsewhere) =>
      if fd !in l.st.kernel.open then l
      else l.(st := l.st.(kernel := CloseIn(l.st.kernel, fd, elsewhere), synced := l.st.synced - {fd}))
    case LetGo(file) =>
      if file in l.st.kernel.open.Values then l else l.(st := l.st.(kernel := Forget(l.st.kernel, file)))
  }

  function RunIn(l: Loop, commands: seq<Command>): Loop
    decreases |commands|
  {
    if commands == [] then l else RunIn(DoIn(l, commands[0]), commands[1..])
  }

  // ---------------------------------------------------------------- every run hands on genuine events only

  /** The generations are right, or the kernel state is due to be recreated. */
  ghost predicate LoopSafe(l: Loop) {
    Loose(l.st) && (l.postfork || Safe(l.st))
  }

  predicate AllGenuine(log: seq<Fed>) {
    forall i :: 0 <= i < |log| ==> Genuine(log[i].at, log[i].e)
  }

  /** The kernel reports what is registered, and a descriptor gets a file only where that
      makes no ghost. */
  predicate CarefulOne(l: Loop, command: Command) {
    match command
    case Wait(events, _) => Reported(Due(l).st, events)
    case Open(fd, file) => fd in l.st.kernel.open || l.postfork || Harmless(l.st, fd, file)
    case _ => true
  }

  predicate Careful(l: Loop, commands: seq<Command>)
    decreases |commands|
  {
    commands == [] || (CarefulOne(l, commands[0]) && Careful(DoIn(l, commands[0]), commands[1..]))
  }

  lemma DueSafe(l: Loop)
    requires LoopSafe(l)
    ensures Loose(Due(l).st) && Safe(Due(l).st) && !Due(l).postfork
  {
  }

  lemma ReifySafe(s: State, fd: nat, nev: Interest, force: bool, fault: bool, again: bool)
    requires Loose(s) && Safe(s)
    ensures Loose(ReifyIn(s, fd, nev, force, fault, again).0) && Safe(ReifyIn(s, fd, nev, force, fault, again).0)
  {
    var a := Get(s, fd);
    var t := SetAnfd(s, fd, a.(events := nev));
    assert GenOk(s.kernel, a.egen, fd);
    OneFdSafe(s, t, fd);
    ModifySafe(t, fd, a.events, nev, fault, again);
    ModifyLoose(t, fd, a.events, nev, fault, again);
  }

  lemma ModifyLoose(s: State, fd: nat, oev: Interest, nev: Interest, fault: bool, again: bool)
    requires Loose(s)
    ensures Loose(ModifyIn(s, fd, oev, nev, fault, again).0)
  {
    if nev != NOTHING {
      ModifyCases(s, fd, oev, nev, fault, again);
    }
  }

  lemma WaitSafe(s: State, events: seq<Event>, faults: set<nat>)
    requires Loose(s) && Safe(s) && Reported(s, events)
    ensures var (t, fed) := WaitIn(s, events, faults);
            Loose(t) && Safe(t) && AllGenuine(Log(s, fed))
  {
    PollSafe(s, s, events, faults, 0);
    var (u, fed) := PollIn(s, events, faults, 0);
    ScanLoose(u, |u.eperms|);
    ScanSafe(u, |u.eperms|);
  }

  lemma DoSafe(l: Loop, command: Command)
    requires LoopSafe(l) && AllGenuine(l.log) && CarefulOne(l, command)
    ensures LoopSafe(DoIn(l, command)) && AllGenuine(DoIn(l, command).log)
  {
    DueSafe(l);
    match command
    case Want(fd, nev, force, fault, again) =>
      ReifySafe(Due(l).st, fd, nev, force, fault, again);
    case Wait(events, faults) =>
      WaitSafe(Due(l).st, events, faults);
    case Open(fd, file) =>
      if Safe(l.st) && Harmless(l.st, fd, file) {
        OpenSafe(l.st, fd, file);
      }
    case Close(fd, elsewhere) =>
      if Safe(l.st) {
        LossSafe(l.st, DoIn(l, command).st);
      }
    case LetGo(file) =>
      if Safe(l.st) {
        LossSafe(l.st, DoIn(l, command).st);
      }
  }

  /** Over any careful run, through give-ups, faults and recreations, every event handed on
      is of the present file of its descriptor. */
  lemma {:induction false} RunSafe(l: Loop, commands: seq<Command>)
    requires LoopSafe(l) && AllGenuine(l.log) && Careful(l, commands)
    ensures LoopSafe(RunIn(l, commands)) && AllGenuine(RunIn(l, commands).log)
    decreases |commands|
  {
    if commands != [] {
      DoSafe(l, commands[0]);
      RunSafe(DoIn(l, commands[0]), commands[1..]);
    }
  }

  // ---------------------------------------------------------------- the exact condition

  /** From here every careful run hands on genuine events only. */
  ghost predicate Secure(l: Loop) {
    forall commands :: Careful(l, commands) ==> AllGenuine(RunIn(l, commands).log)
  }

  /** A closed descriptor may get a file exactly when that makes no ghost: otherwise some run
      without a further such step hands on an event of a file the descriptor does not
      have. */
  lemma ReopeningIsSafeIff(l: Loop, fd: nat, file: nat)
    requires LoopSafe(l) && !l.postfork && AllGenuine(l.log) && fd !in l.st.kernel.open
    requires forall x :: x in l.st.anfds ==> l.st.anfds[x].egen < GENERATIONS
    ensures Secure(DoIn(l, Open(fd, file))) <==> Harmless(l.st, fd, file)
  {
    var m := DoIn(l, Open(fd, file));
    if Harmless(l.st, fd, file) {
      DoSafe(l, Open(fd, file));
      forall commands | Careful(m, commands)
        ensures AllGenuine(RunIn(m, commands).log)
      {
        RunSafe(m, commands);
      }
    } else {
      var key :| key in l.st.kernel.regs && key.0 == fd && l.st.kernel.regs[key].gen == Get(l.st, fd).egen && key.1 != file;
      GhostRuns(m, fd, key.1);
    }
  }

  /** Two modifications the kernel refuses, and a wait. */
  function Haunting(fd: nat, ghostly: nat, egen: nat): seq<Command> {
    [Want(fd, READ, true, true, true), Want(fd, READ, true, true, true), Wait([Event(fd, ghostly, egen, READ)], {})]
  }

  /** The present file is registered, and so is another one with the descriptor's generation. */
  predicate Haunted(s: State, fd: nat, ghostly: nat) {
    && CurrentIn(s.kernel, fd) && s.kernel.open[fd] !in s.kernel.unpollable && ghostly != s.kernel.open[fd]
    && (fd, ghostly) in s.kernel.regs && s.kernel.regs[(fd, ghostly)].gen == Get(s, fd).egen
  }

  /** The modification gives up, and from then on takes the registration for the right one. */
  lemma HauntedWant(s: State, fd: nat, ghostly: nat)
    requires Haunted(s, fd, ghostly)
    ensures var t := ReifyIn(s, fd, READ, true, true, true).0;
            && Haunted(t, fd, ghostly) && t.kernel == s.kernel && Get(t, fd) == Anfd(Known(READ), Get(s, fd).egen, READ)
            && (forall x :: x in t.anfds && x != fd ==> x in s.anfds && t.anfds[x] == s.anfds[x])
            && (Get(s, fd).emask == Known(READ) ==> fd in t.synced)
  {
    var a := Get(s, fd);
    var m := SetAnfd(s, fd, a.(events := READ));
    assert Get(m, fd) == a.(events := READ);
  }

  lemma GhostRuns(m: Loop, fd: nat, ghostly: nat)
    requires !m.postfork && Haunted(m.st, fd, ghostly)
    requires forall x :: x in m.st.anfds ==> m.st.anfds[x].egen < GENERATIONS
    ensures !Secure(m)
  {
    var egen := Get(m.st, fd).egen;
    var commands := Haunting(fd, ghostly, egen);
    var one := DoIn(m, commands[0]);
    HauntedWant(m.st, fd, ghostly);
    var two := DoIn(one, commands[1]);
    HauntedWant(one.st, fd, ghostly);
    var e := Event(fd, ghostly, egen, READ);
    GhostFed(two, fd, ghostly);
    var three := DoIn(two, commands[2]);
    assert commands[1..] == [commands[1], commands[2]] && commands[1..][1..] == [commands[2]] && [commands[2]][1..] == [];
    assert RunIn(two, [commands[2]]) == three && RunIn(one, commands[1..]) == three && RunIn(m, commands) == three;
    assert Careful(two, [commands[2]]) && Careful(one, commands[1..]) && Careful(m, commands);
  }

  lemma PollOne(s: State, e: Event)
    requires HandleIn(s, e, false) == (s, Dispatched)
    ensures PollIn(s, [e], {}, 0) == (s, [e])
  {
    var faults: set<nat> := {};
    assert [e][0] == e && 0 !in faults;
    assert PollIn(s, [e], faults, 1) == (s, []);
    assert [e] + [] == [e];
  }

  lemma GhostFed(two: Loop, fd: nat, ghostly: nat)
    requires !two.postfork && Haunted(two.st, fd, ghostly) && fd in two.st.synced && Get(two.st, fd).events == READ
    ensures var e := Event(fd, ghostly, Get(two.st, fd).egen, READ);
            && Plausible(two.st.kernel.regs, [e]) && !AllGenuine(DoIn(two, Wait([e], {})).log)
  {
    var e := Event(fd, ghostly, Get(two.st, fd).egen, READ);
    assert HandleIn(two.st, e, false) == (two.st, Dispatched);
    PollOne(two.st, e);
    var log := DoIn(two, Wait([e], {})).log;
    assert log[|log| - 1] == Fed(two.st, e);
  }

  // ---------------------------------------------------------------- a run in which it happens

  /** A loop that has done nothing. */
  function NewLoop(unpollable: set<nat>): Loop {
    Loop(State(Kernel(map[], map[], unpollable), map[], [], {}), false, [])
  }

  lemma NewLoopSafe(unpollable: set<nat>)
    ensures LoopSafe(NewLoop(unpollable))
  {
  }

  /** Descriptor 0 has file 1, then file 2, then file 1 again, each held elsewhere too. */
  function Swaps(): seq<Command> {
    [Open(0, 1), Want(0, READ, false, false, false), Close(0, true),
     Open(0, 2), Want(0, READ, true, false, false), Close(0, true),
     Open(0, 1), Want(0, READ, true, false, false), Wait([Event(0, 2, 2, READ)], {})]
  }

  /** Descriptor 0 after its n-th file was registered. */
  function Swapped(open: map<nat, nat>, regs: map<(nat, nat), Registration>, egen: nat, synced: set<nat>): Loop {
    Loop(State(Kernel(open, regs, {}), map[0 := Anfd(Known(READ), egen, READ)], [], synced), false, [])
  }

  const ONE := map[(0, 1) := Registration(1, READ)]
  const BOTH := map[(0, 1) := Registration(1, READ), (0, 2) := Registration(2, READ)]

  lemma FirstFile()
    ensures RunIn(NewLoop({}), Swaps()[..3]) == Swapped(map[], ONE, 1, {})
  {
    var a := DoIn(NewLoop({}), Open(0, 1));
    var b := DoIn(a, Want(0, READ, false, false, false));
    assert b == Swapped(map[0 := 1], ONE, 1, {0});
    var c := DoIn(b, Close(0, true));
    assert c == Swapped(map[], ONE, 1, {}) by {
      assert map[0 := 1] - {0} == map[];
    }
    var steps := Swaps()[..3];
    assert steps == [Open(0, 1), Want(0, READ, false, false, false), Close(0, true)];
    assert steps[1..] == [Want(0, READ, false, false, false), Close(0, true)] && steps[1..][1..] == [Close(0, true)] && steps[1..][1..][1..] == [];
    assert RunIn(b, steps[1..][1..]) == RunIn(c, []);
  }

  lemma SecondFile()
    ensures RunIn(Swapped(map[], ONE, 1, {}), Swaps()[3..6]) == Swapped(map[], BOTH, 2, {})
  {
    var a := DoIn(Swapped(map[], ONE, 1, {}), Open(0, 2));
    var b := DoIn(a, Want(0, READ, true, false, false));
    assert b == Swapped(map[0 := 2], BOTH, 2, {0});
    var c := DoIn(b, Close(0, true));
    assert c == Swapped(map[], BOTH, 2, {}) by {
      assert map[0 := 2] - {0} == map[];
    }
    var steps := Swaps()[3..6];
    assert steps == [Open(0, 2), Want(0, READ, true, false, false), Close(0, true)];
    assert steps[1..] == [Want(0, READ, true, false, false), Close(0, true)] && steps[1..][1..] == [Close(0, true)] && steps[1..][1..][1..] == [];
    assert RunIn(b, steps[1..][1..]) == RunIn(c, []);
  }

  lemma FirstFileAgain()
    ensures var r := RunIn(Swapped(map[], BOTH, 2, {}), Swaps()[6..]);
            |r.log| == 1 && r.log[0].e == Event(0, 2, 2, READ) && !Genuine(r.log[0].at, r.log[0].e)
  {
    var a := DoIn(Swapped(map[], BOTH, 2, {}), Open(0, 1));
    var b := DoIn(a, Want(0, READ, true, false, false));
    assert b == Swapped(map[0 := 1], BOTH, 2, {0});
    var e := Event(0, 2, 2, READ);
    assert HandleIn(b.st, e, false) == (b.st, Dispatched);
    PollOne(b.st, e);
    var c := DoIn(b, Wait([e], {}));
    assert c.log == [Fed(b.st, e)];
    var steps := Swaps()[6..];
    assert steps == [Open(0, 1), Want(0, READ, true, false, false), Wait([e], {})];
    assert steps[1..] == [Want(0, READ, true, false, false), Wait([e], {})] && steps[1..][1..] == [Wait([e], {})] && steps[1..][1..][1..] == [];
    assert RunIn(b, steps[1..][1..]) == RunIn(c, []);
  }

  lemma {:induction false} RunTwice(l: Loop, a: seq<Command>, b: seq<Command>)
    ensures RunIn(l, a + b) == RunIn(RunIn(l, a), b)
    decreases |a|
  {
    if a == [] {
      assert a + b == b;
    } else {
      RunTwice(DoIn(l, a[0]), a[1..], b);
      assert (a + b)[1..] == a[1..] + b;
    }
  }

  /** A run from a new loop, without any fault, that hands on an event of file 2 for a
      descriptor that has file 1. */
  lemma GhostIsDispatched()
    ensures var r := RunIn(NewLoop({}), Swaps());
            |r.log| == 1 && r.log[0].e == Event(0, 2, 2, READ) && !Genuine(r.log[0].at, r.log[0].e)
  {
    var s := Swaps();
    FirstFile();
    SecondFile();
    FirstFileAgain();
    assert s == s[..3] + (s[3..6] + s[6..]);
    RunTwice(NewLoop({}), s[..3], s[3..6] + s[6..]);
    RunTwice(Swapped(map[], ONE, 1, {}), s[3..6], s[6..]);
  }

  // ---------------------------------------------------------------- when the record stays right

  /** The kernel did not refuse to change the mask of a registration that has another one. */
  predicate Accepted(s: State, fd: nat, nev: Interest, force: bool, fault: bool, again: bool) {
    !(ReifyIn(s, fd, nev, force, fault, again).1 && CurrentIn(s.kernel, fd) && s.kernel.regs[(fd, s.kernel.open[fd])].mask != nev)
  }

  /** The wanted events are no part of the record's invariant. */
  lemma EventsKeep(s: State, fd: nat, nev: Interest)
    requires Inv(s)
    ensures Inv(SetAnfd(s, fd, Get(s, fd).(events := nev)))
  {
    assert FdOk(s.kernel, Get(s, fd), fd);
    OneFd(s, SetAnfd(s, fd, Get(s, fd).(events := nev)), fd);
  }

  /** Only this descriptor, which wants these events now, and registrations of its own. */
  ghost predicate Wants(s: State, t: State, fd: nat, nev: Interest) {
    && Get(t, fd).events == nev && t.kernel.open == s.kernel.open
    && (forall other :: other != fd ==> Get(t, other) == Get(s, other))
    && (forall key :: key in s.kernel.regs && key.0 != fd ==> key in t.kernel.regs && t.kernel.regs[key] == s.kernel.regs[key])
    && (forall key :: key in t.kernel.regs && key.0 != fd ==> key in s.kernel.regs)
  }

  lemma ReifyConcernsOne(s: State, fd: nat, nev: Interest, force: bool, fault: bool, again: bool)
    ensures Wants(s, ReifyIn(s, fd, nev, force, fault, again).0, fd, nev)
  {
    var a := Get(s, fd);
    var m := SetAnfd(s, fd, a.(events := nev));
    if nev != NOTHING {
      ModifyCases(m, fd, a.events, nev, fault, again);
    }
  }

  /** A change of what is wanted arms the descriptor unless the loop gives up on it, and the
      record stays right exactly when the change was accepted. */
  lemma ReifyKeepsIff(s: State, fd: nat, nev: Interest, force: bool, fault: bool, again: bool)
    requires Inv(s)
    ensures var (t, gaveUp) := ReifyIn(s, fd, nev, force, fault, again);
            && Loose(t) && Wants(s, t, fd, nev) && (Inv(t) <==> Accepted(s, fd, nev, force, fault, again))
            && (!gaveUp && nev != NOTHING && (force || nev != Get(s, fd).events) ==> Armed(t, fd, nev))
  {
    var a := Get(s, fd);
    EventsKeep(s, fd, nev);
    ReifyConcernsOne(s, fd, nev, force, fault, again);
    if a.events != nev || force {
      ModifyArms(SetAnfd(s, fd, a.(events := nev)), fd, a.events, nev, fault, again);
    }
  }

  /** The record is right, or the kernel state is due to be recreated. */
  ghost predicate LoopRight(l: Loop) {
    Loose(l.st) && (l.postfork || Inv(l.st))
  }

  /** Steps that cannot make the record wrong. */
  predicate OrderlyOne(l: Loop, command: Command) {
    match command
    case Want(fd, nev, force, fault, again) => Accepted(Due(l).st, fd, nev, force, fault, again)
    case Wait(events, _) => Reported(Due(l).st, events)
    case Open(fd, file) => fd in l.st.kernel.open || l.postfork || Matching(l.st, fd, file)
    case _ => true
  }

  lemma WaitKeeps(s: State, events: seq<Event>, faults: set<nat>)
    requires Inv(s) && Reported(s, events)
    ensures var (t, fed) := WaitIn(s, events, faults);
            Loose(t) && (|fed| == |events| ==> Inv(t))
  {
    RightIsSafe(s);
    PollSafe(s, s, events, faults, 0);
    PollKeeps(s, s, events, faults, 0);
    var (u, fed) := PollIn(s, events, faults, 0);
    ScanLoose(u, |u.eperms|);
    if |fed| == |events| {
      ScanKeeps(u, |u.eperms|);
    }
  }

  lemma DoKeeps(l: Loop, command: Command)
    requires LoopRight(l) && OrderlyOne(l, command)
    ensures LoopRight(DoIn(l, command))
  {
    DueRight(l);
    match command
    case Want(fd, nev, force, fault, again) =>
      ReifyKeepsIff(Due(l).st, fd, nev, force, fault, again);
    case Wait(events, faults) =>
      WaitKeeps(Due(l).st, events, faults);
      PollFeedsSome(Due(l).st, events, faults, 0);
    case Open(fd, file) =>
      if Inv(l.st) && fd !in l.st.kernel.open {
        OpenKeepsIff(l.st, fd, file);
      }
    case Close(fd, elsewhere) =>
      if Inv(l.st) {
        LossKeeps(l.st, DoIn(l, command).st);
      }
    case LetGo(file) =>
      if Inv(l.st) {
        LossKeeps(l.st, DoIn(l, command).st);
      }
  }

  lemma DueRight(l: Loop)
    requires LoopRight(l)
    ensures Inv(Due(l).st) && !Due(l).postfork
  {
  }
}
