/** The functions of the epoll backend, proved against the functions of `Epoll` and
    `EpollRuns`. */
module EpollLoop {
  import opened IoEvents
  import opened Epoll
  import opened EpollRuns

  class EventLoop {
    var kernel: Kernel               // outside the process
    var anfds: map<nat, Anfd>
    var eperms: seq<nat>
    var postfork: bool               // the kernel state is to be recreated
    ghost var synced: set<nat>
    ghost var log: seq<Fed>          // everything handed on

    ghost function View(): State
      reads this
    {
      State(kernel, anfds, eperms, synced)
    }

    ghost function Now(): Loop
      reads this
    {
      Loop(View(), postfork, log)
    }

    constructor (unpollable: set<nat>)
      ensures Inv(View()) && Now() == NewLoop(unpollable) && LoopSafe(Now())
    {
      kernel := Kernel(map[], map[], unpollable);
      anfds, eperms, postfork, synced, log := map[], [], false, {}, [];
      new;
      NewLoopSafe(unpollable);
    }

    method EpollCtl(op: Op, fd: nat, r: Registration, fault: bool) returns (errno: Errno)
      modifies this`kernel
      ensures (kernel, errno) == Ctl(old(kernel), op, fd, r, fault)
    {
      var (k, e) := Ctl(kernel, op, fd, r, fault);
      kernel := k;
      return e;
    }

    method Record(fd: nat) returns (a: Anfd)
      ensures a == Get(View(), fd)
    {
      return if fd in anfds then anfds[fd] else BLANK;
    }

    /** `epoll_modify` */
    method Modify(fd: nat, oev: Interest, nev: Interest, fault: bool, again: bool) returns (gaveUp: bool)
      modifies this`kernel, this`anfds, this`eperms, this`synced
      ensures (View(), gaveUp) == ModifyIn(old(View()), fd, oev, nev, fault, again)
    {
      if nev == NOTHING {
        return false;
      }
      ghost var s := View();
      var a := Record(fd);
      anfds := anfds[fd := a.(emask := Known(nev), egen := a.egen + 1)];
      var errno := EpollCtl(if oev != NOTHING && a.emask != Known(nev) then MOD else ADD, fd, Registration(a.egen + 1, nev), fault);
      if errno == OK {
        synced := synced + {fd};
        return false;
      }
      gaveUp := Recover(fd, a, nev, errno, again, s);
    }

    /** The error branches. The first call changed nothing but the record. */
    method Recover(fd: nat, a: Anfd, nev: Interest, errno: Errno, again: bool, ghost s: State) returns (gaveUp: bool)
      requires a == Get(s, fd) && errno != OK
      requires View() == SetAnfd(s, fd, a.(emask := Known(nev), egen := a.egen + 1))
      modifies this`kernel, this`anfds, this`eperms, this`synced
      ensures (View(), gaveUp) == AfterCtl(s, fd, nev, s.kernel, errno, again)
    {
      if errno == EPERM {
        anfds := anfds[fd := anfds[fd].(emask := Refused)];
        assert anfds == s.anfds[fd := Anfd(Refused, a.egen + 1, a.events)];
        if a.emask != Refused {
          eperms := eperms + [fd];
        }
        synced := synced + {fd};
        return false;
      }
      if errno == ENOENT || (errno == EEXIST && a.emask != Known(nev)) {
        var second := EpollCtl(if errno == ENOENT then ADD else MOD, fd, Registration(a.egen + 1, nev), again);
        if second == OK {
          synced := synced + {fd};
          return false;
        }
      }
      anfds := anfds[fd := anfds[fd].(egen := a.egen)];
      assert anfds == s.anfds[fd := a.(emask := Known(nev))];
      if errno == EEXIST && a.emask == Known(nev) {
        synced := synced + {fd};
        return false;
      }
      return true;
    }

    /** The event loop of `epoll_poll`. It hands on exactly the events whose handling says so,
        and asks for the kernel state to be recreated exactly when it dropped one. */
    method Poll(events: seq<Event>, faults: set<nat>) returns (fed: seq<Event>)
      modifies this`kernel, this`anfds, this`postfork
      ensures (View(), fed) == PollIn(old(View()), events, faults, 0)
      ensures Wanted(old(View()), fed, false) == Wanted(old(View()), events, true)
      ensures postfork == (old(postfork) || |fed| < |events|)
    {
      PollFeeds(View(), View(), events, faults, 0);
      assert events[0..] == events;
      fed := PollEach(events, faults);
    }

    method PollEach(events: seq<Event>, faults: set<nat>) returns (fed: seq<Event>)
      modifies this`kernel, this`anfds, this`postfork
      ensures (View(), fed) == PollIn(old(View()), events, faults, 0)
      ensures postfork == (old(postfork) || |fed| < |events|)
    {
      ghost var s := View();
      fed := [];
      PollStarts(s, events, faults);
      var i := 0;
      while i < |events|
        invariant 0 <= i <= |events| && |fed| <= i && Reaches(s, View(), events, faults, i, fed)
        invariant postfork == (old(postfork) || |fed| < i)
      {
        PollNext(s, View(), events, faults, i, fed);
        var verdict := Handle(events[i], i in faults);
        if verdict == Dispatched {
          fed := fed + [events[i]];
        } else {
          postfork := true;
        }
        i := i + 1;
      }
      assert fed + [] == fed;
    }

    /** One reported event. It is handed on exactly when its generation is the descriptor's
        and it is wanted or the present registration can be trimmed to what is wanted. */
    method Handle(e: Event, fault: bool) returns (verdict: Verdict)
      modifies this`kernel, this`anfds
      ensures (View(), verdict) == HandleIn(old(View()), e, fault)
      ensures verdict == Stale <==> e.gen % GENERATIONS != Get(old(View()), e.fd).egen % GENERATIONS
      ensures verdict == Dispatched <==> HandedOn(old(View()), e, fault)
      ensures if verdict == Dispatched && !Within(e.got, Get(old(View()), e.fd).events)
              then e.fd in old(kernel).open && Trimmed(old(View()), View(), e.fd, e.gen) else kernel == old(kernel)
    {
      HandlesIff(View(), e, fault);
      var a := Record(e.fd);
      if e.gen % GENERATIONS != a.egen % GENERATIONS {
        return Stale;
      }
      if !Within(e.got, a.events) {
        anfds := anfds[e.fd := a.(emask := Known(a.events))];
        var errno := EpollCtl(if a.events != NOTHING then MOD else DEL, e.fd, Registration(e.gen, a.events), fault);
        if errno != OK {
          return Failed;
        }
      }
      return Dispatched;
    }

    /** Takes an entry off the list of refused files by moving the last one into its place. */
    method DropRefused(i: nat)
      requires i < |eperms|
      modifies this`anfds, this`eperms
      ensures View() == DropIn(old(View()), i)
    {
      var fd := eperms[i];
      var a := Record(fd);
      eperms := eperms[i := eperms[|eperms| - 1]][..|eperms| - 1];
      anfds := anfds[fd := a.(emask := Known(NOTHING))];
    }

    /** The loop over the files that epoll refuses: each one that is wanted is reported as
        ready, and the list is cleared of the others. */
    method PollRefused() returns (ready: seq<nat>)
      requires Loose(View())
      modifies this`anfds, this`eperms
      ensures View() == ScanIn(old(View()), |old(eperms)|)
      ensures Loose(View()) && (old(Inv(View())) ==> Inv(View())) && ReadyAfter(View(), 0)
      ensures forall fd :: fd in ready <==> fd in old(anfds) && AlwaysReady(old(anfds)[fd])
    {
      ghost var s := View();
      ScanClears(s, |s.eperms|);
      ready := ScanRefused();
      ScanLoose(s, |s.eperms|);
      if Inv(s) {
        ScanKeeps(s, |s.eperms|);
      }
    }

    method ScanRefused() returns (ready: seq<nat>)
      requires Loose(View())
      modifies this`anfds, this`eperms
      ensures View() == ScanIn(old(View()), |old(eperms)|)
      ensures forall fd :: fd in ready <==> fd in old(anfds) && AlwaysReady(old(anfds)[fd])
    {
      ghost var s := View();
      ready := [];
      var i: nat := |eperms|;
      while i > 0
        invariant Scanned(s, View(), i) && ReadyFrom(s, ready, i)
      {
        var one := ScanEntry(i - 1, s);
        ReadyNext(s, ready, i);
        i := i - 1;
        ready := ready + one;
      }
      AllReady(s, ready);
    }

    /** One entry of the list, in a scan that began in `s`. */
    method ScanEntry(i: nat, ghost s: State) returns (one: seq<nat>)
      requires Scanned(s, View(), i + 1)
      modifies this`anfds, this`eperms
      ensures Scanned(s, View(), i) && one == if s.eperms[i] in s.anfds && AlwaysReady(s.anfds[s.eperms[i]]) then [s.eperms[i]] else []
    {
      ScanNext(s, View(), i + 1);
      var fd := eperms[i];
      var a := Record(fd);
      if AlwaysReady(a) {
        return [fd];
      }
      DropRefused(i);
      return [];
    }

    /** `epoll_fork` and `fd_rearm_all`: a new epoll instance, and every wanted descriptor is
        to be modified again. */
    method Recreate() returns (changes: set<nat>)
      requires Loose(View())
      modifies this`kernel, this`anfds, this`postfork
      ensures View() == RecreateIn(old(View())) && Inv(View()) && !postfork
      ensures forall fd :: fd in changes <==> Get(old(View()), fd).events != NOTHING
      ensures forall fd :: Get(View(), fd) ==
                if fd in changes then Get(old(View()), fd).(emask := Known(NOTHING), events := NOTHING) else Get(old(View()), fd)
    {
      kernel := kernel.(regs := map[]);
      changes := set fd | fd in anfds && anfds[fd].events != NOTHING;
      anfds := map fd | fd in anfds ::
        if anfds[fd].events != NOTHING then anfds[fd].(emask := Known(NOTHING), events := NOTHING) else anfds[fd];
      postfork := false;
    }

    /** One entry of `fd_reify`: the wanted events of a descriptor become `nev`. */
    method Reify(fd: nat, nev: Interest, force: bool, fault: bool, again: bool) returns (gaveUp: bool)
      modifies this`kernel, this`anfds, this`eperms, this`synced
      ensures (View(), gaveUp) == ReifyIn(old(View()), fd, nev, force, fault, again)
    {
      var a := Record(fd);
      anfds := anfds[fd := a.(events := nev)];
      gaveUp := false;
      if a.events != nev || force {
        gaveUp := Modify(fd, a.events, nev, fault, again);
      }
    }

    method RecreateIfDue()
      requires Loose(View())
      modifies this
      ensures Now() == Due(old(Now())) && Loose(View())
    {
      if postfork {
        var changes := Recreate();
      }
    }

    /** `epoll_poll`: hands on what the poll hands on, reports the always-ready files, and asks for recreation exactly when
        that is not everything reported. */
    method WaitFor(events: seq<Event>, faults: set<nat>) returns (fed: seq<Event>, ready: seq<nat>)
      requires Loose(View()) && !postfork
      modifies this`kernel, this`anfds, this`eperms, this`postfork
      ensures (View(), fed) == WaitIn(old(View()), events, faults)
      ensures postfork <==> |fed| < |events|
      ensures forall fd :: fd in ready <==> AlwaysReady(Get(PollIn(old(View()), events, faults, 0).0, fd))
      ensures Loose(View()) && ReadyAfter(View(), 0)
    {
      PollLoose(View(), events, faults, 0);
      fed := Poll(events, faults);
      ready := PollRefused();
    }

    /** Any run of commands: the loop ends where the run leads, with everything handed on in
        the log. On careful runs, whatever the kernel refuses, every event in it is
        genuine. */
    method Run(commands: seq<Command>)
      requires Loose(View())
      modifies this
      ensures Now() == RunIn(old(Now()), commands)
      ensures LoopSafe(old(Now())) && AllGenuine(old(log)) && Careful(old(Now()), commands) ==> LoopSafe(Now()) && AllGenuine(log)
    {
      var i := 0;
      while i < |commands|
        invariant 0 <= i <= |commands| && Loose(View())
        invariant RunIn(Now(), commands[i..]) == RunIn(old(Now()), commands)
      {
        assert commands[i..][1..] == commands[i + 1..];
        Do(commands[i]);
        i := i + 1;
      }
      assert commands[i..] == [];
      if LoopSafe(old(Now())) && AllGenuine(old(log)) && Careful(old(Now()), commands) {
        RunSafe(old(Now()), commands);
      }
    }

    method Do(command: Command)
      requires Loose(View())
      modifies this
      ensures Now() == DoIn(old(Now()), command) && Loose(View())
    {
      DoLoose(Now(), command);
      match command {
        case Want(fd, nev, force, fault, again) =>
          RecreateIfDue();
          var gaveUp := Reify(fd, nev, force, fault, again);
        case Wait(events, faults) =>
          RecreateIfDue();
          ghost var s := View();
          var fed, ready := WaitFor(events, faults);
          log := log + Log(s, fed);
        case Open(fd, file) =>
          if fd !in kernel.open {
            kernel := kernel.(open := kernel.open[fd := file]);
            synced := synced - {fd};
          }
        case Close(fd, elsewhere) =>
          if fd in kernel.open {
            kernel := CloseIn(kernel, fd, elsewhere);
            synced := synced - {fd};
          }
        case LetGo(file) =>
          if file !in kernel.open.Values {
            kernel := Forget(kernel, file);
          }
      }
    }
  }

  // ---------------------------------------------------------------- helpers of the loops

  /** The same files are always ready. */
  ghost predicate SameReady(before: map<nat, Anfd>, after: map<nat, Anfd>) {
    forall fd :: (fd in before && AlwaysReady(before[fd])) <==> (fd in after && AlwaysReady(after[fd]))
  }

  /** Exactly the always-ready files from the i-th entry of the list on are in `ready`. */
  predicate ReadyFrom(s: State, ready: seq<nat>, i: nat) {
    && (forall fd :: fd in ready ==> fd in s.anfds && AlwaysReady(s.anfds[fd]))
    && forall j :: i <= j < |s.eperms| && s.eperms[j] in s.anfds && AlwaysReady(s.anfds[s.eperms[j]]) ==> s.eperms[j] in ready
  }

  lemma ReadyNext(s: State, ready: seq<nat>, i: nat)
    requires 0 < i <= |s.eperms| && ReadyFrom(s, ready, i)
    ensures var fd := s.eperms[i - 1];
            ReadyFrom(s, ready + (if fd in s.anfds && AlwaysReady(s.anfds[fd]) then [fd] else []), i - 1)
  {
    assert ready + [] == ready;
  }

  lemma AllReady(s: State, ready: seq<nat>)
    requires Loose(s) && ReadyFrom(s, ready, 0)
    ensures forall fd :: fd in ready <==> fd in s.anfds && AlwaysReady(s.anfds[fd])
  {
    forall fd | fd in s.anfds && AlwaysReady(s.anfds[fd])
      ensures fd in ready
    {
      var j :| 0 <= j < |s.eperms| && s.eperms[j] == fd;
    }
  }

  /** A scan that began in s has come down to the i-th entry. */
  ghost predicate Scanned(s: State, t: State, i: nat) {
    && i <= |t.eperms| && i <= |s.eperms| && t.eperms[..i] == s.eperms[..i]
    && ScanIn(t, i) == ScanIn(s, |s.eperms|) && SameReady(s.anfds, t.anfds)
  }

  lemma ScanNext(s: State, t: State, i: nat)
    requires Scanned(s, t, i) && i > 0
    ensures var fd := s.eperms[i - 1];
            && t.eperms[i - 1] == fd && (AlwaysReady(Get(t, fd)) <==> fd in s.anfds && AlwaysReady(s.anfds[fd]))
            && Scanned(s, if AlwaysReady(Get(t, fd)) then t else DropIn(t, i - 1), i - 1)
  {
    assert t.eperms[i - 1] == t.eperms[..i][i - 1] && s.eperms[i - 1] == s.eperms[..i][i - 1];
    assert t.eperms[..i - 1] == t.eperms[..i][..i - 1] && s.eperms[..i - 1] == s.eperms[..i][..i - 1];
  }

  /** A poll that began in s has come to the i-th event and handed on these. */
  predicate Reaches(s: State, t: State, events: seq<Event>, faults: set<nat>, i: nat, fed: seq<Event>) {
    var (u, rest) := PollIn(t, events, faults, i);
    PollIn(s, events, faults, 0) == (u, fed + rest)
  }

  lemma PollStarts(s: State, events: seq<Event>, faults: set<nat>)
    ensures Reaches(s, s, events, faults, 0, [])
  {
    var rest := PollIn(s, events, faults, 0).1;
    assert [] + rest == rest;
  }

  lemma PollNext(s: State, t: State, events: seq<Event>, faults: set<nat>, i: nat, fed: seq<Event>)
    requires i < |events| && Reaches(s, t, events, faults, i, fed)
    ensures var (u, verdict) := HandleIn(t, events[i], i in faults);
            Reaches(s, u, events, faults, i + 1, if verdict == Dispatched then fed + [events[i]] else fed)
  {
    var (u, verdict) := HandleIn(t, events[i], i in faults);
    var rest := PollIn(u, events, faults, i + 1).1;
    assert fed + ([events[i]] + rest) == fed + [events[i]] + rest;
  }

  lemma {:induction false} PollLoose(s: State, events: seq<Event>, faults: set<nat>, i: nat)
    requires Loose(s)
    ensures Loose(PollIn(s, events, faults, i).0)
    decreases |events| - i
  {
    if i < |events| {
      HandleAlike(s, events[i], i in faults);
      PollLoose(HandleIn(s, events[i], i in faults).0, events, faults, i + 1);
    }
  }

  lemma DoLoose(l: Loop, command: Command)
    requires Loose(l.st)
    ensures Loose(DoIn(l, command).st)
  {
    var d := Due(l);
    match command
    case Want(fd, nev, force, fault, again) =>
      var a := Get(d.st, fd);
      ModifyLoose(SetAnfd(d.st, fd, a.(events := nev)), fd, a.events, nev, fault, again);
    case Wait(events, faults) =>
      PollLoose(d.st, events, faults, 0);
      var t := PollIn(d.st, events, faults, 0).0;
      ScanLoose(t, |t.eperms|);
    case _ =>
  }
}
