/** The epoll backend: generations that tell a registration of the present file of a
    descriptor from one that outlived its descriptor, and a cache of kernel masks. */
module Epoll {
  import opened IoEvents

  // ---------------------------------------------------------------- the kernel

  /** The user data of a registration holds a generation. */
  datatype Registration = Registration(gen: nat, mask: Interest)

  /** Open descriptors and their files, and the registrations, which the kernel keeps per
      descriptor number and file. Some files cannot be polled at all. */
  datatype Kernel = Kernel(open: map<nat, nat>, regs: map<(nat, nat), Registration>, unpollable: set<nat>)

  datatype Op = ADD | MOD | DEL

  datatype Errno = OK | ENOENT | EEXIST | EPERM | EBADF | ENOMEM

  /** `epoll_ctl`. A call that would succeed may fail for want of resources. */
  function Ctl(k: Kernel, op: Op, fd: nat, r: Registration, fault: bool): (Kernel, Errno) {
    if fd !in k.open then (k, EBADF)
    else if k.open[fd] in k.unpollable then (k, EPERM)
    else
      var key := (fd, k.open[fd]);
      if op == ADD && key in k.regs then (k, EEXIST)
      else if op != ADD && key !in k.regs then (k, ENOENT)
      else if fault then (k, ENOMEM)
      else if op == DEL then (k.(regs := k.regs - {key}), OK)
      else (k.(regs := k.regs[key := r]), OK)
  }

  /** The registrations of a file that nobody holds any more disappear silently. */
  function Forget(k: Kernel, file: nat): Kernel {
    k.(regs := map key | key in k.regs && key.1 != file :: k.regs[key])
  }

  /** `elsewhere` says that another process holds the file. */
  function CloseIn(k: Kernel, fd: nat, elsewhere: bool): Kernel
    requires fd in k.open
  {
    var file := k.open[fd];
    var k' := k.(open := k.open - {fd});
    if elsewhere || file in k'.open.Values then k' else Forget(k', file)
  }

  /** No other descriptor has the file of this one. */
  predicate LastOne(k: Kernel, fd: nat)
    requires fd in k.open
  {
    forall other :: other in k.open && other != fd ==> k.open[other] != k.open[fd]
  }

  /** Closing the last descriptor of a file nobody else holds drops the file's registrations
      and no others; any other close keeps all of them. */
  lemma ClosedFilesAreForgotten(k: Kernel, fd: nat, elsewhere: bool)
    requires fd in k.open
    ensures var r := CloseIn(k, fd, elsewhere);
            && r.open == k.open - {fd} && r.unpollable == k.unpollable
            && (forall key :: key in r.regs <==> key in k.regs && !(!elsewhere && LastOne(k, fd) && key.1 == k.open[fd]))
            && (forall key :: key in r.regs ==> r.regs[key] == k.regs[key])
  {
    var open := k.open - {fd};
    if LastOne(k, fd) {
      assert k.open[fd] !in open.Values;
    } else {
      var other :| other in k.open && other != fd && k.open[other] == k.open[fd];
      assert other in open && open[other] == k.open[fd];
    }
  }

  // ---------------------------------------------------------------- the loop's record

  /** The cached kernel mask, or the mark of a file that epoll refuses. */
  datatype Cache = Known(mask: Interest) | Refused

  datatype Anfd = Anfd(emask: Cache, egen: nat, events: Interest)

  const BLANK := Anfd(Known(NOTHING), 0, NOTHING)

  const GENERATIONS: nat := 0x1_0000_0000

  /** `synced` is history: descriptors whose file has not changed since their last
      successful modification. */
  datatype State = State(kernel: Kernel, anfds: map<nat, Anfd>, eperms: seq<nat>, synced: set<nat>)

  function Get(s: State, fd: nat): Anfd {
    if fd in s.anfds then s.anfds[fd] else BLANK
  }

  predicate CurrentIn(k: Kernel, fd: nat) {
    fd in k.open && (fd, k.open[fd]) in k.regs
  }

  /** No registration of another file carries the generation of the descriptor. */
  predicate NoGhost(k: Kernel, fd: nat, egen: nat) {
    forall key :: key in k.regs && key.0 == fd && k.regs[key].gen == egen ==> fd in k.open && key.1 == k.open[fd]
  }

  /** At most one registration of a descriptor carries its generation, and the one of its
      present file does and has the cached mask, if a mask is cached. */
  predicate FdOk(k: Kernel, a: Anfd, fd: nat) {
    && (forall key :: key in k.regs && key.0 == fd ==> k.regs[key].gen <= a.egen)
    && (forall x, y :: x in k.regs && y in k.regs && x.0 == y.0 == fd && k.regs[x].gen == k.regs[y].gen == a.egen ==> x == y)
    && (CurrentIn(k, fd) ==>
          var r := k.regs[(fd, k.open[fd])];
          r.gen == a.egen && (a.emask == Known(NOTHING) || a.emask == Known(r.mask)))
  }

  /** What holds even when the cache is wrong and the kernel state is due to be recreated. */
  predicate Loose(s: State) {
    && (forall key :: key in s.kernel.regs ==> key.1 !in s.kernel.unpollable)
    && (forall fd :: fd in s.anfds && s.anfds[fd].emask == Refused ==> fd in s.eperms)
  }

  ghost predicate Inv(s: State) {
    && Loose(s)
    && (forall fd: nat :: FdOk(s.kernel, Get(s, fd), fd))
    && (forall fd :: fd in s.synced ==> NoGhost(s.kernel, fd, Get(s, fd).egen))
  }

  /** The generation part alone: none is ahead of the descriptor's, and while the present
      file is registered no other registration has the descriptor's. */
  predicate GenOk(k: Kernel, egen: nat, fd: nat) {
    && (forall key :: key in k.regs && key.0 == fd ==> k.regs[key].gen <= egen)
    && (CurrentIn(k, fd) ==> NoGhost(k, fd, egen))
  }

  /** Whatever happened to the masks, generations tell the present file from ghosts. */
  ghost predicate Safe(s: State) {
    && (forall fd: nat :: GenOk(s.kernel, Get(s, fd).egen, fd))
    && (forall fd :: fd in s.synced ==> NoGhost(s.kernel, fd, Get(s, fd).egen))
  }

  lemma RightIsSafe(s: State)
    requires Inv(s)
    ensures Safe(s)
  {
    forall fd: nat
      ensures GenOk(s.kernel, Get(s, fd).egen, fd)
    {
      assert FdOk(s.kernel, Get(s, fd), fd);
    }
  }

  function SetAnfd(s: State, fd: nat, a: Anfd): State {
    s.(anfds := s.anfds[fd := a])
  }

  // ---------------------------------------------------------------- modification

  // The four ways it can end.

  /** The present file is registered with the next generation. */
  function InstalledIn(s: State, fd: nat, nev: Interest): State
    requires fd in s.kernel.open
  {
    var a := Get(s, fd);
    SetAnfd(s, fd, Anfd(Known(nev), a.egen + 1, a.events)).(
      kernel := s.kernel.(regs := s.kernel.regs[(fd, s.kernel.open[fd]) := Registration(a.egen + 1, nev)]),
      synced := s.synced + {fd})
  }

  /** Epoll refuses the file. */
  function RefusedIn(s: State, fd: nat): State {
    var a := Get(s, fd);
    SetAnfd(s, fd, Anfd(Refused, a.egen + 1, a.events)).(
      eperms := if a.emask == Refused then s.eperms else s.eperms + [fd], synced := s.synced + {fd})
  }

  /** The registration is there already and has the mask. */
  function KeptIn(s: State, fd: nat, nev: Interest): State {
    SetAnfd(s, fd, Get(s, fd).(emask := Known(nev))).(synced := s.synced + {fd})
  }

  function GaveUpIn(s: State, fd: nat, nev: Interest): State {
    SetAnfd(s, fd, Get(s, fd).(emask := Known(nev)))
  }

  /** What `epoll_modify` does after its first call, which left the kernel in state `k` with
      result `e`. */
  function AfterCtl(s: State, fd: nat, nev: Interest, k: Kernel, e: Errno, again: bool): (State, bool) {
    var a := Get(s, fd);
    var r := Registration(a.egen + 1, nev);
    var recorded := SetAnfd(s, fd, Anfd(Known(nev), a.egen + 1, a.events)).(synced := s.synced + {fd});
    match e
    case OK => (recorded.(kernel := k), false)
    case ENOENT =>
      var (k', e') := Ctl(s.kernel, ADD, fd, r, again);
      if e' == OK then (recorded.(kernel := k'), false) else (GaveUpIn(s, fd, nev), true)
    case EEXIST =>
      if a.emask == Known(nev) then (KeptIn(s, fd, nev), false) else
      var (k', e') := Ctl(s.kernel, MOD, fd, r, again);
      if e' == OK then (recorded.(kernel := k'), false) else (GaveUpIn(s, fd, nev), true)
    case EPERM => (RefusedIn(s, fd), false)
    case _ => (GaveUpIn(s, fd, nev), true)
  }

  /** `epoll_modify`; true when it gave up on the descriptor. */
  function ModifyIn(s: State, fd: nat, oev: Interest, nev: Interest, fault: bool, again: bool): (State, bool) {
    if nev == NOTHING then (s, false) else
    var a := Get(s, fd);
    var op := if oev != NOTHING && a.emask != Known(nev) then MOD else ADD;
    var (k, e) := Ctl(s.kernel, op, fd, Registration(a.egen + 1, nev), fault);
    AfterCtl(s, fd, nev, k, e, again)
  }

  lemma ModifyCases(s: State, fd: nat, oev: Interest, nev: Interest, fault: bool, again: bool)
    requires nev != NOTHING
    ensures var (t, gaveUp) := ModifyIn(s, fd, oev, nev, fault, again);
            var pollable := fd in s.kernel.open && s.kernel.open[fd] !in s.kernel.unpollable;
            if gaveUp then t == GaveUpIn(s, fd, nev)
            else if pollable then
              || t == InstalledIn(s, fd, nev)
              || (t == KeptIn(s, fd, nev) && CurrentIn(s.kernel, fd) && Get(s, fd).emask == Known(nev))
            else fd in s.kernel.open && t == RefusedIn(s, fd)
  {
  }

  /** The kernel refuses the call that decides: the second when the first found the file
      registered or not against expectation, unless that shows nothing has to change. */
  predicate Denied(s: State, fd: nat, oev: Interest, nev: Interest, fault: bool, again: bool) {
    var expected := oev != NOTHING && Get(s, fd).emask != Known(nev);
    if expected == CurrentIn(s.kernel, fd) then fault
    else again && (expected || Get(s, fd).emask != Known(nev))
  }

  /** A modification gives up exactly when the descriptor is closed or the kernel denies it;
      never on a file that epoll refuses. */
  lemma ModifyGivesUpIff(s: State, fd: nat, oev: Interest, nev: Interest, fault: bool, again: bool)
    ensures ModifyIn(s, fd, oev, nev, fault, again).1 <==>
            && nev != NOTHING
            && (fd !in s.kernel.open || (s.kernel.open[fd] !in s.kernel.unpollable && Denied(s, fd, oev, nev, fault, again)))
  {
  }

  /** A new registration of the present file with the next generation. */
  lemma InstallKeeps(k: Kernel, a: Anfd, fd: nat, nev: Interest)
    requires FdOk(k, a, fd) && fd in k.open
    ensures var k' := k.(regs := k.regs[(fd, k.open[fd]) := Registration(a.egen + 1, nev)]);
            FdOk(k', Anfd(Known(nev), a.egen + 1, a.events), fd) && NoGhost(k', fd, a.egen + 1)
  {
  }

  /** The record of another descriptor does not depend on it. */
  lemma OthersUnaffected(k: Kernel, k': Kernel, a: Anfd, fd: nat, other: nat)
    requires other != fd && k'.open == k.open
    requires forall key :: key in k'.regs && key.0 != fd ==> key in k.regs && k'.regs[key] == k.regs[key]
    requires forall key :: key in k.regs && key.0 != fd ==> key in k'.regs
    ensures FdOk(k, a, other) ==> FdOk(k', a, other)
    ensures NoGhost(k, other, a.egen) ==> NoGhost(k', other, a.egen)
  {
  }

  /** Changing one descriptor: its own record and registrations decide. */
  lemma OneFd(s: State, t: State, fd: nat)
    requires Inv(s) && Loose(t) && t.kernel.open == s.kernel.open
    requires forall other :: other != fd ==> Get(t, other) == Get(s, other)
    requires forall key :: key in t.kernel.regs && key.0 != fd ==> key in s.kernel.regs && t.kernel.regs[key] == s.kernel.regs[key]
    requires forall key :: key in s.kernel.regs && key.0 != fd ==> key in t.kernel.regs
    requires s.synced <= t.synced <= s.synced + {fd} && (fd in t.synced ==> NoGhost(t.kernel, fd, Get(t, fd).egen))
    ensures Inv(t) <==> FdOk(t.kernel, Get(t, fd), fd)
  {
    forall other: nat | other != fd
      ensures FdOk(t.kernel, Get(t, other), other)
      ensures other in t.synced ==> NoGhost(t.kernel, other, Get(t, other).egen)
    {
      assert FdOk(s.kernel, Get(s, other), other);
      OthersUnaffected(s.kernel, t.kernel, Get(s, other), fd, other);
    }
  }

  /** What a modification is for: no ghost of the descriptor has its generation, and the
      present file is registered for the wanted events, or marked as always ready. */
  predicate Armed(t: State, fd: nat, nev: Interest) {
    && NoGhost(t.kernel, fd, Get(t, fd).egen) && fd in t.kernel.open
    && if t.kernel.open[fd] in t.kernel.unpollable then Get(t, fd).emask == Refused && fd in t.eperms
       else CurrentIn(t.kernel, fd) && t.kernel.regs[(fd, t.kernel.open[fd])] == Registration(Get(t, fd).egen, nev)
  }

  lemma InstalledLoose(s: State, fd: nat, nev: Interest)
    requires Loose(s) && fd in s.kernel.open && s.kernel.open[fd] !in s.kernel.unpollable
    ensures Loose(InstalledIn(s, fd, nev))
  {
  }

  lemma InstalledKeeps(s: State, fd: nat, nev: Interest)
    requires Inv(s) && fd in s.kernel.open && s.kernel.open[fd] !in s.kernel.unpollable
    ensures Inv(InstalledIn(s, fd, nev))
  {
    assert FdOk(s.kernel, Get(s, fd), fd);
    InstallKeeps(s.kernel, Get(s, fd), fd, nev);
    InstalledLoose(s, fd, nev);
    OneFd(s, InstalledIn(s, fd, nev), fd);
  }

  lemma InstalledArms(s: State, fd: nat, nev: Interest)
    requires Inv(s) && fd in s.kernel.open && s.kernel.open[fd] !in s.kernel.unpollable
    ensures Armed(InstalledIn(s, fd, nev), fd, nev)
  {
    assert FdOk(s.kernel, Get(s, fd), fd);
    InstallKeeps(s.kernel, Get(s, fd), fd, nev);
  }

  lemma KeptArms(s: State, fd: nat, nev: Interest)
    requires Inv(s) && nev != NOTHING && CurrentIn(s.kernel, fd) && Get(s, fd).emask == Known(nev)
    ensures Inv(KeptIn(s, fd, nev)) && Armed(KeptIn(s, fd, nev), fd, nev)
  {
    assert FdOk(s.kernel, Get(s, fd), fd);
    OneFd(s, KeptIn(s, fd, nev), fd);
  }

  lemma RefusedArms(s: State, fd: nat, nev: Interest)
    requires Inv(s) && fd in s.kernel.open && s.kernel.open[fd] in s.kernel.unpollable
    ensures Inv(RefusedIn(s, fd)) && Armed(RefusedIn(s, fd), fd, nev)
  {
    assert FdOk(s.kernel, Get(s, fd), fd);
    var t := RefusedIn(s, fd);
    assert !CurrentIn(s.kernel, fd);
    OneFd(s, t, fd);
  }

  /** Giving up on a file that stays registered with another mask than the one just cached
      is the one way to break the invariant. */
  lemma GaveUpKeepsIff(s: State, fd: nat, nev: Interest)
    requires Inv(s) && nev != NOTHING
    ensures Loose(GaveUpIn(s, fd, nev))
    ensures Inv(GaveUpIn(s, fd, nev))
            <==> !(CurrentIn(s.kernel, fd) && s.kernel.regs[(fd, s.kernel.open[fd])].mask != nev)
  {
    assert FdOk(s.kernel, Get(s, fd), fd);
    OneFd(s, GaveUpIn(s, fd, nev), fd);
  }

  /** Every outcome of a modification but giving up arms the descriptor; the invariant
      survives all of them with one exact exception. */
  lemma ModifyArms(s: State, fd: nat, oev: Interest, nev: Interest, fault: bool, again: bool)
    requires Inv(s)
    ensures var (t, gaveUp) := ModifyIn(s, fd, oev, nev, fault, again);
            && Loose(t) && t.kernel.open == s.kernel.open && (gaveUp || nev == NOTHING || Armed(t, fd, nev))
            && (Inv(t) <==> !(gaveUp && CurrentIn(s.kernel, fd) && s.kernel.regs[(fd, s.kernel.open[fd])].mask != nev))
  {
    if nev != NOTHING {
      ModifyCases(s, fd, oev, nev, fault, again);
      var (t, gaveUp) := ModifyIn(s, fd, oev, nev, fault, again);
      if gaveUp {
        GaveUpKeepsIff(s, fd, nev);
      } else if fd in s.kernel.open && s.kernel.open[fd] in s.kernel.unpollable {
        RefusedArms(s, fd, nev);
      } else if t == InstalledIn(s, fd, nev) {
        InstalledKeeps(s, fd, nev);
        InstalledArms(s, fd, nev);
      } else {
        KeptArms(s, fd, nev);
      }
    }
  }

  // ---------------------------------------------------------------- generations survive

  /** Changing one descriptor: its own generation and registrations decide. */
  lemma OneFdSafe(s: State, t: State, fd: nat)
    requires Safe(s) && t.kernel.open == s.kernel.open && GenOk(t.kernel, Get(t, fd).egen, fd)
    requires forall other :: other != fd ==> Get(t, other).egen == Get(s, other).egen
    requires forall key :: key in t.kernel.regs && key.0 != fd ==> key in s.kernel.regs && t.kernel.regs[key] == s.kernel.regs[key]
    requires t.synced <= s.synced + {fd} && (fd in t.synced ==> NoGhost(t.kernel, fd, Get(t, fd).egen))
    ensures Safe(t)
  {
    forall other: nat | other != fd
      ensures GenOk(t.kernel, Get(t, other).egen, other)
      ensures other in t.synced ==> NoGhost(t.kernel, other, Get(t, other).egen)
    {
      assert GenOk(s.kernel, Get(s, other).egen, other);
    }
  }

  lemma InstallSafe(k: Kernel, egen: nat, fd: nat, nev: Interest)
    requires GenOk(k, egen, fd) && fd in k.open
    ensures var k' := k.(regs := k.regs[(fd, k.open[fd]) := Registration(egen + 1, nev)]);
            GenOk(k', egen + 1, fd) && NoGhost(k', fd, egen + 1)
  {
  }

  lemma InstalledSafe(s: State, fd: nat, nev: Interest)
    requires Safe(s) && fd in s.kernel.open
    ensures Safe(InstalledIn(s, fd, nev))
  {
    assert GenOk(s.kernel, Get(s, fd).egen, fd);
    InstallSafe(s.kernel, Get(s, fd).egen, fd, nev);
    OneFdSafe(s, InstalledIn(s, fd, nev), fd);
  }

  lemma RefusedSafe(s: State, fd: nat)
    requires Safe(s)
    ensures Safe(RefusedIn(s, fd))
  {
    assert GenOk(s.kernel, Get(s, fd).egen, fd);
    OneFdSafe(s, RefusedIn(s, fd), fd);
  }

  /** Every way a modification can end keeps the generations right, giving up included. */
  lemma ModifySafe(s: State, fd: nat, oev: Interest, nev: Interest, fault: bool, again: bool)
    requires Safe(s)
    ensures Safe(ModifyIn(s, fd, oev, nev, fault, again).0) && ModifyIn(s, fd, oev, nev, fault, again).0.kernel.open == s.kernel.open
  {
    if nev != NOTHING {
      ModifyCases(s, fd, oev, nev, fault, again);
      var (t, gaveUp) := ModifyIn(s, fd, oev, nev, fault, again);
      assert GenOk(s.kernel, Get(s, fd).egen, fd);
      if t == GaveUpIn(s, fd, nev) || t == KeptIn(s, fd, nev) {
        OneFdSafe(s, t, fd);
      } else if fd in s.kernel.open && s.kernel.open[fd] in s.kernel.unpollable {
        RefusedSafe(s, fd);
      } else {
        InstalledSafe(s, fd, nev);
      }
    }
  }

  // ---------------------------------------------------------------- descriptors and files

  /** A descriptor gets a file. */
  function OpenIn(s: State, fd: nat, file: nat): State {
    s.(kernel := s.kernel.(open := s.kernel.open[fd := file]), synced := s.synced - {fd})
  }

  /** The descriptor is not registered for the file any more, or the way the record says. */
  predicate Matching(s: State, fd: nat, file: nat) {
    (fd, file) in s.kernel.regs ==>
      var r := s.kernel.regs[(fd, file)];
      r.gen == Get(s, fd).egen && (Get(s, fd).emask == Known(NOTHING) || Get(s, fd).emask == Known(r.mask))
  }

  /** The record of a closed descriptor stays right when it gets a file exactly when the two
      match. */
  lemma OpenKeepsIff(s: State, fd: nat, file: nat)
    requires Inv(s) && fd !in s.kernel.open
    ensures Loose(OpenIn(s, fd, file))
    ensures Inv(OpenIn(s, fd, file)) <==> Matching(s, fd, file)
  {
    var t := OpenIn(s, fd, file);
    OpenOwn(s, fd, file);
    forall other: nat | other != fd
      ensures FdOk(t.kernel, Get(t, other), other)
      ensures other in t.synced ==> NoGhost(t.kernel, other, Get(t, other).egen)
    {
      OpenOther(s.kernel, Get(s, other), fd, file, other);
    }
    assert Inv(t) <==> FdOk(t.kernel, Get(t, fd), fd);
  }

  lemma OpenOwn(s: State, fd: nat, file: nat)
    requires FdOk(s.kernel, Get(s, fd), fd) && fd !in s.kernel.open
    ensures FdOk(OpenIn(s, fd, file).kernel, Get(s, fd), fd) <==> Matching(s, fd, file)
  {
  }

  lemma OpenOther(k: Kernel, a: Anfd, fd: nat, file: nat, other: nat)
    requires FdOk(k, a, other) && other != fd
    ensures FdOk(k.(open := k.open[fd := file]), a, other)
    ensures NoGhost(k, other, a.egen) ==> NoGhost(k.(open := k.open[fd := file]), other, a.egen)
  {
  }

  /** Getting this file makes no ghost of a registration: the descriptor is not registered
      for the file any more, or no other registration has its generation. */
  predicate Harmless(s: State, fd: nat, file: nat) {
    (fd, file) in s.kernel.regs ==>
      forall key :: key in s.kernel.regs && key.0 == fd && s.kernel.regs[key].gen == Get(s, fd).egen ==> key.1 == file
  }

  lemma OpenSafe(s: State, fd: nat, file: nat)
    requires Safe(s) && Harmless(s, fd, file)
    ensures Safe(OpenIn(s, fd, file))
  {
    var t := OpenIn(s, fd, file);
    forall other: nat
      ensures GenOk(t.kernel, Get(t, other).egen, other)
      ensures other in t.synced ==> NoGhost(t.kernel, other, Get(t, other).egen)
    {
      assert GenOk(s.kernel, Get(s, other).egen, other);
    }
  }

  lemma LossSafe(s: State, t: State)
    requires Safe(s) && t.anfds == s.anfds
    requires forall key :: key in t.kernel.regs ==> key in s.kernel.regs && t.kernel.regs[key] == s.kernel.regs[key]
    requires forall fd :: fd in t.kernel.open ==> fd in s.kernel.open && t.kernel.open[fd] == s.kernel.open[fd]
    requires forall fd :: fd in t.synced ==> fd in s.synced && (fd in s.kernel.open ==> fd in t.kernel.open)
    ensures Safe(t)
  {
    forall fd: nat
      ensures GenOk(t.kernel, Get(t, fd).egen, fd)
      ensures fd in t.synced ==> NoGhost(t.kernel, fd, Get(t, fd).egen)
    {
      assert GenOk(s.kernel, Get(s, fd).egen, fd);
    }
  }

  /** Losing registrations and descriptors does no harm. */
  lemma LossKeeps(s: State, t: State)
    requires Inv(s) && t.anfds == s.anfds && t.eperms == s.eperms && t.kernel.unpollable == s.kernel.unpollable
    requires forall key :: key in t.kernel.regs ==> key in s.kernel.regs && t.kernel.regs[key] == s.kernel.regs[key]
    requires forall fd :: fd in t.kernel.open ==> fd in s.kernel.open && t.kernel.open[fd] == s.kernel.open[fd]
    requires forall fd :: fd in t.synced ==> fd in s.synced && (fd in s.kernel.open ==> fd in t.kernel.open)
    ensures Inv(t)
  {
    forall fd: nat
      ensures FdOk(t.kernel, Get(t, fd), fd)
      ensures fd in t.synced ==> NoGhost(t.kernel, fd, Get(t, fd).egen)
    {
      assert FdOk(s.kernel, Get(s, fd), fd);
    }
  }

  const READ := Interest(true, false)
  const WRITE := Interest(false, true)

  /** Descriptor 0, registered for reading with generation 1, and its record. */
  function Registered(open: map<nat, nat>, egen: nat): State {
    State(Kernel(open, map[(0, 1) := Registration(1, READ)], {}), map[0 := Anfd(Known(READ), egen, READ)], [], {})
  }

  /** The exception is real: the kernel may refuse to change the mask of a registration. */
  lemma GivingUpCanBreak()
    ensures var s := Registered(map[0 := 1], 1);
            Inv(s) && ModifyIn(s, 0, READ, WRITE, true, false) == (GaveUpIn(s, 0, WRITE), true) && !Inv(GaveUpIn(s, 0, WRITE))
  {
    var s := Registered(map[0 := 1], 1);
    RegisteredInv();
    GaveUpKeepsIff(s, 0, WRITE);
    assert Get(s, 0).emask == Known(READ);
    assert Ctl(s.kernel, MOD, 0, Registration(2, WRITE), true) == (s.kernel, ENOMEM);
  }

  lemma RegisteredInv()
    ensures Inv(Registered(map[0 := 1], 1))
  {
    var s := Registered(map[0 := 1], 1);
    forall fd: nat
      ensures FdOk(s.kernel, Get(s, fd), fd)
    {
    }
  }
}
