/** The poll backend's table: a compact array of poll entries and an index by descriptor. */
module PollTable {

  import opened IoEvents
  import opened Words

  datatype PollFd = PollFd(fd: nat, events: nat)

  const POLLIN := 1
  const POLLOUT := 4
  const POLLRDHUP := 0x2000

  function PollEvents(want: Interest): nat {
    (if want.read then POLLIN + POLLRDHUP else 0) + if want.write then POLLOUT else 0
  }

  /** The mask has POLLIN and POLLRDHUP exactly when reading is wanted and POLLOUT exactly when
      writing is, and no other bit. */
  lemma PollEventsBits(want: Interest, i: nat)
    ensures Has(PollEvents(want), i) <==> (i == 0 && want.read) || (i == 13 && want.read) || (i == 2 && want.write)
  {
    var read, write := if want.read then Or(POLLIN, POLLRDHUP) else 0, if want.write then POLLOUT else 0;
    assert Or(POLLIN, POLLRDHUP) == 0x2001 && Or(0x2001, POLLOUT) == 0x2005;
    assert PollEvents(want) == Or(read, write);
    OrHas(read, write, i);
    OrHas(POLLIN, POLLRDHUP, i);
    ZeroHasNone(i);
    assert Pow2(0) == POLLIN && Pow2(2) == POLLOUT && Pow2(13) == POLLRDHUP;
    Pow2Has(0, i);
    Pow2Has(2, i);
    Pow2Has(13, i);
  }

  /** What a map of wanted events holds for a descriptor. */
  function Wanted(table: map<nat, Interest>, fd: nat): Interest {
    if fd in table then table[fd] else NOTHING
  }

  function Update(table: map<nat, Interest>, fd: nat, want: Interest): map<nat, Interest> {
    if want == NOTHING then table - {fd} else table[fd := want]
  }

  class Table {
    var pollidxs: seq<int>       // the entry of each descriptor, or -1
    var polls: seq<PollFd>       // the entries; those from pollcnt on are unused
    var pollcnt: nat

    /** The index and the entries are inverse to each other, and the entries are the wanted
        events. */
    ghost predicate Represents(table: map<nat, Interest>)
      reads this
    {
      && pollcnt <= |polls|
      && (forall i :: 0 <= i < pollcnt ==> polls[i].fd < |pollidxs| && pollidxs[polls[i].fd] == i)
      && (forall fd :: 0 <= fd < |pollidxs| && pollidxs[fd] >= 0 ==> pollidxs[fd] < pollcnt && polls[pollidxs[fd]].fd == fd)
      && (forall fd :: fd in table ==> fd < |pollidxs| && pollidxs[fd] >= 0 && table[fd] != NOTHING)
      && (forall i :: 0 <= i < pollcnt ==> polls[i].fd in table && polls[i].events == PollEvents(table[polls[i].fd]))
    }

    constructor ()
      ensures Represents(map[])
    {
      pollidxs, polls, pollcnt := [], [], 0;
    }

    /** Makes room in the index for a descriptor. */
    method GrowIndex(fd: nat, ghost table: map<nat, Interest>)
      requires Represents(table)
      modifies this`pollidxs
      ensures Represents(table) && fd < |pollidxs|
    {
      if |pollidxs| <= fd {
        pollidxs := pollidxs + seq(fd + 1 - |pollidxs|, _ => -1);
      }
    }

    /** Like `Represents`, except that `fd` has an entry whose events may be anything. */
    ghost predicate Slotted(table: map<nat, Interest>, fd: nat)
      reads this
    {
      && pollcnt <= |polls| && fd < |pollidxs| && pollidxs[fd] >= 0
      && (forall i :: 0 <= i < pollcnt ==> polls[i].fd < |pollidxs| && pollidxs[polls[i].fd] == i)
      && (forall x :: 0 <= x < |pollidxs| && pollidxs[x] >= 0 ==> pollidxs[x] < pollcnt && polls[pollidxs[x]].fd == x)
      && (forall x :: x in table ==> x < |pollidxs| && pollidxs[x] >= 0 && table[x] != NOTHING)
      && (forall i :: 0 <= i < pollcnt && polls[i].fd != fd ==> polls[i].fd in table && polls[i].events == PollEvents(table[polls[i].fd]))
    }

    /** Gives a descriptor an entry, a new one at the end if it has none. */
    method Allocate(fd: nat, ghost table: map<nat, Interest>)
      requires Represents(table) && fd < |pollidxs|
      modifies this
      ensures Slotted(table, fd)
    {
      if pollidxs[fd] < 0 {
        pollidxs := pollidxs[fd := pollcnt];
        pollcnt := pollcnt + 1;
        if |polls| < pollcnt {
          polls := polls + [PollFd(0, 0)];
        }
        polls := polls[pollcnt - 1 := polls[pollcnt - 1].(fd := fd)];
      }
    }

    method SetEvents(fd: nat, want: Interest, ghost table: map<nat, Interest>)
      requires Slotted(table, fd) && want != NOTHING
      modifies this`polls
      ensures Represents(table[fd := want])
    {
      var idx := pollidxs[fd];
      polls := polls[idx := polls[idx].(events := PollEvents(want))];
    }

    /** Removes the entry of a descriptor by moving the last entry into its place. */
    method Remove(fd: nat, ghost table: map<nat, Interest>)
      requires Slotted(table, fd)
      modifies this
      ensures Represents(table - {fd})
    {
      var idx := pollidxs[fd];
      pollidxs := pollidxs[fd := -1];
      pollcnt := pollcnt - 1;
      if idx < pollcnt {
        polls := polls[idx := polls[pollcnt]];
        pollidxs := pollidxs[polls[idx].fd := idx];
      }
    }

    /** Afterwards the table holds the new events, exactly unless the caller claimed that
        nothing changes when the table says otherwise. */
    method Modify(fd: nat, oev: Interest, nev: Interest, ghost table: map<nat, Interest>) returns (ghost after: map<nat, Interest>)
      requires Represents(table)
      modifies this
      ensures Represents(after)
      ensures forall other :: other != fd ==> Wanted(after, other) == Wanted(table, other)
      ensures Wanted(after, fd) == nev <==> oev != nev || Wanted(table, fd) == nev
      ensures after == if oev != nev then Update(table, fd, nev) else table
    {
      after := table;
      if oev == nev {
        return;
      }
      after := Update(table, fd, nev);
      GrowIndex(fd, table);
      Allocate(fd, table);
      if nev != NOTHING {
        SetEvents(fd, nev, table);
      } else {
        Remove(fd, table);
      }
    }

    /** Any run of calls with truthful old events, on an empty table. */
    method Run(calls: seq<(nat, Interest)>) returns (ghost table: map<nat, Interest>)
      requires Represents(map[])
      modifies this
      ensures Represents(table)
      ensures forall fd :: Wanted(table, fd) == Last(calls, fd)
    {
      table := map[];
      var known: map<nat, Interest> := map[];
      var i := 0;
      while i < |calls|
        invariant 0 <= i <= |calls| && Represents(table) && table == known
        invariant forall fd :: Wanted(table, fd) == Last(calls[..i], fd)
      {
        var (fd, nev) := calls[i];
        var oev := Wanted(known, fd);
        ghost var before := table;
        table := Modify(fd, oev, nev, table);
        known := if oev == nev then known else Update(known, fd, nev);
        assert calls[..i + 1][..i] == calls[..i];
        i := i + 1;
      }
      assert calls[..i] == calls;
    }
  }

  /** The events the last call asked for a descriptor. */
  function Last(calls: seq<(nat, Interest)>, fd: nat): Interest {
    if calls == [] then NOTHING
    else if calls[|calls| - 1].0 == fd then calls[|calls| - 1].1 else Last(calls[..|calls| - 1], fd)
  }
}
