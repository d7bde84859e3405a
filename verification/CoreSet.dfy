/** The routing index: core ids to dense mailbox indices. */
module CoreSet {

  const MAX_CORES: nat := 256

  /** A set of core ids, as its bit table. */
  type CoreIds = s: seq<bool> | |s| == MAX_CORES witness seq(MAX_CORES, _ => false)

  /** How many members are below `n`. */
  function Rank(s: seq<bool>, n: nat): (r: nat)
    requires n <= |s|
    ensures r <= n
  {
    if n == 0 then 0 else Rank(s, n - 1) + if s[n - 1] then 1 else 0
  }

  lemma {:induction false} RankGrows(s: seq<bool>, a: nat, b: nat)
    requires a < b <= |s|
    ensures Rank(s, a) <= Rank(s, b) && (s[a] ==> Rank(s, a) < Rank(s, b))
    decreases b
  {
    if a < b - 1 {
      RankGrows(s, a, b - 1);
    }
  }

  /** Every number below the rank of `n` is the rank of a member below `n`. */
  lemma {:induction false} RankCovers(s: seq<bool>, n: nat, k: nat) returns (a: nat)
    requires n <= |s| && k < Rank(s, n)
    ensures a < n && s[a] && Rank(s, a) == k
  {
    if k < Rank(s, n - 1) {
      a := RankCovers(s, n - 1, k);
    } else {
      a := n - 1;
    }
  }

  /** The iterator's `advance`: the first member from `pos` on. */
  method Advance(s: CoreIds, pos: nat) returns (next: nat)
    requires pos <= MAX_CORES
    ensures pos <= next <= MAX_CORES && (next < MAX_CORES ==> s[next])
    ensures forall i :: pos <= i < next ==> !s[i]
    ensures Rank(s, next) == Rank(s, pos)
  {
    next := pos;
    while next < MAX_CORES && !s[next]
      invariant pos <= next <= MAX_CORES && Rank(s, next) == Rank(s, pos)
      invariant forall i :: pos <= i < next ==> !s[i]
    {
      next := next + 1;
    }
  }

  /** One past the largest member. */
  method Extent(s: CoreIds) returns (size: nat)
    ensures size <= MAX_CORES && (forall i :: size <= i < MAX_CORES ==> !s[i]) && (size > 0 ==> s[size - 1])
  {
    size := MAX_CORES;
    while size > 0 && !s[size - 1]
      invariant size <= MAX_CORES && forall i :: size <= i < MAX_CORES ==> !s[i]
    {
      size := size - 1;
    }
  }

  method Count(s: CoreIds) returns (n: nat)
    ensures n == Rank(s, |s|)
  {
    n := 0;
    for i := 0 to MAX_CORES
      invariant n == Rank(s, i)
    {
      if s[i] {
        n := n + 1;
      }
    }
  }

  /** Numbers the members in the order of the iterator, with an 8-bit counter. The counter
      wraps at most after the last member. */
  method Fill(s: CoreIds, table: array<nat>)
    requires table.Length == MAX_CORES && forall i :: 0 <= i < MAX_CORES ==> table[i] == 0
    modifies table
    ensures forall i :: 0 <= i < MAX_CORES ==> table[i] == if s[i] then Rank(s, i) else 0
  {
    var idx: nat := 0;
    var pos := Advance(s, 0);
    while pos < MAX_CORES
      invariant pos <= MAX_CORES && (pos < MAX_CORES ==> s[pos])
      invariant idx == Rank(s, pos) % 256 && FilledTo(s, table[..], pos)
    {
      ghost var before := table[..];
      table[pos] := idx;
      idx := (idx + 1) % 256;
      var next := Advance(s, pos + 1);
      FilledMore(s, before, table[..], pos, next);
      pos := next;
    }
  }

  /** The table holds the numbers of the members below `pos`. */
  predicate FilledTo(s: CoreIds, table: seq<nat>, pos: nat) {
    |table| == MAX_CORES && forall i :: 0 <= i < MAX_CORES ==> table[i] == if i < pos && s[i] then Rank(s, i) else 0
  }

  lemma FilledMore(s: CoreIds, before: seq<nat>, after: seq<nat>, pos: nat, next: nat)
    requires pos < next <= MAX_CORES && s[pos] && FilledTo(s, before, pos) && (forall i :: pos < i < next ==> !s[i])
    requires after == before[pos := Rank(s, pos) % 256]
    ensures FilledTo(s, after, next)
  {
  }

  /** Some member has number `k`. */
  predicate IsNumber(s: seq<bool>, t: seq<nat>, k: nat)
    requires |s| == |t|
  {
    exists a :: 0 <= a < |s| && s[a] && t[a] == k
  }

  /** The members, in order, have the numbers below `n`, each one; the others have 0. */
  predicate Bijection(s: seq<bool>, t: seq<nat>, n: nat)
    requires |s| == |t|
  {
    && (forall a :: 0 <= a < |s| ==> if s[a] then t[a] < n else t[a] == 0)
    && (forall a, b :: 0 <= a < b < |s| && s[a] && s[b] ==> t[a] < t[b])
    && (forall k :: 0 <= k < n ==> IsNumber(s, t, k))
  }

  lemma RanksNumberMembers(s: seq<bool>, t: seq<nat>)
    requires |s| == |t| && forall i :: 0 <= i < |s| ==> t[i] == if s[i] then Rank(s, i) else 0
    ensures Bijection(s, t, Rank(s, |s|))
  {
    forall a, b | 0 <= a < b < |s| && s[a] && s[b]
      ensures t[a] < t[b]
    {
      RankGrows(s, a, b);
    }
    forall a | 0 <= a < |s| && s[a]
      ensures t[a] < Rank(s, |s|)
    {
      RankGrows(s, a, |s|);
    }
    forall k | 0 <= k < Rank(s, |s|)
      ensures IsNumber(s, t, k)
    {
      var a := RankCovers(s, |s|, k);
      assert t[a] == k;
    }
  }

  class Index {
    const raw: CoreIds
    const nbCore: nat
    const size: nat
    const table: array<nat>

    /** The whole contract of the index: the members, in order, are numbered 0, 1, 2 and so
        on without a gap. */
    constructor (s: CoreIds)
      ensures raw == s && Valid() && fresh(table)
    {
      raw := s;
      var n := Count(s);
      var extent := Extent(s);
      nbCore, size := n, extent;
      var t := new nat[MAX_CORES](i => 0);
      Fill(s, t);
      table := t;
      RanksNumberMembers(s, t[..]);
    }

    ghost predicate Valid()
      reads table
    {
      && table.Length == MAX_CORES && Bijection(raw, table[..], nbCore)
      && size <= MAX_CORES && (forall a :: size <= a < MAX_CORES ==> !raw[a]) && (size > 0 ==> raw[size - 1])
    }

    /** Any id at all resolves to the index of a mailbox, and two members never to the same. */
    function Resolve(id: nat): (index: nat)
      requires Valid() && true in raw
      reads table
      ensures index < nbCore
      ensures id < MAX_CORES && raw[id] ==> forall b :: 0 <= b < MAX_CORES && raw[b] && b != id ==> table[b] != index
    {
      if id < MAX_CORES then table[id] else 0
    }
  }

  /** Members resolve to different mailboxes in their order, and every other id resolves to
      the first one. */
  lemma MembersResolveInOrder(index: Index, a: nat, b: nat)
    requires index.Valid() && true in index.raw
    ensures a < b < MAX_CORES && index.raw[a] && index.raw[b] ==> index.Resolve(a) < index.Resolve(b)
    ensures b >= MAX_CORES || !index.raw[b] ==> index.Resolve(b) == 0
  {
    assert b < MAX_CORES ==> index.table[..][b] == index.table[b];
    assert a < MAX_CORES ==> index.table[..][a] == index.table[a];
  }

  /** Every mailbox is some member's. */
  lemma EveryMailboxHasAMember(index: Index, k: nat) returns (a: nat)
    requires index.Valid() && true in index.raw && k < index.nbCore
    ensures a < MAX_CORES && index.raw[a] && index.Resolve(a) == k
  {
    assert IsNumber(index.raw, index.table[..], k);
    a :| 0 <= a < MAX_CORES && index.raw[a] && index.table[..][a] == k;
  }
}
