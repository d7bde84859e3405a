/** The pool of free service ids: a bitset with a scan cursor and a cached count, proved to be
    a set from which the least element is taken. */
module IdPool {
  import opened Words

  /** The broadcast id: one past the largest usable id, and what an empty pool returns. */
  const BROADCAST_SID: nat := 65535
  const WORDS: nat := 1024

  /** The ids of the bits of one word, the first of which stands for `base`. */
  function WordIds(w: nat, base: nat): set<nat>
    decreases w
  {
    if w == 0 then {} else (if w % 2 == 1 then {base} else {}) + WordIds(w / 2, base + 1)
  }

  /** The ids of the bits of the first `n` words. */
  function FreeUpTo(words: seq<Word>, n: nat): set<nat>
    requires n <= |words|
  {
    if n == 0 then {} else FreeUpTo(words, n - 1) + WordIds(words[n - 1], 64 * (n - 1))
  }

  function FreeIn(words: seq<Word>): set<nat> {
    FreeUpTo(words, |words|)
  }

  /** The ids from `lo` up to `hi`. */
  function Range(lo: nat, hi: nat): (s: set<nat>)
    ensures forall x :: x in s <==> lo <= x < hi
    ensures |s| == if lo <= hi then hi - lo else 0
    decreases hi - lo
  {
    if hi <= lo then {} else {lo} + Range(lo + 1, hi)
  }

  lemma RangeGrows(lo: nat, hi: nat)
    requires lo <= hi
    ensures Range(lo, hi + 1) == Range(lo, hi) + {hi}
  {
  }

  lemma RangeStep(lo: nat, hi: nat)
    ensures lo < hi ==> lo in Range(lo, hi) && Range(lo, hi) - {lo} == Range(lo + 1, hi)
    ensures lo >= hi ==> Range(lo, hi) == {} && Range(lo + 1, hi) == {}
  {
  }

  // ---------------------------------------------------------------- words and sets

  lemma {:induction false} WordMember(w: nat, base: nat, x: nat)
    ensures x in WordIds(w, base) <==> x >= base && Has(w, x - base)
    decreases w
  {
    if w == 0 {
      if x >= base {
        ZeroHasNone(x - base);
      }
    } else {
      WordMember(w / 2, base + 1, x);
    }
  }

  lemma {:induction false} WordHas(w: nat, n: nat, i: nat)
    requires w < Pow2(n) && Has(w, i)
    ensures i < n
    decreases n
  {
    if n == 0 {
      ZeroHasNone(i);
    } else if i > 0 {
      WordHas(w / 2, n - 1, i - 1);
    }
  }

  lemma {:induction false} Member(words: seq<Word>, n: nat, x: nat)
    requires n <= |words|
    ensures x in FreeUpTo(words, n) <==> x / 64 < n && Has(words[x / 64], x % 64)
    decreases n
  {
    if n > 0 {
      Member(words, n - 1, x);
      WordMember(words[n - 1], 64 * (n - 1), x);
      WordLimit();
      if x >= 64 * (n - 1) && Has(words[n - 1], x - 64 * (n - 1)) {
        WordHas(words[n - 1], 64, x - 64 * (n - 1));
      }
    }
  }

  /** Setting a bit adds its id. */
  lemma InsertBit(words: seq<Word>, sid: nat)
    requires sid / 64 < |words|
    ensures Or(words[sid / 64], Pow2(sid % 64)) < 0x1_0000_0000_0000_0000
    ensures FreeIn(words[sid / 64 := Or(words[sid / 64], Pow2(sid % 64))]) == FreeIn(words) + {sid}
  {
    var w, b := sid / 64, sid % 64;
    WordLimit();
    Pow2Grows(b, 64);
    OrBound(words[w], Pow2(b), 64);
    var more := words[w := Or(words[w], Pow2(b))];
    forall x: nat
      ensures x in FreeIn(more) <==> x in FreeIn(words) || x == sid
    {
      Member(words, |words|, x);
      Member(more, |more|, x);
      if x / 64 == w {
        SetBit(words[w], b, x % 64);
      }
    }
  }

  /** The first set bit of the first non-zero word is the least free id, and clearing it
      removes that id. */
  lemma RemoveLowest(words: seq<Word>, w: nat)
    requires w < |words| && words[w] != 0 && forall v :: 0 <= v < w ==> words[v] == 0
    ensures And(words[w], words[w] - 1) < 0x1_0000_0000_0000_0000
    ensures var sid := 64 * w + CountrZero(words[w]);
            var less := words[w := And(words[w], words[w] - 1)];
            && sid in FreeIn(words) && FreeIn(less) == FreeIn(words) - {sid}
            && forall x :: x in FreeIn(words) ==> sid <= x
  {
    var b := CountrZero(words[w]);
    var sid := 64 * w + b;
    WordLimit();
    CountBelow(words[w], 64);
    LowestIsIn(words[w]);
    AndBound(words[w], words[w] - 1);
    Member(words, |words|, sid);
    var less := words[w := And(words[w], words[w] - 1)];
    forall x: nat
      ensures x in FreeIn(less) <==> x in FreeIn(words) && x != sid
      ensures x in FreeIn(words) ==> sid <= x
    {
      Member(words, |words|, x);
      Member(less, |less|, x);
      if x / 64 == w {
        ClearLowest(words[w], x % 64);
      } else if x / 64 < w {
        ZeroHasNone(x % 64);
      }
    }
  }

  lemma {:induction false} ZeroesAreEmpty(words: seq<Word>, n: nat)
    requires n <= |words| && forall w :: 0 <= w < n ==> words[w] == 0
    ensures FreeUpTo(words, n) == {}
  {
    if n > 0 {
      ZeroesAreEmpty(words, n - 1);
    }
  }

  class ServiceIdPool {
    const bits: array<Word>
    var nextWord: nat
    var count: nat

    ghost predicate Valid()
      reads this, bits
    {
      && bits.Length == WORDS && nextWord < WORDS && BROADCAST_SID !in FreeIn(bits[..])
      && (forall w :: 0 <= w < nextWord ==> bits[w] == 0)
      && count == |FreeIn(bits[..])|
    }

    ghost function Free(): set<nat>
      requires Valid()
      reads this, bits
    {
      FreeIn(bits[..])
    }

    /** Reads the bit of one id. */
    method Test(sid: nat) returns (free: bool)
      requires bits.Length == WORDS && sid < BROADCAST_SID
      ensures free <==> sid in FreeIn(bits[..])
    {
      var w := sid / 64;
      TestBit(bits[w], sid % 64);
      Member(bits[..], WORDS, sid);
      return And(bits[w], Pow2(sid % 64)) != 0;
    }

    /** Sets the bit of one id. */
    method Mark(sid: nat)
      requires bits.Length == WORDS && sid < BROADCAST_SID
      modifies bits
      ensures FreeIn(bits[..]) == old(FreeIn(bits[..])) + {sid}
      ensures forall w :: 0 <= w < WORDS && w != sid / 64 ==> bits[w] == old(bits[w])
    {
      ghost var words := bits[..];
      InsertBit(words, sid);
      var w := sid / 64;
      bits[w] := Or(bits[w], Pow2(sid % 64));
      assert bits[..] == words[w := Or(words[w], Pow2(sid % 64))];
    }

    /** Clears the lowest bit of the first non-zero word. */
    method TakeFrom(w: nat) returns (sid: nat)
      requires bits.Length == WORDS && w < WORDS && bits[w] != 0
      requires forall v :: 0 <= v < w ==> bits[v] == 0
      modifies bits
      ensures FreeIn(bits[..]) == old(FreeIn(bits[..])) - {sid}
      ensures sid in old(FreeIn(bits[..])) && forall x :: x in old(FreeIn(bits[..])) ==> sid <= x
      ensures forall v :: 0 <= v < w ==> bits[v] == 0
    {
      ghost var words := bits[..];
      RemoveLowest(words, w);
      sid := 64 * w + CountrZero(bits[w]);
      bits[w] := And(bits[w], bits[w] - 1);
      assert bits[..] == words[w := And(words[w], words[w] - 1)];
    }

    /** The first non-zero word from the cursor on. */
    method Scan() returns (w: nat)
      requires bits.Length == WORDS && nextWord < WORDS && forall v :: 0 <= v < nextWord ==> bits[v] == 0
      ensures w <= WORDS && (w < WORDS ==> bits[w] != 0)
      ensures forall v :: 0 <= v < w ==> bits[v] == 0
    {
      w := nextWord;
      while w < WORDS && bits[w] == 0
        invariant w <= WORDS && forall v :: 0 <= v < w ==> bits[v] == 0
      {
        w := w + 1;
      }
    }

    /** A pool whose free ids are those from `minSid` on. */
    constructor (minSid: nat)
      requires minSid <= BROADCAST_SID
      ensures Valid() && fresh(bits) && Free() == Range(minSid, BROADCAST_SID)
    {
      bits := new Word[WORDS](i => 0);
      nextWord, count := 0, 0;
      new;
      ZeroesAreEmpty(bits[..], WORDS);
      var sid := minSid;
      while sid < BROADCAST_SID
        invariant minSid <= sid <= BROADCAST_SID && nextWord == 0 && count == sid - minSid
        invariant FreeIn(bits[..]) == Range(minSid, sid)
        invariant forall w :: 0 <= w < minSid / 64 ==> bits[w] == 0
      {
        Mark(sid);
        RangeGrows(minSid, sid);
        count := count + 1;
        sid := sid + 1;
      }
      nextWord := minSid / 64;
    }

    /** Takes the least free id, and fails exactly when there is none. */
    method Acquire() returns (sid: nat)
      requires Valid()
      modifies this, bits
      ensures Valid()
      ensures sid == BROADCAST_SID <==> old(Free()) == {}
      ensures old(Free()) != {} ==> sid in old(Free()) && forall x :: x in old(Free()) ==> sid <= x
      ensures Free() == old(Free()) - {sid}
    {
      sid := BROADCAST_SID;
      if count != 0 {
        var w := Scan();
        if w == WORDS {
          ZeroesAreEmpty(bits[..], WORDS);
        } else {
          sid := TakeFrom(w);
          nextWord := w;
          count := count - 1;
        }
      }
    }

    /** Gives an id back; one that is free already or no id at all changes nothing. */
    method Release(sid: nat)
      requires Valid()
      modifies this, bits
      ensures Valid() && Free() == if sid < BROADCAST_SID then old(Free()) + {sid} else old(Free())
    {
      if sid >= BROADCAST_SID {
        return;
      }
      var free := Test(sid);
      if !free {
        Mark(sid);
        count := count + 1;
        if sid / 64 < nextWord {
          nextWord := sid / 64;
        }
      }
    }

    method Empty() returns (r: bool)
      requires Valid()
      ensures r <==> Free() == {}
    {
      return count == 0;
    }

    /** `__generate_id__`: the least free id, or 0. */
    method Generate() returns (id: nat)
      requires Valid()
      modifies this, bits
      ensures Valid() && Draws(old(Free()), id, Free())
    {
      var none := Empty();
      if none {
        return 0;
      }
      id := Acquire();
    }
  }

  /** Drawing the least element of a set, or 0 from an empty one. */
  ghost predicate Draws(before: set<nat>, id: nat, after: set<nat>) {
    if before == {} then id == 0 && after == {}
    else id in before && (forall x :: x in before ==> id <= x) && after == before - {id}
  }

  lemma DrawFromRange(lo: nat, id: nat, after: set<nat>)
    requires Draws(Range(lo, BROADCAST_SID), id, after)
    ensures id == (if lo < BROADCAST_SID then lo else 0) && after == Range(lo + 1, BROADCAST_SID)
  {
    RangeStep(lo, BROADCAST_SID);
  }
}
