/** Unsigned 64-bit words and their bitwise operations, as numbers; a word is also the set
    of its bit positions. */
module Words {

  function Pow2(n: nat): (p: nat)
    ensures p >= 1
  {
    if n == 0 then 1 else 2 * Pow2(n - 1)
  }

  type Word = w: nat | w < 0x1_0000_0000_0000_0000

  lemma WordLimit()
    ensures Pow2(64) == 0x1_0000_0000_0000_0000
  {
    assert Pow2(4) == 0x10;
    Pow2Sum(4, 4);
    Pow2Sum(8, 8);
    Pow2Sum(16, 16);
    Pow2Sum(32, 32);
  }

  lemma {:induction false} Pow2Sum(m: nat, n: nat)
    ensures Pow2(m + n) == Pow2(m) * Pow2(n)
    decreases n
  {
    if n > 0 {
      Pow2Sum(m, n - 1);
    }
  }

  function And(v: nat, w: nat): nat {
    if v == 0 || w == 0 then 0 else 2 * And(v / 2, w / 2) + (v % 2) * (w % 2)
  }

  function Or(v: nat, w: nat): nat {
    if v == 0 then w else if w == 0 then v else 2 * Or(v / 2, w / 2) + (if v % 2 == 1 || w % 2 == 1 then 1 else 0)
  }

  predicate Has(w: nat, i: nat)
    decreases i
  {
    if i == 0 then w % 2 == 1 else Has(w / 2, i - 1)
  }

  /** The number of trailing zeros of a non-zero word. */
  function CountrZero(w: nat): nat
    requires w != 0
  {
    if w % 2 == 1 then 0 else 1 + CountrZero(w / 2)
  }

  /** Or is what its name says: position by position. */
  lemma {:induction false} OrHas(v: nat, w: nat, i: nat)
    ensures Has(Or(v, w), i) <==> Has(v, i) || Has(w, i)
    decreases i
  {
    if v == 0 || w == 0 {
      ZeroHasNone(i);
    } else if i > 0 {
      OrHas(v / 2, w / 2, i - 1);
    }
  }

  lemma {:induction false} ZeroHasNone(i: nat)
    ensures !Has(0, i)
  {
    if i > 0 {
      ZeroHasNone(i - 1);
    }
  }

  lemma {:induction false} Pow2Has(i: nat, j: nat)
    ensures Has(Pow2(i), j) <==> i == j
    decreases i
  {
    if i == 0 {
      if j > 0 {
        ZeroHasNone(j - 1);
      }
    } else if j > 0 {
      Pow2Has(i - 1, j - 1);
    }
  }

  /** The test of one bit with a mask is membership. */
  lemma {:induction false} TestBit(w: nat, i: nat)
    ensures And(w, Pow2(i)) != 0 <==> Has(w, i)
    decreases i
  {
    if w == 0 {
      ZeroHasNone(i);
    } else if i > 0 {
      TestBit(w / 2, i - 1);
    } else {
      assert And(w / 2, 0) == 0;
    }
  }

  lemma SetBit(w: nat, i: nat, j: nat)
    ensures Has(Or(w, Pow2(i)), j) <==> Has(w, j) || i == j
  {
    OrHas(w, Pow2(i), j);
    Pow2Has(i, j);
  }

  lemma {:induction false} OrBound(v: nat, w: nat, n: nat)
    requires v < Pow2(n) && w < Pow2(n)
    ensures Or(v, w) < Pow2(n)
    decreases n
  {
    if v != 0 && w != 0 {
      OrBound(v / 2, w / 2, n - 1);
    }
  }

  lemma {:induction false} OrAtLeast(v: nat, w: nat)
    ensures Or(v, w) >= w
  {
    if v != 0 && w != 0 {
      OrAtLeast(v / 2, w / 2);
    }
  }

  lemma {:induction false} AndBound(v: nat, w: nat)
    ensures And(v, w) <= v
  {
    if v != 0 && w != 0 {
      AndBound(v / 2, w / 2);
    }
  }

  lemma {:induction false} Pow2Grows(i: nat, n: nat)
    requires i < n
    ensures Pow2(i) < Pow2(n)
  {
    if i + 1 < n {
      Pow2Grows(i, n - 1);
    }
  }

  lemma {:induction false} AndSelf(w: nat)
    ensures And(w, w) == w
  {
    if w != 0 {
      AndSelf(w / 2);
    }
  }

  /** Clearing the lowest bit with `w & (w - 1)` removes exactly the position that counting
      trailing zeros finds, and that position is the least. */
  lemma {:induction false} ClearLowest(w: nat, j: nat)
    requires w != 0
    ensures Has(And(w, w - 1), j) <==> Has(w, j) && j != CountrZero(w)
    ensures Has(w, j) ==> CountrZero(w) <= j
    decreases w
  {
    if w % 2 == 1 {
      assert (w - 1) / 2 == w / 2;
      if w == 1 {
        ZeroHasNone(j);
        if j > 0 {
          ZeroHasNone(j - 1);
        }
      } else {
        AndSelf(w / 2);
        assert And(w, w - 1) == 2 * (w / 2);
      }
    } else {
      assert (w - 1) / 2 == w / 2 - 1;
      assert And(w, w - 1) == 2 * And(w / 2, w / 2 - 1);
      if j > 0 {
        ClearLowest(w / 2, j - 1);
      }
    }
  }

  lemma {:induction false} LowestIsIn(w: nat)
    requires w != 0
    ensures Has(w, CountrZero(w))
  {
    if w % 2 == 0 {
      LowestIsIn(w / 2);
    }
  }

  lemma {:induction false} CountBelow(w: nat, n: nat)
    requires w != 0 && w < Pow2(n)
    ensures CountrZero(w) < n
    decreases n
  {
    if w % 2 == 0 {
      CountBelow(w / 2, n - 1);
    }
  }
}
