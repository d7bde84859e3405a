/** Events on the wire. A pipe and a ring hold buckets of B bytes; an event is a run of
    buckets whose first one carries, in its `bucket_size` field, how many there are. */
module Buckets {

  /** `size` is what the bucket's bytes read as when taken for an event header. */
  datatype Bucket = Bucket(size: nat, bytes: nat)

  type Wire = seq<Bucket>

  /** A whole event: its header gives its length, which is at least one bucket. */
  predicate Whole(e: Wire) {
    |e| >= 1 && e[0].size == |e|
  }

  predicate AllWhole(es: seq<Wire>) {
    forall i :: 0 <= i < |es| ==> Whole(es[i])
  }

  function Flatten<T>(es: seq<seq<T>>): seq<T> {
    if es == [] then [] else es[0] + Flatten(es[1..])
  }

  /** Buckets an event of `own` bytes with `extra` trailing bytes occupies, as stored in
      its uint16 header field. */
  function BucketSize(own: nat, extra: nat, b: nat): nat
    requires b > 0
  {
    var total := own + extra;
    (total / b + if total % b != 0 then 1 else 0) % 65536
  }

  /** The reserved buckets hold the event and are fewer than one bucket too many, unless
      the 16-bit field wraps. */
  lemma BucketSizeIsCeiling(own: nat, extra: nat, b: nat)
    requires b > 0 && own > 0 && own + extra <= 65535 * b
    ensures BucketSize(own, extra, b) >= 1
    ensures (BucketSize(own, extra, b) - 1) * b < own + extra <= BucketSize(own, extra, b) * b
  {
    var total := own + extra;
    var q, r := total / b, total % b;
    assert total == q * b + r;
    var n := q + if r != 0 then 1 else 0;
    Quotient(q, 65535, b, r);
    assert BucketSize(own, extra, b) == n;
    if r != 0 {
      assert (n - 1) * b == q * b && n * b == q * b + b;
    } else {
      assert n * b == q * b && (n - 1) * b == q * b - b;
    }
  }

  lemma {:induction false} Quotient(q: nat, k: nat, b: nat, r: nat)
    requires b > 0 && q * b + r <= k * b
    ensures q <= k && (q == k ==> r == 0)
  {
    if q > 0 {
      Pred(q, b);
      if k > 0 {
        Pred(k, b);
        Quotient(q - 1, k - 1, b, r);
      }
    }
  }

  lemma Pred(q: nat, b: nat)
    requires q > 0
    ensures q * b == (q - 1) * b + b
  {
  }

  /** ... and the first footprint that wraps reads as a zero-width event. */
  lemma BucketSizeWraps(b: nat)
    requires b > 0
    ensures BucketSize(65536 * b, 0, b) == 0
  {
    Multiple(65536, b);
  }

  lemma Multiple(k: nat, b: nat)
    requires b > 0
    ensures (k * b) / b == k && (k * b) % b == 0
  {
    var q, r := (k * b) / b, (k * b) % b;
    assert k * b == q * b + r;
    Quotient(q, k, b, r);
    Pred(q + 1, b);
    Quotient(k, q + 1, b, b - r);
  }

  /** The events of a batch, read off by following the size fields. Stops at a zero-width
      header, like every loop that walks buckets. */
  function Walk(bs: Wire): seq<Wire>
    decreases |bs|
  {
    if bs == [] || bs[0].size == 0 then []
    else if bs[0].size >= |bs| then [bs]
    else [bs[..bs[0].size]] + Walk(bs[bs[0].size..])
  }

  /** Flattening well-formed events and walking gives the same events back. */
  lemma {:induction false} WalkFlatten(es: seq<Wire>)
    requires AllWhole(es)
    ensures Walk(Flatten(es)) == es
  {
    if es != [] {
      var e, rest := es[0], Flatten(es[1..]);
      assert Whole(e);
      assert Flatten(es) == e + rest && (e + rest)[..|e|] == e && (e + rest)[|e|..] == rest;
      WalkFlatten(es[1..]);
      if es[1..] != [] {
        FlattenNonEmpty(es[1..]);
      } else {
        assert e + rest == e;
      }
    }
  }

  lemma FlattenNonEmpty(es: seq<Wire>)
    requires AllWhole(es) && es != []
    ensures Flatten(es) != []
  {
    assert Whole(es[0]);
  }

  lemma {:induction false} FlattenConcat<T>(a: seq<seq<T>>, b: seq<seq<T>>)
    ensures Flatten(a + b) == Flatten(a) + Flatten(b)
  {
    if a == [] {
      assert a + b == b;
    } else {
      FlattenConcat(a[1..], b);
      assert (a + b)[1..] == a[1..] + b;
      assert a[0] + (Flatten(a[1..]) + Flatten(b)) == a[0] + Flatten(a[1..]) + Flatten(b);
    }
  }

  /** The loop of `__receive_events__` and of the teardown sweep over one batch. */
  method WalkBatch(bs: Wire) returns (events: seq<Wire>)
    ensures events == Walk(bs)
    ensures forall es :: AllWhole(es) && bs == Flatten(es) ==> events == es
  {
    events := [];
    var i := 0;
    while i < |bs|
      invariant 0 <= i <= |bs|
      invariant events + Walk(bs[i..]) == Walk(bs)
    {
      var size := bs[i].size;
      if size == 0 {
        break;
      }
      var next := if i + size <= |bs| then i + size else |bs|;
      assert bs[i..][..next - i] == bs[i..next] && bs[i..][next - i..] == bs[next..];
      if size >= |bs[i..]| {
        assert bs[i..next] == bs[i..];
      }
      events := events + [bs[i..next]];
      i := next;
    }
    forall es | AllWhole(es) && bs == Flatten(es)
      ensures events == es
    {
      WalkFlatten(es);
    }
  }

  /** Walking a ring in place sees two segments when the readable range wraps. The events
      come out whole exactly when the wrap falls between two events; this is why the sweep
      has to copy a batch out first. */
  lemma InPlaceIsWholeIffAligned(es: seq<Wire>, cut: nat)
    requires AllWhole(es) && 0 < cut < |Flatten(es)|
    ensures Walk(Flatten(es)[..cut]) + Walk(Flatten(es)[cut..]) == es
            <==> exists k :: 0 <= k <= |es| && |Flatten(es[..k])| == cut
  {
    var bs := Flatten(es);
    if k :| 0 <= k <= |es| && |Flatten(es[..k])| == cut {
      assert es == es[..k] + es[k..];
      FlattenConcat(es[..k], es[k..]);
      assert bs[..cut] == Flatten(es[..k]) && bs[cut..] == Flatten(es[k..]);
      WalkFlatten(es[..k]);
      WalkFlatten(es[k..]);
    }
    if Walk(bs[..cut]) + Walk(bs[cut..]) == es {
      var k := |Walk(bs[..cut])|;
      assert Walk(bs[..cut]) == es[..k];
      WalkCovers(es, cut, k);
    }
  }

  /** If the first k events are exactly what walking the first segment yields, that segment
      is those events. */
  lemma {:induction false} WalkCovers(es: seq<Wire>, cut: nat, k: nat)
    requires AllWhole(es) && cut <= |Flatten(es)| && k <= |es| && Walk(Flatten(es)[..cut]) == es[..k]
    ensures Flatten(es[..k]) == Flatten(es)[..cut]
    decreases |es|
  {
    var bs := Flatten(es);
    if cut == 0 {
      assert bs[..cut] == [];
    } else {
      assert es != [];
      var e := es[0];
      assert Whole(e) && bs == e + Flatten(es[1..]);
      assert bs[..cut][0] == e[0];
      assert k > 0 && es[..k][0] == e;
      if |e| >= cut {
        assert Walk(bs[..cut]) == [bs[..cut]];
        assert es[..k] == [e] && [e][1..] == [];
        assert Flatten([e]) == e + Flatten([e][1..]) == e;
      } else {
        assert bs[..cut][..|e|] == e && bs[..cut][|e|..] == Flatten(es[1..])[..cut - |e|];
        assert Walk(bs[..cut]) == [e] + Walk(Flatten(es[1..])[..cut - |e|]);
        assert es[..k][1..] == es[1..][..k - 1];
        WalkCovers(es[1..], cut - |e|, k - 1);
        assert Flatten(es[..k]) == e + Flatten(es[1..][..k - 1]);
      }
    }
  }
}
