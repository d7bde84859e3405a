/** The single-producer single-consumer ring under every interleaving of its two threads.

    Each operation is split where the code can be interrupted: load both indices and decide,
    copy one slot at a time, publish the new index. `pieces` is the history of everything
    published, one piece per enqueue; `taken` counts the pieces consumed. */
module SpscRing {
  import opened Buckets

  datatype Producer<T> = Resting | Copying(data: seq<T>, done: nat)

  datatype Consumer<T> = Asleep | Reading(n: nat, out: seq<T>, mark: nat)

  /** `buf` has one slot more than the capacity. `chunk` is the consumer's batch limit. */
  datatype Ring<T> = Ring(
    buf: seq<T>, w: nat, r: nat, chunk: nat,
    producer: Producer<T>, consumer: Consumer<T>,
    pieces: seq<seq<T>>, taken: nat, batch: seq<T>)

  datatype Act<T> = BeginEnqueue(data: seq<T>) | CopyIn | PublishIn | BeginDequeue | CopyOut | PublishOut

  // ---------------------------------------------------------------- index arithmetic

  function WriteAvailable(w: nat, r: nat, max: nat): int {
    if w >= r then r - w - 1 + max else r - w - 1
  }

  function ReadAvailable(w: nat, r: nat, max: nat): int {
    if w >= r then w - r else w + max - r
  }

  /** The slot i places after index k. */
  function Slot(k: nat, i: nat, max: nat): nat {
    if k + i < max then k + i else k + i - max
  }

  // ---------------------------------------------------------------- the two threads

  function Apply<T>(s: Ring<T>, a: Act<T>): Ring<T> {
    var max := |s.buf|;
    match a
    case BeginEnqueue(data) =>
      if s.producer.Resting? && |data| > 0 && WriteAvailable(s.w, s.r, max) >= |data|
      then s.(producer := Copying(data, 0)) else s
    case CopyIn =>
      if s.producer.Copying? && s.producer.done < |s.producer.data| && Slot(s.w, s.producer.done, max) < max
      then s.(buf := s.buf[Slot(s.w, s.producer.done, max) := s.producer.data[s.producer.done]],
              producer := s.producer.(done := s.producer.done + 1))
      else s
    case PublishIn =>
      if s.producer.Copying? && s.producer.done == |s.producer.data|
      then s.(w := Slot(s.w, |s.producer.data|, max), producer := Resting, pieces := s.pieces + [s.producer.data])
      else s
    case BeginDequeue =>
      var avail := ReadAvailable(s.w, s.r, max);
      if s.consumer.Asleep? && avail > 0
      then s.(consumer := Reading(if avail <= s.chunk then avail else s.chunk, [], |s.pieces|)) else s
    case CopyOut =>
      if s.consumer.Reading? && |s.consumer.out| < s.consumer.n && Slot(s.r, |s.consumer.out|, max) < max
      then s.(consumer := s.consumer.(out := s.consumer.out + [s.buf[Slot(s.r, |s.consumer.out|, max)]]))
      else s
    case PublishOut =>
      if s.consumer.Reading? && |s.consumer.out| == s.consumer.n
      then s.(r := Slot(s.r, s.consumer.n, max), consumer := Asleep, taken := s.consumer.mark, batch := s.consumer.out)
      else s
  }

  function Run<T>(s: Ring<T>, acts: seq<Act<T>>): Ring<T>
    decreases |acts|
  {
    if acts == [] then s else Run(Apply(s, acts[0]), acts[1..])
  }

  /** A new ring of the given capacity over arbitrary storage. */
  function Fresh<T>(buf: seq<T>, chunk: nat): Ring<T> {
    Ring(buf, 0, 0, chunk, Resting, Asleep, [], 0, [])
  }

  // ---------------------------------------------------------------- the invariant

  function Len<T>(s: Ring<T>): int {
    ReadAvailable(s.w, s.r, |s.buf|)
  }

  predicate Bounds<T>(s: Ring<T>) {
    s.w < |s.buf| && s.r < |s.buf| && |s.buf| <= s.chunk + 1
  }

  /** What is between the read and the write index, oldest first. */
  function Queue<T>(s: Ring<T>): (q: seq<T>)
    requires Bounds(s)
    ensures |q| == Len(s)
  {
    seq(Len(s), i requires 0 <= i < Len(s) => s.buf[Slot(s.r, i, |s.buf|)])
  }

  ghost predicate ProducerOk<T>(s: Ring<T>)
    requires Bounds(s)
  {
    s.producer.Copying? ==>
      && s.producer.done <= |s.producer.data| && 0 < |s.producer.data|
      && Len(s) + |s.producer.data| < |s.buf|
      && forall i :: 0 <= i < s.producer.done ==> s.buf[Slot(s.w, i, |s.buf|)] == s.producer.data[i]
  }

  ghost predicate ConsumerOk<T>(s: Ring<T>)
    requires Bounds(s)
  {
    s.consumer.Reading? ==>
      && s.taken <= s.consumer.mark <= |s.pieces|
      && |s.consumer.out| <= s.consumer.n <= Len(s)
      && s.consumer.n == |Flatten(s.pieces[s.taken..s.consumer.mark])|
      && s.consumer.out == Queue(s)[..|s.consumer.out|]
  }

  /** The ring holds exactly the pieces published and not yet taken, whole and in order. */
  ghost predicate Inv<T>(s: Ring<T>) {
    && Bounds(s)
    && s.taken <= |s.pieces|
    && Queue(s) == Flatten(s.pieces[s.taken..])
    && ProducerOk(s) && ConsumerOk(s)
  }

  // ---------------------------------------------------------------- proofs

  lemma QueueAfterCopyIn<T>(s: Ring<T>, s': Ring<T>)
    requires Inv(s) && s.producer.Copying? && s.producer.done < |s.producer.data| && s' == Apply(s, CopyIn)
    ensures Bounds(s') && Queue(s') == Queue(s)
  {
    var max := |s.buf|;
    assert s.w == Slot(s.r, Len(s), max);
    forall i | 0 <= i < Len(s)
      ensures Queue(s')[i] == Queue(s)[i]
    {
      assert Slot(s.r, i, max) != Slot(s.w, s.producer.done, max);
    }
  }

  lemma CopyInKeeps<T>(s: Ring<T>)
    requires Inv(s)
    ensures Inv(Apply(s, CopyIn))
  {
    var s' := Apply(s, CopyIn);
    if s' != s {
      QueueAfterCopyIn(s, s');
    }
  }

  lemma QueueAfterPublish<T>(s: Ring<T>)
    requires Inv(s) && s.producer.Copying? && s.producer.done == |s.producer.data|
    ensures var s' := Apply(s, PublishIn); Bounds(s') && Queue(s') == Queue(s) + s.producer.data
  {
    var s' := Apply(s, PublishIn);
    var max, data := |s.buf|, s.producer.data;
    assert Len(s') == Len(s) + |data|;
    forall i | 0 <= i < |data|
      ensures s.buf[Slot(s.r, Len(s) + i, max)] == data[i]
    {
      assert Slot(s.r, Len(s) + i, max) == Slot(s.w, i, max);
    }
  }

  lemma FlattenSnoc<T>(pieces: seq<seq<T>>, data: seq<T>)
    ensures Flatten(pieces + [data]) == Flatten(pieces) + data
  {
    FlattenConcat(pieces, [data]);
    assert [data][1..] == [];
    assert Flatten([data]) == data + Flatten([data][1..]) == data;
  }

  lemma PublishInKeeps<T>(s: Ring<T>)
    requires Inv(s)
    ensures Inv(Apply(s, PublishIn))
  {
    if s.producer.Copying? && s.producer.done == |s.producer.data| {
      var s' := Apply(s, PublishIn);
      QueueAfterPublish(s);
      assert s'.pieces[s.taken..] == s.pieces[s.taken..] + [s.producer.data];
      FlattenSnoc(s.pieces[s.taken..], s.producer.data);
      ReaderStays(s, s');
    }
  }

  /** A read in progress does not notice what is appended. */
  lemma ReaderStays<T>(s: Ring<T>, s': Ring<T>)
    requires Inv(s) && Bounds(s') && s'.consumer == s.consumer && s'.taken == s.taken && |s.pieces| <= |s'.pieces|
    requires s'.pieces[..|s.pieces|] == s.pieces && |Queue(s)| <= |Queue(s')| && Queue(s')[..|Queue(s)|] == Queue(s)
    ensures ConsumerOk(s')
  {
    if s.consumer.Reading? {
      assert s'.pieces[s.taken..s.consumer.mark] == s'.pieces[..|s.pieces|][s.taken..s.consumer.mark];
      assert Queue(s')[..|s.consumer.out|] == Queue(s')[..|Queue(s)|][..|s.consumer.out|];
    }
  }

  lemma BeginDequeueKeeps<T>(s: Ring<T>)
    requires Inv(s)
    ensures Inv(Apply(s, BeginDequeue))
  {
    assert s.pieces[s.taken..|s.pieces|] == s.pieces[s.taken..];
  }

  lemma CopyOutKeeps<T>(s: Ring<T>)
    requires Inv(s)
    ensures Inv(Apply(s, CopyOut))
  {
    var s' := Apply(s, CopyOut);
    if s' != s {
      var k := |s.consumer.out|;
      assert Queue(s') == Queue(s);
      assert Queue(s)[..k + 1] == Queue(s)[..k] + [Queue(s)[k]];
    }
  }

  /** What a finished batch is: the pieces published when it began, whole. */
  lemma BatchIsWhole<T>(s: Ring<T>)
    requires Inv(s) && s.consumer.Reading? && |s.consumer.out| == s.consumer.n
    ensures s.consumer.out == Flatten(s.pieces[s.taken..s.consumer.mark])
    ensures Queue(s)[s.consumer.n..] == Flatten(s.pieces[s.consumer.mark..])
  {
    var a, b := s.pieces[s.taken..s.consumer.mark], s.pieces[s.consumer.mark..];
    assert s.pieces[s.taken..] == a + b;
    FlattenConcat(a, b);
  }

  lemma PublishOutKeeps<T>(s: Ring<T>)
    requires Inv(s)
    ensures Inv(Apply(s, PublishOut))
  {
    var s' := Apply(s, PublishOut);
    if s' != s {
      var max, n := |s.buf|, s.consumer.n;
      BatchIsWhole(s);
      assert Len(s') == Len(s) - n;
      forall i | 0 <= i < Len(s')
        ensures Queue(s')[i] == Queue(s)[n + i]
      {
        assert Slot(s'.r, i, max) == Slot(s.r, n + i, max);
      }
      assert Queue(s') == Queue(s)[n..];
    }
  }

  lemma ActKeepsInv<T>(s: Ring<T>, a: Act<T>)
    requires Inv(s)
    ensures Inv(Apply(s, a))
  {
    match a
    case BeginEnqueue(_) =>
    case CopyIn => CopyInKeeps(s);
    case PublishIn => PublishInKeeps(s);
    case BeginDequeue => BeginDequeueKeeps(s);
    case CopyOut => CopyOutKeeps(s);
    case PublishOut => PublishOutKeeps(s);
  }

  lemma {:induction false} RunKeepsInv<T>(s: Ring<T>, acts: seq<Act<T>>)
    requires Inv(s)
    ensures Inv(Run(s, acts))
    decreases |acts|
  {
    if acts != [] {
      ActKeepsInv(s, acts[0]);
      RunKeepsInv(Apply(s, acts[0]), acts[1..]);
    }
  }

  /** Nothing is lost, torn or reordered: under every interleaving the ring holds the
      pieces not yet taken, never more than its capacity. */
  lemma RingIsAQueue<T>(buf: seq<T>, chunk: nat, acts: seq<Act<T>>)
    requires 0 < |buf| <= chunk + 1
    ensures var s := Run(Fresh(buf, chunk), acts);
            && Bounds(s) && s.taken <= |s.pieces|
            && Queue(s) == Flatten(s.pieces[s.taken..])
            && |Queue(s)| < |s.buf|
  {
    var s0 := Fresh(buf, chunk);
    assert s0.pieces[s0.taken..] == [];
    RunKeepsInv(s0, acts);
  }

  // ---------------------------------------------------------------- operations complete

  predicate OfProducer<T>(a: Act<T>) {
    a.BeginEnqueue? || a.CopyIn? || a.PublishIn?
  }

  /** Acts in the middle of an operation: any of the other thread, and n slots copied. */
  predicate Midway<T>(acts: seq<Act<T>>, enqueue: bool, n: nat)
    decreases |acts|
  {
    if acts == [] then n == 0
    else if (if enqueue then acts[0].CopyIn? else acts[0].CopyOut?) then n > 0 && Midway(acts[1..], enqueue, n - 1)
    else OfProducer(acts[0]) != enqueue && Midway(acts[1..], enqueue, n)
  }

  lemma {:induction false} CopiesIn<T>(s: Ring<T>, acts: seq<Act<T>>, n: nat)
    requires Inv(s) && s.producer.Copying? && s.producer.done + n == |s.producer.data| && Midway(acts, true, n)
    ensures var t := Run(s, acts);
            Inv(t) && t.producer == Copying(s.producer.data, |s.producer.data|) && t.pieces == s.pieces
    decreases |acts|
  {
    if acts != [] {
      ActKeepsInv(s, acts[0]);
      CopiesIn(Apply(s, acts[0]), acts[1..], if acts[0].CopyIn? then n - 1 else n);
    }
  }

  /** An enqueue that fits is published whole, whatever the consumer does meanwhile. */
  lemma EnqueueCompletes<T>(s: Ring<T>, data: seq<T>, acts: seq<Act<T>>)
    requires Inv(s) && s.producer.Resting? && |data| > 0 && |Queue(s)| + |data| < |s.buf| && Midway(acts, true, |data|)
    ensures var t := Apply(Run(Apply(s, BeginEnqueue(data)), acts), PublishIn);
            t.pieces == s.pieces + [data] && t.producer.Resting?
  {
    ActKeepsInv(s, BeginEnqueue(data));
    CopiesIn(Apply(s, BeginEnqueue(data)), acts, |data|);
  }

  lemma PrefixTwice<T>(a: seq<T>, b: seq<T>, c: seq<T>)
    requires |a| <= |b| <= |c| && b[..|a|] == a && c[..|b|] == b
    ensures c[..|a|] == a
  {
    assert c[..|a|] == c[..|b|][..|a|];
  }

  /** A read goes on: one act of either thread. */
  lemma ReadGoesOn<T>(s: Ring<T>, a: Act<T>)
    requires Inv(s) && s.consumer.Reading? && (OfProducer(a) || (a.CopyOut? && |s.consumer.out| < s.consumer.n))
    ensures var t := Apply(s, a);
            && t.consumer == s.consumer.(out := t.consumer.out) && |t.consumer.out| == |s.consumer.out| + (if a.CopyOut? then 1 else 0)
            && t.taken == s.taken && |s.pieces| <= |t.pieces| && t.pieces[..|s.pieces|] == s.pieces
  {
  }

  lemma {:induction false} CopiesOut<T>(s: Ring<T>, acts: seq<Act<T>>, n: nat)
    requires Inv(s) && s.consumer.Reading? && |s.consumer.out| + n == s.consumer.n && Midway(acts, false, n)
    ensures var t := Run(s, acts);
            && Inv(t) && t.consumer.Reading? && |t.consumer.out| == t.consumer.n && t.consumer.mark == s.consumer.mark
            && t.taken == s.taken && |s.pieces| <= |t.pieces| && t.pieces[..|s.pieces|] == s.pieces
    decreases |acts|
  {
    if acts != [] {
      ActKeepsInv(s, acts[0]);
      ReadGoesOn(s, acts[0]);
      var m := Apply(s, acts[0]);
      CopiesOut(m, acts[1..], if acts[0].CopyOut? then n - 1 else n);
      PrefixTwice(s.pieces, m.pieces, Run(s, acts).pieces);
    }
  }

  /** A read that finds something takes everything published when it began, in order,
      whatever the producer does meanwhile. */
  lemma DequeueCompletes<T>(s: Ring<T>, acts: seq<Act<T>>)
    requires Inv(s) && s.consumer.Asleep? && Queue(s) != [] && Midway(acts, false, |Queue(s)|)
    ensures var t := Apply(Run(Apply(s, BeginDequeue), acts), PublishOut);
            t.batch == Queue(s) && t.taken == |s.pieces| && t.consumer.Asleep?
  {
    var m := Apply(s, BeginDequeue);
    ActKeepsInv(s, BeginDequeue);
    assert m.consumer == Reading(|Queue(s)|, [], |s.pieces|);
    CopiesOut(m, acts, |Queue(s)|);
    var t := Run(m, acts);
    BatchIsWhole(t);
    assert t.pieces[s.taken..|s.pieces|] == t.pieces[..|s.pieces|][s.taken..];
  }

  /** Never torn: when only whole events are enqueued, every batch handed to the consumer
      walks back into exactly the events published when the batch began. */
  lemma BatchesAreWholeEvents(buf: Wire, chunk: nat, acts: seq<Act<Bucket>>)
    requires 0 < |buf| <= chunk + 1
    requires AllWhole(Run(Fresh(buf, chunk), acts).pieces)
    ensures var s := Run(Fresh(buf, chunk), acts);
            var s' := Apply(s, PublishOut);
            s.consumer.Reading? && |s.consumer.out| == s.consumer.n ==>
              && s.taken <= s'.taken <= |s'.pieces|
              && Walk(s'.batch) == s'.pieces[s.taken..s'.taken]
  {
    var s0 := Fresh(buf, chunk);
    assert s0.pieces[s0.taken..] == [];
    RunKeepsInv(s0, acts);
    var s := Run(s0, acts);
    if s.consumer.Reading? && |s.consumer.out| == s.consumer.n {
      BatchIsWhole(s);
      WalkFlatten(s.pieces[s.taken..s.consumer.mark]);
    }
  }

  lemma {:induction false} Quotients(p: nat, q: nat, b: nat)
    requires p * b < q * b + b
    ensures p <= q
  {
    if p > 0 {
      assert p * b == (p - 1) * b + b && (p - 1) * b >= 0;
      if q > 0 {
        assert q * b == (q - 1) * b + b;
        Quotients(p - 1, q - 1, b);
      }
    }
  }

  lemma DivMonotone(x: nat, y: nat, b: nat)
    requires x <= y && 0 < b
    ensures x / b <= y / b
  {
    assert x == (x / b) * b + x % b;
    assert y == (y / b) * b + y % b;
    Quotients(x / b, y / b, b);
  }

  /** The receive chunk of a core covers a whole ring, whatever the bucket size. */
  lemma ChunkCoversRing(b: nat)
    requires 0 < b
    ensures 65535 / b <= 65536 / b
  {
    DivMonotone(65535, 65536, b);
  }

  /** Enqueue is all or nothing, and refuses exactly when the piece does not fit beside
      what is queued. */
  lemma EnqueueRefusesExactlyWhenFull<T>(s: Ring<T>, data: seq<T>)
    requires Inv(s) && s.producer.Resting? && |data| > 0
    ensures Apply(s, BeginEnqueue(data)).producer.Copying? <==> |Queue(s)| + |data| <= |s.buf| - 1
  {
  }
}
