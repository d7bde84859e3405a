/** The bucket ring as the ring of events of `Transport`: each act of its two threads is a
    step there or none at all. */
module RingOfEvents {
  import opened Buckets
  import opened SpscRing
  import T = Transport

  type Event = e: T.Event | e.width >= 1 witness T.Event(0, 1, 0, true, 0, 0)

  /** The buckets of an event. */
  function Encode(e: Event): (w: Wire)
    ensures |w| == e.width && Whole(w)
  {
    seq(e.width, i => Bucket(if i == 0 then e.width else 0, e.token))
  }

  /** The buckets tell which payload the event has, and how wide it is. */
  lemma EncodedTellsApart(a: Event, b: Event)
    requires Encode(a) == Encode(b)
    ensures a.token == b.token && a.width == b.width
  {
    assert Encode(a)[0] == Encode(b)[0];
  }

  function EncodeAll(es: seq<Event>): (ws: seq<Wire>)
    ensures |ws| == |es| && forall i :: 0 <= i < |es| ==> ws[i] == Encode(es[i])
  {
    seq(|es|, i requires 0 <= i < |es| => Encode(es[i]))
  }

  lemma {:induction false} WidthIsLength(es: seq<Event>)
    ensures |Flatten(EncodeAll(es))| == T.Width(es)
    decreases |es|
  {
    if es != [] {
      WidthIsLength(es[1..]);
      assert EncodeAll(es)[1..] == EncodeAll(es[1..]);
    }
  }

  /** The ring holds these events, and has room for `cap` buckets. */
  ghost predicate Carries(s: Ring<Bucket>, events: seq<Event>, cap: nat) {
    Inv(s) && |s.buf| == cap + 1 && s.pieces[s.taken..] == EncodeAll(events)
  }

  /** An enqueue is accepted exactly when the model has room. */
  lemma AcceptedIffRoom(s: Ring<Bucket>, events: seq<Event>, cap: nat, l: T.Link, e: Event)
    requires Carries(s, events, cap) && l.ring == events && s.producer.Resting?
    ensures Apply(s, BeginEnqueue(Encode(e))).producer.Copying? <==> T.Room(cap, l, e)
  {
    EnqueueRefusesExactlyWhenFull(s, Encode(e));
    WidthIsLength(events);
  }

  /** Publishing a whole event is the send. */
  lemma PublishIsSend(s: Ring<Bucket>, events: seq<Event>, cap: nat, e: Event)
    requires Carries(s, events, cap) && s.producer == Copying(Encode(e), e.width)
    ensures Carries(Apply(s, PublishIn), events + [e], cap)
  {
    var s' := Apply(s, PublishIn);
    ActKeepsInv(s, PublishIn);
    assert s'.pieces[s'.taken..] == s.pieces[s.taken..] + [Encode(e)];
    assert EncodeAll(events + [e]) == EncodeAll(events) + [Encode(e)];
  }

  /** Publishing the read index is the take of the events found when the read began, and the
      batch walks back into them. */
  lemma PublishIsTake(s: Ring<Bucket>, events: seq<Event>, cap: nat)
    requires Carries(s, events, cap) && s.consumer.Reading? && |s.consumer.out| == s.consumer.n
    ensures var s' := Apply(s, PublishOut);
            var n := s.consumer.mark - s.taken;
            && 0 <= n <= |events| && Carries(s', events[n..], cap)
            && Walk(s'.batch) == EncodeAll(events[..n])
  {
    var n := s.consumer.mark - s.taken;
    ActKeepsInv(s, PublishOut);
    assert |s.pieces[s.taken..]| == |events|;
    PiecesSplit(s.pieces, s.taken, s.consumer.mark, events);
    BatchIsWhole(s);
    WalkFlatten(EncodeAll(events[..n]));
  }

  lemma PiecesSplit(pieces: seq<Wire>, from: nat, to: nat, events: seq<Event>)
    requires from <= to <= |pieces| && pieces[from..] == EncodeAll(events)
    ensures var n := to - from;
            n <= |events| && pieces[to..] == EncodeAll(events[n..]) && pieces[from..to] == EncodeAll(events[..n])
  {
    var n := to - from;
    assert |pieces[from..]| == |events|;
    assert pieces[to..] == pieces[from..][n..] && pieces[from..to] == pieces[from..][..n];
    assert EncodeAll(events)[n..] == EncodeAll(events[n..]) && EncodeAll(events)[..n] == EncodeAll(events[..n]);
  }

  /** Every other act is invisible. */
  lemma OtherActsAreInvisible(s: Ring<Bucket>, events: seq<Event>, cap: nat, a: Act<Bucket>)
    requires Carries(s, events, cap) && !a.PublishIn? && !a.PublishOut?
    ensures Carries(Apply(s, a), events, cap)
  {
    ActKeepsInv(s, a);
  }
}
