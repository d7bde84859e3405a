/** The ids promised before the engine starts, and the ids the actors get when it does. */
module Startup {
  import opened IdPool

  /** A call of `addActor`: a plain actor, or the service with this id. */
  datatype Request = Plain | Service(sid: nat)

  datatype Factory = Factory(request: Request, id: nat)

  function Plains(rs: seq<Request>): nat {
    if rs == [] then 0 else Plains(rs[..|rs| - 1]) + if rs[|rs| - 1].Plain? then 1 else 0
  }

  function Requests(fs: seq<Factory>): (rs: seq<Request>)
    ensures |rs| == |fs| && forall i :: 0 <= i < |fs| ==> rs[i] == fs[i].request
  {
    seq(|fs|, i requires 0 <= i < |fs| => fs[i].request)
  }

  /** The id of the plain actor number `k` on a core with this many services; 0 when there
      is none left. */
  function PlainId(services: nat, k: nat): nat {
    if services + 1 + k < BROADCAST_SID then services + 1 + k else 0
  }

  /** What the call number `i` is promised, whatever the other calls were: plain actors get
      consecutive ids, a service its own id the first time. */
  function Promise(services: nat, rs: seq<Request>, i: nat): nat
    requires i < |rs|
  {
    if rs[i].Plain? then PlainId(services, Plains(rs[..i]))
    else if rs[i] in rs[..i] then 0 else rs[i].sid
  }

  /** The factories recorded: one per call that was promised an id. */
  function Recorded(services: nat, rs: seq<Request>): seq<Factory>
    decreases |rs|
  {
    if rs == [] then []
    else
      var n := |rs| - 1;
      var id := Promise(services, rs, n);
      if id == 0 then Recorded(services, rs[..n]) else Recorded(services, rs[..n]) + [Factory(rs[n], id)]
  }

  /** Services are numbered from 1 up to the service count. */
  predicate Numbered(services: nat, rs: seq<Request>) {
    forall i :: 0 <= i < |rs| && rs[i].Service? ==> 1 <= rs[i].sid <= services
  }

  /** What one more call is promised, and records. */
  lemma OneMore(services: nat, asked: seq<Request>, r: Request)
    ensures var more := asked + [r];
            var id := if r.Plain? then PlainId(services, Plains(asked)) else if r in asked then 0 else r.sid;
            && Promise(services, more, |asked|) == id
            && Plains(more) == Plains(asked) + (if r.Plain? then 1 else 0)
            && Recorded(services, more) == Recorded(services, asked) + if id == 0 then [] else [Factory(r, id)]
  {
    assert (asked + [r])[..|asked|] == asked;
  }

  /** The counter, the registered services and the factories after these calls. */
  ghost predicate Accurate(services: nat, nextId: nat, registered: set<nat>, factories: seq<Factory>, asked: seq<Request>) {
    && services < BROADCAST_SID && Numbered(services, asked)
    && nextId == (if services + 1 + Plains(asked) < BROADCAST_SID then services + 1 + Plains(asked) else BROADCAST_SID)
    && (forall s :: s in registered <==> Service(s) in asked)
    && factories == Recorded(services, asked)
  }

  lemma PlainAdded(services: nat, nextId: nat, registered: set<nat>, factories: seq<Factory>, asked: seq<Request>)
    requires Accurate(services, nextId, registered, factories, asked)
    ensures var more := asked + [Plain];
            if nextId == BROADCAST_SID
            then Promise(services, more, |asked|) == 0 && Accurate(services, nextId, registered, factories, more)
            else Promise(services, more, |asked|) == nextId
                 && Accurate(services, nextId + 1, registered, factories + [Factory(Plain, nextId)], more)
  {
    OneMore(services, asked, Plain);
  }

  lemma ServiceAdded(services: nat, nextId: nat, registered: set<nat>, factories: seq<Factory>, asked: seq<Request>, sid: nat)
    requires Accurate(services, nextId, registered, factories, asked) && 1 <= sid <= services
    ensures var more := asked + [Service(sid)];
            if sid in registered
            then Promise(services, more, |asked|) == 0 && Accurate(services, nextId, registered, factories, more)
            else Promise(services, more, |asked|) == sid
                 && Accurate(services, nextId, registered + {sid}, factories + [Factory(Service(sid), sid)], more)
  {
    OneMore(services, asked, Service(sid));
  }

  class CoreInitializer {
    const services: nat
    var nextId: nat
    var registered: set<nat>
    var factories: seq<Factory>
    ghost var asked: seq<Request>

    ghost predicate Valid()
      reads this
    {
      Accurate(services, nextId, registered, factories, asked)
    }

    constructor (nbServices: nat)
      requires nbServices < BROADCAST_SID
      ensures Valid() && services == nbServices && asked == []
    {
      services := nbServices;
      nextId := nbServices + 1;
      registered, factories, asked := {}, [], [];
    }

    method AddActor(r: Request) returns (id: nat)
      requires Valid() && (r.Service? ==> 1 <= r.sid <= services)
      modifies this
      ensures Valid() && asked == old(asked) + [r]
      ensures id == Promise(services, asked, |old(asked)|)
    {
      id := 0;
      if r.Service? {
        ServiceAdded(services, nextId, registered, factories, asked, r.sid);
        if r.sid !in registered {
          registered := registered + {r.sid};
          id := r.sid;
        }
      } else {
        PlainAdded(services, nextId, registered, factories, asked);
        if nextId != BROADCAST_SID {
          id := nextId;
          nextId := nextId + 1;
        }
      }
      asked := asked + [r];
      if id != 0 {
        factories := factories + [Factory(r, id)];
      }
    }
  }

  /** The id an actor constructed by factory number `i` gets when the core has this many
      services. */
  function Made(services: nat, fs: seq<Factory>, i: nat): nat
    requires i < |fs|
  {
    if fs[i].request.Plain? then PlainId(services, Plains(Requests(fs[..i]))) else fs[i].request.sid
  }

  /** The pool after the first `n` factories: every id they did not draw. */
  ghost predicate PoolAfter(pool: ServiceIdPool, services: nat, fs: seq<Factory>, n: nat)
    requires n <= |fs|
    reads pool, pool.bits
  {
    pool.Valid() && pool.Free() == Range(services + 1 + Plains(Requests(fs[..n])), BROADCAST_SID)
  }

  predicate MadeSoFar(services: nat, fs: seq<Factory>, made: seq<nat>) {
    |made| <= |fs| && forall i :: 0 <= i < |made| ==> made[i] == Made(services, fs, i)
  }

  method NewPool(services: nat, fs: seq<Factory>) returns (pool: ServiceIdPool)
    requires services < BROADCAST_SID
    ensures fresh(pool) && fresh(pool.bits) && PoolAfter(pool, services, fs, 0)
  {
    pool := new ServiceIdPool(services + 1);
    assert Requests(fs[..0]) == [];
  }

  /** A plain actor draws its id from the pool, from which `k` ids were drawn before. */
  method DrawId(pool: ServiceIdPool, services: nat, ghost k: nat) returns (id: nat)
    requires pool.Valid() && pool.Free() == Range(services + 1 + k, BROADCAST_SID)
    modifies pool, pool.bits
    ensures pool.Valid() && pool.Free() == Range(services + 1 + k + 1, BROADCAST_SID) && id == PlainId(services, k)
  {
    id := pool.Generate();
    DrawFromRange(services + 1 + k, id, pool.Free());
  }

  /** Constructs the actor of one factory. */
  method Construct(pool: ServiceIdPool, services: nat, fs: seq<Factory>, n: nat) returns (id: nat)
    requires n < |fs| && PoolAfter(pool, services, fs, n)
    modifies pool, pool.bits
    ensures PoolAfter(pool, services, fs, n + 1) && id == Made(services, fs, n)
  {
    PlainsStep(fs, n);
    if fs[n].request.Plain? {
      id := DrawId(pool, services, Plains(Requests(fs[..n])));
    } else {
      id := fs[n].request.sid;
    }
  }

  /** Runs the factories on a new core. Stops at the first actor that gets no id or whose id
      is taken. */
  method RunFactories(services: nat, fs: seq<Factory>) returns (made: seq<nat>, pool: ServiceIdPool)
    requires services < BROADCAST_SID && Distinct(services, fs)
    ensures fresh(pool) && fresh(pool.bits)
    ensures MadeSoFar(services, fs, made)
    ensures if |made| < |fs| then Made(services, fs, |made|) == 0 else PoolAfter(pool, services, fs, |fs|)
  {
    pool := NewPool(services, fs);
    made := [];
    while |made| < |fs|
      invariant fresh(pool) && fresh(pool.bits) && MadeSoFar(services, fs, made) && PoolAfter(pool, services, fs, |made|)
    {
      var ok, more := AppendNext(pool, services, fs, made);
      if !ok {
        return;
      }
      made := more;
    }
  }

  /** Makes the next actor and appends it, unless it has no id or its id is taken. */
  method AppendNext(pool: ServiceIdPool, services: nat, fs: seq<Factory>, made: seq<nat>) returns (ok: bool, more: seq<nat>)
    requires Distinct(services, fs) && |made| < |fs| && MadeSoFar(services, fs, made) && PoolAfter(pool, services, fs, |made|)
    modifies pool, pool.bits
    ensures ok <==> Made(services, fs, |made|) != 0
    ensures ok ==> |more| == |made| + 1 && MadeSoFar(services, fs, more) && PoolAfter(pool, services, fs, |more|)
  {
    var id := Construct(pool, services, fs, |made|);
    TakenMeansNone(services, fs, made);
    MadeMore(services, fs, made);
    ok, more := id != 0 && id !in made, made + [id];
  }

  /** Services are numbered and no service occurs twice. */
  predicate Distinct(services: nat, fs: seq<Factory>) {
    && Numbered(services, Requests(fs))
    && forall i, j :: 0 <= i < j < |fs| && fs[i].request == fs[j].request ==> fs[i].request.Plain?
  }

  lemma IdsApart(services: nat, fs: seq<Factory>, i: nat, j: nat)
    requires i < j < |fs| && Distinct(services, fs)
    ensures Made(services, fs, i) == Made(services, fs, j) ==> Made(services, fs, j) == 0
  {
    assert Requests(fs)[i] == fs[i].request && Requests(fs)[j] == fs[j].request;
    PlainsStep(fs, i);
    PlainsGrow(fs, i + 1, j);
  }

  lemma MadeMore(services: nat, fs: seq<Factory>, made: seq<nat>)
    requires |made| < |fs| && MadeSoFar(services, fs, made)
    ensures MadeSoFar(services, fs, made + [Made(services, fs, |made|)])
  {
  }

  lemma TakenMeansNone(services: nat, fs: seq<Factory>, made: seq<nat>)
    requires Distinct(services, fs) && |made| < |fs| && MadeSoFar(services, fs, made)
    ensures Made(services, fs, |made|) in made ==> Made(services, fs, |made|) == 0
  {
    forall i | 0 <= i < |made|
      ensures made[i] == Made(services, fs, |made|) ==> Made(services, fs, |made|) == 0
    {
      IdsApart(services, fs, i, |made|);
    }
  }

  lemma {:induction false} PlainsGrow(fs: seq<Factory>, i: nat, j: nat)
    requires i <= j <= |fs|
    ensures Plains(Requests(fs[..i])) <= Plains(Requests(fs[..j]))
    decreases j
  {
    if i < j {
      PlainsGrow(fs, i, j - 1);
      PlainsStep(fs, j - 1);
    }
  }

  lemma PlainsStep(fs: seq<Factory>, n: nat)
    requires n < |fs|
    ensures Plains(Requests(fs[..n + 1])) == Plains(Requests(fs[..n])) + if fs[n].request.Plain? then 1 else 0
    ensures Requests(fs[..n + 1]) == Requests(fs[..n]) + [fs[n].request]
  {
    var rs := Requests(fs[..n + 1]);
    assert rs[..n] == Requests(fs[..n]);
    assert rs == rs[..n] + [fs[n].request];
  }

  // ---------------------------------------------------------------- promises and ids

  /** The recorded plain actors are the first ones asked for, as many as there are ids. */
  lemma {:induction false} RecordedPlains(services: nat, rs: seq<Request>)
    requires services < BROADCAST_SID
    ensures Plains(Requests(Recorded(services, rs)))
         == if services + 1 + Plains(rs) < BROADCAST_SID then Plains(rs) else BROADCAST_SID - 1 - services
    decreases |rs|
  {
    if rs != [] {
      var n := |rs| - 1;
      RecordedPlains(services, rs[..n]);
      var fs := Recorded(services, rs);
      if Promise(services, rs, n) != 0 {
        assert fs[..|fs| - 1] == Recorded(services, rs[..n]);
        assert fs[..|fs|] == fs;
        PlainsStep(fs, |fs| - 1);
      }
    } else {
      assert Requests([]) == [];
    }
  }

  /** With the same service count, every recorded actor gets the id it was promised. */
  lemma {:induction false} PromiseIsKept(services: nat, rs: seq<Request>, i: nat)
    requires services < BROADCAST_SID && i < |Recorded(services, rs)|
    ensures Made(services, Recorded(services, rs), i) == Recorded(services, rs)[i].id != 0
    decreases |rs|
  {
    var n := |rs| - 1;
    var before := Recorded(services, rs[..n]);
    var fs := Recorded(services, rs);
    if i < |before| {
      PromiseIsKept(services, rs[..n], i);
      assert fs[..i] == before[..i];
    } else {
      RecordedPlains(services, rs[..n]);
      assert fs[..i] == before;
    }
  }

  /** With another count at start time than at call time, the promises are kept exactly
      when no plain actor was recorded. */
  lemma PromisesAreKeptIff(called: nat, started: nat, rs: seq<Request>)
    requires called <= started < BROADCAST_SID
    ensures var fs := Recorded(called, rs);
            (forall i :: 0 <= i < |fs| ==> Made(started, fs, i) == fs[i].id)
            <==> called == started || Plains(Requests(fs)) == 0
  {
    var fs := Recorded(called, rs);
    if Plains(Requests(fs)) > 0 {
      var i := FirstPlain(fs);
      PromiseIsKept(called, rs, i);
      assert called != started ==> Made(started, fs, i) != fs[i].id;
    }
    forall i | 0 <= i < |fs| && (called == started || Plains(Requests(fs)) == 0)
      ensures Made(started, fs, i) == fs[i].id
    {
      PromiseIsKept(called, rs, i);
      if Plains(Requests(fs)) == 0 {
        NoPlains(Requests(fs), i);
      }
    }
  }

  lemma {:induction false} NoPlains(rs: seq<Request>, i: nat)
    requires Plains(rs) == 0 && i < |rs|
    ensures rs[i].Service?
    decreases |rs|
  {
    if i < |rs| - 1 {
      NoPlains(rs[..|rs| - 1], i);
    }
  }

  lemma {:induction false} FirstPlain(fs: seq<Factory>) returns (i: nat)
    requires Plains(Requests(fs)) > 0
    ensures i < |fs| && fs[i].request.Plain? && Plains(Requests(fs[..i])) == 0
    decreases |fs|
  {
    assert |fs| > 0;
    var n := |fs| - 1;
    assert fs[..|fs|] == fs;
    PlainsStep(fs, n);
    if Plains(Requests(fs[..n])) > 0 {
      i := FirstPlain(fs[..n]);
      assert fs[..n][..i] == fs[..i];
    } else {
      i := n;
    }
  }

  /** The ids among what was promised. */
  function Ids(promised: seq<nat>): seq<nat>
    decreases |promised|
  {
    if promised == [] then []
    else
      var n := |promised| - 1;
      Ids(promised[..n]) + if promised[n] == 0 then [] else [promised[n]]
  }

  /** One factory is recorded per id promised, with that id, in the order of the calls. */
  lemma {:induction false} RecordedAsPromised(services: nat, rs: seq<Request>, promised: seq<nat>)
    requires |promised| == |rs| && forall i :: 0 <= i < |rs| ==> promised[i] == Promise(services, rs, i)
    ensures var fs := Recorded(services, rs);
            |fs| == |Ids(promised)| && forall i :: 0 <= i < |fs| ==> fs[i].id == Ids(promised)[i]
    decreases |rs|
  {
    if rs != [] {
      var n := |rs| - 1;
      forall i | 0 <= i < n
        ensures promised[..n][i] == Promise(services, rs[..n], i)
      {
        assert rs[..n][..i] == rs[..i];
      }
      RecordedAsPromised(services, rs[..n], promised[..n]);
    }
  }

  /** No id is promised twice. */
  lemma PromisedApart(services: nat, rs: seq<Request>, i: nat, j: nat)
    requires Numbered(services, rs) && i < j < |rs| && Promise(services, rs, i) == Promise(services, rs, j)
    ensures Promise(services, rs, i) == 0
  {
    PlainsAsked(rs, i + 1, j);
    assert rs[..i + 1][..i] == rs[..i];
    assert rs[i] in rs[..j] by {
      assert rs[..j][i] == rs[i];
    }
  }

  lemma {:induction false} PlainsAsked(rs: seq<Request>, i: nat, j: nat)
    requires i <= j <= |rs|
    ensures Plains(rs[..i]) <= Plains(rs[..j])
    decreases j
  {
    if i < j {
      PlainsAsked(rs, i, j - 1);
      assert rs[..j][..j - 1] == rs[..j - 1];
    }
  }

  /** What is recorded may be run: services are numbered and none is recorded twice. */
  lemma {:induction false} RecordedRuns(services: nat, rs: seq<Request>)
    requires Numbered(services, rs)
    ensures var fs := Recorded(services, rs);
            Distinct(services, fs) && forall i :: 0 <= i < |fs| ==> fs[i].request in rs
    decreases |rs|
  {
    if rs != [] {
      var n := |rs| - 1;
      assert rs == rs[..n] + [rs[n]];
      RecordedRuns(services, rs[..n]);
    }
  }

  /** A list of calls made before the start. */
  method AddAll(services: nat, rs: seq<Request>) returns (promised: seq<nat>, init: CoreInitializer)
    requires services < BROADCAST_SID && Numbered(services, rs)
    ensures fresh(init) && init.Valid() && init.services == services && init.asked == rs
    ensures |promised| == |rs| && forall i :: 0 <= i < |rs| ==> promised[i] == Promise(services, rs, i)
  {
    init := new CoreInitializer(services);
    promised := [];
    while |promised| < |rs|
      invariant fresh(init) && init.Valid() && init.services == services
      invariant |promised| <= |rs| && init.asked == rs[..|promised|]
      invariant forall i :: 0 <= i < |promised| ==> promised[i] == Promise(services, rs, i)
    {
      var n := |promised|;
      var id := init.AddActor(rs[n]);
      assert rs[..n + 1] == rs[..n] + [rs[n]];
      assert rs[..n + 1][..n] == rs[..n];
      assert id == Promise(services, rs, n);
      promised := promised + [id];
    }
    assert rs[..|rs|] == rs;
  }

  /** The whole start sequence of one core: every promised id is the id the actor gets, all
      the factories run, and the counter refuses one more plain actor exactly when the pool
      is exhausted. */
  method Boot(services: nat, rs: seq<Request>)
      returns (promised: seq<nat>, made: seq<nat>, full: bool, exhausted: bool)
    requires services < BROADCAST_SID && Numbered(services, rs)
    ensures |promised| == |rs| && forall i :: 0 <= i < |rs| ==> promised[i] == Promise(services, rs, i)
    ensures made == Ids(promised) && (forall i :: 0 <= i < |made| ==> made[i] != 0)
    ensures forall i, j :: 0 <= i < j < |rs| && promised[i] == promised[j] ==> promised[i] == 0
    ensures full == exhausted == (services + 1 + Plains(rs) >= BROADCAST_SID)
  {
    var init: CoreInitializer;
    var pool: ServiceIdPool;
    promised, init := AddAll(services, rs);
    var fs := init.factories;
    RecordedRuns(services, rs);
    made, pool := RunFactories(services, fs);
    forall i | 0 <= i < |fs|
      ensures Made(services, fs, i) == fs[i].id != 0
    {
      PromiseIsKept(services, rs, i);
    }
    RecordedPlains(services, rs);
    RecordedAsPromised(services, rs, promised);
    forall i, j | 0 <= i < j < |rs| && promised[i] == promised[j]
      ensures promised[i] == 0
    {
      PromisedApart(services, rs, i, j);
    }
    assert fs[..|fs|] == fs;
    full := init.nextId == BROADCAST_SID;
    exhausted := pool.Empty();
    assert !full ==> init.nextId in pool.Free();
  }
}
