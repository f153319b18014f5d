/**
 The classes around the workspace cache: move-only payload objects, the cache that hands
 them out and takes them back, and the lease.  Every live payload object is registered
 with its cache, so the state of the machine of atomic steps can be read off the objects;
 every method is one or more of those steps by one thread.
 */
module WorkspaceCache {
  import opened WorkspaceSteps
  import opened Text

  /** What answers a request: a payload found in the per-stream cache, or else new memory and a new event. */
  datatype Answer = Answer(hit: Option<Mem>, data: Buffer, ready: Event)

  /** The payload that `get` returns. */
  function Given(kind: Kind, req: Req, a: Answer): Option<Mem> {
    if req.size == 0 then None
    else if a.hit.Some? then a.hit
    else Some(Mem(kind, a.data, req, a.ready))
  }

  /** The interface contract of the per-stream cache, the allocator and event creation. */
  predicate Admissible(s: State, kind: Kind, req: Req, a: Answer) {
    match a.hit
    case Some(m) => m in s.cached && Fits(m, kind, req)
    case None => a.data !in s.allocs && a.ready !in s.created
  }

  /** What one `get` into the new object `o` comes to. */
  function Get(s: State, kind: Kind, req: Req, a: Answer, o: Obj): State {
    var s1 := s.(objs := s.objs[o := Given(kind, req, a)]);
    if req.size == 0 then s1
    else
      var s2 := s1.(outstanding := s1.outstanding.Add(kind, 1));
      match a.hit
      case Some(m) => s2.(cached := s2.cached - {m})
      case None => s2.(allocs := s2.allocs[a.data := FreeCall(kind, a.data, req)], created := s2.created + {a.ready})
  }

  /** What one `put` of the object `o` comes to, if it holds a payload. */
  function Put(s: State, o: Obj): State
    requires o in s.objs
  {
    match s.objs[o]
    case None => s
    case Some(m) => s.(cached := s.cached + {m}, objs := s.objs[o := None], outstanding := s.outstanding.Add(m.kind, -1))
  }

  /** A get is a new empty object, or the counter and then a payload. */
  lemma GetIsSteps(s: State, t: Thread, kind: Kind, req: Req, a: Answer, o: Obj)
    requires t !in s.pcs && o !in s.objs && Admissible(s, kind, req, a)
    ensures req.size == 0 ==>
              Enabled(s, NewObj(o)) && Given(kind, req, a) == None && Apply(s, NewObj(o)) == Get(s, kind, req, a, o)
    ensures req.size > 0 ==>
              && Enabled(s, BeginGet(t, kind, req))
              && var s1 := Apply(s, BeginGet(t, kind, req));
                 && t in s1.pcs && s1.pcs[t] == Counted(kind, req)
                 && (match a.hit
                     case Some(m) =>
                       && Given(kind, req, a) == Some(m) && Enabled(s1, Take(t, m, o))
                       && Apply(s1, Take(t, m, o)) == Get(s, kind, req, a, o)
                     case None =>
                       && Given(kind, req, a) == Some(Mem(kind, a.data, req, a.ready)) && Enabled(s1, Create(t, a.data, a.ready, o))
                       && Apply(s1, Create(t, a.data, a.ready, o)) == Get(s, kind, req, a, o))
  {
    assert s.pcs[t := Counted(kind, req)] - {t} == s.pcs;
  }

  /** A put of a payload is the store and then the counter. */
  lemma PutIsSteps(s: State, t: Thread, o: Obj)
    requires t !in s.pcs && o in s.objs && s.objs[o].Some?
    ensures Enabled(s, Store(t, o)) && Enabled(Apply(s, Store(t, o)), EndPut(t))
    ensures Apply(Apply(s, Store(t, o)), EndPut(t)) == Put(s, o)
  {
    assert s.pcs[t := Stored(s.objs[o].value.kind)] - {t} == s.pcs;
  }

  /** A get keeps the books, and no object holds the payload it returns. */
  lemma GetKeepsInv(s: State, t: Thread, kind: Kind, req: Req, a: Answer, o: Obj)
    requires Inv(s) && t !in s.pcs && o !in s.objs && Admissible(s, kind, req, a)
    ensures Inv(Get(s, kind, req, a, o))
    ensures Given(kind, req, a).Some? ==> Given(kind, req, a).value !in Held(s)
  {
    hide *;
    GetIsSteps(s, t, kind, req, a, o);
    if req.size == 0 {
      StepKeepsInv(s, NewObj(o));
    } else {
      var s1 := Apply(s, BeginGet(t, kind, req));
      NotHeldYet(s, kind, req, a);
      StepKeepsInv(s, BeginGet(t, kind, req));
      StepKeepsInv(s1, if a.hit.Some? then Take(t, a.hit.value, o) else Create(t, a.data, a.ready, o));
    }
  }

  /** What one get does: for size 0 a new empty object and nothing else.  Otherwise one more payload counted for the kind, and the
      object holds a payload that is large enough and aligned enough, in no cache and no other object: the one found, or memory
      and an event that are new and exactly as asked for. */
  lemma GetEffect(s: State, kind: Kind, req: Req, a: Answer, o: Obj)
    requires Inv(s) && o !in s.objs && Admissible(s, kind, req, a)
    ensures var s' := Get(s, kind, req, a, o);
            && s'.freed == s.freed && s'.pool == s.pool && s'.destroyed == s.destroyed && s'.dropped == s.dropped && s'.pcs == s.pcs
            && (req.size == 0 ==> s' == s.(objs := s.objs[o := None]))
            && (req.size > 0 ==>
                 && o in s'.objs && s'.objs[o].Some?
                 && var m := s'.objs[o].value;
                    && s'.objs == s.objs[o := Some(m)]
                    && m.kind == kind && m.req.size >= req.size && m.req.alignment >= req.alignment
                    && m !in s'.cached && m !in Held(s)
                    && (forall k: Kind :: s'.outstanding.At(k) == s.outstanding.At(k) + if k == kind then 1 else 0)
                    && (a.hit.Some? ==>
                         && m == a.hit.value && m in s.cached && s'.cached == s.cached - {m}
                         && s'.allocs == s.allocs && s'.created == s.created)
                    && (a.hit.None? ==>
                         && m.data !in s.allocs && m.ready !in s.created && m.req == req && s'.cached == s.cached
                         && s'.allocs == s.allocs[m.data := FreeCall(kind, m.data, req)] && s'.created == s.created + {m.ready}))
  {
    if req.size > 0 {
      NotHeldYet(s, kind, req, a);
      if a.hit.None? { NotCachedYet(s, kind, req, a); }
    }
    hide Inv, Held;
  }

  lemma NotCachedYet(s: State, kind: Kind, req: Req, a: Answer)
    requires Inv(s) && Admissible(s, kind, req, a) && req.size > 0 && a.hit.None?
    ensures Given(kind, req, a).value !in s.cached
  {
    assert s.cached <= Live(s);
    hide HeldBy, CounterInv, EventInv;
  }

  lemma NotHeldYet(s: State, kind: Kind, req: Req, a: Answer)
    requires Inv(s) && Admissible(s, kind, req, a) && req.size > 0
    ensures Given(kind, req, a).value !in Held(s)
  {
    assert Held(s) <= Live(s);
    hide HeldBy, CounterInv, EventInv;
  }

  lemma PutKeepsInv(s: State, t: Thread, o: Obj)
    requires Inv(s) && t !in s.pcs && o in s.objs
    ensures Inv(Put(s, o))
  {
    if s.objs[o].Some? {
      PutIsSteps(s, t, o);
      StepKeepsInv(s, Store(t, o));
      StepKeepsInv(Apply(s, Store(t, o)), EndPut(t));
    }
    hide Inv, Apply, Enabled;
  }

  // ------------------------------------------------------------------- leases

  /** One thing for each kind. */
  datatype Trio<T> = Trio(host: T, pinned: T, cuda: T) {
    function At(k: Kind): T {
      match k case Host => host case Pinned => pinned case Cuda => cuda
    }
  }

  predicate Distinct(x: Trio<nat>) {
    x.host != x.pinned && x.host != x.cuda && x.pinned != x.cuda
  }

  /** A request for a kind and what answers it. */
  datatype Ask = Ask(req: Req, a: Answer)

  /** The answers are admissible, and what is newly made for one kind is not also made for another. */
  predicate Answerable(s: State, asks: Trio<Ask>) {
    && (forall k: Kind :: Admissible(s, k, asks.At(k).req, asks.At(k).a))
    && Distinct(Trio(asks.host.a.data, asks.pinned.a.data, asks.cuda.a.data))
    && Distinct(Trio(asks.host.a.ready, asks.pinned.a.ready, asks.cuda.a.ready))
  }

  function Part(k: Kind, asks: Trio<Ask>): Option<Mem> {
    Given(k, asks.At(k).req, asks.At(k).a)
  }

  /** Three gets, one for each kind, into the objects of a lease. */
  function Leased(s: State, asks: Trio<Ask>, own: Trio<Obj>): State {
    Get(Get(Get(s, Host, asks.host.req, asks.host.a, own.host),
            Pinned, asks.pinned.req, asks.pinned.a, own.pinned),
        Cuda, asks.cuda.req, asks.cuda.a, own.cuda)
  }

  /** A get for one kind disturbs the answers for no other. */
  lemma StillAdmissible(s: State, kind: Kind, req: Req, a: Answer, o: Obj, kind': Kind, req': Req, a': Answer)
    requires Admissible(s, kind, req, a) && Admissible(s, kind', req', a')
    requires kind != kind' && a.data != a'.data && a.ready != a'.ready
    ensures Admissible(Get(s, kind, req, a, o), kind', req', a') && Get(s, kind, req, a, o).pcs == s.pcs
  {
  }

  lemma LeaseAdmissible(s: State, asks: Trio<Ask>, own: Trio<Obj>)
    requires Answerable(s, asks)
    ensures Admissible(s, Host, asks.host.req, asks.host.a)
    ensures var s1 := Get(s, Host, asks.host.req, asks.host.a, own.host);
            && s1.pcs == s.pcs && Admissible(s1, Pinned, asks.pinned.req, asks.pinned.a)
            && var s2 := Get(s1, Pinned, asks.pinned.req, asks.pinned.a, own.pinned);
               s2.pcs == s.pcs && Admissible(s2, Cuda, asks.cuda.req, asks.cuda.a)
  {
    assert forall k: Kind :: Admissible(s, k, asks.At(k).req, asks.At(k).a);
    assert asks.At(Host) == asks.host && asks.At(Pinned) == asks.pinned && asks.At(Cuda) == asks.cuda;
    hide Admissible, Get;
    StillAdmissible(s, Host, asks.host.req, asks.host.a, own.host, Pinned, asks.pinned.req, asks.pinned.a);
    StillAdmissible(s, Host, asks.host.req, asks.host.a, own.host, Cuda, asks.cuda.req, asks.cuda.a);
    var s1 := Get(s, Host, asks.host.req, asks.host.a, own.host);
    StillAdmissible(s1, Pinned, asks.pinned.req, asks.pinned.a, own.pinned, Cuda, asks.cuda.req, asks.cuda.a);
  }

  /** What the three gets change: one object and at most one count for each kind, and nothing that was freed. */
  lemma LeaseShape(s: State, asks: Trio<Ask>, own: Trio<Obj>)
    ensures var s' := Leased(s, asks, own);
            && s'.objs == s.objs[own.host := Part(Host, asks)][own.pinned := Part(Pinned, asks)][own.cuda := Part(Cuda, asks)]
            && s'.pcs == s.pcs && s'.dropped == s.dropped && s'.freed == s.freed && s'.pool == s.pool
            && (forall k: Kind :: s'.outstanding.At(k) == s.outstanding.At(k) + if asks.At(k).req.size > 0 then 1 else 0)
  {
    hide Get, Given;
    var s1 := Get(s, Host, asks.host.req, asks.host.a, own.host);
    var s2 := Get(s1, Pinned, asks.pinned.req, asks.pinned.a, own.pinned);
    GetShape(s, Host, asks.host.req, asks.host.a, own.host);
    GetShape(s1, Pinned, asks.pinned.req, asks.pinned.a, own.pinned);
    GetShape(s2, Cuda, asks.cuda.req, asks.cuda.a, own.cuda);
  }

  lemma GetShape(s: State, kind: Kind, req: Req, a: Answer, o: Obj)
    ensures var s' := Get(s, kind, req, a, o);
            && s'.objs == s.objs[o := Given(kind, req, a)]
            && s'.pcs == s.pcs && s'.dropped == s.dropped && s'.freed == s.freed && s'.pool == s.pool
            && (forall k: Kind :: s'.outstanding.At(k) == s.outstanding.At(k) + if k == kind && req.size > 0 then 1 else 0)
  {
    hide Given;
  }

  /** A lease: its parts are of their kinds and fit, different from each other and from everything held before; a part is
      empty iff nothing was asked for its kind; each counter rises by one for each part. */
  lemma LeaseEffect(s: State, t: Thread, asks: Trio<Ask>, own: Trio<Obj>)
    requires Inv(s) && t !in s.pcs && Answerable(s, asks)
    requires Distinct(own) && own.host !in s.objs && own.pinned !in s.objs && own.cuda !in s.objs
    ensures var s' := Leased(s, asks, own);
            && Inv(s')
            && (forall k: Kind :: own.At(k) in s'.objs && s'.objs[own.At(k)] == Part(k, asks))
            && (forall k: Kind :: s'.outstanding.At(k) == s.outstanding.At(k) + if Part(k, asks).Some? then 1 else 0)
            && s'.dropped == s.dropped && s'.freed == s.freed
    ensures forall k: Kind :: Part(k, asks).None? <==> asks.At(k).req.size == 0
    ensures forall k: Kind :: Part(k, asks).Some? ==>
              var m, req := Part(k, asks).value, asks.At(k).req;
              m.kind == k && m.req.size >= req.size && m.req.alignment >= req.alignment && m !in Held(s)
    ensures forall k, k': Kind :: Part(k, asks).Some? && Part(k', asks).Some? && Part(k, asks) == Part(k', asks) ==> k == k'
  {
    hide Inv, Leased, Admissible, HeldBy, Given, Fits, Answerable;
    LeaseShape(s, asks, own);
    PartsFit(s, asks);
    LeaseKeepsInv(s, t, asks, own);
    forall k: Kind ensures Part(k, asks).Some? ==> Part(k, asks).value !in Held(s) {
      PartNotHeld(s, asks, k);
    }
    forall k: Kind ensures own.At(k) in Leased(s, asks, own).objs && Leased(s, asks, own).objs[own.At(k)] == Part(k, asks) {
    }
    forall k: Kind ensures Part(k, asks).Some? ==>
        var m, req := Part(k, asks).value, asks.At(k).req; m.kind == k && m.req.size >= req.size && m.req.alignment >= req.alignment
    {
      if Part(k, asks).Some? { FitsMeans(Part(k, asks).value, k, asks.At(k).req); }
    }
  }

  lemma FitsMeans(m: Mem, kind: Kind, req: Req)
    ensures Fits(m, kind, req) <==> m.kind == kind && m.req.size >= req.size && m.req.alignment >= req.alignment
  {
  }

  lemma PartNotHeld(s: State, asks: Trio<Ask>, k: Kind)
    requires Inv(s) && Answerable(s, asks)
    ensures Part(k, asks).Some? ==> Part(k, asks).value !in Held(s)
  {
    assert Admissible(s, k, asks.At(k).req, asks.At(k).a);
    hide Inv, HeldBy, Admissible;
    if Part(k, asks).Some? { NotHeldYet(s, k, asks.At(k).req, asks.At(k).a); }
  }

  lemma PartsFit(s: State, asks: Trio<Ask>)
    requires Answerable(s, asks)
    ensures forall k: Kind :: Part(k, asks).None? <==> asks.At(k).req.size == 0
    ensures forall k: Kind :: Part(k, asks).Some? ==> Fits(Part(k, asks).value, k, asks.At(k).req)
    ensures forall k, k': Kind :: Part(k, asks).Some? && Part(k', asks).Some? && Part(k, asks) == Part(k', asks) ==> k == k'
  {
    forall k: Kind ensures Part(k, asks).Some? ==> Fits(Part(k, asks).value, k, asks.At(k).req) {
      assert Admissible(s, k, asks.At(k).req, asks.At(k).a);
    }
  }

  lemma LeaseKeepsInv(s: State, t: Thread, asks: Trio<Ask>, own: Trio<Obj>)
    requires Inv(s) && t !in s.pcs && Answerable(s, asks)
    requires Distinct(own) && own.host !in s.objs && own.pinned !in s.objs && own.cuda !in s.objs
    ensures Inv(Leased(s, asks, own))
  {
    LeaseAdmissible(s, asks, own);
    var s1 := Get(s, Host, asks.host.req, asks.host.a, own.host);
    var s2 := Get(s1, Pinned, asks.pinned.req, asks.pinned.a, own.pinned);
    assert own.pinned !in s1.objs && own.cuda !in s2.objs;
    hide Inv, Get, Admissible;
    GetKeepsInv(s, t, Host, asks.host.req, asks.host.a, own.host);
    GetKeepsInv(s1, t, Pinned, asks.pinned.req, asks.pinned.a, own.pinned);
    GetKeepsInv(s2, t, Cuda, asks.cuda.req, asks.cuda.a, own.cuda);
  }

  /** Three puts, one for each object of a lease. */
  function Released(s: State, own: Trio<Obj>): State
    requires own.host in s.objs && own.pinned in s.objs && own.cuda in s.objs
  {
    Put(Put(Put(s, own.host), own.pinned), own.cuda)
  }

  ghost function PayloadSet(part: Option<Mem>): set<Mem> {
    if part.Some? then {part.value} else {}
  }

  /** The objects of a lease are three, and each holds nothing or a payload of its kind. */
  predicate OwnParts(s: State, own: Trio<Obj>) {
    && Distinct(own)
    && own.host in s.objs && (s.objs[own.host].Some? ==> s.objs[own.host].value.kind == Host)
    && own.pinned in s.objs && (s.objs[own.pinned].Some? ==> s.objs[own.pinned].value.kind == Pinned)
    && own.cuda in s.objs && (s.objs[own.cuda].Some? ==> s.objs[own.cuda].value.kind == Cuda)
  }

  /** Releasing gives exactly the non-empty parts back to the caches and lowers the counters by them; it frees nothing and returns no event to the pool. */
  lemma ReleaseEffect(s: State, t: Thread, own: Trio<Obj>)
    requires Inv(s) && t !in s.pcs && OwnParts(s, own)
    ensures var s' := Released(s, own);
            && Inv(s')
            && s'.objs == s.objs[own.host := None][own.pinned := None][own.cuda := None]
            && s'.cached == s.cached + PayloadSet(s.objs[own.host]) + PayloadSet(s.objs[own.pinned]) + PayloadSet(s.objs[own.cuda])
            && s'.pcs == s.pcs && s'.dropped == s.dropped && s'.freed == s.freed && s'.pool == s.pool
            && s'.outstanding.At(Host) == s.outstanding.At(Host) - (if s.objs[own.host].Some? then 1 else 0)
            && s'.outstanding.At(Pinned) == s.outstanding.At(Pinned) - (if s.objs[own.pinned].Some? then 1 else 0)
            && s'.outstanding.At(Cuda) == s.outstanding.At(Cuda) - (if s.objs[own.cuda].Some? then 1 else 0)
  {
    hide Inv, Put, PayloadSet;
    PutShape(s, own.host);
    var s1 := Put(s, own.host);
    PutShape(s1, own.pinned);
    var s2 := Put(s1, own.pinned);
    PutShape(s2, own.cuda);
    PutKeepsInv(s, t, own.host);
    PutKeepsInv(s1, t, own.pinned);
    PutKeepsInv(s2, t, own.cuda);
  }

  lemma PutShape(s: State, o: Obj)
    requires o in s.objs
    ensures var s' := Put(s, o);
            && s'.objs == s.objs[o := None] && s'.cached == s.cached + PayloadSet(s.objs[o])
            && s'.pcs == s.pcs && s'.dropped == s.dropped && s'.freed == s.freed && s'.pool == s.pool
            && forall k: Kind :: s'.outstanding.At(k) == s.outstanding.At(k) - if HoldsKind(s.objs[o], k) then 1 else 0
  {
  }

  // ------------------------------------------------------------------- the classes

  class WorkspaceCache {
    var outstanding: Tally
    var cached: set<Mem>
    var allocs: map<Buffer, FreeCall>
    var freed: multiset<FreeCall>
    var created: set<Event>
    var pool: set<Event>
    var destroyed: set<Event>
    ghost var objs: map<Obj, Option<Mem>>               // what each live payload object holds
    ghost var owner: map<Obj, CachedWorkspaceMem>       // the payload object of each identity
    ghost var next: Obj                                 // the next identity
    ghost var pcs: map<Thread, Pc>
    ghost var dropped: Tally

    ghost function View(): State
      reads this
    {
      State(outstanding, cached, objs, pcs, dropped, allocs, freed, created, pool, destroyed)
    }

    /** Every live payload object has its own identity. */
    ghost predicate Registry()
      reads this
    {
      forall o :: o in View().objs ==> o in owner && o < next
    }

    /** Counters, linear ownership and events are in order. */
    ghost predicate Valid()
      reads this
    {
      Registry() && Inv(View())
    }

    constructor ()
      ensures Valid() && View() == Init
    {
      outstanding, dropped := Tally(0, 0, 0), Tally(0, 0, 0);
      cached, pcs, allocs, freed := {}, map[], map[], multiset{};
      created, pool, destroyed := {}, {}, {};
      objs, owner, next := map[], map[], 0;
      new;
      InitInv();
    }

    /** The deleter that `create` gives to a payload: free the memory, return the event. */
    method Delete(m: Mem)
      requires Registry()
      modifies this`freed, this`pool, this`dropped
      ensures View() == old(View()).(freed := old(View()).freed + multiset{CallOf(m)}, pool := old(View()).pool + {m.ready},
                                     dropped := old(View()).dropped.Add(m.kind, 1))
      ensures Registry()
      ensures forall x: CachedWorkspaceMem :: old(allocated(x)) && old(x.IsOf(this)) ==> x.IsOf(this)
    {
      freed := freed + multiset{FreeCall(m.kind, m.data, m.req)};
      pool := pool + {m.ready};
      dropped := dropped.Add(m.kind, 1);
    }

    /** `WorkspaceMemCache::get`. */
    method GetMem(ghost t: Thread, kind: Kind, req: Req, a: Answer) returns (mem: CachedWorkspaceMem)
      requires Valid() && t !in View().pcs && Admissible(View(), kind, req, a)
      modifies this
      ensures Valid() && fresh(mem) && mem.IsOf(this) && mem.id == old(next) && next == old(next) + 1
      ensures forall x: CachedWorkspaceMem :: old(allocated(x)) && old(x.IsOf(this)) ==> x.IsOf(this)
      ensures mem.mem == Given(kind, req, a)
      ensures View() == Get(old(View()), kind, req, a, mem.id)
    {
      hide *;
      ghost var s := View();
      ValidIs();
      NextIsNew();
      GetIsSteps(s, t, kind, req, a, next);
      GetKeepsInv(s, t, kind, req, a, next);
      if req.size == 0 {
        mem := new CachedWorkspaceMem.Empty(this);
      } else {
        Count(t, kind, req);
        if a.hit.Some? {
          mem := new CachedWorkspaceMem.FromCache(this, t, a.hit.value);
        } else {
          mem := CreateMem(t, kind, req, a.data, a.ready);
        }
      }
      ValidIs();
    }

    /** `++m_outstandingAllocs` at the beginning of `get`. */
    method Count(ghost t: Thread, kind: Kind, req: Req)
      requires Registry() && Enabled(View(), BeginGet(t, kind, req))
      modifies this`outstanding, this`pcs
      ensures View() == Apply(old(View()), BeginGet(t, kind, req))
      ensures Registry() && forall x: CachedWorkspaceMem :: old(allocated(x)) && old(x.IsOf(this)) ==> x.IsOf(this)
    {
      outstanding := outstanding.Add(kind, 1);
      pcs := pcs[t := Counted(kind, req)];
    }

    /** A fitting payload leaves the per-stream cache. */
    method PickUp(ghost t: Thread, m: Mem)
      requires Registry()
      modifies this`cached, this`pcs
      ensures View() == old(View()).(cached := old(View()).cached - {m}, pcs := old(View()).pcs - {t})
      ensures Registry() && forall x: CachedWorkspaceMem :: old(allocated(x)) && old(x.IsOf(this)) ==> x.IsOf(this)
    {
      cached := cached - {m};
      pcs := pcs - {t};
    }

    /** A new event and new memory. */
    method Allocate(ghost t: Thread, m: Mem)
      requires Registry()
      modifies this`created, this`allocs, this`pcs
      ensures View() == old(View()).(allocs := old(View()).allocs[m.data := CallOf(m)], created := old(View()).created + {m.ready},
                                     pcs := old(View()).pcs - {t})
      ensures Registry() && forall x: CachedWorkspaceMem :: old(allocated(x)) && old(x.IsOf(this)) ==> x.IsOf(this)
    {
      created := created + {m.ready};
      allocs := allocs[m.data := CallOf(m)];
      pcs := pcs - {t};
    }

    /** A new object of the cache gets the next identity. */
    ghost method Register(o: CachedWorkspaceMem)
      requires Registry() && o.cache == this && o.id == next
      modifies this`objs, this`owner, this`next
      ensures View() == old(View()).(objs := old(View()).objs[o.id := o.mem]) && next == old(next) + 1
      ensures Registry() && o.IsOf(this)
      ensures forall x: CachedWorkspaceMem :: old(allocated(x)) && old(x.IsOf(this)) ==> x.IsOf(this)
    {
      objs, owner, next := objs[o.id := o.mem], owner[o.id := o], next + 1;
    }

    /** An empty object is gone. */
    ghost method Unregister(o: CachedWorkspaceMem)
      requires Registry() && o.IsOf(this)
      modifies this`objs
      ensures View() == old(View()).(objs := old(View()).objs - {o.id}) && Registry()
      ensures forall x: CachedWorkspaceMem :: old(allocated(x)) && old(x.IsOf(this)) && x != o ==> x.IsOf(this)
    {
      objs := objs - {o.id};
    }

    lemma NextIsNew()
      requires Registry()
      ensures next !in View().objs && forall o :: o in View().objs ==> o < next
    {
    }

    lemma ValidIs()
      ensures Valid() <==> Registry() && Inv(View())
    {
      hide Inv, Registry;
    }

    /** `WorkspaceMemCache::create`: an event, the memory, and the payload that owns both. */
    method CreateMem(ghost t: Thread, kind: Kind, req: Req, data: Buffer, ready: Event) returns (mem: CachedWorkspaceMem)
      requires Registry() && t in View().pcs && View().pcs[t] == Counted(kind, req) && Enabled(View(), Create(t, data, ready, next))
      modifies this
      ensures Registry() && fresh(mem) && mem.IsOf(this) && mem.id == old(next) && next == old(next) + 1
      ensures forall x: CachedWorkspaceMem :: old(allocated(x)) && old(x.IsOf(this)) ==> x.IsOf(this)
      ensures mem.mem == Some(Mem(kind, data, req, ready))
      ensures View() == Apply(old(View()), Create(t, data, ready, mem.id))
    {
      mem := new CachedWorkspaceMem.Created(this, t, kind, req, data, ready);
    }

    /** `WorkspaceMemCache::put`: the payload is moved into the cache, then the counter goes down. */
    method PutMem(ghost t: Thread, mem: CachedWorkspaceMem)
      requires Valid() && mem.IsOf(this) && t !in View().pcs && mem.mem.Some?
      modifies mem`mem, this`cached, this`objs, this`pcs, this`outstanding
      ensures Valid() && mem.mem == None
      ensures forall x: CachedWorkspaceMem :: old(allocated(x)) && old(x.IsOf(this)) ==> x.IsOf(this)
      ensures View() == Put(old(View()), mem.id)
    {
      hide *;
      ghost var s := View();
      ValidIs();
      mem.Known(this);
      PutIsSteps(s, t, mem.id);
      PutKeepsInv(s, t, mem.id);
      StoreIs(s, t, mem.id);
      var kind := mem.mem.value.kind;
      Keep(t, mem);
      Uncount(t, kind);
      ValidIs();
    }

    /** `m_memCache.put` */
    method Keep(ghost t: Thread, mem: CachedWorkspaceMem)
      requires Registry() && mem.IsOf(this) && mem.mem.Some? && Enabled(View(), Store(t, mem.id))
      modifies mem`mem, this`cached, this`objs, this`pcs
      ensures View() == Apply(old(View()), Store(t, mem.id)) && mem.mem == None
      ensures Registry()
      ensures forall x: CachedWorkspaceMem :: old(allocated(x)) && old(x.IsOf(this)) ==> x.IsOf(this)
    {
      hide Apply;
      mem.Known(this);
      StoreIs(View(), t, mem.id);
      cached := cached + {mem.mem.value};
      pcs := pcs[t := Stored(mem.mem.value.kind)];
      mem.mem := None;
      hide *;
      Book(mem);
    }

    /** `--m_outstandingAllocs` at the end of `put`. */
    method Uncount(ghost t: Thread, kind: Kind)
      requires Registry() && Enabled(View(), EndPut(t)) && View().pcs[t] == Stored(kind)
      modifies this`outstanding, this`pcs
      ensures View() == Apply(old(View()), EndPut(t))
      ensures Registry()
      ensures forall x: CachedWorkspaceMem :: old(allocated(x)) && old(x.IsOf(this)) ==> x.IsOf(this)
    {
      outstanding := outstanding.Add(kind, -1);
      pcs := pcs - {t};
    }

    /** The books follow an object whose contents changed. */
    ghost method Book(o: CachedWorkspaceMem)
      requires Registry() && o.cache == this && o.id in View().objs && o.id in owner && owner[o.id] == o
      modifies this`objs
      ensures View() == old(View()).(objs := old(View()).objs[o.id := o.mem])
      ensures Registry() && o.IsOf(this)
      ensures forall x: CachedWorkspaceMem :: old(allocated(x)) && old(x.IsOf(this)) ==> x.IsOf(this)
    {
      objs := objs[o.id := o.mem];
    }

    /** `WorkspaceMemCache::clear`; `idle` is what its debug build asserts. */
    method PurgeKind(kind: Kind) returns (idle: bool)
      requires Valid()
      modifies this`freed, this`pool, this`cached
      ensures Valid() && View() == Apply(old(View()), Purge(kind))
      ensures idle <==> outstanding.At(kind) == 0
    {
      hide Inv, OfKind, Calls, Events, Apply;
      ghost var s := View();
      StepKeepsInv(s, Purge(kind));
      PurgeIs(s, kind);
      idle := outstanding.At(kind) == 0;
      var ms := OfKind(cached, kind);
      freed := freed + multiset(Calls(ms));
      pool := pool + Events(ms);
      cached := cached - ms;
    }

    /** `eventCache->purge()` */
    method PurgeEvents()
      requires Valid()
      modifies this`pool, this`destroyed
      ensures Valid() && View() == Apply(old(View()), PurgePool)
    {
      hide Inv, Apply;
      ghost var s := View();
      StepKeepsInv(s, PurgePool);
      PoolIs(s);
      destroyed := destroyed + pool;
      pool := {};
    }

    /** `WorkspaceCache::clear`: three caches, then the event pool; `idle` is what the debug build asserts on the way. */
    method ClearAll() returns (idle: bool)
      requires Valid()
      modifies this`freed, this`pool, this`cached, this`destroyed
      ensures Valid() && View() == Clear(old(View()))
      ensures idle <==> forall k: Kind :: outstanding.At(k) == 0
    {
      hide *;
      ghost var s := View();
      var cuda := PurgeKind(Cuda);
      var pinned := PurgeKind(Pinned);
      var host := PurgeKind(Host);
      PurgeEvents();
      ClearIs(s);
      idle := cuda && pinned && host;
      AllKinds(outstanding);
    }

    /** The arguments of the lease's constructor: one get for each kind. */
    method GetParts(ghost t: Thread, asks: Trio<Ask>) returns (h: CachedWorkspaceMem, p: CachedWorkspaceMem, c: CachedWorkspaceMem)
      requires Valid() && t !in View().pcs && Answerable(View(), asks)
      modifies this
      ensures Valid() && fresh(h) && fresh(p) && fresh(c) && h.IsOf(this) && p.IsOf(this) && c.IsOf(this)
      ensures h != p && h != c && p != c && Kinds(h.mem, p.mem, c.mem)
      ensures h.id == old(next) && p.id == old(next) + 1 && c.id == old(next) + 2 && next == old(next) + 3
      ensures h.mem == Part(Host, asks) && p.mem == Part(Pinned, asks) && c.mem == Part(Cuda, asks)
      ensures View() == Leased(old(View()), asks, Trio(h.id, p.id, c.id))
    {
      hide *;
      ghost var s := View();
      LeaseAdmissible(s, asks, Trio(next, next + 1, next + 2));
      LeasedIs(s, asks, Trio(next, next + 1, next + 2));
      h := GetMem(t, Host, asks.host.req, asks.host.a);
      p := GetMem(t, Pinned, asks.pinned.req, asks.pinned.a);
      c := GetMem(t, Cuda, asks.cuda.req, asks.cuda.a);
      PartKinds(s, asks);
    }

    /** The emptied temporaries end. */
    method EndParts(h: CachedWorkspaceMem, p: CachedWorkspaceMem, c: CachedWorkspaceMem)
      requires Valid() && h.IsOf(this) && p.IsOf(this) && c.IsOf(this) && h != p && h != c && p != c
      requires h.mem == p.mem == c.mem == None
      modifies h`mem, p`mem, c`mem, this`freed, this`pool, this`dropped, this`objs
      ensures Valid() && View() == Ended(old(View()), Trio(h.id, p.id, c.id))
      ensures forall x: CachedWorkspaceMem :: old(allocated(x)) && old(x.IsOf(this)) && x != h && x != p && x != c ==> x.IsOf(this)
    {
      hide *;
      EndedIs(View(), h.id, p.id, c.id);
      h.Known(this);
      p.Known(this);
      c.Known(this);
      h.End();
      p.End();
      c.End();
    }

    /** `WorkspaceCache::get`: the parts are moved into the lease, and the emptied temporaries end. */
    method Lease(ghost t: Thread, asks: Trio<Ask>) returns (lease: WorkspaceLease)
      requires Valid() && t !in View().pcs && Answerable(View(), asks)
      modifies this
      ensures Valid() && fresh(lease) && lease.cache == this && lease.Valid()
      ensures fresh(lease.host) && fresh(lease.pinned) && fresh(lease.cuda)
      ensures lease.host.mem == Part(Host, asks) && lease.pinned.mem == Part(Pinned, asks) && lease.cuda.mem == Part(Cuda, asks)
      ensures View() == Leased(old(View()), asks, lease.Own())
    {
      hide *;
      ghost var s, n := View(), next;
      ValidIs();
      NextIsNew();
      SixFresh(s, n);
      var h, p, c := GetParts(t, asks);
      ghost var s1 := View();
      lease := new WorkspaceLease(this, h, p, c);
      lease.IsValid();
      ghost var s2 := View();
      EndParts(h, p, c);
      LeaseEnd(s, s1, s2, View(), asks, Trio(n, n + 1, n + 2), lease.Own());
      lease.IsValid();
    }
  }

  predicate Kinds(h: Option<Mem>, p: Option<Mem>, c: Option<Mem>) {
    && (h.Some? ==> h.value.kind == Host)
    && (p.Some? ==> p.value.kind == Pinned)
    && (c.Some? ==> c.value.kind == Cuda)
  }

  lemma EndedIs(s: State, h: Obj, p: Obj, c: Obj)
    ensures Ended(s, Trio(h, p, c)) == s.(objs := s.objs - {h} - {p} - {c})
  {
  }

  lemma LeasedIs(s: State, asks: Trio<Ask>, own: Trio<Obj>)
    ensures Leased(s, asks, own) ==
            Get(Get(Get(s, Host, asks.host.req, asks.host.a, own.host),
                    Pinned, asks.pinned.req, asks.pinned.a, own.pinned),
                Cuda, asks.cuda.req, asks.cuda.a, own.cuda)
    ensures Part(Host, asks) == Given(Host, asks.host.req, asks.host.a)
    ensures Part(Pinned, asks) == Given(Pinned, asks.pinned.req, asks.pinned.a)
    ensures Part(Cuda, asks) == Given(Cuda, asks.cuda.req, asks.cuda.a)
  {
    hide Get, Given;
  }

  lemma ClearIs(s: State)
    ensures Enabled(s, Purge(Cuda)) && Enabled(Apply(s, Purge(Cuda)), Purge(Pinned))
    ensures Enabled(Apply(Apply(s, Purge(Cuda)), Purge(Pinned)), Purge(Host))
    ensures Enabled(Apply(Apply(Apply(s, Purge(Cuda)), Purge(Pinned)), Purge(Host)), PurgePool)
    ensures Clear(s) == Apply(Apply(Apply(Apply(s, Purge(Cuda)), Purge(Pinned)), Purge(Host)), PurgePool)
  {
    hide Apply;
  }

  lemma PurgeIs(s: State, kind: Kind)
    ensures var ms := OfKind(s.cached, kind);
            Apply(s, Purge(kind)) == s.(cached := s.cached - ms, freed := s.freed + multiset(Calls(ms)), pool := s.pool + Events(ms))
  {
  }

  lemma PoolIs(s: State)
    ensures Apply(s, PurgePool) == s.(pool := {}, destroyed := s.destroyed + s.pool)
  {
  }

  lemma ResetIs(s: State, o: Obj)
    requires o in s.objs
    ensures Enabled(s, Reset(o)) && Apply(s, Reset(o)) == match s.objs[o]
              case None => s
              case Some(m) => s.(objs := s.objs[o := None], dropped := s.dropped.Add(m.kind, 1),
                                 freed := s.freed + multiset{CallOf(m)}, pool := s.pool + {m.ready})
  {
  }

  lemma AllKinds(outstanding: Tally)
    ensures (outstanding.At(Host) == 0 && outstanding.At(Pinned) == 0 && outstanding.At(Cuda) == 0) <==> forall k: Kind :: outstanding.At(k) == 0
  {
  }

  /** Which objects the gets fill shows only in the objects. */
  lemma SameButObjects(s: State, asks: Trio<Ask>, own: Trio<Obj>, own': Trio<Obj>)
    ensures Leased(s, asks, own) == Leased(s, asks, own').(objs := Leased(s, asks, own).objs)
  {
    hide Get;
    var s1, t1 := Get(s, Host, asks.host.req, asks.host.a, own.host), Get(s, Host, asks.host.req, asks.host.a, own'.host);
    GetSame(s, s, Host, asks.host.req, asks.host.a, own.host, own'.host);
    var s2, t2 := Get(s1, Pinned, asks.pinned.req, asks.pinned.a, own.pinned), Get(t1, Pinned, asks.pinned.req, asks.pinned.a, own'.pinned);
    GetSame(s1, t1, Pinned, asks.pinned.req, asks.pinned.a, own.pinned, own'.pinned);
    GetSame(s2, t2, Cuda, asks.cuda.req, asks.cuda.a, own.cuda, own'.cuda);
  }

  lemma GetSame(s: State, t: State, kind: Kind, req: Req, a: Answer, o: Obj, o': Obj)
    requires s == t.(objs := s.objs)
    ensures var s', t' := Get(s, kind, req, a, o), Get(t, kind, req, a, o'); s' == t'.(objs := s'.objs)
  {
    hide Given;
  }

  /** The six objects of a lease under construction are different and new. */
  predicate SixNew(s: State, tmp: Trio<Obj>, own: Trio<Obj>) {
    && Distinct(tmp) && Distinct(own)
    && (forall k, k': Kind :: tmp.At(k) != own.At(k'))
    && (forall k: Kind :: tmp.At(k) !in s.objs && own.At(k) !in s.objs)
  }

  lemma SixFresh(s: State, n: Obj)
    requires forall o :: o in s.objs ==> o < n
    ensures SixNew(s, Trio(n, n + 1, n + 2), Trio(n + 3, n + 4, n + 5))
  {
  }

  lemma LeaseParts(s: State, asks: Trio<Ask>, tmp: Trio<Obj>, own: Trio<Obj>)
    requires Answerable(s, asks) && SixNew(s, tmp, own)
    ensures OwnParts(Leased(s, asks, tmp), tmp)
  {
    hide Given, Admissible, Answerable, Get, Leased, Fits;
    LeaseShape(s, asks, tmp);
    PartsFit(s, asks);
    PartKinds(s, asks);
    assert tmp.At(Host) == tmp.host && tmp.At(Pinned) == tmp.pinned && tmp.At(Cuda) == tmp.cuda;
  }

  lemma PartKinds(s: State, asks: Trio<Ask>)
    requires Answerable(s, asks)
    ensures forall k: Kind :: Part(k, asks).Some? ==> Part(k, asks).value.kind == k
    ensures Kinds(Part(Host, asks), Part(Pinned, asks), Part(Cuda, asks))
  {
    hide Answerable, Part;
    PartsFit(s, asks);
  }

  /** Getting into temporaries, moving, and ending the temporaries is getting into the lease's own objects. */
  lemma LeaseIs(s: State, asks: Trio<Ask>, tmp: Trio<Obj>, own: Trio<Obj>)
    requires Answerable(s, asks) && SixNew(s, tmp, own)
    ensures OwnParts(Leased(s, asks, tmp), tmp)
    ensures var m := Moved(Leased(s, asks, tmp), own, tmp);
            && tmp.host in m.objs && m.objs[tmp.host] == None && tmp.pinned in m.objs && m.objs[tmp.pinned] == None
            && tmp.cuda in m.objs && m.objs[tmp.cuda] == None
            && Ended(m, tmp) == Leased(s, asks, own)
    ensures OwnParts(Leased(s, asks, own), own)
  {
    LeaseParts(s, asks, tmp, own);
    LeaseShape(s, asks, tmp);
    LeaseShape(s, asks, own);
    SameButObjects(s, asks, own, tmp);
    assert own.At(Host) == own.host && own.At(Pinned) == own.pinned && own.At(Cuda) == own.cuda;
    assert tmp.At(Host) == tmp.host && tmp.At(Pinned) == tmp.pinned && tmp.At(Cuda) == tmp.cuda;
    LeaseParts(s, asks, own, tmp);
    hide Leased, Part, Answerable, Moved, OwnParts;
    MovedShape(Leased(s, asks, tmp), own, tmp);
    ThroughTemporaries(s.objs, tmp, own, Part(Host, asks), Part(Pinned, asks), Part(Cuda, asks));
  }

  lemma LeaseEnd(s: State, s1: State, s2: State, s3: State, asks: Trio<Ask>, tmp: Trio<Obj>, own: Trio<Obj>)
    requires Answerable(s, asks) && SixNew(s, tmp, own)
    requires s1 == Leased(s, asks, tmp) && tmp.host in s1.objs && tmp.pinned in s1.objs && tmp.cuda in s1.objs
    requires s2 == Moved(s1, own, tmp) && s3 == Ended(s2, tmp)
    ensures s3 == Leased(s, asks, own)
  {
    hide *;
    LeaseIs(s, asks, tmp, own);
  }

  lemma ThroughTemporaries(objs: map<Obj, Option<Mem>>, tmp: Trio<Obj>, own: Trio<Obj>, x: Option<Mem>, y: Option<Mem>, z: Option<Mem>)
    requires Distinct(tmp) && Distinct(own) && tmp.host !in objs && tmp.pinned !in objs && tmp.cuda !in objs
    requires own.host != tmp.host && own.host != tmp.pinned && own.host != tmp.cuda
    requires own.pinned != tmp.host && own.pinned != tmp.pinned && own.pinned != tmp.cuda
    requires own.cuda != tmp.host && own.cuda != tmp.pinned && own.cuda != tmp.cuda
    ensures var a := objs[tmp.host := x][tmp.pinned := y][tmp.cuda := z];
            && a[tmp.host] == x && a[tmp.pinned] == y && a[tmp.cuda] == z
            && a[own.host := x][own.pinned := y][own.cuda := z][tmp.host := None][tmp.pinned := None][tmp.cuda := None]
               - {tmp.host} - {tmp.pinned} - {tmp.cuda}
            == objs[own.host := x][own.pinned := y][own.cuda := z]
  {
  }

  /** The three temporaries, already empty, are gone. */
  function Ended(s: State, tmp: Trio<Obj>): State {
    s.(objs := s.objs - {tmp.host} - {tmp.pinned} - {tmp.cuda})
  }

  /** `CachedWorkspaceMem`: empty, or the only owner of a payload, which it destroys unless it is moved from. */
  class CachedWorkspaceMem {
    const cache: WorkspaceCache   // captured by the deleter
    ghost const id: Obj
    var mem: Option<Mem>          // non-empty exactly when there is a deleter

    /** A live object of the cache: the one with its identity, holding what the cache's books say. */
    ghost predicate IsOf(c: WorkspaceCache)
      reads this, c
    {
      cache == c && id in c.View().objs && c.View().objs[id] == mem && id in c.owner && c.owner[id] == this
    }

    constructor Empty(cache: WorkspaceCache)
      requires cache.Registry()
      modifies cache`objs, cache`owner, cache`next
      ensures cache.Registry() && IsOf(cache) && id == old(cache.next) && cache.next == old(cache.next) + 1
      ensures forall x: CachedWorkspaceMem :: old(allocated(x)) && old(x.IsOf(cache)) ==> x.IsOf(cache)
      ensures mem == None && Enabled(old(cache.View()), NewObj(id)) && cache.View() == Apply(old(cache.View()), NewObj(id))
    {
      hide *;
      this.cache, this.id, mem := cache, cache.next, None;
      new;
      cache.NextIsNew();
      NewIs(cache.View(), id);
      cache.Register(this);
    }

    /** Moved out of the per-stream cache. */
    constructor FromCache(cache: WorkspaceCache, ghost t: Thread, m: Mem)
      requires cache.Registry() && Enabled(cache.View(), Take(t, m, cache.next))
      modifies cache
      ensures cache.Registry() && IsOf(cache) && id == old(cache.next) && cache.next == old(cache.next) + 1
      ensures forall x: CachedWorkspaceMem :: old(allocated(x)) && old(x.IsOf(cache)) ==> x.IsOf(cache)
      ensures mem == Some(m) && cache.View() == Apply(old(cache.View()), Take(t, m, id))
    {
      hide *;
      this.cache, this.id, mem := cache, cache.next, Some(m);
      new;
      TakeIs(cache.View(), t, m, id);
      cache.PickUp(t, m);
      cache.Register(this);
    }

    /** A payload with memory and an event made for it. */
    constructor Created(cache: WorkspaceCache, ghost t: Thread, kind: Kind, req: Req, data: Buffer, ready: Event)
      requires cache.Registry() && t in cache.View().pcs && cache.View().pcs[t] == Counted(kind, req)
      requires Enabled(cache.View(), Create(t, data, ready, cache.next))
      modifies cache
      ensures cache.Registry() && IsOf(cache) && id == old(cache.next) && cache.next == old(cache.next) + 1
      ensures forall x: CachedWorkspaceMem :: old(allocated(x)) && old(x.IsOf(cache)) ==> x.IsOf(cache)
      ensures mem == Some(Mem(kind, data, req, ready)) && cache.View() == Apply(old(cache.View()), Create(t, data, ready, id))
    {
      hide *;
      this.cache, this.id, mem := cache, cache.next, Some(Mem(kind, data, req, ready));
      new;
      CreateIs(cache.View(), t, data, ready, id);
      cache.Allocate(t, mem.value);
      cache.Register(this);
    }

    /** The move constructor: an empty object that is then moved into. */
    constructor MovedFrom(other: CachedWorkspaceMem)
      requires other.cache.Valid() && other.IsOf(other.cache)
      modifies other`mem, other.cache`objs, other.cache`owner, other.cache`next, other.cache`freed, other.cache`pool, other.cache`dropped
      ensures cache == other.cache && cache.Valid() && IsOf(cache) && id == old(other.cache.next) && cache.next == id + 1
      ensures forall x: CachedWorkspaceMem :: old(allocated(x)) && old(x.IsOf(other.cache)) ==> x.IsOf(cache)
      ensures mem == old(other.mem) && other.mem == None
      ensures other.id in old(other.cache.View()).objs && cache.View() == Adopted(old(other.cache.View()), id, other.id)
    {
      hide *;
      this.cache, this.id, mem := other.cache, other.cache.next, None;
      new;
      ghost var s := cache.View();
      cache.ValidIs();
      cache.NextIsNew();
      other.Known(cache);
      NewIs(s, id);
      StepKeepsInv(s, NewObj(id));
      cache.Register(this);
      cache.ValidIs();
      AdoptedIs(s, id, other.id);
      MoveFrom(other);
    }

    /** `reset()` */
    method Reset()
      requires cache.Valid() && IsOf(cache)
      modifies this`mem, cache`freed, cache`pool, cache`dropped, cache`objs
      ensures cache.Valid()
      ensures forall x: CachedWorkspaceMem :: old(allocated(x)) && old(x.IsOf(cache)) ==> x.IsOf(cache)
      ensures mem == None && cache.View() == Apply(old(cache.View()), WorkspaceSteps.Reset(id))
    {
      hide *;
      ghost var s := cache.View();
      cache.ValidIs();
      Known(cache);
      ResetIs(s, id);
      StepKeepsInv(s, WorkspaceSteps.Reset(id));
      if mem.Some? {
        cache.Delete(mem.value);
        mem := None;
        cache.Book(this);
      }
      cache.ValidIs();
    }

    /** The destructor: reset, and the object is gone. */
    method End()
      requires cache.Valid() && IsOf(cache)
      modifies this`mem, cache`freed, cache`pool, cache`dropped, cache`objs
      ensures cache.Valid() && id !in cache.View().objs
      ensures forall x: CachedWorkspaceMem :: old(allocated(x)) && old(x.IsOf(cache)) && x != this ==> x.IsOf(cache)
      ensures cache.View() == Apply(Apply(old(cache.View()), WorkspaceSteps.Reset(id)), Forget(id))
      ensures old(mem) == None ==> cache.View() == old(cache.View()).(objs := old(cache.View()).objs - {id})
    {
      hide *;
      ghost var s := cache.View();
      Known(cache);
      ResetIs(s, id);
      Reset();
      cache.ValidIs();
      Known(cache);
      ForgetIs(cache.View(), id);
      StepKeepsInv(cache.View(), Forget(id));
      cache.Unregister(this);
      cache.ValidIs();
    }

    /** Move assignment: swap, then reset the source, so what this object owned before is destroyed. */
    method MoveFrom(other: CachedWorkspaceMem)
      requires cache.Valid() && IsOf(cache) && other.IsOf(cache)
      modifies this`mem, other`mem, cache`freed, cache`pool, cache`dropped, cache`objs
      ensures cache.Valid()
      ensures forall x: CachedWorkspaceMem :: old(allocated(x)) && old(x.IsOf(cache)) ==> x.IsOf(cache)
      ensures other.mem == None && (other != this ==> mem == old(other.mem))
      ensures id in old(cache.View()).objs && other.id in old(cache.View()).objs
      ensures cache.View() == Move(old(cache.View()), id, other.id)
    {
      hide *;
      ghost var s := cache.View();
      cache.ValidIs();
      Known(cache);
      other.Known(cache);
      MoveIs(s, id, other.id);
      StepKeepsInv(s, Swap(id, other.id));
      mem, other.mem := other.mem, mem;
      cache.Book(this);
      cache.Book(other);
      cache.ValidIs();
      other.Reset();
    }

    lemma Known(c: WorkspaceCache)
      requires IsOf(c)
      ensures cache == c && id in c.View().objs && c.View().objs[id] == mem && id in c.owner && c.owner[id] == this
    {
      hide WorkspaceCache.View;
    }
  }

  lemma MoveIs(s: State, a: Obj, b: Obj)
    requires a in s.objs && b in s.objs
    ensures Enabled(s, Swap(a, b)) && Apply(s, Swap(a, b)) == s.(objs := s.objs[a := s.objs[b]][b := s.objs[a]])
    ensures Move(s, a, b) == Apply(Apply(s, Swap(a, b)), Reset(b))
  {
  }

  lemma ForgetIs(s: State, o: Obj)
    requires o in s.objs && s.objs[o] == None
    ensures Enabled(s, Forget(o)) && Apply(s, Forget(o)) == s.(objs := s.objs - {o})
  {
  }

  lemma StoreIs(s: State, t: Thread, o: Obj)
    requires Enabled(s, Store(t, o))
    ensures o in s.objs && s.objs[o].Some?
    ensures var m := s.objs[o].value;
            Apply(s, Store(t, o)) == s.(cached := s.cached + {m}, objs := s.objs[o := None], pcs := s.pcs[t := Stored(m.kind)])
  {
  }

  /** A new object takes over what another one held. */
  function Adopted(s: State, o: Obj, src: Obj): State
    requires src in s.objs
  {
    s.(objs := s.objs[o := s.objs[src]][src := None])
  }

  lemma TakeIs(s: State, t: Thread, m: Mem, o: Obj)
    requires Enabled(s, Take(t, m, o))
    ensures o !in s.objs
    ensures Apply(s, Take(t, m, o)) == s.(cached := s.cached - {m}, objs := s.objs[o := Some(m)], pcs := s.pcs - {t})
  {
  }

  lemma CreateIs(s: State, t: Thread, data: Buffer, ready: Event, o: Obj)
    requires Enabled(s, Create(t, data, ready, o))
    ensures o !in s.objs && t in s.pcs && s.pcs[t].Counted?
    ensures var m := Mem(s.pcs[t].kind, data, s.pcs[t].req, ready);
            Apply(s, Create(t, data, ready, o))
              == s.(objs := s.objs[o := Some(m)], pcs := s.pcs - {t},
                    allocs := s.allocs[data := CallOf(m)], created := s.created + {ready})
  {
  }

  lemma NewIs(s: State, o: Obj)
    requires o !in s.objs
    ensures Enabled(s, NewObj(o)) && Apply(s, NewObj(o)) == s.(objs := s.objs[o := None])
  {
  }

  /** It is a new empty object and then a move; nothing is destroyed. */
  lemma AdoptedIs(s: State, o: Obj, src: Obj)
    requires o !in s.objs && src in s.objs
    ensures Move(Apply(s, NewObj(o)), o, src) == Adopted(s, o, src)
  {
    var s1 := Apply(s, NewObj(o));
    assert s1.objs[o := s.objs[src]][src := None] == s.objs[o := s.objs[src]][src := None];
    assert s1.objs[o := s.objs[src]][src := None] == Move(s1, o, src).objs;
  }

  /** Two live objects of a cache never hold the same buffer, and what one holds was not freed and is not cached. */
  lemma SoleOwner(c: WorkspaceCache, a: CachedWorkspaceMem, b: CachedWorkspaceMem)
    requires c.Valid() && a.IsOf(c) && b.IsOf(c) && a.mem.Some?
    ensures a.mem.value !in c.cached && c.freed[CallOf(a.mem.value)] == 0
    ensures b.mem.Some? && a != b ==> a.mem.value.data != b.mem.value.data
  {
    var s := c.View();
    HeldHas(s.objs, a.id);
    if b.mem.Some? { HeldHas(s.objs, b.id); }
    hide CounterInv, EventInv, FreedInv, HeldBy;
  }

  /** Three objects take over what three others held. */
  function Moved(s: State, own: Trio<Obj>, src: Trio<Obj>): State
    requires src.host in s.objs && src.pinned in s.objs && src.cuda in s.objs
  {
    Adopted(Adopted(Adopted(s, own.host, src.host), own.pinned, src.pinned), own.cuda, src.cuda)
  }

  lemma MovedShape(s: State, own: Trio<Obj>, src: Trio<Obj>)
    requires OwnParts(s, src) && Distinct(own) && own.host !in s.objs && own.pinned !in s.objs && own.cuda !in s.objs
    ensures OwnParts(Moved(s, own, src), own)
    ensures Moved(s, own, src) == s.(objs := s.objs[own.host := s.objs[src.host]][own.pinned := s.objs[src.pinned]][own.cuda := s.objs[src.cuda]]
                                             [src.host := None][src.pinned := None][src.cuda := None])
  {
  }

  class WorkspaceLease {
    const cache: WorkspaceCache
    const host: CachedWorkspaceMem
    const pinned: CachedWorkspaceMem
    const cuda: CachedWorkspaceMem

    ghost function Own(): Trio<Obj> {
      Trio(host.id, pinned.id, cuda.id)
    }

    /** The lease's parts are live objects of the cache, of their kinds. */
    ghost predicate Valid()
      reads this, cache, host, pinned, cuda
    {
      && cache.Valid() && host.IsOf(cache) && pinned.IsOf(cache) && cuda.IsOf(cache)
      && host != pinned && host != cuda && pinned != cuda
      && Kinds(host.mem, pinned.mem, cuda.mem)
    }

    /** The parts are moved into new, empty members, so nothing is destroyed. */
    constructor (cache: WorkspaceCache, h: CachedWorkspaceMem, p: CachedWorkspaceMem, c: CachedWorkspaceMem)
      requires cache.Valid() && h.IsOf(cache) && p.IsOf(cache) && c.IsOf(cache) && h != p && h != c && p != c
      requires Kinds(h.mem, p.mem, c.mem)
      modifies h`mem, p`mem, c`mem, cache`objs, cache`owner, cache`next, cache`freed, cache`pool, cache`dropped
      ensures this.cache == cache && Valid()
      ensures fresh(host) && fresh(pinned) && fresh(cuda)
      ensures host.mem == old(h.mem) && pinned.mem == old(p.mem) && cuda.mem == old(c.mem)
      ensures h.mem == p.mem == c.mem == None && h.IsOf(cache) && p.IsOf(cache) && c.IsOf(cache)
      ensures Own() == Trio(old(cache.next), old(cache.next) + 1, old(cache.next) + 2)
      ensures h.id in old(cache.View()).objs && p.id in old(cache.View()).objs && c.id in old(cache.View()).objs
      ensures cache.View() == Moved(old(cache.View()), Own(), Trio(h.id, p.id, c.id))
    {
      hide *;
      h.Known(cache);
      p.Known(cache);
      c.Known(cache);
      MovedIs(cache.View(), Trio(cache.next, cache.next + 1, cache.next + 2), Trio(h.id, p.id, c.id));
      this.cache := cache;
      this.host := new CachedWorkspaceMem.MovedFrom(h);
      this.pinned := new CachedWorkspaceMem.MovedFrom(p);
      this.cuda := new CachedWorkspaceMem.MovedFrom(c);
      new;
      IsValid();
    }

    lemma IsValid()
      ensures Own() == Trio(host.id, pinned.id, cuda.id)
      ensures Valid() <==>
                && cache.Valid() && host.IsOf(cache) && pinned.IsOf(cache) && cuda.IsOf(cache)
                && host != pinned && host != cuda && pinned != cuda
                && Kinds(host.mem, pinned.mem, cuda.mem)
    {
      hide WorkspaceCache.Valid, CachedWorkspaceMem.IsOf, Kinds;
    }

    /** The destructor: every part that is not empty goes back to its cache. */
    method Release(ghost t: Thread)
      requires Valid() && t !in cache.View().pcs
      modifies cache, host`mem, pinned`mem, cuda`mem
      ensures Valid()
      ensures host.mem == pinned.mem == cuda.mem == None
      ensures host.id in old(cache.View()).objs && pinned.id in old(cache.View()).objs && cuda.id in old(cache.View()).objs
      ensures cache.View() == Released(old(cache.View()), Own())
    {
      hide *;
      IsValid();
      host.Known(cache);
      pinned.Known(cache);
      cuda.Known(cache);
      ReleasedIs(cache.View(), Own());
      if host.mem.Some? {
        cache.PutMem(t, host);
      }
      pinned.Known(cache);
      if pinned.mem.Some? {
        cache.PutMem(t, pinned);
      }
      cuda.Known(cache);
      if cuda.mem.Some? {
        cache.PutMem(t, cuda);
      }
      IsValid();
      NoKinds();
    }
  }

  lemma NoKinds()
    ensures Kinds(None, None, None)
  {
  }

  lemma MovedIs(s: State, own: Trio<Obj>, src: Trio<Obj>)
    requires src.host in s.objs && src.pinned in s.objs && src.cuda in s.objs
    ensures Adopted(s, own.host, src.host).objs == s.objs[own.host := s.objs[src.host]][src.host := None]
    ensures var s1 := Adopted(s, own.host, src.host);
            && src.pinned in s1.objs
            && var s2 := Adopted(s1, own.pinned, src.pinned);
               && src.cuda in s2.objs
               && Moved(s, own, src) == Adopted(s2, own.cuda, src.cuda)
  {
  }

  /** Empty objects are left alone, the others are put; what a put does to the objects. */
  lemma ReleasedIs(s: State, own: Trio<Obj>)
    requires own.host in s.objs && own.pinned in s.objs && own.cuda in s.objs
    ensures var s1 := Put(s, own.host);
            && own.pinned in s1.objs && s1.pcs == s.pcs && (s.objs[own.host] == None ==> s1 == s)
            && var s2 := Put(s1, own.pinned);
               && own.cuda in s2.objs && s2.pcs == s1.pcs && (s1.objs[own.pinned] == None ==> s2 == s1)
               && (s2.objs[own.cuda] == None ==> Put(s2, own.cuda) == s2)
               && Released(s, own) == Put(s2, own.cuda)
  {
  }
}
