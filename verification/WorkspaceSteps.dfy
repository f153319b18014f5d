/**
 The workspace cache as atomic steps of many threads: three payload caches with one
 outstanding counter each, the payload objects outside them, the allocator, and the
 shared event pool.  A buffer or an event is the identity of one allocation or creation,
 an object that of one `CachedWorkspaceMem` outside the caches.
 */
module WorkspaceSteps {
  import opened Text

  datatype Kind = Host | Pinned | Cuda
  type Buffer = nat
  type Obj = nat
  type Event = nat
  type Thread = nat

  datatype Req = Req(size: nat, alignment: nat)

  /** A non-empty payload: memory with the request it was allocated for, and its ready event. */
  datatype Mem = Mem(kind: Kind, data: Buffer, req: Req, ready: Event)

  /** A call of the allocator's `free`. */
  datatype FreeCall = FreeCall(kind: Kind, data: Buffer, req: Req)

  function CallOf(m: Mem): FreeCall {
    FreeCall(m.kind, m.data, m.req)
  }

  /** Where a thread is inside `get` (counted, payload not yet found) or `put` (payload stored, not yet uncounted). */
  datatype Pc = Counted(kind: Kind, req: Req) | Stored(kind: Kind)

  /** One number for each kind. */
  datatype Tally = Tally(host: int, pinned: int, cuda: int) {
    function At(k: Kind): int {
      match k case Host => host case Pinned => pinned case Cuda => cuda
    }

    function Add(k: Kind, n: int): (r: Tally)
      ensures forall j: Kind :: r.At(j) == At(j) + if j == k then n else 0
    {
      match k
      case Host => this.(host := host + n)
      case Pinned => this.(pinned := pinned + n)
      case Cuda => this.(cuda := cuda + n)
    }
  }

  datatype State = State(
    outstanding: Tally,            // the atomic counters
    cached: set<Mem>,              // payloads in the per-stream caches
    objs: map<Obj, Option<Mem>>,   // the live payload objects outside the caches, and what each holds
    pcs: map<Thread, Pc>,          // threads inside get or put; the others are idle
    dropped: Tally,                // payloads destroyed outside the caches
    allocs: map<Buffer, FreeCall>, // every allocation, with the call that must free it
    freed: multiset<FreeCall>,     // calls of free so far
    created: set<Event>,
    pool: set<Event>,              // events in the shared event cache
    destroyed: set<Event>)

  datatype Step =
    | NewObj(o: Obj)                                        // the default constructor
    | Forget(o: Obj)                                        // the end of an object that was reset
    | BeginGet(t: Thread, kind: Kind, req: Req)             // ++counter
    | Take(t: Thread, m: Mem, o: Obj)                       // the cache had a fitting payload: moved into a new object
    | Create(t: Thread, data: Buffer, ready: Event, o: Obj) // it had none: a new event, new memory, a new object
    | Store(t: Thread, o: Obj)                              // cache.put(move(mem)): the object is moved from
    | EndPut(t: Thread)                                     // --counter
    | Swap(a: Obj, b: Obj)                                  // the first half of a move
    | Reset(o: Obj)                                         // reset(): the second half of a move, and the destructor
    | Purge(kind: Kind)                                     // cache.purge(): runs every destructor
    | PurgePool                                             // eventCache.purge()

  predicate Fits(m: Mem, kind: Kind, req: Req) {
    m.kind == kind && m.req.size >= req.size && m.req.alignment >= req.alignment
  }

  function OfKind(ms: set<Mem>, k: Kind): set<Mem> {
    set m | m in ms && m.kind == k
  }

  function Calls(ms: set<Mem>): set<FreeCall> {
    set m | m in ms :: CallOf(m)
  }

  function Events(ms: set<Mem>): set<Event> {
    set m | m in ms :: m.ready
  }

  /** The payloads that some object holds. */
  function HeldBy(objs: map<Obj, Option<Mem>>): set<Mem> {
    set o | o in objs && objs[o].Some? :: objs[o].value
  }

  function Held(s: State): set<Mem> {
    HeldBy(s.objs)
  }

  predicate Enabled(s: State, step: Step) {
    match step
    case NewObj(o) => o !in s.objs
    case Forget(o) => o in s.objs && s.objs[o].None?
    case BeginGet(t, kind, req) => t !in s.pcs && req.size > 0
    case Take(t, m, o) => t in s.pcs && s.pcs[t].Counted? && m in s.cached && Fits(m, s.pcs[t].kind, s.pcs[t].req) && o !in s.objs
    case Create(t, data, ready, o) => t in s.pcs && s.pcs[t].Counted? && data !in s.allocs && ready !in s.created && o !in s.objs
    case Store(t, o) => t !in s.pcs && o in s.objs && s.objs[o].Some?
    case EndPut(t) => t in s.pcs && s.pcs[t].Stored?
    case Swap(a, b) => a in s.objs && b in s.objs
    case Reset(o) => o in s.objs
    case Purge(kind) => true
    case PurgePool => true
  }

  function Apply(s: State, step: Step): State
    requires Enabled(s, step)
  {
    match step
    case NewObj(o) => s.(objs := s.objs[o := None])
    case Forget(o) => s.(objs := s.objs - {o})
    case BeginGet(t, kind, req) =>
      s.(outstanding := s.outstanding.Add(kind, 1), pcs := s.pcs[t := Counted(kind, req)])
    case Take(t, m, o) =>
      s.(cached := s.cached - {m}, objs := s.objs[o := Some(m)], pcs := s.pcs - {t})
    case Create(t, data, ready, o) =>
      var m := Mem(s.pcs[t].kind, data, s.pcs[t].req, ready);
      s.(objs := s.objs[o := Some(m)], pcs := s.pcs - {t}, allocs := s.allocs[data := CallOf(m)], created := s.created + {ready})
    case Store(t, o) =>
      var m := s.objs[o].value;
      s.(cached := s.cached + {m}, objs := s.objs[o := None], pcs := s.pcs[t := Stored(m.kind)])
    case EndPut(t) =>
      var k := s.pcs[t].kind;
      s.(outstanding := s.outstanding.Add(k, -1), pcs := s.pcs - {t})
    case Swap(a, b) =>
      s.(objs := s.objs[a := s.objs[b]][b := s.objs[a]])
    case Reset(o) =>
      if s.objs[o].None? then s
      else
        var m := s.objs[o].value;
        s.(objs := s.objs[o := None], dropped := s.dropped.Add(m.kind, 1),
           freed := s.freed + multiset{CallOf(m)}, pool := s.pool + {m.ready})
    case Purge(kind) =>
      var ms := OfKind(s.cached, kind);
      s.(cached := s.cached - ms, freed := s.freed + multiset(Calls(ms)), pool := s.pool + Events(ms))
    case PurgePool =>
      s.(pool := {}, destroyed := s.destroyed + s.pool)
  }

  const Init: State :=
    State(Tally(0, 0, 0), {}, map[], map[], Tally(0, 0, 0), map[], multiset{}, {}, {}, {})

  // -------------------------------------------------------------------- invariants

  predicate IsAt(pc: Pc, inGet: bool, k: Kind) {
    pc.Counted? == inGet && pc.kind == k
  }

  /** The threads inside get (before a payload is found) or inside put (before the counter is lowered). */
  ghost function Inside(pcs: map<Thread, Pc>, inGet: bool, k: Kind): set<Thread> {
    set t | t in pcs && IsAt(pcs[t], inGet, k)
  }

  ghost function InGet(s: State, k: Kind): set<Thread> {
    Inside(s.pcs, true, k)
  }

  ghost function InPut(s: State, k: Kind): set<Thread> {
    Inside(s.pcs, false, k)
  }

  predicate HoldsKind(part: Option<Mem>, k: Kind) {
    part.Some? && part.value.kind == k
  }

  /** The objects that hold a payload of a kind. */
  ghost function HoldersIn(objs: map<Obj, Option<Mem>>, k: Kind): set<Obj> {
    set o | o in objs && HoldsKind(objs[o], k)
  }

  ghost function Holders(s: State, k: Kind): set<Obj> {
    HoldersIn(s.objs, k)
  }

  /** The counter of a kind is the objects that hold a payload, plus the threads inside get and put, plus what was dropped. */
  ghost predicate Counts(s: State, k: Kind) {
    s.outstanding.At(k) == |Holders(s, k)| + |InGet(s, k)| + |InPut(s, k)| + s.dropped.At(k) && s.dropped.At(k) >= 0
  }

  ghost predicate CounterInv(s: State) {
    forall k: Kind :: Counts(s, k)
  }

  ghost function Live(s: State): set<Mem> {
    s.cached + Held(s)
  }

  /** No two objects hold the same payload. */
  ghost predicate Sole(objs: map<Obj, Option<Mem>>) {
    forall a, b :: a in objs && b in objs && objs[a].Some? && objs[a] == objs[b] ==> a == b
  }

  /** Each live payload is in the cache or in one object; they own different buffers, each still to be freed by the call that matches its allocation. */
  ghost predicate LiveInv(s: State) {
    && Sole(s.objs)
    && s.cached !! Held(s)
    && (forall m, n :: m in Live(s) && n in Live(s) && m.data == n.data ==> m == n)
    && (forall m :: m in Live(s) ==> m.data in s.allocs && s.allocs[m.data] == CallOf(m) && s.freed[CallOf(m)] == 0)
  }

  /** What was freed was freed once, by the call that matches its allocation. */
  ghost predicate FreedInv(s: State) {
    && (forall d :: d in s.allocs ==> s.allocs[d].data == d)
    && (forall c :: c in s.freed ==> c.data in s.allocs && s.allocs[c.data] == c && s.freed[c] == 1)
  }

  ghost predicate Owned(s: State, d: Buffer) {
    exists m :: m in Live(s) && m.data == d
  }

  /** Every allocation is live in exactly one place, or was freed once. */
  ghost predicate OwnershipInv(s: State) {
    && LiveInv(s)
    && FreedInv(s)
    && (forall d :: d in s.allocs ==> s.freed[s.allocs[d]] == 1 || Owned(s, d))
  }

  /** Every created event belongs to exactly one live payload, or is in the pool, or was destroyed. */
  ghost predicate EventInv(s: State) {
    && (forall m, n :: m in Live(s) && n in Live(s) && m.ready == n.ready ==> m == n)
    && s.created == Events(Live(s)) + s.pool + s.destroyed
    && Events(Live(s)) !! s.pool
    && Events(Live(s)) !! s.destroyed
    && s.pool !! s.destroyed
  }

  ghost predicate Inv(s: State) {
    CounterInv(s) && OwnershipInv(s) && EventInv(s)
  }

  // ------------------------------------------------------- objects and what they hold

  /** An object that held nothing gets a payload nobody holds. */
  lemma FillObj(objs: map<Obj, Option<Mem>>, o: Obj, m: Mem)
    requires o in objs ==> objs[o].None?
    ensures HeldBy(objs[o := Some(m)]) == HeldBy(objs) + {m}
    ensures Sole(objs) && m !in HeldBy(objs) ==> Sole(objs[o := Some(m)])
  {
    var after := objs[o := Some(m)];
    forall x | x in HeldBy(objs) + {m} ensures x in HeldBy(after) {
      if x == m {
        assert after[o] == Some(m);
      } else {
        var p :| p in objs && objs[p] == Some(x);
        assert after[p] == Some(x);
      }
    }
  }

  /** The only holder of a payload gives it up. */
  lemma EmptyObj(objs: map<Obj, Option<Mem>>, o: Obj)
    requires Sole(objs) && o in objs && objs[o].Some?
    ensures HeldBy(objs[o := None]) == HeldBy(objs) - {objs[o].value} && Sole(objs[o := None])
  {
    var after := objs[o := None];
    forall x | x in HeldBy(objs) - {objs[o].value} ensures x in HeldBy(after) {
      var p :| p in objs && objs[p] == Some(x);
      assert after[p] == Some(x);
    }
  }

  /** Objects that come and go empty change nothing. */
  lemma EmptyObjs(objs: map<Obj, Option<Mem>>, o: Obj)
    requires o in objs ==> objs[o].None?
    ensures HeldBy(objs[o := None]) == HeldBy(objs) && (Sole(objs) ==> Sole(objs[o := None]))
    ensures HeldBy(objs - {o}) == HeldBy(objs) && (Sole(objs) ==> Sole(objs - {o}))
  {
    forall x | x in HeldBy(objs) ensures x in HeldBy(objs[o := None]) && x in HeldBy(objs - {o}) {
      var p :| p in objs && objs[p] == Some(x);
      assert objs[o := None][p] == Some(x) && (objs - {o})[p] == Some(x);
    }
  }

  /** Swapping moves payloads between objects and keeps each with one holder. */
  lemma SwapObjs(objs: map<Obj, Option<Mem>>, a: Obj, b: Obj)
    requires a in objs && b in objs
    ensures HeldBy(objs[a := objs[b]][b := objs[a]]) == HeldBy(objs)
    ensures Sole(objs) ==> Sole(objs[a := objs[b]][b := objs[a]])
  {
    var after := objs[a := objs[b]][b := objs[a]];
    forall x | x in HeldBy(objs) ensures x in HeldBy(after) {
      var p :| p in objs && objs[p] == Some(x);
      var q := if p == a then b else if p == b then a else p;
      assert after[q] == Some(x);
    }
    forall x | x in HeldBy(after) ensures x in HeldBy(objs) {
      var p :| p in after && after[p] == Some(x);
    }
  }

  /** How the objects that hold a kind change when one object's contents change. */
  lemma HoldersAfter(objs: map<Obj, Option<Mem>>, o: Obj, part: Option<Mem>, k: Kind)
    ensures |HoldersIn(objs[o := part], k)|
         == |HoldersIn(objs, k)| + (if HoldsKind(part, k) then 1 else 0) - (if o in objs && HoldsKind(objs[o], k) then 1 else 0)
  {
    var before, after := HoldersIn(objs, k), HoldersIn(objs[o := part], k);
    assert after == if HoldsKind(part, k) then before + {o} else before - {o};
  }

  lemma HoldersForget(objs: map<Obj, Option<Mem>>, o: Obj, k: Kind)
    requires o in objs ==> objs[o].None?
    ensures HoldersIn(objs - {o}, k) == HoldersIn(objs, k)
  {
  }

  // ------------------------------------------------------------- counters are kept

  /** A thread enters get or put. */
  lemma EnterPc(pcs: map<Thread, Pc>, t: Thread, pc: Pc, inGet: bool, k: Kind)
    requires t !in pcs
    ensures |Inside(pcs[t := pc], inGet, k)| == |Inside(pcs, inGet, k)| + if IsAt(pc, inGet, k) then 1 else 0
  {
    var before, after := Inside(pcs, inGet, k), Inside(pcs[t := pc], inGet, k);
    assert after == if IsAt(pc, inGet, k) then before + {t} else before - {t};
  }

  /** A thread leaves get or put. */
  lemma LeavePc(pcs: map<Thread, Pc>, t: Thread, inGet: bool, k: Kind)
    requires t in pcs
    ensures |Inside(pcs - {t}, inGet, k)| == |Inside(pcs, inGet, k)| - if IsAt(pcs[t], inGet, k) then 1 else 0
  {
    assert (pcs - {t})[t := pcs[t]] == pcs;
    EnterPc(pcs - {t}, t, pcs[t], inGet, k);
  }

  lemma StepKeepsCounter(s: State, step: Step)
    requires CounterInv(s) && Enabled(s, step)
    ensures CounterInv(Apply(s, step))
  {
    forall k: Kind ensures Counts(Apply(s, step), k) {
      assert Counts(s, k);
      StepCounts(s, step, k);
    }
    hide Apply, Enabled;
  }

  lemma StepCounts(s: State, step: Step, k: Kind)
    requires Counts(s, k) && Enabled(s, step)
    ensures Counts(Apply(s, step), k)
  {
    hide HoldersIn, Inside, OfKind, Calls, Events;
    match step
    case NewObj(o) => HoldersAfter(s.objs, o, None, k);
    case Forget(o) => HoldersForget(s.objs, o, k);
    case BeginGet(t, kind, req) =>
      EnterPc(s.pcs, t, Counted(kind, req), true, k);
      EnterPc(s.pcs, t, Counted(kind, req), false, k);
    case Take(t, m, o) =>
      HoldersAfter(s.objs, o, Some(m), k);
      LeavePc(s.pcs, t, true, k);
      LeavePc(s.pcs, t, false, k);
    case Create(t, data, ready, o) =>
      HoldersAfter(s.objs, o, Some(Mem(s.pcs[t].kind, data, s.pcs[t].req, ready)), k);
      LeavePc(s.pcs, t, true, k);
      LeavePc(s.pcs, t, false, k);
    case Store(t, o) =>
      HoldersAfter(s.objs, o, None, k);
      EnterPc(s.pcs, t, Stored(s.objs[o].value.kind), true, k);
      EnterPc(s.pcs, t, Stored(s.objs[o].value.kind), false, k);
    case EndPut(t) =>
      LeavePc(s.pcs, t, true, k);
      LeavePc(s.pcs, t, false, k);
    case Swap(a, b) =>
      HoldersAfter(s.objs, a, s.objs[b], k);
      HoldersAfter(s.objs[a := s.objs[b]], b, s.objs[a], k);
    case Reset(o) => HoldersAfter(s.objs, o, None, k);
    case Purge(kind) =>
    case PurgePool =>
  }

  // -------------------------------------------------------------- ownership is kept

  /** A step that frees nothing and only moves live payloads between the caches and the objects. */
  lemma MoveKeepsOwnership(s: State, s': State)
    requires OwnershipInv(s) && Live(s') == Live(s) && s'.cached !! Held(s') && Sole(s'.objs)
    requires s'.allocs == s.allocs && s'.freed == s.freed
    ensures OwnershipInv(s')
  {
    hide HeldBy, Sole;
    forall d | d in s'.allocs ensures s'.freed[s'.allocs[d]] == 1 || Owned(s', d) {
      if Owned(s, d) {
        var m :| m in Live(s) && m.data == d;
        assert m in Live(s');
      }
    }
  }

  lemma CreateKeepsLive(s: State, s': State, m: Mem)
    requires LiveInv(s) && FreedInv(s) && m.data !in s.allocs && Sole(s'.objs)
    requires s'.cached == s.cached && Held(s') == Held(s) + {m} && s'.allocs == s.allocs[m.data := CallOf(m)] && s'.freed == s.freed
    ensures LiveInv(s') && Live(s') == Live(s) + {m}
  {
    hide HeldBy, Sole;
    assert Live(s') == Live(s) + {m};
    assert CallOf(m) !in s.freed;
    forall n | n in Live(s) ensures n.data != m.data {
      assert n.data in s.allocs;
    }
    hide Live, FreedInv;
  }

  lemma CreateKeepsFreed(s: State, s': State, m: Mem)
    requires FreedInv(s) && m.data !in s.allocs && s'.allocs == s.allocs[m.data := CallOf(m)] && s'.freed == s.freed
    ensures FreedInv(s')
  {
  }

  lemma CreateKeepsOwnership(s: State, s': State, m: Mem)
    requires OwnershipInv(s) && m.data !in s.allocs && Sole(s'.objs)
    requires s'.cached == s.cached && Held(s') == Held(s) + {m} && s'.allocs == s.allocs[m.data := CallOf(m)] && s'.freed == s.freed
    ensures OwnershipInv(s')
  {
    CreateKeepsLive(s, s', m);
    CreateKeepsFreed(s, s', m);
    hide LiveInv, FreedInv;
    forall d | d in s'.allocs ensures s'.freed[s'.allocs[d]] == 1 || Owned(s', d) {
      if d == m.data {
        assert m in Live(s');
      } else if Owned(s, d) {
        var n :| n in Live(s) && n.data == d;
        assert n in Live(s');
      }
    }
  }

  lemma FreeKeepsLive(s: State, s': State, ms: set<Mem>)
    requires LiveInv(s) && ms <= Live(s) && Sole(s'.objs)
    requires s'.cached == s.cached - ms && Held(s') == Held(s) - ms && s'.allocs == s.allocs
    requires s'.freed == s.freed + multiset(Calls(ms))
    ensures LiveInv(s') && Live(s') == Live(s) - ms
  {
    hide HeldBy, Sole;
    assert Live(s') == Live(s) - ms;
    forall m | m in Live(s') ensures CallOf(m) !in Calls(ms) {
      CallNotFreed(s, m, ms);
    }
    hide Live, Calls;
  }

  lemma FreeKeepsFreed(s: State, s': State, ms: set<Mem>)
    requires LiveInv(s) && FreedInv(s) && ms <= Live(s) && s'.allocs == s.allocs && s'.freed == s.freed + multiset(Calls(ms))
    ensures FreedInv(s')
  {
    hide Held, HeldBy, Sole, Live;
    forall c | c in s'.freed ensures c.data in s'.allocs && s'.allocs[c.data] == c && s'.freed[c] == 1 {
      if c in Calls(ms) {
        var n :| n in ms && CallOf(n) == c;
        assert n in Live(s);
      }
    }
  }

  /** Freeing live payloads, each once and with its own call, keeps the books. */
  lemma FreeKeepsOwnership(s: State, s': State, ms: set<Mem>)
    requires OwnershipInv(s) && ms <= Live(s) && Sole(s'.objs)
    requires s'.cached == s.cached - ms && Held(s') == Held(s) - ms && s'.allocs == s.allocs
    requires s'.freed == s.freed + multiset(Calls(ms))
    ensures OwnershipInv(s')
  {
    hide HeldBy, Sole, LiveInv, Live;
    FreeKeepsLive(s, s', ms);
    FreeKeepsFreed(s, s', ms);
    forall d | d in s'.allocs ensures s'.freed[s'.allocs[d]] == 1 || Owned(s', d) {
      if Owned(s, d) {
        var m :| m in Live(s) && m.data == d;
        if m in ms {
          FreedOnce(s, m);
          assert CallOf(m) in Calls(ms);
        } else {
          assert m in Live(s');
        }
      }
    }
  }

  lemma FreedOnce(s: State, m: Mem)
    requires LiveInv(s) && m in Live(s)
    ensures m.data in s.allocs && s.allocs[m.data] == CallOf(m) && s.freed[CallOf(m)] == 0
  {
    hide Live, Held, HeldBy, Sole;
  }

  lemma CallNotFreed(s: State, m: Mem, ms: set<Mem>)
    requires LiveInv(s) && ms <= Live(s) && m in Live(s) && m !in ms
    ensures CallOf(m) !in Calls(ms)
  {
    forall n | n in ms ensures CallOf(n) != CallOf(m) {
      assert n in Live(s) && n.data != m.data;
    }
  }

  /** The steps that neither allocate nor free. */
  predicate Moves(step: Step) {
    !step.Create? && !step.Reset? && !step.Purge?
  }

  lemma MovesKeepLive(s: State, step: Step)
    requires LiveInv(s) && Enabled(s, step) && Moves(step)
    ensures var s' := Apply(s, step);
            && Live(s') == Live(s) && s'.cached !! Held(s') && Sole(s'.objs)
            && s'.allocs == s.allocs && s'.freed == s.freed
  {
    hide HeldBy, Sole;
    match step
    case NewObj(o) => EmptyObjs(s.objs, o);
    case Forget(o) => EmptyObjs(s.objs, o);
    case Take(t, m, o) => FillObj(s.objs, o, m);
    case Store(t, o) =>
      HeldHas(s.objs, o);
      EmptyObj(s.objs, o);
    case Swap(a, b) => SwapObjs(s.objs, a, b);
    case _ =>
  }

  lemma HeldHas(objs: map<Obj, Option<Mem>>, o: Obj)
    requires o in objs && objs[o].Some?
    ensures objs[o].value in HeldBy(objs)
  {
  }

  /** The payloads a step frees. */
  ghost function FreedBy(s: State, step: Step): set<Mem> {
    if step.Reset? then (if step.o in s.objs && s.objs[step.o].Some? then {s.objs[step.o].value} else {})
    else if step.Purge? then OfKind(s.cached, step.kind)
    else {}
  }

  lemma FreesOnly(s: State, step: Step)
    requires LiveInv(s) && Enabled(s, step) && (step.Reset? || step.Purge?)
    ensures var s', ms := Apply(s, step), FreedBy(s, step);
            && ms <= Live(s) && s'.cached == s.cached - ms && Held(s') == Held(s) - ms && Live(s') == Live(s) - ms && Sole(s'.objs)
            && s'.allocs == s.allocs && s'.freed == s.freed + multiset(Calls(ms))
            && s'.created == s.created && s'.destroyed == s.destroyed && s'.pool == s.pool + Events(ms)
  {
    hide HeldBy, Sole;
    if step.Reset? {
      if s.objs[step.o].Some? {
        var m := s.objs[step.o].value;
        HeldHas(s.objs, step.o);
        EmptyObj(s.objs, step.o);
        assert Calls({m}) == {CallOf(m)};
        assert Events({m}) == {m.ready};
      } else {
        assert Calls({}) == {} && Events({}) == {};
      }
    }
  }

  lemma StepKeepsOwnership(s: State, step: Step)
    requires OwnershipInv(s) && Enabled(s, step)
    ensures OwnershipInv(Apply(s, step))
  {
    var s' := Apply(s, step);
    if Moves(step) {
      MovesKeepLive(s, step);
      MoveKeepsOwnership(s, s');
    } else if step.Create? {
      NewPayload(s, step);
      CreateKeepsOwnership(s, s', Mem(s.pcs[step.t].kind, step.data, s.pcs[step.t].req, step.ready));
    } else {
      FreesOnly(s, step);
      FreeKeepsOwnership(s, s', FreedBy(s, step));
    }
    hide Apply, OwnershipInv, Enabled;
  }

  lemma NewPayload(s: State, step: Step)
    requires LiveInv(s) && Enabled(s, step) && step.Create?
    ensures var s', m := Apply(s, step), Mem(s.pcs[step.t].kind, step.data, s.pcs[step.t].req, step.ready);
            && s'.cached == s.cached && Held(s') == Held(s) + {m} && Live(s') == Live(s) + {m} && Sole(s'.objs)
            && s'.allocs == s.allocs[m.data := CallOf(m)] && s'.freed == s.freed
            && s'.created == s.created + {m.ready} && s'.pool == s.pool && s'.destroyed == s.destroyed
  {
    var m := Mem(s.pcs[step.t].kind, step.data, s.pcs[step.t].req, step.ready);
    assert m !in Live(s);
    hide HeldBy, Sole;
    FillObj(s.objs, step.o, m);
  }

  // ----------------------------------------------------------------- events are kept

  lemma MoveKeepsEvents(s: State, s': State)
    requires EventInv(s) && Live(s') == Live(s)
    requires s'.created == s.created && s'.pool + s'.destroyed == s.pool + s.destroyed && s'.pool !! s'.destroyed
    ensures EventInv(s')
  {
  }

  lemma CreateKeepsEvents(s: State, s': State, m: Mem)
    requires EventInv(s) && m.ready !in s.created
    requires Live(s') == Live(s) + {m} && s'.created == s.created + {m.ready} && s'.pool == s.pool && s'.destroyed == s.destroyed
    ensures EventInv(s')
  {
    hide HeldBy;
    forall n | n in Live(s) ensures n.ready != m.ready { assert n.ready in Events(Live(s)); }
    assert Events(Live(s')) == Events(Live(s)) + {m.ready};
  }

  /** Payloads that are destroyed give their events to the pool. */
  lemma PoolKeepsEvents(s: State, s': State, ms: set<Mem>)
    requires EventInv(s) && ms <= Live(s)
    requires Live(s') == Live(s) - ms && s'.pool == s.pool + Events(ms)
    requires s'.created == s.created && s'.destroyed == s.destroyed
    ensures EventInv(s')
  {
    hide HeldBy;
    forall m, n | m in Live(s') && n in ms ensures m.ready != n.ready {
      assert m in Live(s) && n in Live(s) && m != n;
    }
    assert Events(Live(s)) == Events(Live(s')) + Events(ms);
  }

  lemma StepKeepsEvents(s: State, step: Step)
    requires EventInv(s) && LiveInv(s) && Enabled(s, step)
    ensures EventInv(Apply(s, step))
  {
    var s' := Apply(s, step);
    if Moves(step) {
      MovesKeepLive(s, step);
      MovesKeepPool(s, step);
      MoveKeepsEvents(s, s');
    } else if step.Create? {
      NewPayload(s, step);
      CreateKeepsEvents(s, s', Mem(s.pcs[step.t].kind, step.data, s.pcs[step.t].req, step.ready));
    } else {
      FreesOnly(s, step);
      PoolKeepsEvents(s, s', FreedBy(s, step));
    }
    hide Apply, EventInv, LiveInv;
  }

  lemma MovesKeepPool(s: State, step: Step)
    requires Enabled(s, step) && Moves(step) && s.pool !! s.destroyed
    ensures var s' := Apply(s, step);
            s'.created == s.created && s'.pool + s'.destroyed == s.pool + s.destroyed && s'.pool !! s'.destroyed
  {
  }

  lemma StepKeepsInv(s: State, step: Step)
    requires Inv(s) && Enabled(s, step)
    ensures Inv(Apply(s, step))
  {
    StepKeepsCounter(s, step);
    StepKeepsOwnership(s, step);
    StepKeepsEvents(s, step);
  }

  // ------------------------------------------------------------------ whole runs

  ghost predicate IsRun(s: State, steps: seq<Step>)
    decreases |steps|
  {
    steps == [] || (Enabled(s, steps[0]) && IsRun(Apply(s, steps[0]), steps[1..]))
  }

  ghost function After(s: State, steps: seq<Step>): State
    requires IsRun(s, steps)
    decreases |steps|
  {
    if steps == [] then s else After(Apply(s, steps[0]), steps[1..])
  }

  lemma {:induction false} RunKeepsInv(s: State, steps: seq<Step>)
    requires Inv(s) && IsRun(s, steps)
    ensures Inv(After(s, steps))
    decreases |steps|
  {
    hide Inv, Apply, Enabled;
    if steps != [] {
      StepKeepsInv(s, steps[0]);
      RunKeepsInv(Apply(s, steps[0]), steps[1..]);
    }
  }

  lemma InitInv()
    ensures Inv(Init)
  {
    forall k: Kind ensures |Holders(Init, k)| + |InGet(Init, k)| + |InPut(Init, k)| == 0 {
      assert Holders(Init, k) == {} && InGet(Init, k) == {} && InPut(Init, k) == {};
    }
  }

  /** Every interleaving of every number of threads keeps counters, ownership and events in order. */
  lemma ReachableInv(steps: seq<Step>)
    requires IsRun(Init, steps)
    ensures Inv(After(Init, steps))
  {
    InitInv();
    hide *;
    RunKeepsInv(Init, steps);
  }

  /** The buffer is in a payload of the cache. */
  ghost predicate InCache(s: State, d: Buffer) {
    exists m :: m in s.cached && m.data == d
  }

  /** The buffer is in the payload that an object holds. */
  ghost predicate InObj(s: State, d: Buffer, o: Obj) {
    o in s.objs && s.objs[o].Some? && s.objs[o].value.data == d
  }

  ghost predicate InSomeObj(s: State, d: Buffer) {
    exists o :: InObj(s, d, o)
  }

  /** Linear ownership after any run: an allocated buffer is in the cache, or in exactly one live object, or was freed exactly once, and only one of these. */
  lemma OnePlace(steps: seq<Step>, d: Buffer)
    requires IsRun(Init, steps) && d in After(Init, steps).allocs
    ensures var s := After(Init, steps);
            && (InCache(s, d) || InSomeObj(s, d) || s.freed[s.allocs[d]] == 1)
            && !(InCache(s, d) && InSomeObj(s, d))
            && (InCache(s, d) || InSomeObj(s, d) ==> s.freed[s.allocs[d]] == 0)
            && (forall o, o' :: InObj(s, d, o) && InObj(s, d, o') ==> o == o')
            && (forall o :: InObj(s, d, o) ==> s.allocs[d] == CallOf(s.objs[o].value))
  {
    ReachableInv(steps);
    hide After, IsRun, CounterInv, EventInv;
    PlaceInState(After(Init, steps), d);
  }

  lemma PlaceInState(s: State, d: Buffer)
    requires OwnershipInv(s) && d in s.allocs
    ensures InCache(s, d) || InSomeObj(s, d) || s.freed[s.allocs[d]] == 1
    ensures !(InCache(s, d) && InSomeObj(s, d))
    ensures InCache(s, d) || InSomeObj(s, d) ==> s.freed[s.allocs[d]] == 0
    ensures forall o, o' :: InObj(s, d, o) && InObj(s, d, o') ==> o == o'
    ensures forall o :: InObj(s, d, o) ==> s.allocs[d] == CallOf(s.objs[o].value)
  {
    forall o | InObj(s, d, o) ensures s.objs[o].value in Live(s) && s.objs[o].value in Held(s) {
      HeldHas(s.objs, o);
    }
    if Owned(s, d) {
      var m :| m in Live(s) && m.data == d;
      if m !in s.cached {
        var o :| o in s.objs && s.objs[o] == Some(m);
        assert InObj(s, d, o);
      }
    }
  }

  /** Move assignment: swap, then reset the source. */
  function Move(s: State, dst: Obj, src: Obj): State
    requires dst in s.objs && src in s.objs
  {
    Apply(Apply(s, Swap(dst, src)), Reset(src))
  }

  /** After any run a move hands the source's payload over unfreed, frees what the target held exactly once, and touches no other object. */
  lemma MoveTransfers(steps: seq<Step>, dst: Obj, src: Obj)
    requires IsRun(Init, steps) && dst in After(Init, steps).objs && src in After(Init, steps).objs && dst != src
    ensures var s := After(Init, steps); var s' := Move(s, dst, src);
            && Inv(s')
            && s'.objs == s.objs[dst := s.objs[src]][src := None]
            && (s.objs[src].Some? ==> s'.freed[CallOf(s.objs[src].value)] == 0)
            && (s.objs[dst].Some? ==> s.freed[CallOf(s.objs[dst].value)] == 0 && s'.freed[CallOf(s.objs[dst].value)] == 1)
            && (s.objs[dst].None? ==> s'.freed == s.freed)
  {
    ReachableInv(steps);
    hide After, IsRun;
    MoveInState(After(Init, steps), dst, src);
  }

  lemma MoveInState(s: State, dst: Obj, src: Obj)
    requires Inv(s) && dst in s.objs && src in s.objs && dst != src
    ensures var s' := Move(s, dst, src);
            && Inv(s')
            && s'.objs == s.objs[dst := s.objs[src]][src := None]
            && (s.objs[src].Some? ==> s'.freed[CallOf(s.objs[src].value)] == 0)
            && (s.objs[dst].Some? ==> s.freed[CallOf(s.objs[dst].value)] == 0 && s'.freed[CallOf(s.objs[dst].value)] == 1)
            && (s.objs[dst].None? ==> s'.freed == s.freed)
  {
    MoveShape(s, dst, src);
    hide *;
    MoveKeepsInv(s, dst, src);
    InvOwnership(s);
    InvOwnership(Move(s, dst, src));
    if s.objs[dst].Some? { ObjCall(s, dst); }
    if s.objs[src].Some? { ObjCall(Move(s, dst, src), dst); }
  }

  lemma InvOwnership(s: State)
    requires Inv(s)
    ensures OwnershipInv(s)
  {
  }

  lemma MoveKeepsInv(s: State, dst: Obj, src: Obj)
    requires Inv(s) && dst in s.objs && src in s.objs
    ensures Inv(Move(s, dst, src))
  {
    hide Inv;
    StepKeepsInv(s, Swap(dst, src));
    StepKeepsInv(Apply(s, Swap(dst, src)), Reset(src));
  }

  /** What a move does to the objects and to the calls of free; needs no invariant. */
  lemma MoveShape(s: State, dst: Obj, src: Obj)
    requires dst in s.objs && src in s.objs && dst != src
    ensures var s' := Move(s, dst, src);
            && s'.objs == s.objs[dst := s.objs[src]][src := None]
            && s'.freed == s.freed + (if s.objs[dst].Some? then multiset{CallOf(s.objs[dst].value)} else multiset{})
  {
  }

  /** What an object holds was not freed. */
  lemma ObjCall(s: State, o: Obj)
    requires OwnershipInv(s) && o in s.objs && s.objs[o].Some?
    ensures s.freed[CallOf(s.objs[o].value)] == 0
  {
    HeldHas(s.objs, o);
  }

  lemma {:induction false} NoResetNothingDropped(s: State, steps: seq<Step>)
    requires IsRun(s, steps) && NothingReset(s, steps)
    ensures After(s, steps).dropped == s.dropped
    decreases |steps|
  {
    if steps != [] {
      NoResetNothingDropped(Apply(s, steps[0]), steps[1..]);
    }
  }

  /** No step of the run resets an object that holds a payload. */
  ghost predicate NothingReset(s: State, steps: seq<Step>)
    requires IsRun(s, steps)
    decreases |steps|
  {
    steps != [] ==> (steps[0].Reset? ==> s.objs[steps[0].o].None?) && NothingReset(Apply(s, steps[0]), steps[1..])
  }

  /** When payloads leave their objects only through put, each counter is exactly the objects that hold one plus the threads inside. */
  lemma CounterIsExact(steps: seq<Step>, k: Kind)
    requires IsRun(Init, steps) && NothingReset(Init, steps)
    ensures var s := After(Init, steps);
            s.outstanding.At(k) == |Holders(s, k)| + |InGet(s, k)| + |InPut(s, k)|
  {
    ReachableInv(steps);
    NoResetNothingDropped(Init, steps);
    hide After, IsRun, NothingReset;
    assert Counts(After(Init, steps), k);
  }

  /** A counter that reads 0 means: every live buffer of that kind is in the cache, and no thread is inside get or put. */
  lemma ZeroMeansAllCached(steps: seq<Step>, k: Kind)
    requires IsRun(Init, steps) && After(Init, steps).outstanding.At(k) == 0
    ensures var s := After(Init, steps);
            && (forall m :: m in Live(s) && m.kind == k ==> m in s.cached)
            && (forall t :: t in s.pcs ==> s.pcs[t].kind != k)
  {
    ReachableInv(steps);
    hide After, IsRun;
    var s := After(Init, steps);
    assert Counts(s, k);
    assert Holders(s, k) == {} && InGet(s, k) == {} && InPut(s, k) == {};
    forall m | m in Held(s) ensures m.kind != k {
      var o :| o in s.objs && s.objs[o] == Some(m);
      assert o !in Holders(s, k);
    }
    assert forall t :: t in s.pcs && s.pcs[t].kind == k ==> t in InGet(s, k) || t in InPut(s, k);
  }

  /** Whatever the counter says, a purge frees exactly the cached buffers of its kind, each once, and none that an object holds. */
  lemma PurgeSparesLeases(steps: seq<Step>, k: Kind)
    requires IsRun(Init, steps)
    ensures var s := After(Init, steps);
            var s' := Apply(s, Purge(k));
            && s'.objs == s.objs
            && (forall o :: o in s.objs && s.objs[o].Some? ==> s'.freed[CallOf(s.objs[o].value)] == 0)
            && (forall m :: m in s.cached && m.kind == k ==> s'.freed[CallOf(m)] == 1)
            && (forall c :: c in s'.freed && c !in s.freed ==> c in Calls(OfKind(s.cached, k)))
  {
    ReachableInv(steps);
    var s := After(Init, steps);
    var s' := Apply(s, Purge(k));
    StepKeepsOwnership(s, Purge(k));
    hide After, IsRun, CounterInv, EventInv;
    forall o | o in s.objs && s.objs[o].Some? ensures s'.freed[CallOf(s.objs[o].value)] == 0 {
      HeldHas(s'.objs, o);
    }
    forall m | m in s.cached && m.kind == k ensures s'.freed[CallOf(m)] == 1 {
      assert m in OfKind(s.cached, k) && CallOf(m) in Calls(OfKind(s.cached, k));
      assert CallOf(m) in s'.freed;
    }
  }

  // ------------------------------------------------------------------------- clear

  /** `WorkspaceCache::clear`: the three caches, then the event pool. */
  ghost function Clear(s: State): State {
    Apply(Apply(Apply(Apply(s, Purge(Cuda)), Purge(Pinned)), Purge(Host)), PurgePool)
  }

  lemma ClearInv(s: State)
    requires Inv(s)
    ensures Inv(Clear(s))
  {
    hide Inv, Apply;
    StepKeepsInv(s, Purge(Cuda));
    StepKeepsInv(Apply(s, Purge(Cuda)), Purge(Pinned));
    StepKeepsInv(Apply(Apply(s, Purge(Cuda)), Purge(Pinned)), Purge(Host));
    StepKeepsInv(Apply(Apply(Apply(s, Purge(Cuda)), Purge(Pinned)), Purge(Host)), PurgePool);
  }

  lemma PurgeTwoKinds(cached: set<Mem>, a: Kind, b: Kind, c: Kind)
    requires a != b && a != c && b != c
    ensures var c1 := cached - OfKind(cached, a);
            var c2 := c1 - OfKind(c1, b);
            c2 - OfKind(c2, c) == {}
  {
    var c1 := cached - OfKind(cached, a);
    var c2 := c1 - OfKind(c1, b);
    forall m | m in c2 ensures m.kind == c {
      assert m.kind == Host || m.kind == Pinned || m.kind == Cuda;
    }
  }

  lemma ClearEmpties(s: State)
    ensures Clear(s).cached == {} && Clear(s).pool == {} && Clear(s).objs == s.objs
  {
    hide OfKind, Calls, Events;
    PurgeTwoKinds(s.cached, Cuda, Pinned, Host);
  }

  /** When nothing is live every allocation was freed once, and every event is pooled or destroyed. */
  lemma NothingLive(s: State)
    requires OwnershipInv(s) && EventInv(s) && Live(s) == {}
    ensures forall d :: d in s.allocs ==> s.freed[s.allocs[d]] == 1
    ensures s.created == s.pool + s.destroyed
  {
    assert forall d :: !Owned(s, d);
    assert Events(Live(s)) == {};
  }

  /** After `clear` with no lease outstanding no buffer is live, each was freed exactly once, and every event is destroyed. */
  lemma ClearReturnsEverything(steps: seq<Step>)
    requires IsRun(Init, steps) && Held(After(Init, steps)) == {}
    ensures var s := Clear(After(Init, steps));
            && Live(s) == {} && s.pool == {}
            && (forall d :: d in s.allocs ==> s.freed[s.allocs[d]] == 1)
            && s.destroyed == s.created
  {
    ReachableInv(steps);
    var s := After(Init, steps);
    ClearInv(s);
    ClearEmpties(s);
    hide After, IsRun, Clear, CounterInv;
    NothingLive(Clear(s));
  }

  lemma PurgedEvents(s: State, k: Kind)
    ensures var s' := Apply(s, Purge(k));
            s'.pool + Events(s'.cached) == s.pool + Events(s.cached)
  {
    var s' := Apply(s, Purge(k));
    forall e | e in Events(s.cached) ensures e in s'.pool + Events(s'.cached) {
      var m :| m in s.cached && m.ready == e;
      assert m in OfKind(s.cached, k) || m in s'.cached;
    }
  }

  /** Purging the event pool before the caches would leave in it the event of every payload that was cached. */
  lemma PoolFirstLeavesEvents(s: State)
    ensures var s4 := Apply(Apply(Apply(Apply(s, PurgePool), Purge(Cuda)), Purge(Pinned)), Purge(Host));
            s4.pool == Events(s.cached) && (s4.pool == {} <==> s.cached == {})
  {
    var s1 := Apply(s, PurgePool);
    var s2 := Apply(s1, Purge(Cuda));
    var s3 := Apply(s2, Purge(Pinned));
    var s4 := Apply(s3, Purge(Host));
    PurgedEvents(s1, Cuda);
    PurgedEvents(s2, Pinned);
    PurgedEvents(s3, Host);
    PurgeTwoKinds(s.cached, Cuda, Pinned, Host);
    EventsEmpty(s.cached);
    hide Events, OfKind, Calls;
  }

  lemma EventsEmpty(ms: set<Mem>)
    ensures Events({}) == {} && (Events(ms) == {} <==> ms == {})
  {
    if m :| m in ms { assert m.ready in Events(ms); }
  }
}
