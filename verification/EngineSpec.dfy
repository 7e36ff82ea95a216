/** The worker pool scheduler: admission, dispatch and pool sizing as steps of one state. */
module EngineSpec {
  import opened Machine

  datatype Profile = Profile(concurrency: nat, poolLimit: nat, queueLimit: nat, growThreshold: nat)

  /** What the profile is validated for. */
  predicate ValidProfile(p: Profile) {
    p.concurrency > 0 && p.poolLimit > 0 && p.growThreshold > 0
  }

  /** A worker as the scheduler sees it. */
  datatype Slave = Slave(load: nat, active: bool)

  type Pool = map<nat, Slave>

  /** A queued request, known by a number. */
  type Load = nat

  datatype State = State(pool: Pool, queue: seq<Load>)

  // ----- loads

  ghost function TotalLoad(pool: Pool): nat
    decreases |pool|
  {
    if pool == map[] then 0
    else
      var id :| id in pool;
      pool[id].load + TotalLoad(pool - {id})
  }

  lemma {:induction false} TotalLoadSplit(pool: Pool, id: nat)
    requires id in pool
    ensures TotalLoad(pool) == pool[id].load + TotalLoad(pool - {id})
    decreases |pool|
  {
    var k :| k in pool && TotalLoad(pool) == pool[k].load + TotalLoad(pool - {k});
    if k != id {
      TotalLoadSplit(pool - {k}, id);
      TotalLoadSplit(pool - {id}, k);
      assert pool - {k} - {id} == pool - {id} - {k};
    }
  }

  lemma TotalLoadUpdate(pool: Pool, id: nat, s: Slave)
    ensures TotalLoad(pool[id := s]) == TotalLoad(pool) + s.load - (if id in pool then pool[id].load else 0)
  {
    TotalLoadSplit(pool[id := s], id);
    if id in pool {
      TotalLoadSplit(pool, id);
      assert pool[id := s] - {id} == pool - {id};
    } else {
      assert pool[id := s] - {id} == pool;
    }
  }

  lemma OneMore(n: int, c: int)
    ensures (n - 1) * c + c == n * c
  {
  }

  lemma {:induction false} TotalLoadBound(pool: Pool, c: nat)
    requires forall id :: id in pool ==> pool[id].load <= c
    ensures TotalLoad(pool) <= |pool| * c
    decreases |pool|
  {
    if pool != map[] {
      var id :| id in pool;
      TotalLoadSplit(pool, id);
      TotalLoadBound(pool - {id}, c);
      assert |pool - {id}| == |pool| - 1;
      OneMore(|pool|, c);
    }
  }

  /** The total as the code computes it: accumulated in a 32-bit int, returned as a size. */
  ghost function Pressure(pool: Pool): nat {
    ToSize(ToInt32(TotalLoad(pool)))
  }

  /** The unsigned subtraction, with its wrap-around. */
  function Vacant(slots: nat, pressure: nat): nat {
    ToSize(ToSize(slots) - pressure)
  }

  /** The computed total is right exactly as long as the true one fits in a signed 32-bit int. */
  lemma PressureExactIff(pool: Pool)
    requires TotalLoad(pool) < 0x8000_0000_0000_0000
    ensures Pressure(pool) == TotalLoad(pool) <==> TotalLoad(pool) < TWO_31
  {
    if TotalLoad(pool) < TWO_31 {
      WrapFits(TotalLoad(pool), TWO_31);
    }
  }

  lemma VacantExact(slots: nat, pool: Pool)
    requires TotalLoad(pool) <= slots < TWO_31
    ensures Pressure(pool) == TotalLoad(pool)
    ensures Vacant(slots, Pressure(pool)) == slots - TotalLoad(pool)
  {
    WrapFits(TotalLoad(pool), TWO_31);
  }

  // ----- choosing a worker

  predicate Free(p: Profile, s: Slave) {
    s.active && s.load < p.concurrency
  }

  /** A free worker with the least load among the free ones. */
  ghost predicate Selected(p: Profile, pool: Pool, id: nat) {
    && id in pool && Free(p, pool[id])
    && forall k :: k in pool && Free(p, pool[k]) ==> pool[id].load <= pool[k].load
  }

  ghost predicate NobodyFree(p: Profile, pool: Pool) {
    forall k :: k in pool && pool[k].active ==> pool[k].load >= p.concurrency
  }

  // ----- dispatching the queue

  /** What became of the load at the front of the queue when worker `id` was chosen for it. */
  datatype Fate = Assigned(id: nat) | Expired(id: nat)

  function Loaded(pool: Pool, f: Fate): Pool {
    if f.Assigned? && f.id in pool then pool[f.id := pool[f.id].(load := pool[f.id].load + 1)] else pool
  }

  function After(pool: Pool, fates: seq<Fate>): Pool {
    if fates == [] then pool else Loaded(After(pool, fates[..|fates| - 1]), fates[|fates| - 1])
  }

  /** Each load was taken when the worker it was offered to was the least loaded of the free ones. */
  ghost predicate ValidFates(p: Profile, pool: Pool, fates: seq<Fate>) {
    fates == [] ||
    (&& ValidFates(p, pool, fates[..|fates| - 1])
     && var before, f := After(pool, fates[..|fates| - 1]), fates[|fates| - 1];
     && Selected(p, before, f.id))
  }

  lemma FatesGrow(p: Profile, pool: Pool, fates: seq<Fate>, f: Fate)
    requires ValidFates(p, pool, fates) && Selected(p, After(pool, fates), f.id)
    ensures ValidFates(p, pool, fates + [f]) && After(pool, fates + [f]) == Loaded(After(pool, fates), f)
  {
    assert (fates + [f])[..|fates|] == fates;
  }

  /** How many loads were really put on a worker. */
  function AssignedCount(fates: seq<Fate>): nat {
    if fates == [] then 0
    else AssignedCount(fates[..|fates| - 1]) + (if fates[|fates| - 1].Assigned? then 1 else 0)
  }

  lemma AssignedBound(fates: seq<Fate>)
    ensures AssignedCount(fates) <= |fates|
  {
  }

  lemma {:induction false} DispatchKeeps(p: Profile, pool: Pool, fates: seq<Fate>)
    requires ValidFates(p, pool, fates)
    ensures After(pool, fates).Keys == pool.Keys
    ensures forall k :: k in pool ==> After(pool, fates)[k].active == pool[k].active
    ensures TotalLoad(After(pool, fates)) == TotalLoad(pool) + AssignedCount(fates)
    ensures (forall k :: k in pool ==> pool[k].load <= p.concurrency) ==>
              forall k :: k in pool ==> After(pool, fates)[k].load <= p.concurrency
  {
    if fates != [] {
      var rest, f := fates[..|fates| - 1], fates[|fates| - 1];
      DispatchKeeps(p, pool, rest);
      if f.Assigned? {
        var before := After(pool, rest);
        TotalLoadUpdate(before, f.id, before[f.id].(load := before[f.id].load + 1));
      }
    }
  }

  /** No two active workers differ by more than `d`. */
  ghost predicate SpreadWithin(pool: Pool, d: nat) {
    forall i, j :: i in pool && j in pool && pool[i].active && pool[j].active ==> pool[i].load <= pool[j].load + d
  }

  /** Dispatching never spreads the active workers further apart than they were, or than one. */
  lemma {:induction false} DispatchBalances(p: Profile, pool: Pool, fates: seq<Fate>, d: nat)
    requires ValidFates(p, pool, fates) && SpreadWithin(pool, d) && d >= 1
    ensures SpreadWithin(After(pool, fates), d)
  {
    if fates != [] {
      var rest := fates[..|fates| - 1];
      DispatchBalances(p, pool, rest, d);
      DispatchKeeps(p, pool, rest);
    }
  }

  // ----- the steps of the engine

  /** Whether a new request may enter. */
  ghost predicate Admits(p: Profile, s: State) {
    if p.queueLimit > 0 then |s.queue| < p.queueLimit
    else |s.queue| < Vacant(p.poolLimit * p.concurrency, Pressure(s.pool))
  }

  datatype Event =
    | Accept(load: Load)
    | Dispatch(fates: seq<Fate>)
    | Spawn(id: nat)
    | Seal(id: nat)
    | Finish(id: nat)
    | Leave(id: nat)
    | Activate(id: nat, active: bool)

  ghost predicate Possible(p: Profile, s: State, e: Event, s': State) {
    match e
    case Accept(load) => Admits(p, s) && s' == s.(queue := s.queue + [load])
    case Dispatch(fates) =>
      && |fates| <= |s.queue| && ValidFates(p, s.pool, fates)
      && s' == State(After(s.pool, fates), s.queue[|fates|..])
    case Spawn(id) =>
      && id !in s.pool && |s.pool| < p.poolLimit
      && s' == s.(pool := s.pool[id := Slave(0, false)])
    case Seal(id) => id in s.pool && s' == s.(pool := s.pool[id := s.pool[id].(active := false)])
    case Finish(id) =>
      && id in s.pool && s.pool[id].load > 0
      && s' == s.(pool := s.pool[id := s.pool[id].(load := s.pool[id].load - 1)])
    case Leave(id) => s' == s.(pool := s.pool - {id})
    case Activate(id, active) => id in s.pool && s' == s.(pool := s.pool[id := s.pool[id].(active := active)])
  }

  ghost predicate Path(p: Profile, s: State, es: seq<Event>, s': State)
    decreases |es|
  {
    if es == [] then s' == s
    else exists mid :: Possible(p, s, es[0], mid) && Path(p, mid, es[1..], s')
  }

  // ----- slots

  ghost predicate SlavesFit(p: Profile, pool: Pool) {
    |pool| <= p.poolLimit && forall k :: k in pool ==> pool[k].load <= p.concurrency
  }

  /** Everything accepted has a slot reserved for it. */
  ghost predicate Slots(p: Profile, s: State) {
    && SlavesFit(p, s.pool)
    && (p.queueLimit == 0 ==> TotalLoad(s.pool) + |s.queue| <= p.poolLimit * p.concurrency)
  }

  /** All slots together can be counted in the int the code uses. */
  predicate SmallEnough(p: Profile) {
    p.poolLimit * p.concurrency < TWO_31
  }

  lemma DispatchKeepsSlots(p: Profile, s: State, fates: seq<Fate>)
    requires Slots(p, s) && |fates| <= |s.queue| && ValidFates(p, s.pool, fates)
    ensures Slots(p, State(After(s.pool, fates), s.queue[|fates|..]))
  {
    DispatchKeeps(p, s.pool, fates);
    AssignedBound(fates);
    assert |After(s.pool, fates)| == |s.pool| by { assert After(s.pool, fates).Keys == s.pool.Keys; }
  }

  lemma StepKeepsSlots(p: Profile, s: State, e: Event, s': State)
    requires SmallEnough(p) && Slots(p, s) && Possible(p, s, e, s')
    ensures Slots(p, s')
  {
    match e {
      case Accept(_) =>
        if p.queueLimit == 0 {
          VacantExact(p.poolLimit * p.concurrency, s.pool);
        }
      case Dispatch(fates) => DispatchKeepsSlots(p, s, fates);
      case Spawn(id) => TotalLoadUpdate(s.pool, id, Slave(0, false));
      case Seal(id) => TotalLoadUpdate(s.pool, id, s.pool[id].(active := false));
      case Finish(id) => TotalLoadUpdate(s.pool, id, s.pool[id].(load := s.pool[id].load - 1));
      case Leave(id) =>
        if id in s.pool {
          TotalLoadSplit(s.pool, id);
        } else {
          assert s.pool - {id} == s.pool;
        }
      case Activate(id, active) => TotalLoadUpdate(s.pool, id, s.pool[id].(active := active));
    }
  }

  /** Slot reservation: in every reachable state no worker is over its concurrency, without a
      queue limit everything accepted fits the slots, and neither subtraction wraps. */
  lemma {:induction false} SlotReservation(p: Profile, s0: State, es: seq<Event>, s: State)
    requires SmallEnough(p) && Slots(p, s0) && Path(p, s0, es, s)
    ensures Slots(p, s)
    ensures p.queueLimit == 0 ==>
              Vacant(p.poolLimit * p.concurrency, Pressure(s.pool)) == p.poolLimit * p.concurrency - TotalLoad(s.pool)
    ensures Vacant(|s.pool| * p.concurrency, Pressure(s.pool)) == |s.pool| * p.concurrency - TotalLoad(s.pool)
    decreases |es|
  {
    if es == [] {
      PoolVacancyExact(p, s);
      if p.queueLimit == 0 {
        VacantExact(p.poolLimit * p.concurrency, s.pool);
      }
    } else {
      var mid :| Possible(p, s0, es[0], mid) && Path(p, mid, es[1..], s);
      StepKeepsSlots(p, s0, es[0], mid);
      SlotReservation(p, mid, es[1..], s);
    }
  }

  lemma PoolVacancyExact(p: Profile, s: State)
    requires SmallEnough(p) && SlavesFit(p, s.pool)
    ensures |s.pool| * p.concurrency <= p.poolLimit * p.concurrency && TotalLoad(s.pool) <= |s.pool| * p.concurrency
    ensures Vacant(|s.pool| * p.concurrency, Pressure(s.pool)) == |s.pool| * p.concurrency - TotalLoad(s.pool)
  {
    TotalLoadBound(s.pool, p.concurrency);
    MulMonotone(|s.pool|, p.poolLimit, p.concurrency);
    VacantExact(|s.pool| * p.concurrency, s.pool);
  }

  lemma MulStrict(a: int, b: int, c: nat)
    requires a * c < b * c
    ensures a < b
  {
    if b <= a {
      MulMonotone(b, a, c);
    }
  }

  // ----- pool size

  function Clamp(value: nat, low: nat, high: nat): nat {
    var m := if value < high then value else high;
    if low < m then m else low
  }

  function CeilDiv(a: nat, b: nat): nat
    requires b > 0
  {
    (a + b - 1) / b
  }

  /** How many workers the automatic policy asks for, before clamping. */
  ghost function Wanted(p: Profile, s: State): nat
    requires ValidProfile(p)
  {
    if p.queueLimit > 0 then |s.queue| / p.growThreshold
    else
      var vacant := Vacant(|s.pool| * p.concurrency, Pressure(s.pool));
      |s.pool| + if |s.queue| < vacant then 0 else CeilDiv(|s.queue| - vacant, p.concurrency)
  }

  lemma CeilDivSpec(a: nat, b: nat)
    requires b > 0
    ensures CeilDiv(a, b) * b >= a
    ensures CeilDiv(a, b) > 0 ==> (CeilDiv(a, b) - 1) * b < a
    ensures a == 0 ==> CeilDiv(a, b) == 0
  {
    var q, r := (a + b - 1) / b, (a + b - 1) % b;
    assert a + b - 1 == q * b + r;
    assert (q - 1) * b == q * b - b;
  }

  /** `n` workers with `vacant` free slots in all lack this many for a longer queue. */
  lemma LackSpec(n: nat, c: nat, vacant: nat, queue: nat, limit: nat)
    requires c > 0 && vacant <= queue && queue - vacant + n * c <= limit * c
    ensures var lack := CeilDiv(queue - vacant, c);
      && (n + lack) * c >= n * c + queue - vacant
      && (lack > 0 ==> (n + lack - 1) * c < n * c + queue - vacant && n + lack <= limit)
  {
    var lack := CeilDiv(queue - vacant, c);
    CeilDivSpec(queue - vacant, c);
    Distribute(n, lack, c);
    if lack > 0 {
      Distribute(n, lack - 1, c);
      MulStrict(n + lack - 1, limit, c);
    }
  }

  /** Without a queue limit the automatic target is enough for everything accepted, never cut
      by the limit, and one worker less would not do. */
  lemma TargetSufficesAndIsMinimal(p: Profile, s: State)
    requires ValidProfile(p) && SmallEnough(p) && p.queueLimit == 0 && Slots(p, s)
    ensures Wanted(p, s) <= p.poolLimit
    ensures Clamp(Wanted(p, s), 1, p.poolLimit) == if Wanted(p, s) == 0 then 1 else Wanted(p, s)
    ensures Wanted(p, s) >= |s.pool|
    ensures Wanted(p, s) * p.concurrency >= TotalLoad(s.pool) + |s.queue|
    ensures Wanted(p, s) > |s.pool| ==> (Wanted(p, s) - 1) * p.concurrency < TotalLoad(s.pool) + |s.queue|
  {
    PoolVacancyExact(p, s);
    var vacant := |s.pool| * p.concurrency - TotalLoad(s.pool);
    if |s.queue| >= vacant {
      LackSpec(|s.pool|, p.concurrency, vacant, |s.queue|, p.poolLimit);
    }
  }

  lemma Distribute(a: nat, b: int, c: nat)
    ensures (a + b) * c == a * c + b * c
  {
  }
}
