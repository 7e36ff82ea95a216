/** How far slot reservation reaches: exactly as far as all slots can be counted in an int. */
module EngineLimits {
  import opened Machine
  import opened EngineSpec
  import opened Engine

  const EMPTY := State(map[], [])
  const TWO_32 := 0x1_0000_0000

  /** The 32-bit value of a load is the load less a multiple of 2^32. */
  lemma WrapDistance(n: nat)
    requires n < TWO_63
    ensures var w := ToInt32(n);
      && -TWO_31 <= w < TWO_31 && w <= n
      && (n < TWO_31 ==> w == n)
      && (n >= TWO_31 ==> n - w >= TWO_32)
  {
    var q := (n + TWO_31) / TWO_32;
    assert TWO_32 == 2 * TWO_31;
    assert n + TWO_31 == q * TWO_32 + (n + TWO_31) % TWO_32;
    if n < TWO_31 {
      WrapFits(n, TWO_31);
    }
  }

  lemma SubtractSizes(slots: nat, w: int)
    requires slots < TWO_63 && -TWO_31 <= w < TWO_31 && w <= slots
    ensures ToSize(ToSize(slots) - ToSize(w)) == slots - w
  {
    if w < 0 {
      assert ToSize(w) == w + TWO_64;
    }
  }

  lemma VacantIs(slots: nat, pool: Pool)
    requires TotalLoad(pool) <= slots < TWO_63
    ensures Vacant(slots, Pressure(pool)) == slots - ToInt32(TotalLoad(pool))
  {
    WrapDistance(TotalLoad(pool));
    SubtractSizes(slots, ToInt32(TotalLoad(pool)));
  }

  /** With 2^31 slots or more, a pool that uses up every one of them still admits requests. */
  lemma FullPoolAdmits(p: Profile, s: State)
    requires p.queueLimit == 0 && TWO_31 <= p.poolLimit * p.concurrency < TWO_63
    requires TotalLoad(s.pool) == p.poolLimit * p.concurrency && |s.queue| < TWO_32
    ensures Admits(p, s)
  {
    VacantIs(p.poolLimit * p.concurrency, s.pool);
    WrapDistance(TotalLoad(s.pool));
  }

  // ----- filling the pool

  /** A complete pool of active workers, none of them over its concurrency. */
  ghost predicate Staffed(p: Profile, pool: Pool) {
    |pool| == p.poolLimit && forall k :: k in pool ==> pool[k].active && pool[k].load <= p.concurrency
  }

  /** One more worker is spawned and becomes active. */
  lemma HireOne(p: Profile, pool: Pool, id: nat) returns (es: seq<Event>)
    requires id !in pool && |pool| < p.poolLimit
    ensures Path(p, State(pool, []), es, State(pool[id := Slave(0, true)], []))
  {
    var spawned, hired := pool[id := Slave(0, false)], pool[id := Slave(0, true)];
    assert spawned[id := Slave(0, true)] == hired;
    OneEvent(p, State(pool, []), Spawn(id), State(spawned, []));
    PathThen(p, State(pool, []), [Spawn(id)], State(spawned, []), Activate(id, true), State(hired, []));
    es := [Spawn(id)] + [Activate(id, true)];
  }

  function Crew(n: nat): Pool {
    if n == 0 then map[] else Crew(n - 1)[n - 1 := Slave(0, true)]
  }

  lemma {:induction false} CrewSpec(n: nat)
    ensures |Crew(n)| == n && TotalLoad(Crew(n)) == 0
    ensures forall k :: k in Crew(n) ==> k < n && Crew(n)[k] == Slave(0, true)
  {
    if n > 0 {
      CrewSpec(n - 1);
      assert Crew(n).Keys == Crew(n - 1).Keys + {n - 1};
      TotalLoadUpdate(Crew(n - 1), n - 1, Slave(0, true));
    }
  }

  lemma NobodyHired(p: Profile, s: State)
    requires s == State(map[], [])
    ensures Path(p, s, [], State(Crew(0), []))
  {
  }

  lemma HireNext(p: Profile, n: nat, s: State, before: seq<Event>) returns (es: seq<Event>)
    requires 0 < n <= p.poolLimit && Path(p, s, before, State(Crew(n - 1), []))
    ensures Path(p, s, es, State(Crew(n), []))
  {
    CrewSpec(n - 1);
    var one := HireOne(p, Crew(n - 1), n - 1);
    es := before + one;
    PathConcat(p, s, before, State(Crew(n - 1), []), one, State(Crew(n), []));
  }

  lemma {:induction false} Hire(p: Profile, n: nat, s: State) returns (es: seq<Event>)
    requires n <= p.poolLimit && s == State(map[], [])
    ensures Path(p, s, es, State(Crew(n), []))
  {
    if n == 0 {
      NobodyHired(p, s);
      es := [];
    } else {
      var before := Hire(p, n - 1, s);
      es := HireNext(p, n, s, before);
    }
  }

  lemma {:induction false} TotalLoadAtLeast(pool: Pool, c: nat)
    requires forall id :: id in pool ==> pool[id].load >= c
    ensures TotalLoad(pool) >= |pool| * c
    decreases |pool|
  {
    if pool != map[] {
      var id :| id in pool;
      TotalLoadSplit(pool, id);
      TotalLoadAtLeast(pool - {id}, c);
      assert |pool - {id}| == |pool| - 1;
      OneMore(|pool|, c);
    }
  }

  lemma LeastFree(p: Profile, pool: Pool, id: nat) returns (r: nat)
    requires id in pool && Free(p, pool[id])
    ensures Selected(p, pool, r)
    decreases pool[id].load
  {
    if k :| k in pool && Free(p, pool[k]) && pool[k].load < pool[id].load {
      r := LeastFree(p, pool, k);
    } else {
      r := id;
    }
  }

  lemma SomebodyIsFree(p: Profile, pool: Pool) returns (id: nat)
    requires Staffed(p, pool) && TotalLoad(pool) < p.poolLimit * p.concurrency
    ensures Selected(p, pool, id)
  {
    if forall k :: k in pool ==> pool[k].load >= p.concurrency {
      TotalLoadAtLeast(pool, p.concurrency);
      assert false;
    }
    var k :| k in pool && pool[k].load < p.concurrency;
    id := LeastFree(p, pool, k);
  }

  lemma StillAdmits(p: Profile, pool: Pool)
    requires p.queueLimit == 0 && TotalLoad(pool) < p.poolLimit * p.concurrency < TWO_63
    ensures Admits(p, State(pool, []))
  {
    VacantIs(p.poolLimit * p.concurrency, pool);
    WrapDistance(TotalLoad(pool));
  }

  /** One more request is accepted and given to the least loaded worker. */
  lemma LoadOne(p: Profile, pool: Pool) returns (es: seq<Event>, after: Pool)
    requires p.queueLimit == 0 && Staffed(p, pool)
    requires TotalLoad(pool) < p.poolLimit * p.concurrency < TWO_63
    ensures Path(p, State(pool, []), es, State(after, []))
    ensures Staffed(p, after) && TotalLoad(after) == TotalLoad(pool) + 1
  {
    StillAdmits(p, pool);
    var id := SomebodyIsFree(p, pool);
    var fates := [] + [Assigned(id)];
    FatesGrow(p, pool, [], Assigned(id));
    after := Loaded(pool, Assigned(id));
    TotalLoadUpdate(pool, id, pool[id].(load := pool[id].load + 1));
    assert after.Keys == pool.Keys;
    OneEvent(p, State(pool, []), Accept(0), State(pool, [0]));
    PathThen(p, State(pool, []), [Accept(0)], State(pool, [0]), Dispatch(fates), State(after, []));
    es := [Accept(0)] + [Dispatch(fates)];
  }

  lemma {:induction false} LoadFully(p: Profile, pool: Pool) returns (es: seq<Event>, after: Pool)
    requires p.queueLimit == 0 && p.poolLimit * p.concurrency < TWO_63
    requires Staffed(p, pool) && TotalLoad(pool) <= p.poolLimit * p.concurrency
    ensures Path(p, State(pool, []), es, State(after, [])) && TotalLoad(after) == p.poolLimit * p.concurrency
    decreases p.poolLimit * p.concurrency - TotalLoad(pool)
  {
    if TotalLoad(pool) == p.poolLimit * p.concurrency {
      es, after := [], pool;
    } else {
      var first, mid := LoadOne(p, pool);
      var rest;
      rest, after := LoadFully(p, mid);
      es := first + rest;
      PathConcat(p, State(pool, []), first, State(mid, []), rest, State(after, []));
    }
  }

  /** With 2^31 slots or more there is a run that accepts one request more than there are slots. */
  lemma Overcommits(p: Profile) returns (es: seq<Event>, s: State)
    requires p.queueLimit == 0 && TWO_31 <= p.poolLimit * p.concurrency < TWO_63
    ensures Path(p, EMPTY, es, s) && TotalLoad(s.pool) + |s.queue| > p.poolLimit * p.concurrency
  {
    var hired := Hire(p, p.poolLimit, EMPTY);
    var pool := Crew(p.poolLimit);
    CrewSpec(p.poolLimit);
    var loaded, full := LoadFully(p, pool);
    PathConcat(p, EMPTY, hired, State(pool, []), loaded, State(full, []));
    FullPoolAdmits(p, State(full, []));
    s := State(full, [0]);
    PathThen(p, EMPTY, hired + loaded, State(full, []), Accept(0), s);
    es := hired + loaded + [Accept(0)];
  }

  ghost predicate AlwaysReserved(p: Profile) {
    forall es: seq<Event>, s: State :: Path(p, EMPTY, es, s) ==> Slots(p, s)
  }

  /** Without a queue limit, everything accepted has a slot in every run from an empty engine if
      and only if the slots can be counted in an int. */
  lemma ReservationIff(p: Profile)
    requires p.queueLimit == 0 && p.poolLimit * p.concurrency < TWO_63
    ensures AlwaysReserved(p) <==> SmallEnough(p)
  {
    if SmallEnough(p) {
      forall es: seq<Event>, s: State | Path(p, EMPTY, es, s)
        ensures Slots(p, s)
      {
        SlotReservation(p, EMPTY, es, s);
      }
    } else {
      var es, s := Overcommits(p);
    }
  }
}
