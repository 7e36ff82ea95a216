/** The engine object: its pool and queue are changed in place by the methods below, each of
    which is tied to the steps of `EngineSpec`. */
module Engine {
  import opened Wrappers
  import opened EngineSpec
  import opened Machine

  /** What happens when a load is offered to a worker: clocks and workers decide. */
  datatype Verdict = Inject | Expire | Reject

  /** What became of one offer of the front of the queue. */
  datatype Offer = NoSlave | Refused(worker: nat) | Taken(fate: Fate)

  function ActiveIds(pool: Pool): set<nat> {
    set id | id in pool && pool[id].active
  }

  /** Loads are untouched, nobody wakes up, and whoever was sealed had no more load than
      anybody left. */
  ghost predicate SealedLeast(before: Pool, after: Pool) {
    && after.Keys == before.Keys
    && (forall k :: k in before ==> after[k].load == before[k].load && (after[k].active ==> before[k].active))
    && (forall i, j :: i in before && j in before && before[i].active && !after[i].active && after[j].active ==>
          before[i].load <= before[j].load)
  }

  /** The result of sealing: if every worker obeys, exactly `target` or fewer stay active. */
  ghost predicate SealedDown(before: Pool, after: Pool, target: nat, obeys: nat -> bool) {
    && SealedLeast(before, after)
    && ((forall id :: id in before ==> obeys(id)) ==> |ActiveIds(after)| == Min(|ActiveIds(before)|, target))
  }

  /** The size the pool is brought to: the manual target, else the automatic one, clamped. */
  ghost function Target(p: Profile, s: State, manual: nat): nat
    requires ValidProfile(p)
  {
    Clamp(if manual > 0 then manual else Wanted(p, s), 1, p.poolLimit)
  }

  function Sealed(pool: Pool, id: nat): Pool
    requires id in pool
  {
    pool[id := pool[id].(active := false)]
  }

  lemma SealsNext(before: Pool, pool: Pool, id: nat)
    requires SealedLeast(before, pool) && id in pool && pool[id].active
    requires forall k :: k in pool && pool[k].active ==> pool[id].load <= pool[k].load
    ensures SealedLeast(before, Sealed(pool, id))
  {
    assert Sealed(pool, id).Keys == pool.Keys;
  }

  lemma SealCounts(pool: Pool, id: nat)
    requires id in pool && pool[id].active
    ensures |ActiveIds(Sealed(pool, id))| == |ActiveIds(pool)| - 1
    ensures TotalLoad(Sealed(pool, id)) == TotalLoad(pool) && |Sealed(pool, id)| == |pool|
  {
    TotalLoadUpdate(pool, id, pool[id].(active := false));
    assert ActiveIds(Sealed(pool, id)) == ActiveIds(pool) - {id};
    assert Sealed(pool, id).Keys == pool.Keys;
  }

  // ----- paths

  lemma OneEvent(p: Profile, s: State, e: Event, s': State)
    requires Possible(p, s, e, s')
    ensures Path(p, s, [e], s')
  {
    assert [e][1..] == [];
    assert Path(p, s', [], s');
  }

  lemma {:induction false} PathConcat(p: Profile, a: State, es: seq<Event>, b: State, fs: seq<Event>, c: State)
    requires Path(p, a, es, b) && Path(p, b, fs, c)
    ensures Path(p, a, es + fs, c)
    decreases |es|
  {
    if es == [] {
      assert es + fs == fs;
    } else {
      var mid :| Possible(p, a, es[0], mid) && Path(p, mid, es[1..], b);
      PathConcat(p, mid, es[1..], b, fs, c);
      assert (es + fs)[0] == es[0] && (es + fs)[1..] == es[1..] + fs;
    }
  }

  lemma PathThen(p: Profile, a: State, es: seq<Event>, b: State, e: Event, c: State)
    requires Path(p, a, es, b) && Possible(p, b, e, c)
    ensures Path(p, a, es + [e], c)
  {
    OneEvent(p, b, e, c);
    PathConcat(p, a, es, b, [e], c);
  }

  /** `acc` is what adding up everything but `rest` leaves in the int. */
  ghost predicate SumsTo(acc: int, rest: Pool, pool: Pool) {
    ToInt32(acc) == acc && ToInt32(acc + TotalLoad(rest)) == ToInt32(TotalLoad(pool))
  }

  lemma SumsFurther(acc: int, rest: Pool, k: nat, pool: Pool)
    requires SumsTo(acc, rest, pool) && k in rest
    ensures SumsTo(ToInt32(acc + rest[k].load), rest - {k}, pool)
  {
    TotalLoadSplit(rest, k);
    WrapAdds(acc + rest[k].load, TotalLoad(rest - {k}), TWO_31);
    WrapAdds(acc + rest[k].load, 0, TWO_31);
  }

  /** What the chosen worker had to say about the load decided what became of it. */
  function Deciding(f: Fate): Verdict {
    if f.Assigned? then Inject else Expire
  }

  ghost predicate Judged(verdict: (Load, nat) -> Verdict, queue: seq<Load>, fates: seq<Fate>) {
    && |fates| <= |queue|
    && forall i :: 0 <= i < |fates| ==> verdict(queue[i], fates[i].id) == Deciding(fates[i])
  }

  lemma JudgedGrows(verdict: (Load, nat) -> Verdict, queue: seq<Load>, fates: seq<Fate>, f: Fate)
    requires Judged(verdict, queue, fates) && |fates| < |queue|
    requires verdict(queue[|fates|], f.id) == Deciding(f)
    ensures Judged(verdict, queue, fates + [f])
  {
  }

  /** The first loads of `s` have left the queue, each judged by the worker chosen for it. */
  ghost predicate Dispatching(p: Profile, verdict: (Load, nat) -> Verdict, s: State, fates: seq<Fate>, t: State) {
    && |fates| <= |s.queue| && ValidFates(p, s.pool, fates) && Judged(verdict, s.queue, fates)
    && t == State(After(s.pool, fates), s.queue[|fates|..])
  }

  lemma DispatchesNext(p: Profile, verdict: (Load, nat) -> Verdict, s: State, fates: seq<Fate>, t: State, f: Fate)
    requires Dispatching(p, verdict, s, fates, t) && t.queue != []
    requires Selected(p, t.pool, f.id) && verdict(t.queue[0], f.id) == Deciding(f)
    ensures Dispatching(p, verdict, s, fates + [f], State(Loaded(t.pool, f), t.queue[1..]))
  {
    FatesGrow(p, s.pool, fates, f);
    JudgedGrows(verdict, s.queue, fates, f);
    assert s.queue[|fates|..][1..] == s.queue[|fates| + 1..];
  }

  /** Why dispatching ends: a worker rejects the next load, or there is none, or nobody to take it. */
  ghost predicate Stopped(p: Profile, verdict: (Load, nat) -> Verdict, s: State, rejected: bool) {
    if rejected then s.queue != [] && exists id :: Selected(p, s.pool, id) && verdict(s.queue[0], id) == Reject
    else s.queue == [] || s.pool == map[] || NobodyFree(p, s.pool)
  }

  /** The loads leave the queue in order, each judged by the worker chosen for it, until a reason
      to stop. */
  ghost predicate Dispatched(p: Profile, verdict: (Load, nat) -> Verdict, s: State, fates: seq<Fate>, rejected: bool,
                             t: State) {
    && Possible(p, s, Dispatch(fates), t)
    && Judged(verdict, s.queue, fates)
    && Stopped(p, verdict, t, rejected)
  }

  /** Nobody left or changed, and the new workers are idle and not active yet. */
  ghost predicate Joined(before: Pool, after: Pool) {
    && (forall k :: k in before ==> k in after && after[k] == before[k])
    && (forall k :: k in after && k !in before ==> after[k] == Slave(0, false))
  }

  /** The pool was brought to its target: sealed down under a manual target that is not above its
      size, grown otherwise, and left alone while resizing is off. */
  ghost predicate Resized(p: Profile, manual: nat, off: bool, obeys: nat -> bool, s: State, t: State)
    requires ValidProfile(p)
  {
    var target := Target(p, s, manual);
    && t.queue == s.queue
    && (if off then t == s
        else if manual > 0 && target <= |s.pool| then SealedDown(s.pool, t.pool, target, obeys)
        else Joined(s.pool, t.pool) && |t.pool| == if |s.pool| < target then target else |s.pool|)
  }

  class EngineObject {
    const profile: Profile
    var pool: Pool
    var queue: seq<Load>
    var manualTarget: nat
    var backoff: bool
    var lastTimeout: nat
    var stopped: bool
    var nextId: nat

    function View(): State
      reads this
    {
      State(pool, queue)
    }

    ghost predicate Valid()
      reads this
    {
      && ValidProfile(profile) && |pool| <= profile.poolLimit
      && (forall id :: id in pool ==> id < nextId)
      && lastTimeout in {1, 2, 4, 8, 16, 32}
    }

    constructor (profile: Profile)
      requires ValidProfile(profile)
      ensures Valid() && this.profile == profile && View() == State(map[], [])
      ensures manualTarget == 0 && !backoff && !stopped
    {
      this.profile := profile;
      pool, queue, manualTarget, nextId := map[], [], 0, 0;
      backoff, lastTimeout, stopped := false, 1, false;
    }

    /** The least loaded worker among those that pass the filter. */
    method SelectSlave(onlyFree: bool) returns (r: Option<nat>)
      ensures r.Some? ==>
                && r.value in pool && pool[r.value].active && (onlyFree ==> Free(profile, pool[r.value]))
                && forall k :: k in pool && pool[k].active && (onlyFree ==> Free(profile, pool[k])) ==>
                     pool[r.value].load <= pool[k].load
      ensures r.None? ==> forall k :: k in pool && pool[k].active ==> onlyFree && !Free(profile, pool[k])
    {
      r := None;
      var rest := pool.Keys;
      while rest != {}
        invariant rest <= pool.Keys
        invariant r.Some? ==>
                    && r.value in pool && pool[r.value].active && (onlyFree ==> Free(profile, pool[r.value]))
                    && forall k ::
                         k in pool && k !in rest && pool[k].active && (onlyFree ==> Free(profile, pool[k])) ==>
                         pool[r.value].load <= pool[k].load
        invariant r.None? ==>
                    forall k :: k in pool && k !in rest && pool[k].active ==> onlyFree && !Free(profile, pool[k])
        decreases rest
      {
        var k :| k in rest;
        rest := rest - {k};
        if pool[k].active && (!onlyFree || Free(profile, pool[k])) {
          if r.None? || pool[k].load < pool[r.value].load {
            r := Some(k);
          }
        }
      }
    }

    /** Adds the loads up in an int, as the original does. */
    method PoolPressure() returns (r: nat)
      ensures r == Pressure(pool)
    {
      var acc := 0;
      var rest := pool;
      while rest != map[]
        invariant rest.Keys <= pool.Keys
        invariant SumsTo(acc, rest, pool)
        decreases |rest|
      {
        var k :| k in rest;
        SumsFurther(acc, rest, k, pool);
        acc := ToInt32(acc + rest[k].load);
        rest := rest - {k};
      }
      r := ToSize(acc);
    }

    /** Offers the front of the queue to the least loaded free worker. */
    method OfferFront(verdict: (Load, nat) -> Verdict) returns (offer: Offer)
      requires queue != []
      modifies this`pool, this`queue
      ensures offer == NoSlave ==> NobodyFree(profile, pool) && View() == old(View())
      ensures offer.Refused? ==>
                && View() == old(View()) && Selected(profile, pool, offer.worker)
                && verdict(old(queue)[0], offer.worker) == Reject
      ensures offer.Taken? ==>
                && Selected(profile, old(pool), offer.fate.id)
                && verdict(old(queue)[0], offer.fate.id) == Deciding(offer.fate)
                && pool == Loaded(old(pool), offer.fate) && queue == old(queue)[1..]
    {
      var slave := SelectSlave(true);
      if slave.None? {
        return NoSlave;
      }
      var id := slave.value;
      match verdict(queue[0], id) {
        case Reject =>
          offer := Refused(id);
        case Expire =>
          queue := queue[1..];
          offer := Taken(Expired(id));
        case Inject =>
          pool := pool[id := pool[id].(load := pool[id].load + 1)];
          queue := queue[1..];
          offer := Taken(Assigned(id));
      }
    }

    /** Hands queued loads to workers until the queue, the pool or the free slots run out, or
        a worker rejects one. */
    method RebalanceEvents(verdict: (Load, nat) -> Verdict) returns (fates: seq<Fate>, rejected: bool)
      modifies this`pool, this`queue
      ensures Dispatched(profile, verdict, old(View()), fates, rejected, View())
    {
      fates, rejected := [], false;
      if pool == map[] {
        return;
      }
      while queue != []
        invariant Dispatching(profile, verdict, old(View()), fates, View())
        invariant !rejected
        decreases |queue|
      {
        ghost var before := View();
        var offer := OfferFront(verdict);
        match offer {
          case NoSlave => return;
          case Refused(_) =>
            rejected := true;
            return;
          case Taken(fate) =>
            DispatchesNext(profile, verdict, old(View()), fates, before, fate);
            fates := fates + [fate];
        }
      }
    }

    /** Adds a worker, which becomes active later; false where the original throws. */
    method SpawnSlave() returns (ok: bool)
      requires Valid()
      modifies this`pool, this`nextId
      ensures Valid()
      ensures ok <==> old(|pool|) < profile.poolLimit
      ensures ok ==> Possible(profile, old(View()), Spawn(old(nextId)), View()) && |pool| == old(|pool|) + 1
      ensures !ok ==> View() == old(View())
    {
      ok := |pool| < profile.poolLimit;
      if ok {
        assert pool[nextId := Slave(0, false)].Keys == pool.Keys + {nextId};
        pool := pool[nextId := Slave(0, false)];
        nextId := nextId + 1;
      }
    }

    /** Spawns until the pool has the wanted size. */
    method GrowTo(target: nat) returns (ghost trace: seq<Event>, threw: bool)
      requires Valid()
      modifies this`pool, this`nextId
      ensures Valid() && Path(profile, old(View()), trace, View())
      ensures threw <==> target > profile.poolLimit && |old(pool)| < target
      ensures !threw ==> |pool| == if old(|pool|) < target then target else old(|pool|)
      ensures TotalLoad(pool) == old(TotalLoad(pool)) && queue == old(queue) && Joined(old(pool), pool)
      ensures forall e :: e in trace ==> e.Spawn?
    {
      trace, threw := [], false;
      while |pool| < target && !threw
        invariant Valid() && Path(profile, old(View()), trace, View())
        invariant |pool| >= old(|pool|) && (|pool| <= target || |pool| == old(|pool|))
        invariant threw ==> |pool| == profile.poolLimit && |pool| < target
        invariant TotalLoad(pool) == old(TotalLoad(pool)) && queue == old(queue) && Joined(old(pool), pool)
        invariant forall e :: e in trace ==> e.Spawn?
        decreases target - |pool|, !threw
      {
        ghost var before, id := View(), nextId;
        TotalLoadUpdate(pool, nextId, Slave(0, false));
        var ok := SpawnSlave();
        if ok {
          PathThen(profile, old(View()), trace, before, Spawn(id), View());
          trace := trace + [Spawn(id)];
        } else {
          threw := true;
        }
      }
    }

    method SealSlave(id: nat)
      requires Valid() && id in pool && pool[id].active
      modifies this`pool
      ensures Valid() && Possible(profile, old(View()), Seal(id), View()) && pool == Sealed(old(pool), id)
      ensures |ActiveIds(pool)| == |ActiveIds(old(pool))| - 1
      ensures TotalLoad(pool) == TotalLoad(old(pool)) && |pool| == |old(pool)|
    {
      SealCounts(pool, id);
      pool := pool[id := pool[id].(active := false)];
    }

    /** Picks the least loaded active worker and seals it, if it obeys. */
    method SealLeast(obeys: nat -> bool) returns (r: Option<nat>, obeyed: bool)
      requires Valid()
      modifies this`pool
      ensures Valid() && TotalLoad(pool) == old(TotalLoad(pool)) && |pool| == old(|pool|)
      ensures r.None? ==> ActiveIds(pool) == {} && pool == old(pool)
      ensures r.Some? ==>
                && r.value in old(pool) && old(pool)[r.value].active && obeyed == obeys(r.value)
                && forall k :: k in old(pool) && old(pool)[k].active ==> old(pool)[r.value].load <= old(pool)[k].load
      ensures r.Some? && !obeyed ==> pool == old(pool)
      ensures r.Some? && obeyed ==>
                && Possible(profile, old(View()), Seal(r.value), View()) && pool == Sealed(old(pool), r.value)
                && |ActiveIds(pool)| == old(|ActiveIds(pool)|) - 1
    {
      obeyed := false;
      r := SelectSlave(false);
      if r.Some? {
        obeyed := obeys(r.value);
        if obeyed {
          SealSlave(r.value);
        }
      }
    }

    /** Seals least loaded workers until only `target` are active; `obeys` tells which workers
        let themselves be sealed. */
    method SealDownTo(target: nat, obeys: nat -> bool) returns (ghost trace: seq<Event>)
      requires Valid() && target > 0
      modifies this`pool
      ensures Valid() && Path(profile, old(View()), trace, View())
      ensures SealedDown(old(pool), pool, target, obeys)
      ensures forall e :: e in trace ==> e.Seal?
      ensures TotalLoad(pool) == old(TotalLoad(pool)) && queue == old(queue) && |pool| == old(|pool|)
    {
      trace := [];
      var active := |ActiveIds(pool)|;
      while active > target
        invariant Valid() && Path(profile, old(View()), trace, View())
        invariant SealedLeast(old(pool), pool)
        invariant forall e :: e in trace ==> e.Seal?
        invariant (forall id :: id in old(pool) ==> obeys(id)) ==>
                    |ActiveIds(pool)| == active && Min(active, target) == Min(|ActiveIds(old(pool))|, target)
        invariant TotalLoad(pool) == old(TotalLoad(pool)) && queue == old(queue) && |pool| == old(|pool|)
        decreases active
      {
        ghost var before := View();
        var slave, obeyed := SealLeast(obeys);
        if slave.None? {
          return;
        }
        if obeyed {
          SealsNext(old(pool), before.pool, slave.value);
          PathThen(profile, old(View()), trace, before, Seal(slave.value), View());
          trace := trace + [Seal(slave.value)];
        }
        active := active - 1;
      }
    }

    /** How many workers the queue asks for, or the work and the slots there are. */
    method AutomaticTarget() returns (target: nat)
      requires ValidProfile(profile)
      ensures target == Wanted(profile, View())
    {
      if profile.queueLimit > 0 {
        target := |queue| / profile.growThreshold;
      } else {
        var pressure := PoolPressure();
        var vacant := Vacant(|pool| * profile.concurrency, pressure);
        var lack := 0;
        if |queue| >= vacant {
          lack := CeilDiv(|queue| - vacant, profile.concurrency);
        }
        target := |pool| + lack;
      }
    }

    method ChooseTarget() returns (target: nat)
      requires ValidProfile(profile)
      ensures target == Target(profile, View(), manualTarget)
      ensures manualTarget > 0 ==> target == Min(manualTarget, profile.poolLimit)
      ensures manualTarget == 0 && |pool| <= profile.poolLimit ==>
                RightSize(profile, View(), if |pool| < target then target else |pool|)
    {
      if manualTarget > 0 {
        target := manualTarget;
      } else {
        target := AutomaticTarget();
        if |pool| <= profile.poolLimit {
          GrowthIsRight(profile, View());
        }
      }
      target := Clamp(target, 1, profile.poolLimit);
    }

    /** Brings the pool to the size that the manual target or the load asks for. */
    method RebalanceSlaves(obeys: nat -> bool) returns (ghost trace: seq<Event>, threw: bool)
      requires Valid()
      modifies this`pool, this`nextId
      ensures Valid() && Path(profile, old(View()), trace, View())
      ensures Resized(profile, manualTarget, stopped || backoff, obeys, old(View()), View())
      ensures !stopped && !backoff && manualTarget == 0 ==> RightSize(profile, old(View()), |pool|)
      ensures !stopped && !backoff && manualTarget > 0 && |old(pool)| < manualTarget ==>
                |pool| == Min(manualTarget, profile.poolLimit)
      ensures !stopped && !backoff && manualTarget > 0 && |old(pool)| >= manualTarget ==>
                SealedDown(old(pool), pool, manualTarget, obeys)
      ensures TotalLoad(pool) == old(TotalLoad(pool))
      ensures forall e :: e in trace ==> if manualTarget == 0 then e.Spawn? else e.Spawn? || e.Seal?
      ensures !threw
    {
      trace, threw := [], false;
      if stopped {
        return;
      }
      var target := ChooseTarget();
      if backoff {
        return;
      }
      if manualTarget > 0 && target <= |pool| {
        trace := SealDownTo(target, obeys);
      } else if manualTarget > 0 || |pool| < profile.poolLimit {
        trace, threw := GrowTo(target);
      }
    }

    /** Dispatches, and then resizes what dispatching has left. */
    method RebalanceAll(verdict: (Load, nat) -> Verdict, obeys: nat -> bool)
      returns (ghost fates: seq<Fate>, ghost rejected: bool, ghost mid: State, ghost more: seq<Event>)
      requires Valid()
      modifies this`pool, this`queue, this`nextId
      ensures Valid() && Path(profile, old(View()), [Dispatch(fates)] + more, View())
      ensures Dispatched(profile, verdict, old(View()), fates, rejected, mid)
      ensures Resized(profile, manualTarget, stopped || backoff, obeys, mid, View())
      ensures forall e :: e in more ==> if manualTarget == 0 then e.Spawn? else e.Spawn? || e.Seal?
    {
      fates, rejected := RebalanceEvents(verdict);
      DispatchKeepsValid(profile, old(pool), fates);
      OneEvent(profile, old(View()), Dispatch(fates), View());
      mid := View();
      ghost var threw;
      more, threw := RebalanceSlaves(obeys);
      PathConcat(profile, old(View()), [Dispatch(fates)], mid, more, View());
    }

    /** Accepts or refuses a request, then dispatches and resizes. */
    method Enqueue(load: Load, verdict: (Load, nat) -> Verdict, obeys: nat -> bool)
      returns (accepted: bool, ghost fates: seq<Fate>, ghost rejected: bool, ghost mid: State, ghost more: seq<Event>)
      requires Valid()
      modifies this`pool, this`queue, this`nextId
      ensures Valid()
      ensures accepted <==> old(Admits(profile, View()))
      ensures var entered := if accepted then old(View().(queue := queue + [load])) else old(View());
              Dispatched(profile, verdict, entered, fates, rejected, mid)
      ensures Resized(profile, manualTarget, stopped || backoff, obeys, mid, View())
      ensures var first := if accepted then [Accept(load)] else [];
              Path(profile, old(View()), first + ([Dispatch(fates)] + more), View())
      ensures forall e :: e in more ==> if manualTarget == 0 then e.Spawn? else e.Spawn? || e.Seal?
    {
      if profile.queueLimit > 0 {
        accepted := |queue| < profile.queueLimit;
      } else {
        var pressure := PoolPressure();
        accepted := |queue| < Vacant(profile.poolLimit * profile.concurrency, pressure);
      }
      ghost var first := [];
      if accepted {
        queue := queue + [load];
        first := [Accept(load)];
        OneEvent(profile, old(View()), Accept(load), View());
      }
      ghost var entered := View();
      fates, rejected, mid, more := RebalanceAll(verdict, obeys);
      PathConcat(profile, old(View()), first, entered, [Dispatch(fates)] + more, View());
    }

    /** A worker is gone. After a failure nothing is spawned until a timer fires, whose delay
        doubles with every recent failure, up to 32 seconds. */
    method OnSlaveDeath(id: nat, failed: bool, recently: bool)
      requires Valid()
      modifies this`pool, this`backoff, this`lastTimeout
      ensures Valid() && Possible(profile, old(View()), Leave(id), View())
      ensures backoff == (old(backoff) || failed)
      ensures lastTimeout == if !failed || old(backoff) then old(lastTimeout)
                             else if recently then Min(2 * old(lastTimeout), 32) else 1
    {
      if failed && !backoff {
        backoff := true;
        if recently {
          lastTimeout := Min(lastTimeout * 2, 32);
        } else {
          lastTimeout := 1;
        }
      }
      if id in pool {
        assert (pool - {id}).Keys == pool.Keys - {id};
      } else {
        assert pool - {id} == pool;
      }
      pool := pool - {id};
    }
  }

  lemma DispatchKeepsValid(p: Profile, pool: Pool, fates: seq<Fate>)
    requires ValidFates(p, pool, fates)
    ensures After(pool, fates).Keys == pool.Keys && |After(pool, fates)| == |pool|
  {
    DispatchKeeps(p, pool, fates);
  }

  /** One worker for every `threshold` queued requests, as far as the limit allows: the size `n`
      is enough, and no larger than that unless the pool was before. */
  predicate OneWorkerPer(threshold: nat, limit: nat, queued: nat, before: nat, n: nat) {
    && before <= n && n >= 1
    && (n == limit || (n + 1) * threshold > queued)
    && (n > before && n > 1 ==> n * threshold <= queued)
  }

  /** With a queue limit the automatic policy keeps a worker for every threshold of requests. */
  lemma GrowthByThreshold(p: Profile, s: State)
    requires ValidProfile(p) && |s.pool| <= p.poolLimit
    ensures p.queueLimit > 0 ==> OneWorkerPer(p.growThreshold, p.poolLimit, |s.queue|, |s.pool|, Grown(p, s))
  {
    if p.queueLimit > 0 {
      Quotient(|s.queue|, p.growThreshold);
      var q := |s.queue| / p.growThreshold;
      if Grown(p, s) < p.poolLimit {
        MulMonotone(q + 1, Grown(p, s) + 1, p.growThreshold);
      }
    }
  }

  lemma Quotient(a: nat, b: nat)
    requires b > 0
    ensures a / b * b <= a < (a / b + 1) * b
  {
    assert a == a / b * b + a % b;
  }

  /** How many workers there are after resizing by the automatic policy. */
  ghost function Grown(p: Profile, s: State): nat
    requires ValidProfile(p)
  {
    if |s.pool| < Target(p, s, 0) then Target(p, s, 0) else |s.pool|
  }

  /** `n` workers have slots for all the work, and one less would not do, unless the pool was that
      large before. */
  predicate EnoughWorkers(concurrency: nat, work: nat, before: nat, n: nat) {
    && before <= n && n >= 1
    && n * concurrency >= work
    && (n > before && n > 1 ==> (n - 1) * concurrency < work)
  }

  /** Without a queue limit the automatic policy keeps as many workers as the accepted work needs. */
  lemma GrowthBySlots(p: Profile, s: State)
    requires ValidProfile(p)
    ensures p.queueLimit == 0 && SmallEnough(p) && Slots(p, s) ==>
      EnoughWorkers(p.concurrency, TotalLoad(s.pool) + |s.queue|, |s.pool|, Grown(p, s))
  {
    if p.queueLimit == 0 && SmallEnough(p) && Slots(p, s) {
      GrowthSuffices(p, s);
      GrowthIsMinimal(p, s);
    }
  }

  /** After resizing, the automatic policy has workers for everything accepted. */
  lemma GrowthSuffices(p: Profile, s: State)
    requires ValidProfile(p) && SmallEnough(p) && p.queueLimit == 0 && Slots(p, s)
    ensures Grown(p, s) * p.concurrency >= TotalLoad(s.pool) + |s.queue|
  {
    TargetSufficesAndIsMinimal(p, s);
    MulMonotone(Wanted(p, s), Grown(p, s), p.concurrency);
  }

  /** If it grew, to more than the one worker it always keeps, one less would not do. */
  lemma GrowthIsMinimal(p: Profile, s: State)
    requires ValidProfile(p) && SmallEnough(p) && p.queueLimit == 0 && Slots(p, s)
    ensures Grown(p, s) > |s.pool| && Grown(p, s) > 1 ==>
              (Grown(p, s) - 1) * p.concurrency < TotalLoad(s.pool) + |s.queue|
  {
    TargetSufficesAndIsMinimal(p, s);
  }

  /** The size the automatic policy owes its users, in terms of the queue and the loads alone. */
  ghost predicate RightSize(p: Profile, s: State, n: nat) {
    if p.queueLimit > 0 then OneWorkerPer(p.growThreshold, p.poolLimit, |s.queue|, |s.pool|, n)
    else SmallEnough(p) && Slots(p, s) ==>
      EnoughWorkers(p.concurrency, TotalLoad(s.pool) + |s.queue|, |s.pool|, n)
  }

  lemma GrowthIsRight(p: Profile, s: State)
    requires ValidProfile(p) && |s.pool| <= p.poolLimit
    ensures RightSize(p, s, Grown(p, s))
  {
    GrowthByThreshold(p, s);
    GrowthBySlots(p, s);
  }
}
