/** The least recently used cache: a recency list and an index of iterators into it. */
module LruSpec {
  import opened Wrappers

  datatype Entry<K, V> = Entry(key: K, value: V)

  /** Entries from the most to the least recently used. */
  type Entries<K, V> = seq<Entry<K, V>>

  ghost predicate Distinct<K, V>(es: Entries<K, V>) {
    forall i, j :: 0 <= i < j < |es| ==> es[i].key != es[j].key
  }

  predicate Has<K(==), V>(es: Entries<K, V>, k: K) {
    exists i :: 0 <= i < |es| && es[i].key == k
  }

  function Find<K(==), V>(es: Entries<K, V>, k: K): Option<V> {
    if es == [] then None else if es[0].key == k then Some(es[0].value) else Find(es[1..], k)
  }

  function Without<K(==), V>(es: Entries<K, V>, k: K): Entries<K, V> {
    if es == [] then [] else if es[0].key == k then es[1..] else [es[0]] + Without(es[1..], k)
  }

  function Fit<K, V>(capacity: nat, es: Entries<K, V>): Entries<K, V> {
    if |es| > capacity then es[..|es| - 1] else es
  }

  function Put<K(==), V>(capacity: nat, es: Entries<K, V>, k: K, v: V): Entries<K, V> {
    Fit(capacity, [Entry(k, v)] + Without(es, k))
  }

  function Touch<K(==), V>(es: Entries<K, V>, k: K): Entries<K, V> {
    var found := Find(es, k);
    if found.Some? then [Entry(k, found.value)] + Without(es, k) else es
  }

  datatype Op<K, V> = PutOp(key: K, value: V) | GetOp(key: K)

  function Apply<K(==), V>(capacity: nat, es: Entries<K, V>, op: Op<K, V>): Entries<K, V> {
    match op
    case PutOp(k, v) => Put(capacity, es, k, v)
    case GetOp(k) => Touch(es, k)
  }

  /** The list after a history of operations on an empty cache. */
  function After<K(==), V>(capacity: nat, ops: seq<Op<K, V>>): Entries<K, V> {
    if ops == [] then [] else Apply(capacity, After(capacity, ops[..|ops| - 1]), ops[|ops| - 1])
  }

  function LastPut<K(==), V>(ops: seq<Op<K, V>>, k: K): Option<V> {
    if ops == [] then None
    else
      var op := ops[|ops| - 1];
      if op.PutOp? && op.key == k then Some(op.value) else LastPut(ops[..|ops| - 1], k)
  }

  /** `a` results from `b` by dropping entries. */
  predicate Sub<K(==), V(==)>(a: Entries<K, V>, b: Entries<K, V>)
    decreases |b|
  {
    a == [] || (b != [] && ((a[0] == b[0] && Sub(a[1..], b[1..])) || Sub(a, b[1..])))
  }

  // ----- removing and finding

  lemma HasHead<K, V>(es: Entries<K, V>, k: K)
    requires es != []
    ensures Has(es, k) <==> es[0].key == k || Has(es[1..], k)
  {
    var rest := es[1..];
    if i :| 0 <= i < |rest| && rest[i].key == k {
      assert es[i + 1].key == k;
    }
    if i :| 0 < i < |es| && es[i].key == k {
      assert rest[i - 1].key == k;
    }
  }

  lemma {:induction false} WithoutMembers<K, V>(es: Entries<K, V>, k: K, e: Entry<K, V>)
    requires Distinct(es)
    ensures e in Without(es, k) <==> e in es && e.key != k
  {
    if es != [] {
      var rest := es[1..];
      assert es == [es[0]] + rest;
      if es[0].key == k {
        assert forall i :: 0 <= i < |rest| ==> rest[i] == es[i + 1];
      } else {
        WithoutMembers(rest, k, e);
      }
    }
  }

  lemma {:induction false} WithoutSpec<K, V>(es: Entries<K, V>, k: K)
    requires Distinct(es)
    ensures Distinct(Without(es, k)) && !Has(Without(es, k), k)
    ensures |Without(es, k)| == if Has(es, k) then |es| - 1 else |es|
    ensures !Has(es, k) ==> Without(es, k) == es
  {
    if es != [] {
      var rest := es[1..];
      HasHead(es, k);
      if es[0].key != k {
        WithoutSpec(rest, k);
        var w := Without(rest, k);
        forall i | 0 <= i < |w|
          ensures w[i].key != es[0].key
        {
          WithoutMembers(rest, k, w[i]);
          var j :| 0 <= j < |rest| && rest[j] == w[i];
          assert es[j + 1] == w[i];
        }
      }
    }
  }

  lemma {:induction false} WithoutAt<K, V>(es: Entries<K, V>, i: nat)
    requires Distinct(es) && i < |es|
    ensures Without(es, es[i].key) == es[..i] + es[i + 1..]
  {
    if i > 0 {
      var rest := es[1..];
      WithoutAt(rest, i - 1);
      assert [es[0]] + (rest[..i - 1] + rest[i..]) == es[..i] + es[i + 1..];
    }
  }

  lemma {:induction false} FindSpec<K, V>(es: Entries<K, V>, k: K)
    ensures Find(es, k).Some? <==> Has(es, k)
    ensures Find(es, k).Some? ==> Entry(k, Find(es, k).value) in es
  {
    if es != [] {
      FindSpec(es[1..], k);
      HasHead(es, k);
    }
  }

  lemma FindInDistinct<K, V>(es: Entries<K, V>, k: K, v: V)
    requires Distinct(es) && Entry(k, v) in es
    ensures Find(es, k) == Some(v)
  {
    FindSpec(es, k);
    var i :| 0 <= i < |es| && es[i] == Entry(k, v);
    assert es[i].key == k;
    assert Entry(k, Find(es, k).value) in es;
    var j :| 0 <= j < |es| && es[j] == Entry(k, Find(es, k).value);
  }

  // ----- dropping entries

  lemma {:induction false} SubReflexive<K, V>(a: Entries<K, V>)
    ensures Sub(a, a)
  {
    if a != [] {
      SubReflexive(a[1..]);
    }
  }

  lemma {:induction false} SubMembers<K, V>(a: Entries<K, V>, b: Entries<K, V>)
    requires Sub(a, b)
    ensures |a| <= |b| && (|a| == |b| ==> a == b)
    ensures forall e :: e in a ==> e in b
    decreases |b|
  {
    if a != [] {
      if a[0] == b[0] && Sub(a[1..], b[1..]) {
        SubMembers(a[1..], b[1..]);
        assert a == [a[0]] + a[1..] && b == [b[0]] + b[1..];
      } else {
        SubMembers(a, b[1..]);
      }
    }
  }

  lemma SubCons<K, V>(e: Entry<K, V>, a: Entries<K, V>, b: Entries<K, V>)
    requires Sub(a, b)
    ensures Sub([e] + a, [e] + b) && Sub(a, [e] + b)
  {
    assert ([e] + a)[1..] == a && ([e] + b)[1..] == b;
  }

  lemma {:induction false} SubWithout<K, V>(a: Entries<K, V>, b: Entries<K, V>, k: K)
    requires Sub(a, b) && Distinct(b)
    ensures Sub(Without(a, k), Without(b, k))
    decreases |b|
  {
    if a != [] {
      if a[0] == b[0] && Sub(a[1..], b[1..]) {
        if a[0].key != k {
          SubWithout(a[1..], b[1..], k);
          SubCons(a[0], Without(a[1..], k), Without(b[1..], k));
        }
      } else if b[0].key == k {
        SubMembers(a, b[1..]);
        assert forall i :: 0 <= i < |a| ==> a[i] in b[1..];
        AbsentStays(a, k);
      } else {
        SubWithout(a, b[1..], k);
        SubCons(b[0], Without(a, k), Without(b[1..], k));
      }
    }
  }

  lemma {:induction false} AbsentStays<K, V>(a: Entries<K, V>, k: K)
    requires !Has(a, k)
    ensures Without(a, k) == a
  {
    if a != [] {
      HasHead(a, k);
      AbsentStays(a[1..], k);
    }
  }

  lemma {:induction false} SubInit<K, V>(a: Entries<K, V>, b: Entries<K, V>)
    requires Sub(a, b) && a != []
    ensures b != [] && Sub(a[..|a| - 1], b[..|b| - 1]) && Sub(a[..|a| - 1], b)
    decreases |b|
  {
    var a', b' := a[..|a| - 1], b[..|b| - 1];
    if |a| > 1 {
      if a[0] == b[0] && Sub(a[1..], b[1..]) {
        SubInit(a[1..], b[1..]);
        assert a'[1..] == a[1..][..|a| - 2] && b'[1..] == b[1..][..|b| - 2];
      } else {
        SubInit(a, b[1..]);
        assert b'[1..] == b[1..][..|b| - 2];
      }
    }
  }

  // ----- the invariants of one cache

  lemma PutKeeps<K, V>(capacity: nat, es: Entries<K, V>, k: K, v: V)
    requires Distinct(es) && |es| <= capacity
    ensures Distinct(Put(capacity, es, k, v)) && |Put(capacity, es, k, v)| <= capacity
    ensures forall e :: e in Put(capacity, es, k, v) ==> e == Entry(k, v) || (e in es && e.key != k)
  {
    WithoutSpec(es, k);
    var w := Without(es, k);
    var full := [Entry(k, v)] + w;
    assert forall i :: 0 <= i < |w| ==> w[i].key != k;
    assert Distinct(full);
    forall e | e in Put(capacity, es, k, v)
      ensures e == Entry(k, v) || (e in es && e.key != k)
    {
      assert e in full;
      WithoutMembers(es, k, e);
    }
  }

  lemma TouchKeeps<K, V>(es: Entries<K, V>, k: K)
    requires Distinct(es)
    ensures Distinct(Touch(es, k)) && |Touch(es, k)| == |es|
  {
    FindSpec(es, k);
    WithoutSpec(es, k);
    var w := Without(es, k);
    assert forall i :: 0 <= i < |w| ==> w[i].key != k;
  }

  lemma TouchMembers<K, V>(es: Entries<K, V>, k: K, e: Entry<K, V>)
    requires Distinct(es)
    ensures e in Touch(es, k) <==> e in es
  {
    FindSpec(es, k);
    WithoutMembers(es, k, e);
    if e in es && e.key == k {
      FindInDistinct(es, k, e.value);
    }
  }

  /** Size never exceeds the capacity, keys are distinct, and every entry holds the last
      value put for its key. */
  lemma {:induction false} Consistent<K, V>(capacity: nat, ops: seq<Op<K, V>>)
    ensures Distinct(After(capacity, ops)) && |After(capacity, ops)| <= capacity
    ensures forall e :: e in After(capacity, ops) ==> LastPut(ops, e.key) == Some(e.value)
  {
    if ops != [] {
      var before, op := ops[..|ops| - 1], ops[|ops| - 1];
      Consistent(capacity, before);
      match op {
        case PutOp(k, v) => PutKeeps(capacity, After(capacity, before), k, v);
        case GetOp(k) =>
          TouchKeeps(After(capacity, before), k);
          forall e | e in After(capacity, ops)
            ensures LastPut(ops, e.key) == Some(e.value)
          {
            TouchMembers(After(capacity, before), k, e);
          }
      }
    }
  }

  /** A hit returns the last value put for that key. */
  lemma HitIsLastPut<K, V>(capacity: nat, ops: seq<Op<K, V>>, k: K)
    ensures Find(After(capacity, ops), k).Some? ==> Find(After(capacity, ops), k) == LastPut(ops, k)
  {
    Consistent(capacity, ops);
    FindSpec(After(capacity, ops), k);
  }

  // ----- two caches

  /** The smaller cache's list is contained in the larger's, in order, and as full as it can be. */
  ghost predicate Nested<K, V>(m: nat, n: nat, a: Entries<K, V>, b: Entries<K, V>) {
    m <= n && Distinct(b) && |b| <= n && Sub(a, b) && |a| == Min(m, |b|)
  }

  lemma SubKeys<K, V>(a: Entries<K, V>, b: Entries<K, V>, k: K)
    requires Sub(a, b) && Distinct(b)
    ensures Distinct(a) && (Has(a, k) ==> Has(b, k) && Find(a, k) == Find(b, k))
    ensures !Has(a, k) && Has(b, k) ==> |a| < |b|
  {
    SubMembers(a, b);
    SubDistinct(a, b);
    if Has(a, k) {
      FindSpec(a, k);
      FindInDistinct(b, k, Find(a, k).value);
      FindSpec(b, k);
    }
  }

  lemma {:induction false} SubDistinct<K, V>(a: Entries<K, V>, b: Entries<K, V>)
    requires Sub(a, b) && Distinct(b)
    ensures Distinct(a)
    decreases |b|
  {
    if a != [] {
      if a[0] == b[0] && Sub(a[1..], b[1..]) {
        SubDistinct(a[1..], b[1..]);
        SubMembers(a[1..], b[1..]);
        forall j | 0 < j < |a|
          ensures a[j].key != a[0].key
        {
          assert a[j] == a[1..][j - 1];
          assert a[j] in b[1..];
        }
        assert forall i, j :: 0 < i < j < |a| ==> a[i] == a[1..][i - 1] && a[j] == a[1..][j - 1];
      } else {
        SubDistinct(a, b[1..]);
      }
    }
  }

  lemma PutKeepsNested<K, V>(m: nat, n: nat, a: Entries<K, V>, b: Entries<K, V>, k: K, v: V)
    requires Nested(m, n, a, b)
    ensures Nested(m, n, Put(m, a, k, v), Put(n, b, k, v))
  {
    SubKeys(a, b, k);
    WithoutSpec(a, k);
    WithoutSpec(b, k);
    SubWithout(a, b, k);
    PutKeeps(n, b, k, v);
    var x, y := [Entry(k, v)] + Without(a, k), [Entry(k, v)] + Without(b, k);
    SubCons(Entry(k, v), Without(a, k), Without(b, k));
    SubInit(x, y);
  }

  lemma TouchKeepsNested<K, V>(m: nat, n: nat, a: Entries<K, V>, b: Entries<K, V>, k: K)
    requires Nested(m, n, a, b)
    ensures Nested(m, n, Touch(a, k), Touch(b, k))
  {
    SubKeys(a, b, k);
    FindSpec(a, k);
    FindSpec(b, k);
    WithoutSpec(a, k);
    WithoutSpec(b, k);
    TouchKeeps(b, k);
    TouchKeeps(a, k);
    SubWithout(a, b, k);
    if Has(b, k) {
      SubCons(Entry(k, Find(b, k).value), Without(a, k), Without(b, k));
    }
  }

  /** Inclusion: whatever the operations, a smaller cache holds a sub-list of what a larger
      one holds, with equal values. */
  lemma {:induction false} Inclusion<K, V>(m: nat, n: nat, ops: seq<Op<K, V>>)
    requires m <= n
    ensures Nested(m, n, After(m, ops), After(n, ops))
  {
    if ops != [] {
      var before, op := ops[..|ops| - 1], ops[|ops| - 1];
      Inclusion(m, n, before);
      match op {
        case PutOp(k, v) => PutKeepsNested(m, n, After(m, before), After(n, before), k, v);
        case GetOp(k) => TouchKeepsNested(m, n, After(m, before), After(n, before), k);
      }
    }
  }

  /** More capacity never turns a hit into a miss. */
  lemma MoreCapacityMoreHits<K, V>(m: nat, n: nat, ops: seq<Op<K, V>>, k: K)
    requires m <= n && Find(After(m, ops), k).Some?
    ensures Find(After(n, ops), k) == Find(After(m, ops), k)
  {
    Inclusion(m, n, ops);
    FindSpec(After(m, ops), k);
    SubKeys(After(m, ops), After(n, ops), k);
  }
}

/** The cache is LRU: what it holds, and in which order, in terms of the history alone. */
module LruRecency {
  import opened Wrappers
  import opened LruSpec

  function KeysOf<K(==), V>(ops: seq<Op<K, V>>): set<K> {
    if ops == [] then {} else KeysOf(ops[..|ops| - 1]) + {ops[|ops| - 1].key}
  }

  /** When the key was last used, -1 if never: by a put, or by a get while it was held. */
  function LastUse<K(==), V>(capacity: nat, ops: seq<Op<K, V>>, k: K): (n: int)
    ensures -1 <= n < |ops|
    decreases |ops|, 0
  {
    if ops == [] then -1
    else
      var before, op := ops[..|ops| - 1], ops[|ops| - 1];
      if op.key == k && (op.PutOp? || Held(capacity, before, k)) then |ops| - 1 else LastUse(capacity, before, k)
  }

  /** The other keys used since. */
  function UsedAfter<K(==), V>(capacity: nat, ops: seq<Op<K, V>>, n: int): set<K>
    decreases |ops|, 1
  {
    set j | j in KeysOf(ops) && LastUse(capacity, ops, j) > n
  }

  /** The key was used, and fewer others than the capacity have been since. */
  predicate Held<K(==), V>(capacity: nat, ops: seq<Op<K, V>>, k: K)
    decreases |ops|, 2
  {
    LastUse(capacity, ops, k) >= 0 && |UsedAfter(capacity, ops, LastUse(capacity, ops, k))| < capacity
  }

  // ----- the most recently used keys

  /** The list is in descending order of last use, and what is left out was used before it all. */
  ghost predicate Recent<K(!new), V>(capacity: nat, ops: seq<Op<K, V>>, es: Entries<K, V>) {
    && |es| <= capacity
    && (forall i :: 0 <= i < |es| ==> LastUse(capacity, ops, es[i].key) >= 0)
    && (forall i, j :: 0 <= i < j < |es| ==>
          LastUse(capacity, ops, es[i].key) > LastUse(capacity, ops, es[j].key))
    && (forall k :: LastUse(capacity, ops, k) >= 0 && !Has(es, k) ==>
          |es| == capacity && forall i :: 0 <= i < |es| ==>
            LastUse(capacity, ops, es[i].key) > LastUse(capacity, ops, k))
  }

  lemma {:induction false} UsedIsMentioned<K, V>(capacity: nat, ops: seq<Op<K, V>>, k: K)
    ensures LastUse(capacity, ops, k) >= 0 ==> k in KeysOf(ops)
  {
    if ops != [] {
      UsedIsMentioned(capacity, ops[..|ops| - 1], k);
    }
  }

  function KeySet<K(==), V>(es: Entries<K, V>): set<K> {
    set i | 0 <= i < |es| :: es[i].key
  }

  lemma {:induction false} KeySetSize<K, V>(es: Entries<K, V>)
    requires Distinct(es)
    ensures |KeySet(es)| == |es|
  {
    if es != [] {
      var rest, last := es[..|es| - 1], es[|es| - 1].key;
      KeySetSize(rest);
      assert KeySet(es) == KeySet(rest) + {last};
    }
  }

  lemma SubsetSize<K>(a: set<K>, b: set<K>)
    requires a <= b
    ensures |a| <= |b|
  {
    assert b == a + (b - a);
  }

  /** The keys used after a held one are those in front of it. */
  lemma UsedAfterHeld<K(!new), V>(capacity: nat, ops: seq<Op<K, V>>, es: Entries<K, V>, i: nat)
    requires Recent(capacity, ops, es) && i < |es|
    ensures |UsedAfter(capacity, ops, LastUse(capacity, ops, es[i].key))| == i
  {
    var n := LastUse(capacity, ops, es[i].key);
    var front := es[..i];
    assert Distinct(front);
    KeySetSize(front);
    forall k | k in UsedAfter(capacity, ops, n)
      ensures k in KeySet(front)
    {
      assert Has(es, k);
      var j :| 0 <= j < |es| && es[j].key == k;
      assert j < i;
      assert front[j].key == k;
    }
    forall k | k in KeySet(front)
      ensures k in UsedAfter(capacity, ops, n)
    {
      var j :| 0 <= j < |front| && front[j].key == k;
      assert es[j].key == k;
      UsedIsMentioned(capacity, ops, k);
    }
    assert UsedAfter(capacity, ops, n) == KeySet(front);
  }

  lemma HeldIffListed<K(!new), V>(capacity: nat, ops: seq<Op<K, V>>, es: Entries<K, V>, k: K)
    requires Recent(capacity, ops, es)
    ensures Held(capacity, ops, k) <==> Has(es, k)
  {
    var n := LastUse(capacity, ops, k);
    if Has(es, k) {
      var i :| 0 <= i < |es| && es[i].key == k;
      UsedAfterHeld(capacity, ops, es, i);
    } else if n >= 0 {
      assert Distinct(es);
      KeySetSize(es);
      forall j | j in KeySet(es)
        ensures j in UsedAfter(capacity, ops, n)
      {
        UsedIsMentioned(capacity, ops, j);
      }
      SubsetSize(KeySet(es), UsedAfter(capacity, ops, n));
    }
  }

  // ----- one operation

  /** `k` has just been used, and nothing else has. */
  ghost predicate JustUsed<K(!new), V>(capacity: nat, ops: seq<Op<K, V>>, k: K)
    requires ops != []
  {
    && LastUse(capacity, ops, k) == |ops| - 1
    && forall j :: j != k ==> LastUse(capacity, ops, j) == LastUse(capacity, ops[..|ops| - 1], j)
  }

  /** The used key in front of the rest, without what is over the capacity. */
  ghost predicate MovedToFront<K(!new), V>(capacity: nat, es: Entries<K, V>, k: K, fs: Entries<K, V>) {
    && (fs != [] ==> fs[0].key == k)
    && (forall i :: 1 <= i < |fs| ==> i - 1 < |Without(es, k)| && fs[i] == Without(es, k)[i - 1])
    && |fs| == if |Without(es, k)| < capacity then |Without(es, k)| + 1 else capacity
  }

  /** Leaving a key out keeps the order of the others. */
  lemma {:induction false} RestKeepsOrder<K, V>(es: Entries<K, V>, k: K, use: K -> int)
    requires Distinct(es)
    requires forall i, j :: 0 <= i < j < |es| ==> use(es[i].key) > use(es[j].key)
    ensures forall i, j :: 0 <= i < j < |Without(es, k)| ==> use(Without(es, k)[i].key) > use(Without(es, k)[j].key)
  {
    if es != [] && es[0].key != k {
      var rest := es[1..];
      RestKeepsOrder(rest, k, use);
      var r := Without(es, k);
      assert r == [es[0]] + Without(rest, k);
      forall j | 0 < j < |r|
        ensures use(r[0].key) > use(r[j].key)
      {
        assert r[j] in Without(rest, k);
        WithoutMembers(rest, k, r[j]);
        var i :| 0 <= i < |rest| && rest[i] == r[j];
        assert es[i + 1] == r[j];
      }
    }
  }

  lemma RestMembers<K, V>(es: Entries<K, V>, k: K, j: K)
    requires Distinct(es)
    ensures Has(Without(es, k), j) <==> Has(es, j) && j != k
  {
    if Has(es, j) && j != k {
      var i :| 0 <= i < |es| && es[i].key == j;
      WithoutMembers(es, k, es[i]);
      var n :| 0 <= n < |Without(es, k)| && Without(es, k)[n] == es[i];
    }
    if Has(Without(es, k), j) {
      var n :| 0 <= n < |Without(es, k)| && Without(es, k)[n].key == j;
      WithoutMembers(es, k, Without(es, k)[n]);
    }
  }

  lemma RestSize<K, V>(es: Entries<K, V>, k: K)
    requires Distinct(es)
    ensures |Without(es, k)| == if Has(es, k) then |es| - 1 else |es|
  {
    WithoutSpec(es, k);
  }

  /** Everything that is listed behind the front was listed before. */
  lemma BehindTheFront<K(!new), V>(capacity: nat, es: Entries<K, V>, k: K, fs: Entries<K, V>, i: nat)
    requires Distinct(es) && MovedToFront(capacity, es, k, fs) && 1 <= i < |fs|
    ensures fs[i].key != k && Has(es, fs[i].key)
  {
    assert Has(Without(es, k), fs[i].key);
    RestMembers(es, k, fs[i].key);
  }

  lemma StillListed<K(!new), V>(capacity: nat, es: Entries<K, V>, k: K, fs: Entries<K, V>, n: nat)
    requires MovedToFront(capacity, es, k, fs) && n < |Without(es, k)| && n + 1 < |fs|
    ensures Has(fs, Without(es, k)[n].key)
  {
    assert fs[n + 1].key == Without(es, k)[n].key;
  }

  /** What was listed and is not any more stood behind the rest. */
  lemma CutOff<K(!new), V>(capacity: nat, es: Entries<K, V>, k: K, fs: Entries<K, V>, j: K) returns (n: nat)
    requires Distinct(es) && MovedToFront(capacity, es, k, fs) && j != k && Has(es, j) && !Has(fs, j)
    ensures n < |Without(es, k)| && Without(es, k)[n].key == j && |fs| <= n + 1
  {
    RestMembers(es, k, j);
    n :| 0 <= n < |Without(es, k)| && Without(es, k)[n].key == j;
    if n + 1 < |fs| {
      StillListed(capacity, es, k, fs, n);
    }
  }

  lemma FrontIsOrdered<K(!new), V>(capacity: nat, ops: seq<Op<K, V>>, es: Entries<K, V>, k: K, fs: Entries<K, V>)
    requires ops != [] && JustUsed(capacity, ops, k) && Recent(capacity, ops[..|ops| - 1], es)
    requires MovedToFront(capacity, es, k, fs)
    ensures forall i :: 0 <= i < |fs| ==> LastUse(capacity, ops, fs[i].key) >= 0
    ensures forall i, j :: 0 <= i < j < |fs| ==>
              LastUse(capacity, ops, fs[i].key) > LastUse(capacity, ops, fs[j].key)
  {
    var before := ops[..|ops| - 1];
    assert Distinct(es);
    RestKeepsOrder(es, k, (j: K) => LastUse(capacity, before, j));
    forall i | 1 <= i < |fs|
      ensures fs[i].key != k && Has(es, fs[i].key)
    {
      BehindTheFront(capacity, es, k, fs, i);
    }
  }

  /** What is left out after the move was used before everything that is listed. */
  lemma LeftOutIsOlder<K(!new), V>(capacity: nat, ops: seq<Op<K, V>>, es: Entries<K, V>, k: K, fs: Entries<K, V>,
                                   j: K, i: nat)
    requires ops != [] && JustUsed(capacity, ops, k) && Recent(capacity, ops[..|ops| - 1], es)
    requires MovedToFront(capacity, es, k, fs)
    requires LastUse(capacity, ops, j) >= 0 && !Has(fs, j) && i < |fs|
    ensures |fs| == capacity && LastUse(capacity, ops, fs[i].key) > LastUse(capacity, ops, j)
  {
    var before := ops[..|ops| - 1];
    assert Distinct(es);
    assert j != k;
    RestSize(es, k);
    if i > 0 {
      BehindTheFront(capacity, es, k, fs, i);
    }
    if Has(es, j) {
      RestKeepsOrder(es, k, (x: K) => LastUse(capacity, before, x));
      var n := CutOff(capacity, es, k, fs, j);
    }
  }

  lemma MoveKeepsRecent<K(!new), V>(capacity: nat, ops: seq<Op<K, V>>, es: Entries<K, V>, k: K, fs: Entries<K, V>)
    requires ops != [] && JustUsed(capacity, ops, k) && Recent(capacity, ops[..|ops| - 1], es)
    requires MovedToFront(capacity, es, k, fs)
    ensures Recent(capacity, ops, fs)
  {
    FrontIsOrdered(capacity, ops, es, k, fs);
    forall j | LastUse(capacity, ops, j) >= 0 && !Has(fs, j)
      ensures |fs| == capacity && forall i :: 0 <= i < |fs| ==>
                LastUse(capacity, ops, fs[i].key) > LastUse(capacity, ops, j)
    {
      FullWhenLeftOut(capacity, ops, es, k, fs, j);
      forall i | 0 <= i < |fs|
        ensures LastUse(capacity, ops, fs[i].key) > LastUse(capacity, ops, j)
      {
        LeftOutIsOlder(capacity, ops, es, k, fs, j, i);
      }
    }
  }

  lemma FullWhenLeftOut<K(!new), V>(capacity: nat, ops: seq<Op<K, V>>, es: Entries<K, V>, k: K, fs: Entries<K, V>,
                                    j: K)
    requires ops != [] && JustUsed(capacity, ops, k) && Recent(capacity, ops[..|ops| - 1], es)
    requires MovedToFront(capacity, es, k, fs) && LastUse(capacity, ops, j) >= 0 && !Has(fs, j)
    ensures |fs| == capacity
  {
    assert Distinct(es);
    RestSize(es, k);
    if fs != [] && Has(es, j) {
      var n := CutOff(capacity, es, k, fs, j);
    }
  }

  // ----- every history

  lemma ConsMoves<K(!new), V>(capacity: nat, es: Entries<K, V>, e: Entry<K, V>)
    ensures MovedToFront(capacity, es, e.key, ([e] + Without(es, e.key))[..Min(capacity, |Without(es, e.key)| + 1)])
  {
  }

  lemma PutMoves<K(!new), V>(capacity: nat, es: Entries<K, V>, k: K, v: V)
    requires Distinct(es) && |es| <= capacity
    ensures MovedToFront(capacity, es, k, Put(capacity, es, k, v))
  {
    RestSize(es, k);
    ConsMoves(capacity, es, Entry(k, v));
    var all := [Entry(k, v)] + Without(es, k);
    assert all[..Min(capacity, |all|)] == Fit(capacity, all);
  }

  lemma TouchMoves<K(!new), V>(capacity: nat, es: Entries<K, V>, k: K)
    requires Distinct(es) && |es| <= capacity && Has(es, k)
    ensures MovedToFront(capacity, es, k, Touch(es, k))
  {
    FindSpec(es, k);
    RestSize(es, k);
    var e := Entry(k, Find(es, k).value);
    ConsMoves(capacity, es, e);
    var all := [e] + Without(es, k);
    assert all[..Min(capacity, |all|)] == all;
  }

  lemma {:induction false} AfterIsRecent<K(!new), V>(capacity: nat, ops: seq<Op<K, V>>)
    ensures Recent(capacity, ops, After(capacity, ops))
  {
    if ops != [] {
      var before, op := ops[..|ops| - 1], ops[|ops| - 1];
      var es := After(capacity, before);
      AfterIsRecent(capacity, before);
      assert Distinct(es);
      HeldIffListed(capacity, before, es, op.key);
      FindSpec(es, op.key);
      if op.PutOp? {
        PutMoves(capacity, es, op.key, op.value);
        MoveKeepsRecent(capacity, ops, es, op.key, After(capacity, ops));
      } else if Has(es, op.key) {
        TouchMoves(capacity, es, op.key);
        MoveKeepsRecent(capacity, ops, es, op.key, After(capacity, ops));
      }
    }
  }

  /** After any history a key is held if and only if it was used and fewer other keys than the
      capacity have been used since its own last use; and the keys are listed by last use, the
      latest first. */
  lemma {:induction false} LeastRecentlyUsed<K(!new), V>(capacity: nat, ops: seq<Op<K, V>>, k: K)
    ensures Has(After(capacity, ops), k) <==> Held(capacity, ops, k)
    ensures forall i, j :: 0 <= i < j < |After(capacity, ops)| ==>
              LastUse(capacity, ops, After(capacity, ops)[i].key) > LastUse(capacity, ops, After(capacity, ops)[j].key)
  {
    AfterIsRecent(capacity, ops);
    HeldIffListed(capacity, ops, After(capacity, ops), k);
  }
}

module LruCache {
  import opened Wrappers
  import opened LruSpec

  /** A list node; the index refers to it as an iterator would. */
  class Cell<K, V> {
    const key: K
    const value: V

    constructor (key: K, value: V)
      ensures this.key == key && this.value == value
    {
      this.key, this.value := key, value;
    }
  }

  function EntriesOf<K, V>(items: seq<Cell<K, V>>): (es: Entries<K, V>)
    ensures |es| == |items|
    ensures forall i :: 0 <= i < |items| ==> es[i] == Entry(items[i].key, items[i].value)
  {
    seq(|items|, i requires 0 <= i < |items| => Entry(items[i].key, items[i].value))
  }

  lemma EntriesEqual<K, V>(items: seq<Cell<K, V>>, es: Entries<K, V>)
    requires |es| == |items| && forall i :: 0 <= i < |items| ==> es[i] == Entry(items[i].key, items[i].value)
    ensures EntriesOf(items) == es
  {
  }

  /** The index that belongs to a list. */
  function IndexOf<K(==), V>(items: seq<Cell<K, V>>): map<K, Cell<K, V>> {
    if items == [] then map[] else IndexOf(items[1..])[items[0].key := items[0]]
  }

  /** The keys of the list are distinct and the index is the one that belongs to it. */
  ghost predicate Coherent<K, V>(items: seq<Cell<K, V>>, index: map<K, Cell<K, V>>) {
    Distinct(EntriesOf(items)) && index == IndexOf(items)
  }

  lemma {:induction false} IndexSpec<K, V>(items: seq<Cell<K, V>>, k: K)
    requires Distinct(EntriesOf(items))
    ensures |IndexOf(items)| == |items|
    ensures k in IndexOf(items) <==> Has(EntriesOf(items), k)
    ensures k in IndexOf(items) ==>
              var c := IndexOf(items)[k]; c in items && c.key == k && Find(EntriesOf(items), k) == Some(c.value)
  {
    if items != [] {
      var es, rest := EntriesOf(items), items[1..];
      assert EntriesOf(rest) == es[1..];
      IndexSpec(rest, k);
      HasHead(es, k);
      IndexSpec(rest, items[0].key);
      assert !Has(es[1..], items[0].key);
      assert IndexOf(items).Keys == IndexOf(rest).Keys + {items[0].key};
    }
  }

  lemma IndexWithoutHead<K, V>(items: seq<Cell<K, V>>)
    requires Distinct(EntriesOf(items)) && items != []
    ensures IndexOf(items[1..]) == IndexOf(items) - {items[0].key}
  {
    DistinctTail(items);
    IndexSpec(items[1..], items[0].key);
    PutRemove(IndexOf(items[1..]), items[0].key, items[0]);
  }

  lemma DistinctTail<K, V>(items: seq<Cell<K, V>>)
    requires Distinct(EntriesOf(items)) && items != []
    ensures EntriesOf(items[1..]) == EntriesOf(items)[1..] && Distinct(EntriesOf(items[1..]))
    ensures !Has(EntriesOf(items[1..]), items[0].key)
  {
  }

  lemma PutRemove<K, T>(m: map<K, T>, k: K, v: T)
    requires k !in m
    ensures m[k := v] - {k} == m
  {
  }

  lemma {:induction false} IndexUnlinked<K, V>(a: seq<Cell<K, V>>, c: Cell<K, V>, b: seq<Cell<K, V>>)
    requires Distinct(EntriesOf(a + [c] + b))
    ensures IndexOf(a + b) == IndexOf(a + [c] + b) - {c.key}
  {
    var all := a + [c] + b;
    if a == [] {
      assert a + b == b && all == [c] + b && all[1..] == b;
      IndexWithoutHead(all);
    } else {
      assert (a + b)[1..] == a[1..] + b && all[1..] == a[1..] + [c] + b;
      DistinctTail(all);
      IndexUnlinked(a[1..], c, b);
      DifferentKeys(all, 0, |a|);
      RemoveCommutes(IndexOf(all[1..]), a[0].key, a[0], c.key);
    }
  }

  lemma DifferentKeys<K, V>(items: seq<Cell<K, V>>, i: nat, j: nat)
    requires Distinct(EntriesOf(items)) && i < j < |items|
    ensures items[i].key != items[j].key
  {
    assert EntriesOf(items)[i].key != EntriesOf(items)[j].key;
  }

  lemma RemoveCommutes<K, T>(m: map<K, T>, x: K, v: T, k: K)
    requires x != k
    ensures (m - {k})[x := v] == m[x := v] - {k}
  {
  }

  lemma Unlinked<K, V>(items: seq<Cell<K, V>>, index: map<K, Cell<K, V>>, i: nat)
    requires Coherent(items, index) && i < |items|
    ensures Coherent(items[..i] + items[i + 1..], index - {items[i].key})
    ensures EntriesOf(items[..i] + items[i + 1..]) == Without(EntriesOf(items), items[i].key)
  {
    EntriesUnlinked(items, i);
    assert items == items[..i] + [items[i]] + items[i + 1..];
    IndexUnlinked(items[..i], items[i], items[i + 1..]);
    WithoutSpec(EntriesOf(items), items[i].key);
  }

  lemma LastUnlinked<K, V>(items: seq<Cell<K, V>>, index: map<K, Cell<K, V>>)
    requires Coherent(items, index) && items != []
    ensures var n := |items| - 1;
            && Coherent(items[..n], index - {items[n].key})
            && EntriesOf(items[..n]) == EntriesOf(items)[..n]
  {
    var n, all := |items| - 1, EntriesOf(items);
    Unlinked(items, index, n);
    WithoutAt(all, n);
    assert items[..n] + items[n + 1..] == items[..n];
    assert all[..n] + all[n + 1..] == all[..n];
  }

  lemma EntriesUnlinked<K, V>(items: seq<Cell<K, V>>, i: nat)
    requires Distinct(EntriesOf(items)) && i < |items|
    ensures EntriesOf(items[..i] + items[i + 1..]) == Without(EntriesOf(items), items[i].key)
  {
    var es := EntriesOf(items);
    WithoutAt(es, i);
    EntriesCut(items, es, i);
  }

  lemma EntriesCut<K, V>(items: seq<Cell<K, V>>, es: Entries<K, V>, i: nat)
    requires es == EntriesOf(items) && i < |items|
    ensures EntriesOf(items[..i] + items[i + 1..]) == es[..i] + es[i + 1..]
  {
    EntriesEqual(items[..i] + items[i + 1..], es[..i] + es[i + 1..]);
  }

  lemma Linked<K, V>(items: seq<Cell<K, V>>, index: map<K, Cell<K, V>>, cell: Cell<K, V>)
    requires Coherent(items, index) && cell.key !in index
    ensures Coherent([cell] + items, index[cell.key := cell])
    ensures EntriesOf([cell] + items) == [Entry(cell.key, cell.value)] + EntriesOf(items)
  {
    var es := [Entry(cell.key, cell.value)] + EntriesOf(items);
    EntriesEqual([cell] + items, es);
    assert ([cell] + items)[1..] == items;
    IndexSpec(items, cell.key);
    assert forall j :: 0 < j < |es| ==> es[j].key != cell.key;
  }

  class Cache<K(==), V> {
    var items: seq<Cell<K, V>>
    var index: map<K, Cell<K, V>>
    const maxSize: nat

    ghost predicate Valid()
      reads this
    {
      Coherent(items, index) && |items| <= maxSize
    }

    function Contents(): Entries<K, V>
      reads this
    {
      EntriesOf(items)
    }

    constructor (maxSize: nat)
      ensures Valid() && this.maxSize == maxSize && Contents() == []
    {
      this.maxSize := maxSize;
      items, index := [], map[];
    }

    /** Takes the entry of a known key out of the list, through its iterator. */
    method Erase(k: K) returns (cell: Cell<K, V>)
      requires Coherent(items, index) && k in index
      modifies this`items
      ensures cell == index[k] && cell.key == k && Find(old(Contents()), k) == Some(cell.value)
      ensures Coherent(items, index - {k}) && |items| == |old(items)| - 1
      ensures Contents() == Without(old(Contents()), k)
    {
      IndexSpec(items, k);
      cell := index[k];
      var i :| 0 <= i < |items| && items[i] == cell;
      Unlinked(items, index, i);
      items := items[..i] + items[i + 1..];
    }

    method Get(k: K) returns (r: Option<V>)
      requires Valid()
      modifies this`items
      ensures Valid()
      ensures r == Find(old(Contents()), k)
      ensures Contents() == Touch(old(Contents()), k)
    {
      IndexSpec(items, k);
      FindSpec(Contents(), k);
      if k !in index {
        return None;
      }
      var cell := Erase(k);
      Linked(items, index - {k}, cell);
      assert (index - {k})[k := cell] == index;
      items := [cell] + items;
      r := Some(cell.value);
    }

    method PushFront(k: K, v: V)
      requires Coherent(items, index) && k !in index
      modifies this
      ensures Coherent(items, index)
      ensures Contents() == [Entry(k, v)] + old(Contents())
    {
      var cell := new Cell(k, v);
      Linked(items, index, cell);
      items := [cell] + items;
      index := index[k := cell];
    }

    method PopBack()
      requires Coherent(items, index) && items != []
      modifies this
      ensures Coherent(items, index)
      ensures Contents() == old(Contents()[..|Contents()| - 1])
    {
      LastUnlinked(items, index);
      var n := |items| - 1;
      index := index - {items[n].key};
      items := items[..n];
    }

    method Put(k: K, v: V)
      requires Valid()
      modifies this
      ensures Valid()
      ensures Contents() == LruSpec.Put(maxSize, old(Contents()), k, v)
    {
      IndexSpec(items, k);
      WithoutSpec(Contents(), k);
      if k in index {
        var erased := Erase(k);
        index := index - {k};
      }
      PushFront(k, v);
      IndexSpec(items, k);
      if |index| > maxSize {
        PopBack();
      }
    }

    method Exists(k: K) returns (r: bool)
      requires Valid()
      ensures r <==> Has(Contents(), k)
    {
      IndexSpec(items, k);
      r := k in index;
    }

    method Size() returns (n: nat)
      requires Valid()
      ensures n == |Contents()| && n <= maxSize
    {
      if items != [] {
        IndexSpec(items, items[0].key);
      }
      n := |index|;
    }
  }
}
