/** The disk-backed queue of internal/persistence/queue.go.  The store is a map from byte
    strings iterated in byte order; whether encoding, reading, committing and decoding succeed
    is part of each request. */
module Queue {
  import opened ByteKeys
  import opened Values

  type Key = seq<Byte>

  datatype State<V> = State(store: map<Key, V>, last: nat)

  datatype Request<V> =
    | Enqueue(item: V, encodes: bool, commits: bool)
    | Dequeue(readable: bool, commits: bool, decodes: bool)
    | Len(views: bool)

  datatype Reply<V> = Stored(ok: bool) | Taken(item: Result<V>) | Counted(count: int)

  ghost predicate IsLeast<V(!new)>(store: map<Key, V>, k: Key) {
    k in store && forall x :: x in store ==> x == k || Before(k, x)
  }

  lemma {:induction false} LeastExists<V(!new)>(store: map<Key, V>)
    requires store != map[]
    ensures exists k :: IsLeast(store, k)
  {
    var y :| y in store;
    var rest := store - {y};
    if rest == map[] {
      assert forall x :: x in store ==> x == y || x in rest;
      assert IsLeast(store, y);
    } else {
      assert |rest| < |store| by { assert rest.Keys == store.Keys - {y}; }
      LeastExists(rest);
      var k :| IsLeast(rest, k);
      Connected(k, y);
      forall x | x in store && x != k && x != y && Before(y, k)
        ensures Before(y, x)
      {
        assert x in rest;
        Transitive(y, k, x);
      }
      forall x | x in store && x != y
        ensures x == k || Before(k, x)
      {
        assert x in rest;
      }
      assert IsLeast(store, k) || IsLeast(store, y);
    }
  }

  lemma LeastIsUnique<V(!new)>(store: map<Key, V>, j: Key, k: Key)
    requires IsLeast(store, j) && IsLeast(store, k)
    ensures j == k
  {
    if j != k {
      Transitive(j, k, j);
      Irreflexive(j);
    }
  }

  ghost function Least<V(!new)>(store: map<Key, V>): (k: Key)
    requires store != map[]
    ensures IsLeast(store, k)
  {
    LeastExists(store);
    var k :| IsLeast(store, k);
    k
  }

  /** The stored values in the order the iterator meets them. */
  ghost function Contents<V(!new)>(store: map<Key, V>): (c: seq<V>)
    ensures |c| == |store|
    ensures forall v :: v in c <==> v in store.Values
    decreases |store|
  {
    if store == map[] then []
    else
      var k := Least(store);
      var rest := store - {k};
      assert store.Keys == rest.Keys + {k};
      assert forall x :: x in store ==> x == k || x in rest;
      assert forall v :: v in store.Values <==> v == store[k] || v in rest.Values;
      [store[k]] + Contents(rest)
  }

  function Next(last: nat): (n: nat)
    ensures n < WORD
  {
    (last + 1) % WORD
  }

  ghost function Apply<V(!new)>(s: State<V>, r: Request<V>): (State<V>, Reply<V>) {
    match r
    case Enqueue(item, encodes, commits) =>
      var n := Next(s.last);
      (State(if encodes && commits then s.store[KeyOf(n) := item] else s.store, n), Stored(encodes && commits))
    case Dequeue(readable, commits, decodes) =>
      if s.store == map[] then (s, Taken(Err(KeyNotFound)))
      else if !readable || !commits then (s, Taken(Err(StoreFailed)))
      else
        var k := Least(s.store);
        (s.(store := s.store - {k}), Taken(if decodes then Ok(s.store[k]) else Err(DecodeFailed)))
    case Len(views) => (s, Counted(if views then |s.store| else -1))
  }

  /** The plain FIFO the queue stands for. */
  function FifoApply<V(!new)>(q: seq<V>, r: Request<V>): (seq<V>, Reply<V>) {
    match r
    case Enqueue(item, encodes, commits) =>
      (if encodes && commits then q + [item] else q, Stored(encodes && commits))
    case Dequeue(readable, commits, decodes) =>
      if q == [] then (q, Taken(Err(KeyNotFound)))
      else if !readable || !commits then (q, Taken(Err(StoreFailed)))
      else (q[1..], Taken(if decodes then Ok(q[0]) else Err(DecodeFailed)))
    case Len(views) => (q, Counted(if views then |q| else -1))
  }

  ghost function Run<V(!new)>(s: State<V>, rs: seq<Request<V>>): (State<V>, seq<Reply<V>>)
    decreases |rs|
  {
    if rs == [] then (s, [])
    else
      var (s1, a) := Apply(s, rs[0]);
      var (s2, as1) := Run(s1, rs[1..]);
      (s2, [a] + as1)
  }

  function FifoRun<V(!new)>(q: seq<V>, rs: seq<Request<V>>): (seq<V>, seq<Reply<V>>)
    decreases |rs|
  {
    if rs == [] then (q, [])
    else
      var (q1, a) := FifoApply(q, rs[0]);
      var (q2, as1) := FifoRun(q1, rs[1..]);
      (q2, [a] + as1)
  }

  function Enqueues<V(!new)>(rs: seq<Request<V>>): nat {
    if rs == [] then 0 else (if rs[0].Enqueue? then 1 else 0) + Enqueues(rs[1..])
  }

  /** Every stored key was handed out under the current sequence number or an earlier one; the first
      one is 1, so the key of 0 is not stored. */
  ghost predicate Monotone<V(!new)>(s: State<V>) {
    s.last < WORD && forall k :: k in s.store ==> exists n: nat :: 1 <= n <= s.last && k == KeyOf(n)
  }

  /** A value stored behind all others comes out last. */
  lemma {:induction false} StoredBehind<V(!new)>(store: map<Key, V>, k: Key, v: V)
    requires forall x :: x in store ==> Before(x, k)
    ensures Contents(store[k := v]) == Contents(store) + [v]
    decreases |store|
  {
    var more := store[k := v];
    if k in store { Irreflexive(k); }
    if store == map[] {
      assert more - {k} == map[];
      LeastIsUnique(more, k, Least(more));
    } else {
      var l := Least(store);
      assert IsLeast(more, l);
      LeastIsUnique(more, l, Least(more));
      assert more - {l} == (store - {l})[k := v];
      assert (store - {l}).Keys == store.Keys - {l};
      StoredBehind(store - {l}, k, v);
    }
  }

  lemma Rest<V(!new)>(store: map<Key, V>)
    requires store != map[]
    ensures var l := Least(store);
            Contents(store) == [store[l]] + Contents(store - {l}) && |store - {l}| == |store| - 1
  {
    assert (store - {Least(store)}).Keys == store.Keys - {Least(store)};
  }

  /** A value stored in front of some other one does not come out last. */
  lemma {:induction false} StoredInFront<V(!new)>(store: map<Key, V>, k: Key, v: V, z: Key)
    requires k in store && store[k] == v && z in store && Before(k, z)
    requires forall x :: x in store && x != k ==> store[x] != v
    ensures Contents(store)[|store| - 1] != v
    decreases |store|
  {
    var l := Least(store);
    var rest := store - {l};
    Rest(store);
    NotLeast(store, k, z);
    assert z in rest;
    if l == k {
      assert Contents(rest)[|rest| - 1] in rest.Values;
    } else {
      StoredInFront(rest, k, v, z);
    }
  }

  lemma NotLeast<V(!new)>(store: map<Key, V>, k: Key, z: Key)
    requires k in store && z in store && Before(k, z)
    ensures z != Least(store)
  {
    if z == Least(store) && k != z {
      Transitive(k, z, k);
    }
    Irreflexive(k);
  }

  /** Exactly when an acknowledged Enqueue keeps first-in-first-out: no stored key may be at or
      after the key it writes.  (Stated for an item not already stored, which makes its place
      in the queue visible.) */
  lemma EnqueueAppendsIff<V(!new)>(s: State<V>, item: V)
    requires item !in s.store.Values
    ensures Contents(Apply(s, Enqueue(item, true, true)).0.store) == Contents(s.store) + [item]
       <==> forall x :: x in s.store ==> Before(x, KeyOf(Next(s.last)))
  {
    var k := KeyOf(Next(s.last));
    var more := s.store[k := item];
    if forall x :: x in s.store ==> Before(x, k) {
      StoredBehind(s.store, k, item);
    } else if k in s.store {
      assert more.Keys == s.store.Keys;
      assert |Contents(more)| == |Contents(s.store)|;
    } else {
      var z :| z in s.store && !Before(z, k);
      Connected(z, k);
      forall x | x in more && x != k ensures more[x] != item {
        assert s.store[x] in s.store.Values;
      }
      StoredInFront(more, k, item, z);
    }
  }

  /** The sequence number stands before every number still stored. */
  ghost predicate Rewound<V(!new)>(s: State<V>) {
    forall k :: k in s.store ==> exists n: nat :: Next(s.last) <= n < WORD && k == KeyOf(n)
  }

  /** Once the sequence has moved back behind the stored keys, the next Enqueue keeps the order
      exactly when nothing is stored. */
  lemma RewoundLosesOrder<V(!new)>(s: State<V>, item: V)
    requires Rewound(s) && item !in s.store.Values
    ensures Contents(Apply(s, Enqueue(item, true, true)).0.store) == Contents(s.store) + [item]
       <==> s.store == map[]
  {
    EnqueueAppendsIff(s, item);
    if s.store != map[] {
      var x :| x in s.store;
      var n: nat :| Next(s.last) <= n < WORD && x == KeyOf(n);
      KeyOrder(n, Next(s.last));
    }
  }

  /** Reopening rewinds: the constructor restarts the sequence at 0 whatever is on disk. */
  lemma ReopenRewinds<V(!new)>(s: State<V>)
    requires Monotone(s)
    ensures Rewound(s.(last := 0))
  {
    forall k | k in s.store
      ensures exists n: nat :: Next(0) <= n < WORD && k == KeyOf(n)
    {
      var n: nat :| 1 <= n <= s.last && k == KeyOf(n);
    }
  }

  /** The wrap-around at 2^64 rewinds too, so the bound on enqueues is sharp. */
  lemma WrapRewinds<V(!new)>(s: State<V>)
    requires Monotone(s) && s.last == WORD - 1
    ensures Rewound(s)
  {
    forall k | k in s.store
      ensures exists n: nat :: Next(s.last) <= n < WORD && k == KeyOf(n)
    {
      var n: nat :| 1 <= n <= s.last && k == KeyOf(n);
      assert Next(s.last) <= n < WORD;
    }
  }

  lemma NextIsBehind<V(!new)>(s: State<V>)
    requires Monotone(s) && s.last + 1 < WORD
    ensures forall x :: x in s.store ==> Before(x, KeyOf(s.last + 1))
  {
    forall x | x in s.store
      ensures Before(x, KeyOf(s.last + 1))
    {
      var m: nat :| 1 <= m <= s.last && x == KeyOf(m);
      KeyOrder(m, s.last + 1);
    }
  }

  lemma StaysMonotone<V(!new)>(s: State<V>, store: map<Key, V>, last: nat)
    requires Monotone(s) && s.last <= last < WORD
    requires s.last < last || (forall k :: k in store ==> k in s.store)
    requires forall k :: k in store ==> k in s.store || k == KeyOf(last)
    ensures Monotone(State(store, last))
  {
    forall k | k in store
      ensures exists n: nat :: 1 <= n <= last && k == KeyOf(n)
    {
      if k in s.store {
        var m: nat :| 1 <= m <= s.last && k == KeyOf(m);
        assert m <= last;
      }
    }
  }

  lemma NextNumber(last: nat)
    requires last + 1 < WORD
    ensures Next(last) == last + 1
  {
  }

  lemma EnqueueStaysMonotone<V(!new)>(s: State<V>, item: V, encodes: bool, commits: bool)
    requires Monotone(s) && s.last + 1 < WORD
    ensures Monotone(Apply(s, Enqueue(item, encodes, commits)).0)
  {
    NextNumber(s.last);
    var s' := Apply(s, Enqueue(item, encodes, commits)).0;
    assert s'.last == s.last + 1;
    StaysMonotone(s, s'.store, s'.last);
  }

  lemma EnqueueRefines<V(!new)>(s: State<V>, item: V, encodes: bool, commits: bool)
    requires Monotone(s) && s.last + 1 < WORD
    ensures var (s', a) := Apply(s, Enqueue(item, encodes, commits));
            (Contents(s'.store), a) == FifoApply(Contents(s.store), Enqueue(item, encodes, commits))
  {
    NextNumber(s.last);
    NextIsBehind(s);
    StoredBehind(s.store, KeyOf(s.last + 1), item);
    var stored := s.store[KeyOf(s.last + 1) := item];
    assert Apply(s, Enqueue(item, encodes, commits)).0.store == if encodes && commits then stored else s.store;
  }

  lemma DequeueRefines<V(!new)>(s: State<V>, readable: bool, commits: bool, decodes: bool)
    requires Monotone(s)
    ensures var (s', a) := Apply(s, Dequeue(readable, commits, decodes));
            Monotone(s') && (Contents(s'.store), a) == FifoApply(Contents(s.store), Dequeue(readable, commits, decodes))
  {
    if s.store != map[] {
      Rest(s.store);
      StaysMonotone(s, s.store - {Least(s.store)}, s.last);
    }
  }

  /** One request: the store keeps its invariant and moves as the FIFO does, as long as an
      Enqueue does not wrap the sequence number around. */
  lemma StepRefines<V(!new)>(s: State<V>, r: Request<V>)
    requires Monotone(s) && (r.Enqueue? ==> s.last + 1 < WORD)
    ensures Monotone(Apply(s, r).0) && Apply(s, r).0.last == s.last + if r.Enqueue? then 1 else 0
    ensures (Contents(Apply(s, r).0.store), Apply(s, r).1) == FifoApply(Contents(s.store), r)
  {
    match r
    case Enqueue(item, encodes, commits) =>
      NextNumber(s.last);
      EnqueueStaysMonotone(s, item, encodes, commits);
      EnqueueRefines(s, item, encodes, commits);
    case Dequeue(readable, commits, decodes) => DequeueRefines(s, readable, commits, decodes);
    case Len(_) =>
  }

  /** Whole runs: from an empty store, any run with fewer than 2^64 enqueues answers and ends
      exactly as the plain FIFO does. */
  lemma {:induction false} RunRefines<V(!new)>(s: State<V>, rs: seq<Request<V>>)
    requires Monotone(s) && s.last + Enqueues(rs) < WORD
    ensures Monotone(Run(s, rs).0) && Run(s, rs).0.last == s.last + Enqueues(rs)
    ensures (Contents(Run(s, rs).0.store), Run(s, rs).1) == FifoRun(Contents(s.store), rs)
    decreases |rs|
  {
    if rs != [] {
      var s1 := Apply(s, rs[0]).0;
      StepRefines(s, rs[0]);
      RunRefines(s1, rs[1..]);
    }
  }

  lemma {:induction false} FreshQueueIsFifo<V(!new)>(rs: seq<Request<V>>)
    requires Enqueues(rs) < WORD
    ensures (Contents(Run(State(map[], 0), rs).0.store), Run(State(map[], 0), rs).1) == FifoRun([], rs)
  {
    var s: State<V> := State(map[], 0);
    assert Monotone(s) && Contents(s.store) == [];
    RunRefines(s, rs);
  }

  class PersistentQueue<V(!new)> {
    var store: map<Key, V>
    var last: nat

    ghost function Model(): State<V>
      reads this
    {
      State(store, last)
    }

    /** Opening: whatever the directory holds, and a sequence that starts again at 0. */
    constructor (onDisk: map<Key, V>)
      ensures Model() == State(onDisk, 0)
    {
      store := onDisk;
      last := 0;
    }

    method Enqueue(item: V, encodes: bool, commits: bool) returns (ok: bool)
      modifies this
      ensures (Model(), Stored(ok)) == Apply(old(Model()), Request.Enqueue(item, encodes, commits))
      ensures last == (old(last) + 1) % WORD && (ok <==> encodes && commits)
      ensures store == if ok then old(store)[KeyOf(last) := item] else old(store)
    {
      last := (last + 1) % WORD;
      var key := EncodeKey(last);
      ok := encodes && commits;
      if ok {
        store := store[key[..] := item];
      }
    }

    method Dequeue(readable: bool, commits: bool, decodes: bool) returns (item: Result<V>)
      modifies this
      ensures (Model(), Taken(item)) == Apply(old(Model()), Request.Dequeue(readable, commits, decodes))
      ensures last == old(last) && (old(store) == map[] ==> item == Err(KeyNotFound))
      ensures old(store) != map[] && !(readable && commits) ==> item == Err(StoreFailed)
      ensures old(store) == map[] || !(readable && commits) ==> store == old(store)
      ensures old(store) != map[] && readable && commits ==>
                Contents(store) == old(Contents(store))[1..]
                && item == if decodes then Ok(old(Contents(store))[0]) else Err(DecodeFailed)
    {
      if store == map[] {
        return Err(KeyNotFound);
      }
      if !readable || !commits {
        return Err(StoreFailed);
      }
      LeastExists(store);
      var key :| key in store && forall x :: x in store ==> x == key || Before(key, x);
      LeastIsUnique(store, key, Least(store));
      item := if decodes then Ok(store[key]) else Err(DecodeFailed);
      store := store - {key};
    }

    /** The counting loop of Len. */
    method Len(views: bool) returns (count: int)
      ensures Counted(count) == Apply(Model(), Request.Len(views)).1
      ensures count == if views then |Contents(store)| else -1
    {
      if !views {
        return -1;
      }
      count := 0;
      var ahead := store;
      while ahead != map[]
        invariant count + |ahead| == |store|
        decreases |ahead|
      {
        LeastExists(ahead);
        var key :| key in ahead && forall x :: x in ahead ==> x == key || Before(key, x);
        assert (ahead - {key}).Keys == ahead.Keys - {key};
        ahead := ahead - {key};
        count := count + 1;
      }
    }
  }
}
