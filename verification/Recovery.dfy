/** Start-up recovery, RecoverFromPersistentQueue in internal/worker/pool.go: a loop that dequeues
    a stored task and submits it, where Submit first persists the task again.  The loop is followed
    for as many turns as are given; a turn says which store operations succeed in it. */
module Recovery {
  import opened ByteKeys
  import opened Queue

  datatype Turn = Turn(readable: bool, commits: bool, decodes: bool, encodes: bool, stores: bool)

  /** exited: the loop has left through its break. */
  datatype Progress<V> = Progress(state: State<V>, submitted: seq<V>, exited: bool)

  const SMOOTH := Turn(true, true, true, true, true)

  /** One turn; persist is what Submit does, and false is the loop that recovery wants. */
  ghost function TakeTurn<V(!new)>(s: State<V>, t: Turn, persist: bool): Progress<V> {
    var (s1, reply) := Apply(s, Dequeue(t.readable, t.commits, t.decodes));
    match reply.item
    case Err(_) => Progress(s1, [], true)
    case Ok(task) =>
      Progress(if persist then Apply(s1, Enqueue(task, t.encodes, t.stores)).0 else s1, [task], false)
  }

  ghost function Recover<V(!new)>(s: State<V>, turns: seq<Turn>, persist: bool): Progress<V>
    decreases |turns|
  {
    if turns == [] then Progress(s, [], false)
    else
      var first := TakeTurn(s, turns[0], persist);
      if first.exited then first
      else
        var rest := Recover(first.state, turns[1..], persist);
        rest.(submitted := first.submitted + rest.submitted)
  }

  function Copies<V>(v: V, n: nat): (c: seq<V>)
    ensures |c| == n && forall i :: 0 <= i < n ==> c[i] == v
  {
    if n == 0 then [] else [v] + Copies(v, n - 1)
  }

  ghost predicate Smooth(turns: seq<Turn>) {
    forall i :: 0 <= i < |turns| ==> turns[i] == SMOOTH
  }

  /** As coded, with a store that works: the loop exits exactly if it began empty. */
  lemma {:induction false} ExitsIffEmpty<V(!new)>(s: State<V>, turns: seq<Turn>)
    requires Smooth(turns) && turns != []
    ensures Recover(s, turns, true).exited <==> s.store == map[]
    ensures s.store != map[] ==> Recover(s, turns, true).state.store != map[]
    ensures s.store != map[] ==> |Recover(s, turns, true).submitted| == |turns|
    decreases |turns|
  {
    if s.store != map[] {
      var next := TakeTurn(s, turns[0], true).state;
      assert KeyOf(Next(s.last)) in next.store;
      if |turns| > 1 {
        ExitsIffEmpty(next, turns[1..]);
      }
    }
  }

  lemma {:induction false} FirstTurn<V(!new)>(s: State<V>, turns: seq<Turn>, persist: bool)
    requires turns != [] && turns[0] == SMOOTH && s.store != map[]
    ensures var first := TakeTurn(s, SMOOTH, persist);
            var rest := Recover(first.state, turns[1..], persist);
            !first.exited && first.submitted == [Contents(s.store)[0]]
            && Recover(s, turns, persist) == rest.(submitted := [Contents(s.store)[0]] + rest.submitted)
  {
  }

  /** The store after some recovery turns: the oldest task sits in front under the current
      sequence number, and every other entry is an original one with a larger number. */
  ghost predicate Circling<V(!new)>(s: State<V>, original: map<Key, V>, oldest: V) {
    && s.last < WORD
    && KeyOf(s.last) in s.store && s.store[KeyOf(s.last)] == oldest
    && forall k :: k in s.store && k != KeyOf(s.last) ==>
         k in original && exists n: nat :: s.last < n < WORD && k == KeyOf(n)
  }

  lemma CirclingLeast<V(!new)>(s: State<V>, original: map<Key, V>, oldest: V)
    requires Circling(s, original, oldest)
    ensures Least(s.store) == KeyOf(s.last)
  {
    forall k | k in s.store && k != KeyOf(s.last)
      ensures Before(KeyOf(s.last), k)
    {
      var n: nat :| s.last < n < WORD && k == KeyOf(n);
      KeyOrder(s.last, n);
    }
    LeastIsUnique(s.store, KeyOf(s.last), Least(s.store));
  }

  /** Dequeuing one entry whose companions all lie after it and re-enqueuing it keeps circling. */
  lemma CirclesOn<V(!new)>(s: State<V>, original: map<Key, V>, oldest: V)
    requires s.store != map[] && s.last + 1 < WORD && s.store[Least(s.store)] == oldest
    requires forall k :: k in s.store && k != Least(s.store) ==>
               k in original && exists n: nat :: s.last < n < WORD && k == KeyOf(n)
    ensures TakeTurn(s, SMOOTH, true).submitted == [oldest]
    ensures Circling(TakeTurn(s, SMOOTH, true).state, original, oldest)
    ensures TakeTurn(s, SMOOTH, true).state.last == s.last + 1
  {
    var next := TakeTurn(s, SMOOTH, true).state;
    assert next.last == s.last + 1;
    forall k | k in next.store && k != KeyOf(next.last)
      ensures k in original && exists n: nat :: next.last < n < WORD && k == KeyOf(n)
    {
      assert k in s.store && k != Least(s.store);
      var n: nat :| s.last < n < WORD && k == KeyOf(n);
      assert n != next.last;
    }
  }

  lemma {:induction false} CirclesAlways<V(!new)>(s: State<V>, original: map<Key, V>, oldest: V, turns: seq<Turn>)
    requires Circling(s, original, oldest) && Smooth(turns) && s.last + |turns| < WORD
    ensures Recover(s, turns, true).submitted == Copies(oldest, |turns|)
    ensures Circling(Recover(s, turns, true).state, original, oldest)
    ensures Recover(s, turns, true).state.last == s.last + |turns|
    decreases |turns|
  {
    if turns != [] {
      CirclingLeast(s, original, oldest);
      CirclesOn(s, original, oldest);
      CirclesAlways(TakeTurn(s, SMOOTH, true).state, original, oldest, turns[1..]);
    }
  }

  /** As coded, recovery of a reopened store submits its oldest task again and again, never
      another one, however many turns it takes. */
  lemma {:induction false} OnlyTheOldestIsSubmitted<V(!new)>(s: State<V>, turns: seq<Turn>)
    requires Rewound(s) && s.store != map[] && Smooth(turns) && turns != [] && s.last + |turns| < WORD
    ensures Recover(s, turns, true).submitted == Copies(Contents(s.store)[0], |turns|)
    ensures Circling(Recover(s, turns, true).state, s.store, Contents(s.store)[0])
    ensures Recover(s, turns, true).state.last == s.last + |turns|
  {
    var oldest := Contents(s.store)[0];
    var next := TakeTurn(s, SMOOTH, true).state;
    assert Circling(next, s.store, oldest) && next.last == s.last + 1 by {
      AllAhead(s);
      CirclesOn(s, s.store, oldest);
    }
    FirstTurn(s, turns, true);
    CirclesAlways(next, s.store, oldest, turns[1..]);
  }

  lemma AllAhead<V(!new)>(s: State<V>)
    requires Rewound(s) && s.store != map[]
    ensures s.last + 1 < WORD ==> forall k :: k in s.store ==> exists n: nat :: s.last < n < WORD && k == KeyOf(n)
  {
    forall k | k in s.store && s.last + 1 < WORD
      ensures exists n: nat :: s.last < n < WORD && k == KeyOf(n)
    {
      var n: nat :| Next(s.last) <= n < WORD && k == KeyOf(n);
      assert s.last < n;
    }
  }

  ghost predicate UpTo<V(!new)>(store: map<Key, V>, top: nat) {
    forall k :: k in store ==> exists n: nat :: n <= top && n < WORD && k == KeyOf(n)
  }

  /** Meanwhile the sequence number runs over the remaining entries: once it has passed them,
      the oldest task is all that is left and the others are gone without ever being submitted. */
  lemma {:induction false} TheRestIsOverwritten<V(!new)>(s: State<V>, turns: seq<Turn>, top: nat)
    requires Rewound(s) && s.store != map[] && Smooth(turns) && turns != [] && s.last + |turns| < WORD
    requires UpTo(s.store, top) && top <= s.last + |turns|
    ensures var end := Recover(s, turns, true).state;
            end.last == s.last + |turns| && end.store == map[KeyOf(end.last) := Contents(s.store)[0]]
  {
    OnlyTheOldestIsSubmitted(s, turns);
    var end, oldest := Recover(s, turns, true).state, Contents(s.store)[0];
    CirclingEnds(end, s.store, oldest, top);
  }

  lemma CirclingEnds<V(!new)>(end: State<V>, original: map<Key, V>, oldest: V, top: nat)
    requires Circling(end, original, oldest) && top <= end.last
    requires UpTo(original, top)
    ensures end.store == map[KeyOf(end.last) := oldest]
  {
    forall k | k in end.store
      ensures k == KeyOf(end.last)
    {
      if k != KeyOf(end.last) {
        var n: nat :| end.last < n < WORD && k == KeyOf(n);
        var n': nat :| n' <= top && n' < WORD && k == KeyOf(n');
        KeyOrder(n, n');
      }
    }
    OnlyEntry(end.store, KeyOf(end.last));
  }

  lemma OnlyEntry<V(!new)>(store: map<Key, V>, k: Key)
    requires k in store && forall x :: x in store ==> x == k
    ensures store == map[k := store[k]]
  {
  }

  /** A queue that began empty, as the next process finds it. */
  ghost function Reopened<V(!new)>(rs: seq<Request<V>>): State<V> {
    Run(State(map[], 0), rs).0.(last := 0)
  }

  lemma {:induction false} ReopenedHolds<V(!new)>(rs: seq<Request<V>>)
    requires Enqueues(rs) < WORD
    ensures Contents(Reopened(rs).store) == FifoRun([], rs).0
    ensures Rewound(Reopened(rs)) && UpTo(Reopened(rs).store, Enqueues(rs)) && Reopened(rs).last == 0
  {
    var start: State<V> := State(map[], 0);
    RunRefines(start, rs);
    ReopenRewinds(Run(start, rs).0);
  }

  /** The whole story of a restart.  Whatever a process did to a queue that began empty, short of
      wrapping its counter, if items are left when it stops then the next process, while storage works,
      submits the oldest of them in every turn of its recovery and nothing else. */
  lemma {:induction false} RestartSubmitsTheOldest<V(!new)>(rs: seq<Request<V>>, turns: seq<Turn>)
    requires Enqueues(rs) < WORD && FifoRun([], rs).0 != []
    requires Smooth(turns) && turns != [] && |turns| < WORD
    ensures Recover(Reopened(rs), turns, true).submitted == Copies(FifoRun([], rs).0[0], |turns|)
    ensures !Recover(Reopened(rs), turns, true).exited
  {
    ReopenedHolds(rs);
    OnlyTheOldestIsSubmitted(Reopened(rs), turns);
    ExitsIffEmpty(Reopened(rs), turns);
  }

  /** And after as many turns as there were enqueues, that item is the only one left. */
  lemma {:induction false} RestartLosesTheRest<V(!new)>(rs: seq<Request<V>>, turns: seq<Turn>)
    requires Enqueues(rs) < WORD && FifoRun([], rs).0 != []
    requires Smooth(turns) && turns != [] && Enqueues(rs) <= |turns| < WORD
    ensures Recover(Reopened(rs), turns, true).state.store == map[KeyOf(|turns|) := FifoRun([], rs).0[0]]
  {
    ReopenedHolds(rs);
    TheRestIsOverwritten(Reopened(rs), turns, Enqueues(rs));
  }

  lemma PairLeast<V(!new)>(store: map<Key, V>, m: nat, n: nat)
    requires m < n < WORD && store.Keys == {KeyOf(m), KeyOf(n)}
    ensures KeyOf(m) != KeyOf(n) && store != map[] && Contents(store)[0] == store[KeyOf(m)]
  {
    KeyOrder(m, n);
    assert KeyOf(m) in store;
    assert IsLeast(store, KeyOf(m));
    LeastIsUnique(store, KeyOf(m), Least(store));
  }

  lemma TwoAhead<V(!new)>(s: State<V>, m: nat, n: nat)
    requires 1 <= m < n < WORD && s.store.Keys == {KeyOf(m), KeyOf(n)} && s.last == 0
    ensures Rewound(s) && UpTo(s.store, n)
  {
    forall k | k in s.store
      ensures exists x: nat :: Next(s.last) <= x < WORD && x <= n && k == KeyOf(x)
    {
      assert k in s.store.Keys;
      assert k == KeyOf(m) || k == KeyOf(n);
    }
  }

  /** The smallest case, two entries on disk after a restart: once the counter has passed both, the first
      task has been submitted on every turn and the second one is gone without having been submitted. */
  lemma {:induction false} SecondTaskIsLost<V(!new)>(s: State<V>, m: nat, n: nat, turns: seq<Turn>)
    requires 1 <= m < n < WORD && s.store.Keys == {KeyOf(m), KeyOf(n)} && s.last == 0
    requires Smooth(turns) && n <= |turns| < WORD
    ensures Recover(s, turns, true).submitted == Copies(s.store[KeyOf(m)], |turns|)
    ensures Recover(s, turns, true).state.store == map[KeyOf(|turns|) := s.store[KeyOf(m)]]
  {
    TwoAhead(s, m, n);
    assert KeyOf(m) in s.store.Keys;
    OneIsLeft(s, turns, n);
    PairLeast(s.store, m, n);
  }

  /** After a restart the oldest item is submitted on every turn and in the end alone in the store. */
  lemma {:induction false} OneIsLeft<V(!new)>(s: State<V>, turns: seq<Turn>, top: nat)
    requires Rewound(s) && s.store != map[] && s.last == 0 && UpTo(s.store, top)
    requires Smooth(turns) && turns != [] && top <= |turns| < WORD
    ensures Recover(s, turns, true).submitted == Copies(Contents(s.store)[0], |turns|)
    ensures Recover(s, turns, true).state.store == map[KeyOf(|turns|) := Contents(s.store)[0]]
  {
    TheRestIsOverwritten(s, turns, top);
    OnlyTheOldestIsSubmitted(s, turns);
  }

  /** The dequeue of this turn yields a task. */
  predicate Reads(t: Turn) {
    t.readable && t.commits && t.decodes
  }

  /** The second write of this turn reaches the disk. */
  predicate Rewrites(t: Turn) {
    t.encodes && t.stores
  }

  /** How the loop ends.  It exits exactly when there is no task or the dequeue fails; then nothing was
      submitted and nothing has changed, except that a task that was taken and cannot be decoded is gone. */
  lemma TurnExitsIff<V(!new)>(s: State<V>, t: Turn, persist: bool)
    ensures var next := TakeTurn(s, t, persist);
            && (next.exited <==> s.store == map[] || !Reads(t))
            && (s.store == map[] || !t.readable || !t.commits ==> next == Progress(s, [], true))
            && (s.store != map[] && t.readable && t.commits && !t.decodes ==>
                  next.submitted == [] && next.state.last == s.last
                  && Contents(next.state.store) == Contents(s.store)[1..])
  {
  }

  /** A turn that goes on submits the oldest task.  If the second write fails, the task is no longer stored,
      though the counter has moved; otherwise it is stored again under the key of the new counter. */
  lemma {:induction false} TurnSubmits<V(!new)>(s: State<V>, t: Turn, persist: bool)
    requires s.store != map[] && Reads(t)
    ensures var next := TakeTurn(s, t, persist);
            && next.submitted == [Contents(s.store)[0]]
            && next.state.last == (if persist then (s.last + 1) % WORD else s.last)
            && if persist && Rewrites(t)
               then next.state.store == (s.store - {Least(s.store)})[KeyOf(next.state.last) := Contents(s.store)[0]]
               else Contents(next.state.store) == Contents(s.store)[1..]
  {
    Rest(s.store);
  }

  /** What the second write does to the loop: as long as it fails, the loop as coded submits each stored task
      exactly once, oldest first, and leaves through its break. */
  lemma {:induction false} OnceEachIfRewritesFail<V(!new)>(s: State<V>, turns: seq<Turn>)
    requires |turns| > |s.store| && forall i :: 0 <= i < |turns| ==> Reads(turns[i]) && !Rewrites(turns[i])
    ensures var end := Recover(s, turns, true);
            end.exited && end.submitted == Contents(s.store) && end.state.store == map[]
    decreases |turns|
  {
    if s.store != map[] {
      var next := TakeTurn(s, turns[0], true);
      TurnExitsIff(s, turns[0], true);
      TurnSubmits(s, turns[0], true);
      assert |Contents(next.state.store)| == |s.store| - 1;
      OnceEachIfRewritesFail(next.state, turns[1..]);
      Shift(Contents(s.store), Contents(next.state.store), 1);
    }
  }

  lemma PlainTurn<V(!new)>(s: State<V>)
    requires s.store != map[]
    ensures var turn := TakeTurn(s, SMOOTH, false);
            !turn.exited && turn.submitted == [Contents(s.store)[0]] && turn.state.last == s.last
            && Contents(turn.state.store) == Contents(s.store)[1..] && |turn.state.store| == |s.store| - 1
  {
    assert (s.store - {Least(s.store)}).Keys == s.store.Keys - {Least(s.store)};
  }

  /** Without the second write the same loop takes the stored tasks one per turn, in key order. */
  lemma {:induction false} TakesInOrder<V(!new)>(s: State<V>, turns: seq<Turn>)
    requires Smooth(turns) && |turns| <= |s.store|
    ensures var end := Recover(s, turns, false);
            !end.exited && end.submitted == Contents(s.store)[..|turns|]
            && Contents(end.state.store) == Contents(s.store)[|turns|..]
    decreases |turns|
  {
    if turns != [] {
      var c, next := Contents(s.store), TakeTurn(s, SMOOTH, false).state;
      PlainTurn(s);
      TakesInOrder(next, turns[1..]);
      FirstTurn(s, turns, false);
      Shift(c, Contents(next.store), |turns|);
    }
  }

  /** And it leaves through its break once it has submitted each of them exactly once. */
  lemma {:induction false} WithoutRepersisting<V(!new)>(s: State<V>, turns: seq<Turn>)
    requires Smooth(turns) && |turns| > |s.store|
    ensures Recover(s, turns, false) == Progress(s.(store := map[]), Contents(s.store), true)
    decreases |turns|
  {
    if s.store != map[] {
      PlainTurn(s);
      WithoutRepersisting(TakeTurn(s, SMOOTH, false).state, turns[1..]);
      Shift(Contents(s.store), Contents(TakeTurn(s, SMOOTH, false).state.store), 1);
    }
  }

  lemma Shift<V>(c: seq<V>, rest: seq<V>, n: nat)
    requires c != [] && n > 0 && rest == c[1..]
    ensures [c[0]] + rest == c
    ensures n <= |c| ==> [c[0]] + rest[..n - 1] == c[..n] && rest[n - 1..] == c[n..]
  {
  }

  /** What a caller that has submitted some tasks already will have when the turns are over. */
  ghost function After<V(!new)>(done: seq<V>, s: State<V>, turns: seq<Turn>): Progress<V> {
    var rest := Recover(s, turns, true);
    rest.(submitted := done + rest.submitted)
  }

  /** One turn of the loop: it exits, or it goes on with one more task submitted. */
  lemma {:induction false} OneTurn<V(!new)>(done: seq<V>, s: State<V>, turns: seq<Turn>, i: nat)
    requires i < |turns|
    ensures var first := TakeTurn(s, turns[i], true);
            After(done, s, turns[i..])
            == if first.exited then first.(submitted := done + first.submitted)
               else After(done + first.submitted, first.state, turns[i + 1..])
  {
    assert turns[i..][0] == turns[i] && turns[i..][1..] == turns[i + 1..];
    var first := TakeTurn(s, turns[i], true);
    if !first.exited {
      var rest := Recover(first.state, turns[i + 1..], true);
      assert done + (first.submitted + rest.submitted) == done + first.submitted + rest.submitted;
    }
  }

  /** The loop on a real queue, followed for the given turns. */
  method RecoverFromPersistentQueue<V(!new)>(q: PersistentQueue<V>, turns: seq<Turn>)
    returns (submitted: seq<V>, exited: bool)
    modifies q
    ensures Progress(q.Model(), submitted, exited) == Recover(old(q.Model()), turns, true)
  {
    submitted, exited := [], false;
    for i := 0 to |turns|
      invariant !exited
      invariant After(submitted, q.Model(), turns[i..]) == Recover(old(q.Model()), turns, true)
    {
      var t := turns[i];
      OneTurn(submitted, q.Model(), turns, i);
      var task := q.Dequeue(t.readable, t.commits, t.decodes);
      if task.Err? {
        return submitted, true;
      }
      var _ := q.Enqueue(task.value, t.encodes, t.stores);
      submitted := submitted + [task.value];
    }
  }
}
