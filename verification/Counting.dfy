/** Pigeonhole counting over sequences without repetition. */
module Counting {

  predicate NoDup<T(==)>(s: seq<T>) {
    forall i, j :: 0 <= i < j < |s| ==> s[i] != s[j]
  }

  ghost function Members<T>(s: seq<T>): set<T> {
    set x | x in s
  }

  lemma {:induction false} DistinctCount<T>(s: seq<T>)
    requires NoDup(s)
    ensures |Members(s)| == |s|
  {
    if s != [] {
      var init := s[..|s| - 1];
      DistinctCount(init);
      assert Members(s) == Members(init) + {s[|s| - 1]};
    }
  }

  lemma {:induction false} MembersCount<T>(s: seq<T>)
    ensures |Members(s)| <= |s|
  {
    if s != [] {
      var init := s[..|s| - 1];
      MembersCount(init);
      assert Members(s) == Members(init) + {s[|s| - 1]};
    }
  }

  lemma {:induction false} SubsetCount<T>(a: set<T>, b: set<T>)
    requires a <= b
    ensures |a| <= |b|
  {
    if a != {} {
      var x :| x in a;
      SubsetCount(a - {x}, b - {x});
    }
  }

  ghost function Below(n: nat): (r: set<nat>)
    ensures forall k: nat :: k in r <==> k < n
  {
    if n == 0 then {} else Below(n - 1) + {n - 1}
  }

  lemma {:induction false} BelowCount(n: nat)
    ensures |Below(n)| == n
  {
    if n > 0 {
      BelowCount(n - 1);
    }
  }

  /** Distinct numbers below n that miss one of them are fewer than n. */
  lemma RoomForOne(s: seq<nat>, n: nat, missing: nat)
    requires NoDup(s) && (forall k :: k in s ==> k < n) && missing < n && missing !in s
    ensures |s| < n
  {
    DistinctCount(s);
    SubsetCount(Members(s), Below(n) - {missing});
    BelowCount(n);
  }
}
