/** getTopNResults of internal/inference/tflite_engine_mock.go: indices sorted by exchanges, then
    the first N reported with their labels. */
module TopN {
  import opened Counting

  datatype Entry = Entry(title: string, score: real)

  /** Panic: make([]T, 0, topN) with a negative capacity, or one beyond the runtime's limit. */
  datatype Outcome = Panic | Results(entries: seq<Entry>)

  function Decimal(n: nat): string {
    if n < 10 then ["0123456789"[n]] else Decimal(n / 10) + ["0123456789"[n % 10]]
  }

  /** What a string of decimal digits reads as. */
  function Reading(digits: string): int {
    if digits == "" then 0
    else 10 * Reading(digits[..|digits| - 1]) + (digits[|digits| - 1] as int - '0' as int)
  }

  /** digits is n in decimal, without leading zeros. */
  predicate IsDecimal(digits: string, n: nat) {
    && digits != "" && (forall i :: 0 <= i < |digits| ==> '0' <= digits[i] <= '9')
    && (|digits| > 1 ==> digits[0] != '0') && Reading(digits) == n
  }

  lemma {:induction false} DecimalReads(n: nat)
    ensures IsDecimal(Decimal(n), n) && (n > 0 ==> Decimal(n)[0] != '0')
  {
    var digits, last := Decimal(n), "0123456789"[n % 10];
    assert last as int - '0' as int == n % 10;
    if n < 10 {
      assert digits == [last] && digits[..0] == "";
    } else {
      DecimalReads(n / 10);
      assert digits[..|digits| - 1] == Decimal(n / 10);
    }
  }

  /** Entry e reports index idx: its score, and its label or a stand-in that names it. */
  predicate IsEntry(output: seq<real>, labels: seq<string>, idx: int, e: Entry)
    requires 0 <= idx < |output|
  {
    && e.score == output[idx]
    && if idx < |labels| then e.title == labels[idx]
       else |e.title| > 6 && e.title[..6] == "Class " && IsDecimal(e.title[6..], idx)
  }

  function LabelOf(labels: seq<string>, idx: nat): string {
    if idx < |labels| then labels[idx] else "Class " + Decimal(idx)
  }

  ghost predicate Indices(output: seq<real>, pick: seq<int>) {
    && (forall i :: 0 <= i < |pick| ==> 0 <= pick[i] < |output|)
    && (forall i, j :: 0 <= i < j < |pick| ==> pick[i] != pick[j])
  }

  /** pick lists distinct indices by descending score, and no index outside it beats one inside. */
  ghost predicate IsTop(output: seq<real>, pick: seq<int>) {
    && Indices(output, pick)
    && (forall i, j :: 0 <= i < j < |pick| ==> output[pick[i]] >= output[pick[j]])
    && (forall x, i :: 0 <= x < |output| && 0 <= i < |pick| && x !in pick ==> output[x] <= output[pick[i]])
  }

  /** pos is the inverse of the permutation a. */
  ghost predicate Inverse(a: seq<int>, pos: seq<int>) {
    && |a| == |pos|
    && (forall i :: 0 <= i < |a| ==> 0 <= a[i] < |a| && pos[a[i]] == i)
    && (forall x :: 0 <= x < |a| ==> 0 <= pos[x] < |a| && a[pos[x]] == x)
  }

  /** Place i beats the places after it up to j. */
  ghost predicate Beats(output: seq<real>, a: seq<int>, i: int, j: int)
    requires |a| == |output| && Indices(output, a)
    requires 0 <= i < |a| && j <= |a|
  {
    forall y :: i < y < j ==> output[a[i]] >= output[a[y]]
  }

  /** The first i places are settled: each beats everything after it. */
  ghost predicate Settled(output: seq<real>, a: seq<int>, i: int)
    requires |a| == |output| && Indices(output, a) && i <= |a|
  {
    forall x :: 0 <= x < i ==> Beats(output, a, x, |a|)
  }

  function Swap(a: seq<int>, i: int, j: int): (b: seq<int>)
    requires 0 <= i < |a| && 0 <= j < |a|
    ensures |b| == |a|
  {
    a[i := a[j]][j := a[i]]
  }

  lemma InverseIsInjective(output: seq<real>, a: seq<int>, pos: seq<int>)
    requires |a| == |output| && Inverse(a, pos)
    ensures Indices(output, a)
  {
    forall i, j | 0 <= i < j < |a|
      ensures a[i] != a[j]
    {
      assert pos[a[i]] == i;
    }
  }

  /** Where the nested loops stand: a permutation whose first i places are settled, with place i
      ahead of the places up to j. */
  ghost predicate Sorting(output: seq<real>, a: seq<int>, pos: seq<int>, i: int, j: int) {
    && |a| == |output| && Inverse(a, pos) && Indices(output, a)
    && 0 <= i <= |a| && j <= |a|
    && Settled(output, a, i)
    && (i < |a| ==> Beats(output, a, i, j))
  }

  /** One exchange keeps the settled places and lets place i beat one place more. */
  lemma ExchangeStep(output: seq<real>, a: seq<int>, pos: seq<int>, i: int, j: int)
    requires Sorting(output, a, pos, i, j) && i < j < |a| && output[a[i]] < output[a[j]]
    ensures Sorting(output, Swap(a, i, j), pos[a[i] := j][a[j] := i], i, j + 1)
  {
    var b, back := Swap(a, i, j), pos[a[i] := j][a[j] := i];
    assert Inverse(b, back);
    InverseIsInjective(output, b, back);
    forall x | 0 <= x < i
      ensures Beats(output, b, x, |b|)
    {
      assert Beats(output, a, x, |a|);
      forall y | x < y < |b|
        ensures output[b[x]] >= output[b[y]]
      {
        assert output[a[x]] >= output[a[if y == i then j else if y == j then i else y]];
      }
    }
  }

  lemma NoExchange(output: seq<real>, a: seq<int>, pos: seq<int>, i: int, j: int)
    requires Sorting(output, a, pos, i, j) && 0 <= i < j < |a| && output[a[i]] >= output[a[j]]
    ensures Sorting(output, a, pos, i, j + 1)
  {
  }

  lemma NextPlace(output: seq<real>, a: seq<int>, pos: seq<int>, i: int)
    requires Sorting(output, a, pos, i, |a|) && i < |a|
    ensures Sorting(output, a, pos, i + 1, 0)
  {
  }

  /** The nested exchange loops. */
  method SortIndices(output: seq<real>, indices: array<int>, ghost start: seq<int>) returns (ghost pos: seq<int>)
    requires indices.Length == |output| && Inverse(indices[..], start)
    modifies indices
    ensures Sorting(output, indices[..], pos, |output|, 0)
  {
    pos := start;
    InverseIsInjective(output, indices[..], start);
    for i := 0 to indices.Length
      invariant Sorting(output, indices[..], pos, i, 0)
    {
      for j := i + 1 to indices.Length
        invariant Sorting(output, indices[..], pos, i, j)
      {
        ghost var a := indices[..];
        if output[indices[i]] < output[indices[j]] {
          ExchangeStep(output, a, pos, i, j);
          pos := pos[a[i] := j][a[j] := i];
          indices[i], indices[j] := indices[j], indices[i];
          assert indices[..] == Swap(a, i, j);
        } else {
          NoExchange(output, a, pos, i, j);
        }
      }
      NextPlace(output, indices[..], pos, i);
    }
  }

  lemma PrefixIsTop(output: seq<real>, a: seq<int>, pos: seq<int>, n: int)
    requires Sorting(output, a, pos, |a|, 0) && 0 <= n <= |a|
    ensures IsTop(output, a[..n])
  {
    forall x, y | 0 <= x < y < |a|
      ensures output[a[x]] >= output[a[y]]
    {
      assert Beats(output, a, x, |a|);
    }
    forall x, i | 0 <= x < |output| && 0 <= i < n && x !in a[..n]
      ensures output[x] <= output[a[i]]
    {
      assert a[pos[x]] == x;
      assert forall k :: 0 <= k < n ==> a[..n][k] == a[k];
    }
  }

  lemma EntrySays(output: seq<real>, labels: seq<string>, idx: nat)
    requires idx < |output|
    ensures IsEntry(output, labels, idx, Entry(LabelOf(labels, idx), output[idx]))
  {
    DecimalReads(idx);
    assert idx >= |labels| ==> LabelOf(labels, idx)[6..] == Decimal(idx);
  }

  /** The entries of the picked indices, in order. */
  ghost predicate Reports(output: seq<real>, labels: seq<string>, pick: seq<int>, entries: seq<Entry>)
    requires Indices(output, pick)
  {
    |entries| == |pick| && forall i :: 0 <= i < |pick| ==> IsEntry(output, labels, pick[i], entries[i])
  }

  /** The loop over the first N indices. */
  method ReportTop(output: seq<real>, labels: seq<string>, indices: array<int>, topN: int) returns (results: seq<Entry>)
    requires indices.Length == |output| && Indices(output, indices[..]) && topN >= 0
    ensures Reports(output, labels, indices[..if topN < |output| then topN else |output|], results)
  {
    ghost var n := if topN < |output| then topN else |output|;
    results := [];
    var i := 0;
    while i < topN && i < indices.Length
      invariant 0 <= i <= n && |results| == i
      invariant forall x :: 0 <= x < i ==> IsEntry(output, labels, indices[x], results[x])
    {
      var idx := indices[i];
      EntrySays(output, labels, idx);
      results := results + [Entry(LabelOf(labels, idx), output[idx])];
      i := i + 1;
    }
  }

  method GetTopNResults(output: seq<real>, labels: seq<string>, topN: int, limit: nat)
    returns (r: Outcome, ghost pick: seq<int>)
    ensures output == [] || labels == [] ==> r == Results([])
    ensures r == Panic <==> output != [] && labels != [] && (topN < 0 || topN > limit)
    ensures output != [] && labels != [] && 0 <= topN <= limit ==>
              && IsTop(output, pick) && |pick| == (if topN < |output| then topN else |output|)
              && r.Results? && Reports(output, labels, pick, r.entries)
  {
    pick := [];
    if |output| == 0 || |labels| == 0 {
      return Results([]), pick;
    }
    var indices := new int[|output|](i => i);
    ghost var start := seq(|output|, i => i);
    pick := SortIndices(output, indices, start);
    if topN < 0 || topN > limit {
      return Panic, pick;
    }
    ghost var n := if topN < |output| then topN else |output|;
    PrefixIsTop(output, indices[..], pick, n);
    var results := ReportTop(output, labels, indices, topN);
    pick := indices[..n];
    r := Results(results);
  }

  lemma NotAhead(output: seq<real>, p: seq<int>, q: seq<int>, i: int)
    requires IsTop(output, p) && IsTop(output, q) && |p| == |q| && 0 <= i < |p|
    ensures output[p[i]] <= output[q[i]]
  {
    if output[p[i]] > output[q[i]] {
      forall k | 0 <= k <= i
        ensures p[k] in q[..i]
      {
        StrictlyAhead(output, p, q, i, k);
      }
      DistinctCount(p[..i + 1]);
      MembersCount(q[..i]);
      SubsetCount(Members(p[..i + 1]), Members(q[..i]));
    }
  }

  lemma StrictlyAhead(output: seq<real>, p: seq<int>, q: seq<int>, i: int, k: int)
    requires IsTop(output, p) && IsTop(output, q) && |p| == |q| && 0 <= k <= i < |p|
    requires output[p[i]] > output[q[i]]
    ensures p[k] in q[..i]
  {
    var x := p[k];
    assert output[x] >= output[p[i]];
    assert x in q;
    var l :| 0 <= l < |q| && q[l] == x;
    assert l < i;
    assert q[..i][l] == x;
  }

  /** The reported scores do not depend on how ties were ordered: any two selections of the same
      size list the same scores. */
  lemma ScoresAreDetermined(output: seq<real>, p: seq<int>, q: seq<int>)
    requires IsTop(output, p) && IsTop(output, q) && |p| == |q|
    ensures forall i :: 0 <= i < |p| ==> output[p[i]] == output[q[i]]
  {
    forall i | 0 <= i < |p|
      ensures output[p[i]] == output[q[i]]
    {
      NotAhead(output, p, q, i);
      NotAhead(output, q, p, i);
    }
  }
}
