/**
 The container of the work queue: a vector of records kept as a binary min-heap on
 the time point by std::push_heap, std::pop_heap and std::make_heap with the
 comparator `record_compare` (ISO/IEC 14882:2014, section 25.4.6), and filtered by
 std::remove_if (section 25.3.8).

 Each algorithm is given twice: as a function on sequences, about which the lemmas
 speak, and as an in-place array method proved equal to that function.
 */
module RecordHeap {

  /** What a record runs: nothing (the termination record), a user's function, or the
      function that `wait_for_time_forwarding_completion` schedules. */
  datatype Work = NoWork | UserWork(tag: nat) | Sentinel

  /** `record_type`: a `wq_item` and its work id. Time points count from the epoch. */
  datatype Record = Record(time: nat, client: nat, work: Work, period: int, id: nat)

  // ---------- the heap order ----------

  ghost predicate IsHeap(s: seq<Record>) {
    forall p, j {:trigger s[p], s[j]} :: 0 < j < |s| && p == (j - 1) / 2 ==> s[p].time <= s[j].time
  }

  lemma EmptyIsHeap()
    ensures IsHeap([])
  {
  }

  /** The front of a heap is a minimum of the whole container. */
  lemma {:induction false} RootIsLeast(s: seq<Record>, i: nat)
    requires IsHeap(s) && i < |s|
    ensures s[0].time <= s[i].time
    decreases i
  {
    if i > 0 {
      RootIsLeast(s, (i - 1) / 2);
    }
  }

  lemma RootIsLeastOfBag(s: seq<Record>)
    requires IsHeap(s) && s != []
    ensures s[0] in multiset(s)
    ensures forall r :: r in multiset(s) ==> s[0].time <= r.time
  {
    forall r | r in multiset(s)
      ensures s[0].time <= r.time
    {
      var i :| 0 <= i < |s| && s[i] == r;
      RootIsLeast(s, i);
    }
  }

  // ---------- std::push_heap ----------

  /** Moves the record at `i` up past strictly later parents. */
  function SiftUp(s: seq<Record>, i: nat): (r: seq<Record>)
    requires i < |s|
    ensures |r| == |s|
    decreases i
  {
    if i == 0 then s
    else
      var p := (i - 1) / 2;
      if s[i].time < s[p].time then SiftUp(s[i := s[p]][p := s[i]], p) else s
  }

  function PushHeap(s: seq<Record>, r: Record): seq<Record> {
    SiftUp(s + [r], |s|)
  }

  /** A heap but for the record at `i`, which may be too early for its parent. */
  ghost predicate HeapButUp(s: seq<Record>, i: nat) {
    && (forall p, j {:trigger s[p], s[j]} :: 0 < j < |s| && p == (j - 1) / 2 && j != i ==> s[p].time <= s[j].time)
    && (forall j {:trigger s[j]} :: 0 < j < |s| && 0 < i && (j - 1) / 2 == i ==> s[(i - 1) / 2].time <= s[j].time)
  }

  lemma SwapKeepsBag(s: seq<Record>, i: nat, j: nat)
    requires i < |s| && j < |s|
    ensures multiset(s[i := s[j]][j := s[i]]) == multiset(s)
  {
  }

  /** One swap moves the exempt position from `i` to its parent. */
  lemma SiftUpStep(s: seq<Record>, i: nat)
    requires 0 < i < |s| && HeapButUp(s, i) && s[i].time < s[(i - 1) / 2].time
    ensures var p := (i - 1) / 2; HeapButUp(s[i := s[p]][p := s[i]], p)
  {
  }

  lemma {:induction false} SiftUpRestores(s: seq<Record>, i: nat)
    requires i < |s| && HeapButUp(s, i)
    ensures IsHeap(SiftUp(s, i)) && multiset(SiftUp(s, i)) == multiset(s)
    decreases i
  {
    if i > 0 {
      var p := (i - 1) / 2;
      if s[i].time < s[p].time {
        SwapKeepsBag(s, i, p);
        SiftUpStep(s, i);
        SiftUpRestores(s[i := s[p]][p := s[i]], p);
      }
    }
  }

  /** A record not earlier than the root leaves the root where it is: ties stay below. */
  lemma {:induction false} SiftUpRoot(s: seq<Record>, i: nat)
    requires i < |s| && HeapButUp(s, i) && 0 < i
    ensures SiftUp(s, i)[0] == if s[i].time < s[0].time then s[i] else s[0]
    decreases i
  {
    var p := (i - 1) / 2;
    if s[i].time < s[p].time {
      var t := s[i := s[p]][p := s[i]];
      PathToRoot(s, p, i);
      if p > 0 {
        SiftUpStep(s, i);
        SiftUpRoot(t, p);
      }
    } else {
      PathToRoot(s, p, i);
    }
  }

  /** Along the path from `p` to the root, away from the exempt record `i`, times decrease. */
  lemma {:induction false} PathToRoot(s: seq<Record>, p: nat, i: nat)
    requires p < i < |s| && HeapButUp(s, i)
    ensures s[0].time <= s[p].time
    decreases p
  {
    if p > 0 {
      PathToRoot(s, (p - 1) / 2, i);
    }
  }

  lemma PushHeapIsHeap(s: seq<Record>, r: Record)
    requires IsHeap(s)
    ensures IsHeap(PushHeap(s, r)) && multiset(PushHeap(s, r)) == multiset(s) + multiset{r}
    ensures s != [] ==> PushHeap(s, r)[0] == if r.time < s[0].time then r else s[0]
  {
    var t := s + [r];
    assert forall j :: 0 <= j < |s| ==> t[j] == s[j];
    SiftUpRestores(t, |s|);
    if s != [] {
      SiftUpRoot(t, |s|);
    }
  }

  // ---------- std::pop_heap and std::make_heap ----------

  /** The child of `i` with the least time. */
  function EarlierChild(s: seq<Record>, i: nat): (c: nat)
    requires 2 * i + 1 < |s|
    ensures i < c < |s| && (c - 1) / 2 == i
    ensures forall j {:trigger s[j]} :: 0 < j < |s| && (j - 1) / 2 == i ==> s[c].time <= s[j].time
  {
    if 2 * i + 2 < |s| && s[2 * i + 2].time < s[2 * i + 1].time then 2 * i + 2 else 2 * i + 1
  }

  /** Moves the record at `i` down past strictly earlier children. */
  function SiftDown(s: seq<Record>, i: nat): (r: seq<Record>)
    requires i <= |s|
    ensures |r| == |s|
    decreases |s| - i
  {
    if |s| <= 2 * i + 1 then s
    else
      var c := EarlierChild(s, i);
      if s[c].time < s[i].time then SiftDown(s[i := s[c]][c := s[i]], c) else s
  }

  /** Takes the root out: the remaining heap after pop_heap and pop_back. */
  function PopHeap(s: seq<Record>): (r: seq<Record>)
    requires s != []
    ensures |r| == |s| - 1
  {
    var n := |s| - 1;
    if n == 0 then [] else SiftDown(s[..n][0 := s[n]], 0)
  }

  function HeapifyFrom(s: seq<Record>, i: nat): (r: seq<Record>)
    requires i <= |s|
    ensures |r| == |s|
    decreases i
  {
    if i == 0 then s else HeapifyFrom(SiftDown(s, i - 1), i - 1)
  }

  function MakeHeap(s: seq<Record>): (r: seq<Record>)
    ensures |r| == |s|
  {
    HeapifyFrom(s, |s| / 2)
  }

  /** Every parent from `lo` on is no later than its children. */
  ghost predicate HeapFrom(s: seq<Record>, lo: nat) {
    forall p, j {:trigger s[p], s[j]} :: 0 < j < |s| && lo <= p == (j - 1) / 2 ==> s[p].time <= s[j].time
  }

  /** As HeapFrom(s, lo), but for the record at `i`, which may be too late for its children. */
  ghost predicate HeapButDown(s: seq<Record>, lo: nat, i: nat) {
    && lo <= i
    && (forall p, j {:trigger s[p], s[j]} :: 0 < j < |s| && lo <= p == (j - 1) / 2 && p != i ==> s[p].time <= s[j].time)
    && (forall j {:trigger s[j]} :: 0 < j < |s| && (j - 1) / 2 == i && lo < i && lo <= (i - 1) / 2
          ==> s[(i - 1) / 2].time <= s[j].time)
  }

  lemma SwapMovesDown(s: seq<Record>, lo: nat, i: nat, c: nat)
    requires 2 * i + 1 < |s| && HeapButDown(s, lo, i) && c == EarlierChild(s, i) && s[c].time < s[i].time
    ensures HeapButDown(s[i := s[c]][c := s[i]], lo, c)
  {
  }

  lemma {:induction false} SiftDownRestores(s: seq<Record>, lo: nat, i: nat)
    requires i <= |s| && HeapButDown(s, lo, i)
    ensures HeapFrom(SiftDown(s, i), lo) && multiset(SiftDown(s, i)) == multiset(s)
    decreases |s| - i
  {
    if 2 * i + 1 < |s| {
      var c := EarlierChild(s, i);
      if s[c].time < s[i].time {
        SwapKeepsBag(s, i, c);
        SwapMovesDown(s, lo, i, c);
        SiftDownRestores(s[i := s[c]][c := s[i]], lo, c);
      }
    }
  }

  lemma PopHeapIsHeap(s: seq<Record>)
    requires IsHeap(s) && s != []
    ensures IsHeap(PopHeap(s)) && multiset(s) == multiset(PopHeap(s)) + multiset{s[0]}
  {
    var n := |s| - 1;
    if n == 0 {
      assert s == [s[0]];
    } else {
      var t := s[..n][0 := s[n]];
      assert forall j :: 0 < j < n ==> t[j] == s[j];
      SiftDownRestores(t, 0, 0);
      LastToFront(s);
    }
  }

  lemma LastToFront(s: seq<Record>)
    requires |s| > 1
    ensures var n := |s| - 1; multiset(s) == multiset(s[..n][0 := s[n]]) + multiset{s[0]}
  {
    var n := |s| - 1;
    assert s == [s[0]] + s[1..n] + [s[n]];
    assert s[..n][0 := s[n]] == [s[n]] + s[1..n];
  }

  lemma HeapButRoot(s: seq<Record>, i: nat)
    requires 0 < i && HeapFrom(s, i)
    ensures HeapButDown(s, i - 1, i - 1)
  {
  }

  ghost predicate SameRecords(s: seq<Record>, t: seq<Record>) {
    multiset(s) == multiset(t)
  }

  lemma SiftDownStep(s: seq<Record>, i: nat)
    requires 0 < i <= |s| && HeapFrom(s, i)
    ensures HeapFrom(SiftDown(s, i - 1), i - 1) && SameRecords(SiftDown(s, i - 1), s)
    ensures HeapifyFrom(s, i) == HeapifyFrom(SiftDown(s, i - 1), i - 1)
  {
    hide HeapFrom, HeapButDown, SiftDown;
    HeapButRoot(s, i);
    SiftDownRestores(s, i - 1, i - 1);
  }

  lemma NothingToHeapify(s: seq<Record>)
    ensures HeapifyFrom(s, 0) == s
  {
  }

  lemma {:induction false} HeapifyRestores(s: seq<Record>, i: nat)
    requires i <= |s| && HeapFrom(s, i)
    ensures HeapFrom(HeapifyFrom(s, i), 0) && SameRecords(HeapifyFrom(s, i), s)
    decreases i
  {
    hide HeapFrom, SiftDown, HeapifyFrom;
    if i == 0 {
      NothingToHeapify(s);
    } else {
      var t := SiftDown(s, i - 1);
      SiftDownStep(s, i);
      HeapifyRestores(t, i - 1);
    }
  }

  lemma MakeHeapIsHeap(s: seq<Record>)
    ensures IsHeap(MakeHeap(s)) && multiset(MakeHeap(s)) == multiset(s)
  {
    assert HeapFrom(s, |s| / 2);
    HeapifyRestores(s, |s| / 2);
  }

  // ---------- std::remove_if ----------

  /** The records of other clients, in order. */
  function WithoutClient(s: seq<Record>, client: nat): (r: seq<Record>)
    ensures |r| <= |s|
  {
    if s == [] then []
    else
      var n := |s| - 1;
      var kept := WithoutClient(s[..n], client);
      if s[n].client == client then kept else kept + [s[n]]
  }

  lemma {:induction false} WithoutClientCounts(s: seq<Record>, client: nat, x: Record)
    ensures multiset(WithoutClient(s, client))[x] == if x.client == client then 0 else multiset(s)[x]
  {
    if s != [] {
      var n := |s| - 1;
      WithoutClientCounts(s[..n], client, x);
      assert s == s[..n] + [s[n]];
    }
  }

  lemma WithoutClientNext(s: seq<Record>, i: nat, client: nat)
    requires i < |s|
    ensures WithoutClient(s[..i + 1], client)
         == WithoutClient(s[..i], client) + if s[i].client == client then [] else [s[i]]
  {
    assert s[..i + 1][..i] == s[..i];
  }

  // ---------- the same algorithms in place ----------

  method PushHeapInPlace(a: array<Record>, n: nat)
    requires 0 < n <= a.Length
    modifies a
    ensures a[..n] == SiftUp(old(a[..n]), n - 1)
    ensures a[n..] == old(a[n..])
  {
    var i := n - 1;
    while i > 0 && a[i].time < a[(i - 1) / 2].time
      invariant i < n
      invariant SiftUp(a[..n], i) == SiftUp(old(a[..n]), n - 1)
      invariant a[n..] == old(a[n..])
    {
      var p := (i - 1) / 2;
      ghost var was := a[..n];
      a[i], a[p] := a[p], a[i];
      assert a[..n] == was[i := was[p]][p := was[i]];
      i := p;
    }
  }

  method SiftDownInPlace(a: array<Record>, start: nat, n: nat)
    requires start <= n <= a.Length
    modifies a
    ensures a[..n] == SiftDown(old(a[..n]), start)
    ensures a[n..] == old(a[n..])
  {
    var i := start;
    while 2 * i + 1 < n
      invariant i <= n
      invariant SiftDown(a[..n], i) == SiftDown(old(a[..n]), start)
      invariant a[n..] == old(a[n..])
      decreases n - i
    {
      var c := if 2 * i + 2 < n && a[2 * i + 2].time < a[2 * i + 1].time then 2 * i + 2 else 2 * i + 1;
      ghost var was := a[..n];
      assert c == EarlierChild(was, i);
      if a[i].time <= a[c].time {
        return;
      }
      a[i], a[c] := a[c], a[i];
      assert a[..n] == was[i := was[c]][c := was[i]];
      i := c;
    }
  }

  /** Swaps the root to the end of [0, n) and restores the heap before it. */
  method PopHeapInPlace(a: array<Record>, n: nat)
    requires 0 < n <= a.Length
    modifies a
    ensures a[..n - 1] == PopHeap(old(a[..n]))
    ensures a[n - 1] == old(a[0]) && a[n..] == old(a[n..])
  {
    ghost var was := a[..n];
    ghost var tail := a[n..];
    a[0], a[n - 1] := a[n - 1], a[0];
    if n > 1 {
      assert a[..n - 1] == was[..n - 1][0 := was[n - 1]];
      SiftDownInPlace(a, 0, n - 1);
    }
    assert a[n - 1..][0] == a[n - 1];
    assert a[n..] == a[n - 1..][1..];
    assert a[n..] == tail;
  }

  method MakeHeapInPlace(a: array<Record>, n: nat)
    requires n <= a.Length
    modifies a
    ensures a[..n] == MakeHeap(old(a[..n]))
    ensures a[n..] == old(a[n..])
  {
    hide SiftDown;
    var i := n / 2;
    while i > 0
      invariant 0 <= i <= n
      invariant HeapifyFrom(a[..n], i) == MakeHeap(old(a[..n]))
      invariant a[n..] == old(a[n..])
    {
      ghost var was := a[..n];
      i := i - 1;
      SiftDownInPlace(a, i, n);
      assert HeapifyFrom(was, i + 1) == HeapifyFrom(a[..n], i);
    }
  }

  /** Moves the records of other clients to the front and returns their new end. */
  method RemoveIfInPlace(a: array<Record>, n: nat, client: nat) returns (end: nat)
    requires n <= a.Length
    modifies a
    ensures end <= n && a[..end] == WithoutClient(old(a[..n]), client)
    ensures a[n..] == old(a[n..])
  {
    end := 0;
    ghost var was := a[..n];
    var i := 0;
    while i < n
      invariant end <= i <= n
      invariant a[..end] == WithoutClient(was[..i], client)
      invariant forall k :: i <= k < a.Length ==> a[k] == old(a[k])
    {
      WithoutClientNext(was, i, client);
      if a[i].client != client {
        ghost var kept := a[..end];
        a[end] := a[i];
        end := end + 1;
        assert a[..end] == kept + [was[i]];
      }
      i := i + 1;
    }
    assert was[..n] == was;
  }
}
