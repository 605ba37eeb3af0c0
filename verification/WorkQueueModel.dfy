/**
 The state guarded by the work queue's mutex and what each operation does to it, as
 functions; and the proof that each of them is the matching operation on a finite map
 from work ids to records.
 */
module WorkQueueModel {
  import opened Common
  import opened RecordHeap
  import opened HeapAlgorithms

  datatype Queue = Queue(
    items: seq<Record>,    // _wq_item_container
    changed: bool,         // _container_change_flag
    stopped: bool,         // _worker_stopped_flag
    nextId: nat,           // _next_work_id
    nextClient: nat,       // _next_client_id
    heap: Heaps)           // the library's heap algorithms

  /** A queue whose worker has just been started. */
  function Started(heap: Heaps, nextClient: nat): Queue {
    Queue([], false, false, INVALID_ID, nextClient, heap)
  }

  datatype Posted = Posted(queue: Queue, status: Status, id: nat)

  function PostWork(q: Queue, time: nat, client: nat, work: Work, period: int): Posted {
    if q.stopped then Posted(q, NotAllowed, INVALID_ID)
    else
      var id := NextIdentifier(q.nextId);
      var items := PushWith(q.heap, q.items, Record(time, client, work, period, id));
      Posted(q.(items := items, changed := true, nextId := id), Success, id)
  }

  /** `clock` is what get_current_time_point returned before the mutex was taken. */
  function ScheduleWork(q: Queue, client: nat, work: Work, start: nat, period: int, clock: nat): Posted {
    if client == INVALID_ID || work == NoWork then Posted(q, InvalidArgument, INVALID_ID)
    else PostWork(q, if start == 0 then clock else start, client, work, period)
  }

  /** The record that ends the worker: epoch time, no work. */
  function TerminationRecord(id: nat): Record {
    Record(0, INVALID_ID, NoWork, 0, id)
  }

  function StopWorker(q: Queue): (Queue, bool) {
    if q.stopped then (q, false)
    else
      var posted := PostWork(q.(items := []), 0, INVALID_ID, NoWork, 0);
      (posted.queue.(stopped := true), true)
  }

  /** The position of the first record with the given id. */
  function FindWork(s: seq<Record>, id: nat): (r: Option<nat>)
    ensures r.Some? ==> r.value < |s| && s[r.value].id == id
    ensures r.None? ==> forall i :: 0 <= i < |s| ==> s[i].id != id
    ensures r.Some? ==> forall i :: 0 <= i < r.value ==> s[i].id != id
  {
    if s == [] then None
    else if s[0].id == id then Some(0)
    else
      var rest := FindWork(s[1..], id);
      assert forall i :: 0 < i < |s| ==> s[i] == s[1..][i - 1];
      if rest.Some? then Some(rest.value + 1) else None
  }

  function UpdateWork(q: Queue, id: nat, client: nat, work: Work, start: nat, period: int): (Queue, Status) {
    if client == INVALID_ID || work == NoWork then (q, InvalidArgument)
    else if q.stopped then (q, NotAllowed)
    else
      match FindWork(q.items, id)
      case None => (q, NotFound)
      case Some(k) =>
        var items := q.items[k := Record(start, client, work, period, id)];
        (q.(items := MakeWith(q.heap, items), changed := true), Success)
  }

  /** Swaps the record at `k` with the last one and drops it. */
  function SwapRemove(s: seq<Record>, k: nat): seq<Record>
    requires k < |s|
  {
    s[k := s[|s| - 1]][..|s| - 1]
  }

  function CancelWork(q: Queue, id: nat): (Queue, Status) {
    if q.stopped then (q, NotAllowed)
    else
      match FindWork(q.items, id)
      case None => (q, NotFound)
      case Some(k) => (q.(items := MakeWith(q.heap, SwapRemove(q.items, k)), changed := true), Success)
  }

  function CancelClientWorks(q: Queue, client: nat): (Queue, Status) {
    if q.stopped then (q, NotAllowed)
    else
      var kept := WithoutClient(q.items, client);
      if |kept| == |q.items| then (q, NotFound)
      else (q.(items := MakeWith(q.heap, kept), changed := true), Success)
  }

  /** get_nearest_time_point: the epoch stands for "nothing is pending". */
  function NearestTime(s: seq<Record>): nat {
    if s == [] then 0 else s[0].time
  }

  // ---------- the container as a map from work ids to records ----------

  ghost predicate DistinctIds(b: multiset<Record>) {
    && (forall r :: r in b ==> b[r] == 1)
    && (forall x, y :: x in b && y in b && x.id == y.id ==> x == y)
  }

  ghost predicate Represents(b: multiset<Record>, m: map<nat, Record>) {
    && DistinctIds(b)
    && (forall r :: r in b ==> r.id in m && m[r.id] == r)
    && (forall id :: id in m ==> m[id] in b && m[id].id == id)
  }

  lemma SwapRemoveBag(s: seq<Record>, k: nat)
    requires k < |s|
    ensures multiset(SwapRemove(s, k)) == multiset(s) - multiset{s[k]}
  {
    var n := |s| - 1;
    if k == n {
      assert SwapRemove(s, k) == s[..n];
      assert s == s[..n] + [s[n]];
    } else {
      assert s == s[..k] + [s[k]] + s[k + 1..n] + [s[n]];
      assert SwapRemove(s, k) == s[..k] + [s[n]] + s[k + 1..n];
    }
  }

  lemma ReplaceBag(s: seq<Record>, k: nat, r: Record)
    requires k < |s|
    ensures multiset(s[k := r]) == multiset(s) - multiset{s[k]} + multiset{r}
  {
    assert s == s[..k] + [s[k]] + s[k + 1..];
    assert s[k := r] == s[..k] + [r] + s[k + 1..];
  }

  lemma BagInsert(b: multiset<Record>, m: map<nat, Record>, r: Record)
    requires Represents(b, m)
    ensures r.id !in m ==> Represents(b + multiset{r}, m[r.id := r])
    ensures r.id in m ==> !DistinctIds(b + multiset{r})
  {
    var b' := b + multiset{r};
    if r.id in m {
      assert m[r.id] in b' && r in b';
      assert b'[r] == b[r] + 1;
    } else {
      assert forall x :: x in b' <==> x in b || x == r;
      assert forall x :: x in b ==> b'[x] == b[x] && x.id != r.id;
    }
  }

  lemma BagDelete(b: multiset<Record>, m: map<nat, Record>, r: Record)
    requires Represents(b, m) && r in b
    ensures Represents(b - multiset{r}, m - {r.id})
  {
    var b' := b - multiset{r};
    assert b[r] == 1;
    assert forall x :: x in b' <==> x in b && x != r;
    assert forall x :: x in b' ==> b'[x] == b[x];
  }

  /** Posting inserts; ids stay distinct exactly when the counter yields an id not pending. */
  lemma PostRefinesInsert(q: Queue, time: nat, client: nat, work: Work, period: int, m: map<nat, Record>)
    requires !q.stopped && IsHeap(q.items) && Represents(multiset(q.items), m)
    ensures var p := PostWork(q, time, client, work, period);
            && IsHeap(p.queue.items) && p.queue.changed
            && (DistinctIds(multiset(p.queue.items)) <==> p.id !in m)
            && (p.id !in m ==>
                  Represents(multiset(p.queue.items), m[p.id := Record(time, client, work, period, p.id)]))
  {
    PostEffect(q, time, client, work, period);
    BagInsert(multiset(q.items), m, Record(time, client, work, period, NextIdentifier(q.nextId)));
  }

  lemma BagReplace(b: multiset<Record>, m: map<nat, Record>, was: Record, r: Record)
    requires Represents(b, m) && was in b && was.id == r.id
    ensures r.id in m && Represents(b - multiset{was} + multiset{r}, m[r.id := r])
  {
    BagDelete(b, m, was);
    BagInsert(b - multiset{was}, m - {r.id}, r);
    assert (m - {r.id})[r.id := r] == m[r.id := r];
  }

  lemma PostEffect(q: Queue, time: nat, client: nat, work: Work, period: int)
    requires !q.stopped && IsHeap(q.items)
    ensures var p := PostWork(q, time, client, work, period);
            && p.queue == q.(items := p.queue.items, changed := true, nextId := p.id)
            && p.status == Success && p.id == NextIdentifier(q.nextId) && IsHeap(p.queue.items)
            && multiset(p.queue.items) == multiset(q.items) + multiset{Record(time, client, work, period, p.id)}
  {
    PushWithIsHeap(q.heap, q.items, Record(time, client, work, period, NextIdentifier(q.nextId)));
  }

  lemma UpdateEffect(q: Queue, id: nat, client: nat, work: Work, start: nat, period: int)
    requires !q.stopped && client != INVALID_ID && work != NoWork && IsHeap(q.items)
    ensures var (q', status) := UpdateWork(q, id, client, work, start, period);
            match FindWork(q.items, id)
            case None => q' == q && status == NotFound
            case Some(k) =>
              && q' == q.(items := q'.items, changed := true) && status == Success && IsHeap(q'.items)
              && q.items[k] in multiset(q.items)
              && multiset(q'.items) == multiset(q.items) - multiset{q.items[k]}
                                       + multiset{Record(start, client, work, period, id)}
  {
    match FindWork(q.items, id)
    case None =>
    case Some(k) =>
      var r := Record(start, client, work, period, id);
      ReplaceBag(q.items, k, r);
      MakeWithIsHeap(q.heap, q.items[k := r]);
  }

  lemma UpdateRefinesReplace(q: Queue, id: nat, client: nat, work: Work, start: nat, period: int, m: map<nat, Record>)
    requires !q.stopped && client != INVALID_ID && work != NoWork
    requires IsHeap(q.items) && Represents(multiset(q.items), m)
    ensures var (q', status) := UpdateWork(q, id, client, work, start, period);
            && status == (if id in m then Success else NotFound)
            && (id !in m ==> q' == q)
            && IsHeap(q'.items)
            && (id in m ==> Represents(multiset(q'.items), m[id := Record(start, client, work, period, id)]))
  {
    UpdateEffect(q, id, client, work, start, period);
    match FindWork(q.items, id)
    case None => NotPending(q.items, id, m);
    case Some(k) =>
      BagReplace(multiset(q.items), m, q.items[k], Record(start, client, work, period, id));
  }

  lemma NotPending(s: seq<Record>, id: nat, m: map<nat, Record>)
    requires Represents(multiset(s), m) && FindWork(s, id).None?
    ensures id !in m
  {
    assert forall r :: r in multiset(s) ==> r.id != id;
  }

  lemma CancelEffect(q: Queue, id: nat)
    requires !q.stopped && IsHeap(q.items)
    ensures var (q', status) := CancelWork(q, id);
            match FindWork(q.items, id)
            case None => q' == q && status == NotFound
            case Some(k) =>
              && q' == q.(items := q'.items, changed := true) && status == Success && IsHeap(q'.items)
              && q.items[k] in multiset(q.items)
              && multiset(q'.items) == multiset(q.items) - multiset{q.items[k]}
  {
    match FindWork(q.items, id)
    case None =>
    case Some(k) =>
      SwapRemoveBag(q.items, k);
      MakeWithIsHeap(q.heap, SwapRemove(q.items, k));
  }

  lemma CancelRefinesDelete(q: Queue, id: nat, m: map<nat, Record>)
    requires !q.stopped && IsHeap(q.items) && Represents(multiset(q.items), m)
    ensures var (q', status) := CancelWork(q, id);
            && status == (if id in m then Success else NotFound)
            && (id !in m ==> q' == q)
            && IsHeap(q'.items) && Represents(multiset(q'.items), m - {id})
  {
    CancelEffect(q, id);
    match FindWork(q.items, id)
    case None =>
      NotPending(q.items, id, m);
      assert m - {id} == m;
    case Some(k) =>
      BagDelete(multiset(q.items), m, q.items[k]);
  }

  lemma WithoutClientBag(s: seq<Record>, client: nat)
    ensures forall x :: x in multiset(WithoutClient(s, client)) <==> x in multiset(s) && x.client != client
    ensures forall x: Record :: x.client != client ==> multiset(WithoutClient(s, client))[x] == multiset(s)[x]
    ensures |WithoutClient(s, client)| == |s| <==> forall x :: x in multiset(s) ==> x.client != client
  {
    forall x: Record {
      WithoutClientCounts(s, client, x);
    }
    WithoutClientLength(s, client);
  }

  lemma {:induction false} WithoutClientLength(s: seq<Record>, client: nat)
    ensures |WithoutClient(s, client)| == |s| <==> forall x :: x in multiset(s) ==> x.client != client
  {
    if s != [] {
      var n := |s| - 1;
      WithoutClientLength(s[..n], client);
      assert s == s[..n] + [s[n]];
      assert s[n] in multiset(s);
    }
  }

  ghost function OfOtherClients(m: map<nat, Record>, client: nat): map<nat, Record> {
    map id | id in m && m[id].client != client :: m[id]
  }

  lemma BagFilter(b: multiset<Record>, m: map<nat, Record>, client: nat, kept: multiset<Record>)
    requires Represents(b, m)
    requires forall x :: x in kept <==> x in b && x.client != client
    requires forall x: Record :: x.client != client ==> kept[x] == b[x]
    ensures Represents(kept, OfOtherClients(m, client))
  {
    var m' := OfOtherClients(m, client);
    assert forall r :: r in kept ==> r.id in m' && m'[r.id] == r;
  }

  lemma CancelClientEffect(q: Queue, client: nat)
    requires !q.stopped && IsHeap(q.items)
    ensures var (q', status) := CancelClientWorks(q, client);
            && q' == q.(items := q'.items, changed := q'.changed) && IsHeap(q'.items)
            && (status == NotFound ==> q' == q)
            && (status == Success ==> q'.changed && exists x :: x in multiset(q.items) && x.client == client)
            && status in {Success, NotFound}
            && (forall x :: x in multiset(q'.items) <==> x in multiset(q.items) && x.client != client)
            && (forall x: Record :: x.client != client ==> multiset(q'.items)[x] == multiset(q.items)[x])
  {
    var kept := WithoutClient(q.items, client);
    WithoutClientBag(q.items, client);
    MakeWithIsHeap(q.heap, kept);
    assert multiset(MakeWith(q.heap, kept)) == multiset(kept);
  }

  lemma CancelClientRefinesDeleteAll(q: Queue, client: nat, m: map<nat, Record>)
    requires !q.stopped && IsHeap(q.items) && Represents(multiset(q.items), m)
    ensures var (q', status) := CancelClientWorks(q, client);
            && status == (if exists id :: id in m && m[id].client == client then Success else NotFound)
            && (status == NotFound ==> q' == q)
            && IsHeap(q'.items)
            && Represents(multiset(q'.items), OfOtherClients(m, client))
  {
    CancelClientEffect(q, client);
    var (q', status) := CancelClientWorks(q, client);
    BagFilter(multiset(q.items), m, client, multiset(q'.items));
    if status == Success {
      var x :| x in multiset(q.items) && x.client == client;
      assert x.id in m && m[x.id].client == client;
    }
  }

  /** Popping extracts a minimum. */
  lemma PopRefinesExtractMin(h: Heaps, s: seq<Record>, m: map<nat, Record>)
    requires s != [] && IsHeap(s) && Represents(multiset(s), m)
    ensures IsHeap(PopWith(h, s)) && Represents(multiset(PopWith(h, s)), m - {s[0].id})
    ensures s[0].id in m && m[s[0].id] == s[0]
    ensures forall id :: id in m ==> s[0].time <= m[id].time
  {
    RootIsLeastOfBag(s);
    PopWithIsHeap(h, s);
    BagDelete(multiset(s), m, s[0]);
  }

  /** The nearest time point is the map's least time, or the epoch for an empty map. */
  lemma NearestTimeIsMinimum(s: seq<Record>, m: map<nat, Record>)
    requires IsHeap(s) && Represents(multiset(s), m)
    ensures m == map[] ==> NearestTime(s) == 0
    ensures m != map[] ==> exists id :: id in m && m[id].time == NearestTime(s)
    ensures forall id :: id in m ==> NearestTime(s) <= m[id].time
  {
    if s == [] {
      assert forall id :: id !in m;
    } else {
      RootIsLeastOfBag(s);
      assert s[0].id in m;
    }
  }

  // ---------- identifiers ----------

  /** The ids that the counter can yield: every word but the invalid one. */
  const ID_SPACE: nat := WORD_LIMIT - 1

  /** The id given to the n-th posted work, counting from 0. */
  function NthId(n: nat): nat { n % ID_SPACE }

  lemma CounterYields(n: nat)
    ensures NextIdentifier(if n == 0 then INVALID_ID else NthId(n - 1)) == NthId(n)
    ensures n < ID_SPACE ==> NthId(n) == n
    ensures NthId(n) < INVALID_ID
  {
  }

  /** The counter cycles through the id space, wrap-around included: an id comes back
      after exactly ID_SPACE posts and not earlier. */
  lemma CounterCycles(k: nat, n: nat)
    requires k <= n
    ensures NthId(k) == NthId(n) <==> (n - k) % ID_SPACE == 0
  {
    var a, b := k / ID_SPACE, n / ID_SPACE;
    assert n - k == (b - a) * ID_SPACE + (NthId(n) - NthId(k));
    ModuloOfMultiple(b - a, NthId(n) - NthId(k));
  }

  lemma ModuloOfMultiple(q: int, d: int)
    requires 0 - ID_SPACE < d < ID_SPACE
    ensures (q * ID_SPACE + d) % ID_SPACE == 0 <==> d == 0
  {
  }
}
