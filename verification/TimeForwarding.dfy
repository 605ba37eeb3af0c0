/**
 forward_time (time, true) of the virtual-time queue as a whole. It sets the time in one
 section and posts its sentinel in another; in between the mutex is free, and the worker may
 take any number of steps before the sentinel is there. After that the drain begins.
 */
module TimeForwarding {
  import opened Common
  import opened RecordHeap
  import opened HeapAlgorithms
  import opened WorkQueueModel
  import opened WorkQueueRuns
  import opened BagSums
  import opened Forwarding

  // ---------- the worker without a sentinel ----------

  /** No sentinel is pending. */
  ghost predicate Alone(v: Variant, s: State) {
    Serving(v, s) && forall r :: r in Pending(s) ==> r.work != Sentinel
  }

  /** Up to `k` steps of the worker, fewer if it comes to wait. */
  ghost function Ahead(v: Variant, s: State, o: Oracle, k: nat): Drained
    decreases k
  {
    if k == 0 || !WorkerCanStep(v, s) then Drained([], s)
    else
      var rest := Ahead(v, WorkerStep(v, s, Answer(s, o)), o, k - 1);
      Drained(StepLog(v, s) + rest.log, rest.state)
  }

  /** Nothing but the container, the change flag and the worker's position differs. */
  ghost predicate OnlyWorked(s: State, s': State) {
    s' == s.(pc := s'.pc, q := s.q.(items := s'.q.items, changed := s'.q.changed))
  }

  /** One step executes the least record pending, or changes nothing that is pending. */
  lemma AheadStep(v: Variant, s: State, o: Oracle)
    requires Alone(v, s) && WorkerCanStep(v, s)
    ensures var s' := WorkerStep(v, s, Answer(s, o));
            && Alone(v, s') && OnlyWorked(s, s')
            && if StepLog(v, s) == [] then Pending(s') == Pending(s)
               else
                 && s.q.items != []
                 && var r := s.q.items[0];
                    && StepLog(v, s) == [(r.id, r.time)] && r in Pending(s) && r.time <= s.now
                    && Pending(s') == Pending(s) - multiset{r} + Resumed(r, o)
                    && (forall x :: x in Pending(s) ==> r.time <= x.time)
                    && (forall x :: x in Pending(s') ==> r.time <= x.time)
  {
    if Executes(v, s) {
      AheadExecutes(v, s, o);
    } else {
      AheadWaits(v, s, o);
    }
  }

  lemma AheadExecutes(v: Variant, s: State, o: Oracle)
    requires Alone(v, s) && Executes(v, s)
    ensures WorkerCanStep(v, s) && s.q.items != []
    ensures var s', r := WorkerStep(v, s, Answer(s, o)), s.q.items[0];
            && Alone(v, s') && OnlyWorked(s, s') && StepLog(v, s) == [(r.id, r.time)]
            && r in Pending(s) && r.time <= s.now
            && Pending(s') == Pending(s) - multiset{r} + Resumed(r, o)
            && (forall x :: x in Pending(s) ==> r.time <= x.time)
            && (forall x :: x in Pending(s') ==> r.time <= x.time)
  {
    hide WorkerStep, Resumed, IsHeap;
    RootIsLeastOfBag(s.q.items);
    assert s.q.items[0] in Pending(s);
    ExecutionBags(v, s, o);
    WorkerKeepsInv(v, s, Answer(s, o));
  }

  lemma AheadWaits(v: Variant, s: State, o: Oracle)
    requires Alone(v, s) && WorkerCanStep(v, s) && !Executes(v, s)
    ensures var s' := WorkerStep(v, s, Answer(s, o));
            Alone(v, s') && OnlyWorked(s, s') && StepLog(v, s) == [] && Pending(s') == Pending(s)
  {
    hide IsHeap, Reinsert;
    if s.pc.InSync? {
      PutBackKeepsCore(v, s);
    } else if s.pc == Scan {
      RunningRoot(v, s);
    }
  }

  lemma PutBackKeepsCore(v: Variant, s: State)
    requires CoreInv(v, s) && s.pc.InSync?
    ensures var s' := s.(q := Reinsert(s.q, s.pc.record, s.pc.resume), pc := Scan);
            CoreInv(v, s') && Pending(s') == Pending(s) && s'.q == s.q.(items := s'.q.items)
  {
    hide IsHeap, Reinsert, RunningInv, StoppedInv;
    PutBackKeepsInv(v, s);
    ReinsertEffect(s.q, s.pc.record, s.pc.resume);
  }

  lemma AheadStepAccounts(v: Variant, s: State, o: Oracle)
    requires Alone(v, s) && WorkerCanStep(v, s)
    ensures var s' := WorkerStep(v, s, Answer(s, o));
            && Alone(v, s') && OnlyWorked(s, s')
            && multiset(StepLog(v, s)) + AllDue(Pending(s'), s.now, o) == AllDue(Pending(s), s.now, o)
            && AllLeft(Pending(s'), s.now, o) == AllLeft(Pending(s), s.now, o)
  {
    hide Alone, WorkerStep, WorkerCanStep, Answer, Pending, AllDue, AllLeft, StepLog, Resumed;
    AheadStep(v, s, o);
    if StepLog(v, s) != [] {
      AllDueStep(Pending(s), s.q.items[0], s.now, o);
      AllLeftStep(Pending(s), s.q.items[0], s.now, o);
    }
  }

  /** The same account as for the drain, for however many steps. */
  lemma {:induction false} AheadAccounts(v: Variant, s: State, o: Oracle, k: nat)
    requires Alone(v, s)
    ensures var a := Ahead(v, s, o, k);
            && Alone(v, a.state) && OnlyWorked(s, a.state)
            && multiset(a.log) + AllDue(Pending(a.state), s.now, o) == AllDue(Pending(s), s.now, o)
            && AllLeft(Pending(a.state), s.now, o) == AllLeft(Pending(s), s.now, o)
    decreases k
  {
    hide Alone, WorkerStep, WorkerCanStep, Answer, Pending, AllDue, AllLeft, StepLog;
    if k > 0 && WorkerCanStep(v, s) {
      var s' := WorkerStep(v, s, Answer(s, o));
      AheadStepAccounts(v, s, o);
      AheadAccounts(v, s', o, k - 1);
      LogJoins(StepLog(v, s), Ahead(v, s', o, k - 1).log);
    }
  }

  lemma LogJoins(a: seq<Execution>, b: seq<Execution>)
    ensures multiset(a + b) == multiset(a) + multiset(b)
  {
  }

  /** Executions come in order, and what is then pending is not earlier than any of them. */
  lemma {:induction false} AheadIsSorted(v: Variant, s: State, o: Oracle, k: nat, least: nat)
    requires Alone(v, s) && forall r :: r in Pending(s) ==> least <= r.time
    ensures var a := Ahead(v, s, o, k);
            && Sorted(a.log) && (forall e :: e in a.log ==> least <= e.1)
            && (forall r :: r in Pending(a.state) ==> least <= r.time)
            && forall e, r :: e in a.log && r in Pending(a.state) ==> e.1 <= r.time
    decreases k
  {
    hide Alone, WorkerStep, WorkerCanStep, Answer, Pending, StepLog, Resumed, Sorted, OnlyWorked;
    NothingSorted();
    if k > 0 && WorkerCanStep(v, s) {
      var s' := WorkerStep(v, s, Answer(s, o));
      AheadStep(v, s, o);
      var bound := if StepLog(v, s) == [] then least else s.q.items[0].time;
      AheadIsSorted(v, s', o, k - 1, bound);
      SortedPrepend(StepLog(v, s), Ahead(v, s', o, k - 1).log);
    }
  }

  lemma NothingSorted()
    ensures Sorted([])
  {
  }

  lemma SortedJoin(a: seq<Execution>, b: seq<Execution>, bound: nat)
    requires Sorted(a) && Sorted(b) && (forall e :: e in a ==> e.1 <= bound) && (forall e :: e in b ==> bound <= e.1)
    ensures Sorted(a + b)
  {
  }

  // ---------- forward_time (time, true) ----------

  /** No forward_time call is under way. The worker may stand anywhere. */
  ghost predicate Quiet(v: Variant, s: State) {
    && v.Test? && Inv(v, s) && !s.q.stopped && s.between == multiset{}
    && forall r :: r in Pending(s) ==> r.work != Sentinel
  }

  /** The first section of forward_time. */
  ghost function TimeSet(v: Variant, s: State, time: nat): State
    requires v.Test?
  {
    Next(v, s, SetTime(time, true))
  }

  /** The second section; it reads the virtual time just set. */
  ghost function SentinelSet(v: Variant, s: State, time: nat): State
    requires v.Test? && time in s.between
  {
    Next(v, s, PostSentinel(time, time))
  }

  ghost function SentinelAt(s: State, time: nat): Record {
    Record(time, FORWARDING_CLIENT, Sentinel, 0, NextIdentifier(s.q.nextId))
  }

  lemma TimeIsSet(v: Variant, s: State, time: nat)
    requires Quiet(v, s)
    ensures v.Test?
    ensures var s' := TimeSet(v, s, time);
            Alone(v, s') && s' == s.(now := time, between := multiset{time}) && Pending(s') == Pending(s)
  {
    hide IsHeap;
    assert multiset{} + multiset{time} == multiset{time};
  }

  lemma SentinelIsSet(v: Variant, s: State, time: nat)
    requires Alone(v, s) && s.now == time && s.between == multiset{time}
    ensures var s', sentinel := SentinelSet(v, s, time), SentinelAt(s, time);
            && Draining(v, s', sentinel) && Users(s', sentinel) == Pending(s)
            && s' == s.(q := s'.q, between := multiset{}, posts := s.posts + 1, callers := s.callers + 1)
            && s'.q == s.q.(items := PushWith(s.q.heap, s.q.items, sentinel), changed := true, nextId := sentinel.id)
            && Pending(s') == Pending(s) + multiset{sentinel}
  {
    hide IsHeap, PushWith, Next;
    SentinelBags(v, s, time);
    SentinelKeepsInv(v, s, time);
    assert Pending(SentinelSet(v, s, time))[SentinelAt(s, time)] == 1;
  }

  lemma SentinelKeepsInv(v: Variant, s: State, time: nat)
    requires Serving(v, s) && time in s.between
    ensures CoreInv(v, SentinelSet(v, s, time))
  {
    hide IsHeap, PushWith, Next;
    PostKeepsInv(v, Calling(s, time), FORWARDING_CLIENT, Sentinel, time, 0, time);
    SentinelIsPosted(v, s, time);
  }

  lemma SentinelIsPosted(v: Variant, s: State, time: nat)
    requires v.Test? && time in s.between
    ensures SentinelSet(v, s, time)
         == AfterPost(Calling(s, time), ScheduleWork(s.q, FORWARDING_CLIENT, Sentinel, time, 0, time))
  {
  }

  lemma SentinelBags(v: Variant, s: State, time: nat)
    requires Alone(v, s) && s.between == multiset{time}
    ensures var s', sentinel := SentinelSet(v, s, time), SentinelAt(s, time);
            && s' == s.(q := s'.q, between := multiset{}, posts := s.posts + 1, callers := s.callers + 1) && !s'.q.stopped
            && s'.q == s.q.(items := PushWith(s.q.heap, s.q.items, sentinel), changed := true, nextId := sentinel.id)
            && sentinel !in Pending(s) && Pending(s') == Pending(s) + multiset{sentinel}
            && multiset(s'.q.items)[sentinel] == 1
  {
    hide IsHeap, PushWith;
    PostEffect(s.q, time, FORWARDING_CLIENT, Sentinel, 0);
    assert multiset{time} - multiset{time} == multiset{};
    assert SentinelAt(s, time) !in Pending(s);
  }

  /** When the sentinel is posted, after up to `k` steps of the worker. */
  ghost function BeforeSentinel(v: Variant, s: State, time: nat, k: nat, o: Oracle): (a: Drained)
    requires Quiet(v, s)
    ensures Alone(v, a.state) && a.state.now == time && a.state.between == multiset{time}
  {
    TimeIsSet(v, s, time);
    AheadAccounts(v, TimeSet(v, s, time), o, k);
    Ahead(v, TimeSet(v, s, time), o, k)
  }

  /** The call of forward_time as a whole: `k` is how many steps the worker takes before the
      sentinel is there, if it can. */
  ghost function ForwardAndDrain(v: Variant, s: State, time: nat, k: nat, o: Oracle): Drained
    requires Quiet(v, s)
  {
    var a := BeforeSentinel(v, s, time, k, o);
    SentinelIsSet(v, a.state, time);
    var d := Drain(v, SentinelSet(v, a.state, time), SentinelAt(a.state, time), o);
    Drained(a.log + d.log, d.state)
  }

  /** The account of forward_time, for every time: what was executed and what is still owed
      together are what was owed, in order; the caller is released once; and after the epoch
      nothing is owed then. */
  lemma ForwardAccounts(v: Variant, s: State, time: nat, k: nat, o: Oracle)
    requires Quiet(v, s)
    ensures var d := ForwardAndDrain(v, s, time, k, o);
            && multiset(d.log) + AllDue(Pending(d.state), time, o) == AllDue(Pending(s), time, o)
            && AllLeft(Pending(d.state), time, o) == AllLeft(Pending(s), time, o)
            && (0 < time ==> forall r :: r in Pending(d.state) ==> time < r.time)
            && d.state.callers == s.callers + 1 && d.state.tokens == s.tokens + 1 && d.state.now == time && d.state.pc == Scan
  {
    hide Alone, Draining, Users, Pending, AllDue, AllLeft, Drain, Ahead, Quiet, IsHeap, Serving, SentinelAt, SentinelSet, TimeSet;
    TimeIsSet(v, s, time);
    AheadAccounts(v, TimeSet(v, s, time), o, k);
    var a := BeforeSentinel(v, s, time, k, o);
    SentinelIsSet(v, a.state, time);
    var s', sentinel := SentinelSet(v, a.state, time), SentinelAt(a.state, time);
    DrainAccounts(v, s', sentinel, o);
    DrainReleases(v, s', sentinel, o);
    LogJoins(a.log, Drain(v, s', sentinel, o).log);
  }

  /** Executions come in the order of their time points, also across the two sections. */
  lemma ForwardIsSorted(v: Variant, s: State, time: nat, k: nat, o: Oracle)
    requires Quiet(v, s)
    ensures Sorted(ForwardAndDrain(v, s, time, k, o).log)
  {
    hide Alone, Draining, Pending, Drain, Ahead, Quiet, IsHeap, Serving, SentinelAt, SentinelSet, TimeSet;
    TimeIsSet(v, s, time);
    AheadIsSorted(v, TimeSet(v, s, time), o, k, 0);
    var a := BeforeSentinel(v, s, time, k, o);
    SentinelIsSet(v, a.state, time);
    var s', sentinel := SentinelSet(v, a.state, time), SentinelAt(a.state, time);
    var bound := if a.log == [] then 0 else a.log[|a.log| - 1].1;
    DrainIsSorted(v, s', sentinel, o, bound);
    SortedJoin(a.log, Drain(v, s', sentinel, o).log, bound);
  }

  /** The contract of forward_time (time, true), for every time after the epoch, whatever was
      pending, wherever the worker stood and however far it came before the sentinel was
      posted, whatever the works answer and however the heap lays out ties: the caller is
      released once, the works executed are exactly those owed up to `time`, in the order of
      their time points, and each pending record is left at its first time point after `time`. */
  lemma ForwardIsExact(v: Variant, s: State, time: nat, k: nat, o: Oracle)
    requires Quiet(v, s) && 0 < time
    ensures var d := ForwardAndDrain(v, s, time, k, o);
            && multiset(d.log) == AllDue(Pending(s), time, o) && Sorted(d.log)
            && Pending(d.state) == AllLeft(Pending(s), time, o)
            && (forall r :: r in Pending(d.state) ==> time < r.time)
            && d.state.tokens == s.tokens + 1 && d.state.now == time && d.state.pc == Scan
  {
    hide Pending, AllDue, AllLeft, ForwardAndDrain, Quiet, Sorted;
    ForwardAccounts(v, s, time, k, o);
    ForwardIsSorted(v, s, time, k, o);
    NothingDue(Pending(ForwardAndDrain(v, s, time, k, o).state), time, o);
  }

  // ---------- how often a record is due ----------

  /** A work that always asks to be repeated is owed floor((now - s) / p) + 1 executions ... */
  lemma {:induction false} PeriodicCount(r: Record, now: nat, o: Oracle)
    requires 0 < r.period && r.time <= now && forall x :: o(r.id, x) == Again
    ensures |Due(r, now, o)| == Steps(now - r.time, r.period)
    decreases now - r.time
  {
    hide Steps, Due;
    var r' := r.(time := r.time + r.period);
    StepsStep(now - r.time, r.period);
    DueRepeats(r, now, o);
    if r'.time <= now {
      PeriodicCount(r', now, o);
    }
  }

  lemma DueRepeats(r: Record, now: nat, o: Oracle)
    requires r.time <= now && Repeats(r, o)
    ensures var r' := r.(time := r.time + r.period);
            && Due(r, now, o) == multiset{(r.id, r.time)} + Due(r', now, o)
            && (now < r'.time ==> Due(r', now, o) == multiset{})
  {
  }

  /** How many multiples of `p` lie between 0 and `a`. */
  ghost function Steps(a: nat, p: nat): nat
    requires 0 < p
  {
    a / p + 1
  }

  lemma StepsStep(a: nat, p: nat)
    requires 0 < p
    ensures Steps(a, p) == 1 + if p <= a then Steps(a - p, p) else 0
  {
    if p <= a {
      DivisionStep(a, p);
    } else {
      SmallDivision(a, p);
    }
  }

  /** Is `t` one of s, s + p, s + 2p, ...? */
  ghost predicate OnGrid(s: nat, p: nat, t: nat)
    requires 0 < p
  {
    s <= t && (t - s) % p == 0
  }

  lemma OnGridStep(s: nat, p: nat, t: nat)
    requires 0 < p
    ensures OnGrid(s, p, t) <==> t == s || OnGrid(s + p, p, t)
    ensures !OnGrid(s + p, p, s)
  {
    if s + p <= t {
      DivisionStep(t - s, p);
    } else if s <= t {
      SmallDivision(t - s, p);
    }
  }

  /** ... namely once at each of s, s + p, s + 2p, ... up to `now`, and at no other time. */
  lemma {:induction false} PeriodicTimes(r: Record, now: nat, o: Oracle, t: nat)
    requires 0 < r.period && forall x :: o(r.id, x) == Again
    ensures Due(r, now, o)[(r.id, t)] == if t <= now && OnGrid(r.time, r.period, t) then 1 else 0
    decreases now + 1 - r.time
  {
    hide Due, OnGrid;
    if r.time <= now {
      PeriodicTimes(r.(time := r.time + r.period), now, o, t);
      DueRepeats(r, now, o);
      OnGridStep(r.time, r.period, t);
    } else {
      NotYetDue(r, now, o, t);
    }
  }

  lemma NotYetDue(r: Record, now: nat, o: Oracle, t: nat)
    requires now < r.time && 0 < r.period
    ensures Due(r, now, o) == multiset{} && (t <= now ==> !OnGrid(r.time, r.period, t))
  {
  }

  lemma DivisionStep(a: nat, p: nat)
    requires 0 < p <= a
    ensures a / p == (a - p) / p + 1 && a % p == (a - p) % p
  {
    var q, m := (a - p) / p, (a - p) % p;
    assert a - p == p * q + m;
    var q', m' := a / p, a % p;
    assert a == p * q' + m';
    assert p * (q' - q - 1) == m - m';
    if q' - q - 1 >= 1 {
      AtLeastOnce(p, q' - q - 1);
    } else if q' - q - 1 <= -1 {
      AtLeastOnce(p, q + 1 - q');
    }
  }

  lemma AtLeastOnce(p: nat, k: nat)
    requires 1 <= k
    ensures p <= p * k
  {
  }

  lemma SmallDivision(a: nat, p: nat)
    requires a < p
    ensures a / p == 0 && a % p == a
  {
  }

  // ---------- what the log says of a record ----------

  /** The executions in a log that have a given work id. */
  ghost function ForId(log: seq<Execution>, id: nat): seq<Execution> {
    if log == [] then []
    else ForId(log[..|log| - 1], id) + if log[|log| - 1].0 == id then [log[|log| - 1]] else []
  }

  lemma {:induction false} ForIdCounts(log: seq<Execution>, id: nat, e: Execution)
    ensures multiset(ForId(log, id))[e] == if e.0 == id then multiset(log)[e] else 0
  {
    if log != [] {
      var n := |log| - 1;
      ForIdCounts(log[..n], id, e);
      assert log == log[..n] + [log[n]];
    }
  }

  /** A record is owed executions under its own id only, at most once at any time, none before
      its time point and none after `now`. */
  lemma {:induction false} DueTimes(r: Record, now: nat, o: Oracle, e: Execution)
    ensures Due(r, now, o)[e] <= 1
    ensures e in Due(r, now, o) ==> e.0 == r.id && r.time <= e.1 <= now
    decreases now + 1 - r.time
  {
    if r.time <= now && Repeats(r, o) {
      DueTimes(r.(time := r.time + r.period), now, o, e);
    }
  }

  lemma {:induction false} NoOtherDue(b: multiset<Record>, now: nat, o: Oracle, e: Execution)
    requires forall r :: r in b ==> r.id != e.0
    ensures AllDue(b, now, o)[e] == 0
    decreases |b|
  {
    hide BagSum;
    if b == multiset{} {
      NothingDue(b, now, o);
    } else {
      var r :| r in b;
      NoOtherDue(b - multiset{r}, now, o, e);
      BagSumAt(DueBy(now, o), b, r);
      DueTimes(r, now, o, e);
    }
  }

  lemma DueOfRecord(b: multiset<Record>, r: Record, now: nat, o: Oracle, e: Execution)
    requires DistinctIds(b) && r in b && e.0 == r.id
    ensures AllDue(b, now, o)[e] == Due(r, now, o)[e]
  {
    hide BagSum, Due;
    BagSumAt(DueBy(now, o), b, r);
    assert (b - multiset{r})[r] == 0;
    assert forall x :: x in b - multiset{r} ==> x in b && x != r;
    NoOtherDue(b - multiset{r}, now, o, e);
  }

  /** While ids are distinct no pair of id and time point is executed twice in one forward_time,
      so that the oracle answers each call of a work once. */
  lemma ExecutedAtMostOnce(v: Variant, s: State, time: nat, k: nat, o: Oracle, e: Execution)
    requires Quiet(v, s) && 0 < time && DistinctIds(Pending(s))
    ensures multiset(ForwardAndDrain(v, s, time, k, o).log)[e] <= 1
  {
    hide ForwardAndDrain, Quiet, Pending, AllDue, Due;
    ForwardIsExact(v, s, time, k, o);
    if r :| r in Pending(s) && r.id == e.0 {
      DueOfRecord(Pending(s), r, time, o, e);
      DueTimes(r, time, o, e);
    } else {
      NoOtherDue(Pending(s), time, o, e);
    }
  }

  /** Of a pending record, forward_time executes exactly what it is owed. */
  lemma RunsAsOwed(v: Variant, s: State, time: nat, k: nat, o: Oracle, r: Record)
    requires Quiet(v, s) && 0 < time && DistinctIds(Pending(s)) && r in Pending(s)
    ensures multiset(ForId(ForwardAndDrain(v, s, time, k, o).log, r.id)) == Due(r, time, o)
  {
    hide ForwardAndDrain, Quiet, Pending, AllDue, Due, ForId, DistinctIds;
    ForwardIsExact(v, s, time, k, o);
    var log := ForwardAndDrain(v, s, time, k, o).log;
    forall e
      ensures multiset(ForId(log, r.id))[e] == Due(r, time, o)[e]
    {
      ForIdCounts(log, r.id, e);
      DueTimes(r, time, o, e);
      if e.0 == r.id {
        DueOfRecord(Pending(s), r, time, o, e);
      }
    }
  }

  /** A pending work that always asks to be repeated is run by forward_time (time, true)
      floor((time - start) / period) + 1 times: once at each start + n * period up to `time`,
      and at no other time. */
  lemma RunsPeriodically(v: Variant, s: State, time: nat, k: nat, o: Oracle, r: Record)
    requires Quiet(v, s) && 0 < time && DistinctIds(Pending(s)) && r in Pending(s)
    requires 0 < r.period && r.time <= time && forall t :: o(r.id, t) == Again
    ensures var log := ForwardAndDrain(v, s, time, k, o).log;
            && |ForId(log, r.id)| == (time - r.time) / r.period + 1
            && forall t: nat :: multiset(log)[(r.id, t)] == if t <= time && OnGrid(r.time, r.period, t) then 1 else 0
  {
    hide ForwardAndDrain, Quiet, Pending, Due, ForId, DistinctIds, OnGrid;
    RunsAsOwed(v, s, time, k, o, r);
    PeriodicCount(r, time, o);
    var log := ForwardAndDrain(v, s, time, k, o).log;
    assert |ForId(log, r.id)| == |multiset(ForId(log, r.id))|;
    forall t: nat
      ensures multiset(log)[(r.id, t)] == if t <= time && OnGrid(r.time, r.period, t) then 1 else 0
    {
      ForIdCounts(log, r.id, (r.id, t));
      PeriodicTimes(r, time, o, t);
    }
  }

  /** A pending work that does not repeat, because it has no period or because its function
      returns false or throws, is run once if its time has come and is then no longer pending;
      if its time has not come it is not run and is pending as before. */
  lemma RunsOnce(v: Variant, s: State, time: nat, k: nat, o: Oracle, r: Record)
    requires Quiet(v, s) && 0 < time && DistinctIds(Pending(s)) && r in Pending(s)
    requires time < r.time || !Repeats(r, o)
    ensures var d := ForwardAndDrain(v, s, time, k, o);
            if time < r.time then ForId(d.log, r.id) == [] && r in Pending(d.state)
            else ForId(d.log, r.id) == [(r.id, r.time)] && forall x :: x in Pending(d.state) ==> x.id != r.id
  {
    hide ForwardAndDrain, Quiet, Pending, ForId, BagSum;
    RunsAsOwed(v, s, time, k, o, r);
    ForwardIsExact(v, s, time, k, o);
    BagSumAt(LeftBy(time, o), Pending(s), r);
    var mine := ForId(ForwardAndDrain(v, s, time, k, o).log, r.id);
    if time < r.time {
      assert multiset(mine) == multiset{};
    } else {
      OnlyElement(mine, (r.id, r.time));
      OthersLeft(Pending(s) - multiset{r}, time, o, r.id);
    }
  }

  lemma OnlyElement(log: seq<Execution>, e: Execution)
    requires multiset(log) == multiset{e}
    ensures log == [e]
  {
    assert |log| == |multiset(log)| == 1;
    assert log[0] in multiset(log);
  }

  lemma {:induction false} OthersLeft(b: multiset<Record>, now: nat, o: Oracle, id: nat)
    requires forall r :: r in b ==> r.id != id
    ensures forall x :: x in AllLeft(b, now, o) ==> x.id != id
    decreases |b|
  {
    hide BagSum;
    if b == multiset{} {
      NothingDue(b, now, o);
    } else {
      var r :| r in b;
      OthersLeft(b - multiset{r}, now, o, id);
      BagSumAt(LeftBy(now, o), b, r);
      LeftHasId(r, now, o);
    }
  }

  lemma {:induction false} LeftHasId(r: Record, now: nat, o: Oracle)
    ensures forall x :: x in Left(r, now, o) ==> x.id == r.id
    decreases now + 1 - r.time
  {
    if r.time <= now && Repeats(r, o) {
      LeftHasId(r.(time := r.time + r.period), now, o);
    }
  }

  // ---------- forwarding composes ----------

  lemma {:induction false} RecordComposes(r: Record, t1: nat, t2: nat, o: Oracle)
    requires t1 <= t2
    ensures Due(r, t1, o) + AllDue(Left(r, t1, o), t2, o) == Due(r, t2, o)
    ensures AllLeft(Left(r, t1, o), t2, o) == Left(r, t2, o)
    decreases t2 + 1 - r.time
  {
    hide BagSum;
    BagSumSmall(DueBy(t2, o), r);
    BagSumSmall(LeftBy(t2, o), r);
    if t1 < r.time {
    } else if Repeats(r, o) {
      RecordComposes(r.(time := r.time + r.period), t1, t2, o);
    }
  }

  lemma BagComposes(b: multiset<Record>, t1: nat, t2: nat, o: Oracle)
    requires t1 <= t2
    ensures AllDue(b, t1, o) + AllDue(AllLeft(b, t1, o), t2, o) == AllDue(b, t2, o)
    ensures AllLeft(AllLeft(b, t1, o), t2, o) == AllLeft(b, t2, o)
  {
    forall r {
      RecordComposes(r, t1, t2, o);
    }
    BagSumFusion(LeftBy(t1, o), DueBy(t2, o), DueBy(t1, o), DueBy(t2, o), b);
    BagSumFusion(LeftBy(t1, o), LeftBy(t2, o), Nothing(), LeftBy(t2, o), b);
    SumOfNothing(b);
  }

  ghost function Nothing(): Record -> multiset<Record> { _ => multiset{} }

  lemma {:induction false} SumOfNothing(b: multiset<Record>)
    ensures BagSum(Nothing(), b) == multiset{}
    decreases |b|
  {
    if b != multiset{} {
      var r :| r in b;
      BagSumAt(Nothing(), b, r);
      SumOfNothing(b - multiset{r});
    }
  }

  lemma {:induction false} DrainQuiets(v: Variant, s: State, sentinel: Record, o: Oracle)
    requires Draining(v, s, sentinel)
    ensures var s' := Drain(v, s, sentinel, o).state;
            CoreInv(v, s') && forall r :: r in Pending(s') ==> r.work != Sentinel
    decreases |AllDue(Users(s, sentinel), s.now, o)|, SentinelAtRoot(s), s.pc != Scan
  {
    hide Draining, AllDue, AllLeft, WorkerStep, WorkerCanStep, Answer, Drain, StepLog, SentinelAtRoot, Executes, IsHeap, CoreInv;
    DrainProgress(v, s, sentinel, o);
    DrainUnfolds(v, s, sentinel, o);
    StepKeepsCore(v, s, sentinel, o);
    var s' := WorkerStep(v, s, Answer(s, o));
    if s'.tokens == s.tokens {
      DrainQuiets(v, s', sentinel, o);
    }
  }

  lemma StepKeepsCore(v: Variant, s: State, sentinel: Record, o: Oracle)
    requires Draining(v, s, sentinel)
    ensures WorkerCanStep(v, s) && CoreInv(v, WorkerStep(v, s, Answer(s, o)))
    ensures forall r :: r in Users(s, sentinel) ==> r.work != Sentinel
  {
    DrainingCanStep(v, s, sentinel);
    OneSentinel(v, s, sentinel);
    WorkerKeepsInv(v, s, Answer(s, o));
  }

  lemma ForwardIsQuiet(v: Variant, s: State, time: nat, k: nat, o: Oracle)
    requires Quiet(v, s)
    ensures Quiet(v, ForwardAndDrain(v, s, time, k, o).state)
  {
    hide Alone, Draining, Drain, Ahead, IsHeap, CoreInv, SentinelAt, SentinelSet, TimeSet, Pending;
    TimeIsSet(v, s, time);
    AheadAccounts(v, TimeSet(v, s, time), o, k);
    var a := BeforeSentinel(v, s, time, k, o);
    SentinelIsSet(v, a.state, time);
    var s', sentinel := SentinelSet(v, a.state, time), SentinelAt(a.state, time);
    DrainQuiets(v, s', sentinel, o);
    DrainReleases(v, s', sentinel, o);
  }

  /** Forwarding to t1 and then to t2 executes what forwarding straight to t2 executes, and
      leaves the same records pending, however the worker's steps fall in each of the calls;
      only the ids drawn for sentinels differ. */
  lemma ForwardComposes(v: Variant, s: State, t1: nat, t2: nat, k1: nat, k2: nat, k: nat, o: Oracle)
    requires Quiet(v, s) && 0 < t1 <= t2
    ensures var d1 := ForwardAndDrain(v, s, t1, k1, o);
            && Quiet(v, d1.state)
            && var d2, d := ForwardAndDrain(v, d1.state, t2, k2, o), ForwardAndDrain(v, s, t2, k, o);
               && multiset(d1.log + d2.log) == multiset(d.log)
               && Pending(d2.state) == Pending(d.state) && d2.state.now == d.state.now
  {
    hide ForwardAndDrain, Quiet, AllDue, AllLeft, Pending, Sorted;
    ForwardIsQuiet(v, s, t1, k1, o);
    ForwardIsExact(v, s, t1, k1, o);
    ForwardIsExact(v, ForwardAndDrain(v, s, t1, k1, o).state, t2, k2, o);
    ForwardIsExact(v, s, t2, k, o);
    BagComposes(Pending(s), t1, t2, o);
    LogJoins(ForwardAndDrain(v, s, t1, k1, o).log,
             ForwardAndDrain(v, ForwardAndDrain(v, s, t1, k1, o).state, t2, k2, o).log);
  }
}
