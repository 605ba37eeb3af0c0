/**
 forward_time to the epoch itself. get_nearest_time_point answers the epoch for an empty
 container too, so at the epoch the sentinel takes a due record for "nothing pending". The call
 is still exact when at most one record is pending at the epoch, and only then can it be relied on.
 */
module EpochForwarding {
  import opened Common
  import opened RecordHeap
  import opened HeapAlgorithms
  import opened WorkQueueModel
  import opened WorkQueueRuns
  import opened WorkQueueTheorems
  import opened Forwarding
  import opened TimeForwarding

  ghost predicate AtMostOneAtEpoch(b: multiset<Record>) {
    forall x, y :: x in b && y in b && x.time == 0 && y.time == 0 ==> x == y && b[x] == 1
  }

  ghost predicate NoneAtEpoch(b: multiset<Record>) {
    forall r :: r in b ==> 0 < r.time
  }

  /** What forward_time to the epoch owes its caller. */
  ghost predicate ExactAtEpoch(b: multiset<Record>, d: Drained, o: Oracle) {
    multiset(d.log) == AllDue(b, 0, o) && Pending(d.state) == AllLeft(b, 0, o) && NoneAtEpoch(Pending(d.state))
  }

  // ---------- at most one record ----------

  lemma LastAtEpoch(b: multiset<Record>, r: Record, o: Oracle)
    requires AtMostOneAtEpoch(b) && r in b && r.time == 0
    ensures NoneAtEpoch(b - multiset{r} + Resumed(r, o))
  {
    assert (b - multiset{r})[r] == 0;
  }

  lemma FewerAtEpoch(b: multiset<Record>)
    requires NoneAtEpoch(b)
    ensures AtMostOneAtEpoch(b)
  {
  }

  lemma {:induction false} AheadAtEpoch(v: Variant, s: State, o: Oracle, k: nat)
    requires Alone(v, s) && s.now == 0 && AtMostOneAtEpoch(Pending(s))
    ensures AtMostOneAtEpoch(Pending(Ahead(v, s, o, k).state))
    decreases k
  {
    hide Alone, WorkerStep, WorkerCanStep, Answer, Pending, StepLog, Resumed, AtMostOneAtEpoch, NoneAtEpoch;
    if k > 0 && WorkerCanStep(v, s) {
      AheadStep(v, s, o);
      if StepLog(v, s) != [] {
        LastAtEpoch(Pending(s), s.q.items[0], o);
        FewerAtEpoch(Pending(WorkerStep(v, s, Answer(s, o))));
      }
      AheadAtEpoch(v, WorkerStep(v, s, Answer(s, o)), o, k - 1);
    }
  }

  /** The record at the epoch, if there is one, comes out before the sentinel. */
  lemma {:induction false} DrainAtEpoch(v: Variant, s: State, sentinel: Record, o: Oracle)
    requires Draining(v, s, sentinel) && s.now == 0 && AtMostOneAtEpoch(Users(s, sentinel))
    requires SentinelAtRoot(s) ==> NoneAtEpoch(Users(s, sentinel))
    ensures NoneAtEpoch(Pending(Drain(v, s, sentinel, o).state))
    decreases |AllDue(Users(s, sentinel), s.now, o)|, SentinelAtRoot(s), s.pc != Scan
  {
    hide Serving, Draining, Users, Pending, AllDue, AllLeft, WorkerStep, WorkerCanStep, Answer, Drain, StepLog, SentinelAtRoot,
      Executes, IsHeap, Resumed, AtMostOneAtEpoch, NoneAtEpoch, Released;
    DrainProgress(v, s, sentinel, o);
    DrainUnfolds(v, s, sentinel, o);
    var s' := WorkerStep(v, s, Answer(s, o));
    if s.pc != Scan {
      WaitStep(v, s, sentinel, o);
      DrainAtEpoch(v, s', sentinel, o);
    } else if !SentinelAtRoot(s) {
      UserStep(v, s, sentinel, o);
      LastAtEpoch(Users(s, sentinel), s.q.items[0], o);
      FewerAtEpoch(Users(s', sentinel));
      DrainAtEpoch(v, s', sentinel, o);
    } else if s'.tokens == s.tokens {
      SentinelRearmsLater(v, s, sentinel, o);
    }
  }

  /** At the epoch the sentinel at the root always releases. */
  lemma SentinelRearmsLater(v: Variant, s: State, sentinel: Record, o: Oracle)
    requires Draining(v, s, sentinel) && s.pc == Scan && SentinelAtRoot(s) && WorkerCanStep(v, s)
    requires WorkerStep(v, s, Answer(s, o)).tokens == s.tokens
    ensures 0 < s.now
  {
    hide PopWith, IsHeap, Settle;
    if s.now == 0 {
      assert Released(0, PopWith(s.q.heap, s.q.items));
      SentinelReleases(v, s, sentinel, o);
    }
  }

  /** A sentinel posted at the epoch goes behind a record at the epoch. */
  lemma SentinelGoesBehind(v: Variant, s: State)
    requires Alone(v, s) && s.now == 0 && s.between == multiset{0}
    ensures var s' := SentinelSet(v, s, 0); SentinelAtRoot(s') ==> NoneAtEpoch(Pending(s))
  {
    hide PushWith, IsHeap, Next;
    SentinelIsSet(v, s, 0);
    PushWithIsHeap(s.q.heap, s.q.items, SentinelAt(s, 0));
    if s.q.items != [] {
      RootIsLeastOfBag(s.q.items);
      assert s.q.items[0] in Pending(s);
    }
  }

  /** With at most one record pending at the epoch the call is exact, whatever else is pending. */
  lemma EpochForwardIsExact(v: Variant, s: State, k: nat, o: Oracle)
    requires Quiet(v, s) && AtMostOneAtEpoch(Pending(s))
    ensures ExactAtEpoch(Pending(s), ForwardAndDrain(v, s, 0, k, o), o)
  {
    hide Alone, Draining, Users, Pending, AllDue, AllLeft, Drain, Ahead, Quiet, IsHeap, Serving, SentinelAt, SentinelSet, TimeSet,
      AtMostOneAtEpoch;
    TimeIsSet(v, s, 0);
    AheadAtEpoch(v, TimeSet(v, s, 0), o, k);
    var a := BeforeSentinel(v, s, 0, k, o);
    SentinelIsSet(v, a.state, 0);
    SentinelGoesBehind(v, a.state);
    DrainAtEpoch(v, SentinelSet(v, a.state, 0), SentinelAt(a.state, 0), o);
    ForwardAccounts(v, s, 0, k, o);
    NothingDue(Pending(ForwardAndDrain(v, s, 0, k, o).state), 0, o);
  }

  // ---------- two records ----------

  /** Sorting by time, with sentinels first among equals: another conforming choice. */
  function Key(r: Record): nat {
    2 * r.time + if r.work == Sentinel then 0 else 1
  }

  ghost predicate Ordered(s: seq<Record>) {
    forall i, j :: 0 <= i < j < |s| ==> Key(s[i]) <= Key(s[j])
  }

  function InsertInOrder(s: seq<Record>, r: Record): seq<Record> {
    if s == [] || Key(r) <= Key(s[0]) then [r] + s else [s[0]] + InsertInOrder(s[1..], r)
  }

  function Sort(s: seq<Record>): seq<Record> {
    if s == [] then [] else InsertInOrder(Sort(s[1..]), s[0])
  }

  lemma {:induction false} InsertInOrderBag(s: seq<Record>, r: Record)
    ensures multiset(InsertInOrder(s, r)) == multiset(s) + multiset{r}
  {
    if s != [] && Key(s[0]) < Key(r) {
      InsertInOrderBag(s[1..], r);
      assert s == [s[0]] + s[1..];
    }
  }

  lemma {:induction false} InsertKeepsOrdered(s: seq<Record>, r: Record)
    requires Ordered(s)
    ensures Ordered(InsertInOrder(s, r))
  {
    if s != [] && Key(s[0]) < Key(r) {
      InsertKeepsOrdered(s[1..], r);
      var rest := InsertInOrder(s[1..], r);
      InsertInOrderBag(s[1..], r);
      forall i | 0 <= i < |rest|
        ensures Key(s[0]) <= Key(rest[i])
      {
        assert rest[i] in multiset(rest);
      }
    }
  }

  lemma {:induction false} SortSorts(s: seq<Record>)
    ensures Ordered(Sort(s)) && IsHeap(Sort(s)) && multiset(Sort(s)) == multiset(s)
  {
    if s != [] {
      SortSorts(s[1..]);
      InsertKeepsOrdered(Sort(s[1..]), s[0]);
      InsertInOrderBag(Sort(s[1..]), s[0]);
      assert s == [s[0]] + s[1..];
    }
    OrderedIsHeap(Sort(s));
  }

  lemma OrderedIsHeap(s: seq<Record>)
    requires Ordered(s)
    ensures IsHeap(s)
  {
  }

  function SentinelFirst(): AnyAlgorithms {
    TopDown().(pop := s => if s == [] then [] else Sort(s[1..]))
  }

  lemma SentinelFirstConforms()
    ensures Conforms(SentinelFirst())
  {
    hide PushHeap, PopHeap, MakeHeap, IsHeap, Sort;
    TopDownConforms();
    forall s | IsHeap(s) && s != []
      ensures IsHeap(Sort(s[1..])) && multiset(s) == multiset(Sort(s[1..])) + multiset{s[0]}
    {
      SortSorts(s[1..]);
      assert s == [s[0]] + s[1..];
    }
  }

  const SENTINEL_FIRST: Heaps := (SentinelFirstConforms(); SentinelFirst())

  /** With it, a sentinel as early as anything else in the heap is next. */
  lemma SentinelIsNext(s: seq<Record>, sentinel: Record)
    requires IsHeap(s) && s != [] && sentinel in s[1..] && sentinel.time == 0 && sentinel.work == Sentinel
    ensures var rest := PopWith(SENTINEL_FIRST, s); rest != [] && rest[0].work == Sentinel
  {
    var rest := Sort(s[1..]);
    SortSorts(s[1..]);
    assert sentinel in multiset(rest);
    var i :| 0 <= i < |rest| && rest[i] == sentinel;
    assert Key(rest[0]) <= Key(rest[i]) == 0;
  }

  lemma {:induction false} ListOf(b: multiset<Record>) returns (s: seq<Record>)
    ensures multiset(s) == b
    decreases |b|
  {
    if b == multiset{} {
      s := [];
    } else {
      var r :| r in b;
      var rest := ListOf(b - multiset{r});
      s := [r] + rest;
    }
  }

  /** A quiet state in which exactly `b` is pending. */
  ghost function QuietWith(items: seq<Record>): State {
    State(Queue(items, true, false, INVALID_ID, FORWARDING_CLIENT, SENTINEL_FIRST), Scan, 0, multiset{}, 0, 0, 0, 1)
  }

  ghost function AllEnough(): Oracle { (_, _) => Enough }

  /** After the first of two records at the epoch, the sentinel comes to the root with the
      other still behind it. */
  lemma SentinelOvertakes(s: State, sentinel: Record)
    requires Draining(Test(false), s, sentinel) && s.now == 0 && s.pc == Scan && s.q.heap == SENTINEL_FIRST
    requires !SentinelAtRoot(s) && !AtMostOneAtEpoch(Users(s, sentinel))
    ensures !NoneAtEpoch(Pending(Drain(Test(false), s, sentinel, AllEnough()).state))
  {
    var v, o := Test(false), AllEnough();
    hide Users, Drain, AllDue, AllLeft, IsHeap, Sort, PopHeap;
    OvertakingStep(s, sentinel);
    DrainUnfolds(v, s, sentinel, o);
    var s' := WorkerStep(v, s, Answer(s, o));
    DrainUnfolds(v, s', sentinel, o);
    SentinelReleasesAtEpoch(s', sentinel);
  }

  lemma OvertakingStep(s: State, sentinel: Record)
    requires Draining(Test(false), s, sentinel) && s.now == 0 && s.pc == Scan && s.q.heap == SENTINEL_FIRST
    requires !SentinelAtRoot(s) && !AtMostOneAtEpoch(Users(s, sentinel))
    ensures WorkerCanStep(Test(false), s)
    ensures var s' := WorkerStep(Test(false), s, Answer(s, AllEnough()));
            && Draining(Test(false), s', sentinel) && s'.now == 0 && s'.pc == Scan && s'.tokens == s.tokens && SentinelAtRoot(s')
            && !NoneAtEpoch(Users(s', sentinel))
  {
    hide IsHeap, PopWith, Draining, Users, Answer, Resumed, NoneAtEpoch, AtMostOneAtEpoch, SentinelAtRoot;
    var o := AllEnough();
    UserStep(Test(false), s, sentinel, o);
    OneRemains(Users(s, sentinel), s.q.items[0]);
    NotResumed(Users(s, sentinel) - multiset{s.q.items[0]}, s.q.items[0]);
    SentinelComesNext(s, sentinel);
  }

  lemma NotResumed(b: multiset<Record>, r: Record)
    ensures b + Resumed(r, AllEnough()) == b
  {
  }

  lemma SentinelComesNext(s: State, sentinel: Record)
    requires Draining(Test(false), s, sentinel) && s.now == 0 && s.pc == Scan && s.q.heap == SENTINEL_FIRST && !SentinelAtRoot(s)
    ensures WorkerCanStep(Test(false), s)
    ensures var s' := WorkerStep(Test(false), s, Answer(s, AllEnough())); SentinelAtRoot(s') && s'.pc == Scan
  {
    hide IsHeap, PopWith;
    DrainingCanStep(Test(false), s, sentinel);
    assert sentinel in multiset(s.q.items);
    assert s.q.items == [s.q.items[0]] + s.q.items[1..];
    SentinelIsNext(s.q.items, sentinel);
  }

  lemma OneRemains(b: multiset<Record>, r: Record)
    requires !AtMostOneAtEpoch(b) && r in b
    ensures !NoneAtEpoch(b - multiset{r})
  {
    var x, y :| x in b && y in b && x.time == 0 && y.time == 0 && !(x == y && b[x] == 1);
    assert if x == r then y in b - multiset{r} else x in b - multiset{r};
  }

  lemma SentinelReleasesAtEpoch(s: State, sentinel: Record)
    requires Draining(Test(false), s, sentinel) && s.now == 0 && s.pc == Scan && SentinelAtRoot(s)
    ensures WorkerCanStep(Test(false), s)
    ensures Settled(s, WorkerStep(Test(false), s, Answer(s, AllEnough())), sentinel)
  {
    hide IsHeap, PopWith, Settle;
    DrainingCanStep(Test(false), s, sentinel);
    assert Released(0, PopWith(s.q.heap, s.q.items));
    SentinelReleases(Test(false), s, sentinel, AllEnough());
  }

  /** Whatever is pending, as soon as two records are at the epoch there is a layout of the heap
      and a choice of its algorithms with which the call falls short. */
  lemma TwoAtEpochFallShort(b: multiset<Record>) returns (s: State)
    requires !AtMostOneAtEpoch(b) && forall r :: r in b ==> r.work.UserWork?
    ensures Quiet(Test(false), s) && Pending(s) == b
    ensures !NoneAtEpoch(Pending(ForwardAndDrain(Test(false), s, 0, 0, AllEnough()).state))
  {
    hide Users, Drain, AllDue, AllLeft, IsHeap, MakeHeap, PushWith, Draining, Serving;
    var v := Test(false);
    var list := ListOf(b);
    s := QuietWith(MakeHeap(list));
    QuietState(list, b);
    TimeIsSet(v, s, 0);
    var a := BeforeSentinel(v, s, 0, 0, AllEnough());
    assert a == Drained([], TimeSet(v, s, 0));
    SentinelIsSet(v, a.state, 0);
    SentinelGoesBehind(v, a.state);
    FewerAtEpochNot(b);
    SentinelOvertakes(SentinelSet(v, a.state, 0), SentinelAt(a.state, 0));
  }

  lemma FewerAtEpochNot(b: multiset<Record>)
    requires !AtMostOneAtEpoch(b)
    ensures !NoneAtEpoch(b)
  {
    if NoneAtEpoch(b) {
      FewerAtEpoch(b);
    }
  }

  lemma QuietState(list: seq<Record>, b: multiset<Record>)
    requires multiset(list) == b && forall r :: r in b ==> r.work.UserWork?
    ensures Quiet(Test(false), QuietWith(MakeHeap(list))) && Pending(QuietWith(MakeHeap(list))) == b
  {
    hide IsHeap, MakeHeap;
    MakeHeapIsHeap(list);
  }

  /** Is the call exact from `s`? */
  ghost predicate ExactFrom(v: Variant, s: State, k: nat, o: Oracle) {
    Quiet(v, s) ==> ExactAtEpoch(Pending(s), ForwardAndDrain(v, s, 0, k, o), o)
  }

  /** For any works pending, forward_time to the epoch can be relied on, wherever the worker
      stands, however it steps, whatever works answer and however the heap lays out ties, if
      and only if at most one of them is pending at the epoch. */
  lemma EpochForwardIsExactIff(b: multiset<Record>)
    requires forall r :: r in b ==> r.work.UserWork?
    ensures AtMostOneAtEpoch(b) <==> forall v, s, k, o :: Pending(s) == b ==> ExactFrom(v, s, k, o)
  {
    hide Quiet, ExactAtEpoch, ForwardAndDrain, AtMostOneAtEpoch, Pending, NoneAtEpoch;
    if AtMostOneAtEpoch(b) {
      forall v, s, k, o | Pending(s) == b
        ensures ExactFrom(v, s, k, o)
      {
        if Quiet(v, s) {
          EpochForwardIsExact(v, s, k, o);
        }
      }
    } else {
      var s := TwoAtEpochFallShort(b);
      NotExact(b, ForwardAndDrain(Test(false), s, 0, 0, AllEnough()), AllEnough());
      assert !ExactFrom(Test(false), s, 0, AllEnough());
    }
  }

  lemma NotExact(b: multiset<Record>, d: Drained, o: Oracle)
    requires !NoneAtEpoch(Pending(d.state))
    ensures !ExactAtEpoch(b, d, o)
  {
  }

  // ---------- a run ----------

  /** The heap of the run below, with the top-down sifts: the sentinel that was pushed last is
      moved to the root when the first record is popped, and stays there. */
  lemma LastComesFirst(a: Record, b: Record, sentinel: Record)
    requires a.time == b.time == sentinel.time
    ensures PushWith(TOP_DOWN, [], a) == [a] && PushWith(TOP_DOWN, [a], b) == [a, b]
    ensures PushWith(TOP_DOWN, [a, b], sentinel) == [a, b, sentinel]
    ensures PopWith(TOP_DOWN, [a, b, sentinel]) == [sentinel, b] && PopWith(TOP_DOWN, [sentinel, b]) == [b]
  {
    hide PushWith, PopWith, TOP_DOWN;
    PushedLast([], a);
    PushedLast([a], b);
    PushedLast([a, b], sentinel);
    assert [] + [a] == [a] && [a] + [b] == [a, b] && [a, b] + [sentinel] == [a, b, sentinel];
    PoppedToFront([a, b, sentinel]);
    PoppedToFront([sentinel, b]);
    assert [a, b, sentinel][..2][0 := sentinel] == [sentinel, b];
    assert [sentinel, b][..1][0 := b] == [b];
  }

  lemma PushedLast(s: seq<Record>, r: Record)
    requires forall x :: x in s ==> x.time == r.time
    ensures PushWith(TOP_DOWN, s, r) == s + [r]
  {
    TopDownAlgorithms(s, r);
  }

  lemma PoppedToFront(s: seq<Record>)
    requires |s| > 1 && forall i :: 0 <= i < |s| ==> s[i].time == s[0].time
    ensures var n := |s| - 1; PopWith(TOP_DOWN, s) == s[..n][0 := s[n]]
  {
    TopDownAlgorithms(s, s[0]);
  }

  /** Two works scheduled at the epoch: forward_time is released with the second one due and
      not executed. */
  lemma EpochRunFallsShort() returns (states: seq<State>, labels: seq<Label>)
    ensures IsRun(Test(false), states, labels) && |labels| == 7
    ensures labels[3] == SetTime(0, true) && labels[4] == PostSentinel(0, 0)
    ensures var end, left := states[7], Record(0, 1, UserWork(2), 0, 1);
            && end.tokens == states[4].tokens + 1 && end.q.items == [left] && left.time <= end.now
            && forall i :: 0 <= i < 7 ==> Executed(Test(false), states[i], labels[i]) != Some(left)
  {
    hide PushWith, PopWith, IsHeap;
    var v := Test(false);
    var a, b := Record(0, 1, UserWork(1), 0, 0), Record(0, 1, UserWork(2), 0, 1);
    var sentinel := Record(0, FORWARDING_CLIENT, Sentinel, 0, 2);
    LastComesFirst(a, b, sentinel);
    labels := [NewClient, Schedule(1, UserWork(1), 0, 0, 0), Schedule(1, UserWork(2), 0, 0, 0), SetTime(0, true),
               PostSentinel(0, 0), Worker(Enough), Worker(Enough)];
    var s0, s1 := Init(v, TOP_DOWN, 0), TestState(TOP_DOWN, [], false, Scan, 0, 0, 2);
    var s2, s3 := TestState(TOP_DOWN, [a], true, Scan, 0, 1, 2), TestState(TOP_DOWN, [a, b], true, Scan, 0, 2, 2);
    EpochRunBegins(s0, s1, s2, s3);
    var s4 := s3.(between := multiset{0});
    var s5 := TestState(TOP_DOWN, [a, b, sentinel], true, Scan, 0, 3, 2).(callers := 1);
    EpochRunPosts(s3, s4, s5, a, b, sentinel);
    var s6 := TestState(TOP_DOWN, [sentinel, b], true, Scan, 0, 3, 2).(callers := 1);
    var s7 := TestState(TOP_DOWN, [b], true, Scan, 0, 3, 2).(tokens := 1, callers := 1);
    EpochRunEnds(s5, s6, s7, a, b, sentinel);
    states := [s0, s1, s2, s3, s4, s5, s6, s7];
  }

  lemma EpochRunBegins(s0: State, s1: State, s2: State, s3: State)
    requires var a, b := Record(0, 1, UserWork(1), 0, 0), Record(0, 1, UserWork(2), 0, 1);
             && s0 == Init(Test(false), TOP_DOWN, 0) && s1 == TestState(TOP_DOWN, [], false, Scan, 0, 0, 2)
             && s2 == TestState(TOP_DOWN, [a], true, Scan, 0, 1, 2) && s3 == TestState(TOP_DOWN, [a, b], true, Scan, 0, 2, 2)
    ensures s1 == Next(Test(false), s0, NewClient)
    ensures s2 == Next(Test(false), s1, Schedule(1, UserWork(1), 0, 0, 0))
    ensures s3 == Next(Test(false), s2, Schedule(1, UserWork(2), 0, 0, 0))
  {
    hide PushWith;
    LastComesFirst(Record(0, 1, UserWork(1), 0, 0), Record(0, 1, UserWork(2), 0, 1), Record(0, 0, Sentinel, 0, 2));
  }

  lemma EpochRunPosts(s3: State, s4: State, s5: State, a: Record, b: Record, sentinel: Record)
    requires a.time == b.time == 0 && sentinel == Record(0, FORWARDING_CLIENT, Sentinel, 0, 2)
    requires s3 == TestState(TOP_DOWN, [a, b], true, Scan, 0, 2, 2) && s4 == s3.(between := multiset{0})
    requires s5 == TestState(TOP_DOWN, [a, b, sentinel], true, Scan, 0, 3, 2).(callers := 1)
    ensures s4 == Next(Test(false), s3, SetTime(0, true))
    ensures s5 == Next(Test(false), s4, PostSentinel(0, 0))
  {
    hide PushWith, Next, ScheduleWork;
    SentinelIsThird(s3.q, a, b, sentinel);
    ForwardSections(s3, s4);
    assert multiset{0} - multiset{0} == multiset{};
    assert Calling(s4, 0) == s3.(callers := 1);
  }

  lemma SentinelIsThird(q: Queue, a: Record, b: Record, sentinel: Record)
    requires q == Queue([a, b], true, false, 1, 1, TOP_DOWN) && a.time == b.time == 0
    requires sentinel == Record(0, FORWARDING_CLIENT, Sentinel, 0, 2)
    ensures ScheduleWork(q, FORWARDING_CLIENT, Sentinel, 0, 0, 0)
         == Posted(Queue([a, b, sentinel], true, false, 2, 1, TOP_DOWN), Success, 2)
  {
    hide PushWith;
    LastComesFirst(a, b, sentinel);
  }

  lemma ForwardSections(s: State, s': State)
    requires s.now == 0 && s.between == multiset{} && s' == s.(between := multiset{0})
    ensures s' == Next(Test(false), s, SetTime(0, true))
    ensures Next(Test(false), s', PostSentinel(0, 0))
         == AfterPost(Calling(s', 0), ScheduleWork(s'.q, FORWARDING_CLIENT, Sentinel, 0, 0, 0))
  {
    hide ScheduleWork;
    assert multiset{} + multiset{0} == multiset{0};
  }

  lemma EpochRunEnds(s5: State, s6: State, s7: State, a: Record, b: Record, sentinel: Record)
    requires a == Record(0, 1, UserWork(1), 0, 0) && b == Record(0, 1, UserWork(2), 0, 1)
    requires sentinel == Record(0, FORWARDING_CLIENT, Sentinel, 0, 2)
    requires s5 == TestState(TOP_DOWN, [a, b, sentinel], true, Scan, 0, 3, 2).(callers := 1)
    requires s6 == TestState(TOP_DOWN, [sentinel, b], true, Scan, 0, 3, 2).(callers := 1)
    requires s7 == TestState(TOP_DOWN, [b], true, Scan, 0, 3, 2).(tokens := 1, callers := 1)
    ensures Enabled(Test(false), s5, Worker(Enough)) && s6 == Next(Test(false), s5, Worker(Enough))
    ensures Enabled(Test(false), s6, Worker(Enough)) && s7 == Next(Test(false), s6, Worker(Enough))
  {
    hide PushWith, PopWith;
    LastComesFirst(a, b, sentinel);
  }
}
