/**
 Any number of waited forward_time calls at once. They share one semaphore: who waits is
 balanced against the tokens posted and the sentinels still pending. Calls that overlap can go
 wrong in two ways, and only such calls.
 */
module OverlappingCalls {
  import opened Common
  import opened RecordHeap
  import opened HeapAlgorithms
  import opened BagSums
  import opened WorkQueueModel
  import opened WorkQueueRuns
  import opened WorkQueueTheorems

  // ---------- counting sentinels ----------

  ghost function Mark(): Record -> multiset<nat> {
    (r: Record) => if r.work == Sentinel then multiset{0} else multiset{}
  }

  ghost function Sentinels(b: multiset<Record>): nat {
    |BagSum(Mark(), b)|
  }

  lemma OneMore(b: multiset<Record>, r: Record)
    ensures Sentinels(b + multiset{r}) == Sentinels(b) + if r.work == Sentinel then 1 else 0
  {
    hide BagSum;
    BagSumInsert(Mark(), b, r);
  }

  lemma OneLess(b: multiset<Record>, r: Record)
    requires r in b
    ensures Sentinels(b - multiset{r}) == Sentinels(b) - if r.work == Sentinel then 1 else 0
  {
    assert b - multiset{r} + multiset{r} == b;
    OneMore(b - multiset{r}, r);
  }

  lemma Fewer(a: multiset<Record>, b: multiset<Record>)
    requires a <= b
    ensures Sentinels(a) <= Sentinels(b)
  {
    hide BagSum;
    assert a + (b - a) == b;
    BagSumUnion(Mark(), a, b - a);
  }

  lemma {:induction false} NoSentinels(b: multiset<Record>)
    requires forall r :: r in b ==> r.work != Sentinel
    ensures Sentinels(b) == 0
    decreases |b|
  {
    if b != multiset{} {
      var r :| r in b;
      NoSentinels(b - multiset{r});
      OneLess(b, r);
    }
  }

  lemma SomeSentinel(b: multiset<Record>, r: Record)
    requires r in b && r.work == Sentinel
    ensures 1 <= Sentinels(b)
  {
    OneLess(b, r);
  }

  /** Dropping records none of which is a sentinel. */
  lemma SameSentinels(a: multiset<Record>, b: multiset<Record>)
    requires a <= b && forall r :: r in b && r.work == Sentinel ==> a[r] == b[r]
    ensures Sentinels(a) == Sentinels(b)
  {
    hide BagSum;
    assert a + (b - a) == b;
    BagSumUnion(Mark(), a, b - a);
    NoSentinels(b - a);
  }

  // ---------- the balance ----------

  /** How many callers wait for whom neither a token nor a sentinel is there. */
  ghost function Balance(s: State): int {
    s.callers - s.tokens - Sentinels(Pending(s))
  }

  /** A client's step takes a sentinel away: it stops the queue, or updates or cancels it. */
  ghost predicate Takes(s: State, l: Label) {
    && !s.q.stopped
    && exists r :: r in multiset(s.q.items) && r.work == Sentinel
         && match l
            case Stop => true
            case Update(id, _, _, _, _) => r.id == id
            case Cancel(id) => r.id == id
            case CancelClient(client) => r.client == client
            case _ => false
  }

  lemma PostBalances(s: State, client: nat, work: Work, start: nat, period: int, clock: nat)
    requires IsHeap(s.q.items)
    ensures var p := ScheduleWork(s.q, client, work, start, period, clock);
            Balance(AfterPost(s, p)) == Balance(s) - if p.status == Success && work == Sentinel then 1 else 0
  {
    hide PostWork, IsHeap, NextIdentifier, Sentinels;
    var time := if start == 0 then clock else start;
    if s.q.stopped {
      NothingPosted(s.q, time, client, work, period);
    } else {
      PostEffect(s.q, time, client, work, period);
      var r := Record(time, client, work, period, NextIdentifier(s.q.nextId));
      var p := ScheduleWork(s.q, client, work, start, period, clock);
      if p.status == Success {
        assert Pending(AfterPost(s, p)) == Pending(s) + multiset{r};
        OneMore(Pending(s), r);
      }
    }
  }

  lemma UpdateBalances(v: Variant, s: State, l: Label)
    requires IsHeap(s.q.items) && Enabled(v, s, l) && l.Update?
    ensures Balance(Next(v, s, l)) >= Balance(s) && (!Takes(s, l) ==> Balance(Next(v, s, l)) == Balance(s))
  {
    hide IsHeap, UpdateWork, Sentinels;
    AnyUpdate(s.q, l.id, l.client, l.work, l.start, l.period);
    var s' := Next(v, s, l);
    if UpdateWork(s.q, l.id, l.client, l.work, l.start, l.period).1 == Success {
      var was := s.q.items[FindWork(s.q.items, l.id).value];
      var r := Record(l.start, l.client, l.work, l.period, l.id);
      assert Pending(s') == Pending(s) - multiset{was} + multiset{r};
      OneLess(Pending(s), was);
      OneMore(Pending(s) - multiset{was}, r);
    }
  }

  /** What update_work does to the records, whatever its arguments. */
  lemma AnyUpdate(q: Queue, id: nat, client: nat, work: Work, start: nat, period: int)
    requires IsHeap(q.items)
    ensures var (q', status) := UpdateWork(q, id, client, work, start, period);
            if status != Success then q' == q
            else
              && !q.stopped && FindWork(q.items, id).Some?
              && var was := q.items[FindWork(q.items, id).value];
                 && was.id == id && was in multiset(q.items) && q' == q.(items := q'.items, changed := true)
                 && multiset(q'.items) == multiset(q.items) - multiset{was} + multiset{Record(start, client, work, period, id)}
  {
    hide IsHeap, MakeWith;
    if !q.stopped && client != INVALID_ID && work != NoWork {
      UpdateEffect(q, id, client, work, start, period);
    }
  }

  /** The record in the callback is a user's, so a pending sentinel is in the container. */
  lemma SentinelInContainer(v: Variant, s: State, r: Record)
    requires CoreInv(v, s) && r in Pending(s) && r.work == Sentinel
    ensures r in multiset(s.q.items)
  {
  }

  lemma CancelBalances(v: Variant, s: State, id: nat)
    requires CoreInv(v, s)
    ensures var s', l := Next(v, s, Cancel(id)), Cancel(id);
            Balance(s') >= Balance(s) && (!Takes(s, l) ==> Balance(s') == Balance(s))
  {
    hide CoreInv, CancelWork, Sentinels, Pending;
    CancelOutcome(s.q, id);
    if CancelWork(s.q, id).1 == Success {
      var was := CancelPending(v, s, id);
      OneLess(Pending(s), was);
      if was.work == Sentinel {
        SentinelInContainer(v, s, was);
      }
    }
  }

  lemma CancelOutcome(q: Queue, id: nat)
    ensures var (q', status) := CancelWork(q, id); if status == Success then !q.stopped else q' == q
  {
  }

  lemma CancelClientBalances(v: Variant, s: State, client: nat)
    requires CoreInv(v, s)
    ensures var s', l := Next(v, s, CancelClient(client)), CancelClient(client);
            Balance(s') >= Balance(s) && (!Takes(s, l) ==> Balance(s') == Balance(s))
  {
    hide CoreInv, Pending, CancelClientWorks, Sentinels;
    var s', l := Next(v, s, CancelClient(client)), CancelClient(client);
    if s.q.stopped {
      StoppedCancels(s.q, client);
      assert s' == s;
    } else {
      CancelClientPending(v, s, client);
      Fewer(Pending(s'), Pending(s));
      if !Takes(s, l) {
        SameSentinels(Pending(s'), Pending(s));
      }
    }
  }

  /** Only records of the client go, and a sentinel that is pending is in the container. */
  lemma CancelClientPending(v: Variant, s: State, client: nat)
    requires CoreInv(v, s) && !s.q.stopped
    ensures var s' := Next(v, s, CancelClient(client));
            && s'.callers == s.callers && s'.tokens == s.tokens && Pending(s') <= Pending(s)
            && forall r :: r in Pending(s) && r.work == Sentinel ==>
                 r in multiset(s.q.items) && (r.client != client ==> Pending(s')[r] == Pending(s)[r])
  {
    hide IsHeap, CancelClientWorks;
    CancelClientEffect(s.q, client);
  }

  lemma StoppedCancels(q: Queue, client: nat)
    requires q.stopped
    ensures CancelClientWorks(q, client).0 == q
  {
  }

  lemma StopBalances(v: Variant, s: State)
    requires CoreInv(v, s)
    ensures Balance(Next(v, s, Stop)) >= Balance(s) && (!Takes(s, Stop) ==> Balance(Next(v, s, Stop)) == Balance(s))
  {
    hide CoreInv, Pending, Sentinels, PushWith, NextIdentifier;
    if !s.q.stopped {
      var callback, end := StopPending(v, s);
      OneMore(callback, end);
      Fewer(callback, Pending(s));
      if !Takes(s, Stop) {
        NoSentinels(Pending(s));
        NoSentinels(callback);
      }
    }
  }

  /** The stop leaves what is in the callback and adds the termination record. */
  lemma StopPending(v: Variant, s: State) returns (callback: multiset<Record>, end: Record)
    requires CoreInv(v, s) && !s.q.stopped
    ensures callback <= Pending(s) && end.work == NoWork && Pending(Next(v, s, Stop)) == callback + multiset{end}
    ensures forall r :: r in callback ==> r.work != Sentinel
    ensures forall r :: r in Pending(s) && r.work == Sentinel ==> r in multiset(s.q.items)
  {
    hide CoreInv, Pending, PushWith, NextIdentifier;
    end := TerminationRecord(NextIdentifier(s.q.nextId));
    callback := Suspended(s.pc);
    PushWithIsHeapOfNone(s.q.heap, end);
    PendingSplits(s);
    PendingSplits(Next(v, s, Stop));
    SuspendedIsUsers(v, s);
    hide Next, Suspended;
  }

  /** The record in the callback, if it is to be put back. */
  ghost function Suspended(pc: Pc): multiset<Record> {
    if pc.InSync? && pc.resume != 0 then multiset{pc.record.(time := pc.resume)} else multiset{}
  }

  lemma PendingSplits(s: State)
    ensures Pending(s) == multiset(s.q.items) + Suspended(s.pc)
  {
  }

  lemma SuspendedIsUsers(v: Variant, s: State)
    requires CoreInv(v, s)
    ensures forall r :: r in Suspended(s.pc) ==> r.work != Sentinel
  {
    hide IsHeap, RunningInv, StoppedInv;
  }

  lemma PushWithIsHeapOfNone(h: Heaps, r: Record)
    ensures PushWith(h, [], r) == [r]
  {
    EmptyIsHeap();
    PushWithIsHeap(h, [], r);
  }

  lemma ExecutionBalances(v: Variant, s: State, outcome: Outcome)
    requires CoreInv(v, s) && Executes(v, s)
    ensures Balance(PopAndExecute(v, s, outcome)) == Balance(s)
  {
    hide IsHeap, PopWith, Settle, Sentinels, NearestTime, CoreInv;
    HeapOfCore(v, s);
    ExecuteEffect(v, s, outcome);
    var r := s.q.items[0];
    OneLess(multiset(s.q.items), r);
    var time := ResumeTime(v, s.now, r, PopWith(s.q.heap, s.q.items), outcome);
    var rest := multiset(s.q.items) - multiset{r};
    assert Pending(s) == multiset(s.q.items);
    if time != 0 {
      OneMore(rest, r.(time := time));
    } else {
      assert rest + multiset{} == rest;
    }
  }

  lemma HeapOfCore(v: Variant, s: State)
    requires CoreInv(v, s)
    ensures IsHeap(s.q.items) && (v.Base? ==> forall r :: r in multiset(s.q.items) ==> r.work != Sentinel)
    ensures v.Base? && s.q.items != [] ==> s.q.items[0].work != Sentinel
  {
    assert s.q.items != [] ==> s.q.items[0] in multiset(s.q.items);
  }

  lemma WaitingBalances(v: Variant, s: State, outcome: Outcome)
    requires CoreInv(v, s) && WorkerCanStep(v, s) && !Executes(v, s)
    ensures Balance(WorkerStep(v, s, outcome)) == Balance(s)
  {
    hide CoreInv, Pending, WorkerStep, WorkerCanStep, Reinsert, Sentinels, Executes;
    WaitingStep(v, s, outcome);
    var s' := WorkerStep(v, s, outcome);
    PendingSplits(s);
    PendingSplits(s');
    if s.pc.InSync? {
      PutBackPends(v, s);
    } else if s'.q.items != s.q.items {
      ExitHasNoSentinel(v, s, outcome);
      NoSentinels(Pending(s));
      NoSentinels(Pending(s'));
    }
  }

  lemma PutBackPends(v: Variant, s: State)
    requires CoreInv(v, s) && s.pc.InSync?
    ensures Pending(s.(q := Reinsert(s.q, s.pc.record, s.pc.resume), pc := Scan)) == Pending(s)
  {
    hide IsHeap, Reinsert, StoppedInv, RunningInv;
    ReinsertEffect(s.q, s.pc.record, s.pc.resume);
  }

  /** The container that the worker clears on its exit holds no sentinel. */
  lemma ExitHasNoSentinel(v: Variant, s: State, outcome: Outcome)
    requires CoreInv(v, s) && WorkerCanStep(v, s) && !Executes(v, s) && !s.pc.InSync?
    requires WorkerStep(v, s, outcome).q.items != s.q.items
    ensures forall r :: r in multiset(s.q.items) ==> r.work != Sentinel
  {
    hide IsHeap, Executes, PopAndExecute;
    assert s.pc == Scan && s.q.items[0].work == NoWork;
    assert s.q.items[0] in multiset(s.q.items);
  }

  /** Every step keeps the balance, but for a client's step that takes a sentinel away: then a
      caller is left for whom nothing comes. */
  lemma NextBalances(v: Variant, s: State, l: Label)
    requires Inv(v, s) && Enabled(v, s, l)
    ensures Balance(Next(v, s, l)) >= Balance(s) && (!Takes(s, l) ==> Balance(Next(v, s, l)) == Balance(s))
  {
    hide Balance, WorkerStep, Executes, PopAndExecute, Takes;
    match l
    case Schedule(client, work, start, period, clock) => PostBalances(s, client, work, start, period, clock);
    case PostSentinel(t, clock) => SentinelBalances(v, s, t, clock);
    case Update(_, _, _, _, _) => UpdateBalances(v, s, l);
    case Cancel(id) => CancelBalances(v, s, id);
    case CancelClient(client) => CancelClientBalances(v, s, client);
    case Stop => StopBalances(v, s);
    case Worker(outcome) =>
      if Executes(v, s) {
        ExecutionBalances(v, s, outcome);
        ExecutedStep(v, s, outcome);
      } else {
        WaitingBalances(v, s, outcome);
      }
    case _ => OtherBalances(v, s, l);
  }

  lemma ExecutedStep(v: Variant, s: State, outcome: Outcome)
    requires Executes(v, s) && WorkerCanStep(v, s)
    ensures WorkerStep(v, s, outcome) == PopAndExecute(v, s, outcome)
  {
    hide PopAndExecute;
  }

  lemma SentinelBalances(v: Variant, s: State, t: nat, clock: nat)
    requires CoreInv(v, s) && Enabled(v, s, PostSentinel(t, clock))
    ensures Balance(Next(v, s, PostSentinel(t, clock))) == Balance(s)
  {
    hide IsHeap, PostWork, Sentinels;
    PostBalances(Calling(s, t), FORWARDING_CLIENT, Sentinel, t, 0, clock);
    PostSucceeds(s.q, FORWARDING_CLIENT, Sentinel, t, 0, clock);
    assert Pending(Calling(s, t)) == Pending(s);
  }

  lemma PostSucceeds(q: Queue, client: nat, work: Work, start: nat, period: int, clock: nat)
    requires client != INVALID_ID && work != NoWork
    ensures ScheduleWork(q, client, work, start, period, clock).status == if q.stopped then NotAllowed else Success
  {
  }

  lemma OtherBalances(v: Variant, s: State, l: Label)
    requires Enabled(v, s, l) && (l.NewClient? || l.Tick? || l.SetTime? || l.TakeToken?)
    ensures Balance(Next(v, s, l)) == Balance(s)
  {
    hide Sentinels;
    assert Pending(Next(v, s, l)) == Pending(s);
  }

  /** In every run: a token and a pending sentinel each stand for a caller that waits. As long as
      no client takes a sentinel away, every caller that waits has one of the two. */
  lemma {:induction false} CallersAreBalanced(v: Variant, states: seq<State>, labels: seq<Label>, i: nat)
    requires IsRun(v, states, labels) && i < |states|
    ensures states[i].tokens + Sentinels(Pending(states[i])) <= states[i].callers
    ensures (forall j :: 0 <= j < i ==> !Takes(states[j], labels[j])) ==>
              states[i].tokens + Sentinels(Pending(states[i])) == states[i].callers
  {
    hide Next, Enabled, Inv, Takes, Pending, IdInv, Sentinels, Init;
    if i == 0 {
      NobodyCalls(v, states[0].q.heap, states[0].now);
    } else {
      CallersAreBalanced(v, states, labels, i - 1);
      RunInv(v, states, labels, i - 1);
      NextBalances(v, states[i - 1], labels[i - 1]);
    }
  }

  lemma NobodyCalls(v: Variant, heap: Heaps, now: nat)
    ensures var s := Init(v, heap, now); s.tokens == s.callers == Sentinels(Pending(s)) == 0
  {
    NoSentinels(multiset{});
  }

  /** A caller that waits alone is released only when its own sentinel has found nothing due:
      as long as the sentinel is pending there is no token to take. */
  lemma LoneCallIsNotEarly(v: Variant, states: seq<State>, labels: seq<Label>, i: nat)
    requires IsRun(v, states, labels) && i < |states| && states[i].callers <= 1
    ensures Enabled(v, states[i], TakeToken) ==> forall r :: r in Pending(states[i]) ==> r.work != Sentinel
  {
    hide Next, Inv, Pending, Sentinels;
    CallersAreBalanced(v, states, labels, i);
    if Enabled(v, states[i], TakeToken) {
      forall r | r in Pending(states[i])
        ensures r.work != Sentinel
      {
        if r.work == Sentinel {
          SomeSentinel(Pending(states[i]), r);
        }
      }
    }
  }

  // ---------- two sentinels due at once ----------

  ghost predicate DueSentinel(s: State, id: nat) {
    exists r :: r in multiset(s.q.items) && r.work == Sentinel && r.id == id && r.time <= s.now
  }

  /** Two calls wait, the time of both has come, and nothing is pending at the epoch. */
  ghost predicate TwoDue(s: State, x: nat, y: nat) {
    x != y && DueSentinel(s, x) && DueSentinel(s, y) && forall r :: r in Pending(s) ==> 0 < r.time
  }

  /** Each of the two sentinels finds the other due and arms itself again. */
  lemma SentinelsSpin(v: Variant, s: State, outcome: Outcome, x: nat, y: nat)
    requires v.Test? && Inv(v, s) && !s.q.stopped && TwoDue(s, x, y) && Executes(v, s)
    ensures var s' := PopAndExecute(v, s, outcome); s'.tokens == s.tokens && TwoDue(s', x, y)
  {
    hide IsHeap, PopWith, Settle, Released, DueSentinel, ResumeTime;
    ExecuteEffect(v, s, outcome);
    OtherIsDue(s, x, y);
    StillDue(v, s, outcome, x);
    StillDue(v, s, outcome, y);
    LaterThanEpoch(v, s, outcome);
  }

  /** Whichever record comes first, another sentinel is left that is due. */
  lemma OtherIsDue(s: State, x: nat, y: nat)
    requires IsHeap(s.q.items) && TwoDue(s, x, y)
    ensures 0 < s.now && s.q.items != [] && !Released(s.now, PopWith(s.q.heap, s.q.items))
  {
    hide PopWith, IsHeap, Pending;
    PendingSplits(s);
    var a :| a in multiset(s.q.items) && a.work == Sentinel && a.id == x && a.time <= s.now;
    var b :| b in multiset(s.q.items) && b.work == Sentinel && b.id == y && b.time <= s.now;
    var rest := PopWith(s.q.heap, s.q.items);
    PopWithIsHeap(s.q.heap, s.q.items);
    var c := if s.q.items[0] == a then b else a;
    assert c in multiset(rest);
    RootIsLeastOfBag(rest);
    assert rest[0] in multiset(rest);
    assert c in Pending(s) && rest[0] in Pending(s);
  }

  lemma LaterThanEpoch(v: Variant, s: State, outcome: Outcome)
    requires v.Test? && Inv(v, s) && Executes(v, s) && 0 < s.now && forall r :: r in Pending(s) ==> 0 < r.time
    ensures forall r :: r in Pending(PopAndExecute(v, s, outcome)) ==> 0 < r.time
  {
    hide IsHeap, PopWith, Settle, Released;
    ExecuteEffect(v, s, outcome);
    assert s.q.items[0] in Pending(s);
  }

  lemma StillDue(v: Variant, s: State, outcome: Outcome, x: nat)
    requires v.Test? && Inv(v, s) && DueSentinel(s, x) && Executes(v, s)
    requires var r := s.q.items[0]; r.work == Sentinel ==> 0 < s.now && !Released(s.now, PopWith(s.q.heap, s.q.items))
    ensures DueSentinel(PopAndExecute(v, s, outcome), x)
  {
    hide IsHeap, PopWith, Settle, Released;
    ExecuteEffect(v, s, outcome);
    ExecutingKeepsInv(v, s, outcome);
    var a :| a in multiset(s.q.items) && a.work == Sentinel && a.id == x && a.time <= s.now;
    var s', r := PopAndExecute(v, s, outcome), s.q.items[0];
    var a' := if a == r then a.(time := s.now) else a;
    assert a' in Pending(s');
    SentinelInContainer(v, s', a');
  }

  lemma WaitingKeepsDue(v: Variant, s: State, outcome: Outcome, x: nat, y: nat)
    requires v.Test? && Inv(v, s) && !s.q.stopped && TwoDue(s, x, y) && WorkerCanStep(v, s) && !Executes(v, s)
    ensures var s' := WorkerStep(v, s, outcome); s'.tokens == s.tokens && TwoDue(s', x, y) && s'.now == s.now
  {
    hide IsHeap, WorkerStep, Reinsert, Executes, DueSentinel;
    WaitingStep(v, s, outcome);
    WaitingKeepsNow(v, s, outcome);
    var s' := WorkerStep(v, s, outcome);
    if s.pc.InSync? {
      ReinsertEffect(s.q, s.pc.record, s.pc.resume);
      assert Pending(s') == Pending(s);
    }
    MoreKeepsDue(s, s', x);
    MoreKeepsDue(s, s', y);
  }

  lemma MoreKeepsDue(s: State, s': State, x: nat)
    requires multiset(s.q.items) <= multiset(s'.q.items) && s'.now == s.now && DueSentinel(s, x)
    ensures DueSentinel(s', x)
  {
  }

  lemma WaitingKeepsNow(v: Variant, s: State, outcome: Outcome)
    requires CoreInv(v, s) && !s.q.stopped && WorkerCanStep(v, s) && !Executes(v, s)
    ensures WorkerStep(v, s, outcome).now == s.now
    ensures !s.pc.InSync? ==> WorkerStep(v, s, outcome).q.items == s.q.items
  {
    hide IsHeap, Reinsert, Executes, PopAndExecute;
    assert s.q.items != [] ==> s.q.items[0] in multiset(s.q.items);
  }

  /** Once two sentinels are due at the same time the worker alone never releases anybody: it
      arms the one and the other again without end, and is not even blocked. */
  lemma {:induction false} OverlappingCallsSpin(v: Variant, states: seq<State>, labels: seq<Label>, i: nat, j: nat, x: nat, y: nat)
    requires IsRun(v, states, labels) && i <= j < |states| && forall k :: i <= k < j ==> labels[k].Worker?
    requires v.Test? && !states[i].q.stopped && TwoDue(states[i], x, y)
    ensures states[j].tokens == states[i].tokens && TwoDue(states[j], x, y) && !states[j].q.stopped
    ensures states[j].between == states[i].between == multiset{} ==> WorkerCanStep(v, states[j])
    decreases j
  {
    hide Next, Enabled, TwoDue, Inv, IdInv, WorkerCanStep;
    if i < j {
      OverlappingCallsSpin(v, states, labels, i, j - 1, x, y);
      RunInv(v, states, labels, j - 1);
      SpinStep(v, states[j - 1], labels[j - 1], x, y);
    }
    RunInv(v, states, labels, j);
    DueIsNotBlocked(v, states[j], x, y);
  }

  lemma SpinStep(v: Variant, s: State, l: Label, x: nat, y: nat)
    requires v.Test? && Inv(v, s) && !s.q.stopped && TwoDue(s, x, y) && l.Worker? && Enabled(v, s, l)
    ensures var s' := Next(v, s, l); s'.tokens == s.tokens && TwoDue(s', x, y) && !s'.q.stopped
  {
    hide TwoDue, Inv, Executes, PopAndExecute, WorkerStep;
    NextKeepsRunning(v, s, l);
    if Executes(v, s) {
      SentinelsSpin(v, s, l.outcome, x, y);
      ExecutedStep(v, s, l.outcome);
    } else {
      WaitingKeepsDue(v, s, l.outcome, x, y);
    }
  }

  lemma NextKeepsRunning(v: Variant, s: State, l: Label)
    requires l.Worker? && Enabled(v, s, l) && !s.q.stopped
    ensures !Next(v, s, l).q.stopped
  {
    hide PushWith, PopWith;
  }

  lemma DueIsNotBlocked(v: Variant, s: State, x: nat, y: nat)
    requires v.Test? && Inv(v, s) && !s.q.stopped && TwoDue(s, x, y)
    ensures s.between == multiset{} ==> WorkerCanStep(v, s)
  {
    hide IsHeap;
    var r :| r in multiset(s.q.items) && r.work == Sentinel && r.id == x && r.time <= s.now;
    HeapOfCore(v, s);
    RootIsLeastOfBag(s.q.items);
  }

  // ---------- runs ----------

  lemma TwoInHeap(h: Heaps, a: Record, b: Record)
    ensures PushWith(h, [], a) == [a] && PopWith(h, [a]) == []
    ensures PushWith(h, [a], b) == if b.time < a.time then [b, a] else [a, b]
    ensures a.time <= b.time ==> PopWith(h, [a, b]) == [b]
  {
    hide PushWith, PopWith;
    OnlyRecord(h, a);
    OneIsHeap(a);
    PushWithIsHeap(h, [a], b);
    TwoElements(PushWith(h, [a], b), a, b);
    if a.time <= b.time {
      PopWithIsHeap(h, [a, b]);
      OneElement(PopWith(h, [a, b]), b);
    }
  }

  lemma OneIsHeap(a: Record)
    ensures IsHeap([a])
  {
  }

  lemma OneElement(s: seq<Record>, b: Record)
    requires multiset(s) == multiset{b}
    ensures s == [b]
  {
    assert |s| == |multiset(s)| == 1;
    assert s[0] in multiset(s);
  }

  lemma TwoElements(s: seq<Record>, a: Record, b: Record)
    requires multiset(s) == multiset{a} + multiset{b}
    ensures s == [a, b] || s == [b, a]
  {
    assert |s| == |multiset(s)| == 2;
    assert s == [s[0], s[1]];
    assert s[0] in multiset(s) && s[1] in multiset(s);
  }

  function SentinelFor(time: nat, id: nat): Record {
    Record(time, FORWARDING_CLIENT, Sentinel, 0, id)
  }

  /** The virtual-time queue, started at the epoch, with sentinels of `callers` calls. */
  function CallState(heap: Heaps, items: seq<Record>, now: nat, callers: nat, between: multiset<nat>): State {
    State(Queue(items, callers > 0, false, if callers == 0 then INVALID_ID else callers - 1, FORWARDING_CLIENT, heap),
          Scan, now, between, 0, callers, callers, 1)
  }

  /** The two sections of one more call of forward_time. */
  lemma OneMoreCall(heap: Heaps, items: seq<Record>, items': seq<Record>, now: nat, time: nat, callers: nat)
    requires 0 < time && callers < 2 && items' == PushWith(heap, items, SentinelFor(time, callers))
    ensures Next(Test(false), CallState(heap, items, now, callers, multiset{}), SetTime(time, true))
         == CallState(heap, items, time, callers, multiset{time})
    ensures Next(Test(false), CallState(heap, items, time, callers, multiset{time}), PostSentinel(time, time))
         == CallState(heap, items', time, callers + 1, multiset{})
  {
    hide PushWith;
    assert multiset{} + multiset{time} == multiset{time} && multiset{time} - multiset{time} == multiset{};
  }

  /** Two calls one after another, the worker not having stepped yet. */
  lemma TwoCalls(heap: Heaps, t0: nat, t1: nat) returns (states: seq<State>, labels: seq<Label>)
    requires 0 < t0 && 0 < t1
    ensures labels == [SetTime(t0, true), PostSentinel(t0, t0), SetTime(t1, true), PostSentinel(t1, t1)]
    ensures IsRun(Test(false), states, labels)
    ensures var a, b := SentinelFor(t0, 0), SentinelFor(t1, 1);
            states[4] == CallState(heap, if t1 < t0 then [b, a] else [a, b], t1, 2, multiset{})
  {
    hide PushWith, PopWith;
    var v, a, b := Test(false), SentinelFor(t0, 0), SentinelFor(t1, 1);
    TwoInHeap(heap, a, b);
    var both := PushWith(heap, [a], b);
    OneMoreCall(heap, [], [a], 0, t0, 0);
    OneMoreCall(heap, [a], both, t0, t1, 1);
    labels := [SetTime(t0, true), PostSentinel(t0, t0), SetTime(t1, true), PostSentinel(t1, t1)];
    states := [CallState(heap, [], 0, 0, multiset{}), CallState(heap, [], t0, 0, multiset{t0}),
               CallState(heap, [a], t0, 1, multiset{}), CallState(heap, [a], t1, 1, multiset{t1}),
               CallState(heap, both, t1, 2, multiset{})];
    CallsFormRun(states, labels);
  }

  lemma CallsFormRun(states: seq<State>, labels: seq<Label>)
    requires |states| == 5 && |labels| == 4 && states[0] == Init(Test(false), states[0].q.heap, states[0].now)
    requires labels[0].SetTime? && labels[1].PostSentinel? && labels[2].SetTime? && labels[3].PostSentinel?
    requires labels[1].time in states[1].between && labels[3].time in states[3].between
    requires forall i :: 0 <= i < 4 ==> Enabled(Test(false), states[i], labels[i]) && states[i + 1] == Next(Test(false), states[i], labels[i])
    ensures IsRun(Test(false), states, labels)
  {
    hide Next;
  }

  /** A later call overtakes an earlier one: both sentinels are due, so from here the worker
      alone never releases either caller. */
  lemma LaterCallSpins(heap: Heaps, t0: nat, t1: nat) returns (states: seq<State>, labels: seq<Label>)
    requires 0 < t0 <= t1
    ensures IsRun(Test(false), states, labels) && |labels| == 4
    ensures states[4].callers == 2 && states[4].tokens == 0 && TwoDue(states[4], 0, 1) && !states[4].q.stopped
  {
    states, labels := TwoCalls(heap, t0, t1);
    DueAtOnce(heap, t0, t1);
  }

  lemma DueAtOnce(heap: Heaps, t0: nat, t1: nat)
    requires 0 < t0 <= t1
    ensures TwoDue(CallState(heap, [SentinelFor(t0, 0), SentinelFor(t1, 1)], t1, 2, multiset{}), 0, 1)
  {
    var a, b := SentinelFor(t0, 0), SentinelFor(t1, 1);
    var s := CallState(heap, [a, b], t1, 2, multiset{});
    assert a in multiset(s.q.items) && b in multiset(s.q.items);
    assert forall r :: r in Pending(s) ==> r in [a, b];
  }

  /** A call that sets the time back: its sentinel releases a token while the other call's is
      pending and not due, and either caller may take it. */
  lemma EarlierCallReleases(heap: Heaps, t0: nat, t1: nat) returns (states: seq<State>, labels: seq<Label>)
    requires 0 < t1 < t0
    ensures IsRun(Test(false), states, labels) && |labels| == 5 && labels[4].Worker?
    ensures var end := states[5];
            && end.callers == 2 && Enabled(Test(false), end, TakeToken)
            && end.q.items == [SentinelFor(t0, 0)] && end.now < t0
  {
    hide Next, Enabled, Init, PushWith, PopWith;
    states, labels := TwoCalls(heap, t0, t1);
    var last := EarlierIsReleased(heap, SentinelFor(t0, 0), SentinelFor(t1, 1));
    states, labels := states + [last], labels + [Worker(Enough)];
  }

  lemma EarlierIsReleased(heap: Heaps, a: Record, b: Record) returns (end: State)
    requires 0 < b.time < a.time && a == SentinelFor(a.time, 0) && b == SentinelFor(b.time, 1)
    ensures var s := CallState(heap, [b, a], b.time, 2, multiset{});
            && Enabled(Test(false), s, Worker(Enough)) && end == Next(Test(false), s, Worker(Enough))
    ensures end.callers == 2 && Enabled(Test(false), end, TakeToken) && end.q.items == [a] && end.now == b.time
  {
    hide PushWith, PopWith;
    TwoInHeap(heap, b, a);
    end := Next(Test(false), CallState(heap, [b, a], b.time, 2, multiset{}), Worker(Enough));
  }
}
