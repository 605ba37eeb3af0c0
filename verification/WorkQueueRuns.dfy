/**
 The work queue under concurrency: one transition per section that runs with the
 mutex held, any number of client threads, one worker. Both the base class and the
 virtual-time class of mqmx/testing are covered; they differ in the worker's timed
 wait and in what surrounds the execution of a work.
 */
module WorkQueueRuns {
  import opened Common
  import opened RecordHeap
  import opened HeapAlgorithms
  import opened WorkQueueModel

  /** `Test(sync)` is work_queue_for_tests; `sync` says whether it has a callback. */
  datatype Variant = Base | Test(sync: bool)

  /** Where the worker stands between two sections. */
  datatype Pc =
    | Scan                                // in wait_for_some_work
    | Timed(timepoint: nat)               // blocked in wait_for_time_point
    | InSync(record: Record, resume: nat) // in the callback, mutex released; `resume` is the result so far
    | Exited

  datatype State = State(
    q: Queue,
    pc: Pc,
    now: nat,                // Base: the clock; Test: _current_time_point
    between: multiset<nat>,  // forward_time calls that set the time and have not posted their sentinel
    tokens: nat,             // _time_forwarding_completed
    callers: nat,            // forward_time calls that wait for a token
    posts: nat,              // history: number of works posted so far
    clients: nat)            // history: number of client ids drawn so far

  /** What a work function did: returned true, returned false, or threw. */
  datatype Outcome = Again | Enough | Throws

  datatype Label =
    | Schedule(client: nat, work: Work, start: nat, period: int, clock: nat)
    | Update(id: nat, client: nat, work: Work, start: nat, period: int)
    | Cancel(id: nat)
    | CancelClient(client: nat)
    | Stop
    | NewClient
    | Tick(time: nat)                  // Base: the clock advances
    | SetTime(time: nat, wait: bool)   // Test: forward_time
    | PostSentinel(time: nat, clock: nat)
    | TakeToken
    | Worker(outcome: Outcome)

  /** The client id that the virtual-time queue drew for its sentinels. */
  const FORWARDING_CLIENT: nat := 0

  /** The virtual-time queue has drawn a client id for its sentinels before its worker starts. */
  function Init(v: Variant, heap: Heaps, now: nat): State {
    State(Started(heap, if v.Test? then FORWARDING_CLIENT else INVALID_ID), Scan, now, multiset{}, 0, 0, 0,
          if v.Test? then 1 else 0)
  }

  // ---------- the worker ----------

  /** work_queue::execute_work: the time point to re-insert at, or 0 for "do not". */
  function ExecuteWork(r: Record, outcome: Outcome): nat {
    if r.work != Sentinel && outcome == Again && 0 < r.period then r.time + r.period else 0
  }

  function Reinsert(q: Queue, r: Record, time: nat): Queue {
    if time == 0 then q else q.(items := PushWith(q.heap, q.items, r.(time := time)))
  }

  /** When a record just executed is due again, 0 for never. A sentinel asks for the
      current time as long as anything due remains among the `rest`. */
  function ResumeTime(v: Variant, now: nat, r: Record, rest: seq<Record>, outcome: Outcome): nat {
    if v.Test? && r.work == Sentinel then
      if Released(now, rest) then 0 else now
    else ExecuteWork(r, outcome)
  }

  /** The state after `r`, popped from the container and leaving `q`, has been executed. */
  function Settle(v: Variant, s: State, r: Record, q: Queue, outcome: Outcome): State {
    var time := ResumeTime(v, s.now, r, q.items, outcome);
    if v.Test? && r.work == Sentinel then
      s.(q := Reinsert(q, r, time), pc := Scan, tokens := s.tokens + if Released(s.now, q.items) then 1 else 0)
    else if v.Test? && v.sync then s.(q := q, pc := InSync(r, time))
    else s.(q := Reinsert(q, r, time), pc := Scan)
  }

  /** The sentinel's test for completion: nothing pending, or nothing due. */
  predicate Released(now: nat, rest: seq<Record>) {
    NearestTime(rest) == 0 || now < NearestTime(rest)
  }

  /** The worker pops the front, executes it and puts it back if that is called for. */
  function PopAndExecute(v: Variant, s: State, outcome: Outcome): State
    requires s.q.items != []
  {
    Settle(v, s, s.q.items[0], s.q.(items := PopWith(s.q.heap, s.q.items)), outcome)
  }

  predicate WorkerCanStep(v: Variant, s: State) {
    match s.pc
    case Scan => s.q.items != []
    case Timed(t) => s.q.changed || (v.Base? && t <= s.now)
    case InSync(_, _) => true
    case Exited => false
  }

  /** Does this step of the worker call the function of the front record? */
  predicate Executes(v: Variant, s: State) {
    && s.q.items != []
    && match s.pc
       case Scan => v.Test? && s.q.items[0].work != NoWork && s.q.items[0].time <= s.now
       case Timed(t) => v.Base? && !s.q.changed && t <= s.now
       case InSync(_, _) => false
       case Exited => false
  }

  /** One section of worker(), from taking the mutex to releasing it. */
  function WorkerStep(v: Variant, s: State, outcome: Outcome): State
    requires WorkerCanStep(v, s)
  {
    if Executes(v, s) then PopAndExecute(v, s, outcome)
    else
      match s.pc
      case Scan =>
        if s.q.items[0].work == NoWork then s.(q := s.q.(items := []), pc := Exited)
        else if s.q.changed then s.(q := s.q.(changed := false))
        else s.(pc := Timed(s.q.items[0].time))
      case Timed(_) =>
        s.(q := s.q.(changed := false), pc := Scan)
      case InSync(r, result) =>
        s.(q := Reinsert(s.q, r, result), pc := Scan)
  }

  // ---------- all steps ----------

  predicate Enabled(v: Variant, s: State, l: Label) {
    match l
    case Schedule(_, work, _, _, _) => work != Sentinel
    case Update(_, _, work, _, _) => work != Sentinel
    case Tick(t) => v.Base? && s.now <= t
    case SetTime(_, _) => v.Test?
    case PostSentinel(t, _) => v.Test? && t in s.between
    case TakeToken => v.Test? && 0 < s.tokens && 0 < s.callers
    case Worker(_) => WorkerCanStep(v, s)
    case _ => true
  }

  function AfterPost(s: State, p: Posted): State {
    s.(q := p.queue, posts := if p.status == Success then s.posts + 1 else s.posts)
  }

  /** A call of forward_time for time `t` goes on to its second section, and waits if the
      sentinel is accepted. */
  function Calling(s: State, t: nat): State {
    s.(between := s.between - multiset{t}, callers := if s.q.stopped then s.callers else s.callers + 1)
  }

  function Next(v: Variant, s: State, l: Label): State
    requires Enabled(v, s, l)
  {
    match l
    case Schedule(client, work, start, period, clock) =>
      AfterPost(s, ScheduleWork(s.q, client, work, start, period, clock))
    case Update(id, client, work, start, period) =>
      s.(q := UpdateWork(s.q, id, client, work, start, period).0)
    case Cancel(id) => s.(q := CancelWork(s.q, id).0)
    case CancelClient(client) => s.(q := CancelClientWorks(s.q, client).0)
    case Stop =>
      s.(q := StopWorker(s.q).0, posts := if s.q.stopped then s.posts else s.posts + 1)
    case NewClient => s.(q := s.q.(nextClient := NextIdentifier(s.q.nextClient)), clients := s.clients + 1)
    case Tick(t) => s.(now := t)
    case SetTime(t, wait) =>
      if wait then s.(now := t, between := s.between + multiset{t})
      else s.(now := t, q := s.q.(changed := true))
    case PostSentinel(t, clock) =>
      AfterPost(Calling(s, t), ScheduleWork(s.q, FORWARDING_CLIENT, Sentinel, t, 0, clock))
    case TakeToken => s.(tokens := s.tokens - 1, callers := s.callers - 1)
    case Worker(outcome) => WorkerStep(v, s, outcome)
  }

  /** Every record that may still be executed: the container, and the one in the callback. */
  ghost function Pending(s: State): multiset<Record> {
    multiset(s.q.items)
    + if s.pc.InSync? && s.pc.resume != 0 then multiset{s.pc.record.(time := s.pc.resume)} else multiset{}
  }

  // ---------- the invariant ----------

  ghost predicate Inv(v: Variant, s: State) {
    WaitInv(v, s) && CoreInv(v, s)
  }

  ghost predicate CoreInv(v: Variant, s: State) {
    && IsHeap(s.q.items)
    && (if s.q.stopped then StoppedInv(s) else RunningInv(s))
    && (s.pc.InSync? ==>
          && v.Test? && v.sync && s.pc.record.work.UserWork?
          && (s.pc.resume == 0 || s.pc.resume > s.pc.record.time))
    && (v.Base? ==> s.between == multiset{} && forall r :: r in multiset(s.q.items) ==> r.work != Sentinel)
  }

  /** The timed wait: with no change flagged, the worker waits for the least time point. */
  ghost predicate WaitInv(v: Variant, s: State) {
    s.pc.Timed? && !s.q.changed ==>
      && s.q.items != [] && s.q.items[0].time == s.pc.timepoint && s.q.items[0].work != NoWork
      && (v.Test? && s.between == multiset{} ==> s.now < s.pc.timepoint)
  }

  ghost predicate RunningInv(s: State) {
    && s.pc != Exited
    && forall r :: r in multiset(s.q.items) ==> r.work != NoWork
  }

  /** Once stopped, the termination record stays at the front until the worker exits;
      at most one record, put back after its callback, can be behind it. */
  ghost predicate StoppedInv(s: State) {
    if s.pc == Exited then s.q.items == []
    else
      && s.q.items != [] && s.q.items[0] == TerminationRecord(s.q.nextId)
      && (s.pc.Timed? ==> s.q.changed)
      && (s.pc != Scan ==> |s.q.items| == 1)
      && forall r :: r in multiset(s.q.items) ==> r.work == NoWork || (r.work.UserWork? && 0 < r.time)
  }

  /** What the two counters hold. */
  ghost predicate CounterInv(s: State) {
    && s.q.nextId == (if s.posts == 0 then INVALID_ID else NthId(s.posts - 1))
    && s.q.nextClient == (if s.clients == 0 then INVALID_ID else NthId(s.clients - 1))
  }

  /** While the counter has not wrapped: ids are distinct and below the number of posts. */
  ghost predicate IdInv(s: State) {
    && CounterInv(s)
    && (s.posts <= ID_SPACE ==>
          && DistinctIds(Pending(s))
          && forall r :: r in Pending(s) ==> r.id < s.posts)
  }

  /** Only a stop puts a record without a work at the front. */
  lemma RunningRoot(v: Variant, s: State)
    requires CoreInv(v, s) && !s.q.stopped && s.q.items != []
    ensures s.q.items[0].work != NoWork
  {
    assert s.q.items[0] in multiset(s.q.items);
  }

  // ---------- the invariant holds throughout every run ----------

  lemma InitInv(v: Variant, heap: Heaps, now: nat)
    ensures Inv(v, Init(v, heap, now)) && IdInv(Init(v, heap, now))
  {
  }

  lemma PostKeepsInv(v: Variant, s: State, client: nat, work: Work, start: nat, period: int, clock: nat)
    requires CoreInv(v, s) && (work == Sentinel ==> v.Test?)
    requires client == INVALID_ID || work == NoWork ==> WaitInv(v, s)
    ensures Inv(v, AfterPost(s, ScheduleWork(s.q, client, work, start, period, clock)))
  {
    hide IsHeap, WorkQueueModel.PostWork, AfterPost;
    if client == INVALID_ID || work == NoWork || s.q.stopped {
      RefusedPost(s, client, work, start, period, clock);
    } else {
      AcceptedPost(s, client, work, start, period, clock);
    }
  }

  lemma RefusedPost(s: State, client: nat, work: Work, start: nat, period: int, clock: nat)
    requires client == INVALID_ID || work == NoWork || s.q.stopped
    ensures AfterPost(s, ScheduleWork(s.q, client, work, start, period, clock)) == s
  {
  }

  lemma AcceptedPost(s: State, client: nat, work: Work, start: nat, period: int, clock: nat)
    requires client != INVALID_ID && work != NoWork && !s.q.stopped && IsHeap(s.q.items)
    ensures var s' := AfterPost(s, ScheduleWork(s.q, client, work, start, period, clock));
            && s' == s.(q := s'.q, posts := s.posts + 1) && !s'.q.stopped && s'.q.changed && IsHeap(s'.q.items)
            && forall r :: r in multiset(s'.q.items) ==> r in multiset(s.q.items) || r.work == work
  {
    hide IsHeap, WorkQueueModel.PostWork;
    PostEffect(s.q, if start == 0 then clock else start, client, work, period);
  }

  lemma UpdateKeepsInv(v: Variant, s: State, id: nat, client: nat, work: Work, start: nat, period: int)
    requires Inv(v, s) && work != Sentinel
    ensures Inv(v, s.(q := UpdateWork(s.q, id, client, work, start, period).0))
  {
    if client != INVALID_ID && work != NoWork && !s.q.stopped {
      UpdateEffect(s.q, id, client, work, start, period);
    }
  }

  lemma CancelKeepsInv(v: Variant, s: State, id: nat)
    requires Inv(v, s)
    ensures Inv(v, s.(q := CancelWork(s.q, id).0))
  {
    if !s.q.stopped {
      CancelEffect(s.q, id);
    }
  }

  lemma CancelClientKeepsInv(v: Variant, s: State, client: nat)
    requires Inv(v, s)
    ensures Inv(v, s.(q := CancelClientWorks(s.q, client).0))
  {
    if !s.q.stopped {
      CancelClientEffect(s.q, client);
    }
  }

  lemma ReinsertEffect(q: Queue, r: Record, time: nat)
    requires IsHeap(q.items)
    ensures var q' := Reinsert(q, r, time);
            && q' == q.(items := q'.items) && IsHeap(q'.items)
            && multiset(q'.items) == multiset(q.items) + (if time == 0 then multiset{} else multiset{r.(time := time)})
            && (q.items != [] && time != 0 ==>
                  q'.items[0] == if time < q.items[0].time then r.(time := time) else q.items[0])
  {
    if time != 0 {
      PushWithIsHeap(q.heap, q.items, r.(time := time));
    }
  }

  lemma PutBackKeepsInv(v: Variant, s: State)
    requires Inv(v, s) && s.pc.InSync?
    ensures Inv(v, s.(q := Reinsert(s.q, s.pc.record, s.pc.resume), pc := Scan))
  {
    hide IsHeap, Reinsert, StoppedInv;
    ReinsertEffect(s.q, s.pc.record, s.pc.resume);
    var s' := s.(q := Reinsert(s.q, s.pc.record, s.pc.resume), pc := Scan);
    if s.q.stopped {
      PutBackAfterStop(s);
    } else {
      RunningKeepsInv(v, s, s');
    }
  }

  /** The termination record is at the epoch and stays in front. */
  lemma PutBackAfterStop(s: State)
    requires IsHeap(s.q.items) && StoppedInv(s) && s.pc.InSync? && s.pc.record.work.UserWork?
    ensures StoppedInv(s.(q := Reinsert(s.q, s.pc.record, s.pc.resume), pc := Scan))
  {
    hide IsHeap, Reinsert;
    ReinsertEffect(s.q, s.pc.record, s.pc.resume);
  }

  /** The worker's first look, a wake-up and its exit. */
  lemma WakingKeepsInv(v: Variant, s: State, outcome: Outcome)
    requires Inv(v, s) && WorkerCanStep(v, s) && !Executes(v, s) && !s.pc.InSync?
    ensures Inv(v, WorkerStep(v, s, outcome))
  {
    hide IsHeap, PopAndExecute, Reinsert;
    EmptyIsHeap();
    if s.pc == Scan && s.q.items[0].work != NoWork {
      RootIsLeastOfBag(s.q.items);
    }
  }

  lemma WorkerKeepsInv(v: Variant, s: State, outcome: Outcome)
    requires Inv(v, s) && WorkerCanStep(v, s)
    ensures Inv(v, WorkerStep(v, s, outcome))
  {
    hide Inv, PopAndExecute, Reinsert, Executes;
    if Executes(v, s) {
      ExecutingKeepsInv(v, s, outcome);
    } else if s.pc.InSync? {
      PutBackKeepsInv(v, s);
    } else {
      WakingKeepsInv(v, s, outcome);
    }
  }

  lemma WorkerKeepsRest(v: Variant, s: State, outcome: Outcome)
    requires WorkerCanStep(v, s)
    ensures var s' := WorkerStep(v, s, outcome);
            && s'.q == s.q.(items := s'.q.items, changed := s'.q.changed)
            && s'.now == s.now && s'.between == s.between && s'.posts == s.posts
  {
  }

  /** Only user records and sentinels are executed, and only before the stop. */
  lemma ExecutesRunning(v: Variant, s: State)
    requires Inv(v, s) && Executes(v, s)
    ensures !s.q.stopped && s.q.items[0].work != NoWork && s.q.items[0] in multiset(s.q.items)
    ensures v.Base? ==> s.q.items[0].work.UserWork?
  {
    assert s.q.items[0] in multiset(s.q.items);
  }

  lemma SettleEffect(v: Variant, s: State, r: Record, q: Queue, outcome: Outcome)
    requires IsHeap(q.items)
    ensures var s', time := Settle(v, s, r, q, outcome), ResumeTime(v, s.now, r, q.items, outcome);
            && s' == s.(q := q.(items := s'.q.items), pc := s'.pc, tokens := s'.tokens)
            && IsHeap(s'.q.items)
            && s'.tokens == s.tokens + (if v.Test? && r.work == Sentinel && Released(s.now, q.items) then 1 else 0)
            && (s'.pc == Scan || (v == Test(true) && r.work != Sentinel && s'.pc == InSync(r, time)))
            && Pending(s') == multiset(q.items) + if time == 0 then multiset{} else multiset{r.(time := time)}
  {
    hide IsHeap, Reinsert, Released, ExecuteWork;
    ReinsertEffect(q, r, ResumeTime(v, s.now, r, q.items, outcome));
  }

  /** What executing the front record does, whichever path it takes. */
  lemma ExecuteEffect(v: Variant, s: State, outcome: Outcome)
    requires s.q.items != [] && IsHeap(s.q.items)
    ensures var s', r := PopAndExecute(v, s, outcome), s.q.items[0];
            var time := ResumeTime(v, s.now, r, PopWith(s.q.heap, s.q.items), outcome);
            && s' == s.(q := s.q.(items := s'.q.items), pc := s'.pc, tokens := s'.tokens)
            && IsHeap(s'.q.items)
            && s'.tokens == s.tokens + (if v.Test? && r.work == Sentinel && Released(s.now, PopWith(s.q.heap, s.q.items)) then 1 else 0)
            && (s'.pc == Scan || (v == Test(true) && r.work != Sentinel && s'.pc == InSync(r, time)))
            && r in multiset(s.q.items)
            && Pending(s') == multiset(s.q.items) - multiset{r}
                              + if time == 0 then multiset{} else multiset{r.(time := time)}
  {
    PopWithIsHeap(s.q.heap, s.q.items);
    SettleEffect(v, s, s.q.items[0], s.q.(items := PopWith(s.q.heap, s.q.items)), outcome);
  }

  lemma ExecutingKeepsInv(v: Variant, s: State, outcome: Outcome)
    requires Inv(v, s) && Executes(v, s)
    ensures Inv(v, PopAndExecute(v, s, outcome))
  {
    hide IsHeap, PopWith, Settle, Released;
    ExecutesRunning(v, s);
    ExecuteEffect(v, s, outcome);
    ResumeIsLater(s.q.items[0], outcome);
    assert forall x :: x in Pending(PopAndExecute(v, s, outcome))
             ==> x in multiset(s.q.items) || x.work == s.q.items[0].work;
    RunningKeepsInv(v, s, PopAndExecute(v, s, outcome));
  }

  lemma ResumeIsLater(r: Record, outcome: Outcome)
    ensures ExecuteWork(r, outcome) == 0 || ExecuteWork(r, outcome) > r.time
  {
  }

  lemma RunningKeepsInv(v: Variant, s: State, s': State)
    requires CoreInv(v, s) && !s.q.stopped && IsHeap(s'.q.items)
    requires s'.q == s.q.(items := s'.q.items) && s'.between == s.between
    requires s'.pc == Scan || (s'.pc.InSync? && v == Test(true) && s'.pc.record.work.UserWork?
                               && (s'.pc.resume == 0 || s'.pc.resume > s'.pc.record.time))
    requires forall x :: x in multiset(s'.q.items) ==> x.work != NoWork && (v.Base? ==> x.work != Sentinel)
    ensures Inv(v, s')
  {
  }

  lemma NextKeepsInv(v: Variant, s: State, l: Label)
    requires Inv(v, s) && Enabled(v, s, l)
    ensures Inv(v, Next(v, s, l))
  {
    hide CoreInv, WaitInv, AfterPost, ScheduleWork, WorkQueueModel.UpdateWork, WorkQueueModel.CancelWork,
      WorkQueueModel.CancelClientWorks, StopWorker, WorkerStep, WorkerCanStep;
    match l
    case Schedule(client, work, start, period, clock) => PostKeepsInv(v, s, client, work, start, period, clock);
    case Update(id, client, work, start, period) => UpdateKeepsInv(v, s, id, client, work, start, period);
    case Cancel(id) => CancelKeepsInv(v, s, id);
    case CancelClient(client) => CancelClientKeepsInv(v, s, client);
    case Stop => StopKeepsInv(v, s);
    case PostSentinel(t, clock) =>
      CallingKeepsCore(v, s, t);
      PostKeepsInv(v, Calling(s, t), FORWARDING_CLIENT, Sentinel, t, 0, clock);
    case Worker(outcome) => WorkerKeepsInv(v, s, outcome);
    case _ => OthersKeepInv(v, s, l);
  }

  lemma StopKeepsInv(v: Variant, s: State)
    requires Inv(v, s)
    ensures Inv(v, Next(v, s, Stop))
  {
    hide NextIdentifier, PushWith;
    PushWithIsHeap(s.q.heap, [], TerminationRecord(NextIdentifier(s.q.nextId)));
  }

  lemma CallingKeepsCore(v: Variant, s: State, t: nat)
    requires CoreInv(v, s) && v.Test? && t in s.between
    ensures CoreInv(v, Calling(s, t))
  {
    hide IsHeap;
  }

  /** The steps that leave the container alone. */
  lemma OthersKeepInv(v: Variant, s: State, l: Label)
    requires Inv(v, s) && Enabled(v, s, l)
    requires l.NewClient? || l.Tick? || l.SetTime? || l.TakeToken?
    ensures Inv(v, Next(v, s, l))
  {
    hide IsHeap, NextIdentifier;
    var s' := Next(v, s, l);
    assert s'.q.items == s.q.items && s'.pc == s.pc && s'.q.stopped == s.q.stopped && s'.q.nextId == s.q.nextId;
  }
}
