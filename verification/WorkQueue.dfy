/**
 The work queue as an object: the vector is an array with a size, updated in place, and
 every method leaves exactly the state that the functions of WorkQueueModel and
 WorkQueueRuns prescribe. Each method is one section run with the mutex held.

 The virtual-time subclass overrides two methods of the worker; here `variant` selects
 between the base class and the subclass.
 */
module WorkQueueClass {
  import opened Common
  import opened RecordHeap
  import opened HeapAlgorithms
  import opened WorkQueueModel
  import opened WorkQueueRuns
  import opened Forwarding
  import opened TimeForwarding

  class WorkQueue {
    const variant: Variant
    var container: array<Record>   // _wq_item_container: the first `size` elements
    var size: nat
    var changed: bool              // _container_change_flag
    var stopped: bool              // _worker_stopped_flag
    var nextWorkId: nat
    var nextClientId: nat
    var currentTime: nat           // Base: the clock as last read; Test: _current_time_point
    var completed: nat             // _time_forwarding_completed
    var worker: Pc                 // where the worker thread stands
    ghost var between: multiset<nat>
    ghost var callers: nat
    ghost var posts: nat
    ghost var clients: nat

    /** The client counter holds the id drawn last. */
    ghost predicate Valid()
      reads this
    {
      && size <= container.Length
      && nextClientId == if clients == 0 then INVALID_ID else NthId(clients - 1)
    }

    ghost function Items(): seq<Record>
      requires Valid()
      reads this, container
    {
      container[..size]
    }

    ghost function Model(): Queue
      requires Valid()
      reads this, container
    {
      Queue(Items(), changed, stopped, nextWorkId, nextClientId, TOP_DOWN)
    }

    ghost function Current(): State
      requires Valid()
      reads this, container
    {
      State(Model(), worker, currentTime, between, completed, callers, posts, clients)
    }

    /** The virtual-time queue draws a client id for its sentinels. */
    constructor (variant: Variant, now: nat)
      ensures Valid() && Current() == Init(variant, TOP_DOWN, now) && this.variant == variant
      ensures fresh(container)
    {
      this.variant := variant;
      container := new Record[0];
      size, changed, stopped := 0, false, false;
      nextWorkId, nextClientId := INVALID_ID, INVALID_ID;
      currentTime, completed, worker := now, 0, Scan;
      between, callers, posts, clients := multiset{}, 0, 0, 0;
      new;
      if variant.Test? {
        var id := GetClientId();
      }
    }

    /** std::vector::push_back, growing the storage when it is full. */
    method PushBack(r: Record)
      requires Valid()
      modifies this`container, this`size, container
      ensures Valid() && Items() == old(Items()) + [r]
      ensures container == old(container) || fresh(container)
    {
      if size == container.Length {
        var bigger := new Record[2 * size + 1];
        forall i | 0 <= i < size {
          bigger[i] := container[i];
        }
        container := bigger;
      }
      container[size] := r;
      size := size + 1;
    }

    method Push(r: Record)
      requires Valid()
      modifies this`container, this`size, container
      ensures Valid() && Items() == PushWith(TOP_DOWN, old(Items()), r)
      ensures container == old(container) || fresh(container)
    {
      hide PushWith, SiftUp, NthId;
      TopDownAlgorithms(Items(), r);
      PushBack(r);
      PushHeapInPlace(container, size);
    }

    method PostWork(time: nat, client: nat, work: Work, period: int) returns (status: Status, id: nat)
      requires Valid()
      modifies this`container, this`size, this`nextWorkId, this`changed, this`posts, container
      ensures Valid() && (container == old(container) || fresh(container))
      ensures var p := WorkQueueModel.PostWork(old(Model()), time, client, work, period);
              Current() == AfterPost(old(Current()), p) && status == p.status && id == p.id
    {
      hide PushWith, NextIdentifier, NthId;
      if stopped {
        return NotAllowed, INVALID_ID;
      }
      nextWorkId := NextIdentifier(nextWorkId);
      Push(Record(time, client, work, period, nextWorkId));
      changed := true;
      posts := posts + 1;
      return Success, nextWorkId;
    }

    method ScheduleWork(client: nat, work: Work, start: nat, period: int, clock: nat) returns (status: Status, id: nat)
      requires Valid()
      modifies this`container, this`size, this`nextWorkId, this`changed, this`posts, container
      ensures Valid() && (container == old(container) || fresh(container))
      ensures var p := WorkQueueModel.ScheduleWork(old(Model()), client, work, start, period, clock);
              Current() == AfterPost(old(Current()), p) && status == p.status && id == p.id
    {
      hide PushWith, NthId, NextIdentifier;
      if client == INVALID_ID || work == NoWork {
        return InvalidArgument, INVALID_ID;
      }
      status, id := PostWork(if start == 0 then clock else start, client, work, period);
    }

    method SignalWorkerToStop() returns (ok: bool)
      requires Valid()
      modifies this, container
      ensures Valid() && (container == old(container) || fresh(container))
      ensures Current() == Next(variant, old(Current()), Stop) && ok == StopWorker(old(Model())).1 == !old(stopped)
    {
      hide PushWith, NthId, NextIdentifier;
      if stopped {
        return false;
      }
      size := 0;
      var status, id := PostWork(0, INVALID_ID, NoWork, 0);
      stopped := true;
      return true;
    }

    /** The search loop shared by update_work and cancel_work. */
    method Find(id: nat) returns (at: Option<nat>)
      requires Valid()
      ensures at == FindWork(Items(), id)
    {
      for i := 0 to size
        invariant forall j :: 0 <= j < i ==> container[j].id != id
      {
        if container[i].id == id {
          FirstIsFound(Items(), id, i);
          return Some(i);
        }
      }
      return None;
    }

    method MakeHeapAndNotifyWorker()
      requires Valid()
      modifies this`changed, container
      ensures Valid() && Items() == MakeWith(TOP_DOWN, old(Items())) && changed
    {
      MakeIsTopDown(Items());
      MakeHeapInPlace(container, size);
      changed := true;
    }

    method UpdateWork(id: nat, client: nat, work: Work, start: nat, period: int) returns (status: Status)
      requires Valid()
      modifies this`changed, container
      ensures Valid()
      ensures (Model(), status) == WorkQueueModel.UpdateWork(old(Model()), id, client, work, start, period)
    {
      if client == INVALID_ID || work == NoWork {
        return InvalidArgument;
      }
      if stopped {
        return NotAllowed;
      }
      var at := Find(id);
      match at
      case None => return NotFound;
      case Some(k) =>
        container[k] := Record(start, client, work, period, id);
        assert Items() == old(Items())[k := Record(start, client, work, period, id)];
        MakeHeapAndNotifyWorker();
        return Success;
    }

    method CancelWork(id: nat) returns (status: Status)
      requires Valid()
      modifies this`changed, this`size, container
      ensures Valid()
      ensures (Model(), status) == WorkQueueModel.CancelWork(old(Model()), id)
    {
      hide MakeWith, SwapRemove, NthId;
      if stopped {
        return NotAllowed;
      }
      var at := Find(id);
      match at
      case None => return NotFound;
      case Some(k) =>
        RemoveAt(k);
        MakeHeapAndNotifyWorker();
        return Success;
    }

    /** The swap with the last element and pop_back. */
    method RemoveAt(k: nat)
      requires Valid() && k < size
      modifies this`size, container
      ensures Valid() && Items() == SwapRemove(old(Items()), k)
    {
      hide NthId;
      container[k], container[size - 1] := container[size - 1], container[k];
      size := size - 1;
    }

    method CancelClientWorks(client: nat) returns (status: Status)
      requires Valid()
      modifies this`changed, this`size, container
      ensures Valid()
      ensures (Model(), status) == WorkQueueModel.CancelClientWorks(old(Model()), client)
    {
      if stopped {
        return NotAllowed;
      }
      var end := RemoveIfInPlace(container, size, client);
      if end == size {
        NothingRemoved(old(Items()), client);
        return NotFound;
      }
      size := end;
      MakeHeapAndNotifyWorker();
      return Success;
    }

    method GetNearestTimePoint() returns (t: nat)
      requires Valid()
      ensures t == NearestTime(Items())
    {
      t := if size == 0 then 0 else container[0].time;
    }

    /** The n-th call, counted from 0, gets the n-th id, which is never the invalid one
        (ClientIdsDiffer says when two calls get the same). */
    method GetClientId() returns (id: nat)
      requires Valid()
      modifies this`nextClientId, this`clients
      ensures Valid() && id == NthId(old(clients)) && id < INVALID_ID
      ensures Current() == Next(variant, old(Current()), NewClient)
    {
      CounterYields(clients);
      nextClientId := NextIdentifier(nextClientId);
      clients := clients + 1;
      id := nextClientId;
    }

    // ---------- the worker ----------

    /** pop_heap, then move the last record out of the vector. */
    method Pop() returns (r: Record)
      requires Valid() && Items() != []
      modifies this`size, container
      ensures Valid() && r == old(Items()[0]) && Items() == PopWith(TOP_DOWN, old(Items()))
    {
      hide NthId, PushWith, PopWith, MakeWith, PushHeap, PopHeap, MakeHeap;
      TopDownAlgorithms(Items(), Items()[0]);
      PopHeapInPlace(container, size);
      size := size - 1;
      r := container[size];
    }

    method Reschedule(r: Record, time: nat)
      requires Valid()
      modifies this`container, this`size, container
      ensures Valid() && Model() == Reinsert(old(Model()), r, time)
      ensures container == old(container) || fresh(container)
    {
      if time != 0 {
        Push(r.(time := time));
      }
    }

    /** One section of the worker, from taking the mutex to releasing it. */
    method WorkerSection(outcome: Outcome)
      requires Valid() && WorkerCanStep(variant, Current())
      modifies this`container, this`size, this`changed, this`worker, this`completed, container
      ensures Valid() && (container == old(container) || fresh(container))
      ensures Current() == WorkerStep(variant, old(Current()), outcome)
    {
      match worker {
        case InSync(r, result) =>
          Reschedule(r, result);
          worker := Scan;
        case Timed(t) =>
          if changed || size == 0 {
            changed, worker := false, Scan;
          } else {
            Execute(outcome);
          }
        case Scan =>
          if container[0].work == NoWork {
            size, worker := 0, Exited;
          } else if variant.Test? && container[0].time <= currentTime {
            Execute(outcome);
          } else if changed {
            changed := false;
          } else {
            worker := Timed(container[0].time);
          }
      }
    }

    /** The end of the worker's loop body: pop, execute_work, re-insert. */
    method Execute(outcome: Outcome)
      requires Valid() && Items() != []
      modifies this`container, this`size, this`worker, this`completed, container
      ensures Valid() && (container == old(container) || fresh(container))
      ensures Current() == PopAndExecute(variant, old(Current()), outcome)
    {
      hide PopWith, Settle, NthId;
      ghost var s := Current();
      var r := Pop();
      assert Current() == s.(q := Model());
      SettleRecord(r, outcome);
      SettleReplaces(variant, s, r, s.q.(items := PopWith(TOP_DOWN, s.q.items)), outcome);
    }

    method SettleRecord(r: Record, outcome: Outcome)
      requires Valid()
      modifies this`container, this`size, this`worker, this`completed, container
      ensures Valid() && (container == old(container) || fresh(container))
      ensures Current() == Settle(variant, old(Current()), r, old(Model()), outcome)
    {
      hide PushWith, NthId, Reinsert, ExecuteWork, NearestTime;
      var result := ExecuteWork(r, outcome);
      if variant.Test? && r.work == Sentinel {
        var next := GetNearestTimePoint();
        if next == 0 || currentTime < next {
          completed, result := completed + 1, 0;
        } else {
          result := currentTime;
        }
      } else if variant == Test(true) {
        worker := InSync(r, result);
        return;
      }
      Reschedule(r, result);
      worker := Scan;
    }

    // ---------- forward_time ----------

    /** forward_time (time, wait). A caller that waits does so with no other client at the
        queue. The mutex is free between its two sections: the worker takes up to `ahead` steps
        there. Then it runs until it posts the semaphore, and the caller takes the token. */
    method ForwardTime(time: nat, wait: bool, ahead: nat, o: Oracle) returns (ok: bool, ghost log: seq<Execution>)
      requires Valid() && variant.Test?
      requires wait && !stopped ==> Quiet(variant, Current()) && completed == 0
      modifies this, container
      ensures Valid() && (container == old(container) || fresh(container))
      ensures !wait ==> ok && Current() == Next(variant, old(Current()), SetTime(time, false))
      ensures wait && old(stopped) ==>
                var a := Ahead(variant, TimeSet(variant, old(Current()), time), o, ahead);
                && !ok && time in a.state.between && log == a.log
                && Current() == Next(variant, a.state, PostSentinel(time, time))
      ensures wait && !old(stopped) ==>
                var d := ForwardAndDrain(variant, old(Current()), time, ahead, o);
                ok && log == d.log && Enabled(variant, d.state, TakeToken) && Current() == Next(variant, d.state, TakeToken)
    {
      hide ForwardAndDrain, Quiet, Ahead, BeforeSentinel, WorkQueueModel.ScheduleWork, NthId;
      log := [];
      ghost var s := Current();
      currentTime := time;
      if wait {
        between := between + multiset{time};
        assert Current() == TimeSet(variant, s, time);
        log := RunWorkerAhead(ahead, o);
        AheadKeepsRest(variant, TimeSet(variant, s, time), o, ahead);
        if !s.q.stopped {
          BeforeSentinelIs(variant, s, time, ahead, o);
        }
        ghost var drained;
        ok, drained := WaitForTimeForwardingCompletion(time, s, ahead, o);
        log := log + drained;
      } else {
        changed, ok := true, true;
      }
    }

    /** The worker while the caller is between its two sections. */
    method RunWorkerAhead(ahead: nat, o: Oracle) returns (ghost log: seq<Execution>)
      requires Valid()
      modifies this`container, this`size, this`changed, this`worker, this`completed, container
      ensures Valid() && (container == old(container) || fresh(container))
      ensures Ahead(variant, old(Current()), o, ahead) == Drained(log, Current())
      decreases ahead
    {
      hide WorkerStep, StepLog, WorkerCanStep, NthId;
      log := [];
      if 0 < ahead && CanStep() {
        ghost var s := Current();
        var outcome := if size == 0 then Enough else o(container[0].id, container[0].time);
        assert outcome == Answer(s, o);
        WorkerSection(outcome);
        log := RunWorkerAhead(ahead - 1, o);
        log := StepLog(variant, s) + log;
      }
    }

    predicate CanStep()
      reads this, container
      requires Valid()
      ensures CanStep() == WorkerCanStep(variant, Current())
    {
      match worker
      case Scan => size != 0
      case Timed(t) => changed || (variant.Base? && t <= currentTime)
      case InSync(_, _) => true
      case Exited => false
    }

    /** The schedule_work call of forward_time: its second section. */
    method ScheduleSentinel(time: nat) returns (status: Status)
      requires Valid() && variant.Test? && time in between
      modifies this`container, this`size, this`nextWorkId, this`changed, this`posts, this`between, this`callers, container
      ensures Valid() && (container == old(container) || fresh(container))
      ensures Current() == Next(variant, old(Current()), Label.PostSentinel(time, time))
      ensures status == if old(stopped) then NotAllowed else Success
    {
      hide PushWith, NthId, NextIdentifier, Next, AfterPost, WorkQueueModel.ScheduleWork;
      ghost var s := Current();
      between := between - multiset{time};
      callers := if stopped then callers else callers + 1;
      assert Current() == Calling(s, time);
      var id;
      status, id := ScheduleWork(FORWARDING_CLIENT, Sentinel, time, 0, time);
      SentinelIsPosted(variant, s, time);
      SentinelStatus(s.q, time);
    }

    /** `s` is the state before the time was set. */
    method WaitForTimeForwardingCompletion(time: nat, ghost s: State, ghost ahead: nat, o: Oracle)
      returns (ok: bool, ghost log: seq<Execution>)
      requires Valid() && variant.Test? && time in between
      requires Current() == Ahead(variant, TimeSet(variant, s, time), o, ahead).state && stopped == s.q.stopped
      requires !stopped ==> Quiet(variant, s) && s.tokens == 0
      modifies this, container
      ensures Valid() && (container == old(container) || fresh(container))
      ensures old(stopped) ==> !ok && log == [] && Current() == Next(variant, old(Current()), PostSentinel(time, time))
      ensures !old(stopped) ==>
                var a, d := BeforeSentinel(variant, s, time, ahead, o), ForwardAndDrain(variant, s, time, ahead, o);
                && ok && d.log == a.log + log
                && Enabled(variant, d.state, TakeToken) && Current() == Next(variant, d.state, TakeToken)
    {
      hide Quiet, Drain, Draining, Users, Ahead, Next, NthId, Enabled, SentinelAt, TimeSet, BeforeSentinel, ForwardAndDrain;
      log := [];
      ghost var a := Current();
      var status := ScheduleSentinel(time);
      if status != Success {
        return false, log;
      }
      WaitedCall(variant, s, time, ahead, o);
      log := RunWorkerUntilReleased(SentinelAt(a, time), o);
      WaitForToken();
      ok := true;
    }

    /** _time_forwarding_completed.wait (), when the token is there. */
    method WaitForToken()
      requires Valid() && variant.Test? && 0 < completed && 0 < callers
      modifies this`completed, this`callers
      ensures Valid() && Enabled(variant, old(Current()), TakeToken)
      ensures Current() == Next(variant, old(Current()), TakeToken)
    {
      hide NthId, Next, Enabled;
      TokenIsTaken(variant, Current());
      completed, callers := completed - 1, callers - 1;
    }


    /** The worker thread while a forward_time call waits for the semaphore. */
    method RunWorkerUntilReleased(ghost sentinel: Record, o: Oracle) returns (ghost log: seq<Execution>)
      requires Valid() && Draining(variant, Current(), sentinel) && completed == 0
      modifies this`container, this`size, this`changed, this`worker, this`completed, container
      ensures Valid() && (container == old(container) || fresh(container))
      ensures Drain(variant, old(Current()), sentinel, o) == Drained(log, Current())
    {
      hide Draining, Users, Pending, AllDue, AllLeft, Drain, WorkerStep, WorkerCanStep, Executes, StepLog, SentinelAtRoot,
        Settled, CoreInv, IsHeap, NthId, PushWith, PopWith;
      log := [];
      ghost var due := AllDue(Users(Current(), sentinel), currentTime, o);
      while completed == 0
        invariant Valid() && (container == old(container) || fresh(container))
        invariant completed == 0 ==> Draining(variant, Current(), sentinel)
        invariant completed == 0 ==> due == AllDue(Users(Current(), sentinel), currentTime, o)
        invariant Drain(variant, old(Current()), sentinel, o) ==
                  if completed != 0 then Drained(log, Current())
                  else Drained(log + Drain(variant, Current(), sentinel, o).log, Drain(variant, Current(), sentinel, o).state)
        decreases completed == 0, |due|, SentinelAtRoot(Current()), worker != Scan
      {
        ghost var s := Current();
        DrainTurn(variant, s, sentinel, o);
        assert Answer(s, o) == o(container[0].id, container[0].time);
        WorkerSection(o(container[0].id, container[0].time));
        log := log + StepLog(variant, s);
        due := AllDue(Users(Current(), sentinel), currentTime, o);
      }
    }
  }

  /** One turn of the loop that drains. */
  lemma DrainTurn(v: Variant, s: State, sentinel: Record, o: Oracle)
    requires Draining(v, s, sentinel)
    ensures WorkerCanStep(v, s) && s.q.items != []
    ensures var s', d := WorkerStep(v, s, Answer(s, o)), Drain(v, s, sentinel, o);
            if s'.tokens != s.tokens then d == Drained(StepLog(v, s), s') && s'.tokens == s.tokens + 1
            else
              && Draining(v, s', sentinel) && s'.now == s.now
              && d == Drained(StepLog(v, s) + Drain(v, s', sentinel, o).log, Drain(v, s', sentinel, o).state)
              && (var due, due' := AllDue(Users(s, sentinel), s.now, o), AllDue(Users(s', sentinel), s.now, o);
                  |due'| < |due| || (due' == due &&
                    ((SentinelAtRoot(s) && !SentinelAtRoot(s'))
                     || (SentinelAtRoot(s) == SentinelAtRoot(s') && s.pc != Scan && s'.pc == Scan))))
  {
    hide Draining, Users, AllDue, AllLeft, Drain, WorkerStep, WorkerCanStep, Answer, StepLog, SentinelAtRoot;
    DrainProgress(v, s, sentinel, o);
    DrainUnfolds(v, s, sentinel, o);
    DrainStepFrame(v, s, sentinel, o);
    DrainingCanStep(v, s, sentinel);
  }

  lemma SettleReplaces(v: Variant, s: State, r: Record, q: Queue, outcome: Outcome)
    ensures Settle(v, s.(q := q), r, q, outcome) == Settle(v, s, r, q, outcome)
  {
    hide Reinsert, ResumeTime, Released;
  }

  lemma SentinelStatus(q: Queue, time: nat)
    ensures WorkQueueModel.ScheduleWork(q, FORWARDING_CLIENT, Sentinel, time, 0, time).status
         == if q.stopped then NotAllowed else Success
  {
    hide PushWith, NextIdentifier;
  }

  lemma TokenIsTaken(v: Variant, s: State)
    requires v.Test? && 0 < s.tokens && 0 < s.callers
    ensures Enabled(v, s, TakeToken) && Next(v, s, TakeToken) == s.(tokens := s.tokens - 1, callers := s.callers - 1)
  {
  }

  lemma MakeIsTopDown(s: seq<Record>)
    ensures MakeWith(TOP_DOWN, s) == MakeHeap(s)
  {
    TopDownAlgorithms(s, Record(0, 0, NoWork, 0, 0));
  }

  lemma {:induction false} AheadKeepsRest(v: Variant, s: State, o: Oracle, k: nat)
    ensures var s' := Ahead(v, s, o, k).state; s'.between == s.between && s'.q.stopped == s.q.stopped
    decreases k
  {
    hide WorkerStep;
    if k > 0 && WorkerCanStep(v, s) {
      WorkerKeepsRest(v, s, Answer(s, o));
      AheadKeepsRest(v, WorkerStep(v, s, Answer(s, o)), o, k - 1);
    }
  }

  /** The call of forward_time, as the method that waits sees it. */
  lemma WaitedCall(v: Variant, s: State, time: nat, k: nat, o: Oracle)
    requires Quiet(v, s)
    ensures v.Test? && BeforeSentinel(v, s, time, k, o) == Ahead(v, TimeSet(v, s, time), o, k)
    ensures var a := Ahead(v, TimeSet(v, s, time), o, k);
            && time in a.state.between
            && var s', sentinel := Next(v, a.state, PostSentinel(time, time)), SentinelAt(a.state, time);
               && Draining(v, s', sentinel) && s'.tokens == s.tokens
               && var d := Drain(v, s', sentinel, o);
                  && ForwardAndDrain(v, s, time, k, o) == Drained(a.log + d.log, d.state)
                  && 0 < d.state.tokens && 0 < d.state.callers
  {
    hide Quiet, Drain, Draining, Users, IsHeap, Pending, Ahead, Alone, Next, SentinelAt, TimeSet;
    BeforeSentinelIs(v, s, time, k, o);
    var a := Ahead(v, TimeSet(v, s, time), o, k);
    SentinelIsSet(v, a.state, time);
    DrainReleases(v, SentinelSet(v, a.state, time), SentinelAt(a.state, time), o);
  }

  lemma BeforeSentinelIs(v: Variant, s: State, time: nat, k: nat, o: Oracle)
    requires Quiet(v, s)
    ensures v.Test? && BeforeSentinel(v, s, time, k, o) == Ahead(v, TimeSet(v, s, time), o, k)
    ensures Ahead(v, TimeSet(v, s, time), o, k).state.tokens == s.tokens
  {
    hide Alone, Pending, AllDue, AllLeft, IsHeap;
    TimeIsSet(v, s, time);
    AheadAccounts(v, TimeSet(v, s, time), o, k);
  }

  lemma FirstIsFound(s: seq<Record>, id: nat, i: nat)
    requires i < |s| && s[i].id == id && forall j :: 0 <= j < i ==> s[j].id != id
    ensures FindWork(s, id) == Some(i)
  {
  }

  lemma NothingRemoved(s: seq<Record>, client: nat)
    requires |WithoutClient(s, client)| == |s|
    ensures WithoutClient(s, client) == s
  {
  }
}
