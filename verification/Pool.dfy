/**
 The pool as an object updated in place. Each method is one section of the code that the
 transition system takes as one step; `RunUntilBlocked` is the worker's loop while no client
 interferes.
 */
module PoolClass {
  import opened Common
  import opened Notifications
  import opened MessageQueueModel
  import opened PoolModel
  import opened PoolInvariant
  import opened PoolSteps
  import opened PoolWorkerSteps
  import opened PoolHandlerSteps
  import opened PoolProgress
  import PoolHistory

  class MessageQueuePool {
    const handler: array<bool>        // which entries of _handler are set
    var mqs: seq<Qid>
    var queues: map<Qid, Queue>       // the objects behind the pointers
    var stage: map<Qid, Stage>        // the semaphores of the pending requests
    var pauseSem: nat
    var resumeSem: nat
    var worker: Pc                    // the worker's position and its local variables
    var polls: map<Client, Phase>     // the same for clients inside is_poll_idle
    ghost var slots: nat
    ghost var pausing: nat
    ghost var closing: bool
    ghost var pushed: map<Qid, seq<Msg>>
    ghost var handed: map<Qid, seq<Msg>>

    /** The entries of `_handler` are set from the front; control's is always set. */
    ghost predicate Valid()
      reads this, handler
    {
      && 1 <= slots <= handler.Length
      && forall i :: 0 <= i < handler.Length ==> (handler[i] <==> i < slots)
    }

    ghost function State(): Pool
      reads this, handler
      requires Valid()
    {
      Pool(queues, mqs, handler.Length - 1, slots, worker, stage, pausing, polls, pauseSem, resumeSem, closing, pushed, handed)
    }

    constructor (capacity: nat)
      ensures Valid() && fresh(handler) && State() == Init(capacity)
    {
      var h := new bool[capacity + 1](i => i == 0);
      handler, mqs, queues, stage := h, [CONTROL], map[CONTROL := Mq(CONTROL, [], None)], map[];
      pauseSem, resumeSem, worker, polls := 0, 0, Polling(Attaching(0, [])), map[];
      slots, pausing, closing := 1, 0, false;
      pushed, handed := map[CONTROL := []], map[CONTROL := []];
    }

    // ---------- clients ----------

    method Enqueue(q: Qid, body: Body)
      requires Valid() && PollInv(State()) && q in queues
      modifies this`queues, this`pushed, this`worker, this`polls
      ensures Valid() && State() == PushTo(old(State()), q, body)
    {
      hide PollInv, PushTo;
      PushCases(State(), q, body);
      var mq := queues[q];
      var note: Note := Rec(mq.id, Some(q), DATA);
      queues := queues[q := mq.(msgs := mq.msgs + [Message(mq.id, body)])];
      pushed := pushed[q := pushed[q] + [Message(mq.id, body)]];
      if mq.msgs == [] {
        match mq.listener
        case None =>
        case Some(Worker) => worker := Polling(NotifyPhase(worker.phase, note));
        case Some(Caller(c)) => polls := polls[c := NotifyPhase(polls[c], note)];
      }
    }

    /** The loop of allocate_queue over `_handler`. */
    method FreeSlot() returns (qid: nat)
      requires Valid()
      ensures qid == slots
    {
      qid := 1;
      while qid != handler.Length && handler[qid]
        invariant 1 <= qid <= slots
      {
        qid := qid + 1;
      }
    }

    /** allocate_queue up to its wait; without a handler it returns a null pointer at once. */
    method BeginAllocate(hasHandler: bool) returns (mq: Option<Qid>)
      requires Valid() && Inv(State()) && Enabled(State(), Label.BeginAllocate)
      modifies this, handler
      ensures Valid()
      ensures if hasHandler then mq == Some(old(slots)) && State() == Next(old(State()), Label.BeginAllocate)
              else mq == None && State() == old(State())
    {
      hide PollInv, RequestInv, PushTo;
      if !hasHandler {
        return None;
      }
      var qid := FreeSlot();
      ghost var s := State();
      queues := queues[qid := Mq(qid, [], None)];
      handler[qid] := true;
      slots := slots + 1;
      stage := stage[qid := Registering(0)];
      pushed, handed := pushed[qid := []], handed[qid := []];
      assert State() == Create(s);
      CreateKeepsPollInv(s);
      ControlExists(State());
      Enqueue(CONTROL, Add(qid));
      return Some(qid);
    }

    /** remove_queue up to its wait, with its checks of the argument. */
    method BeginRemove(mq: Option<Qid>) returns (status: Status)
      requires Valid() && Inv(State())
      requires mq.Some? && mq.value < slots ==> Enabled(State(), Label.BeginRemove(mq.value))
      modifies this
      ensures Valid()
      ensures match mq
              case None => status == InvalidArgument && State() == old(State())
              case Some(q) =>
                if q < old(slots) then status == Success && State() == Next(old(State()), Label.BeginRemove(q))
                else status == NotFound && State() == old(State())
    {
      hide PollInv, RequestInv, PushTo;
      if mq.None? {
        return InvalidArgument;
      }
      if !(mq.value < handler.Length) || !handler[mq.value] {
        return NotFound;
      }
      StageKeepsPollInv(State(), mq.value, Unregistering(0));
      stage := stage[mq.value := Unregistering(0)];
      ControlExists(State());
      Enqueue(CONTROL, Remove(mq.value));
      return Success;
    }

    /** is_poll_idle up to its first wait. */
    method BeginIdle()
      requires Valid() && Inv(State()) && Enabled(State(), Label.BeginIdle)
      modifies this
      ensures Valid() && State() == Next(old(State()), Label.BeginIdle)
    {
      hide PollInv, RequestInv, PushTo;
      CountersKeepPollInv(State(), pausing + 1, closing);
      pausing := pausing + 1;
      ControlExists(State());
      Enqueue(CONTROL, Pause);
    }

    /** The rest of is_poll_idle once the worker is paused, with nobody else at the queues:
        its poll and the resume. */
    method FinishIdle(c: Client) returns (idle: bool)
      requires Valid() && Inv(State()) && c in polls && polls[c] == Attaching(0, [])
      modifies this`queues, this`polls, this`resumeSem
      ensures Valid() && Inv(State())
      ensures idle <==> PoolHistory.AllEmpty(old(State()))
      ensures polls == old(polls) - {c} && resumeSem == old(resumeSem) + 1 && SameMessages(old(queues), queues)
    {
      hide PollInv, RequestInv, PollStep, SameMessages, PoolHistory.AllEmpty;
      SameAsBefore(queues);
      while !PollDone(polls[c], mqs)
        invariant Valid() && Inv(State()) && c in polls && polls - {c} == old(polls) - {c}
        invariant SameMessages(old(queues), queues) && resumeSem == old(resumeSem)
        invariant polls[c].Detaching? ==> (polls[c].snap == [] <==> PoolHistory.AllEmpty(old(State())))
        decreases PollRank(polls[c], |mqs|)
      {
        ghost var s := State();
        IdlePollAdvances(s, c);
        if polls[c].Waiting? {
          PoolHistory.WaitingListIsExact(s, c, polls[c].list);
          SameAllEmpty(old(State()), s);
        }
        IdlePollKeepsInv(s, c);
        var p := PollStep(queues, mqs, Caller(c), polls[c]);
        SameMessagesCompose(old(queues), queues, p.queues);
        queues, polls := p.queues, polls[c := p.phase];
        assert State() == IdleStep(s, c);
      }
      idle := polls[c].snap == [];
      IdleReturnKeepsInv(State(), c);
      polls := polls - {c};
      resumeSem := resumeSem + 1;
    }

    // ---------- the worker ----------

    /** The iterator loop of the add request. */
    method Insert(q: Qid)
      requires Valid() && mqs != []
      modifies this`mqs
      ensures var k := InsertPosition(old(mqs), q, 1); mqs == old(mqs)[..k] + [q] + old(mqs)[k..]
    {
      var it := 1;
      while it != |mqs| && mqs[it] < q
        invariant it <= |mqs| && InsertPosition(mqs, q, it) == InsertPosition(mqs, q, 1)
      {
        it := it + 1;
      }
      mqs := mqs[..it] + [q] + mqs[it..];
    }

    /** std::find and erase of the remove request. */
    method FindAndErase(q: Qid)
      requires Valid()
      modifies this`mqs
      ensures mqs == Erase(old(mqs), q)
    {
      var it := 0;
      while it != |mqs| && mqs[it] != q
        invariant it <= |mqs| && Erase(mqs, q) == mqs[..it] + Erase(mqs[it..], q)
      {
        it := it + 1;
      }
      if it != |mqs| {
        mqs := mqs[..it] + mqs[it + 1..];
      }
    }

    /** control_queue_handler. */
    method ControlQueueHandler(body: Body) returns (status: Status)
      requires Valid() && mqs != [] && ((body.Add? || body.Remove?) ==> body.mq in stage)
      modifies this`mqs, this`stage
      ensures match body
              case Terminate => status == HaltRequested && mqs == old(mqs) && stage == old(stage)
              case Pause => status == PauseRequested && mqs == old(mqs) && stage == old(stage)
              case Add(q) =>
                var k := InsertPosition(old(mqs), q, 1);
                && status == Success && mqs == old(mqs)[..k] + [q] + old(mqs)[k..]
                && stage == old(stage)[q := Answer(old(stage)[q])]
              case Remove(q) =>
                status == RestartNeeded && mqs == Erase(old(mqs), q) && stage == old(stage)[q := Answer(old(stage)[q])]
              case User(_) => status == Success && mqs == old(mqs) && stage == old(stage)
    {
      match body
      case Terminate => status := HaltRequested;
      case Pause => status := PauseRequested;
      case Add(q) =>
        Insert(q);
        stage := stage[q := Answer(stage[q])];
        status := Success;
      case Remove(q) =>
        FindAndErase(q);
        stage := stage[q := Answer(stage[q])];
        status := RestartNeeded;
      case User(_) => status := Success;
    }

    /** One turn of handle_notifications for control, and what thread_loop makes of its answer. */
    method HandleControlMessage(body: Body)
      requires Valid() && PollInv(State()) && worker.ControlDrain?
      requires body.Add? ==> body.mq in stage && body.mq !in mqs
      requires body.Remove? ==> body.mq in stage
      modifies this`mqs, this`stage, this`worker, this`pauseSem
      ensures Valid() && State() == HandleControl(old(State()), body)
    {
      hide PollInv, InsertPosition, Erase, HandleAdd;
      ControlIsFirst(State());
      if body.Add? {
        AddApplies(State(), body.mq);
      }
      var status := ControlQueueHandler(body);
      match status
      case HaltRequested => worker := Halted;
      case RestartNeeded => worker := Polling(Attaching(0, []));
      case PauseRequested =>
        pauseSem := pauseSem + 1;
        worker := AwaitResume;
      case _ =>
    }

    /** The pop in handle_notifications. */
    method TakeNext(q: Qid) returns (m: Option<Msg>)
      requires Valid() && q in queues
      modifies this`queues, this`handed
      ensures Valid() && (State(), m) == Take(old(State()), q)
    {
      var mq := queues[q];
      if mq.id != UNDEFINED_QID && mq.msgs != [] {
        m := Some(mq.msgs[0]);
        queues := queues[q := mq.(msgs := mq.msgs[1..])];
        handed := if q in handed then handed[q := handed[q] + [mq.msgs[0]]] else handed;
      } else {
        m := None;
      }
    }

    method ControlOnce()
      requires Valid() && Inv(State()) && worker.ControlDrain?
      modifies this
      ensures Valid() && State() == ControlStep(old(State()), old(worker.snap))
    {
      hide PollInv, RequestInv, Take, HandleControl;
      ghost var s := State();
      var snap := worker.snap;
      ControlRecord(s);
      var m := TakeNext(snap[0].mq.value);
      if m.None? {
        worker := Tail(snap, 1);
      } else {
        HandleControlMessage(m.value.body);
      }
    }

    method TailOnce()
      requires Valid() && Inv(State()) && worker.Tail?
      modifies this
      ensures Valid() && State() == TailStep(old(State()), old(worker.snap), old(worker.i))
    {
      hide PollInv, RequestInv, Take;
      TailRecord(State());
      var snap, i := worker.snap, worker.i;
      if i < |snap| {
        var m := TakeNext(snap[i].mq.value);
        worker := if m.None? then Tail(snap, i + 1) else InHandler(snap, i);
      } else {
        worker := Polling(Attaching(0, []));
      }
    }

    method PollOnce()
      requires Valid() && Inv(State()) && worker.Polling? && WorkerCanStep(State())
      modifies this`queues, this`worker
      ensures Valid() && State() == WorkerPoll(old(State()), old(worker.phase))
    {
      hide PollInv, RequestInv, PollStep;
      var ph := worker.phase;
      if PollDone(ph, mqs) {
        LoadedFront(State());
        worker := if ph.snap[0].qid == CONTROL then ControlDrain(ph.snap) else Tail(ph.snap, 0);
      } else {
        PollSucceeds(State(), ph);
        var p := PollStep(queues, mqs, Worker, ph);
        queues, worker := p.queues, Polling(p.phase);
      }
    }

    /** One step of thread_loop; `outcome` is what the user's handler does, if one is running. */
    method Work(outcome: Outcome)
      requires Valid() && Inv(State()) && WorkerCanStep(State())
      modifies this
      ensures Valid() && State() == WorkerStep(old(State()), outcome)
    {
      hide PollInv, RequestInv, ControlStep, TailStep, WorkerPoll;
      match worker
      case Polling(_) => PollOnce();
      case ControlDrain(_) => ControlOnce();
      case Tail(_, _) => TailOnce();
      case InHandler(snap, i) => worker := Tail(snap, if outcome == Ok then i else i + 1);
      case AwaitResume =>
        resumeSem := resumeSem - 1;
        worker := Polling(Attaching(0, []));
    }

    predicate CanStep()
      reads this, handler
      requires Valid()
      ensures CanStep() == WorkerCanStep(State())
    {
      match worker
      case Polling(Waiting(list)) => list != []
      case AwaitResume => 0 < resumeSem
      case Halted => false
      case Fault => false
      case _ => true
    }

    /** thread_loop while no client interferes: it reaches the rest that LeftAloneDelivers
        describes. */
    method RunUntilBlocked(outcomes: nat -> Outcome)
      requires Valid() && Inv(State())
      modifies this
      ensures Valid() && State() == RunAlone(old(State()), outcomes, 0)
    {
      hide Inv, WorkerStep, WorkerCanStep, Rank, Load;
      var t := 0;
      while CanStep()
        invariant Valid() && Inv(State()) && RunAlone(State(), outcomes, t) == RunAlone(old(State()), outcomes, 0)
        decreases Load(queues, slots), Rank(State())
      {
        WorkKeepsInv(State(), outcomes(t));
        WorkNearer(State(), outcomes(t));
        Work(outcomes(t));
        t := t + 1;
      }
    }
  }

  lemma SameAsBefore(queues: map<Qid, Queue>)
    ensures SameMessages(queues, queues)
  {
  }

  lemma SameMessagesCompose(a: map<Qid, Queue>, b: map<Qid, Queue>, c: map<Qid, Queue>)
    requires SameMessages(a, b) && SameMessages(b, c)
    ensures SameMessages(a, c)
  {
  }

  lemma SameAllEmpty(s: Pool, s': Pool)
    requires SameMessages(s.queues, s'.queues) && s'.mqs == s.mqs
    ensures PoolHistory.AllEmpty(s) <==> PoolHistory.AllEmpty(s')
  {
  }

  lemma IdlePollAdvances(s: Pool, c: Client)
    requires Inv(s) && c in s.polls && !PollDone(s.polls[c], s.mqs)
    ensures var ph, p := s.polls[c], PollStep(s.queues, s.mqs, Caller(c), s.polls[c]);
            && p.Polled? && SameMessages(s.queues, p.queues) && PollRank(p.phase, |s.mqs|) < PollRank(ph, |s.mqs|)
            && (ph.Waiting? ==> p.phase == Detaching(0, ph.list))
            && (ph.Detaching? ==> p.phase == Detaching(ph.k + 1, ph.snap))
            && (ph.Attaching? ==> !p.phase.Detaching?)
  {
    PollIsReady(s, Caller(c), s.polls[c]);
    PollStepKeepsPoll(s.queues, s.mqs, Caller(c), s.polls[c]);
    hide Inv, PollStep, ListenerOf, OnlyListener, SameMessages, ListOk, SnapOk, Loaded;
  }

  lemma ControlIsFirst(s: Pool)
    requires PollInv(s)
    ensures s.mqs != []
  {
  }

  /** In a reachable state the add request meets the assertion of the code. */
  lemma AddApplies(s: Pool, q: Qid)
    requires PollInv(s) && q in s.stage && q !in s.mqs
    ensures var k := InsertPosition(s.mqs, q, 1);
            HandleAdd(s, q) == s.(mqs := s.mqs[..k] + [q] + s.mqs[k..], stage := s.stage[q := Answer(s.stage[q])])
  {
    hide Listeners, Phases, Snapshot, Delivered;
    InsertKeepsOrder(s.mqs, q);
  }

  /** What the worker finds when it handles control's record. */
  lemma ControlRecord(s: Pool)
    requires Inv(s) && s.worker.ControlDrain?
    ensures var snap := s.worker.snap;
            && snap != [] && HasData(snap[0]) && Usable(s, snap[0]) && snap[0].mq == Some(CONTROL)
            && match Take(s, CONTROL)
               case (s1, None) => true
               case (s1, Some(m)) =>
                 && PollInv(s1) && s1.worker == s.worker
                 && (m.body.Add? ==> m.body.mq in s1.stage && m.body.mq !in s1.mqs)
                 && (m.body.Remove? ==> m.body.mq in s1.stage)
  {
    hide Requests, Objects, Registered, Delivered, Listeners, Phases, Requested, Tokens, Closing, Take;
    NoPollNow(s);
    RecordIsUsable(s, s.worker.snap, 0);
    TakeShape(s, CONTROL);
    if s.queues[CONTROL].msgs != [] {
      TakeKeepsPollInv(s, CONTROL);
      TakeTakesRequest(s, CONTROL);
      ControlRequest(s, s.queues[CONTROL].msgs[0]);
      PendingIsUnlisted(s);
    }
  }

  lemma PendingIsUnlisted(s: Pool)
    requires PollInv(s)
    ensures forall q :: q in s.stage && s.stage[q] == Registering(0) ==> q !in s.mqs
  {
    hide Delivered, Listeners, Phases, Snapshot;
  }

  lemma TailRecord(s: Pool)
    requires Inv(s) && s.worker.Tail?
    ensures var snap, i := s.worker.snap, s.worker.i;
            i < |snap| ==> HasData(snap[i]) && Usable(s, snap[i])
  {
    hide Delivered, Listeners, Phases, RequestInv;
    if s.worker.i < |s.worker.snap| {
      RecordIsUsable(s, s.worker.snap, s.worker.i);
    }
  }

  lemma PollSucceeds(s: Pool, ph: Phase)
    requires Inv(s) && s.worker == Polling(ph) && !PollDone(ph, s.mqs)
    ensures PollStep(s.queues, s.mqs, Worker, ph).Polled?
  {
    hide PollInv, PollStep, Tokens;
    PollIsReady(s, Worker, ph);
    PollStepKeepsPoll(s.queues, s.mqs, Worker, ph);
  }

  /** What a push does, case by case. */
  lemma PushCases(s: Pool, q: Qid, body: Body)
    requires PollInv(s) && q in s.queues
    ensures var mq, note: Note := s.queues[q], Rec(q, Some(q), DATA);
            var s' := s.(queues := s.queues[q := mq.(msgs := mq.msgs + [Message(mq.id, body)])],
                         pushed := if q in s.pushed then s.pushed[q := s.pushed[q] + [Message(mq.id, body)]] else s.pushed);
            && q in s.pushed && mq.id == q
            && if mq.msgs != [] || mq.listener.None? then PushTo(s, q, body) == s'
               else match mq.listener.value
                    case Worker =>
                      s.worker.Polling? && PushTo(s, q, body) == s'.(worker := Polling(NotifyPhase(s.worker.phase, note)))
                    case Caller(c) =>
                      c in s.polls && PushTo(s, q, body) == s'.(polls := s.polls[c := NotifyPhase(s.polls[c], note)])
  {
    hide NotifyPhase, Objects, Registered, Listeners, Phases, Snapshot;
    PushTargets(s, q);
  }
}
