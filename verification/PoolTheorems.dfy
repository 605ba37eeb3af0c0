/** What holds over whole runs of the pool, for every interleaving of its clients and its worker. */
module PoolTheorems {
  import opened Common
  import opened Notifications
  import opened MessageQueueModel
  import opened PoolModel
  import opened PoolInvariant
  import opened PoolSteps
  import opened PoolWorkerSteps
  import opened PoolHandlerSteps

  ghost predicate IsRun(capacity: nat, states: seq<Pool>, labels: seq<Label>) {
    && capacity + 1 < UNDEFINED_QID
    && |states| == |labels| + 1
    && states[0] == Init(capacity)
    && forall i :: 0 <= i < |labels| ==> Enabled(states[i], labels[i]) && states[i + 1] == Next(states[i], labels[i])
  }

  lemma {:induction false} RunInv(capacity: nat, states: seq<Pool>, labels: seq<Label>, n: nat)
    requires IsRun(capacity, states, labels) && n < |states|
    ensures Inv(states[n])
  {
    hide Inv, Next, Enabled;
    if n == 0 {
      InitInv(capacity);
    } else {
      RunInv(capacity, states, labels, n - 1);
      NextKeepsInv(states[n - 1], labels[n - 1]);
    }
  }

  // ---------- what a step does to the registry ----------

  lemma PushFrame(s: Pool, q: Qid, body: Body)
    ensures var s' := PushTo(s, q, body);
            s' == s.(queues := s'.queues, pushed := s'.pushed, worker := s'.worker, polls := s'.polls)
  {
    hide Deliver, MessageQueueModel.Push;
    if q in s.queues {
      var m := Message(s.queues[q].id, body);
      var r: Result<Body, Poller, Qid> := MessageQueueModel.Push(s.queues[q], q, Some(m));
      if r.notices != [] {
        DeliverFrame(s.(queues := s.queues[q := r.queue],
                        pushed := if r.status == Success && q in s.pushed then s.pushed[q := s.pushed[q] + [m]] else s.pushed),
                     r.notices[0].to, r.notices[0].rec);
      }
    }
  }

  lemma DeliverFrame(s: Pool, who: Poller, note: Note)
    ensures var s' := Deliver(s, who, note); s' == s.(worker := s'.worker, polls := s'.polls)
  {
    hide NotifyPhase;
    match who
    case Worker =>
    case Caller(c) =>
      if c in s.polls {
        assert Deliver(s, who, note) == s.(polls := s.polls[c := NotifyPhase(s.polls[c], note)]);
      }
  }

  /** The worker changes `_mqs` and a stage only by answering a request. */
  ghost predicate Answers(s: Pool, s': Pool, q: Qid) {
    && s.worker.ControlDrain? && q in s.stage
    && (s.stage[q] == Registering(0) || s.stage[q] == Unregistering(0))
    && s'.stage == s.stage[q := Answer(s.stage[q])]
    && (s.stage[q] == Unregistering(0) ==> s'.worker == Polling(Attaching(0, [])))
  }

  lemma AddAnswers(s: Pool, s1: Pool, q: Qid)
    requires s1 == s.(queues := s1.queues, handed := s1.handed) && s1.queues.Keys == s.queues.Keys
    requires Objects(s) && Registered(s) && s.worker.ControlDrain? && Pending(s, q, Registering(0))
    ensures Answers(s, HandleAdd(s1, q), q) && HandleAdd(s1, q).slots == s.slots
  {
    InsertKeepsOrder(s.mqs, q);
  }

  lemma RemoveAnswers(s: Pool, s1: Pool, q: Qid)
    requires s1 == s.(queues := s1.queues, handed := s1.handed)
    requires s.worker.ControlDrain? && Pending(s, q, Unregistering(0))
    ensures Answers(s, HandleRemove(s1, q), q) && HandleRemove(s1, q).slots == s.slots
  {
    hide Erase;
  }

  lemma ControlStage(s: Pool, snap: seq<Note>)
    requires Inv(s) && s.worker == ControlDrain(snap)
    ensures var s' := ControlStep(s, snap);
            s'.slots == s.slots && ((s'.stage == s.stage && s'.mqs == s.mqs) || exists q :: Answers(s, s', q))
  {
    hide Requests, Listeners, Phases, Tokens, Closing, Take, HandleAdd, HandleRemove, Answers;
    RecordIsUsable(s, snap, 0);
    TakeShape(s, CONTROL);
    var s' := ControlStep(s, snap);
    if s.queues[CONTROL].msgs != [] {
      var m := s.queues[CONTROL].msgs[0];
      TakeTakesRequest(s, CONTROL);
      ControlRequest(s, m);
      match m.body
      case Add(q) => AddAnswers(s, AfterTake(s, CONTROL), q);
      case Remove(q) => RemoveAnswers(s, AfterTake(s, CONTROL), q);
      case _ =>
    }
  }

  ghost predicate SameRegistry(s: Pool, s': Pool) {
    s'.slots == s.slots && s'.stage == s.stage && s'.mqs == s.mqs && s'.polls == s.polls
    && s'.pausing == s.pausing && s'.closing == s.closing && s'.pushed == s.pushed
  }

  ghost predicate SameHistory(s: Pool, s': Pool) {
    s'.polls == s.polls && s'.pushed == s.pushed && s'.handed == s.handed
  }

  lemma TakeFrame(s: Pool, q: Qid)
    requires q in s.queues
    ensures SameRegistry(s, Take(s, q).0)
  {
  }

  lemma PostKeepsQueues(s: Pool, q: Qid)
    ensures PostRequest(s, q).queues == s.queues
  {
  }

  lemma ControlKeepsQueues(s: Pool, body: Body)
    ensures HandleControl(s, body).queues == s.queues
  {
    hide InsertPosition, Erase, PostRequest;
    match body
    case Add(q) =>
      if s.mqs != [] {
        var k := InsertPosition(s.mqs, q, 1);
        PostKeepsQueues(s.(mqs := s.mqs[..k] + [q] + s.mqs[k..]), q);
      }
    case Remove(q) => PostKeepsQueues(s.(mqs := Erase(s.mqs, q), worker := Polling(Attaching(0, []))), q);
    case _ =>
  }

  /** A change of fields that SameRegistry and SameHistory do not mention. */
  lemma MoveFrame(s: Pool, queues: map<Qid, Queue>, handed: map<Qid, seq<Msg>>, pc: Pc)
    ensures SameRegistry(s, s.(queues := queues, handed := handed, worker := pc)) && SameRegistry(s, s.(worker := pc))
    ensures SameHistory(s, s.(queues := queues, worker := pc))
  {
  }

  lemma TailFrame(s: Pool, snap: seq<Note>, i: nat)
    ensures SameRegistry(s, TailStep(s, snap, i))
  {
    hide Take, HasData, Usable, SameRegistry, SameHistory;
    if |snap| <= i {
      MoveFrame(s, s.queues, s.handed, Polling(Attaching(0, [])));
    } else if !HasData(snap[i]) {
      MoveFrame(s, s.queues, s.handed, Tail(snap, i + 1));
    } else if !Usable(s, snap[i]) {
      MoveFrame(s, s.queues, s.handed, Fault);
    } else {
      UsableQueue(s, snap[i]);
      TakeFrame(s, snap[i].mq.value);
      var (s1, m) := Take(s, snap[i].mq.value);
      var pc := if m.None? then Tail(snap, i + 1) else InHandler(snap, i);
      MoveFrame(s1, s1.queues, s1.handed, pc);
      RegistryComposes(s, s1, s1.(worker := pc));
    }
  }

  lemma UsableQueue(s: Pool, note: Note)
    requires Usable(s, note)
    ensures note.mq.Some? && note.mq.value in s.queues
  {
  }

  lemma RegistryComposes(a: Pool, b: Pool, c: Pool)
    requires SameRegistry(a, b) && SameRegistry(b, c)
    ensures SameRegistry(a, c)
  {
  }

  lemma PollFrame(s: Pool, ph: Phase)
    ensures SameRegistry(s, WorkerPoll(s, ph)) && SameHistory(s, WorkerPoll(s, ph))
  {
    hide SameRegistry, SameHistory, WorkerPoll;
    var s' := WorkerPoll(s, ph);
    PollMoves(s, ph);
    MoveFrame(s, s'.queues, s.handed, s'.worker);
  }

  lemma PollMoves(s: Pool, ph: Phase)
    ensures var s' := WorkerPoll(s, ph); s' == s.(queues := s'.queues, worker := s'.worker)
  {
    hide PollStep;
    if !PollDone(ph, s.mqs) {
      match PollStep(s.queues, s.mqs, Worker, ph)
      case PollFault =>
      case Polled(queues, ph') =>
    }
  }

  /** Only for control's messages does the worker touch the registry. */
  lemma WorkFrame(s: Pool, outcome: Outcome)
    requires WorkerCanStep(s) && !s.worker.ControlDrain?
    ensures SameRegistry(s, WorkerStep(s, outcome))
  {
    hide TailStep, WorkerPoll;
    match s.worker
    case Polling(ph) => PollFrame(s, ph);
    case Tail(snap, i) => TailFrame(s, snap, i);
    case _ =>
  }

  lemma WorkStage(s: Pool, outcome: Outcome)
    requires Inv(s) && WorkerCanStep(s)
    ensures var s' := WorkerStep(s, outcome);
            s'.slots == s.slots && ((s'.stage == s.stage && s'.mqs == s.mqs) || exists q :: Answers(s, s', q))
  {
    hide Inv, ControlStep, TailStep, PollStep, PollDone;
    if s.worker.ControlDrain? {
      ControlStage(s, s.worker.snap);
    } else {
      WorkFrame(s, outcome);
    }
  }

  /** Stages go forward one at a time, and only the worker lists and unlists a queue. */
  lemma NextStage(s: Pool, l: Label)
    requires Inv(s) && Enabled(s, l)
    ensures var s' := Next(s, l);
            match l
            case BeginAllocate => s'.slots == s.slots + 1 && s'.mqs == s.mqs && s'.stage == s.stage[s.slots := Registering(0)]
            case EndAllocate(q) => s'.slots == s.slots && s'.mqs == s.mqs && s'.stage == s.stage[q := Owned]
            case BeginRemove(q) => s'.slots == s.slots && s'.mqs == s.mqs && s'.stage == s.stage[q := Unregistering(0)]
            case EndRemove(q) => s'.slots == s.slots && s'.mqs == s.mqs && s'.stage == s.stage - {q}
            case Work(_) =>
              s'.slots == s.slots && ((s'.stage == s.stage && s'.mqs == s.mqs) || exists q :: Answers(s, s', q))
            case _ => s'.slots == s.slots && s'.mqs == s.mqs && s'.stage == s.stage
  {
    hide Inv, WorkerStep, PushTo, PollStep, DeleteQueue;
    match l
    case Push(q, payload) => PushFrame(s, q, User(payload));
    case BeginAllocate => PushFrame(Create(s), CONTROL, Add(s.slots));
    case BeginRemove(q) => PushFrame(s.(stage := s.stage[q := Unregistering(0)]), CONTROL, Remove(q));
    case BeginIdle => PushFrame(s.(pausing := s.pausing + 1), CONTROL, Pause);
    case Destroy => PushFrame(s.(closing := true), CONTROL, Terminate);
    case EndRemove(q) => EndRemoveKeepsInv(s, q);
    case Work(outcome) => WorkStage(s, outcome);
    case _ =>
  }

  // ---------- queue objects in use are alive ----------

  /** The records that the worker holds and may still use. */
  ghost function Held(pc: Pc): seq<Note> {
    match pc
    case Polling(Attaching(_, list)) => list
    case Polling(Waiting(list)) => list
    case Polling(Detaching(_, snap)) => snap
    case ControlDrain(snap) => snap
    case Tail(snap, i) => if i <= |snap| then snap[i..] else []
    case InHandler(snap, i) => if i <= |snap| then snap[i..] else []
    case _ => []
  }

  /** The worker, or a client in a pause, may still follow a pointer to `q`. */
  ghost predicate InUse(s: Pool, q: Qid) {
    q in s.mqs || exists r :: r in Held(s.worker) && r.mq == Some(q)
  }

  lemma HeldIsListed(s: Pool, r: Note)
    requires PollInv(s) && r in Held(s.worker)
    ensures r.qid in s.mqs && r.mq == Some(r.qid)
  {
    hide Objects, Registered, Delivered, Listeners;
    match s.worker
    case Polling(Attaching(k, list)) => assert HasQid(list, r.qid);
    case Polling(Waiting(list)) => assert HasQid(list, r.qid);
    case _ =>
  }

  /** Control's messages reach only control's handler: its record is the first of a snapshot,
      and what is left after it concerns users' queues, whose handlers are set. */
  lemma TailIsForUsers(s: Pool, r: Note)
    requires PollInv(s) && (s.worker.Tail? || s.worker.InHandler?) && r in Held(s.worker)
    ensures r.qid != CONTROL && r.qid in s.stage && r.qid < s.slots && r.flags == DATA
  {
    hide Delivered, Listeners, Phases;
    HeldIsListed(s, r);
  }

  /** A pointer in use leads to a queue that exists, and whose removal, if one is asked for,
      the worker has not even answered. */
  lemma InUseIsAlive(s: Pool, q: Qid)
    requires Inv(s) && InUse(s, q)
    ensures q in s.queues && s.worker != Fault
    ensures q == CONTROL || (q in s.stage && s.stage[q] != Unregistering(1) && s.stage[q] != Registering(0))
  {
    hide Delivered, Listeners, Phases, Requested, Tokens, Closing;
    if q !in s.mqs {
      var r :| r in Held(s.worker) && r.mq == Some(q);
      HeldIsListed(s, r);
    }
  }

  lemma {:induction false} GoneForever(capacity: nat, states: seq<Pool>, labels: seq<Label>, i: nat, j: nat, q: Qid)
    requires IsRun(capacity, states, labels) && i <= j < |states|
    requires q < states[i].slots && q !in states[i].stage
    ensures q < states[j].slots && q !in states[j].stage
  {
    hide Inv, Next, Enabled;
    if i < j {
      GoneForever(capacity, states, labels, i, j - 1, q);
      RunInv(capacity, states, labels, j - 1);
      NextKeepsGone(states[j - 1], labels[j - 1], q);
    }
  }

  lemma NextKeepsGone(s: Pool, l: Label, q: Qid)
    requires Inv(s) && Enabled(s, l) && q < s.slots && q !in s.stage
    ensures q < Next(s, l).slots && q !in Next(s, l).stage
  {
    hide Inv, Next;
    NextStage(s, l);
  }

  /** Once remove_queue has returned and the queue is destroyed, no pointer to it is ever
      followed again, and its id is not given away again. */
  lemma RemovedIsNeverUsed(capacity: nat, states: seq<Pool>, labels: seq<Label>, i: nat, j: nat, q: Qid)
    requires IsRun(capacity, states, labels) && i < |labels| && labels[i] == EndRemove(q) && i < j < |states|
    ensures q !in states[j].queues && !InUse(states[j], q)
  {
    RunInv(capacity, states, labels, i);
    RunInv(capacity, states, labels, j);
    StagedIsKnown(states[i], q);
    GoneAfterRemove(states[i], q);
    GoneForever(capacity, states, labels, i + 1, j, q);
    if InUse(states[j], q) {
      InUseIsAlive(states[j], q);
    }
    UnknownIsGone(states[j], q);
  }

  lemma StagedIsKnown(s: Pool, q: Qid)
    requires Inv(s) && q in s.stage
    ensures CONTROL != q < s.slots
  {
    hide Registered, Delivered, Listeners, Phases, Snapshot, RequestInv;
  }

  lemma UnknownIsGone(s: Pool, q: Qid)
    requires Inv(s) && q !in s.stage && q != CONTROL
    ensures q !in s.queues
  {
    hide Registered, Delivered, Listeners, Phases, Snapshot, RequestInv;
  }

  lemma GoneAfterRemove(s: Pool, q: Qid)
    requires Inv(s) && Enabled(s, EndRemove(q))
    ensures var s' := Next(s, EndRemove(q)); q !in s'.stage && s'.slots == s.slots
  {
    hide Inv;
    EndRemoveKeepsInv(s, q);
  }

  /** No assertion of the code fails and no dead listener is notified, in any run. */
  lemma NeverFaults(capacity: nat, states: seq<Pool>, labels: seq<Label>, n: nat)
    requires IsRun(capacity, states, labels) && n < |states|
    ensures states[n].worker != Fault
  {
    RunInv(capacity, states, labels, n);
  }

  // ---------- no lost wakeup, no deadlock ----------

  /** While the worker waits, it listens to every registered queue, and its list names exactly
      those that have messages; so it sleeps only when all are empty. */
  lemma NoLostWakeup(s: Pool, list: seq<Note>)
    requires Inv(s) && s.worker == Polling(Waiting(list))
    ensures forall q :: q in s.mqs ==> q in s.queues && s.queues[q].listener == Some(Worker)
    ensures forall q :: HasQid(list, q) <==> q in s.mqs && s.queues[q].msgs != []
    ensures list == [] <==> forall q :: q in s.mqs ==> s.queues[q].msgs == []
  {
    hide Delivered, Snapshot, Requested, Tokens, Closing;
    if list == [] {
      assert forall q :: !HasQid(list, q);
    } else {
      assert HasQid(list, list[0].qid);
    }
  }

  /** A push to a registered queue wakes the waiting worker. */
  lemma PushWakes(s: Pool, q: Qid, payload: nat)
    requires Inv(s) && s.worker == Polling(Waiting([])) && Enabled(s, Push(q, payload)) && q in s.mqs
    ensures var s' := Next(s, Push(q, payload)); s'.worker == Polling(Waiting([Rec(q, Some(q), DATA)])) && WorkerCanStep(s')
  {
    hide Snapshot, Requested, Tokens, Closing, PushTo;
    assert Notify([], Rec(q, Some(q), DATA)) == [Rec(q, Some(q), DATA)];
    NoLostWakeup(s, []);
    PushShape(s, q, User(payload));
  }

  /** When the worker's poll returns there is a record, so that `front` is defined. */
  lemma FrontIsDefined(s: Pool)
    requires Inv(s) && s.worker.Polling? && PollDone(s.worker.phase, s.mqs)
    ensures s.worker.phase.snap != []
  {
  }

  /** No client waits for the worker. */
  ghost predicate NobodyWaits(s: Pool) {
    && s.pausing == 0 && s.polls == map[]
    && forall q :: q in s.stage ==> s.stage[q] == Owned || s.stage[q].posted == 1
  }

  /** Every request that is not answered is in the control queue. */
  lemma NoRequestNoWaiter(s: Pool)
    requires RequestInv(s) && Requests(s) == multiset{} && s.worker != AwaitResume
    ensures NobodyWaits(s) && (s.closing <==> s.worker == Halted)
  {
    hide Requests;
    OnePoll(s);
    assert |s.polls| == 0;
    forall q | q in s.stage
      ensures s.stage[q] == Owned || s.stage[q].posted == 1
    {
      assert Requests(s)[Message(CONTROL, Add(q))] == 0 && Requests(s)[Message(CONTROL, Remove(q))] == 0;
    }
  }

  lemma EmptyControl(s: Pool)
    requires Inv(s) && CONTROL in s.queues && s.queues[CONTROL].msgs == [] && s.worker != AwaitResume
    ensures NobodyWaits(s) && (s.closing <==> s.worker == Halted)
  {
    hide PollInv, RequestInv;
    assert Requests(s) == multiset{};
    NoRequestNoWaiter(s);
  }

  /** The worker stands still for one of three reasons only: it has ended, a client in
      is_poll_idle can step, or there is nothing to do and nobody waits. */
  lemma NoDeadlock(s: Pool)
    requires Inv(s) && !WorkerCanStep(s)
    ensures match s.worker
            case Halted => s.closing && NobodyWaits(s)
            case AwaitResume =>
              exists c :: Enabled(s, EnterIdle(c)) || Enabled(s, PollIdle(c))
            case Polling(Waiting(list)) =>
              list == [] && !s.closing && NobodyWaits(s) && forall q :: q in s.mqs ==> s.queues[q].msgs == []
            case _ => false
  {
    match s.worker
    case Polling(Waiting(list)) =>
      NoLostWakeup(s, list);
      assert CONTROL in s.mqs;
      EmptyControl(s);
    case AwaitResume => PausedClientSteps(s);
    case Halted => HaltedPool(s);
    case _ =>
  }

  lemma PausedClientSteps(s: Pool)
    requires Inv(s) && s.worker == AwaitResume && s.resumeSem == 0
    ensures exists c :: Enabled(s, EnterIdle(c)) || Enabled(s, PollIdle(c))
  {
    hide Requests, Objects, Registered, Delivered, Listeners, Phases, Snapshot, Requested, Closing;
    if s.polls == map[] {
      assert |s.polls| == 0;
      assert Enabled(s, EnterIdle(0));
    } else {
      var c :| c in s.polls;
      assert Enabled(s, PollIdle(c));
    }
  }

  lemma HaltedPool(s: Pool)
    requires Inv(s) && s.worker == Halted
    ensures s.closing && NobodyWaits(s)
  {
    hide Requests, Objects, Registered, Delivered, Listeners, Phases, Snapshot, Requested;
    OnePoll(s);
  }

  // ---------- the pause protocol ----------

  /** The worker, or some client, has a poll over `_mqs` going on. */
  ghost predicate InPoll(s: Pool, who: Poller) {
    match who
    case Worker => s.worker.Polling?
    case Caller(c) => c in s.polls
  }

  /** However many clients ask for a pause: exactly one token exists while the worker is
      paused and none otherwise, two polls never overlap, and in a poll set_listener always
      finds the queue without a listener. */
  lemma PauseProtocol(s: Pool)
    requires Inv(s)
    ensures s.pauseSem + |s.polls| + s.resumeSem == if s.worker == AwaitResume then 1 else 0
    ensures forall a, b :: InPoll(s, a) && InPoll(s, b) ==> a == b
    ensures forall c :: c in s.polls ==> s.worker == AwaitResume
  {
    OnePoll(s);
  }

  lemma AttachSucceeds(s: Pool, who: Poller, k: nat, list: seq<Note>)
    requires Inv(s) && Polls(s, who, Attaching(k, list)) && k < |s.mqs|
    ensures s.mqs[k] in s.queues
    ensures var r: Result<Body, Poller, Qid> := SetListener(s.queues[s.mqs[k]], s.mqs[k], who);
            r.status == Success && r.queue.listener == Some(who)
  {
    PollIsReady(s, who, Attaching(k, list));
  }

  /** While a client is inside its poll, `_mqs` stands still and the worker stays paused,
      whatever any thread does. */
  lemma PollIsUndisturbed(s: Pool, l: Label, c: Client)
    requires Inv(s) && Enabled(s, l) && c in s.polls
    ensures Next(s, l).mqs == s.mqs
    ensures c in Next(s, l).polls ==> Next(s, l).worker == AwaitResume
    ensures c !in Next(s, l).polls ==> l == PollIdle(c) && PollDone(s.polls[c], s.mqs)
  {
    PauseProtocol(s);
    NextKeepsInv(s, l);
    PauseProtocol(Next(s, l));
    hide Inv, Next;
    NextStage(s, l);
    PollStays(s, l, c);
    assert !WorkerCanStep(s) by { PausedWorker(s, c); }
  }

  lemma PausedWorker(s: Pool, c: Client)
    requires Inv(s) && c in s.polls
    ensures s.worker == AwaitResume && s.resumeSem == 0
  {
    OnePoll(s);
    hide Requests;
    assert c in s.polls.Keys;
    assert |s.polls| == |s.polls.Keys|;
  }

  lemma PushKeepsCallers(s: Pool, q: Qid, body: Body, c: Client)
    ensures c in s.polls <==> c in PushTo(s, q, body).polls
    ensures c in s.polls ==>
            var ph := PushTo(s, q, body).polls[c];
            (s.polls[c].Detaching? || ph.Detaching?) ==> ph == s.polls[c]
  {
    hide Deliver, MessageQueueModel.Push;
    if q in s.queues {
      var m := Message(s.queues[q].id, body);
      var r: Result<Body, Poller, Qid> := MessageQueueModel.Push(s.queues[q], q, Some(m));
      if r.notices != [] {
        DeliverKeepsCallers(s.(queues := s.queues[q := r.queue],
                               pushed := if r.status == Success && q in s.pushed then s.pushed[q := s.pushed[q] + [m]] else s.pushed),
                            r.notices[0].to, r.notices[0].rec, c);
      }
    }
  }

  lemma DeliverKeepsCallers(s: Pool, who: Poller, note: Note, c: Client)
    ensures c in s.polls <==> c in Deliver(s, who, note).polls
    ensures c in s.polls ==>
            var ph := Deliver(s, who, note).polls[c];
            (s.polls[c].Detaching? || ph.Detaching?) ==> ph == s.polls[c]
  {
    hide Notify;
    if who.Caller? && who.client in s.polls {
      assert Deliver(s, who, note) == s.(polls := s.polls[who.client := NotifyPhase(s.polls[who.client], note)]);
    }
  }

  /** A poll goes on until its own client finishes it, and only its client takes it past the
      snapshot. */
  lemma PollStays(s: Pool, l: Label, c: Client)
    requires Inv(s) && Enabled(s, l) && c in s.polls
    ensures c !in Next(s, l).polls ==> l == PollIdle(c) && PollDone(s.polls[c], s.mqs)
    ensures c in Next(s, l).polls ==>
              var ph := Next(s, l).polls[c];
              (s.polls[c].Detaching? || ph.Detaching?) && l != PollIdle(c) ==> ph == s.polls[c]
  {
    hide Inv, PushTo, PollStep, DeleteQueue, WorkerStep, PollDone;
    PausedWorker(s, c);
    match l
    case Push(q, payload) => PushKeepsCallers(s, q, User(payload), c);
    case BeginAllocate => PushKeepsCallers(Create(s), CONTROL, Add(s.slots), c);
    case BeginRemove(q) => PushKeepsCallers(s.(stage := s.stage[q := Unregistering(0)]), CONTROL, Remove(q), c);
    case BeginIdle => PushKeepsCallers(s.(pausing := s.pausing + 1), CONTROL, Pause, c);
    case Destroy => PushKeepsCallers(s.(closing := true), CONTROL, Terminate, c);
    case EndRemove(q) => EndRemoveKeepsInv(s, q);
    case PollIdle(d) =>
    case _ =>
  }

  lemma PostKeepsHistory(s: Pool, q: Qid)
    ensures SameHistory(s, PostRequest(s, q))
  {
  }

  lemma HandleKeepsHistory(s: Pool, body: Body)
    ensures SameHistory(s, HandleControl(s, body))
  {
    hide InsertPosition, Erase, PostRequest;
    match body
    case Add(q) =>
      if HandleAdd(s, q) != Faulty(s) {
        var k := InsertPosition(s.mqs, q, 1);
        PostKeepsHistory(s.(mqs := s.mqs[..k] + [q] + s.mqs[k..]), q);
      }
    case Remove(q) => PostKeepsHistory(s.(mqs := Erase(s.mqs, q), worker := Polling(Attaching(0, []))), q);
    case _ =>
  }

  lemma ControlKeepsPolls(s: Pool, snap: seq<Note>)
    ensures ControlStep(s, snap).polls == s.polls
  {
    hide Take, HandleControl, HasData;
    if snap != [] && Usable(s, snap[0]) && Take(s, snap[0].mq.value).1.Some? {
      HandleKeepsHistory(Take(s, snap[0].mq.value).0, Take(s, snap[0].mq.value).1.value.body);
    }
    if snap != [] && Usable(s, snap[0]) {
      TakeFrame(s, snap[0].mq.value);
    }
  }

  lemma WorkKeepsPolls(s: Pool, outcome: Outcome)
    requires WorkerCanStep(s)
    ensures WorkerStep(s, outcome).polls == s.polls
  {
    hide TailStep, WorkerPoll, ControlStep;
    if s.worker.ControlDrain? {
      ControlKeepsPolls(s, s.worker.snap);
    } else {
      WorkFrame(s, outcome);
    }
  }

  /** A poll begins when its client has taken the pause token. */
  lemma PollBegins(s: Pool, l: Label, c: Client)
    requires Inv(s) && Enabled(s, l) && c !in s.polls && c in Next(s, l).polls
    ensures l == EnterIdle(c) && Next(s, l).polls[c] == Attaching(0, [])
  {
    hide Inv, PushTo, PollStep, DeleteQueue, WorkerStep, PollDone;
    match l
    case Push(q, payload) => PushKeepsCallers(s, q, User(payload), c);
    case BeginAllocate => PushKeepsCallers(Create(s), CONTROL, Add(s.slots), c);
    case BeginRemove(q) => PushKeepsCallers(s.(stage := s.stage[q := Unregistering(0)]), CONTROL, Remove(q), c);
    case BeginIdle => PushKeepsCallers(s.(pausing := s.pausing + 1), CONTROL, Pause, c);
    case Destroy => PushKeepsCallers(s.(closing := true), CONTROL, Terminate, c);
    case EndRemove(q) => EndRemoveKeepsInv(s, q);
    case Work(outcome) => WorkKeepsPolls(s, outcome);
    case _ =>
  }
}
