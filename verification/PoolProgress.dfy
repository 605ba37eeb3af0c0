/**
 Bounded progress: left alone, the worker comes to rest after finitely many steps, with every
 message delivered and every request answered.
 */
module PoolProgress {
  import opened MessageQueueModel
  import opened PoolModel
  import opened PoolInvariant
  import opened PoolSteps
  import opened PoolWorkerSteps
  import opened PoolHandlerSteps
  import opened PoolTheorems

  // ---------- the measure ----------

  /** How many messages are queued in the first `n` queues. */
  ghost function Load(queues: map<Qid, Queue>, n: nat): nat {
    if n == 0 then 0
    else Load(queues, n - 1) + if n - 1 in queues then |queues[n - 1].msgs| else 0
  }

  lemma {:induction false} SameLoad(queues: map<Qid, Queue>, queues': map<Qid, Queue>, n: nat)
    requires SameMessages(queues, queues')
    ensures Load(queues', n) == Load(queues, n)
  {
    if n > 0 {
      SameLoad(queues, queues', n - 1);
    }
  }

  lemma {:induction false} TakeLoad(queues: map<Qid, Queue>, queues': map<Qid, Queue>, n: nat, q: Qid)
    requires q in queues && queues[q].msgs != []
    requires queues' == queues[q := queues[q].(msgs := queues[q].msgs[1..])]
    ensures Load(queues', n) == Load(queues, n) - if q < n then 1 else 0
  {
    if n > 0 {
      TakeLoad(queues, queues', n - 1, q);
    }
  }

  ghost predicate Queued(s: Pool, q: Qid) {
    q in s.queues && s.queues[q].msgs != []
  }

  /** Decreases in every step of a poll over `n` queues. */
  ghost function PollRank(ph: Phase, n: nat): nat {
    match ph
    case Attaching(k, _) => if k <= n then 2 * n + 3 - k else 0
    case Waiting(_) => n + 2
    case Detaching(k, _) => if k <= n then n + 1 - k else 0
  }

  /** How far the worker is from the next message it takes, or from rest. */
  ghost function Rank(s: Pool): nat {
    var n := |s.mqs|;
    match s.worker
    case Polling(ph) => PollRank(ph, n)
    case ControlDrain(snap) => if Queued(s, CONTROL) then 0 else 2 * n + 5 + 2 * |snap|
    case Tail(snap, i) =>
      if i < |snap| && Queued(s, snap[i].qid) then 0
      else 2 * n + 4 + if i <= |snap| then 2 * (|snap| - i) else 0
    case InHandler(snap, i) => 2 * n + 5 + if i <= |snap| then 2 * (|snap| - i) else 0
    case AwaitResume => 2 * n + 4
    case _ => 0
  }

  /** A step of the worker takes a message or comes nearer to doing so. */
  ghost predicate Nearer(s: Pool, s': Pool) {
    && s'.slots == s.slots
    && (|| Load(s'.queues, s.slots) < Load(s.queues, s.slots)
        || (Load(s'.queues, s.slots) == Load(s.queues, s.slots) && Rank(s') < Rank(s)))
  }

  lemma TailNearer(s: Pool, snap: seq<Note>, i: nat)
    requires Inv(s) && s.worker == Tail(snap, i)
    ensures Nearer(s, TailStep(s, snap, i))
  {
    hide Listeners, Phases, Requested, Tokens, Closing, Take, Load;
    var s' := TailStep(s, snap, i);
    if i < |snap| {
      var q := snap[i].qid;
      RecordIsUsable(s, snap, i);
      TakeShape(s, q);
      if Queued(s, q) {
        TakeLoad(s.queues, s'.queues, s.slots, q);
      }
    }
  }

  lemma ControlNearer(s: Pool, snap: seq<Note>)
    requires Inv(s) && s.worker == ControlDrain(snap)
    ensures Nearer(s, ControlStep(s, snap))
  {
    hide Listeners, Phases, Requested, Tokens, Closing, Take, Load, HandleControl;
    var s' := ControlStep(s, snap);
    RecordIsUsable(s, snap, 0);
    TakeShape(s, CONTROL);
    if Queued(s, CONTROL) {
      HandleKeepsQueues(AfterTake(s, CONTROL), s.queues[CONTROL].msgs[0].body);
      TakeLoad(s.queues, s'.queues, s.slots, CONTROL);
    }
  }

  lemma HandleKeepsQueues(s: Pool, body: Body)
    ensures var s' := HandleControl(s, body);
            s'.queues == s.queues && s'.slots == s.slots && s'.pushed == s.pushed && s'.closing == s.closing
            && s'.pausing == s.pausing
  {
    hide InsertPosition, Erase, PostRequest;
    match body
    case Add(q) =>
      if HandleAdd(s, q) != Faulty(s) {
        var k := InsertPosition(s.mqs, q, 1);
        PostKeepsRest(s.(mqs := s.mqs[..k] + [q] + s.mqs[k..]), q);
      }
    case Remove(q) => PostKeepsRest(s.(mqs := Erase(s.mqs, q), worker := Polling(Attaching(0, []))), q);
    case _ =>
  }

  lemma PostKeepsRest(s: Pool, q: Qid)
    ensures var s' := PostRequest(s, q);
            s'.queues == s.queues && s'.slots == s.slots && s'.pushed == s.pushed && s'.closing == s.closing
            && s'.pausing == s.pausing
  {
  }

  lemma PollNearer(s: Pool, outcome: Outcome)
    requires Inv(s) && s.worker.Polling? && WorkerCanStep(s)
    ensures Nearer(s, WorkerStep(s, outcome))
  {
    hide PollInv, RequestInv, PollStep, Load, PollDone;
    var ph := s.worker.phase;
    if PollDone(ph, s.mqs) {
      PollReturnNearer(s, ph);
    } else {
      PollRankFalls(s, ph);
    }
  }

  lemma LoadedFront(s: Pool)
    requires Inv(s) && s.worker.Polling? && PollDone(s.worker.phase, s.mqs)
    ensures s.worker.phase.snap != [] && Queued(s, s.worker.phase.snap[0].qid)
  {
    hide Objects, Registered, Delivered, Listeners, Requested, Tokens, Closing;
    assert s.worker.phase.snap[0] in s.worker.phase.snap;
  }

  lemma PollReturnNearer(s: Pool, ph: Phase)
    requires Inv(s) && s.worker == Polling(ph) && PollDone(ph, s.mqs)
    ensures Nearer(s, WorkerPoll(s, ph))
  {
    hide PollInv, RequestInv, Load;
    LoadedFront(s);
    PhaseBoundOf(s, ph);
  }

  lemma PhaseBound(s: Pool, ph: Phase)
    requires Phases(s) && s.worker == Polling(ph)
    ensures (ph.Attaching? || ph.Detaching?) ==> ph.k <= |s.mqs|
  {
  }

  lemma PhaseBoundOf(s: Pool, ph: Phase)
    requires PollInv(s) && s.worker == Polling(ph)
    ensures (ph.Attaching? || ph.Detaching?) ==> ph.k <= |s.mqs|
  {
    hide Objects, Registered, Delivered, Listeners, Snapshot;
    PhaseBound(s, ph);
  }

  lemma PollRankFalls(s: Pool, ph: Phase)
    requires Inv(s) && s.worker == Polling(ph) && !PollDone(ph, s.mqs) && WorkerCanStep(s)
    ensures Nearer(s, WorkerPoll(s, ph))
  {
    hide PollStep, Attached, Tokens, PhaseOk, ListOk, SnapOk, Load, Registered, Delivered, Listeners, Requested, Closing;
    PhaseBound(s, ph);
    PollIsReady(s, Worker, ph);
    PollStepKeepsPoll(s.queues, s.mqs, Worker, ph);
    SameLoad(s.queues, WorkerPoll(s, ph).queues, s.slots);
  }

  lemma RecordInHand(s: Pool, snap: seq<Note>, i: nat)
    requires PollInv(s) && s.worker == InHandler(snap, i)
    ensures i < |snap|
  {
  }

  lemma WorkNearer(s: Pool, outcome: Outcome)
    requires Inv(s) && WorkerCanStep(s)
    ensures Nearer(s, WorkerStep(s, outcome))
  {
    hide TailStep, ControlStep, WorkerPoll, PollInv, RequestInv, Load;
    match s.worker
    case Polling(_) => PollNearer(s, outcome);
    case ControlDrain(snap) => ControlNearer(s, snap);
    case Tail(snap, i) => TailNearer(s, snap, i);
    case InHandler(snap, i) =>
      RecordInHand(s, snap, i);
    case _ =>
  }

  // ---------- the worker left alone ----------

  /** No pause is asked for or under way. */
  ghost predicate Undisturbed(s: Pool) {
    s.pausing == 0 && s.polls == map[]
  }

  ghost predicate SamePauses(s: Pool, s': Pool) {
    s'.pausing == s.pausing && s'.polls == s.polls
  }

  /** Nothing is pushed or asked for, and stages keep their kind. */
  ghost predicate OnlyAnswers(s: Pool, s': Pool) {
    && s'.pushed == s.pushed && s'.closing == s.closing
    && s'.stage.Keys == s.stage.Keys
    && forall q :: q in s.stage ==>
         s'.stage[q].Unregistering? == s.stage[q].Unregistering? && s'.stage[q].Registering? == s.stage[q].Registering?
  }

  lemma ControlOnlyAnswers(s: Pool, snap: seq<Note>)
    requires Inv(s) && s.worker == ControlDrain(snap)
    ensures OnlyAnswers(s, ControlStep(s, snap)) && SamePauses(s, ControlStep(s, snap))
  {
    hide Listeners, Phases, Requested, Tokens, Closing, Take, HandleControl, Objects, Registered, Requests, HasData, Usable;
    var s' := ControlStep(s, snap);
    ControlExists(s);
    RecordIsUsable(s, snap, 0);
    TakeShape(s, CONTROL);
    ControlStage(s, snap);
    ControlKeepsPolls(s, snap);
    if Queued(s, CONTROL) {
      HandleKeepsQueues(AfterTake(s, CONTROL), s.queues[CONTROL].msgs[0].body);
    }
    if s'.stage != s.stage {
      var q :| Answers(s, s', q);
    }
  }

  lemma WorkOnlyAnswers(s: Pool, outcome: Outcome)
    requires Inv(s) && WorkerCanStep(s)
    ensures OnlyAnswers(s, WorkerStep(s, outcome)) && SamePauses(s, WorkerStep(s, outcome))
  {
    hide TailStep, ControlStep, WorkerPoll, PollInv, RequestInv;
    if s.worker.ControlDrain? {
      ControlOnlyAnswers(s, s.worker.snap);
    } else {
      WorkFrame(s, outcome);
    }
  }

  /** The run of the worker by itself, with any outcomes of the handlers, until it rests. */
  ghost function RunAlone(s: Pool, outcomes: nat -> Outcome, t: nat): (r: Pool)
    requires Inv(s)
    ensures Inv(r) && !WorkerCanStep(r) && OnlyAnswers(s, r) && SamePauses(s, r)
    decreases Load(s.queues, s.slots), Rank(s)
  {
    if !WorkerCanStep(s) then s
    else
      WorkKeepsInv(s, outcomes(t));
      WorkNearer(s, outcomes(t));
      WorkOnlyAnswers(s, outcomes(t));
      RunAlone(WorkerStep(s, outcomes(t)), outcomes, t + 1)
  }

  /** What there is when everything has come to rest: a pool being destroyed has ended;
      otherwise the worker waits, every message of every queue still registered has been handed
      to its handler; and no call waits for an answer. */
  ghost predicate AllDone(s: Pool, r: Pool) {
    && NobodyWaits(r)
    && (if s.closing then r.worker == Halted else r.worker == Polling(Waiting([])))
    && (!s.closing ==> forall q :: q in r.mqs ==> q in r.handed && q in s.pushed && r.handed[q] == s.pushed[q])
    && (forall q :: q in r.mqs <==> q == CONTROL || (q in s.stage && !s.stage[q].Unregistering?))
  }

  lemma RestDelivers(s: Pool, r: Pool)
    requires Inv(r) && OnlyAnswers(s, r) && !WorkerCanStep(r) && r.worker != AwaitResume
    ensures AllDone(s, r)
  {
    hide Inv, WorkerCanStep, NobodyWaits;
    NoDeadlock(r);
    if !s.closing {
      RestIsDelivered(r);
    }
    RestIsAnswered(r);
  }

  /** From every reachable state, whatever handlers do, the worker alone comes to rest with
      everything delivered and answered, or to a pause in which it waits for a client in
      is_poll_idle that can step. */
  lemma LeftAloneDelivers(s: Pool, outcomes: nat -> Outcome)
    requires Inv(s)
    ensures var r := RunAlone(s, outcomes, 0);
            if r.worker == AwaitResume
            then !Undisturbed(s) && exists c :: Enabled(r, EnterIdle(c)) || Enabled(r, PollIdle(c))
            else AllDone(s, r)
  {
    hide Inv, RunAlone, WorkerCanStep, AllDone, OnlyAnswers;
    var r := RunAlone(s, outcomes, 0);
    if r.worker == AwaitResume {
      NoDeadlock(r);
      if Undisturbed(s) {
        RestIsNotPause(r);
      }
    } else {
      RestDelivers(s, r);
    }
  }

  // ---------- the worker and the clients inside is_poll_idle ----------

  /** Steps that need nobody from outside: the worker's, and those of calls of is_poll_idle. */
  predicate Internal(l: Label) {
    l.Work? || l.EnterIdle? || l.PollIdle?
  }

  ghost predicate AtRest(s: Pool) {
    forall l :: Internal(l) ==> !Enabled(s, l)
  }

  /** Any order of the internal steps: what comes next may depend on everything. */
  ghost predicate IsSchedule(f: (Pool, nat) -> Label) {
    forall s, t :: !AtRest(s) ==> Internal(f(s, t)) && Enabled(s, f(s, t))
  }

  /** How far the poll of the client inside is_poll_idle has to go; there is at most one. */
  ghost function PollLeft(s: Pool): nat {
    if s.polls == map[] then 0
    else
      var c :| c in s.polls;
      PollRank(s.polls[c], |s.mqs|)
  }

  /** An internal step takes a message, or moves the worker, a waiting call or a poll on. */
  ghost predicate InternallyNearer(s: Pool, s': Pool) {
    || Nearer(s, s')
    || (&& s'.slots == s.slots && Load(s'.queues, s.slots) == Load(s.queues, s.slots) && Rank(s') == Rank(s)
        && (s'.pausing < s.pausing || (s'.pausing == s.pausing && PollLeft(s') < PollLeft(s))))
  }

  lemma OnlyPollLeft(s: Pool, c: Client)
    requires Inv(s) && c in s.polls
    ensures PollLeft(s) == PollRank(s.polls[c], |s.mqs|)
  {
    hide PollRank;
    OnePoll(s);
  }

  lemma SameRank(s: Pool, s': Pool)
    requires s'.worker == s.worker == AwaitResume && s'.mqs == s.mqs
    ensures Rank(s') == Rank(s)
  {
  }

  lemma IdleStepNearer(s: Pool, c: Client)
    requires Inv(s) && c in s.polls
    ensures InternallyNearer(s, IdleStep(s, c)) && OnlyAnswers(s, IdleStep(s, c))
  {
    hide Inv, Load, Rank, PollRank, PollLeft;
    PausedWorker(s, c);
    OnlyPollLeft(s, c);
    var s' := IdleStep(s, c);
    if PollDone(s.polls[c], s.mqs) {
      IdleReturnNearer(s, c);
    } else {
      IdlePollNearer(s, c);
      IdlePollKeepsInv(s, c);
      OnlyPollLeft(s', c);
    }
    SameRank(s, s');
  }

  lemma IdleReturnNearer(s: Pool, c: Client)
    requires Inv(s) && c in s.polls && PollDone(s.polls[c], s.mqs)
    ensures 0 < PollRank(s.polls[c], |s.mqs|) && PollLeft(IdleStep(s, c)) == 0
  {
    hide PollInv, Requested, Closing;
    OnePoll(s);
    assert s.polls - {c} == map[];
    FinishedBound(s, c);
  }

  lemma FinishedBound(s: Pool, c: Client)
    requires PollInv(s) && c in s.polls && PollDone(s.polls[c], s.mqs)
    ensures s.polls[c].k == |s.mqs|
  {
    hide Objects, Registered, Delivered, Listeners, Snapshot;
  }

  lemma IdlePollNearer(s: Pool, c: Client)
    requires Inv(s) && c in s.polls && !PollDone(s.polls[c], s.mqs)
    ensures var s' := IdleStep(s, c);
            && c in s'.polls && s'.mqs == s.mqs && s'.worker == s.worker && s'.pausing == s.pausing && s'.slots == s.slots
            && PollRank(s'.polls[c], |s.mqs|) < PollRank(s.polls[c], |s.mqs|)
            && Load(s'.queues, s.slots) == Load(s.queues, s.slots) && OnlyAnswers(s, s')
  {
    hide PollStep, Attached, Tokens, ListOk, SnapOk, Load, Registered, Delivered, Listeners, Requested, Closing;
    PollIsReady(s, Caller(c), s.polls[c]);
    PollStepKeepsPoll(s.queues, s.mqs, Caller(c), s.polls[c]);
    SameLoad(s.queues, IdleStep(s, c).queues, s.slots);
  }

  lemma InternalNearer(s: Pool, l: Label)
    requires Inv(s) && Internal(l) && Enabled(s, l)
    ensures InternallyNearer(s, Next(s, l)) && OnlyAnswers(s, Next(s, l))
  {
    hide Inv, Load, Rank, PollLeft, WorkerStep, IdleStep, WorkerCanStep;
    match l
    case Work(outcome) =>
      WorkNearer(s, outcome);
      WorkOnlyAnswers(s, outcome);
    case PollIdle(c) => IdleStepNearer(s, c);
    case EnterIdle(c) =>
      PausedByToken(s, c);
      SameRank(s, Next(s, l));
  }

  lemma PausedByToken(s: Pool, c: Client)
    requires Inv(s) && Enabled(s, EnterIdle(c))
    ensures s.worker == AwaitResume
  {
    hide PollInv, Requested, Closing;
  }

  lemma AnswersNothing(s: Pool)
    ensures OnlyAnswers(s, s)
  {
  }

  lemma AnswersCompose(a: Pool, b: Pool, c: Pool)
    requires OnlyAnswers(a, b) && OnlyAnswers(b, c)
    ensures OnlyAnswers(a, c)
  {
  }

  /** The run of the worker and of the calls of is_poll_idle, in the order of the schedule. */
  ghost function RunOut(s: Pool, f: (Pool, nat) -> Label, t: nat): (r: Pool)
    requires Inv(s) && IsSchedule(f)
    ensures Inv(r) && AtRest(r) && OnlyAnswers(s, r)
    decreases Load(s.queues, s.slots), Rank(s), s.pausing, PollLeft(s)
  {
    hide Inv, Next, Enabled, OnlyAnswers, AtRest, Load, Rank, PollLeft;
    if AtRest(s) then AnswersNothing(s); s
    else
      NextKeepsInv(s, f(s, t));
      InternalNearer(s, f(s, t));
      var r := RunOut(Next(s, f(s, t)), f, t + 1);
      AnswersCompose(s, Next(s, f(s, t)), r);
      r
  }

  lemma RestIsNoPause(r: Pool)
    requires Inv(r) && AtRest(r)
    ensures !WorkerCanStep(r) && r.worker != AwaitResume
  {
    hide Inv;
    assert !Enabled(r, Work(Ok));
    assert forall c :: !Enabled(r, EnterIdle(c)) && !Enabled(r, PollIdle(c));
    NoDeadlock(r);
  }

  /** From every reachable state, pauses under way or not, every schedule of the worker and of
      the calls of is_poll_idle ends, with every such call returned and everything delivered and
      answered. */
  lemma EverythingComesToRest(s: Pool, f: (Pool, nat) -> Label)
    requires Inv(s) && IsSchedule(f)
    ensures AllDone(s, RunOut(s, f, 0))
  {
    hide Inv, RunOut, AllDone, AtRest, OnlyAnswers;
    RestIsNoPause(RunOut(s, f, 0));
    RestDelivers(s, RunOut(s, f, 0));
  }

  /** So every waiting allocate_queue and remove_queue can return. */
  lemma RequestsAreAnswered(s: Pool, f: (Pool, nat) -> Label, q: Qid)
    requires Inv(s) && IsSchedule(f) && q in s.stage && s.stage[q] != Owned
    ensures Enabled(RunOut(s, f, 0), if s.stage[q].Registering? then EndAllocate(q) else EndRemove(q))
  {
    hide Inv, RunOut, AtRest;
    EverythingComesToRest(s, f);
  }

  /** For instance, the first allocate_queue of a new pool: the states that the theorems speak
      about are there. */
  lemma FirstQueueIsUsable(capacity: nat, outcomes: nat -> Outcome)
    requires 1 <= capacity && capacity + 1 < UNDEFINED_QID
    ensures var s := Next(Init(capacity), BeginAllocate);
            && Inv(s)
            && var r := RunAlone(s, outcomes, 0);
               r.worker == Polling(Waiting([])) && 1 in r.mqs && Enabled(r, EndAllocate(1))
  {
    hide Inv, RunAlone, WorkerCanStep, Next, Undisturbed;
    FirstAllocation(capacity);
    LeftAloneDelivers(Next(Init(capacity), BeginAllocate), outcomes);
  }

  lemma FirstAllocation(capacity: nat)
    requires 1 <= capacity && capacity + 1 < UNDEFINED_QID
    ensures var s := Next(Init(capacity), BeginAllocate);
            Inv(s) && Undisturbed(s) && !s.closing && Pending(s, 1, Registering(0))
  {
    InitInv(capacity);
    NextKeepsInv(Init(capacity), BeginAllocate);
    hide Inv;
  }

  lemma RestIsNotPause(r: Pool)
    requires Inv(r) && Undisturbed(r) && !WorkerCanStep(r)
    ensures r.worker != AwaitResume
  {
    hide Requests, Objects, Registered, Delivered, Listeners, Phases, Snapshot, Requested, Closing;
    assert |r.polls| == 0;
  }

  lemma RestIsDelivered(r: Pool)
    requires Inv(r) && r.worker == Polling(Waiting([]))
    ensures forall q :: q in r.mqs ==> q in r.handed && q in r.pushed && r.handed[q] == r.pushed[q]
  {
    NoLostWakeup(r, []);
    hide Listeners, Phases, Snapshot, RequestInv;
  }

  lemma RestIsAnswered(r: Pool)
    requires Inv(r) && NobodyWaits(r)
    ensures forall q :: q in r.mqs <==> q == CONTROL || (q in r.stage && !r.stage[q].Unregistering?)
  {
    hide Delivered, Listeners, Phases, Snapshot, RequestInv;
  }
}
