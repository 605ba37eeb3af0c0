/**
 The pool with the queue's mutex in sight. A push, and a poll that sets its listener, first
 take the mutex of a queue and change it, and then, still holding the mutex, notify a
 listener. Between the two any other thread may run, as long as it does not need that queue.
 Every run of this finer system is a run of the pool.
 */
module PoolLocking {
  import opened Common
  import opened Notifications
  import opened MessageQueueModel
  import opened PoolModel
  import opened PoolInvariant
  import opened PoolSteps
  import opened PoolHandlerSteps
  import opened PoolTheorems

  /** What is done to a queue before its listener is told. */
  datatype Section = Pushing(q: Qid, body: Body) | Listening(q: Qid, who: Poller)

  /** A call that has changed its queue and has not yet notified. */
  datatype Held = Held(call: Label, section: Section, result: Result<Body, Poller, Qid>)

  datatype Machine = Machine(pool: Pool, held: map<Qid, Held>)

  function SectionOf(s: Pool, l: Label): Option<Section> {
    match l
    case Push(q, payload) => Some(Pushing(q, User(payload)))
    case BeginAllocate => Some(Pushing(CONTROL, Add(s.slots)))
    case BeginRemove(q) => Some(Pushing(CONTROL, Remove(q)))
    case BeginIdle => Some(Pushing(CONTROL, Pause))
    case Destroy => Some(Pushing(CONTROL, Terminate))
    case PollIdle(c) => ListeningOf(s, Caller(c))
    case Work(_) => ListeningOf(s, Worker)
    case _ => None
  }

  function ListeningOf(s: Pool, who: Poller): Option<Section> {
    match who
    case Worker => if s.worker.Polling? then ListeningAt(s.mqs, Worker, s.worker.phase) else None
    case Caller(c) => if c in s.polls then ListeningAt(s.mqs, Caller(c), s.polls[c]) else None
  }

  function ListeningAt(mqs: seq<Qid>, who: Poller, ph: Phase): Option<Section> {
    if ph.Attaching? && ph.k < |mqs| then Some(Listening(mqs[ph.k], who)) else None
  }

  /** The queue that the rest of a step needs for itself. A queue is not destroyed under
      someone who is using it. */
  function Needs(s: Pool, l: Label): Option<Qid> {
    match l
    case EndRemove(q) => Some(q)
    case PollIdle(c) => if c in s.polls then DetachingAt(s.mqs, s.polls[c]) else None
    case Work(_) =>
      (match s.worker
       case Polling(ph) => DetachingAt(s.mqs, ph)
       case ControlDrain(snap) => if snap != [] && HasData(snap[0]) then snap[0].mq else None
       case Tail(snap, i) => if i < |snap| && HasData(snap[i]) then snap[i].mq else None
       case _ => None)
    case _ => None
  }

  function DetachingAt(mqs: seq<Qid>, ph: Phase): Option<Qid> {
    if ph.Detaching? && ph.k < |mqs| then Some(mqs[ph.k]) else None
  }

  function InQueue(queue: Queue, section: Section): Result<Body, Poller, Qid> {
    match section
    case Pushing(q, body) => MessageQueueModel.Push(queue, q, Some(Message(queue.id, body)))
    case Listening(q, who) => SetListener(queue, q, who)
  }

  /** The thread that takes a step: the worker, the client of a poll, or another one. */
  predicate SameThread(a: Label, b: Label) {
    (a.Work? && b.Work?) || (a.PollIdle? && a == b)
  }

  datatype Move = Lock(call: Label) | Finish(q: Qid) | Whole(call: Label)

  ghost predicate CanMove(m: Machine, move: Move) {
    match move
    case Lock(l) =>
      && Enabled(m.pool, l) && SectionOf(m.pool, l).Some? && SectionOf(m.pool, l).value.q !in m.held
      && Idle(m, l)
    case Finish(q) => q in m.held
    case Whole(l) =>
      && Enabled(m.pool, l) && SectionOf(m.pool, l).None?
      && (Needs(m.pool, l).Some? ==> Needs(m.pool, l).value !in m.held)
      && Idle(m, l)
  }

  /** The thread is not itself between changing a queue and notifying. */
  ghost predicate Idle(m: Machine, l: Label) {
    forall q :: q in m.held ==> !SameThread(l, m.held[q].call)
  }

  function Locked(m: Machine, l: Label): Machine
    requires SectionOf(m.pool, l).Some?
  {
    var section := SectionOf(m.pool, l).value;
    if section.q !in m.pool.queues then Machine(Faulty(m.pool), m.held)
    else
      var r := InQueue(m.pool.queues[section.q], section);
      Machine(m.pool.(queues := m.pool.queues[section.q := r.queue]), m.held[section.q := Held(l, section, r)])
  }

  /** What a call does besides its push. Nobody else knows of it, or of the new queue, before
      the request is in control's queue. */
  function Besides(s: Pool, l: Label): Pool {
    match l
    case BeginAllocate => Create(s)
    case BeginRemove(q) => s.(stage := s.stage[q := Unregistering(0)])
    case BeginIdle => s.(pausing := s.pausing + 1)
    case Destroy => s.(closing := true)
    case _ => s
  }

  function Told(ph: Phase, notices: seq<Notice<Poller, Qid>>): Phase {
    match ph
    case Attaching(k, list) => Attaching(k + 1, if notices == [] then list else Notify(list, notices[0].rec))
    case _ => ph
  }

  /** The notification, and what follows it. */
  function Finished(s: Pool, h: Held): Pool {
    match h.section
    case Pushing(q, body) =>
      var s1 := Besides(s, h.call);
      var s2 := if h.result.status == Success && q in s1.pushed
                then s1.(pushed := s1.pushed[q := s1.pushed[q] + [Message(h.result.queue.id, body)]]) else s1;
      if h.result.notices == [] then s2 else Deliver(s2, h.result.notices[0].to, h.result.notices[0].rec)
    case Listening(q, Worker) =>
      if s.worker.Polling? then s.(worker := Polling(Told(s.worker.phase, h.result.notices))) else Faulty(s)
    case Listening(q, Caller(c)) =>
      if c in s.polls then s.(polls := s.polls[c := Told(s.polls[c], h.result.notices)]) else Faulty(s)
  }

  function Moved(m: Machine, move: Move): Machine
    requires match move
             case Lock(l) => SectionOf(m.pool, l).Some?
             case Finish(q) => q in m.held
             case Whole(l) => Enabled(m.pool, l)
  {
    match move
    case Lock(l) => Locked(m, l)
    case Finish(q) => Machine(Finished(m.pool, m.held[q]), m.held - {q})
    case Whole(l) => Machine(Next(m.pool, l), m.held)
  }

  // ---------- the pool behind the machine ----------

  /** The queues as they are in memory: those that are held have been changed already. */
  ghost function Shown(queues: map<Qid, Queue>, held: map<Qid, Held>): map<Qid, Queue> {
    map q | q in queues :: if q in held then held[q].result.queue else queues[q]
  }

  /** Memory is `p`: the pool `s`, but for the queues that are held. */
  ghost predicate Shows(p: Pool, s: Pool, held: map<Qid, Held>) {
    && p.queues == Shown(s.queues, held) && p.mqs == s.mqs && p.capacity == s.capacity && p.slots == s.slots
    && p.worker == s.worker && p.stage == s.stage && p.pausing == s.pausing && p.polls == s.polls
    && p.pauseSem == s.pauseSem && p.resumeSem == s.resumeSem && p.closing == s.closing
    && p.pushed == s.pushed && p.handed == s.handed
  }

  /** The call has not happened in `s` and can; its queue has been changed as it will be. */
  ghost predicate Underway(s: Pool, q: Qid, h: Held) {
    && q in s.queues && Enabled(s, h.call)
    && SectionOf(s, h.call) == Some(h.section) && h.section.q == q
    && h.result == InQueue(s.queues[q], h.section)
  }

  /** The machine shows the pool `s`, except that calls under way have changed their queues. */
  ghost predicate Refines(m: Machine, s: Pool) {
    && Shows(m.pool, s, m.held)
    && forall q :: q in m.held ==> Underway(s, q, m.held[q])
  }

  // ---------- a step does not see the queues that it does not need ----------

  lemma ShownChange(queues: map<Qid, Queue>, held: map<Qid, Held>, q: Qid, x: Queue)
    requires q !in held
    ensures Shown(queues[q := x], held) == Shown(queues, held)[q := x]
    ensures Shown(queues - {q}, held) == Shown(queues, held) - {q}
  {
  }

  lemma PollUnseen(queues: map<Qid, Queue>, held: map<Qid, Held>, mqs: seq<Qid>, who: Poller, ph: Phase)
    requires ListeningAt(mqs, who, ph).None? && (ph.Detaching? ==> ph.k < |mqs| && mqs[ph.k] !in held)
    ensures PollStep(Shown(queues, held), mqs, who, ph)
         == match PollStep(queues, mqs, who, ph)
            case PollFault => PollFault
            case Polled(queues', ph') => Polled(Shown(queues', held), ph')
  {
    if ph.Detaching? && mqs[ph.k] in queues {
      ShownChange(queues, held, mqs[ph.k], ClearListener(queues[mqs[ph.k]]));
    }
    hide Shown;
  }

  lemma SameMemory(p: Pool, s: Pool, held: map<Qid, Held>)
    requires Shows(p, s, held)
    ensures p.queues == Shown(s.queues, held) && p.mqs == s.mqs && p.slots == s.slots && p.worker == s.worker
    ensures p.stage == s.stage && p.polls == s.polls && p.pauseSem == s.pauseSem && p.resumeSem == s.resumeSem
    ensures p.handed == s.handed && Shows(Faulty(p), Faulty(s), held)
  {
    hide Shown;
  }

  lemma MoveUnseen(p: Pool, s: Pool, held: map<Qid, Held>, queues: map<Qid, Queue>, pc: Pc, sem: nat)
    requires Shows(p, s, held)
    ensures Shows(p.(worker := pc), s.(worker := pc), held)
    ensures Shows(p.(worker := pc, pauseSem := sem), s.(worker := pc, pauseSem := sem), held)
    ensures Shows(p.(worker := pc, resumeSem := sem), s.(worker := pc, resumeSem := sem), held)
    ensures Shows(p.(queues := Shown(queues, held), worker := pc), s.(queues := queues, worker := pc), held)
  {
    hide Shown;
  }

  lemma PollsUnseen(p: Pool, s: Pool, held: map<Qid, Held>, queues: map<Qid, Queue>, polls: map<Client, Phase>, sem: nat)
    requires Shows(p, s, held)
    ensures Shows(p.(polls := polls), s.(polls := polls), held)
    ensures Shows(p.(polls := polls, resumeSem := sem), s.(polls := polls, resumeSem := sem), held)
    ensures Shows(p.(queues := Shown(queues, held), polls := polls), s.(queues := queues, polls := polls), held)
  {
    hide Shown;
  }

  lemma ListUnseen(p: Pool, s: Pool, held: map<Qid, Held>, mqs: seq<Qid>, pc: Pc)
    requires Shows(p, s, held)
    ensures Shows(p.(mqs := mqs), s.(mqs := mqs), held)
    ensures Shows(p.(mqs := mqs, worker := pc), s.(mqs := mqs, worker := pc), held)
  {
    hide Shown;
  }

  lemma QueuesUnseen(p: Pool, s: Pool, held: map<Qid, Held>, queues: map<Qid, Queue>, stage: map<Qid, Stage>, handed: map<Qid, seq<Msg>>)
    requires Shows(p, s, held)
    ensures Shows(p.(stage := stage), s.(stage := stage), held)
    ensures Shows(p.(queues := Shown(queues, held), stage := stage), s.(queues := queues, stage := stage), held)
    ensures Shows(p.(queues := Shown(queues, held), handed := handed), s.(queues := queues, handed := handed), held)
  {
    hide Shown;
  }

  lemma WorkerPollUnseen(p: Pool, s: Pool, held: map<Qid, Held>, ph: Phase)
    requires Shows(p, s, held) && ListeningAt(s.mqs, Worker, ph).None?
    requires DetachingAt(s.mqs, ph).Some? ==> DetachingAt(s.mqs, ph).value !in held
    ensures Shows(WorkerPoll(p, ph), WorkerPoll(s, ph), held)
  {
    hide PollStep, Shown, Shows;
    SameMemory(p, s, held);
    if PollDone(ph, s.mqs) {
      var pc := if ph.snap == [] then Fault else if ph.snap[0].qid == CONTROL then ControlDrain(ph.snap) else Tail(ph.snap, 0);
      MoveUnseen(p, s, held, s.queues, pc, 0);
    } else {
      PollUnseen(s.queues, held, s.mqs, Worker, ph);
      match PollStep(s.queues, s.mqs, Worker, ph)
      case PollFault =>
      case Polled(queues, ph') => MoveUnseen(p, s, held, queues, Polling(ph'), 0);
    }
  }

  lemma IdleUnseen(p: Pool, s: Pool, held: map<Qid, Held>, c: Client)
    requires Shows(p, s, held) && c in s.polls && ListeningAt(s.mqs, Caller(c), s.polls[c]).None?
    requires DetachingAt(s.mqs, s.polls[c]).Some? ==> DetachingAt(s.mqs, s.polls[c]).value !in held
    ensures c in p.polls && Shows(IdleStep(p, c), IdleStep(s, c), held)
  {
    hide PollStep, Shown, Shows;
    SameMemory(p, s, held);
    if PollDone(s.polls[c], s.mqs) {
      PollsUnseen(p, s, held, s.queues, s.polls - {c}, s.resumeSem + 1);
    } else {
      PollUnseen(s.queues, held, s.mqs, Caller(c), s.polls[c]);
      match PollStep(s.queues, s.mqs, Caller(c), s.polls[c])
      case PollFault =>
      case Polled(queues, ph') => PollsUnseen(p, s, held, queues, s.polls[c := ph'], 0);
    }
  }

  lemma ShownAt(queues: map<Qid, Queue>, held: map<Qid, Held>)
    ensures forall q :: q in Shown(queues, held) <==> q in queues
    ensures forall q :: q in queues && q !in held ==> Shown(queues, held)[q] == queues[q]
  {
  }

  lemma TakeUnseen(p: Pool, s: Pool, held: map<Qid, Held>, q: Qid)
    requires Shows(p, s, held) && q in s.queues && q !in held
    ensures q in p.queues && Shows(Take(p, q).0, Take(s, q).0, held) && Take(p, q).1 == Take(s, q).1
  {
    hide Shown, Shows, Pop;
    SameMemory(p, s, held);
    ShownAt(s.queues, held);
    var (mq, m) := Pop(s.queues[q]);
    if m.Some? {
      ShownChange(s.queues, held, q, mq);
      QueuesUnseen(p, s, held, s.queues[q := mq], s.stage,
                   if q in s.handed then s.handed[q := s.handed[q] + [m.value]] else s.handed);
    }
  }

  lemma PostUnseen(p: Pool, s: Pool, held: map<Qid, Held>, q: Qid)
    requires Shows(p, s, held)
    ensures Shows(PostRequest(p, q), PostRequest(s, q), held)
  {
    hide Shows;
    SameMemory(p, s, held);
    if q in s.stage {
      QueuesUnseen(p, s, held, s.queues, s.stage[q := Answer(s.stage[q])], s.handed);
    }
  }

  lemma AddUnseen(p: Pool, s: Pool, held: map<Qid, Held>, q: Qid)
    requires Shows(p, s, held)
    ensures Shows(HandleAdd(p, q), HandleAdd(s, q), held)
  {
    hide Shown, Shows, InsertPosition, PostRequest;
    SameMemory(p, s, held);
    ShownAt(s.queues, held);
    if q in s.queues && s.mqs != [] {
      var k := InsertPosition(s.mqs, q, 1);
      var mqs := s.mqs[..k] + [q] + s.mqs[k..];
      ListUnseen(p, s, held, mqs, s.worker);
      PostUnseen(p.(mqs := mqs), s.(mqs := mqs), held, q);
    }
  }

  lemma ControlUnseen(p: Pool, s: Pool, held: map<Qid, Held>, body: Body)
    requires Shows(p, s, held)
    ensures Shows(HandleControl(p, body), HandleControl(s, body), held)
  {
    hide Shows, HandleAdd, Erase, PostRequest;
    SameMemory(p, s, held);
    match body
    case Add(q) => AddUnseen(p, s, held, q);
    case Remove(q) =>
      var mqs, pc := Erase(s.mqs, q), Polling(Attaching(0, []));
      ListUnseen(p, s, held, mqs, pc);
      PostUnseen(p.(mqs := mqs, worker := pc), s.(mqs := mqs, worker := pc), held, q);
    case Terminate => MoveUnseen(p, s, held, s.queues, Halted, 0);
    case Pause => MoveUnseen(p, s, held, s.queues, AwaitResume, s.pauseSem + 1);
    case User(_) =>
  }

  lemma DrainUnseen(p: Pool, s: Pool, held: map<Qid, Held>, snap: seq<Note>)
    requires Shows(p, s, held)
    requires snap != [] && HasData(snap[0]) && snap[0].mq.Some? ==> snap[0].mq.value !in held
    ensures Shows(ControlStep(p, snap), ControlStep(s, snap), held)
  {
    hide Take, HandleControl, HasData, Shown, Shows;
    SameMemory(p, s, held);
    ShownAt(s.queues, held);
    MoveUnseen(p, s, held, s.queues, Tail(snap, 1), 0);
    if snap != [] && HasData(snap[0]) && Usable(s, snap[0]) {
      TakeUnseen(p, s, held, snap[0].mq.value);
      var (s1, m) := Take(s, snap[0].mq.value);
      var p1 := Take(p, snap[0].mq.value).0;
      if m.Some? {
        ControlUnseen(p1, s1, held, m.value.body);
      } else {
        MoveUnseen(p1, s1, held, s.queues, Tail(snap, 1), 0);
      }
    }
  }

  lemma TailUnseen(p: Pool, s: Pool, held: map<Qid, Held>, snap: seq<Note>, i: nat)
    requires Shows(p, s, held)
    requires i < |snap| && HasData(snap[i]) && snap[i].mq.Some? ==> snap[i].mq.value !in held
    ensures Shows(TailStep(p, snap, i), TailStep(s, snap, i), held)
  {
    hide Take, HasData, Shown, Shows;
    SameMemory(p, s, held);
    ShownAt(s.queues, held);
    if |snap| <= i {
      MoveUnseen(p, s, held, s.queues, Polling(Attaching(0, [])), 0);
    } else if !HasData(snap[i]) {
      MoveUnseen(p, s, held, s.queues, Tail(snap, i + 1), 0);
    } else if Usable(s, snap[i]) {
      TakeUnseen(p, s, held, snap[i].mq.value);
      var (s1, m) := Take(s, snap[i].mq.value);
      MoveUnseen(Take(p, snap[i].mq.value).0, s1, held, s.queues, if m.None? then Tail(snap, i + 1) else InHandler(snap, i), 0);
    }
  }

  lemma WorkUnseen(p: Pool, s: Pool, held: map<Qid, Held>, outcome: Outcome)
    requires Shows(p, s, held) && WorkerCanStep(s) && SectionOf(s, Work(outcome)).None?
    requires Needs(s, Work(outcome)).Some? ==> Needs(s, Work(outcome)).value !in held
    ensures WorkerCanStep(p) && Shows(WorkerStep(p, outcome), WorkerStep(s, outcome), held)
  {
    hide WorkerPoll, ControlStep, TailStep, HasData, ListeningAt, DetachingAt, Shows;
    SameMemory(p, s, held);
    match s.worker
    case Polling(ph) => WorkerPollUnseen(p, s, held, ph);
    case ControlDrain(snap) => DrainUnseen(p, s, held, snap);
    case Tail(snap, i) => TailUnseen(p, s, held, snap, i);
    case InHandler(snap, i) => MoveUnseen(p, s, held, s.queues, Tail(snap, if outcome == Ok then i else i + 1), s.resumeSem);
    case AwaitResume => MoveUnseen(p, s, held, s.queues, Polling(Attaching(0, [])), s.resumeSem - 1);
  }

  lemma DeliverUnseen(p: Pool, s: Pool, held: map<Qid, Held>, who: Poller, note: Note)
    requires Shows(p, s, held)
    ensures Shows(Deliver(p, who, note), Deliver(s, who, note), held)
  {
    hide Shown, Shows, NotifyPhase;
    SameMemory(p, s, held);
    match who
    case Worker =>
      if s.worker.Polling? {
        MoveUnseen(p, s, held, s.queues, Polling(NotifyPhase(s.worker.phase, note)), 0);
      }
    case Caller(c) =>
      if c in s.polls {
        PollsUnseen(p, s, held, s.queues, s.polls[c := NotifyPhase(s.polls[c], note)], 0);
      }
  }

  lemma DeleteUnseen(p: Pool, s: Pool, held: map<Qid, Held>, q: Qid)
    requires Shows(p, s, held) && q in s.stage && q !in held
    ensures q in p.stage && Shows(DeleteQueue(p, q), DeleteQueue(s, q), held)
  {
    hide Deliver, MessageQueueModel.Destroy, Shown, Shows;
    SameMemory(p, s, held);
    ShownAt(s.queues, held);
    if q in s.queues {
      ShownChange(s.queues, held, q, s.queues[q]);
      QueuesUnseen(p, s, held, s.queues - {q}, s.stage - {q}, s.handed);
      var notices: seq<Notice<Poller, Qid>> := MessageQueueModel.Destroy(s.queues[q]);
      if notices != [] {
        DeliverUnseen(p.(queues := p.queues - {q}, stage := p.stage - {q}), s.(queues := s.queues - {q}, stage := s.stage - {q}),
                      held, notices[0].to, notices[0].rec);
      }
    }
  }

  /** A step that notifies nobody is the same step in the pool. */
  lemma WholeUnseen(p: Pool, s: Pool, held: map<Qid, Held>, l: Label)
    requires Shows(p, s, held) && Enabled(s, l) && SectionOf(s, l).None?
    requires Needs(s, l).Some? ==> Needs(s, l).value !in held
    ensures Enabled(p, l) && Shows(Next(p, l), Next(s, l), held)
  {
    hide WorkerStep, IdleStep, DeleteQueue, Shown;
    match l
    case EndRemove(q) => DeleteUnseen(p, s, held, q);
    case PollIdle(c) => IdleUnseen(p, s, held, c);
    case Work(outcome) => WorkUnseen(p, s, held, outcome);
    case _ =>
  }

  /** What decides whether and where a step locks does not look into queues. */
  lemma SameChoice(p: Pool, s: Pool, held: map<Qid, Held>, l: Label)
    requires Shows(p, s, held)
    ensures Enabled(p, l) == Enabled(s, l) && SectionOf(p, l) == SectionOf(s, l) && Needs(p, l) == Needs(s, l)
  {
    hide Shown;
  }

  // ---------- finishing a call is the pool's step ----------

  lemma NextIsPush(s: Pool, l: Label, q: Qid, body: Body)
    requires Enabled(s, l) && SectionOf(s, l) == Some(Pushing(q, body))
    ensures Next(s, l) == PushTo(Besides(s, l), q, body)
  {
    hide PushTo;
  }

  lemma FreshSlot(s: Pool)
    requires PollInv(s)
    ensures s.slots !in s.queues
  {
  }

  /** What a call does besides its push commutes with what others hold; the queue itself is
      shown as the push leaves it. */
  lemma BesidesShown(p: Pool, s: Pool, held: map<Qid, Held>, l: Label, q: Qid, queue: Queue)
    requires q in held && (forall x :: x in held ==> x in s.queues) && s.slots !in s.queues
    requires Shows(p, s, held) && queue == held[q].result.queue
    ensures q in Besides(s, l).queues && Besides(s, l).queues[q] == s.queues[q]
    ensures var s1 := Besides(s, l); Shows(Besides(p, l), s1.(queues := s1.queues[q := queue]), held - {q})
  {
    hide Shown;
    ShownFinished(s.queues, held, q, s.slots, Mq(s.slots, [], None));
  }

  lemma ShownFinished(queues: map<Qid, Queue>, held: map<Qid, Held>, q: Qid, n: Qid, x: Queue)
    requires q in held && (forall x :: x in held ==> x in queues) && n !in queues
    ensures Shown(queues, held) == Shown(queues[q := held[q].result.queue], held - {q})
    ensures Shown(queues, held)[n := x] == Shown(queues[n := x][q := held[q].result.queue], held - {q})
  {
  }

  lemma PushFinishes(p: Pool, s: Pool, held: map<Qid, Held>, q: Qid)
    requires Shows(p, s, held) && PollInv(s) && q in held && Underway(s, q, held[q]) && held[q].section.Pushing?
    requires forall x :: x in held ==> x in s.queues
    ensures Shows(Finished(p, held[q]), Next(s, held[q].call), held - {q})
  {
    hide Deliver, Shown, PollInv, Next, Enabled, SectionOf, Besides;
    var h := held[q];
    var r, m := h.result, Message(s.queues[q].id, h.section.body);
    FreshSlot(s);
    NextIsPush(s, h.call, q, h.section.body);
    BesidesShown(p, s, held, h.call, q, r.queue);
    var s1, p1 := Besides(s, h.call), Besides(p, h.call);
    var pushed := if r.status == Success && q in s1.pushed then s1.pushed[q := s1.pushed[q] + [m]] else s1.pushed;
    if r.notices != [] {
      DeliverUnseen(p1.(pushed := pushed), s1.(queues := s1.queues[q := r.queue], pushed := pushed), held - {q},
                    r.notices[0].to, r.notices[0].rec);
    }
  }

  lemma ListenFinishes(p: Pool, s: Pool, held: map<Qid, Held>, q: Qid)
    requires Shows(p, s, held) && q in held && Underway(s, q, held[q]) && held[q].section.Listening?
    ensures Shows(Finished(p, held[q]), Next(s, held[q].call), held - {q})
  {
    var h := held[q];
    assert p.queues == Shown(s.queues[q := h.result.queue], held - {q});
    hide Shown, Notify;
    match h.section.who
    case Worker =>
      assert h.call.Work? && s.worker.Polling?;
      var ph := Polling(Told(s.worker.phase, h.result.notices));
      assert Finished(p, h) == p.(worker := ph);
      assert Next(s, h.call) == s.(queues := s.queues[q := h.result.queue], worker := ph);
    case Caller(c) =>
      assert h.call == PollIdle(c) && c in s.polls;
      var ph := Told(s.polls[c], h.result.notices);
      assert Finished(p, h) == p.(polls := p.polls[c := ph]);
      assert Next(s, h.call) == s.(queues := s.queues[q := h.result.queue], polls := s.polls[c := ph]);
  }

  // ---------- a call under way stays so ----------

  /** The step neither locks nor needs the queue. */
  ghost predicate Apart(s: Pool, l: Label, q: Qid) {
    && (SectionOf(s, l).Some? ==> SectionOf(s, l).value.q != q)
    && (Needs(s, l).Some? ==> Needs(s, l).value != q)
  }

  ghost predicate Kept(s: Pool, s': Pool, q: Qid) {
    q in s.queues ==> q in s'.queues && s'.queues[q] == s.queues[q]
  }

  lemma PushKeepsQueue(s: Pool, t: Qid, body: Body, q: Qid)
    requires q != t
    ensures Kept(s, PushTo(s, t, body), q)
  {
    hide Deliver, MessageQueueModel.Push;
    if t in s.queues {
      var m := Message(s.queues[t].id, body);
      var r: Result<Body, Poller, Qid> := MessageQueueModel.Push(s.queues[t], t, Some(m));
      if r.notices != [] {
        DeliverFrame(s.(queues := s.queues[t := r.queue],
                        pushed := if r.status == Success && t in s.pushed then s.pushed[t := s.pushed[t] + [m]] else s.pushed),
                     r.notices[0].to, r.notices[0].rec);
      }
    }
  }

  lemma PollKeepsQueue(queues: map<Qid, Queue>, mqs: seq<Qid>, who: Poller, ph: Phase, q: Qid)
    requires !PollDone(ph, mqs)
    requires ListeningAt(mqs, who, ph).Some? ==> ListeningAt(mqs, who, ph).value.q != q
    requires DetachingAt(mqs, ph).Some? ==> DetachingAt(mqs, ph).value != q
    ensures match PollStep(queues, mqs, who, ph)
            case PollFault => true
            case Polled(queues', _) => q in queues ==> q in queues' && queues'[q] == queues[q]
  {
    hide Notify;
  }

  lemma DrainKeepsQueue(s: Pool, snap: seq<Note>, q: Qid)
    requires snap != [] && HasData(snap[0]) && snap[0].mq.Some? ==> snap[0].mq.value != q
    ensures Kept(s, ControlStep(s, snap), q)
  {
    hide HandleControl, HasData;
    if snap != [] && HasData(snap[0]) && Usable(s, snap[0]) {
      var (s1, m) := Take(s, snap[0].mq.value);
      if m.Some? {
        ControlKeepsQueues(s1, m.value.body);
      }
    }
  }

  lemma TailKeepsQueue(s: Pool, snap: seq<Note>, i: nat, q: Qid)
    requires i < |snap| && HasData(snap[i]) && snap[i].mq.Some? ==> snap[i].mq.value != q
    ensures Kept(s, TailStep(s, snap, i), q)
  {
    hide HasData;
  }

  lemma WorkKeepsQueue(s: Pool, outcome: Outcome, q: Qid)
    requires WorkerCanStep(s) && Apart(s, Work(outcome), q)
    ensures Kept(s, WorkerStep(s, outcome), q)
  {
    hide PollStep, ControlStep, TailStep, HasData, ListeningAt, DetachingAt;
    match s.worker
    case Polling(ph) =>
      if !PollDone(ph, s.mqs) {
        PollKeepsQueue(s.queues, s.mqs, Worker, ph, q);
      }
    case ControlDrain(snap) => DrainKeepsQueue(s, snap, q);
    case Tail(snap, i) => TailKeepsQueue(s, snap, i, q);
    case _ =>
  }

  lemma NextKeepsQueue(s: Pool, l: Label, q: Qid)
    requires Inv(s) && Enabled(s, l) && Apart(s, l, q) && q in s.queues
    ensures Kept(s, Next(s, l), q)
  {
    hide PushTo, WorkerStep, PollStep, DeleteQueue, ListeningAt, DetachingAt, Create, PollInv, RequestInv;
    match l
    case EndRemove(t) => EndRemoveKeepsInv(s, t);
    case PollIdle(c) =>
      NeedsOfPoll(s, c);
      if !PollDone(s.polls[c], s.mqs) {
        PollKeepsQueue(s.queues, s.mqs, Caller(c), s.polls[c], q);
      }
    case Work(outcome) => WorkKeepsQueue(s, outcome, q);
    case EndAllocate(_) =>
    case EnterIdle(_) =>
    case _ =>
      NextIsPush(s, l, SectionOf(s, l).value.q, SectionOf(s, l).value.body);
      BesidesKeeps(s, l, q);
      PushKeepsQueue(Besides(s, l), SectionOf(s, l).value.q, SectionOf(s, l).value.body, q);
  }

  lemma NeedsOfPoll(s: Pool, c: Client)
    requires c in s.polls
    ensures Needs(s, PollIdle(c)) == DetachingAt(s.mqs, s.polls[c])
  {
  }

  lemma BesidesKeeps(s: Pool, l: Label, q: Qid)
    requires PollInv(s) && q in s.queues
    ensures q in Besides(s, l).queues && Besides(s, l).queues[q] == s.queues[q]
  {
  }

  /** A notification does not move the poll that it is for. */
  lemma DeliverKeepsListening(s: Pool, to: Poller, note: Note, who: Poller)
    requires Deliver(s, to, note).worker != Fault
    ensures ListeningOf(Deliver(s, to, note), who) == ListeningOf(s, who)
  {
    hide Notify;
    match to
    case Worker => assert Deliver(s, to, note) == s.(worker := Polling(NotifyPhase(s.worker.phase, note)));
    case Caller(c) => assert Deliver(s, to, note) == s.(polls := s.polls[c := NotifyPhase(s.polls[c], note)]);
  }

  lemma PushKeepsListening(s: Pool, t: Qid, body: Body, who: Poller)
    requires PushTo(s, t, body).worker != Fault
    ensures ListeningOf(PushTo(s, t, body), who) == ListeningOf(s, who)
  {
    hide MessageQueueModel.Push, Deliver, ListeningAt;
    var m := Message(s.queues[t].id, body);
    var r: Result<Body, Poller, Qid> := MessageQueueModel.Push(s.queues[t], t, Some(m));
    if r.notices != [] {
      DeliverKeepsListening(s.(queues := s.queues[t := r.queue],
                               pushed := if r.status == Success && t in s.pushed then s.pushed[t := s.pushed[t] + [m]] else s.pushed),
                            r.notices[0].to, r.notices[0].rec, who);
    }
  }

  lemma RequestKeepsListening(s: Pool, l: Label, who: Poller)
    requires Enabled(s, l) && SectionOf(s, l).Some? && SectionOf(s, l).value.Pushing? && Next(s, l).worker != Fault
    ensures ListeningOf(Next(s, l), who) == ListeningOf(s, who)
  {
    hide PushTo, Create, ListeningAt, Next, Enabled;
    NextIsPush(s, l, SectionOf(s, l).value.q, SectionOf(s, l).value.body);
    BesidesKeepsPolls(s, l);
    PushKeepsListening(Besides(s, l), SectionOf(s, l).value.q, SectionOf(s, l).value.body, who);
  }

  lemma BesidesKeepsPolls(s: Pool, l: Label)
    ensures var s1 := Besides(s, l); s1.worker == s.worker && s1.polls == s.polls && s1.mqs == s.mqs
  {
  }

  /** While a client polls, the worker cannot move. */
  lemma PausedByPoll(s: Pool)
    requires Inv(s) && s.polls != map[]
    ensures s.worker == AwaitResume && s.resumeSem == 0
  {
    hide Inv;
    var c :| c in s.polls;
    PausedWorker(s, c);
  }

  lemma PollKeepsListening(s: Pool, c: Client, who: Poller)
    requires c in s.polls && who != Caller(c) && IdleStep(s, c).worker != Fault
    ensures ListeningOf(IdleStep(s, c), who) == ListeningOf(s, who)
  {
    hide PollStep, ListeningOf;
    if PollDone(s.polls[c], s.mqs) {
      OtherPollKeepsListening(s, s.queues, s.polls - {c}, s.resumeSem + 1, who);
    } else {
      match PollStep(s.queues, s.mqs, Caller(c), s.polls[c])
      case PollFault =>
      case Polled(queues, ph') => OtherPollKeepsListening(s, queues, s.polls[c := ph'], 0, who);
    }
  }

  lemma OtherPollKeepsListening(s: Pool, queues: map<Qid, Queue>, polls: map<Client, Phase>, sem: nat, who: Poller)
    requires match who
             case Worker => true
             case Caller(c) => (c in s.polls <==> c in polls) && (c in polls ==> polls[c] == s.polls[c])
    ensures ListeningOf(s.(polls := polls, resumeSem := sem), who) == ListeningOf(s, who)
    ensures ListeningOf(s.(queues := queues, polls := polls), who) == ListeningOf(s, who)
  {
    hide ListeningAt;
  }

  /** Only the thread that polls takes its poll on. */
  lemma ListeningKept(s: Pool, l: Label, who: Poller)
    requires Inv(s) && Enabled(s, l) && ListeningOf(s, who).Some?
    requires match who case Worker => !l.Work? case Caller(c) => l != PollIdle(c)
    ensures ListeningOf(Next(s, l), who) == ListeningOf(s, who)
  {
    hide Inv, PushTo, WorkerStep, IdleStep, DeleteQueue, ListeningAt, Create;
    NextKeepsInv(s, l);
    NoFault(Next(s, l));
    if SectionOf(s, l).Some? && SectionOf(s, l).value.Pushing? {
      RequestKeepsListening(s, l, who);
    } else if l.EndRemove? {
      EndRemoveKeepsInv(s, l.q);
    } else if l.PollIdle? {
      PollKeepsListening(s, l.client, who);
    } else if l.Work? {
      PausedByPoll(s);
    }
  }

  lemma NoFault(s: Pool)
    requires Inv(s)
    ensures s.worker != Fault
  {
  }

  /** Neither the pool's size nor what its clients have asked for changes. */
  ghost predicate SameAsked(s: Pool, s': Pool) {
    s'.capacity == s.capacity && s'.closing == s.closing && s'.pausing == s.pausing && s'.polls.Keys == s.polls.Keys
  }

  lemma PostKeepsAsked(s: Pool, q: Qid)
    ensures SameAsked(s, PostRequest(s, q))
  {
  }

  lemma ControlKeepsAsked(s: Pool, body: Body)
    ensures SameAsked(s, HandleControl(s, body))
  {
    hide InsertPosition, Erase, PostRequest;
    match body
    case Add(q) =>
      if s.mqs != [] {
        var k := InsertPosition(s.mqs, q, 1);
        PostKeepsAsked(s.(mqs := s.mqs[..k] + [q] + s.mqs[k..]), q);
      }
    case Remove(q) => PostKeepsAsked(s.(mqs := Erase(s.mqs, q), worker := Polling(Attaching(0, []))), q);
    case _ =>
  }

  lemma TakeKeepsAsked(s: Pool, q: Qid)
    requires q in s.queues
    ensures SameAsked(s, Take(s, q).0)
  {
  }

  lemma MoveKeepsAsked(s: Pool, queues: map<Qid, Queue>, pc: Pc, sem: nat)
    ensures SameAsked(s, s.(worker := pc)) && SameAsked(s, s.(queues := queues, worker := pc))
    ensures SameAsked(s, s.(worker := pc, resumeSem := sem))
  {
  }

  lemma AskedComposes(a: Pool, b: Pool, c: Pool)
    requires SameAsked(a, b) && SameAsked(b, c)
    ensures SameAsked(a, c)
  {
  }

  lemma DrainKeepsAsked(s: Pool, snap: seq<Note>)
    ensures SameAsked(s, ControlStep(s, snap))
  {
    hide Take, HandleControl, HasData, SameAsked;
    MoveKeepsAsked(s, s.queues, Fault, 0);
    MoveKeepsAsked(s, s.queues, Tail(snap, 1), 0);
    if snap != [] && Usable(s, snap[0]) {
      TakeKeepsAsked(s, snap[0].mq.value);
      var (s1, m) := Take(s, snap[0].mq.value);
      if m.Some? {
        ControlKeepsAsked(s1, m.value.body);
        AskedComposes(s, s1, HandleControl(s1, m.value.body));
      } else {
        MoveKeepsAsked(s1, s1.queues, Tail(snap, 1), 0);
        AskedComposes(s, s1, s1.(worker := Tail(snap, 1)));
      }
    }
  }

  lemma TailKeepsAsked(s: Pool, snap: seq<Note>, i: nat)
    ensures SameAsked(s, TailStep(s, snap, i))
  {
    hide Take, HasData, SameAsked;
    if |snap| <= i {
      MoveKeepsAsked(s, s.queues, Polling(Attaching(0, [])), 0);
    } else if !HasData(snap[i]) {
      MoveKeepsAsked(s, s.queues, Tail(snap, i + 1), 0);
    } else if !Usable(s, snap[i]) {
      MoveKeepsAsked(s, s.queues, Fault, 0);
    } else {
      TakeKeepsAsked(s, snap[i].mq.value);
      var (s1, m) := Take(s, snap[i].mq.value);
      var pc := if m.None? then Tail(snap, i + 1) else InHandler(snap, i);
      MoveKeepsAsked(s1, s1.queues, pc, 0);
      AskedComposes(s, s1, s1.(worker := pc));
    }
  }

  lemma WorkKeepsAsked(s: Pool, outcome: Outcome)
    requires WorkerCanStep(s)
    ensures SameAsked(s, WorkerStep(s, outcome))
  {
    hide ControlStep, TailStep, WorkerPoll, SameAsked;
    match s.worker
    case Polling(ph) =>
      PollMoves(s, ph);
      MoveKeepsAsked(s, WorkerPoll(s, ph).queues, WorkerPoll(s, ph).worker, 0);
    case ControlDrain(snap) => DrainKeepsAsked(s, snap);
    case Tail(snap, i) => TailKeepsAsked(s, snap, i);
    case InHandler(snap, i) => MoveKeepsAsked(s, s.queues, WorkerStep(s, outcome).worker, 0);
    case AwaitResume => MoveKeepsAsked(s, s.queues, WorkerStep(s, outcome).worker, s.resumeSem - 1);
  }

  lemma PushKeepsAsked(s: Pool, q: Qid, body: Body)
    ensures SameAsked(s, PushTo(s, q, body))
  {
    hide PushTo;
    PushFrame(s, q, body);
    forall c {
      PushKeepsCallers(s, q, body, c);
    }
  }

  /** What a step may change of what clients have asked for. */
  lemma AskedKept(s: Pool, l: Label)
    requires Inv(s) && Enabled(s, l)
    ensures var s' := Next(s, l);
            && s'.capacity == s.capacity
            && (s'.closing == s.closing || l.Destroy?)
            && (s'.pausing == s.pausing || l.BeginIdle? || l.EnterIdle?)
            && (s'.polls.Keys == s.polls.Keys || l.PollIdle? || l.EnterIdle?)
  {
    hide Inv, PushTo, WorkerStep, PollStep, DeleteQueue;
    match l
    case EndRemove(q) => EndRemoveKeepsInv(s, q);
    case PollIdle(_) =>
    case Work(outcome) => WorkKeepsAsked(s, outcome);
    case EndAllocate(_) =>
    case EnterIdle(_) =>
    case _ =>
      NextIsPush(s, l, SectionOf(s, l).value.q, SectionOf(s, l).value.body);
      PushKeepsAsked(Besides(s, l), SectionOf(s, l).value.q, SectionOf(s, l).value.body);
  }

  /** The call that is under way can still be made, and in the same place. */
  lemma CallKept(s: Pool, l: Label, call: Label)
    requires Inv(s) && Enabled(s, l) && Enabled(s, call) && SectionOf(s, call).Some?
    requires Apart(s, l, SectionOf(s, call).value.q) && !SameThread(l, call)
    ensures Enabled(Next(s, l), call) && SectionOf(Next(s, l), call) == SectionOf(s, call)
  {
    hide Inv, Next, ListeningOf, Answers;
    AskedKept(s, l);
    NextStage(s, l);
    match call
    case Work(_) => ListeningKept(s, l, Worker); ListeningWorker(Next(s, l));
    case PollIdle(c) => ListeningKept(s, l, Caller(c)); ListeningCaller(Next(s, l), c);
    case _ => StageKept(s, l, call);
  }

  lemma ListeningWorker(s: Pool)
    requires ListeningOf(s, Worker).Some?
    ensures WorkerCanStep(s)
  {
  }

  lemma ListeningCaller(s: Pool, c: Client)
    requires ListeningOf(s, Caller(c)).Some?
    ensures c in s.polls
  {
  }

  /** A step apart from control's queue makes no request and leaves those who could make one alone. */
  lemma StageKept(s: Pool, l: Label, call: Label)
    requires Inv(s) && Enabled(s, l) && Enabled(s, call) && SectionOf(s, call).Some? && !call.Work? && !call.PollIdle?
    requires Apart(s, l, SectionOf(s, call).value.q)
    ensures Enabled(Next(s, l), call) && SectionOf(Next(s, l), call) == SectionOf(s, call)
  {
    hide Inv, Next, ListeningOf;
    AskedKept(s, l);
    NextStage(s, l);
  }

  lemma UnderwayKept(s: Pool, l: Label, q: Qid, h: Held)
    requires Inv(s) && Enabled(s, l) && Underway(s, q, h) && Apart(s, l, q) && !SameThread(l, h.call)
    ensures Underway(Next(s, l), q, h)
  {
    hide Inv, Next, Enabled, SectionOf, Needs, SameThread, InQueue;
    CallKept(s, l, h.call);
    NextKeepsQueue(s, l, q);
  }

  /** A thread has one call under way. */
  lemma OneCall(s: Pool, held: map<Qid, Held>, q: Qid, r: Qid)
    requires q in held && r in held && Underway(s, q, held[q]) && Underway(s, r, held[r])
    requires SameThread(held[q].call, held[r].call)
    ensures q == r
  {
  }

  // ---------- the machine refines the pool ----------

  /** The step of the pool that a move is: none while the queue is being changed, and the
      call when its listener has been told. */
  function StepOf(m: Machine, move: Move): Option<Label>
    requires move.Finish? ==> move.q in m.held
  {
    match move
    case Lock(_) => None
    case Finish(q) => Some(m.held[q].call)
    case Whole(l) => Some(l)
  }

  lemma LockedExists(s: Pool, l: Label)
    requires Inv(s) && Enabled(s, l) && SectionOf(s, l).Some?
    ensures SectionOf(s, l).value.q in s.queues && Needs(s, l).None?
  {
    hide RequestInv, Delivered, Listeners, Phases, Snapshot;
  }

  lemma LockRefines(m: Machine, s: Pool, l: Label)
    requires Inv(s) && Refines(m, s) && CanMove(m, Lock(l))
    ensures Refines(Moved(m, Lock(l)), s)
  {
    hide Inv, SectionOf, Needs, Enabled, InQueue, SameThread;
    SameChoice(m.pool, s, m.held, l);
    LockedExists(s, l);
    var section := SectionOf(s, l).value;
    var h := Held(l, section, InQueue(s.queues[section.q], section));
    assert Moved(m, Lock(l)).held == m.held[section.q := h];
    assert Shown(s.queues, m.held[section.q := h]) == Shown(s.queues, m.held)[section.q := h.result.queue];
  }

  lemma FinishRefines(m: Machine, s: Pool, q: Qid)
    requires Inv(s) && Refines(m, s) && q in m.held
    ensures Enabled(s, m.held[q].call) && Refines(Moved(m, Finish(q)), Next(s, m.held[q].call))
  {
    hide PollInv, RequestInv, SectionOf, Needs, Enabled, InQueue, Shows, Finished, Next, SameThread;
    var l := m.held[q].call;
    LockedExists(s, l);
    if m.held[q].section.Pushing? {
      PushFinishes(m.pool, s, m.held, q);
    } else {
      ListenFinishes(m.pool, s, m.held, q);
    }
    forall x | x in m.held && x != q
      ensures Underway(Next(s, l), x, m.held[x])
    {
      if SameThread(l, m.held[x].call) {
        OneCall(s, m.held, q, x);
      }
      UnderwayKept(s, l, x, m.held[x]);
    }
  }

  lemma WholeRefines(m: Machine, s: Pool, l: Label)
    requires Inv(s) && Refines(m, s) && CanMove(m, Whole(l))
    ensures Enabled(s, l) && Refines(Moved(m, Whole(l)), Next(s, l))
  {
    hide Inv, SectionOf, Needs, Enabled, InQueue, Shows, Next, SameThread, Underway;
    SameChoice(m.pool, s, m.held, l);
    WholeUnseen(m.pool, s, m.held, l);
    forall x | x in m.held
      ensures Underway(Next(s, l), x, m.held[x])
    {
      UnderwayKept(s, l, x, m.held[x]);
    }
  }

  // ---------- runs ----------

  function InitMachine(capacity: nat): Machine {
    Machine(Init(capacity), map[])
  }

  ghost predicate IsMachineRun(capacity: nat, machines: seq<Machine>, moves: seq<Move>) {
    && capacity + 1 < UNDEFINED_QID
    && |machines| == |moves| + 1
    && machines[0] == InitMachine(capacity)
    && forall i :: 0 <= i < |moves| ==> CanMove(machines[i], moves[i]) && machines[i + 1] == Moved(machines[i], moves[i])
  }

  /** The pool's steps in a run of the machine, each where its listener has been told. */
  ghost function StepsOf(machines: seq<Machine>, moves: seq<Move>): seq<Label>
    requires |machines| == |moves| + 1
    requires forall i :: 0 <= i < |moves| ==> CanMove(machines[i], moves[i])
  {
    if moves == [] then []
    else
      var n := |moves| - 1;
      assert CanMove(machines[n], moves[n]);
      StepsOf(machines[..n + 1], moves[..n])
      + match StepOf(machines[n], moves[n]) case None => [] case Some(l) => [l]
  }

  lemma MoveRefines(m: Machine, move: Move, s: Pool)
    requires Inv(s) && Refines(m, s) && CanMove(m, move)
    ensures match StepOf(m, move)
            case None => Refines(Moved(m, move), s)
            case Some(l) => Enabled(s, l) && Refines(Moved(m, move), Next(s, l))
  {
    hide Inv, Refines, Next, Enabled, Locked, Finished;
    match move
    case Lock(l) => LockRefines(m, s, l);
    case Finish(q) => FinishRefines(m, s, q);
    case Whole(l) => WholeRefines(m, s, l);
  }

  lemma InitRefines(capacity: nat)
    ensures Refines(InitMachine(capacity), Init(capacity))
  {
  }

  /** Every run of the machine is a run of the pool, whose steps are the machine's calls in the
      order in which their listeners are told; when no call is under way memory is the
      pool's state. */
  lemma {:induction false} MachineRefinesPool(capacity: nat, machines: seq<Machine>, moves: seq<Move>) returns (states: seq<Pool>)
    requires IsMachineRun(capacity, machines, moves)
    ensures IsRun(capacity, states, StepsOf(machines, moves))
    ensures var m, s := machines[|moves|], states[|states| - 1];
            Refines(m, s) && m.pool.worker == s.worker != Fault && (m.held == map[] ==> m.pool == s)
    decreases |moves|
  {
    hide Inv, Next, Enabled, Moved, StepOf, Refines, IsRun;
    if moves == [] {
      states := [Init(capacity)];
      InitRefines(capacity);
      RunBegins(capacity);
    } else {
      var n := |moves| - 1;
      states := MachineRefinesPool(capacity, machines[..n + 1], moves[..n]);
      var labels := StepsOf(machines[..n + 1], moves[..n]);
      RunLength(capacity, states, labels);
      var s := states[|states| - 1];
      assert CanMove(machines[n], moves[n]);
      RunInv(capacity, states, labels, |states| - 1);
      MoveRefines(machines[n], moves[n], s);
      if StepOf(machines[n], moves[n]).Some? {
        var l := StepOf(machines[n], moves[n]).value;
        RunGoesOn(capacity, states, labels, l);
        states := states + [Next(s, l)];
      } else {
        assert StepsOf(machines, moves) == labels;
      }
    }
    RunLength(capacity, states, StepsOf(machines, moves));
    RunInv(capacity, states, StepsOf(machines, moves), |states| - 1);
    MemoryIsPool(machines[|moves|], states[|states| - 1]);
  }

  lemma RunLength(capacity: nat, states: seq<Pool>, labels: seq<Label>)
    requires IsRun(capacity, states, labels)
    ensures |states| == |labels| + 1
  {
    hide Next, Enabled;
  }

  lemma RunBegins(capacity: nat)
    requires capacity + 1 < UNDEFINED_QID
    ensures IsRun(capacity, [Init(capacity)], [])
  {
  }

  lemma RunGoesOn(capacity: nat, states: seq<Pool>, labels: seq<Label>, l: Label)
    requires IsRun(capacity, states, labels) && Enabled(states[|states| - 1], l)
    ensures IsRun(capacity, states + [Next(states[|states| - 1], l)], labels + [l])
  {
    hide Next, Enabled;
  }

  lemma MemoryIsPool(m: Machine, s: Pool)
    requires Refines(m, s) && Inv(s)
    ensures m.pool.worker == s.worker != Fault && (m.held == map[] ==> m.pool == s)
  {
    hide Inv, Underway, Shown;
    NoFault(s);
    NothingHeld(s.queues);
  }

  lemma NothingHeld(queues: map<Qid, Queue>)
    ensures Shown(queues, map[]) == queues
  {
  }
}
