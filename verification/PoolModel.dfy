/**
 The message queue pool: one worker and any number of client threads, as a transition
 system with one step per section that holds a mutex and per semaphore operation.

 A queue is named by its id: the pool never gives the same id to two queues. Control is
 queue 0. The semaphore of a pending add or remove request is named by the request's
 queue. Dereferencing a destroyed queue, notifying a listener that is gone, reading the
 front of an empty list and failing an assertion all lead to `Fault`.
 */
module PoolModel {
  import opened Common
  import opened Notifications
  import opened MessageQueueModel

  type Qid = nat
  type Client = nat

  datatype Body = User(payload: nat) | Terminate | Pause | Add(mq: Qid) | Remove(mq: Qid)

  type Msg = Message<Body>

  const CONTROL: Qid := 0

  /** Who polls: the worker, or a client inside is_poll_idle. Each poll has its own listener. */
  datatype Poller = Worker | Caller(client: Client)

  type Queue = Mq<Body, Poller>
  type Note = Rec<Qid>

  /** Where a poll over `_mqs` stands. */
  datatype Phase =
    | Attaching(k: nat, list: seq<Note>)   // the first k queues have the listener
    | Waiting(list: seq<Note>)             // all have it
    | Detaching(k: nat, snap: seq<Note>)   // the snapshot is taken, the first k have been cleared

  datatype Pc =
    | Polling(phase: Phase)
    | ControlDrain(snap: seq<Note>)            // in handle_notifications (mqlist.front ()) for control
    | Tail(snap: seq<Note>, i: nat)            // at record i of the snapshot
    | InHandler(snap: seq<Note>, i: nat)       // in the user's handler for a message of record i
    | AwaitResume                              // has posted _sem_pause, waits for _sem_resume
    | Halted
    | Fault

  /** A queue's life after creation, and whether its pending request has been answered. */
  datatype Stage = Registering(posted: nat) | Owned | Unregistering(posted: nat)

  datatype Pool = Pool(
    queues: map<Qid, Queue>,   // the queue objects that exist
    mqs: seq<Qid>,             // _mqs
    capacity: nat,             // _handler.size () - 1
    slots: nat,                // _handler[0..slots) are set
    worker: Pc,
    stage: map<Qid, Stage>,    // user queues between creation and the return of remove_queue
    pausing: nat,              // is_poll_idle calls that have pushed their request and wait for _sem_pause
    polls: map<Client, Phase>, // is_poll_idle calls between _sem_pause and _sem_resume
    pauseSem: nat,
    resumeSem: nat,
    closing: bool,             // the pool's destructor has run
    // history
    pushed: map<Qid, seq<Msg>>,
    handed: map<Qid, seq<Msg>>)

  /** What a handler did: returned Success, returned anything else, or threw. */
  datatype Outcome = Ok | Refused | Threw

  datatype Label =
    | Push(q: Qid, payload: nat)
    | BeginAllocate
    | EndAllocate(q: Qid)
    | BeginRemove(q: Qid)
    | EndRemove(q: Qid)
    | BeginIdle
    | EnterIdle(client: Client)
    | PollIdle(client: Client)
    | Destroy
    | Work(outcome: Outcome)

  function Init(capacity: nat): Pool {
    Pool(map[CONTROL := Mq(CONTROL, [], None)], [CONTROL], capacity, 1, Polling(Attaching(0, [])), map[],
         0, map[], 0, 0, false, map[CONTROL := []], map[CONTROL := []])
  }

  function Faulty(s: Pool): Pool {
    s.(worker := Fault)
  }

  // ---------- queues and listeners ----------

  function NotifyPhase(ph: Phase, note: Note): Phase {
    match ph
    case Attaching(k, list) => Attaching(k, Notify(list, note))
    case Waiting(list) => Waiting(Notify(list, note))
    case Detaching(_, _) => ph   // the list has been copied; what comes now is discarded
  }

  function Deliver(s: Pool, who: Poller, note: Note): Pool {
    match who
    case Worker => if s.worker.Polling? then s.(worker := Polling(NotifyPhase(s.worker.phase, note))) else Faulty(s)
    case Caller(c) => if c in s.polls then s.(polls := s.polls[c := NotifyPhase(s.polls[c], note)]) else Faulty(s)
  }

  /** enqueue: makes a message for the queue and pushes it, notifying under the queue's mutex. */
  function PushTo(s: Pool, q: Qid, body: Body): Pool {
    if q !in s.queues then Faulty(s)
    else
      var m := Message(s.queues[q].id, body);
      var r: Result<Body, Poller, Qid> := MessageQueueModel.Push(s.queues[q], q, Some(m));
      var s1 := s.(queues := s.queues[q := r.queue],
                   pushed := if r.status == Success && q in s.pushed then s.pushed[q := s.pushed[q] + [m]] else s.pushed);
      if r.notices == [] then s1 else Deliver(s1, r.notices[0].to, r.notices[0].rec)
  }

  // ---------- polling ----------

  datatype Polled = Polled(queues: map<Qid, Queue>, phase: Phase) | PollFault

  /** One step of poll () over `mqs`, by `who`. At the end of Detaching the poll returns. */
  function PollStep(queues: map<Qid, Queue>, mqs: seq<Qid>, who: Poller, ph: Phase): Polled
    requires !(ph.Detaching? && |mqs| <= ph.k)
  {
    match ph
    case Attaching(k, list) =>
      if |mqs| <= k then Polled(queues, Waiting(list))
      else if mqs[k] !in queues then PollFault
      else
        var r: Result<Body, Poller, Qid> := SetListener(queues[mqs[k]], mqs[k], who);
        Polled(queues[mqs[k] := r.queue],
               Attaching(k + 1, if r.notices == [] then list else Notify(list, r.notices[0].rec)))
    case Waiting(list) => Polled(queues, Detaching(0, list))
    case Detaching(k, snap) =>
      if mqs[k] !in queues then PollFault
      else Polled(queues[mqs[k] := ClearListener(queues[mqs[k]])], Detaching(k + 1, snap))
  }

  predicate PollDone(ph: Phase, mqs: seq<Qid>) {
    ph.Detaching? && |mqs| <= ph.k
  }

  // ---------- the worker ----------

  /** The iterator loop of the add request: the first position after control whose queue
      has an id that is not smaller. */
  function InsertPosition(mqs: seq<Qid>, q: Qid, from: nat): (k: nat)
    requires from <= |mqs|
    ensures from <= k <= |mqs|
    decreases |mqs| - from
  {
    if from < |mqs| && mqs[from] < q then InsertPosition(mqs, q, from + 1) else from
  }

  function Erase(mqs: seq<Qid>, q: Qid): seq<Qid> {
    if mqs == [] then []
    else if mqs[0] == q then mqs[1..]
    else [mqs[0]] + Erase(mqs[1..], q)
  }

  function Answer(stage: Stage): Stage {
    match stage
    case Registering(n) => Registering(n + 1)
    case Owned => Owned
    case Unregistering(n) => Unregistering(n + 1)
  }

  /** Does the record make handle_notifications pop? Neither after closed or detached,
      nor without data. */
  predicate HasData(note: Note) {
    !note.flags.closed && !note.flags.detached && note.flags.data
  }

  /** Posts the semaphore of the request about `q`. */
  function PostRequest(s: Pool, q: Qid): Pool {
    if q in s.stage then s.(stage := s.stage[q := Answer(s.stage[q])]) else Faulty(s)
  }

  function HandleAdd(s: Pool, q: Qid): Pool {
    if q !in s.queues || s.mqs == [] || (exists x :: x in s.mqs && x !in s.queues) then Faulty(s)
    else
      var k := InsertPosition(s.mqs, q, 1);
      if k < |s.mqs| && !(q < s.mqs[k]) then Faulty(s)   // the assertion
      else PostRequest(s.(mqs := s.mqs[..k] + [q] + s.mqs[k..]), q)
  }

  function HandleRemove(s: Pool, q: Qid): Pool {
    PostRequest(s.(mqs := Erase(s.mqs, q), worker := Polling(Attaching(0, []))), q)
  }

  /** control_queue_handler, and what thread_loop makes of its answer. */
  function HandleControl(s: Pool, body: Body): Pool {
    match body
    case Terminate => s.(worker := Halted)
    case Pause => s.(worker := AwaitResume, pauseSem := s.pauseSem + 1)
    case Add(q) => HandleAdd(s, q)
    case Remove(q) => HandleRemove(s, q)
    case User(_) => s
  }

  /** Pops the next message of the queue of a record: handle_notifications' inner loop. */
  function Take(s: Pool, q: Qid): (Pool, Option<Msg>)
    requires q in s.queues
  {
    var (mq, m) := Pop(s.queues[q]);
    if m.None? then (s, None)
    else
      (s.(queues := s.queues[q := mq],
          handed := if q in s.handed then s.handed[q := s.handed[q] + [m.value]] else s.handed), m)
  }

  /** The queue that a record lets the worker pop from, checked as the code checks it. */
  predicate Usable(s: Pool, note: Note) {
    note.mq.Some? && note.qid < s.slots && note.mq.value in s.queues
  }

  function ControlStep(s: Pool, snap: seq<Note>): Pool {
    if snap == [] then Faulty(s)
    else if !HasData(snap[0]) then s.(worker := Tail(snap, 1))
    else if !Usable(s, snap[0]) then Faulty(s)
    else
      var (s1, m) := Take(s, snap[0].mq.value);
      if m.None? then s1.(worker := Tail(snap, 1)) else HandleControl(s1, m.value.body)
  }

  function TailStep(s: Pool, snap: seq<Note>, i: nat): Pool {
    if |snap| <= i then s.(worker := Polling(Attaching(0, [])))
    else if !HasData(snap[i]) then s.(worker := Tail(snap, i + 1))
    else if !Usable(s, snap[i]) then Faulty(s)
    else
      var (s1, m) := Take(s, snap[i].mq.value);
      if m.None? then s1.(worker := Tail(snap, i + 1)) else s1.(worker := InHandler(snap, i))
  }

  predicate WorkerCanStep(s: Pool) {
    match s.worker
    case Polling(Waiting(list)) => list != []
    case AwaitResume => 0 < s.resumeSem
    case Halted => false
    case Fault => false
    case _ => true
  }

  /** A step of the worker's poll (), or its return. */
  function WorkerPoll(s: Pool, ph: Phase): Pool {
    if PollDone(ph, s.mqs) then
      if ph.snap == [] then Faulty(s)   // mqlist.front ()
      else if ph.snap[0].qid == CONTROL then s.(worker := ControlDrain(ph.snap))
      else s.(worker := Tail(ph.snap, 0))
    else
      match PollStep(s.queues, s.mqs, Worker, ph)
      case PollFault => Faulty(s)
      case Polled(queues, ph') => s.(queues := queues, worker := Polling(ph'))
  }

  function WorkerStep(s: Pool, outcome: Outcome): Pool
    requires WorkerCanStep(s)
  {
    match s.worker
    case Polling(ph) => WorkerPoll(s, ph)
    case ControlDrain(snap) => ControlStep(s, snap)
    case Tail(snap, i) => TailStep(s, snap, i)
    case InHandler(snap, i) => s.(worker := Tail(snap, if outcome == Ok then i else i + 1))
    case AwaitResume => s.(worker := Polling(Attaching(0, [])), resumeSem := s.resumeSem - 1)
  }

  // ---------- clients ----------

  predicate Enabled(s: Pool, l: Label) {
    match l
    case Push(q, _) => q in s.stage
    case BeginAllocate => !s.closing && s.slots <= s.capacity
    case EndAllocate(q) => q in s.stage && s.stage[q].Registering? && 0 < s.stage[q].posted
    case BeginRemove(q) => q in s.stage && s.stage[q] == Owned && !s.closing
    case EndRemove(q) => q in s.stage && s.stage[q].Unregistering? && 0 < s.stage[q].posted
    case BeginIdle => !s.closing
    case EnterIdle(c) => 0 < s.pausing && 0 < s.pauseSem && c !in s.polls
    case PollIdle(c) => c in s.polls
    case Destroy => !s.closing && s.stage == map[] && s.pausing == 0 && s.polls == map[]
    case Work(_) => WorkerCanStep(s)
  }

  function Create(s: Pool): Pool {
    s.(queues := s.queues[s.slots := Mq(s.slots, [], None)],
       stage := s.stage[s.slots := Registering(0)],
       pushed := s.pushed[s.slots := []],
       handed := s.handed[s.slots := []],
       slots := s.slots + 1)
  }

  /** A step of poll () inside is_poll_idle; after the last one the worker is resumed. */
  function IdleStep(s: Pool, c: Client): Pool
    requires c in s.polls
  {
    var ph := s.polls[c];
    if PollDone(ph, s.mqs) then s.(polls := s.polls - {c}, resumeSem := s.resumeSem + 1)
    else
      match PollStep(s.queues, s.mqs, Caller(c), ph)
      case PollFault => Faulty(s)
      case Polled(queues, ph') => s.(queues := queues, polls := s.polls[c := ph'])
  }

  /** The destructor of the queue, run when remove_queue has returned. */
  function DeleteQueue(s: Pool, q: Qid): Pool
    requires q in s.stage
  {
    if q !in s.queues then Faulty(s)
    else
      var notices: seq<Notice<Poller, Qid>> := MessageQueueModel.Destroy(s.queues[q]);
      var s1 := s.(queues := s.queues - {q}, stage := s.stage - {q});
      if notices == [] then s1 else Deliver(s1, notices[0].to, notices[0].rec)
  }

  function Next(s: Pool, l: Label): Pool
    requires Enabled(s, l)
  {
    match l
    case Push(q, payload) => PushTo(s, q, User(payload))
    case BeginAllocate => PushTo(Create(s), CONTROL, Add(s.slots))
    case EndAllocate(q) => s.(stage := s.stage[q := Owned])
    case BeginRemove(q) => PushTo(s.(stage := s.stage[q := Unregistering(0)]), CONTROL, Remove(q))
    case EndRemove(q) => DeleteQueue(s, q)
    case BeginIdle => PushTo(s.(pausing := s.pausing + 1), CONTROL, Pause)
    case EnterIdle(c) =>
      s.(pausing := s.pausing - 1, pauseSem := s.pauseSem - 1, polls := s.polls[c := Attaching(0, [])])
    case PollIdle(c) => IdleStep(s, c)
    case Destroy => PushTo(s.(closing := true), CONTROL, Terminate)
    case Work(outcome) => WorkerStep(s, outcome)
  }
}
