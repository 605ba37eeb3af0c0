/**
 The inductive invariant of the pool and its preservation by every step.
 */
module PoolInvariant {
  import opened Common
  import opened Notifications
  import opened MessageQueueModel
  import opened PoolModel

  // ---------- the invariant ----------

  /** Is a queue at this stage in `_mqs`? */
  predicate Listed(stage: Stage) {
    match stage
    case Registering(n) => 0 < n
    case Owned => true
    case Unregistering(n) => n == 0
  }

  ghost predicate Increasing(mqs: seq<Qid>) {
    forall i, j :: 0 <= i < j < |mqs| ==> mqs[i] < mqs[j]
  }

  ghost function Requests(s: Pool): multiset<Msg> {
    if CONTROL in s.queues then multiset(s.queues[CONTROL].msgs) else multiset{}
  }

  ghost predicate Pending(s: Pool, q: Qid, stage: Stage) {
    q in s.stage && s.stage[q] == stage
  }

  /** The queue objects, their ids and slots. */
  ghost predicate Objects(s: Pool) {
    && s.queues.Keys == s.stage.Keys + {CONTROL} && CONTROL !in s.stage
    && 1 <= s.slots <= s.capacity + 1 < UNDEFINED_QID
    && forall q :: q in s.queues ==> q < s.slots && s.queues[q].id == q
  }

  /** `_mqs` starts with control, ascends, and lists the queues whose registration has been
      handled and whose removal has not. */
  ghost predicate Registered(s: Pool) {
    && s.mqs != [] && s.mqs[0] == CONTROL && Increasing(s.mqs)
    && forall q :: q in s.mqs <==> q == CONTROL || (q in s.stage && Listed(s.stage[q]))
  }

  /** Each request is in the control queue exactly once until it is answered, exactly once. */
  ghost predicate Requested(s: Pool) {
    && (forall q :: Requests(s)[Message(CONTROL, Add(q))] == if Pending(s, q, Registering(0)) then 1 else 0)
    && (forall q :: Requests(s)[Message(CONTROL, Remove(q))] == if Pending(s, q, Unregistering(0)) then 1 else 0)
    && (forall q :: q in s.stage && s.stage[q].Registering? ==> s.stage[q].posted <= 1)
    && (forall q :: q in s.stage && s.stage[q].Unregistering? ==> s.stage[q].posted <= 1)
  }

  /** The tokens of the pause protocol. */
  ghost predicate Tokens(s: Pool) {
    && s.pausing == Requests(s)[Message(CONTROL, Pause)] + s.pauseSem
    && s.pauseSem + |s.polls| + s.resumeSem == if s.worker == AwaitResume then 1 else 0
  }

  /** The request to end is in the control queue until it is handled, and then the worker has ended. */
  ghost predicate Closing(s: Pool) {
    && (s.closing ==> s.stage == map[] && s.pausing == 0)
    && Requests(s)[Message(CONTROL, Terminate)] + (if s.worker == Halted then 1 else 0) == if s.closing then 1 else 0
  }

  /** Nothing is lost, duplicated or reordered between push and the handler. */
  ghost predicate Delivered(s: Pool) {
    && s.queues.Keys <= s.pushed.Keys && s.pushed.Keys == s.handed.Keys
    && (forall q :: q in s.pushed ==> q < s.slots)
    && (forall q :: q in s.queues ==> s.pushed[q] == s.handed[q] + s.queues[q].msgs)
    && (forall q :: q in s.pushed ==> s.handed[q] <= s.pushed[q])
    && forall q, m :: q in s.queues && m in s.queues[q].msgs ==> m.qid == q
  }

  /** The queues that hold the poll's listener. */
  ghost function Attached(mqs: seq<Qid>, ph: Phase): seq<Qid> {
    match ph
    case Attaching(k, _) => if k <= |mqs| then mqs[..k] else mqs
    case Waiting(_) => mqs
    case Detaching(k, _) => if k <= |mqs| then mqs[k..] else []
  }

  ghost predicate Listeners(s: Pool) {
    && (forall q :: q in s.queues ==>
          (s.queues[q].listener == Some(Worker) <==> s.worker.Polling? && q in Attached(s.mqs, s.worker.phase)))
    && (forall q, c :: q in s.queues ==>
          (s.queues[q].listener == Some(Caller(c)) <==> c in s.polls && q in Attached(s.mqs, s.polls[c])))
  }

  /** A listener's list: exactly those of the queues it is attached to that have messages. */
  ghost predicate ListOk(queues: map<Qid, Queue>, attached: seq<Qid>, list: seq<Note>) {
    && Ascending(list)
    && (forall r :: r in list ==> r.flags == DATA && r.mq == Some(r.qid))
    && (forall q :: HasQid(list, q) <==> q in attached && q in queues && queues[q].msgs != [])
  }

  /** Until the worker handles a snapshot, nobody pops from its queues. */
  ghost predicate Loaded(queues: map<Qid, Queue>, snap: seq<Note>) {
    forall r :: r in snap ==> r.qid in queues && queues[r.qid].msgs != []
  }

  ghost predicate SnapOk(mqs: seq<Qid>, snap: seq<Note>) {
    && Ascending(snap)
    && forall r :: r in snap ==> r.flags == DATA && r.mq == Some(r.qid) && r.qid in mqs
  }

  ghost predicate PhaseOk(queues: map<Qid, Queue>, mqs: seq<Qid>, ph: Phase) {
    match ph
    case Attaching(k, list) => k <= |mqs| && ListOk(queues, mqs[..k], list)
    case Waiting(list) => ListOk(queues, mqs, list)
    case Detaching(k, snap) => k <= |mqs| && SnapOk(mqs, snap) && Loaded(queues, snap)
  }

  ghost predicate Phases(s: Pool) {
    && (s.worker.Polling? ==> PhaseOk(s.queues, s.mqs, s.worker.phase))
    && (s.worker.Polling? && s.worker.phase.Detaching? ==> s.worker.phase.snap != [])
    && forall c :: c in s.polls ==> PhaseOk(s.queues, s.mqs, s.polls[c])
  }

  /** Control is not among the records from `i` on. */
  ghost predicate TailOk(mqs: seq<Qid>, snap: seq<Note>, i: nat) {
    SnapOk(mqs, snap) && i <= |snap| && forall j :: i <= j < |snap| ==> snap[j].qid != CONTROL
  }

  ghost predicate Snapshot(s: Pool) {
    match s.worker
    case ControlDrain(snap) => snap != [] && snap[0].qid == CONTROL && SnapOk(s.mqs, snap)
    case Tail(snap, i) => TailOk(s.mqs, snap, i)
    case InHandler(snap, i) => i < |snap| && TailOk(s.mqs, snap, i)
    case _ => s.worker != Fault
  }

  /** The part about queues and polls, and the part about requests and tokens. */
  ghost predicate PollInv(s: Pool) {
    Objects(s) && Registered(s) && Delivered(s) && Listeners(s) && Phases(s) && Snapshot(s)
  }

  ghost predicate RequestInv(s: Pool) {
    Requested(s) && Tokens(s) && Closing(s)
  }

  ghost predicate Inv(s: Pool) {
    PollInv(s) && RequestInv(s)
  }

  lemma InitInv(capacity: nat)
    requires capacity + 1 < UNDEFINED_QID
    ensures Inv(Init(capacity))
  {
  }

  // ---------- pushing ----------

  ghost function WithMessage(queues: map<Qid, Queue>, q: Qid, body: Body): map<Qid, Queue>
    requires q in queues
  {
    queues[q := queues[q].(msgs := queues[q].msgs + [Message(queues[q].id, body)])]
  }

  /** The poll that a push to `q` notifies. */
  ghost predicate Notified(s: Pool, q: Qid, who: Poller)
    requires q in s.queues
  {
    s.queues[q].msgs == [] && s.queues[q].listener == Some(who)
  }

  ghost function WorkerAfterPush(s: Pool, q: Qid): Pc
    requires q in s.queues
  {
    if Notified(s, q, Worker) && s.worker.Polling? then Polling(NotifyPhase(s.worker.phase, Rec(q, Some(q), DATA))) else s.worker
  }

  ghost function PollsAfterPush(s: Pool, q: Qid): map<Client, Phase>
    requires q in s.queues
  {
    map c | c in s.polls :: if Notified(s, q, Caller(c)) then NotifyPhase(s.polls[c], Rec(q, Some(q), DATA)) else s.polls[c]
  }

  ghost function AfterPush(s: Pool, q: Qid, body: Body): Pool
    requires q in s.queues && q in s.pushed
  {
    s.(queues := WithMessage(s.queues, q, body), pushed := s.pushed[q := s.pushed[q] + [Message(q, body)]],
       worker := WorkerAfterPush(s, q), polls := PollsAfterPush(s, q))
  }

  /** Who a push to `q` would notify is there. */
  lemma PushTargets(s: Pool, q: Qid)
    requires Objects(s) && Listeners(s) && q in s.queues
    ensures s.queues[q].id == q < UNDEFINED_QID
    ensures match s.queues[q].listener
            case None => true
            case Some(Worker) => s.worker.Polling?
            case Some(Caller(c)) => c in s.polls
  {
    if s.queues[q].listener.Some? && s.queues[q].listener.value.Caller? {
      assert s.queues[q].listener == Some(Caller(s.queues[q].listener.value.client));
    }
  }

  /** A push is accepted and finds every listener alive. */
  lemma PushShape(s: Pool, q: Qid, body: Body)
    requires Objects(s) && q in s.queues && q in s.pushed && Listeners(s)
    ensures PushTo(s, q, body) == AfterPush(s, q, body)
  {
    hide NotifyPhase, Notify, Objects, Listeners, PollsAfterPush;
    PushTargets(s, q);
    PollsShape(s, q);
  }

  lemma PollsShape(s: Pool, q: Qid)
    requires q in s.queues
    ensures match s.queues[q].listener
            case Some(Caller(c)) =>
              PollsAfterPush(s, q) == if s.queues[q].msgs == [] && c in s.polls
                                      then s.polls[c := NotifyPhase(s.polls[c], Rec(q, Some(q), DATA))] else s.polls
            case _ => PollsAfterPush(s, q) == s.polls
  {
  }

  lemma NotifyKeepsAttached(mqs: seq<Qid>, ph: Phase, note: Note)
    ensures Attached(mqs, NotifyPhase(ph, note)) == Attached(mqs, ph)
  {
  }

  lemma PushKeepsListeners(s: Pool, q: Qid, body: Body)
    requires q in s.queues && q in s.pushed && Listeners(s)
    ensures Listeners(AfterPush(s, q, body))
  {
    var s', note: Note := AfterPush(s, q, body), Rec(q, Some(q), DATA);
    if s.worker.Polling? {
      NotifyKeepsAttached(s.mqs, s.worker.phase, note);
    }
    forall c | c in s.polls
      ensures Attached(s.mqs, s'.polls[c]) == Attached(s.mqs, s.polls[c])
    {
      NotifyKeepsAttached(s.mqs, s.polls[c], note);
    }
    assert forall x :: x in s.queues ==> s'.queues[x].listener == s.queues[x].listener;
    hide Attached, NotifyPhase;
  }

  /** What a push does to the polls: nothing, or its queue enters one listener's list. */
  lemma PushKeepsPhases(s: Pool, q: Qid, body: Body)
    requires q in s.queues && q in s.pushed && Listeners(s) && Phases(s)
    ensures Phases(AfterPush(s, q, body))
  {
    var s' := AfterPush(s, q, body);
    if s.worker.Polling? {
      PushKeepsPhase(s.queues, s'.queues, s.mqs, s.worker.phase, q);
    }
    forall c | c in s.polls
      ensures PhaseOk(s'.queues, s.mqs, s'.polls[c])
    {
      PushKeepsPhase(s.queues, s'.queues, s.mqs, s.polls[c], q);
    }
    hide PhaseOk;
  }

  lemma PushKeepsPhase(queues: map<Qid, Queue>, queues': map<Qid, Queue>, mqs: seq<Qid>, ph: Phase, q: Qid)
    requires q in queues && queues'.Keys == queues.Keys && PhaseOk(queues, mqs, ph)
    requires queues'[q].msgs != [] && forall x :: x in queues && x != q ==> queues'[x] == queues[x]
    ensures if queues[q].msgs == [] && q in Attached(mqs, ph)
            then PhaseOk(queues', mqs, NotifyPhase(ph, Rec(q, Some(q), DATA)))
            else PhaseOk(queues', mqs, ph)
  {
    var note: Note := Rec(q, Some(q), DATA);
    match ph
    case Attaching(k, list) => PushKeepsList(queues, queues', mqs[..k], list, q);
    case Waiting(list) => PushKeepsList(queues, queues', mqs, list, q);
    case Detaching(_, _) =>
  }

  lemma PushKeepsList(queues: map<Qid, Queue>, queues': map<Qid, Queue>, attached: seq<Qid>, list: seq<Note>, q: Qid)
    requires q in queues && queues'.Keys == queues.Keys && ListOk(queues, attached, list)
    requires queues'[q].msgs != [] && forall x :: x in queues && x != q ==> queues'[x] == queues[x]
    ensures if queues[q].msgs == [] && q in attached
            then ListOk(queues', attached, Notify(list, Rec(q, Some(q), DATA)))
            else ListOk(queues', attached, list)
  {
    if queues[q].msgs == [] && q in attached {
      var note: Note := Rec(q, Some(q), DATA);
      NotifyKeepsAscending(list, note);
      NotifyAddsQid(list, note);
      NotifyRecords(list, note);
    }
  }

  lemma PushKeepsDelivered(s: Pool, q: Qid, body: Body)
    requires Objects(s) && q in s.queues && Delivered(s)
    ensures Delivered(AfterPush(s, q, body))
  {
    var m := Message(q, body);
    assert s.pushed[q] + [m] == s.handed[q] + (s.queues[q].msgs + [m]);
  }

  lemma PushKeepsSnapshot(s: Pool, q: Qid, body: Body)
    requires q in s.queues && q in s.pushed && Snapshot(s)
    ensures var s' := AfterPush(s, q, body);
            Snapshot(s') && (s'.worker == s.worker || (s.worker.Polling? && s'.worker.Polling?))
  {
  }

  lemma PushKeepsRegistry(s: Pool, q: Qid, body: Body)
    requires q in s.queues && q in s.pushed && Objects(s) && Registered(s)
    ensures var s' := AfterPush(s, q, body);
            && Objects(s') && Registered(s') && s'.queues.Keys == s.queues.Keys
  {
  }

  lemma PushAddsRequest(s: Pool, q: Qid, body: Body)
    requires q in s.queues && q in s.pushed && Objects(s)
    ensures var s' := AfterPush(s, q, body);
            && s'.polls.Keys == s.polls.Keys && |s'.polls| == |s.polls|
            && Requests(s') == Requests(s) + if q == CONTROL then multiset{Message(CONTROL, body)} else multiset{}
  {
    var s' := AfterPush(s, q, body);
    assert |s'.polls| == |s'.polls.Keys| && |s.polls| == |s.polls.Keys|;
  }

  /** A push keeps the queues and polls in order; to control it adds one request. */
  lemma PushKeepsPollInv(s: Pool, q: Qid, body: Body)
    requires PollInv(s) && q in s.queues
    ensures var s' := PushTo(s, q, body);
            && PollInv(s')
            && s' == s.(queues := s'.queues, pushed := s'.pushed, worker := s'.worker, polls := s'.polls)
            && s'.polls.Keys == s.polls.Keys && |s'.polls| == |s.polls|
            && (s'.worker == s.worker || (s.worker.Polling? && s'.worker.Polling?))
            && Requests(s') == Requests(s) + if q == CONTROL then multiset{Message(CONTROL, body)} else multiset{}
  {
    hide Listeners, Phases, Snapshot, Objects, Registered, Requests, PushTo;
    PushShape(s, q, body);
    PushKeepsListeners(s, q, body);
    PushKeepsPhases(s, q, body);
    PushKeepsDelivered(s, q, body);
    PushKeepsSnapshot(s, q, body);
    PushKeepsRegistry(s, q, body);
    PushAddsRequest(s, q, body);
  }
}
