/**
 Statements about the past of a run: who answered a request, when an idle answer was taken,
 and what the handlers have been given.
 */
module PoolHistory {
  import opened Notifications
  import opened MessageQueueModel
  import opened PoolModel
  import opened PoolInvariant
  import opened PoolSteps
  import opened PoolWorkerSteps
  import opened PoolHandlerSteps
  import opened PoolTheorems

  // ---------- the registration rendezvous ----------

  /** In step `i` the worker handles a control message and `_mqs` gains or loses `q`. */
  ghost predicate WorkerLists(states: seq<Pool>, i: nat, q: Qid)
    requires i + 1 < |states|
  {
    states[i].worker.ControlDrain? && q !in states[i].mqs && q in states[i + 1].mqs
  }

  ghost predicate WorkerUnlists(states: seq<Pool>, i: nat, q: Qid)
    requires i + 1 < |states|
  {
    && states[i].worker.ControlDrain? && q in states[i].mqs && q !in states[i + 1].mqs
    && states[i + 1].worker == Polling(Attaching(0, []))
  }

  ghost predicate Added(s: Pool, q: Qid) {
    q in s.stage && s.stage[q].Registering? && 0 < s.stage[q].posted
  }

  ghost predicate Removed(s: Pool, q: Qid) {
    q in s.stage && s.stage[q].Unregistering? && 0 < s.stage[q].posted
  }

  lemma StageSaysListed(s: Pool, q: Qid)
    requires Inv(s) && q in s.stage
    ensures q in s.mqs <==> Listed(s.stage[q])
    ensures s.stage[q] != Owned ==> s.stage[q].posted <= 1
  {
    hide Objects, Delivered, Listeners, Phases, Snapshot, Tokens, Closing;
    assert q != CONTROL by { NotControl(s); }
  }

  lemma NotControl(s: Pool)
    requires PollInv(s)
    ensures CONTROL !in s.stage
  {
  }

  /** A request becomes answered only in a step of the worker that lists or unlists the queue. */
  lemma BecomesAnswered(s: Pool, l: Label, q: Qid)
    requires Inv(s) && Enabled(s, l)
    ensures Added(Next(s, l), q) && !Added(s, q) ==>
              s.worker.ControlDrain? && q !in s.mqs && q in Next(s, l).mqs
    ensures Removed(Next(s, l), q) && !Removed(s, q) ==>
              s.worker.ControlDrain? && q in s.mqs && q !in Next(s, l).mqs && Next(s, l).worker == Polling(Attaching(0, []))
  {
    hide Inv, Next;
    NextKeepsInv(s, l);
    NextStage(s, l);
    var s' := Next(s, l);
    if l.Work? && s'.stage != s.stage {
      var x :| Answers(s, s', x);
      StageSaysListed(s, x);
      StageSaysListed(s', x);
    }
  }

  /** An answered registration was answered by the worker, and the queue has been listed since. */
  lemma {:induction false} ListedByWorker(capacity: nat, states: seq<Pool>, labels: seq<Label>, n: nat, q: Qid)
    requires IsRun(capacity, states, labels) && n < |states| && Added(states[n], q)
    ensures exists i :: 0 <= i < n && WorkerLists(states, i, q) && forall j :: i < j <= n ==> q in states[j].mqs
  {
    hide Inv, Next, Enabled;
    assert n > 0;
    RunInv(capacity, states, labels, n - 1);
    RunInv(capacity, states, labels, n);
    StageSaysListed(states[n], q);
    if Added(states[n - 1], q) {
      ListedByWorker(capacity, states, labels, n - 1, q);
    } else {
      BecomesAnswered(states[n - 1], labels[n - 1], q);
      assert WorkerLists(states, n - 1, q);
    }
  }

  lemma {:induction false} UnlistedByWorker(capacity: nat, states: seq<Pool>, labels: seq<Label>, n: nat, q: Qid)
    requires IsRun(capacity, states, labels) && n < |states| && Removed(states[n], q)
    ensures exists i :: 0 <= i < n && WorkerUnlists(states, i, q) && forall j :: i < j <= n ==> q !in states[j].mqs
  {
    hide Inv, Next, Enabled;
    assert n > 0;
    RunInv(capacity, states, labels, n - 1);
    RunInv(capacity, states, labels, n);
    StageSaysListed(states[n], q);
    if Removed(states[n - 1], q) {
      UnlistedByWorker(capacity, states, labels, n - 1, q);
    } else {
      BecomesAnswered(states[n - 1], labels[n - 1], q);
      assert WorkerUnlists(states, n - 1, q);
    }
  }

  /** allocate_queue returns when its semaphore has been posted once, by the worker that put
      the queue into `_mqs`; nobody will post it again. */
  lemma AllocateReturnsListed(capacity: nat, states: seq<Pool>, labels: seq<Label>, n: nat, q: Qid)
    requires IsRun(capacity, states, labels) && n < |labels| && labels[n] == EndAllocate(q)
    ensures states[n].stage[q].posted == 1 && Requests(states[n])[Message(CONTROL, Add(q))] == 0
    ensures q in states[n].mqs && states[n + 1].mqs == states[n].mqs
    ensures exists i :: 0 <= i < n && WorkerLists(states, i, q) && forall j :: i < j <= n ==> q in states[j].mqs
  {
    RunInv(capacity, states, labels, n);
    StageSaysListed(states[n], q);
    ListedByWorker(capacity, states, labels, n, q);
    NoRequestLeft(states[n], q);
  }

  /** remove_queue returns when its semaphore has been posted once, by the worker that took
      the queue out of `_mqs` and dropped its snapshot. */
  lemma RemoveReturnsUnlisted(capacity: nat, states: seq<Pool>, labels: seq<Label>, n: nat, q: Qid)
    requires IsRun(capacity, states, labels) && n < |labels| && labels[n] == EndRemove(q)
    ensures states[n].stage[q].posted == 1 && Requests(states[n])[Message(CONTROL, Remove(q))] == 0
    ensures q !in states[n].mqs
    ensures exists i :: 0 <= i < n && WorkerUnlists(states, i, q) && forall j :: i < j <= n ==> q !in states[j].mqs
  {
    RunInv(capacity, states, labels, n);
    StageSaysListed(states[n], q);
    UnlistedByWorker(capacity, states, labels, n, q);
    NoRequestLeft(states[n], q);
  }

  lemma NoRequestLeft(s: Pool, q: Qid)
    requires Inv(s) && (Added(s, q) || Removed(s, q))
    ensures Requests(s)[Message(CONTROL, Add(q))] == 0 && Requests(s)[Message(CONTROL, Remove(q))] == 0
  {
    hide PollInv, Requests, Tokens, Closing;
  }

  // ---------- the idle answer ----------

  /** The poll of a client inside is_poll_idle took its snapshot in step `i`: the list it had
      then is the one it returns. */
  ghost predicate TakesSnapshot(states: seq<Pool>, labels: seq<Label>, i: nat, c: Client, snap: seq<Note>)
    requires i < |labels| && i < |states|
  {
    labels[i] == PollIdle(c) && c in states[i].polls && states[i].polls[c] == Waiting(snap)
  }

  /** Since step `i` the client has been inside the call whose poll took that snapshot. */
  ghost predicate SinceSnapshot(states: seq<Pool>, i: nat, n: nat, c: Client, snap: seq<Note>)
    requires n < |states|
  {
    forall j :: i < j <= n ==> c in states[j].polls && states[j].polls[c].Detaching? && states[j].polls[c].snap == snap
  }

  lemma SnapshotStep(s: Pool, l: Label, c: Client)
    requires Inv(s) && Enabled(s, l) && c in Next(s, l).polls && Next(s, l).polls[c].Detaching?
    ensures c in s.polls
    ensures var snap := Next(s, l).polls[c].snap;
            || (s.polls[c].Detaching? && s.polls[c].snap == snap)
            || (l == PollIdle(c) && s.polls[c] == Waiting(snap))
  {
    if c in s.polls {
      PollStays(s, l, c);
      if l == PollIdle(c) {
        if !PollDone(s.polls[c], s.mqs) {
          hide PollStep, Attached, PhaseOk, Tokens, ListOk, SnapOk;
          PollIsReady(s, Caller(c), s.polls[c]);
          PollStepKeepsPoll(s.queues, s.mqs, Caller(c), s.polls[c]);
        }
      }
    } else {
      PollBegins(s, l, c);
    }
  }

  lemma {:induction false} SnapshotTaken(capacity: nat, states: seq<Pool>, labels: seq<Label>, n: nat, c: Client)
    requires IsRun(capacity, states, labels) && n < |states| && c in states[n].polls && states[n].polls[c].Detaching?
    ensures exists i :: 0 <= i < n && TakesSnapshot(states, labels, i, c, states[n].polls[c].snap)
              && SinceSnapshot(states, i, n, c, states[n].polls[c].snap)
  {
    hide Inv, Next, Enabled, PollStep;
    assert n > 0;
    RunInv(capacity, states, labels, n - 1);
    SnapshotStep(states[n - 1], labels[n - 1], c);
    if states[n - 1].polls[c].Detaching? {
      SnapshotTaken(capacity, states, labels, n - 1, c);
      var snap := states[n].polls[c].snap;
      var i :| 0 <= i < n - 1 && TakesSnapshot(states, labels, i, c, snap) && SinceSnapshot(states, i, n - 1, c, snap);
      assert SinceSnapshot(states, i, n, c, snap);
    } else {
      assert TakesSnapshot(states, labels, n - 1, c, states[n].polls[c].snap);
      assert SinceSnapshot(states, n - 1, n, c, states[n].polls[c].snap);
    }
  }

  /** What is_poll_idle returns: whether the list of its poll is empty. */
  ghost predicate Idle(ph: Phase)
    requires ph.Detaching?
  {
    ph.snap == []
  }

  ghost predicate AllEmpty(s: Pool) {
    forall q :: q in s.mqs ==> q in s.queues && s.queues[q].msgs == []
  }

  /** is_poll_idle is exact: the poll of this very call took a snapshot, at an instant at which
      the worker was paused and so no handler ran, and the answer is whether all registered
      queues, control among them, were empty at that instant. */
  lemma IdleAnswerIsExact(capacity: nat, states: seq<Pool>, labels: seq<Label>, n: nat, c: Client)
    requires IsRun(capacity, states, labels) && n < |labels|
    requires labels[n] == PollIdle(c) && c in states[n].polls && PollDone(states[n].polls[c], states[n].mqs)
    ensures exists i :: 0 <= i < n && TakesSnapshot(states, labels, i, c, states[n].polls[c].snap)
              && SinceSnapshot(states, i, n, c, states[n].polls[c].snap)
              && states[i].worker == AwaitResume && CONTROL in states[i].mqs
              && (Idle(states[n].polls[c]) <==> AllEmpty(states[i]))
  {
    hide Inv, Next, Enabled, AllEmpty;
    SnapshotTaken(capacity, states, labels, n, c);
    var snap := states[n].polls[c].snap;
    var i :| 0 <= i < n && TakesSnapshot(states, labels, i, c, snap) && SinceSnapshot(states, i, n, c, snap);
    RunInv(capacity, states, labels, i);
    WaitingListIsExact(states[i], c, snap);
  }

  lemma WaitingListIsExact(s: Pool, c: Client, list: seq<Note>)
    requires Inv(s) && c in s.polls && s.polls[c] == Waiting(list)
    ensures s.worker == AwaitResume && CONTROL in s.mqs && (list == [] <==> AllEmpty(s))
  {
    PauseProtocol(s);
    hide Delivered, Listeners, Snapshot, Requested, Tokens, Closing;
    assert ListOk(s.queues, s.mqs, list);
    if list == [] {
      assert forall q :: !HasQid(list, q);
    } else {
      assert HasQid(list, list[0].qid);
    }
  }

  // ---------- exactly once, in order ----------

  /** What a step of a user pushes to `q`. */
  ghost function PushedIn(l: Label, q: Qid): seq<Msg> {
    if l.Push? && l.q == q then [Message(q, User(l.payload))] else []
  }

  /** What a step hands to the user's handler for `q`: the worker pops it from the queue of
      the record it is at. */
  ghost function HandedIn(s: Pool, s': Pool, q: Qid): seq<Msg> {
    if s.worker.Tail? && s'.worker.InHandler? && s.worker.i < |s.worker.snap| && s.worker.snap[s.worker.i].qid == q
       && q in s.queues && s.queues[q].msgs != []
    then [s.queues[q].msgs[0]] else []
  }

  ghost function PushedTo(labels: seq<Label>, q: Qid): seq<Msg> {
    if labels == [] then []
    else PushedTo(labels[..|labels| - 1], q) + PushedIn(labels[|labels| - 1], q)
  }

  ghost function HandedTo(states: seq<Pool>, q: Qid): seq<Msg> {
    if |states| <= 1 then []
    else
      var n := |states| - 1;
      HandedTo(states[..n], q) + HandedIn(states[n - 1], states[n], q)
  }

  /** The histories of `q` grow by `pushed` and `handed`. */
  ghost predicate Grows(s: Pool, s': Pool, q: Qid, pushed: seq<Msg>, handed: seq<Msg>) {
    if q in s.pushed && q in s.handed then
      q in s'.pushed && q in s'.handed && s'.pushed[q] == s.pushed[q] + pushed && s'.handed[q] == s.handed[q] + handed
    else
      pushed == [] && handed == []
      && (q in s'.pushed && q in s'.handed ==> s'.pushed[q] == s'.handed[q] == [])
  }

  lemma PushGrows(s: Pool, x: Qid, body: Body, q: Qid)
    requires PollInv(s) && x in s.queues
    ensures var s' := PushTo(s, x, body);
            && (!s.worker.InHandler? ==> !s'.worker.InHandler?)
            && (s.worker.Tail? ==> s'.worker == s.worker)
            && Grows(s, s', q, if x == q then [Message(q, body)] else [], [])
  {
    hide Registered, Listeners, Phases, Snapshot, PushTo;
    assert x in s.pushed && x in s.handed;
    PushShapeOf(s, x, body);
  }

  lemma PushShapeOf(s: Pool, x: Qid, body: Body)
    requires PollInv(s) && x in s.queues
    ensures x in s.pushed && PushTo(s, x, body) == AfterPush(s, x, body)
  {
    hide Registered, Phases, Snapshot, PushTo, AfterPush;
    PushShape(s, x, body);
  }

  lemma TailGrows(s: Pool, snap: seq<Note>, i: nat, q: Qid)
    requires Inv(s) && s.worker == Tail(snap, i)
    ensures Grows(s, TailStep(s, snap, i), q, [], HandedIn(s, TailStep(s, snap, i), q))
  {
    hide Registered, Listeners, Phases, Requested, Tokens, Closing, Take;
    if i < |snap| {
      RecordIsUsable(s, snap, i);
      TakeShape(s, snap[i].qid);
      assert snap[i].qid in s.handed;
    }
  }

  lemma ControlGrows(s: Pool, snap: seq<Note>, q: Qid)
    requires Inv(s) && s.worker == ControlDrain(snap) && q != CONTROL
    ensures Grows(s, ControlStep(s, snap), q, [], [])
  {
    hide Registered, Listeners, Phases, Requested, Tokens, Closing, Take, HandleControl;
    RecordIsUsable(s, snap, 0);
    TakeShape(s, CONTROL);
    assert CONTROL in s.handed;
    if s.queues[CONTROL].msgs != [] {
      HandleKeepsHistory(AfterTake(s, CONTROL), s.queues[CONTROL].msgs[0].body);
    }
  }

  lemma WorkGrows(s: Pool, outcome: Outcome, q: Qid)
    requires Inv(s) && WorkerCanStep(s) && q != CONTROL
    ensures Grows(s, WorkerStep(s, outcome), q, [], HandedIn(s, WorkerStep(s, outcome), q))
  {
    hide TailStep, ControlStep, WorkerPoll, PollInv, RequestInv;
    PushedIsHanded(s, q);
    match s.worker
    case Polling(ph) => PollFrame(s, ph);
    case ControlDrain(snap) => ControlGrows(s, snap, q);
    case Tail(snap, i) => TailGrows(s, snap, i, q);
    case _ =>
  }

  lemma PushedIsHanded(s: Pool, q: Qid)
    requires PollInv(s)
    ensures q in s.pushed <==> q in s.handed
    ensures q in s.pushed ==> q < s.slots && s.handed[q] <= s.pushed[q]
    ensures q in s.queues ==> q in s.pushed && s.pushed[q] == s.handed[q] + s.queues[q].msgs
  {
    hide Objects, Registered, Listeners, Phases, Snapshot;
  }

  lemma CreateGrows(s: Pool, q: Qid)
    requires PollInv(s)
    ensures Grows(s, Create(s), q, [], [])
  {
    PushedIsHanded(s, q);
  }

  /** Each step adds to the histories of `q` what its label pushes and what it hands over. */
  lemma NextGrows(s: Pool, l: Label, q: Qid)
    requires Inv(s) && Enabled(s, l) && q != CONTROL
    ensures Grows(s, Next(s, l), q, PushedIn(l, q), HandedIn(s, Next(s, l), q))
  {
    hide WorkerStep, PushTo, PollStep, DeleteQueue, PollInv, RequestInv;
    ControlExists(s);
    match l
    case Push(x, payload) => PushGrows(s, x, User(payload), q);
    case BeginAllocate =>
      CreateKeepsPollInv(s);
      CreateGrows(s, q);
      ControlExists(Create(s));
      PushGrows(Create(s), CONTROL, Add(s.slots), q);
    case BeginRemove(x) =>
      StageKeepsPollInv(s, x, Unregistering(0));
      PushGrows(s.(stage := s.stage[x := Unregistering(0)]), CONTROL, Remove(x), q);
    case BeginIdle =>
      CountersKeepPollInv(s, s.pausing + 1, s.closing);
      PushGrows(s.(pausing := s.pausing + 1), CONTROL, Pause, q);
    case Destroy =>
      CountersKeepPollInv(s, s.pausing, true);
      PushGrows(s.(closing := true), CONTROL, Terminate, q);
    case EndRemove(x) =>
      EndRemoveKeepsInv(s, x);
      PushedIsHanded(s, q);
    case Work(outcome) => WorkGrows(s, outcome, q);
    case _ => PushedIsHanded(s, q);
  }

  /** The ghost histories of the state are the histories of the run. */
  lemma {:induction false} HistoriesOfRun(capacity: nat, states: seq<Pool>, labels: seq<Label>, n: nat, q: Qid)
    requires IsRun(capacity, states, labels) && n < |states| && q != CONTROL
    ensures if q in states[n].pushed && q in states[n].handed
            then states[n].pushed[q] == PushedTo(labels[..n], q) && states[n].handed[q] == HandedTo(states[..n + 1], q)
            else PushedTo(labels[..n], q) == HandedTo(states[..n + 1], q) == []
  {
    hide Inv, Next, Enabled, PushedTo, HandedTo, PushedIn, HandedIn;
    HistoriesUnfold(states, labels, n, q);
    if n > 0 {
      HistoriesOfRun(capacity, states, labels, n - 1, q);
      RunInv(capacity, states, labels, n - 1);
      NextGrows(states[n - 1], labels[n - 1], q);
    }
  }

  lemma HistoriesUnfold(states: seq<Pool>, labels: seq<Label>, n: nat, q: Qid)
    requires n <= |labels| < |states|
    ensures n == 0 ==> PushedTo(labels[..n], q) == HandedTo(states[..n + 1], q) == []
    ensures n > 0 ==>
              && PushedTo(labels[..n], q) == PushedTo(labels[..n - 1], q) + PushedIn(labels[n - 1], q)
              && HandedTo(states[..n + 1], q) == HandedTo(states[..n], q) + HandedIn(states[n - 1], states[n], q)
  {
    hide PushedIn, HandedIn;
    if n > 0 {
      assert labels[..n][..n - 1] == labels[..n - 1];
      assert states[..n + 1][..n] == states[..n];
    }
  }

  /** For every run: what users pushed to a queue is what its handler was given, in order,
      followed by what is still queued; nothing is lost when a handler fails or throws, when
      a snapshot is dropped for a restart or a pause, or when the queue is removed. */
  lemma ExactlyOnceInOrder(capacity: nat, states: seq<Pool>, labels: seq<Label>, n: nat, q: Qid)
    requires IsRun(capacity, states, labels) && n < |states| && q != CONTROL
    ensures HandedTo(states[..n + 1], q) <= PushedTo(labels[..n], q)
    ensures q in states[n].queues ==>
              PushedTo(labels[..n], q) == HandedTo(states[..n + 1], q) + states[n].queues[q].msgs
  {
    HistoriesOfRun(capacity, states, labels, n, q);
    RunInv(capacity, states, labels, n);
    PushedIsHanded(states[n], q);
  }
}
