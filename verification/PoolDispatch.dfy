/**
 What becomes of a snapshot: the worker hands over a queue's messages as long as its handler
 answers Success, leaves the queue when it does not, and comes to every queue of the snapshot.
 */
module PoolDispatch {
  import opened Notifications
  import opened PoolModel
  import opened PoolInvariant
  import opened PoolSteps
  import opened PoolWorkerSteps
  import opened PoolHandlerSteps
  import opened PoolTheorems
  import opened PoolHistory

  /** The worker is in the handler for a message of `q`. */
  ghost predicate Handling(s: Pool, q: Qid) {
    s.worker.InHandler? && s.worker.i < |s.worker.snap| && s.worker.snap[s.worker.i].qid == q
  }

  /** In step `k` the worker's poll takes its snapshot. */
  ghost predicate WorkerSnaps(states: seq<Pool>, labels: seq<Label>, k: nat)
    requires k < |labels| && k < |states|
  {
    labels[k].Work? && states[k].worker.Polling? && states[k].worker.phase.Waiting?
  }

  /** Step `j` hands over a message of `q`. */
  ghost predicate Hands(states: seq<Pool>, j: nat, q: Qid)
    requires j + 1 < |states|
  {
    HandedIn(states[j], states[j + 1], q) != []
  }

  /** Control's next message makes the worker drop its snapshot. */
  ghost predicate Drops(s: Pool) {
    && s.worker.ControlDrain? && CONTROL in s.queues && s.queues[CONTROL].msgs != []
    && var body := s.queues[CONTROL].msgs[0].body; body.Remove? || body.Pause? || body.Terminate?
  }

  // ---------- one step ----------

  /** The worker is where it was, but for the list of a poll that has no snapshot yet. */
  ghost predicate SamePlace(pc: Pc, pc': Pc) {
    pc' == pc || (pc.Polling? && pc'.Polling? && !pc.phase.Detaching? && !pc'.phase.Detaching?)
  }

  lemma PushKeepsWorker(s: Pool, x: Qid, body: Body)
    requires PollInv(s) && x in s.queues
    ensures SamePlace(s.worker, PushTo(s, x, body).worker)
  {
    hide PollInv, PushTo, PollsAfterPush, WithMessage, Notify;
    PushShapeOf(s, x, body);
  }

  /** Only the worker's own steps move it. */
  lemma ClientKeepsWorker(s: Pool, l: Label)
    requires Inv(s) && Enabled(s, l) && !l.Work?
    ensures SamePlace(s.worker, Next(s, l).worker)
  {
    hide PollInv, RequestInv, PushTo, PollStep, DeleteQueue, WorkerStep;
    ControlExists(s);
    match l
    case Push(x, payload) => PushKeepsWorker(s, x, User(payload));
    case BeginAllocate =>
      CreateKeepsPollInv(s);
      ControlExists(Create(s));
      PushKeepsWorker(Create(s), CONTROL, Add(s.slots));
    case BeginRemove(x) =>
      StageKeepsPollInv(s, x, Unregistering(0));
      PushKeepsWorker(s.(stage := s.stage[x := Unregistering(0)]), CONTROL, Remove(x));
    case BeginIdle =>
      CountersKeepPollInv(s, s.pausing + 1, s.closing);
      PushKeepsWorker(s.(pausing := s.pausing + 1), CONTROL, Pause);
    case Destroy =>
      CountersKeepPollInv(s, s.pausing, true);
      PushKeepsWorker(s.(closing := true), CONTROL, Terminate);
    case EndRemove(x) => EndRemoveKeepsInv(s, x);
    case PollIdle(c) => PollKeepsWorker(s, c);
    case _ =>
  }

  lemma PollKeepsWorker(s: Pool, c: Client)
    requires Inv(s) && c in s.polls
    ensures IdleStep(s, c).worker == s.worker
  {
    hide PollInv, PollStep, Tokens;
    if !PollDone(s.polls[c], s.mqs) {
      IdlePollShape(s, c);
    }
  }

  /** Per step, what is in a queue and what is pushed is what is handed over and what is left. */
  lemma QueueGrows(s: Pool, l: Label, q: Qid)
    requires Inv(s) && Enabled(s, l) && q != CONTROL && q in s.queues && q in Next(s, l).queues
    ensures s.queues[q].msgs + PushedIn(l, q) == HandedIn(s, Next(s, l), q) + Next(s, l).queues[q].msgs
  {
    hide Inv, Next, Enabled, PushedIn, HandedIn;
    var s' := Next(s, l);
    NextGrows(s, l, q);
    NextKeepsInv(s, l);
    Histories(s, q);
    Histories(s', q);
    SameRest(s.handed[q], s.queues[q].msgs, PushedIn(l, q), HandedIn(s, s', q), s'.queues[q].msgs);
  }

  lemma SameRest<T>(a: seq<T>, b: seq<T>, c: seq<T>, d: seq<T>, e: seq<T>)
    requires a + b + c == a + d + e
    ensures b + c == d + e
  {
    assert (a + b + c)[|a|..] == b + c;
    assert (a + d + e)[|a|..] == d + e;
  }

  lemma Histories(s: Pool, q: Qid)
    requires Inv(s) && q in s.queues
    ensures q in s.pushed && q in s.handed && s.pushed[q] == s.handed[q] + s.queues[q].msgs
  {
    hide RequestInv, PollInv;
    PushedIsHanded(s, q);
  }

  /** Only the worker hands anything over. */
  lemma OnlyWorkHands(s: Pool, l: Label, q: Qid)
    requires Inv(s) && Enabled(s, l) && !l.Work?
    ensures HandedIn(s, Next(s, l), q) == []
  {
    hide Inv, Next, Enabled;
    if s.worker.Tail? {
      ClientKeepsWorker(s, l);
    }
  }

  /** The worker at a record of its snapshot hands over the oldest message of that queue, or
      goes on to the next record. */
  lemma TailHands(s: Pool, outcome: Outcome)
    requires Inv(s) && s.worker.Tail? && s.worker.i < |s.worker.snap|
    ensures var q, s' := s.worker.snap[s.worker.i].qid, WorkerStep(s, outcome);
            && q in s.queues
            && (forall x :: HandedIn(s, s', x) == if x == q && s.queues[q].msgs != [] then [s.queues[q].msgs[0]] else [])
            && s'.worker == if s.queues[q].msgs != [] then InHandler(s.worker.snap, s.worker.i)
                            else Tail(s.worker.snap, s.worker.i + 1)
  {
    hide Listeners, Phases, RequestInv, Take;
    RecordIsUsable(s, s.worker.snap, s.worker.i);
    TakeShape(s, s.worker.snap[s.worker.i].qid);
  }

  // ---------- after a handler has answered ----------

  /** While only clients step, the worker stays where it is and no queue that it holds loses
      anything. */
  lemma {:induction false} ClientsOnlyAdd(capacity: nat, states: seq<Pool>, labels: seq<Label>, n: nat, m: nat, q: Qid)
    requires IsRun(capacity, states, labels) && n <= m < |states| && forall k :: n <= k < m ==> !labels[k].Work?
    requires states[n].worker.Tail? && states[n].worker.i < |states[n].worker.snap|
    requires q == states[n].worker.snap[states[n].worker.i].qid
    ensures states[m].worker == states[n].worker
    ensures q in states[n].queues && q in states[m].queues && states[n].queues[q].msgs <= states[m].queues[q].msgs
    decreases m - n
  {
    hide Inv, Next, Enabled, PushedIn, HandedIn;
    RunInv(capacity, states, labels, m);
    if n < m {
      ClientsOnlyAdd(capacity, states, labels, n, m - 1, q);
      RunInv(capacity, states, labels, m - 1);
      ClientKeepsWorker(states[m - 1], labels[m - 1]);
      TailExists(states[m], q);
      OnlyWorkHands(states[m - 1], labels[m - 1], q);
      QueueGrows(states[m - 1], labels[m - 1], q);
      assert [] + states[m].queues[q].msgs == states[m].queues[q].msgs;
    } else {
      TailExists(states[n], q);
    }
  }

  /** The records that the worker has yet to come to are of users' queues that exist. */
  lemma TailExists(s: Pool, q: Qid)
    requires Inv(s) && s.worker.Tail? && s.worker.i < |s.worker.snap| && q == s.worker.snap[s.worker.i].qid
    ensures q in s.queues && q != CONTROL
  {
    hide Delivered, Listeners, Phases, RequestInv;
    RecordIsUsable(s, s.worker.snap, s.worker.i);
  }

  lemma HandlerAnswers(s: Pool, q: Qid, l: Label)
    requires Handling(s, q) && l.Work?
    ensures Enabled(s, l)
    ensures var s' := Next(s, l);
            && s'.queues == s.queues
            && s'.worker == Tail(s.worker.snap, if l.outcome == Ok then s.worker.i else s.worker.i + 1)
  {
  }

  /** After a handler has answered Success the worker's next step hands over the oldest message
      of the same queue, if there is one, and nothing else. What was in the queue then is still in
      front. */
  lemma SuccessGoesOn(capacity: nat, states: seq<Pool>, labels: seq<Label>, n: nat, m: nat, q: Qid)
    requires IsRun(capacity, states, labels) && n < m < |labels|
    requires Handling(states[n], q) && labels[n] == Work(Ok)
    requires labels[m].Work? && forall k :: n < k < m ==> !labels[k].Work?
    ensures q in states[n].queues && q in states[m].queues && states[n].queues[q].msgs <= states[m].queues[q].msgs
    ensures var s, s' := states[m], states[m + 1];
            forall x :: HandedIn(s, s', x) == if x == q && s.queues[q].msgs != [] then [s.queues[q].msgs[0]] else []
  {
    hide Inv, Next, Enabled, WorkerStep, HandedIn;
    HandlerAnswers(states[n], q, labels[n]);
    ClientsOnlyAdd(capacity, states, labels, n + 1, m, q);
    RunInv(capacity, states, labels, m);
    TailHands(states[m], labels[m].outcome);
    NextIsWork(states[m], labels[m]);
  }

  lemma NextIsWork(s: Pool, l: Label)
    requires Enabled(s, l) && l.Work?
    ensures WorkerCanStep(s) && Next(s, l) == WorkerStep(s, l.outcome)
  {
  }

  /** So if the queue has messages left, the next message that any step hands over, however many
      clients step in between, is its oldest one. */
  lemma SuccessHandsNext(capacity: nat, states: seq<Pool>, labels: seq<Label>, n: nat, m: nat, q: Qid, x: Qid)
    requires IsRun(capacity, states, labels) && n < m < |labels|
    requires Handling(states[n], q) && labels[n] == Work(Ok) && q in states[n].queues && states[n].queues[q].msgs != []
    requires Hands(states, m, x) && forall k, y :: n < k < m ==> !Hands(states, k, y)
    ensures x == q && HandedIn(states[m], states[m + 1], q) == [states[n].queues[q].msgs[0]]
  {
    hide Inv, Next, Enabled, HandedIn, Handling;
    HandsByWork(capacity, states, labels, m, x);
    var w := FirstWork(labels, n + 1, m);
    SuccessGoesOn(capacity, states, labels, n, w, q);
    assert Hands(states, w, q);
  }

  lemma HandsByWork(capacity: nat, states: seq<Pool>, labels: seq<Label>, m: nat, x: Qid)
    requires IsRun(capacity, states, labels) && m < |labels| && Hands(states, m, x)
    ensures labels[m].Work?
  {
    hide Inv, Next, Enabled, HandedIn;
    RunInv(capacity, states, labels, m);
    if !labels[m].Work? {
      OnlyWorkHands(states[m], labels[m], x);
    }
  }

  lemma FirstWork(labels: seq<Label>, n: nat, m: nat) returns (w: nat)
    requires n <= m < |labels| && labels[m].Work?
    ensures n <= w <= m && labels[w].Work? && forall k :: n <= k < w ==> !labels[k].Work?
  {
    w := n;
    while !labels[w].Work?
      invariant n <= w <= m && forall k :: n <= k < w ==> !labels[k].Work?
      decreases m - w
    {
      w := w + 1;
    }
  }

  /** The worker is past the record at `i` of this snapshot, until it takes another one. */
  ghost predicate Past(s: Pool, snap: seq<Note>, i: nat) {
    match s.worker
    case Polling(ph) => !ph.Detaching?
    case ControlDrain(_) => false
    case Tail(snap', i') => snap' == snap && i < i'
    case InHandler(snap', i') => snap' == snap && i < i'
    case _ => true
  }

  lemma PastStays(s: Pool, l: Label, snap: seq<Note>, i: nat)
    requires Inv(s) && Enabled(s, l) && Past(s, snap, i)
    requires !(l.Work? && s.worker.Polling? && s.worker.phase.Waiting?)
    ensures Past(Next(s, l), snap, i)
  {
    hide Inv, PushTo, DeleteQueue, IdleStep, WorkerStep;
    if l.Work? {
      PastWork(s, l.outcome, snap, i);
    } else {
      ClientKeepsWorker(s, l);
    }
  }

  lemma PastWork(s: Pool, outcome: Outcome, snap: seq<Note>, i: nat)
    requires Inv(s) && WorkerCanStep(s) && Past(s, snap, i) && !(s.worker.Polling? && s.worker.phase.Waiting?)
    ensures Past(WorkerStep(s, outcome), snap, i)
  {
    hide PollInv, RequestInv, TailStep, WorkerPoll;
    if s.worker.Tail? && s.worker.i < |s.worker.snap| {
      TailHands(s, outcome);
    } else if s.worker.Tail? {
      TailEnds(s, s.worker.snap, s.worker.i);
    } else if s.worker.Polling? {
      AttachGoesOn(s, outcome);
    }
  }

  lemma TailEnds(s: Pool, snap: seq<Note>, i: nat)
    requires |snap| <= i
    ensures TailStep(s, snap, i).worker == Polling(Attaching(0, []))
  {
  }

  lemma AttachGoesOn(s: Pool, outcome: Outcome)
    requires Inv(s) && WorkerCanStep(s) && s.worker.Polling? && s.worker.phase.Attaching?
    ensures var pc := WorkerStep(s, outcome).worker; pc.Polling? && !pc.phase.Detaching?
  {
    hide PollInv, RequestInv, WorkerStep, Tokens, Requested, Closing;
    PollParts(s);
    WorkerPollShape(s, outcome);
  }

  lemma PollParts(s: Pool)
    requires Inv(s)
    ensures PollInv(s) && Tokens(s)
  {
  }

  lemma PastHandsNothing(s: Pool, s': Pool, snap: seq<Note>, i: nat)
    requires Inv(s) && Past(s, snap, i) && i < |snap| && Ascending(snap)
    ensures HandedIn(s, s', snap[i].qid) == []
  {
    hide Inv;
  }

  lemma {:induction false} PastUntilSnapshot(capacity: nat, states: seq<Pool>, labels: seq<Label>, n: nat, m: nat,
                                             snap: seq<Note>, i: nat)
    requires IsRun(capacity, states, labels) && n <= m < |states| && Past(states[n], snap, i)
    requires forall k :: n <= k < m ==> !WorkerSnaps(states, labels, k)
    ensures Past(states[m], snap, i)
    decreases m - n
  {
    hide Inv, Next, Enabled, Past;
    if n < m {
      PastUntilSnapshot(capacity, states, labels, n, m - 1, snap, i);
      RunInv(capacity, states, labels, m - 1);
      assert !WorkerSnaps(states, labels, m - 1);
      PastStays(states[m - 1], labels[m - 1], snap, i);
    }
  }

  lemma HandledSnapshot(s: Pool, q: Qid)
    requires Inv(s) && Handling(s, q)
    ensures Ascending(s.worker.snap)
  {
    hide RequestInv, Objects, Registered, Delivered, Listeners, Phases, Ascending;
  }

  /** After a handler has refused or thrown, nothing of its queue is handed over before the
      worker has taken another snapshot. */
  lemma RefusalLeaves(capacity: nat, states: seq<Pool>, labels: seq<Label>, n: nat, m: nat, q: Qid)
    requires IsRun(capacity, states, labels) && n < m < |labels|
    requires Handling(states[n], q) && labels[n].Work? && labels[n].outcome in {Refused, Threw}
    requires Hands(states, m, q)
    ensures exists k :: n < k < m && WorkerSnaps(states, labels, k)
  {
    hide Inv, Next, Enabled, HandedIn, Past, Ascending;
    RunInv(capacity, states, labels, n);
    HandledSnapshot(states[n], q);
    HandlerAnswers(states[n], q, labels[n]);
    var snap, i := states[n].worker.snap, states[n].worker.i;
    assert Past(states[n + 1], snap, i) by { PastAfter(states[n + 1], snap, i); }
    if forall k :: n < k < m ==> !WorkerSnaps(states, labels, k) {
      PastUntilSnapshot(capacity, states, labels, n + 1, m, snap, i);
      RunInv(capacity, states, labels, m);
      PastHandsNothing(states[m], states[m + 1], snap, i);
    }
  }

  lemma PastAfter(s: Pool, snap: seq<Note>, i: nat)
    requires s.worker == Tail(snap, i + 1)
    ensures Past(s, snap, i)
  {
  }

  // ---------- every record of a snapshot ----------

  /** The worker has yet to come to the record at `p` of this snapshot, and that queue has
      messages. */
  ghost predicate Expecting(s: Pool, snap: seq<Note>, p: nat)
    requires p < |snap|
  {
    && snap[p].qid in s.queues && s.queues[snap[p].qid].msgs != []
    && Ahead(s.worker, snap, p)
  }

  ghost predicate Ahead(pc: Pc, snap: seq<Note>, p: nat) {
    match pc
    case Polling(ph) => ph.Detaching? && ph.snap == snap
    case ControlDrain(snap') => snap' == snap
    case Tail(snap', i) => snap' == snap && i <= p
    case InHandler(snap', i) => snap' == snap && i < p
    case _ => false
  }

  lemma ExpectingStays(s: Pool, l: Label, snap: seq<Note>, p: nat)
    requires Inv(s) && Enabled(s, l) && p < |snap| && snap[p].qid != CONTROL && Expecting(s, snap, p)
    requires HandedIn(s, Next(s, l), snap[p].qid) == [] && !(l.Work? && Drops(s))
    ensures Expecting(Next(s, l), snap, p)
  {
    hide Inv, Next, Enabled, HandedIn, Ahead, PushedIn;
    var s', q := Next(s, l), snap[p].qid;
    NextKeepsInv(s, l);
    if l.Work? {
      NextIsWork(s, l);
      AheadWork(s, l.outcome, snap, p);
    } else {
      ClientKeepsWorker(s, l);
      AheadSame(s.worker, s'.worker, snap, p);
    }
    AheadIsAlive(s', snap, p);
    QueueGrows(s, l, q);
    assert [] + s'.queues[q].msgs == s'.queues[q].msgs;
  }

  lemma AheadSame(pc: Pc, pc': Pc, snap: seq<Note>, p: nat)
    requires Ahead(pc, snap, p) && SamePlace(pc, pc')
    ensures Ahead(pc', snap, p)
  {
  }

  lemma AheadIsAlive(s: Pool, snap: seq<Note>, p: nat)
    requires Inv(s) && p < |snap| && Ahead(s.worker, snap, p)
    ensures snap[p].qid in s.queues
  {
    hide RequestInv, Delivered, Listeners;
    assert snap[p] in snap;
  }

  lemma AheadWork(s: Pool, outcome: Outcome, snap: seq<Note>, p: nat)
    requires Inv(s) && WorkerCanStep(s) && p < |snap| && snap[p].qid != CONTROL && Expecting(s, snap, p)
    requires HandedIn(s, WorkerStep(s, outcome), snap[p].qid) == [] && !Drops(s)
    ensures Ahead(WorkerStep(s, outcome).worker, snap, p)
  {
    hide PollInv, RequestInv, TailStep, WorkerPoll, ControlStep, HandedIn;
    match s.worker
    case Polling(ph) => DetachGoesOn(s, outcome);
    case ControlDrain(_) =>
      WorkKeepsInv(s, outcome);
      NotFaulty(WorkerStep(s, outcome));
      DrainGoesOn(s, snap);
    case Tail(_, i) => TailHands(s, outcome);
    case InHandler(_, _) =>
  }

  lemma DetachGoesOn(s: Pool, outcome: Outcome)
    requires Inv(s) && WorkerCanStep(s) && s.worker.Polling? && s.worker.phase.Detaching?
    ensures var snap := s.worker.phase.snap;
            match WorkerStep(s, outcome).worker
            case Polling(ph) => ph.Detaching? && ph.snap == snap
            case ControlDrain(snap') => snap' == snap
            case Tail(snap', i) => snap' == snap && i == 0
            case _ => false
  {
    hide RequestInv, Objects, Registered, Delivered, Listeners, PollStep;
    if !PollDone(s.worker.phase, s.mqs) {
      PollParts(s);
      WorkerPollShape(s, outcome);
    }
  }

  /** Control's messages, those that drop the snapshot excepted, are handled one by one. */
  lemma DrainGoesOn(s: Pool, snap: seq<Note>)
    requires Inv(s) && s.worker == ControlDrain(snap) && !Drops(s) && ControlStep(s, snap).worker != Fault
    ensures var pc := ControlStep(s, snap).worker; snap != [] && snap[0].qid == CONTROL && (pc == s.worker || pc == Tail(snap, 1))
  {
    hide Listeners, Phases, RequestInv, Take, HandleControl;
    RecordIsUsable(s, snap, 0);
    TakeShape(s, CONTROL);
    if s.queues[CONTROL].msgs != [] {
      AddKeepsWorker(AfterTake(s, CONTROL), s.queues[CONTROL].msgs[0].body);
    }
  }

  lemma AddKeepsWorker(s: Pool, body: Body)
    requires body.Add? || body.User?
    ensures var s' := HandleControl(s, body); s'.worker in {Fault, s.worker}
  {
    hide InsertPosition, PostRequest;
    if body.Add? && s.mqs != [] {
      var k := InsertPosition(s.mqs, body.mq, 1);
      PostKeepsWorker(s.(mqs := s.mqs[..k] + [body.mq] + s.mqs[k..]), body.mq);
    }
  }

  lemma PostKeepsWorker(s: Pool, q: Qid)
    ensures PostRequest(s, q).worker in {Fault, s.worker}
  {
  }

  lemma NotFaulty(s: Pool)
    requires Inv(s)
    ensures s.worker != Fault
  {
  }

  /** The list of a poll that takes its snapshot names queues with messages. */
  lemma SnapshotIsLoaded(s: Pool, outcome: Outcome, p: nat)
    requires Inv(s) && WorkerCanStep(s) && s.worker.Polling? && s.worker.phase.Waiting? && p < |s.worker.phase.list|
    ensures Expecting(WorkerStep(s, outcome), s.worker.phase.list, p)
  {
    hide RequestInv, Objects, Delivered, Listeners;
    assert HasQid(s.worker.phase.list, s.worker.phase.list[p].qid);
  }

  lemma {:induction false} ExpectingUntilServed(capacity: nat, states: seq<Pool>, labels: seq<Label>, k: nat, m: nat,
                                                snap: seq<Note>, p: nat)
    requires IsRun(capacity, states, labels) && k <= m < |states| && p < |snap| && snap[p].qid != CONTROL
    requires Expecting(states[k], snap, p)
    requires forall j :: k <= j < m ==> !Hands(states, j, snap[p].qid) && !(labels[j].Work? && Drops(states[j]))
    ensures Expecting(states[m], snap, p)
    decreases m - k
  {
    hide Inv, Next, Enabled, Expecting, HandedIn, Drops;
    if k < m {
      ExpectingUntilServed(capacity, states, labels, k, m - 1, snap, p);
      RunInv(capacity, states, labels, m - 1);
      assert !Hands(states, m - 1, snap[p].qid);
      ExpectingStays(states[m - 1], labels[m - 1], snap, p);
    }
  }

  /** Before the worker takes another snapshot, each user queue of the last one has had a message
      handed over, whatever the handlers answered, unless control's messages asked the worker to
      drop the snapshot: to begin again, to pause or to end. */
  lemma EveryRecordIsServed(capacity: nat, states: seq<Pool>, labels: seq<Label>, k: nat, m: nat, p: nat)
    requires IsRun(capacity, states, labels) && k < m < |labels|
    requires WorkerSnaps(states, labels, k) && WorkerSnaps(states, labels, m)
    requires p < |states[k].worker.phase.list| && states[k].worker.phase.list[p].qid != CONTROL
    ensures exists j :: k < j < m && (Hands(states, j, states[k].worker.phase.list[p].qid) || (labels[j].Work? && Drops(states[j])))
  {
    hide Inv, Next, Enabled, HandedIn, Drops, Expecting, WorkerStep, WorkerCanStep;
    var snap := states[k].worker.phase.list;
    RunInv(capacity, states, labels, k);
    NextIsWork(states[k], labels[k]);
    SnapshotIsLoaded(states[k], labels[k].outcome, p);
    if forall j :: k < j < m ==> !Hands(states, j, snap[p].qid) && !(labels[j].Work? && Drops(states[j])) {
      ExpectingUntilServed(capacity, states, labels, k + 1, m, snap, p);
      WaitingExpectsNothing(states[m], snap, p);
    }
  }

  lemma WaitingExpectsNothing(s: Pool, snap: seq<Note>, p: nat)
    requires p < |snap| && s.worker.Polling? && s.worker.phase.Waiting?
    ensures !Expecting(s, snap, p)
  {
  }

  // ---------- control's messages ----------

  lemma ClientsAddToControl(s: Pool, l: Label)
    requires Inv(s) && Enabled(s, l) && !l.Work?
    ensures CONTROL in s.queues && CONTROL in Next(s, l).queues
    ensures s.queues[CONTROL].msgs <= Next(s, l).queues[CONTROL].msgs
  {
    hide PollInv, RequestInv, PushTo, PollStep, DeleteQueue, WorkerStep;
    ControlExists(s);
    match l
    case Push(x, payload) => PushAdds(s, x, User(payload));
    case BeginAllocate =>
      CreateKeepsPollInv(s);
      ControlExists(Create(s));
      PushAdds(Create(s), CONTROL, Add(s.slots));
      ControlIsOld(s);
    case BeginRemove(x) =>
      StageKeepsPollInv(s, x, Unregistering(0));
      PushAdds(s.(stage := s.stage[x := Unregistering(0)]), CONTROL, Remove(x));
    case BeginIdle =>
      CountersKeepPollInv(s, s.pausing + 1, s.closing);
      PushAdds(s.(pausing := s.pausing + 1), CONTROL, Pause);
    case Destroy =>
      CountersKeepPollInv(s, s.pausing, true);
      PushAdds(s.(closing := true), CONTROL, Terminate);
    case EndRemove(x) => EndRemoveKeepsInv(s, x);
    case PollIdle(c) => PollAdds(s, c);
    case _ =>
  }

  lemma ControlIsOld(s: Pool)
    requires PollInv(s)
    ensures CONTROL != s.slots
  {
  }

  lemma PushAdds(s: Pool, x: Qid, body: Body)
    requires PollInv(s) && x in s.queues && CONTROL in s.queues
    ensures var s' := PushTo(s, x, body); CONTROL in s'.queues && s.queues[CONTROL].msgs <= s'.queues[CONTROL].msgs
  {
    hide PollInv, PushTo, PollsAfterPush, WorkerAfterPush;
    PushShapeOf(s, x, body);
  }

  lemma PollAdds(s: Pool, c: Client)
    requires Inv(s) && c in s.polls && CONTROL in s.queues
    ensures var s' := IdleStep(s, c); CONTROL in s'.queues && s.queues[CONTROL].msgs <= s'.queues[CONTROL].msgs
  {
    hide PollInv, PollStep, Tokens;
    if !PollDone(s.polls[c], s.mqs) {
      IdlePollShape(s, c);
    }
  }

  lemma {:induction false} ClientsKeepControl(capacity: nat, states: seq<Pool>, labels: seq<Label>, n: nat, m: nat)
    requires IsRun(capacity, states, labels) && n <= m < |states| && forall k :: n <= k < m ==> !labels[k].Work?
    requires states[n].worker.ControlDrain?
    ensures states[m].worker == states[n].worker && CONTROL in states[n].queues && CONTROL in states[m].queues
    ensures states[n].queues[CONTROL].msgs <= states[m].queues[CONTROL].msgs
    decreases m - n
  {
    hide Inv, Next, Enabled;
    RunInv(capacity, states, labels, m);
    ControlIsThere(states[m]);
    if n < m {
      ClientsKeepControl(capacity, states, labels, n, m - 1);
      RunInv(capacity, states, labels, m - 1);
      ClientKeepsWorker(states[m - 1], labels[m - 1]);
      ClientsAddToControl(states[m - 1], labels[m - 1]);
    }
  }

  lemma ControlIsThere(s: Pool)
    requires Inv(s)
    ensures CONTROL in s.queues
  {
    hide RequestInv, PollInv;
    ControlExists(s);
  }

  /** What a step does that takes control's next message, unless that drops the snapshot. */
  lemma DrainTakes(s: Pool, outcome: Outcome)
    requires Inv(s) && s.worker.ControlDrain? && !Drops(s) && WorkerStep(s, outcome).worker != Fault
    ensures var s' := WorkerStep(s, outcome);
            && CONTROL in s.queues && CONTROL in s'.queues
            && if s.queues[CONTROL].msgs == [] then s'.worker == Tail(s.worker.snap, 1) && s'.queues == s.queues
               else s'.worker == s.worker && s'.queues[CONTROL].msgs == s.queues[CONTROL].msgs[1..]
  {
    hide Listeners, Phases, RequestInv, Take, HandleControl;
    RecordIsUsable(s, s.worker.snap, 0);
    TakeShape(s, CONTROL);
    if s.queues[CONTROL].msgs != [] {
      AddKeepsWorker(AfterTake(s, CONTROL), s.queues[CONTROL].msgs[0].body);
      ControlKeepsQueues(AfterTake(s, CONTROL), s.queues[CONTROL].msgs[0].body);
    }
  }

  /** Control's messages are taken one after another: after one that does not drop the snapshot the
      worker's next step takes the next one, if there is one by then. */
  lemma ControlGoesOn(capacity: nat, states: seq<Pool>, labels: seq<Label>, n: nat, m: nat)
    requires IsRun(capacity, states, labels) && n < m < |labels|
    requires states[n].worker.ControlDrain? && CONTROL in states[n].queues && states[n].queues[CONTROL].msgs != []
    requires labels[n].Work? && !Drops(states[n])
    requires labels[m].Work? && !Drops(states[m]) && forall k :: n < k < m ==> !labels[k].Work?
    ensures CONTROL in states[m].queues && states[n].queues[CONTROL].msgs[1..] <= states[m].queues[CONTROL].msgs
    ensures states[m].queues[CONTROL].msgs != [] ==>
              CONTROL in states[m + 1].queues && states[m + 1].queues[CONTROL].msgs == states[m].queues[CONTROL].msgs[1..]
  {
    hide Inv, Next, Enabled, WorkerStep, WorkerCanStep, Drops;
    RunInv(capacity, states, labels, n);
    RunInv(capacity, states, labels, n + 1);
    NextIsWork(states[n], labels[n]);
    NotFaulty(states[n + 1]);
    DrainTakes(states[n], labels[n].outcome);
    ClientsKeepControl(capacity, states, labels, n + 1, m);
    RunInv(capacity, states, labels, m);
    RunInv(capacity, states, labels, m + 1);
    NextIsWork(states[m], labels[m]);
    NotFaulty(states[m + 1]);
    DrainTakes(states[m], labels[m].outcome);
  }

  /** A record that says closed or detached is passed over: its address is not followed. */
  lemma StaleIsNotFollowed(s: Pool, outcome: Outcome)
    requires s.worker.Tail? && s.worker.i < |s.worker.snap|
    requires var flags := s.worker.snap[s.worker.i].flags; flags.closed || flags.detached
    ensures Enabled(s, Work(outcome))
    ensures Next(s, Work(outcome)) == s.(worker := Tail(s.worker.snap, s.worker.i + 1))
  {
  }
}
