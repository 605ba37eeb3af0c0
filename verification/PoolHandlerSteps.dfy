/** What the worker does with a snapshot keeps the invariant, and with it every step of the pool. */
module PoolHandlerSteps {
  import opened Common
  import opened MessageQueueModel
  import opened PoolModel
  import opened PoolInvariant
  import opened PoolSteps
  import opened PoolWorkerSteps

  // ---------- taking a message ----------

  ghost function AfterTake(s: Pool, q: Qid): Pool
    requires q in s.queues && s.queues[q].msgs != [] && q in s.handed
  {
    s.(queues := s.queues[q := s.queues[q].(msgs := s.queues[q].msgs[1..])],
       handed := s.handed[q := s.handed[q] + [s.queues[q].msgs[0]]])
  }

  lemma TakeShape(s: Pool, q: Qid)
    requires Objects(s) && Delivered(s) && q in s.queues
    ensures if s.queues[q].msgs == [] then Take(s, q) == (s, None)
            else Take(s, q) == (AfterTake(s, q), Some(s.queues[q].msgs[0])) && s.queues[q].msgs[0].qid == q
  {
    assert s.queues[q].id == q < UNDEFINED_QID;
  }

  lemma TakeKeepsDelivered(s: Pool, q: Qid)
    requires Delivered(s) && q in s.queues && s.queues[q].msgs != []
    ensures q in s.handed && Delivered(AfterTake(s, q))
  {
    var msgs := s.queues[q].msgs;
    assert s.pushed[q] == (s.handed[q] + [msgs[0]]) + msgs[1..];
  }

  lemma TakeKeepsRegistry(s: Pool, q: Qid)
    requires Objects(s) && Registered(s) && q in s.queues && s.queues[q].msgs != [] && q in s.handed
    ensures Objects(AfterTake(s, q)) && Registered(AfterTake(s, q))
  {
  }

  lemma TakeTakesRequest(s: Pool, q: Qid)
    requires q in s.queues && s.queues[q].msgs != [] && q in s.handed
    ensures Requests(AfterTake(s, q)) ==
              if q == CONTROL then Requests(s) - multiset{s.queues[q].msgs[0]} else Requests(s)
    ensures q == CONTROL ==> s.queues[q].msgs[0] in Requests(s)
  {
    var msgs := s.queues[q].msgs;
    assert msgs == [msgs[0]] + msgs[1..];
  }

  lemma TakeKeepsPolls(s: Pool, q: Qid)
    requires Unwatched(s) && !s.worker.Polling? && Listeners(s) && Snapshot(s)
    requires q in s.queues && s.queues[q].msgs != [] && q in s.handed
    ensures var s' := AfterTake(s, q); Unwatched(s') && Listeners(s') && Phases(s') && Snapshot(s')
  {
    UnwatchedPolls(s);
    UnwatchedPolls(AfterTake(s, q));
  }

  lemma TakeKeepsPollInv(s: Pool, q: Qid)
    requires PollInv(s) && Unwatched(s) && !s.worker.Polling? && q in s.queues && s.queues[q].msgs != []
    ensures q in s.handed && PollInv(AfterTake(s, q)) && Unwatched(AfterTake(s, q))
  {
    hide Requests, Objects, Registered, Listeners, Phases, Snapshot, Delivered;
    TakeKeepsDelivered(s, q);
    TakeKeepsRegistry(s, q);
    TakeKeepsPolls(s, q);
  }

  // ---------- the tail of a snapshot ----------

  lemma NoPollNow(s: Pool)
    requires RequestInv(s) && s.worker != AwaitResume
    ensures s.polls == map[]
  {
    OnePoll(s);
  }

  /** Every record of a snapshot names a queue that exists. */
  lemma RecordIsUsable(s: Pool, snap: seq<Note>, i: nat)
    requires Objects(s) && Registered(s) && SnapOk(s.mqs, snap) && i < |snap|
    ensures HasData(snap[i]) && Usable(s, snap[i]) && snap[i].mq == Some(snap[i].qid)
  {
    assert snap[i] in snap;
  }

  lemma TailKeepsInv(s: Pool, snap: seq<Note>, i: nat)
    requires Inv(s) && s.worker == Tail(snap, i)
    ensures Inv(TailStep(s, snap, i))
  {
    hide Requests, Objects, Registered, Delivered, Listeners, Phases, Requested, Tokens, Closing, Take;
    NoPollNow(s);
    var s' := TailStep(s, snap, i);
    if i < |snap| {
      var q := snap[i].qid;
      RecordIsUsable(s, snap, i);
      TakeShape(s, q);
      if s.queues[q].msgs == [] {
        WorkerMoves(s, s');
      } else {
        TakeKeepsPollInv(s, q);
        TakeTakesRequest(s, q);
        TakeKeepsRequests(s, q);
        WorkerMoves(AfterTake(s, q), s');
      }
    } else {
      WorkerMoves(s, s');
    }
  }

  lemma TakeKeepsRequests(s: Pool, q: Qid)
    requires RequestInv(s) && q in s.queues && s.queues[q].msgs != [] && q in s.handed
    requires Requests(AfterTake(s, q)) == Requests(s)
    ensures RequestInv(AfterTake(s, q))
  {
    hide Requests;
    NoRequest(s, AfterTake(s, q));
  }

  // ---------- requests ----------

  lemma {:induction false} InsertPositionSplits(mqs: seq<Qid>, q: Qid, from: nat)
    requires from <= |mqs| && Increasing(mqs)
    ensures var k := InsertPosition(mqs, q, from);
            && (forall j :: from <= j < k ==> mqs[j] < q)
            && (forall j :: k <= j < |mqs| ==> q <= mqs[j])
    decreases |mqs| - from
  {
    if from < |mqs| && mqs[from] < q {
      InsertPositionSplits(mqs, q, from + 1);
    }
  }

  /** The add request puts a new queue where the order of ids wants it, never before control. */
  lemma InsertKeepsOrder(mqs: seq<Qid>, q: Qid)
    requires mqs != [] && mqs[0] == CONTROL && Increasing(mqs) && q !in mqs
    ensures var k := InsertPosition(mqs, q, 1);
            var mqs' := mqs[..k] + [q] + mqs[k..];
            && (k < |mqs| ==> q < mqs[k])
            && Increasing(mqs') && mqs'[0] == CONTROL
            && forall x :: x in mqs' <==> x in mqs || x == q
  {
    InsertPositionSplits(mqs, q, 1);
    var k := InsertPosition(mqs, q, 1);
    assert k < |mqs| ==> mqs[k] in mqs;
    assert q != mqs[0];
    hide InsertPosition;
    InsertedOrder(mqs, q, k);
  }

  lemma InsertedOrder(mqs: seq<Qid>, q: Qid, k: nat)
    requires Increasing(mqs) && 0 < k <= |mqs|
    requires forall j :: 0 <= j < k ==> mqs[j] < q
    requires forall j :: k <= j < |mqs| ==> q < mqs[j]
    ensures var mqs' := mqs[..k] + [q] + mqs[k..];
            Increasing(mqs') && mqs'[0] == mqs[0] && forall x :: x in mqs' <==> x in mqs || x == q
  {
    assert mqs == mqs[..k] + mqs[k..];
  }

  lemma {:induction false} EraseMembers(mqs: seq<Qid>, q: Qid)
    requires Increasing(mqs)
    ensures forall x :: x in Erase(mqs, q) <==> x in mqs && x != q
  {
    if mqs != [] {
      assert mqs == [mqs[0]] + mqs[1..];
      EraseMembers(mqs[1..], q);
    }
  }

  lemma RestKeepsOrder(mqs: seq<Qid>)
    requires mqs != [] && Increasing(mqs)
    ensures Increasing(mqs[1..]) && forall x :: x in mqs[1..] ==> mqs[0] < x
  {
  }

  lemma ConsKeepsOrder(first: Qid, rest: seq<Qid>)
    requires Increasing(rest) && forall x :: x in rest ==> first < x
    ensures Increasing([first] + rest)
  {
    forall i, j | 0 <= i < j < |rest| + 1
      ensures ([first] + rest)[i] < ([first] + rest)[j]
    {
      assert rest[j - 1] in rest;
    }
  }

  /** The remove request takes exactly its queue out of the order. */
  lemma {:induction false} EraseKeepsOrder(mqs: seq<Qid>, q: Qid)
    requires Increasing(mqs)
    ensures Increasing(Erase(mqs, q))
    ensures forall x :: x in Erase(mqs, q) <==> x in mqs && x != q
    ensures mqs != [] && mqs[0] != q ==> Erase(mqs, q) != [] && Erase(mqs, q)[0] == mqs[0]
  {
    hide Increasing;
    EraseMembers(mqs, q);
    if mqs != [] {
      RestKeepsOrder(mqs);
      EraseKeepsOrder(mqs[1..], q);
      ConsKeepsOrder(mqs[0], Erase(mqs[1..], q));
    }
  }

  /** Control still has its request's place; the rest of the state is as after the take. */
  ghost predicate Taken(s: Pool, s1: Pool, m: Msg) {
    && PollInv(s1) && Unwatched(s1) && s1.worker == s.worker && s1.worker.ControlDrain?
    && s1 == s.(queues := s1.queues, handed := s1.handed) && s1.queues.Keys == s.queues.Keys
    && m in Requests(s) && Requests(s1) == Requests(s) - multiset{m}
  }

  /** A change of `_mqs` that goes with a change of one stage. */
  lemma RegistryChange(s: Pool, s': Pool, q: Qid)
    requires PollInv(s) && Unwatched(s) && s.worker.ControlDrain? && q in s.stage
    requires s' == s.(mqs := s'.mqs, stage := s.stage[q := Answer(s.stage[q])], worker := s'.worker)
    requires s'.mqs != [] && s'.mqs[0] == CONTROL && Increasing(s'.mqs)
    requires forall x :: x != q ==> (x in s'.mqs <==> x in s.mqs)
    requires q in s'.mqs <==> Listed(Answer(s.stage[q]))
    requires (s'.worker == s.worker && q in s'.mqs) || s'.worker == Polling(Attaching(0, []))
    ensures PollInv(s') && Requests(s') == Requests(s)
  {
    hide Increasing, Listed;
    assert s'.stage.Keys == s.stage.Keys;
    UnwatchedPolls(s);
    UnwatchedPolls(s');
  }

  /** A request is about a queue that waits for it. */
  lemma ControlRequest(s: Pool, m: Msg)
    requires Inv(s) && m in Requests(s)
    ensures m.qid == CONTROL
    ensures m.body.Add? ==> Pending(s, m.body.mq, Registering(0))
    ensures m.body.Remove? ==> Pending(s, m.body.mq, Unregistering(0))
  {
    hide Objects, Registered, Listeners, Phases, Snapshot, Tokens, Closing;
    assert m.qid == CONTROL;
    assert m == Message(CONTROL, m.body);
  }

  lemma AddTaken(s: Pool, s1: Pool, q: Qid)
    requires Inv(s) && Taken(s, s1, Message(CONTROL, Add(q)))
    ensures Inv(HandleAdd(s1, q))
  {
    hide Requests, Objects, Delivered, Listeners, Phases, Snapshot, InsertPosition, Requested, Tokens, Closing;
    ControlRequest(s, Message(CONTROL, Add(q)));
    ControlExists(s);
    InsertKeepsOrder(s.mqs, q);
    var s' := HandleAdd(s1, q);
    RegistryChange(s1, s', q);
    RequestAnswered(s, s', q);
  }

  lemma RemoveTaken(s: Pool, s1: Pool, q: Qid)
    requires Inv(s) && Taken(s, s1, Message(CONTROL, Remove(q)))
    ensures Inv(HandleRemove(s1, q))
  {
    hide Requests, Objects, Delivered, Listeners, Phases, Snapshot, Erase, Requested, Tokens, Closing;
    ControlRequest(s, Message(CONTROL, Remove(q)));
    ControlExists(s);
    EraseKeepsOrder(s.mqs, q);
    var s' := HandleRemove(s1, q);
    assert q in s1.stage && s'.mqs == Erase(s.mqs, q) && s'.stage == s.stage[q := Answer(s.stage[q])];
    RegistryChange(s1, s', q);
    RequestAnswered(s, s', q);
  }

  lemma OtherTaken(s: Pool, s1: Pool, body: Body)
    requires Inv(s) && Taken(s, s1, Message(CONTROL, body)) && !body.Add? && !body.Remove?
    ensures Inv(HandleControl(s1, body))
  {
    hide PollInv, Requests, Unwatched;
    var s' := HandleControl(s1, body);
    OtherTakenMoves(s1, body);
    OtherTakenCounts(s, s', body);
  }

  lemma OtherTakenMoves(s1: Pool, body: Body)
    requires PollInv(s1) && Unwatched(s1) && s1.worker.ControlDrain? && !body.Add? && !body.Remove?
    ensures PollInv(HandleControl(s1, body)) && Requests(HandleControl(s1, body)) == Requests(s1)
  {
    hide Requests, Objects, Registered, Delivered, Listeners, Phases;
    MoveKeepsPollInv(s1, HandleControl(s1, body));
  }

  /** The pause request becomes the pause token, and the last request ends the worker. */
  lemma OtherTakenCounts(s: Pool, s': Pool, body: Body)
    requires RequestInv(s) && s.worker.ControlDrain? && s.polls == map[] && !body.Add? && !body.Remove?
    requires Message(CONTROL, body) in Requests(s) && Requests(s') == Requests(s) - multiset{Message(CONTROL, body)}
    requires s'.stage == s.stage && s'.pausing == s.pausing && s'.closing == s.closing && s'.resumeSem == s.resumeSem
    requires s'.pauseSem == s.pauseSem + if body == Pause then 1 else 0
    requires s'.worker == (if body == Terminate then Halted else if body == Pause then AwaitResume else s.worker)
    requires s'.polls == s.polls
    ensures RequestInv(s')
  {
    hide Requests;
    assert |s.polls| == 0;
  }

  lemma ControlKeepsInv(s: Pool, snap: seq<Note>)
    requires Inv(s) && s.worker == ControlDrain(snap)
    ensures Inv(ControlStep(s, snap))
  {
    hide Requests, Objects, Registered, Delivered, Listeners, Phases, Requested, Tokens, Closing, Take, HandleAdd, HandleRemove;
    NoPollNow(s);
    RecordIsUsable(s, snap, 0);
    TakeShape(s, CONTROL);
    var s' := ControlStep(s, snap);
    if s.queues[CONTROL].msgs == [] {
      WorkerMoves(s, s');
    } else {
      var m := s.queues[CONTROL].msgs[0];
      TakeKeepsPollInv(s, CONTROL);
      TakeTakesRequest(s, CONTROL);
      var s1 := AfterTake(s, CONTROL);
      assert Taken(s, s1, m);
      match m.body
      case Add(q) => AddTaken(s, s1, q);
      case Remove(q) => RemoveTaken(s, s1, q);
      case _ => OtherTaken(s, s1, m.body);
    }
  }

  // ---------- every step ----------

  lemma PollReturnKeepsInv(s: Pool, outcome: Outcome)
    requires Inv(s) && s.worker.Polling? && PollDone(s.worker.phase, s.mqs) && WorkerCanStep(s)
    ensures Inv(WorkerStep(s, outcome))
  {
    hide Requests, Objects, Registered, Delivered, Listeners, Requested, Tokens, Closing;
    NoPollNow(s);
    WorkerMoves(s, WorkerStep(s, outcome));
  }

  lemma OtherWorkerStepKeepsInv(s: Pool, outcome: Outcome)
    requires Inv(s) && (s.worker.InHandler? || s.worker.AwaitResume?) && WorkerCanStep(s)
    ensures Inv(WorkerStep(s, outcome))
  {
    hide Requests, Objects, Registered, Delivered, Listeners, Phases, Requested, Closing;
    OnePoll(s);
    assert |s.polls| == 0;
    assert s.polls == map[];
    hide Tokens;
    WorkerMoves(s, WorkerStep(s, outcome));
  }

  lemma WorkKeepsInv(s: Pool, outcome: Outcome)
    requires Inv(s) && WorkerCanStep(s)
    ensures Inv(WorkerStep(s, outcome))
  {
    hide Inv;
    match s.worker
    case Polling(ph) =>
      if PollDone(ph, s.mqs) {
        PollReturnKeepsInv(s, outcome);
      } else {
        WorkerPollKeepsInv(s, outcome);
      }
    case ControlDrain(snap) => ControlKeepsInv(s, snap);
    case Tail(snap, i) => TailKeepsInv(s, snap, i);
    case _ => OtherWorkerStepKeepsInv(s, outcome);
  }

  /** Every step of every client and of the worker, in any interleaving. */
  lemma NextKeepsInv(s: Pool, l: Label)
    requires Inv(s) && Enabled(s, l)
    ensures Inv(Next(s, l))
  {
    hide Inv;
    match l
    case Push(q, payload) => PushUserKeepsInv(s, q, payload);
    case BeginAllocate => AllocateKeepsInv(s);
    case EndAllocate(q) => EndAllocateKeepsInv(s, q);
    case BeginRemove(q) => BeginRemoveKeepsInv(s, q);
    case EndRemove(q) => EndRemoveKeepsInv(s, q);
    case BeginIdle => BeginIdleKeepsInv(s);
    case EnterIdle(c) => EnterIdleKeepsInv(s, c);
    case PollIdle(c) =>
      if PollDone(s.polls[c], s.mqs) {
        IdleReturnKeepsInv(s, c);
      } else {
        IdlePollKeepsInv(s, c);
      }
    case Destroy => DestroyKeepsInv(s);
    case Work(outcome) => WorkKeepsInv(s, outcome);
  }
}
