/** Every step of a client that is not inside a poll keeps the invariant. */
module PoolSteps {
  import opened Common
  import opened MessageQueueModel
  import opened PoolModel
  import opened PoolInvariant

  // ---------- requests and tokens ----------

  /** Nothing moved in the pause protocol. */
  ghost predicate SameTokens(s: Pool, s': Pool) {
    && s'.pauseSem == s.pauseSem && s'.resumeSem == s.resumeSem && |s'.polls| == |s.polls|
    && (s'.worker == AwaitResume <==> s.worker == AwaitResume)
    && (s'.worker == Halted <==> s.worker == Halted)
  }

  /** A request to register or unregister `q` is queued, and the stage of `q` says so. */
  lemma RequestQueued(s: Pool, s': Pool, q: Qid, stage: Stage)
    requires RequestInv(s) && SameTokens(s, s') && !s.closing && !s'.closing && s'.pausing == s.pausing
    requires s'.stage == s.stage[q := stage]
    requires (q !in s.stage && stage == Registering(0)) || (Pending(s, q, Owned) && stage == Unregistering(0))
    requires Requests(s') == Requests(s) + multiset{Message(CONTROL, if stage.Registering? then Add(q) else Remove(q))}
    ensures RequestInv(s')
  {
    hide Requests;
  }

  /** Any other push: it asks for a pause, for the end, or is not a request at all. */
  lemma OtherQueued(s: Pool, s': Pool, body: Body)
    requires RequestInv(s) && SameTokens(s, s') && s'.stage == s.stage
    requires body == Pause || (body == Terminate && !s.closing)
    requires Requests(s') == Requests(s) + multiset{Message(CONTROL, body)}
    requires s'.pausing == s.pausing + if body == Pause then 1 else 0
    requires s'.closing == (s.closing || body == Terminate)
    requires s'.closing ==> s.stage == map[] && s'.pausing == 0
    ensures RequestInv(s')
  {
    hide Requests;
  }

  lemma NoRequest(s: Pool, s': Pool)
    requires RequestInv(s) && SameTokens(s, s')
    requires forall m: Msg :: !m.body.User? ==> Requests(s')[m] == Requests(s)[m]
    requires s'.stage == s.stage && s'.closing == s.closing && s'.pausing == s.pausing
    ensures RequestInv(s')
  {
    hide Requests;
  }

  /** An answered caller returns: its stage goes on, or its queue is gone. */
  lemma AnswerTaken(s: Pool, s': Pool, q: Qid)
    requires RequestInv(s) && SameTokens(s, s') && Requests(s') == Requests(s)
    requires s'.closing == s.closing && s'.pausing == s.pausing
    requires q in s.stage && s.stage[q] != Owned && 0 < s.stage[q].posted
    requires s'.stage == if s.stage[q].Registering? then s.stage[q := Owned] else s.stage - {q}
    ensures RequestInv(s')
  {
    hide Requests, Requested;
    AnswerKeepsRequested(s, s', q);
  }

  lemma AnswerKeepsRequested(s: Pool, s': Pool, q: Qid)
    requires Requested(s) && Requests(s') == Requests(s)
    requires q in s.stage && s.stage[q] != Owned && 0 < s.stage[q].posted
    requires s'.stage == if s.stage[q].Registering? then s.stage[q := Owned] else s.stage - {q}
    ensures Requested(s')
  {
    hide Requests;
  }

  /** The worker takes a request about `q` from the control queue and answers it. */
  lemma RequestAnswered(s: Pool, s': Pool, q: Qid)
    requires RequestInv(s) && SameTokens(s, s') && s'.closing == s.closing && s'.pausing == s.pausing
    requires Pending(s, q, Registering(0)) || Pending(s, q, Unregistering(0))
    requires s'.stage == s.stage[q := Answer(s.stage[q])]
    requires Requests(s') == Requests(s) - multiset{Message(CONTROL, if s.stage[q].Registering? then Add(q) else Remove(q))}
    ensures RequestInv(s')
  {
    hide Requests;
  }

  lemma ControlExists(s: Pool)
    requires PollInv(s)
    ensures CONTROL in s.queues && CONTROL !in s.stage
    ensures forall q :: q in s.stage ==> q in s.queues
  {
  }

  // ---------- client steps ----------

  lemma CreateKeepsPollInv(s: Pool)
    requires PollInv(s) && s.slots <= s.capacity
    ensures PollInv(Create(s)) && Requests(Create(s)) == Requests(s)
    ensures s.slots !in s.stage
  {
    CreateKeepsRegistry(s);
    hide Objects, Registered, Delivered, Requests;
    CreateKeepsPolls(s);
  }

  lemma CreateKeepsRegistry(s: Pool)
    requires Objects(s) && Registered(s) && Delivered(s) && s.slots <= s.capacity
    ensures Objects(Create(s)) && Registered(Create(s)) && Delivered(Create(s)) && Requests(Create(s)) == Requests(s)
    ensures s.slots !in s.stage && s.slots !in s.queues && s.slots !in s.mqs
  {
  }

  lemma CreateKeepsPolls(s: Pool)
    requires PollInv(s) && s.slots !in s.queues && s.slots !in s.mqs
    ensures Listeners(Create(s)) && Phases(Create(s)) && Snapshot(Create(s))
  {
    hide PhaseOk, Attached, Registered, Delivered;
    OtherQueueKeepsPhases(s.queues, Create(s).queues, s.mqs, s.slots);
  }

  /** A queue outside `_mqs` does not matter to a poll. */
  lemma OtherQueueKeepsPhase(queues: map<Qid, Queue>, queues': map<Qid, Queue>, mqs: seq<Qid>, ph: Phase, q: Qid)
    requires PhaseOk(queues, mqs, ph) && q !in mqs
    requires forall x :: x != q ==> (x in queues <==> x in queues') && (x in queues ==> queues[x] == queues'[x])
    ensures PhaseOk(queues', mqs, ph) && q !in Attached(mqs, ph)
  {
  }

  lemma OtherQueueKeepsPhases(queues: map<Qid, Queue>, queues': map<Qid, Queue>, mqs: seq<Qid>, q: Qid)
    requires q !in mqs
    requires forall x :: x != q ==> (x in queues <==> x in queues') && (x in queues ==> queues[x] == queues'[x])
    ensures forall ph :: PhaseOk(queues, mqs, ph) ==> PhaseOk(queues', mqs, ph) && q !in Attached(mqs, ph)
  {
    forall ph | PhaseOk(queues, mqs, ph)
      ensures PhaseOk(queues', mqs, ph) && q !in Attached(mqs, ph)
    {
      OtherQueueKeepsPhase(queues, queues', mqs, ph, q);
    }
  }

  lemma AllocateKeepsInv(s: Pool)
    requires Inv(s) && Enabled(s, BeginAllocate)
    ensures Inv(Next(s, BeginAllocate))
  {
    hide PollInv, RequestInv, PushTo, Requests;
    CreateKeepsPollInv(s);
    ControlExists(Create(s));
    PushKeepsPollInv(Create(s), CONTROL, Add(s.slots));
    RequestQueued(s, Next(s, BeginAllocate), s.slots, Registering(0));
  }

  /** A change of stage that does not concern `_mqs`. */
  lemma StageKeepsPollInv(s: Pool, q: Qid, stage: Stage)
    requires PollInv(s) && q in s.stage && Listed(stage) == Listed(s.stage[q])
    ensures PollInv(s.(stage := s.stage[q := stage])) && Requests(s.(stage := s.stage[q := stage])) == Requests(s)
  {
    hide PhaseOk, Attached;
    var s' := s.(stage := s.stage[q := stage]);
    assert s'.stage.Keys == s.stage.Keys;
  }

  lemma EndAllocateKeepsInv(s: Pool, q: Qid)
    requires Inv(s) && Enabled(s, EndAllocate(q))
    ensures Inv(Next(s, EndAllocate(q)))
  {
    hide PollInv, RequestInv, Requests;
    StageKeepsPollInv(s, q, Owned);
    AnswerTaken(s, Next(s, EndAllocate(q)), q);
  }

  lemma BeginRemoveKeepsInv(s: Pool, q: Qid)
    requires Inv(s) && Enabled(s, BeginRemove(q))
    ensures Inv(Next(s, BeginRemove(q)))
  {
    hide PollInv, RequestInv, PushTo, Requests;
    StageKeepsPollInv(s, q, Unregistering(0));
    var s1 := s.(stage := s.stage[q := Unregistering(0)]);
    ControlExists(s1);
    PushKeepsPollInv(s1, CONTROL, Remove(q));
    RequestQueued(s, Next(s, BeginRemove(q)), q, Unregistering(0));
  }

  lemma PushUserKeepsInv(s: Pool, q: Qid, payload: nat)
    requires Inv(s) && Enabled(s, Push(q, payload))
    ensures Inv(Next(s, Push(q, payload)))
  {
    hide PollInv, RequestInv, PushTo, Requests;
    ControlExists(s);
    PushKeepsPollInv(s, q, User(payload));
    NoRequest(s, Next(s, Push(q, payload)));
  }

  /** The fields that PollInv does not read. */
  lemma CountersKeepPollInv(s: Pool, pausing: nat, closing: bool)
    requires PollInv(s)
    ensures var s' := s.(pausing := pausing, closing := closing); PollInv(s') && Requests(s') == Requests(s)
  {
    hide PhaseOk, Attached;
  }

  lemma BeginIdleKeepsInv(s: Pool)
    requires Inv(s) && Enabled(s, BeginIdle)
    ensures Inv(Next(s, BeginIdle))
  {
    hide PollInv, RequestInv, PushTo, Requests;
    var s1 := s.(pausing := s.pausing + 1);
    CountersKeepPollInv(s, s.pausing + 1, s.closing);
    ControlExists(s1);
    PushKeepsPollInv(s1, CONTROL, Pause);
    OtherQueued(s, Next(s, BeginIdle), Pause);
  }

  lemma DestroyKeepsInv(s: Pool)
    requires Inv(s) && Enabled(s, Destroy)
    ensures Inv(Next(s, Destroy))
  {
    hide PollInv, RequestInv, PushTo, Requests;
    var s1 := s.(closing := true);
    CountersKeepPollInv(s, s.pausing, true);
    ControlExists(s1);
    PushKeepsPollInv(s1, CONTROL, Terminate);
    OtherQueued(s, Next(s, Destroy), Terminate);
  }

  lemma NobodyListens(l: Option<Poller>)
    requires l != Some(Worker) && forall c :: l != Some(Caller(c))
    ensures l == None
  {
    var c := if l.Some? && l.value.Caller? then l.value.client else 0;
    assert l != Some(Caller(c));
  }

  /** A queue out of `_mqs` has no listener, so its destructor notifies nobody. */
  lemma DeletedIsDetached(s: Pool, q: Qid)
    requires PollInv(s) && q in s.stage && !Listed(s.stage[q])
    ensures q in s.queues && q !in s.mqs && s.queues[q].listener == None && q != CONTROL
  {
    assert forall ph :: q !in Attached(s.mqs, ph);
    NobodyListens(s.queues[q].listener);
  }

  lemma EndRemoveKeepsInv(s: Pool, q: Qid)
    requires Inv(s) && Enabled(s, EndRemove(q))
    ensures Inv(Next(s, EndRemove(q)))
    ensures Next(s, EndRemove(q)) == s.(queues := s.queues - {q}, stage := s.stage - {q})
  {
    var s' := s.(queues := s.queues - {q}, stage := s.stage - {q});
    AnsweredOnce(s, q);
    hide PollInv, RequestInv, Requests;
    DeletedIsDetached(s, q);
    RemovalKeepsPollInv(s, q);
    AnswerTaken(s, s', q);
  }

  lemma AnsweredOnce(s: Pool, q: Qid)
    requires RequestInv(s) && Enabled(s, EndRemove(q))
    ensures s.stage[q] == Unregistering(1)
  {
  }

  lemma RemovalKeepsPollInv(s: Pool, q: Qid)
    requires PollInv(s) && q !in s.mqs && q in s.stage
    ensures var s' := s.(queues := s.queues - {q}, stage := s.stage - {q}); PollInv(s') && Requests(s') == Requests(s)
  {
    RemovalKeepsPolls(s, q);
    hide Phases, Listeners, Snapshot;
  }

  lemma RemovalKeepsPolls(s: Pool, q: Qid)
    requires PollInv(s) && q !in s.mqs && q in s.stage
    ensures var s' := s.(queues := s.queues - {q}, stage := s.stage - {q}); Listeners(s') && Phases(s') && Snapshot(s')
  {
    hide PhaseOk, Attached, Registered, Delivered;
    OtherQueueKeepsPhases(s.queues, s.queues - {q}, s.mqs, q);
  }
}
