/** Every step of a poll, of the worker and of a client inside is_poll_idle keeps the invariant. */
module PoolWorkerSteps {
  import opened Common
  import opened Notifications
  import opened PoolModel
  import opened PoolInvariant
  import opened PoolSteps

  // ---------- one poll at a time ----------

  /** Clients poll only while the worker is paused, and one after another. */
  lemma OnePoll(s: Pool)
    requires Tokens(s)
    ensures s.worker != AwaitResume ==> s.polls == map[]
    ensures forall c, d :: c in s.polls && d in s.polls ==> c == d
  {
    assert |s.polls| == |s.polls.Keys|;
    if s.worker != AwaitResume {
      assert s.polls.Keys == {};
    }
    forall c, d | c in s.polls && d in s.polls
      ensures c == d
    {
      assert s.polls.Keys - {c} == {} by {
        assert |s.polls.Keys - {c}| == |s.polls.Keys| - 1;
      }
      assert d !in s.polls.Keys - {c};
    }
  }

  ghost predicate Polls(s: Pool, who: Poller, ph: Phase) {
    match who
    case Worker => s.worker == Polling(ph)
    case Caller(c) => c in s.polls && s.polls[c] == ph
  }

  /** While one polls, a queue that does not have its listener has none. */
  lemma NoOtherListener(s: Pool, who: Poller, ph: Phase, q: Qid)
    requires Listeners(s) && Tokens(s) && Polls(s, who, ph) && q in s.queues && q !in Attached(s.mqs, ph)
    ensures s.queues[q].listener == None
  {
    OnePoll(s);
    hide Attached, Tokens;
    NobodyListens(s.queues[q].listener);
  }

  // ---------- a step of poll ----------

  ghost predicate SameMessages(queues: map<Qid, Queue>, queues': map<Qid, Queue>) {
    queues'.Keys == queues.Keys
    && forall q :: q in queues ==> queues'[q].id == queues[q].id && queues'[q].msgs == queues[q].msgs
  }

  /** Only listeners of `who` come and go. */
  ghost predicate OnlyListener(queues: map<Qid, Queue>, queues': map<Qid, Queue>, who: Poller) {
    forall q, l :: q in queues && q in queues' && l != who ==>
      (queues'[q].listener == Some(l) <==> queues[q].listener == Some(l))
  }

  ghost predicate ListenerOf(queues: map<Qid, Queue>, mqs: seq<Qid>, who: Poller, ph: Phase) {
    ListenerIn(queues, who, Attached(mqs, ph))
  }

  ghost predicate ListenerIn(queues: map<Qid, Queue>, who: Poller, attached: seq<Qid>) {
    forall q :: q in queues ==> (queues[q].listener == Some(who) <==> q in attached)
  }

  ghost predicate PollReady(queues: map<Qid, Queue>, mqs: seq<Qid>, who: Poller, ph: Phase) {
    && !PollDone(ph, mqs) && Increasing(mqs)
    && (forall q :: q in mqs ==> q in queues && queues[q].id == q)
    && PhaseOk(queues, mqs, ph) && ListenerOf(queues, mqs, who, ph)
    && (ph.Attaching? && ph.k < |mqs| ==> queues[mqs[ph.k]].listener == None)
  }

  /** The listener of `who` is attached to `q`, or detached from it. */
  lemma ListenerChanges(queues: map<Qid, Queue>, q: Qid, who: Poller, l: Option<Poller>,
                        attached: seq<Qid>, attached': seq<Qid>)
    requires q in queues && (l == None || l == Some(who))
    requires queues[q].listener == None || queues[q].listener == Some(who)
    requires ListenerIn(queues, who, attached)
    requires forall x :: x in attached' <==> if x == q then l == Some(who) else x in attached
    ensures var queues' := queues[q := queues[q].(listener := l)];
            SameMessages(queues, queues') && OnlyListener(queues, queues', who) && ListenerIn(queues', who, attached')
  {
  }

  lemma AttachKeepsPoll(queues: map<Qid, Queue>, mqs: seq<Qid>, who: Poller, k: nat, list: seq<Note>)
    requires PollReady(queues, mqs, who, Attaching(k, list)) && k < |mqs|
    ensures var p := PollStep(queues, mqs, who, Attaching(k, list));
            && p.Polled? && p.phase.Attaching? && p.phase.k == k + 1
            && SameMessages(queues, p.queues) && OnlyListener(queues, p.queues, who)
            && PhaseOk(p.queues, mqs, p.phase) && ListenerOf(p.queues, mqs, who, p.phase)
  {
    hide ListOk, SameMessages, OnlyListener, ListenerIn;
    var q := mqs[k];
    assert mqs[..k + 1] == mqs[..k] + [q];
    assert q !in mqs[..k];
    AttachKeepsList(queues, mqs[..k], list, q);
    ListenerChanges(queues, q, who, Some(who), mqs[..k], mqs[..k + 1]);
    var p := PollStep(queues, mqs, who, Attaching(k, list));
    SameMessagesKeepList(queues, p.queues, mqs[..k + 1], p.phase.list);
  }

  /** The queue to which a listener is attached next enters the list if it has messages. */
  lemma AttachKeepsList(queues: map<Qid, Queue>, attached: seq<Qid>, list: seq<Note>, q: Qid)
    requires q in queues && q !in attached && ListOk(queues, attached, list)
    ensures ListOk(queues, attached + [q], if queues[q].msgs == [] then list else Notify(list, Rec(q, Some(q), DATA)))
  {
    hide Notify, Ascending, HasQid;
    assert forall x :: x in attached + [q] <==> x in attached || x == q;
    if queues[q].msgs != [] {
      NewRecord(list, q);
    }
  }

  /** A notification from a queue that is not in the list yet. */
  lemma NewRecord(list: seq<Note>, q: Qid)
    requires Ascending(list) && !HasQid(list, q)
    ensures var list' := Notify(list, Rec(q, Some(q), DATA));
            && Ascending(list') && (forall r :: r in list' ==> r in list || r == Rec(q, Some(q), DATA))
            && forall x :: HasQid(list', x) <==> HasQid(list, x) || x == q
  {
    hide Notify;
    var note: Note := Rec(q, Some(q), DATA);
    NotifyKeepsAscending(list, note);
    NotifyAddsQid(list, note);
    forall r | r in Notify(list, note)
      ensures r in list || r == note
    {
      OldOrNew(list, note, r);
    }
  }

  lemma OldOrNew(list: seq<Note>, note: Note, r: Note)
    requires Ascending(list) && !HasQid(list, note.qid) && r in Notify(list, note)
    ensures r in list || r == note
  {
    NotifyRecords(list, note);
  }

  lemma SameMessagesKeepList(queues: map<Qid, Queue>, queues': map<Qid, Queue>, attached: seq<Qid>, list: seq<Note>)
    requires SameMessages(queues, queues') && ListOk(queues, attached, list)
    ensures ListOk(queues', attached, list)
  {
  }

  lemma DetachKeepsPoll(queues: map<Qid, Queue>, mqs: seq<Qid>, who: Poller, k: nat, snap: seq<Note>)
    requires PollReady(queues, mqs, who, Detaching(k, snap))
    ensures var p := PollStep(queues, mqs, who, Detaching(k, snap));
            && p.Polled? && p.phase == Detaching(k + 1, snap)
            && SameMessages(queues, p.queues) && OnlyListener(queues, p.queues, who)
            && PhaseOk(p.queues, mqs, p.phase) && ListenerOf(p.queues, mqs, who, p.phase)
  {
    var q := mqs[k];
    assert mqs[k..] == [q] + mqs[k + 1..];
    assert q !in mqs[k + 1..];
    assert queues[q].listener == Some(who);
    hide SnapOk, OnlyListener, ListenerIn, Increasing;
    ListenerChanges(queues, q, who, None, mqs[k..], mqs[k + 1..]);
    SameMessagesKeepLoaded(queues, queues[q := queues[q].(listener := None)], snap);
  }

  lemma SameMessagesKeepLoaded(queues: map<Qid, Queue>, queues': map<Qid, Queue>, snap: seq<Note>)
    requires SameMessages(queues, queues') && Loaded(queues, snap)
    ensures Loaded(queues', snap)
  {
  }

  lemma WaitKeepsPoll(queues: map<Qid, Queue>, mqs: seq<Qid>, who: Poller, ph: Phase)
    requires PollReady(queues, mqs, who, ph) && (ph.Waiting? || (ph.Attaching? && ph.k == |mqs|))
    ensures var p := PollStep(queues, mqs, who, ph);
            && p.Polled? && p.queues == queues && PhaseOk(queues, mqs, p.phase) && ListenerOf(queues, mqs, who, p.phase)
            && p.phase == if ph.Waiting? then Detaching(0, ph.list) else Waiting(ph.list)
  {
    assert mqs[..|mqs|] == mqs && mqs[0..] == mqs;
    assert ListOk(queues, mqs, ph.list);
    assert forall r :: r in ph.list ==> HasQid(ph.list, r.qid);
  }

  lemma PollStepKeepsPoll(queues: map<Qid, Queue>, mqs: seq<Qid>, who: Poller, ph: Phase)
    requires PollReady(queues, mqs, who, ph)
    ensures var p := PollStep(queues, mqs, who, ph);
            && p.Polled? && SameMessages(queues, p.queues) && OnlyListener(queues, p.queues, who)
            && PhaseOk(p.queues, mqs, p.phase) && ListenerOf(p.queues, mqs, who, p.phase)
            && (ph.Waiting? ==> p.phase == Detaching(0, ph.list))
            && (ph.Detaching? ==> p.phase == Detaching(ph.k + 1, ph.snap))
            && (ph.Attaching? ==> if ph.k < |mqs| then p.phase.Attaching? && p.phase.k == ph.k + 1
                                  else p.phase == Waiting(ph.list))
  {
    match ph
    case Attaching(k, list) =>
      if k < |mqs| {
        AttachKeepsPoll(queues, mqs, who, k, list);
      } else {
        WaitKeepsPoll(queues, mqs, who, ph);
      }
    case Waiting(_) => WaitKeepsPoll(queues, mqs, who, ph);
    case Detaching(k, snap) => DetachKeepsPoll(queues, mqs, who, k, snap);
  }

  /** In a reachable state a poll that is not finished meets its assumptions. */
  lemma PollIsReady(s: Pool, who: Poller, ph: Phase)
    requires PollInv(s) && Tokens(s) && Polls(s, who, ph) && !PollDone(ph, s.mqs)
    ensures PollReady(s.queues, s.mqs, who, ph)
  {
    if ph.Attaching? && ph.k < |s.mqs| {
      assert s.mqs[ph.k] in s.mqs;
      assert s.mqs[ph.k] !in s.mqs[..ph.k];
      NoOtherListener(s, who, ph, s.mqs[ph.k]);
    }
    match who
    case Worker =>
    case Caller(c) =>
  }

  // ---------- the steps of the two kinds of poll ----------

  lemma SameMessagesKeepRegistry(s: Pool, s': Pool)
    requires Objects(s) && Registered(s) && Delivered(s) && SameMessages(s.queues, s'.queues)
    requires s' == s.(queues := s'.queues, worker := s'.worker, polls := s'.polls,
                      pausing := s'.pausing, pauseSem := s'.pauseSem, resumeSem := s'.resumeSem)
    ensures Objects(s') && Registered(s') && Delivered(s') && Requests(s') == Requests(s)
  {
  }

  /** What one step of a poll by `who` leaves behind. */
  ghost predicate PollStepped(s: Pool, s': Pool, who: Poller, ph: Phase, ph': Phase) {
    && SameMessages(s.queues, s'.queues) && OnlyListener(s.queues, s'.queues, who)
    && PhaseOk(s'.queues, s.mqs, ph') && ListenerOf(s'.queues, s.mqs, who, ph')
    && (ph.Waiting? ==> ph' == Detaching(0, ph.list))
    && (ph.Detaching? ==> ph' == Detaching(ph.k + 1, ph.snap))
    && (ph.Attaching? ==> !ph'.Detaching?)
  }

  lemma WorkerPollShape(s: Pool, outcome: Outcome)
    requires PollInv(s) && Tokens(s) && s.worker.Polling? && !PollDone(s.worker.phase, s.mqs) && WorkerCanStep(s)
    ensures var s' := WorkerStep(s, outcome);
            && s'.worker.Polling? && PollStepped(s, s', Worker, s.worker.phase, s'.worker.phase)
            && s' == s.(queues := s'.queues, worker := s'.worker)
  {
    PollIsReady(s, Worker, s.worker.phase);
    PollStepKeepsPoll(s.queues, s.mqs, Worker, s.worker.phase);
    hide PollStep, Attached, PhaseOk, PollInv, Tokens, ListOk, SnapOk;
  }

  lemma WorkerPolled(s: Pool, s': Pool)
    requires PollInv(s) && Tokens(s) && s.worker.Polling? && s'.worker.Polling?
    requires s.worker.phase.Waiting? ==> s.worker.phase.list != []
    requires s' == s.(queues := s'.queues, worker := s'.worker)
    requires PollStepped(s, s', Worker, s.worker.phase, s'.worker.phase)
    ensures Listeners(s') && Phases(s') && Snapshot(s')
  {
    hide Attached, PhaseOk, Tokens, Objects, Registered, Delivered;
    OnePoll(s);
  }

  lemma WorkerPollKeepsInv(s: Pool, outcome: Outcome)
    requires Inv(s) && s.worker.Polling? && !PollDone(s.worker.phase, s.mqs) && WorkerCanStep(s)
    ensures Inv(WorkerStep(s, outcome))
  {
    hide WorkerStep, Requests, Registered, Objects, Delivered, Listeners, Phases, Snapshot, Requested, Tokens, Closing;
    var s' := WorkerStep(s, outcome);
    WorkerPollShape(s, outcome);
    WorkerPolled(s, s');
    SameMessagesKeepRegistry(s, s');
    NoRequest(s, s');
  }

  // ---------- a client inside is_poll_idle ----------

  lemma IdlePollShape(s: Pool, c: Client)
    requires PollInv(s) && Tokens(s) && c in s.polls && !PollDone(s.polls[c], s.mqs)
    ensures var s' := IdleStep(s, c);
            && c in s'.polls && PollStepped(s, s', Caller(c), s.polls[c], s'.polls[c])
            && s' == s.(queues := s'.queues, polls := s.polls[c := s'.polls[c]])
  {
    PollIsReady(s, Caller(c), s.polls[c]);
    PollStepKeepsPoll(s.queues, s.mqs, Caller(c), s.polls[c]);
    hide PollStep, Attached, PhaseOk, PollInv, Tokens, ListOk, SnapOk;
  }

  lemma IdlePolled(s: Pool, s': Pool, c: Client)
    requires PollInv(s) && Tokens(s) && c in s.polls && c in s'.polls
    requires s' == s.(queues := s'.queues, polls := s.polls[c := s'.polls[c]])
    requires PollStepped(s, s', Caller(c), s.polls[c], s'.polls[c])
    ensures Listeners(s') && Phases(s') && Snapshot(s')
    ensures s'.polls.Keys == s.polls.Keys && |s'.polls| == |s.polls|
  {
    OnePoll(s);
    assert |s'.polls| == |s'.polls.Keys| && |s.polls| == |s.polls.Keys|;
    assert s.worker == AwaitResume;
    hide Attached, PhaseOk, Tokens, Objects, Registered, Delivered;
  }

  lemma IdlePollKeepsInv(s: Pool, c: Client)
    requires Inv(s) && c in s.polls && !PollDone(s.polls[c], s.mqs)
    ensures Inv(IdleStep(s, c))
  {
    hide IdleStep, Requests, Registered, Objects, Delivered, Listeners, Phases, Snapshot, Requested, Tokens, Closing;
    var s' := IdleStep(s, c);
    IdlePollShape(s, c);
    IdlePolled(s, s', c);
    SameMessagesKeepRegistry(s, s');
    NoRequest(s, s');
  }

  /** The only poll ends or begins while the worker is paused; the queues are not touched. */
  lemma PollsChangeKeepsPolls(s: Pool, s': Pool)
    requires PollInv(s) && s.worker == AwaitResume == s'.worker
    requires s' == s.(polls := s'.polls, pausing := s'.pausing, pauseSem := s'.pauseSem, resumeSem := s'.resumeSem)
    requires forall c, q :: q in s.queues ==> !(c in s.polls && q in Attached(s.mqs, s.polls[c]))
    requires forall c :: c in s'.polls ==> s'.polls[c] == Attaching(0, [])
    ensures PollInv(s') && Requests(s') == Requests(s)
  {
    SameMessagesKeepRegistry(s, s');
    assert Attached(s.mqs, Attaching(0, [])) == [];
    assert PhaseOk(s.queues, s.mqs, Attaching(0, [])) by {
      assert ListOk(s.queues, [], []);
    }
    hide Attached, PhaseOk, Requests, Registered, Objects, Delivered;
  }

  lemma IdleReturnKeepsInv(s: Pool, c: Client)
    requires Inv(s) && c in s.polls && PollDone(s.polls[c], s.mqs)
    ensures Inv(IdleStep(s, c))
  {
    hide Requests, Attached, Objects, Registered, Delivered, Listeners, Phases, Snapshot;
    var s' := IdleStep(s, c);
    OnePoll(s);
    assert s.polls.Keys == {c};
    assert s'.polls == map[];
    assert |s.polls| == |s.polls.Keys| == 1;
    FinishedPoll(s.polls[c], s.mqs);
    PollsChangeKeepsPolls(s, s');
  }

  lemma FinishedPoll(ph: Phase, mqs: seq<Qid>)
    requires PollDone(ph, mqs)
    ensures Attached(mqs, ph) == []
  {
  }

  lemma EnterIdleKeepsInv(s: Pool, c: Client)
    requires Inv(s) && Enabled(s, EnterIdle(c))
    ensures Inv(Next(s, EnterIdle(c)))
  {
    hide Requests, Attached, Objects, Registered, Delivered, Listeners, Phases, Snapshot;
    var s' := Next(s, EnterIdle(c));
    assert |s.polls| == 0;
    assert s.polls == map[];
    assert s'.polls == map[c := Attaching(0, [])];
    assert |s'.polls| == |s'.polls.Keys| == 1;
    PollsChangeKeepsPolls(s, s');
  }

  // ---------- the worker outside its poll ----------

  /** No listener is attached anywhere. */
  ghost predicate Unwatched(s: Pool) {
    && s.polls == map[]
    && (s.worker.Polling? ==> PollDone(s.worker.phase, s.mqs) || s.worker.phase == Attaching(0, []))
    && s.worker != Fault
  }

  lemma UnwatchedPolls(s: Pool)
    requires Unwatched(s)
    ensures Listeners(s) <==> forall q :: q in s.queues ==> s.queues[q].listener == None
    ensures s.worker.Polling? && s.worker.phase == Attaching(0, []) ==> Phases(s)
    ensures !s.worker.Polling? ==> Phases(s)
  {
    if s.worker.Polling? {
      assert Attached(s.mqs, s.worker.phase) == [];
    }
    assert ListOk(s.queues, [], []);
    if Listeners(s) {
      forall q | q in s.queues
        ensures s.queues[q].listener == None
      {
        NobodyListens(s.queues[q].listener);
      }
    }
  }

  /** The worker moves on without touching a queue. */
  lemma MoveKeepsPollInv(s: Pool, s': Pool)
    requires PollInv(s) && Unwatched(s) && Unwatched(s') && Snapshot(s')
    requires s'.worker.Polling? ==> s'.worker.phase == Attaching(0, [])
    requires s' == s.(worker := s'.worker, resumeSem := s'.resumeSem, pauseSem := s'.pauseSem)
    ensures PollInv(s') && Requests(s') == Requests(s)
  {
    hide Requests, Objects, Registered, Delivered, Listeners, Phases, Snapshot;
    SameMessagesKeepRegistry(s, s');
    UnwatchedPolls(s);
    UnwatchedPolls(s');
  }

  /** Without a message taken, the worker moves on or is resumed. */
  lemma MoveKeepsRequests(s: Pool, s': Pool)
    requires RequestInv(s) && Requests(s') == Requests(s)
    requires s' == s.(worker := s'.worker, resumeSem := s'.resumeSem)
    requires s.worker != Halted && s'.worker != Halted && s'.worker != AwaitResume
    requires if s.worker == AwaitResume then 0 < s.resumeSem && s'.resumeSem == s.resumeSem - 1
             else s'.resumeSem == s.resumeSem
    ensures RequestInv(s')
  {
    hide Requests;
  }

  lemma WorkerMoves(s: Pool, s': Pool)
    requires Inv(s) && s' == s.(worker := s'.worker, resumeSem := s'.resumeSem) && Snapshot(s')
    requires Unwatched(s') && (s'.worker.Polling? ==> s'.worker.phase == Attaching(0, []))
    requires s.worker.Polling? ==> PollDone(s.worker.phase, s.mqs)
    requires s.worker != Halted && s'.worker != Halted && s'.worker != AwaitResume
    requires if s.worker == AwaitResume then 0 < s.resumeSem && s'.resumeSem == s.resumeSem - 1
             else s'.resumeSem == s.resumeSem
    ensures Inv(s')
  {
    hide Requests, Objects, Registered, Delivered, Listeners, Phases, Requested, Tokens, Closing;
    MoveKeepsPollInv(s, s');
    MoveKeepsRequests(s, s');
  }
}
