/**
 What holds over whole runs of the work queue, for every interleaving, in both variants.
 */
module WorkQueueTheorems {
  import opened Common
  import opened RecordHeap
  import opened HeapAlgorithms
  import opened WorkQueueModel
  import opened WorkQueueRuns

  ghost predicate IsRun(v: Variant, states: seq<State>, labels: seq<Label>) {
    && |states| == |labels| + 1
    && states[0] == Init(v, states[0].q.heap, states[0].now)
    && forall i :: 0 <= i < |labels| ==> Enabled(v, states[i], labels[i]) && states[i + 1] == Next(v, states[i], labels[i])
  }

  // ---------- ids ----------

  ghost predicate IdsBelow(b: multiset<Record>, n: nat) {
    DistinctIds(b) && forall r :: r in b ==> r.id < n
  }

  lemma IdsInsert(b: multiset<Record>, n: nat, r: Record)
    requires IdsBelow(b, n) && r.id == n
    ensures IdsBelow(b + multiset{r}, n + 1)
  {
    var b' := b + multiset{r};
    assert forall x :: x in b' <==> x in b || x == r;
    assert forall x :: x in b ==> b'[x] == b[x];
  }

  lemma IdsPart(part: multiset<Record>, b: multiset<Record>, n: nat)
    requires IdsBelow(b, n) && part <= b
    ensures IdsBelow(part, n)
  {
    assert forall x :: x in part ==> x in b && part[x] <= b[x];
  }

  lemma IdsReplace(b: multiset<Record>, was: Record, r: Record, n: nat)
    requires IdsBelow(b, n) && was in b && was.id == r.id
    ensures IdsBelow(b - multiset{was} + multiset{r}, n)
  {
    var rest := b - multiset{was};
    IdsPart(rest, b, n);
    assert b[was] == 1 && was !in rest;
    var b' := rest + multiset{r};
    assert forall x :: x in b' <==> x in rest || x == r;
    assert forall x :: x in rest ==> x.id != r.id;
  }

  /** What a step does to the pending records. */
  datatype Change =
    | Fewer                           // none is new
    | Insert(record: Record)          // at most this one is new
    | Replace(was: Record, record: Record)

  ghost predicate Changes(b: multiset<Record>, b': multiset<Record>, c: Change) {
    match c
    case Fewer => b' <= b
    case Insert(r) => b' <= b + multiset{r}
    case Replace(was, r) => was in b && was.id == r.id && b' == b - multiset{was} + multiset{r}
  }

  ghost function ScheduleChange(q: Queue, client: nat, work: Work, start: nat, period: int, clock: nat): Change {
    if client == INVALID_ID || work == NoWork || q.stopped then Fewer
    else Insert(Record(if start == 0 then clock else start, client, work, period, NextIdentifier(q.nextId)))
  }

  ghost function ChangeOf(v: Variant, s: State, l: Label): Change {
    match l
    case Schedule(client, work, start, period, clock) => ScheduleChange(s.q, client, work, start, period, clock)
    case PostSentinel(t, clock) => ScheduleChange(s.q, FORWARDING_CLIENT, Sentinel, t, 0, clock)
    case Stop => if s.q.stopped then Fewer else Insert(TerminationRecord(NextIdentifier(s.q.nextId)))
    case Update(id, client, work, start, period) =>
      if client == INVALID_ID || work == NoWork || s.q.stopped || FindWork(s.q.items, id).None? then Fewer
      else Replace(s.q.items[FindWork(s.q.items, id).value], Record(start, client, work, period, id))
    case Worker(outcome) =>
      if !Executes(v, s) then Fewer
      else
        var r := s.q.items[0];
        var time := ResumeTime(v, s.now, r, PopWith(s.q.heap, s.q.items), outcome);
        if time == 0 then Fewer else Replace(r, r.(time := time))
    case _ => Fewer
  }

  lemma NothingPosted(q: Queue, time: nat, client: nat, work: Work, period: int)
    requires q.stopped
    ensures PostWork(q, time, client, work, period) == Posted(q, NotAllowed, INVALID_ID)
  {
  }

  lemma ScheduleChanges(s: State, client: nat, work: Work, start: nat, period: int, clock: nat)
    requires IsHeap(s.q.items)
    ensures Changes(Pending(s), Pending(AfterPost(s, ScheduleWork(s.q, client, work, start, period, clock))),
                    ScheduleChange(s.q, client, work, start, period, clock))
  {
    hide PostWork, IsHeap, NextIdentifier;
    var time := if start == 0 then clock else start;
    if s.q.stopped {
      NothingPosted(s.q, time, client, work, period);
    } else {
      PostEffect(s.q, time, client, work, period);
      var s' := AfterPost(s, ScheduleWork(s.q, client, work, start, period, clock));
      if client != INVALID_ID && work != NoWork {
        assert Pending(s') == Pending(s) + multiset{Record(time, client, work, period, NextIdentifier(s.q.nextId))};
      }
    }
  }

  lemma ChangesFrame(b: multiset<Record>, b': multiset<Record>, c: Change, frame: multiset<Record>)
    requires Changes(b, b', c)
    ensures Changes(b + frame, b' + frame, c)
  {
    if c.Replace? {
      assert b - multiset{c.was} + multiset{c.record} + frame == b + frame - multiset{c.was} + multiset{c.record};
    }
  }

  lemma ExecuteChanges(v: Variant, s: State, outcome: Outcome)
    requires IsHeap(s.q.items) && Executes(v, s)
    ensures Changes(Pending(s), Pending(PopAndExecute(v, s, outcome)), ChangeOf(v, s, Worker(outcome)))
  {
    hide PopWith, Settle, IsHeap;
    ExecuteEffect(v, s, outcome);
  }

  /** A step of the worker that executes nothing. */
  lemma WaitingStep(v: Variant, s: State, outcome: Outcome)
    requires WorkerCanStep(v, s) && !Executes(v, s)
    ensures var s' := WorkerStep(v, s, outcome);
            s'.tokens == s.tokens && s'.callers == s.callers &&
            match s.pc
            case InSync(r, time) => s' == s.(q := Reinsert(s.q, r, time), pc := Scan)
            case _ => !s'.pc.InSync? && (s'.q.items == s.q.items || s'.q.items == [])
  {
    hide PopAndExecute, Reinsert, Executes;
  }

  lemma WaitingChanges(v: Variant, s: State, outcome: Outcome)
    requires IsHeap(s.q.items) && WorkerCanStep(v, s) && !Executes(v, s)
    ensures Pending(WorkerStep(v, s, outcome)) <= Pending(s)
  {
    hide WorkerStep, IsHeap, Reinsert, Executes;
    WaitingStep(v, s, outcome);
    if s.pc.InSync? {
      ReinsertEffect(s.q, s.pc.record, s.pc.resume);
    }
  }

  lemma WorkerChanges(v: Variant, s: State, outcome: Outcome)
    requires IsHeap(s.q.items) && WorkerCanStep(v, s)
    ensures Changes(Pending(s), Pending(WorkerStep(v, s, outcome)), ChangeOf(v, s, Worker(outcome)))
  {
    hide Pending, ResumeTime, PopAndExecute, IsHeap, PopWith, Executes;
    if Executes(v, s) {
      ExecuteChanges(v, s, outcome);
    } else {
      WaitingChanges(v, s, outcome);
    }
  }

  lemma UpdateChanges(v: Variant, s: State, l: Label)
    requires IsHeap(s.q.items) && l.Update? && Enabled(v, s, l)
    ensures Changes(multiset(s.q.items), multiset(Next(v, s, l).q.items), ChangeOf(v, s, l))
  {
    if l.client != INVALID_ID && l.work != NoWork && !s.q.stopped {
      UpdateEffect(s.q, l.id, l.client, l.work, l.start, l.period);
    }
  }

  lemma CancelChanges(v: Variant, s: State, l: Label)
    requires IsHeap(s.q.items) && (l.Cancel? || l.CancelClient?)
    ensures Changes(multiset(s.q.items), multiset(Next(v, s, l).q.items), Fewer)
  {
    if !s.q.stopped {
      if l.Cancel? {
        CancelEffect(s.q, l.id);
      } else {
        CancelClientEffect(s.q, l.client);
      }
    }
  }

  lemma StopChanges(v: Variant, s: State)
    ensures Changes(multiset(s.q.items), multiset(Next(v, s, Stop).q.items), ChangeOf(v, s, Stop))
  {
    if !s.q.stopped {
      PostEffect(s.q.(items := []), 0, INVALID_ID, NoWork, 0);
    }
  }

  lemma StepChanges(v: Variant, s: State, l: Label)
    requires IsHeap(s.q.items) && Enabled(v, s, l)
    ensures Changes(Pending(s), Pending(Next(v, s, l)), ChangeOf(v, s, l))
  {
    match l
    case Schedule(client, work, start, period, clock) => ScheduleChanges(s, client, work, start, period, clock);
    case PostSentinel(t, clock) =>
      ScheduleChanges(Calling(s, t), FORWARDING_CLIENT, Sentinel, t, 0, clock);
    case Worker(outcome) => WorkerChanges(v, s, outcome);
    case Update(_, _, _, _, _) => UpdateChanges(v, s, l); MutatorChanges(v, s, l);
    case Cancel(_) => CancelChanges(v, s, l); MutatorChanges(v, s, l);
    case CancelClient(_) => CancelChanges(v, s, l); MutatorChanges(v, s, l);
    case Stop => StopChanges(v, s); MutatorChanges(v, s, l);
    case _ =>
  }

  lemma MutatorChanges(v: Variant, s: State, l: Label)
    requires Enabled(v, s, l) && (l.Update? || l.Cancel? || l.CancelClient? || l.Stop?)
    requires Changes(multiset(s.q.items), multiset(Next(v, s, l).q.items), ChangeOf(v, s, l))
    ensures Changes(Pending(s), Pending(Next(v, s, l)), ChangeOf(v, s, l))
  {
    hide UpdateWork, CancelWork, CancelClientWorks, StopWorker, Changes, ChangeOf;
    var s', frame := Next(v, s, l), Pending(s) - multiset(s.q.items);
    assert Pending(s) == multiset(s.q.items) + frame && Pending(s') == multiset(s'.q.items) + frame;
    ChangesFrame(multiset(s.q.items), multiset(s'.q.items), ChangeOf(v, s, l), frame);
  }

  /** Which steps draw an id, and what they leave in the counter. */
  lemma StepCounts(v: Variant, s: State, l: Label)
    requires Enabled(v, s, l)
    ensures var s' := Next(v, s, l);
            if ChangeOf(v, s, l).Insert?
            then s'.posts == s.posts + 1 && s'.q.nextId == NextIdentifier(s.q.nextId) == ChangeOf(v, s, l).record.id
            else s'.posts == s.posts && s'.q.nextId == s.q.nextId
  {
  }

  lemma ClientCounts(v: Variant, s: State, l: Label)
    requires Enabled(v, s, l)
    ensures var s' := Next(v, s, l);
            if l == NewClient then s'.clients == s.clients + 1 && s'.q.nextClient == NextIdentifier(s.q.nextClient)
            else s'.clients == s.clients && s'.q.nextClient == s.q.nextClient
  {
  }

  lemma IdsAfter(b: multiset<Record>, b': multiset<Record>, n: nat, c: Change)
    requires IdsBelow(b, n) && Changes(b, b', c) && (c.Insert? ==> c.record.id == n)
    ensures IdsBelow(b', if c.Insert? then n + 1 else n)
  {
    match c
    case Fewer => IdsPart(b', b, n);
    case Insert(r) =>
      IdsInsert(b, n, r);
      IdsPart(b', b + multiset{r}, n + 1);
    case Replace(was, r) => IdsReplace(b, was, r, n);
  }

  lemma NextKeepsCounters(v: Variant, s: State, l: Label)
    requires CounterInv(s) && Enabled(v, s, l)
    ensures CounterInv(Next(v, s, l))
  {
    hide Next, ChangeOf, Enabled, NextIdentifier, NthId;
    StepCounts(v, s, l);
    ClientCounts(v, s, l);
    CounterYields(s.posts);
    CounterYields(s.clients);
  }

  lemma NextDrawn(s: State)
    requires CounterInv(s)
    ensures NextIdentifier(s.q.nextId) == NthId(s.posts) && (s.posts < ID_SPACE ==> NthId(s.posts) == s.posts)
    ensures NextIdentifier(s.q.nextClient) == NthId(s.clients)
  {
    hide NextIdentifier, NthId;
    CounterYields(s.posts);
    CounterYields(s.clients);
  }

  lemma NextKeepsIds(v: Variant, s: State, l: Label)
    requires IsHeap(s.q.items) && IdInv(s) && Enabled(v, s, l)
    ensures IdInv(Next(v, s, l))
  {
    hide Next, ChangeOf, Pending, IsHeap, Enabled, NextIdentifier, NthId, DistinctIds, Changes, CounterInv;
    NextKeepsCounters(v, s, l);
    StepChanges(v, s, l);
    StepCounts(v, s, l);
    NextDrawn(s);
    if Next(v, s, l).posts <= ID_SPACE {
      IdsAfter(Pending(s), Pending(Next(v, s, l)), s.posts, ChangeOf(v, s, l));
    }
  }

  lemma {:induction false} RunInv(v: Variant, states: seq<State>, labels: seq<Label>, i: nat)
    requires IsRun(v, states, labels) && i < |states|
    ensures Inv(v, states[i]) && IdInv(states[i])
  {
    if i == 0 {
      InitInv(v, states[0].q.heap, states[0].now);
    } else {
      RunInv(v, states, labels, i - 1);
      NextKeepsInv(v, states[i - 1], labels[i - 1]);
      NextKeepsIds(v, states[i - 1], labels[i - 1]);
    }
  }

  // ---------- the timed wait ----------

  /** While the worker is blocked with no change flagged it waits for the least pending
      time point; in the virtual-time variant that point is in the future, unless some
      forward_time call has set the time and not yet posted its sentinel. */
  lemma TimedWaitAwaitsMinimum(v: Variant, states: seq<State>, labels: seq<Label>, i: nat)
    requires IsRun(v, states, labels) && i < |states|
    requires states[i].pc.Timed? && !states[i].q.changed
    ensures var s := states[i];
            && Pending(s) != multiset{} && s.pc.timepoint == NearestTime(s.q.items)
            && (forall r :: r in Pending(s) ==> s.pc.timepoint <= r.time)
            && (v.Test? && s.between == multiset{} ==> s.now < s.pc.timepoint)
  {
    var s := states[i];
    RunInv(v, states, labels, i);
    assert s.q.items != [] && s.q.items[0].time == s.pc.timepoint;
    assert s.q.items[0] in Pending(s);
    RootIsLeastOfBag(s.q.items);
  }

  /** The record whose function a step calls, if it calls one. */
  ghost function Executed(v: Variant, s: State, l: Label): Option<Record> {
    if l.Worker? && Executes(v, s) then Some(s.q.items[0]) else None
  }

  /** No function is called before its time point or after the stop, and the record
      executed is a least one of all those pending. */
  lemma ExecutesLeastOnTime(v: Variant, states: seq<State>, labels: seq<Label>, i: nat)
    requires IsRun(v, states, labels) && i < |labels|
    requires Executed(v, states[i], labels[i]).Some?
    ensures var s, r := states[i], Executed(v, states[i], labels[i]).value;
            && r in Pending(s) && r.work != NoWork && !s.q.stopped
            && r.time <= s.now
            && (v.Base? ==> s.pc == Timed(r.time))
            && forall x :: x in Pending(s) ==> r.time <= x.time
  {
    RunInv(v, states, labels, i);
    ExecutesRunning(v, states[i]);
    RootIsLeastOfBag(states[i].q.items);
  }

  // ---------- stopping ----------

  lemma {:induction false} StoppedStays(v: Variant, states: seq<State>, labels: seq<Label>, i: nat, j: nat)
    requires IsRun(v, states, labels) && i <= j < |states| && states[i].q.stopped
    ensures states[j].q.stopped
    decreases j
  {
    hide Next, Enabled;
    if i < j {
      StoppedStays(v, states, labels, i, j - 1);
      NextKeepsStopped(v, states[j - 1], labels[j - 1]);
    }
  }

  lemma NextKeepsStopped(v: Variant, s: State, l: Label)
    requires Enabled(v, s, l)
    ensures s.q.stopped ==> Next(v, s, l).q.stopped
  {
  }

  /** Worker steps left before the exit, once stopped. */
  function StepsToExit(pc: Pc): nat {
    match pc
    case Exited => 0
    case Scan => 1
    case _ => 2
  }

  lemma StopStops(s: State)
    ensures StopWorker(s.q).1 ==> StopWorker(s.q).0.stopped
  {
  }

  lemma StoppedStep(v: Variant, s: State, l: Label)
    requires Inv(v, s) && Enabled(v, s, l) && s.q.stopped && Inv(v, Next(v, s, l))
    ensures var s' := Next(v, s, l);
            && Executed(v, s, l) == None
            && (s.pc == Exited ==> s.q.items == [] && s'.pc == Exited)
            && (s.pc != Exited ==> WorkerCanStep(v, s))
            && (l.Worker? && s.pc == Scan ==> s'.pc == Exited && s'.q.items == [])
            && StepsToExit(s'.pc) == StepsToExit(s.pc) - if l.Worker? then 1 else 0
  {
    hide IsHeap, PushWith, MakeWith, PopWith, Settle;
    if l.Worker? && Executes(v, s) {
      ExecutesRunning(v, s);
    }
  }

  /** After signal_worker_to_stop returned true no work function is called any more, the
      worker's next look at the container makes it exit and leaves the container empty,
      and at most two steps of the worker, never blocked, separate it from its exit. */
  lemma StopIsFinal(v: Variant, states: seq<State>, labels: seq<Label>, i: nat, j: nat)
    requires IsRun(v, states, labels) && i < j < |labels|
    requires labels[i] == Stop && StopWorker(states[i].q).1
    ensures var s, s' := states[j], states[j + 1];
            && Executed(v, s, labels[j]) == None
            && (s.pc == Exited ==> s.q.items == [] && s'.pc == Exited)
            && (s.pc != Exited ==> WorkerCanStep(v, s))
            && (labels[j].Worker? && s.pc == Scan ==> s'.pc == Exited && s'.q.items == [])
            && StepsToExit(s'.pc) == StepsToExit(s.pc) - if labels[j].Worker? then 1 else 0
  {
    StopStops(states[i]);
    hide Next, Enabled, Inv, IdInv, Executed, StopWorker;
    StoppedStays(v, states, labels, i + 1, j);
    RunInv(v, states, labels, j);
    RunInv(v, states, labels, j + 1);
    StoppedStep(v, states[j], labels[j]);
  }

  // ---------- cancelling and updating ----------

  /** Steps that give a work id its function and client. */
  ghost function Installed(s: State, l: Label): Option<(nat, Work, nat)> {
    match l
    case Schedule(client, work, start, period, clock) =>
      var p := ScheduleWork(s.q, client, work, start, period, clock);
      if p.status == Success then Some((p.id, work, client)) else None
    case PostSentinel(t, clock) =>
      var p := ScheduleWork(s.q, FORWARDING_CLIENT, Sentinel, t, 0, clock);
      if p.status == Success then Some((p.id, Sentinel, FORWARDING_CLIENT)) else None
    case Update(id, client, work, start, period) =>
      if UpdateWork(s.q, id, client, work, start, period).1 == Success then Some((id, work, client)) else None
    case _ => None
  }

  type Kind = (nat, Work, nat) -> bool

  ghost predicate NonePending(s: State, kind: Kind) {
    forall r :: r in Pending(s) && r.work != NoWork ==> !kind(r.id, r.work, r.client)
  }

  /** A kind of record that is not pending stays so until some step installs one. */
  lemma AbsenceKept(v: Variant, s: State, l: Label, kind: Kind)
    requires Inv(v, s) && Enabled(v, s, l) && NonePending(s, kind)
    requires match Installed(s, l) case None => true case Some((id, work, client)) => !kind(id, work, client)
    ensures NonePending(Next(v, s, l), kind)
  {
    hide Next, Enabled, Pending, IsHeap, Installed;
    StepChanges(v, s, l);
    if l.Worker? {
      WorkerKeepsKind(v, s, l);
    } else {
      InstalledIsChange(v, s, l);
    }
  }

  lemma WorkerKeepsKind(v: Variant, s: State, l: Label)
    requires l.Worker?
    ensures match ChangeOf(v, s, l)
            case Fewer => true
            case Insert(_) => false
            case Replace(was, r) => (r.id, r.work, r.client) == (was.id, was.work, was.client)
  {
  }

  lemma InstalledIsChange(v: Variant, s: State, l: Label)
    requires !l.Worker?
    ensures match ChangeOf(v, s, l)
            case Fewer => true
            case Insert(r) => r.work == NoWork || Installed(s, l) == Some((r.id, r.work, r.client))
            case Replace(_, r) => Installed(s, l) == Some((r.id, r.work, r.client))
  {
  }

  /** Provenance: whatever is executed of a kind that was absent at some point was
      installed, as that kind, between that point and the execution. */
  lemma {:induction false} Provenance(v: Variant, states: seq<State>, labels: seq<Label>, i: nat, j: nat, kind: Kind)
    returns (k: nat)
    requires IsRun(v, states, labels) && i <= j < |states|
    requires NonePending(states[i], kind) && !NonePending(states[j], kind)
    ensures i <= k < j && Installed(states[k], labels[k]).Some? && NonePending(states[k], kind)
    ensures var (id, work, client) := Installed(states[k], labels[k]).value; kind(id, work, client)
    decreases j
  {
    hide Next, Installed, Inv, Enabled, NonePending;
    if NonePending(states[j - 1], kind) {
      RunInv(v, states, labels, j - 1);
      if Installed(states[j - 1], labels[j - 1]).None? {
        AbsenceKept(v, states[j - 1], labels[j - 1], kind);
      }
      var (id, work, client) := Installed(states[j - 1], labels[j - 1]).value;
      if !kind(id, work, client) {
        AbsenceKept(v, states[j - 1], labels[j - 1], kind);
      }
      k := j - 1;
    } else {
      k := Provenance(v, states, labels, i, j - 1, kind);
    }
  }

  lemma ExecutedIsPending(v: Variant, s: State, l: Label, kind: Kind)
    requires Inv(v, s) && Executed(v, s, l).Some?
    requires var r := Executed(v, s, l).value; kind(r.id, r.work, r.client)
    ensures !NonePending(s, kind)
  {
    ExecutesRunning(v, s);
    assert s.q.items[0] in Pending(s);
  }

  /** A record of the client that cancel_client_works cannot see: its callback is running
      with the mutex released, and it will be put back. */
  ghost predicate InCallback(s: State, client: nat) {
    s.pc.InSync? && s.pc.resume != 0 && s.pc.record.client == client
  }

  /** What cancel_client_works leaves pending of the client: nothing, or exactly the record in
      the callback. */
  lemma CancelClientLeaves(v: Variant, s: State, client: nat, x: Record)
    requires CoreInv(v, s) && !s.q.stopped
    ensures x in Pending(Next(v, s, CancelClient(client))) && x.client == client
            <==> InCallback(s, client) && x == s.pc.record.(time := s.pc.resume)
  {
    hide CancelClientWorks, IsHeap;
    CancelClientEffect(s.q, client);
  }

  /** After cancel_client_works returned Success or NotFound with no record of the client in
      the callback, which in the base class is always so, a work of that client is executed
      only if it was posted, or handed over, to it afterwards. */
  lemma CancelClientIsFinal(v: Variant, states: seq<State>, labels: seq<Label>, i: nat, j: nat, client: nat) returns (k: nat)
    requires IsRun(v, states, labels) && i < j < |labels|
    requires labels[i] == CancelClient(client) && CancelClientWorks(states[i].q, client).1 in {Success, NotFound}
    requires v == Base || !InCallback(states[i], client)
    requires Executed(v, states[j], labels[j]).Some? && Executed(v, states[j], labels[j]).value.client == client
    ensures i < k < j && Installed(states[k], labels[k]).Some?
    ensures var r := Executed(v, states[j], labels[j]).value;
            Installed(states[k], labels[k]).value == (r.id, r.work, r.client)
  {
    var r := Executed(v, states[j], labels[j]).value;
    var kind: Kind := (id, work, c) => id == r.id && work == r.work && c == r.client;
    RunInv(v, states, labels, i);
    RunInv(v, states, labels, j);
    forall x {
      CancelClientLeaves(v, states[i], client, x);
    }
    hide Next, Enabled, CoreInv, IdInv, CancelClientWorks, Pending;
    ExecutedIsPending(v, states[j], labels[j], kind);
    k := Provenance(v, states, labels, i + 1, j, kind);
  }

  lemma OnlyRecord(heap: Heaps, r: Record)
    ensures PushWith(heap, [], r) == [r] && PopWith(heap, [r]) == []
  {
    PushWithIsHeap(heap, [], r);
    PopWithIsHeap(heap, [r]);
    assert |multiset(PopWith(heap, [r]))| == 0;
  }

  /** A state of the virtual-time queue in which nobody has stopped or forwarded it. */
  function TestState(heap: Heaps, items: seq<Record>, changed: bool, pc: Pc, now: nat, posts: nat, clients: nat): State
    requires 0 < clients
  {
    State(Queue(items, changed, false, if posts == 0 then INVALID_ID else posts - 1, clients - 1, heap),
          pc, now, multiset{}, 0, 0, posts, clients)
  }

  lemma WorkEntersCallback(heap: Heaps, r: Record, s0: State, s1: State, s2: State, s3: State)
    requires r == Record(5, 1, UserWork(7), 5, 0) && s0 == Init(Test(true), heap, 5)
    requires s1 == TestState(heap, [], false, Scan, 5, 0, 2) && s2 == TestState(heap, [r], true, Scan, 5, 1, 2)
    requires s3 == TestState(heap, [], true, InSync(r, 10), 5, 1, 2)
    ensures s1 == Next(Test(true), s0, NewClient)
    ensures s2 == Next(Test(true), s1, Schedule(1, UserWork(7), 5, 5, 5))
    ensures Enabled(Test(true), s2, Worker(Again)) && s3 == Next(Test(true), s2, Worker(Again))
  {
    hide PushWith, PopWith, IsHeap;
    OnlyRecord(heap, r);
  }

  /** Why the callback matters: a run in which cancel_client_works answers NotFound while the
      callback of the client's periodic work is running, and the work runs again, though
      nothing was installed in between. */
  lemma CancelClientMissesCallback(heap: Heaps) returns (states: seq<State>, labels: seq<Label>)
    ensures IsRun(Test(true), states, labels) && |labels| == 7 && states[0].q.heap == heap
    ensures labels[3] == CancelClient(1) && CancelClientWorks(states[3].q, 1).1 == NotFound && InCallback(states[3], 1)
    ensures forall k :: 3 < k < 7 ==> Installed(states[k], labels[k]).None?
    ensures Executed(Test(true), states[6], labels[6]) == Some(Record(10, 1, UserWork(7), 5, 0))
  {
    hide PushWith, PopWith, IsHeap;
    var v, r := Test(true), Record(5, 1, UserWork(7), 5, 0);
    var r' := r.(time := 10);
    OnlyRecord(heap, r');
    labels := [NewClient, Schedule(1, UserWork(7), 5, 5, 5), Worker(Again), CancelClient(1), Worker(Enough),
               SetTime(10, false), Worker(Enough)];
    var s0, s1 := Init(v, heap, 5), TestState(heap, [], false, Scan, 5, 0, 2);
    var s2, s3 := TestState(heap, [r], true, Scan, 5, 1, 2), TestState(heap, [], true, InSync(r, 10), 5, 1, 2);
    WorkEntersCallback(heap, r, s0, s1, s2, s3);
    var s5, s6 := TestState(heap, [r'], true, Scan, 5, 1, 2), TestState(heap, [r'], true, Scan, 10, 1, 2);
    CallbackEnds(heap, r, s3, s5, s6);
    states := [s0, s1, s2, s3, s3, s5, s6, Next(v, s6, labels[6])];
  }

  /** Cancelling finds nothing while the callback runs; then the record is put back and due. */
  lemma CallbackEnds(heap: Heaps, r: Record, s3: State, s5: State, s6: State)
    requires r == Record(5, 1, UserWork(7), 5, 0) && s3 == TestState(heap, [], true, InSync(r, 10), 5, 1, 2)
    requires s5 == TestState(heap, [r.(time := 10)], true, Scan, 5, 1, 2)
    requires s6 == TestState(heap, [r.(time := 10)], true, Scan, 10, 1, 2)
    ensures s3 == Next(Test(true), s3, CancelClient(1)) && CancelClientWorks(s3.q, 1).1 == NotFound
    ensures Enabled(Test(true), s3, Worker(Enough)) && s5 == Next(Test(true), s3, Worker(Enough))
    ensures s6 == Next(Test(true), s5, SetTime(10, false))
    ensures Executed(Test(true), s6, Worker(Enough)) == Some(r.(time := 10))
  {
    hide PushWith, PopWith, IsHeap;
    OnlyRecord(heap, r.(time := 10));
  }

  // ---------- client ids ----------

  /** get_client_id gives the n-th caller the n-th id, never the invalid one; two calls get the
      same id only a multiple of the id space apart. */
  lemma ClientIdsDiffer(v: Variant, states: seq<State>, labels: seq<Label>, i: nat, j: nat)
    requires IsRun(v, states, labels) && i <= j < |labels| && labels[i] == NewClient == labels[j]
    ensures states[i + 1].q.nextClient == NthId(states[i].clients) != INVALID_ID
    ensures states[i].clients <= states[j].clients
    ensures states[i + 1].q.nextClient == states[j + 1].q.nextClient
            <==> (states[j].clients - states[i].clients) % ID_SPACE == 0
  {
    hide Inv, NextIdentifier, NthId, Next, Enabled, CounterInv;
    RunInv(v, states, labels, i);
    RunInv(v, states, labels, j);
    NextDrawn(states[i]);
    NextDrawn(states[j]);
    CounterYields(states[i].clients);
    ClientCounts(v, states[i], labels[i]);
    ClientCounts(v, states[j], labels[j]);
    ClientsGrow(v, states, labels, i, j);
    CounterCycles(states[i].clients, states[j].clients);
  }

  lemma {:induction false} ClientsGrow(v: Variant, states: seq<State>, labels: seq<Label>, i: nat, j: nat)
    requires IsRun(v, states, labels) && i <= j < |states|
    ensures states[i].clients <= states[j].clients
    decreases j
  {
    hide Next, Enabled;
    if i < j {
      ClientsGrow(v, states, labels, i, j - 1);
      ClientCounts(v, states[j - 1], labels[j - 1]);
    }
  }

  lemma {:induction false} PostsGrow(v: Variant, states: seq<State>, labels: seq<Label>, i: nat, j: nat)
    requires IsRun(v, states, labels) && i <= j < |states|
    ensures states[i].posts <= states[j].posts
    decreases j
  {
    hide Next, Enabled, ChangeOf;
    if i < j {
      PostsGrow(v, states, labels, i, j - 1);
      StepCounts(v, states[j - 1], labels[j - 1]);
    }
  }

  /** Until the counter wraps, an id already drawn is installed again only by update_work. */
  lemma ReinstalledByUpdate(v: Variant, s: State, l: Label, id: nat)
    requires IdInv(s) && Enabled(v, s, l) && s.posts < ID_SPACE
    requires Installed(s, l).Some? && Installed(s, l).value.0 == id && id < s.posts
    ensures l.Update?
  {
    hide NthId, NextIdentifier, PushWith, DistinctIds, Pending;
    NextDrawn(s);
  }

  lemma UpdateNeedsPending(v: Variant, s: State, l: Label)
    requires Inv(v, s) && l.Update? && Installed(s, l).Some?
    ensures exists r :: r in Pending(s) && r.id == l.id && r.work != NoWork
  {
    UpdateEffect(s.q, l.id, l.client, l.work, l.start, l.period);
  }

  /** The common core of the two theorems below: where an execution at `j`, of a kind that
      was absent after step `i` and concerns the id `id` drawn before, comes from. */
  lemma LaterInstall(v: Variant, states: seq<State>, labels: seq<Label>, i: nat, j: nat, id: nat, kind: Kind)
    returns (k: nat)
    requires IsRun(v, states, labels) && i < j < |labels| && states[j].posts < ID_SPACE
    requires id < states[i].posts && NonePending(states[i + 1], kind)
    requires forall x, work, client :: kind(x, work, client) ==> x == id
    requires Executed(v, states[j], labels[j]).Some?
    requires var r := Executed(v, states[j], labels[j]).value; kind(r.id, r.work, r.client)
    ensures i < k < j && labels[k].Update? && NonePending(states[k], kind)
    ensures Installed(states[k], labels[k]).Some? && labels[k].id == id
    ensures kind(id, labels[k].work, labels[k].client)
  {
    RunInv(v, states, labels, j);
    ExecutedIsPending(v, states[j], labels[j], kind);
    k := Provenance(v, states, labels, i + 1, j, kind);
    RunInv(v, states, labels, k);
    PostsGrow(v, states, labels, i, k);
    PostsGrow(v, states, labels, k, j);
    ReinstalledByUpdate(v, states[k], labels[k], id);
  }

  lemma OnlyOne(b: multiset<Record>, was: Record)
    requires DistinctIds(b) && was in b
    ensures forall r :: r in b - multiset{was} ==> r.id != was.id
  {
    assert (b - multiset{was})[was] == 0;
  }

  lemma CancelPending(v: Variant, s: State, id: nat) returns (was: Record)
    requires CoreInv(v, s) && CancelWork(s.q, id).1 == Success
    ensures was in Pending(s) && was.id == id
    ensures Pending(Next(v, s, Cancel(id))) == Pending(s) - multiset{was}
  {
    hide IsHeap, CancelWork;
    CancelSucceeds(s.q, id);
    CancelEffect(s.q, id);
    was := s.q.items[FindWork(s.q.items, id).value];
  }

  lemma CancelSucceeds(q: Queue, id: nat)
    requires CancelWork(q, id).1 == Success
    ensures !q.stopped && FindWork(q.items, id).Some?
  {
  }

  lemma CancelTakesAway(v: Variant, s: State, id: nat)
    requires Inv(v, s) && IdInv(s) && s.posts <= ID_SPACE && CancelWork(s.q, id).1 == Success
    ensures forall r :: r in Pending(Next(v, s, Cancel(id))) ==> r.id != id
    ensures id < s.posts
  {
    hide CancelWork, CoreInv, Next;
    var was := CancelPending(v, s, id);
    OnlyOne(Pending(s), was);
  }

  /** After cancel_work returned Success, that id is never executed again. */
  lemma CancelIsFinal(v: Variant, states: seq<State>, labels: seq<Label>, i: nat, j: nat, id: nat)
    requires IsRun(v, states, labels) && i < j < |labels| && states[j].posts < ID_SPACE
    requires labels[i] == Cancel(id) && CancelWork(states[i].q, id).1 == Success
    ensures match Executed(v, states[j], labels[j]) case None => true case Some(r) => r.id != id
  {
    hide Next, Enabled, CoreInv, CancelWork;
    RunInv(v, states, labels, i);
    PostsGrow(v, states, labels, i, j);
    CancelTakesAway(v, states[i], id);
    var kind: Kind := (x, work, client) => x == id;
    match Executed(v, states[j], labels[j])
    case None =>
    case Some(r) =>
      if r.id == id {
        var k := LaterInstall(v, states, labels, i, j, id, kind);
        RunInv(v, states, labels, k);
        UpdateNeedsPending(v, states[k], labels[k]);
        assert false;
      }
  }

  lemma OnlyReplacement(b: multiset<Record>, was: Record, r: Record)
    requires DistinctIds(b) && was in b && was.id == r.id
    ensures forall x :: x in b - multiset{was} + multiset{r} && x.id == r.id ==> x == r
  {
    assert (b - multiset{was})[was] == 0;
  }

  lemma UpdateReplaces(v: Variant, s: State, l: Label)
    requires l.Update? && Installed(s, l).Some?
    ensures var c := ChangeOf(v, s, l);
            c.Replace? && c.record == Record(l.start, l.client, l.work, l.period, l.id) && c.was.id == l.id
  {
  }

  lemma UpdateEvicts(v: Variant, s: State, l: Label, kind: Kind)
    requires Inv(v, s) && IdInv(s) && s.posts <= ID_SPACE
    requires Enabled(v, s, l) && l.Update? && Installed(s, l).Some?
    requires forall x, work, client :: kind(x, work, client) ==> x == l.id && work != l.work
    ensures l.id < s.posts && NonePending(Next(v, s, l), kind)
  {
    hide Next, Enabled, IsHeap, DistinctIds, ChangeOf, Installed, CounterInv;
    StepChanges(v, s, l);
    UpdateReplaces(v, s, l);
    var c := ChangeOf(v, s, l);
    OnlyReplacement(Pending(s), c.was, c.record);
  }

  /** After update_work returned Success, the id runs the new function: any other function
      executed under it was installed by a later update_work. */
  lemma UpdateIsFinal(v: Variant, states: seq<State>, labels: seq<Label>, i: nat, j: nat) returns (k: nat)
    requires IsRun(v, states, labels) && i < j < |labels| && states[j].posts < ID_SPACE
    requires labels[i].Update? && Installed(states[i], labels[i]).Some?
    requires Executed(v, states[j], labels[j]).Some?
    requires var r := Executed(v, states[j], labels[j]).value; r.id == labels[i].id && r.work != labels[i].work
    ensures i < k < j && labels[k].Update? && Installed(states[k], labels[k]).Some?
    ensures var r := Executed(v, states[j], labels[j]).value; labels[k].id == r.id && labels[k].work == r.work
  {
    var l, r := labels[i], Executed(v, states[j], labels[j]).value;
    RunInv(v, states, labels, i);
    PostsGrow(v, states, labels, i, j);
    var kind: Kind := (x, work, client) => x == l.id && work == r.work;
    UpdateEvicts(v, states[i], l, kind);
    k := LaterInstall(v, states, labels, i, j, l.id, kind);
  }
}
