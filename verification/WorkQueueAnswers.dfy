/**
 What the calls of the work queue answer in every run: which arguments are refused and how, that
 a refused call changes nothing, and that only the first stop counts.
 */
module WorkQueueAnswers {
  import opened Common
  import opened RecordHeap
  import opened HeapAlgorithms
  import opened WorkQueueModel
  import opened WorkQueueRuns
  import opened WorkQueueTheorems

  /** Has signal_worker_to_stop been called before step `i`? */
  ghost predicate StopCalled(labels: seq<Label>, i: nat)
    requires i <= |labels|
  {
    exists k :: 0 <= k < i && labels[k] == Stop
  }

  /** What signal_worker_to_stop answers. */
  ghost function StopAnswer(s: State): bool {
    StopWorker(s.q).1
  }

  lemma StepStops(v: Variant, s: State, l: Label)
    requires Enabled(v, s, l)
    ensures Next(v, s, l).q.stopped <==> s.q.stopped || l == Stop
  {
    hide NextIdentifier, PushWith, MakeWith, WorkerStep, WorkerCanStep;
    if l.Worker? {
      WorkerKeepsRest(v, s, l.outcome);
    }
  }

  lemma {:induction false} StoppedByCall(v: Variant, states: seq<State>, labels: seq<Label>, i: nat)
    requires IsRun(v, states, labels) && i < |states|
    ensures states[i].q.stopped <==> StopCalled(labels, i)
  {
    hide Next, Enabled;
    if i > 0 {
      StoppedByCall(v, states, labels, i - 1);
      StepStops(v, states[i - 1], labels[i - 1]);
    }
  }

  /** Of any number of calls of signal_worker_to_stop exactly the first answers true; the others
      change nothing. */
  lemma FirstStopCounts(v: Variant, states: seq<State>, labels: seq<Label>, i: nat)
    requires IsRun(v, states, labels) && i < |labels| && labels[i] == Stop
    ensures StopAnswer(states[i]) <==> !StopCalled(labels, i)
    ensures StopCalled(labels, i) ==> states[i + 1] == states[i]
  {
    StoppedByCall(v, states, labels, i);
  }

  // ---------- status codes ----------

  /** The status that a call returns. */
  ghost function Answer(s: State, l: Label): Option<Status> {
    match l
    case Schedule(client, work, start, period, clock) => Some(ScheduleWork(s.q, client, work, start, period, clock).status)
    case Update(id, client, work, start, period) => Some(UpdateWork(s.q, id, client, work, start, period).1)
    case Cancel(id) => Some(CancelWork(s.q, id).1)
    case CancelClient(client) => Some(CancelClientWorks(s.q, client).1)
    case _ => None
  }

  /** The id that schedule_work returns. */
  ghost function IdGiven(s: State, l: Label): nat
    requires l.Schedule?
  {
    ScheduleWork(s.q, l.client, l.work, l.start, l.period, l.clock).id
  }

  ghost predicate InContainer(s: State, id: nat) {
    exists r :: r in multiset(s.q.items) && r.id == id
  }

  ghost predicate ClientInContainer(s: State, client: nat) {
    exists r :: r in multiset(s.q.items) && r.client == client
  }

  /** The status that the documentation of the calls promises. */
  ghost function Promised(s: State, l: Label, stopped: bool): Option<Status> {
    match l
    case Schedule(client, work, _, _, _) =>
      Some(if client == INVALID_ID || work == NoWork then InvalidArgument else if stopped then NotAllowed else Success)
    case Update(id, client, work, _, _) =>
      Some(if client == INVALID_ID || work == NoWork then InvalidArgument
           else if stopped then NotAllowed
           else if InContainer(s, id) then Success else NotFound)
    case Cancel(id) => Some(if stopped then NotAllowed else if InContainer(s, id) then Success else NotFound)
    case CancelClient(client) => Some(if stopped then NotAllowed else if ClientInContainer(s, client) then Success else NotFound)
    case _ => None
  }

  /** Each call answers as promised, the stop being told from the calls before; a call that does not
      answer Success changes nothing and gives no id. */
  lemma AnswersAsPromised(v: Variant, states: seq<State>, labels: seq<Label>, i: nat)
    requires IsRun(v, states, labels) && i < |labels|
    ensures Answer(states[i], labels[i]) == Promised(states[i], labels[i], StopCalled(labels, i))
    ensures Answer(states[i], labels[i]).Some? && Answer(states[i], labels[i]) != Some(Success) ==>
              states[i + 1] == states[i] && (labels[i].Schedule? ==> IdGiven(states[i], labels[i]) == INVALID_ID)
  {
    hide Inv, IdInv, Answer, Promised, Next, IdGiven;
    RunInv(v, states, labels, i);
    StoppedByCall(v, states, labels, i);
    CoreParts(v, states[i]);
    StatusOf(states[i], labels[i]);
    if Answer(states[i], labels[i]).Some? && Answer(states[i], labels[i]) != Some(Success) {
      RefusedChangesNothing(v, states[i], labels[i]);
    }
  }

  lemma CoreParts(v: Variant, s: State)
    requires Inv(v, s)
    ensures IsHeap(s.q.items)
  {
  }

  lemma StatusOf(s: State, l: Label)
    requires IsHeap(s.q.items)
    ensures Answer(s, l) == Promised(s, l, s.q.stopped)
  {
    hide IsHeap, NextIdentifier, PushWith, InContainer, ClientInContainer, UpdateWork, CancelWork, CancelClientWorks;
    match l
    case Update(id, client, work, start, period) => UpdateStatus(s, id, client, work, start, period);
    case Cancel(id) => CancelStatus(s, id);
    case CancelClient(client) => CancelClientStatus(s, client);
    case _ =>
  }

  lemma UpdateStatus(s: State, id: nat, client: nat, work: Work, start: nat, period: int)
    ensures UpdateWork(s.q, id, client, work, start, period).1 ==
              if client == INVALID_ID || work == NoWork then InvalidArgument
              else if s.q.stopped then NotAllowed
              else if InContainer(s, id) then Success else NotFound
  {
    hide MakeWith;
    FoundInContainer(s.q.items, id);
  }

  lemma CancelStatus(s: State, id: nat)
    ensures CancelWork(s.q, id).1 == if s.q.stopped then NotAllowed else if InContainer(s, id) then Success else NotFound
  {
    hide MakeWith, SwapRemove;
    FoundInContainer(s.q.items, id);
  }

  lemma CancelClientStatus(s: State, client: nat)
    ensures CancelClientWorks(s.q, client).1
         == if s.q.stopped then NotAllowed else if ClientInContainer(s, client) then Success else NotFound
  {
    hide MakeWith, WithoutClient;
    WithoutClientBag(s.q.items, client);
  }

  lemma FoundInContainer(s: seq<Record>, id: nat)
    ensures FindWork(s, id).Some? <==> exists r :: r in multiset(s) && r.id == id
  {
    if FindWork(s, id).Some? {
      assert s[FindWork(s, id).value] in multiset(s);
    }
  }

  lemma RefusedChangesNothing(v: Variant, s: State, l: Label)
    requires Enabled(v, s, l) && Answer(s, l).Some? && Answer(s, l) != Some(Success)
    ensures Next(v, s, l) == s && (l.Schedule? ==> IdGiven(s, l) == INVALID_ID)
  {
    hide NextIdentifier, PushWith, MakeWith;
  }

  /** What schedule_work accepts is pending from then on, once, under the id it returned, which no
      other pending record has until ids wrap; an empty start is replaced by the clock. */
  lemma ScheduledIsPending(v: Variant, states: seq<State>, labels: seq<Label>, i: nat)
    requires IsRun(v, states, labels) && i < |labels| && labels[i].Schedule? && Answer(states[i], labels[i]) == Some(Success)
    ensures var s, s', l := states[i], states[i + 1], labels[i];
            var r := Record(if l.start == 0 then l.clock else l.start, l.client, l.work, l.period, IdGiven(s, l));
            && Pending(s') == Pending(s) + multiset{r} && r.id == NthId(s.posts) && s'.posts == s.posts + 1
            && (s.posts < ID_SPACE ==> forall x :: x in Pending(s) ==> x.id != r.id)
  {
    hide Inv, IdInv, Next, Answer, IdGiven, NthId;
    RunInv(v, states, labels, i);
    CoreParts(v, states[i]);
    AcceptedIsPending(v, states[i], labels[i]);
    IdIsFresh(states[i]);
  }

  lemma AcceptedIsPending(v: Variant, s: State, l: Label)
    requires IsHeap(s.q.items) && CounterInv(s) && l.Schedule? && Enabled(v, s, l) && Answer(s, l) == Some(Success)
    ensures var s' := Next(v, s, l);
            var r := Record(if l.start == 0 then l.clock else l.start, l.client, l.work, l.period, IdGiven(s, l));
            Pending(s') == Pending(s) + multiset{r} && r.id == NthId(s.posts) && s'.posts == s.posts + 1
  {
    hide IsHeap, WorkQueueModel.PostWork, NextIdentifier, NthId;
    NextDrawn(s);
    var time := if l.start == 0 then l.clock else l.start;
    if s.q.stopped {
      NothingPosted(s.q, time, l.client, l.work, l.period);
    } else {
      PostEffect(s.q, time, l.client, l.work, l.period);
    }
  }

  lemma IdIsFresh(s: State)
    requires IdInv(s)
    ensures CounterInv(s)
    ensures s.posts < ID_SPACE ==> forall x :: x in Pending(s) ==> x.id != NthId(s.posts)
  {
    NextDrawn(s);
  }
}
