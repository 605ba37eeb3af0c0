/**
 The scheduler seen from outside: a finite map from work ids to records. Every step of
 the heap-based queue, from any reachable state, is the matching step on that map.
 */
module WorkQueueRefinement {
  import opened Common
  import opened RecordHeap
  import opened HeapAlgorithms
  import opened WorkQueueModel
  import opened WorkQueueRuns
  import opened WorkQueueTheorems

  ghost predicate IsLeast(m: map<nat, Record>, id: nat) {
    id in m && forall x :: x in m ==> m[id].time <= m[x].time
  }

  /** `t` is what get_nearest_time_point may answer for `m`. */
  ghost predicate IsNearest(m: map<nat, Record>, t: nat) {
    if m == map[] then t == 0 else exists id :: IsLeast(m, id) && m[id].time == t
  }

  ghost predicate InsertStep(s: State, client: nat, work: Work, start: nat, period: int, clock: nat,
                             m: map<nat, Record>, m': map<nat, Record>) {
    if client == INVALID_ID || work == NoWork || s.q.stopped then m' == m
    else
      var id := NthId(s.posts);
      m' == m[id := Record(if start == 0 then clock else start, client, work, period, id)]
  }

  /** Extract a minimum, call it, and put it back at its next time point if it has one. */
  ghost predicate ExecuteStep(v: Variant, now: nat, outcome: Outcome, m: map<nat, Record>, m': map<nat, Record>,
                              id: nat, nearest: nat) {
    && IsLeast(m, id) && m[id].time <= now && IsNearest(m - {id}, nearest)
    && var r := m[id];
       var time := if v.Test? && r.work == Sentinel
                   then (if nearest == 0 || now < nearest then 0 else now)
                   else ExecuteWork(r, outcome);
       m' == if time == 0 || (v == Test(true) && r.work != Sentinel) then m - {id} else m[id := r.(time := time)]
  }

  /** The worker stands where it may execute, and a least record has a work and is due. */
  ghost predicate Ready(v: Variant, s: State, m: map<nat, Record>) {
    && (if v.Test? then s.pc == Scan else s.pc.Timed? && !s.q.changed)
    && exists id :: IsLeast(m, id) && m[id].work != NoWork && m[id].time <= s.now
  }

  /** What the worker reads from the front of the heap is what the map says. */
  lemma ExecutesIffReady(v: Variant, s: State, m: map<nat, Record>)
    requires Inv(v, s) && Represents(multiset(s.q.items), m)
    ensures Executes(v, s) <==> Ready(v, s, m)
  {
    hide IsHeap, DistinctIds;
    if s.q.items == [] {
      assert forall id :: id !in m;
    } else {
      var r := s.q.items[0];
      RootIsLeastOfBag(s.q.items);
      assert IsLeast(m, r.id) && m[r.id] == r;
      if Ready(v, s, m) {
        var id :| IsLeast(m, id) && m[id].work != NoWork && m[id].time <= s.now;
        assert m[id] in multiset(s.q.items) && m[id].time == r.time;
      }
    }
  }

  ghost predicate MapStep(v: Variant, s: State, l: Label, m: map<nat, Record>, m': map<nat, Record>) {
    match l
    case Schedule(client, work, start, period, clock) => InsertStep(s, client, work, start, period, clock, m, m')
    case PostSentinel(t, clock) => InsertStep(s, FORWARDING_CLIENT, Sentinel, t, 0, clock, m, m')
    case Stop =>
      var id := NthId(s.posts);
      m' == if s.q.stopped then m else map[id := TerminationRecord(id)]
    case Update(id, client, work, start, period) =>
      if client == INVALID_ID || work == NoWork || s.q.stopped || id !in m then m' == m
      else m' == m[id := Record(start, client, work, period, id)]
    case Cancel(id) => m' == if s.q.stopped then m else m - {id}
    case CancelClient(client) =>
      m' == if s.q.stopped then m else OfOtherClients(m, client)
    case Worker(outcome) =>
      if s.pc.InSync? then
        var r := s.pc.record.(time := s.pc.resume);
        m' == if r.time == 0 then m else m[r.id := r]
      else if Ready(v, s, m) then exists id, nearest :: ExecuteStep(v, s.now, outcome, m, m', id, nearest)
      else m' == if s.pc == Scan && s.q.stopped then map[] else m
    case _ => m' == m
  }

  lemma NearestOfHeap(s: seq<Record>, m: map<nat, Record>)
    requires IsHeap(s) && Represents(multiset(s), m)
    ensures IsNearest(m, NearestTime(s))
  {
    if s == [] {
      assert forall id :: id !in m;
    } else {
      PopRefinesExtractMin(TOP_DOWN, s, m);
      assert IsLeast(m, s[0].id);
    }
  }

  lemma InsertRefines(s: State, client: nat, work: Work, start: nat, period: int, clock: nat, m: map<nat, Record>)
    returns (m': map<nat, Record>)
    requires IsHeap(s.q.items) && IdInv(s) && s.posts < ID_SPACE && Represents(multiset(s.q.items), m)
    ensures var s' := AfterPost(s, ScheduleWork(s.q, client, work, start, period, clock));
            Represents(multiset(s'.q.items), m') && InsertStep(s, client, work, start, period, clock, m, m')
  {
    hide PushWith, NextIdentifier, NthId, Represents, IsHeap, Pending;
    m' := m;
    if client != INVALID_ID && work != NoWork && !s.q.stopped {
      var time := if start == 0 then clock else start;
      CounterYields(s.posts);
      FreshId(s, m);
      PostRefinesInsert(s.q, time, client, work, period, m);
      m' := m[NthId(s.posts) := Record(time, client, work, period, NthId(s.posts))];
    }
  }

  lemma FreshId(s: State, m: map<nat, Record>)
    requires IdInv(s) && s.posts <= ID_SPACE && Represents(multiset(s.q.items), m)
    ensures s.posts !in m
  {
    assert forall id :: id in m ==> m[id] in Pending(s);
  }

  lemma ExecutesDueRoot(v: Variant, s: State)
    requires Inv(v, s) && Executes(v, s)
    ensures s.q.items != [] && IsHeap(s.q.items) && s.q.items[0].time <= s.now && !s.pc.InSync?
  {
  }

  lemma RootIsExtracted(v: Variant, now: nat, outcome: Outcome, m: map<nat, Record>, m': map<nat, Record>,
                        r: Record, rest: seq<Record>)
    requires IsLeast(m, r.id) && m[r.id] == r && r.time <= now && IsNearest(m - {r.id}, NearestTime(rest))
    requires var time := ResumeTime(v, now, r, rest, outcome);
             m' == if time == 0 || (v == Test(true) && r.work != Sentinel) then m - {r.id} else m[r.id := r.(time := time)]
    ensures ExecuteStep(v, now, outcome, m, m', r.id, NearestTime(rest))
  {
  }

  lemma ExecuteRefines(v: Variant, s: State, outcome: Outcome, m: map<nat, Record>) returns (m': map<nat, Record>)
    requires Inv(v, s) && Executes(v, s) && Represents(multiset(s.q.items), m)
    ensures Represents(multiset(PopAndExecute(v, s, outcome).q.items), m')
    ensures MapStep(v, s, Worker(outcome), m, m')
  {
    hide Represents, PopWith, Settle, Inv, Executes, IsHeap, ResumeTime, ExecuteStep, Ready;
    ExecutesIffReady(v, s, m);
    ExecutesDueRoot(v, s);
    var r, rest := s.q.items[0], PopWith(s.q.heap, s.q.items);
    var nearest := NearestTime(rest);
    PopRefinesExtractMin(s.q.heap, s.q.items, m);
    NearestOfHeap(rest, m - {r.id});
    m' := SettleRefines(v, s, r, s.q.(items := rest), outcome, m);
    RootIsExtracted(v, s.now, outcome, m, m', r, rest);
  }

  lemma SettleRefines(v: Variant, s: State, r: Record, q: Queue, outcome: Outcome, m: map<nat, Record>)
    returns (m': map<nat, Record>)
    requires IsHeap(q.items) && r.id in m && m[r.id] == r && Represents(multiset(q.items), m - {r.id})
    ensures Represents(multiset(Settle(v, s, r, q, outcome).q.items), m')
    ensures var time := ResumeTime(v, s.now, r, q.items, outcome);
            m' == if time == 0 || (v == Test(true) && r.work != Sentinel) then m - {r.id} else m[r.id := r.(time := time)]
  {
    hide PushWith, Represents;
    var time := ResumeTime(v, s.now, r, q.items, outcome);
    ReinsertEffect(q, r, time);
    if time == 0 || (v == Test(true) && r.work != Sentinel) {
      m' := m - {r.id};
    } else {
      BagInsert(multiset(q.items), m - {r.id}, r.(time := time));
      m' := m[r.id := r.(time := time)];
      assert m' == (m - {r.id})[r.id := r.(time := time)];
    }
  }

  /** The record whose callback has ended is inserted again. */
  lemma PutBackRefines(s: State, m: map<nat, Record>) returns (m': map<nat, Record>)
    requires IsHeap(s.q.items) && DistinctIds(Pending(s)) && Represents(multiset(s.q.items), m)
    requires s.pc.InSync? && s.pc.resume != 0
    ensures Represents(multiset(Reinsert(s.q, s.pc.record, s.pc.resume).items), m')
    ensures var r := s.pc.record.(time := s.pc.resume); m' == m[r.id := r]
  {
    hide IsHeap, Reinsert;
    var r := s.pc.record.(time := s.pc.resume);
    ReinsertEffect(s.q, s.pc.record, s.pc.resume);
    assert r in Pending(s) && Pending(s)[r] == multiset(s.q.items)[r] + 1;
    assert r.id in m ==> m[r.id] in Pending(s);
    BagInsert(multiset(s.q.items), m, r);
    m' := m[r.id := r];
  }

  lemma WaitRefines(v: Variant, s: State, outcome: Outcome, m: map<nat, Record>) returns (m': map<nat, Record>)
    requires Inv(v, s) && IdInv(s) && s.posts <= ID_SPACE
    requires WorkerCanStep(v, s) && !Executes(v, s) && Represents(multiset(s.q.items), m)
    ensures Represents(multiset(WorkerStep(v, s, outcome).q.items), m')
    ensures MapStep(v, s, Worker(outcome), m, m')
  {
    hide Ready, IsHeap, Represents, DistinctIds, Pending, PopAndExecute, Executes, Reinsert, CounterInv;
    ExecutesIffReady(v, s, m);
    m' := m;
    if s.pc.InSync? {
      if s.pc.resume == 0 {
        NothingPutBack(s);
      } else {
        m' := PutBackRefines(s, m);
      }
    } else if s.pc == Scan && s.q.stopped {
      NothingRepresented();
      StoppedScan(v, s);
      m' := map[];
    } else if s.pc == Scan {
      RunningRoot(v, s);
    }
  }

  lemma NothingPutBack(s: State)
    requires s.pc.InSync? && s.pc.resume == 0
    ensures Reinsert(s.q, s.pc.record, s.pc.resume) == s.q
  {
  }

  lemma StoppedScan(v: Variant, s: State)
    requires CoreInv(v, s) && s.pc == Scan && s.q.stopped
    ensures s.q.items != [] && s.q.items[0].work == NoWork
  {
  }

  lemma UpdateRefines(v: Variant, s: State, l: Label, m: map<nat, Record>) returns (m': map<nat, Record>)
    requires Enabled(v, s, l) && l.Update?
    requires IsHeap(s.q.items) && Represents(multiset(s.q.items), m)
    ensures Represents(multiset(Next(v, s, l).q.items), m') && MapStep(v, s, l, m, m')
  {
    hide Represents, MakeWith, IsHeap;
    m' := m;
    if !s.q.stopped && l.client != INVALID_ID && l.work != NoWork {
      UpdateRefinesReplace(s.q, l.id, l.client, l.work, l.start, l.period, m);
      if l.id in m {
        m' := m[l.id := Record(l.start, l.client, l.work, l.period, l.id)];
      }
    }
  }

  lemma NothingRepresented()
    ensures Represents(multiset([]), map[])
  {
  }

  lemma StopRefines(v: Variant, s: State, m: map<nat, Record>) returns (m': map<nat, Record>)
    requires IdInv(s) && Represents(multiset(s.q.items), m)
    ensures Represents(multiset(Next(v, s, Stop).q.items), m') && MapStep(v, s, Stop, m, m')
  {
    hide PushWith, NextIdentifier, NthId, Represents;
    m' := m;
    if !s.q.stopped {
      var q := s.q.(items := []);
      NothingRepresented();
      CounterYields(s.posts);
      PostRefinesInsert(q, 0, INVALID_ID, NoWork, 0, map[]);
      var id := NthId(s.posts);
      m' := map[id := TerminationRecord(id)];
      assert m' == map[][id := TerminationRecord(id)];
    }
  }

  lemma CancelRefines(v: Variant, s: State, l: Label, m: map<nat, Record>) returns (m': map<nat, Record>)
    requires l.Cancel? || l.CancelClient?
    requires IsHeap(s.q.items) && Represents(multiset(s.q.items), m)
    ensures Represents(multiset(Next(v, s, l).q.items), m') && MapStep(v, s, l, m, m')
  {
    hide Represents, MakeWith, WithoutClient, IsHeap;
    m' := m;
    if !s.q.stopped && l.Cancel? {
      CancelRefinesDelete(s.q, l.id, m);
      m' := m - {l.id};
    }
    if !s.q.stopped && l.CancelClient? {
      CancelClientRefinesDeleteAll(s.q, l.client, m);
      m' := OfOtherClients(m, l.client);
    }
  }

  /** Refinement, step by step along any run, until the id counter wraps. */
  lemma StepRefinesMap(v: Variant, states: seq<State>, labels: seq<Label>, i: nat, m: map<nat, Record>)
    returns (m': map<nat, Record>)
    requires IsRun(v, states, labels) && i < |labels| && states[i].posts < ID_SPACE
    requires Represents(multiset(states[i].q.items), m)
    ensures Represents(multiset(states[i + 1].q.items), m') && MapStep(v, states[i], labels[i], m, m')
  {
    RunInv(v, states, labels, i);
    m' := AnyStepRefines(v, states[i], labels[i], m);
  }

  lemma AnyStepRefines(v: Variant, s: State, l: Label, m: map<nat, Record>) returns (m': map<nat, Record>)
    requires Inv(v, s) && IdInv(s) && s.posts < ID_SPACE && Enabled(v, s, l) && Represents(multiset(s.q.items), m)
    ensures Represents(multiset(Next(v, s, l).q.items), m') && MapStep(v, s, l, m, m')
  {
    hide Represents, ScheduleWork, PopAndExecute, ExecuteStep, InsertStep, DistinctIds;
    match l
    case Schedule(client, work, start, period, clock) => m' := InsertRefines(s, client, work, start, period, clock, m);
    case PostSentinel(t, clock) => m' := SentinelRefines(v, s, l, m);
    case Update(_, _, _, _, _) => m' := UpdateRefines(v, s, l, m);
    case Stop => m' := StopRefines(v, s, m);
    case Worker(outcome) =>
      if Executes(v, s) {
        m' := ExecuteRefines(v, s, outcome, m);
      } else {
        m' := WaitRefines(v, s, outcome, m);
      }
    case _ =>
      if l.Cancel? || l.CancelClient? {
        m' := CancelRefines(v, s, l, m);
      } else {
        m' := m;
      }
  }

  lemma SentinelRefines(v: Variant, s: State, l: Label, m: map<nat, Record>) returns (m': map<nat, Record>)
    requires Inv(v, s) && IdInv(s) && s.posts < ID_SPACE && l.PostSentinel? && Enabled(v, s, l)
    requires Represents(multiset(s.q.items), m)
    ensures Represents(multiset(Next(v, s, l).q.items), m') && MapStep(v, s, l, m, m')
  {
    hide Represents, ScheduleWork, AfterPost, InsertStep, CoreInv, WaitInv, IdInv;
    CallingKeepsIds(v, s, l.time);
    m' := InsertRefines(Calling(s, l.time), FORWARDING_CLIENT, Sentinel, l.time, 0, l.clock, m);
    CallingInserts(s, l.time, l.clock, m, m');
  }

  lemma CallingKeepsIds(v: Variant, s: State, t: nat)
    requires CoreInv(v, s) && IdInv(s)
    ensures var s' := Calling(s, t); IdInv(s') && IsHeap(s'.q.items) && s'.q == s.q && s'.posts == s.posts
  {
    hide IsHeap, DistinctIds, NthId;
    assert Pending(Calling(s, t)) == Pending(s);
  }

  lemma CallingInserts(s: State, t: nat, clock: nat, m: map<nat, Record>, m': map<nat, Record>)
    requires InsertStep(Calling(s, t), FORWARDING_CLIENT, Sentinel, t, 0, clock, m, m')
    ensures InsertStep(s, FORWARDING_CLIENT, Sentinel, t, 0, clock, m, m')
  {
  }
}
