/**
 The drain of the virtual-time queue, with no client interfering: the sentinel that re-arms
 itself until nothing due remains.

 The work functions are an oracle from (work id, time point) to what the call does.
 */
module Forwarding {
  import opened RecordHeap
  import opened HeapAlgorithms
  import opened WorkQueueModel
  import opened WorkQueueRuns
  import opened BagSums

  type Oracle = (nat, nat) -> Outcome
  type Execution = (nat, nat)   // work id and time point

  // ---------- what forwarding to a time should do, record by record ----------

  ghost predicate Repeats(r: Record, o: Oracle) {
    o(r.id, r.time) == Again && 0 < r.period
  }

  /** The executions owed by a record up to `now`. */
  ghost function Due(r: Record, now: nat, o: Oracle): multiset<Execution>
    decreases now + 1 - r.time
  {
    if now < r.time then multiset{}
    else
      multiset{(r.id, r.time)}
      + if Repeats(r, o) then Due(r.(time := r.time + r.period), now, o) else multiset{}
  }

  /** What is left of a record after `now`: itself at its first later time point, or nothing. */
  ghost function Left(r: Record, now: nat, o: Oracle): multiset<Record>
    decreases now + 1 - r.time
  {
    if now < r.time then multiset{r}
    else if Repeats(r, o) then Left(r.(time := r.time + r.period), now, o)
    else multiset{}
  }

  ghost function DueBy(now: nat, o: Oracle): Record -> multiset<Execution> { r => Due(r, now, o) }
  ghost function LeftBy(now: nat, o: Oracle): Record -> multiset<Record> { r => Left(r, now, o) }

  ghost function AllDue(b: multiset<Record>, now: nat, o: Oracle): multiset<Execution> {
    BagSum(DueBy(now, o), b)
  }

  ghost function AllLeft(b: multiset<Record>, now: nat, o: Oracle): multiset<Record> {
    BagSum(LeftBy(now, o), b)
  }

  // ---------- the drain ----------

  /** The virtual-time queue before any stop. */
  ghost predicate Serving(v: Variant, s: State) {
    v.Test? && CoreInv(v, s) && !s.q.stopped
  }

  /** A forward_time call has posted its sentinel at the current time; no other is pending. */
  ghost predicate Draining(v: Variant, s: State, sentinel: Record) {
    && Serving(v, s)
    && sentinel.work == Sentinel && sentinel.time == s.now
    && multiset(s.q.items)[sentinel] == 1
    && (forall r :: r in Pending(s) && r.work == Sentinel ==> r == sentinel)
    && (s.pc.Timed? ==> s.q.changed)
  }

  ghost function Users(s: State, sentinel: Record): multiset<Record> {
    Pending(s) - multiset{sentinel}
  }

  /** What the oracle says about the front record. */
  ghost function Answer(s: State, o: Oracle): Outcome {
    if s.q.items == [] then Enough else o(s.q.items[0].id, s.q.items[0].time)
  }

  ghost predicate SentinelAtRoot(s: State) {
    s.q.items != [] && s.q.items[0].work == Sentinel
  }

  /** The user's execution in a worker step, if there is one. */
  ghost function StepLog(v: Variant, s: State): seq<Execution> {
    if Executes(v, s) && !SentinelAtRoot(s) then [(s.q.items[0].id, s.q.items[0].time)] else []
  }

  lemma DrainingCanStep(v: Variant, s: State, sentinel: Record)
    requires Draining(v, s, sentinel)
    ensures WorkerCanStep(v, s)
    ensures s.pc == Scan <==> Executes(v, s)
    ensures s.q.items != [] && s.q.items[0].time <= s.now && s.q.items[0] in multiset(s.q.items)
    ensures s.q.items[0].work == Sentinel ==> s.q.items[0] == sentinel
  {
    assert sentinel in multiset(s.q.items);
    RootIsLeastOfBag(s.q.items);
    assert s.q.items[0] in Pending(s);
  }

  /** Waking and putting a record back lose nothing. */
  lemma WaitShape(v: Variant, s: State, outcome: Outcome)
    requires CoreInv(v, s) && WorkerCanStep(v, s) && !Executes(v, s) && s.pc != Scan
    ensures var s' := WorkerStep(v, s, outcome);
            && s' == s.(q := s'.q, pc := Scan) && s'.q.stopped == s.q.stopped && Pending(s') == Pending(s)
            && multiset(s.q.items) <= multiset(s'.q.items)
            && (s.q.items != [] ==> s'.q.items[0] == s.q.items[0] || (s.pc.InSync? && s'.q.items[0].work == s.pc.record.work))
  {
    hide PushWith, IsHeap;
    if s.pc.InSync? {
      ReinsertEffect(s.q, s.pc.record, s.pc.resume);
    }
  }

  lemma WaitStep(v: Variant, s: State, sentinel: Record, o: Oracle)
    requires Draining(v, s, sentinel) && s.pc != Scan
    ensures WorkerCanStep(v, s)
    ensures var s' := WorkerStep(v, s, Answer(s, o));
            && Draining(v, s', sentinel) && s'.pc == Scan && s'.tokens == s.tokens && s'.now == s.now
            && Users(s', sentinel) == Users(s, sentinel)
            && (SentinelAtRoot(s') ==> SentinelAtRoot(s))
  {
    hide WorkerStep, WorkerCanStep, IsHeap;
    DrainingCanStep(v, s, sentinel);
    WorkerKeepsInv(v, s, Answer(s, o));
    WaitShape(v, s, Answer(s, o));
    OneSentinel(v, s, sentinel);
    var s' := WorkerStep(v, s, Answer(s, o));
    assert 1 <= multiset(s'.q.items)[sentinel] <= Pending(s')[sentinel];
  }

  /** What an executed record leaves behind. */
  ghost function Resumed(r: Record, o: Oracle): multiset<Record> {
    if Repeats(r, o) then multiset{r.(time := r.time + r.period)} else multiset{}
  }

  lemma UserResumes(v: Variant, now: nat, r: Record, rest: seq<Record>, o: Oracle)
    requires r.work != Sentinel
    ensures ResumeTime(v, now, r, rest, o(r.id, r.time)) == if Repeats(r, o) then r.time + r.period else 0
    ensures var time := ResumeTime(v, now, r, rest, o(r.id, r.time));
            Resumed(r, o) == if time == 0 then multiset{} else multiset{r.(time := time)}
  {
  }

  /** What keeps a state draining: the sentinel stays, and no other comes. */
  lemma StillDraining(v: Variant, s: State, s': State, sentinel: Record, was: multiset<Record>, new_: multiset<Record>)
    requires Draining(v, s, sentinel) && CoreInv(v, s') && !s'.q.stopped && s'.now == s.now
    requires s'.pc == Scan || (s'.pc.InSync? && s'.pc.record.work != Sentinel)
    requires Pending(s') == Pending(s) - was + new_
    requires was[sentinel] == new_[sentinel] && forall r :: r in new_ && r.work == Sentinel ==> r == sentinel
    requires Pending(s)[sentinel] == 1 && was <= Pending(s)
    ensures Draining(v, s', sentinel)
  {
    assert Pending(s')[sentinel] == 1;
    assert multiset(s'.q.items)[sentinel] == 1;
  }

  lemma OneSentinel(v: Variant, s: State, sentinel: Record)
    requires Draining(v, s, sentinel)
    ensures Pending(s)[sentinel] == 1
  {
  }

  lemma UserStep(v: Variant, s: State, sentinel: Record, o: Oracle)
    requires Draining(v, s, sentinel) && s.pc == Scan && !SentinelAtRoot(s)
    ensures WorkerCanStep(v, s) && s.q.items != []
    ensures var s', r := WorkerStep(v, s, Answer(s, o)), s.q.items[0];
            && Draining(v, s', sentinel) && s'.tokens == s.tokens && s'.now == s.now
            && r in Users(s, sentinel) && r.time <= s.now
            && Users(s', sentinel) == Users(s, sentinel) - multiset{r} + Resumed(r, o)
  {
    hide WorkerStep, Resumed, Pending, PopWith, IsHeap, Executes;
    DrainingCanStep(v, s, sentinel);
    OneSentinel(v, s, sentinel);
    ExecutionBags(v, s, o);
    WorkerKeepsInv(v, s, Answer(s, o));
    var s', r := WorkerStep(v, s, Answer(s, o)), s.q.items[0];
    BagAround(Pending(s), Pending(s'), r, Resumed(r, o), sentinel);
    StillDraining(v, s, s', sentinel, multiset{r}, Resumed(r, o));
  }

  /** What executing the user's record at the front does to the pending records. */
  lemma ExecutionBags(v: Variant, s: State, o: Oracle)
    requires Serving(v, s) && Executes(v, s) && !SentinelAtRoot(s)
    ensures WorkerCanStep(v, s) && s.q.items != [] && WaitInv(v, s) && s.pc == Scan
    ensures var s', r := WorkerStep(v, s, Answer(s, o)), s.q.items[0];
            && s' == s.(pc := s'.pc, q := s.q.(items := s'.q.items))
            && (s'.pc == Scan || (s'.pc.InSync? && s'.pc.record.work != Sentinel))
            && r in Pending(s) && r.work != Sentinel && r.time <= s.now
            && (forall x :: x in Resumed(r, o) ==> x.work != Sentinel && r.time <= x.time)
            && Pending(s') == Pending(s) - multiset{r} + Resumed(r, o)
  {
    hide PopWith, Settle, IsHeap, ResumeTime;
    ExecuteEffect(v, s, Answer(s, o));
    UserResumes(v, s.now, s.q.items[0], PopWith(s.q.heap, s.q.items), o);
  }

  lemma BagAround(b: multiset<Record>, b': multiset<Record>, r: Record, new_: multiset<Record>, x: Record)
    requires b' == b - multiset{r} + new_ && r in b && r != x && x !in new_ && b[x] == 1
    ensures r in b - multiset{x}
    ensures b' - multiset{x} == b - multiset{x} - multiset{r} + new_
  {
  }

  /** At a time point after the epoch, the sentinel's test for completion means what it
      should: nothing left in the container is due. */
  lemma ReleasedIffNothingDue(h: Heaps, s: seq<Record>, now: nat)
    requires IsHeap(s) && s != [] && s[0].time == now && 0 < now
    ensures var rest := PopWith(h, s);
            && (Released(now, rest) <==> forall r :: r in multiset(rest) ==> now < r.time)
            && (rest != [] ==> now <= rest[0].time && rest[0] in multiset(rest))
  {
    hide IsHeap, PopWith;
    var rest := PopWith(h, s);
    PopWithIsHeap(h, s);
    RootIsLeastOfBag(s);
    if rest != [] {
      RootIsLeastOfBag(rest);
      assert rest[0] in multiset(s);
    }
  }

  /** The drain is over: the waiting caller is released and, after the epoch, nothing due remains. */
  ghost predicate Settled(s: State, s': State, sentinel: Record) {
    && s'.q == s.q.(items := s'.q.items, changed := s'.q.changed) && s'.now == s.now && s'.between == s.between
    && s'.tokens == s.tokens + 1 && s'.pc == Scan && IsHeap(s'.q.items)
    && Pending(s') == Users(s, sentinel)
    && (0 < s.now ==> forall r :: r in Pending(s') ==> s.now < r.time)
  }

  lemma SentinelReleases(v: Variant, s: State, sentinel: Record, o: Oracle)
    requires Draining(v, s, sentinel) && s.pc == Scan && SentinelAtRoot(s)
    requires s.q.items != [] && Released(s.now, PopWith(s.q.heap, s.q.items))
    ensures WorkerCanStep(v, s) && Settled(s, WorkerStep(v, s, Answer(s, o)), sentinel)
  {
    hide Settle, PopWith, IsHeap, Released;
    DrainingCanStep(v, s, sentinel);
    if 0 < s.now {
      ReleasedBag(s.q.heap, s.q.items, s.now);
    }
    ExecuteEffect(v, s, Answer(s, o));
  }

  lemma ReleasedBag(h: Heaps, s: seq<Record>, now: nat)
    requires IsHeap(s) && s != [] && s[0].time == now && 0 < now && Released(now, PopWith(h, s))
    ensures forall r :: r in multiset(s) - multiset{s[0]} ==> now < r.time
  {
    ReleasedIffNothingDue(h, s, now);
    PopWithIsHeap(h, s);
  }

  lemma SentinelRearms(v: Variant, s: State, sentinel: Record, o: Oracle)
    requires Draining(v, s, sentinel) && s.pc == Scan && SentinelAtRoot(s)
    requires s.q.items != [] && !Released(s.now, PopWith(s.q.heap, s.q.items))
    ensures WorkerCanStep(v, s)
    ensures var s' := WorkerStep(v, s, Answer(s, o));
            && Draining(v, s', sentinel) && !SentinelAtRoot(s') && s'.pc == Scan
            && s'.now == s.now && s'.tokens == s.tokens && Users(s', sentinel) == Users(s, sentinel)
  {
    hide PopWith, Settle, IsHeap, NearestTime;
    DrainingCanStep(v, s, sentinel);
    OneSentinel(v, s, sentinel);
    WorkerKeepsInv(v, s, Answer(s, o));
    ExecuteEffect(v, s, Answer(s, o));
    RearmedBelowRoot(v, s, sentinel, Answer(s, o));
    StillDraining(v, s, WorkerStep(v, s, Answer(s, o)), sentinel, multiset{sentinel}, multiset{sentinel});
  }

  /** A re-armed sentinel does not displace the due root, whichever record pop_heap put there. */
  lemma RearmedBelowRoot(v: Variant, s: State, sentinel: Record, outcome: Outcome)
    requires Draining(v, s, sentinel) && s.q.items != [] && s.q.items[0] == sentinel
    requires !Released(s.now, PopWith(s.q.heap, s.q.items))
    ensures 0 < s.now && !SentinelAtRoot(PopAndExecute(v, s, outcome))
  {
    hide PushWith, PopWith, IsHeap;
    var rest := PopWith(s.q.heap, s.q.items);
    PopWithIsHeap(s.q.heap, s.q.items);
    assert 0 < s.now;
    ReleasedIffNothingDue(s.q.heap, s.q.items, s.now);
    ReinsertEffect(s.q.(items := rest), sentinel, s.now);
    assert rest[0] in Pending(s);
  }

  // ---------- accounting ----------

  lemma AllDueStep(b: multiset<Record>, r: Record, now: nat, o: Oracle)
    requires r in b && r.time <= now
    ensures AllDue(b, now, o) == multiset{(r.id, r.time)} + AllDue(b - multiset{r} + Resumed(r, o), now, o)
  {
    hide BagSum;
    BagSumAt(DueBy(now, o), b, r);
    if Repeats(r, o) {
      BagSumInsert(DueBy(now, o), b - multiset{r}, r.(time := r.time + r.period));
    } else {
      assert b - multiset{r} + Resumed(r, o) == b - multiset{r};
    }
  }

  lemma AllLeftStep(b: multiset<Record>, r: Record, now: nat, o: Oracle)
    requires r in b && r.time <= now
    ensures AllLeft(b, now, o) == AllLeft(b - multiset{r} + Resumed(r, o), now, o)
  {
    hide BagSum;
    BagSumAt(LeftBy(now, o), b, r);
    if Repeats(r, o) {
      BagSumInsert(LeftBy(now, o), b - multiset{r}, r.(time := r.time + r.period));
    } else {
      assert b - multiset{r} + Resumed(r, o) == b - multiset{r};
    }
  }

  /** When nothing is due, nothing is owed and everything is left as it is. */
  lemma {:induction false} NothingDue(b: multiset<Record>, now: nat, o: Oracle)
    requires forall r :: r in b ==> now < r.time
    ensures AllDue(b, now, o) == multiset{} && AllLeft(b, now, o) == b
    decreases |b|
  {
    if b != multiset{} {
      var r :| r in b;
      NothingDue(b - multiset{r}, now, o);
      BagSumAt(DueBy(now, o), b, r);
      BagSumAt(LeftBy(now, o), b, r);
    }
  }

  // ---------- the drain as a whole ----------

  datatype Drained = Drained(log: seq<Execution>, state: State)

  /** The worker steps until the sentinel releases the caller. That this function is well
      defined is the termination of the drain: every step either pays one owed execution,
      or takes the sentinel from the root, or leaves a wait. */
  ghost function Drain(v: Variant, s: State, sentinel: Record, o: Oracle): Drained
    requires Draining(v, s, sentinel)
    decreases |AllDue(Users(s, sentinel), s.now, o)|, SentinelAtRoot(s), s.pc != Scan
  {
    DrainProgress(v, s, sentinel, o);
    var s' := WorkerStep(v, s, Answer(s, o));
    if s'.tokens != s.tokens then Drained([], s')
    else
      var rest := Drain(v, s', sentinel, o);
      Drained(StepLog(v, s) + rest.log, rest.state)
  }

  lemma DrainProgress(v: Variant, s: State, sentinel: Record, o: Oracle)
    requires Draining(v, s, sentinel)
    ensures WorkerCanStep(v, s)
    ensures var s' := WorkerStep(v, s, Answer(s, o));
            if s'.tokens != s.tokens then Settled(s, s', sentinel) && StepLog(v, s) == []
            else
              && Draining(v, s', sentinel) && s'.now == s.now
              && (var due, due' := AllDue(Users(s, sentinel), s.now, o), AllDue(Users(s', sentinel), s.now, o);
                  && due == multiset(StepLog(v, s)) + due'
                  && (|due'| < |due| || (due' == due &&
                       ((SentinelAtRoot(s) && !SentinelAtRoot(s'))
                        || (SentinelAtRoot(s) == SentinelAtRoot(s') && s.pc != Scan && s'.pc == Scan)))))
              && AllLeft(Users(s', sentinel), s.now, o) == AllLeft(Users(s, sentinel), s.now, o)
  {
    DrainingCanStep(v, s, sentinel);
    hide WorkerStep, Draining, Users, AllDue, AllLeft, Settled;
    if s.pc != Scan {
      WaitStep(v, s, sentinel, o);
    } else if !SentinelAtRoot(s) {
      UserStep(v, s, sentinel, o);
      AllDueStep(Users(s, sentinel), s.q.items[0], s.now, o);
      AllLeftStep(Users(s, sentinel), s.q.items[0], s.now, o);
    } else if Released(s.now, PopWith(s.q.heap, s.q.items)) {
      SentinelReleases(v, s, sentinel, o);
    } else {
      SentinelRearms(v, s, sentinel, o);
    }
  }

  /** One step of the drain, as the induction below sees it. */
  lemma DrainUnfolds(v: Variant, s: State, sentinel: Record, o: Oracle)
    requires Draining(v, s, sentinel)
    ensures WorkerCanStep(v, s)
    ensures var s' := WorkerStep(v, s, Answer(s, o));
            if s'.tokens != s.tokens then Drain(v, s, sentinel, o) == Drained([], s')
            else
              && Draining(v, s', sentinel)
              && Drain(v, s, sentinel, o).log == StepLog(v, s) + Drain(v, s', sentinel, o).log
              && Drain(v, s, sentinel, o).state == Drain(v, s', sentinel, o).state
  {
    DrainProgress(v, s, sentinel, o);
  }

  /** The account of the drain, at any time: what was executed and what is still owed together
      are what was owed; and after the epoch nothing is owed when the caller is released. */
  lemma {:induction false} DrainAccounts(v: Variant, s: State, sentinel: Record, o: Oracle)
    requires Draining(v, s, sentinel)
    ensures var d := Drain(v, s, sentinel, o);
            && multiset(d.log) + AllDue(Pending(d.state), s.now, o) == AllDue(Users(s, sentinel), s.now, o)
            && AllLeft(Pending(d.state), s.now, o) == AllLeft(Users(s, sentinel), s.now, o)
            && (0 < s.now ==> forall r :: r in Pending(d.state) ==> s.now < r.time)
    decreases |AllDue(Users(s, sentinel), s.now, o)|, SentinelAtRoot(s), s.pc != Scan
  {
    hide Serving, Draining, Users, Pending, AllDue, AllLeft, WorkerStep, WorkerCanStep, Answer, Drain, StepLog,
      SentinelAtRoot, Executes, IsHeap;
    DrainProgress(v, s, sentinel, o);
    DrainUnfolds(v, s, sentinel, o);
    var s' := WorkerStep(v, s, Answer(s, o));
    if s'.tokens == s.tokens {
      DrainAccounts(v, s', sentinel, o);
    }
  }

  /** The drain is exact. After the epoch, when the caller is released, every execution owed up
      to the current time has been made, each exactly as often as owed, and nothing else; every
      record is left at its first later time point, and none is due. */
  lemma DrainIsExact(v: Variant, s: State, sentinel: Record, o: Oracle)
    requires Draining(v, s, sentinel) && 0 < s.now
    ensures var d := Drain(v, s, sentinel, o);
            && multiset(d.log) == AllDue(Users(s, sentinel), s.now, o)
            && Pending(d.state) == AllLeft(Users(s, sentinel), s.now, o)
            && forall r :: r in Pending(d.state) ==> s.now < r.time
  {
    hide Draining, Users, Pending, AllDue, AllLeft, Drain;
    DrainAccounts(v, s, sentinel, o);
    NothingDue(Pending(Drain(v, s, sentinel, o).state), s.now, o);
  }

  /** What the drain leaves of the state: one waiting caller is released, and of the rest
      only the container, the change flag and the worker's position have changed. */
  ghost predicate OneReleased(s: State, s': State) {
    s' == s.(tokens := s.tokens + 1, pc := Scan, q := s.q.(items := s'.q.items, changed := s'.q.changed))
    && IsHeap(s'.q.items)
  }

  lemma DrainStepFrame(v: Variant, s: State, sentinel: Record, o: Oracle)
    requires Draining(v, s, sentinel)
    ensures WorkerCanStep(v, s)
    ensures var s' := WorkerStep(v, s, Answer(s, o));
            if s'.tokens != s.tokens then OneReleased(s, s')
            else s' == s.(pc := s'.pc, q := s.q.(items := s'.q.items, changed := s'.q.changed))
  {
    DrainProgress(v, s, sentinel, o);
    WorkerKeepsRest(v, s, Answer(s, o));
    hide WorkerStep, IsHeap;
  }

  lemma {:induction false} DrainReleases(v: Variant, s: State, sentinel: Record, o: Oracle)
    requires Draining(v, s, sentinel)
    ensures OneReleased(s, Drain(v, s, sentinel, o).state)
    decreases |AllDue(Users(s, sentinel), s.now, o)|, SentinelAtRoot(s), s.pc != Scan
  {
    hide Serving, Draining, Users, Pending, AllDue, AllLeft, WorkerStep, WorkerCanStep, Answer, Drain, StepLog, SentinelAtRoot,
      Executes, Settled, IsHeap;
    DrainProgress(v, s, sentinel, o);
    DrainUnfolds(v, s, sentinel, o);
    DrainStepFrame(v, s, sentinel, o);
    var s' := WorkerStep(v, s, Answer(s, o));
    if s'.tokens == s.tokens {
      DrainReleases(v, s', sentinel, o);
    }
  }

  ghost predicate Sorted(log: seq<Execution>) {
    forall i, j :: 0 <= i < j < |log| ==> log[i].1 <= log[j].1
  }

  /** Works are executed in the order of their time points. */
  lemma {:induction false} DrainIsSorted(v: Variant, s: State, sentinel: Record, o: Oracle, least: nat)
    requires Draining(v, s, sentinel) && forall r :: r in Users(s, sentinel) ==> least <= r.time
    ensures var log := Drain(v, s, sentinel, o).log;
            Sorted(log) && forall e :: e in log ==> least <= e.1
    decreases |AllDue(Users(s, sentinel), s.now, o)|, SentinelAtRoot(s), s.pc != Scan
  {
    hide Serving, Draining, Users, Pending, AllDue, AllLeft, WorkerStep, WorkerCanStep, Answer, Drain, StepLog, SentinelAtRoot,
      Executes, Settled, IsHeap;
    DrainProgress(v, s, sentinel, o);
    DrainUnfolds(v, s, sentinel, o);
    LeastStep(v, s, sentinel, o);
    var s' := WorkerStep(v, s, Answer(s, o));
    if s'.tokens == s.tokens {
      var bound := if StepLog(v, s) == [] then least else s.q.items[0].time;
      DrainIsSorted(v, s', sentinel, o, bound);
      SortedPrepend(StepLog(v, s), Drain(v, s', sentinel, o).log);
    }
  }

  lemma SortedPrepend(e: seq<Execution>, log: seq<Execution>)
    requires |e| <= 1 && Sorted(log) && (e != [] ==> forall x :: x in log ==> e[0].1 <= x.1)
    ensures Sorted(e + log)
  {
  }

  /** After an execution nothing pending is earlier than what was executed. */
  lemma LeastStep(v: Variant, s: State, sentinel: Record, o: Oracle)
    requires Draining(v, s, sentinel)
    ensures WorkerCanStep(v, s) && s.q.items != []
    ensures var s' := WorkerStep(v, s, Answer(s, o));
            s'.tokens == s.tokens ==>
              if StepLog(v, s) == [] then Users(s', sentinel) == Users(s, sentinel)
              else && StepLog(v, s) == [(s.q.items[0].id, s.q.items[0].time)]
                   && s.q.items[0] in Users(s, sentinel)
                   && forall r :: r in Users(s', sentinel) ==> s.q.items[0].time <= r.time
  {
    hide Serving, Draining, Pending, AllDue, AllLeft, WorkerStep, WorkerCanStep, Answer, Drain, Executes;
    DrainingCanStep(v, s, sentinel);
    if s.pc != Scan {
      WaitStep(v, s, sentinel, o);
    } else if SentinelAtRoot(s) {
      if Released(s.now, PopWith(s.q.heap, s.q.items)) {
        SentinelReleases(v, s, sentinel, o);
      } else {
        SentinelRearms(v, s, sentinel, o);
      }
    } else {
      UserStep(v, s, sentinel, o);
      UsersAfterRoot(v, s, sentinel);
    }
  }

  lemma UsersAfterRoot(v: Variant, s: State, sentinel: Record)
    requires Draining(v, s, sentinel) && s.pc == Scan
    ensures s.q.items != [] && forall r :: r in Users(s, sentinel) ==> s.q.items[0].time <= r.time
  {
    DrainingCanStep(v, s, sentinel);
    RootIsLeastOfBag(s.q.items);
  }
}
