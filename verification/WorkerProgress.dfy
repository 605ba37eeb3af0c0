/**
 What the worker of the work queue does when nobody else acts, in both variants: a due record
 is executed, all that is owed is executed, and then the worker waits for the least time point.

 A run's steps from one position to another, all of them the worker's, are a segment.
 */
module WorkerProgress {
  import opened Common
  import opened RecordHeap
  import opened HeapAlgorithms
  import opened WorkQueueModel
  import opened WorkQueueRuns
  import opened WorkQueueTheorems
  import opened Forwarding

  ghost predicate WorkerOnly(labels: seq<Label>, i: nat, n: nat)
    requires i <= n <= |labels|
  {
    forall k :: i <= k < n ==> labels[k].Worker?
  }

  /** Nobody has stopped the queue, and no forward_time call stands between its two sections. */
  ghost predicate Running(s: State) {
    !s.q.stopped && s.between == multiset{}
  }

  ghost predicate SomeDue(s: State) {
    exists r :: r in Pending(s) && r.time <= s.now
  }

  ghost predicate IsLeastOf(b: multiset<Record>, r: Record) {
    r in b && forall x :: x in b ==> r.time <= x.time
  }

  /** The worker is blocked: nothing is pending, or it waits for the least time point. */
  ghost predicate Blocked(v: Variant, s: State) {
    && (forall outcome :: !Enabled(v, s, Worker(outcome)))
    && if Pending(s) == multiset{} then s.pc == Scan
       else exists r :: IsLeastOf(Pending(s), r) && s.pc == Timed(r.time) && s.now < r.time
  }

  // ---------- one step ----------

  /** Steps that the worker takes, at most, before it executes or is blocked. */
  function Patience(s: State): nat {
    match s.pc
    case InSync(_, _) => 3
    case Scan => if s.q.items == [] then 0 else if s.q.changed then 2 else 1
    case Timed(_) => if s.q.changed then 2 else 0
    case Exited => 0
  }

  /** A step of the worker that executes nothing changes nothing that is pending. */
  lemma IdleStep(v: Variant, s: State, outcome: Outcome)
    requires Inv(v, s) && Running(s) && WorkerCanStep(v, s) && !Executes(v, s)
    ensures var s' := WorkerStep(v, s, outcome);
            && Running(s') && s'.now == s.now && Pending(s') == Pending(s)
            && Patience(s') < Patience(s) && !s'.pc.InSync? && (v.Test? && s.pc != Scan ==> s'.pc == Scan)
  {
    hide IsHeap, Reinsert, StoppedInv;
    if s.pc.InSync? {
      ReinsertEffect(s.q, s.pc.record, s.pc.resume);
    } else if s.pc == Scan {
      RunningRoot(v, s);
    }
  }

  /** A record that is due keeps the worker going. */
  lemma DueCanStep(v: Variant, s: State)
    requires Inv(v, s) && Running(s) && SomeDue(s)
    ensures WorkerCanStep(v, s)
    ensures v.Test? && s.pc == Scan ==> Executes(v, s)
  {
    hide IsHeap;
    if !s.pc.InSync? {
      var r :| r in Pending(s) && r.time <= s.now;
      RootIsLeastOfBag(s.q.items);
      if s.q.items != [] {
        RunningRoot(v, s);
      }
    }
  }

  lemma ExecutingStep(v: Variant, s: State, outcome: Outcome)
    requires Inv(v, s) && Running(s) && Executes(v, s)
    ensures IsLeastOf(Pending(s), s.q.items[0]) && s.q.items[0].time <= s.now
  {
    hide IsHeap;
    RootIsLeastOfBag(s.q.items);
  }

  // ---------- a due record is executed ----------

  /** Steps before a due record is executed. In virtual time the worker that looks at the
      container executes at once. */
  function Delay(v: Variant, s: State): nat {
    if v.Base? then Patience(s) else if s.pc == Scan then 0 else 1
  }

  lemma ShortDelay(v: Variant, s: State)
    requires Inv(v, s)
    ensures Delay(v, s) <= 2
  {
  }

  lemma SoonerStep(v: Variant, s: State, l: Label)
    requires Inv(v, s) && Running(s) && SomeDue(s) && Enabled(v, s, l) && l.Worker? && Executed(v, s, l).None?
    ensures var s' := Next(v, s, l);
            Running(s') && s'.now == s.now && Pending(s') == Pending(s) && Delay(v, s') < Delay(v, s)
  {
    hide Inv, Pending, WorkerStep, Executes;
    IdleStep(v, s, l.outcome);
    DueCanStep(v, s);
  }

  lemma {:induction false} ExecutesSoon(v: Variant, states: seq<State>, labels: seq<Label>, i: nat, n: nat) returns (j: nat)
    requires IsRun(v, states, labels) && i < n <= |labels| && WorkerOnly(labels, i, n) && i + Delay(v, states[i]) < n
    requires Running(states[i]) && SomeDue(states[i])
    ensures i <= j < n && Executed(v, states[j], labels[j]).Some?
    ensures var r := Executed(v, states[j], labels[j]).value; IsLeastOf(Pending(states[i]), r) && r.time <= states[i].now
    decreases n - i
  {
    hide Inv, IdInv, Pending, Next, Enabled, Executed, Delay, IsLeastOf;
    RunInv(v, states, labels, i);
    if Executed(v, states[i], labels[i]).Some? {
      j := i;
      ExecutedIsLeast(v, states[i], labels[i]);
    } else {
      SoonerStep(v, states[i], labels[i]);
      j := ExecutesSoon(v, states, labels, i + 1, n);
    }
  }

  lemma ExecutedIsLeast(v: Variant, s: State, l: Label)
    requires Inv(v, s) && Executed(v, s, l).Some?
    ensures var r := Executed(v, s, l).value; IsLeastOf(Pending(s), r) && r.time <= s.now && !s.q.stopped && r.work != NoWork
  {
    hide IsHeap;
    ExecutesRunning(v, s);
    RootIsLeastOfBag(s.q.items);
  }

  /** While a record is due the worker is not blocked, and within three steps of its own it
      executes a record that was least among all those pending. */
  lemma DueIsExecuted(v: Variant, states: seq<State>, labels: seq<Label>, i: nat, outcome: Outcome)
    requires IsRun(v, states, labels) && i < |states| && Running(states[i]) && SomeDue(states[i])
    ensures Enabled(v, states[i], Worker(outcome))
    ensures i + 3 <= |labels| && WorkerOnly(labels, i, i + 3) ==>
              exists j :: i <= j < i + 3 && Executed(v, states[j], labels[j]).Some?
                && var r := Executed(v, states[j], labels[j]).value; IsLeastOf(Pending(states[i]), r) && r.time <= states[i].now
  {
    hide Inv, IdInv, Pending, Next, Executed, Delay, IsLeastOf, Running, SomeDue;
    RunInv(v, states, labels, i);
    DueCanStep(v, states[i]);
    ShortDelay(v, states[i]);
    if i + 3 <= |labels| && WorkerOnly(labels, i, i + 3) {
      var j := ExecutesSoon(v, states, labels, i, i + 3);
    }
  }

  /** The clock, or a forward_time that does not wait, reaches the time point of a pending record:
      within three steps of its own the worker executes a least one. */
  lemma WakesOnTime(v: Variant, states: seq<State>, labels: seq<Label>, i: nat, time: nat)
    requires IsRun(v, states, labels) && i + 4 <= |labels| && WorkerOnly(labels, i + 1, i + 4)
    requires labels[i] == Tick(time) || labels[i] == SetTime(time, false)
    requires Running(states[i]) && exists r :: r in Pending(states[i]) && r.time <= time
    ensures exists j :: i < j < i + 4 && Executed(v, states[j], labels[j]).Some?
              && var r := Executed(v, states[j], labels[j]).value; IsLeastOf(Pending(states[i]), r) && r.time <= time
  {
    hide Pending, Executed, IsLeastOf;
    TimePasses(v, states[i], labels[i], time);
    DueIsExecuted(v, states, labels, i + 1, Enough);
  }

  lemma TimePasses(v: Variant, s: State, l: Label, time: nat)
    requires Enabled(v, s, l) && (l == Tick(time) || l == SetTime(time, false))
    ensures var s' := Next(v, s, l);
            s'.now == time && Pending(s') == Pending(s) && s'.q.stopped == s.q.stopped && s'.between == s.between
  {
  }

  // ---------- what the worker alone executes ----------

  /** The executions of a segment, sentinels excepted. */
  ghost function ExecutedIn(v: Variant, states: seq<State>, labels: seq<Label>, i: nat, n: nat): seq<Execution>
    requires i <= n <= |labels| <= |states|
  {
    if i == n then []
    else ExecutedIn(v, states, labels, i, n - 1) + CallOf(Executed(v, states[n - 1], labels[n - 1]))
  }

  ghost function CallOf(r: Option<Record>): seq<Execution> {
    if r.Some? then [(r.value.id, r.value.time)] else []
  }

  /** The works answer as the oracle says. */
  ghost predicate AnswersAs(v: Variant, states: seq<State>, labels: seq<Label>, i: nat, n: nat, o: Oracle)
    requires i <= n <= |labels| <= |states|
  {
    forall k :: i <= k < n && Executed(v, states[k], labels[k]).Some? ==>
      var r := Executed(v, states[k], labels[k]).value; labels[k] == Worker(o(r.id, r.time))
  }

  ghost predicate NoSentinel(s: State) {
    forall r :: r in Pending(s) ==> r.work != Sentinel
  }

  /** Executing `r` replaces it by what the oracle leaves of it. */
  lemma PaysOne(v: Variant, s: State, l: Label, o: Oracle)
    requires Inv(v, s) && Running(s) && NoSentinel(s) && Executed(v, s, l).Some?
    requires var r := Executed(v, s, l).value; l == Worker(o(r.id, r.time))
    ensures Enabled(v, s, l)
    ensures var s', r := Next(v, s, l), Executed(v, s, l).value;
            && Running(s') && s'.now == s.now && r in Pending(s) && r.work != Sentinel
            && Pending(s') == Pending(s) - multiset{r} + Resumed(r, o) && Patience(s') <= 3
  {
    hide PopWith, PopAndExecute, IsHeap, Pending, ResumeTime, Resumed, Inv, Released;
    var r := s.q.items[0];
    PendingIsContainer(v, s);
    ExecuteEffect(v, s, l.outcome);
    UserResumes(v, s.now, r, PopWith(s.q.heap, s.q.items), o);
    ShortPatience(Next(v, s, l));
  }

  lemma PendingIsContainer(v: Variant, s: State)
    requires Inv(v, s) && Executes(v, s)
    ensures Pending(s) == multiset(s.q.items) && IsHeap(s.q.items) && WorkerCanStep(v, s)
  {
    hide IsHeap;
  }

  lemma StillNoSentinel(b: multiset<Record>, r: Record, o: Oracle)
    requires r in b && forall x :: x in b ==> x.work != Sentinel
    ensures forall x :: x in b - multiset{r} + Resumed(r, o) ==> x.work != Sentinel
    ensures IsLeastOf(b, r) ==> forall x :: x in b - multiset{r} + Resumed(r, o) ==> r.time <= x.time
  {
  }

  /** What is still owed, and how soon the worker pays or is blocked. */
  ghost function Effort(s: State, o: Oracle): nat {
    4 * |AllDue(Pending(s), s.now, o)| + Patience(s)
  }

  /** What is said of a segment that ends in `s`. */
  ghost predicate Account(s0: State, s: State, log: seq<Execution>, o: Oracle) {
    && Running(s) && NoSentinel(s) && s.now == s0.now
    && multiset(log) + AllDue(Pending(s), s0.now, o) == AllDue(Pending(s0), s0.now, o)
    && AllLeft(Pending(s), s0.now, o) == AllLeft(Pending(s0), s0.now, o)
    && Sorted(log) && forall e, r :: e in log && r in Pending(s) ==> e.1 <= r.time
  }

  lemma AccountGoesOn(v: Variant, s0: State, s: State, l: Label, log: seq<Execution>, o: Oracle)
    requires Inv(v, s) && Account(s0, s, log, o) && Enabled(v, s, l) && l.Worker?
    requires Executed(v, s, l).Some? ==> var r := Executed(v, s, l).value; l == Worker(o(r.id, r.time))
    ensures var s' := Next(v, s, l);
            Account(s0, s', log + CallOf(Executed(v, s, l)), o) && Effort(s', o) < Effort(s, o)
  {
    hide Inv, Pending, Next, Enabled, AllDue, AllLeft, Resumed, IsLeastOf, Patience, Executed, Sorted;
    var s' := Next(v, s, l);
    if Executed(v, s, l).Some? {
      var r := Executed(v, s, l).value;
      ExecutedIsLeast(v, s, l);
      PaysOne(v, s, l, o);
      AllDueStep(Pending(s), r, s.now, o);
      AllLeftStep(Pending(s), r, s.now, o);
      StillNoSentinel(Pending(s), r, o);
      LeastComesAfter(Pending(s), r, log);
    } else {
      QuietStep(v, s, l);
      assert log + [] == log;
    }
  }

  lemma LeastComesAfter(b: multiset<Record>, r: Record, log: seq<Execution>)
    requires IsLeastOf(b, r) && Sorted(log) && forall e, x :: e in log && x in b ==> e.1 <= x.time
    ensures Sorted(log + [(r.id, r.time)]) && forall e :: e in log + [(r.id, r.time)] ==> e.1 <= r.time
    ensures multiset(log + [(r.id, r.time)]) == multiset(log) + multiset{(r.id, r.time)}
  {
  }

  lemma QuietStep(v: Variant, s: State, l: Label)
    requires Inv(v, s) && Running(s) && Enabled(v, s, l) && l.Worker? && Executed(v, s, l).None?
    ensures var s' := Next(v, s, l);
            Running(s') && s'.now == s.now && Pending(s') == Pending(s) && Patience(s') < Patience(s)
  {
    hide Inv, Pending, WorkerStep, Executes;
    IdleStep(v, s, l.outcome);
  }

  lemma {:induction false} SegmentAccounts(v: Variant, states: seq<State>, labels: seq<Label>, i: nat, n: nat, o: Oracle)
    requires IsRun(v, states, labels) && i <= n <= |labels| && WorkerOnly(labels, i, n) && AnswersAs(v, states, labels, i, n, o)
    requires Running(states[i]) && NoSentinel(states[i])
    ensures Account(states[i], states[n], ExecutedIn(v, states, labels, i, n), o)
    ensures n - i + Effort(states[n], o) <= Effort(states[i], o)
    decreases n - i
  {
    hide Inv, IdInv, Next, Enabled, Account, Executed, Effort;
    if i == n {
      NothingYet(states[i], o);
    } else {
      SegmentAccounts(v, states, labels, i, n - 1, o);
      RunInv(v, states, labels, n - 1);
      AccountGoesOn(v, states[i], states[n - 1], labels[n - 1], ExecutedIn(v, states, labels, i, n - 1), o);
    }
  }

  lemma NothingYet(s: State, o: Oracle)
    requires Running(s) && NoSentinel(s)
    ensures Account(s, s, [], o)
  {
  }

  lemma RestsWhenBlocked(v: Variant, s: State)
    requires Inv(v, s) && Running(s) && !WorkerCanStep(v, s)
    ensures !SomeDue(s) && Blocked(v, s)
  {
    hide IsHeap, StoppedInv;
    if SomeDue(s) {
      DueCanStep(v, s);
    }
    if s.q.items != [] {
      RootIsLeastOfBag(s.q.items);
      assert IsLeastOf(Pending(s), s.q.items[0]);
    }
  }

  /** Left alone from any reachable state, with the time standing still, the worker executes what
      is owed and nothing else, in the order of the time points. It comes to a stop after a
      bounded number of steps, and when it has stopped everything owed by then has been
      executed, each record is left at its first later time point, and the worker waits for
      the least of these. */
  lemma WorkerCatchesUp(v: Variant, states: seq<State>, labels: seq<Label>, i: nat, n: nat, o: Oracle)
    requires IsRun(v, states, labels) && i <= n <= |labels| && WorkerOnly(labels, i, n) && AnswersAs(v, states, labels, i, n, o)
    requires Running(states[i]) && NoSentinel(states[i])
    ensures var s, s', log := states[i], states[n], ExecutedIn(v, states, labels, i, n);
            && n - i <= 4 * |AllDue(Pending(s), s.now, o)| + 3
            && multiset(log) <= AllDue(Pending(s), s.now, o) && Sorted(log) && s'.now == s.now
            && (Enabled(v, s', Worker(Enough)) || Blocked(v, s'))
            && (Blocked(v, s') ==>
                  multiset(log) == AllDue(Pending(s), s.now, o) && Pending(s') == AllLeft(Pending(s), s.now, o))
  {
    hide Inv, IdInv, Next, Pending, AllDue, AllLeft, Sorted, Account, Effort, Blocked, Enabled, SomeDue, ExecutedIn, NoSentinel;
    SegmentAccounts(v, states, labels, i, n, o);
    RunInv(v, states, labels, n);
    EffortIsBounded(states[i], o);
    AccountSays(states[i], states[n], ExecutedIn(v, states, labels, i, n), o);
    GoesOnOrBlocked(v, states[n]);
    if Blocked(v, states[n]) {
      BlockedHasNothingDue(v, states[n]);
    }
  }

  lemma GoesOnOrBlocked(v: Variant, s: State)
    requires Inv(v, s) && Running(s)
    ensures Enabled(v, s, Worker(Enough)) || Blocked(v, s)
  {
    hide Inv, Blocked, WorkerCanStep;
    if !WorkerCanStep(v, s) {
      RestsWhenBlocked(v, s);
    }
  }

  lemma EffortIsBounded(s: State, o: Oracle)
    ensures Effort(s, o) <= 4 * |AllDue(Pending(s), s.now, o)| + 3
  {
  }

  lemma AccountSays(s0: State, s: State, log: seq<Execution>, o: Oracle)
    requires Account(s0, s, log, o)
    ensures multiset(log) <= AllDue(Pending(s0), s0.now, o) && Sorted(log) && s.now == s0.now && Running(s)
    ensures !SomeDue(s) ==>
              multiset(log) == AllDue(Pending(s0), s0.now, o) && Pending(s) == AllLeft(Pending(s0), s0.now, o)
  {
    hide Pending, AllDue, AllLeft, Sorted;
    if !SomeDue(s) {
      NothingDue(Pending(s), s.now, o);
    }
  }

  lemma BlockedHasNothingDue(v: Variant, s: State)
    requires Blocked(v, s)
    ensures !SomeDue(s)
  {
    hide Pending, Enabled;
  }

  lemma ShortPatience(s: State)
    ensures Patience(s) <= 3
  {
  }

  /** With nothing due nothing is executed, and after three steps at most, two if no callback is
      running, the worker is blocked until the least time point. */
  lemma NothingDueBlocks(v: Variant, states: seq<State>, labels: seq<Label>, i: nat, n: nat)
    requires IsRun(v, states, labels) && i <= n <= |labels| && WorkerOnly(labels, i, n)
    requires Running(states[i]) && !SomeDue(states[i])
    ensures n - i <= if states[i].pc.InSync? then 3 else 2
    ensures Pending(states[n]) == Pending(states[i]) && forall k :: i <= k < n ==> Executed(v, states[k], labels[k]).None?
    ensures Enabled(v, states[n], Worker(Enough)) || Blocked(v, states[n])
  {
    hide Inv, IdInv, Next, Pending, Executed;
    NothingDueWaits(v, states, labels, i, n);
    RunInv(v, states, labels, n);
    GoesOnOrBlocked(v, states[n]);
  }

  lemma {:induction false} NothingDueWaits(v: Variant, states: seq<State>, labels: seq<Label>, i: nat, n: nat)
    requires IsRun(v, states, labels) && i <= n <= |labels| && WorkerOnly(labels, i, n)
    requires Running(states[i]) && !SomeDue(states[i])
    ensures Running(states[n]) && states[n].now == states[i].now && Pending(states[n]) == Pending(states[i])
    ensures n - i + Patience(states[n]) <= Patience(states[i])
    ensures forall k :: i <= k < n ==> Executed(v, states[k], labels[k]).None?
    decreases n - i
  {
    hide Inv, IdInv, Next, Enabled, Pending, Executed, Patience;
    if i < n {
      NothingDueWaits(v, states, labels, i, n - 1);
      RunInv(v, states, labels, n - 1);
      if Executed(v, states[n - 1], labels[n - 1]).Some? {
        ExecutedIsLeast(v, states[n - 1], labels[n - 1]);
      }
      QuietStep(v, states[n - 1], labels[n - 1]);
    }
  }

  // ---------- no change is missed ----------

  /** The worker begins to wait only when it has seen the container with no change flagged, and
      whoever touches the container meanwhile flags it. */
  lemma WaitsOn(v: Variant, s: State, l: Label)
    requires Enabled(v, s, l) && Next(v, s, l).pc.Timed? && !Next(v, s, l).q.changed
    ensures var s' := Next(v, s, l);
            && s'.q.items == s.q.items && !s.q.changed
            && if l.Worker? then s.pc == Scan && s.q.items != [] && s'.pc == Timed(s.q.items[0].time) else s'.pc == s.pc
  {
    hide PushWith, PopWith, MakeWith, NextIdentifier, Settle, Reinsert;
    if l.Worker? && Executes(v, s) {
      SettledPlace(v, s, s.q.items[0], s.q.(items := PopWith(s.q.heap, s.q.items)), l.outcome);
    }
  }

  lemma SettledPlace(v: Variant, s: State, r: Record, q: Queue, outcome: Outcome)
    ensures !Settle(v, s, r, q, outcome).pc.Timed?
  {
    hide Reinsert, ResumeTime, Released;
  }

  /** While the worker is blocked with no change flagged, the container is as it was when the worker
      last looked at it. */
  lemma {:induction false} WaitsAsSeen(v: Variant, states: seq<State>, labels: seq<Label>, i: nat) returns (j: nat)
    requires IsRun(v, states, labels) && i < |states| && states[i].pc.Timed? && !states[i].q.changed
    ensures j < i && labels[j].Worker? && states[j].pc == Scan && states[j].q.items != [] && !states[j].q.changed
    ensures forall k :: j < k <= i ==> states[k].pc == states[i].pc == Timed(states[j].q.items[0].time) && !states[k].q.changed
    ensures forall k :: j < k <= i ==> states[k].q.items == states[j].q.items
  {
    hide Next, Enabled;
    assert i > 0;
    WaitsOn(v, states[i - 1], labels[i - 1]);
    if labels[i - 1].Worker? {
      j := i - 1;
    } else {
      j := WaitsAsSeen(v, states, labels, i - 1);
    }
  }
}
