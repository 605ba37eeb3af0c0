/**
 forward_time (time, true) with answers that come as they please: one per step of the worker,
 not a function of the work. While ids are distinct the call is the one that some oracle
 determines, so everything that is proved for oracles holds of it.
 */
module AnswerStreams {
  import opened RecordHeap
  import opened HeapAlgorithms
  import opened BagSums
  import opened WorkQueueModel
  import opened WorkQueueRuns
  import opened Forwarding
  import opened TimeForwarding

  type Stream = nat -> Outcome

  /** A call of a user's function and what it answered. */
  datatype Call = Call(execution: Execution, answer: Outcome)

  /** `used` is the position in the stream after the last step. */
  datatype Streamed = Streamed(calls: seq<Call>, state: State, used: nat)

  ghost function CallIn(v: Variant, s: State, answer: Outcome): seq<Call> {
    if StepLog(v, s) == [] then [] else [Call(StepLog(v, s)[0], answer)]
  }

  ghost function LogOf(calls: seq<Call>): seq<Execution> {
    seq(|calls|, i requires 0 <= i < |calls| => calls[i].execution)
  }

  lemma LogOfJoins(a: seq<Call>, b: seq<Call>)
    ensures LogOf(a + b) == LogOf(a) + LogOf(b)
  {
  }

  // ---------- the worker ahead of the sentinel ----------

  ghost function StreamAhead(v: Variant, s: State, answers: Stream, t: nat, k: nat): Streamed
    decreases k
  {
    if k == 0 || !WorkerCanStep(v, s) then Streamed([], s, t)
    else
      var rest := StreamAhead(v, WorkerStep(v, s, answers(t)), answers, t + 1, k - 1);
      rest.(calls := CallIn(v, s, answers(t)) + rest.calls)
  }

  // ---------- the drain ----------

  ghost function Constantly(answer: Outcome): Oracle { (_, _) => answer }

  lemma ConstantAnswer(s: State, answer: Outcome)
    requires s.q.items != []
    ensures Answer(s, Constantly(answer)) == answer
  {
  }

  /** What a record could be owed if it always asked to be repeated bounds the drain. */
  ghost function MostDue(s: State, sentinel: Record): nat {
    |AllDue(Users(s, sentinel), s.now, Constantly(Again))|
  }

  lemma ExecutionShrinks(b: multiset<Record>, r: Record, now: nat, answer: Outcome)
    requires r in b && r.time <= now
    ensures |AllDue(b - multiset{r} + Resumed(r, Constantly(answer)), now, Constantly(Again))| < |AllDue(b, now, Constantly(Again))|
  {
    hide BagSum;
    var o := Constantly(Again);
    var rest := b - multiset{r};
    BagSumAt(DueBy(now, o), b, r);
    if Repeats(r, Constantly(answer)) {
      BagSumInsert(DueBy(now, o), rest, r.(time := r.time + r.period));
    } else {
      assert rest + Resumed(r, Constantly(answer)) == rest;
    }
  }

  /** Whatever the answer, a step of the drain comes nearer to its end. */
  lemma StreamProgress(v: Variant, s: State, sentinel: Record, answer: Outcome)
    requires Draining(v, s, sentinel)
    ensures WorkerCanStep(v, s)
    ensures var s' := WorkerStep(v, s, answer);
            s'.tokens == s.tokens ==>
              && Draining(v, s', sentinel) && s'.now == s.now
              && (|| MostDue(s', sentinel) < MostDue(s, sentinel)
                  || (MostDue(s', sentinel) == MostDue(s, sentinel)
                      && ((SentinelAtRoot(s) && !SentinelAtRoot(s'))
                          || (SentinelAtRoot(s) == SentinelAtRoot(s') && s.pc != Scan && s'.pc == Scan))))
  {
    hide WorkerStep, Draining, Users, AllDue, SentinelAtRoot, Executes, Resumed, Released, StepLog;
    var o := Constantly(answer);
    DrainingCanStep(v, s, sentinel);
    ConstantAnswer(s, answer);
    DrainProgress(v, s, sentinel, o);
    if s.pc != Scan {
      WaitStep(v, s, sentinel, o);
    } else if !SentinelAtRoot(s) {
      UserStep(v, s, sentinel, o);
      ExecutionShrinks(Users(s, sentinel), s.q.items[0], s.now, answer);
    } else if Released(s.now, PopWith(s.q.heap, s.q.items)) {
      SentinelReleases(v, s, sentinel, o);
      SettledPosts(s, WorkerStep(v, s, answer), sentinel);
    } else {
      SentinelRearms(v, s, sentinel, o);
    }
  }

  lemma SettledPosts(s: State, s': State, sentinel: Record)
    requires Settled(s, s', sentinel)
    ensures s'.tokens == s.tokens + 1
  {
  }

  ghost function StreamDrain(v: Variant, s: State, sentinel: Record, answers: Stream, t: nat): Streamed
    requires Draining(v, s, sentinel)
    decreases MostDue(s, sentinel), SentinelAtRoot(s), s.pc != Scan
  {
    StreamProgress(v, s, sentinel, answers(t));
    var s' := WorkerStep(v, s, answers(t));
    if s'.tokens != s.tokens then Streamed([], s', t + 1)
    else
      var rest := StreamDrain(v, s', sentinel, answers, t + 1);
      rest.(calls := CallIn(v, s, answers(t)) + rest.calls)
  }

  // ---------- an oracle that gives the same answers ----------

  ghost predicate Agrees(o: Oracle, calls: seq<Call>) {
    forall c :: c in calls ==> o(c.execution.0, c.execution.1) == c.answer
  }

  /** An answer matters only to the step that calls a user's function. */
  lemma StepAgrees(v: Variant, s: State, answer: Outcome, o: Oracle)
    requires v.Test? && WorkerCanStep(v, s) && Agrees(o, CallIn(v, s, answer))
    ensures WorkerStep(v, s, answer) == WorkerStep(v, s, Answer(s, o))
  {
    hide PopWith, Reinsert;
    if Executes(v, s) && !SentinelAtRoot(s) {
      var c := Call((s.q.items[0].id, s.q.items[0].time), answer);
      assert CallIn(v, s, answer) == [c] && c in [c];
    }
  }

  lemma ConstantAgrees(v: Variant, s: State, answer: Outcome)
    ensures Agrees(Constantly(answer), CallIn(v, s, answer))
  {
  }

  lemma AgreesWithParts(o: Oracle, a: seq<Call>, b: seq<Call>)
    requires Agrees(o, a + b)
    ensures Agrees(o, a) && Agrees(o, b)
  {
    assert forall c :: c in a ==> c in a + b;
    assert forall c :: c in b ==> c in a + b;
  }

  lemma LogOfStep(v: Variant, s: State, answer: Outcome, rest: seq<Call>)
    ensures LogOf(CallIn(v, s, answer) + rest) == StepLog(v, s) + LogOf(rest)
  {
    LogOfJoins(CallIn(v, s, answer), rest);
    assert LogOf(CallIn(v, s, answer)) == StepLog(v, s);
  }

  lemma {:induction false} AheadAgrees(v: Variant, s: State, answers: Stream, t: nat, k: nat, o: Oracle)
    requires v.Test? && Agrees(o, StreamAhead(v, s, answers, t, k).calls)
    ensures var a := StreamAhead(v, s, answers, t, k); Ahead(v, s, o, k) == Drained(LogOf(a.calls), a.state)
    decreases k
  {
    hide WorkerStep, WorkerCanStep, CallIn, Agrees, LogOf, StepLog;
    if k == 0 || !WorkerCanStep(v, s) {
      NoCalls();
    } else {
      var s' := WorkerStep(v, s, answers(t));
      var rest := StreamAhead(v, s', answers, t + 1, k - 1);
      AgreesWithParts(o, CallIn(v, s, answers(t)), rest.calls);
      StepAgrees(v, s, answers(t), o);
      AheadAgrees(v, s', answers, t + 1, k - 1, o);
      LogOfStep(v, s, answers(t), rest.calls);
    }
  }

  lemma NoCalls()
    ensures LogOf([]) == []
  {
  }

  lemma {:induction false} DrainAgrees(v: Variant, s: State, sentinel: Record, answers: Stream, t: nat, o: Oracle)
    requires Draining(v, s, sentinel) && Agrees(o, StreamDrain(v, s, sentinel, answers, t).calls)
    ensures var d := StreamDrain(v, s, sentinel, answers, t); Drain(v, s, sentinel, o) == Drained(LogOf(d.calls), d.state)
    decreases MostDue(s, sentinel), SentinelAtRoot(s), s.pc != Scan
  {
    hide Draining, Users, AllDue, WorkerStep, WorkerCanStep, CallIn, Agrees, LogOf, StepLog, Drain, SentinelAtRoot, MostDue, Answer;
    OnlyTests(v, s, sentinel);
    StreamProgress(v, s, sentinel, answers(t));
    var s' := WorkerStep(v, s, answers(t));
    DrainUnfolds(v, s, sentinel, o);
    if s'.tokens != s.tokens {
      ReleasingAgrees(v, s, sentinel, answers(t), o);
      NoCalls();
    } else {
      var rest := StreamDrain(v, s', sentinel, answers, t + 1);
      AgreesWithParts(o, CallIn(v, s, answers(t)), rest.calls);
      StepAgrees(v, s, answers(t), o);
      DrainAgrees(v, s', sentinel, answers, t + 1, o);
      LogOfStep(v, s, answers(t), rest.calls);
    }
  }

  /** The releasing step calls nobody. */
  lemma ReleasingAgrees(v: Variant, s: State, sentinel: Record, answer: Outcome, o: Oracle)
    requires Draining(v, s, sentinel) && WorkerCanStep(v, s) && WorkerStep(v, s, answer).tokens != s.tokens
    ensures WorkerStep(v, s, Answer(s, o)) == WorkerStep(v, s, answer)
  {
    hide WorkerStep, Users, AllDue, AllLeft, Draining, SentinelAtRoot, Executes;
    DrainingCanStep(v, s, sentinel);
    ConstantAnswer(s, answer);
    OnlyTests(v, s, sentinel);
    DrainProgress(v, s, sentinel, Constantly(answer));
    assert CallIn(v, s, answer) == [];
    StepAgrees(v, s, answer, o);
  }

  lemma OnlyTests(v: Variant, s: State, sentinel: Record)
    requires Draining(v, s, sentinel)
    ensures v.Test?
  {
  }

  // ---------- no call twice ----------

  ghost predicate NoRepeat(calls: seq<Call>) {
    forall i, j :: 0 <= i < j < |calls| ==> calls[i].execution != calls[j].execution
  }

  /** Each call is one of a record of the bag, at its time point or later. */
  ghost predicate CallsFrom(b: multiset<Record>, calls: seq<Call>) {
    forall c :: c in calls ==> exists r :: r in b && r.id == c.execution.0 && r.time <= c.execution.1
  }

  /** Each record is one of `b`, at its time point or later. */
  ghost predicate Stems(b: multiset<Record>, b': multiset<Record>) {
    forall x :: x in b' ==> exists y :: y in b && y.id == x.id && y.time <= x.time
  }

  /** What is pending comes after every call made under its id. */
  ghost predicate AllLater(calls: seq<Call>, b: multiset<Record>) {
    forall c, r :: c in calls && r in b && r.id == c.execution.0 ==> c.execution.1 < r.time
  }

  lemma FreshStep(b: multiset<Record>, r: Record, answer: Outcome)
    requires DistinctIds(b) && r in b
    ensures var b' := b - multiset{r} + Resumed(r, Constantly(answer));
            && DistinctIds(b') && Stems(b, b')
            && forall x :: x in b' && x.id == r.id ==> r.time < x.time
  {
    var rest, new_ := b - multiset{r}, Resumed(r, Constantly(answer));
    var b' := rest + new_;
    assert rest[r] == 0;
    assert forall x :: x in rest ==> x in b && x.id != r.id && rest[x] == b[x];
    assert forall x :: x in new_ ==> x.id == r.id && r.time < x.time && new_[x] == 1;
    assert forall x :: x in b' <==> x in rest || x in new_;
  }

  lemma StemsItself(b: multiset<Record>)
    ensures Stems(b, b)
  {
  }

  lemma StemsCompose(a: multiset<Record>, b: multiset<Record>, c: multiset<Record>, calls: seq<Call>)
    requires Stems(a, b)
    ensures Stems(b, c) ==> Stems(a, c)
    ensures CallsFrom(b, calls) ==> CallsFrom(a, calls)
  {
    if CallsFrom(b, calls) {
      forall k | k in calls
        ensures exists r :: r in a && r.id == k.execution.0 && r.time <= k.execution.1
      {
        var x :| x in b && x.id == k.execution.0 && x.time <= k.execution.1;
        var y :| y in a && y.id == x.id && y.time <= x.time;
      }
    }
    if Stems(b, c) {
      forall z | z in c
        ensures exists y :: y in a && y.id == z.id && y.time <= z.time
      {
        var x :| x in b && x.id == z.id && x.time <= z.time;
        var y :| y in a && y.id == x.id && y.time <= x.time;
      }
    }
  }

  /** A call of `r` in front of calls that stem from what it left. */
  lemma FirstCall(b: multiset<Record>, b': multiset<Record>, r: Record, call: Call, rest: seq<Call>, end: multiset<Record>)
    requires r in b && call.execution == (r.id, r.time) && forall x :: x in b' && x.id == r.id ==> r.time < x.time
    requires Stems(b, b') && CallsFrom(b', rest) && NoRepeat(rest)
    ensures NoRepeat([call] + rest) && CallsFrom(b, [call] + rest)
    ensures Stems(b', end) && AllLater(rest, end) ==> AllLater([call] + rest, end)
  {
    StemsCompose(b, b', end, rest);
    forall c | c in rest
      ensures c.execution != call.execution
    {
      var x :| x in b' && x.id == c.execution.0 && x.time <= c.execution.1;
    }
    assert forall c :: c in [call] + rest <==> c == call || c in rest;
    assert forall i :: 0 <= i < |rest| ==> rest[i] in rest;
  }

  /** A step of the worker alone, whatever the answer. */
  lemma StreamAheadStep(v: Variant, s: State, answer: Outcome)
    requires Alone(v, s) && WorkerCanStep(v, s)
    ensures var s' := WorkerStep(v, s, answer);
            && Alone(v, s') && OnlyWorked(s, s')
            && if CallIn(v, s, answer) == [] then Pending(s') == Pending(s)
               else
                 && s.q.items != []
                 && var r := s.q.items[0];
                    && CallIn(v, s, answer) == [Call((r.id, r.time), answer)] && r in Pending(s)
                    && Pending(s') == Pending(s) - multiset{r} + Resumed(r, Constantly(answer))
  {
    hide Pending, Resumed, Agrees, OnlyWorked;
    ConstantAgrees(v, s, answer);
    StepAgrees(v, s, answer, Constantly(answer));
    AheadStep(v, s, Constantly(answer));
  }

  lemma {:induction false} AheadIsFresh(v: Variant, s: State, answers: Stream, t: nat, k: nat)
    requires Alone(v, s)
    ensures var a := StreamAhead(v, s, answers, t, k);
            && Alone(v, a.state) && OnlyWorked(s, a.state)
            && (DistinctIds(Pending(s)) ==>
                  && DistinctIds(Pending(a.state)) && Stems(Pending(s), Pending(a.state))
                  && CallsFrom(Pending(s), a.calls) && NoRepeat(a.calls) && AllLater(a.calls, Pending(a.state)))
    decreases k
  {
    hide Alone, WorkerStep, WorkerCanStep, CallIn, Pending, DistinctIds, Stems, CallsFrom, NoRepeat, AllLater, Resumed;
    if k == 0 || !WorkerCanStep(v, s) {
      StemsItself(Pending(s));
      NothingCalled(Pending(s));
    } else {
      var s' := WorkerStep(v, s, answers(t));
      StreamAheadStep(v, s, answers(t));
      AheadIsFresh(v, s', answers, t + 1, k - 1);
      var a := StreamAhead(v, s', answers, t + 1, k - 1);
      if CallIn(v, s, answers(t)) == [] {
        assert [] + a.calls == a.calls;
      } else if DistinctIds(Pending(s)) {
        var r := s.q.items[0];
        FreshStep(Pending(s), r, answers(t));
        FirstCall(Pending(s), Pending(s'), r, Call((r.id, r.time), answers(t)), a.calls, Pending(a.state));
        StemsCompose(Pending(s), Pending(s'), Pending(a.state), a.calls);
      }
    }
  }

  lemma NothingCalled(b: multiset<Record>)
    ensures CallsFrom(b, []) && NoRepeat([]) && AllLater([], b)
  {
  }

  // ---------- the drain calls nobody twice either ----------

  /** A step of the drain, whatever the answer. */
  lemma StreamDrainStep(v: Variant, s: State, sentinel: Record, answer: Outcome)
    requires Draining(v, s, sentinel)
    ensures WorkerCanStep(v, s)
    ensures var s' := WorkerStep(v, s, answer);
            s'.tokens == s.tokens ==>
              && Draining(v, s', sentinel)
              && if CallIn(v, s, answer) == [] then Users(s', sentinel) == Users(s, sentinel)
                 else
                   && s.q.items != []
                   && var r := s.q.items[0];
                      && CallIn(v, s, answer) == [Call((r.id, r.time), answer)] && r in Users(s, sentinel)
                      && Users(s', sentinel) == Users(s, sentinel) - multiset{r} + Resumed(r, Constantly(answer))
  {
    hide WorkerStep, Draining, Users, Resumed, Released;
    var o := Constantly(answer);
    DrainingCanStep(v, s, sentinel);
    ConstantAnswer(s, answer);
    if s.pc != Scan {
      WaitStep(v, s, sentinel, o);
    } else if !SentinelAtRoot(s) {
      UserStep(v, s, sentinel, o);
    } else if Released(s.now, PopWith(s.q.heap, s.q.items)) {
      SentinelReleases(v, s, sentinel, o);
      SettledPosts(s, WorkerStep(v, s, answer), sentinel);
    } else {
      SentinelRearms(v, s, sentinel, o);
    }
  }

  lemma {:induction false} DrainIsFresh(v: Variant, s: State, sentinel: Record, answers: Stream, t: nat)
    requires Draining(v, s, sentinel) && DistinctIds(Users(s, sentinel))
    ensures var d := StreamDrain(v, s, sentinel, answers, t);
            CallsFrom(Users(s, sentinel), d.calls) && NoRepeat(d.calls)
    decreases MostDue(s, sentinel), SentinelAtRoot(s), s.pc != Scan
  {
    hide Draining, WorkerStep, WorkerCanStep, CallIn, Users, DistinctIds, Stems, CallsFrom, NoRepeat, AllLater, Resumed,
      SentinelAtRoot, MostDue;
    StreamProgress(v, s, sentinel, answers(t));
    StreamDrainStep(v, s, sentinel, answers(t));
    var s' := WorkerStep(v, s, answers(t));
    if s'.tokens != s.tokens {
      NothingCalled(Users(s, sentinel));
    } else {
      var d := StreamDrain(v, s', sentinel, answers, t + 1);
      if CallIn(v, s, answers(t)) == [] {
        DrainIsFresh(v, s', sentinel, answers, t + 1);
        assert [] + d.calls == d.calls;
      } else {
        var r := s.q.items[0];
        FreshStep(Users(s, sentinel), r, answers(t));
        DrainIsFresh(v, s', sentinel, answers, t + 1);
        FirstCall(Users(s, sentinel), Users(s', sentinel), r, Call((r.id, r.time), answers(t)), d.calls, multiset{});
      }
    }
  }

  lemma FreshJoin(a: seq<Call>, d: seq<Call>, b: multiset<Record>)
    requires NoRepeat(a) && NoRepeat(d) && AllLater(a, b) && CallsFrom(b, d)
    ensures NoRepeat(a + d)
  {
    forall x, y | x in a && y in d
      ensures x.execution != y.execution
    {
      var r :| r in b && r.id == y.execution.0 && r.time <= y.execution.1;
    }
    var all := a + d;
    forall i, j | 0 <= i < j < |all|
      ensures all[i].execution != all[j].execution
    {
      if i < |a| <= j {
        assert all[i] in a && all[j] in d;
      }
    }
  }

  // ---------- the oracle that a history of answers is ----------

  ghost function AnswerOf(calls: seq<Call>, e: Execution): Outcome {
    if calls == [] then Enough
    else if calls[0].execution == e then calls[0].answer
    else AnswerOf(calls[1..], e)
  }

  ghost function Induced(calls: seq<Call>): Oracle {
    (id: nat, time: nat) => AnswerOf(calls, (id, time))
  }

  lemma {:induction false} AnswerAt(calls: seq<Call>, i: nat)
    requires NoRepeat(calls) && i < |calls|
    ensures AnswerOf(calls, calls[i].execution) == calls[i].answer
  {
    if i > 0 {
      assert calls[0].execution != calls[i].execution;
      AnswerAt(calls[1..], i - 1);
    }
  }

  lemma InducedAgrees(calls: seq<Call>)
    requires NoRepeat(calls)
    ensures Agrees(Induced(calls), calls)
  {
    hide NoRepeat;
    forall c | c in calls
      ensures Induced(calls)(c.execution.0, c.execution.1) == c.answer
    {
      var i :| 0 <= i < |calls| && calls[i] == c;
      AnswerAt(calls, i);
      assert c.execution == (c.execution.0, c.execution.1);
    }
  }

  // ---------- forward_time (time, true) ----------

  /** The call of forward_time as a whole, with the answer to each of the worker's steps. */
  ghost function StreamForward(v: Variant, s: State, time: nat, k: nat, answers: Stream): Streamed
    requires Quiet(v, s)
  {
    hide Alone, Draining, SentinelAt, SentinelSet, TimeSet, Pending, Users;
    TimeIsSet(v, s, time);
    AheadIsFresh(v, TimeSet(v, s, time), answers, 0, k);
    var a := StreamAhead(v, TimeSet(v, s, time), answers, 0, k);
    SentinelIsSet(v, a.state, time);
    var d := StreamDrain(v, SentinelSet(v, a.state, time), SentinelAt(a.state, time), answers, a.used);
    Streamed(a.calls + d.calls, d.state, d.used)
  }

  /** While ids are distinct, no pair of a work's id and a time point is called twice, whatever
      the answers; so the calls with their answers are an oracle, and with that oracle
      forward_time makes the same calls in the same order and ends in the same state. */
  lemma StreamIsOracle(v: Variant, s: State, time: nat, k: nat, answers: Stream)
    requires Quiet(v, s) && DistinctIds(Pending(s))
    ensures var d := StreamForward(v, s, time, k, answers);
            && NoRepeat(d.calls) && Agrees(Induced(d.calls), d.calls)
            && ForwardAndDrain(v, s, time, k, Induced(d.calls)) == Drained(LogOf(d.calls), d.state)
  {
    hide Alone, Draining, SentinelAt, SentinelSet, TimeSet, Pending, Users, Drain, Ahead, StreamAhead, StreamDrain,
      Quiet, DistinctIds, Stems, CallsFrom, NoRepeat, AllLater, Agrees, Induced, LogOf;
    TimeIsSet(v, s, time);
    OnlyTestsAreQuiet(v, s);
    var s0 := TimeSet(v, s, time);
    AheadIsFresh(v, s0, answers, 0, k);
    var a := StreamAhead(v, s0, answers, 0, k);
    SentinelIsSet(v, a.state, time);
    var s1, sentinel := SentinelSet(v, a.state, time), SentinelAt(a.state, time);
    DrainIsFresh(v, s1, sentinel, answers, a.used);
    var d := StreamDrain(v, s1, sentinel, answers, a.used);
    FreshJoin(a.calls, d.calls, Pending(a.state));
    InducedAgrees(a.calls + d.calls);
    var o := Induced(a.calls + d.calls);
    AgreesWithParts(o, a.calls, d.calls);
    AheadAgrees(v, s0, answers, 0, k, o);
    DrainAgrees(v, s1, sentinel, answers, a.used, o);
    LogOfJoins(a.calls, d.calls);
  }

  lemma OnlyTestsAreQuiet(v: Variant, s: State)
    requires Quiet(v, s)
    ensures v.Test?
  {
  }

  /** The contract of forward_time (time, true) for answers that come as they please: what is
      owed and what is left are those of the oracle that the answers make up. */
  lemma StreamIsExact(v: Variant, s: State, time: nat, k: nat, answers: Stream)
    requires Quiet(v, s) && DistinctIds(Pending(s)) && 0 < time
    ensures var d := StreamForward(v, s, time, k, answers);
            var o := Induced(d.calls);
            && NoRepeat(d.calls) && Agrees(o, d.calls)
            && multiset(LogOf(d.calls)) == AllDue(Pending(s), time, o) && Sorted(LogOf(d.calls))
            && Pending(d.state) == AllLeft(Pending(s), time, o)
            && (forall r :: r in Pending(d.state) ==> time < r.time)
            && d.state.tokens == s.tokens + 1 && d.state.now == time && d.state.pc == Scan
  {
    hide StreamForward, ForwardAndDrain, Quiet, DistinctIds, Pending, AllDue, AllLeft, Sorted, Induced, Agrees, NoRepeat, LogOf;
    StreamIsOracle(v, s, time, k, answers);
    ForwardIsExact(v, s, time, k, Induced(StreamForward(v, s, time, k, answers).calls));
  }
}
