/**
 When cancel_client_works is final, both ways: after it, no earlier work of the client can run
 again in any continuation of the run, if and only if no record of the client was in the
 callback at that moment.
 */
module ClientCancellation {
  import opened Common
  import opened RecordHeap
  import opened HeapAlgorithms
  import opened WorkQueueModel
  import opened WorkQueueRuns
  import opened WorkQueueTheorems

  // ---------- paths ----------

  ghost predicate IsPath(v: Variant, states: seq<State>, labels: seq<Label>) {
    && |states| == |labels| + 1
    && forall i :: 0 <= i < |labels| ==> Enabled(v, states[i], labels[i]) && states[i + 1] == Next(v, states[i], labels[i])
  }

  lemma OneStep(v: Variant, s: State, l: Label)
    requires Enabled(v, s, l)
    ensures IsPath(v, [s, Next(v, s, l)], [l])
  {
    hide Next, Enabled;
  }

  lemma PathJoins(v: Variant, a: seq<State>, la: seq<Label>, b: seq<State>, lb: seq<Label>)
    requires IsPath(v, a, la) && IsPath(v, b, lb) && b[0] == a[|la|]
    ensures IsPath(v, a + b[1..], la + lb)
    ensures (a + b[1..])[|la + lb|] == b[|lb|]
    ensures forall k :: 0 <= k <= |lb| ==> (a + b[1..])[|la| + k] == b[k]
  {
    hide Next, Enabled;
    var states, labels := a + b[1..], la + lb;
    forall k | 0 <= k <= |lb|
      ensures states[|la| + k] == b[k]
    {
    }
    forall i | 0 <= i < |labels|
      ensures Enabled(v, states[i], labels[i]) && states[i + 1] == Next(v, states[i], labels[i])
    {
      if i < |la| {
        assert states[i] == a[i] && states[i + 1] == a[i + 1];
      } else {
        assert states[i] == b[i - |la|] && states[i + 1] == b[i - |la| + 1];
      }
    }
  }

  ghost predicate NothingInstalled(states: seq<State>, labels: seq<Label>)
    requires |states| == |labels| + 1
  {
    forall k :: 0 <= k < |labels| ==> Installed(states[k], labels[k]).None?
  }

  // ---------- emptying the container ----------

  /** The callback of a record is running and will put the record back. */
  ghost predicate Suspended(v: Variant, s: State) {
    v == Test(true) && Inv(v, s) && !s.q.stopped && s.pc.InSync? && s.pc.resume != 0
  }

  /** Clients can cancel whatever is in the container while the callback runs. */
  lemma CancelFirst(v: Variant, s: State)
    requires Suspended(v, s) && s.q.items != []
    ensures var l := Cancel(s.q.items[0].id); var s' := Next(v, s, l);
            && Enabled(v, s, l) && Installed(s, l).None?
            && Suspended(v, s') && s'.pc == s.pc && |s'.q.items| < |s.q.items|
  {
    var l := Cancel(s.q.items[0].id);
    NextKeepsInv(v, s, l);
    hide Inv, MakeWith;
    assert FindWork(s.q.items, s.q.items[0].id) == Some(0);
    MakeWithIsHeap(s.q.heap, SwapRemove(s.q.items, 0));
    assert |multiset(MakeWith(s.q.heap, SwapRemove(s.q.items, 0)))| == |SwapRemove(s.q.items, 0)|;
  }

  lemma {:induction false} CancelAll(v: Variant, s: State) returns (states: seq<State>, labels: seq<Label>)
    requires Suspended(v, s)
    ensures IsPath(v, states, labels) && states[0] == s && NothingInstalled(states, labels)
    ensures var end := states[|labels|]; Suspended(v, end) && end.pc == s.pc && end.q.items == []
    decreases |s.q.items|
  {
    hide Next, Enabled, Suspended, Installed;
    if s.q.items == [] {
      states, labels := [s], [];
    } else {
      CancelFirst(v, s);
      var l := Cancel(s.q.items[0].id);
      var rest, lrest := CancelAll(v, Next(v, s, l));
      OneStep(v, s, l);
      PathJoins(v, [s, Next(v, s, l)], [l], rest, lrest);
      states, labels := [s, Next(v, s, l)] + rest[1..], [l] + lrest;
    }
  }

  /** The callback ends, the record is put back, the time is set to it, and it runs. */
  lemma PutBackAndRun(v: Variant, s: State) returns (states: seq<State>, labels: seq<Label>)
    requires Suspended(v, s) && s.q.items == []
    ensures IsPath(v, states, labels) && states[0] == s && |labels| == 3 && NothingInstalled(states, labels)
    ensures Executed(v, states[2], labels[2]) == Some(s.pc.record.(time := s.pc.resume))
  {
    hide PushWith, PopWith, IsHeap;
    var r := s.pc.record.(time := s.pc.resume);
    OnlyRecord(s.q.heap, r);
    labels := [Worker(Enough), SetTime(r.time, false), Worker(Enough)];
    var s1 := s.(q := s.q.(items := [r]), pc := Scan);
    var s2 := s1.(now := r.time, q := s1.q.(changed := true));
    assert s1 == Next(v, s, labels[0]);
    states := [s, s1, s2, Next(v, s2, labels[2])];
  }

  /** From every state in which a callback is running, some continuation runs its record again,
      though nothing is installed on the way. */
  lemma SuspendedRunsAgain(v: Variant, s: State) returns (states: seq<State>, labels: seq<Label>)
    requires Suspended(v, s)
    ensures IsPath(v, states, labels) && states[0] == s && |labels| > 0 && NothingInstalled(states, labels)
    ensures Executed(v, states[|labels| - 1], labels[|labels| - 1]) == Some(s.pc.record.(time := s.pc.resume))
  {
    hide Next, Enabled, Suspended, Installed, Executed;
    var a, la := CancelAll(v, s);
    var b, lb := PutBackAndRun(v, a[|la|]);
    PathJoins(v, a, la, b, lb);
    states, labels := a + b[1..], la + lb;
    InstalledJoins(a, la, b, lb);
    assert states[|la| + 2] == b[2] && labels[|la| + 2] == lb[2];
  }

  lemma InstalledJoins(a: seq<State>, la: seq<Label>, b: seq<State>, lb: seq<Label>)
    requires |a| == |la| + 1 && |b| == |lb| + 1 && b[0] == a[|la|]
    requires NothingInstalled(a, la) && NothingInstalled(b, lb)
    ensures NothingInstalled(a + b[1..], la + lb)
  {
    hide Installed;
    var states, labels := a + b[1..], la + lb;
    forall k | 0 <= k < |labels|
      ensures Installed(states[k], labels[k]).None?
    {
      if k < |la| {
        assert states[k] == a[k];
      } else {
        assert states[k] == b[k - |la|];
      }
    }
  }

  // ---------- the condition ----------

  /** A run that goes on from another one. */
  ghost predicate Continues(v: Variant, states: seq<State>, labels: seq<Label>, states': seq<State>, labels': seq<Label>) {
    IsRun(v, states', labels') && states <= states' && labels <= labels'
  }

  /** In step `j` a work of the client is executed that nobody has installed since step `i`. */
  ghost predicate RunsAgain(v: Variant, states: seq<State>, labels: seq<Label>, i: nat, j: nat, client: nat) {
    && i < j < |labels| < |states|
    && match Executed(v, states[j], labels[j])
       case None => false
       case Some(r) =>
         r.client == client
         && forall k :: i < k < j ==> Installed(states[k], labels[k]) != Some((r.id, r.work, r.client))
  }

  /** A continuation of a run, after whose last step a work of the client runs again. */
  ghost predicate RunsAgainIn(v: Variant, states: seq<State>, labels: seq<Label>, client: nat,
                              states': seq<State>, labels': seq<Label>, j: nat)
    requires |labels| > 0
  {
    Continues(v, states, labels, states', labels') && RunsAgain(v, states', labels', |labels| - 1, j, client)
  }

  /** A run whose last step is a cancel_client_works that was not refused. Some continuation runs
      an earlier work of the client again if and only if a record of the client was in the
      callback; in the base class that is never so. */
  lemma CancelClientIsFinalIff(v: Variant, states: seq<State>, labels: seq<Label>, client: nat)
    requires IsRun(v, states, labels) && |labels| > 0
    requires var i := |labels| - 1;
             labels[i] == CancelClient(client) && CancelClientWorks(states[i].q, client).1 in {Success, NotFound}
    ensures InCallback(states[|labels| - 1], client) <==>
              exists states', labels', j :: RunsAgainIn(v, states, labels, client, states', labels', j)
    ensures v == Base ==> !InCallback(states[|labels| - 1], client)
  {
    hide Continues, RunsAgain, CancelClientWorks, InCallback, Next, Enabled;
    var i := |labels| - 1;
    NoCallbackInBase(v, states, labels, client);
    if InCallback(states[i], client) {
      var states', labels' := CallbackContinues(v, states, labels, client);
      assert RunsAgainIn(v, states, labels, client, states', labels', |labels'| - 1);
    } else {
      forall states', labels', j
        ensures !RunsAgainIn(v, states, labels, client, states', labels', j)
      {
        if Continues(v, states, labels, states', labels') {
          NoneRunsAgain(v, states, labels, states', labels', j, client);
        }
      }
    }
  }

  lemma NoCallbackInBase(v: Variant, states: seq<State>, labels: seq<Label>, client: nat)
    requires IsRun(v, states, labels) && |labels| > 0
    ensures v == Base ==> !InCallback(states[|labels| - 1], client)
  {
    hide Next, Enabled;
    RunInv(v, states, labels, |labels| - 1);
  }

  lemma NoneRunsAgain(v: Variant, states: seq<State>, labels: seq<Label>, states': seq<State>, labels': seq<Label>,
                      j: nat, client: nat)
    requires IsRun(v, states, labels) && |labels| > 0 && Continues(v, states, labels, states', labels')
    requires var i := |labels| - 1;
             && labels[i] == CancelClient(client) && CancelClientWorks(states[i].q, client).1 in {Success, NotFound}
             && !InCallback(states[i], client)
    ensures !RunsAgain(v, states', labels', |labels| - 1, j, client)
  {
    hide Next, Enabled, CancelClientWorks, InCallback;
    var i := |labels| - 1;
    assert states'[i] == states[i] && labels'[i] == labels[i];
    if RunsAgain(v, states', labels', i, j, client) {
      var k := CancelClientIsFinal(v, states', labels', i, j, client);
    }
  }

  lemma CallbackContinues(v: Variant, states: seq<State>, labels: seq<Label>, client: nat)
    returns (states': seq<State>, labels': seq<Label>)
    requires IsRun(v, states, labels) && |labels| > 0 && InCallback(states[|labels| - 1], client)
    requires var i := |labels| - 1;
             labels[i] == CancelClient(client) && CancelClientWorks(states[i].q, client).1 in {Success, NotFound}
    ensures Continues(v, states, labels, states', labels')
    ensures |labels'| > |labels| && RunsAgain(v, states', labels', |labels| - 1, |labels'| - 1, client)
  {
    hide Next, Enabled, CancelClientWorks, Inv, Executed, Installed, NothingInstalled, RunsAgain;
    var n := |labels|;
    RunInv(v, states, labels, n - 1);
    RunInv(v, states, labels, n);
    StaysSuspended(v, states[n - 1], client);
    var b, lb := SuspendedRunsAgain(v, states[n]);
    PathJoins(v, states, labels, b, lb);
    states', labels' := states + b[1..], labels + lb;
    assert states' == states + b[1..];
    LastRunsAgain(v, states, labels, b, lb, client);
  }

  /** What the last step of a joined path executes, and that nothing was installed since the first part. */
  lemma LastRunsAgain(v: Variant, a: seq<State>, la: seq<Label>, b: seq<State>, lb: seq<Label>, client: nat)
    requires |a| == |la| + 1 && |b| == |lb| + 1 && |la| > 0 && |lb| > 0 && b[0] == a[|la|]
    requires NothingInstalled(b, lb)
    requires var e := Executed(v, b[|lb| - 1], lb[|lb| - 1]); e.Some? && e.value.client == client
    ensures RunsAgain(v, a + b[1..], la + lb, |la| - 1, |la + lb| - 1, client)
  {
    hide Executed, Installed;
    var n, states, labels := |la|, a + b[1..], la + lb;
    forall k | n <= k < |labels|
      ensures states[k] == b[k - n] && labels[k] == lb[k - n]
    {
    }
    forall k | n - 1 < k < |labels| - 1
      ensures Installed(states[k], labels[k]).None?
    {
      assert states[k] == b[k - n] && labels[k] == lb[k - n];
    }
  }

  lemma StaysSuspended(v: Variant, s: State, client: nat)
    requires Inv(v, s) && InCallback(s, client) && CancelClientWorks(s.q, client).1 in {Success, NotFound}
    requires Inv(v, Next(v, s, CancelClient(client)))
    ensures var s' := Next(v, s, CancelClient(client)); Suspended(v, s') && s'.pc == s.pc
  {
    hide IsHeap, MakeWith, WithoutClient;
  }
}
