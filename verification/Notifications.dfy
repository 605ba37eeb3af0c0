/**
 The notification list of a poll listener: one record per queue, in ascending order of
 queue id. `P` stands for a pointer to a message queue.
 */
module Notifications {
  import opened Common

  /** The bits of notification_flag. */
  datatype Flags = Flags(data: bool, detached: bool, closed: bool) {
    function Or(f: Flags): Flags {
      Flags(data || f.data, detached || f.detached, closed || f.closed)
    }
  }

  const DATA := Flags(true, false, false)
  const DETACHED := Flags(false, true, false)
  const CLOSED := Flags(false, false, true)

  /** A record, and also the arguments of one call to notify; no pointer is nullptr. */
  datatype Rec<P> = Rec(qid: nat, mq: Option<P>, flags: Flags)

  ghost predicate Ascending<P>(list: seq<Rec<P>>) {
    forall i, j :: 0 <= i < j < |list| ==> list[i].qid < list[j].qid
  }

  ghost predicate HasQid<P>(list: seq<Rec<P>>, qid: nat) {
    exists i :: 0 <= i < |list| && list[i].qid == qid
  }

  /** std::upper_bound: how many records from the front are not above `qid`. */
  function UpperBound<P>(list: seq<Rec<P>>, qid: nat): (k: nat)
    ensures k <= |list|
  {
    if list == [] || qid < list[0].qid then 0 else 1 + UpperBound(list[1..], qid)
  }

  lemma {:induction false} UpperBoundUnique<P>(list: seq<Rec<P>>, qid: nat, k: nat)
    requires k <= |list|
    requires forall i :: 0 <= i < k ==> list[i].qid <= qid
    requires forall i :: k <= i < |list| ==> qid < list[i].qid
    ensures UpperBound(list, qid) == k
  {
    if k > 0 {
      UpperBoundUnique(list[1..], qid, k - 1);
    }
  }

  lemma {:induction false} UpperBoundSplits<P>(list: seq<Rec<P>>, qid: nat)
    requires Ascending(list)
    ensures var k := UpperBound(list, qid);
            && (forall i :: 0 <= i < k ==> list[i].qid <= qid)
            && (forall i :: k <= i < |list| ==> qid < list[i].qid)
  {
    if list != [] && list[0].qid <= qid {
      UpperBoundSplits(list[1..], qid);
      assert forall i :: 0 < i < |list| ==> list[i] == list[1..][i - 1];
    }
  }

  /** message_queue_poll_listener::notify. */
  function Notify<P>(list: seq<Rec<P>>, call: Rec<P>): seq<Rec<P>> {
    var k := UpperBound(list, call.qid);
    if 0 < k && list[k - 1].qid == call.qid
    then list[k - 1 := list[k - 1].(flags := list[k - 1].flags.Or(call.flags))]
    else list[..k] + [call] + list[k..]
  }

  /** A queue already in the list has its flags extended in place; a new one is inserted
      where the order wants it. */
  lemma NotifyCases<P>(list: seq<Rec<P>>, call: Rec<P>) returns (k: nat)
    requires Ascending(list)
    ensures k <= |list|
    ensures if HasQid(list, call.qid)
            then && k < |list| && list[k].qid == call.qid
                 && Notify(list, call) == list[k := list[k].(flags := list[k].flags.Or(call.flags))]
            else && (forall i :: 0 <= i < k ==> list[i].qid < call.qid)
                 && (forall i :: k <= i < |list| ==> call.qid < list[i].qid)
                 && Notify(list, call) == list[..k] + [call] + list[k..]
  {
    UpperBoundSplits(list, call.qid);
    k := UpperBound(list, call.qid);
    if 0 < k && list[k - 1].qid == call.qid {
      k := k - 1;
    }
  }

  lemma InsertedAt<T>(s: seq<T>, k: nat, x: T)
    requires k <= |s|
    ensures var s' := s[..k] + [x] + s[k..];
            && |s'| == |s| + 1 && s'[k] == x
            && (forall i :: 0 <= i < k ==> s'[i] == s[i])
            && (forall i :: k < i <= |s| ==> s'[i] == s[i - 1])
  {
  }

  lemma NotifyKeepsAscending<P>(list: seq<Rec<P>>, call: Rec<P>)
    requires Ascending(list)
    ensures Ascending(Notify(list, call))
  {
    hide Notify, HasQid;
    var k := NotifyCases(list, call);
    InsertedAt(list, k, call);
  }

  lemma NotifyAddsQid<P>(list: seq<Rec<P>>, call: Rec<P>)
    requires Ascending(list)
    ensures forall q :: HasQid(Notify(list, call), q) <==> HasQid(list, q) || q == call.qid
  {
    hide Notify;
    var k := NotifyCases(list, call);
    var list' := Notify(list, call);
    if !HasQid(list, call.qid) {
      InsertedHasQid(list, k, call);
    } else {
      assert forall i :: 0 <= i < |list| ==> list'[i].qid == list[i].qid;
    }
  }

  lemma InsertedHasQid<P>(list: seq<Rec<P>>, k: nat, call: Rec<P>)
    requires k <= |list|
    ensures forall q :: HasQid(list[..k] + [call] + list[k..], q) <==> HasQid(list, q) || q == call.qid
  {
    var list' := list[..k] + [call] + list[k..];
    InsertedAt(list, k, call);
    assert HasQid(list', call.qid);
    forall q | HasQid(list, q)
      ensures HasQid(list', q)
    {
      var i :| 0 <= i < |list| && list[i].qid == q;
      assert list'[if i < k then i else i + 1].qid == q;
    }
    forall q | HasQid(list', q) && q != call.qid
      ensures HasQid(list, q)
    {
      var i :| 0 <= i < |list'| && list'[i].qid == q;
      assert list[if i < k then i else i - 1].qid == q;
    }
  }

  /** The record of another queue is untouched; the queue's own is new or has more flags. */
  lemma NotifyRecords<P>(list: seq<Rec<P>>, call: Rec<P>)
    requires Ascending(list)
    ensures forall r: Rec<P> :: r.qid != call.qid ==> (r in Notify(list, call) <==> r in list)
    ensures forall r :: r in Notify(list, call) && r.qid == call.qid ==>
              if HasQid(list, call.qid)
              then exists was :: was in list && was.qid == r.qid && r == was.(flags := was.flags.Or(call.flags))
              else r == call
  {
    hide Notify;
    var k := NotifyCases(list, call);
    if HasQid(list, call.qid) {
      UpdateMembers(list, k, list[k].(flags := list[k].flags.Or(call.flags)));
      assert forall r :: r in list && r.qid == call.qid ==> r == list[k];
    } else {
      assert list == list[..k] + list[k..];
      assert forall r :: r in list ==> HasQid(list, r.qid);
    }
  }

  lemma UpdateMembers<T>(s: seq<T>, k: nat, x: T)
    requires k < |s|
    ensures forall y :: y in s[k := x] ==> y == x || y in s
    ensures forall y :: y in s && y != s[k] ==> y in s[k := x]
    ensures s[k] in s
  {
    forall y | y in s && y != s[k]
      ensures y in s[k := x]
    {
      var i :| 0 <= i < |s| && s[i] == y;
      assert s[k := x][i] == y;
    }
  }

  // ---------- what a list says about the calls that made it ----------

  function NotifyAll<P>(calls: seq<Rec<P>>): seq<Rec<P>> {
    if calls == [] then []
    else Notify(NotifyAll(calls[..|calls| - 1]), calls[|calls| - 1])
  }

  lemma NotifyAllNext<P>(calls: seq<Rec<P>>, call: Rec<P>)
    ensures NotifyAll(calls + [call]) == Notify(NotifyAll(calls), call)
  {
    assert (calls + [call])[..|calls|] == calls;
  }

  /** The calls made for one queue, in order. */
  function CallsFor<P>(calls: seq<Rec<P>>, qid: nat): seq<Rec<P>> {
    if calls == [] then []
    else
      var n := |calls| - 1;
      CallsFor(calls[..n], qid) + if calls[n].qid == qid then [calls[n]] else []
  }

  /** `r` is what the map from queue ids to (first pointer, all flags) holds for its queue. */
  ghost predicate SumsUp<P>(r: Rec<P>, calls: seq<Rec<P>>) {
    && calls != [] && r.mq == calls[0].mq
    && (r.flags.data <==> exists c :: c in calls && c.flags.data)
    && (r.flags.detached <==> exists c :: c in calls && c.flags.detached)
    && (r.flags.closed <==> exists c :: c in calls && c.flags.closed)
  }

  ghost predicate Represents<P>(list: seq<Rec<P>>, calls: seq<Rec<P>>) {
    && Ascending(list)
    && (forall q :: HasQid(list, q) <==> CallsFor(calls, q) != [])
    && forall r :: r in list ==> SumsUp(r, CallsFor(calls, r.qid))
  }

  lemma SumsUpNext<P>(was: Rec<P>, calls: seq<Rec<P>>, call: Rec<P>)
    requires SumsUp(was, calls)
    ensures SumsUp(was.(flags := was.flags.Or(call.flags)), calls + [call])
  {
    var next := calls + [call];
    assert forall c :: c in next <==> c in calls || c == call;
  }

  lemma SumsUpFirst<P>(call: Rec<P>)
    ensures SumsUp(call, [call])
  {
    assert call in [call];
  }

  lemma NothingRepresented<P>()
    ensures Represents<P>([], [])
  {
  }

  /** After any calls, in any order, the list is ascending and is exactly the map from
      queue ids to the first pointer reported and the union of all flags reported. */
  lemma {:induction false} NotifyAllRepresents<P>(calls: seq<Rec<P>>)
    ensures Represents(NotifyAll(calls), calls)
  {
    if calls == [] {
      NothingRepresented<P>();
    } else {
      hide Represents, Notify;
      var n := |calls| - 1;
      assert calls == calls[..n] + [calls[n]];
      NotifyAllRepresents(calls[..n]);
      RepresentsNext(NotifyAll(calls[..n]), calls[..n], calls[n]);
    }
  }

  lemma CallsForNext<P>(calls: seq<Rec<P>>, call: Rec<P>)
    ensures forall q :: CallsFor(calls + [call], q) == CallsFor(calls, q) + if call.qid == q then [call] else []
  {
    var next := calls + [call];
    assert next[..|next| - 1] == calls;
  }

  lemma RepresentsNext<P>(list: seq<Rec<P>>, calls: seq<Rec<P>>, call: Rec<P>)
    requires Represents(list, calls)
    ensures Represents(Notify(list, call), calls + [call])
  {
    hide Notify, SumsUp, CallsFor;
    var next := calls + [call];
    CallsForNext(calls, call);
    NotifyKeepsAscending(list, call);
    NotifyAddsQid(list, call);
    forall r | r in Notify(list, call)
      ensures SumsUp(r, CallsFor(next, r.qid))
    {
      RecordSumsUp(list, calls, call, r);
    }
  }

  lemma RecordSumsUp<P>(list: seq<Rec<P>>, calls: seq<Rec<P>>, call: Rec<P>, r: Rec<P>)
    requires Represents(list, calls) && r in Notify(list, call)
    ensures SumsUp(r, CallsFor(calls, r.qid) + if call.qid == r.qid then [call] else [])
  {
    hide Notify, SumsUp, CallsFor;
    NotifyRecords(list, call);
    if r.qid != call.qid {
      assert CallsFor(calls, r.qid) + [] == CallsFor(calls, r.qid);
    } else if HasQid(list, r.qid) {
      var was :| was in list && was.qid == r.qid && r == was.(flags := was.flags.Or(call.flags));
      SumsUpNext(was, CallsFor(calls, r.qid), call);
    } else {
      SumsUpFirst(call);
      assert CallsFor(calls, r.qid) == [];
      assert [] + [call] == [call];
    }
  }

  /** An ascending list is determined by its records. */
  lemma {:induction false} AscendingUnique<P>(a: seq<Rec<P>>, b: seq<Rec<P>>)
    requires Ascending(a) && Ascending(b) && forall r :: r in a <==> r in b
    ensures a == b
  {
    assert |a| > 0 ==> a[0] in b;
    assert |b| > 0 ==> b[0] in a;
    if a != [] {
      assert a[0] in b && b[0] in a;
      assert a[0] == b[0];
      forall r
        ensures r in a[1..] <==> r in b[1..]
      {
        assert r in a <==> r == a[0] || r in a[1..];
        assert r in b <==> r == b[0] || r in b[1..];
      }
      AscendingUnique(a[1..], b[1..]);
    }
  }

  /** Only the order of the calls for each single queue matters. */
  lemma ReorderingIsInvisible<P>(calls: seq<Rec<P>>, calls': seq<Rec<P>>)
    requires forall q :: CallsFor(calls, q) == CallsFor(calls', q)
    ensures NotifyAll(calls) == NotifyAll(calls')
  {
    NotifyAllRepresents(calls);
    NotifyAllRepresents(calls');
    SameRecords(NotifyAll(calls), NotifyAll(calls'), calls, calls');
    SameRecords(NotifyAll(calls'), NotifyAll(calls), calls', calls);
    AscendingUnique(NotifyAll(calls), NotifyAll(calls'));
  }

  lemma SameRecords<P>(a: seq<Rec<P>>, b: seq<Rec<P>>, calls: seq<Rec<P>>, calls': seq<Rec<P>>)
    requires Represents(a, calls) && Represents(b, calls')
    requires forall q :: CallsFor(calls, q) == CallsFor(calls', q)
    ensures forall r :: r in a ==> r in b
  {
    forall r | r in a
      ensures r in b
    {
      assert HasQid(a, r.qid);
      assert HasQid(b, r.qid);
      var i :| 0 <= i < |b| && b[i].qid == r.qid;
      assert b[i] in b;
      assert SumsUp(b[i], CallsFor(calls, r.qid));
      assert r == b[i];
    }
  }
}
