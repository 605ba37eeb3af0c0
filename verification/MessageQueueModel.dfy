/**
 The message queue and its single listener: what each operation does, as functions.
 Every operation holds the queue's mutex throughout, notifications included.

 `B` is the content of messages, `L` identifies listeners and `P` queue objects.
 */
module MessageQueueModel {
  import opened Common
  import opened Notifications

  const UNDEFINED_QID: nat := INVALID_ID

  datatype Message<B> = Message(qid: nat, body: B)

  datatype Mq<B, L> = Mq(id: nat, msgs: seq<Message<B>>, listener: Option<L>)

  /** A call to a listener's notify. */
  datatype Notice<L, P> = Notice(to: L, rec: Rec<P>)

  datatype Result<B, L, P> = Result(queue: Mq<B, L>, status: Status, notices: seq<Notice<L, P>>)

  /** The notification sent to the attached listener, if there is one. */
  function Report<B, L, P>(q: Mq<B, L>, self: Option<P>, flags: Flags): seq<Notice<L, P>> {
    if q.listener.None? then [] else [Notice(q.listener.value, Rec(q.id, self, flags))]
  }

  /** No message stands for a null pointer. Only the first message is reported. */
  function Push<B, L, P>(q: Mq<B, L>, self: P, m: Option<Message<B>>): Result<B, L, P> {
    if m.None? then Result(q, InvalidArgument, [])
    else if q.id == UNDEFINED_QID || q.id != m.value.qid then Result(q, NotSupported, [])
    else
      var q' := q.(msgs := q.msgs + [m.value]);
      Result(q', Success, if |q'.msgs| == 1 then Report(q, Some(self), DATA) else [])
  }

  function Pop<B, L>(q: Mq<B, L>): (Mq<B, L>, Option<Message<B>>) {
    if q.id != UNDEFINED_QID && q.msgs != [] then (q.(msgs := q.msgs[1..]), Some(q.msgs[0])) else (q, None)
  }

  function SetListener<B, L, P>(q: Mq<B, L>, self: P, l: L): Result<B, L, P> {
    if q.listener.Some? then Result(q, AlreadyExist, [])
    else
      var q' := q.(listener := Some(l));
      Result(q', Success, if q.msgs != [] then Report(q', Some(self), DATA) else [])
  }

  function ClearListener<B, L>(q: Mq<B, L>): Mq<B, L> {
    q.(listener := None)
  }

  datatype Moved<B, L, P> = Moved(to: Mq<B, L>, from: Mq<B, L>, notices: seq<Notice<L, P>>)

  function Vacated<B, L>(): Mq<B, L> {
    Mq(UNDEFINED_QID, [], None)
  }

  /** Move construction from the object `fromPtr`. */
  function MoveConstruct<B, L, P>(from: Mq<B, L>, fromPtr: P): Moved<B, L, P> {
    Moved(ClearListener(from), Vacated(), Report(from, Some(fromPtr), DETACHED))
  }

  /** Move assignment between two different objects. */
  function MoveAssign<B, L, P>(to: Mq<B, L>, toPtr: P, from: Mq<B, L>, fromPtr: P): Moved<B, L, P> {
    Moved(ClearListener(from), Vacated(),
          Report(to, Some(toPtr), DETACHED) + Report(from, Some(fromPtr), DETACHED))
  }

  /** What the destructor sends: the object's address is not passed any more. */
  function Destroy<B, L, P>(q: Mq<B, L>): seq<Notice<L, P>> {
    Report(q, None, CLOSED)
  }

  // ---------- poll ----------

  /** The notifications made when a fresh listener is set for each queue in turn. */
  function InitialCalls<B, L, P>(mqs: seq<P>, states: seq<Mq<B, L>>): seq<Rec<P>>
    requires |mqs| == |states|
  {
    if mqs == [] then []
    else
      var n := |mqs| - 1;
      InitialCalls(mqs[..n], states[..n])
      + if states[n].listener.None? && states[n].msgs != [] then [Rec(states[n].id, Some(mqs[n]), DATA)] else []
  }

  /** What poll reports: exactly the queues that had messages and no listener of their own. */
  lemma {:induction false} InitialCallsReport<B, L, P>(mqs: seq<P>, states: seq<Mq<B, L>>, r: Rec<P>)
    requires |mqs| == |states|
    ensures r in InitialCalls(mqs, states) <==>
              exists i :: 0 <= i < |mqs| && states[i].listener.None? && states[i].msgs != []
                && r == Rec(states[i].id, Some(mqs[i]), DATA)
  {
    if mqs != [] {
      var n := |mqs| - 1;
      assert forall i :: 0 <= i < n ==> mqs[..n][i] == mqs[i] && states[..n][i] == states[i];
      InitialCallsReport(mqs[..n], states[..n], r);
      assert InitialCalls(mqs, states) == InitialCalls(mqs[..n], states[..n])
        + if states[n].listener.None? && states[n].msgs != [] then [Rec(states[n].id, Some(mqs[n]), DATA)] else [];
      hide InitialCalls;
    }
  }

  lemma InitialCallsNext<B, L, P>(mqs: seq<P>, states: seq<Mq<B, L>>, i: nat)
    requires i < |mqs| == |states|
    ensures InitialCalls(mqs[..i + 1], states[..i + 1])
         == InitialCalls(mqs[..i], states[..i])
            + if states[i].listener.None? && states[i].msgs != [] then [Rec(states[i].id, Some(mqs[i]), DATA)] else []
  {
    assert mqs[..i + 1][..i] == mqs[..i] && states[..i + 1][..i] == states[..i];
  }
}
