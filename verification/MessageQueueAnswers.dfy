/**
 What the operations of a message queue answer and what they do, in every run and without
 reference to how they are computed: who is attached, who is told what, what is refused.
 */
module MessageQueueAnswers {
  import opened Common
  import opened Notifications
  import opened MessageQueueModel
  import opened MessageQueueRuns

  /** What a call returns; the other operations return nothing or a message. */
  ghost function Answer(s: State, l: Label): Option<Status>
    requires Enabled(s, l)
  {
    match l
    case PushTo(p, m) => Some(Push(s.queues[p], p, m).status)
    case Attach(p, listener) => Some(SetListener(s.queues[p], p, listener).status)
    case _ => None
  }

  ghost function Popped(s: State, p: Ptr): Option<Message<nat>>
    requires p in s.queues
  {
    Pop(s.queues[p]).1
  }

  /** The event of telling the listener of the queue at `p`, if it has one. */
  ghost function Told(s: State, p: Ptr, address: Option<Ptr>, flags: Flags): seq<Event>
    requires p in s.queues
  {
    match s.queues[p].listener
    case None => []
    case Some(l) => [Event(p, Notice(l, Rec(s.queues[p].id, address, flags)))]
  }

  /** Queues, events and the histories of contents are as before. */
  ghost predicate NothingHappens(s: State, s': State) {
    s'.queues == s.queues && s'.events == s.events && s'.accepted == s.accepted && s'.taken == s.taken
  }

  // ---------- set_listener ----------

  /** The step takes the listener off the queue at `p`, or puts another queue there. */
  ghost predicate Releases(l: Label, p: Ptr) {
    match l
    case Create(x, _) => x == p
    case Detach(x) => x == p
    case ConstructFrom(x, from) => x == p || from == p
    case AssignFrom(x, from) => x != from && (x == p || from == p)
    case Delete(x) => x == p
    case _ => false
  }

  /** In step `j` the listener was set at `p`, with Success, and since then nothing took it off. */
  ghost predicate SetAt(states: seq<State>, labels: seq<Label>, j: nat, k: nat, p: Ptr, l: Listener)
    requires IsRun(states, labels) && j < k < |states|
  {
    && labels[j] == Attach(p, l) && Answer(states[j], labels[j]) == Some(Success)
    && forall i :: j < i < k ==> !Releases(labels[i], p)
  }

  ghost predicate IsSet(states: seq<State>, labels: seq<Label>, k: nat, p: Ptr, l: Listener)
    requires IsRun(states, labels) && k < |states|
  {
    exists j :: 0 <= j < k && SetAt(states, labels, j, k, p, l)
  }

  lemma ListenerStep(s: State, l: Label, p: Ptr)
    requires Enabled(s, l) && Tracked(s)
    ensures p in Next(s, l).queues ==>
              if Releases(l, p) then Next(s, l).queues[p].listener == None
              else
                && p in s.queues
                && Next(s, l).queues[p].listener ==
                     if l.Attach? && l.p == p && Answer(s, l) == Some(Success) then Some(l.l) else s.queues[p].listener
    ensures p in s.queues && !(l.Delete? && l.p == p) ==> p in Next(s, l).queues
  {
    hide Sent;
  }

  lemma SuccessNeedsNone(s: State, p: Ptr, l: Listener)
    requires p in s.queues
    ensures Answer(s, Attach(p, l)) == Some(if s.queues[p].listener == None then Success else AlreadyExist)
  {
  }

  /** A queue's listener is the one that was set with Success and not taken off since. */
  lemma {:induction false} ListenerIsSet(states: seq<State>, labels: seq<Label>, k: nat, p: Ptr, l: Listener)
    requires IsRun(states, labels) && k < |states| && p in states[k].queues
    ensures states[k].queues[p].listener == Some(l) <==> IsSet(states, labels, k, p, l)
  {
    hide Next, Answer;
    assert k > 0;
    var last := labels[k - 1];
    ListenerStep(states[k - 1], last, p);
    if Releases(last, p) {
      assert !IsSet(states, labels, k, p, l);
    } else {
      ListenerIsSet(states, labels, k - 1, p, l);
      if last.Attach? && last.p == p {
        SuccessNeedsNone(states[k - 1], p, last.l);
      }
      SetStays(states, labels, k - 1, p, l);
    }
  }

  lemma SetStays(states: seq<State>, labels: seq<Label>, k: nat, p: Ptr, l: Listener)
    requires IsRun(states, labels) && k < |labels| && !Releases(labels[k], p)
    ensures IsSet(states, labels, k + 1, p, l) <==>
              IsSet(states, labels, k, p, l) || (labels[k] == Attach(p, l) && Answer(states[k], labels[k]) == Some(Success))
  {
    hide Next, Answer;
    if IsSet(states, labels, k, p, l) {
      var j :| 0 <= j < k && SetAt(states, labels, j, k, p, l);
      assert SetAt(states, labels, j, k + 1, p, l);
    }
    if labels[k] == Attach(p, l) && Answer(states[k], labels[k]) == Some(Success) {
      assert SetAt(states, labels, k, k + 1, p, l);
    }
    if IsSet(states, labels, k + 1, p, l) {
      var j :| 0 <= j < k + 1 && SetAt(states, labels, j, k + 1, p, l);
      assert j < k ==> SetAt(states, labels, j, k, p, l);
    }
  }

  /** set_listener answers Success if and only if no listener set before is still there, and then
      the new one is attached and told at once of waiting messages; otherwise it answers
      AlreadyExist and nothing happens, so that the listener given is not attached. */
  lemma AttachAnswers(states: seq<State>, labels: seq<Label>, k: nat, p: Ptr, l: Listener)
    requires IsRun(states, labels) && k < |labels| && labels[k] == Attach(p, l)
    ensures Answer(states[k], labels[k]) == Some(if exists x :: IsSet(states, labels, k, p, x) then AlreadyExist else Success)
    ensures var s, s' := states[k], states[k + 1];
            if s.queues[p].listener.Some? then Answer(s, labels[k]) == Some(AlreadyExist) && NothingHappens(s, s')
            else
              && Answer(s, labels[k]) == Some(Success)
              && s'.queues == s.queues[p := s.queues[p].(listener := Some(l))] && s'.accepted == s.accepted && s'.taken == s.taken
              && s'.events == s.events + if s.queues[p].msgs == [] then []
                                         else [Event(p, Notice(l, Rec(s.queues[p].id, Some(p), DATA)))]
  {
    SuccessNeedsNone(states[k], p, l);
    match states[k].queues[p].listener
    case None =>
      forall x
        ensures !IsSet(states, labels, k, p, x)
      {
        ListenerIsSet(states, labels, k, p, x);
      }
      AttachSucceeds(states[k], p, l);
    case Some(x) =>
      ListenerIsSet(states, labels, k, p, x);
      AttachRefused(states[k], p, l);
  }

  lemma AttachRefused(s: State, p: Ptr, l: Listener)
    requires Tracked(s) && p in s.queues && s.queues[p].listener.Some?
    ensures NothingHappens(s, Next(s, Attach(p, l)))
  {
    assert s.queues[p := s.queues[p]] == s.queues;
  }

  lemma AttachSucceeds(s: State, p: Ptr, l: Listener)
    requires Tracked(s) && p in s.queues && s.queues[p].listener.None?
    ensures var s' := Next(s, Attach(p, l));
            && s'.queues == s.queues[p := s.queues[p].(listener := Some(l))] && s'.accepted == s.accepted && s'.taken == s.taken
            && s'.events == s.events + if s.queues[p].msgs == [] then []
                                       else [Event(p, Notice(l, Rec(s.queues[p].id, Some(p), DATA)))]
  {
  }

  // ---------- push, pop, clear_listener ----------

  /** push refuses no message with InvalidArgument, and a message for another queue, or for one
      that has lost its id, with NotSupported; any other message goes behind those that wait, and
      the listener is told of the first. */
  lemma PushAnswers(states: seq<State>, labels: seq<Label>, k: nat, p: Ptr, m: Option<Message<nat>>)
    requires IsRun(states, labels) && k < |labels| && labels[k] == PushTo(p, m)
    ensures var s, s', q := states[k], states[k + 1], states[k].queues[p];
            if m.None? then Answer(s, labels[k]) == Some(InvalidArgument) && NothingHappens(s, s')
            else if q.id == UNDEFINED_QID || m.value.qid != q.id
            then Answer(s, labels[k]) == Some(NotSupported) && NothingHappens(s, s')
            else
              && Answer(s, labels[k]) == Some(Success)
              && s'.queues == s.queues[p := q.(msgs := q.msgs + [m.value])]
              && s'.events == s.events + (if q.msgs == [] then Told(s, p, Some(p), DATA) else [])
              && s'.taken == s.taken && s'.accepted == s.accepted[p := History(s.accepted, p) + [m.value]]
  {
    var s := states[k];
    assert s.queues[p := s.queues[p]] == s.queues;
  }

  /** pop gives the oldest message, and none exactly when the queue is empty. */
  lemma PopAnswers(states: seq<State>, labels: seq<Label>, k: nat, p: Ptr)
    requires IsRun(states, labels) && k < |labels| && labels[k] == PopFrom(p)
    ensures var s, s', q := states[k], states[k + 1], states[k].queues[p];
            if q.msgs == [] then Popped(s, p) == None && NothingHappens(s, s')
            else
              && Popped(s, p) == Some(q.msgs[0]) && s'.queues == s.queues[p := q.(msgs := q.msgs[1..])]
              && s'.events == s.events && s'.accepted == s.accepted
  {
    RunInv(states, labels, k);
    hide Informed;
    assert states[k].queues[p := states[k].queues[p]] == states[k].queues;
  }

  lemma DetachAnswers(states: seq<State>, labels: seq<Label>, k: nat, p: Ptr)
    requires IsRun(states, labels) && k < |labels| && labels[k] == Detach(p)
    ensures var s, s' := states[k], states[k + 1];
            s'.queues == s.queues[p := s.queues[p].(listener := None)] && s'.events == s.events
            && s'.accepted == s.accepted && s'.taken == s.taken
  {
  }

  // ---------- the beginning, moves and the end ----------

  /** A new queue has the id given to it, no messages and no listener. */
  lemma CreateAnswers(states: seq<State>, labels: seq<Label>, k: nat, p: Ptr, id: nat)
    requires IsRun(states, labels) && k < |labels| && labels[k] == Create(p, id)
    ensures states[k + 1].queues == states[k].queues[p := Mq(id, [], None)] && states[k + 1].events == states[k].events
  {
  }

  /** Move construction hands over id and messages, leaves both objects without a listener and
      the source without an id, so that it refuses every message; the listener that was attached
      is told once, with the id the queue had and the address of the source. */
  lemma ConstructTransfers(states: seq<State>, labels: seq<Label>, k: nat, p: Ptr, from: Ptr, m: Message<nat>)
    requires IsRun(states, labels) && k < |labels| && labels[k] == ConstructFrom(p, from)
    ensures var s, s', src := states[k], states[k + 1], states[k].queues[from];
            && s'.queues == s.queues[p := Mq(src.id, src.msgs, None)][from := Mq(UNDEFINED_QID, [], None)]
            && s'.events == s.events + Told(s, from, Some(from), DETACHED)
            && Answer(s', PushTo(from, Some(m))) == Some(NotSupported) && Popped(s', from) == None
  {
    var s := states[k];
    assert p != from;
    assert s.events + Told(s, from, Some(from), DETACHED) + [] == s.events + Told(s, from, Some(from), DETACHED);
  }

  /** The same for move assignment; the listener of the queue that is overwritten is told first. */
  lemma AssignTransfers(states: seq<State>, labels: seq<Label>, k: nat, p: Ptr, from: Ptr, m: Message<nat>)
    requires IsRun(states, labels) && k < |labels| && labels[k] == AssignFrom(p, from)
    ensures var s, s', src := states[k], states[k + 1], states[k].queues[from];
            if p == from then s' == s
            else
              && s'.queues == s.queues[p := Mq(src.id, src.msgs, None)][from := Mq(UNDEFINED_QID, [], None)]
              && s'.events == s.events + Told(s, p, Some(p), DETACHED) + Told(s, from, Some(from), DETACHED)
              && Answer(s', PushTo(from, Some(m))) == Some(NotSupported) && Popped(s', from) == None
  {
  }

  /** The destructor tells the listener, without an address, that the queue is closed. */
  lemma DeleteTells(states: seq<State>, labels: seq<Label>, k: nat, p: Ptr)
    requires IsRun(states, labels) && k < |labels| && labels[k] == Delete(p)
    ensures var s, s' := states[k], states[k + 1];
            s'.queues == s.queues - {p} && s'.events == s.events + Told(s, p, None, CLOSED)
  {
  }
}
