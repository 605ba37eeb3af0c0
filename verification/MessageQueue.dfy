/**
 Message queues, poll listeners and poll() as objects updated in place.
 */
module MessageQueueClass {
  import opened Common
  import opened Notifications
  import opened MessageQueueModel

  class PollListener<B> {
    var notifications: seq<Rec<MessageQueue<B>>>

    ghost predicate Valid()
      reads this
    {
      Ascending(notifications)
    }

    constructor ()
      ensures Valid() && notifications == []
    {
      notifications := [];
    }

    /** Finds the queue's record by binary search; extends its flags or inserts it. */
    method Notify(qid: nat, mq: Option<MessageQueue<B>>, flags: Flags)
      requires Valid()
      modifies this
      ensures Valid()
      ensures notifications == Notifications.Notify(old(notifications), Rec(qid, mq, flags))
    {
      NotifyKeepsAscending(notifications, Rec(qid, mq, flags));
      var lo, hi := 0, |notifications|;
      while lo < hi
        invariant lo <= hi <= |notifications|
        invariant forall i :: 0 <= i < lo ==> notifications[i].qid <= qid
        invariant forall i :: hi <= i < |notifications| ==> qid < notifications[i].qid
      {
        var mid := (lo + hi) / 2;
        if qid < notifications[mid].qid {
          hi := mid;
        } else {
          lo := mid + 1;
        }
      }
      UpperBoundUnique(notifications, qid, lo);
      if 0 < lo && notifications[lo - 1].qid == qid {
        var prev := notifications[lo - 1];
        notifications := notifications[lo - 1 := prev.(flags := prev.flags.Or(flags))];
      } else {
        notifications := notifications[..lo] + [Rec(qid, mq, flags)] + notifications[lo..];
      }
    }
  }

  /** What a listener's list becomes by the notices addressed to it. */
  ghost function Told<B>(list: seq<Rec<MessageQueue<B>>>, me: PollListener<B>,
                         notices: seq<Notice<PollListener<B>, MessageQueue<B>>>): seq<Rec<MessageQueue<B>>>
  {
    if notices == [] then list
    else
      var n := |notices| - 1;
      var before := Told(list, me, notices[..n]);
      if notices[n].to == me then Notifications.Notify(before, notices[n].rec) else before
  }

  lemma ToldNext<B>(list: seq<Rec<MessageQueue<B>>>, me: PollListener<B>,
                    notices: seq<Notice<PollListener<B>, MessageQueue<B>>>, next: Notice<PollListener<B>, MessageQueue<B>>)
    ensures Told(list, me, notices + [next])
         == var before := Told(list, me, notices); if next.to == me then Notifications.Notify(before, next.rec) else before
    ensures Told(list, me, []) == list
    ensures Told(list, me, [next]) == if next.to == me then Notifications.Notify(list, next.rec) else list
  {
    assert (notices + [next])[..|notices|] == notices;
    assert [next][..0] == [];
  }

  lemma ToldBoth<B>(list: seq<Rec<MessageQueue<B>>>, me: PollListener<B>,
                    a: seq<Notice<PollListener<B>, MessageQueue<B>>>, b: seq<Notice<PollListener<B>, MessageQueue<B>>>)
    requires |a| <= 1 && |b| <= 1
    ensures Told(list, me, a + b) == Told(Told(list, me, a), me, b)
    ensures |a| == 1 && a[0].to != me ==> Told(list, me, a) == list
    ensures a == [] ==> Told(list, me, a) == list
  {
    if b == [] {
      assert a + b == a;
    } else {
      assert b == [b[0]];
      ToldNext(list, me, a, b[0]);
      ToldNext(Told(list, me, a), me, a, b[0]);
    }
    if a != [] {
      assert a == [a[0]];
      ToldNext(list, me, [], a[0]);
    }
  }

  class MessageQueue<B> {
    var id: nat
    var queue: seq<Message<B>>
    var listener: PollListener?<B>

    ghost function Model(): Mq<B, PollListener<B>>
      reads this
    {
      if listener == null then Mq(id, queue, None)
      else
        var l: PollListener<B> := listener;
        Mq(id, queue, Some(l))
    }

    ghost function Listeners(): set<PollListener<B>>
      reads this
    {
      if listener == null then {} else {listener}
    }

    constructor (id: nat)
      ensures Model() == Mq(id, [], None)
    {
      this.id, queue, listener := id, [], null;
    }

    method Push(m: Option<Message<B>>) returns (status: Status)
      requires listener != null ==> listener.Valid()
      modifies this`queue, Listeners()
      ensures var r := MessageQueueModel.Push(old(Model()), this, m);
              && Model() == r.queue && status == r.status
              && (listener != null ==>
                    listener.Valid() && listener.notifications == Told(old(listener.notifications), listener, r.notices))
    {
      if m.None? {
        return InvalidArgument;
      }
      if id == UNDEFINED_QID || id != m.value.qid {
        return NotSupported;
      }
      queue := queue + [m.value];
      if listener != null && |queue| == 1 {
        listener.Notify(id, Some(this), DATA);
      }
      return Success;
    }

    method Pop() returns (m: Option<Message<B>>)
      modifies this`queue
      ensures (Model(), m) == MessageQueueModel.Pop(old(Model()))
    {
      if id != UNDEFINED_QID && queue != [] {
        m, queue := Some(queue[0]), queue[1..];
      } else {
        m := None;
      }
    }

    method SetListener(l: PollListener<B>) returns (status: Status)
      requires l.Valid()
      modifies this`listener, l
      ensures var r := MessageQueueModel.SetListener(old(Model()), this, l);
              && Model() == r.queue && status == r.status == (if old(listener) == null then Success else AlreadyExist)
              && l.Valid() && l.notifications == Told(old(l.notifications), l, r.notices)
    {
      if listener != null {
        return AlreadyExist;
      }
      listener := l;
      if queue != [] {
        listener.Notify(id, Some(this), DATA);
      }
      return Success;
    }

    method ClearListener()
      modifies this`listener
      ensures Model() == MessageQueueModel.ClearListener(old(Model()))
    {
      listener := null;
    }

    /** Move construction: `this` is the new object. */
    constructor MoveFrom(o: MessageQueue<B>)
      requires o.listener != null ==> o.listener.Valid()
      modifies o, o.Listeners()
      ensures var r := MoveConstruct(old(o.Model()), o);
              && Model() == r.to && o.Model() == r.from
              && forall l :: l in old(o.Listeners()) ==>
                   l.Valid() && l.notifications == Told(old(l.notifications), l, r.notices)
    {
      id, queue, listener := o.id, o.queue, null;
      new;
      var l := o.listener;
      o.id, o.queue, o.listener := UNDEFINED_QID, [], null;
      if l != null {
        l.Notify(id, Some(o), DETACHED);
      }
    }

    /** Move assignment; both objects may have the same listener. */
    method MoveAssign(o: MessageQueue<B>)
      requires forall l :: l in Listeners() + o.Listeners() ==> l.Valid()
      modifies this, o, Listeners(), o.Listeners()
      ensures o == this ==> Model() == old(Model())
      ensures o != this ==>
                var r := MessageQueueModel.MoveAssign(old(Model()), this, old(o.Model()), o);
                && Model() == r.to && o.Model() == r.from
                && forall l :: l in old(Listeners() + o.Listeners()) ==>
                     l.Valid() && l.notifications == Told(old(l.notifications), l, r.notices)
    {
      hide Told, Notifications.Notify, Ascending;
      if o != this {
        Overwrite(o);
      }
    }

    method Overwrite(o: MessageQueue<B>)
      requires o != this && forall l :: l in Listeners() + o.Listeners() ==> l.Valid()
      modifies this, o, Listeners(), o.Listeners()
      ensures Model() == MessageQueueModel.ClearListener(old(o.Model())) && o.Model() == Vacated()
      ensures forall l :: l in old(Listeners() + o.Listeners()) ==>
                l.Valid()
                && l.notifications == Told(old(l.notifications), l, Report(old(Model()), Some(this), DETACHED)
                                                                    + Report(old(o.Model()), Some(o), DETACHED))
    {
      hide Told, Notifications.Notify, Ascending;
      ghost var mine, others := listener, o.listener;
      ghost var own: seq<Notice<PollListener<B>, MessageQueue<B>>> := Report(Model(), Some(this), DETACHED);
      ghost var theirs: seq<Notice<PollListener<B>, MessageQueue<B>>> := Report(o.Model(), Some(o), DETACHED);
      if mine != null {
        ToldBoth(mine.notifications, mine, own, theirs);
      }
      if others != null {
        ToldBoth(others.notifications, others, own, theirs);
      }
      DetachOwn();
      if mine != null {
        ToldBoth(mine.notifications, mine, theirs, []);
      }
      Adopt(o);
    }

    /** Takes over the id and the messages of another queue and tells that queue's listener. */
    method Adopt(o: MessageQueue<B>)
      requires o != this && listener == null && (o.listener != null ==> o.listener.Valid())
      modifies this`id, this`queue, o, o.Listeners()
      ensures Model() == MessageQueueModel.ClearListener(old(o.Model())) && o.Model() == Vacated()
      ensures forall l :: l in old(o.Listeners()) ==>
                l.Valid() && l.notifications == Told(old(l.notifications), l, Report(old(o.Model()), Some(o), DETACHED))
    {
      id, queue := o.id, o.queue;
      var l := o.listener;
      o.id, o.queue, o.listener := UNDEFINED_QID, [], null;
      if l != null {
        ToldNext(l.notifications, l, [], Notice(l, Rec(id, Some(o), DETACHED)));
        l.Notify(id, Some(o), DETACHED);
      }
    }

    /** Tells the listener, if there is one, that this queue is being overwritten. */
    method DetachOwn()
      requires listener != null ==> listener.Valid()
      modifies this`listener, Listeners()
      ensures listener == null
      ensures forall l :: l in old(Listeners()) ==>
                l.Valid() && l.notifications == Told(old(l.notifications), l, Report(old(Model()), Some(this), DETACHED))
    {
      if listener != null {
        ToldNext(listener.notifications, listener, [], Notice(listener, Rec(id, Some(this), DETACHED)));
        listener.Notify(id, Some(this), DETACHED);
        listener := null;
      }
    }

    /** The destructor. */
    method Destroy()
      requires listener != null ==> listener.Valid()
      modifies Listeners()
      ensures listener != null ==>
                listener.Valid()
                && listener.notifications == Told(old(listener.notifications), listener, MessageQueueModel.Destroy(old(Model())))
    {
      if listener != null {
        listener.Notify(id, None, CLOSED);
      }
    }
  }

  // ---------- poll ----------

  ghost function Models<B>(mqs: seq<MessageQueue<B>>): seq<Mq<B, PollListener<B>>>
    reads mqs
  {
    seq(|mqs|, i requires 0 <= i < |mqs| reads mqs => mqs[i].Model())
  }

  /** One turn of the loop below; the answer of set_listener is not looked at. */
  method AttachOne<B>(mqs: seq<MessageQueue<B>>, i: nat, listener: PollListener<B>,
                      ghost states: seq<Mq<B, PollListener<B>>>)
    requires i < |mqs| == |states| && mqs[i].Model() == states[i]
    requires listener.Valid() && listener.notifications == NotifyAll(InitialCalls(mqs[..i], states[..i]))
    modifies {mqs[i]}`listener, listener
    ensures listener.Valid() && listener.notifications == NotifyAll(InitialCalls(mqs[..i + 1], states[..i + 1]))
  {
    hide NotifyAll, InitialCalls, Told, Notifications.Notify, Ascending;
    ghost var calls, rec := InitialCalls(mqs[..i], states[..i]), Rec(mqs[i].id, Some(mqs[i]), DATA);
    InitialCallsNext(mqs, states, i);
    NotifyAllNext(calls, rec);
    ToldNext(NotifyAll(calls), listener, [], Notice(listener, rec));
    var status := mqs[i].SetListener(listener);
    assert calls + [] == calls;
  }

  /** The constructor of set_listener_for_each_queue. */
  method AttachAll<B>(mqs: seq<MessageQueue<B>>, listener: PollListener<B>)
    requires forall i, j :: 0 <= i < j < |mqs| ==> mqs[i] != mqs[j]
    requires listener.notifications == [] && forall mq :: mq in mqs ==> mq.listener != listener
    modifies (set mq | mq in mqs)`listener, listener
    ensures listener.notifications == NotifyAll(InitialCalls(mqs, old(Models(mqs))))
  {
    ghost var states := Models(mqs);
    for i := 0 to |mqs|
      invariant listener.Valid() && listener.notifications == NotifyAll(InitialCalls(mqs[..i], states[..i]))
      invariant forall j :: i <= j < |mqs| ==> mqs[j].Model() == states[j]
    {
      hide NotifyAll, InitialCalls;
      AttachOne(mqs, i, listener, states);
    }
    assert mqs[..|mqs|] == mqs && states[..|mqs|] == states;
  }

  /** Its destructor: clears every queue's listener, whoever had set it. */
  method DetachAll<B>(mqs: seq<MessageQueue<B>>)
    modifies (set mq | mq in mqs)`listener
    ensures forall mq :: mq in mqs ==> mq.listener == null
  {
    for i := 0 to |mqs|
      invariant forall j :: 0 <= j < i ==> mqs[j].listener == null
    {
      mqs[i].ClearListener();
    }
  }

  /** poll (first, last) with nobody else at the queues and without waiting. */
  method Poll<B>(mqs: seq<MessageQueue<B>>) returns (list: seq<Rec<MessageQueue<B>>>)
    requires forall i, j :: 0 <= i < j < |mqs| ==> mqs[i] != mqs[j]
    modifies (set mq | mq in mqs)`listener
    ensures list == NotifyAll(InitialCalls(mqs, old(Models(mqs))))
    ensures forall mq :: mq in mqs ==> mq.listener == null
  {
    var listener := new PollListener<B>();
    AttachAll(mqs, listener);
    list := listener.notifications;
    DetachAll(mqs);
  }
}
