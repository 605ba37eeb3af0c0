/**
 Any number of message queues under any sequence of operations, moves included.
 */
module MessageQueueRuns {
  import opened Common
  import opened Notifications
  import opened MessageQueueModel

  type Ptr = nat
  type Listener = nat
  type Queue = Mq<nat, Listener>

  /** A delivered notification, with the object that sent it. */
  datatype Event = Event(sender: Ptr, notice: Notice<Listener, Ptr>)

  datatype State = State(
    queues: map<Ptr, Queue>,
    events: seq<Event>,
    // history
    since: map<Ptr, nat>,                    // |events| when the queue was last empty or its listener changed
    accepted: map<Ptr, seq<Message<nat>>>,   // what was pushed into the queue's current content
    taken: map<Ptr, seq<Message<nat>>>)      // what was popped from it

  datatype Label =
    | Create(p: Ptr, id: nat)
    | PushTo(p: Ptr, m: Option<Message<nat>>)
    | PopFrom(p: Ptr)
    | Attach(p: Ptr, l: Listener)
    | Detach(p: Ptr)
    | ConstructFrom(p: Ptr, from: Ptr)
    | AssignFrom(p: Ptr, from: Ptr)
    | Delete(p: Ptr)

  const INITIAL := State(map[], [], map[], map[], map[])

  ghost predicate Enabled(s: State, l: Label) {
    match l
    case Create(p, _) => p !in s.queues
    case ConstructFrom(p, from) => p !in s.queues && from in s.queues
    case AssignFrom(p, from) => p in s.queues && from in s.queues
    case _ => l.p in s.queues
  }

  function Sent(sender: Ptr, notices: seq<Notice<Listener, Ptr>>): seq<Event> {
    seq(|notices|, i requires 0 <= i < |notices| => Event(sender, notices[i]))
  }

  /** The queue at `p` becomes `q`, sending `notices`. */
  ghost function Put(s: State, p: Ptr, q: Queue, notices: seq<Notice<Listener, Ptr>>): State
    requires p in s.queues ==> p in s.since
  {
    var afresh := p !in s.queues || s.queues[p].msgs == [] || s.queues[p].listener != q.listener;
    s.(queues := s.queues[p := q],
       events := s.events + Sent(p, notices),
       since := s.since[p := if afresh then |s.events| else s.since[p]])
  }

  ghost function History(h: map<Ptr, seq<Message<nat>>>, p: Ptr): seq<Message<nat>> {
    if p in h then h[p] else []
  }

  /** The history of the content moves along with it. */
  ghost function MoveHistory(s: State, p: Ptr, from: Ptr): State {
    s.(accepted := s.accepted[p := History(s.accepted, from)][from := []],
       taken := s.taken[p := History(s.taken, from)][from := []])
  }

  ghost predicate Tracked(s: State) {
    s.since.Keys == s.queues.Keys
  }

  ghost function Next(s: State, l: Label): State
    requires Enabled(s, l) && Tracked(s)
  {
    match l
    case Create(p, id) =>
      var s1 := Put(s, p, Mq(id, [], None), []);
      s1.(accepted := s1.accepted[p := []], taken := s1.taken[p := []])
    case PushTo(p, m) =>
      var r := Push(s.queues[p], p, m);
      var s1 := Put(s, p, r.queue, r.notices);
      if r.status == Success then s1.(accepted := s1.accepted[p := History(s.accepted, p) + [m.value]]) else s1
    case PopFrom(p) =>
      var (q, m) := Pop(s.queues[p]);
      var s1 := Put(s, p, q, []);
      if m.Some? then s1.(taken := s1.taken[p := History(s.taken, p) + [m.value]]) else s1
    case Attach(p, l) =>
      var r := SetListener(s.queues[p], p, l);
      Put(s, p, r.queue, r.notices)
    case Detach(p) => Put(s, p, ClearListener(s.queues[p]), [])
    case ConstructFrom(p, from) =>
      var r := MoveConstruct(s.queues[from], from);
      MoveHistory(Put(Put(s, from, r.from, r.notices), p, r.to, []), p, from)
    case AssignFrom(p, from) =>
      if p == from then s
      else
        var r := MoveAssign(s.queues[p], p, s.queues[from], from);
        var own: seq<Notice<Listener, Ptr>> := Report(s.queues[p], Some(p), DETACHED);
        MoveHistory(Put(Put(s, p, r.to, own), from, r.from, r.notices[|own|..]), p, from)
    case Delete(p) =>
      s.(queues := s.queues - {p}, events := s.events + Sent(p, Destroy(s.queues[p])), since := s.since - {p})
  }

  // ---------- the invariant ----------

  /** The queue at `p` has told its listener about its messages exactly once since the
      later of the listener's attachment and the queue's last being empty. */
  ghost predicate Informed(s: State, p: Ptr)
    requires p in s.queues && p in s.since
  {
    var q, since := s.queues[p], s.since[p];
    && since <= |s.events|
    && (q.listener.Some? && q.msgs != [] ==>
          exists k :: since <= k < |s.events|
            && s.events[k] == Event(p, Notice(q.listener.value, Rec(q.id, Some(p), DATA)))
            && forall j :: since <= j < |s.events| && s.events[j].sender == p ==> j == k)
  }

  ghost predicate QueueInv(q: Queue) {
    && (forall m :: m in q.msgs ==> m.qid == q.id)
    && (q.id == UNDEFINED_QID ==> q.msgs == [])
  }

  ghost predicate Inv(s: State) {
    && Tracked(s)
    && (forall p :: p in s.queues ==> QueueInv(s.queues[p]))
    && (forall p :: p in s.queues ==> Informed(s, p))
    && (forall p :: p in s.queues ==> History(s.accepted, p) == History(s.taken, p) + s.queues[p].msgs)
  }

  ghost predicate IsRun(states: seq<State>, labels: seq<Label>) {
    && |states| == |labels| + 1 && states[0] == INITIAL
    && forall i :: 0 <= i < |labels| ==>
         Enabled(states[i], labels[i]) && Tracked(states[i]) && states[i + 1] == Next(states[i], labels[i])
  }

  lemma PutInforms(s: State, p: Ptr, q: Queue, notices: seq<Notice<Listener, Ptr>>)
    requires Tracked(s) && forall x :: x in s.queues ==> Informed(s, x)
    requires var q0 := if p in s.queues then s.queues[p] else Mq(q.id, [], None);
             && |notices| <= 1
             && (q.listener.Some? && q.msgs != [] ==>
                   if q0.msgs == [] || q0.listener != q.listener
                   then notices == [Notice(q.listener.value, Rec(q.id, Some(p), DATA))]
                   else notices == [] && q.id == q0.id)
    ensures var s' := Put(s, p, q, notices); Tracked(s') && forall x :: x in s'.queues ==> Informed(s', x)
  {
    var s' := Put(s, p, q, notices);
    forall x | x in s'.queues
      ensures Informed(s', x)
    {
      if x == p {
        PutInformsSelf(s, p, q, notices);
      } else {
        OthersStayInformed(s, s', x, p);
      }
    }
  }

  lemma OthersStayInformed(s: State, s': State, x: Ptr, p: Ptr)
    requires Tracked(s) && x in s.queues && Informed(s, x) && x != p
    requires x in s'.queues && x in s'.since && s'.queues[x] == s.queues[x] && s'.since[x] == s.since[x]
    requires |s.events| <= |s'.events| && s.events == s'.events[..|s.events|]
    requires forall j :: |s.events| <= j < |s'.events| ==> s'.events[j].sender == p
    ensures Informed(s', x)
  {
    assert forall j :: 0 <= j < |s.events| ==> s'.events[j] == s.events[j];
  }

  lemma PutInformsSelf(s: State, p: Ptr, q: Queue, notices: seq<Notice<Listener, Ptr>>)
    requires Tracked(s) && (p in s.queues ==> Informed(s, p))
    requires var q0 := if p in s.queues then s.queues[p] else Mq(q.id, [], None);
             && |notices| <= 1
             && (q.listener.Some? && q.msgs != [] ==>
                   if q0.msgs == [] || q0.listener != q.listener
                   then notices == [Notice(q.listener.value, Rec(q.id, Some(p), DATA))]
                   else notices == [] && q.id == q0.id)
    ensures var s' := Put(s, p, q, notices); p in s'.queues && p in s'.since && Informed(s', p)
  {
    var s' := Put(s, p, q, notices);
    var n := |s.events|;
    assert forall j :: 0 <= j < n ==> s'.events[j] == s.events[j];
    if q.listener.Some? && q.msgs != [] {
      if notices != [] {
        assert s'.events[n] == Event(p, notices[0]);
      } else {
        assert s'.events == s.events;
      }
    }
  }

  // ---------- every step keeps it ----------

  ghost predicate Delivered(s: State) {
    forall p :: p in s.queues ==> History(s.accepted, p) == History(s.taken, p) + s.queues[p].msgs
  }

  ghost predicate WellFormed(s: State) {
    forall p :: p in s.queues ==> QueueInv(s.queues[p])
  }

  ghost predicate AllInformed(s: State) {
    Tracked(s) && forall p :: p in s.queues ==> Informed(s, p)
  }

  lemma KeepsWellFormed(s: State, l: Label)
    requires Enabled(s, l) && Tracked(s) && WellFormed(s)
    ensures WellFormed(Next(s, l))
  {
  }

  lemma KeepsDelivered(s: State, l: Label)
    requires Enabled(s, l) && Tracked(s) && Delivered(s)
    ensures Delivered(Next(s, l))
  {
    hide Report, Sent;
    match l
    case PushTo(p, m) => PushDelivers(s, p, m);
    case PopFrom(p) => PopDelivers(s, p);
    case _ => OthersDeliver(s, l);
  }

  lemma OthersDeliver(s: State, l: Label)
    requires Enabled(s, l) && Tracked(s) && Delivered(s) && !l.PushTo? && !l.PopFrom?
    ensures Delivered(Next(s, l))
  {
    hide Report, Sent;
  }

  lemma PushDelivers(s: State, p: Ptr, m: Option<Message<nat>>)
    requires Tracked(s) && p in s.queues && Delivered(s)
    ensures Delivered(Next(s, PushTo(p, m)))
  {
    hide Report, Sent;
    var s', r := Next(s, PushTo(p, m)), Push(s.queues[p], p, m);
    assert s'.queues == s.queues[p := r.queue] && s'.taken == s.taken;
    assert History(s.accepted, p) == History(s.taken, p) + s.queues[p].msgs;
    if r.status == Success {
      assert s'.accepted == s.accepted[p := History(s.accepted, p) + [m.value]];
      assert r.queue.msgs == s.queues[p].msgs + [m.value];
    }
    hide Next, Push;
  }

  lemma PopDelivers(s: State, p: Ptr)
    requires Tracked(s) && p in s.queues && Delivered(s)
    ensures Delivered(Next(s, PopFrom(p)))
  {
    hide Report, Sent;
    var s', q := Next(s, PopFrom(p)), s.queues[p];
    assert History(s.accepted, p) == History(s.taken, p) + q.msgs;
    if q.id != UNDEFINED_QID && q.msgs != [] {
      HeadAndTail(History(s.taken, p), q.msgs);
      assert History(s'.taken, p) == History(s.taken, p) + [q.msgs[0]];
    }
    forall x | x in s.queues && x != p
      ensures s'.queues[x] == s.queues[x] && History(s'.taken, x) == History(s.taken, x)
    {
    }
  }

  lemma HeadAndTail<T>(a: seq<T>, b: seq<T>)
    requires b != []
    ensures a + b == a + [b[0]] + b[1..]
  {
  }

  lemma HistoryIsSilent(s: State, s': State)
    requires AllInformed(s) && s'.queues == s.queues && s'.events == s.events && s'.since == s.since
    ensures AllInformed(s')
  {
    assert forall p :: p in s.queues ==> Informed(s, p) && Informed(s', p);
  }

  lemma ConstructInforms(s: State, p: Ptr, from: Ptr)
    requires AllInformed(s) && p !in s.queues && from in s.queues
    ensures AllInformed(Next(s, ConstructFrom(p, from)))
  {
    hide Informed;
    var r := MoveConstruct(s.queues[from], from);
    PutInforms(s, from, r.from, r.notices);
    var s1 := Put(s, from, r.from, r.notices);
    PutInforms(s1, p, r.to, []);
    HistoryIsSilent(Put(s1, p, r.to, []), Next(s, ConstructFrom(p, from)));
  }

  lemma AssignInforms(s: State, p: Ptr, from: Ptr)
    requires AllInformed(s) && p in s.queues && from in s.queues && p != from
    ensures AllInformed(Next(s, AssignFrom(p, from)))
  {
    hide Informed;
    var r := MoveAssign(s.queues[p], p, s.queues[from], from);
    var own: seq<Notice<Listener, Ptr>> := Report(s.queues[p], Some(p), DETACHED);
    PutInforms(s, p, r.to, own);
    var s1 := Put(s, p, r.to, own);
    PutInforms(s1, from, r.from, r.notices[|own|..]);
    HistoryIsSilent(Put(s1, from, r.from, r.notices[|own|..]), Next(s, AssignFrom(p, from)));
  }

  lemma KeepsInformed(s: State, l: Label)
    requires Enabled(s, l) && AllInformed(s)
    ensures AllInformed(Next(s, l))
  {
    match l
    case Create(p, id) =>
      PutInforms(s, p, Mq(id, [], None), []);
      HistoryIsSilent(Put(s, p, Mq(id, [], None), []), Next(s, l));
    case PushTo(p, m) =>
      var r := Push(s.queues[p], p, m);
      PutInforms(s, p, r.queue, r.notices);
      HistoryIsSilent(Put(s, p, r.queue, r.notices), Next(s, l));
    case PopFrom(p) =>
      var q := Pop(s.queues[p]).0;
      PutInforms(s, p, q, []);
      HistoryIsSilent(Put(s, p, q, []), Next(s, l));
    case Attach(p, l) =>
      var r := SetListener(s.queues[p], p, l);
      PutInforms(s, p, r.queue, r.notices);
    case Detach(p) => PutInforms(s, p, ClearListener(s.queues[p]), []);
    case ConstructFrom(p, from) => ConstructInforms(s, p, from);
    case AssignFrom(p, from) =>
      if p != from {
        AssignInforms(s, p, from);
      }
    case Delete(p) =>
      var s' := Next(s, l);
      forall x | x in s'.queues
        ensures Informed(s', x)
      {
        OthersStayInformed(s, s', x, p);
      }
  }

  /** In every reachable state: every stored message carries its queue's id; a queue without
      an id is empty; a queue with messages and a listener has told it exactly once since
      the later of the attachment and last being empty; and through all moves, a queue's
      content is what was accepted into it less what was taken from it, in order. */
  lemma {:induction false} RunInv(states: seq<State>, labels: seq<Label>, i: nat)
    requires IsRun(states, labels) && i < |states|
    ensures Inv(states[i])
  {
    if i > 0 {
      RunInv(states, labels, i - 1);
      KeepsWellFormed(states[i - 1], labels[i - 1]);
      KeepsDelivered(states[i - 1], labels[i - 1]);
      KeepsInformed(states[i - 1], labels[i - 1]);
    }
  }
}
