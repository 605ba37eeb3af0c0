/**
 The standard says what its heap algorithms achieve and leaves open how they lay out records
 that are equally early. The scheduler is modelled over any conforming choice.
 */
module HeapAlgorithms {
  import opened RecordHeap

  datatype AnyAlgorithms = Algorithms(
    push: (seq<Record>, Record) -> seq<Record>,
    pop: seq<Record> -> seq<Record>,
    make: seq<Record> -> seq<Record>)

  ghost predicate PushConforms(h: AnyAlgorithms) {
    forall s: seq<Record>, r: Record {:trigger h.push(s, r)} :: IsHeap(s) ==>
      && IsHeap(h.push(s, r)) && multiset(h.push(s, r)) == multiset(s) + multiset{r}
      && h.push(s, r) != []
      && (s != [] ==> h.push(s, r)[0] == if r.time < s[0].time then r else s[0])
  }

  ghost predicate PopConforms(h: AnyAlgorithms) {
    forall s {:trigger h.pop(s)} :: IsHeap(s) && s != [] ==> IsHeap(h.pop(s)) && multiset(s) == multiset(h.pop(s)) + multiset{s[0]}
  }

  ghost predicate MakeConforms(h: AnyAlgorithms) {
    forall s {:trigger h.make(s)} :: IsHeap(h.make(s)) && multiset(h.make(s)) == multiset(s)
  }

  /** Each result is a heap of the right records. Beyond that, a record pushed displaces the
      root only if it is strictly earlier. */
  ghost predicate Conforms(h: AnyAlgorithms) {
    PushConforms(h) && PopConforms(h) && MakeConforms(h)
  }

  type Heaps = h: AnyAlgorithms | Conforms(h) ghost witness (TopDownConforms(); TopDown())

  /** The top-down sifts of RecordHeap. */
  function TopDown(): AnyAlgorithms {
    Algorithms((s, r) => PushHeap(s, r), s => if s == [] then [] else PopHeap(s), s => MakeHeap(s))
  }

  lemma TopDownConforms()
    ensures Conforms(TopDown())
  {
    hide PushHeap, PopHeap, MakeHeap, IsHeap;
    forall s: seq<Record>, r: Record | IsHeap(s)
      ensures IsHeap(PushHeap(s, r)) && multiset(PushHeap(s, r)) == multiset(s) + multiset{r} && PushHeap(s, r) != []
      ensures s != [] ==> PushHeap(s, r)[0] == if r.time < s[0].time then r else s[0]
    {
      PushHeapIsHeap(s, r);
      assert r in multiset(PushHeap(s, r));
    }
    forall s | IsHeap(s) && s != []
      ensures IsHeap(PopHeap(s)) && multiset(s) == multiset(PopHeap(s)) + multiset{s[0]}
    {
      PopHeapIsHeap(s);
    }
    forall s
      ensures IsHeap(MakeHeap(s)) && multiset(MakeHeap(s)) == multiset(s)
    {
      MakeHeapIsHeap(s);
    }
  }

  const TOP_DOWN: Heaps := (TopDownConforms(); TopDown())

  function PushWith(h: Heaps, s: seq<Record>, r: Record): seq<Record> { h.push(s, r) }

  function PopWith(h: Heaps, s: seq<Record>): seq<Record> { h.pop(s) }

  function MakeWith(h: Heaps, s: seq<Record>): seq<Record> { h.make(s) }

  lemma PushWithIsHeap(h: Heaps, s: seq<Record>, r: Record)
    requires IsHeap(s)
    ensures var s' := PushWith(h, s, r);
            && IsHeap(s') && multiset(s') == multiset(s) + multiset{r} && s' != []
            && (s != [] ==> s'[0] == if r.time < s[0].time then r else s[0])
            && (s == [] ==> s' == [r])
  {
    hide IsHeap;
    assert PushConforms(h);
    var s' := PushWith(h, s, r);
    if s == [] {
      assert |s'| == |multiset(s')| == 1;
      assert s'[0] in multiset(s');
    }
  }

  lemma PopWithIsHeap(h: Heaps, s: seq<Record>)
    requires IsHeap(s) && s != []
    ensures IsHeap(PopWith(h, s)) && multiset(s) == multiset(PopWith(h, s)) + multiset{s[0]}
    ensures multiset(PopWith(h, s)) == multiset(s) - multiset{s[0]}
  {
    hide IsHeap;
    assert PopConforms(h);
  }

  lemma MakeWithIsHeap(h: Heaps, s: seq<Record>)
    ensures IsHeap(MakeWith(h, s)) && multiset(MakeWith(h, s)) == multiset(s)
  {
    hide IsHeap;
    assert MakeConforms(h);
  }

  lemma TopDownAlgorithms(s: seq<Record>, r: Record)
    ensures PushWith(TOP_DOWN, s, r) == PushHeap(s, r)
    ensures s != [] ==> PopWith(TOP_DOWN, s) == PopHeap(s)
    ensures MakeWith(TOP_DOWN, s) == MakeHeap(s)
  {
  }
}
