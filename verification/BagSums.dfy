/** Sums of multisets over the records of a multiset. */
module BagSums {
  import opened RecordHeap

  ghost function BagSum<X(!new)>(f: Record -> multiset<X>, b: multiset<Record>): multiset<X>
    decreases |b|
  {
    if b == multiset{} then multiset{}
    else
      var r :| r in b;
      f(r) + BagSum(f, b - multiset{r})
  }

  /** Any record may be summed first. */
  lemma {:induction false} BagSumAt<X(!new)>(f: Record -> multiset<X>, b: multiset<Record>, x: Record)
    requires x in b
    ensures BagSum(f, b) == f(x) + BagSum(f, b - multiset{x})
    decreases |b|
  {
    var r :| r in b && BagSum(f, b) == f(r) + BagSum(f, b - multiset{r});
    if r != x {
      assert b - multiset{r} - multiset{x} == b - multiset{x} - multiset{r};
      BagSumAt(f, b - multiset{r}, x);
      BagSumAt(f, b - multiset{x}, r);
      hide BagSum;
    }
  }

  lemma BagSumEmpty<X(!new)>(f: Record -> multiset<X>)
    ensures BagSum(f, multiset{}) == multiset{}
  {
  }

  lemma BagSumSmall<X(!new)>(f: Record -> multiset<X>, r: Record)
    ensures BagSum(f, multiset{}) == multiset{} && BagSum(f, multiset{r}) == f(r)
  {
    BagSumAt(f, multiset{r}, r);
    assert multiset{r} - multiset{r} == multiset{};
  }

  lemma BagSumInsert<X(!new)>(f: Record -> multiset<X>, b: multiset<Record>, x: Record)
    ensures BagSum(f, b + multiset{x}) == BagSum(f, b) + f(x)
  {
    BagSumAt(f, b + multiset{x}, x);
    assert b + multiset{x} - multiset{x} == b;
  }

  lemma {:induction false} BagSumUnion<X(!new)>(f: Record -> multiset<X>, a: multiset<Record>, b: multiset<Record>)
    ensures BagSum(f, a + b) == BagSum(f, a) + BagSum(f, b)
    decreases |b|
  {
    hide BagSum;
    if b == multiset{} {
      assert a + b == a;
      BagSumEmpty(f);
    } else {
      var x :| x in b;
      var b' := b - multiset{x};
      BagSumUnion(f, a, b');
      BagSumAt(f, b, x);
      BagSumInsert(f, a + b', x);
      assert a + b == a + b' + multiset{x};
    }
  }

  /** Summing g over the sum of f is summing, record by record, g over f's share. */
  lemma {:induction false} BagSumFusion<X(!new)>(
    f: Record -> multiset<Record>, g: Record -> multiset<X>, e: Record -> multiset<X>, h: Record -> multiset<X>,
    b: multiset<Record>)
    requires forall r :: e(r) + BagSum(g, f(r)) == h(r)
    ensures BagSum(e, b) + BagSum(g, BagSum(f, b)) == BagSum(h, b)
    decreases |b|
  {
    if b != multiset{} {
      var x :| x in b;
      var b' := b - multiset{x};
      BagSumFusion(f, g, e, h, b');
      BagSumAt(e, b, x);
      BagSumAt(f, b, x);
      BagSumAt(h, b, x);
      BagSumUnion(g, f(x), BagSum(f, b'));
    }
  }
}
