/** Reading a sequence element by element. */
module Collections {
  /** What `f` finds in each element, one after the other. */
  function Collect<A, B>(xs: seq<A>, f: A -> seq<B>): seq<B> {
    if xs == [] then [] else Collect(xs[..|xs| - 1], f) + f(xs[|xs| - 1])
  }

  lemma CollectSnoc<A, B>(xs: seq<A>, x: A, f: A -> seq<B>)
    ensures Collect(xs + [x], f) == Collect(xs, f) + f(x)
  {
    assert (xs + [x])[..|xs|] == xs;
  }

  lemma CollectNone<A, B>(f: A -> seq<B>)
    ensures Collect([], f) == []
  {
  }

  lemma {:induction false} CollectConcat<A, B>(xs: seq<A>, ys: seq<A>, f: A -> seq<B>)
    ensures Collect(xs + ys, f) == Collect(xs, f) + Collect(ys, f)
  {
    hide Collect;
    if ys == [] {
      CollectNone(f);
      assert xs + ys == xs && Collect(xs, f) + [] == Collect(xs, f);
    } else {
      var init, y := ys[..|ys| - 1], ys[|ys| - 1];
      CollectConcat(xs, init, f);
      CollectSnoc(xs + init, y, f);
      CollectSnoc(init, y, f);
      assert xs + ys == xs + init + [y] && ys == init + [y];
      assert Collect(xs, f) + Collect(init, f) + f(y) == Collect(xs, f) + (Collect(init, f) + f(y));
    }
  }

  lemma CollectOne<A, B>(x: A, f: A -> seq<B>)
    ensures Collect([x], f) == f(x)
  {
    CollectSnoc([], x, f);
    assert [] + [x] == [x] && [] + f(x) == f(x);
  }

  lemma {:induction false} SilentCollect<A, B>(xs: seq<A>, f: A -> seq<B>)
    requires forall x | x in xs :: f(x) == []
    ensures Collect(xs, f) == []
  {
    if xs != [] {
      var init := xs[..|xs| - 1];
      assert forall x | x in init :: x in xs;
      assert xs[|xs| - 1] in xs;
      SilentCollect(init, f);
    }
  }
}
