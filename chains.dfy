/** The abstract view of one list: the sequence of slots met by walking `next` links from the
    head. `Chain` is what the iterator walks; `Linked` adds what a well-formed doubly-linked
    list also keeps (the tail, the `prev` links, no element twice). */
module Chains {
  import opened Layout

  /** Position `m` of `xs` as a pointer; null outside the sequence. */
  function At(xs: seq<nat>, m: int): (p: Ptr)
    ensures p.Slot? <==> 0 <= m < |xs|
  {
    if 0 <= m < |xs| then Slot(xs[m]) else Null
  }

  /** Slot `k` is a live holder that has a link pair for list `li`. */
  predicate Usable<V>(hs: seq<Holder<V>>, li: nat, k: nat) {
    LiveAt(hs, k) && li < |hs[k].pointers|
  }

  /** Walking the `next` links of list `li` from `from` visits exactly `xs` and then reaches null. */
  ghost predicate Chain<V>(hs: seq<Holder<V>>, li: nat, from: Ptr, xs: seq<nat>) {
    && from == At(xs, 0)
    && (forall m | 0 <= m < |xs| :: xs[m] < |hs|)
    && forall m {:trigger hs[xs[m]]} | 0 <= m < |xs| :: Usable(hs, li, xs[m]) && hs[xs[m]].pointers[li].next == At(xs, m + 1)
  }

  ghost predicate Distinct(xs: seq<nat>) {
    forall m, n | 0 <= m < n < |xs| :: xs[m] != xs[n]
  }

  /** List `li` of `s` is a well-formed doubly-linked list holding `xs` in order. */
  ghost predicate Linked<V>(s: Store<V>, li: nat, xs: seq<nat>) {
    && li < |s.lists|
    && Chain(s.holders, li, s.lists[li].head, xs)
    && s.lists[li].tail == At(xs, |xs| - 1)
    && (forall m {:trigger s.holders[xs[m]]} | 0 <= m < |xs| :: Usable(s.holders, li, xs[m]) && s.holders[xs[m]].pointers[li].prev == At(xs, m - 1))
    && Distinct(xs)
  }

  /** Each slot of `xs` is usable and linked to its neighbours in `xs` in both directions. */
  ghost predicate Paired<V>(hs: seq<Holder<V>>, li: nat, xs: seq<nat>) {
    && (forall m | 0 <= m < |xs| :: xs[m] < |hs|)
    && forall m {:trigger hs[xs[m]]} | 0 <= m < |xs| ::
         Usable(hs, li, xs[m]) && hs[xs[m]].pointers[li] == Pointers(At(xs, m + 1), At(xs, m - 1))
  }

  /** A list is well-formed exactly when its table entry names the ends of `xs`, every slot
      of `xs` links to its neighbours, and no slot occurs twice. */
  lemma {:induction false} LinkedIffPaired<V>(s: Store<V>, li: nat, xs: seq<nat>)
    requires li < |s.lists|
    ensures Linked(s, li, xs) <==>
      && s.lists[li] == ListPointers(At(xs, 0), At(xs, |xs| - 1))
      && Paired(s.holders, li, xs)
      && Distinct(xs)
  {
    var hs := s.holders;
    if Linked(s, li, xs) {
      forall m | 0 <= m < |xs|
        ensures Usable(hs, li, xs[m]) && hs[xs[m]].pointers[li] == Pointers(At(xs, m + 1), At(xs, m - 1))
      {
        assert Usable(hs, li, xs[m]);
      }
    }
    if Paired(hs, li, xs) && s.lists[li] == ListPointers(At(xs, 0), At(xs, |xs| - 1)) && Distinct(xs) {
      forall m | 0 <= m < |xs|
        ensures xs[m] < |hs|
        ensures Usable(hs, li, xs[m]) && hs[xs[m]].pointers[li].next == At(xs, m + 1)
        ensures hs[xs[m]].pointers[li].prev == At(xs, m - 1)
      {
        assert Usable(hs, li, xs[m]);
      }
      assert Chain(hs, li, s.lists[li].head, xs);
    }
  }

  /** The values stored at the slots `xs`, in order. */
  function ValuesOf<V>(hs: seq<Holder<V>>, xs: seq<nat>): (vs: seq<V>)
    requires forall m | 0 <= m < |xs| :: xs[m] < |hs|
    ensures |vs| == |xs| && forall m | 0 <= m < |xs| :: vs[m] == hs[xs[m]].value
  {
    seq(|xs|, m requires 0 <= m < |xs| => hs[xs[m]].value)
  }

  /** Two pools agree on list `li` at slot `k`: same liveness and same link pair. */
  ghost predicate SameLinkAt<V>(hs: seq<Holder<V>>, hs': seq<Holder<V>>, li: nat, k: nat) {
    k < |hs| ==>
      k < |hs'| && hs'[k].live == hs[k].live &&
      (li < |hs[k].pointers| ==> li < |hs'[k].pointers| && hs'[k].pointers[li] == hs[k].pointers[li])
  }

  /** A chain depends only on the holders it visits. */
  lemma {:induction false} ChainFrame<V>(hs: seq<Holder<V>>, hs': seq<Holder<V>>, li: nat, from: Ptr, xs: seq<nat>)
    requires Chain(hs, li, from, xs)
    requires forall m | 0 <= m < |xs| :: SameLinkAt(hs, hs', li, xs[m])
    ensures Chain(hs', li, from, xs)
  {
    forall m | 0 <= m < |xs|
      ensures Usable(hs', li, xs[m]) && hs'[xs[m]].pointers[li].next == At(xs, m + 1)
    {
      assert SameLinkAt(hs, hs', li, xs[m]);
    }
  }

  /** A well-formed list depends only on its table entry and the holders it visits. */
  lemma {:induction false} LinkedFrame<V>(s: Store<V>, s': Store<V>, li: nat, xs: seq<nat>)
    requires Linked(s, li, xs)
    requires li < |s'.lists| && s'.lists[li] == s.lists[li]
    requires forall m | 0 <= m < |xs| :: SameLinkAt(s.holders, s'.holders, li, xs[m])
    ensures Linked(s', li, xs)
  {
    ChainFrame(s.holders, s'.holders, li, s.lists[li].head, xs);
    forall m | 0 <= m < |xs|
      ensures Usable(s'.holders, li, xs[m]) && s'.holders[xs[m]].pointers[li].prev == At(xs, m - 1)
    {
      assert SameLinkAt(s.holders, s'.holders, li, xs[m]);
    }
  }

  /** One step of the walk: a non-empty chain starts at a live slot whose `next` link
      begins the rest of the chain; the empty chain starts at null. */
  lemma {:induction false} ChainStep<V>(hs: seq<Holder<V>>, li: nat, from: Ptr, xs: seq<nat>)
    requires Chain(hs, li, from, xs)
    ensures from == Null <==> xs == []
    ensures from.Slot? ==>
              && Usable(hs, li, from.index) && from.index == xs[0]
              && Chain(hs, li, hs[from.index].pointers[li].next, xs[1..])
  {
    if from.Slot? {
      var rest := xs[1..];
      forall m | 0 <= m < |rest|
        ensures Usable(hs, li, rest[m]) && hs[rest[m]].pointers[li].next == At(rest, m + 1)
      {
        assert rest[m] == xs[m + 1];
      }
    }
  }

  /** The chain from a pointer is unique: walking is deterministic. */
  lemma {:induction false} ChainUnique<V>(hs: seq<Holder<V>>, li: nat, from: Ptr, xs: seq<nat>, ys: seq<nat>)
    requires Chain(hs, li, from, xs) && Chain(hs, li, from, ys)
    ensures xs == ys
    decreases |xs|
  {
    ChainStep(hs, li, from, xs);
    ChainStep(hs, li, from, ys);
    if from.Slot? {
      ChainUnique(hs, li, hs[from.index].pointers[li].next, xs[1..], ys[1..]);
      assert xs == [xs[0]] + xs[1..];
      assert ys == [ys[0]] + ys[1..];
    }
  }
}
