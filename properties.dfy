/** What the operations do to whole lists, including the places where the source does not keep
    a list well-formed. */
module Properties {
  import opened Outcomes
  import opened Layout
  import opened Chains
  import opened Operations

  /** An operation confined to list `li` leaves every other well-formed list as it was. */
  lemma {:induction false} OtherListsUnchanged<V>(s: Store<V>, s': Store<V>, li: nat, touched: set<nat>, j: nat, ys: seq<nat>)
    requires OnlyTouches(s, s', li, touched) && j != li && Linked(s, j, ys)
    ensures Linked(s', j, ys)
  {
    forall m | 0 <= m < |ys| ensures SameLinkAt(s.holders, s'.holders, j, ys[m]) {
      var q := ys[m];
      assert Usable(s.holders, j, q);
      assert s'.holders[q].pointers[j] == s.holders[q].pointers[j];
    }
    LinkedFrame(s, s', j, ys);
  }

  /** Tail append of an element that is in no position of list `li` and whose `next` link for
      `li` is null: the list becomes the old list followed by the element. A stale `prev` link
      is harmless unless the list is empty, since appending to a non-empty list overwrites it. */
  lemma {:induction false} AttachAppends<V>(s: Store<V>, li: nat, k: nat, xs: seq<nat>)
    requires Shaped(s) && Linked(s, li, xs)
    requires LiveAt(s.holders, k) && k !in xs && s.holders[k].pointers[li].next == Null
    requires xs == [] ==> s.holders[k].pointers[li].prev == Null
    ensures Attach(s, li, k).Ok?
    ensures Linked(Attach(s, li, k).value, li, xs + [k])
  {
    if xs == [] {
      assert xs + [k] == [k];
    } else {
      var t := xs[|xs| - 1];
      assert Usable(s.holders, li, t);
      AppendLinks(s, Attach(s, li, k).value, li, k, xs);
    }
  }

  /** The pointer surgery of a tail append onto a non-empty list, stated on the fields. */
  lemma {:induction false} AppendLinks<V>(s: Store<V>, r: Store<V>, li: nat, k: nat, xs: seq<nat>)
    requires Shaped(s) && Linked(s, li, xs) && xs != [] && k !in xs && LiveAt(s.holders, k)
    requires var t := xs[|xs| - 1];
      && OnlyTouches(s, r, li, {k, t})
      && li < |r.lists| && r.lists[li] == ListPointers(s.lists[li].head, Slot(k))
      && li < |r.holders[t].pointers| && li < |r.holders[k].pointers|
      && r.holders[t].pointers[li] == Pointers(Slot(k), s.holders[t].pointers[li].prev)
      && r.holders[k].pointers[li] == Pointers(Null, Slot(t))
    ensures Linked(r, li, xs + [k])
  {
    var ys := xs + [k];
    var last := |xs| - 1;
    var t := xs[last];
    forall m | 0 <= m < |ys|
      ensures Usable(r.holders, li, ys[m])
      ensures r.holders[ys[m]].pointers[li] == Pointers(At(ys, m + 1), At(ys, m - 1))
    {
      if m < last {
        assert Usable(s.holders, li, xs[m]) && xs[m] != t && xs[m] != k;
      } else if m == last {
        assert Usable(s.holders, li, t);
        assert last > 0 ==> Usable(s.holders, li, xs[last - 1]);
      }
    }
    DistinctAppend(xs, k);
  }

  /** Appending a new element to a sequence without repetitions leaves one without repetitions. */
  lemma {:induction false} DistinctAppend(xs: seq<nat>, k: nat)
    requires Distinct(xs) && k !in xs
    ensures Distinct(xs + [k])
  {
    var ys := xs + [k];
    forall m, n | 0 <= m < n < |ys| ensures ys[m] != ys[n] {
      if n < |xs| { assert ys[m] == xs[m] && ys[n] == xs[n]; }
    }
  }

  /** Allocating a holder changes no list, and `push_back` then appends the new element:
      pushing `a`, `b`, `c` in turn onto a list gives the list `a`, `b`, `c`. */
  lemma {:induction false} PushBackAppends<V>(s: Store<V>, li: nat, value: V, xs: seq<nat>, j: nat, ys: seq<nat>)
    requires Shaped(s) && Linked(s, li, xs) && Linked(s, j, ys) && j != li
    ensures Attach(Allocate(s, value), li, |s.holders|).Ok?
    ensures var r := Attach(Allocate(s, value), li, |s.holders|).value;
      && Linked(r, li, xs + [|s.holders|])
      && Linked(r, j, ys)
      && r.holders[|s.holders|].value == value
  {
    var a := Allocate(s, value);
    var k := |s.holders|;
    forall m | 0 <= m < |xs| ensures SameLinkAt(s.holders, a.holders, li, xs[m]) {
      assert Usable(s.holders, li, xs[m]) && a.holders[xs[m]] == s.holders[xs[m]];
    }
    LinkedFrame(s, a, li, xs);
    forall m | 0 <= m < |ys| ensures SameLinkAt(s.holders, a.holders, j, ys[m]) {
      assert Usable(s.holders, j, ys[m]) && a.holders[ys[m]] == s.holders[ys[m]];
    }
    LinkedFrame(s, a, j, ys);
    assert k !in xs by {
      forall m | 0 <= m < |xs| ensures xs[m] != k { assert Usable(s.holders, li, xs[m]); }
    }
    AttachAppends(a, li, k, xs);
    var r := Attach(a, li, k).value;
    assert OnlyTouches(a, r, li, {k, if a.lists[li].tail.Slot? then a.lists[li].tail.index else k});
    OtherListsUnchanged(a, r, li, {k, if a.lists[li].tail.Slot? then a.lists[li].tail.index else k}, j, ys);
  }

  /** Removing an element that has a successor keeps the list well-formed: it becomes the old
      list without that element. The element's own link pair is left as it was, so
      `is_in_list` still reports it as a member. */
  lemma {:induction false} DetachWithSuccessor<V>(s: Store<V>, li: nat, xs: seq<nat>, m: nat)
    requires Shaped(s) && Linked(s, li, xs) && m + 1 < |xs|
    ensures Detach(s, li, xs[m]).Ok?
    ensures var r := Detach(s, li, xs[m]).value;
      && Linked(r, li, xs[..m] + xs[m + 1..])
      && r.holders[xs[m]] == s.holders[xs[m]]
      && IsInList(r.holders[xs[m]], li)
  {
    LinkedIffPaired(s, li, xs);
    var k := xs[m];
    assert Usable(s.holders, li, k) && Usable(s.holders, li, xs[m + 1]);
    assert m > 0 ==> Usable(s.holders, li, xs[m - 1]);
    assert m + 2 < |xs| ==> Usable(s.holders, li, xs[m + 2]);
    assert m > 1 ==> Usable(s.holders, li, xs[m - 2]);
    var pr := s.holders[k].pointers[li];
    assert pr.prev != pr.next by {
      assert m > 0 ==> xs[m - 1] != xs[m + 1];
    }
    var r := Detach(s, li, k).value;
    UnlinkInterior(s, r, li, xs, m);
    var ys := xs[..m] + xs[m + 1..];
    assert |ys| == |xs| - 1 && ys[0] == (if m == 0 then xs[1] else xs[0]) && ys[|ys| - 1] == xs[|xs| - 1];
    LinkedIffPaired(r, li, ys);
  }

  /** The pointer surgery of removing position `m`, which has a successor, stated on the fields. */
  lemma {:induction false} UnlinkInterior<V>(s: Store<V>, r: Store<V>, li: nat, xs: seq<nat>, m: nat)
    requires Shaped(s) && li < |s.lists| && Paired(s.holders, li, xs) && Distinct(xs) && m + 1 < |xs|
    requires var n := xs[m + 1];
      && OnlyTouches(s, r, li, if m > 0 then {n, xs[m - 1]} else {n})
      && li < |r.holders[n].pointers|
      && r.holders[n].pointers[li] == Pointers(At(xs, m + 2), At(xs, m - 1))
      && (m > 0 ==>
            li < |r.holders[xs[m - 1]].pointers| &&
            r.holders[xs[m - 1]].pointers[li] == Pointers(Slot(n), At(xs, m - 2)))
    ensures Paired(r.holders, li, xs[..m] + xs[m + 1..]) && Distinct(xs[..m] + xs[m + 1..])
  {
    var ys := xs[..m] + xs[m + 1..];
    assert |ys| == |xs| - 1;
    forall j | 0 <= j < |ys|
      ensures Usable(r.holders, li, ys[j])
      ensures r.holders[ys[j]].pointers[li] == Pointers(At(ys, j + 1), At(ys, j - 1))
    {
      var i := if j < m then j else j + 1;
      assert ys[j] == xs[i];
      UnlinkInteriorAt(s, r, li, xs, m, i);
      assert At(ys, j + 1) == (if j + 1 < m then At(xs, j + 1) else At(xs, j + 2));
      assert At(ys, j - 1) == (if j - 1 < m then At(xs, j - 1) else At(xs, j));
    }
    DistinctWithout(xs, m);
  }

  /** One position of `UnlinkInterior`: slot `xs[j]` (for `j` other than `m`) links to the
      positions before and after it once position `m` is skipped. */
  lemma {:induction false} UnlinkInteriorAt<V>(s: Store<V>, r: Store<V>, li: nat, xs: seq<nat>, m: nat, j: nat)
    requires Shaped(s) && li < |s.lists| && Paired(s.holders, li, xs) && Distinct(xs)
    requires m + 1 < |xs| && j < |xs| && j != m
    requires var n := xs[m + 1];
      && OnlyTouches(s, r, li, if m > 0 then {n, xs[m - 1]} else {n})
      && li < |r.holders[n].pointers|
      && r.holders[n].pointers[li] == Pointers(At(xs, m + 2), At(xs, m - 1))
      && (m > 0 ==>
            li < |r.holders[xs[m - 1]].pointers| &&
            r.holders[xs[m - 1]].pointers[li] == Pointers(Slot(n), At(xs, m - 2)))
    ensures Usable(r.holders, li, xs[j])
    ensures r.holders[xs[j]].pointers[li] ==
      Pointers(if j + 1 == m then At(xs, m + 1) else At(xs, j + 1),
               if j == m + 1 then At(xs, m - 1) else At(xs, j - 1))
  {
    var q := xs[j];
    assert Usable(s.holders, li, q);
    if j + 1 != m && j != m + 1 {
      assert q != xs[m + 1] && (m > 0 ==> q != xs[m - 1]);
      assert r.holders[q].pointers[li] == s.holders[q].pointers[li];
    }
  }

  /** Dropping one position of a sequence without repetitions leaves one without repetitions. */
  lemma {:induction false} DistinctWithout(xs: seq<nat>, m: nat)
    requires Distinct(xs) && m < |xs|
    ensures Distinct(xs[..m] + xs[m + 1..])
  {
    var ys := xs[..m] + xs[m + 1..];
    forall a, b | 0 <= a < b < |ys| ensures ys[a] != ys[b] {
      assert ys[a] == (if a < m then xs[a] else xs[a + 1]);
      assert ys[b] == (if b < m then xs[b] else xs[b + 1]);
    }
  }

  /** Removing the sole member works: the list becomes empty. */
  lemma {:induction false} DetachSoleMember<V>(s: Store<V>, li: nat, k: nat)
    requires Shaped(s) && Linked(s, li, [k])
    ensures Detach(s, li, k).Ok? && Linked(Detach(s, li, k).value, li, [])
  {
    assert Usable(s.holders, li, [k][0]);
  }

  /** Removing the tail of a list of two or more elements: the chain from the head is the old
      list minus its last element, but the tail pointer becomes null instead of the
      predecessor, so the head is non-null while the tail is null and the list is no longer
      well-formed for any contents. */
  lemma {:induction false} DetachTailLosesTail<V>(s: Store<V>, li: nat, xs: seq<nat>)
    requires Shaped(s) && Linked(s, li, xs) && |xs| >= 2
    ensures Detach(s, li, xs[|xs| - 1]).Ok?
    ensures var r := Detach(s, li, xs[|xs| - 1]).value;
      && r.lists[li] == ListPointers(Slot(xs[0]), Null)
      && Chain(r.holders, li, r.lists[li].head, xs[..|xs| - 1])
      && forall ys :: !Linked(r, li, ys)
  {
    var last := |xs| - 1;
    var k := xs[last];
    assert Usable(s.holders, li, k) && Usable(s.holders, li, xs[last - 1]) && Usable(s.holders, li, xs[0]);
    var r := Detach(s, li, k).value;
    assert Targets(s.holders[k].pointers[li]) == {xs[last - 1]};
    CutTail(s, r, li, xs);
    HeadWithoutTail(r, li);
  }

  /** The pointer surgery of removing the last of two or more elements, stated on the fields. */
  lemma {:induction false} CutTail<V>(s: Store<V>, r: Store<V>, li: nat, xs: seq<nat>)
    requires Shaped(s) && Linked(s, li, xs) && |xs| >= 2
    requires OnlyTouches(s, r, li, {xs[|xs| - 2]})
    requires li < |r.holders[xs[|xs| - 2]].pointers| && r.holders[xs[|xs| - 2]].pointers[li].next == Null
    ensures Chain(r.holders, li, Slot(xs[0]), xs[..|xs| - 1])
  {
    var zs := xs[..|xs| - 1];
    assert Distinct(xs);
    forall j | 0 <= j < |zs|
      ensures Usable(r.holders, li, zs[j]) && r.holders[zs[j]].pointers[li].next == At(zs, j + 1)
    {
      assert Usable(s.holders, li, xs[j]);
    }
  }

  /** A list whose head is non-null and whose tail is null is not well-formed, whatever its
      contents. */
  lemma {:induction false} HeadWithoutTail<V>(s: Store<V>, li: nat)
    requires li < |s.lists| && s.lists[li].head.Slot? && s.lists[li].tail == Null
    ensures forall ys :: !Linked(s, li, ys)
  {
  }

  /** `is_in_list` is false for the sole member of a list, whereas it is true for every member
      of a longer list. */
  lemma {:induction false} IsInListMissesSoleMember<V>(s: Store<V>, li: nat, xs: seq<nat>)
    requires Shaped(s) && Linked(s, li, xs) && xs != []
    ensures |xs| == 1 ==> !IsInList(s.holders[xs[0]], li)
    ensures |xs| >= 2 ==> forall m | 0 <= m < |xs| :: IsInList(s.holders[xs[m]], li)
  {
    assert Usable(s.holders, li, xs[0]);
    if |xs| >= 2 {
      forall m | 0 <= m < |xs| ensures IsInList(s.holders[xs[m]], li) {
        assert Usable(s.holders, li, xs[m]);
      }
    }
  }

  /** Attaching the tail of list `li` to `li` again passes the `next` check, makes the tail its
      own successor, and leaves no finite chain from the head: iterating never ends. */
  lemma {:induction false} AttachTailAgainLoops<V>(s: Store<V>, li: nat, xs: seq<nat>)
    requires Shaped(s) && Linked(s, li, xs) && xs != []
    ensures Attach(s, li, xs[|xs| - 1]).Ok?
    ensures var r := Attach(s, li, xs[|xs| - 1]).value;
      && r.holders[xs[|xs| - 1]].pointers[li].next == Slot(xs[|xs| - 1])
      && forall ys :: !Chain(r.holders, li, r.lists[li].head, ys)
  {
    var k := xs[|xs| - 1];
    assert Usable(s.holders, li, k);
    var r := Attach(s, li, k).value;
    assert OnlyTouches(s, r, li, {k});
    LoopAtTail(s, r, li, xs);
  }

  /** The walk from the head of `r` repeats the path `xs`, whose last slot now points to itself. */
  lemma {:induction false} LoopAtTail<V>(s: Store<V>, r: Store<V>, li: nat, xs: seq<nat>)
    requires Shaped(s) && Linked(s, li, xs) && xs != []
    requires OnlyTouches(s, r, li, {xs[|xs| - 1]}) && li < |r.lists| && r.lists[li].head == s.lists[li].head
    requires li < |r.holders[xs[|xs| - 1]].pointers|
    requires r.holders[xs[|xs| - 1]].pointers[li].next == Slot(xs[|xs| - 1])
    ensures forall ys :: !Chain(r.holders, li, r.lists[li].head, ys)
  {
    var hs := r.holders;
    forall n | 0 <= n < |xs|
      ensures Usable(hs, li, xs[n])
      ensures hs[xs[n]].pointers[li].next == (if n < |xs| - 1 then At(xs, n + 1) else Slot(xs[n]))
    {
      assert Usable(s.holders, li, xs[n]);
    }
    forall ys | Chain(hs, li, r.lists[li].head, ys) ensures false {
      WalkReachesSelfLoop(hs, li, xs, ys, 0);
    }
  }

  /** A chain that starts along the path `xs` and so reaches its last slot, which is its own
      successor, cannot exist. */
  lemma {:induction false} WalkReachesSelfLoop<V>(hs: seq<Holder<V>>, li: nat, xs: seq<nat>, ys: seq<nat>, m: nat)
    requires xs != [] && m < |xs|
    requires forall n | 0 <= n < |xs| ::
      && Usable(hs, li, xs[n])
      && hs[xs[n]].pointers[li].next == (if n < |xs| - 1 then At(xs, n + 1) else Slot(xs[n]))
    requires Chain(hs, li, Slot(xs[0]), ys)
    requires At(ys, m) == Slot(xs[m])
    ensures false
    decreases |xs| - m
  {
    assert m < |ys| && ys[m] == xs[m];
    if m < |xs| - 1 {
      assert Usable(hs, li, xs[m]) && At(ys, m + 1) == hs[xs[m]].pointers[li].next;
      WalkReachesSelfLoop(hs, li, xs, ys, m + 1);
    } else {
      assert hs[xs[m]].pointers[li].next == Slot(xs[m]);
      SelfLoopNeverEnds(hs, li, xs[m], ys, m);
    }
  }

  /** Once a chain is at a slot that is its own successor, it stays there forever. */
  lemma {:induction false} SelfLoopNeverEnds<V>(hs: seq<Holder<V>>, li: nat, k: nat, ys: seq<nat>, m: nat)
    requires m < |ys| && ys[m] == k && Usable(hs, li, k)
    requires hs[k].pointers[li].next == Slot(k)
    requires forall n | 0 <= n < |ys| :: Usable(hs, li, ys[n]) && hs[ys[n]].pointers[li].next == At(ys, n + 1)
    ensures false
    decreases |ys| - m
  {
    assert At(ys, m + 1) == Slot(k);
    SelfLoopNeverEnds(hs, li, k, ys, m + 1);
  }

  /** With no list membership visible through `is_in_list`, the loop of `pop_back` does
      nothing. */
  lemma {:induction false} DetachAllSkipsNonMembers<V>(s: Store<V>, k: nat, i: nat)
    requires Shaped(s) && k < |s.holders| && i <= |s.lists|
    requires forall j | i <= j < |s.lists| :: !IsInList(s.holders[k], j)
    ensures DetachAll(s, k, i) == Ok(s)
    decreases |s.lists| - i
  {
    if i < |s.lists| {
      DetachAllSkipsNonMembers(s, k, i + 1);
    }
  }

  /** Popping the sole member of a list that is in no other list frees it but leaves the head
      and tail naming the freed slot; the next pop of that list touches freed memory. */
  lemma {:induction false} PopSoleMemberDangles<V>(s: Store<V>, li: nat, k: nat)
    requires Shaped(s) && Linked(s, li, [k])
    requires forall j | 0 <= j < |s.lists| :: s.holders[k].pointers[j] == EmptyPair
    ensures Pop(s, li) == Ok(Popped(Store(s.lists, Free(s.holders, k)), Some(s.holders[k].value)))
    ensures Pop(Pop(s, li).value.store, li).Undefined?
  {
    assert Usable(s.holders, li, [k][0]);
    DetachAllSkipsNonMembers(s, k, 0);
  }

  /** Every list of a new multilist is the well-formed empty list. */
  lemma {:induction false} FreshListsEmpty<V>(n: nat, li: nat)
    requires li < n
    ensures Linked(Fresh<V>(n), li, [])
  {
  }

  /** On a well-formed list, `is_empty` (a null head) holds exactly when the list has no
      elements. */
  lemma {:induction false} EmptyIffNoMembers<V>(s: Store<V>, li: nat, xs: seq<nat>)
    requires Linked(s, li, xs)
    ensures s.lists[li].head == Null <==> xs == []
  {
  }

  /** `push_back` keeps the values in push order: iterating the list after pushing `value` gives
      the old values followed by `value`. */
  lemma {:induction false} PushBackValues<V>(s: Store<V>, li: nat, value: V, xs: seq<nat>)
    requires Shaped(s) && Linked(s, li, xs)
    ensures Attach(Allocate(s, value), li, |s.holders|).Ok?
    ensures var r := Attach(Allocate(s, value), li, |s.holders|).value;
      && Chain(r.holders, li, r.lists[li].head, xs + [|s.holders|])
      && ValuesOf(r.holders, xs + [|s.holders|]) == ValuesOf(s.holders, xs) + [value]
  {
    var a := Allocate(s, value);
    var k := |s.holders|;
    forall m | 0 <= m < |xs| ensures SameLinkAt(s.holders, a.holders, li, xs[m]) {
      assert Usable(s.holders, li, xs[m]) && a.holders[xs[m]] == s.holders[xs[m]];
    }
    LinkedFrame(s, a, li, xs);
    assert k !in xs by {
      forall m | 0 <= m < |xs| ensures xs[m] != k { assert Usable(s.holders, li, xs[m]); }
    }
    AttachAppends(a, li, k, xs);
    var r := Attach(a, li, k).value;
    var ys := xs + [k];
    forall m | 0 <= m < |ys| ensures r.holders[ys[m]].value == (ValuesOf(s.holders, xs) + [value])[m] {
      if m < |xs| {
        assert Usable(s.holders, li, xs[m]);
      }
    }
  }

  /** `pop_back(li)` of an element that also sits, with a successor, in a well-formed list `j`:
      the pop returns its value and list `j` becomes the old list without it. */
  lemma {:induction false} PopUnlinksWithSuccessor<V>(s: Store<V>, li: nat, j: nat, xs: seq<nat>, m: nat)
    requires Shaped(s) && li < |s.lists| && Linked(s, j, xs) && m + 1 < |xs|
    requires s.lists[li].tail == Slot(xs[m]) && Pop(s, li).Ok?
    ensures Pop(s, li).value.value == Some(s.holders[xs[m]].value)
    ensures Linked(Pop(s, li).value.store, j, xs[..m] + xs[m + 1..])
  {
    var k := xs[m];
    assert Usable(s.holders, j, k) && Distinct(xs);
    DetachWithSuccessor(s, j, xs, m);
    var d := Detach(s, j, k).value;
    var t := Pop(s, li).value.store;
    var ys := xs[..m] + xs[m + 1..];
    assert IsInList(s.holders[k], j);
    assert k !in ys by {
      forall n | 0 <= n < |ys| ensures ys[n] != k {
        assert ys[n] == (if n < m then xs[n] else xs[n + 1]);
      }
    }
    ListFollows(d, t, j, ys, k);
  }

  /** A well-formed list stays well-formed in a store that agrees with it on that list and on
      the liveness of every slot but one that is not in the list. */
  lemma {:induction false} ListFollows<V>(d: Store<V>, t: Store<V>, j: nat, ys: seq<nat>, k: nat)
    requires Linked(d, j, ys) && SameList(t, d, j) && k !in ys
    requires forall q | 0 <= q < |d.holders| && q != k :: t.holders[q].live == d.holders[q].live
    ensures Linked(t, j, ys)
  {
    forall n | 0 <= n < |ys| ensures SameLinkAt(d.holders, t.holders, j, ys[n]) {
      assert Usable(d.holders, j, ys[n]);
      assert d.holders[ys[n]].pointers[j] == t.holders[ys[n]].pointers[j];
    }
    LinkedFrame(d, t, j, ys);
  }
}
