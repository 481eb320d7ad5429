/** What each operation of `Multilist` does to the whole state, as functions of the old state.
    The class in multilist.dfy performs the same pointer surgery step by step and is proved to
    end in exactly these states. */
module Operations {
  import opened Outcomes
  import opened Layout

  /** Nothing changed outside list `li`, and inside list `li` only the link pairs of the slots
      in `touched` and the table entry may differ. Values and liveness never change. */
  ghost predicate OnlyTouches<V>(s: Store<V>, s': Store<V>, li: nat, touched: set<nat>) {
    && |s'.lists| == |s.lists| && |s'.holders| == |s.holders|
    && (forall j | 0 <= j < |s.lists| && j != li :: s'.lists[j] == s.lists[j])
    && (forall q | 0 <= q < |s.holders| ::
          && s'.holders[q].value == s.holders[q].value
          && s'.holders[q].live == s.holders[q].live
          && |s'.holders[q].pointers| == |s.holders[q].pointers|)
    && (forall q, j | 0 <= q < |s.holders| && 0 <= j < |s.holders[q].pointers| && (j != li || q !in touched) ::
          s'.holders[q].pointers[j] == s.holders[q].pointers[j])
  }

  /** The slots a link pair points at. */
  function Targets(pr: Pointers): set<nat> {
    (if pr.next.Slot? then {pr.next.index} else {}) + (if pr.prev.Slot? then {pr.prev.index} else {})
  }

  /** `push_back_existing(li, element)` once the element is known to belong to this
      multilist (lib.rs:81-91). Only `next` is checked; the `prev` check is a debug assertion. */
  function Attach<V>(s: Store<V>, li: nat, k: nat): (r: Outcome<Store<V>>)
    requires Shaped(s) && li < |s.lists|
    ensures r.Panic? <==> LiveAt(s.holders, k) && s.holders[k].pointers[li].next != Null
    ensures r.Ok? <==>
      && LiveAt(s.holders, k) && s.holders[k].pointers[li].next == Null
      && (s.lists[li].tail == Null || Live(s.holders, s.lists[li].tail))
    ensures r.Ok? ==>
      var t := s.lists[li].tail;
      && Shaped(r.value) && |r.value.lists| == |s.lists| && |r.value.holders| == |s.holders|
      && r.value.lists[li].tail == Slot(k)
      && (t == Null ==>
            && r.value.lists[li].head == Slot(k) && r.value.holders == s.holders
            && OnlyTouches(s, r.value, li, {}))
      && (t.Slot? ==>
            && r.value.lists[li].head == s.lists[li].head
            && (t.index != k ==>
                  && r.value.holders[t.index].pointers[li] == Pointers(Slot(k), s.holders[t.index].pointers[li].prev)
                  && r.value.holders[k].pointers[li] == Pointers(Null, t))
            && (t.index == k ==> r.value.holders[k].pointers[li] == Pointers(Slot(k), Slot(k)))
            && OnlyTouches(s, r.value, li, {k, t.index}))
  {
    if !LiveAt(s.holders, k) then Undefined
    else if s.holders[k].pointers[li].next != Null then Panic
    else
      var lp := s.lists[li];
      if lp.tail == Null then
        Ok(s.(lists := s.lists[li := ListPointers(Slot(k), Slot(k))]))
      else if !Live(s.holders, lp.tail) then Undefined
      else
        var hs := SetPrev(SetNext(s.holders, lp.tail.index, li, Slot(k)), k, li, lp.tail);
        Ok(Store(s.lists[li := ListPointers(lp.head, Slot(k))], hs))
  }

  /** `remove_existing(li, element)` once the element is known to belong to this multilist
      (lib.rs:103-117). With no successor the element must be the tail, and the tail becomes
      null; the element's own link pairs are never cleared. */
  function Detach<V>(s: Store<V>, li: nat, k: nat): (r: Outcome<Store<V>>)
    requires Shaped(s) && li < |s.lists|
    ensures r.Panic? <==>
      LiveAt(s.holders, k) && s.holders[k].pointers[li].next == Null && s.lists[li].tail != Slot(k)
    ensures r.Ok? <==>
      && LiveAt(s.holders, k)
      && var pr := s.holders[k].pointers[li];
         && (pr.next == Null ==> s.lists[li].tail == Slot(k))
         && (pr.next == Null || Live(s.holders, pr.next))
         && (pr.prev == Null || Live(s.holders, pr.prev))
    ensures r.Ok? ==>
      var pr := s.holders[k].pointers[li];
      && Shaped(r.value) && |r.value.lists| == |s.lists| && |r.value.holders| == |s.holders|
      && r.value.lists[li].tail == (if pr.next == Null then Null else s.lists[li].tail)
      && r.value.lists[li].head == (if pr.prev == Null then pr.next else s.lists[li].head)
      && (pr.next.Slot? ==>
            var n := pr.next.index;
            r.value.holders[n].pointers[li] ==
              Pointers(if pr.prev == pr.next then pr.next else s.holders[n].pointers[li].next, pr.prev))
      && (pr.prev.Slot? ==>
            var p := pr.prev.index;
            r.value.holders[p].pointers[li] ==
              Pointers(pr.next, if pr.prev == pr.next then pr.prev else s.holders[p].pointers[li].prev))
      && r.value.holders[k] == s.holders[k]
      && OnlyTouches(s, r.value, li, Targets(pr))
  {
    if !LiveAt(s.holders, k) then Undefined
    else
      var pr := s.holders[k].pointers[li];
      var lp := s.lists[li];
      if pr.next == Null && lp.tail != Slot(k) then Panic
      else if pr.next != Null && !Live(s.holders, pr.next) then Undefined
      else if pr.prev != Null && !Live(s.holders, pr.prev) then Undefined
      else
        var hs1 := if pr.next == Null then s.holders else SetPrev(s.holders, pr.next.index, li, pr.prev);
        var tail := if pr.next == Null then Null else lp.tail;
        var hs2 := if pr.prev == Null then hs1 else SetNext(hs1, pr.prev.index, li, pr.next);
        var head := if pr.prev == Null then pr.next else lp.head;
        Ok(Store(s.lists[li := ListPointers(head, tail)], hs2))
  }

  /** `s` and `t` agree on list `j`: the same table entry and, at every slot, the same link
      pair for `j`. */
  ghost predicate SameList<V>(s: Store<V>, t: Store<V>, j: nat) {
    && j < |s.lists| && j < |t.lists| && |s.holders| == |t.holders|
    && s.lists[j] == t.lists[j]
    && forall q | 0 <= q < |s.holders| ::
         j < |s.holders[q].pointers| && j < |t.holders[q].pointers| &&
         s.holders[q].pointers[j] == t.holders[q].pointers[j]
  }

  lemma {:induction false} SameListTrans<V>(s: Store<V>, t: Store<V>, u: Store<V>, j: nat)
    requires SameList(s, t, j) && SameList(t, u, j)
    ensures SameList(s, u, j)
  {
    forall q | 0 <= q < |s.holders|
      ensures j < |s.holders[q].pointers| && j < |u.holders[q].pointers|
      ensures s.holders[q].pointers[j] == u.holders[q].pointers[j]
    {
      assert t.holders[q].pointers[j] == u.holders[q].pointers[j];
    }
  }

  /** Removal from list `j` reads only list `j` and liveness, and writes only list `j`. */
  lemma {:induction false} DetachLocal<V>(s: Store<V>, t: Store<V>, j: nat, k: nat)
    requires Shaped(s) && Shaped(t) && SameList(s, t, j)
    requires forall q | 0 <= q < |s.holders| :: s.holders[q].live == t.holders[q].live
    ensures Detach(s, j, k).Ok? <==> Detach(t, j, k).Ok?
    ensures Detach(s, j, k).Ok? ==> SameList(Detach(s, j, k).value, Detach(t, j, k).value, j)
  {
    if LiveAt(s.holders, k) {
      var pr := s.holders[k].pointers[j];
      assert pr == t.holders[k].pointers[j];
      if pr.next.Slot? && pr.next.index < |s.holders| {
        assert s.holders[pr.next.index].pointers[j] == t.holders[pr.next.index].pointers[j];
      }
      if pr.prev.Slot? && pr.prev.index < |s.holders| {
        assert s.holders[pr.prev.index].pointers[j] == t.holders[pr.prev.index].pointers[j];
      }
      if Detach(s, j, k).Ok? {
        var rs := Detach(s, j, k).value;
        var rt := Detach(t, j, k).value;
        forall q | 0 <= q < |s.holders|
          ensures j < |rs.holders[q].pointers| && j < |rt.holders[q].pointers|
          ensures rs.holders[q].pointers[j] == rt.holders[q].pointers[j]
        {
          assert s.holders[q].pointers[j] == t.holders[q].pointers[j];
        }
      }
    }
  }

  /** The loop of `pop_back` (lib.rs:134-138): for lists `i`, `i + 1`, ... in turn, detach the
      element from each list where `is_in_list` holds, stopping at the first failure. What it
      does to each list is stated by `DetachAllEffect`. */
  function DetachAll<V>(s: Store<V>, k: nat, i: nat): (r: Outcome<Store<V>>)
    requires Shaped(s) && k < |s.holders| && i <= |s.lists|
    ensures r.Ok? ==>
      && Shaped(r.value)
      && |r.value.lists| == |s.lists| && |r.value.holders| == |s.holders|
      && r.value.holders[k] == s.holders[k]
      && (forall q | 0 <= q < |s.holders| ::
            r.value.holders[q].value == s.holders[q].value && r.value.holders[q].live == s.holders[q].live)
      && (forall j | 0 <= j < |s.lists| :: r.value.lists[j].tail in {Null, s.lists[j].tail})
      && (forall j | 0 <= j < |s.lists| && (j < i || !IsInList(s.holders[k], j)) :: r.value.lists[j] == s.lists[j])
    decreases |s.lists| - i
  {
    if i == |s.lists| then Ok(s)
    else if !IsInList(s.holders[k], i) then DetachAll(s, k, i + 1)
    else
      match Detach(s, i, k)
      case Ok(s') => DetachAll(s', k, i + 1)
      case Panic => Panic
      case Undefined => Undefined
  }

  /** What a successful removal loop does to list `j`: when `j` was still to be visited and
      `is_in_list` holds there, the removal from `j` succeeds on its own and list `j` ends as
      it leaves it; otherwise list `j`, table entry and link pairs alike, is untouched. */
  lemma {:induction false} DetachAllAt<V>(s: Store<V>, k: nat, i: nat, j: nat)
    requires Shaped(s) && k < |s.holders| && i <= |s.lists| && j < |s.lists|
    requires DetachAll(s, k, i).Ok?
    ensures i <= j && IsInList(s.holders[k], j) ==>
      Detach(s, j, k).Ok? && SameList(DetachAll(s, k, i).value, Detach(s, j, k).value, j)
    ensures !(i <= j && IsInList(s.holders[k], j)) ==> SameList(DetachAll(s, k, i).value, s, j)
    decreases |s.lists| - i
  {
    if i == |s.lists| {
      assert SameList(s, s, j);
    } else if !IsInList(s.holders[k], i) {
      DetachAllAt(s, k, i + 1, j);
    } else {
      var s' := Detach(s, i, k).value;
      var r := DetachAll(s', k, i + 1).value;
      DetachAllAt(s', k, i + 1, j);
      if j != i {
        SameListOutside(s, k, i, j);
        if i <= j && IsInList(s.holders[k], j) {
          DetachLocal(s', s, j, k);
          SameListTrans(r, Detach(s', j, k).value, Detach(s, j, k).value, j);
        } else {
          SameListTrans(r, s', s, j);
        }
      }
    }
  }

  /** The removal loop succeeds when every removal it is to make succeeds on its own. */
  lemma {:induction false} DetachAllSucceeds<V>(s: Store<V>, k: nat, i: nat)
    requires Shaped(s) && k < |s.holders| && i <= |s.lists|
    requires forall j | i <= j < |s.lists| && IsInList(s.holders[k], j) :: Detach(s, j, k).Ok?
    ensures DetachAll(s, k, i).Ok?
    decreases |s.lists| - i
  {
    if i < |s.lists| {
      if !IsInList(s.holders[k], i) {
        DetachAllSucceeds(s, k, i + 1);
      } else {
        var s' := Detach(s, i, k).value;
        LaterDetachesSucceed(s, k, i);
        DetachAllSucceeds(s', k, i + 1);
      }
    }
  }

  /** After the removal from list `i`, the removals from later lists succeed as before. */
  lemma {:induction false} LaterDetachesSucceed<V>(s: Store<V>, k: nat, i: nat)
    requires Shaped(s) && k < |s.holders| && i < |s.lists| && Detach(s, i, k).Ok?
    requires forall j | i < j < |s.lists| && IsInList(s.holders[k], j) :: Detach(s, j, k).Ok?
    ensures var s' := Detach(s, i, k).value;
      forall j | i + 1 <= j < |s.lists| && IsInList(s'.holders[k], j) :: Detach(s', j, k).Ok?
  {
    var s' := Detach(s, i, k).value;
    forall j | i + 1 <= j < |s.lists| && IsInList(s'.holders[k], j) ensures Detach(s', j, k).Ok? {
      SameListOutside(s, k, i, j);
      DetachLocal(s', s, j, k);
    }
  }

  /** The whole removal loop of `pop_back` for the element at slot `k`: it succeeds exactly
      when each removal from a list where `is_in_list` holds succeeds on its own; each such
      list then ends as that removal leaves it, and every other list is untouched. */
  lemma {:induction false} DetachAllEffect<V>(s: Store<V>, k: nat)
    requires Shaped(s) && k < |s.holders|
    ensures DetachAll(s, k, 0).Ok? <==>
      forall j | 0 <= j < |s.lists| && IsInList(s.holders[k], j) :: Detach(s, j, k).Ok?
    ensures DetachAll(s, k, 0).Ok? ==>
      && (forall j | 0 <= j < |s.lists| && IsInList(s.holders[k], j) ::
            SameList(DetachAll(s, k, 0).value, Detach(s, j, k).value, j))
      && (forall j | 0 <= j < |s.lists| && !IsInList(s.holders[k], j) :: SameList(DetachAll(s, k, 0).value, s, j))
  {
    if DetachAll(s, k, 0).Ok? {
      forall j | 0 <= j < |s.lists|
        ensures IsInList(s.holders[k], j) ==>
          Detach(s, j, k).Ok? && SameList(DetachAll(s, k, 0).value, Detach(s, j, k).value, j)
        ensures !IsInList(s.holders[k], j) ==> SameList(DetachAll(s, k, 0).value, s, j)
      {
        DetachAllAt(s, k, 0, j);
      }
    } else if forall j | 0 <= j < |s.lists| && IsInList(s.holders[k], j) :: Detach(s, j, k).Ok? {
      DetachAllSucceeds(s, k, 0);
    }
  }

  /** A removal from list `i` leaves every other list as it was. */
  lemma {:induction false} SameListOutside<V>(s: Store<V>, k: nat, i: nat, j: nat)
    requires Shaped(s) && i < |s.lists| && j < |s.lists| && i != j && Detach(s, i, k).Ok?
    ensures SameList(Detach(s, i, k).value, s, j)
  {
  }

  /** The result of a successful `pop_back`: the new state and the returned value. */
  datatype Popped<V> = Popped(store: Store<V>, value: Option<V>)

  /** `pop_back(li)` (lib.rs:124-142): nothing when the tail is null; otherwise detach the tail
      element from every list where `is_in_list` holds, then free it and return its value.
      The pop succeeds exactly when each of those removals succeeds on its own, and each of
      those lists ends as that removal leaves it. */
  function Pop<V>(s: Store<V>, li: nat): (r: Outcome<Popped<V>>)
    requires Shaped(s) && li < |s.lists|
    ensures r.Ok? && r.value.value.None? <==> s.lists[li].tail == Null
    ensures r.Ok? && r.value.value.None? ==> r.value.store == s
    ensures r.Undefined? <== s.lists[li].tail.Slot? && !Live(s.holders, s.lists[li].tail)
    ensures Live(s.holders, s.lists[li].tail) ==>
      var k := s.lists[li].tail.index;
      r.Ok? <==> forall j | 0 <= j < |s.lists| && IsInList(s.holders[k], j) :: Detach(s, j, k).Ok?
    ensures r.Ok? && r.value.value.Some? ==>
      var k := s.lists[li].tail.index;
      var t := r.value.store;
      && LiveAt(s.holders, k)
      && r.value.value.value == s.holders[k].value
      && Shaped(t)
      && |t.lists| == |s.lists| && |t.holders| == |s.holders|
      && !t.holders[k].live
      && LiveSlots(t.holders) == LiveSlots(s.holders) - {k}
      && (forall q | 0 <= q < |s.holders| ::
            t.holders[q].value == s.holders[q].value && (q != k ==> t.holders[q].live == s.holders[q].live))
      && (forall j | 0 <= j < |s.lists| :: t.lists[j].tail in {Null, s.lists[j].tail})
      && (forall j | 0 <= j < |s.lists| && IsInList(s.holders[k], j) :: SameList(t, Detach(s, j, k).value, j))
      && (forall j | 0 <= j < |s.lists| && !IsInList(s.holders[k], j) :: SameList(t, s, j))
  {
    var tail := s.lists[li].tail;
    if tail == Null then Ok(Popped(s, None))
    else if !Live(s.holders, tail) then Undefined
    else
      var k := tail.index;
      DetachAllEffect(s, k);
      match DetachAll(s, k, 0)
      case Ok(s') =>
        var hs := Free(s'.holders, k);
        assert LiveSlots(hs) == LiveSlots(s.holders) - {k} by {
          forall q: nat ensures q in LiveSlots(hs) <==> q in LiveSlots(s.holders) - {k} {
            if q < |hs| {
              assert hs[q].live == (q != k && s.holders[q].live);
            }
          }
        }
        FreeKeepsLists(s', k);
        assert forall j | 0 <= j < |s.lists| ::
          && (IsInList(s.holders[k], j) ==> SameList(s'.(holders := hs), Detach(s, j, k).value, j))
          && (!IsInList(s.holders[k], j) ==> SameList(s'.(holders := hs), s, j)) by {
          forall j | 0 <= j < |s.lists|
            ensures IsInList(s.holders[k], j) ==> SameList(s'.(holders := hs), Detach(s, j, k).value, j)
            ensures !IsInList(s.holders[k], j) ==> SameList(s'.(holders := hs), s, j)
          {
            if IsInList(s.holders[k], j) {
              SameListTrans(s'.(holders := hs), s', Detach(s, j, k).value, j);
            } else {
              SameListTrans(s'.(holders := hs), s', s, j);
            }
          }
        }
        Ok(Popped(s'.(holders := hs), Some(s'.holders[k].value)))
      case Panic => Panic
      case Undefined => Undefined
  }

  /** Freeing a holder leaves every list as it was. */
  lemma {:induction false} FreeKeepsLists<V>(s: Store<V>, k: nat)
    requires Shaped(s) && k < |s.holders|
    ensures forall j | 0 <= j < |s.lists| :: SameList(s.(holders := Free(s.holders, k)), s, j)
  {
  }

  /** `while self.pop_back(li).is_some() {}` (lib.rs:40): pop until `pop_back` returns `None`
      or fails. Every successful pop frees one live slot, so the loop ends. */
  function DrainList<V>(s: Store<V>, li: nat): (r: Outcome<Store<V>>)
    requires Shaped(s) && li < |s.lists|
    ensures r.Ok? ==>
      && Shaped(r.value) && |r.value.lists| == |s.lists|
      && r.value.lists[li].tail == Null
      && LiveSlots(r.value.holders) <= LiveSlots(s.holders)
      && (forall j | 0 <= j < |s.lists| :: r.value.lists[j].tail in {Null, s.lists[j].tail})
    decreases |LiveSlots(s.holders)|
  {
    var k := s.lists[li].tail;
    match Pop(s, li)
    case Ok(Popped(s', None)) => Ok(s')
    case Ok(Popped(s', Some(_))) =>
      assert LiveSlots(s'.holders) < LiveSlots(s.holders) by {
        assert k.index in LiveSlots(s.holders);
      }
      DrainList(s', li)
    case Panic => Panic
    case Undefined => Undefined
  }

  /** `Drop for Multilist` (lib.rs:38-42): drain lists `i`, `i + 1`, ... in turn. A drop that
      returns leaves every tail null; heads and live elements may remain (see the lemmas). */
  function Drain<V>(s: Store<V>, i: nat): (r: Outcome<Store<V>>)
    requires Shaped(s) && i <= |s.lists|
    ensures r.Ok? ==>
      && Shaped(r.value) && |r.value.lists| == |s.lists|
      && LiveSlots(r.value.holders) <= LiveSlots(s.holders)
      && (forall j | i <= j < |s.lists| :: r.value.lists[j].tail == Null)
      && (forall j | 0 <= j < i :: r.value.lists[j].tail in {Null, s.lists[j].tail})
    decreases |s.lists| - i
  {
    if i == |s.lists| then Ok(s)
    else
      match DrainList(s, i)
      case Ok(s') => Drain(s', i + 1)
      case Panic => Panic
      case Undefined => Undefined
  }
}
