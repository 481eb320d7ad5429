/** The container itself (lib.rs:32-155, 205-261, 307-329): a class whose fields are the list
    table and the pool of element holders, with methods that perform the source's pointer
    surgery one field write at a time. Each method is proved to end in the state that the
    matching function of `Operations` computes from the old state. */
module Multilists {
  import opened Outcomes
  import opened Layout
  import opened Chains
  import opened Operations

  /** `MultilistElement`: a handle on one holder. The holder's back-reference to its multilist
      travels with the handle as `owner`; `slot` is the holder's address in that multilist's pool. */
  datatype Element<V> = Element(owner: Multilist<V>, slot: nat) {

    /** `associated_multilist` (lib.rs:239-243). Reading the back-reference of a freed holder
        is undefined behaviour. */
    function AssociatedMultilist(): (r: Outcome<Multilist<V>>)
      reads owner
      ensures r.Ok? <==> LiveAt(owner.holders, slot)
      ensures !r.Panic?
      ensures r.Ok? ==> r.value == owner
    {
      if LiveAt(owner.holders, slot) then Ok(owner) else Undefined
    }

    /** `is_in_list` (lib.rs:255-260): true when either link of list `li` is non-null. */
    function InList(li: nat): (r: Outcome<bool>)
      reads owner
      requires owner.Valid() && li < |owner.lists|
      ensures r.Ok? <==> LiveAt(owner.holders, slot)
      ensures !r.Panic?
      ensures r.Ok? ==>
        (r.value <==> owner.holders[slot].pointers[li].next != Null || owner.holders[slot].pointers[li].prev != Null)
    {
      if LiveAt(owner.holders, slot) then Ok(IsInList(owner.holders[slot], li)) else Undefined
    }
  }

  /** `Multilist`: `lists` is the vector of `MultilistListPointers` (the source's `pointers`
      field); `holders` is every holder this multilist has allocated, freed ones included. */
  class Multilist<V> {
    var lists: seq<ListPointers>
    var holders: seq<Holder<V>>

    ghost function State(): Store<V>
      reads this
    {
      Store(lists, holders)
    }

    ghost predicate Valid()
      reads this
    {
      Shaped(State())
    }

    /** `Multilist::new(list_count)` (lib.rs:47-53). */
    constructor (listCount: nat)
      ensures Valid() && State() == Fresh(listCount)
      ensures ListCount() == listCount && forall li | 0 <= li < listCount :: IsEmpty(li)
    {
      lists := seq(listCount, _ => EmptyList);
      holders := [];
    }

    /** `list_count` (lib.rs:56-60). */
    function ListCount(): (n: nat)
      reads this
      ensures n == |State().lists|
    {
      |lists|
    }

    /** `is_empty(li)` (lib.rs:63-67): only the head is looked at. */
    function IsEmpty(li: nat): (b: bool)
      reads this
      requires li < |lists|
      ensures b <==> State().lists[li].head == Null
    {
      lists[li].head == Null
    }

    /** `push_back(li, value)` (lib.rs:71-74): allocate a holder, then `push_back_existing`. */
    method PushBack(li: nat, value: V) returns (o: Outcome<()>)
      requires Valid() && li < |lists|
      modifies this
      ensures o == Attach(Allocate(old(State()), value), li, |old(holders)|).Void()
      ensures o.Ok? ==> Valid() && State() == Attach(Allocate(old(State()), value), li, |old(holders)|).value
    {
      var k := |holders|;
      holders := holders + [Holder(value, seq(|lists|, _ => EmptyPair), true)];
      assert State() == Allocate(old(State()), value);
      o := PushBackExisting(li, Element(this, k));
    }

    /** `push_back_existing(li, element)` (lib.rs:78-93). The owner check and the `next` check
        are hard assertions; the `prev` check is a debug assertion and is not made. */
    method PushBackExisting(li: nat, e: Element<V>) returns (o: Outcome<()>)
      requires Valid() && li < |lists|
      modifies this
      ensures e.owner != this ==> o == (if LiveAt(e.owner.holders, e.slot) then Panic else Undefined)
      ensures e.owner == this ==> o == Attach(old(State()), li, e.slot).Void()
      ensures e.owner == this && o.Ok? ==> Valid() && State() == Attach(old(State()), li, e.slot).value
    {
      var owner := e.AssociatedMultilist();
      if owner.Undefined? {
        return Undefined;
      }
      if owner.value != this {
        return Panic;
      }
      var k := e.slot;
      var pr := holders[k].pointers[li];
      if pr.next != Null {
        return Panic;
      }
      var tail := lists[li].tail;
      if tail == Null {
        lists := lists[li := lists[li].(head := Slot(k))];
      } else {
        if !Live(holders, tail) {
          return Undefined;
        }
        holders := SetNext(holders, tail.index, li, Slot(k));
        holders := SetPrev(holders, k, li, tail);
      }
      lists := lists[li := lists[li].(tail := Slot(k))];
      o := Ok(());
    }

    /** `remove_existing(li, element)` (lib.rs:100-119). The element's own link pair is read
        again after the successor is patched, as the source does, and is never cleared. */
    method RemoveExisting(li: nat, e: Element<V>) returns (o: Outcome<()>)
      requires Valid() && li < |lists|
      modifies this
      ensures e.owner != this ==> o == (if LiveAt(e.owner.holders, e.slot) then Panic else Undefined)
      ensures e.owner == this ==> o == Detach(old(State()), li, e.slot).Void()
      ensures e.owner == this && o.Ok? ==> Valid() && State() == Detach(old(State()), li, e.slot).value
    {
      var owner := e.AssociatedMultilist();
      if owner.Undefined? {
        return Undefined;
      }
      if owner.value != this {
        return Panic;
      }
      var k := e.slot;
      var pr := holders[k].pointers[li];
      if pr.next == Null {
        if lists[li].tail != Slot(k) {
          return Panic;
        }
        lists := lists[li := lists[li].(tail := Null)];
      } else {
        if !Live(holders, pr.next) {
          return Undefined;
        }
        holders := SetPrev(holders, pr.next.index, li, pr.prev);
      }
      var again := holders[k].pointers[li];
      assert again == pr;
      if again.prev == Null {
        lists := lists[li := lists[li].(head := again.next)];
      } else {
        if !Live(holders, again.prev) {
          return Undefined;
        }
        holders := SetNext(holders, again.prev.index, li, again.next);
      }
      o := Ok(());
    }

    /** `pop_back(li)` (lib.rs:124-143): take the tail, remove it from every list where
        `is_in_list` holds, free it and return its value. */
    method PopBack(li: nat) returns (o: Outcome<Option<V>>)
      requires Valid() && li < |lists|
      modifies this
      ensures var p := Pop(old(State()), li);
        && (o.Ok? <==> p.Ok?) && (o.Panic? <==> p.Panic?)
        && (p.Ok? ==> o.value == p.value.value && Valid() && State() == p.value.store)
    {
      ghost var s0 := State();
      var tail := lists[li].tail;
      if tail == Null {
        return Ok(None);
      }
      if !Live(holders, tail) {
        return Undefined;
      }
      var k := tail.index;
      var r := RemoveFromAll(k);
      if !r.Ok? {
        return if r.Panic? then Panic else Undefined;
      }
      var value := holders[k].value;
      holders := Free(holders, k);
      o := Ok(Some(value));
    }

    /** The loop of `pop_back` (lib.rs:134-138): `remove_existing` on every list where the
        element at slot `k` seems to be a member, in list order. */
    method RemoveFromAll(k: nat) returns (o: Outcome<()>)
      requires Valid() && LiveAt(holders, k)
      modifies this
      ensures o == DetachAll(old(State()), k, 0).Void()
      ensures o.Ok? ==> Valid() && State() == DetachAll(old(State()), k, 0).value
    {
      ghost var s0 := State();
      var i := 0;
      while i < |lists|
        invariant 0 <= i <= |lists| && Valid() && |holders| == |s0.holders| && |lists| == |s0.lists|
        invariant holders[k] == s0.holders[k]
        invariant DetachAll(s0, k, 0) == DetachAll(State(), k, i)
        decreases |lists| - i
      {
        var member := Element(this, k).InList(i);
        if member == Ok(true) {
          ghost var before := State();
          var r := RemoveExisting(i, Element(this, k));
          if !r.Ok? {
            assert DetachAll(before, k, i) == if r.Panic? then Panic else Undefined;
            return r;
          }
          assert DetachAll(before, k, i) == DetachAll(State(), k, i + 1);
        }
        i := i + 1;
      }
      o := Ok(());
    }

    /** `iter(li)` (lib.rs:147-154): an iterator positioned at the head of list `li`. */
    method Iter(li: nat) returns (it: MultilistIterator<V>)
      requires li < |lists|
      ensures fresh(it) && it.multilist == this && it.listIndex == li && it.element == lists[li].head
    {
      it := new MultilistIterator(this, li, lists[li].head);
    }

    /** `Drop for Multilist` (lib.rs:37-43): for each list in turn, pop until `pop_back`
        returns `None`. */
    method Drop() returns (o: Outcome<()>)
      requires Valid()
      modifies this
      ensures o == Drain(old(State()), 0).Void()
      ensures o.Ok? ==> Valid() && State() == Drain(old(State()), 0).value
    {
      ghost var s0 := State();
      var n := |lists|;
      for i := 0 to n
        invariant Valid() && |lists| == n
        invariant Drain(s0, 0) == Drain(State(), i)
      {
        var r := PopAll(i);
        if !r.Ok? {
          return r;
        }
      }
      o := Ok(());
    }

    /** `while self.pop_back(li).is_some() {}` (lib.rs:40). */
    method PopAll(li: nat) returns (o: Outcome<()>)
      requires Valid() && li < |lists|
      modifies this
      ensures o == DrainList(old(State()), li).Void()
      ensures o.Ok? ==> Valid() && State() == DrainList(old(State()), li).value
    {
      ghost var s0 := State();
      while true
        invariant Valid() && |lists| == |s0.lists|
        invariant DrainList(s0, li) == DrainList(State(), li)
        decreases |LiveSlots(holders)|
      {
        ghost var before := State();
        var r := PopBack(li);
        match r
        case Ok(None) =>
          return Ok(());
        case Ok(Some(_)) =>
          assert DrainList(before, li) == DrainList(State(), li);
        case Panic =>
          return Panic;
        case Undefined =>
          return Undefined;
      }
    }
  }

  /** `MultilistIterator` (lib.rs:307-329): the list it walks and the holder it will yield next. */
  class MultilistIterator<V> {
    const multilist: Multilist<V>
    const listIndex: nat
    var element: Ptr

    constructor (m: Multilist<V>, li: nat, start: Ptr)
      ensures multilist == m && listIndex == li && element == start
    {
      multilist := m;
      listIndex := li;
      element := start;
    }

    /** `next` (lib.rs:315-328): yield the current holder and step along its `next` link.
        Walking a chain `xs` yields `xs[0]` and leaves the rest of the chain to walk. */
    method Next(ghost xs: seq<nat>) returns (o: Outcome<Option<Element<V>>>)
      requires multilist.Valid() && listIndex < |multilist.lists|
      modifies this
      ensures old(element) == Null ==> o == Ok(None) && element == Null
      ensures old(element).Slot? && !LiveAt(multilist.holders, old(element).index) ==> o.Undefined?
      ensures Live(multilist.holders, old(element)) ==>
        var k := old(element).index;
        o == Ok(Some(Element(multilist, k))) && element == multilist.holders[k].pointers[listIndex].next
      ensures Chain(multilist.holders, listIndex, old(element), xs) ==>
        && (o == Ok(None) <==> xs == [])
        && (xs != [] ==> o == Ok(Some(Element(multilist, xs[0]))) && Chain(multilist.holders, listIndex, element, xs[1..]))
    {
      if Chain(multilist.holders, listIndex, element, xs) {
        ChainStep(multilist.holders, listIndex, element, xs);
      }
      var current := element;
      if current == Null {
        return Ok(None);
      }
      if !LiveAt(multilist.holders, current.index) {
        return Undefined;
      }
      element := multilist.holders[current.index].pointers[listIndex].next;
      o := Ok(Some(Element(multilist, current.index)));
    }
  }
}
