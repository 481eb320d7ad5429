/** The records of the container (lib.rs:157-305), with raw pointers replaced by arena slots.
    A `Store` is the whole state of one multilist: its list table and its pool of element holders. */
module Layout {

  /** A possibly-null pointer to an element holder: the index of its slot in the pool. */
  datatype Ptr = Null | Slot(index: nat)

  /** `MultilistPointers`: the link pair of one element in one list. */
  datatype Pointers = Pointers(next: Ptr, prev: Ptr)

  /** `MultilistListPointers`: the head and tail of one list. */
  datatype ListPointers = ListPointers(head: Ptr, tail: Ptr)

  /** `MultilistElementHolder`: the value and one link pair per list. `live` is false once
      the holder has been deallocated; a dead slot is never reused. */
  datatype Holder<V> = Holder(value: V, pointers: seq<Pointers>, live: bool)

  /** The list table and the pool of holders ever allocated by one multilist. */
  datatype Store<V> = Store(lists: seq<ListPointers>, holders: seq<Holder<V>>)

  const EmptyPair := Pointers(Null, Null)
  const EmptyList := ListPointers(Null, Null)

  /** Every holder carries exactly one link pair per list of its container. */
  ghost predicate Shaped<V>(s: Store<V>) {
    forall k | 0 <= k < |s.holders| :: |s.holders[k].pointers| == |s.lists|
  }

  /** Slot `k` holds an allocated, not yet freed element. */
  predicate LiveAt<V>(hs: seq<Holder<V>>, k: nat) {
    k < |hs| && hs[k].live
  }

  /** `p` is non-null and names a live element. */
  predicate Live<V>(hs: seq<Holder<V>>, p: Ptr) {
    p.Slot? && LiveAt(hs, p.index)
  }

  /** `is_in_list`: the element is taken to belong to list `li` when either link is non-null. */
  predicate IsInList<V>(h: Holder<V>, li: nat)
    requires li < |h.pointers|
  {
    h.pointers[li].next != Null || h.pointers[li].prev != Null
  }

  /** `Multilist::new(list_count)`: `listCount` empty lists and no elements. */
  function Fresh<V>(listCount: nat): (s: Store<V>)
    ensures Shaped(s) && |s.lists| == listCount && s.holders == []
    ensures forall li | 0 <= li < listCount :: s.lists[li].head == Null && s.lists[li].tail == Null
  {
    Store(seq(listCount, _ => EmptyList), [])
  }

  /** `MultilistElement::new`: a fresh holder, appended to the pool, with every link pair null. */
  function Allocate<V>(s: Store<V>, value: V): (r: Store<V>)
    requires Shaped(s)
    ensures Shaped(r) && r.lists == s.lists && |r.holders| == |s.holders| + 1
    ensures r.holders[..|s.holders|] == s.holders
    ensures var k := |s.holders|;
      r.holders[k].value == value && r.holders[k].live &&
      forall li | 0 <= li < |s.lists| :: !IsInList(r.holders[k], li) && r.holders[k].pointers[li] == EmptyPair
  {
    s.(holders := s.holders + [Holder(value, seq(|s.lists|, _ => EmptyPair), true)])
  }

  /** Slot `k`'s link for list `li` after `next` is overwritten with `p`; nothing else changes. */
  function SetNext<V>(hs: seq<Holder<V>>, k: nat, li: nat, p: Ptr): (r: seq<Holder<V>>)
    requires k < |hs| && li < |hs[k].pointers|
    ensures |r| == |hs|
    ensures forall j | 0 <= j < |hs| ::
      r[j].value == hs[j].value && r[j].live == hs[j].live && |r[j].pointers| == |hs[j].pointers|
    ensures r[k].pointers[li] == Pointers(p, hs[k].pointers[li].prev)
    ensures forall j, i | 0 <= j < |hs| && 0 <= i < |hs[j].pointers| && (j != k || i != li) ::
      r[j].pointers[i] == hs[j].pointers[i]
  {
    hs[k := hs[k].(pointers := hs[k].pointers[li := hs[k].pointers[li].(next := p)])]
  }

  /** Slot `k`'s link for list `li` after `prev` is overwritten with `p`; nothing else changes. */
  function SetPrev<V>(hs: seq<Holder<V>>, k: nat, li: nat, p: Ptr): (r: seq<Holder<V>>)
    requires k < |hs| && li < |hs[k].pointers|
    ensures |r| == |hs|
    ensures forall j | 0 <= j < |hs| ::
      r[j].value == hs[j].value && r[j].live == hs[j].live && |r[j].pointers| == |hs[j].pointers|
    ensures r[k].pointers[li] == Pointers(hs[k].pointers[li].next, p)
    ensures forall j, i | 0 <= j < |hs| && 0 <= i < |hs[j].pointers| && (j != k || i != li) ::
      r[j].pointers[i] == hs[j].pointers[i]
  {
    hs[k := hs[k].(pointers := hs[k].pointers[li := hs[k].pointers[li].(prev := p)])]
  }

  /** `MultilistElement::destroy`: the slot is freed; its contents stay as they were. */
  function Free<V>(hs: seq<Holder<V>>, k: nat): (r: seq<Holder<V>>)
    requires k < |hs|
    ensures |r| == |hs| && !r[k].live
    ensures forall j | 0 <= j < |hs| :: r[j].value == hs[j].value && r[j].pointers == hs[j].pointers
    ensures forall j | 0 <= j < |hs| && j != k :: r[j].live == hs[j].live
  {
    hs[k := hs[k].(live := false)]
  }

  /** The slots whose holders have not been freed. */
  function LiveSlots<V>(hs: seq<Holder<V>>): set<nat> {
    set k: nat | k < |hs| && hs[k].live
  }
}
