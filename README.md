# multilist in Dafny

A model of the `multilist` crate (`lib.rs`): a `Multilist<Value>` is a fixed number of intrusive
doubly-linked lists that share one pool of elements. Every element holder carries its value, a
back-reference to its multilist, and one `(next, prev)` link pair per list, so one element can sit
in any subset of the lists at once. The model follows the code's list operations field by field,
including the places where the code does not keep its lists well-formed; the raw layout of a
holder in memory is replaced by an arena slot (see "## Left out").

- `layout.dfy` (module `Layout`): the records. Raw pointers become arena slots
  (`Ptr = Null | Slot(index)`). A freed holder keeps its slot and is flagged dead; slots are never
  reused. A `Store` is the list table (`MultilistListPointers` per list) plus the pool of holders.
- `operations.dfy` (module `Operations`): what each operation does to the whole state, as
  functions of the old state: `Attach` (`push_back_existing`), `Detach` (`remove_existing`),
  `DetachAll` (the loop of `pop_back`), `Pop` (`pop_back`), `DrainList` and `Drain` (`Drop`).
  Results are `Ok`, `Panic` (an `assert!` fails) or `Undefined` (a freed holder is read or
  written, which is undefined behaviour in Rust).
- `multilist.dfy` (module `Multilists`): class `Multilist` with fields `lists` and `holders`,
  whose methods perform the same pointer surgery one field write at a time and are proved to end
  in the state the matching function computes; class `MultilistIterator` with its cursor field;
  the element handle `Element` with `is_in_list` and `associated_multilist`.
- `chains.dfy` (module `Chains`): the abstract view of a list. `Chain` is the sequence of slots
  met by walking `next` links from a pointer (what the iterator visits); `Linked` adds what a
  well-formed doubly-linked list also keeps (the tail, the `prev` links, no slot twice).
- `properties.dfy` (module `Properties`): list-level lemmas. Appends and removal of an element
  that has a successor keep lists well-formed with the expected contents. The other cases expose
  the code's behaviour: removing a tail nulls the list's tail, the removed element keeps its
  links, `is_in_list` misses a sole member, and re-attaching a tail makes a cycle.
- `demo.dfy` (module `Demo`): the example program of `lib.rs` (`main`, then the drop of its
  multilist), run through the class methods, with every printed list proved. Two shorter
  programs reach a use-after-free and a panic.

Where the crate's own description of its design and the code disagree, the model follows the
code:
- Removing a tail sets the list's tail to null, not to the predecessor.
- Dropping a multilist does not free every element: elements that are still reachable only
  through heads whose tails were nulled are leaked (`Demo.DropAtEnd`).
- `Multilist::new(0)` is accepted: nothing in the code rejects it.

## Model

| member | source | states |
|---|---|---|
| `Layout.Fresh` | lib.rs:47-53 | `new(n)`: `n` lists whose heads and tails are all null, and no element holders |
| `Layout.Allocate` | lib.rs:207-231 | a new live holder with the value and a null link pair for every list (the layout the code intends, see "## Left out") is appended; the list table and all earlier holders are unchanged; `is_in_list` is false for it on every list |
| `Layout.Free` | lib.rs:246-251 | freeing a holder changes only its liveness; values and links of all holders stay |
| `Operations.Attach` | lib.rs:78-93 | panics exactly when the element is live and its `next` for the list is non-null; `prev` is not checked; an empty list gets head = tail = element; otherwise the old tail's `next` and the element's `prev` are linked and the tail becomes the element; only that table entry and those two link pairs change |
| `Operations.Detach` | lib.rs:100-119 | panics exactly when `next` is null and the element is not the tail; with no successor the tail becomes null; with no predecessor the head becomes `next`; the successor's `prev` and the predecessor's `next` skip the element; the element's own holder is unchanged; nothing outside those entries changes |
| `Operations.DetachAll` | lib.rs:134-138 | the removal loop keeps values, liveness and the popped holder; it leaves each tail as it was or null, and leaves untouched every list where `is_in_list` was false |
| `Operations.DetachAllEffect` | lib.rs:134-138 | the removal loop succeeds exactly when each `remove_existing` on a list where `is_in_list` holds succeeds on its own; each such list (table entry and every link pair) then ends as that single removal leaves it, and every other list is untouched |
| `Operations.DetachAllAt` | lib.rs:134-138 | for one list `j`: a list still to be visited where `is_in_list` holds ends as its own removal leaves it; any other list is untouched |
| `Operations.DetachAllSucceeds` | lib.rs:134-138 | the removal loop does not fail when none of its single removals fails |
| `Operations.DetachLocal` | lib.rs:103-117 | `remove_existing` on list `j` reads and writes only list `j` and liveness: two states that agree there give the same outcome and agree there afterwards |
| `Operations.Pop` | lib.rs:124-143 | an empty tail gives `None` and no change; a freed tail is undefined; otherwise the pop succeeds exactly when each removal from a list where `is_in_list` holds succeeds; then the tail's value is returned, exactly that slot leaves the live set, each list where `is_in_list` held ends as `remove_existing` of the tail leaves it, and every other list is untouched |
| `Operations.DrainList` | lib.rs:40 | popping until `None` ends with the list's tail null and never makes a slot live |
| `Operations.Drain` | lib.rs:37-43 | a completed drop leaves every tail null and only frees slots |
| `Multilists.Element.AssociatedMultilist` | lib.rs:239-243 | the back-reference of a live holder is its multilist; reading it from a freed holder is undefined |
| `Multilists.Element.InList` | lib.rs:255-260 | true exactly when `next` or `prev` for the list is non-null; undefined on a freed holder |
| `Multilists.Multilist.constructor` | lib.rs:47-53 | the new state is `Fresh(n)`: `list_count` is `n` and every list reports empty |
| `Multilists.Multilist.ListCount` | lib.rs:56-60 | the number of list table entries |
| `Multilists.Multilist.IsEmpty` | lib.rs:63-67 | true exactly when the list's head is null |
| `Multilists.Multilist.PushBack` | lib.rs:71-74 | ends in `Attach` applied to `Allocate` of the old state, with the same outcome |
| `Multilists.Multilist.PushBackExisting` | lib.rs:78-93 | panics for a live element of another multilist; otherwise ends in `Attach` of the old state, with the same outcome |
| `Multilists.Multilist.RemoveExisting` | lib.rs:100-119 | panics for a live element of another multilist; otherwise ends in `Detach` of the old state; the element's link pair is read again after the successor is patched |
| `Multilists.Multilist.RemoveFromAll` | lib.rs:134-138 | the loop over list indices ends in `DetachAll` of the old state, stopping at the first failure |
| `Multilists.Multilist.PopBack` | lib.rs:124-143 | returns the value of `Pop` of the old state and ends in its state |
| `Multilists.Multilist.Iter` | lib.rs:147-154 | a fresh iterator on the list whose cursor is the list's head |
| `Multilists.Multilist.PopAll` | lib.rs:40 | `while pop_back(li).is_some()` ends in `DrainList` of the old state |
| `Multilists.Multilist.Drop` | lib.rs:37-43 | the drop ends in `Drain` of the old state, with the same outcome |
| `Multilists.MultilistIterator.Next` | lib.rs:315-328 | at a null cursor yields `None`; at a freed holder is undefined; otherwise yields the current element and moves to its `next`; walking a chain yields its first slot and leaves the rest of the chain |
| `Chains.ChainUnique` | lib.rs:315-328 | the walk from a pointer is deterministic: at most one chain starts there |
| `Properties.OtherListsUnchanged` | lib.rs:81-91 | an operation confined to one list leaves every other well-formed list well-formed with the same contents |
| `Properties.AttachAppends` | lib.rs:84-91 | appending an element with a null link pair that is not in the list gives the old list followed by the element |
| `Properties.PushBackAppends` | lib.rs:71-74 | `push_back` appends the new element to its list and leaves every other list as it was |
| `Properties.PushBackValues` | lib.rs:71-74 | after `push_back` the list walks the old values followed by the pushed value, so pushing a, b, c iterates a, b, c |
| `Properties.DetachWithSuccessor` | lib.rs:105-117 | removing an element that has a successor gives the old list without it; its own links are unchanged and `is_in_list` still holds |
| `Properties.DetachSoleMember` | lib.rs:105-116 | removing the only member empties the list |
| `Properties.DetachTailLosesTail` | lib.rs:105-116 | removing the tail of a list of two or more leaves the head, a walk of the remaining elements, and a null tail, so the list is not well-formed for any contents |
| `Properties.IsInListMissesSoleMember` | lib.rs:255-260 | `is_in_list` is false for the sole member of a list and true for every member of a longer list |
| `Properties.AttachTailAgainLoops` | lib.rs:82-83 | attaching a list's tail to that list again passes the `next` check, makes the tail its own successor, and leaves no finite walk from the head |
| `Properties.DetachAllSkipsNonMembers` | lib.rs:134-138 | when `is_in_list` is false on every list, the removal loop changes nothing |
| `Properties.PopUnlinksWithSuccessor` | lib.rs:124-143 | a successful pop of an element that has a successor in a well-formed list `j` returns its value and leaves list `j` as the old list without it |
| `Properties.ListFollows` | lib.rs:139-140 | a well-formed list stays well-formed when only its link pairs are kept and a slot outside it is freed |
| `Properties.PopSoleMemberDangles` | lib.rs:134-141 | popping a sole member frees it without unlinking it, and the next pop of that list is undefined |
| `Properties.FreshListsEmpty` | lib.rs:47-53 | every list of a new multilist is the well-formed empty list |
| `Properties.EmptyIffNoMembers` | lib.rs:63-67 | on a well-formed list, a null head means no elements and the converse |
| `Demo.ListValues` | lib.rs:383-392 | a `for` loop over `iter(li)` collects the values along the list's chain, in order |
| `Demo.Nth` | lib.rs:360-366 | `iter(li).skip(n).next().unwrap()` gives the `n`-th element of the chain, or panics when the list is shorter |
| `Demo.AddTasks` | lib.rs:344-358 | three `push_back`s give the task list pids 1, 3, 5 and an empty run list |
| `Demo.FillRunList` | lib.rs:360-364 | the run list becomes pids 5, 1, 3 and the task list is unchanged |
| `Demo.RemoveSecondTask` | lib.rs:366-368 | the task list becomes pids 1, 5; the run list keeps pid 3 |
| `Demo.AddSeventhTask` | lib.rs:370-375 | the task list becomes pids 1, 5, 7 |
| `Demo.PopRunTail` | lib.rs:377-379 | `pop_back` of the run list returns pid 3 and leaves the run list walking pids 5, 1 with a null tail |
| `Demo.PopRunList` | lib.rs:377 | `pop_back` of the run list in the program's state returns pid 3's task, frees it, and leaves the run list with head pid 5 and a null tail |
| `Demo.StaleRemoveChangesNothing` | lib.rs:134-138 | pid 3's stale task-list links make its second removal from the task list rewrite links that already skip it, so the state is unchanged |
| `Demo.DropAtEnd` | lib.rs:37-43 | the drop at the end of the program frees only pid 7; pids 1 and 5 stay allocated |
| `Demo.TaskScenario` | lib.rs:334-393 | the five printed snapshots of both lists, the popped value, and the leak left by the drop |
| `Demo.SoleMemberScenario` | lib.rs:124-143 | push and pop of a sole member returns it, `is_empty` stays false, and the next pop is undefined |
| `Demo.StaleLinkScenario` | lib.rs:100-143 | after `remove_existing` of list 0's tail, `pop_back` of another list containing that element panics in list 0 |

## Left out

- Raw allocation and byte layout (`MultilistElementHolder::size`, `heap::allocate`, `heap::deallocate`, `alloc::oom`, the byte-offset initialisation loop): creating an element appends an arena slot with null link pairs, and destroying it marks the slot dead. Allocation failure is not modelled, and freed addresses are never reused, so every later access through a stale pointer is flagged undefined.
- Layout.Allocate: its null link pairs for every list follow the intended layout, not what the code writes. lib.rs:166-167 sizes each extra link pair by `min_align_of` rather than `size_of`, and the loop at lib.rs:223-226 writes `pointers[i]` for byte offsets `i` from `size_of::<MultilistElement>()` to the byte size, so the pairs for lists 1 and up are never initialised and the writes that are made land past the allocation. The model cannot express uninitialised or out-of-bounds memory.
- `UnsafeCell`, lifetimes, the `Deref`, `Copy` and `Clone` impls: dereferencing a handle is reading `holders[slot].value`; handles are plain values.
- Printing in `main` and `dump_list`: the scenario collects the values that would be printed.
- Thread safety: nothing is concurrent.
- `debug_assert!`s (lib.rs:83, 165, 174) are treated as in a release build: they are not checked.
- An out-of-range list index is a precondition of every operation that takes one. In the source its effect differs by operation: `is_empty`, `pop_back` and `iter` panic on `Vec` indexing; `push_back_existing` first reads the element's link pair out of bounds (lib.rs:82, whose bound is only debug-asserted at lib.rs:174) and `is_in_list` never indexes the `Vec` (lib.rs:257-258), so both are undefined behaviour rather than a panic.
- The holder's back-reference is carried by the handle as `Element.owner`; a handle of another multilist is checked for liveness in that multilist's own pool.
- A moved `Multilist`: the back-reference is the multilist's address (lib.rs:80, 102, 220), so moving a `Multilist` after its first `push_back` leaves every holder's back-reference stale; later owner assertions then fail and `destroy` reads the old address (lib.rs:248). A Dafny object never moves, so the model cannot show this.
- The state after a `Panic` or `Undefined` outcome is left unspecified by the class methods.
- Multilists.Multilist.Drop: the contract states only what a completed drop guarantees (every tail null, no slot revived); it deliberately does not claim that every element is freed, which the code does not achieve.
- Operations.Drain: states the same weaker guarantee as `Drop`, for the same reason.
- Operations.DetachAll: its own contract states frame facts only; the field-level effect on each list is stated by `Operations.DetachAllEffect` and carried into `Operations.Pop`. List-sequence results are proved only where the code keeps the list well-formed (`Properties.PopUnlinksWithSuccessor`), because a removed tail leaves a null tail behind.
