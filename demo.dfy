/** The example program of the source (lib.rs:334-393): a kernel's task list and run list over
    one multilist of tasks, followed by the multilist's destruction; and two shorter programs
    that reach the states where the source stops keeping its lists well-formed. */
module Demo {
  import opened Outcomes
  import opened Layout
  import opened Chains
  import opened Operations
  import opened Multilists
  import opened Properties

  /** `TaskStruct` (lib.rs:336-339). */
  datatype Task = Task(pid: int, gid: int)

  const TaskList: nat := 0
  const RunList: nat := 1

  /** The values met by `for x in multilist.iter(li)` along the chain `xs` (the loops of
      `dump_list`, lib.rs:383-392, with printing replaced by collecting). */
  method ListValues<V>(m: Multilist<V>, li: nat, ghost xs: seq<nat>) returns (vs: seq<V>)
    requires m.Valid() && li < |m.lists| && Chain(m.holders, li, m.lists[li].head, xs)
    ensures vs == ValuesOf(m.holders, xs)
  {
    var it := m.Iter(li);
    ghost var done := 0;
    vs := [];
    while true
      invariant done <= |xs| && Chain(m.holders, li, it.element, xs[done..])
      invariant |vs| == done && forall j | 0 <= j < done :: vs[j] == m.holders[xs[j]].value
      decreases |xs| - done
    {
      var o := it.Next(xs[done..]);
      if o == Ok(None) {
        return;
      }
      var e := o.value.value;
      vs := vs + [m.holders[e.slot].value];
      assert xs[done..][1..] == xs[done + 1..];
      done := done + 1;
    }
  }

  /** `multilist.iter(li).skip(n).next().unwrap()` (lib.rs:360-366): the `n`-th element of the
      chain `xs`, or a panic from `unwrap` when the list is shorter. */
  method Nth<V>(m: Multilist<V>, li: nat, n: nat, ghost xs: seq<nat>) returns (o: Outcome<Element<V>>)
    requires m.Valid() && li < |m.lists| && Chain(m.holders, li, m.lists[li].head, xs)
    ensures o == if n < |xs| then Ok(Element(m, xs[n])) else Panic
  {
    var it := m.Iter(li);
    ghost var rest := xs;
    var i := 0;
    while i < n
      invariant 0 <= i <= n
      invariant i <= |xs| ==> rest == xs[i..] && Chain(m.holders, li, it.element, rest)
      invariant i > |xs| ==> it.element == Null && Chain(m.holders, li, it.element, [])
      decreases n - i
    {
      var skipped := it.Next(rest);
      if rest != [] {
        rest := rest[1..];
      }
      i := i + 1;
      if i > |xs| {
        rest := [];
      }
    }
    var r := it.Next(rest);
    if r.Ok? && r.value.Some? {
      o := Ok(r.value.value);
    } else {
      o := Panic;
    }
  }

  /** The states the example program passes through. Slots 0, 1, 2 and 3 hold the tasks with
      pids 1, 3, 5 and 7; each holder lists its task-list link pair, then its run-list pair.
      `S8b` and `S9b` are the states just before a popped holder is freed. */
  const S0: Store<Task> := Store([EmptyList, EmptyList], [])

  const S1: Store<Task> := Store([ListPointers(Slot(0), Slot(0)), EmptyList], [
      Holder(Task(1, 2), [EmptyPair, EmptyPair], true)])

  const S2: Store<Task> := Store([ListPointers(Slot(0), Slot(1)), EmptyList], [
      Holder(Task(1, 2), [Pointers(Slot(1), Null), EmptyPair], true),
      Holder(Task(3, 4), [Pointers(Null, Slot(0)), EmptyPair], true)])

  const S3: Store<Task> := Store([ListPointers(Slot(0), Slot(2)), EmptyList], [
      Holder(Task(1, 2), [Pointers(Slot(1), Null), EmptyPair], true),
      Holder(Task(3, 4), [Pointers(Slot(2), Slot(0)), EmptyPair], true),
      Holder(Task(5, 6), [Pointers(Null, Slot(1)), EmptyPair], true)])

  const S4: Store<Task> := Store([ListPointers(Slot(0), Slot(2)), ListPointers(Slot(2), Slot(2))], [
      Holder(Task(1, 2), [Pointers(Slot(1), Null), EmptyPair], true),
      Holder(Task(3, 4), [Pointers(Slot(2), Slot(0)), EmptyPair], true),
      Holder(Task(5, 6), [Pointers(Null, Slot(1)), EmptyPair], true)])

  const S5: Store<Task> := Store([ListPointers(Slot(0), Slot(2)), ListPointers(Slot(2), Slot(0))], [
      Holder(Task(1, 2), [Pointers(Slot(1), Null), Pointers(Null, Slot(2))], true),
      Holder(Task(3, 4), [Pointers(Slot(2), Slot(0)), EmptyPair], true),
      Holder(Task(5, 6), [Pointers(Null, Slot(1)), Pointers(Slot(0), Null)], true)])

  const S6: Store<Task> := Store([ListPointers(Slot(0), Slot(2)), ListPointers(Slot(2), Slot(1))], [
      Holder(Task(1, 2), [Pointers(Slot(1), Null), Pointers(Slot(1), Slot(2))], true),
      Holder(Task(3, 4), [Pointers(Slot(2), Slot(0)), Pointers(Null, Slot(0))], true),
      Holder(Task(5, 6), [Pointers(Null, Slot(1)), Pointers(Slot(0), Null)], true)])

  const S7: Store<Task> := Store([ListPointers(Slot(0), Slot(2)), ListPointers(Slot(2), Slot(1))], [
      Holder(Task(1, 2), [Pointers(Slot(2), Null), Pointers(Slot(1), Slot(2))], true),
      Holder(Task(3, 4), [Pointers(Slot(2), Slot(0)), Pointers(Null, Slot(0))], true),
      Holder(Task(5, 6), [Pointers(Null, Slot(0)), Pointers(Slot(0), Null)], true)])

  const S8: Store<Task> := Store([ListPointers(Slot(0), Slot(3)), ListPointers(Slot(2), Slot(1))], [
      Holder(Task(1, 2), [Pointers(Slot(2), Null), Pointers(Slot(1), Slot(2))], true),
      Holder(Task(3, 4), [Pointers(Slot(2), Slot(0)), Pointers(Null, Slot(0))], true),
      Holder(Task(5, 6), [Pointers(Slot(3), Slot(0)), Pointers(Slot(0), Null)], true),
      Holder(Task(7, 8), [Pointers(Null, Slot(2)), EmptyPair], true)])

  const S8b: Store<Task> := Store([ListPointers(Slot(0), Slot(3)), ListPointers(Slot(2), Null)], [
      Holder(Task(1, 2), [Pointers(Slot(2), Null), Pointers(Null, Slot(2))], true),
      Holder(Task(3, 4), [Pointers(Slot(2), Slot(0)), Pointers(Null, Slot(0))], true),
      Holder(Task(5, 6), [Pointers(Slot(3), Slot(0)), Pointers(Slot(0), Null)], true),
      Holder(Task(7, 8), [Pointers(Null, Slot(2)), EmptyPair], true)])

  const S9: Store<Task> := Store([ListPointers(Slot(0), Slot(3)), ListPointers(Slot(2), Null)], [
      Holder(Task(1, 2), [Pointers(Slot(2), Null), Pointers(Null, Slot(2))], true),
      Holder(Task(3, 4), [Pointers(Slot(2), Slot(0)), Pointers(Null, Slot(0))], false),
      Holder(Task(5, 6), [Pointers(Slot(3), Slot(0)), Pointers(Slot(0), Null)], true),
      Holder(Task(7, 8), [Pointers(Null, Slot(2)), EmptyPair], true)])

  const S9b: Store<Task> := Store([ListPointers(Slot(0), Null), ListPointers(Slot(2), Null)], [
      Holder(Task(1, 2), [Pointers(Slot(2), Null), Pointers(Null, Slot(2))], true),
      Holder(Task(3, 4), [Pointers(Slot(2), Slot(0)), Pointers(Null, Slot(0))], false),
      Holder(Task(5, 6), [Pointers(Null, Slot(0)), Pointers(Slot(0), Null)], true),
      Holder(Task(7, 8), [Pointers(Null, Slot(2)), EmptyPair], true)])

  const S10: Store<Task> := Store([ListPointers(Slot(0), Null), ListPointers(Slot(2), Null)], [
      Holder(Task(1, 2), [Pointers(Slot(2), Null), Pointers(Null, Slot(2))], true),
      Holder(Task(3, 4), [Pointers(Slot(2), Slot(0)), Pointers(Null, Slot(0))], false),
      Holder(Task(5, 6), [Pointers(Null, Slot(0)), Pointers(Slot(0), Null)], true),
      Holder(Task(7, 8), [Pointers(Null, Slot(2)), EmptyPair], false)])

  /** `push_back(TASK_LIST, pid 1)` (lib.rs:345-348). */
  lemma PushOne()
    ensures Attach(Allocate(S0, Task(1, 2)), TaskList, 0) == Ok(S1)
  {
    assert seq(2, _ => EmptyPair) == [EmptyPair, EmptyPair];
    var r := Attach(Allocate(S0, Task(1, 2)), TaskList, 0);
    assert r.Ok?;
    assert r.value.holders[0].pointers == [EmptyPair, EmptyPair];
    assert r.value.holders == S1.holders;
    assert r.value.lists == S1.lists;
  }

  /** `push_back(TASK_LIST, pid 3)` (lib.rs:349-352). */
  lemma PushThree()
    ensures Attach(Allocate(S1, Task(3, 4)), TaskList, 1) == Ok(S2)
  {
    assert seq(2, _ => EmptyPair) == [EmptyPair, EmptyPair];
    var r := Attach(Allocate(S1, Task(3, 4)), TaskList, 1);
    assert r.Ok?;
    assert r.value.holders[0].pointers == [Pointers(Slot(1), Null), EmptyPair];
    assert r.value.holders[1].pointers == [Pointers(Null, Slot(0)), EmptyPair];
    assert r.value.holders == S2.holders;
    assert r.value.lists == S2.lists;
  }

  /** `push_back(TASK_LIST, pid 5)` (lib.rs:353-356). */
  lemma PushFive()
    ensures Attach(Allocate(S2, Task(5, 6)), TaskList, 2) == Ok(S3)
  {
    assert seq(2, _ => EmptyPair) == [EmptyPair, EmptyPair];
    var r := Attach(Allocate(S2, Task(5, 6)), TaskList, 2);
    assert r.Ok?;
    assert r.value.holders[0].pointers == [Pointers(Slot(1), Null), EmptyPair];
    assert r.value.holders[1].pointers == [Pointers(Slot(2), Slot(0)), EmptyPair];
    assert r.value.holders[2].pointers == [Pointers(Null, Slot(1)), EmptyPair];
    assert r.value.holders == S3.holders;
    assert r.value.lists == S3.lists;
  }

  /** `push_back_existing(RUN_LIST, ...)` of the third task (lib.rs:360). */
  lemma RunFive()
    ensures Attach(S3, RunList, 2) == Ok(S4)
  {
    var r := Attach(S3, RunList, 2);
    assert r.Ok?;
    assert r.value.holders[0].pointers == [Pointers(Slot(1), Null), EmptyPair];
    assert r.value.holders[1].pointers == [Pointers(Slot(2), Slot(0)), EmptyPair];
    assert r.value.holders[2].pointers == [Pointers(Null, Slot(1)), EmptyPair];
    assert r.value.holders == S4.holders;
    assert r.value.lists == S4.lists;
  }

  /** `push_back_existing(RUN_LIST, ...)` of the first task (lib.rs:361). */
  lemma RunOne()
    ensures Attach(S4, RunList, 0) == Ok(S5)
  {
    var r := Attach(S4, RunList, 0);
    assert r.Ok?;
    assert r.value.holders[0].pointers == [Pointers(Slot(1), Null), Pointers(Null, Slot(2))];
    assert r.value.holders[1].pointers == [Pointers(Slot(2), Slot(0)), EmptyPair];
    assert r.value.holders[2].pointers == [Pointers(Null, Slot(1)), Pointers(Slot(0), Null)];
    assert r.value.holders == S5.holders;
    assert r.value.lists == S5.lists;
  }

  /** `push_back_existing(RUN_LIST, ...)` of the second task (lib.rs:362). */
  lemma RunThree()
    ensures Attach(S5, RunList, 1) == Ok(S6)
  {
    var r := Attach(S5, RunList, 1);
    assert r.Ok?;
    assert r.value.holders[0].pointers == [Pointers(Slot(1), Null), Pointers(Slot(1), Slot(2))];
    assert r.value.holders[1].pointers == [Pointers(Slot(2), Slot(0)), Pointers(Null, Slot(0))];
    assert r.value.holders[2].pointers == [Pointers(Null, Slot(1)), Pointers(Slot(0), Null)];
    assert r.value.holders == S6.holders;
    assert r.value.lists == S6.lists;
  }

  /** `remove_existing(TASK_LIST, ...)` of the second task (lib.rs:366). */
  lemma RemoveThree()
    ensures Detach(S6, TaskList, 1) == Ok(S7)
  {
    var r := Detach(S6, TaskList, 1);
    assert r.Ok?;
    assert r.value.holders[0].pointers == [Pointers(Slot(2), Null), Pointers(Slot(1), Slot(2))];
    assert r.value.holders[1].pointers == [Pointers(Slot(2), Slot(0)), Pointers(Null, Slot(0))];
    assert r.value.holders[2].pointers == [Pointers(Null, Slot(0)), Pointers(Slot(0), Null)];
    assert r.value.holders == S7.holders;
    assert r.value.lists == S7.lists;
  }

  /** `push_back(TASK_LIST, pid 7)` (lib.rs:370-373). */
  lemma PushSeven()
    ensures Attach(Allocate(S7, Task(7, 8)), TaskList, 3) == Ok(S8)
  {
    assert seq(2, _ => EmptyPair) == [EmptyPair, EmptyPair];
    var r := Attach(Allocate(S7, Task(7, 8)), TaskList, 3);
    assert r.Ok?;
    assert r.value.holders[0].pointers == [Pointers(Slot(2), Null), Pointers(Slot(1), Slot(2))];
    assert r.value.holders[1].pointers == [Pointers(Slot(2), Slot(0)), Pointers(Null, Slot(0))];
    assert r.value.holders[2].pointers == [Pointers(Slot(3), Slot(0)), Pointers(Slot(0), Null)];
    assert r.value.holders[3].pointers == [Pointers(Null, Slot(2)), EmptyPair];
    assert r.value.holders == S8.holders;
    assert r.value.lists == S8.lists;
  }

  /** Inside `pop_back(RUN_LIST)`: pid 3 still looks like a member of the task list, whose
      neighbours already skip it, so removing it there rewrites the links they already have. */
  lemma StaleRemoveChangesNothing()
    ensures Detach(S8, TaskList, 1) == Ok(S8)
  {
    var r := Detach(S8, TaskList, 1);
    assert r.Ok?;
    assert r.value.holders[0].pointers == [Pointers(Slot(2), Null), Pointers(Slot(1), Slot(2))];
    assert r.value.holders[1].pointers == [Pointers(Slot(2), Slot(0)), Pointers(Null, Slot(0))];
    assert r.value.holders[2].pointers == [Pointers(Slot(3), Slot(0)), Pointers(Slot(0), Null)];
    assert r.value.holders[3].pointers == [Pointers(Null, Slot(2)), EmptyPair];
    assert r.value.holders == S8.holders;
    assert r.value.lists == S8.lists;
  }

  /** Inside `pop_back(RUN_LIST)`: pid 3 is the run list's tail; the tail becomes null. */
  lemma UnlinkThreeFromRun()
    ensures Detach(S8, RunList, 1) == Ok(S8b)
  {
    var r := Detach(S8, RunList, 1);
    assert r.Ok?;
    assert r.value.holders[0].pointers == [Pointers(Slot(2), Null), Pointers(Null, Slot(2))];
    assert r.value.holders[1].pointers == [Pointers(Slot(2), Slot(0)), Pointers(Null, Slot(0))];
    assert r.value.holders[2].pointers == [Pointers(Slot(3), Slot(0)), Pointers(Slot(0), Null)];
    assert r.value.holders[3].pointers == [Pointers(Null, Slot(2)), EmptyPair];
    assert r.value.holders == S8b.holders;
    assert r.value.lists == S8b.lists;
  }

  /** Inside the drop: pid 7 is the task list's tail; the tail becomes null. */
  lemma UnlinkSevenFromTasks()
    ensures Detach(S9, TaskList, 3) == Ok(S9b)
  {
    var r := Detach(S9, TaskList, 3);
    assert r.Ok?;
    assert r.value.holders[0].pointers == [Pointers(Slot(2), Null), Pointers(Null, Slot(2))];
    assert r.value.holders[1].pointers == [Pointers(Slot(2), Slot(0)), Pointers(Null, Slot(0))];
    assert r.value.holders[2].pointers == [Pointers(Null, Slot(0)), Pointers(Slot(0), Null)];
    assert r.value.holders[3].pointers == [Pointers(Null, Slot(2)), EmptyPair];
    assert r.value.holders == S9b.holders;
    assert r.value.lists == S9b.lists;
  }


  /** `pop_back(RUN_LIST)` (lib.rs:377): pid 3 is detached from both lists it seems to be in and
      freed. The run list keeps head pid 5 but its tail is now null. */
  lemma PopRunList()
    ensures Pop(S8, RunList) == Ok(Popped(S9, Some(Task(3, 4))))
  {
    StaleRemoveChangesNothing();
    UnlinkThreeFromRun();
    assert DetachAll(S8b, 1, 2) == Ok(S8b);
    assert DetachAll(S8, 1, 1) == Ok(S8b);
    assert DetachAll(S8, 1, 0) == Ok(S8b);
    var hs := Free(S8b.holders, 1);
    assert hs[1].pointers == S9.holders[1].pointers;
    assert hs == S9.holders;
  }

  /** Dropping the multilist at the end of the program (lib.rs:37-43): only pid 7 is popped and
      freed; pids 1 and 5 stay allocated because both tails are already null. */
  lemma DropAtEnd()
    ensures Drain(S9, 0) == Ok(S10)
    ensures LiveSlots(S10.holders) == {0, 2}
  {
    UnlinkSevenFromTasks();
    assert DetachAll(S9b, 3, 2) == Ok(S9b);
    assert DetachAll(S9b, 3, 1) == Ok(S9b);
    assert DetachAll(S9, 3, 0) == Ok(S9b);
    var hs := Free(S9b.holders, 3);
    assert hs[3].pointers == S10.holders[3].pointers;
    assert hs == S10.holders;
    assert Pop(S9, TaskList) == Ok(Popped(S10, Some(Task(7, 8))));
    assert DrainList(S10, TaskList) == Ok(S10);
    assert DrainList(S9, TaskList) == Ok(S10);
    assert DrainList(S10, RunList) == Ok(S10);
    assert Drain(S10, 2) == Ok(S10);
    assert Drain(S10, 1) == Ok(S10);
    assert LiveSlots(S10.holders) == {0, 2} by {
      forall q: nat ensures q in LiveSlots(S10.holders) <==> q in {0, 2} {
        if q < 4 {
          assert S10.holders[q].live <==> q == 0 || q == 2;
        }
      }
    }
  }

  /** A walk of two steps from `from`. */
  lemma WalkOfTwo<V>(hs: seq<Holder<V>>, li: nat, from: Ptr, a: nat, b: nat)
    requires from == Slot(a) && Usable(hs, li, a) && Usable(hs, li, b)
    requires hs[a].pointers[li].next == Slot(b) && hs[b].pointers[li].next == Null
    ensures Chain(hs, li, from, [a, b])
  {
    forall m | 0 <= m < 2 ensures Usable(hs, li, [a, b][m]) && hs[[a, b][m]].pointers[li].next == At([a, b], m + 1) {
      assert m == 0 || m == 1;
    }
  }

  /** A walk of three steps from `from`. */
  lemma WalkOfThree<V>(hs: seq<Holder<V>>, li: nat, from: Ptr, a: nat, b: nat, c: nat)
    requires from == Slot(a) && Usable(hs, li, a) && Usable(hs, li, b) && Usable(hs, li, c)
    requires hs[a].pointers[li].next == Slot(b) && hs[b].pointers[li].next == Slot(c) && hs[c].pointers[li].next == Null
    ensures Chain(hs, li, from, [a, b, c])
  {
    forall m | 0 <= m < 3 ensures Usable(hs, li, [a, b, c][m]) && hs[[a, b, c][m]].pointers[li].next == At([a, b, c], m + 1) {
      assert m == 0 || m == 1 || m == 2;
    }
  }

  /** The chains the example program walks: the task list and the run list in each state
      that `dump_list` prints or that `skip(n).next()` walks. */
  lemma WalkedChains()
    ensures Chain(S3.holders, TaskList, S3.lists[TaskList].head, [0, 1, 2])
    ensures Chain(S3.holders, RunList, S3.lists[RunList].head, [])
    ensures Chain(S4.holders, TaskList, S4.lists[TaskList].head, [0, 1, 2])
    ensures Chain(S5.holders, TaskList, S5.lists[TaskList].head, [0, 1, 2])
    ensures Chain(S6.holders, TaskList, S6.lists[TaskList].head, [0, 1, 2])
    ensures Chain(S6.holders, RunList, S6.lists[RunList].head, [2, 0, 1])
    ensures Chain(S7.holders, TaskList, S7.lists[TaskList].head, [0, 2])
    ensures Chain(S7.holders, RunList, S7.lists[RunList].head, [2, 0, 1])
    ensures Chain(S8.holders, TaskList, S8.lists[TaskList].head, [0, 2, 3])
    ensures Chain(S8.holders, RunList, S8.lists[RunList].head, [2, 0, 1])
    ensures Chain(S9.holders, TaskList, S9.lists[TaskList].head, [0, 2, 3])
    ensures Chain(S9.holders, RunList, S9.lists[RunList].head, [2, 0])
  {
    WalkOfThree(S3.holders, TaskList, S3.lists[TaskList].head, 0, 1, 2);
    WalkOfThree(S4.holders, TaskList, S4.lists[TaskList].head, 0, 1, 2);
    WalkOfThree(S5.holders, TaskList, S5.lists[TaskList].head, 0, 1, 2);
    WalkOfThree(S6.holders, TaskList, S6.lists[TaskList].head, 0, 1, 2);
    WalkOfThree(S6.holders, RunList, S6.lists[RunList].head, 2, 0, 1);
    WalkOfTwo(S7.holders, TaskList, S7.lists[TaskList].head, 0, 2);
    WalkOfThree(S7.holders, RunList, S7.lists[RunList].head, 2, 0, 1);
    WalkOfThree(S8.holders, TaskList, S8.lists[TaskList].head, 0, 2, 3);
    WalkOfThree(S8.holders, RunList, S8.lists[RunList].head, 2, 0, 1);
    WalkOfThree(S9.holders, TaskList, S9.lists[TaskList].head, 0, 2, 3);
    WalkOfTwo(S9.holders, RunList, S9.lists[RunList].head, 2, 0);
  }

  /** `dump_list` (lib.rs:383-392): the contents of the task list and of the run list. */
  method Dump(m: Multilist<Task>, ghost xs: seq<nat>, ghost ys: seq<nat>) returns (d: (seq<Task>, seq<Task>))
    requires m.Valid() && |m.lists| == 2
    requires Chain(m.holders, TaskList, m.lists[TaskList].head, xs)
    requires Chain(m.holders, RunList, m.lists[RunList].head, ys)
    ensures d == (ValuesOf(m.holders, xs), ValuesOf(m.holders, ys))
  {
    var tasks := ListValues(m, TaskList, xs);
    var runs := ListValues(m, RunList, ys);
    d := (tasks, runs);
  }

  /** The tasks at the slots of each printed walk. */
  lemma PrintedValues()
    ensures ValuesOf(S3.holders, [0, 1, 2]) == [Task(1, 2), Task(3, 4), Task(5, 6)]
    ensures ValuesOf(S6.holders, [2, 0, 1]) == [Task(5, 6), Task(1, 2), Task(3, 4)]
    ensures ValuesOf(S7.holders, [0, 2]) == [Task(1, 2), Task(5, 6)]
    ensures ValuesOf(S8.holders, [0, 2, 3]) == [Task(1, 2), Task(5, 6), Task(7, 8)]
    ensures ValuesOf(S9.holders, [2, 0]) == [Task(5, 6), Task(1, 2)]
    ensures ValuesOf(S6.holders, [0, 1, 2]) == ValuesOf(S3.holders, [0, 1, 2])
    ensures ValuesOf(S9.holders, [0, 2, 3]) == ValuesOf(S8.holders, [0, 2, 3])
    ensures ValuesOf(S7.holders, [2, 0, 1]) == ValuesOf(S6.holders, [2, 0, 1])
    ensures ValuesOf(S8.holders, [2, 0, 1]) == ValuesOf(S6.holders, [2, 0, 1])
  {
  }

  /** lib.rs:344-358: a multilist of two lists, with pids 1, 3 and 5 pushed onto the task list. */
  method AddTasks() returns (m: Multilist<Task>, d: (seq<Task>, seq<Task>))
    ensures fresh(m) && m.Valid() && m.State() == S3
    ensures d == ([Task(1, 2), Task(3, 4), Task(5, 6)], [])
  {
    PushOne(); PushThree(); PushFive(); WalkedChains(); PrintedValues();
    m := new Multilist<Task>(2);
    assert seq(2, _ => EmptyList) == [EmptyList, EmptyList];
    assert m.State() == S0;
    var o := m.PushBack(TaskList, Task(1, 2));
    o := m.PushBack(TaskList, Task(3, 4));
    o := m.PushBack(TaskList, Task(5, 6));
    d := Dump(m, [0, 1, 2], []);
  }

  /** lib.rs:360-364: the third, first and second tasks, found by walking the task list, are
      appended to the run list. */
  method FillRunList(m: Multilist<Task>) returns (d: (seq<Task>, seq<Task>))
    requires m.Valid() && m.State() == S3
    modifies m
    ensures m.Valid() && m.State() == S6
    ensures d == ([Task(1, 2), Task(3, 4), Task(5, 6)], [Task(5, 6), Task(1, 2), Task(3, 4)])
  {
    RunFive(); RunOne(); RunThree(); WalkedChains(); PrintedValues();
    var e := Nth(m, TaskList, 2, [0, 1, 2]);
    var o := m.PushBackExisting(RunList, e.value);
    assert m.State() == S4;
    e := Nth(m, TaskList, 0, [0, 1, 2]);
    o := m.PushBackExisting(RunList, e.value);
    assert m.State() == S5;
    e := Nth(m, TaskList, 1, [0, 1, 2]);
    o := m.PushBackExisting(RunList, e.value);
    d := Dump(m, [0, 1, 2], [2, 0, 1]);
  }

  /** lib.rs:366-368: the second task is removed from the task list only. */
  method RemoveSecondTask(m: Multilist<Task>) returns (d: (seq<Task>, seq<Task>))
    requires m.Valid() && m.State() == S6
    modifies m
    ensures m.Valid() && m.State() == S7
    ensures d == ([Task(1, 2), Task(5, 6)], [Task(5, 6), Task(1, 2), Task(3, 4)])
  {
    RemoveThree(); WalkedChains(); PrintedValues();
    var e := Nth(m, TaskList, 1, [0, 1, 2]);
    var o := m.RemoveExisting(TaskList, e.value);
    d := Dump(m, [0, 2], [2, 0, 1]);
  }

  /** lib.rs:370-375: pid 7 is pushed onto the task list. */
  method AddSeventhTask(m: Multilist<Task>) returns (d: (seq<Task>, seq<Task>))
    requires m.Valid() && m.State() == S7
    modifies m
    ensures m.Valid() && m.State() == S8
    ensures d == ([Task(1, 2), Task(5, 6), Task(7, 8)], [Task(5, 6), Task(1, 2), Task(3, 4)])
  {
    PushSeven(); WalkedChains(); PrintedValues();
    var o := m.PushBack(TaskList, Task(7, 8));
    d := Dump(m, [0, 2, 3], [2, 0, 1]);
  }

  /** lib.rs:377-379: the tail of the run list is popped from every list. */
  method PopRunTail(m: Multilist<Task>) returns (popped: Outcome<Option<Task>>, d: (seq<Task>, seq<Task>))
    requires m.Valid() && m.State() == S8
    modifies m
    ensures m.Valid() && m.State() == S9
    ensures popped == Ok(Some(Task(3, 4)))
    ensures d == ([Task(1, 2), Task(5, 6), Task(7, 8)], [Task(5, 6), Task(1, 2)])
  {
    PopRunList(); WalkedChains(); PrintedValues();
    popped := m.PopBack(RunList);
    d := Dump(m, [0, 2, 3], [2, 0]);
  }

  /** `main` (lib.rs:334-393) followed by the drop of its multilist. Each snapshot is what
      `dump_list` prints: the task list, then the run list. The last snapshot shows the run
      list cut short by `pop_back`, and the drop frees pid 7 only. */
  method TaskScenario() returns (m: Multilist<Task>, dumps: seq<(seq<Task>, seq<Task>)>, popped: Outcome<Option<Task>>, dropped: Outcome<()>)
    ensures dumps == [
      ([Task(1, 2), Task(3, 4), Task(5, 6)], []),
      ([Task(1, 2), Task(3, 4), Task(5, 6)], [Task(5, 6), Task(1, 2), Task(3, 4)]),
      ([Task(1, 2), Task(5, 6)], [Task(5, 6), Task(1, 2), Task(3, 4)]),
      ([Task(1, 2), Task(5, 6), Task(7, 8)], [Task(5, 6), Task(1, 2), Task(3, 4)]),
      ([Task(1, 2), Task(5, 6), Task(7, 8)], [Task(5, 6), Task(1, 2)])]
    ensures popped == Ok(Some(Task(3, 4)))
    ensures dropped == Ok(()) && m.State() == S10 && LiveSlots(m.holders) == {0, 2}
  {
    var d1, d2, d3, d4, d5;
    m, d1 := AddTasks();
    d2 := FillRunList(m);
    d3 := RemoveSecondTask(m);
    d4 := AddSeventhTask(m);
    popped, d5 := PopRunTail(m);
    dumps := [d1, d2, d3, d4, d5];
    DropAtEnd();
    dropped := m.Drop();
  }

  /** One list holding one task, before and after `pop_back` frees it. */
  const SoleMember: Store<Task> := Store([ListPointers(Slot(0), Slot(0))], [Holder(Task(1, 2), [EmptyPair], true)])
  const SoleMemberPopped: Store<Task> := Store([ListPointers(Slot(0), Slot(0))], [Holder(Task(1, 2), [EmptyPair], false)])

  /** Pushing one task onto the only list and popping it back returns the task but leaves the
      list's head and tail naming the freed holder (`is_in_list` is false for a sole member, so
      nothing is unlinked). The list does not look empty, and popping again reads freed memory. */
  method SoleMemberScenario() returns (first: Outcome<Option<Task>>, empty: bool, second: Outcome<Option<Task>>)
    ensures first == Ok(Some(Task(1, 2)))
    ensures !empty
    ensures second == Undefined
  {
    var m := new Multilist<Task>(1);
    assert seq(1, _ => EmptyList) == [EmptyList];
    assert seq(1, _ => EmptyPair) == [EmptyPair];
    var o := m.PushBack(0, Task(1, 2));
    assert m.State() == SoleMember;
    assert Linked(SoleMember, 0, [0]) by {
      assert Usable(SoleMember.holders, 0, [0][0]);
    }
    PopSoleMemberDangles(SoleMember, 0, 0);
    assert Free(SoleMember.holders, 0) == SoleMemberPopped.holders;
    first := m.PopBack(0);
    assert m.State() == SoleMemberPopped;
    empty := m.IsEmpty(0);
    second := m.PopBack(0);
  }

  /** After `S2`: the second task also on list 1, then the second task removed from list 0. */
  const SecondAlsoRuns: Store<Task> := Store([ListPointers(Slot(0), Slot(1)), ListPointers(Slot(1), Slot(1))], [
      Holder(Task(1, 2), [Pointers(Slot(1), Null), EmptyPair], true),
      Holder(Task(3, 4), [Pointers(Null, Slot(0)), EmptyPair], true)])
  const SecondLeftTasks: Store<Task> := Store([ListPointers(Slot(0), Null), ListPointers(Slot(1), Slot(1))], [
      Holder(Task(1, 2), [EmptyPair, EmptyPair], true),
      Holder(Task(3, 4), [Pointers(Null, Slot(0)), EmptyPair], true)])

  lemma TailLeavesTaskList()
    ensures Attach(S2, 1, 1) == Ok(SecondAlsoRuns)
    ensures Detach(SecondAlsoRuns, 0, 1) == Ok(SecondLeftTasks)
  {
    var r := Attach(S2, 1, 1);
    assert r.Ok?;
    assert r.value.holders[0].pointers == [Pointers(Slot(1), Null), EmptyPair];
    assert r.value.holders[1].pointers == [Pointers(Null, Slot(0)), EmptyPair];
    assert r.value.holders == SecondAlsoRuns.holders;
    assert r.value.lists == SecondAlsoRuns.lists;
    var t := Detach(SecondAlsoRuns, 0, 1);
    assert t.Ok?;
    assert t.value.holders[0].pointers == [EmptyPair, EmptyPair];
    assert t.value.holders[1].pointers == [Pointers(Null, Slot(0)), EmptyPair];
    assert t.value.holders == SecondLeftTasks.holders;
    assert t.value.lists == SecondLeftTasks.lists;
  }

  lemma PopStaleTail()
    ensures Pop(SecondLeftTasks, 1) == Panic
  {
    assert Detach(SecondLeftTasks, 0, 1) == Panic;
    assert DetachAll(SecondLeftTasks, 1, 0) == Panic;
  }

  /** `remove_existing` of the tail of list 0 leaves that element's list-0 links as they were,
      so a later `pop_back` of list 1 still finds it "in" list 0, tries to remove it there, and
      fails the assertion that it is list 0's tail. */
  method StaleLinkScenario() returns (removed: Outcome<()>, popped: Outcome<Option<Task>>)
    ensures removed == Ok(())
    ensures popped == Panic
  {
    PushOne(); PushThree(); TailLeavesTaskList(); PopStaleTail();
    var m := new Multilist<Task>(2);
    assert seq(2, _ => EmptyList) == [EmptyList, EmptyList];
    var o := m.PushBack(0, Task(1, 2));
    o := m.PushBack(0, Task(3, 4));
    assert m.State() == S2;
    WalkOfTwo(S2.holders, 0, S2.lists[0].head, 0, 1);
    var b := Nth(m, 0, 1, [0, 1]);
    o := m.PushBackExisting(1, b.value);
    removed := m.RemoveExisting(0, b.value);
    popped := m.PopBack(1);
  }
}
