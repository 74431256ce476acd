/** The pool's queue of tasks: a singly linked list, appended at its tail and popped at its head. */
module TaskQueue {
  /** The queue with `t` behind the others, and the queue without its first. */
  function Behind<T>(q: seq<T>, t: T): seq<T> { q + [t] }

  function Rest<T>(q: seq<T>): seq<T>
    requires q != []
  {
    q[1..]
  }

  class TaskItem<T> {
    const task: T
    var next: TaskItem?<T>

    constructor (task: T)
      ensures this.task == task && next == null
    {
      this.task := task;
      next := null;
    }
  }

  class ThreadPool<T> {
    var taskQueue: TaskItem?<T>
    ghost var items: seq<TaskItem<T>>

    /** `items` are the list from `taskQueue` on, each once, and the last has no successor. */
    ghost predicate Valid()
      reads this, items
    {
      && (forall i, j :: 0 <= i < j < |items| ==> items[i] != items[j])
      && (forall i :: 0 <= i < |items| - 1 ==> items[i].next == items[i + 1])
      && (items == [] ==> taskQueue == null)
      && (items != [] ==> taskQueue == items[0] && items[|items| - 1].next == null)
    }

    ghost function Tasks(): (r: seq<T>)
      reads this
      ensures |r| == |items| && forall i :: 0 <= i < |items| ==> r[i] == items[i].task
    {
      seq(|items|, i requires 0 <= i < |items| reads this => items[i].task)
    }

    constructor ()
      ensures Valid() && Tasks() == []
    {
      taskQueue := null;
      items := [];
    }

    /** Take the task that has waited longest, if there is one. */
    method Pop() returns (r: seq<T>)
      requires Valid()
      modifies this
      ensures Valid()
      ensures if old(Tasks()) == [] then r == [] && Tasks() == []
              else r == [old(Tasks())[0]] && Tasks() == Rest(old(Tasks()))
    {
      var t := taskQueue;
      r := [];
      if t != null {
        r := [t.task];
        ghost var tasks := Tasks();
        taskQueue := t.next;
        items := items[1..];
        assert Tasks() == tasks[1..];
      }
    }

    /** Walk to the last item and link a new one behind it. */
    method Push(task: T)
      requires Valid()
      modifies this, items
      ensures Valid() && Tasks() == Behind(old(Tasks()), task)
      ensures fresh(set x | x in items && x !in old(items))
    {
      var item := new TaskItem(task);
      var head := taskQueue;
      if head == null {
        taskQueue := item;
      } else {
        ghost var k := 0;
        while head.next != null
          invariant 0 <= k < |items| && head == items[k] && items == old(items) && Valid() && item.next == null
          invariant taskQueue == old(taskQueue) && item !in items
          invariant k < |items| - 1 ==> head.next == items[k + 1]
          decreases |items| - k
        {
          head := head.next;
          k := k + 1;
        }
        assert k == |items| - 1;
        head.next := item;
      }
      items := items + [item];
    }
  }
}
