/** The order in which the pool takes its tasks: first in, first out, whatever the interleaving. */
module SchedulerQueue {
  import opened Mailboxes
  import opened Scheduler

  /** The task that a step pushes, and the one that it pops. */
  function PushedBy(s: System, a: Action): seq<nat>
    requires Enabled(s, a)
  {
    if a.Push? then [s.clients[a.c].t] else if a.Repush? then [s.workers[a.w].t] else []
  }

  function PoppedBy(s: System, a: Action): seq<nat>
    requires Enabled(s, a)
  {
    if a.Pop? then [Next(s, a).workers[a.w].t] else []
  }

  /** The tasks pushed, and those popped, in the first `i` steps. */
  ghost function Pushed(run: seq<System>, actions: seq<Action>, i: nat): seq<nat>
    requires IsRun(run, actions) && i < |run|
  {
    if i == 0 then [] else Pushed(run, actions, i - 1) + PushedBy(run[i - 1], actions[i - 1])
  }

  ghost function Popped(run: seq<System>, actions: seq<Action>, i: nat): seq<nat>
    requires IsRun(run, actions) && i < |run|
  {
    if i == 0 then [] else Popped(run, actions, i - 1) + PoppedBy(run[i - 1], actions[i - 1])
  }

  lemma WorkerQueues(s: System, a: Action)
    requires Enabled(s, a) && ByWorker(a)
    ensures s.queue + PushedBy(s, a) == PoppedBy(s, a) + Next(s, a).queue
  {
    if a.Pop? { assert s.queue == [s.queue[0]] + s.queue[1..]; }
  }

  lemma ClientQueues(s: System, a: Action)
    requires Enabled(s, a) && !ByWorker(a)
    ensures s.queue + PushedBy(s, a) == PoppedBy(s, a) + Next(s, a).queue
  {
    hide MayRun;
  }

  lemma Regroup(a: seq<nat>, b: seq<nat>, c: seq<nat>)
    ensures a + b + c == a + (b + c)
  {
  }

  /** In every state of every run: the tasks popped so far, then those queued, are the tasks pushed so far, in the same
      order. So the k-th task popped is the k-th pushed. */
  lemma {:induction false} FirstInFirstOut(run: seq<System>, actions: seq<Action>, i: nat)
    requires IsRun(run, actions) && i < |run|
    ensures Pushed(run, actions, i) == Popped(run, actions, i) + run[i].queue
    ensures forall k :: 0 <= k < |Popped(run, actions, i)| ==>
      k < |Pushed(run, actions, i)| && Popped(run, actions, i)[k] == Pushed(run, actions, i)[k]
  {
    hide Enabled, Next, PushedBy, PoppedBy;
    if i > 0 {
      var s, a := run[i - 1], actions[i - 1];
      FirstInFirstOut(run, actions, i - 1);
      assert run[(i - 1) + 1] == Next(s, a);
      if ByWorker(a) { WorkerQueues(s, a); } else { ClientQueues(s, a); }
      Regroup(Popped(run, actions, i - 1), s.queue, PushedBy(s, a));
      Regroup(Popped(run, actions, i - 1), PoppedBy(s, a), run[i].queue);
    }
  }

  /** A task that is pushed is behind `n` others at most: it is the next one popped when they have been. */
  lemma PoppedInTurn(run: seq<System>, actions: seq<Action>, i: nat, j: nat)
    requires IsRun(run, actions) && i <= j < |run|
    requires |Popped(run, actions, j)| > |Popped(run, actions, i)| + |run[i].queue|
    requires i < |actions| && PushedBy(run[i], actions[i]) != []
    ensures Popped(run, actions, j)[|Popped(run, actions, i)| + |run[i].queue|] == PushedBy(run[i], actions[i])[0]
  {
    FirstInFirstOut(run, actions, i);
    FirstInFirstOut(run, actions, j);
    if i < j { PushedGrows(run, actions, i + 1, j); }
    assert Pushed(run, actions, i + 1) == Pushed(run, actions, i) + PushedBy(run[i], actions[i]);
  }

  lemma {:induction false} PushedGrows(run: seq<System>, actions: seq<Action>, i: nat, j: nat)
    requires IsRun(run, actions) && i <= j < |run|
    ensures Pushed(run, actions, i) <= Pushed(run, actions, j)
    decreases j - i
  {
    hide Enabled, Next, PushedBy;
    if i < j { PushedGrows(run, actions, i, j - 1); }
  }
}
