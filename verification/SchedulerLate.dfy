/** When a send comes too late: the fate of every message, told from the state in which it is appended. */
module SchedulerLate {
  import opened Mailboxes
  import opened Scheduler
  import opened SchedulerInvariant
  import opened SchedulerTheorems

  // ---------- The last look ----------

  /** Task `t` has looked into its mailbox for the last time: a worker is about to end the mailbox, or the task is
      gone. */
  ghost predicate Late(s: System, t: nat)
    requires t < |s.tasks|
  {
    Gone(s.tasks[t]) || exists w :: 0 <= w < |s.workers| && s.workers[w] == Closing(t)
  }

  /** The message has been appended to the mailbox of task `t`. */
  predicate Posted(s: System, t: nat, m: nat) {
    t < |s.tasks| && m < |s.msgs| && s.msgs[m].to == t && !s.msgs[m].place.Sending?
  }

  lemma ClosingHolds(s: System, t: nat, w: nat)
    requires Inv(s) && w < |s.workers| && s.workers[w] == Closing(t)
    ensures t < |s.tasks| && s.tasks[t].owner == Worker(w) && s.tasks[t].state.TASK_DEAD?
  {
    hide Inv, Rousing;
    InvMeans(s, w, |s.clients|, |s.tasks|, |s.msgs|);
    InvMeans(s, w, |s.clients|, t, |s.msgs|);
  }

  /** Nothing is taken from a mailbox after the last look. */
  lemma LateStays(s: System, a: Action, t: nat)
    requires Inv(s) && Enabled(s, a) && t < |s.tasks| && Late(s, t)
    ensures t < |Next(s, a).tasks| && Late(Next(s, a), t)
    ensures s.tasks[t].mbox.linked <= Next(s, a).tasks[t].mbox.linked
  {
    hide Inv, Rousing, QueueOk, OwnerOk, BoxOk, MsgOk, ClientOk;
    if Gone(s.tasks[t]) {
      StepOnward(s, a);
    } else {
      var w :| 0 <= w < |s.workers| && s.workers[w] == Closing(t);
      ClosingHolds(s, t, w);
      ClosingStays(s, a, t, w);
    }
  }

  lemma ClosingStays(s: System, a: Action, t: nat, w: nat)
    requires Inv(s) && Enabled(s, a) && t < |s.tasks| && w < |s.workers| && s.workers[w] == Closing(t)
    requires s.tasks[t].owner == Worker(w) && s.tasks[t].state.TASK_DEAD?
    ensures t < |Next(s, a).tasks| && Late(Next(s, a), t)
    ensures s.tasks[t].mbox.linked <= Next(s, a).tasks[t].mbox.linked
  {
    hide Inv, Next, Enabled, Late;
    var s' := Next(s, a);
    if ByWorker(a) {
      WorkerLeaves(s, a, t, w);
      if a.w != w { ClosingIsLate(s', t, w); } else { GoneIsLate(s', t); }
    } else {
      ClientLeaves(s, a, t);
      ClosingIsLate(s', t, w);
    }
  }

  lemma WorkerLeaves(s: System, a: Action, t: nat, w: nat)
    requires Inv(s) && Enabled(s, a) && ByWorker(a) && t < |s.tasks| && w < |s.workers| && s.workers[w] == Closing(t)
    requires s.tasks[t].owner == Worker(w) && s.tasks[t].state.TASK_DEAD?
    ensures t < |Next(s, a).tasks| && Next(s, a).tasks[t].mbox.linked == s.tasks[t].mbox.linked
    ensures if a.w == w then Gone(Next(s, a).tasks[t])
            else w < |Next(s, a).workers| && Next(s, a).workers[w] == Closing(t)
  {
    hide Inv, Rousing, OwnerOk, BoxOk, MsgOk, ClientOk, QueueOk, WorkerOk, Enabled, Next, Holds;
    OnlyFetches(s, a, t);
    if a.w == w {
      Closes(s, a);
    } else if a.Receive? || a.Drain? {
      FetcherHolds(s, a);
    }
  }

  lemma Closes(s: System, a: Action)
    requires Enabled(s, a) && ByWorker(a) && s.workers[a.w].Closing? && s.tasks[s.workers[a.w].t].state.TASK_DEAD?
    ensures a.Close? && Gone(Next(s, a).tasks[s.workers[a.w].t])
  {
  }

  lemma FetcherHolds(s: System, a: Action)
    requires Inv(s) && Enabled(s, a) && (a.Receive? || a.Drain?)
    ensures s.tasks[s.workers[a.w].t].owner == Worker(a.w)
  {
    hide Inv, Rousing, OwnerOk, BoxOk, MsgOk, ClientOk, QueueOk;
    InvMeans(s, a.w, |s.clients|, |s.tasks|, |s.msgs|);
  }

  /** A worker's step leaves the other workers alone, and every mailbox from which it does not fetch. */
  lemma OnlyFetches(s: System, a: Action, t: nat)
    requires Enabled(s, a) && ByWorker(a) && t < |s.tasks|
    ensures var s' := Next(s, a);
      && |s'.tasks| == |s.tasks| && |s'.workers| == |s.workers|
      && (forall w :: 0 <= w < |s.workers| && w != a.w ==> s'.workers[w] == s.workers[w])
      && (s'.tasks[t].mbox.linked == s.tasks[t].mbox.linked || ((a.Receive? || a.Drain?) && s.workers[a.w].t == t))
  {
  }

  lemma ClientLeaves(s: System, a: Action, t: nat)
    requires Inv(s) && Enabled(s, a) && !ByWorker(a) && t < |s.tasks|
    ensures Next(s, a).workers == s.workers && t < |Next(s, a).tasks|
    ensures s.tasks[t].mbox.linked <= Next(s, a).tasks[t].mbox.linked
    ensures Gone(Next(s, a).tasks[t]) ==> Gone(s.tasks[t])
  {
    hide Inv, Rousing, QueueOk, BoxOk, MsgOk, Distinct, MayRun;
    var f := FocusOf(s, a);
    InvMeans(s, f.w, f.c, f.t, |s.msgs|);
  }

  lemma ClosingIsLate(s: System, t: nat, w: nat)
    requires t < |s.tasks| && w < |s.workers| && s.workers[w] == Closing(t)
    ensures Late(s, t)
  {
  }

  lemma GoneIsLate(s: System, t: nat)
    requires t < |s.tasks| && Gone(s.tasks[t])
    ensures Late(s, t)
  {
  }

  /** A message that has been appended is not appended again, and the last look comes upon an empty mailbox. */
  lemma FreshStays(s: System, a: Action, t: nat, m: nat)
    requires Inv(s) && Enabled(s, a) && Posted(s, t, m)
    requires Late(s, t) ==> m !in s.tasks[t].mbox.linked
    ensures Posted(Next(s, a), t, m)
    ensures Late(Next(s, a), t) ==> m !in Next(s, a).tasks[t].mbox.linked
  {
    hide Inv, Enabled, Next, Late, Posted;
    if ByWorker(a) { PostedWorker(s, a, t, m); } else { PostedClient(s, a, t, m); }
    if Late(Next(s, a), t) && !Late(s, t) { LastLook(s, a, t); }
  }

  lemma PostedWorker(s: System, a: Action, t: nat, m: nat)
    requires Inv(s) && Enabled(s, a) && ByWorker(a) && Posted(s, t, m)
    ensures t < |s.tasks| && Posted(Next(s, a), t, m) && t < |Next(s, a).tasks|
    ensures m in Next(s, a).tasks[t].mbox.linked ==> m in s.tasks[t].mbox.linked
  {
  }

  lemma PostedClient(s: System, a: Action, t: nat, m: nat)
    requires Inv(s) && Enabled(s, a) && !ByWorker(a) && Posted(s, t, m)
    ensures t < |s.tasks| && Posted(Next(s, a), t, m) && t < |Next(s, a).tasks|
    ensures m in Next(s, a).tasks[t].mbox.linked ==> m in s.tasks[t].mbox.linked
  {
    hide Inv, Rousing, QueueOk, BoxOk, OwnerOk, MsgOk, Distinct, MayRun;
    var f := FocusOf(s, a);
    InvMeans(s, f.w, f.c, f.t, f.m);
  }

  lemma LastLook(s: System, a: Action, t: nat)
    requires Inv(s) && Enabled(s, a) && t < |s.tasks| && t < |Next(s, a).tasks| && !Late(s, t) && Late(Next(s, a), t)
    ensures Next(s, a).tasks[t].mbox.linked == []
  {
    hide Inv, Enabled, Next;
    if ByWorker(a) {
      LooksLast(s, a, t);
    } else {
      ClientLeaves(s, a, t);
    }
  }

  lemma LooksLast(s: System, a: Action, t: nat)
    requires Inv(s) && Enabled(s, a) && ByWorker(a) && t < |s.tasks| && !Late(s, t) && t < |Next(s, a).tasks|
    requires Late(Next(s, a), t)
    ensures Next(s, a).tasks[t].mbox.linked == []
  {
    hide Inv, Enabled, Next, Gone;
    var s' := Next(s, a);
    OnlyFetches(s, a, t);
    if w :| 0 <= w < |s'.workers| && s'.workers[w] == Closing(t) {
      assert s.workers[w] != Closing(t);
      NewlyClosing(s, a, t);
    } else {
      NewlyGone(s, a, t);
    }
  }

  lemma NewlyClosing(s: System, a: Action, t: nat)
    requires Enabled(s, a) && ByWorker(a) && Next(s, a).workers[a.w] == Closing(t)
    ensures t < |Next(s, a).tasks| && Next(s, a).tasks[t].mbox.linked == []
  {
  }

  lemma NewlyGone(s: System, a: Action, t: nat)
    requires Inv(s) && Enabled(s, a) && ByWorker(a) && t < |s.tasks| && !Gone(s.tasks[t])
    requires t < |Next(s, a).tasks| && Gone(Next(s, a).tasks[t])
    ensures a.w < |s.workers| && s.workers[a.w] == Closing(t)
  {
    hide Inv, Rousing, QueueOk, BoxOk, MsgOk, ClientOk, Distinct;
    var f := FocusOf(s, a);
    InvMeans(s, f.w, f.c, f.t, |s.msgs|);
  }

  // ---------- The fate of a message ----------

  lemma Appended(s: System, a: Action)
    requires Inv(s) && Enabled(s, a) && a.Append?
    ensures var pc := s.clients[a.c];
      && pc.t < |s.tasks| && pc.m < |s.msgs| && Posted(Next(s, a), pc.t, pc.m)
      && pc.m in Next(s, a).tasks[pc.t].mbox.linked && (Late(Next(s, a), pc.t) <==> Late(s, pc.t))
  {
    hide Inv, Rousing, QueueOk, BoxOk, MsgOk, OwnerOk, Distinct;
    InvMeans(s, |s.workers|, a.c, |s.tasks|, |s.msgs|);
  }

  lemma {:induction false} LateSince(run: seq<System>, actions: seq<Action>, i: nat, j: nat, t: nat, m: nat)
    requires IsRun(run, actions) && i <= j < |run| && t < |run[i].tasks| && Late(run[i], t)
    requires m in run[i].tasks[t].mbox.linked
    ensures t < |run[j].tasks| && Late(run[j], t) && m in run[j].tasks[t].mbox.linked
    decreases j - i
  {
    hide Inv, Enabled, Next, Late;
    if i < j {
      LateSince(run, actions, i, j - 1, t, m);
      RunKeeps(run, actions, j - 1);
      assert run[(j - 1) + 1] == Next(run[j - 1], actions[j - 1]);
      LateStays(run[j - 1], actions[j - 1], t);
    }
  }

  lemma {:induction false} FreshSince(run: seq<System>, actions: seq<Action>, i: nat, j: nat, t: nat, m: nat)
    requires IsRun(run, actions) && i <= j < |run| && Posted(run[i], t, m) && !Late(run[i], t)
    ensures Posted(run[j], t, m) && (Late(run[j], t) ==> m !in run[j].tasks[t].mbox.linked)
    decreases j - i
  {
    hide Inv, Enabled, Next, Late;
    if i < j {
      FreshSince(run, actions, i, j - 1, t, m);
      RunKeeps(run, actions, j - 1);
      assert run[(j - 1) + 1] == Next(run[j - 1], actions[j - 1]);
      FreshStays(run[j - 1], actions[j - 1], t, m);
    }
  }

  /** A message that is appended after the task's last look is never taken and never answered. */
  lemma LateIsLost(run: seq<System>, actions: seq<Action>, i: nat, j: nat)
    requires IsRun(run, actions) && i < j < |run| && actions[i].Append?
    requires run[i].clients[actions[i].c].t < |run[i].tasks| && Late(run[i], run[i].clients[actions[i].c].t)
    ensures var pc := run[i].clients[actions[i].c];
      && pc.t < |run[j].tasks| && pc.m in run[j].tasks[pc.t].mbox.linked
      && pc.m < |run[j].msgs| && !Replied(run[j].msgs[pc.m].letter)
  {
    hide Inv, Next, Late;
    var pc := run[i].clients[actions[i].c];
    RunKeeps(run, actions, i);
    assert run[i + 1] == Next(run[i], actions[i]);
    Appended(run[i], actions[i]);
    LateSince(run, actions, i + 1, j, pc.t, pc.m);
    RunKeeps(run, actions, j);
    LinkedWaits(run[j], pc.t, pc.m);
  }

  /** A message that is appended before the task's last look does not stay in the mailbox of a dead task. */
  lemma InTime(run: seq<System>, actions: seq<Action>, i: nat, j: nat)
    requires IsRun(run, actions) && i < j < |run| && actions[i].Append?
    requires run[i].clients[actions[i].c].t < |run[i].tasks| && !Late(run[i], run[i].clients[actions[i].c].t)
    ensures var pc := run[i].clients[actions[i].c];
      Posted(run[j], pc.t, pc.m) && (Late(run[j], pc.t) ==> pc.m !in run[j].tasks[pc.t].mbox.linked)
  {
    hide Inv, Next, Late;
    RunKeeps(run, actions, i);
    assert run[i + 1] == Next(run[i], actions[i]);
    Appended(run[i], actions[i]);
    FreshSince(run, actions, i + 1, j, run[i].clients[actions[i].c].t, run[i].clients[actions[i].c].m);
  }

  /** Every send of every run: once the pool is at rest, its message is unanswered if and only if it was appended after
      the task's last look into its mailbox. */
  lemma LateExactly(run: seq<System>, actions: seq<Action>, i: nat, j: nat)
    requires IsRun(run, actions) && i < j < |run| && actions[i].Append? && AtRest(run[j])
    ensures var pc := run[i].clients[actions[i].c];
      && pc.t < |run[i].tasks| && pc.m < |run[j].msgs|
      && (!Replied(run[j].msgs[pc.m].letter) <==> Late(run[i], pc.t))
  {
    hide Inv, Next, Late, AtRest;
    var pc := run[i].clients[actions[i].c];
    RunKeeps(run, actions, i);
    Appended(run[i], actions[i]);
    if Late(run[i], pc.t) {
      LateIsLost(run, actions, i, j);
    } else {
      InTime(run, actions, i, j);
      Reached(run, actions, j);
      RestingMessage(run[j], pc.m);
      if Gone(run[j].tasks[pc.t]) { GoneIsLate(run[j], pc.t); }
    }
  }

  lemma Reached(run: seq<System>, actions: seq<Action>, j: nat)
    requires IsRun(run, actions) && j < |run|
    ensures Reachable(run[j])
  {
    hide Enabled, Next, Initial;
    var run', actions' := run[..j + 1], actions[..j];
    assert IsRun(run', actions') && run'[|run'| - 1] == run[j];
  }

  /** A sender that notifies finds the task alive as long as its message, appended in time, has not been taken. */
  lemma NotifySafe(run: seq<System>, actions: seq<Action>, i: nat, j: nat)
    requires IsRun(run, actions) && i < j < |run| && actions[i].Append?
    requires run[i].clients[actions[i].c].t < |run[i].tasks| && !Late(run[i], run[i].clients[actions[i].c].t)
    ensures var pc := run[i].clients[actions[i].c];
      && pc.t < |run[j].tasks|
      && (pc.m in run[j].tasks[pc.t].mbox.linked ==> !Gone(run[j].tasks[pc.t]))
  {
    hide Inv, Next, Late;
    InTime(run, actions, i, j);
    var t := run[i].clients[actions[i].c].t;
    if Gone(run[j].tasks[t]) { GoneIsLate(run[j], t); }
  }
}
