/** What a wake-up finds: when a task runs without a message, and when the re-check of an idle task is safe. */
module SchedulerWakes {
  import opened Mailboxes
  import opened Scheduler
  import opened SchedulerInvariant
  import opened SchedulerTheorems

  // ---------- Wake-ups ----------

  /** The action notifies task `t` and finds it idle. */
  predicate Wakes(s: System, a: Action, t: nat)
    requires Enabled(s, a)
  {
    && t < |s.tasks| && s.tasks[t].state.TASK_IDLE?
    && ((a.Notify? && s.clients[a.c].t == t) || (a.Renotify? && s.workers[a.w].t == t))
  }

  /** A task that the action wakes has mail: the test that process_notify_task does not make. */
  predicate FindsMail(s: System, a: Action)
    requires Enabled(s, a)
  {
    forall t :: 0 <= t < |s.tasks| && Wakes(s, a, t) ==> s.tasks[t].mbox.linked != []
  }

  /** A task is loaded by its first start, and is new until then. */
  predicate LoadedOk(s: System) {
    forall t :: 0 <= t < |s.tasks| ==> (s.tasks[t].state.TASK_INIT? <==> !s.tasks[t].loaded)
  }

  // ---------- What a step does to a task and to a worker ----------

  /** The worker of `a` takes a message from the mailbox of `t`. */
  predicate Fetches(s: System, a: Action, t: nat)
    requires Enabled(s, a)
  {
    (a.Receive? || a.Drain?) && s.workers[a.w].t == t
  }

  /** Only a wake-up makes a task wait and ends its idling, only its first start loads it, and only a fetch shortens
      its mailbox. */
  predicate TaskEffect(s: System, a: Action, k: Task, k': Task, t: nat)
    requires Enabled(s, a)
  {
    && (k'.state.TASK_WAITING? ==> k.state.TASK_WAITING? || Wakes(s, a, t))
    && (k.state.TASK_IDLE? ==> k'.state.TASK_IDLE? || Wakes(s, a, t))
    && ((k.state.TASK_INIT? <==> !k.loaded) ==> (k'.state.TASK_INIT? <==> !k'.loaded))
    && (!Fetches(s, a, t) ==> k'.mbox.taken == k.mbox.taken && (k.mbox.linked != [] ==> k'.mbox.linked != []))
    && (Fetches(s, a, t) ==> k'.state == k.state && (k.state.TASK_PROCESSING? || k.state.TASK_DEAD?))
  }

  /** Only a start leads to the mailbox, and only an empty mailbox to an evaluation without a message. */
  predicate WorkerEffect(s: System, pc: WorkerPc, pc': WorkerPc) {
    && (pc'.Receiving? ==> pc'.t < |s.tasks| && (pc' == pc || (pc == Popped(pc'.t) && s.tasks[pc'.t].loaded)))
    && (pc'.Evaluating? && pc'.msg.None? ==>
          pc' == pc || (pc == Receiving(pc'.t) && pc'.t < |s.tasks| && s.tasks[pc'.t].mbox.linked == []))
  }

  predicate Effects(s: System, a: Action, s': System)
    requires Enabled(s, a)
  {
    && |s.tasks| <= |s'.tasks| && |s'.workers| == |s.workers|
    && (forall t :: 0 <= t < |s.tasks| ==> TaskEffect(s, a, s.tasks[t], s'.tasks[t], t))
    && (forall t :: |s.tasks| <= t < |s'.tasks| ==> s'.tasks[t].state.TASK_INIT? && !s'.tasks[t].loaded)
    && (forall w :: 0 <= w < |s.workers| ==> WorkerEffect(s, s.workers[w], s'.workers[w]))
  }

  lemma FetchEffects(s: System, a: Action)
    requires Inv(s) && Enabled(s, a) && (a.Receive? || a.Drain?)
    ensures Effects(s, a, Next(s, a))
  {
    hide Inv, Rousing, BoxOk, MsgOk, ClientOk, QueueOk, Distinct;
    var f := FocusOf(s, a);
    InvMeans(s, f.w, f.c, f.t, |s.msgs|);
    WorkersInRange(s);
  }

  lemma MessageEffects(s: System, a: Action)
    requires Inv(s) && Enabled(s, a) && OnMessage(a) && !a.Receive? && !a.Drain?
    ensures Effects(s, a, Next(s, a))
  {
    hide Inv, Rousing, BoxOk, MsgOk, ClientOk, QueueOk, Distinct;
    var f := FocusOf(s, a);
    InvMeans(s, f.w, f.c, f.t, |s.msgs|);
    WorkersInRange(s);
  }

  lemma WorkerEffects(s: System, a: Action)
    requires Inv(s) && Enabled(s, a) && ByWorker(a) && !OnMessage(a)
    ensures Effects(s, a, Next(s, a))
  {
    hide Inv, Rousing, BoxOk, MsgOk, ClientOk, QueueOk, Distinct;
    var f := FocusOf(s, a);
    InvMeans(s, f.w, f.c, f.t, |s.msgs|);
    WorkersInRange(s);
  }

  lemma ClientEffects(s: System, a: Action)
    requires Inv(s) && Enabled(s, a) && !ByWorker(a)
    ensures Effects(s, a, Next(s, a))
  {
    hide Inv, Rousing, BoxOk, MsgOk, QueueOk, Distinct, MayRun;
    var f := FocusOf(s, a);
    InvMeans(s, f.w, f.c, f.t, |s.msgs|);
    WorkersInRange(s);
  }

  lemma WorkersInRange(s: System)
    requires Inv(s)
    ensures forall w :: 0 <= w < |s.workers| ==> InRange(s, s.workers[w])
  {
    hide TasksOk, QueueOk, ClientsOk, BoxesOk, MsgsOk, NoneOverslept;
    forall w | 0 <= w < |s.workers| ensures InRange(s, s.workers[w]) { assert WorkerOk(s, w); }
  }

  lemma StepEffects(s: System, a: Action)
    requires Inv(s) && Enabled(s, a)
    ensures Effects(s, a, Next(s, a))
  {
    hide Inv, Enabled, Next, Effects;
    if a.Receive? || a.Drain? {
      FetchEffects(s, a);
    } else if OnMessage(a) {
      MessageEffects(s, a);
    } else if ByWorker(a) {
      WorkerEffects(s, a);
    } else {
      ClientEffects(s, a);
    }
  }

  lemma LoadedKeeps(s: System, a: Action)
    requires Inv(s) && LoadedOk(s) && Enabled(s, a)
    ensures LoadedOk(Next(s, a))
  {
    hide Inv, Enabled, Next, Wakes, Fetches;
    StepEffects(s, a);
    var s' := Next(s, a);
    forall t | 0 <= t < |s'.tasks| ensures s'.tasks[t].state.TASK_INIT? <==> !s'.tasks[t].loaded {
      assert t < |s.tasks| ==> TaskEffect(s, a, s.tasks[t], s'.tasks[t], t);
    }
  }

  lemma {:induction false} RunLoaded(run: seq<System>, actions: seq<Action>, i: nat)
    requires IsRun(run, actions) && i < |run|
    ensures Inv(run[i]) && LoadedOk(run[i])
  {
    hide Inv, Enabled, Next;
    RunKeeps(run, actions, i);
    if i > 0 {
      RunLoaded(run, actions, i - 1);
      assert run[(i - 1) + 1] == Next(run[i - 1], actions[i - 1]);
      LoadedKeeps(run[i - 1], actions[i - 1]);
    }
  }

  // ---------- Nobody runs without a message ----------

  /** Whoever is on the way to its mailbox has mail, and nobody evaluates without a message. */
  predicate Fed(s: System) {
    && (forall t :: 0 <= t < |s.tasks| && s.tasks[t].state.TASK_WAITING? ==> s.tasks[t].mbox.linked != [])
    && (forall w :: 0 <= w < |s.workers| ==> WorkerFed(s, s.workers[w]))
  }

  predicate WorkerFed(s: System, pc: WorkerPc) {
    && (pc.Receiving? && pc.t < |s.tasks| ==> s.tasks[pc.t].mbox.linked != [])
    && (pc.Evaluating? ==> pc.msg.Some?)
  }

  /** A worker that has popped a loaded task, or looks for its message, holds it as its state says. */
  lemma HeldState(s: System, w: nat)
    requires Inv(s) && LoadedOk(s) && w < |s.workers|
    ensures var pc := s.workers[w];
      && (pc.Popped? || pc.Receiving? ==> pc.t < |s.tasks| && s.tasks[pc.t].owner == Worker(w))
      && (pc.Popped? && s.tasks[pc.t].loaded ==> s.tasks[pc.t].state.TASK_WAITING?)
      && (pc.Receiving? ==> s.tasks[pc.t].state.TASK_PROCESSING?)
  {
    hide Inv, Rousing, BoxOk, QueueOk;
    InvMeans(s, w, |s.clients|, |s.tasks|, |s.msgs|);
    var pc := s.workers[w];
    InvMeans(s, w, |s.clients|, if pc.AtPool? then |s.tasks| else pc.t, |s.msgs|);
  }

  lemma FedKeeps(s: System, a: Action)
    requires Inv(s) && LoadedOk(s) && Fed(s) && Enabled(s, a) && FindsMail(s, a)
    ensures Fed(Next(s, a))
  {
    hide Inv, Enabled, Next, Wakes, LoadedOk;
    StepEffects(s, a);
    var s' := Next(s, a);
    forall t | 0 <= t < |s'.tasks| && s'.tasks[t].state.TASK_WAITING? ensures s'.tasks[t].mbox.linked != [] {
      assert t < |s.tasks| ==> TaskEffect(s, a, s.tasks[t], s'.tasks[t], t);
    }
    forall w | 0 <= w < |s'.workers| ensures WorkerFed(s', s'.workers[w]) {
      var pc, pc' := s.workers[w], s'.workers[w];
      assert WorkerFed(s, pc) && WorkerEffect(s, pc, pc');
      HeldState(s, w);
      if pc'.Receiving? {
        assert TaskEffect(s, a, s.tasks[pc'.t], s'.tasks[pc'.t], pc'.t);
        if Fetches(s, a, pc'.t) { FetcherLeaves(s, a, w); }
      }
    }
  }

  /** A worker that has a mailbox in its hands from which something is fetched is the one that fetches, and moves on. */
  lemma FetcherLeaves(s: System, a: Action, w: nat)
    requires Inv(s) && Enabled(s, a) && w < |s.workers| && (s.workers[w].Receiving? || s.workers[w].Popped?)
    requires Fetches(s, a, s.workers[w].t)
    ensures w < |Next(s, a).workers| && !Next(s, a).workers[w].Receiving?
  {
    hide Inv, Rousing, BoxOk, QueueOk;
    InvMeans(s, w, |s.clients|, |s.tasks|, |s.msgs|);
    InvMeans(s, a.w, |s.clients|, |s.tasks|, |s.msgs|);
  }

  /** When every wake-up finds mail, no task of the run is ever evaluated without a message. */
  lemma {:induction false} NoEmptyRuns(run: seq<System>, actions: seq<Action>, i: nat)
    requires IsRun(run, actions) && i < |run|
    requires forall j :: 0 <= j < |actions| ==> FindsMail(run[j], actions[j])
    ensures Fed(run[i])
    ensures forall w :: 0 <= w < |run[i].workers| && run[i].workers[w].Evaluating? ==> run[i].workers[w].msg.Some?
  {
    hide Inv, Enabled, Next, FindsMail;
    if i > 0 {
      NoEmptyRuns(run, actions, i - 1);
      RunLoaded(run, actions, i - 1);
      assert run[(i - 1) + 1] == Next(run[i - 1], actions[i - 1]);
      FedKeeps(run[i - 1], actions[i - 1]);
    }
    assert Fed(run[i]);
  }

  // ---------- The last wake-up ----------

  /** The task has been woken and its mail not been fetched. */
  ghost predicate Awake(s: System, t: nat) {
    && t < |s.tasks|
    && (s.tasks[t].state.TASK_WAITING? || exists w :: 0 <= w < |s.workers| && s.workers[w] == Receiving(t))
  }

  lemma AwakeStep(s: System, a: Action, t: nat)
    requires Inv(s) && LoadedOk(s) && Enabled(s, a) && Awake(Next(s, a), t) && !Wakes(s, a, t)
    ensures Awake(s, t) && Next(s, a).tasks[t].mbox.taken == s.tasks[t].mbox.taken
  {
    hide Inv, Enabled, Next, Wakes, LoadedOk;
    StepEffects(s, a);
    var s' := Next(s, a);
    if s'.tasks[t].state.TASK_WAITING? {
      assert t < |s.tasks| ==> TaskEffect(s, a, s.tasks[t], s'.tasks[t], t);
    } else {
      var w :| 0 <= w < |s'.workers| && s'.workers[w] == Receiving(t);
      assert WorkerEffect(s, s.workers[w], s'.workers[w]);
      HeldState(s, w);
      assert s.workers[w] == Receiving(t) || s.tasks[t].state.TASK_WAITING?;
      assert TaskEffect(s, a, s.tasks[t], s'.tasks[t], t);
      if Fetches(s, a, t) { FetcherLeaves(s, a, w); }
    }
  }

  lemma WakeStep(s: System, a: Action, t: nat)
    requires Enabled(s, a) && Wakes(s, a, t)
    ensures t < |Next(s, a).tasks| && Next(s, a).tasks[t].mbox == s.tasks[t].mbox
  {
  }

  /** The last step before `i` that woke task `t`. */
  ghost function LastWake(run: seq<System>, actions: seq<Action>, i: nat, t: nat): Option<nat>
    requires IsRun(run, actions) && i < |run|
  {
    if i == 0 then None
    else if Wakes(run[i - 1], actions[i - 1], t) then Some(i - 1)
    else LastWake(run, actions, i - 1, t)
  }

  /** Since a task was last woken nothing has been taken from its mailbox. */
  lemma {:induction false} AwakeSince(run: seq<System>, actions: seq<Action>, i: nat, t: nat)
    requires IsRun(run, actions) && i < |run| && Awake(run[i], t)
    ensures var last := LastWake(run, actions, i, t);
      && last.Some? && last.value < i && t < |run[last.value].tasks|
      && run[i].tasks[t].mbox.taken == run[last.value].tasks[t].mbox.taken
  {
    hide Inv, Enabled, Next, Awake, Wakes;
    if i > 0 {
      var s, a := run[i - 1], actions[i - 1];
      assert run[(i - 1) + 1] == Next(s, a);
      if Wakes(s, a, t) {
        WakeStep(s, a, t);
        WokenExists(s, a, t);
      } else {
        RunLoaded(run, actions, i - 1);
        AwakeStep(s, a, t);
        AwakeSince(run, actions, i - 1, t);
      }
    } else {
      NoneAwake(run[0], t);
    }
  }

  lemma WokenExists(s: System, a: Action, t: nat)
    requires Enabled(s, a) && Wakes(s, a, t)
    ensures t < |s.tasks|
  {
  }

  lemma NoneAwake(s: System, t: nat)
    requires Initial(s)
    ensures !Awake(s, t)
  {
  }

  /** A worker that looks into a mailbox finds no message exactly when the last wake-up of the task found the mailbox
      empty and nothing has been appended since. */
  lemma EmptyReceive(run: seq<System>, actions: seq<Action>, i: nat)
    requires IsRun(run, actions) && i < |actions| && actions[i].Receive?
    ensures var w := actions[i].w; var t := run[i].workers[w].t; var last := LastWake(run, actions, i, t);
      && last.Some? && last.value < i && t < |run[i].tasks| && t < |run[last.value].tasks|
      && (run[i + 1].workers[w] == Evaluating(t, None)
          <==> run[last.value].tasks[t].mbox.linked == []
               && run[i].tasks[t].mbox.appended == run[last.value].tasks[t].mbox.appended)
  {
    var w := actions[i].w;
    var t := run[i].workers[w].t;
    assert run[i].workers[w] == Receiving(t) && run[i + 1] == Next(run[i], actions[i]);
    assert Awake(run[i], t);
    AwakeSince(run, actions, i, t);
    var j := LastWake(run, actions, i, t).value;
    RunOnward(run, actions, j, i);
    RunKeeps(run, actions, i);
    RunKeeps(run, actions, j);
    MailSince(run[j], run[i], t);
  }

  lemma MailSince(s: System, s': System, t: nat)
    requires Inv(s) && Inv(s') && Onward(s, s') && t < |s.tasks|
    requires s'.tasks[t].mbox.taken == s.tasks[t].mbox.taken
    ensures s'.tasks[t].mbox.linked == [] <==>
            s.tasks[t].mbox.linked == [] && s'.tasks[t].mbox.appended == s.tasks[t].mbox.appended
  {
    hide Inv;
    InvMeans(s, |s.workers|, |s.clients|, t, |s.msgs|);
    InvMeans(s', |s'.workers|, |s'.clients|, t, |s'.msgs|);
    var b, b' := s.tasks[t].mbox, s'.tasks[t].mbox;
    assert b.appended <= b'.appended;
    assert |b.appended| == |b.taken| + |b.linked| && |b'.appended| == |b'.taken| + |b'.linked|;
  }

  // ---------- The re-check ----------

  lemma IdleStays(s: System, a: Action, t: nat)
    requires Inv(s) && Enabled(s, a) && t < |s.tasks| && s.tasks[t].state.TASK_IDLE? && !Wakes(s, a, t)
    ensures t < |Next(s, a).tasks| && Next(s, a).tasks[t].state.TASK_IDLE?
  {
    hide Inv, Enabled, Next, Wakes;
    StepEffects(s, a);
    assert TaskEffect(s, a, s.tasks[t], Next(s, a).tasks[t], t);
  }

  lemma IdleLives(s: System, t: nat)
    requires Inv(s) && t < |s.tasks| && s.tasks[t].state.TASK_IDLE?
    ensures s.tasks[t].mbox.closed < 2
  {
    assert BoxOk(s, t);
  }

  lemma GoesIdle(s: System, a: Action)
    requires Enabled(s, a) && a.GoIdle?
    ensures var t := s.workers[a.w].t; t < |Next(s, a).tasks| && Next(s, a).tasks[t].state.TASK_IDLE?
  {
  }

  lemma {:induction false} IdleSince(run: seq<System>, actions: seq<Action>, i: nat, j: nat, t: nat)
    requires IsRun(run, actions) && i <= j < |run| && t < |run[i].tasks| && run[i].tasks[t].state.TASK_IDLE?
    requires forall k :: i <= k < j ==> !Wakes(run[k], actions[k], t)
    ensures t < |run[j].tasks| && run[j].tasks[t].state.TASK_IDLE?
    decreases j - i
  {
    hide Inv, Next, Enabled, Wakes;
    if i < j {
      IdleSince(run, actions, i, j - 1, t);
      RunKeeps(run, actions, j - 1);
      assert run[(j - 1) + 1] == Next(run[j - 1], actions[j - 1]);
      IdleStays(run[j - 1], actions[j - 1], t);
    }
  }

  /** As long as nobody has woken the task since it became idle, the worker that re-checks it finds task and mailbox
      alive. */
  lemma RecheckSafe(run: seq<System>, actions: seq<Action>, i: nat, j: nat)
    requires IsRun(run, actions) && i < j < |run| && actions[i].GoIdle?
    requires forall k :: i < k < j ==> !Wakes(run[k], actions[k], run[i].workers[actions[i].w].t)
    ensures var t := run[i].workers[actions[i].w].t;
      t < |run[j].tasks| && run[j].tasks[t].state.TASK_IDLE? && run[j].tasks[t].mbox.closed < 2
  {
    hide Inv, Next, Wakes;
    var t := run[i].workers[actions[i].w].t;
    assert run[i + 1] == Next(run[i], actions[i]);
    GoesIdle(run[i], actions[i]);
    IdleSince(run, actions, i + 1, j, t);
    RunKeeps(run, actions, j);
    IdleLives(run[j], t);
  }
}
