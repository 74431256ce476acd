/** Who can move: a worker inside a task's code waits with it, and a pool in which all workers wait is stuck. */
module SchedulerProgress {
  import opened Mailboxes
  import opened Scheduler
  import opened SchedulerInvariant
  import opened SchedulerTheorems

  // ---------- A task's Lua state keeps its worker ----------

  /** While the Lua state of a task is in the middle of something, a worker is inside the task's code. */
  ghost predicate Hosted(s: System) {
    forall t :: 0 <= t < |s.tasks| && s.tasks[t].client < |s.clients| && !s.clients[s.tasks[t].client].Free? ==>
      exists w :: 0 <= w < |s.workers| && Evaluates(s.workers[w], t)
  }

  lemma WorkerHosts(s: System, a: Action)
    requires Inv(s) && Hosted(s) && Enabled(s, a) && ByWorker(a)
    ensures Hosted(Next(s, a))
  {
    hide Inv, Enabled, Next;
    var s' := Next(s, a);
    WorkerFrame(s, a);
    forall t | 0 <= t < |s'.tasks| && s'.tasks[t].client < |s'.clients| && !s'.clients[s'.tasks[t].client].Free?
      ensures exists w :: 0 <= w < |s'.workers| && Evaluates(s'.workers[w], t)
    {
      var w :| 0 <= w < |s.workers| && Evaluates(s.workers[w], t);
      if w == a.w { EvaluationEnds(s, a, t); }
      assert Evaluates(s'.workers[w], t);
    }
  }

  /** A worker's step leaves the clients and the other workers alone. */
  lemma WorkerFrame(s: System, a: Action)
    requires Enabled(s, a) && ByWorker(a)
    ensures var s' := Next(s, a);
      && s'.clients == s.clients && |s'.tasks| == |s.tasks| && |s'.workers| == |s.workers|
      && (forall t :: 0 <= t < |s.tasks| ==> s'.tasks[t].client == s.tasks[t].client)
      && (forall w :: 0 <= w < |s.workers| && w != a.w ==> s'.workers[w] == s.workers[w])
  {
  }

  /** A worker leaves the code of a task only when the task's Lua state is done. */
  lemma EvaluationEnds(s: System, a: Action, t: nat)
    requires Enabled(s, a) && ByWorker(a) && a.w < |s.workers| && Evaluates(s.workers[a.w], t)
    ensures t < |s.tasks| && s.tasks[t].client < |s.clients| && s.clients[s.tasks[t].client].Free?
  {
  }

  lemma ClientHosts(s: System, a: Action)
    requires Inv(s) && Hosted(s) && Enabled(s, a) && !ByWorker(a)
    ensures Hosted(Next(s, a))
  {
    hide Inv;
    var s' := Next(s, a);
    forall t | 0 <= t < |s'.tasks| && s'.tasks[t].client < |s'.clients| && !s'.clients[s'.tasks[t].client].Free?
      ensures exists w :: 0 <= w < |s'.workers| && Evaluates(s'.workers[w], t)
    {
      var c := s'.tasks[t].client;
      assert t < |s.tasks| && s.tasks[t].client == c && s'.workers == s.workers;
      assert OwnerOk(s, t) by { InvMeans(s, |s.workers|, |s.clients|, t, |s.msgs|); }
      if s.clients[c].Free? { assert a.c == c && MayRun(s, c, false); }
      var w :| 0 <= w < |s.workers| && Evaluates(s.workers[w], t);
      assert Evaluates(s'.workers[w], t);
    }
  }

  lemma {:induction false} RunHosts(run: seq<System>, actions: seq<Action>, i: nat)
    requires IsRun(run, actions) && i < |run|
    ensures Hosted(run[i])
  {
    hide Inv, Enabled, Next;
    if i > 0 {
      RunHosts(run, actions, i - 1);
      RunKeeps(run, actions, i - 1);
      assert run[(i - 1) + 1] == Next(run[i - 1], actions[i - 1]);
      if ByWorker(actions[i - 1]) {
        WorkerHosts(run[i - 1], actions[i - 1]);
      } else {
        ClientHosts(run[i - 1], actions[i - 1]);
      }
    }
  }

  lemma ReachableHosted(s: System)
    requires Reachable(s)
    ensures Inv(s) && Hosted(s)
  {
    hide Inv, Hosted;
    ReachableOk(s);
    var run, actions :| IsRun(run, actions) && run[|run| - 1] == s;
    RunHosts(run, actions, |run| - 1);
  }

  // ---------- Who can move ----------

  ghost predicate WorkerMoves(s: System, w: nat) { exists a :: ByWorker(a) && a.w == w && Enabled(s, a) }

  ghost predicate ClientMoves(s: System, c: nat) { exists a :: !ByWorker(a) && a.c == c && Enabled(s, a) }

  /** A client waits for a message that has not been replied to. */
  predicate Unanswered(s: System, pc: ClientPc) { pc.Waiting? && pc.m < |s.msgs| && !Replied(s.msgs[pc.m].letter) }

  /** The Lua state of the task that worker `w` evaluates is in the middle of something. */
  predicate Busy(s: System, w: nat)
    requires w < |s.workers|
  {
    var pc := s.workers[w];
    (pc.FirstRun? || pc.Evaluating?) && pc.t < |s.tasks| && s.tasks[pc.t].client < |s.clients|
    && !s.clients[s.tasks[pc.t].client].Free?
  }

  /** A worker has a next step unless it is at the pool with nothing queued, or inside the code of a task whose Lua
      state has not come back. */
  lemma WorkerMovesExactly(s: System, w: nat)
    requires Reachable(s) && w < |s.workers|
    ensures WorkerMoves(s, w) <==> !(s.workers[w].AtPool? && s.queue == []) && !Busy(s, w)
  {
    hide Inv, Rousing, Reachable;
    ReachableOk(s);
    var pc := s.workers[w];
    InvMeans(s, w, |s.clients|, if pc.AtPool? then |s.tasks| else pc.t, |s.msgs|);
    var a := NextOf(w, pc);
    assert WorkerMoves(s, w) ==> Enabled(s, a);
    assert Enabled(s, a) <==> !(pc.AtPool? && s.queue == []) && !Busy(s, w);
  }

  /** The step of a worker; how an evaluation ends is up to the task. */
  function NextOf(w: nat, pc: WorkerPc): (a: Action)
    ensures ByWorker(a) && a.w == w
  {
    match pc
    case AtPool => Pop(w)
    case Popped(_) => Start(w)
    case FirstRun(_) => Finish(w, true, 0)
    case Receiving(_) => Receive(w)
    case Received(_, _) => TakeContent(w)
    case Evaluating(_, _) => Finish(w, true, 0)
    case Answering(_, _, _) => Action.Answer(w)
    case Releasing(_, _, _) => ReleaseAnswered(w)
    case Deciding(_, survives) => if survives then GoIdle(w) else Die(w)
    case Peeking(_) => Peek(w)
    case Renotifying(_) => Renotify(w)
    case Repushing(_) => Repush(w)
    case Draining(_) => Drain(w)
    case Refusing(_, _) => Refuse(w)
    case Discarding(_, _) => Discard(w)
    case Closing(_) => Close(w)
  }

  /** A client in the middle of something has a next step unless it waits for an answer that is not there. */
  lemma ClientMovesExactly(s: System, c: nat)
    requires Reachable(s) && c < |s.clients| && !s.clients[c].Free?
    ensures ClientMoves(s, c) <==> !Unanswered(s, s.clients[c])
  {
    hide Inv, Rousing, Reachable;
    ReachableHosted(s);
    var pc := s.clients[c];
    InvMeans(s, |s.workers|, c, |s.tasks|, |s.msgs|);
    assert MayRun(s, c, false);
    var a := match pc
      case Pushing(_) => Push(c)
      case Appending(_, _) => Append(c)
      case Notifying(_) => Notify(c)
      case Waiting(_) => Wake(c)
      case _ => ReadAnswer(c);
    assert ClientMoves(s, c) ==> Enabled(s, a);
    assert Enabled(s, a) <==> !Unanswered(s, pc);
  }

  // ---------- When the pool is stuck ----------

  /** Nothing that has begun can go on. */
  ghost predicate Stuck(s: System) {
    && (forall w :: 0 <= w < |s.workers| ==> !WorkerMoves(s, w))
    && (forall c :: 0 <= c < |s.clients| && !s.clients[c].Free? ==> !ClientMoves(s, c))
  }

  /** Worker `w` is inside the code of a task that waits for an answer. */
  predicate Blocked(s: System, w: nat)
    requires w < |s.workers|
  {
    Busy(s, w) && Unanswered(s, s.clients[s.tasks[s.workers[w].t].client])
  }

  ghost predicate AllBlocked(s: System) { forall w :: 0 <= w < |s.workers| ==> Blocked(s, w) }

  /** The pool is stuck exactly when every worker is idle with nothing queued or blocked in a task that waits, and
      every client is done or waits for an answer that is not there. */
  lemma StuckExactly(s: System)
    requires Reachable(s)
    ensures Stuck(s) <==>
      && (forall w :: 0 <= w < |s.workers| ==> (s.workers[w].AtPool? && s.queue == []) || Blocked(s, w))
      && (forall c :: 0 <= c < |s.clients| ==> s.clients[c].Free? || Unanswered(s, s.clients[c]))
  {
    hide Reachable, WorkerMoves, ClientMoves, Unanswered;
    forall w | 0 <= w < |s.workers|
      ensures WorkerMoves(s, w) <==> !(s.workers[w].AtPool? && s.queue == []) && !Busy(s, w)
    {
      WorkerMovesExactly(s, w);
    }
    forall c | 0 <= c < |s.clients| && !s.clients[c].Free?
      ensures ClientMoves(s, c) <==> !Unanswered(s, s.clients[c])
    {
      ClientMovesExactly(s, c);
    }
  }

  /** So with a task queued, a stuck pool is one in which every worker waits inside a task. */
  lemma QueuedAndStuck(s: System)
    requires Reachable(s) && Stuck(s) && s.queue != []
    ensures AllBlocked(s)
  {
    hide Reachable, Stuck;
    StuckExactly(s);
  }

  /** ... and without a blocked worker it is at rest. */
  lemma StuckAtRest(s: System)
    requires Reachable(s) && Stuck(s) && s.workers != [] && forall w :: 0 <= w < |s.workers| ==> !Blocked(s, w)
    ensures AtRest(s)
  {
    hide Reachable, Stuck, Blocked;
    StuckExactly(s);
    assert s.workers[0].AtPool?;
  }

  /** What a client of a stuck pool waits for: a message left in the mailbox of a task that is gone; one to a task
      that is queued, while every worker is blocked; or one to a task that a blocked worker has in hand. */
  lemma StuckMessage(s: System, c: nat)
    requires Reachable(s) && Stuck(s) && c < |s.clients| && s.clients[c].Waiting?
    ensures s.clients[c].m < |s.msgs| && s.msgs[s.clients[c].m].to < |s.tasks|
    ensures var m := s.clients[c].m; var t := s.msgs[m].to;
      || (m in s.tasks[t].mbox.linked && Gone(s.tasks[t]))
      || (m in s.tasks[t].mbox.linked && t in s.queue && AllBlocked(s))
      || (exists w :: 0 <= w < |s.workers| && Blocked(s, w) && Holds(s.workers[w]) == Some(t))
  {
    hide Reachable, Stuck, Inv, Blocked, Rousing;
    StuckExactly(s);
    ReachableOk(s);
    InvMeans(s, |s.workers|, c, |s.tasks|, |s.msgs|);
    var m := s.clients[c].m;
    InvMeans(s, |s.workers|, c, |s.tasks|, m);
    var g := s.msgs[m];
    InvMeans(s, |s.workers|, c, g.to, m);
    assert Unanswered(s, s.clients[c]);
    NobodyActs(s, g.to);
    match g.place {
      case Linked => StuckTask(s, g.to);
      case Carried(w) =>
        InvMeans(s, w, c, g.to, m);
        assert Blocked(s, w);
      case _ =>
    }
  }

  /** Where a task with mail is in a stuck pool. */
  lemma StuckTask(s: System, t: nat)
    requires Reachable(s) && Stuck(s) && t < |s.tasks| && s.tasks[t].mbox.linked != []
    ensures Gone(s.tasks[t])
         || (t in s.queue && AllBlocked(s))
         || (exists w :: 0 <= w < |s.workers| && Blocked(s, w) && Holds(s.workers[w]) == Some(t))
  {
    hide Reachable, Stuck, Inv, Blocked;
    StuckExactly(s);
    ReachableOk(s);
    InvMeans(s, |s.workers|, |s.clients|, t, |s.msgs|);
    NobodyActs(s, t);
    if s.tasks[t].owner.Worker? { assert Blocked(s, s.tasks[t].owner.w); }
  }

  lemma NobodyActs(s: System, t: nat)
    requires Reachable(s) && Stuck(s)
    ensures !Rousing(s, t)
    ensures forall w :: 0 <= w < |s.workers| ==> !s.workers[w].Repushing?
    ensures forall c :: 0 <= c < |s.clients| ==> !s.clients[c].Pushing? && !s.clients[c].Appending?
  {
    hide Reachable, Stuck;
    StuckExactly(s);
  }

  lemma BlockedStays(s: System, a: Action)
    requires Inv(s) && AllBlocked(s) && Enabled(s, a)
    ensures AllBlocked(Next(s, a))
  {
    hide Inv, Enabled, Next;
    if ByWorker(a) {
      BlockedWaits(s, a);
    } else {
      var s' := Next(s, a);
      ClientFrame(s, a);
      forall w | 0 <= w < |s'.workers| ensures Blocked(s', w) {
        assert Blocked(s, w);
        var c := s.tasks[s.workers[w].t].client;
        if a.c == c { UnansweredWaits(s, a); }
      }
    }
  }

  lemma BlockedWaits(s: System, a: Action)
    requires AllBlocked(s) && ByWorker(a)
    ensures !Enabled(s, a)
  {
    assert a.w < |s.workers| ==> Blocked(s, a.w);
  }

  /** A client's step leaves the workers and the other clients alone, and answers nothing. */
  lemma ClientFrame(s: System, a: Action)
    requires Enabled(s, a) && !ByWorker(a)
    ensures var s' := Next(s, a);
      && s'.workers == s.workers && |s.clients| <= |s'.clients| && |s.tasks| <= |s'.tasks| && |s.msgs| <= |s'.msgs|
      && (forall t :: 0 <= t < |s.tasks| ==> s'.tasks[t].client == s.tasks[t].client)
      && (forall c :: 0 <= c < |s.clients| && c != a.c ==> s'.clients[c] == s.clients[c])
      && (forall m :: 0 <= m < |s.msgs| ==> Replied(s'.msgs[m].letter) == Replied(s.msgs[m].letter))
  {
    hide MayRun;
  }

  lemma UnansweredWaits(s: System, a: Action)
    requires !ByWorker(a) && a.c < |s.clients| && Unanswered(s, s.clients[a.c])
    ensures !Enabled(s, a)
  {
  }

  /** When all workers wait inside tasks, none of them ever goes on: only a worker could answer. */
  lemma {:induction false} BlockedForever(run: seq<System>, actions: seq<Action>, i: nat, j: nat)
    requires IsRun(run, actions) && i <= j < |run| && AllBlocked(run[i])
    ensures AllBlocked(run[j])
    decreases j - i
  {
    hide Inv, Enabled, Next, AllBlocked;
    if i < j {
      BlockedForever(run, actions, i, j - 1);
      RunKeeps(run, actions, j - 1);
      assert run[(j - 1) + 1] == Next(run[j - 1], actions[j - 1]);
      BlockedStays(run[j - 1], actions[j - 1]);
    }
  }
}
