/** A pool that gets no new work settles: every step but a spawn, a send and a decision to wait uses up something. */
module SchedulerSettles {
  import opened Mailboxes
  import opened Scheduler
  import opened SchedulerInvariant
  import opened SchedulerTheorems
  import opened SchedulerProgress
  import opened SchedulerLate

  // ---------- Sums ----------

  function Sum(xs: seq<nat>): nat { if xs == [] then 0 else xs[0] + Sum(xs[1..]) }

  lemma {:induction false} OneChanged(a: seq<nat>, b: seq<nat>, k: nat)
    requires |a| == |b| && forall i :: 0 <= i < |a| && i != k ==> b[i] == a[i]
    ensures Sum(b) == if k < |a| then Sum(a) - a[k] + b[k] else Sum(a)
    ensures k < |a| ==> a[k] <= Sum(a)
  {
    if a != [] {
      if k == 0 {
        assert a[1..] == b[1..];
      } else {
        OneChanged(a[1..], b[1..], k - 1);
      }
    }
  }

  lemma {:induction false} Bounded(xs: seq<nat>, most: nat)
    requires forall i :: 0 <= i < |xs| ==> xs[i] <= most
    ensures Sum(xs) <= most * |xs|
  {
    if xs != [] { Bounded(xs[1..], most); }
  }

  // ---------- What is left to do ----------

  /** A message has yet to be appended, to be taken, and to be dropped by its sender. */
  function MsgWork(g: Msg): nat {
    (match g.place case Sending(_) => 2 case Linked => 1 case _ => 0) + if g.kept then 1 else 0
  }

  /** A task has yet to be loaded, and its mailbox to be dropped. */
  function TaskWork(k: Task): nat { (if k.loaded then 0 else 1) + if k.referenced then 1 else 0 }

  function MsgsWork(s: System): seq<nat> { seq(|s.msgs|, i requires 0 <= i < |s.msgs| => MsgWork(s.msgs[i])) }

  function TasksWork(s: System): seq<nat> { seq(|s.tasks|, i requires 0 <= i < |s.tasks| => TaskWork(s.tasks[i])) }

  /** What can happen only once. */
  function Work(s: System): nat { Sum(MsgsWork(s)) + Sum(TasksWork(s)) }

  function QueueRank(k: Task): nat { if k.owner.InQueue? then 12 else 0 }

  predicate HasMail(s: System, t: nat) { t < |s.tasks| && s.tasks[t].mbox.linked != [] }

  /** How far a worker is from the pool, as long as nothing happens that can happen only once: with mail the way leads
      once more through the queue and up to the mailbox. */
  function WorkerRank(s: System, pc: WorkerPc): nat {
    match pc
    case AtPool => 0
    case Popped(_) => 11
    case Receiving(_) => 10
    case Renotifying(_) => 14
    case Repushing(_) => 13
    case Refusing(_, _) => 6
    case Discarding(_, _) => 5
    case Draining(_) => 4
    case Closing(_) => 3
    case _ =>
      (if HasMail(s, pc.t) then 14 else 0)
      + match pc
        case FirstRun(_) => 9
        case Received(_, _) => 9
        case Evaluating(_, _) => 8
        case Answering(_, _, _) => 7
        case Releasing(_, _, _) => 6
        case Deciding(_, _) => 5
        case _ => 1
  }

  function ClientRank(pc: ClientPc): nat {
    match pc
    case Free => 0
    case Pushing(_) => 13
    case Appending(_, _) => 15
    case Notifying(_) => 14
    case Waiting(_) => 2
    case Reading(_) => 1
  }

  function QueueRanks(s: System): seq<nat> { seq(|s.tasks|, i requires 0 <= i < |s.tasks| => QueueRank(s.tasks[i])) }

  function WorkerRanks(s: System): seq<nat> {
    seq(|s.workers|, i requires 0 <= i < |s.workers| => WorkerRank(s, s.workers[i]))
  }

  function ClientRanks(s: System): seq<nat> {
    seq(|s.clients|, i requires 0 <= i < |s.clients| => ClientRank(s.clients[i]))
  }

  function Way(s: System): nat { Sum(QueueRanks(s)) + Sum(WorkerRanks(s)) + Sum(ClientRanks(s)) }

  function LongestWay(s: System): nat { 12 * |s.tasks| + 23 * |s.workers| + 15 * |s.clients| }

  lemma WayBounded(s: System)
    ensures Way(s) <= LongestWay(s)
  {
    Bounded(QueueRanks(s), 12);
    Bounded(WorkerRanks(s), 23);
    Bounded(ClientRanks(s), 15);
  }

  /** How many steps are left at most. */
  function Energy(s: System): nat { Work(s) * (LongestWay(s) + 1) + Way(s) }

  // ---------- Every step uses up energy ----------

  /** The steps that bring new work: everything but a spawn, a send and a decision to wait is quiet. */
  predicate Quiet(a: Action) { !a.Spawn? && !a.Create? && !a.Await? }

  /** At most one worker, client, task and message are different, and none is new. */
  predicate Changes(s: System, s': System, f: Focus) {
    && |s'.workers| == |s.workers| && |s'.clients| == |s.clients| && |s'.tasks| == |s.tasks| && |s'.msgs| == |s.msgs|
    && (forall i :: 0 <= i < |s.workers| && i != f.w ==> s'.workers[i] == s.workers[i])
    && (forall i :: 0 <= i < |s.clients| && i != f.c ==> s'.clients[i] == s.clients[i])
    && (forall i :: 0 <= i < |s.tasks| && i != f.t ==> s'.tasks[i] == s.tasks[i])
    && (forall i :: 0 <= i < |s.msgs| && i != f.m ==> s'.msgs[i] == s.msgs[i])
  }

  function WorkAt(s: System, f: Focus): nat {
    (if f.m < |s.msgs| then MsgWork(s.msgs[f.m]) else 0) + (if f.t < |s.tasks| then TaskWork(s.tasks[f.t]) else 0)
  }

  function WayAt(s: System, f: Focus): nat {
    (if f.t < |s.tasks| then QueueRank(s.tasks[f.t]) else 0)
    + (if f.w < |s.workers| then WorkerRank(s, s.workers[f.w]) else 0)
    + (if f.c < |s.clients| then ClientRank(s.clients[f.c]) else 0)
  }

  /** Either something happens that can happen only once, or the way gets shorter and no mailbox changes from empty to
      full or back. */
  predicate Spends(s: System, s': System, f: Focus) {
    && Changes(s, s', f)
    && WorkAt(s', f) <= WorkAt(s, f)
    && (WorkAt(s', f) == WorkAt(s, f) ==>
          WayAt(s', f) < WayAt(s, f) && (f.t < |s.tasks| ==> HasMail(s', f.t) == HasMail(s, f.t)))
  }

  lemma WorkChanges(s: System, s': System, f: Focus)
    requires Changes(s, s', f)
    ensures Work(s') - WorkAt(s', f) == Work(s) - WorkAt(s, f)
  {
    OneChanged(MsgsWork(s), MsgsWork(s'), f.m);
    OneChanged(TasksWork(s), TasksWork(s'), f.t);
  }

  lemma WayChanges(s: System, s': System, f: Focus)
    requires Changes(s, s', f) && (f.t < |s.tasks| ==> HasMail(s', f.t) == HasMail(s, f.t))
    ensures Way(s') - WayAt(s', f) == Way(s) - WayAt(s, f)
  {
    assert forall t: nat :: HasMail(s', t) == HasMail(s, t);
    OneChanged(QueueRanks(s), QueueRanks(s'), f.t);
    OneChanged(WorkerRanks(s), WorkerRanks(s'), f.w);
    OneChanged(ClientRanks(s), ClientRanks(s'), f.c);
  }

  lemma SpendsEnergy(s: System, s': System, f: Focus)
    requires Spends(s, s', f)
    ensures Energy(s') < Energy(s)
  {
    hide Way, Work, WayAt, WorkAt, LongestWay;
    WorkChanges(s, s', f);
    WayBounded(s');
    SameLongestWay(s, s', f);
    if WorkAt(s', f) == WorkAt(s, f) {
      WayChanges(s, s', f);
      assert Work(s') == Work(s);
    } else {
      Dominates(Work(s'), Work(s), LongestWay(s) + 1);
    }
  }

  lemma SameLongestWay(s: System, s': System, f: Focus)
    requires Changes(s, s', f)
    ensures LongestWay(s') == LongestWay(s)
  {
  }

  lemma Dominates(x: nat, y: nat, n: nat)
    requires x < y
    ensures x * n + n <= y * n
  {
    assert (x + 1) * n <= y * n;
  }

  lemma FetchSpends(s: System, a: Action)
    requires Inv(s) && Enabled(s, a) && (a.Receive? || a.Drain?)
    ensures Spends(s, Next(s, a), FocusOf(s, a))
  {
    hide Inv, Rousing, QueueOk, Distinct;
    var f := FocusOf(s, a);
    InvMeans(s, f.w, f.c, f.t, f.m);
  }

  lemma MessageSpends(s: System, a: Action)
    requires Inv(s) && Enabled(s, a) && (a.TakeContent? || a.Answer? || a.Refuse?)
    ensures Spends(s, Next(s, a), FocusOf(s, a))
  {
    hide Inv, Rousing, QueueOk, Distinct, BoxOk, OwnerOk, ClientOk;
    var f := FocusOf(s, a);
    InvMeans(s, f.w, f.c, f.t, f.m);
  }

  lemma FinishSpends(s: System, a: Action)
    requires Inv(s) && Enabled(s, a) && a.Finish?
    ensures Spends(s, Next(s, a), FocusOf(s, a))
  {
    hide Inv, Rousing, QueueOk, Distinct, BoxOk, OwnerOk, ClientOk;
    var f := FocusOf(s, a);
    InvMeans(s, f.w, f.c, f.t, f.m);
  }

  lemma ReleaseSpends(s: System, a: Action)
    requires Inv(s) && Enabled(s, a) && (a.ReleaseAnswered? || a.Discard?)
    ensures Spends(s, Next(s, a), FocusOf(s, a))
  {
    hide Inv, Rousing, QueueOk, Distinct, BoxOk, OwnerOk, ClientOk;
    var f := FocusOf(s, a);
    InvMeans(s, f.w, f.c, f.t, f.m);
  }

  lemma TaskSpends(s: System, a: Action)
    requires Inv(s) && Enabled(s, a) && ByWorker(a) && !OnMessage(a)
    ensures Spends(s, Next(s, a), FocusOf(s, a))
  {
    hide Inv, Rousing, Distinct, BoxOk, MsgOk, ClientOk;
    var f := FocusOf(s, a);
    InvMeans(s, f.w, f.c, f.t, f.m);
  }

  lemma ClientSpends(s: System, a: Action)
    requires Inv(s) && Enabled(s, a) && !ByWorker(a) && Quiet(a)
    ensures Spends(s, Next(s, a), FocusOf(s, a))
  {
    hide Inv, Rousing, Distinct, BoxOk, MsgOk, MayRun, QueueOk;
    var f := FocusOf(s, a);
    InvMeans(s, f.w, f.c, f.t, f.m);
  }

  /** Every quiet step lowers the energy. */
  lemma QuietSpends(s: System, a: Action)
    requires Inv(s) && Enabled(s, a) && Quiet(a)
    ensures Energy(Next(s, a)) < Energy(s)
  {
    hide Inv, Enabled, Next, Spends, Energy;
    if a.Receive? || a.Drain? {
      FetchSpends(s, a);
    } else if a.ReleaseAnswered? || a.Discard? {
      ReleaseSpends(s, a);
    } else if a.Finish? {
      FinishSpends(s, a);
    } else if OnMessage(a) {
      MessageSpends(s, a);
    } else if ByWorker(a) {
      TaskSpends(s, a);
    } else {
      ClientSpends(s, a);
    }
    SpendsEnergy(s, Next(s, a), FocusOf(s, a));
  }

  /** So however the steps interleave, there are at most as many quiet ones in a row. */
  lemma {:induction false} QuietBound(run: seq<System>, actions: seq<Action>, i: nat, j: nat)
    requires IsRun(run, actions) && i <= j < |run| && forall k :: i <= k < j ==> Quiet(actions[k])
    ensures j - i + Energy(run[j]) <= Energy(run[i])
    decreases j - i
  {
    hide Inv, Enabled, Next, Energy;
    if i < j {
      QuietBound(run, actions, i, j - 1);
      RunKeeps(run, actions, j - 1);
      assert run[(j - 1) + 1] == Next(run[j - 1], actions[j - 1]);
      QuietSpends(run[j - 1], actions[j - 1]);
    }
  }

  // ---------- A pool without new work comes to rest ----------

  /** As long as the pool is not stuck, something that has begun can go on, and that takes a quiet step. */
  lemma GoesOn(s: System) returns (a: Action)
    requires Reachable(s) && !Stuck(s)
    ensures Enabled(s, a) && Quiet(a)
  {
    hide Reachable, Enabled;
    if w :| 0 <= w < |s.workers| && WorkerMoves(s, w) {
      a :| ByWorker(a) && a.w == w && Enabled(s, a);
    } else {
      var c :| 0 <= c < |s.clients| && !s.clients[c].Free? && ClientMoves(s, c);
      a :| !ByWorker(a) && a.c == c && Enabled(s, a);
      BusyIsQuiet(s, a);
    }
  }

  lemma BusyIsQuiet(s: System, a: Action)
    requires !ByWorker(a) && Enabled(s, a) && !s.clients[a.c].Free?
    ensures Quiet(a)
  {
  }

  /** `run'` goes on from `run` with quiet steps only. */
  ghost predicate GoesOnQuietly(run: seq<System>, actions: seq<Action>, run': seq<System>, actions': seq<Action>) {
    && IsRun(run', actions') && run <= run' && actions <= actions'
    && forall k :: |actions| <= k < |actions'| ==> Quiet(actions'[k])
  }

  /** Every run can be completed by quiet steps to one that is stuck; whichever steps are taken, there are no more of
      them than the energy allows. */
  lemma {:induction false} Settles(run: seq<System>, actions: seq<Action>)
    returns (run': seq<System>, actions': seq<Action>)
    requires IsRun(run, actions)
    ensures GoesOnQuietly(run, actions, run', actions') && Stuck(run'[|run'| - 1])
    ensures |actions'| - |actions| <= Energy(run[|run| - 1])
    decreases Energy(run[|run| - 1])
  {
    hide Inv, Enabled, Next, Energy, Stuck, Initial;
    var s := run[|run| - 1];
    assert Reachable(s);
    if Stuck(s) {
      run', actions' := run, actions;
    } else {
      var a := GoesOn(s);
      ReachableOk(s);
      QuietSpends(s, a);
      var longer, more := run + [Next(s, a)], actions + [a];
      OneMore(run, actions, a);
      run', actions' := Settles(longer, more);
      assert forall k :: |actions| <= k < |actions'| ==> Quiet(actions'[k]) by { assert actions'[|actions|] == a; }
    }
  }

  lemma OneMore(run: seq<System>, actions: seq<Action>, a: Action)
    requires IsRun(run, actions) && Enabled(run[|run| - 1], a)
    ensures IsRun(run + [Next(run[|run| - 1], a)], actions + [a])
  {
    hide Enabled, Next, Initial;
    var run', actions' := run + [Next(run[|run| - 1], a)], actions + [a];
    forall i | 0 <= i < |actions'| ensures Enabled(run'[i], actions'[i]) && run'[i + 1] == Next(run'[i], actions'[i]) {
      if i < |actions| { assert run'[i] == run[i] && run'[i + 1] == run[i + 1] && actions'[i] == actions[i]; }
    }
  }

  /** No task waits for an answer. */
  predicate NoTaskWaits(s: System) {
    forall t :: 0 <= t < |s.tasks| && s.tasks[t].client < |s.clients| ==> !s.clients[s.tasks[t].client].Waiting?
  }

  lemma QuietWaits(s: System, a: Action)
    requires Enabled(s, a) && Quiet(a) && NoTaskWaits(s)
    ensures NoTaskWaits(Next(s, a)) && |Next(s, a).workers| == |s.workers|
  {
    hide Enabled, Next;
    var s' := Next(s, a);
    QuietLeaves(s, a);
    forall t | 0 <= t < |s'.tasks| && s'.tasks[t].client < |s'.clients|
      ensures !s'.clients[s'.tasks[t].client].Waiting?
    {
      assert s'.tasks[t].client == s.tasks[t].client;
    }
  }

  lemma QuietLeaves(s: System, a: Action)
    requires Enabled(s, a) && Quiet(a)
    ensures var s' := Next(s, a);
      && |s'.workers| == |s.workers| && |s'.clients| == |s.clients| && |s'.tasks| == |s.tasks|
      && (forall t :: 0 <= t < |s.tasks| ==> s'.tasks[t].client == s.tasks[t].client)
      && (forall c :: 0 <= c < |s.clients| && s'.clients[c].Waiting? ==> s.clients[c].Waiting?)
  {
    hide MayRun;
  }

  lemma {:induction false} QuietNoTaskWaits(run: seq<System>, actions: seq<Action>, i: nat, j: nat)
    requires IsRun(run, actions) && i <= j < |run| && NoTaskWaits(run[i])
    requires forall k :: i <= k < j ==> Quiet(actions[k])
    ensures NoTaskWaits(run[j]) && |run[j].workers| == |run[i].workers|
    decreases j - i
  {
    hide Enabled, Next, NoTaskWaits;
    if i < j {
      QuietNoTaskWaits(run, actions, i, j - 1);
      assert run[(j - 1) + 1] == Next(run[j - 1], actions[j - 1]);
      QuietWaits(run[j - 1], actions[j - 1]);
    }
  }

  /** When no task waits, a pool without new work comes to rest, whatever the interleaving: every message to a surviving
      task has been answered then, and of all messages exactly those that were appended too late have not. */
  lemma ComesToRest(run: seq<System>, actions: seq<Action>, i: nat, j: nat)
    requires IsRun(run, actions) && i <= j < |run| && run[i].workers != [] && NoTaskWaits(run[i])
    requires forall k :: i <= k < j ==> Quiet(actions[k])
    requires Stuck(run[j])
    ensures AtRest(run[j])
    ensures forall m :: 0 <= m < |run[j].msgs| ==>
      var g := run[j].msgs[m];
      g.to < |run[j].tasks| && (!run[j].tasks[g.to].state.TASK_DEAD? ==> g.letter.state.MSG_READY?)
    ensures forall k :: 0 <= k < j && actions[k].Append? ==>
      var pc := run[k].clients[actions[k].c];
      && pc.t < |run[k].tasks| && pc.m < |run[j].msgs|
      && (Replied(run[j].msgs[pc.m].letter) <==> !Late(run[k], pc.t))
  {
    hide Inv, Next, Enabled, Stuck, AtRest, Late, Reachable, NoTaskWaits;
    QuietNoTaskWaits(run, actions, i, j);
    Reached(run, actions, j);
    forall w | 0 <= w < |run[j].workers| ensures !Blocked(run[j], w) { NotBlocked(run[j], w); }
    StuckAtRest(run[j]);
    forall m | 0 <= m < |run[j].msgs|
      ensures var g := run[j].msgs[m];
        g.to < |run[j].tasks| && (!run[j].tasks[g.to].state.TASK_DEAD? ==> g.letter.state.MSG_READY?)
    {
      RestingMessage(run[j], m);
    }
    forall k | 0 <= k < j && actions[k].Append?
      ensures k < |run| && actions[k].c < |run[k].clients|
      ensures var pc := run[k].clients[actions[k].c];
        && pc.Appending? && pc.t < |run[k].tasks| && pc.m < |run[j].msgs|
        && (Replied(run[j].msgs[pc.m].letter) <==> !Late(run[k], pc.t))
    {
      AppendsIn(run[k], actions[k]);
      LateExactly(run, actions, k, j);
    }
  }

  lemma AppendsIn(s: System, a: Action)
    requires Enabled(s, a) && a.Append?
    ensures a.c < |s.clients| && s.clients[a.c].Appending?
  {
  }

  lemma NotBlocked(s: System, w: nat)
    requires NoTaskWaits(s) && w < |s.workers|
    ensures !Blocked(s, w)
  {
  }
}
