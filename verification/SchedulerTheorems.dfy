/** What the invariant means for every run: ownership, wake-ups, delivery, lifetimes, and what is left at rest. */
module SchedulerTheorems {
  import opened Mailboxes
  import opened Scheduler
  import opened SchedulerInvariant

  // ---------- Ownership ----------

  /** The places where a task can be in hand: a slot of the queue, a worker, or somebody pushing it. */
  datatype Hand = Slot(i: nat) | WorkerHand(w: nat) | WorkerPushes(w: nat) | ClientPushes(c: nat)

  predicate InHand(s: System, t: nat, h: Hand) {
    match h
    case Slot(i) => i < |s.queue| && s.queue[i] == t
    case WorkerHand(w) => w < |s.workers| && Holds(s.workers[w]) == Some(t)
    case WorkerPushes(w) => w < |s.workers| && s.workers[w] == Repushing(t)
    case ClientPushes(c) => c < |s.clients| && s.clients[c] == Pushing(t)
  }

  /** A task in any hand is owned by that hand. */
  lemma HandOwns(s: System, t: nat, h: Hand)
    requires Inv(s) && InHand(s, t, h)
    ensures t < |s.tasks|
    ensures match h
            case Slot(_) => s.tasks[t].owner.InQueue?
            case WorkerHand(w) => s.tasks[t].owner == Worker(w)
            case WorkerPushes(w) => s.tasks[t].owner == WorkerPush(w)
            case ClientPushes(c) => s.tasks[t].owner == ClientPush(c)
  {
    hide OwnerOk, BoxesOk, MsgsOk, NoneOverslept;
    match h
    case WorkerHand(w) => assert WorkerOk(s, w);
    case WorkerPushes(w) => assert WorkerOk(s, w);
    case ClientPushes(c) => assert ClientOk(s, c);
    case Slot(_) =>
  }

  lemma OneHand(s: System, t: nat, h: Hand, h': Hand)
    requires Inv(s) && InHand(s, t, h) && InHand(s, t, h')
    ensures h == h'
  {
    HandOwns(s, t, h);
    HandOwns(s, t, h');
  }

  /** In every run a task that is neither idle nor dead is in exactly one hand: queued once, or with one worker, or
      being pushed by one thread. An idle task is in none, and a dead one at most with the worker that buries it. */
  lemma ExclusiveOwnership(s: System, t: nat)
    requires Reachable(s) && t < |s.tasks|
    ensures var state := s.tasks[t].state;
      && (forall h, h' :: InHand(s, t, h) && InHand(s, t, h') ==> h == h')
      && (!state.TASK_IDLE? && !state.TASK_DEAD? ==> exists h :: InHand(s, t, h))
      && (state.TASK_IDLE? ==> forall h :: !InHand(s, t, h))
      && (state.TASK_DEAD? ==> forall h :: InHand(s, t, h) ==> h.WorkerHand? && Dying(s.workers[h.w]))
  {
    ReachableOk(s);
    assert OwnerOk(s, t);
    forall h, h' | InHand(s, t, h) && InHand(s, t, h') ensures h == h' { OneHand(s, t, h, h'); }
    forall h | InHand(s, t, h)
      ensures !s.tasks[t].state.TASK_IDLE?
      ensures s.tasks[t].state.TASK_DEAD? ==> h.WorkerHand? && Dying(s.workers[h.w])
    {
      HandOwns(s, t, h);
    }
    match s.tasks[t].owner {
      case InQueue =>
        var i :| 0 <= i < |s.queue| && s.queue[i] == t;
        assert InHand(s, t, Slot(i));
      case Worker(w) => assert InHand(s, t, WorkerHand(w));
      case WorkerPush(w) => assert InHand(s, t, WorkerPushes(w));
      case ClientPush(c) => assert InHand(s, t, ClientPushes(c));
      case Nobody =>
    }
  }

  /** No two workers run one task. */
  lemma OneWorker(s: System, v: nat, w: nat)
    requires Reachable(s) && v < |s.workers| && w < |s.workers|
    requires Holds(s.workers[v]).Some? && Holds(s.workers[v]) == Holds(s.workers[w])
    ensures v == w
  {
    ReachableOk(s);
    OneHand(s, s.workers[v].t, WorkerHand(v), WorkerHand(w));
  }

  // ---------- Wake-ups ----------

  /** An idle task with a message in its mailbox always has somebody about to notify it. */
  lemma NoLostWakeup(s: System, t: nat)
    requires Reachable(s) && t < |s.tasks| && s.tasks[t].state.TASK_IDLE? && s.tasks[t].mbox.linked != []
    ensures (exists c :: 0 <= c < |s.clients| && s.clients[c] == Notifying(t))
         || (exists w :: 0 <= w < |s.workers| && (s.workers[w] == Peeking(t) || s.workers[w] == Renotifying(t)))
  {
    ReachableOk(s);
    assert Asleep(s.tasks[t]);
    assert Rousing(s, t);
  }

  // ---------- What a step never undoes ----------

  /** Tasks and messages stay; a dead task stays dead; histories only grow; a freed message stays freed, and a sent
      one keeps its addressee and its value. */
  predicate Onward(s: System, s': System) {
    && |s.tasks| <= |s'.tasks| && |s.msgs| <= |s'.msgs|
    && (forall t {:trigger s'.tasks[t]} :: 0 <= t < |s.tasks| ==>
          && (s.tasks[t].state.TASK_DEAD? ==> s'.tasks[t].state.TASK_DEAD?)
          && s.tasks[t].mbox.appended <= s'.tasks[t].mbox.appended
          && s.tasks[t].mbox.taken <= s'.tasks[t].mbox.taken
          && (Gone(s.tasks[t]) ==> Gone(s'.tasks[t]) && s.tasks[t].mbox.linked <= s'.tasks[t].mbox.linked))
    && (forall m {:trigger s'.msgs[m]} :: 0 <= m < |s.msgs| ==>
          && s'.msgs[m].to == s.msgs[m].to && s'.msgs[m].request == s.msgs[m].request
          && (s.msgs[m].letter.freed ==> s'.msgs[m].letter.freed)
          && (Replied(s.msgs[m].letter) ==> Replied(s'.msgs[m].letter))
          && (s.msgs[m].answer.Some? ==> s'.msgs[m].answer == s.msgs[m].answer))
  }

  /** The steps in which a worker handles a message. */
  predicate OnMessage(a: Action) {
    a.Receive? || a.TakeContent? || a.Finish? || a.Answer? || a.ReleaseAnswered? || a.Drain? || a.Refuse? || a.Discard?
  }

  lemma FetchOnward(s: System, a: Action)
    requires Inv(s) && Enabled(s, a) && (a.Receive? || a.Drain?)
    ensures Onward(s, Next(s, a))
  {
    hide Inv, Rousing, QueueOk, Distinct, MsgOk;
    var f := FocusOf(s, a);
    InvMeans(s, f.w, f.c, f.t, f.m);
  }

  lemma MessageOnward(s: System, a: Action)
    requires Inv(s) && Enabled(s, a) && OnMessage(a) && !a.Receive? && !a.Drain?
    ensures Onward(s, Next(s, a))
  {
    hide Inv, Rousing, QueueOk, Distinct, BoxOk, ClientOk, OwnerOk;
    var f := FocusOf(s, a);
    InvMeans(s, f.w, f.c, f.t, f.m);
  }

  lemma TaskOnward(s: System, a: Action)
    requires Inv(s) && Enabled(s, a) && ByWorker(a) && !OnMessage(a)
    ensures Onward(s, Next(s, a))
  {
    hide Inv, Rousing;
    var f := FocusOf(s, a);
    InvMeans(s, f.w, f.c, f.t, f.m);
  }

  lemma ClientOnward(s: System, a: Action)
    requires Inv(s) && Enabled(s, a) && !ByWorker(a)
    ensures Onward(s, Next(s, a))
  {
    hide Inv, Rousing;
    var f := FocusOf(s, a);
    InvMeans(s, f.w, f.c, f.t, f.m);
  }

  lemma StepOnward(s: System, a: Action)
    requires Inv(s) && Enabled(s, a)
    ensures Onward(s, Next(s, a))
  {
    hide Inv, Onward, Enabled, Next;
    if a.Receive? || a.Drain? {
      FetchOnward(s, a);
    } else if OnMessage(a) {
      MessageOnward(s, a);
    } else if ByWorker(a) {
      TaskOnward(s, a);
    } else {
      ClientOnward(s, a);
    }
  }

  lemma OnwardTrans(s: System, s': System, s'': System)
    requires Onward(s, s') && Onward(s', s'')
    ensures Onward(s, s'')
  {
    forall t {:trigger s''.tasks[t]} | 0 <= t < |s.tasks|
      ensures s.tasks[t].mbox.appended <= s''.tasks[t].mbox.appended && s.tasks[t].mbox.taken <= s''.tasks[t].mbox.taken
      ensures Gone(s.tasks[t]) ==> Gone(s''.tasks[t]) && s.tasks[t].mbox.linked <= s''.tasks[t].mbox.linked
      ensures s.tasks[t].state.TASK_DEAD? ==> s''.tasks[t].state.TASK_DEAD?
    {
      var k, k', k'' := s.tasks[t], s'.tasks[t], s''.tasks[t];
      assert k'.mbox.appended <= k''.mbox.appended && k'.mbox.taken <= k''.mbox.taken;
    }
    forall m {:trigger s''.msgs[m]} | 0 <= m < |s.msgs|
      ensures s''.msgs[m].to == s.msgs[m].to && s''.msgs[m].request == s.msgs[m].request
      ensures s.msgs[m].letter.freed ==> s''.msgs[m].letter.freed
      ensures Replied(s.msgs[m].letter) ==> Replied(s''.msgs[m].letter)
      ensures s.msgs[m].answer.Some? ==> s''.msgs[m].answer == s.msgs[m].answer
    {
      var g, g', g'' := s.msgs[m], s'.msgs[m], s''.msgs[m];
    }
  }

  /** Along every run: death, histories and frees are never undone. */
  lemma {:induction false} RunOnward(run: seq<System>, actions: seq<Action>, i: nat, j: nat)
    requires IsRun(run, actions) && i <= j < |run|
    ensures Onward(run[i], run[j])
    decreases j - i
  {
    hide Inv, Enabled, Next, Onward;
    if i == j {
      OnwardSelf(run[i]);
    } else {
      RunOnward(run, actions, i, j - 1);
      RunKeeps(run, actions, j - 1);
      assert run[(j - 1) + 1] == Next(run[j - 1], actions[j - 1]);
      StepOnward(run[j - 1], actions[j - 1]);
      OnwardTrans(run[i], run[j - 1], run[j]);
    }
  }

  lemma OnwardSelf(s: System)
    ensures Onward(s, s)
  {
  }

  // ---------- Delivery ----------

  /** Every mailbox in every interleaving: what was taken so far, then what is linked, is what was appended; each
      message once, and only those sent to this task. So the k-th message taken is the k-th appended. */
  lemma OrderedDelivery(s: System, t: nat)
    requires Reachable(s) && t < |s.tasks|
    ensures var b := s.tasks[t].mbox;
      && b.appended == b.taken + b.linked && Distinct(b.appended)
      && (forall i :: 0 <= i < |b.taken| ==> b.taken[i] == b.appended[i])
      && (forall m :: 0 <= m < |s.msgs| && !s.msgs[m].place.Sending? ==> (m in b.appended <==> s.msgs[m].to == t))
  {
    ReachableOk(s);
    assert BoxOk(s, t);
    forall m | 0 <= m < |s.msgs| && !s.msgs[m].place.Sending?
      ensures m in s.tasks[t].mbox.appended <==> s.msgs[m].to == t
    {
      assert MsgOk(s, m);
    }
  }

  // ---------- Lifetimes ----------

  /** The message whose memory an action reads or writes. */
  function Touched(s: System, a: Action): Option<nat>
    requires Enabled(s, a)
  {
    match a
    case Receive(w) => HeadMsg(s, s.workers[w].t)
    case Peek(w) => None
    case Drain(w) => HeadMsg(s, s.workers[w].t)
    case TakeContent(w) => Some(s.workers[w].m)
    case Finish(w, _, _) => Carries(s.workers[w])
    case Answer(w) => Some(s.workers[w].m)
    case ReleaseAnswered(w) => Some(s.workers[w].m)
    case Refuse(w) => Some(s.workers[w].m)
    case Discard(w) => Some(s.workers[w].m)
    case Append(c) => Some(s.clients[c].m)
    case Wake(c) => Some(s.clients[c].m)
    case ReadAnswer(c) => Some(s.clients[c].m)
    case Drop(_, m) => Some(m)
    case _ => None
  }

  function HeadMsg(s: System, t: nat): Option<nat>
    requires t < |s.tasks|
  {
    var q := s.tasks[t].mbox.linked; if q == [] then None else Some(q[0])
  }

  /** No step touches a freed message. So no message is freed twice either. */
  lemma TouchedLives(s: System, a: Action)
    requires Reachable(s) && Enabled(s, a) && Touched(s, a).Some?
    ensures Touched(s, a).value < |s.msgs| && !s.msgs[Touched(s, a).value].letter.freed
  {
    hide Inv, Rousing, QueueOk, Distinct, OwnerOk;
    ReachableOk(s);
    var f := FocusOf(s, a);
    InvMeans(s, f.w, f.c, f.t, f.m);
  }

  /** Appending follows `end` to the last linked message, which is not freed either. */
  lemma LinkedLives(s: System, t: nat, m: nat)
    requires Reachable(s) && t < |s.tasks| && m in s.tasks[t].mbox.linked
    ensures m < |s.msgs| && !s.msgs[m].letter.freed && !Replied(s.msgs[m].letter)
  {
    ReachableOk(s);
    assert BoxOk(s, t);
    assert MsgOk(s, m);
  }

  /** A message starts with two references, holds one for each side that is not done, and is freed exactly when both
      are; by then it has been replied to. */
  lemma MessageLifetime(s: System, m: nat)
    requires Reachable(s) && m < |s.msgs|
    ensures var g := s.msgs[m];
      && 0 <= g.letter.refs <= 2
      && (g.place.Sending? ==> g.letter.refs == 2)
      && (g.letter.freed <==> g.letter.refs == 0)
      && (g.letter.freed <==> !g.kept && g.place.Finished?)
      && (g.letter.freed ==> Replied(g.letter))
  {
    ReachableOk(s);
    assert MsgOk(s, m);
  }

  /** What a client reads after waiting: the answer the task gave, if the message was processed, and its own request,
      if the task died before taking it. Never a freed message, and never a half-done one. */
  lemma WaiterReads(s: System, c: nat)
    requires Reachable(s) && c < |s.clients| && s.clients[c].Reading?
    ensures s.clients[c].m < |s.msgs|
    ensures var g := s.msgs[s.clients[c].m];
      && !g.letter.freed && Replied(g.letter)
      && (g.letter.state.MSG_READY? <==> g.answer.Some?)
      && g.letter.content == if g.answer.Some? then Content.Answer(g.answer.value) else Sent(g.request)
  {
    ReachableOk(s);
    hide Inv;
    InvMeans(s, |s.workers|, c, |s.tasks|, |s.msgs|);
    InvMeans(s, |s.workers|, c, |s.tasks|, s.clients[c].m);
    var g := s.msgs[s.clients[c].m];
    if g.place.Carried? { assert CarriedOk(s.workers[g.place.w], g); }
  }

  /** The task whose mailbox an action locks or reads. */
  function TouchedBox(s: System, a: Action): Option<nat>
    requires Enabled(s, a)
  {
    match a
    case Receive(w) => Some(s.workers[w].t)
    case Peek(w) => Some(s.workers[w].t)
    case Drain(w) => Some(s.workers[w].t)
    case Close(w) => Some(s.workers[w].t)
    case Create(_, t, _) => Some(t)
    case Append(c) => Some(s.clients[c].t)
    case Notify(c) => Some(s.clients[c].t)
    case DropMailbox(_, t) => Some(t)
    case _ => None
  }

  /** A step touches a freed mailbox exactly when it is the re-check of a task that another worker has buried and
      whose mailbox nobody refers to any more. */
  lemma TouchedBoxFreed(s: System, a: Action)
    requires Reachable(s) && Enabled(s, a) && TouchedBox(s, a).Some?
    ensures TouchedBox(s, a).value < |s.tasks|
    ensures var k := s.tasks[TouchedBox(s, a).value]; k.mbox.closed >= 2 <==> a.Peek? && Gone(k) && !k.referenced
  {
    hide Inv, Rousing;
    ReachableOk(s);
    var f := FocusOf(s, a);
    InvMeans(s, f.w, f.c, f.t, f.m);
    if a.Create? { InvMeans(s, f.w, f.c, a.t, f.m); }
  }

  /** The task whose record or Lua state an action reads or writes. The mailbox reference through which a re-check looks
      belongs to the task's Lua state. */
  function TouchedTask(s: System, a: Action): Option<nat>
    requires Enabled(s, a)
  {
    if a.Pop? then Some(s.queue[0])
    else if ByWorker(a) then Some(s.workers[a.w].t)
    else if a.Push? || a.Notify? then Some(s.clients[a.c].t)
    else None
  }

  /** A step touches a task that is gone exactly when it is a re-check or a notification, the task is dead, and no
      worker is burying it any more. */
  lemma TouchedTaskGone(s: System, a: Action)
    requires Reachable(s) && Enabled(s, a) && TouchedTask(s, a).Some?
    ensures var t := TouchedTask(s, a).value;
      && t < |s.tasks|
      && (Gone(s.tasks[t]) <==>
            && (a.Peek? || a.Renotify? || a.Notify?) && s.tasks[t].state.TASK_DEAD?
            && forall w :: 0 <= w < |s.workers| ==> Holds(s.workers[w]) != Some(t))
  {
    hide Inv, Rousing, BoxOk, MsgOk, Distinct;
    ReachableOk(s);
    var f := FocusOf(s, a);
    InvMeans(s, f.w, f.c, f.t, f.m);
    var t := TouchedTask(s, a).value;
    if Gone(s.tasks[t]) { GoneUnheld(s, t); }
  }

  lemma GoneUnheld(s: System, t: nat)
    requires Inv(s) && t < |s.tasks| && Gone(s.tasks[t])
    ensures forall w :: 0 <= w < |s.workers| ==> Holds(s.workers[w]) != Some(t)
  {
    hide Inv, Rousing;
    forall w | 0 <= w < |s.workers| ensures Holds(s.workers[w]) != Some(t) {
      InvMeans(s, w, |s.clients|, t, |s.msgs|);
    }
  }

  lemma MailboxLifetime(s: System, t: nat)
    requires Reachable(s) && t < |s.tasks|
    ensures var k := s.tasks[t];
      && k.mbox.closed <= 2
      && (k.mbox.closed == 2 <==> !k.referenced && Gone(k))
      && (k.mbox.closed == 0 <==> k.referenced && !Gone(k))
  {
    ReachableOk(s);
    assert BoxOk(s, t);
  }

  // ---------- At rest ----------

  /** No worker has anything to do, and no client is in the middle of a send, a notification or a spawn. */
  predicate AtRest(s: System) {
    && s.queue == []
    && (forall w :: 0 <= w < |s.workers| ==> s.workers[w].AtPool?)
    && (forall c :: 0 <= c < |s.clients| ==> s.clients[c].Free? || s.clients[c].Waiting? || s.clients[c].Reading?)
  }

  /** At rest every task is idle with an empty mailbox, or gone. */
  lemma RestingTask(s: System, t: nat)
    requires Reachable(s) && AtRest(s) && t < |s.tasks|
    ensures Gone(s.tasks[t]) || (s.tasks[t].state.TASK_IDLE? && s.tasks[t].mbox.linked == [])
  {
    ReachableOk(s);
    assert OwnerOk(s, t);
    assert Asleep(s.tasks[t]) ==> Rousing(s, t);
  }

  /** At rest a message is unanswered exactly when it is still linked in the mailbox of a task that is gone; every
      message to a surviving task has been answered. SchedulerLate tells the two kinds apart at the send. */
  lemma RestingMessage(s: System, m: nat)
    requires Reachable(s) && AtRest(s) && m < |s.msgs|
    ensures var g := s.msgs[m];
      && g.to < |s.tasks|
      && (!Replied(g.letter) <==> Gone(s.tasks[g.to]) && m in s.tasks[g.to].mbox.linked)
      && (!s.tasks[g.to].state.TASK_DEAD? ==> g.letter.state.MSG_READY?)
  {
    ReachableOk(s);
    assert MsgOk(s, m);
    var g := s.msgs[m];
    RestingTask(s, g.to);
    if m in s.tasks[g.to].mbox.linked { LinkedLives(s, g.to, m); }
  }

  /** Such a message is never answered, however the run goes on. */
  lemma NeverAnswered(run: seq<System>, actions: seq<Action>, i: nat, j: nat, m: nat)
    requires IsRun(run, actions) && i <= j < |run| && m < |run[i].msgs|
    requires run[i].msgs[m].to < |run[i].tasks|
    requires Gone(run[i].tasks[run[i].msgs[m].to]) && m in run[i].tasks[run[i].msgs[m].to].mbox.linked
    ensures m < |run[j].msgs| && !Replied(run[j].msgs[m].letter)
  {
    hide Inv, Enabled, Next;
    var t := run[i].msgs[m].to;
    RunOnward(run, actions, i, j);
    RunKeeps(run, actions, j);
    assert Onward(run[i], run[j]);
    var k := run[j].tasks[t];
    assert m in k.mbox.linked;
    LinkedWaits(run[j], t, m);
  }

  lemma LinkedWaits(s: System, t: nat, m: nat)
    requires Inv(s) && t < |s.tasks| && m in s.tasks[t].mbox.linked
    ensures m < |s.msgs| && !Replied(s.msgs[m].letter)
  {
    assert BoxOk(s, t);
    assert MsgOk(s, m);
  }

  // ---------- Reading an answer ----------

  predicate Undisturbed(s: System, s': System, c: nat, m: nat) {
    && c < |s.clients| && c < |s'.clients| && s'.clients[c] == s.clients[c]
    && m < |s.msgs| && m < |s'.msgs| && s'.msgs[m].letter.content == s.msgs[m].letter.content
          && !s'.msgs[m].letter.freed
  }

  lemma OnlyFocus(s: System, a: Action)
    requires Enabled(s, a) && ByWorker(a)
    ensures Next(s, a).clients == s.clients && |Next(s, a).msgs| == |s.msgs|
    ensures forall m :: 0 <= m < |s.msgs| && m != FocusOf(s, a).m ==> Next(s, a).msgs[m] == s.msgs[m]
  {
  }

  lemma WorkerUndisturbing(s: System, a: Action, c: nat)
    requires Inv(s) && Enabled(s, a) && c < |s.clients| && s.clients[c].Reading? && ByWorker(a)
    ensures Undisturbed(s, Next(s, a), c, s.clients[c].m)
  {
    hide Inv, Rousing, QueueOk, OwnerOk, BoxOk, PlaceOk, Next, Enabled, FocusOf;
    var f := FocusOf(s, a);
    InvMeans(s, f.w, c, |s.tasks|, s.clients[c].m);
    OnlyFocus(s, a);
    if f.m == s.clients[c].m { CarriedUndisturbed(s, a); }
  }

  lemma CarriedUndisturbed(s: System, a: Action)
    requires Inv(s) && Enabled(s, a) && ByWorker(a)
    requires var m := FocusOf(s, a).m; m < |s.msgs| && Replied(s.msgs[m].letter) && s.msgs[m].kept
    ensures var m := FocusOf(s, a).m;
      && |Next(s, a).msgs| == |s.msgs|
      && Next(s, a).msgs[m].letter.content == s.msgs[m].letter.content && !Next(s, a).msgs[m].letter.freed
  {
    hide Inv, Rousing, QueueOk, Distinct, OwnerOk, BoxOk;
    var f := FocusOf(s, a);
    InvMeans(s, f.w, f.c, f.t, f.m);
    if a.Receive? || a.Drain? { HeadLinked(s, f.t); }
  }

  lemma HeadLinked(s: System, t: nat)
    requires Inv(s) && t < |s.tasks| && s.tasks[t].mbox.linked != []
    ensures var m := s.tasks[t].mbox.linked[0]; m < |s.msgs| && s.msgs[m].place.Linked?
  {
    assert BoxOk(s, t);
  }

  lemma ClientUndisturbing(s: System, a: Action, c: nat)
    requires Inv(s) && Enabled(s, a) && c < |s.clients| && s.clients[c].Reading? && !ByWorker(a) && a.c != c
    ensures Undisturbed(s, Next(s, a), c, s.clients[c].m)
  {
    hide Inv, Rousing, QueueOk, Distinct, OwnerOk, BoxOk;
    var f := FocusOf(s, a);
    InvMeans(s, f.w, c, f.t, f.m);
    InvMeans(s, f.w, f.c, f.t, s.clients[c].m);
  }

  /** While a client reads an answer, no step of anybody else frees the message or changes its content. */
  lemma ReadingUndisturbed(s: System, a: Action, c: nat)
    requires Reachable(s) && Enabled(s, a) && c < |s.clients| && s.clients[c].Reading?
    requires ByWorker(a) || a.c != c
    ensures Undisturbed(s, Next(s, a), c, s.clients[c].m)
  {
    hide Inv, Enabled, Next;
    ReachableOk(s);
    if ByWorker(a) { WorkerUndisturbing(s, a, c); } else { ClientUndisturbing(s, a, c); }
  }

  // ---------- What is said and answered ----------

  /** The answer with which a task ends the evaluation of a message is the one the message holds, for ever: the sender
      that waits for it reads this answer (`WaiterReads`). */
  lemma AnswerGiven(run: seq<System>, actions: seq<Action>, i: nat, j: nat)
    requires IsRun(run, actions) && i < j < |run| && actions[i].Finish?
    requires actions[i].w < |run[i].workers| && Carries(run[i].workers[actions[i].w]).Some?
    ensures var m := Carries(run[i].workers[actions[i].w]).value;
      m < |run[j].msgs| && run[j].msgs[m].answer == Some(actions[i].answer)
  {
    hide Next, Enabled;
    var m := Carries(run[i].workers[actions[i].w]).value;
    assert run[i + 1] == Next(run[i], actions[i]);
    Answers(run[i], actions[i]);
    RunOnward(run, actions, i + 1, j);
  }

  lemma Answers(s: System, a: Action)
    requires Enabled(s, a) && a.Finish? && Carries(s.workers[a.w]).Some?
    ensures var m := Carries(s.workers[a.w]).value; m < |Next(s, a).msgs| && Next(s, a).msgs[m].answer == Some(a.answer)
  {
  }

  /** What is sent is what is stored: the value of a message is the one its sender gave. */
  lemma RequestGiven(run: seq<System>, actions: seq<Action>, i: nat, j: nat)
    requires IsRun(run, actions) && i < j < |run| && actions[i].Create?
    ensures var m := |run[i].msgs|;
      m < |run[j].msgs| && run[j].msgs[m].request == actions[i].value && run[j].msgs[m].to == actions[i].t
  {
    hide Next, Enabled;
    assert run[i + 1] == Next(run[i], actions[i]);
    Creates(run[i], actions[i]);
    RunOnward(run, actions, i + 1, j);
  }

  lemma Creates(s: System, a: Action)
    requires Enabled(s, a) && a.Create?
    ensures var m := |s.msgs|;
      m < |Next(s, a).msgs| && Next(s, a).msgs[m].request == a.value && Next(s, a).msgs[m].to == a.t
  {
  }
}
