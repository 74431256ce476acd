/** What every step of the worker pool keeps. */
module SchedulerInvariant {
  import opened Mailboxes
  import opened Scheduler

  // ---------- What a worker has in hand ----------

  predicate Dying(pc: WorkerPc) { pc.Draining? || pc.Refusing? || pc.Discarding? || pc.Closing? }

  predicate StateFits(pc: WorkerPc, state: TaskState) {
    if pc.Popped? then state.TASK_INIT? || state.TASK_WAITING?
    else if Dying(pc) then state.TASK_DEAD?
    else state.TASK_PROCESSING?
  }

  function Carries(pc: WorkerPc): Option<nat> {
    match pc
    case Received(_, m) => Some(m)
    case Evaluating(_, msg) => msg
    case Answering(_, m, _) => Some(m)
    case Releasing(_, m, _) => Some(m)
    case Refusing(_, m) => Some(m)
    case Discarding(_, m) => Some(m)
    case _ => None
  }

  // ---------- Tasks ----------

  predicate Gone(k: Task) { k.state.TASK_DEAD? && k.owner.Nobody? }

  /** A task is in exactly the hands its state says. */
  predicate OwnerOk(s: System, t: nat)
    requires t < |s.tasks|
  {
    var k := s.tasks[t];
    k.client < |s.clients| &&
    match k.owner
    case Nobody => k.state.TASK_IDLE? || k.state.TASK_DEAD?
    case InQueue => (k.state.TASK_INIT? || k.state.TASK_WAITING?) && t in s.queue
    case Worker(w) => w < |s.workers| && Holds(s.workers[w]) == Some(t) && StateFits(s.workers[w], k.state)
    case WorkerPush(w) => w < |s.workers| && s.workers[w] == Repushing(t) && k.state.TASK_WAITING?
    case ClientPush(c) => c < |s.clients| && s.clients[c] == Pushing(t) && (k.state.TASK_INIT? || k.state.TASK_WAITING?)
  }

  predicate TasksOk(s: System) { forall t :: 0 <= t < |s.tasks| ==> OwnerOk(s, t) }

  predicate QueueOk(s: System) {
    && (forall i :: 0 <= i < |s.queue| ==> s.queue[i] < |s.tasks| && s.tasks[s.queue[i]].owner.InQueue?)
    && Distinct(s.queue)
  }

  predicate WorkerOk(s: System, w: nat)
    requires w < |s.workers|
  {
    var pc := s.workers[w];
    && InRange(s, pc)
    && (Holds(pc).Some? ==> s.tasks[pc.t].owner == Worker(w))
    && (pc.Repushing? ==> s.tasks[pc.t].owner == WorkerPush(w))
    && (Carries(pc).Some? ==> s.msgs[Carries(pc).value].place == Carried(w) && s.msgs[Carries(pc).value].to == pc.t)
  }

  predicate WorkersOk(s: System) { forall w :: 0 <= w < |s.workers| ==> WorkerOk(s, w) }

  predicate ClientOk(s: System, c: nat)
    requires c < |s.clients|
  {
    var pc := s.clients[c];
    && ClientInRange(s, pc)
    && (pc.Pushing? ==> s.tasks[pc.t].owner == ClientPush(c))
    && (pc.Appending? ==> s.msgs[pc.m].place == Sending(c) && s.msgs[pc.m].to == pc.t)
    && (pc.Appending? || pc.Notifying? ==> s.tasks[pc.t].referenced)
    && (pc.Waiting? || pc.Reading? ==> s.msgs[pc.m].kept && s.msgs[pc.m].keeper == c)
    && (pc.Reading? ==> Replied(s.msgs[pc.m].letter))
  }

  predicate ClientsOk(s: System) { forall c :: 0 <= c < |s.clients| ==> ClientOk(s, c) }

  // ---------- Mailboxes ----------

  /** What was appended is what was taken and then what is linked, each message once, all meant for this task. */
  predicate BoxOk(s: System, t: nat)
    requires t < |s.tasks|
  {
    var k := s.tasks[t];
    var b := k.mbox;
    && Ordered(b) && Distinct(b.appended)
    && b.closed == (if k.referenced then 0 else 1) + (if Gone(k) then 1 else 0)
    && (forall i :: 0 <= i < |b.appended| ==>
          b.appended[i] < |s.msgs| && s.msgs[b.appended[i]].to == t && !s.msgs[b.appended[i]].place.Sending?)
    && (forall i :: 0 <= i < |b.linked| ==>
          b.linked[i] < |s.msgs| && s.msgs[b.linked[i]].to == t && s.msgs[b.linked[i]].place.Linked?)
  }

  predicate BoxesOk(s: System) { forall t :: 0 <= t < |s.tasks| ==> BoxOk(s, t) }

  // ---------- Messages ----------

  function Waits(msg: Msg): bool {
    msg.letter.state.MSG_WAITING? && msg.letter.content == Sent(msg.request) && msg.answer.None?
  }

  /** What is in a message while a worker has it. */
  predicate CarriedOk(pc: WorkerPc, msg: Msg) {
    match pc
    case Received(_, _) => Waits(msg)
    case Evaluating(_, _) => msg.letter.state.MSG_WAITING? && msg.letter.content.Taken? && msg.answer.None?
    case Answering(_, _, _) =>
      msg.letter.state.MSG_WAITING? && msg.answer.Some? && msg.letter.content == Content.Answer(msg.answer.value)
    case Releasing(_, _, _) =>
      msg.letter.state.MSG_READY? && msg.answer.Some? && msg.letter.content == Content.Answer(msg.answer.value)
    case Refusing(_, _) => Waits(msg)
    case Discarding(_, _) => msg.letter.state.MSG_DEAD? && msg.letter.content == Sent(msg.request) && msg.answer.None?
    case _ => false
  }

  predicate PlaceOk(s: System, m: nat)
    requires m < |s.msgs|
  {
    var msg := s.msgs[m];
    match msg.place
    case Sending(c) => c < |s.clients| && s.clients[c] == Appending(msg.to, m) && Waits(msg) && msg.kept
        && msg.keeper == c
    case Linked => msg.to < |s.tasks| && m in s.tasks[msg.to].mbox.linked && Waits(msg)
    case Carried(w) => w < |s.workers| && Carries(s.workers[w]) == Some(m) && CarriedOk(s.workers[w], msg)
    case Finished =>
      if msg.letter.state.MSG_READY? then msg.answer.Some? && msg.letter.content == Content.Answer(msg.answer.value)
      else msg.letter.state.MSG_DEAD? && msg.letter.content == Sent(msg.request) && msg.answer.None?
  }

  /** The references are those of the sender, while it keeps the message, and of the receiver, until it is done. */
  predicate RefsOk(msg: Msg) {
    && msg.letter.refs == (if msg.kept then 1 else 0) + (if msg.place.Finished? then 0 else 1)
    && (msg.letter.freed <==> msg.letter.refs == 0)
  }

  predicate MsgOk(s: System, m: nat)
    requires m < |s.msgs|
  {
    var msg := s.msgs[m];
    && RefsOk(msg) && PlaceOk(s, m) && msg.to < |s.tasks|
    && (!msg.place.Sending? ==> m in s.tasks[msg.to].mbox.appended)
    && (msg.letter.state.MSG_DEAD? ==> s.tasks[msg.to].state.TASK_DEAD?)
  }

  predicate MsgsOk(s: System) { forall m :: 0 <= m < |s.msgs| ==> MsgOk(s, m) }

  // ---------- Wake-ups ----------

  /** Somebody is about to notify `t`: a sender that has appended, or a worker that has yet to look again. */
  ghost predicate Rousing(s: System, t: nat) {
    || (exists c :: 0 <= c < |s.clients| && s.clients[c] == Notifying(t))
    || (exists w :: 0 <= w < |s.workers| && (s.workers[w] == Peeking(t) || s.workers[w] == Renotifying(t)))
  }

  predicate Asleep(k: Task) { k.state.TASK_IDLE? && k.mbox.linked != [] }

  ghost predicate NoneOverslept(s: System) {
    forall t :: 0 <= t < |s.tasks| && Asleep(s.tasks[t]) ==> Rousing(s, t)
  }

  ghost predicate Inv(s: System) {
    && TasksOk(s) && QueueOk(s) && WorkersOk(s) && ClientsOk(s) && BoxesOk(s) && MsgsOk(s) && NoneOverslept(s)
  }

  lemma InitialOk(s: System)
    requires Initial(s)
    ensures Inv(s)
  {
  }

  // ---------- Steps are local ----------

  /** The sequences agree except at index `k`, where the second may have one more element. */
  predicate Elsewhere<T(==)>(a: seq<T>, b: seq<T>, k: nat) {
    && (|b| == |a| || (|b| == |a| + 1 && k == |a|))
    && forall i :: 0 <= i < |a| && i != k ==> b[i] == a[i]
  }

  /** From `s` to `s'` at most worker `w`, client `c`, task `t` and message `m` change, and they have had
      nothing to do with any other task or message. */
  predicate Local(s: System, s': System, w: nat, c: nat, t: nat, m: nat) {
    && |s'.workers| == |s.workers| && Elsewhere(s.workers, s'.workers, w)
    && |s'.clients| >= |s.clients| && (forall i :: 0 <= i < |s.clients| && i != c ==> s'.clients[i] == s.clients[i])
    && (forall i :: |s.clients| <= i < |s'.clients| ==> s'.clients[i].Free?)
    && Elsewhere(s.tasks, s'.tasks, t) && Elsewhere(s.msgs, s'.msgs, m)
    && (w < |s.workers| ==> s.workers[w].AtPool? || s.workers[w].t == t)
    && (w < |s.workers| ==> (Carries(s.workers[w]).Some? ==> Carries(s.workers[w]).value == m))
    && (c < |s.clients| ==>
          (s.clients[c].Pushing? || s.clients[c].Appending? || s.clients[c].Notifying? ==> s.clients[c].t == t))
    && (c < |s.clients| && s.clients[c].Appending? ==> s.clients[c].m == m)
    && (t < |s.tasks| ==> TaskChange(s, s', w, c, t, m))
    && (m < |s.msgs| ==> MsgChange(s.msgs[m], s'.msgs[m], w, c, t))
    && (forall t' :: t' in s.queue && t' != t ==> t' in s'.queue)
  }

  predicate TaskChange(s: System, s': System, w: nat, c: nat, t: nat, m: nat)
    requires t < |s.tasks| && t < |s'.tasks|
  {
    var k, k' := s.tasks[t], s'.tasks[t];
    && (k'.owner == k.owner || k.owner.Nobody? || k.owner.InQueue? || k.owner == Worker(w) || k.owner == WorkerPush(w)
        || k.owner == ClientPush(c))
    && (k.state.TASK_DEAD? ==> k'.state.TASK_DEAD?) && k'.client == k.client
    && (k'.referenced == k.referenced || forall c' :: 0 <= c' < |s.clients| ==> !SendingTo(s.clients[c'], t))
    && (forall m' :: m' in k.mbox.linked && m' != m ==> m' in k'.mbox.linked)
    && (forall m' :: m' in k.mbox.appended ==> m' in k'.mbox.appended)
  }

  predicate MsgChange(g: Msg, g': Msg, w: nat, c: nat, t: nat) {
    && g'.to == g.to && g'.keeper == g.keeper
    && (g'.place == g.place || (g.to == t && !g'.place.Sending?
          && (g.place.Linked? || g.place == Sending(c) || g.place == Carried(w))))
    && (g'.kept == g.kept || g.keeper == c)
    && (Replied(g.letter) ==> Replied(g'.letter))
  }

  /** What the changed parts must satisfy themselves. */
  ghost predicate Settled(s: System, w: nat, c: nat, t: nat, m: nat) {
    && QueueOk(s)
    && (w < |s.workers| ==> WorkerOk(s, w))
    && (c < |s.clients| ==> ClientOk(s, c))
    && (t < |s.tasks| ==> OwnerOk(s, t) && BoxOk(s, t) && (Asleep(s.tasks[t]) ==> Rousing(s, t)))
    && (m < |s.msgs| ==> MsgOk(s, m))
  }

  lemma InvMeans(s: System, w: nat, c: nat, t: nat, m: nat)
    requires Inv(s)
    ensures Settled(s, w, c, t, m)
  {
  }

  lemma OtherTask(s: System, s': System, w: nat, c: nat, t: nat, m: nat, t': nat)
    requires Inv(s) && Local(s, s', w, c, t, m) && t' < |s.tasks| && t' != t
    ensures OwnerOk(s', t')
  {
    assert OwnerOk(s, t');
  }

  lemma OtherBox(s: System, s': System, w: nat, c: nat, t: nat, m: nat, t': nat)
    requires Inv(s) && Local(s, s', w, c, t, m) && t' < |s.tasks| && t' != t
    ensures BoxOk(s', t')
  {
    assert BoxOk(s, t');
  }

  lemma OtherSleep(s: System, s': System, w: nat, c: nat, t: nat, m: nat, t': nat)
    requires Inv(s) && Local(s, s', w, c, t, m) && t' < |s.tasks| && t' != t && Asleep(s'.tasks[t'])
    ensures Rousing(s', t')
  {
    assert Rousing(s, t');
    if c' :| 0 <= c' < |s.clients| && s.clients[c'] == Notifying(t') {
      assert s'.clients[c'] == Notifying(t');
    } else {
      var w' :| 0 <= w' < |s.workers| && (s.workers[w'] == Peeking(t') || s.workers[w'] == Renotifying(t'));
      assert s'.workers[w'] == s.workers[w'];
    }
  }

  lemma OtherWorker(s: System, s': System, w: nat, c: nat, t: nat, m: nat, w': nat)
    requires Inv(s) && Local(s, s', w, c, t, m) && w' < |s.workers| && w' != w
    ensures WorkerOk(s', w')
  {
    assert WorkerOk(s, w');
  }

  lemma OtherClient(s: System, s': System, w: nat, c: nat, t: nat, m: nat, c': nat)
    requires Inv(s) && Local(s, s', w, c, t, m) && c' < |s'.clients| && c' != c
    ensures ClientOk(s', c')
  {
    assert c' < |s.clients| ==> ClientOk(s, c');
  }

  lemma OtherMsg(s: System, s': System, w: nat, c: nat, t: nat, m: nat, m': nat)
    requires Inv(s) && Local(s, s', w, c, t, m) && m' < |s.msgs| && m' != m
    ensures MsgOk(s', m')
  {
    assert MsgOk(s, m');
  }

  /** A local step whose own parts are settled keeps the invariant. */
  lemma LocalOk(s: System, s': System, w: nat, c: nat, t: nat, m: nat)
    requires Inv(s) && Local(s, s', w, c, t, m) && Settled(s', w, c, t, m)
    ensures Inv(s')
  {
    hide OwnerOk, BoxOk, WorkerOk, ClientOk, MsgOk, QueueOk, Rousing;
    forall t' | 0 <= t' < |s'.tasks| ensures OwnerOk(s', t') && BoxOk(s', t')
        && (Asleep(s'.tasks[t']) ==> Rousing(s', t')) {
      if t' != t {
        OtherTask(s, s', w, c, t, m, t');
        OtherBox(s, s', w, c, t, m, t');
        if Asleep(s'.tasks[t']) { OtherSleep(s, s', w, c, t, m, t'); }
      }
    }
    forall w' | 0 <= w' < |s'.workers| ensures WorkerOk(s', w') { if w' != w { OtherWorker(s, s', w, c, t, m, w'); } }
    forall c' | 0 <= c' < |s'.clients| ensures ClientOk(s', c') { if c' != c { OtherClient(s, s', w, c, t, m, c'); } }
    forall m' | 0 <= m' < |s'.msgs| ensures MsgOk(s', m') { if m' != m { OtherMsg(s, s', w, c, t, m, m'); } }
  }

  lemma SameQueue(s: System, s': System)
    requires QueueOk(s) && s'.queue == s.queue && |s'.tasks| >= |s.tasks|
    requires forall t :: 0 <= t < |s.tasks| ==> s'.tasks[t].owner == s.tasks[t].owner
    ensures QueueOk(s')
  {
  }

  lemma WorkerRouses(s: System, w: nat, t: nat)
    requires w < |s.workers| && (s.workers[w] == Peeking(t) || s.workers[w] == Renotifying(t))
    ensures Rousing(s, t)
  {
  }

  lemma ClientRouses(s: System, c: nat, t: nat)
    requires c < |s.clients| && s.clients[c] == Notifying(t)
    ensures Rousing(s, t)
  {
  }

  lemma TakeOk(b: Box<nat>)
    requires Ordered(b) && Distinct(b.appended) && b.linked != []
    ensures Ordered(Take(b)) && Distinct(b.linked)
    ensures forall m :: m in b.linked && m != b.linked[0] ==> m in Take(b).linked
    ensures b.linked[0] !in Take(b).linked
  {
    PutTake(b, 0);
    assert forall i :: 0 <= i < |b.linked| ==> b.linked[i] == b.appended[|b.taken| + i];
    assert b.linked == [b.linked[0]] + b.linked[1..];
  }

  function HeadOf(s: System, t: nat): nat
    requires t < |s.tasks|
  {
    var q := s.tasks[t].mbox.linked; if q == [] then |s.msgs| else q[0]
  }

  /** What a step may change: a worker, a client, a task and a message, numbers out of range meaning none. */
  datatype Focus = Focus(w: nat, c: nat, t: nat, m: nat)

  function FocusOf(s: System, a: Action): Focus
    requires Enabled(s, a)
  {
    var none := Focus(|s.workers|, |s.clients|, |s.tasks|, |s.msgs|);
    if ByWorker(a) then
      var pc := s.workers[a.w];
      if a.Pop? then none.(w := a.w, t := s.queue[0])
      else if a.Receive? || a.Drain? then none.(w := a.w, t := pc.t, m := HeadOf(s, pc.t))
      else none.(w := a.w, t := pc.t, m := if Carries(pc).Some? then Carries(pc).value else |s.msgs|)
    else
      var pc := s.clients[a.c];
      if a.Push? || a.Notify? then none.(c := a.c, t := pc.t)
      else if a.Append? then none.(c := a.c, t := pc.t, m := pc.m)
      else if a.Await? || a.Drop? then none.(c := a.c, m := a.m)
      else if a.Wake? || a.ReadAnswer? then none.(c := a.c, m := pc.m)
      else if a.DropMailbox? then none.(c := a.c, t := a.t)
      else none.(c := a.c)
  }

  lemma PopKeeps(s: System, a: Action)
    requires Inv(s) && Enabled(s, a) && a.Pop?
    ensures Inv(Next(s, a))
  {
    hide Inv, Rousing;
    var f := FocusOf(s, a);
    InvMeans(s, f.w, f.c, f.t, f.m);
    LocalOk(s, Next(s, a), f.w, f.c, f.t, f.m);
  }

  lemma StartKeeps(s: System, a: Action)
    requires Inv(s) && Enabled(s, a) && a.Start?
    ensures Inv(Next(s, a))
  {
    hide Inv, Rousing;
    var f := FocusOf(s, a);
    InvMeans(s, f.w, f.c, f.t, f.m);
    LocalOk(s, Next(s, a), f.w, f.c, f.t, f.m);
  }

  /** The oldest message moves from the mailbox of the task that worker `w` holds to the worker. */
  lemma FetchKeeps(s: System, w: nat, pc: WorkerPc)
    requires Inv(s) && w < |s.workers| && Holds(s.workers[w]).Some? && Carries(s.workers[w]).None?
    requires var t := s.workers[w].t;
      t < |s.tasks| && s.tasks[t].mbox.linked != [] && s.tasks[t].mbox.linked[0] < |s.msgs|
    requires pc == (if Dying(s.workers[w]) then Refusing(s.workers[w].t, s.tasks[s.workers[w].t].mbox.linked[0])
                    else Received(s.workers[w].t, s.tasks[s.workers[w].t].mbox.linked[0]))
    requires !s.workers[w].Popped?
    ensures Inv(SetWorker(Fetched(s, s.workers[w].t, w), w, pc))
  {
    hide Inv, Rousing, QueueOk, Distinct;
    var t, none := s.workers[w].t, |s.clients|;
    var m := s.tasks[t].mbox.linked[0];
    InvMeans(s, w, none, t, m);
    TakeOk(s.tasks[t].mbox);
    var s' := SetWorker(Fetched(s, t, w), w, pc);
    SameQueue(s, s');
    LocalOk(s, s', w, none, t, m);
  }

  /** A worker that holds a task goes from one point without a message to another. */
  lemma MoveKeeps(s: System, w: nat, pc: WorkerPc)
    requires Inv(s) && w < |s.workers| && InRange(s, s.workers[w]) && Holds(s.workers[w]).Some?
        && Carries(s.workers[w]).None?
    requires Holds(pc) == Holds(s.workers[w]) && Carries(pc).None? && Dying(pc) == Dying(s.workers[w])
    requires !pc.Popped? && !s.workers[w].Popped?
    ensures Inv(SetWorker(s, w, pc))
  {
    hide Inv, Rousing, QueueOk, Distinct;
    var t := s.workers[w].t;
    InvMeans(s, w, |s.clients|, t, |s.msgs|);
    var s' := SetWorker(s, w, pc);
    SameQueue(s, s');
    LocalOk(s, s', w, |s.clients|, t, |s.msgs|);
  }

  lemma ReceiveKeeps(s: System, a: Action)
    requires Inv(s) && Enabled(s, a) && a.Receive?
    ensures Inv(Next(s, a))
  {
    hide Inv, SetWorker, Fetched;
    var t := s.workers[a.w].t;
    var q := s.tasks[t].mbox.linked;
    if q == [] { MoveKeeps(s, a.w, Evaluating(t, None)); } else { FetchKeeps(s, a.w, Received(t, q[0])); }
  }

  lemma DrainKeeps(s: System, a: Action)
    requires Inv(s) && Enabled(s, a) && a.Drain?
    ensures Inv(Next(s, a))
  {
    hide Inv, SetWorker, Fetched;
    var t := s.workers[a.w].t;
    var q := s.tasks[t].mbox.linked;
    if q == [] { MoveKeeps(s, a.w, Closing(t)); } else { FetchKeeps(s, a.w, Refusing(t, q[0])); }
  }

  lemma TakeContentKeeps(s: System, a: Action)
    requires Inv(s) && Enabled(s, a) && a.TakeContent?
    ensures Inv(Next(s, a))
  {
    hide Inv, Rousing, QueueOk;
    var f := FocusOf(s, a);
    InvMeans(s, f.w, f.c, f.t, f.m);
    SameQueue(s, Next(s, a));
    LocalOk(s, Next(s, a), f.w, f.c, f.t, f.m);
  }

  lemma FinishKeeps(s: System, a: Action)
    requires Inv(s) && Enabled(s, a) && a.Finish?
    ensures Inv(Next(s, a))
  {
    hide Inv, Rousing, QueueOk;
    var f := FocusOf(s, a);
    InvMeans(s, f.w, f.c, f.t, f.m);
    SameQueue(s, Next(s, a));
    LocalOk(s, Next(s, a), f.w, f.c, f.t, f.m);
  }

  lemma AnswerKeeps(s: System, a: Action)
    requires Inv(s) && Enabled(s, a) && a.Answer?
    ensures Inv(Next(s, a))
  {
    hide Inv, Rousing, QueueOk;
    var f := FocusOf(s, a);
    InvMeans(s, f.w, f.c, f.t, f.m);
    SameQueue(s, Next(s, a));
    LocalOk(s, Next(s, a), f.w, f.c, f.t, f.m);
  }

  lemma ReleaseAnsweredKeeps(s: System, a: Action)
    requires Inv(s) && Enabled(s, a) && a.ReleaseAnswered?
    ensures Inv(Next(s, a))
  {
    hide Inv, Rousing, QueueOk;
    var f := FocusOf(s, a);
    InvMeans(s, f.w, f.c, f.t, f.m);
    SameQueue(s, Next(s, a));
    LocalOk(s, Next(s, a), f.w, f.c, f.t, f.m);
  }

  lemma GoIdleKeeps(s: System, a: Action)
    requires Inv(s) && Enabled(s, a) && a.GoIdle?
    ensures Inv(Next(s, a))
  {
    hide Inv, Rousing;
    var f := FocusOf(s, a);
    InvMeans(s, f.w, f.c, f.t, f.m);
    WorkerRouses(Next(s, a), f.w, f.t);
    LocalOk(s, Next(s, a), f.w, f.c, f.t, f.m);
  }

  lemma PeekKeeps(s: System, a: Action)
    requires Inv(s) && Enabled(s, a) && a.Peek?
    ensures Inv(Next(s, a))
  {
    hide Inv, Rousing;
    var f := FocusOf(s, a);
    InvMeans(s, f.w, f.c, f.t, f.m);
    if s.tasks[f.t].mbox.linked != [] { WorkerRouses(Next(s, a), f.w, f.t); }
    LocalOk(s, Next(s, a), f.w, f.c, f.t, f.m);
  }

  lemma RenotifyKeeps(s: System, a: Action)
    requires Inv(s) && Enabled(s, a) && a.Renotify?
    ensures Inv(Next(s, a))
  {
    hide Inv, Rousing;
    var f := FocusOf(s, a);
    InvMeans(s, f.w, f.c, f.t, f.m);
    LocalOk(s, Next(s, a), f.w, f.c, f.t, f.m);
  }

  lemma RepushKeeps(s: System, a: Action)
    requires Inv(s) && Enabled(s, a) && a.Repush?
    ensures Inv(Next(s, a))
  {
    hide Inv, Rousing;
    var f := FocusOf(s, a);
    InvMeans(s, f.w, f.c, f.t, f.m);
    LocalOk(s, Next(s, a), f.w, f.c, f.t, f.m);
  }

  lemma DieKeeps(s: System, a: Action)
    requires Inv(s) && Enabled(s, a) && a.Die?
    ensures Inv(Next(s, a))
  {
    hide Inv, Rousing;
    var f := FocusOf(s, a);
    InvMeans(s, f.w, f.c, f.t, f.m);
    LocalOk(s, Next(s, a), f.w, f.c, f.t, f.m);
  }

  lemma RefuseKeeps(s: System, a: Action)
    requires Inv(s) && Enabled(s, a) && a.Refuse?
    ensures Inv(Next(s, a))
  {
    hide Inv, Rousing, QueueOk;
    var f := FocusOf(s, a);
    InvMeans(s, f.w, f.c, f.t, f.m);
    SameQueue(s, Next(s, a));
    LocalOk(s, Next(s, a), f.w, f.c, f.t, f.m);
  }

  lemma DiscardKeeps(s: System, a: Action)
    requires Inv(s) && Enabled(s, a) && a.Discard?
    ensures Inv(Next(s, a))
  {
    hide Inv, Rousing, QueueOk;
    var f := FocusOf(s, a);
    InvMeans(s, f.w, f.c, f.t, f.m);
    SameQueue(s, Next(s, a));
    LocalOk(s, Next(s, a), f.w, f.c, f.t, f.m);
  }

  lemma CloseKeeps(s: System, a: Action)
    requires Inv(s) && Enabled(s, a) && a.Close?
    ensures Inv(Next(s, a))
  {
    hide Inv, Rousing;
    var f := FocusOf(s, a);
    InvMeans(s, f.w, f.c, f.t, f.m);
    LocalOk(s, Next(s, a), f.w, f.c, f.t, f.m);
  }

  lemma SpawnKeeps(s: System, a: Action)
    requires Inv(s) && Enabled(s, a) && a.Spawn?
    ensures Inv(Next(s, a))
  {
    hide Inv, Rousing;
    var f := FocusOf(s, a);
    InvMeans(s, f.w, f.c, f.t, f.m);
    LocalOk(s, Next(s, a), f.w, f.c, f.t, f.m);
  }

  lemma PushKeeps(s: System, a: Action)
    requires Inv(s) && Enabled(s, a) && a.Push?
    ensures Inv(Next(s, a))
  {
    hide Inv, Rousing;
    var f := FocusOf(s, a);
    InvMeans(s, f.w, f.c, f.t, f.m);
    LocalOk(s, Next(s, a), f.w, f.c, f.t, f.m);
  }

  lemma CreateKeeps(s: System, a: Action)
    requires Inv(s) && Enabled(s, a) && a.Create?
    ensures Inv(Next(s, a))
  {
    hide Inv, Rousing;
    var f := FocusOf(s, a);
    InvMeans(s, f.w, f.c, f.t, f.m);
    LocalOk(s, Next(s, a), f.w, f.c, f.t, f.m);
  }

  lemma AppendKeeps(s: System, a: Action)
    requires Inv(s) && Enabled(s, a) && a.Append?
    ensures Inv(Next(s, a))
  {
    hide Inv, Rousing, QueueOk, Distinct;
    var f := FocusOf(s, a);
    InvMeans(s, f.w, f.c, f.t, f.m);
    assert f.m !in s.tasks[f.t].mbox.appended;
    DistinctNext(s.tasks[f.t].mbox.appended, f.m);
    PutTake(s.tasks[f.t].mbox, f.m);
    ClientRouses(Next(s, a), f.c, f.t);
    SameQueue(s, Next(s, a));
    LocalOk(s, Next(s, a), f.w, f.c, f.t, f.m);
  }

  lemma NotifyKeeps(s: System, a: Action)
    requires Inv(s) && Enabled(s, a) && a.Notify?
    ensures Inv(Next(s, a))
  {
    hide Inv, Rousing;
    var f := FocusOf(s, a);
    InvMeans(s, f.w, f.c, f.t, f.m);
    LocalOk(s, Next(s, a), f.w, f.c, f.t, f.m);
  }

  lemma AwaitKeeps(s: System, a: Action)
    requires Inv(s) && Enabled(s, a) && a.Await?
    ensures Inv(Next(s, a))
  {
    hide Inv, Rousing;
    var f := FocusOf(s, a);
    InvMeans(s, f.w, f.c, f.t, f.m);
    LocalOk(s, Next(s, a), f.w, f.c, f.t, f.m);
  }

  lemma WakeKeeps(s: System, a: Action)
    requires Inv(s) && Enabled(s, a) && a.Wake?
    ensures Inv(Next(s, a))
  {
    hide Inv, Rousing;
    var f := FocusOf(s, a);
    InvMeans(s, f.w, f.c, f.t, f.m);
    LocalOk(s, Next(s, a), f.w, f.c, f.t, f.m);
  }

  lemma ReadAnswerKeeps(s: System, a: Action)
    requires Inv(s) && Enabled(s, a) && a.ReadAnswer?
    ensures Inv(Next(s, a))
  {
    hide Inv, Rousing;
    var f := FocusOf(s, a);
    InvMeans(s, f.w, f.c, f.t, f.m);
    LocalOk(s, Next(s, a), f.w, f.c, f.t, f.m);
  }

  lemma DropKeeps(s: System, a: Action)
    requires Inv(s) && Enabled(s, a) && a.Drop?
    ensures Inv(Next(s, a))
  {
    hide Inv, Rousing;
    var f := FocusOf(s, a);
    InvMeans(s, f.w, f.c, f.t, f.m);
    LocalOk(s, Next(s, a), f.w, f.c, f.t, f.m);
  }

  lemma DropMailboxKeeps(s: System, a: Action)
    requires Inv(s) && Enabled(s, a) && a.DropMailbox?
    ensures Inv(Next(s, a))
  {
    hide Inv;
    var f := FocusOf(s, a);
    InvMeans(s, f.w, f.c, f.t, f.m);
    assert Rousing(s, f.t) ==> Rousing(Next(s, a), f.t);
    LocalOk(s, Next(s, a), f.w, f.c, f.t, f.m);
  }

  /** Every step keeps the invariant. */
  lemma StepKeeps(s: System, a: Action)
    requires Inv(s) && Enabled(s, a)
    ensures Inv(Next(s, a))
  {
    hide Inv, Enabled, Next;
    match a
    case Pop(_) => PopKeeps(s, a);
    case Start(_) => StartKeeps(s, a);
    case Receive(_) => ReceiveKeeps(s, a);
    case TakeContent(_) => TakeContentKeeps(s, a);
    case Finish(_, _, _) => FinishKeeps(s, a);
    case Answer(_) => AnswerKeeps(s, a);
    case ReleaseAnswered(_) => ReleaseAnsweredKeeps(s, a);
    case GoIdle(_) => GoIdleKeeps(s, a);
    case Peek(_) => PeekKeeps(s, a);
    case Renotify(_) => RenotifyKeeps(s, a);
    case Repush(_) => RepushKeeps(s, a);
    case Die(_) => DieKeeps(s, a);
    case Drain(_) => DrainKeeps(s, a);
    case Refuse(_) => RefuseKeeps(s, a);
    case Discard(_) => DiscardKeeps(s, a);
    case Close(_) => CloseKeeps(s, a);
    case Spawn(_) => SpawnKeeps(s, a);
    case Push(_) => PushKeeps(s, a);
    case Create(_, _, _) => CreateKeeps(s, a);
    case Append(_) => AppendKeeps(s, a);
    case Notify(_) => NotifyKeeps(s, a);
    case Await(_, _) => AwaitKeeps(s, a);
    case Wake(_) => WakeKeeps(s, a);
    case ReadAnswer(_) => ReadAnswerKeeps(s, a);
    case Drop(_, _) => DropKeeps(s, a);
    case DropMailbox(_, _) => DropMailboxKeeps(s, a);
  }

  /** It holds in every state of every run, whatever the interleaving. */
  lemma {:induction false} RunKeeps(run: seq<System>, actions: seq<Action>, i: nat)
    requires IsRun(run, actions) && i < |run|
    ensures Inv(run[i])
  {
    hide Inv, Enabled, Next;
    if i == 0 {
      InitialOk(run[0]);
    } else {
      RunKeeps(run, actions, i - 1);
      assert run[(i - 1) + 1] == Next(run[i - 1], actions[i - 1]);
      StepKeeps(run[i - 1], actions[i - 1]);
    }
  }

  lemma ReachableOk(s: System)
    requires Reachable(s)
    ensures Inv(s)
  {
    hide Inv;
    var run, actions :| IsRun(run, actions) && run[|run| - 1] == s;
    RunKeeps(run, actions, |run| - 1);
  }
}
