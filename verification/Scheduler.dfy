/** The worker pool as a machine of interleaved steps, one per locked section. A program counter per worker and
    per client says what it does next. A client is a Lua state, whose code may spawn, send and wait: that of a task
    runs only while a worker evaluates the task, and the worker goes on only when it is done. Tasks, clients and
    messages are numbered in order of creation and a number is never used again. The mutex of a task is not part
    of the state: the two halves of a notification may be separated by any other step. */
module Scheduler {
  import opened Mailboxes
  import TaskQueue

  datatype Option<T> = None | Some(value: T)

  datatype TaskState = TASK_IDLE | TASK_INIT | TASK_WAITING | TASK_PROCESSING | TASK_DEAD

  /** Who has a task in hand; bookkeeping that no step reads. */
  datatype Owner = Nobody | InQueue | Worker(w: nat) | WorkerPush(w: nat) | ClientPush(c: nat)

  /** A task, its mailbox, whether the one reference to that mailbox is still held, and its Lua state. */
  datatype Task = Task(state: TaskState, loaded: bool, mbox: Box<nat>, referenced: bool, client: nat, owner: Owner)

  /** Where a message is; bookkeeping that no step reads. */
  datatype Place = Sending(c: nat) | Linked | Carried(w: nat) | Finished

  /** A message to task `to` with the value it was sent with; `kept` while the sender holds its reference, and the
      answer the receiver gave. */
  datatype Msg = Msg(to: nat, request: nat, letter: Letter, kept: bool, keeper: nat, place: Place, answer: Option<nat>)

  datatype WorkerPc =
    | AtPool
    | Popped(t: nat)
    | FirstRun(t: nat)
    | Receiving(t: nat)
    | Received(t: nat, m: nat)
    | Evaluating(t: nat, msg: Option<nat>)
    | Answering(t: nat, m: nat, survives: bool)
    | Releasing(t: nat, m: nat, survives: bool)
    | Deciding(t: nat, survives: bool)
    | Peeking(t: nat)
    | Renotifying(t: nat)
    | Repushing(t: nat)
    | Draining(t: nat)
    | Refusing(t: nat, m: nat)
    | Discarding(t: nat, m: nat)
    | Closing(t: nat)

  datatype ClientPc =
    | Free
    | Pushing(t: nat)
    | Appending(t: nat, m: nat)
    | Notifying(t: nat)
    | Waiting(m: nat)
    | Reading(m: nat)

  datatype System = System(tasks: seq<Task>, msgs: seq<Msg>, queue: seq<nat>, workers: seq<WorkerPc>,
      clients: seq<ClientPc>)

  /** The task a worker has in hand: from the pop until the task is idle again, or gone. */
  function Holds(pc: WorkerPc): Option<nat> {
    match pc
    case AtPool => None
    case Peeking(_) => None
    case Renotifying(_) => None
    case Repushing(_) => None
    case _ => Some(pc.t)
  }

  /** The worker is inside the Lua code of task `t`. */
  predicate Evaluates(pc: WorkerPc, t: nat) { (pc.FirstRun? || pc.Evaluating?) && pc.t == t }

  // ---------- Small updates ----------

  function SetWorker(s: System, w: nat, pc: WorkerPc): System
    requires w < |s.workers|
  {
    s.(workers := s.workers[w := pc])
  }

  function SetClient(s: System, c: nat, pc: ClientPc): System
    requires c < |s.clients|
  {
    s.(clients := s.clients[c := pc])
  }

  function SetTask(s: System, t: nat, task: Task): System
    requires t < |s.tasks|
  {
    s.(tasks := s.tasks[t := task])
  }

  function SetMsg(s: System, m: nat, msg: Msg): System
    requires m < |s.msgs|
  {
    s.(msgs := s.msgs[m := msg])
  }

  // ---------- Actions ----------

  datatype Action =
    | Pop(w: nat)
    | Start(w: nat)
    | Receive(w: nat)
    | TakeContent(w: nat)
    | Finish(w: nat, survives: bool, answer: nat)
    | Answer(w: nat)
    | ReleaseAnswered(w: nat)
    | GoIdle(w: nat)
    | Peek(w: nat)
    | Renotify(w: nat)
    | Repush(w: nat)
    | Die(w: nat)
    | Drain(w: nat)
    | Refuse(w: nat)
    | Discard(w: nat)
    | Close(w: nat)
    | Spawn(c: nat)
    | Push(c: nat)
    | Create(c: nat, t: nat, value: nat)
    | Append(c: nat)
    | Notify(c: nat)
    | Await(c: nat, m: nat)
    | Wake(c: nat)
    | ReadAnswer(c: nat)
    | Drop(c: nat, m: nat)
    | DropMailbox(c: nat, t: nat)

  /** The client is in the middle of a send to `t`. */
  predicate SendingTo(pc: ClientPc, t: nat) { (pc.Appending? && pc.t == t) || (pc.Notifying? && pc.t == t) }

  /** The task and message a worker works on exist. */
  predicate InRange(s: System, pc: WorkerPc) {
    && (!pc.AtPool? ==> pc.t < |s.tasks|)
    && (pc.Received? || pc.Answering? || pc.Releasing? || pc.Refusing? || pc.Discarding? ==> pc.m < |s.msgs|)
    && (pc.Evaluating? && pc.msg.Some? ==> pc.msg.value < |s.msgs|)
    && (!pc.AtPool? ==> s.tasks[pc.t].client < |s.clients|)
  }

  predicate HeadInRange(s: System, t: nat)
    requires t < |s.tasks|
  {
    var q := s.tasks[t].mbox.linked; q == [] || q[0] < |s.msgs|
  }

  predicate ClientInRange(s: System, pc: ClientPc) {
    && (pc.Pushing? || pc.Appending? || pc.Notifying? ==> pc.t < |s.tasks|)
    && (pc.Appending? || pc.Waiting? || pc.Reading? ==> pc.m < |s.msgs|)
  }

  predicate WorkerEnabled(s: System, a: Action, pc: WorkerPc)
    requires InRange(s, pc)
  {
    match a
    case Pop(_) => pc.AtPool? && s.queue != [] && s.queue[0] < |s.tasks|
    case Start(_) => pc.Popped?
    case Receive(_) => pc.Receiving? && HeadInRange(s, pc.t)
    case TakeContent(_) => pc.Received?
    case Finish(_, _, _) => (pc.FirstRun? || pc.Evaluating?) && s.clients[s.tasks[pc.t].client].Free?
    case Answer(_) => pc.Answering?
    case ReleaseAnswered(_) => pc.Releasing?
    case GoIdle(_) => pc.Deciding? && pc.survives
    case Peek(_) => pc.Peeking?
    case Renotify(_) => pc.Renotifying?
    case Repush(_) => pc.Repushing?
    case Die(_) => pc.Deciding? && !pc.survives
    case Drain(_) => pc.Draining? && HeadInRange(s, pc.t)
    case Refuse(_) => pc.Refusing?
    case Discard(_) => pc.Discarding?
    case Close(_) => pc.Closing?
    case _ => false
  }

  /** A client runs if it is not the Lua state of a task, or if a worker evaluates that task; what it no longer refers
      to may be collected whenever a worker has the task in hand. */
  predicate MayRun(s: System, c: nat, collecting: bool) {
    forall t :: 0 <= t < |s.tasks| && s.tasks[t].client == c ==>
      exists w :: 0 <= w < |s.workers|
        && if collecting then Holds(s.workers[w]) == Some(t) else Evaluates(s.workers[w], t)
  }

  predicate ClientEnabled(s: System, a: Action, pc: ClientPc)
    requires ClientInRange(s, pc)
  {
    match a
    case Spawn(_) => pc.Free?
    case Push(_) => pc.Pushing?
    case Create(_, t, _) => pc.Free? && t < |s.tasks| && s.tasks[t].referenced && s.tasks[t].mbox.closed == 0
    case Append(_) => pc.Appending?
    case Notify(_) => pc.Notifying?
    case Await(c, m) => pc.Free? && m < |s.msgs| && s.msgs[m].kept && s.msgs[m].keeper == c
    case Wake(_) => pc.Waiting? && Mailboxes.Replied(s.msgs[pc.m].letter)
    case ReadAnswer(_) => pc.Reading?
    case Drop(c, m) => pc.Free? && m < |s.msgs| && s.msgs[m].kept && s.msgs[m].keeper == c
    case DropMailbox(_, t) =>
      pc.Free? && t < |s.tasks| && s.tasks[t].referenced
          && forall c :: 0 <= c < |s.clients| ==> !SendingTo(s.clients[c], t)
    case _ => false
  }

  predicate ByWorker(a: Action) {
    a.Pop? || a.Start? || a.Receive? || a.TakeContent? || a.Finish? || a.Answer? || a.ReleaseAnswered? || a.GoIdle?
    || a.Peek? || a.Renotify? || a.Repush? || a.Die? || a.Drain? || a.Refuse? || a.Discard? || a.Close?
  }

  predicate Enabled(s: System, a: Action) {
    if ByWorker(a) then a.w < |s.workers| && InRange(s, s.workers[a.w]) && WorkerEnabled(s, a, s.workers[a.w])
    else
      && a.c < |s.clients| && ClientInRange(s, s.clients[a.c]) && ClientEnabled(s, a, s.clients[a.c])
      && MayRun(s, a.c, a.Drop? || a.DropMailbox?)
  }

  /** Task `t` is woken if it is idle, and whoever does it goes on to push it. */
  function Woken(s: System, t: nat, who: Owner): System
    requires t < |s.tasks|
  {
    SetTask(s, t, s.tasks[t].(state := TASK_WAITING, owner := who))
  }

  function Enqueued(s: System, t: nat): System
    requires t < |s.tasks|
  {
    SetTask(s.(queue := TaskQueue.Behind(s.queue, t)), t, s.tasks[t].(owner := InQueue))
  }

  /** The oldest message of task `t` goes to worker `w`. */
  function Fetched(s: System, t: nat, w: nat): System
    requires t < |s.tasks| && s.tasks[t].mbox.linked != [] && s.tasks[t].mbox.linked[0] < |s.msgs|
  {
    var m := s.tasks[t].mbox.linked[0];
    SetMsg(SetTask(s, t, s.tasks[t].(mbox := Mailboxes.Take(s.tasks[t].mbox))), m, s.msgs[m].(place := Carried(w)))
  }

  /** The receiver drops its reference. */
  function ReceiverReleased(s: System, m: nat): System
    requires m < |s.msgs|
  {
    SetMsg(s, m, s.msgs[m].(letter := Mailboxes.Release(s.msgs[m].letter), place := Finished))
  }

  function WorkerStep(s: System, a: Action): System
    requires ByWorker(a) && Enabled(s, a)
  {
    var w := a.w;
    var pc := s.workers[w];
    match a
    case Pop(_) =>
      var t := s.queue[0];
      SetWorker(SetTask(s.(queue := TaskQueue.Rest(s.queue)), t, s.tasks[t].(owner := Worker(w))), w, Popped(t))
    case Start(_) =>
      var task := s.tasks[pc.t];
      SetWorker(SetTask(s, pc.t, task.(state := TASK_PROCESSING, loaded := true)), w,
                if task.loaded then Receiving(pc.t) else FirstRun(pc.t))
    case Receive(_) =>
      var b := s.tasks[pc.t].mbox;
      if b.linked == [] then SetWorker(s, w, Evaluating(pc.t, None))
      else SetWorker(Fetched(s, pc.t, w), w, Received(pc.t, b.linked[0]))
    case TakeContent(_) =>
      var msg := s.msgs[pc.m];
      SetWorker(SetMsg(s, pc.m, msg.(letter := Emptied(msg.letter))), w, Evaluating(pc.t, Some(pc.m)))
    case Finish(_, survives, answer) =>
      // Without a message there is nothing to answer: the lines that would use it are under its guard.
      if pc.FirstRun? || pc.msg.None? then SetWorker(s, w, Deciding(pc.t, survives))
      else
        var msg := s.msgs[pc.msg.value];
        SetWorker(SetMsg(s, pc.msg.value, msg.(letter := Answered(msg.letter, answer), answer := Some(answer))),
                  w, Answering(pc.t, pc.msg.value, survives))
    case Answer(_) =>
      var msg := s.msgs[pc.m];
      SetWorker(SetMsg(s, pc.m, msg.(letter := Mailboxes.Reply(msg.letter, false))), w,
          Releasing(pc.t, pc.m, pc.survives))
    case ReleaseAnswered(_) => SetWorker(ReceiverReleased(s, pc.m), w, Deciding(pc.t, pc.survives))
    case GoIdle(_) =>
      SetWorker(SetTask(s, pc.t, s.tasks[pc.t].(state := TASK_IDLE, owner := Nobody)), w, Peeking(pc.t))
    case Peek(_) => SetWorker(s, w, if s.tasks[pc.t].mbox.linked == [] then AtPool else Renotifying(pc.t))
    case Renotify(_) =>
      if s.tasks[pc.t].state.TASK_IDLE? then SetWorker(Woken(s, pc.t, WorkerPush(w)), w, Repushing(pc.t))
      else SetWorker(s, w, AtPool)
    case Repush(_) => SetWorker(Enqueued(s, pc.t), w, AtPool)
    case Die(_) => SetWorker(SetTask(s, pc.t, s.tasks[pc.t].(state := TASK_DEAD)), w, Draining(pc.t))
    case Drain(_) =>
      var b := s.tasks[pc.t].mbox;
      if b.linked == [] then SetWorker(s, w, Closing(pc.t))
      else SetWorker(Fetched(s, pc.t, w), w, Refusing(pc.t, b.linked[0]))
    case Refuse(_) =>
      var msg := s.msgs[pc.m];
      SetWorker(SetMsg(s, pc.m, msg.(letter := Mailboxes.Reply(msg.letter, true))), w, Discarding(pc.t, pc.m))
    case Discard(_) => SetWorker(ReceiverReleased(s, pc.m), w, Draining(pc.t))
    case Close(_) =>
      var task := s.tasks[pc.t];
      SetWorker(SetTask(s, pc.t, task.(mbox := Mailboxes.Destroy(task.mbox), owner := Nobody)), w, AtPool)
  }

  /** A new task, whose Lua state is client `c`. */
  function NewTask(c: nat, owner: Owner): Task { Task(TASK_INIT, false, Box(0, [], [], []), true, c, owner) }

  function ClientStep(s: System, a: Action): System
    requires !ByWorker(a) && Enabled(s, a)
  {
    var c := a.c;
    var pc := s.clients[c];
    match a
    case Spawn(_) =>
      SetClient(s.(tasks := s.tasks + [NewTask(|s.clients|, ClientPush(c))], clients := s.clients + [Free]), c,
                Pushing(|s.tasks|))
    case Push(_) => SetClient(Enqueued(s, pc.t), c, Free)
    case Create(_, t, value) =>
      var msg := Msg(t, value, NewLetter(value), true, c, Sending(c), None);
      SetClient(s.(msgs := s.msgs + [msg]), c, Appending(t, |s.msgs|))
    case Append(_) =>
      var task := s.tasks[pc.t];
      SetClient(SetMsg(SetTask(s, pc.t, task.(mbox := Mailboxes.Put(task.mbox, pc.m))), pc.m,
          s.msgs[pc.m].(place := Linked)),
                c, Notifying(pc.t))
    case Notify(_) =>
      if s.tasks[pc.t].state.TASK_IDLE? then SetClient(Woken(s, pc.t, ClientPush(c)), c, Pushing(pc.t))
      else SetClient(s, c, Free)
    case Await(_, m) => SetClient(s, c, Waiting(m))
    case Wake(_) => SetClient(s, c, Reading(pc.m))
    case ReadAnswer(_) => SetClient(s, c, Free)
    case Drop(_, m) => SetMsg(s, m, s.msgs[m].(letter := Mailboxes.Release(s.msgs[m].letter), kept := false))
    case DropMailbox(_, t) =>
      var task := s.tasks[t];
      SetTask(s, t, task.(mbox := Mailboxes.Destroy(task.mbox), referenced := false))
  }

  function Next(s: System, a: Action): System
    requires Enabled(s, a)
  {
    if ByWorker(a) then WorkerStep(s, a) else ClientStep(s, a)
  }

  /** Any number of workers, and of clients that are not tasks, and nothing else yet. */
  predicate Initial(s: System) {
    && s.tasks == [] && s.msgs == [] && s.queue == []
    && (forall w :: 0 <= w < |s.workers| ==> s.workers[w].AtPool?)
    && (forall c :: 0 <= c < |s.clients| ==> s.clients[c].Free?)
  }

  /** `run` is a sequence of states, each reached from the one before by an enabled action. */
  ghost predicate IsRun(run: seq<System>, actions: seq<Action>) {
    && |run| == |actions| + 1 && Initial(run[0])
    && forall i :: 0 <= i < |actions| ==> Enabled(run[i], actions[i]) && run[i + 1] == Next(run[i], actions[i])
  }

  ghost predicate Reachable(s: System) { exists run, actions :: IsRun(run, actions) && run[|run| - 1] == s }
}
