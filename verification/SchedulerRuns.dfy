/** Runs of the worker pool, step by step, in which what one might expect does not happen. */
module SchedulerRuns {
  import opened Mailboxes
  import opened Scheduler
  import opened SchedulerInvariant
  import opened SchedulerTheorems
  import opened SchedulerProgress

  lemma Starts(s: System)
    requires Initial(s)
    ensures Reachable(s)
  {
    assert IsRun([s], []);
    assert [s][|[s]| - 1] == s;
  }

  lemma Extend(s: System, a: Action, s': System)
    requires Reachable(s) && Enabled(s, a) && s' == Next(s, a)
    ensures Reachable(s')
  {
    hide Enabled, Next, Initial;
    var run, actions :| IsRun(run, actions) && run[|run| - 1] == s;
    var run', actions' := run + [s'], actions + [a];
    forall i | 0 <= i < |actions'| ensures Enabled(run'[i], actions'[i]) && run'[i + 1] == Next(run'[i], actions'[i]) {
      if i < |actions| { assert run'[i] == run[i] && run'[i + 1] == run[i + 1] && actions'[i] == actions[i]; }
    }
    assert IsRun(run', actions');
  }

  /** A pool of one worker and one client, with one task and its Lua state. */
  function One(k: Task, msgs: seq<Msg>, queue: seq<nat>, w: WorkerPc, c: ClientPc): System {
    System([k], msgs, queue, [w], [c, Free])
  }

  const EMPTY: Box<nat> := Box(0, [], [], [])

  function Pending(value: nat, place: Place): Msg { Msg(0, value, NewLetter(value), true, 0, place, None) }

  lemma OneSpawns()
    ensures Reachable(One(Task(TASK_INIT, false, EMPTY, true, 1, ClientPush(0)), [], [], AtPool, Pushing(0)))
  {
    var s := System([], [], [], [AtPool], [Free]);
    Starts(s);
    hide Reachable, Initial;
    Extend(s, Spawn(0), One(Task(TASK_INIT, false, EMPTY, true, 1, ClientPush(0)), [], [], AtPool, Pushing(0)));
  }

  lemma SpawnStart()
    ensures Reachable(One(Task(TASK_INIT, false, EMPTY, true, 1, InQueue), [], [0], AtPool, Free))
  {
    hide Reachable;
    OneSpawns();
    assert [] + [0] == [0];
    Extend(One(Task(TASK_INIT, false, EMPTY, true, 1, ClientPush(0)), [], [], AtPool, Pushing(0)), Push(0),
           One(Task(TASK_INIT, false, EMPTY, true, 1, InQueue), [], [0], AtPool, Free));
  }

  /** A queued task is popped and started. */
  lemma PopStart(k: Task, msgs: seq<Msg>, c: ClientPc)
    requires k.client == 1 && Reachable(One(k, msgs, [0], AtPool, c))
    ensures Reachable(One(k.(state := TASK_PROCESSING, loaded := true, owner := Worker(0)), msgs, [],
                          if k.loaded then Receiving(0) else FirstRun(0), c))
  {
    hide Reachable;
    var s := One(k.(owner := Worker(0)), msgs, [], Popped(0), c);
    Extend(One(k, msgs, [0], AtPool, c), Pop(0), s);
    Extend(s, Start(0), One(k.(state := TASK_PROCESSING, loaded := true, owner := Worker(0)), msgs, [],
                            if k.loaded then Receiving(0) else FirstRun(0), c));
  }

  const RUNNING := Task(TASK_PROCESSING, true, EMPTY, true, 1, Worker(0))

  /** The first run of the task ends and it returns no function. */
  lemma FirstRunEnds()
    ensures Reachable(One(RUNNING.(state := TASK_DEAD), [], [], Closing(0), Free))
  {
    hide Reachable;
    SpawnStart();
    PopStart(Task(TASK_INIT, false, EMPTY, true, 1, InQueue), [], Free);
    var s := One(RUNNING, [], [], Deciding(0, false), Free);
    Extend(One(RUNNING, [], [], FirstRun(0), Free), Finish(0, false, 0), s);
    DieDrain();
  }

  lemma DieDrain()
    requires Reachable(One(RUNNING, [], [], Deciding(0, false), Free))
    ensures Reachable(One(RUNNING.(state := TASK_DEAD), [], [], Closing(0), Free))
  {
    hide Reachable;
    var dead := RUNNING.(state := TASK_DEAD);
    Extend(One(RUNNING, [], [], Deciding(0, false), Free), Die(0), One(dead, [], [], Draining(0), Free));
    Extend(One(dead, [], [], Draining(0), Free), Drain(0), One(dead, [], [], Closing(0), Free));
  }

  /** The only client sends a message to the task, up to the notification. */
  lemma SendFirst(k: Task, w: WorkerPc, value: nat)
    requires k.client == 1 && Reachable(One(k, [], [], w, Free)) && k.referenced && k.mbox == EMPTY
    ensures Reachable(One(k.(mbox := Box(0, [0], [], [0])), [Pending(value, Linked)], [], w, Notifying(0)))
  {
    hide Reachable;
    var s := One(k, [Pending(value, Sending(0))], [], w, Appending(0, 0));
    Extend(One(k, [], [], w, Free), Create(0, 0, value), s);
    assert EMPTY.linked + [0] == [0] && EMPTY.appended + [0] == [0];
    Extend(s, Append(0), One(k.(mbox := Box(0, [0], [], [0])), [Pending(value, Linked)], [], w, Notifying(0)));
  }

  lemma CloseAwait(value: nat)
    requires Reachable(One(RUNNING.(state := TASK_DEAD, mbox := Box(0, [0], [], [0])), [Pending(value, Linked)], [],
        Closing(0), Free))
    ensures Reachable(One(Task(TASK_DEAD, true, Box(1, [0], [], [0]), true, 1, Nobody), [Pending(value, Linked)], [],
        AtPool, Waiting(0)))
  {
    hide Reachable;
    var k := Task(TASK_DEAD, true, Box(1, [0], [], [0]), true, 1, Nobody);
    var msgs := [Pending(value, Linked)];
    Extend(One(RUNNING.(state := TASK_DEAD, mbox := Box(0, [0], [], [0])), msgs, [], Closing(0), Free), Close(0),
           One(k, msgs, [], AtPool, Free));
    Extend(One(k, msgs, [], AtPool, Free), Await(0, 0), One(k, msgs, [], AtPool, Waiting(0)));
  }

  /** A send that lands between the last look and the end of the mailbox leaves its sender waiting for ever. */
  lemma LateSend(value: nat) returns (s: System)
    ensures Reachable(s) && AtRest(s) && |s.clients| == 2 && s.clients[0].Waiting? && s.clients[0].m < |s.msgs|
    ensures !Replied(s.msgs[s.clients[0].m].letter)
  {
    hide Reachable;
    FirstRunEnds();
    var dead := RUNNING.(state := TASK_DEAD);
    SendFirst(dead, Closing(0), value);
    var sent := dead.(mbox := Box(0, [0], [], [0]));
    var msgs := [Pending(value, Linked)];
    Extend(One(sent, msgs, [], Closing(0), Notifying(0)), Notify(0), One(sent, msgs, [], Closing(0), Free));
    CloseAwait(value);
    s := One(Task(TASK_DEAD, true, Box(1, [0], [], [0]), true, 1, Nobody), msgs, [], AtPool, Waiting(0));
  }

  /** The task is gone, and the client has appended a message whose send found the mailbox alive. */
  lemma SendsToGone(value: nat) returns (s: System)
    ensures s == One(Task(TASK_DEAD, true, FULL.(closed := 1), true, 1, Nobody), [Pending(value, Linked)], [],
                     AtPool, Notifying(0))
    ensures Reachable(s)
  {
    hide Reachable;
    FirstRunEnds();
    var dead := RUNNING.(state := TASK_DEAD);
    var gone := Task(TASK_DEAD, true, EMPTY.(closed := 1), true, 1, Nobody);
    var msgs := [Pending(value, Sending(0))];
    Extend(One(dead, [], [], Closing(0), Free), Create(0, 0, value), One(dead, msgs, [], Closing(0), Appending(0, 0)));
    Extend(One(dead, msgs, [], Closing(0), Appending(0, 0)), Close(0), One(gone, msgs, [], AtPool, Appending(0, 0)));
    assert EMPTY.linked + [0] == [0] && EMPTY.appended + [0] == [0];
    s := One(gone.(mbox := FULL.(closed := 1)), [Pending(value, Linked)], [], AtPool, Notifying(0));
    Extend(One(gone, msgs, [], AtPool, Appending(0, 0)), Append(0), s);
  }

  /** A send can also test the mailbox before its end and append after it: the test is not under the lock. Its sender
      waits for ever, too. */
  lemma SendAcrossClose(value: nat) returns (s: System)
    ensures Reachable(s) && AtRest(s) && |s.clients| == 2 && s.clients[0].Waiting? && s.clients[0].m < |s.msgs|
    ensures !Replied(s.msgs[s.clients[0].m].letter)
  {
    hide Reachable;
    var s0 := SendsToGone(value);
    var k, msgs := s0.tasks[0], s0.msgs;
    Extend(s0, Notify(0), One(k, msgs, [], AtPool, Free));
    s := One(k, msgs, [], AtPool, Waiting(0));
    Extend(One(k, msgs, [], AtPool, Free), Await(0, 0), s);
  }

  /** Before that, its notification is for a task that is gone. */
  lemma NotifiesGone(value: nat) returns (s: System)
    ensures Reachable(s) && Enabled(s, Notify(0)) && TouchedTask(s, Notify(0)) == Some(0) && Gone(s.tasks[0])
  {
    hide Reachable;
    s := SendsToGone(value);
  }

  // ---------- A request that comes back ----------

  /** The task ends its first run with a message in its mailbox ... */
  lemma DiesWithMail(value: nat)
    ensures Reachable(One(RUNNING.(state := TASK_DEAD, mbox := FULL), [Pending(value, Linked)], [], Draining(0),
                          Notifying(0)))
  {
    hide Reachable;
    SpawnStart();
    PopStart(Task(TASK_INIT, false, EMPTY, true, 1, InQueue), [], Free);
    SendFirst(RUNNING, FirstRun(0), value);
    var k, msgs, c := RUNNING.(mbox := FULL), [Pending(value, Linked)], Notifying(0);
    Extend(One(k, msgs, [], FirstRun(0), c), Finish(0, false, 0), One(k, msgs, [], Deciding(0, false), c));
    Extend(One(k, msgs, [], Deciding(0, false), c), Die(0),
           One(k.(state := TASK_DEAD), msgs, [], Draining(0), c));
  }

  /** ... and drains it. */
  lemma DrainsFirst(value: nat)
    ensures Reachable(One(RUNNING.(state := TASK_DEAD, mbox := EMPTIED), [Pending(value, Carried(0))], [],
                          Refusing(0, 0), Notifying(0)))
  {
    hide Reachable;
    DiesWithMail(value);
    var dead, c := RUNNING.(state := TASK_DEAD, mbox := FULL), Notifying(0);
    assert FULL.linked[1..] == [] && FULL.taken + [0] == [0];
    Extend(One(dead, [Pending(value, Linked)], [], Draining(0), c), Drain(0),
           One(dead.(mbox := EMPTIED), [Pending(value, Carried(0))], [], Refusing(0, 0), c));
  }

  /** A sender whose message was drained reads its own request as the answer. */
  lemma ReadsOwnRequest(value: nat) returns (s: System)
    ensures Reachable(s) && |s.clients| == 2 && s.clients[0] == Reading(0)
    ensures |s.msgs| == 1 && s.msgs[0].letter.content == Sent(value) && s.msgs[0].answer.None?
  {
    hide Reachable;
    DrainsFirst(value);
    var dead, g := RUNNING.(state := TASK_DEAD, mbox := EMPTIED), Pending(value, Carried(0));
    var refused := g.(letter := Reply(g.letter, true));
    var pc := Discarding(0, 0);
    Extend(One(dead, [g], [], Refusing(0, 0), Notifying(0)), Refuse(0), One(dead, [refused], [], pc, Notifying(0)));
    Extend(One(dead, [refused], [], pc, Notifying(0)), Notify(0), One(dead, [refused], [], pc, Free));
    Extend(One(dead, [refused], [], pc, Free), Await(0, 0), One(dead, [refused], [], pc, Waiting(0)));
    s := One(dead, [refused], [], pc, Reading(0));
    Extend(One(dead, [refused], [], pc, Waiting(0)), Wake(0), s);
  }

  // ---------- A wake-up that comes too late ----------

  /** The task ends its first run alive while the client is about to notify it, and wakes itself. */
  lemma RewakesItself(value: nat)
    ensures var k := Task(TASK_WAITING, true, Box(0, [0], [], [0]), true, 1, InQueue);
      Reachable(One(k, [Pending(value, Linked)], [0], AtPool, Notifying(0)))
  {
    hide Reachable;
    SpawnStart();
    PopStart(Task(TASK_INIT, false, EMPTY, true, 1, InQueue), [], Free);
    SendFirst(RUNNING, FirstRun(0), value);
    var k, msgs := RUNNING.(mbox := Box(0, [0], [], [0])), [Pending(value, Linked)];
    Extend(One(k, msgs, [], FirstRun(0), Notifying(0)), Finish(0, true, 0),
        One(k, msgs, [], Deciding(0, true), Notifying(0)));
    IdleRewake(k, msgs);
  }

  lemma IdleRewake(k: Task, msgs: seq<Msg>)
    requires k.client == 1 && Reachable(One(k, msgs, [], Deciding(0, true), Notifying(0))) && k.mbox.linked != []
    ensures Reachable(One(k.(state := TASK_WAITING, owner := InQueue), msgs, [0], AtPool, Notifying(0)))
  {
    hide Reachable;
    var idle := k.(state := TASK_IDLE, owner := Nobody);
    Extend(One(k, msgs, [], Deciding(0, true), Notifying(0)), GoIdle(0), One(idle, msgs, [], Peeking(0), Notifying(0)));
    Extend(One(idle, msgs, [], Peeking(0), Notifying(0)), Peek(0), One(idle, msgs, [], Renotifying(0), Notifying(0)));
    RewakePush(k, msgs);
  }

  lemma RewakePush(k: Task, msgs: seq<Msg>)
    requires k.client == 1 && Reachable(One(k.(state := TASK_IDLE, owner := Nobody), msgs, [], Renotifying(0),
        Notifying(0)))
    ensures Reachable(One(k.(state := TASK_WAITING, owner := InQueue), msgs, [0], AtPool, Notifying(0)))
  {
    hide Reachable;
    var waiting := k.(state := TASK_WAITING, owner := WorkerPush(0));
    Extend(One(k.(state := TASK_IDLE, owner := Nobody), msgs, [], Renotifying(0), Notifying(0)), Renotify(0),
           One(waiting, msgs, [], Repushing(0), Notifying(0)));
    assert [] + [0] == [0];
    Extend(One(waiting, msgs, [], Repushing(0), Notifying(0)), Repush(0),
           One(k.(state := TASK_WAITING, owner := InQueue), msgs, [0], AtPool, Notifying(0)));
  }

  const EMPTIED: Box<nat> := Box(0, [], [0], [0])

  /** The message is processed and answered, and the task is idle again. */
  lemma Processed(value: nat, answer: nat) returns (done: Msg)
    ensures done == Msg(0, value, Letter(MSG_READY, 1, Content.Answer(answer), false), true, 0, Finished, Some(answer))
    ensures Reachable(One(Task(TASK_PROCESSING, true, EMPTIED, true, 1, Worker(0)), [done], [], Deciding(0, true),
        Notifying(0)))
  {
    hide Reachable;
    RewakesItself(value);
    var full := Box(0, [0], [], [0]);
    PopStart(Task(TASK_WAITING, true, full, true, 1, InQueue), [Pending(value, Linked)], Notifying(0));
    var k := Task(TASK_PROCESSING, true, EMPTIED, true, 1, Worker(0));
    assert full.linked[1..] == [] && full.taken + [0] == [0];
    Extend(One(k.(mbox := full), [Pending(value, Linked)], [], Receiving(0), Notifying(0)), Receive(0),
           One(k, [Pending(value, Carried(0))], [], Received(0, 0), Notifying(0)));
    done := AnswerIt(k, value, answer);
  }

  lemma AnswerIt(k: Task, value: nat, answer: nat) returns (done: Msg)
    requires k.client == 1 && Reachable(One(k, [Pending(value, Carried(0))], [], Received(0, 0), Notifying(0)))
    ensures done == Msg(0, value, Letter(MSG_READY, 1, Content.Answer(answer), false), true, 0, Finished, Some(answer))
    ensures Reachable(One(k, [done], [], Deciding(0, true), Notifying(0)))
  {
    hide Reachable;
    var g0 := Pending(value, Carried(0));
    var g1 := g0.(letter := g0.letter.(content := Taken));
    var g2 := g1.(letter := g1.letter.(content := Content.Answer(answer)), answer := Some(answer));
    Extend(One(k, [g0], [], Received(0, 0), Notifying(0)), TakeContent(0),
        One(k, [g1], [], Evaluating(0, Some(0)), Notifying(0)));
    Extend(One(k, [g1], [], Evaluating(0, Some(0)), Notifying(0)), Finish(0, true, answer),
           One(k, [g2], [], Answering(0, 0, true), Notifying(0)));
    done := ReplyRelease(k, g2);
  }

  lemma ReplyRelease(k: Task, g: Msg) returns (done: Msg)
    requires k.client == 1 && Reachable(One(k, [g], [], Answering(0, 0, true), Notifying(0))) && g.letter.refs == 2
    ensures done == g.(letter := Letter(MSG_READY, 1, g.letter.content, g.letter.freed), place := Finished)
    ensures Reachable(One(k, [done], [], Deciding(0, true), Notifying(0)))
  {
    hide Reachable;
    var g1 := g.(letter := Reply(g.letter, false));
    done := g1.(letter := Release(g1.letter), place := Finished);
    Extend(One(k, [g], [], Answering(0, 0, true), Notifying(0)), Action.Answer(0),
        One(k, [g1], [], Releasing(0, 0, true), Notifying(0)));
    Extend(One(k, [g1], [], Releasing(0, 0, true), Notifying(0)), ReleaseAnswered(0),
        One(k, [done], [], Deciding(0, true), Notifying(0)));
  }

  /** Now the client's notification arrives, and queues a task whose mailbox is empty: it runs without a message. */
  lemma LateNotify(value: nat, answer: nat) returns (s: System)
    ensures Reachable(s) && |s.workers| == 1 && s.workers[0] == Evaluating(0, None)
    ensures |s.tasks| == 1 && s.tasks[0].loaded && s.tasks[0].mbox.linked == []
  {
    hide Reachable;
    var done := Processed(value, answer);
    var k := Task(TASK_PROCESSING, true, EMPTIED, true, 1, Worker(0));
    IdleEmpty(k, done);
    var waiting := k.(state := TASK_WAITING, owner := InQueue);
    PopStart(waiting, [done], Free);
    s := One(k, [done], [], Evaluating(0, None), Free);
    Extend(One(k, [done], [], Receiving(0), Free), Receive(0), s);
  }

  lemma IdleEmpty(k: Task, g: Msg)
    requires k.client == 1 && Reachable(One(k, [g], [], Deciding(0, true), Notifying(0))) && k.mbox.linked == []
    ensures Reachable(One(k.(state := TASK_WAITING, owner := InQueue), [g], [0], AtPool, Free))
  {
    hide Reachable;
    var idle := k.(state := TASK_IDLE, owner := Nobody);
    Extend(One(k, [g], [], Deciding(0, true), Notifying(0)), GoIdle(0), One(idle, [g], [], Peeking(0), Notifying(0)));
    Extend(One(idle, [g], [], Peeking(0), Notifying(0)), Peek(0), One(idle, [g], [], AtPool, Notifying(0)));
    NotifyPush(k, g);
  }

  lemma NotifyPush(k: Task, g: Msg)
    requires k.client == 1 && Reachable(One(k.(state := TASK_IDLE, owner := Nobody), [g], [], AtPool, Notifying(0)))
    ensures Reachable(One(k.(state := TASK_WAITING, owner := InQueue), [g], [0], AtPool, Free))
  {
    hide Reachable;
    var waiting := k.(state := TASK_WAITING, owner := ClientPush(0));
    Extend(One(k.(state := TASK_IDLE, owner := Nobody), [g], [], AtPool, Notifying(0)), Notify(0),
           One(waiting, [g], [], AtPool, Pushing(0)));
    assert [] + [0] == [0];
    Extend(One(waiting, [g], [], AtPool, Pushing(0)), Push(0),
        One(k.(state := TASK_WAITING, owner := InQueue), [g], [0], AtPool, Free));
  }

  // ---------- A pool that waits for itself ----------

  /** A pool of one worker in the first run of task 0, whose Lua state is client 1; task 1 is its child. */
  function Nested(k: Task, msgs: seq<Msg>, queue: seq<nat>, c: ClientPc): System {
    System([RUNNING, k], msgs, queue, [FirstRun(0)], [Free, c, Free])
  }

  lemma MayRunNested(k: Task, msgs: seq<Msg>, queue: seq<nat>, c: ClientPc)
    requires k.client == 2
    ensures MayRun(Nested(k, msgs, queue, c), 1, false)
  {
    var s := Nested(k, msgs, queue, c);
    assert Evaluates(s.workers[0], 0);
  }

  const CHILD: Task := Task(TASK_INIT, false, EMPTY, true, 2, InQueue)

  /** The only worker evaluates a task that has spawned a child. */
  lemma SpawnChild()
    ensures Reachable(Nested(CHILD, [], [1], Free))
  {
    hide Reachable, MayRun;
    SpawnStart();
    PopStart(Task(TASK_INIT, false, EMPTY, true, 1, InQueue), [], Free);
    var s := One(RUNNING, [], [], FirstRun(0), Free);
    MayRunOne(s);
    Extend(s, Spawn(1), Nested(CHILD.(owner := ClientPush(1)), [], [], Pushing(1)));
    MayRunNested(CHILD.(owner := ClientPush(1)), [], [], Pushing(1));
    assert [] + [1] == [1];
    Extend(Nested(CHILD.(owner := ClientPush(1)), [], [], Pushing(1)), Push(1), Nested(CHILD, [], [1], Free));
  }

  lemma MayRunOne(s: System)
    requires s == One(RUNNING, [], [], FirstRun(0), Free)
    ensures MayRun(s, 1, false)
  {
    assert Evaluates(s.workers[0], 0);
  }

  function Asked(value: nat, place: Place): Msg { Msg(1, value, NewLetter(value), true, 1, place, None) }

  /** ... and sends it a message. */
  lemma AskChild(value: nat)
    ensures Reachable(Nested(CHILD.(mbox := Box(0, [0], [], [0])), [Asked(value, Linked)], [1], Notifying(1)))
  {
    hide Reachable, MayRun;
    SpawnChild();
    MayRunNested(CHILD, [], [1], Free);
    Extend(Nested(CHILD, [], [1], Free), Create(1, 1, value),
        Nested(CHILD, [Asked(value, Sending(1))], [1], Appending(1, 0)));
    MayRunNested(CHILD, [Asked(value, Sending(1))], [1], Appending(1, 0));
    assert EMPTY.linked + [0] == [0] && EMPTY.appended + [0] == [0];
    Extend(Nested(CHILD, [Asked(value, Sending(1))], [1], Appending(1, 0)), Append(1),
           Nested(CHILD.(mbox := Box(0, [0], [], [0])), [Asked(value, Linked)], [1], Notifying(1)));
  }

  /** A task that waits for the answer of its child keeps the only worker from the child: the pool is stuck, and stays
      so. */
  lemma WaitsForItself(value: nat) returns (s: System)
    ensures Reachable(s) && s.workers != [] && s.queue != [] && Stuck(s) && AllBlocked(s)
  {
    hide Reachable, MayRun, Stuck;
    var k, msgs := CHILD.(mbox := Box(0, [0], [], [0])), [Asked(value, Linked)];
    AskChild(value);
    MayRunNested(k, msgs, [1], Notifying(1));
    Extend(Nested(k, msgs, [1], Notifying(1)), Notify(1), Nested(k, msgs, [1], Free));
    MayRunNested(k, msgs, [1], Free);
    s := Nested(k, msgs, [1], Waiting(0));
    Extend(Nested(k, msgs, [1], Free), Await(1, 0), s);
    StuckExactly(s);
  }

  // ---------- A re-check that comes too late ----------

  /** A pool of two workers, of which the first has yet to look again at the task it has left idle. */
  function Two(v: WorkerPc, k: Task, msgs: seq<Msg>, queue: seq<nat>, w: WorkerPc, c: ClientPc): System {
    System([k], msgs, queue, [v, w], [c, Free])
  }

  const FRESH: Task := Task(TASK_INIT, false, EMPTY, true, 1, InQueue)

  function Pair(k: Task, queue: seq<nat>, v: WorkerPc,
      c: ClientPc): System { System([k], [], queue, [v, AtPool], [c, Free]) }

  lemma PairSpawns()
    ensures Reachable(Pair(FRESH.(owner := ClientPush(0)), [], AtPool, Pushing(0)))
  {
    var s := System([], [], [], [AtPool, AtPool], [Free]);
    Starts(s);
    hide Reachable, Initial;
    Extend(s, Spawn(0), Pair(FRESH.(owner := ClientPush(0)), [], AtPool, Pushing(0)));
  }

  lemma SpawnPair()
    ensures Reachable(Pair(FRESH.(owner := Worker(0)), [], Popped(0), Free))
  {
    hide Reachable;
    PairSpawns();
    assert [] + [0] == [0];
    Extend(Pair(FRESH.(owner := ClientPush(0)), [], AtPool, Pushing(0)), Push(0), Pair(FRESH, [0], AtPool, Free));
    Extend(Pair(FRESH, [0], AtPool, Free), Pop(0), Pair(FRESH.(owner := Worker(0)), [], Popped(0), Free));
  }

  const RESTING: Task := Task(TASK_IDLE, true, EMPTY, true, 1, Nobody)

  lemma FirstGoesIdle()
    ensures Reachable(Two(Peeking(0), RESTING, [], [], AtPool, Free))
  {
    hide Reachable;
    SpawnPair();
    Extend(Pair(FRESH.(owner := Worker(0)), [], Popped(0), Free), Start(0), Pair(RUNNING, [], FirstRun(0), Free));
    Extend(Pair(RUNNING, [], FirstRun(0), Free), Finish(0, true, 0), Pair(RUNNING, [], Deciding(0, true), Free));
    Extend(Pair(RUNNING, [], Deciding(0, true), Free), GoIdle(0), Two(Peeking(0), RESTING, [], [], AtPool, Free));
  }

  const FULL: Box<nat> := Box(0, [0], [], [0])

  const WOKEN: Task := RESTING.(state := TASK_WAITING, mbox := FULL, owner := InQueue)

  /** Meanwhile the client sends a message and wakes the task. */
  lemma ClientWakes(value: nat)
    ensures Reachable(Two(Peeking(0), WOKEN, [Pending(value, Linked)], [0], AtPool, Free))
  {
    hide Reachable;
    FirstGoesIdle();
    Extend(Two(Peeking(0), RESTING, [], [], AtPool, Free), Create(0, 0, value),
           Two(Peeking(0), RESTING, [Pending(value, Sending(0))], [], AtPool, Appending(0, 0)));
    assert EMPTY.linked + [0] == [0] && EMPTY.appended + [0] == [0];
    Extend(Two(Peeking(0), RESTING, [Pending(value, Sending(0))], [], AtPool, Appending(0, 0)), Append(0),
           Two(Peeking(0), RESTING.(mbox := FULL), [Pending(value, Linked)], [], AtPool, Notifying(0)));
    NotifyTwo(RESTING.(mbox := FULL), [Pending(value, Linked)]);
  }

  lemma NotifyTwo(k: Task, msgs: seq<Msg>)
    requires Reachable(Two(Peeking(0), k, msgs, [], AtPool, Notifying(0))) && k.state.TASK_IDLE? && k.client == 1
    ensures Reachable(Two(Peeking(0), k.(state := TASK_WAITING, owner := InQueue), msgs, [0], AtPool, Free))
  {
    hide Reachable;
    var waiting := k.(state := TASK_WAITING, owner := ClientPush(0));
    Extend(Two(Peeking(0), k, msgs, [], AtPool, Notifying(0)), Notify(0),
           Two(Peeking(0), waiting, msgs, [], AtPool, Pushing(0)));
    assert [] + [0] == [0];
    Extend(Two(Peeking(0), waiting, msgs, [], AtPool, Pushing(0)), Push(0),
        Two(Peeking(0), waiting.(owner := InQueue), msgs, [0], AtPool, Free));
  }

  /** The first worker has not looked yet, or has seen the message. */
  lemma LooksAgain(v: WorkerPc, value: nat)
    requires v == Peeking(0) || v == Renotifying(0)
    ensures Reachable(Two(v, WOKEN, [Pending(value, Linked)], [0], AtPool, Free))
  {
    hide Reachable;
    ClientWakes(value);
    if v.Renotifying? {
      Extend(Two(Peeking(0), WOKEN, [Pending(value, Linked)], [0], AtPool, Free), Peek(0),
             Two(v, WOKEN, [Pending(value, Linked)], [0], AtPool, Free));
    }
  }

  const SECOND: Task := Task(TASK_PROCESSING, true, EMPTIED, true, 1, Worker(1))

  /** The second worker pops the task ... */
  lemma SecondPops(v: WorkerPc, value: nat)
    requires v == Peeking(0) || v == Renotifying(0)
    ensures Reachable(Two(v, SECOND.(mbox := FULL), [Pending(value, Linked)], [], Receiving(0), Free))
  {
    hide Reachable;
    LooksAgain(v, value);
    var k, msgs := WOKEN.(owner := Worker(1)), [Pending(value, Linked)];
    Extend(Two(v, WOKEN, msgs, [0], AtPool, Free), Pop(1), Two(v, k, msgs, [], Popped(0), Free));
    Extend(Two(v, k, msgs, [], Popped(0), Free), Start(1), Two(v, SECOND.(mbox := FULL), msgs, [], Receiving(0), Free));
  }

  /** ... takes the message ... */
  lemma SecondReceives(v: WorkerPc, value: nat)
    requires v == Peeking(0) || v == Renotifying(0)
    ensures Reachable(Two(v, SECOND, [Pending(value, Carried(1))], [], Received(0, 0), Free))
  {
    hide Reachable;
    SecondPops(v, value);
    assert FULL.linked[1..] == [] && FULL.taken + [0] == [0];
    Extend(Two(v, SECOND.(mbox := FULL), [Pending(value, Linked)], [], Receiving(0), Free), Receive(1),
           Two(v, SECOND, [Pending(value, Carried(1))], [], Received(0, 0), Free));
  }

  /** ... answers it ... */
  lemma SecondAnswers(v: WorkerPc, value: nat, answer: nat) returns (done: Msg)
    requires v == Peeking(0) || v == Renotifying(0)
    ensures Reachable(Two(v, SECOND, [done], [], Deciding(0, false), Free))
  {
    hide Reachable;
    SecondReceives(v, value);
    var g0 := Pending(value, Carried(1));
    var g1 := g0.(letter := Emptied(g0.letter));
    var g2 := g1.(letter := Answered(g1.letter, answer), answer := Some(answer));
    Extend(Two(v, SECOND, [g0], [], Received(0, 0), Free), TakeContent(1),
        Two(v, SECOND, [g1], [], Evaluating(0, Some(0)), Free));
    Extend(Two(v, SECOND, [g1], [], Evaluating(0, Some(0)), Free), Finish(1, false, answer),
           Two(v, SECOND, [g2], [], Answering(0, 0, false), Free));
    done := SecondReplies(v, g2);
  }

  lemma SecondReplies(v: WorkerPc, g: Msg) returns (done: Msg)
    requires Reachable(Two(v, SECOND, [g], [], Answering(0, 0, false), Free))
    ensures Reachable(Two(v, SECOND, [done], [], Deciding(0, false), Free))
  {
    hide Reachable;
    var g1 := g.(letter := Reply(g.letter, false));
    done := g1.(letter := Release(g1.letter), place := Finished);
    Extend(Two(v, SECOND, [g], [], Answering(0, 0, false), Free), Action.Answer(1),
        Two(v, SECOND, [g1], [], Releasing(0, 0, false), Free));
    Extend(Two(v, SECOND, [g1], [], Releasing(0, 0, false), Free), ReleaseAnswered(1),
        Two(v, SECOND, [done], [], Deciding(0, false), Free));
  }

  /** ... and buries the task. */
  lemma SecondBuries(v: WorkerPc, done: Msg)
    requires Reachable(Two(v, SECOND, [done], [], Deciding(0, false), Free))
    ensures Reachable(Two(v, SECOND.(state := TASK_DEAD, mbox := EMPTIED.(closed := 1), owner := Nobody), [done], [],
        AtPool, Free))
  {
    hide Reachable;
    var dead := SECOND.(state := TASK_DEAD);
    Extend(Two(v, SECOND, [done], [], Deciding(0, false), Free), Die(1), Two(v, dead, [done], [], Draining(0), Free));
    Extend(Two(v, dead, [done], [], Draining(0), Free), Drain(1), Two(v, dead, [done], [], Closing(0), Free));
    Extend(Two(v, dead, [done], [], Closing(0), Free), Close(1),
           Two(v, dead.(mbox := EMPTIED.(closed := 1), owner := Nobody), [done], [], AtPool, Free));
  }

  /** When the client has dropped its reference too, the re-check looks into a freed mailbox. */
  lemma LateRecheck(value: nat, answer: nat) returns (s: System)
    ensures Reachable(s) && |s.workers| == 2 && s.workers[0] == Peeking(0) && Enabled(s, Peek(0))
    ensures |s.tasks| == 1 && Gone(s.tasks[0]) && s.tasks[0].mbox.closed == 2
  {
    hide Reachable;
    var v := Peeking(0);
    var done := SecondAnswers(v, value, answer);
    SecondBuries(v, done);
    var gone := SECOND.(state := TASK_DEAD, mbox := EMPTIED.(closed := 1), owner := Nobody);
    s := Two(v, gone.(referenced := false, mbox := EMPTIED.(closed := 2)), [done], [], AtPool, Free);
    Extend(Two(v, gone, [done], [], AtPool, Free), DropMailbox(0, 0), s);
  }

  /** The worker that has seen mail before notifies a task that is gone. */
  lemma RenotifiesGone(value: nat, answer: nat) returns (s: System)
    ensures Reachable(s) && Enabled(s, Renotify(0)) && TouchedTask(s, Renotify(0)) == Some(0) && Gone(s.tasks[0])
  {
    hide Reachable;
    var v := Renotifying(0);
    var done := SecondAnswers(v, value, answer);
    SecondBuries(v, done);
    s := Two(v, SECOND.(state := TASK_DEAD, mbox := EMPTIED.(closed := 1), owner := Nobody), [done], [], AtPool, Free);
  }
}
