/** Messages and mailboxes: what each locked section does, and the linked list that does it. */
module Mailboxes {
  datatype MessageState = MSG_WAITING | MSG_PROCESSING | MSG_READY | MSG_DEAD

  /** What a message carries: what was sent, nothing once the receiver has taken it, then the answer. */
  datatype Content = Sent(value: nat) | Taken | Answer(value: nat)

  /** A message: its reference count starts at two, one for each side. */
  datatype Letter = Letter(state: MessageState, refs: int, content: Content, freed: bool)

  function NewLetter(value: nat): Letter { Letter(MSG_WAITING, 2, Sent(value), false) }

  predicate Replied(l: Letter) { l.state.MSG_READY? || l.state.MSG_DEAD? }

  function Reply(l: Letter, isDead: bool): Letter { l.(state := if isDead then MSG_DEAD else MSG_READY) }

  /** Drop one reference; a message without references is freed if it has been replied to. */
  function Release(l: Letter): Letter {
    var l1 := l.(refs := l.refs - 1);
    if l1.refs <= 0 && Replied(l1) then l1.(freed := true) else l1
  }

  /** The receiver has read the content and destroyed it, or has put its answer there. */
  function Emptied(l: Letter): Letter { l.(content := Taken) }

  function Answered(l: Letter, value: nat): Letter { l.(content := Answer(value)) }

  /** A mailbox: how often it has been destroyed (once: dead, twice: freed), the messages linked in it, and
      all that were ever taken out and put in. */
  datatype Box<M> = Box(closed: nat, linked: seq<M>, taken: seq<M>, appended: seq<M>)

  predicate Distinct<M(==)>(q: seq<M>) { forall i, j :: 0 <= i < j < |q| ==> q[i] != q[j] }

  lemma DistinctNext<M>(q: seq<M>, m: M)
    requires Distinct(q) && m !in q
    ensures Distinct(q + [m])
  {
  }

  lemma DistinctRest<M>(q: seq<M>)
    requires Distinct(q) && q != []
    ensures Distinct(q[1..]) && q[0] !in q[1..]
  {
  }

  predicate Ordered<M(==)>(b: Box<M>) { b.appended == b.taken + b.linked }

  function Put<M>(b: Box<M>, m: M): Box<M> { b.(linked := b.linked + [m], appended := b.appended + [m]) }

  function Take<M>(b: Box<M>): Box<M>
    requires b.linked != []
  {
    b.(linked := b.linked[1..], taken := b.taken + [b.linked[0]])
  }

  function Destroy<M>(b: Box<M>): Box<M> { b.(closed := b.closed + 1) }

  /** First in, first out: however sends and receives alternate, nothing is lost, repeated or overtaken. */
  lemma PutTake<M>(b: Box<M>, m: M)
    requires Ordered(b)
    ensures Ordered(Put(b, m)) && Ordered(Destroy(b))
    ensures b.linked != [] ==> Ordered(Take(b)) && Put(Take(b), m) == Take(Put(b, m))
    ensures b.linked == [] ==> Take(Put(b, m)) == b.(taken := b.taken + [m], appended := b.appended + [m])
  {
    if b.linked != [] {
      assert (b.linked + [m])[1..] == b.linked[1..] + [m];
      assert b.linked == [b.linked[0]] + b.linked[1..];
    }
  }

  /** A 32-bit unsigned count. */
  function Count(n: int): nat { n % 0x1_0000_0000 }

  lemma CountSteps(n: int)
    ensures Count(Count(n) + 1) == Count(n + 1) && Count(Count(n) - 1) == Count(n - 1)
  {
  }

  class Message {
    var content: Content
    var next: Message?
    var state: MessageState
    var refCount: int
    ghost var freed: bool

    ghost function Value(): Letter
      reads this`state, this`refCount, this`content, this`freed
    {
      Letter(state, refCount, content, freed)
    }

    constructor (value: nat)
      ensures Value() == NewLetter(value) && next == null
    {
      content, state, refCount, next, freed := Sent(value), MSG_WAITING, 2, null, false;
    }

    method MarkReply(isDead: bool)
      requires !freed
      modifies this`state
      ensures Value() == Reply(old(Value()), isDead)
    {
      if isDead { state := MSG_DEAD; } else { state := MSG_READY; }
    }

    method Unref()
      requires !freed
      modifies this`refCount, this`freed
      ensures Value() == Release(old(Value()))
    {
      refCount := refCount - 1;
      if refCount <= 0 && (state == MSG_READY || state == MSG_DEAD) {
        freed := true;
      }
    }

    method ContentDestroy()
      requires !freed
      modifies this`content
      ensures Value() == Emptied(old(Value()))
    {
      content := Taken;
    }

    method ContentSet(value: nat)
      requires !freed
      modifies this`content
      ensures Value() == Answered(old(Value()), value)
    {
      content := Answer(value);
    }
  }

  class Mailbox {
    var head: Message?
    var end: Message?
    var count: nat
    var alive: bool
    ghost var freed: bool
    ghost var linked: seq<Message>
    ghost var taken: seq<Message>
    ghost var appended: seq<Message>

    /** The list from `head` on is `linked`; `end` is its last message, and means nothing when the list is
        empty. The count is the length in a 32-bit unsigned int. */
    ghost predicate Valid()
      reads this, linked
    {
      && Distinct(linked)
      && (forall i :: 0 <= i < |linked| ==> !linked[i].freed)
      && (forall i :: 0 <= i < |linked| - 1 ==> linked[i].next == linked[i + 1])
      && (linked == [] ==> head == null)
      && (linked != [] ==> head == linked[0] && end == linked[|linked| - 1] && linked[|linked| - 1].next == null)
      && count == Count(|linked|)
      && (alive ==> !freed)
      && Ordered(Value())
    }

    ghost function Value(): Box<Message>
      reads this
    {
      Box(if alive then 0 else if !freed then 1 else 2, linked, taken, appended)
    }

    constructor ()
      ensures Valid() && Value() == Box(0, [], [], [])
    {
      head, end, count, alive := null, null, 0, true;
      freed, linked, taken, appended := false, [], [], [];
    }

    /** The locked section of mailbox_send: `end` is followed only when the list is not empty, and then it
        is a linked message that has not been freed. */
    method Append(msg: Message)
      requires Valid() && !freed && msg.next == null && !msg.freed && msg !in linked
      modifies this, linked`next
      ensures Valid() && Value() == Put(old(Value()), msg)
    {
      hide Ordered, Take, Count, Distinct;
      PutTake(Value(), msg);
      DistinctNext(linked, msg);
      ghost var q := linked;
      if head == null {
        head := msg;
        end := msg;
      } else {
        assert end in linked && !end.freed;
        end.next := msg;
        end := msg;
      }
      assert forall i :: 0 <= i < |q| - 1 ==> q[i].next == q[i + 1];
      assert q != [] ==> q[|q| - 1].next == msg;
      linked := q + [msg];
      appended := appended + [msg];
      CountSteps(|q|);
      count := Count(count + 1);
    }

    /** A dead mailbox takes nothing; otherwise a new message with two references goes to the end. */
    method Send(value: nat) returns (msg: Message?)
      requires Valid() && !freed
      modifies this, linked`next
      ensures Valid()
      ensures !old(alive) ==> msg == null && Value() == old(Value())
      ensures old(alive) ==> msg != null && fresh(msg) && msg.Value() == NewLetter(value)
      ensures old(alive) ==> Value() == Put(old(Value()), msg)
    {
      if !alive { return null; }
      msg := new Message(value);
      Append(msg);
    }

    /** The oldest message, taken out, or nothing. */
    method Receive() returns (msg: Message?)
      requires Valid() && !freed
      modifies this
      ensures Valid()
      ensures if old(linked) == [] then msg == null && Value() == old(Value())
              else msg == old(linked)[0] && Value() == Take(old(Value()))
    {
      hide Ordered, Count, Distinct;
      msg := head;
      if msg != null {
        DistinctRest(linked);
        PutTake(Value(), msg);
        head := msg.next;
        CountSteps(|linked|);
        count := Count(count - 1);
        taken := taken + [linked[0]];
        linked := linked[1..];
      }
    }

    method Peek() returns (msg: Message?)
      requires Valid() && !freed
      ensures msg == if linked == [] then null else linked[0]
    {
      msg := head;
    }

    /** The first call marks the mailbox dead, the second frees it. */
    method Close()
      requires Valid() && !freed
      modifies this`alive, this`freed
      ensures Valid() && Value() == Destroy(old(Value()))
    {
      if !alive { freed := true; } else { alive := false; }
    }
  }
}
