/** The message codec: Lua values packed into a growable heap of bytes, and unpacked again. */
module LuaMessage {
  import opened Bytes

  /** The bit pattern of a lua_Number, or of a pointer. */
  type Bits = s: seq<byte> | |s| == 8 witness [0, 0, 0, 0, 0, 0, 0, 0]

  /** A value on the Lua stack. `Table` is a table without array part, `Other` any type the codec does not know. */
  datatype Value =
    | Nil | Boolean(b: bool) | Number(bits: Bits) | Text(s: seq<byte>) | Function | Table | Userdata(pointer: Bits)
    | Other

  const MSG_MAX_SIZE: nat := 2 * 1024
  const MSG_INC_SIZE: nat := 256

  /** sizeof(struct values) and sizeof(struct value): a four-byte count, and a four-byte type, four bytes of
      padding and an eight-byte length. */
  const VALUES: nat := 4
  const VALUE: nat := 16

  /** `n` in `width` little-endian bytes. */
  function ToBytes(n: nat, width: nat): (s: seq<byte>)
    ensures |s| == width
  {
    if width == 0 then [] else [n % 256] + ToBytes(n / 256, width - 1)
  }

  function FromBytes(s: seq<byte>): nat {
    if s == [] then 0 else s[0] + 256 * FromBytes(s[1..])
  }

  function Power256(k: nat): nat { if k == 0 then 1 else 256 * Power256(k - 1) }

  lemma {:induction false} LoadStored(n: nat, width: nat)
    requires n < Power256(width)
    ensures FromBytes(ToBytes(n, width)) == n
  {
    if width > 0 {
      LoadStored(n / 256, width - 1);
      assert ToBytes(n, width)[1..] == ToBytes(n / 256, width - 1);
    }
  }

  lemma WordSizes()
    ensures Power256(4) == 0x1_0000_0000 && Power256(8) == 0x1_0000_0000_0000_0000
  {
    assert Power256(4) == 256 * 256 * 256 * 256;
    assert Power256(8) == 256 * 256 * 256 * 256 * Power256(4);
  }

  /** The number of addresses. */
  const ADDRESSES: nat := 0x1_0000_0000_0000_0000

  // ---------- The layout ----------

  function Tag(v: Value): nat {
    match v
    case Number(_) => 1
    case Text(_) => 2
    case Boolean(_) => 3
    case Function => 4
    case Table => 5
    case Nil => 6
    case Userdata(_) => 7
    case Other => 6
  }

  function Payload(v: Value): seq<byte> {
    match v
    case Boolean(b) => [if b then 1 else 0]
    case Number(bits) => bits
    case Text(s) => s
    case Userdata(pointer) => pointer
    case _ => []
  }

  /** Where the record of value `i` starts. */
  function Offset(args: seq<Value>, i: nat): (r: nat)
    requires i <= |args|
    ensures r >= VALUES + VALUE * i
  {
    if i == 0 then VALUES else Offset(args, i - 1) + VALUE + |Payload(args[i - 1])|
  }

  function PayloadSize(args: seq<Value>): nat {
    if args == [] then 0 else PayloadSize(args[..|args| - 1]) + |Payload(args[|args| - 1])|
  }

  lemma {:induction false} OffsetMonotone(args: seq<Value>, i: nat, j: nat)
    requires i <= j <= |args|
    ensures Offset(args, i) <= Offset(args, j)
  {
    if i < j { OffsetMonotone(args, i, j - 1); }
  }

  /** The record of `v` at position `at`; the four padding bytes may hold anything. */
  predicate Record(heap: seq<byte>, at: nat, v: Value) {
    && at + VALUE + |Payload(v)| <= |heap|
    && heap[at..at + 4] == ToBytes(Tag(v), 4)
    && heap[at + 8..at + VALUE] == ToBytes(|Payload(v)|, 8)
    && heap[at + VALUE..at + VALUE + |Payload(v)|] == Payload(v)
  }

  /** The heap starts with the number of values and the records of the first `n` of them. */
  ghost predicate Laid(heap: seq<byte>, args: seq<Value>, n: nat)
    requires n <= |args|
  {
    && VALUES <= |heap| && heap[..VALUES] == ToBytes(|args|, 4)
    && forall i :: 0 <= i < n ==> Record(heap, Offset(args, i), args[i])
  }

  /** Records survive in any heap that agrees up to their end. */
  lemma LaidFrame(heap: seq<byte>, heap': seq<byte>, args: seq<Value>, n: nat)
    requires n <= |args| && Laid(heap, args, n)
    requires Offset(args, n) <= |heap| && Offset(args, n) <= |heap'|
    requires heap'[..Offset(args, n)] == heap[..Offset(args, n)]
    ensures Laid(heap', args, n)
  {
    hide ToBytes, Payload, Tag, Record;
    var end := Offset(args, n);
    assert heap'[..VALUES] == heap'[..end][..VALUES] == heap[..VALUES];
    forall i | 0 <= i < n ensures Record(heap', Offset(args, i), args[i]) {
      OffsetMonotone(args, i + 1, n);
      assert Offset(args, i + 1) == Offset(args, i) + VALUE + |Payload(args[i])|;
      RecordFrame(heap, heap', Offset(args, i), args[i], end);
    }
  }

  /** A record written behind the first `n` extends them. */
  lemma LaidNext(before: seq<byte>, heap: seq<byte>, args: seq<Value>, n: nat)
    requires n < |args| && Laid(before, args, n)
    requires Offset(args, n) <= |before| && Offset(args, n) <= |heap|
    requires heap[..Offset(args, n)] == before[..Offset(args, n)]
    requires Record(heap, Offset(args, n), args[n])
    ensures Laid(heap, args, n + 1)
  {
    hide Record, Offset;
    LaidFrame(before, heap, args, n);
  }

  lemma RecordFrame(heap: seq<byte>, heap': seq<byte>, at: nat, v: Value, end: nat)
    requires Record(heap, at, v) && at + VALUE + |Payload(v)| <= end <= |heap| && end <= |heap'|
    requires heap'[..end] == heap[..end]
    ensures Record(heap', at, v)
  {
    var n := |Payload(v)|;
    assert heap'[at..at + 4] == heap'[..end][at..at + 4] == heap[at..at + 4];
    assert heap'[at + 8..at + VALUE] == heap'[..end][at + 8..at + VALUE] == heap[at + 8..at + VALUE];
    assert heap'[at + VALUE..at + VALUE + n] == heap'[..end][at + VALUE..at + VALUE + n]
        == heap[at + VALUE..at + VALUE + n];
  }

  /** The layout byte by byte, for a boolean and a string of two letters: the count, then for each value its type, four
      bytes of padding, its length and its bytes, numbers with the lowest byte first. */
  lemma Layout(heap: seq<byte>, b: bool, x: byte, y: byte)
    requires Laid(heap, [Boolean(b), Text([x, y])], 2)
    ensures |heap| >= 39
    ensures heap[..8] == [2, 0, 0, 0, 3, 0, 0, 0] && heap[12..20] == [1, 0, 0, 0, 0, 0, 0, 0]
    ensures heap[20] == (if b then 1 else 0) && heap[21..25] == [2, 0, 0, 0]
    ensures heap[29..39] == [2, 0, 0, 0, 0, 0, 0, 0, x, y]
  {
    var args := [Boolean(b), Text([x, y])];
    assert Offset(args, 0) == 4 && Offset(args, 1) == 21;
    SmallNumbers();
    var first := [if b then 1 else 0];
    assert Record(heap, 4, args[0]) && Record(heap, 21, args[1]);
    assert heap[20..21] == first && heap[37..39] == [x, y];
    assert heap[..8] == heap[..4] + heap[4..8];
    assert heap[20] == heap[20..21][0];
    assert heap[29..39] == heap[29..37] + heap[37..39];
  }

  lemma SmallNumbers()
    ensures ToBytes(1, 8) == [1, 0, 0, 0, 0, 0, 0, 0] && ToBytes(2, 8) == [2, 0, 0, 0, 0, 0, 0, 0]
    ensures ToBytes(2, 4) == [2, 0, 0, 0] && ToBytes(3, 4) == [3, 0, 0, 0]
  {
    assert ToBytes(0, 7) == [0, 0, 0, 0, 0, 0, 0] && ToBytes(0, 3) == [0, 0, 0];
  }

  // ---------- Capacity ----------

  function Initial(argc: nat): nat { VALUES + VALUE * argc + MSG_INC_SIZE }

  /** A conversion to a 32-bit int. */
  function Int32(x: int): int { (x + 0x8000_0000) % 0x1_0000_0000 - 0x8000_0000 }

  /** What becomes of the heap: it has this size, or the limit was exceeded by so much, or the new size was computed
      as a size_t and what is left of it in an int passes the limit but does not hold the value. */
  datatype Capacity = Accepted(size: nat) | Rejected(excess: nat) | Overrun

  /** One more value of `need` bytes, record included, at `position` of a heap of this size. */
  function Room(size: nat, position: nat, need: nat): Capacity {
    if position + need < size then Accepted(size)
    else
      var grown := Int32(size + MSG_INC_SIZE + need);
      if grown > MSG_MAX_SIZE then Rejected(grown - MSG_MAX_SIZE)
      else if grown < position + need then Overrun
      else Accepted(grown)
  }

  /** The heap once the first `n` values are packed. */
  function CapacityAfter(args: seq<Value>, n: nat): Capacity
    requires n <= |args|
  {
    if n == 0 then Accepted(Initial(|args|))
    else
      match CapacityAfter(args, n - 1)
      case Accepted(size) => Room(size, Offset(args, n - 1), VALUE + |Payload(args[n - 1])|)
      case stopped => stopped
  }

  function Max(a: nat, b: nat): nat { if a < b then b else a }

  /** The first heap fits an int: Lua's stack has room for a million values at most. */
  predicate Countable(argc: nat) { Initial(argc) + MSG_INC_SIZE < 0x8000_0000 }

  /** A heap that has grown and holds the value has its full size. */
  lemma RoomGrown(size: nat, position: nat, need: nat)
    requires position <= size && size + MSG_INC_SIZE < 0x8000_0000
    ensures Room(size, position, need).Accepted? ==>
      Room(size, position, need).size == (if position + need < size then size else size + MSG_INC_SIZE + need)
  {
  }

  /** Whatever the values and however often the heap grew: everything packed lies inside it, and it never
      outgrows both its first size and the limit. */
  lemma {:induction false} CapacityBound(args: seq<Value>, n: nat)
    requires Countable(|args|) && n <= |args| && CapacityAfter(args, n).Accepted?
    ensures Offset(args, n) < CapacityAfter(args, n).size <= Max(Initial(|args|), MSG_MAX_SIZE)
    ensures Initial(|args|) <= CapacityAfter(args, n).size
  {
    if n > 0 {
      CapacityBound(args, n - 1);
      RoomGrown(CapacityAfter(args, n - 1).size, Offset(args, n - 1), VALUE + |Payload(args[n - 1])|);
    }
  }

  lemma {:induction false} OffsetIsSum(args: seq<Value>, n: nat)
    requires n <= |args|
    ensures Offset(args, n) == VALUES + VALUE * n + PayloadSize(args[..n])
  {
    if n > 0 {
      OffsetIsSum(args, n - 1);
      assert args[..n][..n - 1] == args[..n - 1];
    } else {
      assert args[..0] == [];
    }
  }

  lemma {:induction false} PayloadMonotone(args: seq<Value>, n: nat)
    requires n <= |args|
    ensures PayloadSize(args[..n]) <= PayloadSize(args)
    decreases |args| - n
  {
    if n == |args| {
      assert args[..n] == args;
    } else {
      PayloadMonotone(args, n + 1);
      assert args[..n + 1][..n] == args[..n];
    }
  }

  /** All of the first `n` records end within the first heap. */
  predicate Snug(args: seq<Value>, n: nat)
    requires n <= |args|
  {
    forall i :: 1 <= i <= n ==> Offset(args, i) < Initial(|args|)
  }

  lemma SnugNext(args: seq<Value>, n: nat)
    requires 0 < n <= |args|
    ensures Snug(args, n) <==> Snug(args, n - 1) && Offset(args, n) < Initial(|args|)
  {
    hide Offset;
  }

  /** The heap never grows, so nothing is rejected, exactly as long as the payload seen so far stays below
      the slack: 256 bytes and the records still to come. */
  lemma {:induction false} GrowthFree(args: seq<Value>, n: nat)
    requires Countable(|args|) && n <= |args|
    ensures CapacityAfter(args, n) == Accepted(Initial(|args|)) <==> Snug(args, n)
  {
    if n > 0 {
      hide CapacityAfter, Offset, Snug, Initial, Countable;
      SnugNext(args, n);
      GrowthFree(args, n - 1);
      if CapacityAfter(args, n - 1).Accepted? { GrowthNext(args, n); } else { StoppedStays(args, n - 1, n); }
    }
  }

  lemma GrowthNext(args: seq<Value>, n: nat)
    requires Countable(|args|) && 0 < n <= |args| && CapacityAfter(args, n - 1).Accepted?
    ensures CapacityAfter(args, n) == Accepted(Initial(|args|)) <==>
            CapacityAfter(args, n - 1) == Accepted(Initial(|args|)) && Offset(args, n) < Initial(|args|)
  {
    hide CapacityAfter, Offset, Payload, Room;
    CapacityBound(args, n - 1);
    CapacityNext(args, n - 1);
    StaysInitial(CapacityAfter(args, n - 1).size, Initial(|args|), Offset(args, n - 1), VALUE + |Payload(args[n - 1])|);
  }

  /** The heap has its first size after a value exactly if it had it before and the value fits. */
  lemma StaysInitial(size: nat, initial: nat, position: nat, need: nat)
    requires position <= size && initial <= size && size + MSG_INC_SIZE < 0x8000_0000
    ensures Room(size, position, need) == Accepted(initial) <==> size == initial && position + need < initial
  {
    RoomGrown(size, position, need);
  }

  /** A payload below MSG_INC_SIZE bytes is never rejected. */
  lemma SmallAccepted(args: seq<Value>)
    requires Countable(|args|) && PayloadSize(args) < MSG_INC_SIZE
    ensures CapacityAfter(args, |args|) == Accepted(Initial(|args|))
  {
    forall i | 1 <= i <= |args| ensures Offset(args, i) < Initial(|args|) {
      OffsetIsSum(args, i);
      PayloadMonotone(args, i);
    }
    GrowthFree(args, |args|);
  }

  /** What is accepted is smaller than the first size or the limit. */
  lemma AcceptedFits(args: seq<Value>)
    requires Countable(|args|) && CapacityAfter(args, |args|).Accepted?
    ensures VALUES + VALUE * |args| + PayloadSize(args) < Max(Initial(|args|), MSG_MAX_SIZE)
  {
    CapacityBound(args, |args|);
    OffsetIsSum(args, |args|);
    assert args[..|args|] == args;
  }

  /** With more than 111 values the first size is over the limit already: then accepted means never grown. */
  lemma {:induction false} ManyValues(args: seq<Value>, n: nat)
    requires Countable(|args|) && Initial(|args|) + MSG_INC_SIZE + VALUE > MSG_MAX_SIZE && n <= |args|
    ensures CapacityAfter(args, n).Accepted? <==> CapacityAfter(args, n) == Accepted(Initial(|args|))
  {
    if n > 0 {
      ManyValues(args, n - 1);
      if CapacityAfter(args, n - 1).Accepted? {
        CapacityBound(args, n - 1);
        RoomGrown(Initial(|args|), Offset(args, n - 1), VALUE + |Payload(args[n - 1])|);
      }
    }
  }

  /** One string alone is accepted up to 1500 bytes, well below the limit: growing adds slack each time. The error
      tells by how many bytes the string is too long. */
  lemma OneString(s: seq<byte>)
    ensures CapacityAfter([Text(s)], 1).Accepted? <==> |s| <= 1500
    ensures 1500 < |s| < 0x7000_0000 ==> CapacityAfter([Text(s)], 1) == Rejected(|s| - 1500)
  {
    assert CapacityAfter([Text(s)], 0) == Accepted(Initial(1));
    assert Offset([Text(s)], 0) == VALUES;
    RoomGrown(Initial(1), VALUES, VALUE + |s|);
  }

  // ---------- The width of heap_size ----------

  /** The grown size is computed as a size_t and stored as an int: a size that passes the limit holds the
      value exactly when nothing was lost in that conversion. */
  lemma GrownHolds(size: nat, position: nat, need: nat)
    requires position <= size < 0x8000_0000 && size + MSG_INC_SIZE + need < 0x1_0000_0000_0000_0000
    requires Int32(size + MSG_INC_SIZE + need) <= MSG_MAX_SIZE
    ensures position + need <= Int32(size + MSG_INC_SIZE + need) <==> size + MSG_INC_SIZE + need < 0x8000_0000
  {
    var x := size + MSG_INC_SIZE + need;
    if x >= 0x8000_0000 {
      assert Int32(x) < 0 || x >= 0x1_0000_0000;
    }
  }

  /** It can lose: the first value, if its record is just short of 4 GiB, leaves a heap of 32 bytes, which passes the
      limit and does not hold the record. */
  lemma GrownTooSmall(need: nat)
    requires need == 0x1_0000_0000 - 500
    ensures VALUES + need >= Initial(1)
    ensures var grown := Int32(Initial(1) + MSG_INC_SIZE + need); grown == 32 <= MSG_MAX_SIZE && grown < VALUES + need
  {
  }

  /** Packing one more value overruns the heap exactly when it is too large for what is left, its new size does not fit
      an int, and the rest of that size passes the limit. */
  lemma OverrunExactly(size: nat, position: nat, need: nat)
    requires position <= size && size + MSG_INC_SIZE < 0x8000_0000
    requires size + MSG_INC_SIZE + need < 0x1_0000_0000_0000_0000
    ensures var x := size + MSG_INC_SIZE + need;
      Room(size, position, need).Overrun? <==> position + need >= size && x >= 0x8000_0000 && Int32(x) <= MSG_MAX_SIZE
  {
    if Int32(size + MSG_INC_SIZE + need) <= MSG_MAX_SIZE { GrownHolds(size, position, need); }
  }

  /** In a packed heap that an int can address, counts and lengths fit their fields. */
  lemma Widths(heap: seq<byte>, args: seq<Value>, i: nat)
    requires Laid(heap, args, |args|) && |heap| < 0x8000_0000 && i < |args|
    ensures FromBytes(ToBytes(|args|, 4)) == |args|
    ensures |Payload(args[i])| < 0x8000_0000
  {
    hide Payload, ToBytes, FromBytes;
    WordSizes();
    assert Record(heap, Offset(args, i), args[i]);
    assert Record(heap, Offset(args, |args| - 1), args[|args| - 1]);
    LoadStored(|args|, 4);
  }

  // ---------- Packing ----------

  /** What lua_message_pop hands back: no content, the heap, or an error on the Lua side; `Undefined` when the next
      write would leave the heap. */
  datatype PopResult = NoContent | Popped(heap: array<byte>) | Raised(excess: nat) | Undefined

  /** Write `bytes` at position `at`, inside the heap. */
  method Store(heap: array<byte>, at: nat, bytes: seq<byte>)
    requires at + |bytes| <= heap.Length
    modifies heap
    ensures heap[..at] == old(heap[..at]) && heap[at..at + |bytes|] == bytes
    ensures heap[at + |bytes|..] == old(heap[at + |bytes|..])
  {
    for i := 0 to |bytes|
      invariant heap[..at] == old(heap[..at]) && heap[at..at + i] == bytes[..i]
      invariant heap[at + |bytes|..] == old(heap[at + |bytes|..])
    {
      heap[at + i] := bytes[i];
    }
  }

  method Realloc(heap: array<byte>, size: nat) returns (grown: array<byte>)
    requires heap.Length <= size
    ensures fresh(grown) && grown.Length == size && grown[..heap.Length] == heap[..]
  {
    grown := new byte[size];
    for i := 0 to heap.Length
      invariant grown[..i] == heap[..i]
    {
      grown[i] := heap[i];
    }
  }

  /** Each store leaves what lies before it alone. */
  lemma HeadWritten(h1: seq<byte>, h2: seq<byte>, h3: seq<byte>, at: nat, v: Value)
    requires at + VALUE + |Payload(v)| <= |h1| == |h2| == |h3|
    requires h1[at..at + 4] == ToBytes(Tag(v), 4)
    requires h2[..at + 8] == h1[..at + 8] && h2[at + 8..at + VALUE] == ToBytes(|Payload(v)|, 8)
    requires h3[..at + VALUE] == h2[..at + VALUE] && h3[at + VALUE..at + VALUE + |Payload(v)|] == Payload(v)
    ensures h3[..at] == h1[..at] && Record(h3, at, v)
  {
    hide ToBytes, Payload;
    assert h2[at..at + 4] == h2[..at + 8][at..at + 4] == h1[..at + 8][at..at + 4] == h1[at..at + 4];
    assert h3[at..at + 4] == h3[..at + VALUE][at..at + 4] == h2[..at + VALUE][at..at + 4] == h2[at..at + 4];
    assert h3[at + 8..at + VALUE] == h3[..at + VALUE][at + 8..] == h2[..at + VALUE][at + 8..] == h2[at + 8..at + VALUE];
    assert h3[..at] == h3[..at + VALUE][..at] == h2[..at + VALUE][..at] == h2[..at + 8][..at];
  }

  method WriteValue(heap: array<byte>, at: nat, v: Value)
    requires at + VALUE + |Payload(v)| <= heap.Length
    modifies heap
    ensures heap[..at] == old(heap[..at]) && Record(heap[..], at, v)
  {
    hide ToBytes, Payload;
    Store(heap, at, ToBytes(Tag(v), 4));
    ghost var h1 := heap[..];
    Store(heap, at + 8, ToBytes(|Payload(v)|, 8));
    ghost var h2 := heap[..];
    assert h2[..at + 8] == h1[..at + 8];
    Store(heap, at + VALUE, Payload(v));
    ghost var h3 := heap[..];
    assert h3[..at + VALUE] == h2[..at + VALUE];
    HeadWritten(h1, h2, h3, at, v);
  }

  /** Pack the stack above `offset`: the number of values and one record each, or the empty list as no
      content; rejected exactly when the growing heap would pass the limit. */
  method Pop(stack: seq<Value>, offset: nat) returns (r: PopResult)
    requires offset <= |stack| && Countable(|stack| - offset)
    ensures var args := stack[offset..];
      match r
      case NoContent => args == []
      case Popped(heap) =>
        args != [] && fresh(heap) && Laid(heap[..], args, |args|)
            && CapacityAfter(args, |args|) == Accepted(heap.Length)
      case Raised(k) => args != [] && CapacityAfter(args, |args|) == Rejected(k)
      case Undefined => args != [] && CapacityAfter(args, |args|) == Overrun
  {
    hide ToBytes, Payload, Record, Laid, CapacityAfter, Offset, Int32;
    ghost var args := stack[offset..];
    var argc := |stack| - offset;
    if argc == 0 { return NoContent; }
    var heapSize := VALUES + VALUE * argc + MSG_INC_SIZE;
    var heap := new byte[heapSize];
    Store(heap, 0, ToBytes(argc, 4));
    NothingLaid(heap[..], args);
    var position := VALUES;
    for i := offset to argc + offset
      invariant fresh(heap) && heap.Length == heapSize
      invariant CapacityAfter(args, i - offset) == Accepted(heapSize)
      invariant position == Offset(args, i - offset)
      invariant Laid(heap[..], args, i - offset)
    {
      ghost var n := i - offset;
      var v := stack[i];
      var valueLength := |Payload(v)| + VALUE;
      CapacityBound(args, n);
      CapacityNext(args, n);
      if position + valueLength >= heapSize {
        RoomGrown(heapSize, position, valueLength);
        var grown := Int32(heapSize + MSG_INC_SIZE + valueLength);
        if grown > MSG_MAX_SIZE {
          StoppedStays(args, n + 1, |args|);
          return Raised(grown - MSG_MAX_SIZE);
        }
        if grown < position + valueLength {
          StoppedStays(args, n + 1, |args|);
          return Undefined;
        }
        heapSize := grown;
        ghost var small := heap[..];
        heap := Realloc(heap, heapSize);
        LaidFrame(small, heap[..], args, n);
      }
      ghost var before := heap[..];
      WriteValue(heap, position, v);
      LaidNext(before, heap[..], args, n);
      position := position + VALUE + |Payload(v)|;
    }
    r := Popped(heap);
  }

  lemma NothingLaid(heap: seq<byte>, args: seq<Value>)
    requires VALUES <= |heap| && heap[0..VALUES] == ToBytes(|args|, 4)
    ensures Laid(heap, args, 0) && CapacityAfter(args, 0) == Accepted(Initial(|args|)) && Offset(args, 0) == VALUES
  {
    hide ToBytes;
    assert heap[..VALUES] == heap[0..VALUES];
  }

  /** One more value: it fits, or the heap grows past it, or the limit is exceeded. */
  lemma CapacityNext(args: seq<Value>, n: nat)
    requires n < |args| && CapacityAfter(args, n).Accepted?
    ensures var size, need := CapacityAfter(args, n).size, VALUE + |Payload(args[n])|;
      && Offset(args, n + 1) == Offset(args, n) + need
      && CapacityAfter(args, n + 1) == Room(size, Offset(args, n), need)
  {
  }

  lemma {:induction false} StoppedStays(args: seq<Value>, i: nat, n: nat)
    requires i <= n <= |args| && !CapacityAfter(args, i).Accepted?
    ensures CapacityAfter(args, n) == CapacityAfter(args, i)
  {
    if i < n { StoppedStays(args, i, n - 1); }
  }

  // ---------- Unpacking ----------

  /** What becomes of a value that is unpacked from address `at`: a userdata points there. */
  function Restored(at: nat, v: Value): Value {
    match v
    case Function => Nil
    case Table => Nil
    case Other => Nil
    case Userdata(_) => Userdata(ToBytes(at, 8))
    case _ => v
  }

  /** ... and of all values, packed in a heap at address `base`. */
  function RestoredAll(base: nat, args: seq<Value>): seq<Value> {
    seq(|args|, i requires 0 <= i < |args| => Restored(base + Offset(args, i) + VALUE, args[i]))
  }

  /** What may arrive for what was sent: the four kinds that are copied arrive unchanged, what cannot be copied arrives
      as nil, and a userdata as a pointer into the heap, which lies between the addresses `base` and `end`. */
  predicate Arrives(base: nat, end: nat, sent: Value, received: Value) {
    && (sent.Nil? || sent.Boolean? || sent.Number? || sent.Text? ==> received == sent)
    && (sent.Function? || sent.Table? || sent.Other? ==> received.Nil?)
    && (sent.Userdata? ==> received.Userdata?
                           && (end <= ADDRESSES ==> base <= FromBytes(received.pointer) < end))
  }

  predicate ArrivesAll(base: nat, end: nat, sent: seq<Value>, received: seq<Value>) {
    |received| == |sent| && forall i :: 0 <= i < |sent| ==> Arrives(base, end, sent[i], received[i])
  }

  lemma RestoredArrives(base: nat, args: seq<Value>)
    ensures ArrivesAll(base, base + Offset(args, |args|), args, RestoredAll(base, args))
  {
    hide Offset, Arrives, Restored;
    var end := base + Offset(args, |args|);
    var all := RestoredAll(base, args);
    forall i | 0 <= i < |args| ensures Arrives(base, end, args[i], all[i]) {
      OneArrives(base, args, i);
      assert all[i] == Restored(base + Offset(args, i) + VALUE, args[i]);
    }
  }

  lemma OneArrives(base: nat, args: seq<Value>, i: nat)
    requires i < |args|
    ensures Arrives(base, base + Offset(args, |args|), args[i], Restored(base + Offset(args, i) + VALUE, args[i]))
  {
    hide ToBytes, FromBytes, Power256, Offset;
    if args[i].Userdata? && base + Offset(args, |args|) <= ADDRESSES {
      OffsetMonotone(args, i + 1, |args|);
      OffsetNext(args, i);
      WordSizes();
      LoadStored(base + Offset(args, i) + VALUE, 8);
    }
  }

  /** What a record holds when it is read back. */
  lemma RecordRead(heap: seq<byte>, at: nat, v: Value)
    requires Record(heap, at, v) && |Payload(v)| < 0x8000_0000
    ensures FromBytes(heap[at..at + 4]) == Tag(v)
    ensures FromBytes(heap[at + 8..at + VALUE]) == |Payload(v)|
  {
    hide Payload;
    WordSizes();
    LoadStored(|Payload(v)|, 8);
    LoadStored(Tag(v), 4);
  }

  /** Push one value; `length` is what its record says. */
  method PushValue(heap: array<byte>, base: nat, position: nat, ghost v: Value)
    returns (pushed: seq<Value>, length: nat)
    requires Record(heap[..], position, v) && |Payload(v)| < 0x8000_0000
    ensures pushed == [Restored(base + position + VALUE, v)] && length == |Payload(v)|
  {
    hide ToBytes, FromBytes;
    RecordRead(heap[..], position, v);
    assert heap[..][position..position + 4] == heap[position..position + 4];
    assert heap[..][position + 8..position + VALUE] == heap[position + 8..position + VALUE];
    var tag := FromBytes(heap[position..position + 4]);
    length := FromBytes(heap[position + 8..position + VALUE]);
    var at := position + VALUE;
    assert heap[at..at + length] == Payload(v);
    if tag == 3 {
      assert heap[at] == heap[at..at + length][0];
      pushed := [Boolean(heap[at] != 0)];
    } else if tag == 0 || tag == 1 {
      pushed := [Number(heap[at..at + 8])];
    } else if tag == 2 {
      pushed := [Text(heap[at..at + length])];
    } else if tag == 6 || tag == 4 || tag == 5 {
      pushed := [Nil];
    } else if tag == 7 {
      pushed := [Userdata(ToBytes(base + at, 8))];
    } else {
      pushed := [];
    }
  }

  /** Push the values packed in a heap at address `base`: as many, in the same order, functions and tables as nil, and
      a userdata as the address of its record's payload. */
  method Push(heap: array?<byte>, base: nat, ghost args: seq<Value>) returns (argc: nat, pushed: seq<Value>)
    requires if heap == null then args == []
             else args != [] && Laid(heap[..], args, |args|) && heap.Length < 0x8000_0000
    ensures argc == |args| && pushed == RestoredAll(base, args)
    ensures ArrivesAll(base, base + Offset(args, |args|), args, pushed)
  {
    hide ToBytes, FromBytes, Record, Offset, Payload, Restored, Arrives;
    RestoredArrives(base, args);
    if heap == null { return 0, []; }
    Widths(heap[..], args, 0);
    assert heap[0..VALUES] == heap[..][..VALUES];
    argc := FromBytes(heap[0..VALUES]);
    var position := VALUES;
    pushed := [];
    NothingLaid(heap[..], args);
    for i := 0 to argc
      invariant position == Offset(args, i) && pushed == RestoredAll(base, args)[..i]
    {
      Widths(heap[..], args, i);
      assert Record(heap[..], Offset(args, i), args[i]);
      var value, length := PushValue(heap, base, position, args[i]);
      OffsetNext(args, i);
      pushed := pushed + value;
      position := position + VALUE + length;
    }
  }

  lemma OffsetNext(args: seq<Value>, n: nat)
    requires n < |args|
    ensures Offset(args, n + 1) == Offset(args, n) + VALUE + |Payload(args[n])|
  {
  }

  /** Nil, booleans, numbers and strings pass unchanged; a userdata only if it points to where it is unpacked. */
  lemma RestoredUnchanged(at: nat, at': nat, v: Value)
    ensures Restored(at, v) == v <==>
      v.Nil? || v.Boolean? || v.Number? || v.Text? || (v.Userdata? && v.pointer == ToBytes(at, 8))
    ensures Restored(at', Restored(at, v)) == Restored(at', v)
  {
  }

  /** So a pointer from outside the heap is lost. */
  lemma UserdataLost(base: nat, args: seq<Value>, i: nat)
    requires i < |args| && args[i].Userdata? && base + Offset(args, |args|) <= ADDRESSES
    requires FromBytes(args[i].pointer) < base || base + Offset(args, |args|) <= FromBytes(args[i].pointer)
    ensures RestoredAll(base, args)[i].Userdata? && RestoredAll(base, args)[i] != args[i]
  {
    hide FromBytes, Offset, RestoredAll;
    RestoredArrives(base, args);
    assert Arrives(base, base + Offset(args, |args|), args[i], RestoredAll(base, args)[i]);
  }

  /** A message sent: packed by one state and unpacked by another, from a heap at address `base`. */
  method Transfer(stack: seq<Value>, offset: nat, base: nat) returns (ok: bool, received: seq<Value>)
    requires offset <= |stack| && Countable(|stack| - offset)
    ensures ok <==> stack[offset..] == [] || CapacityAfter(stack[offset..], |stack| - offset).Accepted?
    ensures ok ==> received == RestoredAll(base, stack[offset..])
    ensures ok ==> ArrivesAll(base, base + Offset(stack[offset..], |stack| - offset), stack[offset..], received)
    ensures PayloadSize(stack[offset..]) < MSG_INC_SIZE ==> ok
  {
    hide Arrives, Offset, RestoredAll, CapacityAfter, PayloadSize, Laid;
    ghost var args := stack[offset..];
    if PayloadSize(args) < MSG_INC_SIZE { SmallAccepted(args); }
    var r := Pop(stack, offset);
    match r
    case NoContent =>
      var argc;
      ok := true;
      argc, received := Push(null, base, args);
    case Popped(heap) =>
      CapacityBound(args, |args|);
      var argc;
      ok := true;
      argc, received := Push(heap, base, args);
    case Raised(_) =>
      ok, received := false, [];
    case Undefined =>
      ok, received := false, [];
  }

  lemma SameRecord(heap: seq<byte>, at: nat, v: Value, v': Value)
    requires Record(heap, at, v) && Record(heap, at, v') && |Payload(v)| < 0x8000_0000 && |Payload(v')| < 0x8000_0000
    ensures forall a :: Restored(a, v') == Restored(a, v)
    ensures |Payload(v')| == |Payload(v)|
  {
    hide FromBytes, ToBytes;
    RecordRead(heap, at, v);
    RecordRead(heap, at, v');
    assert Payload(v) == Payload(v');
    if v.Boolean? { assert Payload(v)[0] == Payload(v')[0]; }
  }

  /** Two packed lists in the same heap are received alike: the bytes determine what is unpacked. */
  lemma {:induction false} SameBytes(heap: seq<byte>, base: nat, args: seq<Value>, args': seq<Value>, n: nat)
    requires Laid(heap, args, |args|) && Laid(heap, args', |args'|)
    requires |heap| < 0x8000_0000 && args != [] && args' != []
    requires n <= |args|
    ensures |args'| == |args| && Offset(args', n) == Offset(args, n)
    ensures RestoredAll(base, args')[..n] == RestoredAll(base, args)[..n]
  {
    hide ToBytes, FromBytes, Record, Payload, Restored, Offset;
    Widths(heap, args, 0);
    Widths(heap, args', 0);
    NothingLaid(heap, args);
    NothingLaid(heap, args');
    if n > 0 {
      SameBytes(heap, base, args, args', n - 1);
      var v, v' := args[n - 1], args'[n - 1];
      assert Record(heap, Offset(args, n - 1), v) && Record(heap, Offset(args', n - 1), v');
      Widths(heap, args, n - 1);
      Widths(heap, args', n - 1);
      SameRecord(heap, Offset(args, n - 1), v, v');
      OffsetNext(args, n - 1);
      OffsetNext(args', n - 1);
    }
  }
}
