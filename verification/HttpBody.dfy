/** Runs over several bytes: cutting the input, and bodies read in bulk. */
module HttpBody {
  import opened Bytes
  import opened HttpChars
  import opened HttpTypes
  import opened HttpStep
  import opened HttpInvariants
  import opened HttpTrace
  import opened HttpSpans

  /** Reading `a + b` is reading `a` and then, from wherever that ends, `b`. */
  lemma {:induction false} ReadAllSplit(cfg: Config, r: Run, a: seq<byte>, b: seq<byte>)
    ensures ReadAll(cfg, r, a + b) == ReadAll(cfg, ReadAll(cfg, r, a), b)
  {
    hide Read;
    if b == [] {
      assert a + b == a;
    } else {
      var n := |b| - 1;
      assert (a + b)[..|a + b| - 1] == a + b[..n];
      ReadAllSplit(cfg, r, a, b[..n]);
    }
  }

  lemma ReadOne(cfg: Config, r: Run, b: byte)
    ensures ReadAll(cfg, r, [b]) == Read(cfg, r, b)
  {
    hide Read;
    assert [b][..0] == [];
    assert ReadAll(cfg, r, [b][..0]) == r;
  }

  lemma ReadStopped(cfg: Config, r: Run, b: byte)
    requires !r.status.Running?
    ensures Read(cfg, r, b) == r
  {
  }

  /** Nothing is read after an error or an upgrade. */
  lemma {:induction false} StoppedStays(cfg: Config, r: Run, bytes: seq<byte>)
    requires !r.status.Running?
    ensures ReadAll(cfg, r, bytes) == r
  {
    if bytes != [] { StoppedStays(cfg, r, bytes[..|bytes| - 1]); }
  }

  /** A running parser has consumed every byte. */
  lemma {:induction false} RunningConsumes(cfg: Config, r: Run, bytes: seq<byte>)
    ensures var t := ReadAll(cfg, r, bytes);
      && (t.status.Running? ==> r.status.Running? && t.n == r.n + |bytes|)
      && r.n <= t.n <= r.n + |bytes|
  {
    hide Step, Feed, ApplyAll;
    if bytes != [] { RunningConsumes(cfg, r, bytes[..|bytes| - 1]); }
  }

  // ---------- Cuts ----------

  function Concat(pieces: seq<seq<byte>>): seq<byte> {
    if pieces == [] then [] else Concat(pieces[..|pieces| - 1]) + pieces[|pieces| - 1]
  }

  lemma ConcatNext(pieces: seq<seq<byte>>, i: nat)
    requires i < |pieces|
    ensures Concat(pieces[..i + 1]) == Concat(pieces[..i]) + pieces[i]
  {
    assert pieces[..i + 1][..i] == pieces[..i];
  }

  lemma {:induction false} ConcatSplit(ps: seq<seq<byte>>, qs: seq<seq<byte>>)
    ensures Concat(ps + qs) == Concat(ps) + Concat(qs)
  {
    if qs == [] {
      assert ps + qs == ps;
    } else {
      var n := |qs| - 1;
      assert (ps + qs)[..|ps + qs| - 1] == ps + qs[..n];
      ConcatSplit(ps, qs[..n]);
    }
  }

  /** One call per piece. */
  function ReadPieces(cfg: Config, r: Run, pieces: seq<seq<byte>>): Run {
    if pieces == [] then r
    else ReadAll(cfg, ReadPieces(cfg, r, pieces[..|pieces| - 1]), pieces[|pieces| - 1])
  }

  /** However the input is cut, from every state: the same messages, consumed count and saved parser. */
  lemma {:induction false} CutInvariance(cfg: Config, r: Run, pieces: seq<seq<byte>>)
    ensures ReadPieces(cfg, r, pieces) == ReadAll(cfg, r, Concat(pieces))
  {
    hide Read;
    if pieces != [] {
      var n := |pieces| - 1;
      CutInvariance(cfg, r, pieces[..n]);
      ReadAllSplit(cfg, r, Concat(pieces[..n]), pieces[n]);
    }
  }

  /** The count of bytes consumed is carried along and plays no other part. */
  lemma {:induction false} ShiftCount(cfg: Config, r: Run, bytes: seq<byte>, k: nat)
    ensures ReadAll(cfg, r.(n := r.n + k), bytes) == ReadAll(cfg, r, bytes).(n := ReadAll(cfg, r, bytes).n + k)
  {
    hide Step, Feed, ApplyAll;
    if bytes != [] { ShiftCount(cfg, r, bytes[..|bytes| - 1], k); }
  }

  // ---------- Content-Length bodies ----------

  /** The end of a counted body: the message is complete when nothing is left. */
  function CountedEnd(strict: bool, s: Parser, o: Obs, n: nat): Run {
    if s.contentLength == 0 then Run(Running, s.(state := NewMessage(strict, s)), Apply(o, Complete(s)), n)
    else Run(Running, s, o, n)
  }

  lemma IdentityByte(cfg: Config, r: Run, b: byte)
    requires r.status.Running? && r.s.state.BodyIdentity? && r.s.contentLength > 0
    ensures Read(cfg, r, b)
         == CountedEnd(cfg.strict, r.s.(contentLength := r.s.contentLength - 1), Apply(r.o, Data(Body, [b])), r.n + 1)
  {
    hide Apply, ShouldKeepAlive;
    ApplyOne(r.o, Data(Body, [b]));
    var s1 := r.s.(contentLength := r.s.contentLength - 1);
    ApplyTwo(r.o, Data(Body, [b]), Complete(s1));
  }

  /** A counted body of n bytes delivers exactly the next bytes, and the n-th completes the message. */
  lemma {:induction false} CountedBody(cfg: Config, r: Run, bytes: seq<byte>)
    requires r.status.Running? && r.s.state.BodyIdentity?
    requires 0 < |bytes| <= r.s.contentLength
    ensures ReadAll(cfg, r, bytes)
         == CountedEnd(cfg.strict, r.s.(contentLength := r.s.contentLength - |bytes|), Apply(r.o, Data(Body, bytes)),
             r.n + |bytes|)
  {
    hide Read, Apply, NewMessage, Complete;
    var n := |bytes| - 1;
    var last := bytes[n];
    assert bytes == bytes[..n] + [last];
    if n == 0 {
      assert bytes == [last];
      ReadOne(cfg, r, last);
      IdentityByte(cfg, r, last);
    } else {
      CountedBody(cfg, r, bytes[..n]);
      IdentityByte(cfg, ReadAll(cfg, r, bytes[..n]), last);
      MergeData(r.o, Body, bytes[..n], [last]);
    }
  }

  /** A body without a length takes everything that comes. */
  lemma {:induction false} EofBody(cfg: Config, r: Run, bytes: seq<byte>)
    requires r.status.Running? && r.s.state.BodyIdentityEof? && bytes != []
    ensures ReadAll(cfg, r, bytes) == r.(o := Apply(r.o, Data(Body, bytes)), n := r.n + |bytes|)
  {
    hide Apply;
    var n := |bytes| - 1;
    var last := bytes[n];
    assert bytes == bytes[..n] + [last];
    ApplyOne(r.o, Data(Body, [last]));
    if n == 0 {
      assert bytes == [last];
    } else {
      EofBody(cfg, r, bytes[..n]);
      ApplyOne(ReadAll(cfg, r, bytes[..n]).o, Data(Body, [last]));
      MergeData(r.o, Body, bytes[..n], [last]);
    }
  }

  // ---------- Chunk data ----------

  function ChunkEnd(s: Parser, o: Obs, n: nat): Run {
    Run(Running, s.(state := Chunk(if s.contentLength == 0 then ChunkDataAlmostDone else ChunkData)), o, n)
  }

  lemma ChunkByte(cfg: Config, r: Run, b: byte)
    requires r.status.Running? && r.s.state == Chunk(ChunkData) && r.s.contentLength > 0
    ensures Read(cfg, r, b)
         == ChunkEnd(r.s.(contentLength := r.s.contentLength - 1), Apply(r.o, Data(Body, [b])), r.n + 1)
  {
    hide Apply;
    ApplyOne(r.o, Data(Body, [b]));
  }

  /** The data of a chunk is delivered as it is, and its last byte ends the chunk. */
  lemma {:induction false} ChunkBody(cfg: Config, r: Run, bytes: seq<byte>)
    requires r.status.Running? && r.s.state == Chunk(ChunkData)
    requires 0 < |bytes| <= r.s.contentLength
    ensures ReadAll(cfg, r, bytes)
         == ChunkEnd(r.s.(contentLength := r.s.contentLength - |bytes|), Apply(r.o, Data(Body, bytes)), r.n + |bytes|)
  {
    hide Read, Apply;
    var n := |bytes| - 1;
    var last := bytes[n];
    assert bytes == bytes[..n] + [last];
    if n == 0 {
      assert bytes == [last];
      ReadOne(cfg, r, last);
      ChunkByte(cfg, r, last);
    } else {
      ChunkBody(cfg, r, bytes[..n]);
      ChunkByte(cfg, ReadAll(cfg, r, bytes[..n]), last);
      MergeData(r.o, Body, bytes[..n], [last]);
    }
  }

  /** A negative length (an overflowed chunk size) ends the chunk at the next byte, unread. */
  lemma NegativeChunk(cfg: Config, r: Run, b: byte)
    requires r.status.Running? && r.s.state == Chunk(ChunkData) && r.s.contentLength < 0
    ensures Read(cfg, r, b) == r.(s := r.s.(contentLength := 0, state := Chunk(ChunkDataAlmostDone)), n := r.n + 1)
  {
  }
}
