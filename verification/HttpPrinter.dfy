/** The printer of large chunked messages, and what the parser makes of its output. */
module HttpPrinter {
  import opened Bytes
  import opened HttpChars
  import opened HttpTypes
  import opened HttpStep
  import opened HttpBody
  import opened HttpChunks
  import opened HttpMessages

  const KB_LINE: seq<byte> := [DIGIT_0 + 4, DIGIT_0, DIGIT_0, CR, LF]
  const LAST_LINES: seq<byte> := [DIGIT_0, CR, LF, CR, LF, 0]

  function Repeat(b: byte, n: nat): seq<byte> { seq(n, _ => b) }

  /** The body: `kb` parts of 1024 letters. */
  function Parts(kb: nat): (ps: seq<seq<byte>>)
    ensures |ps| == kb && forall i :: 0 <= i < kb ==> ps[i] == Repeat(C_, 1024)
  {
    seq(kb, _ => Repeat(C_, 1024))
  }

  /** Copy `bytes` into the buffer at `at`. */
  method Put(buf: array<byte>, at: nat, bytes: seq<byte>)
    requires at + |bytes| <= buf.Length
    modifies buf
    ensures buf[..] == old(buf[..at]) + bytes + old(buf[at + |bytes|..])
  {
    for i := 0 to |bytes|
      invariant buf[..at] == old(buf[..at])
      invariant buf[at..at + i] == bytes[..i]
      invariant buf[at + |bytes|..] == old(buf[at + |bytes|..])
    {
      buf[at + i] := bytes[i];
    }
    assert buf[..] == buf[..at] + buf[at..at + |bytes|] + buf[at + |bytes|..];
  }

  lemma KbIsChunk()
    ensures KB_LINE + Repeat(C_, 1024) + CRLF == PrintChunk(HttpChunks.Chunked(Repeat(C_, 1024)))
  {
    assert HexDigits(4) == [DIGIT_0 + 4];
    assert HexDigits(64) == [DIGIT_0 + 4, DIGIT_0];
    assert HexDigits(1024) == [DIGIT_0 + 4, DIGIT_0, DIGIT_0];
    assert PrintLine(SizeLine(HexDigits(1024), [])) == KB_LINE;
  }

  lemma PartsNext(kb: nat)
    ensures PrintChunks(ChunkAll(Parts(kb + 1))) == PrintChunks(ChunkAll(Parts(kb))) + KB_LINE + Repeat(C_, 1024) + CRLF
  {
    hide PrintChunk, HttpChunks.Chunked;
    KbIsChunk();
    assert ChunkAll(Parts(kb + 1))[..kb] == ChunkAll(Parts(kb));
  }

  lemma {:induction false} PartsLength(kb: nat)
    ensures |PrintChunks(ChunkAll(Parts(kb)))| == (5 + 1024 + 2) * kb
  {
    if kb > 0 { PartsLength(kb - 1); PartsNext(kb - 1); }
  }

  /** One chunk of the body; the copied string ends in a NUL that the next write covers. */
  method PutKb(buf: array<byte>, at: nat)
    requires at + 5 + 1024 + 2 + 1 <= buf.Length
    modifies buf
    ensures buf[..at + 1031] == old(buf[..at]) + KB_LINE + Repeat(C_, 1024) + CRLF
  {
    Put(buf, at, KB_LINE);
    assert buf[..at + 5] == old(buf[..at]) + KB_LINE;
    label L1:
    Put(buf, at + 5, Repeat(C_, 1024));
    assert buf[..at + 1029] == old@L1(buf[..at + 5]) + Repeat(C_, 1024);
    label L2:
    Put(buf, at + 1029, CRLF + [0]);
    assert buf[..at + 1031] == old@L2(buf[..at + 1029]) + CRLF;
  }

  /** The buffer is filled to its last byte: the headers, `kb` chunks, the zero chunk, and a NUL. */
  method CreateLargeChunkedMessage(kb: nat, headers: seq<byte>) returns (buf: array<byte>)
    ensures fresh(buf) && buf[..] == headers + PrintBody(ChunkAll(Parts(kb)), ZERO_LINE) + [0]
  {
    hide PrintChunks, ChunkAll, Parts;
    var bufsize := |headers| + (5 + 1024 + 2) * kb + 6;
    buf := new byte[bufsize];
    Put(buf, 0, headers);
    var wrote := |headers|;
    assert PrintChunks(ChunkAll(Parts(0))) == [] by { PartsLength(0); }
    for i := 0 to kb
      invariant wrote == |headers| + 1031 * i
      invariant buf[..wrote] == headers + PrintChunks(ChunkAll(Parts(i)))
    {
      PutKb(buf, wrote);
      PartsNext(i);
      wrote := wrote + 1031;
    }
    ghost var front := buf[..wrote];
    Put(buf, wrote, LAST_LINES);
    wrote := wrote + 6;
    assert wrote == bufsize;
    assert buf[..] == front + LAST_LINES;
    assert LAST_LINES == PrintLine(ZERO_LINE) + CRLF + [0];
  }

  lemma {:induction false} JoinParts(kb: nat)
    ensures Join(Parts(kb)) == Repeat(C_, 1024 * kb)
  {
    if kb > 0 {
      JoinParts(kb - 1);
      assert Parts(kb)[..kb - 1] == Parts(kb - 1);
    }
  }

  /** What the buffer holds after its headers is one message body of 1024 * kb letters, however it is cut. */
  lemma LargeMessageRead(cfg: Config, r: Run, kb: nat, pieces: seq<seq<byte>>)
    requires r.status.Running? && r.s.state == Chunk(ChunkSizeStart) && r.s.nread == 0
    requires Concat(pieces) == PrintBody(ChunkAll(Parts(kb)), ZERO_LINE)
    ensures var t := ReadPieces(cfg, r, pieces);
      && t.status.Running? && t.s == AfterChunks(cfg.strict, r.s)
      && t.o == Apply(Deliver(r.o, Repeat(C_, 1024 * kb)), Complete(r.s))
  {
    hide ReadAll, ReadPieces, Apply, ShouldKeepAlive, PrintBody;
    ChunkedUnderEveryCut(cfg, r, Parts(kb), pieces);
    JoinParts(kb);
  }
}
