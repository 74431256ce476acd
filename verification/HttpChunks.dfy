/** Chunked transfer coding (RFC 2616 section 3.6.1): what is printed is what is delivered. */
module HttpChunks {
  import opened Bytes
  import opened HttpChars
  import opened HttpTypes
  import opened HttpStep
  import opened HttpInvariants
  import opened HttpTrace
  import opened HttpSpans
  import opened HttpBody

  // ---------- The printed form ----------

  function HexValue(ds: seq<byte>): int {
    if ds == [] then 0 else HexValue(ds[..|ds| - 1]) * 16 + Unhex(ds[|ds| - 1])
  }

  predicate IsHex(ds: seq<byte>) { ds != [] && forall i :: 0 <= i < |ds| ==> Unhex(ds[i]) != -1 }

  /** Chunk extensions start with a semicolon or a space and run to the end of the line. */
  predicate IsExtension(ext: seq<byte>) {
    ext == [] || ((ext[0] == SEMICOLON || ext[0] == SP) && CR !in ext)
  }

  const CRLF: seq<byte> := [CR, LF]

  /** A size line, with its digits and its extension. */
  datatype SizeLine = SizeLine(digits: seq<byte>, ext: seq<byte>)

  predicate IsSizeLine(l: SizeLine, size: nat) {
    && IsHex(l.digits) && HexValue(l.digits) == size < 0x8000_0000_0000_0000
    && IsExtension(l.ext)
    && |l.digits| + |l.ext| + 2 <= HTTP_MAX_HEADER_SIZE
  }

  function PrintLine(l: SizeLine): seq<byte> { l.digits + l.ext + CRLF }

  datatype ChunkText = ChunkText(line: SizeLine, data: seq<byte>)

  predicate IsChunk(c: ChunkText) { c.data != [] && IsSizeLine(c.line, |c.data|) }

  function PrintChunk(c: ChunkText): seq<byte> { PrintLine(c.line) + c.data + CRLF }

  function PrintChunks(cs: seq<ChunkText>): seq<byte> {
    if cs == [] then [] else PrintChunks(cs[..|cs| - 1]) + PrintChunk(cs[|cs| - 1])
  }

  function Payload(cs: seq<ChunkText>): seq<byte> {
    if cs == [] then [] else Payload(cs[..|cs| - 1]) + cs[|cs| - 1].data
  }

  /** All chunks, the zero-length one, and the empty line: no trailers. */
  function PrintBody(cs: seq<ChunkText>, last: SizeLine): seq<byte> {
    PrintChunks(cs) + PrintLine(last) + CRLF
  }

  // ---------- Reading it ----------

  lemma ChunkStep(cfg: Config, r: Run, at: ChunkState, b: byte)
    requires r.status.Running? && r.s.state == Chunk(at) && !at.ChunkData?
    requires Charge(r.s).nread <= HTTP_MAX_HEADER_SIZE
    ensures var m := StepChunk(cfg.strict, Charge(r.s), at, b);
      m.out.Continue? ==> Read(cfg, r, b) == Run(Running, m.s, r.o, r.n + 1)
  {
    hide Wrap64, Unhex, Apply;
  }

  lemma {:induction false} HexNonNegative(ds: seq<byte>)
    requires IsHex(ds)
    ensures HexValue(ds) >= 0
  {
    var n := |ds| - 1;
    if n > 0 { HexNonNegative(ds[..n]); } else { assert HexValue(ds[..0]) == 0; }
  }

  lemma {:induction false} ReadDigits(cfg: Config, r: Run, ds: seq<byte>)
    requires r.status.Running? && r.s.state == Chunk(ChunkSizeStart)
    requires IsHex(ds) && HexValue(ds) < 0x8000_0000_0000_0000
    requires r.s.nread + |ds| <= HTTP_MAX_HEADER_SIZE
    ensures ReadAll(cfg, r, ds)
         == r.(s := r.s.(state := Chunk(ChunkSize), contentLength := HexValue(ds), nread := r.s.nread + |ds|),
             n := r.n + |ds|)
  {
    hide Read, Unhex, Wrap64;
    var n := |ds| - 1;
    var b := ds[n];
    if n == 0 {
      assert ds == [b];
      assert HexValue(ds[..0]) == 0;
      ReadOne(cfg, r, b);
      ChunkStep(cfg, r, ChunkSizeStart, b);
    } else {
      HexNonNegative(ds[..n]);
      ReadDigits(cfg, r, ds[..n]);
      CrIsNoDigit();
      ChunkStep(cfg, ReadAll(cfg, r, ds[..n]), ChunkSize, b);
    }
  }

  lemma CrIsNoDigit()
    ensures Unhex(CR) == Unhex(SEMICOLON) == Unhex(SP) == -1
  {
  }

  lemma {:induction false} ReadExtension(cfg: Config, r: Run, ext: seq<byte>)
    requires r.status.Running? && r.s.state == Chunk(ChunkSize)
    requires IsExtension(ext) && r.s.nread + |ext| <= HTTP_MAX_HEADER_SIZE
    ensures ReadAll(cfg, r, ext)
         == r.(s := r.s.(state := Chunk(if ext == [] then ChunkSize else ChunkParameters), nread := r.s.nread + |ext|),
               n := r.n + |ext|)
  {
    hide Read, Unhex, Wrap64;
    CrIsNoDigit();
    if ext != [] {
      var n := |ext| - 1;
      var b := ext[n];
      assert b in ext;
      if n == 0 {
        assert ext == [b];
        ReadOne(cfg, r, b);
        ChunkStep(cfg, r, ChunkSize, b);
      } else {
        assert forall i :: 0 <= i < n ==> ext[..n][i] in ext;
        ReadExtension(cfg, r, ext[..n]);
        ChunkStep(cfg, ReadAll(cfg, r, ext[..n]), ChunkParameters, b);
      }
    }
  }

  /** The end of a size line: data, or trailers after a zero size. */
  function LineEnd(s: Parser): Parser {
    if s.contentLength == 0 then
      s.(nread := 0, flags := s.flags.(trailing := true), state := Head(HeaderFieldStart))
    else s.(nread := 0, state := Chunk(ChunkData))
  }

  lemma ReadTwo(cfg: Config, r: Run, a: byte, b: byte)
    ensures ReadAll(cfg, r, [a, b]) == Read(cfg, Read(cfg, r, a), b)
  {
    assert [a, b] == [a] + [b];
    ReadAllSplit(cfg, r, [a], [b]);
    ReadOne(cfg, r, a);
    ReadOne(cfg, Read(cfg, r, a), b);
  }

  lemma ReadSizeLine(cfg: Config, r: Run, l: SizeLine, size: nat)
    requires r.status.Running? && r.s.state == Chunk(ChunkSizeStart) && r.s.nread == 0
    requires IsSizeLine(l, size)
    ensures ReadAll(cfg, r, PrintLine(l)) == r.(s := LineEnd(r.s.(contentLength := size)), n := r.n + |PrintLine(l)|)
  {
    hide Read, ReadAll, HexValue, Unhex, IsExtension;
    ReadDigits(cfg, r, l.digits);
    var r1 := ReadAll(cfg, r, l.digits);
    ReadAllSplit(cfg, r, l.digits, l.ext);
    ReadExtension(cfg, r1, l.ext);
    var r2 := ReadAll(cfg, r, l.digits + l.ext);
    assert r2 == ReadAll(cfg, r1, l.ext);
    ReadAllSplit(cfg, r, l.digits + l.ext, CRLF);
    ReadTwo(cfg, r2, CR, LF);
    ChunkStep(cfg, r2, r2.s.state.chunk, CR);
    var r3 := Read(cfg, r2, CR);
    ChunkStep(cfg, r3, ChunkSizeAlmostDone, LF);
  }

  /** After the data of a chunk: its line end, and the next size line. */
  lemma ReadChunkEnd(cfg: Config, r: Run)
    requires r.status.Running? && r.s.state == Chunk(ChunkDataAlmostDone) && r.s.nread == 0
    ensures ReadAll(cfg, r, CRLF) == r.(s := r.s.(state := Chunk(ChunkSizeStart)), n := r.n + 2)
  {
    hide Read, ReadAll;
    ReadTwo(cfg, r, CR, LF);
    ChunkStep(cfg, r, ChunkDataAlmostDone, CR);
    ChunkStep(cfg, Read(cfg, r, CR), ChunkDataDone, LF);
  }

  /** One chunk delivers its data and nothing else. */
  lemma ReadChunk(cfg: Config, r: Run, c: ChunkText)
    requires r.status.Running? && r.s.state == Chunk(ChunkSizeStart) && r.s.nread == 0
    requires IsChunk(c)
    ensures ReadAll(cfg, r, PrintChunk(c))
         == Run(Running, r.s.(contentLength := 0), Apply(r.o, Data(Body, c.data)), r.n + |PrintChunk(c)|)
  {
    hide Read, ReadAll, Apply, IsSizeLine;
    var line := PrintLine(c.line);
    ReadSizeLine(cfg, r, c.line, |c.data|);
    var r1 := ReadAll(cfg, r, line);
    ReadAllSplit(cfg, r, line, c.data);
    ChunkBody(cfg, r1, c.data);
    var r2 := ReadAll(cfg, r, line + c.data);
    assert r2 == ReadAll(cfg, r1, c.data);
    ReadAllSplit(cfg, r, line + c.data, CRLF);
    ReadChunkEnd(cfg, r2);
  }

  function Deliver(o: Obs, bytes: seq<byte>): Obs { if bytes == [] then o else Apply(o, Data(Body, bytes)) }

  lemma {:induction false} ReadChunks(cfg: Config, r: Run, cs: seq<ChunkText>)
    requires r.status.Running? && r.s.state == Chunk(ChunkSizeStart) && r.s.nread == 0
    requires forall i :: 0 <= i < |cs| ==> IsChunk(cs[i])
    ensures var t := ReadAll(cfg, r, PrintChunks(cs));
      && t.status.Running? && t.o == Deliver(r.o, Payload(cs)) && t.n == r.n + |PrintChunks(cs)|
      && t.s == r.s.(contentLength := if cs == [] then r.s.contentLength else 0)
  {
    hide Read, Apply, PrintChunk, IsChunk;
    if cs != [] {
      var n := |cs| - 1;
      var c := cs[n];
      ReadChunks(cfg, r, cs[..n]);
      var r1 := ReadAll(cfg, r, PrintChunks(cs[..n]));
      ReadAllSplit(cfg, r, PrintChunks(cs[..n]), PrintChunk(c));
      ReadChunk(cfg, r1, c);
      HasData(c);
      if Payload(cs[..n]) != [] { MergeData(r.o, Body, Payload(cs[..n]), c.data); }
      else { assert Payload(cs) == c.data; }
    }
  }

  lemma HasData(c: ChunkText)
    requires IsChunk(c)
    ensures c.data != []
  {
  }

  /** The empty line after the zero chunk completes the message. */
  lemma ReadNoTrailers(cfg: Config, r: Run)
    requires r.status.Running? && r.s.state == Head(HeaderFieldStart) && r.s.flags.trailing
    requires r.s.nread + 2 <= HTTP_MAX_HEADER_SIZE
    ensures ReadAll(cfg, r, CRLF)
         == Run(Running, r.s.(state := NewMessage(cfg.strict, r.s), nread := r.s.nread + 2),
             Apply(r.o, Complete(r.s)), r.n + 2)
  {
    hide Apply, ShouldKeepAlive, Token, InfoOf;
    ReadTwo(cfg, r, CR, LF);
    ApplyOne(r.o, Complete(r.s));
    var r1 := Read(cfg, r, CR);
    assert r1 == r.(s := r.s.(state := Head(HeadersAlmostDone), nread := r.s.nread + 1), n := r.n + 1);
  }

  /** After a chunked body the two bytes of the last line end stay charged. */
  function AfterChunks(strict: bool, s: Parser): Parser {
    s.(state := NewMessage(strict, s), nread := 2, contentLength := 0, flags := s.flags.(trailing := true))
  }

  /** Parsing a printed chunked body delivers exactly its payload and completes exactly one message. */
  lemma ChunkedRoundTrip(cfg: Config, r: Run, cs: seq<ChunkText>, last: SizeLine)
    requires r.status.Running? && r.s.state == Chunk(ChunkSizeStart) && r.s.nread == 0
    requires forall i :: 0 <= i < |cs| ==> IsChunk(cs[i])
    requires IsSizeLine(last, 0)
    ensures var t := ReadAll(cfg, r, PrintBody(cs, last));
      && t.status.Running? && t.s == AfterChunks(cfg.strict, r.s) && t.n == r.n + |PrintBody(cs, last)|
      && t.o == Apply(Deliver(r.o, Payload(cs)), Complete(r.s))
  {
    hide Read, ReadAll, Apply, IsChunk, IsSizeLine, ShouldKeepAlive, PrintLine, PrintChunks, Payload;
    ReadChunks(cfg, r, cs);
    var r1 := ReadAll(cfg, r, PrintChunks(cs));
    ReadAllSplit(cfg, r, PrintChunks(cs), PrintLine(last));
    ReadSizeLine(cfg, r1, last, 0);
    var r2 := ReadAll(cfg, r, PrintChunks(cs) + PrintLine(last));
    assert r2 == ReadAll(cfg, r1, PrintLine(last));
    ReadAllSplit(cfg, r, PrintChunks(cs) + PrintLine(last), CRLF);
    ReadNoTrailers(cfg, r2);
    TrailingKeeps(cfg.strict, r.s, r2.s);
  }

  lemma TrailingKeeps(strict: bool, s: Parser, t: Parser)
    requires t.kind == s.kind && t.major == s.major && t.minor == s.minor && t.flags == s.flags.(trailing := true)
    ensures NewMessage(strict, t) == NewMessage(strict, s) && Complete(t) == Complete(s)
  {
  }

  // ---------- A printer ----------

  function HexDigit(d: nat): byte
    requires d < 16
  {
    if d < 10 then DIGIT_0 + d else LOW_A + (d - 10)
  }

  function HexDigits(n: nat): seq<byte> {
    if n < 16 then [HexDigit(n)] else HexDigits(n / 16) + [HexDigit(n % 16)]
  }

  lemma {:induction false} HexDigitsValue(n: nat)
    ensures IsHex(HexDigits(n)) && HexValue(HexDigits(n)) == n
  {
    var ds := HexDigits(n);
    assert Unhex(ds[|ds| - 1]) == n % 16;
    if n < 16 {
      assert HexValue(ds[..0]) == 0;
    } else {
      HexDigitsValue(n / 16);
      assert ds[..|ds| - 1] == HexDigits(n / 16);
    }
  }

  lemma {:induction false} HexDigitsShort(n: nat, k: nat)
    requires n < Power16(k) && k > 0
    ensures |HexDigits(n)| <= k
  {
    if n >= 16 { HexDigitsShort(n / 16, k - 1); }
  }

  function Power16(k: nat): nat { if k == 0 then 1 else 16 * Power16(k - 1) }

  function Chunked(data: seq<byte>): ChunkText { ChunkText(SizeLine(HexDigits(|data|), []), data) }

  /** Every body part can be printed as a chunk. */
  lemma ChunkedIsChunk(data: seq<byte>)
    requires 0 < |data| < 0x8000_0000_0000_0000
    ensures IsChunk(Chunked(data))
  {
    HexDigitsValue(|data|);
    assert Power16(16) == 0x1_0000_0000_0000_0000 by {
      assert Power16(4) == 0x1_0000;
      assert Power16(8) == 0x1_0000_0000;
      assert Power16(12) == 0x1_0000_0000_0000;
    }
    HexDigitsShort(|data|, 16);
  }

  function ChunkAll(parts: seq<seq<byte>>): (cs: seq<ChunkText>)
    ensures |cs| == |parts| && forall i :: 0 <= i < |parts| ==> cs[i] == Chunked(parts[i])
  {
    seq(|parts|, i requires 0 <= i < |parts| => Chunked(parts[i]))
  }

  function Join(parts: seq<seq<byte>>): seq<byte> {
    if parts == [] then [] else Join(parts[..|parts| - 1]) + parts[|parts| - 1]
  }

  lemma {:induction false} PayloadIsJoin(parts: seq<seq<byte>>)
    ensures Payload(ChunkAll(parts)) == Join(parts)
  {
    if parts != [] {
      var n := |parts| - 1;
      PayloadIsJoin(parts[..n]);
      assert ChunkAll(parts)[..n] == ChunkAll(parts[..n]);
    }
  }

  const ZERO_LINE := SizeLine([DIGIT_0], [])

  /** The decoder inverts the encoder, for every list of non-empty parts. */
  lemma DecodeEncode(cfg: Config, r: Run, parts: seq<seq<byte>>)
    requires r.status.Running? && r.s.state == Chunk(ChunkSizeStart) && r.s.nread == 0
    requires forall i :: 0 <= i < |parts| ==> 0 < |parts[i]| < 0x8000_0000_0000_0000
    ensures var t := ReadAll(cfg, r, PrintBody(ChunkAll(parts), ZERO_LINE));
      && t.status.Running? && t.s == AfterChunks(cfg.strict, r.s)
      && t.o == Apply(Deliver(r.o, Join(parts)), Complete(r.s))
  {
    hide ReadAll, Apply, ShouldKeepAlive;
    forall i | 0 <= i < |parts| ensures IsChunk(ChunkAll(parts)[i]) { ChunkedIsChunk(parts[i]); }
    PayloadIsJoin(parts);
    assert HexValue([DIGIT_0][..0]) == 0;
    ChunkedRoundTrip(cfg, r, ChunkAll(parts), ZERO_LINE);
  }
}
