/** Whole messages: parsing what is printed gives back the same messages, one after the other and under every cut. */
module HttpRoundTrip {
  import opened Bytes
  import opened HttpChars
  import opened HttpTypes
  import opened HttpStep
  import opened HttpInvariants
  import opened HttpTrace
  import opened HttpBody
  import opened HttpHeaderLines
  import opened HttpChunks
  import opened HttpMessages
  import opened HttpRequestLine
  import opened HttpStatusLine
  import opened HttpHeaderBlocks
  import opened HttpExecute

  // ---------- The printed form ----------

  /** A request line or a status line, each behind blank lines. */
  datatype StartLine =
    | RequestLine(lead: seq<byte>, verb: Method, gap: nat, target: Target, end: LineEnd)
    | StatusLine(lead: seq<byte>, version: Version, gap: nat, status: seq<byte>, reason: Reason, eol: seq<byte>)

  /** A body: none, counted, chunked with trailers, or up to the end of the connection. */
  datatype BodyText =
    | NoBody
    | Counted(bytes: seq<byte>)
    | Chunks(chunks: seq<ChunkText>, last: SizeLine, trailers: seq<HeaderText>, eol: seq<byte>)
    | UntilEnd(bytes: seq<byte>)

  /** A start line, headers, the empty line, and a body. */
  datatype Text = Text(start: StartLine, headers: seq<HeaderText>, eol: seq<byte>, body: BodyText)

  function KindOf(start: StartLine): ParserType { if start.RequestLine? then Request else Response }

  predicate IsStartLine(strict: bool, start: StartLine) {
    AreBlankLines(start.lead)
    && match start
       case RequestLine(_, verb, _, target, end) => IsTarget(strict, verb.CONNECT?, target) && IsLineEnd(target, end)
       case StatusLine(_, version, _, status, reason, eol) =>
         IsVersion(version) && IsNumber(status) && IsReason(reason) && IsEol(eol)
  }

  /** The version; a request line without one is HTTP/0.9. */
  function Major(start: StartLine): nat {
    if start.RequestLine? then MajorOf(start.end) else Decimal(start.version.major)
  }

  function Minor(start: StartLine): nat {
    if start.RequestLine? then MinorOf(start.end) else Decimal(start.version.minor)
  }

  /** Whether the connection stays open, as far as the flags tell. */
  predicate Stays(start: StartLine, f: Flags) { ShouldKeepAlive(Major(start), Minor(start), f) }

  function FlagsOf(q: Text): Flags { FlagsFrom(NO_FLAGS, q.headers) }

  /** Trailers set flags as headers do. */
  function EndFlags(f: Flags, body: BodyText): Flags {
    if body.Chunks? then FlagsFrom(f.(trailing := true), body.trailers) else f
  }

  predicate StaysAtEnd(q: Text) { Stays(q.start, EndFlags(FlagsOf(q), q.body)) }

  /** The body is the one the headers announce (RFC 2616 section 4.4), or none if the user skips it. */
  predicate BodyFits(skip: bool, request: bool, stays: bool, f: Flags, length: int, body: BodyText) {
    match body
    case NoBody => skip || (!f.chunked && (length == 0 || (length == -1 && (request || stays))))
    case Counted(bytes) => !skip && !f.chunked && 0 < length == |bytes|
    case Chunks(cs, last, trailers, eol) =>
      && !skip && f.chunked && IsSizeLine(last, 0) && (forall i :: 0 <= i < |cs| ==> IsChunk(cs[i]))
      && AllHeaders(trailers) && IsEol(eol) && |PrintHeaders(trailers)| + |eol| <= HTTP_MAX_HEADER_SIZE
    case UntilEnd(_) => !skip && !f.chunked && length == -1 && !request && !stays
  }

  predicate IsHead(strict: bool, q: Text) { IsStartLine(strict, q.start) && AllHeaders(q.headers) && IsEol(q.eol) }

  /** After its headers the connection is for another protocol. */
  predicate Upgrades(q: Text) { FlagsOf(q).upgrade || (q.start.RequestLine? && q.start.verb.CONNECT?) }

  /** A message whose body fits its headers and the user's answer to them. */
  predicate IsText(strict: bool, skip: bool, q: Text) {
    && IsHead(strict, q) && !Upgrades(q)
    && BodyFits(skip, q.start.RequestLine?, Stays(q.start, FlagsOf(q)), FlagsOf(q), LengthFrom(-1, q.headers), q.body)
  }

  function PrintStart(start: StartLine): seq<byte> {
    match start
    case RequestLine(lead, verb, gap, target, end) => PrintRequestLine(lead, verb, gap, target, end)
    case StatusLine(lead, version, gap, status, reason, eol) =>
      PrintStatusLine(lead, version, gap, status, reason, eol)
  }

  function PrintHead(q: Text): seq<byte> { PrintStart(q.start) + PrintHeaders(q.headers) }

  function PrintContent(body: BodyText): seq<byte> {
    match body
    case NoBody => []
    case Counted(bytes) => bytes
    case Chunks(cs, last, trailers, eol) =>
      PrintChunks(cs) + HttpChunks.PrintLine(last) + (PrintHeaders(trailers) + eol)
    case UntilEnd(bytes) => bytes
  }

  function Print(q: Text): seq<byte> { PrintHead(q) + (q.eol + PrintContent(q.body)) }

  // ---------- What it should amount to ----------

  function BytesOf(body: BodyText): seq<byte> {
    match body
    case NoBody => []
    case Counted(bytes) => bytes
    case Chunks(cs, _, _, _) => Payload(cs)
    case UntilEnd(bytes) => bytes
  }

  function TrailersOf(body: BodyText): seq<HeaderText> { if body.Chunks? then body.trailers else [] }

  function InfoIn(q: Text): Info {
    Info(q.start.RequestLine?, if q.start.RequestLine? then q.start.verb else DELETE,
         if q.start.RequestLine? then 0 else Decimal(q.start.status),
         Major(q.start), Minor(q.start), Stays(q.start, FlagsOf(q)), FlagsOf(q).chunked)
  }

  /** The message after its start line. */
  function Started(start: StartLine): Message {
    if start.RequestLine? then WithTarget(EMPTY_MESSAGE.(begins := 1), start.target)
    else EMPTY_MESSAGE.(begins := |start.lead| + 1)
  }

  /** What the callbacks should have accumulated for `q`. */
  function MessageOf(q: Text): Message {
    var trailers := TrailersOf(q.body);
    Started(q.start).(
      headers := PairsOf(q.headers) + PairsOf(trailers),
      last := if q.headers == [] && trailers == [] then Nothing else LastValue,
      infos := [InfoIn(q)], body := BytesOf(q.body), completes := [StaysAtEnd(q)])
  }

  // ---------- The head ----------

  /** What on_headers_complete is asked at the end of the headers of `q`, behind the messages `done`: whether to skip
      its body. */
  predicate SkipsBody(cfg: Config, done: seq<Message>, q: Text) {
    cfg.answer(HeadersIn(Obs(done, Started(q.start), Line), q.headers), InfoIn(q))
  }

  /** At the start of a message of this kind. */
  predicate AtStart(r: Run, kind: ParserType) {
    && r.status.Running? && !kind.Both? && r.s.kind == kind && r.s.state == StartState(kind) && !r.s.upgrade
    && (kind.Response? ==> r.s.verb.DELETE?) && Fresh(r.o)
  }

  /** The parser holds what the start line says. */
  predicate Holds(s: Parser, start: StartLine) {
    && s.kind == KindOf(start) && !s.upgrade && s.verb == (if start.RequestLine? then start.verb else DELETE)
    && s.major == Major(start) && s.minor == Minor(start)
    && (start.StatusLine? ==> s.status == Decimal(start.status))
  }

  lemma ReadStart(cfg: Config, r: Run, start: StartLine)
    requires AtStart(r, KindOf(start)) && IsStartLine(cfg.strict, start)
    requires r.s.nread + |PrintStart(start)| <= HTTP_MAX_HEADER_SIZE
    ensures var t := ReadAll(cfg, r, PrintStart(start)); var k := |PrintStart(start)|;
      && t.status.Running? && t.s.state == Head(HeaderFieldStart) && Holds(t.s, start)
      && t.s.flags == NO_FLAGS && t.s.contentLength == -1 && t.s.nread == r.s.nread + k && t.n == r.n + k
      && t.o == Obs(r.o.done, Started(start), Line)
  {
    hide Read, ReadAll, PrintRequestLine, PrintStatusLine, IsTarget, IsLineEnd, IsVersion, IsNumber, IsReason, Decimal,
      WithTarget, MajorOf, MinorOf, IsEol, AreBlankLines;
    match start
    case RequestLine(lead, verb, gap, target, end) => ReadRequestLine(cfg, r, lead, verb, gap, target, end);
    case StatusLine(lead, version, gap, status, reason, eol) =>
      ReadStatusLine(cfg, r, lead, version, gap, status, reason, eol);
  }

  /** The start line and the headers. */
  lemma ReadHead(cfg: Config, r: Run, q: Text)
    requires AtStart(r, KindOf(q.start)) && IsHead(cfg.strict, q) && r.s.nread + |PrintHead(q)| <= HTTP_MAX_HEADER_SIZE
    ensures var t := ReadAll(cfg, r, PrintHead(q)); var k := |PrintHead(q)|;
      && t.status.Running? && t.s.state == Head(BlockEnd(q.headers)) && Holds(t.s, q.start)
      && t.s.flags == FlagsOf(q) && t.s.contentLength == LengthFrom(-1, q.headers)
      && t.s.nread == r.s.nread + k && t.n == r.n + k
      && t.o == HeadersIn(Obs(r.o.done, Started(q.start), Line), q.headers)
  {
    hide Read, ReadAll, PrintStart, PrintHeaders, IsStartLine, AllHeaders, FlagsFrom, LengthFrom, Major, Minor,
      HeadersIn, BlockEnd, IsEol;
    ReadStart(cfg, r, q.start);
    ReadAllSplit(cfg, r, PrintStart(q.start), PrintHeaders(q.headers));
    ReadHeaders(cfg, ReadAll(cfg, r, PrintStart(q.start)), q.headers);
  }

  // ---------- The body ----------

  /** From a zero-length chunk on: the trailers and the empty line after them. */
  lemma ReadTrailers(cfg: Config, r: Run, ts: seq<HeaderText>, eol: seq<byte>)
    requires r.status.Running? && r.s.state == Head(HeaderFieldStart) && r.s.flags.trailing && r.s.nread == 0
    requires AllHeaders(ts) && IsEol(eol) && |PrintHeaders(ts)| + |eol| <= HTTP_MAX_HEADER_SIZE && BlockOpen(r.o)
    ensures var t := ReadAll(cfg, r, PrintHeaders(ts) + eol); var s1 := r.s.(flags := FlagsFrom(r.s.flags, ts));
      && t.status.Running? && OnlyHeader(r.s, t.s) && t.s.state == NewMessage(cfg.strict, s1)
      && t.s.nread == |PrintHeaders(ts)| + |eol| && t.o == Apply(HeadersIn(r.o, ts), Complete(s1))
  {
    hide Read, ReadAll, PrintHeaders, AllHeaders, FlagsFrom, LengthFrom, HeadersIn, Apply, ShouldKeepAlive, BlockOpen,
      BlockEnd;
    ReadHeaders(cfg, r, ts);
    var r1 := ReadAll(cfg, r, PrintHeaders(ts));
    ReadAllSplit(cfg, r, PrintHeaders(ts), eol);
    LwsIsStart(cfg, r1, eol);
    FlagsKept(r.s.flags, ts);
    var r2 := r1.(s := r1.s.(state := Head(HeaderFieldStart)));
    ReadTrailersEnd(cfg, r2, eol);
    SameEnd(cfg.strict, r2.s, r.s.(flags := FlagsFrom(r.s.flags, ts)));
  }

  /** A chunked body with its trailers. */
  lemma ReadChunked(cfg: Config, r: Run, cs: seq<ChunkText>, last: SizeLine, ts: seq<HeaderText>, eol: seq<byte>)
    requires r.status.Running? && r.s.state == Chunk(ChunkSizeStart) && r.s.nread == 0
    requires (forall i :: 0 <= i < |cs| ==> IsChunk(cs[i])) && IsSizeLine(last, 0)
    requires AllHeaders(ts) && IsEol(eol) && |PrintHeaders(ts)| + |eol| <= HTTP_MAX_HEADER_SIZE
    requires BlockOpen(Deliver(r.o, Payload(cs)))
    ensures var t := ReadAll(cfg, r, PrintChunks(cs) + HttpChunks.PrintLine(last) + (PrintHeaders(ts) + eol));
      var s1 := r.s.(flags := FlagsFrom(r.s.flags.(trailing := true), ts));
      && t.status.Running? && OnlyHeader(r.s, t.s) && t.s.state == NewMessage(cfg.strict, s1)
      && t.s.nread == |PrintHeaders(ts)| + |eol|
      && t.o == Apply(HeadersIn(Deliver(r.o, Payload(cs)), ts), Complete(s1))
  {
    hide Read, ReadAll, PrintChunks, PrintHeaders, AllHeaders, FlagsFrom, HeadersIn, Apply, ShouldKeepAlive, BlockOpen,
      IsChunk, IsSizeLine, Deliver, Payload, HttpChunks.PrintLine, IsEol;
    var a, b := PrintChunks(cs), HttpChunks.PrintLine(last);
    ReadChunks(cfg, r, cs);
    var r1 := ReadAll(cfg, r, a);
    ReadAllSplit(cfg, r, a, b);
    ReadSizeLine(cfg, r1, last, 0);
    var r2 := ReadAll(cfg, r, a + b);
    ReadAllSplit(cfg, r, a + b, PrintHeaders(ts) + eol);
    ReadTrailers(cfg, r2, ts, eol);
    SameEnd(cfg.strict, r.s.(flags := FlagsFrom(r.s.flags.(trailing := true), ts)),
            r2.s.(flags := FlagsFrom(r2.s.flags, ts)));
  }

  /** The header budget that the message leaves charged. */
  function Carried(body: BodyText): nat { if body.Chunks? then |PrintHeaders(body.trailers)| + |body.eol| else 0 }

  /** What the message leaves of the parser. */
  predicate EndsAs(strict: bool, s: Parser, t: Parser, body: BodyText) {
    && OnlyHeader(s, t) && t.nread == Carried(body)
    && t.state == NewMessage(strict, s.(flags := EndFlags(s.flags, body)))
  }

  /** From the empty line to the end of the message, for each kind of body. */
  lemma ReadBody(cfg: Config, r: Run, eol: seq<byte>, body: BodyText, stays: bool)
    requires BodyAhead(r, eol) && !body.UntilEnd? && !r.s.kind.Both?
        && stays == ShouldKeepAlive(r.s.major, r.s.minor, r.s.flags)
    requires BodyFits(Skips(cfg, r), r.s.kind.Request?, stays, r.s.flags, r.s.contentLength, body)
    requires r.o.phase.Line? || r.o.phase.Headers?
    requires !r.o.cur.last.LastField?
    ensures var t := ReadAll(cfg, r, eol + PrintContent(body));
      var o1 := Deliver(Apply(r.o, HeadersComplete(InfoOf(r.s))), BytesOf(body));
      && t.status.Running? && EndsAs(cfg.strict, r.s, t.s, body)
      && t.o == Apply(HeadersIn(o1, TrailersOf(body)), Complete(r.s.(flags := EndFlags(r.s.flags, body))))
  {
    hide Read, ReadAll, Apply, InfoOf, ShouldKeepAlive, IsChunk, IsSizeLine, PrintChunks, Payload, PrintHeaders,
      FlagsFrom, AllHeaders, HttpChunks.PrintLine, IsEol;
    match body
    case NoBody =>
      assert eol + [] == eol;
      NothingFollows(cfg, r, stays);
      BodyLess(cfg, r, eol);
    case Counted(bytes) => LengthDelimited(cfg, r, eol, bytes);
    case Chunks(cs, last, ts, end) => ReadChunksBody(cfg, r, eol, body);
  }

  lemma NothingFollows(cfg: Config, r: Run, stays: bool)
    requires stays == ShouldKeepAlive(r.s.major, r.s.minor, r.s.flags) && !r.s.kind.Both?
    requires BodyFits(Skips(cfg, r), r.s.kind.Request?, stays, r.s.flags, r.s.contentLength, NoBody)
    ensures BodyFollows(cfg.strict, Answered(r.s, Skips(cfg, r))).1
  {
    hide InfoOf;
  }

  lemma ReadChunksBody(cfg: Config, r: Run, eol: seq<byte>, body: BodyText)
    requires BodyAhead(r, eol) && body.Chunks? && !Skips(cfg, r) && r.s.flags.chunked && IsSizeLine(body.last, 0)
    requires forall i :: 0 <= i < |body.chunks| ==> IsChunk(body.chunks[i])
    requires AllHeaders(body.trailers) && IsEol(body.eol)
    requires |PrintHeaders(body.trailers)| + |body.eol| <= HTTP_MAX_HEADER_SIZE
    requires r.o.phase.Line? || r.o.phase.Headers?
    requires !r.o.cur.last.LastField?
    ensures var t := ReadAll(cfg, r, eol + PrintContent(body));
      var o1 := Deliver(Apply(r.o, HeadersComplete(InfoOf(r.s))), BytesOf(body));
      && t.status.Running? && EndsAs(cfg.strict, r.s, t.s, body)
      && t.o == Apply(HeadersIn(o1, TrailersOf(body)), Complete(r.s.(flags := EndFlags(r.s.flags, body))))
  {
    hide Read, ReadAll, Apply, InfoOf, ShouldKeepAlive, IsChunk, IsSizeLine, PrintChunks, Payload, PrintHeaders,
      FlagsFrom, AllHeaders, HttpChunks.PrintLine, IsEol;
    ReadEmptyLine(cfg, r, eol);
    AnsweredKeeps(r.s, false);
    ApplyOne(r.o, HeadersComplete(InfoOf(r.s)));
    var r1 := ReadAll(cfg, r, eol);
    ReadAllSplit(cfg, r, eol, PrintContent(body));
    AfterAnnounce(r.o, InfoOf(r.s), Payload(body.chunks));
    InfoChunked(r.s);
    ReadChunked(cfg, r1, body.chunks, body.last, body.trailers, body.eol);
    SameEnd(cfg.strict, r.s.(flags := EndFlags(r.s.flags, body)), r1.s.(flags := EndFlags(r1.s.flags, body)));
  }

  lemma InfoChunked(s: Parser)
    ensures InfoOf(s).chunked == s.flags.chunked
  {
  }

  lemma AfterAnnounce(o: Obs, info: Info, bytes: seq<byte>)
    requires (o.phase.Line? || o.phase.Headers?) && !o.cur.last.LastField?
    ensures info.chunked ==> BlockOpen(Deliver(Apply(o, HeadersComplete(info)), bytes))
  {
  }

  // ---------- One message ----------

  /** The callbacks after the headers, accumulated. */
  lemma MessageEnds(o: Obs, info: Info, bytes: seq<byte>, ts: seq<HeaderText>, ka: bool)
    requires o.phase.Line? || o.phase.Headers?
    requires ts != [] ==> info.chunked
    ensures Apply(HeadersIn(Deliver(Apply(o, HeadersComplete(info)), bytes), ts), MessageComplete(ka))
         == Obs(o.done + [o.cur.(infos := o.cur.infos + [info], body := o.cur.body + bytes,
                                 headers := o.cur.headers + PairsOf(ts),
                                 last := if ts == [] then o.cur.last else LastValue,
                                 completes := o.cur.completes + [ka])],
                EMPTY_MESSAGE, Idle)
  {
    assert o.cur.body + [] == o.cur.body && o.cur.headers + [] == o.cur.headers;
  }

  /** The message when its headers are complete, and when it is. */
  lemma HeadMessage(o: Obs, q: Text, r: Run)
    requires r.o == HeadersIn(Obs(o.done, Started(q.start), Line), q.headers) && Holds(r.s, q.start)
        && r.s.flags == FlagsOf(q)
    ensures InfoOf(r.s) == InfoIn(q) && r.o.done == o.done && (r.o.phase.Line? || r.o.phase.Headers?)
    ensures !r.o.cur.last.LastField?
    ensures var ts := TrailersOf(q.body);
      r.o.cur.(infos := r.o.cur.infos + [InfoIn(q)], body := r.o.cur.body + BytesOf(q.body),
               headers := r.o.cur.headers + PairsOf(ts), last := if ts == [] then r.o.cur.last else LastValue,
               completes := r.o.cur.completes + [StaysAtEnd(q)]) == MessageOf(q)
  {
    hide FlagsFrom, Major, Minor, ShouldKeepAlive, BytesOf, PrintTarget;
    assert [] + PairsOf(q.headers) == PairsOf(q.headers) && PairsOf([]) == [];
    assert [] + BytesOf(q.body) == BytesOf(q.body);
    assert [] + [InfoIn(q)] == [InfoIn(q)] && [] + [StaysAtEnd(q)] == [StaysAtEnd(q)];
  }

  /** After its headers the text is ready for its body. */
  lemma HeadReady(cfg: Config, r: Run, q: Text, skip: bool)
    requires r.status.Running? && r.s.state == Head(HeaderFieldStart) && Holds(r.s, q.start) && r.s.flags == FlagsOf(q)
    requires IsText(cfg.strict, skip, q) && r.s.nread + |q.eol| <= HTTP_MAX_HEADER_SIZE
    requires r.s.contentLength == LengthFrom(-1, q.headers)
    ensures BodyAhead(r, q.eol) && Stays(q.start, FlagsOf(q)) == ShouldKeepAlive(r.s.major, r.s.minor, r.s.flags)
    ensures BodyFits(skip, r.s.kind.Request?, ShouldKeepAlive(r.s.major, r.s.minor, r.s.flags), r.s.flags,
        r.s.contentLength, q.body)
  {
    hide FlagsFrom, LengthFrom, Major, Minor, BodyFits, ShouldKeepAlive, AllHeaders, InfoOf, IsStartLine;
    FlagsKept(NO_FLAGS, q.headers);
  }

  /** What the parser asks is what the text says. */
  lemma AsksSkip(cfg: Config, r: Run, q: Text, done: seq<Message>)
    requires r.o == HeadersIn(Obs(done, Started(q.start), Line), q.headers) && InfoOf(r.s) == InfoIn(q)
    ensures Skips(cfg, r) == SkipsBody(cfg, done, q)
  {
  }

  /** A message within the header budget, printed and parsed, is one message with exactly its parts, and the parser is
      back at a start state (or, if strict and not to be kept alive, dead). */
  lemma TextRoundTrip(cfg: Config, r: Run, q: Text)
    requires AtStart(r, KindOf(q.start)) && IsText(cfg.strict, SkipsBody(cfg, r.o.done, q), q) && !q.body.UntilEnd?
    requires r.s.nread + |PrintHead(q)| + |q.eol| <= HTTP_MAX_HEADER_SIZE
    ensures var t := ReadAll(cfg, r, Print(q)); var kind := KindOf(q.start);
      && t.status.Running? && t.s.state == (if cfg.strict && !StaysAtEnd(q) then Dead else StartState(kind))
      && t.s.kind == kind && !t.s.upgrade && (kind.Response? ==> t.s.verb.DELETE?) && t.s.nread == Carried(q.body)
      && t.o == Obs(r.o.done + [MessageOf(q)], EMPTY_MESSAGE, Idle)
  {
    hide Read, ReadAll, PrintHead, PrintContent, BodyFits, FlagsFrom, LengthFrom, Major, Minor, ShouldKeepAlive, Apply,
      Deliver, HeadersIn, IsStartLine, AllHeaders, BytesOf, TrailersOf, Carried, InfoOf, InfoIn, MessageOf, Started,
      FlagsOf, BlockEnd, SkipsBody, Skips;
    ReadHead(cfg, r, q);
    var r1 := ReadAll(cfg, r, PrintHead(q));
    var rest := q.eol + PrintContent(q.body);
    ReadAllSplit(cfg, r, PrintHead(q), rest);
    LwsIsStart(cfg, r1, rest);
    var r2 := r1.(s := r1.s.(state := Head(HeaderFieldStart)));
    HeadReady(cfg, r2, q, SkipsBody(cfg, r.o.done, q));
    HeadMessage(r.o, q, r2);
    AsksSkip(cfg, r2, q, r.o.done);
    ReadBody(cfg, r2, q.eol, q.body, Stays(q.start, FlagsOf(q)));
    TrailersChunked(q, SkipsBody(cfg, r.o.done, q));
    MessageEnds(r2.o, InfoIn(q), BytesOf(q.body), TrailersOf(q.body), StaysAtEnd(q));
  }

  lemma TrailersChunked(q: Text, skip: bool)
    requires BodyFits(skip, q.start.RequestLine?, Stays(q.start, FlagsOf(q)), FlagsOf(q), LengthFrom(-1, q.headers),
                      q.body)
    ensures TrailersOf(q.body) != [] ==> InfoIn(q).chunked
  {
  }

  // ---------- A body that ends with the connection ----------

  /** Such a message is not complete when its text is: its bytes have been delivered, and the parser waits for more. */
  lemma ReadUntilEnd(cfg: Config, r: Run, q: Text)
    requires AtStart(r, KindOf(q.start)) && IsText(cfg.strict, SkipsBody(cfg, r.o.done, q), q) && q.body.UntilEnd?
    requires r.s.nread + |PrintHead(q)| + |q.eol| <= HTTP_MAX_HEADER_SIZE
    ensures var t := ReadAll(cfg, r, Print(q));
      && t.status.Running? && t.s.state.BodyIdentityEof?
      && Apply(t.o, Complete(t.s)) == Obs(r.o.done + [MessageOf(q)], EMPTY_MESSAGE, Idle)
  {
    hide Read, ReadAll, PrintHead, FlagsFrom, LengthFrom, Major, Minor, ShouldKeepAlive, Apply, HeadersIn, IsStartLine,
      AllHeaders, InfoOf, InfoIn, MessageOf, Started, FlagsOf, BlockEnd, SkipsBody, Skips;
    ReadHead(cfg, r, q);
    var r1 := ReadAll(cfg, r, PrintHead(q));
    var rest := q.eol + q.body.bytes;
    ReadAllSplit(cfg, r, PrintHead(q), rest);
    LwsIsStart(cfg, r1, rest);
    var r2 := r1.(s := r1.s.(state := Head(HeaderFieldStart)));
    HeadReady(cfg, r2, q, SkipsBody(cfg, r.o.done, q));
    HeadMessage(r.o, q, r2);
    AsksSkip(cfg, r2, q, r.o.done);
    ReadEmptyLine(cfg, r2, q.eol);
    AnsweredKeeps(r2.s, false);
    EofFollows(cfg.strict, r2.s, q.body);
    ApplyOne(r2.o, HeadersComplete(InfoOf(r2.s)));
    var r3 := ReadAll(cfg, r2, q.eol);
    ReadAllSplit(cfg, r2, q.eol, q.body.bytes);
    if q.body.bytes == [] { ReadNothing(cfg, r3); } else { EofBody(cfg, r3, q.body.bytes); }
    HeadersInNothing(Deliver(Apply(r2.o, HeadersComplete(InfoOf(r2.s))), q.body.bytes));
    MessageEnds(r2.o, InfoIn(q), q.body.bytes, [], StaysAtEnd(q));
  }

  lemma EofFollows(strict: bool, s: Parser, body: BodyText)
    requires body.UntilEnd? && !s.flags.skipBody
    requires BodyFits(false, s.kind.Request?, ShouldKeepAlive(s.major, s.minor, s.flags), s.flags, s.contentLength,
                      body)
    ensures BodyFollows(strict, s) == (BodyIdentityEof, false) && EndEvents(strict, s) == [HeadersComplete(InfoOf(s))]
  {
  }

  lemma ReadNothing(cfg: Config, r: Run)
    ensures ReadAll(cfg, r, []) == r
  {
  }

  lemma HeadersInNothing(o: Obs)
    ensures HeadersIn(o, []) == o
  {
  }

  // ---------- One behind the other ----------

  function PrintAll(qs: seq<Text>): seq<byte> {
    if qs == [] then [] else PrintAll(qs[..|qs| - 1]) + Print(qs[|qs| - 1])
  }

  function MessagesOf(qs: seq<Text>): (ms: seq<Message>)
    ensures |ms| == |qs| && forall i :: 0 <= i < |qs| ==> ms[i] == MessageOf(qs[i])
  {
    seq(|qs|, i requires 0 <= i < |qs| => MessageOf(qs[i]))
  }

  /** The header budget that is charged when message `i` begins. */
  function CarriedBefore(qs: seq<Text>, i: nat): nat
    requires i <= |qs|
  {
    if i == 0 then 0 else Carried(qs[i - 1].body)
  }

  /** The message is one that ends by itself, behind the messages `done` and `before` charged bytes. */
  predicate IsNext(cfg: Config, kind: ParserType, done: seq<Message>, before: nat, q: Text) {
    && IsText(cfg.strict, SkipsBody(cfg, done, q), q) && KindOf(q.start) == kind && !q.body.UntilEnd?
    && before + |PrintHead(q)| + |q.eol| <= HTTP_MAX_HEADER_SIZE
  }

  /** Messages of one kind that end by themselves, each within the header budget with what the one before it left
      charged; a strict parser needs all but the last to be kept alive. */
  predicate ArePipelined(cfg: Config, kind: ParserType, done: seq<Message>, qs: seq<Text>) {
    && (forall i :: 0 <= i < |qs| ==> IsNext(cfg, kind, done + MessagesOf(qs[..i]), CarriedBefore(qs, i), qs[i]))
    && (cfg.strict ==> forall i :: 0 <= i < |qs| - 1 ==> StaysAtEnd(qs[i]))
  }

  /** All but the last message, and the last one. */
  lemma PipelineLast(cfg: Config, kind: ParserType, done: seq<Message>, qs: seq<Text>)
    requires ArePipelined(cfg, kind, done, qs) && qs != []
    ensures var n := |qs| - 1;
      && ArePipelined(cfg, kind, done, qs[..n])
      && IsNext(cfg, kind, done + MessagesOf(qs[..n]), CarriedBefore(qs[..n], n), qs[n])
      && (cfg.strict && n > 0 ==> StaysAtEnd(qs[..n][n - 1]))
  {
    hide IsNext, Carried, StaysAtEnd, MessageOf;
    var n := |qs| - 1;
    forall i | 0 <= i < n
      ensures IsNext(cfg, kind, done + MessagesOf(qs[..n][..i]), CarriedBefore(qs[..n], i), qs[..n][i])
    {
      assert qs[..n][..i] == qs[..i] && CarriedBefore(qs[..n], i) == CarriedBefore(qs, i);
    }
    assert CarriedBefore(qs[..n], n) == CarriedBefore(qs, n);
  }

  /** Any number of messages, one behind the other: exactly these, in order. */
  lemma {:induction false} PipelineRoundTrip(cfg: Config, r: Run, kind: ParserType, qs: seq<Text>)
    requires AtStart(r, kind) && r.s.nread == 0 && ArePipelined(cfg, kind, r.o.done, qs)
    ensures var t := ReadAll(cfg, r, PrintAll(qs));
      && t.status.Running? && t.o == Obs(r.o.done + MessagesOf(qs), EMPTY_MESSAGE, Idle)
      && t.s.kind == kind && !t.s.upgrade && (kind.Response? ==> t.s.verb.DELETE?)
            && t.s.nread == CarriedBefore(qs, |qs|)
      && t.s.state == (if qs != [] && cfg.strict && !StaysAtEnd(qs[|qs| - 1]) then Dead else StartState(kind))
  {
    hide Read, IsText, PrintHead, Print, MessageOf, StaysAtEnd, Carried, ArePipelined, CarriedBefore, KindOf,
      SkipsBody;
    if qs == [] {
      assert r.o.done + [] == r.o.done;
      NothingCarried(qs);
    } else {
      var n := |qs| - 1;
      PipelineLast(cfg, kind, r.o.done, qs);
      PipelineRoundTrip(cfg, r, kind, qs[..n]);
      var u := ReadAll(cfg, r, PrintAll(qs[..n]));
      ReadAllSplit(cfg, r, PrintAll(qs[..n]), Print(qs[n]));
      TextRoundTrip(cfg, u, qs[n]);
      NothingCarried(qs);
      assert r.o.done + MessagesOf(qs[..n]) + [MessageOf(qs[n])] == r.o.done + MessagesOf(qs);
    }
  }

  lemma NothingCarried(qs: seq<Text>)
    ensures CarriedBefore(qs, |qs|) == if qs == [] then 0 else Carried(qs[|qs| - 1].body)
  {
  }

  /** A new parser, fed the printed messages in any pieces, accumulates exactly these messages; the end of the
      connection is in order then, and changes nothing. */
  method ParseAll(strict: bool, kind: ParserType, parser: HttpParser, cb: Callbacks, pieces: seq<seq<byte>>,
      ghost qs: seq<Text>)
    returns (total: nat, end: nat)
    requires !kind.Both? && JustInitialised(parser, cb, kind)
    requires forall i :: 0 <= i < |pieces| ==> pieces[i] != []
    requires ArePipelined(Config(strict, cb.answer), kind, [], qs) && Concat(pieces) == PrintAll(qs)
    modifies parser, cb
    ensures total == |PrintAll(qs)| && end == 0 && parser.state.Live?
    ensures Observe(cb.log) == Obs(MessagesOf(qs), EMPTY_MESSAGE, Idle)
  {
    hide ReadAll, PrintAll, ArePipelined, StaysAtEnd, Observe;
    InitAttached(parser, cb, kind);
    ghost var r := Entry(parser, cb);
    NothingObserved();
    PipelineRoundTrip(Config(strict, cb.answer), r, kind, qs);
    RunningConsumes(Config(strict, cb.answer), r, PrintAll(qs));
    assert [] + MessagesOf(qs) == MessagesOf(qs);
    total := ExecutePieces(strict, parser, cb, pieces);
    ghost var log := cb.log;
    end := Execute(strict, parser, cb, []);
    assert log + [] == log;
  }

  lemma NothingObserved()
    ensures Observe([]) == NO_OBS
  {
  }

  /** Printed messages, the last of which ends with the connection. */
  lemma PipelineUntilEnd(cfg: Config, r: Run, qs: seq<Text>, q: Text)
    requires AtStart(r, Response) && r.s.nread == 0 && ArePipelined(cfg, Response, r.o.done, qs)
    requires IsText(cfg.strict, SkipsBody(cfg, r.o.done + MessagesOf(qs), q), q) && q.body.UntilEnd?
    requires cfg.strict && qs != [] ==> StaysAtEnd(qs[|qs| - 1])
    requires CarriedBefore(qs, |qs|) + |PrintHead(q)| + |q.eol| <= HTTP_MAX_HEADER_SIZE
    ensures var t := ReadAll(cfg, r, PrintAll(qs) + Print(q));
      && t.status.Running? && t.s.state.BodyIdentityEof?
      && Apply(t.o, Complete(t.s)) == Obs(r.o.done + MessagesOf(qs + [q]), EMPTY_MESSAGE, Idle)
  {
    hide Read, ReadAll, IsText, PrintHead, Print, PrintAll, MessageOf, StaysAtEnd, Carried, CarriedBefore,
      ArePipelined, Complete, Apply, KindOf, SkipsBody;
    EndsAsResponse(cfg.strict, SkipsBody(cfg, r.o.done + MessagesOf(qs), q), q);
    PipelineRoundTrip(cfg, r, Response, qs);
    ReadAllSplit(cfg, r, PrintAll(qs), Print(q));
    ReadUntilEnd(cfg, ReadAll(cfg, r, PrintAll(qs)), q);
    assert r.o.done + MessagesOf(qs) + [MessageOf(q)] == r.o.done + MessagesOf(qs + [q]);
  }

  lemma EndsAsResponse(strict: bool, skip: bool, q: Text)
    requires IsText(strict, skip, q) && q.body.UntilEnd?
    ensures KindOf(q.start) == Response
  {
  }

  /** A new response parser, fed printed messages in any pieces and then the end of the connection, accumulates exactly
      these messages, the last one up to that end. */
  method ParseToEnd(strict: bool, parser: HttpParser, cb: Callbacks, pieces: seq<seq<byte>>, ghost qs: seq<Text>,
      ghost q: Text)
    returns (total: nat, end: nat)
    requires JustInitialised(parser, cb, Response)
    requires forall i :: 0 <= i < |pieces| ==> pieces[i] != []
    requires ArePipelined(Config(strict, cb.answer), Response, [], qs) && q.body.UntilEnd?
    requires IsText(strict, SkipsBody(Config(strict, cb.answer), MessagesOf(qs), q), q)
    requires strict && qs != [] ==> StaysAtEnd(qs[|qs| - 1])
    requires CarriedBefore(qs, |qs|) + |PrintHead(q)| + |q.eol| <= HTTP_MAX_HEADER_SIZE
    requires Concat(pieces) == PrintAll(qs) + Print(q)
    modifies parser, cb
    ensures total == |PrintAll(qs) + Print(q)| && end == 0 && parser.state.Live?
    ensures Observe(cb.log) == Obs(MessagesOf(qs + [q]), EMPTY_MESSAGE, Idle)
  {
    hide ReadAll, PrintAll, ArePipelined, IsText, Complete, Apply, PrintHead, CarriedBefore, Observe, SkipsBody;
    InitAttached(parser, cb, Response);
    ghost var cfg := Config(strict, cb.answer);
    ghost var r := Entry(parser, cb);
    NothingObserved();
    assert [] + MessagesOf(qs) == MessagesOf(qs);
    PipelineUntilEnd(cfg, r, qs, q);
    RunningConsumes(cfg, r, PrintAll(qs) + Print(q));
    assert [] + MessagesOf(qs + [q]) == MessagesOf(qs + [q]);
    total := ExecutePieces(strict, parser, cb, pieces);
    ghost var log := cb.log;
    end := Execute(strict, parser, cb, []);
    assert cb.log == log + [Complete(ReadAll(cfg, r, Concat(pieces)).s)];
    ObserveNext(log, Complete(ReadAll(cfg, r, Concat(pieces)).s));
  }

  lemma ObserveNext(log: seq<Event>, e: Event)
    ensures Observe(log + [e]) == Apply(Observe(log), e)
  {
    hide Apply;
    assert (log + [e])[..|log|] == log;
  }

  // ---------- When a trailer closes the connection, or keeps it ----------

  /** One of the headers is a Connection header with this value. */
  predicate Spells(hs: seq<HeaderText>, word: seq<byte>) {
    exists i :: 0 <= i < |hs| && Connects(hs[i].name) && ValueIs(hs[i].value, word)
  }

  lemma SpellsNext(hs: seq<HeaderText>, word: seq<byte>)
    requires hs != []
    ensures var h := hs[|hs| - 1];
      Spells(hs, word) <==> Spells(hs[..|hs| - 1], word) || (Connects(h.name) && ValueIs(h.value, word))
  {
    hide Connects, ValueIs;
    var n := |hs| - 1;
    if i :| 0 <= i < n && Connects(hs[..n][i].name) && ValueIs(hs[..n][i].value, word) { assert hs[i] == hs[..n][i]; }
    if i :| 0 <= i < |hs| && Connects(hs[i].name) && ValueIs(hs[i].value, word) {
      if i < n { assert hs[..n][i] == hs[i]; }
    }
  }

  lemma {:induction false} FlagsSpelled(f: Flags, hs: seq<HeaderText>)
    ensures FlagsFrom(f, hs).close <==> f.close || Spells(hs, CLOSE)
    ensures FlagsFrom(f, hs).keepAlive <==> f.keepAlive || Spells(hs, KEEP_ALIVE)
  {
    if hs != [] {
      hide Connects, ValueIs, NameIs, Spells;
      FlagsSpelled(f, hs[..|hs| - 1]);
      SpellsNext(hs, CLOSE);
      SpellsNext(hs, KEEP_ALIVE);
    }
  }

  /** From HTTP/1.1 on a connection stays open unless it is closed, before it if it is kept. */
  predicate StaysUnlessClosed(start: StartLine) { Major(start) > 0 && Minor(start) > 0 }

  /** What is told about keeping the connection, at the announcement and at the end, by the spelling of the headers and
      trailers. */
  lemma KeepAliveSpelled(q: Text)
    ensures InfoIn(q).keepAlive <==>
      if StaysUnlessClosed(q.start) then !Spells(q.headers, CLOSE) else Spells(q.headers, KEEP_ALIVE)
    ensures MessageOf(q).completes ==
      [if StaysUnlessClosed(q.start) then !Spells(q.headers, CLOSE) && !Spells(TrailersOf(q.body), CLOSE)
       else Spells(q.headers, KEEP_ALIVE) || Spells(TrailersOf(q.body), KEEP_ALIVE)]
  {
    hide FlagsFrom, Major, Minor, Spells;
    FlagsSpelled(NO_FLAGS, q.headers);
    if q.body.Chunks? {
      FlagsSpelled(FlagsOf(q).(trailing := true), q.body.trailers);
    } else {
      NothingSpelled(CLOSE);
      NothingSpelled(KEEP_ALIVE);
    }
  }

  /** A message is told to stay open at its end and not at its announcement, or the other way round, if and only if a
      trailer spells what no header did. */
  lemma TrailersDiffer(q: Text)
    ensures StaysAtEnd(q) != Stays(q.start, FlagsOf(q)) <==>
      if StaysUnlessClosed(q.start) then !Spells(q.headers, CLOSE) && Spells(TrailersOf(q.body), CLOSE)
      else !Spells(q.headers, KEEP_ALIVE) && Spells(TrailersOf(q.body), KEEP_ALIVE)
  {
    hide FlagsFrom, Major, Minor, Spells, MessageOf;
    KeepAliveSpelled(q);
    assert MessageOf(q).completes == [StaysAtEnd(q)] by { EndIsTold(q); }
  }

  lemma EndIsTold(q: Text)
    ensures MessageOf(q).completes == [StaysAtEnd(q)] && InfoIn(q).keepAlive == Stays(q.start, FlagsOf(q))
  {
    hide FlagsFrom, ShouldKeepAlive;
  }

  lemma NothingSpelled(word: seq<byte>)
    ensures !Spells([], word)
  {
  }

  // ---------- Instances ----------

  const ONE_ONE := Version([DIGIT_0 + 1], [DIGIT_0 + 1])
  const ROOT := Target(NoAuthority, [SLASH], 0, [], 0, [])

  function Header(name: seq<byte>, value: seq<byte>): HeaderText { HeaderText(name, [SP], value, CRLF, []) }

  /** POST /?a#c HTTP/1.1 with a Content-Length and as many bytes. */
  function Posted(bytes: seq<byte>, digit: byte): Text {
    Text(RequestLine([], POST, 0, Target(NoAuthority, [SLASH], 1, [LOW_A], 1, [LOW_C]), Http(0, ONE_ONE, CRLF)),
         [Header(CONTENT_LENGTH, [digit])], CRLF, Counted(bytes))
  }

  /** HTTP/1.1 200, closed, with a body up to the end. */
  function Closed(bytes: seq<byte>): Text {
    Text(StatusLine([], ONE_ONE, 0, [DIGIT_0 + 2, DIGIT_0, DIGIT_0], NoReason, CRLF), [Header(CONNECTION, CLOSE)], CRLF,
         UntilEnd(bytes))
  }

  /** GET / without a version and headers, behind a blank line. */
  function Simple(): Text { Text(RequestLine(CRLF, GET, 0, ROOT, Old(CRLF)), [], CRLF, NoBody) }

  /** Such messages are among those the round trips are about. */
  lemma PostedIsText(strict: bool, bytes: seq<byte>)
    requires 0 < |bytes| <= 9
    ensures IsText(strict, false, Posted(bytes, DIGIT_0 + |bytes|)) && StaysAtEnd(Posted(bytes, DIGIT_0 + |bytes|))
  {
    hide IsHeader, LineFlags, NameIs, PrintHeader, PrintHeaders, FlagsFrom, LengthFrom, IsTarget, IsLineEnd, Decimal;
    var q := Posted(bytes, DIGIT_0 + |bytes|);
    OneOne(q.start.target, q.start.end);
    PostedTarget(strict, q.start.target);
    LengthHeader(q.headers[0], |bytes|);
    OneHeader(NO_FLAGS, q.headers[0]);
  }

  lemma PostedTarget(strict: bool, t: Target)
    requires t == Target(NoAuthority, [SLASH], 1, [LOW_A], 1, [LOW_C]) || t == ROOT
    ensures IsTarget(strict, false, t)
  {
  }

  lemma OneOne(t: Target, e: LineEnd)
    requires e == Http(0, ONE_ONE, CRLF)
    ensures IsLineEnd(t, e) && IsVersion(ONE_ONE) && Decimal(ONE_ONE.major) == Decimal(ONE_ONE.minor) == 1
    ensures MajorOf(e) == MinorOf(e) == 1
  {
    assert Decimal(ONE_ONE.major[..0]) == 0;
  }

  lemma LengthHeader(h: HeaderText, n: nat)
    requires 0 < n <= 9 && h == Header(CONTENT_LENGTH, [DIGIT_0 + n])
    ensures IsHeader(h) && LengthNow(-1, h) == n && LineFlags(NO_FLAGS, h.name, h.value) == NO_FLAGS
  {
    DifferentNames(h.name);
    LowerIsToken();
    assert Decimal(h.value[..0]) == 0;
    assert NameIs(h.name, CONTENT_LENGTH);
  }

  lemma ClosedIsText(strict: bool, bytes: seq<byte>)
    ensures IsText(strict, false, Closed(bytes))
  {
    hide IsHeader, LineFlags, NameIs, PrintHeader, PrintHeaders, FlagsFrom, LengthFrom, IsVersion, Decimal;
    var q := Closed(bytes);
    OneOne(ROOT, Http(0, ONE_ONE, CRLF));
    TwoHundred(q.start.status);
    CloseHeader(NO_FLAGS, q.headers[0]);
    OneHeader(NO_FLAGS, q.headers[0]);
  }

  lemma TwoHundred(ds: seq<byte>)
    requires ds == [DIGIT_0 + 2, DIGIT_0, DIGIT_0]
    ensures IsNumber(ds)
  {
    assert Decimal(ds[..0]) == 0;
    assert ds[..1][..0] == ds[..0] && ds[..2][..1] == ds[..1];
    assert Decimal(ds[..1]) == 2 && Decimal(ds[..2]) == 20 && Decimal(ds) == 200;
  }

  /** HTTP/0.9 does not stay open. */
  lemma SimpleIsText(strict: bool)
    ensures IsText(strict, false, Simple()) && !StaysAtEnd(Simple())
  {
    PostedTarget(strict, ROOT);
  }

  /** POST / HTTP/1.1, chunked, without chunks, closed by a trailer. */
  function ClosedLate(): Text {
    Text(RequestLine([], POST, 0, ROOT, Http(0, ONE_ONE, CRLF)), [Header(TRANSFER_ENCODING, CHUNKED)], CRLF,
         Chunks([], SizeLine([DIGIT_0], []), [Header(CONNECTION, CLOSE)], CRLF))
  }

  /** Its last callback contradicts the one before: it is not kept alive, although it was announced to be. */
  lemma ClosedLateDiffers(strict: bool)
    ensures IsText(strict, false, ClosedLate()) && Stays(ClosedLate().start, FlagsOf(ClosedLate()))
    ensures !StaysAtEnd(ClosedLate())
  {
    hide IsHeader, LineFlags, NameIs, PrintHeader, PrintHeaders, FlagsFrom, LengthFrom, IsSizeLine, IsTarget,
      IsVersion, Decimal, IsLineEnd;
    var q := ClosedLate();
    OneOne(q.start.target, q.start.end);
    PostedTarget(strict, q.start.target);
    EncodingHeader(q.headers[0]);
    CloseHeader(FlagsOf(q).(trailing := true), q.body.trailers[0]);
    OneHeader(NO_FLAGS, q.headers[0]);
    OneHeader(FlagsOf(q).(trailing := true), q.body.trailers[0]);
    ZeroIsLast();
  }

  lemma EncodingHeader(h: HeaderText)
    requires h == Header(TRANSFER_ENCODING, CHUNKED)
    ensures IsHeader(h) && LengthNow(-1, h) == -1
    ensures LineFlags(NO_FLAGS, h.name, h.value) == NO_FLAGS.(chunked := true)
  {
    hide NameIs, Connects, Decimal, IsLength, ValueIs;
    DifferentNames(h.name);
    EncodingSpelled();
  }

  lemma EncodingSpelled()
    ensures NameIs(TRANSFER_ENCODING, TRANSFER_ENCODING) && ValueIs(CHUNKED, CHUNKED)
    ensures IsName(TRANSFER_ENCODING) && IsValue(CHUNKED)
  {
    LowerIsToken();
  }

  lemma CloseHeader(f: Flags, h: HeaderText)
    requires h == Header(CONNECTION, CLOSE)
    ensures IsHeader(h) && LengthNow(-1, h) == -1 && |PrintHeader(h)| == 19
    ensures LineFlags(f, h.name, h.value) == f.(close := true)
  {
    hide NameIs, Connects, Decimal, IsLength, ValueIs;
    DifferentNames(h.name);
    CloseSpelled();
  }

  lemma CloseSpelled()
    ensures NameIs(CONNECTION, CONNECTION) && ValueIs(CLOSE, CLOSE) && !ValueIs(CLOSE, KEEP_ALIVE)
    ensures Connects(CONNECTION) && IsName(CONNECTION) && IsValue(CLOSE)
  {
    LowerIsToken();
  }

  lemma OneHeader(f: Flags, h: HeaderText)
    ensures FlagsFrom(f, [h]) == LineFlags(f, h.name, h.value) && LengthFrom(-1, [h]) == LengthNow(-1, h)
    ensures PrintHeaders([h]) == PrintHeader(h)
  {
    hide LineFlags, LengthNow, PrintHeader;
    assert [h][..0] == [];
  }

  lemma ZeroIsLast()
    ensures IsSizeLine(SizeLine([DIGIT_0], []), 0)
  {
    assert HexValue([DIGIT_0][..0]) == 0;
  }

  lemma LowerIsToken()
    ensures forall i :: 0 <= i < |CONTENT_LENGTH| ==> Token(CONTENT_LENGTH[i]) == CONTENT_LENGTH[i] != 0
    ensures forall i :: 0 <= i < |CONNECTION| ==> Token(CONNECTION[i]) == CONNECTION[i] != 0
    ensures forall i :: 0 <= i < |TRANSFER_ENCODING| ==> Token(TRANSFER_ENCODING[i]) == TRANSFER_ENCODING[i] != 0
  {
  }
}
