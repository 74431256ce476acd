/** What every reachable parser satisfies between two bytes, and what its callbacks have delivered. */
module HttpInvariants {
  import opened Bytes
  import opened HttpChars
  import opened HttpTypes
  import opened HttpStep

  // ---------- The parser ----------

  /** How far a header name can have been matched. */
  predicate NameIndex(hs: HeaderState, index: nat) {
    match hs
    case MatchC => index == 0
    case MatchCO => index == 1
    case MatchCON => index == 2
    case MatchingConnection => 3 <= index < |CONNECTION| - 1
    case MatchingProxyConnection => index < |PROXY_CONNECTION| - 1
    case MatchingContentLength => 3 <= index < |CONTENT_LENGTH| - 1
    case MatchingTransferEncoding => index < |TRANSFER_ENCODING| - 1
    case MatchingUpgrade => index < |HttpChars.UPGRADE| - 1
    case _ => index <= 17
  }

  predicate ValueIndex(hs: HeaderState, index: nat) {
    match hs
    case MatchingChunked => index < |CHUNKED| - 1
    case MatchingKeepAlive => index < |KEEP_ALIVE| - 1
    case MatchingClose => index < |CLOSE| - 1
    case _ => index <= 17
  }

  /** Every field is in the range of its C bit-field or integer, and the header budget is kept. */
  predicate InRange(s: Parser) {
    && s.index <= 0xFF
    && s.nread <= HTTP_MAX_HEADER_SIZE
    && s.major <= 0xFFFF && s.minor <= 0xFFFF && s.status <= 0xFFFF
    && -0x8000_0000_0000_0000 <= s.contentLength < 0x8000_0000_0000_0000
  }

  /** The number being read has at most three digits. */
  predicate DigitsOk(s: Parser) {
    && (s.state == ResLine(ResHttpMajor) || s.state == ReqVersion(ReqHttpMajor) ==> s.major <= 999)
    && (s.state == ResLine(ResHttpMinor) || s.state == ReqVersion(ReqHttpMinor) ==> s.minor <= 999)
    && (s.state == ResLine(ResStatusCode) ==> s.status <= 999)
  }

  predicate HeadOk(s: Parser, at: HeadState) {
    && !s.kind.Both? && !s.flags.skipBody
    && (s.flags.trailing ==> s.flags.chunked)
    && (at.HeaderField? ==> NameState(s.hs) && NameIndex(s.hs, s.index))
    && (at.HeaderValue? ==> ValueState(s.hs) && ValueIndex(s.hs, s.index))
  }

  predicate ChunkOk(s: Parser, at: ChunkState) {
    && !s.kind.Both? && !s.flags.skipBody && s.flags.chunked && !s.flags.trailing
    && (at.ChunkData? || at.ChunkDataAlmostDone? || at.ChunkDataDone? ==> s.nread == 0)
    && (at.ChunkData? ==> s.contentLength != 0)
  }

  predicate IdentityOk(s: Parser) {
    !s.kind.Both? && !s.flags.skipBody && !s.flags.chunked && !s.flags.trailing && s.nread == 0
  }

  predicate StateOk(s: Parser) {
    match s.state
    case Dead => !s.kind.Both?
    case StartReqOrRes => s.kind.Both?
    case ResOrRespH => s.kind.Both? && s.flags == NO_FLAGS
    case StartRes => s.kind.Response?
    case ResLine(_) => s.kind.Response? && s.flags == NO_FLAGS && DigitsOk(s)
    case StartReq => s.kind.Request?
    case ReqMethod => s.kind.Request? && s.flags == NO_FLAGS && 1 <= s.index <= |MethodString(s.verb)|
    case ReqUrl(_) => s.kind.Request? && s.flags == NO_FLAGS
    case ReqVersion(_) => s.kind.Request? && s.flags == NO_FLAGS && DigitsOk(s)
    case Head(at) => HeadOk(s, at)
    case Chunk(at) => ChunkOk(s, at)
    case BodyIdentity => IdentityOk(s) && s.contentLength > 0
    case BodyIdentityEof =>
      IdentityOk(s) && s.kind.Response? && s.contentLength < 0 && !ShouldKeepAlive(s.major, s.minor, s.flags)
  }

  predicate Core(s: Parser) {
    InRange(s) && StateOk(s) && !s.upgrade && (!s.kind.Request? ==> s.verb.DELETE?)
  }

  /** Between two bytes. A chunk size starts with a fresh header budget, so that the byte being read
      is always the first one charged to it. */
  predicate Inv(s: Parser) { Core(s) && (s.state == Chunk(ChunkSizeStart) ==> s.nread == 0) }

  lemma StartKeeps(s: Parser, b: byte, m: Move)
    requires Core(s) && m.out.Continue?
    requires match s.state
             case StartReqOrRes => m == StepStartReqOrRes(s, b)
             case ResOrRespH => m == StepResOrRespH(s, b)
             case StartRes => m == StepStartRes(s, b)
             case StartReq => m == StepStartReq(s, b)
             case _ => false
    ensures Inv(m.s)
  {
  }

  lemma MethodKeeps(s: Parser, b: byte, m: Move)
    requires Core(s) && s.state.ReqMethod?
    requires m == StepMethod(s, b) && m.out.Continue?
    ensures Inv(m.s)
  {
    SwitchLength(s.verb, s.index, b);
  }

  /** A method that takes over is longer than the position at which it does. */
  lemma SwitchLength(m: Method, i: nat, b: byte)
    ensures |MethodString(m)| <= 11
    ensures Switch(m, i, b) != [] ==> i + 1 <= |MethodString(Switch(m, i, b)[0])|
  {
  }

  predicate ReadsDigits(st: State) {
    st == ResLine(ResHttpMajor) || st == ResLine(ResHttpMinor) || st == ResLine(ResStatusCode)
    || st == ReqVersion(ReqHttpMajor) || st == ReqVersion(ReqHttpMinor)
  }

  /** Where a byte of the request or status line can lead, and the numbers it can store. */
  predicate LineMoveOk(kind: ParserType, mv: LineMove) {
    match mv
    case Bad(_) => true
    case Http09(to) => kind.Request? && (to == ReqVersion(ReqLineAlmostDone) || to == Head(HeaderFieldStart))
    case Goto(to) =>
      && !ReadsDigits(to)
      && (to == Head(HeaderFieldStart) || (if kind.Request? then to.ReqUrl? || to.ReqVersion? else to.ResLine?))
    case SetMajor(v, to) =>
      v <= 999 && to == (if kind.Request? then ReqVersion(ReqHttpMajor) else ResLine(ResHttpMajor))
    case SetMinor(v, to) =>
      v <= 999 && to == (if kind.Request? then ReqVersion(ReqHttpMinor) else ResLine(ResHttpMinor))
    case SetStatus(v, to) => v <= 999 && !kind.Request? && to == ResLine(ResStatusCode)
  }

  lemma StatusTargets(strict: bool, at: ResLineState, major: nat, minor: nat, status: nat, b: byte)
    ensures LineMoveOk(Response, StatusNext(strict, at, major, minor, status, b))
  {
  }

  lemma UrlTargets(strict: bool, at: UrlState, connect: bool, b: byte)
    ensures LineMoveOk(Request, UrlNext(strict, at, connect, b))
  {
    hide IsUrlChar, IsHostChar, IsAlpha;
  }

  lemma VersionTargets(strict: bool, at: VersionState, major: nat, minor: nat, b: byte)
    ensures LineMoveOk(Request, VersionNext(strict, at, major, minor, b))
  {
  }

  lemma LineTargets(strict: bool, s: Parser, b: byte)
    ensures s.state.ResLine? ==>
      LineMoveOk(Response, StatusNext(strict, s.state.res, s.major, s.minor, s.status, b))
    ensures s.state.ReqUrl? ==> LineMoveOk(Request, UrlNext(strict, s.state.url, s.verb.CONNECT?, b))
    ensures s.state.ReqVersion? ==>
      LineMoveOk(Request, VersionNext(strict, s.state.ver, s.major, s.minor, b))
  {
    hide StatusNext, UrlNext, VersionNext, LineMoveOk;
    match s.state
    case ResLine(at) => StatusTargets(strict, at, s.major, s.minor, s.status, b);
    case ReqUrl(at) => UrlTargets(strict, at, s.verb.CONNECT?, b);
    case ReqVersion(at) => VersionTargets(strict, at, s.major, s.minor, b);
    case _ =>
  }

  lemma FollowKeeps(s: Parser, mv: LineMove)
    requires Core(s) && (s.state.ResLine? || s.state.ReqUrl? || s.state.ReqVersion?)
    requires LineMoveOk(s.kind, mv) && !mv.Bad?
    ensures Inv(Follow(s, mv).s)
  {
  }

  lemma DoneKeeps(strict: bool, skip: bool, s: Parser, b: byte, m: Move)
    requires Core(s) && s.state == Head(HeadersAlmostDone)
    requires m == HeadersDone(strict, skip, s, b) && m.out.Continue?
    ensures Inv(m.s)
  {
  }

  lemma FieldStartKeeps(strict: bool, skip: bool, s: Parser, b: byte, m: Move)
    requires Core(s) && s.state == Head(HeaderFieldStart)
    requires m == FieldStart(strict, skip, s, b) && m.out.Continue?
    ensures Inv(m.s)
  {
    if b == LF { DoneKeeps(strict, skip, s.(state := Head(HeadersAlmostDone)), b, m); }
  }

  lemma ValueKeeps(s: Parser, b: byte, m: Move)
    requires Core(s) && s.state == Head(HeaderValue)
    requires m == ValueChar(s, b) && m.out.Continue?
    ensures Inv(m.s)
  {
  }

  lemma NameKeeps(s: Parser, b: byte, hs: HeaderState, i: nat)
    requires Core(s) && s.state == Head(HeaderField)
    requires (hs, i) == NameChar(s.hs, s.index, Token(b), b)
    ensures Inv(s.(hs := hs, index := i))
  {
    hide Token, MethodString, DigitsOk, IdentityOk, ChunkOk, ShouldKeepAlive, ValueIndex, ValueState, NameChar,
      NameIndex;
    NameStays(s.hs, s.index, Token(b), b);
  }

  /** The matcher stays in the states of names, with the index inside the literal. */
  lemma NameStays(hs: HeaderState, i: nat, c: byte, b: byte)
    requires NameState(hs) && NameIndex(hs, i)
    ensures var (hs', i') := NameChar(hs, i, c, b); NameState(hs') && NameIndex(hs', i')
  {
  }

  lemma ValueStartKeeps(s: Parser, b: byte, m: Move)
    requires Core(s) && s.state == Head(HeaderValueStart)
    requires m == FirstValueChar(s.(index := 0, state := Head(HeaderValue)), b) && m.out.Continue?
    ensures Inv(m.s)
  {
  }

  lemma HeadKeeps(strict: bool, skip: bool, s: Parser, b: byte, m: Move)
    requires Core(s) && s.state.Head?
    requires m == StepHead(strict, skip, s, s.state.head, b) && m.out.Continue?
    ensures Inv(m.s)
  {
    hide FieldStart, HeadersDone, NameChar, FirstValueChar, ValueChar;
    match s.state.head
    case HeaderFieldStart => FieldStartKeeps(strict, skip, s, b, m);
    case HeadersAlmostDone => DoneKeeps(strict, skip, s, b, m);
    case HeaderValueLws =>
      if b != SP && b != TAB { FieldStartKeeps(strict, skip, s.(state := Head(HeaderFieldStart)), b, m); }
    case HeaderField =>
      if Token(b) != 0 {
        var (hs, i) := NameChar(s.hs, s.index, Token(b), b);
        NameKeeps(s, b, hs, i);
      }
    case HeaderValueStart =>
      if b != SP && b != TAB && b != CR && b != LF { ValueStartKeeps(s, b, m); }
    case HeaderValue => if b != CR && b != LF { ValueKeeps(s, b, m); }
    case HeaderAlmostDone =>
  }

  lemma ChunkKeeps(strict: bool, s: Parser, b: byte, m: Move)
    requires Core(s) && s.state.Chunk?
    requires m == StepChunk(strict, s, s.state.chunk, b) && m.out.Continue?
    ensures Inv(m.s)
  {
    hide Wrap64, Unhex, MethodString, NameIndex, ValueIndex, NameState, ValueState, DigitsOk, IdentityOk,
      ShouldKeepAlive;
    if s.state.chunk.ChunkSizeStart? || s.state.chunk.ChunkSize? || s.state.chunk.ChunkParameters? {
      SizeKeeps(strict, s, b, m);
    }
  }

  lemma SizeKeeps(strict: bool, s: Parser, b: byte, m: Move)
    requires Core(s) && s.state.Chunk?
    requires s.state.chunk.ChunkSizeStart? || s.state.chunk.ChunkSize? || s.state.chunk.ChunkParameters?
    requires m == StepChunk(strict, s, s.state.chunk, b) && m.out.Continue?
    ensures Inv(m.s)
  {
    hide Wrap64, Unhex, MethodString, NameIndex, ValueIndex, NameState, ValueState, DigitsOk, IdentityOk,
      ShouldKeepAlive;
  }

  lemma IdentityKeeps(strict: bool, s: Parser, b: byte, m: Move)
    requires Core(s) && s.state.BodyIdentity?
    requires m == StepIdentity(strict, s, b) && m.out.Continue?
    ensures Inv(m.s)
  {
  }

  /** http_parser_init: the other fields keep whatever the memory held. */
  predicate IsInit(s: Parser, kind: ParserType) {
    && s.kind == kind && s.flags == NO_FLAGS && s.nread == 0 && !s.upgrade && s.verb.DELETE?
    && s.state == (match kind case Request => StartReq case Response => StartRes case Both => StartReqOrRes)
    && InRange(s)
  }

  lemma InitOk(s: Parser, kind: ParserType)
    requires IsInit(s, kind)
    ensures Inv(s)
  {
  }
}
