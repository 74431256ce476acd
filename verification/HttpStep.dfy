/** The parser as a machine that reads one byte per step, with no buffer, spans or skips. */
module HttpStep {
  import opened Bytes
  import opened HttpChars
  import opened HttpTypes

  datatype Outcome = Continue | Fail(e: Errno) | Upgraded

  /** The next saved state, whether parsing goes on, and the callbacks that are not span data. */
  datatype Move = Move(s: Parser, out: Outcome, evs: seq<Event>)

  function Stay(s: Parser): Move { Move(s, Continue, []) }

  function To(s: Parser, st: State): Move { Move(s.(state := st), Continue, []) }

  function Err(s: Parser, e: Errno): Move { Move(s, Fail(e), []) }

  /** Two's complement on 64 bits. */
  function Wrap64(x: int): (r: int)
    ensures -0x8000_0000_0000_0000 <= r < 0x8000_0000_0000_0000
    ensures -0x8000_0000_0000_0000 <= x < 0x8000_0000_0000_0000 ==> r == x
  {
    (x + 0x8000_0000_0000_0000) % 0x1_0000_0000_0000_0000 - 0x8000_0000_0000_0000
  }

  // ---------- Start of a message and the method ----------

  function FirstMethod(b: byte): (r: seq<Method>) {
    if b == C_ then [CONNECT]
    else if b == D_ then [DELETE]
    else if b == G_ then [GET]
    else if b == H_ then [HEAD]
    else if b == L_ then [LOCK]
    else if b == M_ then [MKCOL]
    else if b == N_ then [NOTIFY]
    else if b == O_ then [OPTIONS]
    else if b == P_ then [POST]
    else if b == R_ then [REPORT]
    else if b == S_ then [SUBSCRIBE]
    else if b == T_ then [TRACE]
    else if b == U_ then [UNLOCK]
    else []
  }

  function Begun(s: Parser): Parser { s.(flags := NO_FLAGS, contentLength := -1) }

  function MethodStart(s: Parser, b: byte): Move {
    var m := FirstMethod(b);
    if m == [] then Move(s, Fail(INVALID_METHOD), [MessageBegin(s.kind.Response?)])
    else Move(s.(state := ReqMethod, verb := m[0], index := 1), Continue, [MessageBegin(s.kind.Response?)])
  }

  /** The method that takes over when byte `b` at position `index` is not the candidate's. */
  function Switch(m: Method, index: nat, b: byte): seq<Method> {
    if m.CONNECT? && index == 1 && b == H_ then [CHECKOUT]
    else if m.CONNECT? && index == 2 && b == P_ then [COPY]
    else if m.MKCOL? && index == 1 && b == O_ then [MOVE]
    else if m.MKCOL? && index == 1 && b == E_ then [MERGE]
    else if m.MKCOL? && index == 1 && b == DASH then [MSEARCH]
    else if m.MKCOL? && index == 2 && b == A_ then [MKACTIVITY]
    else if m.POST? && index == 1 && b == R_ then [PROPFIND]
    else if m.POST? && index == 1 && b == U_ then [PUT]
    else if m.POST? && index == 1 && b == A_ then [PATCH]
    else if m.UNLOCK? && index == 2 && b == S_ then [UNSUBSCRIBE]
    else if m.PROPFIND? && index == 4 && b == P_ then [PROPPATCH]
    else []
  }

  function StepMethod(s: Parser, b: byte): Move {
    var w := MethodString(s.verb);
    if b == 0 then Err(s, INVALID_METHOD)
    else if b == SP && s.index == |w| then Stay(s.(state := ReqUrl(ReqSpacesBeforeUrl), index := s.index + 1))
    else if s.index < |w| && b == w[s.index] then Stay(s.(index := s.index + 1))
    else
      var m := Switch(s.verb, s.index, b);
      if m != [] then Stay(s.(verb := m[0], index := s.index + 1))
      else if s.verb.CONNECT? || s.verb.MKCOL? || (s.verb.POST? && s.index == 1) then Err(s, UNKNOWN)
      else Err(s, INVALID_METHOD)
  }

  function StepStartReqOrRes(s: Parser, b: byte): Move {
    if b == CR || b == LF then Stay(s)
    else if b == H_ then Move(Begun(s).(state := ResOrRespH), Continue, [MessageBegin(s.kind.Response?)])
    else MethodStart(Begun(s).(kind := Request), b)
  }

  function StepResOrRespH(s: Parser, b: byte): Move {
    if b == T_ then Stay(s.(kind := Response, state := ResLine(ResHT)))
    else if b == E_ then Stay(s.(kind := Request, verb := HEAD, index := 2, state := ReqMethod))
    else Err(s, INVALID_CONSTANT)
  }

  function StepStartRes(s: Parser, b: byte): Move {
    if b == H_ then Move(Begun(s).(state := ResLine(ResH)), Continue, [MessageBegin(s.kind.Response?)])
    else if b == CR || b == LF then Move(Begun(s), Continue, [MessageBegin(s.kind.Response?)])
    else Move(Begun(s), Fail(INVALID_CONSTANT), [MessageBegin(s.kind.Response?)])
  }

  function StepStartReq(s: Parser, b: byte): Move {
    if b == CR || b == LF then Stay(s)
    else if !IsAlpha(b) then Move(Begun(s), Fail(INVALID_METHOD), [MessageBegin(s.kind.Response?)])
    else MethodStart(Begun(s), b)
  }

  // ---------- Status line, URL and request version ----------

  /** What a byte of a request or status line does: go on, store a number, or declare HTTP/0.9. */
  datatype LineMove =
    | Goto(st: State)
    | SetMajor(v: nat, st: State)
    | SetMinor(v: nat, st: State)
    | SetStatus(v: nat, st: State)
    | Http09(st: State)
    | Bad(e: Errno)

  function Expect(broken: bool, st: State): LineMove {
    if broken then Bad(STRICT) else Goto(st)
  }

  /** Another decimal digit: the number so far, or 1000 when it gets longer than three digits. */
  function MoreDigits(v: nat, b: byte): nat {
    if IsNum(b) && v * 10 + (b - DIGIT_0) <= 999 then v * 10 + (b - DIGIT_0) else 1000
  }

  function MajorDigit(major: nat, b: byte, st: State): LineMove {
    var v := MoreDigits(major, b);
    if v > 999 then Bad(INVALID_VERSION) else SetMajor(v, st)
  }

  function MinorDigit(minor: nat, b: byte, st: State): LineMove {
    var v := MoreDigits(minor, b);
    if v > 999 then Bad(INVALID_VERSION) else SetMinor(v, st)
  }

  function FirstMajor(b: byte, st: State): LineMove {
    if b < 49 || b > DIGIT_9 then Bad(INVALID_VERSION) else SetMajor(b - DIGIT_0, st)
  }

  function FirstMinor(b: byte, st: State): LineMove {
    if !IsNum(b) then Bad(INVALID_VERSION) else SetMinor(b - DIGIT_0, st)
  }

  function StatusNext(strict: bool, at: ResLineState, major: nat, minor: nat, status: nat, b: byte): LineMove {
    match at
    case ResH => Expect(strict && b != T_, ResLine(ResHT))
    case ResHT => Expect(strict && b != T_, ResLine(ResHTT))
    case ResHTT => Expect(strict && b != P_, ResLine(ResHTTP))
    case ResHTTP => Expect(strict && b != SLASH, ResLine(ResFirstHttpMajor))
    case ResFirstHttpMajor => FirstMajor(b, ResLine(ResHttpMajor))
    case ResHttpMajor => if b == DOT then Goto(ResLine(ResFirstHttpMinor)) else MajorDigit(major, b, ResLine(at))
    case ResFirstHttpMinor => FirstMinor(b, ResLine(ResHttpMinor))
    case ResHttpMinor => if b == SP then Goto(ResLine(ResFirstStatusCode)) else MinorDigit(minor, b, ResLine(at))
    case ResFirstStatusCode =>
      if IsNum(b) then SetStatus(b - DIGIT_0, ResLine(ResStatusCode))
      else if b == SP then Goto(ResLine(at))
      else Bad(INVALID_STATUS)
    case ResStatusCode =>
      if b == SP then Goto(ResLine(ResStatus))
      else if b == CR then Goto(ResLine(ResLineAlmostDone))
      else if b == LF then Goto(Head(HeaderFieldStart))
      else
        var v := MoreDigits(status, b);
        if v > 999 then Bad(INVALID_STATUS) else SetStatus(v, ResLine(at))
    case ResStatus =>
      if b == CR then Goto(ResLine(ResLineAlmostDone))
      else if b == LF then Goto(Head(HeaderFieldStart))
      else Goto(ResLine(at))
    case ResLineAlmostDone => Expect(strict && b != LF, Head(HeaderFieldStart))
  }

  /** A request line that ends after the URL is HTTP/0.9. */
  function EndUrl(b: byte, e: Errno): LineMove {
    if b == SP then Goto(ReqVersion(ReqHttpStart))
    else if b == CR then Http09(ReqVersion(ReqLineAlmostDone))
    else if b == LF then Http09(Head(HeaderFieldStart))
    else Bad(e)
  }

  function UrlNext(strict: bool, at: UrlState, connect: bool, b: byte): LineMove {
    match at
    case ReqSpacesBeforeUrl =>
      if b == SP then Goto(ReqUrl(at))
      else if b == SLASH || b == STAR then Goto(ReqUrl(ReqPath))
      else if IsAlpha(b) || (connect && IsNum(b)) then Goto(if connect then ReqUrl(ReqHost) else ReqUrl(ReqSchema))
      else Bad(INVALID_URL)
    case ReqSchema =>
      if IsAlpha(b) then Goto(ReqUrl(at)) else if b == COLON then Goto(ReqUrl(ReqSchemaSlash)) else Bad(INVALID_URL)
    case ReqSchemaSlash => Expect(strict && b != SLASH, ReqUrl(ReqSchemaSlashSlash))
    case ReqSchemaSlashSlash => Expect(strict && b != SLASH, ReqUrl(ReqHost))
    case ReqHost =>
      if IsHostChar(strict, b) then Goto(ReqUrl(at))
      else if b == COLON then Goto(ReqUrl(ReqPort))
      else if b == SLASH then Goto(ReqUrl(ReqPath))
      else if b == SP then Goto(ReqVersion(ReqHttpStart))
      else if b == QUESTION then Goto(ReqUrl(ReqQueryStringStart))
      else Bad(INVALID_HOST)
    case ReqPort =>
      if IsNum(b) then Goto(ReqUrl(at))
      else if b == SLASH then Goto(ReqUrl(ReqPath))
      else if b == SP then Goto(ReqVersion(ReqHttpStart))
      else if b == QUESTION then Goto(ReqUrl(ReqQueryStringStart))
      else Bad(INVALID_PORT)
    case ReqPath =>
      if IsUrlChar(strict, b) then Goto(ReqUrl(at))
      else if b == QUESTION then Goto(ReqUrl(ReqQueryStringStart))
      else if b == HASH then Goto(ReqUrl(ReqFragmentStart))
      else EndUrl(b, INVALID_PATH)
    case ReqQueryStringStart =>
      if IsUrlChar(strict, b) then Goto(ReqUrl(ReqQueryString))
      else if b == QUESTION then Goto(ReqUrl(at))
      else if b == HASH then Goto(ReqUrl(ReqFragmentStart))
      else EndUrl(b, INVALID_QUERY_STRING)
    case ReqQueryString =>
      if IsUrlChar(strict, b) || b == QUESTION then Goto(ReqUrl(at))
      else if b == HASH then Goto(ReqUrl(ReqFragmentStart))
      else EndUrl(b, INVALID_QUERY_STRING)
    case ReqFragmentStart =>
      if IsUrlChar(strict, b) || b == QUESTION then Goto(ReqUrl(ReqFragment))
      else if b == HASH then Goto(ReqUrl(at))
      else EndUrl(b, INVALID_FRAGMENT)
    case ReqFragment =>
      if IsUrlChar(strict, b) || b == QUESTION || b == HASH then Goto(ReqUrl(at))
      else EndUrl(b, INVALID_FRAGMENT)
  }

  function VersionNext(strict: bool, at: VersionState, major: nat, minor: nat, b: byte): LineMove {
    match at
    case ReqHttpStart =>
      if b == H_ then Goto(ReqVersion(ReqHttpH)) else if b == SP then Goto(ReqVersion(at)) else Bad(INVALID_CONSTANT)
    case ReqHttpH => Expect(strict && b != T_, ReqVersion(ReqHttpHT))
    case ReqHttpHT => Expect(strict && b != T_, ReqVersion(ReqHttpHTT))
    case ReqHttpHTT => Expect(strict && b != P_, ReqVersion(ReqHttpHTTP))
    case ReqHttpHTTP => Expect(strict && b != SLASH, ReqVersion(ReqFirstHttpMajor))
    case ReqFirstHttpMajor => FirstMajor(b, ReqVersion(ReqHttpMajor))
    case ReqHttpMajor => if b == DOT then Goto(ReqVersion(ReqFirstHttpMinor)) else MajorDigit(major, b, ReqVersion(at))
    case ReqFirstHttpMinor => FirstMinor(b, ReqVersion(ReqHttpMinor))
    case ReqHttpMinor =>
      if b == CR then Goto(ReqVersion(ReqLineAlmostDone))
      else if b == LF then Goto(Head(HeaderFieldStart))
      else MinorDigit(minor, b, ReqVersion(at))
    case ReqLineAlmostDone => if b != LF then Bad(LF_EXPECTED) else Goto(Head(HeaderFieldStart))
  }

  function Follow(s: Parser, mv: LineMove): Move {
    match mv
    case Goto(st) => To(s, st)
    case SetMajor(v, st) => Stay(s.(major := v, state := st))
    case SetMinor(v, st) => Stay(s.(minor := v, state := st))
    case SetStatus(v, st) => Stay(s.(status := v, state := st))
    case Http09(st) => Stay(s.(major := 0, minor := 9, state := st))
    case Bad(e) => Err(s, e)
  }

  // ---------- Headers ----------

  /** Compare the lower-cased byte `c` with position `index + 1` of `word`. */
  function Match(hs: HeaderState, index: nat, c: byte, word: seq<byte>, full: HeaderState): (HeaderState, nat) {
    var i := index + 1;
    (if i >= |word| || c != word[i] then General else if i == |word| - 1 then full else hs, i)
  }

  function FirstNameState(c: byte): HeaderState {
    if c == LOW_C then MatchC
    else if c == LOW_P then MatchingProxyConnection
    else if c == LOW_T then MatchingTransferEncoding
    else if c == LOW_U then MatchingUpgrade
    else General
  }

  predicate NameState(hs: HeaderState) {
    hs.General? || hs.MatchC? || hs.MatchCO? || hs.MatchCON? || hs.MatchingConnection?
    || hs.MatchingProxyConnection? || hs.MatchingContentLength? || hs.MatchingTransferEncoding?
    || hs.MatchingUpgrade? || hs.Connection? || hs.ContentLength? || hs.TransferEncoding? || hs.Upgrade?
  }

  /** A further byte of a header name; `c` is its token. */
  function NameChar(hs: HeaderState, index: nat, c: byte, b: byte): (HeaderState, nat)
    requires NameState(hs)
  {
    match hs
    case General => (General, index)
    case MatchC => (if c == LOW_O then MatchCO else General, index + 1)
    case MatchCO => (if c == LOW_N then MatchCON else General, index + 1)
    case MatchCON =>
      (if c == LOW_N then MatchingConnection else if c == LOW_T then MatchingContentLength else General, index + 1)
    case MatchingConnection => Match(hs, index, c, CONNECTION, Connection)
    case MatchingProxyConnection => Match(hs, index, c, PROXY_CONNECTION, Connection)
    case MatchingContentLength => Match(hs, index, c, CONTENT_LENGTH, ContentLength)
    case MatchingTransferEncoding => Match(hs, index, c, TRANSFER_ENCODING, TransferEncoding)
    case MatchingUpgrade => Match(hs, index, c, HttpChars.UPGRADE, Upgrade)
    case Connection => (if b != SP then General else hs, index)
    case ContentLength => (if b != SP then General else hs, index)
    case TransferEncoding => (if b != SP then General else hs, index)
    case Upgrade => (if b != SP then General else hs, index)
  }

  /** The first byte of a header value, neither blank nor end of line. */
  function FirstValueChar(s: Parser, b: byte): Move {
    var c := Lower(b);
    match s.hs
    case Upgrade => Stay(s.(flags := s.flags.(upgrade := true), hs := General))
    case TransferEncoding => Stay(s.(hs := if c == LOW_C then MatchingChunked else General))
    case ContentLength =>
      if !IsNum(b) then Err(s, INVALID_CONTENT_LENGTH) else Stay(s.(contentLength := b - DIGIT_0))
    case Connection =>
      Stay(s.(hs := if c == LOW_K then MatchingKeepAlive else if c == LOW_C then MatchingClose else General))
    case _ => Stay(s.(hs := General))
  }

  predicate ValueState(hs: HeaderState) {
    hs.General? || hs.ContentLength? || hs.MatchingChunked? || hs.MatchingKeepAlive? || hs.MatchingClose?
    || hs.Chunked? || hs.KeepAlive? || hs.Close?
  }

  /** A further byte of a header value, not end of line. */
  function ValueChar(s: Parser, b: byte): Move {
    var c := Lower(b);
    match s.hs
    case General => Stay(s)
    case ContentLength =>
      if b == SP then Stay(s)
      else if !IsNum(b) then Err(s, INVALID_CONTENT_LENGTH)
      else Stay(s.(contentLength := Wrap64(s.contentLength * 10 + (b - DIGIT_0))))
    case MatchingChunked =>
      var (hs, i) := Match(s.hs, s.index, c, CHUNKED, Chunked); Stay(s.(hs := hs, index := i))
    case MatchingKeepAlive =>
      var (hs, i) := Match(s.hs, s.index, c, KEEP_ALIVE, KeepAlive); Stay(s.(hs := hs, index := i))
    case MatchingClose =>
      var (hs, i) := Match(s.hs, s.index, c, CLOSE, Close); Stay(s.(hs := hs, index := i))
    case Chunked => Stay(s.(hs := if b != SP then General else s.hs))
    case KeepAlive => Stay(s.(hs := if b != SP then General else s.hs))
    case Close => Stay(s.(hs := if b != SP then General else s.hs))
    case _ => Stay(s.(hs := General))
  }

  function LineDone(s: Parser): Parser {
    var f := s.flags;
    s.(state := Head(HeaderValueLws),
       flags := if s.hs.KeepAlive? then f.(keepAlive := true)
                else if s.hs.Close? then f.(close := true)
                else if s.hs.Chunked? then f.(chunked := true)
                else f)
  }

  function NewMessage(strict: bool, s: Parser): State {
    if strict && !ShouldKeepAlive(s.major, s.minor, s.flags) then Dead else StartState(s.kind)
  }

  function Complete(s: Parser): Event { MessageComplete(ShouldKeepAlive(s.major, s.minor, s.flags)) }

  /** How the body is delimited (RFC 2616 section 4.4): the next state, and whether the message is
      complete without a body. */
  function BodyFollows(strict: bool, s: Parser): (State, bool) {
    if s.flags.skipBody then (NewMessage(strict, s), true)
    else if s.flags.chunked then (Chunk(ChunkSizeStart), false)
    else if s.contentLength == 0 then (NewMessage(strict, s), true)
    else if s.contentLength > 0 then (BodyIdentity, false)
    else if s.kind.Request? || ShouldKeepAlive(s.major, s.minor, s.flags) then (NewMessage(strict, s), true)
    else (BodyIdentityEof, false)
  }

  /** The parser when on_headers_complete has been called and has answered `skip`. */
  function HeadersAnnounced(skip: bool, s: Parser): Parser {
    s.(nread := 0, upgrade := s.upgrade || s.flags.upgrade || s.verb.CONNECT?,
       flags := s.flags.(skipBody := s.flags.skipBody || skip))
  }

  /** The empty line after the headers (or trailers). */
  function HeadersDone(strict: bool, skip: bool, s: Parser, b: byte): Move {
    if strict && b != LF then Err(s, STRICT)
    else if s.flags.trailing then Move(s.(state := NewMessage(strict, s)), Continue, [Complete(s)])
    else
      var s1 := HeadersAnnounced(skip, s);
      var announce := HeadersComplete(InfoOf(s));
      if s1.upgrade then Move(s1, Upgraded, [announce, Complete(s1)])
      else
        var (st, complete) := BodyFollows(strict, s1);
        Move(s1.(state := st), Continue, if complete then [announce, Complete(s1)] else [announce])
  }

  function FieldStart(strict: bool, skip: bool, s: Parser, b: byte): Move {
    if b == CR then To(s, Head(HeadersAlmostDone))
    else if b == LF then HeadersDone(strict, skip, s.(state := Head(HeadersAlmostDone)), b)
    else if Token(b) == 0 then Err(s, INVALID_HEADER_TOKEN)
    else Stay(s.(index := 0, state := Head(HeaderField), hs := FirstNameState(Token(b))))
  }

  function StepHead(strict: bool, skip: bool, s: Parser, at: HeadState, b: byte): Move {
    match at
    case HeaderFieldStart => FieldStart(strict, skip, s, b)
    case HeaderField =>
      if Token(b) != 0 then
        if NameState(s.hs) then
          var (hs, i) := NameChar(s.hs, s.index, Token(b), b);
          Stay(s.(hs := hs, index := i))
        else Stay(s)
      else if b == COLON then To(s, Head(HeaderValueStart))
      else if b == CR then To(s, Head(HeaderAlmostDone))
      else if b == LF then To(s, Head(HeaderFieldStart))
      else Err(s, INVALID_HEADER_TOKEN)
    case HeaderValueStart =>
      if b == SP || b == TAB then Stay(s)
      else if b == CR then
        Move(s.(index := 0, hs := General, state := Head(HeaderAlmostDone)), Continue, [Data(Value, [])])
      else if b == LF then Move(s.(index := 0, state := Head(HeaderFieldStart)), Continue, [Data(Value, [])])
      else FirstValueChar(s.(index := 0, state := Head(HeaderValue)), b)
    case HeaderValue =>
      if b == CR then To(s, Head(HeaderAlmostDone))
      else if b == LF then Stay(LineDone(s))
      else ValueChar(s, b)
    case HeaderAlmostDone => if strict && b != LF then Err(s, STRICT) else Stay(LineDone(s))
    case HeaderValueLws =>
      if b == SP || b == TAB then To(s, Head(HeaderValueStart))
      else FieldStart(strict, skip, s.(state := Head(HeaderFieldStart)), b)
    case HeadersAlmostDone => HeadersDone(strict, skip, s, b)
  }

  // ---------- Bodies ----------

  function StepIdentity(strict: bool, s: Parser, b: byte): Move {
    if s.contentLength <= 0 then Stay(s)
    else
      var s1 := s.(contentLength := s.contentLength - 1);
      if s1.contentLength == 0 then
        Move(s1.(state := NewMessage(strict, s1)), Continue, [Data(Body, [b]), Complete(s1)])
      else Move(s1, Continue, [Data(Body, [b])])
  }

  function StepChunk(strict: bool, s: Parser, at: ChunkState, b: byte): Move {
    match at
    case ChunkSizeStart =>
      if Unhex(b) == -1 then Err(s, INVALID_CHUNK_SIZE)
      else Stay(s.(contentLength := Unhex(b), state := Chunk(ChunkSize)))
    case ChunkSize =>
      if b == CR then To(s, Chunk(ChunkSizeAlmostDone))
      else if Unhex(b) == -1 then
        if b == SEMICOLON || b == SP then To(s, Chunk(ChunkParameters)) else Err(s, INVALID_CHUNK_SIZE)
      else Stay(s.(contentLength := Wrap64(s.contentLength * 16 + Unhex(b))))
    case ChunkParameters => if b == CR then To(s, Chunk(ChunkSizeAlmostDone)) else Stay(s)
    case ChunkSizeAlmostDone =>
      if strict && b != LF then Err(s, STRICT)
      else if s.contentLength == 0 then
        Stay(s.(nread := 0, flags := s.flags.(trailing := true), state := Head(HeaderFieldStart)))
      else Stay(s.(nread := 0, state := Chunk(ChunkData)))
    case ChunkData =>
      // A negative length (an overflowed size) ends the chunk at once and delivers nothing.
      if s.contentLength < 0 then Stay(s.(contentLength := 0, state := Chunk(ChunkDataAlmostDone)))
      else if s.contentLength == 0 then To(s, Chunk(ChunkDataAlmostDone))
      else Move(s.(contentLength := s.contentLength - 1,
                   state := if s.contentLength == 1 then Chunk(ChunkDataAlmostDone) else Chunk(ChunkData)),
                Continue, [Data(Body, [b])])
    case ChunkDataAlmostDone => if strict && b != CR then Err(s, STRICT) else To(s, Chunk(ChunkDataDone))
    case ChunkDataDone => if strict && b != LF then Err(s, STRICT) else To(s, Chunk(ChunkSizeStart))
  }

  // ---------- One byte, and a whole input ----------

  /** The switch, after the header budget has been charged. */
  function Dispatch(strict: bool, skip: bool, s: Parser, b: byte): Move {
    match s.state
    case Dead => Err(s, CLOSED_CONNECTION)
    case StartReqOrRes => StepStartReqOrRes(s, b)
    case ResOrRespH => StepResOrRespH(s, b)
    case StartRes => StepStartRes(s, b)
    case ResLine(at) => Follow(s, StatusNext(strict, at, s.major, s.minor, s.status, b))
    case StartReq => StepStartReq(s, b)
    case ReqMethod => StepMethod(s, b)
    case ReqUrl(at) => Follow(s, UrlNext(strict, at, s.verb.CONNECT?, b))
    case ReqVersion(at) => Follow(s, VersionNext(strict, at, s.major, s.minor, b))
    case Head(at) => StepHead(strict, skip, s, at, b)
    case Chunk(at) => StepChunk(strict, s, at, b)
    case BodyIdentity => StepIdentity(strict, s, b)
    case BodyIdentityEof => Move(s, Continue, [Data(Body, [b])])
  }

  function Charge(s: Parser): Parser {
    if ParsingHeader(s.state) then s.(nread := s.nread + 1) else s
  }

  /** `skip` is the answer on_headers_complete would give. */
  function Step(strict: bool, skip: bool, s: Parser, b: byte): Move {
    var s1 := Charge(s);
    if ParsingHeader(s.state) && s1.nread > HTTP_MAX_HEADER_SIZE then Err(s1, HEADER_OVERFLOW)
    else Dispatch(strict, skip, s1, b)
  }

  /** The build's strictness and the user's answer to on_headers_complete (true: no body). */
  datatype Config = Config(strict: bool, answer: (Obs, Info) -> bool)

  datatype Status = Running | Failed(e: Errno) | Exited

  /** A run in progress: its status, the parser, what the callbacks have delivered, bytes consumed. */
  datatype Run = Run(status: Status, s: Parser, o: Obs, n: nat)

  function Read(cfg: Config, r: Run, b: byte): Run {
    if !r.status.Running? then r
    else
      var m := Step(cfg.strict, cfg.answer(r.o, InfoOf(r.s)), r.s, b);
      var o := ApplyAll(r.o, m.evs);
      match m.out
      case Continue => Run(Running, m.s, Feed(o, m.s.state, b), r.n + 1)
      case Fail(e) => Run(Failed(e), m.s, o, r.n)
      case Upgraded => Run(Exited, m.s, o, r.n + 1)
  }

  function ReadAll(cfg: Config, r: Run, bytes: seq<byte>): Run {
    if bytes == [] then r
    else Read(cfg, ReadAll(cfg, r, bytes[..|bytes| - 1]), bytes[|bytes| - 1])
  }
}
