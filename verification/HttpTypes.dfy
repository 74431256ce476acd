/** The parser's saved state, its callbacks, and the observation that accumulates them. */
module HttpTypes {
  import opened Bytes
  import opened HttpChars

  const HTTP_MAX_HEADER_SIZE: nat := 80 * 1024

  datatype ParserType = Request | Response | Both

  datatype ResLineState =
    | ResH | ResHT | ResHTT | ResHTTP | ResFirstHttpMajor | ResHttpMajor | ResFirstHttpMinor | ResHttpMinor
    | ResFirstStatusCode | ResStatusCode | ResStatus | ResLineAlmostDone

  datatype UrlState =
    | ReqSpacesBeforeUrl | ReqSchema | ReqSchemaSlash | ReqSchemaSlashSlash | ReqHost | ReqPort | ReqPath
    | ReqQueryStringStart | ReqQueryString | ReqFragmentStart | ReqFragment

  datatype VersionState =
    | ReqHttpStart | ReqHttpH | ReqHttpHT | ReqHttpHTT | ReqHttpHTTP | ReqFirstHttpMajor | ReqHttpMajor
    | ReqFirstHttpMinor | ReqHttpMinor | ReqLineAlmostDone

  datatype HeadState =
    | HeaderFieldStart | HeaderField | HeaderValueStart | HeaderValue | HeaderValueLws | HeaderAlmostDone
    | HeadersAlmostDone

  datatype ChunkState =
    | ChunkSizeStart | ChunkSize | ChunkParameters | ChunkSizeAlmostDone | ChunkData | ChunkDataAlmostDone
    | ChunkDataDone

  /** The parser's state, with the states of one part of a message grouped together. */
  datatype State =
    | Dead
    | StartReqOrRes
    | ResOrRespH
    | StartRes
    | ResLine(res: ResLineState)
    | StartReq
    | ReqMethod
    | ReqUrl(url: UrlState)
    | ReqVersion(ver: VersionState)
    | Head(head: HeadState)
    | Chunk(chunk: ChunkState)
    | BodyIdentity
    | BodyIdentityEof

  datatype HeaderState =
    | General | MatchC | MatchCO | MatchCON
    | MatchingConnection | MatchingProxyConnection | MatchingContentLength
    | MatchingTransferEncoding | MatchingUpgrade
    | Connection | ContentLength | TransferEncoding | Upgrade
    | MatchingChunked | MatchingKeepAlive | MatchingClose
    | Chunked | KeepAlive | Close

  datatype Method =
    | DELETE | GET | HEAD | POST | PUT | CONNECT | OPTIONS | TRACE
    | COPY | LOCK | MKCOL | MOVE | PROPFIND | PROPPATCH | UNLOCK
    | REPORT | MKACTIVITY | CHECKOUT | MERGE | MSEARCH | NOTIFY | SUBSCRIBE | UNSUBSCRIBE | PATCH

  datatype Errno =
    | OK | INVALID_EOF_STATE | HEADER_OVERFLOW | CLOSED_CONNECTION | INVALID_VERSION | INVALID_STATUS
    | INVALID_METHOD | INVALID_URL | INVALID_HOST | INVALID_PORT | INVALID_PATH | INVALID_QUERY_STRING
    | INVALID_FRAGMENT | LF_EXPECTED | INVALID_HEADER_TOKEN | INVALID_CONTENT_LENGTH
    | INVALID_CHUNK_SIZE | INVALID_CONSTANT | STRICT | UNKNOWN

  /** The `state` byte: a state, or an error number with the top bit set. */
  datatype Saved = Live(state: State) | Errored(errno: Errno)

  datatype Flags = Flags(chunked: bool, keepAlive: bool, close: bool, trailing: bool, upgrade: bool, skipBody: bool)

  const NO_FLAGS := Flags(false, false, false, false, false, false)

  /** The fields of `struct http_parser` while no error is recorded in `state`. */
  datatype Parser = Parser(
    kind: ParserType, flags: Flags, state: State, hs: HeaderState, index: nat, nread: nat,
    contentLength: int, major: nat, minor: nat, status: nat, verb: Method, upgrade: bool)

  function MethodString(m: Method): seq<byte> {
    match m
    case DELETE => [D_, E_, L_, E_, T_, E_]
    case GET => [G_, E_, T_]
    case HEAD => [H_, E_, A_, D_]
    case POST => [P_, O_, S_, T_]
    case PUT => [P_, U_, T_]
    case CONNECT => [C_, O_, N_, N_, E_, C_, T_]
    case OPTIONS => [O_, P_, T_, I_, O_, N_, S_]
    case TRACE => [T_, R_, A_, C_, E_]
    case COPY => [C_, O_, P_, Y_]
    case LOCK => [L_, O_, C_, K_]
    case MKCOL => [M_, K_, C_, O_, L_]
    case MOVE => [M_, O_, V_, E_]
    case PROPFIND => [P_, R_, O_, P_, F_, I_, N_, D_]
    case PROPPATCH => [P_, R_, O_, P_, P_, A_, T_, C_, H_]
    case UNLOCK => [U_, N_, L_, O_, C_, K_]
    case REPORT => [R_, E_, P_, O_, R_, T_]
    case MKACTIVITY => [M_, K_, A_, C_, T_, I_, V_, I_, T_, Y_]
    case CHECKOUT => [C_, H_, E_, C_, K_, O_, U_, T_]
    case MERGE => [M_, E_, R_, G_, E_]
    case MSEARCH => [M_, DASH, S_, E_, A_, R_, C_, H_]
    case NOTIFY => [N_, O_, T_, I_, F_, Y_]
    case SUBSCRIBE => [S_, U_, B_, S_, C_, R_, I_, B_, E_]
    case UNSUBSCRIBE => [U_, N_, S_, U_, B_, S_, C_, R_, I_, B_, E_]
    case PATCH => [P_, A_, T_, C_, H_]
  }

  predicate ShouldKeepAlive(major: nat, minor: nat, flags: Flags) {
    if major > 0 && minor > 0 then !flags.close else flags.keepAlive
  }

  predicate ParsingHeader(s: State) {
    match s
    case BodyIdentity => false
    case BodyIdentityEof => false
    case Chunk(c) => !(c.ChunkData? || c.ChunkDataAlmostDone? || c.ChunkDataDone?)
    case _ => true
  }

  function StartState(kind: ParserType): State {
    if kind.Request? then StartReq else StartRes
  }

  predicate IsStart(s: State) { s.StartReq? || s.StartRes? || s.StartReqOrRes? }

  // ---------- Which spans are open in which state ----------

  predicate UrlOpen(s: State) { s.ReqUrl? && !s.url.ReqSpacesBeforeUrl? }

  predicate PathOpen(s: State) { s == ReqUrl(ReqPath) }

  predicate QueryOpen(s: State) { s == ReqUrl(ReqQueryString) }

  predicate FragmentOpen(s: State) { s == ReqUrl(ReqFragment) }

  predicate FieldOpen(s: State) { s == Head(HeaderField) }

  predicate ValueOpen(s: State) { s == Head(HeaderValue) }

  // ---------- Callbacks and their accumulation ----------

  datatype Span = Url | Path | Query | Fragment | Field | Value | Body

  /** What a callback may read off the parser when the headers are complete. */
  datatype Info = Info(isRequest: bool, verb: Method, status: nat, major: nat, minor: nat,
                       keepAlive: bool, chunked: bool)

  datatype Event =
    | MessageBegin(response: bool)
    | Data(span: Span, bytes: seq<byte>)
    | HeadersComplete(info: Info)
    | MessageComplete(keepAlive: bool)

  function InfoOf(s: Parser): Info {
    Info(s.kind.Request?, if s.kind.Request? then s.verb else DELETE, if s.kind.Request? then 0 else s.status,
         s.major, s.minor, ShouldKeepAlive(s.major, s.minor, s.flags), s.flags.chunked)
  }

  datatype Last = Nothing | LastField | LastValue

  datatype HeaderPair = HeaderPair(name: seq<byte>, value: seq<byte>)

  datatype Message = Message(
    begins: nat, url: seq<byte>, path: seq<byte>, query: seq<byte>, fragment: seq<byte>,
    headers: seq<HeaderPair>, last: Last, infos: seq<Info>, body: seq<byte>, completes: seq<bool>)

  const EMPTY_MESSAGE := Message(0, [], [], [], [], [], Nothing, [], [], [])

  /** Where a callback trace stands in the grammar of messages. */
  datatype Phase =
    | Idle
    | Line
    | Headers
    | Content(chunked: bool)
    | Trailers
    | Rejected

  /** One step of the trace grammar: begin, URL parts, headers in which a value needs a field,
      one headers-complete, body pieces, trailers only if chunked, one message-complete. A response
      parser, whose type the callback can read, may announce `begin` again before its status line. */
  function Grammar(p: Phase, e: Event): Phase {
    match e
    case MessageBegin(response) => if p.Idle? || (p.Line? && response) then Line else Rejected
    case Data(k, _) =>
      (match k
       case Url => if p.Line? then Line else Rejected
       case Path => if p.Line? then Line else Rejected
       case Query => if p.Line? then Line else Rejected
       case Fragment => if p.Line? then Line else Rejected
       case Field =>
         if p.Line? || p.Headers? then Headers
         else if p.Trailers? || p == Content(true) then Trailers
         else Rejected
       case Value => if p.Headers? || p.Trailers? then p else Rejected
       case Body => if p.Content? then p else Rejected)
    case HeadersComplete(info) => if p.Line? || p.Headers? then Content(info.chunked) else Rejected
    case MessageComplete(_) => if p.Content? || p.Trailers? then Idle else Rejected
  }

  /** The messages completed so far, the one being received, and the grammar position of the trace. */
  datatype Obs = Obs(done: seq<Message>, cur: Message, phase: Phase)

  const NO_OBS := Obs([], EMPTY_MESSAGE, Idle)

  function AddField(m: Message, bytes: seq<byte>): Message {
    if m.last.LastField? && m.headers != [] then
      var n := |m.headers| - 1;
      m.(headers := m.headers[..n] + [m.headers[n].(name := m.headers[n].name + bytes)])
    else
      m.(headers := m.headers + [HeaderPair(bytes, [])], last := LastField)
  }

  function AddValue(m: Message, bytes: seq<byte>): Message {
    if m.headers != [] then
      var n := |m.headers| - 1;
      m.(headers := m.headers[..n] + [m.headers[n].(value := m.headers[n].value + bytes)], last := LastValue)
    else m.(last := LastValue)
  }

  function AddData(m: Message, k: Span, bytes: seq<byte>): Message {
    match k
    case Url => m.(url := m.url + bytes)
    case Path => m.(path := m.path + bytes)
    case Query => m.(query := m.query + bytes)
    case Fragment => m.(fragment := m.fragment + bytes)
    case Field => AddField(m, bytes)
    case Value => AddValue(m, bytes)
    case Body => m.(body := m.body + bytes)
  }

  /** The accumulating callbacks: data is appended to the current message, completion closes it. */
  function Apply(o: Obs, e: Event): Obs {
    var p := Grammar(o.phase, e);
    match e
    case MessageBegin(_) => Obs(o.done, o.cur.(begins := o.cur.begins + 1), p)
    case Data(k, bytes) => Obs(o.done, AddData(o.cur, k, bytes), p)
    case HeadersComplete(info) => Obs(o.done, o.cur.(infos := o.cur.infos + [info]), p)
    case MessageComplete(ka) => Obs(o.done + [o.cur.(completes := o.cur.completes + [ka])], EMPTY_MESSAGE, p)
  }

  /** What a whole callback log amounts to. */
  function Observe(log: seq<Event>): Obs {
    if log == [] then NO_OBS else Apply(Observe(log[..|log| - 1]), log[|log| - 1])
  }

  function ApplyAll(o: Obs, evs: seq<Event>): Obs
    decreases |evs|
  {
    if evs == [] then o else ApplyAll(Apply(o, evs[0]), evs[1..])
  }

  /** The byte `b`, read on the way into state `s`, lands in every span that is open in `s`. */
  function Feed(o: Obs, s: State, b: byte): Obs {
    if UrlOpen(s) then
      var o1 := Apply(o, Data(Url, [b]));
      if PathOpen(s) then Apply(o1, Data(Path, [b]))
      else if QueryOpen(s) then Apply(o1, Data(Query, [b]))
      else if FragmentOpen(s) then Apply(o1, Data(Fragment, [b]))
      else o1
    else if FieldOpen(s) then Apply(o, Data(Field, [b]))
    else if ValueOpen(s) then Apply(o, Data(Value, [b]))
    else o
  }
}
