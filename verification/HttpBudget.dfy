/** The header budget, counted without looking at the parser's own counter; and what the saved bytes hold. */
module HttpBudget {
  import opened Bytes
  import opened HttpChars
  import opened HttpTypes
  import opened HttpStep
  import opened HttpInvariants
  import opened HttpTrace
  import opened HttpBody

  predicate Announces(evs: seq<Event>) { exists i :: 0 <= i < |evs| && evs[i].HeadersComplete? }

  /** The headers were announced, or a chunk-size line has ended. */
  predicate Resets(s: Parser, m: Move) {
    m.out.Continue? && (Announces(m.evs) || s.state == Chunk(ChunkSizeAlmostDone))
  }

  predicate CountsDown(s: Parser, m: Move) {
    m.out.Continue? ==> m.s.nread == if Resets(s, m) then 0 else s.nread
  }

  lemma DoneCounts(strict: bool, skip: bool, s: Parser, b: byte)
    requires s.state == Head(HeadersAlmostDone)
    ensures CountsDown(s, HeadersDone(strict, skip, s, b))
  {
    hide ShouldKeepAlive, BodyFollows, InfoOf;
    var m := HeadersDone(strict, skip, s, b);
    if m.out.Continue? && m.evs[0].HeadersComplete? { assert Announces(m.evs); }
  }

  lemma HeadCounts(strict: bool, skip: bool, s: Parser, b: byte)
    requires s.state.Head?
    ensures CountsDown(s, StepHead(strict, skip, s, s.state.head, b))
  {
    hide Token, NameChar, Lower, Match, Wrap64, FirstNameState, HeadersDone;
    DoneCounts(strict, skip, s.(state := Head(HeadersAlmostDone)), b);
  }

  lemma ChunkCounts(strict: bool, s: Parser, b: byte)
    requires s.state.Chunk?
    ensures CountsDown(s, StepChunk(strict, s, s.state.chunk, b))
  {
    hide Unhex, Wrap64;
  }

  lemma StartCounts(s: Parser, b: byte)
    requires IsStart(s.state) || s.state.ResOrRespH? || s.state.ReqMethod?
    ensures CountsDown(s, StepStartReqOrRes(s, b)) && CountsDown(s, StepResOrRespH(s, b))
    ensures CountsDown(s, StepStartRes(s, b)) && CountsDown(s, StepStartReq(s, b)) && CountsDown(s, StepMethod(s, b))
  {
    hide MethodString, Switch, FirstMethod;
  }

  lemma StepCounts(strict: bool, skip: bool, s: Parser, b: byte)
    ensures CountsDown(Charge(s), Step(strict, skip, s, b))
  {
    hide StepMethod, StepStartReq, StepStartRes, StepStartReqOrRes, StepResOrRespH, StatusNext, UrlNext, VersionNext,
      StepHead, StepChunk, ShouldKeepAlive;
    var s1 := Charge(s);
    if s.state.Head? { HeadCounts(strict, skip, s1, b); }
    if s.state.Chunk? { ChunkCounts(strict, s1, b); }
    if IsStart(s.state) || s.state.ResOrRespH? || s.state.ReqMethod? { StartCounts(s1, b); }
  }

  /** Header-state bytes read since the last reset, `r` having been charged `r.s.nread` already. */
  function SinceReset(cfg: Config, r: Run, bytes: seq<byte>): nat {
    if bytes == [] then r.s.nread
    else
      var n := |bytes| - 1;
      var u := ReadAll(cfg, r, bytes[..n]);
      var before := SinceReset(cfg, r, bytes[..n]);
      if !u.status.Running? then before
      else if Resets(u.s, Step(cfg.strict, cfg.answer(u.o, InfoOf(u.s)), u.s, bytes[n])) then 0
      else if ParsingHeader(u.s.state) then before + 1
      else before
  }

  /** The parser's counter is that count, so that without an error at most 80 * 1024 header-state bytes
      pass between two resets, whatever the length of the bodies. */
  lemma {:induction false} BudgetKept(cfg: Config, r: Run, bytes: seq<byte>)
    requires Healthy(r)
    ensures var t := ReadAll(cfg, r, bytes);
      t.status.Running? ==> t.s.nread == SinceReset(cfg, r, bytes) <= HTTP_MAX_HEADER_SIZE
  {
    hide Step, StateOk, ObsInv, Legal, Feed, ApplyAll, Announces, InfoOf;
    ReadAllKeeps(cfg, r, bytes);
    if bytes != [] {
      var n := |bytes| - 1;
      BudgetKept(cfg, r, bytes[..n]);
      var u := ReadAll(cfg, r, bytes[..n]);
      var skip := cfg.answer(u.o, InfoOf(u.s));
      StepCounts(cfg.strict, skip, u.s, bytes[n]);
      SameReset(u.s, Step(cfg.strict, skip, u.s, bytes[n]));
    }
  }

  lemma SameReset(s: Parser, m: Move)
    ensures Resets(Charge(s), m) <==> Resets(s, m)
  {
    hide Announces;
  }

  lemma OnlyOverflow(strict: bool, skip: bool, s: Parser, b: byte)
    ensures Dispatch(strict, skip, s, b).out != Fail(HEADER_OVERFLOW)
  {
    hide MethodString, Switch, FirstMethod, Match, Wrap64, Unhex, Token, Lower, IsUrlChar, IsHostChar, StepHead,
      StepChunk, StatusNext, UrlNext, VersionNext;
    LineErrors(strict, s, b);
    if s.state.Head? { HeadErrors(strict, skip, s, b); }
    if s.state.Chunk? { ChunkErrors(strict, s, b); }
  }

  lemma LineErrors(strict: bool, s: Parser, b: byte)
    ensures s.state.ResLine? ==> StatusNext(strict, s.state.res, s.major, s.minor, s.status, b) != Bad(HEADER_OVERFLOW)
    ensures s.state.ReqUrl? ==> UrlNext(strict, s.state.url, s.verb.CONNECT?, b) != Bad(HEADER_OVERFLOW)
    ensures s.state.ReqVersion? ==> VersionNext(strict, s.state.ver, s.major, s.minor, b) != Bad(HEADER_OVERFLOW)
  {
    hide IsUrlChar, IsHostChar, IsAlpha, MoreDigits;
  }

  lemma HeadErrors(strict: bool, skip: bool, s: Parser, b: byte)
    requires s.state.Head?
    ensures StepHead(strict, skip, s, s.state.head, b).out != Fail(HEADER_OVERFLOW)
  {
    hide Token, NameChar, Lower, Match, Wrap64, ShouldKeepAlive, FirstNameState, BodyFollows, InfoOf;
  }

  lemma ChunkErrors(strict: bool, s: Parser, b: byte)
    requires s.state.Chunk?
    ensures StepChunk(strict, s, s.state.chunk, b).out != Fail(HEADER_OVERFLOW)
  {
    hide Unhex, Wrap64;
  }

  /** The overflow error comes exactly at the header-state byte after 80 * 1024 since the last reset. */
  lemma OverflowExact(cfg: Config, r: Run, bytes: seq<byte>, b: byte)
    requires Healthy(r) && ReadAll(cfg, r, bytes).status.Running?
    ensures var t := ReadAll(cfg, r, bytes);
      Read(cfg, t, b).status == Failed(HEADER_OVERFLOW)
      <==> ParsingHeader(t.s.state) && SinceReset(cfg, r, bytes) == HTTP_MAX_HEADER_SIZE
  {
    hide Dispatch, StateOk, ObsInv, Legal, Feed, ApplyAll, SinceReset, InfoOf;
    BudgetKept(cfg, r, bytes);
    var t := ReadAll(cfg, r, bytes);
    OnlyOverflow(cfg.strict, cfg.answer(t.o, InfoOf(t.s)), Charge(t.s), b);
  }

  // ---------- The saved bytes ----------

  /** The numbers of the state enumeration. */
  function StateCode(s: State): nat {
    match s
    case Dead => 1
    case StartReqOrRes => 2
    case ResOrRespH => 3
    case StartRes => 4
    case ResLine(at) => ResCode(at)
    case StartReq => 17
    case ReqMethod => 18
    case ReqUrl(at) => UrlCode(at)
    case ReqVersion(at) => VersionCode(at)
    case Head(at) => HeadCode(at)
    case Chunk(at) => ChunkCode(at)
    case BodyIdentity => 54
    case BodyIdentityEof => 55
  }

  function ResCode(at: ResLineState): nat {
    match at
    case ResH => 5 case ResHT => 6 case ResHTT => 7 case ResHTTP => 8
    case ResFirstHttpMajor => 9 case ResHttpMajor => 10 case ResFirstHttpMinor => 11 case ResHttpMinor => 12
    case ResFirstStatusCode => 13 case ResStatusCode => 14 case ResStatus => 15 case ResLineAlmostDone => 16
  }

  function UrlCode(at: UrlState): nat {
    match at
    case ReqSpacesBeforeUrl => 19 case ReqSchema => 20 case ReqSchemaSlash => 21 case ReqSchemaSlashSlash => 22
    case ReqHost => 23 case ReqPort => 24 case ReqPath => 25 case ReqQueryStringStart => 26
    case ReqQueryString => 27 case ReqFragmentStart => 28 case ReqFragment => 29
  }

  function VersionCode(at: VersionState): nat {
    match at
    case ReqHttpStart => 30 case ReqHttpH => 31 case ReqHttpHT => 32 case ReqHttpHTT => 33 case ReqHttpHTTP => 34
    case ReqFirstHttpMajor => 35 case ReqHttpMajor => 36 case ReqFirstHttpMinor => 37 case ReqHttpMinor => 38
    case ReqLineAlmostDone => 39
  }

  function HeadCode(at: HeadState): nat {
    match at
    case HeaderFieldStart => 40 case HeaderField => 41 case HeaderValueStart => 42 case HeaderValue => 43
    case HeaderValueLws => 44 case HeaderAlmostDone => 45 case HeadersAlmostDone => 50
  }

  function ChunkCode(at: ChunkState): nat {
    match at
    case ChunkSizeStart => 46 case ChunkSize => 47 case ChunkParameters => 48 case ChunkSizeAlmostDone => 49
    case ChunkData => 51 case ChunkDataAlmostDone => 52 case ChunkDataDone => 53
  }

  /** The numbers of the error enumeration; 1 to 10 are the failing callbacks, which return 0 here. */
  function ErrnoCode(e: Errno): nat {
    match e
    case OK => 0
    case INVALID_EOF_STATE => 11 case HEADER_OVERFLOW => 12 case CLOSED_CONNECTION => 13 case INVALID_VERSION => 14
    case INVALID_STATUS => 15 case INVALID_METHOD => 16 case INVALID_URL => 17 case INVALID_HOST => 18
    case INVALID_PORT => 19 case INVALID_PATH => 20 case INVALID_QUERY_STRING => 21 case INVALID_FRAGMENT => 22
    case LF_EXPECTED => 23 case INVALID_HEADER_TOKEN => 24 case INVALID_CONTENT_LENGTH => 25
    case INVALID_CHUNK_SIZE => 26 case INVALID_CONSTANT => 27 case STRICT => 29 case UNKNOWN => 30
  }

  /** The `state` byte. */
  function SavedByte(x: Saved): nat {
    match x
    case Live(s) => StateCode(s)
    case Errored(e) => 0x80 + ErrnoCode(e)
  }

  /** HTTP_PARSER_ERRNO */
  function ErrnoOf(b: nat): nat { if b >= 0x80 then b - 0x80 else 0 }

  /** The grouped states are the flat enumeration: numbers below 0x80 that determine the state, and the
      header states are those up to the last one before the bodies. */
  lemma StatesArePacked(s: State, t: State)
    ensures 1 <= StateCode(s) < 0x80
    ensures StateCode(s) == StateCode(t) ==> s == t
    ensures ParsingHeader(s) <==> StateCode(s) <= StateCode(Head(HeadersAlmostDone))
  {
  }

  /** One byte holds either the state or the error, and nothing is lost. */
  lemma SavedIsPacked(x: Saved, y: Saved)
    ensures SavedByte(x) < 0x100
    ensures SavedByte(x) == SavedByte(y) ==> x == y
    ensures ErrnoOf(SavedByte(x)) == (if x.Errored? then ErrnoCode(x.errno) else 0)
  {
    hide StateCode;
    if x.Live? { StatesArePacked(x.state, x.state); }
    if y.Live? { StatesArePacked(y.state, y.state); }
    if x.Live? && y.Live? { StatesArePacked(x.state, y.state); }
  }
}
