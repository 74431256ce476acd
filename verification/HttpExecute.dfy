/** http_parser_execute: the scanner that works on whole buffers, with spans, bulk body skips and a
    saved state, proved against the one-byte-per-step machine. */
module HttpExecute {
  import opened Bytes
  import opened HttpChars
  import opened HttpTypes
  import opened HttpStep
  import opened HttpInvariants
  import opened HttpTrace
  import opened HttpSpans
  import opened HttpBody

  type uint8 = x: int | 0 <= x < 0x100
  type uint16 = x: int | 0 <= x < 0x1_0000
  type uint32 = x: int | 0 <= x < 0x1_0000_0000
  type int64 = x: int | -0x8000_0000_0000_0000 <= x < 0x8000_0000_0000_0000

  /** The user's callbacks: every call is recorded and returns 0, except that on_headers_complete
      answers whether to skip the body. */
  class Callbacks {
    var log: seq<Event>
    const answer: (Obs, Info) -> bool

    constructor (answer: (Obs, Info) -> bool)
      ensures log == [] && this.answer == answer
    {
      log := [];
      this.answer := answer;
    }

    method Call(e: Event)
      modifies this
      ensures log == old(log) + [e] && Observe(log) == Apply(Observe(old(log)), e)
    {
      log := log + [e];
    }

    method OnHeadersComplete(info: Info) returns (skip: bool)
      modifies this
      ensures log == old(log) + [HeadersComplete(info)]
      ensures Observe(log) == Apply(Observe(old(log)), HeadersComplete(info))
      ensures skip == answer(Observe(old(log)), info)
    {
      skip := answer(Observe(log), info);
      log := log + [HeadersComplete(info)];
    }
  }

  class HttpParser {
    var kind: ParserType
    var flags: Flags
    var state: Saved
    var headerState: HeaderState
    var index: uint8
    var nread: uint32
    var contentLength: int64
    var httpMajor: uint16
    var httpMinor: uint16
    var statusCode: uint16
    var verb: Method
    var upgrade: bool

    /** The saved parser as a value. */
    ghost function Value(): Parser
      requires state.Live?
      reads this
    {
      Parser(kind, flags, state.state, headerState, index, nread, contentLength, httpMajor, httpMinor,
             statusCode, verb, upgrade)
    }

    /** http_parser_init leaves the remaining fields as they are. */
    method Init(t: ParserType)
      modifies this
      ensures state.Live? && IsInit(Value(), t)
      ensures unchanged(`headerState, `index, `contentLength, `httpMajor, `httpMinor, `statusCode)
    {
      kind := t;
      state := Live(if t == Request then StartReq else if t == Response then StartRes else StartReqOrRes);
      nread := 0;
      upgrade := false;
      flags := NO_FLAGS;
      verb := DELETE;
    }

    method KeepsAlive() returns (r: bool)
      ensures r == ShouldKeepAlive(httpMajor, httpMinor, flags)
    {
      if httpMajor > 0 && httpMinor > 0 {
        if flags.close { r := false; } else { r := true; }
      } else {
        if flags.keepAlive { r := true; } else { r := false; }
      }
    }
  }

  /** How a case of the switch ends: next byte, `goto error`, or return to hand over the connection. */
  datatype Signal = Proceed | Error(e: Errno) | Leave

  /** A literal as the C string it is, with its terminator. */
  function CStr(word: seq<byte>, i: nat): byte
    requires i <= |word|
  {
    if i < |word| then word[i] else 0
  }

  /** The part of the URL that is open, or the URL itself. */
  function OpenPart(st: State): Span {
    if PathOpen(st) then Path else if QueryOpen(st) then Query else if FragmentOpen(st) then Fragment else Url
  }

  lemma MethodHasNoNul(m: Method)
    ensures 0 !in MethodString(m)
  {
  }

  /** The local variables of one call. */
  class Scan {
    const strict: bool
    const parser: HttpParser
    const cb: Callbacks
    const data: seq<byte>

    var p: nat
    var state: State
    var headerState: HeaderState
    var index: nat
    var nread: nat
    var marks: Marks

    /** Load the saved locals and re-arm the marks of the spans that are open in the saved state. */
    constructor (strict: bool, parser: HttpParser, cb: Callbacks, data: seq<byte>)
      requires parser.state.Live?
      ensures this.strict == strict && this.parser == parser && this.cb == cb && this.data == data
      ensures p == 0 && MarksMatch(marks, state)
      ensures Sane() && Abs() == parser.Value() && View() == Observe(cb.log)
    {
      this.strict, this.parser, this.cb, this.data := strict, parser, cb, data;
      p := 0;
      var st := parser.state.state;
      state, headerState, index, nread := st, parser.headerState, parser.index, parser.nread;
      var mk := NO_MARKS;
      if st == Head(HeaderField) { mk := mk.(field := At(0)); }
      if st == Head(HeaderValue) { mk := mk.(value := At(0)); }
      if st == ReqUrl(ReqFragment) { mk := mk.(fragment := At(0)); }
      if st == ReqUrl(ReqQueryString) { mk := mk.(query := At(0)); }
      if st == ReqUrl(ReqPath) { mk := mk.(path := At(0)); }
      if st == ReqUrl(ReqPath) || st == ReqUrl(ReqSchema) || st == ReqUrl(ReqSchemaSlash)
         || st == ReqUrl(ReqSchemaSlashSlash) || st == ReqUrl(ReqPort) || st == ReqUrl(ReqQueryStringStart)
         || st == ReqUrl(ReqQueryString) || st == ReqUrl(ReqHost) || st == ReqUrl(ReqFragmentStart)
         || st == ReqUrl(ReqFragment) {
        mk := mk.(url := At(0));
      }
      marks := mk;
    }

    ghost function Abs(): Parser
      reads `state, `headerState, `index, `nread, parser
    {
      Parser(parser.kind, parser.flags, state, headerState, index, nread, parser.contentLength,
             parser.httpMajor, parser.httpMinor, parser.statusCode, parser.verb, parser.upgrade)
    }

    ghost predicate Sane()
      reads `p, `marks
    {
      p <= |data| && MarksBefore(marks, p)
    }

    /** What the callbacks so far and the open spans up to `p` amount to. */
    ghost function View(): Obs
      requires Sane()
      reads `p, `marks, cb
    {
      PendAll(Observe(cb.log), marks, data, p)
    }

    /** At the top of the switch, with the byte `ch` already charged to the header budget. */
    ghost predicate Ready(ch: byte)
      reads this, parser, cb
    {
      && Sane() && p < |data| && ch == data[p]
      && MarksMatch(marks, state)
      && Core(Abs()) && ObsInv(Abs(), View())
    }

    /** A case has done what the byte machine's move `m` says, seen from the observation `v`. */
    ghost predicate Did(sig: Signal, m: Move, v: Obs)
      reads this, parser, cb
    {
      && Sane() && View() == ApplyAll(v, m.evs)
      && match m.out
         case Continue => sig.Proceed? && Abs() == m.s && MarksMatch(marks, state)
         case Fail(e) => sig == Error(e) && parser.kind == m.s.kind
         case Upgraded => sig.Leave? && parser.upgrade && marks == NO_MARKS && parser.kind == m.s.kind
    }

    /** CALLBACK(k): deliver the span up to `p` and clear its mark. */
    method Callback(k: Span)
      requires Sane() && OneOpen(marks) && MarkOf(marks, k).At?
      modifies this`marks, cb
      ensures Sane() && marks == Cleared(old(marks), k)
      ensures View() == Apply(old(View()), Data(k, []))
    {
      var m := MarkOf(marks, k);
      FlushKeeps(Observe(cb.log), marks, k, data, p);
      if m.At? {
        cb.Call(Data(k, data[m.pos..p]));
      }
      marks := Cleared(marks, k);
    }

    // ---------- URL ----------

    /** CALLBACK(url), then the part of it that is open, if any. */
    method DeliverUrl(k: Span)
      requires Sane() && UrlOpen(state) && k == OpenPart(state) && MarksMatch(marks, state)
      requires ObsInv(Abs(), View())
      modifies `marks, cb
      ensures Sane() && marks == NO_MARKS && View() == old(View())
    {
      hide PendAll, ObsInv, Apply;
      OpenSettled(Abs(), View(), marks, Url);
      OpenSettled(Abs(), View(), marks, k);
      Callback(Url);
      if k != Url { Callback(k); }
    }

    /** A byte that ends the URL. */
    method EndTarget(k: Span, ch: byte, e: Errno) returns (sig: Signal)
      requires Ready(ch) && UrlOpen(state) && k == OpenPart(state) && !e.OK?
      modifies `state, `marks, parser`httpMajor, parser`httpMinor, cb
      ensures Did(sig, Follow(old(Abs()), EndUrl(ch, e)), old(View()))
    {
      hide PendAll, Core, ObsInv, Apply;
      if ch != SP && ch != CR && ch != LF { return Error(e); }
      DeliverUrl(k);
      if ch == SP {
        state := ReqVersion(ReqHttpStart);
      } else {
        parser.httpMajor, parser.httpMinor := 0, 9;
        state := if ch == CR then ReqVersion(ReqLineAlmostDone) else Head(HeaderFieldStart);
      }
      return Proceed;
    }

    /** STRICT_CHECK(ch != want), then on to `next`. */
    method Expecting(ch: byte, want: byte, next: State) returns (sig: Signal)
      requires Ready(ch) && MarksMatch(marks, next)
      modifies `state
      ensures Did(sig, Follow(old(Abs()), Expect(strict && ch != want, next)), old(View()))
    {
      hide Core, ObsInv, Apply, Observe, PendAll;
      if strict && ch != want { return Error(STRICT); }
      state := next;
      return Proceed;
    }

    method SpacesBeforeUrl(ch: byte) returns (sig: Signal)
      requires Ready(ch) && state == ReqUrl(ReqSpacesBeforeUrl)
      modifies `state, `marks
      ensures Did(sig, Follow(old(Abs()), UrlNext(strict, ReqSpacesBeforeUrl, parser.verb.CONNECT?, ch)), old(View()))
    {
      hide Core, ObsInv, Apply, Observe;
      if ch == SP { return Proceed; }
      if ch == SLASH || ch == STAR {
        marks := marks.(url := At(p), path := At(p));
        state := ReqUrl(ReqPath);
        return Proceed;
      }
      if IsAlpha(ch) || (parser.verb.CONNECT? && IsNum(ch)) {
        marks := marks.(url := At(p));
        state := ReqUrl(if parser.verb.CONNECT? then ReqHost else ReqSchema);
        return Proceed;
      }
      return Error(INVALID_URL);
    }

    method Schema(at: UrlState, ch: byte) returns (sig: Signal)
      requires Ready(ch) && state == ReqUrl(at)
      requires at.ReqSchema? || at.ReqSchemaSlash? || at.ReqSchemaSlashSlash?
      modifies `state
      ensures Did(sig, Follow(old(Abs()), UrlNext(strict, at, parser.verb.CONNECT?, ch)), old(View()))
    {
      hide Core, ObsInv, Apply, Observe, PendAll;
      match at
      case ReqSchema =>
        if IsAlpha(ch) { return Proceed; }
        if ch == COLON { state := ReqUrl(ReqSchemaSlash); return Proceed; }
        return Error(INVALID_URL);
      case ReqSchemaSlash =>
        sig := Expecting(ch, SLASH, ReqUrl(ReqSchemaSlashSlash));
      case ReqSchemaSlashSlash =>
        sig := Expecting(ch, SLASH, ReqUrl(ReqHost));
    }

    method HostOrPort(at: UrlState, ch: byte) returns (sig: Signal)
      requires Ready(ch) && state == ReqUrl(at) && (at.ReqHost? || at.ReqPort?)
      modifies `state, `marks, cb
      ensures Did(sig, Follow(old(Abs()), UrlNext(strict, at, parser.verb.CONNECT?, ch)), old(View()))
    {
      hide Core, ObsInv, Apply, Observe;
      if at.ReqHost? && IsHostChar(strict, ch) { return Proceed; }
      if at.ReqPort? && IsNum(ch) { return Proceed; }
      if at.ReqHost? && ch == COLON {
        state := ReqUrl(ReqPort);
      } else if ch == SLASH {
        marks := marks.(path := At(p));
        state := ReqUrl(ReqPath);
      } else if ch == SP {
        DeliverUrl(Url);
        state := ReqVersion(ReqHttpStart);
      } else if ch == QUESTION {
        state := ReqUrl(ReqQueryStringStart);
      } else {
        return Error(if at.ReqHost? then INVALID_HOST else INVALID_PORT);
      }
      return Proceed;
    }

    method PathCase(ch: byte) returns (sig: Signal)
      requires Ready(ch) && state == ReqUrl(ReqPath)
      modifies `state, `marks, parser`httpMajor, parser`httpMinor, cb
      ensures Did(sig, Follow(old(Abs()), UrlNext(strict, ReqPath, parser.verb.CONNECT?, ch)), old(View()))
    {
      hide Core, ObsInv, Apply, Observe, PendAll, EndUrl;
      if IsUrlChar(strict, ch) { return Proceed; }
      if ch == QUESTION || ch == HASH {
        OpenSettled(Abs(), View(), marks, Path);
        Callback(Path);
        state := ReqUrl(if ch == QUESTION then ReqQueryStringStart else ReqFragmentStart);
        return Proceed;
      }
      sig := EndTarget(Path, ch, INVALID_PATH);
    }

    method QueryCase(at: UrlState, ch: byte) returns (sig: Signal)
      requires Ready(ch) && state == ReqUrl(at) && (at.ReqQueryStringStart? || at.ReqQueryString?)
      modifies `state, `marks, parser`httpMajor, parser`httpMinor, cb
      ensures Did(sig, Follow(old(Abs()), UrlNext(strict, at, parser.verb.CONNECT?, ch)), old(View()))
    {
      hide Core, ObsInv, Apply, Observe, EndUrl;
      if at.ReqQueryStringStart? {
        if IsUrlChar(strict, ch) {
          marks := marks.(query := At(p));
          state := ReqUrl(ReqQueryString);
          return Proceed;
        }
      } else if IsUrlChar(strict, ch) {
        return Proceed;
      }
      if ch == QUESTION { return Proceed; }
      if ch == HASH {
        if at.ReqQueryString? {
          OpenSettled(Abs(), View(), marks, Query);
          Callback(Query);
        }
        state := ReqUrl(ReqFragmentStart);
        return Proceed;
      }
      sig := EndTarget(if at.ReqQueryString? then Query else Url, ch, INVALID_QUERY_STRING);
    }

    method FragmentCase(at: UrlState, ch: byte) returns (sig: Signal)
      requires Ready(ch) && state == ReqUrl(at) && (at.ReqFragmentStart? || at.ReqFragment?)
      modifies `state, `marks, parser`httpMajor, parser`httpMinor, cb
      ensures Did(sig, Follow(old(Abs()), UrlNext(strict, at, parser.verb.CONNECT?, ch)), old(View()))
    {
      hide Core, ObsInv, Apply, Observe, EndUrl;
      if at.ReqFragmentStart? {
        if IsUrlChar(strict, ch) || ch == QUESTION {
          marks := marks.(fragment := At(p));
          state := ReqUrl(ReqFragment);
          return Proceed;
        }
      } else if IsUrlChar(strict, ch) || ch == QUESTION {
        return Proceed;
      }
      if ch == HASH { return Proceed; }
      sig := EndTarget(if at.ReqFragment? then Fragment else Url, ch, INVALID_FRAGMENT);
    }

    method UrlCase(at: UrlState, ch: byte) returns (sig: Signal)
      requires Ready(ch) && state == ReqUrl(at)
      modifies `state, `marks, parser`httpMajor, parser`httpMinor, cb
      ensures Did(sig, Follow(old(Abs()), UrlNext(strict, at, parser.verb.CONNECT?, ch)), old(View()))
    {
      hide Core, ObsInv, Apply, Observe, PendAll, UrlNext, Follow;
      match at
      case ReqSpacesBeforeUrl => sig := SpacesBeforeUrl(ch);
      case ReqHost => sig := HostOrPort(at, ch);
      case ReqPort => sig := HostOrPort(at, ch);
      case ReqPath => sig := PathCase(ch);
      case ReqQueryStringStart => sig := QueryCase(at, ch);
      case ReqQueryString => sig := QueryCase(at, ch);
      case ReqFragmentStart => sig := FragmentCase(at, ch);
      case ReqFragment => sig := FragmentCase(at, ch);
      case _ => sig := Schema(at, ch);
    }

    // ---------- Status line and request version ----------

    method FirstMajorDigit(ch: byte, next: State) returns (sig: Signal)
      requires Ready(ch) && MarksMatch(marks, next)
      modifies `state, parser`httpMajor
      ensures Did(sig, Follow(old(Abs()), FirstMajor(ch, next)), old(View()))
    {
      hide Core, ObsInv, Apply, Observe, PendAll;
      if ch < 49 || ch > DIGIT_9 { return Error(INVALID_VERSION); }
      parser.httpMajor := ch - DIGIT_0;
      state := next;
      return Proceed;
    }

    method FirstMinorDigit(ch: byte, next: State) returns (sig: Signal)
      requires Ready(ch) && MarksMatch(marks, next)
      modifies `state, parser`httpMinor
      ensures Did(sig, Follow(old(Abs()), FirstMinor(ch, next)), old(View()))
    {
      hide Core, ObsInv, Apply, Observe, PendAll;
      if !IsNum(ch) { return Error(INVALID_VERSION); }
      parser.httpMinor := ch - DIGIT_0;
      state := next;
      return Proceed;
    }

    method MoreMajor(ch: byte) returns (sig: Signal)
      requires Ready(ch) && ReadsDigits(state) && parser.httpMajor <= 999
      modifies parser`httpMajor
      ensures Did(sig, Follow(old(Abs()), MajorDigit(old(parser.httpMajor), ch, state)), old(View()))
    {
      hide Core, ObsInv, Apply, Observe, PendAll;
      if !IsNum(ch) { return Error(INVALID_VERSION); }
      parser.httpMajor := parser.httpMajor * 10 + (ch - DIGIT_0);
      if parser.httpMajor > 999 { return Error(INVALID_VERSION); }
      return Proceed;
    }

    method MoreMinor(ch: byte) returns (sig: Signal)
      requires Ready(ch) && ReadsDigits(state) && parser.httpMinor <= 999
      modifies parser`httpMinor
      ensures Did(sig, Follow(old(Abs()), MinorDigit(old(parser.httpMinor), ch, state)), old(View()))
    {
      hide Core, ObsInv, Apply, Observe, PendAll;
      if !IsNum(ch) { return Error(INVALID_VERSION); }
      parser.httpMinor := parser.httpMinor * 10 + (ch - DIGIT_0);
      if parser.httpMinor > 999 { return Error(INVALID_VERSION); }
      return Proceed;
    }

    method StatusCode(at: ResLineState, ch: byte) returns (sig: Signal)
      requires Ready(ch) && state == ResLine(at)
      requires at.ResFirstStatusCode? || at.ResStatusCode? || at.ResStatus? || at.ResLineAlmostDone?
      modifies `state, parser`statusCode
      ensures Did(sig, Follow(old(Abs()), StatusNext(strict, at, parser.httpMajor, parser.httpMinor,
          old(parser.statusCode), ch)), old(View()))
    {
      hide ObsInv, Apply, Observe, PendAll, MethodString;
      match at
      case ResFirstStatusCode =>
        if !IsNum(ch) {
          if ch == SP { return Proceed; }
          return Error(INVALID_STATUS);
        }
        parser.statusCode := ch - DIGIT_0;
        state := ResLine(ResStatusCode);
        return Proceed;
      case ResStatusCode =>
        if !IsNum(ch) {
          if ch == SP { state := ResLine(ResStatus); }
          else if ch == CR { state := ResLine(ResLineAlmostDone); }
          else if ch == LF { state := Head(HeaderFieldStart); }
          else { return Error(INVALID_STATUS); }
          return Proceed;
        }
        parser.statusCode := parser.statusCode * 10 + (ch - DIGIT_0);
        if parser.statusCode > 999 { return Error(INVALID_STATUS); }
        return Proceed;
      case ResStatus =>
        if ch == CR { state := ResLine(ResLineAlmostDone); }
        else if ch == LF { state := Head(HeaderFieldStart); }
        return Proceed;
      case ResLineAlmostDone =>
        sig := Expecting(ch, LF, Head(HeaderFieldStart));
    }

    method StatusLine(at: ResLineState, ch: byte) returns (sig: Signal)
      requires Ready(ch) && state == ResLine(at)
      modifies `state, parser`httpMajor, parser`httpMinor, parser`statusCode
      ensures Did(sig, Follow(old(Abs()),
        StatusNext(strict, at, old(parser.httpMajor), old(parser.httpMinor), old(parser.statusCode), ch)), old(View()))
    {
      hide ObsInv, Apply, Observe, PendAll, MethodString, MajorDigit, MinorDigit, MoreDigits, FirstMajor, FirstMinor;
      match at
      case ResH =>
        sig := Expecting(ch, T_, ResLine(ResHT));
      case ResHT =>
        sig := Expecting(ch, T_, ResLine(ResHTT));
      case ResHTT =>
        sig := Expecting(ch, P_, ResLine(ResHTTP));
      case ResHTTP =>
        sig := Expecting(ch, SLASH, ResLine(ResFirstHttpMajor));
      case ResFirstHttpMajor =>
        sig := FirstMajorDigit(ch, ResLine(ResHttpMajor));
      case ResHttpMajor =>
        if ch == DOT { state := ResLine(ResFirstHttpMinor); return Proceed; }
        sig := MoreMajor(ch);
      case ResFirstHttpMinor =>
        sig := FirstMinorDigit(ch, ResLine(ResHttpMinor));
      case ResHttpMinor =>
        if ch == SP { state := ResLine(ResFirstStatusCode); return Proceed; }
        sig := MoreMinor(ch);
      case _ => sig := StatusCode(at, ch);
    }

    method Version(at: VersionState, ch: byte) returns (sig: Signal)
      requires Ready(ch) && state == ReqVersion(at)
      modifies `state, parser`httpMajor, parser`httpMinor
      ensures Did(sig, Follow(old(Abs()),
        VersionNext(strict, at, old(parser.httpMajor), old(parser.httpMinor), ch)), old(View()))
    {
      hide ObsInv, Apply, Observe, PendAll, MethodString, MajorDigit, MinorDigit, MoreDigits, FirstMajor, FirstMinor,
        HeadOk, ChunkOk, IdentityOk;
      match at
      case ReqFirstHttpMajor =>
        sig := FirstMajorDigit(ch, ReqVersion(ReqHttpMajor));
      case ReqHttpMajor =>
        if ch == DOT { state := ReqVersion(ReqFirstHttpMinor); return Proceed; }
        sig := MoreMajor(ch);
      case ReqFirstHttpMinor =>
        sig := FirstMinorDigit(ch, ReqVersion(ReqHttpMinor));
      case ReqHttpMinor =>
        if ch == CR { state := ReqVersion(ReqLineAlmostDone); return Proceed; }
        if ch == LF { state := Head(HeaderFieldStart); return Proceed; }
        sig := MoreMinor(ch);
      case _ =>
        sig := VersionWord(at, ch);
    }

    /** The letters before the numbers, and the line feed behind them. */
    method VersionWord(at: VersionState, ch: byte) returns (sig: Signal)
      requires Ready(ch) && state == ReqVersion(at)
      requires !at.ReqFirstHttpMajor? && !at.ReqHttpMajor? && !at.ReqFirstHttpMinor? && !at.ReqHttpMinor?
      modifies `state
      ensures Did(sig, Follow(old(Abs()), VersionNext(strict, at, parser.httpMajor, parser.httpMinor, ch)),
                  old(View()))
    {
      hide ObsInv, Apply, Observe, PendAll, MethodString, HeadOk, ChunkOk, IdentityOk;
      match at
      case ReqHttpStart =>
        if ch == H_ { state := ReqVersion(ReqHttpH); return Proceed; }
        if ch == SP { return Proceed; }
        return Error(INVALID_CONSTANT);
      case ReqHttpH =>
        sig := Expecting(ch, T_, ReqVersion(ReqHttpHT));
      case ReqHttpHT =>
        sig := Expecting(ch, T_, ReqVersion(ReqHttpHTT));
      case ReqHttpHTT =>
        sig := Expecting(ch, P_, ReqVersion(ReqHttpHTTP));
      case ReqHttpHTTP =>
        sig := Expecting(ch, SLASH, ReqVersion(ReqFirstHttpMajor));
      case ReqLineAlmostDone =>
        if ch != LF { return Error(LF_EXPECTED); }
        state := Head(HeaderFieldStart);
        return Proceed;
    }

    // ---------- Start of a message and the method ----------

    /** The first byte of a message clears what the last one left. */
    method Begin()
      requires Sane() && marks == NO_MARKS
      modifies parser`flags, parser`contentLength, cb
      ensures Sane() && View() == ApplyAll(old(View()), [MessageBegin(parser.kind.Response?)])
      ensures Abs() == Begun(old(Abs()))
    {
      hide PendAll, Apply, Observe;
      ApplyOne(View(), MessageBegin(parser.kind.Response?));
      AllDelivered(Observe(cb.log), data, p);
      parser.flags := NO_FLAGS;
      parser.contentLength := -1;
      cb.Call(MessageBegin(parser.kind.Response?));
      AllDelivered(Observe(cb.log), data, p);
    }

    /** start_req_method_assign */
    method MethodAssign(ch: byte) returns (ok: bool)
      modifies `state, `index, parser`verb
      ensures ok <==> FirstMethod(ch) != []
      ensures ok ==> state == ReqMethod && index == 1 && parser.verb == FirstMethod(ch)[0]
    {
      parser.verb := DELETE;
      index := 1;
      if ch == C_ { parser.verb := CONNECT; }
      else if ch == D_ { parser.verb := DELETE; }
      else if ch == G_ { parser.verb := GET; }
      else if ch == H_ { parser.verb := HEAD; }
      else if ch == L_ { parser.verb := LOCK; }
      else if ch == M_ { parser.verb := MKCOL; }
      else if ch == N_ { parser.verb := NOTIFY; }
      else if ch == O_ { parser.verb := OPTIONS; }
      else if ch == P_ { parser.verb := POST; }
      else if ch == R_ { parser.verb := REPORT; }
      else if ch == S_ { parser.verb := SUBSCRIBE; }
      else if ch == T_ { parser.verb := TRACE; }
      else if ch == U_ { parser.verb := UNLOCK; }
      else { return false; }
      state := ReqMethod;
      return true;
    }

    method StartCase(ch: byte) returns (sig: Signal)
      requires Ready(ch) && (state.StartReqOrRes? || state.StartReq?)
      modifies `state, `index, parser`kind, parser`flags, parser`contentLength, parser`verb, cb
      ensures Did(sig, if old(state).StartReq? then StepStartReq(old(Abs()), ch) else StepStartReqOrRes(old(Abs()), ch),
                  old(View()))
    {
      hide Core, ObsInv, Apply, Observe, PendAll, FirstMethod;
      StartKind(Abs());
      if ch == CR || ch == LF { return Proceed; }
      Begin();
      if state.StartReqOrRes? {
        if ch == H_ { state := ResOrRespH; return Proceed; }
        parser.kind := Request;
      } else if !IsAlpha(ch) {
        return Error(INVALID_METHOD);
      }
      var ok := MethodAssign(ch);
      return if ok then Proceed else Error(INVALID_METHOD);
    }

    method ResponseOrHead(ch: byte) returns (sig: Signal)
      requires Ready(ch) && state.ResOrRespH?
      modifies `state, `index, parser`kind, parser`verb
      ensures Did(sig, StepResOrRespH(old(Abs()), ch), old(View()))
    {
      hide Core, ObsInv, Apply, Observe, PendAll;
      if ch == T_ {
        parser.kind := Response;
        state := ResLine(ResHT);
        return Proceed;
      }
      if ch != E_ { return Error(INVALID_CONSTANT); }
      parser.kind := Request;
      parser.verb := HEAD;
      index := 2;
      state := ReqMethod;
      return Proceed;
    }

    method StartResponse(ch: byte) returns (sig: Signal)
      requires Ready(ch) && state.StartRes?
      modifies `state, parser`flags, parser`contentLength, cb
      ensures Did(sig, StepStartRes(old(Abs()), ch), old(View()))
    {
      hide Core, ObsInv, Apply, Observe, PendAll;
      Begin();
      if ch == H_ { state := ResLine(ResH); return Proceed; }
      if ch == CR || ch == LF { return Proceed; }
      return Error(INVALID_CONSTANT);
    }

    /** The other candidates, once the byte is not the current one's. */
    method SwitchMethod(ch: byte) returns (e: Errno)
      modifies parser`verb
      ensures e.OK? <==> Switch(old(parser.verb), index, ch) != []
      ensures e.OK? ==> parser.verb == Switch(old(parser.verb), index, ch)[0]
      ensures !e.OK? ==> e == (if old(parser.verb).CONNECT? || old(parser.verb).MKCOL?
                                  || (old(parser.verb).POST? && index == 1) then UNKNOWN else INVALID_METHOD)
    {
      if parser.verb.CONNECT? {
        if index == 1 && ch == H_ { parser.verb := CHECKOUT; }
        else if index == 2 && ch == P_ { parser.verb := COPY; }
        else { return UNKNOWN; }
      } else if parser.verb.MKCOL? {
        if index == 1 && ch == O_ { parser.verb := MOVE; }
        else if index == 1 && ch == E_ { parser.verb := MERGE; }
        else if index == 1 && ch == DASH { parser.verb := MSEARCH; }
        else if index == 2 && ch == A_ { parser.verb := MKACTIVITY; }
        else { return UNKNOWN; }
      } else if index == 1 && parser.verb.POST? {
        if ch == R_ { parser.verb := PROPFIND; }
        else if ch == U_ { parser.verb := PUT; }
        else if ch == A_ { parser.verb := PATCH; }
        else { return UNKNOWN; }
      } else if index == 2 && parser.verb.UNLOCK? && ch == S_ {
        parser.verb := UNSUBSCRIBE;
      } else if index == 4 && parser.verb.PROPFIND? && ch == P_ {
        parser.verb := PROPPATCH;
      } else {
        return INVALID_METHOD;
      }
      return OK;
    }

    method MethodCase(ch: byte) returns (sig: Signal)
      requires Ready(ch) && state.ReqMethod?
      modifies `state, `index, parser`verb
      ensures Did(sig, StepMethod(old(Abs()), ch), old(View()))
    {
      hide ObsInv, Apply, Observe, PendAll, Switch, MethodString;
      MethodHasNoNul(parser.verb);
      if ch == 0 { return Error(INVALID_METHOD); }
      var matcher := MethodString(parser.verb);
      var next := CStr(matcher, index);
      if ch == SP && next == 0 {
        state := ReqUrl(ReqSpacesBeforeUrl);
      } else if ch == next {
      } else {
        var e := SwitchMethod(ch);
        if !e.OK? { return Error(e); }
      }
      index := index + 1;
      return Proceed;
    }

    // ---------- Headers ----------

    /** NEW_MESSAGE() */
    method NextMessage()
      modifies `state
      ensures state == NewMessage(strict, old(Abs()))
    {
      var keep := true;
      if strict { keep := parser.KeepsAlive(); }
      state := if keep then (if parser.kind.Request? then StartReq else StartRes) else Dead;
    }

    method CompleteMessage()
      requires Sane() && marks == NO_MARKS
      modifies cb
      ensures Sane() && View() == Apply(old(View()), Complete(Abs()))
    {
      var ka := parser.KeepsAlive();
      cb.Call(MessageComplete(ka));
    }

    method Announce(info: Info) returns (skip: bool)
      requires Sane() && marks == NO_MARKS
      modifies cb
      ensures Sane() && View() == Apply(old(View()), HeadersComplete(info))
      ensures skip == cb.answer(old(View()), info)
    {
      skip := cb.OnHeadersComplete(info);
    }

    ghost function Skips(): bool
      requires Sane()
      reads `p, `marks, `state, `headerState, `index, `nread, parser, cb
    {
      cb.answer(View(), InfoOf(Abs()))
    }

    /** What on_headers_complete reads off the parser. */
    method CurrentInfo() returns (info: Info)
      ensures info == InfoOf(Abs())
    {
      var ka := parser.KeepsAlive();
      var request := parser.kind.Request?;
      info := Info(request, if request then parser.verb else DELETE, if request then 0 else parser.statusCode,
                   parser.httpMajor, parser.httpMinor, ka, parser.flags.chunked);
    }

    /** Decide how the body is delimited; without one the message is complete. */
    method DecideBody()
      requires Sane() && marks == NO_MARKS
      modifies `state, cb
      ensures Sane() && state == BodyFollows(strict, old(Abs())).0
      ensures View() ==
        if BodyFollows(strict, old(Abs())).1 then Apply(old(View()), Complete(old(Abs()))) else old(View())
    {
      hide Apply, Observe, ShouldKeepAlive, PendAll, NewMessage;
      if parser.flags.skipBody {
        CompleteMessage();
        NextMessage();
      } else if parser.flags.chunked {
        state := Chunk(ChunkSizeStart);
      } else if parser.contentLength == 0 {
        CompleteMessage();
        NextMessage();
      } else if parser.contentLength > 0 {
        state := BodyIdentity;
      } else {
        var ka := parser.KeepsAlive();
        if parser.kind.Request? || ka {
          CompleteMessage();
          NextMessage();
        } else {
          state := BodyIdentityEof;
        }
      }
    }

    /** The headers are complete: note an upgrade, ask the user, skip the body if told to. */
    method AnnounceHeaders() returns (info: Info)
      requires Sane() && marks == NO_MARKS && !parser.upgrade
      modifies `nread, parser`flags, parser`upgrade, cb
      ensures Sane() && info == InfoOf(old(Abs())) && View() == Apply(old(View()), HeadersComplete(info))
      ensures Abs() == HeadersAnnounced(old(Skips()), old(Abs()))
    {
      hide Apply, Observe, ShouldKeepAlive, PendAll;
      nread := 0;
      if parser.flags.upgrade || parser.verb.CONNECT? { parser.upgrade := true; }
      info := CurrentInfo();
      var skip := Announce(info);
      if skip { parser.flags := parser.flags.(skipBody := true); }
    }

    /** headers_almost_done */
    method HeadersDoneCase(ch: byte) returns (sig: Signal)
      requires Ready(ch) && state == Head(HeadersAlmostDone)
      modifies `state, `nread, parser`flags, parser`upgrade, cb
      ensures Did(sig, HeadersDone(strict, old(Skips()), old(Abs()), ch), old(View()))
    {
      hide ObsInv, Apply, Observe, ShouldKeepAlive, PendAll, InfoOf, BodyFollows, Complete, StateOk, InRange;
      if strict && ch != LF { return Error(STRICT); }
      ghost var v0 := View();
      if parser.flags.trailing {
        ApplyOne(v0, Complete(Abs()));
        CompleteMessage();
        NextMessage();
        return Proceed;
      }
      var info := AnnounceHeaders();
      ApplyTwo(v0, HeadersComplete(info), Complete(Abs()));
      ApplyOne(v0, HeadersComplete(info));
      if parser.upgrade {
        CompleteMessage();
        return Leave;
      }
      NoSpanOpens(strict, Abs());
      DecideBody();
      return Proceed;
    }

    /** header_field_start */
    method FieldStartCase(ch: byte) returns (sig: Signal)
      requires Ready(ch) && state == Head(HeaderFieldStart)
      modifies `state, `nread, `index, `headerState, `marks, parser`flags, parser`upgrade, cb
      ensures Did(sig, FieldStart(strict, old(Skips()), old(Abs()), ch), old(View()))
    {
      hide Apply, Observe, HeadersDone, Token, FirstNameState, MethodString;
      if ch == CR { state := Head(HeadersAlmostDone); return Proceed; }
      if ch == LF {
        state := Head(HeadersAlmostDone);
        sig := HeadersDoneCase(ch);
        return;
      }
      var c := Token(ch);
      if c == 0 { return Error(INVALID_HEADER_TOKEN); }
      marks := marks.(field := At(p));
      index := 0;
      state := Head(HeaderField);
      headerState := FirstState(c);
      return Proceed;
    }

    method FirstState(c: byte) returns (hs: HeaderState)
      ensures hs == FirstNameState(c)
    {
      if c == LOW_C { hs := MatchC; }
      else if c == LOW_P { hs := MatchingProxyConnection; }
      else if c == LOW_T { hs := MatchingTransferEncoding; }
      else if c == LOW_U { hs := MatchingUpgrade; }
      else { hs := General; }
    }

    /** One more byte against a literal, read as a C string. */
    method MatchNext(word: seq<byte>, c: byte, full: HeaderState)
      requires index < |word| && c != 0
      modifies `index, `headerState
      ensures (headerState, index) == Match(old(headerState), old(index), c, word, full)
    {
      index := index + 1;
      if index > |word| || c != CStr(word, index) {
        headerState := General;
      } else if index == |word| - 1 {
        headerState := full;
      }
    }

    /** The header-name automaton; `assert(0 && "Unknown header_state")` is never reached. */
    method NameByte(c: byte, ch: byte)
      requires c != 0 && NameState(headerState) && NameIndex(headerState, index)
      modifies `index, `headerState
      ensures (headerState, index) == NameChar(old(headerState), old(index), c, ch)
    {
      hide Match;
      match headerState
      case General =>
      case MatchC =>
        index := index + 1;
        headerState := if c == LOW_O then MatchCO else General;
      case MatchCO =>
        index := index + 1;
        headerState := if c == LOW_N then MatchCON else General;
      case MatchCON =>
        index := index + 1;
        headerState := if c == LOW_N then MatchingConnection else if c == LOW_T then MatchingContentLength else General;
      case MatchingConnection => MatchNext(CONNECTION, c, Connection);
      case MatchingProxyConnection => MatchNext(PROXY_CONNECTION, c, Connection);
      case MatchingContentLength => MatchNext(CONTENT_LENGTH, c, ContentLength);
      case MatchingTransferEncoding => MatchNext(TRANSFER_ENCODING, c, TransferEncoding);
      case MatchingUpgrade => MatchNext(HttpChars.UPGRADE, c, Upgrade);
      case Connection => if ch != SP { headerState := General; }
      case ContentLength => if ch != SP { headerState := General; }
      case TransferEncoding => if ch != SP { headerState := General; }
      case Upgrade => if ch != SP { headerState := General; }
      case _ => assert false;
    }

    method FieldCase(ch: byte) returns (sig: Signal)
      requires Ready(ch) && state == Head(HeaderField)
      modifies `state, `index, `headerState, `marks, cb
      ensures Did(sig, StepHead(strict, old(Skips()), old(Abs()), HeaderField, ch), old(View()))
    {
      hide Apply, Observe, PendAll, NameChar, Token, MethodString, NameIndex, ObsInv;
      var c := Token(ch);
      if c != 0 {
        NameByte(c, ch);
        return Proceed;
      }
      if ch != COLON && ch != CR && ch != LF { return Error(INVALID_HEADER_TOKEN); }
      OpenSettled(Abs(), View(), marks, Field);
      Callback(Field);
      state := Head(if ch == COLON then HeaderValueStart else if ch == CR then HeaderAlmostDone else HeaderFieldStart);
      return Proceed;
    }

    /** The first byte of a value; the mark is already set. */
    method FirstValueByte(ch: byte) returns (sig: Signal)
      requires Sane() && MarksMatch(marks, state) && state == Head(HeaderValue)
      modifies `headerState, parser`flags, parser`contentLength
      ensures Did(sig, FirstValueChar(old(Abs()), ch), old(View()))
    {
      hide Apply, Observe, PendAll;
      var c := Lower(ch);
      match headerState {
      case Upgrade =>
        parser.flags := parser.flags.(upgrade := true);
        headerState := General;
      case TransferEncoding =>
        headerState := if c == LOW_C then MatchingChunked else General;
      case ContentLength =>
        if !IsNum(ch) { return Error(INVALID_CONTENT_LENGTH); }
        parser.contentLength := ch - DIGIT_0;
      case Connection =>
        headerState := if c == LOW_K then MatchingKeepAlive else if c == LOW_C then MatchingClose else General;
      case _ =>
        headerState := General;
      }
      return Proceed;
    }

    method ValueStartCase(ch: byte) returns (sig: Signal)
      requires Ready(ch) && state == Head(HeaderValueStart)
      modifies `state, `index, `headerState, `marks, parser`flags, parser`contentLength, cb
      ensures Did(sig, StepHead(strict, old(Skips()), old(Abs()), HeaderValueStart, ch), old(View()))
    {
      hide Apply, Observe, FirstValueChar, MethodString, ObsInv, Core;
      if ch == SP || ch == TAB { return Proceed; }
      ghost var v0 := View();
      marks := marks.(value := At(p));
      assert View() == v0;
      state := Head(HeaderValue);
      index := 0;
      if ch == CR || ch == LF { sig := EmptyValue(ch); } else { sig := FirstValueByte(ch); }
    }

    /** The line ends where the value would begin. */
    method EmptyValue(ch: byte) returns (sig: Signal)
      requires Sane() && OneOpen(marks) && marks.value == At(p) && state == Head(HeaderValue) && (ch == CR || ch == LF)
      modifies `state, `headerState, `marks, cb
      ensures Sane() && View() == ApplyAll(old(View()), [Data(Value, [])]) && sig.Proceed? && MarksMatch(marks, state)
      ensures headerState == if ch == CR then General else old(headerState)
      ensures state == Head(if ch == CR then HeaderAlmostDone else HeaderFieldStart)
    {
      hide Apply, Observe, MethodString;
      ApplyOne(View(), Data(Value, []));
      Callback(Value);
      if ch == CR { headerState := General; }
      state := Head(if ch == CR then HeaderAlmostDone else HeaderFieldStart);
      return Proceed;
    }

    /** The header-value automaton; `assert(0 && "Shouldn't get here.")` is never reached. */
    method ValueByte(ch: byte) returns (sig: Signal)
      requires Ready(ch) && state == Head(HeaderValue) && ch != CR && ch != LF
      modifies `index, `headerState, parser`contentLength
      ensures Did(sig, ValueChar(old(Abs()), ch), old(View()))
    {
      hide Apply, Observe, PendAll, Match, Wrap64, MethodString, ObsInv, NameIndex;
      var c := Lower(ch);
      match headerState {
      case General =>
      case ContentLength =>
        if ch != SP {
          if !IsNum(ch) { return Error(INVALID_CONTENT_LENGTH); }
          parser.contentLength := Wrap64(parser.contentLength * 10 + (ch - DIGIT_0));
        }
      case MatchingChunked => MatchNext(CHUNKED, c, Chunked);
      case MatchingKeepAlive => MatchNext(KEEP_ALIVE, c, KeepAlive);
      case MatchingClose => MatchNext(CLOSE, c, Close);
      case Chunked => if ch != SP { headerState := General; }
      case KeepAlive => if ch != SP { headerState := General; }
      case Close => if ch != SP { headerState := General; }
      case _ => assert false;
      }
      return Proceed;
    }

    /** header_almost_done */
    method LineDoneCase()
      modifies `state, parser`flags
      ensures Abs() == LineDone(old(Abs()))
    {
      state := Head(HeaderValueLws);
      match headerState
      case KeepAlive => parser.flags := parser.flags.(keepAlive := true);
      case Close => parser.flags := parser.flags.(close := true);
      case Chunked => parser.flags := parser.flags.(chunked := true);
      case _ =>
    }

    method ValueCase(ch: byte) returns (sig: Signal)
      requires Ready(ch) && state == Head(HeaderValue)
      modifies `state, `index, `headerState, `marks, parser`contentLength, parser`flags, cb
      ensures Did(sig, StepHead(strict, old(Skips()), old(Abs()), HeaderValue, ch), old(View()))
    {
      hide Apply, Observe, PendAll, ValueChar, MethodString, ObsInv, Core;
      if ch != CR && ch != LF {
        sig := ValueByte(ch);
        return;
      }
      OpenSettled(Abs(), View(), marks, Value);
      Callback(Value);
      if ch == CR { state := Head(HeaderAlmostDone); } else { LineDoneCase(); }
      return Proceed;
    }

    method HeadCase(at: HeadState, ch: byte) returns (sig: Signal)
      requires Ready(ch) && state == Head(at)
      modifies `state, `nread, `index, `headerState, `marks, parser`contentLength, parser`flags, parser`upgrade, cb
      ensures Did(sig, StepHead(strict, old(Skips()), old(Abs()), at, ch), old(View()))
    {
      hide Apply, Observe, PendAll, FieldStart, HeadersDone, MethodString;
      match at
      case HeaderFieldStart => sig := FieldStartCase(ch);
      case HeaderField => sig := FieldCase(ch);
      case HeaderValueStart => sig := ValueStartCase(ch);
      case HeaderValue => sig := ValueCase(ch);
      case HeaderAlmostDone =>
        if strict && ch != LF { return Error(STRICT); }
        LineDoneCase();
        return Proceed;
      case HeaderValueLws =>
        if ch == SP || ch == TAB {
          state := Head(HeaderValueStart);
          return Proceed;
        }
        state := Head(HeaderFieldStart);
        sig := FieldStartCase(ch);
      case HeadersAlmostDone => sig := HeadersDoneCase(ch);
    }

    // ---------- Bodies ----------

    /** The chunk states that read one byte at a time; the asserted conditions hold in every run. */
    method ChunkLineCase(at: ChunkState, ch: byte) returns (sig: Signal)
      requires Ready(ch) && state == Chunk(at) && (at.ChunkSizeStart? || at.ChunkSize? || at.ChunkParameters?)
      requires at.ChunkSizeStart? ==> nread == 1
      modifies `state, parser`contentLength
      ensures Did(sig, StepChunk(strict, old(Abs()), at, ch), old(View()))
    {
      hide Apply, Observe, PendAll, ObsInv, Wrap64, MethodString, HeadOk, IdentityOk, DigitsOk, Unhex, NewMessage;
      assert parser.flags.chunked;
      match at {
      case ChunkSizeStart =>
        assert nread == 1;
        var v := Unhex(ch);
        if v == -1 { return Error(INVALID_CHUNK_SIZE); }
        parser.contentLength := v;
        state := Chunk(ChunkSize);
      case ChunkSize =>
        if ch == CR {
          state := Chunk(ChunkSizeAlmostDone);
        } else {
          var v := Unhex(ch);
          if v == -1 {
            if ch != SEMICOLON && ch != SP { return Error(INVALID_CHUNK_SIZE); }
            state := Chunk(ChunkParameters);
          } else {
            parser.contentLength := Wrap64(parser.contentLength * 16 + v);
          }
        }
      case ChunkParameters =>
        if ch == CR { state := Chunk(ChunkSizeAlmostDone); }
      }
      return Proceed;
    }

    method ChunkCase(at: ChunkState, ch: byte) returns (sig: Signal)
      requires Ready(ch) && state == Chunk(at) && !at.ChunkData?
      requires at.ChunkSizeStart? ==> nread == 1
      modifies `state, `nread, parser`contentLength, parser`flags
      ensures Did(sig, StepChunk(strict, old(Abs()), at, ch), old(View()))
    {
      hide Apply, Observe, PendAll, ObsInv, Wrap64, MethodString, HeadOk, IdentityOk, DigitsOk, Unhex, NewMessage;
      if at.ChunkSizeStart? || at.ChunkSize? || at.ChunkParameters? {
        sig := ChunkLineCase(at, ch);
        return;
      }
      match at {
      case ChunkSizeAlmostDone =>
        if strict && ch != LF { return Error(STRICT); }
        nread := 0;
        if parser.contentLength == 0 {
          parser.flags := parser.flags.(trailing := true);
          state := Head(HeaderFieldStart);
        } else {
          state := Chunk(ChunkData);
        }
      case ChunkDataAlmostDone =>
        if strict && ch != CR { return Error(STRICT); }
        state := Chunk(ChunkDataDone);
      case ChunkDataDone =>
        if strict && ch != LF { return Error(STRICT); }
        state := Chunk(ChunkSizeStart);
      }
      return Proceed;
    }

    ghost predicate Bulk()
      reads `state
    {
      state.BodyIdentity? || state.BodyIdentityEof? || state == Chunk(ChunkData)
    }

    /** The byte machine at this point of the buffer. */
    ghost function Here(): Run
      requires Sane()
      reads `p, `marks, `state, `headerState, `index, `nread, parser, cb
    {
      Run(Running, Abs(), View(), p)
    }

    /** on_body for `n` bytes, then `p += n - 1`. */
    method DeliverBody(n: nat)
      requires Sane() && marks == NO_MARKS && 0 < n <= |data| - p
      modifies `p, cb
      ensures Sane() && p == old(p) + n - 1
      ensures View() == Apply(old(View()), Data(Body, data[old(p)..p + 1]))
    {
      cb.Call(Data(Body, data[p..p + n]));
      p := p + n - 1;
    }

    method IdentityCase(ghost cfg: Config)
      requires Sane() && p < |data| && marks == NO_MARKS && Core(Abs()) && state.BodyIdentity?
      requires cfg.strict == strict
      modifies `p, `state, parser`contentLength, cb
      ensures Sane() && old(p) <= p < |data| && MarksMatch(marks, state)
      ensures ReadAll(cfg, old(Here()), data[old(p)..p + 1]) == Here().(n := p + 1)
    {
      hide Apply, Observe, PendAll, ReadAll, ShouldKeepAlive, MethodString;
      ghost var from, r := p, Here();
      var toRead := if |data| - p < parser.contentLength then |data| - p else parser.contentLength;
      CountedBody(cfg, r, data[p..p + toRead]);
      NoSpanOpens(strict, Abs());
      DeliverBody(toRead);
      assert data[from..p + 1] == data[from..from + toRead];
      parser.contentLength := parser.contentLength - toRead;
      if parser.contentLength == 0 {
        CompleteMessage();
        NextMessage();
      }
    }

    method EofCase(ghost cfg: Config)
      requires Sane() && p < |data| && marks == NO_MARKS && state.BodyIdentityEof?
      modifies `p, cb
      ensures Sane() && p == |data| - 1
      ensures ReadAll(cfg, old(Here()), data[old(p)..p + 1]) == Here().(n := p + 1)
    {
      hide Apply, Observe, PendAll, ReadAll;
      ghost var from := p;
      EofBody(cfg, Here(), data[p..]);
      DeliverBody(|data| - p);
      assert data[from..p + 1] == data[from..];
    }

    method ChunkDataCase(ghost cfg: Config)
      requires Sane() && p < |data| && marks == NO_MARKS && Core(Abs()) && state == Chunk(ChunkData)
      modifies `p, `state, parser`contentLength, cb
      ensures Sane() && old(p) <= p < |data| && state.Chunk?
      ensures ReadAll(cfg, old(Here()), data[old(p)..p + 1]) == Here().(n := p + 1)
    {
      hide Apply, Observe, PendAll, ReadAll, Read, MethodString;
      assert parser.flags.chunked;
      ghost var from, r := p, Here();
      var toRead := if |data| - p < parser.contentLength then |data| - p else parser.contentLength;
      if toRead > 0 {
        ChunkBody(cfg, r, data[p..p + toRead]);
        DeliverBody(toRead);
        assert data[from..p + 1] == data[from..from + toRead];
      } else {
        NegativeChunk(cfg, r, data[p]);
        ReadOne(cfg, r, data[p]);
        assert data[from..p + 1] == [data[p]];
      }
      if toRead == parser.contentLength { state := Chunk(ChunkDataAlmostDone); }
      parser.contentLength := parser.contentLength - toRead;
    }

    // ---------- The loop body ----------

    /** The switch, except for the states that take bytes in bulk. */
    method SwitchCase(ch: byte) returns (sig: Signal)
      requires Ready(ch) && !Bulk()
      requires state == Chunk(ChunkSizeStart) ==> nread == 1
      modifies this, parser`kind, parser`flags, parser`contentLength, parser`httpMajor, parser`httpMinor,
        parser`statusCode, parser`verb, parser`upgrade, cb
      ensures p == old(p) && Did(sig, Dispatch(strict, old(Skips()), old(Abs()), ch), old(View()))
    {
      hide Apply, Observe, PendAll, Core, ObsInv, StepHead, StepChunk, StepMethod, StepStartReq, StepStartRes,
        StepStartReqOrRes, StepResOrRespH, StatusNext, UrlNext, VersionNext, MethodString, InfoOf, Follow;
      match state
      case Dead => return Error(CLOSED_CONNECTION);
      case StartReqOrRes => sig := StartCase(ch);
      case ResOrRespH => sig := ResponseOrHead(ch);
      case StartRes => sig := StartResponse(ch);
      case ResLine(at) => sig := StatusLine(at, ch);
      case StartReq => sig := StartCase(ch);
      case ReqMethod => sig := MethodCase(ch);
      case ReqUrl(at) => sig := UrlCase(at, ch);
      case ReqVersion(at) => sig := Version(at, ch);
      case Head(at) => sig := HeadCase(at, ch);
      case Chunk(at) => sig := ChunkCase(at, ch);
    }

    /** `++nread` and the header budget, for the byte about to be switched on. */
    method ChargeByte() returns (ok: bool)
      requires Inv(Abs())
      modifies `nread
      ensures Abs() == Charge(old(Abs()))
      ensures ok <==> !(ParsingHeader(state) && nread > HTTP_MAX_HEADER_SIZE)
      ensures ok ==> Core(Abs()) && (state == Chunk(ChunkSizeStart) ==> nread == 1)
    {
      hide MethodString, NameState, NameIndex, ValueState, ValueIndex;
      if ParsingHeader(state) {
        nread := nread + 1;
        if nread > HTTP_MAX_HEADER_SIZE { return false; }
      }
      return true;
    }

    /** The byte machine `r` has stopped here for the same reason, with the same observation. */
    ghost predicate Stopped(sig: Signal, r: Run)
      reads `p, `marks, parser, cb
    {
      && Sane() && r.o == View()
      && match sig
         case Proceed => false
         case Error(e) => r.status == Failed(e) && r.n == p && parser.kind == r.s.kind
         case Leave =>
           r.status.Exited? && r.n == p + 1 && parser.upgrade && marks == NO_MARKS && parser.kind == r.s.kind
    }

    /** One byte outside the bulk states. */
    method ByteCase(ghost cfg: Config) returns (sig: Signal)
      requires Sane() && p < |data| && MarksMatch(marks, state) && !Bulk()
      requires Inv(Abs()) && ObsInv(Abs(), View())
      requires cfg == Config(strict, cb.answer)
      modifies this, parser`kind, parser`flags, parser`contentLength, parser`httpMajor, parser`httpMinor,
        parser`statusCode, parser`verb, parser`upgrade, cb
      ensures p == old(p) && Sane()
      ensures sig.Proceed? ==> MarksMatch(marks, state)
      ensures sig.Proceed? ==>
        Read(cfg, old(Here()), data[p]) == Run(Running, Abs(), Feed(View(), state, data[p]), p + 1)
      ensures !sig.Proceed? ==> Stopped(sig, Read(cfg, old(Here()), data[p]))
    {
      hide Apply, Observe, PendAll, Dispatch, Feed, InfoOf, MethodString, Core;
      ghost var s, v := Abs(), View();
      assert InfoOf(Charge(s)) == InfoOf(s) by { SameInfo(s); }
      assert ObsInv(Charge(s), v) by { SameObs(s, v); }
      var ok := ChargeByte();
      if !ok { return Error(HEADER_OVERFLOW); }
      sig := SwitchCase(data[p]);
    }

    /** One turn of the loop, up to but not including `p++`. */
    method LoopBody(ghost cfg: Config) returns (sig: Signal)
      requires Sane() && p < |data| && MarksMatch(marks, state)
      requires Inv(Abs()) && ObsInv(Abs(), View())
      requires cfg == Config(strict, cb.answer)
      modifies this, parser`kind, parser`flags, parser`contentLength, parser`httpMajor, parser`httpMinor,
        parser`statusCode, parser`verb, parser`upgrade, cb
      ensures Sane() && old(p) <= p < |data| && (!sig.Proceed? ==> p == old(p))
      ensures sig.Proceed? ==> MarksMatch(marks, state)
      ensures sig.Proceed? ==>
        ReadAll(cfg, old(Here()), data[old(p)..p + 1])
        == Run(Running, Abs(), PendAll(Observe(cb.log), marks, data, p + 1), p + 1)
      ensures !sig.Proceed? ==> Stopped(sig, Read(cfg, old(Here()), data[p]))
    {
      hide Apply, Observe, PendAll, Read, ReadAll, Feed, MethodString, ObsInv;
      if state.BodyIdentity? {
        IdentityCase(cfg);
        NothingPends(Observe(cb.log), data, p);
        return Proceed;
      }
      if state.BodyIdentityEof? {
        EofCase(cfg);
        NothingPends(Observe(cb.log), data, p);
        return Proceed;
      }
      if state == Chunk(ChunkData) {
        ChunkDataCase(cfg);
        NothingPends(Observe(cb.log), data, p);
        return Proceed;
      }
      ghost var here := Here();
      sig := ByteCase(cfg);
      if sig.Proceed? {
        ReadOne(cfg, here, data[p]);
        assert data[p..p + 1] == [data[p]];
        Advance(Observe(cb.log), marks, state, data, p);
      }
    }

    /** The spans still open at the end of the buffer are delivered. */
    method Flush()
      requires Sane() && MarksMatch(marks, state) && ObsInv(Abs(), View())
      modifies `marks, cb
      ensures Sane() && View() == old(View()) == Observe(cb.log)
    {
      hide Apply, Observe, ObsInv, PendAll;
      forall k | MarkOf(marks, k).At? ensures Apply(View(), Data(k, [])) == View() {
        OpenSettled(Abs(), View(), marks, k);
      }
      if marks.field.At? { Callback(Field); }
      if marks.value.At? { Callback(Value); }
      if marks.fragment.At? { Callback(Fragment); }
      if marks.query.At? { Callback(Query); }
      if marks.path.At? { Callback(Path); }
      if marks.url.At? { Callback(Url); }
      AllDelivered(Observe(cb.log), data, p);
    }

    /** The locals go back into the parser. */
    method Save()
      requires InRange(Abs())
      modifies parser
      ensures parser.state.Live? && parser.Value() == Abs() == old(Abs())
    {
      parser.state := Live(state);
      parser.headerState := headerState;
      parser.index := index;
      parser.nread := nread;
    }
  }

  lemma StartKind(s: Parser)
    requires Core(s)
    ensures s.state.StartReqOrRes? ==> s.kind.Both?
  {
  }

  lemma SameInfo(s: Parser)
    ensures InfoOf(Charge(s)) == InfoOf(s)
  {
  }

  lemma SameObs(s: Parser, o: Obs)
    requires ObsInv(s, o)
    ensures ObsInv(Charge(s), o)
  {
    hide InHead, Announced, Open;
  }

  /** In a state without open spans nothing is pending, wherever the buffer position is. */
  lemma NothingPends(o: Obs, data: seq<byte>, q: nat)
    requires q < |data|
    ensures PendAll(o, NO_MARKS, data, q + 1) == PendAll(o, NO_MARKS, data, q) == o
  {
  }

  lemma AllDelivered(o: Obs, data: seq<byte>, q: nat)
    requires q <= |data|
    ensures PendAll(o, NO_MARKS, data, q) == o
  {
  }

  lemma NoSpanOpens(strict: bool, s: Parser)
    ensures MarksMatch(NO_MARKS, BodyFollows(strict, s).0) && MarksMatch(NO_MARKS, NewMessage(strict, s))
  {
  }

  // ---------- The call ----------

  /** The parser and its callbacks belong together: nothing but this parser has reported to them, and
      the caller has stopped after an upgrade. */
  ghost predicate Attached(parser: HttpParser, cb: Callbacks)
    reads parser, cb
  {
    parser.state.Live? ==> Inv(parser.Value()) && ObsInv(parser.Value(), Observe(cb.log))
  }

  /** A new parser and its callbacks. */
  ghost predicate JustInitialised(parser: HttpParser, cb: Callbacks, t: ParserType)
    reads parser, cb
  {
    parser.state.Live? && IsInit(parser.Value(), t) && cb.log == []
  }

  lemma InitAttached(parser: HttpParser, cb: Callbacks, t: ParserType)
    requires JustInitialised(parser, cb, t)
    ensures Attached(parser, cb)
  {
    InitOk(parser.Value(), t);
  }

  /** Feeding an empty buffer announces the end of the connection. */
  function EofEvents(s: Parser): seq<Event> {
    if s.state.BodyIdentityEof? then [Complete(s)] else []
  }

  predicate EofAllowed(st: State) { st.BodyIdentityEof? || st.Dead? || IsStart(st) }

  /** By what has been delivered: the end of a request's connection is in order exactly between messages. That of a
      response also before its status line, and in a body without a length. */
  predicate EndInOrder(s: Parser, o: Obs) {
    o.phase.Idle? || (s.kind.Response? && (s.state.StartRes? || (o.phase == Content(false) && s.contentLength < 0)))
  }

  lemma EofExactly(s: Parser, o: Obs)
    requires Inv(s) && ObsInv(s, o)
    ensures EofAllowed(s.state) <==> EndInOrder(s, o)
  {
    hide InRange, DoneOk, MethodString, NameState, ValueState, NameIndex, ValueIndex, DigitsOk, ShouldKeepAlive;
  }

  method ExecuteEof(parser: HttpParser, cb: Callbacks) returns (nparsed: nat)
    requires parser.state.Live?
    modifies parser`state, cb
    ensures nparsed == if EofAllowed(old(parser.state.state)) then 0 else 1
    ensures parser.state ==
      if EofAllowed(old(parser.state.state)) then old(parser.state) else Errored(INVALID_EOF_STATE)
    ensures cb.log == old(cb.log) + EofEvents(old(parser.Value()))
  {
    match parser.state.state {
      case BodyIdentityEof =>
        var ka := parser.KeepsAlive();
        cb.Call(MessageComplete(ka));
        return 0;
      case Dead => return 0;
      case StartReqOrRes => return 0;
      case StartRes => return 0;
      case StartReq => return 0;
      case _ =>
        parser.state := Errored(INVALID_EOF_STATE);
        return 1;
    }
  }

  /** The byte machine for this parser, as the buffer begins. */
  ghost function Entry(parser: HttpParser, cb: Callbacks): Run
    requires parser.state.Live?
    reads parser, cb
  {
    Run(Running, parser.Value(), Observe(cb.log), 0)
  }

  /** The parser and its callbacks are where the byte machine `r` is: the same saved parser and the same
      accumulated messages, or the same error, or the same messages before an upgrade. */
  ghost predicate Arrived(parser: HttpParser, cb: Callbacks, r: Run)
    reads parser, cb
  {
    && parser.kind == r.s.kind && Legal(parser.kind, Observe(cb.log))
    && match r.status
       case Running => parser.state.Live? && parser.Value() == r.s && Observe(cb.log) == r.o && Attached(parser, cb)
       case Failed(e) => parser.state == Errored(e)
       case Exited => parser.state.Live? && parser.upgrade && Observe(cb.log) == r.o
  }

  /** http_parser_execute on a non-empty buffer does exactly what the byte machine does, and returns the
      number of bytes it consumes. On an error the spans that were open at the failing byte are not
      delivered; `open` says where they start. */
  method ExecuteBuffer(strict: bool, parser: HttpParser, cb: Callbacks, data: seq<byte>)
    returns (nparsed: nat, ghost open: Marks)
    requires Attached(parser, cb) && parser.state.Live? && data != []
    modifies parser, cb
    ensures var r := ReadAll(Config(strict, cb.answer), old(Entry(parser, cb)), data);
      && nparsed == r.n && Arrived(parser, cb, r)
      && (r.status.Failed? ==>
            nparsed <= |data| && MarksBefore(open, nparsed) && PendAll(Observe(cb.log), open, data, nparsed) == r.o)
  {
    hide Apply, Observe, ObsInv, Inv, PendAll, Read, ReadAll, MarksMatch, Legal;
    ghost var cfg := Config(strict, cb.answer);
    ghost var r0 := Entry(parser, cb);
    var scan := new Scan(strict, parser, cb, data);
    open := NO_MARKS;
    StartReading(cfg, r0, data);
    while scan.p != |data|
      modifies scan, parser, cb
      invariant scan.Sane() && MarksMatch(scan.marks, scan.state) && parser.state.Live?
      invariant ReadAll(cfg, r0, data[..scan.p]) == scan.Here()
      decreases |data| - scan.p
    {
      ghost var q := scan.p;
      Reached(cfg, r0, data[..q]);
      var sig := scan.LoopBody(cfg);
      match sig {
        case Error(e) =>
          open := scan.marks;
          StopsAt(cfg, r0, data, q);
          Reached(cfg, r0, data);
          PendLegal(parser.kind, Observe(cb.log), open, data, q);
          parser.state := Errored(e);
          return scan.p, open;
        case Leave =>
          StopsAt(cfg, r0, data, q);
          Reached(cfg, r0, data);
          AllDelivered(Observe(cb.log), data, scan.p);
          return scan.p + 1, open;
        case Proceed =>
          ReadAllSplit(cfg, r0, data[..q], data[q..scan.p + 1]);
          assert data[..scan.p + 1] == data[..q] + data[q..scan.p + 1];
          StillBefore(scan.marks, scan.p);
          scan.p := scan.p + 1;
      }
    }
    assert data[..|data|] == data;
    Reached(cfg, r0, data);
    scan.Flush();
    scan.Save();
    return |data|, open;
  }

  /** http_parser_execute: nothing after an error, the end of the connection on an empty buffer, and
      otherwise the whole buffer. */
  method Execute(strict: bool, parser: HttpParser, cb: Callbacks, data: seq<byte>) returns (nparsed: nat)
    requires Attached(parser, cb)
    modifies parser, cb
    ensures old(parser.state).Errored? ==> nparsed == 0 && unchanged(parser) && unchanged(cb)
    ensures old(parser.state).Live? && data == [] ==>
      && nparsed == (if EofAllowed(old(parser.state).state) then 0 else 1)
      && parser.state == (if EofAllowed(old(parser.state).state) then old(parser.state) else Errored(INVALID_EOF_STATE))
      && cb.log == old(cb.log) + old(if parser.state.Live? then EofEvents(parser.Value()) else [])
      && (nparsed == 0 <==> old(parser.state.Live? && EndInOrder(parser.Value(), Observe(cb.log))))
    ensures old(parser.state).Live? && data != [] ==>
      var r := ReadAll(Config(strict, cb.answer), old(if parser.state.Live? then Entry(parser, cb) else NOWHERE), data);
      nparsed == r.n && Arrived(parser, cb, r)
  {
    hide ReadAll, Arrived;
    if parser.state.Errored? { return 0; }
    if data == [] {
      EofExactly(parser.Value(), Observe(cb.log));
      nparsed := ExecuteEof(parser, cb);
    } else {
      ghost var open;
      nparsed, open := ExecuteBuffer(strict, parser, cb, data);
    }
  }

  ghost const NOWHERE := Run(Failed(OK), Parser(Both, NO_FLAGS, Dead, General, 0, 0, 0, 0, 0, 0, DELETE, false),
      NO_OBS, 0)

  /** An input that arrives in pieces: execute is called on each until it fails or hands over the
      connection. However the input is cut, the outcome is that of reading it in one go. */
  method ExecutePieces(strict: bool, parser: HttpParser, cb: Callbacks, pieces: seq<seq<byte>>) returns (total: nat)
    requires Attached(parser, cb) && parser.state.Live?
    requires forall i :: 0 <= i < |pieces| ==> pieces[i] != []
    modifies parser, cb
    ensures var r := ReadAll(Config(strict, cb.answer), old(Entry(parser, cb)), Concat(pieces));
      total == r.n && Arrived(parser, cb, r)
  {
    hide ReadAll, Inv, Observe;
    ghost var cfg := Config(strict, cb.answer);
    ghost var r0 := Entry(parser, cb);
    total := 0;
    assert pieces[..0] == [];
    StartReading(cfg, r0, []);
    AttachedLegal(parser, cb);
    for i := 0 to |pieces|
      invariant parser.state.Live? && Attached(parser, cb)
      invariant ReadAll(cfg, r0, Concat(pieces[..i])) == Entry(parser, cb).(n := total)
    {
      hide Arrived;
      ghost var u := Entry(parser, cb);
      var nparsed := Execute(strict, parser, cb, pieces[i]);
      ConcatNext(pieces, i);
      ReadAllSplit(cfg, r0, Concat(pieces[..i]), pieces[i]);
      ShiftCount(cfg, u, pieces[i], total);
      total := total + nparsed;
      ghost var r := ReadAll(cfg, r0, Concat(pieces[..i + 1]));
      assert r == ReadAll(cfg, u, pieces[i]).(n := total);
      ArrivedShift(parser, cb, ReadAll(cfg, u, pieces[i]), total);
      ArrivedMeans(parser, cb, r);
      if parser.state.Errored? || parser.upgrade {
        RestUnread(cfg, r0, pieces, i + 1);
        return;
      }
    }
    assert pieces[..|pieces|] == pieces;
    AttachedLegal(parser, cb);
  }

  lemma AttachedLegal(parser: HttpParser, cb: Callbacks)
    requires Attached(parser, cb) && parser.state.Live?
    ensures Legal(parser.kind, Observe(cb.log))
  {
    ObsLegal(parser.Value(), Observe(cb.log));
  }

  lemma ArrivedShift(parser: HttpParser, cb: Callbacks, r: Run, n: nat)
    requires Arrived(parser, cb, r)
    ensures Arrived(parser, cb, r.(n := n))
  {
  }

  lemma ArrivedMeans(parser: HttpParser, cb: Callbacks, r: Run)
    requires Arrived(parser, cb, r)
    ensures r.status.Running? <==> parser.state.Live? && !parser.upgrade
    ensures r.status.Running? ==> parser.state.Live? && r == Entry(parser, cb).(n := r.n) && Attached(parser, cb)
  {
    hide StateOk, ObsInv;
  }

  /** Once the machine has stopped, the remaining pieces do not matter. */
  lemma RestUnread(cfg: Config, r: Run, pieces: seq<seq<byte>>, i: nat)
    requires i <= |pieces| && !ReadAll(cfg, r, Concat(pieces[..i])).status.Running?
    ensures ReadAll(cfg, r, Concat(pieces)) == ReadAll(cfg, r, Concat(pieces[..i]))
  {
    hide ReadAll;
    ConcatSplit(pieces[..i], pieces[i..]);
    assert pieces == pieces[..i] + pieces[i..];
    ReadAllSplit(cfg, r, Concat(pieces[..i]), Concat(pieces[i..]));
    StoppedStays(cfg, ReadAll(cfg, r, Concat(pieces[..i])), Concat(pieces[i..]));
  }

  /** Span data neither begins nor completes a message, and repairs nothing. */
  predicate OnlyData(o: Obs, v: Obs) {
    v.done == o.done && v.cur.begins == o.cur.begins && (o.phase.Rejected? ==> v.phase.Rejected?)
  }

  lemma PendOne(o: Obs, k: Span, m: Mark, data: seq<byte>, q: nat)
    requires q <= |data| && Before(m, q)
    ensures OnlyData(o, Pend(o, k, m, data, q))
  {
  }

  lemma PendBegins(o: Obs, mk: Marks, data: seq<byte>, q: nat)
    requires q <= |data| && MarksBefore(mk, q)
    ensures OnlyData(o, PendAll(o, mk, data, q))
  {
    hide Pend;
    PendOne(o, Url, mk.url, data, q);
    var o1 := Pend(o, Url, mk.url, data, q);
    PendOne(o1, Path, mk.path, data, q);
    var o2 := Pend(o1, Path, mk.path, data, q);
    PendOne(o2, Query, mk.query, data, q);
    var o3 := Pend(o2, Query, mk.query, data, q);
    PendOne(o3, Fragment, mk.fragment, data, q);
    var o4 := Pend(o3, Fragment, mk.fragment, data, q);
    PendOne(o4, Field, mk.field, data, q);
    PendOne(Pend(o4, Field, mk.field, data, q), Value, mk.value, data, q);
  }

  lemma PendLegal(kind: ParserType, o: Obs, mk: Marks, data: seq<byte>, q: nat)
    requires q <= |data| && MarksBefore(mk, q) && Legal(kind, PendAll(o, mk, data, q))
    ensures Legal(kind, o)
  {
    hide DoneOk, PendAll;
    PendBegins(o, mk, data, q);
  }

  lemma StartReading(cfg: Config, r: Run, data: seq<byte>)
    ensures ReadAll(cfg, r, data[..0]) == r
  {
    assert data[..0] == [];
  }

  lemma StillBefore(mk: Marks, q: nat)
    requires MarksBefore(mk, q)
    ensures MarksBefore(mk, q + 1)
  {
  }

  /** Invariants at a point the byte machine has reached. */
  lemma Reached(cfg: Config, r: Run, bytes: seq<byte>)
    requires r.status.Running? && Inv(r.s) && ObsInv(r.s, r.o)
    ensures var t := ReadAll(cfg, r, bytes); t.status.Running? ==> Inv(t.s) && ObsInv(t.s, t.o) && InRange(t.s)
    ensures var t := ReadAll(cfg, r, bytes); Legal(t.s.kind, t.o)
  {
    hide MethodString, Step;
    ObsLegal(r.s, r.o);
    ReadAllKeeps(cfg, r, bytes);
  }

  lemma StopsAt(cfg: Config, r: Run, data: seq<byte>, q: nat)
    requires q < |data| && !Read(cfg, ReadAll(cfg, r, data[..q]), data[q]).status.Running?
    ensures ReadAll(cfg, r, data) == Read(cfg, ReadAll(cfg, r, data[..q]), data[q])
  {
    hide Read;
    ReadOne(cfg, ReadAll(cfg, r, data[..q]), data[q]);
    ReadAllSplit(cfg, r, data[..q], [data[q]]);
    ReadAllSplit(cfg, r, data[..q] + [data[q]], data[q + 1..]);
    StoppedStays(cfg, ReadAll(cfg, r, data[..q] + [data[q]]), data[q + 1..]);
    assert data == data[..q] + [data[q]] + data[q + 1..];
  }
}
