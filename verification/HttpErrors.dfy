/** Which byte is an error in which place, and which error it is. */
module HttpErrors {
  import opened Bytes
  import opened HttpChars
  import opened HttpTypes
  import opened HttpStep
  import opened HttpInvariants
  import opened HttpBody
  import opened HttpMethods
  import opened HttpHeaderLines
  import opened HttpBudget

  // ---------- What each place accepts ----------

  /** A place where a strict parser wants one byte, and any other takes every byte. */
  predicate Only(strict: bool, b: byte, wanted: byte) { strict ==> b == wanted }

  predicate IsEolByte(b: byte) { b == CR || b == LF }

  /** The digit `b` makes a number of three digits at most. */
  predicate OneMore(v: nat, b: byte) { IsNum(b) && v * 10 + (b - DIGIT_0) <= 999 }

  /** The bytes that can follow `p` in the name of a method, or the space behind a whole one. */
  ghost predicate Continues(p: seq<byte>, b: byte) {
    exists m :: if b == SP then MethodString(m) == p else p + [b] <= MethodString(m)
  }

  predicate StatusAccepts(strict: bool, at: ResLineState, s: Parser, b: byte) {
    match at
    case ResH => Only(strict, b, T_)
    case ResHT => Only(strict, b, T_)
    case ResHTT => Only(strict, b, P_)
    case ResHTTP => Only(strict, b, SLASH)
    case ResFirstHttpMajor => IsNum(b) && b != DIGIT_0
    case ResHttpMajor => b == DOT || OneMore(s.major, b)
    case ResFirstHttpMinor => IsNum(b)
    case ResHttpMinor => b == SP || OneMore(s.minor, b)
    case ResFirstStatusCode => b == SP || IsNum(b)
    case ResStatusCode => b == SP || IsEolByte(b) || OneMore(s.status, b)
    case ResStatus => true
    case ResLineAlmostDone => Only(strict, b, LF)
  }

  predicate UrlAccepts(strict: bool, at: UrlState, connect: bool, b: byte) {
    match at
    case ReqSpacesBeforeUrl => b == SP || b == SLASH || b == STAR || IsAlpha(b) || (connect && IsNum(b))
    case ReqSchema => IsAlpha(b) || b == COLON
    case ReqSchemaSlash => Only(strict, b, SLASH)
    case ReqSchemaSlashSlash => Only(strict, b, SLASH)
    case ReqHost => IsHostChar(strict, b) || b == COLON || b == SLASH || b == SP || b == QUESTION
    case ReqPort => IsNum(b) || b == SLASH || b == SP || b == QUESTION
    // Behind the path: every URL character, every mark, and the end of the target.
    case _ => IsUrlChar(strict, b) || b == QUESTION || b == HASH || b == SP || IsEolByte(b)
  }

  predicate VersionAccepts(strict: bool, at: VersionState, s: Parser, b: byte) {
    match at
    case ReqHttpStart => b == H_ || b == SP
    case ReqHttpH => Only(strict, b, T_)
    case ReqHttpHT => Only(strict, b, T_)
    case ReqHttpHTT => Only(strict, b, P_)
    case ReqHttpHTTP => Only(strict, b, SLASH)
    case ReqFirstHttpMajor => IsNum(b) && b != DIGIT_0
    case ReqHttpMajor => b == DOT || OneMore(s.major, b)
    case ReqFirstHttpMinor => IsNum(b)
    case ReqHttpMinor => IsEolByte(b) || OneMore(s.minor, b)
    case ReqLineAlmostDone => b == LF
  }

  /** In a header a length takes digits and spaces, and any other value takes everything. */
  predicate HeadAccepts(strict: bool, at: HeadState, s: Parser, b: byte) {
    match at
    case HeaderFieldStart => IsEolByte(b) || Token(b) != 0
    case HeaderField => IsEolByte(b) || b == COLON || Token(b) != 0
    case HeaderValueStart => s.hs.ContentLength? ==> IsEolByte(b) || b == SP || b == TAB || IsNum(b)
    case HeaderValue => s.hs.ContentLength? ==> IsEolByte(b) || b == SP || IsNum(b)
    case HeaderValueLws => IsEolByte(b) || b == TAB || Token(b) != 0
    case HeaderAlmostDone => Only(strict, b, LF)
    case HeadersAlmostDone => Only(strict, b, LF)
  }

  predicate ChunkAccepts(strict: bool, at: ChunkState, b: byte) {
    match at
    case ChunkSizeStart => Unhex(b) != -1
    case ChunkSize => Unhex(b) != -1 || b == CR || b == SEMICOLON || b == SP
    case ChunkParameters => true
    case ChunkSizeAlmostDone => Only(strict, b, LF)
    case ChunkData => true
    case ChunkDataAlmostDone => Only(strict, b, CR)
    case ChunkDataDone => Only(strict, b, LF)
  }

  /** The next byte is one that may come here, outside a method. */
  ghost predicate Accepts(strict: bool, s: Parser, b: byte)
    requires !s.state.ReqMethod?
  {
    match s.state
    case Dead => false
    case StartReqOrRes => IsEolByte(b) || Continues([], b)
    case ResOrRespH => b == T_ || b == E_
    case StartRes => IsEolByte(b) || b == H_
    case ResLine(at) => StatusAccepts(strict, at, s, b)
    case StartReq => IsEolByte(b) || Continues([], b)
    case ReqUrl(at) => UrlAccepts(strict, at, s.verb.CONNECT?, b)
    case ReqVersion(at) => VersionAccepts(strict, at, s, b)
    case Head(at) => HeadAccepts(strict, at, s, b)
    case Chunk(at) => ChunkAccepts(strict, at, b)
    case BodyIdentity => true
    case BodyIdentityEof => true
  }

  // ---------- Which error it is otherwise ----------

  function StatusError(at: ResLineState): Errno {
    match at
    case ResFirstHttpMajor => INVALID_VERSION
    case ResHttpMajor => INVALID_VERSION
    case ResFirstHttpMinor => INVALID_VERSION
    case ResHttpMinor => INVALID_VERSION
    case ResFirstStatusCode => INVALID_STATUS
    case ResStatusCode => INVALID_STATUS
    case _ => STRICT
  }

  function UrlError(at: UrlState): Errno {
    match at
    case ReqSpacesBeforeUrl => INVALID_URL
    case ReqSchema => INVALID_URL
    case ReqSchemaSlash => STRICT
    case ReqSchemaSlashSlash => STRICT
    case ReqHost => INVALID_HOST
    case ReqPort => INVALID_PORT
    case ReqPath => INVALID_PATH
    case ReqQueryStringStart => INVALID_QUERY_STRING
    case ReqQueryString => INVALID_QUERY_STRING
    case ReqFragmentStart => INVALID_FRAGMENT
    case ReqFragment => INVALID_FRAGMENT
  }

  function VersionError(at: VersionState): Errno {
    match at
    case ReqHttpStart => INVALID_CONSTANT
    case ReqFirstHttpMajor => INVALID_VERSION
    case ReqHttpMajor => INVALID_VERSION
    case ReqFirstHttpMinor => INVALID_VERSION
    case ReqHttpMinor => INVALID_VERSION
    case ReqLineAlmostDone => LF_EXPECTED
    case _ => STRICT
  }

  function HeadError(at: HeadState): Errno {
    match at
    case HeaderValueStart => INVALID_CONTENT_LENGTH
    case HeaderValue => INVALID_CONTENT_LENGTH
    case HeaderAlmostDone => STRICT
    case HeadersAlmostDone => STRICT
    case _ => INVALID_HEADER_TOKEN
  }

  function ErrorAt(s: Parser): Errno
    requires !s.state.ReqMethod?
  {
    match s.state
    case Dead => CLOSED_CONNECTION
    case StartReqOrRes => INVALID_METHOD
    case ResOrRespH => INVALID_CONSTANT
    case StartRes => INVALID_CONSTANT
    case ResLine(at) => StatusError(at)
    case StartReq => INVALID_METHOD
    case ReqUrl(at) => UrlError(at)
    case ReqVersion(at) => VersionError(at)
    case Head(at) => HeadError(at)
    case Chunk(at) => if at.ChunkSizeStart? || at.ChunkSize? then INVALID_CHUNK_SIZE else STRICT
    case BodyIdentity => OK
    case BodyIdentityEof => OK
  }

  // ---------- Every place ----------

  lemma StatusErrors(strict: bool, at: ResLineState, s: Parser, b: byte)
    ensures var mv := StatusNext(strict, at, s.major, s.minor, s.status, b);
      (mv.Bad? <==> !StatusAccepts(strict, at, s, b)) && (mv.Bad? ==> mv.e == StatusError(at))
  {
  }

  lemma UrlErrors(strict: bool, at: UrlState, connect: bool, b: byte)
    ensures var mv := UrlNext(strict, at, connect, b);
      (mv.Bad? <==> !UrlAccepts(strict, at, connect, b)) && (mv.Bad? ==> mv.e == UrlError(at))
  {
  }

  lemma VersionErrors(strict: bool, at: VersionState, s: Parser, b: byte)
    ensures var mv := VersionNext(strict, at, s.major, s.minor, b);
      (mv.Bad? <==> !VersionAccepts(strict, at, s, b)) && (mv.Bad? ==> mv.e == VersionError(at))
  {
  }

  lemma HeadErrors(strict: bool, skip: bool, s: Parser, b: byte)
    requires s.state.Head?
    ensures var out := StepHead(strict, skip, s, s.state.head, b).out;
      (out.Fail? <==> !HeadAccepts(strict, s.state.head, s, b)) && (out.Fail? ==> out.e == HeadError(s.state.head))
  {
    hide NameChar, Lower, Match, Wrap64, ShouldKeepAlive, FirstNameState, BodyFollows, InfoOf, Token;
    TokenFacts();
    assert Token(SP) != 0 by { SpaceIsToken(); }
  }

  lemma SpaceIsToken()
    ensures Token(SP) == SP && Token(TAB) == 0
  {
  }

  lemma ChunkErrors(strict: bool, s: Parser, b: byte)
    requires s.state.Chunk?
    ensures var out := StepChunk(strict, s, s.state.chunk, b).out; var at := s.state.chunk;
      && (out.Fail? <==> !ChunkAccepts(strict, at, b))
      && (out.Fail? ==> out.e == if at.ChunkSizeStart? || at.ChunkSize? then INVALID_CHUNK_SIZE else STRICT)
  {
    hide Unhex, Wrap64;
  }

  lemma FirstErrors(b: byte)
    ensures FirstMethod(b) != [] <==> Continues([], b)
    ensures FirstMethod(b) != [] ==> IsAlpha(b)
  {
    hide MethodString;
    if FirstMethod(b) != [] {
      FirstSound(b);
      MethodBytes(FirstMethod(b)[0]);
      assert [] + [b] <= MethodString(FirstMethod(b)[0]);
      FirstLetters(b);
    }
    if m: Method :| if b == SP then MethodString(m) == [] else [] + [b] <= MethodString(m) {
      MethodBytes(m);
      FirstByte(m);
      assert b != SP ==> MethodString(m)[0] == b;
    }
  }

  lemma FirstLetters(b: byte)
    requires FirstMethod(b) != []
    ensures IsAlpha(b) && b != SP
  {
  }

  /** In every place but the method: within the header budget a byte is an error exactly if it may not come there, and
      then the error of that place. */
  lemma ErrorExactly(strict: bool, skip: bool, s: Parser, b: byte)
    requires !s.state.ReqMethod? && (ParsingHeader(s.state) ==> s.nread + 1 <= HTTP_MAX_HEADER_SIZE)
    ensures var out := Step(strict, skip, s, b).out;
      (out.Fail? <==> !Accepts(strict, s, b)) && (out.Fail? ==> out.e == ErrorAt(s))
  {
    hide StatusNext, UrlNext, VersionNext, StepHead, StepChunk, FirstMethod, Continues, StatusAccepts, UrlAccepts,
      VersionAccepts, HeadAccepts, ChunkAccepts, ShouldKeepAlive;
    var s1 := Charge(s);
    match s.state
    case ResLine(at) => StatusErrors(strict, at, s1, b); SameNumbers(strict, at, ReqHttpStart, HeaderField, s, s1, b);
    case ReqUrl(at) => UrlErrors(strict, at, s.verb.CONNECT?, b);
    case ReqVersion(at) => VersionErrors(strict, at, s1, b); SameNumbers(strict, ResH, at, HeaderField, s, s1, b);
    case Head(at) => HeadErrors(strict, skip, s1, b); SameNumbers(strict, ResH, ReqHttpStart, at, s, s1, b);
    case Chunk(_) => ChunkErrors(strict, s1, b);
    case BodyIdentity =>
    case BodyIdentityEof =>
    case _ => StartErrors(strict, skip, s1, b);
  }

  lemma StartErrors(strict: bool, skip: bool, s: Parser, b: byte)
    requires s.state.Dead? || s.state.StartReqOrRes? || s.state.ResOrRespH? || s.state.StartRes? || s.state.StartReq?
    ensures var out := Dispatch(strict, skip, s, b).out;
      (out.Fail? <==> !Accepts(strict, s, b)) && (out.Fail? ==> out.e == ErrorAt(s))
  {
    hide FirstMethod, Continues;
    FirstErrors(b);
    HeadersBegin();
  }

  /** A byte that begins HTTP also begins a method. */
  lemma HeadersBegin()
    ensures FirstMethod(H_) != []
  {
  }

  lemma SameNumbers(strict: bool, res: ResLineState, ver: VersionState, head: HeadState, s: Parser, t: Parser, b: byte)
    requires t == s.(nread := t.nread)
    ensures StatusAccepts(strict, res, t, b) == StatusAccepts(strict, res, s, b)
    ensures VersionAccepts(strict, ver, t, b) == VersionAccepts(strict, ver, s, b)
    ensures HeadAccepts(strict, head, t, b) == HeadAccepts(strict, head, s, b)
  {
  }

  // ---------- A lenient parser ----------

  /** The places where a strict parser wants one byte, and which. */
  function Wanted(st: State): seq<byte> {
    match st
    case ResLine(at) => (match at
                         case ResH => [T_] case ResHT => [T_] case ResHTT => [P_] case ResHTTP => [SLASH]
                         case ResLineAlmostDone => [LF] case _ => [])
    case ReqUrl(at) => if at.ReqSchemaSlash? || at.ReqSchemaSlashSlash? then [SLASH] else []
    case ReqVersion(at) => (match at
                            case ReqHttpH => [T_] case ReqHttpHT => [T_] case ReqHttpHTT => [P_]
                            case ReqHttpHTTP => [SLASH] case _ => [])
    case Head(at) => if at.HeaderAlmostDone? || at.HeadersAlmostDone? then [LF] else []
    case Chunk(at) => (match at
                       case ChunkSizeAlmostDone => [LF] case ChunkDataAlmostDone => [CR] case ChunkDataDone => [LF]
                       case _ => [])
    case _ => []
  }

  /** There a lenient parser takes any byte for the one that is wanted. */
  lemma AnyByte(skip: bool, s: Parser, b: byte)
    requires Wanted(s.state) != []
    ensures Step(false, skip, s, b) == Step(false, skip, s, Wanted(s.state)[0])
  {
    hide BodyFollows, InfoOf, ShouldKeepAlive;
  }

  // ---------- Inside a method ----------

  /** A word that begins like CONNECT or MKCOL, or is P, leaves no error number behind, which is then the unknown
      one. */
  predicate Unnumbered(p: seq<byte>, b: byte) {
    b != 0 && (p <= MethodString(CONNECT) || p <= MethodString(MKCOL) || p == [P_])
  }

  /** How the automaton stands after the word `p`. */
  lemma AfterWord(cfg: Config, r: Run, p: seq<byte>, m: Method)
    requires r.status.Running? && r.s.state.StartReq? && p != [] && p <= MethodString(m)
    requires r.s.nread + |p| <= HTTP_MAX_HEADER_SIZE
    ensures var t := ReadAll(cfg, r, p);
      && t.status.Running? && t.s.state.ReqMethod? && t.s.verb == Candidate(m, |p|) && t.s.index == |p|
      && t.s.nread == r.s.nread + |p| && p <= MethodString(t.s.verb)
  {
    hide MethodString, Candidate, ReadAll;
    assert MethodString(m)[..|p|] == p;
    ReadsName(cfg, r, m, |p|);
    NoBlanks(p, m);
    ConsumedPrefix(cfg, r, p);
  }

  lemma NoBlanks(p: seq<byte>, m: Method)
    requires p != [] && p <= MethodString(m)
    ensures p[0] != CR && p[0] != LF && SP !in p
  {
    hide MethodString;
    MethodBytes(m);
    FirstByte(m);
    assert p[0] == MethodString(m)[0];
    assert forall i :: 0 <= i < |p| ==> p[i] in MethodString(m);
  }

  /** Behind the beginning `p` of a method name: a byte is an error exactly if no name goes on with it (and the word is
      no name that ends there), and the number of the error tells the words of `Unnumbered` from the others. */
  lemma MethodErrors(cfg: Config, r: Run, p: seq<byte>, n: Method, b: byte)
    requires r.status.Running? && r.s.state.StartReq? && p != [] && p <= MethodString(n)
    requires r.s.nread + |p| + 1 <= HTTP_MAX_HEADER_SIZE
    ensures var t := Read(cfg, ReadAll(cfg, r, p), b);
      t.status == if Continues(p, b) then Running else Failed(if Unnumbered(p, b) then UNKNOWN else INVALID_METHOD)
  {
    hide MethodString, Candidate, ReadAll, Read, Switch;
    AfterWord(cfg, r, p, n);
    var u := ReadAll(cfg, r, p);
    var w := MethodString(u.s.verb);
    assert w[..|p|] == p;
    if Continues(p, b) { GoesOn(cfg, r, p, b); } else { Stops(cfg, u, p, b); WhichVerb(cfg, r, p); }
  }

  lemma GoesOn(cfg: Config, r: Run, p: seq<byte>, b: byte)
    requires r.status.Running? && r.s.state.StartReq? && p != [] && Continues(p, b)
    requires r.s.nread + |p| + 1 <= HTTP_MAX_HEADER_SIZE
    ensures Read(cfg, ReadAll(cfg, r, p), b).status.Running?
  {
    hide MethodString, Candidate, Read, Switch;
    var m: Method :| if b == SP then MethodString(m) == p else p + [b] <= MethodString(m);
    if b == SP {
      AfterWord(cfg, r, p, m);
      FirstByte(m);
      var u := ReadAll(cfg, r, p);
      SpaceEnds(cfg, u);
    } else {
      AfterWord(cfg, r, p + [b], m);
      assert (p + [b])[..|p|] == p;
    }
  }

  lemma SpaceEnds(cfg: Config, r: Run)
    requires r.status.Running? && r.s.state.ReqMethod? && r.s.index == |MethodString(r.s.verb)|
    requires r.s.nread + 1 <= HTTP_MAX_HEADER_SIZE
    ensures Read(cfg, r, SP).status.Running?
  {
    hide MethodString, Switch;
  }

  /** The error inside a method, by the candidate. */
  function VerbError(verb: Method, index: nat, b: byte): Errno {
    if b != 0 && (verb.CONNECT? || verb.MKCOL? || (verb.POST? && index == 1)) then UNKNOWN else INVALID_METHOD
  }

  /** A byte that is the candidate's, or another's, goes on. */
  lemma NextContinues(p: seq<byte>, b: byte, m: Method)
    requires p <= MethodString(m)
    ensures |p| < |MethodString(m)| && b == MethodString(m)[|p|] ==> Continues(p, b)
    ensures b == SP && |p| == |MethodString(m)| ==> Continues(p, b)
    ensures Switch(m, |p|, b) != [] ==> Continues(p, b)
  {
    hide MethodString, Switch;
    var w := MethodString(m);
    MethodBytes(m);
    assert w[..|p|] == p;
    if |p| < |w| && b == w[|p|] { assert p + [b] == w[..|p| + 1]; }
    if Switch(m, |p|, b) != [] {
      SwitchSound(m, |p|, b);
      MethodBytes(Switch(m, |p|, b)[0]);
      var v := MethodString(Switch(m, |p|, b)[0]);
      assert p + [b] == v[..|p| + 1];
    }
  }

  /** A byte that is neither. */
  lemma Stops(cfg: Config, r: Run, p: seq<byte>, b: byte)
    requires r.status.Running? && r.s.state.ReqMethod? && r.s.nread + 1 <= HTTP_MAX_HEADER_SIZE
    requires r.s.index == |p| && p <= MethodString(r.s.verb) && !Continues(p, b)
    ensures Read(cfg, r, b).status == Failed(VerbError(r.s.verb, r.s.index, b))
  {
    hide MethodString, Switch, Read;
    NextContinues(p, b, r.s.verb);
    MethodStops(cfg, r, b);
  }

  lemma MethodStops(cfg: Config, r: Run, b: byte)
    requires r.status.Running? && r.s.state.ReqMethod? && r.s.nread + 1 <= HTTP_MAX_HEADER_SIZE
    requires var w := MethodString(r.s.verb);
      !(b == SP && r.s.index == |w|) && !(r.s.index < |w| && b == w[r.s.index] && b != 0)
    requires Switch(r.s.verb, r.s.index, b) == []
    ensures Read(cfg, r, b).status == Failed(VerbError(r.s.verb, r.s.index, b))
  {
    hide MethodString, Switch, InfoOf, Apply;
  }

  /** The candidate is CONNECT, MKCOL or POST exactly for the beginnings of these words that begin no other. */
  lemma WhichVerb(cfg: Config, r: Run, p: seq<byte>)
    requires r.status.Running? && r.s.state.StartReq? && p != [] && r.s.nread + |p| <= HTTP_MAX_HEADER_SIZE
    requires var u := ReadAll(cfg, r, p); u.s.index == |p| && p <= MethodString(u.s.verb)
    ensures var u := ReadAll(cfg, r, p);
      u.s.verb.CONNECT? || u.s.verb.MKCOL? || (u.s.verb.POST? && u.s.index == 1)
      <==> p <= MethodString(CONNECT) || p <= MethodString(MKCOL) || p == [P_]
  {
    hide MethodString, ReadAll;
    if p <= MethodString(CONNECT) { AfterWord(cfg, r, p, CONNECT); }
    if p <= MethodString(MKCOL) { AfterWord(cfg, r, p, MKCOL); }
    PostBegins();
    if p == [P_] { AfterWord(cfg, r, p, POST); }
    assert |p| == 1 && p <= MethodString(POST) ==> p == [MethodString(POST)[0]];
  }

  lemma PostBegins()
    ensures |MethodString(POST)| > 0 && MethodString(POST)[0] == P_ && [P_] <= MethodString(POST)
  {
  }
}
