/** After a completed message the parser behaves like a fresh one. */
module HttpPipeline {
  import opened Bytes
  import opened HttpChars
  import opened HttpTypes
  import opened HttpStep
  import opened HttpInvariants
  import opened HttpTrace
  import opened HttpBody

  // ---------- Which fields still matter ----------

  predicate HasMajor(st: State) {
    match st
    case ResLine(at) => !(at.ResH? || at.ResHT? || at.ResHTT? || at.ResHTTP? || at.ResFirstHttpMajor?)
    case ReqVersion(at) =>
      !(at.ReqHttpStart? || at.ReqHttpH? || at.ReqHttpHT? || at.ReqHttpHTT? || at.ReqHttpHTTP? || at.ReqFirstHttpMajor?)
    case Head(_) => true
    case Chunk(_) => true
    case BodyIdentity => true
    case BodyIdentityEof => true
    case _ => false
  }

  predicate HasMinor(st: State) {
    HasMajor(st) && st != ResLine(ResHttpMajor) && st != ResLine(ResFirstHttpMinor)
    && st != ReqVersion(ReqHttpMajor) && st != ReqVersion(ReqFirstHttpMinor)
  }

  predicate HasStatus(st: State) {
    match st
    case ResLine(at) => at.ResStatusCode? || at.ResStatus? || at.ResLineAlmostDone?
    case Head(_) => true
    case Chunk(_) => true
    case BodyIdentity => true
    case BodyIdentityEof => true
    case _ => false
  }

  predicate HasMatch(st: State) { st.Head? && !st.head.HeaderFieldStart? && !st.head.HeadersAlmostDone? }

  /** Two parsers that differ at most in fields that will be overwritten before they are read. */
  predicate Same(s: Parser, t: Parser) {
    var st := s.state;
    && t.state == st && t.kind == s.kind && t.nread == s.nread
    && (!IsStart(st) && !st.Dead? ==> t.flags == s.flags && t.contentLength == s.contentLength && t.verb == s.verb)
    && (st.ReqMethod? || st == Head(HeaderField) || st == Head(HeaderValue) ==> t.index == s.index)
    && (HasMatch(st) ==> t.hs == s.hs)
    && (HasMajor(st) ==> t.major == s.major)
    && (HasMinor(st) ==> t.minor == s.minor)
    && (HasStatus(st) && !s.kind.Request? ==> t.status == s.status)
  }

  predicate SameMove(m: Move, k: Move) {
    k.out == m.out && k.evs == m.evs && (m.out.Continue? ==> Same(m.s, k.s))
  }

  lemma SameStart(s: Parser, t: Parser, b: byte)
    requires Same(s, t) && Core(s) && Core(t)
    ensures s.state.StartReqOrRes? ==> SameMove(StepStartReqOrRes(s, b), StepStartReqOrRes(t, b))
    ensures s.state.ResOrRespH? ==> SameMove(StepResOrRespH(s, b), StepResOrRespH(t, b))
    ensures s.state.StartRes? ==> SameMove(StepStartRes(s, b), StepStartRes(t, b))
    ensures s.state.StartReq? ==> SameMove(StepStartReq(s, b), StepStartReq(t, b))
    ensures s.state.ReqMethod? ==> SameMove(StepMethod(s, b), StepMethod(t, b))
  {
    hide MethodString, Switch, FirstMethod;
  }

  /** A move never reaches a state that reads a field which has not been set on the way. */
  predicate SetsFirst(st: State, kind: ParserType, mv: LineMove) {
    match mv
    case Bad(_) => true
    case Goto(to) =>
      && !IsStart(to) && !to.Dead? && to != ReqMethod && !HasMatch(to)
      && (HasMajor(to) ==> HasMajor(st)) && (HasMinor(to) ==> HasMinor(st))
      && (HasStatus(to) && !kind.Request? ==> HasStatus(st))
    case SetMajor(_, to) => !to.Head? && !IsStart(to) && !to.ReqMethod? && !HasMinor(to) && !HasStatus(to)
    case SetMinor(_, to) => !to.Head? && !IsStart(to) && !to.ReqMethod? && HasMajor(st) && !HasStatus(to)
    case SetStatus(_, to) => !to.Head? && !IsStart(to) && !to.ReqMethod? && HasMajor(st) && HasMinor(st)
    case Http09(to) => !IsStart(to) && !to.ReqMethod? && !HasMatch(to) && (HasStatus(to) ==> kind.Request?)
  }

  lemma StatusSets(strict: bool, at: ResLineState, major: nat, minor: nat, status: nat, b: byte)
    ensures SetsFirst(ResLine(at), Response, StatusNext(strict, at, major, minor, status, b))
  {
  }

  lemma UrlSets(strict: bool, at: UrlState, connect: bool, b: byte)
    ensures SetsFirst(ReqUrl(at), Request, UrlNext(strict, at, connect, b))
  {
    hide IsUrlChar, IsHostChar, IsAlpha;
  }

  lemma VersionSets(strict: bool, at: VersionState, major: nat, minor: nat, b: byte)
    ensures SetsFirst(ReqVersion(at), Request, VersionNext(strict, at, major, minor, b))
  {
  }

  lemma FollowSame(s: Parser, t: Parser, mv: LineMove)
    requires Same(s, t) && (s.state.ResLine? || s.state.ReqUrl? || s.state.ReqVersion?)
        && SetsFirst(s.state, s.kind, mv)
    ensures SameMove(Follow(s, mv), Follow(t, mv))
  {
    hide HasMajor, HasMinor, HasStatus;
  }

  lemma SameStatus(strict: bool, s: Parser, t: Parser, at: ResLineState, b: byte)
    requires Same(s, t) && s.state == ResLine(at) && s.kind.Response?
    ensures SameMove(Follow(s, StatusNext(strict, at, s.major, s.minor, s.status, b)),
                     Follow(t, StatusNext(strict, at, t.major, t.minor, t.status, b)))
  {
    hide SetsFirst, Follow, MoreDigits, SameMove;
    StatusSets(strict, at, s.major, s.minor, s.status, b);
    FollowSame(s, t, StatusNext(strict, at, s.major, s.minor, s.status, b));
  }

  lemma SameUrl(strict: bool, s: Parser, t: Parser, at: UrlState, b: byte)
    requires Same(s, t) && s.state == ReqUrl(at) && s.kind.Request?
    ensures SameMove(Follow(s, UrlNext(strict, at, s.verb.CONNECT?, b)),
        Follow(t, UrlNext(strict, at, t.verb.CONNECT?, b)))
  {
    hide UrlNext, Follow, SetsFirst, SameMove;
    UrlSets(strict, at, s.verb.CONNECT?, b);
    FollowSame(s, t, UrlNext(strict, at, s.verb.CONNECT?, b));
  }

  lemma SameVersion(strict: bool, s: Parser, t: Parser, at: VersionState, b: byte)
    requires Same(s, t) && s.state == ReqVersion(at) && s.kind.Request?
    ensures SameMove(Follow(s, VersionNext(strict, at, s.major, s.minor, b)),
                     Follow(t, VersionNext(strict, at, t.major, t.minor, b)))
  {
    hide SetsFirst, Follow, MoreDigits, SameMove;
    VersionSets(strict, at, s.major, s.minor, b);
    FollowSame(s, t, VersionNext(strict, at, s.major, s.minor, b));
  }

  lemma SameHead(strict: bool, skip: bool, s: Parser, t: Parser, at: HeadState, b: byte)
    requires Same(s, t) && s.state == Head(at) && Core(s) && Core(t)
    ensures SameMove(StepHead(strict, skip, s, at, b), StepHead(strict, skip, t, at, b))
  {
    hide FieldStart, HeadersDone, FirstValueChar, ValueChar, NameChar, MethodString, Token, NameIndex, ValueIndex;
    match at
    case HeaderFieldStart => SameFieldStart(strict, skip, s, t, b);
    case HeadersAlmostDone => SameDone(strict, skip, s, t, b);
    case HeaderValueLws =>
      SameFieldStart(strict, skip, s.(state := Head(HeaderFieldStart)), t.(state := Head(HeaderFieldStart)), b);
    case HeaderValueStart =>
      SameFirstValue(s.(index := 0, state := Head(HeaderValue)), t.(index := 0, state := Head(HeaderValue)), b);
    case HeaderValue => SameValue(s, t, b);
    case _ =>
  }

  lemma SameFirstValue(s: Parser, t: Parser, b: byte)
    requires Same(s, t) && s.state == Head(HeaderValue)
    ensures SameMove(FirstValueChar(s, b), FirstValueChar(t, b))
  {
    hide Lower;
  }

  lemma SameValue(s: Parser, t: Parser, b: byte)
    requires Same(s, t) && s.state == Head(HeaderValue)
    ensures SameMove(ValueChar(s, b), ValueChar(t, b))
  {
    hide Lower, Match, Wrap64;
  }

  lemma SameDone(strict: bool, skip: bool, s: Parser, t: Parser, b: byte)
    requires Same(s, t) && s.state.Head? && !s.upgrade && !t.upgrade && !s.kind.Both?
    ensures SameMove(HeadersDone(strict, skip, s, b), HeadersDone(strict, skip, t, b))
  {
    hide HeadOk, ChunkOk, IdentityOk, DigitsOk, MethodString;
    var s1, t1 := HeadersAnnounced(skip, s), HeadersAnnounced(skip, t);
    assert BodyFollows(strict, t1) == BodyFollows(strict, s1) && Complete(t1) == Complete(s1)
        && Complete(t) == Complete(s);
    assert InfoOf(t) == InfoOf(s);
  }

  lemma SameFieldStart(strict: bool, skip: bool, s: Parser, t: Parser, b: byte)
    requires Same(s, t) && s.state == Head(HeaderFieldStart) && !s.upgrade && !t.upgrade && !s.kind.Both?
    ensures SameMove(FieldStart(strict, skip, s, b), FieldStart(strict, skip, t, b))
  {
    hide HeadersDone, Token, FirstNameState;
    SameDone(strict, skip, s.(state := Head(HeadersAlmostDone)), t.(state := Head(HeadersAlmostDone)), b);
  }

  lemma SameChunk(strict: bool, s: Parser, t: Parser, at: ChunkState, b: byte)
    requires Same(s, t) && s.state == Chunk(at)
    ensures SameMove(StepChunk(strict, s, at, b), StepChunk(strict, t, at, b))
  {
    hide Unhex, Wrap64;
  }

  lemma SameIdentity(strict: bool, s: Parser, t: Parser, b: byte)
    requires Same(s, t) && s.state.BodyIdentity? && !s.kind.Both?
    ensures SameMove(StepIdentity(strict, s, b), StepIdentity(strict, t, b))
  {
  }

  /** The user's answer only matters at the end of the headers. */
  lemma SkipUnused(strict: bool, skip: bool, skip': bool, s: Parser, b: byte)
    requires !s.state.Head?
    ensures Dispatch(strict, skip, s, b) == Dispatch(strict, skip', s, b)
  {
    hide StepChunk, StepMethod, StepStartReq, StepStartRes, StepStartReqOrRes, StepResOrRespH, StatusNext, UrlNext,
      VersionNext, StepHead, Follow, StepIdentity;
  }

  lemma SameDispatch(strict: bool, skip: bool, s: Parser, t: Parser, b: byte)
    requires Same(s, t) && Core(s) && Core(t)
    ensures SameMove(Dispatch(strict, skip, s, b), Dispatch(strict, skip, t, b))
  {
    hide StepChunk, StepMethod, StepStartReq, StepStartRes, StepStartReqOrRes, StepResOrRespH, StatusNext, UrlNext,
      VersionNext, StepHead, Follow, StepIdentity, MethodString, HeadOk, ChunkOk;
    match s.state
    case Dead =>
    case ResLine(at) => SameStatus(strict, s, t, at, b);
    case ReqUrl(at) => SameUrl(strict, s, t, at, b);
    case ReqVersion(at) => SameVersion(strict, s, t, at, b);
    case Head(at) => SameHead(strict, skip, s, t, at, b);
    case Chunk(at) => SameChunk(strict, s, t, at, b);
    case BodyIdentity => SameIdentity(strict, s, t, b);
    case BodyIdentityEof =>
    case _ => SameStart(s, t, b);
  }

  lemma ChargeCore(s: Parser)
    requires Inv(s) && Charge(s).nread <= HTTP_MAX_HEADER_SIZE
    ensures Core(Charge(s))
  {
    hide MethodString, NameIndex, ValueIndex;
  }

  lemma SameStep(cfg: Config, s: Parser, t: Parser, o: Obs, b: byte)
    requires Same(s, t) && Inv(s) && Inv(t)
    ensures SameMove(Step(cfg.strict, cfg.answer(o, InfoOf(s)), s, b), Step(cfg.strict, cfg.answer(o, InfoOf(t)), t, b))
  {
    hide Dispatch, StateOk, MethodString;
    var skip, skip' := cfg.answer(o, InfoOf(s)), cfg.answer(o, InfoOf(t));
    if Charge(s).nread <= HTTP_MAX_HEADER_SIZE {
      ChargeCore(s);
      ChargeCore(t);
      if !s.state.Head? { SkipUnused(cfg.strict, skip, skip', Charge(t), b); }
      SameDispatch(cfg.strict, skip, Charge(s), Charge(t), b);
    }
  }

  /** What a caller can see of a run. */
  predicate Agree(r: Run, u: Run) {
    u.status == r.status && u.o == r.o && u.n == r.n && (r.status.Running? ==> Same(r.s, u.s))
  }

  lemma {:induction false} AgreeForever(cfg: Config, r: Run, u: Run, bytes: seq<byte>)
    requires Agree(r, u) && Healthy(r) && Healthy(u)
    ensures Agree(ReadAll(cfg, r, bytes), ReadAll(cfg, u, bytes))
  {
    hide Step, Inv, ObsInv, Same, Legal, InfoOf, Feed, ApplyAll;
    if bytes != [] {
      var n := |bytes| - 1;
      AgreeForever(cfg, r, u, bytes[..n]);
      ReadAllKeeps(cfg, r, bytes[..n]);
      ReadAllKeeps(cfg, u, bytes[..n]);
      var r1, u1 := ReadAll(cfg, r, bytes[..n]), ReadAll(cfg, u, bytes[..n]);
      if r1.status.Running? {
        SameStep(cfg, r1.s, u1.s, r1.o, bytes[n]);
        SameState(cfg, r1, u1, bytes[n]);
      }
    }
  }

  lemma SameState(cfg: Config, r: Run, u: Run, b: byte)
    requires r.status.Running? && Agree(r, u)
    requires SameMove(Step(cfg.strict, cfg.answer(r.o, InfoOf(r.s)), r.s, b),
        Step(cfg.strict, cfg.answer(u.o, InfoOf(u.s)), u.s, b))
    ensures Agree(Read(cfg, r, b), Read(cfg, u, b))
  {
    hide Step, Feed, ApplyAll, InfoOf;
  }

  /** Back at the start state after a message, all future behaviour is that of a freshly initialised
      parser whose header budget starts at the carried value, whatever its other fields hold. */
  lemma Pipelining(cfg: Config, r: Run, newborn: Parser, bytes: seq<byte>)
    requires Healthy(r) && r.status.Running? && IsStart(r.s.state) && Fresh(r.o)
    requires IsInit(newborn, r.s.kind)
    ensures Agree(ReadAll(cfg, r, bytes), ReadAll(cfg, r.(s := newborn.(nread := r.s.nread)), bytes))
  {
    hide MethodString;
    var u := r.(s := newborn.(nread := r.s.nread));
    InitOk(newborn, r.s.kind);
    AgreeForever(cfg, r, u, bytes);
  }

  predicate Completes(evs: seq<Event>) { exists i :: 0 <= i < |evs| && evs[i].MessageComplete? }

  /** A message completed by this move leaves no header budget charged, unless it ended through trailers. */
  predicate Carries(s: Parser, m: Move) {
    m.out.Continue? && Completes(m.evs) ==> m.s.nread == if s.flags.trailing then s.nread else 0
  }

  lemma HeadCarries(strict: bool, skip: bool, s: Parser, b: byte)
    requires s.state.Head?
    ensures Carries(s, StepHead(strict, skip, s, s.state.head, b))
  {
    hide NameChar, Token, Lower, Match, Wrap64, ShouldKeepAlive, InfoOf, FirstNameState;
  }

  lemma ChunkCarries(strict: bool, s: Parser, at: ChunkState, b: byte)
    ensures !Completes(StepChunk(strict, s, at, b).evs)
  {
    hide Unhex, Wrap64;
  }

  lemma StartCarries(s: Parser, b: byte)
    ensures !Completes(StepStartReqOrRes(s, b).evs) && !Completes(StepResOrRespH(s, b).evs)
    ensures !Completes(StepStartRes(s, b).evs) && !Completes(StepStartReq(s, b).evs) && !Completes(StepMethod(s, b).evs)
  {
    hide MethodString, Switch, FirstMethod;
  }

  /** The budget carried over a completed message is 0, unless the message ended through trailers:
      then the trailer block and its empty line stay charged. */
  lemma CarriedBudget(strict: bool, skip: bool, s: Parser, b: byte)
    requires Inv(s)
    ensures Carries(Charge(s), Step(strict, skip, s, b))
  {
    hide StepMethod, StepStartReq, StepStartRes, StepStartReqOrRes, StepResOrRespH, StatusNext, UrlNext, VersionNext,
      MethodString, StepHead, StepChunk, HeadOk, ShouldKeepAlive;
    var s1 := Charge(s);
    StartCarries(s1, b);
    if s.state.Head? { HeadCarries(strict, skip, s1, b); }
    if s.state.Chunk? { ChunkCarries(strict, s1, s.state.chunk, b); }
  }
}
