/** What the callbacks of a reachable parser have delivered: the trace follows the message grammar. */
module HttpTrace {
  import opened Bytes
  import opened HttpChars
  import opened HttpTypes
  import opened HttpStep
  import opened HttpInvariants

  /** A request announces `begin` exactly once, a response at least once. */
  predicate BeginsOk(kind: ParserType, n: nat) { n >= 1 && (!kind.Response? ==> n == 1) }

  predicate WellFormed(kind: ParserType, m: Message) {
    BeginsOk(kind, m.begins) && |m.infos| == 1 && |m.completes| == 1
  }

  predicate DoneOk(kind: ParserType, done: seq<Message>) {
    forall i :: 0 <= i < |done| ==> WellFormed(kind, done[i])
  }

  predicate Fresh(o: Obs) { o.phase.Idle? && o.cur == EMPTY_MESSAGE }

  /** Begun, but neither the headers nor the message are complete. */
  predicate Open(kind: ParserType, m: Message) {
    BeginsOk(kind, m.begins) && m.infos == [] && m.completes == [] && m.body == []
  }

  predicate InHead(kind: ParserType, o: Obs) { o.phase.Line? && Open(kind, o.cur) && o.cur.headers == [] }

  /** The headers are complete and the message is not. */
  predicate Announced(kind: ParserType, chunked: bool, m: Message) {
    BeginsOk(kind, m.begins) && |m.infos| == 1 && m.infos[0].chunked == chunked && m.completes == []
  }

  /** A header (or trailer) block, in which `named` says whether a field must have been seen. */
  predicate InFields(s: Parser, o: Obs, named: bool) {
    if s.flags.trailing then
      Announced(s.kind, true, o.cur) && (o.phase.Trailers? || (!named && o.phase == Content(true)))
    else
      Open(s.kind, o.cur) && (o.phase.Headers? || (!named && o.phase.Line?))
  }

  predicate HeadObs(s: Parser, at: HeadState, o: Obs) {
    match at
    case HeaderFieldStart => InFields(s, o, false)
    case HeadersAlmostDone => InFields(s, o, false)
    case HeaderField => InFields(s, o, true) && o.cur.headers != [] && o.cur.last.LastField?
    case HeaderValue => InFields(s, o, true) && o.cur.headers != [] && o.cur.last.LastValue?
    case _ => InFields(s, o, true) && o.cur.headers != []
  }

  predicate Delivered(s: Parser, o: Obs) {
    match s.state
    case Dead => Fresh(o)
    case StartReqOrRes => Fresh(o)
    case StartReq => Fresh(o)
    case StartRes => Fresh(o) || (InHead(s.kind, o) && o.cur == EMPTY_MESSAGE.(begins := o.cur.begins))
    case ResOrRespH => InHead(s.kind, o)
    case ResLine(_) => InHead(s.kind, o)
    case ReqMethod => InHead(s.kind, o)
    case ReqUrl(_) => InHead(s.kind, o)
    case ReqVersion(_) => InHead(s.kind, o)
    case Head(at) => HeadObs(s, at, o)
    case Chunk(_) => o.phase == Content(true) && Announced(s.kind, true, o.cur)
    case BodyIdentity => o.phase == Content(false) && Announced(s.kind, false, o.cur)
    case BodyIdentityEof => o.phase == Content(false) && Announced(s.kind, false, o.cur)
  }

  predicate ObsInv(s: Parser, o: Obs) { DoneOk(s.kind, o.done) && Delivered(s, o) }

  lemma ApplyOne(o: Obs, e: Event)
    ensures ApplyAll(o, [e]) == Apply(o, e)
  {
    assert ApplyAll(Apply(o, e), [e][1..]) == Apply(o, e);
  }

  lemma ApplyTwo(o: Obs, e: Event, f: Event)
    ensures ApplyAll(o, [e, f]) == Apply(Apply(o, e), f)
  {
    assert [e, f][1..] == [f];
    ApplyOne(Apply(o, e), f);
  }

  /** What is observed after the move `m` has read `b`. */
  function After(o: Obs, m: Move, b: byte): Obs { Feed(ApplyAll(o, m.evs), m.s.state, b) }

  lemma StartObs(s: Parser, o: Obs, b: byte, m: Move)
    requires Core(s) && ObsInv(s, o) && m.out.Continue?
    requires match s.state
             case StartReqOrRes => m == StepStartReqOrRes(s, b)
             case ResOrRespH => m == StepResOrRespH(s, b)
             case StartRes => m == StepStartRes(s, b)
             case StartReq => m == StepStartReq(s, b)
             case ReqMethod => m == StepMethod(s, b)
             case _ => false
    ensures ObsInv(m.s, After(o, m, b))
  {
    hide Switch, MethodString;
    ApplyOne(o, MessageBegin(s.kind.Response?));
    ApplyOne(o, MessageBegin(false));
  }

  lemma LineObs(s: Parser, o: Obs, b: byte, mv: LineMove)
    requires Core(s) && ObsInv(s, o) && (s.state.ResLine? || s.state.ReqUrl? || s.state.ReqVersion?)
    requires LineMoveOk(s.kind, mv) && !mv.Bad?
    ensures ObsInv(Follow(s, mv).s, After(o, Follow(s, mv), b))
  {
  }

  lemma CompleteObs(kind: ParserType, o: Obs, ka: bool)
    requires DoneOk(kind, o.done)
    requires o.phase.Content? || o.phase.Trailers?
    requires BeginsOk(kind, o.cur.begins) && |o.cur.infos| == 1 && o.cur.completes == []
    ensures var o' := Apply(o, MessageComplete(ka)); DoneOk(kind, o'.done) && Fresh(o')
  {
  }

  /** The empty line after the trailers. */
  lemma TrailersDoneObs(strict: bool, s: Parser, o: Obs, b: byte, m: Move)
    requires Core(s) && ObsInv(s, o) && s.state == Head(HeadersAlmostDone) && s.flags.trailing
    requires m == Move(s.(state := NewMessage(strict, s)), Continue, [Complete(s)])
    ensures ObsInv(m.s, After(o, m, b))
  {
    hide ShouldKeepAlive, MethodString, NameState, ValueState, NameIndex, ValueIndex, DigitsOk, IdentityOk, ChunkOk,
      AddData;
    ApplyOne(o, Complete(s));
    CompleteObs(s.kind, o, Complete(s).keepAlive);
  }

  /** The empty line after the headers. */
  lemma AnnouncedObs(strict: bool, skip: bool, s: Parser, o: Obs, b: byte, m: Move)
    requires Core(s) && ObsInv(s, o) && s.state == Head(HeadersAlmostDone) && !s.flags.trailing
    requires m == HeadersDone(strict, skip, s, b) && m.out.Continue?
    ensures ObsInv(m.s, After(o, m, b))
  {
    hide ShouldKeepAlive, MethodString, NameState, ValueState, NameIndex, ValueIndex, DigitsOk, IdentityOk, ChunkOk,
      AddData;
    var o1 := Apply(o, HeadersComplete(InfoOf(s)));
    ApplyOne(o, HeadersComplete(InfoOf(s)));
    ApplyTwo(o, HeadersComplete(InfoOf(s)), Complete(m.s));
    CompleteObs(s.kind, o1, Complete(m.s).keepAlive);
  }

  lemma DoneObs(strict: bool, skip: bool, s: Parser, o: Obs, b: byte, m: Move)
    requires Core(s) && ObsInv(s, o) && s.state == Head(HeadersAlmostDone)
    requires m == HeadersDone(strict, skip, s, b) && m.out.Continue?
    ensures ObsInv(m.s, After(o, m, b))
  {
    hide Core, ObsInv, After, Complete, NewMessage, HeadersAnnounced, BodyFollows, InfoOf;
    if s.flags.trailing { TrailersDoneObs(strict, s, o, b, m); } else { AnnouncedObs(strict, skip, s, o, b, m); }
  }

  lemma FieldStartObs(strict: bool, skip: bool, s: Parser, o: Obs, b: byte, m: Move)
    requires Core(s) && ObsInv(s, o) && s.state == Head(HeaderFieldStart)
    requires m == FieldStart(strict, skip, s, b) && m.out.Continue?
    ensures ObsInv(m.s, After(o, m, b))
  {
    hide HeadersDone, FirstNameState, Token, MethodString;
    if b == LF { DoneObs(strict, skip, s.(state := Head(HeadersAlmostDone)), o, b, m); }
  }

  lemma ValueStartObs(s: Parser, o: Obs, b: byte, m: Move)
    requires Core(s) && ObsInv(s, o) && s.state == Head(HeaderValueStart)
    requires m == FirstValueChar(s.(index := 0, state := Head(HeaderValue)), b) && m.out.Continue?
    ensures ObsInv(m.s, After(o, m, b))
  {
    hide MethodString;
  }

  lemma ValueObs(s: Parser, o: Obs, b: byte, m: Move)
    requires Core(s) && ObsInv(s, o) && s.state == Head(HeaderValue)
    requires m == ValueChar(s, b) && m.out.Continue?
    ensures ObsInv(m.s, After(o, m, b))
  {
    hide Match, MethodString, Wrap64, Lower, NameState, ValueState, NameIndex, ValueIndex, DigitsOk, IdentityOk,
      ChunkOk, ShouldKeepAlive, AddField;
  }

  lemma LwsObs(strict: bool, skip: bool, s: Parser, o: Obs, b: byte, m: Move)
    requires Core(s) && ObsInv(s, o) && s.state == Head(HeaderValueLws)
    requires m == StepHead(strict, skip, s, HeaderValueLws, b) && m.out.Continue?
    ensures ObsInv(m.s, After(o, m, b))
  {
    hide FieldStart, MethodString;
    if b != SP && b != TAB { FieldStartObs(strict, skip, s.(state := Head(HeaderFieldStart)), o, b, m); }
  }

  lemma HeadKeepsObs(strict: bool, skip: bool, s: Parser, o: Obs, b: byte, m: Move)
    requires Core(s) && ObsInv(s, o) && s.state.Head?
    requires m == StepHead(strict, skip, s, s.state.head, b) && m.out.Continue?
    ensures ObsInv(m.s, After(o, m, b))
  {
    hide FieldStart, HeadersDone, NameChar, FirstValueChar, ValueChar, ObsInv, After, Core;
    match s.state.head
    case HeaderFieldStart => FieldStartObs(strict, skip, s, o, b, m);
    case HeadersAlmostDone => DoneObs(strict, skip, s, o, b, m);
    case HeaderValueLws => LwsObs(strict, skip, s, o, b, m);
    case HeaderField => NameKeepsObs(strict, skip, s, o, b, m);
    case HeaderValueStart =>
      if b != SP && b != TAB && b != CR && b != LF {
        ValueStartObs(s, o, b, m);
      } else {
        EolKeepsObs(strict, skip, s, o, b, m);
      }
    case HeaderValue => if b != CR && b != LF { ValueObs(s, o, b, m); } else { EolKeepsObs(strict, skip, s, o, b, m); }
    case HeaderAlmostDone => EolKeepsObs(strict, skip, s, o, b, m);
  }

  lemma NameKeepsObs(strict: bool, skip: bool, s: Parser, o: Obs, b: byte, m: Move)
    requires ObsInv(s, o) && s.state == Head(HeaderField)
    requires m == StepHead(strict, skip, s, HeaderField, b) && m.out.Continue?
    ensures ObsInv(m.s, After(o, m, b))
  {
    hide NameChar, Token, ShouldKeepAlive, DoneOk;
  }

  /** Blanks before the value, and the ends of lines. */
  lemma EolKeepsObs(strict: bool, skip: bool, s: Parser, o: Obs, b: byte, m: Move)
    requires ObsInv(s, o) && s.state.Head?
    requires s.state.head.HeaderAlmostDone? || (s.state.head.HeaderValue? && (b == CR || b == LF))
        || (s.state.head.HeaderValueStart? && (b == SP || b == TAB || b == CR || b == LF))
    requires m == StepHead(strict, skip, s, s.state.head, b) && m.out.Continue?
    ensures ObsInv(m.s, After(o, m, b))
  {
    hide ShouldKeepAlive, DoneOk;
    ApplyOne(o, Data(Value, []));
  }

  lemma ChunkObs(strict: bool, s: Parser, o: Obs, b: byte, m: Move)
    requires Core(s) && ObsInv(s, o) && s.state.Chunk?
    requires m == StepChunk(strict, s, s.state.chunk, b) && m.out.Continue?
    ensures ObsInv(m.s, After(o, m, b))
  {
    hide Unhex, MethodString, Wrap64, NameState, ValueState, NameIndex, ValueIndex, DigitsOk, InRange, IdentityOk,
      DoneOk, ShouldKeepAlive, AddField, AddValue;
    ApplyOne(o, Data(Body, [b]));
  }

  lemma IdentityObs(strict: bool, s: Parser, o: Obs, b: byte, m: Move)
    requires Core(s) && ObsInv(s, o) && s.state.BodyIdentity?
    requires m == StepIdentity(strict, s, b) && m.out.Continue?
    ensures ObsInv(m.s, After(o, m, b))
  {
    hide MethodString, ShouldKeepAlive;
    ApplyOne(o, Data(Body, [b]));
    ApplyTwo(o, Data(Body, [b]), Complete(m.s));
    if m.evs != [Data(Body, [b])] {
      CompleteObs(s.kind, Apply(o, Data(Body, [b])), Complete(m.s).keepAlive);
    }
  }

  /** One byte keeps both invariants. */
  lemma StepKeeps(strict: bool, skip: bool, s: Parser, o: Obs, b: byte, m: Move)
    requires Inv(s) && ObsInv(s, o)
    requires m == Step(strict, skip, s, b) && m.out.Continue?
    ensures Inv(m.s) && ObsInv(m.s, After(o, m, b))
  {
    hide StepHead, StepChunk, StepIdentity, StepMethod, StepStartReq, StepStartRes, StepStartReqOrRes, StepResOrRespH,
      StatusNext, UrlNext, VersionNext, MethodString, InHead;
    var s1 := Charge(s);
    match s.state
    case Dead =>
    case ResLine(_) => LineTargets(strict, s1, b); LineStep(strict, skip, s1, o, b, m);
    case ReqUrl(_) => LineTargets(strict, s1, b); LineStep(strict, skip, s1, o, b, m);
    case ReqVersion(_) => LineTargets(strict, s1, b); LineStep(strict, skip, s1, o, b, m);
    case ReqMethod => MethodKeeps(s1, b, m); StartObs(s1, o, b, m);
    case Head(_) => HeadKeeps(strict, skip, s1, b, m); HeadKeepsObs(strict, skip, s1, o, b, m);
    case Chunk(_) => ChunkKeeps(strict, s1, b, m); ChunkObs(strict, s1, o, b, m);
    case BodyIdentity => IdentityKeeps(strict, s1, b, m); IdentityObs(strict, s1, o, b, m);
    case BodyIdentityEof => ApplyOne(o, Data(Body, [b]));
    case _ => StartKeeps(s1, b, m); StartObs(s1, o, b, m);
  }

  lemma LineStep(strict: bool, skip: bool, s: Parser, o: Obs, b: byte, m: Move)
    requires Core(s) && ObsInv(s, o) && (s.state.ResLine? || s.state.ReqUrl? || s.state.ReqVersion?)
    requires m == Dispatch(strict, skip, s, b) && m.out.Continue?
    ensures Inv(m.s) && ObsInv(m.s, After(o, m, b))
  {
    hide StatusNext, UrlNext, VersionNext;
    LineTargets(strict, s, b);
    var mv := match s.state
              case ResLine(at) => StatusNext(strict, at, s.major, s.minor, s.status, b)
              case ReqUrl(at) => UrlNext(strict, at, s.verb.CONNECT?, b)
              case ReqVersion(at) => VersionNext(strict, at, s.major, s.minor, b);
    FollowKeeps(s, mv);
    LineObs(s, o, b, mv);
  }

  predicate StopsWell(s: Parser, m: Move) {
    && (m.out.Fail? ==> m.evs == [] || (m.evs == [MessageBegin(m.s.kind.Response?)] && IsStart(s.state)))
    && (m.s.kind == s.kind || s.state.StartReqOrRes?)
    && (m.out.Upgraded? ==>
          && s.state.Head? && s.state.head in {HeaderFieldStart, HeaderValueLws, HeadersAlmostDone}
          && !s.flags.trailing && |m.evs| == 2 && m.evs[0] == HeadersComplete(InfoOf(s)) && m.evs[1].MessageComplete?)
  }

  lemma FieldStartStops(strict: bool, skip: bool, s: Parser, b: byte)
    requires s.state.Head? && s.state.head in {HeaderFieldStart, HeadersAlmostDone}
    ensures StopsWell(s, HeadersDone(strict, skip, s, b)) && StopsWell(s, FieldStart(strict, skip, s, b))
  {
  }

  lemma HeadStops(strict: bool, skip: bool, s: Parser, b: byte)
    requires s.state.Head?
    ensures StopsWell(s, StepHead(strict, skip, s, s.state.head, b))
  {
    hide HeadersDone, FieldStart, NameChar, FirstValueChar, ValueChar, Token, StopsWell;
    if s.state.head in {HeaderFieldStart, HeadersAlmostDone} {
      FieldStartStops(strict, skip, s, b);
    } else if s.state.head.HeaderValueLws? && b != SP && b != TAB {
      LwsStops(strict, skip, s, b);
    } else {
      LineStops(strict, skip, s, b);
    }
  }

  lemma LwsStops(strict: bool, skip: bool, s: Parser, b: byte)
    requires s.state == Head(HeaderValueLws)
    ensures StopsWell(s, FieldStart(strict, skip, s.(state := Head(HeaderFieldStart)), b))
  {
    hide HeadersDone, FieldStart, Token;
    FieldStartStops(strict, skip, s.(state := Head(HeaderFieldStart)), b);
  }

  /** Inside a line a byte delivers nothing that could stop. */
  lemma LineStops(strict: bool, skip: bool, s: Parser, b: byte)
    requires s.state.Head? && s.state.head != HeaderFieldStart && s.state.head != HeadersAlmostDone
    requires s.state.head.HeaderValueLws? ==> b == SP || b == TAB
    ensures StopsWell(s, StepHead(strict, skip, s, s.state.head, b))
  {
    hide HeadersDone, FieldStart, NameChar, Match, Token, Wrap64, Lower;
  }

  lemma ChunkStops(strict: bool, s: Parser, b: byte)
    requires s.state.Chunk?
    ensures StopsWell(s, StepChunk(strict, s, s.state.chunk, b))
  {
    hide Wrap64, Unhex;
  }

  /** A byte that stops the parser has delivered at most a begin, or (upgrade) an empty message. */
  lemma StopEvents(strict: bool, skip: bool, s: Parser, b: byte, m: Move)
    requires m == Step(strict, skip, s, b) && !m.out.Continue?
    ensures StopsWell(s, m)
  {
    hide StatusNext, UrlNext, VersionNext, MethodString, Switch, StepHead, StepChunk, FirstMethod;
    var s1 := Charge(s);
    if s.state.Head? { HeadStops(strict, skip, s1, b); }
    if s.state.Chunk? { ChunkStops(strict, s1, b); }
  }

  /** The trace of a parser of this kind is so far a prefix of the grammar, every finished message has all its
      callbacks, and the current one has begun at most once unless it is a response. */
  predicate Legal(kind: ParserType, o: Obs) {
    !o.phase.Rejected? && DoneOk(kind, o.done) && (!kind.Response? ==> o.cur.begins <= 1)
  }

  lemma ObsLegal(s: Parser, o: Obs)
    requires ObsInv(s, o)
    ensures Legal(s.kind, o)
  {
  }

  predicate Healthy(r: Run) { Legal(r.s.kind, r.o) && (r.status.Running? ==> Inv(r.s) && ObsInv(r.s, r.o)) }

  lemma StopLegal(s: Parser, o: Obs, m: Move)
    requires Inv(s) && ObsInv(s, o) && StopsWell(s, m) && !m.out.Continue?
    ensures Legal(m.s.kind, ApplyAll(o, m.evs))
  {
    hide InRange, InfoOf, AddData, MethodString, NameState, ValueState, NameIndex, ValueIndex, DigitsOk;
    ApplyOne(o, MessageBegin(m.s.kind.Response?));
    if m.out.Upgraded? {
      assert m.evs == [m.evs[0], m.evs[1]];
      ApplyTwo(o, m.evs[0], m.evs[1]);
    }
  }

  lemma ReadKeeps(cfg: Config, r: Run, b: byte)
    requires Healthy(r)
    ensures Healthy(Read(cfg, r, b))
  {
    if r.status.Running? {
      hide Step, Inv, ObsInv, StopsWell, Legal, Feed, ApplyAll, InfoOf;
      var m := Step(cfg.strict, cfg.answer(r.o, InfoOf(r.s)), r.s, b);
      if m.out.Continue? {
        StepKeeps(cfg.strict, cfg.answer(r.o, InfoOf(r.s)), r.s, r.o, b, m);
        ObsLegal(m.s, After(r.o, m, b));
      } else {
        StopEvents(cfg.strict, cfg.answer(r.o, InfoOf(r.s)), r.s, b, m);
        StopLegal(r.s, r.o, m);
      }
    }
  }

  lemma {:induction false} ReadAllKeeps(cfg: Config, r: Run, bytes: seq<byte>)
    requires Healthy(r)
    ensures Healthy(ReadAll(cfg, r, bytes))
  {
    hide Read, Healthy;
    if bytes != [] {
      ReadAllKeeps(cfg, r, bytes[..|bytes| - 1]);
      ReadKeeps(cfg, ReadAll(cfg, r, bytes[..|bytes| - 1]), bytes[|bytes| - 1]);
    }
  }
}
