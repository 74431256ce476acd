/** From the empty line after the headers to the end of the message. */
module HttpMessages {
  import opened Bytes
  import opened HttpChars
  import opened HttpTypes
  import opened HttpStep
  import opened HttpInvariants
  import opened HttpTrace
  import opened HttpBody
  import opened HttpMethods
  import opened HttpHeaderLines
  import opened HttpChunks

  // ---------- The empty line ----------

  /** What the line feed that ends a header block does, and how the run goes on. */
  function DoneAt(cfg: Config, r: Run, k: nat): Move {
    HeadersDone(cfg.strict, cfg.answer(r.o, InfoOf(r.s)),
                r.s.(state := Head(HeadersAlmostDone), nread := r.s.nread + k), LF)
  }

  function AfterDone(r: Run, m: Move, k: nat): Run {
    Run(if m.out.Upgraded? then Exited else Running, m.s, ApplyAll(r.o, m.evs), r.n + k)
  }

  lemma DoneRuns(cfg: Config, r: Run, k: nat)
    ensures var m := DoneAt(cfg, r, k);
      !m.out.Fail? && (m.out.Continue? ==> forall o :: Feed(o, m.s.state, LF) == o)
  {
    hide Apply;
  }

  lemma ReadCr(cfg: Config, r: Run)
    requires r.status.Running? && r.s.state == Head(HeaderFieldStart) && r.s.nread + 1 <= HTTP_MAX_HEADER_SIZE
    ensures Read(cfg, r, CR) == r.(s := r.s.(state := Head(HeadersAlmostDone), nread := r.s.nread + 1), n := r.n + 1)
  {
    hide HeadersDone, Token, InfoOf, Apply;
  }

  lemma ReadLf(cfg: Config, r: Run)
    requires r.status.Running? && r.s.nread + 1 <= HTTP_MAX_HEADER_SIZE
    requires r.s.state == Head(HeaderFieldStart) || r.s.state == Head(HeadersAlmostDone)
    ensures Read(cfg, r, LF) == AfterDone(r, DoneAt(cfg, r, 1), 1)
  {
    hide HeadersDone, Token, InfoOf, Apply, ApplyAll, Feed;
    DoneRuns(cfg, r, 1);
  }

  lemma SameInfo(s: Parser, st: State, k: nat)
    ensures InfoOf(s.(state := st, nread := k)) == InfoOf(s)
  {
  }

  /** The empty line, whether it ends in CR LF or in LF alone. */
  lemma ReadBlankLine(cfg: Config, r: Run, eol: seq<byte>)
    requires r.status.Running? && r.s.state == Head(HeaderFieldStart) && IsEol(eol)
    requires r.s.nread + |eol| <= HTTP_MAX_HEADER_SIZE
    ensures ReadAll(cfg, r, eol) == AfterDone(r, DoneAt(cfg, r, |eol|), |eol|)
  {
    hide Read, ReadAll, HeadersDone, InfoOf, Apply, ApplyAll;
    if eol == [LF] {
      ReadOne(cfg, r, LF);
      ReadLf(cfg, r);
    } else {
      ReadTwo(cfg, r, CR, LF);
      ReadCr(cfg, r);
      ReadLf(cfg, Read(cfg, r, CR));
      SameInfo(r.s, Head(HeadersAlmostDone), r.s.nread + 1);
    }
  }

  /** The empty line after trailers completes the message. */
  lemma ReadTrailersEnd(cfg: Config, r: Run, eol: seq<byte>)
    requires r.status.Running? && r.s.state == Head(HeaderFieldStart) && r.s.flags.trailing && IsEol(eol)
    requires r.s.nread + |eol| <= HTTP_MAX_HEADER_SIZE
    ensures ReadAll(cfg, r, eol)
         == Run(Running, r.s.(state := NewMessage(cfg.strict, r.s), nread := r.s.nread + |eol|),
                Apply(r.o, Complete(r.s)), r.n + |eol|)
  {
    hide ReadAll, Apply, ShouldKeepAlive;
    ReadBlankLine(cfg, r, eol);
    ApplyOne(r.o, Complete(r.s));
  }

  // ---------- The end of the headers ----------

  /** At the end of a header block that does not ask for an upgrade. */
  predicate BodyAhead(r: Run, eol: seq<byte>) {
    && r.status.Running? && r.s.state == Head(HeaderFieldStart)
    && !r.s.flags.trailing && !r.s.flags.upgrade && !r.s.flags.skipBody && !r.s.upgrade && !r.s.verb.CONNECT?
    && IsEol(eol) && r.s.nread + |eol| <= HTTP_MAX_HEADER_SIZE
  }

  /** What on_headers_complete answers, and what the parser makes of it. */
  predicate Skips(cfg: Config, r: Run) { cfg.answer(r.o, InfoOf(r.s)) }

  function Answered(s: Parser, skip: bool): Parser { s.(flags := s.flags.(skipBody := skip)) }

  /** The callbacks at the end of the headers: the announcement, and the completion of a message without body. */
  function EndEvents(strict: bool, s: Parser): seq<Event> {
    if BodyFollows(strict, s).1 then [HeadersComplete(InfoOf(s)), Complete(s)] else [HeadersComplete(InfoOf(s))]
  }

  /** What the line feed after the headers does. */
  lemma DoneMeans(strict: bool, skip: bool, s: Parser, k: nat)
    requires !s.flags.trailing && !s.flags.upgrade && !s.flags.skipBody && !s.upgrade && !s.verb.CONNECT?
    ensures var s1 := Answered(s, skip);
      HeadersDone(strict, skip, s.(state := Head(HeadersAlmostDone), nread := k), LF)
      == Move(s1.(nread := 0, state := BodyFollows(strict, s1).0), Continue, EndEvents(strict, s1))
  {
    var s2 := s.(state := Head(HeadersAlmostDone), nread := k);
    assert HeadersAnnounced(skip, s2) == Answered(s, skip).(state := Head(HeadersAlmostDone), nread := 0);
  }

  /** The empty line announces the headers, resets the budget and leads to the body, or completes the message. */
  lemma ReadEmptyLine(cfg: Config, r: Run, eol: seq<byte>)
    requires BodyAhead(r, eol)
    ensures var s1 := Answered(r.s, Skips(cfg, r));
      ReadAll(cfg, r, eol)
      == Run(Running, s1.(nread := 0, state := BodyFollows(cfg.strict, s1).0),
             ApplyAll(r.o, EndEvents(cfg.strict, s1)), r.n + |eol|)
  {
    hide Apply, ApplyAll, InfoOf, HeadersDone, BodyFollows, ReadAll, EndEvents;
    ReadBlankLine(cfg, r, eol);
    DoneMeans(cfg.strict, Skips(cfg, r), r.s, r.s.nread + |eol|);
  }

  lemma AnsweredKeeps(s: Parser, skip: bool)
    ensures InfoOf(Answered(s, skip)) == InfoOf(s) && Complete(Answered(s, skip)) == Complete(s)
    ensures forall strict :: NewMessage(strict, Answered(s, skip)) == NewMessage(strict, s)
    ensures !s.flags.skipBody ==> Answered(s, false) == s
  {
  }

  /** A message without a body (RFC 2616 section 4.4) ends with its headers. */
  lemma BodyLess(cfg: Config, r: Run, eol: seq<byte>)
    requires BodyAhead(r, eol) && BodyFollows(cfg.strict, Answered(r.s, Skips(cfg, r))).1
    ensures var t := ReadAll(cfg, r, eol);
      && t.status.Running? && t.n == r.n + |eol|
      && t.s == Answered(r.s, Skips(cfg, r)).(nread := 0, state := NewMessage(cfg.strict, r.s))
      && t.o == Apply(Apply(r.o, HeadersComplete(InfoOf(r.s))), Complete(r.s))
  {
    hide ReadAll, Apply, InfoOf, ShouldKeepAlive;
    ReadEmptyLine(cfg, r, eol);
    AnsweredKeeps(r.s, Skips(cfg, r));
    ApplyTwo(r.o, HeadersComplete(InfoOf(r.s)), Complete(r.s));
  }

  /** If on_headers_complete answers yes, the message ends with its headers, whatever length or coding they announce. */
  lemma SkippedBody(cfg: Config, r: Run, eol: seq<byte>)
    requires BodyAhead(r, eol) && Skips(cfg, r)
    ensures var t := ReadAll(cfg, r, eol);
      && t.status.Running? && t.s.state == NewMessage(cfg.strict, r.s) && t.s.nread == 0 && t.n == r.n + |eol|
      && OnlyHeader(r.s, t.s)
      && t.o == Apply(Apply(r.o, HeadersComplete(InfoOf(r.s))), Complete(r.s))
  {
    hide ReadAll, Apply, InfoOf, ShouldKeepAlive;
    BodyLess(cfg, r, eol);
  }

  /** A message with a positive Content-Length n and no chunked coding (RFC 2616 section 4.4): exactly the
      next n bytes are its body, and the n-th of them completes it. */
  lemma LengthDelimited(cfg: Config, r: Run, eol: seq<byte>, body: seq<byte>)
    requires BodyAhead(r, eol) && !Skips(cfg, r) && !r.s.flags.chunked && 0 < r.s.contentLength == |body|
    ensures var t := ReadAll(cfg, r, eol + body);
      && t.status.Running? && t.s == r.s.(state := NewMessage(cfg.strict, r.s), nread := 0, contentLength := 0)
      && t.n == r.n + |eol| + |body|
      && t.o == Apply(Apply(Apply(r.o, HeadersComplete(InfoOf(r.s))), Data(Body, body)), Complete(r.s))
  {
    hide ReadAll, Apply, InfoOf, ShouldKeepAlive;
    ReadEmptyLine(cfg, r, eol);
    AnsweredKeeps(r.s, false);
    ApplyOne(r.o, HeadersComplete(InfoOf(r.s)));
    ReadAllSplit(cfg, r, eol, body);
    CountedBody(cfg, ReadAll(cfg, r, eol), body);
  }

  /** A chunked message: whatever its Content-Length, its body is the payload of its chunks. */
  lemma ChunkDelimited(cfg: Config, r: Run, eol: seq<byte>, cs: seq<ChunkText>, last: SizeLine)
    requires BodyAhead(r, eol) && !Skips(cfg, r) && r.s.flags.chunked
    requires forall i :: 0 <= i < |cs| ==> IsChunk(cs[i])
    requires IsSizeLine(last, 0)
    ensures var t := ReadAll(cfg, r, eol + PrintBody(cs, last));
      && t.status.Running? && t.s == AfterChunks(cfg.strict, r.s)
      && t.o == Apply(Deliver(Apply(r.o, HeadersComplete(InfoOf(r.s))), Payload(cs)), Complete(r.s))
  {
    hide ReadAll, Apply, InfoOf, ShouldKeepAlive, PrintBody, IsChunk, IsSizeLine;
    ReadEmptyLine(cfg, r, eol);
    AnsweredKeeps(r.s, false);
    ApplyOne(r.o, HeadersComplete(InfoOf(r.s)));
    var r1 := ReadAll(cfg, r, eol);
    ReadAllSplit(cfg, r, eol, PrintBody(cs, last));
    ChunkedRoundTrip(cfg, r1, cs, last);
    SameEnd(cfg.strict, r.s, r1.s);
  }

  lemma SameEnd(strict: bool, s: Parser, t: Parser)
    requires t.kind == s.kind && t.major == s.major && t.minor == s.minor && t.flags == s.flags
    ensures NewMessage(strict, t) == NewMessage(strict, s) && Complete(t) == Complete(s)
  {
  }

  /** The same printed message under any cut. */
  lemma ChunkedUnderEveryCut(cfg: Config, r: Run, parts: seq<seq<byte>>, pieces: seq<seq<byte>>)
    requires r.status.Running? && r.s.state == Chunk(ChunkSizeStart) && r.s.nread == 0
    requires forall i :: 0 <= i < |parts| ==> 0 < |parts[i]| < 0x8000_0000_0000_0000
    requires Concat(pieces) == PrintBody(ChunkAll(parts), ZERO_LINE)
    ensures var t := ReadPieces(cfg, r, pieces);
      && t.status.Running? && t.s == AfterChunks(cfg.strict, r.s)
      && t.o == Apply(Deliver(r.o, Join(parts)), Complete(r.s))
  {
    hide ReadAll, ReadPieces, Apply, ShouldKeepAlive, PrintBody;
    CutInvariance(cfg, r, pieces);
    DecodeEncode(cfg, r, parts);
  }

  // ---------- A parser that does not know yet what it parses ----------

  /** A parser that does not know yet what it parses behaves as a request parser on any input whose
      first bytes begin a method. */
  lemma BothIsRequest(cfg: Config, r: Run, w: seq<byte>)
    requires r.status.Running? && r.s.state.StartReqOrRes? && r.s.kind.Both?
    requires |w| >= 2 && FirstMethod(w[0]) != [] && (w[0] == H_ ==> w[1] == E_)
    requires r.s.nread + 2 <= HTTP_MAX_HEADER_SIZE
    ensures ReadAll(cfg, r, w) == ReadAll(cfg, r.(s := r.s.(kind := Request, state := StartReq)), w)
  {
    var u := r.(s := r.s.(kind := Request, state := StartReq));
    hide Read, ReadAll, FirstMethod;
    FirstTwo(cfg, r, u, w[0], w[1]);
    var front, rest := [w[0], w[1]], w[2..];
    assert w == front + rest;
    ReadTwo(cfg, r, w[0], w[1]);
    ReadTwo(cfg, u, w[0], w[1]);
    ReadAllSplit(cfg, r, front, rest);
    ReadAllSplit(cfg, u, front, rest);
  }

  lemma FirstTwo(cfg: Config, r: Run, u: Run, a: byte, b: byte)
    requires r.status.Running? && r.s.state.StartReqOrRes? && r.s.kind.Both?
    requires u == r.(s := r.s.(kind := Request, state := StartReq))
    requires FirstMethod(a) != [] && (a == H_ ==> b == E_) && r.s.nread + 2 <= HTTP_MAX_HEADER_SIZE
    ensures Read(cfg, Read(cfg, r, a), b) == Read(cfg, Read(cfg, u, a), b)
  {
    FirstLetter(a);
    if a == H_ {
      SecondOfHead(cfg, r, u);
    } else {
      hide Apply, FirstMethod;
      assert Read(cfg, r, a) == Read(cfg, u, a);
    }
  }

  lemma FirstLetter(a: byte)
    requires FirstMethod(a) != []
    ensures IsAlpha(a) && a != CR && a != LF
  {
  }

  lemma SecondOfHead(cfg: Config, r: Run, u: Run)
    requires r.status.Running? && r.s.state.StartReqOrRes? && r.s.kind.Both?
    requires u == r.(s := r.s.(kind := Request, state := StartReq))
    requires r.s.nread + 2 <= HTTP_MAX_HEADER_SIZE
    ensures Read(cfg, Read(cfg, r, H_), E_) == Read(cfg, Read(cfg, u, H_), E_)
  {
    hide Apply, InfoOf;
    ApplyOne(r.o, MessageBegin(false));
    ApplyOne(r.o, MessageBegin(true));
    var r1, u1 := Read(cfg, r, H_), Read(cfg, u, H_);
    assert r1.s == Begun(r.s).(state := ResOrRespH, nread := r.s.nread + 1);
    assert u1.s == Begun(u.s).(state := ReqMethod, verb := HEAD, index := 1, nread := r.s.nread + 1);
    assert r1.o == u1.o;
  }

  /** ... and as a response parser on any input that begins like a status line. */
  lemma BothIsResponse(cfg: Config, r: Run, w: seq<byte>)
    requires r.status.Running? && r.s.state.StartReqOrRes? && r.s.kind.Both? && ObsInv(r.s, r.o)
    requires |w| >= 2 && w[0] == H_ && w[1] == T_ && r.s.nread + 2 <= HTTP_MAX_HEADER_SIZE
    ensures ReadAll(cfg, r, w) == ReadAll(cfg, r.(s := r.s.(kind := Response, state := StartRes)), w)
  {
    var u := r.(s := r.s.(kind := Response, state := StartRes));
    hide Read, ReadAll;
    SecondOfStatus(cfg, r, u);
    var front, rest := [w[0], w[1]], w[2..];
    assert w == front + rest;
    ReadTwo(cfg, r, w[0], w[1]);
    ReadTwo(cfg, u, w[0], w[1]);
    ReadAllSplit(cfg, r, front, rest);
    ReadAllSplit(cfg, u, front, rest);
  }

  lemma SecondOfStatus(cfg: Config, r: Run, u: Run)
    requires r.status.Running? && r.s.state.StartReqOrRes? && r.s.kind.Both? && ObsInv(r.s, r.o)
    requires u == r.(s := r.s.(kind := Response, state := StartRes))
    requires r.s.nread + 2 <= HTTP_MAX_HEADER_SIZE
    ensures Read(cfg, Read(cfg, r, H_), T_) == Read(cfg, Read(cfg, u, H_), T_)
  {
    assert Apply(r.o, MessageBegin(false)) == Apply(r.o, MessageBegin(true));
    FirstH(cfg, r);
    FirstH(cfg, u);
    ThenT(cfg, Read(cfg, r, H_), Read(cfg, u, H_));
  }

  lemma FirstH(cfg: Config, r: Run)
    requires r.status.Running? && r.s.nread + 1 <= HTTP_MAX_HEADER_SIZE
    requires (r.s.state.StartReqOrRes? && r.s.kind.Both?) || (r.s.state.StartRes? && r.s.kind.Response?)
    ensures Read(cfg, r, H_)
         == Run(Running, Begun(r.s).(state := if r.s.kind.Both? then ResOrRespH else ResLine(ResH),
                                     nread := r.s.nread + 1),
                Apply(r.o, MessageBegin(r.s.kind.Response?)), r.n + 1)
  {
    hide Apply, InfoOf;
    ApplyOne(r.o, MessageBegin(r.s.kind.Response?));
  }

  lemma ThenT(cfg: Config, r: Run, u: Run)
    requires r.status.Running? && r.s.state.ResOrRespH? && r.s.nread + 1 <= HTTP_MAX_HEADER_SIZE
    requires u == r.(s := r.s.(kind := Response, state := ResLine(ResH)))
    ensures Read(cfg, r, T_) == Read(cfg, u, T_)
  {
    hide Apply, InfoOf;
  }

  // ---------- The end of the connection ----------

  /** A body without a length is completed by the end of the connection, once: the state stays, and a second end
      would complete a message that has not begun. */
  lemma EofOnce(s: Parser, o: Obs)
    requires Inv(s) && ObsInv(s, o) && s.state.BodyIdentityEof?
    ensures var o1 := Apply(o, Complete(s));
      && Legal(s.kind, o1) && o1.done == o.done + [o.cur.(completes := o.cur.completes + [false])]
      && !Legal(s.kind, Apply(o1, Complete(s)))
  {
    ObsLegal(s, o);
    CompleteObs(s.kind, o, false);
  }
}
