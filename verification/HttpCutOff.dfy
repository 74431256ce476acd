/** Connections that end inside a request: what has come is in no order to end, at whatever byte. */
module HttpCutOff {
  import opened Bytes
  import opened HttpChars
  import opened HttpTypes
  import opened HttpStep
  import opened HttpInvariants
  import opened HttpTrace
  import opened HttpBody
  import opened HttpMethods
  import opened HttpHeaderLines
  import opened HttpChunks
  import opened HttpMessages
  import opened HttpRequestLine
  import opened HttpHeaderBlocks
  import opened HttpRoundTrip
  import opened HttpExecute

  // ---------- Messages only come ----------

  /** Twice the number of completed messages, and one for a message that has begun. */
  function Progress(o: Obs): nat { 2 * |o.done| + if o.phase.Idle? then 0 else 1 }

  lemma ApplyProgress(o: Obs, e: Event)
    ensures Progress(Apply(o, e)) >= Progress(o)
  {
    hide AddData;
  }

  lemma {:induction false} ApplyAllProgress(o: Obs, evs: seq<Event>)
    ensures Progress(ApplyAll(o, evs)) >= Progress(o)
    decreases |evs|
  {
    hide Apply, Progress;
    if evs != [] {
      ApplyProgress(o, evs[0]);
      ApplyAllProgress(Apply(o, evs[0]), evs[1..]);
    }
  }

  lemma FeedProgress(o: Obs, st: State, b: byte)
    ensures Progress(Feed(o, st, b)) >= Progress(o)
  {
    hide Apply, Progress;
    var o1 := Apply(o, Data(Url, [b]));
    ApplyProgress(o, Data(Url, [b]));
    ApplyProgress(o1, Data(Path, [b]));
    ApplyProgress(o1, Data(Query, [b]));
    ApplyProgress(o1, Data(Fragment, [b]));
    ApplyProgress(o, Data(Field, [b]));
    ApplyProgress(o, Data(Value, [b]));
  }

  lemma {:induction false} ReadAllProgress(cfg: Config, r: Run, w: seq<byte>)
    ensures Progress(ReadAll(cfg, r, w).o) >= Progress(r.o)
  {
    if w != [] {
      hide Step, Feed, ApplyAll, Progress, InfoOf;
      var u := ReadAll(cfg, r, w[..|w| - 1]);
      ReadAllProgress(cfg, r, w[..|w| - 1]);
      var m := Step(cfg.strict, cfg.answer(u.o, InfoOf(u.s)), u.s, w[|w| - 1]);
      ApplyAllProgress(u.o, m.evs);
      FeedProgress(ApplyAll(u.o, m.evs), m.s.state, w[|w| - 1]);
    }
  }

  /** The first bytes of an input that is read whole. */
  lemma PrefixRuns(cfg: Config, r: Run, w: seq<byte>, k: nat)
    requires k <= |w| && ReadAll(cfg, r, w).status.Running?
    ensures ReadAll(cfg, r, w[..k]).status.Running?
    ensures ReadAll(cfg, ReadAll(cfg, r, w[..k]), w[k..]) == ReadAll(cfg, r, w)
  {
    hide ReadAll;
    assert w == w[..k] + w[k..];
    ReadAllSplit(cfg, r, w[..k], w[k..]);
    if !ReadAll(cfg, r, w[..k]).status.Running? { StoppedStays(cfg, ReadAll(cfg, r, w[..k]), w[k..]); }
  }

  // ---------- The last byte of a message ----------

  /** A byte between messages is charged to the header budget. */
  lemma StartCharges(cfg: Config, r: Run, b: byte)
    requires r.status.Running? && Inv(r.s) && ObsInv(r.s, r.o) && r.o.phase.Idle? && Read(cfg, r, b).status.Running?
    ensures Read(cfg, r, b).s.nread > 0
  {
    hide FirstMethod, Apply, MethodString, InfoOf, NameState, ValueState, NameIndex, ValueIndex, DigitsOk;
  }

  /** Up to its trailers a chunked message is not complete. */
  lemma TextToTrailers(cfg: Config, r: Run, q: Text)
    requires AtStart(r, KindOf(q.start)) && IsText(cfg.strict, SkipsBody(cfg, r.o.done, q), q) && q.body.Chunks?
    requires r.s.nread + |PrintHead(q)| + |q.eol| <= HTTP_MAX_HEADER_SIZE
    ensures var u := ReadAll(cfg, r, Front(q));
      u.status.Running? && u.s.state == Head(HeaderFieldStart) && u.s.nread == 0 && BlockOpen(u.o)
    ensures Print(q) == Front(q) + (PrintHeaders(q.body.trailers) + q.body.eol)
  {
    hide Read, ReadAll, PrintHead, FlagsFrom, LengthFrom, Major, Minor, ShouldKeepAlive, Apply, Deliver, HeadersIn,
      IsStartLine, AllHeaders, InfoOf, InfoIn, MessageOf, Started, FlagsOf, BlockEnd, SkipsBody, Skips, IsChunk,
      IsSizeLine, PrintChunks, HttpChunks.PrintLine, Payload, BlockOpen, PrintHeaders;
    ReadHead(cfg, r, q);
    var r1 := ReadAll(cfg, r, PrintHead(q));
    var w := PrintChunks(q.body.chunks) + HttpChunks.PrintLine(q.body.last);
    ReadAllSplit(cfg, r, PrintHead(q), q.eol + w);
    LwsIsStart(cfg, r1, q.eol + w);
    var r2 := r1.(s := r1.s.(state := Head(HeaderFieldStart)));
    HeadReady(cfg, r2, q, SkipsBody(cfg, r.o.done, q));
    HeadMessage(r.o, q, r2);
    AsksSkip(cfg, r2, q, r.o.done);
    ReadEmptyLine(cfg, r2, q.eol);
    AnsweredKeeps(r2.s, false);
    ApplyOne(r2.o, HeadersComplete(InfoOf(r2.s)));
    ReadAllSplit(cfg, r2, q.eol, w);
    AfterAnnounce(r2.o, InfoOf(r2.s), Payload(q.body.chunks));
    InfoChunked(r2.s);
    var r3 := ReadAll(cfg, r2, q.eol);
    ReadChunks(cfg, r3, q.body.chunks);
    ReadAllSplit(cfg, r3, PrintChunks(q.body.chunks), HttpChunks.PrintLine(q.body.last));
    ReadSizeLine(cfg, ReadAll(cfg, r3, PrintChunks(q.body.chunks)), q.body.last, 0);
  }

  function Front(q: Text): seq<byte>
    requires q.body.Chunks?
  {
    PrintHead(q) + (q.eol + (PrintChunks(q.body.chunks) + HttpChunks.PrintLine(q.body.last)))
  }

  /** ... nor after them, before the last byte of the empty line. */
  lemma ChunkedNotYet(cfg: Config, r: Run, q: Text)
    requires AtStart(r, KindOf(q.start)) && IsText(cfg.strict, SkipsBody(cfg, r.o.done, q), q) && q.body.Chunks?
    requires r.s.nread + |PrintHead(q)| + |q.eol| <= HTTP_MAX_HEADER_SIZE
    ensures Print(q) != [] && !ReadAll(cfg, r, Print(q)[..|Print(q)| - 1]).o.phase.Idle?
  {
    hide Read, ReadAll, IsStartLine, AllHeaders, Front, PrintHeaders, Print, BlockEnd, FlagsFrom, LengthFrom, PrintHead,
      SkipsBody;
    TextToTrailers(cfg, r, q);
    var ts, eol := PrintHeaders(q.body.trailers), q.body.eol;
    var u := ReadAll(cfg, r, Front(q));
    ReadHeaders(cfg, u, q.body.trailers);
    var v := ReadAll(cfg, u, ts);
    ReadAllSplit(cfg, r, Front(q), ts);
    if eol == [LF] {
      assert Print(q)[..|Print(q)| - 1] == Front(q) + ts;
    } else {
      assert Print(q)[..|Print(q)| - 1] == Front(q) + ts + [CR];
      ReadAllSplit(cfg, r, Front(q) + ts, [CR]);
      LwsIsStart(cfg, v, [CR]);
      var v1 := v.(s := v.s.(state := Head(HeaderFieldStart)));
      ReadOne(cfg, v1, CR);
      ReadCr(cfg, v1);
    }
  }

  /** No message is complete before its last byte. */
  lemma NotYet(cfg: Config, r: Run, q: Text)
    requires AtStart(r, KindOf(q.start)) && IsText(cfg.strict, SkipsBody(cfg, r.o.done, q), q) && !q.body.UntilEnd?
    requires r.s.nread + |PrintHead(q)| + |q.eol| <= HTTP_MAX_HEADER_SIZE && Healthy(r)
    ensures Print(q) != [] && !ReadAll(cfg, r, Print(q)[..|Print(q)| - 1]).o.phase.Idle?
  {
    hide Read, ReadAll, IsStartLine, AllHeaders, PrintHead, SkipsBody, Inv, ObsInv, MessageOf, StaysAtEnd, PrintContent,
      Legal;
    if q.body.Chunks? {
      ChunkedNotYet(cfg, r, q);
    } else {
      var w := Print(q);
      TextRoundTrip(cfg, r, q);
      PrefixRuns(cfg, r, w, |w| - 1);
      ReadAllKeeps(cfg, r, w[..|w| - 1]);
      var u := ReadAll(cfg, r, w[..|w| - 1]);
      assert w[|w| - 1..] == [w[|w| - 1]];
      ReadOne(cfg, u, w[|w| - 1]);
      if u.o.phase.Idle? { StartCharges(cfg, u, w[|w| - 1]); }
    }
  }

  // ---------- Inside a request ----------

  /** The first byte behind the blank lines begins the message. */
  lemma FirstBegins(cfg: Config, r: Run, q: Text)
    requires AtStart(r, Request) && q.start.RequestLine? && AreBlankLines(q.start.lead)
    requires r.s.nread + |PrintHead(q)| <= HTTP_MAX_HEADER_SIZE
    ensures var k := |q.start.lead| + 1;
      k <= |Print(q)| && Progress(ReadAll(cfg, r, Print(q)[..k]).o) == Progress(r.o) + 1
  {
    hide Read, ReadAll, MethodString, PrintTarget, PrintLineEnd, PrintHeaders, PrintContent;
    var lead, verb := q.start.lead, q.start.verb;
    FirstByte(verb);
    MethodBytes(verb);
    var first := MethodString(verb)[0];
    assert Print(q)[..|lead| + 1] == lead + [first];
    ReadBlankLines(cfg, r, lead);
    ReadAllSplit(cfg, r, lead, [first]);
    var u := ReadAll(cfg, r, lead);
    ReadOne(cfg, u, first);
    HttpRequestLine.FirstLetter(cfg, u, verb);
  }

  /** From then on, until its last byte, a request has begun and is not complete. */
  lemma CutInside(cfg: Config, r: Run, q: Text, k: nat)
    requires AtStart(r, Request) && KindOf(q.start) == Request && Healthy(r)
    requires IsText(cfg.strict, SkipsBody(cfg, r.o.done, q), q)
    requires r.s.nread + |PrintHead(q)| + |q.eol| <= HTTP_MAX_HEADER_SIZE
    requires |q.start.lead| < k < |Print(q)|
    ensures var u := ReadAll(cfg, r, Print(q)[..k]);
      u.status.Running? && !u.o.phase.Idle? && |u.o.done| == |r.o.done|
  {
    hide Read, ReadAll, PrintHead, SkipsBody, Inv, ObsInv, MessageOf, StaysAtEnd, PrintContent, Legal, BodyFits, Print,
      IsTarget, IsLineEnd, AllHeaders;
    var w, n := Print(q), |Print(q)|;
    NotUntilEnd(cfg.strict, SkipsBody(cfg, r.o.done, q), q);
    FirstBegins(cfg, r, q);
    TextRoundTrip(cfg, r, q);
    NotYet(cfg, r, q);
    PrefixRuns(cfg, r, w, k);
    PrefixRuns(cfg, r, w, n - 1);
    ProgressLater(cfg, r, w, |q.start.lead| + 1, k);
    ProgressLater(cfg, r, w, k, n - 1);
    ReadAllProgress(cfg, ReadAll(cfg, r, w[..n - 1]), w[n - 1..]);
  }

  lemma NotUntilEnd(strict: bool, skip: bool, q: Text)
    requires IsText(strict, skip, q) && q.start.RequestLine?
    ensures !q.body.UntilEnd?
  {
  }

  lemma ProgressLater(cfg: Config, r: Run, w: seq<byte>, i: nat, j: nat)
    requires i <= j <= |w|
    ensures Progress(ReadAll(cfg, r, w[..i]).o) <= Progress(ReadAll(cfg, r, w[..j]).o)
  {
    hide ReadAll, Progress;
    assert w[..j] == w[..i] + w[i..j];
    ReadAllSplit(cfg, r, w[..i], w[i..j]);
    ReadAllProgress(cfg, ReadAll(cfg, r, w[..i]), w[i..j]);
  }

  /** A connection that ends inside a printed request, behind any number of printed ones and wherever the input was
      cut: an error, and only the messages before it. */
  method ParseCutOff(strict: bool, parser: HttpParser, cb: Callbacks, pieces: seq<seq<byte>>, ghost qs: seq<Text>,
      ghost q: Text, ghost k: nat)
    returns (total: nat, end: nat)
    requires JustInitialised(parser, cb, Request)
    requires forall i :: 0 <= i < |pieces| ==> pieces[i] != []
    requires ArePipelined(Config(strict, cb.answer), Request, [], qs + [q])
    requires |q.start.lead| < k < |Print(q)| && Concat(pieces) == PrintAll(qs) + Print(q)[..k]
    modifies parser, cb
    ensures total == |PrintAll(qs)| + k && end == 1 && parser.state == Errored(INVALID_EOF_STATE)
    ensures |Observe(cb.log).done| == |qs| && !Observe(cb.log).phase.Idle?
  {
    hide ReadAll, PrintAll, ArePipelined, Observe, Print, Inv, ObsInv, IsNext;
    InitAttached(parser, cb, Request);
    ghost var cfg := Config(strict, cb.answer);
    ghost var r := Entry(parser, cb);
    NothingObserved();
    CutBehind(cfg, r, qs, q, k);
    RunningConsumes(cfg, r, PrintAll(qs) + Print(q)[..k]);
    total := ExecutePieces(strict, parser, cb, pieces);
    ghost var log := cb.log;
    end := Execute(strict, parser, cb, []);
    assert log + [] == log;
  }

  lemma CutBehind(cfg: Config, r: Run, qs: seq<Text>, q: Text, k: nat)
    requires AtStart(r, Request) && r.s.nread == 0 && Healthy(r) && ArePipelined(cfg, Request, r.o.done, qs + [q])
    requires |q.start.lead| < k < |Print(q)|
    ensures var u := ReadAll(cfg, r, PrintAll(qs) + Print(q)[..k]);
      u.status.Running? && !u.o.phase.Idle? && |u.o.done| == |r.o.done| + |qs| && u.s.kind == Request
  {
    hide Read, ReadAll, IsText, PrintHead, Print, PrintAll, MessageOf, StaysAtEnd, Carried, CarriedBefore, ArePipelined,
      SkipsBody, Inv, ObsInv, Legal;
    assert (qs + [q])[..|qs|] == qs;
    PipelineLast(cfg, Request, r.o.done, qs + [q]);
    PipelineRoundTrip(cfg, r, Request, qs);
    NothingCarried(qs);
    ReadAllKeeps(cfg, r, PrintAll(qs));
    var u := ReadAll(cfg, r, PrintAll(qs));
    ReadAllSplit(cfg, r, PrintAll(qs), Print(q)[..k]);
    CutInside(cfg, u, q, k);
    KindStays(cfg, u, Print(q)[..k]);
  }

  lemma {:induction false} KindStays(cfg: Config, r: Run, w: seq<byte>)
    requires Healthy(r) && r.status.Running? && r.s.kind.Request?
    ensures ReadAll(cfg, r, w).s.kind.Request?
  {
    hide Read, Healthy;
    if w != [] {
      KindStays(cfg, r, w[..|w| - 1]);
      ReadAllKeeps(cfg, r, w[..|w| - 1]);
      OneKind(cfg, ReadAll(cfg, r, w[..|w| - 1]), w[|w| - 1]);
    }
  }

  lemma OneKind(cfg: Config, r: Run, b: byte)
    requires Healthy(r) && r.s.kind.Request?
    ensures Read(cfg, r, b).s.kind.Request?
  {
    hide Step, InfoOf, Feed, ApplyAll, Legal, Delivered;
    if r.status.Running? { StepKind(cfg.strict, cfg.answer(r.o, InfoOf(r.s)), r.s, b); }
  }

  lemma StepKind(strict: bool, skip: bool, s: Parser, b: byte)
    requires Inv(s) && s.kind.Request?
    ensures Step(strict, skip, s, b).s.kind.Request?
  {
    hide MethodString, FirstMethod, Switch, StatusNext, UrlNext, VersionNext, StepHead, StepChunk, ShouldKeepAlive,
      NameState, ValueState, NameIndex, ValueIndex, DigitsOk, InRange;
    if s.state.Head? { HeadKind(strict, skip, Charge(s), b); }
    if s.state.Chunk? { ChunkKind(strict, Charge(s), b); }
  }

  lemma HeadKind(strict: bool, skip: bool, s: Parser, b: byte)
    requires s.state.Head?
    ensures StepHead(strict, skip, s, s.state.head, b).s.kind == s.kind
  {
    hide Token, NameChar, Lower, Match, Wrap64, ShouldKeepAlive, FirstNameState, BodyFollows, InfoOf;
  }

  lemma ChunkKind(strict: bool, s: Parser, b: byte)
    requires s.state.Chunk?
    ensures StepChunk(strict, s, s.state.chunk, b).s.kind == s.kind
  {
    hide Unhex, Wrap64;
  }
}
