/** Messages after which the connection is for another protocol: the parser stops right behind them. */
module HttpUpgrade {
  import opened Bytes
  import opened HttpChars
  import opened HttpTypes
  import opened HttpStep
  import opened HttpTrace
  import opened HttpBody
  import opened HttpHeaderLines
  import opened HttpChunks
  import opened HttpRequestLine
  import opened HttpStatusLine
  import opened HttpHeaderBlocks
  import opened HttpMessages
  import opened HttpRoundTrip
  import opened HttpExecute

  // ---------- The end of the headers ----------

  lemma DoneUpgrades(strict: bool, skip: bool, s: Parser, k: nat)
    requires !s.flags.trailing && (s.flags.upgrade || s.verb.CONNECT?)
    ensures var m := HeadersDone(strict, skip, s.(state := Head(HeadersAlmostDone), nread := k), LF);
      m.out.Upgraded? && m.evs == [HeadersComplete(InfoOf(s)), Complete(s)]
  {
  }

  /** The empty line announces and completes the message at once, whatever on_headers_complete answers. */
  lemma UpgradeEnds(cfg: Config, r: Run, eol: seq<byte>)
    requires r.status.Running? && r.s.state == Head(HeaderFieldStart) && IsEol(eol)
    requires r.s.nread + |eol| <= HTTP_MAX_HEADER_SIZE
    requires !r.s.flags.trailing && (r.s.flags.upgrade || r.s.verb.CONNECT?)
    ensures var t := ReadAll(cfg, r, eol);
      && t.status.Exited? && t.n == r.n + |eol|
      && t.o == Apply(Apply(r.o, HeadersComplete(InfoOf(r.s))), Complete(r.s))
  {
    hide ReadAll, Apply, InfoOf, ShouldKeepAlive, HeadersDone;
    ReadBlankLine(cfg, r, eol);
    DoneUpgrades(cfg.strict, cfg.answer(r.o, InfoOf(r.s)), r.s, r.s.nread + |eol|);
    ApplyTwo(r.o, HeadersComplete(InfoOf(r.s)), Complete(r.s));
  }

  // ---------- One message ----------

  /** A message that upgrades, or opens a tunnel, has no body of its own. */
  predicate IsUpgrade(strict: bool, q: Text) { IsHead(strict, q) && Upgrades(q) && q.body.NoBody? }

  /** The parser delivers the message and stops behind its empty line; of what follows it reads nothing. */
  lemma UpgradeRoundTrip(cfg: Config, r: Run, q: Text, rest: seq<byte>)
    requires AtStart(r, KindOf(q.start)) && IsUpgrade(cfg.strict, q)
    requires r.s.nread + |PrintHead(q)| + |q.eol| <= HTTP_MAX_HEADER_SIZE
    ensures var t := ReadAll(cfg, r, Print(q) + rest);
      && t.status.Exited? && t.n == r.n + |Print(q)|
      && t.o == Obs(r.o.done + [MessageOf(q)], EMPTY_MESSAGE, Idle)
  {
    hide Read, ReadAll, PrintHead, FlagsFrom, LengthFrom, Major, Minor, ShouldKeepAlive, Apply, HeadersIn, IsStartLine,
      AllHeaders, InfoOf, InfoIn, MessageOf, Started, FlagsOf, BlockEnd;
    ReadHead(cfg, r, q);
    var r1 := ReadAll(cfg, r, PrintHead(q));
    assert q.eol + [] == q.eol;
    ReadAllSplit(cfg, r, PrintHead(q), q.eol);
    LwsIsStart(cfg, r1, q.eol);
    var r2 := r1.(s := r1.s.(state := Head(HeaderFieldStart)));
    NotTrailing(q);
    HeadMessage(r.o, q, r2);
    UpgradeEnds(cfg, r2, q.eol);
    UpgradeMessage(r2.o, q, r2.s);
    ReadAllSplit(cfg, r, Print(q), rest);
    StoppedStays(cfg, ReadAll(cfg, r, Print(q)), rest);
  }

  lemma NotTrailing(q: Text)
    ensures !FlagsOf(q).trailing
  {
    FlagsKept(NO_FLAGS, q.headers);
  }

  lemma UpgradeMessage(o: Obs, q: Text, s: Parser)
    requires (o.phase.Line? || o.phase.Headers?) && q.body.NoBody? && Holds(s, q.start) && s.flags == FlagsOf(q)
    ensures Apply(Apply(o, HeadersComplete(InfoIn(q))), Complete(s))
         == Obs(o.done + [o.cur.(infos := o.cur.infos + [InfoIn(q)], body := o.cur.body + BytesOf(q.body),
                                 headers := o.cur.headers + PairsOf(TrailersOf(q.body)), last := o.cur.last,
                                 completes := o.cur.completes + [StaysAtEnd(q)])], EMPTY_MESSAGE, Idle)
  {
    hide FlagsFrom, Major, Minor, ShouldKeepAlive, InfoIn, FlagsOf;
    assert o.cur.body + [] == o.cur.body && o.cur.headers + PairsOf([]) == o.cur.headers;
  }

  // ---------- Behind other messages ----------

  lemma PipelineUpgrade(cfg: Config, r: Run, kind: ParserType, qs: seq<Text>, q: Text, rest: seq<byte>)
    requires AtStart(r, kind) && r.s.nread == 0 && ArePipelined(cfg, kind, r.o.done, qs)
    requires IsUpgrade(cfg.strict, q) && KindOf(q.start) == kind
    requires cfg.strict && qs != [] ==> StaysAtEnd(qs[|qs| - 1])
    requires CarriedBefore(qs, |qs|) + |PrintHead(q)| + |q.eol| <= HTTP_MAX_HEADER_SIZE
    ensures var t := ReadAll(cfg, r, PrintAll(qs) + Print(q) + rest);
      && t.status.Exited? && t.n == r.n + |PrintAll(qs) + Print(q)|
      && t.o == Obs(r.o.done + MessagesOf(qs + [q]), EMPTY_MESSAGE, Idle)
  {
    hide Read, ReadAll, IsUpgrade, PrintHead, Print, PrintAll, MessageOf, StaysAtEnd, Carried,
      CarriedBefore, ArePipelined, Apply, KindOf;
    PipelineRoundTrip(cfg, r, kind, qs);
    RunningConsumes(cfg, r, PrintAll(qs));
    assert PrintAll(qs) + Print(q) + rest == PrintAll(qs) + (Print(q) + rest);
    ReadAllSplit(cfg, r, PrintAll(qs), Print(q) + rest);
    UpgradeRoundTrip(cfg, ReadAll(cfg, r, PrintAll(qs)), q, rest);
    assert r.o.done + MessagesOf(qs) + [MessageOf(q)] == r.o.done + MessagesOf(qs + [q]);
  }

  /** A new parser, fed printed messages, the last of which upgrades, and then anything, in any pieces: it delivers
      exactly these messages, sets the upgrade flag, and tells where the other protocol begins. */
  method ParseToUpgrade(strict: bool, kind: ParserType, parser: HttpParser, cb: Callbacks, pieces: seq<seq<byte>>,
      ghost qs: seq<Text>, ghost q: Text, ghost rest: seq<byte>)
    returns (total: nat)
    requires !kind.Both? && JustInitialised(parser, cb, kind)
    requires forall i :: 0 <= i < |pieces| ==> pieces[i] != []
    requires ArePipelined(Config(strict, cb.answer), kind, [], qs) && IsUpgrade(strict, q) && KindOf(q.start) == kind
    requires strict && qs != [] ==> StaysAtEnd(qs[|qs| - 1])
    requires CarriedBefore(qs, |qs|) + |PrintHead(q)| + |q.eol| <= HTTP_MAX_HEADER_SIZE
    requires Concat(pieces) == PrintAll(qs) + Print(q) + rest
    modifies parser, cb
    ensures total == |PrintAll(qs) + Print(q)| && parser.state.Live? && parser.upgrade
    ensures Observe(cb.log) == Obs(MessagesOf(qs + [q]), EMPTY_MESSAGE, Idle)
  {
    hide ReadAll, PrintAll, ArePipelined, IsUpgrade, PrintHead, Print, CarriedBefore, StaysAtEnd, Observe;
    InitAttached(parser, cb, kind);
    ghost var r := Entry(parser, cb);
    NothingObserved();
    PipelineUpgrade(Config(strict, cb.answer), r, kind, qs, q, rest);
    assert [] + MessagesOf(qs + [q]) == MessagesOf(qs + [q]);
    total := ExecutePieces(strict, parser, cb, pieces);
  }

  // ---------- Instances ----------

  /** CONNECT a:1 HTTP/1.1 without headers. */
  function Tunnel(): Text {
    Text(RequestLine([], CONNECT, 0, Target(Authority([], [LOW_A], true, [DIGIT_0 + 1]), [], 0, [], 0, []),
                     Http(0, ONE_ONE, CRLF)), [], CRLF, NoBody)
  }

  lemma TunnelIsUpgrade(strict: bool)
    ensures IsUpgrade(strict, Tunnel())
  {
    OneOne(Tunnel().start.target, Tunnel().start.end);
  }
}
