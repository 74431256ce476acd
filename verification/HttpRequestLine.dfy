/** Request lines: what is printed is what the parser stores and delivers. */
module HttpRequestLine {
  import opened Bytes
  import opened HttpChars
  import opened HttpTypes
  import opened HttpStep
  import opened HttpInvariants
  import opened HttpTrace
  import opened HttpBody
  import opened HttpMethods
  import opened HttpHeaderLines
  import opened HttpChunks

  // ---------- The printed form ----------

  /** `k` times the same byte. */
  function Times(b: byte, k: nat): (w: seq<byte>)
    ensures |w| == k && forall i :: 0 <= i < k ==> w[i] == b
  {
    seq(k, _ => b)
  }

  /** Line ends before the first line of a message. */
  predicate AreBlankLines(w: seq<byte>) { forall i :: 0 <= i < |w| ==> w[i] == CR || w[i] == LF }

  /** Where a target is: not said, or a host behind a schema (without one for CONNECT), perhaps with a port. */
  datatype Authority = NoAuthority | Authority(schema: seq<byte>, host: seq<byte>, colon: bool, port: seq<byte>)

  /** A request target in its parts, with the number of question marks before the query and of hashes before the
      fragment. */
  datatype Target = Target(at: Authority, path: seq<byte>, marks: nat, query: seq<byte>, hashes: nat,
                           fragment: seq<byte>)

  predicate AllUrl(strict: bool, w: seq<byte>) { forall i :: 0 <= i < |w| ==> IsUrlChar(strict, w[i]) }

  predicate IsAuthority(strict: bool, connect: bool, a: Authority) {
    a.Authority? ==>
      && (if connect then a.schema == [] && a.host != [] && IsAlphaNum(a.host[0]) else a.schema != [])
      && (forall i :: 0 <= i < |a.schema| ==> IsAlpha(a.schema[i]))
      && (forall i :: 0 <= i < |a.host| ==> IsHostChar(strict, a.host[i]))
      && (forall i :: 0 <= i < |a.port| ==> IsNum(a.port[i])) && (!a.colon ==> a.port == [])
  }

  /** Behind an authority the path may be missing, and then there is no hash without a question mark. */
  predicate IsPath(strict: bool, t: Target) {
    && (t.path != [] ==>
          (t.path[0] == SLASH || (t.at.NoAuthority? && t.path[0] == STAR)) && AllUrl(strict, t.path[1..]))
    && (t.path == [] ==> t.at.Authority? && (t.hashes > 0 ==> t.marks > 0))
  }

  predicate IsTarget(strict: bool, connect: bool, t: Target) {
    && IsAuthority(strict, connect, t.at) && IsPath(strict, t)
    && (t.query != [] ==> t.marks > 0 && t.query[0] != QUESTION)
    && (forall i :: 0 <= i < |t.query| ==> IsUrlChar(strict, t.query[i]) || t.query[i] == QUESTION)
    && (t.fragment != [] ==> t.hashes > 0 && t.fragment[0] != HASH)
    && (forall i :: 0 <= i < |t.fragment| ==>
          IsUrlChar(strict, t.fragment[i]) || t.fragment[i] == QUESTION || t.fragment[i] == HASH)
  }

  const COLON_SLASHES: seq<byte> := [COLON, SLASH, SLASH]

  function PrintSchema(w: seq<byte>): seq<byte> { if w == [] then [] else w + COLON_SLASHES }

  function PrintAuthority(a: Authority): seq<byte> {
    if a.NoAuthority? then [] else PrintSchema(a.schema) + a.host + Marked(COLON, if a.colon then 1 else 0, a.port)
  }

  /** A part of the URL behind its marks. */
  function Marked(mark: byte, k: nat, w: seq<byte>): seq<byte> { Times(mark, k) + w }

  function PrintTarget(t: Target): seq<byte> {
    PrintAuthority(t.at) + t.path + Marked(QUESTION, t.marks, t.query) + Marked(HASH, t.hashes, t.fragment)
  }

  /** One to three digits. */
  predicate IsNumber(ds: seq<byte>) { ds != [] && (forall i :: 0 <= i < |ds| ==> IsNum(ds[i])) && Decimal(ds) <= 999 }

  datatype Version = Version(major: seq<byte>, minor: seq<byte>)

  predicate IsVersion(v: Version) { IsNumber(v.major) && IsNumber(v.minor) && v.major[0] != DIGIT_0 }

  const HTTP_SLASH: seq<byte> := [H_, T_, T_, P_, SLASH]

  function PrintVersion(v: Version): seq<byte> { HTTP_SLASH + v.major + [DOT] + v.minor }

  /** A request line ends with a version, perhaps behind more spaces, or (HTTP/0.9) right behind the target. */
  datatype LineEnd = Http(gap: nat, version: Version, eol: seq<byte>) | Old(eol: seq<byte>)

  predicate IsLineEnd(t: Target, e: LineEnd) {
    IsEol(e.eol) && if e.Http? then IsVersion(e.version) else t.path != [] || t.marks > 0
  }

  function PrintLineEnd(e: LineEnd): seq<byte> {
    if e.Http? then [SP] + (Times(SP, e.gap) + PrintVersion(e.version) + e.eol) else e.eol
  }

  function MajorOf(e: LineEnd): nat { if e.Http? then Decimal(e.version.major) else 0 }

  function MinorOf(e: LineEnd): nat { if e.Http? then Decimal(e.version.minor) else 9 }

  /** Blank lines, the method, spaces, the target, and the end. */
  function PrintRequestLine(lead: seq<byte>, m: Method, gap: nat, t: Target, e: LineEnd): seq<byte> {
    lead + (MethodString(m) + [SP]) + Times(SP, gap) + PrintTarget(t) + PrintLineEnd(e)
  }

  // ---------- Blank lines and spaces ----------

  lemma {:induction false} ReadBlankLines(cfg: Config, r: Run, w: seq<byte>)
    requires r.status.Running? && (r.s.state.StartReq? || r.s.state.StartReqOrRes?)
    requires AreBlankLines(w) && r.s.nread + |w| <= HTTP_MAX_HEADER_SIZE
    ensures ReadAll(cfg, r, w) == Later(r, r.s, r.o, |w|)
  {
    hide Read;
    if w != [] {
      var n := |w| - 1;
      ReadBlankLines(cfg, r, w[..n]);
      BlankByte(cfg, ReadAll(cfg, r, w[..n]), w[n]);
    }
  }

  lemma BlankByte(cfg: Config, r: Run, b: byte)
    requires r.status.Running? && (r.s.state.StartReq? || r.s.state.StartReqOrRes?)
    requires (b == CR || b == LF) && r.s.nread + 1 <= HTTP_MAX_HEADER_SIZE
    ensures Read(cfg, r, b) == Later(r, r.s, r.o, 1)
  {
    hide InfoOf, Apply, FirstMethod;
  }

  /** Spaces before the target. */
  lemma {:induction false} ReadSpaces(cfg: Config, r: Run, k: nat)
    requires r.status.Running? && r.s.state == ReqUrl(ReqSpacesBeforeUrl) && r.s.nread + k <= HTTP_MAX_HEADER_SIZE
    ensures ReadAll(cfg, r, Times(SP, k)) == Later(r, r.s, r.o, k)
  {
    hide Read;
    var w := Times(SP, k);
    if k > 0 {
      ReadSpaces(cfg, r, k - 1);
      assert w[..k - 1] == Times(SP, k - 1);
      var u := ReadAll(cfg, r, w[..k - 1]);
      SpaceStays(cfg, u);
    }
  }

  lemma SpaceStays(cfg: Config, r: Run)
    requires r.status.Running? && r.s.state == ReqUrl(ReqSpacesBeforeUrl) && r.s.nread + 1 <= HTTP_MAX_HEADER_SIZE
    ensures Read(cfg, r, SP) == Later(r, r.s, r.o, 1)
  {
    hide InfoOf, Apply;
  }

  // ---------- The method ----------

  /** The same run, `k` header bytes later. */
  function Later(r: Run, s: Parser, o: Obs, k: nat): Run { Run(Running, s.(nread := r.s.nread + k), o, r.n + k) }

  function BegunObs(o: Obs): Obs { Obs(o.done, EMPTY_MESSAGE.(begins := 1), Line) }

  lemma FirstLetter(cfg: Config, r: Run, m: Method)
    requires r.status.Running? && r.s.state.StartReq? && Fresh(r.o) && r.s.nread + 1 <= HTTP_MAX_HEADER_SIZE
    ensures Read(cfg, r, MethodString(m)[0])
         == Later(r, Begun(r.s).(state := ReqMethod, verb := Candidate(m, 1), index := 1), BegunObs(r.o), 1)
  {
    FirstByte(m);
    hide MethodString, FirstMethod, Candidate, InfoOf;
    ApplyOne(r.o, MessageBegin(r.s.kind.Response?));
  }

  lemma NextLetter(cfg: Config, r: Run, m: Method, i: nat)
    requires r.status.Running? && r.s.state.ReqMethod? && r.s.verb == Candidate(m, i) && r.s.index == i
    requires 1 <= i < |MethodString(m)| && r.s.nread + 1 <= HTTP_MAX_HEADER_SIZE
    ensures Read(cfg, r, MethodString(m)[i]) == Later(r, r.s.(verb := Candidate(m, i + 1), index := i + 1), r.o, 1)
  {
    CandidateStep(m, i);
    hide MethodString, FirstMethod, Candidate, InfoOf, Switch, Apply;
  }

  lemma {:induction false} ReadMethod(cfg: Config, r: Run, m: Method, i: nat)
    requires r.status.Running? && r.s.state.StartReq? && Fresh(r.o)
    requires 1 <= i <= |MethodString(m)| && r.s.nread + i <= HTTP_MAX_HEADER_SIZE
    ensures ReadAll(cfg, r, MethodString(m)[..i])
         == Later(r, Begun(r.s).(state := ReqMethod, verb := Candidate(m, i), index := i), BegunObs(r.o), i)
  {
    hide MethodString, Candidate, Read;
    var w := MethodString(m);
    if i == 1 {
      assert w[..1] == [w[0]];
      ReadOne(cfg, r, w[0]);
      FirstLetter(cfg, r, m);
    } else {
      ReadMethod(cfg, r, m, i - 1);
      assert w[..i][..i - 1] == w[..i - 1];
      NextLetter(cfg, ReadAll(cfg, r, w[..i - 1]), m, i - 1);
    }
  }

  /** The method and the space after it. */
  lemma ReadVerb(cfg: Config, r: Run, m: Method)
    requires r.status.Running? && r.s.state.StartReq? && Fresh(r.o)
    requires r.s.nread + |MethodString(m)| + 1 <= HTTP_MAX_HEADER_SIZE
    ensures var k := |MethodString(m)| + 1;
      ReadAll(cfg, r, MethodString(m) + [SP])
      == Later(r, Begun(r.s).(state := ReqUrl(ReqSpacesBeforeUrl), verb := m, index := k), BegunObs(r.o), k)
  {
    var w := MethodString(m);
    FirstByte(m);
    MethodBytes(m);
    assert w[..|w|] == w;
    hide MethodString, Candidate, Read;
    ReadMethod(cfg, r, m, |w|);
    ReadAllSplit(cfg, r, w, [SP]);
    var u := ReadAll(cfg, r, w);
    ReadOne(cfg, u, SP);
    EndOfMethod(cfg, u);
  }

  lemma EndOfMethod(cfg: Config, r: Run)
    requires r.status.Running? && r.s.state.ReqMethod? && r.s.index == |MethodString(r.s.verb)|
    requires r.s.nread + 1 <= HTTP_MAX_HEADER_SIZE
    ensures Read(cfg, r, SP) == Later(r, r.s.(state := ReqUrl(ReqSpacesBeforeUrl), index := r.s.index + 1), r.o, 1)
  {
    hide MethodString, Switch, InfoOf, Apply;
  }

  // ---------- The target ----------

  /** A byte of the URL or the version, within the budget. */
  lemma LineByte(cfg: Config, r: Run, b: byte, mv: LineMove)
    requires r.status.Running? && r.s.nread + 1 <= HTTP_MAX_HEADER_SIZE && !mv.Bad?
    requires match r.s.state
             case ReqUrl(at) => mv == UrlNext(cfg.strict, at, r.s.verb.CONNECT?, b)
             case ReqVersion(at) => mv == VersionNext(cfg.strict, at, r.s.major, r.s.minor, b)
             case _ => false
    ensures var s := Follow(Past(r.s, 1), mv).s; Read(cfg, r, b) == Run(Running, s, Feed(r.o, s.state, b), r.n + 1)
  {
    hide UrlNext, VersionNext, InfoOf, Feed, Apply;
  }

  /** The URL and the part of it that is open in state `at` are longer by `w`. */
  function Grown(m: Message, at: UrlState, w: seq<byte>): Message {
    var m1 := m.(url := m.url + w);
    match at
    case ReqPath => m1.(path := m.path + w)
    case ReqQueryString => m1.(query := m.query + w)
    case ReqFragment => m1.(fragment := m.fragment + w)
    case _ => m1
  }

  lemma FeedGrows(o: Obs, at: UrlState, b: byte)
    requires o.phase.Line? && !at.ReqSpacesBeforeUrl?
    ensures Feed(o, ReqUrl(at), b) == o.(cur := Grown(o.cur, at, [b]))
  {
  }

  lemma GrownTwice(m: Message, at: UrlState, a: seq<byte>, b: seq<byte>)
    ensures Grown(Grown(m, at, a), at, b) == Grown(m, at, a + b) && Grown(m, at, []) == m
  {
    assert m.url + a + b == m.url + (a + b) && m.path + a + b == m.path + (a + b);
    assert m.query + a + b == m.query + (a + b) && m.fragment + a + b == m.fragment + (a + b);
    assert m.url + [] == m.url && m.path + [] == m.path && m.query + [] == m.query && m.fragment + [] == m.fragment;
  }

  /** A byte that leads to URL state `at`. */
  lemma UrlByte(cfg: Config, r: Run, b: byte, at: UrlState)
    requires r.status.Running? && r.s.nread + 1 <= HTTP_MAX_HEADER_SIZE && r.o.phase.Line? && r.s.state.ReqUrl?
    requires UrlNext(cfg.strict, r.s.state.url, r.s.verb.CONNECT?, b) == Goto(ReqUrl(at)) && !at.ReqSpacesBeforeUrl?
    ensures Read(cfg, r, b) == Later(r, r.s.(state := ReqUrl(at)), r.o.(cur := Grown(r.o.cur, at, [b])), 1)
  {
    hide UrlNext, Feed, Grown, Read;
    LineByte(cfg, r, b, Goto(ReqUrl(at)));
    FeedGrows(r.o, at, b);
  }

  /** Bytes that stay in URL state `at`. */
  lemma {:induction false} ReadPart(cfg: Config, r: Run, w: seq<byte>, at: UrlState)
    requires r.status.Running? && r.s.state == ReqUrl(at) && r.o.phase.Line? && !at.ReqSpacesBeforeUrl?
    requires r.s.nread + |w| <= HTTP_MAX_HEADER_SIZE
    requires forall i :: 0 <= i < |w| ==> UrlNext(cfg.strict, at, r.s.verb.CONNECT?, w[i]) == Goto(ReqUrl(at))
    ensures ReadAll(cfg, r, w) == Later(r, r.s, r.o.(cur := Grown(r.o.cur, at, w)), |w|)
  {
    hide UrlNext, Grown, Read;
    GrownTwice(r.o.cur, at, [], []);
    if w != [] {
      var n := |w| - 1;
      ReadPart(cfg, r, w[..n], at);
      UrlByte(cfg, ReadAll(cfg, r, w[..n]), w[n], at);
      GrownTwice(r.o.cur, at, w[..n], [w[n]]);
      assert w[..n] + [w[n]] == w;
    }
  }

  /** The first byte of `w` leads from `start` to `at`, and the others stay there. */
  predicate Leads(strict: bool, connect: bool, start: UrlState, at: UrlState, w: seq<byte>) {
    && (w != [] ==> UrlNext(strict, start, connect, w[0]) == Goto(ReqUrl(at)))
    && forall i :: 1 <= i < |w| ==> UrlNext(strict, at, connect, w[i]) == Goto(ReqUrl(at))
  }

  /** A byte into a part of the URL, and the rest of that part. */
  lemma ReadFrom(cfg: Config, r: Run, w: seq<byte>, at: UrlState)
    requires r.status.Running? && r.s.state.ReqUrl? && r.o.phase.Line? && !at.ReqSpacesBeforeUrl? && w != []
    requires r.s.nread + |w| <= HTTP_MAX_HEADER_SIZE
    requires Leads(cfg.strict, r.s.verb.CONNECT?, r.s.state.url, at, w)
    ensures ReadAll(cfg, r, w) == Later(r, r.s.(state := ReqUrl(at)), r.o.(cur := Grown(r.o.cur, at, w)), |w|)
  {
    hide UrlNext, Grown, Read;
    var front, rest := [w[0]], w[1..];
    assert w == front + rest;
    ReadAllSplit(cfg, r, front, rest);
    ReadOne(cfg, r, w[0]);
    UrlByte(cfg, r, w[0], at);
    ReadPart(cfg, Read(cfg, r, w[0]), rest, at);
    GrownTwice(r.o.cur, at, front, rest);
  }

  /** Where the URL automaton is behind the authority. */
  function AuthorityEnd(a: Authority): UrlState {
    if a.NoAuthority? then ReqSpacesBeforeUrl else if a.colon then ReqPort else ReqHost
  }

  /** How the URL automaton moves on the bytes of an authority. */
  lemma AuthorityMoves(strict: bool, connect: bool, a: Authority)
    requires IsAuthority(strict, connect, a) && a.Authority?
    ensures !connect ==> Leads(strict, connect, ReqSpacesBeforeUrl, ReqSchema, a.schema)
    ensures !connect ==> Leads(strict, connect, ReqHost, ReqHost, a.host)
    ensures connect ==> Leads(strict, connect, ReqSpacesBeforeUrl, ReqHost, a.host)
    ensures Leads(strict, connect, ReqPort, ReqPort, a.port) && (a.port != [] ==> a.colon)
  {
  }

  /** How it moves on the bytes of the rest of a target. */
  lemma TargetMoves(strict: bool, connect: bool, t: Target)
    requires IsTarget(strict, connect, t)
    ensures Leads(strict, connect, AuthorityEnd(t.at), ReqPath, t.path)
    ensures Leads(strict, connect, ReqQueryStringStart, ReqQueryString, t.query)
    ensures Leads(strict, connect, ReqFragmentStart, ReqFragment, t.fragment)
  {
    hide IsUrlChar, IsAuthority;
    assert forall i :: 1 <= i < |t.path| ==> t.path[i] == t.path[1..][i - 1];
  }

  /** Where the URL automaton may be at the end of a printed part. */
  predicate AfterPart(at: UrlState) { Bare(at) || Ends(at) }

  predicate Bare(at: UrlState) { at.ReqHost? || at.ReqPort? }

  /** ... and the line may end without a version. */
  predicate Ends(at: UrlState) {
    at.ReqPath? || at.ReqQueryStringStart? || at.ReqQueryString? || at.ReqFragmentStart? || at.ReqFragment?
  }

  predicate BeforeHash(at: UrlState) { at.ReqPath? || at.ReqQueryStringStart? || at.ReqQueryString? }

  lemma MarkMoves(strict: bool, connect: bool, at: UrlState)
    ensures at.ReqHost? ==> UrlNext(strict, at, connect, COLON) == Goto(ReqUrl(ReqPort))
    ensures at.ReqPath? || Bare(at) || at.ReqQueryStringStart? ==>
      UrlNext(strict, at, connect, QUESTION) == Goto(ReqUrl(ReqQueryStringStart))
    ensures BeforeHash(at) || at.ReqFragmentStart? ==>
      UrlNext(strict, at, connect, HASH) == Goto(ReqUrl(ReqFragmentStart))
    ensures AfterPart(at) ==> UrlNext(strict, at, connect, SP) == Goto(ReqVersion(ReqHttpStart))
    ensures Ends(at) ==> UrlNext(strict, at, connect, CR) == Http09(ReqVersion(ReqLineAlmostDone))
    ensures Ends(at) ==> UrlNext(strict, at, connect, LF) == Http09(Head(HeaderFieldStart))
  {
  }

  lemma SlashMoves(strict: bool, connect: bool)
    ensures UrlNext(strict, ReqSchema, connect, COLON) == Goto(ReqUrl(ReqSchemaSlash))
    ensures UrlNext(strict, ReqSchemaSlash, connect, SLASH) == Goto(ReqUrl(ReqSchemaSlashSlash))
    ensures UrlNext(strict, ReqSchemaSlashSlash, connect, SLASH) == Goto(ReqUrl(ReqHost))
  {
  }

  /** The message after a part behind its marks, and the state it leaves. */
  function Extended(m: Message, mark: byte, k: nat, w: seq<byte>, at: UrlState): Message {
    Grown(UrlOnly(m, Times(mark, k)), at, w)
  }

  function PartEnd(start: UrlState, w: seq<byte>, at: UrlState): UrlState { if w == [] then start else at }

  function MarkedEnd(start: UrlState, k: nat, first: UrlState, w: seq<byte>, at: UrlState): UrlState {
    PartEnd(if k == 0 then start else first, w, at)
  }

  /** What bytes in no other span than the URL leave in the message. */
  function UrlOnly(m: Message, w: seq<byte>): Message { m.(url := m.url + w) }

  predicate MarkState(at: UrlState) { at.ReqQueryStringStart? || at.ReqFragmentStart? || at.ReqPort? }

  lemma ReadMarks(cfg: Config, r: Run, mark: byte, k: nat, first: UrlState)
    requires r.status.Running? && r.s.state.ReqUrl? && r.o.phase.Line? && r.s.nread + k <= HTTP_MAX_HEADER_SIZE
    requires MarkState(first)
    requires k > 0 ==> UrlNext(cfg.strict, r.s.state.url, r.s.verb.CONNECT?, mark) == Goto(ReqUrl(first))
    requires k > 1 ==> UrlNext(cfg.strict, first, r.s.verb.CONNECT?, mark) == Goto(ReqUrl(first))
    ensures ReadAll(cfg, r, Times(mark, k))
         == Later(r, r.s.(state := if k == 0 then r.s.state else ReqUrl(first)),
                  r.o.(cur := UrlOnly(r.o.cur, Times(mark, k))), k)
  {
    hide UrlNext, Read;
    if k == 0 { assert r.o.cur.url + [] == r.o.cur.url; } else { ReadFrom(cfg, r, Times(mark, k), first); }
  }

  /** A part of the URL behind its marks. */
  lemma ReadMarked(cfg: Config, r: Run, mark: byte, k: nat, w: seq<byte>, first: UrlState, at: UrlState)
    requires r.status.Running? && r.s.state.ReqUrl? && r.o.phase.Line?
    requires r.s.nread + |Marked(mark, k, w)| <= HTTP_MAX_HEADER_SIZE && (w != [] ==> k > 0)
    requires MarkState(first) && !at.ReqSpacesBeforeUrl?
    requires k > 0 ==> UrlNext(cfg.strict, r.s.state.url, r.s.verb.CONNECT?, mark) == Goto(ReqUrl(first))
    requires k > 1 ==> UrlNext(cfg.strict, first, r.s.verb.CONNECT?, mark) == Goto(ReqUrl(first))
    requires Leads(cfg.strict, r.s.verb.CONNECT?, first, at, w)
    ensures ReadAll(cfg, r, Marked(mark, k, w))
         == Later(r, r.s.(state := ReqUrl(MarkedEnd(r.s.state.url, k, first, w, at))),
                  r.o.(cur := Extended(r.o.cur, mark, k, w, at)), |Marked(mark, k, w)|)
  {
    hide UrlNext, Read, ReadAll, Leads, Grown, UrlOnly;
    var marks := Times(mark, k);
    ReadMarks(cfg, r, mark, k, first);
    ReadAllSplit(cfg, r, marks, w);
    var u := ReadAll(cfg, r, marks);
    if w == [] {
      GrownTwice(u.o.cur, at, [], []);
      ReadEmpty(cfg, u);
    } else {
      ReadFrom(cfg, u, w, at);
    }
  }

  lemma ReadEmpty(cfg: Config, r: Run)
    ensures ReadAll(cfg, r, []) == r
  {
  }

  // ---------- The authority ----------

  /** A run whose URL is longer by `w` and whose automaton is at `at`. */
  function Passed(r: Run, at: UrlState, w: seq<byte>): Run {
    Later(r, r.s.(state := ReqUrl(at)), r.o.(cur := UrlOnly(r.o.cur, w)), |w|)
  }

  lemma PassedTwice(r: Run, a: UrlState, v: seq<byte>, b: UrlState, w: seq<byte>)
    requires r.status.Running?
    ensures Passed(Passed(r, a, v), b, w) == Passed(r, b, v + w)
  {
    assert r.o.cur.url + v + w == r.o.cur.url + (v + w);
  }

  lemma PassedByte(cfg: Config, r: Run, b: byte, at: UrlState)
    requires r.status.Running? && r.s.nread + 1 <= HTTP_MAX_HEADER_SIZE && r.o.phase.Line? && r.s.state.ReqUrl?
    requires at.ReqSchemaSlash? || at.ReqSchemaSlashSlash? || at.ReqHost?
    requires UrlNext(cfg.strict, r.s.state.url, r.s.verb.CONNECT?, b) == Goto(ReqUrl(at))
    ensures Read(cfg, r, b) == Passed(r, at, [b])
  {
    hide UrlNext, Read;
    UrlByte(cfg, r, b, at);
  }

  lemma ReadSlashes(cfg: Config, r: Run)
    requires r.status.Running? && r.s.state == ReqUrl(ReqSchema) && r.o.phase.Line?
    requires r.s.nread + 3 <= HTTP_MAX_HEADER_SIZE
    ensures ReadAll(cfg, r, COLON_SLASHES) == Passed(r, ReqHost, COLON_SLASHES)
  {
    hide UrlNext, Read, UrlOnly;
    var connect := r.s.verb.CONNECT?;
    SlashMoves(cfg.strict, connect);
    PassedByte(cfg, r, COLON, ReqSchemaSlash);
    var r1 := Read(cfg, r, COLON);
    PassedByte(cfg, r1, SLASH, ReqSchemaSlashSlash);
    var r2 := Read(cfg, r1, SLASH);
    PassedByte(cfg, r2, SLASH, ReqHost);
    PassedTwice(r, ReqSchemaSlash, [COLON], ReqSchemaSlashSlash, [SLASH]);
    PassedTwice(r, ReqSchemaSlashSlash, [COLON] + [SLASH], ReqHost, [SLASH]);
    assert COLON_SLASHES == [COLON] + [SLASH] + [SLASH];
    ReadAllSplit(cfg, r, [COLON] + [SLASH], [SLASH]);
    ReadAllSplit(cfg, r, [COLON], [SLASH]);
    ReadOne(cfg, r, COLON);
    ReadOne(cfg, r1, SLASH);
    ReadOne(cfg, r2, SLASH);
  }

  /** A part that is in no other span than the URL; it may be empty if the automaton is there already. */
  lemma ReadBare(cfg: Config, r: Run, w: seq<byte>, at: UrlState)
    requires r.status.Running? && r.s.state.ReqUrl? && r.o.phase.Line? && (at.ReqSchema? || at.ReqHost?)
    requires r.s.nread + |w| <= HTTP_MAX_HEADER_SIZE && (w == [] ==> r.s.state.url == at)
    requires Leads(cfg.strict, r.s.verb.CONNECT?, r.s.state.url, at, w)
    ensures ReadAll(cfg, r, w) == Passed(r, at, w)
  {
    hide UrlNext, Read, Leads;
    if w == [] { assert r.o.cur.url + [] == r.o.cur.url; } else { ReadFrom(cfg, r, w, at); }
  }

  /** The schema and the host. */
  lemma ReadHost(cfg: Config, r: Run, a: Authority)
    requires r.status.Running? && r.s.state == ReqUrl(ReqSpacesBeforeUrl) && r.o.phase.Line? && a.Authority?
    requires IsAuthority(cfg.strict, r.s.verb.CONNECT?, a)
    requires r.s.nread + |PrintSchema(a.schema)| + |a.host| <= HTTP_MAX_HEADER_SIZE
    ensures ReadAll(cfg, r, PrintSchema(a.schema) + a.host) == Passed(r, ReqHost, PrintSchema(a.schema) + a.host)
  {
    hide UrlNext, Read, ReadAll, Leads, UrlOnly;
    AuthorityMoves(cfg.strict, r.s.verb.CONNECT?, a);
    if r.s.verb.CONNECT? {
      assert PrintSchema(a.schema) + a.host == a.host;
      ReadBare(cfg, r, a.host, ReqHost);
    } else {
      var w := a.schema + COLON_SLASHES;
      ReadBare(cfg, r, a.schema, ReqSchema);
      ReadAllSplit(cfg, r, a.schema, COLON_SLASHES);
      ReadSlashes(cfg, ReadAll(cfg, r, a.schema));
      PassedTwice(r, ReqSchema, a.schema, ReqHost, COLON_SLASHES);
      ReadAllSplit(cfg, r, w, a.host);
      ReadBare(cfg, ReadAll(cfg, r, w), a.host, ReqHost);
      PassedTwice(r, ReqHost, w, ReqHost, a.host);
    }
  }

  lemma ReadAuthority(cfg: Config, r: Run, a: Authority)
    requires r.status.Running? && r.s.state == ReqUrl(ReqSpacesBeforeUrl) && r.o.phase.Line?
    requires IsAuthority(cfg.strict, r.s.verb.CONNECT?, a)
    requires r.s.nread + |PrintAuthority(a)| <= HTTP_MAX_HEADER_SIZE
    ensures ReadAll(cfg, r, PrintAuthority(a)) == Passed(r, AuthorityEnd(a), PrintAuthority(a))
  {
    hide UrlNext, Read, Leads, IsAuthority;
    assert r.o.cur.url + [] == r.o.cur.url;
    if a.Authority? {
      hide ReadAll, UrlOnly, PrintSchema;
      var k := if a.colon then 1 else 0;
      var w, port := PrintSchema(a.schema) + a.host, Marked(COLON, k, a.port);
      ReadHost(cfg, r, a);
      var r1 := ReadAll(cfg, r, w);
      ReadAllSplit(cfg, r, w, port);
      AuthorityMoves(cfg.strict, r.s.verb.CONNECT?, a);
      MarkMoves(cfg.strict, r.s.verb.CONNECT?, ReqHost);
      ReadMarked(cfg, r1, COLON, k, a.port, ReqPort, ReqPort);
      PortJoins(r1.o.cur, k, a.port);
      PassedTwice(r, ReqHost, w, AuthorityEnd(a), port);
    }
  }

  lemma PortJoins(m: Message, k: nat, w: seq<byte>)
    ensures Extended(m, COLON, k, w, ReqPort) == UrlOnly(m, Marked(COLON, k, w))
  {
    assert m.url + Times(COLON, k) + w == m.url + (Times(COLON, k) + w);
  }

  // ---------- The path, the query and the fragment ----------

  /** What the target leaves in the message. */
  function WithTarget(m: Message, t: Target): Message {
    m.(url := m.url + PrintTarget(t), path := m.path + t.path, query := m.query + t.query,
        fragment := m.fragment + t.fragment)
  }

  /** The message after the authority, the path and the optional parts. */
  lemma PartsJoin(m: Message, t: Target)
    ensures WithTarget(m, t)
         == Extended(Extended(Grown(UrlOnly(m, PrintAuthority(t.at)), ReqPath, t.path), QUESTION, t.marks, t.query,
                              ReqQueryString), HASH, t.hashes, t.fragment, ReqFragment)
  {
    var a, q, h := PrintAuthority(t.at), Times(QUESTION, t.marks), Times(HASH, t.hashes);
    var w := m.url + a + t.path;
    assert w + q + t.query == w + (q + t.query);
    assert w + (q + t.query) + h + t.fragment == w + (q + t.query) + (h + t.fragment);
    assert w + (q + t.query) + (h + t.fragment) == m.url + (a + t.path + (q + t.query) + (h + t.fragment));
  }

  /** A path, which may be missing. */
  lemma ReadPath(cfg: Config, r: Run, w: seq<byte>)
    requires r.status.Running? && r.s.state.ReqUrl? && r.o.phase.Line? && r.s.nread + |w| <= HTTP_MAX_HEADER_SIZE
    requires Leads(cfg.strict, r.s.verb.CONNECT?, r.s.state.url, ReqPath, w)
    ensures ReadAll(cfg, r, w)
         == Later(r, r.s.(state := ReqUrl(PartEnd(r.s.state.url, w, ReqPath))), r.o.(cur := Grown(r.o.cur, ReqPath, w)),
                  |w|)
  {
    hide UrlNext, Read, Leads;
    if w == [] { GrownTwice(r.o.cur, ReqPath, [], []); } else { ReadFrom(cfg, r, w, ReqPath); }
  }

  /** Where the automaton is after the path, and after the query. */
  function PathEnd(t: Target): UrlState { PartEnd(AuthorityEnd(t.at), t.path, ReqPath) }

  function QueryEnd(t: Target): UrlState {
    MarkedEnd(PathEnd(t), t.marks, ReqQueryStringStart, t.query, ReqQueryString)
  }

  function TargetEnd(t: Target): UrlState {
    MarkedEnd(QueryEnd(t), t.hashes, ReqFragmentStart, t.fragment, ReqFragment)
  }

  /** Which parts may follow which. */
  lemma PartsFollow(strict: bool, connect: bool, t: Target)
    requires IsTarget(strict, connect, t)
    ensures t.marks > 0 ==>
      UrlNext(strict, PathEnd(t), connect, QUESTION) == Goto(ReqUrl(ReqQueryStringStart))
      && UrlNext(strict, ReqQueryStringStart, connect, QUESTION) == Goto(ReqUrl(ReqQueryStringStart))
    ensures t.hashes > 0 ==>
      UrlNext(strict, QueryEnd(t), connect, HASH) == Goto(ReqUrl(ReqFragmentStart))
      && UrlNext(strict, ReqFragmentStart, connect, HASH) == Goto(ReqUrl(ReqFragmentStart))
    ensures AfterPart(TargetEnd(t)) && (t.path != [] || t.marks > 0 ==> Ends(TargetEnd(t)))
  {
    hide UrlNext, IsAuthority, IsUrlChar;
    MarkMoves(strict, connect, PathEnd(t));
    MarkMoves(strict, connect, QueryEnd(t));
    MarkMoves(strict, connect, ReqQueryStringStart);
    MarkMoves(strict, connect, ReqFragmentStart);
  }

  /** A printed target is in the URL as a whole, and its path, query and fragment are in their spans. */
  lemma ReadTarget(cfg: Config, r: Run, t: Target)
    requires r.status.Running? && r.s.state == ReqUrl(ReqSpacesBeforeUrl) && r.o.phase.Line?
    requires IsTarget(cfg.strict, r.s.verb.CONNECT?, t)
    requires r.s.nread + |PrintTarget(t)| <= HTTP_MAX_HEADER_SIZE
    ensures ReadAll(cfg, r, PrintTarget(t))
         == Later(r, r.s.(state := ReqUrl(TargetEnd(t))), r.o.(cur := WithTarget(r.o.cur, t)), |PrintTarget(t)|)
  {
    hide UrlNext, Read, ReadAll, Grown, Extended, WithTarget, Marked, Leads, Past, UrlOnly, PrintAuthority,
      IsUrlChar, IsPath, IsAuthority, AuthorityEnd;
    var connect, a := r.s.verb.CONNECT?, PrintAuthority(t.at);
    var q, f := Marked(QUESTION, t.marks, t.query), Marked(HASH, t.hashes, t.fragment);
    TargetMoves(cfg.strict, connect, t);
    PartsFollow(cfg.strict, connect, t);
    PartsJoin(r.o.cur, t);
    ReadAuthority(cfg, r, t.at);
    var r0 := ReadAll(cfg, r, a);
    ReadAllSplit(cfg, r, a, t.path);
    ReadPath(cfg, r0, t.path);
    var r1 := ReadAll(cfg, r, a + t.path);
    ReadAllSplit(cfg, r, a + t.path, q);
    ReadMarked(cfg, r1, QUESTION, t.marks, t.query, ReqQueryStringStart, ReqQueryString);
    var r2 := ReadAll(cfg, r1, q);
    ReadAllSplit(cfg, r, a + t.path + q, f);
    ReadMarked(cfg, r2, HASH, t.hashes, t.fragment, ReqFragmentStart, ReqFragment);
  }

  lemma NothingFed(o: Obs, at: VersionState, b: byte)
    ensures Feed(o, ReqVersion(at), b) == o && Feed(o, Head(HeaderFieldStart), b) == o
  {
  }

  // ---------- The version ----------

  /** A byte of the version that leads to another place in it, or to the headers. */
  lemma VersionByte(cfg: Config, r: Run, b: byte, mv: LineMove, s: Parser)
    requires r.status.Running? && r.s.nread + 1 <= HTTP_MAX_HEADER_SIZE && r.s.state.ReqVersion?
    requires mv == VersionNext(cfg.strict, r.s.state.ver, r.s.major, r.s.minor, b) && !mv.Bad?
    requires s == Follow(r.s, mv).s && (s.state.ReqVersion? || s.state == Head(HeaderFieldStart))
    ensures Read(cfg, r, b) == Later(r, s, r.o, 1)
  {
    hide VersionNext, Read, Feed;
    LineByte(cfg, r, b, mv);
    NothingFed(r.o, if s.state.ReqVersion? then s.state.ver else ReqHttpStart, b);
  }

  lemma ReadHttp(cfg: Config, r: Run)
    requires r.status.Running? && r.s.state == ReqVersion(ReqHttpStart) && r.s.nread + 5 <= HTTP_MAX_HEADER_SIZE
    ensures ReadAll(cfg, r, HTTP_SLASH) == Later(r, r.s.(state := ReqVersion(ReqFirstHttpMajor)), r.o, 5)
  {
    hide Read;
    assert HTTP_SLASH == [H_, T_] + [T_, P_] + [SLASH];
    ReadAllSplit(cfg, r, [H_, T_] + [T_, P_], [SLASH]);
    ReadAllSplit(cfg, r, [H_, T_], [T_, P_]);
    ReadTwo(cfg, r, H_, T_);
    VersionByte(cfg, r, H_, Goto(ReqVersion(ReqHttpH)), r.s.(state := ReqVersion(ReqHttpH)));
    var r1 := Read(cfg, r, H_);
    VersionByte(cfg, r1, T_, Goto(ReqVersion(ReqHttpHT)), r1.s.(state := ReqVersion(ReqHttpHT)));
    var r2 := Read(cfg, r1, T_);
    ReadTwo(cfg, r2, T_, P_);
    VersionByte(cfg, r2, T_, Goto(ReqVersion(ReqHttpHTT)), r2.s.(state := ReqVersion(ReqHttpHTT)));
    var r3 := Read(cfg, r2, T_);
    VersionByte(cfg, r3, P_, Goto(ReqVersion(ReqHttpHTTP)), r3.s.(state := ReqVersion(ReqHttpHTTP)));
    var r4 := Read(cfg, r3, P_);
    ReadOne(cfg, r4, SLASH);
    VersionByte(cfg, r4, SLASH, Goto(ReqVersion(ReqFirstHttpMajor)), r4.s.(state := ReqVersion(ReqFirstHttpMajor)));
  }

  lemma NumberPrefix(ds: seq<byte>, n: nat)
    requires IsNumber(ds) && 0 < n <= |ds|
    ensures IsNumber(ds[..n])
    decreases |ds| - n
  {
    if n == |ds| {
      assert ds[..n] == ds;
    } else {
      NumberPrefix(ds, n + 1);
      assert ds[..n + 1][..n] == ds[..n];
    }
  }

  lemma {:induction false} ReadMajor(cfg: Config, r: Run, ds: seq<byte>)
    requires r.status.Running? && r.s.state == ReqVersion(ReqFirstHttpMajor)
    requires IsNumber(ds) && ds[0] != DIGIT_0 && r.s.nread + |ds| <= HTTP_MAX_HEADER_SIZE
    ensures ReadAll(cfg, r, ds) == Later(r, r.s.(state := ReqVersion(ReqHttpMajor), major := Decimal(ds)), r.o, |ds|)
  {
    hide Read;
    var n := |ds| - 1;
    if n == 0 {
      assert ds == [ds[0]] && Decimal(ds[..0]) == 0;
      ReadOne(cfg, r, ds[0]);
      VersionByte(cfg, r, ds[0], SetMajor(Decimal(ds), ReqVersion(ReqHttpMajor)),
                  r.s.(state := ReqVersion(ReqHttpMajor), major := Decimal(ds)));
    } else {
      NumberPrefix(ds, n);
      ReadMajor(cfg, r, ds[..n]);
      var u := ReadAll(cfg, r, ds[..n]);
      VersionByte(cfg, u, ds[n], SetMajor(Decimal(ds), ReqVersion(ReqHttpMajor)), u.s.(major := Decimal(ds)));
    }
  }

  lemma {:induction false} ReadMinor(cfg: Config, r: Run, ds: seq<byte>)
    requires r.status.Running? && r.s.state == ReqVersion(ReqFirstHttpMinor)
    requires IsNumber(ds) && r.s.nread + |ds| <= HTTP_MAX_HEADER_SIZE
    ensures ReadAll(cfg, r, ds) == Later(r, r.s.(state := ReqVersion(ReqHttpMinor), minor := Decimal(ds)), r.o, |ds|)
  {
    hide Read;
    var n := |ds| - 1;
    if n == 0 {
      assert ds == [ds[0]] && Decimal(ds[..0]) == 0;
      ReadOne(cfg, r, ds[0]);
      VersionByte(cfg, r, ds[0], SetMinor(Decimal(ds), ReqVersion(ReqHttpMinor)),
                  r.s.(state := ReqVersion(ReqHttpMinor), minor := Decimal(ds)));
    } else {
      NumberPrefix(ds, n);
      ReadMinor(cfg, r, ds[..n]);
      var u := ReadAll(cfg, r, ds[..n]);
      VersionByte(cfg, u, ds[n], SetMinor(Decimal(ds), ReqVersion(ReqHttpMinor)), u.s.(minor := Decimal(ds)));
    }
  }

  lemma {:induction false} ReadGap(cfg: Config, r: Run, k: nat)
    requires r.status.Running? && r.s.state == ReqVersion(ReqHttpStart) && r.s.nread + k <= HTTP_MAX_HEADER_SIZE
    ensures ReadAll(cfg, r, Times(SP, k)) == Later(r, r.s, r.o, k)
  {
    hide Read;
    var w := Times(SP, k);
    if k > 0 {
      ReadGap(cfg, r, k - 1);
      assert w[..k - 1] == Times(SP, k - 1);
      var u := ReadAll(cfg, r, w[..k - 1]);
      VersionByte(cfg, u, SP, Goto(ReqVersion(ReqHttpStart)), u.s);
    }
  }

  lemma ReadVersion(cfg: Config, r: Run, v: Version)
    requires r.status.Running? && r.s.state == ReqVersion(ReqHttpStart) && IsVersion(v)
    requires r.s.nread + |PrintVersion(v)| <= HTTP_MAX_HEADER_SIZE
    ensures ReadAll(cfg, r, PrintVersion(v))
         == Later(r, r.s.(state := ReqVersion(ReqHttpMinor), major := Decimal(v.major), minor := Decimal(v.minor)), r.o,
             |PrintVersion(v)|)
  {
    hide Read, ReadAll, Decimal, IsNumber;
    ReadHttp(cfg, r);
    var r1 := ReadAll(cfg, r, HTTP_SLASH);
    ReadAllSplit(cfg, r, HTTP_SLASH, v.major);
    ReadMajor(cfg, r1, v.major);
    var w2 := HTTP_SLASH + v.major;
    var r2 := ReadAll(cfg, r, w2);
    ReadAllSplit(cfg, r, w2, [DOT]);
    ReadOne(cfg, r2, DOT);
    VersionByte(cfg, r2, DOT, Goto(ReqVersion(ReqFirstHttpMinor)), r2.s.(state := ReqVersion(ReqFirstHttpMinor)));
    var r3 := ReadAll(cfg, r, w2 + [DOT]);
    ReadAllSplit(cfg, r, w2 + [DOT], v.minor);
    ReadMinor(cfg, r3, v.minor);
  }

  // ---------- The end of the line ----------

  /** CR LF or a bare LF behind the version. */
  lemma ReadVersionEol(cfg: Config, r: Run, eol: seq<byte>)
    requires r.status.Running? && r.s.state == ReqVersion(ReqHttpMinor) && IsEol(eol)
    requires r.s.nread + |eol| <= HTTP_MAX_HEADER_SIZE
    ensures ReadAll(cfg, r, eol) == Later(r, r.s.(state := Head(HeaderFieldStart)), r.o, |eol|)
  {
    hide Read, ReadAll;
    if eol == [LF] {
      ReadOne(cfg, r, LF);
      VersionByte(cfg, r, LF, Goto(Head(HeaderFieldStart)), r.s.(state := Head(HeaderFieldStart)));
    } else {
      ReadTwo(cfg, r, CR, LF);
      VersionByte(cfg, r, CR, Goto(ReqVersion(ReqLineAlmostDone)), r.s.(state := ReqVersion(ReqLineAlmostDone)));
      var u := Read(cfg, r, CR);
      VersionByte(cfg, u, LF, Goto(Head(HeaderFieldStart)), u.s.(state := Head(HeaderFieldStart)));
    }
  }

  lemma UrlEndByte(cfg: Config, r: Run, b: byte, mv: LineMove, s: Parser)
    requires r.status.Running? && r.s.state.ReqUrl? && r.s.nread + 1 <= HTTP_MAX_HEADER_SIZE
    requires mv == UrlNext(cfg.strict, r.s.state.url, r.s.verb.CONNECT?, b) && !mv.Bad?
    requires s == Follow(r.s, mv).s && (s.state.ReqVersion? || s.state == Head(HeaderFieldStart))
    ensures Read(cfg, r, b) == Later(r, s, r.o, 1)
  {
    hide UrlNext, Read, Feed;
    LineByte(cfg, r, b, mv);
    NothingFed(r.o, if s.state.ReqVersion? then s.state.ver else ReqHttpStart, b);
  }

  /** A line that ends with its target is HTTP/0.9. */
  lemma ReadOldEol(cfg: Config, r: Run, eol: seq<byte>)
    requires r.status.Running? && r.s.state.ReqUrl? && Ends(r.s.state.url) && IsEol(eol)
    requires r.s.nread + |eol| <= HTTP_MAX_HEADER_SIZE
    ensures ReadAll(cfg, r, eol)
         == Later(r, r.s.(state := Head(HeaderFieldStart), major := 0, minor := 9), r.o, |eol|)
  {
    hide Read, ReadAll, UrlNext, Ends;
    MarkMoves(cfg.strict, r.s.verb.CONNECT?, r.s.state.url);
    if eol == [LF] {
      ReadOne(cfg, r, LF);
      UrlEndByte(cfg, r, LF, Http09(Head(HeaderFieldStart)),
                 r.s.(state := Head(HeaderFieldStart), major := 0, minor := 9));
    } else {
      ReadTwo(cfg, r, CR, LF);
      UrlEndByte(cfg, r, CR, Http09(ReqVersion(ReqLineAlmostDone)),
                 r.s.(state := ReqVersion(ReqLineAlmostDone), major := 0, minor := 9));
      var u := Read(cfg, r, CR);
      VersionByte(cfg, u, LF, Goto(Head(HeaderFieldStart)), u.s.(state := Head(HeaderFieldStart)));
    }
  }

  lemma ReadHttpEnd(cfg: Config, r: Run, e: LineEnd)
    requires r.status.Running? && r.s.state.ReqUrl? && AfterPart(r.s.state.url) && e.Http? && IsVersion(e.version)
    requires IsEol(e.eol) && r.s.nread + |PrintLineEnd(e)| <= HTTP_MAX_HEADER_SIZE
    ensures ReadAll(cfg, r, PrintLineEnd(e))
         == Later(r, r.s.(state := Head(HeaderFieldStart), major := MajorOf(e), minor := MinorOf(e)), r.o,
                  |PrintLineEnd(e)|)
  {
    hide Read, ReadAll, UrlNext, AfterPart, Decimal, IsVersion, IsEol, PrintVersion;
    var gap, v := Times(SP, e.gap), PrintVersion(e.version);
    MarkMoves(cfg.strict, r.s.verb.CONNECT?, r.s.state.url);
    ReadOne(cfg, r, SP);
    UrlEndByte(cfg, r, SP, Goto(ReqVersion(ReqHttpStart)), r.s.(state := ReqVersion(ReqHttpStart)));
    ReadAllSplit(cfg, r, [SP], gap + v + e.eol);
    var r1 := Read(cfg, r, SP);
    ReadGap(cfg, r1, e.gap);
    ReadAllSplit(cfg, r1, gap, v);
    ReadVersion(cfg, ReadAll(cfg, r1, gap), e.version);
    ReadAllSplit(cfg, r1, gap + v, e.eol);
    ReadVersionEol(cfg, ReadAll(cfg, r1, gap + v), e.eol);
  }

  /** What is behind the target, for either kind of line. */
  lemma ReadLineEnd(cfg: Config, r: Run, t: Target, e: LineEnd)
    requires r.status.Running? && r.s.state == ReqUrl(TargetEnd(t))
    requires IsTarget(cfg.strict, r.s.verb.CONNECT?, t) && IsLineEnd(t, e)
    requires r.s.nread + |PrintLineEnd(e)| <= HTTP_MAX_HEADER_SIZE
    ensures ReadAll(cfg, r, PrintLineEnd(e))
         == Later(r, r.s.(state := Head(HeaderFieldStart), major := MajorOf(e), minor := MinorOf(e)), r.o,
                  |PrintLineEnd(e)|)
  {
    hide Read, ReadAll, IsTarget, Ends, AfterPart, TargetEnd, IsVersion, IsEol;
    PartsFollow(cfg.strict, r.s.verb.CONNECT?, t);
    if e.Http? { ReadHttpEnd(cfg, r, e); } else { ReadOldEol(cfg, r, e.eol); }
  }

  // ---------- The line ----------

  /** Blank lines, the method and the spaces behind it. */
  lemma ReadFront(cfg: Config, r: Run, lead: seq<byte>, m: Method, gap: nat)
    requires r.status.Running? && r.s.state.StartReq? && Fresh(r.o) && AreBlankLines(lead)
    requires r.s.nread + |lead| + |MethodString(m)| + 1 + gap <= HTTP_MAX_HEADER_SIZE
    ensures var w := lead + (MethodString(m) + [SP]) + Times(SP, gap);
      ReadAll(cfg, r, w)
      == Later(r, Begun(r.s).(state := ReqUrl(ReqSpacesBeforeUrl), verb := m, index := |MethodString(m)| + 1),
               BegunObs(r.o), |w|)
  {
    hide Read, ReadAll, MethodString, AreBlankLines;
    var verb := MethodString(m) + [SP];
    ReadBlankLines(cfg, r, lead);
    ReadAllSplit(cfg, r, lead, verb);
    ReadVerb(cfg, ReadAll(cfg, r, lead), m);
    ReadAllSplit(cfg, r, lead + verb, Times(SP, gap));
    ReadSpaces(cfg, ReadAll(cfg, r, lead + verb), gap);
  }

  /** A printed request line stores its method and version (0.9 if it has none) and delivers its target with all its
      parts. */
  lemma ReadRequestLine(cfg: Config, r: Run, lead: seq<byte>, m: Method, gap: nat, t: Target, e: LineEnd)
    requires r.status.Running? && r.s.state.StartReq? && Fresh(r.o) && AreBlankLines(lead)
    requires IsTarget(cfg.strict, m.CONNECT?, t) && IsLineEnd(t, e)
    requires r.s.nread + |PrintRequestLine(lead, m, gap, t, e)| <= HTTP_MAX_HEADER_SIZE
    ensures var w := PrintRequestLine(lead, m, gap, t, e);
      ReadAll(cfg, r, w)
      == Later(r, Begun(r.s).(state := Head(HeaderFieldStart), verb := m, major := MajorOf(e), minor := MinorOf(e),
                              index := |MethodString(m)| + 1),
               Obs(r.o.done, WithTarget(EMPTY_MESSAGE.(begins := 1), t), Line), |w|)
  {
    hide Read, ReadAll, MethodString, PrintTarget, PrintLineEnd, IsTarget, IsLineEnd, AreBlankLines, MajorOf, MinorOf,
      WithTarget, TargetEnd;
    var a := lead + (MethodString(m) + [SP]) + Times(SP, gap);
    ReadFront(cfg, r, lead, m, gap);
    ReadAllSplit(cfg, r, a, PrintTarget(t));
    ReadTarget(cfg, ReadAll(cfg, r, a), t);
    ReadAllSplit(cfg, r, a + PrintTarget(t), PrintLineEnd(e));
    ReadLineEnd(cfg, ReadAll(cfg, r, a + PrintTarget(t)), t, e);
  }
}
