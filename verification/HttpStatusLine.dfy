/** Status lines: what is printed is what the parser stores. */
module HttpStatusLine {
  import opened Bytes
  import opened HttpChars
  import opened HttpTypes
  import opened HttpStep
  import opened HttpInvariants
  import opened HttpTrace
  import opened HttpBody
  import opened HttpHeaderLines
  import opened HttpChunks
  import opened HttpRequestLine

  // ---------- The printed form ----------

  /** The reason phrase, which may be missing with the space before it. */
  datatype Reason = NoReason | Reason(text: seq<byte>)

  predicate IsReason(w: Reason) { w.Reason? ==> CR !in w.text && LF !in w.text }

  function PrintReason(w: Reason): seq<byte> { if w.Reason? then [SP] + w.text else [] }

  /** Blank lines, the version, spaces, the status, and perhaps a reason. */
  function PrintStatusLine(lead: seq<byte>, v: Version, gap: nat, status: seq<byte>, reason: Reason, eol: seq<byte>)
    : seq<byte>
  {
    lead + PrintVersion(v) + [SP] + Times(SP, gap) + status + PrintReason(reason) + eol
  }

  // ---------- Reading it ----------

  /** What has been delivered before the status line: a begin for every line end. */
  function BeginsObs(o: Obs, k: nat): Obs {
    if k == 0 then o else Obs(o.done, EMPTY_MESSAGE.(begins := k), Line)
  }

  function Blanks(s: Parser, k: nat): Parser { if k == 0 then s else Begun(s) }

  /** A response parser begins a message with every byte before its status line. */
  lemma {:induction false} ReadStatusLead(cfg: Config, r: Run, w: seq<byte>)
    requires r.status.Running? && r.s.state.StartRes? && r.s.kind.Response? && Fresh(r.o)
    requires AreBlankLines(w) && r.s.nread + |w| <= HTTP_MAX_HEADER_SIZE
    ensures ReadAll(cfg, r, w) == Later(r, Blanks(r.s, |w|), BeginsObs(r.o, |w|), |w|)
  {
    hide Read;
    if w != [] {
      var n := |w| - 1;
      ReadStatusLead(cfg, r, w[..n]);
      StatusBegins(cfg, ReadAll(cfg, r, w[..n]), r.o, n, w[n]);
    }
  }

  lemma StatusBegins(cfg: Config, r: Run, o: Obs, k: nat, b: byte)
    requires r.status.Running? && r.s.state.StartRes? && r.s.kind.Response? && Fresh(o) && r.o == BeginsObs(o, k)
    requires (b == CR || b == LF || b == H_) && r.s.nread + 1 <= HTTP_MAX_HEADER_SIZE
    ensures Read(cfg, r, b)
         == Later(r, Begun(r.s).(state := if b == H_ then ResLine(ResH) else StartRes), BeginsObs(o, k + 1), 1)
  {
    hide InfoOf;
    ApplyOne(r.o, MessageBegin(true));
  }

  /** A byte that leads to another place in the status line, or to the headers. */
  lemma StatusByte(cfg: Config, r: Run, b: byte, mv: LineMove, s: Parser)
    requires r.status.Running? && r.s.nread + 1 <= HTTP_MAX_HEADER_SIZE && r.s.state.ResLine?
    requires mv == StatusNext(cfg.strict, r.s.state.res, r.s.major, r.s.minor, r.s.status, b) && !mv.Bad?
    requires s == Follow(r.s, mv).s && (s.state.ResLine? || s.state == Head(HeaderFieldStart))
    ensures Read(cfg, r, b) == Later(r, s, r.o, 1)
  {
    hide StatusNext, InfoOf, Apply;
  }

  /** A byte that only moves on. */
  lemma StatusGoes(cfg: Config, r: Run, b: byte, st: State)
    requires r.status.Running? && r.s.nread + 1 <= HTTP_MAX_HEADER_SIZE && r.s.state.ResLine?
    requires StatusNext(cfg.strict, r.s.state.res, r.s.major, r.s.minor, r.s.status, b) == Goto(st)
    requires st.ResLine? || st == Head(HeaderFieldStart)
    ensures Read(cfg, r, b) == Later(r, r.s.(state := st), r.o, 1)
  {
    hide StatusNext, Read;
    StatusByte(cfg, r, b, Goto(st), r.s.(state := st));
  }

  lemma ReadStatusHttp(cfg: Config, r: Run, o: Obs, k: nat)
    requires r.status.Running? && r.s.state.StartRes? && r.s.kind.Response? && Fresh(o) && r.o == BeginsObs(o, k)
    requires r.s.nread + 5 <= HTTP_MAX_HEADER_SIZE
    ensures ReadAll(cfg, r, HTTP_SLASH)
         == Later(r, Begun(r.s).(state := ResLine(ResFirstHttpMajor)), BeginsObs(o, k + 1), 5)
  {
    hide Read, Fresh, BeginsObs;
    assert HTTP_SLASH == [H_, T_] + [T_, P_] + [SLASH];
    ReadAllSplit(cfg, r, [H_, T_] + [T_, P_], [SLASH]);
    ReadAllSplit(cfg, r, [H_, T_], [T_, P_]);
    ReadTwo(cfg, r, H_, T_);
    StatusBegins(cfg, r, o, k, H_);
    var r1 := Read(cfg, r, H_);
    StatusGoes(cfg, r1, T_, ResLine(ResHT));
    var r2 := Read(cfg, r1, T_);
    ReadTwo(cfg, r2, T_, P_);
    StatusGoes(cfg, r2, T_, ResLine(ResHTT));
    var r3 := Read(cfg, r2, T_);
    StatusGoes(cfg, r3, P_, ResLine(ResHTTP));
    var r4 := Read(cfg, r3, P_);
    ReadOne(cfg, r4, SLASH);
    StatusGoes(cfg, r4, SLASH, ResLine(ResFirstHttpMajor));
  }

  lemma {:induction false} ReadStatusMajor(cfg: Config, r: Run, ds: seq<byte>)
    requires r.status.Running? && r.s.state == ResLine(ResFirstHttpMajor)
    requires IsNumber(ds) && ds[0] != DIGIT_0 && r.s.nread + |ds| <= HTTP_MAX_HEADER_SIZE
    ensures ReadAll(cfg, r, ds) == Later(r, r.s.(state := ResLine(ResHttpMajor), major := Decimal(ds)), r.o, |ds|)
  {
    hide Read;
    var n := |ds| - 1;
    var mv := SetMajor(Decimal(ds), ResLine(ResHttpMajor));
    if n == 0 {
      assert ds == [ds[0]] && Decimal(ds[..0]) == 0;
      ReadOne(cfg, r, ds[0]);
      StatusByte(cfg, r, ds[0], mv, Follow(r.s, mv).s);
    } else {
      NumberPrefix(ds, n);
      ReadStatusMajor(cfg, r, ds[..n]);
      var u := ReadAll(cfg, r, ds[..n]);
      StatusByte(cfg, u, ds[n], mv, Follow(u.s, mv).s);
    }
  }

  lemma {:induction false} ReadStatusMinor(cfg: Config, r: Run, ds: seq<byte>)
    requires r.status.Running? && r.s.state == ResLine(ResFirstHttpMinor)
    requires IsNumber(ds) && r.s.nread + |ds| <= HTTP_MAX_HEADER_SIZE
    ensures ReadAll(cfg, r, ds) == Later(r, r.s.(state := ResLine(ResHttpMinor), minor := Decimal(ds)), r.o, |ds|)
  {
    hide Read;
    var n := |ds| - 1;
    var mv := SetMinor(Decimal(ds), ResLine(ResHttpMinor));
    if n == 0 {
      assert ds == [ds[0]] && Decimal(ds[..0]) == 0;
      ReadOne(cfg, r, ds[0]);
      StatusByte(cfg, r, ds[0], mv, Follow(r.s, mv).s);
    } else {
      NumberPrefix(ds, n);
      ReadStatusMinor(cfg, r, ds[..n]);
      var u := ReadAll(cfg, r, ds[..n]);
      StatusByte(cfg, u, ds[n], mv, Follow(u.s, mv).s);
    }
  }

  lemma {:induction false} ReadStatusCode(cfg: Config, r: Run, ds: seq<byte>)
    requires r.status.Running? && r.s.state == ResLine(ResFirstStatusCode)
    requires IsNumber(ds) && r.s.nread + |ds| <= HTTP_MAX_HEADER_SIZE
    ensures ReadAll(cfg, r, ds) == Later(r, r.s.(state := ResLine(ResStatusCode), status := Decimal(ds)), r.o, |ds|)
  {
    hide Read;
    var n := |ds| - 1;
    var mv := SetStatus(Decimal(ds), ResLine(ResStatusCode));
    if n == 0 {
      assert ds == [ds[0]] && Decimal(ds[..0]) == 0;
      ReadOne(cfg, r, ds[0]);
      StatusByte(cfg, r, ds[0], mv, Follow(r.s, mv).s);
    } else {
      NumberPrefix(ds, n);
      ReadStatusCode(cfg, r, ds[..n]);
      var u := ReadAll(cfg, r, ds[..n]);
      StatusByte(cfg, u, ds[n], mv, Follow(u.s, mv).s);
    }
  }

  lemma {:induction false} ReadReason(cfg: Config, r: Run, w: seq<byte>)
    requires r.status.Running? && r.s.state == ResLine(ResStatus)
    requires CR !in w && LF !in w && r.s.nread + |w| <= HTTP_MAX_HEADER_SIZE
    ensures ReadAll(cfg, r, w) == Later(r, r.s, r.o, |w|)
  {
    hide Read;
    if w != [] {
      var n := |w| - 1;
      assert forall i :: 0 <= i < n ==> w[..n][i] in w;
      ReadReason(cfg, r, w[..n]);
      StatusGoes(cfg, ReadAll(cfg, r, w[..n]), w[n], ResLine(ResStatus));
    }
  }

  lemma {:induction false} ReadStatusGap(cfg: Config, r: Run, k: nat)
    requires r.status.Running? && r.s.state == ResLine(ResFirstStatusCode) && r.s.nread + k <= HTTP_MAX_HEADER_SIZE
    ensures ReadAll(cfg, r, Times(SP, k)) == Later(r, r.s, r.o, k)
  {
    hide Read;
    var w := Times(SP, k);
    if k > 0 {
      ReadStatusGap(cfg, r, k - 1);
      assert w[..k - 1] == Times(SP, k - 1);
      StatusGoes(cfg, ReadAll(cfg, r, w[..k - 1]), SP, ResLine(ResFirstStatusCode));
    }
  }

  lemma ReadStatusVersion(cfg: Config, r: Run, o: Obs, k: nat, v: Version)
    requires r.status.Running? && r.s.state.StartRes? && r.s.kind.Response? && Fresh(o) && r.o == BeginsObs(o, k)
    requires IsVersion(v) && r.s.nread + |PrintVersion(v) + [SP]| <= HTTP_MAX_HEADER_SIZE
    ensures var w := PrintVersion(v) + [SP];
      ReadAll(cfg, r, w)
      == Later(r, Begun(r.s).(state := ResLine(ResFirstStatusCode), major := Decimal(v.major),
          minor := Decimal(v.minor)),
               BeginsObs(o, k + 1), |w|)
  {
    hide Read, ReadAll, Decimal, IsNumber, Fresh, BeginsObs;
    ReadStatusHttp(cfg, r, o, k);
    var r1 := ReadAll(cfg, r, HTTP_SLASH);
    ReadAllSplit(cfg, r, HTTP_SLASH, v.major);
    ReadStatusMajor(cfg, r1, v.major);
    var w2 := HTTP_SLASH + v.major;
    var r2 := ReadAll(cfg, r, w2);
    ReadAllSplit(cfg, r, w2, [DOT]);
    ReadOne(cfg, r2, DOT);
    StatusGoes(cfg, r2, DOT, ResLine(ResFirstHttpMinor));
    var r3 := ReadAll(cfg, r, w2 + [DOT]);
    ReadAllSplit(cfg, r, w2 + [DOT], v.minor);
    ReadStatusMinor(cfg, r3, v.minor);
    var r4 := ReadAll(cfg, r, w2 + [DOT] + v.minor);
    ReadAllSplit(cfg, r, w2 + [DOT] + v.minor, [SP]);
    ReadOne(cfg, r4, SP);
    StatusGoes(cfg, r4, SP, ResLine(ResFirstStatusCode));
  }

  /** The reason, if there is one, and the end of the line. */
  lemma ReadStatusEnd(cfg: Config, r: Run, reason: Reason, eol: seq<byte>)
    requires r.status.Running? && r.s.state == ResLine(ResStatusCode) && IsReason(reason) && IsEol(eol)
    requires r.s.nread + |PrintReason(reason) + eol| <= HTTP_MAX_HEADER_SIZE
    ensures ReadAll(cfg, r, PrintReason(reason) + eol)
         == Later(r, r.s.(state := Head(HeaderFieldStart)), r.o, |PrintReason(reason) + eol|)
  {
    hide Read, ReadAll;
    if reason.Reason? {
      ReadOne(cfg, r, SP);
      StatusGoes(cfg, r, SP, ResLine(ResStatus));
      ReadAllSplit(cfg, r, [SP], reason.text);
      ReadReason(cfg, Read(cfg, r, SP), reason.text);
      ReadAllSplit(cfg, r, [SP] + reason.text, eol);
      ReadStatusEol(cfg, ReadAll(cfg, r, [SP] + reason.text), eol);
    } else {
      assert [] + eol == eol;
      ReadStatusEol(cfg, r, eol);
    }
  }

  lemma ReadStatusEol(cfg: Config, r: Run, eol: seq<byte>)
    requires r.status.Running? && (r.s.state == ResLine(ResStatus) || r.s.state == ResLine(ResStatusCode))
    requires IsEol(eol) && r.s.nread + |eol| <= HTTP_MAX_HEADER_SIZE
    ensures ReadAll(cfg, r, eol) == Later(r, r.s.(state := Head(HeaderFieldStart)), r.o, |eol|)
  {
    hide Read, ReadAll;
    if eol == [LF] {
      ReadOne(cfg, r, LF);
      StatusGoes(cfg, r, LF, Head(HeaderFieldStart));
    } else {
      ReadTwo(cfg, r, CR, LF);
      StatusGoes(cfg, r, CR, ResLine(ResLineAlmostDone));
      StatusGoes(cfg, Read(cfg, r, CR), LF, Head(HeaderFieldStart));
    }
  }

  /** A printed status line stores its version and status and delivers nothing but the begin, once more for every blank
      line end before it. */
  lemma ReadStatusLine(cfg: Config, r: Run, lead: seq<byte>, v: Version, gap: nat, status: seq<byte>, reason: Reason,
      eol: seq<byte>)
    requires r.status.Running? && r.s.state.StartRes? && r.s.kind.Response? && Fresh(r.o) && AreBlankLines(lead)
    requires IsVersion(v) && IsNumber(status) && IsReason(reason) && IsEol(eol)
    requires r.s.nread + |PrintStatusLine(lead, v, gap, status, reason, eol)| <= HTTP_MAX_HEADER_SIZE
    ensures var w := PrintStatusLine(lead, v, gap, status, reason, eol);
      ReadAll(cfg, r, w)
      == Later(r, Begun(r.s).(state := Head(HeaderFieldStart), major := Decimal(v.major), minor := Decimal(v.minor),
                              status := Decimal(status)),
               Obs(r.o.done, EMPTY_MESSAGE.(begins := |lead| + 1), Line), |w|)
  {
    hide Read, ReadAll, Decimal, IsNumber, IsReason, IsVersion, IsEol, Fresh, AreBlankLines, PrintVersion,
      PrintReason;
    var w1 := PrintVersion(v) + [SP];
    var w2 := lead + w1 + Times(SP, gap);
    ReadStatusLead(cfg, r, lead);
    ReadAllSplit(cfg, r, lead, w1);
    ReadStatusVersion(cfg, ReadAll(cfg, r, lead), r.o, |lead|, v);
    ReadAllSplit(cfg, r, lead + w1, Times(SP, gap));
    ReadStatusGap(cfg, ReadAll(cfg, r, lead + w1), gap);
    ReadAllSplit(cfg, r, w2, status);
    ReadStatusCode(cfg, ReadAll(cfg, r, w2), status);
    ReadAllSplit(cfg, r, w2 + status, PrintReason(reason) + eol);
    ReadStatusEnd(cfg, ReadAll(cfg, r, w2 + status), reason, eol);
    assert PrintStatusLine(lead, v, gap, status, reason, eol) == w2 + status + (PrintReason(reason) + eol);
  }
}
