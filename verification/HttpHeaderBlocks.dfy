/** Blocks of headers or trailers: what is printed is what is delivered. */
module HttpHeaderBlocks {
  import opened Bytes
  import opened HttpChars
  import opened HttpTypes
  import opened HttpStep
  import opened HttpInvariants
  import opened HttpTrace
  import opened HttpSpans
  import opened HttpBody
  import opened HttpHeaderLines
  import opened HttpChunks

  // ---------- What a header line delivers ----------

  lemma FieldByte(cfg: Config, r: Run, b: byte)
    requires r.status.Running? && (r.s.state == Head(HeaderFieldStart) || r.s.state == Head(HeaderField))
    requires Token(b) != 0 && r.s.nread + 1 <= HTTP_MAX_HEADER_SIZE
    ensures Read(cfg, r, b).o == Apply(r.o, Data(Field, [b]))
  {
    hide Apply, Token, NameChar, HeadersDone, InfoOf, FirstNameState;
    TokenFacts();
  }

  lemma {:induction false} NameObs(cfg: Config, r: Run, w: seq<byte>)
    requires r.status.Running? && r.s.state == Head(HeaderFieldStart)
    requires IsName(w) && r.s.nread + |w| <= HTTP_MAX_HEADER_SIZE
    ensures ReadAll(cfg, r, w).o == Apply(r.o, Data(Field, w))
  {
    hide Read, Token, Apply, NameFold;
    var n := |w| - 1;
    if n == 0 {
      assert w == [w[0]];
      ReadOne(cfg, r, w[0]);
      FieldByte(cfg, r, w[0]);
    } else {
      ReadName(cfg, r, w[..n]);
      NameObs(cfg, r, w[..n]);
      FieldByte(cfg, ReadAll(cfg, r, w[..n]), w[n]);
      MergeData(r.o, Field, w[..n], [w[n]]);
      assert w[..n] + [w[n]] == w;
    }
  }

  /** Colons, blanks and line ends deliver nothing. */
  lemma QuietByte(cfg: Config, r: Run, b: byte)
    requires r.status.Running? && r.s.state.Head? && r.s.nread + 1 <= HTTP_MAX_HEADER_SIZE
    requires match r.s.state.head
             case HeaderField => b == COLON
             case HeaderValueStart => b == SP || b == TAB
             case HeaderValue => b == CR || b == LF
             case HeaderAlmostDone => b == LF
             case HeaderValueLws => b == SP || b == TAB
             case _ => false
    ensures Read(cfg, r, b).o == r.o
  {
    hide Apply, Token, NameChar, ValueChar, FirstValueChar, HeadersDone, InfoOf;
    TokenFacts();
  }

  lemma {:induction false} BlanksObs(cfg: Config, r: Run, w: seq<byte>)
    requires r.status.Running? && r.s.state == Head(HeaderValueStart)
    requires AllBlank(w) && r.s.nread + |w| <= HTTP_MAX_HEADER_SIZE
    ensures ReadAll(cfg, r, w).o == r.o
  {
    hide Read;
    if w != [] {
      var n := |w| - 1;
      ReadBlanks(cfg, r, w[..n]);
      BlanksObs(cfg, r, w[..n]);
      QuietByte(cfg, ReadAll(cfg, r, w[..n]), w[n]);
    }
  }

  lemma ValueByte(cfg: Config, r: Run, b: byte)
    requires r.status.Running? && (r.s.state == Head(HeaderValueStart) || r.s.state == Head(HeaderValue))
    requires b != CR && b != LF && (r.s.state == Head(HeaderValueStart) ==> b != SP && b != TAB)
    requires Read(cfg, r, b).status.Running?
    ensures Read(cfg, r, b).o == Apply(r.o, Data(Value, [b]))
  {
    hide Apply, Token, HeadersDone, InfoOf, Lower, Match, Wrap64, NameChar;
  }

  lemma {:induction false} ValueObs(cfg: Config, r: Run, v: seq<byte>)
    requires r.status.Running? && r.s.state == Head(HeaderValueStart)
    requires IsValue(v) && v != [] && r.s.nread + |v| <= HTTP_MAX_HEADER_SIZE
    requires r.s.hs.ContentLength? ==> IsLength(v)
    ensures ReadAll(cfg, r, v).o == Apply(r.o, Data(Value, v))
  {
    hide Read, Apply, ValueFold, IsLength;
    var n := |v| - 1;
    ReadValue(cfg, r, v);
    if n == 0 {
      assert v == [v[0]];
      ReadOne(cfg, r, v[0]);
      ValueByte(cfg, r, v[0]);
    } else {
      assert v[..n] + [v[n]] == v;
      LengthNext(v[..n], v[n]);
      ReadValue(cfg, r, v[..n]);
      ValueObs(cfg, r, v[..n]);
      EntryState(ValueEntry(r.s), v[..n]);
      ValueByte(cfg, ReadAll(cfg, r, v[..n]), v[n]);
      MergeData(r.o, Value, v[..n], [v[n]]);
    }
  }

  lemma EntryState(s: Parser, v: seq<byte>)
    requires IsValue(v) && v != [] && s.index == 0
    ensures ValueFold(s, v).state == s.state
  {
    hide ValueFold, ValueTracks, IsLength, Decimal;
    ValueFoldMeans(s, v);
  }

  lemma EolObs(cfg: Config, r: Run, eol: seq<byte>)
    requires r.status.Running? && r.s.state == Head(HeaderValue) && IsEol(eol)
    requires r.s.nread + |eol| <= HTTP_MAX_HEADER_SIZE
    ensures ReadAll(cfg, r, eol).o == r.o
  {
    hide Read, InfoOf;
    ReadOne(cfg, r, eol[0]);
    QuietByte(cfg, r, eol[0]);
    if eol == CRLF {
      ReadTwo(cfg, r, CR, LF);
      HeadByte(cfg, r, HeaderValue, CR,
               StepHead(cfg.strict, cfg.answer(r.o, InfoOf(r.s)), r.s.(nread := r.s.nread + 1), HeaderValue, CR));
      QuietByte(cfg, Read(cfg, r, CR), LF);
    }
  }

  /** A line that ends where its value would begin delivers an empty value. */
  lemma EmptyObs(cfg: Config, r: Run, eol: seq<byte>)
    requires r.status.Running? && r.s.state == Head(HeaderValueStart) && IsEol(eol)
    requires r.s.nread + |eol| <= HTTP_MAX_HEADER_SIZE
    ensures ReadAll(cfg, r, eol).o == Apply(r.o, Data(Value, []))
  {
    hide Read, InfoOf;
    ReadOne(cfg, r, eol[0]);
    EmptyByte(cfg, r, eol[0]);
    if eol == CRLF {
      ReadTwo(cfg, r, CR, LF);
      HeadByte(cfg, r, HeaderValueStart, CR,
               StepHead(cfg.strict, cfg.answer(r.o, InfoOf(r.s)), r.s.(nread := r.s.nread + 1), HeaderValueStart, CR));
      QuietByte(cfg, Read(cfg, r, CR), LF);
    }
  }

  lemma EmptyByte(cfg: Config, r: Run, b: byte)
    requires r.status.Running? && r.s.state == Head(HeaderValueStart) && (b == CR || b == LF)
    requires r.s.nread + 1 <= HTTP_MAX_HEADER_SIZE
    ensures Read(cfg, r, b).o == Apply(r.o, Data(Value, []))
  {
    hide Apply, InfoOf;
    ApplyOne(r.o, Data(Value, []));
  }

  /** A value, or none, and the end of its line. */
  lemma ValueEolObs(cfg: Config, r: Run, v: seq<byte>, eol: seq<byte>)
    requires r.status.Running? && r.s.state == Head(HeaderValueStart) && IsValue(v) && IsEol(eol)
    requires r.s.nread + |v| + |eol| <= HTTP_MAX_HEADER_SIZE
    requires r.s.hs.ContentLength? && v != [] ==> IsLength(v)
    ensures ReadAll(cfg, r, v + eol).o == Apply(r.o, Data(Value, v))
  {
    hide Read, ReadAll, ValueFold, IsValue, IsLength, Apply;
    if v == [] {
      assert v + eol == eol;
      EmptyObs(cfg, r, eol);
    } else {
      ReadAllSplit(cfg, r, v, eol);
      ReadValue(cfg, r, v);
      ValueObs(cfg, r, v);
      EntryState(ValueEntry(r.s), v);
      EolObs(cfg, ReadAll(cfg, r, v), eol);
    }
  }

  lemma FoldBlanksObs(cfg: Config, r: Run, blanks: seq<byte>)
    requires r.status.Running? && r.s.state == Head(HeaderValueLws) && AllBlank(blanks) && blanks != []
    requires r.s.nread + |blanks| <= HTTP_MAX_HEADER_SIZE
    ensures ReadAll(cfg, r, blanks).o == r.o
  {
    hide Read, ReadAll;
    assert blanks == [blanks[0]] + blanks[1..];
    ReadAllSplit(cfg, r, [blanks[0]], blanks[1..]);
    ReadOne(cfg, r, blanks[0]);
    FirstBlank(cfg, r, blanks[0]);
    QuietByte(cfg, r, blanks[0]);
    BlanksObs(cfg, Read(cfg, r, blanks[0]), blanks[1..]);
  }

  // ---------- Header blocks ----------

  /** A further line of a header. */
  datatype Fold = Fold(blanks: seq<byte>, value: seq<byte>, eol: seq<byte>)

  datatype HeaderText = HeaderText(name: seq<byte>, blanks: seq<byte>, value: seq<byte>, eol: seq<byte>,
                                   folds: seq<Fold>)

  predicate IsFold(f: Fold) { f.blanks != [] && AllBlank(f.blanks) && IsValue(f.value) && IsEol(f.eol) }

  /** A length that fits the counter. */
  predicate Fits(v: seq<byte>) { IsLength(v) && Decimal(v) < 0x8000_0000_0000_0000 }

  /** The first line and `k` folds all have a value. */
  predicate AllValued(h: HeaderText, k: nat)
    requires k <= |h.folds|
  {
    h.value != [] && forall i :: 0 <= i < k ==> h.folds[i].value != []
  }

  /** Where the header ends, its first line and `k` folds. */
  function HeaderEnd(h: HeaderText, k: nat): (at: HeadState)
    requires k <= |h.folds|
    ensures at.HeaderFieldStart? || at.HeaderValueLws?
  {
    if k == 0 then LineAfter(h.value, h.eol) else LineAfter(h.folds[k - 1].value, h.folds[k - 1].eol)
  }

  /** A header that fits the syntax, and whose length, if it is one, fits the counter on each of its lines. */
  predicate IsHeader(h: HeaderText) {
    && IsName(h.name) && AllBlank(h.blanks) && IsValue(h.value) && IsEol(h.eol)
    && (forall i :: 0 <= i < |h.folds| ==> IsFold(h.folds[i]) && HeaderEnd(h, i) == HeaderValueLws)
    && (NameIs(h.name, CONTENT_LENGTH) && h.value != [] ==> Fits(h.value))
    && (NameIs(h.name, CONTENT_LENGTH) ==>
          forall i :: 0 <= i < |h.folds| && AllValued(h, i + 1) ==> Fits(h.folds[i].value))
  }

  function PrintFold(f: Fold): seq<byte> { f.blanks + f.value + f.eol }

  function PrintFolds(fs: seq<Fold>): seq<byte> {
    if fs == [] then [] else PrintFolds(fs[..|fs| - 1]) + PrintFold(fs[|fs| - 1])
  }

  function PrintHeader(h: HeaderText): seq<byte> {
    HttpHeaderLines.Line(h.name, h.blanks, h.value, h.eol) + PrintFolds(h.folds)
  }

  /** The value with those of the folds behind it. */
  function Folded(v: seq<byte>, fs: seq<Fold>): seq<byte> {
    if fs == [] then v else Folded(v, fs[..|fs| - 1]) + fs[|fs| - 1].value
  }

  function ValueOf(h: HeaderText): seq<byte> { Folded(h.value, h.folds) }

  lemma StartsInk(h: HeaderText)
    requires IsHeader(h)
    ensures |h.name| > 0 && PrintHeader(h) != [] && PrintHeader(h)[0] == h.name[0] && h.name[0] != TAB
  {
    assert Token(h.name[0]) != 0;
  }

  /** The first line of a header delivers its name and its value, whole, and nothing else. */
  lemma LineObs(cfg: Config, r: Run, h: HeaderText)
    requires r.status.Running? && r.s.state == Head(HeaderFieldStart) && IsHeader(h)
    requires r.s.nread + |HttpHeaderLines.Line(h.name, h.blanks, h.value, h.eol)| <= HTTP_MAX_HEADER_SIZE
    ensures ReadAll(cfg, r, HttpHeaderLines.Line(h.name, h.blanks, h.value, h.eol)).o
         == Apply(Apply(r.o, Data(Field, h.name)), Data(Value, h.value))
  {
    hide Read, ReadAll, NameFold, NameIs, IsLength, Decimal, IsName, AllBlank, IsValue, Apply, NameMeaning, IsEol;
    var a, b := h.name + [COLON], h.name + [COLON] + h.blanks;
    ReadName(cfg, r, h.name);
    NameObs(cfg, r, h.name);
    var r1 := ReadAll(cfg, r, h.name);
    ReadAllSplit(cfg, r, h.name, [COLON]);
    ReadOne(cfg, r1, COLON);
    QuietByte(cfg, r1, COLON);
    ReadColon(cfg, r1);
    var r2 := ReadAll(cfg, r, a);
    ReadAllSplit(cfg, r, a, h.blanks);
    ReadBlanks(cfg, r2, h.blanks);
    BlanksObs(cfg, r2, h.blanks);
    var r3 := ReadAll(cfg, r, b);
    NameIsLength(h.name);
    assert b + h.value + h.eol == b + (h.value + h.eol);
    ReadAllSplit(cfg, r, b, h.value + h.eol);
    ValueEolObs(cfg, r3, h.value, h.eol);
  }

  lemma NameIsLength(name: seq<byte>)
    requires IsName(name)
    ensures NameFold(name).0.ContentLength? <==> NameIs(name, CONTENT_LENGTH)
  {
    hide NameFold, NameIs, NamePrefix, IsName;
    NameFoldMeans(name);
  }

  /** A fold delivers its value. */
  lemma FoldObs(cfg: Config, r: Run, f: Fold)
    requires r.status.Running? && r.s.state == Head(HeaderValueLws) && IsFold(f)
    requires r.s.nread + |PrintFold(f)| <= HTTP_MAX_HEADER_SIZE
    requires r.s.hs.ContentLength? && f.value != [] ==> IsLength(f.value)
    ensures ReadAll(cfg, r, PrintFold(f)).o == Apply(r.o, Data(Value, f.value))
  {
    hide Read, ReadAll, IsLength, AllBlank, IsValue, Apply, IsEol;
    ReadFoldBlanks(cfg, r, f.blanks);
    FoldBlanksObs(cfg, r, f.blanks);
    assert f.blanks + f.value + f.eol == f.blanks + (f.value + f.eol);
    ReadAllSplit(cfg, r, f.blanks, f.value + f.eol);
    ValueEolObs(cfg, ReadAll(cfg, r, f.blanks), f.value, f.eol);
  }

  /** Where a header may come, and where it leads. */
  predicate InBlock(p: Phase) { p.Line? || p.Headers? || p.Trailers? || p == Content(true) }

  function FieldPhase(p: Phase): Phase { if p.Line? || p.Headers? then Headers else Trailers }

  /** The block is open for a new header. */
  predicate BlockOpen(o: Obs) { InBlock(o.phase) && !o.cur.last.LastField? }

  /** A header behind the ones already there. */
  function WithPair(o: Obs, name: seq<byte>, v: seq<byte>): Obs {
    Obs(o.done, o.cur.(headers := o.cur.headers + [HeaderPair(name, v)], last := LastValue), FieldPhase(o.phase))
  }

  function WithHeader(o: Obs, h: HeaderText): Obs { WithPair(o, h.name, ValueOf(h)) }

  lemma DeliverHeader(o: Obs, name: seq<byte>, v: seq<byte>)
    requires BlockOpen(o)
    ensures Apply(Apply(o, Data(Field, name)), Data(Value, v)) == WithPair(o, name, v)
  {
    var o1 := Apply(o, Data(Field, name));
    var n := |o.cur.headers|;
    assert o1.cur.headers == o.cur.headers + [HeaderPair(name, [])];
    assert o1.cur.headers[..n] == o.cur.headers && [] + v == v;
  }

  lemma DeliverFold(o: Obs, name: seq<byte>, v: seq<byte>, w: seq<byte>)
    requires InBlock(o.phase)
    ensures Apply(WithPair(o, name, v), Data(Value, w)) == WithPair(o, name, v + w)
  {
    var hs := o.cur.headers + [HeaderPair(name, v)];
    assert hs[..|hs| - 1] == o.cur.headers && hs[|hs| - 1] == HeaderPair(name, v);
  }

  /** The content length after the first line and `k` folds: a number starts again with every fold until one has no
      value. */
  function LengthUpTo(before: int, h: HeaderText, k: nat): int
    requires k <= |h.folds|
  {
    if !NameIs(h.name, CONTENT_LENGTH) || h.value == [] then before
    else if k == 0 then Decimal(h.value)
    else if AllValued(h, k) then Decimal(h.folds[k - 1].value)
    else LengthUpTo(before, h, k - 1)
  }

  function LengthNow(before: int, h: HeaderText): int { LengthUpTo(before, h, |h.folds|) }

  /** The parser after the first line of `h` and `k` folds. */
  predicate AfterLines(s: Parser, h: HeaderText, k: nat, t: Parser, n: nat)
    requires k <= |h.folds|
  {
    && t.state == Head(HeaderEnd(h, k)) && OnlyHeader(s, t) && t.nread == s.nread + n
    && (t.state == Head(HeaderValueLws) ==> FoldReady(t.hs, h.name, AllValued(h, k)))
    && t.flags == LineFlags(s.flags, h.name, h.value) && t.contentLength == LengthUpTo(s.contentLength, h, k)
  }

  /** ... and the run. */
  predicate AfterRead(r: Run, h: HeaderText, k: nat, t: Run, n: nat)
    requires k <= |h.folds|
  {
    && t.status.Running? && AfterLines(r.s, h, k, t.s, n) && t.n == r.n + n
    && t.o == WithPair(r.o, h.name, Folded(h.value, h.folds[..k]))
  }

  lemma ReadFirstLine(cfg: Config, r: Run, h: HeaderText)
    requires r.status.Running? && r.s.state == Head(HeaderFieldStart) && IsHeader(h) && BlockOpen(r.o)
    requires r.s.nread + |HttpHeaderLines.Line(h.name, h.blanks, h.value, h.eol)| <= HTTP_MAX_HEADER_SIZE
    ensures var w := HttpHeaderLines.Line(h.name, h.blanks, h.value, h.eol); AfterRead(r, h, 0, ReadAll(cfg, r, w), |w|)
  {
    hide Read, ReadAll, NameIs, IsLength, Decimal, LineFlags, AllBlank, Apply, Token, IsValue, BlockOpen, IsEol,
      LineAfter, ValueState, IsName, WithPair;
    var w := HttpHeaderLines.Line(h.name, h.blanks, h.value, h.eol);
    HeaderLine(cfg, r, h.name, h.blanks, h.value, h.eol);
    LineObs(cfg, r, h);
    DeliverHeader(r.o, h.name, h.value);
    RunningConsumes(cfg, r, w);
    assert h.folds[..0] == [];
  }

  /** What a fold does to the parser. */
  lemma ReadFold(cfg: Config, s: Parser, u: Run, h: HeaderText, k: nat, n: nat)
    requires k < |h.folds| && IsHeader(h) && AfterLines(s, h, k, u.s, n) && u.status.Running?
    requires u.s.nread + |PrintFold(h.folds[k])| <= HTTP_MAX_HEADER_SIZE
    ensures var t := ReadAll(cfg, u, PrintFold(h.folds[k]));
      t.status.Running? && AfterLines(s, h, k + 1, t.s, n + |PrintFold(h.folds[k])|)
  {
    hide Read, ReadAll, NameIs, IsLength, Decimal, LineFlags, AllBlank, Apply, IsValue, IsEol, LineAfter, ValueState,
      IsName;
    var f := h.folds[k];
    FoldLine(cfg, u, f.blanks, f.value, f.eol);
  }

  /** ... and what it delivers. */
  lemma DeliversFold(cfg: Config, o: Obs, u: Run, h: HeaderText, k: nat, s: Parser, n: nat)
    requires k < |h.folds| && IsHeader(h) && AfterLines(s, h, k, u.s, n) && u.status.Running? && InBlock(o.phase)
    requires u.s.nread + |PrintFold(h.folds[k])| <= HTTP_MAX_HEADER_SIZE
    requires u.o == WithPair(o, h.name, Folded(h.value, h.folds[..k]))
    ensures ReadAll(cfg, u, PrintFold(h.folds[k])).o == WithPair(o, h.name, Folded(h.value, h.folds[..k + 1]))
  {
    hide Read, ReadAll, IsHeader, AfterLines, IsFold, PrintFold, Apply, WithPair, InBlock, IsLength, Folded;
    FoldComes(s, h, k, u.s, n);
    FoldObs(cfg, u, h.folds[k]);
    DeliverFold(o, h.name, Folded(h.value, h.folds[..k]), h.folds[k].value);
    FoldedNext(h, k);
  }

  lemma FoldComes(s: Parser, h: HeaderText, k: nat, t: Parser, n: nat)
    requires k < |h.folds| && IsHeader(h) && AfterLines(s, h, k, t, n)
    ensures t.state == Head(HeaderValueLws) && IsFold(h.folds[k])
    ensures t.hs.ContentLength? && h.folds[k].value != [] ==> IsLength(h.folds[k].value)
  {
    hide NameIs, IsLength, Decimal, LineFlags, AllBlank, IsValue, IsEol, LineAfter, ValueState, IsName, LengthUpTo;
  }

  lemma FoldedNext(h: HeaderText, k: nat)
    requires k < |h.folds|
    ensures Folded(h.value, h.folds[..k + 1]) == Folded(h.value, h.folds[..k]) + h.folds[k].value
  {
    assert h.folds[..k + 1][..k] == h.folds[..k];
  }

  lemma {:induction false} ReadFolds(cfg: Config, r: Run, h: HeaderText, k: nat)
    requires r.status.Running? && r.s.state == Head(HeaderFieldStart) && IsHeader(h) && BlockOpen(r.o)
    requires k <= |h.folds|
    requires r.s.nread + |HttpHeaderLines.Line(h.name, h.blanks, h.value, h.eol) + PrintFolds(h.folds[..k])|
          <= HTTP_MAX_HEADER_SIZE
    ensures var w := HttpHeaderLines.Line(h.name, h.blanks, h.value, h.eol) + PrintFolds(h.folds[..k]);
      AfterRead(r, h, k, ReadAll(cfg, r, w), |w|)
  {
    hide Read, ReadAll, IsHeader, AfterLines, PrintFold, HttpHeaderLines.Line, WithPair, Folded;
    var line := HttpHeaderLines.Line(h.name, h.blanks, h.value, h.eol);
    if k == 0 {
      assert line + PrintFolds(h.folds[..0]) == line;
      ReadFirstLine(cfg, r, h);
    } else {
      var w, f := line + PrintFolds(h.folds[..k - 1]), PrintFold(h.folds[k - 1]);
      assert h.folds[..k][..k - 1] == h.folds[..k - 1];
      assert line + PrintFolds(h.folds[..k]) == w + f;
      ReadFolds(cfg, r, h, k - 1);
      ReadAllSplit(cfg, r, w, f);
      var u := ReadAll(cfg, r, w);
      NreadThen(r.s, h, k - 1, u.s, |w|);
      ReadFold(cfg, r.s, u, h, k - 1, |w|);
      DeliversFold(cfg, r.o, u, h, k - 1, r.s, |w|);
      RunningConsumes(cfg, u, f);
    }
  }

  lemma NreadThen(s: Parser, h: HeaderText, k: nat, t: Parser, n: nat)
    requires k <= |h.folds| && AfterLines(s, h, k, t, n)
    ensures t.nread == s.nread + n
  {
  }

  /** One header with its folds, from the start of the block or from the end of the line before, where a space would
      fold that line. */
  lemma ReadHeader(cfg: Config, r: Run, h: HeaderText)
    requires r.status.Running? && (r.s.state == Head(HeaderFieldStart) || r.s.state == Head(HeaderValueLws))
        && IsHeader(h) && (r.s.state == Head(HeaderValueLws) ==> h.name[0] != SP)
    requires r.s.nread + |PrintHeader(h)| <= HTTP_MAX_HEADER_SIZE && BlockOpen(r.o)
    ensures var t := ReadAll(cfg, r, PrintHeader(h));
      && t.status.Running? && t.s.state == Head(HeaderEnd(h, |h.folds|)) && OnlyHeader(r.s, t.s)
      && t.s.flags == LineFlags(r.s.flags, h.name, h.value) && t.s.contentLength == LengthNow(r.s.contentLength, h)
      && t.s.nread == r.s.nread + |PrintHeader(h)| && t.n == r.n + |PrintHeader(h)| && t.o == WithHeader(r.o, h)
  {
    hide Read, ReadAll, NameIs, IsLength, Decimal, LineFlags, AllBlank, Apply, Token, IsValue, WithPair, BlockOpen,
      IsEol, LineAfter, FoldReady, LengthUpTo, HeaderEnd, HttpHeaderLines.Line;
    var r1 := r.(s := r.s.(state := Head(HeaderFieldStart)));
    StartsInk(h);
    if r.s.state == Head(HeaderValueLws) { LwsIsStart(cfg, r, PrintHeader(h)); }
    assert h.folds[..|h.folds|] == h.folds;
    ReadFolds(cfg, r1, h, |h.folds|);
  }

  // ---------- Lines without a colon ----------

  lemma NameEndObs(cfg: Config, r: Run, b: byte)
    requires r.status.Running? && r.s.nread + 1 <= HTTP_MAX_HEADER_SIZE
    requires (r.s.state == Head(HeaderField) && (b == CR || b == LF))
        || (r.s.state == Head(HeaderAlmostDone) && b == LF)
    ensures Read(cfg, r, b).o == r.o
  {
    hide Apply, NameChar, HeadersDone, InfoOf;
    TokenFacts();
  }

  /** A line that is nothing but a name delivers the name, and whatever comes next continues it. */
  lemma NameLineObs(cfg: Config, r: Run, name: seq<byte>, eol: seq<byte>)
    requires r.status.Running? && r.s.state == Head(HeaderFieldStart) && IsName(name) && IsEol(eol)
    requires r.s.nread + |name + eol| <= HTTP_MAX_HEADER_SIZE
    ensures ReadAll(cfg, r, name + eol).o == Apply(r.o, Data(Field, name))
  {
    hide Read, ReadAll, NameFold, IsName, Apply;
    ReadName(cfg, r, name);
    NameObs(cfg, r, name);
    ReadAllSplit(cfg, r, name, eol);
    var u := ReadAll(cfg, r, name);
    ReadOne(cfg, u, eol[0]);
    NameEol(cfg, u, eol[0]);
    NameEndObs(cfg, u, eol[0]);
    if eol == CRLF {
      ReadTwo(cfg, u, CR, LF);
      NameEndObs(cfg, Read(cfg, u, CR), LF);
    }
  }

  /** After a line end, anything but a blank starts a new line. */
  lemma LwsByte(cfg: Config, r: Run, b: byte)
    requires r.status.Running? && r.s.state == Head(HeaderValueLws)
    requires b != SP && b != TAB && r.s.nread + 1 <= HTTP_MAX_HEADER_SIZE
    ensures Read(cfg, r, b) == Read(cfg, r.(s := r.s.(state := Head(HeaderFieldStart))), b)
  {
    hide FieldStart, Apply, ApplyAll, Feed;
  }

  lemma LwsIsStart(cfg: Config, r: Run, w: seq<byte>)
    requires r.status.Running? && (r.s.state == Head(HeaderFieldStart) || r.s.state == Head(HeaderValueLws))
    requires w != [] && w[0] != SP && w[0] != TAB && r.s.nread + 1 <= HTTP_MAX_HEADER_SIZE
    ensures ReadAll(cfg, r, w) == ReadAll(cfg, r.(s := r.s.(state := Head(HeaderFieldStart))), w)
  {
    hide Read, ReadAll;
    var u := r.(s := r.s.(state := Head(HeaderFieldStart)));
    if r.s.state == Head(HeaderValueLws) {
      var front, rest := [w[0]], w[1..];
      assert w == front + rest;
      LwsByte(cfg, r, w[0]);
      ReadOne(cfg, r, w[0]);
      ReadOne(cfg, u, w[0]);
      ReadAllSplit(cfg, r, front, rest);
      ReadAllSplit(cfg, u, front, rest);
    } else {
      assert r == u;
    }
  }

  function PrintHeaders(hs: seq<HeaderText>): seq<byte> {
    if hs == [] then [] else PrintHeaders(hs[..|hs| - 1]) + PrintHeader(hs[|hs| - 1])
  }

  /** The flags after a block, and the last Content-Length. */
  function FlagsFrom(f: Flags, hs: seq<HeaderText>): Flags {
    if hs == [] then f else LineFlags(FlagsFrom(f, hs[..|hs| - 1]), hs[|hs| - 1].name, hs[|hs| - 1].value)
  }

  function LengthFrom(before: int, hs: seq<HeaderText>): int {
    if hs == [] then before else LengthNow(LengthFrom(before, hs[..|hs| - 1]), hs[|hs| - 1])
  }

  lemma {:induction false} FlagsKept(f: Flags, hs: seq<HeaderText>)
    ensures FlagsFrom(f, hs).trailing == f.trailing && FlagsFrom(f, hs).skipBody == f.skipBody
  {
    hide NameIs, ValueIs;
    if hs != [] { FlagsKept(f, hs[..|hs| - 1]); }
  }

  function PairsOf(hs: seq<HeaderText>): (ps: seq<HeaderPair>)
    ensures |ps| == |hs| && forall i :: 0 <= i < |hs| ==> ps[i] == HeaderPair(hs[i].name, ValueOf(hs[i]))
  {
    seq(|hs|, i requires 0 <= i < |hs| => HeaderPair(hs[i].name, ValueOf(hs[i])))
  }

  function HeadersIn(o: Obs, hs: seq<HeaderText>): Obs {
    if hs == [] then o
    else Obs(o.done, o.cur.(headers := o.cur.headers + PairsOf(hs), last := LastValue), FieldPhase(o.phase))
  }

  /** Behind a line that can be folded a name begins with no space. */
  predicate AllHeaders(hs: seq<HeaderText>) {
    && (forall i :: 0 <= i < |hs| ==> IsHeader(hs[i]))
    && forall i :: 1 <= i < |hs| ==>
         HeaderEnd(hs[i - 1], |hs[i - 1].folds|) == HeaderValueLws ==> hs[i].name != [] && hs[i].name[0] != SP
  }

  /** Where a block of headers ends. */
  function BlockEnd(hs: seq<HeaderText>): (at: HeadState)
    ensures at.HeaderFieldStart? || at.HeaderValueLws?
  {
    if hs == [] then HeaderFieldStart else HeaderEnd(hs[|hs| - 1], |hs[|hs| - 1].folds|)
  }

  /** A block of headers, or of trailers. */
  lemma {:induction false} ReadHeaders(cfg: Config, r: Run, hs: seq<HeaderText>)
    requires r.status.Running? && r.s.state == Head(HeaderFieldStart) && AllHeaders(hs)
    requires r.s.nread + |PrintHeaders(hs)| <= HTTP_MAX_HEADER_SIZE && BlockOpen(r.o)
    ensures var t := ReadAll(cfg, r, PrintHeaders(hs)); var k := |PrintHeaders(hs)|;
      && t.status.Running? && t.s.state == Head(BlockEnd(hs))
            && OnlyHeader(r.s, t.s)
      && t.s.flags == FlagsFrom(r.s.flags, hs) && t.s.contentLength == LengthFrom(r.s.contentLength, hs)
      && t.s.nread == r.s.nread + k && t.n == r.n + k && t.o == HeadersIn(r.o, hs)
  {
    hide Read, LineFlags, LengthNow, PrintHeader, IsHeader, HeaderEnd, ValueOf;
    if hs != [] {
      var n := |hs| - 1;
      ReadHeaders(cfg, r, hs[..n]);
      var u := ReadAll(cfg, r, PrintHeaders(hs[..n]));
      ReadAllSplit(cfg, r, PrintHeaders(hs[..n]), PrintHeader(hs[n]));
      ReadHeader(cfg, u, hs[n]);
      var pair := HeaderPair(hs[n].name, ValueOf(hs[n]));
      assert PairsOf(hs) == PairsOf(hs[..n]) + [pair];
      assert r.o.cur.headers + PairsOf(hs[..n]) + [pair] == r.o.cur.headers + PairsOf(hs);
    }
  }
}
