/** The header automata recognise exactly their literals, whatever the case and the trailing blanks. */
module HttpHeaderLines {
  import opened Bytes
  import opened HttpChars
  import opened HttpTypes
  import opened HttpStep
  import opened HttpInvariants
  import opened HttpBody

  // ---------- Names ----------

  /** `w` is, up to case, a beginning of `word`. */
  predicate NamePrefix(w: seq<byte>, word: seq<byte>) {
    |w| <= |word| && forall i :: 0 <= i < |w| ==> Token(w[i]) == word[i]
  }

  /** `w` is, up to case and trailing spaces, `word`. */
  predicate NameIs(w: seq<byte>, word: seq<byte>) {
    && |w| >= |word|
    && (forall i :: 0 <= i < |word| ==> Token(w[i]) == word[i])
    && (forall i :: |word| <= i < |w| ==> w[i] == SP)
  }

  lemma NamePrefixSnoc(w: seq<byte>, b: byte, word: seq<byte>)
    ensures NamePrefix(w + [b], word) <==> NamePrefix(w, word) && |w| < |word| && Token(b) == word[|w|]
  {
    var v := w + [b];
    assert v[|w|] == b;
    assert forall i :: 0 <= i < |w| ==> v[i] == w[i];
  }

  lemma NameIsSnoc(w: seq<byte>, b: byte, word: seq<byte>)
    ensures NameIs(w + [b], word) <==>
      (NameIs(w, word) && b == SP) || (NamePrefix(w + [b], word) && |w| + 1 == |word|)
  {
    var v := w + [b];
    assert v[|w|] == b;
    assert forall i :: 0 <= i < |w| ==> v[i] == w[i];
  }

  predicate IsName(w: seq<byte>) { w != [] && forall i :: 0 <= i < |w| ==> Token(w[i]) != 0 }

  /** The automaton after the bytes of a name. */
  function NameFold(w: seq<byte>): (r: (HeaderState, nat))
    requires IsName(w)
    ensures NameState(r.0)
  {
    var n := |w| - 1;
    if n == 0 then (FirstNameState(Token(w[0])), 0)
    else
      var (hs, i) := NameFold(w[..n]);
      NameChar(hs, i, Token(w[n]), w[n])
  }

  /** While `w` can still become `word` (and is at least `from` long), the state is `hs`. */
  predicate Tracks(hs: HeaderState, i: nat, w: seq<byte>, at: HeaderState, from: nat, word: seq<byte>) {
    && (hs == at <==> from <= |w| < |word| && NamePrefix(w, word))
    && (hs == at ==> i == |w| - 1)
  }

  predicate Connects(w: seq<byte>) { NameIs(w, CONNECTION) || NameIs(w, PROXY_CONNECTION) }

  /** CONNECTION and CONTENT_LENGTH share their first three states. */
  predicate SharedMeaning(hs: HeaderState, i: nat, w: seq<byte>) {
    && (hs.MatchC? <==> |w| == 1 && NamePrefix(w, CONNECTION))
    && (hs.MatchCO? <==> |w| == 2 && NamePrefix(w, CONNECTION))
    && (hs.MatchCON? <==> |w| == 3 && NamePrefix(w, CONNECTION))
    && (hs.MatchC? || hs.MatchCO? || hs.MatchCON? ==> i == |w| - 1)
    && Tracks(hs, i, w, MatchingConnection, 4, CONNECTION)
    && Tracks(hs, i, w, MatchingContentLength, 4, CONTENT_LENGTH)
    && (hs.ContentLength? <==> NameIs(w, CONTENT_LENGTH))
  }

  predicate ConnectMeaning(hs: HeaderState, i: nat, w: seq<byte>) {
    && Tracks(hs, i, w, MatchingConnection, 4, CONNECTION)
    && Tracks(hs, i, w, MatchingProxyConnection, 1, PROXY_CONNECTION)
    && (hs.Connection? <==> Connects(w))
  }

  predicate WordMeaning(hs: HeaderState, i: nat, w: seq<byte>, at: HeaderState, word: seq<byte>, full: HeaderState) {
    && Tracks(hs, i, w, at, 1, word)
    && (hs == full <==> NameIs(w, word))
  }

  /** Which state the matcher is in, in terms of the name read so far. */
  predicate NameMeaning(hs: HeaderState, i: nat, w: seq<byte>) {
    && SharedMeaning(hs, i, w)
    && ConnectMeaning(hs, i, w)
    && WordMeaning(hs, i, w, MatchingTransferEncoding, TRANSFER_ENCODING, TransferEncoding)
    && WordMeaning(hs, i, w, MatchingUpgrade, HttpChars.UPGRADE, Upgrade)
  }

  lemma NameFirst(b: byte)
    requires Token(b) != 0
    ensures NameMeaning(FirstNameState(Token(b)), 0, [b])
  {
    assert [b][0] == b;
    hide Token;
  }

  /** The beginnings of CONNECTION and CONTENT_LENGTH agree for three letters. */
  lemma SharedStart(w: seq<byte>)
    ensures |w| <= 3 ==> (NamePrefix(w, CONNECTION) <==> NamePrefix(w, CONTENT_LENGTH))
  {
    hide Token;
  }

  lemma SharedNext(hs: HeaderState, i: nat, w: seq<byte>, b: byte)
    requires NameState(hs) && w != [] && Token(b) != 0
    requires SharedMeaning(hs, i, w)
    ensures var (hs', i') := NameChar(hs, i, Token(b), b); SharedMeaning(hs', i', w + [b])
  {
    hide Token, NamePrefix, NameIs;
    SharedStart(w);
    NamePrefixSnoc(w, b, CONNECTION);
    NamePrefixSnoc(w, b, CONTENT_LENGTH);
    NameIsSnoc(w, b, CONTENT_LENGTH);
  }

  lemma ConnectNext(hs: HeaderState, i: nat, w: seq<byte>, b: byte)
    requires NameState(hs) && w != [] && Token(b) != 0
    requires SharedMeaning(hs, i, w) && ConnectMeaning(hs, i, w)
    requires var (hs', i') := NameChar(hs, i, Token(b), b); SharedMeaning(hs', i', w + [b])
    ensures var (hs', i') := NameChar(hs, i, Token(b), b); ConnectMeaning(hs', i', w + [b])
  {
    hide Token, NamePrefix, NameIs;
    NamePrefixSnoc(w, b, CONNECTION);
    NamePrefixSnoc(w, b, PROXY_CONNECTION);
    NameIsSnoc(w, b, CONNECTION);
    NameIsSnoc(w, b, PROXY_CONNECTION);
  }

  lemma WordNext(hs: HeaderState, i: nat, w: seq<byte>, b: byte, at: HeaderState, word: seq<byte>, full: HeaderState)
    requires NameState(hs) && w != [] && Token(b) != 0
    requires (at, word, full) == (MatchingTransferEncoding, TRANSFER_ENCODING, TransferEncoding)
             || (at, word, full) == (MatchingUpgrade, HttpChars.UPGRADE, Upgrade)
    requires WordMeaning(hs, i, w, at, word, full)
    ensures var (hs', i') := NameChar(hs, i, Token(b), b); WordMeaning(hs', i', w + [b], at, word, full)
  {
    hide Token, NamePrefix, NameIs;
    NamePrefixSnoc(w, b, word);
    NameIsSnoc(w, b, word);
  }

  lemma {:induction false} NameFoldMeans(w: seq<byte>)
    requires IsName(w)
    ensures NameMeaning(NameFold(w).0, NameFold(w).1, w)
  {
    hide NameChar, SharedMeaning, ConnectMeaning, WordMeaning, Token;
    var n := |w| - 1;
    if n == 0 {
      NameFirst(w[0]);
      assert w == [w[0]];
    } else {
      NameFoldMeans(w[..n]);
      var (hs, i) := NameFold(w[..n]);
      SharedNext(hs, i, w[..n], w[n]);
      ConnectNext(hs, i, w[..n], w[n]);
      WordNext(hs, i, w[..n], w[n], MatchingTransferEncoding, TRANSFER_ENCODING, TransferEncoding);
      WordNext(hs, i, w[..n], w[n], MatchingUpgrade, HttpChars.UPGRADE, Upgrade);
      assert w == w[..n] + [w[n]];
    }
  }

  // ---------- Values ----------

  predicate ValuePrefix(v: seq<byte>, word: seq<byte>) {
    |v| <= |word| && forall i :: 0 <= i < |v| ==> Lower(v[i]) == word[i]
  }

  /** `v` is, up to case and trailing spaces, `word`. */
  predicate ValueIs(v: seq<byte>, word: seq<byte>) {
    && |v| >= |word|
    && (forall i :: 0 <= i < |word| ==> Lower(v[i]) == word[i])
    && (forall i :: |word| <= i < |v| ==> v[i] == SP)
  }

  lemma ValuePrefixSnoc(w: seq<byte>, b: byte, word: seq<byte>)
    ensures ValuePrefix(w + [b], word) <==> ValuePrefix(w, word) && |w| < |word| && Lower(b) == word[|w|]
  {
    var v := w + [b];
    assert v[|w|] == b;
    assert forall i :: 0 <= i < |w| ==> v[i] == w[i];
  }

  lemma ValueIsSnoc(w: seq<byte>, b: byte, word: seq<byte>)
    ensures ValueIs(w + [b], word) <==>
      (ValueIs(w, word) && b == SP) || (ValuePrefix(w + [b], word) && |w| + 1 == |word|)
  {
    var v := w + [b];
    assert v[|w|] == b;
    assert forall i :: 0 <= i < |w| ==> v[i] == w[i];
  }

  /** The part of a line behind the colon and the blanks; there may be none. */
  predicate IsValue(v: seq<byte>) {
    && (v != [] ==> v[0] != SP && v[0] != TAB)
    && forall i :: 0 <= i < |v| ==> v[i] != CR && v[i] != LF
  }

  /** A digit, then digits and spaces. */
  predicate IsLength(v: seq<byte>) {
    v != [] && IsNum(v[0]) && forall i :: 0 <= i < |v| ==> IsNum(v[i]) || v[i] == SP
  }

  /** The decimal number whose digits are those of `v`; spaces do not count. */
  function Decimal(v: seq<byte>): nat {
    if v == [] then 0
    else
      var n := |v| - 1;
      if IsNum(v[n]) then Decimal(v[..n]) * 10 + (v[n] - DIGIT_0) else Decimal(v[..n])
  }

  /** The parser after the bytes of a value, unless one of them is an error. */
  function ValueFold(s: Parser, v: seq<byte>): Parser
    requires v != []
  {
    var n := |v| - 1;
    if n == 0 then FirstValueChar(s, v[0]).s else ValueChar(ValueFold(s, v[..n]), v[n]).s
  }

  predicate ValueTracks(hs: HeaderState, i: nat, v: seq<byte>, at: HeaderState, word: seq<byte>, full: HeaderState) {
    && (hs == at <==> |v| < |word| && ValuePrefix(v, word))
    && (hs == at ==> i == |v| - 1)
    && (hs == full <==> ValueIs(v, word))
  }

  /** Where the value automaton is, in terms of the header's class `hs` and the value read so far. */
  predicate ValueMeaning(hs: HeaderState, s: Parser, v: seq<byte>, t: Parser) {
    && t == s.(hs := t.hs, index := t.index, contentLength := t.contentLength, flags := t.flags)
    && t.flags == s.flags.(upgrade := s.flags.upgrade || hs.Upgrade?)
    && (!hs.ContentLength? ==> t.contentLength == s.contentLength)
    && (match hs
        case TransferEncoding =>
          && (t.hs.General? || t.hs.MatchingChunked? || t.hs.Chunked?)
          && ValueTracks(t.hs, t.index, v, MatchingChunked, CHUNKED, Chunked)
        case Connection =>
          && (t.hs.General? || t.hs.MatchingKeepAlive? || t.hs.KeepAlive? || t.hs.MatchingClose? || t.hs.Close?)
          && ValueTracks(t.hs, t.index, v, MatchingKeepAlive, KEEP_ALIVE, KeepAlive)
          && ValueTracks(t.hs, t.index, v, MatchingClose, CLOSE, Close)
        case ContentLength =>
          && t.hs.ContentLength?
          && (IsLength(v) && Decimal(v) < 0x8000_0000_0000_0000 ==> t.contentLength == Decimal(v))
        case _ => t.hs.General?)
  }

  lemma ValueFirst(s: Parser, b: byte)
    requires s.index == 0
    ensures ValueMeaning(s.hs, s, [b], FirstValueChar(s, b).s)
  {
    assert [b][0] == b;
    assert Decimal([b][..0]) == 0;
    hide Lower;
  }

  lemma ChunkedNext(s: Parser, v: seq<byte>, t: Parser, b: byte)
    requires v != [] && ValueMeaning(TransferEncoding, s, v, t)
    ensures ValueMeaning(TransferEncoding, s, v + [b], ValueChar(t, b).s)
  {
    hide Lower, ValuePrefix, ValueIs, IsLength, Decimal, Wrap64;
    ValuePrefixSnoc(v, b, CHUNKED);
    ValueIsSnoc(v, b, CHUNKED);
  }

  lemma ConnectionNext(s: Parser, v: seq<byte>, t: Parser, b: byte)
    requires v != [] && ValueMeaning(Connection, s, v, t)
    ensures ValueMeaning(Connection, s, v + [b], ValueChar(t, b).s)
  {
    hide Lower, ValuePrefix, ValueIs, IsLength, Decimal, Wrap64;
    ValuePrefixSnoc(v, b, KEEP_ALIVE);
    ValueIsSnoc(v, b, KEEP_ALIVE);
    ValuePrefixSnoc(v, b, CLOSE);
    ValueIsSnoc(v, b, CLOSE);
  }

  lemma ValueNext(hs: HeaderState, s: Parser, v: seq<byte>, t: Parser, b: byte)
    requires v != [] && ValueMeaning(hs, s, v, t)
    ensures ValueMeaning(hs, s, v + [b], ValueChar(t, b).s)
  {
    hide Lower, ValueTracks, IsLength, Decimal;
    match hs
    case TransferEncoding => ChunkedNext(s, v, t, b);
    case Connection => ConnectionNext(s, v, t, b);
    case ContentLength => LengthNext(v, b);
    case _ =>
  }

  lemma LengthNext(v: seq<byte>, b: byte)
    requires v != []
    ensures IsLength(v + [b]) <==> IsLength(v) && (IsNum(b) || b == SP)
    ensures Decimal(v + [b]) == if IsNum(b) then Decimal(v) * 10 + (b - DIGIT_0) else Decimal(v)
  {
    var w := v + [b];
    assert w[..|v|] == v && w[|v|] == b;
    assert forall i :: 0 <= i < |v| ==> w[i] == v[i];
  }

  lemma {:induction false} ValueFoldMeans(s: Parser, v: seq<byte>)
    requires v != [] && s.index == 0
    ensures ValueMeaning(s.hs, s, v, ValueFold(s, v))
  {
    hide FirstValueChar, ValueChar, ValueMeaning;
    var n := |v| - 1;
    if n == 0 {
      ValueFirst(s, v[0]);
      assert v == [v[0]];
    } else {
      ValueFoldMeans(s, v[..n]);
      ValueNext(s.hs, s, v[..n], ValueFold(s, v[..n]), v[n]);
      assert v == v[..n] + [v[n]];
    }
  }

  // ---------- Whole lines ----------

  /** Reading a byte in a header state, within the budget. */
  lemma HeadByte(cfg: Config, r: Run, at: HeadState, b: byte, m: Move)
    requires r.status.Running? && r.s.state == Head(at) && r.s.nread + 1 <= HTTP_MAX_HEADER_SIZE
    requires m == StepHead(cfg.strict, cfg.answer(r.o, InfoOf(r.s)), r.s.(nread := r.s.nread + 1), at, b)
    ensures m.out.Continue? ==> Read(cfg, r, b).status.Running? && Read(cfg, r, b).s == m.s
    ensures m.out.Fail? ==> Read(cfg, r, b).status == Failed(m.out.e)
  {
    hide StepHead, Feed, ApplyAll, InfoOf;
  }

  function Past(s: Parser, k: nat): Parser { s.(nread := s.nread + k) }

  lemma {:induction false} ReadName(cfg: Config, r: Run, w: seq<byte>)
    requires r.status.Running? && r.s.state == Head(HeaderFieldStart)
    requires IsName(w) && r.s.nread + |w| <= HTTP_MAX_HEADER_SIZE
    ensures var t := ReadAll(cfg, r, w);
      t.status.Running? && t.s == Past(r.s, |w|).(state := Head(HeaderField), hs := NameFold(w).0,
          index := NameFold(w).1)
  {
    hide Read, NameChar, Token, HeadersDone, FirstNameState;
    var n := |w| - 1;
    if n == 0 {
      assert w == [w[0]];
      ReadOne(cfg, r, w[0]);
      TokenFacts();
      HeadByte(cfg, r, HeaderFieldStart, w[0],
               StepHead(cfg.strict, cfg.answer(r.o, InfoOf(r.s)), r.s.(nread := r.s.nread + 1), HeaderFieldStart,
                   w[0]));
    } else {
      ReadName(cfg, r, w[..n]);
      var u := ReadAll(cfg, r, w[..n]);
      HeadByte(cfg, u, HeaderField, w[n],
               StepHead(cfg.strict, cfg.answer(u.o, InfoOf(u.s)), u.s.(nread := u.s.nread + 1), HeaderField, w[n]));
    }
  }

  lemma TokenFacts()
    ensures Token(CR) == Token(LF) == Token(COLON) == 0
  {
  }

  lemma ReadColon(cfg: Config, r: Run)
    requires r.status.Running? && r.s.state == Head(HeaderField) && r.s.nread + 1 <= HTTP_MAX_HEADER_SIZE
    ensures var t := Read(cfg, r, COLON); t.status.Running? && t.s == Past(r.s, 1).(state := Head(HeaderValueStart))
  {
    hide Read;
    TokenFacts();
    HeadByte(cfg, r, HeaderField, COLON,
             StepHead(cfg.strict, cfg.answer(r.o, InfoOf(r.s)), r.s.(nread := r.s.nread + 1), HeaderField, COLON));
  }

  predicate AllBlank(w: seq<byte>) { forall i :: 0 <= i < |w| ==> w[i] == SP || w[i] == TAB }

  lemma {:induction false} ReadBlanks(cfg: Config, r: Run, w: seq<byte>)
    requires r.status.Running? && r.s.state == Head(HeaderValueStart)
    requires AllBlank(w) && r.s.nread + |w| <= HTTP_MAX_HEADER_SIZE
    ensures var t := ReadAll(cfg, r, w); t.status.Running? && t.s == Past(r.s, |w|)
  {
    hide Read;
    if w != [] {
      var n := |w| - 1;
      ReadBlanks(cfg, r, w[..n]);
      var u := ReadAll(cfg, r, w[..n]);
      HeadByte(cfg, u, HeaderValueStart, w[n],
               StepHead(cfg.strict, cfg.answer(u.o, InfoOf(u.s)), u.s.(nread := u.s.nread + 1), HeaderValueStart,
                   w[n]));
    }
  }

  function ValueEntry(s: Parser): Parser { s.(index := 0, state := Head(HeaderValue)) }

  /** The header budget plays no part in the value automaton. */
  lemma FirstByteFrame(s: Parser, b: byte, k: nat)
    ensures FirstValueChar(s.(nread := k), b).s == FirstValueChar(s, b).s.(nread := k)
  {
    hide Lower, Match, Wrap64;
  }

  lemma ValueByteFrame(s: Parser, b: byte, k: nat)
    ensures ValueChar(s.(nread := k), b).s == ValueChar(s, b).s.(nread := k)
  {
    hide Lower, Match, Wrap64;
  }

  lemma ValueOutcome(s: Parser, b: byte)
    ensures FirstValueChar(s, b).out ==
      if s.hs.ContentLength? && !IsNum(b) then Fail(INVALID_CONTENT_LENGTH) else Continue
    ensures ValueChar(s, b).out ==
      if s.hs.ContentLength? && !IsNum(b) && b != SP then Fail(INVALID_CONTENT_LENGTH) else Continue
  {
    hide Lower, Match, Wrap64;
  }

  lemma {:induction false} ReadValue(cfg: Config, r: Run, v: seq<byte>)
    requires r.status.Running? && r.s.state == Head(HeaderValueStart)
    requires IsValue(v) && v != [] && r.s.nread + |v| <= HTTP_MAX_HEADER_SIZE
    ensures var t := ReadAll(cfg, r, v);
      if r.s.hs.ContentLength? && !IsLength(v) then t.status == Failed(INVALID_CONTENT_LENGTH)
      else t.status.Running? && t.s == ValueFold(ValueEntry(r.s), v).(nread := r.s.nread + |v|)
  {
    hide Read, FirstValueChar, ValueChar, InfoOf, ValueTracks;
    var n := |v| - 1;
    var b := v[n];
    var s0 := ValueEntry(r.s);
    if n == 0 {
      assert v == [b];
      ReadOne(cfg, r, b);
      FirstByteFrame(s0, b, r.s.nread + 1);
      ValueOutcome(s0.(nread := r.s.nread + 1), b);
      HeadByte(cfg, r, HeaderValueStart, b,
               StepHead(cfg.strict, cfg.answer(r.o, InfoOf(r.s)), r.s.(nread := r.s.nread + 1), HeaderValueStart, b));
    } else {
      ReadValue(cfg, r, v[..n]);
      var u := ReadAll(cfg, r, v[..n]);
      LengthNext(v[..n], b);
      assert v == v[..n] + [b];
      if u.status.Running? {
        ValueFoldMeans(s0, v[..n]);
        var w := ValueFold(s0, v[..n]);
        ValueByteFrame(w, b, r.s.nread + n + 1);
        ValueOutcome(w.(nread := r.s.nread + n + 1), b);
        HeadByte(cfg, u, HeaderValue, b,
                 StepHead(cfg.strict, cfg.answer(u.o, InfoOf(u.s)), u.s.(nread := u.s.nread + 1), HeaderValue, b));
      } else {
        ReadStopped(cfg, u, b);
      }
    }
  }

  /** CR LF, or a bare LF. */
  predicate IsEol(eol: seq<byte>) { eol == [CR, LF] || eol == [LF] }

  lemma ReadEol(cfg: Config, r: Run, eol: seq<byte>)
    requires r.status.Running? && r.s.state == Head(HeaderValue)
    requires IsEol(eol) && r.s.nread + |eol| <= HTTP_MAX_HEADER_SIZE
    ensures var t := ReadAll(cfg, r, eol); t.status.Running? && t.s == LineDone(Past(r.s, |eol|))
  {
    hide Read, InfoOf;
    HeadByte(cfg, r, HeaderValue, eol[0],
             StepHead(cfg.strict, cfg.answer(r.o, InfoOf(r.s)), r.s.(nread := r.s.nread + 1), HeaderValue, eol[0]));
    ReadOne(cfg, r, eol[0]);
    if eol == [CR, LF] {
      assert eol[..1] == [CR];
      var u := Read(cfg, r, CR);
      HeadByte(cfg, u, HeaderAlmostDone, LF,
               StepHead(cfg.strict, cfg.answer(u.o, InfoOf(u.s)), u.s.(nread := u.s.nread + 1), HeaderAlmostDone, LF));
    }
  }

  /** Where a line ends: a fold may follow, unless a bare LF stands where the value would begin. */
  function LineAfter(v: seq<byte>, eol: seq<byte>): HeadState {
    if v == [] && eol == [LF] then HeaderFieldStart else HeaderValueLws
  }

  /** A line that ends where its value would begin sets nothing. */
  lemma ReadEmpty(cfg: Config, r: Run, eol: seq<byte>)
    requires r.status.Running? && r.s.state == Head(HeaderValueStart)
    requires IsEol(eol) && r.s.nread + |eol| <= HTTP_MAX_HEADER_SIZE
    ensures var t := ReadAll(cfg, r, eol);
      && t.status.Running?
      && t.s == Past(r.s, |eol|).(state := Head(LineAfter([], eol)), hs := if eol == [LF] then r.s.hs else General,
                                  index := 0)
  {
    hide Read, InfoOf;
    HeadByte(cfg, r, HeaderValueStart, eol[0],
             StepHead(cfg.strict, cfg.answer(r.o, InfoOf(r.s)), r.s.(nread := r.s.nread + 1), HeaderValueStart,
                 eol[0]));
    ReadOne(cfg, r, eol[0]);
    if eol == [CR, LF] {
      assert eol[..1] == [CR];
      var u := Read(cfg, r, CR);
      HeadByte(cfg, u, HeaderAlmostDone, LF,
               StepHead(cfg.strict, cfg.answer(u.o, InfoOf(u.s)), u.s.(nread := u.s.nread + 1), HeaderAlmostDone, LF));
    }
  }

  function Line(name: seq<byte>, blanks: seq<byte>, v: seq<byte>, eol: seq<byte>): seq<byte> {
    name + [COLON] + blanks + v + eol
  }

  /** The flags after a header line, by comparing its name and value with the literals; without a value there is no
      flag. */
  function LineFlags(f: Flags, name: seq<byte>, v: seq<byte>): Flags {
    f.(chunked := f.chunked || (NameIs(name, TRANSFER_ENCODING) && ValueIs(v, CHUNKED)),
       keepAlive := f.keepAlive || (Connects(name) && ValueIs(v, KEEP_ALIVE)),
       close := f.close || (Connects(name) && ValueIs(v, CLOSE)),
       upgrade := f.upgrade || (NameIs(name, HttpChars.UPGRADE) && v != []))
  }

  lemma DifferentNames(w: seq<byte>)
    ensures NameIs(w, TRANSFER_ENCODING) ==> !Connects(w) && !NameIs(w, CONTENT_LENGTH) && !NameIs(w, HttpChars.UPGRADE)
    ensures Connects(w) ==> !NameIs(w, CONTENT_LENGTH) && !NameIs(w, HttpChars.UPGRADE)
    ensures NameIs(w, CONTENT_LENGTH) ==> !NameIs(w, HttpChars.UPGRADE)
  {
    hide Token;
    if |w| >= 4 {
      var first, fourth := Token(w[0]), Token(w[3]);
    }
  }

  lemma ReadHeading(cfg: Config, r: Run, name: seq<byte>, blanks: seq<byte>)
    requires r.status.Running? && r.s.state == Head(HeaderFieldStart)
    requires IsName(name) && AllBlank(blanks)
    requires r.s.nread + |name| + 1 + |blanks| <= HTTP_MAX_HEADER_SIZE
    ensures var t := ReadAll(cfg, r, name + [COLON] + blanks);
      && t.status.Running?
      && t.s == Past(r.s, |name| + 1 + |blanks|).(state := Head(HeaderValueStart), hs := NameFold(name).0,
            index := NameFold(name).1)
  {
    hide Read, ReadAll, NameFold, Token;
    ReadName(cfg, r, name);
    ReadAllSplit(cfg, r, name, [COLON]);
    var r1 := ReadAll(cfg, r, name);
    ReadOne(cfg, r1, COLON);
    ReadColon(cfg, r1);
    var r2 := ReadAll(cfg, r, name + [COLON]);
    assert r2.s == Past(r1.s, 1).(state := Head(HeaderValueStart));
    ReadAllSplit(cfg, r, name + [COLON], blanks);
    ReadBlanks(cfg, r2, blanks);
    assert ReadAll(cfg, r, name + [COLON] + blanks).s == Past(r2.s, |blanks|);
  }

  /** Nothing but the fields of the header automata and the budget has changed. */
  predicate OnlyHeader(s: Parser, t: Parser) {
    t == s.(state := t.state, hs := t.hs, index := t.index, nread := t.nread, flags := t.flags,
        contentLength := t.contentLength)
  }

  /** The two automata together, at the end of the line. */
  lemma LineMeans(s: Parser, name: seq<byte>, v: seq<byte>, hs: HeaderState, i: nat, t: Parser)
    requires v != [] && NameMeaning(hs, i, name) && ValueMeaning(hs, s, v, t)
    ensures LineDone(t).flags == LineFlags(s.flags, name, v)
    ensures hs.ContentLength? <==> NameIs(name, CONTENT_LENGTH)
    ensures ValueState(t.hs) && (t.hs.ContentLength? <==> hs.ContentLength?)
  {
    hide NameIs, ValueIs, ValuePrefix, IsLength, Decimal, NamePrefix;
    DifferentNames(name);
  }

  /** What a fold finds: a number to start again, or nothing that matters. */
  predicate FoldReady(hs: HeaderState, name: seq<byte>, counting: bool) {
    ValueState(hs) && (hs.ContentLength? <==> NameIs(name, CONTENT_LENGTH) && counting)
  }

  /** An unfolded header line sets exactly the flags its name and value spell, or (for a length) the
      number its digits write; only a malformed length is an error, and a line without a value sets nothing. */
  lemma HeaderLine(cfg: Config, r: Run, name: seq<byte>, blanks: seq<byte>, v: seq<byte>, eol: seq<byte>)
    requires r.status.Running? && r.s.state == Head(HeaderFieldStart)
    requires IsName(name) && AllBlank(blanks) && IsValue(v) && IsEol(eol)
    requires r.s.nread + |Line(name, blanks, v, eol)| <= HTTP_MAX_HEADER_SIZE
    ensures var t := ReadAll(cfg, r, Line(name, blanks, v, eol));
      if NameIs(name, CONTENT_LENGTH) && v != [] && !IsLength(v) then t.status == Failed(INVALID_CONTENT_LENGTH)
      else
        && t.status.Running? && t.s.state == Head(LineAfter(v, eol))
        && (t.s.state == Head(HeaderValueLws) ==> FoldReady(t.s.hs, name, v != []))
        && t.s.flags == LineFlags(r.s.flags, name, v)
        && (if NameIs(name, CONTENT_LENGTH) && v != []
            then Decimal(v) < 0x8000_0000_0000_0000 ==> t.s.contentLength == Decimal(v)
            else t.s.contentLength == r.s.contentLength)
        && t.s.nread == r.s.nread + |Line(name, blanks, v, eol)|
        && OnlyHeader(r.s, t.s)
  {
    hide Read, ReadAll, NameFold, NameIs, IsLength, Decimal, LineFlags, IsName, AllBlank, IsValue;
    var head := name + [COLON] + blanks;
    ReadHeading(cfg, r, name, blanks);
    var r3 := ReadAll(cfg, r, head);
    ReadAllSplit(cfg, r, head, v);
    ReadAllSplit(cfg, r, head + v, eol);
    if v == [] {
      assert head + v == head;
      ReadEmpty(cfg, r3, eol);
      NoFlags(r.s.flags, name);
    } else {
      LineEnd(cfg, r3, r.s, name, v, eol);
    }
  }

  lemma NoFlags(f: Flags, name: seq<byte>)
    ensures LineFlags(f, name, []) == f
  {
    hide NameIs;
  }

  /** The value and the end of the line. */
  lemma LineEnd(cfg: Config, r: Run, s: Parser, name: seq<byte>, v: seq<byte>, eol: seq<byte>)
    requires IsName(name) && IsValue(v) && v != [] && IsEol(eol)
    requires r.status.Running? && r.s.state == Head(HeaderValueStart) && r.s.hs == NameFold(name).0
    requires r.s.flags == s.flags && r.s.contentLength == s.contentLength
    requires r.s.nread + |v| + |eol| <= HTTP_MAX_HEADER_SIZE
    ensures var t := ReadAll(cfg, ReadAll(cfg, r, v), eol);
      if NameIs(name, CONTENT_LENGTH) && !IsLength(v) then t.status == Failed(INVALID_CONTENT_LENGTH)
      else
        && t.status.Running? && t.s.state == Head(HeaderValueLws) && FoldReady(t.s.hs, name, true)
        && t.s.flags == LineFlags(s.flags, name, v)
        && (if NameIs(name, CONTENT_LENGTH)
            then Decimal(v) < 0x8000_0000_0000_0000 ==> t.s.contentLength == Decimal(v)
            else t.s.contentLength == s.contentLength)
        && t.s.nread == r.s.nread + |v| + |eol|
        && OnlyHeader(r.s, t.s)
  {
    hide Read, ReadAll, NameFold, NameIs, IsLength, Decimal, NameMeaning, ValueFold, LineFlags, IsName, AllBlank,
      ValueTracks, IsValue;
    NameFoldMeans(name);
    ReadValue(cfg, r, v);
    var s0 := ValueEntry(r.s);
    ValueFoldMeans(s0, v);
    var t := ValueFold(s0, v);
    LineMeans(s0, name, v, NameFold(name).0, NameFold(name).1, t);
    var r4 := ReadAll(cfg, r, v);
    if r4.status.Running? {
      assert r4.s == t.(nread := r.s.nread + |v|);
      assert r4.s.state == Head(HeaderValue);
      ReadEol(cfg, r4, eol);
    } else {
      StoppedStays(cfg, r4, eol);
    }
  }

  // ---------- Folds ----------

  lemma FirstBlank(cfg: Config, r: Run, b: byte)
    requires r.status.Running? && r.s.state == Head(HeaderValueLws) && (b == SP || b == TAB)
    requires r.s.nread + 1 <= HTTP_MAX_HEADER_SIZE
    ensures Read(cfg, r, b).status.Running? && Read(cfg, r, b).s == Past(r.s, 1).(state := Head(HeaderValueStart))
  {
    HeadByte(cfg, r, HeaderValueLws, b,
             StepHead(cfg.strict, cfg.answer(r.o, InfoOf(r.s)), r.s.(nread := r.s.nread + 1), HeaderValueLws, b));
  }

  lemma ReadFoldBlanks(cfg: Config, r: Run, blanks: seq<byte>)
    requires r.status.Running? && r.s.state == Head(HeaderValueLws) && AllBlank(blanks) && blanks != []
    requires r.s.nread + |blanks| <= HTTP_MAX_HEADER_SIZE
    ensures var t := ReadAll(cfg, r, blanks);
      t.status.Running? && t.s == Past(r.s, |blanks|).(state := Head(HeaderValueStart))
  {
    hide Read, ReadAll;
    assert blanks == [blanks[0]] + blanks[1..];
    ReadAllSplit(cfg, r, [blanks[0]], blanks[1..]);
    ReadOne(cfg, r, blanks[0]);
    FirstBlank(cfg, r, blanks[0]);
    ReadBlanks(cfg, Read(cfg, r, blanks[0]), blanks[1..]);
  }

  /** A further value of a folded header matches nothing. */
  lemma FoldMeans(s: Parser, v: seq<byte>, t: Parser)
    requires ValueMeaning(s.hs, s, v, t) && ValueState(s.hs)
    ensures LineDone(t).flags == s.flags && ValueState(t.hs) && (t.hs.ContentLength? <==> s.hs.ContentLength?)
  {
    hide IsLength, Decimal, ValueTracks;
  }

  /** A fold sets no flag. If it continues a number, the number starts again; a fold without a value ends that. */
  lemma FoldLine(cfg: Config, r: Run, blanks: seq<byte>, v: seq<byte>, eol: seq<byte>)
    requires r.status.Running? && r.s.state == Head(HeaderValueLws) && ValueState(r.s.hs)
    requires AllBlank(blanks) && blanks != [] && IsValue(v) && IsEol(eol)
    requires r.s.nread + |blanks + v + eol| <= HTTP_MAX_HEADER_SIZE
    ensures var t := ReadAll(cfg, r, blanks + v + eol); var counting := r.s.hs.ContentLength? && v != [];
      if counting && !IsLength(v) then t.status == Failed(INVALID_CONTENT_LENGTH)
      else
        && t.status.Running? && t.s.state == Head(LineAfter(v, eol)) && t.s.flags == r.s.flags
        && (if counting then Decimal(v) < 0x8000_0000_0000_0000 ==> t.s.contentLength == Decimal(v)
            else t.s.contentLength == r.s.contentLength)
        && (t.s.state == Head(HeaderValueLws) ==> ValueState(t.s.hs) && (t.s.hs.ContentLength? <==> counting))
        && t.s.nread == r.s.nread + |blanks + v + eol| && OnlyHeader(r.s, t.s)
  {
    hide Read, ReadAll, IsLength, Decimal, ValueFold, AllBlank, IsValue, ValueTracks, ValueMeaning, LineDone;
    ReadFoldBlanks(cfg, r, blanks);
    var r1 := ReadAll(cfg, r, blanks);
    ReadAllSplit(cfg, r, blanks, v);
    ReadAllSplit(cfg, r, blanks + v, eol);
    if v == [] {
      assert blanks + v == blanks;
      ReadEmpty(cfg, r1, eol);
    } else {
      FoldEnd(cfg, r1, v, eol);
    }
  }

  lemma FoldEnd(cfg: Config, r: Run, v: seq<byte>, eol: seq<byte>)
    requires IsValue(v) && v != [] && IsEol(eol) && ValueState(r.s.hs)
    requires r.status.Running? && r.s.state == Head(HeaderValueStart)
    requires r.s.nread + |v| + |eol| <= HTTP_MAX_HEADER_SIZE
    ensures var t := ReadAll(cfg, ReadAll(cfg, r, v), eol);
      if r.s.hs.ContentLength? && !IsLength(v) then t.status == Failed(INVALID_CONTENT_LENGTH)
      else
        && t.status.Running? && t.s.state == Head(HeaderValueLws) && t.s.flags == r.s.flags
        && (if r.s.hs.ContentLength? then Decimal(v) < 0x8000_0000_0000_0000 ==> t.s.contentLength == Decimal(v)
            else t.s.contentLength == r.s.contentLength)
        && ValueState(t.s.hs) && (t.s.hs.ContentLength? <==> r.s.hs.ContentLength?)
        && t.s.nread == r.s.nread + |v| + |eol| && OnlyHeader(r.s, t.s)
  {
    hide Read, ReadAll, IsLength, Decimal, ValueFold, IsValue, ValueTracks;
    ReadValue(cfg, r, v);
    var s0 := ValueEntry(r.s);
    ValueFoldMeans(s0, v);
    var t := ValueFold(s0, v);
    FoldMeans(s0, v, t);
    var r1 := ReadAll(cfg, r, v);
    if r1.status.Running? {
      assert r1.s == t.(nread := r.s.nread + |v|) && r1.s.state == Head(HeaderValue);
      ReadEol(cfg, r1, eol);
    } else {
      StoppedStays(cfg, r1, eol);
    }
  }

  // ---------- Lines without a colon ----------

  /** A line that is nothing but a name sets nothing. */
  lemma NameLine(cfg: Config, r: Run, name: seq<byte>, eol: seq<byte>)
    requires r.status.Running? && r.s.state == Head(HeaderFieldStart) && IsName(name) && IsEol(eol)
    requires r.s.nread + |name + eol| <= HTTP_MAX_HEADER_SIZE
    ensures var t := ReadAll(cfg, r, name + eol);
      && t.status.Running? && OnlyHeader(r.s, t.s) && t.s.flags == r.s.flags
      && t.s.state == Head(if eol == [LF] then HeaderFieldStart else HeaderValueLws)
      && t.s.contentLength == r.s.contentLength && t.s.nread == r.s.nread + |name + eol|
  {
    hide Read, ReadAll, NameFold, IsName, NameState;
    ReadName(cfg, r, name);
    ReadAllSplit(cfg, r, name, eol);
    var u := ReadAll(cfg, r, name);
    if eol == [LF] {
      ReadOne(cfg, u, LF);
      NameEol(cfg, u, LF);
    } else {
      assert eol == [CR] + [LF];
      ReadAllSplit(cfg, u, [CR], [LF]);
      ReadOne(cfg, u, CR);
      NameEol(cfg, u, CR);
      var u1 := Read(cfg, u, CR);
      ReadOne(cfg, u1, LF);
      HeadByte(cfg, u1, HeaderAlmostDone, LF,
               StepHead(cfg.strict, cfg.answer(u1.o, InfoOf(u1.s)), u1.s.(nread := u1.s.nread + 1), HeaderAlmostDone,
                   LF));
      NoFlag(u1.s.hs);
    }
  }

  lemma NameEol(cfg: Config, r: Run, b: byte)
    requires r.status.Running? && r.s.state == Head(HeaderField) && (b == CR || b == LF)
    requires r.s.nread + 1 <= HTTP_MAX_HEADER_SIZE
    ensures var t := Read(cfg, r, b);
      t.status.Running? && t.s == Past(r.s, 1).(state := Head(if b == CR then HeaderAlmostDone else HeaderFieldStart))
  {
    hide Read;
    TokenFacts();
    HeadByte(cfg, r, HeaderField, b,
             StepHead(cfg.strict, cfg.answer(r.o, InfoOf(r.s)), r.s.(nread := r.s.nread + 1), HeaderField, b));
  }

  lemma NoFlag(hs: HeaderState)
    ensures NameState(hs) ==> !hs.KeepAlive? && !hs.Close? && !hs.Chunked?
  {
  }
}
