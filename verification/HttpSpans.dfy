/** Open spans: the six marks of the buffer scanner and the span data they still hold back. */
module HttpSpans {
  import opened Bytes
  import opened HttpChars
  import opened HttpTypes
  import opened HttpStep
  import opened HttpInvariants
  import opened HttpTrace

  datatype Mark = NoMark | At(pos: nat)

  datatype Marks = Marks(url: Mark, path: Mark, query: Mark, fragment: Mark, field: Mark, value: Mark)

  const NO_MARKS := Marks(NoMark, NoMark, NoMark, NoMark, NoMark, NoMark)

  function MarkOf(mk: Marks, k: Span): Mark {
    match k
    case Url => mk.url
    case Path => mk.path
    case Query => mk.query
    case Fragment => mk.fragment
    case Field => mk.field
    case Value => mk.value
    case Body => NoMark
  }

  function Cleared(mk: Marks, k: Span): Marks {
    match k
    case Url => mk.(url := NoMark)
    case Path => mk.(path := NoMark)
    case Query => mk.(query := NoMark)
    case Fragment => mk.(fragment := NoMark)
    case Field => mk.(field := NoMark)
    case Value => mk.(value := NoMark)
    case Body => mk
  }

  predicate Before(m: Mark, q: nat) { m.At? ==> m.pos <= q }

  predicate MarksBefore(mk: Marks, q: nat) {
    Before(mk.url, q) && Before(mk.path, q) && Before(mk.query, q) && Before(mk.fragment, q)
    && Before(mk.field, q) && Before(mk.value, q)
  }

  /** At a loop head each mark is set exactly when `state` is one that re-arms it on entry. */
  predicate MarksMatch(mk: Marks, st: State) {
    && (mk.url.At? <==> UrlOpen(st))
    && (mk.path.At? <==> PathOpen(st))
    && (mk.query.At? <==> QueryOpen(st))
    && (mk.fragment.At? <==> FragmentOpen(st))
    && (mk.field.At? <==> FieldOpen(st))
    && (mk.value.At? <==> ValueOpen(st))
  }

  /** What is observed once the span marked by `m` is delivered up to `q`. */
  function Pend(o: Obs, k: Span, m: Mark, data: seq<byte>, q: nat): Obs
    requires q <= |data| && Before(m, q)
  {
    if m.NoMark? || m.pos == q then o else Apply(o, Data(k, data[m.pos..q]))
  }

  function PendUrl(o: Obs, mk: Marks, data: seq<byte>, q: nat): Obs
    requires q <= |data| && MarksBefore(mk, q)
  {
    Pend(Pend(Pend(Pend(o, Url, mk.url, data, q), Path, mk.path, data, q), Query, mk.query, data, q),
         Fragment, mk.fragment, data, q)
  }

  /** What is observed once every open span is delivered up to `q`. */
  function PendAll(o: Obs, mk: Marks, data: seq<byte>, q: nat): Obs
    requires q <= |data| && MarksBefore(mk, q)
  {
    Pend(Pend(PendUrl(o, mk, data, q), Field, mk.field, data, q), Value, mk.value, data, q)
  }

  predicate UrlSpan(k: Span) { k.Url? || k.Path? || k.Query? || k.Fragment? }

  /** Delivering a span in two pieces is delivering it whole. */
  lemma MergeData(o: Obs, k: Span, a: seq<byte>, b: seq<byte>)
    ensures Apply(Apply(o, Data(k, a)), Data(k, b)) == Apply(o, Data(k, a + b))
  {
    var m := o.cur;
    assert (m.url + a) + b == m.url + (a + b);
    assert (m.path + a) + b == m.path + (a + b);
    assert (m.query + a) + b == m.query + (a + b);
    assert (m.fragment + a) + b == m.fragment + (a + b);
    assert (m.body + a) + b == m.body + (a + b);
    MergeField(m, a, b);
    MergeValue(m, a, b);
  }

  lemma MergeField(m: Message, a: seq<byte>, b: seq<byte>)
    ensures AddField(AddField(m, a), b) == AddField(m, a + b)
  {
    var n := |m.headers|;
    if m.last.LastField? && m.headers != [] {
      var h := m.headers[n - 1];
      assert (h.name + a) + b == h.name + (a + b);
      assert AddField(m, a).headers[..n - 1] == m.headers[..n - 1];
    } else {
      assert AddField(m, a).headers[..n] == m.headers;
    }
  }

  lemma MergeValue(m: Message, a: seq<byte>, b: seq<byte>)
    ensures AddValue(AddValue(m, a), b) == AddValue(m, a + b)
  {
    var n := |m.headers|;
    if m.headers != [] {
      var h := m.headers[n - 1];
      assert (h.value + a) + b == h.value + (a + b);
      assert AddValue(m, a).headers[..n - 1] == m.headers[..n - 1];
    }
  }

  /** The parts of a URL may be delivered in any order. */
  lemma CommuteData(o: Obs, k: Span, a: seq<byte>, l: Span, b: seq<byte>)
    requires UrlSpan(k) && UrlSpan(l) && k != l
    ensures Apply(Apply(o, Data(k, a)), Data(l, b)) == Apply(Apply(o, Data(l, b)), Data(k, a))
  {
  }

  /** Delivering nothing for a span that is being received changes nothing. */
  lemma EmptyData(o: Obs, k: Span)
    requires UrlSpan(k) ==> o.phase.Line?
    requires k.Field? || k.Value? ==> o.cur.headers != [] && (o.phase.Headers? || o.phase.Trailers?)
    requires k.Field? ==> o.cur.last.LastField?
    requires k.Value? ==> o.cur.last.LastValue?
    requires !k.Body?
    ensures Apply(o, Data(k, [])) == o
  {
    var m := o.cur;
    assert m.url + [] == m.url && m.path + [] == m.path && m.query + [] == m.query && m.fragment + [] == m.fragment;
    if m.headers != [] {
      var n := |m.headers| - 1;
      assert m.headers[n].name + [] == m.headers[n].name && m.headers[n].value + [] == m.headers[n].value;
      assert m.headers == m.headers[..n] + [m.headers[n]];
    }
  }

  /** Growing one pending span by the byte at `q`. */
  lemma PendGrow(o: Obs, k: Span, m: Mark, data: seq<byte>, q: nat)
    requires q < |data| && Before(m, q) && m.At?
    ensures Pend(o, k, m, data, q + 1) == Apply(Pend(o, k, m, data, q), Data(k, [data[q]]))
  {
    hide Apply;
    if m.pos < q {
      assert data[m.pos..q + 1] == data[m.pos..q] + [data[q]];
      MergeData(o, k, data[m.pos..q], [data[q]]);
    } else {
      assert data[m.pos..q + 1] == [data[q]];
    }
  }

  /** Reading the byte at `q` on the way into `st` feeds exactly the spans that are open in `st`. */
  lemma Advance(o: Obs, mk: Marks, st: State, data: seq<byte>, q: nat)
    requires q < |data| && MarksBefore(mk, q) && MarksMatch(mk, st)
    ensures PendAll(o, mk, data, q + 1) == Feed(PendAll(o, mk, data, q), st, data[q])
  {
    hide Apply;
    var c := [data[q]];
    if UrlOpen(st) {
      PendGrow(o, Url, mk.url, data, q);
      var o0 := Pend(o, Url, mk.url, data, q);
      var o1 := Apply(o0, Data(Url, c));
      if PathOpen(st) { GrowBeside(o0, Path, mk.path, data, q); }
      else if QueryOpen(st) { GrowBeside(o0, Query, mk.query, data, q); }
      else if FragmentOpen(st) { GrowBeside(o0, Fragment, mk.fragment, data, q); }
    } else if FieldOpen(st) {
      PendGrow(o, Field, mk.field, data, q);
    } else if ValueOpen(st) {
      PendGrow(o, Value, mk.value, data, q);
    }
  }

  lemma GrowBeside(o: Obs, k: Span, m: Mark, data: seq<byte>, q: nat)
    requires q < |data| && Before(m, q) && m.At? && UrlSpan(k) && !k.Url?
    ensures var c := [data[q]];
      Pend(Apply(o, Data(Url, c)), k, m, data, q + 1)
      == Apply(Apply(Pend(o, k, m, data, q), Data(Url, c)), Data(k, c))
  {
    var c := [data[q]];
    PendGrow(Apply(o, Data(Url, c)), k, m, data, q);
    if m.pos < q { CommuteData(o, Url, c, k, data[m.pos..q]); }
  }

  /** Only one URL part is open beside the URL, and no URL part beside a header. */
  predicate OneOpen(mk: Marks) {
    && (mk.path.NoMark? || (mk.query.NoMark? && mk.fragment.NoMark?))
    && (mk.query.NoMark? || mk.fragment.NoMark?)
    && (mk.field.At? || mk.value.At? ==>
          mk.url.NoMark? && mk.path.NoMark? && mk.query.NoMark? && mk.fragment.NoMark?)
    && (mk.field.NoMark? || mk.value.NoMark?)
  }

  /** A span delivered early, then nothing more of it. */
  lemma PendFlush(o: Obs, k: Span, m: nat, data: seq<byte>, q: nat)
    requires m <= q <= |data|
    ensures Apply(o, Data(k, data[m..q])) == Apply(Pend(o, k, At(m), data, q), Data(k, []))
  {
    hide Apply;
    MergeData(o, k, data[m..q], []);
    assert data[m..q] + [] == data[m..q];
    if m == q { assert data[m..q] == []; }
  }

  /** Delivering the URL early, with the span `l` (if any) still open beside it. */
  lemma FlushUrl(o: Obs, u: nat, l: Span, m: Mark, data: seq<byte>, q: nat)
    requires u <= q <= |data| && Before(m, q) && UrlSpan(l) && !l.Url?
    ensures Pend(Apply(o, Data(Url, data[u..q])), l, m, data, q)
         == Apply(Pend(Pend(o, Url, At(u), data, q), l, m, data, q), Data(Url, []))
  {
    hide Apply;
    PendFlush(o, Url, u, data, q);
    if m.At? && m.pos < q { CommuteData(Pend(o, Url, At(u), data, q), Url, [], l, data[m.pos..q]); }
  }

  /** Delivering the span `l` early, with the URL (if any) still open beside it. */
  lemma FlushPart(o: Obs, u: Mark, l: Span, m: nat, data: seq<byte>, q: nat)
    requires m <= q <= |data| && Before(u, q) && UrlSpan(l) && !l.Url?
    ensures Pend(Apply(o, Data(l, data[m..q])), Url, u, data, q)
         == Apply(Pend(Pend(o, Url, u, data, q), l, At(m), data, q), Data(l, []))
  {
    hide Apply;
    PendFlush(Pend(o, Url, u, data, q), l, m, data, q);
    if u.At? && u.pos < q { CommuteData(o, Url, data[u.pos..q], l, data[m..q]); }
  }

  /** Delivering an open span early only marks that its callback has been made: everything still
      pending is observed as before, whatever the order of delivery. */
  lemma FlushKeeps(o: Obs, mk: Marks, k: Span, data: seq<byte>, q: nat)
    requires q <= |data| && MarksBefore(mk, q) && OneOpen(mk) && MarkOf(mk, k).At?
    ensures PendAll(Apply(o, Data(k, data[MarkOf(mk, k).pos..q])), Cleared(mk, k), data, q)
         == Apply(PendAll(o, mk, data, q), Data(k, []))
  {
    hide Apply;
    var m := MarkOf(mk, k).pos;
    if k.Url? {
      if mk.path.At? { FlushUrl(o, m, Path, mk.path, data, q); }
      else if mk.query.At? { FlushUrl(o, m, Query, mk.query, data, q); }
      else { FlushUrl(o, m, Fragment, mk.fragment, data, q); }
    } else if UrlSpan(k) {
      FlushPart(o, mk.url, k, m, data, q);
    } else {
      PendFlush(o, k, m, data, q);
    }
  }

  /** Making the callback of a span that is open in the current state changes nothing observable. */
  lemma OpenSettled(s: Parser, o: Obs, mk: Marks, k: Span)
    requires ObsInv(s, o) && MarksMatch(mk, s.state) && MarkOf(mk, k).At?
    ensures Apply(o, Data(k, [])) == o
  {
    EmptyData(o, k);
  }
}
