/** What a legal callback log looks like, without reference to the recogniser. */
module HttpGrammar {
  import opened Bytes
  import opened HttpChars
  import opened HttpTypes

  predicate IsData(e: Event, k: Span) { e.Data? && e.span == k }

  predicate IsUrlData(e: Event) { e.Data? && (e.span.Url? || e.span.Path? || e.span.Query? || e.span.Fragment?) }

  predicate IsFieldData(e: Event) { IsData(e, Field) || IsData(e, Value) }

  /** Nothing but URL and header data since a begin. */
  predicate SinceBegin(log: seq<Event>) {
    exists j :: 0 <= j < |log| && log[j].MessageBegin?
      && forall k :: j < k < |log| ==> IsUrlData(log[k]) || IsFieldData(log[k])
  }

  /** As above, and no header yet. */
  predicate InRequestLine(log: seq<Event>) {
    exists j :: 0 <= j < |log| && log[j].MessageBegin? && forall k :: j < k < |log| ==> IsUrlData(log[k])
  }

  /** Nothing but body data since the headers were announced. */
  predicate SinceHeaders(log: seq<Event>, chunked: bool) {
    exists j :: 0 <= j < |log| && log[j].HeadersComplete? && log[j].info.chunked == chunked
      && forall k :: j < k < |log| ==> IsData(log[k], Body)
  }

  /** Body and trailers of a chunked message since its headers were announced. */
  predicate InTrailers(log: seq<Event>) {
    exists j :: 0 <= j < |log| && log[j].HeadersComplete? && log[j].info.chunked
      && forall k :: j < k < |log| ==> IsData(log[k], Body) || IsFieldData(log[k])
  }

  predicate LastIsField(log: seq<Event>) { log != [] && IsFieldData(log[|log| - 1]) }

  predicate BetweenMessages(log: seq<Event>) { log == [] || log[|log| - 1].MessageComplete? }

  /** What the phase of the recogniser says about the log. */
  predicate Shape(log: seq<Event>, p: Phase) {
    match p
    case Idle => BetweenMessages(log)
    case Line => InRequestLine(log)
    case Headers => SinceBegin(log) && LastIsField(log)
    case Content(chunked) => SinceHeaders(log, chunked)
    case Trailers => InTrailers(log) && LastIsField(log)
    case Rejected => true
  }

  /** One more event of the right kind leaves a log where it stood. */
  lemma BeginStays(log: seq<Event>, e: Event)
    ensures SinceBegin(log) && (IsUrlData(e) || IsFieldData(e)) ==> SinceBegin(log + [e])
    ensures InRequestLine(log) && IsUrlData(e) ==> InRequestLine(log + [e])
    ensures InRequestLine(log) ==> SinceBegin(log)
    ensures e.MessageBegin? ==> InRequestLine(log + [e])
  {
    var next := log + [e];
    assert next[|log|] == e;
    if SinceBegin(log) && (IsUrlData(e) || IsFieldData(e)) {
      var j :| 0 <= j < |log| && log[j].MessageBegin?
               && forall k :: j < k < |log| ==> IsUrlData(log[k]) || IsFieldData(log[k]);
      assert next[j].MessageBegin?;
    }
    if InRequestLine(log) {
      var j :| 0 <= j < |log| && log[j].MessageBegin? && forall k :: j < k < |log| ==> IsUrlData(log[k]);
      assert next[j].MessageBegin?;
      assert log[j].MessageBegin?;
    }
  }

  lemma HeadersStay(log: seq<Event>, e: Event, chunked: bool)
    ensures SinceHeaders(log, chunked) && IsData(e, Body) ==> SinceHeaders(log + [e], chunked)
    ensures SinceHeaders(log, true) ==> InTrailers(log)
    ensures InTrailers(log) && IsFieldData(e) ==> InTrailers(log + [e])
    ensures e.HeadersComplete? ==> SinceHeaders(log + [e], e.info.chunked)
  {
    var next := log + [e];
    assert next[|log|] == e;
    if SinceHeaders(log, chunked) && IsData(e, Body) {
      var j :| 0 <= j < |log| && log[j].HeadersComplete? && log[j].info.chunked == chunked
               && forall k :: j < k < |log| ==> IsData(log[k], Body);
      assert next[j].HeadersComplete?;
    }
    if SinceHeaders(log, true) {
      var j :| 0 <= j < |log| && log[j].HeadersComplete? && log[j].info.chunked
               && forall k :: j < k < |log| ==> IsData(log[k], Body);
      assert log[j].HeadersComplete?;
    }
    if InTrailers(log) && IsFieldData(e) {
      var j :| 0 <= j < |log| && log[j].HeadersComplete? && log[j].info.chunked
               && forall k :: j < k < |log| ==> IsData(log[k], Body) || IsFieldData(log[k]);
      assert next[j].HeadersComplete?;
    }
  }

  lemma ShapeNext(log: seq<Event>, p: Phase, e: Event)
    requires Shape(log, p)
    ensures Shape(log + [e], Grammar(p, e))
  {
    hide InRequestLine, SinceBegin, SinceHeaders, InTrailers;
    BeginStays(log, e);
    HeadersStay(log, e, true);
    HeadersStay(log, e, false);
  }

  lemma {:induction false} LegalShape(log: seq<Event>)
    ensures Shape(log, Observe(log).phase)
  {
    hide Shape, Apply;
    if log == [] {
      hide Grammar;
      ShapeEmpty();
    } else {
      var n := |log| - 1;
      LegalShape(log[..n]);
      ShapeNext(log[..n], Observe(log[..n]).phase, log[n]);
      ApplyPhase(Observe(log[..n]), log[n]);
      assert log == log[..n] + [log[n]];
    }
  }

  lemma ShapeEmpty()
    ensures Shape([], Idle)
  {
  }

  lemma ApplyPhase(o: Obs, e: Event)
    ensures Apply(o, e).phase == Grammar(o.phase, e)
  {
  }

  /** A log that is legal was legal all along. */
  lemma {:induction false} LegalPrefix(log: seq<Event>, i: nat)
    requires i <= |log| && !Observe(log).phase.Rejected?
    ensures !Observe(log[..i]).phase.Rejected?
    decreases |log|
  {
    if i == |log| {
      assert log[..i] == log;
    } else {
      var n := |log| - 1;
      LegalPrefix(log[..n], i);
      assert log[..n][..i] == log[..i];
    }
  }

  /** What may come before the callback `e`. */
  predicate MayPrecede(past: seq<Event>, e: Event) {
    match e
    case MessageBegin(response) => BetweenMessages(past) || (response && InRequestLine(past))
    case HeadersComplete(_) => SinceBegin(past)
    case MessageComplete(_) => SinceHeaders(past, true) || SinceHeaders(past, false) || InTrailers(past)
    case Data(k, _) =>
      (match k
       case Field => SinceBegin(past) || SinceHeaders(past, true) || InTrailers(past)
       case Value => LastIsField(past) && (SinceBegin(past) || InTrailers(past))
       case Body => SinceHeaders(past, true) || SinceHeaders(past, false)
       case _ => InRequestLine(past))
  }

  lemma InPlace(past: seq<Event>, p: Phase, e: Event)
    requires Shape(past, p) && !Grammar(p, e).Rejected?
    ensures MayPrecede(past, e)
  {
    hide BetweenMessages, InRequestLine, SinceBegin, SinceHeaders, InTrailers, LastIsField;
    BeginStays(past, e);
  }

  /** In a legal log every callback is in its place: URL parts after a begin, headers after a begin,
      values right after a field or a value, the announcement after the headers, body pieces after the
      announcement, trailers only when it announced a chunked message, completion after all of them. */
  lemma LegalIsOrdered(log: seq<Event>, i: nat)
    requires i < |log| && !Observe(log).phase.Rejected?
    ensures MayPrecede(log[..i], log[i])
  {
    hide Apply, Shape, Grammar, MayPrecede;
    LegalPrefix(log, i + 1);
    var past := log[..i];
    assert log[..i + 1][..i] == past && log[..i + 1][i] == log[i];
    ApplyPhase(Observe(past), log[i]);
    LegalShape(past);
    InPlace(past, Observe(past).phase, log[i]);
  }

  /** A log stands in one place only. */
  lemma OnePlace(log: seq<Event>)
    ensures SinceBegin(log) ==> !BetweenMessages(log) && !SinceHeaders(log, true) && !SinceHeaders(log, false)
    ensures SinceBegin(log) ==> !InTrailers(log)
    ensures InRequestLine(log) ==> !LastIsField(log)
    ensures SinceHeaders(log, true) ==> !BetweenMessages(log) && !LastIsField(log) && !SinceHeaders(log, false)
    ensures SinceHeaders(log, false) ==> !BetweenMessages(log) && !LastIsField(log) && !InTrailers(log)
    ensures InTrailers(log) ==> !BetweenMessages(log)
  {
  }

  lemma InPlaceBack(past: seq<Event>, p: Phase, e: Event)
    requires Shape(past, p) && !p.Rejected? && MayPrecede(past, e)
    ensures !Grammar(p, e).Rejected?
  {
    hide BetweenMessages, InRequestLine, SinceBegin, SinceHeaders, InTrailers, LastIsField;
    OnePlace(past);
    BeginStays(past, e);
    HeadersStay(past, e, true);
  }

  /** The legal logs are exactly those in which every callback is in its place. */
  lemma {:induction false} LegalExactly(log: seq<Event>)
    ensures !Observe(log).phase.Rejected? <==> forall i :: 0 <= i < |log| ==> MayPrecede(log[..i], log[i])
  {
    hide Apply, Shape, Grammar, MayPrecede;
    if !Observe(log).phase.Rejected? {
      forall i | 0 <= i < |log| ensures MayPrecede(log[..i], log[i]) { LegalIsOrdered(log, i); }
    } else if log == [] {
      ShapeEmpty();
    } else if forall i :: 0 <= i < |log| ==> MayPrecede(log[..i], log[i]) {
      var n := |log| - 1;
      forall i | 0 <= i < n ensures MayPrecede(log[..n][..i], log[..n][i]) { assert log[..n][..i] == log[..i]; }
      LegalExactly(log[..n]);
      LegalShape(log[..n]);
      InPlaceBack(log[..n], Observe(log[..n]).phase, log[n]);
      ApplyPhase(Observe(log[..n]), log[n]);
    }
  }
}
