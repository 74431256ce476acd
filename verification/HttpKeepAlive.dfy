/** Whether the connection stays open is told twice: the answer at the end of a message is the one at its announcement,
    unless a trailer has changed it. */
module HttpKeepAlive {
  import opened Bytes
  import opened HttpChars
  import opened HttpTypes
  import opened HttpStep
  import opened HttpInvariants
  import opened HttpTrace

  // ---------- While a message is received ----------

  predicate KeepsNow(s: Parser) { ShouldKeepAlive(s.major, s.minor, s.flags) }

  /** Between the announcement and the first trailer, what was announced is what would be answered now. */
  predicate Steady(s: Parser, o: Obs) {
    o.phase.Content? && |o.cur.infos| == 1 ==> o.cur.infos[0].keepAlive == KeepsNow(s)
  }

  /** A message says the same twice. */
  predicate SaysTwice(m: Message) { |m.infos| == 1 && |m.completes| == 1 && m.completes[0] == m.infos[0].keepAlive }

  /** From `o` to `o'` at most one message is completed, and if no trailer came before, it says the same twice. */
  predicate CompletesSteadily(o: Obs, o': Obs) {
    o'.done == o.done
    || (|o'.done| == |o.done| + 1 && o'.done[..|o.done|] == o.done
        && var m := o'.done[|o.done|];
           if o.phase.Trailers? then m.infos == o.cur.infos else SaysTwice(m))
  }

  predicate NoCompletion(e: Event) { e.Data? || e.MessageBegin? }

  /** Neither span data nor a begin lead into a body or complete a message. */
  lemma DataSteady(s: Parser, o: Obs, e: Event)
    requires Steady(s, o) && NoCompletion(e)
    ensures Steady(s, Apply(o, e)) && Apply(o, e).done == o.done
    ensures Apply(o, e).phase.Content? ==> o.phase.Content?
  {
  }

  lemma FeedSteady(s: Parser, o: Obs, st: State, b: byte)
    requires Steady(s, o)
    ensures Steady(s, Feed(o, st, b)) && Feed(o, st, b).done == o.done
    ensures Feed(o, st, b).phase.Content? ==> o.phase.Content?
  {
    hide Apply, Steady;
    DataSteady(s, o, Data(Url, [b]));
    var o1 := Apply(o, Data(Url, [b]));
    DataSteady(s, o1, Data(Path, [b]));
    DataSteady(s, o1, Data(Query, [b]));
    DataSteady(s, o1, Data(Fragment, [b]));
    DataSteady(s, o, Data(Field, [b]));
    DataSteady(s, o, Data(Value, [b]));
  }

  predicate IsQuiet(m: Move) { m.evs == [] || (|m.evs| == 1 && NoCompletion(m.evs[0])) }

  /** A byte that neither announces nor completes. */
  lemma QuietSteady(s: Parser, o: Obs, m: Move, b: byte)
    requires Steady(s, o) && IsQuiet(m) && (o.phase.Content? ==> KeepsNow(m.s) == KeepsNow(s))
    ensures Steady(m.s, After(o, m, b)) && After(o, m, b).done == ApplyAll(o, m.evs).done == o.done
  {
    hide Apply, Feed, KeepsNow, NoCompletion;
    if m.evs != [] {
      assert m.evs == [m.evs[0]];
      ApplyOne(o, m.evs[0]);
      DataSteady(m.s, o, m.evs[0]);
    }
    FeedSteady(m.s, ApplyAll(o, m.evs), m.s.state, b);
  }

  /** What is to be shown of a byte that does not fail. */
  predicate MovesSteadily(o: Obs, m: Move, b: byte) {
    && CompletesSteadily(o, ApplyAll(o, m.evs))
    && (m.out.Continue? ==> Steady(m.s, After(o, m, b)) && After(o, m, b).done == ApplyAll(o, m.evs).done)
  }

  lemma QuietMoves(s: Parser, o: Obs, m: Move, b: byte)
    requires Steady(s, o) && IsQuiet(m) && (o.phase.Content? ==> KeepsNow(m.s) == KeepsNow(s))
    ensures MovesSteadily(o, m, b)
  {
    hide Apply, ApplyAll, Feed, KeepsNow, IsQuiet, Steady;
    QuietSteady(s, o, m, b);
  }

  // ---------- The end of a header block ----------

  lemma TrailersEnd(strict: bool, s: Parser, o: Obs, b: byte, m: Move)
    requires ObsInv(s, o) && Steady(s, o) && s.state == Head(HeadersAlmostDone) && s.flags.trailing
    requires m == Move(s.(state := NewMessage(strict, s)), Continue, [Complete(s)])
    ensures MovesSteadily(o, m, b)
  {
    hide ShouldKeepAlive, Feed, NewMessage, AddData;
    ApplyOne(o, Complete(s));
    FeedSteady(m.s, Apply(o, Complete(s)), m.s.state, b);
  }

  lemma Announces(s: Parser, s': Parser, o: Obs)
    requires Open(s.kind, o.cur) && !o.phase.Trailers? && KeepsNow(s') == KeepsNow(s)
    ensures var o' := Apply(o, HeadersComplete(InfoOf(s)));
      && Steady(s', o') && o'.done == o.done
      && CompletesSteadily(o, Apply(o', Complete(s'))) && Steady(s', Apply(o', Complete(s')))
  {
    hide ShouldKeepAlive;
  }

  lemma HeadersEnd(strict: bool, skip: bool, s: Parser, o: Obs, b: byte, m: Move)
    requires ObsInv(s, o) && Steady(s, o) && s.state == Head(HeadersAlmostDone) && !s.flags.trailing
    requires m == HeadersDone(strict, skip, s, b) && !m.out.Fail?
    ensures MovesSteadily(o, m, b)
  {
    hide Feed, NewMessage, Apply, ObsInv, InfoOf, BodyFollows, Steady, CompletesSteadily, Complete, ShouldKeepAlive;
    HeadOpen(s, o);
    AnnouncedKeeps(skip, s);
    var info, s' := HeadersComplete(InfoOf(s)), HeadersAnnounced(skip, s);
    ApplyOne(o, info);
    ApplyTwo(o, info, Complete(s'));
    Announces(s, s', o);
    var o' := ApplyAll(o, m.evs);
    SameKeep(s', m.s, o');
    NoneCompleted(o);
    FeedSteady(m.s, o', m.s.state, b);
  }

  lemma HeadOpen(s: Parser, o: Obs)
    requires ObsInv(s, o) && s.state == Head(HeadersAlmostDone) && !s.flags.trailing
    ensures Open(s.kind, o.cur) && !o.phase.Trailers?
  {
  }

  lemma AnnouncedKeeps(skip: bool, s: Parser)
    ensures KeepsNow(HeadersAnnounced(skip, s)) == KeepsNow(s)
  {
  }

  lemma SameKeep(s: Parser, t: Parser, o: Obs)
    requires Steady(s, o) && t == s.(state := t.state)
    ensures Steady(t, o)
  {
  }

  lemma NoneCompleted(o: Obs)
    ensures forall o': Obs :: o'.done == o.done ==> CompletesSteadily(o, o')
  {
  }

  lemma BlockEnd(strict: bool, skip: bool, s: Parser, o: Obs, b: byte, m: Move)
    requires ObsInv(s, o) && Steady(s, o) && s.state == Head(HeadersAlmostDone)
    requires m == HeadersDone(strict, skip, s, b) && !m.out.Fail?
    ensures MovesSteadily(o, m, b)
  {
    hide ObsInv, Steady, MovesSteadily, NewMessage, Complete, HeadersAnnounced, BodyFollows, InfoOf;
    if s.flags.trailing { TrailersEnd(strict, s, o, b, m); } else { HeadersEnd(strict, skip, s, o, b, m); }
  }

  // ---------- Every byte ----------

  lemma FieldStartMoves(strict: bool, skip: bool, s: Parser, o: Obs, b: byte, m: Move)
    requires ObsInv(s, o) && Steady(s, o) && s.state == Head(HeaderFieldStart)
    requires m == FieldStart(strict, skip, s, b) && !m.out.Fail?
    ensures MovesSteadily(o, m, b)
  {
    hide HeadersDone, FirstNameState, Token, MovesSteadily, ShouldKeepAlive;
    if b == LF {
      BlockEnd(strict, skip, s.(state := Head(HeadersAlmostDone)), o, b, m);
    } else {
      QuietMoves(s, o, m, b);
    }
  }

  /** Inside a line of a block the phase is not that of a body. */
  lemma InLine(s: Parser, o: Obs)
    requires ObsInv(s, o) && s.state.Head? && s.state.head != HeaderFieldStart && s.state.head != HeadersAlmostDone
    ensures !o.phase.Content?
  {
  }

  lemma HeadMoves(strict: bool, skip: bool, s: Parser, o: Obs, b: byte, m: Move)
    requires ObsInv(s, o) && Steady(s, o) && s.state.Head?
    requires m == StepHead(strict, skip, s, s.state.head, b) && !m.out.Fail?
    ensures MovesSteadily(o, m, b)
  {
    hide FieldStart, HeadersDone, NameChar, MovesSteadily, ShouldKeepAlive, Token, ObsInv, Steady, Match, Wrap64, Lower;
    if s.state.head.HeaderFieldStart? {
      FieldStartMoves(strict, skip, s, o, b, m);
    } else if s.state.head.HeadersAlmostDone? {
      BlockEnd(strict, skip, s, o, b, m);
    } else {
      InLine(s, o);
      if s.state.head.HeaderValueLws? && b != SP && b != TAB {
        LwsObsInv(s, o);
        FieldStartMoves(strict, skip, s.(state := Head(HeaderFieldStart)), o, b, m);
      } else {
        QuietMoves(s, o, m, b);
      }
    }
  }

  lemma LwsObsInv(s: Parser, o: Obs)
    requires ObsInv(s, o) && Steady(s, o) && s.state == Head(HeaderValueLws)
    ensures ObsInv(s.(state := Head(HeaderFieldStart)), o) && Steady(s.(state := Head(HeaderFieldStart)), o)
  {
  }

  lemma IdentityMoves(strict: bool, s: Parser, o: Obs, b: byte, m: Move)
    requires ObsInv(s, o) && Steady(s, o) && s.state.BodyIdentity? && m == StepIdentity(strict, s, b)
    ensures MovesSteadily(o, m, b)
  {
    hide ShouldKeepAlive, NewMessage, Feed;
    var data := Data(Body, [b]);
    if m.evs == [] || m.evs == [data] {
      QuietMoves(s, o, m, b);
    } else {
      ApplyTwo(o, data, Complete(m.s));
      FeedSteady(m.s, Apply(Apply(o, data), Complete(m.s)), m.s.state, b);
    }
  }

  lemma ChunkMoves(strict: bool, s: Parser, o: Obs, b: byte, m: Move)
    requires Steady(s, o) && s.state.Chunk? && m == StepChunk(strict, s, s.state.chunk, b)
    ensures MovesSteadily(o, m, b)
  {
    hide Wrap64, Unhex, MovesSteadily, Steady;
    QuietMoves(s, o, m, b);
  }

  /** Before the headers there is no body. */
  lemma BeforeBody(s: Parser, o: Obs)
    requires ObsInv(s, o) && !s.state.Head? && !s.state.Chunk? && !s.state.BodyIdentity? && !s.state.BodyIdentityEof?
    ensures !o.phase.Content?
  {
  }

  lemma StepSteady(strict: bool, skip: bool, s: Parser, o: Obs, b: byte, m: Move)
    requires ObsInv(s, o) && Steady(s, o) && m == Step(strict, skip, s, b) && !m.out.Fail?
    ensures MovesSteadily(o, m, b)
  {
    hide StepHead, StepChunk, StepIdentity, MovesSteadily, MethodString, FirstMethod, Switch, StatusNext, UrlNext,
      VersionNext, DoneOk;
    var s1 := Charge(s);
    match s.state
    case Head(_) => HeadMoves(strict, skip, s1, o, b, m);
    case Chunk(_) => ChunkMoves(strict, s1, o, b, m);
    case BodyIdentity => IdentityMoves(strict, s1, o, b, m);
    case BodyIdentityEof => QuietMoves(s1, o, m, b);
    case _ =>
      BeforeBody(s, o);
      QuietMoves(s1, o, m, b);
  }

  // ---------- Every input ----------

  predicate RunSteady(r: Run) { r.status.Running? ==> Steady(r.s, r.o) }

  lemma ReadSteady(cfg: Config, r: Run, b: byte)
    requires Healthy(r) && RunSteady(r)
    ensures RunSteady(Read(cfg, r, b)) && CompletesSteadily(r.o, Read(cfg, r, b).o)
  {
    if r.status.Running? {
      hide Step, Inv, ObsInv, Legal, Feed, ApplyAll, InfoOf, Steady, CompletesSteadily;
      var skip := cfg.answer(r.o, InfoOf(r.s));
      var m := Step(cfg.strict, skip, r.s, b);
      NoneCompleted(r.o);
      if m.out.Fail? {
        FailCompletesNone(cfg.strict, skip, r.s, r.o, b, m);
      } else {
        StepSteady(cfg.strict, skip, r.s, r.o, b, m);
        SameCompletes(r.o, ApplyAll(r.o, m.evs), Read(cfg, r, b).o);
      }
    }
  }

  lemma SameCompletes(o: Obs, o': Obs, o'': Obs)
    requires CompletesSteadily(o, o') && o''.done == o'.done
    ensures CompletesSteadily(o, o'')
  {
  }

  lemma FailCompletesNone(strict: bool, skip: bool, s: Parser, o: Obs, b: byte, m: Move)
    requires m == Step(strict, skip, s, b) && m.out.Fail?
    ensures ApplyAll(o, m.evs).done == o.done
  {
    hide Step;
    StopEvents(strict, skip, s, b, m);
    ApplyOne(o, MessageBegin(m.s.kind.Response?));
  }

  /** Of the messages completed so far, all that had no chunked body say the same twice. */
  predicate AllTwice(done: seq<Message>) {
    forall i :: 0 <= i < |done| ==> SaysTwice(done[i]) || (|done[i].infos| == 1 && done[i].infos[0].chunked)
  }

  /** Trailers come behind a chunked body only. */
  lemma NextTwice(s: Parser, o: Obs, o': Obs)
    requires ObsInv(s, o) && CompletesSteadily(o, o') && AllTwice(o.done)
    ensures AllTwice(o'.done)
  {
    if o'.done != o.done {
      forall i | 0 <= i < |o'.done|
        ensures SaysTwice(o'.done[i]) || (|o'.done[i].infos| == 1 && o'.done[i].infos[0].chunked)
      {
        if i < |o.done| {
          assert o'.done[i] == o.done[i];
        } else if o.phase.Trailers? {
          TrailersAnnounced(s, o);
        }
      }
    }
  }

  lemma TrailersAnnounced(s: Parser, o: Obs)
    requires ObsInv(s, o) && o.phase.Trailers?
    ensures |o.cur.infos| == 1 && o.cur.infos[0].chunked
  {
  }

  lemma {:induction false} ReadAllSteady(cfg: Config, r: Run, bytes: seq<byte>)
    requires Healthy(r) && RunSteady(r)
    ensures RunSteady(ReadAll(cfg, r, bytes))
  {
    hide Read, Healthy, RunSteady;
    if bytes != [] {
      ReadAllSteady(cfg, r, bytes[..|bytes| - 1]);
      ReadAllKeeps(cfg, r, bytes[..|bytes| - 1]);
      ReadSteady(cfg, ReadAll(cfg, r, bytes[..|bytes| - 1]), bytes[|bytes| - 1]);
    }
  }

  /** Whatever is read, every message without a chunked body says the same twice. */
  lemma {:induction false} MessagesSayTwice(cfg: Config, r: Run, bytes: seq<byte>)
    requires Healthy(r) && RunSteady(r) && AllTwice(r.o.done)
    ensures AllTwice(ReadAll(cfg, r, bytes).o.done)
  {
    hide Read, Healthy, RunSteady, AllTwice, CompletesSteadily;
    if bytes != [] {
      var front, b := bytes[..|bytes| - 1], bytes[|bytes| - 1];
      MessagesSayTwice(cfg, r, front);
      ReadAllKeeps(cfg, r, front);
      ReadAllSteady(cfg, r, front);
      var u := ReadAll(cfg, r, front);
      if u.status.Running? {
        ReadSteady(cfg, u, b);
        HealthyObs(u);
        NextTwice(u.s, u.o, Read(cfg, u, b).o);
      } else {
        StoppedSame(cfg, u, b);
      }
    }
  }

  lemma StoppedSame(cfg: Config, r: Run, b: byte)
    requires !r.status.Running?
    ensures Read(cfg, r, b) == r
  {
  }

  /** Every input, every byte of it: a message that the byte completes before any trailer has come is told to stay open
      at its end exactly if it was told so at its announcement; so does one that the end of the connection completes. */
  lemma AnnouncedIsAnswered(cfg: Config, r: Run, bytes: seq<byte>, b: byte)
    requires Healthy(r) && RunSteady(r)
    ensures var u := ReadAll(cfg, r, bytes); var v := Read(cfg, u, b);
      && CompletesSteadily(u.o, v.o)
      && (u.status.Running? && u.s.state.BodyIdentityEof? ==> CompletesSteadily(u.o, Apply(u.o, Complete(u.s))))
  {
    hide Read, Healthy, ReadAll, CompletesSteadily, Apply;
    ReadAllKeeps(cfg, r, bytes);
    ReadAllSteady(cfg, r, bytes);
    var u := ReadAll(cfg, r, bytes);
    ReadSteady(cfg, u, b);
    if u.status.Running? && u.s.state.BodyIdentityEof? { EofSteady(u.s, u.o) by { HealthyObs(u); } }
  }

  lemma HealthyObs(r: Run)
    requires Healthy(r) && r.status.Running?
    ensures ObsInv(r.s, r.o)
  {
  }

  lemma EofSteady(s: Parser, o: Obs)
    requires ObsInv(s, o) && Steady(s, o) && s.state.BodyIdentityEof?
    ensures CompletesSteadily(o, Apply(o, Complete(s)))
  {
    hide ShouldKeepAlive;
  }
}
