/** The method automaton accepts exactly the method names. */
module HttpMethods {
  import opened Bytes
  import opened HttpChars
  import opened HttpTypes
  import opened HttpStep
  import opened HttpBody

  /** A method that takes over agrees with the old one on everything read, and with the new byte. */
  lemma SwitchSound(m: Method, i: nat, b: byte)
    requires i <= |MethodString(m)| && Switch(m, i, b) != []
    ensures var w, v := MethodString(m), MethodString(Switch(m, i, b)[0]); i < |v| && v[i] == b && v[..i] == w[..i]
  {
    var v := MethodString(Switch(m, i, b)[0]);
    assert v[..i] == MethodString(m)[..i];
  }

  /** The candidate after the first `i` bytes of the name of `m`. */
  function Candidate(m: Method, i: nat): Method {
    match m
    case CHECKOUT => if i <= 1 then CONNECT else m
    case COPY => if i <= 2 then CONNECT else m
    case MOVE => if i <= 1 then MKCOL else m
    case MERGE => if i <= 1 then MKCOL else m
    case MSEARCH => if i <= 1 then MKCOL else m
    case MKACTIVITY => if i <= 2 then MKCOL else m
    case PUT => if i <= 1 then POST else m
    case PATCH => if i <= 1 then POST else m
    case PROPFIND => if i <= 1 then POST else m
    case PROPPATCH => if i <= 1 then POST else if i <= 4 then PROPFIND else m
    case UNSUBSCRIBE => if i <= 2 then UNLOCK else m
    case _ => m
  }

  /** The next byte of the name of `m` leads from its candidate to its next candidate. */
  lemma CandidateStep(m: Method, i: nat)
    requires 1 <= i < |MethodString(m)|
    ensures var c, w, b := Candidate(m, i), MethodString(Candidate(m, i)), MethodString(m)[i];
      && b != 0 && b != SP && i <= |w|
      && (if i < |w| && b == w[i] then Candidate(m, i + 1) == c else Switch(c, i, b) == [Candidate(m, i + 1)])
  {
  }

  lemma FirstByte(m: Method)
    ensures FirstMethod(MethodString(m)[0]) == [Candidate(m, 1)]
    ensures IsAlpha(MethodString(m)[0]) && MethodString(m)[0] != CR && MethodString(m)[0] != LF
    ensures Candidate(m, |MethodString(m)|) == m
  {
  }

  lemma MethodBytes(m: Method)
    ensures |MethodString(m)| >= 3 && SP !in MethodString(m)
  {
  }

  lemma FirstSound(b: byte)
    requires FirstMethod(b) != []
    ensures MethodString(FirstMethod(b)[0])[0] == b
  {
  }

  /** What reading a byte inside the method does to the parser. */
  lemma ReadAtMethod(cfg: Config, r: Run, b: byte)
    requires r.status.Running? && r.s.state.ReqMethod?
    ensures var t := Read(cfg, r, b); var m := StepMethod(Charge(r.s), b);
      && (t.status.Running? ==> m.out.Continue?)
      && (r.s.nread + 1 <= HTTP_MAX_HEADER_SIZE ==> (t.status.Running? <==> m.out.Continue?))
      && (t.status.Running? ==> t.s == m.s)
  {
    hide Feed, ApplyAll, MethodString, Switch, StepMethod;
    MethodOutcomes(Charge(r.s), b);
  }

  lemma MethodOutcomes(s: Parser, b: byte)
    ensures !StepMethod(s, b).out.Upgraded?
  {
    hide MethodString, Switch;
  }

  lemma ReadAtStart(cfg: Config, r: Run, b: byte)
    requires r.status.Running? && r.s.state.StartReq? && b != CR && b != LF
    ensures var t := Read(cfg, r, b);
      && (t.status.Running? ==>
            FirstMethod(b) != [] && t.s.state.ReqMethod? && t.s.verb == FirstMethod(b)[0] && t.s.index == 1
            && t.s.nread == r.s.nread + 1)
      && (FirstMethod(b) != [] && IsAlpha(b) && r.s.nread + 1 <= HTTP_MAX_HEADER_SIZE ==> t.status.Running?)
  {
    hide Feed, ApplyAll, MethodString, FirstMethod;
  }

  /** The consumed bytes are the first `index` characters of the current candidate. */
  predicate Consumed(r: Run, w: seq<byte>) {
    r.status.Running? && r.s.state.ReqMethod? ==>
      r.s.index == |w| <= |MethodString(r.s.verb)| && MethodString(r.s.verb)[..|w|] == w
  }

  predicate AtMethod(r: Run) { r.status.Running? ==> r.s.state.ReqMethod? }

  lemma {:induction false} ConsumedPrefix(cfg: Config, r: Run, w: seq<byte>)
    requires r.status.Running? && r.s.state.StartReq?
    requires w != [] && w[0] != CR && w[0] != LF && SP !in w
    ensures var t := ReadAll(cfg, r, w); Consumed(t, w) && AtMethod(t)
  {
    hide MethodString, FirstMethod, Switch, Read;
    var n := |w| - 1;
    var b := w[n];
    if n == 0 {
      assert w == [b];
      ReadOne(cfg, r, b);
      ReadAtStart(cfg, r, b);
      if FirstMethod(b) != [] { FirstSound(b); MethodBytes(FirstMethod(b)[0]); }
    } else {
      var t := ReadAll(cfg, r, w[..n]);
      ConsumedPrefix(cfg, r, w[..n]);
      if t.status.Running? {
        ReadAtMethod(cfg, t, b);
        if Switch(t.s.verb, t.s.index, b) != [] { SwitchSound(t.s.verb, t.s.index, b); }
        assert w == w[..n] + [b];
      } else {
        ReadStopped(cfg, t, b);
      }
    }
  }

  lemma {:induction false} ReadsName(cfg: Config, r: Run, m: Method, i: nat)
    requires r.status.Running? && r.s.state.StartReq?
    requires 1 <= i <= |MethodString(m)| && r.s.nread + i <= HTTP_MAX_HEADER_SIZE
    ensures var t := ReadAll(cfg, r, MethodString(m)[..i]);
      t.status.Running? && t.s.state.ReqMethod? && t.s.verb == Candidate(m, i) && t.s.index == i
          && t.s.nread == r.s.nread + i
  {
    hide MethodString, FirstMethod, Switch, Candidate, Read;
    var w := MethodString(m);
    FirstByte(m);
    if i == 1 {
      assert w[..1] == [w[0]];
      ReadOne(cfg, r, w[0]);
      ReadAtStart(cfg, r, w[0]);
    } else {
      ReadsName(cfg, r, m, i - 1);
      assert w[..i][..i - 1] == w[..i - 1];
      CandidateStep(m, i - 1);
      ReadAtMethod(cfg, ReadAll(cfg, r, w[..i - 1]), w[i - 1]);
    }
  }

  /** From the start of a request, a word and a space reach the URL exactly when the word is a method
      name, and then the parser holds that method. */
  lemma MethodExact(cfg: Config, r: Run, w: seq<byte>)
    requires r.status.Running? && r.s.state.StartReq?
    requires w != [] && w[0] != CR && w[0] != LF && SP !in w
    requires r.s.nread + |w| + 1 <= HTTP_MAX_HEADER_SIZE
    ensures var t := ReadAll(cfg, r, w + [SP]);
      && (t.status.Running? && t.s.state == ReqUrl(ReqSpacesBeforeUrl) <==> exists m :: w == MethodString(m))
      && (t.status.Running? && t.s.state == ReqUrl(ReqSpacesBeforeUrl) ==> w == MethodString(t.s.verb))
  {
    hide MethodString, FirstMethod, Switch, Candidate, Read;
    var u := ReadAll(cfg, r, w);
    assert (w + [SP])[..|w|] == w;
    assert ReadAll(cfg, r, w + [SP]) == Read(cfg, u, SP);
    ConsumedPrefix(cfg, r, w);
    if u.status.Running? {
      ReadAtMethod(cfg, u, SP);
      MethodBytes(u.s.verb);
      SpaceNeverSwitches(u.s.verb, u.s.index);
      if u.s.index == |MethodString(u.s.verb)| { assert w == MethodString(u.s.verb); }
    } else {
      ReadStopped(cfg, u, SP);
    }
    if m: Method :| w == MethodString(m) {
      ReadsName(cfg, r, m, |w|);
      assert MethodString(m)[..|w|] == w;
      FirstByte(m);
    }
  }

  lemma SpaceNeverSwitches(m: Method, i: nat)
    ensures Switch(m, i, SP) == []
  {
  }

  /** Different methods have different names: the name determines what the parser holds. */
  lemma NamesDiffer(m: Method, n: Method)
    requires MethodString(m) == MethodString(n)
    ensures m == n
  {
    if |MethodString(m)| == |MethodString(n)| {
      assert MethodString(m)[0] == MethodString(n)[0];
      assert MethodString(m)[1] == MethodString(n)[1];
      assert MethodString(m)[2] == MethodString(n)[2];
      if |MethodString(m)| >= 5 {
        assert MethodString(m)[4] == MethodString(n)[4];
      }
    }
  }
}
