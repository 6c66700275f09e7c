/** What `connect` callers can read is what was authenticated: the first result is the first Connect, Ready the latest. */
module WorkerConnects {
  import opened Types
  import opened Events
  import opened Worker

  /** The results of a run's Connect events. */
  function Connects(log: seq<Logged>): seq<ConnectResult> {
    if log == [] then []
    else
      var e, before := log[|log| - 1].event, Connects(log[..|log| - 1]);
      if e.Connect? then before + [e.result] else before
  }

  /** An authentication that is published but not yet reported. */
  function Unreported(pc: Pc): Option<ConnectResult> {
    match pc
    case Announced(result) => Some(result)
    case Greeted(result) => Some(result)
    case _ => None
  }

  /** `x` is the result of the latest authentication. */
  ghost predicate Latest(r: Run, x: ConnectResult) {
    if Unreported(r.pc).Some? then Unreported(r.pc).value == x
    else Connects(r.past.log) != [] && Connects(r.past.log)[|Connects(r.past.log)| - 1] == x
  }

  /** `x` is the result of the first one. */
  ghost predicate Original(r: Run, x: ConnectResult) {
    if Connects(r.past.log) == [] then Unreported(r.pc) == Some(x) else Connects(r.past.log)[0] == x
  }

  ghost predicate ConnectsOk(r: Run) {
    && (r.face.status.Ready? ==> Latest(r, r.face.status.result))
    && (match r.face.first
        case None => Connects(r.past.log) == [] && !r.pc.Greeted?
        case Some(Ok(x)) => Original(r, x)
        case Some(Err(_)) => Connects(r.past.log) == [] && !r.pc.Announced? && !r.pc.Greeted?)
    && (r.face.first.Some? && r.face.first.value.Err? ==> WoundUp(r.pc))
    && (r.face.first.Some? && r.pc.Announced? ==> Connects(r.past.log) != [])
    && (r.pc.Opened? || r.pc.Counted? || r.pc.Live? || r.pc.Dialing? ==> !r.face.status.Ready?)
    && (r.pc.Spawned? || r.pc.Asleep? || r.pc.DialFailed? || r.pc.Judging? || r.pc.Pausing? || r.pc.Reporting? || r.pc.Complaining? ==>
          !r.face.status.Ready?)
    && (r.pc.Draining? && r.pc.why.SessionOver? ==> !r.face.status.Ready?)
  }

  /** Positions after the first result was settled with the run's error. */
  predicate WoundUp(pc: Pc) {
    pc.Failing? || pc.Shutting? || pc.Finished? || (pc.Draining? && pc.why.RunOver?)
  }

  lemma ConnectsAppend(log: seq<Logged>, x: Logged)
    ensures Connects(log + [x]) == if x.event.Connect? then Connects(log) + [x.event.result] else Connects(log)
  {
    assert (log + [x])[..|log|] == log;
  }

  /** Steps that report no Connect keep the list. */
  lemma SameConnects(p: seq<Logged>, q: seq<Logged>)
    requires q == p || (|q| == |p| + 1 && p <= q && !q[|p|].event.Connect?)
    ensures Connects(q) == Connects(p)
  {
    if q != p {
      assert q == p + [q[|p|]];
      ConnectsAppend(p, q[|p|]);
    }
  }

  lemma EnterConnects(o: Options, r: Run, env: Env)
    requires ConnectsOk(r) && LifeEnabled(o, r, env, Enter)
    ensures ConnectsOk(LifeNext(o, r, env, Enter))
  {
    ConnectsAppend(r.past.log, Logged(r.socket, Connect(r.pc.result)));
  }

  lemma TellConnects(o: Options, r: Run, env: Env, a: Life)
    requires ConnectsOk(r) && LifeEnabled(o, r, env, a) && (a.TellStatus? || a.TellFirst?)
    ensures ConnectsOk(LifeNext(o, r, env, a))
  {
    hide Connects;
  }

  /** Positions of a run that is not ready and whose results are all reported. */
  predicate NotReady(pc: Pc) {
    pc.Spawned? || pc.Asleep? || pc.Dialing? || pc.DialFailed? || pc.Opened? || pc.Counted? || pc.Live? || pc.Judging? || pc.Pausing?
  }

  lemma RiseIsQuiet(o: Options, r: Run, env: Env, a: Life)
    requires LifeEnabled(o, r, env, a) && Rising(a) && !a.Enter? && !a.TellStatus? && !a.TellFirst?
    ensures var s := LifeNext(o, r, env, a);
            && s.face == r.face && NotReady(r.pc) && (NotReady(s.pc) || s.pc.Ending?)
            && (s.past.log == r.past.log
                || (|s.past.log| == |r.past.log| + 1 && r.past.log <= s.past.log && !s.past.log[|r.past.log|].event.Connect?))
  {
  }

  lemma RiseConnects(o: Options, r: Run, env: Env, a: Life)
    requires ConnectsOk(r) && LifeEnabled(o, r, env, a) && Rising(a) && !a.Enter?
    ensures ConnectsOk(LifeNext(o, r, env, a))
  {
    hide Connects, LifeNext, LifeEnabled;
    if a.TellStatus? || a.TellFirst? {
      TellConnects(o, r, env, a);
    } else {
      RiseIsQuiet(o, r, env, a);
      SameConnects(r.past.log, LifeNext(o, r, env, a).past.log);
    }
  }

  lemma CancelIsQuiet(o: Options, r: Run, env: Env, a: Life)
    requires LifeEnabled(o, r, env, a) && Cancelling(a)
    ensures var s := LifeNext(o, r, env, a);
            && s.face == r.face && (s.pc.Leaving? || s.pc.Signing? || s.pc.Ending?)
            && !WoundUp(r.pc) && !r.pc.Announced? && !r.pc.Greeted?
            && (s.past.log == r.past.log
                || (|s.past.log| == |r.past.log| + 1 && r.past.log <= s.past.log && !s.past.log[|r.past.log|].event.Connect?))
  {
  }

  lemma CancelConnects(o: Options, r: Run, env: Env, a: Life)
    requires ConnectsOk(r) && LifeEnabled(o, r, env, a) && Cancelling(a)
    ensures ConnectsOk(LifeNext(o, r, env, a))
  {
    hide Connects, LifeNext, LifeEnabled;
    CancelIsQuiet(o, r, env, a);
    SameConnects(r.past.log, LifeNext(o, r, env, a).past.log);
  }

  lemma EndConnects(o: Options, r: Run, env: Env, a: Life)
    requires ConnectsOk(r) && LifeEnabled(o, r, env, a) && Stopping(a) && !Cancelling(a)
    ensures ConnectsOk(LifeNext(o, r, env, a))
  {
    hide Connects;
  }

  lemma StopConnects(o: Options, r: Run, env: Env, a: Life)
    requires ConnectsOk(r) && LifeEnabled(o, r, env, a) && Stopping(a)
    ensures ConnectsOk(LifeNext(o, r, env, a))
  {
    hide ConnectsOk, LifeNext, LifeEnabled, Stopping, Cancelling;
    if Cancelling(a) {
      CancelConnects(o, r, env, a);
    } else {
      EndConnects(o, r, env, a);
    }
  }

  lemma FallConnects(o: Options, r: Run, env: Env, a: Life)
    requires ConnectsOk(r) && LifeEnabled(o, r, env, a) && !Rising(a) && !Stopping(a)
    ensures ConnectsOk(LifeNext(o, r, env, a))
  {
    SameConnects(r.past.log, LifeNext(o, r, env, a).past.log);
    hide Connects;
  }

  /** Steps of a session publish nothing. */
  ghost predicate Unpublished(r: Run, s: Run) {
    && r.pc.Session? && (s.pc.Session? || s.pc.Leaving?) && s.face == r.face
    && (s.past.log == r.past.log
        || (|s.past.log| == |r.past.log| + 1 && r.past.log <= s.past.log && !s.past.log[|r.past.log|].event.Connect?))
  }

  lemma UnpublishedKeeps(r: Run, s: Run)
    requires ConnectsOk(r) && Unpublished(r, s)
    ensures ConnectsOk(s)
  {
    SameConnects(r.past.log, s.past.log);
    hide Connects;
  }

  lemma SessUnpublished(o: Options, r: Run, env: Env, a: Sess)
    requires SessEnabled(o, r, env, a)
    ensures Unpublished(r, SessNext(o, r, env, a))
  {
  }

  lemma TalkUnpublished(o: Options, r: Run, env: Env, a: Talk)
    requires TalkEnabled(o, r, env, a)
    ensures Unpublished(r, TalkNext(o, r, env, a))
  {
  }

  lemma StepKeepsConnects(o: Options, r: Run, env: Env, a: Act)
    requires ConnectsOk(r) && Enabled(o, r, env, a)
    ensures ConnectsOk(Next(o, r, env, a))
  {
    hide ConnectsOk, LifeNext, LifeEnabled, SessNext, SessEnabled, TalkNext, TalkEnabled, Rising, Stopping, Unpublished;
    match a
    case OfLife(l) =>
      if l.Enter? {
        EnterConnects(o, r, env);
      } else if Rising(l) {
        RiseConnects(o, r, env, l);
      } else if Stopping(l) {
        StopConnects(o, r, env, l);
      } else {
        FallConnects(o, r, env, l);
      }
    case OfSess(s) =>
      SessUnpublished(o, r, env, s);
      UnpublishedKeeps(r, Next(o, r, env, a));
    case OfTalk(t) =>
      TalkUnpublished(o, r, env, t);
      UnpublishedKeeps(r, Next(o, r, env, a));
  }
}
