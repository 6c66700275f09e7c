/** What `connect` callers can read of a run: its first result is written once and agrees with its final status. */
module WorkerFace {
  import opened Types
  import opened Worker

  /** The error a run ends with, from the position where it is about to be published. */
  function Published(pc: Pc): Option<Error> {
    match pc
    case Failing(e) => Some(e)
    case Shutting(e) => Some(e)
    case Draining(RunOver(e), _) => Some(e)
    case _ => None
  }

  predicate FirstOpen(pc: Pc) {
    pc.Opened? || pc.Counted? || pc.Live? || pc.Announced?
  }

  /** The first result is missing only before it was due, and is then never a Ready status. */
  ghost predicate FirstOk(r: Run) {
    match r.face.first
    case None =>
      && !Published(r.pc).Some? && !r.pc.Finished?
      && (FirstOpen(r.pc) || !r.established)
      && (r.pc.Announced? || r.face.status.Connecting?)
      && !r.pc.Session? && !r.pc.Greeted?
    case Some(Ok(_)) => r.established
    case Some(Err(e)) =>
      && !r.established
      && (Published(r.pc) == Some(e) || r.pc.Finished?)
      && (r.face.status == Failed(e) || (r.pc.Failing? && r.face.status.Connecting?))
  }

  ghost predicate StatusOk(r: Run) {
    && (r.face.status.Failed? <==> r.pc.Finished? || r.pc.Shutting? || (r.pc.Draining? && r.pc.why.RunOver?))
    && (r.pc.Shutting? || (r.pc.Draining? && r.pc.why.RunOver?) ==> r.face.status == Failed(Published(r.pc).value))
    && (r.established ==> !r.pc.Spawned?)
    && (r.pc.Judging? || r.pc.Pausing? || r.pc.Asleep? || r.pc.Session? || r.pc.Greeted? || FirstOpen(r.pc) ==> r.established)
    && (r.pc.Lowering? || r.pc.Clearing? || r.pc.Reporting? || r.pc.Complaining? ==> r.established)
    && (r.pc.Leaving? && r.pc.exit.Lost? ==> r.established)
    && (r.pc.Draining? && r.pc.why.SessionOver? ==> r.established)
    && (FirstOpen(r.pc) ==> r.face.first.None? || r.face.first.value.Ok?)
  }

  ghost predicate FaceOk(r: Run) {
    FirstOk(r) && StatusOk(r)
  }

  /** Channels are written, never rewritten: the first result once, the status under a new version. */
  ghost predicate FaceStep(r: Run, s: Run) {
    && (r.face.first.Some? ==> s.face.first == r.face.first)
    && r.face.version <= s.face.version
    && (r.face.version == s.face.version ==> r.face.status == s.face.status)
  }

  lemma RiseKeepsFace(o: Options, r: Run, env: Env, a: Life)
    requires FaceOk(r) && LifeEnabled(o, r, env, a) && Rising(a)
    ensures FaceOk(LifeNext(o, r, env, a)) && FaceStep(r, LifeNext(o, r, env, a))
  {
  }

  lemma CancelKeepsFace(o: Options, r: Run, env: Env, a: Life)
    requires FaceOk(r) && LifeEnabled(o, r, env, a) && Cancelling(a)
    ensures FaceOk(LifeNext(o, r, env, a)) && FaceStep(r, LifeNext(o, r, env, a))
  {
  }

  lemma EndKeepsFace(o: Options, r: Run, env: Env, a: Life)
    requires FaceOk(r) && LifeEnabled(o, r, env, a) && Stopping(a) && !Cancelling(a)
    ensures FaceOk(LifeNext(o, r, env, a)) && FaceStep(r, LifeNext(o, r, env, a))
  {
  }

  lemma StopKeepsFace(o: Options, r: Run, env: Env, a: Life)
    requires FaceOk(r) && LifeEnabled(o, r, env, a) && Stopping(a)
    ensures FaceOk(LifeNext(o, r, env, a)) && FaceStep(r, LifeNext(o, r, env, a))
  {
    hide LifeEnabled, LifeNext, FaceOk, FaceStep, Stopping, Cancelling;
    if Cancelling(a) {
      CancelKeepsFace(o, r, env, a);
    } else {
      EndKeepsFace(o, r, env, a);
    }
  }

  lemma FallKeepsFace(o: Options, r: Run, env: Env, a: Life)
    requires FaceOk(r) && LifeEnabled(o, r, env, a) && !Rising(a) && !Stopping(a)
    ensures FaceOk(LifeNext(o, r, env, a)) && FaceStep(r, LifeNext(o, r, env, a))
  {
  }

  lemma SessKeepsFace(o: Options, r: Run, env: Env, a: Sess)
    requires FaceOk(r) && SessEnabled(o, r, env, a)
    ensures FaceOk(SessNext(o, r, env, a)) && FaceStep(r, SessNext(o, r, env, a))
  {
  }

  lemma TalkKeepsFace(o: Options, r: Run, env: Env, a: Talk)
    requires FaceOk(r) && TalkEnabled(o, r, env, a)
    ensures FaceOk(TalkNext(o, r, env, a)) && FaceStep(r, TalkNext(o, r, env, a))
  {
  }

  lemma StepKeepsFace(o: Options, r: Run, env: Env, a: Act)
    requires FaceOk(r) && Enabled(o, r, env, a)
    ensures FaceOk(Next(o, r, env, a)) && FaceStep(r, Next(o, r, env, a))
  {
    match a
    case OfLife(l) =>
      if Rising(l) {
        RiseKeepsFace(o, r, env, l);
      } else if Stopping(l) {
        StopKeepsFace(o, r, env, l);
      } else {
        FallKeepsFace(o, r, env, l);
      }
    case OfSess(s) => SessKeepsFace(o, r, env, s);
    case OfTalk(t) => TalkKeepsFace(o, r, env, t);
  }
}
