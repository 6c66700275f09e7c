/** Timeouts are never early: a request settled for its deadline had passed it, and no run ends with a borrowed timeout. */
module WorkerDeadlines {
  import opened Types
  import opened Worker
  import opened WorkerPlaces

  ghost predicate Dated(popped: seq<Command>, id: Id, deadline: nat) {
    exists i :: 0 <= i < |popped| && popped[i].id == id && popped[i].deadline == deadline
  }

  /** The deadline of request `id` has passed. */
  ghost predicate Due(popped: seq<Command>, id: Id, now: nat) {
    exists i :: 0 <= i < |popped| && popped[i].id == id && popped[i].deadline <= now
  }

  /** Pending entries carry their own command's deadline. */
  ghost predicate PendingDated(r: Run) {
    forall id :: id in r.box.pending ==> Dated(r.box.popped, id, r.box.pending[id])
  }

  predicate ForDeadline(f: Fate) {
    f.Expired? || f.Late?
  }

  ghost predicate SettledDue(r: Run, now: nat) {
    forall k :: 0 <= k < |r.box.settled| && ForDeadline(r.box.settled[k].fate) ==> Due(r.box.popped, r.box.settled[k].id, now)
  }

  /** The sweep expires only what it found expired. */
  ghost predicate SweepDue(r: Run, now: nat) {
    r.pc.Session? && (r.pc.spot.Expiring? || r.pc.spot.Retaining?) ==>
      && r.pc.spot.now <= now
      && (r.pc.spot.Expiring? ==> forall id :: id in r.pc.spot.todo ==> id in r.box.pending && r.box.pending[id] <= r.pc.spot.now)
  }

  /** The error a run ends with. */
  function EndOf(pc: Pc): Option<Error> {
    match pc
    case Ending(e) => Some(e)
    case Settling(e) => Some(e)
    case Failing(e) => Some(e)
    case Shutting(e) => Some(e)
    case Draining(RunOver(e), _) => Some(e)
    case _ => None
  }

  /** Once a session was established the run cannot end with Timeout. */
  ghost predicate EndsOk(r: Run) {
    && (r.established ==> EndOf(r.pc) != Some(Timeout))
    && (r.established ==> forall k :: 0 <= k < |r.box.settled| ==> r.box.settled[k].fate != RunEnded(Timeout))
    && (forall k :: 0 <= k < |r.box.settled| && r.box.settled[k].fate.RunEnded? ==>
          r.pc.Finished? || (r.pc.Draining? && r.pc.why.RunOver?))
    && (r.pc.Draining? && r.pc.why.SessionOver? ==> r.established)
    && (EndOf(r.pc).Some? || r.pc.Finished? || MayDial(r) || r.established)
  }

  /** No answer says Timeout: the peer's errors are Server and Protocol. */
  ghost predicate AnswersTimely(r: Run) {
    && (forall k :: 0 <= k < |r.past.heard| && r.past.heard[k].HeardReply? ==> r.past.heard[k].result != Err(Timeout))
    && (forall k :: 0 <= k < |r.box.settled| && r.box.settled[k].fate.Answered? ==> r.box.settled[k].fate.result != Err(Timeout))
  }

  /** A run that has not been established is on its way to its first dial, or being wound up. */
  predicate MayDial(r: Run) {
    r.pc.Spawned? || r.pc.Dialing? || r.pc.DialFailed? || (r.pc.Leaving? && r.pc.exit.Cancelled?) || r.pc.Aborting? || r.pc.Signing?
  }

  ghost predicate DeadlinesOk(r: Run, now: nat) {
    PendingDated(r) && SettledDue(r, now) && SweepDue(r, now) && EndsOk(r) && AnswersTimely(r)
  }

  // ---- What a step does, box by box ----

  lemma DatedGrows(p: seq<Command>, c: Command)
    ensures forall id, d {:trigger Dated(p, id, d)} :: Dated(p, id, d) ==> Dated(p + [c], id, d)
    ensures forall id, t {:trigger Due(p, id, t)} :: Due(p, id, t) ==> Due(p + [c], id, t)
  {
    forall id, d | Dated(p, id, d) ensures Dated(p + [c], id, d) {
      var i :| 0 <= i < |p| && p[i].id == id && p[i].deadline == d;
      assert (p + [c])[i] == p[i];
    }
    forall id, t | Due(p, id, t) ensures Due(p + [c], id, t) {
      var i :| 0 <= i < |p| && p[i].id == id && p[i].deadline <= t;
      assert (p + [c])[i] == p[i];
    }
  }

  /** Outside the session loop entries only leave, and nothing is settled for its deadline or with an answer. */
  ghost predicate WindsDown(r: Run, s: Run) {
    && s.past.heard == r.past.heard
    && (forall id :: id in s.box.pending ==> id in r.box.pending && s.box.pending[id] == r.box.pending[id])
    && (s.box.popped == r.box.popped || (r.box.queue != [] && s.box.popped == r.box.popped + [r.box.queue[0]]))
    && (s.box.settled == r.box.settled
        || (|s.box.settled| == |r.box.settled| + 1 && r.box.settled <= s.box.settled
            && !ForDeadline(s.box.settled[|r.box.settled|].fate) && !s.box.settled[|r.box.settled|].fate.Answered?))
  }

  lemma RiseWindsDown(o: Options, r: Run, env: Env, a: Life)
    requires LifeEnabled(o, r, env, a) && Rising(a)
    ensures WindsDown(r, LifeNext(o, r, env, a))
  {
  }

  lemma StopWindsDown(o: Options, r: Run, env: Env, a: Life)
    requires LifeEnabled(o, r, env, a) && Stopping(a)
    ensures WindsDown(r, LifeNext(o, r, env, a))
  {
  }

  lemma FallWindsDown(o: Options, r: Run, env: Env, a: Life)
    requires LifeEnabled(o, r, env, a) && !Rising(a) && !Stopping(a)
    ensures WindsDown(r, LifeNext(o, r, env, a))
  {
  }

  lemma LifeWindsDown(o: Options, r: Run, env: Env, a: Life)
    requires LifeEnabled(o, r, env, a)
    ensures WindsDown(r, LifeNext(o, r, env, a))
  {
    hide LifeNext, LifeEnabled, WindsDown, Rising, Stopping;
    if Rising(a) {
      RiseWindsDown(o, r, env, a);
    } else if Stopping(a) {
      StopWindsDown(o, r, env, a);
    } else {
      FallWindsDown(o, r, env, a);
    }
  }

  lemma LifeKeepsDated(o: Options, r: Run, env: Env, a: Life)
    requires PendingDated(r) && SettledDue(r, env.now) && LifeEnabled(o, r, env, a)
    ensures PendingDated(LifeNext(o, r, env, a)) && SettledDue(LifeNext(o, r, env, a), env.now)
  {
    hide LifeNext, LifeEnabled;
    LifeWindsDown(o, r, env, a);
    if r.box.queue != [] {
      DatedGrows(r.box.popped, r.box.queue[0]);
    }
  }

  lemma SessKeepsDated(o: Options, r: Run, env: Env, a: Sess)
    requires ShapeOk(r) && PendingDated(r) && SettledDue(r, env.now) && SweepDue(r, env.now) && SessEnabled(o, r, env, a)
    ensures PendingDated(SessNext(o, r, env, a)) && SettledDue(SessNext(o, r, env, a), env.now)
  {
    if a.Take? {
      DatedGrows(r.box.popped, r.box.queue[0]);
    } else if a.CheckDeadline? {
      assert r.box.popped[|r.box.popped| - 1] == r.pc.spot.cmd;
    } else if a.ExpireOne? {
      DatedDue(r.box.popped, a.id, r.box.pending[a.id], env.now);
    }
  }

  lemma DatedDue(popped: seq<Command>, id: Id, deadline: nat, now: nat)
    requires Dated(popped, id, deadline) && deadline <= now
    ensures Due(popped, id, now)
  {
  }

  lemma TalkKeepsDated(o: Options, r: Run, env: Env, a: Talk)
    requires PendingDated(r) && SettledDue(r, env.now) && TalkEnabled(o, r, env, a)
    ensures PendingDated(TalkNext(o, r, env, a)) && SettledDue(TalkNext(o, r, env, a), env.now)
  {
  }

  lemma SessKeepsSweepDue(o: Options, r: Run, env: Env, a: Sess)
    requires SweepDue(r, env.now) && SessEnabled(o, r, env, a)
    ensures SweepDue(SessNext(o, r, env, a), env.now)
  {
  }

  lemma LifeKeepsEnds(o: Options, r: Run, env: Env, a: Life)
    requires EndsOk(r) && LifeEnabled(o, r, env, a)
    ensures EndsOk(LifeNext(o, r, env, a))
  {
    hide LifeNext, LifeEnabled, EndsOk, Rising, Stopping;
    if Rising(a) {
      RiseKeepsEnds(o, r, env, a);
    } else if Stopping(a) {
      StopKeepsEnds(o, r, env, a);
    } else {
      FallKeepsEnds(o, r, env, a);
    }
  }

  predicate DialStep(a: Life) {
    a.Start? || a.Wake? || a.DialOk? || a.DialErr? || a.GiveUpDial?
  }

  lemma DialKeepsEnds(o: Options, r: Run, env: Env, a: Life)
    requires EndsOk(r) && LifeEnabled(o, r, env, a) && DialStep(a)
    ensures EndsOk(LifeNext(o, r, env, a))
  {
  }

  lemma GreetKeepsEnds(o: Options, r: Run, env: Env, a: Life)
    requires EndsOk(r) && LifeEnabled(o, r, env, a) && Rising(a) && !DialStep(a)
    ensures EndsOk(LifeNext(o, r, env, a))
  {
  }

  lemma RiseKeepsEnds(o: Options, r: Run, env: Env, a: Life)
    requires EndsOk(r) && LifeEnabled(o, r, env, a) && Rising(a)
    ensures EndsOk(LifeNext(o, r, env, a))
  {
    hide LifeNext, LifeEnabled, EndsOk, Rising, DialStep;
    if DialStep(a) {
      DialKeepsEnds(o, r, env, a);
    } else {
      GreetKeepsEnds(o, r, env, a);
    }
  }

  lemma StopKeepsEnds(o: Options, r: Run, env: Env, a: Life)
    requires EndsOk(r) && LifeEnabled(o, r, env, a) && Stopping(a)
    ensures EndsOk(LifeNext(o, r, env, a))
  {
    hide LifeNext, LifeEnabled, EndsOk, Stopping, Cancelling;
    if Cancelling(a) {
      CancelKeepsEnds(o, r, env, a);
    } else {
      EndKeepsEnds(o, r, env, a);
    }
  }

  lemma CancelKeepsEnds(o: Options, r: Run, env: Env, a: Life)
    requires EndsOk(r) && LifeEnabled(o, r, env, a) && Cancelling(a)
    ensures EndsOk(LifeNext(o, r, env, a))
  {
  }

  lemma EndKeepsEnds(o: Options, r: Run, env: Env, a: Life)
    requires EndsOk(r) && LifeEnabled(o, r, env, a) && Stopping(a) && !Cancelling(a)
    ensures EndsOk(LifeNext(o, r, env, a))
  {
  }

  lemma FallKeepsEnds(o: Options, r: Run, env: Env, a: Life)
    requires EndsOk(r) && LifeEnabled(o, r, env, a) && !Rising(a) && !Stopping(a)
    ensures EndsOk(LifeNext(o, r, env, a))
  {
  }

  lemma SessKeepsEnds(o: Options, r: Run, env: Env, a: Sess)
    requires EndsOk(r) && SessEnabled(o, r, env, a)
    ensures EndsOk(SessNext(o, r, env, a))
  {
  }

  lemma TalkKeepsEnds(o: Options, r: Run, env: Env, a: Talk)
    requires EndsOk(r) && TalkEnabled(o, r, env, a)
    ensures EndsOk(TalkNext(o, r, env, a))
  {
  }

  lemma LifeKeepsTimely(o: Options, r: Run, env: Env, a: Life)
    requires AnswersTimely(r) && LifeEnabled(o, r, env, a)
    ensures AnswersTimely(LifeNext(o, r, env, a))
  {
    hide LifeNext, LifeEnabled;
    LifeWindsDown(o, r, env, a);
  }

  lemma SessKeepsTimely(o: Options, r: Run, env: Env, a: Sess)
    requires AnswersTimely(r) && SessEnabled(o, r, env, a)
    ensures AnswersTimely(SessNext(o, r, env, a))
  {
  }

  lemma TalkKeepsTimely(o: Options, r: Run, env: Env, a: Talk)
    requires AnswersTimely(r) && TalkEnabled(o, r, env, a)
    ensures AnswersTimely(TalkNext(o, r, env, a))
  {
  }

  lemma StepKeepsDeadlines(o: Options, r: Run, env: Env, a: Act)
    requires ShapeOk(r) && DeadlinesOk(r, env.now) && Enabled(o, r, env, a)
    ensures DeadlinesOk(Next(o, r, env, a), env.now)
  {
    hide PendingDated, SettledDue, EndsOk, AnswersTimely, LifeNext, LifeEnabled, SessNext, SessEnabled, TalkNext, TalkEnabled;
    match a
    case OfLife(l) =>
      LifeKeepsDated(o, r, env, l);
      LifeKeepsEnds(o, r, env, l);
      LifeKeepsTimely(o, r, env, l);
      LifeSweepDue(o, r, env, l);
    case OfSess(s) =>
      SessKeepsDated(o, r, env, s);
      SessKeepsEnds(o, r, env, s);
      SessKeepsTimely(o, r, env, s);
      SessKeepsSweepDue(o, r, env, s);
    case OfTalk(t) =>
      TalkKeepsDated(o, r, env, t);
      TalkKeepsEnds(o, r, env, t);
      TalkKeepsTimely(o, r, env, t);
      TalkSweepDue(o, r, env, t);
  }

  lemma LifeSweepDue(o: Options, r: Run, env: Env, a: Life)
    requires LifeEnabled(o, r, env, a)
    ensures SweepDue(LifeNext(o, r, env, a), env.now)
  {
  }

  lemma TalkSweepDue(o: Options, r: Run, env: Env, a: Talk)
    requires TalkEnabled(o, r, env, a)
    ensures SweepDue(TalkNext(o, r, env, a), env.now)
  {
  }
}
