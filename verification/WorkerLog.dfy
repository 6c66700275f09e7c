/** A run speaks the event grammar. */
module WorkerLog {
  import opened Types
  import opened Events
  import opened Worker
  import opened Grammar
  import opened WorkerAcks
  import Backoff

  function EventsOf(log: seq<Logged>): seq<Event> {
    seq(|log|, i requires 0 <= i < |log| => log[i].event)
  }

  function PhaseNow(o: Options, r: Run): Phase {
    PhaseOf(o, EventsOf(r.past.log))
  }

  /** The phase in which each position of the worker may be. */
  ghost predicate Agrees(o: Options, r: Run, p: Phase) {
    match r.pc
    case Spawned => p == Fresh && !r.established && r.attempt == 0
    case Dialing(_) => Between(o, r, p)
    case DialFailed(e) => Between(o, r, p) && DialError(e)
    case Asleep(_) => r.established && Between(o, r, p)
    case Opened(_) => (p.Fresh? || p.Trying?) && UpFresh(r)
    case Counted(_) => (p.Fresh? || p.Trying?) && UpFresh(r)
    case Live(_) => (p.Fresh? || p.Trying?) && UpFresh(r)
    case Announced(_) => (p.Fresh? || p.Trying?) && UpFresh(r)
    case Greeted(_) => (p.Fresh? || p.Trying?) && UpFresh(r)
    case Session(spot) => p == Online && UpFresh(r)
    case Leaving(exit) => (p == Online && UpFresh(r) && (exit.Lost? ==> EndsSession(exit.error)))
                          || (exit.Cancelled? && (p.Fresh? || p.Trying?))
    case Lowering(e) => p == Online && UpFresh(r) && EndsSession(e)
    case Clearing(e) => p == Online && UpFresh(r) && EndsSession(e)
    case Draining(why, _) =>
      if why.SessionOver? then p == Online && UpFresh(r) && EndsSession(why.error)
      else p == Closed && Told(r, why.error)
    case Reporting(e) => p == Online && UpFresh(r) && EndsSession(e)
    case Complaining(e) => p == Broken(e.Timeout?) && UpFresh(r) && LossError(e)
    case Judging => p == Idle(r.attempt) && r.established && r.attempt <= o.maxReconnectAttempts
    case Pausing => 1 <= r.attempt <= o.maxReconnectAttempts && p == Idle(r.attempt - 1) && r.established
    case Aborting => p.Fresh? || p.Trying? || p.Online?
    case Signing => p.Fresh? || p.Trying? || p.Online?
    case Ending(e) => p == Closed && Told(r, e)
    case Settling(e) => p == Closed && Told(r, e)
    case Failing(e) => p == Closed && Told(r, e)
    case Shutting(e) => p == Closed && Told(r, e)
    case Finished => p == Closed && r.face.status.Failed? && Told(r, r.face.status.error)
  }

  ghost predicate Between(o: Options, r: Run, p: Phase) {
    if r.established then p == Trying(r.attempt) && r.attempt <= o.maxReconnectAttempts else p == Fresh && r.attempt == 0
  }

  predicate UpFresh(r: Run) {
    r.established && r.attempt == 0
  }

  predicate EndsSession(e: Error) {
    LossError(e) || e.Server?
  }

  /** The last event reports the error the run ends with. */
  ghost predicate Told(r: Run, e: Error) {
    && r.past.log != []
    && var last := r.past.log[|r.past.log| - 1].event;
       || last == Failure(e)
       || (last == Disconnect(Manual) && e == Disconnected)
       || (e.Server? && last == Disconnect(ByServer(e.code)))
  }

  /** The event a step logged. */
  function Added(r: Run, s: Run): Option<Event> {
    if |s.past.log| > |r.past.log| then Some(s.past.log[|r.past.log|].event) else None
  }

  function After(o: Options, p: Phase, e: Option<Event>): Phase {
    if e.Some? then Advance(o, p, e.value) else p
  }

  lemma PhaseAfter(o: Options, r: Run, s: Run)
    requires OneEntry(r, s)
    ensures PhaseNow(o, s) == After(o, PhaseNow(o, r), Added(r, s))
  {
    if s.past.log != r.past.log {
      assert EventsOf(s.past.log) == EventsOf(r.past.log) + [Added(r, s).value];
      PhaseAppend(o, EventsOf(r.past.log), Added(r, s).value);
    }
  }

  ghost predicate Consistent(o: Options, r: Run, p: Phase) {
    && Agrees(o, r, p)
    && (r.pc.Draining? && r.pc.why.RunOver? ==> r.face.status == Failed(r.pc.why.error))
    && (r.pc.Shutting? ==> r.face.status == Failed(r.pc.error))
  }

  /** Every run is at a position that fits what it has reported. */
  ghost predicate LogOk(o: Options, r: Run) {
    Consistent(o, r, PhaseNow(o, r))
  }

  /** The steps towards a session that report something. */
  predicate Speaks(a: Life) {
    a.GiveUpDial? || a.Enter? || a.Judge? || a.Pause?
  }

  lemma PauseAdvances(o: Options, r: Run, env: Env, random: nat, p: Phase)
    requires Valid(o) && Consistent(o, r, p) && LifeEnabled(o, r, env, Pause(random))
    ensures var s := LifeNext(o, r, env, Pause(random)); Consistent(o, s, After(o, p, Added(r, s)))
  {
    hide Backoff.Delay, Backoff.Base, Valid;
    Backoff.DelayBounded(o, r.attempt, random);
  }

  lemma ReportAdvances(o: Options, r: Run, env: Env, a: Life, p: Phase)
    requires Consistent(o, r, p) && LifeEnabled(o, r, env, a) && Speaks(a) && !a.Pause?
    ensures var s := LifeNext(o, r, env, a); Consistent(o, s, After(o, p, Added(r, s)))
  {
    hide Backoff.Delay, Backoff.Base;
  }

  lemma QuietAdvances(o: Options, r: Run, env: Env, a: Life, p: Phase)
    requires Consistent(o, r, p) && LifeEnabled(o, r, env, a) && Rising(a) && !Speaks(a)
    ensures var s := LifeNext(o, r, env, a); Consistent(o, s, After(o, p, Added(r, s)))
  {
  }

  lemma RiseAdvances(o: Options, r: Run, env: Env, a: Life, p: Phase)
    requires Valid(o) && Consistent(o, r, p) && LifeEnabled(o, r, env, a) && Rising(a)
    ensures var s := LifeNext(o, r, env, a); Consistent(o, s, After(o, p, Added(r, s)))
  {
    hide LifeEnabled, LifeNext, Consistent, Rising, Valid;
    if a.Pause? {
      PauseAdvances(o, r, env, a.random, p);
    } else if Speaks(a) {
      ReportAdvances(o, r, env, a, p);
    } else {
      QuietAdvances(o, r, env, a, p);
    }
  }

  lemma CancelAdvances(o: Options, r: Run, env: Env, a: Life, p: Phase)
    requires Consistent(o, r, p) && LifeEnabled(o, r, env, a) && Cancelling(a)
    ensures var s := LifeNext(o, r, env, a); Consistent(o, s, After(o, p, Added(r, s)))
  {
  }

  lemma EndAdvances(o: Options, r: Run, env: Env, a: Life, p: Phase)
    requires Consistent(o, r, p) && LifeEnabled(o, r, env, a) && Stopping(a) && !Cancelling(a)
    ensures var s := LifeNext(o, r, env, a); Consistent(o, s, After(o, p, Added(r, s)))
  {
  }

  lemma StopAdvances(o: Options, r: Run, env: Env, a: Life, p: Phase)
    requires Consistent(o, r, p) && LifeEnabled(o, r, env, a) && Stopping(a)
    ensures var s := LifeNext(o, r, env, a); Consistent(o, s, After(o, p, Added(r, s)))
  {
    hide LifeEnabled, LifeNext, Consistent, Stopping, Cancelling;
    if Cancelling(a) {
      CancelAdvances(o, r, env, a, p);
    } else {
      EndAdvances(o, r, env, a, p);
    }
  }

  lemma FallAdvances(o: Options, r: Run, env: Env, a: Life, p: Phase)
    requires Consistent(o, r, p) && LifeEnabled(o, r, env, a) && !Rising(a) && !Stopping(a)
    ensures var s := LifeNext(o, r, env, a); Consistent(o, s, After(o, p, Added(r, s)))
  {
  }

  lemma SessAdvances(o: Options, r: Run, env: Env, a: Sess, p: Phase)
    requires Consistent(o, r, p) && SessEnabled(o, r, env, a)
    ensures var s := SessNext(o, r, env, a); Consistent(o, s, After(o, p, Added(r, s)))
  {
  }

  lemma TalkAdvances(o: Options, r: Run, env: Env, a: Talk, p: Phase)
    requires Consistent(o, r, p) && TalkEnabled(o, r, env, a)
    ensures var s := TalkNext(o, r, env, a); Consistent(o, s, After(o, p, Added(r, s)))
  {
  }

  lemma StepAdvances(o: Options, r: Run, env: Env, a: Act, p: Phase)
    requires Valid(o) && Consistent(o, r, p) && Enabled(o, r, env, a)
    ensures var s := Next(o, r, env, a); Consistent(o, s, After(o, p, Added(r, s)))
  {
    match a
    case OfLife(l) =>
      if Rising(l) {
        RiseAdvances(o, r, env, l, p);
      } else if Stopping(l) {
        StopAdvances(o, r, env, l, p);
      } else {
        FallAdvances(o, r, env, l, p);
      }
    case OfSess(s) => SessAdvances(o, r, env, s, p);
    case OfTalk(t) => TalkAdvances(o, r, env, t, p);
  }

  lemma StepKeepsLog(o: Options, r: Run, env: Env, a: Act)
    requires Valid(o) && LogOk(o, r) && Enabled(o, r, env, a) && env.generation == r.socket
    ensures LogOk(o, Next(o, r, env, a))
  {
    StepAcks(o, r, env, a);
    PhaseAfter(o, r, Next(o, r, env, a));
    StepAdvances(o, r, env, a, PhaseNow(o, r));
  }
}
