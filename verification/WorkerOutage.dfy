/** An outage is finite: a bounded number of dials, and a bounded time but for the scheduler's lateness. */
module WorkerOutage {
  import opened Types
  import opened Worker
  import Backoff

  /** The worst case of one retry: its delay and its dial. */
  function RetryCost(o: Options): nat {
    o.maxReconnectDelay + o.connectTimeout
  }

  /** A run that is between a lost session and the next one. */
  predicate InOutage(r: Run) {
    match r.pc
    case Clearing(_) => true
    case Draining(why, _) => why.SessionOver?
    case Reporting(_) => true
    case Complaining(_) => true
    case Judging => true
    case Pausing => true
    case Asleep(_) => true
    case Dialing(_) => r.established
    case DialFailed(_) => r.established
    case _ => false
  }

  /** How far the current timed wait may extend beyond the retries already paid for. */
  ghost predicate TimeOk(o: Options, r: Run, now: nat, late: nat) {
    var budget := r.outage.start + r.outage.dials * RetryCost(o) + (late - r.outage.late);
    match r.pc
    case Asleep(until) =>
      until <= budget + o.maxReconnectDelay && now <= budget + o.maxReconnectDelay
    case Dialing(limit) => limit <= budget && now <= budget
    case _ => now <= budget
  }

  /** The attempt counter counts the dials of the outage. */
  ghost predicate DialsOk(o: Options, r: Run) {
    && r.outage.dials <= r.attempt <= o.maxReconnectAttempts
    && (r.pc.Asleep? || r.pc.Pausing? ==> r.outage.dials + 1 == r.attempt)
    && (!r.pc.Asleep? && !r.pc.Pausing? ==> r.outage.dials == r.attempt)
  }

  ghost predicate OutageOk(o: Options, r: Run, now: nat, late: nat) {
    && r.outage.late <= late
    && (InOutage(r) ==> DialsOk(o, r) && TimeOk(o, r, now, late))
    && (LosesFrom(r.pc) ==> r.attempt == 0)
    && (r.pc.Spawned? ==> !r.established)
  }

  /** Positions of an established session and its loss, where the attempt counter is zero. */
  predicate LosesFrom(pc: Pc) {
    pc.Opened? || pc.Counted? || pc.Live? || pc.Announced? || pc.Greeted? || pc.Session? || pc.Lowering?
    || (pc.Leaving? && pc.exit.Lost?)
  }

  /** How much of a tick the worker was held back although its wait was over. */
  function Overrun(r: Run, now: nat, later: nat): nat
    requires now <= later
  {
    match r.pc
    case Asleep(until) => if until <= now then later - now else if until <= later then later - until else 0
    case Dialing(limit) => if limit <= now then later - now else if limit <= later then later - limit else 0
    case _ => later - now
  }

  lemma TickKeepsOutage(o: Options, r: Run, now: nat, later: nat, late: nat)
    requires OutageOk(o, r, now, late) && now <= later
    ensures OutageOk(o, r, later, late + Overrun(r, now, later))
  {
  }

  lemma RetryPaid(o: Options, dials: nat)
    ensures (dials + 1) * RetryCost(o) == dials * RetryCost(o) + o.maxReconnectDelay + o.connectTimeout
  {
  }

  lemma RiseKeepsOutage(o: Options, r: Run, env: Env, a: Life)
    requires Valid(o) && OutageOk(o, r, env.now, env.late) && LifeEnabled(o, r, env, a) && Rising(a)
    ensures OutageOk(o, LifeNext(o, r, env, a), env.now, env.late)
  {
    if a.Pause? {
      Backoff.DelayBounded(o, r.attempt, a.random);
    }
    RetryPaid(o, r.outage.dials);
  }

  lemma StopKeepsOutage(o: Options, r: Run, env: Env, a: Life)
    requires OutageOk(o, r, env.now, env.late) && LifeEnabled(o, r, env, a) && Stopping(a)
    ensures OutageOk(o, LifeNext(o, r, env, a), env.now, env.late)
  {
  }

  lemma FallKeepsOutage(o: Options, r: Run, env: Env, a: Life)
    requires OutageOk(o, r, env.now, env.late) && LifeEnabled(o, r, env, a) && !Rising(a) && !Stopping(a)
    ensures OutageOk(o, LifeNext(o, r, env, a), env.now, env.late)
  {
  }

  lemma SessKeepsOutage(o: Options, r: Run, env: Env, a: Sess)
    requires OutageOk(o, r, env.now, env.late) && SessEnabled(o, r, env, a)
    ensures OutageOk(o, SessNext(o, r, env, a), env.now, env.late)
  {
  }

  lemma TalkKeepsOutage(o: Options, r: Run, env: Env, a: Talk)
    requires OutageOk(o, r, env.now, env.late) && TalkEnabled(o, r, env, a)
    ensures OutageOk(o, TalkNext(o, r, env, a), env.now, env.late)
  {
  }

  lemma StepKeepsOutage(o: Options, r: Run, env: Env, a: Act)
    requires Valid(o) && OutageOk(o, r, env.now, env.late) && Enabled(o, r, env, a)
    ensures OutageOk(o, Next(o, r, env, a), env.now, env.late)
  {
    match a
    case OfLife(l) =>
      if Rising(l) {
        RiseKeepsOutage(o, r, env, l);
      } else if Stopping(l) {
        StopKeepsOutage(o, r, env, l);
      } else {
        FallKeepsOutage(o, r, env, l);
      }
    case OfSess(s) => SessKeepsOutage(o, r, env, s);
    case OfTalk(t) => TalkKeepsOutage(o, r, env, t);
  }

  /** An outage dials at most `max_reconnect_attempts` times and, scheduled on time, is over that soon. */
  lemma OutageBounded(o: Options, r: Run, now: nat, late: nat)
    requires OutageOk(o, r, now, late) && InOutage(r)
    ensures r.outage.dials <= o.maxReconnectAttempts
    ensures now - r.outage.start <= o.maxReconnectAttempts * RetryCost(o) + (late - r.outage.late)
  {
    var n := if r.pc.Asleep? then r.outage.dials + 1 else r.outage.dials;
    RetryPaid(o, r.outage.dials);
    Backoff.ScaleMonotone(RetryCost(o), n, o.maxReconnectAttempts);
  }
}
