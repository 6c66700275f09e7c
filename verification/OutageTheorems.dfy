/** An outage on the clock of a whole interleaving, from the step that ends the session (src/client.rs:341-375). */
module OutageTheorems {
  import opened Types
  import opened Worker
  import opened Client
  import opened ClientGate
  import opened ClientCalls
  import opened ClientJoins
  import opened Reachable
  import opened SessionTheorems
  import opened ExecutionTheorems
  import WorkerOutage

  /** How many dials run `r` has begun after a wait, from step `d` to step `j`. */
  function Dialled(actions: seq<Action>, r: nat, d: nat, j: nat): nat
    requires d <= j <= |actions|
  {
    if d == j then 0
    else Dialled(actions, r, d, j - 1) + if actions[j - 1] == OfRun(r, OfLife(Life.Wake)) then 1 else 0
  }

  /** Time passes no further than the end of the wait that the worker is in, and not while it could go on. */
  predicate Punctual(pc: Pc, now: nat, ticks: nat) {
    match pc
    case Asleep(until) => now + ticks <= until
    case Dialing(limit) => now + ticks <= limit
    case _ => ticks == 0
  }

  /** Run `r` loses its session at step `d`, and until state `j` neither gets another nor gives up. */
  ghost predicate LostSince(states: seq<State>, actions: seq<Action>, r: nat, d: nat, j: nat) {
    && d < j <= |actions| && |states| == |actions| + 1
    && actions[d] == OfRun(r, OfLife(Lower))
    && forall h :: d < h <= j ==> r < |states[h].runs| && WorkerOutage.InOutage(states[h].runs[r])
  }

  ghost predicate OnTime(states: seq<State>, actions: seq<Action>, r: nat, d: nat, j: nat)
    requires LostSince(states, actions, r, d, j)
  {
    forall h :: d < h < j && actions[h].Tick? ==> Punctual(states[h].runs[r].pc, states[h].clock.now, actions[h].ticks)
  }

  lemma OutageMoves(o: Options, r: Run, env: Env, a: Act)
    requires Enabled(o, r, env, a) && WorkerOutage.InOutage(r)
    ensures var s := Next(o, r, env, a);
            && s.outage.start == r.outage.start && s.outage.late == r.outage.late
            && s.outage.dials == r.outage.dials + if a == OfLife(Life.Wake) then 1 else 0
  {
    hide SessNext, SessEnabled, TalkNext, TalkEnabled;
    if a.OfSess? || a.OfTalk? {
      NoSessionSteps(o, r, env, a);
    }
  }

  lemma NoSessionSteps(o: Options, r: Run, env: Env, a: Act)
    requires Enabled(o, r, env, a) && !a.OfLife?
    ensures r.pc.Session?
  {
  }

  lemma OutageBegins(o: Options, r: Run, env: Env)
    requires Enabled(o, r, env, OfLife(Lower))
    ensures Next(o, r, env, OfLife(Lower)).outage == Outage(env.now, 0, env.late)
  {
  }

  /** Only a tick moves the clock, and only an unpunctual one adds to the lateness. */
  lemma ClockMoves(o: Options, s: State, a: Action, r: nat)
    requires Inv(o, s) && StepEnabled(o, s, a) && r < |s.runs| && WorkerOutage.InOutage(s.runs[r])
    requires a.Tick? ==> Punctual(s.runs[r].pc, s.clock.now, a.ticks)
    ensures Step(o, s, a).clock.late == s.clock.late
  {
    hide CallNext, CallEnabled, JoinNext, JoinEnabled, CloseNext, CloseEnabled, RunNext, RunEnabled, TrafficOk, JoinsOk, LockOk, FlagsOk, DestroyOk;
    match a
    case OfCall(id, act) => CallFrames(o, s, id, act);
    case OfJoin(i, act) => JoinFrames(s, i, act);
    case OfClose(i, act) => CloseFrames(s, i, act);
    case OfRun(q, act) => RunFrames(o, s, q, act);
    case _ =>
  }

  lemma {:induction false} OutageSince(o: Options, states: seq<State>, actions: seq<Action>, r: nat, d: nat, j: nat)
    requires Valid(o) && Execution(o, states, actions) && LostSince(states, actions, r, d, j) && OnTime(states, actions, r, d, j)
    ensures states[j].runs[r].outage == Outage(states[d].clock.now, Dialled(actions, r, d, j), states[d].clock.late)
    ensures states[j].clock.late == states[d].clock.late
    decreases j
  {
    hide Step, StepEnabled, Next, Enabled, Inv, WorkerOutage.InOutage, Punctual;
    MovesAt(o, states, actions, j - 1, r);
    var s, a := states[j - 1], actions[j - 1];
    if j == d + 1 {
      LowerKeepsClock(o, s, r);
      OutageBegins(o, s.runs[r], EnvOf(s, r));
    } else {
      OutageSince(o, states, actions, r, d, j - 1);
      ExecutionOk(o, states, actions, j - 1);
      ClockMoves(o, s, a, r);
      if a.OfRun? && a.run == r {
        OutageMoves(o, s.runs[r], EnvOf(s, r), a.act);
      }
    }
  }

  lemma LowerKeepsClock(o: Options, s: State, r: nat)
    requires StepEnabled(o, s, OfRun(r, OfLife(Lower)))
    ensures Step(o, s, OfRun(r, OfLife(Lower))).clock == s.clock
  {
    hide RunNext, RunEnabled;
    RunFrames(o, s, r, OfLife(Lower));
  }

  /** Scheduled on time, an outage dials at most `max_reconnect_attempts` times and lasts at most that many waits and dials. */
  lemma PunctualOutage(o: Options, states: seq<State>, actions: seq<Action>, r: nat, d: nat, j: nat)
    requires Valid(o) && Execution(o, states, actions) && LostSince(states, actions, r, d, j) && OnTime(states, actions, r, d, j)
    ensures Dialled(actions, r, d, j) <= o.maxReconnectAttempts
    ensures states[j].clock.now - states[d].clock.now <= o.maxReconnectAttempts * (o.maxReconnectDelay + o.connectTimeout)
  {
    hide Step, StepEnabled, Inv, Reached, WorkerOutage.InOutage, Punctual;
    OutageSince(o, states, actions, r, d, j);
    PrefixReached(o, states, actions, j);
    FiniteOutage(o, states[j], r);
  }
}
