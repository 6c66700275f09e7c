/** Waits and readings over whole interleavings, by the clock and the atomics at the steps themselves. */
module ExecutionTheorems {
  import opened Types
  import opened Events
  import opened Worker
  import opened WorkerDeadlines
  import opened WorkerInvariant
  import opened Client
  import opened ClientGate
  import opened ClientCalls
  import opened ClientJoins
  import opened Reachable
  import opened TrafficTheorems
  import opened TimeoutTheorems
  import Backoff
  import WorkerOutage

  // ---- What a call keeps ----

  predicate BeforeReading(pc: CallPc) {
    pc.Begin? || pc.CheckUp? || pc.ReadGeneration?
  }

  predicate BeforeEncoding(pc: CallPc) {
    BeforeReading(pc) || pc.Acquire? || pc.Prepare?
  }

  /** What a call has read and fixed stays: its generation from the reading on, its deadline from the encoding on. */
  ghost predicate Fixes(c: Call, d: Call) {
    && (!BeforeReading(c.pc) ==> !BeforeReading(d.pc) && d.generation == c.generation)
    && (!BeforeEncoding(c.pc) ==> !BeforeEncoding(d.pc) && d.deadline == c.deadline)
  }

  lemma CallFixes(o: Options, s: State, id: Id, a: CallAct)
    requires CallEnabled(s, id, a)
    ensures id in CallNext(o, s, id, a).calls && Fixes(s.calls[id], CallNext(o, s, id, a).calls[id])
  {
    hide TrySending;
    if a.TrySend? {
      TrySendingFixes(o, s, id, s.calls[id]);
    }
  }

  lemma TrySendingFixes(o: Options, s: State, id: Id, c: Call)
    requires c.pc.Enqueue?
    ensures var t := TrySending(o, s, id, c); id in t.calls && Fixes(c, t.calls[id])
  {
    hide Push, CommandOf;
  }

  lemma StepFixes(o: Options, s: State, a: Action, id: Id)
    requires StepEnabled(o, s, a) && id in s.calls && s.calls.Keys <= s.ids
    ensures id in Step(o, s, a).calls && Fixes(s.calls[id], Step(o, s, a).calls[id])
  {
    hide CallNext, CallEnabled, JoinNext, JoinEnabled, CloseNext, CloseEnabled, RunNext, RunEnabled, WorkerOutage.Overrun;
    match a
    case OfCall(x, act) =>
      CallFrames(o, s, x, act);
      CallFixes(o, s, x, act);
    case OfJoin(k, act) => JoinFrames(s, k, act);
    case OfClose(k, act) => CloseFrames(s, k, act);
    case OfRun(r, act) => RunFrames(o, s, r, act);
    case _ =>
  }

  lemma IdsDrawn(o: Options, s: State)
    requires Inv(o, s)
    ensures s.calls.Keys <= s.ids
  {
  }

  /** The step at `i` prepares the SEND of call `id`. */
  ghost predicate Prepares(o: Options, actions: seq<Action>, i: nat, id: Id) {
    i < |actions| && actions[i].OfCall? && actions[i].call == id && actions[i].callAct.Encode?
  }

  lemma PrepareFixes(o: Options, s: State, id: Id, valid: bool, size: nat)
    requires CallEnabled(s, id, Encode(valid, size))
    ensures var d := CallNext(o, s, id, Encode(valid, size)).calls[id];
            !BeforeEncoding(d.pc) && d.deadline == s.clock.now + o.requestTimeout
  {
  }

  /** The deadline of a call is its preparation plus the request timeout, at every later state. */
  lemma {:induction false} DeadlineSince(o: Options, states: seq<State>, actions: seq<Action>, i: nat, j: nat, id: Id)
    requires Valid(o) && Execution(o, states, actions) && Prepares(o, actions, i, id) && i < j <= |actions|
    ensures id in states[j].calls && !BeforeEncoding(states[j].calls[id].pc)
    ensures states[j].calls[id].deadline == states[i].clock.now + o.requestTimeout
    decreases j
  {
    hide CallNext, Inv, Fixes;
    if j == i + 1 {
      PrepareFixes(o, states[i], id, actions[i].callAct.valid, actions[i].callAct.size);
      CallFixes(o, states[i], id, actions[i].callAct);
    } else {
      hide Step, StepEnabled;
      DeadlineSince(o, states, actions, i, j - 1, id);
      ExecutionOk(o, states, actions, j - 1);
      IdsDrawn(o, states[j - 1]);
      StepFixes(o, states[j - 1], actions[j - 1], id);
      KeepsDeadline(states[j - 1].calls[id], states[j].calls[id]);
    }
  }

  lemma KeepsDeadline(c: Call, d: Call)
    requires Fixes(c, d) && !BeforeEncoding(c.pc)
    ensures !BeforeEncoding(d.pc) && d.deadline == c.deadline
  {
  }

  /** No caller is told Timeout before the request timeout has passed since its SEND was prepared. */
  lemma TimeoutTakesItsTime(o: Options, states: seq<State>, actions: seq<Action>, i: nat, j: nat, id: Id)
    requires Valid(o) && Execution(o, states, actions) && Prepares(o, actions, i, id) && i < j <= |actions|
    requires id in states[j].calls && states[j].calls[id].pc == Done(Returned(Err(Timeout)))
    ensures states[j].clock.now >= states[i].clock.now + o.requestTimeout
  {
    hide Reached, Step, StepEnabled;
    DeadlineSince(o, states, actions, i, j, id);
    PrefixReached(o, states, actions, j);
    TimeoutIsNeverEarly(o, states[j], id);
  }

  /** A waiting caller may give up exactly when that much time has passed. */
  lemma TimeoutOfferedIff(o: Options, states: seq<State>, actions: seq<Action>, i: nat, j: nat, id: Id)
    requires Valid(o) && Execution(o, states, actions) && Prepares(o, actions, i, id) && i < j <= |actions|
    requires id in states[j].calls && states[j].calls[id].pc.Await? && states[j].calls[id].reply.Unsent?
    ensures CallEnabled(states[j], id, TimeOut) <==> states[j].clock.now >= states[i].clock.now + o.requestTimeout
  {
    hide Step, StepEnabled;
    DeadlineSince(o, states, actions, i, j, id);
  }

  /** The worker settles no SEND for its deadline before that either. */
  lemma SettledLateTakesItsTime(o: Options, states: seq<State>, actions: seq<Action>, i: nat, j: nat, id: Id, r: nat, k: nat)
    requires Valid(o) && Execution(o, states, actions) && Prepares(o, actions, i, id) && i < j <= |actions|
    requires r < |states[j].runs| && k < |states[j].runs[r].box.settled| && states[j].runs[r].box.settled[k].id == id
    requires states[j].runs[r].box.settled[k].fate == Expired || states[j].runs[r].box.settled[k].fate == Late
    ensures states[j].clock.now >= states[i].clock.now + o.requestTimeout
  {
    hide Step, StepEnabled, Reached, GateOk, RunsOk, PermitsOk, JoinsOk, UpOk, CallersOk, PendingDated, SweepDue, EndsOk, AnswersTimely;
    DeadlineSince(o, states, actions, i, j, id);
    PrefixReached(o, states, actions, j);
    ReachedTimely(o, states[j]);
    ReachedOk(o, states[j]);
    assert RunTimely(states[j].runs[r], states[j].clock.now);
    DueDeadline(o, states[j], r, id);
  }

  // ---- Generations ----

  ghost predicate Reads(actions: seq<Action>, i: nat, id: Id) {
    i < |actions| && actions[i] == OfCall(id, LoadGeneration)
  }

  lemma {:induction false} GenerationSince(o: Options, states: seq<State>, actions: seq<Action>, i: nat, j: nat, id: Id)
    requires Valid(o) && Execution(o, states, actions) && Reads(actions, i, id) && i < j <= |actions|
    ensures id in states[j].calls && !BeforeReading(states[j].calls[id].pc)
    ensures states[j].calls[id].generation == states[i].flags.generation
    decreases j
  {
    hide Inv, BeforeEncoding;
    if j > i + 1 {
      hide Step, StepEnabled;
      GenerationSince(o, states, actions, i, j - 1, id);
      ExecutionOk(o, states, actions, j - 1);
      IdsDrawn(o, states[j - 1]);
      StepFixes(o, states[j - 1], actions[j - 1], id);
    }
  }

  /** The fence by the readings: a SEND is written only on the socket that was current when its caller read the generation. */
  lemma FencedByReading(o: Options, states: seq<State>, actions: seq<Action>, i: nat, j: nat, id: Id, r: nat, k: nat)
    requires Valid(o) && Execution(o, states, actions) && Reads(actions, i, id) && i < j <= |actions|
    requires r < |states[j].runs| && k < |states[j].runs[r].past.wire|
    requires states[j].runs[r].past.wire[k].out.Send? && states[j].runs[r].past.wire[k].out.cmd.id == id
    ensures states[j].runs[r].past.wire[k].socket == states[i].flags.generation
    ensures states[i].runs != [] ==> states[j].runs[r].past.wire[k].socket == states[i].runs[|states[i].runs| - 1].socket
  {
    hide Reached, Step, StepEnabled, RunsOk, CallsOk, PermitsOk, JoinsOk, LockOk, SlotOk, DestroyOk;
    GenerationSince(o, states, actions, i, j, id);
    PrefixReached(o, states, actions, j);
    GenerationFence(o, states[j], r, k);
    ExecutionOk(o, states, actions, i);
  }

  // ---- How runs move ----

  /** A run moves by its own step, or changes only from outside, or is new. */
  ghost predicate RunMoves(o: Options, s: State, a: Action, t: State, r: nat)
    requires StepEnabled(o, s, a) && r < |t.runs|
  {
    if r >= |s.runs| then t.runs[r] == NewRun(s.flags.generation)
    else if a.OfRun? && a.run == r then t.runs[r] == Next(o, s.runs[r], EnvOf(s, r), a.act)
    else OutsideOnly(s.runs[r], t.runs[r])
  }

  lemma TrySendMoves(o: Options, s: State, id: Id, c: Call, r: nat)
    requires r < |TrySending(o, s, id, c).runs|
    ensures r < |s.runs| && OutsideOnly(s.runs[r], TrySending(o, s, id, c).runs[r])
  {
    hide CommandOf;
  }

  lemma CallMoves(o: Options, s: State, id: Id, a: CallAct, r: nat)
    requires CallEnabled(s, id, a) && r < |CallNext(o, s, id, a).runs|
    ensures r < |s.runs| && OutsideOnly(s.runs[r], CallNext(o, s, id, a).runs[r])
  {
    hide TrySending;
    if a.TrySend? {
      TrySendMoves(o, s, id, s.calls[id], r);
    }
  }

  lemma CloseMoves(s: State, k: nat, a: CloseAct, r: nat)
    requires CloseEnabled(s, k, a) && r < |CloseNext(s, k, a).runs|
    ensures r < |s.runs| && OutsideOnly(s.runs[r], CloseNext(s, k, a).runs[r])
    ensures CloseNext(s, k, a).runs[r].cancelled && !s.runs[r].cancelled ==> a == Signal && s.gate.slot == Some(r)
  {
  }

  lemma StepMovesRun(o: Options, s: State, a: Action, r: nat)
    requires StepEnabled(o, s, a) && r < |Step(o, s, a).runs|
    ensures RunMoves(o, s, a, Step(o, s, a), r)
  {
    hide CallNext, CallEnabled, JoinNext, JoinEnabled, CloseNext, CloseEnabled, RunNext, WorkerOutage.Overrun, Next, Enabled;
    match a
    case OfCall(id, act) => CallMoves(o, s, id, act, r);
    case OfJoin(k, act) => JoinFrames(s, k, act);
    case OfClose(k, act) => CloseMoves(s, k, act, r);
    case OfRun(q, act) => RunFrames(o, s, q, act);
    case _ =>
  }

  // ---- Backoff ----

  lemma EntersSleep(o: Options, r: Run, env: Env, a: Act)
    requires Enabled(o, r, env, a) && Next(o, r, env, a).pc.Asleep?
    ensures a.OfLife? && a.life.Pause?
    ensures var s, delay := Next(o, r, env, a), Backoff.Delay(o, r.attempt, a.life.random);
            s.pc.until == env.now + delay && s.past.log == r.past.log + [Logged(r.socket, Reconnecting(r.attempt, delay))]
  {
    hide SessNext, SessEnabled, TalkNext, TalkEnabled;
    match a
    case OfSess(t) => SessStays(o, r, env, t);
    case OfTalk(t) => TalkStays(o, r, env, t);
    case _ =>
  }

  lemma SessStays(o: Options, r: Run, env: Env, a: Sess)
    requires SessEnabled(o, r, env, a)
    ensures r.pc.Session? && SessNext(o, r, env, a).pc.Session? && SessNext(o, r, env, a).beat == r.beat
    ensures SessNext(o, r, env, a).cancelled == r.cancelled && SessNext(o, r, env, a).past.log == r.past.log
    ensures SessNext(o, r, env, a).pc.spot.Writing? ==> SessNext(o, r, env, a).pc.spot.out.Send?
  {
  }

  lemma TalkStays(o: Options, r: Run, env: Env, a: Talk)
    requires TalkEnabled(o, r, env, a)
    ensures var s := TalkNext(o, r, env, a);
            r.pc.Session? && (s.pc.Session? || (s.pc.Leaving? && s.pc.exit.Lost?)) && s.cancelled == r.cancelled
  {
  }

  /** The step at `i` announces the retry that the run's last event names, with its delay. */
  ghost predicate Announces(states: seq<State>, actions: seq<Action>, i: nat, r: nat, log: seq<Logged>) {
    && i < |actions| && |states| == |actions| + 1 && actions[i].OfRun? && actions[i].run == r
    && r < |states[i].runs| && r < |states[i + 1].runs|
    && states[i + 1].runs[r].past.log == log && log != [] && states[i].runs[r].past.log == log[..|log| - 1]
    && log[|log| - 1].event.Reconnecting?
  }

  /** A sleeping run sleeps since it announced its retry, until the announced delay is over. */
  lemma {:induction false} SleepsSince(o: Options, states: seq<State>, actions: seq<Action>, k: nat, r: nat) returns (i: nat)
    requires Valid(o) && Execution(o, states, actions) && k <= |actions| && r < |states[k].runs| && states[k].runs[r].pc.Asleep?
    ensures i < k && Announces(states, actions, i, r, states[k].runs[r].past.log)
    ensures var log := states[k].runs[r].past.log;
            states[k].runs[r].pc.until == states[i].clock.now + log[|log| - 1].event.delay
    decreases k
  {
    hide Step, StepEnabled, Next, Enabled;
    if k > 0 {
      var s, a := states[k - 1], actions[k - 1];
      MovesAt(o, states, actions, k - 1, r);
      if a.OfRun? && a.run == r {
        EntersSleep(o, s.runs[r], EnvOf(s, r), a.act);
        i := k - 1;
      } else {
        i := SleepsSince(o, states, actions, k - 1, r);
      }
    }
  }

  /** The step before a state, for one run. */
  lemma MovesAt(o: Options, states: seq<State>, actions: seq<Action>, k: nat, r: nat)
    requires Execution(o, states, actions) && k < |actions| && r < |states[k + 1].runs|
    ensures StepEnabled(o, states[k], actions[k]) && states[k + 1] == Step(o, states[k], actions[k])
    ensures RunMoves(o, states[k], actions[k], states[k + 1], r)
    ensures actions[k].OfRun? ==> actions[k].run < |states[k].runs| && Enabled(o, states[k].runs[actions[k].run], EnvOf(states[k], actions[k].run), actions[k].act)
  {
    hide Step, Enabled, Next;
    StepMovesRun(o, states[k], actions[k], r);
  }

  /** No retry dials before its announced delay is over. */
  lemma BackoffHonoured(o: Options, states: seq<State>, actions: seq<Action>, k: nat, r: nat) returns (i: nat)
    requires Valid(o) && Execution(o, states, actions) && k < |actions| && actions[k] == OfRun(r, OfLife(Life.Wake)) && r < |states[k].runs|
    ensures i < k && Announces(states, actions, i, r, states[k].runs[r].past.log)
    ensures var log := states[k].runs[r].past.log;
            states[k].clock.now >= states[i].clock.now + log[|log| - 1].event.delay
  {
    i := SleepsSince(o, states, actions, k, r);
  }

  // ---- Dialing ----

  lemma EntersDial(o: Options, r: Run, env: Env, a: Act)
    requires Enabled(o, r, env, a) && Next(o, r, env, a).pc.Dialing?
    ensures a == OfLife(Start) || a == OfLife(Life.Wake)
    ensures Next(o, r, env, a).pc.limit == env.now + o.connectTimeout
  {
    hide SessNext, SessEnabled, TalkNext, TalkEnabled;
    match a
    case OfSess(t) => SessStays(o, r, env, t);
    case OfTalk(t) => TalkStays(o, r, env, t);
    case _ =>
  }

  /** The step at `i` begins the dial that the run is in. */
  ghost predicate Dials(actions: seq<Action>, i: nat, r: nat) {
    i < |actions| && (actions[i] == OfRun(r, OfLife(Start)) || actions[i] == OfRun(r, OfLife(Life.Wake)))
  }

  lemma {:induction false} DialsSince(o: Options, states: seq<State>, actions: seq<Action>, k: nat, r: nat) returns (i: nat)
    requires Valid(o) && Execution(o, states, actions) && k <= |actions| && r < |states[k].runs| && states[k].runs[r].pc.Dialing?
    ensures i < k && Dials(actions, i, r) && states[k].runs[r].pc.limit == states[i].clock.now + o.connectTimeout
    decreases k
  {
    hide Step, StepEnabled, Next, Enabled;
    if k > 0 {
      var s, a := states[k - 1], actions[k - 1];
      MovesAt(o, states, actions, k - 1, r);
      if a.OfRun? && a.run == r {
        EntersDial(o, s.runs[r], EnvOf(s, r), a.act);
        i := k - 1;
      } else {
        i := DialsSince(o, states, actions, k - 1, r);
      }
    }
  }

  /** A dial times out only after the connect timeout. */
  lemma ConnectTimeoutHonoured(o: Options, states: seq<State>, actions: seq<Action>, k: nat, r: nat) returns (i: nat)
    requires Valid(o) && Execution(o, states, actions) && k < |actions| && actions[k] == OfRun(r, OfLife(DialErr(Timeout))) && r < |states[k].runs|
    ensures i < k && Dials(actions, i, r) && states[k].clock.now >= states[i].clock.now + o.connectTimeout
  {
    i := DialsSince(o, states, actions, k, r);
  }

  // ---- Heartbeat ----

  /** Ping `id` with this deadline is being written or outstanding. */
  predicate Pinging(r: Run, id: Id, deadline: nat) {
    r.pc.Session? && (r.pc.spot == Writing(Heartbeat(id, deadline)) || r.beat.ping == Some(Ping(id, deadline)))
  }

  lemma TalkPinging(o: Options, r: Run, env: Env, a: Talk, id: Id, deadline: nat)
    requires TalkEnabled(o, r, env, a) && Pinging(TalkNext(o, r, env, a), id, deadline)
    ensures Pinging(r, id, deadline) || (a == Fire(id) && deadline == env.now + o.pongTimeout)
  {
  }

  lemma LifePinging(o: Options, r: Run, env: Env, a: Life, id: Id, deadline: nat)
    requires LifeEnabled(o, r, env, a)
    ensures !Pinging(LifeNext(o, r, env, a), id, deadline)
  {
  }

  lemma StartsPinging(o: Options, r: Run, env: Env, a: Act, id: Id, deadline: nat)
    requires Enabled(o, r, env, a) && Pinging(Next(o, r, env, a), id, deadline)
    ensures Pinging(r, id, deadline) || (a == OfTalk(Fire(id)) && deadline == env.now + o.pongTimeout)
  {
    hide LifeNext, LifeEnabled, SessNext, SessEnabled, TalkNext, TalkEnabled;
    match a
    case OfLife(l) => LifePinging(o, r, env, l, id, deadline);
    case OfSess(t) => SessStays(o, r, env, t);
    case OfTalk(t) => TalkPinging(o, r, env, t, id, deadline);
  }

  lemma {:induction false} PingsSince(o: Options, states: seq<State>, actions: seq<Action>, k: nat, r: nat, id: Id, deadline: nat)
    returns (i: nat)
    requires Valid(o) && Execution(o, states, actions) && k <= |actions| && r < |states[k].runs|
    requires Pinging(states[k].runs[r], id, deadline)
    ensures i < k && actions[i] == OfRun(r, OfTalk(Fire(id))) && deadline == states[i].clock.now + o.pongTimeout
    decreases k
  {
    hide Step, StepEnabled, Next, Enabled;
    if k > 0 {
      var s, a := states[k - 1], actions[k - 1];
      MovesAt(o, states, actions, k - 1, r);
      if a.OfRun? && a.run == r {
        StartsPinging(o, s.runs[r], EnvOf(s, r), a.act, id, deadline);
      }
      if a == OfRun(r, OfTalk(Fire(id))) && deadline == s.clock.now + o.pongTimeout {
        i := k - 1;
      } else {
        i := PingsSince(o, states, actions, k - 1, r, id, deadline);
      }
    }
  }

  lemma LosesForPing(o: Options, r: Run, env: Env, a: Act)
    requires Enabled(o, r, env, a) && r.pc.Session? && Next(o, r, env, a).pc == Leaving(Lost(Timeout))
    ensures r.beat.ping.Some? && r.beat.ping.value.deadline <= env.now
  {
  }

  /** A session is lost to a heartbeat timeout only after the pong timeout has passed since that ping was begun. */
  lemma PongTimeoutHonoured(o: Options, states: seq<State>, actions: seq<Action>, k: nat, r: nat) returns (i: nat)
    requires Valid(o) && Execution(o, states, actions) && k < |actions| && actions[k].OfRun? && actions[k].run == r
    requires r < |states[k].runs| && r < |states[k + 1].runs|
    requires states[k].runs[r].pc.Session? && states[k + 1].runs[r].pc == Leaving(Lost(Timeout))
    ensures states[k].runs[r].beat.ping.Some?
    ensures i < k && actions[i] == OfRun(r, OfTalk(Fire(states[k].runs[r].beat.ping.value.id)))
    ensures states[k].clock.now >= states[i].clock.now + o.pongTimeout
  {
    hide Step, StepEnabled, Next, Enabled;
    MovesAt(o, states, actions, k, r);
    LosesForPing(o, states[k].runs[r], EnvOf(states[k], r), actions[k].act);
    var ping := states[k].runs[r].beat.ping.value;
    i := PingsSince(o, states, actions, k, r, ping.id, ping.deadline);
  }

  /** The step at `i` starts a session or hears the answer to a heartbeat. */
  ghost predicate Rests(states: seq<State>, actions: seq<Action>, i: nat, r: nat) {
    && i < |actions| && |states| == |actions| + 1 && actions[i].OfRun? && actions[i].run == r
    && r < |states[i].runs| && r < |states[i + 1].runs|
    && (actions[i].act == OfLife(Enter)
        || (|states[i + 1].runs[r].past.heard| > |states[i].runs[r].past.heard| && states[i + 1].runs[r].beat.ping == None))
  }

  lemma TalkNextPing(o: Options, r: Run, env: Env, a: Talk)
    requires TalkEnabled(o, r, env, a)
    ensures var s := TalkNext(o, r, env, a);
            s.beat.next == r.beat.next
            || (s.beat.next == env.now + o.pingInterval && |s.past.heard| > |r.past.heard| && s.beat.ping == None)
  {
  }

  lemma LifeNextPing(o: Options, r: Run, env: Env, a: Life)
    requires LifeEnabled(o, r, env, a) && LifeNext(o, r, env, a).pc.Session?
    ensures a == Enter && LifeNext(o, r, env, a).beat.next == env.now + o.pingInterval
  {
  }

  lemma {:induction false} RestsSince(o: Options, states: seq<State>, actions: seq<Action>, k: nat, r: nat) returns (i: nat)
    requires Valid(o) && Execution(o, states, actions) && k <= |actions| && r < |states[k].runs| && states[k].runs[r].pc.Session?
    ensures i < k && Rests(states, actions, i, r) && states[k].runs[r].beat.next == states[i].clock.now + o.pingInterval
    decreases k
  {
    hide Step, StepEnabled, LifeNext, LifeEnabled, SessNext, SessEnabled, TalkNext, TalkEnabled;
    if k > 0 {
      var s, a := states[k - 1], actions[k - 1];
      MovesAt(o, states, actions, k - 1, r);
      if !(a.OfRun? && a.run == r) {
        i := RestsSince(o, states, actions, k - 1, r);
      } else {
        match a.act
        case OfLife(l) =>
          LifeNextPing(o, s.runs[r], EnvOf(s, r), l);
          i := k - 1;
        case OfSess(t) =>
          SessStays(o, s.runs[r], EnvOf(s, r), t);
          i := RestsSince(o, states, actions, k - 1, r);
        case OfTalk(t) =>
          TalkStays(o, s.runs[r], EnvOf(s, r), t);
          TalkNextPing(o, s.runs[r], EnvOf(s, r), t);
          if states[k].runs[r].beat.next == s.runs[r].beat.next {
            i := RestsSince(o, states, actions, k - 1, r);
          } else {
            i := k - 1;
          }
      }
    }
  }

  lemma WritesPing(o: Options, r: Run, env: Env, id: Id)
    requires TalkEnabled(o, r, env, Fire(id)) && TalkNext(o, r, env, Fire(id)).pc.Session?
    requires TalkNext(o, r, env, Fire(id)).pc.spot.Writing?
    ensures r.beat.next <= env.now && r.beat.ping == None
  {
  }

  /** A heartbeat is begun only after the ping interval has passed since the session started or the last answer came. */
  lemma PingIntervalHonoured(o: Options, states: seq<State>, actions: seq<Action>, k: nat, r: nat, id: Id) returns (i: nat)
    requires Valid(o) && Execution(o, states, actions) && k < |actions| && actions[k] == OfRun(r, OfTalk(Fire(id)))
    requires r < |states[k].runs| && r < |states[k + 1].runs|
    requires states[k + 1].runs[r].pc.Session? && states[k + 1].runs[r].pc.spot.Writing?
    ensures i < k && Rests(states, actions, i, r) && states[k].clock.now >= states[i].clock.now + o.pingInterval
  {
    hide Step, StepEnabled, TalkNext, TalkEnabled;
    MovesAt(o, states, actions, k, r);
    TalkStays(o, states[k].runs[r], EnvOf(states[k], r), Fire(id));
    WritesPing(o, states[k].runs[r], EnvOf(states[k], r), id);
    i := RestsSince(o, states, actions, k, r);
  }

  // ---- Cancellation ----

  predicate BeingCancelled(pc: Pc) {
    (pc.Leaving? && pc.exit.Cancelled?) || pc.Aborting? || pc.Signing?
  }

  ghost predicate SaysManual(log: seq<Logged>) {
    exists i :: 0 <= i < |log| && log[i].event == Disconnect(Manual)
  }

  lemma ActCancels(o: Options, r: Run, env: Env, a: Act)
    requires Enabled(o, r, env, a)
    ensures Next(o, r, env, a).cancelled == r.cancelled
    ensures BeingCancelled(Next(o, r, env, a).pc) ==> r.cancelled || BeingCancelled(r.pc)
    ensures SaysManual(Next(o, r, env, a).past.log) ==> SaysManual(r.past.log) || BeingCancelled(r.pc)
  {
    hide LifeNext, LifeEnabled, SessNext, SessEnabled, TalkNext, TalkEnabled, SaysManual;
    match a
    case OfLife(l) => LifeCancels(o, r, env, l);
    case OfSess(t) => SessStays(o, r, env, t);
    case OfTalk(t) =>
      TalkStays(o, r, env, t);
      TalkSaysNothing(o, r, env, t);
  }

  lemma LifeCancels(o: Options, r: Run, env: Env, a: Life)
    requires LifeEnabled(o, r, env, a)
    ensures var s := LifeNext(o, r, env, a);
            && s.cancelled == r.cancelled
            && (BeingCancelled(s.pc) ==> r.cancelled || BeingCancelled(r.pc))
            && (SaysManual(s.past.log) ==> SaysManual(r.past.log) || BeingCancelled(r.pc))
  {
    var s := LifeNext(o, r, env, a);
    if SaysManual(s.past.log) {
      var i :| 0 <= i < |s.past.log| && s.past.log[i].event == Disconnect(Manual);
      assert i < |r.past.log| ==> r.past.log[i].event == Disconnect(Manual);
    }
  }

  lemma TalkSaysNothing(o: Options, r: Run, env: Env, a: Talk)
    requires TalkEnabled(o, r, env, a)
    ensures SaysManual(TalkNext(o, r, env, a).past.log) ==> SaysManual(r.past.log)
  {
    var s := TalkNext(o, r, env, a);
    if SaysManual(s.past.log) {
      var i :| 0 <= i < |s.past.log| && s.past.log[i].event == Disconnect(Manual);
      assert i < |r.past.log| && r.past.log[i].event == Disconnect(Manual);
    }
  }

  /** The step at `i` is a `disconnect` or `destroy` that cancels run `r`. */
  ghost predicate Cancels(states: seq<State>, actions: seq<Action>, i: nat, r: nat) {
    && i < |actions| && |states| == |actions| + 1
    && actions[i].OfClose? && actions[i].closeAct == Signal && states[i].gate.slot == Some(r)
  }

  /** A run that is being cancelled, or reports it, was cancelled by a `disconnect` or `destroy` before. */
  lemma {:induction false} CancelledSince(o: Options, states: seq<State>, actions: seq<Action>, k: nat, r: nat) returns (i: nat)
    requires Valid(o) && Execution(o, states, actions) && k <= |actions| && r < |states[k].runs|
    requires states[k].runs[r].cancelled || BeingCancelled(states[k].runs[r].pc) || SaysManual(states[k].runs[r].past.log)
    ensures i < k && Cancels(states, actions, i, r)
    decreases k
  {
    hide Step, StepEnabled, Next, Enabled, CloseNext, CloseEnabled;
    if k > 0 {
      var s, a := states[k - 1], actions[k - 1];
      MovesAt(o, states, actions, k - 1, r);
      if a.OfRun? && a.run == r {
        ActCancels(o, s.runs[r], EnvOf(s, r), a.act);
      }
      if a.OfClose? {
        SignalSeen(o, s, a, r);
      }
      if a.OfClose? && a.closeAct == Signal && s.gate.slot == Some(r) {
        i := k - 1;
      } else {
        if !a.OfClose? && !(a.OfRun? && a.run == r) {
          QuietCancel(o, s, a, states[k], r);
        }
        i := CancelledSince(o, states, actions, k - 1, r);
      }
    }
  }

  lemma SignalSeen(o: Options, s: State, a: Action, r: nat)
    requires StepEnabled(o, s, a) && a.OfClose? && r < |Step(o, s, a).runs|
    ensures r < |s.runs|
    ensures Step(o, s, a).runs[r].cancelled && !s.runs[r].cancelled ==> a.closeAct == Signal && s.gate.slot == Some(r)
  {
    CloseMoves(s, a.closer, a.closeAct, r);
  }

  lemma QuietCancel(o: Options, s: State, a: Action, t: State, r: nat)
    requires StepEnabled(o, s, a) && t == Step(o, s, a) && r < |t.runs| && !a.OfClose? && !(a.OfRun? && a.run == r)
    ensures r < |s.runs| ==> t.runs[r].cancelled == s.runs[r].cancelled
  {
    hide CallNext, CallEnabled, JoinNext, JoinEnabled, RunNext, RunEnabled, Next, Enabled, WorkerOutage.Overrun;
    match a
    case OfCall(id, act) => CallFrames(o, s, id, act);
    case OfJoin(k, act) => JoinFrames(s, k, act);
    case OfRun(q, act) => RunFrames(o, s, q, act);
    case _ =>
  }
}
