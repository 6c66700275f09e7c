/** No caller is told Timeout early, and no SEND is queued but behind a session: over every interleaving. */
module TimeoutTheorems {
  import opened Types
  import opened Worker
  import opened WorkerPlaces
  import opened WorkerDeadlines
  import opened Client
  import opened ClientGate
  import opened ClientCalls
  import opened ClientJoins
  import opened Reachable
  import opened WorkerInvariant
  import WorkerFace
  import WorkerOutage

  ghost predicate RunTimely(r: Run, now: nat) {
    DeadlinesOk(r, now) && (Accepted(r) != [] ==> r.established)
  }

  ghost predicate RunsTimely(s: State) {
    forall r :: 0 <= r < |s.runs| ==> RunTimely(s.runs[r], s.clock.now)
  }

  /** The run in the slot has had a session. */
  ghost predicate Behind(s: State) {
    s.gate.slot.Some? && s.gate.slot.value < |s.runs| && s.runs[s.gate.slot.value].established
  }

  /** Who is connected, or about to enqueue, is behind a session. */
  ghost predicate UpOk(s: State) {
    && (s.flags.connected ==> s.runs != [] && s.runs[|s.runs| - 1].established)
    && (forall id :: id in s.calls && s.calls[id].pc.Enqueue? ==> Behind(s))
  }

  predicate ToldTimeout(c: Call) {
    c.pc == Done(Returned(Err(Timeout)))
  }

  ghost predicate CallersOk(s: State) {
    forall id :: id in s.calls && ToldTimeout(s.calls[id]) ==> s.calls[id].run.Some? && s.calls[id].deadline <= s.clock.now
  }

  ghost predicate TimelyOk(s: State) {
    RunsTimely(s) && UpOk(s) && CallersOk(s)
  }

  // ---- Time and outside steps ----

  lemma LaterTimely(r: Run, now: nat, later: nat)
    requires RunTimely(r, now) && now <= later
    ensures RunTimely(r, later)
  {
    forall id | Due(r.box.popped, id, now) ensures Due(r.box.popped, id, later) {
      var i :| 0 <= i < |r.box.popped| && r.box.popped[i].id == id && r.box.popped[i].deadline <= now;
      assert r.box.popped[i].deadline <= later;
    }
  }

  lemma PushTimely(r: Run, cmd: Command, now: nat)
    requires RunTimely(r, now) && r.established
    ensures RunTimely(Push(r, cmd), now)
  {
  }

  lemma SameBoxTimely(r: Run, s: Run, now: nat)
    requires RunTimely(r, now) && s == r.(cancelled := s.cancelled)
    ensures RunTimely(s, now)
  {
  }

  lemma TickKeepsTimely(o: Options, s: State, d: nat)
    requires TimelyOk(s)
    ensures TimelyOk(TickNext(s, d))
  {
    hide RunTimely, WorkerOutage.Overrun;
    forall r | 0 <= r < |s.runs| ensures RunTimely(s.runs[r], s.clock.now + d) {
      LaterTimely(s.runs[r], s.clock.now, s.clock.now + d);
    }
  }

  // ---- Calls ----

  /** What the worker sent as Timeout, it sent after the deadline. */
  lemma RepliedTimely(o: Options, s: State, id: Id)
    requires Inv(o, s) && RunsTimely(s) && id in s.calls && s.calls[id].reply == Replied(Err(Timeout))
    ensures s.calls[id].run.Some? && s.calls[id].deadline <= s.clock.now
  {
    hide GateOk, JoinsOk, RunsOk, PermitsOk, Due;
    assert CallOk(o, s, id);
    var r := s.calls[id].run.value;
    assert RunCallsOk(s, r) && RunTimely(s.runs[r], s.clock.now);
    var run := s.runs[r];
    var x :| x in run.box.settled && x.id == id;
    var k :| 0 <= k < |run.box.settled| && run.box.settled[k] == x;
    assert Accepted(run) != [];
    assert ReplyFor(run.box.settled[k].fate) == Replied(Err(Timeout));
    assert Due(run.box.popped, id, s.clock.now);
    DueDeadline(o, s, r, id);
  }

  lemma DueDeadline(o: Options, s: State, r: nat, id: Id)
    requires CallsOk(o, s) && r < |s.runs| && id in s.calls && Due(s.runs[r].box.popped, id, s.clock.now)
    ensures s.calls[id].deadline <= s.clock.now
  {
    var popped := s.runs[r].box.popped;
    var i :| 0 <= i < |popped| && popped[i].id == id && popped[i].deadline <= s.clock.now;
    assert RunCallsOk(s, r);
    assert popped[i] in Accepted(s.runs[r]);
    assert CommandOk(s, r, popped[i]);
  }

  lemma CallRunsTimely(o: Options, s: State, id: Id, t: State)
    requires RunsTimely(s) && UpOk(s) && CallFrame(s, id, t) && CallEffect(o, s, id, t)
    ensures RunsTimely(t)
  {
    hide RunTimely;
    if t.runs != s.runs {
      var r := t.calls[id].run.value;
      PushTimely(s.runs[r], CommandOf(id, s.calls[id]), s.clock.now);
    }
  }

  /** A call gets to `try_send` only by a step that finds `connected` true. */
  lemma CallSees(o: Options, s: State, id: Id, a: CallAct)
    requires CallEnabled(s, id, a) && CallNext(o, s, id, a).calls[id].pc.Enqueue?
    ensures a.CheckAgain? && s.flags.connected
  {
  }

  lemma ConnectedBehind(s: State)
    requires SlotOk(s) && FlagsOk(s) && UpOk(s) && s.flags.connected
    ensures Behind(s)
  {
  }

  lemma StaysBehind(o: Options, s: State, id: Id, t: State)
    requires CallFrame(s, id, t) && CallEffect(o, s, id, t)
    ensures Behind(s) ==> Behind(t)
    ensures s.runs != [] && s.runs[|s.runs| - 1].established ==> t.runs[|t.runs| - 1].established
  {
  }

  lemma CallKeepsUp(o: Options, s: State, id: Id, a: CallAct)
    requires SlotOk(s) && FlagsOk(s) && UpOk(s) && CallEnabled(s, id, a)
    requires CallFrame(s, id, CallNext(o, s, id, a)) && CallEffect(o, s, id, CallNext(o, s, id, a))
    ensures UpOk(CallNext(o, s, id, a))
  {
    hide CallNext, CallEffect, CallEnabled, Behind, SlotOk, FlagsOk;
    var t := CallNext(o, s, id, a);
    StaysBehind(o, s, id, t);
    if t.calls[id].pc.Enqueue? {
      CallSees(o, s, id, a);
      ConnectedBehind(s);
    }
  }

  /** What a step that tells Timeout does to the call. */
  lemma CallTold(o: Options, s: State, id: Id, a: CallAct, t: State)
    requires CallEnabled(s, id, a) && t == CallNext(o, s, id, a) && id in t.calls && ToldTimeout(t.calls[id])
    ensures var c, d := s.calls[id], t.calls[id];
            && d.run == c.run && d.deadline == c.deadline
            && (ToldTimeout(c) || (c.pc.Await? && (c.reply == Replied(Err(Timeout)) || c.deadline <= s.clock.now)))
  {
    hide CommandOf, Push, TrySending;
    if a.TrySend? {
      TrySendingTells(o, s, id, s.calls[id]);
    }
  }

  lemma TrySendingTells(o: Options, s: State, id: Id, c: Call)
    ensures var t := TrySending(o, s, id, c);
            id in t.calls && !ToldTimeout(t.calls[id])
  {
    hide CommandOf, Push;
  }

  lemma CallToldTimely(o: Options, s: State, id: Id, a: CallAct, t: State)
    requires Inv(o, s) && CallersOk(s) && RunsTimely(s)
    requires CallEnabled(s, id, a) && t == CallNext(o, s, id, a) && id in t.calls && ToldTimeout(t.calls[id])
    ensures t.calls[id].run.Some? && t.calls[id].deadline <= s.clock.now
  {
    hide GateOk, JoinsOk, RunsOk, PermitsOk, RunTimely, RunsTimely, RunCallsOk, CallNext;
    assert CallOk(o, s, id);
    CallTold(o, s, id, a, t);
    if s.calls[id].reply == Replied(Err(Timeout)) {
      RepliedTimely(o, s, id);
    }
  }

  lemma CallKeepsTimely(o: Options, s: State, id: Id, a: CallAct)
    requires Inv(o, s) && TimelyOk(s) && CallEnabled(s, id, a)
    ensures TimelyOk(CallNext(o, s, id, a))
  {
    hide JoinsOk, RunsOk, PermitsOk, RunTimely, RunCallsOk, CallNext, CallEnabled, LockOk, DestroyOk, CallEffect, RunsTimely, UpOk;
    var t := CallNext(o, s, id, a);
    CallFrames(o, s, id, a);
    assert CallOk(o, s, id);
    CallEffects(o, s, id, a);
    CallRunsTimely(o, s, id, t);
    CallKeepsUp(o, s, id, a);
    if ToldTimeout(t.calls[id]) {
      CallToldTimely(o, s, id, a, t);
    }
  }

  // ---- Connects and closes ----

  lemma NewTimely(generation: nat, now: nat)
    ensures RunTimely(NewRun(generation), now)
  {
  }

  lemma JoinKeepsTimely(o: Options, s: State, k: nat, a: JoinAct)
    requires GateOk(s) && TimelyOk(s) && JoinEnabled(s, k, a)
    ensures TimelyOk(JoinNext(s, k, a))
  {
    hide RunTimely, JoinNext, JoinEnabled, DestroyOk;
    JoinFrames(s, k, a);
    NewTimely(s.flags.generation, s.clock.now);
  }

  lemma CloseKeepsTimely(o: Options, s: State, k: nat, a: CloseAct)
    requires GateOk(s) && TimelyOk(s) && CloseEnabled(s, k, a)
    ensures TimelyOk(CloseNext(s, k, a))
  {
    hide RunTimely, CloseNext, CloseEnabled, DestroyOk;
    CloseFrames(s, k, a);
    CloseEffects(s, k, a);
    if s.runs != [] {
      SameBoxTimely(s.runs[|s.runs| - 1], s.runs[|s.runs| - 1].(cancelled := true), s.clock.now);
    }
  }

  // ---- Runs ----

  lemma StepEstablished(o: Options, r: Run, env: Env, a: Act)
    requires Enabled(o, r, env, a) && WorkerFace.FaceOk(r)
    ensures r.established ==> Next(o, r, env, a).established
    ensures Stores(a) == Some(true) ==> Next(o, r, env, a).established
  {
  }

  lemma ActTimely(o: Options, s: State, r: nat, a: Act)
    requires Inv(o, s) && RunsTimely(s) && RunEnabled(o, s, r, a)
    ensures RunTimely(Next(o, s.runs[r], EnvOf(s, r), a), s.clock.now)
  {
    hide RunOk, Next, Enabled, MoveOf, DeadlinesOk, GateOk, JoinsOk, CallsOk, PermitsOk;
    var run, env := s.runs[r], EnvOf(s, r);
    assert RunTimely(run, s.clock.now);
    RunPlaces(o, s, r);
    RunFaces(o, s, r);
    StepKeepsDeadlines(o, run, env, a);
    StepMoves(o, run, env, a);
    MoveKeepsPlaces(run, MoveOf(o, run, env, a), Next(o, run, env, a));
    StepEstablished(o, run, env, a);
  }

  lemma RunFaces(o: Options, s: State, r: nat)
    requires RunsOk(o, s) && r < |s.runs|
    ensures WorkerFace.FaceOk(s.runs[r])
  {
    assert RunOk(o, s.runs[r], s.clock.now, s.clock.late);
  }

  lemma RunKeepsTimely(o: Options, s: State, r: nat, a: Act)
    requires Inv(o, s) && TimelyOk(s) && RunEnabled(o, s, r, a)
    ensures TimelyOk(RunNext(o, s, r, a))
  {
    hide RunOk, Next, Enabled, RunTimely, JoinsOk, CallsOk, PermitsOk, RunNext, LockOk, DestroyOk, WorkerFace.FaceOk;
    var t := RunNext(o, s, r, a);
    LiveRunIsLast(o, s, r, a);
    ActTimely(o, s, r, a);
    RunFrames(o, s, r, a);
    RunFaces(o, s, r);
    StepEstablished(o, s.runs[r], EnvOf(s, r), a);
    RunConnected(o, s, r, a);
  }

  lemma RunConnected(o: Options, s: State, r: nat, a: Act)
    requires RunEnabled(o, s, r, a)
    ensures RunNext(o, s, r, a).flags.connected ==> s.flags.connected || Stores(a) == Some(true)
  {
    hide Next, Enabled;
  }

  // ---- Every interleaving ----

  lemma StepKeepsTimely(o: Options, s: State, a: Action)
    requires Inv(o, s) && TimelyOk(s) && StepEnabled(o, s, a)
    ensures TimelyOk(Step(o, s, a))
  {
    hide Inv, TimelyOk, CallNext, JoinNext, CloseNext, RunNext, TickNext, CallEnabled, JoinEnabled, CloseEnabled, RunEnabled;
    match a
    case Tick(d) => TickKeepsTimely(o, s, d);
    case OfCall(id, act) => CallKeepsTimely(o, s, id, act);
    case OfJoin(k, act) =>
      InvGate(o, s);
      JoinKeepsTimely(o, s, k, act);
    case OfClose(k, act) =>
      InvGate(o, s);
      CloseKeepsTimely(o, s, k, act);
    case OfRun(r, act) => RunKeepsTimely(o, s, r, act);
    case _ => StartKeepsTimely(o, s, a);
  }

  lemma InvGate(o: Options, s: State)
    requires Inv(o, s)
    ensures GateOk(s)
  {
  }

  lemma StartKeepsTimely(o: Options, s: State, a: Action)
    requires Inv(o, s) && TimelyOk(s) && StepEnabled(o, s, a) && (a.StartCall? || a.StartJoin? || a.StartClose?)
    ensures TimelyOk(Step(o, s, a))
  {
    hide RunOk, RunTimely, CallOk, RunCallsOk, PermitsOk, JoinsOk, GateOk;
  }

  lemma {:induction false} ExecutionTimely(o: Options, states: seq<State>, actions: seq<Action>, i: nat)
    requires Valid(o) && Execution(o, states, actions) && i <= |actions|
    ensures TimelyOk(states[i])
  {
    hide Step, StepEnabled, Inv, TimelyOk;
    if i == 0 {
      InitialTimely(o);
    } else {
      ExecutionTimely(o, states, actions, i - 1);
      ExecutionOk(o, states, actions, i - 1);
      StepKeepsTimely(o, states[i - 1], actions[i - 1]);
    }
  }

  lemma InitialTimely(o: Options)
    ensures TimelyOk(InitialState(o))
  {
  }

  lemma ReachedTimely(o: Options, s: State)
    requires Valid(o) && Reached(o, s)
    ensures TimelyOk(s)
  {
    hide TimelyOk;
    var states: seq<State>, actions: seq<Action> :| Execution(o, states, actions) && states[|actions|] == s;
    ExecutionTimely(o, states, actions, |actions|);
  }

  /** A caller that returns Timeout had enqueued its SEND and waited out its deadline, whoever told it. */
  lemma TimeoutIsNeverEarly(o: Options, s: State, id: Id)
    requires Valid(o) && Reached(o, s) && id in s.calls && s.calls[id].pc == Done(Returned(Err(Timeout)))
    ensures s.calls[id].run.Some? && s.calls[id].deadline <= s.clock.now
  {
    ReachedTimely(o, s);
  }

  /** A caller about to enqueue has a run in the slot that has had a session: the fallback for an empty slot is dead. */
  lemma EnqueueBehindSession(o: Options, s: State, id: Id)
    requires Valid(o) && Reached(o, s) && id in s.calls && s.calls[id].pc.Enqueue?
    ensures Behind(s)
  {
    ReachedTimely(o, s);
  }

  /** A run that never had a session never held a SEND. */
  lemma NoSessionNoSend(o: Options, s: State, r: nat)
    requires Valid(o) && Reached(o, s) && r < |s.runs| && !s.runs[r].established
    ensures Accepted(s.runs[r]) == [] && s.runs[r].box.settled == []
  {
    hide Inv;
    ReachedTimely(o, s);
    assert RunTimely(s.runs[r], s.clock.now);
    ReachedOk(o, s);
    SettledOfAccepted(o, s, r);
  }

  lemma SettledOfAccepted(o: Options, s: State, r: nat)
    requires Inv(o, s) && r < |s.runs| && Accepted(s.runs[r]) == []
    ensures s.runs[r].box.settled == []
  {
    RunPlaces(o, s, r);
    assert SettledIds(s.runs[r].box.settled) <= Ids(s.runs[r].box.popped);
    FirstSettled(s.runs[r].box.settled);
  }

  lemma FirstSettled(ss: seq<Settled>)
    ensures ss != [] ==> ss[0].id in SettledIds(ss)
  {
    assert ss != [] ==> ss[0] in ss;
  }
}
