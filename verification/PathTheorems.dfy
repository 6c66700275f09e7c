/** The two models of the worker agree: every run inside the client goes only where the worker on its own can go. */
module PathTheorems {
  import opened Types
  import opened Worker
  import opened WorkerOutage
  import opened WorkerPath
  import opened Client
  import opened ClientGate
  import opened ClientCalls
  import opened ClientJoins
  import opened Reachable

  /** What the client's state says about the surroundings of its last run. */
  ghost predicate Surrounds(s: State, y: Situation) {
    && y.now == s.clock.now && y.late == s.clock.late
    && y.drawn <= s.ids
    && forall id :: id in s.calls && s.calls[id].run.None? ==> id !in y.drawn
  }

  ghost predicate Witness(o: Options, s: State, r: nat, g: nat, hs: seq<Happening>, y: Situation)
    requires r < |s.runs|
  {
    Path(o, g, hs, y) && y.run == s.runs[r] && (r == |s.runs| - 1 ==> Surrounds(s, y))
  }

  ghost predicate OnPath(o: Options, s: State, r: nat)
    requires r < |s.runs|
  {
    exists g, hs, y :: Witness(o, s, r, g, hs, y)
  }

  ghost predicate AllOnPath(o: Options, s: State) {
    forall r :: 0 <= r < |s.runs| ==> OnPath(o, s, r)
  }

  /** A run that a step leaves alone stays on its path. */
  lemma StaysOnPath(o: Options, s: State, t: State, r: nat)
    requires r < |s.runs| && r < |t.runs| && OnPath(o, s, r) && t.runs[r] == s.runs[r]
    requires r == |t.runs| - 1 ==> r == |s.runs| - 1 && t.clock == s.clock && s.ids <= t.ids
    requires r == |t.runs| - 1 ==>
               forall id :: id in t.calls && t.calls[id].run.None? ==> id !in s.ids || (id in s.calls && s.calls[id].run.None?)
    ensures OnPath(o, t, r)
  {
    hide Path;
    var g, hs, y :| Witness(o, s, r, g, hs, y);
    assert Witness(o, t, r, g, hs, y);
  }

  /** The last run's path goes on by what happens to it. */
  lemma GoesOn(o: Options, s: State, t: State, h: Happening)
    requires s.runs != [] && OnPath(o, s, |s.runs| - 1) && |t.runs| == |s.runs|
    requires forall y: Situation {:trigger Surrounds(s, y)} :: y.run == s.runs[|s.runs| - 1] && Surrounds(s, y) ==>
               Possible(o, y, h) && Onward(o, y, h).run == t.runs[|s.runs| - 1] && Surrounds(t, Onward(o, y, h))
    ensures OnPath(o, t, |t.runs| - 1)
  {
    hide Path, Possible, Onward, Surrounds;
    var last := |s.runs| - 1;
    var g, hs, y :| Witness(o, s, last, g, hs, y);
    PathStep(o, g, hs, y, h);
    assert Witness(o, t, last, g, hs + [h], Onward(o, y, h));
  }

  lemma NewOnPath(o: Options, t: State, g: nat)
    requires t.runs != [] && t.runs[|t.runs| - 1] == NewRun(g)
    ensures OnPath(o, t, |t.runs| - 1)
  {
    var y := Situation(NewRun(g), t.clock.now, t.clock.late, {});
    assert Path(o, g, [], y);
    assert Witness(o, t, |t.runs| - 1, g, [], y);
  }

  // ---- Steps ----

  lemma TickOnPath(o: Options, s: State, d: nat)
    requires AllOnPath(o, s)
    ensures AllOnPath(o, TickNext(s, d))
  {
    hide OnPath, Overrun;
    var t := TickNext(s, d);
    forall r | 0 <= r < |t.runs| ensures OnPath(o, t, r) {
      if r == |t.runs| - 1 {
        GoesOn(o, s, t, Passes(d));
      } else {
        StaysOnPath(o, s, t, r);
      }
    }
  }

  lemma CallOnPath(o: Options, s: State, id: Id, a: CallAct)
    requires Inv(o, s) && AllOnPath(o, s) && CallEnabled(s, id, a)
    ensures AllOnPath(o, CallNext(o, s, id, a))
  {
    hide OnPath, JoinsOk, RunsOk, PermitsOk, LockOk, DestroyOk, FlagsOk, CallNext, CallEnabled, RunCallsOk;
    var t := CallNext(o, s, id, a);
    CallFrames(o, s, id, a);
    assert CallOk(o, s, id);
    CallEffects(o, s, id, a);
    forall r | 0 <= r < |t.runs| ensures OnPath(o, t, r) {
      if t.runs[r] == s.runs[r] {
        StaysOnPath(o, s, t, r);
      } else {
        GoesOn(o, s, t, Arrives(CommandOf(id, s.calls[id])));
      }
    }
  }

  lemma JoinOnPath(o: Options, s: State, k: nat, a: JoinAct)
    requires GateOk(s) && AllOnPath(o, s) && JoinEnabled(s, k, a)
    ensures AllOnPath(o, JoinNext(s, k, a))
  {
    hide OnPath, JoinNext, JoinEnabled, GateOk;
    var t := JoinNext(s, k, a);
    JoinFrames(s, k, a);
    forall r | 0 <= r < |t.runs| ensures OnPath(o, t, r) {
      if r < |s.runs| {
        StaysOnPath(o, s, t, r);
      } else {
        NewOnPath(o, t, s.flags.generation);
      }
    }
  }

  lemma CloseOnPath(o: Options, s: State, k: nat, a: CloseAct)
    requires GateOk(s) && AllOnPath(o, s) && CloseEnabled(s, k, a)
    ensures AllOnPath(o, CloseNext(s, k, a))
  {
    hide OnPath, CloseNext, CloseEnabled, LockOk, DestroyOk, FlagsOk;
    var t := CloseNext(s, k, a);
    CloseFrames(s, k, a);
    CloseEffects(s, k, a);
    forall r | 0 <= r < |t.runs| ensures OnPath(o, t, r) {
      if t.runs[r] == s.runs[r] {
        StaysOnPath(o, s, t, r);
      } else {
        GoesOn(o, s, t, Signalled);
      }
    }
  }

  lemma EnvAgrees(o: Options, s: State, r: nat, a: Act, y: Situation)
    requires GateOk(s) && RunEnabled(o, s, r, a) && y.run == s.runs[r] && Surrounds(s, y)
    ensures EnvIn(y, EnvOf(s, r).closed) == EnvOf(s, r)
  {
    hide Enabled;
    LiveRunIsLast(o, s, r, a);
  }

  lemma RunOnPath(o: Options, s: State, r: nat, a: Act)
    requires GateOk(s) && CallsOk(o, s) && AllOnPath(o, s) && RunEnabled(o, s, r, a)
    ensures AllOnPath(o, RunNext(o, s, r, a))
  {
    hide OnPath, Next, Enabled, LockOk, DestroyOk, FlagsOk, CallOk, RunCallsOk, Path;
    var t, gone := RunNext(o, s, r, a), EnvOf(s, r).closed;
    LiveRunIsLast(o, s, r, a);
    RunFrames(o, s, r, a);
    forall y: Situation {:trigger Surrounds(s, y)} | y.run == s.runs[r] && Surrounds(s, y)
      ensures Possible(o, y, Acts(a, gone)) && Onward(o, y, Acts(a, gone)).run == t.runs[r]
      ensures Surrounds(t, Onward(o, y, Acts(a, gone)))
    {
      ActsOnward(o, s, r, a, y);
    }
    forall q | 0 <= q < |t.runs| ensures OnPath(o, t, q) {
      if q == r {
        GoesOn(o, s, t, Acts(a, gone));
      } else {
        StaysOnPath(o, s, t, q);
      }
    }
  }

  lemma ActsOnward(o: Options, s: State, r: nat, a: Act, y: Situation)
    requires GateOk(s) && CallsOk(o, s) && RunEnabled(o, s, r, a) && y.run == s.runs[r] && Surrounds(s, y)
    ensures var h, t := Acts(a, EnvOf(s, r).closed), RunNext(o, s, r, a);
            Possible(o, y, h) && Onward(o, y, h).run == t.runs[r] && Surrounds(t, Onward(o, y, h))
  {
    hide Next, Enabled, GateOk, CallOk, RunCallsOk;
    EnvAgrees(o, s, r, a, y);
    RunFrames(o, s, r, a);
    DrawnKnown(o, s, r, a);
  }

  lemma DrawnKnown(o: Options, s: State, r: nat, a: Act)
    requires RunEnabled(o, s, r, a)
    ensures RunNext(o, s, r, a).ids == s.ids + Drawing(a) && Drawing(a) !! s.ids
  {
    hide Next, Enabled;
  }

  // ---- Every interleaving ----

  lemma StepOnPath(o: Options, s: State, a: Action)
    requires Inv(o, s) && AllOnPath(o, s) && StepEnabled(o, s, a)
    ensures AllOnPath(o, Step(o, s, a))
  {
    hide AllOnPath, CallNext, JoinNext, CloseNext, RunNext, TickNext, CallEnabled, JoinEnabled, CloseEnabled, RunEnabled;
    hide GateOk, RunsOk, CallsOk, PermitsOk, JoinsOk;
    match a
    case Tick(d) => TickOnPath(o, s, d);
    case OfCall(id, act) => CallOnPath(o, s, id, act);
    case OfJoin(k, act) => JoinOnPath(o, s, k, act);
    case OfClose(k, act) => CloseOnPath(o, s, k, act);
    case OfRun(r, act) => RunOnPath(o, s, r, act);
    case _ => StartOnPath(o, s, a);
  }

  lemma StartOnPath(o: Options, s: State, a: Action)
    requires AllOnPath(o, s) && StepEnabled(o, s, a) && (a.StartCall? || a.StartJoin? || a.StartClose?)
    ensures AllOnPath(o, Step(o, s, a))
  {
    hide OnPath;
    var t := Step(o, s, a);
    forall r | 0 <= r < |t.runs| ensures OnPath(o, t, r) {
      StaysOnPath(o, s, t, r);
    }
  }

  lemma {:induction false} ExecutionOnPath(o: Options, states: seq<State>, actions: seq<Action>, i: nat)
    requires Valid(o) && Execution(o, states, actions) && i <= |actions|
    ensures AllOnPath(o, states[i])
  {
    hide Step, StepEnabled, Inv, OnPath;
    if i > 0 {
      ExecutionOnPath(o, states, actions, i - 1);
      ExecutionOk(o, states, actions, i - 1);
      StepOnPath(o, states[i - 1], actions[i - 1]);
    }
  }

  /** Every run of every reachable client state is where some path of the worker's own machine leads. */
  lemma EveryRunOnPath(o: Options, s: State, r: nat)
    requires Valid(o) && Reached(o, s) && r < |s.runs|
    ensures exists g, hs, y :: Path(o, g, hs, y) && y.run == s.runs[r]
  {
    hide Path;
    var states: seq<State>, actions: seq<Action> :| Execution(o, states, actions) && states[|actions|] == s;
    ExecutionOnPath(o, states, actions, |actions|);
    assert OnPath(o, s, r);
    var g, hs, y :| Witness(o, s, r, g, hs, y);
    assert Path(o, g, hs, y) && y.run == s.runs[r];
  }
}
