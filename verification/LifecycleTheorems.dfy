/** Runs, connects, disconnects and destroys over every interleaving. */
module LifecycleTheorems {
  import opened Types
  import opened Events
  import opened Worker
  import opened WorkerConnects
  import opened WorkerFace
  import opened WorkerInvariant
  import opened WorkerLog
  import opened WorkerOutage
  import opened Client
  import opened ClientGate
  import opened ClientCalls
  import opened ClientJoins
  import opened Reachable

  // ---- One worker ----

  /** At most one worker is unfinished, and it is the one in the slot. */
  lemma SingleLiveWorker(o: Options, s: State, r: nat, q: nat)
    requires Valid(o) && Reached(o, s) && r < |s.runs| && q < |s.runs|
    requires !s.runs[r].pc.Finished? && !s.runs[q].pc.Finished?
    ensures r == q && s.gate.slot == Some(r)
  {
    hide RunOk;
    ReachedOk(o, s);
  }

  /** `connected` says that the live worker is in a session or leaving it, and a session says `connected`. */
  lemma ConnectedMeansSession(o: Options, s: State)
    requires Valid(o) && Reached(o, s)
    ensures s.flags.connected ==> s.runs != [] && MayBeUp(s.runs[|s.runs| - 1].pc)
    ensures forall r :: 0 <= r < |s.runs| && s.runs[r].pc.Session? ==>
              s.flags.connected && s.runs[r].socket == s.flags.generation
  {
    hide TrafficOk, JoinsOk, LockOk, DestroyOk, Reached;
    ReachedOk(o, s);
  }

  /** When the slot is empty no worker lives and the client is not connected: teardown is complete. */
  lemma EmptySlotMeansQuiet(o: Options, s: State)
    requires Valid(o) && Reached(o, s) && s.gate.slot.None?
    ensures AllFinished(s) && !s.flags.connected
  {
    hide RunOk;
    ReachedOk(o, s);
  }

  /** The command channel of a live run keeps its sender, so `recv` never finds it gone. */
  lemma SendersHeld(o: Options, s: State, r: nat)
    requires Valid(o) && Reached(o, s)
    ensures !RunEnabled(o, s, r, OfTalk(Orphan))
  {
    hide RunOk;
    ReachedOk(o, s);
  }

  lemma DestroyedStays(o: Options, s: State, a: Action, k: nat)
    requires StepEnabled(o, s, a) && k in s.closes && s.closes[k] == Close(Closed, true)
    ensures k in Step(o, s, a).closes && Step(o, s, a).closes[k] == Close(Closed, true)
  {
    hide Next, Enabled, CallNext, CallEnabled, JoinNext, JoinEnabled, RunNext;
    match a
    case OfCall(id, act) => CallFrames(o, s, id, act);
    case OfJoin(i, act) => JoinFrames(s, i, act);
    case OfRun(r, act) => RunFrames(o, s, r, act);
    case _ =>
  }

  /** Once a `destroy` has completed, no later state has a live worker or is connected. */
  lemma {:induction false} DestroyIsFinal(o: Options, states: seq<State>, actions: seq<Action>, i: nat, j: nat, k: nat)
    requires Valid(o) && Execution(o, states, actions) && i <= j <= |actions|
    requires k in states[i].closes && states[i].closes[k] == Close(Closed, true)
    ensures k in states[j].closes && states[j].closes[k] == Close(Closed, true)
    ensures AllFinished(states[j]) && !states[j].flags.connected && states[j].flags.destroyed
    decreases j
  {
    hide Step, StepEnabled, RunOk, CallOk, RunCallsOk;
    if i < j {
      DestroyIsFinal(o, states, actions, i, j - 1, k);
      DestroyedStays(o, states[j - 1], actions[j - 1], k);
    }
    ExecutionOk(o, states, actions, j);
    DestroyedQuiet(states[j], k);
  }

  lemma DestroyedQuiet(s: State, k: nat)
    requires GateOk(s) && k in s.closes && s.closes[k] == Close(Closed, true)
    ensures AllFinished(s) && !s.flags.connected && s.flags.destroyed
  {
  }

  /** `send` after a completed `destroy` fails at once, and `connect` at its check. */
  lemma DestroyedRefuses(o: Options, s: State, k: nat, id: Id, j: nat)
    requires Valid(o) && Reached(o, s) && k in s.closes && s.closes[k] == Close(Closed, true)
    ensures CallEnabled(s, id, CheckDestroyed) ==>
              CallNext(o, s, id, CheckDestroyed).calls[id].pc == Done(Returned(Err(Destroyed)))
    ensures JoinEnabled(s, j, JoinCheck) ==> JoinNext(s, j, JoinCheck).joins[j].pc == Joined(Err(Destroyed))
    ensures !JoinEnabled(s, j, JoinRun(true))
  {
    hide RunOk, CallOk, RunCallsOk, JoinsOk;
    ReachedOk(o, s);
    DestroyedQuiet(s, k);
  }

  // ---- Connect callers ----

  /** All callers that started or joined a run's first attempt return the same value, the run's first result. */
  lemma FirstAttemptAgrees(o: Options, s: State, k: nat, i: nat)
    requires Valid(o) && Reached(o, s) && k in s.joins && i in s.joins
    requires s.joins[k].initial && s.joins[i].initial && s.joins[k].run == s.joins[i].run && s.joins[k].run.Some?
    requires s.joins[k].pc.Joined? && s.joins[i].pc.Joined?
    ensures s.joins[k].pc.result == s.joins[i].pc.result
    ensures s.joins[k].run.value < |s.runs| && s.runs[s.joins[k].run.value].face.first == Some(s.joins[k].pc.result)
  {
    hide RunOk, GateOk, CallOk, RunCallsOk;
    ReachedOk(o, s);
    assert JoinOk(s, s.joins[k]) && JoinOk(s, s.joins[i]);
  }

  /** A caller that comes too late for a failed first attempt still returns its error, read from the status. */
  lemma LateCallerAgrees(o: Options, s: State, k: nat)
    requires Valid(o) && Reached(o, s) && k in s.joins && s.joins[k].pc.Joined? && s.joins[k].run.Some?
    ensures s.joins[k].run.value < |s.runs|
    ensures var first := s.runs[s.joins[k].run.value].face.first;
            first.Some? && first.value.Err? ==> s.joins[k].pc.result == Err(first.value.error)
  {
    hide RunOk, GateOk, CallOk, RunCallsOk;
    ReachedOk(o, s);
    assert JoinOk(s, s.joins[k]);
  }

  /**
   * Nobody sleeps through an answer: a waiting caller is due to wake when the first result is out, or, if late, when
   * the run is ready or has failed; so when it is finished. No caller falls back.
   */
  lemma EveryCallerAnswered(o: Options, s: State, k: nat)
    requires Valid(o) && Reached(o, s) && k in s.joins && s.joins[k].pc.Sleeping?
    ensures HasRun(s, s.joins[k])
    ensures var run := s.runs[s.joins[k].run.value];
            || run.pc.Finished?
            || (if s.joins[k].initial then run.face.first.Some? else !run.face.status.Connecting?)
            ==> JoinEnabled(s, k, JoinAct.Wake)
    ensures !JoinEnabled(s, k, SendersGone)
  {
    hide RunOk, GateOk, CallOk, RunCallsOk;
    ReachedOk(o, s);
    FallbackUnreachable(o, s, k);
    assert JoinOk(s, s.joins[k]);
  }

  /** The first result is written once: present in every finished run, and never changed by any step. */
  lemma FirstResultOnce(o: Options, s: State, a: Action, r: nat)
    requires Inv(o, s) && StepEnabled(o, s, a) && r < |s.runs|
    ensures r < |Step(o, s, a).runs|
    ensures s.runs[r].face.first.Some? ==> Step(o, s, a).runs[r].face.first == s.runs[r].face.first
    ensures s.runs[r].pc.Finished? ==> s.runs[r].face.first.Some? && s.runs[r].face.status.Failed?
  {
    hide RunOk, GateOk, CallOk, RunCallsOk, Step, StepEnabled;
    StepFaces(o, s, a);
    RunFace(o, s, r);
  }

  // ---- What a caller of connect is told, by the run's events ----

  /** The last Connect reported. */
  ghost predicate LastConnectAt(log: seq<Logged>, e: nat, x: ConnectResult) {
    e < |log| && log[e].event == Connect(x) && forall i :: e < i < |log| ==> !log[i].event.Connect?
  }

  ghost predicate FirstConnectAt(log: seq<Logged>, e: nat, x: ConnectResult) {
    e < |log| && log[e].event == Connect(x) && forall i :: 0 <= i < e ==> !log[i].event.Connect?
  }

  lemma {:induction false} LastOfConnects(log: seq<Logged>) returns (e: nat)
    requires Connects(log) != []
    ensures LastConnectAt(log, e, Connects(log)[|Connects(log)| - 1])
  {
    var n := |log| - 1;
    if log[n].event.Connect? {
      e := n;
    } else {
      e := LastOfConnects(log[..n]);
    }
  }

  lemma {:induction false} NoConnects(log: seq<Logged>)
    requires Connects(log) == []
    ensures forall i :: 0 <= i < |log| ==> !log[i].event.Connect?
  {
    if log != [] {
      NoConnects(log[..|log| - 1]);
    }
  }

  lemma {:induction false} FirstOfConnects(log: seq<Logged>) returns (e: nat)
    requires Connects(log) != []
    ensures FirstConnectAt(log, e, Connects(log)[0])
  {
    var n := |log| - 1;
    var before := log[..n];
    if Connects(before) == [] {
      NoConnects(before);
      e := n;
    } else {
      e := FirstOfConnects(before);
    }
  }

  /** `x` is what the run authenticated with last: its last Connect, or the one about to be reported. */
  ghost predicate NowConnectedAs(r: Run, x: ConnectResult) {
    if r.pc.Announced? || r.pc.Greeted? then r.pc.result == x else exists e :: LastConnectAt(r.past.log, e, x)
  }

  /** `x` is what the run authenticated with first. */
  ghost predicate FirstConnectedAs(r: Run, x: ConnectResult) {
    || (exists e :: FirstConnectAt(r.past.log, e, x))
    || ((r.pc.Announced? || r.pc.Greeted?) && r.pc.result == x && forall i :: 0 <= i < |r.past.log| ==> !r.past.log[i].event.Connect?)
  }

  /** Only a caller's own steps change its record. */
  lemma OwnJoinStep(o: Options, s: State, a: Action, k: nat)
    requires StepEnabled(o, s, a) && k in s.joins
    requires k in Step(o, s, a).joins && Step(o, s, a).joins[k] != s.joins[k]
    ensures a.OfJoin? && a.of == k
  {
    hide CallNext, CallEnabled, JoinNext, JoinEnabled, CloseNext, CloseEnabled, RunNext, RunEnabled, Overrun;
    match a
    case OfCall(id, act) => CallFrames(o, s, id, act);
    case OfJoin(i, act) => JoinFrames(s, i, act);
    case OfClose(i, act) => CloseFrames(s, i, act);
    case OfRun(r, act) => RunFrames(o, s, r, act);
    case _ =>
  }

  /** What a caller that was not in the lock is answered from. */
  ghost predicate ReadFrom(j: Join, t: Join, face: Face) {
    && t.pc.Joined? && t.run == j.run && t.initial == j.initial
    && if j.initial then face.first == Some(t.pc.result)
       else match t.pc.result case Ok(x) => face.status == Ready(x) case Err(e) => face.status == Failed(e)
  }

  lemma AnswerSeen(s: State, k: nat, a: JoinAct)
    requires JoinEnabled(s, k, a) && !s.joins[k].pc.Joined? && !a.SendersGone?
    requires s.joins[k].run.Some? ==> !JoinLocks(s.joins[k].pc)
    requires JoinNext(s, k, a).joins[k].pc.Joined? && JoinNext(s, k, a).joins[k].run.Some?
    ensures HasRun(s, s.joins[k])
    ensures ReadFrom(s.joins[k], JoinNext(s, k, a).joins[k], s.runs[s.joins[k].run.value].face)
  {
  }

  lemma RunWords(o: Options, s: State, r: nat)
    requires Valid(o) && Reached(o, s) && r < |s.runs|
    ensures ConnectsOk(s.runs[r]) && FaceOk(s.runs[r]) && LogOk(o, s.runs[r])
  {
    hide CommandsOk, SessionOk, LogOk, FaceOk, OutageOk, CallsOk, PermitsOk, GateOk, JoinsOk, Reached, ConnectsOk;
    ReachedOk(o, s);
    assert RunOk(o, s.runs[r], s.clock.now, s.clock.late);
  }

  /**
   * A caller that arrives after the first attempt is told the present: the result of the run's latest
   * authentication while it is ready, or the error its last event reports once it has failed.
   */
  lemma LateCallerToldNow(o: Options, states: seq<State>, actions: seq<Action>, i: nat, k: nat)
    requires Valid(o) && Execution(o, states, actions) && i < |actions|
    requires k in states[i].joins && !states[i].joins[k].pc.Joined?
    requires k in states[i + 1].joins && states[i + 1].joins[k].pc.Joined? && states[i + 1].joins[k].run.Some? && !states[i + 1].joins[k].initial
    ensures states[i].joins[k].run.Some? && states[i].joins[k].run.value < |states[i].runs|
    ensures var run := states[i].runs[states[i].joins[k].run.value];
            match states[i + 1].joins[k].pc.result
            case Ok(x) => run.face.status.Ready? && NowConnectedAs(run, x)
            case Err(e) => run.face.status.Failed? && Told(run, e)
  {
    hide Step, StepEnabled, Inv, Reached, FaceOk, LogOk;
    Answered(o, states, actions, i, k);
    var r := states[i].joins[k].run.value;
    RunWords(o, states[i], r);
    match states[i + 1].joins[k].pc.result
    case Ok(x) => ReadyIsNow(states[i].runs[r], x);
    case Err(e) => FailedIsTold(o, states[i].runs[r], e);
  }

  /** A caller of the first attempt is told how it ended: the run's first authentication, or the error its last event reports. */
  lemma FirstCallerToldFirst(o: Options, states: seq<State>, actions: seq<Action>, i: nat, k: nat)
    requires Valid(o) && Execution(o, states, actions) && i < |actions|
    requires k in states[i].joins && !states[i].joins[k].pc.Joined?
    requires k in states[i + 1].joins && states[i + 1].joins[k].pc.Joined? && states[i + 1].joins[k].run.Some? && states[i + 1].joins[k].initial
    ensures states[i].joins[k].run.Some? && states[i].joins[k].run.value < |states[i].runs|
    ensures var run := states[i].runs[states[i].joins[k].run.value];
            match states[i + 1].joins[k].pc.result
            case Ok(x) => FirstConnectedAs(run, x)
            case Err(e) => Told(run, e) && forall n :: 0 <= n < |run.past.log| ==> !run.past.log[n].event.Connect?
  {
    hide Step, StepEnabled, Inv, Reached, FaceOk, LogOk;
    Answered(o, states, actions, i, k);
    var r := states[i].joins[k].run.value;
    RunWords(o, states[i], r);
    FirstIsFirst(o, states[i].runs[r]);
  }

  /** The step that gives a caller its answer reads the run's channels as they are. */
  lemma Answered(o: Options, states: seq<State>, actions: seq<Action>, i: nat, k: nat)
    requires Valid(o) && Execution(o, states, actions) && i < |actions|
    requires k in states[i].joins && !states[i].joins[k].pc.Joined?
    requires k in states[i + 1].joins && states[i + 1].joins[k].pc.Joined? && states[i + 1].joins[k].run.Some?
    ensures Reached(o, states[i]) && HasRun(states[i], states[i].joins[k])
    ensures ReadFrom(states[i].joins[k], states[i + 1].joins[k], states[i].runs[states[i].joins[k].run.value].face)
  {
    hide Inv, Reached, JoinNext, ReadFrom, JoinEnabled;
    ExecutionOk(o, states, actions, i);
    PrefixReached(o, states, actions, i);
    NoFallback(o, states[i], k);
    OwnJoinStep(o, states[i], actions[i], k);
    AnswerSeen(states[i], k, actions[i].joinAct);
  }

  lemma NoFallback(o: Options, s: State, k: nat)
    requires Inv(o, s)
    ensures !JoinEnabled(s, k, SendersGone)
    ensures k in s.joins && s.joins[k].run.Some? ==> !JoinLocks(s.joins[k].pc)
  {
    hide RunOk, GateOk, CallOk, RunCallsOk;
    FallbackUnreachable(o, s, k);
    assert k in s.joins ==> JoinOk(s, s.joins[k]);
  }

  lemma ReadyIsNow(r: Run, x: ConnectResult)
    requires ConnectsOk(r) && r.face.status == Ready(x)
    ensures NowConnectedAs(r, x)
  {
    if !r.pc.Announced? && !r.pc.Greeted? {
      var e := LastOfConnects(r.past.log);
    }
  }

  lemma FailedIsTold(o: Options, r: Run, e: Error)
    requires LogOk(o, r) && FaceOk(r) && r.face.status == Failed(e)
    ensures Told(r, e)
  {
  }

  lemma FirstIsFirst(o: Options, r: Run)
    requires ConnectsOk(r) && LogOk(o, r) && FaceOk(r) && r.face.first.Some?
    ensures match r.face.first.value
            case Ok(x) => FirstConnectedAs(r, x)
            case Err(e) => Told(r, e) && forall n :: 0 <= n < |r.past.log| ==> !r.past.log[n].event.Connect?
  {
    if Connects(r.past.log) == [] {
      NoConnects(r.past.log);
    } else {
      var e := FirstOfConnects(r.past.log);
    }
  }
}
