/** Interleavings that show two surprises of the client to be real. */
module Witnesses {
  import opened Types
  import opened Events
  import opened Worker
  import opened WorkerPlaces
  import opened Client
  import opened ClientGate
  import opened ClientCalls
  import opened Reachable
  import opened Grammar
  import opened SessionTheorems
  import Backoff

  const ACCEPTED: ConnectResult := ConnectResult(1, "", "", 0, 0, 0)

  lemma ReachStep(o: Options, s: State, a: Action)
    requires Reached(o, s) && StepEnabled(o, s, a)
    ensures Reached(o, Step(o, s, a))
  {
    hide Step, StepEnabled;
    var states: seq<State>, actions: seq<Action> :| Execution(o, states, actions) && states[|actions|] == s;
    var more, done := states + [Step(o, s, a)], actions + [a];
    assert Execution(o, more, done) && more[|done|] == Step(o, s, a);
  }

  lemma InitialReached(o: Options)
    ensures Reached(o, InitialState(o))
  {
    assert Execution(o, [InitialState(o)], []);
  }

  /** A client whose only run has nothing queued, pending or settled, and no callers of `send`. */
  ghost predicate Alone(o: Options, s: State, r: Run) {
    && Reached(o, s) && s.runs == [r] && s.gate.slot == Some(0)
    && s.flags.generation == r.socket && s.calls == map[] && s.clock == Clock(0, 0)
    && r.box == Box([], false, map[], [], [])
  }

  /** What else the steps of a run leave alone. */
  ghost predicate Beside(s: State, t: State) {
    t.gate == s.gate && t.closes == s.closes && t.free == s.free && t.ids == s.ids && t.flags.destroyed == s.flags.destroyed
  }

  function EnvOfAlone(r: Run): Env {
    Env(0, 0, r.socket, {}, true)
  }

  lemma RunGoes(o: Options, s: State, r: Run, a: Act, next: Run) returns (t: State)
    requires Alone(o, s, r) && Enabled(o, r, EnvOfAlone(r), a) && Next(o, r, EnvOfAlone(r), a) == next
    requires next.box == r.box && !(a.OfTalk? && a.talk.Fire?)
    ensures Alone(o, t, next) && Beside(s, t)
    ensures t.flags.connected == if Stores(a).Some? then Stores(a).value else s.flags.connected
  {
    hide Next, Enabled, Reached;
    assert EnvOf(s, 0) == EnvOfAlone(r);
    StepSocket(o, r, EnvOfAlone(r), a);
    ReachStep(o, s, OfRun(0, a));
    t := Step(o, s, OfRun(0, a));
    assert t.runs == [next];
  }

  /** `connect` starts the first run. */
  lemma Begin(o: Options) returns (s: State)
    ensures Alone(o, s, NewRun(0)) && s.gate.holder == Nobody && s.closes == map[] && s.free == o.maxInFlight && s.ids == {}
    ensures !s.flags.destroyed
  {
    hide Reached;
    InitialReached(o);
    s := InitialState(o);
    ReachStep(o, s, StartJoin(0));
    s := Step(o, s, StartJoin(0));
    ReachStep(o, s, OfJoin(0, JoinLock));
    s := Step(o, s, OfJoin(0, JoinLock));
    ReachStep(o, s, OfJoin(0, JoinCheck));
    s := Step(o, s, OfJoin(0, JoinCheck));
    ReachStep(o, s, OfJoin(0, JoinRun(true)));
    s := Step(o, s, OfJoin(0, JoinRun(true)));
  }

  // ---- A run that connects ----

  function UpRun(): Run {
    NewRun(0).(pc := Live(ACCEPTED), established := true, socket := 1)
  }

  lemma Connects(o: Options) returns (s: State)
    ensures Alone(o, s, UpRun()) && s.flags.connected && !s.flags.destroyed
    ensures s.gate.holder == Nobody && s.closes == map[] && s.free == o.maxInFlight && s.ids == {}
  {
    hide Alone;
    var r := NewRun(0);
    s := Begin(o);
    s := RunGoes(o, s, r, OfLife(Start), r.(pc := Dialing(o.connectTimeout)));
    s := RunGoes(o, s, r.(pc := Dialing(o.connectTimeout)), OfLife(DialOk(ACCEPTED)), r.(pc := Opened(ACCEPTED), established := true));
    s := RunGoes(o, s, r.(pc := Opened(ACCEPTED), established := true), OfLife(Count),
                 r.(pc := Counted(ACCEPTED), established := true, socket := 1));
    s := RunGoes(o, s, r.(pc := Counted(ACCEPTED), established := true, socket := 1), OfLife(GoLive), UpRun());
  }

  // ---- A second Disconnect ----

  function SessionRun(o: Options, spot: Spot): Run {
    UpRun().(
      pc := Session(spot),
      face := Face(Ready(ACCEPTED), 1, Some(Ok(ACCEPTED))),
      beat := Beat(None, o.pingInterval, 0),
      past := Past([], [], [Logged(1, Connect(ACCEPTED))], map[]))
  }

  lemma EntersSession(o: Options) returns (s: State)
    ensures Alone(o, s, SessionRun(o, Top)) && s.gate.holder == Nobody && s.closes == map[]
  {
    hide Alone;
    var r := UpRun();
    var ready := r.(pc := Announced(ACCEPTED), face := Face(Ready(ACCEPTED), 1, None));
    var told := r.(pc := Greeted(ACCEPTED), face := Face(Ready(ACCEPTED), 1, Some(Ok(ACCEPTED))));
    s := Connects(o);
    s := RunGoes(o, s, r, OfLife(TellStatus), ready);
    s := RunGoes(o, s, ready, OfLife(TellFirst), told);
    s := RunGoes(o, s, told, OfLife(Enter), SessionRun(o, Top));
  }

  lemma Waits(o: Options) returns (s: State)
    ensures Alone(o, s, SessionRun(o, Waiting(0, o.pingInterval))) && s.gate.holder == Nobody && s.closes == map[]
  {
    hide Alone;
    s := EntersSession(o);
    assert SessionRun(o, Top).box.pending.Keys == {} == ExpiredIds(SessionRun(o, Top).box.pending, 0);
    s := RunGoes(o, s, SessionRun(o, Top), OfSess(Look), SessionRun(o, Retaining(0, {})));
    s := RunGoes(o, s, SessionRun(o, Retaining(0, {})), OfSess(KeepDone), SessionRun(o, Expiring(0, {})));
    s := RunGoes(o, s, SessionRun(o, Expiring(0, {})), OfSess(ExpireDone(o.pingInterval)), SessionRun(o, Waiting(0, o.pingInterval)));
  }

  function LostRun(o: Options, pc: Pc): Run {
    SessionRun(o, Top).(pc := pc, face := Face(Connecting, 2, Some(Ok(ACCEPTED))))
  }

  /** The peer hangs up, and the worker empties its queue. */
  lemma LosesSession(o: Options) returns (s: State)
    ensures Alone(o, s, LostRun(o, Reporting(Transport))) && s.gate.holder == Nobody && s.closes == map[]
  {
    hide Alone;
    var r := SessionRun(o, Waiting(0, o.pingInterval));
    s := Waits(o);
    s := RunGoes(o, s, r, OfTalk(Hear(Gone, 0)), r.(pc := Leaving(Lost(Transport))));
    s := RunGoes(o, s, r.(pc := Leaving(Lost(Transport))), OfLife(Worker.Left), r.(pc := Lowering(Transport)));
    s := RunGoes(o, s, r.(pc := Lowering(Transport)), OfLife(Lower), r.(pc := Clearing(Transport)));
    s := RunGoes(o, s, r.(pc := Clearing(Transport)), OfLife(Clear), LostRun(o, Draining(SessionOver(Transport), None)));
    s := RunGoes(o, s, LostRun(o, Draining(SessionOver(Transport), None)), OfLife(Drained), LostRun(o, Reporting(Transport)));
  }

  function Backing(o: Options): nat {
    Backoff.Delay(o, 1, 0)
  }

  /** The events of the loss and of the first retry. */
  function LossEvents(o: Options): seq<Event> {
    [Connect(ACCEPTED), Disconnect(TransportLost), Failure(Transport), Reconnecting(1, Backing(o))]
  }

  function LoggedAll(events: seq<Event>): seq<Logged> {
    seq(|events|, i requires 0 <= i < |events| => Logged(1, events[i]))
  }

  function RetryRun(o: Options, pc: Pc): Run {
    LostRun(o, pc).(attempt := 1, past := Past([], [], LoggedAll(LossEvents(o)), map[]))
  }

  lemma Retries(o: Options) returns (s: State)
    requires o.maxReconnectAttempts > 0
    ensures Alone(o, s, RetryRun(o, Asleep(Backing(o)))) && s.gate.holder == Nobody && s.closes == map[]
  {
    hide Alone;
    var r := LostRun(o, Reporting(Transport));
    var told := LostRun(o, Complaining(Transport)).(past := Past([], [], LoggedAll(LossEvents(o)[..2]), map[]));
    var judged := LostRun(o, Judging).(past := Past([], [], LoggedAll(LossEvents(o)[..3]), map[]));
    s := LosesSession(o);
    s := RunGoes(o, s, r, OfLife(Report), told);
    s := RunGoes(o, s, told, OfLife(Complain), judged);
    s := RunGoes(o, s, judged, OfLife(Judge), judged.(pc := Pausing, attempt := 1));
    s := RunGoes(o, s, judged.(pc := Pausing, attempt := 1), OfLife(Pause(0)), RetryRun(o, Asleep(Backing(o))));
  }

  /** `disconnect` signals the run. */
  lemma Signals(o: Options, s: State, r: Run) returns (t: State)
    requires Alone(o, s, r) && s.gate.holder == Nobody && s.closes == map[]
    ensures Alone(o, t, r.(cancelled := true))
  {
    hide Reached;
    t := s;
    ReachStep(o, t, StartClose(0, false));
    t := Step(o, t, StartClose(0, false));
    ReachStep(o, t, OfClose(0, CloseLock));
    t := Step(o, t, OfClose(0, CloseLock));
    ReachStep(o, t, OfClose(0, Signal));
    t := Step(o, t, OfClose(0, Signal));
  }

  /**
   * One run can report two Disconnects: whenever retries are allowed there is an interleaving that loses its
   * session and is then cancelled during the backoff.
   */
  lemma ManualAfterLossHappens(o: Options) returns (s: State)
    requires Valid(o) && o.maxReconnectAttempts > 0
    ensures Reached(o, s) && |s.runs| == 1 && Log(s, 0) == LossEvents(o) + [Disconnect(Manual)]
    ensures StillLost(Log(s, 0), 4)
  {
    hide Alone;
    var r := RetryRun(o, Asleep(Backing(o))).(cancelled := true);
    var last := r.(pc := Ending(Disconnected), past := Past([], [], LoggedAll(LossEvents(o) + [Disconnect(Manual)]), map[]));
    s := Retries(o);
    s := Signals(o, s, RetryRun(o, Asleep(Backing(o))));
    s := RunGoes(o, s, r, OfLife(Cancel(false)), r.(pc := Leaving(Cancelled)));
    s := RunGoes(o, s, r.(pc := Leaving(Cancelled)), OfLife(Worker.Left), r.(pc := Aborting));
    s := RunGoes(o, s, r.(pc := Aborting), OfLife(Abort), r.(pc := Signing));
    s := RunGoes(o, s, r.(pc := Signing), OfLife(Sign), last);
    AloneLog(o, s, last);
    assert LostAt(Log(s, 0), 1, 4);
  }

  lemma AloneLog(o: Options, s: State, r: Run)
    requires Alone(o, s, r)
    ensures Reached(o, s) && s.runs == [r]
  {
  }

  // ---- A permit beyond the deadline ----

  const NAME: Id := "request"

  /** A caller passes admission and takes the lock. */
  lemma Admitted(o: Options) returns (s: State)
    requires Valid(o)
    ensures Reached(o, s) && s.runs == [UpRun()] && s.gate == Gate(HeldByCall(NAME), Some(0)) && s.flags.connected
    ensures s.clock.now == 0 && s.free == o.maxInFlight - 1
    ensures s.calls == map[NAME := Call(Recheck, 1, o.requestTimeout, 0, None, Unsent, false)]
  {
    hide Reached;
    s := Connects(o);
    ReachStep(o, s, StartCall(NAME));
    s := Step(o, s, StartCall(NAME));
    ReachStep(o, s, OfCall(NAME, CheckDestroyed));
    s := Step(o, s, OfCall(NAME, CheckDestroyed));
    ReachStep(o, s, OfCall(NAME, CheckConnected));
    s := Step(o, s, OfCall(NAME, CheckConnected));
    ReachStep(o, s, OfCall(NAME, LoadGeneration));
    s := Step(o, s, OfCall(NAME, LoadGeneration));
    ReachStep(o, s, OfCall(NAME, TakePermit));
    s := Step(o, s, OfCall(NAME, TakePermit));
    ReachStep(o, s, OfCall(NAME, Encode(true, 0)));
    s := Step(o, s, OfCall(NAME, Encode(true, 0)));
    ReachStep(o, s, OfCall(NAME, LockRunning));
    s := Step(o, s, OfCall(NAME, LockRunning));
  }

  /** It enqueues its SEND and waits until its deadline while the worker is busy elsewhere. */
  lemma Overdue(o: Options) returns (s: State)
    requires Valid(o)
    ensures Reached(o, s) && s.runs == [Push(UpRun(), Command(NAME, 1, o.requestTimeout, 0))]
    ensures s.clock.now == o.requestTimeout && s.free == o.maxInFlight - 1
    ensures s.calls == map[NAME := Call(Await, 1, o.requestTimeout, 0, Some(0), Unsent, false)]
  {
    hide Reached;
    s := Admitted(o);
    ReachStep(o, s, OfCall(NAME, CheckAgain));
    s := Step(o, s, OfCall(NAME, CheckAgain));
    ReachStep(o, s, OfCall(NAME, TrySend));
    s := Step(o, s, OfCall(NAME, TrySend));
    ReachStep(o, s, Tick(o.requestTimeout));
    s := Step(o, s, Tick(o.requestTimeout));
  }

  /** A caller that has returned Timeout can leave its permit behind: its SEND is still queued, and one permit is missing. */
  lemma TimedOutCallHoldsPermit(o: Options) returns (s: State)
    requires Valid(o)
    ensures Reached(o, s) && NAME in s.calls && s.calls[NAME].pc == Done(Returned(Err(Timeout)))
    ensures NAME in Users(s) && s.free == o.maxInFlight - 1
  {
    hide Reached;
    s := Overdue(o);
    ReachStep(o, s, OfCall(NAME, TimeOut));
    s := Step(o, s, OfCall(NAME, TimeOut));
    assert s.runs[0].box.queue[0].id == NAME;
    assert NAME in Ids(s.runs[0].box.queue);
  }
}
