/** What every answer of `send`, `connect`, `disconnect` and `destroy` says about the client that gives it. */
module CallerTheorems {
  import opened Types
  import opened Worker
  import opened WorkerConnects
  import opened WorkerFace
  import opened WorkerLog
  import opened WorkerPlaces
  import opened WorkerAnswers
  import opened WorkerAcks
  import opened WorkerInvariant
  import opened Client
  import opened ClientGate
  import opened ClientCalls
  import opened ClientJoins
  import opened Reachable
  import opened TrafficTheorems
  import opened TimeoutTheorems
  import opened LifecycleTheorems
  import opened ExecutionTheorems
  import WorkerOutage

  // ---- Answers of send ----

  /** The step of the call answers its caller with that error. */
  ghost predicate Refuses(o: Options, s: State, id: Id, a: CallAct, e: Error)
    requires CallEnabled(s, id, a)
  {
    var t := CallNext(o, s, id, a);
    !s.calls[id].pc.Done? && id in t.calls && t.calls[id].pc == Done(Returned(Err(e)))
  }

  /** Every permit is with a caller or the worker. */
  ghost predicate AllPermitsUsed(o: Options, s: State) {
    |Holders(s.calls)| + WithWorker(s) == o.maxInFlight
  }

  /** The run that a caller is about to enqueue to takes no more commands. */
  predicate SlotClosed(s: State) {
    s.gate.slot.Some? && s.gate.slot.value < |s.runs| && s.runs[s.gate.slot.value].box.closed
  }

  /** A SEND is refused before it is enqueued exactly for these reasons, each its own error. */
  lemma RefusedIff(o: Options, s: State, id: Id, a: CallAct)
    requires Valid(o) && Reached(o, s) && CallEnabled(s, id, a) && s.calls[id].run.None?
    ensures var pc := s.calls[id].pc;
            && (Refuses(o, s, id, a, Destroyed) <==> pc.Begin? && s.flags.destroyed)
            && (Refuses(o, s, id, a, NotConnected) <==> (pc.CheckUp? || pc.Recheck?) && !s.flags.connected)
            && (Refuses(o, s, id, a, Backpressure) <==> pc.Acquire? && AllPermitsUsed(o, s))
            && (Refuses(o, s, id, a, InvalidInput) <==> pc.Prepare? && !a.valid)
            && (Refuses(o, s, id, a, MessageTooLarge) <==> pc.Prepare? && a.valid && a.size > o.maxMessageSize)
            && (Refuses(o, s, id, a, Disconnected) <==> pc.Enqueue? && SlotClosed(s))
            && forall e :: Refuses(o, s, id, a, e) ==>
                 e in {Destroyed, NotConnected, Backpressure, InvalidInput, MessageTooLarge, Disconnected}
  {
    hide Reached, Holders, WithWorker, CallNext, Refuses, Behind;
    AdmissionConserved(o, s);
    NotWaiting(o, s, id);
    if a.TrySend? {
      EnqueueBehindSession(o, s, id);
      NeverFull(o, s, id);
      TrySendRefuses(o, s, id);
    } else {
      OtherRefuses(o, s, id, a);
    }
  }

  lemma TrySendRefuses(o: Options, s: State, id: Id)
    requires CallEnabled(s, id, TrySend) && Behind(s) && |s.runs[s.gate.slot.value].box.queue| < o.maxInFlight
    ensures forall e :: Refuses(o, s, id, TrySend, e) <==> e == Disconnected && SlotClosed(s)
  {
    hide CommandOf, Push;
  }

  lemma OtherRefuses(o: Options, s: State, id: Id, a: CallAct)
    requires CallEnabled(s, id, a) && !a.TrySend? && !s.calls[id].pc.Await?
    ensures forall e :: Refuses(o, s, id, a, e) <==>
              match a
              case CheckDestroyed => e == Destroyed && s.flags.destroyed
              case CheckConnected => e == NotConnected && !s.flags.connected
              case CheckAgain => e == NotConnected && !s.flags.connected
              case TakePermit => e == Backpressure && s.free == 0
              case Encode(valid, size) => (e == InvalidInput && !valid) || (e == MessageTooLarge && valid && size > o.maxMessageSize)
              case _ => false
  {
  }

  lemma NotWaiting(o: Options, s: State, id: Id)
    requires Valid(o) && Reached(o, s) && id in s.calls && s.calls[id].run.None?
    ensures !s.calls[id].pc.Await?
  {
    hide RunOk, Reached;
    CallFacts(o, s, id);
  }

  /** What each way of leaving the worker says to the caller. */
  predicate Says(fate: Fate, result: Result<SendResult>) {
    match fate
    case Answered(_, answer) => result == answer
    case Expired => result == Err(Timeout)
    case Late => result == Err(Timeout)
    case Stale => result == Err(Disconnected)
    case Cleared => result == Err(Disconnected)
    case RunEnded(e) => result == Err(e)
    case Dropped => result == Err(Disconnected)
    case Discarded => result == Err(Disconnected)
  }

  /** The caller of an enqueued SEND returns what its one settlement says, or Timeout when its own deadline comes first. */
  lemma ReturnedAsSettled(o: Options, s: State, id: Id, result: Result<SendResult>)
    requires Valid(o) && Reached(o, s) && id in s.calls && s.calls[id].run.Some? && s.calls[id].pc == Done(Returned(result))
    ensures s.calls[id].run.value < |s.runs|
    ensures || (result == Err(Timeout) && s.calls[id].deadline <= s.clock.now)
            || exists k :: && 0 <= k < |s.runs[s.calls[id].run.value].box.settled|
                           && s.runs[s.calls[id].run.value].box.settled[k].id == id
                           && Says(s.runs[s.calls[id].run.value].box.settled[k].fate, result)
  {
    hide RunOk, Reached, Inv, CommandsOk, AnswersOk;
    CallFacts(o, s, id);
    RunFacts(o, s, s.calls[id].run.value);
    if result == Err(Timeout) {
      TimeoutIsNeverEarly(o, s, id);
    } else {
      var settled := s.runs[s.calls[id].run.value].box.settled;
      assert id in SettledIds(settled);
      var k :| 0 <= k < |settled| && settled[k].id == id;
      assert settled[k] in settled;
      assert Says(settled[k].fate, result);
    }
  }

  // ---- Answers of connect ----

  /** A run as it starts: nothing queued, written, reported or published. */
  predicate Untouched(r: Run) {
    && r.pc.Spawned? && !r.cancelled && r.face.first.None? && r.face.status.Connecting?
    && r.box.queue == [] && !r.box.closed && r.past.log == [] && r.past.wire == []
  }

  /** A `connect` starts a worker exactly when none is alive, and otherwise joins the live one. */
  lemma StartsIffNoneLives(o: Options, s: State, k: nat, runtime: bool)
    requires Valid(o) && Reached(o, s) && JoinEnabled(s, k, JoinRun(runtime))
    ensures var t := JoinNext(s, k, JoinRun(runtime));
            && k in t.joins && t.gate.holder == Nobody
            && (AllFinished(s) && runtime ==>
                  && |t.runs| == |s.runs| + 1 && t.runs[..|s.runs|] == s.runs && Untouched(t.runs[|s.runs|])
                  && t.joins[k].run == Some(|s.runs|) && t.gate.slot == Some(|s.runs|))
            && (AllFinished(s) && !runtime ==> t.runs == s.runs && t.joins[k].pc == Joined(Err(RuntimeUnavailable)))
            && (!AllFinished(s) ==>
                  && t.runs == s.runs && t.joins[k].run.Some? && t.joins[k].run.value < |s.runs|
                  && !s.runs[t.joins[k].run.value].pc.Finished? && t.gate.slot == s.gate.slot)
  {
    hide Reached, TrafficOk, JoinsOk, LockOk, FlagsOk, DestroyOk;
    ReachedOk(o, s);
  }

  /** The step at `h` is where the `connect` call `k` joins run `r`. */
  ghost predicate Joins(states: seq<State>, actions: seq<Action>, h: nat, k: nat, r: nat) {
    && h < |actions| && |states| == |actions| + 1
    && actions[h].OfJoin? && actions[h].of == k && actions[h].joinAct.JoinRun?
    && k in states[h + 1].joins && states[h + 1].joins[k].run == Some(r)
  }

  /** What a caller has joined, and as what, it keeps. */
  ghost predicate SameRun(j: Join, t: Join) {
    j.run.Some? ==> t.run == j.run && t.initial == j.initial
  }

  lemma JoinKeepsRun(s: State, k: nat, a: JoinAct)
    requires JoinEnabled(s, k, a) && (s.joins[k].run.Some? ==> !JoinLocks(s.joins[k].pc))
    ensures k in JoinNext(s, k, a).joins && SameRun(s.joins[k], JoinNext(s, k, a).joins[k])
  {
  }

  lemma StepKeepsRunJoined(o: Options, s: State, a: Action, k: nat)
    requires Inv(o, s) && StepEnabled(o, s, a) && k in s.joins
    ensures k in Step(o, s, a).joins && SameRun(s.joins[k], Step(o, s, a).joins[k])
  {
    hide Inv, CallNext, CallEnabled, JoinNext, JoinEnabled, CloseNext, CloseEnabled, RunNext, RunEnabled, WorkerOutage.Overrun;
    match a
    case OfCall(id, act) => CallFrames(o, s, id, act);
    case OfJoin(i, act) =>
      NoFallback(o, s, i);
      JoinFrames(s, i, act);
      OwnJoin(s, i, act);
      JoinKeepsRun(s, i, act);
    case OfClose(i, act) => CloseFrames(s, i, act);
    case OfRun(r, act) => RunFrames(o, s, r, act);
    case _ =>
  }

  lemma OwnJoin(s: State, k: nat, a: JoinAct)
    requires JoinEnabled(s, k, a)
    ensures k in s.joins
  {
  }

  lemma {:induction false} JoinedSince(o: Options, states: seq<State>, actions: seq<Action>, h: nat, j: nat, k: nat, r: nat)
    requires Valid(o) && Execution(o, states, actions) && Joins(states, actions, h, k, r) && h < j <= |actions|
    ensures k in states[j].joins && states[j].joins[k].run == Some(r)
    ensures states[j].joins[k].initial == states[h + 1].joins[k].initial
    decreases j
  {
    hide Step, StepEnabled, Inv;
    if j > h + 1 {
      JoinedSince(o, states, actions, h, j - 1, k, r);
      ExecutionOk(o, states, actions, j - 1);
      StepKeepsRunJoined(o, states[j - 1], actions[j - 1], k);
    }
  }

  /** A run that has reported a Connect, or is about to. */
  ghost predicate HasConnected(r: Run) {
    r.pc.Greeted? || exists e :: 0 <= e < |r.past.log| && r.past.log[e].event.Connect?
  }

  /** Who joins a run is taken for a caller of its first attempt exactly until the first result is out. */
  lemma InitialIff(o: Options, s: State, k: nat, runtime: bool, r: nat)
    requires Valid(o) && Reached(o, s) && JoinEnabled(s, k, JoinRun(runtime))
    requires k in JoinNext(s, k, JoinRun(runtime)).joins && JoinNext(s, k, JoinRun(runtime)).joins[k].run == Some(r)
    ensures r <= |s.runs|
    ensures JoinNext(s, k, JoinRun(runtime)).joins[k].initial <==> r == |s.runs| || s.runs[r].face.first.None?
  {
    hide Reached, TrafficOk, JoinsOk, LockOk, FlagsOk, DestroyOk;
    ReachedOk(o, s);
    JoinHadNoRun(o, s, k);
  }

  lemma JoinHadNoRun(o: Options, s: State, k: nat)
    requires Valid(o) && Reached(o, s) && k in s.joins && s.joins[k].pc.Spawning?
    ensures s.joins[k].run.None?
  {
    hide Reached, TrafficOk, GateOk;
    ReachedOk(o, s);
    assert JoinOk(s, s.joins[k]);
  }

  /** The first result by events: an authentication once one is reported or published, an error only without any. */
  lemma FirstByEvents(r: Run)
    requires ConnectsOk(r)
    ensures HasConnected(r) ==> r.face.first.Some? && r.face.first.value.Ok?
    ensures !HasConnected(r) && r.face.first.Some? ==> r.face.first.value.Err?
  {
    if Connects(r.past.log) == [] {
      NoConnects(r.past.log);
    } else {
      var e := LastOfConnects(r.past.log);
    }
  }

  /** Late for the first attempt: the run had connected before the caller joined it. */
  ghost predicate JoinsLate(states: seq<State>, h: nat, r: nat) {
    h < |states| && r < |states[h].runs| && HasConnected(states[h].runs[r])
  }

  ghost predicate NeverConnected(r: Run) {
    forall e :: 0 <= e < |r.past.log| ==> !r.past.log[e].event.Connect?
  }

  /**
   * What `connect` returns, by events: who joins a run before it has connected gets its first authentication, or the
   * error its last event reports; who joins later gets the latest authentication at that moment, or that error.
   */
  lemma ConnectTells(o: Options, states: seq<State>, actions: seq<Action>, h: nat, i: nat, k: nat, r: nat)
    requires Valid(o) && Execution(o, states, actions) && Joins(states, actions, h, k, r) && h < i < |actions|
    requires k in states[i].joins && !states[i].joins[k].pc.Joined?
    requires k in states[i + 1].joins && states[i + 1].joins[k].pc.Joined?
    ensures r <= |states[h].runs| && r < |states[i].runs|
    ensures var run, late := states[i].runs[r], JoinsLate(states, h, r);
            match states[i + 1].joins[k].pc.result
            case Ok(x) => if late then run.face.status.Ready? && NowConnectedAs(run, x) else FirstConnectedAs(run, x)
            case Err(e) => Told(run, e) && if late then run.face.status.Failed? else NeverConnected(run)
  {
    hide Step, StepEnabled, Inv, Reached, HasConnected, NowConnectedAs, FirstConnectedAs, Told;
    JoinedSince(o, states, actions, h, i, k, r);
    JoinedSince(o, states, actions, h, i + 1, k, r);
    JoinedAs(o, states, actions, h, k, r);
    if states[i].joins[k].initial {
      FirstCallerToldFirst(o, states, actions, i, k);
    } else {
      LateCallerToldNow(o, states, actions, i, k);
      if !JoinsLate(states, h, r) {
        StillFailed(o, states, actions, h, i, r);
        MissedFailure(o, states, actions, i, k);
      }
    }
  }

  /** A caller counts as initial, or the run had connected, or its first attempt had failed. */
  lemma JoinedAs(o: Options, states: seq<State>, actions: seq<Action>, h: nat, k: nat, r: nat)
    requires Valid(o) && Execution(o, states, actions) && Joins(states, actions, h, k, r)
    ensures r <= |states[h].runs|
    ensures states[h + 1].joins[k].initial ==> !JoinsLate(states, h, r)
    ensures !states[h + 1].joins[k].initial && !JoinsLate(states, h, r) ==>
              r < |states[h].runs| && states[h].runs[r].face.first.Some? && states[h].runs[r].face.first.value.Err?
  {
    hide StepEnabled, Inv, Reached, JoinNext, HasConnected, ConnectsOk;
    PrefixReached(o, states, actions, h);
    StepIs(o, states, actions, h);
    InitialIff(o, states[h], k, actions[h].joinAct.runtime, r);
    if r < |states[h].runs| {
      RunWords(o, states[h], r);
      FirstByEvents(states[h].runs[r]);
    }
  }

  lemma StepIs(o: Options, states: seq<State>, actions: seq<Action>, h: nat)
    requires Execution(o, states, actions) && h < |actions|
    ensures StepEnabled(o, states[h], actions[h]) && states[h + 1] == Step(o, states[h], actions[h])
  {
  }

  lemma {:induction false} StillFailed(o: Options, states: seq<State>, actions: seq<Action>, h: nat, i: nat, r: nat)
    requires Valid(o) && Execution(o, states, actions) && h <= i <= |actions|
    requires r < |states[h].runs| && states[h].runs[r].face.first.Some?
    ensures r < |states[i].runs| && states[i].runs[r].face.first == states[h].runs[r].face.first
    decreases i
  {
    hide Step, StepEnabled, Inv;
    if i > h {
      StillFailed(o, states, actions, h, i - 1, r);
      ExecutionOk(o, states, actions, i - 1);
      StepIs(o, states, actions, i - 1);
      FirstResultOnce(o, states[i - 1], actions[i - 1], r);
    }
  }

  lemma MissedFailure(o: Options, states: seq<State>, actions: seq<Action>, i: nat, k: nat)
    requires Valid(o) && Execution(o, states, actions) && i < |actions|
    requires k in states[i].joins && !states[i].joins[k].pc.Joined? && states[i].joins[k].run.Some?
    requires states[i].joins[k].run.value < |states[i].runs|
    requires states[i].runs[states[i].joins[k].run.value].face.first.Some?
    requires states[i].runs[states[i].joins[k].run.value].face.first.value.Err?
    requires k in states[i + 1].joins && states[i + 1].joins[k].pc.Joined? && states[i + 1].joins[k].run == states[i].joins[k].run
    ensures states[i + 1].joins[k].pc.result.Err? && NeverConnected(states[i].runs[states[i].joins[k].run.value])
  {
    hide Step, StepEnabled, Inv, Reached, HasConnected, FaceOk, LogOk;
    var r := states[i].joins[k].run.value;
    PrefixReached(o, states, actions, i);
    RunWords(o, states[i], r);
    FirstIsFirst(o, states[i].runs[r]);
    StillFailed(o, states, actions, i, i + 1, r);
    PrefixReached(o, states, actions, i + 1);
    LateCallerAgrees(o, states[i + 1], k);
  }

  // ---- disconnect and destroy ----

  /** A close was started as what it is, and announces only as a `destroy`. */
  lemma {:induction false} StartedSince(o: Options, states: seq<State>, actions: seq<Action>, j: nat, k: nat) returns (h: nat)
    requires Execution(o, states, actions) && j <= |actions| && k in states[j].closes
    ensures h < j && actions[h] == StartClose(k, states[j].closes[k].destroy)
    ensures states[j].closes[k].pc.Announcing? ==> states[j].closes[k].destroy
    decreases j
  {
    hide Step, StepEnabled;
    if j > 0 {
      StepIs(o, states, actions, j - 1);
      CloseMoved(o, states[j - 1], actions[j - 1], k);
      if k in states[j - 1].closes {
        h := StartedSince(o, states, actions, j - 1, k);
      } else {
        h := j - 1;
      }
    }
  }

  lemma CloseMoved(o: Options, s: State, a: Action, k: nat)
    requires StepEnabled(o, s, a) && k in Step(o, s, a).closes
    ensures var d := Step(o, s, a).closes[k];
            if k in s.closes then d.destroy == s.closes[k].destroy && (d.pc.Announcing? ==> s.closes[k].pc.Announcing?)
            else a == StartClose(k, d.destroy) && (d.pc.Announcing? ==> d.destroy)
  {
    hide CallNext, CallEnabled, JoinNext, JoinEnabled, RunNext, RunEnabled, WorkerOutage.Overrun;
    match a
    case OfCall(id, act) => CallFrames(o, s, id, act);
    case OfJoin(i, act) => JoinFrames(s, i, act);
    case OfClose(i, act) => CloseFrames(s, i, act);
    case OfRun(r, act) => RunFrames(o, s, r, act);
    case _ =>
  }

  lemma DestroyedMoved(o: Options, s: State, a: Action)
    requires StepEnabled(o, s, a) && Step(o, s, a).flags.destroyed && !s.flags.destroyed
    ensures a.OfClose? && a.closer in s.closes && s.closes[a.closer].pc.Announcing?
  {
    hide CallNext, CallEnabled, JoinNext, JoinEnabled, RunNext, RunEnabled, WorkerOutage.Overrun;
    match a
    case OfCall(id, act) => CallFrames(o, s, id, act);
    case OfJoin(i, act) => JoinFrames(s, i, act);
    case OfClose(i, act) => CloseFrames(s, i, act);
    case OfRun(r, act) => RunFrames(o, s, r, act);
    case _ =>
  }

  /** Only a `destroy` destroys: after any number of disconnects the client can connect again. */
  lemma {:induction false} DestroyedOnlyByDestroy(o: Options, states: seq<State>, actions: seq<Action>, j: nat) returns (h: nat, k: nat)
    requires Execution(o, states, actions) && j <= |actions| && states[j].flags.destroyed
    ensures h < j && actions[h] == StartClose(k, true)
    decreases j
  {
    hide Step, StepEnabled;
    if j > 0 {
      StepIs(o, states, actions, j - 1);
      if states[j - 1].flags.destroyed {
        h, k := DestroyedOnlyByDestroy(o, states, actions, j - 1);
      } else {
        DestroyedMoved(o, states[j - 1], actions[j - 1]);
        k := actions[j - 1].closer;
        h := StartedSince(o, states, actions, j - 1, k);
      }
    }
  }

  /** While a `disconnect` waits for the worker, it holds the lock and the worker is told to stop. */
  lemma ClosingCancels(o: Options, s: State, k: nat)
    requires Valid(o) && Reached(o, s) && k in s.closes && s.closes[k].pc.Joining?
    ensures s.gate == Gate(HeldByClose(k), Some(s.closes[k].pc.run)) && s.closes[k].pc.run == |s.runs| - 1
    ensures s.runs[|s.runs| - 1].cancelled
    ensures var pc := s.runs[|s.runs| - 1].pc;
            pc.Spawned? || pc.Asleep? || pc.Dialing? || (pc.Session? && (pc.spot.Waiting? || pc.spot.Writing?)) ==>
              RunEnabled(o, s, |s.runs| - 1, OfLife(Cancel(false)))
  {
    hide Reached, TrafficOk, JoinsOk, FlagsOk, DestroyOk;
    ReachedOk(o, s);
  }

  /** A `disconnect` or `destroy` that completes leaves nothing behind: no worker, no session, the slot and the lock free. */
  lemma DisconnectLeavesNothing(o: Options, s: State, k: nat, a: CloseAct)
    requires Valid(o) && Reached(o, s) && CloseEnabled(s, k, a)
    requires var t := CloseNext(s, k, a); k in t.closes && t.closes[k].pc.Closed?
    ensures var t := CloseNext(s, k, a);
            t.gate == Gate(Nobody, None) && AllFinished(t) && !t.flags.connected && t.flags.destroyed == s.flags.destroyed
  {
    hide Reached, TrafficOk, JoinsOk;
    ReachedOk(o, s);
  }

  // ---- The session of a SEND ----

  /** A session begins at that step. */
  predicate Begins(a: Action) {
    a.OfRun? && a.act == OfLife(Count)
  }

  lemma GenerationMoves(o: Options, s: State, a: Action)
    requires StepEnabled(o, s, a)
    ensures s.flags.generation <= Step(o, s, a).flags.generation
    ensures Begins(a) ==> s.flags.generation < Step(o, s, a).flags.generation
  {
    hide CallNext, CallEnabled, JoinNext, JoinEnabled, CloseNext, CloseEnabled, Next, Enabled, WorkerOutage.Overrun;
    match a
    case OfCall(id, act) => CallFrames(o, s, id, act);
    case OfJoin(i, act) => JoinFrames(s, i, act);
    case OfClose(i, act) => CloseFrames(s, i, act);
    case _ =>
  }

  lemma {:induction false} GenerationGrows(o: Options, states: seq<State>, actions: seq<Action>, i: nat, j: nat)
    requires Execution(o, states, actions) && i <= j <= |actions|
    ensures states[i].flags.generation <= states[j].flags.generation
    ensures forall h :: i <= h < j && Begins(actions[h]) ==> states[i].flags.generation < states[j].flags.generation
    decreases j
  {
    hide Step, StepEnabled, Begins;
    if i < j {
      GenerationGrows(o, states, actions, i, j - 1);
      StepIs(o, states, actions, j - 1);
      GenerationMoves(o, states[j - 1], actions[j - 1]);
    }
  }

  /** A SEND is written in the session during which its caller read the generation: none begins in between. */
  lemma SentInItsSession(o: Options, states: seq<State>, actions: seq<Action>, i: nat, j: nat, id: Id, r: nat)
    requires Valid(o) && Execution(o, states, actions) && Reads(actions, i, id) && i < j < |actions|
    requires actions[j].OfRun? && actions[j].run == r && r < |states[j].runs| && r < |states[j + 1].runs|
    requires var before, after := states[j].runs[r].past.wire, states[j + 1].runs[r].past.wire;
             |after| > |before| && after[|before|].out.Send? && after[|before|].out.cmd.id == id
    ensures forall h :: i < h <= j ==> !Begins(actions[h])
  {
    hide Step, StepEnabled, Inv, Reached, Begins;
    var before, after := states[j].runs[r].past.wire, states[j + 1].runs[r].past.wire;
    FencedByReading(o, states, actions, i, j + 1, id, r, |before|);
    StepIs(o, states, actions, j);
    ExecutionOk(o, states, actions, j);
    StepWrites(o, states[j], actions[j], r);
    GenerationGrows(o, states, actions, i, j);
  }

  /** A frame is written on the socket of the current generation, and a session does not begin with one. */
  lemma WritesOnSocket(o: Options, s: State, r: nat, a: Act)
    requires Inv(o, s) && RunEnabled(o, s, r, a)
    ensures var before, after := s.runs[r].past.wire, RunNext(o, s, r, a).runs[r].past.wire;
            |after| > |before| ==> after[|before|].socket == s.flags.generation && a != OfLife(Count)
  {
    hide Inv, Next, Enabled, RunOk;
    LiveRunFacts(o, s, r, a);
    RunFrames(o, s, r, a);
    StepAcks(o, s.runs[r], EnvOf(s, r), a);
    if a == OfLife(Count) {
      CountIsQuiet(o, s.runs[r], EnvOf(s, r));
    }
  }

  lemma StepWrites(o: Options, s: State, a: Action, r: nat)
    requires Inv(o, s) && StepEnabled(o, s, a) && a.OfRun? && a.run == r && r < |s.runs| && r < |Step(o, s, a).runs|
    ensures var before, after := s.runs[r].past.wire, Step(o, s, a).runs[r].past.wire;
            |after| > |before| ==> after[|before|].socket == s.flags.generation && !Begins(a)
  {
    hide Inv, RunNext, RunEnabled;
    WritesOnSocket(o, s, r, a.act);
  }

  lemma CountIsQuiet(o: Options, r: Run, env: Env)
    requires Enabled(o, r, env, OfLife(Count))
    ensures Next(o, r, env, OfLife(Count)).past.wire == r.past.wire
  {
  }
}
