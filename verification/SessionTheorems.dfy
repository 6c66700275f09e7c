/** Events, outages, heartbeats and acknowledgements of every run, over every interleaving. */
module SessionTheorems {
  import opened Types
  import opened Events
  import opened Worker
  import opened WorkerPlaces
  import opened WorkerAnswers
  import opened WorkerBeat
  import opened WorkerPings
  import opened WorkerAcks
  import opened WorkerLog
  import opened WorkerOutage
  import opened WorkerFace
  import opened WorkerInvariant
  import opened ClientGate
  import opened ClientJoins
  import opened Grammar
  import opened Client
  import opened ClientCalls
  import opened Reachable
  import Dispatch

  /** What holds of every run of a reached state, by subject. */
  lemma RunHolds(o: Options, s: State, r: nat)
    requires Valid(o) && Reached(o, s) && r < |s.runs|
    ensures CommandsOk(o, s.runs[r]) && SessionOk(s.runs[r], s.clock.now) && TracesOk(s.runs[r])
    ensures LogOk(o, s.runs[r]) && FaceOk(s.runs[r]) && OutageOk(o, s.runs[r], s.clock.now, s.clock.late)
  {
    hide CommandsOk, SessionOk, TracesOk, LogOk, FaceOk, OutageOk, CallsOk, PermitsOk, GateOk, JoinsOk, Reached;
    ReachedOk(o, s);
    assert RunOk(o, s.runs[r], s.clock.now, s.clock.late);
  }

  // ---- Events ----

  /** The events of a run, as its subscribers see them. */
  function Log(s: State, r: nat): seq<Event>
    requires r < |s.runs|
  {
    EventsOf(s.runs[r].past.log)
  }

  /** Every run's events follow the grammar; a finished run's last event reports the error its callers get. */
  lemma RunSpeaksGrammar(o: Options, s: State, r: nat)
    requires Valid(o) && Reached(o, s) && r < |s.runs|
    ensures PhaseOf(o, Log(s, r)) != Wrong
    ensures s.runs[r].pc.Finished? ==>
      PhaseOf(o, Log(s, r)) == Phase.Closed && s.runs[r].face.status.Failed? && Told(s.runs[r], s.runs[r].face.status.error)
  {
    hide Reached, CommandsOk, SessionOk, TracesOk, FaceOk, OutageOk;
    RunHolds(o, s, r);
  }

  /** Between two Connects of a run lies exactly one loss of session and then retries 1, 2, …, the last one successful. */
  lemma BetweenConnects(o: Options, s: State, r: nat, i: nat)
    requires Valid(o) && Reached(o, s) && r < |s.runs| && i < |Log(s, r)| && Log(s, r)[i].Connect? && i > 0
    ensures Log(s, r)[i - 1].Reconnecting? && 1 <= Log(s, r)[i - 1].attempt <= o.maxReconnectAttempts
    ensures SomeOutage(o, Log(s, r), Log(s, r)[i - 1].attempt - 1, i - 1)
  {
    RunSpeaksGrammar(o, s, r);
    ConnectHistory(o, Log(s, r), i);
  }

  /** Message, SendAck and CustomEvent are reported only within a session. */
  lemma TrafficWithinSession(o: Options, s: State, r: nat, i: nat)
    requires Valid(o) && Reached(o, s) && r < |s.runs| && i < |Log(s, r)| && Carried(Log(s, r)[i])
    ensures SomeSession(Log(s, r), i)
  {
    RunSpeaksGrammar(o, s, r);
    TrafficOnlyInSession(o, Log(s, r), i);
  }

  /** ReconnectExhausted is reported exactly where all retries of an outage have failed retryably, and ends the run. */
  lemma ExhaustedMeansAllFailed(o: Options, s: State, r: nat, i: nat)
    requires Valid(o) && Reached(o, s) && r < |s.runs| && i < |Log(s, r)|
    ensures Log(s, r)[i] == Failure(ReconnectExhausted) <==> SomeOutage(o, Log(s, r), o.maxReconnectAttempts, i)
    ensures Log(s, r)[i] == Failure(ReconnectExhausted) ==> i == |Log(s, r)| - 1
  {
    RunSpeaksGrammar(o, s, r);
    ExhaustedIff(o, Log(s, r), i);
  }

  /** A redial rejected by the server or the protocol ends the run. */
  lemma RejectedRedialIsLast(o: Options, s: State, r: nat, i: nat)
    requires Valid(o) && Reached(o, s) && r < |s.runs| && 0 < i < |Log(s, r)|
    requires Log(s, r)[i - 1].Reconnecting? && Log(s, r)[i].Failure?
    requires Log(s, r)[i].error.Server? || Log(s, r)[i].error.Protocol?
    ensures i == |Log(s, r)| - 1
  {
    RunSpeaksGrammar(o, s, r);
    RedialOutcome(o, Log(s, r), i);
  }

  /** A redial that failed for the network, for time or for size never ends the run: what follows is the next retry or giving up. */
  lemma FailedRedialGoesOn(o: Options, s: State, r: nat, i: nat)
    requires Valid(o) && Reached(o, s) && r < |s.runs| && 0 < i < |Log(s, r)|
    requires Log(s, r)[i - 1].Reconnecting? && Log(s, r)[i].Failure?
    requires Log(s, r)[i].error.Timeout? || Log(s, r)[i].error.Transport? || Log(s, r)[i].error.MessageTooLarge?
    ensures i + 1 == |Log(s, r)| ==> !s.runs[r].pc.Finished?
    ensures s.runs[r].pc.Finished? ==> s.runs[r].face.status.Failed? && s.runs[r].face.status.error != Log(s, r)[i].error
    ensures i + 1 < |Log(s, r)| && Log(s, r)[i - 1].attempt < o.maxReconnectAttempts ==>
              Log(s, r)[i + 1].Reconnecting? && Log(s, r)[i + 1].attempt == Log(s, r)[i - 1].attempt + 1
    ensures i + 1 < |Log(s, r)| && Log(s, r)[i - 1].attempt >= o.maxReconnectAttempts ==>
              Log(s, r)[i + 1] == Failure(ReconnectExhausted)
  {
    hide Told;
    var log := Log(s, r);
    RunSpeaksGrammar(o, s, r);
    RedialOutcome(o, log, i);
    PrefixRight(o, log, i - 1);
    PhaseMeaning(o, log, i);
    PrefixRight(o, log, i);
    if s.runs[r].pc.Finished? {
      FinalError(o, s.runs[r], s.runs[r].face.status.error);
    }
  }

  lemma FinalError(o: Options, r: Run, e: Error)
    requires Told(r, e) && PhaseOf(o, EventsOf(r.past.log)) == Phase.Closed && |r.past.log| > 1
    ensures e.Server? || e.Protocol? || e.ReconnectExhausted? || e.Disconnected?
  {
    var log := EventsOf(r.past.log);
    if log[|log| - 1].Failure? {
      LastWords(o, log);
    }
  }

  /** `Disconnect(Manual)` is a run's last event; it follows a loss not made good exactly when a retry was announced. */
  lemma ManualIsLast(o: Options, s: State, r: nat, i: nat)
    requires Valid(o) && Reached(o, s) && r < |s.runs| && i < |Log(s, r)| && Log(s, r)[i] == Disconnect(Manual)
    ensures i == |Log(s, r)| - 1
    ensures StillLost(Log(s, r), i) <==> i > 0 && Log(s, r)[i - 1].Reconnecting?
  {
    RunSpeaksGrammar(o, s, r);
    ManualLast(o, Log(s, r), i);
    ManualAfterLossIff(o, Log(s, r), i);
  }

  /** Seen from the step that cancels: the Manual to come is a second Disconnect exactly when it hits an outage. */
  lemma CancelHitsOutage(o: Options, s: State, r: nat, flushed: bool)
    requires Valid(o) && Reached(o, s) && RunEnabled(o, s, r, OfLife(Cancel(flushed)))
    ensures StillLost(Log(s, r), |Log(s, r)|) <==> WorkerOutage.InOutage(s.runs[r])
  {
    hide Reached, CommandsOk, SessionOk, TracesOk, FaceOk, OutageOk;
    RunHolds(o, s, r);
    AwaitingPhase(o, s.runs[r]);
    StillLostIff(o, Log(s, r), |Log(s, r)|);
  }

  lemma AwaitingPhase(o: Options, r: Run)
    requires LogOk(o, r) && Awaiting(r.pc)
    ensures var log := EventsOf(r.past.log); log[..|log|] == log
    ensures var p := PhaseOf(o, EventsOf(r.past.log));
            (p.Fresh? || p.Online? || p.Trying?) && (p.Trying? <==> WorkerOutage.InOutage(r))
  {
  }

  // ---- Outages ----

  /** Between a lost session and the next: at most `max_reconnect_attempts` dials, and bounded time but for scheduling. */
  lemma FiniteOutage(o: Options, s: State, r: nat)
    requires Valid(o) && Reached(o, s) && r < |s.runs| && WorkerOutage.InOutage(s.runs[r])
    ensures s.runs[r].outage.dials <= o.maxReconnectAttempts
    ensures s.clock.now - s.runs[r].outage.start
         <= o.maxReconnectAttempts * (o.maxReconnectDelay + o.connectTimeout) + (s.clock.late - s.runs[r].outage.late)
  {
    hide Reached, CommandsOk, SessionOk, TracesOk, LogOk, FaceOk;
    RunHolds(o, s, r);
    OutageBounded(o, s.runs[r], s.clock.now, s.clock.late);
  }

  // ---- Wait points ----

  /**
   * When a session waits, nothing pending was expired at its clock reading, it will wake at the earliest of all
   * deadlines, and every pending request is on this socket's wire.
   */
  lemma WaitPoint(o: Options, s: State, r: nat)
    requires Valid(o) && Reached(o, s) && r < |s.runs| && s.runs[r].pc.Session? && s.runs[r].pc.spot.Waiting?
    ensures var run, spot := s.runs[r], s.runs[r].pc.spot;
            && spot.now <= s.clock.now
            && (forall id :: id in run.box.pending ==> spot.now < run.box.pending[id] && OnWire(run, id))
            && var heartbeat := match run.beat.ping case Some(ping) => ping.deadline case None => run.beat.next;
            && spot.timer <= heartbeat && (forall id :: id in run.box.pending ==> spot.timer <= run.box.pending[id])
            && (spot.timer == heartbeat || exists id :: id in run.box.pending && run.box.pending[id] == spot.timer)
  {
    hide Reached, CommandsOk, TracesOk, LogOk, FaceOk, OutageOk;
    RunHolds(o, s, r);
  }

  /** A heartbeat timeout is reported only for a written ping whose deadline passed with no answer processed. */
  lemma HeartbeatBlame(o: Options, s: State, r: nat, a: Act)
    requires Valid(o) && Reached(o, s) && RunEnabled(o, s, r, a)
    requires RunNext(o, s, r, a).runs[r].past.log == s.runs[r].past.log + [Logged(s.runs[r].socket, Disconnect(HeartbeatTimeout))]
    ensures Overdue(s.runs[r], s.clock.now)
  {
    hide Reached, CommandsOk, TracesOk, LogOk, FaceOk, OutageOk;
    RunHolds(o, s, r);
    var after := Next(o, s.runs[r], EnvOf(s, r), a);
    assert after.past.log[|s.runs[r].past.log|].event == Disconnect(HeartbeatTimeout);
    OnlyReportsBlame(o, s.runs[r], EnvOf(s, r), a);
  }

  lemma OnlyReportsBlame(o: Options, r: Run, env: Env, a: Act)
    requires Enabled(o, r, env, a)
    requires Next(o, r, env, a).past.log == r.past.log + [Logged(r.socket, Disconnect(HeartbeatTimeout))]
    ensures r.pc == Reporting(Timeout)
  {
    var s := Next(o, r, env, a);
    assert s.past.log[|r.past.log|].event == Disconnect(HeartbeatTimeout);
  }

  /** On one socket no heartbeat is written before the one before it was answered, by a pong or its own reply. */
  lemma HeartbeatsSpaced(o: Options, s: State, r: nat, i: nat, j: nat)
    requires Valid(o) && Reached(o, s) && r < |s.runs| && i < j < |s.runs[r].past.wire|
    requires s.runs[r].past.wire[i].out.Heartbeat? && s.runs[r].past.wire[j].out.Heartbeat?
    requires s.runs[r].past.wire[i].socket == s.runs[r].past.wire[j].socket
    ensures var past := s.runs[r].past;
            exists k :: past.wire[i].heardBefore <= k < past.wire[j].heardBefore <= |past.heard|
                        && AnswersPing(past.heard[k], past.wire[i].socket, past.wire[i].out.id)
  {
    hide Reached, CommandsOk, SessionOk, LogOk, FaceOk, OutageOk;
    RunHolds(o, s, r);
    assert PingAnswered(s.runs[r].past, i, s.runs[r].past.wire[j].heardBefore);
  }

  /** A SEND or heartbeat never fails for its size, so a write failure of one is a transport failure. */
  lemma OwnWritesFit(o: Options, s: State, r: nat)
    requires Valid(o) && Reached(o, s) && r < |s.runs| && s.runs[r].pc.Session? && s.runs[r].pc.spot.Writing?
    ensures s.runs[r].pc.spot.out.Send? || s.runs[r].pc.spot.out.Heartbeat? ==> Size(s.runs[r].pc.spot.out) <= o.maxMessageSize
  {
    hide Reached, TracesOk, LogOk, FaceOk, OutageOk;
    RunHolds(o, s, r);
    var run := s.runs[r];
    if run.pc.spot.out.Send? {
      assert run.pc.spot.out.cmd in Accepted(run);
    }
  }

  // ---- Acknowledgements ----

  /** In every session the RECVACKs on the wire are, in order, the receipts of the messages reported, but perhaps the last. */
  lemma AcksMirrorMessages(o: Options, s: State, r: nat, socket: nat)
    requires Valid(o) && Reached(o, s) && r < |s.runs|
    ensures var acks, receipts := Acks(s.runs[r].past.wire, socket), Receipts(s.runs[r].past.log, socket);
            acks == receipts || (receipts != [] && acks == receipts[..|receipts| - 1])
    ensures s.runs[r].pc.Session? && !(s.runs[r].pc.spot.Writing? && s.runs[r].pc.spot.out.RecvAck?) ==>
              Acks(s.runs[r].past.wire, s.runs[r].socket) == Receipts(s.runs[r].past.log, s.runs[r].socket)
  {
    hide Reached, CommandsOk, TracesOk, LogOk, FaceOk, OutageOk;
    RunHolds(o, s, r);
    assert Mirrors(s.runs[r], socket);
  }

  /** The messages reported in the session of socket `k`. */
  function Messages(log: seq<Logged>, k: nat): seq<RecvMessage> {
    if log == [] then []
    else
      var x, before := log[|log| - 1], Messages(log[..|log| - 1], k);
      if x.socket == k && x.event.Message? then before + [x.event.message] else before
  }

  /** What an acknowledgement says of a message. */
  predicate Acknowledges(receipt: Receipt, m: RecvMessage) {
    receipt.header == m.header && receipt.messageId == m.messageId && receipt.messageSeq == m.messageSeq
  }

  lemma {:induction false} ReceiptsAcknowledge(log: seq<Logged>, k: nat)
    ensures |Receipts(log, k)| == |Messages(log, k)|
    ensures forall i :: 0 <= i < |Receipts(log, k)| ==> Acknowledges(Receipts(log, k)[i], Messages(log, k)[i])
  {
    if log != [] {
      ReceiptsAcknowledge(log[..|log| - 1], k);
    }
  }

  /** The `i`th RECVACK of a session carries the header, ID and sequence number of its `i`th message; only the last may be missing. */
  lemma AcksRepeatMessages(o: Options, s: State, r: nat, socket: nat)
    requires Valid(o) && Reached(o, s) && r < |s.runs|
    ensures var acks, messages := Acks(s.runs[r].past.wire, socket), Messages(s.runs[r].past.log, socket);
            && |acks| <= |messages| <= |acks| + 1
            && forall i :: 0 <= i < |acks| ==> Acknowledges(acks[i], messages[i])
  {
    hide Valid, Reached, Acks, Receipts, Messages, Acknowledges;
    AcksMirrorMessages(o, s, r, socket);
    ReceiptsAcknowledge(s.runs[r].past.log, socket);
  }

  /** A malformed notification is reported and otherwise leaves no trace: no receipt, no acknowledgement, no lost request. */
  lemma MalformedDisturbsNothing(o: Options, codec: Dispatch.Codec, frame: Dispatch.Frame, r: Run, env: Env, size: nat, socket: nat)
    requires r.pc.Session? && r.pc.spot.Waiting? && Dispatch.Interpret(codec, frame).Malformed?
    ensures var input := Dispatch.Interpret(codec, frame);
            && Enabled(o, r, env, OfTalk(Hear(input, size)))
            && var t := Next(o, r, env, OfTalk(Hear(input, size)));
               && t.pc == Session(Top) && t.box == r.box && t.beat == r.beat
               && EventsOf(t.past.log) == EventsOf(r.past.log) + [Failure(input.error)] && input.error.Protocol?
               && Acks(t.past.wire, socket) == Acks(r.past.wire, socket)
               && Receipts(t.past.log, socket) == Receipts(r.past.log, socket)
  {
    hide Dispatch.Interpret;
    Dispatch.InterpretPlausible(codec, frame);
    var x := Logged(r.socket, Failure(Dispatch.Interpret(codec, frame).error));
    assert (r.past.log + [x])[..|r.past.log|] == r.past.log;
  }

  // ---- Progress ----

  lemma {:induction false} LeastDeadline(pending: map<Id, nat>, ids: set<Id>, heartbeat: nat) returns (timer: nat)
    requires ids <= pending.Keys
    ensures timer <= heartbeat && (forall id :: id in ids ==> timer <= pending[id])
    ensures timer == heartbeat || exists id :: id in ids && pending[id] == timer
    decreases ids
  {
    if ids == {} {
      timer := heartbeat;
    } else {
      var id :| id in ids;
      timer := LeastDeadline(pending, ids - {id}, heartbeat);
      if pending[id] < timer {
        timer := pending[id];
      }
    }
  }

  lemma SupervisorStep(o: Options, run: Run, env: Env) returns (a: Act)
    requires !run.pc.Session? && !run.pc.Finished? && !Awaiting(run.pc)
    ensures Enabled(o, run, env, a) && a.OfLife?
  {
    match run.pc
    case DialFailed(_) => a := OfLife(GiveUpDial);
    case Opened(_) => a := OfLife(Count);
    case Counted(_) => a := OfLife(GoLive);
    case Live(_) => a := OfLife(TellStatus);
    case Announced(_) => a := OfLife(TellFirst);
    case Greeted(_) => a := OfLife(Enter);
    case Leaving(_) =>
      if run.box.pending == map[] {
        a := OfLife(Worker.Left);
      } else {
        var id :| id in run.box.pending;
        a := OfLife(DropOne(id));
      }
    case Lowering(_) => a := OfLife(Lower);
    case Clearing(_) => a := OfLife(Clear);
    case Draining(_, held) =>
      a := OfLife(if held.Some? then SettleStale else if run.box.queue != [] then TakeStale else Drained);
    case Reporting(_) => a := OfLife(Report);
    case Complaining(_) => a := OfLife(Complain);
    case Judging => a := OfLife(Judge);
    case Pausing => a := OfLife(Pause(0));
    case Aborting => a := OfLife(Abort);
    case Signing => a := OfLife(Sign);
    case Ending(_) => a := OfLife(EndLower);
    case Settling(_) => a := OfLife(EndFirst);
    case Failing(_) => a := OfLife(EndStatus);
    case Shutting(_) => a := OfLife(EndClose);
  }

  lemma SessionStep(o: Options, run: Run, env: Env) returns (a: Act)
    requires run.pc.Session? && !Awaiting(run.pc) && AnsweringOk(run)
    ensures Enabled(o, run, env, a) && !(a.OfTalk? && a.talk.Fire?)
  {
    match run.pc.spot
    case Top => a := OfSess(Look);
    case Retaining(_, todo) =>
      if todo == {} {
        a := OfSess(KeepDone);
      } else {
        var id :| id in todo;
        a := OfSess(KeepOne(id));
      }
    case Expiring(_, todo) =>
      if todo == {} {
        var timer := LeastDeadline(run.box.pending, run.box.pending.Keys, HeartbeatDue(run.beat.ping, run.beat.next));
        a := OfSess(ExpireDone(timer));
      } else {
        var id :| id in todo;
        a := OfSess(ExpireOne(id));
      }
    case Took(_) => a := OfSess(CheckOpen);
    case Open(_) => a := OfSess(CheckGeneration);
    case Current(_) => a := OfSess(CheckDeadline);
    case Answering(_, _) => a := OfTalk(Answer);
  }

  lemma RunAnswering(o: Options, s: State, r: nat)
    requires Valid(o) && Reached(o, s) && r < |s.runs|
    ensures AnsweringOk(s.runs[r])
  {
    hide Reached, CommandsOk, TracesOk, LogOk, FaceOk, OutageOk;
    RunHolds(o, s, r);
  }

  /** A worker is never stuck: wherever it does not await the outside it has a next step. */
  lemma NeverStuck(o: Options, s: State, r: nat) returns (a: Act)
    requires Valid(o) && Reached(o, s) && r < |s.runs| && !s.runs[r].pc.Finished? && !Awaiting(s.runs[r].pc)
    ensures RunEnabled(o, s, r, a)
  {
    hide Enabled, AnsweringOk, Awaiting, Reached;
    if s.runs[r].pc.Session? {
      RunAnswering(o, s, r);
      a := SessionStep(o, s.runs[r], EnvOf(s, r));
    } else {
      a := SupervisorStep(o, s.runs[r], EnvOf(s, r));
    }
  }
}
