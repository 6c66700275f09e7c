/** What every step of a run keeps, and what the outside may do to it. */
module WorkerInvariant {
  import opened Types
  import opened Worker
  import opened WorkerPlaces
  import opened WorkerOrder
  import opened WorkerAnswers
  import opened WorkerBeat
  import opened WorkerPings
  import opened WorkerReplies
  import opened WorkerConnects
  import opened WorkerLog
  import opened WorkerAcks
  import opened WorkerFace
  import opened WorkerOutage

  /** No accepted command is too large to be written. */
  ghost predicate SizesOk(o: Options, r: Run) {
    forall c :: c in Accepted(r) ==> c.size <= o.maxMessageSize
  }

  ghost predicate CommandsOk(o: Options, r: Run) {
    PlacesOk(r) && ShapeOk(r) && OrderOk(r) && FenceOk(r) && SizesOk(o, r)
  }

  ghost predicate SessionOk(r: Run, now: nat) {
    AnswersOk(r) && PingsApart(r) && SweepOk(r, now) && BeatOk(r, now) && PendingWritten(r) && AcksOk(r)
  }

  ghost predicate TracesOk(r: Run) {
    PingTraceOk(r) && RepliesOk(r) && ConnectsOk(r)
  }

  ghost predicate RunOk(o: Options, r: Run, now: nat, late: nat) {
    CommandsOk(o, r) && SessionOk(r, now) && TracesOk(r) && LogOk(o, r) && FaceOk(r) && OutageOk(o, r, now, late)
  }

  lemma NewRunOk(o: Options, generation: nat, now: nat, late: nat)
    ensures RunOk(o, NewRun(generation), now, late)
  {
    hide CommandsOk, SessionOk, TracesOk, LogOk, FaceOk, OutageOk;
    NewCommandsOk(o, generation);
    NewSessionOk(generation, now);
    NewRestOk(o, generation, now, late);
  }

  lemma NewCommandsOk(o: Options, generation: nat)
    ensures CommandsOk(o, NewRun(generation))
  {
  }

  lemma NewSessionOk(generation: nat, now: nat)
    ensures SessionOk(NewRun(generation), now) && TracesOk(NewRun(generation))
  {
  }

  lemma NewRestOk(o: Options, generation: nat, now: nat, late: nat)
    ensures LogOk(o, NewRun(generation)) && FaceOk(NewRun(generation)) && OutageOk(o, NewRun(generation), now, late)
  {
  }

  lemma StepKeepsRun(o: Options, r: Run, env: Env, a: Act)
    requires Valid(o) && RunOk(o, r, env.now, env.late) && Enabled(o, r, env, a)
    requires env.generation == r.socket && FreshFor(r, a)
    ensures RunOk(o, Next(o, r, env, a), env.now, env.late)
  {
    var s := Next(o, r, env, a);
    assert PlacesOk(s) && SizesOk(o, s) by {
      StepMoves(o, r, env, a);
      MoveKeepsPlaces(r, MoveOf(o, r, env, a), s);
    }
    StepKeepsShape(o, r, env, a);
    StepKeepsOrder(o, r, env, a);
    StepKeepsFence(o, r, env, a);
    StepKeepsAnswers(o, r, env, a);
    StepKeepsPings(o, r, env, a);
    StepKeepsSweep(o, r, env, a);
    StepKeepsBeat(o, r, env, a);
    StepKeepsWritten(o, r, env, a);
    StepKeepsAcks(o, r, env, a);
    StepKeepsPingTrace(o, r, env, a);
    StepKeepsReplies(o, r, env, a);
    StepKeepsConnects(o, r, env, a);
    StepKeepsLog(o, r, env, a);
    StepKeepsFace(o, r, env, a);
    StepKeepsOutage(o, r, env, a);
  }

  // ---- What senders and cancellation may do ----

  /** Nothing but the tail of the queue and the cancellation flag differs. */
  ghost predicate OutsideOnly(r: Run, s: Run) {
    s == r.(cancelled := s.cancelled, box := r.box.(queue := s.box.queue))
  }

  lemma OutsideKeepsBeat(r: Run, s: Run, now: nat)
    requires OutsideOnly(r, s) && SweepOk(r, now) && BeatOk(r, now) && PendingWritten(r) && AcksOk(r)
    ensures SweepOk(s, now) && BeatOk(s, now) && PendingWritten(s) && AcksOk(s)
  {
    hide AcksOk;
    AcksStay(r, s);
  }

  lemma OutsideKeepsTraces(r: Run, s: Run)
    requires OutsideOnly(r, s) && TracesOk(r)
    ensures TracesOk(s)
  {
    hide PingsSpaced;
  }

  lemma OutsideKeepsRest(o: Options, r: Run, s: Run, now: nat, late: nat)
    requires OutsideOnly(r, s) && LogOk(o, r) && FaceOk(r) && OutageOk(o, r, now, late)
    ensures LogOk(o, s) && FaceOk(s) && OutageOk(o, s, now, late)
  {
  }

  /** A sender may enqueue a new command of acceptable size while the queue is open. */
  lemma PushKeepsRun(o: Options, r: Run, cmd: Command, now: nat, late: nat)
    requires RunOk(o, r, now, late) && !r.box.closed
    requires cmd.id !in Ids(Accepted(r)) && cmd.id !in PingIds(r) && cmd.size <= o.maxMessageSize
    ensures RunOk(o, Push(r, cmd), now, late)
  {
    hide TracesOk, LogOk, FaceOk, OutageOk, CommandsOk, AnswersOk, PingsApart, SweepOk, BeatOk, PendingWritten, AcksOk;
    PushKeepsCommands(o, r, cmd);
    PushKeepsAnswers(o, r, cmd);
    OutsideKeepsBeat(r, Push(r, cmd), now);
    OutsideKeepsTraces(r, Push(r, cmd));
    OutsideKeepsRest(o, r, Push(r, cmd), now, late);
  }

  lemma PushKeepsCommands(o: Options, r: Run, cmd: Command)
    requires CommandsOk(o, r) && !r.box.closed && cmd.id !in Ids(Accepted(r)) && cmd.size <= o.maxMessageSize
    ensures CommandsOk(o, Push(r, cmd))
  {
    hide PlacesOk, ShapeOk;
    PushFacts(r, cmd);
  }

  lemma PushKeepsAnswers(o: Options, r: Run, cmd: Command)
    requires CommandsOk(o, r) && AnswersOk(r) && PingsApart(r) && !r.box.closed
    requires cmd.id !in Ids(Accepted(r)) && cmd.id !in PingIds(r)
    ensures AnswersOk(Push(r, cmd)) && PingsApart(Push(r, cmd))
  {
    hide PlacesOk, ShapeOk, OrderOk, FenceOk, SizesOk;
    PushFacts(r, cmd);
    IdsAppend(Accepted(r), cmd);
  }

  lemma CancelKeepsRun(o: Options, r: Run, now: nat, late: nat)
    requires RunOk(o, r, now, late)
    ensures RunOk(o, r.(cancelled := true), now, late)
  {
    hide TracesOk, LogOk, FaceOk, OutageOk, CommandsOk, AnswersOk, PingsApart, SweepOk, BeatOk, PendingWritten, AcksOk;
    var s := r.(cancelled := true);
    CancelKeepsCommands(o, r);
    CancelKeepsAnswers(r);
    OutsideKeepsBeat(r, s, now);
    OutsideKeepsTraces(r, s);
    OutsideKeepsRest(o, r, s, now, late);
  }

  lemma CancelKeepsCommands(o: Options, r: Run)
    requires CommandsOk(o, r)
    ensures CommandsOk(o, r.(cancelled := true))
  {
  }

  lemma CancelKeepsAnswers(r: Run)
    requires AnswersOk(r) && PingsApart(r)
    ensures AnswersOk(r.(cancelled := true)) && PingsApart(r.(cancelled := true))
  {
  }

  /** Time passes, and the scheduler may hold the worker back. */
  lemma TickKeepsRun(o: Options, r: Run, now: nat, late: nat, later: nat, later': nat)
    requires RunOk(o, r, now, late) && now <= later
    requires later' == late + Overrun(r, now, later) || (r.pc.Finished? && late <= later')
    ensures RunOk(o, r, later, later')
  {
    if !r.pc.Finished? {
      TickKeepsOutage(o, r, now, later, late);
    }
  }
}
