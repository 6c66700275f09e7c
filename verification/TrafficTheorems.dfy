/** Safety of SEND traffic over every interleaving: fence, order, resolution, admission, correlation. */
module TrafficTheorems {
  import opened Types
  import opened Events
  import opened Worker
  import opened WorkerPlaces
  import opened WorkerOrder
  import opened WorkerAnswers
  import opened WorkerAcks
  import opened WorkerReplies
  import opened WorkerInvariant
  import opened Client
  import opened ClientGate
  import opened ClientCalls
  import opened ClientJoins
  import opened Reachable

  /** What holds of one run of a reached state. */
  lemma RunFacts(o: Options, s: State, r: nat)
    requires Valid(o) && Reached(o, s) && r < |s.runs|
    ensures CommandsOk(o, s.runs[r]) && AnswersOk(s.runs[r]) && RunCallsOk(s, r)
    ensures Inv(o, s)
  {
    ReachedOk(o, s);
    assert RunOk(o, s.runs[r], s.clock.now, s.clock.late);
  }

  // ---- Generation fence ----

  /** A SEND is on the wire only of the socket whose generation its caller read. */
  lemma GenerationFence(o: Options, s: State, r: nat, k: nat)
    requires Valid(o) && Reached(o, s) && r < |s.runs|
    requires k < |s.runs[r].past.wire| && s.runs[r].past.wire[k].out.Send?
    ensures var w := s.runs[r].past.wire[k];
            && w.out.cmd.id in s.calls
            && w.socket == s.calls[w.out.cmd.id].generation == w.out.cmd.generation
            && s.calls[w.out.cmd.id].run == Some(r)
  {
    hide Inv, CallOk;
    RunFacts(o, s, r);
    var run, cmd := s.runs[r], s.runs[r].past.wire[k].out.cmd;
    var i := OnSent(run.past.wire, k);
    var j := SubsequenceMember(Sent(run.past.wire), Passed(run), i);
    assert cmd in Accepted(run);
    assert CommandOk(s, r, cmd);
  }

  /** Where a SEND of the wire is among the SENDs. */
  lemma {:induction false} OnSent(wire: seq<Written>, k: nat) returns (i: nat)
    requires k < |wire| && wire[k].out.Send?
    ensures i < |Sent(wire)| && Sent(wire)[i] == wire[k].out.cmd
  {
    var before := wire[..|wire| - 1];
    if k == |wire| - 1 {
      i := |Sent(before)|;
    } else {
      i := OnSent(before, k);
    }
  }

  // ---- Combined traces ----

  /** The SENDs on all wires, run after run. */
  function WireTrace(runs: seq<Run>): seq<Command> {
    if runs == [] then [] else WireTrace(runs[..|runs| - 1]) + Sent(runs[|runs| - 1].past.wire)
  }

  /** The commands enqueued, run after run. */
  function EnqueueTrace(runs: seq<Run>): seq<Command> {
    if runs == [] then [] else EnqueueTrace(runs[..|runs| - 1]) + Accepted(runs[|runs| - 1])
  }

  ghost predicate RunsSeparate(runs: seq<Run>) {
    && (forall r :: 0 <= r < |runs| ==> OrderOk(runs[r]) && Distinct(Accepted(runs[r])))
    && (forall r, q, c, d :: 0 <= r < q < |runs| && c in Accepted(runs[r]) && d in Accepted(runs[q]) ==> c.id != d.id)
  }

  lemma {:induction false} EnqueueMember(runs: seq<Run>, c: Command) returns (r: nat)
    requires c in EnqueueTrace(runs)
    ensures r < |runs| && c in Accepted(runs[r])
  {
    var n := |runs| - 1;
    if c in Accepted(runs[n]) {
      r := n;
    } else {
      r := EnqueueMember(runs[..n], c);
    }
  }

  lemma {:induction false} TracesAgree(runs: seq<Run>)
    requires RunsSeparate(runs)
    ensures Distinct(EnqueueTrace(runs)) && Subsequence(WireTrace(runs), EnqueueTrace(runs))
  {
    if runs != [] {
      var n := |runs| - 1;
      var init, last := runs[..n], runs[n];
      TracesAgree(init);
      PassedAccepted(last);
      SubsequenceJoin(WireTrace(init), EnqueueTrace(init), Sent(last.past.wire), Accepted(last));
      forall i, j | 0 <= i < |EnqueueTrace(init)| && 0 <= j < |Accepted(last)|
        ensures EnqueueTrace(init)[i].id != Accepted(last)[j].id
      {
        var r := EnqueueMember(init, EnqueueTrace(init)[i]);
        assert Accepted(last)[j] in Accepted(runs[n]);
      }
    }
  }

  lemma PassedAccepted(r: Run)
    requires OrderOk(r)
    ensures Subsequence(Sent(r.past.wire), Accepted(r))
  {
    var passed, all := Passed(r), Accepted(r);
    assert passed == all[..|passed|];
    assert all == passed + all[|passed|..];
    SubsequenceNil(all[|passed|..]);
    SubsequenceJoin(Sent(r.past.wire), passed, [], all[|passed|..]);
    assert Sent(r.past.wire) + [] == Sent(r.past.wire);
  }

  lemma SubsequenceNil(b: seq<Command>)
    ensures Subsequence([], b)
  {
  }

  /**
   * No replay: over all runs and reconnects, every request is on the combined wire at most once, and the wire
   * order is a subsequence of the order of acceptance.
   */
  lemma NoReplay(o: Options, s: State)
    requires Valid(o) && Reached(o, s)
    ensures Subsequence(WireTrace(s.runs), EnqueueTrace(s.runs))
    ensures Distinct(EnqueueTrace(s.runs)) && Distinct(WireTrace(s.runs))
  {
    hide Inv, CallOk;
    forall r | 0 <= r < |s.runs| ensures OrderOk(s.runs[r]) && Distinct(Accepted(s.runs[r])) && RunCallsOk(s, r) {
      RunFacts(o, s, r);
    }
    forall r, q, c, d | 0 <= r < q < |s.runs| && c in Accepted(s.runs[r]) && d in Accepted(s.runs[q])
      ensures c.id != d.id
    {
      assert CommandOk(s, r, c) && CommandOk(s, q, d);
    }
    TracesAgree(s.runs);
    SubsequenceDistinct(WireTrace(s.runs), EnqueueTrace(s.runs));
  }

  /** What a step can do to the runs: nothing, start one, or move the last one. */
  ghost predicate RunsStep(s: State, t: State) {
    || t.runs == s.runs
    || t.runs == s.runs + [NewRun(s.flags.generation)]
    || (s.runs != [] && |t.runs| == |s.runs| && t.runs == s.runs[|s.runs| - 1 := t.runs[|s.runs| - 1]]
        && Appends(s.runs[|s.runs| - 1], t.runs[|s.runs| - 1]))
  }

  /** At most one command is accepted and at most one frame is written. */
  ghost predicate Appends(p: Run, q: Run) {
    && (Accepted(q) == Accepted(p) || (|Accepted(q)| == |Accepted(p)| + 1 && Accepted(p) <= Accepted(q)))
    && (q.past.wire == p.past.wire || (|q.past.wire| == |p.past.wire| + 1 && p.past.wire <= q.past.wire))
  }

  /** The run that steps is the last one, and its socket is the current generation. */
  lemma LiveRunFacts(o: Options, s: State, r: nat, a: Act)
    requires Inv(o, s) && RunEnabled(o, s, r, a)
    ensures r == |s.runs| - 1 && s.runs[r].socket == s.flags.generation && !s.runs[r].pc.Finished?
    ensures RunOk(o, s.runs[r], s.clock.now, s.clock.late) && PlacesOk(s.runs[r]) && ShapeOk(s.runs[r])
    ensures s.gate.slot == Some(r)
  {
    hide RunOk, Next, Enabled, CallsOk, PermitsOk, JoinsOk, LockOk, DestroyOk;
    LiveRunIsLast(o, s, r, a);
    RunPlaces(o, s, r);
  }

  lemma RunAppends(o: Options, s: State, r: nat, a: Act)
    requires Inv(o, s) && RunEnabled(o, s, r, a)
    ensures RunsStep(s, RunNext(o, s, r, a))
  {
    hide Inv, Next, Enabled, MoveOf, RunOk;
    LiveRunFacts(o, s, r, a);
    RunFrames(o, s, r, a);
    StepMoves(o, s.runs[r], EnvOf(s, r), a);
    MoveKeepsPlaces(s.runs[r], MoveOf(o, s.runs[r], EnvOf(s, r), a), Next(o, s.runs[r], EnvOf(s, r), a));
    StepAcks(o, s.runs[r], EnvOf(s, r), a);
  }

  lemma StepRuns(o: Options, s: State, a: Action)
    requires Inv(o, s) && StepEnabled(o, s, a)
    ensures RunsStep(s, Step(o, s, a))
  {
    hide RunOk, RunCallsOk, PermitsOk, JoinsOk, CallNext, JoinNext, CloseNext, RunNext;
    match a
    case OfCall(id, act) => CallAppends(o, s, id, act);
    case OfJoin(k, act) => JoinFrames(s, k, act);
    case OfClose(k, act) =>
      CloseFrames(s, k, act);
      CloseEffects(s, k, act);
    case OfRun(r, act) => RunAppends(o, s, r, act);
    case _ =>
  }

  lemma CallAppends(o: Options, s: State, id: Id, a: CallAct)
    requires Inv(o, s) && CallEnabled(s, id, a)
    ensures RunsStep(s, CallNext(o, s, id, a))
  {
    hide RunOk, RunCallsOk, PermitsOk, JoinsOk;
    assert CallOk(o, s, id);
    CallFrames(o, s, id, a);
    CallEffects(o, s, id, a);
    var t := CallNext(o, s, id, a);
    if t.runs != s.runs {
      var last := |s.runs| - 1;
      assert Accepted(t.runs[last]) == Accepted(s.runs[last]) + [CommandOf(id, s.calls[id])];
    }
  }

  lemma SentGrows(p: seq<Written>, q: seq<Written>)
    requires q == p || (|q| == |p| + 1 && p <= q)
    ensures Sent(p) <= Sent(q) && |Sent(q)| <= |Sent(p)| + 1
  {
    if q != p {
      assert q[..|q| - 1] == p;
    }
  }

  ghost predicate Extends(a: seq<Command>, b: seq<Command>) {
    a <= b && |b| <= |a| + 1
  }

  lemma TracesStep(s: State, t: State)
    requires RunsStep(s, t)
    ensures Extends(EnqueueTrace(s.runs), EnqueueTrace(t.runs)) && Extends(WireTrace(s.runs), WireTrace(t.runs))
  {
    if t.runs == s.runs {
    } else if t.runs == s.runs + [NewRun(s.flags.generation)] {
      assert t.runs[..|s.runs|] == s.runs;
    } else {
      var n := |s.runs| - 1;
      assert t.runs[..n] == s.runs[..n];
      SentGrows(s.runs[n].past.wire, t.runs[n].past.wire);
    }
  }

  /** The combined traces are in real time: a step appends at most one command to each and changes nothing before. */
  lemma TracesAppendOnly(o: Options, s: State, a: Action)
    requires Inv(o, s) && StepEnabled(o, s, a)
    ensures Extends(EnqueueTrace(s.runs), EnqueueTrace(Step(o, s, a).runs))
    ensures Extends(WireTrace(s.runs), WireTrace(Step(o, s, a).runs))
  {
    hide Inv, Step, StepEnabled, RunsStep, Extends, EnqueueTrace, WireTrace;
    StepRuns(o, s, a);
    TracesStep(s, Step(o, s, a));
  }

  // ---- Exactly one resolution, none lost ----

  function One(b: bool): nat {
    if b then 1 else 0
  }

  /** In how many places a request is: queue, hand, pending map, or settled. */
  ghost function PlaceCount(r: Run, id: Id): nat {
    One(id in Ids(r.box.queue)) + One(id in Held(r.pc)) + One(id in r.box.pending) + One(id in SettledIds(r.box.settled))
  }

  lemma PlacedOnce(r: Run, id: Id)
    requires PlacesOk(r) && id in Ids(Accepted(r))
    ensures PlaceCount(r, id) == 1
  {
    HandNotQueued(r);
    SettledPopped(r);
    var c :| c in Accepted(r) && c.id == id;
    if c in r.box.queue {
      assert id in Ids(r.box.queue);
    } else {
      assert c in r.box.popped && id in Ids(r.box.popped);
    }
  }

  lemma SettledPopped(r: Run)
    requires PlacesOk(r)
    ensures SettledIds(r.box.settled) <= Ids(r.box.popped) && r.box.pending.Keys <= Ids(r.box.popped) && Held(r.pc) <= Ids(r.box.popped)
  {
  }

  /**
   * An enqueued request is in exactly one place, settled at most once, and settled iff its caller has been
   * answered or will find the sender gone; only the worker in the slot can still have it.
   */
  lemma ExactlyOneResolution(o: Options, s: State, id: Id)
    requires Valid(o) && Reached(o, s) && id in s.calls && s.calls[id].run.Some?
    ensures s.calls[id].run.value < |s.runs|
    ensures var run := s.runs[s.calls[id].run.value];
            && PlaceCount(run, id) == 1 && DistinctSettled(run.box.settled)
            && (id in SettledIds(run.box.settled) <==> !s.calls[id].reply.Unsent?)
            && (s.calls[id].reply.Unsent? ==> !run.pc.Finished?)
  {
    hide Inv, RunOk;
    var r := s.calls[id].run.value;
    CallFacts(o, s, id);
    RunFacts(o, s, r);
    assert CommandOf(id, s.calls[id]) in Accepted(s.runs[r]);
    PlacedOnce(s.runs[r], id);
    if s.runs[r].pc.Finished? {
      FinishedEmpty(s.runs[r]);
      assert id !in Inside(s.runs[r]);
    }
  }

  lemma CallFacts(o: Options, s: State, id: Id)
    requires Valid(o) && Reached(o, s) && id in s.calls
    ensures CallOk(o, s, id)
  {
    hide RunOk, GateOk, JoinsOk;
    ReachedOk(o, s);
  }

  /** When a run is over nothing is left in it, and everything it accepted has been settled. */
  lemma FinishedRunSettledAll(o: Options, s: State, r: nat)
    requires Valid(o) && Reached(o, s) && r < |s.runs| && s.runs[r].pc.Finished?
    ensures s.runs[r].box.queue == [] && s.runs[r].box.pending == map[] && s.runs[r].box.closed
    ensures Ids(Accepted(s.runs[r])) == SettledIds(s.runs[r].box.settled)
  {
    hide Inv;
    RunFacts(o, s, r);
    assert Accepted(s.runs[r]) == s.runs[r].box.popped;
  }

  /** A resolution is final: once settled, the reply never changes. */
  lemma ReplyFinal(o: Options, s: State, a: Action, id: Id)
    requires Inv(o, s) && StepEnabled(o, s, a) && id in s.calls && !s.calls[id].reply.Unsent?
    ensures id in Step(o, s, a).calls && Step(o, s, a).calls[id].reply == s.calls[id].reply
  {
    hide RunOk, GateOk, JoinsOk, PermitsOk, CallNext, JoinNext, CloseNext, RunNext;
    assert CallOk(o, s, id);
    match a
    case OfCall(x, act) =>
      assert CallOk(o, s, x);
      CallFrames(o, s, x, act);
      CallEffects(o, s, x, act);
    case OfJoin(k, act) => JoinFrames(s, k, act);
    case OfClose(k, act) => CloseFrames(s, k, act);
    case OfRun(r, act) => RunReplyFinal(o, s, r, act, id);
    case _ =>
  }

  lemma RunReplyFinal(o: Options, s: State, r: nat, a: Act, id: Id)
    requires Inv(o, s) && RunEnabled(o, s, r, a) && id in s.calls && !s.calls[id].reply.Unsent?
    ensures id in RunNext(o, s, r, a).calls && RunNext(o, s, r, a).calls[id].reply == s.calls[id].reply
  {
    hide RunOk, GateOk, JoinsOk, PermitsOk, Next, Enabled, MoveOf, CallOk, RunNext;
    RunFrames(o, s, r, a);
    RunPlaces(o, s, r);
    RunEffects(o, s, r, a);
    var x := SettledBy(s.runs[r], MoveOf(o, s.runs[r], EnvOf(s, r), a));
    if x.Some? && x.value.id == id {
      SettledReply(o, s, r, id);
    }
  }

  /** A popped, unsettled request of a run has not been answered. */
  lemma SettledReply(o: Options, s: State, r: nat, id: Id)
    requires CallsOk(o, s) && r < |s.runs| && id in s.calls
    requires id in Ids(s.runs[r].box.popped) && id !in SettledIds(s.runs[r].box.settled)
    ensures s.calls[id].reply.Unsent?
  {
    assert CallOk(o, s, id) && RunCallsOk(s, r);
    var c :| c in s.runs[r].box.popped && c.id == id;
    assert c in Accepted(s.runs[r]) && CommandOk(s, r, c);
  }

  // ---- Admission ----

  /** Requests with the worker, by place. */
  ghost function WithWorker(s: State): nat {
    if s.runs == [] then 0
    else
      var last := s.runs[|s.runs| - 1];
      |last.box.queue| + |Held(last.pc)| + |last.box.pending|
  }

  lemma {:induction false} DistinctSize(cmds: seq<Command>)
    requires Distinct(cmds)
    ensures |Ids(cmds)| == |cmds|
  {
    if cmds == [] {
      assert Ids(cmds) == {};
    } else {
      var n := |cmds| - 1;
      DistinctSize(cmds[..n]);
      IdsAppend(cmds[..n], cmds[n]);
      assert cmds[..n] + [cmds[n]] == cmds;
    }
  }

  lemma InsideSize(r: Run)
    requires PlacesOk(r)
    ensures |Inside(r)| == |r.box.queue| + |Held(r.pc)| + |r.box.pending|
  {
    HandNotQueued(r);
    SettledPopped(r);
    QueueDistinct(r);
    DistinctSize(r.box.queue);
    assert |r.box.pending.Keys| == |r.box.pending|;
    assert Ids(r.box.queue) !! Held(r.pc) !! r.box.pending.Keys;
    DisjointSizes(Ids(r.box.queue), Held(r.pc), r.box.pending.Keys);
  }

  lemma DisjointSizes(a: set<Id>, b: set<Id>, c: set<Id>)
    requires a !! b !! c
    ensures |a + b + c| == |a| + |b| + |c|
  {
  }

  lemma QueueDistinct(r: Run)
    requires Distinct(Accepted(r))
    ensures Distinct(r.box.queue)
  {
    var all, n := Accepted(r), |r.box.popped|;
    forall i, j | 0 <= i < j < |r.box.queue| ensures r.box.queue[i].id != r.box.queue[j].id {
      assert all[n + i] == r.box.queue[i] && all[n + j] == r.box.queue[j];
    }
  }

  /**
   * Every permit is free, with a caller, in the queue, in the worker's hand or pending; nowhere else and
   * never twice. The sum is `max_in_flight` in every reachable state.
   */
  lemma AdmissionConserved(o: Options, s: State)
    requires Valid(o) && Reached(o, s)
    ensures s.free + |Holders(s.calls)| + WithWorker(s) == o.maxInFlight
  {
    hide GateOk, JoinsOk, RunsOk, CallsOk, Users, WithWorker, Holders, Reached;
    ReachedOk(o, s);
    UsersSize(o, s);
  }

  lemma UsersSize(o: Options, s: State)
    requires RunsOk(o, s) && CallsOk(o, s)
    ensures |Users(s)| == |Holders(s.calls)| + WithWorker(s)
  {
    hide RunsOk, CallsOk, Holders;
    HoldersApart(o, s);
    DisjointSize(Holders(s.calls), InWorker(s));
    InWorkerSize(o, s);
  }

  lemma InWorkerSize(o: Options, s: State)
    requires RunsOk(o, s)
    ensures |InWorker(s)| == WithWorker(s)
  {
    hide RunsOk, Inside;
    if s.runs != [] {
      RunPlaces(o, s, |s.runs| - 1);
      InsideSize(s.runs[|s.runs| - 1]);
    }
  }

  lemma DisjointSize(a: set<Id>, b: set<Id>)
    requires a !! b
    ensures |a + b| == |a| + |b|
  {
  }

  lemma HoldersApart(o: Options, s: State)
    requires RunsOk(o, s) && CallsOk(o, s)
    ensures Holders(s.calls) !! InWorker(s)
  {
    hide RunOk;
    forall id | id in Holders(s.calls) ensures id !in InWorker(s) {
      assert CallOk(o, s, id);
      NotInWorker(o, s, id);
    }
  }

  /** A request holds a permit from its enqueueing until the worker lets go of it, whatever its caller does. */
  lemma PermitUntilReply(o: Options, s: State, id: Id)
    requires Valid(o) && Reached(o, s) && id in s.calls && s.calls[id].run.Some?
    ensures id in Users(s) <==> s.calls[id].reply.Unsent?
  {
    hide Inv, RunOk, PlaceCount, DistinctSettled;
    ExactlyOneResolution(o, s, id);
    var r, last := s.calls[id].run.value, |s.runs| - 1;
    InsideIff(s.runs[r], id);
    NotAHolder(o, s, id);
    if r != last {
      NotInOtherRun(o, s, id, last);
    }
  }

  lemma InsideIff(r: Run, id: Id)
    requires PlaceCount(r, id) == 1
    ensures id in Inside(r) <==> id !in SettledIds(r.box.settled)
  {
  }

  lemma NotAHolder(o: Options, s: State, id: Id)
    requires Valid(o) && Reached(o, s) && id in s.calls && s.calls[id].run.Some?
    ensures id !in Holders(s.calls)
    ensures s.calls[id].run.value < |s.runs|
    ensures !s.runs[s.calls[id].run.value].pc.Finished? ==> s.calls[id].run.value == |s.runs| - 1
  {
    hide RunOk, JoinsOk, LockOk, FlagsOk, DestroyOk;
    ReachedOk(o, s);
    assert CallOk(o, s, id);
  }

  lemma NotInOtherRun(o: Options, s: State, id: Id, r: nat)
    requires Valid(o) && Reached(o, s) && id in s.calls && r < |s.runs| && s.calls[id].run != Some(r)
    ensures id !in Inside(s.runs[r])
  {
    hide Inv, Inside;
    RunFacts(o, s, r);
    InsideAccepted(s.runs[r]);
    forall c | c in Accepted(s.runs[r]) ensures c.id != id {
      assert CommandOk(s, r, c);
    }
  }

  /** The queue is never full when a caller that passed admission reaches `try_send`. */
  lemma NeverFull(o: Options, s: State, id: Id)
    requires Valid(o) && Reached(o, s) && id in s.calls && s.calls[id].pc.Enqueue? && s.gate.slot.Some?
    ensures s.gate.slot.value < |s.runs| && |s.runs[s.gate.slot.value].box.queue| < o.maxInFlight
  {
    hide RunOk, LockOk, FlagsOk, DestroyOk, JoinsOk, CallOk, RunCallsOk, PermitsOk;
    ReachedOk(o, s);
    AdmissionConserved(o, s);
    assert id in Holders(s.calls);
    assert |Holders(s.calls)| >= 1 by {
      assert Holders(s.calls) != {};
    }
  }

  /** At rest every permit is free again. */
  lemma QuiescentPermitsFree(o: Options, s: State)
    requires Valid(o) && Reached(o, s)
    requires forall id :: id in s.calls ==> s.calls[id].pc.Done?
    requires AllFinished(s)
    ensures s.free == o.maxInFlight
  {
    hide RunsOk, GateOk, JoinsOk, CallsOk, PermitsOk, InWorker, Reached;
    ReachedOk(o, s);
    NothingInWorker(o, s);
    NobodyHolds(o, s);
  }

  lemma NothingInWorker(o: Options, s: State)
    requires RunsOk(o, s) && AllFinished(s)
    ensures InWorker(s) == {}
  {
    hide RunsOk;
    if s.runs != [] {
      RunPlaces(o, s, |s.runs| - 1);
      FinishedEmpty(s.runs[|s.runs| - 1]);
    }
  }

  lemma NobodyHolds(o: Options, s: State)
    requires PermitsOk(o, s) && InWorker(s) == {} && forall id :: id in s.calls ==> s.calls[id].pc.Done?
    ensures s.free == o.maxInFlight
  {
    assert Holders(s.calls) == {};
    assert Users(s) == {};
  }

  // ---- Correlation ----

  /** What each way of leaving the worker puts on the caller's reply channel. */
  predicate Tells(fate: Fate, reply: ReplyState) {
    match fate
    case Answered(_, result) => reply == Replied(result)
    case Expired => reply == Replied(Err(Timeout))
    case Late => reply == Replied(Err(Timeout))
    case Stale => reply == Replied(Err(Disconnected))
    case Cleared => reply == Replied(Err(Disconnected))
    case RunEnded(e) => reply == Replied(Err(e))
    case Dropped => reply == SenderGone
    case Discarded => reply == SenderGone
  }

  /** A reply of the wire is the first answer to the caller's own request since it became pending. */
  lemma AnswerIsOwn(o: Options, s: State, r: nat, k: nat)
    requires Valid(o) && Reached(o, s) && r < |s.runs| && k < |s.runs[r].box.settled|
    ensures var run, x := s.runs[r], s.runs[r].box.settled[k];
            && x.id in s.calls && Tells(x.fate, s.calls[x.id].reply)
            && if x.fate.Answered? then
                 FirstAnswer(run.past, x.id, x.fate.at) && run.past.heard[x.fate.at].result == x.fate.result
               else
                 x.id in run.past.pendedAt ==> Silent(run.past.heard, x.id, run.past.pendedAt[x.id], x.heardBefore)
  {
    hide Inv;
    RunFacts(o, s, r);
    assert SettledOk(s.runs[r].past, s.runs[r].box.settled[k]);
    assert s.runs[r].box.settled[k] in s.runs[r].box.settled;
  }

  /**
   * Every run's SendAck events are, in order, the results its requests were settled with, and perhaps one more
   * that is about to be handed over: one event for one accepted request.
   */
  lemma SendAcksMirrorAnswers(o: Options, s: State, r: nat)
    requires Valid(o) && Reached(o, s) && r < |s.runs|
    ensures var run := s.runs[r];
            SendAcks(run.past.log) == OkAnswers(run.box.settled) + Delivering(run) && DistinctSettled(run.box.settled)
  {
    hide Inv;
    ReachedOk(o, s);
    RunReplies(o, s, r);
  }

  lemma RunReplies(o: Options, s: State, r: nat)
    requires Inv(o, s) && r < |s.runs|
    ensures RepliesOk(s.runs[r]) && DistinctSettled(s.runs[r].box.settled)
  {
    assert RunOk(o, s.runs[r], s.clock.now, s.clock.late);
  }

  /** Where the `n`th SendAck event is. */
  lemma {:induction false} NthSendAck(log: seq<Logged>, n: nat) returns (e: nat)
    requires n < |SendAcks(log)|
    ensures e < |log| && log[e].event == SendAck(SendAcks(log)[n]) && |SendAcks(log[..e])| == n
  {
    var before := log[..|log| - 1];
    if n < |SendAcks(before)| {
      e := NthSendAck(before, n);
      assert log[..e] == before[..e];
    } else {
      e := |log| - 1;
    }
  }

  lemma {:induction false} NthAnswer(settled: seq<Settled>, k: nat)
    requires k < |settled| && settled[k].fate.Answered? && settled[k].fate.result.Ok?
    ensures |OkAnswers(settled[..k])| < |OkAnswers(settled)|
    ensures OkAnswers(settled)[|OkAnswers(settled[..k])|] == settled[k].fate.result.value
  {
    var before := settled[..|settled| - 1];
    if k < |before| {
      NthAnswer(before, k);
      assert settled[..k] == before[..k];
    }
  }

  /** The `e`th event is the SendAck of the `k`th settlement: as many results were reported before it as settled before. */
  ghost predicate OwnSendAck(run: Run, k: nat, e: nat) {
    && k < |run.box.settled| && e < |run.past.log|
    && run.box.settled[k].fate.Answered? && run.box.settled[k].fate.result.Ok?
    && run.past.log[e].event == SendAck(run.box.settled[k].fate.result.value)
    && |SendAcks(run.past.log[..e])| == |OkAnswers(run.box.settled[..k])|
  }

  lemma SendAckOf(run: Run, k: nat) returns (e: nat)
    requires RepliesOk(run) && k < |run.box.settled|
    requires run.box.settled[k].fate.Answered? && run.box.settled[k].fate.result.Ok?
    ensures OwnSendAck(run, k, e)
  {
    NthAnswer(run.box.settled, k);
    e := NthSendAck(run.past.log, |OkAnswers(run.box.settled[..k])|);
  }

  /** Two settlements never share an event. */
  lemma OwnSendAckUnique(run: Run, k: nat, j: nat, e: nat)
    requires OwnSendAck(run, k, e) && OwnSendAck(run, j, e)
    ensures k == j
  {
    if k < j {
      AnswersGrow(run.box.settled, k, j);
    } else if j < k {
      AnswersGrow(run.box.settled, j, k);
    }
  }

  lemma AnswersGrow(settled: seq<Settled>, k: nat, j: nat)
    requires k < j <= |settled| && settled[k].fate.Answered? && settled[k].fate.result.Ok?
    ensures |OkAnswers(settled[..k])| < |OkAnswers(settled[..j])|
  {
    NthAnswer(settled[..j], k);
    assert settled[..j][..k] == settled[..k];
  }

  /** A caller got Ok only from an answer to its own request, reported by a SendAck of its own. */
  lemma OkMeansAcknowledged(o: Options, s: State, id: Id, ack: SendResult)
    requires Valid(o) && Reached(o, s) && id in s.calls
    requires s.calls[id].pc == Done(Returned(Ok(ack)))
    ensures s.calls[id].run.Some? && s.calls[id].run.value < |s.runs|
    ensures var run := s.runs[s.calls[id].run.value];
            && (exists at: nat :: FirstAnswer(run.past, id, at) && run.past.heard[at].result == Ok(ack))
            && (exists k: nat, e: nat ::
                  OwnSendAck(run, k, e) && run.box.settled[k].id == id && run.box.settled[k].fate.result == Ok(ack))
  {
    hide Inv, RepliesOk, FirstAnswer, OwnSendAck;
    var r, k := AnswerOf(o, s, id, ack);
    RunFacts(o, s, r);
    RunReplies(o, s, r);
    var e := SendAckOf(s.runs[r], k);
    assert OwnSendAck(s.runs[r], k, e);
  }

  /** The settlement that a successful caller was answered with. */
  lemma AnswerOf(o: Options, s: State, id: Id, ack: SendResult) returns (r: nat, k: nat)
    requires Valid(o) && Reached(o, s) && id in s.calls
    requires s.calls[id].pc == Done(Returned(Ok(ack)))
    ensures s.calls[id].run == Some(r) && r < |s.runs| && k < |s.runs[r].box.settled|
    ensures var x := s.runs[r].box.settled[k];
            x.id == id && x.fate.Answered? && x.fate.result == Ok(ack) && FirstAnswer(s.runs[r].past, id, x.fate.at)
            && s.runs[r].past.heard[x.fate.at].result == Ok(ack)
  {
    hide Inv, RunOk, Reached, CommandsOk, SettledOk, Silent;
    CallFacts(o, s, id);
    r := s.calls[id].run.value;
    RunFacts(o, s, r);
    var run := s.runs[r];
    assert id in SettledIds(run.box.settled);
    var x :| x in run.box.settled && x.id == id;
    k :| 0 <= k < |run.box.settled| && run.box.settled[k] == x;
    SettledAnswer(run, k);
  }

  lemma SettledAnswer(run: Run, k: nat)
    requires AllSettledOk(run) && k < |run.box.settled| && run.box.settled[k].fate.Answered?
    ensures var x := run.box.settled[k];
            FirstAnswer(run.past, x.id, x.fate.at) && run.past.heard[x.fate.at].result == x.fate.result
  {
    assert SettledOk(run.past, run.box.settled[k]);
  }
}
