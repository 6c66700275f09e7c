/** Callers, commands, replies and permits: who waits for what, and where every permit is. */
module ClientCalls {
  import opened Types
  import opened Worker
  import opened WorkerPlaces
  import opened WorkerAnswers
  import opened WorkerInvariant
  import opened Client
  import opened ClientGate

  predicate Holding(pc: CallPc) {
    pc.Prepare? || pc.WaitLock? || pc.Recheck? || pc.Enqueue?
  }

  /** Calls that hold a permit themselves. */
  ghost function Holders(calls: map<Id, Call>): set<Id> {
    set id | id in calls && Holding(calls[id].pc)
  }

  /** Requests whose permit is with the worker. */
  ghost function InWorker(s: State): set<Id> {
    if s.runs == [] then {} else Inside(s.runs[|s.runs| - 1])
  }

  ghost function Users(s: State): set<Id> {
    Holders(s.calls) + InWorker(s)
  }

  /** Every permit is free, with a caller or with the worker. */
  ghost predicate PermitsOk(o: Options, s: State) {
    s.free + |Users(s)| == o.maxInFlight
  }

  predicate Enqueued(pc: CallPc) {
    pc.Await? || pc.Done?
  }

  /** A call's own record. */
  ghost predicate CallOk(o: Options, s: State, id: Id) {
    id in s.calls &&
    var c := s.calls[id];
    && (c.pc.WaitLock? || c.pc.Recheck? || c.pc.Enqueue? ==> c.size <= o.maxMessageSize)
    && (c.pc.Await? ==> c.run.Some?)
    && (c.receiverGone ==> c.pc.Done?)
    && match c.run
       case None => c.reply.Unsent? && (c.pc.Done? && c.pc.outcome.Returned? ==> c.pc.outcome.result.Err?)
       case Some(r) =>
         && r < |s.runs| && Enqueued(c.pc)
         && CommandOf(id, c) in Accepted(s.runs[r])
         && (c.reply.Unsent? <==> id !in SettledIds(s.runs[r].box.settled))
         && (c.pc.Done? && c.pc.outcome.Returned? ==> ReturnOk(c, c.pc.outcome.result))
  }

  /** A call that was enqueued returns what the worker sent, Disconnected if it never will, or Timeout. */
  predicate ReturnOk(c: Call, result: Result<SendResult>) {
    result == Err(Timeout) || c.reply == Replied(result) || (c.reply.SenderGone? && result == Err(Disconnected))
  }

  /** A command in a run is its caller's, and its caller knows. */
  ghost predicate CommandOk(s: State, r: nat, c: Command) {
    c.id in s.calls && s.calls[c.id].run == Some(r) && c == CommandOf(c.id, s.calls[c.id])
  }

  ghost predicate RunCallsOk(s: State, r: nat)
    requires r < |s.runs|
  {
    && (forall c :: c in Accepted(s.runs[r]) ==> CommandOk(s, r, c))
    && (forall x :: x in s.runs[r].box.settled ==> x.id in s.calls && s.calls[x.id].reply == ReplyFor(x.fate))
    && PingIds(s.runs[r]) <= s.ids
    && PingIds(s.runs[r]) !! s.calls.Keys
  }

  ghost predicate CallsOk(o: Options, s: State) {
    && s.calls.Keys <= s.ids
    && (forall id :: id in s.calls ==> CallOk(o, s, id))
    && (forall r :: 0 <= r < |s.runs| ==> RunCallsOk(s, r))
  }

  ghost predicate RunsOk(o: Options, s: State) {
    forall r :: 0 <= r < |s.runs| ==> RunOk(o, s.runs[r], s.clock.now, s.clock.late)
  }

  ghost predicate TrafficOk(o: Options, s: State) {
    RunsOk(o, s) && CallsOk(o, s) && PermitsOk(o, s)
  }

  // ---- Calls ----

  function PermitChange(before: CallPc, after: CallPc): int {
    if Holding(before) && !Holding(after) then 1 else if !Holding(before) && Holding(after) then -1 else 0
  }

  /** A call's step either concerns the call and one permit, or enqueues its command. */
  ghost predicate CallEffect(o: Options, s: State, id: Id, t: State)
    requires CallFrame(s, id, t)
  {
    var c, d := s.calls[id], t.calls[id];
    if d.run == c.run then
      && t.runs == s.runs && t.free == s.free + PermitChange(c.pc, d.pc)
      && d.reply == c.reply && (d.receiverGone ==> d.pc.Done?)
      && (c.run.Some? ==> CommandOf(id, d) == CommandOf(id, c) && Enqueued(d.pc))
      && (d.pc.Await? ==> c.pc.Await?)
      && (d.pc.WaitLock? || d.pc.Recheck? || d.pc.Enqueue? ==>
            d.size <= o.maxMessageSize || (d.size == c.size && (c.pc.WaitLock? || c.pc.Recheck? || c.pc.Enqueue?)))
      && (d.pc.Done? && d.pc.outcome.Returned? ==>
            || c.pc == d.pc
            || if c.run.Some? then ReturnOk(d, d.pc.outcome.result) else d.pc.outcome.result.Err?)
    else
      && c.pc.Enqueue? && d == c.(pc := Await, run := d.run) && d.run.Some?
      && t.gate.slot == d.run && d.run.value < |s.runs| && !s.runs[d.run.value].box.closed
      && t.runs == s.runs[d.run.value := Push(s.runs[d.run.value], CommandOf(id, c))]
      && t.free == s.free
  }

  lemma CallEffects(o: Options, s: State, id: Id, a: CallAct)
    requires CallEnabled(s, id, a) && CallOk(o, s, id) && CallFrame(s, id, CallNext(o, s, id, a))
    ensures CallEffect(o, s, id, CallNext(o, s, id, a))
  {
    hide CallFrame;
    if a.TrySend? {
      TrySendEffects(o, s, id);
    } else {
      OtherEffects(o, s, id, a);
    }
  }

  lemma TrySendEffects(o: Options, s: State, id: Id)
    requires CallEnabled(s, id, TrySend) && CallOk(o, s, id) && CallFrame(s, id, CallNext(o, s, id, TrySend))
    ensures CallEffect(o, s, id, CallNext(o, s, id, TrySend))
  {
  }

  lemma OtherEffects(o: Options, s: State, id: Id, a: CallAct)
    requires CallEnabled(s, id, a) && !a.TrySend? && CallOk(o, s, id) && CallFrame(s, id, CallNext(o, s, id, a))
    ensures CallEffect(o, s, id, CallNext(o, s, id, a))
  {
    hide SameRuns, HolderMoves;
  }

  lemma HoldersUpdate(calls: map<Id, Call>, id: Id, c: Call)
    ensures Holders(calls[id := c]) == if Holding(c.pc) then Holders(calls) + {id} else Holders(calls) - {id}
  {
  }

  lemma InsideAccepted(r: Run)
    requires PlacesOk(r)
    ensures Inside(r) <= Ids(Accepted(r))
  {
    forall id | id in Inside(r) ensures id in Ids(Accepted(r)) {
      if id in Ids(r.box.queue) {
        var c :| c in r.box.queue && c.id == id;
        assert c in Accepted(r);
      } else {
        assert id in Ids(r.box.popped);
        var c :| c in r.box.popped && c.id == id;
        assert c in Accepted(r);
      }
    }
  }

  /** A call that was not enqueued is unknown to every run. */
  lemma UnknownToRuns(o: Options, s: State, id: Id, r: nat)
    requires CallsOk(o, s) && id in s.calls && s.calls[id].run.None? && r < |s.runs|
    ensures id !in Ids(Accepted(s.runs[r]))
  {
    assert RunCallsOk(s, r);
    forall c | c in Accepted(s.runs[r]) ensures c.id != id {
      assert CommandOk(s, r, c);
    }
  }

  lemma NotInWorker(o: Options, s: State, id: Id)
    requires RunsOk(o, s) && CallsOk(o, s) && id in s.calls && s.calls[id].run.None?
    ensures id !in InWorker(s)
  {
    if s.runs != [] {
      UnknownToRuns(o, s, id, |s.runs| - 1);
      assert RunOk(o, s.runs[|s.runs| - 1], s.clock.now, s.clock.late);
      InsideAccepted(s.runs[|s.runs| - 1]);
    }
  }

  // A call's own step

  lemma QuietKeepsCalls(o: Options, s: State, id: Id, t: State)
    requires CallsOk(o, s) && CallFrame(s, id, t) && CallEffect(o, s, id, t) && t.calls[id].run == s.calls[id].run
    ensures CallsOk(o, t)
  {
    forall x | x in t.calls ensures CallOk(o, t, x) {
      assert CallOk(o, s, x) && CallOk(o, s, id);
    }
    forall r | 0 <= r < |t.runs| ensures RunCallsOk(t, r) {
      assert RunCallsOk(s, r);
      forall c | c in Accepted(t.runs[r]) ensures CommandOk(t, r, c) {
        assert CommandOk(s, r, c);
      }
    }
  }

  lemma QuietKeepsPermits(o: Options, s: State, id: Id, t: State)
    requires PermitsOk(o, s) && CallOk(o, s, id) && (s.calls[id].run.None? ==> id !in InWorker(s))
    requires CallFrame(s, id, t) && CallEffect(o, s, id, t) && t.calls[id].run == s.calls[id].run
    ensures PermitsOk(o, t)
  {
    hide Inside, CommandOf, ReturnOk, Accepted, SettledIds, SameRuns, HolderMoves, PermitsOk, Holders;
    HoldersUpdate(s.calls, id, t.calls[id]);
    HolderIff(s.calls, id);
    assert InWorker(t) == InWorker(s);
    var held, holds := Holding(s.calls[id].pc), Holding(t.calls[id].pc);
    if holds && !held {
      assert Users(t) == Users(s) + {id};
      PermitTaken(o, s, t, id);
    } else if held && !holds {
      assert Users(t) == Users(s) - {id};
      PermitGiven(o, s, t, id);
    } else {
      assert Users(t) == Users(s);
      PermitsStay(o, s, t);
    }
  }

  lemma HolderIff(calls: map<Id, Call>, id: Id)
    requires id in calls
    ensures id in Holders(calls) <==> Holding(calls[id].pc)
  {
  }

  lemma PermitTaken(o: Options, s: State, t: State, id: Id)
    requires PermitsOk(o, s) && Users(t) == Users(s) + {id} && id !in Users(s) && t.free + 1 == s.free
    ensures PermitsOk(o, t)
  {
    hide Users;
  }

  lemma PermitGiven(o: Options, s: State, t: State, id: Id)
    requires PermitsOk(o, s) && Users(t) == Users(s) - {id} && id in Users(s) && t.free == s.free + 1
    ensures PermitsOk(o, t)
  {
    hide Users;
  }

  lemma PermitsStay(o: Options, s: State, t: State)
    requires PermitsOk(o, s) && Users(t) == Users(s) && t.free == s.free
    ensures PermitsOk(o, t)
  {
    hide Users;
  }

  lemma QuietKeepsRuns(o: Options, s: State, t: State)
    requires RunsOk(o, s) && t.runs == s.runs && t.clock == s.clock
    ensures RunsOk(o, t)
  {
  }

  // Enqueueing

  lemma PushKeepsPermits(o: Options, s: State, id: Id, t: State, last: nat)
    requires PermitsOk(o, s) && id in s.calls && Holding(s.calls[id].pc) && id !in InWorker(s)
    requires |t.runs| == |s.runs| == last + 1 && t.free == s.free
    requires Inside(t.runs[last]) == Inside(s.runs[last]) + {id}
    requires id in t.calls && t.calls == s.calls[id := t.calls[id]] && t.calls[id].pc.Await?
    ensures PermitsOk(o, t)
  {
    HoldersUpdate(s.calls, id, t.calls[id]);
    assert Users(t) == Users(s);
  }

  lemma PushKeepsRuns(o: Options, s: State, t: State, last: nat, cmd: Command)
    requires RunsOk(o, s) && last < |s.runs| && !s.runs[last].box.closed && t.clock == s.clock
    requires t.runs == s.runs[last := Push(s.runs[last], cmd)]
    requires cmd.id !in Ids(Accepted(s.runs[last])) && cmd.id !in PingIds(s.runs[last]) && cmd.size <= o.maxMessageSize
    ensures RunsOk(o, t)
  {
    PushKeepsRun(o, s.runs[last], cmd, s.clock.now, s.clock.late);
  }

  lemma PushEffect(o: Options, s: State, last: nat, cmd: Command)
    requires RunsOk(o, s) && last < |s.runs| && !s.runs[last].box.closed
    requires cmd.id !in Ids(Accepted(s.runs[last]))
    ensures Inside(Push(s.runs[last], cmd)) == Inside(s.runs[last]) + {cmd.id}
    ensures Accepted(Push(s.runs[last], cmd)) == Accepted(s.runs[last]) + [cmd]
    ensures PlacesOk(s.runs[last])
  {
    assert RunOk(o, s.runs[last], s.clock.now, s.clock.late);
    PushFacts(s.runs[last], cmd);
  }

  lemma PushKeepsTraffic(o: Options, s: State, id: Id, t: State)
    requires GateOk(s) && TrafficOk(o, s)
    requires CallFrame(s, id, t) && CallEffect(o, s, id, t) && t.calls[id].run != s.calls[id].run
    ensures TrafficOk(o, t)
  {
    hide RunOk, PermitsOk;
    var c, last := s.calls[id], |s.runs| - 1;
    var cmd := CommandOf(id, c);
    assert CallOk(o, s, id);
    UnknownToRuns(o, s, id, last);
    NotInWorker(o, s, id);
    assert RunCallsOk(s, last);
    PushEffect(o, s, last, cmd);
    PushKeepsRuns(o, s, t, last, cmd);
    PushKeepsCalls(o, s, id, t, last);
    PushKeepsPermits(o, s, id, t, last);
  }

  lemma PushKeepsCalls(o: Options, s: State, id: Id, t: State, last: nat)
    requires CallsOk(o, s) && CallFrame(s, id, t) && CallEffect(o, s, id, t)
    requires s.calls[id].run == None && t.calls[id].run == Some(last) && last < |s.runs|
    requires Accepted(t.runs[last]) == Accepted(s.runs[last]) + [CommandOf(id, s.calls[id])]
    requires PlacesOk(s.runs[last]) && id !in Ids(Accepted(s.runs[last]))
    ensures CallsOk(o, t)
  {
    var cmd := CommandOf(id, s.calls[id]);
    assert CallOk(o, s, id);
    SettledAccepted(s.runs[last]);
    forall x | x in t.calls ensures CallOk(o, t, x) {
      assert CallOk(o, s, x);
      if x != id && s.calls[x].run == Some(last) {
        assert CommandOf(x, s.calls[x]) in Accepted(t.runs[last]);
      }
    }
    forall r | 0 <= r < |t.runs| ensures RunCallsOk(t, r) {
      assert RunCallsOk(s, r);
      forall d | d in Accepted(t.runs[r]) ensures CommandOk(t, r, d) {
        if r != last || d != cmd {
          assert CommandOk(s, r, d);
        }
      }
    }
  }

  lemma SettledAccepted(r: Run)
    requires PlacesOk(r)
    ensures SettledIds(r.box.settled) <= Ids(Accepted(r))
  {
    forall id | id in SettledIds(r.box.settled) ensures id in Ids(Accepted(r)) {
      assert id in Ids(r.box.popped);
      var c :| c in r.box.popped && c.id == id;
      assert c in Accepted(r);
    }
  }

  lemma CallKeepsTraffic(o: Options, s: State, id: Id, a: CallAct)
    requires GateOk(s) && TrafficOk(o, s) && CallEnabled(s, id, a)
    ensures TrafficOk(o, CallNext(o, s, id, a))
  {
    var t := CallNext(o, s, id, a);
    CallFrames(o, s, id, a);
    assert CallOk(o, s, id);
    CallEffects(o, s, id, a);
    if t.calls[id].run == s.calls[id].run {
      QuietKeepsCalls(o, s, id, t);
      if s.calls[id].run.None? {
        NotInWorker(o, s, id);
      }
      QuietKeepsPermits(o, s, id, t);
      QuietKeepsRuns(o, s, t);
    } else {
      PushKeepsTraffic(o, s, id, t);
    }
  }

  // ---- Connects and closes ----

  lemma FinishedEmpty(r: Run)
    requires ShapeOk(r) && r.pc.Finished?
    ensures Inside(r) == {}
  {
  }

  lemma JoinKeepsTraffic(o: Options, s: State, k: nat, a: JoinAct)
    requires GateOk(s) && TrafficOk(o, s) && JoinEnabled(s, k, a)
    ensures TrafficOk(o, JoinNext(s, k, a))
  {
    var t := JoinNext(s, k, a);
    JoinFrames(s, k, a);
    JoinKeepsCount(s, k, a);
    if t.runs == s.runs {
      SameKeepsTraffic(o, s, t);
    } else {
      SpawnKeepsTraffic(o, s, t);
    }
  }

  lemma JoinKeepsCount(s: State, k: nat, a: JoinAct)
    requires JoinEnabled(s, k, a)
    ensures JoinNext(s, k, a).free == s.free
  {
  }

  lemma SameKeepsTraffic(o: Options, s: State, t: State)
    requires TrafficOk(o, s)
    requires t.runs == s.runs && t.calls == s.calls && t.free == s.free && t.clock == s.clock && t.ids == s.ids
    ensures TrafficOk(o, t)
  {
    hide RunOk, CallOk, RunCallsOk, Inside;
    SameKeepsCalls(o, s, t);
    QuietKeepsRuns(o, s, t);
    assert Users(t) == Users(s);
  }

  lemma SameKeepsCalls(o: Options, s: State, t: State)
    requires CallsOk(o, s) && t.runs == s.runs && t.calls == s.calls && t.ids == s.ids
    ensures CallsOk(o, t)
  {
    forall x | x in t.calls ensures CallOk(o, t, x) {
      assert CallOk(o, s, x);
    }
    forall r | 0 <= r < |t.runs| ensures RunCallsOk(t, r) {
      assert RunCallsOk(s, r);
      forall c | c in Accepted(t.runs[r]) ensures CommandOk(t, r, c) {
        assert CommandOk(s, r, c);
      }
    }
  }

  lemma SpawnKeepsTraffic(o: Options, s: State, t: State)
    requires GateOk(s) && TrafficOk(o, s) && StartsRun(s)
    requires t.runs == s.runs + [NewRun(s.flags.generation)]
    requires t.calls == s.calls && t.free == s.free && t.clock == s.clock && t.ids == s.ids
    ensures TrafficOk(o, t)
  {
    hide RunOk;
    SpawnKeepsCalls(o, s, t);
    SpawnKeepsRuns(o, s, t);
    SameUsersKeepPermits(o, s, t);
  }

  lemma SpawnKeepsRuns(o: Options, s: State, t: State)
    requires RunsOk(o, s) && t.runs == s.runs + [NewRun(s.flags.generation)] && t.clock == s.clock
    requires s.runs != [] ==> s.runs[|s.runs| - 1].pc.Finished?
    ensures RunsOk(o, t)
    ensures InWorker(s) == {} == InWorker(t)
  {
    hide RunOk;
    NewRunOk(o, s.flags.generation, s.clock.now, s.clock.late);
    if s.runs != [] {
      RunPlaces(o, s, |s.runs| - 1);
      FinishedEmpty(s.runs[|s.runs| - 1]);
    }
  }

  lemma SpawnKeepsCalls(o: Options, s: State, t: State)
    requires CallsOk(o, s) && t.runs == s.runs + [NewRun(s.flags.generation)] && t.calls == s.calls && t.ids == s.ids
    ensures CallsOk(o, t)
  {
    forall x | x in t.calls ensures CallOk(o, t, x) {
      assert CallOk(o, s, x);
    }
    forall r | 0 <= r < |t.runs| ensures RunCallsOk(t, r) {
      if r < |s.runs| {
        assert RunCallsOk(s, r);
        forall c | c in Accepted(t.runs[r]) ensures CommandOk(t, r, c) {
          assert CommandOk(s, r, c);
        }
      }
    }
  }

  lemma CloseKeepsTraffic(o: Options, s: State, k: nat, a: CloseAct)
    requires GateOk(s) && TrafficOk(o, s) && CloseEnabled(s, k, a)
    ensures TrafficOk(o, CloseNext(s, k, a))
  {
    hide LockOk, FlagsOk, DestroyOk, TrafficOk, CloseNext, CloseEnabled;
    var t := CloseNext(s, k, a);
    CloseFrames(s, k, a);
    CloseEffects(s, k, a);
    if t.runs == s.runs {
      SameKeepsTraffic(o, s, t);
    } else {
      CancelKeepsTraffic(o, s, t, |s.runs| - 1);
    }
  }

  lemma CancelKeepsTraffic(o: Options, s: State, t: State, r: nat)
    requires TrafficOk(o, s) && r < |s.runs| && t.runs == s.runs[r := s.runs[r].(cancelled := true)]
    requires t.calls == s.calls && t.free == s.free && t.clock == s.clock && t.ids == s.ids
    ensures TrafficOk(o, t)
  {
    hide RunOk;
    CancelKeepsRuns(o, s, t, r);
    CancelKeepsCalls(o, s, t, r);
    SameUsersKeepPermits(o, s, t);
  }

  lemma SameUsersKeepPermits(o: Options, s: State, t: State)
    requires PermitsOk(o, s) && t.free == s.free && t.calls == s.calls && InWorker(t) == InWorker(s)
    ensures PermitsOk(o, t)
  {
    assert Users(t) == Users(s);
  }

  lemma CancelKeepsRuns(o: Options, s: State, t: State, r: nat)
    requires RunsOk(o, s) && r < |s.runs| && t.runs == s.runs[r := s.runs[r].(cancelled := true)] && t.clock == s.clock
    ensures RunsOk(o, t)
  {
    CancelKeepsRun(o, s.runs[r], s.clock.now, s.clock.late);
  }

  lemma CancelKeepsCalls(o: Options, s: State, t: State, r: nat)
    requires CallsOk(o, s) && r < |s.runs| && t.runs == s.runs[r := s.runs[r].(cancelled := true)]
    requires t.calls == s.calls && t.ids == s.ids
    ensures CallsOk(o, t)
  {
    forall x | x in t.calls ensures CallOk(o, t, x) {
      assert CallOk(o, s, x);
    }
    forall q | 0 <= q < |t.runs| ensures RunCallsOk(t, q) {
      assert RunCallsOk(s, q);
      forall c | c in Accepted(t.runs[q]) ensures CommandOk(t, q, c) {
        assert CommandOk(s, q, c);
      }
    }
  }

  // ---- Runs ----

  /** The settlement a move records. */
  function SettledBy(r: Run, m: Move): Option<Settled> {
    match m
    case HandSettled(fate) =>
      if Hand(r.pc).Some? then Some(Settled(Hand(r.pc).value, fate, |r.past.heard|)) else None
    case PendingSettled(id, fate) => Some(Settled(id, fate, |r.past.heard|))
    case _ => None
  }

  /** What is inside shrinks by exactly the request settled. */
  lemma MoveInside(r: Run, m: Move, s: Run)
    requires PlacesOk(r) && Moves(r, m, s)
    ensures match SettledBy(r, m)
            case None => Inside(s) == Inside(r) && s.box.settled == r.box.settled
            case Some(x) =>
              && x.id in Inside(r) && Inside(s) == Inside(r) - {x.id}
              && s.box.settled == r.box.settled + [x] && x.id !in SettledIds(r.box.settled) && x.id in Ids(r.box.popped)
  {
    HandNotQueued(r);
    if m.PopHead? {
      PopFacts(r, s);
    }
  }

  lemma HandNotQueued(r: Run)
    requires Distinct(Accepted(r))
    ensures Ids(r.box.popped) !! Ids(r.box.queue)
  {
    var all, n := Accepted(r), |r.box.popped|;
    forall i, j | 0 <= i < n && 0 <= j < |r.box.queue| ensures r.box.popped[i].id != r.box.queue[j].id {
      assert all[i] == r.box.popped[i] && all[n + j] == r.box.queue[j];
    }
  }

  /** A run's step as its callers and the semaphore see it. */
  ghost predicate RunEffect(s: State, r: nat, x: Option<Settled>, t: State)
    requires RunFrame(s, r, t)
  {
    && Accepted(t.runs[r]) == Accepted(s.runs[r])
    && PingIds(t.runs[r]) <= PingIds(s.runs[r]) + (t.ids - s.ids)
    && match x
       case None => t.free == s.free && t.calls == s.calls && t.runs[r].box.settled == s.runs[r].box.settled
       case Some(x) =>
         && t.free == s.free + 1
         && t.runs[r].box.settled == s.runs[r].box.settled + [x]
         && x.id !in SettledIds(s.runs[r].box.settled) && x.id in Ids(s.runs[r].box.popped)
         && (forall id :: id in s.calls && id != x.id ==> t.calls[id] == s.calls[id])
         && (x.id in s.calls ==> t.calls[x.id].reply == ReplyFor(x.fate))
  }

  lemma RunEffects(o: Options, s: State, r: nat, a: Act)
    requires RunEnabled(o, s, r, a) && RunFrame(s, r, RunNext(o, s, r, a))
    requires PlacesOk(s.runs[r]) && ShapeOk(s.runs[r])
    ensures RunEffect(s, r, SettledBy(s.runs[r], MoveOf(o, s.runs[r], EnvOf(s, r), a)), RunNext(o, s, r, a))
    ensures RunNext(o, s, r, a).ids == s.ids + (if a.OfTalk? && a.talk.Fire? then {a.talk.id} else {})
  {
    hide Next, Enabled, MoveOf, Moves, PlacesOk, ShapeOk;
    var before, env := s.runs[r], EnvOf(s, r);
    var m := MoveOf(o, before, env, a);
    StepMoves(o, before, env, a);
    MoveKeepsPlaces(before, m, Next(o, before, env, a));
    MoveInside(before, m, Next(o, before, env, a));
    StepPings(o, before, env, a);
    RunReleases(o, s, r, a, SettledBy(before, m));
  }

  /** The semaphore and the callers see what the run recorded. */
  lemma RunReleases(o: Options, s: State, r: nat, a: Act, x: Option<Settled>)
    requires RunEnabled(o, s, r, a)
    requires var before, after := s.runs[r].box.settled, Next(o, s.runs[r], EnvOf(s, r), a).box.settled;
             after == if x.Some? then before + [x.value] else before
    ensures var t := RunNext(o, s, r, a);
            && t.runs == s.runs[r := Next(o, s.runs[r], EnvOf(s, r), a)]
            && t.ids == s.ids + (if a.OfTalk? && a.talk.Fire? then {a.talk.id} else {})
            && if x.None? then t.free == s.free && t.calls == s.calls
               else
                 && t.free == s.free + 1
                 && (forall id :: id in s.calls && id != x.value.id ==> id in t.calls && t.calls[id] == s.calls[id])
                 && (x.value.id in s.calls ==>
                       x.value.id in t.calls && t.calls[x.value.id].reply == ReplyFor(x.value.fate))
  {
    hide Next, Enabled;
  }

  lemma RunKeepsCalls(o: Options, s: State, r: nat, x: Option<Settled>, t: State)
    requires CallsOk(o, s) && RunFrame(s, r, t) && RunEffect(s, r, x, t)
    requires PlacesOk(s.runs[r]) && (t.ids - s.ids) !! s.calls.Keys
    ensures CallsOk(o, t)
  {
    forall id | id in t.calls ensures CallOk(o, t, id) {
      assert CallOk(o, s, id) && RunCallsOk(s, r);
      RunKeepsCall(o, s, r, x, t, id);
    }
    forall q | 0 <= q < |t.runs| ensures RunCallsOk(t, q) {
      assert RunCallsOk(s, q);
      forall c | c in Accepted(t.runs[q]) ensures CommandOk(t, q, c) {
        assert CommandOk(s, q, c);
      }
      RunKeepsReplies(o, s, r, x, t, q);
    }
  }

  lemma RunKeepsCall(o: Options, s: State, r: nat, x: Option<Settled>, t: State, id: Id)
    requires RunFrame(s, r, t) && RunEffect(s, r, x, t) && CallOk(o, s, id)
    requires x.Some? ==> RunCallsOk(s, r)
    ensures CallOk(o, t, id)
  {
    if x.Some? {
      SettledAppend(s.runs[r].box.settled, x.value);
      if id == x.value.id {
        var c :| c in s.runs[r].box.popped && c.id == id;
        assert c in Accepted(s.runs[r]) && CommandOk(s, r, c);
      }
    }
  }

  lemma RunKeepsReplies(o: Options, s: State, r: nat, x: Option<Settled>, t: State, q: nat)
    requires CallsOk(o, s) && RunFrame(s, r, t) && RunEffect(s, r, x, t) && q < |t.runs| && RunCallsOk(s, q)
    ensures forall y :: y in t.runs[q].box.settled ==> y.id in t.calls && t.calls[y.id].reply == ReplyFor(y.fate)
  {
    if x.Some? {
      var id := x.value.id;
      assert RunCallsOk(s, r);
      var c :| c in s.runs[r].box.popped && c.id == id;
      assert c in Accepted(s.runs[r]) && CommandOk(s, r, c);
      assert CallOk(o, s, id);
      forall y | y in t.runs[q].box.settled ensures y.id in t.calls && t.calls[y.id].reply == ReplyFor(y.fate) {
        if y in s.runs[q].box.settled {
          assert y.id in SettledIds(s.runs[q].box.settled);
        }
      }
    }
  }

  lemma RunKeepsPermits(o: Options, s: State, r: nat, x: Option<Settled>, t: State)
    requires CallsOk(o, s) && PermitsOk(o, s) && RunFrame(s, r, t) && RunEffect(s, r, x, t) && r == |s.runs| - 1
    requires if x.None? then InWorker(t) == InWorker(s)
             else x.value.id in InWorker(s) && InWorker(t) == InWorker(s) - {x.value.id}
    ensures PermitsOk(o, t)
  {
    hide PermitsOk, CallsOk;
    RunKeepsHolders(s, r, t);
    if x.Some? {
      SettledNoHolder(o, s, r, x.value.id);
      hide Holders, InWorker;
      assert Users(t) == Users(s) - {x.value.id};
      PermitGiven(o, s, t, x.value.id);
    } else {
      assert Users(t) == Users(s);
      PermitsStay(o, s, t);
    }
  }

  lemma RunKeepsHolders(s: State, r: nat, t: State)
    requires RunFrame(s, r, t)
    ensures Holders(t.calls) == Holders(s.calls)
  {
  }

  /** Who waits for the worker does not hold a permit itself. */
  lemma SettledNoHolder(o: Options, s: State, r: nat, id: Id)
    requires CallsOk(o, s) && r < |s.runs| && id in Ids(s.runs[r].box.popped)
    ensures id !in Holders(s.calls)
  {
    assert RunCallsOk(s, r);
    var c :| c in s.runs[r].box.popped && c.id == id;
    assert c in Accepted(s.runs[r]) && CommandOk(s, r, c);
    assert CallOk(o, s, id);
  }

  lemma RunKeepsRuns(o: Options, s: State, r: nat, a: Act)
    requires Valid(o) && RunsOk(o, s) && RunEnabled(o, s, r, a)
    requires s.runs[r].socket == s.flags.generation && FreshFor(s.runs[r], a)
    requires RunFrame(s, r, RunNext(o, s, r, a))
    requires RunNext(o, s, r, a).runs[r] == Next(o, s.runs[r], EnvOf(s, r), a)
    ensures RunsOk(o, RunNext(o, s, r, a))
  {
    StepKeepsRun(o, s.runs[r], EnvOf(s, r), a);
  }

  lemma RunFresh(o: Options, s: State, r: nat, a: Act)
    requires CallsOk(o, s) && RunEnabled(o, s, r, a)
    ensures FreshFor(s.runs[r], a)
  {
    assert RunCallsOk(s, r);
    forall c | c in Accepted(s.runs[r]) ensures c.id in s.ids {
      assert CommandOk(s, r, c);
    }
  }

  lemma RunKeepsTraffic(o: Options, s: State, r: nat, a: Act)
    requires Valid(o) && GateOk(s) && TrafficOk(o, s) && RunEnabled(o, s, r, a)
    ensures TrafficOk(o, RunNext(o, s, r, a))
  {
    hide RunOk, CallOk, RunCallsOk, PermitsOk;
    var t, x := RunNext(o, s, r, a), SettledBy(s.runs[r], MoveOf(o, s.runs[r], EnvOf(s, r), a));
    LiveRunIsLast(o, s, r, a);
    RunFrames(o, s, r, a);
    RunFresh(o, s, r, a);
    RunKeepsRuns(o, s, r, a);
    RunPlaces(o, s, r);
    RunEffects(o, s, r, a);
    RunInside(o, s, r, a);
    RunKeepsCalls(o, s, r, x, t);
    RunKeepsPermits(o, s, r, x, t);
  }

  lemma RunPlaces(o: Options, s: State, r: nat)
    requires RunsOk(o, s) && r < |s.runs|
    ensures PlacesOk(s.runs[r]) && ShapeOk(s.runs[r])
  {
    assert RunOk(o, s.runs[r], s.clock.now, s.clock.late);
  }

  lemma RunInside(o: Options, s: State, r: nat, a: Act)
    requires RunEnabled(o, s, r, a) && PlacesOk(s.runs[r]) && ShapeOk(s.runs[r]) && r == |s.runs| - 1
    requires RunFrame(s, r, RunNext(o, s, r, a))
    requires RunNext(o, s, r, a).runs[r] == Next(o, s.runs[r], EnvOf(s, r), a)
    ensures var t, x := RunNext(o, s, r, a), SettledBy(s.runs[r], MoveOf(o, s.runs[r], EnvOf(s, r), a));
            if x.None? then InWorker(t) == InWorker(s)
            else x.value.id in InWorker(s) && InWorker(t) == InWorker(s) - {x.value.id}
  {
    hide Next, Enabled, MoveOf;
    StepMoves(o, s.runs[r], EnvOf(s, r), a);
    MoveInside(s.runs[r], MoveOf(o, s.runs[r], EnvOf(s, r), a), Next(o, s.runs[r], EnvOf(s, r), a));
  }

  // ---- Time and new callers ----

  lemma TickKeepsRuns(o: Options, s: State, d: nat)
    requires SlotOk(s) && RunsOk(o, s)
    ensures RunsOk(o, TickNext(s, d))
  {
    hide RunOk;
    var t := TickNext(s, d);
    forall r | 0 <= r < |s.runs| ensures RunOk(o, t.runs[r], t.clock.now, t.clock.late) {
      TickKeepsRun(o, s.runs[r], s.clock.now, s.clock.late, t.clock.now, t.clock.late);
    }
  }

  lemma TickKeepsTraffic(o: Options, s: State, d: nat)
    requires GateOk(s) && TrafficOk(o, s)
    ensures TrafficOk(o, TickNext(s, d))
  {
    hide RunOk;
    var t := TickNext(s, d);
    SameKeepsCalls(o, s, t);
    SameUsersKeepPermits(o, s, t);
    TickKeepsRuns(o, s, d);
  }

  lemma StartKeepsTraffic(o: Options, s: State, id: Id)
    requires TrafficOk(o, s) && StepEnabled(o, s, StartCall(id))
    ensures TrafficOk(o, Step(o, s, StartCall(id)))
  {
    hide RunOk, CallOk, RunCallsOk, PermitsOk;
    var t := Step(o, s, StartCall(id));
    QuietKeepsRuns(o, s, t);
    StartKeepsCalls(o, s, id, t);
    StartKeepsPermits(o, s, id, t);
  }

  lemma StartKeepsPermits(o: Options, s: State, id: Id, t: State)
    requires PermitsOk(o, s) && id !in s.calls && t.runs == s.runs && t.free == s.free
    requires t.calls == s.calls[id := Call(Begin, 0, 0, 0, None, Unsent, false)]
    ensures PermitsOk(o, t)
  {
    HoldersUpdate(s.calls, id, t.calls[id]);
    assert Users(t) == Users(s);
  }

  lemma StartKeepsCalls(o: Options, s: State, id: Id, t: State)
    requires CallsOk(o, s) && id !in s.ids && t.runs == s.runs && t.ids == s.ids + {id}
    requires t.calls == s.calls[id := Call(Begin, 0, 0, 0, None, Unsent, false)]
    ensures CallsOk(o, t)
  {
    forall x | x in t.calls ensures CallOk(o, t, x) {
      assert x != id ==> CallOk(o, s, x);
    }
    forall r | 0 <= r < |t.runs| ensures RunCallsOk(t, r) {
      assert RunCallsOk(s, r);
      forall c | c in Accepted(t.runs[r]) ensures CommandOk(t, r, c) {
        assert CommandOk(s, r, c);
      }
    }
  }

  lemma StepKeepsTraffic(o: Options, s: State, a: Action)
    requires Valid(o) && GateOk(s) && TrafficOk(o, s) && StepEnabled(o, s, a)
    ensures TrafficOk(o, Step(o, s, a))
  {
    hide RunOk, CallOk, RunCallsOk;
    match a
    case Tick(d) => TickKeepsTraffic(o, s, d);
    case StartCall(id) => StartKeepsTraffic(o, s, id);
    case OfCall(id, act) => CallKeepsTraffic(o, s, id, act);
    case OfJoin(k, act) => JoinKeepsTraffic(o, s, k, act);
    case OfClose(k, act) => CloseKeepsTraffic(o, s, k, act);
    case OfRun(r, act) => RunKeepsTraffic(o, s, r, act);
    case StartJoin(_) => SameKeepsTraffic(o, s, Step(o, s, a));
    case StartClose(_, _) => SameKeepsTraffic(o, s, Step(o, s, a));
  }
}
