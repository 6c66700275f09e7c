/**
 * The client as a whole (src/client.rs): any number of `send`, `connect`, `disconnect` and `destroy` calls, the
 * worker runs they start, and what they share. A step is one caller's or one run's next piece of code; between
 * any two steps any other caller or run may act, and time may pass.
 */
module Client {
  import opened Types
  import opened Worker
  import opened WorkerOutage

  // ---- send_with_options ----

  datatype CallPc =
    | Begin
    | CheckUp
    | ReadGeneration
    | Acquire
    | Prepare
    | WaitLock
    | Recheck
    | Enqueue
    | Await
    | Done(outcome: Outcome)

  /** What a caller got, or that it dropped the future. */
  datatype Outcome = Returned(result: Result<SendResult>) | Abandoned

  /** The sending half of the reply channel, as the receiver can observe it. */
  datatype ReplyState = Unsent | Replied(result: Result<SendResult>) | SenderGone

  /** A call is named by the request ID it draws; `run` is history: the run it was enqueued to. */
  datatype Call = Call(
    pc: CallPc,
    generation: nat,
    deadline: nat,
    size: nat,
    run: Option<nat>,
    reply: ReplyState,
    receiverGone: bool)

  datatype CallAct =
    | CheckDestroyed
    | CheckConnected
    | LoadGeneration
    | TakePermit
    | Encode(valid: bool, size: nat)
    | LockRunning
    | CheckAgain
    | TrySend
    | Collect
    | TimeOut
    | Abandon
    | DropReceiver

  // ---- connect ----

  datatype JoinPc =
    | Locking
    | Checking
    | Spawning
    | Looking
    | Sleeping(seen: nat)
    | Joined(result: Result<ConnectResult>)
    | Departed

  /** `run` is the run joined; `initial` says that its first attempt was started or joined. */
  datatype Join = Join(pc: JoinPc, run: Option<nat>, initial: bool)

  datatype JoinAct =
    | JoinLock
    | JoinCheck
    | JoinRun(runtime: bool)
    | Peek
    | Wake
    | SendersGone
    | JoinDrop

  // ---- disconnect and destroy ----

  datatype ClosePc = Announcing | AwaitingLock | Signalling | Joining(run: nat) | Closed | Withdrawn

  datatype Close = Close(pc: ClosePc, destroy: bool)

  datatype CloseAct = Announce | CloseLock | Signal | CloseJoined | CloseDrop

  // ---- Shared state ----

  datatype Holder = Nobody | HeldByCall(call: Id) | HeldByJoin(join: nat) | HeldByClose(close: nat)

  datatype Clock = Clock(now: nat, late: nat)

  datatype Flags = Flags(destroyed: bool, connected: bool, generation: nat)

  /** The `running` mutex: its holder and the run in the slot. */
  datatype Gate = Gate(holder: Holder, slot: Option<nat>)

  datatype State = State(
    clock: Clock,
    flags: Flags,
    free: nat,
    gate: Gate,
    runs: seq<Run>,
    calls: map<Id, Call>,
    joins: map<nat, Join>,
    closes: map<nat, Close>,
    ids: set<Id>)

  datatype Action =
    | Tick(ticks: nat)
    | StartCall(id: Id)
    | OfCall(call: Id, callAct: CallAct)
    | StartJoin(join: nat)
    | OfJoin(of: nat, joinAct: JoinAct)
    | StartClose(close: nat, destroy: bool)
    | OfClose(closer: nat, closeAct: CloseAct)
    | OfRun(run: nat, act: Act)

  function InitialState(o: Options): State {
    State(Clock(0, 0), Flags(false, false, 0), o.maxInFlight, Gate(Nobody, None), [], map[], map[], map[], {})
  }

  function EnvOf(s: State, r: nat): Env {
    Env(s.clock.now, s.clock.late, s.flags.generation,
        (set id | id in s.calls && s.calls[id].receiverGone),
        s.gate.slot == Some(r))
  }

  function Locked(s: State, h: Holder): State {
    s.(gate := s.gate.(holder := h))
  }

  function Unlocked(s: State): State {
    s.(gate := s.gate.(holder := Nobody))
  }

  // ---- Steps of a call ----

  predicate CallEnabled(s: State, id: Id, a: CallAct) {
    id in s.calls &&
    var c := s.calls[id];
    match a
    case CheckDestroyed => c.pc.Begin?
    case CheckConnected => c.pc.CheckUp?
    case LoadGeneration => c.pc.ReadGeneration?
    case TakePermit => c.pc.Acquire?
    case Encode(_, _) => c.pc.Prepare?
    case LockRunning => c.pc.WaitLock? && s.gate.holder.Nobody?
    case CheckAgain => c.pc.Recheck?
    case TrySend => c.pc.Enqueue?
    case Collect => c.pc.Await? && !c.reply.Unsent?
    case TimeOut => c.pc.Await? && c.reply.Unsent? && c.deadline <= s.clock.now
    case Abandon => c.pc.WaitLock? || c.pc.Await?
    case DropReceiver => c.pc.Done? && !c.receiverGone
  }

  function CommandOf(id: Id, c: Call): Command {
    Command(id, c.generation, c.deadline, c.size)
  }

  function SetCall(s: State, id: Id, c: Call): State {
    s.(calls := s.calls[id := c])
  }

  /** The call returns. */
  function Return(s: State, id: Id, c: Call, r: Result<SendResult>): State {
    SetCall(s, id, c.(pc := Done(Returned(r))))
  }

  /** The call returns and drops its permit. */
  function Refund(s: State, id: Id, c: Call, r: Result<SendResult>): State {
    Return(s, id, c, r).(free := s.free + 1)
  }

  /** `try_send` on the run in the slot. */
  function TrySending(o: Options, s: State, id: Id, c: Call): State {
    if s.gate.slot.None? then Refund(s, id, c, Err(NotConnected))
    else
      var r := s.gate.slot.value;
      if r >= |s.runs| || s.runs[r].box.closed then Refund(s, id, c, Err(Disconnected))
      else if |s.runs[r].box.queue| >= o.maxInFlight then Refund(s, id, c, Err(Backpressure))
      else
        SetCall(s, id, c.(pc := Await, run := Some(r))).(
          runs := s.runs[r := Push(s.runs[r], CommandOf(id, c))])
  }

  function CallNext(o: Options, s: State, id: Id, a: CallAct): State
    requires CallEnabled(s, id, a)
  {
    var c := s.calls[id];
    match a
    case CheckDestroyed => if s.flags.destroyed then Return(s, id, c, Err(Destroyed)) else SetCall(s, id, c.(pc := CheckUp))
    case CheckConnected =>
      if !s.flags.connected then Return(s, id, c, Err(NotConnected)) else SetCall(s, id, c.(pc := ReadGeneration))
    case LoadGeneration => SetCall(s, id, c.(pc := Acquire, generation := s.flags.generation))
    case TakePermit =>
      if s.free == 0 then Return(s, id, c, Err(Backpressure))
      else SetCall(s, id, c.(pc := Prepare)).(free := s.free - 1)
    case Encode(valid, size) =>
      var timed := c.(deadline := s.clock.now + o.requestTimeout, size := size);
      if !valid then Refund(s, id, timed, Err(InvalidInput))
      else if size > o.maxMessageSize then Refund(s, id, timed, Err(MessageTooLarge))
      else SetCall(s, id, timed.(pc := WaitLock))
    case LockRunning => Locked(SetCall(s, id, c.(pc := Recheck)), HeldByCall(id))
    case CheckAgain =>
      if !s.flags.connected then Unlocked(Refund(s, id, c, Err(NotConnected))) else SetCall(s, id, c.(pc := Enqueue))
    case TrySend => Unlocked(TrySending(o, s, id, c))
    case Collect => Return(s, id, c, if c.reply.Replied? then c.reply.result else Err(Disconnected))
    case TimeOut => Return(s, id, c, Err(Timeout))
    case Abandon =>
      var gone := SetCall(s, id, c.(pc := Done(Abandoned)));
      if c.pc.WaitLock? then gone.(free := s.free + 1) else gone
    case DropReceiver => SetCall(s, id, c.(receiverGone := true))
  }

  // ---- Steps of a connect ----

  predicate JoinEnabled(s: State, k: nat, a: JoinAct) {
    k in s.joins &&
    var j := s.joins[k];
    match a
    case JoinLock => j.pc.Locking? && s.gate.holder.Nobody?
    case JoinCheck => j.pc.Checking?
    case JoinRun(_) => j.pc.Spawning?
    case Peek => j.pc.Looking? && HasRun(s, j)
    case Wake => j.pc.Sleeping? && HasRun(s, j) && Changed(s, j)
    case SendersGone => j.pc.Sleeping? && HasRun(s, j) && !Changed(s, j) && s.runs[j.run.value].pc.Finished?
    case JoinDrop => j.pc.Locking? || j.pc.Looking? || j.pc.Sleeping?
  }

  predicate HasRun(s: State, j: Join) {
    j.run.Some? && j.run.value < |s.runs|
  }

  /** The watched channel was written since the caller last looked. */
  predicate Changed(s: State, j: Join)
    requires HasRun(s, j) && j.pc.Sleeping?
  {
    var face := s.runs[j.run.value].face;
    if j.initial then face.first.Some? else face.version != j.pc.seen
  }

  function SetJoin(s: State, k: nat, j: Join): State {
    s.(joins := s.joins[k := j])
  }

  /** `is_none_or(is_finished)`: this call starts a run. */
  predicate StartsRun(s: State) {
    s.gate.slot.None? || s.gate.slot.value >= |s.runs| || s.runs[s.gate.slot.value].pc.Finished?
  }

  function JoinNext(s: State, k: nat, a: JoinAct): State
    requires JoinEnabled(s, k, a)
  {
    var j := s.joins[k];
    match a
    case JoinLock => Locked(SetJoin(s, k, j.(pc := Checking)), HeldByJoin(k))
    case JoinCheck =>
      if s.flags.destroyed then Unlocked(SetJoin(s, k, j.(pc := Joined(Err(Destroyed))))) else SetJoin(s, k, j.(pc := Spawning))
    case JoinRun(runtime) =>
      if StartsRun(s) then
        if !runtime then Unlocked(SetJoin(s, k, j.(pc := Joined(Err(RuntimeUnavailable)))))
        else
          SetJoin(s, k, Join(Looking, Some(|s.runs|), true)).(
            runs := s.runs + [NewRun(s.flags.generation)],
            gate := Gate(Nobody, Some(|s.runs|)))
      else
        var r := s.gate.slot.value;
        Unlocked(SetJoin(s, k, Join(Looking, Some(r), s.runs[r].face.first.None?)))
    case Peek =>
      var face := s.runs[j.run.value].face;
      if j.initial then
        SetJoin(s, k, j.(pc := if face.first.Some? then Joined(face.first.value) else Sleeping(face.version)))
      else
        SetJoin(s, k, j.(pc := match face.status
                               case Ready(result) => Joined(Ok(result))
                               case Failed(e) => Joined(Err(e))
                               case Connecting => Sleeping(face.version)))
    case Wake => SetJoin(s, k, j.(pc := Looking))
    case SendersGone => SetJoin(s, k, j.(pc := Joined(Err(Disconnected))))
    case JoinDrop => SetJoin(s, k, j.(pc := Departed))
  }

  // ---- Steps of a disconnect or destroy ----

  predicate CloseEnabled(s: State, k: nat, a: CloseAct) {
    k in s.closes &&
    var c := s.closes[k];
    match a
    case Announce => c.pc.Announcing?
    case CloseLock => c.pc.AwaitingLock? && s.gate.holder.Nobody?
    case Signal => c.pc.Signalling?
    case CloseJoined => c.pc.Joining? && c.pc.run < |s.runs| && s.runs[c.pc.run].pc.Finished?
    case CloseDrop => c.pc.AwaitingLock? || c.pc.Joining?
  }

  function SetClose(s: State, k: nat, c: Close): State {
    s.(closes := s.closes[k := c])
  }

  function CloseNext(s: State, k: nat, a: CloseAct): State
    requires CloseEnabled(s, k, a)
  {
    var c := s.closes[k];
    match a
    case Announce => SetClose(s, k, c.(pc := AwaitingLock)).(flags := s.flags.(destroyed := true))
    case CloseLock => Locked(SetClose(s, k, c.(pc := Signalling)), HeldByClose(k))
    case Signal =>
      if s.gate.slot.Some? && s.gate.slot.value < |s.runs| then
        var r := s.gate.slot.value;
        SetClose(s, k, c.(pc := Joining(r))).(runs := s.runs[r := s.runs[r].(cancelled := true)])
      else SetClose(s, k, c.(pc := Closed)).(gate := Gate(Nobody, None))
    case CloseJoined => SetClose(s, k, c.(pc := Closed)).(gate := Gate(Nobody, None))
    case CloseDrop =>
      var gone := SetClose(s, k, c.(pc := Withdrawn));
      if c.pc.Joining? then Unlocked(gone) else gone
  }

  // ---- Steps of a run ----

  function ReplyFor(f: Fate): ReplyState {
    match f
    case Answered(_, result) => Replied(result)
    case Expired => Replied(Err(Timeout))
    case Late => Replied(Err(Timeout))
    case Stale => Replied(Err(Disconnected))
    case Cleared => Replied(Err(Disconnected))
    case RunEnded(e) => Replied(Err(e))
    case Dropped => SenderGone
    case Discarded => SenderGone
  }

  /** A settlement answers the caller and releases the permit. */
  function Release(s: State, x: Settled): State {
    s.(free := s.free + 1,
       calls := if x.id in s.calls then s.calls[x.id := s.calls[x.id].(reply := ReplyFor(x.fate))] else s.calls)
  }

  /** What the step stores in `connected`, if anything. */
  function Stores(a: Act): Option<bool> {
    match a
    case OfLife(GoLive) => Some(true)
    case OfLife(Lower) => Some(false)
    case OfLife(Abort) => Some(false)
    case OfLife(EndLower) => Some(false)
    case _ => None
  }

  ghost predicate RunEnabled(o: Options, s: State, r: nat, a: Act) {
    && r < |s.runs|
    && Enabled(o, s.runs[r], EnvOf(s, r), a)
    && (a.OfTalk? && a.talk.Fire? ==> a.talk.id !in s.ids)
  }

  function RunNext(o: Options, s: State, r: nat, a: Act): State
    requires RunEnabled(o, s, r, a)
  {
    var before := s.runs[r];
    var after := Next(o, before, EnvOf(s, r), a);
    var flags := s.flags.(
      connected := if Stores(a).Some? then Stores(a).value else s.flags.connected,
      generation := if a == OfLife(Count) then s.flags.generation + 1 else s.flags.generation);
    var moved := s.(
      runs := s.runs[r := after],
      flags := flags,
      ids := if a.OfTalk? && a.talk.Fire? then s.ids + {a.talk.id} else s.ids);
    if |after.box.settled| > |before.box.settled| then Release(moved, after.box.settled[|before.box.settled|]) else moved
  }

  // ---- Time ----

  /** Only the last run can have something to be late for. */
  function TickNext(s: State, d: nat): State {
    var later := s.clock.now + d;
    var overrun := if s.runs == [] then 0 else Overrun(s.runs[|s.runs| - 1], s.clock.now, later);
    s.(clock := Clock(later, s.clock.late + overrun))
  }

  // ---- All steps ----

  ghost predicate StepEnabled(o: Options, s: State, a: Action) {
    match a
    case Tick(_) => true
    case StartCall(id) => id !in s.ids
    case OfCall(id, act) => CallEnabled(s, id, act)
    case StartJoin(k) => k !in s.joins
    case OfJoin(k, act) => JoinEnabled(s, k, act)
    case StartClose(k, _) => k !in s.closes
    case OfClose(k, act) => CloseEnabled(s, k, act)
    case OfRun(r, act) => RunEnabled(o, s, r, act)
  }

  function Step(o: Options, s: State, a: Action): State
    requires StepEnabled(o, s, a)
  {
    match a
    case Tick(d) => TickNext(s, d)
    case StartCall(id) =>
      SetCall(s, id, Call(Begin, 0, 0, 0, None, Unsent, false)).(ids := s.ids + {id})
    case OfCall(id, act) => CallNext(o, s, id, act)
    case StartJoin(k) => SetJoin(s, k, Join(Locking, None, false))
    case OfJoin(k, act) => JoinNext(s, k, act)
    case StartClose(k, destroy) => SetClose(s, k, Close(if destroy then Announcing else AwaitingLock, destroy))
    case OfClose(k, act) => CloseNext(s, k, act)
    case OfRun(r, act) => RunNext(o, s, r, act)
  }

  /** A finite interleaving: states joined by enabled steps, from the initial one. */
  ghost predicate Execution(o: Options, states: seq<State>, actions: seq<Action>) {
    && |states| == |actions| + 1
    && states[0] == InitialState(o)
    && forall i :: 0 <= i < |actions| ==>
         StepEnabled(o, states[i], actions[i]) && states[i + 1] == Step(o, states[i], actions[i])
  }
}
