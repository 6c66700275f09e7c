/**
 * One run of the connection worker (src/client.rs: `run`, `supervise`, `session`, `establish`, `write`),
 * as a machine. A step is a piece of code between two points where another thread can act; cancellation
 * is taken only in the positions where the code awaits inside `select!`.
 */
module Worker {
  import opened Types
  import opened Events
  import Backoff

  /** A SEND on its way to the worker; its reply channel and permit travel with it. */
  datatype Command = Command(id: Id, generation: nat, deadline: nat, size: nat)

  datatype Ping = Ping(id: Id, deadline: nat)

  datatype Status = Connecting | Ready(result: ConnectResult) | Failed(error: Error)

  /** A frame handed to the socket, or to be handed to it. */
  datatype Out =
    | Send(cmd: Command)
    | Heartbeat(id: Id, deadline: nat)
    | RecvAck(receipt: Receipt, size: nat)
    | Flush

  /** Encoded length of a ping request: fixed keys and one UUID. */
  const PING_SIZE: nat := 89

  /** Why a session or a run is being wound up. */
  datatype Exit = Lost(error: Error) | Cancelled

  datatype Drain = SessionOver(error: Error) | RunOver(error: Error)

  /** Where the session loop stands. */
  datatype Spot =
    | Top
    | Retaining(now: nat, todo: set<Id>)
    | Expiring(now: nat, todo: set<Id>)
    | Waiting(now: nat, timer: nat)
    | Took(cmd: Command)
    | Open(cmd: Command)
    | Current(cmd: Command)
    | Writing(out: Out)
    | Answering(id: Id, at: nat)

  datatype Pc =
    | Spawned
    | Asleep(until: nat)
    | Dialing(limit: nat)
    | DialFailed(error: Error)
    | Opened(result: ConnectResult)
    | Counted(result: ConnectResult)
    | Live(result: ConnectResult)
    | Announced(result: ConnectResult)
    | Greeted(result: ConnectResult)
    | Session(spot: Spot)
    | Leaving(exit: Exit)
    | Lowering(error: Error)
    | Clearing(error: Error)
    | Draining(why: Drain, held: Option<Command>)
    | Reporting(error: Error)
    | Complaining(error: Error)
    | Judging
    | Pausing
    | Aborting
    | Signing
    | Ending(error: Error)
    | Settling(error: Error)
    | Failing(error: Error)
    | Shutting(error: Error)
    | Finished

  /** How an accepted SEND left the worker. */
  datatype Fate =
    | Answered(at: nat, result: Result<SendResult>)
    | Expired
    | Late
    | Stale
    | Dropped
    | Cleared
    | RunEnded(error: Error)
    | Discarded

  datatype Settled = Settled(id: Id, fate: Fate, heardBefore: nat)

  /** History: a frame on the wire of the socket of some generation, and how much had been heard by then. */
  datatype Written = Written(socket: nat, out: Out, heardBefore: nat)

  /** History: an answer or pong processed in the session of some socket. */
  datatype Heard = HeardReply(socket: nat, id: Id, result: Result<SendResult>) | HeardPong(socket: nat)

  datatype Logged = Logged(socket: nat, event: Event)

  /** History of the current outage: when it began, dials since, and the scheduler's lateness at its start. */
  datatype Outage = Outage(start: nat, dials: nat, late: nat)

  /** The watch channels that `connect` callers read; each version counts the writes. */
  datatype Face = Face(status: Status, version: nat, first: Option<Result<ConnectResult>>)

  /** The command channel and the session's pending map (deadlines by request); `popped` and `settled` are history. */
  datatype Box = Box(
    queue: seq<Command>,
    closed: bool,
    pending: map<Id, nat>,
    popped: seq<Command>,
    settled: seq<Settled>)

  /** The heartbeat; `pingedAt` and `pendedAt` are history: how much had been heard when a frame was handed over. */
  datatype Beat = Beat(ping: Option<Ping>, next: nat, pingedAt: nat)

  /** History of the run. */
  datatype Past = Past(wire: seq<Written>, heard: seq<Heard>, log: seq<Logged>, pendedAt: map<Id, nat>)

  datatype Run = Run(
    pc: Pc,
    cancelled: bool,
    established: bool,
    attempt: nat,
    socket: nat,
    face: Face,
    box: Box,
    beat: Beat,
    past: Past,
    outage: Outage)

  /** What the worker reads of the shared state in one step. */
  datatype Env = Env(now: nat, late: nat, generation: nat, closed: set<Id>, slotHeld: bool)

  function NewRun(generation: nat): Run {
    Run(Spawned, false, false, 0, generation, Face(Connecting, 0, None), Box([], false, map[], [], []),
        Beat(None, 0, 0), Past([], [], [], map[]), Outage(0, 0, 0))
  }

  /** Steps of `run` and `supervise`. */
  datatype Life =
    | Start
    | Wake
    | DialOk(result: ConnectResult)
    | DialErr(error: Error)
    | GiveUpDial
    | Count
    | GoLive
    | TellStatus
    | TellFirst
    | Enter
    | DropOne(id: Id)
    | Left
    | Lower
    | Clear
    | TakeStale
    | SettleStale
    | Drained
    | Report
    | Complain
    | Judge
    | Pause(random: nat)
    | Cancel(flushed: bool)
    | Abort
    | Sign
    | EndLower
    | EndFirst
    | EndStatus
    | EndClose

  /** Steps of `session` that sweep the pending map and take commands. */
  datatype Sess =
    | Look
    | KeepOne(id: Id)
    | KeepDone
    | ExpireOne(id: Id)
    | ExpireDone(timer: nat)
    | Take
    | CheckOpen
    | CheckGeneration
    | CheckDeadline

  /** Steps of `session` that serve the timer and the socket. */
  datatype Talk =
    | Fire(id: Id)
    | Orphan
    | WriteOk
    | WriteErr(flushed: bool)
    | Hear(input: Inbound, size: nat)
    | Answer

  datatype Act = OfLife(life: Life) | OfSess(sess: Sess) | OfTalk(talk: Talk)

  // ---- Small operations ----

  function Emit(r: Run, e: Event): Run {
    r.(past := r.past.(log := r.past.log + [Logged(r.socket, e)]))
  }

  function At(r: Run, pc: Pc): Run {
    r.(pc := pc)
  }

  function SetStatus(r: Run, s: Status): Run {
    r.(face := r.face.(status := s, version := r.face.version + 1))
  }

  function SetFirst(r: Run, result: Result<ConnectResult>): Run {
    if r.face.first.None? then r.(face := r.face.(first := Some(result))) else r
  }

  function Settle(r: Run, id: Id, fate: Fate): Run {
    r.(box := r.box.(settled := r.box.settled + [Settled(id, fate, |r.past.heard|)]))
  }

  /** A pending entry leaves the map for good. */
  function SettlePending(r: Run, id: Id, fate: Fate): Run {
    r.(box := r.box.(
         pending := r.box.pending - {id},
         settled := r.box.settled + [Settled(id, fate, |r.past.heard|)]))
  }

  function Push(r: Run, cmd: Command): Run {
    r.(box := r.box.(queue := r.box.queue + [cmd]))
  }

  function Pop(r: Run): Run
    requires r.box.queue != []
  {
    r.(box := r.box.(queue := r.box.queue[1..], popped := r.box.popped + [r.box.queue[0]]))
  }

  function Put(r: Run, out: Out): Run {
    if out.Flush? then r else r.(past := r.past.(wire := r.past.wire + [Written(r.socket, out, |r.past.heard|)]))
  }

  function Size(out: Out): nat {
    match out
    case Send(cmd) => cmd.size
    case Heartbeat(_, _) => PING_SIZE
    case RecvAck(_, size) => size
    case Flush => 0
  }

  function ExpiredIds(pending: map<Id, nat>, now: nat): set<Id> {
    set id | id in pending && pending[id] <= now
  }

  function HeartbeatDue(ping: Option<Ping>, nextPing: nat): nat {
    if ping.Some? then ping.value.deadline else nextPing
  }

  /** `timer` is the earliest of the pending deadlines and the heartbeat deadline. */
  ghost predicate Earliest(timer: nat, pending: map<Id, nat>, heartbeat: nat) {
    && timer <= heartbeat
    && (forall id :: id in pending ==> timer <= pending[id])
    && (timer == heartbeat || exists id :: id in pending && pending[id] == timer)
  }

  predicate TerminalError(e: Error) {
    e.Server? || e.Protocol?
  }

  /** Positions where the worker awaits with cancellation enabled. */
  predicate Awaiting(pc: Pc) {
    pc.Spawned? || pc.Asleep? || pc.Dialing? || (pc.Session? && (pc.spot.Waiting? || pc.spot.Writing?))
  }

  /** What `establish` can fail with. */
  predicate DialError(e: Error) {
    e.Timeout? || e.Transport? || e.Protocol? || e.Server? || e.MessageTooLarge?
  }

  function DisconnectFor(e: Error): DisconnectReason {
    if e.Server? then ByServer(e.code) else if e.Timeout? then HeartbeatTimeout else TransportLost
  }

  // ---- run and supervise ----

  ghost predicate LifeEnabled(o: Options, r: Run, env: Env, a: Life) {
    match a
    case Start => r.pc.Spawned?
    case Wake => r.pc.Asleep? && r.pc.until <= env.now
    case DialOk(_) => r.pc.Dialing?
    case DialErr(e) => r.pc.Dialing? && DialError(e) && (e.Timeout? ==> r.pc.limit <= env.now)
    case GiveUpDial => r.pc.DialFailed?
    case Count => r.pc.Opened?
    case GoLive => r.pc.Counted?
    case TellStatus => r.pc.Live?
    case TellFirst => r.pc.Announced?
    case Enter => r.pc.Greeted?
    case DropOne(id) => r.pc.Leaving? && id in r.box.pending
    case Left => r.pc.Leaving? && r.box.pending == map[]
    case Lower => r.pc.Lowering?
    case Clear => r.pc.Clearing?
    case TakeStale => r.pc.Draining? && r.pc.held.None? && r.box.queue != []
    case SettleStale => r.pc.Draining? && r.pc.held.Some?
    case Drained => r.pc.Draining? && r.pc.held.None? && r.box.queue == []
    case Report => r.pc.Reporting?
    case Complain => r.pc.Complaining?
    case Judge => r.pc.Judging?
    case Pause(_) => r.pc.Pausing?
    case Cancel(flushed) => r.cancelled && Awaiting(r.pc) && (flushed ==> r.pc.Session? && r.pc.spot.Writing? && Size(r.pc.spot.out) <= o.maxMessageSize)
    case Abort => r.pc.Aborting?
    case Sign => r.pc.Signing?
    case EndLower => r.pc.Ending?
    case EndFirst => r.pc.Settling?
    case EndStatus => r.pc.Failing?
    case EndClose => r.pc.Shutting?
  }

  function LifeNext(o: Options, r: Run, env: Env, a: Life): Run
    requires LifeEnabled(o, r, env, a)
  {
    match a
    case Start => At(r, Dialing(env.now + o.connectTimeout))
    case Wake =>
      At(r, Dialing(env.now + o.connectTimeout)).(outage := r.outage.(dials := r.outage.dials + 1))
    case DialOk(result) => At(r, Opened(result)).(established := true, attempt := 0)
    case DialErr(e) => At(r, DialFailed(e))
    case GiveUpDial =>
      var e := r.pc.error;
      At(Emit(r, Failure(e)), if !r.established || TerminalError(e) then Ending(e) else Judging)
    case Count => At(r, Counted(r.pc.result)).(socket := env.generation + 1)
    case GoLive => At(r, Live(r.pc.result))
    case TellStatus => At(SetStatus(r, Ready(r.pc.result)), Announced(r.pc.result))
    case TellFirst => At(SetFirst(r, Ok(r.pc.result)), Greeted(r.pc.result))
    case Enter =>
      At(Emit(r, Connect(r.pc.result)), Session(Top)).(
        box := r.box.(pending := map[]), beat := r.beat.(ping := None, next := env.now + o.pingInterval))
    case DropOne(id) => SettlePending(r, id, Dropped)
    case Left => At(r, match r.pc.exit case Lost(e) => Lowering(e) case Cancelled => Aborting)
    case Lower => At(r, Clearing(r.pc.error)).(outage := Outage(env.now, 0, env.late))
    case Clear => At(SetStatus(r, Connecting), Draining(SessionOver(r.pc.error), None))
    case TakeStale => At(Pop(r), Draining(r.pc.why, Some(r.box.queue[0])))
    case SettleStale =>
      At(Settle(r, r.pc.held.value.id, match r.pc.why case SessionOver(_) => Cleared case RunOver(e) => RunEnded(e)),
         Draining(r.pc.why, None))
    case Drained => At(r, match r.pc.why case SessionOver(e) => Reporting(e) case RunOver(_) => Finished)
    case Report =>
      var e := r.pc.error;
      At(Emit(r, Disconnect(DisconnectFor(e))), if e.Server? then Ending(e) else Complaining(e))
    case Complain => At(Emit(r, Failure(r.pc.error)), Judging)
    case Judge =>
      if r.attempt >= o.maxReconnectAttempts then At(Emit(r, Failure(ReconnectExhausted)), Ending(ReconnectExhausted))
      else At(r, Pausing).(attempt := r.attempt + 1)
    case Pause(random) =>
      var delay := Backoff.Delay(o, r.attempt, random);
      At(Emit(r, Reconnecting(r.attempt, delay)), Asleep(env.now + delay))
    case Cancel(flushed) => At(if flushed then Put(r, r.pc.spot.out) else r, Leaving(Cancelled))
    case Abort => At(r, Signing)
    case Sign => At(Emit(r, Disconnect(Manual)), Ending(Disconnected))
    case EndLower => At(r, Settling(r.pc.error))
    case EndFirst => At(SetFirst(r, Err(r.pc.error)), Failing(r.pc.error))
    case EndStatus => At(SetStatus(r, Failed(r.pc.error)), Shutting(r.pc.error))
    case EndClose => At(r, Draining(RunOver(r.pc.error), None)).(box := r.box.(closed := true))
  }

  /** The steps towards a session. */
  predicate Rising(a: Life) {
    a.Start? || a.Wake? || a.DialOk? || a.DialErr? || a.GiveUpDial? || a.Count? || a.GoLive?
    || a.TellStatus? || a.TellFirst? || a.Enter? || a.Judge? || a.Pause?
  }

  /** The steps that take and report a cancellation. */
  predicate Cancelling(a: Life) {
    a.Cancel? || a.Abort? || a.Sign?
  }

  /** The steps that wind up the run. */
  predicate Stopping(a: Life) {
    a.Cancel? || a.Abort? || a.Sign? || a.EndLower? || a.EndFirst? || a.EndStatus? || a.EndClose?
  }

  // ---- session ----

  /** What parsing and classification can yield: see Dispatch.Interpret. */
  predicate Plausible(input: Inbound) {
    match input
    case Malformed(e) => e.Protocol?
    case Reply(_, pong, ack) => (pong.Err? ==> TerminalError(pong.error)) && (ack.Err? ==> TerminalError(ack.error))
    case _ => true
  }

  ghost predicate SessEnabled(o: Options, r: Run, env: Env, a: Sess) {
    r.pc.Session? &&
    var s := r.pc.spot;
    match a
    case Look => s.Top?
    case KeepOne(id) => s.Retaining? && id in s.todo
    case KeepDone => s.Retaining? && s.todo == {}
    case ExpireOne(id) => s.Expiring? && id in s.todo
    case ExpireDone(timer) =>
      s.Expiring? && s.todo == {} && Earliest(timer, r.box.pending, HeartbeatDue(r.beat.ping, r.beat.next))
    case Take => s.Waiting? && r.box.queue != []
    case CheckOpen => s.Took?
    case CheckGeneration => s.Open?
    case CheckDeadline => s.Current?
  }

  ghost predicate TalkEnabled(o: Options, r: Run, env: Env, a: Talk) {
    r.pc.Session? &&
    var s := r.pc.spot;
    match a
    case Fire(_) => s.Waiting? && s.timer <= env.now
    case Orphan => s.Waiting? && r.box.queue == [] && !env.slotHeld
    case WriteOk => s.Writing? && Size(s.out) <= o.maxMessageSize
    case WriteErr(flushed) => s.Writing? && (flushed ==> Size(s.out) <= o.maxMessageSize)
    case Hear(input, _) => s.Waiting? && Plausible(input)
    case Answer => s.Answering? && s.at < |r.past.heard| && r.past.heard[s.at].HeardReply?
  }

  function Spotted(r: Run, s: Spot): Run {
    At(r, Session(s))
  }

  function Lose(r: Run, e: Error): Run {
    At(r, Leaving(Lost(e)))
  }

  function SessNext(o: Options, r: Run, env: Env, a: Sess): Run
    requires SessEnabled(o, r, env, a)
  {
    var s := r.pc.spot;
    match a
    case Look => Spotted(r, Retaining(env.now, r.box.pending.Keys))
    case KeepOne(id) =>
      var next := Spotted(r, Retaining(s.now, s.todo - {id}));
      if id in env.closed then SettlePending(next, id, Discarded) else next
    case KeepDone => Spotted(r, Expiring(s.now, ExpiredIds(r.box.pending, s.now)))
    case ExpireOne(id) => SettlePending(Spotted(r, Expiring(s.now, s.todo - {id})), id, Expired)
    case ExpireDone(timer) => Spotted(r, Waiting(s.now, timer))
    case Take => Spotted(Pop(r), Took(r.box.queue[0]))
    case CheckOpen =>
      if s.cmd.id in env.closed then Spotted(Settle(r, s.cmd.id, Discarded), Top) else Spotted(r, Open(s.cmd))
    case CheckGeneration =>
      if s.cmd.generation != env.generation then Spotted(Settle(r, s.cmd.id, Stale), Top)
      else Spotted(r, Current(s.cmd))
    case CheckDeadline =>
      if s.cmd.deadline <= env.now then Spotted(Settle(r, s.cmd.id, Late), Top)
      else
        Spotted(r, Writing(Send(s.cmd))).(
          box := r.box.(pending := r.box.pending[s.cmd.id := s.cmd.deadline]),
          past := r.past.(pendedAt := r.past.pendedAt[s.cmd.id := |r.past.heard|]))
  }

  function TalkNext(o: Options, r: Run, env: Env, a: Talk): Run
    requires TalkEnabled(o, r, env, a)
  {
    var s := r.pc.spot;
    match a
    case Fire(id) =>
      if r.beat.ping.Some? then
        if r.beat.ping.value.deadline <= env.now then Lose(r, Timeout) else Spotted(r, Top)
      else if r.beat.next <= env.now then Spotted(r, Writing(Heartbeat(id, env.now + o.pongTimeout)))
      else Spotted(r, Top)
    case Orphan => Lose(r, Disconnected)
    case WriteOk =>
      var next := Spotted(Put(r, s.out), Top);
      if s.out.Heartbeat? then
        next.(beat := r.beat.(ping := Some(Ping(s.out.id, s.out.deadline)), pingedAt := |r.past.heard|))
      else next
    case WriteErr(flushed) =>
      Lose(if flushed then Put(r, s.out) else r, if Size(s.out) > o.maxMessageSize then MessageTooLarge else Transport)
    case Hear(input, size) => Receive(o, r, env, input, size)
    case Answer => Spotted(Settle(r, s.id, Answered(s.at, r.past.heard[s.at].result)), Top)
  }

  function Hearing(r: Run, h: Heard): Run {
    r.(past := r.past.(heard := r.past.heard + [h]))
  }

  /** The heartbeat was answered. */
  function Beaten(o: Options, r: Run, env: Env): Run {
    r.(beat := r.beat.(ping := None, next := env.now + o.pingInterval))
  }

  function Receive(o: Options, r: Run, env: Env, input: Inbound, size: nat): Run {
    match input
    case Malformed(e) => Spotted(Emit(r, Failure(e)), Top)
    case Reply(id, pong, ack) => ReceiveReply(o, Hearing(r, HeardReply(r.socket, id, ack)), env, id, pong, ack)
    case Delivery(message) => Spotted(Emit(r, Message(message)), Writing(RecvAck(ReceiptOf(message), size)))
    case Notice(event) => Spotted(Emit(r, Custom(event)), Top)
    case Bye(code) => Lose(r, Server(code))
    case PongNote => Beaten(o, Spotted(Hearing(r, HeardPong(r.socket)), Top), env)
    case Unknown => Spotted(r, Top)
    case SocketPing => Spotted(r, Writing(Flush))
    case SocketPong => Spotted(r, Top)
    case Gone => Lose(r, Transport)
  }

  /** A text with an id: the outstanding ping's, a pending request's, or nobody's. */
  function ReceiveReply(o: Options, r: Run, env: Env, id: Id, pong: Result<()>, ack: Result<SendResult>): Run
    requires r.past.heard != []
  {
    if r.beat.ping.Some? && r.beat.ping.value.id == id then
      if pong.Err? then Lose(r, pong.error) else Beaten(o, Spotted(r, Top), env)
    else if id in r.box.pending then
      var taken := Spotted(r, Answering(id, |r.past.heard| - 1)).(box := r.box.(pending := r.box.pending - {id}));
      if ack.Ok? then Emit(taken, SendAck(ack.value)) else taken
    else Spotted(r, Top)
  }

  // ---- All steps ----

  ghost predicate Enabled(o: Options, r: Run, env: Env, a: Act) {
    match a
    case OfLife(l) => LifeEnabled(o, r, env, l)
    case OfSess(s) => SessEnabled(o, r, env, s)
    case OfTalk(t) => TalkEnabled(o, r, env, t)
  }

  function Next(o: Options, r: Run, env: Env, a: Act): Run
    requires Enabled(o, r, env, a)
  {
    match a
    case OfLife(l) => LifeNext(o, r, env, l)
    case OfSess(s) => SessNext(o, r, env, s)
    case OfTalk(t) => TalkNext(o, r, env, t)
  }
}
