/**
 * The worker as the source writes it (src/client.rs: `Worker`): loops over mutable state. What happens outside is
 * a script: how long each await takes and what it yields. The ghost field `at` follows along in the machine of
 * module Worker, so every method is proved to take only steps of that machine, in the source's order.
 */
module WorkerCode {
  import opened Types
  import opened Events
  import opened Worker
  import opened WorkerPlaces
  import opened WorkerAnswers
  import opened WorkerInvariant
  import opened WorkerPath
  import opened Grammar
  import opened WorkerLog
  import Backoff
  import ClientGate
  import Dispatch
  import Inbounds
  import Readings
  import WorkerFace

  /** A write to the socket, or its failure, or cancellation while it is under way. */
  datatype Delivery = Taken(ticks: nat) | Failed(ticks: nat, flushed: bool) | Interrupted(ticks: nat, flushed: bool)

  /** The frame reaches the socket: even a failed or interrupted write may have flushed it. */
  predicate Reaching(d: Delivery) {
    d.Taken? || d.flushed
  }

  /** What the session's `select!` yields. */
  datatype Pick =
    | TimerPick(id: Id, delivery: Delivery)
    | CommandPick(gone: set<Id>, delivery: Delivery)
    | MessagePick(frame: Dispatch.Frame, ackSize: nat, delivery: Delivery)
    | CancelPick

  /** One turn of the session loop: whose callers have left at the sweep, and what ends the wait, after how long. */
  datatype Turn = Turn(gone: set<Id>, idle: nat, arrivals: seq<Command>, pick: Pick)

  /** A timed wait, what senders enqueue meanwhile, and whether cancellation cuts it short. */
  datatype Wait = Elapses(ticks: nat, arrivals: seq<Command>) | Broken(ticks: nat, arrivals: seq<Command>)

  /** One round of the supervising loop. */
  datatype Round = Round(
    random: nat,
    sleep: Wait,
    dial: Wait,
    answer: Result<ConnectResult>,
    turns: seq<Turn>,
    late: seq<Command>)

  /** How a loop stands: waiting for more, ended with an error, or dropped by cancellation. */
  datatype Outcome = Running | Over(error: Error) | Stopped

  /** The machine stands where the outcome says. */
  ghost predicate StandsAt(run: Run, r: Outcome) {
    match r
    case Running => run.pc == Session(Top)
    case Over(e) => run.pc == Leaving(Lost(e))
    case Stopped => run.pc == Leaving(Cancelled)
  }

  /** The events of the current socket emitted between `r` and `s`. */
  ghost predicate EventsAdded(r: Run, s: Run, events: seq<Event>) {
    s.past.log == r.past.log + seq(|events|, i requires 0 <= i < |events| => Logged(r.socket, events[i]))
  }

  /** How a drain answers. */
  function Refusal(why: Drain): Fate {
    match why
    case SessionOver(_) => Cleared
    case RunOver(e) => RunEnded(e)
  }

  function Refusals(cmds: seq<Worker.Command>, fate: Fate, heard: nat): seq<Settled> {
    seq(|cmds|, i requires 0 <= i < |cmds| => Settled(cmds[i].id, fate, heard))
  }

  /** Requests taken out of the pending map by one sweep. */
  ghost predicate Swept(news: seq<Settled>, removed: set<Id>, gone: set<Id>) {
    && SettledIds(news) == removed
    && forall x :: x in news ==> x.fate == if x.id in gone then Discarded else Expired
  }

  class Supervisor {
    const options: Options
    const codec: Dispatch.Codec

    // Shared with the client: the command channel, the watched values, the atomics.
    var queue: seq<Command>
    var open: bool
    var status: Status
    var first: Option<Result<ConnectResult>>
    var generation: nat
    var connected: bool

    // Locals of `supervise` and of `session`.
    var established: bool
    var attempt: nat
    var pending: map<Id, nat>
    var ping: Option<Ping>
    var nextPing: nat

    var now: nat
    var drawn: set<Id>

    ghost const start: nat
    ghost var trail: seq<Happening>
    ghost var at: Situation

    /** The fields are those of a machine state that a new run reaches. */
    ghost predicate Linked()
      reads this
    {
      && Valid(options)
      && Path(options, start, trail, at)
      && Mirrored(at.run)
      && now == at.now && drawn == at.drawn
    }

    ghost predicate Mirrored(run: Run)
      reads this
    {
      && queue == run.box.queue && open == !run.box.closed && pending == run.box.pending
      && status == run.face.status && first == run.face.first
      && generation == run.socket
      && established == run.established && attempt == run.attempt
      && ping == run.beat.ping && nextPing == run.beat.next
      && (connected ==> ClientGate.MayBeUp(run.pc)) && (ClientGate.MustBeUp(run.pc) ==> connected)
    }

    lemma LinkedFacts()
      requires Linked()
      ensures at.run.box.pending == pending && at.run.box.queue == queue && at.now == now && at.run.socket == generation
    {
    }

    /** Wherever the code stands, every invariant of a run holds. */
    lemma CodeOk()
      requires Linked()
      ensures RunOk(options, at.run, now, at.late) && Ids(Accepted(at.run)) + PingIds(at.run) <= drawn
    {
      hide RunOk, Path;
      PathOk(options, start, trail, at);
    }

    constructor (o: Options, c: Dispatch.Codec, g: nat, clock: nat, ids: set<Id>)
      requires Valid(o)
      ensures Linked() && at.run == NewRun(g) && options == o && codec == c && now == clock && drawn == ids
    {
      options, codec, start := o, c, g;
      queue, open, status, first, generation, connected := [], true, Connecting, None, g, false;
      established, attempt, pending, ping, nextPing := false, 0, map[], None, 0;
      now, drawn := clock, ids;
      trail, at := [], Situation(NewRun(g), clock, 0, ids);
    }

    /** The machine takes a step. */
    ghost method Do(act: Act, gone: set<Id>)
      requires Path(options, start, trail, at) && Possible(options, at, Acts(act, gone))
      modifies this`trail, this`at
      ensures Path(options, start, trail, at) && at == Onward(options, old(at), Acts(act, gone))
    {
      hide Path, Possible, Onward;
      PathStep(options, start, trail, at, Acts(act, gone));
      at, trail := Onward(options, at, Acts(act, gone)), trail + [Acts(act, gone)];
    }

    ghost method DoLife(act: Life, gone: set<Id>)
      requires Path(options, start, trail, at) && LifeEnabled(options, at.run, EnvIn(at, gone), act)
      modifies this`trail, this`at
      ensures Path(options, start, trail, at)
      ensures at == old(at).(run := LifeNext(options, old(at).run, EnvIn(old(at), gone), act))
    {
      hide Path, LifeNext, LifeEnabled;
      Do(OfLife(act), gone);
    }

    ghost method DoSess(act: Sess, gone: set<Id>)
      requires Path(options, start, trail, at) && SessEnabled(options, at.run, EnvIn(at, gone), act)
      modifies this`trail, this`at
      ensures Path(options, start, trail, at)
      ensures at == old(at).(run := SessNext(options, old(at).run, EnvIn(old(at), gone), act))
    {
      hide Path, SessNext, SessEnabled;
      Do(OfSess(act), gone);
    }

    ghost method DoTalk(act: Talk, gone: set<Id>)
      requires Path(options, start, trail, at) && TalkEnabled(options, at.run, EnvIn(at, gone), act) && !act.Fire?
      modifies this`trail, this`at
      ensures Path(options, start, trail, at)
      ensures at == old(at).(run := TalkNext(options, old(at).run, EnvIn(old(at), gone), act))
    {
      hide Path, TalkNext, TalkEnabled;
      Do(OfTalk(act), gone);
    }

    /** The timer branch may draw an identity. */
    ghost method DoFire(id: Id)
      requires Path(options, start, trail, at) && TalkEnabled(options, at.run, EnvIn(at, {}), Fire(id)) && id !in at.drawn
      modifies this`trail, this`at
      ensures Path(options, start, trail, at)
      ensures at == old(at).(run := TalkNext(options, old(at).run, EnvIn(old(at), {}), Fire(id)), drawn := old(at).drawn + {id})
    {
      hide Path, TalkNext, TalkEnabled;
      Do(OfTalk(Fire(id)), {});
    }

    /** Time passes. */
    method Pass(ticks: nat)
      requires Linked()
      modifies this`now, this`trail, this`at
      ensures Linked() && now == old(now) + ticks && at.run == old(at.run)
    {
      hide Path;
      PathStep(options, start, trail, at, Passes(ticks));
      at, trail := Onward(options, at, Passes(ticks)), trail + [Passes(ticks)];
      now := now + ticks;
    }

    /** A sender's `try_send`, for a request with an identity not drawn before. */
    method Enqueue(cmd: Command)
      requires Linked() && open && cmd.size <= options.maxMessageSize && cmd.id !in drawn
      modifies this`queue, this`drawn, this`trail, this`at
      ensures Linked() && queue == old(queue) + [cmd] && at.run == Push(old(at.run), cmd)
    {
      hide Path;
      PathStep(options, start, trail, at, Arrives(cmd));
      at, trail := Onward(options, at, Arrives(cmd)), trail + [Arrives(cmd)];
      queue, drawn := queue + [cmd], drawn + {cmd.id};
    }

    /** The script's senders; what no sender can do is skipped. */
    method Deliver(cmds: seq<Command>)
      requires Linked()
      modifies this`queue, this`drawn, this`trail, this`at
      ensures Linked() && at.run.pc == old(at.run.pc) && at.run.past == old(at.run.past) && at.run.socket == old(at.run.socket)
      ensures old(queue) <= queue
    {
      hide Path;
      for i := 0 to |cmds|
        invariant Linked() && at.run.pc == old(at.run.pc) && at.run.past == old(at.run.past)
        invariant at.run.socket == old(at.run.socket) && old(queue) <= queue
      {
        if open && cmds[i].size <= options.maxMessageSize && cmds[i].id !in drawn {
          Enqueue(cmds[i]);
        }
      }
    }

    /** Cancellation is requested, and the awaiting worker's future dropped. */
    ghost method Stop(flushed: bool)
      requires Linked() && Awaiting(at.run.pc)
      requires flushed ==> at.run.pc.Session? && at.run.pc.spot.Writing? && Size(at.run.pc.spot.out) <= options.maxMessageSize
      modifies this`trail, this`at
      ensures Linked() && at.run.pc == Leaving(Cancelled)
      ensures at.run.box == old(at.run.box) && at.run.past.log == old(at.run.past.log)
      ensures at.run.past.heard == old(at.run.past.heard)
      ensures at.run.past.wire == if flushed then Put(old(at.run), old(at.run).pc.spot.out).past.wire else old(at.run.past.wire)
    {
      hide Path;
      PathStep(options, start, trail, at, Signalled);
      at, trail := Onward(options, at, Signalled), trail + [Signalled];
      DoLife(Cancel(flushed), {});
    }

    // ---- session ----

    /** A step of the sweep that only moves on. */
    ghost method Shift(act: Sess, gone: set<Id>, spot: Spot)
      requires Linked() && at.run.pc.Session? && SessEnabled(options, at.run, EnvIn(at, gone), act)
      requires SessNext(options, at.run, EnvIn(at, gone), act) == Spotted(at.run, spot)
      modifies this`trail, this`at
      ensures Linked() && at.run == Spotted(old(at.run), spot) && at.now == now
      ensures Sweeping(old(at.run), at.run, {}, gone)
    {
      hide Path, SessEnabled, SessNext, Valid;
      DoSess(act, gone);
    }

    /** A pending request stays unless its caller left. */
    method Keep(id: Id, todo: set<Id>, gone: set<Id>)
      requires Linked() && at.run.pc == Session(Retaining(now, todo)) && id in todo && id in pending
      modifies this`pending, this`trail, this`at
      ensures Linked() && at.run.pc == Session(Retaining(now, todo - {id}))
      ensures at.run.box.pending == pending == if id in gone then old(pending) - {id} else old(pending)
      ensures Sweeping(old(at.run), at.run, if id in gone then {id} else {}, gone)
    {
      hide Path, Onward, Possible, Valid;
      if id in gone {
        pending := pending - {id};
      }
      DoSess(KeepOne(id), gone);
      if id in gone {
        SweepOne(old(at.run), at.run, id, Discarded, gone);
      }
    }

    /** The clock is read and the retain loop begins. */
    ghost method BeginSweep(gone: set<Id>)
      requires Linked() && at.run.pc == Session(Top)
      modifies this`trail, this`at
      ensures Linked() && at.run == Spotted(old(at.run), Retaining(now, pending.Keys))
      ensures Sweeping(old(at.run), at.run, {}, gone)
    {
      hide Path, Sweeping, Valid;
      Shift(Look, gone, Retaining(now, pending.Keys));
    }

    /** The expired requests are collected. */
    ghost method EndRetain(gone: set<Id>)
      requires Linked() && at.run.pc == Session(Retaining(now, {}))
      modifies this`trail, this`at
      ensures Linked() && at.run == Spotted(old(at.run), Expiring(now, ExpiredIds(pending, now)))
      ensures Sweeping(old(at.run), at.run, {}, gone)
    {
      hide Path, Sweeping, Valid;
      Shift(KeepDone, gone, Expiring(now, ExpiredIds(pending, now)));
    }

    /** The first loop of a turn: requests whose caller left are dropped. */
    method Retain(gone: set<Id>)
      requires Linked() && at.run.pc == Session(Top)
      modifies this`pending, this`trail, this`at
      ensures Linked() && at.run.pc == Session(Expiring(now, ExpiredIds(pending, now)))
      ensures pending == old(pending) - gone
      ensures Sweeping(old(at.run), at.run, old(pending.Keys) * gone, gone)
    {
      hide Path, Sweeping, Valid, Mirrored, SessNext, SessEnabled;
      var all := pending.Keys;
      assert at.run.box.pending == pending && at.now == now by {
        LinkedFacts();
      }
      BeginSweep(gone);
      var todo := all;
      assert (all - todo) * gone == {};
      while todo != {}
        invariant Linked() && at.run.pc == Session(Retaining(now, todo)) && todo <= all
        invariant at.run.box.pending == pending == old(pending) - (all - todo) * gone
        invariant Sweeping(old(at.run), at.run, (all - todo) * gone, gone)
      {
        var id :| id in todo;
        ghost var before, leaving := at.run, if id in gone then {id} else {};
        Keep(id, todo, gone);
        SweepJoin(old(at.run), before, at.run, (all - todo) * gone, leaving, gone);
        OneMore(all, todo, id, gone);
        todo := todo - {id};
      }
      assert (all - todo) * gone == all * gone;
      ghost var before := at.run;
      EndRetain(gone);
      SweepJoin(old(at.run), before, at.run, all * gone, {}, gone);
      assert all * gone + {} == all * gone;
    }

    /** A pending request whose deadline has passed is answered with a timeout. */
    method ExpireOne(id: Id, todo: set<Id>, gone: set<Id>)
      requires Linked() && at.run.pc == Session(Expiring(now, todo)) && id in todo && id in pending && id !in gone
      modifies this`pending, this`trail, this`at
      ensures Linked() && at.run.pc == Session(Expiring(now, todo - {id}))
      ensures at.run.box.pending == pending == old(pending) - {id}
      ensures Sweeping(old(at.run), at.run, {id}, gone)
    {
      hide Path, Onward, Possible, Swept, Valid;
      pending := pending - {id};
      DoSess(Sess.ExpireOne(id), gone);
      SweepOne(old(at.run), at.run, id, Expired, gone);
    }

    /** The second loop of a turn: expired requests are answered. */
    method Expire(gone: set<Id>)
      requires Linked() && at.run.pc == Session(Expiring(now, ExpiredIds(pending, now))) && pending.Keys !! gone
      modifies this`pending, this`trail, this`at
      ensures Linked() && at.run.pc == Session(Expiring(now, {})) && at.run.box.pending == pending
      ensures pending == old(pending) - ExpiredIds(old(pending), now)
      ensures Sweeping(old(at.run), at.run, ExpiredIds(old(pending), now), gone)
    {
      hide Path, Sweeping, Valid, Mirrored;
      var all := ExpiredIds(pending, now);
      var todo := all;
      LinkedFacts();
      SweepNothing(at.run, gone);
      assert all - todo == {};
      while todo != {}
        invariant Linked() && at.run.pc == Session(Expiring(now, todo)) && todo <= all
        invariant at.run.box.pending == pending == old(pending) - (all - todo)
        invariant Sweeping(old(at.run), at.run, all - todo, gone)
      {
        var id :| id in todo;
        ghost var before := at.run;
        ExpireOne(id, todo, gone);
        SweepJoin(old(at.run), before, at.run, all - todo, {id}, gone);
        assert (all - todo) + {id} == all - (todo - {id});
        todo := todo - {id};
      }
      assert all - todo == all;
    }

    /** The next deadline: a pending request's or the heartbeat's. */
    method Timer() returns (timer: nat)
      ensures Earliest(timer, pending, HeartbeatDue(ping, nextPing))
    {
      timer := HeartbeatDue(ping, nextPing);
      var todo := pending.Keys;
      while todo != {}
        invariant todo <= pending.Keys
        invariant timer <= HeartbeatDue(ping, nextPing)
        invariant forall id :: id in pending && id !in todo ==> timer <= pending[id]
        invariant timer == HeartbeatDue(ping, nextPing) || exists id :: id in pending && pending[id] == timer
      {
        var id :| id in todo;
        if pending[id] < timer {
          timer := pending[id];
        }
        todo := todo - {id};
      }
    }

    /**
     * The head of the session loop. Requests whose caller left are dropped and expired ones answered, each once;
     * the others stay, and the wait that follows ends at the earliest deadline left.
     */
    method Sweep(gone: set<Id>) returns (timer: nat)
      requires Linked() && at.run.pc == Session(Top)
      modifies this`pending, this`trail, this`at
      ensures Linked() && at.run.pc == Session(Waiting(now, timer))
      ensures pending == map id | id in old(pending) && id !in gone && now < old(pending)[id] :: old(pending)[id]
      ensures Sweeping(old(at.run), at.run, old(pending.Keys) - pending.Keys, gone)
      ensures Earliest(timer, pending, HeartbeatDue(ping, nextPing))
    {
      hide Path, Sweeping, Valid, Mirrored, ClientGate.MayBeUp, ClientGate.MustBeUp;
      Retain(gone);
      ghost var kept, all := at.run, old(pending.Keys);
      ghost var expired := ExpiredIds(pending, now);
      Expire(gone);
      SweepJoin(old(at.run), kept, at.run, all * gone, expired, gone);
      timer := Timer();
      kept := at.run;
      WaitStep(timer, gone);
      SweepJoin(old(at.run), kept, at.run, all * gone + expired, {}, gone);
      assert all * gone + expired + {} == all - pending.Keys;
    }

    ghost method WaitStep(timer: nat, gone: set<Id>)
      requires Linked() && at.run.pc == Session(Expiring(now, {})) && Earliest(timer, pending, HeartbeatDue(ping, nextPing))
      modifies this`trail, this`at
      ensures Linked() && at.run.pc == Session(Waiting(now, timer))
      ensures Sweeping(old(at.run), at.run, {}, gone)
    {
      hide Path, Sweeping, Valid, Earliest;
      Shift(ExpireDone(timer), gone, Waiting(now, timer));
    }

    /** `write` and `flush`: a frame too large is refused before any I/O; a timely success may record a ping. */
    method Write(out: Out, d: Delivery) returns (r: Outcome)
      requires Linked() && at.run.pc == Session(Writing(out))
      modifies this`now, this`ping, this`trail, this`at
      ensures Linked() && StandsAt(at.run, r)
      ensures r == if Size(out) > options.maxMessageSize then Over(MessageTooLarge)
                   else match d case Taken(_) => Running case Failed(_, _) => Over(Transport) case Interrupted(_, _) => Stopped
      ensures r.Running? && out.Heartbeat? ==> ping == Some(Ping(out.id, out.deadline))
      ensures !(r.Running? && out.Heartbeat?) ==> ping == old(ping)
      ensures at.run.past.wire == old(at.run.past.wire)
                + if Size(out) <= options.maxMessageSize && Reaching(d) && !out.Flush? then [Written(generation, out, |at.run.past.heard|)] else []
      ensures at.run.past.log == old(at.run.past.log) && at.run.box == old(at.run.box)
    {
      hide Path, Onward, Possible, Valid;
      if Size(out) > options.maxMessageSize {
        DoTalk(WriteErr(false), {});
        return Over(MessageTooLarge);
      }
      Pass(d.ticks);
      match d
      case Taken(_) =>
        if out.Heartbeat? {
          ping := Some(Ping(out.id, out.deadline));
        }
        DoTalk(WriteOk, {});
        r := Running;
      case Failed(_, flushed) =>
        DoTalk(WriteErr(flushed), {});
        r := Over(Transport);
      case Interrupted(_, flushed) =>
        Stop(flushed);
        r := Stopped;
    }

    /** The heartbeat is due. */
    method Probe(id: Id, d: Delivery) returns (r: Outcome)
      requires Linked() && at.run.pc.Session? && at.run.pc.spot.Waiting? && at.run.pc.spot.timer <= now && id !in drawn
      requires ping.None? && nextPing <= now
      modifies this`now, this`ping, this`drawn, this`trail, this`at
      ensures Linked() && StandsAt(at.run, r)
      ensures ping == if r.Running? then Some(Ping(id, old(now) + options.pongTimeout)) else None
      ensures r.Over? ==> r == Over(MessageTooLarge) || r == Over(Transport)
    {
      hide Path, Onward, Possible, Valid;
      var deadline := now + options.pongTimeout;
      drawn := drawn + {id};
      DoFire(id);
      r := Write(Heartbeat(id, deadline), d);
    }

    /** The timer branch: a missed pong ends the session, a due heartbeat is written, otherwise a request expired. */
    method Fired(id: Id, d: Delivery) returns (r: Outcome)
      requires Linked() && at.run.pc.Session? && at.run.pc.spot.Waiting? && at.run.pc.spot.timer <= now && id !in drawn
      modifies this`now, this`ping, this`drawn, this`trail, this`at
      ensures Linked() && StandsAt(at.run, r)
      ensures r == Over(Timeout) <==> old(ping).Some? && old(ping).value.deadline <= old(now)
      ensures old(ping).Some? || old(now) < nextPing ==> at.run.past == old(at.run.past) && ping == old(ping)
      ensures old(ping).None? && nextPing <= old(now) ==>
                ping == if r.Running? then Some(Ping(id, old(now) + options.pongTimeout)) else None
    {
      hide Path, Onward, Possible, Valid;
      if ping.None? && nextPing <= now {
        r := Probe(id, d);
      } else {
        r := if ping.Some? && ping.value.deadline <= now then Over(Timeout) else Running;
        drawn := drawn + {id};
        DoFire(id);
      }
    }

    /** How the command branch disposes of a command, in the order of its checks. */
    function Disposal(cmd: Command, gone: set<Id>): Option<Fate>
      reads this`generation, this`now
    {
      if cmd.id in gone then Some(Discarded)
      else if cmd.generation != generation then Some(Stale)
      else if cmd.deadline <= now then Some(Late)
      else None
    }

    /** `commands.recv()`. */
    method Dequeue(gone: set<Id>) returns (cmd: Command)
      requires Linked() && at.run.pc.Session? && at.run.pc.spot.Waiting? && queue != []
      modifies this`queue, this`trail, this`at
      ensures Linked() && cmd == old(queue[0]) && queue == old(queue)[1..] && now == at.now && generation == at.run.socket
      ensures at.run == Spotted(Pop(old(at.run)), Took(cmd))
    {
      hide Path, Onward, Possible, Valid;
      cmd := queue[0];
      queue := queue[1..];
      DoSess(Take, gone);
    }

    /** A check settles the command in hand. */
    ghost method Dismiss(act: Sess, gone: set<Id>, id: Id, fate: Fate)
      requires Linked() && at.run.pc.Session? && SessEnabled(options, at.run, EnvIn(at, gone), act)
      requires SessNext(options, at.run, EnvIn(at, gone), act) == Spotted(Settle(at.run, id, fate), Top)
      modifies this`trail, this`at
      ensures Linked() && at.run == Spotted(Settle(old(at.run), id, fate), Top)
    {
      hide Path, SessEnabled, SessNext, Valid;
      DoSess(act, gone);
    }

    /** The command passed every check. */
    method Pend(cmd: Command, gone: set<Id>)
      requires Linked() && at.run.pc == Session(Current(cmd)) && now < cmd.deadline
      modifies this`pending, this`trail, this`at
      ensures Linked() && at.run.pc == Session(Writing(Send(cmd))) && pending == old(pending)[cmd.id := cmd.deadline]
      ensures at.run.box.settled == old(at.run.box.settled) && at.run.past.wire == old(at.run.past.wire)
    {
      hide Path, Onward, Possible, Valid;
      pending := pending[cmd.id := cmd.deadline];
      DoSess(CheckDeadline, gone);
    }

    /** The last check: the deadline. */
    method Vet(cmd: Command, gone: set<Id>) returns (admitted: bool)
      requires Linked() && at.run.pc == Session(Current(cmd))
      modifies this`pending, this`trail, this`at
      ensures Linked() && at.run.past.wire == old(at.run.past.wire)
      ensures admitted <==> now < cmd.deadline
      ensures at.run.pc == Session(if admitted then Writing(Send(cmd)) else Top)
      ensures pending == if admitted then old(pending)[cmd.id := cmd.deadline] else old(pending)
      ensures at.run.box.settled == old(at.run.box.settled)
                + if admitted then [] else [Settled(cmd.id, Late, |at.run.past.heard|)]
    {
      hide Path, Valid;
      admitted := now < cmd.deadline;
      if admitted {
        Pend(cmd, gone);
      } else {
        Dismiss(CheckDeadline, gone, cmd.id, Late);
      }
    }

    /** The first two checks of the command in hand: its caller still waits, and its session is still on. */
    method Screen(cmd: Command, gone: set<Id>) returns (refused: Option<Fate>)
      requires Linked() && at.run.pc == Session(Took(cmd))
      modifies this`trail, this`at
      ensures Linked() && at.run.past.wire == old(at.run.past.wire)
      ensures refused == if cmd.id in gone then Some(Discarded) else if cmd.generation != generation then Some(Stale) else None
      ensures at.run.pc == Session(if refused.Some? then Top else Current(cmd))
      ensures at.run.box.settled == old(at.run.box.settled)
                + if refused.Some? then [Settled(cmd.id, refused.value, |at.run.past.heard|)] else []
    {
      hide Path, Valid, Mirrored;
      LinkedFacts();
      if cmd.id in gone {
        Dismiss(CheckOpen, gone, cmd.id, Discarded);
        return Some(Discarded);
      }
      Shift(CheckOpen, gone, Spot.Open(cmd));
      if cmd.generation != generation {
        Dismiss(CheckGeneration, gone, cmd.id, Stale);
        return Some(Stale);
      }
      Shift(CheckGeneration, gone, Current(cmd));
      refused := None;
    }

    /** Takes the next command; one that fails a check is settled, any other becomes pending. */
    method Admit(gone: set<Id>) returns (cmd: Command, admitted: bool)
      requires Linked() && at.run.pc.Session? && at.run.pc.spot.Waiting? && queue != []
      modifies this`queue, this`pending, this`trail, this`at
      ensures Linked() && cmd == old(queue[0]) && queue == old(queue)[1..] && at.run.past.wire == old(at.run.past.wire)
      ensures admitted <==> Disposal(cmd, gone).None?
      ensures at.run.pc == Session(if admitted then Writing(Send(cmd)) else Top)
      ensures pending == if admitted then old(pending)[cmd.id := cmd.deadline] else old(pending)
      ensures at.run.box.settled == old(at.run.box.settled)
                + if admitted then [] else [Settled(cmd.id, Disposal(cmd, gone).value, |at.run.past.heard|)]
    {
      hide Path, Valid, Mirrored;
      cmd := Dequeue(gone);
      var refused := Screen(cmd, gone);
      admitted := false;
      if refused.None? {
        admitted := Vet(cmd, gone);
      }
    }

    /** The command branch: an abandoned, stale or late command is settled unsent, any other becomes pending and is written. */
    method Command(gone: set<Id>, d: Delivery) returns (r: Outcome)
      requires Linked() && at.run.pc.Session? && at.run.pc.spot.Waiting? && queue != []
      modifies this`now, this`ping, this`queue, this`pending, this`trail, this`at
      ensures Linked() && StandsAt(at.run, r)
      ensures queue == old(queue)[1..]
      ensures var cmd, fate := old(queue[0]), old(Disposal(queue[0], gone));
              if fate.Some? then
                r == Running && pending == old(pending) && at.run.past.wire == old(at.run.past.wire)
                && at.run.box.settled == old(at.run.box.settled) + [Settled(cmd.id, fate.value, |at.run.past.heard|)]
              else
                pending == old(pending)[cmd.id := cmd.deadline] && at.run.box.settled == old(at.run.box.settled)
                && at.run.past.wire == old(at.run.past.wire)
                     + if cmd.size <= options.maxMessageSize && Reaching(d) then [Written(generation, Send(cmd), |at.run.past.heard|)] else []
    {
      hide Path, Valid, ClientGate.MayBeUp, ClientGate.MustBeUp;
      var cmd, admitted := Admit(gone);
      r := Running;
      if admitted {
        r := Write(Send(cmd), d);
      }
    }

    /** The machine hears what the frame says. */
    ghost method Hear(input: Inbound, size: nat)
      requires Path(options, start, trail, at) && Plausible(input)
      requires at.run.pc.Session? && at.run.pc.spot.Waiting?
      modifies this`trail, this`at
      ensures Path(options, start, trail, at)
      ensures at == old(at).(run := Receive(options, old(at.run), EnvIn(old(at), {}), input, size))
    {
      hide Path, Receive;
      DoTalk(Talk.Hear(input, size), {});
    }

    /** A pending request is answered. */
    method Resolve(id: Id, pong: Result<()>, ack: Result<SendResult>)
      requires Linked() && at.run.pc.Session? && at.run.pc.spot.Waiting? && Plausible(Reply(id, pong, ack))
      requires id in pending && !(ping.Some? && ping.value.id == id)
      modifies this`pending, this`trail, this`at
      ensures Linked() && at.run.pc == Session(Top) && at.run.past.wire == old(at.run.past.wire)
      ensures pending == old(pending) - {id}
      ensures at.run.box.settled == old(at.run.box.settled)
                                    + [Settled(id, Answered(|old(at.run.past.heard)|, ack), |at.run.past.heard|)]
      ensures EventsAdded(old(at.run), at.run, if ack.Ok? then [SendAck(ack.value)] else [])
    {
      hide Path, Onward, Possible, Valid;
      pending := pending - {id};
      Hear(Reply(id, pong, ack), 0);
      DoTalk(Answer, {});
    }

    /** What a reply with that ID does, as the heartbeat's, a pending request's or nobody's. */
    twostate predicate Correlated(id: Id, pong: Result<()>, ack: Result<SendResult>, r: Outcome)
      reads this
    {
      var mine := old(ping).Some? && old(ping).value.id == id;
      && at.run.past.wire == old(at.run.past.wire)
      && (mine ==> r == if pong.Err? then Over(pong.error) else Running)
      && (!mine ==> r == Running && ping == old(ping) && nextPing == old(nextPing))
      && (mine && pong.Ok? ==> ping == None && nextPing == now + options.pingInterval)
      && pending == (if mine then old(pending) else old(pending) - {id})
      && at.run.box.settled == old(at.run.box.settled) + (
           if !mine && id in old(pending) then [Settled(id, Answered(|old(at.run.past.heard)|, ack), |at.run.past.heard|)] else [])
      && EventsAdded(old(at.run), at.run, if !mine && id in old(pending) && ack.Ok? then [SendAck(ack.value)] else [])
    }

    /** A text with an id: the heartbeat's, a pending request's, or nobody's. */
    method Correlate(id: Id, pong: Result<()>, ack: Result<SendResult>) returns (r: Outcome)
      requires Linked() && at.run.pc.Session? && at.run.pc.spot.Waiting? && Plausible(Reply(id, pong, ack))
      modifies this`ping, this`nextPing, this`pending, this`trail, this`at
      ensures Linked() && StandsAt(at.run, r)
      ensures Correlated(id, pong, ack, r)
    {
      hide Path, Onward, Possible, Valid;
      r := Running;
      if ping.Some? && ping.value.id == id {
        if pong.Err? {
          r := Over(pong.error);
        } else {
          ping, nextPing := None, now + options.pingInterval;
        }
        Hear(Reply(id, pong, ack), 0);
      } else if id in pending {
        Resolve(id, pong, ack);
      } else {
        Hear(Reply(id, pong, ack), 0);
        assert pending - {id} == pending;
      }
    }

    /** Input that is neither an answer nor to be answered. */
    method Note(input: Inbound) returns (r: Outcome)
      requires Linked() && at.run.pc.Session? && at.run.pc.spot.Waiting? && Plausible(input)
      requires !input.Reply? && !input.Delivery? && !input.SocketPing?
      modifies this`ping, this`nextPing, this`trail, this`at
      ensures Linked() && StandsAt(at.run, r) && at.run.box == old(at.run.box) && at.run.past.wire == old(at.run.past.wire)
      ensures EventsAdded(old(at.run), at.run,
                          match input case Malformed(e) => [Failure(e)] case Notice(e) => [Custom(e)] case _ => [])
      ensures r == match input case Bye(code) => Over(Server(code)) case Gone => Over(Transport) case _ => Running
      ensures ping == (if input.PongNote? then None else old(ping))
      ensures nextPing == if input.PongNote? then now + options.pingInterval else old(nextPing)
    {
      hide Path, Onward, Possible, Valid, ReceiveReply;
      Hear(input, 0);
      r := Running;
      match input
      case Bye(code) => r := Over(Server(code));
      case PongNote => ping, nextPing := None, now + options.pingInterval;
      case Gone => r := Over(Transport);
      case _ =>
    }

    /** Input to be answered at once: a message by its RECVACK, a ping by a flush. */
    method Acknowledge(input: Inbound, ackSize: nat, d: Delivery) returns (r: Outcome)
      requires Linked() && at.run.pc.Session? && at.run.pc.spot.Waiting? && (input.Delivery? || input.SocketPing?)
      modifies this`now, this`ping, this`trail, this`at
      ensures Linked() && StandsAt(at.run, r) && at.run.box == old(at.run.box) && ping == old(ping)
      ensures EventsAdded(old(at.run), at.run, if input.Delivery? then [Event.Message(input.message)] else [])
      ensures at.run.past.wire == old(at.run.past.wire)
                + if input.Delivery? && ackSize <= options.maxMessageSize && Reaching(d)
                  then [Written(generation, RecvAck(ReceiptOf(input.message), ackSize), |at.run.past.heard|)] else []
    {
      hide Path, Onward, Possible, Valid, ReceiveReply;
      Hear(input, ackSize);
      if input.Delivery? {
        r := Write(RecvAck(ReceiptOf(input.message), ackSize), d);
      } else {
        r := Write(Flush, d);
      }
    }

    /** Nothing is written or settled, and just these events are emitted. */
    twostate predicate Unmoved(events: seq<Event>)
      reads this
    {
      && pending == old(pending) && at.run.box == old(at.run.box) && at.run.past.wire == old(at.run.past.wire)
      && EventsAdded(old(at.run), at.run, events)
    }

    /** The heartbeat is left alone. */
    twostate predicate Steady()
      reads this
    {
      ping == old(ping) && nextPing == old(nextPing)
    }

    /** A message is handed on and acknowledged with its own header, ID and sequence number. */
    twostate predicate Received(x: RecvMessage, ackSize: nat, d: Delivery)
      reads this
    {
      && pending == old(pending) && at.run.box == old(at.run.box)
      && EventsAdded(old(at.run), at.run, [Event.Message(x)])
      && at.run.past.wire == old(at.run.past.wire)
           + if ackSize <= options.maxMessageSize && Reaching(d)
             then [Written(generation, RecvAck(Receipt(x.header, x.messageId, x.messageSeq), ackSize), |at.run.past.heard|)] else []
    }

    /** The socket branch once the frame is interpreted. */
    method Heed(input: Inbound, ackSize: nat, d: Delivery) returns (r: Outcome)
      requires Linked() && at.run.pc.Session? && at.run.pc.spot.Waiting? && Plausible(input)
      modifies this`now, this`ping, this`nextPing, this`pending, this`trail, this`at
      ensures Linked() && StandsAt(at.run, r)
      ensures match input
              case Reply(id, pong, ack) => Correlated(id, pong, ack, r)
              case Delivery(m) => Received(m, ackSize, d) && Steady()
              case SocketPing => Unmoved([]) && Steady()
              case Malformed(e) => r == Running && Unmoved([Failure(e)]) && Steady()
              case Notice(e) => r == Running && Unmoved([Custom(e)]) && Steady()
              case Bye(code) => r == Over(Server(code)) && Unmoved([])
              case Gone => r == Over(Transport) && Unmoved([])
              case PongNote => r == Running && Unmoved([]) && ping == None && nextPing == now + options.pingInterval
              case _ => r == Running && Unmoved([]) && Steady()
    {
      hide Path, Valid, Mirrored, EventsAdded, StandsAt;
      match input
      case Reply(id, pong, ack) => r := Correlate(id, pong, ack);
      case Delivery(_) => r := Acknowledge(input, ackSize, d);
      case SocketPing => r := Acknowledge(input, ackSize, d);
      case _ => r := Note(input);
    }

    /** The socket branch, for every frame a peer can send: what it does, by the JSON object in the frame. */
    method Message(frame: Dispatch.Frame, ackSize: nat, d: Delivery) returns (r: Outcome)
      requires Linked() && at.run.pc.Session? && at.run.pc.spot.Waiting?
      modifies this`now, this`ping, this`nextPing, this`pending, this`trail, this`at
      ensures Linked() && StandsAt(at.run, r)
      ensures Inbounds.Calls(codec, frame, "pong") ==>
                r == Running && ping == None && nextPing == now + options.pingInterval && Unmoved([])
      ensures Inbounds.Calls(codec, frame, "disconnect") ==>
                && r.Over? && r.error.Server? && Unmoved([])
                && Inbounds.IsCode(Readings.Reason(Inbounds.Params(Inbounds.Tree(codec, frame).value)), r.error.code)
      ensures Inbounds.Calls(codec, frame, "event") ==>
                forall x :: Readings.HoldsEvent(codec, Inbounds.Params(Inbounds.Tree(codec, frame).value), x) ==>
                              r == Running && Unmoved([Custom(x)]) && Steady()
      ensures Inbounds.Calls(codec, frame, "recv") ==>
                forall x :: Readings.HoldsMessage(codec, Inbounds.Params(Inbounds.Tree(codec, frame).value), x) ==>
                              Received(x, ackSize, d) && Steady()
      ensures Inbounds.Answers(codec, frame) ==>
                exists pong, ack :: && Inbounds.IsPulse(Inbounds.Tree(codec, frame).value, pong)
                                    && Inbounds.IsVerdict(Inbounds.Tree(codec, frame).value, ack)
                                    && Correlated(Inbounds.Tree(codec, frame).value["id"].s, pong, ack, r)
      ensures Inbounds.Garbled(codec, frame) ==>
                && r == Running && Steady()
                && exists why :: Unmoved([Event.Failure(Error.Protocol(why))])
      ensures frame.EndOfStream? ==> r == Over(Transport) && Unmoved([])
      ensures Inbounds.Passed(codec, frame) ==>
                r == Running && Unmoved([]) && Steady()
      ensures frame.PingFrame? ==> Unmoved([]) && Steady()
    {
      hide *;
      var input := Dispatch.Interpret(codec, frame);
      Dispatch.InterpretPlausible(codec, frame);
      Inbounds.FrameMeaning(codec, frame);
      r := Heed(input, ackSize, d);
    }

    /** One turn of the session loop; `stuck` if the script's pick cannot happen, so that the wait goes on. */
    method TakeTurn(turn: Turn) returns (r: Outcome, stuck: bool)
      requires Linked() && at.run.pc == Session(Top)
      modifies this`now, this`ping, this`nextPing, this`queue, this`drawn, this`pending, this`trail, this`at
      ensures Linked()
      ensures if stuck then at.run.pc.Session? && at.run.pc.spot.Waiting? else StandsAt(at.run, r)
    {
      hide Path, Valid, Mirrored, Sweeping, Dispatch.Interpret, Earliest, EventsAdded;
      var timer := Sweep(turn.gone);
      Pass(turn.idle);
      Deliver(turn.arrivals);
      stuck, r := false, Running;
      match turn.pick
      case TimerPick(id, d) =>
        if timer <= now && id !in drawn {
          r := Fired(id, d);
        } else {
          stuck := true;
        }
      case CommandPick(gone, d) =>
        if queue != [] {
          r := Command(gone, d);
        } else {
          stuck := true;
        }
      case MessagePick(frame, size, d) => r := Message(frame, size, d);
      case CancelPick =>
        Stop(false);
        r := Stopped;
    }

    /** The session loop: it ends with an error or by cancellation, or still waits when the script is over. */
    method Serve(turns: seq<Turn>) returns (r: Outcome)
      requires Linked() && at.run.pc == Session(Top)
      modifies this`now, this`ping, this`nextPing, this`queue, this`drawn, this`pending, this`trail, this`at
      ensures Linked()
      ensures if r.Running? then at.run.pc.Session? && at.run.pc.spot.Waiting? else StandsAt(at.run, r)
    {
      hide Path, Valid, Mirrored, Sweeping, Earliest;
      for i := 0 to |turns|
        invariant Linked() && at.run.pc == Session(Top)
      {
        var stuck;
        r, stuck := TakeTurn(turns[i]);
        if stuck {
          return Running;
        }
        if !r.Running? {
          return;
        }
      }
      var timer := Sweep({});
      return Running;
    }

    // ---- supervise ----

    /** The session's locals are dropped, and with them the reply of every pending request. */
    method DropPending()
      requires Linked() && at.run.pc.Leaving?
      modifies this`pending, this`trail, this`at
      ensures Linked() && pending == map[]
      ensures at.run.pc == match old(at.run.pc).exit case Lost(e) => Lowering(e) case Cancelled => Aborting
      ensures at.run.past == old(at.run.past) && |at.run.box.settled| == |old(at.run.box.settled)| + |old(pending)|
      ensures forall id :: id in old(pending) ==> Settled(id, Dropped, |at.run.past.heard|) in at.run.box.settled
    {
      hide Path, Valid;
      while pending != map[]
        invariant Linked() && at.run.pc == old(at.run.pc) && at.run.past == old(at.run.past)
        invariant |at.run.box.settled| + |pending| == |old(at.run.box.settled)| + |old(pending)|
        invariant forall id :: id in old(pending) ==> id in pending || Settled(id, Dropped, |at.run.past.heard|) in at.run.box.settled
        decreases |pending|
      {
        var id :| id in pending;
        DropEntry(id);
      }
      DoLife(Worker.Left, {});
    }

    method DropEntry(id: Id)
      requires Linked() && at.run.pc.Leaving? && id in pending
      modifies this`pending, this`trail, this`at
      ensures Linked() && at.run.pc == old(at.run.pc) && at.run.past == old(at.run.past)
      ensures pending == old(pending) - {id} && |pending| + 1 == |old(pending)|
      ensures at.run.box.settled == old(at.run.box.settled) + [Settled(id, Dropped, |at.run.past.heard|)]
    {
      hide Path, Valid;
      OneLess(pending, id);
      pending := pending - {id};
      DoLife(DropOne(id), {});
    }

    /** Everything queued is answered with the loop's error, in order. */
    method Drain()
      requires Linked() && at.run.pc.Draining? && at.run.pc.held.None?
      modifies this`queue, this`trail, this`at
      ensures Linked() && queue == [] && at.run.pc == old(at.run.pc) && at.run.past == old(at.run.past)
      ensures at.run.box.popped == old(at.run.box.popped) + old(queue)
      ensures at.run.box.settled == old(at.run.box.settled) + Refusals(old(queue), Refusal(at.run.pc.why), |at.run.past.heard|)
    {
      hide Path, Valid;
      ghost var fate, heard := Refusal(at.run.pc.why), |at.run.past.heard|;
      while queue != []
        invariant at.run.box.settled + Refusals(queue, fate, heard)
               == old(at.run.box.settled) + Refusals(old(queue), fate, heard)
        invariant Linked() && at.run.pc == old(at.run.pc) && at.run.past == old(at.run.past)
        invariant at.run.box.popped + queue == old(at.run.box.popped) + old(queue)
        decreases |queue|
      {
        ghost var before := queue;
        DrainOne();
        assert Refusals(before, fate, heard) == [Settled(before[0].id, fate, heard)] + Refusals(queue, fate, heard);
      }
    }

    method DrainOne()
      requires Linked() && at.run.pc.Draining? && at.run.pc.held.None? && queue != []
      modifies this`queue, this`trail, this`at
      ensures Linked() && at.run.pc == old(at.run.pc) && at.run.past == old(at.run.past) && queue == old(queue)[1..]
      ensures at.run.box.popped == old(at.run.box.popped) + [old(queue)[0]]
      ensures at.run.box.settled == old(at.run.box.settled)
                + [Settled(old(queue)[0].id, Refusal(at.run.pc.why), |at.run.past.heard|)]
    {
      hide Path, Valid;
      queue := queue[1..];
      DoLife(TakeStale, {});
      DoLife(SettleStale, {});
    }

    /** Authentication succeeded: the retry counter is reset and a new generation begins. */
    method Count(result: ConnectResult)
      requires Linked() && at.run.pc.Dialing?
      modifies this`established, this`attempt, this`generation, this`trail, this`at
      ensures Linked() && at.run.pc == Counted(result) && at.run.past == old(at.run.past)
      ensures generation == old(generation) + 1 && established && attempt == 0
    {
      hide Path, Valid;
      established, attempt := true, 0;
      DoLife(DialOk(result), {});
      generation := generation + 1;
      DoLife(Life.Count, {});
    }

    /** Senders are let in. */
    method LetIn(result: ConnectResult)
      requires Linked() && at.run.pc == Counted(result)
      modifies this`connected, this`trail, this`at
      ensures Linked() && at.run.pc == Live(result) && at.run.past == old(at.run.past) && connected
    {
      hide Path, Valid;
      connected := true;
      DoLife(GoLive, {});
    }

    /** The result is published; only the first of a run settles its first attempt. */
    method Publish(result: ConnectResult)
      requires Linked() && at.run.pc == Live(result)
      modifies this`status, this`first, this`trail, this`at
      ensures Linked() && at.run.pc == Greeted(result) && at.run.past == old(at.run.past)
      ensures status == Ready(result) && first == if old(first).None? then Some(Ok(result)) else old(first)
    {
      hide Path, Valid;
      status := Ready(result);
      DoLife(TellStatus, {});
      if first.None? {
        first := Some(Ok(result));
      }
      DoLife(TellFirst, {});
    }

    /** The session starts with fresh locals. */
    method Enter(result: ConnectResult)
      requires Linked() && at.run.pc == Greeted(result)
      modifies this`pending, this`ping, this`nextPing, this`trail, this`at
      ensures Linked() && at.run.pc == Session(Top) && EventsAdded(old(at.run), at.run, [Connect(result)])
      ensures pending == map[] && ping == None && nextPing == now + options.pingInterval
    {
      hide Path, Valid;
      pending, ping, nextPing := map[], None, now + options.pingInterval;
      DoLife(Life.Enter, {});
    }

    /** From an authenticated socket into its session. */
    method Open(result: ConnectResult)
      requires Linked() && at.run.pc.Dialing?
      modifies this`established, this`attempt, this`generation, this`connected, this`status, this`first,
               this`pending, this`ping, this`nextPing, this`trail, this`at
      ensures Linked() && at.run.pc == Session(Top)
      ensures connected && generation == old(generation) + 1 && established && attempt == 0
      ensures status == Ready(result) && first == if old(first).None? then Some(Ok(result)) else old(first)
      ensures pending == map[] && ping == None && nextPing == now + options.pingInterval
      ensures at.run.past.log == old(at.run.past.log) + [Logged(generation, Connect(result))]
    {
      hide Path, Valid;
      Count(result);
      LetIn(result);
      Publish(result);
      Enter(result);
    }

    /** Dialing failed: the first attempt and rejections end the run. */
    method Refuse(e: Error) returns (r: Outcome)
      requires Linked() && at.run.pc.Dialing? && DialError(e) && (e.Timeout? ==> at.run.pc.limit <= now)
      modifies this`trail, this`at
      ensures Linked() && EventsAdded(old(at.run), at.run, [Failure(e)])
      ensures r == if !established || e.Server? || e.Protocol? then Over(e) else Running
      ensures at.run.pc == if r.Over? then Ending(e) else Judging
    {
      hide Path, Valid;
      DoLife(DialErr(e), {});
      DoLife(GiveUpDial, {});
      r := if !established || e.Server? || e.Protocol? then Over(e) else Running;
    }

    /** A session ended: senders are turned away. */
    method GoDark(e: Error)
      requires Linked() && at.run.pc == Lowering(e)
      modifies this`connected, this`trail, this`at
      ensures Linked() && !connected && at.run.pc == Clearing(e) && at.run.past == old(at.run.past)
    {
      hide Path, Valid;
      connected := false;
      DoLife(Life.Lower, {});
    }

    /** Callers of `connect` wait again. */
    method TurnAway(e: Error)
      requires Linked() && at.run.pc == Lowering(e)
      modifies this`connected, this`status, this`trail, this`at
      ensures Linked() && !connected && status == Connecting
      ensures at.run.pc == Draining(SessionOver(e), None) && at.run.past == old(at.run.past)
    {
      hide Path, Valid;
      GoDark(e);
      status := Connecting;
      DoLife(Clear, {});
    }

    /** The queue was found empty. */
    ghost method Emptied()
      requires Linked() && at.run.pc.Draining? && at.run.pc.held.None? && queue == [] && !connected
      modifies this`trail, this`at
      ensures Linked() && at.run.past == old(at.run.past)
      ensures at.run.pc == match old(at.run.pc).why case SessionOver(e) => Reporting(e) case RunOver(_) => Finished
    {
      hide Path, Valid;
      DoLife(Drained, {});
    }

    /** What is still queued from the lost socket is answered, never replayed. */
    method Lower(e: Error)
      requires Linked() && at.run.pc == Lowering(e)
      modifies this`connected, this`status, this`queue, this`trail, this`at
      ensures Linked() && !connected && status == Connecting && queue == [] && at.run.socket == generation
      ensures at.run.pc == Reporting(e) && at.run.past == old(at.run.past)
    {
      hide Path, Valid;
      TurnAway(e);
      Drain();
      Emptied();
    }

    /** The loss is reported; a server's disconnect ends the run. */
    method Report(e: Error) returns (r: Outcome)
      requires Linked() && at.run.pc == Reporting(e)
      modifies this`trail, this`at
      ensures Linked()
      ensures r == if e.Server? then Over(e) else Running
      ensures at.run.pc == if e.Server? then Ending(e) else Judging
      ensures EventsAdded(old(at.run), at.run,
                          if e.Server? then [Disconnect(DisconnectFor(e))] else [Disconnect(DisconnectFor(e)), Failure(e)])
    {
      hide Path, Valid;
      Blame(e);
      r := Over(e);
      if !e.Server? {
        Complain(e);
        r := Running;
      }
    }

    ghost method Blame(e: Error)
      requires Linked() && at.run.pc == Reporting(e)
      modifies this`trail, this`at
      ensures Linked() && at.run.pc == (if e.Server? then Ending(e) else Complaining(e)) && at.run.socket == old(at.run.socket)
      ensures EventsAdded(old(at.run), at.run, [Disconnect(DisconnectFor(e))])
    {
      hide Path, Valid;
      DoLife(Life.Report, {});
    }

    ghost method Complain(e: Error)
      requires Linked() && at.run.pc == Complaining(e)
      modifies this`trail, this`at
      ensures Linked() && at.run.pc == Judging && EventsAdded(old(at.run), at.run, [Failure(e)])
    {
      hide Path, Valid;
      DoLife(Life.Complain, {});
    }

    /** A lost session, up to the decision about a retry; a late sender may slip in after the drain. */
    method Lose(e: Error, late: seq<Command>) returns (r: Outcome)
      requires Linked() && at.run.pc == Lowering(e)
      modifies this`connected, this`status, this`queue, this`drawn, this`trail, this`at
      ensures Linked() && !connected && status == Connecting
      ensures r == if e.Server? then Over(e) else Running
      ensures at.run.pc == if e.Server? then Ending(e) else Judging
      ensures EventsAdded(old(at.run), at.run,
                          if e.Server? then [Disconnect(DisconnectFor(e))] else [Disconnect(DisconnectFor(e)), Failure(e)])
    {
      hide Path, Valid, Mirrored;
      LinkedFacts();
      Lower(e);
      Deliver(late);
      r := Report(e);
    }

    /** Another retry, or the end of the run when all are used up. */
    method Judge() returns (r: Outcome)
      requires Linked() && at.run.pc.Judging?
      modifies this`attempt, this`trail, this`at
      ensures Linked()
      ensures if old(attempt) < options.maxReconnectAttempts then
                r == Running && attempt == old(attempt) + 1 && at.run.pc == Pausing && EventsAdded(old(at.run), at.run, [])
              else
                r == Over(ReconnectExhausted) && attempt == old(attempt) && at.run.pc == Ending(ReconnectExhausted)
                && EventsAdded(old(at.run), at.run, [Failure(ReconnectExhausted)])
    {
      hide Path, Valid;
      if attempt >= options.maxReconnectAttempts {
        r := Over(ReconnectExhausted);
      } else {
        attempt := attempt + 1;
        r := Running;
      }
      DoLife(Worker.Judge, {});
    }

    /** The backoff of a retry. */
    method Pause(random: nat)
      requires Linked() && at.run.pc.Pausing?
      modifies this`trail, this`at
      ensures var delay := Backoff.Delay(options, attempt, random);
              Linked() && at.run.pc == Asleep(now + delay) && EventsAdded(old(at.run), at.run, [Reconnecting(attempt, delay)])
    {
      hide Path, Valid;
      DoLife(Life.Pause(random), {});
    }

    /** Where a round of the supervising loop begins. */
    ghost predicate Between()
      reads this
    {
      (at.run.pc.Spawned? && attempt == 0) || (at.run.pc.Pausing? && attempt > 0)
    }

    /** What the supervising loop leaves behind. */
    ghost predicate Supervised(r: Outcome)
      reads this
    {
      match r
      case Running => Between() || Awaiting(at.run.pc)
      case Over(e) => at.run.pc == Ending(e)
      case Stopped => at.run.pc == Aborting
    }

    /** A timed wait: it may be cut short by cancellation. */
    method Idle(wait: Wait) returns (stopped: bool)
      requires Linked() && Awaiting(at.run.pc)
      modifies this`now, this`queue, this`drawn, this`trail, this`at
      ensures Linked() && stopped == wait.Broken? && old(queue) <= queue
      ensures at.run.pc == if stopped then Leaving(Cancelled) else old(at.run.pc)
    {
      hide Path, Valid, Mirrored;
      Pass(wait.ticks);
      Deliver(wait.arrivals);
      stopped := wait.Broken?;
      if stopped {
        Stop(false);
      }
    }

    /** The backoff and then the dial, up to the answer; `Running` while either is still under way. */
    method Approach(round: Round) returns (r: Outcome, answered: bool, limit: nat)
      requires Linked() && Between()
      modifies this`now, this`queue, this`drawn, this`trail, this`at
      ensures Linked()
      ensures if answered then at.run.pc == Dialing(limit) else Awaiting(at.run.pc) || at.run.pc == Leaving(Cancelled)
      ensures !answered ==> r == if at.run.pc.Leaving? then Stopped else Running
    {
      hide Path, Valid;
      r, answered, limit := Running, false, 0;
      var again := attempt > 0;
      if again {
        var until := now + Backoff.Delay(options, attempt, round.random);
        Pause(round.random);
        var stopped := Idle(round.sleep);
        if stopped {
          return Stopped, false, 0;
        }
        if now < until {
          return;
        }
      }
      limit := now + options.connectTimeout;
      Dial(again);
      var stopped := Idle(round.dial);
      if stopped {
        return Stopped, false, limit;
      }
      answered := true;
    }

    /** The dial begins, at once or after a backoff that is over. */
    ghost method Dial(again: bool)
      requires Linked() && if again then at.run.pc.Asleep? && at.run.pc.until <= now else at.run.pc.Spawned?
      modifies this`trail, this`at
      ensures Linked() && at.run.pc == Dialing(now + options.connectTimeout)
    {
      hide Path, Valid;
      if again {
        DoLife(Wake, {});
      } else {
        DoLife(Start, {});
      }
    }

    /** An authenticated socket, from its session to the report of its loss. */
    method Attend(result: ConnectResult, turns: seq<Turn>, late: seq<Command>) returns (r: Outcome, lost: bool)
      requires Linked() && at.run.pc.Dialing?
      modifies this`established, this`attempt, this`generation, this`connected, this`status, this`first, this`queue,
               this`pending, this`ping, this`nextPing, this`now, this`drawn, this`trail, this`at
      ensures Linked() && if lost then r == Running && at.run.pc == Judging else Supervised(r)
      ensures r.Over? ==> r.error.Server?
    {
      hide Path, Valid, Mirrored;
      lost := false;
      Open(result);
      r := Serve(turns);
      if r.Running? {
        return;
      }
      DropPending();
      if r.Over? {
        r := Lose(r.error, late);
        lost := r.Running?;
      }
    }

    /** The supervising loop. */
    method Supervise(rounds: seq<Round>) returns (r: Outcome)
      requires Linked() && Between()
      modifies this`established, this`attempt, this`generation, this`connected, this`status, this`first, this`queue,
               this`pending, this`ping, this`nextPing, this`now, this`drawn, this`trail, this`at
      ensures Linked() && Supervised(r)
      ensures r.Over? ==> r.error.ReconnectExhausted? || r.error.Server? || r.error.Protocol? || !established
    {
      hide Path, Valid, Mirrored;
      for i := 0 to |rounds|
        invariant Linked() && Between()
      {
        var round := rounds[i];
        var answered, limit, lost;
        r, answered, limit := Approach(round);
        if !answered {
          if r.Stopped? {
            DropPending();
          }
          return;
        }
        if round.answer.Ok? {
          r, lost := Attend(round.answer.value, round.turns, round.late);
          if !lost {
            return;
          }
        } else {
          if !DialError(round.answer.error) || (round.answer.error.Timeout? && now < limit) {
            return Running;
          }
          r := Refuse(round.answer.error);
          if r.Over? {
            return;
          }
        }
        r := Judge();
        if r.Over? {
          return;
        }
      }
      r := Running;
    }

    // ---- run ----

    /** Cancellation: the client is offline before the manual disconnect is reported. */
    method Resign()
      requires Linked() && at.run.pc == Aborting
      modifies this`connected, this`trail, this`at
      ensures Linked() && at.run.pc == Ending(Disconnected) && !connected
      ensures EventsAdded(old(at.run), at.run, [Disconnect(Manual)])
    {
      hide Path, Valid;
      connected := false;
      DoLife(Abort, {});
      Sign();
    }

    ghost method Sign()
      requires Linked() && at.run.pc == Signing
      modifies this`trail, this`at
      ensures Linked() && at.run.pc == Ending(Disconnected) && EventsAdded(old(at.run), at.run, [Disconnect(Manual)])
    {
      hide Path, Valid;
      DoLife(Life.Sign, {});
    }

    /** However the run ended, the client is offline. */
    method GoOffline(error: Error)
      requires Linked() && at.run.pc == Ending(error)
      modifies this`connected, this`trail, this`at
      ensures Linked() && at.run.pc == Settling(error) && !connected && at.run.past == old(at.run.past)
    {
      hide Path, Valid;
      connected := false;
      DoLife(EndLower, {});
    }

    /** The run's error becomes the first result, if there is none yet. */
    method Fail(error: Error)
      requires Linked() && at.run.pc == Settling(error)
      modifies this`first, this`trail, this`at
      ensures Linked() && at.run.pc == Failing(error) && at.run.past == old(at.run.past)
      ensures first == if old(first).None? then Some(Err(error)) else old(first)
    {
      hide Path, Valid;
      if first.None? {
        first := Some(Err(error));
      }
      DoLife(EndFirst, {});
    }

    /** The final status. */
    method Announce(error: Error)
      requires Linked() && at.run.pc == Failing(error)
      modifies this`status, this`trail, this`at
      ensures Linked() && at.run.pc == Shutting(error) && at.run.past == old(at.run.past) && status == Status.Failed(error)
    {
      hide Path, Valid;
      status := Status.Failed(error);
      DoLife(EndStatus, {});
    }

    /** The command channel closes; what it still holds is answered. */
    method Close(error: Error)
      requires Linked() && at.run.pc == Shutting(error) && !connected
      modifies this`open, this`queue, this`trail, this`at
      ensures Linked() && at.run.pc == Finished && !open && queue == [] && at.run.past == old(at.run.past)
    {
      hide Path, Valid;
      open := false;
      DoLife(EndClose, {});
      Drain();
      Emptied();
    }

    /**
     * The worker's task, from its spawn to its end. When it finishes nothing is connected, queued or pending,
     * everything it ever accepted is settled, once, and waiting callers have their answer.
     */
    method Run(rounds: seq<Round>) returns (finished: bool)
      requires Linked() && at.run.pc.Spawned? && attempt == 0
      modifies this`open, this`established, this`attempt, this`generation, this`connected, this`status, this`first,
               this`queue, this`pending, this`ping, this`nextPing, this`now, this`drawn, this`trail, this`at
      ensures Linked()
      ensures finished ==> at.run.pc.Finished? && !connected && !open && queue == [] && pending == map[]
      ensures finished ==> first.Some? && status.Failed? && (first.value.Err? ==> first.value.error == status.error)
      ensures finished ==> Ids(Accepted(at.run)) == SettledIds(at.run.box.settled) && DistinctSettled(at.run.box.settled)
      ensures finished ==> PhaseOf(options, EventsOf(at.run.past.log)) == Phase.Closed && Told(at.run, status.error)
    {
      hide Path, Valid, Mirrored, RunOk;
      finished := false;
      var r := Supervise(rounds);
      if r.Running? {
        return;
      }
      var error := Disconnected;
      if r.Over? {
        error := r.error;
      } else {
        Resign();
      }
      GoOffline(error);
      Fail(error);
      Announce(error);
      Close(error);
      finished := true;
      FinishedFacts();
    }

    lemma FinishedFacts()
      requires Linked() && at.run.pc.Finished?
      ensures pending == map[] && first.Some? && status.Failed? && (first.value.Err? ==> first.value.error == status.error)
      ensures Ids(Accepted(at.run)) == SettledIds(at.run.box.settled) && DistinctSettled(at.run.box.settled)
      ensures PhaseOf(options, EventsOf(at.run.past.log)) == Phase.Closed && Told(at.run, status.error)
    {
      hide Path, Told, PhaseOf, EventsOf, Accepted, Ids, SettledIds, DistinctSettled;
      FinishedParts(options, start, trail, at);
      FinishedSettled(at.run);
      FinishedPublished(options, at.run);
    }
  }

  lemma FinishedParts(o: Options, g: nat, hs: seq<Happening>, x: Situation)
    requires Valid(o) && Path(o, g, hs, x)
    ensures PlacesOk(x.run) && ShapeOk(x.run) && LogOk(o, x.run) && WorkerFace.FaceOk(x.run)
  {
    hide Path, PlacesOk, ShapeOk, SessionOk, TracesOk, LogOk, WorkerFace.FaceOk;
    PathOk(o, g, hs, x);
  }

  lemma FinishedSettled(r: Run)
    requires PlacesOk(r) && ShapeOk(r) && r.pc.Finished?
    ensures r.box.pending == map[] && Ids(Accepted(r)) == SettledIds(r.box.settled) && DistinctSettled(r.box.settled)
  {
    assert Accepted(r) == r.box.popped;
  }

  lemma FinishedPublished(o: Options, r: Run)
    requires LogOk(o, r) && WorkerFace.FaceOk(r) && r.pc.Finished?
    ensures r.face.first.Some? && r.face.status.Failed?
    ensures r.face.first.value.Err? ==> r.face.first.value.error == r.face.status.error
    ensures PhaseOf(o, EventsOf(r.past.log)) == Phase.Closed && Told(r, r.face.status.error)
  {
    hide PhaseOf, EventsOf, Told;
  }

  lemma OneLess(pending: map<Id, nat>, id: Id)
    requires id in pending
    ensures |pending - {id}| + 1 == |pending|
  {
    var rest := pending - {id};
    assert pending.Keys == rest.Keys + {id};
    assert |pending| == |pending.Keys| && |rest| == |rest.Keys|;
  }

  /** Between `r` and `s` the requests `removed` were settled, and nothing else happened to the run but at its spot. */
  ghost predicate Sweeping(r: Run, s: Run, removed: set<Id>, gone: set<Id>) {
    && r.box.settled <= s.box.settled
    && Swept(s.box.settled[|r.box.settled|..], removed, gone)
    && s == r.(pc := s.pc, box := s.box)
    && s.box == r.box.(pending := s.box.pending, settled := s.box.settled)
  }

  lemma OneMore(all: set<Id>, todo: set<Id>, id: Id, gone: set<Id>)
    requires todo <= all && id in todo
    ensures (all - todo) * gone + (if id in gone then {id} else {}) == (all - (todo - {id})) * gone
  {
  }

  lemma SweepNothing(r: Run, gone: set<Id>)
    ensures Sweeping(r, r, {}, gone)
  {
  }

  lemma SweepOne(r: Run, s: Run, id: Id, fate: Fate, gone: set<Id>)
    requires s == r.(pc := s.pc, box := s.box) && s.box == r.box.(pending := s.box.pending, settled := s.box.settled)
    requires s.box.settled == r.box.settled + [Settled(id, fate, |r.past.heard|)]
    requires fate == if id in gone then Discarded else Expired
    ensures Sweeping(r, s, {id}, gone)
  {
  }

  lemma SweepJoin(r: Run, s: Run, t: Run, a: set<Id>, b: set<Id>, gone: set<Id>)
    requires Sweeping(r, s, a, gone) && Sweeping(s, t, b, gone)
    ensures Sweeping(r, t, a + b, gone)
  {
    var first, second := s.box.settled[|r.box.settled|..], t.box.settled[|s.box.settled|..];
    assert t.box.settled[|r.box.settled|..] == first + second;
    assert forall x :: x in first + second <==> x in first || x in second;
  }
}
