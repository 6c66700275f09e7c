/** Deadlines and the heartbeat: what holds at a wait point, and what a heartbeat timeout means. */
module WorkerBeat {
  import opened Types
  import opened Worker
  import opened WorkerPlaces

  /** The sweep: when it ends nothing pending is expired at its clock reading, and the timer is the next deadline. */
  ghost predicate SweepOk(r: Run, now: nat) {
    r.pc.Session? ==>
      && (r.pc.spot.Retaining? || r.pc.spot.Expiring? || r.pc.spot.Waiting? ==> r.pc.spot.now <= now)
      && (r.pc.spot.Expiring? ==>
            forall id :: id in r.box.pending && r.box.pending[id] <= r.pc.spot.now ==> id in r.pc.spot.todo)
      && (r.pc.spot.Waiting? ==>
            && (forall id :: id in r.box.pending ==> r.pc.spot.now < r.box.pending[id])
            && Earliest(r.pc.spot.timer, r.box.pending, HeartbeatDue(r.beat.ping, r.beat.next)))
  }

  /** Every pending request of a session is on its socket's wire, but for the one being written. */
  ghost predicate PendingWritten(r: Run) {
    r.pc.Session? ==> forall id :: id in r.box.pending ==> OnWire(r, id) || BeingWritten(r.pc, id)
  }

  ghost predicate OnWire(r: Run, id: Id) {
    exists k :: 0 <= k < |r.past.wire| && WritesSend(r.past.wire[k], r.socket, id)
  }

  predicate WritesSend(w: Written, socket: nat, id: Id) {
    w.socket == socket && w.out.Send? && w.out.cmd.id == id
  }

  predicate BeingWritten(pc: Pc, id: Id) {
    pc.Session? && pc.spot.Writing? && pc.spot.out.Send? && pc.spot.out.cmd.id == id
  }

  /** Neither a reply to ping `id` nor a pong was processed from position `i` on. */
  ghost predicate Unanswered(heard: seq<Heard>, id: Id, i: nat) {
    forall k :: i <= k < |heard| ==> heard[k].HeardReply? && heard[k].id != id
  }

  /** The heartbeat deadline passed without an answer. */
  ghost predicate Overdue(r: Run, now: nat) {
    && r.beat.ping.Some? && r.beat.ping.value.deadline <= now
    && Unanswered(r.past.heard, r.beat.ping.value.id, r.beat.pingedAt)
    && OnWireBeat(r, r.beat.ping.value)
  }

  predicate WritesBeat(w: Written, socket: nat, p: Ping) {
    w.socket == socket && w.out == Heartbeat(p.id, p.deadline)
  }

  ghost predicate OnWireBeat(r: Run, p: Ping) {
    exists k :: 0 <= k < |r.past.wire| && WritesBeat(r.past.wire[k], r.socket, p)
  }

  /** The error that ended the session, where the run still remembers it. */
  function LossOf(pc: Pc): Option<Error> {
    match pc
    case Leaving(Lost(e)) => Some(e)
    case Lowering(e) => Some(e)
    case Clearing(e) => Some(e)
    case Draining(SessionOver(e), _) => Some(e)
    case Reporting(e) => Some(e)
    case Complaining(e) => Some(e)
    case _ => None
  }

  ghost predicate BeatOk(r: Run, now: nat) {
    && (r.pc.Session? && r.beat.ping.Some? ==>
          && r.beat.pingedAt <= |r.past.heard|
          && Unanswered(r.past.heard, r.beat.ping.value.id, r.beat.pingedAt)
          && OnWireBeat(r, r.beat.ping.value))
    && (r.pc.Session? && r.pc.spot.Writing? && r.pc.spot.out.Heartbeat? ==> r.beat.ping.None?)
    && (LossOf(r.pc) == Some(Timeout) ==> Overdue(r, now))
  }

  lemma RiseKeepsSweep(o: Options, r: Run, env: Env, a: Life)
    requires LifeEnabled(o, r, env, a) && Rising(a)
    ensures SweepOk(LifeNext(o, r, env, a), env.now)
  {
  }

  lemma StopKeepsSweep(o: Options, r: Run, env: Env, a: Life)
    requires LifeEnabled(o, r, env, a) && Stopping(a)
    ensures SweepOk(LifeNext(o, r, env, a), env.now)
  {
  }

  lemma FallKeepsSweep(o: Options, r: Run, env: Env, a: Life)
    requires LifeEnabled(o, r, env, a) && !Rising(a) && !Stopping(a)
    ensures SweepOk(LifeNext(o, r, env, a), env.now)
  {
  }

  lemma LifeKeepsSweep(o: Options, r: Run, env: Env, a: Life)
    requires LifeEnabled(o, r, env, a)
    ensures SweepOk(LifeNext(o, r, env, a), env.now)
  {
    hide LifeNext, LifeEnabled, Rising, Stopping, SweepOk;
    if Rising(a) {
      RiseKeepsSweep(o, r, env, a);
    } else if Stopping(a) {
      StopKeepsSweep(o, r, env, a);
    } else {
      FallKeepsSweep(o, r, env, a);
    }
  }

  lemma SessKeepsSweep(o: Options, r: Run, env: Env, a: Sess)
    requires SweepOk(r, env.now) && SessEnabled(o, r, env, a)
    ensures SweepOk(SessNext(o, r, env, a), env.now)
  {
  }

  lemma TalkKeepsSweep(o: Options, r: Run, env: Env, a: Talk)
    requires TalkEnabled(o, r, env, a)
    ensures SweepOk(TalkNext(o, r, env, a), env.now)
  {
  }

  lemma StepKeepsSweep(o: Options, r: Run, env: Env, a: Act)
    requires SweepOk(r, env.now) && Enabled(o, r, env, a)
    ensures SweepOk(Next(o, r, env, a), env.now)
  {
    match a
    case OfLife(l) => LifeKeepsSweep(o, r, env, l);
    case OfSess(s) => SessKeepsSweep(o, r, env, s);
    case OfTalk(t) => TalkKeepsSweep(o, r, env, t);
  }

  lemma RiseKeepsBeat(o: Options, r: Run, env: Env, a: Life)
    requires BeatOk(r, env.now) && LifeEnabled(o, r, env, a) && Rising(a)
    ensures BeatOk(LifeNext(o, r, env, a), env.now)
  {
  }

  lemma StopKeepsBeat(o: Options, r: Run, env: Env, a: Life)
    requires BeatOk(r, env.now) && LifeEnabled(o, r, env, a) && Stopping(a)
    ensures BeatOk(LifeNext(o, r, env, a), env.now)
  {
  }

  lemma FallKeepsBeat(o: Options, r: Run, env: Env, a: Life)
    requires BeatOk(r, env.now) && LifeEnabled(o, r, env, a) && !Rising(a) && !Stopping(a)
    ensures BeatOk(LifeNext(o, r, env, a), env.now)
  {
  }

  lemma LifeKeepsBeat(o: Options, r: Run, env: Env, a: Life)
    requires BeatOk(r, env.now) && LifeEnabled(o, r, env, a)
    ensures BeatOk(LifeNext(o, r, env, a), env.now)
  {
    hide LifeNext, LifeEnabled, Rising, Stopping, BeatOk;
    if Rising(a) {
      RiseKeepsBeat(o, r, env, a);
    } else if Stopping(a) {
      StopKeepsBeat(o, r, env, a);
    } else {
      FallKeepsBeat(o, r, env, a);
    }
  }

  lemma SessKeepsBeat(o: Options, r: Run, env: Env, a: Sess)
    requires BeatOk(r, env.now) && SessEnabled(o, r, env, a)
    ensures BeatOk(SessNext(o, r, env, a), env.now)
  {
  }

  lemma TalkKeepsBeat(o: Options, r: Run, env: Env, a: Talk)
    requires BeatOk(r, env.now) && TalkEnabled(o, r, env, a)
    ensures BeatOk(TalkNext(o, r, env, a), env.now)
  {
    var s := TalkNext(o, r, env, a);
    if a.WriteOk? && r.pc.spot.out.Heartbeat? {
      assert WritesBeat(s.past.wire[|r.past.wire|], r.socket, Ping(r.pc.spot.out.id, r.pc.spot.out.deadline));
    } else if r.beat.ping.Some? {
      BeatStays(r, s, r.beat.ping.value);
    }
  }

  lemma BeatStays(r: Run, s: Run, p: Ping)
    requires OnWireBeat(r, p) && s.socket == r.socket && r.past.wire <= s.past.wire
    ensures OnWireBeat(s, p)
  {
    var k :| 0 <= k < |r.past.wire| && WritesBeat(r.past.wire[k], r.socket, p);
    assert WritesBeat(s.past.wire[k], s.socket, p);
  }

  lemma StepKeepsBeat(o: Options, r: Run, env: Env, a: Act)
    requires BeatOk(r, env.now) && Enabled(o, r, env, a)
    ensures BeatOk(Next(o, r, env, a), env.now)
  {
    match a
    case OfLife(l) => LifeKeepsBeat(o, r, env, l);
    case OfSess(s) => SessKeepsBeat(o, r, env, s);
    case OfTalk(t) => TalkKeepsBeat(o, r, env, t);
  }

  lemma LifeKeepsWritten(o: Options, r: Run, env: Env, a: Life)
    requires ShapeOk(r) && PendingWritten(r) && LifeEnabled(o, r, env, a)
    ensures PendingWritten(LifeNext(o, r, env, a))
  {
  }

  lemma SessKeepsWritten(o: Options, r: Run, env: Env, a: Sess)
    requires PendingWritten(r) && SessEnabled(o, r, env, a)
    ensures PendingWritten(SessNext(o, r, env, a))
  {
  }

  lemma HearKeepsWritten(o: Options, r: Run, env: Env, a: Talk)
    requires PendingWritten(r) && TalkEnabled(o, r, env, a) && a.Hear?
    ensures PendingWritten(TalkNext(o, r, env, a))
  {
    var s := TalkNext(o, r, env, a);
    HearLosesOnly(o, r, env, a);
    hide TalkNext;
    assert forall id :: OnWire(r, id) ==> OnWire(s, id);
  }

  /** Hearing writes nothing and makes nothing pending. */
  lemma HearLosesOnly(o: Options, r: Run, env: Env, a: Talk)
    requires TalkEnabled(o, r, env, a) && a.Hear?
    ensures var s := TalkNext(o, r, env, a);
            s.past.wire == r.past.wire && s.socket == r.socket && s.box.pending.Keys <= r.box.pending.Keys && r.pc.Session? && r.pc.spot.Waiting?
  {
  }

  lemma WriteKeepsWritten(o: Options, r: Run, env: Env, a: Talk)
    requires PendingWritten(r) && TalkEnabled(o, r, env, a) && a.WriteOk?
    ensures PendingWritten(TalkNext(o, r, env, a))
  {
    var s := TalkNext(o, r, env, a);
    if r.pc.spot.out.Send? {
      assert WritesSend(s.past.wire[|r.past.wire|], s.socket, r.pc.spot.out.cmd.id);
    }
    forall id | OnWire(r, id) ensures OnWire(s, id) {
      var k :| 0 <= k < |r.past.wire| && WritesSend(r.past.wire[k], r.socket, id);
      assert WritesSend(s.past.wire[k], s.socket, id);
    }
  }

  lemma TalkKeepsWritten(o: Options, r: Run, env: Env, a: Talk)
    requires PendingWritten(r) && TalkEnabled(o, r, env, a)
    ensures PendingWritten(TalkNext(o, r, env, a))
  {
    hide TalkNext, TalkEnabled, PendingWritten;
    if a.Hear? {
      HearKeepsWritten(o, r, env, a);
    } else if a.WriteOk? {
      WriteKeepsWritten(o, r, env, a);
    } else {
      RestKeepsWritten(o, r, env, a);
    }
  }

  lemma RestKeepsWritten(o: Options, r: Run, env: Env, a: Talk)
    requires PendingWritten(r) && TalkEnabled(o, r, env, a) && !a.Hear? && !a.WriteOk?
    ensures PendingWritten(TalkNext(o, r, env, a))
  {
  }

  lemma StepKeepsWritten(o: Options, r: Run, env: Env, a: Act)
    requires ShapeOk(r) && PendingWritten(r) && Enabled(o, r, env, a)
    ensures PendingWritten(Next(o, r, env, a))
  {
    match a
    case OfLife(l) => LifeKeepsWritten(o, r, env, l);
    case OfSess(s) => SessKeepsWritten(o, r, env, s);
    case OfTalk(t) => TalkKeepsWritten(o, r, env, t);
  }
}
