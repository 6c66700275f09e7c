/** Heartbeats on the wire: on one socket no ping is written before the one before it was answered. */
module WorkerPings {
  import opened Types
  import opened Worker
  import opened WorkerAcks

  /** A pong, or the reply with the ping's own identity, processed in the same session. */
  predicate AnswersPing(h: Heard, socket: nat, id: Id) {
    h.socket == socket && (h.HeardPong? || h.id == id)
  }

  /** The ping written at `i` was answered by one of the first `upto` answers processed. */
  ghost predicate PingAnswered(p: Past, i: nat, upto: nat) {
    && i < |p.wire| && p.wire[i].out.Heartbeat? && upto <= |p.heard|
    && exists k :: p.wire[i].heardBefore <= k < upto && AnswersPing(p.heard[k], p.wire[i].socket, p.wire[i].out.id)
  }

  ghost predicate WireDated(r: Run) {
    forall i :: 0 <= i < |r.past.wire| ==>
      && r.past.wire[i].heardBefore <= |r.past.heard|
      && r.past.wire[i].socket <= r.socket
      && (BeforeSession(r.pc) ==> r.past.wire[i].socket < r.socket)
  }

  /** Two pings on one socket: the earlier one had been answered when the later one was written. */
  ghost predicate PingsSpaced(p: Past) {
    forall i, j :: 0 <= i < j < |p.wire| && p.wire[i].out.Heartbeat? && p.wire[j].out.Heartbeat? && p.wire[i].socket == p.wire[j].socket ==>
      PingAnswered(p, i, p.wire[j].heardBefore)
  }

  /** In a session every ping of its socket has been answered, but for the outstanding one. */
  ghost predicate PingsSettled(r: Run) {
    r.pc.Session? ==>
      forall i :: 0 <= i < |r.past.wire| && r.past.wire[i].out.Heartbeat? && r.past.wire[i].socket == r.socket ==>
        || PingAnswered(r.past, i, |r.past.heard|)
        || (r.beat.ping.Some? && r.beat.ping.value.id == r.past.wire[i].out.id)
  }

  ghost predicate PingTraceOk(r: Run) {
    WireDated(r) && PingsSpaced(r.past) && PingsSettled(r)
  }

  // ---- Steps ----

  /** What a step adds to the wire. */
  ghost predicate WiresOne(r: Run, s: Run) {
    || s.past.wire == r.past.wire
    || (|s.past.wire| == |r.past.wire| + 1 && r.past.wire <= s.past.wire && s.past.heard == r.past.heard && s.socket == r.socket
        && var w := s.past.wire[|r.past.wire|];
           && w.socket == r.socket && w.heardBefore == |r.past.heard| && r.pc.Session?
           && (!w.out.Heartbeat? ==> s.beat.ping == r.beat.ping)
           && (w.out.Heartbeat? ==> r.pc == Session(Writing(w.out)) && (s.pc.Session? ==> s.beat.ping.Some? && s.beat.ping.value.id == w.out.id)))
  }

  /** The outstanding ping is forgotten only for an answer. */
  ghost predicate ForgetsAnswered(r: Run, s: Run) {
    r.pc.Session? && s.pc.Session? && r.beat.ping.Some? && s.beat.ping != r.beat.ping && s.past.wire == r.past.wire ==>
      |s.past.heard| == |r.past.heard| + 1 && AnswersPing(s.past.heard[|r.past.heard|], r.socket, r.beat.ping.value.id)
  }

  ghost predicate PingStep(r: Run, s: Run) {
    && WiresOne(r, s) && ForgetsAnswered(r, s)
    && r.past.heard <= s.past.heard && s.socket >= r.socket
    && (BeforeSession(s.pc) ==> s.past.wire == r.past.wire && (s.socket > r.socket || BeforeSession(r.pc)))
    && (s.pc.Session? ==> s.socket == r.socket && (r.pc.Session? || (r.pc.Greeted? && s.past.wire == r.past.wire)))
  }

  lemma AnsweredStays(p: Past, q: Past, i: nat, upto: nat, later: nat)
    requires PingAnswered(p, i, upto) && p.wire <= q.wire && p.heard <= q.heard && upto <= later <= |q.heard|
    ensures PingAnswered(q, i, later)
  {
    var k :| p.wire[i].heardBefore <= k < upto && AnswersPing(p.heard[k], p.wire[i].socket, p.wire[i].out.id);
    assert AnswersPing(q.heard[k], q.wire[i].socket, q.wire[i].out.id);
  }

  lemma StepKeepsSettled(r: Run, s: Run)
    requires PingTraceOk(r) && PingStep(r, s) && BeatFree(r)
    ensures PingsSettled(s)
  {
    hide PingAnswered, PingsSpaced;
    if s.pc.Session? {
      forall i | 0 <= i < |s.past.wire| && s.past.wire[i].out.Heartbeat? && s.past.wire[i].socket == s.socket
        ensures PingAnswered(s.past, i, |s.past.heard|) || (s.beat.ping.Some? && s.beat.ping.value.id == s.past.wire[i].out.id)
      {
        if i < |r.past.wire| {
          if PingAnswered(r.past, i, |r.past.heard|) {
            AnsweredStays(r.past, s.past, i, |r.past.heard|, |s.past.heard|);
          } else if s.beat.ping != r.beat.ping {
            NowAnswered(r, s, i);
          }
        }
      }
    }
  }

  /** While a ping is being written none is outstanding. */
  ghost predicate BeatFree(r: Run) {
    r.pc.Session? && r.pc.spot.Writing? && r.pc.spot.out.Heartbeat? ==> r.beat.ping.None?
  }

  lemma NowAnswered(r: Run, s: Run, i: nat)
    requires PingStep(r, s) && BeatFree(r) && WireDated(r) && r.pc.Session? && s.pc.Session?
    requires i < |r.past.wire| && r.past.wire[i].out.Heartbeat? && r.past.wire[i].socket == r.socket
    requires r.beat.ping.Some? && r.beat.ping.value.id == r.past.wire[i].out.id && s.beat.ping != r.beat.ping
    requires s.past.wire == r.past.wire
    ensures PingAnswered(s.past, i, |s.past.heard|)
  {
    assert AnswersPing(s.past.heard[|r.past.heard|], s.past.wire[i].socket, s.past.wire[i].out.id);
  }

  lemma StepKeepsSpaced(r: Run, s: Run)
    requires PingTraceOk(r) && PingStep(r, s) && BeatFree(r)
    ensures PingsSpaced(s.past)
  {
    hide PingAnswered;
    forall i, j | 0 <= i < j < |s.past.wire| && s.past.wire[i].out.Heartbeat? && s.past.wire[j].out.Heartbeat?
                  && s.past.wire[i].socket == s.past.wire[j].socket
      ensures PingAnswered(s.past, i, s.past.wire[j].heardBefore)
    {
      var upto := s.past.wire[j].heardBefore;
      if j < |r.past.wire| {
        AnsweredStays(r.past, s.past, i, upto, upto);
      } else {
        assert PingAnswered(r.past, i, |r.past.heard|);
        AnsweredStays(r.past, s.past, i, |r.past.heard|, upto);
      }
    }
  }

  lemma PingStepKeeps(r: Run, s: Run)
    requires PingTraceOk(r) && PingStep(r, s) && BeatFree(r)
    ensures PingTraceOk(s)
  {
    hide PingAnswered;
    StepKeepsSettled(r, s);
    StepKeepsSpaced(r, s);
  }

  lemma RisePings(o: Options, r: Run, env: Env, a: Life)
    requires LifeEnabled(o, r, env, a) && Rising(a) && env.generation == r.socket
    ensures PingStep(r, LifeNext(o, r, env, a))
  {
  }

  lemma FallPings(o: Options, r: Run, env: Env, a: Life)
    requires LifeEnabled(o, r, env, a) && !Rising(a) && env.generation == r.socket
    ensures PingStep(r, LifeNext(o, r, env, a))
  {
  }

  lemma SessPingTrace(o: Options, r: Run, env: Env, a: Sess)
    requires SessEnabled(o, r, env, a)
    ensures PingStep(r, SessNext(o, r, env, a))
  {
  }

  lemma HearPings(o: Options, r: Run, env: Env, a: Talk)
    requires TalkEnabled(o, r, env, a) && a.Hear?
    ensures PingStep(r, TalkNext(o, r, env, a))
  {
  }

  lemma ServePings(o: Options, r: Run, env: Env, a: Talk)
    requires TalkEnabled(o, r, env, a) && !a.Hear? && BeatFree(r)
    ensures PingStep(r, TalkNext(o, r, env, a))
  {
  }

  lemma StepKeepsPingTrace(o: Options, r: Run, env: Env, a: Act)
    requires PingTraceOk(r) && BeatFree(r) && Enabled(o, r, env, a) && env.generation == r.socket
    ensures PingTraceOk(Next(o, r, env, a))
  {
    hide PingTraceOk, PingStep, LifeNext, LifeEnabled, SessNext, SessEnabled, TalkNext, TalkEnabled, Rising;
    match a {
      case OfLife(l) =>
        if Rising(l) {
          RisePings(o, r, env, l);
        } else {
          FallPings(o, r, env, l);
        }
      case OfSess(s) => SessPingTrace(o, r, env, s);
      case OfTalk(t) =>
        if t.Hear? {
          HearPings(o, r, env, t);
        } else {
          ServePings(o, r, env, t);
        }
    }
    PingStepKeeps(r, Next(o, r, env, a));
  }
}
