/** The SendAck events of a run are its accepted answers, one for one and in order. */
module WorkerReplies {
  import opened Types
  import opened Worker

  /** The results reported by SendAck events. */
  function SendAcks(log: seq<Logged>): seq<SendResult> {
    if log == [] then []
    else
      var e, before := log[|log| - 1].event, SendAcks(log[..|log| - 1]);
      if e.SendAck? then before + [e.ack] else before
  }

  /** The results that requests were settled with. */
  function OkAnswers(settled: seq<Settled>): seq<SendResult> {
    if settled == [] then []
    else
      var f, before := settled[|settled| - 1].fate, OkAnswers(settled[..|settled| - 1]);
      if f.Answered? && f.result.Ok? then before + [f.result.value] else before
  }

  /** The result about to be handed to its caller. */
  function Delivering(r: Run): seq<SendResult> {
    if r.pc.Session? && r.pc.spot.Answering? && r.pc.spot.at < |r.past.heard| && r.past.heard[r.pc.spot.at].HeardReply?
       && r.past.heard[r.pc.spot.at].result.Ok?
    then [r.past.heard[r.pc.spot.at].result.value] else []
  }

  ghost predicate RepliesOk(r: Run) {
    SendAcks(r.past.log) == OkAnswers(r.box.settled) + Delivering(r)
  }

  // ---- Steps ----

  function Acknowledged(r: Run, s: Run): seq<SendResult> {
    if |s.past.log| > |r.past.log| && s.past.log[|r.past.log|].event.SendAck? then [s.past.log[|r.past.log|].event.ack] else []
  }

  function Answering(r: Run, s: Run): seq<SendResult> {
    if |s.box.settled| > |r.box.settled| && s.box.settled[|r.box.settled|].fate.Answered?
       && s.box.settled[|r.box.settled|].fate.result.Ok?
    then [s.box.settled[|r.box.settled|].fate.result.value] else []
  }

  /** At most one event and one settlement; an acknowledged result is delivered before anything else is. */
  ghost predicate ReplyStep(r: Run, s: Run) {
    && (s.past.log == r.past.log || (|s.past.log| == |r.past.log| + 1 && r.past.log <= s.past.log))
    && (s.box.settled == r.box.settled || (|s.box.settled| == |r.box.settled| + 1 && r.box.settled <= s.box.settled))
    && Answering(r, s) + Delivering(s) == Delivering(r) + Acknowledged(r, s)
  }

  lemma StepSendAcks(r: Run, s: Run)
    requires ReplyStep(r, s)
    ensures SendAcks(s.past.log) == SendAcks(r.past.log) + Acknowledged(r, s)
  {
    if s.past.log != r.past.log {
      assert s.past.log[..|s.past.log| - 1] == r.past.log;
    }
  }

  lemma StepOkAnswers(r: Run, s: Run)
    requires ReplyStep(r, s)
    ensures OkAnswers(s.box.settled) == OkAnswers(r.box.settled) + Answering(r, s)
  {
    if s.box.settled != r.box.settled {
      assert s.box.settled[..|s.box.settled| - 1] == r.box.settled;
    }
  }

  lemma ReplyStepKeeps(r: Run, s: Run)
    requires RepliesOk(r) && ReplyStep(r, s)
    ensures RepliesOk(s)
  {
    StepSendAcks(r, s);
    StepOkAnswers(r, s);
    hide SendAcks, OkAnswers, Delivering, Acknowledged, Answering;
    Regroup(OkAnswers(r.box.settled), Answering(r, s), Delivering(s));
    Regroup(OkAnswers(r.box.settled), Delivering(r), Acknowledged(r, s));
  }

  lemma Regroup(a: seq<SendResult>, b: seq<SendResult>, c: seq<SendResult>)
    ensures a + (b + c) == a + b + c
  {
  }

  lemma RiseReplies(o: Options, r: Run, env: Env, a: Life)
    requires LifeEnabled(o, r, env, a) && Rising(a)
    ensures ReplyStep(r, LifeNext(o, r, env, a))
  {
  }

  lemma FallReplies(o: Options, r: Run, env: Env, a: Life)
    requires LifeEnabled(o, r, env, a) && !Rising(a)
    ensures ReplyStep(r, LifeNext(o, r, env, a))
  {
  }

  lemma SessReplies(o: Options, r: Run, env: Env, a: Sess)
    requires SessEnabled(o, r, env, a)
    ensures ReplyStep(r, SessNext(o, r, env, a))
  {
  }

  lemma ReplyReplies(o: Options, r: Run, env: Env, a: Talk)
    requires TalkEnabled(o, r, env, a) && a.Hear? && a.input.Reply?
    ensures ReplyStep(r, TalkNext(o, r, env, a))
  {
  }

  lemma NoteReplies(o: Options, r: Run, env: Env, a: Talk)
    requires TalkEnabled(o, r, env, a) && a.Hear? && !a.input.Reply?
    ensures ReplyStep(r, TalkNext(o, r, env, a))
  {
  }

  lemma HearReplies(o: Options, r: Run, env: Env, a: Talk)
    requires TalkEnabled(o, r, env, a) && a.Hear?
    ensures ReplyStep(r, TalkNext(o, r, env, a))
  {
    hide ReplyStep, TalkNext, TalkEnabled;
    if a.input.Reply? {
      ReplyReplies(o, r, env, a);
    } else {
      NoteReplies(o, r, env, a);
    }
  }

  lemma ServeReplies(o: Options, r: Run, env: Env, a: Talk)
    requires TalkEnabled(o, r, env, a) && !a.Hear?
    ensures ReplyStep(r, TalkNext(o, r, env, a))
  {
  }

  lemma StepKeepsReplies(o: Options, r: Run, env: Env, a: Act)
    requires RepliesOk(r) && Enabled(o, r, env, a)
    ensures RepliesOk(Next(o, r, env, a))
  {
    hide RepliesOk, ReplyStep, LifeNext, LifeEnabled, SessNext, SessEnabled, TalkNext, TalkEnabled, Rising;
    match a {
      case OfLife(l) =>
        if Rising(l) {
          RiseReplies(o, r, env, l);
        } else {
          FallReplies(o, r, env, l);
        }
      case OfSess(s) => SessReplies(o, r, env, s);
      case OfTalk(t) =>
        if t.Hear? {
          HearReplies(o, r, env, t);
        } else {
          ServeReplies(o, r, env, t);
        }
    }
    ReplyStepKeeps(r, Next(o, r, env, a));
  }
}
