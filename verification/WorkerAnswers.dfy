/** Response correlation: each request is settled by the first answer to it that is processed while it is pending. */
module WorkerAnswers {
  import opened Types
  import opened Events
  import opened Worker
  import opened WorkerPlaces

  predicate Answers(h: Heard, id: Id) {
    h.HeardReply? && h.id == id
  }

  /** No answer to `id` was processed from position `i` up to position `j`. */
  ghost predicate Silent(heard: seq<Heard>, id: Id, i: nat, j: nat) {
    forall k :: i <= k < j && k < |heard| ==> !Answers(heard[k], id)
  }

  /** `at` is the first answer to `id` since the request became pending. */
  ghost predicate FirstAnswer(p: Past, id: Id, at: nat) {
    && id in p.pendedAt && p.pendedAt[id] <= at < |p.heard|
    && Answers(p.heard[at], id)
    && Silent(p.heard, id, p.pendedAt[id], at)
  }

  ghost predicate AckLogged(p: Past, at: nat) {
    at < |p.heard| && p.heard[at].HeardReply? && p.heard[at].result.Ok? ==>
      exists k :: 0 <= k < |p.log| && p.log[k].event == SendAck(p.heard[at].result.value)
  }

  ghost predicate PendingOk(r: Run) {
    forall id :: id in r.box.pending ==>
      && id in r.past.pendedAt && r.past.pendedAt[id] <= |r.past.heard|
      && Silent(r.past.heard, id, r.past.pendedAt[id], |r.past.heard|)
  }

  ghost predicate SettledOk(p: Past, x: Settled) {
    && x.heardBefore <= |p.heard|
    && if x.fate.Answered? then
         && FirstAnswer(p, x.id, x.fate.at)
         && p.heard[x.fate.at].result == x.fate.result
         && AckLogged(p, x.fate.at)
       else x.id in p.pendedAt ==> Silent(p.heard, x.id, p.pendedAt[x.id], x.heardBefore)
  }

  ghost predicate AllSettledOk(r: Run) {
    forall k :: 0 <= k < |r.box.settled| ==> SettledOk(r.past, r.box.settled[k])
  }

  ghost predicate AnsweringOk(r: Run) {
    r.pc.Session? && r.pc.spot.Answering? ==> FirstAnswer(r.past, r.pc.spot.id, r.pc.spot.at) && AckLogged(r.past, r.pc.spot.at)
  }

  /** Identity of the outstanding or the next ping. */
  function PingIds(r: Run): set<Id> {
    (if r.beat.ping.Some? then {r.beat.ping.value.id} else {}) +
    (if r.pc.Session? && r.pc.spot.Writing? && r.pc.spot.out.Heartbeat? then {r.pc.spot.out.id} else {})
  }

  /** Pings and requests do not share identities. */
  ghost predicate PingsApart(r: Run) {
    PingIds(r) !! Ids(Accepted(r))
  }

  /** Only commands taken from the queue were ever pending. */
  ghost predicate PendedKnown(r: Run) {
    r.past.pendedAt.Keys <= Ids(r.box.popped)
  }

  predicate IsAnswering(pc: Pc) {
    pc.Session? && pc.spot.Answering?
  }

  /** A command in hand that is not being answered has never been pending. */
  ghost predicate HandUnpended(r: Run) {
    Hand(r.pc).Some? && !IsAnswering(r.pc) ==> Hand(r.pc).value !in r.past.pendedAt
  }

  ghost predicate AnswersOk(r: Run) {
    PendingOk(r) && AllSettledOk(r) && AnsweringOk(r) && PendedKnown(r) && HandUnpended(r)
  }

  // ---- Steps ----

  /** History only grows. */
  ghost predicate Grows(p: Past, q: Past) {
    && p.heard <= q.heard && p.log <= q.log && p.wire <= q.wire
    && p.pendedAt.Keys <= q.pendedAt.Keys
    && (forall id :: id in p.pendedAt ==> q.pendedAt[id] == p.pendedAt[id])
  }

  lemma FirstAnswerStable(p: Past, q: Past, id: Id, at: nat)
    requires Grows(p, q) && FirstAnswer(p, id, at)
    ensures FirstAnswer(q, id, at) && q.heard[at] == p.heard[at]
  {
  }

  lemma AckLoggedStable(p: Past, q: Past, at: nat)
    requires Grows(p, q) && at < |p.heard| && AckLogged(p, at)
    ensures AckLogged(q, at)
  {
    if p.heard[at].HeardReply? && p.heard[at].result.Ok? {
      var k :| 0 <= k < |p.log| && p.log[k].event == SendAck(p.heard[at].result.value);
      assert q.log[k] == p.log[k];
    }
  }

  lemma SettledStable(p: Past, q: Past, x: Settled)
    requires Grows(p, q) && SettledOk(p, x)
    requires x.id in q.pendedAt ==> x.id in p.pendedAt
    ensures SettledOk(q, x)
  {
    if x.fate.Answered? {
      FirstAnswerStable(p, q, x.id, x.fate.at);
      AckLoggedStable(p, q, x.fate.at);
    }
  }

  /** What a step that makes move `m` does to the history of answers. */
  ghost predicate AnswerStep(r: Run, m: Move, s: Run) {
    && (s.past.pendedAt == if m.HandPended? then r.past.pendedAt[m.id := |r.past.heard|] else r.past.pendedAt)
    && r.past.log <= s.past.log && r.past.wire <= s.past.wire
    && (s.past.heard == r.past.heard || HeardOne(r, m, s))
    && (IsAnswering(s.pc) <==> m.PendingHanded?)
    && (IsAnswering(r.pc) ==> m.HandSettled?)
    && (m.PendingHanded? ==>
          && s.pc.spot == Answering(m.id, |r.past.heard|)
          && |s.past.heard| == |r.past.heard| + 1 && Answers(s.past.heard[|r.past.heard|], m.id)
          && AckLogged(s.past, |r.past.heard|))
    && (m.PendingSettled? ==> !m.fate.Answered?)
    && (m.HandSettled? ==>
          if IsAnswering(r.pc) then
            r.pc.spot.at < |r.past.heard| && r.past.heard[r.pc.spot.at].HeardReply?
            && m.fate == Answered(r.pc.spot.at, r.past.heard[r.pc.spot.at].result)
          else !m.fate.Answered?)
  }

  /** One more answer or pong: if it answers a pending request, that request is taken out, unless it is the ping's. */
  ghost predicate HeardOne(r: Run, m: Move, s: Run) {
    && |s.past.heard| == |r.past.heard| + 1 && r.past.heard <= s.past.heard
    && !m.HandPended?
    && var h := s.past.heard[|r.past.heard|];
       h.HeardReply? && h.id in r.box.pending ==> m == PendingHanded(h.id) || h.id in PingIds(r)
  }

  lemma AnswerGrows(r: Run, m: Move, s: Run)
    requires AnswerStep(r, m, s) && Moves(r, m, s) && HandUnpended(r)
    requires m.HandPended? ==> !IsAnswering(r.pc)
    ensures Grows(r.past, s.past)
  {
  }

  lemma PendingStays(r: Run, m: Move, s: Run)
    requires PlacesOk(r) && PingsApart(r) && PendingOk(r) && AnswerStep(r, m, s) && Moves(r, m, s)
    ensures PendingOk(s)
  {
    forall id | id in s.box.pending && id in r.box.pending
      ensures id in s.past.pendedAt && s.past.pendedAt[id] == r.past.pendedAt[id]
      ensures Silent(s.past.heard, id, s.past.pendedAt[id], |s.past.heard|)
    {
      if s.past.heard != r.past.heard {
        assert id in Ids(r.box.popped) && id in Ids(Accepted(r));
        forall k | r.past.pendedAt[id] <= k < |s.past.heard| ensures !Answers(s.past.heard[k], id) {
          if k < |r.past.heard| {
            assert s.past.heard[k] == r.past.heard[k];
          }
        }
      }
    }
  }

  lemma SettledStays(r: Run, m: Move, s: Run)
    requires PlacesOk(r) && AnswersOk(r) && AnswerStep(r, m, s) && Moves(r, m, s) && Grows(r.past, s.past)
    ensures AllSettledOk(s)
  {
    forall k | 0 <= k < |r.box.settled| ensures SettledOk(s.past, r.box.settled[k]) {
      var x := r.box.settled[k];
      assert x in r.box.settled;
      SettledStable(r.past, s.past, x);
    }
    if m.HandSettled? || m.PendingSettled? {
      assert SettledOk(s.past, s.box.settled[|r.box.settled|]);
    }
  }

  lemma AnswerStepKeeps(r: Run, m: Move, s: Run)
    requires PlacesOk(r) && PingsApart(r) && AnswersOk(r) && AnswerStep(r, m, s) && Moves(r, m, s)
    requires m.HandPended? ==> !IsAnswering(r.pc)
    ensures AnswersOk(s)
  {
    AnswerGrows(r, m, s);
    PendingStays(r, m, s);
    SettledStays(r, m, s);
    if m.PendingHanded? {
      assert Silent(r.past.heard, m.id, r.past.pendedAt[m.id], |r.past.heard|);
      assert FirstAnswer(s.past, m.id, |r.past.heard|);
    }
    if m.PopHead? {
      PopFacts(r, s);
    }
  }

  lemma RiseAnswers(o: Options, r: Run, env: Env, a: Life)
    requires ShapeOk(r) && LifeEnabled(o, r, env, a) && Rising(a)
    ensures AnswerStep(r, LifeMove(r, a), LifeNext(o, r, env, a))
  {
  }

  lemma StopAnswers(o: Options, r: Run, env: Env, a: Life)
    requires ShapeOk(r) && LifeEnabled(o, r, env, a) && Stopping(a)
    ensures AnswerStep(r, LifeMove(r, a), LifeNext(o, r, env, a))
  {
  }

  lemma FallAnswers(o: Options, r: Run, env: Env, a: Life)
    requires ShapeOk(r) && LifeEnabled(o, r, env, a) && !Rising(a) && !Stopping(a)
    ensures AnswerStep(r, LifeMove(r, a), LifeNext(o, r, env, a))
  {
  }

  lemma LifeAnswers(o: Options, r: Run, env: Env, a: Life)
    requires ShapeOk(r) && LifeEnabled(o, r, env, a)
    ensures AnswerStep(r, LifeMove(r, a), LifeNext(o, r, env, a))
  {
    hide LifeNext, LifeEnabled, Rising, Stopping, AnswerStep, LifeMove;
    if Rising(a) {
      RiseAnswers(o, r, env, a);
    } else if Stopping(a) {
      StopAnswers(o, r, env, a);
    } else {
      FallAnswers(o, r, env, a);
    }
  }

  lemma SessAnswers(o: Options, r: Run, env: Env, a: Sess)
    requires ShapeOk(r) && SessEnabled(o, r, env, a)
    ensures AnswerStep(r, SessMove(o, r, env, a), SessNext(o, r, env, a))
    ensures SessMove(o, r, env, a).HandPended? ==> !IsAnswering(r.pc)
  {
  }

  lemma HearAnswers(o: Options, r: Run, env: Env, a: Talk)
    requires TalkEnabled(o, r, env, a) && a.Hear?
    ensures AnswerStep(r, TalkMove(o, r, env, a), TalkNext(o, r, env, a))
  {
    if a.input.Reply? && a.input.ack.Ok? {
      var s := TalkNext(o, r, env, a);
      if IsAnswering(s.pc) {
        assert s.past.log[|r.past.log|].event == SendAck(a.input.ack.value);
      }
    }
  }

  lemma ServeAnswers(o: Options, r: Run, env: Env, a: Talk)
    requires TalkEnabled(o, r, env, a) && !a.Hear?
    ensures AnswerStep(r, TalkMove(o, r, env, a), TalkNext(o, r, env, a))
  {
  }

  lemma TalkAnswers(o: Options, r: Run, env: Env, a: Talk)
    requires TalkEnabled(o, r, env, a)
    ensures AnswerStep(r, TalkMove(o, r, env, a), TalkNext(o, r, env, a))
  {
    hide TalkNext, TalkEnabled, AnswerStep, TalkMove;
    if a.Hear? {
      HearAnswers(o, r, env, a);
    } else {
      ServeAnswers(o, r, env, a);
    }
  }

  lemma StepAnswers(o: Options, r: Run, env: Env, a: Act)
    requires ShapeOk(r) && Enabled(o, r, env, a)
    ensures AnswerStep(r, MoveOf(o, r, env, a), Next(o, r, env, a))
    ensures MoveOf(o, r, env, a).HandPended? ==> !IsAnswering(r.pc)
  {
    match a
    case OfLife(l) => LifeAnswers(o, r, env, l);
    case OfSess(s) => SessAnswers(o, r, env, s);
    case OfTalk(t) => TalkAnswers(o, r, env, t);
  }

  lemma StepKeepsAnswers(o: Options, r: Run, env: Env, a: Act)
    requires PlacesOk(r) && ShapeOk(r) && PingsApart(r) && AnswersOk(r) && Enabled(o, r, env, a)
    ensures AnswersOk(Next(o, r, env, a))
    ensures Grows(r.past, Next(o, r, env, a).past)
  {
    StepMoves(o, r, env, a);
    StepAnswers(o, r, env, a);
    AnswerGrows(r, MoveOf(o, r, env, a), Next(o, r, env, a));
    AnswerStepKeeps(r, MoveOf(o, r, env, a), Next(o, r, env, a));
  }

  /** A drawn identity is new to the run. */
  ghost predicate FreshFor(r: Run, a: Act) {
    a.OfTalk? && a.talk.Fire? ==> a.talk.id !in Ids(Accepted(r))
  }

  lemma StepKeepsPings(o: Options, r: Run, env: Env, a: Act)
    requires PlacesOk(r) && ShapeOk(r) && PingsApart(r) && Enabled(o, r, env, a) && FreshFor(r, a)
    ensures PingsApart(Next(o, r, env, a))
  {
    StepMoves(o, r, env, a);
    MoveKeepsPlaces(r, MoveOf(o, r, env, a), Next(o, r, env, a));
    StepPings(o, r, env, a);
  }

  lemma LifePings(o: Options, r: Run, env: Env, a: Life)
    requires LifeEnabled(o, r, env, a)
    ensures PingIds(LifeNext(o, r, env, a)) <= PingIds(r)
  {
  }

  lemma SessPings(o: Options, r: Run, env: Env, a: Sess)
    requires SessEnabled(o, r, env, a)
    ensures PingIds(SessNext(o, r, env, a)) <= PingIds(r)
  {
  }

  lemma TalkPings(o: Options, r: Run, env: Env, a: Talk)
    requires TalkEnabled(o, r, env, a)
    ensures PingIds(TalkNext(o, r, env, a)) <= PingIds(r) + (if a.Fire? then {a.id} else {})
  {
  }

  lemma StepPings(o: Options, r: Run, env: Env, a: Act)
    requires Enabled(o, r, env, a)
    ensures PingIds(Next(o, r, env, a)) <= PingIds(r) + (if a.OfTalk? && a.talk.Fire? then {a.talk.id} else {})
  {
    match a
    case OfLife(l) => LifePings(o, r, env, l);
    case OfSess(s) => SessPings(o, r, env, s);
    case OfTalk(t) => TalkPings(o, r, env, t);
  }
}
