/** Every command the worker accepts is in exactly one place, and is settled exactly once. */
module WorkerPlaces {
  import opened Types
  import opened Worker

  ghost function Ids(cmds: seq<Command>): set<Id> {
    set c | c in cmds :: c.id
  }

  ghost function SettledIds(ss: seq<Settled>): set<Id> {
    set x | x in ss :: x.id
  }

  /** Everything ever enqueued to the run, in order. */
  function Accepted(r: Run): seq<Command> {
    r.box.popped + r.box.queue
  }

  /** The command or pending entry in the worker's hands. */
  function Hand(pc: Pc): Option<Id> {
    match pc
    case Session(Took(cmd)) => Some(cmd.id)
    case Session(Open(cmd)) => Some(cmd.id)
    case Session(Current(cmd)) => Some(cmd.id)
    case Session(Answering(id, _)) => Some(id)
    case Draining(_, Some(cmd)) => Some(cmd.id)
    case _ => None
  }

  function Held(pc: Pc): set<Id> {
    if Hand(pc).Some? then {Hand(pc).value} else {}
  }

  /** What is still inside the worker. */
  ghost function Inside(r: Run): set<Id> {
    Ids(r.box.queue) + Held(r.pc) + r.box.pending.Keys
  }

  ghost predicate Distinct(cmds: seq<Command>) {
    forall i, j :: 0 <= i < j < |cmds| ==> cmds[i].id != cmds[j].id
  }

  ghost predicate DistinctSettled(ss: seq<Settled>) {
    forall i, j :: 0 <= i < j < |ss| ==> ss[i].id != ss[j].id
  }

  predicate MayHavePending(pc: Pc) {
    pc.Session? || pc.Leaving?
  }

  predicate IsClosed(pc: Pc) {
    pc.Finished? || (pc.Draining? && pc.why.RunOver?)
  }

  /** The command or entry in hand, as the step that needs it sees it. */
  ghost predicate HandOk(r: Run) {
    match r.pc
    case Session(Retaining(_, todo)) => todo <= r.box.pending.Keys
    case Session(Expiring(_, todo)) => todo <= r.box.pending.Keys
    case Session(Took(cmd)) => InHand(r, cmd)
    case Session(Open(cmd)) => InHand(r, cmd)
    case Session(Current(cmd)) => InHand(r, cmd)
    case Session(Writing(Send(cmd))) => InHand(r, cmd) && cmd.id in r.box.pending && r.box.pending[cmd.id] == cmd.deadline
    case Draining(_, Some(cmd)) => InHand(r, cmd)
    case _ => true
  }

  /** The worker handles one command at a time: the one popped last. */
  ghost predicate InHand(r: Run, cmd: Command) {
    r.box.popped != [] && r.box.popped[|r.box.popped| - 1] == cmd
  }

  /** Accepted commands are distinct; each popped one is in hand, pending or settled, exactly one of these, once. */
  ghost predicate PlacesOk(r: Run) {
    && Distinct(Accepted(r))
    && Ids(r.box.popped) == Held(r.pc) + r.box.pending.Keys + SettledIds(r.box.settled)
    && Held(r.pc) !! r.box.pending.Keys
    && (Held(r.pc) + r.box.pending.Keys) !! SettledIds(r.box.settled)
    && DistinctSettled(r.box.settled)
  }

  /** What each position of the worker says about its containers. */
  ghost predicate ShapeOk(r: Run) {
    && (!MayHavePending(r.pc) ==> r.box.pending == map[])
    && (r.box.closed <==> IsClosed(r.pc))
    && (r.pc.Finished? ==> r.box.queue == [])
    && HandOk(r)
  }

  /** The ways a command moves between the queue, the worker's hand, the pending map and the outside. */
  datatype Move =
    | Stay
    | PopHead
    | HandSettled(fate: Fate)
    | PendingSettled(id: Id, fate: Fate)
    | HandPended(id: Id, deadline: nat)
    | PendingHanded(id: Id)

  ghost predicate Moves(r: Run, m: Move, s: Run) {
    && (m.PopHead? || (s.box.queue == r.box.queue && s.box.popped == r.box.popped))
    && (m.HandSettled? || m.PendingSettled? || s.box.settled == r.box.settled)
    && (m.PendingSettled? || m.HandPended? || m.PendingHanded? || s.box.pending == r.box.pending)
    && match m
       case Stay => Hand(s.pc) == Hand(r.pc)
       case PopHead =>
         && r.box.queue != [] && s.box.queue == r.box.queue[1..] && s.box.popped == r.box.popped + [r.box.queue[0]]
         && Hand(r.pc) == None && Hand(s.pc) == Some(r.box.queue[0].id)
       case HandSettled(fate) =>
         && Hand(r.pc).Some? && Hand(s.pc) == None
         && s.box.settled == r.box.settled + [Settled(Hand(r.pc).value, fate, |r.past.heard|)]
       case PendingSettled(id, fate) =>
         && id in r.box.pending && s.box.pending == r.box.pending - {id} && Hand(s.pc) == Hand(r.pc)
         && s.box.settled == r.box.settled + [Settled(id, fate, |r.past.heard|)]
       case HandPended(id, deadline) =>
         Hand(r.pc) == Some(id) && Hand(s.pc) == None && s.box.pending == r.box.pending[id := deadline]
       case PendingHanded(id) =>
         Hand(r.pc) == None && Hand(s.pc) == Some(id) && id in r.box.pending && s.box.pending == r.box.pending - {id}
  }

  function LifeMove(r: Run, a: Life): Move {
    match a
    case DropOne(id) => PendingSettled(id, Dropped)
    case TakeStale => PopHead
    case SettleStale =>
      HandSettled(if r.pc.Draining? && r.pc.why.RunOver? then RunEnded(r.pc.why.error) else Cleared)
    case _ => Stay
  }

  ghost function SessMove(o: Options, r: Run, env: Env, a: Sess): Move
    requires SessEnabled(o, r, env, a)
  {
    var s := r.pc.spot;
    match a
    case KeepOne(id) => if id in env.closed then PendingSettled(id, Discarded) else Stay
    case ExpireOne(id) => PendingSettled(id, Expired)
    case Take => PopHead
    case CheckOpen => if s.cmd.id in env.closed then HandSettled(Discarded) else Stay
    case CheckGeneration => if s.cmd.generation != env.generation then HandSettled(Stale) else Stay
    case CheckDeadline =>
      if s.cmd.deadline <= env.now then HandSettled(Late) else HandPended(s.cmd.id, s.cmd.deadline)
    case _ => Stay
  }

  ghost function TalkMove(o: Options, r: Run, env: Env, a: Talk): Move
    requires TalkEnabled(o, r, env, a)
  {
    match a
    case Hear(Reply(id, _, _), _) =>
      if !(r.beat.ping.Some? && r.beat.ping.value.id == id) && id in r.box.pending then PendingHanded(id) else Stay
    case Answer => HandSettled(Answered(r.pc.spot.at, r.past.heard[r.pc.spot.at].result))
    case _ => Stay
  }

  /** The move a step makes. */
  ghost function MoveOf(o: Options, r: Run, env: Env, a: Act): Move
    requires Enabled(o, r, env, a)
  {
    match a
    case OfLife(l) => LifeMove(r, l)
    case OfSess(s) => SessMove(o, r, env, s)
    case OfTalk(t) => TalkMove(o, r, env, t)
  }

  // ---- How the sets move ----

  lemma IdsAppend(cmds: seq<Command>, c: Command)
    ensures Ids(cmds + [c]) == Ids(cmds) + {c.id}
  {
    assert forall x :: x in cmds + [c] <==> x in cmds || x == c;
  }

  lemma SettledAppend(ss: seq<Settled>, x: Settled)
    ensures SettledIds(ss + [x]) == SettledIds(ss) + {x.id}
    ensures DistinctSettled(ss) && x.id !in SettledIds(ss) ==> DistinctSettled(ss + [x])
  {
    assert forall y :: y in ss + [x] <==> y in ss || y == x;
    if DistinctSettled(ss) && x.id !in SettledIds(ss) {
      forall i, j | 0 <= i < j < |ss| + 1 ensures (ss + [x])[i].id != (ss + [x])[j].id {
        assert ss[i] in ss;
      }
    }
  }

  lemma PopFacts(r: Run, s: Run)
    requires Moves(r, PopHead, s) && Distinct(Accepted(r))
    ensures Accepted(s) == Accepted(r)
    ensures Ids(s.box.popped) == Ids(r.box.popped) + {r.box.queue[0].id}
    ensures r.box.queue[0].id !in Ids(r.box.popped)
    ensures Ids(r.box.queue) == Ids(s.box.queue) + {r.box.queue[0].id}
    ensures r.box.queue[0].id !in Ids(s.box.queue)
  {
    var all, n := Accepted(r), |r.box.popped|;
    assert Accepted(s) == all;
    assert all[n] == r.box.queue[0];
    IdsAppend(r.box.popped, r.box.queue[0]);
    forall i | 0 <= i < n ensures r.box.popped[i].id != r.box.queue[0].id {
      assert all[i] == r.box.popped[i];
    }
    forall i | 0 < i < |r.box.queue| ensures r.box.queue[i].id != r.box.queue[0].id {
      assert all[n + i] == r.box.queue[i];
    }
    assert r.box.queue == [r.box.queue[0]] + s.box.queue;
  }

  lemma PushFacts(r: Run, cmd: Command)
    requires PlacesOk(r) && ShapeOk(r) && !r.box.closed && cmd.id !in Ids(Accepted(r))
    ensures PlacesOk(Push(r, cmd)) && ShapeOk(Push(r, cmd))
    ensures Inside(Push(r, cmd)) == Inside(r) + {cmd.id}
    ensures Accepted(Push(r, cmd)) == Accepted(r) + [cmd]
  {
    var all := Accepted(r);
    assert Accepted(Push(r, cmd)) == all + [cmd];
    forall i | 0 <= i < |all| ensures all[i].id != cmd.id {
      assert all[i] in all;
    }
    IdsAppend(r.box.queue, cmd);
  }

  /** No move duplicates or loses a command. */
  lemma MoveKeepsPlaces(r: Run, m: Move, s: Run)
    requires PlacesOk(r) && Moves(r, m, s)
    ensures PlacesOk(s)
    ensures Accepted(s) == Accepted(r)
  {
    match m
    case PopHead => PopFacts(r, s);
    case HandSettled(fate) => SettledAppend(r.box.settled, Settled(Hand(r.pc).value, fate, |r.past.heard|));
    case PendingSettled(id, fate) => SettledAppend(r.box.settled, Settled(id, fate, |r.past.heard|));
    case _ =>
  }

  lemma RiseMoves(o: Options, r: Run, env: Env, a: Life)
    requires ShapeOk(r) && LifeEnabled(o, r, env, a) && Rising(a)
    ensures Moves(r, LifeMove(r, a), LifeNext(o, r, env, a))
  {
  }

  lemma StopMoves(o: Options, r: Run, env: Env, a: Life)
    requires ShapeOk(r) && LifeEnabled(o, r, env, a) && Stopping(a)
    ensures Moves(r, LifeMove(r, a), LifeNext(o, r, env, a))
  {
  }

  lemma FallMoves(o: Options, r: Run, env: Env, a: Life)
    requires ShapeOk(r) && LifeEnabled(o, r, env, a) && !Rising(a) && !Stopping(a)
    ensures Moves(r, LifeMove(r, a), LifeNext(o, r, env, a))
  {
  }

  lemma LifeMoves(o: Options, r: Run, env: Env, a: Life)
    requires ShapeOk(r) && LifeEnabled(o, r, env, a)
    ensures Moves(r, LifeMove(r, a), LifeNext(o, r, env, a))
  {
    hide LifeNext, LifeEnabled, Rising, Stopping, Moves, LifeMove;
    if Rising(a) {
      RiseMoves(o, r, env, a);
    } else if Stopping(a) {
      StopMoves(o, r, env, a);
    } else {
      FallMoves(o, r, env, a);
    }
  }

  lemma SessMoves(o: Options, r: Run, env: Env, a: Sess)
    requires ShapeOk(r) && SessEnabled(o, r, env, a)
    ensures Moves(r, SessMove(o, r, env, a), SessNext(o, r, env, a))
  {
  }

  lemma TalkMoves(o: Options, r: Run, env: Env, a: Talk)
    requires TalkEnabled(o, r, env, a)
    ensures Moves(r, TalkMove(o, r, env, a), TalkNext(o, r, env, a))
  {
  }

  lemma StepMoves(o: Options, r: Run, env: Env, a: Act)
    requires ShapeOk(r) && Enabled(o, r, env, a)
    ensures Moves(r, MoveOf(o, r, env, a), Next(o, r, env, a))
  {
    match a
    case OfLife(l) => LifeMoves(o, r, env, l);
    case OfSess(s) => SessMoves(o, r, env, s);
    case OfTalk(t) => TalkMoves(o, r, env, t);
  }

  lemma LifeKeepsShape(o: Options, r: Run, env: Env, a: Life)
    requires ShapeOk(r) && LifeEnabled(o, r, env, a)
    ensures ShapeOk(LifeNext(o, r, env, a))
  {
  }

  lemma SessKeepsShape(o: Options, r: Run, env: Env, a: Sess)
    requires ShapeOk(r) && SessEnabled(o, r, env, a)
    ensures ShapeOk(SessNext(o, r, env, a))
  {
  }

  lemma TalkKeepsShape(o: Options, r: Run, env: Env, a: Talk)
    requires ShapeOk(r) && TalkEnabled(o, r, env, a)
    ensures ShapeOk(TalkNext(o, r, env, a))
  {
  }

  lemma StepKeepsShape(o: Options, r: Run, env: Env, a: Act)
    requires ShapeOk(r) && Enabled(o, r, env, a)
    ensures ShapeOk(Next(o, r, env, a))
  {
    match a
    case OfLife(l) => LifeKeepsShape(o, r, env, l);
    case OfSess(s) => SessKeepsShape(o, r, env, s);
    case OfTalk(t) => TalkKeepsShape(o, r, env, t);
  }
}
