/** Paths of one run: worker steps interleaved with senders, cancellation and the passing of time. */
module WorkerPath {
  import opened Types
  import opened Worker
  import opened WorkerPlaces
  import opened WorkerAnswers
  import opened WorkerOutage
  import opened WorkerInvariant

  /** A run and its surroundings: `late` accumulates how long the worker was held back (see WorkerOutage.Overrun). */
  datatype Situation = Situation(run: Run, now: nat, late: nat, drawn: set<Id>)

  /** A worker step that finds the reply receivers of `gone` dropped, or something from outside. */
  datatype Happening =
    | Acts(act: Act, gone: set<Id>)
    | Arrives(cmd: Command)
    | Signalled
    | Passes(ticks: nat)

  /** The request ID that a step draws. */
  function Drawing(a: Act): set<Id> {
    if a.OfTalk? && a.talk.Fire? then {a.talk.id} else {}
  }

  function EnvIn(x: Situation, gone: set<Id>): Env {
    Env(x.now, x.late, x.run.socket, gone, true)
  }

  ghost predicate Possible(o: Options, x: Situation, h: Happening) {
    match h
    case Acts(act, gone) => Enabled(o, x.run, EnvIn(x, gone), act) && Drawing(act) !! x.drawn
    case Arrives(cmd) => !x.run.box.closed && cmd.size <= o.maxMessageSize && cmd.id !in x.drawn
    case Signalled => true
    case Passes(_) => true
  }

  function Onward(o: Options, x: Situation, h: Happening): Situation
    requires Possible(o, x, h)
  {
    match h
    case Acts(act, gone) => x.(run := Next(o, x.run, EnvIn(x, gone), act), drawn := x.drawn + Drawing(act))
    case Arrives(cmd) => x.(run := Push(x.run, cmd), drawn := x.drawn + {cmd.id})
    case Signalled => x.(run := x.run.(cancelled := true))
    case Passes(ticks) => x.(now := x.now + ticks, late := x.late + Overrun(x.run, x.now, x.now + ticks))
  }

  ghost predicate Follows(o: Options, x: Situation, h: Happening, y: Situation) {
    Possible(o, x, h) && Onward(o, x, h) == y
  }

  /** `y` is reached from a new run of generation `g` by the happenings `hs`. */
  ghost predicate Path(o: Options, g: nat, hs: seq<Happening>, y: Situation)
    decreases |hs|, 0
  {
    if hs == [] then y.run == NewRun(g) else PathThen(o, g, hs[..|hs| - 1], hs[|hs| - 1], y)
  }

  ghost predicate PathThen(o: Options, g: nat, hs: seq<Happening>, h: Happening, y: Situation)
    decreases |hs|, 1
  {
    exists x :: Path(o, g, hs, x) && Follows(o, x, h, y)
  }

  lemma PathStep(o: Options, g: nat, hs: seq<Happening>, x: Situation, h: Happening)
    requires Path(o, g, hs, x) && Possible(o, x, h)
    ensures Path(o, g, hs + [h], Onward(o, x, h))
  {
    hide Possible, Onward;
    assert (hs + [h])[..|hs|] == hs;
    assert Follows(o, x, h, Onward(o, x, h));
    assert PathThen(o, g, hs, h, Onward(o, x, h));
  }

  /** The invariants of a run, and that every identity in it was drawn. */
  ghost predicate SituationOk(o: Options, x: Situation) {
    RunOk(o, x.run, x.now, x.late) && Ids(Accepted(x.run)) + PingIds(x.run) <= x.drawn
  }

  lemma ActOk(o: Options, x: Situation, act: Act, gone: set<Id>)
    requires Valid(o) && SituationOk(o, x) && Possible(o, x, Acts(act, gone))
    ensures SituationOk(o, Onward(o, x, Acts(act, gone)))
  {
    hide RunOk, Next, Enabled, MoveOf;
    var r, env := x.run, EnvIn(x, gone);
    StepKeepsRun(o, r, env, act);
    RunPlaces(o, x);
    StepMoves(o, r, env, act);
    MoveKeepsPlaces(r, MoveOf(o, r, env, act), Next(o, r, env, act));
    StepPings(o, r, env, act);
  }

  lemma RunPlaces(o: Options, x: Situation)
    requires SituationOk(o, x)
    ensures PlacesOk(x.run) && ShapeOk(x.run)
  {
  }

  lemma ArrivalOk(o: Options, x: Situation, cmd: Command)
    requires Valid(o) && SituationOk(o, x) && Possible(o, x, Arrives(cmd))
    ensures SituationOk(o, Onward(o, x, Arrives(cmd)))
  {
    hide RunOk;
    PushKeepsRun(o, x.run, cmd, x.now, x.late);
    IdsAppend(Accepted(x.run), cmd);
    assert Accepted(Push(x.run, cmd)) == Accepted(x.run) + [cmd];
  }

  lemma StepOk(o: Options, x: Situation, h: Happening)
    requires Valid(o) && SituationOk(o, x) && Possible(o, x, h)
    ensures SituationOk(o, Onward(o, x, h))
  {
    hide RunOk, Next, Enabled;
    match h
    case Acts(act, gone) => ActOk(o, x, act, gone);
    case Arrives(cmd) => ArrivalOk(o, x, cmd);
    case Signalled => CancelKeepsRun(o, x.run, x.now, x.late);
    case Passes(ticks) =>
      var y := Onward(o, x, h);
      TickKeepsRun(o, x.run, x.now, x.late, y.now, y.late);
  }

  /** Every invariant of a run holds along every path. */
  lemma {:induction false} PathOk(o: Options, g: nat, hs: seq<Happening>, y: Situation)
    requires Valid(o) && Path(o, g, hs, y)
    ensures SituationOk(o, y)
    decreases |hs|
  {
    hide SituationOk, Possible, Onward;
    if hs == [] {
      NewPathOk(o, g, y);
    } else {
      var x :| Path(o, g, hs[..|hs| - 1], x) && Follows(o, x, hs[|hs| - 1], y);
      PathOk(o, g, hs[..|hs| - 1], x);
      StepOk(o, x, hs[|hs| - 1]);
    }
  }

  lemma NewPathOk(o: Options, g: nat, y: Situation)
    requires y.run == NewRun(g)
    ensures SituationOk(o, y)
  {
    NewRunOk(o, g, y.now, y.late);
  }
}
