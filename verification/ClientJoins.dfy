/** Callers of `connect`: those of the first attempt agree, and nobody is left without an answer. */
module ClientJoins {
  import opened Types
  import opened Worker
  import opened WorkerFace
  import opened WorkerInvariant
  import opened Client
  import opened ClientGate
  import opened ClientCalls

  ghost predicate JoinOk(s: State, j: Join) {
    match j.run
    case None =>
      && !j.pc.Looking? && !j.pc.Sleeping?
      && (j.pc.Joined? ==> j.pc.result == Err(Destroyed) || j.pc.result == Err(RuntimeUnavailable))
    case Some(r) =>
      && r < |s.runs| && !j.pc.Locking? && !JoinLocks(j.pc)
      && var face := s.runs[r].face;
         if j.initial then j.pc.Joined? ==> face.first == Some(j.pc.result)
         else
           && face.first.Some?
           && (j.pc.Sleeping? ==> j.pc.seen <= face.version && (j.pc.seen == face.version ==> face.status.Connecting?))
           && (j.pc.Joined? && face.first.value.Err? ==> j.pc.result == Err(face.first.value.error))
  }

  ghost predicate JoinsOk(s: State) {
    forall k :: k in s.joins ==> JoinOk(s, s.joins[k])
  }

  /** What `connect` callers see of runs is only ever added to. */
  ghost predicate FacesStep(s: State, t: State) {
    && |s.runs| <= |t.runs|
    && forall r :: 0 <= r < |s.runs| ==> FaceStep(s.runs[r], t.runs[r])
  }

  lemma FacesKeepJoins(s: State, t: State)
    requires JoinsOk(s) && FacesStep(s, t) && t.joins == s.joins
    ensures JoinsOk(t)
  {
    forall k | k in t.joins ensures JoinOk(t, t.joins[k]) {
      assert JoinOk(s, s.joins[k]);
    }
  }

  lemma RunFace(o: Options, s: State, r: nat)
    requires RunsOk(o, s) && r < |s.runs|
    ensures FaceOk(s.runs[r])
  {
    assert RunOk(o, s.runs[r], s.clock.now, s.clock.late);
  }

  /** The sender-dropped fallback of `connect` is unreachable: a finished run has answered on both channels. */
  lemma FallbackUnreachable(o: Options, s: State, k: nat)
    requires RunsOk(o, s) && JoinsOk(s)
    ensures !JoinEnabled(s, k, SendersGone)
  {
    hide RunOk;
    if k in s.joins && s.joins[k].pc.Sleeping? && HasRun(s, s.joins[k]) {
      assert JoinOk(s, s.joins[k]);
      RunFace(o, s, s.joins[k].run.value);
    }
  }

  lemma JoinKeepsJoins(o: Options, s: State, k: nat, a: JoinAct)
    requires GateOk(s) && RunsOk(o, s) && JoinsOk(s) && JoinEnabled(s, k, a)
    ensures JoinsOk(JoinNext(s, k, a))
  {
    hide RunOk, GateOk;
    var t := JoinNext(s, k, a);
    FallbackUnreachable(o, s, k);
    JoinFrames(s, k, a);
    assert JoinOk(s, s.joins[k]);
    if s.joins[k].run.Some? {
      RunFace(o, s, s.joins[k].run.value);
    }
    JoinRecord(s, k, a);
    forall i | i in t.joins && i != k ensures JoinOk(t, t.joins[i]) {
      assert JoinOk(s, s.joins[i]);
    }
  }

  lemma JoinRecord(s: State, k: nat, a: JoinAct)
    requires JoinEnabled(s, k, a) && !a.SendersGone? && JoinOk(s, s.joins[k])
    requires s.joins[k].run.Some? ==> FaceOk(s.runs[s.joins[k].run.value])
    ensures k in JoinNext(s, k, a).joins && JoinOk(JoinNext(s, k, a), JoinNext(s, k, a).joins[k])
  {
    hide JoinOk, FaceOk, JoinNext, JoinEnabled;
    if a.Peek? {
      PeekRecord(s, k);
    } else {
      OtherRecord(s, k, a);
    }
  }

  lemma PeekRecord(s: State, k: nat)
    requires JoinEnabled(s, k, Peek) && JoinOk(s, s.joins[k])
    requires s.joins[k].run.Some? ==> FaceOk(s.runs[s.joins[k].run.value])
    ensures k in JoinNext(s, k, Peek).joins && JoinOk(JoinNext(s, k, Peek), JoinNext(s, k, Peek).joins[k])
  {
  }

  lemma OtherRecord(s: State, k: nat, a: JoinAct)
    requires JoinEnabled(s, k, a) && !a.SendersGone? && !a.Peek? && JoinOk(s, s.joins[k])
    ensures k in JoinNext(s, k, a).joins && JoinOk(JoinNext(s, k, a), JoinNext(s, k, a).joins[k])
  {
  }

  lemma StepFaces(o: Options, s: State, a: Action)
    requires RunsOk(o, s) && StepEnabled(o, s, a)
    ensures FacesStep(s, Step(o, s, a))
  {
    hide RunOk, Next, Enabled, CallNext, CallEnabled, JoinNext, JoinEnabled, CloseNext, CloseEnabled;
    match a
    case OfCall(id, act) => CallFaces(o, s, id, act);
    case OfJoin(k, act) => JoinFrames(s, k, act);
    case OfClose(k, act) => CloseFaces(s, k, act);
    case OfRun(r, act) =>
      RunFace(o, s, r);
      StepKeepsFace(o, s.runs[r], EnvOf(s, r), act);
      RunFrames(o, s, r, act);
    case _ =>
  }

  lemma CallFaces(o: Options, s: State, id: Id, a: CallAct)
    requires CallEnabled(s, id, a)
    ensures FacesStep(s, CallNext(o, s, id, a))
  {
  }

  lemma CloseFaces(s: State, k: nat, a: CloseAct)
    requires CloseEnabled(s, k, a)
    ensures FacesStep(s, CloseNext(s, k, a))
  {
  }

  lemma StepKeepsJoins(o: Options, s: State, a: Action)
    requires GateOk(s) && RunsOk(o, s) && JoinsOk(s) && StepEnabled(o, s, a)
    ensures JoinsOk(Step(o, s, a))
  {
    hide RunOk, GateOk;
    if a.OfJoin? {
      JoinKeepsJoins(o, s, a.of, a.joinAct);
    } else if a.StartJoin? {
      StartKeepsJoins(o, s, a.join);
    } else {
      StepFaces(o, s, a);
      SameJoins(o, s, a);
      FacesKeepJoins(s, Step(o, s, a));
    }
  }

  lemma StartKeepsJoins(o: Options, s: State, k: nat)
    requires JoinsOk(s) && k !in s.joins
    ensures JoinsOk(Step(o, s, StartJoin(k)))
  {
    var t := Step(o, s, StartJoin(k));
    forall i | i in t.joins ensures JoinOk(t, t.joins[i]) {
      assert i != k ==> JoinOk(s, s.joins[i]);
    }
  }

  lemma SameJoins(o: Options, s: State, a: Action)
    requires StepEnabled(o, s, a) && !a.OfJoin? && !a.StartJoin?
    ensures Step(o, s, a).joins == s.joins
  {
    hide Next, Enabled;
    match a
    case OfCall(id, act) => CallFrames(o, s, id, act);
    case OfClose(k, act) => CloseFrames(s, k, act);
    case OfRun(r, act) => RunFrames(o, s, r, act);
    case _ =>
  }
}
