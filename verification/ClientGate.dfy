/** The mutex, the slot and the shared flags: one live worker, fenced by `disconnect` and `destroy`. */
module ClientGate {
  import opened Types
  import opened Worker
  import opened Client
  import WorkerOutage

  predicate CallLocks(pc: CallPc) {
    pc.Recheck? || pc.Enqueue?
  }

  predicate JoinLocks(pc: JoinPc) {
    pc.Checking? || pc.Spawning?
  }

  predicate CloseLocks(pc: ClosePc) {
    pc.Signalling? || pc.Joining?
  }

  /** The mutex excludes: exactly its holder is inside. */
  ghost predicate LockOk(s: State) {
    && (forall id :: id in s.calls ==> (CallLocks(s.calls[id].pc) <==> s.gate.holder == HeldByCall(id)))
    && (forall k :: k in s.joins ==> (JoinLocks(s.joins[k].pc) <==> s.gate.holder == HeldByJoin(k)))
    && (forall k :: k in s.closes ==> (CloseLocks(s.closes[k].pc) <==> s.gate.holder == HeldByClose(k)))
    && (s.gate.holder.HeldByCall? ==> s.gate.holder.call in s.calls)
    && (s.gate.holder.HeldByJoin? ==> s.gate.holder.join in s.joins)
    && (s.gate.holder.HeldByClose? ==> s.gate.holder.close in s.closes)
  }

  /** A run that is not finished is the last one and in the slot. */
  ghost predicate SlotOk(s: State) {
    && (s.gate.slot.Some? ==> s.gate.slot.value == |s.runs| - 1)
    && (forall r :: 0 <= r < |s.runs| ==> s.runs[r].pc.Finished? || s.gate.slot == Some(r))
    && (forall k :: k in s.closes && s.closes[k].pc.Joining? ==>
          s.gate.slot == Some(s.closes[k].pc.run) && s.closes[k].pc.run < |s.runs| && s.runs[s.closes[k].pc.run].cancelled)
  }

  predicate MustBeUp(pc: Pc) {
    pc.Live? || pc.Announced? || pc.Greeted? || pc.Session? || pc.Lowering? || (pc.Leaving? && pc.exit.Lost?)
  }

  predicate MayBeUp(pc: Pc) {
    MustBeUp(pc) || pc.Leaving? || pc.Aborting?
  }

  /** `connected` and `generation` are the last run's. */
  ghost predicate FlagsOk(s: State) {
    if s.runs == [] then !s.flags.connected
    else
      var last := s.runs[|s.runs| - 1];
      && (MustBeUp(last.pc) ==> s.flags.connected)
      && (s.flags.connected ==> MayBeUp(last.pc))
      && last.socket == s.flags.generation
      && forall r :: 0 <= r < |s.runs| ==> s.runs[r].socket <= s.flags.generation
  }

  ghost predicate AllFinished(s: State) {
    forall r :: 0 <= r < |s.runs| ==> s.runs[r].pc.Finished?
  }

  /** No `connect` is past the destroyed check and about to start a run. */
  ghost predicate NoneSpawning(s: State) {
    forall k :: k in s.joins ==> !s.joins[k].pc.Spawning?
  }

  ghost predicate DestroyOk(s: State) {
    forall k :: k in s.closes && s.closes[k].destroy && !s.closes[k].pc.Announcing? ==>
      && s.flags.destroyed
      && (s.closes[k].pc.Closed? ==> AllFinished(s) && NoneSpawning(s))
  }

  ghost predicate GateOk(s: State) {
    LockOk(s) && SlotOk(s) && FlagsOk(s) && DestroyOk(s)
  }

  // ---- Calls ----

  /** What a call's step changes: its own record, the mutex if it takes or releases it, and one queue. */
  ghost predicate CallFrame(s: State, id: Id, t: State) {
    && id in s.calls && id in t.calls && t.calls == s.calls[id := t.calls[id]]
    && t.joins == s.joins && t.closes == s.closes && t.flags == s.flags && t.clock == s.clock && t.ids == s.ids
    && t.gate.slot == s.gate.slot && SameRuns(s, t)
    && HolderMoves(CallLocks(s.calls[id].pc), CallLocks(t.calls[id].pc), HeldByCall(id), s.gate.holder, t.gate.holder)
  }

  /** The mutex is taken when free, kept while inside, and free after leaving. */
  predicate HolderMoves(inside: bool, stillInside: bool, me: Holder, before: Holder, after: Holder) {
    if !inside && stillInside then before.Nobody? && after == me
    else if inside && !stillInside then after.Nobody?
    else after == before
  }

  /** Runs may gain a command or a cancellation request, nothing else. */
  ghost predicate SameRuns(s: State, t: State) {
    && |t.runs| == |s.runs|
    && forall r :: 0 <= r < |s.runs| ==>
         t.runs[r].pc == s.runs[r].pc && t.runs[r].socket == s.runs[r].socket && t.runs[r].cancelled == s.runs[r].cancelled
  }

  lemma TrySendFrames(o: Options, s: State, id: Id)
    requires CallEnabled(s, id, TrySend)
    ensures CallFrame(s, id, CallNext(o, s, id, TrySend))
  {
    var c := s.calls[id];
    TrySendingFrame(o, s, id, c);
    assert CallNext(o, s, id, TrySend) == Unlocked(TrySending(o, s, id, c));
  }

  lemma TrySendingFrame(o: Options, s: State, id: Id, c: Call)
    requires id in s.calls
    ensures var u := TrySending(o, s, id, c);
            && id in u.calls && u.calls == s.calls[id := u.calls[id]] && !CallLocks(u.calls[id].pc)
            && u.joins == s.joins && u.closes == s.closes && u.flags == s.flags && u.clock == s.clock && u.ids == s.ids
            && u.gate == s.gate && SameRuns(s, u)
  {
    hide CommandOf, Push, SameRuns;
    SameRunsStay(s);
    if s.gate.slot.Some? && s.gate.slot.value < |s.runs| {
      PushSameRuns(s, s.gate.slot.value, CommandOf(id, c));
    }
  }

  lemma SameRunsStay(s: State)
    ensures forall t: State {:trigger SameRuns(s, t)} :: t.runs == s.runs ==> SameRuns(s, t)
  {
  }

  lemma PushSameRuns(s: State, r: nat, cmd: Command)
    requires r < |s.runs|
    ensures forall t: State {:trigger SameRuns(s, t)} :: t.runs == s.runs[r := Push(s.runs[r], cmd)] ==> SameRuns(s, t)
  {
  }

  lemma CallFrames(o: Options, s: State, id: Id, a: CallAct)
    requires CallEnabled(s, id, a)
    ensures CallFrame(s, id, CallNext(o, s, id, a))
  {
    if a.TrySend? {
      TrySendFrames(o, s, id);
    } else {
      OtherCallFrames(o, s, id, a);
    }
  }

  lemma OtherCallFrames(o: Options, s: State, id: Id, a: CallAct)
    requires CallEnabled(s, id, a) && !a.TrySend?
    ensures CallFrame(s, id, CallNext(o, s, id, a))
  {
    hide SameRuns;
    SameRunsStay(s);
  }

  lemma CallKeepsGate(o: Options, s: State, id: Id, a: CallAct)
    requires GateOk(s) && CallEnabled(s, id, a)
    ensures GateOk(CallNext(o, s, id, a))
  {
    CallFrames(o, s, id, a);
    CallFrameKeepsGate(s, id, CallNext(o, s, id, a));
  }

  lemma CallFrameKeepsGate(s: State, id: Id, t: State)
    requires GateOk(s) && CallFrame(s, id, t)
    ensures GateOk(t)
  {
  }

  // ---- Connects ----

  ghost predicate JoinFrame(s: State, k: nat, t: State) {
    && k in s.joins && k in t.joins && t.joins == s.joins[k := t.joins[k]]
    && t.calls == s.calls && t.closes == s.closes && t.flags == s.flags && t.clock == s.clock && t.ids == s.ids
    && HolderMoves(JoinLocks(s.joins[k].pc), JoinLocks(t.joins[k].pc), HeldByJoin(k), s.gate.holder, t.gate.holder)
    && (t.joins[k].pc.Spawning? && !s.joins[k].pc.Spawning? ==> !s.flags.destroyed)
    && if t.runs == s.runs then t.gate.slot == s.gate.slot
       else
         && s.joins[k].pc.Spawning? && StartsRun(s)
         && t.runs == s.runs + [NewRun(s.flags.generation)] && t.gate.slot == Some(|s.runs|)
  }

  lemma JoinFrames(s: State, k: nat, a: JoinAct)
    requires JoinEnabled(s, k, a)
    ensures JoinFrame(s, k, JoinNext(s, k, a))
  {
  }

  lemma JoinFrameKeepsLock(s: State, k: nat, t: State)
    requires GateOk(s) && JoinFrame(s, k, t)
    ensures LockOk(t)
  {
    hide SlotOk, FlagsOk, DestroyOk;
  }

  lemma JoinFrameKeepsSlot(s: State, k: nat, t: State)
    requires GateOk(s) && JoinFrame(s, k, t)
    ensures SlotOk(t)
  {
    hide FlagsOk, DestroyOk;
  }

  lemma JoinFrameKeepsFlags(s: State, k: nat, t: State)
    requires GateOk(s) && JoinFrame(s, k, t)
    ensures FlagsOk(t)
  {
    hide LockOk, DestroyOk;
  }

  lemma JoinFrameKeepsDestroy(s: State, k: nat, t: State)
    requires GateOk(s) && JoinFrame(s, k, t)
    ensures DestroyOk(t)
  {
  }

  lemma JoinFrameKeepsGate(s: State, k: nat, t: State)
    requires GateOk(s) && JoinFrame(s, k, t)
    ensures GateOk(t)
  {
    hide JoinFrame, LockOk, SlotOk, FlagsOk, DestroyOk;
    JoinFrameKeepsLock(s, k, t);
    JoinFrameKeepsSlot(s, k, t);
    JoinFrameKeepsFlags(s, k, t);
    JoinFrameKeepsDestroy(s, k, t);
  }

  lemma JoinKeepsGate(s: State, k: nat, a: JoinAct)
    requires GateOk(s) && JoinEnabled(s, k, a)
    ensures GateOk(JoinNext(s, k, a))
  {
    JoinFrames(s, k, a);
    JoinFrameKeepsGate(s, k, JoinNext(s, k, a));
  }

  // ---- Closes ----

  ghost predicate CloseFrame(s: State, k: nat, t: State) {
    && k in s.closes && k in t.closes && t.closes == s.closes[k := t.closes[k]]
    && t.closes[k].destroy == s.closes[k].destroy
    && t.calls == s.calls && t.joins == s.joins && t.clock == s.clock && t.ids == s.ids && t.free == s.free
    && t.flags == s.flags.(destroyed := s.flags.destroyed || s.closes[k].pc.Announcing?)
    && (t.closes[k].pc.Announcing? ==> s.closes[k].pc.Announcing?)
    && HolderMoves(CloseLocks(s.closes[k].pc), CloseLocks(t.closes[k].pc), HeldByClose(k), s.gate.holder, t.gate.holder)
    && (s.closes[k].pc.Announcing? ==> !t.closes[k].pc.Closed?)
  }

  /** What a close does to slot and runs: it cancels the run in the slot, or empties the slot of a finished run. */
  ghost predicate CloseEffect(s: State, k: nat, t: State)
    requires CloseFrame(s, k, t)
  {
    || (t.runs == s.runs && t.gate.slot == s.gate.slot && !t.closes[k].pc.Joining? && !t.closes[k].pc.Closed?)
    || (s.runs != [] && t.closes[k].pc == Joining(|s.runs| - 1) && s.gate.slot == Some(|s.runs| - 1) == t.gate.slot
        && t.runs == s.runs[|s.runs| - 1 := s.runs[|s.runs| - 1].(cancelled := true)])
    || (t.closes[k].pc.Closed? && t.gate.slot == None && t.runs == s.runs && AllFinished(s) && CloseLocks(s.closes[k].pc))
  }

  lemma CloseFrames(s: State, k: nat, a: CloseAct)
    requires CloseEnabled(s, k, a)
    ensures CloseFrame(s, k, CloseNext(s, k, a))
  {
  }

  lemma CloseEffects(s: State, k: nat, a: CloseAct)
    requires SlotOk(s) && CloseEnabled(s, k, a) && CloseFrame(s, k, CloseNext(s, k, a))
    ensures CloseEffect(s, k, CloseNext(s, k, a))
  {
  }

  lemma CloseFrameKeepsLock(s: State, k: nat, t: State)
    requires GateOk(s) && CloseFrame(s, k, t) && CloseEffect(s, k, t)
    ensures LockOk(t)
  {
    hide SlotOk, FlagsOk, DestroyOk;
  }

  lemma CloseFrameKeepsSlot(s: State, k: nat, t: State)
    requires GateOk(s) && CloseFrame(s, k, t) && CloseEffect(s, k, t)
    ensures SlotOk(t)
  {
    hide FlagsOk, DestroyOk;
  }

  lemma CloseFrameKeepsFlags(s: State, k: nat, t: State)
    requires GateOk(s) && CloseFrame(s, k, t) && CloseEffect(s, k, t)
    ensures FlagsOk(t)
  {
    hide LockOk, DestroyOk;
  }

  lemma CloseFrameKeepsDestroy(s: State, k: nat, t: State)
    requires GateOk(s) && CloseFrame(s, k, t) && CloseEffect(s, k, t)
    ensures DestroyOk(t)
  {
  }

  lemma CloseFrameKeepsGate(s: State, k: nat, t: State)
    requires GateOk(s) && CloseFrame(s, k, t) && CloseEffect(s, k, t)
    ensures GateOk(t)
  {
    hide CloseFrame, LockOk, SlotOk, FlagsOk, DestroyOk;
    CloseFrameKeepsLock(s, k, t);
    CloseFrameKeepsSlot(s, k, t);
    CloseFrameKeepsFlags(s, k, t);
    CloseFrameKeepsDestroy(s, k, t);
  }

  lemma CloseKeepsGate(s: State, k: nat, a: CloseAct)
    requires GateOk(s) && CloseEnabled(s, k, a)
    ensures GateOk(CloseNext(s, k, a))
  {
    CloseFrames(s, k, a);
    CloseEffects(s, k, a);
    CloseFrameKeepsGate(s, k, CloseNext(s, k, a));
  }

  // ---- Runs ----

  /** A run that can step is the last one and in the slot. */
  lemma LiveRunIsLast(o: Options, s: State, r: nat, a: Act)
    requires SlotOk(s) && RunEnabled(o, s, r, a)
    ensures !s.runs[r].pc.Finished? && r == |s.runs| - 1 && s.gate.slot == Some(r)
  {
  }

  /** What a run's step changes: the run, the two flags it owns, one caller's reply and one permit. */
  ghost predicate RunFrame(s: State, r: nat, t: State) {
    && r < |s.runs| && |t.runs| == |s.runs| && t.runs == s.runs[r := t.runs[r]]
    && t.joins == s.joins && t.closes == s.closes && t.gate == s.gate && t.clock == s.clock
    && t.flags.destroyed == s.flags.destroyed
    && t.calls.Keys == s.calls.Keys
    && (forall id :: id in s.calls ==> t.calls[id] == s.calls[id].(reply := t.calls[id].reply))
    && s.ids <= t.ids
  }

  lemma RunFrames(o: Options, s: State, r: nat, a: Act)
    requires RunEnabled(o, s, r, a)
    ensures RunFrame(s, r, RunNext(o, s, r, a))
    ensures RunNext(o, s, r, a).runs[r] == Next(o, s.runs[r], EnvOf(s, r), a)
  {
    hide Next, Enabled;
  }

  lemma LifeSocket(o: Options, r: Run, env: Env, a: Life)
    requires LifeEnabled(o, r, env, a)
    ensures LifeNext(o, r, env, a).socket == if a == Count then env.generation + 1 else r.socket
    ensures LifeNext(o, r, env, a).cancelled == r.cancelled
  {
  }

  lemma StepSocket(o: Options, r: Run, env: Env, a: Act)
    requires Enabled(o, r, env, a)
    ensures Next(o, r, env, a).socket == if a == OfLife(Count) then env.generation + 1 else r.socket
    ensures Next(o, r, env, a).cancelled == r.cancelled
  {
    match a
    case OfLife(l) => LifeSocket(o, r, env, l);
    case OfSess(_) =>
    case OfTalk(_) =>
  }

  /** What a step stores in `connected` fits the position it moves to. */
  ghost predicate FlagStep(r: Run, stores: Option<bool>, s: Run) {
    if stores == Some(true) then MayBeUp(s.pc)
    else if stores == Some(false) then !MustBeUp(s.pc)
    else (MustBeUp(s.pc) ==> MustBeUp(r.pc)) && (MayBeUp(r.pc) ==> MayBeUp(s.pc))
  }

  lemma LifeFlag(o: Options, r: Run, env: Env, a: Life)
    requires LifeEnabled(o, r, env, a)
    ensures FlagStep(r, Stores(OfLife(a)), LifeNext(o, r, env, a))
  {
  }

  lemma StepFlag(o: Options, r: Run, env: Env, a: Act)
    requires Enabled(o, r, env, a)
    ensures FlagStep(r, Stores(a), Next(o, r, env, a))
  {
    match a
    case OfLife(l) => LifeFlag(o, r, env, l);
    case OfSess(_) =>
    case OfTalk(_) =>
  }

  lemma RunFrameKeepsGate(s: State, r: nat, t: State, stores: Option<bool>)
    requires GateOk(s) && RunFrame(s, r, t) && s.gate.slot == Some(r) && !s.runs[r].pc.Finished?
    requires t.runs[r].cancelled == s.runs[r].cancelled && t.runs[r].socket == t.flags.generation >= s.flags.generation
    requires FlagStep(s.runs[r], stores, t.runs[r])
    requires t.flags.connected == if stores.Some? then stores.value else s.flags.connected
    ensures GateOk(t)
  {
  }

  lemma RunKeepsGate(o: Options, s: State, r: nat, a: Act)
    requires GateOk(s) && RunEnabled(o, s, r, a)
    ensures GateOk(RunNext(o, s, r, a))
  {
    hide Next, Enabled;
    LiveRunIsLast(o, s, r, a);
    StepSocket(o, s.runs[r], EnvOf(s, r), a);
    StepFlag(o, s.runs[r], EnvOf(s, r), a);
    RunFrames(o, s, r, a);
    RunFrameKeepsGate(s, r, RunNext(o, s, r, a), Stores(a));
  }

  // ---- All steps ----

  lemma StartKeepsGate(o: Options, s: State, a: Action)
    requires GateOk(s) && StepEnabled(o, s, a) && s.calls.Keys <= s.ids
    requires a.Tick? || a.StartCall? || a.StartJoin? || a.StartClose?
    ensures GateOk(Step(o, s, a))
  {
    hide WorkerOutage.Overrun, CallNext, JoinNext, CloseNext, RunNext;
  }

  lemma StepKeepsGate(o: Options, s: State, a: Action)
    requires GateOk(s) && StepEnabled(o, s, a) && s.calls.Keys <= s.ids
    ensures GateOk(Step(o, s, a))
  {
    match a
    case OfCall(id, act) => CallKeepsGate(o, s, id, act);
    case OfJoin(k, act) => JoinKeepsGate(s, k, act);
    case OfClose(k, act) => CloseKeepsGate(s, k, act);
    case OfRun(r, act) => RunKeepsGate(o, s, r, act);
    case _ => StartKeepsGate(o, s, a);
  }
}
