/** The RECVACKs written in a session mirror its Message events. */
module WorkerAcks {
  import opened Types
  import opened Events
  import opened Worker

  /** Receipts of the messages delivered in the session of socket `k`. */
  function Receipts(log: seq<Logged>, k: nat): seq<Receipt> {
    if log == [] then []
    else
      var x, before := log[|log| - 1], Receipts(log[..|log| - 1], k);
      if x.socket == k && x.event.Message? then before + [ReceiptOf(x.event.message)] else before
  }

  /** RECVACKs on the wire of socket `k`. */
  function Acks(wire: seq<Written>, k: nat): seq<Receipt> {
    if wire == [] then []
    else
      var w, before := wire[|wire| - 1], Acks(wire[..|wire| - 1], k);
      if w.socket == k && w.out.RecvAck? then before + [w.out.receipt] else before
  }

  /** Every message is acknowledged in order, but perhaps the last. */
  ghost predicate Mirrors(r: Run, k: nat) {
    var acks, receipts := Acks(r.past.wire, k), Receipts(r.past.log, k);
    acks == receipts || (receipts != [] && acks == receipts[..|receipts| - 1])
  }

  /** In a session the one exception is the acknowledgement being written. */
  ghost predicate MirrorsNow(r: Run) {
    var acks, receipts := Acks(r.past.wire, r.socket), Receipts(r.past.log, r.socket);
    if r.pc.Session? && r.pc.spot.Writing? && r.pc.spot.out.RecvAck? then receipts == acks + [r.pc.spot.out.receipt]
    else receipts == acks
  }

  predicate BeforeSession(pc: Pc) {
    pc.Counted? || pc.Live? || pc.Announced? || pc.Greeted?
  }

  ghost predicate Unused(r: Run, k: nat) {
    Acks(r.past.wire, k) == [] && Receipts(r.past.log, k) == []
  }

  ghost predicate AcksOk(r: Run) {
    && (forall k: nat :: Mirrors(r, k))
    && (forall k: nat :: k > r.socket ==> Unused(r, k))
    && (r.pc.Session? ==> MirrorsNow(r))
    && (BeforeSession(r.pc) ==> Unused(r, r.socket))
  }

  /** The receipt added by a step that logged a message. */
  function Got(r: Run, s: Run): Option<Receipt> {
    if |s.past.log| > |r.past.log| && s.past.log[|r.past.log|].event.Message? then
      Some(ReceiptOf(s.past.log[|r.past.log|].event.message))
    else None
  }

  /** The acknowledgement added by a step that wrote one. */
  function Acked(r: Run, s: Run): Option<Receipt> {
    if |s.past.wire| > |r.past.wire| && s.past.wire[|r.past.wire|].out.RecvAck? then
      Some(s.past.wire[|r.past.wire|].out.receipt)
    else None
  }

  /** The acknowledgement being written. */
  function Owed(pc: Pc): Option<Receipt> {
    match pc
    case Session(Writing(RecvAck(receipt, _))) => Some(receipt)
    case _ => None
  }

  /** Each history grows by at most one entry of the current socket. */
  ghost predicate OneEntry(r: Run, s: Run) {
    && (s.past.log == r.past.log
        || (|s.past.log| == |r.past.log| + 1 && r.past.log <= s.past.log && s.past.log[|r.past.log|].socket == r.socket))
    && (s.past.wire == r.past.wire
        || (|s.past.wire| == |r.past.wire| + 1 && r.past.wire <= s.past.wire && s.past.wire[|r.past.wire|].socket == r.socket))
  }

  /** A delivered message is owed an acknowledgement; the one owed is written or its session ends. */
  ghost predicate AckStep(r: Run, s: Run) {
    && OneEntry(r, s)
    && Owed(s.pc) == Got(r, s)
    && (Got(r, s).Some? ==> r.pc.Session? && Owed(r.pc) == None)
    && (Acked(r, s).Some? ==> Acked(r, s) == Owed(r.pc))
    && (Owed(r.pc).Some? && s.pc.Session? ==> Acked(r, s) == Owed(r.pc))
    && (s.pc.Session? ==> r.pc.Session? || r.pc.Greeted?)
    && s.socket >= r.socket
    && (s.socket > r.socket || BeforeSession(s.pc) ==>
          BeforeSession(s.pc) && s.past == r.past && (s.socket > r.socket || BeforeSession(r.pc)))
    && (Got(r, s).Some? || Acked(r, s).Some? ==> r.pc.Session?)
  }

  lemma EntryReceipts(r: Run, s: Run, k: nat)
    requires OneEntry(r, s)
    ensures Receipts(s.past.log, k)
         == if k == r.socket && Got(r, s).Some? then Receipts(r.past.log, k) + [Got(r, s).value] else Receipts(r.past.log, k)
  {
    if s.past.log != r.past.log {
      assert s.past.log[..|s.past.log| - 1] == r.past.log;
    }
  }

  lemma EntryAcks(r: Run, s: Run, k: nat)
    requires OneEntry(r, s)
    ensures Acks(s.past.wire, k)
         == if k == r.socket && Acked(r, s).Some? then Acks(r.past.wire, k) + [Acked(r, s).value] else Acks(r.past.wire, k)
  {
    if s.past.wire != r.past.wire {
      assert s.past.wire[..|s.past.wire| - 1] == r.past.wire;
    }
  }

  lemma AckStepKeeps(r: Run, s: Run)
    requires AcksOk(r) && AckStep(r, s)
    ensures AcksOk(s)
  {
    forall k: nat
      ensures Receipts(s.past.log, k)
           == if k == r.socket && Got(r, s).Some? then Receipts(r.past.log, k) + [Got(r, s).value] else Receipts(r.past.log, k)
      ensures Acks(s.past.wire, k)
           == if k == r.socket && Acked(r, s).Some? then Acks(r.past.wire, k) + [Acked(r, s).value] else Acks(r.past.wire, k)
    {
      EntryReceipts(r, s, k);
      EntryAcks(r, s, k);
    }
    forall k: nat ensures Mirrors(s, k) {
      assert Mirrors(r, k);
    }
    forall k: nat | k > s.socket ensures Unused(s, k) {
      assert Unused(r, k);
    }
    if s.socket > r.socket {
      assert Unused(r, s.socket);
    }
  }

  /** Acknowledgements concern nothing but the histories, the socket and the position. */
  lemma AcksStay(r: Run, s: Run)
    requires AcksOk(r) && s.past == r.past && s.socket == r.socket && s.pc == r.pc
    ensures AcksOk(s)
  {
    forall k: nat ensures Mirrors(s, k) && (k > s.socket ==> Unused(s, k)) {
      assert Mirrors(r, k) && (k > r.socket ==> Unused(r, k));
    }
  }

  lemma RiseAcks(o: Options, r: Run, env: Env, a: Life)
    requires LifeEnabled(o, r, env, a) && Rising(a) && env.generation == r.socket
    ensures AckStep(r, LifeNext(o, r, env, a))
  {
  }

  lemma AbortAcks(o: Options, r: Run, env: Env, a: Life)
    requires LifeEnabled(o, r, env, a) && Cancelling(a) && env.generation == r.socket
    ensures AckStep(r, LifeNext(o, r, env, a))
  {
  }

  lemma EndAcks(o: Options, r: Run, env: Env, a: Life)
    requires LifeEnabled(o, r, env, a) && Stopping(a) && !Cancelling(a) && env.generation == r.socket
    ensures AckStep(r, LifeNext(o, r, env, a))
  {
  }

  lemma StopAcks(o: Options, r: Run, env: Env, a: Life)
    requires LifeEnabled(o, r, env, a) && Stopping(a) && env.generation == r.socket
    ensures AckStep(r, LifeNext(o, r, env, a))
  {
    hide LifeNext, LifeEnabled, AckStep, Stopping, Cancelling;
    if Cancelling(a) {
      AbortAcks(o, r, env, a);
    } else {
      EndAcks(o, r, env, a);
    }
  }

  lemma FallAcks(o: Options, r: Run, env: Env, a: Life)
    requires LifeEnabled(o, r, env, a) && !Rising(a) && !Stopping(a) && env.generation == r.socket
    ensures AckStep(r, LifeNext(o, r, env, a))
  {
  }

  lemma LifeAcks(o: Options, r: Run, env: Env, a: Life)
    requires LifeEnabled(o, r, env, a) && env.generation == r.socket
    ensures AckStep(r, LifeNext(o, r, env, a))
  {
    hide LifeNext, LifeEnabled, Rising, Stopping, AckStep;
    if Rising(a) {
      RiseAcks(o, r, env, a);
    } else if Stopping(a) {
      StopAcks(o, r, env, a);
    } else {
      FallAcks(o, r, env, a);
    }
  }

  lemma SessAcks(o: Options, r: Run, env: Env, a: Sess)
    requires SessEnabled(o, r, env, a)
    ensures AckStep(r, SessNext(o, r, env, a))
  {
  }

  lemma HearAcks(o: Options, r: Run, env: Env, a: Talk)
    requires TalkEnabled(o, r, env, a) && a.Hear?
    ensures AckStep(r, TalkNext(o, r, env, a))
  {
  }

  lemma ServeAcks(o: Options, r: Run, env: Env, a: Talk)
    requires TalkEnabled(o, r, env, a) && !a.Hear?
    ensures AckStep(r, TalkNext(o, r, env, a))
  {
  }

  lemma TalkAcks(o: Options, r: Run, env: Env, a: Talk)
    requires TalkEnabled(o, r, env, a)
    ensures AckStep(r, TalkNext(o, r, env, a))
  {
    hide TalkNext, TalkEnabled, AckStep;
    if a.Hear? {
      HearAcks(o, r, env, a);
    } else {
      ServeAcks(o, r, env, a);
    }
  }

  lemma StepAcks(o: Options, r: Run, env: Env, a: Act)
    requires Enabled(o, r, env, a) && env.generation == r.socket
    ensures AckStep(r, Next(o, r, env, a))
  {
    match a
    case OfLife(l) => LifeAcks(o, r, env, l);
    case OfSess(t) => SessAcks(o, r, env, t);
    case OfTalk(t) => TalkAcks(o, r, env, t);
  }

  lemma StepKeepsAcks(o: Options, r: Run, env: Env, a: Act)
    requires AcksOk(r) && Enabled(o, r, env, a) && env.generation == r.socket
    ensures AcksOk(Next(o, r, env, a))
  {
    StepAcks(o, r, env, a);
    AckStepKeeps(r, Next(o, r, env, a));
  }
}
