/** The wire: only the generation a caller read, at most once, in the order of acceptance. */
module WorkerOrder {
  import opened Types
  import opened Worker
  import opened WorkerPlaces

  /** The SEND commands on the wire, in order. */
  function Sent(wire: seq<Written>): seq<Command> {
    if wire == [] then []
    else
      var w, before := wire[|wire| - 1], Sent(wire[..|wire| - 1]);
      if w.out.Send? then before + [w.out.cmd] else before
  }

  /** `a` is a subsequence of `b`. */
  ghost predicate Subsequence(a: seq<Command>, b: seq<Command>) {
    a == [] ||
    (b != [] &&
     (|| (a[|a| - 1] == b[|b| - 1] && Subsequence(a[..|a| - 1], b[..|b| - 1]))
      || Subsequence(a, b[..|b| - 1])))
  }

  /** The last popped command is still on its way to the wire. */
  predicate InTransit(pc: Pc) {
    pc.Session? && (pc.spot.Took? || pc.spot.Open? || pc.spot.Current? || (pc.spot.Writing? && pc.spot.out.Send?))
  }

  /** What may be on the wire: everything popped, but for the command in transit. */
  function Passed(r: Run): seq<Command>
  {
    if InTransit(r.pc) && r.box.popped != [] then r.box.popped[..|r.box.popped| - 1] else r.box.popped
  }

  ghost predicate OrderOk(r: Run) {
    Subsequence(Sent(r.past.wire), Passed(r))
  }

  ghost predicate FenceOk(r: Run) {
    && (forall i :: 0 <= i < |r.past.wire| && r.past.wire[i].out.Send? ==>
          r.past.wire[i].out.cmd.generation == r.past.wire[i].socket)
    && (r.pc.Session? && r.pc.spot.Current? ==> r.pc.spot.cmd.generation == r.socket)
    && (r.pc.Session? && r.pc.spot.Writing? && r.pc.spot.out.Send? ==> r.pc.spot.out.cmd.generation == r.socket)
  }

  // ---- Subsequences ----

  lemma SubsequenceMore(a: seq<Command>, b: seq<Command>, c: Command)
    requires Subsequence(a, b)
    ensures Subsequence(a, b + [c])
    ensures Subsequence(a + [c], b + [c])
  {
    assert (b + [c])[..|b|] == b && (a + [c])[..|a|] == a;
  }

  lemma SubsequenceLast(a: seq<Command>, b: seq<Command>)
    requires b != [] && Subsequence(a, b[..|b| - 1])
    ensures Subsequence(a, b)
    ensures Subsequence(a + [b[|b| - 1]], b)
  {
    hide Subsequence;
    var init, last := b[..|b| - 1], b[|b| - 1];
    SubsequenceMore(a, init, last);
    assert b == init + [last];
  }

  lemma {:induction false} SubsequenceRefl(a: seq<Command>)
    ensures Subsequence(a, a)
  {
    if a != [] {
      SubsequenceRefl(a[..|a| - 1]);
    }
  }

  lemma {:induction false} SubsequenceMember(a: seq<Command>, b: seq<Command>, i: nat) returns (k: nat)
    requires Subsequence(a, b) && i < |a|
    ensures k < |b| && b[k] == a[i]
    decreases |b|
  {
    var n, m := |a| - 1, |b| - 1;
    if a[n] == b[m] && Subsequence(a[..n], b[..m]) {
      if i == n {
        k := m;
      } else {
        k := SubsequenceMember(a[..n], b[..m], i);
      }
    } else {
      k := SubsequenceMember(a, b[..m], i);
    }
  }

  /** A subsequence of distinct commands has no duplicates. */
  lemma {:induction false} SubsequenceDistinct(a: seq<Command>, b: seq<Command>)
    requires Subsequence(a, b) && Distinct(b)
    ensures Distinct(a)
    decreases |b|
  {
    if a != [] {
      var n, m := |a| - 1, |b| - 1;
      if a[n] == b[m] && Subsequence(a[..n], b[..m]) {
        SubsequenceDistinct(a[..n], b[..m]);
        forall i | 0 <= i < n ensures a[i].id != a[n].id {
          var k := SubsequenceMember(a[..n], b[..m], i);
          assert b[k] == a[i];
        }
      } else {
        SubsequenceDistinct(a, b[..m]);
      }
    }
  }

  /** Subsequences compose with appending: pieces can be joined. */
  lemma {:induction false} SubsequenceJoin(a: seq<Command>, b: seq<Command>, c: seq<Command>, d: seq<Command>)
    requires Subsequence(a, b) && Subsequence(c, d)
    ensures Subsequence(a + c, b + d)
    decreases |d|
  {
    if d == [] {
      assert a + c == a && b + d == b;
    } else {
      var m := |d| - 1;
      assert (b + d)[..|b + d| - 1] == b + d[..m];
      if c == [] {
        assert a + c == a;
        SubsequenceJoin(a, b, c, d[..m]);
        assert a + c[..] == a;
      } else if c[|c| - 1] == d[m] && Subsequence(c[..|c| - 1], d[..m]) {
        SubsequenceJoin(a, b, c[..|c| - 1], d[..m]);
        assert (a + c)[..|a + c| - 1] == a + c[..|c| - 1];
      } else {
        SubsequenceJoin(a, b, c, d[..m]);
      }
    }
  }

  lemma SentAppend(wire: seq<Written>, w: Written)
    ensures Sent(wire + [w]) == if w.out.Send? then Sent(wire) + [w.out.cmd] else Sent(wire)
  {
    assert (wire + [w])[..|wire|] == wire;
  }

  // ---- Steps ----

  /** Nothing moves; or the head of the queue is popped; or the command in transit arrives or is given up. */
  ghost predicate WireStep(r: Run, s: Run) {
    || (s.past.wire == r.past.wire && Passed(s) == Passed(r))
    || (s.past.wire == r.past.wire && !InTransit(r.pc) && r.box.queue != []
        && s.box.popped == r.box.popped + [r.box.queue[0]])
    || (s.box.popped == r.box.popped && !InTransit(s.pc) && s.past.wire == r.past.wire)
    || (s.box.popped == r.box.popped && !InTransit(s.pc) && r.pc.Session? && r.pc.spot.Writing?
        && s.past.wire == r.past.wire + [Written(r.socket, r.pc.spot.out, |r.past.heard|)])
  }

  lemma WireStepKeepsOrder(r: Run, s: Run)
    requires OrderOk(r) && HandOk(r) && WireStep(r, s)
    ensures OrderOk(s)
  {
    if s.past.wire == r.past.wire && Passed(s) == Passed(r) {
    } else if s.box.popped != r.box.popped {
      PopKeepsOrder(r, s);
    } else if s.past.wire == r.past.wire {
      RestKeepsOrder(r, s);
    } else {
      WriteKeepsOrder(r, s);
    }
  }

  lemma PopKeepsOrder(r: Run, s: Run)
    requires OrderOk(r) && !InTransit(r.pc) && r.box.queue != []
    requires s.past.wire == r.past.wire && s.box.popped == r.box.popped + [r.box.queue[0]]
    ensures OrderOk(s)
  {
    assert s.box.popped[..|s.box.popped| - 1] == r.box.popped;
    SubsequenceLast(Sent(r.past.wire), s.box.popped);
  }

  lemma RestKeepsOrder(r: Run, s: Run)
    requires OrderOk(r) && !InTransit(s.pc) && s.past.wire == r.past.wire && s.box.popped == r.box.popped
    ensures OrderOk(s)
  {
    if InTransit(r.pc) && r.box.popped != [] {
      SubsequenceLast(Sent(r.past.wire), r.box.popped);
    }
  }

  lemma WriteKeepsOrder(r: Run, s: Run)
    requires OrderOk(r) && HandOk(r) && r.pc.Session? && r.pc.spot.Writing?
    requires s.box.popped == r.box.popped && !InTransit(s.pc)
    requires s.past.wire == r.past.wire + [Written(r.socket, r.pc.spot.out, |r.past.heard|)]
    ensures OrderOk(s)
  {
    SentAppend(r.past.wire, Written(r.socket, r.pc.spot.out, |r.past.heard|));
    if InTransit(r.pc) {
      assert InHand(r, r.pc.spot.out.cmd);
      SubsequenceLast(Sent(r.past.wire), r.box.popped);
    }
  }

  lemma LifeWire(o: Options, r: Run, env: Env, a: Life)
    requires LifeEnabled(o, r, env, a)
    ensures WireStep(r, LifeNext(o, r, env, a))
  {
  }

  lemma SessWire(o: Options, r: Run, env: Env, a: Sess)
    requires SessEnabled(o, r, env, a)
    ensures WireStep(r, SessNext(o, r, env, a))
  {
    if a.Take? {
      var s := SessNext(o, r, env, a);
      assert s.box.popped[..|s.box.popped| - 1] == r.box.popped;
    }
  }

  lemma TalkWire(o: Options, r: Run, env: Env, a: Talk)
    requires TalkEnabled(o, r, env, a)
    ensures WireStep(r, TalkNext(o, r, env, a))
  {
  }

  lemma StepKeepsOrder(o: Options, r: Run, env: Env, a: Act)
    requires OrderOk(r) && HandOk(r) && Enabled(o, r, env, a)
    ensures OrderOk(Next(o, r, env, a))
  {
    match a {
      case OfLife(l) => LifeWire(o, r, env, l);
      case OfSess(s) => SessWire(o, r, env, s);
      case OfTalk(t) => TalkWire(o, r, env, t);
    }
    WireStepKeepsOrder(r, Next(o, r, env, a));
  }

  lemma LifeKeepsFence(o: Options, r: Run, env: Env, a: Life)
    requires FenceOk(r) && LifeEnabled(o, r, env, a)
    ensures FenceOk(LifeNext(o, r, env, a))
  {
  }

  /** The generation check is made against the worker's own socket. */
  lemma SessKeepsFence(o: Options, r: Run, env: Env, a: Sess)
    requires FenceOk(r) && SessEnabled(o, r, env, a) && env.generation == r.socket
    ensures FenceOk(SessNext(o, r, env, a))
  {
  }

  lemma TalkKeepsFence(o: Options, r: Run, env: Env, a: Talk)
    requires FenceOk(r) && TalkEnabled(o, r, env, a)
    ensures FenceOk(TalkNext(o, r, env, a))
  {
  }

  lemma StepKeepsFence(o: Options, r: Run, env: Env, a: Act)
    requires FenceOk(r) && Enabled(o, r, env, a) && env.generation == r.socket
    ensures FenceOk(Next(o, r, env, a))
  {
    match a
    case OfLife(l) => LifeKeepsFence(o, r, env, l);
    case OfSess(s) => SessKeepsFence(o, r, env, s);
    case OfTalk(t) => TalkKeepsFence(o, r, env, t);
  }
}
