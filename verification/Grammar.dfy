/** The grammar of one run's events, as an automaton, and what its sentences look like. */
module Grammar {
  import opened Types
  import opened Events
  import Backoff

  datatype Phase =
    | Fresh
    | Online
    | Broken(timedOut: bool)
    | Idle(failures: nat)
    | Trying(attempt: nat)
    | Closed
    | Wrong

  /** What can end a session short of a server's disconnect. */
  predicate LossError(e: Error) {
    e.Timeout? || e.Transport? || e.MessageTooLarge? || e.Disconnected? || e.Protocol?
  }

  /** Dial failures after which an established run tries again: a timeout, the network, an answer over the size limit. */
  predicate Retryable(e: Error) {
    e.Timeout? || e.Transport? || e.MessageTooLarge?
  }

  /** The announced delay of a retry is its backoff. */
  predicate Scheduled(o: Options, attempt: nat, delay: nat) {
    Backoff.Base(o, attempt) <= delay <= o.maxReconnectDelay && 4 * delay <= 5 * Backoff.Base(o, attempt)
  }

  function Advance(o: Options, p: Phase, e: Event): Phase {
    match p
    case Fresh =>
      if e.Connect? then Online
      else if e == Disconnect(Manual) || (e.Failure? && e.error != ReconnectExhausted) then Closed
      else Wrong
    case Online =>
      (match e
       case Message(_) => Online
       case SendAck(_) => Online
       case Custom(_) => Online
       case Failure(error) => if error.Protocol? then Online else Wrong
       case Disconnect(TransportLost) => Broken(false)
       case Disconnect(HeartbeatTimeout) => Broken(true)
       case Disconnect(Manual) => Closed
       case Disconnect(ByServer(_)) => Closed
       case _ => Wrong)
    case Broken(timedOut) =>
      if e.Failure? && LossError(e.error) && (e.error.Timeout? <==> timedOut) then Idle(0) else Wrong
    case Idle(n) =>
      if e.Reconnecting? && e.attempt == n + 1 && n < o.maxReconnectAttempts && Scheduled(o, n + 1, e.delay) then
        Trying(n + 1)
      else if e == Failure(ReconnectExhausted) && n == o.maxReconnectAttempts then Closed
      else Wrong
    case Trying(n) =>
      if e.Connect? then Online
      else if e == Disconnect(Manual) then Closed
      else if e.Failure? && Retryable(e.error) then Idle(n)
      else if e.Failure? && (e.error.Server? || e.error.Protocol?) then Closed
      else Wrong
    case Closed => Wrong
    case Wrong => Wrong
  }

  function PhaseOf(o: Options, log: seq<Event>): Phase {
    if log == [] then Fresh else Advance(o, PhaseOf(o, log[..|log| - 1]), log[|log| - 1])
  }

  lemma PhaseAppend(o: Options, log: seq<Event>, e: Event)
    ensures PhaseOf(o, log + [e]) == Advance(o, PhaseOf(o, log), e)
  {
    assert (log + [e])[..|log|] == log;
  }

  /** Every prefix of a sentence is one. */
  lemma {:induction false} PrefixRight(o: Options, log: seq<Event>, i: nat)
    requires i <= |log| && PhaseOf(o, log) != Wrong
    ensures PhaseOf(o, log[..i]) != Wrong
    ensures i < |log| ==> PhaseOf(o, log[..i + 1]) == Advance(o, PhaseOf(o, log[..i]), log[i]) != Wrong
    decreases |log| - i
  {
    if i == |log| {
      assert log[..i] == log;
    } else {
      PrefixRight(o, log, i + 1);
      assert log[..i + 1][..i] == log[..i];
    }
  }

  // ---- Sentences ----

  predicate Carried(e: Event) {
    e.Message? || e.SendAck? || e.Custom?
  }

  /** Where an outage that follows a loss at `d` stands after `n` failed retries. */
  function OutageAt(d: nat, n: nat): nat {
    d + 2 + 2 * n
  }

  /** The first `n` retries after the loss logged at `d`: numbered from 1, each failing retryably. */
  ghost predicate FailedRetries(o: Options, log: seq<Event>, d: nat, n: nat) {
    && OutageAt(d, n) <= |log|
    && forall t :: 0 <= t < n ==>
         && log[OutageAt(d, t)].Reconnecting? && log[OutageAt(d, t)].attempt == t + 1
         && Scheduled(o, t + 1, log[OutageAt(d, t)].delay)
         && log[OutageAt(d, t) + 1].Failure? && Retryable(log[OutageAt(d, t) + 1].error)
  }

  predicate Loss(e: Event) {
    e == Disconnect(TransportLost) || e == Disconnect(HeartbeatTimeout)
  }

  /** The log up to `i` says that the session began with the Connect at `c` and is still on. */
  ghost predicate InSession(log: seq<Event>, c: nat, i: nat) {
    && c < i <= |log| && log[c].Connect?
    && forall k :: c < k < i ==> !log[k].Connect? && !log[k].Disconnect? && !log[k].Reconnecting?
  }

  /** The log up to `i` says that a session was lost at `d` and `n` retries failed since. */
  ghost predicate InOutage(o: Options, log: seq<Event>, d: nat, n: nat, i: nat) {
    && d < i <= |log| && OutageAt(d, n) == i
    && Loss(log[d])
    && log[d + 1].Failure? && (log[d + 1].error.Timeout? <==> log[d] == Disconnect(HeartbeatTimeout))
    && FailedRetries(o, log[..i], d, n)
    && SomeSession(log, d)
  }

  ghost predicate SomeSession(log: seq<Event>, i: nat) {
    exists c :: InSession(log, c, i)
  }

  ghost predicate SomeOutage(o: Options, log: seq<Event>, n: nat, i: nat) {
    exists d :: InOutage(o, log, d, n, i)
  }

  /** What the phase after `i` events means for the events before it. */
  ghost predicate Meaning(o: Options, log: seq<Event>, i: nat, p: Phase) {
    i <= |log| &&
    match p
    case Fresh => i == 0
    case Online => SomeSession(log, i)
    case Broken(timedOut) =>
      i > 0 && (log[i - 1] == if timedOut then Disconnect(HeartbeatTimeout) else Disconnect(TransportLost))
      && SomeSession(log, i - 1)
    case Idle(n) => n <= o.maxReconnectAttempts && SomeOutage(o, log, n, i)
    case Trying(n) =>
      i > 0 && 1 <= n <= o.maxReconnectAttempts
      && log[i - 1].Reconnecting? && log[i - 1].attempt == n && Scheduled(o, n, log[i - 1].delay)
      && SomeOutage(o, log, n - 1, i - 1)
    case Closed => true
    case Wrong => true
  }

  lemma {:induction false} PhaseMeaning(o: Options, log: seq<Event>, i: nat)
    requires i <= |log| && PhaseOf(o, log[..i]) != Wrong
    ensures Meaning(o, log, i, PhaseOf(o, log[..i]))
    decreases i
  {
    if i > 0 {
      assert log[..i][..i - 1] == log[..i - 1];
      PhaseMeaning(o, log, i - 1);
      MeaningStep(o, log, i - 1, PhaseOf(o, log[..i - 1]));
    }
  }

  lemma MeaningStep(o: Options, log: seq<Event>, i: nat, p: Phase)
    requires i < |log| && Meaning(o, log, i, p) && Advance(o, p, log[i]) != Wrong
    ensures Meaning(o, log, i + 1, Advance(o, p, log[i]))
  {
    var q := Advance(o, p, log[i]);
    match p
    case Online =>
      var c :| InSession(log, c, i);
      if q.Online? {
        assert InSession(log, c, i + 1);
      }
    case Broken(_) =>
      assert InOutage(o, log, i - 1, 0, i + 1);
    case Trying(n) =>
      if q.Idle? {
        var d :| InOutage(o, log, d, n - 1, i - 1);
        RetryFailed(o, log, d, n, i);
      } else if q.Online? {
        assert InSession(log, i, i + 1);
      }
    case Idle(n) =>
      if q.Trying? {
        var d :| InOutage(o, log, d, n, i);
      }
    case Fresh =>
      if q.Online? {
        assert InSession(log, i, i + 1);
      }
    case _ =>
  }

  lemma RetryFailed(o: Options, log: seq<Event>, d: nat, n: nat, i: nat)
    requires 1 <= n && 1 <= i < |log| && InOutage(o, log, d, n - 1, i - 1)
    requires log[i - 1].Reconnecting? && log[i - 1].attempt == n && Scheduled(o, n, log[i - 1].delay)
    requires log[i].Failure? && Retryable(log[i].error)
    ensures InOutage(o, log, d, n, i + 1)
  {
    var before, after := log[..i - 1], log[..i + 1];
    forall t | 0 <= t < n
      ensures after[OutageAt(d, t)].Reconnecting? && after[OutageAt(d, t)].attempt == t + 1
      ensures Scheduled(o, t + 1, after[OutageAt(d, t)].delay)
      ensures after[OutageAt(d, t) + 1].Failure? && Retryable(after[OutageAt(d, t) + 1].error)
    {
      if t < n - 1 {
        assert before[OutageAt(d, t)] == after[OutageAt(d, t)];
        assert before[OutageAt(d, t) + 1] == after[OutageAt(d, t) + 1];
      }
    }
  }

  /** Application traffic is reported only between a Connect and the end of its session. */
  lemma TrafficOnlyInSession(o: Options, log: seq<Event>, i: nat)
    requires i < |log| && PhaseOf(o, log) != Wrong && Carried(log[i])
    ensures SomeSession(log, i)
  {
    PrefixRight(o, log, i);
    PhaseMeaning(o, log, i);
  }

  /**
   * A Connect is the run's first event or ends an outage: one Disconnect(Transport or HeartbeatTimeout) that ended
   * the previous session, its error, retries 1, 2, …, k-1 each failing retryably, and retry k.
   */
  lemma ConnectHistory(o: Options, log: seq<Event>, i: nat)
    requires i < |log| && PhaseOf(o, log) != Wrong && log[i].Connect?
    ensures i == 0 || (i >= 1 && log[i - 1].Reconnecting? && 1 <= log[i - 1].attempt <= o.maxReconnectAttempts
                       && SomeOutage(o, log, log[i - 1].attempt - 1, i - 1))
  {
    PrefixRight(o, log, i);
    PhaseMeaning(o, log, i);
  }

  /** One retry back in an outage. */
  lemma OutageBefore(o: Options, log: seq<Event>, d: nat, n: nat)
    requires n > 0 && InOutage(o, log, d, n, OutageAt(d, n))
    ensures InOutage(o, log, d, n - 1, OutageAt(d, n - 1))
    ensures log[OutageAt(d, n - 1)].Reconnecting? && log[OutageAt(d, n - 1)].attempt == n
    ensures OutageAt(d, n - 1) + 1 < |log|
    ensures log[OutageAt(d, n - 1) + 1].Failure? && Retryable(log[OutageAt(d, n - 1) + 1].error)
  {
    var all, before := log[..OutageAt(d, n)], log[..OutageAt(d, n - 1)];
    assert forall k :: 0 <= k < |before| ==> before[k] == all[k];
  }

  lemma LossPhase(o: Options, log: seq<Event>, d: nat)
    requires PhaseOf(o, log) != Wrong && InOutage(o, log, d, 0, OutageAt(d, 0))
    ensures PhaseOf(o, log[..OutageAt(d, 0)]) == Idle(0)
  {
    PrefixRight(o, log, d);
    PrefixRight(o, log, d + 1);
  }

  lemma RetryPhase(o: Options, log: seq<Event>, i: nat, n: nat)
    requires PhaseOf(o, log) != Wrong && n > 0 && i + 1 < |log| && PhaseOf(o, log[..i]) == Idle(n - 1)
    requires log[i].Reconnecting? && log[i + 1].Failure? && Retryable(log[i + 1].error)
    ensures PhaseOf(o, log[..i + 2]) == Idle(n)
  {
    PrefixRight(o, log, i);
    PrefixRight(o, log, i + 1);
  }

  /** The automaton recognises an outage by its events: the loss, its error and `n` failed retries lead to Idle(n). */
  lemma {:induction false} OutagePhase(o: Options, log: seq<Event>, d: nat, n: nat)
    requires PhaseOf(o, log) != Wrong && InOutage(o, log, d, n, OutageAt(d, n))
    ensures PhaseOf(o, log[..OutageAt(d, n)]) == Idle(n)
  {
    hide Advance, PhaseOf, InOutage;
    if n == 0 {
      LossPhase(o, log, d);
    } else {
      OutageBefore(o, log, d, n);
      OutagePhase(o, log, d, n - 1);
      RetryPhase(o, log, OutageAt(d, n - 1), n);
    }
  }

  /** Retries give up exactly after `max_reconnect_attempts` retryable failures of one outage. */
  lemma ExhaustedIff(o: Options, log: seq<Event>, i: nat)
    requires i < |log| && PhaseOf(o, log) != Wrong
    ensures log[i] == Failure(ReconnectExhausted) <==> SomeOutage(o, log, o.maxReconnectAttempts, i)
    ensures log[i] == Failure(ReconnectExhausted) ==> i == |log| - 1
  {
    PrefixRight(o, log, i);
    PhaseMeaning(o, log, i);
    if log[i] == Failure(ReconnectExhausted) {
      ClosedLast(o, log, i);
    }
    if SomeOutage(o, log, o.maxReconnectAttempts, i) {
      var d :| InOutage(o, log, d, o.maxReconnectAttempts, i);
      OutagePhase(o, log, d, o.maxReconnectAttempts);
    }
  }

  /** A terminal event is the last one. */
  lemma ClosedLast(o: Options, log: seq<Event>, i: nat)
    requires i < |log| && PhaseOf(o, log) != Wrong && PhaseOf(o, log[..i + 1]) == Closed
    ensures i == |log| - 1
  {
    if i + 1 < |log| {
      PrefixRight(o, log, i + 1);
    }
  }

  /** `Disconnect(Manual)`, if present, is the last event; so is a server's disconnect. */
  lemma ManualLast(o: Options, log: seq<Event>, i: nat)
    requires i < |log| && PhaseOf(o, log) != Wrong
    requires log[i] == Disconnect(Manual) || (log[i].Disconnect? && log[i].reason.ByServer?)
    ensures i == |log| - 1
  {
    PrefixRight(o, log, i);
    ClosedLast(o, log, i);
  }

  /** What a failed redial leads to, by the error: the end of the run, or the next retry, or giving up. */
  lemma RedialOutcome(o: Options, log: seq<Event>, i: nat)
    requires 0 < i < |log| && PhaseOf(o, log) != Wrong && log[i - 1].Reconnecting? && log[i].Failure?
    ensures log[i].error.Server? || log[i].error.Protocol? ==> i == |log| - 1 && PhaseOf(o, log) == Closed
    ensures log[i].error.Timeout? || log[i].error.Transport? || log[i].error.MessageTooLarge? ==>
              if i + 1 == |log| then PhaseOf(o, log) == Idle(log[i - 1].attempt)
              else if log[i - 1].attempt == o.maxReconnectAttempts then log[i + 1] == Failure(ReconnectExhausted)
              else log[i + 1].Reconnecting? && log[i + 1].attempt == log[i - 1].attempt + 1
    ensures log[i].error.Server? || log[i].error.Protocol? || log[i].error.Timeout? || log[i].error.Transport? || log[i].error.MessageTooLarge?
  {
    PrefixRight(o, log, i - 1);
    PrefixRight(o, log, i);
    assert log[..|log|] == log;
    if log[i].error.Server? || log[i].error.Protocol? {
      ClosedLast(o, log, i);
    } else if i + 1 < |log| {
      PrefixRight(o, log, i + 1);
    }
  }

  /** A run that was once connected cannot end with the error of a failed dial. */
  lemma LastWords(o: Options, log: seq<Event>)
    requires PhaseOf(o, log) == Closed && |log| > 1 && log[|log| - 1].Failure?
    ensures log[|log| - 1].error.Server? || log[|log| - 1].error.Protocol? || log[|log| - 1].error.ReconnectExhausted?
  {
    var n := |log| - 1;
    assert log[..n][..n - 1] == log[..n - 1];
    assert PhaseOf(o, log[..n]) != Fresh;
  }

  // ---- A second Disconnect ----

  /** The log up to `i` lost a session at `d` and has not connected since. */
  ghost predicate LostAt(log: seq<Event>, d: nat, i: nat) {
    d < i <= |log| && Loss(log[d]) && forall k :: d < k < i ==> !log[k].Connect?
  }

  ghost predicate StillLost(log: seq<Event>, i: nat) {
    exists d :: LostAt(log, d, i)
  }

  lemma OutageStillLost(o: Options, log: seq<Event>, d: nat, n: nat, i: nat)
    requires InOutage(o, log, d, n, i)
    ensures LostAt(log, d, i)
  {
    forall k | d < k < i ensures !log[k].Connect? {
      if k > d + 1 {
        var t := (k - d - 2) / 2;
        assert k == OutageAt(d, t) || k == OutageAt(d, t) + 1;
        assert log[..i][OutageAt(d, t)].Reconnecting? && log[..i][OutageAt(d, t) + 1].Failure?;
      }
    }
  }

  /** What a phase that awaits says about a loss not yet made good. */
  lemma StillLostIff(o: Options, log: seq<Event>, i: nat)
    requires i <= |log| && (PhaseOf(o, log[..i]).Fresh? || PhaseOf(o, log[..i]).Online? || PhaseOf(o, log[..i]).Trying?)
    ensures StillLost(log, i) <==> i > 0 && log[i - 1].Reconnecting?
    ensures StillLost(log, i) <==> PhaseOf(o, log[..i]).Trying?
  {
    PhaseMeaning(o, log, i);
    match PhaseOf(o, log[..i])
    case Trying(n) =>
      var d: nat :| InOutage(o, log, d, n - 1, i - 1);
      OutageStillLost(o, log, d, n - 1, i - 1);
      assert LostAt(log, d, i);
    case Online =>
      var c: nat :| InSession(log, c, i);
      assert forall d: nat :: LostAt(log, d, i) ==> d != c;
    case _ =>
  }

  /** `Disconnect(Manual)` follows a loss of the same run exactly when a retry had been announced. */
  lemma ManualAfterLossIff(o: Options, log: seq<Event>, i: nat)
    requires i < |log| && PhaseOf(o, log) != Wrong && log[i] == Disconnect(Manual)
    ensures StillLost(log, i) <==> i > 0 && log[i - 1].Reconnecting?
  {
    PrefixRight(o, log, i);
    StillLostIff(o, log, i);
  }
}
