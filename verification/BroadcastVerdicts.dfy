/** Where the verdicts of attempts come from: failed and confirmed are what a node or the chain said
    about that request, over every interleaving. */
module BroadcastVerdicts {
  import opened Prelude
  import opened Preparations
  import opened Executions
  import opened Broadcast
  import opened BroadcastSafety
  import opened BroadcastRuns
  import opened BroadcastRaces

  /** The step learns the verdict: the node rejects the broadcast, or the chain reports an error, or
      a settled success, for the request of the process. */
  ghost predicate Learns(s: State, p: Pid, a: Action, id: string, verdict: AttemptState) {
    p in s.procs &&
    if a.ExecSend? then verdict == FAILED && a.outcome == Rejected && s.procs[p].ExecClaimed? && s.procs[p].requestId == id
    else if a.Observe? && s.procs[p].Observing? && s.procs[p].requestId == id && a.reply.Status? then
      if verdict == FAILED then a.reply.failed else verdict == CONFIRMED && !a.reply.failed && a.reply.settled
    else false
  }

  /** A process is about to record the verdict. */
  ghost predicate PcCarries(s: State, p: Pid, id: string, verdict: AttemptState) {
    p in s.procs &&
    match s.procs[p]
    case ExecSent(requestId, _, _, outcome) => requestId == id && verdict == FAILED && outcome == Rejected
    case Recording(requestId, _, _, state, _, _) => requestId == id && state == verdict
    case _ => false
  }

  /** The verdict is stored, was stored at some time, or is about to be. */
  ghost predicate Carries(s: State, id: string, verdict: AttemptState) {
    || (id in s.attempts && s.attempts[id].state == verdict)
    || (verdict == FAILED && FailureRecorded(id) in s.facts)
    || (verdict == CONFIRMED && ConfirmationRecorded(id) in s.facts)
    || exists p :: PcCarries(s, p, id, verdict)
  }

  /** The tables and facts show the verdict. */
  ghost predicate Stored(s: State, id: string, verdict: AttemptState) {
    || (id in s.attempts && s.attempts[id].state == verdict)
    || (verdict == FAILED && FailureRecorded(id) in s.facts)
    || (verdict == CONFIRMED && ConfirmationRecorded(id) in s.facts)
  }

  /** What the moving process shows and carries afterwards, it or the store had before, or it learns it. */
  ghost predicate Explained(s: State, s': State, p: Pid, a: Action, id: string, verdict: AttemptState) {
    && (Stored(s', id, verdict) ==> Stored(s, id, verdict) || PcCarries(s, p, id, verdict))
    && (PcCarries(s', p, id, verdict) ==> PcCarries(s, p, id, verdict) || Learns(s, p, a, id, verdict))
  }

  lemma EnteringIsExplained(cfg: Config, s: State, p: Pid, a: Action, id: string, verdict: AttemptState)
    requires Terminal(verdict) && p !in s.procs && Enter(cfg, s, p, a).Some?
    ensures Explained(s, Enter(cfg, s, p, a).value, p, a, id, verdict)
  {
  }

  lemma ClaimIsExplained(s: State, p: Pid, now: int, id: string, verdict: AttemptState)
    requires Terminal(verdict) && p in s.procs && s.procs[p].ExecReady?
    ensures Explained(s, ClaimStep(s, p, s.procs[p], now), p, ExecClaim(now), id, verdict)
  {
  }

  lemma SendIsExplained(s: State, p: Pid, outcome: SendOutcome, id: string, verdict: AttemptState)
    requires Terminal(verdict) && p in s.procs && s.procs[p].ExecClaimed?
    ensures Explained(s, SendStep(s, p, s.procs[p], outcome), p, ExecSend(outcome), id, verdict)
  {
  }

  lemma OutcomeIsExplained(s: State, p: Pid, now: int, id: string, verdict: AttemptState)
    requires Terminal(verdict) && p in s.procs && s.procs[p].ExecSent?
    ensures Explained(s, RecordOutcomeStep(s, p, s.procs[p], now), p, ExecRecord(now), id, verdict)
  {
  }

  lemma ObservationIsExplained(s: State, p: Pid, now: int, reply: StatusReply, id: string, verdict: AttemptState)
    requires Terminal(verdict) && p in s.procs && s.procs[p].Observing?
    requires !Terminal(s.procs[p].attempt.state)
    ensures Explained(s, ObserveStep(s, p, s.procs[p], now, reply), p, Observe(now, reply), id, verdict)
  {
  }

  lemma RecordIsExplained(s: State, p: Pid, now: int, id: string, verdict: AttemptState)
    requires Terminal(verdict) && p in s.procs && s.procs[p].Recording?
    ensures Explained(s, RecordStep(s, p, s.procs[p], now), p, Record(now), id, verdict)
  {
  }

  lemma EscalationIsExplained(s: State, p: Pid, now: int, id: string, verdict: AttemptState)
    requires Terminal(verdict) && p in s.procs && s.procs[p].Escalating?
    ensures Explained(s, EscalateStep(s, p, s.procs[p], now), p, Escalate(now), id, verdict)
  {
  }

  lemma QueryIsExplained(cfg: Config, s: State, p: Pid, a: Action, id: string, verdict: AttemptState)
    requires Terminal(verdict) && p in s.procs && Continue(cfg, s, p, a).Some?
    requires a.QueryAttempt? || a.QueryPreparation? || a.ExpireRow? || a.Reread? || a.Conclude?
    ensures Explained(s, Continue(cfg, s, p, a).value, p, a, id, verdict)
  {
  }

  lemma PreparationIsExplained(cfg: Config, s: State, p: Pid, a: Action, id: string, verdict: AttemptState)
    requires Terminal(verdict) && p in s.procs && Continue(cfg, s, p, a).Some?
    requires a.PrepareSave? || a.ExecValidate? || a.Crash?
    ensures Explained(s, Continue(cfg, s, p, a).value, p, a, id, verdict)
  {
  }

  lemma ContinuationIsExplained(cfg: Config, s: State, p: Pid, a: Action, id: string, verdict: AttemptState)
    requires Terminal(verdict) && p in s.procs && Continue(cfg, s, p, a).Some?
    requires s.procs[p].Observing? ==> !Terminal(s.procs[p].attempt.state)
    ensures Explained(s, Continue(cfg, s, p, a).value, p, a, id, verdict)
  {
    if a.ExecClaim? {
      ClaimIsExplained(s, p, a.now, id, verdict);
    } else if a.ExecSend? {
      SendIsExplained(s, p, a.outcome, id, verdict);
    } else if a.ExecRecord? {
      OutcomeIsExplained(s, p, a.now, id, verdict);
    } else if a.Observe? {
      ObservationIsExplained(s, p, a.now, a.reply, id, verdict);
    } else if a.Record? {
      RecordIsExplained(s, p, a.now, id, verdict);
    } else if a.Escalate? {
      EscalationIsExplained(s, p, a.now, id, verdict);
    } else if a.PrepareSave? || a.ExecValidate? || a.Crash? {
      PreparationIsExplained(cfg, s, p, a, id, verdict);
    } else {
      QueryIsExplained(cfg, s, p, a, id, verdict);
    }
  }

  /** A process observes only attempts it read without a verdict. */
  ghost predicate ObserversOpen(s: State) {
    forall p :: p in s.procs && s.procs[p].Observing? ==> !Terminal(s.procs[p].attempt.state)
  }

  lemma MoverObservesOpen(cfg: Config, s: State, p: Pid, a: Action)
    requires p in s.procs && Continue(cfg, s, p, a).Some?
    ensures var s' := Continue(cfg, s, p, a).value;
            p in s'.procs && s'.procs[p].Observing? ==> a.QueryAttempt? && !Terminal(s'.procs[p].attempt.state)
  {
  }

  lemma ObserversStayOpen(cfg: Config, s: State, p: Pid, a: Action)
    requires ObserversOpen(s) && Step(cfg, s, p, a).Some?
    ensures ObserversOpen(Step(cfg, s, p, a).value)
  {
    OthersUnmoved(cfg, s, p, a);
    if p in s.procs {
      MoverObservesOpen(cfg, s, p, a);
    }
  }

  /** A verdict that a step leaves was there before, or the step learns it. */
  lemma StepIsExplained(cfg: Config, s: State, p: Pid, a: Action, id: string, verdict: AttemptState)
    requires Terminal(verdict) && ObserversOpen(s) && Step(cfg, s, p, a).Some?
    requires Carries(Step(cfg, s, p, a).value, id, verdict)
    ensures Carries(s, id, verdict) || Learns(s, p, a, id, verdict)
  {
    var s' := Step(cfg, s, p, a).value;
    if p in s.procs {
      ContinuationIsExplained(cfg, s, p, a, id, verdict);
    } else {
      EnteringIsExplained(cfg, s, p, a, id, verdict);
    }
    if !Stored(s', id, verdict) {
      var q :| PcCarries(s', q, id, verdict);
      OthersUnmoved(cfg, s, p, a);
      assert q != p ==> PcCarries(s, q, id, verdict);
    }
  }

  // ---------- the theorem ----------

  /** At some step of the run the verdict about the request was learned. */
  ghost predicate Learned(cfg: Config, events: seq<Event>, id: string, verdict: AttemptState) {
    exists n :: 0 <= n < |events| && LearnedAt(cfg, events, n, id, verdict)
  }

  ghost predicate LearnedAt(cfg: Config, events: seq<Event>, n: nat, id: string, verdict: AttemptState)
    requires n < |events|
  {
    Run(cfg, INITIAL, events[..n]).Some? &&
    Learns(Run(cfg, INITIAL, events[..n]).value, events[n].pid, events[n].action, id, verdict)
  }

  lemma RunLast(cfg: Config, s: State, events: seq<Event>)
    requires events != [] && Run(cfg, s, events).Some?
    ensures var n := |events| - 1;
            && Run(cfg, s, events[..n]).Some?
            && Step(cfg, Run(cfg, s, events[..n]).value, events[n].pid, events[n].action) == Run(cfg, s, events)
  {
    var n := |events| - 1;
    RunPrefix(cfg, s, events, n);
    assert events == events[..n] + [events[n]];
    RunAppend(cfg, s, events[..n], [events[n]]);
    assert [events[n]][1..] == [];
  }

  lemma {:induction false} RunPrefix(cfg: Config, s: State, events: seq<Event>, n: nat)
    requires n <= |events| && Run(cfg, s, events).Some?
    ensures Run(cfg, s, events[..n]).Some?
    decreases n
  {
    if n > 0 {
      RunPrefix(cfg, Step(cfg, s, events[0].pid, events[0].action).value, events[1..], n - 1);
      assert events[..n][1..] == events[1..][..n - 1];
    }
  }

  lemma {:induction false} RunKeepsObserversOpen(cfg: Config, events: seq<Event>)
    requires Run(cfg, INITIAL, events).Some?
    ensures ObserversOpen(Run(cfg, INITIAL, events).value)
    decreases |events|
  {
    if events != [] {
      var n := |events| - 1;
      RunLast(cfg, INITIAL, events);
      RunKeepsObserversOpen(cfg, events[..n]);
      ObserversStayOpen(cfg, Run(cfg, INITIAL, events[..n]).value, events[n].pid, events[n].action);
    }
  }

  lemma {:induction false} CarriedIsLearned(cfg: Config, events: seq<Event>, id: string, verdict: AttemptState)
    requires Run(cfg, INITIAL, events).Some? && Terminal(verdict)
    requires Carries(Run(cfg, INITIAL, events).value, id, verdict)
    ensures Learned(cfg, events, id, verdict)
    decreases |events|
  {
    if events != [] {
      var n := |events| - 1;
      RunLast(cfg, INITIAL, events);
      RunKeepsObserversOpen(cfg, events[..n]);
      var before := Run(cfg, INITIAL, events[..n]).value;
      StepIsExplained(cfg, before, events[n].pid, events[n].action, id, verdict);
      if Carries(before, id, verdict) {
        CarriedIsLearned(cfg, events[..n], id, verdict);
        var m :| 0 <= m < n && LearnedAt(cfg, events[..n], m, id, verdict);
        assert events[..n][..m] == events[..m];
        assert LearnedAt(cfg, events, m, id, verdict);
      } else {
        assert LearnedAt(cfg, events, n, id, verdict);
      }
    }
  }

  /** Along every run, an attempt is failed, or ever was, or was answered as rematerializable, only
      if its broadcast was rejected or the chain reported an error for it; it is confirmed, or ever
      was, only if the chain reported it settled without an error. */
  lemma VerdictsAreLearned(cfg: Config, events: seq<Event>, id: string)
    requires Run(cfg, INITIAL, events).Some?
    ensures var s := Run(cfg, INITIAL, events).value;
            && (id in s.attempts && s.attempts[id].state == FAILED ==> Learned(cfg, events, id, FAILED))
            && (FailureRecorded(id) in s.facts || RecoverAnswered(id, true) in s.facts ==> Learned(cfg, events, id, FAILED))
            && (id in s.attempts && s.attempts[id].state == CONFIRMED ==> Learned(cfg, events, id, CONFIRMED))
            && (id in s.attempts && s.attempts[id].confirmedAt.Some? ==> Learned(cfg, events, id, CONFIRMED))
  {
    var s := Run(cfg, INITIAL, events).value;
    InitialInv(cfg);
    RunKeepsInv(cfg, INITIAL, events);
    if Carries(s, id, FAILED) { CarriedIsLearned(cfg, events, id, FAILED); }
    if Carries(s, id, CONFIRMED) { CarriedIsLearned(cfg, events, id, CONFIRMED); }
  }
}
