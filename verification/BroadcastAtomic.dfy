/** Stronger guarantees when handlers do not interleave: every step is taken while no other
    process is inside a handler; a handler may still crash at any of its steps. */
module BroadcastAtomic {
  import opened Prelude
  import opened Preparations
  import opened Executions
  import opened Broadcast
  import opened BroadcastSafety

  ghost predicate Alone(s: State, p: Pid) {
    forall q :: q in s.procs ==> q == p
  }

  /** A run in which handlers do not interleave. */
  ghost predicate IsAtomic(cfg: Config, s: State, events: seq<Event>)
    decreases |events|
  {
    events == [] ||
    (Alone(s, events[0].pid) && Step(cfg, s, events[0].pid, events[0].action).Some? &&
     IsAtomic(cfg, Step(cfg, s, events[0].pid, events[0].action).value, events[1..]))
  }

  /** What a process read is still current. */
  ghost predicate PcCurrent(s: State, pc: Pc) {
    match pc
    case ExecRead(payload, row) => payload.requestId in s.preparations && s.preparations[payload.requestId] == row && row.state == PREPARED
    case ExecReady(requestId, _, _, _, _) => requestId in s.preparations && s.preparations[requestId].state == PREPARED
    case Querying(requestId, mode, _) => mode == RecoverFallback ==> requestId !in s.attempts
    case QueryingPreparation(requestId, _) => requestId !in s.attempts
    case Expiring(requestId, fenceAfter) => fenceAfter ==> requestId in s.preparations && requestId !in s.attempts
    case Observing(requestId, _, _, attempt) =>
      requestId in s.attempts && s.attempts[requestId] == attempt && !Terminal(attempt.state)
    case Recording(requestId, _, _, _, _, _) => requestId in s.attempts && !Terminal(s.attempts[requestId].state)
    case Concluding(requestId, _, _, attempt) => requestId in s.attempts && s.attempts[requestId] == attempt
    case Escalating(requestId, _) => requestId in s.attempts && !Terminal(s.attempts[requestId].state)
    case _ => true
  }

  ghost predicate PcsCurrent(s: State) {
    forall p :: p in s.procs ==> PcCurrent(s, s.procs[p])
  }

  /** A fenced request is expired and has no attempt. */
  ghost predicate FencesHold(s: State) {
    forall id :: Fenced(id) in s.facts ==>
      id in s.preparations && s.preparations[id].state == EXPIRED && id !in s.attempts
  }

  /** An attempt answered as rematerializable is failed. */
  ghost predicate AnswersCurrent(s: State) {
    forall id :: RecoverAnswered(id, true) in s.facts ==> id in s.attempts && s.attempts[id].state == FAILED
  }

  ghost predicate AtomicInv(s: State) {
    PcsCurrent(s) && FencesHold(s) && AnswersCurrent(s)
  }

  /** Terminal attempts keep their state. */
  ghost predicate TerminalKept(s: State, s': State) {
    forall id :: id in s.attempts && Terminal(s.attempts[id].state) ==>
      id in s'.attempts && s'.attempts[id].state == s.attempts[id].state
  }

  lemma EnterAtomically(cfg: Config, s: State, p: Pid, a: Action)
    requires AtomicInv(s) && Alone(s, p) && p !in s.procs && Enter(cfg, s, p, a).Some?
    ensures AtomicInv(Enter(cfg, s, p, a).value) && TerminalKept(s, Enter(cfg, s, p, a).value)
  {
  }

  lemma ValidateAtomically(cfg: Config, s: State, p: Pid, now: int, height: int)
    requires PcsFit(cfg, s) && AtomicInv(s) && Alone(s, p) && p in s.procs && s.procs[p].ExecRead?
    ensures var s' := ValidateStep(cfg, s, p, s.procs[p].payload, s.procs[p].row, now, height);
            AtomicInv(s') && TerminalKept(s, s')
  {
    assert PcCurrent(s, s.procs[p]);
  }

  lemma ClaimAtomically(cfg: Config, s: State, p: Pid, now: int)
    requires AtomicInv(s) && Alone(s, p) && p in s.procs && s.procs[p].ExecReady?
    ensures var s' := ClaimStep(s, p, s.procs[p], now); AtomicInv(s') && TerminalKept(s, s')
  {
    assert PcCurrent(s, s.procs[p]);
  }

  lemma SendAtomically(cfg: Config, s: State, p: Pid, outcome: SendOutcome)
    requires AtomicInv(s) && Alone(s, p) && p in s.procs && s.procs[p].ExecClaimed?
    ensures var s' := SendStep(s, p, s.procs[p], outcome); AtomicInv(s') && TerminalKept(s, s')
  {
  }

  lemma RecordOutcomeAtomically(cfg: Config, s: State, p: Pid, now: int)
    requires AtomicInv(s) && Alone(s, p) && p in s.procs && s.procs[p].ExecSent?
    ensures var s' := RecordOutcomeStep(s, p, s.procs[p], now); AtomicInv(s') && TerminalKept(s, s')
  {
  }

  lemma QueryAttemptAtomically(cfg: Config, s: State, p: Pid)
    requires AtomicInv(s) && Alone(s, p) && p in s.procs && s.procs[p].Querying?
    ensures var s' := QueryAttemptStep(s, p, s.procs[p]); AtomicInv(s') && TerminalKept(s, s')
  {
  }

  lemma QueryPreparationAtomically(cfg: Config, s: State, p: Pid, now: int, height: int)
    requires AtomicInv(s) && Alone(s, p) && p in s.procs && s.procs[p].QueryingPreparation?
    ensures var s' := QueryPreparationStep(s, p, s.procs[p], now, height); AtomicInv(s') && TerminalKept(s, s')
  {
    assert PcCurrent(s, s.procs[p]);
  }

  lemma ExpireAtomically(cfg: Config, s: State, p: Pid, now: int)
    requires AtomicInv(s) && Alone(s, p) && p in s.procs && s.procs[p].Expiring?
    ensures var s' := ExpireStep(s, p, s.procs[p], now); AtomicInv(s') && TerminalKept(s, s')
  {
    assert PcCurrent(s, s.procs[p]);
  }

  lemma ObserveAtomically(cfg: Config, s: State, p: Pid, now: int, reply: StatusReply)
    requires AtomicInv(s) && Alone(s, p) && p in s.procs && s.procs[p].Observing?
    ensures var s' := ObserveStep(s, p, s.procs[p], now, reply); AtomicInv(s') && TerminalKept(s, s')
  {
    assert PcCurrent(s, s.procs[p]);
  }

  lemma RecordAtomically(cfg: Config, s: State, p: Pid, now: int)
    requires AtomicInv(s) && Alone(s, p) && p in s.procs && s.procs[p].Recording?
    ensures var s' := RecordStep(s, p, s.procs[p], now); AtomicInv(s') && TerminalKept(s, s')
  {
    assert PcCurrent(s, s.procs[p]);
  }

  lemma RereadAtomically(cfg: Config, s: State, p: Pid)
    requires AtomicInv(s) && Alone(s, p) && p in s.procs && s.procs[p].Rereading?
    ensures var s' := RereadStep(s, p, s.procs[p]); AtomicInv(s') && TerminalKept(s, s')
  {
  }

  lemma ConcludeAtomically(cfg: Config, s: State, p: Pid, height: int)
    requires AtomicInv(s) && Alone(s, p) && p in s.procs && s.procs[p].Concluding?
    ensures var s' := ConcludeStep(s, p, s.procs[p], height); AtomicInv(s') && TerminalKept(s, s')
  {
    assert PcCurrent(s, s.procs[p]);
  }

  lemma EscalateAtomically(cfg: Config, s: State, p: Pid, now: int)
    requires AtomicInv(s) && Alone(s, p) && p in s.procs && s.procs[p].Escalating?
    ensures var s' := EscalateStep(s, p, s.procs[p], now); AtomicInv(s') && TerminalKept(s, s')
  {
    assert PcCurrent(s, s.procs[p]);
  }

  lemma SaveAtomically(cfg: Config, s: State, p: Pid, a: Action)
    requires AtomicInv(s) && Alone(s, p) && p in s.procs && a.PrepareSave? && Continue(cfg, s, p, a).Some?
    ensures AtomicInv(Continue(cfg, s, p, a).value) && TerminalKept(s, Continue(cfg, s, p, a).value)
  {
    PrepareSaveSavesFreshRow(cfg, s, p, a);
  }

  lemma CrashAtomically(cfg: Config, s: State, p: Pid)
    requires AtomicInv(s) && Alone(s, p) && p in s.procs
    ensures var s' := CrashStep(s, p, s.procs[p]); AtomicInv(s') && TerminalKept(s, s')
  {
  }

  lemma ExecuteAtomically(cfg: Config, s: State, p: Pid, a: Action)
    requires PcsFit(cfg, s) && AtomicInv(s) && Alone(s, p) && p in s.procs && Continue(cfg, s, p, a).Some?
    requires a.ExecValidate? || a.ExecClaim? || a.ExecSend? || a.ExecRecord?
    ensures AtomicInv(Continue(cfg, s, p, a).value) && TerminalKept(s, Continue(cfg, s, p, a).value)
  {
    if a.ExecValidate? {
      ValidateAtomically(cfg, s, p, a.now, a.height);
    } else if a.ExecClaim? {
      ClaimAtomically(cfg, s, p, a.now);
    } else if a.ExecSend? {
      SendAtomically(cfg, s, p, a.outcome);
    } else {
      RecordOutcomeAtomically(cfg, s, p, a.now);
    }
  }

  lemma QueryAtomically(cfg: Config, s: State, p: Pid, a: Action)
    requires PcsFit(cfg, s) && AtomicInv(s) && Alone(s, p) && p in s.procs && Continue(cfg, s, p, a).Some?
    requires a.QueryAttempt? || a.QueryPreparation? || a.ExpireRow? || a.Conclude?
    ensures AtomicInv(Continue(cfg, s, p, a).value) && TerminalKept(s, Continue(cfg, s, p, a).value)
  {
    if a.QueryAttempt? {
      QueryAttemptAtomically(cfg, s, p);
    } else if a.QueryPreparation? {
      QueryPreparationAtomically(cfg, s, p, a.now, a.height);
    } else if a.ExpireRow? {
      ExpireAtomically(cfg, s, p, a.now);
    } else {
      ConcludeAtomically(cfg, s, p, a.height);
    }
  }

  lemma RefreshAtomically(cfg: Config, s: State, p: Pid, a: Action)
    requires PcsFit(cfg, s) && AtomicInv(s) && Alone(s, p) && p in s.procs && Continue(cfg, s, p, a).Some?
    requires a.Observe? || a.Record? || a.Reread? || a.Escalate?
    ensures AtomicInv(Continue(cfg, s, p, a).value) && TerminalKept(s, Continue(cfg, s, p, a).value)
  {
    if a.Observe? {
      ObserveAtomically(cfg, s, p, a.now, a.reply);
    } else if a.Record? {
      RecordAtomically(cfg, s, p, a.now);
    } else if a.Reread? {
      RereadAtomically(cfg, s, p);
    } else {
      EscalateAtomically(cfg, s, p, a.now);
    }
  }

  lemma ContinueAtomically(cfg: Config, s: State, p: Pid, a: Action)
    requires PcsFit(cfg, s) && AtomicInv(s) && Alone(s, p) && p in s.procs && Continue(cfg, s, p, a).Some?
    ensures AtomicInv(Continue(cfg, s, p, a).value) && TerminalKept(s, Continue(cfg, s, p, a).value)
  {
    if a.ExecValidate? || a.ExecClaim? || a.ExecSend? || a.ExecRecord? {
      ExecuteAtomically(cfg, s, p, a);
    } else if a.QueryAttempt? || a.QueryPreparation? || a.ExpireRow? || a.Conclude? {
      QueryAtomically(cfg, s, p, a);
    } else if a.PrepareSave? {
      SaveAtomically(cfg, s, p, a);
    } else if a.Crash? {
      CrashAtomically(cfg, s, p);
    } else {
      RefreshAtomically(cfg, s, p, a);
    }
  }

  lemma StepAtomically(cfg: Config, s: State, p: Pid, a: Action)
    requires Inv(cfg, s) && AtomicInv(s) && Alone(s, p) && Step(cfg, s, p, a).Some?
    ensures AtomicInv(Step(cfg, s, p, a).value) && TerminalKept(s, Step(cfg, s, p, a).value)
  {
    if p in s.procs {
      ContinueAtomically(cfg, s, p, a);
    } else {
      EnterAtomically(cfg, s, p, a);
    }
  }

  lemma {:induction false} AtomicRunKeepsInv(cfg: Config, s: State, events: seq<Event>)
    requires Inv(cfg, s) && AtomicInv(s) && IsAtomic(cfg, s, events)
    ensures Run(cfg, s, events).Some?
    ensures var s' := Run(cfg, s, events).value; Inv(cfg, s') && AtomicInv(s') && TerminalKept(s, s') && Grows(s, s')
    decreases |events|
  {
    if events != [] {
      StepKeepsInv(cfg, s, events[0].pid, events[0].action);
      StepAtomically(cfg, s, events[0].pid, events[0].action);
      var next := Step(cfg, s, events[0].pid, events[0].action).value;
      AtomicRunKeepsInv(cfg, next, events[1..]);
      GrowsTransitively(s, next, Run(cfg, next, events[1..]).value);
    }
  }

  // ---------- the theorems ----------

  ghost predicate ReachableAtomically(cfg: Config, s: State) {
    exists events :: IsAtomic(cfg, INITIAL, events) && Run(cfg, INITIAL, events) == Some(s)
  }

  lemma ReachableAtomicallyInv(cfg: Config, s: State)
    requires ReachableAtomically(cfg, s)
    ensures Inv(cfg, s) && AtomicInv(s)
  {
    var events :| IsAtomic(cfg, INITIAL, events) && Run(cfg, INITIAL, events) == Some(s);
    InitialInv(cfg);
    AtomicRunKeepsInv(cfg, INITIAL, events);
  }

  /** Once recover answered failed_before_broadcast with permission to rematerialize, no
      continuation claims or sends the request, and none did before. */
  lemma FencedIsNeverSent(cfg: Config, s: State, events: seq<Event>, id: string)
    requires ReachableAtomically(cfg, s) && Fenced(id) in s.facts && IsAtomic(cfg, s, events)
    ensures Run(cfg, s, events).Some?
    ensures var later := Run(cfg, s, events).value;
            id !in later.attempts && id in later.preparations && later.preparations[id].state == EXPIRED &&
            forall i :: 0 <= i < |later.sends| ==> later.sends[i].requestId != id
  {
    ReachableAtomicallyInv(cfg, s);
    AtomicRunKeepsInv(cfg, s, events);
  }

  /** confirmed and failed attempts are never left. */
  lemma TerminalIsAbsorbing(cfg: Config, s: State, events: seq<Event>, id: string)
    requires ReachableAtomically(cfg, s) && IsAtomic(cfg, s, events)
    requires id in s.attempts && Terminal(s.attempts[id].state)
    ensures Run(cfg, s, events).Some? && id in Run(cfg, s, events).value.attempts
    ensures Run(cfg, s, events).value.attempts[id].state == s.attempts[id].state
  {
    ReachableAtomicallyInv(cfg, s);
    AtomicRunKeepsInv(cfg, s, events);
  }

  /** An attempt that recover reported as rematerializable is failed, through a recorded
      rejection or chain error, and stays failed. */
  lemma RematerializableStaysFailed(cfg: Config, s: State, events: seq<Event>, id: string)
    requires ReachableAtomically(cfg, s) && RecoverAnswered(id, true) in s.facts && IsAtomic(cfg, s, events)
    ensures Run(cfg, s, events).Some? && id in Run(cfg, s, events).value.attempts
    ensures Run(cfg, s, events).value.attempts[id].state == FAILED
    ensures FailureRecorded(id) in s.facts
  {
    ReachableAtomicallyInv(cfg, s);
    AtomicRunKeepsInv(cfg, s, events);
  }
}
