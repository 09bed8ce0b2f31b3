/** What interleaved handlers can break, and exactly when they can: fencing and terminal
    attempts hold under interleaving precisely while no process carries a stale read. */
module BroadcastRaces {
  import opened Prelude
  import opened Preparations
  import opened Executions
  import opened Broadcast
  import opened BroadcastSafety
  import opened BroadcastTheorems
  import opened BroadcastRuns

  // ---------- sending after the preparation expired ----------

  /** What the checks of a call ask of its payload, apart from the clock and the block height. */
  predicate Acceptable(cfg: Config, p: Pid, payload: ExecutePayload, prepared: Prepared) {
    var auth := payload.authorization;
    && payload.message == prepared.message && cfg.hash(payload.message) == prepared.messageHash
    && auth.singleUse && auth.requestId == payload.requestId
    && auth.commitmentHash == prepared.commitmentHash && auth.messageHash == prepared.messageHash
    && auth.signer == payload.messageSigner == prepared.signer
    && auth.issuedAt < auth.expiresAt <= prepared.expiresAt
    && cfg.authentic(auth)
    && Signable(cfg, p, payload.message) && cfg.signs(cfg.signer(p), payload.message, payload.signature)
  }

  /** Those are exactly the payloads that pass at some time and some height. */
  lemma AcceptableIffValidAtSomeTime(cfg: Config, p: Pid, payload: ExecutePayload, row: PreparationRow)
    ensures Acceptable(cfg, p, payload, row.prepared) <==>
              exists now, height :: ValidateExecution(cfg, p, payload, row, now, height).Valid?
  {
    if Acceptable(cfg, p, payload, row.prepared) {
      assert ValidateExecution(cfg, p, payload, row, payload.authorization.issuedAt, row.lastValidBlockHeight).Valid?;
    }
  }

  /** The checks pass exactly for an acceptable payload inside the time window of its authorization
      and up to the last valid height. */
  lemma ValidIffAcceptableInTime(cfg: Config, p: Pid, payload: ExecutePayload, row: PreparationRow, now: int, height: int)
    ensures ValidateExecution(cfg, p, payload, row, now, height).Valid? <==>
              && Acceptable(cfg, p, payload, row.prepared)
              && payload.authorization.issuedAt <= now < payload.authorization.expiresAt
              && height <= row.lastValidBlockHeight
  {
  }

  predicate BoundTo(auth: Authorization, requestId: string, prepared: Prepared) {
    && auth.requestId == requestId && auth.signer == prepared.signer
    && auth.commitmentHash == prepared.commitmentHash && auth.messageHash == prepared.messageHash
  }

  /** Every refusal names a defect of the call, and a defect of the message or of the binding is
      named before any later one. */
  lemma RefusalNamesDefect(cfg: Config, p: Pid, payload: ExecutePayload, row: PreparationRow, now: int, height: int)
    requires now < row.prepared.expiresAt && height <= row.lastValidBlockHeight
    ensures var v, prepared, auth := ValidateExecution(cfg, p, payload, row, now, height), row.prepared, payload.authorization;
            && (v == Invalid(PREPARED_MESSAGE_MISMATCH) <==> payload.message != prepared.message)
            && (v == Invalid(PREPARED_MESSAGE_HASH_MISMATCH) <==>
                  payload.message == prepared.message && cfg.hash(payload.message) != prepared.messageHash)
            && (payload.message == prepared.message && cfg.hash(payload.message) == prepared.messageHash ==>
                  && (v == Invalid(AUTHORIZATION_BINDING_MISMATCH) <==>
                        auth.singleUse && !BoundTo(auth, payload.requestId, prepared))
                  && (v == Invalid(AUTHORIZATION_EXPIRED) <==>
                        auth.singleUse && BoundTo(auth, payload.requestId, prepared) && auth.issuedAt < auth.expiresAt <= now)
                  && (v == Invalid(AUTHORIZATION_INVALID) ==>
                        || !auth.singleUse || now < auth.issuedAt || auth.expiresAt <= auth.issuedAt
                        || auth.expiresAt > prepared.expiresAt || !cfg.authentic(auth))
                  && (v == Invalid(LOCAL_POLICY_BLOCK) ==>
                        && !Signable(cfg, p, payload.message) && cfg.authentic(auth)
                        && payload.messageSigner == prepared.signer)
                  && (v == Invalid(MESSAGE_SIGNATURE_INVALID) ==>
                        && cfg.authentic(auth)
                        && (payload.messageSigner != prepared.signer
                            || !cfg.signs(cfg.signer(p), payload.message, payload.signature))))
  {
  }

  /** The process passed the prepared-state check for the request and can still claim it. */
  ghost predicate Armed(cfg: Config, s: State, p: Pid, id: string) {
    p in s.procs &&
    match s.procs[p]
    case ExecRead(payload, row) =>
      payload.requestId == id && Acceptable(cfg, p, payload, row.prepared) && !AuthorizationUsed(s.attempts, payload.authorization.id)
    case ExecReady(requestId, core, _, _, _) =>
      requestId == id && !AuthorizationUsed(s.attempts, core.authorization.id)
    case _ => false
  }

  ghost predicate Disarmed(cfg: Config, s: State, id: string) {
    && id in s.preparations && s.preparations[id].state == EXPIRED && id !in s.attempts
    && forall p :: !Armed(cfg, s, p, id)
  }

  lemma UsedStaysUsed(t: AttemptTable, t': AttemptTable, authorizationId: string)
    requires CoresKept(t, t') && AuthorizationUsed(t, authorizationId)
    ensures AuthorizationUsed(t', authorizationId)
  {
    var id :| id in t && t[id].core.authorization.id == authorizationId;
    assert id in t';
  }

  /** A process that did not move is no more armed than before. */
  lemma UnmovedStaysDisarmed(cfg: Config, s: State, s': State, q: Pid, id: string)
    requires !Armed(cfg, s, q, id) && CoresKept(s.attempts, s'.attempts)
    requires q in s'.procs ==> q in s.procs && s'.procs[q] == s.procs[q]
    ensures !Armed(cfg, s', q, id)
  {
    if Armed(cfg, s', q, id) {
      match s.procs[q] {
        case ExecRead(payload, row) =>
          if AuthorizationUsed(s.attempts, payload.authorization.id) {
            UsedStaysUsed(s.attempts, s'.attempts, payload.authorization.id);
          }
        case ExecReady(requestId, core, _, _, _) =>
          if AuthorizationUsed(s.attempts, core.authorization.id) {
            UsedStaysUsed(s.attempts, s'.attempts, core.authorization.id);
          }
        case _ =>
      }
    }
  }

  /** A claim step of a process that is not armed for the request does not claim it. */
  lemma ClaimingStaysDisarmed(cfg: Config, s: State, p: Pid, now: int, id: string)
    requires p in s.procs && s.procs[p].ExecReady? && !Armed(cfg, s, p, id) && id !in s.attempts
    ensures var s' := ClaimStep(s, p, s.procs[p], now); id !in s'.attempts && !Armed(cfg, s', p, id)
  {
  }

  /** Entering a handler arms nobody for an expired preparation. */
  lemma EnteringStaysDisarmed(cfg: Config, s: State, p: Pid, a: Action, id: string)
    requires Disarmed(cfg, s, id) && p !in s.procs && Enter(cfg, s, p, a).Some?
    ensures id !in Enter(cfg, s, p, a).value.attempts
    ensures !Armed(cfg, Enter(cfg, s, p, a).value, p, id)
  {
  }

  predicate Refreshes(a: Action) {
    a.QueryAttempt? || a.Observe? || a.Record? || a.Reread? || a.Conclude? || a.Escalate?
  }

  lemma RefreshStaysDisarmed(cfg: Config, s: State, p: Pid, a: Action, id: string)
    requires id !in s.attempts && p in s.procs && Continue(cfg, s, p, a).Some? && Refreshes(a)
    ensures id !in Continue(cfg, s, p, a).value.attempts
    ensures !Armed(cfg, Continue(cfg, s, p, a).value, p, id)
  {
  }

  /** Steps other than validation and claim neither arm a process nor add an attempt. */
  lemma OtherStepsStayDisarmed(cfg: Config, s: State, p: Pid, a: Action, id: string)
    requires id !in s.attempts && p in s.procs && Continue(cfg, s, p, a).Some?
    requires !a.ExecValidate? && !a.ExecClaim? && !Refreshes(a)
    ensures id !in Continue(cfg, s, p, a).value.attempts
    ensures !Armed(cfg, Continue(cfg, s, p, a).value, p, id)
  {
  }

  /** The moving process does not become armed, and it claims nothing it was not armed for. */
  lemma MoverStaysDisarmed(cfg: Config, s: State, p: Pid, a: Action, id: string)
    requires Disarmed(cfg, s, id) && Step(cfg, s, p, a).Some?
    ensures id !in Step(cfg, s, p, a).value.attempts
    ensures !Armed(cfg, Step(cfg, s, p, a).value, p, id)
  {
    assert !Armed(cfg, s, p, id);
    if p !in s.procs {
      EnteringStaysDisarmed(cfg, s, p, a, id);
    } else if a.ExecValidate? {
      ValidatingStaysDisarmed(cfg, s, p, a.now, a.height, id);
    } else if a.ExecClaim? {
      ClaimingStaysDisarmed(cfg, s, p, a.now, id);
    } else if Refreshes(a) {
      RefreshStaysDisarmed(cfg, s, p, a, id);
    } else {
      OtherStepsStayDisarmed(cfg, s, p, a, id);
    }
  }

  lemma ValidatingStaysDisarmed(cfg: Config, s: State, p: Pid, now: int, height: int, id: string)
    requires p in s.procs && s.procs[p].ExecRead? && !Armed(cfg, s, p, id)
    ensures !Armed(cfg, ValidateStep(cfg, s, p, s.procs[p].payload, s.procs[p].row, now, height), p, id)
  {
    AcceptableIffValidAtSomeTime(cfg, p, s.procs[p].payload, s.procs[p].row);
  }

  lemma EnteringLeavesOthers(cfg: Config, s: State, p: Pid, a: Action)
    requires p !in s.procs && Enter(cfg, s, p, a).Some?
    ensures Enter(cfg, s, p, a).value.procs - {p} == s.procs - {p}
  {
  }

  lemma ContinuingLeavesOthers(cfg: Config, s: State, p: Pid, a: Action)
    requires p in s.procs && Continue(cfg, s, p, a).Some?
    ensures Continue(cfg, s, p, a).value.procs - {p} == s.procs - {p}
  {
  }

  lemma OthersUnmoved(cfg: Config, s: State, p: Pid, a: Action)
    requires Step(cfg, s, p, a).Some?
    ensures forall q :: q != p && q in Step(cfg, s, p, a).value.procs ==>
              q in s.procs && Step(cfg, s, p, a).value.procs[q] == s.procs[q]
  {
    if p in s.procs { ContinuingLeavesOthers(cfg, s, p, a); } else { EnteringLeavesOthers(cfg, s, p, a); }
    var after := Step(cfg, s, p, a).value.procs;
    forall q | q != p && q in after ensures q in s.procs && after[q] == s.procs[q] {
      assert q in after - {p} && (after - {p})[q] == after[q];
      assert q in s.procs - {p};
    }
  }

  lemma StepStaysDisarmed(cfg: Config, s: State, p: Pid, a: Action, id: string)
    requires Inv(cfg, s) && Disarmed(cfg, s, id) && Step(cfg, s, p, a).Some?
    ensures Disarmed(cfg, Step(cfg, s, p, a).value, id)
  {
    var s' := Step(cfg, s, p, a).value;
    StepKeepsInv(cfg, s, p, a);
    MoverStaysDisarmed(cfg, s, p, a, id);
    OthersUnmoved(cfg, s, p, a);
    forall q ensures !Armed(cfg, s', q, id) {
      if q != p {
        UnmovedStaysDisarmed(cfg, s, s', q, id);
      }
    }
  }

  lemma {:induction false} RunStaysDisarmed(cfg: Config, s: State, events: seq<Event>, id: string)
    requires Inv(cfg, s) && Disarmed(cfg, s, id) && Run(cfg, s, events).Some?
    ensures Disarmed(cfg, Run(cfg, s, events).value, id)
    decreases |events|
  {
    if events != [] {
      StepKeepsInv(cfg, s, events[0].pid, events[0].action);
      StepStaysDisarmed(cfg, s, events[0].pid, events[0].action, id);
      RunStaysDisarmed(cfg, Step(cfg, s, events[0].pid, events[0].action).value, events[1..], id);
    }
  }

  /** An armed process can claim and send, whatever the rows say by now. */
  lemma ArmedCanSend(cfg: Config, s: State, p: Pid, id: string) returns (s': State)
    requires id !in s.attempts && Armed(cfg, s, p, id)
    ensures Does(cfg, s, p, s') && SentFor(s', id) && s'.preparations == s.preparations
  {
    var ready := s;
    if s.procs[p].ExecRead? {
      var pc := s.procs[p];
      AcceptableIffValidAtSomeTime(cfg, p, pc.payload, pc.row);
      var now, height :| ValidateExecution(cfg, p, pc.payload, pc.row, now, height).Valid?;
      ready := Validates(cfg, s, p, now, height);
    } else {
      DoesNothing(cfg, s, p);
    }
    var claimed := Claims(cfg, ready, p, 0);
    s' := Sends(cfg, claimed, p, Lost);
    DoesOn(cfg, s, p, ready, claimed);
    DoesOn(cfg, s, p, claimed, s');
  }

  lemma ArmedLeadsToSend(cfg: Config, s: State, p: Pid, id: string)
    requires id !in s.attempts && Armed(cfg, s, p, id)
    ensures exists s' :: Leads(cfg, s, s') && SentFor(s', id)
  {
    var s' := ArmedCanSend(cfg, s, p, id);
    DoesLeads(cfg, s, p, s');
  }

  lemma DisarmedIsNeverSent(cfg: Config, s: State, s': State, id: string)
    requires Inv(cfg, s) && Disarmed(cfg, s, id) && Leads(cfg, s, s')
    ensures !SentFor(s', id)
  {
    var events :| Run(cfg, s, events) == Some(s');
    RunStaysDisarmed(cfg, s, events, id);
    RunKeepsInv(cfg, s, events);
  }

  /** After a preparation expired unclaimed, its request can still be sent if and only if some
      process had already passed the prepared-state check. */
  lemma LateSendPossibleIffArmed(cfg: Config, s: State, id: string)
    requires Reachable(cfg, s)
    requires id in s.preparations && s.preparations[id].state == EXPIRED && id !in s.attempts
    ensures (exists s' :: Leads(cfg, s, s') && SentFor(s', id)) <==> exists p :: Armed(cfg, s, p, id)
  {
    ReachableInv(cfg, s);
    if p :| Armed(cfg, s, p, id) {
      ArmedLeadsToSend(cfg, s, p, id);
    } else {
      forall s' | Leads(cfg, s, s') ensures !SentFor(s', id) {
        DisarmedIsNeverSent(cfg, s, s', id);
      }
    }
  }

  // ---------- overwriting a terminal attempt ----------

  /** The process will or may write a state other than the stored one. */
  ghost predicate Stale(s: State, p: Pid, id: string)
    requires id in s.attempts
  {
    p in s.procs &&
    match s.procs[p]
    case Observing(requestId, _, _, _) => requestId == id
    case Recording(requestId, _, _, state, _, _) => requestId == id && state != s.attempts[id].state
    case Concluding(requestId, mode, _, attempt) =>
      requestId == id && mode == Recover && !Terminal(attempt.state) &&
      !(attempt.observation.Some? && attempt.observation.value.ChainStatus?)
    case Escalating(requestId, _) => requestId == id
    case _ => false
  }

  ghost predicate Settled(s: State, id: string, state: AttemptState) {
    && Terminal(state) && id in s.attempts && s.attempts[id].state == state
    && forall p :: !Stale(s, p, id)
  }

  lemma EnteringStaysSettled(cfg: Config, s: State, p: Pid, a: Action, id: string, state: AttemptState)
    requires Settled(s, id, state) && p !in s.procs && Enter(cfg, s, p, a).Some?
    ensures var s' := Enter(cfg, s, p, a).value;
            id in s'.attempts && s'.attempts[id].state == state && !Stale(s', p, id)
  {
  }

  lemma RefreshStaysSettled(cfg: Config, s: State, p: Pid, a: Action, id: string, state: AttemptState)
    requires Terminal(state) && id in s.attempts && s.attempts[id].state == state && !Stale(s, p, id)
    requires p in s.procs && Continue(cfg, s, p, a).Some? && Refreshes(a)
    ensures var s' := Continue(cfg, s, p, a).value;
            id in s'.attempts && s'.attempts[id].state == state && !Stale(s', p, id)
  {
  }

  lemma OtherStepsStaySettled(cfg: Config, s: State, p: Pid, a: Action, id: string, state: AttemptState)
    requires Terminal(state) && id in s.attempts && s.attempts[id].state == state && !Stale(s, p, id)
    requires p in s.procs && Continue(cfg, s, p, a).Some? && !Refreshes(a)
    ensures var s' := Continue(cfg, s, p, a).value;
            id in s'.attempts && s'.attempts[id].state == state && !Stale(s', p, id)
  {
  }

  lemma MoverStaysSettled(cfg: Config, s: State, p: Pid, a: Action, id: string, state: AttemptState)
    requires Settled(s, id, state) && Step(cfg, s, p, a).Some?
    ensures var s' := Step(cfg, s, p, a).value;
            id in s'.attempts && s'.attempts[id].state == state && !Stale(s', p, id)
  {
    assert !Stale(s, p, id);
    if p in s.procs {
      if Refreshes(a) {
        RefreshStaysSettled(cfg, s, p, a, id, state);
      } else {
        OtherStepsStaySettled(cfg, s, p, a, id, state);
      }
    } else {
      EnteringStaysSettled(cfg, s, p, a, id, state);
    }
  }

  lemma StepStaysSettled(cfg: Config, s: State, p: Pid, a: Action, id: string, state: AttemptState)
    requires Settled(s, id, state) && Step(cfg, s, p, a).Some?
    ensures Settled(Step(cfg, s, p, a).value, id, state)
  {
    var s' := Step(cfg, s, p, a).value;
    MoverStaysSettled(cfg, s, p, a, id, state);
    OthersUnmoved(cfg, s, p, a);
    forall q ensures !Stale(s', q, id) {
      if q != p { assert !Stale(s, q, id); }
    }
  }

  lemma {:induction false} RunStaysSettled(cfg: Config, s: State, events: seq<Event>, id: string, state: AttemptState)
    requires Settled(s, id, state) && Run(cfg, s, events).Some?
    ensures Settled(Run(cfg, s, events).value, id, state)
    decreases |events|
  {
    if events != [] {
      StepStaysSettled(cfg, s, events[0].pid, events[0].action, id, state);
      RunStaysSettled(cfg, Step(cfg, s, events[0].pid, events[0].action).value, events[1..], id, state);
    }
  }

  ghost predicate Overwritten(s: State, id: string, state: AttemptState) {
    id in s.attempts && s.attempts[id].state != state
  }

  lemma ObserverCanOverwrite(cfg: Config, s: State, p: Pid, id: string) returns (events: seq<Event>)
    requires id in s.attempts && Terminal(s.attempts[id].state) && Stale(s, p, id) && s.procs[p].Observing?
    ensures Run(cfg, s, events).Some? && Overwritten(Run(cfg, s, events).value, id, s.attempts[id].state)
  {
    var observed := ObserveStep(s, p, s.procs[p], 0, NoStatus);
    RunOne(cfg, observed, Event(p, Record(0)));
    RunCons(cfg, s, Event(p, Observe(0, NoStatus)), [Event(p, Record(0))]);
    events := [Event(p, Observe(0, NoStatus))] + [Event(p, Record(0))];
  }

  lemma RecoveryCanOverwrite(cfg: Config, s: State, p: Pid, id: string) returns (events: seq<Event>)
    requires id in s.attempts && Terminal(s.attempts[id].state) && Stale(s, p, id) && s.procs[p].Concluding?
    ensures Run(cfg, s, events).Some? && Overwritten(Run(cfg, s, events).value, id, s.attempts[id].state)
  {
    var height := s.procs[p].row.lastValidBlockHeight + 1;
    var escalating := ConcludeStep(s, p, s.procs[p], height);
    RunOne(cfg, escalating, Event(p, Escalate(0)));
    RunCons(cfg, s, Event(p, Conclude(height)), [Event(p, Escalate(0))]);
    events := [Event(p, Conclude(height))] + [Event(p, Escalate(0))];
  }

  lemma StaleCanOverwrite(cfg: Config, s: State, p: Pid, id: string) returns (events: seq<Event>)
    requires id in s.attempts && Terminal(s.attempts[id].state) && Stale(s, p, id)
    ensures Run(cfg, s, events).Some? && Overwritten(Run(cfg, s, events).value, id, s.attempts[id].state)
  {
    if s.procs[p].Observing? {
      events := ObserverCanOverwrite(cfg, s, p, id);
    } else if s.procs[p].Concluding? {
      events := RecoveryCanOverwrite(cfg, s, p, id);
    } else {
      events := [Event(p, if s.procs[p].Recording? then Record(0) else Escalate(0))];
      RunOne(cfg, s, events[0]);
    }
  }

  /** A confirmed or failed attempt can be overwritten in some continuation if and only if a
      process holds a read of it that predates the verdict. */
  lemma OverwritePossibleIffStale(cfg: Config, s: State, id: string)
    requires id in s.attempts && Terminal(s.attempts[id].state)
    ensures (exists events :: Run(cfg, s, events).Some? && Overwritten(Run(cfg, s, events).value, id, s.attempts[id].state))
        <==> exists p :: Stale(s, p, id)
  {
    if p :| Stale(s, p, id) {
      var events := StaleCanOverwrite(cfg, s, p, id);
    } else {
      forall events | Run(cfg, s, events).Some?
        ensures !Overwritten(Run(cfg, s, events).value, id, s.attempts[id].state)
      {
        RunStaysSettled(cfg, s, events, id, s.attempts[id].state);
      }
    }
  }
}
