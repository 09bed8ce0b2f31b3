/** One economic obligation and its sends: what would bound them to one, and exactly when a second
    one is possible. The lookup of authorize_and_execute expires a preparation whose time has
    passed without asking whether it was executed, and an expired row frees its obligation. */
module BroadcastObligations {
  import opened Prelude
  import opened Preparations
  import opened Executions
  import opened Broadcast
  import opened BroadcastSafety
  import opened BroadcastTheorems
  import opened BroadcastAtomic
  import opened BroadcastRuns
  import opened BroadcastRaces

  // ---------- the missing guards ----------

  /** No step of the run is of the given kind. */
  ghost predicate Avoids(cfg: Config, s: State, events: seq<Event>, bad: (State, Event) -> bool)
    decreases |events|
  {
    events == [] ||
    (!bad(s, events[0]) &&
     (Step(cfg, s, events[0].pid, events[0].action).Some? ==>
       Avoids(cfg, Step(cfg, s, events[0].pid, events[0].action).value, events[1..], bad)))
  }

  /** A live preparation is expired although its request was already claimed. */
  ghost predicate ExpiresAttempted(s: State, e: Event) {
    e.action.ExpireRow? && e.pid in s.procs && s.procs[e.pid].Expiring? &&
    var id := s.procs[e.pid].requestId;
    id in s.attempts && id in s.preparations && s.preparations[id].state == PREPARED
  }

  /** A request is claimed although its preparation has expired since it was read. */
  ghost predicate ClaimsExpired(s: State, e: Event) {
    e.action.ExecClaim? && e.pid in s.procs && s.procs[e.pid].ExecReady? &&
    var id := s.procs[e.pid].requestId;
    id in s.preparations && s.preparations[id].state == EXPIRED &&
    ClaimOutcome(s.attempts, id, s.procs[e.pid].core, e.action.now).Ok?
  }

  /** Every claimed request is still prepared. */
  ghost predicate AttemptsLive(s: State) {
    forall id :: id in s.attempts ==> id in s.preparations && s.preparations[id].state == PREPARED
  }

  lemma EnteringStaysLive(cfg: Config, s: State, p: Pid, a: Action)
    requires AttemptsLive(s) && p !in s.procs && Enter(cfg, s, p, a).Some?
    ensures AttemptsLive(Enter(cfg, s, p, a).value)
  {
  }

  lemma ClaimStaysLive(cfg: Config, s: State, p: Pid, now: int)
    requires PcsFit(cfg, s) && AttemptsLive(s) && p in s.procs && s.procs[p].ExecReady?
    requires !ClaimsExpired(s, Event(p, ExecClaim(now)))
    ensures AttemptsLive(ClaimStep(s, p, s.procs[p], now))
  {
    assert PcFits(cfg, s, s.procs[p]);
  }

  lemma ExpiryStaysLive(s: State, p: Pid, now: int)
    requires AttemptsLive(s) && p in s.procs && s.procs[p].Expiring?
    requires !ExpiresAttempted(s, Event(p, ExpireRow(now)))
    ensures AttemptsLive(ExpireStep(s, p, s.procs[p], now))
  {
  }

  lemma SaveStaysLive(cfg: Config, s: State, p: Pid, a: Action)
    requires AttemptsLive(s) && p in s.procs && a.PrepareSave? && Continue(cfg, s, p, a).Some?
    ensures AttemptsLive(Continue(cfg, s, p, a).value)
  {
    PrepareSaveSavesFreshRow(cfg, s, p, a);
    var id := s.procs[p].request.requestId;
    assert id in s.preparations ==> Matches(s.preparations, id, s.procs[p].request.obligationId, id);
  }

  lemma OtherStepsStayLive(cfg: Config, s: State, p: Pid, a: Action)
    requires p in s.procs && Continue(cfg, s, p, a).Some?
    requires !a.ExecClaim? && !a.ExpireRow? && !a.PrepareSave?
    ensures Continue(cfg, s, p, a).value.preparations == s.preparations
    ensures Continue(cfg, s, p, a).value.attempts.Keys == s.attempts.Keys
  {
  }

  lemma StepStaysLive(cfg: Config, s: State, p: Pid, a: Action)
    requires Inv(cfg, s) && AttemptsLive(s) && Step(cfg, s, p, a).Some?
    requires !ExpiresAttempted(s, Event(p, a)) && !ClaimsExpired(s, Event(p, a))
    ensures AttemptsLive(Step(cfg, s, p, a).value)
  {
    if p !in s.procs {
      EnteringStaysLive(cfg, s, p, a);
    } else if a.ExecClaim? {
      ClaimStaysLive(cfg, s, p, a.now);
    } else if a.ExpireRow? {
      ExpiryStaysLive(s, p, a.now);
    } else if a.PrepareSave? {
      SaveStaysLive(cfg, s, p, a);
    } else {
      OtherStepsStayLive(cfg, s, p, a);
      assert forall id :: id in Continue(cfg, s, p, a).value.attempts.Keys ==> id in s.attempts;
    }
  }

  lemma {:induction false} RunStaysLive(cfg: Config, s: State, events: seq<Event>)
    requires Inv(cfg, s) && AttemptsLive(s) && Run(cfg, s, events).Some?
    requires Avoids(cfg, s, events, ExpiresAttempted) && Avoids(cfg, s, events, ClaimsExpired)
    ensures Inv(cfg, Run(cfg, s, events).value) && AttemptsLive(Run(cfg, s, events).value)
    decreases |events|
  {
    if events != [] {
      assert events[0] == Event(events[0].pid, events[0].action);
      StepKeepsInv(cfg, s, events[0].pid, events[0].action);
      StepStaysLive(cfg, s, events[0].pid, events[0].action);
      RunStaysLive(cfg, Step(cfg, s, events[0].pid, events[0].action).value, events[1..]);
    }
  }

  /** All sends are for different obligations. */
  ghost predicate OneSendPerObligation(s: State) {
    forall i, j ::
      0 <= i < j < |s.sends| && s.sends[i].requestId in s.preparations && s.sends[j].requestId in s.preparations ==>
        s.preparations[s.sends[i].requestId].obligationId != s.preparations[s.sends[j].requestId].obligationId
  }

  lemma LiveMeansOneSend(cfg: Config, s: State)
    requires Inv(cfg, s) && AttemptsLive(s)
    ensures OneSendPerObligation(s)
  {
    forall i, j | 0 <= i < j < |s.sends|
      ensures s.sends[i].requestId in s.attempts && s.sends[j].requestId in s.attempts
      ensures s.sends[i].requestId != s.sends[j].requestId
    {
    }
  }

  /** One send per obligation, over all interleavings: no two sends share an obligation,
      when no claimed request is expired and no expired request is claimed. */
  lemma GuardedSendsOncePerObligation(cfg: Config, events: seq<Event>)
    requires Run(cfg, INITIAL, events).Some?
    requires Avoids(cfg, INITIAL, events, ExpiresAttempted) && Avoids(cfg, INITIAL, events, ClaimsExpired)
    ensures OneSendPerObligation(Run(cfg, INITIAL, events).value)
  {
    InitialInv(cfg);
    RunStaysLive(cfg, INITIAL, events);
    LiveMeansOneSend(cfg, Run(cfg, INITIAL, events).value);
  }

  lemma {:induction false} AtomicRunsClaimLiveRows(cfg: Config, s: State, events: seq<Event>)
    requires Inv(cfg, s) && AtomicInv(s) && IsAtomic(cfg, s, events)
    ensures Avoids(cfg, s, events, ClaimsExpired)
    decreases |events|
  {
    if events != [] {
      var p, a := events[0].pid, events[0].action;
      assert p in s.procs ==> PcCurrent(s, s.procs[p]);
      assert !ClaimsExpired(s, events[0]);
      StepKeepsInv(cfg, s, p, a);
      StepAtomically(cfg, s, p, a);
      AtomicRunsClaimLiveRows(cfg, Step(cfg, s, p, a).value, events[1..]);
    }
  }

  /** With uninterrupted handlers the one guard missing in the lookup is enough. */
  lemma GuardedHandlersSendOncePerObligation(cfg: Config, events: seq<Event>)
    requires IsAtomic(cfg, INITIAL, events) && Avoids(cfg, INITIAL, events, ExpiresAttempted)
    ensures Run(cfg, INITIAL, events).Some? && OneSendPerObligation(Run(cfg, INITIAL, events).value)
  {
    InitialInv(cfg);
    AtomicRunKeepsInv(cfg, INITIAL, events);
    AtomicRunsClaimLiveRows(cfg, INITIAL, events);
    GuardedSendsOncePerObligation(cfg, events);
  }

  // ---------- when an obligation can be sent again ----------

  predicate IsOf(t: PreparationTable, id: string, obligationId: string) {
    id in t && t[id].obligationId == obligationId
  }

  /** The process has claimed the request and not yet sent it, or can still claim it. */
  ghost predicate Poised(cfg: Config, s: State, p: Pid, id: string) {
    || (p in s.procs && s.procs[p].ExecClaimed? && s.procs[p].requestId == id)
    || (id !in s.attempts && Armed(cfg, s, p, id))
  }

  /** A payload with an unused authorization that process p would accept for the preparation. */
  ghost predicate Executable(cfg: Config, s: State, p: Pid, payload: ExecutePayload, prepared: Prepared) {
    Acceptable(cfg, p, payload, prepared) && !AuthorizationUsed(s.attempts, payload.authorization.id)
  }

  /** The stored preparation is live, unclaimed and can be executed. */
  ghost predicate RowOpen(cfg: Config, s: State, id: string) {
    && id in s.preparations && s.preparations[id].state == PREPARED && id !in s.attempts
    && exists p, payload: ExecutePayload ::
         payload.requestId == id && Executable(cfg, s, p, payload, s.preparations[id].prepared)
  }

  /** What process p answers to the request when it prepares the message. */
  function Plan(cfg: Config, p: Pid, request: PrepareRequest, message: string, simulation: string, now: int): Prepared {
    MakeRow(cfg, p, request, message, simulation, 0, now, now).prepared
  }

  /** An unused request id with a message that process p prepares and process q executes. */
  ghost predicate Admissible(cfg: Config, s: State, p: Pid, request: PrepareRequest, message: string, simulation: string,
                             now: int, q: Pid, payload: ExecutePayload)
  {
    && request.requestId !in s.preparations && payload.requestId == request.requestId
    && Signable(cfg, p, message)
    && Executable(cfg, s, q, payload, Plan(cfg, p, request, message, simulation, now))
  }

  ghost predicate PlanOpen(cfg: Config, s: State, obligationId: string) {
    exists p, request: PrepareRequest, message, simulation, now, q, payload ::
      request.obligationId == obligationId && Admissible(cfg, s, p, request, message, simulation, now, q, payload)
  }

  ghost predicate ProcessOpen(cfg: Config, s: State, obligationId: string) {
    exists p, id :: IsOf(s.preparations, id, obligationId) && Poised(cfg, s, p, id)
  }

  ghost predicate RequestOpen(cfg: Config, s: State, obligationId: string) {
    exists id :: IsOf(s.preparations, id, obligationId) && RowOpen(cfg, s, id)
  }

  /** A process is poised for a request of the obligation, or the live request of the obligation
      can be executed, or there is an admissible plan for a new request. */
  ghost predicate Open(cfg: Config, s: State, obligationId: string) {
    ProcessOpen(cfg, s, obligationId) || RequestOpen(cfg, s, obligationId) || PlanOpen(cfg, s, obligationId)
  }

  // ---------- an open obligation can be sent ----------

  /** Another request of the obligation has been sent since. */
  ghost predicate SendsAnother(s: State, s': State, obligationId: string) {
    exists id :: IsOf(s'.preparations, id, obligationId) && SentFor(s', id) && !SentFor(s, id)
  }

  lemma UnattemptedIsUnsent(cfg: Config, s: State, id: string)
    requires Inv(cfg, s) && id !in s.attempts
    ensures !SentFor(s, id)
  {
  }

  lemma PoisedCanSend(cfg: Config, s: State, p: Pid, id: string) returns (s': State)
    requires Inv(cfg, s) && Poised(cfg, s, p, id)
    ensures Leads(cfg, s, s') && s'.preparations == s.preparations && SentFor(s', id) && !SentFor(s, id)
  {
    if id !in s.attempts && Armed(cfg, s, p, id) {
      s' := ArmedCanSend(cfg, s, p, id);
      UnattemptedIsUnsent(cfg, s, id);
    } else {
      s' := Sends(cfg, s, p, Lost);
    }
    DoesLeads(cfg, s, p, s');
  }

  /** A live row that can be executed can be sent, by a process that drops what it was doing. */
  lemma RowCanSend(cfg: Config, s: State, p: Pid, payload: ExecutePayload, id: string) returns (s': State)
    requires id in s.preparations && s.preparations[id].state == PREPARED && id !in s.attempts
    requires payload.requestId == id && Executable(cfg, s, p, payload, s.preparations[id].prepared)
    ensures Leads(cfg, s, s') && s'.preparations == s.preparations && SentFor(s', id)
  {
    var idle := DropsOut(cfg, s, p);
    var armed := Reads(cfg, idle, p, payload);
    s' := ArmedCanSend(cfg, armed, p, id);
    DoesOn(cfg, s, p, idle, armed);
    DoesOn(cfg, s, p, armed, s');
    DoesLeads(cfg, s, p, s');
  }

  /** A call that comes late expires a live row, whatever became of its request. */
  lemma LateCallExpires(cfg: Config, s: State, id: string) returns (s': State)
    requires id in s.preparations && s.preparations[id].state == PREPARED
    ensures Leads(cfg, s, s') && s'.attempts == s.attempts && s'.sends == s.sends
    ensures s'.preparations == s.preparations[id := s.preparations[id].(state := EXPIRED, updatedAt := 0)]
  {
    var idle := DropsOut(cfg, s, 0);
    var payload := ExecutePayload(id, "", Authorization("", "", "", "", "", true, 0, 0, ""), "", "");
    var late := FindsLate(cfg, idle, 0, payload);
    DoesOn(cfg, s, 0, idle, late);
    DoesLeads(cfg, s, 0, late);
    s' := Expires(cfg, late, 0, 0);
    StepLeads(cfg, late, 0, ExpireRow(0));
    LeadsOn(cfg, s, late, s');
  }

  /** The live row of an obligation can always be expired: by a call that comes late. */
  lemma CanBeFreed(cfg: Config, s: State, obligationId: string) returns (s': State)
    requires ObligationsExclusive(s.preparations)
    ensures Leads(cfg, s, s') && ObligationFree(s'.preparations, obligationId)
    ensures s'.preparations.Keys == s.preparations.Keys && s'.attempts == s.attempts && s'.sends == s.sends
  {
    if id :| IsOf(s.preparations, id, obligationId) && s.preparations[id].state == PREPARED {
      s' := LateCallExpires(cfg, s, id);
    } else {
      s' := s;
      DoesNothing(cfg, s, 0);
    }
  }

  /** An admissible plan can be prepared and sent after the obligation was freed. */
  lemma PlanCanSend(cfg: Config, s: State, p: Pid, request: PrepareRequest, message: string, simulation: string, now: int,
                    q: Pid, payload: ExecutePayload)
    returns (s': State)
    requires Inv(cfg, s) && Admissible(cfg, s, p, request, message, simulation, now, q, payload)
    ensures Leads(cfg, s, s') && IsOf(s'.preparations, request.requestId, request.obligationId)
    ensures SentFor(s', request.requestId) && !SentFor(s, request.requestId)
  {
    var id := request.requestId;
    assert id !in s.attempts by { assert id in s.attempts ==> AttemptBound(cfg, s, id); }
    UnattemptedIsUnsent(cfg, s, id);
    var free := CanBeFreed(cfg, s, request.obligationId);
    assert id !in free.preparations.Keys;
    var idle := DropsOut(cfg, free, p);
    var saved := Prepares(cfg, idle, p, request, message, simulation, 0, now);
    DoesOn(cfg, free, p, idle, saved);
    DoesLeads(cfg, free, p, saved);
    LeadsOn(cfg, s, free, saved);
    s' := RowCanSend(cfg, saved, q, payload, id);
    LeadsOn(cfg, s, saved, s');
  }

  lemma OpenCanSend(cfg: Config, s: State, obligationId: string)
    requires Inv(cfg, s) && Open(cfg, s, obligationId)
    ensures exists s' :: Leads(cfg, s, s') && SendsAnother(s, s', obligationId)
  {
    var s';
    if ProcessOpen(cfg, s, obligationId) {
      var p, id :| IsOf(s.preparations, id, obligationId) && Poised(cfg, s, p, id);
      s' := PoisedCanSend(cfg, s, p, id);
    } else if RequestOpen(cfg, s, obligationId) {
      var id :| IsOf(s.preparations, id, obligationId) && RowOpen(cfg, s, id);
      var p, payload: ExecutePayload :| payload.requestId == id && Executable(cfg, s, p, payload, s.preparations[id].prepared);
      UnattemptedIsUnsent(cfg, s, id);
      s' := RowCanSend(cfg, s, p, payload, id);
    } else {
      var p, request: PrepareRequest, message, simulation, now, q, payload :|
        request.obligationId == obligationId && Admissible(cfg, s, p, request, message, simulation, now, q, payload);
      s' := PlanCanSend(cfg, s, p, request, message, simulation, now, q, payload);
    }
    assert SendsAnother(s, s', obligationId);
  }

  // ---------- nothing else can send it ----------

  lemma UnusedBefore(cfg: Config, s: State, s': State, p: Pid, payload: ExecutePayload, prepared: Prepared)
    requires CoresKept(s.attempts, s'.attempts) && Executable(cfg, s', p, payload, prepared)
    ensures Executable(cfg, s, p, payload, prepared)
  {
    if AuthorizationUsed(s.attempts, payload.authorization.id) {
      UsedStaysUsed(s.attempts, s'.attempts, payload.authorization.id);
    }
  }

  /** Plans only become impossible. */
  lemma PlansWereOpen(cfg: Config, s: State, s': State, obligationId: string)
    requires Grows(s, s') && PlanOpen(cfg, s', obligationId)
    ensures PlanOpen(cfg, s, obligationId)
  {
    var p, request: PrepareRequest, message, simulation, now, q, payload :|
      request.obligationId == obligationId && Admissible(cfg, s', p, request, message, simulation, now, q, payload);
    UnusedBefore(cfg, s, s', q, payload, Plan(cfg, p, request, message, simulation, now));
    assert Admissible(cfg, s, p, request, message, simulation, now, q, payload);
  }

  /** A row that was not there before was saved for an admitted request. */
  lemma NewRowsArePlanned(cfg: Config, s: State, p: Pid, a: Action, id: string)
    requires Step(cfg, s, p, a).Some? && id in Step(cfg, s, p, a).value.preparations && id !in s.preparations
    ensures p in s.procs && a.PrepareSave? && s.procs[p].Preparing? && s.procs[p].request.requestId == id
    ensures Signable(cfg, p, a.message)
    ensures var row := Step(cfg, s, p, a).value.preparations[id];
            row.obligationId == s.procs[p].request.obligationId &&
            row.prepared == Plan(cfg, p, s.procs[p].request, a.message, a.simulation, a.now)
  {
  }

  lemma RequestsWereOpen(cfg: Config, s: State, p: Pid, a: Action, obligationId: string)
    requires Step(cfg, s, p, a).Some? && Grows(s, Step(cfg, s, p, a).value)
    requires RequestOpen(cfg, Step(cfg, s, p, a).value, obligationId)
    ensures RequestOpen(cfg, s, obligationId) || PlanOpen(cfg, s, obligationId)
  {
    var s' := Step(cfg, s, p, a).value;
    var id :| IsOf(s'.preparations, id, obligationId) && RowOpen(cfg, s', id);
    var q, payload: ExecutePayload :| payload.requestId == id && Executable(cfg, s', q, payload, s'.preparations[id].prepared);
    UnusedBefore(cfg, s, s', q, payload, s'.preparations[id].prepared);
    if id in s.preparations {
      assert RowOpen(cfg, s, id);
    } else {
      NewRowsArePlanned(cfg, s, p, a, id);
      assert Admissible(cfg, s, p, s.procs[p].request, a.message, a.simulation, a.now, q, payload);
    }
  }

  lemma UnmovedWasPoised(cfg: Config, s: State, s': State, q: Pid, id: string)
    requires Grows(s, s') && Poised(cfg, s', q, id)
    requires q in s'.procs ==> q in s.procs && s'.procs[q] == s.procs[q]
    ensures Poised(cfg, s, q, id)
  {
    if id !in s'.attempts && !Armed(cfg, s, q, id) {
      UnmovedStaysDisarmed(cfg, s, s', q, id);
    }
  }

  lemma EntrantWasOpen(cfg: Config, s: State, p: Pid, a: Action, id: string)
    requires p !in s.procs && Enter(cfg, s, p, a).Some? && Poised(cfg, Enter(cfg, s, p, a).value, p, id)
    ensures RowOpen(cfg, s, id)
  {
    assert Executable(cfg, s, p, a.payload, s.preparations[id].prepared);
  }

  lemma ClaimantWasPoised(cfg: Config, s: State, p: Pid, now: int, id: string)
    requires p in s.procs && s.procs[p].ExecReady? && Poised(cfg, ClaimStep(s, p, s.procs[p], now), p, id)
    ensures Poised(cfg, s, p, id)
  {
  }

  lemma ValidatorWasPoised(cfg: Config, s: State, p: Pid, now: int, height: int, id: string)
    requires p in s.procs && s.procs[p].ExecRead?
    requires Poised(cfg, ValidateStep(cfg, s, p, s.procs[p].payload, s.procs[p].row, now, height), p, id)
    ensures Poised(cfg, s, p, id)
  {
    if !Armed(cfg, s, p, id) {
      ValidatingStaysDisarmed(cfg, s, p, now, height, id);
    }
  }

  lemma SendersAreNotPoised(cfg: Config, s: State, p: Pid, a: Action, id: string)
    requires p in s.procs && Continue(cfg, s, p, a).Some?
    requires a.ExecSend? || a.ExecRecord? || a.Crash? || a.PrepareSave? || a.ExpireRow?
    ensures !Poised(cfg, Continue(cfg, s, p, a).value, p, id)
  {
  }

  lemma QueriesAreNotPoised(cfg: Config, s: State, p: Pid, a: Action, id: string)
    requires p in s.procs && Continue(cfg, s, p, a).Some?
    requires a.QueryPreparation? || Refreshes(a)
    ensures !Poised(cfg, Continue(cfg, s, p, a).value, p, id)
  {
  }

  /** The moving process is poised afterwards only if it was, or the row it read was open. */
  lemma MoverWasOpen(cfg: Config, s: State, p: Pid, a: Action, id: string)
    requires Step(cfg, s, p, a).Some? && Poised(cfg, Step(cfg, s, p, a).value, p, id)
    ensures Poised(cfg, s, p, id) || RowOpen(cfg, s, id)
  {
    if p !in s.procs {
      EntrantWasOpen(cfg, s, p, a, id);
    } else if a.ExecValidate? {
      ValidatorWasPoised(cfg, s, p, a.now, a.height, id);
    } else if a.ExecClaim? {
      ClaimantWasPoised(cfg, s, p, a.now, id);
    } else if a.QueryPreparation? || Refreshes(a) {
      QueriesAreNotPoised(cfg, s, p, a, id);
    } else {
      SendersAreNotPoised(cfg, s, p, a, id);
    }
  }

  /** The request a process is poised for is stored. */
  lemma PoisedIsStored(cfg: Config, s: State, p: Pid, id: string)
    requires PcsFit(cfg, s) && Poised(cfg, s, p, id)
    ensures id in s.preparations
  {
    assert PcFits(cfg, s, s.procs[p]);
  }

  lemma ProcessesWereOpen(cfg: Config, s: State, p: Pid, a: Action, obligationId: string)
    requires Inv(cfg, s) && Step(cfg, s, p, a).Some? && Grows(s, Step(cfg, s, p, a).value)
    requires ProcessOpen(cfg, Step(cfg, s, p, a).value, obligationId)
    ensures ProcessOpen(cfg, s, obligationId) || RequestOpen(cfg, s, obligationId)
  {
    var s' := Step(cfg, s, p, a).value;
    var q, id :| IsOf(s'.preparations, id, obligationId) && Poised(cfg, s', q, id);
    if q == p {
      MoverWasOpen(cfg, s, p, a, id);
    } else {
      OthersUnmoved(cfg, s, p, a);
      UnmovedWasPoised(cfg, s, s', q, id);
    }
    if Poised(cfg, s, q, id) {
      PoisedIsStored(cfg, s, q, id);
    }
    assert IsOf(s.preparations, id, obligationId);
  }

  /** A step sends only what its process was poised for. */
  lemma SenderWasPoised(cfg: Config, s: State, p: Pid, a: Action, id: string)
    requires Step(cfg, s, p, a).Some? && SentFor(Step(cfg, s, p, a).value, id) && !SentFor(s, id)
    ensures Poised(cfg, s, p, id)
  {
    OnlySendSends(cfg, s, p, a);
  }

  lemma ClosedStepSendsNothing(cfg: Config, s: State, p: Pid, a: Action, obligationId: string)
    requires Inv(cfg, s) && !Open(cfg, s, obligationId) && Step(cfg, s, p, a).Some?
    ensures !Open(cfg, Step(cfg, s, p, a).value, obligationId)
    ensures !SendsAnother(s, Step(cfg, s, p, a).value, obligationId)
  {
    var s' := Step(cfg, s, p, a).value;
    StepKeepsInv(cfg, s, p, a);
    if ProcessOpen(cfg, s', obligationId) { ProcessesWereOpen(cfg, s, p, a, obligationId); }
    if RequestOpen(cfg, s', obligationId) { RequestsWereOpen(cfg, s, p, a, obligationId); }
    if PlanOpen(cfg, s', obligationId) { PlansWereOpen(cfg, s, s', obligationId); }
    forall id | SentFor(s', id) && !SentFor(s, id) ensures !IsOf(s'.preparations, id, obligationId) {
      SenderWasPoised(cfg, s, p, a, id);
      PoisedIsStored(cfg, s, p, id);
    }
  }

  lemma {:induction false} ClosedRunSendsNothing(cfg: Config, s: State, events: seq<Event>, obligationId: string)
    requires Inv(cfg, s) && !Open(cfg, s, obligationId) && Run(cfg, s, events).Some?
    ensures !SendsAnother(s, Run(cfg, s, events).value, obligationId)
    decreases |events|
  {
    if events != [] {
      var p, a := events[0].pid, events[0].action;
      var next := Step(cfg, s, p, a).value;
      StepKeepsInv(cfg, s, p, a);
      ClosedStepSendsNothing(cfg, s, p, a, obligationId);
      ClosedRunSendsNothing(cfg, next, events[1..], obligationId);
      RunKeepsInv(cfg, next, events[1..]);
      if SendsAnother(s, Run(cfg, next, events[1..]).value, obligationId) {
        SendsAnotherInParts(s, next, Run(cfg, next, events[1..]).value, obligationId);
      }
    }
  }

  lemma SendsAnotherInParts(s: State, s1: State, s2: State, obligationId: string)
    requires Grows(s1, s2) && SendsAnother(s, s2, obligationId)
    requires forall id :: SentFor(s1, id) ==> id in s1.preparations
    ensures SendsAnother(s, s1, obligationId) || SendsAnother(s1, s2, obligationId)
  {
    var id :| IsOf(s2.preparations, id, obligationId) && SentFor(s2, id) && !SentFor(s, id);
    if SentFor(s1, id) {
      assert IsOf(s1.preparations, id, obligationId);
    }
  }

  /** Whatever was sent for an obligation, some continuation sends a request of it that was not
      sent before if and only if the obligation is open: a process is poised for one, or its live
      unclaimed row can be executed, or there is an admissible plan for a new one. That the
      obligation is free is no condition: CanBeFreed expires any row, also an executed one. */
  lemma SentAgainIffOpen(cfg: Config, s: State, obligationId: string)
    requires Reachable(cfg, s)
    ensures (exists s' :: Leads(cfg, s, s') && SendsAnother(s, s', obligationId)) <==> Open(cfg, s, obligationId)
  {
    ReachableInv(cfg, s);
    if Open(cfg, s, obligationId) {
      OpenCanSend(cfg, s, obligationId);
    } else {
      forall s' | Leads(cfg, s, s') ensures !SendsAnother(s, s', obligationId) {
        var events :| Run(cfg, s, events) == Some(s');
        ClosedRunSendsNothing(cfg, s, events, obligationId);
      }
    }
  }
}
