/** Building blocks of runs: what one process can do from a given state, without expiring a row. */
module BroadcastRuns {
  import opened Prelude
  import opened Preparations
  import opened Executions
  import opened Broadcast

  ghost predicate SentFor(s: State, id: string) {
    exists i :: 0 <= i < |s.sends| && s.sends[i].requestId == id
  }

  /** Only process p moves, and no row is expired. */
  ghost predicate Quiet(events: seq<Event>, p: Pid) {
    forall e <- events :: e.pid == p && !e.action.ExpireRow?
  }

  /** Process p can take the system from s to s', expiring no row. */
  ghost predicate Does(cfg: Config, s: State, p: Pid, s': State) {
    exists events :: Run(cfg, s, events) == Some(s') && Quiet(events, p)
  }

  ghost predicate Leads(cfg: Config, s: State, s': State) {
    exists events :: Run(cfg, s, events) == Some(s')
  }

  lemma {:induction false} RunAppend(cfg: Config, s: State, before: seq<Event>, after: seq<Event>)
    requires Run(cfg, s, before).Some?
    ensures Run(cfg, s, before + after) == Run(cfg, Run(cfg, s, before).value, after)
    decreases |before|
  {
    if before == [] {
      assert [] + after == after;
    } else {
      RunAppend(cfg, Step(cfg, s, before[0].pid, before[0].action).value, before[1..], after);
      assert before + after == [before[0]] + (before[1..] + after);
      RunCons(cfg, s, before[0], before[1..] + after);
    }
  }

  lemma LeadsOn(cfg: Config, s: State, s1: State, s2: State)
    requires Leads(cfg, s, s1) && Leads(cfg, s1, s2)
    ensures Leads(cfg, s, s2)
  {
    var before :| Run(cfg, s, before) == Some(s1);
    var after :| Run(cfg, s1, after) == Some(s2);
    RunAppend(cfg, s, before, after);
  }

  lemma StepLeads(cfg: Config, s: State, p: Pid, a: Action)
    requires Step(cfg, s, p, a).Some?
    ensures Leads(cfg, s, Step(cfg, s, p, a).value)
  {
    RunOne(cfg, s, Event(p, a));
  }

  lemma DoesLeads(cfg: Config, s: State, p: Pid, s': State)
    requires Does(cfg, s, p, s')
    ensures Leads(cfg, s, s')
  {
  }

  lemma DoesNothing(cfg: Config, s: State, p: Pid)
    ensures Does(cfg, s, p, s)
  {
    assert Run(cfg, s, []) == Some(s) && Quiet([], p);
  }

  lemma DoesNext(cfg: Config, s: State, p: Pid, s1: State, a: Action) returns (s2: State)
    requires Does(cfg, s, p, s1) && Step(cfg, s1, p, a).Some? && !a.ExpireRow?
    ensures s2 == Step(cfg, s1, p, a).value && Does(cfg, s, p, s2)
  {
    var events :| Run(cfg, s, events) == Some(s1) && Quiet(events, p);
    RunSnoc(cfg, s, events, Event(p, a));
    s2 := Step(cfg, s1, p, a).value;
    assert Quiet(events + [Event(p, a)], p);
  }

  lemma DoesOn(cfg: Config, s: State, p: Pid, s1: State, s2: State)
    requires Does(cfg, s, p, s1) && Does(cfg, s1, p, s2)
    ensures Does(cfg, s, p, s2)
  {
    var before :| Run(cfg, s, before) == Some(s1) && Quiet(before, p);
    var after :| Run(cfg, s1, after) == Some(s2) && Quiet(after, p);
    RunAppend(cfg, s, before, after);
    assert Quiet(before + after, p);
  }

  /** Any process can be made idle, by a crash if need be. */
  lemma DropsOut(cfg: Config, s: State, p: Pid) returns (s': State)
    ensures Does(cfg, s, p, s') && s'.procs == s.procs - {p}
    ensures s'.preparations == s.preparations && s'.attempts == s.attempts && s'.sends == s.sends
  {
    DoesNothing(cfg, s, p);
    if p in s.procs {
      s' := DoesNext(cfg, s, p, s, Crash);
    } else {
      s' := s;
    }
  }

  /** The message has one required signature, and the process's signer pays for it. */
  predicate Signable(cfg: Config, p: Pid, message: string) {
    cfg.feePayer(message) == cfg.signer(p) && cfg.requiredSignatures(message) == 1
  }

  /** prepare, for a fresh request of a free obligation. */
  lemma Prepares(cfg: Config, s: State, p: Pid, request: PrepareRequest, message: string, simulation: string,
                 lastValidBlockHeight: int, now: int)
    returns (s': State)
    requires p !in s.procs && Signable(cfg, p, message)
    requires request.requestId !in s.preparations && ObligationFree(s.preparations, request.obligationId)
    ensures Does(cfg, s, p, s')
    ensures s'.procs == s.procs && s'.attempts == s.attempts && s'.sends == s.sends
    ensures s'.preparations ==
              s.preparations[request.requestId := MakeRow(cfg, p, request, message, simulation, lastValidBlockHeight, now, now)]
  {
    assert Selects(s.preparations, request.requestId, request.obligationId, None);
    DoesNothing(cfg, s, p);
    var s1 := DoesNext(cfg, s, p, s, PrepareBegin(request, request.planExpiry - 1, None));
    assert s1 == Goto(s, p, Preparing(request));
    s' := DoesNext(cfg, s, p, s1, PrepareSave(message, simulation, lastValidBlockHeight, now, None, now));
    assert s'.procs == s.procs;
  }

  /** The lookup of authorize_and_execute, for a prepared request. */
  lemma Reads(cfg: Config, s: State, p: Pid, payload: ExecutePayload) returns (s': State)
    requires p !in s.procs
    requires payload.requestId in s.preparations && s.preparations[payload.requestId].state == PREPARED
    ensures Does(cfg, s, p, s')
    ensures s' == s.(procs := s.procs[p := ExecRead(payload, s.preparations[payload.requestId])])
  {
    DoesNothing(cfg, s, p);
    s' := DoesNext(cfg, s, p, s, ExecBegin(payload));
  }

  /** Its checks, when they pass. */
  lemma Validates(cfg: Config, s: State, p: Pid, now: int, height: int) returns (s': State)
    requires p in s.procs && s.procs[p].ExecRead?
    requires ValidateExecution(cfg, p, s.procs[p].payload, s.procs[p].row, now, height).Valid?
    ensures Does(cfg, s, p, s')
    ensures var pc := s.procs[p];
            var core := ValidateExecution(cfg, p, pc.payload, pc.row, now, height).core;
            s' == s.(procs := s.procs[p := ExecReady(pc.payload.requestId, core, pc.row.prepared, now, height)])
  {
    DoesNothing(cfg, s, p);
    s' := DoesNext(cfg, s, p, s, ExecValidate(now, height));
  }

  /** The claim, when neither id was used. */
  lemma Claims(cfg: Config, s: State, p: Pid, now: int) returns (s': State)
    requires p in s.procs && s.procs[p].ExecReady?
    requires ClaimOutcome(s.attempts, s.procs[p].requestId, s.procs[p].core, now).Ok?
    ensures Does(cfg, s, p, s')
    ensures var pc := s.procs[p];
            && s'.procs == s.procs[p := ExecClaimed(pc.requestId, pc.core, pc.prepared)]
            && s'.preparations == s.preparations && s'.sends == s.sends
            && s'.attempts == s.attempts[pc.requestId := StartedAttempt(pc.core, now)]
  {
    DoesNothing(cfg, s, p);
    s' := DoesNext(cfg, s, p, s, ExecClaim(now));
  }

  /** The broadcast of a claimed attempt. */
  lemma Sends(cfg: Config, s: State, p: Pid, outcome: SendOutcome) returns (s': State)
    requires p in s.procs && s.procs[p].ExecClaimed?
    ensures Does(cfg, s, p, s')
    ensures var pc := s.procs[p];
            s' == s.(procs := s.procs[p := ExecSent(pc.requestId, pc.core, pc.prepared, outcome)],
                     sends := s.sends + [SendOf(pc.requestId, pc.core)])
    ensures SentFor(s', s.procs[p].requestId)
  {
    DoesNothing(cfg, s, p);
    s' := DoesNext(cfg, s, p, s, ExecSend(outcome));
    assert s'.sends[|s.sends|].requestId == s.procs[p].requestId;
  }

  /** The record of an accepted broadcast. */
  lemma RecordsSubmission(cfg: Config, s: State, p: Pid, now: int) returns (s': State)
    requires p in s.procs && s.procs[p].ExecSent? && s.procs[p].outcome == Accepted(s.procs[p].core.signature)
    requires Started(s.attempts, s.procs[p].requestId)
    ensures Does(cfg, s, p, s')
    ensures s'.procs == s.procs - {p} && s'.preparations == s.preparations && s'.sends == s.sends
    ensures var pc := s.procs[p];
            s'.attempts == AfterSubmission(s.attempts, pc.requestId, MakeReceipt(pc.prepared, pc.core, SUBMITTED, now), now)
  {
    DoesNothing(cfg, s, p);
    s' := DoesNext(cfg, s, p, s, ExecRecord(now));
  }

  /** authorize_and_execute up to the expiry of a row whose time has passed. */
  lemma FindsLate(cfg: Config, s: State, p: Pid, payload: ExecutePayload) returns (s': State)
    requires p !in s.procs
    requires payload.requestId in s.preparations && s.preparations[payload.requestId].state == PREPARED
    ensures Does(cfg, s, p, s')
    ensures s' == s.(procs := s.procs[p := Expiring(payload.requestId, false)])
  {
    var s1 := Reads(cfg, s, p, payload);
    s' := DoesNext(cfg, s, p, s1, ExecValidate(s.preparations[payload.requestId].prepared.expiresAt, 0));
    assert s'.procs == s.procs[p := Expiring(payload.requestId, false)];
  }

  /** The expiry itself, which ends the handler. */
  lemma Expires(cfg: Config, s: State, p: Pid, now: int) returns (s': State)
    requires p in s.procs && s.procs[p].Expiring? && s.procs[p].requestId in s.preparations
    ensures Step(cfg, s, p, ExpireRow(now)) == Some(s')
    ensures var pc := s.procs[p];
            && s'.procs == s.procs - {p} && s'.attempts == s.attempts && s'.sends == s.sends
            && s'.preparations ==
                 s.preparations[pc.requestId := s.preparations[pc.requestId].(state := EXPIRED, updatedAt := now)]
            && (pc.fenceAfter ==> Fenced(pc.requestId) in s'.facts)
  {
    s' := Step(cfg, s, p, ExpireRow(now)).value;
  }

  /** recover of a request without an attempt, up to the lookup of its preparation. */
  lemma FallsBack(cfg: Config, s: State, p: Pid, id: string) returns (s': State)
    requires p !in s.procs && id !in s.attempts && id in s.preparations
    ensures Does(cfg, s, p, s')
    ensures s' == s.(procs := s.procs[p := QueryingPreparation(id, RecoverFallback)])
  {
    DoesNothing(cfg, s, p);
    var s1 := DoesNext(cfg, s, p, s, QueryBegin(id, Recover));
    var s2 := DoesNext(cfg, s, p, s1, QueryAttempt);
    assert s2.procs[p] == Querying(id, RecoverFallback, s.preparations[id]);
    s' := DoesNext(cfg, s, p, s2, QueryAttempt);
    assert s'.procs == s.procs[p := QueryingPreparation(id, RecoverFallback)];
  }

  /** The lookup, when the time of the preparation has passed. */
  lemma FindsOverdue(cfg: Config, s: State, p: Pid, now: int, height: int) returns (s': State)
    requires p in s.procs && s.procs[p].QueryingPreparation? && s.procs[p].requestId in s.preparations
    requires s.preparations[s.procs[p].requestId].state == PREPARED
    requires now >= s.preparations[s.procs[p].requestId].prepared.expiresAt
    ensures Does(cfg, s, p, s')
    ensures s' == s.(procs := s.procs[p := Expiring(s.procs[p].requestId, s.procs[p].mode == RecoverFallback)])
  {
    DoesNothing(cfg, s, p);
    s' := DoesNext(cfg, s, p, s, QueryPreparation(now, height));
  }

  /** The record of a definitive rejection. */
  lemma RecordsRejection(cfg: Config, s: State, p: Pid, now: int) returns (s': State)
    requires p in s.procs && s.procs[p].ExecSent? && s.procs[p].outcome == Rejected
    requires Started(s.attempts, s.procs[p].requestId)
    ensures Does(cfg, s, p, s')
    ensures s'.procs == s.procs - {p} && s'.preparations == s.preparations && s'.sends == s.sends
    ensures s'.attempts == AfterRejection(s.attempts, s.procs[p].requestId, now)
    ensures FailureRecorded(s.procs[p].requestId) in s'.facts
  {
    DoesNothing(cfg, s, p);
    s' := DoesNext(cfg, s, p, s, ExecRecord(now));
  }

  /** The steps of recover for an attempt that has a verdict. */
  function RecoverSteps(p: Pid, id: string, height: int): seq<Event> {
    [Event(p, QueryBegin(id, Recover))] + ([Event(p, QueryAttempt)] + [Event(p, Conclude(height))])
  }

  lemma RecoverBegins(cfg: Config, s: State, p: Pid, id: string) returns (s': State)
    requires p !in s.procs && id in s.preparations && id in s.attempts && Terminal(s.attempts[id].state)
    ensures Run(cfg, s, [Event(p, QueryBegin(id, Recover))]).Some?
    ensures s' == s.(procs := s.procs[p := Concluding(id, Recover, s.preparations[id], s.attempts[id])])
    ensures forall rest :: Run(cfg, s, [Event(p, QueryBegin(id, Recover))] + ([Event(p, QueryAttempt)] + rest)) == Run(cfg, s', rest)
  {
    var s1 := Step(cfg, s, p, QueryBegin(id, Recover)).value;
    s' := Step(cfg, s1, p, QueryAttempt).value;
    assert s'.procs == s.procs[p := Concluding(id, Recover, s.preparations[id], s.attempts[id])];
    RunOne(cfg, s, Event(p, QueryBegin(id, Recover)));
    forall rest
      ensures Run(cfg, s, [Event(p, QueryBegin(id, Recover))] + ([Event(p, QueryAttempt)] + rest)) == Run(cfg, s', rest)
    {
      RunCons(cfg, s1, Event(p, QueryAttempt), rest);
      RunCons(cfg, s, Event(p, QueryBegin(id, Recover)), [Event(p, QueryAttempt)] + rest);
    }
  }

  /** recover of an attempt that has a verdict changes no table, and answers with permission to
      rematerialize if and only if the verdict is failed. */
  lemma RecoverAnswersVerdict(cfg: Config, s: State, p: Pid, id: string, height: int) returns (s': State)
    requires p !in s.procs && id in s.preparations && id in s.attempts && Terminal(s.attempts[id].state)
    ensures Run(cfg, s, RecoverSteps(p, id, height)) == Some(s')
    ensures s' == Note(s, RecoverAnswered(id, s.attempts[id].state == FAILED))
  {
    var s2 := RecoverBegins(cfg, s, p, id);
    s' := Step(cfg, s2, p, Conclude(height)).value;
    RunOne(cfg, s2, Event(p, Conclude(height)));
    assert s'.procs == s.procs;
  }

  /** After a definitive rejection every recover of the request answers with permission to
      rematerialize. */
  lemma RejectionThenRecoverPermits(cfg: Config, s: State, p: Pid, now: int, q: Pid, height: int) returns (s': State)
    requires p in s.procs && s.procs[p].ExecSent? && s.procs[p].outcome == Rejected
    requires s.procs[p].requestId in s.preparations && Started(s.attempts, s.procs[p].requestId)
    requires q == p || q !in s.procs
    ensures var id := s.procs[p].requestId;
            && Run(cfg, s, [Event(p, ExecRecord(now))] + RecoverSteps(q, id, height)) == Some(s')
            && RecoverAnswered(id, true) in s'.facts
            && s'.attempts == AfterRejection(s.attempts, id, now)
            && s'.attempts[id].observation == Some(DefinitiveRejection)
  {
    var id := s.procs[p].requestId;
    var rejected := RecordOutcomeStep(s, p, s.procs[p], now);
    RunCons(cfg, s, Event(p, ExecRecord(now)), RecoverSteps(q, id, height));
    s' := RecoverAnswersVerdict(cfg, rejected, q, id, height);
  }

  /** recover of a failed attempt by process p alone. */
  lemma RecoversFailed(cfg: Config, s: State, p: Pid, id: string, height: int) returns (s': State)
    requires p !in s.procs && id in s.preparations && id in s.attempts && s.attempts[id].state == FAILED
    ensures Does(cfg, s, p, s') && s' == Note(s, RecoverAnswered(id, true))
  {
    s' := RecoverAnswersVerdict(cfg, s, p, id, height);
    assert Quiet(RecoverSteps(p, id, height), p);
  }
}
