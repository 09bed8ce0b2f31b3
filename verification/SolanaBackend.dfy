/** The gateway handlers as the program runs them: sequences of database transactions and RPC
    calls, each handler here uninterrupted. Every call is a run of the transition system of
    Broadcast, so what is proved there holds of these methods. */
module SolanaBackend {
  import opened Prelude
  import opened Preparations
  import opened Executions
  import opened Broadcast

  datatype ExecuteResponse =
    | Submitted(receipt: Receipt)
    | ExecutionNotFound
    | ExecutionNotPrepared
    | PreparedExecutionExpired
    | InvalidExecution(code: ValidationCode)
    | ClaimRefused(error: ClaimError)
    | ConclusivelyRejected
    | OutcomeUnknown

  datatype RecoverResponse =
    | RecoverNotFound
    | FailedBeforeBroadcast(mayRematerialize: bool)
    | RecoveredConfirmed
    | RecoveredFailed
    | StillSubmitted
    | StillUnknown
    | NotFoundAfterExpiry

  datatype StatusResponse = StatusNotFound | PreparationStatus(expired: bool) | AttemptStatus(state: AttemptState)

  /** Why prepare gives up before it saves: checks of the configured signer, the plan and the chain. */
  datatype Refusal =
    | SignerIsNotSource
    | ProgramsNotAllowed
    | SourceIsDestination
    | AccountsRejected
    | SimulationFailed
    | FeeTooHigh

  /** What the chain-facing part of prepare yields when nothing is refused. */
  datatype Compiled = Compiled(message: string, simulation: string, lastValidBlockHeight: int)

  datatype PrepareError = PlanExpired | PreparationBlocked | PreparationRefused(reason: Refusal)

  /** The attempt and the answer that the end of the broadcast leaves: an echoed signature is a
      submission, an error answer of the node a rejection, and anything else an unknown outcome. */
  ghost predicate EndsAs(outcome: SendOutcome, prepared: Prepared, core: AttemptCore, now: int, r: ExecuteResponse, attempt: Attempt) {
    && (r.Submitted? <==> outcome == Accepted(core.signature))
    && (r.ConclusivelyRejected? <==> outcome == Rejected)
    && (r.OutcomeUnknown? <==> outcome != Accepted(core.signature) && outcome != Rejected)
    && (r.Submitted? ==>
          && r.receipt == Receipt(prepared.requestId, core.authorization.id, prepared.commitmentHash, prepared.messageHash,
                                  prepared.signer, core.signature, SUBMITTED, now)
          && attempt == Attempt(core, SUBMITTED, now, Some(now), None, None, Some(r.receipt), now))
    && (r.ConclusivelyRejected? ==> attempt == Attempt(core, FAILED, now, None, None, Some(DefinitiveRejection), None, now))
    && (r.OutcomeUnknown? ==> attempt == Attempt(core, NEEDS_RECOVERY, now, None, None, None, None, now))
  }

  predicate MayRematerialize(r: RecoverResponse) {
    r == RecoveredFailed || r == FailedBeforeBroadcast(true)
  }

  /** The attempts after a refresh: a terminal one is left alone, any other takes the chain's answer. */
  function Refreshed(t: AttemptTable, id: string, prepared: Prepared, reply: StatusReply, now: int): AttemptTable
    requires id in t
  {
    if Terminal(t[id].state) then t
    else AfterObservation(t, id, ObservedState(reply, t[id].state), ObservedDetail(reply),
                          ObservedReceipt(prepared, t[id].core, reply, t[id].state, now), now)
  }

  /** The last observation carries a status of the chain. */
  predicate SeenOnChain(attempt: Attempt) {
    attempt.observation.Some? && attempt.observation.value.ChainStatus?
  }

  /** The answer of recover about a refreshed attempt. */
  function Verdict(refreshed: Attempt, late: bool): RecoverResponse {
    if refreshed.state == CONFIRMED then RecoveredConfirmed
    else if refreshed.state == FAILED then RecoveredFailed
    else if SeenOnChain(refreshed) then StillSubmitted
    else if late then NotFoundAfterExpiry
    else StillUnknown
  }

  /** The attempts after recover: an attempt not found in time is marked for reconciliation. */
  function Recovered(refreshed: AttemptTable, id: string, r: RecoverResponse, height: int, now: int): AttemptTable {
    if r.NotFoundAfterExpiry? then AfterObservation(refreshed, id, NEEDS_RECOVERY, MissingAfterExpiry(height), None, now)
    else refreshed
  }

  /** recover of a request with an attempt: a verdict stays and is answered; otherwise the chain's
      answer is recorded and decides, with the block height where the chain knows nothing. */
  ghost predicate RecoversAs(t: AttemptTable, t': AttemptTable, id: string, row: PreparationRow, reply: StatusReply,
                             now: int, height: int, r: RecoverResponse)
    requires id in t
  {
    && !r.RecoverNotFound? && !r.FailedBeforeBroadcast? && id in t'
    && (r.RecoveredFailed? <==> t'[id].state == FAILED)
    && (r.RecoveredConfirmed? <==> t'[id].state == CONFIRMED)
    && (t[id].state == FAILED || t[id].state == CONFIRMED ==> t' == t)
    && (t[id].state != FAILED && t[id].state != CONFIRMED ==>
          && (r.RecoveredFailed? <==> reply.Status? && reply.failed)
          && (r.RecoveredConfirmed? <==> reply == Status(false, true))
          && (r.StillSubmitted? <==> reply == Status(false, false))
          && (r.NotFoundAfterExpiry? <==> reply == NoStatus && height > row.lastValidBlockHeight)
          && (r.StillUnknown? <==> reply == NoStatus && height <= row.lastValidBlockHeight))
    && (!r.NotFoundAfterExpiry? ==> Refreshes(t, t', id, row.prepared, reply, now))
    && (r.NotFoundAfterExpiry? ==>
          && t' == t[id := t'[id]] && t'[id].state == NEEDS_RECOVERY && t'[id].core == t[id].core
          && t'[id].observation == Some(MissingAfterExpiry(height)) && t'[id].receipt == t[id].receipt
          && t'[id].confirmedAt == t[id].confirmedAt)
  }

  lemma VerdictFits(t: AttemptTable, id: string, row: PreparationRow, reply: StatusReply, now: int, height: int)
    requires id in t
    ensures var refreshed := Refreshed(t, id, row.prepared, reply, now);
            var r := Verdict(refreshed[id], height > row.lastValidBlockHeight);
            RecoversAs(t, Recovered(refreshed, id, r, height, now), id, row, reply, now, height, r)
  {
    RefreshedShowsReply(t, id, row.prepared, reply, now);
  }

  /** A query of a request without an attempt finds it expired, or its time passed, and expires it. */
  ghost predicate ExpiresIfPast(rows: PreparationTable, rows': PreparationTable, id: string, now: int, height: int, expired: bool)
    requires id in rows
  {
    var row := rows[id];
    && (expired <==> row.state == EXPIRED || now >= row.prepared.expiresAt || height > row.lastValidBlockHeight)
    && rows' == if expired && row.state != EXPIRED then rows[id := row.(state := EXPIRED, updatedAt := now)] else rows
  }

  /** What the chain's answer makes of an attempt without a verdict. */
  ghost predicate ShowsReply(before: Attempt, after: Attempt, prepared: Prepared, reply: StatusReply, now: int) {
    && after.core == before.core && after.persistedAt == before.persistedAt && after.submittedAt == before.submittedAt
    && (after.state == FAILED <==> reply.Status? && reply.failed)
    && (after.state == CONFIRMED <==> reply == Status(false, true))
    && (reply == Status(false, false) ==> after.state == SUBMITTED)
    && (reply == NoStatus ==> after.state == if before.state == SUBMITTED then SUBMITTED else NEEDS_RECOVERY)
    && after.observation == Some(if reply.Status? then ChainStatus(reply.failed, reply.settled) else StatusMissing)
    && after.confirmedAt == (if after.state == CONFIRMED then Some(now) else before.confirmedAt)
    && after.receipt == (if after.state == FAILED || after.state == CONFIRMED
                         then Some(Receipt(prepared.requestId, after.core.authorization.id, prepared.commitmentHash, prepared.messageHash,
                                           prepared.signer, after.core.signature, after.state, now))
                         else before.receipt)
    && after.updatedAt == now
  }

  /** A refresh leaves an attempt with a verdict alone; any other attempt shows the reply. */
  ghost predicate Refreshes(t: AttemptTable, t': AttemptTable, id: string, prepared: Prepared, reply: StatusReply, now: int)
    requires id in t
  {
    if t[id].state == FAILED || t[id].state == CONFIRMED then t' == t
    else id in t' && t' == t[id := t'[id]] && ShowsReply(t[id], t'[id], prepared, reply, now)
  }

  lemma RefreshedShowsReply(t: AttemptTable, id: string, prepared: Prepared, reply: StatusReply, now: int)
    requires id in t
    ensures Refreshes(t, Refreshed(t, id, prepared, reply, now), id, prepared, reply, now)
  {
  }

  /** What a save stores and answers. */
  lemma SaveEffect(t: PreparationTable, pick: Option<string>, requestId: string, row: PreparationRow)
    requires Selects(t, requestId, row.obligationId, pick)
    ensures SaveResult(t, pick, requestId, row).Err? || requestId in t ==> SaveTable(t, pick, requestId, row) == t
    ensures SaveResult(t, pick, requestId, row).Ok? && requestId in t ==> SaveResult(t, pick, requestId, row).value == t[requestId].prepared
    ensures requestId !in t ==> (SaveResult(t, pick, requestId, row).Ok? <==> ObligationFree(t, row.obligationId))
    ensures SaveResult(t, pick, requestId, row).Ok? && requestId !in t ==>
              SaveTable(t, pick, requestId, row) == t[requestId := row] && SaveResult(t, pick, requestId, row).value == row.prepared
  {
    assert requestId in t ==> Matches(t, requestId, row.obligationId, requestId);
    if requestId !in t {
      SaveAdmitsIffObligationFree(t, pick, requestId, row);
    }
  }

  lemma UpdatedTwice(t: AttemptTable, id: string, a: Attempt, b: Attempt)
    ensures t[id := a][id := b] == t[id := b]
  {
  }

  /** What the checks hand on when they pass. */
  lemma ValidCore(cfg: Config, pid: Pid, payload: ExecutePayload, row: PreparationRow, now: int, height: int)
    ensures var v := ValidateExecution(cfg, pid, payload, row, now, height);
            && (v.PreparationExpired? <==> now >= row.prepared.expiresAt || height > row.lastValidBlockHeight)
            && (v.Valid? ==>
                  v.core == AttemptCore(payload.authorization, row.prepared.messageHash, row.prepared.commitmentHash,
                                        cfg.signer(pid), payload.signature, cfg.assemble(payload.message, payload.signature)))
  {
  }

  class SolanaExecutionBackend {
    const cfg: Config
    const pid: Pid
    const store: PreparationStore
    const executions: ExecutionStore
    ghost var sends: seq<Send>
    ghost var facts: set<Fact>

    ghost predicate Valid()
      reads this, executions
    {
      executions.Valid()
    }

    /** The shared state while no handler is running. */
    ghost function Snapshot(): State
      reads this, store, executions
    {
      State(store.rows, executions.attempts, map[], sends, facts)
    }

    constructor (cfg: Config, pid: Pid)
      ensures Valid() && this.cfg == cfg && this.pid == pid && Snapshot() == INITIAL
      ensures fresh(store) && fresh(executions)
    {
      this.cfg, this.pid := cfg, pid;
      store := new PreparationStore();
      executions := new ExecutionStore();
      sends, facts := [], {};
    }

    /** Adds one step to the recorded run. */
    ghost method Take(s0: State, s: State, trace: seq<Event>, a: Action) returns (s': State, trace': seq<Event>)
      requires Run(cfg, s0, trace) == Some(s) && Step(cfg, s, pid, a).Some?
      ensures s' == Step(cfg, s, pid, a).value
      ensures trace' == trace + [Event(pid, a)] && Run(cfg, s0, trace') == Some(s')
    {
      RunSnoc(cfg, s0, trace, Event(pid, a));
      s' := Step(cfg, s, pid, a).value;
      trace' := trace + [Event(pid, a)];
    }

    /** authorize_and_execute; the clock readings and RPC answers are parameters. */
    method AuthorizeAndExecute(payload: ExecutePayload, checkedAt: int, height: int, now: int, outcome: SendOutcome)
      returns (r: ExecuteResponse, ghost trace: seq<Event>)
      requires Valid()
      modifies store, executions, this`sends, this`facts
      ensures Valid()
      ensures Run(cfg, old(Snapshot()), trace) == Some(Snapshot())
      ensures r.ExecutionNotFound? <==> payload.requestId !in old(store.rows)
      ensures r.ExecutionNotPrepared? <==>
                payload.requestId in old(store.rows) && old(store.rows)[payload.requestId].state != PREPARED
      ensures r.ExecutionNotFound? || r.ExecutionNotPrepared? ==>
                store.rows == old(store.rows) && executions.attempts == old(executions.attempts) && sends == old(sends)
      ensures payload.requestId in old(store.rows) && old(store.rows)[payload.requestId].state == PREPARED ==>
                var row := old(store.rows)[payload.requestId];
                && (r.PreparedExecutionExpired? <==> checkedAt >= row.prepared.expiresAt || height > row.lastValidBlockHeight)
                && (r.PreparedExecutionExpired? ==>
                      store.rows == old(store.rows)[payload.requestId := row.(state := EXPIRED, updatedAt := now)])
                && (!r.PreparedExecutionExpired? ==> store.rows == old(store.rows))
                && HandledAs(ValidateExecution(cfg, pid, payload, row, checkedAt, height), r)
                && Effects(old(executions.attempts), old(sends), executions.attempts, sends, payload, row.prepared, now, outcome, r)
      ensures r.ClaimRefused? <==>
                && payload.requestId in old(store.rows) && old(store.rows)[payload.requestId].state == PREPARED
                && ValidateExecution(cfg, pid, payload, old(store.rows)[payload.requestId], checkedAt, height).Valid?
                && (payload.requestId in old(executions.attempts)
                    || AuthorizationUsed(old(executions.attempts), payload.authorization.id))
      ensures sends != old(sends) ==> Event(pid, ExecSend(outcome)) in trace
    {
      ghost var s0 := Snapshot();
      ghost var s := s0;
      trace := [];
      s, trace := Take(s0, s, trace, ExecBegin(payload));
      if payload.requestId !in store.rows {
        return ExecutionNotFound, trace;
      }
      var row := store.rows[payload.requestId];
      if row.state != PREPARED {
        return ExecutionNotPrepared, trace;
      }
      assert s.procs == map[pid := ExecRead(payload, row)];
      var validation;
      validation, s, trace := Validate(s0, s, trace, payload, row, checkedAt, height);
      r, trace := ActOn(s0, s, trace, payload, row, validation, checkedAt, height, now, outcome);
    }

    /** The checks of a call. */
    method Validate(ghost s0: State, ghost s1: State, ghost trace0: seq<Event>, payload: ExecutePayload, row: PreparationRow,
                    checkedAt: int, height: int)
      returns (validation: Validation, ghost s: State, ghost trace: seq<Event>)
      requires Run(cfg, s0, trace0) == Some(s1)
      requires s1 == Snapshot().(procs := map[pid := ExecRead(payload, row)])
      ensures validation == ValidateExecution(cfg, pid, payload, row, checkedAt, height)
      ensures validation.PreparationExpired? <==> checkedAt >= row.prepared.expiresAt || height > row.lastValidBlockHeight
      ensures validation.Valid? ==> validation.core == CoreOf(payload, row.prepared)
      ensures Run(cfg, s0, trace) == Some(s)
      ensures s == Snapshot().(procs := match validation
                case PreparationExpired => map[pid := Expiring(payload.requestId, false)]
                case Invalid(_) => map[]
                case Valid(core) => map[pid := ExecReady(payload.requestId, core, row.prepared, checkedAt, height)])
    {
      s, trace := Take(s0, s1, trace0, ExecValidate(checkedAt, height));
      ValidCore(cfg, pid, payload, row, checkedAt, height);
      validation := ValidateExecution(cfg, pid, payload, row, checkedAt, height);
      assert s.procs == match validation
        case PreparationExpired => map[pid := Expiring(payload.requestId, false)]
        case Invalid(_) => map[]
        case Valid(core) => map[pid := ExecReady(payload.requestId, core, row.prepared, checkedAt, height)];
    }

    /** The columns that a call claims. */
    function CoreOf(payload: ExecutePayload, prepared: Prepared): AttemptCore {
      AttemptCore(payload.authorization, prepared.messageHash, prepared.commitmentHash, cfg.signer(pid), payload.signature,
                  cfg.assemble(payload.message, payload.signature))
    }

    /** Which answer a validation leads to. */
    ghost predicate HandledAs(v: Validation, r: ExecuteResponse) {
      && !r.ExecutionNotFound? && !r.ExecutionNotPrepared?
      && (r.PreparedExecutionExpired? <==> v.PreparationExpired?)
      && (r.InvalidExecution? <==> v.Invalid?)
      && (v.Invalid? ==> r == InvalidExecution(v.code))
      && (r.ClaimRefused? || r.Submitted? || r.ConclusivelyRejected? || r.OutcomeUnknown? <==> v.Valid?)
    }

    /** What a call does to the attempts and on the chain: nothing unless it claims; a call that
        claims adds the one attempt and the one send of its payload, and the end of the broadcast
        decides the answer and the attempt. */
    ghost predicate Effects(attempts: AttemptTable, sent: seq<Send>, attempts': AttemptTable, sent': seq<Send>,
                            payload: ExecutePayload, prepared: Prepared, now: int, outcome: SendOutcome, r: ExecuteResponse)
    {
      var id := payload.requestId;
      var core := AttemptCore(payload.authorization, prepared.messageHash, prepared.commitmentHash, cfg.signer(pid),
                              payload.signature, cfg.assemble(payload.message, payload.signature));
      if r.Submitted? || r.ConclusivelyRejected? || r.OutcomeUnknown? then
        && id !in attempts && id in attempts' && attempts' == attempts[id := attempts'[id]]
        && sent' == sent + [Send(id, payload.authorization.id, payload.signature, cfg.assemble(payload.message, payload.signature))]
        && EndsAs(outcome, prepared, core, now, r, attempts'[id])
      else
        && attempts' == attempts && sent' == sent
        && (r.ClaimRefused? ==> RefusedAs(attempts, id, core, r.error))
    }

    /** The part after the checks. */
    method ActOn(ghost s0: State, ghost s1: State, ghost trace0: seq<Event>, payload: ExecutePayload, row: PreparationRow,
                 validation: Validation, ghost checkedAt: int, ghost height: int, now: int, outcome: SendOutcome)
      returns (r: ExecuteResponse, ghost trace: seq<Event>)
      requires Valid() && Run(cfg, s0, trace0) == Some(s1)
      requires payload.requestId in store.rows && store.rows[payload.requestId] == row
      requires validation.Valid? ==> validation.core == CoreOf(payload, row.prepared)
      requires s1 == Snapshot().(procs := match validation
                 case PreparationExpired => map[pid := Expiring(payload.requestId, false)]
                 case Invalid(_) => map[]
                 case Valid(core) => map[pid := ExecReady(payload.requestId, core, row.prepared, checkedAt, height)])
      modifies store, executions, this`sends, this`facts
      ensures Valid()
      ensures Run(cfg, s0, trace) == Some(Snapshot())
      ensures HandledAs(validation, r)
      ensures store.rows == if r.PreparedExecutionExpired?
                            then old(store.rows)[payload.requestId := row.(state := EXPIRED, updatedAt := now)] else old(store.rows)
      ensures Effects(old(executions.attempts), old(sends), executions.attempts, sends, payload, row.prepared, now, outcome, r)
      ensures r.ClaimRefused? <==>
                && validation.Valid?
                && (payload.requestId in old(executions.attempts)
                    || AuthorizationUsed(old(executions.attempts), payload.authorization.id))
      ensures sends != old(sends) ==> Event(pid, ExecSend(outcome)) in trace
    {
      if validation.PreparationExpired? {
        ghost var s;
        s, trace := ExpireOverdue(s0, s1, trace0, payload.requestId, StatusQuery, now);
        r := PreparedExecutionExpired;
      } else if validation.Invalid? {
        r, trace := InvalidExecution(validation.code), trace0;
      } else {
        r, trace := ExecuteValidated(s0, s1, trace0, payload, row.prepared, validation.core, checkedAt, height, now, outcome);
      }
    }

    method ExecuteValidated(ghost s0: State, ghost s1: State, ghost trace0: seq<Event>, payload: ExecutePayload, prepared: Prepared,
                            core: AttemptCore, ghost checkedAt: int, ghost height: int, now: int, outcome: SendOutcome)
      returns (r: ExecuteResponse, ghost trace: seq<Event>)
      requires Valid() && Run(cfg, s0, trace0) == Some(s1)
      requires s1 == Snapshot().(procs := map[pid := ExecReady(payload.requestId, core, prepared, checkedAt, height)])
      requires core == CoreOf(payload, prepared)
      modifies executions, this`sends, this`facts
      ensures Valid()
      ensures Run(cfg, s0, trace) == Some(Snapshot())
      ensures r.ClaimRefused? || r.Submitted? || r.ConclusivelyRejected? || r.OutcomeUnknown?
      ensures Effects(old(executions.attempts), old(sends), executions.attempts, sends, payload, prepared, now, outcome, r)
      ensures r.ClaimRefused? <==>
                payload.requestId in old(executions.attempts) || AuthorizationUsed(old(executions.attempts), payload.authorization.id)
      ensures sends != old(sends) ==> Event(pid, ExecSend(outcome)) in trace
    {
      ghost var s;
      r, s, trace := ClaimAndSend(s0, s1, trace0, prepared, core, checkedAt, height, now, outcome, payload.requestId);
    }

    /** The part from the claim on. */
    method ClaimAndSend(ghost s0: State, ghost s1: State, ghost trace0: seq<Event>, prepared: Prepared, core: AttemptCore,
                        ghost checkedAt: int, ghost height: int, now: int, outcome: SendOutcome, id: string)
      returns (r: ExecuteResponse, ghost s: State, ghost trace: seq<Event>)
      requires Valid() && Run(cfg, s0, trace0) == Some(s1)
      requires s1 == Snapshot().(procs := map[pid := ExecReady(id, core, prepared, checkedAt, height)])
      modifies executions, this`sends, this`facts
      ensures Valid()
      ensures Run(cfg, s0, trace) == Some(s) && s == Snapshot()
      ensures r.ClaimRefused? <==> id in old(executions.attempts) || AuthorizationUsed(old(executions.attempts), core.authorization.id)
      ensures r.ClaimRefused? ==> sends == old(sends) && executions.attempts == old(executions.attempts)
                                  && RefusedAs(old(executions.attempts), id, core, r.error)
      ensures !r.ClaimRefused? ==> r.Submitted? || r.ConclusivelyRejected? || r.OutcomeUnknown?
      ensures !r.ClaimRefused? ==>
                && id !in old(executions.attempts) && id in executions.attempts && executions.attempts == old(executions.attempts)[id := executions.attempts[id]]
                && EndsAs(outcome, prepared, core, now, r, executions.attempts[id])
                && sends == old(sends) + [Send(id, core.authorization.id, core.signature, core.signedTransaction)]
                && Event(pid, ExecSend(outcome)) in trace
    {
      var claim;
      claim, s, trace := ClaimAttempt(s0, s1, trace0, prepared, core, checkedAt, height, now, id);
      if claim.Err? {
        return ClaimRefused(claim.error), s, trace;
      }
      ghost var claimed := executions.attempts[id];
      r, s, trace := SendAndRecord(s0, s, trace, prepared, core, now, outcome, id);
      UpdatedTwice(old(executions.attempts), id, claimed, executions.attempts[id]);
    }

    /** The broadcast of a claimed attempt and the record of how it ended. */
    method SendAndRecord(ghost s0: State, ghost s1: State, ghost trace0: seq<Event>, prepared: Prepared, core: AttemptCore,
                         now: int, outcome: SendOutcome, id: string)
      returns (r: ExecuteResponse, ghost s: State, ghost trace: seq<Event>)
      requires Valid() && Run(cfg, s0, trace0) == Some(s1)
      requires s1 == Snapshot().(procs := map[pid := ExecClaimed(id, core, prepared)])
      requires id in executions.attempts
      requires executions.attempts[id] == Attempt(core, BROADCAST_STARTED, now, None, None, None, None, now)
      modifies executions, this`sends, this`facts
      ensures Valid()
      ensures Run(cfg, s0, trace) == Some(s) && s == Snapshot()
      ensures id in executions.attempts && executions.attempts == old(executions.attempts)[id := executions.attempts[id]]
      ensures EndsAs(outcome, prepared, core, now, r, executions.attempts[id])
      ensures sends == old(sends) + [Send(id, core.authorization.id, core.signature, core.signedTransaction)]
      ensures Event(pid, ExecSend(outcome)) in trace
    {
      s, trace := SendClaimed(s0, s1, trace0, prepared, core, outcome, id);
      r, s, trace := RecordOutcome(s0, s, trace, prepared, core, now, outcome, id);
    }

    /** sendTransaction; its outcome is a parameter of the callers. */
    ghost method SendClaimed(s0: State, s1: State, trace0: seq<Event>, prepared: Prepared, core: AttemptCore, outcome: SendOutcome, id: string)
      returns (s: State, trace: seq<Event>)
      requires Run(cfg, s0, trace0) == Some(s1)
      requires s1 == Snapshot().(procs := map[pid := ExecClaimed(id, core, prepared)])
      modifies this`sends
      ensures Run(cfg, s0, trace) == Some(s)
      ensures sends == old(sends) + [Send(id, core.authorization.id, core.signature, core.signedTransaction)]
      ensures Event(pid, ExecSend(outcome)) in trace
      ensures s == Snapshot().(procs := map[pid := ExecSent(id, core, prepared, outcome)])
    {
      s, trace := Take(s0, s1, trace0, ExecSend(outcome));
      sends := sends + [SendOf(id, core)];
      assert s.procs == map[pid := ExecSent(id, core, prepared, outcome)];
    }

    method ClaimAttempt(ghost s0: State, ghost s1: State, ghost trace0: seq<Event>, prepared: Prepared, core: AttemptCore,
                        ghost checkedAt: int, ghost height: int, now: int, id: string)
      returns (r: Result<(), ClaimError>, ghost s: State, ghost trace: seq<Event>)
      requires Valid() && Run(cfg, s0, trace0) == Some(s1)
      requires s1 == Snapshot().(procs := map[pid := ExecReady(id, core, prepared, checkedAt, height)])
      modifies executions, this`facts
      ensures Valid()
      ensures Run(cfg, s0, trace) == Some(s)
      ensures s == Snapshot().(procs := if r.Ok? then map[pid := ExecClaimed(id, core, prepared)] else map[])
      ensures r.Err? <==> id in old(executions.attempts) || AuthorizationUsed(old(executions.attempts), core.authorization.id)
      ensures r.Err? ==> executions.attempts == old(executions.attempts) && RefusedAs(old(executions.attempts), id, core, r.error)
      ensures r.Ok? ==>
                executions.attempts ==
                  old(executions.attempts)[id := Attempt(core, BROADCAST_STARTED, now, None, None, None, None, now)]
    {
      s, trace := Take(s0, s1, trace0, ExecClaim(now));
      r := executions.Claim(id, core, now);
      if r.Ok? {
        facts := facts + {Claimed(id, checkedAt, height)};
        assert s.procs == map[pid := ExecClaimed(id, core, prepared)];
      } else {
        assert s.procs == map[];
      }
    }

    /** What the handler does with the answer of sendTransaction. */
    method RecordOutcome(ghost s0: State, ghost s1: State, ghost trace0: seq<Event>, prepared: Prepared, core: AttemptCore,
                         now: int, outcome: SendOutcome, id: string)
      returns (r: ExecuteResponse, ghost s: State, ghost trace: seq<Event>)
      requires Valid() && Run(cfg, s0, trace0) == Some(s1)
      requires s1 == Snapshot().(procs := map[pid := ExecSent(id, core, prepared, outcome)])
      modifies executions, this`facts
      ensures Valid()
      ensures Run(cfg, s0, trace) == Some(s) && s == Snapshot()
      ensures trace0 <= trace
      ensures var before := old(executions.attempts);
              if !(id in before && before[id].state == BROADCAST_STARTED) then
                executions.attempts == before && (r.ConclusivelyRejected? <==> outcome == Rejected)
                && (r.OutcomeUnknown? <==> outcome != Rejected)
              else
                && id in executions.attempts && executions.attempts == before[id := executions.attempts[id]]
                && (before[id] == Attempt(core, BROADCAST_STARTED, now, None, None, None, None, now) ==>
                      EndsAs(outcome, prepared, core, now, r, executions.attempts[id]))
    {
      s, trace := Take(s0, s1, trace0, ExecRecord(now));
      if outcome == Accepted(core.signature) {
        var receipt := MakeReceipt(prepared, core, SUBMITTED, now);
        var recorded := executions.RecordSubmitted(id, receipt, now);
        if !recorded {
          s, trace := Take(s0, s, trace, ExecRecord(now));
          executions.MarkNeedsRecovery(id, now);
          assert s.procs == map[];
          return OutcomeUnknown, s, trace;
        }
        r := Submitted(receipt);
      } else if outcome == Rejected {
        var recorded := executions.RecordDefinitiveRejection(id, now);
        if recorded {
          facts := facts + {FailureRecorded(id)};
        }
        r := ConclusivelyRejected;
      } else {
        executions.MarkNeedsRecovery(id, now);
        r := OutcomeUnknown;
      }
      assert s.procs == map[];
    }

    /** status and recover of the preparation layer, for a request without an attempt. */
    method QueryPreparationRow(ghost s0: State, ghost s1: State, ghost trace0: seq<Event>, id: string, mode: QueryMode,
                               now: int, height: int)
      returns (expired: bool, ghost s: State, ghost trace: seq<Event>)
      requires Valid() && Run(cfg, s0, trace0) == Some(s1) && id in store.rows
      requires s1 == Snapshot().(procs := map[pid := QueryingPreparation(id, mode)])
      modifies store, this`facts
      ensures Valid()
      ensures Run(cfg, s0, trace) == Some(s) && s == Snapshot()
      ensures id in store.rows && (expired <==> store.rows[id].state == EXPIRED)
      ensures ExpiresIfPast(old(store.rows), store.rows, id, now, height, expired)
      ensures mode == RecoverFallback ==> (expired ==> Fenced(id) in facts)
    {
      s, trace := Take(s0, s1, trace0, QueryPreparation(now, height));
      var row := store.rows[id];
      expired := row.state == EXPIRED;
      if !expired && (now >= row.prepared.expiresAt || height > row.lastValidBlockHeight) {
        assert s.procs == map[pid := Expiring(id, mode == RecoverFallback)];
        s, trace := ExpireOverdue(s0, s, trace, id, mode, now);
        expired := true;
      } else {
        if expired && mode == RecoverFallback {
          facts := facts + {Fenced(id)};
        }
        assert s.procs == map[];
      }
    }

    method ExpireOverdue(ghost s0: State, ghost s1: State, ghost trace0: seq<Event>, id: string, ghost mode: QueryMode, now: int)
      returns (ghost s: State, ghost trace: seq<Event>)
      requires Run(cfg, s0, trace0) == Some(s1) && id in store.rows
      requires s1 == Snapshot().(procs := map[pid := Expiring(id, mode == RecoverFallback)])
      modifies store, this`facts
      ensures Run(cfg, s0, trace) == Some(s) && s == Snapshot()
      ensures store.rows == AfterExpiry(old(store.rows), id, now)
      ensures store.rows == old(store.rows)[id := old(store.rows)[id].(state := EXPIRED, updatedAt := now)]
      ensures mode == RecoverFallback ==> Fenced(id) in facts
    {
      s, trace := Take(s0, s1, trace0, ExpireRow(now));
      store.Expire(id, now);
      if mode == RecoverFallback {
        facts := facts + {Fenced(id)};
      }
      assert s.procs == map[];
    }

    /** _refresh_attempt: asks the chain about a non-terminal attempt and records the answer. */
    method RefreshAttempt(ghost s0: State, ghost s1: State, ghost trace0: seq<Event>, id: string, mode: QueryMode,
                          row: PreparationRow, now: int, reply: StatusReply)
      returns (refreshed: Attempt, ghost s: State, ghost trace: seq<Event>)
      requires Valid() && Run(cfg, s0, trace0) == Some(s1) && id in executions.attempts
      requires s1 == Snapshot().(procs := map[pid := Querying(id, mode, row)])
      modifies executions, this`facts
      ensures Valid()
      ensures Run(cfg, s0, trace) == Some(s)
      ensures s == Snapshot().(procs := map[pid := Concluding(id, mode, row, refreshed)])
      ensures id in executions.attempts && refreshed == executions.attempts[id]
      ensures executions.attempts == Refreshed(old(executions.attempts), id, row.prepared, reply, now)
      ensures Refreshes(old(executions.attempts), executions.attempts, id, row.prepared, reply, now)
    {
      RefreshedShowsReply(executions.attempts, id, row.prepared, reply, now);
      s, trace := Take(s0, s1, trace0, QueryAttempt);
      var attempt := executions.attempts[id];
      if attempt.state == CONFIRMED || attempt.state == FAILED {
        assert s.procs == map[pid := Concluding(id, mode, row, attempt)];
        return attempt, s, trace;
      }
      assert s.procs == map[pid := Observing(id, mode, row, attempt)];
      refreshed, s, trace := RecordReply(s0, s, trace, id, mode, row, attempt, now, reply);
    }

    /** Records the chain's answer about a non-terminal attempt and reads the row again. */
    method RecordReply(ghost s0: State, ghost s1: State, ghost trace0: seq<Event>, id: string, mode: QueryMode,
                       row: PreparationRow, attempt: Attempt, now: int, reply: StatusReply)
      returns (refreshed: Attempt, ghost s: State, ghost trace: seq<Event>)
      requires Valid() && Run(cfg, s0, trace0) == Some(s1) && id in executions.attempts && executions.attempts[id] == attempt
      requires s1 == Snapshot().(procs := map[pid := Observing(id, mode, row, attempt)])
      modifies executions, this`facts
      ensures Valid()
      ensures Run(cfg, s0, trace) == Some(s)
      ensures s == Snapshot().(procs := map[pid := Concluding(id, mode, row, refreshed)])
      ensures id in executions.attempts && refreshed == executions.attempts[id]
      ensures executions.attempts ==
                AfterObservation(old(executions.attempts), id, ObservedState(reply, attempt.state), ObservedDetail(reply),
                                 ObservedReceipt(row.prepared, attempt.core, reply, attempt.state, now), now)
    {
      var state := ObservedState(reply, attempt.state);
      var receipt := ObservedReceipt(row.prepared, attempt.core, reply, attempt.state, now);
      s, trace := ObserveReply(s0, s1, trace0, id, mode, row, attempt, now, reply);
      s, trace := WriteObservation(s0, s, trace, id, mode, row, state, ObservedDetail(reply), receipt, now);
      s, trace := Take(s0, s, trace, Reread);
      refreshed := executions.attempts[id];
      assert s.procs == map[pid := Concluding(id, mode, row, refreshed)];
    }

    ghost method ObserveReply(s0: State, s1: State, trace0: seq<Event>, id: string, mode: QueryMode, row: PreparationRow,
                              attempt: Attempt, now: int, reply: StatusReply)
      returns (s: State, trace: seq<Event>)
      requires Run(cfg, s0, trace0) == Some(s1)
      requires s1 == Snapshot().(procs := map[pid := Observing(id, mode, row, attempt)])
      ensures Run(cfg, s0, trace) == Some(s)
      ensures s == Snapshot().(procs := map[pid := Recording(id, mode, row, ObservedState(reply, attempt.state), ObservedDetail(reply),
                                                             ObservedReceipt(row.prepared, attempt.core, reply, attempt.state, now))])
    {
      s, trace := Take(s0, s1, trace0, Observe(now, reply));
      assert s.procs == map[pid := Recording(id, mode, row, ObservedState(reply, attempt.state), ObservedDetail(reply),
                                             ObservedReceipt(row.prepared, attempt.core, reply, attempt.state, now))];
    }

    method WriteObservation(ghost s0: State, ghost s1: State, ghost trace0: seq<Event>, id: string, mode: QueryMode,
                            row: PreparationRow, state: AttemptState, observation: Observation,
                            receipt: Option<Receipt>, now: int)
      returns (ghost s: State, ghost trace: seq<Event>)
      requires Valid() && Run(cfg, s0, trace0) == Some(s1) && id in executions.attempts
      requires s1 == Snapshot().(procs := map[pid := Recording(id, mode, row, state, observation, receipt)])
      modifies executions, this`facts
      ensures Valid()
      ensures Run(cfg, s0, trace) == Some(s)
      ensures s == Snapshot().(procs := map[pid := Rereading(id, mode, row)])
      ensures executions.attempts == AfterObservation(old(executions.attempts), id, state, observation, receipt, now)
    {
      s, trace := Take(s0, s1, trace0, Record(now));
      executions.RecordObservation(id, state, observation, receipt, now);
      if state == CONFIRMED {
        facts := facts + {ConfirmationRecorded(id)};
      } else if state == FAILED {
        facts := facts + {FailureRecorded(id)};
      }
      assert s.procs == map[pid := Rereading(id, mode, row)];
    }

    /** recover. Permission to rematerialize comes exactly with a failed attempt, or with an expired
        preparation that has no attempt; the other answers about an attempt follow from its
        verdict, the chain's answer and the block height. */
    method RecoverExecution(id: string, now: int, reply: StatusReply, height: int)
      returns (r: RecoverResponse, ghost trace: seq<Event>)
      requires Valid()
      modifies store, executions, this`facts
      ensures Valid()
      ensures Run(cfg, old(Snapshot()), trace) == Some(Snapshot())
      ensures r.RecoverNotFound? <==> id !in old(store.rows)
      ensures MayRematerialize(r) <==>
                id in store.rows &&
                if id in executions.attempts then executions.attempts[id].state == FAILED else store.rows[id].state == EXPIRED
      ensures r.FailedBeforeBroadcast? <==> id in store.rows && id !in executions.attempts
      ensures r.FailedBeforeBroadcast? ==>
                ExpiresIfPast(old(store.rows), store.rows, id, now, height, r.mayRematerialize)
      ensures r.RecoveredFailed? ==> RecoverAnswered(id, true) in facts
      ensures r.RecoverNotFound? ==> store.rows == old(store.rows)
      ensures r.RecoverNotFound? || id !in old(executions.attempts) ==> executions.attempts == old(executions.attempts)
      ensures id in old(store.rows) && id in old(executions.attempts) ==>
                && store.rows == old(store.rows)
                && RecoversAs(old(executions.attempts), executions.attempts, id, old(store.rows)[id], reply, now, height, r)
    {
      ghost var s0 := Snapshot();
      ghost var s := s0;
      trace := [];
      s, trace := Take(s0, s, trace, QueryBegin(id, Recover));
      if id !in store.rows {
        return RecoverNotFound, trace;
      }
      if id !in executions.attempts {
        var expired;
        expired, s, trace := RecoverUnattempted(s0, s, trace, id, now, height);
        return FailedBeforeBroadcast(expired), trace;
      }
      r, s, trace := RecoverAttempt(s0, s, trace, id, now, reply, height);
    }

    /** recover of a request without an attempt. */
    method RecoverUnattempted(ghost s0: State, ghost s1: State, ghost trace0: seq<Event>, id: string, now: int, height: int)
      returns (expired: bool, ghost s: State, ghost trace: seq<Event>)
      requires Valid() && Run(cfg, s0, trace0) == Some(s1) && id in store.rows && id !in executions.attempts
      requires s1 == Snapshot().(procs := map[pid := Querying(id, Recover, store.rows[id])])
      modifies store, this`facts
      ensures Valid()
      ensures Run(cfg, s0, trace) == Some(s) && s == Snapshot()
      ensures id in store.rows && (expired <==> store.rows[id].state == EXPIRED)
      ensures ExpiresIfPast(old(store.rows), store.rows, id, now, height, expired)
    {
      s, trace := Take(s0, s1, trace0, QueryAttempt);
      assert s.procs == map[pid := Querying(id, RecoverFallback, store.rows[id])];
      s, trace := Take(s0, s, trace, QueryAttempt);
      assert s.procs == map[pid := QueryingPreparation(id, RecoverFallback)];
      expired, s, trace := QueryPreparationRow(s0, s, trace, id, RecoverFallback, now, height);
    }

    /** recover of a request with an attempt. */
    method RecoverAttempt(ghost s0: State, ghost s1: State, ghost trace0: seq<Event>, id: string, now: int,
                          reply: StatusReply, height: int)
      returns (r: RecoverResponse, ghost s: State, ghost trace: seq<Event>)
      requires Valid() && Run(cfg, s0, trace0) == Some(s1) && id in store.rows && id in executions.attempts
      requires s1 == Snapshot().(procs := map[pid := Querying(id, Recover, store.rows[id])])
      modifies executions, this`facts
      ensures Valid()
      ensures Run(cfg, s0, trace) == Some(s) && s == Snapshot()
      ensures RecoversAs(old(executions.attempts), executions.attempts, id, store.rows[id], reply, now, height, r)
      ensures r.RecoveredFailed? ==> RecoverAnswered(id, true) in facts
    {
      var row := store.rows[id];
      VerdictFits(executions.attempts, id, row, reply, now, height);
      var refreshed;
      refreshed, s, trace := RefreshAttempt(s0, s1, trace0, id, Recover, row, now, reply);
      r, s, trace := ConcludeRecovery(s0, s, trace, id, row, refreshed, now, height);
    }

    /** The part of recover after the refresh. */
    method ConcludeRecovery(ghost s0: State, ghost s1: State, ghost trace0: seq<Event>, id: string, row: PreparationRow,
                            refreshed: Attempt, now: int, height: int)
      returns (r: RecoverResponse, ghost s: State, ghost trace: seq<Event>)
      requires Valid() && Run(cfg, s0, trace0) == Some(s1)
      requires id in executions.attempts && executions.attempts[id] == refreshed
      requires s1 == Snapshot().(procs := map[pid := Concluding(id, Recover, row, refreshed)])
      modifies executions, this`facts
      ensures Valid()
      ensures Run(cfg, s0, trace) == Some(s) && s == Snapshot()
      ensures r == Verdict(refreshed, height > row.lastValidBlockHeight)
      ensures r.RecoveredFailed? ==> RecoverAnswered(id, true) in facts
      ensures executions.attempts == Recovered(old(executions.attempts), id, r, height, now)
    {
      s, trace := Take(s0, s1, trace0, Conclude(height));
      if refreshed.state == CONFIRMED {
        r := RecoveredConfirmed;
      } else if refreshed.state == FAILED {
        r := RecoveredFailed;
      } else if refreshed.observation.Some? && refreshed.observation.value.ChainStatus? {
        r := StillSubmitted;
      } else if height > row.lastValidBlockHeight {
        assert s.procs == map[pid := Escalating(id, height)];
        s, trace := RecordMissing(s0, s, trace, id, now, height);
        return NotFoundAfterExpiry, s, trace;
      } else {
        r := StillUnknown;
      }
      facts := facts + {RecoverAnswered(id, r.RecoveredFailed?)};
      assert s.procs == map[];
    }

    /** Marks an attempt that was not found after the last valid block height. */
    method RecordMissing(ghost s0: State, ghost s1: State, ghost trace0: seq<Event>, id: string, now: int, height: int)
      returns (ghost s: State, ghost trace: seq<Event>)
      requires Valid() && Run(cfg, s0, trace0) == Some(s1)
      requires s1 == Snapshot().(procs := map[pid := Escalating(id, height)])
      modifies executions, this`facts
      ensures Valid()
      ensures Run(cfg, s0, trace) == Some(s) && s == Snapshot()
      ensures executions.attempts ==
                AfterObservation(old(executions.attempts), id, NEEDS_RECOVERY, MissingAfterExpiry(height), None, now)
    {
      s, trace := Take(s0, s1, trace0, Escalate(now));
      executions.RecordObservation(id, NEEDS_RECOVERY, MissingAfterExpiry(height), None, now);
      facts := facts + {RecoverAnswered(id, false)};
      assert s.procs == map[];
    }

    /** status: the stored verdict of an attempt after a refresh, or whether the preparation expired. */
    method QueryStatus(id: string, now: int, reply: StatusReply, height: int)
      returns (r: StatusResponse, ghost trace: seq<Event>)
      requires Valid()
      modifies store, executions, this`facts
      ensures Valid()
      ensures Run(cfg, old(Snapshot()), trace) == Some(Snapshot())
      ensures r.StatusNotFound? <==> id !in old(store.rows)
      ensures r.PreparationStatus? <==> id in old(store.rows) && id !in old(executions.attempts)
      ensures r.PreparationStatus? ==>
                && ExpiresIfPast(old(store.rows), store.rows, id, now, height, r.expired)
                && executions.attempts == old(executions.attempts)
      ensures r.AttemptStatus? <==> id in old(store.rows) && id in old(executions.attempts)
      ensures r.StatusNotFound? ==> store.rows == old(store.rows) && executions.attempts == old(executions.attempts)
      ensures r.AttemptStatus? ==>
                && id in executions.attempts && r.state == executions.attempts[id].state && store.rows == old(store.rows)
                && Refreshes(old(executions.attempts), executions.attempts, id, old(store.rows)[id].prepared, reply, now)
    {
      ghost var s0 := Snapshot();
      ghost var s := s0;
      trace := [];
      s, trace := Take(s0, s, trace, QueryBegin(id, StatusQuery));
      if id !in store.rows {
        return StatusNotFound, trace;
      }
      var row := store.rows[id];
      assert s.procs == map[pid := Querying(id, StatusQuery, row)];
      if id !in executions.attempts {
        s, trace := Take(s0, s, trace, QueryAttempt);
        assert s.procs == map[pid := QueryingPreparation(id, StatusQuery)];
        var expired;
        expired, s, trace := QueryPreparationRow(s0, s, trace, id, StatusQuery, now, height);
        return PreparationStatus(expired), trace;
      }
      r, trace := AttemptStatusOf(s0, s, trace, id, row, now, reply, height);
    }

    /** status of a request with an attempt. */
    method AttemptStatusOf(ghost s0: State, ghost s1: State, ghost trace0: seq<Event>, id: string, row: PreparationRow,
                           now: int, reply: StatusReply, ghost height: int)
      returns (r: StatusResponse, ghost trace: seq<Event>)
      requires Valid() && Run(cfg, s0, trace0) == Some(s1) && id in executions.attempts
      requires s1 == Snapshot().(procs := map[pid := Querying(id, StatusQuery, row)])
      modifies executions, this`facts
      ensures Valid()
      ensures Run(cfg, s0, trace) == Some(Snapshot())
      ensures id in executions.attempts && r == AttemptStatus(executions.attempts[id].state)
      ensures Refreshes(old(executions.attempts), executions.attempts, id, row.prepared, reply, now)
    {
      ghost var s;
      var refreshed;
      refreshed, s, trace := RefreshAttempt(s0, s1, trace0, id, StatusQuery, row, now, reply);
      s, trace := Take(s0, s, trace, Conclude(height));
      assert s.procs == map[];
      r := AttemptStatus(refreshed.state);
    }

    /** The stored preparation: the request's plan, the compiled message with its hash, commitment and
        last valid height, the process's signer, and an expiry at the plan's expiry or 60 seconds
        after preparation, whichever is earlier. */
    ghost predicate IsRowFor(row: PreparationRow, request: PrepareRequest, compiled: Compiled, preparedAt: int, updatedAt: int) {
      && row.obligationId == request.obligationId && row.planHash == request.planHash && row.state == PREPARED
      && row.lastValidBlockHeight == compiled.lastValidBlockHeight && row.updatedAt == updatedAt
      && row.prepared.requestId == request.requestId && row.prepared.planHash == request.planHash
      && row.prepared.message == compiled.message && row.prepared.messageHash == cfg.hash(compiled.message)
      && row.prepared.signer == cfg.signer(pid)
      && row.prepared.commitmentHash ==
           cfg.commitment(request, cfg.hash(compiled.message), compiled.simulation, row.prepared.expiresAt)
      && row.prepared.expiresAt <= request.planExpiry && row.prepared.expiresAt <= preparedAt + 60
      && (row.prepared.expiresAt == request.planExpiry || row.prepared.expiresAt == preparedAt + 60)
    }

    /** prepare; what the chain-facing part yields or refuses is a parameter. A compiled message is
        one for the configured signer alone. */
    method Prepare(request: PrepareRequest, now: int, compiled: Result<Compiled, Refusal>, preparedAt: int, updatedAt: int)
      returns (r: Result<Prepared, PrepareError>, ghost trace: seq<Event>)
      requires Valid()
      requires compiled.Ok? ==>
                 cfg.feePayer(compiled.value.message) == cfg.signer(pid) && cfg.requiredSignatures(compiled.value.message) == 1
      modifies store, this`facts
      ensures Valid()
      ensures Run(cfg, old(Snapshot()), trace) == Some(Snapshot())
      ensures r == Err(PlanExpired) <==> request.planExpiry <= now
      ensures r.Err? || request.requestId in old(store.rows) ==> store.rows == old(store.rows)
      ensures r.Ok? && request.requestId in old(store.rows) ==>
                && r.value == old(store.rows)[request.requestId].prepared
                && old(store.rows)[request.requestId].planHash == request.planHash
                && !Superseded(old(store.rows), request.requestId, request.obligationId)
      ensures r.Err? && request.requestId in old(store.rows) ==> r.error in {PlanExpired, PreparationBlocked}
      ensures request.requestId in old(store.rows) && now < request.planExpiry ==>
                old(store.rows)[request.requestId].planHash == request.planHash ==>
                  MostRecent(old(store.rows), request.requestId, request.obligationId) ==> r.Ok?
      ensures request.requestId !in old(store.rows) && now < request.planExpiry ==>
                if !ObligationFree(old(store.rows), request.obligationId) then r == Err(PreparationBlocked)
                else if compiled.Err? then r == Err(PreparationRefused(compiled.error))
                else
                  && request.requestId in store.rows && r == Ok(store.rows[request.requestId].prepared)
                  && store.rows == old(store.rows)[request.requestId := store.rows[request.requestId]]
                  && IsRowFor(store.rows[request.requestId], request, compiled.value, preparedAt, updatedAt)
    {
      ghost var s0 := Snapshot();
      ghost var s := s0;
      ghost var pick;
      var lookup;
      lookup, pick := store.ReplayOrBlock(request.requestId, request.obligationId, request.planHash);
      trace := [];
      s, trace := Take(s0, s, trace, PrepareBegin(request, now, pick));
      if request.planExpiry <= now {
        return Err(PlanExpired), trace;
      }
      if lookup.PreparationConflict? {
        return Err(PreparationBlocked), trace;
      }
      if lookup.Replay? {
        facts := facts + {Answered(request.requestId, request.planHash, lookup.prepared)};
        return Ok(lookup.prepared), trace;
      }
      if compiled.Err? {
        // An exception leaves the handler as a crash would: nothing was written.
        s, trace := Take(s0, s, trace, Crash);
        assert s.procs == map[];
        return Err(PreparationRefused(compiled.error)), trace;
      }
      var saved;
      saved, s, trace := SavePreparation(s0, s, trace, request, compiled.value.message, compiled.value.simulation,
                                         compiled.value.lastValidBlockHeight, preparedAt, updatedAt);
      r := if saved.Ok? then Ok(saved.value) else Err(PreparationBlocked);
    }

    /** The part of prepare from the expiry arithmetic on. */
    method SavePreparation(ghost s0: State, ghost s1: State, ghost trace0: seq<Event>, request: PrepareRequest,
                           message: string, simulation: string, lastValidBlockHeight: int, now: int, updatedAt: int)
      returns (r: Result<Prepared, ()>, ghost s: State, ghost trace: seq<Event>)
      requires Valid() && Run(cfg, s0, trace0) == Some(s1)
      requires s1 == Snapshot().(procs := map[pid := Preparing(request)])
      requires cfg.feePayer(message) == cfg.signer(pid) && cfg.requiredSignatures(message) == 1
      requires request.requestId !in store.rows && ObligationFree(store.rows, request.obligationId)
      modifies store, this`facts
      ensures Valid()
      ensures Run(cfg, s0, trace) == Some(s) && s == Snapshot()
      ensures request.requestId in store.rows && r == Ok(store.rows[request.requestId].prepared)
      ensures store.rows == old(store.rows)[request.requestId := store.rows[request.requestId]]
      ensures IsRowFor(store.rows[request.requestId], request, Compiled(message, simulation, lastValidBlockHeight), now, updatedAt)
    {
      var validUntil := if request.planExpiry < now + 60 then request.planExpiry else now + 60;
      var messageHash := cfg.hash(message);
      var prepared := Prepared(request.requestId, request.planHash, message, messageHash,
                               cfg.commitment(request, messageHash, simulation, validUntil), cfg.signer(pid), validUntil);
      ghost var pick;
      r, pick := store.Save(request.requestId, request.obligationId, request.planHash, prepared, lastValidBlockHeight, updatedAt);
      SaveEffect(old(store.rows), pick, request.requestId,
                 PreparationRow(request.obligationId, request.planHash, prepared, lastValidBlockHeight, PREPARED, updatedAt));
      s, trace := Take(s0, s1, trace0, PrepareSave(message, simulation, lastValidBlockHeight, now, pick, updatedAt));
      if r.Ok? {
        facts := facts + {Answered(request.requestId, request.planHash, r.value)};
        if pick.None? {
          facts := facts + {Saved(request.requestId, request.planExpiry, now)};
        }
      }
      assert s.procs == map[];
    }
  }
}
