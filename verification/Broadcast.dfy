/** The broadcast protocol as a transition system: any number of gateway processes run handlers
    over one shared store, interrupted at every database transaction and RPC call, and any of
    them may crash between two steps (gateway/solana_execute.py, gateway/solana_prepare.py). */
module Broadcast {
  import opened Prelude
  import opened Preparations
  import opened Executions

  type Pid = nat

  /** What the model leaves uninterpreted: the configured signers, hashing, message inspection,
      signature checks and transaction assembly. */
  datatype Config = Config(
    signer: Pid -> string,
    hash: string -> string,
    commitment: (PrepareRequest, string, string, int) -> string,
    feePayer: string -> string,
    requiredSignatures: string -> int,
    authentic: Authorization -> bool,
    signs: (string, string, string) -> bool,
    assemble: (string, string) -> string)

  datatype PrepareRequest = PrepareRequest(requestId: string, obligationId: string, planHash: string, planExpiry: int)

  datatype ExecutePayload = ExecutePayload(
    requestId: string,
    message: string,
    authorization: Authorization,
    messageSigner: string,
    signature: string)

  /** How a sendTransaction call ends for the caller. */
  datatype SendOutcome = Accepted(signature: string) | Rejected | Lost

  /** The answer of getSignatureStatuses for one signature. */
  datatype StatusReply = NoStatus | Status(failed: bool, settled: bool)

  /** Which handler runs a status query; RecoverFallback is recover after it saw no attempt. */
  datatype QueryMode = StatusQuery | Recover | RecoverFallback

  /** The program counter of a process inside a handler, with the local values it still uses. */
  datatype Pc =
    | ExecRead(payload: ExecutePayload, row: PreparationRow)
    | ExecReady(requestId: string, core: AttemptCore, prepared: Prepared, at: int, height: int)
    | ExecClaimed(requestId: string, core: AttemptCore, prepared: Prepared)
    | ExecSent(requestId: string, core: AttemptCore, prepared: Prepared, outcome: SendOutcome)
    | Querying(requestId: string, mode: QueryMode, row: PreparationRow)
    | QueryingPreparation(requestId: string, mode: QueryMode)
    | Expiring(requestId: string, fenceAfter: bool)
    | Observing(requestId: string, mode: QueryMode, row: PreparationRow, attempt: Attempt)
    | Recording(requestId: string, mode: QueryMode, row: PreparationRow,
                state: AttemptState, observation: Observation, receipt: Option<Receipt>)
    | Rereading(requestId: string, mode: QueryMode, row: PreparationRow)
    | Concluding(requestId: string, mode: QueryMode, row: PreparationRow, attempt: Attempt)
    | Escalating(requestId: string, height: int)
    | Preparing(request: PrepareRequest)

  /** One sendTransaction call. */
  datatype Send = Send(requestId: string, authorizationId: string, signature: string, signedTransaction: string)

  /** Facts about the past that the store itself does not keep. */
  datatype Fact =
    | Saved(requestId: string, planExpiry: int, preparedAt: int)
    | Answered(requestId: string, planHash: string, prepared: Prepared)
    | Claimed(requestId: string, checkedAt: int, height: int)
    | CrashedAfterClaim(requestId: string)
    | ConfirmationRecorded(requestId: string)
    | FailureRecorded(requestId: string)
    | RecoverAnswered(requestId: string, mayRematerialize: bool)
    | Fenced(requestId: string)

  datatype State = State(
    preparations: PreparationTable,
    attempts: AttemptTable,
    procs: map<Pid, Pc>,
    sends: seq<Send>,
    facts: set<Fact>)

  const INITIAL := State(map[], map[], map[], [], {})

  /** The choices made by callers, clocks, the RPC and the scheduler. */
  datatype Action =
    | ExecBegin(payload: ExecutePayload)
    | ExecValidate(now: int, height: int)
    | ExecClaim(now: int)
    | ExecSend(outcome: SendOutcome)
    | ExecRecord(now: int)
    | QueryBegin(requestId: string, mode: QueryMode)
    | QueryAttempt
    | QueryPreparation(now: int, height: int)
    | ExpireRow(now: int)
    | Observe(now: int, reply: StatusReply)
    | Record(now: int)
    | Reread
    | Conclude(height: int)
    | Escalate(now: int)
    | PrepareBegin(request: PrepareRequest, now: int, pick: Option<string>)
    | PrepareSave(message: string, simulation: string, lastValidBlockHeight: int, now: int,
                  pick: Option<string>, updatedAt: int)
    | Crash

  // ---------- local computations ----------

  datatype Validation = PreparationExpired | Invalid(code: ValidationCode) | Valid(core: AttemptCore)

  datatype ValidationCode =
    | PREPARED_MESSAGE_MISMATCH
    | PREPARED_MESSAGE_HASH_MISMATCH
    | AUTHORIZATION_INVALID
    | AUTHORIZATION_BINDING_MISMATCH
    | AUTHORIZATION_EXPIRED
    | MESSAGE_SIGNATURE_INVALID
    | LOCAL_POLICY_BLOCK

  /** The checks of _validate_execution and authorize_and_execute between the row lookup and the claim. */
  function ValidateExecution(cfg: Config, pid: Pid, payload: ExecutePayload, row: PreparationRow, now: int, height: int): Validation {
    var prepared, auth := row.prepared, payload.authorization;
    if prepared.expiresAt <= now || height > row.lastValidBlockHeight then PreparationExpired
    else if payload.message != prepared.message then Invalid(PREPARED_MESSAGE_MISMATCH)
    else if cfg.hash(payload.message) != prepared.messageHash then Invalid(PREPARED_MESSAGE_HASH_MISMATCH)
    else if !auth.singleUse then Invalid(AUTHORIZATION_INVALID)
    else if auth.requestId != payload.requestId || auth.commitmentHash != prepared.commitmentHash
         || auth.messageHash != prepared.messageHash || auth.signer != prepared.signer
    then Invalid(AUTHORIZATION_BINDING_MISMATCH)
    else if auth.issuedAt > now || auth.expiresAt <= auth.issuedAt then Invalid(AUTHORIZATION_INVALID)
    else if auth.expiresAt <= now then Invalid(AUTHORIZATION_EXPIRED)
    else if auth.expiresAt > prepared.expiresAt then Invalid(AUTHORIZATION_INVALID)
    else if !cfg.authentic(auth) then Invalid(AUTHORIZATION_INVALID)
    else if payload.messageSigner != prepared.signer then Invalid(MESSAGE_SIGNATURE_INVALID)
    else if cfg.requiredSignatures(payload.message) != 1 || cfg.feePayer(payload.message) != cfg.signer(pid)
    then Invalid(LOCAL_POLICY_BLOCK)
    else if !cfg.signs(cfg.signer(pid), payload.message, payload.signature) then Invalid(MESSAGE_SIGNATURE_INVALID)
    else Valid(AttemptCore(auth, prepared.messageHash, prepared.commitmentHash, cfg.signer(pid), payload.signature,
                           cfg.assemble(payload.message, payload.signature)))
  }

  /** _receipt: built from the preparation and the authorization, not from the attempt's columns. */
  function MakeReceipt(prepared: Prepared, core: AttemptCore, state: AttemptState, now: int): Receipt {
    Receipt(prepared.requestId, core.authorization.id, prepared.commitmentHash, prepared.messageHash,
            prepared.signer, core.signature, state, now)
  }

  function ObservedState(reply: StatusReply, before: AttemptState): AttemptState {
    match reply
    case NoStatus => if before == SUBMITTED then SUBMITTED else NEEDS_RECOVERY
    case Status(failed, settled) => if failed then FAILED else if settled then CONFIRMED else SUBMITTED
  }

  function ObservedDetail(reply: StatusReply): Observation {
    match reply
    case NoStatus => StatusMissing
    case Status(failed, settled) => ChainStatus(failed, settled)
  }

  function ObservedReceipt(prepared: Prepared, core: AttemptCore, reply: StatusReply, before: AttemptState, now: int): Option<Receipt> {
    var state := ObservedState(reply, before);
    if Terminal(state) then Some(MakeReceipt(prepared, core, state, now)) else None
  }

  /** A preparation expires at the plan's expiry or 60 seconds after it was simulated. */
  function ValidUntil(planExpiry: int, now: int): int {
    if planExpiry < now + 60 then planExpiry else now + 60
  }

  function MakeRow(cfg: Config, pid: Pid, request: PrepareRequest, message: string, simulation: string,
                   lastValidBlockHeight: int, now: int, updatedAt: int): PreparationRow
  {
    var validUntil := ValidUntil(request.planExpiry, now);
    PreparationRow(
      request.obligationId,
      request.planHash,
      Prepared(request.requestId, request.planHash, message, cfg.hash(message),
               cfg.commitment(request, cfg.hash(message), simulation, validUntil),
               cfg.signer(pid), validUntil),
      lastValidBlockHeight,
      PREPARED,
      updatedAt)
  }

  // ---------- steps ----------

  function Goto(s: State, p: Pid, pc: Pc): State {
    s.(procs := s.procs[p := pc])
  }

  function Leave(s: State, p: Pid): State {
    s.(procs := s.procs - {p})
  }

  function Note(s: State, fact: Fact): State {
    s.(facts := s.facts + {fact})
  }

  /** One step of an idle process: it enters a handler and does its first database access. */
  function Enter(cfg: Config, s: State, p: Pid, a: Action): Option<State>
    requires p !in s.procs
  {
    match a
    case ExecBegin(payload) =>
      if payload.requestId !in s.preparations || s.preparations[payload.requestId].state != PREPARED then Some(s)
      else Some(Goto(s, p, ExecRead(payload, s.preparations[payload.requestId])))
    case QueryBegin(requestId, mode) =>
      if mode == RecoverFallback then None
      else if requestId !in s.preparations then Some(s)
      else Some(Goto(s, p, Querying(requestId, mode, s.preparations[requestId])))
    case PrepareBegin(request, now, pick) =>
      if !Selects(s.preparations, request.requestId, request.obligationId, pick) then None
      else if request.planExpiry <= now then Some(s)
      else (match LookedUp(s.preparations, pick, request.requestId, request.planHash)
            case Fresh => Some(Goto(s, p, Preparing(request)))
            case Replay(prepared) => Some(Note(s, Answered(request.requestId, request.planHash, prepared)))
            case PreparationConflict => Some(s))
    case _ => None
  }

  function ValidateStep(cfg: Config, s: State, p: Pid, payload: ExecutePayload, row: PreparationRow, now: int, height: int): State {
    match ValidateExecution(cfg, p, payload, row, now, height)
    case PreparationExpired => Goto(s, p, Expiring(payload.requestId, false))
    case Invalid(_) => Leave(s, p)
    case Valid(core) => Goto(s, p, ExecReady(payload.requestId, core, row.prepared, now, height))
  }

  function ClaimStep(s: State, p: Pid, pc: Pc, now: int): State
    requires pc.ExecReady?
  {
    match ClaimOutcome(s.attempts, pc.requestId, pc.core, now)
    case Err(_) => Leave(s, p)
    case Ok(attempts) =>
      Note(Goto(s, p, ExecClaimed(pc.requestId, pc.core, pc.prepared)).(attempts := attempts),
           Claimed(pc.requestId, pc.at, pc.height))
  }

  function SendStep(s: State, p: Pid, pc: Pc, outcome: SendOutcome): State
    requires pc.ExecClaimed?
  {
    Goto(s, p, ExecSent(pc.requestId, pc.core, pc.prepared, outcome))
    .(sends := s.sends + [SendOf(pc.requestId, pc.core)])
  }

  function SendOf(requestId: string, core: AttemptCore): Send {
    Send(requestId, core.authorization.id, core.signature, core.signedTransaction)
  }

  /** What happens after sendTransaction returned or raised. */
  function RecordOutcomeStep(s: State, p: Pid, pc: Pc, now: int): State
    requires pc.ExecSent?
  {
    if pc.outcome == Accepted(pc.core.signature) then
      if Started(s.attempts, pc.requestId) then
        Leave(s, p).(attempts := AfterSubmission(s.attempts, pc.requestId, MakeReceipt(pc.prepared, pc.core, SUBMITTED, now), now))
      else Goto(s, p, ExecSent(pc.requestId, pc.core, pc.prepared, Lost))
    else if pc.outcome == Rejected then
      var next := Leave(s, p).(attempts := AfterRejection(s.attempts, pc.requestId, now));
      if Started(s.attempts, pc.requestId) then Note(next, FailureRecorded(pc.requestId)) else next
    else Leave(s, p).(attempts := AfterLostOutcome(s.attempts, pc.requestId, now))
  }

  function QueryAttemptStep(s: State, p: Pid, pc: Pc): State
    requires pc.Querying?
  {
    if pc.requestId !in s.attempts then
      if pc.mode == Recover then Goto(s, p, Querying(pc.requestId, RecoverFallback, pc.row))
      else Goto(s, p, QueryingPreparation(pc.requestId, pc.mode))
    else
      var attempt := s.attempts[pc.requestId];
      if Terminal(attempt.state) then Goto(s, p, Concluding(pc.requestId, pc.mode, pc.row, attempt))
      else Goto(s, p, Observing(pc.requestId, pc.mode, pc.row, attempt))
  }

  /** status of the preparation layer; recover answers failed_before_broadcast through it. */
  function QueryPreparationStep(s: State, p: Pid, pc: Pc, now: int, height: int): State
    requires pc.QueryingPreparation?
  {
    if pc.requestId !in s.preparations then Leave(s, p)
    else
      var row := s.preparations[pc.requestId];
      if row.state == EXPIRED then
        if pc.mode == RecoverFallback then Note(Leave(s, p), Fenced(pc.requestId)) else Leave(s, p)
      else if now >= row.prepared.expiresAt || height > row.lastValidBlockHeight then
        Goto(s, p, Expiring(pc.requestId, pc.mode == RecoverFallback))
      else Leave(s, p)
  }

  function ExpireStep(s: State, p: Pid, pc: Pc, now: int): State
    requires pc.Expiring?
  {
    var next := Leave(s, p).(preparations := AfterExpiry(s.preparations, pc.requestId, now));
    if pc.fenceAfter then Note(next, Fenced(pc.requestId)) else next
  }

  function ObserveStep(s: State, p: Pid, pc: Pc, now: int, reply: StatusReply): State
    requires pc.Observing?
  {
    Goto(s, p, Recording(pc.requestId, pc.mode, pc.row,
                         ObservedState(reply, pc.attempt.state),
                         ObservedDetail(reply),
                         ObservedReceipt(pc.row.prepared, pc.attempt.core, reply, pc.attempt.state, now)))
  }

  function NoteTerminal(s: State, requestId: string, state: AttemptState): State {
    if state == CONFIRMED then Note(s, ConfirmationRecorded(requestId))
    else if state == FAILED then Note(s, FailureRecorded(requestId))
    else s
  }

  function RecordStep(s: State, p: Pid, pc: Pc, now: int): State
    requires pc.Recording?
  {
    NoteTerminal(
      Goto(s, p, Rereading(pc.requestId, pc.mode, pc.row))
      .(attempts := AfterObservation(s.attempts, pc.requestId, pc.state, pc.observation, pc.receipt, now)),
      pc.requestId, pc.state)
  }

  function RereadStep(s: State, p: Pid, pc: Pc): State
    requires pc.Rereading?
  {
    if pc.requestId !in s.attempts then Leave(s, p)
    else Goto(s, p, Concluding(pc.requestId, pc.mode, pc.row, s.attempts[pc.requestId]))
  }

  /** The answer of status or recover for a request that has an attempt. */
  function ConcludeStep(s: State, p: Pid, pc: Pc, height: int): State
    requires pc.Concluding?
  {
    if pc.mode != Recover then Leave(s, p)
    else if pc.attempt.state == FAILED then Note(Leave(s, p), RecoverAnswered(pc.requestId, true))
    else if pc.attempt.state == CONFIRMED || (pc.attempt.observation.Some? && pc.attempt.observation.value.ChainStatus?)
            || height <= pc.row.lastValidBlockHeight
    then Note(Leave(s, p), RecoverAnswered(pc.requestId, false))
    else Goto(s, p, Escalating(pc.requestId, height))
  }

  function EscalateStep(s: State, p: Pid, pc: Pc, now: int): State
    requires pc.Escalating?
  {
    Note(Leave(s, p), RecoverAnswered(pc.requestId, false))
    .(attempts := AfterObservation(s.attempts, pc.requestId, NEEDS_RECOVERY, MissingAfterExpiry(pc.height), None, now))
  }

  /** The insertion of save; a message is compiled for the preparing process's own signer. */
  function SaveStep(cfg: Config, s: State, p: Pid, request: PrepareRequest, row: PreparationRow, now: int, pick: Option<string>): State
    requires pick.Some? ==> pick.value in s.preparations
  {
    var next := Leave(s, p).(preparations := SaveTable(s.preparations, pick, request.requestId, row));
    match SaveResult(s.preparations, pick, request.requestId, row)
    case Err(_) => next
    case Ok(prepared) =>
      var answered := Note(next, Answered(request.requestId, request.planHash, prepared));
      if pick.None? then Note(answered, Saved(request.requestId, request.planExpiry, now)) else answered
  }

  function CrashStep(s: State, p: Pid, pc: Pc): State {
    if pc.ExecClaimed? || pc.ExecSent? then Note(Leave(s, p), CrashedAfterClaim(pc.requestId)) else Leave(s, p)
  }

  /** One step of a process inside a handler. */
  function Continue(cfg: Config, s: State, p: Pid, a: Action): Option<State>
    requires p in s.procs
  {
    var pc := s.procs[p];
    match a
    case Crash => Some(CrashStep(s, p, pc))
    case ExecValidate(now, height) =>
      if pc.ExecRead? then Some(ValidateStep(cfg, s, p, pc.payload, pc.row, now, height)) else None
    case ExecClaim(now) => if pc.ExecReady? then Some(ClaimStep(s, p, pc, now)) else None
    case ExecSend(outcome) => if pc.ExecClaimed? then Some(SendStep(s, p, pc, outcome)) else None
    case ExecRecord(now) => if pc.ExecSent? then Some(RecordOutcomeStep(s, p, pc, now)) else None
    case QueryAttempt => if pc.Querying? then Some(QueryAttemptStep(s, p, pc)) else None
    case QueryPreparation(now, height) =>
      if pc.QueryingPreparation? then Some(QueryPreparationStep(s, p, pc, now, height)) else None
    case ExpireRow(now) => if pc.Expiring? then Some(ExpireStep(s, p, pc, now)) else None
    case Observe(now, reply) => if pc.Observing? then Some(ObserveStep(s, p, pc, now, reply)) else None
    case Record(now) => if pc.Recording? then Some(RecordStep(s, p, pc, now)) else None
    case Reread => if pc.Rereading? then Some(RereadStep(s, p, pc)) else None
    case Conclude(height) => if pc.Concluding? then Some(ConcludeStep(s, p, pc, height)) else None
    case Escalate(now) => if pc.Escalating? then Some(EscalateStep(s, p, pc, now)) else None
    case PrepareSave(message, simulation, lastValidBlockHeight, now, pick, updatedAt) =>
      if pc.Preparing? && Selects(s.preparations, pc.request.requestId, pc.request.obligationId, pick)
         && cfg.feePayer(message) == cfg.signer(p) && cfg.requiredSignatures(message) == 1
      then
        var row := MakeRow(cfg, p, pc.request, message, simulation, lastValidBlockHeight, now, updatedAt);
        Some(SaveStep(cfg, s, p, pc.request, row, now, pick))
      else None
    case _ => None
  }

  /** One step of the system; None when the action is not possible for the process. */
  function Step(cfg: Config, s: State, p: Pid, a: Action): Option<State> {
    if p in s.procs then Continue(cfg, s, p, a) else Enter(cfg, s, p, a)
  }

  datatype Event = Event(pid: Pid, action: Action)

  /** The state after a whole run, None when some step of it is not possible. */
  function Run(cfg: Config, s: State, events: seq<Event>): Option<State>
    decreases |events|
  {
    if events == [] then Some(s)
    else
      match Step(cfg, s, events[0].pid, events[0].action)
      case None => None
      case Some(next) => Run(cfg, next, events[1..])
  }

  lemma RunOne(cfg: Config, s: State, e: Event)
    requires Step(cfg, s, e.pid, e.action).Some?
    ensures Run(cfg, s, [e]) == Step(cfg, s, e.pid, e.action)
  {
    assert [e][1..] == [];
  }

  lemma RunCons(cfg: Config, s: State, e: Event, rest: seq<Event>)
    requires Step(cfg, s, e.pid, e.action).Some?
    ensures Run(cfg, s, [e] + rest) == Run(cfg, Step(cfg, s, e.pid, e.action).value, rest)
  {
    assert ([e] + rest)[1..] == rest;
  }

  lemma {:induction false} RunSnoc(cfg: Config, s: State, events: seq<Event>, e: Event)
    requires Run(cfg, s, events).Some? && Step(cfg, Run(cfg, s, events).value, e.pid, e.action).Some?
    ensures Run(cfg, s, events + [e]) == Step(cfg, Run(cfg, s, events).value, e.pid, e.action)
    decreases |events|
  {
    if events == [] {
      RunOne(cfg, s, e);
      assert [] + [e] == [e];
    } else {
      var next := Step(cfg, s, events[0].pid, events[0].action).value;
      RunSnoc(cfg, next, events[1..], e);
      assert events + [e] == [events[0]] + (events[1..] + [e]);
      RunCons(cfg, s, events[0], events[1..] + [e]);
    }
  }
}
