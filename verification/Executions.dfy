/** The signature-first table of execution attempts (ExecutionStore in gateway/solana_execute.py). */
module Executions {
  import opened Prelude

  datatype Authorization = Authorization(
    id: string,
    requestId: string,
    commitmentHash: string,
    messageHash: string,
    signer: string,
    singleUse: bool,
    issuedAt: int,
    expiresAt: int,
    signature: string)

  /** The columns claim writes and nothing ever rewrites. */
  datatype AttemptCore = AttemptCore(
    authorization: Authorization,
    messageHash: string,
    commitmentHash: string,
    signer: string,
    signature: string,
    signedTransaction: string)

  datatype AttemptState = BROADCAST_STARTED | SUBMITTED | NEEDS_RECOVERY | CONFIRMED | FAILED

  datatype Observation =
    | StatusMissing
    | ChainStatus(failed: bool, settled: bool)
    | MissingAfterExpiry(height: int)
    | DefinitiveRejection

  datatype Receipt = Receipt(
    requestId: string,
    authorizationId: string,
    commitmentHash: string,
    messageHash: string,
    signer: string,
    signature: string,
    state: AttemptState,
    observedAt: int)

  datatype Attempt = Attempt(
    core: AttemptCore,
    state: AttemptState,
    persistedAt: int,
    submittedAt: Option<int>,
    confirmedAt: Option<int>,
    observation: Option<Observation>,
    receipt: Option<Receipt>,
    updatedAt: int)

  type AttemptTable = map<string, Attempt>

  datatype ClaimError =
    | ExecutionConflict
    | ClaimNeedsRecovery(signature: string)
    | AlreadyStarted(state: AttemptState, signature: string)

  predicate Terminal(state: AttemptState) {
    state == CONFIRMED || state == FAILED
  }

  /** The UNIQUE constraint on authorization_id. */
  ghost predicate AuthorizationsUnique(t: AttemptTable) {
    forall a, b :: a in t && b in t && t[a].core.authorization.id == t[b].core.authorization.id ==> a == b
  }

  predicate AuthorizationUsed(t: AttemptTable, authorizationId: string) {
    exists id <- t :: t[id].core.authorization.id == authorizationId
  }

  /** The comparison claim makes between a stored attempt and the one asked for. */
  predicate SameClaim(t: AttemptTable, id: string, requestId: string, core: AttemptCore)
    requires id in t
  {
    && id == requestId
    && t[id].core.authorization.id == core.authorization.id
    && t[id].core.messageHash == core.messageHash
    && t[id].core.commitmentHash == core.commitmentHash
    && t[id].core.signature == core.signature
  }

  function StartedAttempt(core: AttemptCore, now: int): Attempt {
    Attempt(core, BROADCAST_STARTED, now, None, None, None, None, now)
  }

  function ClaimOutcome(t: AttemptTable, requestId: string, core: AttemptCore, now: int): Result<AttemptTable, ClaimError> {
    if requestId in t && SameClaim(t, requestId, requestId, core) then
      if t[requestId].state in {BROADCAST_STARTED, NEEDS_RECOVERY}
      then Err(ClaimNeedsRecovery(t[requestId].core.signature))
      else Err(AlreadyStarted(t[requestId].state, t[requestId].core.signature))
    else if requestId in t || AuthorizationUsed(t, core.authorization.id) then Err(ExecutionConflict)
    else Ok(t[requestId := StartedAttempt(core, now)])
  }

  /** A claim succeeds if and only if neither id was used before; then it adds one row. */
  lemma ClaimSucceedsIffUnused(t: AttemptTable, requestId: string, core: AttemptCore, now: int)
    requires AuthorizationsUnique(t)
    ensures ClaimOutcome(t, requestId, core, now).Ok? <==>
              requestId !in t && forall id :: id in t ==> t[id].core.authorization.id != core.authorization.id
    ensures ClaimOutcome(t, requestId, core, now).Ok? ==>
              AuthorizationsUnique(ClaimOutcome(t, requestId, core, now).value) &&
              ClaimOutcome(t, requestId, core, now).value ==
                t[requestId := Attempt(core, BROADCAST_STARTED, now, None, None, None, None, now)]
  {
  }

  predicate Started(t: AttemptTable, requestId: string) {
    requestId in t && t[requestId].state == BROADCAST_STARTED
  }

  function AfterSubmission(t: AttemptTable, requestId: string, receipt: Receipt, now: int): AttemptTable {
    if Started(t, requestId)
    then t[requestId := t[requestId].(state := SUBMITTED, submittedAt := Some(now), receipt := Some(receipt), updatedAt := now)]
    else t
  }

  function AfterLostOutcome(t: AttemptTable, requestId: string, now: int): AttemptTable {
    if Started(t, requestId) then t[requestId := t[requestId].(state := NEEDS_RECOVERY, updatedAt := now)] else t
  }

  function AfterRejection(t: AttemptTable, requestId: string, now: int): AttemptTable {
    if Started(t, requestId)
    then t[requestId := t[requestId].(state := FAILED, observation := Some(DefinitiveRejection), updatedAt := now)]
    else t
  }

  function Coalesce<T>(a: Option<T>, b: Option<T>): Option<T> {
    if a.Some? then a else b
  }

  /** The unguarded update of record_observation. */
  function AfterObservation(t: AttemptTable, requestId: string, state: AttemptState, observation: Observation,
                             receipt: Option<Receipt>, now: int): AttemptTable
  {
    if requestId in t
    then t[requestId := t[requestId].(
      state := state,
      observation := Some(observation),
      receipt := Coalesce(receipt, t[requestId].receipt),
      confirmedAt := Coalesce(if state == CONFIRMED then Some(now) else None, t[requestId].confirmedAt),
      updatedAt := now)]
    else t
  }

  lemma SameCoreKeepsUnique(t: AttemptTable, requestId: string, row: Attempt)
    requires AuthorizationsUnique(t) && requestId in t && row.core == t[requestId].core
    ensures AuthorizationsUnique(t[requestId := row])
  {
  }

  /** Attempts are never removed and their claimed columns never change. */
  ghost predicate CoresKept(t: AttemptTable, t': AttemptTable) {
    forall id :: id in t ==> id in t' && t'[id].core == t[id].core
  }

  /** Why a claim is refused: a repeated one by what became of the first, any other as a conflict. */
  ghost predicate RefusedAs(t: AttemptTable, requestId: string, core: AttemptCore, error: ClaimError) {
    if requestId in t && t[requestId].core.authorization.id == core.authorization.id
       && t[requestId].core.signature == core.signature && t[requestId].core.messageHash == core.messageHash
       && t[requestId].core.commitmentHash == core.commitmentHash
    then
      if t[requestId].state == BROADCAST_STARTED || t[requestId].state == NEEDS_RECOVERY
      then error == ClaimNeedsRecovery(t[requestId].core.signature)
      else error == AlreadyStarted(t[requestId].state, t[requestId].core.signature)
    else error == ExecutionConflict
  }

  /** The store itself; each method is one database transaction. */
  class ExecutionStore {
    var attempts: AttemptTable

    ghost predicate Valid()
      reads this
    {
      AuthorizationsUnique(attempts)
    }

    constructor ()
      ensures Valid() && attempts == map[]
    {
      attempts := map[];
    }

    method Claim(requestId: string, core: AttemptCore, now: int) returns (r: Result<(), ClaimError>)
      requires Valid()
      modifies this
      ensures Valid()
      ensures r.Ok? <==> ClaimOutcome(old(attempts), requestId, core, now).Ok?
      ensures r.Ok? ==> attempts == ClaimOutcome(old(attempts), requestId, core, now).value
      ensures r.Err? ==> attempts == old(attempts) && r.error == ClaimOutcome(old(attempts), requestId, core, now).error
      ensures r.Ok? <==> requestId !in old(attempts)
                         && forall id :: id in old(attempts) ==> old(attempts)[id].core.authorization.id != core.authorization.id
      ensures r.Ok? ==>
                attempts == old(attempts)[requestId := Attempt(core, BROADCAST_STARTED, now, None, None, None, None, now)]
      ensures r.Err? ==> RefusedAs(old(attempts), requestId, core, r.error)
    {
      ClaimSucceedsIffUnused(attempts, requestId, core, now);
      if exists id <- attempts :: id == requestId || attempts[id].core.authorization.id == core.authorization.id {
        var id :| id in attempts && (id == requestId || attempts[id].core.authorization.id == core.authorization.id);
        if !SameClaim(attempts, id, requestId, core) {
          return Err(ExecutionConflict);
        }
        if attempts[id].state in {BROADCAST_STARTED, NEEDS_RECOVERY} {
          return Err(ClaimNeedsRecovery(attempts[id].core.signature));
        }
        return Err(AlreadyStarted(attempts[id].state, attempts[id].core.signature));
      }
      attempts := attempts[requestId := StartedAttempt(core, now)];
      return Ok(());
    }

    /** False when no row was waiting for the submission. */
    method RecordSubmitted(requestId: string, receipt: Receipt, now: int) returns (recorded: bool)
      requires Valid()
      modifies this
      ensures Valid()
      ensures attempts == AfterSubmission(old(attempts), requestId, receipt, now)
      ensures recorded == Started(old(attempts), requestId)
      ensures recorded <==> requestId in old(attempts) && old(attempts)[requestId].state == BROADCAST_STARTED
      ensures attempts == if recorded
                          then old(attempts)[requestId := old(attempts)[requestId].(
                            state := SUBMITTED, submittedAt := Some(now), receipt := Some(receipt), updatedAt := now)]
                          else old(attempts)
    {
      recorded := requestId in attempts && attempts[requestId].state == BROADCAST_STARTED;
      if recorded {
        var row := attempts[requestId];
        attempts := attempts[requestId :=
          row.(state := SUBMITTED, submittedAt := Some(now), receipt := Some(receipt), updatedAt := now)];
      }
    }

    method MarkNeedsRecovery(requestId: string, now: int)
      requires Valid()
      modifies this
      ensures Valid()
      ensures attempts == AfterLostOutcome(old(attempts), requestId, now)
      ensures attempts == if requestId in old(attempts) && old(attempts)[requestId].state == BROADCAST_STARTED
                          then old(attempts)[requestId := old(attempts)[requestId].(state := NEEDS_RECOVERY, updatedAt := now)]
                          else old(attempts)
    {
      if requestId in attempts && attempts[requestId].state == BROADCAST_STARTED {
        attempts := attempts[requestId := attempts[requestId].(state := NEEDS_RECOVERY, updatedAt := now)];
      }
    }

    method RecordDefinitiveRejection(requestId: string, now: int) returns (recorded: bool)
      requires Valid()
      modifies this
      ensures Valid()
      ensures attempts == AfterRejection(old(attempts), requestId, now)
      ensures recorded == Started(old(attempts), requestId)
      ensures recorded <==> requestId in old(attempts) && old(attempts)[requestId].state == BROADCAST_STARTED
      ensures attempts == if recorded
                          then old(attempts)[requestId := old(attempts)[requestId].(
                            state := FAILED, observation := Some(DefinitiveRejection), updatedAt := now)]
                          else old(attempts)
    {
      recorded := requestId in attempts && attempts[requestId].state == BROADCAST_STARTED;
      if recorded {
        attempts := attempts[requestId :=
          attempts[requestId].(state := FAILED, observation := Some(DefinitiveRejection), updatedAt := now)];
      }
    }

    method RecordObservation(requestId: string, state: AttemptState, observation: Observation,
                             receipt: Option<Receipt>, now: int)
      requires Valid()
      modifies this
      ensures Valid()
      ensures attempts == AfterObservation(old(attempts), requestId, state, observation, receipt, now)
      ensures requestId !in old(attempts) ==> attempts == old(attempts)
      ensures requestId in old(attempts) ==>
                var before := old(attempts)[requestId];
                attempts == old(attempts)[requestId := Attempt(
                  before.core, state, before.persistedAt, before.submittedAt,
                  if state == CONFIRMED then Some(now) else before.confirmedAt,
                  Some(observation), if receipt.Some? then receipt else before.receipt, now)]
    {
      if requestId in attempts {
        var row := attempts[requestId];
        var confirmedAt := if state == CONFIRMED then Some(now) else None;
        var updated := row.(
          state := state,
          observation := Some(observation),
          receipt := if receipt.Some? then receipt else row.receipt,
          confirmedAt := if confirmedAt.Some? then confirmedAt else row.confirmedAt,
          updatedAt := now);
        SameCoreKeepsUnique(attempts, requestId, updated);
        attempts := attempts[requestId := updated];
      }
    }
  }
}
