/** What every interleaving of any number of gateway processes keeps, with crashes anywhere. */
module BroadcastSafety {
  import opened Prelude
  import opened Preparations
  import opened Executions
  import opened Broadcast

  // ---------- what can only grow ----------

  /** Everything a process may rely on having read: rows, claimed columns, sends and facts stay. */
  ghost predicate Grows(s: State, s': State) {
    && RowsKept(s.preparations, s'.preparations)
    && CoresKept(s.attempts, s'.attempts)
    && s.sends <= s'.sends
    && s.facts <= s'.facts
  }

  // ---------- the invariant ----------

  /** A preparation row is bound to its request, its message and the bounds of its expiry. */
  ghost predicate RowBound(cfg: Config, facts: set<Fact>, requestId: string, row: PreparationRow) {
    && row.prepared.requestId == requestId
    && row.prepared.planHash == row.planHash
    && row.prepared.messageHash == cfg.hash(row.prepared.message)
    && cfg.feePayer(row.prepared.message) == row.prepared.signer
    && ExpiryBounded(facts, requestId, row.prepared.expiresAt)
  }

  ghost predicate ExpiryBounded(facts: set<Fact>, requestId: string, expiresAt: int) {
    exists planExpiry, at :: Saved(requestId, planExpiry, at) in facts && expiresAt <= planExpiry && expiresAt <= at + 60
  }

  /** The claimed columns fit the stored preparation, and both signatures were checked. */
  ghost predicate CoreBound(cfg: Config, requestId: string, prepared: Prepared, core: AttemptCore) {
    && core.authorization.requestId == requestId
    && core.authorization.singleUse
    && core.messageHash == core.authorization.messageHash == prepared.messageHash
    && core.commitmentHash == core.authorization.commitmentHash == prepared.commitmentHash
    && core.signer == core.authorization.signer == prepared.signer
    && cfg.authentic(core.authorization)
    && cfg.signs(core.signer, prepared.message, core.signature)
    && core.signedTransaction == cfg.assemble(prepared.message, core.signature)
  }

  /** The time and height window in which a validation may succeed. */
  ghost predicate InWindow(row: PreparationRow, auth: Authorization, at: int, height: int) {
    && auth.issuedAt <= at < auth.expiresAt <= row.prepared.expiresAt
    && height <= row.lastValidBlockHeight
  }

  ghost predicate ReceiptFits(requestId: string, core: AttemptCore, receipt: Receipt) {
    && receipt.requestId == requestId
    && receipt.authorizationId == core.authorization.id
    && receipt.commitmentHash == core.commitmentHash
    && receipt.messageHash == core.messageHash
    && receipt.signer == core.signer
    && receipt.signature == core.signature
  }

  /** The attempt was claimed after a validation inside its window. */
  ghost predicate ClaimChecked(s: State, requestId: string)
    requires requestId in s.attempts && requestId in s.preparations
  {
    exists at, height :: Claimed(requestId, at, height) in s.facts &&
      InWindow(s.preparations[requestId], s.attempts[requestId].core.authorization, at, height)
  }

  ghost predicate AttemptBound(cfg: Config, s: State, requestId: string)
    requires requestId in s.attempts
  {
    var attempt := s.attempts[requestId];
    && requestId in s.preparations
    && CoreBound(cfg, requestId, s.preparations[requestId].prepared, attempt.core)
    && ClaimChecked(s, requestId)
    && (attempt.receipt.Some? ==> ReceiptFits(requestId, attempt.core, attempt.receipt.value))
    && (attempt.state == FAILED ==> FailureRecorded(requestId) in s.facts)
    && (attempt.state == CONFIRMED ==> ConfirmationRecorded(requestId) in s.facts)
  }

  ghost predicate KnowsRow(s: State, requestId: string, row: PreparationRow) {
    requestId in s.preparations && SameRow(row, s.preparations[requestId])
  }

  ghost predicate KnowsCore(s: State, requestId: string, core: AttemptCore) {
    requestId in s.attempts && s.attempts[requestId].core == core
  }

  ghost predicate KnowsPrepared(s: State, requestId: string, prepared: Prepared) {
    requestId in s.preparations && s.preparations[requestId].prepared == prepared
  }

  /** The local values of a process fit the store. */
  ghost predicate PcFits(cfg: Config, s: State, pc: Pc) {
    match pc
    case ExecRead(payload, row) => KnowsRow(s, payload.requestId, row)
    case ExecReady(requestId, core, prepared, at, height) =>
      && KnowsPrepared(s, requestId, prepared)
      && CoreBound(cfg, requestId, prepared, core)
      && InWindow(s.preparations[requestId], core.authorization, at, height)
    case ExecClaimed(requestId, core, prepared) => KnowsPrepared(s, requestId, prepared) && KnowsCore(s, requestId, core)
    case ExecSent(requestId, core, prepared, _) => KnowsPrepared(s, requestId, prepared) && KnowsCore(s, requestId, core)
    case Querying(requestId, _, row) => KnowsRow(s, requestId, row)
    case Observing(requestId, _, row, attempt) => KnowsRow(s, requestId, row) && KnowsCore(s, requestId, attempt.core)
    case Recording(requestId, _, row, state, _, receipt) =>
      && KnowsRow(s, requestId, row) && requestId in s.attempts && state != BROADCAST_STARTED
      && (receipt.Some? ==> ReceiptFits(requestId, s.attempts[requestId].core, receipt.value))
    case Rereading(requestId, _, row) => KnowsRow(s, requestId, row)
    case Concluding(requestId, _, row, attempt) =>
      && KnowsRow(s, requestId, row) && KnowsCore(s, requestId, attempt.core)
      && (attempt.state == FAILED ==> FailureRecorded(requestId) in s.facts)
    case _ => true
  }

  ghost predicate RowsBound(cfg: Config, s: State) {
    forall id :: id in s.preparations ==> RowBound(cfg, s.facts, id, s.preparations[id])
  }

  ghost predicate AttemptsBound(cfg: Config, s: State) {
    forall id :: id in s.attempts ==> AttemptBound(cfg, s, id)
  }

  ghost predicate PcsFit(cfg: Config, s: State) {
    forall p :: p in s.procs ==> PcFits(cfg, s, s.procs[p])
  }

  /** Every answered preparation is the stored one. */
  ghost predicate AnswersStored(s: State) {
    forall id, planHash, prepared :: Answered(id, planHash, prepared) in s.facts ==>
      id in s.preparations && s.preparations[id].planHash == planHash && s.preparations[id].prepared == prepared
  }

  /** Failures answered as rematerializable were recorded as failures. */
  ghost predicate AnswersTruthful(s: State) {
    forall id :: RecoverAnswered(id, true) in s.facts ==> FailureRecorded(id) in s.facts
  }

  /** Every send carries the claimed columns of a durable attempt. */
  ghost predicate SendsRecorded(s: State) {
    forall i :: 0 <= i < |s.sends| ==>
      s.sends[i].requestId in s.attempts && s.sends[i] == SendOf(s.sends[i].requestId, s.attempts[s.sends[i].requestId].core)
  }

  ghost predicate SendsDistinct(s: State) {
    forall i, j :: 0 <= i < j < |s.sends| ==> s.sends[i].requestId != s.sends[j].requestId
  }

  /** A process that is about to send holds the only permission for its request. */
  ghost predicate PermitsExclusive(s: State) {
    && (forall p, i :: p in s.procs && s.procs[p].ExecClaimed? && 0 <= i < |s.sends| ==>
         s.sends[i].requestId != s.procs[p].requestId)
    && (forall p, q :: p in s.procs && q in s.procs && SamePermit(s.procs[p], s.procs[q]) ==> p == q)
  }

  ghost predicate SamePermit(a: Pc, b: Pc) {
    a.ExecClaimed? && b.ExecClaimed? && a.requestId == b.requestId
  }

  /** A started broadcast is still in the hands of a process, or its process crashed. */
  ghost predicate StartsOwned(s: State) {
    forall id :: id in s.attempts && s.attempts[id].state == BROADCAST_STARTED ==>
      CrashedAfterClaim(id) in s.facts || exists p :: Owns(s, p, id)
  }

  ghost predicate Owns(s: State, p: Pid, id: string) {
    p in s.procs && (s.procs[p].ExecClaimed? || s.procs[p].ExecSent?) && s.procs[p].requestId == id
  }

  /** confirmed_at is set if and only if a confirmed observation was recorded at some time. */
  ghost predicate ConfirmationsRecorded(s: State) {
    forall id :: ConfirmationRecorded(id) in s.facts <==> id in s.attempts && s.attempts[id].confirmedAt.Some?
  }

  ghost predicate Inv(cfg: Config, s: State) {
    && RowsBound(cfg, s) && AttemptsBound(cfg, s) && PcsFit(cfg, s)
    && ObligationsExclusive(s.preparations) && AuthorizationsUnique(s.attempts)
    && AnswersStored(s) && AnswersTruthful(s)
    && SendsRecorded(s) && SendsDistinct(s) && PermitsExclusive(s)
    && StartsOwned(s) && ConfirmationsRecorded(s)
  }

  // ---------- stability ----------

  lemma PcFitsIsStable(cfg: Config, s: State, s': State, pc: Pc)
    requires PcFits(cfg, s, pc) && Grows(s, s')
    ensures PcFits(cfg, s', pc)
  {
  }

  lemma RowBoundIsStable(cfg: Config, s: State, s': State, id: string)
    requires Grows(s, s') && id in s.preparations && RowBound(cfg, s.facts, id, s.preparations[id])
    ensures RowBound(cfg, s'.facts, id, s'.preparations[id])
  {
    var row := s.preparations[id];
    var planExpiry, at :| Saved(id, planExpiry, at) in s.facts && row.prepared.expiresAt <= planExpiry
                          && row.prepared.expiresAt <= at + 60;
    assert Saved(id, planExpiry, at) in s'.facts;
  }

  /** A step that changes neither table's columns in question keeps an attempt bound. */
  lemma AttemptBoundIsStable(cfg: Config, s: State, s': State, id: string)
    requires Grows(s, s') && id in s.attempts && AttemptBound(cfg, s, id)
    requires s'.attempts[id].receipt == s.attempts[id].receipt && s'.attempts[id].state == s.attempts[id].state
    ensures AttemptBound(cfg, s', id)
  {
    ClaimCheckedIsStable(cfg, s, s', id);
  }

  lemma ClaimCheckedIsStable(cfg: Config, s: State, s': State, id: string)
    requires Grows(s, s') && id in s.attempts && id in s.preparations && ClaimChecked(s, id)
    ensures ClaimChecked(s', id)
  {
    var at, height :| Claimed(id, at, height) in s.facts &&
      InWindow(s.preparations[id], s.attempts[id].core.authorization, at, height);
    assert Claimed(id, at, height) in s'.facts;
  }

  // ---------- frames ----------

  /** Only process p moved, to a program counter that fits, and it gained no permission to send. */
  ghost predicate OnlyMoves(cfg: Config, s: State, s': State, p: Pid) {
    && (forall q :: q != p ==> (q in s'.procs <==> q in s.procs) && (q in s.procs ==> s'.procs[q] == s.procs[q]))
    && (p in s'.procs ==> PcFits(cfg, s', s'.procs[p]) && !s'.procs[p].ExecClaimed?)
  }

  /** Process p gives up a started broadcast only by crashing or by recording its outcome. */
  ghost predicate HandsOver(s: State, s': State, p: Pid) {
    forall id :: Owns(s, p, id) ==>
      Owns(s', p, id) || CrashedAfterClaim(id) in s'.facts || !Started(s'.attempts, id)
  }

  lemma PcsStay(cfg: Config, s: State, s': State, p: Pid)
    requires PcsFit(cfg, s) && Grows(s, s') && OnlyMoves(cfg, s, s', p)
    ensures PcsFit(cfg, s')
  {
    forall q | q in s'.procs ensures PcFits(cfg, s', s'.procs[q]) {
      if q != p {
        assert PcFits(cfg, s, s.procs[q]);
        PcFitsIsStable(cfg, s, s', s.procs[q]);
      }
    }
  }

  lemma RowsStay(cfg: Config, s: State, s': State)
    requires RowsBound(cfg, s) && Grows(s, s') && s'.preparations.Keys == s.preparations.Keys
    ensures RowsBound(cfg, s')
  {
    forall id | id in s'.preparations ensures RowBound(cfg, s'.facts, id, s'.preparations[id]) {
      RowBoundIsStable(cfg, s, s', id);
    }
  }

  /** All attempts but one are unchanged. */
  lemma AttemptsStay(cfg: Config, s: State, s': State, changed: string)
    requires AttemptsBound(cfg, s) && Grows(s, s')
    requires forall id :: id in s'.attempts && id != changed ==> id in s.attempts && s'.attempts[id] == s.attempts[id]
    requires changed in s'.attempts ==> AttemptBound(cfg, s', changed)
    ensures AttemptsBound(cfg, s')
  {
    forall id | id in s'.attempts ensures AttemptBound(cfg, s', id) {
      if id != changed {
        AttemptBoundIsStable(cfg, s, s', id);
      }
    }
  }

  lemma SendsStay(cfg: Config, s: State, s': State, p: Pid)
    requires SendsRecorded(s) && SendsDistinct(s) && PermitsExclusive(s)
    requires Grows(s, s') && s'.sends == s.sends && OnlyMoves(cfg, s, s', p)
    ensures SendsRecorded(s') && SendsDistinct(s') && PermitsExclusive(s')
  {
  }

  lemma StartsStay(cfg: Config, s: State, s': State, p: Pid)
    requires StartsOwned(s) && Grows(s, s') && OnlyMoves(cfg, s, s', p) && HandsOver(s, s', p)
    requires forall id :: Started(s'.attempts, id) ==> Started(s.attempts, id)
    ensures StartsOwned(s')
  {
    forall id | Started(s'.attempts, id)
      ensures CrashedAfterClaim(id) in s'.facts || exists q :: Owns(s', q, id)
    {
      if CrashedAfterClaim(id) !in s.facts {
        var q :| Owns(s, q, id);
        assert q != p ==> Owns(s', q, id);
      }
    }
  }

  /** The facts about answers of a step that leaves the preparation rows in place. */
  lemma AnswersStay(s: State, s': State)
    requires AnswersStored(s) && AnswersTruthful(s) && Grows(s, s')
    requires forall id, planHash, prepared :: Answered(id, planHash, prepared) in s'.facts ==>
               Answered(id, planHash, prepared) in s.facts
    requires forall id :: RecoverAnswered(id, true) in s'.facts && RecoverAnswered(id, true) !in s.facts ==>
               FailureRecorded(id) in s'.facts
    ensures AnswersStored(s') && AnswersTruthful(s')
  {
  }

  /** No fact of the kinds the attempt columns depend on was added. */
  ghost predicate NoNewVerdicts(s: State, s': State) {
    forall id :: ConfirmationRecorded(id) in s'.facts ==> ConfirmationRecorded(id) in s.facts
  }

  /** A step that touches neither table and sends nothing. */
  ghost predicate IsLocal(cfg: Config, s: State, s': State, p: Pid) {
    && OnlyMoves(cfg, s, s', p) && HandsOver(s, s', p)
    && s'.preparations == s.preparations && s'.attempts == s.attempts && s'.sends == s.sends
    && s.facts <= s'.facts && NoNewVerdicts(s, s')
    && AnswersStored(s') && AnswersTruthful(s')
  }

  lemma LocalStepKeepsInv(cfg: Config, s: State, s': State, p: Pid)
    requires Inv(cfg, s) && IsLocal(cfg, s, s', p)
    ensures Inv(cfg, s') && Grows(s, s')
  {
    PcsStay(cfg, s, s', p);
    RowsStay(cfg, s, s');
    forall id | id in s'.attempts ensures AttemptBound(cfg, s', id) { AttemptBoundIsStable(cfg, s, s', id); }
    SendsStay(cfg, s, s', p);
    StartsStay(cfg, s, s', p);
  }

  /** A step that updates one attempt, keeping its claimed columns. */
  ghost predicate UpdatesAttempt(cfg: Config, s: State, s': State, p: Pid, id: string) {
    && OnlyMoves(cfg, s, s', p) && HandsOver(s, s', p)
    && s'.preparations == s.preparations && s'.sends == s.sends && s.facts <= s'.facts
    && id in s.attempts && id in s'.attempts && s'.attempts == s.attempts[id := s'.attempts[id]]
    && s'.attempts[id].core == s.attempts[id].core && AttemptBound(cfg, s', id)
    && (Started(s'.attempts, id) ==> Started(s.attempts, id))
    && ConfirmationsRecorded(s') && AnswersStored(s') && AnswersTruthful(s')
  }

  lemma OneAttemptGrows(s: State, s': State, id: string)
    requires s'.preparations == s.preparations && s'.sends == s.sends && s.facts <= s'.facts
    requires id in s.attempts && id in s'.attempts && s'.attempts == s.attempts[id := s'.attempts[id]]
    requires s'.attempts[id].core == s.attempts[id].core
    ensures Grows(s, s')
    ensures forall x :: x in s'.attempts && x != id ==> x in s.attempts && s'.attempts[x] == s.attempts[x]
  {
  }

  lemma AttemptStepKeepsBounds(cfg: Config, s: State, s': State, p: Pid, id: string)
    requires RowsBound(cfg, s) && AttemptsBound(cfg, s) && PcsFit(cfg, s) && UpdatesAttempt(cfg, s, s', p, id)
    ensures RowsBound(cfg, s') && AttemptsBound(cfg, s') && PcsFit(cfg, s')
  {
    OneAttemptGrows(s, s', id);
    AttemptsStay(cfg, s, s', id);
    PcsStay(cfg, s, s', p);
    RowsStay(cfg, s, s');
  }

  lemma AttemptStepKeepsSends(cfg: Config, s: State, s': State, p: Pid, id: string)
    requires SendsRecorded(s) && SendsDistinct(s) && PermitsExclusive(s) && StartsOwned(s) && UpdatesAttempt(cfg, s, s', p, id)
    ensures SendsRecorded(s') && SendsDistinct(s') && PermitsExclusive(s') && StartsOwned(s') && Grows(s, s')
  {
    OneAttemptGrows(s, s', id);
    SendsStay(cfg, s, s', p);
    StartsStay(cfg, s, s', p);
  }

  lemma AttemptStepKeepsInv(cfg: Config, s: State, s': State, p: Pid, id: string)
    requires Inv(cfg, s) && UpdatesAttempt(cfg, s, s', p, id)
    ensures Inv(cfg, s') && Grows(s, s')
  {
    AttemptStepKeepsBounds(cfg, s, s', p, id);
    AttemptStepKeepsSends(cfg, s, s', p, id);
    SameCoreKeepsUnique(s.attempts, id, s'.attempts[id]);
  }

  // ---------- the steps ----------

  lemma EnterIsLocal(cfg: Config, s: State, p: Pid, a: Action)
    requires AnswersStored(s) && AnswersTruthful(s)
    requires p !in s.procs && Enter(cfg, s, p, a).Some?
    ensures IsLocal(cfg, s, Enter(cfg, s, p, a).value, p)
  {
    if a.PrepareBegin? {
      PrepareBeginIsLocal(cfg, s, p, a);
    }
  }

  lemma PrepareBeginIsLocal(cfg: Config, s: State, p: Pid, a: Action)
    requires AnswersStored(s) && AnswersTruthful(s)
    requires p !in s.procs && a.PrepareBegin? && Enter(cfg, s, p, a).Some?
    ensures IsLocal(cfg, s, Enter(cfg, s, p, a).value, p)
  {
  }

  lemma ValidateIsLocal(cfg: Config, s: State, p: Pid, now: int, height: int)
    requires AnswersStored(s) && AnswersTruthful(s)
    requires p in s.procs && s.procs[p].ExecRead? && PcFits(cfg, s, s.procs[p])
    requires RowBound(cfg, s.facts, s.procs[p].payload.requestId, s.procs[p].row)
    ensures IsLocal(cfg, s, ValidateStep(cfg, s, p, s.procs[p].payload, s.procs[p].row, now, height), p)
  {
  }

  lemma QueryAttemptIsLocal(cfg: Config, s: State, p: Pid)
    requires AnswersStored(s) && AnswersTruthful(s)
    requires p in s.procs && s.procs[p].Querying? && PcFits(cfg, s, s.procs[p])
    requires s.procs[p].requestId in s.attempts ==> AttemptBound(cfg, s, s.procs[p].requestId)
    ensures IsLocal(cfg, s, QueryAttemptStep(s, p, s.procs[p]), p)
  {
  }

  lemma QueryPreparationIsLocal(cfg: Config, s: State, p: Pid, now: int, height: int)
    requires AnswersStored(s) && AnswersTruthful(s)
    requires p in s.procs && s.procs[p].QueryingPreparation?
    ensures IsLocal(cfg, s, QueryPreparationStep(s, p, s.procs[p], now, height), p)
  {
  }

  lemma ObserveIsLocal(cfg: Config, s: State, p: Pid, now: int, reply: StatusReply)
    requires AnswersStored(s) && AnswersTruthful(s)
    requires p in s.procs && s.procs[p].Observing? && PcFits(cfg, s, s.procs[p])
    requires AttemptBound(cfg, s, s.procs[p].requestId)
    requires RowBound(cfg, s.facts, s.procs[p].requestId, s.procs[p].row)
    ensures IsLocal(cfg, s, ObserveStep(s, p, s.procs[p], now, reply), p)
  {
  }

  lemma RereadIsLocal(cfg: Config, s: State, p: Pid)
    requires AnswersStored(s) && AnswersTruthful(s)
    requires p in s.procs && s.procs[p].Rereading? && PcFits(cfg, s, s.procs[p])
    requires s.procs[p].requestId in s.attempts ==> AttemptBound(cfg, s, s.procs[p].requestId)
    ensures IsLocal(cfg, s, RereadStep(s, p, s.procs[p]), p)
  {
  }

  lemma ConcludeIsLocal(cfg: Config, s: State, p: Pid, height: int)
    requires AnswersStored(s) && AnswersTruthful(s)
    requires p in s.procs && s.procs[p].Concluding? && PcFits(cfg, s, s.procs[p])
    ensures IsLocal(cfg, s, ConcludeStep(s, p, s.procs[p], height), p)
  {
  }

  lemma CrashIsLocal(cfg: Config, s: State, p: Pid)
    requires AnswersStored(s) && AnswersTruthful(s) && p in s.procs
    ensures IsLocal(cfg, s, CrashStep(s, p, s.procs[p]), p)
  {
  }

  /** An updated attempt stays bound when its receipt fits and its verdict is on record. */
  lemma UpdatedAttemptBound(cfg: Config, s: State, s': State, id: string)
    requires id in s.attempts && AttemptBound(cfg, s, id)
    requires s'.preparations == s.preparations && s'.sends == s.sends && s.facts <= s'.facts
    requires id in s'.attempts && s'.attempts == s.attempts[id := s'.attempts[id]]
    requires s'.attempts[id].core == s.attempts[id].core
    requires s'.attempts[id].receipt.Some? ==> ReceiptFits(id, s.attempts[id].core, s'.attempts[id].receipt.value)
    requires s'.attempts[id].state == FAILED ==> FailureRecorded(id) in s'.facts
    requires s'.attempts[id].state == CONFIRMED ==> ConfirmationRecorded(id) in s'.facts
    ensures AttemptBound(cfg, s', id)
  {
    OneAttemptGrows(s, s', id);
    ClaimCheckedIsStable(cfg, s, s', id);
  }

  lemma SubmissionUpdates(cfg: Config, s: State, p: Pid, now: int)
    requires AnswersStored(s) && AnswersTruthful(s) && ConfirmationsRecorded(s)
    requires p in s.procs && s.procs[p].ExecSent? && PcFits(cfg, s, s.procs[p])
    requires s.procs[p].outcome == Accepted(s.procs[p].core.signature) && Started(s.attempts, s.procs[p].requestId)
    requires AttemptBound(cfg, s, s.procs[p].requestId)
    requires RowBound(cfg, s.facts, s.procs[p].requestId, s.preparations[s.procs[p].requestId])
    ensures UpdatesAttempt(cfg, s, RecordOutcomeStep(s, p, s.procs[p], now), p, s.procs[p].requestId)
  {
    UpdatedAttemptBound(cfg, s, RecordOutcomeStep(s, p, s.procs[p], now), s.procs[p].requestId);
  }

  lemma RejectionUpdates(cfg: Config, s: State, p: Pid, now: int)
    requires AnswersStored(s) && AnswersTruthful(s) && ConfirmationsRecorded(s)
    requires p in s.procs && s.procs[p].ExecSent? && PcFits(cfg, s, s.procs[p])
    requires s.procs[p].outcome != Accepted(s.procs[p].core.signature) && Started(s.attempts, s.procs[p].requestId)
    requires AttemptBound(cfg, s, s.procs[p].requestId)
    ensures UpdatesAttempt(cfg, s, RecordOutcomeStep(s, p, s.procs[p], now), p, s.procs[p].requestId)
  {
    UpdatedAttemptBound(cfg, s, RecordOutcomeStep(s, p, s.procs[p], now), s.procs[p].requestId);
  }

  lemma OutcomeUpdates(cfg: Config, s: State, p: Pid, now: int)
    requires AnswersStored(s) && AnswersTruthful(s) && ConfirmationsRecorded(s)
    requires p in s.procs && s.procs[p].ExecSent? && PcFits(cfg, s, s.procs[p])
    requires Started(s.attempts, s.procs[p].requestId) && AttemptBound(cfg, s, s.procs[p].requestId)
    requires RowBound(cfg, s.facts, s.procs[p].requestId, s.preparations[s.procs[p].requestId])
    ensures UpdatesAttempt(cfg, s, RecordOutcomeStep(s, p, s.procs[p], now), p, s.procs[p].requestId)
  {
    if s.procs[p].outcome == Accepted(s.procs[p].core.signature) {
      SubmissionUpdates(cfg, s, p, now);
    } else {
      RejectionUpdates(cfg, s, p, now);
    }
  }

  lemma LateOutcomeIsLocal(cfg: Config, s: State, p: Pid, now: int)
    requires AnswersStored(s) && AnswersTruthful(s)
    requires p in s.procs && s.procs[p].ExecSent? && PcFits(cfg, s, s.procs[p])
    requires !Started(s.attempts, s.procs[p].requestId)
    ensures IsLocal(cfg, s, RecordOutcomeStep(s, p, s.procs[p], now), p)
  {
  }

  lemma RecordConfirms(s: State, p: Pid, now: int)
    requires ConfirmationsRecorded(s)
    requires p in s.procs && s.procs[p].Recording? && s.procs[p].requestId in s.attempts
    ensures ConfirmationsRecorded(RecordStep(s, p, s.procs[p], now))
  {
  }

  lemma RecordUpdates(cfg: Config, s: State, p: Pid, now: int)
    requires AnswersStored(s) && AnswersTruthful(s) && ConfirmationsRecorded(s)
    requires p in s.procs && s.procs[p].Recording? && PcFits(cfg, s, s.procs[p])
    requires AttemptBound(cfg, s, s.procs[p].requestId)
    ensures UpdatesAttempt(cfg, s, RecordStep(s, p, s.procs[p], now), p, s.procs[p].requestId)
  {
    var s' := RecordStep(s, p, s.procs[p], now);
    RecordConfirms(s, p, now);
    UpdatedAttemptBound(cfg, s, s', s.procs[p].requestId);
  }

  lemma EscalateUpdates(cfg: Config, s: State, p: Pid, now: int)
    requires AnswersStored(s) && AnswersTruthful(s) && ConfirmationsRecorded(s)
    requires p in s.procs && s.procs[p].Escalating? && s.procs[p].requestId in s.attempts
    requires AttemptBound(cfg, s, s.procs[p].requestId)
    ensures UpdatesAttempt(cfg, s, EscalateStep(s, p, s.procs[p], now), p, s.procs[p].requestId)
  {
    UpdatedAttemptBound(cfg, s, EscalateStep(s, p, s.procs[p], now), s.procs[p].requestId);
  }

  lemma LateEscalationIsLocal(cfg: Config, s: State, p: Pid, now: int)
    requires AnswersStored(s) && AnswersTruthful(s)
    requires p in s.procs && s.procs[p].Escalating? && s.procs[p].requestId !in s.attempts
    ensures IsLocal(cfg, s, EscalateStep(s, p, s.procs[p], now), p)
  {
  }

  // ---------- claim and send ----------

  lemma ClaimBinds(cfg: Config, s: State, p: Pid, now: int)
    requires p in s.procs && s.procs[p].ExecReady? && PcFits(cfg, s, s.procs[p])
    requires AuthorizationsUnique(s.attempts)
    requires ClaimOutcome(s.attempts, s.procs[p].requestId, s.procs[p].core, now).Ok?
    ensures var s' := ClaimStep(s, p, s.procs[p], now);
            && Grows(s, s') && AuthorizationsUnique(s'.attempts)
            && s.procs[p].requestId !in s.attempts
            && s'.attempts == s.attempts[s.procs[p].requestId := StartedAttempt(s.procs[p].core, now)]
            && AttemptBound(cfg, s', s.procs[p].requestId)
  {
    var pc := s.procs[p];
    var s' := ClaimStep(s, p, pc, now);
    ClaimSucceedsIffUnused(s.attempts, pc.requestId, pc.core, now);
    assert Claimed(pc.requestId, pc.at, pc.height) in s'.facts;
  }

  lemma ClaimKeepsSends(cfg: Config, s: State, p: Pid, now: int)
    requires SendsRecorded(s) && SendsDistinct(s) && PermitsExclusive(s) && PcsFit(cfg, s)
    requires p in s.procs && s.procs[p].ExecReady?
    requires ClaimOutcome(s.attempts, s.procs[p].requestId, s.procs[p].core, now).Ok?
    ensures var s' := ClaimStep(s, p, s.procs[p], now);
            SendsRecorded(s') && SendsDistinct(s') && PermitsExclusive(s')
  {
    var pc := s.procs[p];
    var s' := ClaimStep(s, p, pc, now);
    assert s'.attempts == s.attempts[pc.requestId := StartedAttempt(pc.core, now)] && pc.requestId !in s.attempts;
    forall q | q in s'.procs && q != p ensures !SamePermit(s'.procs[q], s'.procs[p]) {
      assert PcFits(cfg, s, s.procs[q]);
    }
  }

  lemma ClaimKeepsStarts(s: State, p: Pid, now: int)
    requires StartsOwned(s) && ConfirmationsRecorded(s)
    requires p in s.procs && s.procs[p].ExecReady?
    requires ClaimOutcome(s.attempts, s.procs[p].requestId, s.procs[p].core, now).Ok?
    ensures var s' := ClaimStep(s, p, s.procs[p], now);
            StartsOwned(s') && ConfirmationsRecorded(s')
  {
    var pc := s.procs[p];
    var s' := ClaimStep(s, p, pc, now);
    assert s'.attempts == s.attempts[pc.requestId := StartedAttempt(pc.core, now)];
    assert Owns(s', p, pc.requestId);
    forall id | Started(s'.attempts, id) && id != pc.requestId
      ensures CrashedAfterClaim(id) in s'.facts || exists q :: Owns(s', q, id)
    {
      if CrashedAfterClaim(id) !in s.facts {
        var q :| Owns(s, q, id);
        assert Owns(s', q, id);
      }
    }
  }

  lemma SendKeepsSends(cfg: Config, s: State, p: Pid, outcome: SendOutcome)
    requires SendsRecorded(s) && SendsDistinct(s) && PermitsExclusive(s)
    requires p in s.procs && s.procs[p].ExecClaimed? && PcFits(cfg, s, s.procs[p])
    ensures var s' := SendStep(s, p, s.procs[p], outcome);
            SendsRecorded(s') && SendsDistinct(s') && PermitsExclusive(s')
  {
  }

  // ---------- preparing ----------

  /** A step that touches only the preparation rows. */
  ghost predicate UpdatesPreparations(cfg: Config, s: State, s': State, p: Pid) {
    && OnlyMoves(cfg, s, s', p) && HandsOver(s, s', p)
    && RowsKept(s.preparations, s'.preparations) && ObligationsExclusive(s'.preparations)
    && s'.attempts == s.attempts && s'.sends == s.sends
    && s.facts <= s'.facts && NoNewVerdicts(s, s')
    && (forall id :: id in s'.preparations && id !in s.preparations ==> RowBound(cfg, s'.facts, id, s'.preparations[id]))
    && AnswersStored(s') && AnswersTruthful(s')
  }

  lemma PreparationStepKeepsInv(cfg: Config, s: State, s': State, p: Pid)
    requires Inv(cfg, s) && UpdatesPreparations(cfg, s, s', p)
    ensures Inv(cfg, s') && Grows(s, s')
  {
    PcsStay(cfg, s, s', p);
    forall id | id in s'.preparations ensures RowBound(cfg, s'.facts, id, s'.preparations[id]) {
      if id in s.preparations { RowBoundIsStable(cfg, s, s', id); }
    }
    forall id | id in s'.attempts ensures AttemptBound(cfg, s', id) { AttemptBoundIsStable(cfg, s, s', id); }
    SendsStay(cfg, s, s', p);
    StartsStay(cfg, s, s', p);
  }

  lemma ExpireUpdates(cfg: Config, s: State, p: Pid, now: int)
    requires ObligationsExclusive(s.preparations) && AnswersStored(s) && AnswersTruthful(s)
    requires p in s.procs && s.procs[p].Expiring?
    ensures UpdatesPreparations(cfg, s, ExpireStep(s, p, s.procs[p], now), p)
  {
    ExpireKeepsObligationsExclusive(s.preparations, s.procs[p].requestId, now);
  }

  /** The row that prepare hands to save carries the request and a bounded expiry. */
  ghost predicate FreshRow(cfg: Config, request: PrepareRequest, row: PreparationRow, now: int) {
    && row.obligationId == request.obligationId && row.planHash == request.planHash && row.state == PREPARED
    && row.prepared.requestId == request.requestId && row.prepared.planHash == request.planHash
    && row.prepared.messageHash == cfg.hash(row.prepared.message)
    && cfg.feePayer(row.prepared.message) == row.prepared.signer
    && row.prepared.expiresAt == ValidUntil(request.planExpiry, now)
  }

  lemma SaveAnswers(cfg: Config, s: State, p: Pid, request: PrepareRequest, row: PreparationRow, now: int, pick: Option<string>)
    requires AnswersStored(s) && AnswersTruthful(s)
    requires Selects(s.preparations, request.requestId, request.obligationId, pick) && FreshRow(cfg, request, row, now)
    requires RowsKept(s.preparations, SaveTable(s.preparations, pick, request.requestId, row))
    ensures var s' := SaveStep(cfg, s, p, request, row, now, pick);
            AnswersStored(s') && AnswersTruthful(s')
  {
    if SaveResult(s.preparations, pick, request.requestId, row).Ok? {
      SaveAnswersStored(s.preparations, pick, request.requestId, row);
    }
  }

  lemma SaveUpdates(cfg: Config, s: State, p: Pid, request: PrepareRequest, row: PreparationRow, now: int, pick: Option<string>)
    requires ObligationsExclusive(s.preparations) && AnswersStored(s) && AnswersTruthful(s)
    requires Selects(s.preparations, request.requestId, request.obligationId, pick) && FreshRow(cfg, request, row, now)
    requires p in s.procs && s.procs[p].Preparing?
    ensures UpdatesPreparations(cfg, s, SaveStep(cfg, s, p, request, row, now, pick), p)
  {
    var s' := SaveStep(cfg, s, p, request, row, now, pick);
    SaveKeepsObligationsExclusive(s.preparations, pick, request.requestId, row);
    SaveAnswers(cfg, s, p, request, row, now, pick);
    if pick.None? {
      assert Saved(request.requestId, request.planExpiry, now) in s'.facts;
    }
  }

  lemma SaveKeepsInv(cfg: Config, s: State, p: Pid, row: PreparationRow, now: int, pick: Option<string>)
    requires Inv(cfg, s) && p in s.procs && s.procs[p].Preparing?
    requires Selects(s.preparations, s.procs[p].request.requestId, s.procs[p].request.obligationId, pick)
    requires FreshRow(cfg, s.procs[p].request, row, now)
    ensures var s' := SaveStep(cfg, s, p, s.procs[p].request, row, now, pick); Inv(cfg, s') && Grows(s, s')
  {
    SaveUpdates(cfg, s, p, s.procs[p].request, row, now, pick);
    PreparationStepKeepsInv(cfg, s, SaveStep(cfg, s, p, s.procs[p].request, row, now, pick), p);
  }

  // ---------- every step, every run ----------

  lemma ClaimKeepsInv(cfg: Config, s: State, p: Pid, now: int)
    requires Inv(cfg, s) && p in s.procs && s.procs[p].ExecReady?
    ensures var s' := ClaimStep(s, p, s.procs[p], now); Inv(cfg, s') && Grows(s, s')
  {
    var pc := s.procs[p];
    var s' := ClaimStep(s, p, pc, now);
    if ClaimOutcome(s.attempts, pc.requestId, pc.core, now).Err? {
      LocalStepKeepsInv(cfg, s, s', p);
    } else {
      ClaimBinds(cfg, s, p, now);
      ClaimKeepsSends(cfg, s, p, now);
      ClaimKeepsStarts(s, p, now);
      ClaimKeepsRest(cfg, s, p, now);
      ClaimKeepsPcs(cfg, s, p, now);
    }
  }

  lemma ClaimKeepsRest(cfg: Config, s: State, p: Pid, now: int)
    requires RowsBound(cfg, s) && AttemptsBound(cfg, s) && PcsFit(cfg, s)
    requires AuthorizationsUnique(s.attempts) && AnswersStored(s) && AnswersTruthful(s)
    requires p in s.procs && s.procs[p].ExecReady?
    requires ClaimOutcome(s.attempts, s.procs[p].requestId, s.procs[p].core, now).Ok?
    ensures var s' := ClaimStep(s, p, s.procs[p], now);
            RowsBound(cfg, s') && AttemptsBound(cfg, s') && AnswersStored(s') && AnswersTruthful(s')
  {
    var s' := ClaimStep(s, p, s.procs[p], now);
    ClaimBinds(cfg, s, p, now);
    RowsStay(cfg, s, s');
    AttemptsStay(cfg, s, s', s.procs[p].requestId);
  }

  lemma ClaimKeepsPcs(cfg: Config, s: State, p: Pid, now: int)
    requires PcsFit(cfg, s) && AuthorizationsUnique(s.attempts)
    requires p in s.procs && s.procs[p].ExecReady?
    requires ClaimOutcome(s.attempts, s.procs[p].requestId, s.procs[p].core, now).Ok?
    ensures PcsFit(cfg, ClaimStep(s, p, s.procs[p], now))
  {
    var s' := ClaimStep(s, p, s.procs[p], now);
    ClaimBinds(cfg, s, p, now);
    forall q | q in s'.procs ensures PcFits(cfg, s', s'.procs[q]) {
      assert PcFits(cfg, s, s.procs[q]);
      PcFitsIsStable(cfg, s, s', s.procs[q]);
    }
  }

  lemma SendKeepsInv(cfg: Config, s: State, p: Pid, outcome: SendOutcome)
    requires Inv(cfg, s) && p in s.procs && s.procs[p].ExecClaimed?
    ensures var s' := SendStep(s, p, s.procs[p], outcome); Inv(cfg, s') && Grows(s, s')
  {
    var s' := SendStep(s, p, s.procs[p], outcome);
    assert PcFits(cfg, s, s.procs[p]);
    SendKeepsSends(cfg, s, p, outcome);
    PcsStay(cfg, s, s', p);
    RowsStay(cfg, s, s');
    forall id | id in s'.attempts ensures AttemptBound(cfg, s', id) { AttemptBoundIsStable(cfg, s, s', id); }
    StartsStay(cfg, s, s', p);
  }

  lemma ValidateKeepsInv(cfg: Config, s: State, p: Pid, now: int, height: int)
    requires Inv(cfg, s) && p in s.procs && s.procs[p].ExecRead?
    ensures var s' := ValidateStep(cfg, s, p, s.procs[p].payload, s.procs[p].row, now, height); Inv(cfg, s') && Grows(s, s')
  {
    var pc := s.procs[p];
    assert PcFits(cfg, s, pc);
    assert RowBound(cfg, s.facts, pc.payload.requestId, s.preparations[pc.payload.requestId]);
    ValidateIsLocal(cfg, s, p, now, height);
    LocalStepKeepsInv(cfg, s, ValidateStep(cfg, s, p, pc.payload, pc.row, now, height), p);
  }

  lemma QueryAttemptKeepsInv(cfg: Config, s: State, p: Pid)
    requires Inv(cfg, s) && p in s.procs && s.procs[p].Querying?
    ensures var s' := QueryAttemptStep(s, p, s.procs[p]); Inv(cfg, s') && Grows(s, s')
  {
    assert PcFits(cfg, s, s.procs[p]);
    assert s.procs[p].requestId in s.attempts ==> AttemptBound(cfg, s, s.procs[p].requestId);
    QueryAttemptIsLocal(cfg, s, p);
    LocalStepKeepsInv(cfg, s, QueryAttemptStep(s, p, s.procs[p]), p);
  }

  lemma QueryPreparationKeepsInv(cfg: Config, s: State, p: Pid, now: int, height: int)
    requires Inv(cfg, s) && p in s.procs && s.procs[p].QueryingPreparation?
    ensures var s' := QueryPreparationStep(s, p, s.procs[p], now, height); Inv(cfg, s') && Grows(s, s')
  {
    QueryPreparationIsLocal(cfg, s, p, now, height);
    LocalStepKeepsInv(cfg, s, QueryPreparationStep(s, p, s.procs[p], now, height), p);
  }

  lemma ObserveKeepsInv(cfg: Config, s: State, p: Pid, now: int, reply: StatusReply)
    requires Inv(cfg, s) && p in s.procs && s.procs[p].Observing?
    ensures var s' := ObserveStep(s, p, s.procs[p], now, reply); Inv(cfg, s') && Grows(s, s')
  {
    var id := s.procs[p].requestId;
    assert PcFits(cfg, s, s.procs[p]);
    assert AttemptBound(cfg, s, id) && RowBound(cfg, s.facts, id, s.preparations[id]);
    ObserveIsLocal(cfg, s, p, now, reply);
    LocalStepKeepsInv(cfg, s, ObserveStep(s, p, s.procs[p], now, reply), p);
  }

  lemma RereadKeepsInv(cfg: Config, s: State, p: Pid)
    requires Inv(cfg, s) && p in s.procs && s.procs[p].Rereading?
    ensures var s' := RereadStep(s, p, s.procs[p]); Inv(cfg, s') && Grows(s, s')
  {
    assert PcFits(cfg, s, s.procs[p]);
    assert s.procs[p].requestId in s.attempts ==> AttemptBound(cfg, s, s.procs[p].requestId);
    RereadIsLocal(cfg, s, p);
    LocalStepKeepsInv(cfg, s, RereadStep(s, p, s.procs[p]), p);
  }

  lemma ConcludeKeepsInv(cfg: Config, s: State, p: Pid, height: int)
    requires Inv(cfg, s) && p in s.procs && s.procs[p].Concluding?
    ensures var s' := ConcludeStep(s, p, s.procs[p], height); Inv(cfg, s') && Grows(s, s')
  {
    assert PcFits(cfg, s, s.procs[p]);
    ConcludeIsLocal(cfg, s, p, height);
    LocalStepKeepsInv(cfg, s, ConcludeStep(s, p, s.procs[p], height), p);
  }

  lemma RecordKeepsInv(cfg: Config, s: State, p: Pid, now: int)
    requires Inv(cfg, s) && p in s.procs && s.procs[p].Recording?
    ensures var s' := RecordStep(s, p, s.procs[p], now); Inv(cfg, s') && Grows(s, s')
  {
    assert PcFits(cfg, s, s.procs[p]);
    assert AttemptBound(cfg, s, s.procs[p].requestId);
    RecordUpdates(cfg, s, p, now);
    AttemptStepKeepsInv(cfg, s, RecordStep(s, p, s.procs[p], now), p, s.procs[p].requestId);
  }

  lemma RecordOutcomeKeepsInv(cfg: Config, s: State, p: Pid, now: int)
    requires Inv(cfg, s) && p in s.procs && s.procs[p].ExecSent?
    ensures var s' := RecordOutcomeStep(s, p, s.procs[p], now); Inv(cfg, s') && Grows(s, s')
  {
    var id := s.procs[p].requestId;
    assert PcFits(cfg, s, s.procs[p]);
    assert AttemptBound(cfg, s, id) && RowBound(cfg, s.facts, id, s.preparations[id]);
    if !Started(s.attempts, id) {
      LateOutcomeIsLocal(cfg, s, p, now);
      LocalStepKeepsInv(cfg, s, RecordOutcomeStep(s, p, s.procs[p], now), p);
    } else {
      OutcomeUpdates(cfg, s, p, now);
      AttemptStepKeepsInv(cfg, s, RecordOutcomeStep(s, p, s.procs[p], now), p, id);
    }
  }

  lemma EscalateKeepsInv(cfg: Config, s: State, p: Pid, now: int)
    requires Inv(cfg, s) && p in s.procs && s.procs[p].Escalating?
    ensures var s' := EscalateStep(s, p, s.procs[p], now); Inv(cfg, s') && Grows(s, s')
  {
    var id := s.procs[p].requestId;
    if id in s.attempts {
      assert AttemptBound(cfg, s, id);
      EscalateUpdates(cfg, s, p, now);
      AttemptStepKeepsInv(cfg, s, EscalateStep(s, p, s.procs[p], now), p, id);
    } else {
      LateEscalationIsLocal(cfg, s, p, now);
      LocalStepKeepsInv(cfg, s, EscalateStep(s, p, s.procs[p], now), p);
    }
  }

  lemma ExpireKeepsInv(cfg: Config, s: State, p: Pid, now: int)
    requires Inv(cfg, s) && p in s.procs && s.procs[p].Expiring?
    ensures var s' := ExpireStep(s, p, s.procs[p], now); Inv(cfg, s') && Grows(s, s')
  {
    ExpireUpdates(cfg, s, p, now);
    PreparationStepKeepsInv(cfg, s, ExpireStep(s, p, s.procs[p], now), p);
  }

  lemma CrashKeepsInv(cfg: Config, s: State, p: Pid)
    requires Inv(cfg, s) && p in s.procs
    ensures var s' := CrashStep(s, p, s.procs[p]); Inv(cfg, s') && Grows(s, s')
  {
    CrashIsLocal(cfg, s, p);
    LocalStepKeepsInv(cfg, s, CrashStep(s, p, s.procs[p]), p);
  }

  function RowToSave(cfg: Config, s: State, p: Pid, a: Action): PreparationRow
    requires p in s.procs && s.procs[p].Preparing? && a.PrepareSave?
  {
    MakeRow(cfg, p, s.procs[p].request, a.message, a.simulation, a.lastValidBlockHeight, a.now, a.updatedAt)
  }

  lemma PrepareSaveSavesFreshRow(cfg: Config, s: State, p: Pid, a: Action)
    requires p in s.procs && a.PrepareSave? && Continue(cfg, s, p, a).Some?
    ensures s.procs[p].Preparing?
    ensures Selects(s.preparations, s.procs[p].request.requestId, s.procs[p].request.obligationId, a.pick)
    ensures FreshRow(cfg, s.procs[p].request, RowToSave(cfg, s, p, a), a.now)
    ensures Continue(cfg, s, p, a).value == SaveStep(cfg, s, p, s.procs[p].request, RowToSave(cfg, s, p, a), a.now, a.pick)
  {
  }

  lemma PrepareSaveKeepsInv(cfg: Config, s: State, p: Pid, a: Action)
    requires Inv(cfg, s) && p in s.procs && a.PrepareSave? && Continue(cfg, s, p, a).Some?
    ensures Inv(cfg, Continue(cfg, s, p, a).value) && Grows(s, Continue(cfg, s, p, a).value)
  {
    PrepareSaveSavesFreshRow(cfg, s, p, a);
    SaveKeepsInv(cfg, s, p, RowToSave(cfg, s, p, a), a.now, a.pick);
  }

  lemma EnterKeepsInv(cfg: Config, s: State, p: Pid, a: Action)
    requires Inv(cfg, s) && p !in s.procs && Enter(cfg, s, p, a).Some?
    ensures Inv(cfg, Enter(cfg, s, p, a).value) && Grows(s, Enter(cfg, s, p, a).value)
  {
    EnterIsLocal(cfg, s, p, a);
    LocalStepKeepsInv(cfg, s, Enter(cfg, s, p, a).value, p);
  }

  lemma ExecuteStepsKeepInv(cfg: Config, s: State, p: Pid, a: Action)
    requires Inv(cfg, s) && p in s.procs && Continue(cfg, s, p, a).Some?
    requires a.ExecValidate? || a.ExecClaim? || a.ExecSend? || a.ExecRecord?
    ensures Inv(cfg, Continue(cfg, s, p, a).value) && Grows(s, Continue(cfg, s, p, a).value)
  {
    if a.ExecValidate? {
      ValidateKeepsInv(cfg, s, p, a.now, a.height);
    } else if a.ExecClaim? {
      ClaimKeepsInv(cfg, s, p, a.now);
    } else if a.ExecSend? {
      SendKeepsInv(cfg, s, p, a.outcome);
    } else {
      RecordOutcomeKeepsInv(cfg, s, p, a.now);
    }
  }

  lemma QueryStepsKeepInv(cfg: Config, s: State, p: Pid, a: Action)
    requires Inv(cfg, s) && p in s.procs && Continue(cfg, s, p, a).Some?
    requires a.QueryAttempt? || a.QueryPreparation? || a.ExpireRow? || a.Conclude?
    ensures Inv(cfg, Continue(cfg, s, p, a).value) && Grows(s, Continue(cfg, s, p, a).value)
  {
    if a.QueryAttempt? {
      QueryAttemptKeepsInv(cfg, s, p);
    } else if a.QueryPreparation? {
      QueryPreparationKeepsInv(cfg, s, p, a.now, a.height);
    } else if a.ExpireRow? {
      ExpireKeepsInv(cfg, s, p, a.now);
    } else {
      ConcludeKeepsInv(cfg, s, p, a.height);
    }
  }

  lemma RefreshStepsKeepInv(cfg: Config, s: State, p: Pid, a: Action)
    requires Inv(cfg, s) && p in s.procs && Continue(cfg, s, p, a).Some?
    requires a.Observe? || a.Record? || a.Reread? || a.Escalate?
    ensures Inv(cfg, Continue(cfg, s, p, a).value) && Grows(s, Continue(cfg, s, p, a).value)
  {
    if a.Observe? {
      ObserveKeepsInv(cfg, s, p, a.now, a.reply);
    } else if a.Record? {
      RecordKeepsInv(cfg, s, p, a.now);
    } else if a.Reread? {
      RereadKeepsInv(cfg, s, p);
    } else {
      EscalateKeepsInv(cfg, s, p, a.now);
    }
  }

  lemma ContinueKeepsInv(cfg: Config, s: State, p: Pid, a: Action)
    requires Inv(cfg, s) && p in s.procs && Continue(cfg, s, p, a).Some?
    ensures Inv(cfg, Continue(cfg, s, p, a).value) && Grows(s, Continue(cfg, s, p, a).value)
  {
    if a.ExecValidate? || a.ExecClaim? || a.ExecSend? || a.ExecRecord? {
      ExecuteStepsKeepInv(cfg, s, p, a);
    } else if a.PrepareSave? {
      PrepareSaveKeepsInv(cfg, s, p, a);
    } else if a.Crash? {
      CrashKeepsInv(cfg, s, p);
    } else if a.QueryAttempt? || a.QueryPreparation? || a.ExpireRow? || a.Conclude? {
      QueryStepsKeepInv(cfg, s, p, a);
    } else {
      RefreshStepsKeepInv(cfg, s, p, a);
    }
  }

  /** Every step of every process keeps the invariant, and nothing durable is lost by it. */
  lemma StepKeepsInv(cfg: Config, s: State, p: Pid, a: Action)
    requires Inv(cfg, s) && Step(cfg, s, p, a).Some?
    ensures Inv(cfg, Step(cfg, s, p, a).value) && Grows(s, Step(cfg, s, p, a).value)
  {
    if p in s.procs {
      ContinueKeepsInv(cfg, s, p, a);
    } else {
      EnterKeepsInv(cfg, s, p, a);
    }
  }

  lemma GrowsTransitively(a: State, b: State, c: State)
    requires Grows(a, b) && Grows(b, c)
    ensures Grows(a, c)
  {
  }

  lemma InitialInv(cfg: Config)
    ensures Inv(cfg, INITIAL)
  {
  }

  /** Along every run the invariant holds and nothing durable is lost: attempts keep their request,
      authorization, hashes, signature and signed transaction, sends are only appended. */
  lemma {:induction false} RunKeepsInv(cfg: Config, s: State, events: seq<Event>)
    requires Inv(cfg, s) && Run(cfg, s, events).Some?
    ensures Inv(cfg, Run(cfg, s, events).value) && Grows(s, Run(cfg, s, events).value)
    decreases |events|
  {
    if events != [] {
      StepKeepsInv(cfg, s, events[0].pid, events[0].action);
      var next := Step(cfg, s, events[0].pid, events[0].action).value;
      RunKeepsInv(cfg, next, events[1..]);
      GrowsTransitively(s, next, Run(cfg, next, events[1..]).value);
    }
  }
}
