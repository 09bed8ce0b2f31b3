/** The safety claims of the gateway over every interleaving, read off the invariant. */
module BroadcastTheorems {
  import opened Prelude
  import opened Preparations
  import opened Executions
  import opened Broadcast
  import opened BroadcastSafety

  /** A state some run of the whole system reaches. */
  ghost predicate Reachable(cfg: Config, s: State) {
    exists events :: Run(cfg, INITIAL, events) == Some(s)
  }

  lemma ReachableInv(cfg: Config, s: State)
    requires Reachable(cfg, s)
    ensures Inv(cfg, s)
  {
    var events :| Run(cfg, INITIAL, events) == Some(s);
    InitialInv(cfg);
    RunKeepsInv(cfg, INITIAL, events);
  }

  /** No two sendTransaction calls share a request id or an authorization id. */
  lemma AtMostOneSend(cfg: Config, s: State, i: nat, j: nat)
    requires Reachable(cfg, s) && i < j < |s.sends|
    ensures s.sends[i].requestId != s.sends[j].requestId
    ensures s.sends[i].authorizationId != s.sends[j].authorizationId
  {
    ReachableInv(cfg, s);
    assert s.sends[i] == SendOf(s.sends[i].requestId, s.attempts[s.sends[i].requestId].core);
    assert s.sends[j] == SendOf(s.sends[j].requestId, s.attempts[s.sends[j].requestId].core);
  }

  lemma OnlySendSends(cfg: Config, s: State, p: Pid, a: Action)
    requires Step(cfg, s, p, a).Some?
    ensures Step(cfg, s, p, a).value.sends != s.sends ==>
              p in s.procs && s.procs[p].ExecClaimed? && a.ExecSend? &&
              Step(cfg, s, p, a).value == SendStep(s, p, s.procs[p], a.outcome)
  {
  }

  /** The send is the next entry, and the row with exactly its signature and bytes is durable. */
  ghost predicate SentAfterDurable(s: State, s': State) {
    && |s'.sends| == |s.sends| + 1 && s'.sends[..|s.sends|] == s.sends
    && var send := s'.sends[|s.sends|];
       send.requestId in s.attempts && send == SendOf(send.requestId, s.attempts[send.requestId].core)
  }

  /** A send happens only when the row with exactly its signature and bytes is already durable. */
  lemma SendIsDurableFirst(cfg: Config, s: State, p: Pid, a: Action)
    requires Reachable(cfg, s) && Step(cfg, s, p, a).Some?
    requires Step(cfg, s, p, a).value.sends != s.sends
    ensures SentAfterDurable(s, Step(cfg, s, p, a).value)
  {
    ReachableInv(cfg, s);
    OnlySendSends(cfg, s, p, a);
    assert PcFits(cfg, s, s.procs[p]);
  }

  /** The prepared message a request id stands for was signed and authorized, the authorization
      bound to it, and the validation happened inside every time and height bound. */
  ghost predicate SendJustified(cfg: Config, s: State, send: Send) {
    && send.requestId in s.preparations && send.requestId in s.attempts
    && var row := s.preparations[send.requestId];
       var auth := s.attempts[send.requestId].core.authorization;
       && auth.id == send.authorizationId && auth.requestId == send.requestId
       && auth.messageHash == row.prepared.messageHash == cfg.hash(row.prepared.message)
       && auth.commitmentHash == row.prepared.commitmentHash
       && cfg.authentic(auth)
       && cfg.signs(row.prepared.signer, row.prepared.message, send.signature)
       && send.signedTransaction == cfg.assemble(row.prepared.message, send.signature)
       && ValidatedInTime(s, row, auth)
  }

  /** issued <= validation < authorization expiry <= prepared expiry <= min(plan expiry, preparation + 60),
      at a block height not above the last valid one. */
  ghost predicate ValidatedInTime(s: State, row: PreparationRow, auth: Authorization) {
    exists at, height, planExpiry, preparedAt ::
      && Claimed(row.prepared.requestId, at, height) in s.facts
      && Saved(row.prepared.requestId, planExpiry, preparedAt) in s.facts
      && auth.issuedAt <= at < auth.expiresAt <= row.prepared.expiresAt
      && row.prepared.expiresAt <= planExpiry && row.prepared.expiresAt <= preparedAt + 60
      && height <= row.lastValidBlockHeight
  }

  lemma AttemptValidatedInTime(cfg: Config, s: State, id: string)
    requires Inv(cfg, s) && id in s.attempts
    ensures id in s.preparations && s.preparations[id].prepared.requestId == id
    ensures ValidatedInTime(s, s.preparations[id], s.attempts[id].core.authorization)
  {
    assert AttemptBound(cfg, s, id);
    var row, auth := s.preparations[id], s.attempts[id].core.authorization;
    assert RowBound(cfg, s.facts, id, row);
    var at, height :| Claimed(id, at, height) in s.facts && InWindow(row, auth, at, height);
    var planExpiry, preparedAt :| Saved(id, planExpiry, preparedAt) in s.facts
      && row.prepared.expiresAt <= planExpiry && row.prepared.expiresAt <= preparedAt + 60;
    assert Claimed(row.prepared.requestId, at, height) in s.facts
      && Saved(row.prepared.requestId, planExpiry, preparedAt) in s.facts;
  }

  lemma EverySendJustified(cfg: Config, s: State, i: nat)
    requires Reachable(cfg, s) && i < |s.sends|
    ensures SendJustified(cfg, s, s.sends[i])
  {
    ReachableInv(cfg, s);
    var id := s.sends[i].requestId;
    assert s.sends[i] == SendOf(id, s.attempts[id].core);
    assert AttemptBound(cfg, s, id) && RowBound(cfg, s.facts, id, s.preparations[id]);
    AttemptValidatedInTime(cfg, s, id);
  }

  /** Whatever happens after a state, its attempts keep their request, authorization, hashes,
      signature and signed bytes; a receipt carries exactly those values; and confirmed_at is
      set exactly when a confirmed observation was recorded. */
  lemma AttemptsAreImmutable(cfg: Config, s: State, events: seq<Event>, id: string)
    requires Reachable(cfg, s) && Run(cfg, s, events).Some? && id in s.attempts
    ensures var later := Run(cfg, s, events).value;
            && id in later.attempts && later.attempts[id].core == s.attempts[id].core
            && (later.attempts[id].receipt.Some? ==> ReceiptFits(id, s.attempts[id].core, later.attempts[id].receipt.value))
            && (later.attempts[id].confirmedAt.Some? <==> ConfirmationRecorded(id) in later.facts)
  {
    ReachableInv(cfg, s);
    RunKeepsInv(cfg, s, events);
    assert AttemptBound(cfg, Run(cfg, s, events).value, id);
  }

  /** All successful prepare calls for a request id return one value, also for different plans. */
  lemma PrepareAnswersAgree(cfg: Config, s: State, id: string, planHash1: string, prepared1: Prepared,
                            planHash2: string, prepared2: Prepared)
    requires Reachable(cfg, s)
    requires Answered(id, planHash1, prepared1) in s.facts && Answered(id, planHash2, prepared2) in s.facts
    ensures prepared1 == prepared2 && planHash1 == planHash2 == prepared1.planHash && prepared1.requestId == id
  {
    ReachableInv(cfg, s);
    assert RowBound(cfg, s.facts, id, s.preparations[id]);
  }

  /** At most one preparation of an obligation is not expired; so two attempts for one
      obligation exist only when the preparation of one of them has expired. */
  lemma ObligationBound(cfg: Config, s: State, a: string, b: string)
    requires Reachable(cfg, s) && a != b && a in s.preparations && b in s.preparations
    requires s.preparations[a].obligationId == s.preparations[b].obligationId
    ensures s.preparations[a].state == EXPIRED || s.preparations[b].state == EXPIRED
  {
    ReachableInv(cfg, s);
  }

  /** A call that claimed and left its handler without a crash does not leave broadcast_started. */
  lemma NoStrandedBroadcast(cfg: Config, s: State, id: string)
    requires Reachable(cfg, s) && Started(s.attempts, id)
    ensures CrashedAfterClaim(id) in s.facts || exists p :: Owns(s, p, id)
  {
    ReachableInv(cfg, s);
  }

  /** recover reports an attempt as rematerializable only after a definitive rejection or an
      observed chain error was recorded for it. */
  lemma RematerializeOnlyAfterFailure(cfg: Config, s: State, id: string)
    requires Reachable(cfg, s) && RecoverAnswered(id, true) in s.facts
    ensures FailureRecorded(id) in s.facts
  {
    ReachableInv(cfg, s);
  }
}
