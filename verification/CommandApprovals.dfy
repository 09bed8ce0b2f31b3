/** What operators decide is what happens: over every interleaving, an approval is approved or used
    only after someone approved it, and a denied one is never used. */
module CommandApprovals {
  import opened Prelude
  import opened Lifecycle
  import opened JournalRepositories
  import opened CommandAuthorization

  // ---------- one step ----------

  /** The step is an operator's decision about the approval, and the repository accepts it. */
  ghost predicate Decides(s: State, p: Pid, a: Action, approvalId: string, approve: bool) {
    && p !in s.procs && a.Ambient? && a.op.DecideApproval? && a.op.approvalId == approvalId && a.op.approve == approve
    && Apply(s.db, a.op).Ok?
  }

  /** The approval has the status. */
  ghost predicate Has(db: Db, approvalId: string, status: ApprovalStatus) {
    approvalId in db.approvals && db.approvals[approvalId].status == status
  }

  /** How one transaction may change the status of an approval. */
  ghost predicate Moves(db: Db, db': Db, approvalId: string, op: Op) {
    && (approvalId in db.approvals ==> approvalId in db'.approvals)
    && (Has(db', approvalId, ApprovalStatus.APPROVED) && !Has(db, approvalId, ApprovalStatus.APPROVED) ==>
          op.DecideApproval? && op.approvalId == approvalId && op.approve)
    && (Has(db', approvalId, ApprovalStatus.CONSUMED) ==>
          Has(db, approvalId, ApprovalStatus.CONSUMED) || Has(db, approvalId, ApprovalStatus.APPROVED))
    && (Has(db', approvalId, ApprovalStatus.DENIED) && !Has(db, approvalId, ApprovalStatus.DENIED) ==>
          op.DecideApproval? && op.approvalId == approvalId && !op.approve)
    && (Has(db, approvalId, ApprovalStatus.DENIED) ==> Has(db', approvalId, ApprovalStatus.DENIED))
  }

  lemma TransactionMoves(db: Db, op: Op, approvalId: string)
    requires Apply(db, op).Ok?
    ensures Moves(db, Apply(db, op).value, approvalId, op)
  {
    if op.InitializeSteps? {
      PlanStepsKeepTables(db, op.runId, op.definitions);
    }
  }

  /** The database after a step is the one before, or that of one accepted transaction; a decision is
      one only when an operator makes it. */
  ghost predicate ByTransaction(s: State, s': State, p: Pid, a: Action) {
    s'.db == s.db ||
    exists op :: Apply(s.db, op).Ok? && s'.db == Apply(s.db, op).value
                 && (op.DecideApproval? ==> p !in s.procs && a == Ambient(op))
  }

  lemma TransactIsOne(s: State, p: Pid, a: Action, op: Op, done: Option<Pc>, failed: Option<Pc>)
    requires op.DecideApproval? ==> p !in s.procs && a == Ambient(op)
    ensures ByTransaction(s, Transact(s, p, op, done, failed), p, a)
  {
  }

  lemma EnterIsOne(s: State, p: Pid, a: Action)
    requires p !in s.procs && Enter(s, p, a).Some?
    ensures ByTransaction(s, Enter(s, p, a).value, p, a)
  {
    if a.Plan? {
      TransactIsOne(s, p, a, InsertPlanned(a.snapshot, a.stepId, a.key), Some(Planned(a.snapshot.id)), None);
    } else if a.Ambient? {
      TransactIsOne(s, p, a, a.op, None, None);
    }
  }

  lemma DecideIsOne(s: State, p: Pid, a: Action)
    requires p in s.procs && Continue(s, p, a).Some?
    requires a.Validate? || a.Decide? || a.Resolve? || a.RequireApproval? || a.EvaluationRaises?
    ensures ByTransaction(s, Continue(s, p, a).value, p, a)
  {
    var pc := s.procs[p];
    var s' := Continue(s, p, a).value;
    if a.Validate? {
      TransactIsOne(s, p, a, Transition(pc.commandId, CommandStatus.VALIDATING, None, None), Some(Validating(pc.commandId)), None);
    } else if a.Decide? && pc.commandId in s.db.commands {
      TransactIsOne(s, p, a, CreateDecision(a.decisionId, DecisionRow(pc.commandId, a.effect, s.db.commands[pc.commandId].snapshot, true)),
                    Some(Decided(pc.commandId, a.decisionId, a.effect)), Some(Failing(pc.commandId)));
    } else if a.Resolve? {
      ResolveIsOne(s, p, a);
    } else if a.RequireApproval? {
      TransactIsOne(s, p, a, Transition(pc.commandId, CommandStatus.APPROVAL_REQUIRED, Some(pc.decisionId), Some(pc.approvalId)),
                    None, Some(Failing(pc.commandId)));
    }
  }

  lemma ResolveIsOne(s: State, p: Pid, a: Action)
    requires p in s.procs && a.Resolve? && s.procs[p].Decided?
    ensures ByTransaction(s, ResolveStep(s, p, s.procs[p], a.approvalId, a.expiresAt), p, a)
  {
    var id, d := s.procs[p].commandId, s.procs[p].decisionId;
    match s.procs[p].effect
    case DENY => TransactIsOne(s, p, a, Transition(id, CommandStatus.REJECTED, Some(d), None), None, Some(Failing(id)));
    case ALLOW =>
      TransactIsOne(s, p, a, Transition(id, CommandStatus.AUTHORIZED, Some(d), None), Some(Authorized(id, false)), Some(Failing(id)));
    case REQUIRE_APPROVAL =>
      TransactIsOne(s, p, a, CreateApproval(a.approvalId, id, d, true, a.expiresAt), Some(Requested(id, d, a.approvalId)), Some(Failing(id)));
  }

  lemma RunIsOne(s: State, p: Pid, a: Action)
    requires p in s.procs && Continue(s, p, a).Some?
    requires a.Start? || a.CallExecutor? || a.RecordStream? || a.Finish? || a.RecordFailure?
    ensures ByTransaction(s, Continue(s, p, a).value, p, a)
  {
    var pc := s.procs[p];
    if a.Start? {
      TransactIsOne(s, p, a, Transition(pc.commandId, CommandStatus.RUNNING, None, None), Some(Calling(pc.commandId, pc.viaApproval)),
                    Fallback(pc.commandId, pc.viaApproval));
    } else if a.RecordStream? && pc.commandId in s.db.commands {
      TransactIsOne(s, p, a, CreateArtifact(s.db.commands[pc.commandId].snapshot.runId, Some(pc.commandId), a.kind), Some(pc),
                    Fallback(pc.commandId, pc.viaApproval));
    } else if a.Finish? {
      TransactIsOne(s, p, a, Transition(pc.commandId, a.outcome, None, None), None, Fallback(pc.commandId, pc.viaApproval));
    } else if a.RecordFailure? {
      TransactIsOne(s, p, a, Transition(pc.commandId, CommandStatus.FAILED, None, None), None, None);
    }
  }

  lemma ApproveIsOne(s: State, p: Pid, a: Action)
    requires p in s.procs && Continue(s, p, a).Some?
    requires a.CheckApproval? || a.ExpireChecked? || a.Consume? || a.Authorize? || a.Reject? || a.Crash?
    ensures ByTransaction(s, Continue(s, p, a).value, p, a)
  {
    var pc := s.procs[p];
    if a.ExpireChecked? {
      TransactIsOne(s, p, a, ExpireApproval(pc.approvalId), Some(Rejecting(pc.commandId)), None);
    } else if a.Consume? {
      TransactIsOne(s, p, a, ConsumeApproval(pc.approvalId), Some(Consumed(pc.commandId, pc.approvalId)), None);
    } else if a.Authorize? {
      TransactIsOne(s, p, a, Transition(pc.commandId, CommandStatus.AUTHORIZED, None, Some(pc.approvalId)),
                    Some(Authorized(pc.commandId, true)), None);
    } else if a.Reject? {
      TransactIsOne(s, p, a, Transition(pc.commandId, CommandStatus.REJECTED, None, None), None, None);
    }
  }

  lemma StepIsOne(s: State, p: Pid, a: Action)
    requires Step(s, p, a).Some?
    ensures ByTransaction(s, Step(s, p, a).value, p, a)
  {
    if p !in s.procs {
      EnterIsOne(s, p, a);
    } else if a.Validate? || a.Decide? || a.Resolve? || a.RequireApproval? || a.EvaluationRaises? {
      DecideIsOne(s, p, a);
    } else if a.Start? || a.CallExecutor? || a.RecordStream? || a.Finish? || a.RecordFailure? {
      RunIsOne(s, p, a);
    } else {
      ApproveIsOne(s, p, a);
    }
  }

  /** An approval becomes approved, or denied, only by an accepted decision of that kind; it is used
      only after it was approved; and a denied one stays denied. */
  lemma StepMoves(s: State, p: Pid, a: Action, approvalId: string)
    requires Step(s, p, a).Some?
    ensures var db, db' := s.db, Step(s, p, a).value.db;
            && (Has(db', approvalId, ApprovalStatus.APPROVED) ==>
                  Has(db, approvalId, ApprovalStatus.APPROVED) || Decides(s, p, a, approvalId, true))
            && (Has(db', approvalId, ApprovalStatus.CONSUMED) ==>
                  Has(db, approvalId, ApprovalStatus.CONSUMED) || Has(db, approvalId, ApprovalStatus.APPROVED))
            && (Has(db', approvalId, ApprovalStatus.DENIED) ==>
                  Has(db, approvalId, ApprovalStatus.DENIED) || Decides(s, p, a, approvalId, false))
            && (Has(db, approvalId, ApprovalStatus.DENIED) ==> Has(db', approvalId, ApprovalStatus.DENIED))
  {
    StepIsOne(s, p, a);
    if Step(s, p, a).value.db != s.db {
      var op :| Apply(s.db, op).Ok? && Step(s, p, a).value.db == Apply(s.db, op).value
                && (op.DecideApproval? ==> p !in s.procs && a == Ambient(op));
      TransactionMoves(s.db, op, approvalId);
    }
  }

  // ---------- runs ----------

  /** Some step of the run is an accepted decision of that kind about the approval. */
  ghost predicate DecidedIn(events: seq<Event>, approvalId: string, approve: bool) {
    exists n :: 0 <= n < |events| && DecidedAt(events, n, approvalId, approve)
  }

  ghost predicate DecidedAt(events: seq<Event>, n: nat, approvalId: string, approve: bool)
    requires n < |events|
  {
    Run(INITIAL, events[..n]).Some? &&
    Decides(Run(INITIAL, events[..n]).value, events[n].pid, events[n].action, approvalId, approve)
  }

  lemma {:induction false} RunPrefix(s: State, events: seq<Event>, n: nat)
    requires n <= |events| && Run(s, events).Some?
    ensures Run(s, events[..n]).Some?
    decreases n
  {
    if n > 0 {
      RunPrefix(Step(s, events[0].pid, events[0].action).value, events[1..], n - 1);
      assert events[..n][1..] == events[1..][..n - 1];
    }
  }

  lemma RunLast(s: State, events: seq<Event>)
    requires events != [] && Run(s, events).Some?
    ensures var n := |events| - 1;
            && Run(s, events[..n]).Some?
            && Step(Run(s, events[..n]).value, events[n].pid, events[n].action) == Run(s, events)
  {
    var n := |events| - 1;
    RunPrefix(s, events, n);
    RunSnoc(s, events[..n], events[n]);
    assert events == events[..n] + [events[n]];
  }

  lemma EarlierDecision(events: seq<Event>, n: nat, approvalId: string, approve: bool)
    requires n <= |events| && DecidedIn(events[..n], approvalId, approve)
    ensures DecidedIn(events, approvalId, approve)
  {
    var m :| 0 <= m < n && DecidedAt(events[..n], m, approvalId, approve);
    assert events[..n][..m] == events[..m];
    assert DecidedAt(events, m, approvalId, approve);
  }

  /** Along every run, an approval that is approved or used was approved by an operator before, and a
      denied one was denied by one. */
  lemma {:induction false} StatusWasDecided(events: seq<Event>, approvalId: string)
    requires Run(INITIAL, events).Some?
    ensures var db := Run(INITIAL, events).value.db;
            && (Has(db, approvalId, ApprovalStatus.APPROVED) || Has(db, approvalId, ApprovalStatus.CONSUMED) ==>
                  DecidedIn(events, approvalId, true))
            && (Has(db, approvalId, ApprovalStatus.DENIED) ==> DecidedIn(events, approvalId, false))
    decreases |events|
  {
    if events != [] {
      var n := |events| - 1;
      RunLast(INITIAL, events);
      StatusWasDecided(events[..n], approvalId);
      var before := Run(INITIAL, events[..n]).value;
      StepMoves(before, events[n].pid, events[n].action, approvalId);
      if DecidedIn(events[..n], approvalId, true) { EarlierDecision(events, n, approvalId, true); }
      if DecidedIn(events[..n], approvalId, false) { EarlierDecision(events, n, approvalId, false); }
      assert Decides(before, events[n].pid, events[n].action, approvalId, true) ==> DecidedAt(events, n, approvalId, true);
      assert Decides(before, events[n].pid, events[n].action, approvalId, false) ==> DecidedAt(events, n, approvalId, false);
    }
  }

  /** When the executor is called, the policy allowed the command, or an operator approved before
      the approval that was used for it. */
  lemma CallWasApproved(events: seq<Event>, p: Pid)
    requires Run(INITIAL, events).Some?
    requires var s := Run(INITIAL, events).value; p in s.procs && s.procs[p].Calling?
    ensures var s := Run(INITIAL, events).value;
            var id := s.procs[p].commandId;
            && id in s.db.commands
            && (AllowedByPolicy(s.db, id) ||
                (AllowedByApproval(s.db, id) && DecidedIn(events, s.db.commands[id].approvalId.value, true)))
  {
    var s := Run(INITIAL, events).value;
    RunKeepsInv(INITIAL, events);
    assert PcFits(s, s.procs[p]);
    var id := s.procs[p].commandId;
    if !AllowedByPolicy(s.db, id) {
      StatusWasDecided(events, s.db.commands[id].approvalId.value);
    }
  }

  lemma {:induction false} DeniedStays(s: State, events: seq<Event>, approvalId: string)
    requires Has(s.db, approvalId, ApprovalStatus.DENIED) && Run(s, events).Some?
    ensures Has(Run(s, events).value.db, approvalId, ApprovalStatus.DENIED)
    decreases |events|
  {
    if events != [] {
      StepMoves(s, events[0].pid, events[0].action, approvalId);
      DeniedStays(Step(s, events[0].pid, events[0].action).value, events[1..], approvalId);
    }
  }

  /** An accepted decision leaves exactly what was decided. */
  lemma DecisionIsKept(db: Db, approvalId: string, approve: bool, now: int)
    requires Apply(db, DecideApproval(approvalId, approve, now)).Ok?
    ensures Has(db, approvalId, ApprovalStatus.PENDING) && now < db.approvals[approvalId].expiresAt
    ensures var db' := Apply(db, DecideApproval(approvalId, approve, now)).value;
            && (Has(db', approvalId, ApprovalStatus.APPROVED) <==> approve)
            && (Has(db', approvalId, ApprovalStatus.DENIED) <==> !approve)
  {
  }

  /** The command is allowed by the policy, or names another approval. */
  ghost predicate StandsApartFrom(db: Db, id: string, approvalId: string) {
    id in db.commands && (AllowedByPolicy(db, id) || db.commands[id].approvalId != Some(approvalId))
  }

  /** After an accepted denial no continuation uses the approval, and no executor call of any
      continuation stands on it. */
  lemma DeniedIsNeverUsed(s: State, p: Pid, approvalId: string, now: int, events: seq<Event>)
    requires Inv(s) && p !in s.procs && Apply(s.db, DecideApproval(approvalId, false, now)).Ok?
    requires Run(s, [Event(p, Ambient(DecideApproval(approvalId, false, now)))] + events).Some?
    ensures var later := Run(s, [Event(p, Ambient(DecideApproval(approvalId, false, now)))] + events).value;
            && Has(later.db, approvalId, ApprovalStatus.DENIED)
            && forall i :: 0 <= i < |later.calls| ==> StandsApartFrom(later.db, later.calls[i], approvalId)
  {
    var e := Event(p, Ambient(DecideApproval(approvalId, false, now)));
    assert ([e] + events)[1..] == events;
    var denied := Step(s, p, e.action).value;
    DecisionIsKept(s.db, approvalId, false, now);
    assert Has(denied.db, approvalId, ApprovalStatus.DENIED);
    DeniedStays(denied, events, approvalId);
    RunKeepsInv(s, [e] + events);
    var later := Run(s, [e] + events).value;
    forall i | 0 <= i < |later.calls|
      ensures StandsApartFrom(later.db, later.calls[i], approvalId)
    {
      assert Backed(later.db, later.calls[i]);
    }
  }

  /** The check before an approval is used lets exactly these pass: approved, in time, intact, for
      this command of this run, and of a decision about exactly the fields the command has. An
      approval whose time has passed is expired instead. */
  lemma CheckedIsUsable(db: Db, id: string, approvalId: string, now: int)
    requires id in db.commands && approvalId in db.approvals && db.approvals[approvalId].decisionId in db.decisions
    ensures var next, approval, row := ConsumeCheck(db, id, approvalId, now), db.approvals[approvalId], db.commands[id];
            var decision := db.decisions[approval.decisionId];
            && (next == Consuming(id, approvalId) <==>
                  && approval.status == ApprovalStatus.APPROVED && now < approval.expiresAt && approval.manifestIntact
                  && approval.commandId == row.snapshot.id && approval.runId == row.snapshot.runId
                  && decision.intact && decision.snapshot == row.snapshot)
            && (next == ExpiringApproval(id, approvalId) <==>
                  && approval.expiresAt <= now
                  && (approval.status == ApprovalStatus.PENDING || approval.status == ApprovalStatus.APPROVED))
            && (next.Consuming? || next.ExpiringApproval? || next == Rejecting(id))
  {
  }
}
