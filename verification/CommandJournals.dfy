/** The command journal as the program runs it (solana_agent/execution/journal.py): each method is a
    sequence of repository transactions around one executor call. Every call is a run of the
    transition system of CommandAuthorization, so what is proved there holds of these methods. */
module CommandJournals {
  import opened Prelude
  import opened Lifecycle
  import opened JournalRepositories
  import opened CommandAuthorization

  datatype ExecutorResult = Exited(code: int) | TimedOut | Interrupted | Raised

  /** The status that an executor result is recorded as. */
  function RecordedStatus(result: ExecutorResult): CommandStatus {
    match result
    case Exited(code) => if code == 0 then CommandStatus.SUCCEEDED else CommandStatus.FAILED
    case TimedOut => CommandStatus.TIMED_OUT
    case Interrupted => CommandStatus.INTERRUPTED
    case Raised => CommandStatus.FAILED
  }

  /** What an executor result is recorded as: success is exit code 0 and nothing else. */
  ghost predicate RecordedAs(status: CommandStatus, result: ExecutorResult) {
    && (status == CommandStatus.SUCCEEDED <==> result == Exited(0))
    && (status == CommandStatus.TIMED_OUT <==> result == TimedOut)
    && (status == CommandStatus.INTERRUPTED <==> result == Interrupted)
    && (status == CommandStatus.FAILED <==> result == Raised || (result.Exited? && result.code != 0))
  }

  /** What a policy decision and an executor result lead to. */
  ghost predicate GovernedAs(status: CommandStatus, effect: Option<PolicyEffect>, result: ExecutorResult) {
    && (effect == None ==> status == CommandStatus.FAILED)
    && (effect == Some(DENY) ==> status == CommandStatus.REJECTED)
    && (effect == Some(REQUIRE_APPROVAL) ==> status == CommandStatus.APPROVAL_REQUIRED)
    && (effect == Some(ALLOW) ==> RecordedAs(status, result))
  }

  lemma StatusesFit(effect: Option<PolicyEffect>, result: ExecutorResult)
    ensures RecordedAs(RecordedStatus(result), result) && GovernedAs(GovernedStatus(effect, result), effect, result)
  {
  }

  datatype Outcome = Outcome(commandId: string, duplicate: bool)

  /** The policy decision of the engine, with the ids of the rows that record it; an exception of
      the evaluation is None. */
  datatype Governance = Governance(effect: Option<PolicyEffect>, decisionId: string, approvalId: string, expiresAt: int)

  /** The status a new command ends with when nothing else happens meanwhile. */
  function GovernedStatus(effect: Option<PolicyEffect>, result: ExecutorResult): CommandStatus {
    match effect
    case None => CommandStatus.FAILED
    case Some(DENY) => CommandStatus.REJECTED
    case Some(REQUIRE_APPROVAL) => CommandStatus.APPROVAL_REQUIRED
    case Some(ALLOW) => RecordedStatus(result)
  }

  /** The ids drawn for the decision and the approval are unused. */
  ghost predicate FreshIds(db: Db, governance: Governance) {
    governance.decisionId !in db.decisions && governance.approvalId !in db.approvals
  }

  /** Only one command row changed, and not in its fields. */
  ghost predicate SameFields(before: map<string, CommandRow>, after: map<string, CommandRow>, id: string)
    requires id in before
  {
    && id in after && after == before[id := after[id]]
    && after[id].snapshot == before[id].snapshot && after[id].stepId == before[id].stepId
    && after[id].idempotencyKey == before[id].idempotencyKey
  }

  function Moved(row: CommandRow, target: CommandStatus, decision: Option<string>, approval: Option<string>): CommandRow {
    row.(status := target, decisionId := Coalesce(decision, row.decisionId), approvalId := Coalesce(approval, row.approvalId))
  }

  /** The rows that record a policy decision: the decision for exactly these fields, and for a
      required approval a pending one of that decision; both ids are unused. */
  ghost predicate DecisionRecorded(db: Db, db': Db, snapshot: CommandSnapshot, id: string, g: Governance) {
    && db'.decisions == (if g.effect.Some? then db.decisions[g.decisionId := DecisionRow(id, g.effect.value, snapshot, true)]
                         else db.decisions)
    && db'.approvals == (if g.effect == Some(REQUIRE_APPROVAL)
                         then db.approvals[g.approvalId :=
                           ApprovalRow(snapshot.runId, id, g.decisionId, true, ApprovalStatus.PENDING, g.expiresAt)]
                         else db.approvals)
  }

  datatype ApprovedOutcome = NotAwaitingApproval | RowMissing | Settled(executed: bool)

  /** The approval of a command is approved, in time, for this command, and about exactly the fields
      it has. */
  ghost predicate ApprovalUsable(db: Db, row: CommandRow, now: int) {
    && row.approvalId.Some? && row.approvalId.value in db.approvals
    && var approval := db.approvals[row.approvalId.value];
       && approval.status == ApprovalStatus.APPROVED && now < approval.expiresAt && approval.manifestIntact
       && approval.commandId == row.snapshot.id && approval.runId == row.snapshot.runId
       && approval.decisionId in db.decisions
       && db.decisions[approval.decisionId].intact && db.decisions[approval.decisionId].snapshot == row.snapshot
  }

  /** consume marks a usable approval as used and one past its time as expired, and leaves any other. */
  ghost predicate UsedOrExpired(before: map<string, ApprovalRow>, after: map<string, ApprovalRow>, approvalId: string, now: int, used: bool)
    requires approvalId in before
  {
    var row := before[approvalId];
    if used then after == before[approvalId := row.(status := ApprovalStatus.CONSUMED)]
    else if row.expiresAt <= now && (row.status == ApprovalStatus.PENDING || row.status == ApprovalStatus.APPROVED)
    then after == before[approvalId := row.(status := ApprovalStatus.EXPIRED)]
    else after == before
  }

  predicate Overdue(row: ApprovalRow, now: int) {
    row.status in {ApprovalStatus.PENDING, ApprovalStatus.APPROVED} && row.expiresAt <= now
  }

  function AfterDeadline(row: ApprovalRow, now: int): ApprovalRow {
    if Overdue(row, now) then row.(status := ApprovalStatus.EXPIRED) else row
  }

  /** Exactly the overdue approvals expired. */
  ghost predicate ExpiredOverdue(before: map<string, ApprovalRow>, after: map<string, ApprovalRow>, now: int) {
    after.Keys == before.Keys && forall id :: id in before ==> after[id] == AfterDeadline(before[id], now)
  }

  function AfterRestart(row: CommandRow): CommandRow {
    if row.status == CommandStatus.RUNNING then row.(status := CommandStatus.INTERRUPTED) else row
  }

  /** A transaction step leads to the database that the transaction left and to the program counter
      for its result. */
  lemma TransactDid(s: State, p: Pid, op: Op, done: Option<Pc>, failed: Option<Pc>, after: Db, r: Result<(), DbError>)
    requires Did(s.db, after, op, r)
    ensures var next := if r.Ok? then done else failed;
            Transact(s, p, op, done, failed) ==
              State(after, match next case Some(pc) => s.procs[p := pc] case None => s.procs - {p}, s.calls)
  {
  }

  lemma OneProcess(p: Pid, here: Pc, next: Option<Pc>)
    ensures (match next case Some(pc) => map[p := here][p := pc] case None => map[p := here] - {p}) ==
            (match next case Some(pc) => map[p := pc] case None => map[])
  {
    assert map[p := here] - {p} == map[];
  }

  lemma StreamStep(s: State, p: Pid, kind: string)
    requires p in s.procs && s.procs[p].Called? && s.procs[p].commandId in s.db.commands
    ensures var pc := s.procs[p];
            Step(s, p, Action.RecordStream(kind)) ==
              Some(Transact(s, p, CreateArtifact(s.db.commands[pc.commandId].snapshot.runId, Some(pc.commandId), kind), Some(pc),
                            Fallback(pc.commandId, pc.viaApproval)))
  {
  }

  lemma ArtifactKeepsTables(db: Db, runId: string, id: string, kind: string)
    requires runId in db.runs && id in db.commands
    ensures AfterCreateArtifact(db, runId, Some(id), kind).Ok?
    ensures var after := AfterCreateArtifact(db, runId, Some(id), kind).value;
            && after.commands == db.commands && after.runs == db.runs && after.steps == db.steps
            && after.approvals == db.approvals && after.decisions == db.decisions
  {
  }

  lemma FinishedStep(s: State, p: Pid, result: ExecutorResult)
    requires p in s.procs && s.procs[p].Called?
    ensures RecordedStatus(result) in CommandTransitions(CommandStatus.RUNNING)
    ensures var pc := s.procs[p];
            Step(s, p, Finish(RecordedStatus(result))) ==
              Some(Transact(s, p, Transition(pc.commandId, RecordedStatus(result), None, None), None, Fallback(pc.commandId, pc.viaApproval)))
  {
  }

  class CommandJournal {
    const repository: JournalRepository
    const pid: Pid
    ghost var calls: seq<string>

    ghost function At(pc: Option<Pc>): map<Pid, Pc> {
      match pc case Some(here) => map[pid := here] case None => map[]
    }

    /** The shared state while this process is at the given point and no other is inside. */
    ghost function Snapshot(pc: Option<Pc>): State
      reads this, repository
    {
      State(repository.Contents(), At(pc), calls)
    }

    constructor (pid: Pid)
      ensures fresh(repository) && Snapshot(None) == INITIAL && this.pid == pid
    {
      this.pid := pid;
      repository := new JournalRepository();
      calls := [];
    }

    /** Adds one step to the recorded run. */
    ghost method Take(s0: State, s: State, trace: seq<Event>, a: Action) returns (s': State, trace': seq<Event>)
      requires Run(s0, trace) == Some(s) && Step(s, pid, a).Some?
      ensures s' == Step(s, pid, a).value
      ensures trace' == trace + [Event(pid, a)] && Run(s0, trace') == Some(s')
    {
      RunSnoc(s0, trace, Event(pid, a));
      s' := Step(s, pid, a).value;
      trace' := trace + [Event(pid, a)];
    }

    /** Records the step of a repository transaction that just happened. */
    ghost method Record(s0: State, s1: State, trace0: seq<Event>, a: Action, here: Pc, op: Op, done: Option<Pc>, failed: Option<Pc>,
                        before: Db, r: Result<(), DbError>)
      returns (s: State, trace: seq<Event>)
      requires Run(s0, trace0) == Some(s1) && s1 == State(before, At(Some(here)), calls)
      requires Step(s1, pid, a) == Some(Transact(s1, pid, op, done, failed))
      requires Did(before, repository.Contents(), op, r)
      ensures Run(s0, trace) == Some(s) && s == Snapshot(if r.Ok? then done else failed)
    {
      s, trace := Take(s0, s1, trace0, a);
      TransactDid(s1, pid, op, done, failed, repository.Contents(), r);
      OneProcess(pid, here, if r.Ok? then done else failed);
    }

    /** One command transition that the table allows, taken as the given action. */
    method Move(ghost s0: State, ghost s1: State, ghost trace0: seq<Event>, ghost a: Action, ghost here: Pc,
                ghost done: Option<Pc>, ghost failed: Option<Pc>,
                id: string, target: CommandStatus, decision: Option<string>, approval: Option<string>)
      returns (ghost s: State, ghost trace: seq<Event>)
      requires id in repository.commands && target in CommandTransitions(repository.commands[id].status)
      requires Run(s0, trace0) == Some(s1) && s1 == Snapshot(Some(here))
      requires Step(s1, pid, a) == Some(Transact(s1, pid, Transition(id, target, decision, approval), done, failed))
      modifies repository
      ensures repository.runs == old(repository.runs) && repository.steps == old(repository.steps)
      ensures Run(s0, trace) == Some(s) && s == Snapshot(done)
      ensures repository.commands == old(repository.commands)[id := Moved(old(repository.commands)[id], target, decision, approval)]
      ensures repository.approvals == old(repository.approvals) && repository.decisions == old(repository.decisions)
    {
      ghost var before := repository.Contents();
      var r := repository.TransitionCommand(id, target, decision, approval);
      s, trace := Record(s0, s1, trace0, a, here, Transition(id, target, decision, approval), done, failed, before, r);
    }

    /** The row with a run's idempotency key, if there is one. */
    method FindCommandByIdempotency(runId: string, key: string) returns (found: Option<string>)
      ensures found.Some? <==> KeyTaken(repository.Contents(), runId, key)
      ensures found.Some? ==> found.value in repository.commands
                              && repository.commands[found.value].snapshot.runId == runId
                              && repository.commands[found.value].idempotencyKey == key
    {
      if exists id <- repository.commands :: repository.commands[id].snapshot.runId == runId
                                             && repository.commands[id].idempotencyKey == key {
        var id :| id in repository.commands && repository.commands[id].snapshot.runId == runId
                  && repository.commands[id].idempotencyKey == key;
        return Some(id);
      }
      found := None;
    }

    /** execute, governed by a policy: a known key answers with its command and changes nothing, and
        a new command gets the status that the policy and the executor lead to. The executor is
        called exactly when the policy allows. */
    method Execute(snapshot: CommandSnapshot, stepId: string, key: string, governance: Governance, result: ExecutorResult)
      returns (r: Result<Outcome, DbError>, ghost trace: seq<Event>)
      modifies repository, this`calls
      ensures repository.runs == old(repository.runs) && repository.steps == old(repository.steps)
      ensures Run(old(Snapshot(None)), trace) == Some(Snapshot(None))
      ensures r.Err? || r.value.duplicate ==> repository.Contents() == old(repository.Contents()) && calls == old(calls)
      ensures r.Err? <==>
                || snapshot.runId !in old(repository.runs)
                || (!KeyTaken(old(repository.Contents()), snapshot.runId, key) && snapshot.id in old(repository.commands))
      ensures r.Ok? ==> (r.value.duplicate <==> KeyTaken(old(repository.Contents()), snapshot.runId, key))
      ensures r.Ok? ==> && r.value.commandId in repository.commands
                        && repository.commands[r.value.commandId].snapshot.runId == snapshot.runId
                        && repository.commands[r.value.commandId].idempotencyKey == key
      ensures r.Ok? && !r.value.duplicate && FreshIds(old(repository.Contents()), governance) ==>
                && snapshot.id in repository.commands
                && repository.commands == old(repository.commands)[snapshot.id := repository.commands[snapshot.id]]
                && repository.commands[snapshot.id].snapshot == snapshot && repository.commands[snapshot.id].stepId == stepId
                && repository.commands[snapshot.id].status == GovernedStatus(governance.effect, result)
                && GovernedAs(repository.commands[snapshot.id].status, governance.effect, result)
                && repository.commands[snapshot.id].idempotencyKey == key
                && (repository.commands[snapshot.id].approvalId.Some? <==> governance.effect == Some(REQUIRE_APPROVAL))
                && calls == (if governance.effect == Some(ALLOW) then old(calls) + [snapshot.id] else old(calls))
                && DecisionRecorded(old(repository.Contents()), repository.Contents(), snapshot, snapshot.id, governance)
    {
      ghost var s0 := Snapshot(None);
      trace := [];
      if snapshot.runId !in repository.runs {
        return Err(NotFound), trace;
      }
      StatusesFit(governance.effect, result);
      var existing := FindCommandByIdempotency(snapshot.runId, key);
      if existing.Some? {
        return Ok(Outcome(existing.value, true)), trace;
      }
      r, trace := PlanAndGovern(s0, snapshot, stepId, key, governance, result);
    }

    /** The part of execute for an unused key. */
    method PlanAndGovern(ghost s0: State, snapshot: CommandSnapshot, stepId: string, key: string, governance: Governance, result: ExecutorResult)
      returns (r: Result<Outcome, DbError>, ghost trace: seq<Event>)
      requires s0 == Snapshot(None)
      requires snapshot.runId in repository.runs && !KeyTaken(repository.Contents(), snapshot.runId, key)
      modifies repository, this`calls
      ensures repository.runs == old(repository.runs) && repository.steps == old(repository.steps)
      ensures Run(s0, trace) == Some(Snapshot(None))
      ensures r.Err? <==> snapshot.id in old(repository.commands)
      ensures r.Err? ==> repository.Contents() == old(repository.Contents()) && calls == old(calls)
      ensures r.Ok? ==>
                && r.value == Outcome(snapshot.id, false) && snapshot.id in repository.commands
                && repository.commands == old(repository.commands)[snapshot.id := repository.commands[snapshot.id]]
                && repository.commands[snapshot.id].snapshot == snapshot && repository.commands[snapshot.id].stepId == stepId
                && repository.commands[snapshot.id].idempotencyKey == key
      ensures r.Ok? && FreshIds(old(repository.Contents()), governance) ==>
                && repository.commands[snapshot.id].status == GovernedStatus(governance.effect, result)
                && (repository.commands[snapshot.id].approvalId.Some? <==> governance.effect == Some(REQUIRE_APPROVAL))
                && calls == (if governance.effect == Some(ALLOW) then old(calls) + [snapshot.id] else old(calls))
                && DecisionRecorded(old(repository.Contents()), repository.Contents(), snapshot, snapshot.id, governance)
    {
      ghost var s;
      s, trace := Take(s0, s0, [], Plan(snapshot, stepId, key));
      var inserted := repository.InsertPlannedCommand(snapshot, stepId, key);
      if inserted.Err? {
        return Err(inserted.error), trace;
      }
      assert s == Snapshot(Some(Planned(snapshot.id)));
      trace := Govern(s0, s, trace, snapshot.id, governance, result);
      r := Ok(Outcome(snapshot.id, false));
    }

    /** The part of execute from validation on. */
    method Govern(ghost s0: State, ghost s1: State, ghost trace0: seq<Event>, id: string, governance: Governance, result: ExecutorResult)
      returns (ghost trace: seq<Event>)
      requires id in repository.commands && repository.commands[id].status == CommandStatus.PLANNED
      requires repository.commands[id].snapshot.runId in repository.runs
      requires Run(s0, trace0) == Some(s1) && s1 == Snapshot(Some(Planned(id)))
      modifies repository, this`calls
      ensures repository.runs == old(repository.runs) && repository.steps == old(repository.steps)
      ensures Run(s0, trace) == Some(Snapshot(None))
      ensures SameFields(old(repository.commands), repository.commands, id)
      ensures FreshIds(old(repository.Contents()), governance) ==>
                && repository.commands[id].status == GovernedStatus(governance.effect, result)
                && repository.commands[id].approvalId == (if governance.effect == Some(REQUIRE_APPROVAL) then Some(governance.approvalId)
                                                          else old(repository.commands)[id].approvalId)
                && calls == (if governance.effect == Some(ALLOW) then old(calls) + [id] else old(calls))
                && DecisionRecorded(old(repository.Contents()), repository.Contents(), old(repository.commands)[id].snapshot, id, governance)
    {
      ghost var s;
      s, trace := Move(s0, s1, trace0, Validate, Planned(id), Some(Validating(id)), None,
                       id, CommandStatus.VALIDATING, None, None);
      if governance.effect.None? {
        s, trace := RaiseEvaluation(s0, s, trace, id);
        trace := Fail(s0, s, trace, id);
      } else {
        trace := Evaluate(s0, s, trace, id, governance, result);
      }
    }

    ghost method RaiseEvaluation(s0: State, s1: State, trace0: seq<Event>, id: string) returns (s: State, trace: seq<Event>)
      requires Run(s0, trace0) == Some(s1) && s1 == Snapshot(Some(Validating(id)))
      ensures Run(s0, trace) == Some(s) && s == Snapshot(Some(Failing(id)))
    {
      s, trace := Take(s0, s1, trace0, EvaluationRaises);
      assert s.procs == At(Some(Failing(id)));
    }

    /** A policy decision is recorded before it is applied. */
    method Evaluate(ghost s0: State, ghost s1: State, ghost trace0: seq<Event>, id: string, governance: Governance, result: ExecutorResult)
      returns (ghost trace: seq<Event>)
      requires governance.effect.Some?
      requires id in repository.commands && repository.commands[id].status == CommandStatus.VALIDATING
      requires repository.commands[id].snapshot.runId in repository.runs
      requires Run(s0, trace0) == Some(s1) && s1 == Snapshot(Some(Validating(id)))
      modifies repository, this`calls
      ensures repository.runs == old(repository.runs) && repository.steps == old(repository.steps)
      ensures Run(s0, trace) == Some(Snapshot(None))
      ensures SameFields(old(repository.commands), repository.commands, id)
      ensures FreshIds(old(repository.Contents()), governance) ==>
                && repository.commands[id].status == GovernedStatus(governance.effect, result)
                && repository.commands[id].approvalId == (if governance.effect == Some(REQUIRE_APPROVAL) then Some(governance.approvalId)
                                                          else old(repository.commands)[id].approvalId)
                && calls == (if governance.effect == Some(ALLOW) then old(calls) + [id] else old(calls))
                && DecisionRecorded(old(repository.Contents()), repository.Contents(), old(repository.commands)[id].snapshot, id, governance)
    {
      var effect, decisionId := governance.effect.value, governance.decisionId;
      ghost var s;
      var recorded;
      recorded, s, trace := RecordDecision(s0, s1, trace0, id, decisionId, effect);
      if recorded.Err? {
        trace := Fail(s0, s, trace, id);
      } else {
        trace := ApplyPolicyDecision(s0, s, trace, id, decisionId, effect, governance.approvalId, governance.expiresAt, result);
      }
    }

    method RecordDecision(ghost s0: State, ghost s1: State, ghost trace0: seq<Event>, id: string, decisionId: string, effect: PolicyEffect)
      returns (r: Result<(), DbError>, ghost s: State, ghost trace: seq<Event>)
      requires id in repository.commands
      requires Run(s0, trace0) == Some(s1) && s1 == Snapshot(Some(Validating(id)))
      modifies repository
      ensures repository.runs == old(repository.runs) && repository.steps == old(repository.steps)
      ensures Run(s0, trace) == Some(s)
      ensures s == Snapshot(Some(if r.Ok? then Decided(id, decisionId, effect) else Failing(id)))
      ensures r.Ok? <==> decisionId !in old(repository.decisions)
      ensures r.Ok? ==>
                repository.decisions ==
                  old(repository.decisions)[decisionId := DecisionRow(id, effect, old(repository.commands)[id].snapshot, true)]
      ensures repository.commands == old(repository.commands) && repository.approvals == old(repository.approvals)
    {
      ghost var before := repository.Contents();
      var row := DecisionRow(id, effect, repository.commands[id].snapshot, true);
      r := repository.CreatePolicyDecision(decisionId, row);
      s, trace := Record(s0, s1, trace0, Decide(decisionId, effect), Validating(id), CreateDecision(decisionId, row),
                         Some(Decided(id, decisionId, effect)), Some(Failing(id)), before, r);
    }

    /** The handler of execute for an exception: the command becomes failed if it still may. */
    method Fail(ghost s0: State, ghost s1: State, ghost trace0: seq<Event>, id: string)
      returns (ghost trace: seq<Event>)
      requires id in repository.commands && repository.commands[id].status == CommandStatus.VALIDATING
      requires Run(s0, trace0) == Some(s1) && s1 == Snapshot(Some(Failing(id)))
      modifies repository
      ensures repository.runs == old(repository.runs) && repository.steps == old(repository.steps)
      ensures repository.approvals == old(repository.approvals) && repository.decisions == old(repository.decisions)
      ensures Run(s0, trace) == Some(Snapshot(None))
      ensures repository.commands == old(repository.commands)[id := old(repository.commands)[id].(status := CommandStatus.FAILED)]
    {
      ghost var s;
      s, trace := Move(s0, s1, trace0, RecordFailure, Failing(id), None, None, id, CommandStatus.FAILED, None, None);
    }

    method ApplyPolicyDecision(ghost s0: State, ghost s1: State, ghost trace0: seq<Event>, id: string, decisionId: string,
                               effect: PolicyEffect, approvalId: string, expiresAt: int, result: ExecutorResult)
      returns (ghost trace: seq<Event>)
      requires id in repository.commands && repository.commands[id].status == CommandStatus.VALIDATING
      requires repository.commands[id].snapshot.runId in repository.runs
      requires decisionId in repository.decisions
      requires Run(s0, trace0) == Some(s1) && s1 == Snapshot(Some(Decided(id, decisionId, effect)))
      modifies repository, this`calls
      ensures repository.runs == old(repository.runs) && repository.steps == old(repository.steps)
      ensures Run(s0, trace) == Some(Snapshot(None))
      ensures SameFields(old(repository.commands), repository.commands, id)
      ensures effect != REQUIRE_APPROVAL || approvalId !in old(repository.approvals) ==>
                && repository.commands[id].status == GovernedStatus(Some(effect), result)
                && repository.commands[id].approvalId == (if effect == REQUIRE_APPROVAL then Some(approvalId)
                                                          else old(repository.commands)[id].approvalId)
      ensures calls == if effect == ALLOW then old(calls) + [id] else old(calls)
      ensures repository.decisions == old(repository.decisions)
      ensures approvalId !in old(repository.approvals) ==>
                repository.approvals == if effect == REQUIRE_APPROVAL then old(repository.approvals)[approvalId :=
                  ApprovalRow(old(repository.commands)[id].snapshot.runId, id, decisionId, true, ApprovalStatus.PENDING, expiresAt)]
                else old(repository.approvals)
    {
      ghost var s;
      match effect
      case DENY =>
        s, trace := Move(s0, s1, trace0, Resolve(approvalId, expiresAt), Decided(id, decisionId, effect), None, Some(Failing(id)),
                         id, CommandStatus.REJECTED, Some(decisionId), None);
      case REQUIRE_APPROVAL =>
        trace := RequestApproval(s0, s1, trace0, id, decisionId, approvalId, expiresAt);
      case ALLOW =>
        s, trace := Move(s0, s1, trace0, Resolve(approvalId, expiresAt), Decided(id, decisionId, effect),
                         Some(Authorized(id, false)), Some(Failing(id)),
                         id, CommandStatus.AUTHORIZED, Some(decisionId), None);
        trace := ExecuteAuthorized(s0, s, trace, id, false, result);
    }

    method RequestApproval(ghost s0: State, ghost s1: State, ghost trace0: seq<Event>, id: string, decisionId: string,
                           approvalId: string, expiresAt: int)
      returns (ghost trace: seq<Event>)
      requires id in repository.commands && repository.commands[id].status == CommandStatus.VALIDATING
      requires decisionId in repository.decisions
      requires Run(s0, trace0) == Some(s1) && s1 == Snapshot(Some(Decided(id, decisionId, REQUIRE_APPROVAL)))
      modifies repository
      ensures repository.runs == old(repository.runs) && repository.steps == old(repository.steps)
      ensures Run(s0, trace) == Some(Snapshot(None))
      ensures repository.commands == old(repository.commands)[id :=
                if approvalId in old(repository.approvals) then old(repository.commands)[id].(status := CommandStatus.FAILED)
                else old(repository.commands)[id].(status := CommandStatus.APPROVAL_REQUIRED, decisionId := Some(decisionId),
                                                   approvalId := Some(approvalId))]
      ensures repository.decisions == old(repository.decisions)
      ensures approvalId !in old(repository.approvals) ==>
                repository.approvals == old(repository.approvals)[approvalId :=
                  ApprovalRow(old(repository.commands)[id].snapshot.runId, id, decisionId, true, ApprovalStatus.PENDING, expiresAt)]
    {
      ghost var s;
      var created;
      created, s, trace := CreateApproval(s0, s1, trace0, id, decisionId, approvalId, expiresAt);
      if created.Err? {
        trace := Fail(s0, s, trace, id);
      } else {
        s, trace := Move(s0, s, trace, RequireApproval, Requested(id, decisionId, approvalId), None, Some(Failing(id)),
                         id, CommandStatus.APPROVAL_REQUIRED, Some(decisionId), Some(approvalId));
      }
    }

    method CreateApproval(ghost s0: State, ghost s1: State, ghost trace0: seq<Event>, id: string, decisionId: string,
                          approvalId: string, expiresAt: int)
      returns (r: Result<(), DbError>, ghost s: State, ghost trace: seq<Event>)
      requires id in repository.commands && decisionId in repository.decisions
      requires Run(s0, trace0) == Some(s1) && s1 == Snapshot(Some(Decided(id, decisionId, REQUIRE_APPROVAL)))
      modifies repository
      ensures repository.runs == old(repository.runs) && repository.steps == old(repository.steps)
      ensures Run(s0, trace) == Some(s)
      ensures s == Snapshot(Some(if r.Ok? then Requested(id, decisionId, approvalId) else Failing(id)))
      ensures r.Ok? <==> approvalId !in old(repository.approvals)
      ensures repository.commands == old(repository.commands) && repository.decisions == old(repository.decisions)
      ensures r.Ok? ==>
                repository.approvals == old(repository.approvals)[approvalId :=
                  ApprovalRow(old(repository.commands)[id].snapshot.runId, id, decisionId, true, ApprovalStatus.PENDING, expiresAt)]
    {
      ghost var before := repository.Contents();
      r := repository.CreateApproval(approvalId, id, decisionId, true, expiresAt);
      s, trace := Record(s0, s1, trace0, Resolve(approvalId, expiresAt), Decided(id, decisionId, REQUIRE_APPROVAL),
                         Op.CreateApproval(approvalId, id, decisionId, true, expiresAt),
                         Some(Requested(id, decisionId, approvalId)), Some(Failing(id)), before, r);
    }

    /** _execute_authorized: running, the executor call, its outcome. */
    method ExecuteAuthorized(ghost s0: State, ghost s1: State, ghost trace0: seq<Event>, id: string, ghost viaApproval: bool,
                             result: ExecutorResult)
      returns (ghost trace: seq<Event>)
      requires id in repository.commands && repository.commands[id].status == CommandStatus.AUTHORIZED
      requires repository.commands[id].snapshot.runId in repository.runs
      requires Run(s0, trace0) == Some(s1) && s1 == Snapshot(Some(Authorized(id, viaApproval)))
      modifies repository, this`calls
      ensures repository.runs == old(repository.runs) && repository.steps == old(repository.steps)
      ensures repository.approvals == old(repository.approvals) && repository.decisions == old(repository.decisions)
      ensures Run(s0, trace) == Some(Snapshot(None))
      ensures repository.commands == old(repository.commands)[id := old(repository.commands)[id].(status := RecordedStatus(result))]
      ensures calls == old(calls) + [id]
    {
      ghost var s;
      s, trace := Move(s0, s1, trace0, Start, Authorized(id, viaApproval), Some(Calling(id, viaApproval)),
                       Fallback(id, viaApproval), id, CommandStatus.RUNNING, None, None);
      s, trace := Call(s0, s, trace, id, viaApproval);
      trace := RecordResult(s0, s, trace, id, viaApproval, result);
    }

    /** The executor call itself; its result is a parameter of the callers. */
    ghost method Call(s0: State, s1: State, trace0: seq<Event>, id: string, viaApproval: bool)
      returns (s: State, trace: seq<Event>)
      requires Run(s0, trace0) == Some(s1) && s1 == Snapshot(Some(Calling(id, viaApproval)))
      modifies this`calls
      ensures Run(s0, trace) == Some(s) && s == Snapshot(Some(Called(id, viaApproval)))
      ensures calls == old(calls) + [id]
    {
      s, trace := Take(s0, s1, trace0, CallExecutor);
      calls := calls + [id];
      assert s.procs == At(Some(Called(id, viaApproval)));
    }

    /** The redacted streams become artifacts, then the command gets its final status. */
    method RecordResult(ghost s0: State, ghost s1: State, ghost trace0: seq<Event>, id: string, ghost viaApproval: bool,
                        result: ExecutorResult)
      returns (ghost trace: seq<Event>)
      requires id in repository.commands && repository.commands[id].status == CommandStatus.RUNNING
      requires repository.commands[id].snapshot.runId in repository.runs
      requires Run(s0, trace0) == Some(s1) && s1 == Snapshot(Some(Called(id, viaApproval)))
      modifies repository
      ensures repository.runs == old(repository.runs) && repository.steps == old(repository.steps)
      ensures repository.approvals == old(repository.approvals) && repository.decisions == old(repository.decisions)
      ensures Run(s0, trace) == Some(Snapshot(None))
      ensures repository.commands == old(repository.commands)[id := old(repository.commands)[id].(status := RecordedStatus(result))]
    {
      ghost var s;
      s, trace := RecordStream(s0, s1, trace0, id, viaApproval, "stdout");
      s, trace := RecordStream(s0, s, trace, id, viaApproval, "stderr");
      FinishedStep(s, pid, result);
      s, trace := Move(s0, s, trace, Finish(RecordedStatus(result)), Called(id, viaApproval), None, Fallback(id, viaApproval),
                       id, RecordedStatus(result), None, None);
    }

    method RecordStream(ghost s0: State, ghost s1: State, ghost trace0: seq<Event>, id: string, ghost viaApproval: bool, kind: string)
      returns (ghost s: State, ghost trace: seq<Event>)
      requires id in repository.commands && repository.commands[id].snapshot.runId in repository.runs
      requires Run(s0, trace0) == Some(s1) && s1 == Snapshot(Some(Called(id, viaApproval)))
      modifies repository
      ensures repository.runs == old(repository.runs) && repository.steps == old(repository.steps)
      ensures repository.approvals == old(repository.approvals) && repository.decisions == old(repository.decisions)
      ensures Run(s0, trace) == Some(s) && s == Snapshot(Some(Called(id, viaApproval)))
      ensures repository.commands == old(repository.commands)
    {
      ghost var before := repository.Contents();
      var runId := repository.commands[id].snapshot.runId;
      StreamStep(s1, pid, kind);
      var created := repository.CreateArtifact(runId, Some(id), kind);
      ArtifactKeepsTables(before, runId, id, kind);
      s, trace := Record(s0, s1, trace0, Action.RecordStream(kind), Called(id, viaApproval), CreateArtifact(runId, Some(id), kind),
                         Some(Called(id, viaApproval)), Fallback(id, viaApproval), before, created);
    }

    /** execute_approved: the command runs exactly when its approval is usable now, and the approval
        is used up; an unusable approval rejects the command. */
    method ExecuteApproved(id: string, now: int, result: ExecutorResult) returns (r: ApprovedOutcome, ghost trace: seq<Event>)
      requires id in repository.commands ==> repository.commands[id].snapshot.runId in repository.runs
      modifies repository, this`calls
      ensures repository.runs == old(repository.runs) && repository.steps == old(repository.steps)
      ensures Run(old(Snapshot(None)), trace) == Some(Snapshot(None))
      ensures r.NotAwaitingApproval? <==>
                !(id in old(repository.commands) && old(repository.commands)[id].status == CommandStatus.APPROVAL_REQUIRED)
      ensures r.RowMissing? ==>
                !(&& old(repository.commands)[id].approvalId.Some?
                  && old(repository.commands)[id].approvalId.value in old(repository.approvals)
                  && old(repository.approvals)[old(repository.commands)[id].approvalId.value].decisionId in old(repository.decisions))
      ensures r.NotAwaitingApproval? || r.RowMissing? ==> repository.Contents() == old(repository.Contents()) && calls == old(calls)
      ensures r.Settled? ==>
                && id in old(repository.commands)
                && (r.executed <==> ApprovalUsable(old(repository.Contents()), old(repository.commands)[id], now))
                && repository.commands == old(repository.commands)[id := old(repository.commands)[id].(
                     status := if r.executed then RecordedStatus(result) else CommandStatus.REJECTED)]
                && (if r.executed then RecordedAs(repository.commands[id].status, result)
                    else repository.commands[id].status == CommandStatus.REJECTED)
                && calls == (if r.executed then old(calls) + [id] else old(calls))
                && repository.decisions == old(repository.decisions)
                && match old(repository.commands)[id].approvalId
                   case None => repository.approvals == old(repository.approvals)
                   case Some(approvalId) =>
                     approvalId in old(repository.approvals) &&
                     UsedOrExpired(old(repository.approvals), repository.approvals, approvalId, now, r.executed)
    {
      ghost var s0 := Snapshot(None);
      trace := [];
      if id !in repository.commands || repository.commands[id].status != CommandStatus.APPROVAL_REQUIRED {
        return NotAwaitingApproval, trace;
      }
      ghost var s;
      s, trace := Take(s0, s0, trace, BeginApproved(id));
      if repository.commands[id].approvalId.None? {
        assert s == Snapshot(Some(Rejecting(id)));
        trace := RejectCommand(s0, s, trace, id);
        return Settled(false), trace;
      }
      var approvalId := repository.commands[id].approvalId.value;
      s, trace := Take(s0, s, trace, CheckApproval(now));
      if approvalId !in repository.approvals || repository.approvals[approvalId].decisionId !in repository.decisions {
        assert s == Snapshot(None);
        return RowMissing, trace;
      }
      assert s == Snapshot(Some(ConsumeCheck(repository.Contents(), id, approvalId, now)));
      var consumed;
      consumed, s, trace := ConsumeApproval(s0, s, trace, id, approvalId, now);
      if !consumed {
        trace := RejectCommand(s0, s, trace, id);
        return Settled(false), trace;
      }
      StatusesFit(Some(ALLOW), result);
      trace := AuthorizeAndExecute(s0, s, trace, id, approvalId, result);
      r := Settled(true);
    }

    method RejectCommand(ghost s0: State, ghost s1: State, ghost trace0: seq<Event>, id: string) returns (ghost trace: seq<Event>)
      requires id in repository.commands && repository.commands[id].status == CommandStatus.APPROVAL_REQUIRED
      requires Run(s0, trace0) == Some(s1) && s1 == Snapshot(Some(Rejecting(id)))
      modifies repository
      ensures repository.runs == old(repository.runs) && repository.steps == old(repository.steps)
      ensures repository.approvals == old(repository.approvals) && repository.decisions == old(repository.decisions)
      ensures Run(s0, trace) == Some(Snapshot(None))
      ensures repository.commands == old(repository.commands)[id := old(repository.commands)[id].(status := CommandStatus.REJECTED)]
    {
      ghost var s;
      s, trace := Move(s0, s1, trace0, Reject, Rejecting(id), None, None, id, CommandStatus.REJECTED, None, None);
    }

    method AuthorizeAndExecute(ghost s0: State, ghost s1: State, ghost trace0: seq<Event>, id: string, approvalId: string,
                               result: ExecutorResult)
      returns (ghost trace: seq<Event>)
      requires id in repository.commands && repository.commands[id].status == CommandStatus.APPROVAL_REQUIRED
      requires repository.commands[id].approvalId == Some(approvalId)
      requires repository.commands[id].snapshot.runId in repository.runs
      requires Run(s0, trace0) == Some(s1) && s1 == Snapshot(Some(Consumed(id, approvalId)))
      modifies repository, this`calls
      ensures repository.runs == old(repository.runs) && repository.steps == old(repository.steps)
      ensures repository.approvals == old(repository.approvals) && repository.decisions == old(repository.decisions)
      ensures Run(s0, trace) == Some(Snapshot(None))
      ensures repository.commands == old(repository.commands)[id := old(repository.commands)[id].(status := RecordedStatus(result))]
      ensures calls == old(calls) + [id]
    {
      ghost var s;
      s, trace := Move(s0, s1, trace0, Authorize, Consumed(id, approvalId), Some(Authorized(id, true)), None,
                       id, CommandStatus.AUTHORIZED, None, Some(approvalId));
      trace := ExecuteAuthorized(s0, s, trace, id, true, result);
    }

    /** consume, after its checks: an overdue approval expires, a usable one is used up. */
    method ConsumeApproval(ghost s0: State, ghost s1: State, ghost trace0: seq<Event>, id: string, approvalId: string, now: int)
      returns (consumed: bool, ghost s: State, ghost trace: seq<Event>)
      requires id in repository.commands && approvalId in repository.approvals
      requires repository.commands[id].approvalId == Some(approvalId)
      requires repository.approvals[approvalId].decisionId in repository.decisions
      requires Run(s0, trace0) == Some(s1)
      requires s1 == Snapshot(Some(ConsumeCheck(repository.Contents(), id, approvalId, now)))
      modifies repository
      ensures repository.runs == old(repository.runs) && repository.steps == old(repository.steps)
      ensures Run(s0, trace) == Some(s)
      ensures s == Snapshot(Some(if consumed then Consumed(id, approvalId) else Rejecting(id)))
      ensures consumed <==> ApprovalUsable(old(repository.Contents()), old(repository.commands)[id], now)
      ensures repository.commands == old(repository.commands) && repository.decisions == old(repository.decisions)
      ensures UsedOrExpired(old(repository.approvals), repository.approvals, approvalId, now, consumed)
    {
      var approval := repository.approvals[approvalId];
      var decision := repository.decisions[approval.decisionId];
      var command := repository.commands[id].snapshot;
      s, trace := s1, trace0;
      var overdue := approval.status in {ApprovalStatus.PENDING, ApprovalStatus.APPROVED} && approval.expiresAt <= now;
      if overdue {
        s, trace := ExpireOverdue(s0, s, trace, id, approvalId);
        return false, s, trace;
      }
      if approval.status != ApprovalStatus.APPROVED || approval.commandId != command.id || approval.runId != command.runId
         || decision.snapshot != command || !decision.intact || !approval.manifestIntact {
        return false, s, trace;
      }
      s, trace := UseUp(s0, s, trace, id, approvalId);
      consumed := true;
    }

    method ExpireOverdue(ghost s0: State, ghost s1: State, ghost trace0: seq<Event>, id: string, approvalId: string)
      returns (ghost s: State, ghost trace: seq<Event>)
      requires approvalId in repository.approvals
      requires repository.approvals[approvalId].status in {ApprovalStatus.PENDING, ApprovalStatus.APPROVED}
      requires Run(s0, trace0) == Some(s1) && s1 == Snapshot(Some(ExpiringApproval(id, approvalId)))
      modifies repository
      ensures repository.runs == old(repository.runs) && repository.steps == old(repository.steps)
      ensures Run(s0, trace) == Some(s) && s == Snapshot(Some(Rejecting(id)))
      ensures repository.commands == old(repository.commands) && repository.decisions == old(repository.decisions)
      ensures repository.approvals == old(repository.approvals)[approvalId :=
                old(repository.approvals)[approvalId].(status := ApprovalStatus.EXPIRED)]
    {
      ghost var before := repository.Contents();
      var expired := repository.ExpireApproval(approvalId);
      s, trace := Record(s0, s1, trace0, ExpireChecked, ExpiringApproval(id, approvalId), Op.ExpireApproval(approvalId),
                         Some(Rejecting(id)), None, before, expired);
    }

    method UseUp(ghost s0: State, ghost s1: State, ghost trace0: seq<Event>, id: string, approvalId: string)
      returns (ghost s: State, ghost trace: seq<Event>)
      requires approvalId in repository.approvals && repository.approvals[approvalId].status == ApprovalStatus.APPROVED
      requires Run(s0, trace0) == Some(s1) && s1 == Snapshot(Some(Consuming(id, approvalId)))
      modifies repository
      ensures repository.runs == old(repository.runs) && repository.steps == old(repository.steps)
      ensures Run(s0, trace) == Some(s) && s == Snapshot(Some(Consumed(id, approvalId)))
      ensures repository.commands == old(repository.commands) && repository.decisions == old(repository.decisions)
      ensures repository.approvals == old(repository.approvals)[approvalId :=
                old(repository.approvals)[approvalId].(status := ApprovalStatus.CONSUMED)]
    {
      ghost var before := repository.Contents();
      var used := repository.ConsumeApproval(approvalId);
      s, trace := Record(s0, s1, trace0, Consume, Consuming(id, approvalId), Op.ConsumeApproval(approvalId),
                         Some(Consumed(id, approvalId)), None, before, used);
    }

    /** recover_orphaned_commands: after a restart overdue approvals expire, every running command
        becomes interrupted, and no other row changes. */
    method RecoverOrphanedCommands(now: int) returns (ghost trace: seq<Event>)
      modifies repository
      ensures repository.runs == old(repository.runs) && repository.steps == old(repository.steps)
      ensures Run(old(Snapshot(None)), trace) == Some(Snapshot(None))
      ensures repository.commands.Keys == old(repository.commands).Keys
      ensures forall id :: id in repository.commands ==>
                repository.commands[id] == AfterRestart(old(repository.commands)[id])
      ensures forall id :: id in repository.commands ==>
                var before := old(repository.commands)[id];
                repository.commands[id] ==
                  if before.status == CommandStatus.RUNNING then before.(status := CommandStatus.INTERRUPTED) else before
      ensures ExpiredOverdue(old(repository.approvals), repository.approvals, now)
      ensures forall id :: id in repository.approvals ==>
                var before := old(repository.approvals)[id];
                repository.approvals[id] ==
                  if before.expiresAt <= now && (before.status == ApprovalStatus.PENDING || before.status == ApprovalStatus.APPROVED)
                  then before.(status := ApprovalStatus.EXPIRED) else before
    {
      ghost var s0 := Snapshot(None);
      ghost var s;
      s, trace := ExpirePending(s0, s0, [], now);
      trace := InterruptRunning(s0, s, trace);
    }

    /** expire_pending: one transaction for each overdue approval. */
    method ExpirePending(ghost s0: State, ghost s1: State, ghost trace0: seq<Event>, now: int)
      returns (ghost s: State, ghost trace: seq<Event>)
      requires Run(s0, trace0) == Some(s1) && s1 == Snapshot(None)
      modifies repository
      ensures repository.runs == old(repository.runs) && repository.steps == old(repository.steps)
      ensures Run(s0, trace) == Some(s) && s == Snapshot(None)
      ensures repository.commands == old(repository.commands)
      ensures ExpiredOverdue(old(repository.approvals), repository.approvals, now)
    {
      s, trace := s1, trace0;
      ghost var before := repository.approvals;
      var overdue := set id | id in repository.approvals && Overdue(repository.approvals[id], now);
      while overdue != {}
        invariant Run(s0, trace) == Some(s) && s == Snapshot(None)
        invariant repository.approvals.Keys == before.Keys
        invariant repository.runs == old(repository.runs) && repository.steps == old(repository.steps)
                  && repository.commands == old(repository.commands)
        invariant forall id :: id in overdue ==> id in before && Overdue(before[id], now)
        invariant forall id :: id in repository.approvals ==>
                    repository.approvals[id] == if id in overdue then before[id] else AfterDeadline(before[id], now)
        decreases |overdue|
      {
        var id :| id in overdue;
        s, trace := ExpireOne(s0, s, trace, id, now);
        overdue := overdue - {id};
      }
    }

    method ExpireOne(ghost s0: State, ghost s1: State, ghost trace0: seq<Event>, id: string, ghost now: int)
      returns (ghost s: State, ghost trace: seq<Event>)
      requires id in repository.approvals && Overdue(repository.approvals[id], now)
      requires Run(s0, trace0) == Some(s1) && s1 == Snapshot(None)
      modifies repository
      ensures repository.runs == old(repository.runs) && repository.steps == old(repository.steps)
      ensures Run(s0, trace) == Some(s) && s == Snapshot(None)
      ensures repository.commands == old(repository.commands)
      ensures repository.approvals == old(repository.approvals)[id := AfterDeadline(old(repository.approvals)[id], now)]
    {
      s, trace := Take(s0, s1, trace0, Ambient(Op.ExpireApproval(id)));
      var r := repository.ExpireApproval(id);
      assert s.procs == map[];
    }

    method InterruptRunning(ghost s0: State, ghost s1: State, ghost trace0: seq<Event>) returns (ghost trace: seq<Event>)
      requires Run(s0, trace0) == Some(s1) && s1 == Snapshot(None)
      modifies repository
      ensures repository.runs == old(repository.runs) && repository.steps == old(repository.steps)
      ensures Run(s0, trace) == Some(Snapshot(None))
      ensures repository.approvals == old(repository.approvals) && repository.commands.Keys == old(repository.commands).Keys
      ensures forall id :: id in repository.commands ==>
                repository.commands[id] == AfterRestart(old(repository.commands)[id])
    {
      ghost var s := s1;
      trace := trace0;
      ghost var before := repository.commands;
      var orphans := set id | id in repository.commands && repository.commands[id].status == CommandStatus.RUNNING;
      while orphans != {}
        invariant Run(s0, trace) == Some(s) && s == Snapshot(None)
        invariant repository.commands.Keys == before.Keys
        invariant repository.runs == old(repository.runs) && repository.steps == old(repository.steps)
                  && repository.approvals == old(repository.approvals)
        invariant forall id :: id in orphans ==> id in before && before[id].status == CommandStatus.RUNNING
        invariant forall id :: id in repository.commands ==>
                    repository.commands[id] == if id in orphans then before[id] else AfterRestart(before[id])
        decreases |orphans|
      {
        var id :| id in orphans;
        s, trace := Interrupt(s0, s, trace, id);
        orphans := orphans - {id};
      }
    }

    method Interrupt(ghost s0: State, ghost s1: State, ghost trace0: seq<Event>, id: string)
      returns (ghost s: State, ghost trace: seq<Event>)
      requires id in repository.commands && repository.commands[id].status == CommandStatus.RUNNING
      requires Run(s0, trace0) == Some(s1) && s1 == Snapshot(None)
      modifies repository
      ensures repository.runs == old(repository.runs) && repository.steps == old(repository.steps)
      ensures Run(s0, trace) == Some(s) && s == Snapshot(None)
      ensures repository.approvals == old(repository.approvals)
      ensures repository.commands == old(repository.commands)[id := AfterRestart(old(repository.commands)[id])]
    {
      s, trace := Take(s0, s1, trace0, Ambient(Transition(id, CommandStatus.INTERRUPTED, None, None)));
      var r := repository.TransitionCommand(id, CommandStatus.INTERRUPTED, None, None);
      assert s.procs == map[];
    }
  }
}
