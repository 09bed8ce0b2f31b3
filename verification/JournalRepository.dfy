/** The runtime database (solana_agent/storage/repositories.py): tables that transactions update
    in place, and an event log that every transaction appends to. */
module JournalRepositories {
  import opened Prelude
  import opened Lifecycle

  /** The fields of a command that a policy decision is about. */
  datatype CommandSnapshot = CommandSnapshot(
    id: string,
    runId: string,
    adapter: string,
    operation: string,
    arguments: string,
    cwd: string,
    timeoutSeconds: int,
    expectedState: Option<string>)

  datatype CommandRow = CommandRow(
    snapshot: CommandSnapshot,
    stepId: string,
    idempotencyKey: string,
    status: CommandStatus,
    decisionId: Option<string>,
    approvalId: Option<string>)

  datatype StepRow = StepRow(definitionHash: string, status: StepStatus, attempt: nat, commandId: Option<string>)

  datatype DecisionRow = DecisionRow(commandId: string, effect: PolicyEffect, snapshot: CommandSnapshot, intact: bool)

  datatype ApprovalRow = ApprovalRow(
    runId: string,
    commandId: string,
    decisionId: string,
    manifestIntact: bool,
    status: ApprovalStatus,
    expiresAt: int)

  datatype EventBody =
    | RunChanged(runStatus: RunStatus)
    | CommandChanged(commandStatus: CommandStatus)
    | StepChanged(stepId: string, stepStatus: StepStatus, attempt: nat)
    | ApprovalChanged(approvalId: string, approvalStatus: ApprovalStatus)
    | PolicyEvaluated(decisionId: string)
    | ArtifactCreated(kind: string)

  datatype EventRow = EventRow(runId: string, commandId: Option<string>, sequence: nat, body: EventBody)

  datatype Db = Db(
    runs: map<string, RunStatus>,
    commands: map<string, CommandRow>,
    steps: map<(string, string), StepRow>,
    decisions: map<string, DecisionRow>,
    approvals: map<string, ApprovalRow>,
    events: seq<EventRow>)

  const EMPTY := Db(map[], map[], map[], map[], map[], [])

  datatype DbError = NotFound | IntegrityError | InvalidTransition | InvalidDecision

  // ---------- events ----------

  /** SELECT COALESCE(MAX(sequence), 0) for a run. */
  function MaxSequence(events: seq<EventRow>, runId: string): nat {
    if events == [] then 0
    else
      var n := |events| - 1;
      var before := MaxSequence(events[..n], runId);
      if events[n].runId == runId && events[n].sequence > before then events[n].sequence else before
  }

  function NewEvent(events: seq<EventRow>, runId: string, commandId: Option<string>, body: EventBody): EventRow {
    EventRow(runId, commandId, MaxSequence(events, runId) + 1, body)
  }

  function Log(db: Db, runId: string, commandId: Option<string>, body: EventBody): Db {
    db.(events := db.events + [NewEvent(db.events, runId, commandId, body)])
  }

  // ---------- transactions ----------

  datatype Op =
    | CreateRun(runId: string)
    | SetRunStatus(runId: string, runStatus: RunStatus)
    | InitializeSteps(runId: string, definitions: seq<(string, string)>)
    | SetStepStatus(runId: string, stepId: string, stepStatus: StepStatus, stepCommand: Option<string>, increment: bool)
    | InsertPlanned(snapshot: CommandSnapshot, step: string, key: string)
    | Transition(commandId: string, target: CommandStatus, decision: Option<string>, approval: Option<string>)
    | CreateDecision(decisionId: string, decisionRow: DecisionRow)
    | CreateApproval(approvalId: string, commandId: string, decisionId: string, manifestIntact: bool, expiresAt: int)
    | DecideApproval(approvalId: string, approve: bool, now: int)
    | ConsumeApproval(approvalId: string)
    | ExpireApproval(approvalId: string)
    | CreateArtifact(artifactRun: string, artifactCommand: Option<string>, kind: string)

  function Coalesce<T>(a: Option<T>, b: Option<T>): Option<T> {
    if a.Some? then a else b
  }

  function AfterCreateRun(db: Db, runId: string): Result<Db, DbError> {
    if runId in db.runs then Err(IntegrityError)
    else Ok(Log(db.(runs := db.runs[runId := RunStatus.CREATED]), runId, None, RunChanged(RunStatus.CREATED)))
  }

  function AfterSetRunStatus(db: Db, runId: string, status: RunStatus): Result<Db, DbError> {
    if runId !in db.runs then Err(NotFound)
    else Ok(Log(db.(runs := db.runs[runId := status]), runId, None, RunChanged(status)))
  }

  /** One insertion of initialize_mission_steps. */
  function AfterPlanStep(db: Db, runId: string, definition: (string, string)): Result<Db, DbError> {
    var key := (runId, definition.0);
    if key in db.steps then Err(IntegrityError)
    else
      var row := StepRow(definition.1, StepStatus.PENDING, 0, None);
      Ok(Log(db.(steps := db.steps[key := row]), runId, None, StepChanged(definition.0, StepStatus.PENDING, 0)))
  }

  function AfterPlanSteps(db: Db, runId: string, definitions: seq<(string, string)>): Result<Db, DbError>
    decreases |definitions|
  {
    if definitions == [] then Ok(db)
    else
      match AfterPlanStep(db, runId, definitions[0])
      case Err(error) => Err(error)
      case Ok(next) => AfterPlanSteps(next, runId, definitions[1..])
  }

  function AfterInitializeSteps(db: Db, runId: string, definitions: seq<(string, string)>): Result<Db, DbError> {
    if runId !in db.runs then Err(NotFound) else AfterPlanSteps(db, runId, definitions)
  }

  function AfterSetStepStatus(db: Db, runId: string, stepId: string, status: StepStatus, commandId: Option<string>,
                              increment: bool): Result<Db, DbError>
  {
    var key := (runId, stepId);
    if key !in db.steps then Err(NotFound)
    else if status !in StepTransitions(db.steps[key].status) then Err(InvalidTransition)
    else if commandId.Some? && commandId.value !in db.commands then Err(IntegrityError)
    else
      var row := db.steps[key];
      var attempt := row.attempt + if increment then 1 else 0;
      var linked := Coalesce(commandId, row.commandId);
      Ok(Log(db.(steps := db.steps[key := row.(status := status, attempt := attempt, commandId := linked)]),
             runId, linked, StepChanged(stepId, status, attempt)))
  }

  predicate KeyTaken(db: Db, runId: string, key: string) {
    exists id <- db.commands :: db.commands[id].snapshot.runId == runId && db.commands[id].idempotencyKey == key
  }

  function AfterInsertPlanned(db: Db, snapshot: CommandSnapshot, stepId: string, key: string): Result<Db, DbError> {
    if snapshot.id in db.commands || snapshot.runId !in db.runs || KeyTaken(db, snapshot.runId, key)
    then Err(IntegrityError)
    else
      var row := CommandRow(snapshot, stepId, key, CommandStatus.PLANNED, None, None);
      Ok(Log(db.(commands := db.commands[snapshot.id := row]), snapshot.runId, Some(snapshot.id),
             CommandChanged(CommandStatus.PLANNED)))
  }

  function AfterTransition(db: Db, commandId: string, target: CommandStatus, decision: Option<string>,
                           approval: Option<string>): Result<Db, DbError>
  {
    if commandId !in db.commands then Err(NotFound)
    else if target !in CommandTransitions(db.commands[commandId].status) then Err(InvalidTransition)
    else
      var row := db.commands[commandId];
      Ok(Log(db.(commands := db.commands[commandId := row.(
                   status := target,
                   decisionId := Coalesce(decision, row.decisionId),
                   approvalId := Coalesce(approval, row.approvalId))]),
             row.snapshot.runId, Some(commandId), CommandChanged(target)))
  }

  function AfterCreateDecision(db: Db, decisionId: string, row: DecisionRow): Result<Db, DbError> {
    if decisionId in db.decisions || row.commandId !in db.commands then Err(IntegrityError)
    else Ok(Log(db.(decisions := db.decisions[decisionId := row]), db.commands[row.commandId].snapshot.runId,
                Some(row.commandId), PolicyEvaluated(decisionId)))
  }

  function AfterCreateApproval(db: Db, approvalId: string, commandId: string, decisionId: string,
                               manifestIntact: bool, expiresAt: int): Result<Db, DbError>
  {
    if commandId !in db.commands then Err(NotFound)
    else if approvalId in db.approvals || decisionId !in db.decisions then Err(IntegrityError)
    else
      var runId := db.commands[commandId].snapshot.runId;
      var row := ApprovalRow(runId, commandId, decisionId, manifestIntact, ApprovalStatus.PENDING, expiresAt);
      Ok(Log(db.(approvals := db.approvals[approvalId := row]), runId, Some(commandId),
             ApprovalChanged(approvalId, ApprovalStatus.PENDING)))
  }

  function WithApprovalStatus(db: Db, approvalId: string, status: ApprovalStatus): Db
    requires approvalId in db.approvals
  {
    var row := db.approvals[approvalId];
    Log(db.(approvals := db.approvals[approvalId := row.(status := status)]), row.runId, Some(row.commandId),
        ApprovalChanged(approvalId, status))
  }

  function AfterDecideApproval(db: Db, approvalId: string, approve: bool, now: int): Result<Db, DbError> {
    if approvalId !in db.approvals then Err(NotFound)
    else if db.approvals[approvalId].status != ApprovalStatus.PENDING || db.approvals[approvalId].expiresAt <= now
    then Err(InvalidDecision)
    else Ok(WithApprovalStatus(db, approvalId, if approve then ApprovalStatus.APPROVED else ApprovalStatus.DENIED))
  }

  function AfterConsumeApproval(db: Db, approvalId: string): Result<Db, DbError> {
    if approvalId !in db.approvals then Err(NotFound)
    else if db.approvals[approvalId].status != ApprovalStatus.APPROVED then Err(InvalidDecision)
    else Ok(WithApprovalStatus(db, approvalId, ApprovalStatus.CONSUMED))
  }

  /** A no-op, without an event, for an approval that is already decided otherwise. */
  function AfterExpireApproval(db: Db, approvalId: string): Result<Db, DbError> {
    if approvalId !in db.approvals then Err(NotFound)
    else if db.approvals[approvalId].status !in {ApprovalStatus.PENDING, ApprovalStatus.APPROVED} then Ok(db)
    else Ok(WithApprovalStatus(db, approvalId, ApprovalStatus.EXPIRED))
  }

  function AfterCreateArtifact(db: Db, runId: string, commandId: Option<string>, kind: string): Result<Db, DbError> {
    if runId !in db.runs || (commandId.Some? && commandId.value !in db.commands) then Err(IntegrityError)
    else Ok(Log(db, runId, commandId, ArtifactCreated(kind)))
  }

  /** One transaction: the new database, or an error that leaves it as it was. */
  function Apply(db: Db, op: Op): Result<Db, DbError> {
    match op
    case CreateRun(runId) => AfterCreateRun(db, runId)
    case SetRunStatus(runId, status) => AfterSetRunStatus(db, runId, status)
    case InitializeSteps(runId, definitions) => AfterInitializeSteps(db, runId, definitions)
    case SetStepStatus(runId, stepId, status, commandId, increment) =>
      AfterSetStepStatus(db, runId, stepId, status, commandId, increment)
    case InsertPlanned(snapshot, stepId, key) => AfterInsertPlanned(db, snapshot, stepId, key)
    case Transition(commandId, target, decision, approval) => AfterTransition(db, commandId, target, decision, approval)
    case CreateDecision(decisionId, row) => AfterCreateDecision(db, decisionId, row)
    case CreateApproval(approvalId, commandId, decisionId, intact, expiresAt) =>
      AfterCreateApproval(db, approvalId, commandId, decisionId, intact, expiresAt)
    case DecideApproval(approvalId, approve, now) => AfterDecideApproval(db, approvalId, approve, now)
    case ConsumeApproval(approvalId) => AfterConsumeApproval(db, approvalId)
    case ExpireApproval(approvalId) => AfterExpireApproval(db, approvalId)
    case CreateArtifact(runId, commandId, kind) => AfterCreateArtifact(db, runId, commandId, kind)
  }

  function ApplyAll(db: Db, ops: seq<Op>): Db
    decreases |ops|
  {
    if ops == [] then db
    else
      match Apply(db, ops[0])
      case Err(_) => ApplyAll(db, ops[1..])
      case Ok(next) => ApplyAll(next, ops[1..])
  }

  /** What a transaction does: its new contents, or an error and no change. */
  ghost predicate Did(before: Db, after: Db, op: Op, r: Result<(), DbError>) {
    match Apply(before, op)
    case Ok(db) => r.Ok? && after == db
    case Err(error) => r == Err(error) && after == before
  }

  // ---------- the repository ----------

  /** Exactly one event was appended. */
  ghost predicate Appends(before: seq<EventRow>, after: seq<EventRow>, runId: string, commandId: Option<string>, body: EventBody) {
    && |after| == |before| + 1 && after[..|before|] == before
    && after[|before|].runId == runId && after[|before|].commandId == commandId && after[|before|].body == body
  }

  /** One approval got the status, with its event, and nothing else changed. */
  ghost predicate BecomesOnly(before: Db, after: Db, approvalId: string, status: ApprovalStatus)
    requires approvalId in before.approvals
  {
    var row := before.approvals[approvalId];
    && after.approvals == before.approvals[approvalId := row.(status := status)]
    && after.runs == before.runs && after.commands == before.commands && after.steps == before.steps
    && after.decisions == before.decisions
    && Appends(before.events, after.events, row.runId, Some(row.commandId), ApprovalChanged(approvalId, status))
  }

  /** The definitions name different steps, none of which the run has. */
  ghost predicate Plannable(steps: map<(string, string), StepRow>, runId: string, definitions: seq<(string, string)>) {
    && (forall i :: 0 <= i < |definitions| ==> (runId, definitions[i].0) !in steps)
    && (forall i, j :: 0 <= i < j < |definitions| ==> definitions[i].0 != definitions[j].0)
  }

  /** Every defined step is pending, never attempted; the other steps stay. */
  ghost predicate Plans(before: map<(string, string), StepRow>, after: map<(string, string), StepRow>, runId: string,
                        definitions: seq<(string, string)>)
  {
    && (forall i :: 0 <= i < |definitions| ==>
          && (runId, definitions[i].0) in after
          && after[(runId, definitions[i].0)] == StepRow(definitions[i].1, StepStatus.PENDING, 0, None))
    && (forall key :: key in before ==> key in after && after[key] == before[key])
    && (forall key :: key in after && key !in before ==> exists i :: 0 <= i < |definitions| && key == (runId, definitions[i].0))
  }

  lemma PlansOneMore(before: map<(string, string), StepRow>, planned: map<(string, string), StepRow>, runId: string,
                     definitions: seq<(string, string)>, n: nat)
    requires n < |definitions| && (runId, definitions[n].0) !in planned
    requires Plannable(before, runId, definitions[..n]) && Plans(before, planned, runId, definitions[..n])
    ensures Plannable(before, runId, definitions[..n + 1])
    ensures Plans(before, planned[(runId, definitions[n].0) := StepRow(definitions[n].1, StepStatus.PENDING, 0, None)], runId,
                  definitions[..n + 1])
  {
    var after := planned[(runId, definitions[n].0) := StepRow(definitions[n].1, StepStatus.PENDING, 0, None)];
    var more := definitions[..n + 1];
    assert forall i :: 0 <= i < n ==> more[i] == definitions[..n][i];
    forall key | key in after && key !in before ensures exists i :: 0 <= i < |more| && key == (runId, more[i].0) {
      if key != (runId, definitions[n].0) {
        var i :| 0 <= i < n && key == (runId, definitions[..n][i].0);
        assert key == (runId, more[i].0);
      } else {
        assert key == (runId, more[n].0);
      }
    }
  }

  /** A definition whose step is there makes the whole list impossible to plan. */
  lemma PlannedBefore(before: map<(string, string), StepRow>, planned: map<(string, string), StepRow>, runId: string,
                      definitions: seq<(string, string)>, n: nat)
    requires n < |definitions| && (runId, definitions[n].0) in planned && Plans(before, planned, runId, definitions[..n])
    ensures !Plannable(before, runId, definitions)
  {
    if (runId, definitions[n].0) !in before {
      var i :| 0 <= i < n && (runId, definitions[n].0) == (runId, definitions[..n][i].0);
      assert definitions[i].0 == definitions[n].0;
    }
  }

  class JournalRepository {
    var runs: map<string, RunStatus>
    var commands: map<string, CommandRow>
    var steps: map<(string, string), StepRow>
    var decisions: map<string, DecisionRow>
    var approvals: map<string, ApprovalRow>
    var events: seq<EventRow>

    ghost function Contents(): Db
      reads this
    {
      Db(runs, commands, steps, decisions, approvals, events)
    }

    constructor ()
      ensures Contents() == EMPTY
    {
      runs, commands, steps, decisions, approvals, events := map[], map[], map[], map[], map[], [];
    }

    method AppendEvent(runId: string, commandId: Option<string>, body: EventBody)
      modifies this`events
      ensures Contents() == Log(old(Contents()), runId, commandId, body)
    {
      var sequence := MaxSequence(events, runId) + 1;
      events := events + [EventRow(runId, commandId, sequence, body)];
    }

    method CreateRun(runId: string) returns (r: Result<(), DbError>)
      modifies this
      ensures Did(old(Contents()), Contents(), Op.CreateRun(runId), r)
      ensures r.Ok? <==> runId !in old(runs)
      ensures r.Err? ==> r == Err(IntegrityError) && Contents() == old(Contents())
      ensures r.Ok? ==>
                && runs == old(runs)[runId := RunStatus.CREATED]
                && commands == old(commands) && steps == old(steps) && decisions == old(decisions) && approvals == old(approvals)
                && Appends(old(events), events, runId, None, RunChanged(RunStatus.CREATED))
    {
      if runId in runs {
        return Err(IntegrityError);
      }
      runs := runs[runId := RunStatus.CREATED];
      AppendEvent(runId, None, RunChanged(RunStatus.CREATED));
      r := Ok(());
    }

    method SetRunStatus(runId: string, status: RunStatus) returns (r: Result<(), DbError>)
      modifies this
      ensures Did(old(Contents()), Contents(), Op.SetRunStatus(runId, status), r)
      ensures r.Ok? <==> runId in old(runs)
      ensures r.Err? ==> r == Err(NotFound) && Contents() == old(Contents())
      ensures r.Ok? ==>
                && runs == old(runs)[runId := status]
                && commands == old(commands) && steps == old(steps) && decisions == old(decisions) && approvals == old(approvals)
                && Appends(old(events), events, runId, None, RunChanged(status))
    {
      if runId !in runs {
        return Err(NotFound);
      }
      runs := runs[runId := status];
      AppendEvent(runId, None, RunChanged(status));
      r := Ok(());
    }

    /** One transaction over all steps: a duplicate rolls everything back. */
    method InitializeMissionSteps(runId: string, definitions: seq<(string, string)>) returns (r: Result<(), DbError>)
      modifies this
      ensures Did(old(Contents()), Contents(), Op.InitializeSteps(runId, definitions), r)
      ensures r.Ok? <==> runId in old(runs) && Plannable(old(steps), runId, definitions)
      ensures r.Err? ==> Contents() == old(Contents())
      ensures r.Ok? ==>
                && Plans(old(steps), steps, runId, definitions)
                && runs == old(runs) && commands == old(commands) && decisions == old(decisions) && approvals == old(approvals)
                && |events| == |old(events)| + |definitions| && old(events) <= events
    {
      if runId !in runs {
        return Err(NotFound);
      }
      var stepsBefore, eventsBefore := steps, events;
      for n := 0 to |definitions|
        invariant AfterPlanSteps(old(Contents()), runId, definitions) == AfterPlanSteps(Contents(), runId, definitions[n..])
        invariant runs == old(runs) && commands == old(commands) && decisions == old(decisions) && approvals == old(approvals)
        invariant Plannable(old(steps), runId, definitions[..n]) && Plans(old(steps), steps, runId, definitions[..n])
        invariant |events| == |old(events)| + n && old(events) <= events
      {
        assert definitions[n..][1..] == definitions[n + 1..];
        var key := (runId, definitions[n].0);
        if key in steps {
          PlannedBefore(old(steps), steps, runId, definitions, n);
          steps, events := stepsBefore, eventsBefore;
          return Err(IntegrityError);
        }
        ghost var planned := steps;
        steps := steps[key := StepRow(definitions[n].1, StepStatus.PENDING, 0, None)];
        PlansOneMore(old(steps), planned, runId, definitions, n);
        AppendEvent(runId, None, StepChanged(definitions[n].0, StepStatus.PENDING, 0));
      }
      assert definitions[..|definitions|] == definitions;
      r := Ok(());
    }

    method SetMissionStepStatus(runId: string, stepId: string, status: StepStatus, commandId: Option<string>, increment: bool)
      returns (r: Result<(), DbError>)
      modifies this
      ensures Did(old(Contents()), Contents(), Op.SetStepStatus(runId, stepId, status, commandId, increment), r)
      ensures r.Ok? <==>
                && (runId, stepId) in old(steps) && status in StepTransitions(old(steps)[(runId, stepId)].status)
                && (commandId.Some? ==> commandId.value in commands)
      ensures r.Err? ==> Contents() == old(Contents())
      ensures r == Err(NotFound) <==> (runId, stepId) !in old(steps)
      ensures r == Err(InvalidTransition) <==>
                (runId, stepId) in old(steps) && status !in StepTransitions(old(steps)[(runId, stepId)].status)
      ensures r.Ok? ==>
                var row := old(steps)[(runId, stepId)];
                var linked := if commandId.Some? then commandId else row.commandId;
                && steps == old(steps)[(runId, stepId) :=
                     StepRow(row.definitionHash, status, if increment then row.attempt + 1 else row.attempt, linked)]
                && runs == old(runs) && commands == old(commands) && decisions == old(decisions) && approvals == old(approvals)
                && Appends(old(events), events, runId, linked,
                           StepChanged(stepId, status, if increment then row.attempt + 1 else row.attempt))
    {
      var key := (runId, stepId);
      if key !in steps {
        return Err(NotFound);
      }
      var row := steps[key];
      if status !in StepTransitions(row.status) {
        return Err(InvalidTransition);
      }
      if commandId.Some? && commandId.value !in commands {
        return Err(IntegrityError);
      }
      var attempt := row.attempt + if increment then 1 else 0;
      var linked := if commandId.Some? then commandId else row.commandId;
      steps := steps[key := StepRow(row.definitionHash, status, attempt, linked)];
      AppendEvent(runId, linked, StepChanged(stepId, status, attempt));
      r := Ok(());
    }

    method InsertPlannedCommand(snapshot: CommandSnapshot, stepId: string, key: string)
      returns (r: Result<(), DbError>)
      modifies this
      ensures Did(old(Contents()), Contents(), Op.InsertPlanned(snapshot, stepId, key), r)
      ensures r.Ok? <==>
                && snapshot.runId in old(runs) && snapshot.id !in old(commands)
                && forall id :: id in old(commands) ==>
                     !(old(commands)[id].snapshot.runId == snapshot.runId && old(commands)[id].idempotencyKey == key)
      ensures r.Err? ==> r == Err(IntegrityError) && Contents() == old(Contents())
      ensures r.Ok? ==>
                && commands == old(commands)[snapshot.id := CommandRow(snapshot, stepId, key, CommandStatus.PLANNED, None, None)]
                && runs == old(runs) && steps == old(steps) && decisions == old(decisions) && approvals == old(approvals)
                && Appends(old(events), events, snapshot.runId, Some(snapshot.id), CommandChanged(CommandStatus.PLANNED))
    {
      if snapshot.id in commands || snapshot.runId !in runs
         || exists id <- commands :: commands[id].snapshot.runId == snapshot.runId && commands[id].idempotencyKey == key {
        return Err(IntegrityError);
      }
      commands := commands[snapshot.id := CommandRow(snapshot, stepId, key, CommandStatus.PLANNED, None, None)];
      AppendEvent(snapshot.runId, Some(snapshot.id), CommandChanged(CommandStatus.PLANNED));
      r := Ok(());
    }

    method TransitionCommand(commandId: string, target: CommandStatus, decision: Option<string>, approval: Option<string>)
      returns (r: Result<(), DbError>)
      modifies this
      ensures Did(old(Contents()), Contents(), Op.Transition(commandId, target, decision, approval), r)
      ensures r.Ok? <==> commandId in old(commands) && target in CommandTransitions(old(commands)[commandId].status)
      ensures r.Err? ==> Contents() == old(Contents())
      ensures r.Err? ==> r.error == if commandId in old(commands) then InvalidTransition else NotFound
      ensures r.Ok? ==>
                var row := old(commands)[commandId];
                && commands == old(commands)[commandId := CommandRow(
                     row.snapshot, row.stepId, row.idempotencyKey, target,
                     if decision.Some? then decision else row.decisionId, if approval.Some? then approval else row.approvalId)]
                && runs == old(runs) && steps == old(steps) && decisions == old(decisions) && approvals == old(approvals)
                && Appends(old(events), events, row.snapshot.runId, Some(commandId), CommandChanged(target))
    {
      if commandId !in commands {
        return Err(NotFound);
      }
      var row := commands[commandId];
      if target !in CommandTransitions(row.status) {
        return Err(InvalidTransition);
      }
      commands := commands[commandId := row.(
        status := target,
        decisionId := if decision.Some? then decision else row.decisionId,
        approvalId := if approval.Some? then approval else row.approvalId)];
      AppendEvent(row.snapshot.runId, Some(commandId), CommandChanged(target));
      r := Ok(());
    }

    method CreatePolicyDecision(decisionId: string, row: DecisionRow) returns (r: Result<(), DbError>)
      modifies this
      ensures Did(old(Contents()), Contents(), Op.CreateDecision(decisionId, row), r)
      ensures r.Ok? <==> decisionId !in old(decisions) && row.commandId in old(commands)
      ensures r.Err? ==> r == Err(IntegrityError) && Contents() == old(Contents())
      ensures r.Ok? ==>
                && decisions == old(decisions)[decisionId := row]
                && runs == old(runs) && steps == old(steps) && commands == old(commands) && approvals == old(approvals)
                && Appends(old(events), events, commands[row.commandId].snapshot.runId, Some(row.commandId), PolicyEvaluated(decisionId))
    {
      if decisionId in decisions || row.commandId !in commands {
        return Err(IntegrityError);
      }
      decisions := decisions[decisionId := row];
      AppendEvent(commands[row.commandId].snapshot.runId, Some(row.commandId), PolicyEvaluated(decisionId));
      r := Ok(());
    }

    method CreateApproval(approvalId: string, commandId: string, decisionId: string, manifestIntact: bool, expiresAt: int)
      returns (r: Result<(), DbError>)
      modifies this
      ensures Did(old(Contents()), Contents(), Op.CreateApproval(approvalId, commandId, decisionId, manifestIntact, expiresAt), r)
      ensures r.Ok? <==> commandId in old(commands) && approvalId !in old(approvals) && decisionId in old(decisions)
      ensures r.Err? ==> Contents() == old(Contents())
      ensures r.Ok? ==>
                && approvals == old(approvals)[approvalId := ApprovalRow(
                     commands[commandId].snapshot.runId, commandId, decisionId, manifestIntact, ApprovalStatus.PENDING, expiresAt)]
                && runs == old(runs) && steps == old(steps) && commands == old(commands) && decisions == old(decisions)
                && Appends(old(events), events, commands[commandId].snapshot.runId, Some(commandId),
                           ApprovalChanged(approvalId, ApprovalStatus.PENDING))
    {
      if commandId !in commands {
        return Err(NotFound);
      }
      if approvalId in approvals || decisionId !in decisions {
        return Err(IntegrityError);
      }
      var runId := commands[commandId].snapshot.runId;
      approvals := approvals[approvalId :=
        ApprovalRow(runId, commandId, decisionId, manifestIntact, ApprovalStatus.PENDING, expiresAt)];
      AppendEvent(runId, Some(commandId), ApprovalChanged(approvalId, ApprovalStatus.PENDING));
      r := Ok(());
    }

    method SetApprovalStatus(approvalId: string, status: ApprovalStatus)
      requires approvalId in approvals
      modifies this
      ensures Contents() == WithApprovalStatus(old(Contents()), approvalId, status)
      ensures BecomesOnly(old(Contents()), Contents(), approvalId, status)
    {
      var row := approvals[approvalId];
      approvals := approvals[approvalId := row.(status := status)];
      AppendEvent(row.runId, Some(row.commandId), ApprovalChanged(approvalId, status));
    }

    method DecideApproval(approvalId: string, approve: bool, now: int) returns (r: Result<(), DbError>)
      modifies this
      ensures Did(old(Contents()), Contents(), Op.DecideApproval(approvalId, approve, now), r)
      ensures r.Ok? <==>
                && approvalId in old(approvals) && old(approvals)[approvalId].status == ApprovalStatus.PENDING
                && now < old(approvals)[approvalId].expiresAt
      ensures r.Err? ==> Contents() == old(Contents())
      ensures r.Err? ==> r.error == if approvalId in old(approvals) then InvalidDecision else NotFound
      ensures r.Ok? && approve ==> BecomesOnly(old(Contents()), Contents(), approvalId, ApprovalStatus.APPROVED)
      ensures r.Ok? && !approve ==> BecomesOnly(old(Contents()), Contents(), approvalId, ApprovalStatus.DENIED)
    {
      if approvalId !in approvals {
        return Err(NotFound);
      }
      if approvals[approvalId].status != ApprovalStatus.PENDING || approvals[approvalId].expiresAt <= now {
        return Err(InvalidDecision);
      }
      SetApprovalStatus(approvalId, if approve then ApprovalStatus.APPROVED else ApprovalStatus.DENIED);
      r := Ok(());
    }

    method ConsumeApproval(approvalId: string) returns (r: Result<(), DbError>)
      modifies this
      ensures Did(old(Contents()), Contents(), Op.ConsumeApproval(approvalId), r)
      ensures r.Ok? <==> approvalId in old(approvals) && old(approvals)[approvalId].status == ApprovalStatus.APPROVED
      ensures r.Err? ==> Contents() == old(Contents())
      ensures r.Err? ==> r.error == if approvalId in old(approvals) then InvalidDecision else NotFound
      ensures r.Ok? ==> BecomesOnly(old(Contents()), Contents(), approvalId, ApprovalStatus.CONSUMED)
    {
      if approvalId !in approvals {
        return Err(NotFound);
      }
      if approvals[approvalId].status != ApprovalStatus.APPROVED {
        return Err(InvalidDecision);
      }
      SetApprovalStatus(approvalId, ApprovalStatus.CONSUMED);
      r := Ok(());
    }

    method ExpireApproval(approvalId: string) returns (r: Result<(), DbError>)
      modifies this
      ensures Did(old(Contents()), Contents(), Op.ExpireApproval(approvalId), r)
      ensures r.Ok? <==> approvalId in old(approvals)
      ensures r.Err? ==> r == Err(NotFound) && Contents() == old(Contents())
      ensures r.Ok? ==>
                if old(approvals)[approvalId].status == ApprovalStatus.PENDING || old(approvals)[approvalId].status == ApprovalStatus.APPROVED
                then BecomesOnly(old(Contents()), Contents(), approvalId, ApprovalStatus.EXPIRED)
                else Contents() == old(Contents())
    {
      if approvalId !in approvals {
        return Err(NotFound);
      }
      if approvals[approvalId].status in {ApprovalStatus.PENDING, ApprovalStatus.APPROVED} {
        SetApprovalStatus(approvalId, ApprovalStatus.EXPIRED);
      }
      r := Ok(());
    }

    method CreateArtifact(runId: string, commandId: Option<string>, kind: string) returns (r: Result<(), DbError>)
      modifies this
      ensures Did(old(Contents()), Contents(), Op.CreateArtifact(runId, commandId, kind), r)
      ensures r.Ok? <==> runId in old(runs) && (commandId.Some? ==> commandId.value in old(commands))
      ensures r.Err? ==> r == Err(IntegrityError) && Contents() == old(Contents())
      ensures r.Ok? ==>
                && runs == old(runs) && commands == old(commands) && steps == old(steps) && decisions == old(decisions)
                && approvals == old(approvals) && Appends(old(events), events, runId, commandId, ArtifactCreated(kind))
    {
      if runId !in runs || (commandId.Some? && commandId.value !in commands) {
        return Err(IntegrityError);
      }
      AppendEvent(runId, commandId, ArtifactCreated(kind));
      r := Ok(());
    }
  }
}
