/** A mission run as the tables of the repository show it, and what each transaction does to that
    picture. */
module MissionTables {
  import opened Prelude
  import opened Lifecycle
  import opened JournalRepositories
  import opened CommandAuthorization
  import opened MissionGraph
  import opened MissionRuns

  // ---------- the picture ----------

  ghost predicate ShowsStep(db: Db, runId: string, row: StepRow, step: MissionStep) {
    && step.status == row.status && step.attempt == row.attempt
    && match row.commandId
       case None => step.command.None?
       case Some(id) =>
         id in db.commands && db.commands[id].snapshot.runId == runId && step.command == Some(db.commands[id].idempotencyKey)
  }

  ghost predicate ShowsSteps(db: Db, runId: string, steps: map<string, MissionStep>) {
    && (forall id :: id in steps <==> (runId, id) in db.steps)
    && (forall id :: id in steps ==> ShowsStep(db, runId, db.steps[(runId, id)], steps[id]))
  }

  ghost predicate ShowsCommand(row: CommandRow, commands: map<string, MissionCommand>) {
    && row.idempotencyKey in commands
    && commands[row.idempotencyKey].stepId == row.stepId && commands[row.idempotencyKey].status == row.status
    && (commands[row.idempotencyKey].hasApproval <==> row.approvalId.Some?)
  }

  ghost predicate ShowsCommands(db: Db, runId: string, commands: map<string, MissionCommand>) {
    && (forall id :: id in db.commands && db.commands[id].snapshot.runId == runId ==> ShowsCommand(db.commands[id], commands))
    && (forall key :: key in commands ==> KeyTaken(db, runId, key))
  }

  /** The keys of the executor calls for the commands of a run, in order. */
  ghost function RunCalls(commands: map<string, CommandRow>, calls: seq<string>, runId: string): seq<string> {
    if calls == [] then []
    else
      var id := calls[|calls| - 1];
      RunCalls(commands, calls[..|calls| - 1], runId) +
      if id in commands && commands[id].snapshot.runId == runId then [commands[id].idempotencyKey] else []
  }

  /** The rows of the run are those of the picture; calls lists the executor calls of all runs. */
  ghost predicate Shows(db: Db, calls: seq<string>, runId: string, run: MissionRun) {
    && runId in db.runs && run.status == db.runs[runId]
    && ShowsSteps(db, runId, run.steps) && ShowsCommands(db, runId, run.commands)
    && run.calls == RunCalls(db.commands, calls, runId)
    && forall i :: 0 <= i < |calls| ==> calls[i] in db.commands
  }

  // ---------- step rows ----------

  function KeyOf(db: Db, commandId: Option<string>): Option<string>
    requires commandId.Some? ==> commandId.value in db.commands
  {
    if commandId.Some? then Some(db.commands[commandId.value].idempotencyKey) else None
  }

  /** set_mission_step_status is refused exactly when the picture's transition is, and otherwise
      changes the picture in the same way. */
  lemma SetStepIsShown(db: Db, calls: seq<string>, runId: string, run: MissionRun, id: string, status: StepStatus,
                       commandId: Option<string>, increment: bool, done: Signal)
    requires Shows(db, calls, runId, run) && id in run.steps
    requires commandId.Some? ==> commandId.value in db.commands && db.commands[commandId.value].snapshot.runId == runId
    ensures var r := AfterSetStepStatus(db, runId, id, status, commandId, increment);
            var p := SetStep(run, id, status, KeyOf(db, commandId), increment, done);
            && (r.Ok? <==> status in StepTransitions(run.steps[id].status))
            && Shows(if r.Ok? then r.value else db, calls, runId, p.run)
            && (p.signal == if r.Ok? then done else Stop(TransitionRejected))
  {
    assert ShowsStep(db, runId, db.steps[(runId, id)], run.steps[id]);
    var r := AfterSetStepStatus(db, runId, id, status, commandId, increment);
    if r.Ok? {
      StepRowsShown(db, r.value, runId, run.steps, id, UpdatedStep(run.steps[id], status, KeyOf(db, commandId), increment));
      TakenKeysStay(db, r.value, runId, run.commands);
    }
  }

  lemma StepRowsShown(db: Db, db': Db, runId: string, steps: map<string, MissionStep>, id: string, step: MissionStep)
    requires ShowsSteps(db, runId, steps) && (runId, id) in db'.steps && db'.commands == db.commands
    requires db'.steps == db.steps[(runId, id) := db'.steps[(runId, id)]]
    requires ShowsStep(db', runId, db'.steps[(runId, id)], step)
    ensures ShowsSteps(db', runId, steps[id := step])
  {
    var steps' := steps[id := step];
    forall x ensures x in steps' <==> (runId, x) in db'.steps {
    }
    forall x | x in steps' ensures ShowsStep(db', runId, db'.steps[(runId, x)], steps'[x]) {
      if x != id { assert ShowsStep(db, runId, db.steps[(runId, x)], steps[x]); }
    }
  }

  lemma TakenKeysStay(db: Db, db': Db, runId: string, commands: map<string, MissionCommand>)
    requires ShowsCommands(db, runId, commands) && db'.commands == db.commands
    ensures ShowsCommands(db', runId, commands)
  {
    forall key | key in commands ensures KeyTaken(db', runId, key) { assert KeyTaken(db, runId, key); }
  }

  // ---------- command rows ----------

  ghost predicate SameOrigin(a: CommandRow, b: CommandRow) {
    b.snapshot.runId == a.snapshot.runId && b.idempotencyKey == a.idempotencyKey
  }

  /** Commands stay, with their run and key. */
  ghost predicate CommandsKept(before: map<string, CommandRow>, after: map<string, CommandRow>) {
    forall id :: id in before ==> id in after && SameOrigin(before[id], after[id])
  }

  lemma {:induction false} RunCallsStay(before: map<string, CommandRow>, after: map<string, CommandRow>, calls: seq<string>, runId: string)
    requires CommandsKept(before, after) && forall i :: 0 <= i < |calls| ==> calls[i] in before
    ensures RunCalls(after, calls, runId) == RunCalls(before, calls, runId)
    decreases |calls|
  {
    if calls != [] {
      RunCallsStay(before, after, calls[..|calls| - 1], runId);
      assert SameOrigin(before[calls[|calls| - 1]], after[calls[|calls| - 1]]);
    }
  }

  lemma StepRowsStay(db: Db, db': Db, runId: string, steps: map<string, MissionStep>)
    requires ShowsSteps(db, runId, steps) && CommandsKept(db.commands, db'.commands) && db'.steps == db.steps
    ensures ShowsSteps(db', runId, steps)
  {
    forall id | id in steps ensures ShowsStep(db', runId, db'.steps[(runId, id)], steps[id]) {
      var row := db.steps[(runId, id)];
      assert ShowsStep(db, runId, row, steps[id]);
      assert row.commandId.Some? ==> SameOrigin(db.commands[row.commandId.value], db'.commands[row.commandId.value]);
    }
  }

  /** One command of the run is new or changes its status and approval. */
  ghost predicate OneCommandOf(db: Db, db': Db, runId: string, id: string) {
    && id in db'.commands && db'.commands[id].snapshot.runId == runId && db'.commands == db.commands[id := db'.commands[id]]
    && (id in db.commands ==> SameOrigin(db.commands[id], db'.commands[id]) && db'.commands[id].stepId == db.commands[id].stepId)
    && db'.steps == db.steps && db'.runs == db.runs && KeysUnique(db')
  }

  /** The picture of a command row; the attempt is in its key only. */
  ghost function Pictured(row: CommandRow, attempt: nat): MissionCommand {
    MissionCommand(row.stepId, attempt, row.status, row.approvalId.Some?)
  }

  lemma OneCommandShown(db: Db, db': Db, runId: string, commands: map<string, MissionCommand>, id: string, attempt: nat)
    requires ShowsCommands(db, runId, commands) && OneCommandOf(db, db', runId, id)
    ensures ShowsCommands(db', runId, commands[db'.commands[id].idempotencyKey := Pictured(db'.commands[id], attempt)])
  {
    var key := db'.commands[id].idempotencyKey;
    var commands' := commands[key := Pictured(db'.commands[id], attempt)];
    forall x | x in db'.commands && db'.commands[x].snapshot.runId == runId ensures ShowsCommand(db'.commands[x], commands') {
      if x != id {
        assert !SameKey(db'.commands[x], db'.commands[id]);
        assert ShowsCommand(db.commands[x], commands);
      }
    }
    forall k | k in commands' ensures KeyTaken(db', runId, k) {
      if k == key {
        assert db'.commands[id].snapshot.runId == runId && db'.commands[id].idempotencyKey == k;
      } else {
        assert KeyTaken(db, runId, k);
        var x :| x in db.commands && db.commands[x].snapshot.runId == runId && db.commands[x].idempotencyKey == k;
        assert x in db'.commands && db'.commands[x].idempotencyKey == k;
      }
    }
  }

  lemma CommandRowIsShown(db: Db, db': Db, calls: seq<string>, runId: string, run: MissionRun, id: string, attempt: nat)
    requires Shows(db, calls, runId, run) && OneCommandOf(db, db', runId, id)
    ensures Shows(db', calls, runId, CommandAt(run, db'.commands[id].idempotencyKey, Pictured(db'.commands[id], attempt), false))
  {
    assert CommandsKept(db.commands, db'.commands);
    OneCommandShown(db, db', runId, run.commands, id, attempt);
    StepRowsStay(db, db', runId, run.steps);
    RunCallsStay(db.commands, db'.commands, calls, runId);
  }

  lemma CallIsShown(db: Db, calls: seq<string>, runId: string, run: MissionRun, id: string)
    requires Shows(db, calls, runId, run) && id in db.commands && db.commands[id].snapshot.runId == runId
    ensures Shows(db, calls + [id], runId, run.(calls := run.calls + [db.commands[id].idempotencyKey]))
  {
    assert (calls + [id])[..|calls|] == calls;
  }

  /** A command that the journal created, executed or only began: the picture changes by that
      command, and by its call if there was one. */
  lemma CommandIsShown(db: Db, db': Db, calls: seq<string>, runId: string, run: MissionRun, id: string, attempt: nat, called: bool)
    requires Shows(db, calls, runId, run) && OneCommandOf(db, db', runId, id)
    ensures Shows(db', if called then calls + [id] else calls, runId,
                  CommandAt(run, db'.commands[id].idempotencyKey, Pictured(db'.commands[id], attempt), called))
  {
    CommandRowIsShown(db, db', calls, runId, run, id, attempt);
    if called {
      CallIsShown(db', calls, runId, CommandAt(run, db'.commands[id].idempotencyKey, Pictured(db'.commands[id], attempt), false), id);
    }
  }

  /** The journal knows a key exactly when the picture does. */
  lemma DuplicateIffPictured(db: Db, calls: seq<string>, runId: string, run: MissionRun, key: string)
    requires Shows(db, calls, runId, run)
    ensures KeyTaken(db, runId, key) <==> key in run.commands
  {
    if KeyTaken(db, runId, key) {
      var id :| id in db.commands && db.commands[id].snapshot.runId == runId && db.commands[id].idempotencyKey == key;
      assert ShowsCommand(db.commands[id], run.commands);
    }
  }

  // ---------- restarts and run rows ----------

  lemma RunStatusIsShown(db: Db, calls: seq<string>, runId: string, run: MissionRun, status: RunStatus)
    requires Shows(db, calls, runId, run)
    ensures AfterSetRunStatus(db, runId, status).Ok?
    ensures Shows(AfterSetRunStatus(db, runId, status).value, calls, runId, run.(status := status))
  {
    var db' := AfterSetRunStatus(db, runId, status).value;
    StepRowsStay(db, db', runId, run.steps);
    TakenKeysStay(db, db', runId, run.commands);
  }

  /** Interrupting the running commands of all runs interrupts those of the picture. */
  ghost predicate Restarted(db: Db, db': Db) {
    && db'.commands.Keys == db.commands.Keys && db'.steps == db.steps && db'.runs == db.runs
    && forall id :: id in db.commands ==> RowRestarted(db.commands[id], db'.commands[id])
  }

  ghost predicate RowRestarted(a: CommandRow, b: CommandRow) {
    b == if a.status == CommandStatus.RUNNING then a.(status := CommandStatus.INTERRUPTED) else a
  }

  lemma RestartIsShown(db: Db, db': Db, calls: seq<string>, runId: string, run: MissionRun)
    requires Shows(db, calls, runId, run) && Restarted(db, db')
    ensures Shows(db', calls, runId, run.(commands := Recovered(run).commands))
  {
    forall id | id in db.commands ensures SameOrigin(db.commands[id], db'.commands[id]) {
      assert RowRestarted(db.commands[id], db'.commands[id]);
    }
    StepRowsStay(db, db', runId, run.steps);
    RunCallsStay(db.commands, db'.commands, calls, runId);
    RestartedCommandsShown(db, db', runId, run);
  }

  lemma RestartedCommandsShown(db: Db, db': Db, runId: string, run: MissionRun)
    requires ShowsCommands(db, runId, run.commands) && Restarted(db, db')
    ensures ShowsCommands(db', runId, Recovered(run).commands)
  {
    forall id | id in db'.commands && db'.commands[id].snapshot.runId == runId
      ensures ShowsCommand(db'.commands[id], Recovered(run).commands)
    {
      assert RowRestarted(db.commands[id], db'.commands[id]);
      assert ShowsCommand(db.commands[id], run.commands);
    }
    forall key | key in run.commands ensures KeyTaken(db', runId, key) {
      assert KeyTaken(db, runId, key);
      var id :| id in db.commands && db.commands[id].snapshot.runId == runId && db.commands[id].idempotencyKey == key;
      assert RowRestarted(db.commands[id], db'.commands[id]);
      assert id in db'.commands && db'.commands[id].snapshot.runId == runId && db'.commands[id].idempotencyKey == key;
    }
  }

  // ---------- a new run ----------

  /** Commands and steps belong to runs that exist. */
  ghost predicate RunsKnown(db: Db) {
    && (forall id :: id in db.commands ==> db.commands[id].snapshot.runId in db.runs)
    && (forall key :: key in db.steps ==> key.0 in db.runs)
  }

  lemma {:induction false} PlanStepsKnown(db: Db, runId: string, definitions: seq<(string, string)>)
    requires RunsKnown(db) && runId in db.runs && AfterPlanSteps(db, runId, definitions).Ok?
    ensures RunsKnown(AfterPlanSteps(db, runId, definitions).value)
    decreases |definitions|
  {
    if definitions != [] {
      PlanStepsKnown(AfterPlanStep(db, runId, definitions[0]).value, runId, definitions[1..]);
    }
  }

  lemma ApplyKeepsRunsKnown(db: Db, op: Op)
    requires RunsKnown(db) && Apply(db, op).Ok?
    ensures RunsKnown(Apply(db, op).value)
  {
    if op.InitializeSteps? {
      PlanStepsKnown(db, op.runId, op.definitions);
    }
  }

  /** After any transactions, commands and steps belong to runs that exist. */
  lemma {:induction false} RunsAreKnown(db: Db, ops: seq<Op>)
    requires RunsKnown(db)
    ensures RunsKnown(ApplyAll(db, ops))
    decreases |ops|
  {
    if ops != [] {
      match Apply(db, ops[0])
      case Err(_) => RunsAreKnown(db, ops[1..]);
      case Ok(next) =>
        ApplyKeepsRunsKnown(db, ops[0]);
        RunsAreKnown(next, ops[1..]);
    }
  }

  ghost predicate DistinctIds(definitions: seq<(string, string)>) {
    forall i, j :: 0 <= i < j < |definitions| ==> definitions[i].0 != definitions[j].0
  }

  /** The step rows of a run after planning: the old ones and a pending one per definition. */
  ghost predicate PlannedSteps(db: Db, db': Db, runId: string, definitions: seq<(string, string)>) {
    && db'.commands == db.commands && db'.decisions == db.decisions && db'.approvals == db.approvals && db'.runs == db.runs
    && (forall key :: key in db.steps ==> key in db'.steps && db'.steps[key] == db.steps[key])
    && (forall i :: 0 <= i < |definitions| ==> PendingRow(db', runId, definitions[i].0))
    && (forall key :: key in db'.steps && key !in db.steps ==> key.0 == runId && Defined(definitions, key.1))
  }

  ghost predicate PendingRow(db: Db, runId: string, id: string) {
    (runId, id) in db.steps && ShowsStep(db, runId, db.steps[(runId, id)], MissionStep(StepStatus.PENDING, 0, None))
  }

  ghost predicate Defined(definitions: seq<(string, string)>, id: string) {
    exists i :: 0 <= i < |definitions| && definitions[i].0 == id
  }

  lemma {:induction false} PlanningSucceeds(db: Db, runId: string, definitions: seq<(string, string)>)
    requires DistinctIds(definitions) && forall i :: 0 <= i < |definitions| ==> (runId, definitions[i].0) !in db.steps
    ensures AfterPlanSteps(db, runId, definitions).Ok?
    ensures PlannedSteps(db, AfterPlanSteps(db, runId, definitions).value, runId, definitions)
    decreases |definitions|
  {
    if definitions != [] {
      var next := AfterPlanStep(db, runId, definitions[0]).value;
      var rest := definitions[1..];
      forall i | 0 <= i < |rest| ensures (runId, rest[i].0) !in next.steps {
        assert rest[i] == definitions[i + 1];
      }
      PlanningSucceeds(next, runId, rest);
      PlannedOneMore(db, next, AfterPlanSteps(next, runId, rest).value, runId, definitions);
    }
  }

  lemma PlannedOneMore(db: Db, next: Db, db': Db, runId: string, definitions: seq<(string, string)>)
    requires definitions != [] && (runId, definitions[0].0) !in db.steps
    requires AfterPlanStep(db, runId, definitions[0]) == Ok(next) && PlannedSteps(next, db', runId, definitions[1..])
    ensures PlannedSteps(db, db', runId, definitions)
  {
    assert PendingRow(next, runId, definitions[0].0);
    forall i | 0 <= i < |definitions| ensures PendingRow(db', runId, definitions[i].0) {
      if i > 0 { assert definitions[i] == definitions[1..][i - 1]; }
    }
    forall key | key in db'.steps && key !in db.steps ensures key.0 == runId && Defined(definitions, key.1) {
      if key in next.steps {
        assert definitions[0].0 == key.1;
      } else {
        var i :| 0 <= i < |definitions| - 1 && definitions[1..][i].0 == key.1;
        assert definitions[i + 1].0 == key.1;
      }
    }
  }

  lemma {:induction false} NoCallsYet(commands: map<string, CommandRow>, calls: seq<string>, runId: string)
    requires forall id :: id in commands ==> commands[id].snapshot.runId != runId
    ensures RunCalls(commands, calls, runId) == []
    decreases |calls|
  {
    if calls != [] { NoCallsYet(commands, calls[..|calls| - 1], runId); }
  }

  /** A created run with its planned steps is the initial picture. */
  lemma NewRunIsShown(db: Db, db': Db, calls: seq<string>, runId: string, steps: Steps, definitions: seq<(string, string)>)
    requires RunsKnown(db) && runId !in db.runs && (forall i :: 0 <= i < |calls| ==> calls[i] in db.commands)
    requires |definitions| == |steps| && forall i :: 0 <= i < |steps| ==> definitions[i].0 == steps[i].id
    requires PlannedSteps(db.(runs := db'.runs), db', runId, definitions) && runId in db'.runs && db'.runs[runId] == RunStatus.RUNNING
    ensures Shows(db', calls, runId, InitialRun(steps))
  {
    NoCallsYet(db'.commands, calls, runId);
    var rows := InitialRun(steps).steps;
    forall id ensures id in rows <==> (runId, id) in db'.steps {
      if id in rows {
        var i :| 0 <= i < |steps| && steps[i].id == id;
        assert PendingRow(db', runId, definitions[i].0);
      }
      if (runId, id) in db'.steps {
        assert (runId, id) !in db.steps;
        var i :| 0 <= i < |definitions| && definitions[i].0 == id;
        assert steps[i].id == id;
      }
    }
    forall id | id in rows ensures ShowsStep(db', runId, db'.steps[(runId, id)], rows[id]) {
      var i :| 0 <= i < |steps| && steps[i].id == id;
      assert PendingRow(db', runId, definitions[i].0);
    }
  }

  /** create_run, initialize_mission_steps and the first status of a run id that is not in use. */
  ghost function Started(db: Db, runId: string, definitions: seq<(string, string)>): Db
    requires AfterCreateRun(db, runId).Ok? && AfterInitializeSteps(AfterCreateRun(db, runId).value, runId, definitions).Ok?
    requires AfterSetRunStatus(AfterInitializeSteps(AfterCreateRun(db, runId).value, runId, definitions).value, runId, RunStatus.RUNNING).Ok?
  {
    AfterSetRunStatus(AfterInitializeSteps(AfterCreateRun(db, runId).value, runId, definitions).value, runId, RunStatus.RUNNING).value
  }

  lemma RunCanStart(db: Db, runId: string, definitions: seq<(string, string)>)
    requires RunsKnown(db) && runId !in db.runs && DistinctIds(definitions)
    ensures AfterCreateRun(db, runId).Ok? && AfterInitializeSteps(AfterCreateRun(db, runId).value, runId, definitions).Ok?
    ensures PlannedSteps(AfterCreateRun(db, runId).value, AfterInitializeSteps(AfterCreateRun(db, runId).value, runId, definitions).value,
                         runId, definitions)
    ensures AfterSetRunStatus(AfterInitializeSteps(AfterCreateRun(db, runId).value, runId, definitions).value, runId, RunStatus.RUNNING).Ok?
  {
    PlanningSucceeds(AfterCreateRun(db, runId).value, runId, definitions);
  }

  /** A new run starts as the initial picture, and no other table changes. */
  lemma StartedRunIsShown(db: Db, calls: seq<string>, runId: string, steps: Steps, definitions: seq<(string, string)>)
    requires RunsKnown(db) && runId !in db.runs && (forall i :: 0 <= i < |calls| ==> calls[i] in db.commands)
    requires DistinctIds(definitions) && |definitions| == |steps| && forall i :: 0 <= i < |steps| ==> definitions[i].0 == steps[i].id
    ensures AfterCreateRun(db, runId).Ok? && AfterInitializeSteps(AfterCreateRun(db, runId).value, runId, definitions).Ok?
    ensures AfterSetRunStatus(AfterInitializeSteps(AfterCreateRun(db, runId).value, runId, definitions).value, runId, RunStatus.RUNNING).Ok?
    ensures var db' := Started(db, runId, definitions);
            && Shows(db', calls, runId, InitialRun(steps))
            && db'.commands == db.commands && db'.decisions == db.decisions && db'.approvals == db.approvals
  {
    RunCanStart(db, runId, definitions);
    var created := AfterCreateRun(db, runId).value;
    var planned := AfterInitializeSteps(created, runId, definitions).value;
    var db' := Started(db, runId, definitions);
    StatusKeepsPlan(created, planned, runId, definitions, RunStatus.RUNNING);
    NewRunIsShown(db, db', calls, runId, steps, definitions);
  }

  lemma StatusKeepsPlan(db: Db, planned: Db, runId: string, definitions: seq<(string, string)>, status: RunStatus)
    requires PlannedSteps(db, planned, runId, definitions) && runId in planned.runs
    ensures var db' := AfterSetRunStatus(planned, runId, status).value; PlannedSteps(db.(runs := db'.runs), db', runId, definitions)
  {
    var db' := AfterSetRunStatus(planned, runId, status).value;
    forall i | 0 <= i < |definitions| ensures PendingRow(db', runId, definitions[i].0) {
      assert PendingRow(planned, runId, definitions[i].0);
    }
  }

  // ---------- a crash inside the journal ----------

  /** What the journal does for one existing command: decisions, approvals, transitions, artifacts. */
  predicate OfCommand(op: Op, id: string) {
    match op
    case Transition(commandId, _, _, _) => commandId == id
    case CreateDecision(_, row) => row.commandId == id
    case CreateApproval(_, commandId, _, _, _) => commandId == id
    case ConsumeApproval(_) => true
    case ExpireApproval(_) => true
    case CreateArtifact(_, commandId, _) => commandId == Some(id)
    case _ => false
  }

  lemma OfCommandKeeps(db: Db, op: Op, runId: string, id: string)
    requires KeysUnique(db) && id in db.commands && db.commands[id].snapshot.runId == runId && OfCommand(op, id) && Apply(db, op).Ok?
    ensures OneCommandOf(db, Apply(db, op).value, runId, id)
  {
    var db' := Apply(db, op).value;
    assert db'.commands == db.commands[id := db'.commands[id]];
  }

  /** The picture with the present row of a command. */
  ghost function WithRow(run: MissionRun, row: CommandRow, attempt: nat): MissionRun {
    CommandAt(run, row.idempotencyKey, Pictured(row, attempt), false)
  }

  lemma TransactionIsShown(db: Db, calls: seq<string>, runId: string, run: MissionRun, id: string, attempt: nat, op: Op)
    requires Shows(db, calls, runId, run) && KeysUnique(db) && id in db.commands && db.commands[id].snapshot.runId == runId
    requires OfCommand(op, id) && Apply(db, op).Ok?
    ensures var next := Apply(db, op).value;
            && KeysUnique(next) && id in next.commands && next.commands[id].snapshot.runId == runId
            && next.commands[id].idempotencyKey == db.commands[id].idempotencyKey
            && Shows(next, calls, runId, WithRow(run, next.commands[id], attempt))
  {
    OfCommandKeeps(db, op, runId, id);
    CommandIsShown(db, Apply(db, op).value, calls, runId, run, id, attempt, false);
  }

  lemma LastRowCounts(run: MissionRun, a: CommandRow, b: CommandRow, attempt: nat)
    requires a.idempotencyKey == b.idempotencyKey
    ensures WithRow(WithRow(run, a, attempt), b, attempt) == WithRow(run, b, attempt)
  {
  }

  /** However far the journal comes with a command before the process dies, the picture of the run
      differs from the one before by the status and approval of that command only. */
  lemma {:induction false} CrashShowsReachedStatus(db: Db, calls: seq<string>, runId: string, run: MissionRun, id: string, attempt: nat, ops: seq<Op>)
    requires Shows(db, calls, runId, run) && KeysUnique(db) && id in db.commands && db.commands[id].snapshot.runId == runId
    requires WithRow(run, db.commands[id], attempt) == run
    requires forall i :: 0 <= i < |ops| ==> OfCommand(ops[i], id)
    ensures var db' := ApplyAll(db, ops);
            && id in db'.commands && db'.commands[id].idempotencyKey == db.commands[id].idempotencyKey
            && Shows(db', calls, runId, WithRow(run, db'.commands[id], attempt))
    decreases |ops|
  {
    if ops != [] {
      if Apply(db, ops[0]).Err? {
        CrashShowsReachedStatus(db, calls, runId, run, id, attempt, ops[1..]);
      } else {
        var next := Apply(db, ops[0]).value;
        TransactionIsShown(db, calls, runId, run, id, attempt, ops[0]);
        LastRowCounts(run, next.commands[id], next.commands[id], attempt);
        CrashShowsReachedStatus(next, calls, runId, WithRow(run, next.commands[id], attempt), id, attempt, ops[1..]);
        LastRowCounts(run, next.commands[id], ApplyAll(next, ops[1..]).commands[id], attempt);
      }
    }
  }
}
