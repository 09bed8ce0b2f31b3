/** What one pass of the mission engine does (solana_agent/missions/engine.py): a function of the
    persisted step and command rows and of what the outside world answers for each step. */
module MissionRuns {
  import opened Prelude
  import opened Lifecycle
  import opened MissionGraph
  import opened CommandJournals

  datatype MissionStep = MissionStep(status: StepStatus, attempt: nat, command: Option<string>)

  /** A command of the run, stored under its idempotency key. */
  datatype MissionCommand = MissionCommand(stepId: string, attempt: nat, status: CommandStatus, hasApproval: bool)

  /** calls lists the executor calls by idempotency key, in order. */
  datatype MissionRun = MissionRun(
    status: RunStatus,
    steps: map<string, MissionStep>,
    commands: map<string, MissionCommand>,
    calls: seq<string>)

  datatype ApprovalView = Pending | Usable | Unusable

  /** Where the process dies; an exception that escapes the pass leaves the same rows. */
  datatype CrashPoint =
    | Never
    | BeforeStep
    | AfterRunning
    | InsideCommand(reached: CommandStatus, called: bool)
    | BeforeFinish

  /** What the pass meets at one step. */
  datatype Circumstance = Circumstance(
    preconditionsHold: bool,
    adapterRegistered: bool,
    effect: Option<PolicyEffect>,
    result: ExecutorResult,
    approval: ApprovalView,
    accepted: bool,
    crash: CrashPoint)

  type World = string -> Circumstance

  /** The hash of run, step, definition and attempt. */
  type KeyHash = (string, nat) -> string

  datatype StopReason = WaitingApproval | WaitingDependency | TransitionRejected | EngineError | Crashed

  datatype Signal = Skipped | Blocked | FailedEarly | Executed | Stop(reason: StopReason)

  datatype Progress = Progress(run: MissionRun, signal: Signal)

  // ---------- rows ----------

  function InitialRun(steps: Steps): MissionRun {
    MissionRun(RunStatus.RUNNING, map id | id in IdSet(steps) :: MissionStep(StepStatus.PENDING, 0, None), map[], [])
  }

  predicate AnyDependency(steps: Steps, rows: map<string, MissionStep>, id: string, statuses: set<StepStatus>) {
    id in IdSet(steps) && exists d <- Dependencies(steps, id) :: d in rows && rows[d].status in statuses
  }

  predicate DependenciesSucceeded(steps: Steps, rows: map<string, MissionStep>, id: string) {
    id in IdSet(steps) && forall d <- Dependencies(steps, id) :: d in rows && rows[d].status == StepStatus.SUCCEEDED
  }

  /** The row of a step after set_mission_step_status. */
  function UpdatedStep(row: MissionStep, status: StepStatus, command: Option<string>, increment: bool): MissionStep {
    MissionStep(status, row.attempt + if increment then 1 else 0, if command.Some? then command else row.command)
  }

  function WithStep(run: MissionRun, id: string, status: StepStatus, command: Option<string>, increment: bool): MissionRun
    requires id in run.steps
  {
    run.(steps := run.steps[id := UpdatedStep(run.steps[id], status, command, increment)])
  }

  /** set_mission_step_status: the transition guard rejects, or the row is updated and the pass
      goes on with the given signal. */
  function SetStep(run: MissionRun, id: string, status: StepStatus, command: Option<string>, increment: bool, done: Signal): Progress
    requires id in run.steps
  {
    if status !in StepTransitions(run.steps[id].status) then Progress(run, Stop(TransitionRejected))
    else Progress(WithStep(run, id, status, command, increment), done)
  }

  // ---------- one step ----------

  /** _finish_step. */
  function FinishStep(run: MissionRun, id: string, key: string, at: Circumstance): Progress
    requires id in run.steps && key in run.commands
  {
    if run.commands[key].status == CommandStatus.SUCCEEDED && at.accepted
    then SetStep(run, id, StepStatus.SUCCEEDED, Some(key), false, Executed)
    else SetStep(run, id, StepStatus.FAILED, Some(key), false, Executed)
  }

  /** What the pass does with the command that journal.execute returns. */
  function AfterCommand(run: MissionRun, id: string, key: string, at: Circumstance): Progress
    requires id in run.steps && key in run.commands
  {
    if at.crash == BeforeFinish then Progress(run, Stop(Crashed))
    else if run.commands[key].status == CommandStatus.APPROVAL_REQUIRED
    then SetStep(run, id, StepStatus.WAITING_APPROVAL, Some(key), false, Stop(WaitingApproval))
    else FinishStep(run, id, key, at)
  }

  function CommandAt(run: MissionRun, key: string, command: MissionCommand, called: bool): MissionRun {
    run.(commands := run.commands[key := command], calls := if called then run.calls + [key] else run.calls)
  }

  /** The executor is called at the earliest after the command became running. */
  predicate CallReached(crash: CrashPoint) {
    crash.InsideCommand? && crash.called && CommandRank(crash.reached) >= 4
  }

  /** journal.execute: a known key answers with its command, without a call. */
  function ExecuteCommand(run: MissionRun, id: string, key: string, at: Circumstance): Progress
    requires id in run.steps
  {
    var attempt := run.steps[id].attempt;
    if at.crash == AfterRunning then Progress(run, Stop(Crashed))
    else if key in run.commands then AfterCommand(run, id, key, at)
    else if at.crash.InsideCommand?
    then
      var command := MissionCommand(id, attempt, at.crash.reached, at.crash.reached == CommandStatus.APPROVAL_REQUIRED);
      Progress(CommandAt(run, key, command, CallReached(at.crash)), Stop(Crashed))
    else
      var command := MissionCommand(id, attempt, GovernedStatus(at.effect, at.result), at.effect == Some(REQUIRE_APPROVAL));
      AfterCommand(CommandAt(run, key, command, at.effect == Some(ALLOW)), id, key, at)
  }

  /** The command of an approved or rejected approval, after execute_approved. */
  function SettledApproval(run: MissionRun, key: string, at: Circumstance): MissionRun
    requires key in run.commands
  {
    var used := at.approval == Usable;
    CommandAt(run, key, run.commands[key].(status := if used then RecordedStatus(at.result) else CommandStatus.REJECTED), used)
  }

  /** _resume_approval and, if the approval is decided, the rest of the step. */
  function ResumeApproval(run: MissionRun, id: string, at: Circumstance): Progress
    requires id in run.steps
  {
    if run.steps[id].command.None? || run.steps[id].command.value !in run.commands then Progress(run, Stop(EngineError))
    else
      var key := run.steps[id].command.value;
      var command := run.commands[key];
      if !command.hasApproval then Progress(run, Stop(EngineError))
      else if at.approval == Pending then Progress(run, Stop(WaitingApproval))
      else if !at.adapterRegistered || command.status != CommandStatus.APPROVAL_REQUIRED then Progress(run, Stop(EngineError))
      else if at.crash.InsideCommand?
      then Progress(CommandAt(run, key, command.(status := at.crash.reached), CallReached(at.crash)), Stop(Crashed))
      else
        var settled := SettledApproval(run, key, at);
        if at.crash == BeforeFinish then Progress(settled, Stop(Crashed)) else FinishStep(settled, id, key, at)
  }

  /** A step that is started, or started again: an early failure, or a new attempt. */
  function StartStep(hash: KeyHash, at: Circumstance, run: MissionRun, id: string): Progress
    requires id in run.steps
  {
    if !at.preconditionsHold || !at.adapterRegistered
    then SetStep(run, id, StepStatus.FAILED, None, false, FailedEarly)
    else
      var running := SetStep(run, id, StepStatus.RUNNING, None, true, Executed);
      if running.signal.Stop? then running
      else ExecuteCommand(running.run, id, hash(id, run.steps[id].attempt + 1), at)
  }

  /** The part of an iteration for a step whose dependencies all succeeded. */
  function DriveReady(hash: KeyHash, at: Circumstance, run: MissionRun, id: string): Progress
    requires id in run.steps
  {
    if run.steps[id].status == StepStatus.WAITING_APPROVAL then ResumeApproval(run, id, at) else StartStep(hash, at, run, id)
  }

  /** One iteration of _drive. */
  function DriveStep(steps: Steps, hash: KeyHash, at: Circumstance, run: MissionRun, id: string): Progress
    requires id in run.steps
  {
    if at.crash == BeforeStep then Progress(run, Stop(Crashed))
    else if run.steps[id].status == StepStatus.SUCCEEDED then Progress(run, Skipped)
    else if AnyDependency(steps, run.steps, id, {StepStatus.FAILED, StepStatus.BLOCKED})
    then SetStep(run, id, StepStatus.BLOCKED, None, false, Blocked)
    else if !DependenciesSucceeded(steps, run.steps, id) then Progress(run, Stop(WaitingDependency))
    else DriveReady(hash, at, run, id)
  }

  // ---------- one pass ----------

  datatype Outcome = Completed | Failed | Stopped(reason: StopReason, step: string)

  datatype PassResult = PassResult(run: MissionRun, outcome: Outcome, executed: seq<string>, skipped: seq<string>)

  predicate AnyFailure(run: MissionRun) {
    exists id <- run.steps :: run.steps[id].status in {StepStatus.FAILED, StepStatus.BLOCKED}
  }

  function FinishPass(run: MissionRun, executed: seq<string>, skipped: seq<string>): PassResult {
    if AnyFailure(run) then PassResult(run.(status := RunStatus.FAILED), Failed, executed, skipped)
    else PassResult(run.(status := RunStatus.COMPLETED), Completed, executed, skipped)
  }

  /** The rest of _drive from the i-th step of the order on. */
  function DriveFrom(steps: Steps, hash: KeyHash, world: World, order: seq<string>, i: nat, run: MissionRun,
                     executed: seq<string>, skipped: seq<string>): PassResult
    requires i <= |order|
    decreases |order| - i
  {
    if i == |order| then FinishPass(run, executed, skipped)
    else if order[i] !in run.steps then PassResult(run, Stopped(EngineError, order[i]), executed, skipped)
    else
      var progress := DriveStep(steps, hash, world(order[i]), run, order[i]);
      match progress.signal
      case Stop(reason) => PassResult(progress.run, Stopped(reason, order[i]), executed, skipped)
      case Skipped => DriveFrom(steps, hash, world, order, i + 1, progress.run, executed, skipped + [order[i]])
      case Executed => DriveFrom(steps, hash, world, order, i + 1, progress.run, executed + [order[i]], skipped)
      case _ => DriveFrom(steps, hash, world, order, i + 1, progress.run, executed, skipped)
  }

  function Drive(steps: Steps, hash: KeyHash, world: World, order: seq<string>, run: MissionRun): PassResult {
    DriveFrom(steps, hash, world, order, 0, run, [], [])
  }

  // ---------- a history of passes ----------

  function OrphanRecovered(command: MissionCommand): MissionCommand {
    if command.status == CommandStatus.RUNNING then command.(status := CommandStatus.INTERRUPTED) else command
  }

  /** What resume does before it drives. */
  function Recovered(run: MissionRun): MissionRun {
    run.(status := RunStatus.RUNNING, commands := map key | key in run.commands :: OrphanRecovered(run.commands[key]))
  }

  /** start drives the new run once; later resumes drive it again, and in between commands may be
      cancelled. */
  datatype HistoryEvent = StartPass(world: World) | ResumePass(world: World) | CancelCommand(key: string)

  function Cancelled(run: MissionRun, key: string): MissionRun {
    if key in run.commands && CommandStatus.CANCELLED in CommandTransitions(run.commands[key].status)
    then run.(commands := run.commands[key := run.commands[key].(status := CommandStatus.CANCELLED)])
    else run
  }

  function AfterEvent(steps: Steps, hash: KeyHash, order: seq<string>, run: MissionRun, e: HistoryEvent): MissionRun {
    match e
    case StartPass(world) => Drive(steps, hash, world, order, run).run
    case ResumePass(world) => Drive(steps, hash, world, order, Recovered(run)).run
    case CancelCommand(key) => Cancelled(run, key)
  }

  function AfterHistory(steps: Steps, hash: KeyHash, order: seq<string>, run: MissionRun, history: seq<HistoryEvent>): MissionRun
    decreases |history|
  {
    if history == [] then run
    else AfterHistory(steps, hash, order, AfterEvent(steps, hash, order, run, history[0]), history[1..])
  }
}
