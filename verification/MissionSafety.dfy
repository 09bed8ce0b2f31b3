/** What every pass of the mission engine keeps, crashes included. */
module MissionSafety {
  import opened Prelude
  import opened Lifecycle
  import opened MissionGraph
  import opened CommandJournals
  import opened MissionRuns

  /** The idempotency keys of different steps or attempts differ. */
  ghost predicate Injective(hash: KeyHash) {
    forall a, m, b, n :: hash(a, m) == hash(b, n) ==> a == b && m == n
  }

  // ---------- the invariant ----------

  /** A step past pending and blocked has only succeeded dependencies. */
  ghost predicate StepGated(steps: Steps, rows: map<string, MissionStep>, id: string)
    requires id in rows
  {
    && rows[id].status != StepStatus.SKIPPED
    && (rows[id].status !in {StepStatus.PENDING, StepStatus.BLOCKED} ==> DependenciesSucceeded(steps, rows, id))
  }

  ghost predicate Gated(steps: Steps, rows: map<string, MissionStep>) {
    forall id :: id in rows ==> StepGated(steps, rows, id)
  }

  /** A step points to its own command, and while it waits, to one with an approval. */
  ghost predicate StepLinked(row: MissionStep, commands: map<string, MissionCommand>, id: string) {
    && (row.command.Some? ==> row.command.value in commands && commands[row.command.value].stepId == id)
    && (row.status == StepStatus.WAITING_APPROVAL ==> row.command.Some? && commands[row.command.value].hasApproval)
  }

  ghost predicate Linked(run: MissionRun) {
    forall id :: id in run.steps ==> StepLinked(run.steps[id], run.commands, id)
  }

  /** A command belongs to an attempt that its step has begun, and its key names both. */
  ghost predicate CommandKeyed(hash: KeyHash, run: MissionRun, key: string)
    requires key in run.commands
  {
    var command := run.commands[key];
    && command.stepId in run.steps && 1 <= command.attempt <= run.steps[command.stepId].attempt
    && hash(command.stepId, command.attempt) == key
  }

  ghost predicate Keyed(hash: KeyHash, run: MissionRun) {
    forall key :: key in run.commands ==> CommandKeyed(hash, run, key)
  }

  /** Each command is called at most once, and only after it became running. */
  ghost predicate CallsSound(run: MissionRun) {
    && (forall i :: 0 <= i < |run.calls| ==> run.calls[i] in run.commands && CommandRank(run.commands[run.calls[i]].status) >= 4)
    && forall i, j :: 0 <= i < j < |run.calls| ==> run.calls[i] != run.calls[j]
  }

  ghost predicate Sound(steps: Steps, hash: KeyHash, run: MissionRun) {
    run.steps.Keys == IdSet(steps) && Gated(steps, run.steps) && Linked(run) && Keyed(hash, run) && CallsSound(run)
  }

  /** Succeeded steps are final, attempts only grow, commands keep their step and attempt, calls are
      only added, and none of them for a step that had succeeded. */
  ghost predicate Advances(run: MissionRun, later: MissionRun) {
    && later.steps.Keys == run.steps.Keys
    && (forall id :: id in run.steps ==> RowAdvances(run.steps[id], later.steps[id]))
    && (forall key :: key in run.commands ==> key in later.commands && SameCommand(run.commands[key], later.commands[key]))
    && run.calls <= later.calls
    && (forall i :: |run.calls| <= i < |later.calls| ==> NewCall(run, later, later.calls[i]))
  }

  ghost predicate RowAdvances(a: MissionStep, b: MissionStep) {
    a.attempt <= b.attempt && (a.status == StepStatus.SUCCEEDED ==> b == a)
  }

  ghost predicate SameCommand(a: MissionCommand, b: MissionCommand) {
    b.stepId == a.stepId && b.attempt == a.attempt
  }

  ghost predicate NewCall(run: MissionRun, later: MissionRun, key: string) {
    && key in later.commands && later.commands[key].stepId in run.steps
    && run.steps[later.commands[key].stepId].status != StepStatus.SUCCEEDED
  }

  ghost predicate OthersKept(run: MissionRun, later: MissionRun, id: string) {
    forall other :: other in run.steps && other != id ==> other in later.steps && later.steps[other] == run.steps[other]
  }

  /** What one step of a pass may do. */
  ghost predicate Allowed(steps: Steps, hash: KeyHash, run: MissionRun, later: MissionRun, id: string) {
    Sound(steps, hash, later) && Advances(run, later) && OthersKept(run, later, id)
  }

  lemma AdvancesIsTransitive(a: MissionRun, b: MissionRun, c: MissionRun)
    requires Advances(a, b) && Advances(b, c)
    ensures Advances(a, c)
  {
    forall id | id in a.steps ensures RowAdvances(a.steps[id], c.steps[id]) {
      assert RowAdvances(a.steps[id], b.steps[id]) && RowAdvances(b.steps[id], c.steps[id]);
    }
    forall key | key in a.commands ensures key in c.commands && SameCommand(a.commands[key], c.commands[key]) {
      assert SameCommand(a.commands[key], b.commands[key]) && SameCommand(b.commands[key], c.commands[key]);
    }
    forall i | |a.calls| <= i < |c.calls| ensures NewCall(a, c, c.calls[i]) {
      if i < |b.calls| {
        assert NewCall(a, b, b.calls[i]);
        assert SameCommand(b.commands[b.calls[i]], c.commands[b.calls[i]]);
      } else {
        assert NewCall(b, c, c.calls[i]);
        var id := c.commands[c.calls[i]].stepId;
        assert RowAdvances(a.steps[id], b.steps[id]);
      }
    }
  }

  lemma AllowedIsTransitive(steps: Steps, hash: KeyHash, a: MissionRun, b: MissionRun, c: MissionRun, id: string)
    requires Allowed(steps, hash, a, b, id) && Allowed(steps, hash, b, c, id)
    ensures Allowed(steps, hash, a, c, id)
  {
    AdvancesIsTransitive(a, b, c);
  }

  lemma StayingIsAllowed(steps: Steps, hash: KeyHash, run: MissionRun, id: string)
    requires Sound(steps, hash, run)
    ensures Allowed(steps, hash, run, run, id)
  {
  }

  // ---------- row updates ----------

  lemma UpdateKeepsGated(steps: Steps, rows: map<string, MissionStep>, id: string, row: MissionStep)
    requires Gated(steps, rows) && id in rows && rows[id].status != StepStatus.SUCCEEDED
    requires row.status != StepStatus.SKIPPED
    requires row.status !in {StepStatus.PENDING, StepStatus.BLOCKED} ==> DependenciesSucceeded(steps, rows, id)
    ensures Gated(steps, rows[id := row])
  {
    var rows' := rows[id := row];
    forall x | x in rows' ensures StepGated(steps, rows', x) {
      assert StepGated(steps, rows, x);
    }
  }

  lemma UpdateKeepsRows(hash: KeyHash, run: MissionRun, id: string, status: StepStatus, command: Option<string>, increment: bool)
    requires Linked(run) && Keyed(hash, run) && CallsSound(run) && id in run.steps
    requires command.Some? ==> command.value in run.commands && run.commands[command.value].stepId == id
    requires status == StepStatus.WAITING_APPROVAL ==> command.Some? && run.commands[command.value].hasApproval
    ensures var run' := WithStep(run, id, status, command, increment); Linked(run') && Keyed(hash, run') && CallsSound(run')
  {
    var run' := WithStep(run, id, status, command, increment);
    forall x | x in run'.steps ensures StepLinked(run'.steps[x], run'.commands, x) {
      assert StepLinked(run.steps[x], run.commands, x);
    }
    forall key | key in run'.commands ensures CommandKeyed(hash, run', key) { assert CommandKeyed(hash, run, key); }
  }

  lemma UpdateAdvances(run: MissionRun, id: string, status: StepStatus, command: Option<string>, increment: bool)
    requires id in run.steps && run.steps[id].status != StepStatus.SUCCEEDED
    ensures var run' := WithStep(run, id, status, command, increment); Advances(run, run') && OthersKept(run, run', id)
  {
  }

  /** A legal status change of a step whose dependencies all succeeded, or to blocked. */
  lemma SetStepIsAllowed(steps: Steps, hash: KeyHash, run: MissionRun, id: string, status: StepStatus, command: Option<string>,
                         increment: bool, done: Signal)
    requires Sound(steps, hash, run) && id in run.steps && status !in {StepStatus.PENDING, StepStatus.SKIPPED}
    requires status != StepStatus.BLOCKED ==> DependenciesSucceeded(steps, run.steps, id)
    requires command.Some? ==> command.value in run.commands && run.commands[command.value].stepId == id
    requires status == StepStatus.WAITING_APPROVAL ==> command.Some? && run.commands[command.value].hasApproval
    ensures Allowed(steps, hash, run, SetStep(run, id, status, command, increment, done).run, id)
  {
    if status in StepTransitions(run.steps[id].status) {
      UpdateKeepsGated(steps, run.steps, id, UpdatedStep(run.steps[id], status, command, increment));
      UpdateKeepsRows(hash, run, id, status, command, increment);
      UpdateAdvances(run, id, status, command, increment);
    } else {
      StayingIsAllowed(steps, hash, run, id);
    }
  }

  /** A command of a begun attempt is added, or goes on from its approval. */
  ghost predicate MayPut(hash: KeyHash, run: MissionRun, id: string, key: string, command: MissionCommand, called: bool) {
    && id in run.steps && run.steps[id].status != StepStatus.SUCCEEDED
    && command.stepId == id && 1 <= command.attempt <= run.steps[id].attempt && hash(id, command.attempt) == key
    && (key in run.commands ==>
          run.commands[key].status == CommandStatus.APPROVAL_REQUIRED && command == run.commands[key].(status := command.status))
    && (called ==> CommandRank(command.status) >= 4)
  }

  lemma PutKeepsRows(hash: KeyHash, run: MissionRun, id: string, key: string, command: MissionCommand, called: bool)
    requires MayPut(hash, run, id, key, command, called) && Linked(run) && Keyed(hash, run)
    ensures Linked(CommandAt(run, key, command, called)) && Keyed(hash, CommandAt(run, key, command, called))
  {
    var run' := CommandAt(run, key, command, called);
    forall x | x in run'.steps ensures StepLinked(run'.steps[x], run'.commands, x) {
      assert StepLinked(run.steps[x], run.commands, x);
    }
    forall k | k in run'.commands ensures CommandKeyed(hash, run', k) {
      assert k != key ==> CommandKeyed(hash, run, k);
    }
  }

  lemma PutKeepsCalls(hash: KeyHash, run: MissionRun, id: string, key: string, command: MissionCommand, called: bool)
    requires MayPut(hash, run, id, key, command, called) && CallsSound(run)
    ensures CallsSound(CommandAt(run, key, command, called))
  {
    assert key !in run.calls;
  }

  lemma PutAdvances(hash: KeyHash, run: MissionRun, id: string, key: string, command: MissionCommand, called: bool)
    requires MayPut(hash, run, id, key, command, called)
    ensures Advances(run, CommandAt(run, key, command, called))
  {
  }

  lemma CommandAtIsAllowed(steps: Steps, hash: KeyHash, run: MissionRun, id: string, key: string, command: MissionCommand, called: bool)
    requires Sound(steps, hash, run) && MayPut(hash, run, id, key, command, called)
    ensures Allowed(steps, hash, run, CommandAt(run, key, command, called), id)
  {
    PutKeepsRows(hash, run, id, key, command, called);
    PutKeepsCalls(hash, run, id, key, command, called);
    PutAdvances(hash, run, id, key, command, called);
  }

  // ---------- one step ----------

  lemma FinishStepIsAllowed(steps: Steps, hash: KeyHash, run: MissionRun, id: string, key: string, at: Circumstance)
    requires Sound(steps, hash, run) && id in run.steps && DependenciesSucceeded(steps, run.steps, id)
    requires key in run.commands && run.commands[key].stepId == id
    ensures Allowed(steps, hash, run, FinishStep(run, id, key, at).run, id)
  {
    SetStepIsAllowed(steps, hash, run, id, StepStatus.SUCCEEDED, Some(key), false, Executed);
    SetStepIsAllowed(steps, hash, run, id, StepStatus.FAILED, Some(key), false, Executed);
  }

  lemma AfterCommandIsAllowed(steps: Steps, hash: KeyHash, run: MissionRun, id: string, key: string, at: Circumstance)
    requires Sound(steps, hash, run) && id in run.steps && DependenciesSucceeded(steps, run.steps, id)
    requires key in run.commands && run.commands[key].stepId == id
    requires run.commands[key].status == CommandStatus.APPROVAL_REQUIRED ==> run.commands[key].hasApproval
    ensures Allowed(steps, hash, run, AfterCommand(run, id, key, at).run, id)
  {
    StayingIsAllowed(steps, hash, run, id);
    FinishStepIsAllowed(steps, hash, run, id, key, at);
    if run.commands[key].status == CommandStatus.APPROVAL_REQUIRED {
      SetStepIsAllowed(steps, hash, run, id, StepStatus.WAITING_APPROVAL, Some(key), false, Stop(WaitingApproval));
    }
  }

  lemma ExecuteCommandIsAllowed(steps: Steps, hash: KeyHash, run: MissionRun, id: string, key: string, at: Circumstance)
    requires Sound(steps, hash, run) && id in run.steps && DependenciesSucceeded(steps, run.steps, id)
    requires run.steps[id].status == StepStatus.RUNNING && run.steps[id].attempt >= 1
    requires key == hash(id, run.steps[id].attempt) && key !in run.commands
    ensures Allowed(steps, hash, run, ExecuteCommand(run, id, key, at).run, id)
  {
    StayingIsAllowed(steps, hash, run, id);
    if at.crash.InsideCommand? {
      var command := MissionCommand(id, run.steps[id].attempt, at.crash.reached, at.crash.reached == CommandStatus.APPROVAL_REQUIRED);
      CommandAtIsAllowed(steps, hash, run, id, key, command, CallReached(at.crash));
    } else if at.crash != AfterRunning {
      NewCommandIsAllowed(steps, hash, run, id, key, at);
    }
  }

  lemma NewCommandIsAllowed(steps: Steps, hash: KeyHash, run: MissionRun, id: string, key: string, at: Circumstance)
    requires Sound(steps, hash, run) && id in run.steps && DependenciesSucceeded(steps, run.steps, id)
    requires run.steps[id].status == StepStatus.RUNNING && run.steps[id].attempt >= 1
    requires key == hash(id, run.steps[id].attempt) && key !in run.commands
    ensures var at := at;
            var command := MissionCommand(id, run.steps[id].attempt, GovernedStatus(at.effect, at.result), at.effect == Some(REQUIRE_APPROVAL));
            var settled := CommandAt(run, key, command, at.effect == Some(ALLOW));
            Allowed(steps, hash, run, AfterCommand(settled, id, key, at).run, id)
  {
    var command := MissionCommand(id, run.steps[id].attempt, GovernedStatus(at.effect, at.result), at.effect == Some(REQUIRE_APPROVAL));
    var settled := CommandAt(run, key, command, at.effect == Some(ALLOW));
    CommandAtIsAllowed(steps, hash, run, id, key, command, at.effect == Some(ALLOW));
    AfterCommandIsAllowed(steps, hash, settled, id, key, at);
    AllowedIsTransitive(steps, hash, run, settled, AfterCommand(settled, id, key, at).run, id);
  }

  lemma ResumeApprovalCases(run: MissionRun, id: string, key: string, at: Circumstance)
    requires id in run.steps && run.steps[id].command == Some(key) && key in run.commands
    ensures var r := ResumeApproval(run, id, at).run;
            || r == run
            || (&& run.commands[key].status == CommandStatus.APPROVAL_REQUIRED
                && if at.crash.InsideCommand?
                   then r == CommandAt(run, key, run.commands[key].(status := at.crash.reached), CallReached(at.crash))
                   else r == SettledApproval(run, key, at) || r == FinishStep(SettledApproval(run, key, at), id, key, at).run)
  {
  }

  lemma ResumeApprovalIsAllowed(steps: Steps, hash: KeyHash, run: MissionRun, id: string, at: Circumstance)
    requires Sound(steps, hash, run) && id in run.steps && DependenciesSucceeded(steps, run.steps, id)
    requires run.steps[id].status == StepStatus.WAITING_APPROVAL
    ensures Allowed(steps, hash, run, ResumeApproval(run, id, at).run, id)
  {
    assert StepLinked(run.steps[id], run.commands, id);
    var key := run.steps[id].command.value;
    ResumeApprovalCases(run, id, key, at);
    if ResumeApproval(run, id, at).run == run {
      StayingIsAllowed(steps, hash, run, id);
    } else if at.crash.InsideCommand? {
      InterruptedApprovalIsAllowed(steps, hash, run, id, key, at.crash);
    } else {
      SettledApprovalIsAllowed(steps, hash, run, id, key, at);
    }
  }

  lemma InterruptedApprovalIsAllowed(steps: Steps, hash: KeyHash, run: MissionRun, id: string, key: string, crash: CrashPoint)
    requires Sound(steps, hash, run) && id in run.steps && crash.InsideCommand?
    requires run.steps[id].status == StepStatus.WAITING_APPROVAL
    requires key in run.commands && run.commands[key].stepId == id && run.commands[key].status == CommandStatus.APPROVAL_REQUIRED
    ensures Allowed(steps, hash, run, CommandAt(run, key, run.commands[key].(status := crash.reached), CallReached(crash)), id)
  {
    assert CommandKeyed(hash, run, key);
    CommandAtIsAllowed(steps, hash, run, id, key, run.commands[key].(status := crash.reached), CallReached(crash));
  }

  lemma SettledApprovalIsAllowed(steps: Steps, hash: KeyHash, run: MissionRun, id: string, key: string, at: Circumstance)
    requires Sound(steps, hash, run) && id in run.steps && DependenciesSucceeded(steps, run.steps, id)
    requires run.steps[id].status == StepStatus.WAITING_APPROVAL && run.steps[id].command == Some(key)
    requires key in run.commands && run.commands[key].stepId == id && run.commands[key].status == CommandStatus.APPROVAL_REQUIRED
    ensures var settled := SettledApproval(run, key, at);
            Allowed(steps, hash, run, settled, id) && Allowed(steps, hash, run, FinishStep(settled, id, key, at).run, id)
  {
    var used := at.approval == Usable;
    var command := run.commands[key].(status := if used then RecordedStatus(at.result) else CommandStatus.REJECTED);
    var settled := SettledApproval(run, key, at);
    assert CommandKeyed(hash, run, key);
    CommandAtIsAllowed(steps, hash, run, id, key, command, used);
    FinishStepIsAllowed(steps, hash, settled, id, key, at);
    AllowedIsTransitive(steps, hash, run, settled, FinishStep(settled, id, key, at).run, id);
  }

  /** The next attempt of a step has a key that no command has: the journal never answers the engine
      with an old command. */
  lemma NextKeyIsFresh(hash: KeyHash, run: MissionRun, id: string)
    requires Injective(hash) && Keyed(hash, run) && id in run.steps
    ensures hash(id, run.steps[id].attempt + 1) !in run.commands
  {
    var key := hash(id, run.steps[id].attempt + 1);
    assert key in run.commands ==> CommandKeyed(hash, run, key);
  }

  lemma BeginAttemptIsAllowed(steps: Steps, hash: KeyHash, run: MissionRun, id: string, at: Circumstance)
    requires Injective(hash) && Sound(steps, hash, run) && id in run.steps && DependenciesSucceeded(steps, run.steps, id)
    requires StepStatus.RUNNING in StepTransitions(run.steps[id].status)
    ensures var running := WithStep(run, id, StepStatus.RUNNING, None, true);
            Allowed(steps, hash, run, ExecuteCommand(running, id, hash(id, run.steps[id].attempt + 1), at).run, id)
  {
    var running := WithStep(run, id, StepStatus.RUNNING, None, true);
    var key := hash(id, run.steps[id].attempt + 1);
    SetStepIsAllowed(steps, hash, run, id, StepStatus.RUNNING, None, true, Executed);
    NextKeyIsFresh(hash, run, id);
    ExecuteCommandIsAllowed(steps, hash, running, id, key, at);
    AllowedIsTransitive(steps, hash, run, running, ExecuteCommand(running, id, key, at).run, id);
  }

  /** A step that is not finished, with all its dependencies succeeded. */
  ghost predicate Ready(steps: Steps, run: MissionRun, id: string) {
    && id in run.steps && run.steps[id].status != StepStatus.SUCCEEDED && DependenciesSucceeded(steps, run.steps, id)
    && !AnyDependency(steps, run.steps, id, {StepStatus.FAILED, StepStatus.BLOCKED})
  }

  lemma ReadyStepCases(steps: Steps, hash: KeyHash, at: Circumstance, run: MissionRun, id: string)
    requires Ready(steps, run, id) && at.crash != BeforeStep && run.steps[id].status != StepStatus.WAITING_APPROVAL
    ensures DriveStep(steps, hash, at, run, id).run ==
              if !at.preconditionsHold || !at.adapterRegistered
              then SetStep(run, id, StepStatus.FAILED, None, false, FailedEarly).run
              else if StepStatus.RUNNING in StepTransitions(run.steps[id].status)
              then ExecuteCommand(WithStep(run, id, StepStatus.RUNNING, None, true), id, hash(id, run.steps[id].attempt + 1), at).run
              else run
  {
  }

  lemma ReadyStepIsAllowed(steps: Steps, hash: KeyHash, at: Circumstance, run: MissionRun, id: string)
    requires Injective(hash) && Sound(steps, hash, run) && Ready(steps, run, id)
    requires at.crash != BeforeStep && run.steps[id].status != StepStatus.WAITING_APPROVAL
    ensures Allowed(steps, hash, run, DriveStep(steps, hash, at, run, id).run, id)
  {
    ReadyStepCases(steps, hash, at, run, id);
    if !at.preconditionsHold || !at.adapterRegistered {
      SetStepIsAllowed(steps, hash, run, id, StepStatus.FAILED, None, false, FailedEarly);
    } else if StepStatus.RUNNING in StepTransitions(run.steps[id].status) {
      BeginAttemptIsAllowed(steps, hash, run, id, at);
    } else {
      StayingIsAllowed(steps, hash, run, id);
    }
  }

  lemma DriveStepIsAllowed(steps: Steps, hash: KeyHash, at: Circumstance, run: MissionRun, id: string)
    requires Injective(hash) && Sound(steps, hash, run) && id in run.steps
    ensures Allowed(steps, hash, run, DriveStep(steps, hash, at, run, id).run, id)
  {
    if at.crash == BeforeStep || run.steps[id].status == StepStatus.SUCCEEDED {
      StayingIsAllowed(steps, hash, run, id);
    } else if AnyDependency(steps, run.steps, id, {StepStatus.FAILED, StepStatus.BLOCKED}) {
      SetStepIsAllowed(steps, hash, run, id, StepStatus.BLOCKED, None, false, Blocked);
    } else if !DependenciesSucceeded(steps, run.steps, id) {
      StayingIsAllowed(steps, hash, run, id);
    } else if run.steps[id].status == StepStatus.WAITING_APPROVAL {
      ResumeApprovalIsAllowed(steps, hash, run, id, at);
    } else {
      ReadyStepIsAllowed(steps, hash, at, run, id);
    }
  }

  // ---------- passes and histories ----------

  lemma {:induction false} DriveFromAdvances(steps: Steps, hash: KeyHash, world: World, order: seq<string>, i: nat, run: MissionRun,
                                             executed: seq<string>, skipped: seq<string>)
    requires Injective(hash) && Sound(steps, hash, run) && i <= |order|
    ensures var later := DriveFrom(steps, hash, world, order, i, run, executed, skipped).run;
            Sound(steps, hash, later) && Advances(run, later)
    decreases |order| - i
  {
    if i == |order| {
      StatusIsFree(steps, hash, run, FinishPass(run, executed, skipped).run);
    } else if order[i] in run.steps {
      var id := order[i];
      var progress := DriveStep(steps, hash, world(id), run, id);
      DriveStepIsAllowed(steps, hash, world(id), run, id);
      var executed' := if progress.signal == Executed then executed + [id] else executed;
      var skipped' := if progress.signal == Skipped then skipped + [id] else skipped;
      DriveFromAdvances(steps, hash, world, order, i + 1, progress.run, executed', skipped');
      if !progress.signal.Stop? {
        AdvancesIsTransitive(run, progress.run, DriveFrom(steps, hash, world, order, i + 1, progress.run, executed', skipped').run);
      }
    } else {
      StatusIsFree(steps, hash, run, run);
    }
  }

  /** The status of the run itself plays no part. */
  lemma StatusIsFree(steps: Steps, hash: KeyHash, run: MissionRun, later: MissionRun)
    requires Sound(steps, hash, run) && later == run.(status := later.status)
    ensures Sound(steps, hash, later) && Advances(run, later)
  {
    forall key | key in later.commands ensures CommandKeyed(hash, later, key) { assert CommandKeyed(hash, run, key); }
  }

  lemma CommandStatusesMayAdvance(steps: Steps, hash: KeyHash, run: MissionRun, later: MissionRun)
    requires Sound(steps, hash, run)
    requires later.steps == run.steps && later.calls == run.calls && later.commands.Keys == run.commands.Keys
    requires forall key :: key in run.commands ==>
               && later.commands[key] == run.commands[key].(status := later.commands[key].status)
               && CommandRank(run.commands[key].status) <= CommandRank(later.commands[key].status)
    ensures Sound(steps, hash, later) && Advances(run, later)
  {
    forall id | id in later.steps ensures StepLinked(later.steps[id], later.commands, id) {
      assert StepLinked(run.steps[id], run.commands, id);
    }
    forall key | key in later.commands ensures CommandKeyed(hash, later, key) { assert CommandKeyed(hash, run, key); }
  }

  lemma RecoveryAdvances(steps: Steps, hash: KeyHash, run: MissionRun)
    requires Sound(steps, hash, run)
    ensures Sound(steps, hash, Recovered(run)) && Advances(run, Recovered(run)) && Recovered(run).steps == run.steps
  {
    CommandStatusesMayAdvance(steps, hash, run, Recovered(run));
  }

  lemma ResumeAdvances(steps: Steps, hash: KeyHash, order: seq<string>, run: MissionRun, world: World)
    requires Injective(hash) && Sound(steps, hash, run)
    ensures var later := Drive(steps, hash, world, order, Recovered(run)).run; Sound(steps, hash, later) && Advances(run, later)
  {
    RecoveryAdvances(steps, hash, run);
    DriveFromAdvances(steps, hash, world, order, 0, Recovered(run), [], []);
    AdvancesIsTransitive(run, Recovered(run), Drive(steps, hash, world, order, Recovered(run)).run);
  }

  lemma EventAdvances(steps: Steps, hash: KeyHash, order: seq<string>, run: MissionRun, e: HistoryEvent)
    requires Injective(hash) && Sound(steps, hash, run)
    ensures Sound(steps, hash, AfterEvent(steps, hash, order, run, e)) && Advances(run, AfterEvent(steps, hash, order, run, e))
  {
    match e
    case StartPass(world) => DriveFromAdvances(steps, hash, world, order, 0, run, [], []);
    case ResumePass(world) => ResumeAdvances(steps, hash, order, run, world);
    case CancelCommand(key) =>
      if key in run.commands { TransitionsMoveForward(run.commands[key].status, CommandStatus.CANCELLED); }
      CommandStatusesMayAdvance(steps, hash, run, Cancelled(run, key));
  }

  lemma {:induction false} HistoryAdvances(steps: Steps, hash: KeyHash, order: seq<string>, run: MissionRun, history: seq<HistoryEvent>)
    requires Injective(hash) && Sound(steps, hash, run)
    ensures var later := AfterHistory(steps, hash, order, run, history); Sound(steps, hash, later) && Advances(run, later)
    decreases |history|
  {
    if history == [] {
      StatusIsFree(steps, hash, run, run);
    } else {
      var next := AfterEvent(steps, hash, order, run, history[0]);
      EventAdvances(steps, hash, order, run, history[0]);
      HistoryAdvances(steps, hash, order, next, history[1..]);
      AdvancesIsTransitive(run, next, AfterHistory(steps, hash, order, next, history[1..]));
    }
  }

  lemma InitialIsSound(steps: Steps, hash: KeyHash)
    ensures Sound(steps, hash, InitialRun(steps))
  {
  }
}
