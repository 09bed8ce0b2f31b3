/** How passes of the mission engine end: which steps a complete pass leaves blocked, when a pass
    stops early, and how often the executor is called for a step. */
module MissionOutcomes {
  import opened Prelude
  import opened Lifecycle
  import opened MissionGraph
  import opened CommandJournals
  import opened MissionRuns
  import opened MissionSafety

  const FAILURES := {StepStatus.FAILED, StepStatus.BLOCKED}

  predicate SettledStatus(status: StepStatus) {
    status in {StepStatus.SUCCEEDED, StepStatus.FAILED, StepStatus.BLOCKED}
  }

  /** What a pass leaves a step with when it goes on to the next one. */
  ghost predicate StepSettled(steps: Steps, rows: map<string, MissionStep>, id: string) {
    && id in rows && SettledStatus(rows[id].status)
    && (rows[id].status == StepStatus.BLOCKED <==> AnyDependency(steps, rows, id, {StepStatus.FAILED, StepStatus.BLOCKED}))
    && (rows[id].status != StepStatus.BLOCKED ==> DependenciesSucceeded(steps, rows, id))
  }

  ghost predicate DependenciesSettled(steps: Steps, rows: map<string, MissionStep>, id: string) {
    id in IdSet(steps) && forall d <- Dependencies(steps, id) :: d in rows && SettledStatus(rows[d].status)
  }

  ghost predicate NoneRunning(run: MissionRun) {
    forall id :: id in run.steps ==> run.steps[id].status != StepStatus.RUNNING
  }

  // ---------- one step ----------

  lemma FinishOutcome(run: MissionRun, id: string, key: string, at: Circumstance)
    requires id in run.steps && key in run.commands
    requires run.steps[id].status in {StepStatus.RUNNING, StepStatus.WAITING_APPROVAL}
    ensures var p := FinishStep(run, id, key, at);
            && p.signal == Executed && id in p.run.steps
            && p.run.steps[id].status ==
                 if run.commands[key].status == CommandStatus.SUCCEEDED && at.accepted then StepStatus.SUCCEEDED
                 else StepStatus.FAILED
  {
  }

  /** How a step ends: done, or stopped at an approval, by a crash, or by an error. */
  ghost predicate EndsWell(p: Progress, id: string) {
    && id in p.run.steps
    && match p.signal
       case Executed => p.run.steps[id].status in {StepStatus.SUCCEEDED, StepStatus.FAILED}
       case Stop(reason) =>
         && (reason == WaitingApproval || reason == Crashed)
         && (reason == WaitingApproval ==> p.run.steps[id].status == StepStatus.WAITING_APPROVAL)
       case _ => false
  }

  lemma AfterCommandOutcome(run: MissionRun, id: string, key: string, at: Circumstance)
    requires id in run.steps && key in run.commands && run.steps[id].status == StepStatus.RUNNING
    ensures EndsWell(AfterCommand(run, id, key, at), id)
  {
    FinishOutcome(run, id, key, at);
  }

  lemma ExecuteOutcome(run: MissionRun, id: string, key: string, at: Circumstance)
    requires id in run.steps && run.steps[id].status == StepStatus.RUNNING
    ensures EndsWell(ExecuteCommand(run, id, key, at), id)
  {
    if key in run.commands {
      AfterCommandOutcome(run, id, key, at);
    } else if !at.crash.InsideCommand? {
      var command := MissionCommand(id, run.steps[id].attempt, GovernedStatus(at.effect, at.result), at.effect == Some(REQUIRE_APPROVAL));
      AfterCommandOutcome(CommandAt(run, key, command, at.effect == Some(ALLOW)), id, key, at);
    }
  }

  /** The approval of a waiting step is decided, but its command cannot go on. */
  ghost predicate CannotResume(run: MissionRun, id: string, at: Circumstance)
    requires id in run.steps
  {
    && run.steps[id].status == StepStatus.WAITING_APPROVAL && at.approval != Pending
    && run.steps[id].command.Some? && run.steps[id].command.value in run.commands
    && (!at.adapterRegistered || run.commands[run.steps[id].command.value].status != CommandStatus.APPROVAL_REQUIRED)
  }

  lemma ResumeOutcome(run: MissionRun, id: string, at: Circumstance)
    requires id in run.steps && run.steps[id].status == StepStatus.WAITING_APPROVAL && StepLinked(run.steps[id], run.commands, id)
    ensures var p := ResumeApproval(run, id, at);
            if CannotResume(run, id, at) then p == Progress(run, Stop(EngineError)) else EndsWell(p, id)
  {
    var key := run.steps[id].command.value;
    var used := at.approval == Usable;
    var command := run.commands[key].(status := if used then RecordedStatus(at.result) else CommandStatus.REJECTED);
    FinishOutcome(CommandAt(run, key, command, used), id, key, at);
  }

  /** The transition guard rejects exactly the restart of a step that a crash left running. */
  ghost predicate RestartsRunning(run: MissionRun, id: string, at: Circumstance)
    requires id in run.steps
  {
    run.steps[id].status == StepStatus.RUNNING && at.preconditionsHold && at.adapterRegistered && at.crash != BeforeStep
  }

  lemma AttemptUnfolds(steps: Steps, hash: KeyHash, at: Circumstance, run: MissionRun, id: string)
    requires Ready(steps, run, id) && at.crash != BeforeStep && at.preconditionsHold && at.adapterRegistered
    requires run.steps[id].status in {StepStatus.PENDING, StepStatus.FAILED, StepStatus.BLOCKED}
    ensures DriveStep(steps, hash, at, run, id) ==
              ExecuteCommand(WithStep(run, id, StepStatus.RUNNING, None, true), id, hash(id, run.steps[id].attempt + 1), at)
  {
    assert StepStatus.RUNNING in StepTransitions(run.steps[id].status);
    assert SetStep(run, id, StepStatus.RUNNING, None, true, Executed) ==
           Progress(WithStep(run, id, StepStatus.RUNNING, None, true), Executed);
  }

  lemma AttemptOutcome(steps: Steps, hash: KeyHash, at: Circumstance, run: MissionRun, id: string)
    requires Ready(steps, run, id) && at.crash != BeforeStep && at.preconditionsHold && at.adapterRegistered
    requires run.steps[id].status in {StepStatus.PENDING, StepStatus.FAILED, StepStatus.BLOCKED}
    ensures EndsWell(DriveStep(steps, hash, at, run, id), id)
  {
    AttemptUnfolds(steps, hash, at, run, id);
    ExecuteOutcome(WithStep(run, id, StepStatus.RUNNING, None, true), id, hash(id, run.steps[id].attempt + 1), at);
  }

  lemma EarlyFailureOutcome(steps: Steps, hash: KeyHash, at: Circumstance, run: MissionRun, id: string)
    requires Ready(steps, run, id) && at.crash != BeforeStep && !(at.preconditionsHold && at.adapterRegistered)
    requires run.steps[id].status !in {StepStatus.WAITING_APPROVAL, StepStatus.SKIPPED}
    ensures var p := DriveStep(steps, hash, at, run, id);
            p.signal == FailedEarly && id in p.run.steps && p.run.steps[id].status == StepStatus.FAILED
  {
  }

  lemma WaitingOutcome(steps: Steps, hash: KeyHash, at: Circumstance, run: MissionRun, id: string)
    requires Ready(steps, run, id) && at.crash != BeforeStep
    requires run.steps[id].status == StepStatus.WAITING_APPROVAL && StepLinked(run.steps[id], run.commands, id)
    ensures var p := DriveStep(steps, hash, at, run, id);
            if CannotResume(run, id, at) then p == Progress(run, Stop(EngineError)) else EndsWell(p, id)
  {
    ResumeOutcome(run, id, at);
  }

  lemma ReadyOutcome(steps: Steps, hash: KeyHash, at: Circumstance, run: MissionRun, id: string)
    requires Ready(steps, run, id) && StepLinked(run.steps[id], run.commands, id) && at.crash != BeforeStep
    requires run.steps[id].status != StepStatus.SKIPPED
    ensures var p := DriveStep(steps, hash, at, run, id);
            if RestartsRunning(run, id, at) then p == Progress(run, Stop(TransitionRejected))
            else if CannotResume(run, id, at) then p == Progress(run, Stop(EngineError))
            else EndsWell(p, id) || (p.signal == FailedEarly && id in p.run.steps && p.run.steps[id].status == StepStatus.FAILED)
  {
    if run.steps[id].status == StepStatus.WAITING_APPROVAL {
      WaitingOutcome(steps, hash, at, run, id);
    } else if !(at.preconditionsHold && at.adapterRegistered) {
      EarlyFailureOutcome(steps, hash, at, run, id);
    } else if run.steps[id].status != StepStatus.RUNNING {
      AttemptOutcome(steps, hash, at, run, id);
    }
  }

  /** After a step whose dependencies are settled, the pass never waits for a dependency; the guard
      fires exactly when a running step is restarted; an error is raised exactly when a decided
      approval cannot go on. */
  lemma StepOutcome(steps: Steps, hash: KeyHash, at: Circumstance, run: MissionRun, id: string)
    requires Sound(steps, hash, run) && id in run.steps && DependenciesSettled(steps, run.steps, id)
    ensures var p := DriveStep(steps, hash, at, run, id);
            && p.signal != Stop(WaitingDependency)
            && (p.signal == Stop(TransitionRejected) <==> RestartsRunning(run, id, at))
            && (p.signal == Stop(EngineError) <==> at.crash != BeforeStep && CannotResume(run, id, at))
            && (!p.signal.Stop? ==> id in p.run.steps && SettledStatus(p.run.steps[id].status)
                                    && (p.run.steps[id].status == StepStatus.BLOCKED <==> AnyDependency(steps, run.steps, id, FAILURES)))
            && (p.signal != Stop(Crashed) && p.signal != Stop(TransitionRejected) ==>
                  id in p.run.steps && p.run.steps[id].status != StepStatus.RUNNING)
  {
    assert StepGated(steps, run.steps, id);
    if at.crash != BeforeStep && run.steps[id].status != StepStatus.SUCCEEDED
       && !AnyDependency(steps, run.steps, id, {StepStatus.FAILED, StepStatus.BLOCKED})
    {
      assert DependenciesSucceeded(steps, run.steps, id);
      ReadyOutcome(steps, hash, at, run, id);
    }
  }

  // ---------- a pass ----------

  ghost predicate Processed(steps: Steps, order: seq<string>, i: nat, rows: map<string, MissionStep>)
    requires i <= |order|
  {
    forall j :: 0 <= j < i ==> StepSettled(steps, rows, order[j])
  }

  lemma ProcessedSettlesDependencies(steps: Steps, order: seq<string>, i: nat, rows: map<string, MissionStep>)
    requires DependenciesFirst(steps, order) && i < |order| && Processed(steps, order, i, rows)
    ensures DependenciesSettled(steps, rows, order[i])
  {
    forall d | d in Dependencies(steps, order[i]) ensures d in rows && SettledStatus(rows[d].status) {
      assert d in order[..i];
      var j :| 0 <= j < i && order[j] == d;
      assert StepSettled(steps, rows, order[j]);
    }
  }

  /** Earlier steps stay settled while a later one changes. */
  lemma EarlierStaySettled(steps: Steps, order: seq<string>, i: nat, rows: map<string, MissionStep>, rows': map<string, MissionStep>)
    requires DependenciesFirst(steps, order) && NoDuplicates(order) && i < |order| && Processed(steps, order, i, rows)
    requires forall x :: x in rows && x != order[i] ==> x in rows' && rows'[x] == rows[x]
    ensures Processed(steps, order, i, rows')
    ensures forall d <- Dependencies(steps, order[i]) :: d in rows' && d in rows && rows'[d] == rows[d]
  {
    forall j | 0 <= j < i ensures StepSettled(steps, rows', order[j]) {
      assert StepSettled(steps, rows, order[j]);
      EarlierDependenciesKept(steps, order, j, i, rows, rows');
    }
    EarlierDependenciesKept(steps, order, i, i, rows, rows');
  }

  lemma EarlierDependenciesKept(steps: Steps, order: seq<string>, j: nat, i: nat, rows: map<string, MissionStep>, rows': map<string, MissionStep>)
    requires DependenciesFirst(steps, order) && NoDuplicates(order) && j <= i < |order| && Processed(steps, order, i, rows)
    requires forall x :: x in rows && x != order[i] ==> x in rows' && rows'[x] == rows[x]
    ensures forall d <- Dependencies(steps, order[j]) :: d in rows' && d in rows && rows'[d] == rows[d]
  {
    forall d | d in Dependencies(steps, order[j]) ensures d in rows' && d in rows && rows'[d] == rows[d] {
      assert d in order[..j];
      var n :| 0 <= n < j && order[n] == d;
      assert StepSettled(steps, rows, order[n]);
    }
  }

  lemma StepExtendsProcessed(steps: Steps, hash: KeyHash, world: World, order: seq<string>, i: nat, run: MissionRun)
    requires Injective(hash) && Sound(steps, hash, run) && DependenciesFirst(steps, order) && NoDuplicates(order)
    requires i < |order| && order[i] in run.steps && Processed(steps, order, i, run.steps)
    requires !DriveStep(steps, hash, world(order[i]), run, order[i]).signal.Stop?
    ensures Processed(steps, order, i + 1, DriveStep(steps, hash, world(order[i]), run, order[i]).run.steps)
  {
    var id := order[i];
    var later := DriveStep(steps, hash, world(id), run, id).run;
    ProcessedSettlesDependencies(steps, order, i, run.steps);
    StepOutcome(steps, hash, world(id), run, id);
    DriveStepIsAllowed(steps, hash, world(id), run, id);
    EarlierStaySettled(steps, order, i, run.steps, later.steps);
    assert StepGated(steps, later.steps, id);
  }

  ghost predicate PassEndsWell(steps: Steps, order: seq<string>, run: MissionRun, r: PassResult) {
    match r.outcome
    case Stopped(reason, _) =>
      && reason != WaitingDependency
      && (NoneRunning(run) ==> reason != TransitionRejected)
      && (NoneRunning(run) && reason != Crashed ==> NoneRunning(r.run))
    case _ =>
      && Processed(steps, order, |order|, r.run.steps)
      && (r.outcome == Completed <==> !AnyFailure(r.run))
      && r.run.status == (if r.outcome == Completed then RunStatus.COMPLETED else RunStatus.FAILED)
  }

  /** One step of a pass over settled steps: what it keeps, and why it may stop. */
  lemma StepInPass(steps: Steps, hash: KeyHash, world: World, order: seq<string>, i: nat, run: MissionRun)
    requires Injective(hash) && Sound(steps, hash, run) && IsTopologicalOrder(steps, order) && i < |order|
    requires Processed(steps, order, i, run.steps)
    ensures order[i] in run.steps
    ensures var p := DriveStep(steps, hash, world(order[i]), run, order[i]);
            && Sound(steps, hash, p.run)
            && (!p.signal.Stop? ==> Processed(steps, order, i + 1, p.run.steps))
            && p.signal != Stop(WaitingDependency)
            && (NoneRunning(run) ==> p.signal != Stop(TransitionRejected))
            && (NoneRunning(run) && p.signal != Stop(Crashed) ==> NoneRunning(p.run))
  {
    var id := order[i];
    assert id in Elements(order);
    ProcessedSettlesDependencies(steps, order, i, run.steps);
    StepOutcome(steps, hash, world(id), run, id);
    DriveStepIsAllowed(steps, hash, world(id), run, id);
    NoneRunningKept(run, DriveStep(steps, hash, world(id), run, id).run, id);
    if !DriveStep(steps, hash, world(id), run, id).signal.Stop? {
      StepExtendsProcessed(steps, hash, world, order, i, run);
    }
  }

  lemma DriveFromUnfolds(steps: Steps, hash: KeyHash, world: World, order: seq<string>, i: nat, run: MissionRun,
                         executed: seq<string>, skipped: seq<string>)
    returns (executed': seq<string>, skipped': seq<string>)
    requires i < |order| && order[i] in run.steps
    ensures executed' == if DriveStep(steps, hash, world(order[i]), run, order[i]).signal == Executed then executed + [order[i]] else executed
    ensures skipped' == if DriveStep(steps, hash, world(order[i]), run, order[i]).signal == Skipped then skipped + [order[i]] else skipped
    ensures var p := DriveStep(steps, hash, world(order[i]), run, order[i]);
            DriveFrom(steps, hash, world, order, i, run, executed, skipped) ==
              if p.signal.Stop? then PassResult(p.run, Stopped(p.signal.reason, order[i]), executed, skipped)
              else DriveFrom(steps, hash, world, order, i + 1, p.run, executed', skipped')
  {
    var p := DriveStep(steps, hash, world(order[i]), run, order[i]);
    executed' := if p.signal == Executed then executed + [order[i]] else executed;
    skipped' := if p.signal == Skipped then skipped + [order[i]] else skipped;
  }

  lemma {:induction false} DriveFromEndsWell(steps: Steps, hash: KeyHash, world: World, order: seq<string>, i: nat, run: MissionRun,
                                             executed: seq<string>, skipped: seq<string>)
    requires Injective(hash) && Sound(steps, hash, run) && IsTopologicalOrder(steps, order) && i <= |order|
    requires Processed(steps, order, i, run.steps)
    ensures PassEndsWell(steps, order, run, DriveFrom(steps, hash, world, order, i, run, executed, skipped))
    decreases |order| - i
  {
    if i == |order| {
      FinishEndsWell(steps, order, run, run, executed, skipped);
    } else {
      StepInPass(steps, hash, world, order, i, run);
      var p := DriveStep(steps, hash, world(order[i]), run, order[i]);
      var executed', skipped' := DriveFromUnfolds(steps, hash, world, order, i, run, executed, skipped);
      if !p.signal.Stop? {
        DriveFromEndsWell(steps, hash, world, order, i + 1, p.run, executed', skipped');
        LaterPassEndsWell(steps, order, run, p.run, DriveFrom(steps, hash, world, order, i + 1, p.run, executed', skipped'));
      } else {
        StopEndsWell(steps, order, run, p, order[i], executed, skipped);
      }
    }
  }

  lemma FinishEndsWell(steps: Steps, order: seq<string>, before: MissionRun, run: MissionRun, executed: seq<string>, skipped: seq<string>)
    requires Processed(steps, order, |order|, run.steps)
    ensures PassEndsWell(steps, order, before, FinishPass(run, executed, skipped))
  {
  }

  lemma StopEndsWell(steps: Steps, order: seq<string>, run: MissionRun, p: Progress, id: string, executed: seq<string>, skipped: seq<string>)
    requires p.signal.Stop? && p.signal != Stop(WaitingDependency)
    requires NoneRunning(run) ==> p.signal != Stop(TransitionRejected)
    requires NoneRunning(run) && p.signal != Stop(Crashed) ==> NoneRunning(p.run)
    ensures PassEndsWell(steps, order, run, PassResult(p.run, Stopped(p.signal.reason, id), executed, skipped))
  {
  }

  lemma LaterPassEndsWell(steps: Steps, order: seq<string>, run: MissionRun, next: MissionRun, r: PassResult)
    requires PassEndsWell(steps, order, next, r) && (NoneRunning(run) ==> NoneRunning(next))
    ensures PassEndsWell(steps, order, run, r)
  {
  }

  lemma NoneRunningKept(run: MissionRun, later: MissionRun, id: string)
    requires OthersKept(run, later, id) && later.steps.Keys == run.steps.Keys
    ensures NoneRunning(run) && (id in later.steps ==> later.steps[id].status != StepStatus.RUNNING) ==> NoneRunning(later)
  {
  }
}
