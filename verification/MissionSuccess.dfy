/** What becomes of a step, told by what its pass met: the exact fate of an attempt and of a decided
    approval, and exactly which passes let a step succeed. */
module MissionSuccess {
  import opened Prelude
  import opened Lifecycle
  import opened MissionGraph
  import opened CommandJournals
  import opened MissionRuns
  import opened MissionSafety
  import opened MissionOutcomes
  import opened MissionTheorems
  import opened MissionCrashes

  predicate Startable(status: StepStatus) {
    status in {StepStatus.PENDING, StepStatus.FAILED, StepStatus.BLOCKED}
  }

  // ---------- an attempt ----------

  /** A new attempt has one new command, called if and only if the policy allows it. */
  ghost predicate AttemptLeaves(hash: KeyHash, at: Circumstance, run: MissionRun, p: Progress, id: string)
    requires id in run.steps
  {
    var attempt := run.steps[id].attempt + 1;
    var key := hash(id, attempt);
    && id in p.run.steps && p.run.steps == run.steps[id := p.run.steps[id]]
    && p.run.steps[id].attempt == attempt && p.run.steps[id].command == Some(key)
    && (p.run.steps[id].status == StepStatus.WAITING_APPROVAL <==> at.effect == Some(REQUIRE_APPROVAL))
    && (p.run.steps[id].status == StepStatus.SUCCEEDED <==> at.effect == Some(ALLOW) && at.result == Exited(0) && at.accepted)
    && (p.run.steps[id].status == StepStatus.FAILED <==>
          at.effect != Some(REQUIRE_APPROVAL) && !(at.effect == Some(ALLOW) && at.result == Exited(0) && at.accepted))
    && key !in run.commands && key in p.run.commands && p.run.commands == run.commands[key := p.run.commands[key]]
    && p.run.commands[key].stepId == id && p.run.commands[key].attempt == attempt
    && GovernedAs(p.run.commands[key].status, at.effect, at.result)
    && (p.run.commands[key].hasApproval <==> at.effect == Some(REQUIRE_APPROVAL))
    && p.run.calls == (if at.effect == Some(ALLOW) then run.calls + [key] else run.calls)
    && p.signal == (if at.effect == Some(REQUIRE_APPROVAL) then Stop(WaitingApproval) else Executed)
  }

  lemma CommandFate(run: MissionRun, id: string, key: string, at: Circumstance)
    requires id in run.steps && run.steps[id].status == StepStatus.RUNNING && key !in run.commands && at.crash == Never
    ensures var p := ExecuteCommand(run, id, key, at);
            && id in p.run.steps && p.run.steps == run.steps[id := p.run.steps[id]]
            && p.run.steps[id].attempt == run.steps[id].attempt && p.run.steps[id].command == Some(key)
            && p.run.steps[id].status ==
                 (if at.effect == Some(REQUIRE_APPROVAL) then StepStatus.WAITING_APPROVAL
                  else if at.effect == Some(ALLOW) && at.result == Exited(0) && at.accepted then StepStatus.SUCCEEDED
                  else StepStatus.FAILED)
            && p.run.commands == run.commands[key := MissionCommand(id, run.steps[id].attempt, GovernedStatus(at.effect, at.result),
                                                                    at.effect == Some(REQUIRE_APPROVAL))]
            && p.run.calls == (if at.effect == Some(ALLOW) then run.calls + [key] else run.calls)
            && p.signal == (if at.effect == Some(REQUIRE_APPROVAL) then Stop(WaitingApproval) else Executed)
  {
    StatusesFit(at.effect, at.result);
  }

  /** An attempt that is not interrupted: its command is new, and the policy, the executor and the
      acceptance conditions decide. */
  lemma AttemptFate(steps: Steps, hash: KeyHash, at: Circumstance, run: MissionRun, id: string)
    requires Injective(hash) && Sound(steps, hash, run) && Ready(steps, run, id) && Startable(run.steps[id].status)
    requires CanStart(at) && at.crash == Never
    ensures AttemptLeaves(hash, at, run, DriveStep(steps, hash, at, run, id), id)
  {
    var running := WithStep(run, id, StepStatus.RUNNING, None, true);
    AttemptUnfolds(steps, hash, at, run, id);
    NextKeyIsFresh(hash, run, id);
    StatusesFit(at.effect, at.result);
    CommandFate(running, id, hash(id, run.steps[id].attempt + 1), at);
  }

  // ---------- a decided approval ----------

  /** The decided approval of a waiting step: a usable one runs its command, any other rejects it. */
  ghost predicate ApprovalLeaves(at: Circumstance, run: MissionRun, p: Progress, id: string, key: string)
    requires id in run.steps && key in run.commands
  {
    && id in p.run.steps && p.run.steps == run.steps[id := p.run.steps[id]]
    && p.run.steps[id].attempt == run.steps[id].attempt && p.run.steps[id].command == Some(key)
    && (p.run.steps[id].status == StepStatus.SUCCEEDED <==> at.approval == Usable && at.result == Exited(0) && at.accepted)
    && (p.run.steps[id].status != StepStatus.SUCCEEDED ==> p.run.steps[id].status == StepStatus.FAILED)
    && key in p.run.commands && p.run.commands == run.commands[key := run.commands[key].(status := p.run.commands[key].status)]
    && (if at.approval == Usable then RecordedAs(p.run.commands[key].status, at.result)
        else p.run.commands[key].status == CommandStatus.REJECTED)
    && p.run.calls == (if at.approval == Usable then run.calls + [key] else run.calls)
    && p.signal == Executed
  }

  lemma ApprovalFate(steps: Steps, hash: KeyHash, at: Circumstance, run: MissionRun, id: string)
    requires Sound(steps, hash, run) && Ready(steps, run, id) && run.steps[id].status == StepStatus.WAITING_APPROVAL
    requires at.crash == Never || at.crash == AfterRunning
    ensures run.steps[id].command.Some? && run.steps[id].command.value in run.commands
    ensures var p, key := DriveStep(steps, hash, at, run, id), run.steps[id].command.value;
            if at.approval == Pending then p == Progress(run, Stop(WaitingApproval))
            else if !at.adapterRegistered || run.commands[key].status != CommandStatus.APPROVAL_REQUIRED
            then p == Progress(run, Stop(EngineError))
            else ApprovalLeaves(at, run, p, id, key)
  {
    assert StepLinked(run.steps[id], run.commands, id);
    StatusesFit(Some(ALLOW), at.result);
    var key := run.steps[id].command.value;
    var command := run.commands[key].(status := if at.approval == Usable then RecordedStatus(at.result) else CommandStatus.REJECTED);
    FinishOutcome(CommandAt(run, key, command, at.approval == Usable), id, key, at);
  }

  // ---------- success ----------

  /** What a step must meet to succeed now. */
  ghost predicate Succeeds(steps: Steps, run: MissionRun, id: string, at: Circumstance) {
    && Ready(steps, run, id) && at.result == Exited(0) && at.accepted
    && if run.steps[id].status == StepStatus.WAITING_APPROVAL then
         && at.adapterRegistered && at.approval == Usable && (at.crash == Never || at.crash == AfterRunning)
         && run.steps[id].command.Some? && run.steps[id].command.value in run.commands
         && run.commands[run.steps[id].command.value].status == CommandStatus.APPROVAL_REQUIRED
       else Startable(run.steps[id].status) && CanStart(at) && at.effect == Some(ALLOW) && at.crash == Never
  }

  lemma WaitingSucceedsIff(steps: Steps, hash: KeyHash, at: Circumstance, run: MissionRun, id: string)
    requires Sound(steps, hash, run) && Ready(steps, run, id) && run.steps[id].status == StepStatus.WAITING_APPROVAL
    requires at.crash != BeforeStep
    ensures var p := DriveStep(steps, hash, at, run, id);
            id in p.run.steps && (p.run.steps[id].status == StepStatus.SUCCEEDED <==> Succeeds(steps, run, id, at))
  {
    if at.crash == Never || at.crash == AfterRunning {
      ApprovalFate(steps, hash, at, run, id);
    } else {
      assert StepLinked(run.steps[id], run.commands, id);
    }
  }

  lemma StartedSucceedsIff(steps: Steps, hash: KeyHash, at: Circumstance, run: MissionRun, id: string)
    requires Injective(hash) && Sound(steps, hash, run) && Ready(steps, run, id) && at.crash != BeforeStep
    requires run.steps[id].status != StepStatus.WAITING_APPROVAL
    ensures var p := DriveStep(steps, hash, at, run, id);
            id in p.run.steps && (p.run.steps[id].status == StepStatus.SUCCEEDED <==> Succeeds(steps, run, id, at))
  {
    assert StepGated(steps, run.steps, id);
    if run.steps[id].status == StepStatus.RUNNING {
      RunningStepOutcome(steps, hash, at, run, id);
    } else if !CanStart(at) {
      EarlyFailureOutcome(steps, hash, at, run, id);
    } else if at.crash == Never {
      AttemptFate(steps, hash, at, run, id);
    } else {
      InterruptedStaysRunning(steps, hash, at, run, id);
    }
  }

  lemma SucceedsIff(steps: Steps, hash: KeyHash, at: Circumstance, run: MissionRun, id: string)
    requires Injective(hash) && Sound(steps, hash, run) && id in run.steps && run.steps[id].status != StepStatus.SUCCEEDED
    ensures var p := DriveStep(steps, hash, at, run, id);
            id in p.run.steps && (p.run.steps[id].status == StepStatus.SUCCEEDED <==> Succeeds(steps, run, id, at))
  {
    assert StepGated(steps, run.steps, id);
    if Ready(steps, run, id) && at.crash != BeforeStep {
      if run.steps[id].status == StepStatus.WAITING_APPROVAL {
        WaitingSucceedsIff(steps, hash, at, run, id);
      } else {
        StartedSucceedsIff(steps, hash, at, run, id);
      }
    }
  }

  /** A step newly succeeds in a pass if and only if the pass reaches it, with all dependencies
      succeeded, and its command, allowed by the policy or by a usable approval, exits with code 0
      and its acceptance conditions hold, without a crash. */
  lemma NewlySucceededIff(steps: Steps, hash: KeyHash, world: World, order: seq<string>, run: MissionRun, id: string)
    requires Accepted(steps, hash, order) && Sound(steps, hash, run)
    requires id in run.steps && run.steps[id].status != StepStatus.SUCCEEDED
    ensures var r := Drive(steps, hash, world, order, run);
            var arrival := Arrival(steps, hash, world, order, 0, run, id);
            && id in r.run.steps
            && (r.run.steps[id].status == StepStatus.SUCCEEDED <==>
                  arrival.Some? && Succeeds(steps, arrival.value, id, world(id)))
            && (r.run.steps[id].status == StepStatus.SUCCEEDED ==> world(id).result == Exited(0) && world(id).accepted)
  {
    WholePassMeetsStep(steps, hash, world, order, run, id);
    var arrival := Arrival(steps, hash, world, order, 0, run, id);
    if arrival.Some? {
      SucceedsIff(steps, hash, world(id), arrival.value, id);
    }
  }
}
