/** What a crash inside a step does to the rest of its run: exactly which passes leave a step
    running, that no later pass can start it again, and exactly which pass gives it up. */
module MissionCrashes {
  import opened Prelude
  import opened Lifecycle
  import opened MissionGraph
  import opened CommandJournals
  import opened MissionRuns
  import opened MissionSafety
  import opened MissionOutcomes
  import opened MissionTheorems

  predicate CanStart(at: Circumstance) {
    at.preconditionsHold && at.adapterRegistered
  }

  /** The run as the pass finds it when its turn comes to step id; none if it stops earlier. */
  ghost function Arrival(steps: Steps, hash: KeyHash, world: World, order: seq<string>, i: nat, run: MissionRun, id: string): Option<MissionRun>
    requires i <= |order|
    decreases |order| - i
  {
    if i == |order| then None
    else if order[i] == id then Some(run)
    else if order[i] !in run.steps then None
    else
      var p := DriveStep(steps, hash, world(order[i]), run, order[i]);
      if p.signal.Stop? then None else Arrival(steps, hash, world, order, i + 1, p.run, id)
  }

  /** The pass gets to the step, and past the point before its first transaction. */
  ghost predicate Reaches(steps: Steps, hash: KeyHash, world: World, order: seq<string>, run: MissionRun, id: string) {
    Arrival(steps, hash, world, order, 0, run, id).Some? && world(id).crash != BeforeStep
  }

  // ---------- one pass, seen from one step ----------

  lemma {:induction false} LaterStepsKeepRow(steps: Steps, hash: KeyHash, world: World, order: seq<string>, i: nat, run: MissionRun,
                                             executed: seq<string>, skipped: seq<string>, id: string)
    requires Injective(hash) && Sound(steps, hash, run) && i <= |order| && id in run.steps && id !in order[i..]
    ensures var later := DriveFrom(steps, hash, world, order, i, run, executed, skipped).run;
            id in later.steps && later.steps[id] == run.steps[id]
    decreases |order| - i
  {
    if i < |order| && order[i] in run.steps {
      assert order[i..] == [order[i]] + order[i + 1..];
      var p := DriveStep(steps, hash, world(order[i]), run, order[i]);
      var executed', skipped' := DriveFromUnfolds(steps, hash, world, order, i, run, executed, skipped);
      DriveStepIsAllowed(steps, hash, world(order[i]), run, order[i]);
      if !p.signal.Stop? {
        LaterStepsKeepRow(steps, hash, world, order, i + 1, p.run, executed', skipped', id);
      }
    }
  }

  /** The result of a pass at a step: that of its iteration, or none if the pass stopped before. */
  ghost predicate MeetsStep(steps: Steps, hash: KeyHash, world: World, run: MissionRun, arrival: Option<MissionRun>, id: string, r: PassResult) {
    && id in run.steps && id in r.run.steps
    && match arrival
       case None => r.run.steps[id] == run.steps[id] && r.outcome.Stopped? && r.outcome.step != id
       case Some(m) =>
         && Sound(steps, hash, m) && id in m.steps && m.steps[id] == run.steps[id]
         && var p := DriveStep(steps, hash, world(id), m, id);
            && id in p.run.steps && r.run.steps[id] == p.run.steps[id]
            && (p.signal.Stop? ==> r.outcome == Stopped(p.signal.reason, id))
  }

  lemma ArrivedMeetsStep(steps: Steps, hash: KeyHash, world: World, order: seq<string>, i: nat, run: MissionRun,
                         executed: seq<string>, skipped: seq<string>)
    requires Injective(hash) && Sound(steps, hash, run) && NoDuplicates(order) && i < |order| && order[i] in run.steps
    ensures MeetsStep(steps, hash, world, run, Some(run), order[i], DriveFrom(steps, hash, world, order, i, run, executed, skipped))
  {
    var id := order[i];
    var p := DriveStep(steps, hash, world(id), run, id);
    var executed', skipped' := DriveFromUnfolds(steps, hash, world, order, i, run, executed, skipped);
    DriveStepIsAllowed(steps, hash, world(id), run, id);
    if !p.signal.Stop? {
      RestOf(order, i);
      LaterStepsKeepRow(steps, hash, world, order, i + 1, p.run, executed', skipped', id);
    }
  }

  lemma {:induction false} PassMeetsStep(steps: Steps, hash: KeyHash, world: World, order: seq<string>, i: nat, run: MissionRun,
                                         executed: seq<string>, skipped: seq<string>, id: string)
    requires Injective(hash) && Sound(steps, hash, run) && NoDuplicates(order) && i <= |order|
    requires id in run.steps && id in order[i..]
    ensures MeetsStep(steps, hash, world, run, Arrival(steps, hash, world, order, i, run, id), id,
                      DriveFrom(steps, hash, world, order, i, run, executed, skipped))
    decreases |order| - i
  {
    if order[i] == id {
      ArrivedMeetsStep(steps, hash, world, order, i, run, executed, skipped);
    } else if order[i] in run.steps {
      var p := DriveStep(steps, hash, world(order[i]), run, order[i]);
      var executed', skipped' := DriveFromUnfolds(steps, hash, world, order, i, run, executed, skipped);
      DriveStepIsAllowed(steps, hash, world(order[i]), run, order[i]);
      if !p.signal.Stop? {
        RestOf(order, i);
        PassMeetsStep(steps, hash, world, order, i + 1, p.run, executed', skipped', id);
      }
    }
  }

  lemma WholePassMeetsStep(steps: Steps, hash: KeyHash, world: World, order: seq<string>, run: MissionRun, id: string)
    requires Accepted(steps, hash, order) && Sound(steps, hash, run) && id in run.steps
    ensures MeetsStep(steps, hash, world, run, Arrival(steps, hash, world, order, 0, run, id), id,
                      Drive(steps, hash, world, order, run))
  {
    assert id in Elements(order) && order[0..] == order;
    PassMeetsStep(steps, hash, world, order, 0, run, [], [], id);
  }

  // ---------- how a step is left running ----------

  predicate Interrupting(crash: CrashPoint) {
    crash.AfterRunning? || crash.InsideCommand? || crash.BeforeFinish?
  }

  /** The step is started and its process dies before it is finished. */
  ghost predicate Interrupted(steps: Steps, run: MissionRun, id: string, at: Circumstance) {
    && Ready(steps, run, id) && run.steps[id].status in {StepStatus.PENDING, StepStatus.FAILED, StepStatus.BLOCKED}
    && CanStart(at) && Interrupting(at.crash)
  }

  lemma InterruptedStaysRunning(steps: Steps, hash: KeyHash, at: Circumstance, run: MissionRun, id: string)
    requires Injective(hash) && Sound(steps, hash, run) && Interrupted(steps, run, id, at)
    ensures var p := DriveStep(steps, hash, at, run, id);
            && p.signal == Stop(Crashed) && id in p.run.steps
            && p.run.steps[id] == UpdatedStep(run.steps[id], StepStatus.RUNNING, None, true)
  {
    AttemptUnfolds(steps, hash, at, run, id);
    NextKeyIsFresh(hash, run, id);
  }

  lemma CommandEnds(run: MissionRun, id: string, key: string, at: Circumstance)
    requires id in run.steps && run.steps[id].status == StepStatus.RUNNING && key !in run.commands && at.crash == Never
    ensures var p := ExecuteCommand(run, id, key, at); id in p.run.steps && p.run.steps[id].status != StepStatus.RUNNING
  {
  }

  lemma AttemptEnds(steps: Steps, hash: KeyHash, at: Circumstance, run: MissionRun, id: string)
    requires Injective(hash) && Sound(steps, hash, run) && Ready(steps, run, id) && CanStart(at) && at.crash == Never
    requires run.steps[id].status in {StepStatus.PENDING, StepStatus.FAILED, StepStatus.BLOCKED}
    ensures var p := DriveStep(steps, hash, at, run, id); id in p.run.steps && p.run.steps[id].status != StepStatus.RUNNING
  {
    AttemptUnfolds(steps, hash, at, run, id);
    NextKeyIsFresh(hash, run, id);
    CommandEnds(WithStep(run, id, StepStatus.RUNNING, None, true), id, hash(id, run.steps[id].attempt + 1), at);
  }

  lemma UninterruptedIsNotRunning(steps: Steps, hash: KeyHash, at: Circumstance, run: MissionRun, id: string)
    requires Injective(hash) && Sound(steps, hash, run) && id in run.steps && run.steps[id].status != StepStatus.RUNNING
    requires !Interrupted(steps, run, id, at)
    ensures var p := DriveStep(steps, hash, at, run, id); id in p.run.steps && p.run.steps[id].status != StepStatus.RUNNING
  {
    assert StepGated(steps, run.steps, id) && StepLinked(run.steps[id], run.commands, id);
    if Ready(steps, run, id) && at.crash != BeforeStep {
      if run.steps[id].status == StepStatus.WAITING_APPROVAL {
        WaitingIsNotRunning(run, id, at);
      } else if CanStart(at) {
        AttemptEnds(steps, hash, at, run, id);
      } else {
        EarlyFailureOutcome(steps, hash, at, run, id);
      }
    }
  }

  lemma WaitingIsNotRunning(run: MissionRun, id: string, at: Circumstance)
    requires id in run.steps && run.steps[id].status == StepStatus.WAITING_APPROVAL
    requires StepLinked(run.steps[id], run.commands, id)
    ensures var p := ResumeApproval(run, id, at); id in p.run.steps && p.run.steps[id].status != StepStatus.RUNNING
  {
    ResumeApprovalCases(run, id, run.steps[id].command.value, at);
  }

  /** A pass leaves a step running that was not running before if and only if it starts the step and
      dies between its first and its last transaction. */
  lemma LeftRunningIffInterrupted(steps: Steps, hash: KeyHash, world: World, order: seq<string>, run: MissionRun, id: string)
    requires Accepted(steps, hash, order) && Sound(steps, hash, run)
    requires id in run.steps && run.steps[id].status != StepStatus.RUNNING
    ensures var r := Drive(steps, hash, world, order, run);
            var arrival := Arrival(steps, hash, world, order, 0, run, id);
            && id in r.run.steps
            && (r.run.steps[id].status == StepStatus.RUNNING <==>
                 arrival.Some? && Interrupted(steps, arrival.value, id, world(id)))
            && (r.run.steps[id].status == StepStatus.RUNNING ==>
                 r.outcome == Stopped(Crashed, id) && r.run.steps[id].attempt == run.steps[id].attempt + 1)
  {
    WholePassMeetsStep(steps, hash, world, order, run, id);
    var arrival := Arrival(steps, hash, world, order, 0, run, id);
    if arrival.Some? {
      if Interrupted(steps, arrival.value, id, world(id)) {
        InterruptedStaysRunning(steps, hash, world(id), arrival.value, id);
      } else {
        UninterruptedIsNotRunning(steps, hash, world(id), arrival.value, id);
      }
    }
  }

  /** Such histories exist for every mission: the first pass starts the first step and dies. */
  lemma CrashLeavesRunning(steps: Steps, hash: KeyHash, order: seq<string>, world: World)
    requires Accepted(steps, hash, order) && order != []
    requires CanStart(world(order[0])) && Interrupting(world(order[0]).crash)
    ensures var run := AfterHistory(steps, hash, order, InitialRun(steps), [StartPass(world)]);
            order[0] in run.steps && run.steps[order[0]] == MissionStep(StepStatus.RUNNING, 1, None)
  {
    var run, id := InitialRun(steps), order[0];
    InitialIsSound(steps, hash);
    assert id in Elements(order);
    FirstStepIsReady(steps, order);
    InterruptedStaysRunning(steps, hash, world(id), run, id);
    WholePassMeetsStep(steps, hash, world, order, run, id);
    assert [StartPass(world)][1..] == [];
  }

  lemma FirstStepIsReady(steps: Steps, order: seq<string>)
    requires IsTopologicalOrder(steps, order) && order != []
    ensures Ready(steps, InitialRun(steps), order[0])
  {
    assert order[0] in Elements(order) && order[..0] == [];
    assert forall d <- Dependencies(steps, order[0]) :: d in order[..0];
  }

  // ---------- a step left running ----------

  lemma RunningStepOutcome(steps: Steps, hash: KeyHash, at: Circumstance, run: MissionRun, id: string)
    requires Sound(steps, hash, run) && id in run.steps && run.steps[id].status == StepStatus.RUNNING
    ensures DriveStep(steps, hash, at, run, id) ==
              if at.crash == BeforeStep then Progress(run, Stop(Crashed))
              else if CanStart(at) then Progress(run, Stop(TransitionRejected))
              else Progress(WithStep(run, id, StepStatus.FAILED, None, false), FailedEarly)
  {
    assert StepGated(steps, run.steps, id);
  }

  /** The row of a step that a pass gives up. */
  function GivenUp(row: MissionStep): MissionStep {
    row.(status := StepStatus.FAILED)
  }

  /** A pass over a step left running: if it reaches the step while the preconditions hold and the
      adapter is registered, it stops there with a rejected transition and the row stays; if it
      reaches it otherwise, the step fails; if it does not reach it, it stops and the row stays. */
  lemma RunningStepInPass(steps: Steps, hash: KeyHash, world: World, order: seq<string>, run: MissionRun, id: string)
    requires Accepted(steps, hash, order) && Sound(steps, hash, run)
    requires id in run.steps && run.steps[id].status == StepStatus.RUNNING
    ensures var r := Drive(steps, hash, world, order, run);
            var reached := Reaches(steps, hash, world, order, run, id);
            && id in r.run.steps
            && r.run.steps[id] == (if reached && !CanStart(world(id)) then GivenUp(run.steps[id]) else run.steps[id])
            && (reached && CanStart(world(id)) ==> r.outcome == Stopped(TransitionRejected, id))
            && (!reached ==> r.outcome.Stopped? && r.outcome != Stopped(TransitionRejected, id))
  {
    WholePassMeetsStep(steps, hash, world, order, run, id);
    var arrival := Arrival(steps, hash, world, order, 0, run, id);
    if arrival.Some? {
      RunningStepOutcome(steps, hash, world(id), arrival.value, id);
    }
  }

  // ---------- every later pass ----------

  /** The pass reaches the step while a precondition fails or its adapter is missing. */
  ghost predicate Releases(steps: Steps, hash: KeyHash, order: seq<string>, run: MissionRun, e: HistoryEvent, id: string) {
    match e
    case StartPass(world) => Reaches(steps, hash, world, order, run, id) && !CanStart(world(id))
    case ResumePass(world) => Reaches(steps, hash, world, order, Recovered(run), id) && !CanStart(world(id))
    case CancelCommand(_) => false
  }

  /** A resumed pass that reaches the step is stopped there by the transition guard. */
  ghost predicate Rejects(steps: Steps, hash: KeyHash, order: seq<string>, run: MissionRun, e: HistoryEvent, id: string) {
    e.ResumePass? && Reaches(steps, hash, e.world, order, Recovered(run), id) ==>
      Drive(steps, hash, e.world, order, Recovered(run)).outcome == Stopped(TransitionRejected, id)
  }

  lemma RunningStepInEvent(steps: Steps, hash: KeyHash, order: seq<string>, run: MissionRun, e: HistoryEvent, id: string)
    requires Accepted(steps, hash, order) && Sound(steps, hash, run)
    requires id in run.steps && run.steps[id].status == StepStatus.RUNNING
    ensures var next := AfterEvent(steps, hash, order, run, e);
            var released := Releases(steps, hash, order, run, e, id);
            && Sound(steps, hash, next) && id in next.steps
            && next.steps[id] == (if released then GivenUp(run.steps[id]) else run.steps[id])
            && (!released ==> Rejects(steps, hash, order, run, e, id))
  {
    EventAdvances(steps, hash, order, run, e);
    match e
    case StartPass(world) => RunningStepInPass(steps, hash, world, order, run, id);
    case ResumePass(world) =>
      RecoveryAdvances(steps, hash, run);
      RunningStepInPass(steps, hash, world, order, Recovered(run), id);
    case CancelCommand(_) =>
  }

  /** No event of the history releases the step. */
  ghost predicate NeverReleased(steps: Steps, hash: KeyHash, order: seq<string>, run: MissionRun, history: seq<HistoryEvent>, id: string)
    decreases |history|
  {
    history == [] ||
    (!Releases(steps, hash, order, run, history[0], id) &&
     NeverReleased(steps, hash, order, AfterEvent(steps, hash, order, run, history[0]), history[1..], id))
  }

  /** Every resumed pass of the history that reaches the step is stopped there by the transition guard. */
  ghost predicate AlwaysRejected(steps: Steps, hash: KeyHash, order: seq<string>, run: MissionRun, history: seq<HistoryEvent>, id: string)
    decreases |history|
  {
    history == [] ||
    (Rejects(steps, hash, order, run, history[0], id) &&
     AlwaysRejected(steps, hash, order, AfterEvent(steps, hash, order, run, history[0]), history[1..], id))
  }

  /** While no pass finds a precondition failing or the adapter missing, however often the run is
      resumed, every pass that reaches the step stops there and its row stays as the crash left it. */
  lemma {:induction false} RunningStepIsStuck(steps: Steps, hash: KeyHash, order: seq<string>, run: MissionRun,
                                              history: seq<HistoryEvent>, id: string)
    requires Accepted(steps, hash, order) && Sound(steps, hash, run)
    requires id in run.steps && run.steps[id].status == StepStatus.RUNNING
    requires NeverReleased(steps, hash, order, run, history, id)
    ensures var later := AfterHistory(steps, hash, order, run, history); id in later.steps && later.steps[id] == run.steps[id]
    ensures AlwaysRejected(steps, hash, order, run, history, id)
    decreases |history|
  {
    if history != [] {
      RunningStepInEvent(steps, hash, order, run, history[0], id);
      RunningStepIsStuck(steps, hash, order, AfterEvent(steps, hash, order, run, history[0]), history[1..], id);
    }
  }

  /** After its first n events the history has left the row of the step as it was, and event n, a
      pass that finds a precondition failing or the adapter missing, makes the step failed. */
  ghost predicate ReleasedAt(steps: Steps, hash: KeyHash, order: seq<string>, run: MissionRun, history: seq<HistoryEvent>, n: nat, id: string)
    requires id in run.steps && n < |history|
  {
    var before := AfterHistory(steps, hash, order, run, history[..n]);
    var after := AfterEvent(steps, hash, order, before, history[n]);
    && id in before.steps && before.steps[id] == run.steps[id] && Releases(steps, hash, order, before, history[n], id)
    && id in after.steps && after.steps[id] == GivenUp(run.steps[id])
  }

  lemma {:induction false} ReleasedOnce(steps: Steps, hash: KeyHash, order: seq<string>, run: MissionRun,
                                        history: seq<HistoryEvent>, id: string) returns (n: nat)
    requires Accepted(steps, hash, order) && Sound(steps, hash, run)
    requires id in run.steps && run.steps[id].status == StepStatus.RUNNING
    requires !NeverReleased(steps, hash, order, run, history, id)
    ensures n < |history| && ReleasedAt(steps, hash, order, run, history, n, id)
    decreases |history|
  {
    RunningStepInEvent(steps, hash, order, run, history[0], id);
    if Releases(steps, hash, order, run, history[0], id) {
      n := 0;
      assert history[..0] == [];
    } else {
      var m := ReleasedOnce(steps, hash, order, AfterEvent(steps, hash, order, run, history[0]), history[1..], id);
      n := m + 1;
      assert history[..n][0] == history[0] && history[..n][1..] == history[1..][..m];
    }
  }

  lemma {:induction false} PrefixNeverReleased(steps: Steps, hash: KeyHash, order: seq<string>, run: MissionRun,
                                               history: seq<HistoryEvent>, n: nat, id: string)
    requires NeverReleased(steps, hash, order, run, history, id) && n <= |history|
    ensures NeverReleased(steps, hash, order, run, history[..n], id)
    decreases |history|
  {
    if n > 0 {
      assert history[..n][0] == history[0] && history[..n][1..] == history[1..][..n - 1];
      PrefixNeverReleased(steps, hash, order, AfterEvent(steps, hash, order, run, history[0]), history[1..], n - 1, id);
    }
  }

  ghost predicate StillRunning(steps: Steps, hash: KeyHash, order: seq<string>, run: MissionRun, history: seq<HistoryEvent>, id: string) {
    var later := AfterHistory(steps, hash, order, run, history);
    id in later.steps && later.steps[id].status == StepStatus.RUNNING
  }

  /** A step left running by a crash ever leaves that status, in any continuation of any history, if
      and only if some pass reaches it while a precondition fails or its adapter is missing; and that
      pass leaves it failed, with the same attempt. */
  lemma LeavesRunningIffReleased(steps: Steps, hash: KeyHash, order: seq<string>, past: seq<HistoryEvent>,
                                 future: seq<HistoryEvent>, id: string)
    requires Accepted(steps, hash, order)
    requires StillRunning(steps, hash, order, InitialRun(steps), past, id)
    ensures var run := AfterHistory(steps, hash, order, InitialRun(steps), past);
            (exists n :: 0 <= n <= |future| && !StillRunning(steps, hash, order, run, future[..n], id)) <==>
            (exists n :: 0 <= n < |future| && ReleasedAt(steps, hash, order, run, future, n, id))
  {
    var run := AfterHistory(steps, hash, order, InitialRun(steps), past);
    HistoryIsSound(steps, hash, order, past);
    if NeverReleased(steps, hash, order, run, future, id) {
      forall n | 0 <= n <= |future| ensures StillRunning(steps, hash, order, run, future[..n], id) {
        PrefixNeverReleased(steps, hash, order, run, future, n, id);
        RunningStepIsStuck(steps, hash, order, run, future[..n], id);
      }
      forall n | 0 <= n < |future| ensures !ReleasedAt(steps, hash, order, run, future, n, id) {
        NextStillRunning(steps, hash, order, run, future, n, id);
      }
    } else {
      var n := ReleasedOnce(steps, hash, order, run, future, id);
      HistorySnoc(steps, hash, order, run, future[..n], future[n]);
      assert future[..n + 1] == future[..n] + [future[n]];
      assert !StillRunning(steps, hash, order, run, future[..n + 1], id);
    }
  }

  lemma {:induction false} HistorySnoc(steps: Steps, hash: KeyHash, order: seq<string>, run: MissionRun, history: seq<HistoryEvent>, e: HistoryEvent)
    ensures AfterHistory(steps, hash, order, run, history + [e]) ==
              AfterEvent(steps, hash, order, AfterHistory(steps, hash, order, run, history), e)
    decreases |history|
  {
    if history == [] {
      assert [] + [e] == [e] && [e][1..] == [];
    } else {
      HistorySnoc(steps, hash, order, AfterEvent(steps, hash, order, run, history[0]), history[1..], e);
      assert (history + [e])[1..] == history[1..] + [e];
    }
  }

  lemma NextStillRunning(steps: Steps, hash: KeyHash, order: seq<string>, run: MissionRun, history: seq<HistoryEvent>, n: nat, id: string)
    requires Accepted(steps, hash, order) && Sound(steps, hash, run) && n < |history|
    requires id in run.steps && run.steps[id].status == StepStatus.RUNNING
    requires NeverReleased(steps, hash, order, run, history, id)
    ensures !ReleasedAt(steps, hash, order, run, history, n, id)
  {
    PrefixNeverReleased(steps, hash, order, run, history, n + 1, id);
    RunningStepIsStuck(steps, hash, order, run, history[..n + 1], id);
    HistorySnoc(steps, hash, order, run, history[..n], history[n]);
    assert history[..n + 1] == history[..n] + [history[n]];
  }
}
