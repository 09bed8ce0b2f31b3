/** What the mission engine guarantees over any sequence of passes, cancellations and crashes. */
module MissionTheorems {
  import opened Prelude
  import opened Lifecycle
  import opened MissionGraph
  import opened CommandJournals
  import opened MissionRuns
  import opened MissionSafety
  import opened MissionOutcomes

  /** A mission that its validation accepted, with the order that the engine drives it in. */
  ghost predicate Accepted(steps: Steps, hash: KeyHash, order: seq<string>) {
    IsTopologicalOrder(steps, order) && Injective(hash)
  }

  lemma HistoryIsSound(steps: Steps, hash: KeyHash, order: seq<string>, history: seq<HistoryEvent>)
    requires Accepted(steps, hash, order)
    ensures Sound(steps, hash, AfterHistory(steps, hash, order, InitialRun(steps), history))
  {
    InitialIsSound(steps, hash);
    HistoryAdvances(steps, hash, order, InitialRun(steps), history);
  }

  // ---------- dependencies ----------

  /** At any time, a step that was started, or failed, has only succeeded dependencies, and no step is
      ever skipped. */
  lemma StartedStepsHaveSucceededDependencies(steps: Steps, hash: KeyHash, order: seq<string>, history: seq<HistoryEvent>, id: string)
    requires Accepted(steps, hash, order) && id in IdSet(steps)
    ensures var rows := AfterHistory(steps, hash, order, InitialRun(steps), history).steps;
            && id in rows && rows[id].status != StepStatus.SKIPPED
            && (rows[id].status !in {StepStatus.PENDING, StepStatus.BLOCKED} ==> DependenciesSucceeded(steps, rows, id))
  {
    HistoryIsSound(steps, hash, order, history);
    var run := AfterHistory(steps, hash, order, InitialRun(steps), history);
    assert StepGated(steps, run.steps, id);
  }

  /** A pass that finds no step left running by a crash never meets the transition guard, leaves no
      step running unless it crashes itself, and no pass ever waits for a dependency. */
  lemma PassesStopOnlyForApprovalsAndErrors(steps: Steps, hash: KeyHash, order: seq<string>, history: seq<HistoryEvent>, world: World)
    requires Accepted(steps, hash, order)
    ensures var run := AfterHistory(steps, hash, order, InitialRun(steps), history);
            var r := Drive(steps, hash, world, order, Recovered(run));
            && (r.outcome.Stopped? ==> r.outcome.reason != WaitingDependency)
            && (NoneRunning(run) && r.outcome.Stopped? ==> r.outcome.reason != TransitionRejected)
            && (NoneRunning(run) && (r.outcome.Stopped? ==> r.outcome.reason != Crashed) ==> NoneRunning(r.run))
  {
    var run := AfterHistory(steps, hash, order, InitialRun(steps), history);
    HistoryIsSound(steps, hash, order, history);
    RecoveryAdvances(steps, hash, run);
    DriveFromEndsWell(steps, hash, world, order, 0, Recovered(run), [], []);
    var r := Drive(steps, hash, world, order, Recovered(run));
    if !r.outcome.Stopped? {
      DriveFromAdvances(steps, hash, world, order, 0, Recovered(run), [], []);
      ProcessedIsNotRunning(steps, order, r.run);
    }
  }

  lemma ProcessedIsNotRunning(steps: Steps, order: seq<string>, run: MissionRun)
    requires IsTopologicalOrder(steps, order) && run.steps.Keys == IdSet(steps) && Processed(steps, order, |order|, run.steps)
    ensures NoneRunning(run)
  {
    forall id | id in run.steps ensures StepSettled(steps, run.steps, id) {
      assert id in Elements(order);
      var i :| 0 <= i < |order| && order[i] == id;
    }
  }

  // ---------- a complete pass ----------

  lemma {:induction false} ChainToFailureBlocks(steps: Steps, rows: map<string, MissionStep>, p: seq<string>)
    requires IsChain(steps, p) && forall id :: id in IdSet(steps) ==> StepSettled(steps, rows, id)
    requires p[|p| - 1] in rows && rows[p[|p| - 1]].status == StepStatus.FAILED
    ensures p[0] in rows && rows[p[0]].status == StepStatus.BLOCKED
    decreases |p|
  {
    assert DependsOn(steps, p[0], p[1]);
    if |p| > 2 {
      assert IsChain(steps, p[1..]) by {
        forall k | 0 < k < |p| - 1 ensures DependsOn(steps, p[1..][k - 1], p[1..][k]) {
          assert DependsOn(steps, p[k], p[k + 1]);
        }
      }
      ChainToFailureBlocks(steps, rows, p[1..]);
    }
    assert StepSettled(steps, rows, p[0]);
  }

  lemma ChainCons(steps: Steps, id: string, d: string, p: seq<string>)
    requires DependsOn(steps, id, d) && IsChain(steps, p) && p[0] == d
    ensures var q := [id] + p; IsChain(steps, q) && q[0] == id && q[|q| - 1] == p[|p| - 1]
  {
    var q := [id] + p;
    forall k | 0 < k < |q| ensures DependsOn(steps, q[k - 1], q[k]) {
      if k > 1 { assert DependsOn(steps, p[k - 2], p[k - 1]); }
    }
  }

  /** A blocked step has an earlier dependency that is failed or blocked. */
  lemma BlockedHasDependency(steps: Steps, order: seq<string>, rows: map<string, MissionStep>, i: nat) returns (d: string, j: nat)
    requires DependenciesFirst(steps, order) && i < |order| && StepSettled(steps, rows, order[i])
    requires rows[order[i]].status == StepStatus.BLOCKED
    ensures DependsOn(steps, order[i], d) && d in rows && rows[d].status in {StepStatus.FAILED, StepStatus.BLOCKED}
    ensures j < i && order[j] == d
  {
    d :| d in Dependencies(steps, order[i]) && d in rows && rows[d].status in {StepStatus.FAILED, StepStatus.BLOCKED};
    assert d in order[..i];
    j :| 0 <= j < i && order[j] == d;
  }

  lemma ChainOfTwo(steps: Steps, id: string, d: string)
    requires DependsOn(steps, id, d)
    ensures IsChain(steps, [id, d])
  {
  }

  /** A chain of dependencies from the step to a failed one. */
  ghost predicate LeadsToFailure(steps: Steps, rows: map<string, MissionStep>, id: string, p: seq<string>) {
    IsChain(steps, p) && p[0] == id && p[|p| - 1] in rows && rows[p[|p| - 1]].status == StepStatus.FAILED
  }

  /** Every blocked step depends, directly or through blocked steps, on a failed one. */
  lemma {:induction false} BlockedHasFailure(steps: Steps, order: seq<string>, rows: map<string, MissionStep>, i: nat)
    returns (p: seq<string>)
    requires DependenciesFirst(steps, order) && Processed(steps, order, |order|, rows)
    requires i < |order| && order[i] in rows && rows[order[i]].status == StepStatus.BLOCKED
    ensures LeadsToFailure(steps, rows, order[i], p)
    decreases i
  {
    assert StepSettled(steps, rows, order[i]);
    var d, j := BlockedHasDependency(steps, order, rows, i);
    if rows[d].status == StepStatus.FAILED {
      ChainOfTwo(steps, order[i], d);
      p := [order[i], d];
    } else {
      var rest := BlockedHasFailure(steps, order, rows, j);
      ChainCons(steps, order[i], d, rest);
      p := [order[i]] + rest;
    }
  }

  /** Every step is succeeded, failed or blocked; the blocked steps are exactly those that depend,
      directly or not, on a failed step; and the run is completed if and only if all steps
      succeeded, failed otherwise. */
  ghost predicate CompleteRun(steps: Steps, run: MissionRun) {
    && run.steps.Keys == IdSet(steps)
    && (forall id :: id in run.steps ==> SettledStatus(run.steps[id].status))
    && (forall id :: id in run.steps ==> (run.steps[id].status == StepStatus.BLOCKED <==> DependsOnFailure(steps, run.steps, id)))
    && (run.status == RunStatus.COMPLETED <==> forall id :: id in run.steps ==> run.steps[id].status == StepStatus.SUCCEEDED)
    && (run.status != RunStatus.COMPLETED ==> run.status == RunStatus.FAILED)
  }

  /** Whatever happened before, a pass that goes to the end leaves a complete run. */
  lemma CompletePassBlocksExactlyDependents(steps: Steps, hash: KeyHash, order: seq<string>, history: seq<HistoryEvent>, world: World)
    requires Accepted(steps, hash, order)
    requires !Drive(steps, hash, world, order, Recovered(AfterHistory(steps, hash, order, InitialRun(steps), history))).outcome.Stopped?
    ensures CompleteRun(steps, Drive(steps, hash, world, order, Recovered(AfterHistory(steps, hash, order, InitialRun(steps), history))).run)
  {
    var before := Recovered(AfterHistory(steps, hash, order, InitialRun(steps), history));
    HistoryIsSound(steps, hash, order, history);
    RecoveryAdvances(steps, hash, AfterHistory(steps, hash, order, InitialRun(steps), history));
    CompletePassFromSound(steps, hash, order, before, world);
  }

  lemma CompletePassFromSound(steps: Steps, hash: KeyHash, order: seq<string>, run: MissionRun, world: World)
    requires Accepted(steps, hash, order) && Sound(steps, hash, run) && !Drive(steps, hash, world, order, run).outcome.Stopped?
    ensures CompleteRun(steps, Drive(steps, hash, world, order, run).run)
  {
    DriveFromEndsWell(steps, hash, world, order, 0, run, [], []);
    DriveFromAdvances(steps, hash, world, order, 0, run, [], []);
    ProcessedRunIsComplete(steps, order, Drive(steps, hash, world, order, run).run);
  }

  lemma ProcessedRunIsComplete(steps: Steps, order: seq<string>, run: MissionRun)
    requires IsTopologicalOrder(steps, order) && run.steps.Keys == IdSet(steps) && Processed(steps, order, |order|, run.steps)
    requires run.status == if AnyFailure(run) then RunStatus.FAILED else RunStatus.COMPLETED
    ensures CompleteRun(steps, run)
  {
    AllSettled(steps, order, run);
    forall id | id in run.steps
      ensures SettledStatus(run.steps[id].status)
      ensures run.steps[id].status == StepStatus.BLOCKED <==> DependsOnFailure(steps, run.steps, id)
    {
      BlockedIffDependsOnFailure(steps, order, run.steps, id);
      assert StepSettled(steps, run.steps, id);
    }
  }

  ghost predicate DependsOnFailure(steps: Steps, rows: map<string, MissionStep>, id: string) {
    exists f :: f in rows && rows[f].status == StepStatus.FAILED && DependsTransitively(steps, id, f)
  }

  lemma AllSettled(steps: Steps, order: seq<string>, run: MissionRun)
    requires IsTopologicalOrder(steps, order) && Processed(steps, order, |order|, run.steps)
    ensures forall id :: id in IdSet(steps) ==> StepSettled(steps, run.steps, id)
  {
    forall id | id in IdSet(steps) ensures StepSettled(steps, run.steps, id) {
      assert id in Elements(order);
      var i :| 0 <= i < |order| && order[i] == id;
    }
  }

  lemma BlockedIffDependsOnFailure(steps: Steps, order: seq<string>, rows: map<string, MissionStep>, id: string)
    requires IsTopologicalOrder(steps, order) && Processed(steps, order, |order|, rows) && id in IdSet(steps)
    requires forall x :: x in IdSet(steps) ==> StepSettled(steps, rows, x)
    ensures id in rows && (rows[id].status == StepStatus.BLOCKED <==> DependsOnFailure(steps, rows, id))
  {
    assert StepSettled(steps, rows, id);
    if rows[id].status == StepStatus.BLOCKED {
      assert id in Elements(order);
      var i :| 0 <= i < |order| && order[i] == id;
      var p := BlockedHasFailure(steps, order, rows, i);
      assert DependsTransitively(steps, id, p[|p| - 1]);
    } else if DependsOnFailure(steps, rows, id) {
      var f :| f in rows && rows[f].status == StepStatus.FAILED && DependsTransitively(steps, id, f);
      var p :| IsChain(steps, p) && p[0] == id && p[|p| - 1] == f;
      ChainToFailureBlocks(steps, rows, p);
      assert false;
    }
  }

  // ---------- the reported steps ----------

  ghost predicate WasSucceeded(run: MissionRun, id: string) {
    id in run.steps && run.steps[id].status == StepStatus.SUCCEEDED
  }

  /** What the signal of a step that does not stop the pass says about its row. */
  lemma SignalMeaning(steps: Steps, hash: KeyHash, at: Circumstance, run: MissionRun, id: string)
    requires Sound(steps, hash, run) && id in run.steps && DependenciesSettled(steps, run.steps, id)
    requires !DriveStep(steps, hash, at, run, id).signal.Stop?
    ensures var p := DriveStep(steps, hash, at, run, id);
            && id in p.run.steps
            && (p.signal == Skipped <==> WasSucceeded(run, id)) && (p.signal == Skipped ==> p.run == run)
            && (p.signal == Executed ==> p.run.steps[id].status in {StepStatus.SUCCEEDED, StepStatus.FAILED})
            && (p.signal != Executed && p.signal != Skipped ==> p.run.steps[id].status != StepStatus.SUCCEEDED)
  {
    assert StepGated(steps, run.steps, id);
    if run.steps[id].status != StepStatus.SUCCEEDED && !AnyDependency(steps, run.steps, id, {StepStatus.FAILED, StepStatus.BLOCKED}) {
      assert DependenciesSucceeded(steps, run.steps, id);
      ReadyOutcome(steps, hash, at, run, id);
    }
  }

  /** Steps that are not among the remaining ones keep their rows. */
  ghost predicate KeepsPast(rest: seq<string>, run: MissionRun, later: MissionRun) {
    forall x :: x in run.steps && x !in rest ==> x in later.steps && later.steps[x] == run.steps[x]
  }

  /** The skipped steps are those that had succeeded before. */
  ghost predicate SkipsSucceeded(rest: seq<string>, run: MissionRun, skipped: seq<string>, r: PassResult) {
    forall x :: x in r.skipped <==> x in skipped || (x in rest && WasSucceeded(run, x))
  }

  /** The executed steps had not succeeded before, and ended succeeded or failed. */
  ghost predicate ExecutesOthers(rest: seq<string>, run: MissionRun, executed: seq<string>, r: PassResult) {
    forall x :: x in r.executed && x !in executed ==>
      x in rest && !WasSucceeded(run, x) && x in r.run.steps && r.run.steps[x].status in {StepStatus.SUCCEEDED, StepStatus.FAILED}
  }

  /** A step that newly succeeded was executed. */
  ghost predicate ReportsNew(rest: seq<string>, run: MissionRun, executed: seq<string>, r: PassResult) {
    && (forall x :: x in executed ==> x in r.executed)
    && (forall x :: x in rest && !WasSucceeded(run, x) && WasSucceeded(r.run, x) ==> x in r.executed)
  }

  ghost predicate Reports(rest: seq<string>, run: MissionRun, executed: seq<string>, skipped: seq<string>, r: PassResult) {
    && KeepsPast(rest, run, r.run) && SkipsSucceeded(rest, run, skipped, r)
    && ExecutesOthers(rest, run, executed, r) && ReportsNew(rest, run, executed, r)
  }

  /** What one step does to its row and to the two lists. */
  ghost predicate Signals(run: MissionRun, p: Progress, id: string) {
    && OthersKept(run, p.run, id) && p.run.steps.Keys == run.steps.Keys && id in run.steps && id in p.run.steps
    && (p.signal == Skipped <==> WasSucceeded(run, id))
    && (p.signal == Skipped ==> p.run == run)
    && (p.signal == Executed ==> p.run.steps[id].status in {StepStatus.SUCCEEDED, StepStatus.FAILED})
    && (p.signal != Executed && p.signal != Skipped ==> p.run.steps[id].status != StepStatus.SUCCEEDED)
  }

  lemma OthersSucceededBefore(run: MissionRun, p: Progress, id: string, x: string)
    requires Signals(run, p, id) && x != id
    ensures WasSucceeded(p.run, x) <==> WasSucceeded(run, x)
  {
  }

  lemma ReportsSkippedStep(rest: seq<string>, run: MissionRun, p: Progress, id: string, skipped: seq<string>, r: PassResult)
    requires Signals(run, p, id) && id !in rest
    requires SkipsSucceeded(rest, p.run, if p.signal == Skipped then skipped + [id] else skipped, r)
    ensures SkipsSucceeded([id] + rest, run, skipped, r)
  {
    forall x ensures x in r.skipped <==> x in skipped || (x in [id] + rest && WasSucceeded(run, x)) {
      if x != id { OthersSucceededBefore(run, p, id, x); }
    }
  }

  lemma ReportsExecutedStep(rest: seq<string>, run: MissionRun, p: Progress, id: string, executed: seq<string>, r: PassResult)
    requires Signals(run, p, id) && id !in rest && KeepsPast(rest, p.run, r.run)
    requires ExecutesOthers(rest, p.run, if p.signal == Executed then executed + [id] else executed, r)
    requires ReportsNew(rest, p.run, if p.signal == Executed then executed + [id] else executed, r)
    ensures ExecutesOthers([id] + rest, run, executed, r)
  {
    forall x | x in r.executed && x !in executed
      ensures x in [id] + rest && !WasSucceeded(run, x) && x in r.run.steps
              && r.run.steps[x].status in {StepStatus.SUCCEEDED, StepStatus.FAILED}
    {
      if x != id { OthersSucceededBefore(run, p, id, x); }
    }
  }

  lemma ReportsNewStep(rest: seq<string>, run: MissionRun, p: Progress, id: string, executed: seq<string>, r: PassResult)
    requires Signals(run, p, id) && id !in rest && KeepsPast(rest, p.run, r.run)
    requires ReportsNew(rest, p.run, if p.signal == Executed then executed + [id] else executed, r)
    ensures ReportsNew([id] + rest, run, executed, r)
  {
    forall x | x in [id] + rest && !WasSucceeded(run, x) && WasSucceeded(r.run, x) ensures x in r.executed {
      if x != id { OthersSucceededBefore(run, p, id, x); }
    }
  }

  lemma ReportsStep(rest: seq<string>, run: MissionRun, p: Progress, id: string, executed: seq<string>, skipped: seq<string>, r: PassResult)
    requires Signals(run, p, id) && id !in rest
    requires Reports(rest, p.run, if p.signal == Executed then executed + [id] else executed,
                     if p.signal == Skipped then skipped + [id] else skipped, r)
    ensures Reports([id] + rest, run, executed, skipped, r)
  {
    ReportsSkippedStep(rest, run, p, id, skipped, r);
    ReportsExecutedStep(rest, run, p, id, executed, r);
    ReportsNewStep(rest, run, p, id, executed, r);
  }

  lemma StepSignals(steps: Steps, hash: KeyHash, world: World, order: seq<string>, i: nat, run: MissionRun)
    requires Accepted(steps, hash, order) && Sound(steps, hash, run) && i < |order| && Processed(steps, order, i, run.steps)
    ensures order[i] in run.steps
    ensures var p := DriveStep(steps, hash, world(order[i]), run, order[i]);
            !p.signal.Stop? ==> Signals(run, p, order[i]) && Sound(steps, hash, p.run) && Processed(steps, order, i + 1, p.run.steps)
  {
    StepInPass(steps, hash, world, order, i, run);
    ProcessedSettlesDependencies(steps, order, i, run.steps);
    DriveStepIsAllowed(steps, hash, world(order[i]), run, order[i]);
    if !DriveStep(steps, hash, world(order[i]), run, order[i]).signal.Stop? {
      SignalMeaning(steps, hash, world(order[i]), run, order[i]);
    }
  }

  lemma FinishReports(run: MissionRun, executed: seq<string>, skipped: seq<string>)
    ensures Reports([], run, executed, skipped, FinishPass(run, executed, skipped))
  {
  }

  lemma RestOf(order: seq<string>, i: nat)
    requires NoDuplicates(order) && i < |order|
    ensures order[i..] == [order[i]] + order[i + 1..] && order[i] !in order[i + 1..]
  {
  }

  lemma {:induction false} DriveFromReports(steps: Steps, hash: KeyHash, world: World, order: seq<string>, i: nat, run: MissionRun,
                                            executed: seq<string>, skipped: seq<string>)
    requires Accepted(steps, hash, order) && Sound(steps, hash, run) && i <= |order| && Processed(steps, order, i, run.steps)
    requires !DriveFrom(steps, hash, world, order, i, run, executed, skipped).outcome.Stopped?
    ensures Reports(order[i..], run, executed, skipped, DriveFrom(steps, hash, world, order, i, run, executed, skipped))
    decreases |order| - i
  {
    if i == |order| {
      assert order[i..] == [];
      FinishReports(run, executed, skipped);
    } else {
      StepSignals(steps, hash, world, order, i, run);
      var p := DriveStep(steps, hash, world(order[i]), run, order[i]);
      var executed', skipped' := DriveFromUnfolds(steps, hash, world, order, i, run, executed, skipped);
      DriveFromReports(steps, hash, world, order, i + 1, p.run, executed', skipped');
      RestOf(order, i);
      ReportsStep(order[i + 1..], run, p, order[i], executed, skipped,
                  DriveFrom(steps, hash, world, order, i + 1, p.run, executed', skipped'));
    }
  }

  /** A complete pass reports as skipped exactly the steps that had succeeded before it, and as
      executed only others, among them all that newly succeeded. */
  lemma CompletePassReportsSteps(steps: Steps, hash: KeyHash, order: seq<string>, history: seq<HistoryEvent>, world: World)
    requires Accepted(steps, hash, order)
    requires !Drive(steps, hash, world, order, Recovered(AfterHistory(steps, hash, order, InitialRun(steps), history))).outcome.Stopped?
    ensures var before := Recovered(AfterHistory(steps, hash, order, InitialRun(steps), history));
            Reports(order, before, [], [], Drive(steps, hash, world, order, before))
  {
    HistoryIsSound(steps, hash, order, history);
    RecoveryAdvances(steps, hash, AfterHistory(steps, hash, order, InitialRun(steps), history));
    DriveFromReports(steps, hash, world, order, 0, Recovered(AfterHistory(steps, hash, order, InitialRun(steps), history)), [], []);
    assert order[0..] == order;
  }

  // ---------- executor calls ----------

  /** Once a step succeeded, whatever happens later, its row never changes and its executor is never
      called again. */
  lemma SucceededStepsNeverRunAgain(steps: Steps, hash: KeyHash, order: seq<string>, history: seq<HistoryEvent>,
                                    later: seq<HistoryEvent>, id: string, i: nat)
    requires Accepted(steps, hash, order)
    requires var run := AfterHistory(steps, hash, order, InitialRun(steps), history);
             id in run.steps && run.steps[id].status == StepStatus.SUCCEEDED
    ensures var run := AfterHistory(steps, hash, order, InitialRun(steps), history);
            var end := AfterHistory(steps, hash, order, run, later);
            && id in end.steps && end.steps[id] == run.steps[id] && run.calls <= end.calls
            && (|run.calls| <= i < |end.calls| ==> end.calls[i] in end.commands && end.commands[end.calls[i]].stepId != id)
  {
    var run := AfterHistory(steps, hash, order, InitialRun(steps), history);
    var end := AfterHistory(steps, hash, order, run, later);
    HistoryIsSound(steps, hash, order, history);
    HistoryAdvances(steps, hash, order, run, later);
    assert RowAdvances(run.steps[id], end.steps[id]);
    assert |run.calls| <= i < |end.calls| ==> NewCall(run, end, end.calls[i]);
  }

  /** The number of executor calls for a step. */
  ghost function CallCount(commands: map<string, MissionCommand>, calls: seq<string>, id: string): nat {
    if calls == [] then 0
    else
      var key := calls[|calls| - 1];
      CallCount(commands, calls[..|calls| - 1], id) + if key in commands && commands[key].stepId == id then 1 else 0
  }

  ghost function AttemptsCalled(hash: KeyHash, calls: seq<string>, id: string, bound: nat): set<nat> {
    set m: nat | 1 <= m <= bound && hash(id, m) in calls
  }

  lemma {:induction false} RangeCount(s: set<nat>, bound: nat)
    requires forall m :: m in s ==> 1 <= m <= bound
    ensures |s| <= bound
  {
    if bound == 0 {
      assert s == {};
    } else {
      RangeCount(s - {bound}, bound - 1);
      assert |s - {bound}| >= |s| - 1;
    }
  }

  /** One more call for the step is one more of its attempts. */
  lemma CallAddsAttempt(hash: KeyHash, run: MissionRun, n: nat, id: string)
    requires Keyed(hash, run) && CallsSound(run) && n < |run.calls| && id in run.steps
    ensures var s := AttemptsCalled(hash, run.calls[..n], id, run.steps[id].attempt);
            var t := AttemptsCalled(hash, run.calls[..n + 1], id, run.steps[id].attempt);
            |t| >= |s| + if run.calls[n] in run.commands && run.commands[run.calls[n]].stepId == id then 1 else 0
  {
    var key, bound := run.calls[n], run.steps[id].attempt;
    assert CommandKeyed(hash, run, key);
    assert run.calls[..n + 1] == run.calls[..n] + [key];
    var s, t := AttemptsCalled(hash, run.calls[..n], id, bound), AttemptsCalled(hash, run.calls[..n + 1], id, bound);
    assert s <= t;
    if run.commands[key].stepId == id {
      var m := run.commands[key].attempt;
      assert m in t && m !in s;
      SubsetCount(s + {m}, t);
    } else {
      SubsetCount(s, t);
    }
  }

  lemma {:induction false} CallsAreAttempts(hash: KeyHash, run: MissionRun, n: nat, id: string)
    requires Keyed(hash, run) && CallsSound(run) && n <= |run.calls| && id in run.steps
    ensures CallCount(run.commands, run.calls[..n], id) <= |AttemptsCalled(hash, run.calls[..n], id, run.steps[id].attempt)|
  {
    if n > 0 {
      CallsAreAttempts(hash, run, n - 1, id);
      CallAddsAttempt(hash, run, n - 1, id);
      assert run.calls[..n][..n - 1] == run.calls[..n - 1];
    }
  }

  /** No two executor calls are for the same command, and a step has at most as many calls as its
      attempt counter says. */
  lemma CallsNeverExceedAttempts(steps: Steps, hash: KeyHash, order: seq<string>, history: seq<HistoryEvent>, id: string)
    requires Accepted(steps, hash, order) && id in IdSet(steps)
    ensures var run := AfterHistory(steps, hash, order, InitialRun(steps), history);
            && (forall i, j :: 0 <= i < j < |run.calls| ==> run.calls[i] != run.calls[j])
            && id in run.steps && CallCount(run.commands, run.calls, id) <= run.steps[id].attempt
  {
    var run := AfterHistory(steps, hash, order, InitialRun(steps), history);
    HistoryIsSound(steps, hash, order, history);
    CallsAreAttempts(hash, run, |run.calls|, id);
    assert run.calls[..|run.calls|] == run.calls;
    RangeCount(AttemptsCalled(hash, run.calls, id, run.steps[id].attempt), run.steps[id].attempt);
  }

  /** The engine always asks the journal for a command with a new key, so it is never answered with
      an old command. */
  lemma JournalNeverReportsDuplicate(steps: Steps, hash: KeyHash, order: seq<string>, history: seq<HistoryEvent>, id: string)
    requires Accepted(steps, hash, order) && id in IdSet(steps)
    ensures var run := AfterHistory(steps, hash, order, InitialRun(steps), history);
            id in run.steps && hash(id, run.steps[id].attempt + 1) !in run.commands
  {
    HistoryIsSound(steps, hash, order, history);
    NextKeyIsFresh(hash, AfterHistory(steps, hash, order, InitialRun(steps), history), id);
  }
}
