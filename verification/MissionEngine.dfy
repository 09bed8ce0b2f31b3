/** The mission engine as the program runs it (solana_agent/missions/engine.py): a loop over the
    sorted steps that works through the repository and the command journal. The ghost field run is
    the picture of the tables; every method changes it as MissionRuns says, so what is proved of
    histories of passes holds of sequences of these calls. */
module MissionEngines {
  import opened Prelude
  import opened Lifecycle
  import opened MissionGraph
  import opened TopologicalSort
  import opened JournalRepositories
  import opened CommandAuthorization
  import CJ = CommandJournals
  import opened MissionTables
  import RD = Redaction
  import opened MR = MissionRuns

  /** What the engine sees of the approval of a waiting step. */
  ghost function ApprovalSeen(db: Db, runId: string, id: string, now: int): ApprovalView {
    if (runId, id) !in db.steps || db.steps[(runId, id)].commandId.None? then Pending
    else
      var commandId := db.steps[(runId, id)].commandId.value;
      if commandId !in db.commands || db.commands[commandId].approvalId.None? then Pending
      else
        var approvalId := db.commands[commandId].approvalId.value;
        if approvalId !in db.approvals || db.approvals[approvalId].status == ApprovalStatus.PENDING then Pending
        else if CJ.ApprovalUsable(db, db.commands[commandId], now) then Usable
        else Unusable
  }

  /** The circumstance of a step that is driven without a crash: its approval is what the tables say. */
  ghost function Seen(db: Db, runId: string, id: string, at: Circumstance, now: int): Circumstance {
    at.(approval := ApprovalSeen(db, runId, id, now), crash := Never)
  }

  /** What is given and what is seen differ in the approval only, and there is no crash. */
  ghost predicate SameWithoutCrash(given: Circumstance, at: Circumstance) {
    at == given.(approval := at.approval, crash := Never)
  }

  /** The world shows a pass the circumstances it met. */
  ghost predicate Agrees(world: World, order: seq<string>, seen: seq<Circumstance>) {
    |seen| <= |order| && forall j :: 0 <= j < |seen| ==> world(order[j]) == seen[j]
  }

  lemma InvOfTables(db: Db, db': Db, calls: seq<string>)
    requires Inv(State(db, map[], calls)) && DbInv(db') && DbGrows(db, db')
    ensures Inv(State(db', map[], calls))
  {
    TransactionKeepsInv(State(db, map[], calls), State(db', map[], calls), 0);
  }

  /** What a pass saw is what it was given, but for the approvals, and without a crash. */
  ghost predicate Answers(world: World, order: seq<string>, seen: seq<Circumstance>) {
    |seen| <= |order| && forall j :: 0 <= j < |seen| ==> SameWithoutCrash(world(order[j]), seen[j])
  }

  lemma AnswersOneMore(world: World, order: seq<string>, seen: seq<Circumstance>, at: Circumstance)
    requires Answers(world, order, seen) && |seen| < |order| && SameWithoutCrash(world(order[|seen|]), at)
    ensures Answers(world, order, seen + [at])
  {
  }

  /** In every world that agrees with what a pass saw so far, the pass of the model has the rest
      from the i-th step on to go. */
  ghost predicate ArrivesAt(steps: Steps, hash: KeyHash, order: seq<string>, start: MissionRun, seen: seq<Circumstance>,
                            i: nat, run: MissionRun, executed: seq<string>, skipped: seq<string>)
  {
    |seen| == i <= |order| && forall w: World :: Agrees(w, order, seen) ==>
      MR.Drive(steps, hash, w, order, start) == DriveFrom(steps, hash, w, order, i, run, executed, skipped)
  }

  /** In every world that agrees with what a pass saw, the pass of the model ends with this. */
  ghost predicate EndsWith(steps: Steps, hash: KeyHash, order: seq<string>, start: MissionRun, seen: seq<Circumstance>, r: PassResult) {
    |seen| <= |order| && forall w: World :: Agrees(w, order, seen) ==> MR.Drive(steps, hash, w, order, start) == r
  }

  lemma StepUnfolds(steps: Steps, hash: KeyHash, w: World, order: seq<string>, i: nat, run: MissionRun, executed: seq<string>,
                    skipped: seq<string>, p: Progress)
    requires i < |order| && order[i] in run.steps && p == MR.DriveStep(steps, hash, w(order[i]), run, order[i])
    ensures DriveFrom(steps, hash, w, order, i, run, executed, skipped) ==
              if p.signal.Stop? then PassResult(p.run, Stopped(p.signal.reason, order[i]), executed, skipped)
              else DriveFrom(steps, hash, w, order, i + 1, p.run, AlsoIf(executed, order[i], p.signal == Executed),
                             AlsoIf(skipped, order[i], p.signal == Skipped))
  {
  }

  function AlsoIf(list: seq<string>, id: string, add: bool): seq<string> {
    if add then list + [id] else list
  }

  lemma AgreesBefore(w: World, order: seq<string>, seen: seq<Circumstance>, at: Circumstance)
    requires Agrees(w, order, seen + [at])
    ensures Agrees(w, order, seen) && w(order[|seen|]) == at
  {
    assert (seen + [at])[|seen|] == at && forall j :: 0 <= j < |seen| ==> (seen + [at])[j] == seen[j];
  }

  lemma PassStep(steps: Steps, hash: KeyHash, order: seq<string>, i: nat, start: MissionRun, before: MissionRun, executed: seq<string>,
                 skipped: seq<string>, seen: seq<Circumstance>, at: Circumstance, p: Progress)
    requires i < |order| && |seen| == i && order[i] in before.steps && p == MR.DriveStep(steps, hash, at, before, order[i])
    requires ArrivesAt(steps, hash, order, start, seen, i, before, executed, skipped)
    ensures if p.signal.Stop?
            then EndsWith(steps, hash, order, start, seen + [at], PassResult(p.run, Stopped(p.signal.reason, order[i]), executed, skipped))
            else ArrivesAt(steps, hash, order, start, seen + [at], i + 1, p.run, AlsoIf(executed, order[i], p.signal == Executed),
                           AlsoIf(skipped, order[i], p.signal == Skipped))
  {
    forall w: World | Agrees(w, order, seen + [at])
      ensures MR.Drive(steps, hash, w, order, start) ==
                if p.signal.Stop? then PassResult(p.run, Stopped(p.signal.reason, order[i]), executed, skipped)
                else DriveFrom(steps, hash, w, order, i + 1, p.run, AlsoIf(executed, order[i], p.signal == Executed),
                               AlsoIf(skipped, order[i], p.signal == Skipped))
    {
      AgreesBefore(w, order, seen, at);
      StepUnfolds(steps, hash, w, order, i, before, executed, skipped, p);
    }
  }

  lemma StepMissing(steps: Steps, hash: KeyHash, order: seq<string>, i: nat, start: MissionRun, run: MissionRun, executed: seq<string>,
                    skipped: seq<string>, seen: seq<Circumstance>)
    requires i < |order| && order[i] !in run.steps && ArrivesAt(steps, hash, order, start, seen, i, run, executed, skipped)
    ensures EndsWith(steps, hash, order, start, seen, PassResult(run, Stopped(EngineError, order[i]), executed, skipped))
  {
  }

  lemma PassCompletes(steps: Steps, hash: KeyHash, order: seq<string>, start: MissionRun, seen: seq<Circumstance>, run: MissionRun,
                      executed: seq<string>, skipped: seq<string>)
    requires ArrivesAt(steps, hash, order, start, seen, |order|, run, executed, skipped)
    ensures EndsWith(steps, hash, order, start, seen, FinishPass(run, executed, skipped))
  {
  }

  /** The hashes of a mission definition, its pack and the runtime contract. */
  datatype Versions = Versions(mission: string, pack: string, runtime: string)

  /** What the metadata of a run pins. */
  datatype RunContract = RunContract(versions: Versions, inputs: string)

  /** The input definitions of the mission, the redaction patterns and the hash of resolved inputs. */
  datatype InputRules = InputRules(patterns: RD.Patterns, defs: seq<RD.InputDef>, hash: seq<RD.Field> -> string)

  /** The contract of a call that supplies these inputs, if they resolve. */
  function ContractFor(rules: InputRules, versions: Versions, supplied: seq<RD.Field>): Result<RunContract, RD.InputError> {
    match RD.ResolveInputs(rules.patterns, rules.defs, supplied)
    case Err(error) => Err(error)
    case Ok(resolved) => Ok(RunContract(versions, rules.hash(resolved)))
  }

  ghost predicate AcceptedGraph(mission: Steps) {
    mission != [] && UniqueIds(mission) && KnownDependencies(mission) && Acyclic(mission)
  }

  datatype StartError = InvalidGraph(error: GraphError) | InvalidInputs(inputs: RD.InputError) | RunExists

  datatype ResumeError = UnresolvedInputs(inputs: RD.InputError) | ContractMismatch(expected: RunContract, persisted: RunContract)

  class MissionEngine {
    const repository: JournalRepository
    const journal: CJ.CommandJournal
    const mission: Steps
    const definitionHash: string -> string
    const hash: KeyHash
    const runId: string
    const rules: InputRules
    var metadata: RunContract
    ghost var run: MissionRun

    /** The engine and the journal share the repository, and its rows are in order. */
    ghost predicate Connected()
      reads this, journal, repository
    {
      journal.repository == repository && Inv(State(repository.Contents(), map[], journal.calls))
    }

    ghost predicate Valid()
      reads this, journal, repository
    {
      Connected() && Shows(repository.Contents(), journal.calls, runId, run)
    }

    constructor (journal: CJ.CommandJournal, mission: Steps, definitionHash: string -> string, hash: KeyHash, runId: string,
                 rules: InputRules, metadata: RunContract)
      requires Inv(State(journal.repository.Contents(), map[], journal.calls))
      ensures Connected() && this.journal == journal && this.mission == mission && this.hash == hash && this.runId == runId
      ensures this.rules == rules && this.metadata == metadata
    {
      this.journal, this.repository := journal, journal.repository;
      this.mission, this.definitionHash, this.hash, this.runId := mission, definitionHash, hash, runId;
      this.rules, this.metadata := rules, metadata;
    }

    /** Sets a step row; the pass goes on with the given signal unless the guard rejects. */
    method SetStep(id: string, target: StepStatus, commandId: Option<string>, increment: bool, done: Signal)
      returns (signal: Signal)
      requires Valid() && id in run.steps
      requires commandId.Some? ==> commandId.value in repository.commands && repository.commands[commandId.value].snapshot.runId == runId
      modifies repository, this`run
      ensures Valid() && repository.commands == old(repository.commands)
      ensures Progress(run, signal) == MR.SetStep(old(run), id, target, KeyOf(old(repository.Contents()), commandId), increment, done)
    {
      ghost var before := repository.Contents();
      SetStepIsShown(before, journal.calls, runId, run, id, target, commandId, increment, done);
      var r := UpdateStep(id, target, commandId, increment);
      run := MR.SetStep(run, id, target, KeyOf(before, commandId), increment, done).run;
      SameTablesKeepDbInv(before, repository.Contents());
      InvOfTables(before, repository.Contents(), journal.calls);
      signal := if r.Ok? then done else Stop(TransitionRejected);
    }

    /** The transaction of the repository. */
    method UpdateStep(id: string, target: StepStatus, commandId: Option<string>, increment: bool) returns (r: Result<(), DbError>)
      modifies repository
      ensures Did(old(repository.Contents()), repository.Contents(), Op.SetStepStatus(runId, id, target, commandId, increment), r)
    {
      r := repository.SetMissionStepStatus(runId, id, target, commandId, increment);
    }

    /** The command is one of the run. */
    ghost predicate OfRun(commandId: string)
      reads repository
    {
      commandId in repository.commands && repository.commands[commandId].snapshot.runId == runId
    }

    ghost function KeyAt(commandId: string): string
      requires OfRun(commandId)
      reads repository
    {
      repository.commands[commandId].idempotencyKey
    }

    /** The picture knows every command of the run. */
    lemma PictureKnows(commandId: string)
      requires Valid() && OfRun(commandId)
      ensures KeyAt(commandId) in run.commands
      ensures ShowsCommand(repository.commands[commandId], run.commands)
    {
    }

    method FinishStep(id: string, commandId: string, given: Circumstance, ghost at: Circumstance) returns (signal: Signal)
      requires Valid() && id in run.steps && OfRun(commandId) && KeyAt(commandId) in run.commands && SameWithoutCrash(given, at)
      modifies repository, this`run
      ensures Valid()
      ensures Progress(run, signal) == MR.FinishStep(old(run), id, old(KeyAt(commandId)), at)
    {
      PictureKnows(commandId);
      if repository.commands[commandId].status != CommandStatus.SUCCEEDED {
        signal := SetStep(id, StepStatus.FAILED, Some(commandId), false, Executed);
      } else if !given.accepted {
        signal := SetStep(id, StepStatus.FAILED, Some(commandId), false, Executed);
      } else {
        signal := SetStep(id, StepStatus.SUCCEEDED, Some(commandId), false, Executed);
      }
    }

    /** What follows the journal: wait for an approval, or finish the step. */
    method SettleCommand(id: string, commandId: string, given: Circumstance, ghost at: Circumstance) returns (signal: Signal)
      requires Valid() && id in run.steps && OfRun(commandId) && KeyAt(commandId) in run.commands && SameWithoutCrash(given, at)
      modifies repository, this`run
      ensures Valid()
      ensures Progress(run, signal) == AfterCommand(old(run), id, old(KeyAt(commandId)), at)
    {
      PictureKnows(commandId);
      if repository.commands[commandId].status == CommandStatus.APPROVAL_REQUIRED {
        signal := SetStep(id, StepStatus.WAITING_APPROVAL, Some(commandId), false, Stop(WaitingApproval));
      } else {
        signal := FinishStep(id, commandId, given, at);
      }
    }

    /** An id that is not in use, as a random one is. */
    method FreshId(taken: set<string>) returns (id: string)
      ensures id !in taken
    {
      var rest, n: nat := taken, 0;
      while rest != {}
        invariant rest <= taken && forall x :: x in taken && x !in rest ==> |x| < n
        decreases |rest|
      {
        var x :| x in rest;
        if |x| >= n {
          n := |x| + 1;
        }
        rest := rest - {x};
      }
      id := seq(n, _ => 'x');
    }

    /** journal.execute for the present attempt of a step; the picture gets its command and call. */
    method RunCommand(id: string, key: string, spec: CommandSnapshot, expiresAt: int, given: Circumstance, ghost at: Circumstance) returns (commandId: string)
      requires Valid() && id in run.steps && SameWithoutCrash(given, at)
      modifies repository, journal`calls, this`run
      ensures Valid() && OfRun(commandId) && KeyAt(commandId) == key && key in run.commands
      ensures run == if key in old(run).commands then old(run)
                     else CommandAt(old(run), key,
                                    MissionCommand(id, old(run).steps[id].attempt, CJ.GovernedStatus(at.effect, at.result),
                                                   at.effect == Some(REQUIRE_APPROVAL)),
                                    at.effect == Some(ALLOW))
    {
      ghost var before, calls := repository.Contents(), journal.calls;
      DuplicateIffPictured(before, calls, runId, run, key);
      var newId := FreshId(repository.commands.Keys);
      var decisionId := FreshId(repository.decisions.Keys);
      var approvalId := FreshId(repository.approvals.Keys);
      var governance := CJ.Governance(given.effect, decisionId, approvalId, expiresAt);
      var outcome, trace := journal.Execute(spec.(id := newId, runId := runId), id, key, governance, given.result);
      RunKeepsInv(State(before, map[], calls), trace);
      commandId := outcome.value.commandId;
      if !outcome.value.duplicate {
        CommandIsShown(before, repository.Contents(), calls, runId, run, newId, run.steps[id].attempt, at.effect == Some(ALLOW));
        run := CommandAt(run, key, Pictured(repository.commands[newId], run.steps[id].attempt), at.effect == Some(ALLOW));
      }
      PictureKnows(commandId);
    }

    /** The command of the step's present attempt, and what follows. */
    method ExecuteCommand(id: string, key: string, spec: CommandSnapshot, expiresAt: int, given: Circumstance, ghost at: Circumstance) returns (signal: Signal)
      requires Valid() && id in run.steps && SameWithoutCrash(given, at)
      modifies repository, journal`calls, this`run
      ensures Valid()
      ensures Progress(run, signal) == MR.ExecuteCommand(old(run), id, key, at)
    {
      var commandId := RunCommand(id, key, spec, expiresAt, given, at);
      signal := SettleCommand(id, commandId, given, at);
    }

    /** The step becomes running, and the key of its new attempt is made. */
    method MarkRunning(id: string) returns (signal: Signal, key: string)
      requires Valid() && id in run.steps
      modifies repository, this`run
      ensures Valid() && id in run.steps
      ensures Progress(run, signal) == MR.SetStep(old(run), id, StepStatus.RUNNING, None, true, Executed)
      ensures key == hash(id, old(run).steps[id].attempt + 1)
    {
      assert ShowsStep(repository.Contents(), runId, repository.steps[(runId, id)], run.steps[id]);
      key := hash(id, repository.steps[(runId, id)].attempt + 1);
      signal := SetStep(id, StepStatus.RUNNING, None, true, Executed);
    }

    /** A new attempt: the step becomes running, then its command is executed. */
    method BeginAttempt(id: string, spec: CommandSnapshot, expiresAt: int, given: Circumstance, ghost at: Circumstance) returns (signal: Signal)
      requires Valid() && id in run.steps && SameWithoutCrash(given, at)
      modifies repository, journal`calls, this`run
      ensures Valid()
      ensures var running := MR.SetStep(old(run), id, StepStatus.RUNNING, None, true, Executed);
              Progress(run, signal) ==
                if running.signal.Stop? then running
                else MR.ExecuteCommand(running.run, id, hash(id, old(run).steps[id].attempt + 1), at)
    {
      var key;
      signal, key := MarkRunning(id);
      if !signal.Stop? {
        signal := ExecuteCommand(id, key, spec, expiresAt, given, at);
      }
    }

    /** execute_approved for the command of a waiting step; the picture gets its outcome. */
    method RunApproved(id: string, commandId: string, now: int, given: Circumstance, ghost at: Circumstance)
      requires Valid() && OfRun(commandId) && KeyAt(commandId) in run.commands && SameWithoutCrash(given, at)
      requires repository.commands[commandId].status == CommandStatus.APPROVAL_REQUIRED
      requires repository.commands[commandId].approvalId.Some?
      requires at.approval == Usable <==> CJ.ApprovalUsable(repository.Contents(), repository.commands[commandId], now)
      modifies repository, journal`calls, this`run
      ensures Valid() && OfRun(commandId) && KeyAt(commandId) == old(KeyAt(commandId)) && run.steps == old(run).steps
      ensures run == SettledApproval(old(run), old(KeyAt(commandId)), at)
    {
      ghost var before, calls := repository.Contents(), journal.calls;
      ghost var key, attempt := KeyAt(commandId), run.commands[KeyAt(commandId)].attempt;
      PictureKnows(commandId);
      assert ApprovalKnown(before, commandId) && ApprovalBound(before, repository.commands[commandId].approvalId.value);
      var outcome, trace := journal.ExecuteApproved(commandId, now, given.result);
      RunKeepsInv(State(before, map[], calls), trace);
      CommandIsShown(before, repository.Contents(), calls, runId, run, commandId, attempt, at.approval == Usable);
      run := CommandAt(run, key, Pictured(repository.commands[commandId], attempt), at.approval == Usable);
    }

    method ResumeApproval(id: string, now: int, given: Circumstance, ghost at: Circumstance) returns (signal: Signal)
      requires Valid() && id in run.steps && run.steps[id].status == StepStatus.WAITING_APPROVAL
      requires at == Seen(repository.Contents(), runId, id, given, now)
      modifies repository, journal`calls, this`run
      ensures Valid()
      ensures Progress(run, signal) == MR.ResumeApproval(old(run), id, at)
    {
      assert ShowsStep(repository.Contents(), runId, repository.steps[(runId, id)], run.steps[id]);
      var row := repository.steps[(runId, id)];
      if row.commandId.None? {
        return Stop(EngineError);
      }
      var commandId := row.commandId.value;
      PictureKnows(commandId);
      var command := repository.commands[commandId];
      if command.approvalId.None? {
        return Stop(EngineError);
      }
      assert ApprovalKnown(repository.Contents(), commandId);
      if repository.approvals[command.approvalId.value].status == ApprovalStatus.PENDING {
        return Stop(WaitingApproval);
      }
      if !given.adapterRegistered || command.status != CommandStatus.APPROVAL_REQUIRED {
        return Stop(EngineError);
      }
      RunApproved(id, commandId, now, given, at);
      signal := FinishStep(id, commandId, given, at);
    }

    /** A step whose dependencies all succeeded and that does not wait for an approval. */
    method StartStep(id: string, spec: CommandSnapshot, expiresAt: int, given: Circumstance, ghost at: Circumstance) returns (signal: Signal)
      requires Valid() && id in run.steps && SameWithoutCrash(given, at)
      modifies repository, journal`calls, this`run
      ensures Valid()
      ensures Progress(run, signal) == MR.StartStep(hash, at, old(run), id)
    {
      ghost var started := MR.StartStep(hash, at, run, id);
      if !given.preconditionsHold || !given.adapterRegistered {
        assert started == MR.SetStep(run, id, StepStatus.FAILED, None, false, FailedEarly);
        signal := SetStep(id, StepStatus.FAILED, None, false, FailedEarly);
        assert Progress(run, signal) == started;
      } else {
        ghost var running := MR.SetStep(run, id, StepStatus.RUNNING, None, true, Executed);
        assert started == if running.signal.Stop? then running
                          else MR.ExecuteCommand(running.run, id, hash(id, run.steps[id].attempt + 1), at);
        signal := BeginAttempt(id, spec, expiresAt, given, at);
        assert Progress(run, signal) == started;
      }
    }

    /** The part of the loop body for a step whose dependencies all succeeded. */
    method DriveReady(id: string, spec: CommandSnapshot, now: int, expiresAt: int, given: Circumstance, ghost at: Circumstance) returns (signal: Signal)
      requires Valid() && id in run.steps
      requires at == Seen(repository.Contents(), runId, id, given, now)
      modifies repository, journal`calls, this`run
      ensures Valid()
      ensures Progress(run, signal) == MR.DriveReady(hash, at, old(run), id)
    {
      assert ShowsStep(repository.Contents(), runId, repository.steps[(runId, id)], run.steps[id]);
      if repository.steps[(runId, id)].status == StepStatus.WAITING_APPROVAL {
        signal := ResumeApproval(id, now, given, at);
      } else {
        signal := StartStep(id, spec, expiresAt, given, at);
      }
    }

    /** The dependency rows of a step, as the picture has them. */
    lemma DependencyRows(step: StepDef)
      requires Valid() && UniqueIds(mission) && step in mission
      ensures step.id in IdSet(mission) && Dependencies(mission, step.id) == step.dependsOn
      ensures forall d <- step.dependsOn ::
                && (d in run.steps <==> (runId, d) in repository.steps)
                && (d in run.steps ==> run.steps[d].status == repository.steps[(runId, d)].status)
    {
      var i :| 0 <= i < |mission| && mission[i] == step;
      IndexIsInverse(mission, i);
      forall d | d in step.dependsOn && d in run.steps
        ensures (runId, d) in repository.steps && run.steps[d].status == repository.steps[(runId, d)].status
      {
        assert ShowsStep(repository.Contents(), runId, repository.steps[(runId, d)], run.steps[d]);
      }
    }

    /** The body of the loop of _drive. */
    method DriveStep(step: StepDef, spec: CommandSnapshot, now: int, expiresAt: int, given: Circumstance)
      returns (signal: Signal, ghost at: Circumstance)
      requires Valid() && UniqueIds(mission) && step in mission && step.id in run.steps
      modifies repository, journal`calls, this`run
      ensures Valid()
      ensures at == Seen(old(repository.Contents()), runId, step.id, given, now)
      ensures Progress(run, signal) == MR.DriveStep(mission, hash, at, old(run), step.id)
    {
      var id := step.id;
      at := Seen(repository.Contents(), runId, id, given, now);
      DependencyRows(step);
      assert ShowsStep(repository.Contents(), runId, repository.steps[(runId, id)], run.steps[id]);
      if repository.steps[(runId, id)].status == StepStatus.SUCCEEDED {
        return Skipped, at;
      }
      if exists d <- step.dependsOn :: (runId, d) in repository.steps
                                       && repository.steps[(runId, d)].status in {StepStatus.FAILED, StepStatus.BLOCKED} {
        signal := SetStep(id, StepStatus.BLOCKED, None, false, Blocked);
        return;
      }
      if exists d <- step.dependsOn :: !((runId, d) in repository.steps
                                         && repository.steps[(runId, d)].status == StepStatus.SUCCEEDED) {
        return Stop(WaitingDependency), at;
      }
      signal := DriveReady(id, spec, now, expiresAt, given, at);
    }

    /** _drive: for every world that shows the pass what it saw, the pass is the one of the model. */
    method Drive(world: World, specs: string -> CommandSnapshot, now: int, expiresAt: int)
      returns (outcome: MR.Outcome, executed: seq<string>, skipped: seq<string>, ghost seen: seq<Circumstance>)
      requires Valid() && UniqueIds(mission) && KnownDependencies(mission) && Acyclic(mission)
      modifies repository, journal`calls, this`run
      ensures Valid()
      ensures EndsWith(mission, hash, GreedyOrder(mission, {}), old(run), seen, PassResult(run, outcome, executed, skipped))
      ensures Answers(world, GreedyOrder(mission, {}), seen)
    {
      var sorted := TopologicalSteps(mission);
      outcome, executed, skipped, seen := DriveSorted(sorted.value, world, specs, now, expiresAt);
    }

    /** The loop of _drive. */
    method DriveSorted(steps: seq<StepDef>, world: World, specs: string -> CommandSnapshot, now: int, expiresAt: int)
      returns (outcome: MR.Outcome, executed: seq<string>, skipped: seq<string>, ghost seen: seq<Circumstance>)
      requires Valid() && UniqueIds(mission) && forall s <- steps :: s in mission
      modifies repository, journal`calls, this`run
      ensures Valid()
      ensures EndsWith(mission, hash, Ids(steps), old(run), seen, PassResult(run, outcome, executed, skipped))
      ensures Answers(world, Ids(steps), seen)
    {
      executed, skipped, seen := [], [], [];
      for i := 0 to |steps|
        invariant Valid() && Answers(world, Ids(steps), seen)
        invariant ArrivesAt(mission, hash, Ids(steps), old(run), seen, i, run, executed, skipped)
      {
        var stopped;
        stopped, executed, skipped, seen := DriveOne(steps, i, old(run), executed, skipped, seen, world, specs, now, expiresAt);
        if stopped.Some? {
          outcome := Stopped(stopped.value, steps[i].id);
          return;
        }
      }
      ghost var before := run;
      outcome := CompletePass();
      PassCompletes(mission, hash, Ids(steps), old(run), seen, before, executed, skipped);
    }

    /** One iteration, with the lists of the pass. */
    method DriveOne(steps: seq<StepDef>, i: nat, ghost start: MissionRun, executed0: seq<string>, skipped0: seq<string>,
                    ghost seen0: seq<Circumstance>, world: World, specs: string -> CommandSnapshot, now: int, expiresAt: int)
      returns (stopped: Option<StopReason>, executed: seq<string>, skipped: seq<string>, ghost seen: seq<Circumstance>)
      requires Valid() && UniqueIds(mission) && i < |steps| && steps[i] in mission && |seen0| == i
      requires ArrivesAt(mission, hash, Ids(steps), start, seen0, i, run, executed0, skipped0) && Answers(world, Ids(steps), seen0)
      modifies repository, journal`calls, this`run
      ensures Valid()
      ensures match stopped
              case Some(reason) =>
                EndsWith(mission, hash, Ids(steps), start, seen, PassResult(run, Stopped(reason, steps[i].id), executed, skipped))
              case None => ArrivesAt(mission, hash, Ids(steps), start, seen, i + 1, run, executed, skipped)
      ensures Answers(world, Ids(steps), seen)
    {
      var step := steps[i];
      if (runId, step.id) !in repository.steps {
        StepMissing(mission, hash, Ids(steps), i, start, run, executed0, skipped0, seen0);
        return Some(EngineError), executed0, skipped0, seen0;
      }
      ghost var before := run;
      var signal;
      ghost var at;
      signal, at := DriveStep(step, specs(step.id), now, expiresAt, world(step.id));
      PassStep(mission, hash, Ids(steps), i, start, before, executed0, skipped0, seen0, at, Progress(run, signal));
      seen := seen0 + [at];
      AnswersOneMore(world, Ids(steps), seen0, at);
      if signal.Stop? {
        return Some(signal.reason), executed0, skipped0, seen;
      }
      stopped := None;
      executed, skipped := AlsoIf(executed0, step.id, signal == Executed), AlsoIf(skipped0, step.id, signal == Skipped);
    }

    /** The end of a pass that went through all steps. */
    method CompletePass() returns (outcome: MR.Outcome)
      requires Valid()
      modifies repository, this`run
      ensures Valid()
      ensures forall executed, skipped :: PassResult(run, outcome, executed, skipped) == FinishPass(old(run), executed, skipped)
    {
      var failed := exists key <- repository.steps :: key.0 == runId && repository.steps[key].status in {StepStatus.FAILED, StepStatus.BLOCKED};
      FailureIsShown();
      SetStatus(if failed then RunStatus.FAILED else RunStatus.COMPLETED);
      outcome := if failed then MR.Failed else MR.Completed;
    }

    lemma FailureIsShown()
      requires Valid()
      ensures AnyFailure(run) <==>
                exists key <- repository.steps :: key.0 == runId && repository.steps[key].status in {StepStatus.FAILED, StepStatus.BLOCKED}
    {
      if AnyFailure(run) {
        var id :| id in run.steps && run.steps[id].status in {StepStatus.FAILED, StepStatus.BLOCKED};
        assert ShowsStep(repository.Contents(), runId, repository.steps[(runId, id)], run.steps[id]);
      }
      if key :| key in repository.steps && key.0 == runId && repository.steps[key].status in {StepStatus.FAILED, StepStatus.BLOCKED} {
        assert key == (runId, key.1);
        assert ShowsStep(repository.Contents(), runId, repository.steps[(runId, key.1)], run.steps[key.1]);
      }
    }

    /** resume: if the supplied inputs resolve and the definitions, the runtime and the inputs are
        those of the metadata, commands that a dead process left running are interrupted, and the
        run is driven again; otherwise nothing changes. */
    method Resume(supplied: seq<RD.Field>, versions: Versions, world: World, specs: string -> CommandSnapshot, now: int, expiresAt: int)
      returns (r: Result<(MR.Outcome, seq<string>, seq<string>), ResumeError>, ghost seen: seq<Circumstance>)
      requires Valid() && UniqueIds(mission) && KnownDependencies(mission) && Acyclic(mission)
      modifies repository, journal`calls, this`run
      ensures Valid()
      ensures r.Ok? <==> ContractFor(rules, versions, supplied) == Ok(metadata)
      ensures r.Err? ==> repository.Contents() == old(repository.Contents()) && journal.calls == old(journal.calls) && run == old(run)
      ensures match ContractFor(rules, versions, supplied)
              case Err(error) => r == Err(UnresolvedInputs(error))
              case Ok(expected) => expected != metadata ==> r == Err(ContractMismatch(expected, metadata))
      ensures r.Ok? ==>
                && EndsWith(mission, hash, GreedyOrder(mission, {}), Recovered(old(run)), seen,
                            PassResult(run, r.value.0, r.value.1, r.value.2))
                && Answers(world, GreedyOrder(mission, {}), seen)
    {
      seen := [];
      var resolved := RD.ResolveInputs(rules.patterns, rules.defs, supplied);
      if resolved.Err? {
        return Err(UnresolvedInputs(resolved.error)), seen;
      }
      var expected := RunContract(versions, rules.hash(resolved.value));
      if metadata != expected {
        return Err(ContractMismatch(expected, metadata)), seen;
      }
      var outcome, executed, skipped;
      outcome, executed, skipped, seen := RecoverAndDrive(world, specs, now, expiresAt);
      r := Ok((outcome, executed, skipped));
    }

    method RecoverAndDrive(world: World, specs: string -> CommandSnapshot, now: int, expiresAt: int)
      returns (outcome: MR.Outcome, executed: seq<string>, skipped: seq<string>, ghost seen: seq<Circumstance>)
      requires Valid() && UniqueIds(mission) && KnownDependencies(mission) && Acyclic(mission)
      modifies repository, journal`calls, this`run
      ensures Valid()
      ensures EndsWith(mission, hash, GreedyOrder(mission, {}), Recovered(old(run)), seen, PassResult(run, outcome, executed, skipped))
      ensures Answers(world, GreedyOrder(mission, {}), seen)
    {
      Recover(now);
      SetStatus(RunStatus.RUNNING);
      outcome, executed, skipped, seen := Drive(world, specs, now, expiresAt);
    }

    method Recover(now: int)
      requires Valid()
      modifies repository, journal`calls, this`run
      ensures Valid() && run == old(run).(commands := Recovered(old(run)).commands)
    {
      ghost var before, calls := repository.Contents(), journal.calls;
      ghost var trace := journal.RecoverOrphanedCommands(now);
      RunKeepsInv(State(before, map[], calls), trace);
      assert Restarted(before, repository.Contents());
      RestartIsShown(before, repository.Contents(), calls, runId, run);
      run := run.(commands := Recovered(run).commands);
    }

    method SetStatus(status: RunStatus)
      requires Valid()
      modifies repository, this`run
      ensures Valid() && run == old(run).(status := status)
    {
      ghost var before := repository.Contents();
      RunStatusIsShown(before, journal.calls, runId, run, status);
      var r := repository.SetRunStatus(runId, status);
      run := run.(status := status);
      SameTablesKeepDbInv(before, repository.Contents());
      InvOfTables(before, repository.Contents(), journal.calls);
    }

    /** start: an accepted graph with inputs that resolve gets a new run with pending steps and
        metadata that pin its definitions and inputs, and is driven once; a defective graph, inputs
        that do not resolve, or a run id in use change nothing. */
    method Start(supplied: seq<RD.Field>, versions: Versions, world: World, specs: string -> CommandSnapshot, now: int, expiresAt: int)
      returns (r: Result<(MR.Outcome, seq<string>, seq<string>), StartError>, ghost seen: seq<Circumstance>)
      requires Connected() && RunsKnown(repository.Contents())
      modifies repository, journal`calls, this`run, this`metadata
      ensures r.Err? && r.error.InvalidGraph? <==> !AcceptedGraph(mission)
      ensures r.Err? && r.error.InvalidInputs? <==> AcceptedGraph(mission) && ContractFor(rules, versions, supplied).Err?
      ensures r.Err? && r.error.InvalidInputs? ==> ContractFor(rules, versions, supplied) == Err(r.error.inputs)
      ensures r.Err? && r.error.RunExists? <==>
                AcceptedGraph(mission) && ContractFor(rules, versions, supplied).Ok? && runId in old(repository.runs)
      ensures r.Err? ==>
                && repository.Contents() == old(repository.Contents()) && journal.calls == old(journal.calls)
                && metadata == old(metadata)
      ensures r.Ok? ==> Valid() && ContractFor(rules, versions, supplied) == Ok(metadata)
      ensures r.Ok? ==> EndsWith(mission, hash, GreedyOrder(mission, {}), InitialRun(mission), seen,
                                 PassResult(run, r.value.0, r.value.1, r.value.2))
                        && Answers(world, GreedyOrder(mission, {}), seen)
    {
      seen := [];
      var defect := ValidateMissionGraph(mission);
      if defect.Some? {
        return Err(InvalidGraph(defect.value)), seen;
      }
      var resolved := RD.ResolveInputs(rules.patterns, rules.defs, supplied);
      if resolved.Err? {
        return Err(InvalidInputs(resolved.error)), seen;
      }
      var created := CreateRun();
      if !created {
        return Err(RunExists), seen;
      }
      metadata := RunContract(versions, rules.hash(resolved.value));
      var outcome, executed, skipped;
      outcome, executed, skipped, seen := Drive(world, specs, now, expiresAt);
      r := Ok((outcome, executed, skipped));
    }

    /** create_run, initialize_mission_steps and the first run status. */
    method CreateRun() returns (created: bool)
      requires Connected() && RunsKnown(repository.Contents()) && UniqueIds(mission)
      modifies repository, this`run
      ensures created <==> runId !in old(repository.runs)
      ensures !created ==> repository.Contents() == old(repository.Contents())
      ensures created ==> Valid() && run == InitialRun(mission)
    {
      ghost var before := repository.Contents();
      var r := repository.CreateRun(runId);
      if r.Err? {
        return false;
      }
      var definitions := seq(|mission|, i requires 0 <= i < |mission| => (mission[i].id, definitionHash(mission[i].id)));
      StartedRunIsShown(before, journal.calls, runId, mission, definitions);
      PlanRun(before, definitions);
      run := InitialRun(mission);
      SameTablesKeepDbInv(before, repository.Contents());
      InvOfTables(before, repository.Contents(), journal.calls);
      created := true;
    }

    method PlanRun(ghost before: Db, definitions: seq<(string, string)>)
      requires AfterCreateRun(before, runId).Ok? && repository.Contents() == AfterCreateRun(before, runId).value
      requires AfterInitializeSteps(repository.Contents(), runId, definitions).Ok?
      requires AfterSetRunStatus(AfterInitializeSteps(repository.Contents(), runId, definitions).value, runId, RunStatus.RUNNING).Ok?
      modifies repository
      ensures repository.Contents() == MissionTables.Started(before, runId, definitions)
    {
      var planned := repository.InitializeMissionSteps(runId, definitions);
      var running := repository.SetRunStatus(runId, RunStatus.RUNNING);
    }
  }
}
