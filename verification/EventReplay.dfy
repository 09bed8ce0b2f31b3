/** The append-only event log determines the current statuses: replaying it gives the tables,
    its numbers are dense per run, and the statuses it records follow the transition tables. */
module EventReplay {
  import opened Prelude
  import opened Lifecycle
  import opened JournalRepositories

  // ---------- replay ----------

  /** The statuses a reader of the log alone can reconstruct. */
  datatype View = View(
    runs: map<string, RunStatus>,
    commands: map<string, CommandStatus>,
    steps: map<(string, string), (StepStatus, nat)>,
    approvals: map<string, ApprovalStatus>)

  function ApplyEvent(v: View, e: EventRow): View {
    match e.body
    case RunChanged(status) => v.(runs := v.runs[e.runId := status])
    case CommandChanged(status) =>
      if e.commandId.Some? then v.(commands := v.commands[e.commandId.value := status]) else v
    case StepChanged(stepId, status, attempt) => v.(steps := v.steps[(e.runId, stepId) := (status, attempt)])
    case ApprovalChanged(approvalId, status) => v.(approvals := v.approvals[approvalId := status])
    case _ => v
  }

  function Replay(events: seq<EventRow>): View {
    if events == [] then View(map[], map[], map[], map[])
    else ApplyEvent(Replay(events[..|events| - 1]), events[|events| - 1])
  }

  /** The statuses in the tables. */
  function ViewOf(db: Db): View {
    View(
      db.runs,
      map id | id in db.commands :: db.commands[id].status,
      map key | key in db.steps :: (db.steps[key].status, db.steps[key].attempt),
      map id | id in db.approvals :: db.approvals[id].status)
  }

  lemma ReplaySnoc(events: seq<EventRow>, e: EventRow)
    ensures Replay(events + [e]) == ApplyEvent(Replay(events), e)
  {
    assert (events + [e])[..|events|] == events;
  }

  // ---------- numbering ----------

  function RunEvents(events: seq<EventRow>, runId: string): seq<EventRow> {
    if events == [] then []
    else
      var n := |events| - 1;
      RunEvents(events[..n], runId) + if events[n].runId == runId then [events[n]] else []
  }

  lemma RunEventsSnoc(events: seq<EventRow>, e: EventRow, runId: string)
    ensures RunEvents(events + [e], runId) == RunEvents(events, runId) + if e.runId == runId then [e] else []
  {
    assert (events + [e])[..|events|] == events;
  }

  /** The events of each run are numbered 1, 2, 3, ... in order. */
  ghost predicate Dense(events: seq<EventRow>) {
    forall runId, k :: 0 <= k < |RunEvents(events, runId)| ==> RunEvents(events, runId)[k].sequence == k + 1
  }

  lemma {:induction false} MaxIsCount(events: seq<EventRow>, runId: string)
    requires forall k :: 0 <= k < |RunEvents(events, runId)| ==> RunEvents(events, runId)[k].sequence == k + 1
    ensures MaxSequence(events, runId) == |RunEvents(events, runId)|
    decreases |events|
  {
    if events != [] {
      var n := |events| - 1;
      var before := RunEvents(events[..n], runId);
      assert forall k :: 0 <= k < |before| ==> RunEvents(events, runId)[k] == before[k];
      MaxIsCount(events[..n], runId);
      if events[n].runId == runId {
        assert RunEvents(events, runId)[|before|] == events[n];
      }
    }
  }

  lemma NewEventKeepsDense(events: seq<EventRow>, runId: string, commandId: Option<string>, body: EventBody)
    requires Dense(events)
    ensures Dense(events + [NewEvent(events, runId, commandId, body)])
  {
    var e := NewEvent(events, runId, commandId, body);
    MaxIsCount(events, runId);
    forall r, k | 0 <= k < |RunEvents(events + [e], r)| ensures RunEvents(events + [e], r)[k].sequence == k + 1 {
      RunEventsSnoc(events, e, r);
    }
  }

  // ---------- trails ----------

  /** The statuses the log records for a command, in order. */
  function CommandTrail(events: seq<EventRow>, id: string): seq<CommandStatus> {
    if events == [] then []
    else
      var n := |events| - 1;
      CommandTrail(events[..n], id) + CommandPart(events[n], id)
  }

  function CommandPart(e: EventRow, id: string): seq<CommandStatus> {
    if e.body.CommandChanged? && e.commandId == Some(id) then [e.body.commandStatus] else []
  }

  function StepTrail(events: seq<EventRow>, key: (string, string)): seq<(StepStatus, nat)> {
    if events == [] then []
    else
      var n := |events| - 1;
      StepTrail(events[..n], key) + StepPart(events[n], key)
  }

  function StepPart(e: EventRow, key: (string, string)): seq<(StepStatus, nat)> {
    if e.body.StepChanged? && (e.runId, e.body.stepId) == key then [(e.body.stepStatus, e.body.attempt)] else []
  }

  lemma CommandTrailSnoc(events: seq<EventRow>, e: EventRow, id: string)
    ensures CommandTrail(events + [e], id) == CommandTrail(events, id) + CommandPart(e, id)
  {
    assert (events + [e])[..|events|] == events;
  }

  lemma StepTrailSnoc(events: seq<EventRow>, e: EventRow, key: (string, string))
    ensures StepTrail(events + [e], key) == StepTrail(events, key) + StepPart(e, key)
  {
    assert (events + [e])[..|events|] == events;
  }

  /** The trail of a command ends in its stored status; a command without a row has none. */
  ghost predicate CommandTrailFits(db: Db, id: string) {
    var trail := CommandTrail(db.events, id);
    && LegalCommandTrail(trail)
    && (if id in db.commands then trail != [] && trail[|trail| - 1] == db.commands[id].status else trail == [])
  }

  ghost predicate StepTrailFits(db: Db, key: (string, string)) {
    var trail := StepTrail(db.events, key);
    && LegalStepTrail(trail)
    && (if key in db.steps then trail != [] && trail[|trail| - 1] == (db.steps[key].status, db.steps[key].attempt)
        else trail == [])
  }

  ghost predicate TrailsFit(db: Db) {
    (forall id :: CommandTrailFits(db, id)) && (forall key :: StepTrailFits(db, key))
  }

  /** The log and the tables agree. */
  ghost predicate Faithful(db: Db) {
    Replay(db.events) == ViewOf(db) && Dense(db.events) && TrailsFit(db)
  }

  // ---------- one logged change ----------

  /** db' is db with its tables changed and one event logged, and the event tells the change. */
  ghost predicate Logged(db: Db, db': Db, e: EventRow) {
    && db'.events == db.events + [e]
    && e == NewEvent(db.events, e.runId, e.commandId, e.body)
    && ViewOf(db') == ApplyEvent(ViewOf(db), e)
    && (forall id :: id !in db.commands && id in db'.commands ==> CommandPart(e, id) == [CommandStatus.PLANNED])
    && (forall id :: id in db.commands ==> CommandMoves(db, e, id))
    && (forall key :: key !in db.steps && key in db'.steps ==> StepPart(e, key) == [(StepStatus.PENDING, 0)])
    && (forall key :: key in db.steps ==> StepMoves(db, e, key))
  }

  ghost predicate CommandMoves(db: Db, e: EventRow, id: string)
    requires id in db.commands
  {
    CommandPart(e, id) != [] ==> CommandPart(e, id)[0] in CommandTransitions(db.commands[id].status)
  }

  ghost predicate StepMoves(db: Db, e: EventRow, key: (string, string))
    requires key in db.steps
  {
    StepPart(e, key) != [] ==>
      && StepPart(e, key)[0].0 in StepTransitions(db.steps[key].status)
      && db.steps[key].attempt <= StepPart(e, key)[0].1 <= db.steps[key].attempt + 1
  }

  lemma LegalCommandSnoc(trail: seq<CommandStatus>, status: CommandStatus)
    requires LegalCommandTrail(trail)
    requires if trail == [] then status == CommandStatus.PLANNED else status in CommandTransitions(trail[|trail| - 1])
    ensures LegalCommandTrail(trail + [status])
  {
  }

  lemma LegalStepSnoc(trail: seq<(StepStatus, nat)>, entry: (StepStatus, nat))
    requires LegalStepTrail(trail)
    requires if trail == [] then entry == (StepStatus.PENDING, 0)
             else entry.0 in StepTransitions(trail[|trail| - 1].0) && trail[|trail| - 1].1 <= entry.1 <= trail[|trail| - 1].1 + 1
    ensures LegalStepTrail(trail + [entry])
  {
  }

  /** What a logged event says about one command row. */
  lemma LoggedCommandRow(db: Db, db': Db, e: EventRow, id: string)
    requires ViewOf(db').commands == ApplyEvent(ViewOf(db), e).commands
    ensures CommandPart(e, id) == [] ==>
              (id in db'.commands <==> id in db.commands) &&
              (id in db.commands ==> db'.commands[id].status == db.commands[id].status)
    ensures CommandPart(e, id) != [] ==> id in db'.commands && CommandPart(e, id) == [db'.commands[id].status]
  {
    var v, v' := ViewOf(db).commands, ViewOf(db').commands;
    assert v' == if e.body.CommandChanged? && e.commandId.Some? then v[e.commandId.value := e.body.commandStatus] else v;
    assert id in v' <==> id in db'.commands;
    assert id in v <==> id in db.commands;
  }

  lemma ExtendCommandTrail(db: Db, db': Db, e: EventRow, id: string)
    requires db'.events == db.events + [e] && CommandTrailFits(db, id)
    requires CommandPart(e, id) == [] ==>
               (id in db'.commands <==> id in db.commands) &&
               (id in db.commands ==> db'.commands[id].status == db.commands[id].status)
    requires CommandPart(e, id) != [] ==> id in db'.commands && CommandPart(e, id) == [db'.commands[id].status]
    requires CommandPart(e, id) != [] && id !in db.commands ==> CommandPart(e, id) == [CommandStatus.PLANNED]
    requires id in db.commands ==> CommandMoves(db, e, id)
    ensures CommandTrailFits(db', id)
  {
    CommandTrailSnoc(db.events, e, id);
    var trail, part := CommandTrail(db.events, id), CommandPart(e, id);
    if part == [] {
      assert trail + part == trail;
    } else {
      LegalCommandSnoc(trail, part[0]);
    }
  }

  lemma LoggedKeepsCommandTrail(db: Db, db': Db, e: EventRow, id: string)
    requires Logged(db, db', e) && CommandTrailFits(db, id)
    ensures CommandTrailFits(db', id)
  {
    LoggedCommandRow(db, db', e, id);
    ExtendCommandTrail(db, db', e, id);
  }

  /** What a logged event says about one step row. */
  lemma LoggedStepRow(db: Db, db': Db, e: EventRow, key: (string, string))
    requires ViewOf(db').steps == ApplyEvent(ViewOf(db), e).steps
    ensures StepPart(e, key) == [] ==>
              (key in db'.steps <==> key in db.steps) &&
              (key in db.steps ==> (db'.steps[key].status, db'.steps[key].attempt) == (db.steps[key].status, db.steps[key].attempt))
    ensures StepPart(e, key) != [] ==>
              key in db'.steps && StepPart(e, key) == [(db'.steps[key].status, db'.steps[key].attempt)]
  {
    var v, v' := ViewOf(db).steps, ViewOf(db').steps;
    assert v' == if e.body.StepChanged? then v[(e.runId, e.body.stepId) := (e.body.stepStatus, e.body.attempt)] else v;
    assert key in v' <==> key in db'.steps;
    assert key in v <==> key in db.steps;
  }

  lemma LoggedKeepsStepTrail(db: Db, db': Db, e: EventRow, key: (string, string))
    requires Logged(db, db', e) && StepTrailFits(db, key)
    ensures StepTrailFits(db', key)
  {
    LoggedStepRow(db, db', e, key);
    ExtendStepTrail(db, db', e, key);
  }

  lemma ExtendStepTrail(db: Db, db': Db, e: EventRow, key: (string, string))
    requires db'.events == db.events + [e] && StepTrailFits(db, key)
    requires StepPart(e, key) == [] ==>
               (key in db'.steps <==> key in db.steps) &&
               (key in db.steps ==> (db'.steps[key].status, db'.steps[key].attempt) == (db.steps[key].status, db.steps[key].attempt))
    requires StepPart(e, key) != [] ==>
               key in db'.steps && StepPart(e, key) == [(db'.steps[key].status, db'.steps[key].attempt)]
    requires StepPart(e, key) != [] && key !in db.steps ==> StepPart(e, key) == [(StepStatus.PENDING, 0)]
    requires key in db.steps ==> StepMoves(db, e, key)
    ensures StepTrailFits(db', key)
  {
    StepTrailSnoc(db.events, e, key);
    var trail, part := StepTrail(db.events, key), StepPart(e, key);
    if part == [] {
      assert trail + part == trail;
    } else {
      LegalStepSnoc(trail, part[0]);
    }
  }

  lemma LoggedKeepsFaithful(db: Db, db': Db, e: EventRow)
    requires Faithful(db) && Logged(db, db', e)
    ensures Faithful(db')
  {
    ReplaySnoc(db.events, e);
    NewEventKeepsDense(db.events, e.runId, e.commandId, e.body);
    forall id ensures CommandTrailFits(db', id) {
      assert CommandTrailFits(db, id);
      LoggedKeepsCommandTrail(db, db', e, id);
    }
    forall key ensures StepTrailFits(db', key) {
      assert StepTrailFits(db, key);
      LoggedKeepsStepTrail(db, db', e, key);
    }
  }

  // ---------- every transaction ----------

  lemma RunChangeIsLogged(db: Db, runId: string, status: RunStatus)
    ensures var db' := Log(db.(runs := db.runs[runId := status]), runId, None, RunChanged(status));
            Logged(db, db', NewEvent(db.events, runId, None, RunChanged(status)))
  {
  }

  lemma PlanStepIsLogged(db: Db, runId: string, definition: (string, string))
    requires AfterPlanStep(db, runId, definition).Ok?
    ensures Logged(db, AfterPlanStep(db, runId, definition).value,
                   NewEvent(db.events, runId, None, StepChanged(definition.0, StepStatus.PENDING, 0)))
  {
    var db' := AfterPlanStep(db, runId, definition).value;
    var e := NewEvent(db.events, runId, None, StepChanged(definition.0, StepStatus.PENDING, 0));
    assert ViewOf(db').steps == ApplyEvent(ViewOf(db), e).steps;
  }

  lemma {:induction false} PlanStepsKeepsFaithful(db: Db, runId: string, definitions: seq<(string, string)>)
    requires Faithful(db) && AfterPlanSteps(db, runId, definitions).Ok?
    ensures Faithful(AfterPlanSteps(db, runId, definitions).value)
    decreases |definitions|
  {
    if definitions != [] {
      PlanStepIsLogged(db, runId, definitions[0]);
      var next := AfterPlanStep(db, runId, definitions[0]).value;
      LoggedKeepsFaithful(db, next, NewEvent(db.events, runId, None, StepChanged(definitions[0].0, StepStatus.PENDING, 0)));
      PlanStepsKeepsFaithful(next, runId, definitions[1..]);
    }
  }

  lemma SetStepStatusIsLogged(db: Db, runId: string, stepId: string, status: StepStatus, commandId: Option<string>, increment: bool)
    requires AfterSetStepStatus(db, runId, stepId, status, commandId, increment).Ok?
    ensures var db' := AfterSetStepStatus(db, runId, stepId, status, commandId, increment).value;
            exists e :: Logged(db, db', e)
  {
    var db' := AfterSetStepStatus(db, runId, stepId, status, commandId, increment).value;
    var row := db'.steps[(runId, stepId)];
    var e := NewEvent(db.events, runId, row.commandId, StepChanged(stepId, status, row.attempt));
    assert ViewOf(db').steps == ApplyEvent(ViewOf(db), e).steps;
    assert Logged(db, db', e);
  }

  lemma InsertPlannedIsLogged(db: Db, snapshot: CommandSnapshot, stepId: string, key: string)
    requires AfterInsertPlanned(db, snapshot, stepId, key).Ok?
    ensures exists e :: Logged(db, AfterInsertPlanned(db, snapshot, stepId, key).value, e)
  {
    var db' := AfterInsertPlanned(db, snapshot, stepId, key).value;
    var e := NewEvent(db.events, snapshot.runId, Some(snapshot.id), CommandChanged(CommandStatus.PLANNED));
    assert ViewOf(db').commands == ApplyEvent(ViewOf(db), e).commands;
    assert Logged(db, db', e);
  }

  lemma TransitionIsLogged(db: Db, commandId: string, target: CommandStatus, decision: Option<string>, approval: Option<string>)
    requires AfterTransition(db, commandId, target, decision, approval).Ok?
    ensures exists e :: Logged(db, AfterTransition(db, commandId, target, decision, approval).value, e)
  {
    var db' := AfterTransition(db, commandId, target, decision, approval).value;
    var e := NewEvent(db.events, db.commands[commandId].snapshot.runId, Some(commandId), CommandChanged(target));
    assert ViewOf(db').commands == ApplyEvent(ViewOf(db), e).commands;
    assert Logged(db, db', e);
  }

  /** An event that changes no status. */
  lemma NoteIsLogged(db: Db, db': Db, runId: string, commandId: Option<string>, body: EventBody)
    requires body.PolicyEvaluated? || body.ArtifactCreated?
    requires db'.events == db.events + [NewEvent(db.events, runId, commandId, body)]
    requires db'.runs == db.runs && db'.commands == db.commands && db'.steps == db.steps && db'.approvals == db.approvals
    ensures Logged(db, db', NewEvent(db.events, runId, commandId, body))
  {
  }

  lemma ApprovalChangeIsLogged(db: Db, approvalId: string, row: ApprovalRow)
    ensures var db' := Log(db.(approvals := db.approvals[approvalId := row]), row.runId, Some(row.commandId),
                           ApprovalChanged(approvalId, row.status));
            Logged(db, db', NewEvent(db.events, row.runId, Some(row.commandId), ApprovalChanged(approvalId, row.status)))
  {
    var e := NewEvent(db.events, row.runId, Some(row.commandId), ApprovalChanged(approvalId, row.status));
    var db' := Log(db.(approvals := db.approvals[approvalId := row]), row.runId, Some(row.commandId), e.body);
    assert ViewOf(db').approvals == ApplyEvent(ViewOf(db), e).approvals;
  }

  lemma CreateApprovalKeepsFaithful(db: Db, approvalId: string, commandId: string, decisionId: string, intact: bool, expiresAt: int)
    requires Faithful(db) && AfterCreateApproval(db, approvalId, commandId, decisionId, intact, expiresAt).Ok?
    ensures Faithful(AfterCreateApproval(db, approvalId, commandId, decisionId, intact, expiresAt).value)
  {
    var db' := AfterCreateApproval(db, approvalId, commandId, decisionId, intact, expiresAt).value;
    var row := db'.approvals[approvalId];
    ApprovalChangeIsLogged(db, approvalId, row);
    LoggedKeepsFaithful(db, db', NewEvent(db.events, row.runId, Some(row.commandId), ApprovalChanged(approvalId, row.status)));
  }

  lemma ApprovalStatusKeepsFaithful(db: Db, approvalId: string, status: ApprovalStatus)
    requires Faithful(db) && approvalId in db.approvals
    ensures Faithful(WithApprovalStatus(db, approvalId, status))
  {
    var row := db.approvals[approvalId].(status := status);
    ApprovalChangeIsLogged(db, approvalId, row);
    LoggedKeepsFaithful(db, WithApprovalStatus(db, approvalId, status),
                        NewEvent(db.events, row.runId, Some(row.commandId), ApprovalChanged(approvalId, status)));
  }

  lemma ApprovalOpKeepsFaithful(db: Db, op: Op)
    requires Faithful(db) && Apply(db, op).Ok?
    requires op.CreateApproval? || op.DecideApproval? || op.ConsumeApproval? || op.ExpireApproval?
    ensures Faithful(Apply(db, op).value)
  {
    match op
    case CreateApproval(approvalId, commandId, decisionId, intact, expiresAt) =>
      CreateApprovalKeepsFaithful(db, approvalId, commandId, decisionId, intact, expiresAt);
    case DecideApproval(approvalId, approve, _) =>
      ApprovalStatusKeepsFaithful(db, approvalId, if approve then ApprovalStatus.APPROVED else ApprovalStatus.DENIED);
    case ConsumeApproval(approvalId) => ApprovalStatusKeepsFaithful(db, approvalId, ApprovalStatus.CONSUMED);
    case ExpireApproval(approvalId) => ApprovalStatusKeepsFaithful(db, approvalId, ApprovalStatus.EXPIRED);
  }

  /** Every transaction keeps the log and the tables in agreement. */
  lemma ApplyKeepsFaithful(db: Db, op: Op)
    requires Faithful(db) && Apply(db, op).Ok?
    ensures Faithful(Apply(db, op).value)
  {
    var db' := Apply(db, op).value;
    match op
    case CreateRun(runId) =>
      RunChangeIsLogged(db, runId, RunStatus.CREATED);
      LoggedKeepsFaithful(db, db', NewEvent(db.events, runId, None, RunChanged(RunStatus.CREATED)));
    case SetRunStatus(runId, status) =>
      RunChangeIsLogged(db, runId, status);
      LoggedKeepsFaithful(db, db', NewEvent(db.events, runId, None, RunChanged(status)));
    case InitializeSteps(runId, definitions) => PlanStepsKeepsFaithful(db, runId, definitions);
    case SetStepStatus(runId, stepId, status, commandId, increment) =>
      SetStepStatusIsLogged(db, runId, stepId, status, commandId, increment);
      var e :| Logged(db, db', e);
      LoggedKeepsFaithful(db, db', e);
    case InsertPlanned(snapshot, stepId, key) =>
      InsertPlannedIsLogged(db, snapshot, stepId, key);
      var e :| Logged(db, db', e);
      LoggedKeepsFaithful(db, db', e);
    case Transition(commandId, target, decision, approval) =>
      TransitionIsLogged(db, commandId, target, decision, approval);
      var e :| Logged(db, db', e);
      LoggedKeepsFaithful(db, db', e);
    case CreateDecision(decisionId, row) =>
      var runId := db.commands[row.commandId].snapshot.runId;
      NoteIsLogged(db, db', runId, Some(row.commandId), PolicyEvaluated(decisionId));
      LoggedKeepsFaithful(db, db', NewEvent(db.events, runId, Some(row.commandId), PolicyEvaluated(decisionId)));
    case CreateArtifact(runId, commandId, kind) =>
      NoteIsLogged(db, db', runId, commandId, ArtifactCreated(kind));
      LoggedKeepsFaithful(db, db', NewEvent(db.events, runId, commandId, ArtifactCreated(kind)));
    case _ => ApprovalOpKeepsFaithful(db, op);
  }

  lemma EmptyIsFaithful()
    ensures Faithful(EMPTY)
  {
  }

  lemma {:induction false} ApplyAllKeepsFaithful(db: Db, ops: seq<Op>)
    requires Faithful(db)
    ensures Faithful(ApplyAll(db, ops))
    decreases |ops|
  {
    if ops != [] {
      if Apply(db, ops[0]).Ok? {
        ApplyKeepsFaithful(db, ops[0]);
        ApplyAllKeepsFaithful(Apply(db, ops[0]).value, ops[1..]);
      } else {
        ApplyAllKeepsFaithful(db, ops[1..]);
      }
    }
  }

  // ---------- the theorems ----------

  /** After any sequence of transactions, failed ones included, replaying the log gives exactly the
      current status of every run, command, step (with its attempt) and approval. */
  lemma LogDeterminesTables(ops: seq<Op>)
    ensures Replay(ApplyAll(EMPTY, ops).events) == ViewOf(ApplyAll(EMPTY, ops))
  {
    EmptyIsFaithful();
    ApplyAllKeepsFaithful(EMPTY, ops);
  }

  /** The events of every run are numbered 1..n without gaps. */
  lemma SequencesAreDense(ops: seq<Op>, runId: string, k: nat)
    requires k < |RunEvents(ApplyAll(EMPTY, ops).events, runId)|
    ensures RunEvents(ApplyAll(EMPTY, ops).events, runId)[k].sequence == k + 1
    ensures RunEvents(ApplyAll(EMPTY, ops).events, runId)[k].runId == runId
  {
    EmptyIsFaithful();
    ApplyAllKeepsFaithful(EMPTY, ops);
    RunEventsOfRun(ApplyAll(EMPTY, ops).events, runId, k);
  }

  lemma {:induction false} RunEventsOfRun(events: seq<EventRow>, runId: string, k: nat)
    requires k < |RunEvents(events, runId)|
    ensures RunEvents(events, runId)[k].runId == runId
    decreases |events|
  {
    var n := |events| - 1;
    if k < |RunEvents(events[..n], runId)| {
      RunEventsOfRun(events[..n], runId, k);
    }
  }

  /** The recorded statuses of every command follow its transition table from planned to the
      stored status, and no status occurs twice. */
  lemma CommandTrailsAreLegal(ops: seq<Op>, id: string)
    requires id in ApplyAll(EMPTY, ops).commands
    ensures var db := ApplyAll(EMPTY, ops);
            var trail := CommandTrail(db.events, id);
            && LegalCommandTrail(trail) && trail != [] && trail[|trail| - 1] == db.commands[id].status
            && forall i, j :: 0 <= i < j < |trail| ==> trail[i] != trail[j]
  {
    EmptyIsFaithful();
    ApplyAllKeepsFaithful(EMPTY, ops);
    assert CommandTrailFits(ApplyAll(EMPTY, ops), id);
    var trail := CommandTrail(ApplyAll(EMPTY, ops).events, id);
    forall i, j | 0 <= i < j < |trail| ensures trail[i] != trail[j] {
      StatusEnteredOnce(trail, i, j);
    }
  }

  /** The same for mission steps, whose attempt number grows by at most one per event. */
  lemma StepTrailsAreLegal(ops: seq<Op>, key: (string, string))
    requires key in ApplyAll(EMPTY, ops).steps
    ensures var db := ApplyAll(EMPTY, ops);
            var trail := StepTrail(db.events, key);
            LegalStepTrail(trail) && trail != [] &&
            trail[|trail| - 1] == (db.steps[key].status, db.steps[key].attempt)
  {
    EmptyIsFaithful();
    ApplyAllKeepsFaithful(EMPTY, ops);
    assert StepTrailFits(ApplyAll(EMPTY, ops), key);
  }

  // ---------- approvals ----------

  /** The statuses the log records for an approval, in order. */
  function ApprovalTrail(events: seq<EventRow>, id: string): seq<ApprovalStatus> {
    if events == [] then []
    else
      var n := |events| - 1;
      ApprovalTrail(events[..n], id) + ApprovalPart(events[n], id)
  }

  function ApprovalPart(e: EventRow, id: string): seq<ApprovalStatus> {
    if e.body.ApprovalChanged? && e.body.approvalId == id then [e.body.approvalStatus] else []
  }

  lemma ApprovalTrailSnoc(events: seq<EventRow>, e: EventRow, id: string)
    ensures ApprovalTrail(events + [e], id) == ApprovalTrail(events, id) + ApprovalPart(e, id)
  {
    assert (events + [e])[..|events|] == events;
  }

  /** What the guards of the three decisions allow. */
  function ApprovalMoves(status: ApprovalStatus): set<ApprovalStatus> {
    match status
    case PENDING => {ApprovalStatus.APPROVED, ApprovalStatus.DENIED, ApprovalStatus.EXPIRED}
    case APPROVED => {ApprovalStatus.CONSUMED, ApprovalStatus.EXPIRED}
    case _ => {}
  }

  ghost predicate LegalApprovalTrail(trail: seq<ApprovalStatus>) {
    (trail != [] ==> trail[0] == ApprovalStatus.PENDING) &&
    forall i :: 0 < i < |trail| ==> trail[i] in ApprovalMoves(trail[i - 1])
  }

  ghost predicate ApprovalTrailFits(db: Db, id: string) {
    var trail := ApprovalTrail(db.events, id);
    && LegalApprovalTrail(trail)
    && (if id in db.approvals then trail != [] && trail[|trail| - 1] == db.approvals[id].status else trail == [])
  }

  ghost predicate ApprovalTrailsFit(db: Db) {
    forall id :: ApprovalTrailFits(db, id)
  }

  /** One event is logged, and it tells of an approval exactly when its row changed, legally. */
  ghost predicate ApprovalLogged(db: Db, db': Db, e: EventRow) {
    && db'.events == db.events + [e]
    && if e.body.ApprovalChanged? then
         var id, status := e.body.approvalId, e.body.approvalStatus;
         && id in db'.approvals && db'.approvals[id].status == status
         && db'.approvals == db.approvals[id := db'.approvals[id]]
         && (if id in db.approvals then status in ApprovalMoves(db.approvals[id].status) else status == ApprovalStatus.PENDING)
       else db'.approvals == db.approvals
  }

  lemma LegalApprovalSnoc(trail: seq<ApprovalStatus>, status: ApprovalStatus)
    requires LegalApprovalTrail(trail)
    requires if trail == [] then status == ApprovalStatus.PENDING else status in ApprovalMoves(trail[|trail| - 1])
    ensures LegalApprovalTrail(trail + [status])
  {
  }

  lemma ApprovalLoggedKeepsTrails(db: Db, db': Db, e: EventRow)
    requires ApprovalTrailsFit(db) && ApprovalLogged(db, db', e)
    ensures ApprovalTrailsFit(db')
  {
    forall id ensures ApprovalTrailFits(db', id) {
      assert ApprovalTrailFits(db, id);
      ApprovalTrailSnoc(db.events, e, id);
      var trail, part := ApprovalTrail(db.events, id), ApprovalPart(e, id);
      if part == [] {
        assert trail + part == trail;
      } else {
        LegalApprovalSnoc(trail, part[0]);
      }
    }
  }

  lemma {:induction false} PlanStepsKeepApprovalTrails(db: Db, runId: string, definitions: seq<(string, string)>)
    requires ApprovalTrailsFit(db) && AfterPlanSteps(db, runId, definitions).Ok?
    ensures ApprovalTrailsFit(AfterPlanSteps(db, runId, definitions).value)
    decreases |definitions|
  {
    if definitions != [] {
      var next := AfterPlanStep(db, runId, definitions[0]).value;
      ApprovalLoggedKeepsTrails(db, next, next.events[|next.events| - 1]);
      PlanStepsKeepApprovalTrails(next, runId, definitions[1..]);
    }
  }

  lemma ApplyKeepsApprovalTrails(db: Db, op: Op)
    requires ApprovalTrailsFit(db) && Apply(db, op).Ok?
    ensures ApprovalTrailsFit(Apply(db, op).value)
  {
    var db' := Apply(db, op).value;
    if op.InitializeSteps? {
      PlanStepsKeepApprovalTrails(db, op.runId, op.definitions);
    } else if db'.events != db.events {
      ApprovalLoggedKeepsTrails(db, db', db'.events[|db'.events| - 1]);
    }
  }

  lemma {:induction false} ApplyAllKeepsApprovalTrails(db: Db, ops: seq<Op>)
    requires ApprovalTrailsFit(db)
    ensures ApprovalTrailsFit(ApplyAll(db, ops))
    decreases |ops|
  {
    if ops != [] {
      if Apply(db, ops[0]).Ok? {
        ApplyKeepsApprovalTrails(db, ops[0]);
        ApplyAllKeepsApprovalTrails(Apply(db, ops[0]).value, ops[1..]);
      } else {
        ApplyAllKeepsApprovalTrails(db, ops[1..]);
      }
    }
  }

  lemma LegalApprovalTrailIsShort(trail: seq<ApprovalStatus>)
    requires LegalApprovalTrail(trail)
    ensures |trail| <= 3 && forall i, j :: 0 <= i < j < |trail| ==> trail[i] != trail[j]
  {
    assert |trail| > 1 ==> trail[1] in ApprovalMoves(trail[0]);
    assert |trail| > 2 ==> trail[2] in ApprovalMoves(trail[1]);
    assert |trail| > 3 ==> trail[3] in ApprovalMoves(trail[2]);
  }

  /** The recorded statuses of every approval lead from pending to the stored one: it is decided
      once, in one of three ways, and only an approval can be consumed or expire after that. */
  lemma ApprovalTrailsAreLegal(ops: seq<Op>, id: string)
    requires id in ApplyAll(EMPTY, ops).approvals
    ensures var db := ApplyAll(EMPTY, ops);
            var trail := ApprovalTrail(db.events, id);
            && LegalApprovalTrail(trail) && 1 <= |trail| <= 3 && trail[|trail| - 1] == db.approvals[id].status
            && forall i, j :: 0 <= i < j < |trail| ==> trail[i] != trail[j]
  {
    ApplyAllKeepsApprovalTrails(EMPTY, ops);
    assert ApprovalTrailFits(ApplyAll(EMPTY, ops), id);
    LegalApprovalTrailIsShort(ApprovalTrail(ApplyAll(EMPTY, ops).events, id));
  }
}
