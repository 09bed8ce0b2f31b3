/** Policy-governed execution (solana_agent/execution/journal.py, solana_agent/authority/approvals.py)
    as a transition system: any number of processes plan, authorize and execute commands over one
    database, operators decide and cancel at any time, and processes may crash between transactions. */
module CommandAuthorization {
  import opened Prelude
  import opened Lifecycle
  import opened JournalRepositories

  type Pid = nat

  /** The program counter of a process inside execute or execute_approved. */
  datatype Pc =
    | Planned(commandId: string)
    | Validating(commandId: string)
    | Decided(commandId: string, decisionId: string, effect: PolicyEffect)
    | Requested(commandId: string, decisionId: string, approvalId: string)
    | Authorized(commandId: string, viaApproval: bool)
    | Calling(commandId: string, viaApproval: bool)
    | Called(commandId: string, viaApproval: bool)
    | Failing(commandId: string)
    | Approving(commandId: string, approvalId: string)
    | ExpiringApproval(commandId: string, approvalId: string)
    | Consuming(commandId: string, approvalId: string)
    | Consumed(commandId: string, approvalId: string)
    | Rejecting(commandId: string)

  /** calls lists the executor calls by command id, in order. */
  datatype State = State(db: Db, procs: map<Pid, Pc>, calls: seq<string>)

  const INITIAL := State(EMPTY, map[], [])

  datatype Action =
    | Plan(snapshot: CommandSnapshot, stepId: string, key: string)
    | Validate
    | Decide(decisionId: string, effect: PolicyEffect)
    | EvaluationRaises
    | Resolve(approvalId: string, expiresAt: int)
    | RequireApproval
    | Start
    | CallExecutor
    | RecordStream(kind: string)
    | Finish(outcome: CommandStatus)
    | RecordFailure
    | BeginApproved(commandId: string)
    | CheckApproval(now: int)
    | ExpireChecked
    | Consume
    | Authorize
    | Reject
    | Ambient(op: Op)
    | Crash

  // ---------- steps ----------

  function Leave(s: State, p: Pid): State {
    s.(procs := s.procs - {p})
  }

  /** One transaction: on success the process goes on, on an error it takes the other way. */
  function Transact(s: State, p: Pid, op: Op, done: Option<Pc>, failed: Option<Pc>): State {
    match Apply(s.db, op)
    case Ok(db) => s.(db := db, procs := match done case Some(pc) => s.procs[p := pc] case None => s.procs - {p})
    case Err(_) => s.(procs := match failed case Some(pc) => s.procs[p := pc] case None => s.procs - {p})
  }

  /** What consume does after reading the approval and its decision. */
  function ConsumeCheck(db: Db, commandId: string, approvalId: string, now: int): Pc
    requires commandId in db.commands && approvalId in db.approvals && db.approvals[approvalId].decisionId in db.decisions
  {
    var approval := db.approvals[approvalId];
    var decision := db.decisions[approval.decisionId];
    var command := db.commands[commandId].snapshot;
    if approval.status == ApprovalStatus.PENDING && approval.expiresAt <= now then ExpiringApproval(commandId, approvalId)
    else if approval.status != ApprovalStatus.APPROVED then Rejecting(commandId)
    else if approval.expiresAt <= now then ExpiringApproval(commandId, approvalId)
    else if approval.commandId != command.id || approval.runId != command.runId then Rejecting(commandId)
    else if decision.snapshot != command || !decision.intact then Rejecting(commandId)
    else if !approval.manifestIntact then Rejecting(commandId)
    else Consuming(commandId, approvalId)
  }

  /** What other callers may do at any time: operators decide and cancel, a restart expires
      approvals and interrupts running commands, the engine keeps runs, steps and artifacts. */
  predicate IsAmbient(op: Op) {
    match op
    case Transition(_, target, decision, approval) =>
      target in {CommandStatus.CANCELLED, CommandStatus.INTERRUPTED} && decision.None? && approval.None?
    case CreateRun(_) => true
    case SetRunStatus(_, _) => true
    case InitializeSteps(_, _) => true
    case SetStepStatus(_, _, _, _, _) => true
    case DecideApproval(_, _, _) => true
    case ExpireApproval(_) => true
    case CreateArtifact(_, _, _) => true
    case _ => false
  }

  function Enter(s: State, p: Pid, a: Action): Option<State>
    requires p !in s.procs
  {
    match a
    case Plan(snapshot, stepId, key) => Some(Transact(s, p, InsertPlanned(snapshot, stepId, key), Some(Planned(snapshot.id)), None))
    case BeginApproved(id) =>
      if id !in s.db.commands || s.db.commands[id].status != CommandStatus.APPROVAL_REQUIRED then Some(s)
      else if s.db.commands[id].approvalId.None? then Some(s.(procs := s.procs[p := Rejecting(id)]))
      else Some(s.(procs := s.procs[p := Approving(id, s.db.commands[id].approvalId.value)]))
    case Ambient(op) => if IsAmbient(op) then Some(Transact(s, p, op, None, None)) else None
    case _ => None
  }

  function DecideStep(s: State, p: Pid, id: string, decisionId: string, effect: PolicyEffect): State {
    if id !in s.db.commands then Leave(s, p)
    else
      Transact(s, p, CreateDecision(decisionId, DecisionRow(id, effect, s.db.commands[id].snapshot, true)),
               Some(Decided(id, decisionId, effect)), Some(Failing(id)))
  }

  function ResolveStep(s: State, p: Pid, pc: Pc, approvalId: string, expiresAt: int): State
    requires pc.Decided?
  {
    var id, d := pc.commandId, pc.decisionId;
    match pc.effect
    case DENY => Transact(s, p, Transition(id, CommandStatus.REJECTED, Some(d), None), None, Some(Failing(id)))
    case ALLOW => Transact(s, p, Transition(id, CommandStatus.AUTHORIZED, Some(d), None), Some(Authorized(id, false)), Some(Failing(id)))
    case REQUIRE_APPROVAL =>
      Transact(s, p, CreateApproval(approvalId, id, d, true, expiresAt), Some(Requested(id, d, approvalId)), Some(Failing(id)))
  }

  function CheckApprovalStep(s: State, p: Pid, pc: Pc, now: int): State
    requires pc.Approving?
  {
    if pc.commandId in s.db.commands && pc.approvalId in s.db.approvals
       && s.db.approvals[pc.approvalId].decisionId in s.db.decisions
    then s.(procs := s.procs[p := ConsumeCheck(s.db, pc.commandId, pc.approvalId, now)])
    else Leave(s, p)
  }

  predicate ExecutionOutcome(status: CommandStatus) {
    status in {CommandStatus.SUCCEEDED, CommandStatus.FAILED, CommandStatus.INTERRUPTED, CommandStatus.TIMED_OUT}
  }

  /** execute wraps later errors into a failure; execute_approved lets them escape. */
  function Fallback(id: string, viaApproval: bool): Option<Pc> {
    if viaApproval then None else Some(Failing(id))
  }

  /** The redacted output of the executor becomes an artifact before the outcome is recorded. */
  function RecordStreamStep(s: State, p: Pid, pc: Pc, kind: string): State
    requires pc.Called?
  {
    if pc.commandId !in s.db.commands then Leave(s, p)
    else
      Transact(s, p, CreateArtifact(s.db.commands[pc.commandId].snapshot.runId, Some(pc.commandId), kind), Some(pc),
               Fallback(pc.commandId, pc.viaApproval))
  }

  function Continue(s: State, p: Pid, a: Action): Option<State>
    requires p in s.procs
  {
    var pc := s.procs[p];
    match a
    case Crash => Some(Leave(s, p))
    case Validate =>
      if !pc.Planned? then None
      else Some(Transact(s, p, Transition(pc.commandId, CommandStatus.VALIDATING, None, None), Some(Validating(pc.commandId)), None))
    case Decide(decisionId, effect) => if pc.Validating? then Some(DecideStep(s, p, pc.commandId, decisionId, effect)) else None
    case EvaluationRaises => if pc.Validating? then Some(s.(procs := s.procs[p := Failing(pc.commandId)])) else None
    case Resolve(approvalId, expiresAt) => if pc.Decided? then Some(ResolveStep(s, p, pc, approvalId, expiresAt)) else None
    case RequireApproval =>
      if !pc.Requested? then None
      else Some(Transact(s, p, Transition(pc.commandId, CommandStatus.APPROVAL_REQUIRED, Some(pc.decisionId), Some(pc.approvalId)),
                         None, Some(Failing(pc.commandId))))
    case Start =>
      if !pc.Authorized? then None
      else Some(Transact(s, p, Transition(pc.commandId, CommandStatus.RUNNING, None, None),
                         Some(Calling(pc.commandId, pc.viaApproval)), Fallback(pc.commandId, pc.viaApproval)))
    case CallExecutor =>
      if !pc.Calling? then None
      else Some(s.(procs := s.procs[p := Called(pc.commandId, pc.viaApproval)], calls := s.calls + [pc.commandId]))
    case RecordStream(kind) => if pc.Called? then Some(RecordStreamStep(s, p, pc, kind)) else None
    case Finish(outcome) =>
      if !pc.Called? || !ExecutionOutcome(outcome) then None
      else Some(Transact(s, p, Transition(pc.commandId, outcome, None, None), None, Fallback(pc.commandId, pc.viaApproval)))
    case RecordFailure =>
      if !pc.Failing? then None
      else Some(Transact(s, p, Transition(pc.commandId, CommandStatus.FAILED, None, None), None, None))
    case CheckApproval(now) => if pc.Approving? then Some(CheckApprovalStep(s, p, pc, now)) else None
    case ExpireChecked =>
      if !pc.ExpiringApproval? then None
      else Some(Transact(s, p, ExpireApproval(pc.approvalId), Some(Rejecting(pc.commandId)), None))
    case Consume =>
      if !pc.Consuming? then None
      else Some(Transact(s, p, ConsumeApproval(pc.approvalId), Some(Consumed(pc.commandId, pc.approvalId)), None))
    case Authorize =>
      if !pc.Consumed? then None
      else Some(Transact(s, p, Transition(pc.commandId, CommandStatus.AUTHORIZED, None, Some(pc.approvalId)),
                         Some(Authorized(pc.commandId, true)), None))
    case Reject =>
      if !pc.Rejecting? then None
      else Some(Transact(s, p, Transition(pc.commandId, CommandStatus.REJECTED, None, None), None, None))
    case _ => None
  }

  function Step(s: State, p: Pid, a: Action): Option<State> {
    if p in s.procs then Continue(s, p, a) else Enter(s, p, a)
  }

  datatype Event = Event(pid: Pid, action: Action)

  function Run(s: State, events: seq<Event>): Option<State>
    decreases |events|
  {
    if events == [] then Some(s)
    else
      match Step(s, events[0].pid, events[0].action)
      case None => None
      case Some(next) => Run(next, events[1..])
  }

  lemma {:induction false} RunSnoc(s: State, events: seq<Event>, e: Event)
    requires Run(s, events).Some?
    ensures Run(s, events + [e]) == Step(Run(s, events).value, e.pid, e.action)
    decreases |events|
  {
    if events == [] {
      assert (events + [e])[1..] == [];
    } else {
      assert (events + [e])[1..] == events[1..] + [e];
      RunSnoc(Step(s, events[0].pid, events[0].action).value, events[1..], e);
    }
  }

  // ---------- the invariant ----------

  /** A command stands on a policy decision that allowed it, or on a consumed approval of the
      decision that asked for one; either way for exactly its stored fields. */
  ghost predicate Backed(db: Db, id: string) {
    id in db.commands && (AllowedByPolicy(db, id) || AllowedByApproval(db, id))
  }

  ghost predicate AllowedByPolicy(db: Db, id: string)
    requires id in db.commands
  {
    var row := db.commands[id];
    row.decisionId.Some? && row.decisionId.value in db.decisions &&
    db.decisions[row.decisionId.value] == DecisionRow(id, ALLOW, row.snapshot, true)
  }

  ghost predicate AllowedByApproval(db: Db, id: string)
    requires id in db.commands
  {
    var row := db.commands[id];
    row.approvalId.Some? && row.approvalId.value in db.approvals && UsedFor(db, row.approvalId.value, id)
  }

  /** The approval was consumed for this command, and its decision was about the command's fields. */
  ghost predicate UsedFor(db: Db, approvalId: string, id: string)
    requires id in db.commands && approvalId in db.approvals
  {
    var approval := db.approvals[approvalId];
    && approval.status == ApprovalStatus.CONSUMED && approval.commandId == id
    && approval.decisionId in db.decisions
    && db.decisions[approval.decisionId].snapshot == db.commands[id].snapshot
    && db.decisions[approval.decisionId].effect == REQUIRE_APPROVAL
  }

  /** The statuses that lead through authorization. */
  predicate PastAuthorization(status: CommandStatus) {
    status in {CommandStatus.AUTHORIZED, CommandStatus.RUNNING, CommandStatus.SUCCEEDED, CommandStatus.INTERRUPTED,
               CommandStatus.TIMED_OUT}
  }

  ghost predicate CommandsBacked(db: Db) {
    forall id :: id in db.commands && PastAuthorization(db.commands[id].status) ==> Backed(db, id)
  }

  ghost predicate SnapshotsNamed(db: Db) {
    forall id :: id in db.commands ==> db.commands[id].snapshot.id == id
  }

  /** UNIQUE(run_id, idempotency_key). */
  ghost predicate KeysUnique(db: Db) {
    forall a, b :: a in db.commands && b in db.commands && SameKey(db.commands[a], db.commands[b]) ==> a == b
  }

  ghost predicate SameKey(a: CommandRow, b: CommandRow) {
    a.snapshot.runId == b.snapshot.runId && a.idempotencyKey == b.idempotencyKey
  }

  /** Approvals are for the decision, the command and the fields they were asked for. */
  ghost predicate ApprovalBound(db: Db, approvalId: string)
    requires approvalId in db.approvals
  {
    var approval := db.approvals[approvalId];
    && approval.decisionId in db.decisions && approval.commandId in db.commands
    && db.decisions[approval.decisionId].effect == REQUIRE_APPROVAL
    && db.decisions[approval.decisionId].snapshot == db.commands[approval.commandId].snapshot
  }

  ghost predicate ApprovalsBound(db: Db) {
    forall a :: a in db.approvals ==> ApprovalBound(db, a)
  }

  /** The approval that a command names exists. */
  ghost predicate ApprovalKnown(db: Db, id: string) {
    id in db.commands && db.commands[id].approvalId.Some? ==> db.commands[id].approvalId.value in db.approvals
  }

  ghost predicate ApprovalsKnown(db: Db) {
    forall id {:trigger ApprovalKnown(db, id)} :: ApprovalKnown(db, id)
  }

  ghost predicate DbInv(db: Db) {
    SnapshotsNamed(db) && KeysUnique(db) && ApprovalsKnown(db) && ApprovalsBound(db) && CommandsBacked(db)
  }

  ghost predicate PcFits(s: State, pc: Pc) {
    match pc
    case Decided(id, d, effect) =>
      id in s.db.commands && d in s.db.decisions && s.db.decisions[d] == DecisionRow(id, effect, s.db.commands[id].snapshot, true)
    case Requested(_, _, a) => a in s.db.approvals
    case Calling(id, _) =>
      Backed(s.db, id) && CommandRank(s.db.commands[id].status) >= 4 && id !in s.calls
    case Consuming(id, a) => a in s.db.approvals && s.db.approvals[a].commandId == id
    case Consumed(id, a) =>
      a in s.db.approvals && s.db.approvals[a].commandId == id && s.db.approvals[a].status == ApprovalStatus.CONSUMED
    case _ => true
  }

  ghost predicate PcsFit(s: State) {
    forall p :: p in s.procs ==> PcFits(s, s.procs[p])
  }

  ghost predicate SameCall(a: Pc, b: Pc) {
    a.Calling? && b.Calling? && a.commandId == b.commandId
  }

  ghost predicate CallersExclusive(s: State) {
    forall p, q :: p in s.procs && q in s.procs && SameCall(s.procs[p], s.procs[q]) ==> p == q
  }

  ghost predicate CallsBacked(s: State) {
    && (forall i :: 0 <= i < |s.calls| ==> Backed(s.db, s.calls[i]) && CommandRank(s.db.commands[s.calls[i]].status) >= 4)
    && forall i, j :: 0 <= i < j < |s.calls| ==> s.calls[i] != s.calls[j]
  }

  ghost predicate Inv(s: State) {
    DbInv(s.db) && PcsFit(s) && CallersExclusive(s) && CallsBacked(s)
  }

  // ---------- what transactions keep ----------

  /** Rows are never removed; a command keeps its fields and moves forward, and from its
      authorization on it keeps what it stands on; a consumed approval stays consumed. */
  ghost predicate DbGrows(db: Db, db': Db) {
    && (forall id :: id in db.commands ==> id in db'.commands && CommandGrows(db.commands[id], db'.commands[id]))
    && (forall d :: d in db.decisions ==> d in db'.decisions && db'.decisions[d] == db.decisions[d])
    && (forall a :: a in db.approvals ==> a in db'.approvals && ApprovalGrows(db.approvals[a], db'.approvals[a]))
  }

  ghost predicate CommandGrows(a: CommandRow, b: CommandRow) {
    && b.snapshot == a.snapshot && b.idempotencyKey == a.idempotencyKey
    && (b == a || CommandRank(a.status) < CommandRank(b.status))
    && (CommandRank(a.status) >= 3 ==> b.decisionId == a.decisionId && b.approvalId == a.approvalId)
  }

  ghost predicate ApprovalGrows(a: ApprovalRow, b: ApprovalRow) {
    b == a.(status := b.status) && (a.status == ApprovalStatus.CONSUMED ==> b.status == ApprovalStatus.CONSUMED)
  }

  lemma BackedIsStable(db: Db, db': Db, id: string)
    requires Backed(db, id) && CommandRank(db.commands[id].status) >= 3 && DbGrows(db, db')
    ensures Backed(db', id)
  {
    assert CommandGrows(db.commands[id], db'.commands[id]);
    if AllowedByApproval(db, id) {
      var a := db.commands[id].approvalId.value;
      assert ApprovalGrows(db.approvals[a], db'.approvals[a]);
    }
  }

  lemma PcFitsIsStable(s: State, s': State, pc: Pc)
    requires PcFits(s, pc) && DbGrows(s.db, s'.db) && s'.calls == s.calls
    ensures PcFits(s', pc)
  {
    match pc
    case Decided(id, d, _) => assert CommandGrows(s.db.commands[id], s'.db.commands[id]);
    case Calling(id, _) =>
      BackedIsStable(s.db, s'.db, id);
      assert CommandGrows(s.db.commands[id], s'.db.commands[id]);
    case Consuming(_, a) => assert ApprovalGrows(s.db.approvals[a], s'.db.approvals[a]);
    case Consumed(_, a) => assert ApprovalGrows(s.db.approvals[a], s'.db.approvals[a]);
    case _ =>
  }

  /** A transaction that grows the database and keeps its invariant, with the process moving to a
      program counter that fits and calls nothing, keeps the whole invariant. */
  lemma TransactionKeepsInv(s: State, s': State, p: Pid)
    requires Inv(s) && DbInv(s'.db) && DbGrows(s.db, s'.db) && s'.calls == s.calls
    requires forall q :: q != p ==> (q in s'.procs <==> q in s.procs) && (q in s.procs ==> s'.procs[q] == s.procs[q])
    requires p in s'.procs ==> PcFits(s', s'.procs[p]) && !s'.procs[p].Calling?
    ensures Inv(s')
  {
    forall q | q in s'.procs ensures PcFits(s', s'.procs[q]) {
      if q != p {
        assert PcFits(s, s.procs[q]);
        PcFitsIsStable(s, s', s.procs[q]);
      }
    }
    forall i | 0 <= i < |s.calls| ensures Backed(s'.db, s.calls[i]) && CommandRank(s'.db.commands[s.calls[i]].status) >= 4 {
      BackedIsStable(s.db, s'.db, s.calls[i]);
      assert CommandGrows(s.db.commands[s.calls[i]], s'.db.commands[s.calls[i]]);
    }
  }

  /** All commands but one are unchanged, and that one is backed if it has to be. */
  lemma CommandsStayBacked(db: Db, db': Db, changed: string)
    requires CommandsBacked(db) && DbGrows(db, db')
    requires forall id :: id in db'.commands && id != changed ==> id in db.commands && db'.commands[id] == db.commands[id]
    requires changed in db'.commands && PastAuthorization(db'.commands[changed].status) ==> Backed(db', changed)
    ensures CommandsBacked(db')
  {
    forall id | id in db'.commands && PastAuthorization(db'.commands[id].status) ensures Backed(db', id) {
      if id != changed { BackedIsStable(db, db', id); }
    }
  }

  lemma ApprovalsStayBound(db: Db, db': Db, changed: string)
    requires ApprovalsBound(db) && DbGrows(db, db')
    requires forall a :: a in db'.approvals && a != changed ==> a in db.approvals && db'.approvals[a] == db.approvals[a]
    requires changed in db'.approvals ==> ApprovalBound(db', changed)
    ensures ApprovalsBound(db')
  {
    forall a | a in db'.approvals ensures ApprovalBound(db', a) {
      if a != changed {
        assert ApprovalBound(db, a);
        assert CommandGrows(db.commands[db.approvals[a].commandId], db'.commands[db.approvals[a].commandId]);
      }
    }
  }

  /** Tables a transaction does not touch. */
  lemma SameTablesKeepDbInv(db: Db, db': Db)
    requires DbInv(db)
    requires db'.commands == db.commands && db'.decisions == db.decisions && db'.approvals == db.approvals
    ensures DbInv(db') && DbGrows(db, db')
  {
    forall id | id in db'.commands && PastAuthorization(db'.commands[id].status) ensures Backed(db', id) {
      assert Backed(db, id);
    }
    forall a | a in db'.approvals ensures ApprovalBound(db', a) { assert ApprovalBound(db, a); }
    AllApprovalsStayKnown(db, db');
  }

  lemma InsertGrows(db: Db, snapshot: CommandSnapshot, stepId: string, key: string)
    requires KeysUnique(db) && SnapshotsNamed(db) && AfterInsertPlanned(db, snapshot, stepId, key).Ok?
    ensures var db' := AfterInsertPlanned(db, snapshot, stepId, key).value;
            && DbGrows(db, db') && KeysUnique(db') && SnapshotsNamed(db')
            && db'.approvals == db.approvals
            && (forall id :: id in db'.commands && id != snapshot.id ==> id in db.commands && db'.commands[id] == db.commands[id])
            && snapshot.id in db'.commands && db'.commands[snapshot.id].status == CommandStatus.PLANNED
            && db'.commands[snapshot.id].approvalId.None?
  {
  }

  lemma InsertKeepsDbInv(db: Db, snapshot: CommandSnapshot, stepId: string, key: string)
    requires DbInv(db) && AfterInsertPlanned(db, snapshot, stepId, key).Ok?
    ensures var db' := AfterInsertPlanned(db, snapshot, stepId, key).value; DbInv(db') && DbGrows(db, db')
  {
    var db' := AfterInsertPlanned(db, snapshot, stepId, key).value;
    InsertGrows(db, snapshot, stepId, key);
    CommandsStayBacked(db, db', snapshot.id);
    AllApprovalsStayBound(db, db');
    ApprovalsStayKnown(db, db', snapshot.id);
  }

  /** Approvals stay, and only one command may name another one. */
  lemma ApprovalsStayKnown(db: Db, db': Db, changed: string)
    requires ApprovalsKnown(db) && forall a :: a in db.approvals ==> a in db'.approvals
    requires forall id :: id in db'.commands && id != changed ==> id in db.commands && db'.commands[id] == db.commands[id]
    requires ApprovalKnown(db', changed)
    ensures ApprovalsKnown(db')
  {
    forall id ensures ApprovalKnown(db', id) {
      assert ApprovalKnown(db, id);
    }
  }

  lemma AllApprovalsStayKnown(db: Db, db': Db)
    requires ApprovalsKnown(db) && db'.commands == db.commands && forall a :: a in db.approvals ==> a in db'.approvals
    ensures ApprovalsKnown(db')
  {
    forall id ensures ApprovalKnown(db', id) {
      assert ApprovalKnown(db, id);
    }
  }

  lemma AllApprovalsStayBound(db: Db, db': Db)
    requires ApprovalsBound(db) && DbGrows(db, db') && db'.approvals == db.approvals
    ensures ApprovalsBound(db')
  {
    forall a | a in db'.approvals ensures ApprovalBound(db', a) {
      assert ApprovalBound(db, a);
      assert CommandGrows(db.commands[db.approvals[a].commandId], db'.commands[db.approvals[a].commandId]);
    }
  }

  lemma AllCommandsStayBacked(db: Db, db': Db)
    requires CommandsBacked(db) && DbGrows(db, db') && db'.commands == db.commands
    ensures CommandsBacked(db')
  {
    forall id | id in db'.commands && PastAuthorization(db'.commands[id].status) ensures Backed(db', id) {
      BackedIsStable(db, db', id);
    }
  }

  lemma DecisionGrows(db: Db, decisionId: string, row: DecisionRow)
    requires AfterCreateDecision(db, decisionId, row).Ok?
    ensures var db' := AfterCreateDecision(db, decisionId, row).value;
            DbGrows(db, db') && db'.commands == db.commands && db'.approvals == db.approvals
  {
  }

  lemma DecisionKeepsDbInv(db: Db, decisionId: string, row: DecisionRow)
    requires DbInv(db) && AfterCreateDecision(db, decisionId, row).Ok?
    ensures var db' := AfterCreateDecision(db, decisionId, row).value; DbInv(db') && DbGrows(db, db')
  {
    DecisionGrows(db, decisionId, row);
    AllApprovalsStayKnown(db, AfterCreateDecision(db, decisionId, row).value);
    AllCommandsStayBacked(db, AfterCreateDecision(db, decisionId, row).value);
    AllApprovalsStayBound(db, AfterCreateDecision(db, decisionId, row).value);
  }

  lemma ApprovalGrowsDb(db: Db, approvalId: string, id: string, d: string, intact: bool, expiresAt: int)
    requires AfterCreateApproval(db, approvalId, id, d, intact, expiresAt).Ok?
    ensures var db' := AfterCreateApproval(db, approvalId, id, d, intact, expiresAt).value;
            && DbGrows(db, db') && db'.commands == db.commands && db'.decisions == db.decisions
            && (forall a :: a in db'.approvals && a != approvalId ==> a in db.approvals && db'.approvals[a] == db.approvals[a])
            && approvalId in db'.approvals && db'.approvals[approvalId].commandId == id && db'.approvals[approvalId].decisionId == d
  {
  }

  lemma ApprovalKeepsDbInv(db: Db, approvalId: string, id: string, d: string, intact: bool, expiresAt: int)
    requires DbInv(db) && AfterCreateApproval(db, approvalId, id, d, intact, expiresAt).Ok?
    requires id in db.commands && d in db.decisions
    requires db.decisions[d].effect == REQUIRE_APPROVAL && db.decisions[d].snapshot == db.commands[id].snapshot
    ensures var db' := AfterCreateApproval(db, approvalId, id, d, intact, expiresAt).value; DbInv(db') && DbGrows(db, db')
  {
    var db' := AfterCreateApproval(db, approvalId, id, d, intact, expiresAt).value;
    ApprovalGrowsDb(db, approvalId, id, d, intact, expiresAt);
    AllCommandsStayBacked(db, db');
    AllApprovalsStayKnown(db, db');
    ApprovalsStayBound(db, db', approvalId);
  }

  lemma ApprovalStatusGrows(db: Db, approvalId: string, status: ApprovalStatus)
    requires approvalId in db.approvals && db.approvals[approvalId].status != ApprovalStatus.CONSUMED
    ensures var db' := WithApprovalStatus(db, approvalId, status);
            && DbGrows(db, db') && db'.commands == db.commands && db'.decisions == db.decisions
            && db'.approvals == db.approvals[approvalId := db.approvals[approvalId].(status := status)]
  {
  }

  lemma ApprovalStatusKeepsDbInv(db: Db, approvalId: string, status: ApprovalStatus)
    requires DbInv(db) && approvalId in db.approvals && db.approvals[approvalId].status != ApprovalStatus.CONSUMED
    ensures var db' := WithApprovalStatus(db, approvalId, status); DbInv(db') && DbGrows(db, db')
  {
    var db' := WithApprovalStatus(db, approvalId, status);
    ApprovalStatusGrows(db, approvalId, status);
    AllCommandsStayBacked(db, db');
    AllApprovalsStayKnown(db, db');
    assert ApprovalBound(db, approvalId);
    ApprovalsStayBound(db, db', approvalId);
  }

  /** The columns that a transition of these statuses leaves alone are those an authorized command
      stands on. */
  predicate KeepsGrounds(target: CommandStatus, decision: Option<string>, approval: Option<string>) {
    target !in {CommandStatus.AUTHORIZED, CommandStatus.REJECTED, CommandStatus.APPROVAL_REQUIRED} ==>
      decision.None? && approval.None?
  }

  lemma RowGrows(row: CommandRow, target: CommandStatus, decision: Option<string>, approval: Option<string>)
    requires target in CommandTransitions(row.status) && KeepsGrounds(target, decision, approval)
    ensures CommandGrows(row, row.(status := target, decisionId := Coalesce(decision, row.decisionId),
                                   approvalId := Coalesce(approval, row.approvalId)))
  {
    TransitionsMoveForward(row.status, target);
  }

  lemma TransitionGrows(db: Db, id: string, target: CommandStatus, decision: Option<string>, approval: Option<string>)
    requires AfterTransition(db, id, target, decision, approval).Ok? && KeepsGrounds(target, decision, approval)
    ensures var db' := AfterTransition(db, id, target, decision, approval).value;
            && DbGrows(db, db') && db'.approvals == db.approvals && db'.decisions == db.decisions
            && id in db.commands && db'.commands == db.commands[id := db'.commands[id]] && db'.commands[id].status == target
  {
    RowGrows(db.commands[id], target, decision, approval);
  }

  lemma OneCommandKeepsKeys(db: Db, db': Db, id: string)
    requires SnapshotsNamed(db) && KeysUnique(db) && id in db.commands && id in db'.commands
    requires db'.commands == db.commands[id := db'.commands[id]] && CommandGrows(db.commands[id], db'.commands[id])
    ensures SnapshotsNamed(db') && KeysUnique(db')
  {
  }

  /** A command transition keeps the invariant when it does not replace what an authorized command
      stands on, and a command that becomes authorized stands on something. */
  lemma TransitionKeepsDbInv(db: Db, id: string, target: CommandStatus, decision: Option<string>, approval: Option<string>)
    requires DbInv(db) && AfterTransition(db, id, target, decision, approval).Ok? && KeepsGrounds(target, decision, approval)
    requires approval.Some? ==> approval.value in db.approvals
    requires target == CommandStatus.AUTHORIZED ==> Backed(AfterTransition(db, id, target, decision, approval).value, id)
    ensures var db' := AfterTransition(db, id, target, decision, approval).value; DbInv(db') && DbGrows(db, db')
  {
    var db' := AfterTransition(db, id, target, decision, approval).value;
    TransitionGrows(db, id, target, decision, approval);
    assert ApprovalKnown(db, id);
    MovedCommandKeepsDbInv(db, db', id);
  }

  /** A command past authorization stands on what it stood on. */
  lemma MovedStaysBacked(db: Db, db': Db, id: string)
    requires CommandsBacked(db) && DbGrows(db, db') && id in db.commands && id in db'.commands
    requires db'.commands[id].status in CommandTransitions(db.commands[id].status)
    requires db'.commands[id].status == CommandStatus.AUTHORIZED ==> Backed(db', id)
    ensures PastAuthorization(db'.commands[id].status) ==> Backed(db', id)
  {
    if PastAuthorization(db'.commands[id].status) && db'.commands[id].status != CommandStatus.AUTHORIZED {
      BackedIsStable(db, db', id);
    }
  }

  lemma MovedCommandKeepsDbInv(db: Db, db': Db, id: string)
    requires DbInv(db) && DbGrows(db, db') && db'.approvals == db.approvals && id in db.commands && id in db'.commands
    requires db'.commands == db.commands[id := db'.commands[id]]
    requires db'.commands[id].status in CommandTransitions(db.commands[id].status)
    requires db'.commands[id].status == CommandStatus.AUTHORIZED ==> Backed(db', id)
    requires ApprovalKnown(db', id)
    ensures DbInv(db')
  {
    MovedStaysBacked(db, db', id);
    OneCommandKeepsKeys(db, db', id);
    ApprovalsStayKnown(db, db', id);
    CommandsStayBacked(db, db', id);
    AllApprovalsStayBound(db, db');
  }

  // ---------- the steps ----------

  /** A transaction step whose successor program counters fit and call nothing. */
  lemma TransactKeepsInv(s: State, p: Pid, op: Op, done: Option<Pc>, failed: Option<Pc>)
    requires Inv(s)
    requires Apply(s.db, op).Ok? ==> DbInv(Apply(s.db, op).value) && DbGrows(s.db, Apply(s.db, op).value)
    requires Apply(s.db, op).Ok? && done.Some? ==>
               PcFits(s.(db := Apply(s.db, op).value), done.value) && !done.value.Calling?
    requires failed.Some? ==> PcFits(s, failed.value) && !failed.value.Calling?
    ensures Inv(Transact(s, p, op, done, failed))
  {
    var s' := Transact(s, p, op, done, failed);
    if Apply(s.db, op).Err? {
      SameTablesKeepDbInv(s.db, s'.db);
    }
    if p in s'.procs {
      PcFitsByDb(s.(db := s'.db), s', s'.procs[p]);
    }
    TransactionKeepsInv(s, s', p);
  }

  /** What fits a program counter depends on the database and the calls only. */
  lemma PcFitsByDb(s: State, s': State, pc: Pc)
    requires PcFits(s, pc) && s'.db == s.db && s'.calls == s.calls
    ensures PcFits(s', pc)
  {
  }

  /** A step that changes neither the database nor the calls. */
  lemma MoveKeepsInv(s: State, p: Pid, pc: Pc)
    requires Inv(s) && PcFits(s, pc) && !pc.Calling?
    ensures Inv(s.(procs := s.procs[p := pc]))
  {
    var s' := s.(procs := s.procs[p := pc]);
    SameTablesKeepDbInv(s.db, s'.db);
    PcFitsByDb(s, s', pc);
    TransactionKeepsInv(s, s', p);
  }

  lemma LeaveKeepsInv(s: State, p: Pid)
    requires Inv(s)
    ensures Inv(Leave(s, p))
  {
    SameTablesKeepDbInv(s.db, Leave(s, p).db);
    TransactionKeepsInv(s, Leave(s, p), p);
  }

  /** A transition to a status other than authorized, without a decision or approval. */
  lemma PlainTransitionKeepsInv(s: State, p: Pid, id: string, target: CommandStatus, done: Option<Pc>, failed: Option<Pc>)
    requires Inv(s) && target != CommandStatus.AUTHORIZED
    requires done.Some? ==> done.value.Validating?
    requires failed.Some? ==> failed.value.Failing?
    ensures Inv(Transact(s, p, Transition(id, target, None, None), done, failed))
  {
    if AfterTransition(s.db, id, target, None, None).Ok? {
      TransitionKeepsDbInv(s.db, id, target, None, None);
    }
    TransactKeepsInv(s, p, Transition(id, target, None, None), done, failed);
  }

  lemma AmbientKeepsDbInv(db: Db, op: Op)
    requires DbInv(db) && IsAmbient(op) && Apply(db, op).Ok?
    ensures DbInv(Apply(db, op).value) && DbGrows(db, Apply(db, op).value)
  {
    match op
    case Transition(id, target, decision, approval) => TransitionKeepsDbInv(db, id, target, decision, approval);
    case DecideApproval(id, approve, now) =>
      ApprovalStatusKeepsDbInv(db, id, if approve then ApprovalStatus.APPROVED else ApprovalStatus.DENIED);
    case ExpireApproval(id) => ExpireKeepsDbInv(db, id);
    case InitializeSteps(runId, definitions) =>
      PlanStepsKeepTables(db, runId, definitions);
      SameTablesKeepDbInv(db, Apply(db, op).value);
    case CreateRun(_) => SameTablesKeepDbInv(db, Apply(db, op).value);
    case SetRunStatus(_, _) => SameTablesKeepDbInv(db, Apply(db, op).value);
    case SetStepStatus(_, _, _, _, _) => SameTablesKeepDbInv(db, Apply(db, op).value);
    case CreateArtifact(_, _, _) => SameTablesKeepDbInv(db, Apply(db, op).value);
  }

  lemma ExpireKeepsDbInv(db: Db, approvalId: string)
    requires DbInv(db) && AfterExpireApproval(db, approvalId).Ok?
    ensures DbInv(AfterExpireApproval(db, approvalId).value) && DbGrows(db, AfterExpireApproval(db, approvalId).value)
  {
    if db.approvals[approvalId].status in {ApprovalStatus.PENDING, ApprovalStatus.APPROVED} {
      ApprovalStatusKeepsDbInv(db, approvalId, ApprovalStatus.EXPIRED);
    } else {
      SameTablesKeepDbInv(db, db);
    }
  }

  lemma {:induction false} PlanStepsKeepTables(db: Db, runId: string, definitions: seq<(string, string)>)
    requires AfterPlanSteps(db, runId, definitions).Ok?
    ensures var db' := AfterPlanSteps(db, runId, definitions).value;
            db'.commands == db.commands && db'.decisions == db.decisions && db'.approvals == db.approvals
    decreases |definitions|
  {
    if definitions != [] {
      PlanStepsKeepTables(AfterPlanStep(db, runId, definitions[0]).value, runId, definitions[1..]);
    }
  }

  lemma EnterKeepsInv(s: State, p: Pid, a: Action)
    requires Inv(s) && p !in s.procs && Enter(s, p, a).Some?
    ensures Inv(Enter(s, p, a).value)
  {
    match a
    case Plan(snapshot, stepId, key) =>
      if AfterInsertPlanned(s.db, snapshot, stepId, key).Ok? { InsertKeepsDbInv(s.db, snapshot, stepId, key); }
      TransactKeepsInv(s, p, InsertPlanned(snapshot, stepId, key), Some(Planned(snapshot.id)), None);
    case BeginApproved(id) =>
      if id in s.db.commands {
        MoveKeepsInv(s, p, Rejecting(id));
        if s.db.commands[id].approvalId.Some? { MoveKeepsInv(s, p, Approving(id, s.db.commands[id].approvalId.value)); }
      }
    case Ambient(op) =>
      if Apply(s.db, op).Ok? { AmbientKeepsDbInv(s.db, op); }
      TransactKeepsInv(s, p, op, None, None);
    case _ =>
  }

  lemma DecidedFits(s: State, decisionId: string, row: DecisionRow)
    requires AfterCreateDecision(s.db, decisionId, row).Ok?
    requires row.commandId in s.db.commands && row == DecisionRow(row.commandId, row.effect, s.db.commands[row.commandId].snapshot, true)
    ensures PcFits(s.(db := AfterCreateDecision(s.db, decisionId, row).value), Decided(row.commandId, decisionId, row.effect))
  {
  }

  lemma DecideKeepsInv(s: State, p: Pid, id: string, decisionId: string, effect: PolicyEffect)
    requires Inv(s) && p in s.procs
    ensures Inv(DecideStep(s, p, id, decisionId, effect))
  {
    if id !in s.db.commands {
      LeaveKeepsInv(s, p);
    } else {
      var row := DecisionRow(id, effect, s.db.commands[id].snapshot, true);
      if AfterCreateDecision(s.db, decisionId, row).Ok? {
        DecisionKeepsDbInv(s.db, decisionId, row);
        DecidedFits(s, decisionId, row);
      }
      TransactKeepsInv(s, p, CreateDecision(decisionId, row), Some(Decided(id, decisionId, effect)), Some(Failing(id)));
    }
  }

  lemma ResolveKeepsInv(s: State, p: Pid, approvalId: string, expiresAt: int)
    requires Inv(s) && p in s.procs && s.procs[p].Decided?
    ensures Inv(ResolveStep(s, p, s.procs[p], approvalId, expiresAt))
  {
    var id, d := s.procs[p].commandId, s.procs[p].decisionId;
    assert PcFits(s, s.procs[p]);
    match s.procs[p].effect
    case DENY =>
      var op := Transition(id, CommandStatus.REJECTED, Some(d), None);
      if Apply(s.db, op).Ok? { TransitionKeepsDbInv(s.db, id, CommandStatus.REJECTED, Some(d), None); }
      TransactKeepsInv(s, p, op, None, Some(Failing(id)));
    case ALLOW =>
      var op := Transition(id, CommandStatus.AUTHORIZED, Some(d), None);
      if Apply(s.db, op).Ok? {
        assert AllowedByPolicy(Apply(s.db, op).value, id);
        TransitionKeepsDbInv(s.db, id, CommandStatus.AUTHORIZED, Some(d), None);
      }
      TransactKeepsInv(s, p, op, Some(Authorized(id, false)), Some(Failing(id)));
    case REQUIRE_APPROVAL =>
      var op := CreateApproval(approvalId, id, d, true, expiresAt);
      if Apply(s.db, op).Ok? { ApprovalKeepsDbInv(s.db, approvalId, id, d, true, expiresAt); }
      TransactKeepsInv(s, p, op, Some(Requested(id, d, approvalId)), Some(Failing(id)));
  }

  lemma RequireApprovalKeepsInv(s: State, p: Pid)
    requires Inv(s) && p in s.procs && s.procs[p].Requested?
    ensures Inv(Transact(s, p, Transition(s.procs[p].commandId, CommandStatus.APPROVAL_REQUIRED,
                                          Some(s.procs[p].decisionId), Some(s.procs[p].approvalId)),
                         None, Some(Failing(s.procs[p].commandId))))
  {
    var pc := s.procs[p];
    var op := Transition(pc.commandId, CommandStatus.APPROVAL_REQUIRED, Some(pc.decisionId), Some(pc.approvalId));
    assert PcFits(s, pc);
    if Apply(s.db, op).Ok? {
      TransitionKeepsDbInv(s.db, pc.commandId, CommandStatus.APPROVAL_REQUIRED, Some(pc.decisionId), Some(pc.approvalId));
    }
    TransactKeepsInv(s, p, op, None, Some(Failing(pc.commandId)));
  }

  lemma CheckApprovalKeepsInv(s: State, p: Pid, now: int)
    requires Inv(s) && p in s.procs && s.procs[p].Approving?
    ensures Inv(CheckApprovalStep(s, p, s.procs[p], now))
  {
    var pc := s.procs[p];
    LeaveKeepsInv(s, p);
    if pc.commandId in s.db.commands && pc.approvalId in s.db.approvals
       && s.db.approvals[pc.approvalId].decisionId in s.db.decisions {
      assert s.db.commands[pc.commandId].snapshot.id == pc.commandId;
      MoveKeepsInv(s, p, ConsumeCheck(s.db, pc.commandId, pc.approvalId, now));
    }
  }

  lemma ConsumedFits(s: State, id: string, approvalId: string)
    requires AfterConsumeApproval(s.db, approvalId).Ok? && s.db.approvals[approvalId].commandId == id
    ensures s.db.approvals[approvalId].status != ApprovalStatus.CONSUMED
    ensures AfterConsumeApproval(s.db, approvalId).value == WithApprovalStatus(s.db, approvalId, ApprovalStatus.CONSUMED)
    ensures PcFits(s.(db := AfterConsumeApproval(s.db, approvalId).value), Consumed(id, approvalId))
  {
  }

  lemma ConsumeKeepsInv(s: State, p: Pid)
    requires Inv(s) && p in s.procs && s.procs[p].Consuming?
    ensures Inv(Transact(s, p, ConsumeApproval(s.procs[p].approvalId),
                         Some(Consumed(s.procs[p].commandId, s.procs[p].approvalId)), None))
  {
    var id, a := s.procs[p].commandId, s.procs[p].approvalId;
    assert PcFits(s, s.procs[p]);
    var op := ConsumeApproval(a);
    assert Apply(s.db, op) == AfterConsumeApproval(s.db, a);
    if AfterConsumeApproval(s.db, a).Ok? {
      ConsumedFits(s, id, a);
      ApprovalStatusKeepsDbInv(s.db, a, ApprovalStatus.CONSUMED);
    }
    TransactKeepsInv(s, p, op, Some(Consumed(id, a)), None);
  }

  lemma AuthorizeKeepsInv(s: State, p: Pid)
    requires Inv(s) && p in s.procs && s.procs[p].Consumed?
    ensures Inv(Transact(s, p, Transition(s.procs[p].commandId, CommandStatus.AUTHORIZED, None, Some(s.procs[p].approvalId)),
                         Some(Authorized(s.procs[p].commandId, true)), None))
  {
    var pc := s.procs[p];
    assert PcFits(s, pc) && ApprovalBound(s.db, pc.approvalId);
    var op := Transition(pc.commandId, CommandStatus.AUTHORIZED, None, Some(pc.approvalId));
    if Apply(s.db, op).Ok? {
      assert UsedFor(Apply(s.db, op).value, pc.approvalId, pc.commandId);
      TransitionKeepsDbInv(s.db, pc.commandId, CommandStatus.AUTHORIZED, None, Some(pc.approvalId));
    }
    TransactKeepsInv(s, p, op, Some(Authorized(pc.commandId, true)), None);
  }

  /** The transition to running hands the only permission to call the executor to its process. */
  lemma StartKeepsInv(s: State, p: Pid)
    requires Inv(s) && p in s.procs && s.procs[p].Authorized?
    ensures Inv(Transact(s, p, Transition(s.procs[p].commandId, CommandStatus.RUNNING, None, None),
                         Some(Calling(s.procs[p].commandId, s.procs[p].viaApproval)),
                         Fallback(s.procs[p].commandId, s.procs[p].viaApproval)))
  {
    var pc := s.procs[p];
    var op := Transition(pc.commandId, CommandStatus.RUNNING, None, None);
    if Apply(s.db, op).Err? {
      TransactKeepsInv(s, p, op, None, Fallback(pc.commandId, pc.viaApproval));
    } else {
      StartedKeepsInv(s, p, pc.commandId, pc.viaApproval);
    }
  }

  lemma StartedKeepsInv(s: State, p: Pid, id: string, viaApproval: bool)
    requires Inv(s) && p in s.procs && !s.procs[p].Calling?
    requires AfterTransition(s.db, id, CommandStatus.RUNNING, None, None).Ok?
    ensures Inv(s.(db := AfterTransition(s.db, id, CommandStatus.RUNNING, None, None).value,
                   procs := s.procs[p := Calling(id, viaApproval)]))
  {
    TransitionKeepsDbInv(s.db, id, CommandStatus.RUNNING, None, None);
    StartedIsBacked(s.db, id);
    CallingKeepsInv(s, AfterTransition(s.db, id, CommandStatus.RUNNING, None, None).value, p, id, viaApproval);
  }

  lemma CallingKeepsInv(s: State, db: Db, p: Pid, id: string, viaApproval: bool)
    requires Inv(s) && DbInv(db) && DbGrows(s.db, db)
    requires id in s.db.commands && CommandRank(s.db.commands[id].status) < 4
    requires Backed(db, id) && CommandRank(db.commands[id].status) >= 4
    ensures Inv(s.(db := db, procs := s.procs[p := Calling(id, viaApproval)]))
  {
    var left := State(db, s.procs - {p}, s.calls);
    TransactionKeepsInv(s, left, p);
    CallingIsFresh(s, left, s.(db := db, procs := s.procs[p := Calling(id, viaApproval)]), p, id);
  }

  lemma StartedIsBacked(db: Db, id: string)
    requires CommandsBacked(db) && AfterTransition(db, id, CommandStatus.RUNNING, None, None).Ok?
    requires CommandsBacked(AfterTransition(db, id, CommandStatus.RUNNING, None, None).value)
    ensures CommandRank(db.commands[id].status) < 4
    ensures var db' := AfterTransition(db, id, CommandStatus.RUNNING, None, None).value;
            Backed(db', id) && CommandRank(db'.commands[id].status) >= 4
  {
    OnlyAuthorizedStarts(db.commands[id].status);
  }

  lemma OnlyAuthorizedStarts(status: CommandStatus)
    requires CommandStatus.RUNNING in CommandTransitions(status)
    ensures status == CommandStatus.AUTHORIZED
  {
  }

  /** A process that starts a command which nobody ran before is the only one to call it. */
  lemma CallingIsFresh(s: State, left: State, s': State, p: Pid, id: string)
    requires PcsFit(s) && CallsBacked(s) && Inv(left)
    requires id in s.db.commands && CommandRank(s.db.commands[id].status) < 4
    requires p in s'.procs && s'.procs[p].Calling? && s'.procs[p].commandId == id
    requires s'.procs == left.procs[p := s'.procs[p]] && p !in left.procs && s'.db == left.db && s'.calls == left.calls == s.calls
    requires Backed(s'.db, id) && CommandRank(s'.db.commands[id].status) >= 4
    requires forall q :: q in left.procs ==> q in s.procs && left.procs[q] == s.procs[q]
    ensures Inv(s')
  {
    forall q | q in left.procs ensures PcFits(s', s'.procs[q]) && !SameCall(s'.procs[q], s'.procs[p]) {
      assert PcFits(s, s.procs[q]);
      PcFitsByDb(left, s', s'.procs[q]);
    }
  }

  lemma CallKeepsInv(s: State, p: Pid)
    requires Inv(s) && p in s.procs && s.procs[p].Calling?
    ensures Inv(s.(procs := s.procs[p := Called(s.procs[p].commandId, s.procs[p].viaApproval)],
                   calls := s.calls + [s.procs[p].commandId]))
  {
    var pc := s.procs[p];
    var s' := s.(procs := s.procs[p := Called(pc.commandId, pc.viaApproval)], calls := s.calls + [pc.commandId]);
    assert PcFits(s, pc);
    forall q | q in s'.procs ensures PcFits(s', s'.procs[q]) {
      assert PcFits(s, s.procs[q]);
      assert q != p ==> !SameCall(s.procs[q], pc);
    }
  }

  lemma ExecuteStepsKeepInv(s: State, p: Pid, a: Action)
    requires Inv(s) && p in s.procs && Continue(s, p, a).Some?
    requires a.Validate? || a.Decide? || a.EvaluationRaises? || a.Resolve? || a.RequireApproval? || a.RecordFailure?
    ensures Inv(Continue(s, p, a).value)
  {
    var pc := s.procs[p];
    match a
    case Validate => PlainTransitionKeepsInv(s, p, pc.commandId, CommandStatus.VALIDATING, Some(Validating(pc.commandId)), None);
    case Decide(decisionId, effect) => DecideKeepsInv(s, p, pc.commandId, decisionId, effect);
    case EvaluationRaises => MoveKeepsInv(s, p, Failing(pc.commandId));
    case Resolve(approvalId, expiresAt) => ResolveKeepsInv(s, p, approvalId, expiresAt);
    case RequireApproval => RequireApprovalKeepsInv(s, p);
    case RecordFailure => PlainTransitionKeepsInv(s, p, pc.commandId, CommandStatus.FAILED, None, None);
  }

  lemma RecordStreamKeepsInv(s: State, p: Pid, kind: string)
    requires Inv(s) && p in s.procs && s.procs[p].Called?
    ensures Inv(RecordStreamStep(s, p, s.procs[p], kind))
  {
    var pc := s.procs[p];
    if pc.commandId !in s.db.commands {
      LeaveKeepsInv(s, p);
    } else {
      var op := CreateArtifact(s.db.commands[pc.commandId].snapshot.runId, Some(pc.commandId), kind);
      if Apply(s.db, op).Ok? { SameTablesKeepDbInv(s.db, Apply(s.db, op).value); }
      TransactKeepsInv(s, p, op, Some(pc), Fallback(pc.commandId, pc.viaApproval));
    }
  }

  lemma CallStepsKeepInv(s: State, p: Pid, a: Action)
    requires Inv(s) && p in s.procs && Continue(s, p, a).Some?
    requires a.Start? || a.CallExecutor? || a.RecordStream? || a.Finish? || a.Crash?
    ensures Inv(Continue(s, p, a).value)
  {
    match a
    case RecordStream(kind) => RecordStreamKeepsInv(s, p, kind);
    case Start => StartKeepsInv(s, p);
    case CallExecutor => CallKeepsInv(s, p);
    case Finish(outcome) =>
      PlainTransitionKeepsInv(s, p, s.procs[p].commandId, outcome, None, Fallback(s.procs[p].commandId, s.procs[p].viaApproval));
    case Crash => LeaveKeepsInv(s, p);
  }

  lemma ExpireCheckedKeepsInv(s: State, p: Pid, id: string, approvalId: string)
    requires Inv(s)
    ensures Inv(Transact(s, p, ExpireApproval(approvalId), Some(Rejecting(id)), None))
  {
    if AfterExpireApproval(s.db, approvalId).Ok? { ExpireKeepsDbInv(s.db, approvalId); }
    TransactKeepsInv(s, p, ExpireApproval(approvalId), Some(Rejecting(id)), None);
  }

  lemma RejectKeepsInv(s: State, p: Pid)
    requires Inv(s) && p in s.procs && s.procs[p].Rejecting?
    ensures Inv(Transact(s, p, Transition(s.procs[p].commandId, CommandStatus.REJECTED, None, None), None, None))
  {
    PlainTransitionKeepsInv(s, p, s.procs[p].commandId, CommandStatus.REJECTED, None, None);
  }

  lemma ContinueKeepsInv(s: State, p: Pid, a: Action)
    requires Inv(s) && p in s.procs && Continue(s, p, a).Some?
    ensures Inv(Continue(s, p, a).value)
  {
    if a.Validate? || a.Decide? || a.EvaluationRaises? || a.Resolve? || a.RequireApproval? || a.RecordFailure? {
      ExecuteStepsKeepInv(s, p, a);
    } else if a.Start? || a.CallExecutor? || a.RecordStream? || a.Finish? || a.Crash? {
      CallStepsKeepInv(s, p, a);
    } else if a.Consume? {
      ConsumeKeepsInv(s, p);
    } else if a.Authorize? {
      AuthorizeKeepsInv(s, p);
    } else if a.CheckApproval? {
      CheckApprovalKeepsInv(s, p, a.now);
    } else if a.ExpireChecked? {
      ExpireCheckedKeepsInv(s, p, s.procs[p].commandId, s.procs[p].approvalId);
    } else if a.Reject? {
      RejectKeepsInv(s, p);
    }
  }

  lemma StepKeepsInv(s: State, p: Pid, a: Action)
    requires Inv(s) && Step(s, p, a).Some?
    ensures Inv(Step(s, p, a).value)
  {
    if p in s.procs { ContinueKeepsInv(s, p, a); } else { EnterKeepsInv(s, p, a); }
  }

  lemma {:induction false} RunKeepsInv(s: State, events: seq<Event>)
    requires Inv(s) && Run(s, events).Some?
    ensures Inv(Run(s, events).value)
    decreases |events|
  {
    if events != [] {
      StepKeepsInv(s, events[0].pid, events[0].action);
      RunKeepsInv(Step(s, events[0].pid, events[0].action).value, events[1..]);
    }
  }

  // ---------- the theorems ----------

  ghost predicate Reachable(s: State) {
    exists events :: Run(INITIAL, events) == Some(s)
  }

  lemma ReachableInv(s: State)
    requires Reachable(s)
    ensures Inv(s)
  {
    var events :| Run(INITIAL, events) == Some(s);
    RunKeepsInv(INITIAL, events);
  }

  /** Every executor call was for a command backed by an ALLOW decision, or by an approval that was
      consumed for that very command, about exactly the fields the command still has. */
  lemma EveryCallIsBacked(s: State, i: nat)
    requires Reachable(s) && i < |s.calls|
    ensures Backed(s.db, s.calls[i])
  {
    ReachableInv(s);
  }

  lemma OnlyCallExecutorCalls(s: State, p: Pid, a: Action)
    requires Step(s, p, a).Some? && Step(s, p, a).value.calls != s.calls
    ensures p in s.procs && s.procs[p].Calling?
    ensures Step(s, p, a).value.calls == s.calls + [s.procs[p].commandId]
  {
  }

  /** The executor is called only for a command that was moved to running before, and only while
      the command has no earlier call. */
  lemma CallNeedsRunning(s: State, p: Pid, a: Action)
    requires Reachable(s) && Step(s, p, a).Some? && Step(s, p, a).value.calls != s.calls
    ensures p in s.procs && s.procs[p].Calling?
    ensures var id := s.procs[p].commandId;
            && Step(s, p, a).value.calls == s.calls + [id] && id !in s.calls
            && Backed(s.db, id) && CommandRank(s.db.commands[id].status) >= 4
  {
    OnlyCallExecutorCalls(s, p, a);
    ReachableInv(s);
    assert PcFits(s, s.procs[p]);
  }

  /** Each command, each idempotency key of a run and each approval gets at most one executor call. */
  lemma AtMostOneCall(s: State, i: nat, j: nat)
    requires Reachable(s) && i < j < |s.calls|
    ensures s.calls[i] != s.calls[j]
    ensures s.calls[i] in s.db.commands && s.calls[j] in s.db.commands
    ensures !SameKey(s.db.commands[s.calls[i]], s.db.commands[s.calls[j]])
    ensures forall a :: a in s.db.approvals ==> !(UsedFor(s.db, a, s.calls[i]) && UsedFor(s.db, a, s.calls[j]))
  {
    ReachableInv(s);
    assert Backed(s.db, s.calls[i]) && Backed(s.db, s.calls[j]);
  }
}
