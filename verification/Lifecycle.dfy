/** Statuses and their transition tables (solana_agent/contracts/command.py, mission.py,
    authority.py and lifecycle.py). */
module Lifecycle {

  datatype CommandStatus =
    | PLANNED
    | VALIDATING
    | APPROVAL_REQUIRED
    | AUTHORIZED
    | RUNNING
    | SUCCEEDED
    | FAILED
    | REJECTED
    | CANCELLED
    | INTERRUPTED
    | TIMED_OUT

  function CommandTransitions(status: CommandStatus): set<CommandStatus> {
    match status
    case PLANNED => {CommandStatus.VALIDATING, CommandStatus.CANCELLED}
    case VALIDATING =>
      {CommandStatus.APPROVAL_REQUIRED, CommandStatus.AUTHORIZED, CommandStatus.REJECTED, CommandStatus.FAILED,
       CommandStatus.CANCELLED}
    case APPROVAL_REQUIRED => {CommandStatus.AUTHORIZED, CommandStatus.REJECTED, CommandStatus.CANCELLED}
    case AUTHORIZED => {CommandStatus.RUNNING, CommandStatus.FAILED, CommandStatus.CANCELLED}
    case RUNNING =>
      {CommandStatus.SUCCEEDED, CommandStatus.FAILED, CommandStatus.INTERRUPTED, CommandStatus.TIMED_OUT}
    case _ => {}
  }

  predicate TerminalCommand(status: CommandStatus) {
    status in {CommandStatus.SUCCEEDED, CommandStatus.FAILED, CommandStatus.REJECTED, CommandStatus.CANCELLED,
               CommandStatus.INTERRUPTED, CommandStatus.TIMED_OUT}
  }

  /** How far a command has come; every transition moves strictly forward. */
  function CommandRank(status: CommandStatus): nat {
    match status
    case PLANNED => 0
    case VALIDATING => 1
    case APPROVAL_REQUIRED => 2
    case AUTHORIZED => 3
    case RUNNING => 4
    case _ => 5
  }

  lemma TransitionsMoveForward(a: CommandStatus, b: CommandStatus)
    ensures b in CommandTransitions(a) ==> CommandRank(a) < CommandRank(b)
    ensures TerminalCommand(a) <==> CommandTransitions(a) == {}
  {
    assert !TerminalCommand(a) ==> CommandStatus.CANCELLED in CommandTransitions(a) || CommandStatus.FAILED in CommandTransitions(a);
  }

  /** The table read backwards: from where a command may enter each status. It starts running only
      when authorized, ends well or is cut off only while running, and cannot be cancelled then. */
  lemma EnteredFrom(a: CommandStatus)
    ensures CommandStatus.PLANNED !in CommandTransitions(a)
    ensures CommandStatus.VALIDATING in CommandTransitions(a) <==> a == CommandStatus.PLANNED
    ensures CommandStatus.APPROVAL_REQUIRED in CommandTransitions(a) <==> a == CommandStatus.VALIDATING
    ensures CommandStatus.AUTHORIZED in CommandTransitions(a) <==> a in {CommandStatus.VALIDATING, CommandStatus.APPROVAL_REQUIRED}
    ensures CommandStatus.RUNNING in CommandTransitions(a) <==> a == CommandStatus.AUTHORIZED
    ensures CommandStatus.SUCCEEDED in CommandTransitions(a) <==> a == CommandStatus.RUNNING
    ensures CommandStatus.TIMED_OUT in CommandTransitions(a) <==> a == CommandStatus.RUNNING
    ensures CommandStatus.INTERRUPTED in CommandTransitions(a) <==> a == CommandStatus.RUNNING
    ensures CommandStatus.FAILED in CommandTransitions(a) <==>
              a in {CommandStatus.VALIDATING, CommandStatus.AUTHORIZED, CommandStatus.RUNNING}
    ensures CommandStatus.REJECTED in CommandTransitions(a) <==> a in {CommandStatus.VALIDATING, CommandStatus.APPROVAL_REQUIRED}
    ensures CommandStatus.CANCELLED in CommandTransitions(a) <==>
              a in {CommandStatus.PLANNED, CommandStatus.VALIDATING, CommandStatus.APPROVAL_REQUIRED, CommandStatus.AUTHORIZED}
  {
  }

  /** The statuses a command goes through: it starts planned and follows the table. */
  ghost predicate LegalCommandTrail(trail: seq<CommandStatus>) {
    (trail != [] ==> trail[0] == CommandStatus.PLANNED) &&
    forall i :: 0 < i < |trail| ==> trail[i] in CommandTransitions(trail[i - 1])
  }

  /** A command enters each status at most once, so it runs at most once and ends at most once. */
  lemma {:induction false} StatusEnteredOnce(trail: seq<CommandStatus>, i: nat, j: nat)
    requires LegalCommandTrail(trail) && i < j < |trail|
    ensures CommandRank(trail[i]) < CommandRank(trail[j])
    decreases j
  {
    TransitionsMoveForward(trail[j - 1], trail[j]);
    if i < j - 1 {
      StatusEnteredOnce(trail, i, j - 1);
    }
  }

  datatype StepStatus = PENDING | RUNNING | WAITING_APPROVAL | SUCCEEDED | FAILED | BLOCKED | SKIPPED

  function StepTransitions(status: StepStatus): set<StepStatus> {
    match status
    case PENDING => {StepStatus.RUNNING, StepStatus.FAILED, StepStatus.BLOCKED, StepStatus.SKIPPED}
    case RUNNING => {StepStatus.WAITING_APPROVAL, StepStatus.SUCCEEDED, StepStatus.FAILED}
    case WAITING_APPROVAL => {StepStatus.SUCCEEDED, StepStatus.FAILED}
    case FAILED => {StepStatus.RUNNING, StepStatus.FAILED}
    case BLOCKED => {StepStatus.RUNNING, StepStatus.FAILED, StepStatus.BLOCKED}
    case SUCCEEDED => {}
    case SKIPPED => {}
  }

  /** The step table read backwards. */
  lemma StepEnteredFrom(a: StepStatus)
    ensures StepStatus.PENDING !in StepTransitions(a)
    ensures StepStatus.RUNNING in StepTransitions(a) <==> a in {StepStatus.PENDING, StepStatus.FAILED, StepStatus.BLOCKED}
    ensures StepStatus.WAITING_APPROVAL in StepTransitions(a) <==> a == StepStatus.RUNNING
    ensures StepStatus.SUCCEEDED in StepTransitions(a) <==> a in {StepStatus.RUNNING, StepStatus.WAITING_APPROVAL}
    ensures StepStatus.FAILED in StepTransitions(a) <==> a !in {StepStatus.SUCCEEDED, StepStatus.SKIPPED}
    ensures StepStatus.BLOCKED in StepTransitions(a) <==> a in {StepStatus.PENDING, StepStatus.BLOCKED}
    ensures StepStatus.SKIPPED in StepTransitions(a) <==> a == StepStatus.PENDING
  {
  }

  /** A command that ran was planned, validated and authorized before, in this order, with at most a
      required approval in between. */
  lemma RunningWasAuthorized(trail: seq<CommandStatus>, i: nat)
    requires LegalCommandTrail(trail) && i < |trail| && trail[i] == CommandStatus.RUNNING
    ensures trail[..i] == [CommandStatus.PLANNED, CommandStatus.VALIDATING, CommandStatus.AUTHORIZED] ||
            trail[..i] == [CommandStatus.PLANNED, CommandStatus.VALIDATING, CommandStatus.APPROVAL_REQUIRED, CommandStatus.AUTHORIZED]
  {
    EnteredFrom(trail[i - 1]);
    EnteredFrom(trail[i - 2]);
    EnteredFrom(trail[i - 3]);
    if trail[i - 2] == CommandStatus.APPROVAL_REQUIRED {
      EnteredFrom(trail[i - 4]);
      StartsPlanned(trail, i - 4);
    } else {
      StartsPlanned(trail, i - 3);
    }
  }

  /** Planned is the first status and no other. */
  lemma StartsPlanned(trail: seq<CommandStatus>, i: nat)
    requires LegalCommandTrail(trail) && i < |trail|
    ensures trail[i] == CommandStatus.PLANNED <==> i == 0
  {
    if i > 0 { EnteredFrom(trail[i - 1]); }
  }

  /** The statuses and attempt numbers a mission step goes through. */
  ghost predicate LegalStepTrail(trail: seq<(StepStatus, nat)>) {
    (trail != [] ==> trail[0] == (StepStatus.PENDING, 0)) &&
    forall i :: 0 < i < |trail| ==>
      trail[i].0 in StepTransitions(trail[i - 1].0) && trail[i - 1].1 <= trail[i].1 <= trail[i - 1].1 + 1
  }

  datatype RunStatus = CREATED | RUNNING | COMPLETED | FAILED | CANCELLED | INTERRUPTED

  datatype ApprovalStatus = PENDING | APPROVED | DENIED | EXPIRED | CONSUMED

  datatype PolicyEffect = ALLOW | DENY | REQUIRE_APPROVAL
}
