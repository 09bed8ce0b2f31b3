/** Concrete runs showing which natural claims are false of the gateway. */
module BroadcastDemos {
  import opened Prelude
  import opened Preparations
  import opened Executions
  import opened Broadcast
  import opened BroadcastSafety
  import opened BroadcastTheorems
  import opened BroadcastAtomic
  import opened BroadcastRuns
  import opened BroadcastRaces
  import opened BroadcastObligations

  /** One signer; every request has its own message, commitment and signature. */
  const DEMO := Config(
    (p: Pid) => "signer",
    (message: string) => "hash of " + message,
    (request: PrepareRequest, messageHash: string, simulation: string, expiresAt: int) => "commitment of " + request.requestId,
    (message: string) => "signer",
    (message: string) => 1,
    (authorization: Authorization) => authorization.signature == "authority",
    (signer: string, message: string, signature: string) => signature == "signature of " + message,
    (message: string, signature: string) => message + signature)

  function DemoMessage(id: string): string {
    "message of " + id
  }

  function DemoSignature(id: string): string {
    "signature of " + DemoMessage(id)
  }

  function DemoRequest(id: string): PrepareRequest {
    PrepareRequest(id, "obligation", "plan", 1000)
  }

  function DemoRow(id: string): PreparationRow {
    MakeRow(DEMO, 0, DemoRequest(id), DemoMessage(id), "simulation", 100, 0, 0)
  }

  function DemoAuthorization(id: string): Authorization {
    Authorization("authorization of " + id, id, "commitment of " + id, "hash of " + DemoMessage(id), "signer",
                  true, 0, 60, "authority")
  }

  function DemoPayload(id: string): ExecutePayload {
    ExecutePayload(id, DemoMessage(id), DemoAuthorization(id), "signer", DemoSignature(id))
  }

  function DemoCore(id: string): AttemptCore {
    AttemptCore(DemoAuthorization(id), "hash of " + DemoMessage(id), "commitment of " + id, "signer", DemoSignature(id),
                DemoMessage(id) + DemoSignature(id))
  }

  function DemoReady(id: string): Pc {
    ExecReady(id, DemoCore(id), DemoRow(id).prepared, 0, 0)
  }

  // ---------- reachability by handlers of one process ----------

  lemma InitialIsReachable(cfg: Config)
    ensures ReachableAtomically(cfg, INITIAL) && ReachableGuarded(cfg, INITIAL)
  {
    assert IsAtomic(cfg, INITIAL, []) && Run(cfg, INITIAL, []) == Some(INITIAL);
    assert Avoids(cfg, INITIAL, [], ExpiresAttempted);
  }

  lemma ReachableStep(cfg: Config, s: State, p: Pid, a: Action)
    requires Reachable(cfg, s) && Step(cfg, s, p, a).Some?
    ensures Reachable(cfg, Step(cfg, s, p, a).value)
  {
    var events :| Run(cfg, INITIAL, events) == Some(s);
    RunSnoc(cfg, INITIAL, events, Event(p, a));
    assert Run(cfg, INITIAL, events + [Event(p, a)]) == Some(Step(cfg, s, p, a).value);
  }

  lemma LeadsReachably(cfg: Config, s: State, s': State)
    requires Reachable(cfg, s) && Leads(cfg, s, s')
    ensures Reachable(cfg, s')
  {
    var before :| Run(cfg, INITIAL, before) == Some(s);
    var after :| Run(cfg, s, after) == Some(s');
    RunAppend(cfg, INITIAL, before, after);
  }

  lemma StepStaysAlone(cfg: Config, s: State, p: Pid, a: Action)
    requires Alone(s, p) && Step(cfg, s, p, a).Some?
    ensures Alone(Step(cfg, s, p, a).value, p)
  {
    OthersUnmoved(cfg, s, p, a);
  }

  lemma {:induction false} QuietIsAtomic(cfg: Config, s: State, p: Pid, events: seq<Event>)
    requires Alone(s, p) && Quiet(events, p) && Run(cfg, s, events).Some?
    ensures IsAtomic(cfg, s, events) && Alone(Run(cfg, s, events).value, p)
    decreases |events|
  {
    if events != [] {
      assert events[0] in events && forall e <- events[1..] :: e in events;
      StepStaysAlone(cfg, s, p, events[0].action);
      QuietIsAtomic(cfg, Step(cfg, s, p, events[0].action).value, p, events[1..]);
    }
  }

  lemma {:induction false} AtomicAppend(cfg: Config, s: State, before: seq<Event>, after: seq<Event>)
    requires IsAtomic(cfg, s, before) && Run(cfg, s, before).Some? && IsAtomic(cfg, Run(cfg, s, before).value, after)
    ensures IsAtomic(cfg, s, before + after)
    decreases |before|
  {
    var all := before + after;
    if before == [] {
      assert all == after;
    } else {
      assert all[0] == before[0] && all[1..] == before[1..] + after;
      AtomicAppend(cfg, Step(cfg, s, all[0].pid, all[0].action).value, before[1..], after);
    }
  }

  lemma DoesAtomically(cfg: Config, s: State, p: Pid, s': State)
    requires ReachableAtomically(cfg, s) && Alone(s, p) && Does(cfg, s, p, s')
    ensures ReachableAtomically(cfg, s') && Alone(s', p)
  {
    var before :| IsAtomic(cfg, INITIAL, before) && Run(cfg, INITIAL, before) == Some(s);
    var after :| Run(cfg, s, after) == Some(s') && Quiet(after, p);
    QuietIsAtomic(cfg, s, p, after);
    AtomicAppend(cfg, INITIAL, before, after);
    RunAppend(cfg, INITIAL, before, after);
  }

  lemma StepAtomicallyReaches(cfg: Config, s: State, p: Pid, a: Action)
    requires ReachableAtomically(cfg, s) && Alone(s, p) && Step(cfg, s, p, a).Some?
    ensures ReachableAtomically(cfg, Step(cfg, s, p, a).value)
  {
    var before :| IsAtomic(cfg, INITIAL, before) && Run(cfg, INITIAL, before) == Some(s);
    AtomicAppend(cfg, INITIAL, before, [Event(p, a)]);
    RunSnoc(cfg, INITIAL, before, Event(p, a));
    assert IsAtomic(cfg, INITIAL, before + [Event(p, a)]);
  }

  /** Reachable although no claimed request is expired. */
  ghost predicate ReachableGuarded(cfg: Config, s: State) {
    exists events :: Run(cfg, INITIAL, events) == Some(s) && Avoids(cfg, INITIAL, events, ExpiresAttempted)
  }

  lemma {:induction false} AvoidsAppend(cfg: Config, s: State, before: seq<Event>, after: seq<Event>, bad: (State, Event) -> bool)
    requires Avoids(cfg, s, before, bad) && Run(cfg, s, before).Some? && Avoids(cfg, Run(cfg, s, before).value, after, bad)
    ensures Avoids(cfg, s, before + after, bad)
    decreases |before|
  {
    if before == [] {
      assert [] + after == after;
    } else {
      AvoidsAppend(cfg, Step(cfg, s, before[0].pid, before[0].action).value, before[1..], after, bad);
      assert (before + after)[1..] == before[1..] + after;
    }
  }

  lemma {:induction false} QuietAvoidsExpiry(cfg: Config, s: State, p: Pid, events: seq<Event>)
    requires Quiet(events, p)
    ensures Avoids(cfg, s, events, ExpiresAttempted)
    decreases |events|
  {
    if events != [] && Step(cfg, s, events[0].pid, events[0].action).Some? {
      assert forall e <- events[1..] :: e in events;
      QuietAvoidsExpiry(cfg, Step(cfg, s, events[0].pid, events[0].action).value, p, events[1..]);
    }
  }

  lemma DoesGuarded(cfg: Config, s: State, p: Pid, s': State)
    requires ReachableGuarded(cfg, s) && Does(cfg, s, p, s')
    ensures ReachableGuarded(cfg, s')
  {
    var before :| Run(cfg, INITIAL, before) == Some(s) && Avoids(cfg, INITIAL, before, ExpiresAttempted);
    var after :| Run(cfg, s, after) == Some(s') && Quiet(after, p);
    QuietAvoidsExpiry(cfg, s, p, after);
    AvoidsAppend(cfg, INITIAL, before, after, ExpiresAttempted);
    RunAppend(cfg, INITIAL, before, after);
  }

  lemma StepGuarded(cfg: Config, s: State, p: Pid, a: Action)
    requires ReachableGuarded(cfg, s) && Step(cfg, s, p, a).Some? && !ExpiresAttempted(s, Event(p, a))
    ensures ReachableGuarded(cfg, Step(cfg, s, p, a).value)
  {
    var before :| Run(cfg, INITIAL, before) == Some(s) && Avoids(cfg, INITIAL, before, ExpiresAttempted);
    AvoidsAppend(cfg, INITIAL, before, [Event(p, a)], ExpiresAttempted);
    RunSnoc(cfg, INITIAL, before, Event(p, a));
    assert Avoids(cfg, INITIAL, before + [Event(p, a)], ExpiresAttempted);
  }

  // ---------- building blocks ----------

  lemma DemoAccepts(p: Pid, id: string)
    ensures ValidateExecution(DEMO, p, DemoPayload(id), DemoRow(id), 0, 0) == Valid(DemoCore(id))
  {
  }

  /** A process prepares a request whose obligation is free. */
  lemma DemoPrepare(s: State, p: Pid, id: string) returns (s': State)
    requires p !in s.procs && id !in s.preparations && ObligationFree(s.preparations, "obligation")
    ensures Does(DEMO, s, p, s')
    ensures s'.procs == s.procs && s'.attempts == s.attempts && s'.sends == s.sends
    ensures s'.preparations == s.preparations[id := DemoRow(id)]
  {
    s' := Prepares(DEMO, s, p, DemoRequest(id), DemoMessage(id), "simulation", 100, 0);
  }

  /** It validates the execution of its request. */
  lemma DemoValidate(s: State, p: Pid, id: string) returns (s': State)
    requires p !in s.procs && id in s.preparations && s.preparations[id] == DemoRow(id)
    ensures Does(DEMO, s, p, s') && s' == s.(procs := s.procs[p := DemoReady(id)])
  {
    var read := Reads(DEMO, s, p, DemoPayload(id));
    DemoAccepts(p, id);
    s' := Validates(DEMO, read, p, 0, 0);
    DoesOn(DEMO, s, p, read, s');
    assert s'.procs == s.procs[p := DemoReady(id)];
  }

  lemma DemoArm(s: State, p: Pid, id: string) returns (s': State)
    requires p !in s.procs && id !in s.preparations && ObligationFree(s.preparations, "obligation")
    ensures Does(DEMO, s, p, s')
    ensures s'.procs == s.procs[p := DemoReady(id)] && s'.attempts == s.attempts && s'.sends == s.sends
    ensures s'.preparations == s.preparations[id := DemoRow(id)]
  {
    var saved := DemoPrepare(s, p, id);
    s' := DemoValidate(saved, p, id);
    DoesOn(DEMO, s, p, saved, s');
  }

  ghost predicate Unused(s: State, id: string) {
    id !in s.attempts && !AuthorizationUsed(s.attempts, DemoAuthorization(id).id)
  }

  /** It claims and sends the request. */
  lemma DemoSend(s: State, p: Pid, id: string, outcome: SendOutcome) returns (s': State)
    requires p in s.procs && s.procs[p] == DemoReady(id) && Unused(s, id)
    ensures Does(DEMO, s, p, s')
    ensures s'.procs == s.procs[p := ExecSent(id, DemoCore(id), DemoRow(id).prepared, outcome)]
    ensures s'.preparations == s.preparations && s'.sends == s.sends + [SendOf(id, DemoCore(id))]
    ensures s'.attempts == s.attempts[id := StartedAttempt(DemoCore(id), 0)]
  {
    var claimed := Claims(DEMO, s, p, 0);
    s' := Sends(DEMO, claimed, p, outcome);
    DoesOn(DEMO, s, p, claimed, s');
    assert s'.procs == s.procs[p := ExecSent(id, DemoCore(id), DemoRow(id).prepared, outcome)];
  }

  /** It claims and sends the request, and records its submission. */
  lemma DemoSubmit(s: State, p: Pid, id: string) returns (s': State)
    requires p in s.procs && s.procs[p] == DemoReady(id) && Unused(s, id)
    ensures Does(DEMO, s, p, s')
    ensures s'.procs == s.procs - {p} && s'.preparations == s.preparations
    ensures s'.sends == s.sends + [SendOf(id, DemoCore(id))]
    ensures s'.attempts.Keys == s.attempts.Keys + {id}
    ensures s'.attempts[id].core == DemoCore(id) && s'.attempts[id].state == SUBMITTED
    ensures forall x :: x in s.attempts ==> s'.attempts[x].core == s.attempts[x].core
  {
    var sent := DemoSend(s, p, id, Accepted(DemoSignature(id)));
    s' := RecordsSubmission(DEMO, sent, p, 0);
    DoesOn(DEMO, s, p, sent, s');
    assert s'.procs == s.procs - {p};
  }

  /** A process prepares, sends and records the submission of a request. */
  lemma DemoExecute(s: State, p: Pid, id: string) returns (s': State)
    requires p !in s.procs && id !in s.preparations && ObligationFree(s.preparations, "obligation") && Unused(s, id)
    ensures Does(DEMO, s, p, s')
    ensures s'.procs == s.procs && s'.preparations == s.preparations[id := DemoRow(id)]
    ensures s'.sends == s.sends + [SendOf(id, DemoCore(id))]
    ensures s'.attempts.Keys == s.attempts.Keys + {id}
    ensures s'.attempts[id].core == DemoCore(id) && s'.attempts[id].state == SUBMITTED
    ensures forall x :: x in s.attempts ==> s'.attempts[x].core == s.attempts[x].core
  {
    var ready := DemoArm(s, p, id);
    s' := DemoSubmit(ready, p, id);
    DoesOn(DEMO, s, p, ready, s');
    assert s'.procs == s.procs;
  }

  lemma DemoIdsDiffer()
    ensures DemoAuthorization("r1").id != DemoAuthorization("r2").id && DemoSignature("r1") != DemoSignature("r2")
  {
    assert DemoAuthorization("r1").id[18] == '1' && DemoAuthorization("r2").id[18] == '2';
    assert DemoMessage("r1")[12] == '1' && DemoMessage("r2")[12] == '2';
    assert DemoSignature("r1")[13..] == DemoMessage("r1") && DemoSignature("r2")[13..] == DemoMessage("r2");
  }

  /** The second request is unused while only the first was claimed. */
  lemma SecondIsUnused(s: State)
    requires s.attempts.Keys <= {"r1"} && ("r1" in s.attempts ==> s.attempts["r1"].core == DemoCore("r1"))
    ensures Unused(s, "r2")
  {
    DemoIdsDiffer();
  }

  lemma FirstIsUnused(s: State)
    requires s.attempts.Keys <= {"r2"} && ("r2" in s.attempts ==> s.attempts["r2"].core == DemoCore("r2"))
    ensures Unused(s, "r1")
  {
    DemoIdsDiffer();
  }

  lemma SecondIsAdmissible(s: State)
    requires "r2" !in s.preparations && Unused(s, "r2")
    ensures PlanOpen(DEMO, s, "obligation")
  {
    DemoAccepts(0, "r2");
    AcceptableIffValidAtSomeTime(DEMO, 0, DemoPayload("r2"), DemoRow("r2"));
    assert Admissible(DEMO, s, 0, DemoRequest("r2"), DemoMessage("r2"), "simulation", 0, 0, DemoPayload("r2"));
  }

  /** Process 1 runs recover until it finds the unattempted preparation overdue. */
  lemma DemoOverdue(s: State, id: string) returns (s': State)
    requires 1 !in s.procs && id !in s.attempts && id in s.preparations && s.preparations[id] == DemoRow(id)
    ensures Does(DEMO, s, 1, s')
    ensures s' == s.(procs := s.procs[1 := Expiring(id, true)])
  {
    var fallen := FallsBack(DEMO, s, 1, id);
    s' := FindsOverdue(DEMO, fallen, 1, 60, 0);
    DoesOn(DEMO, s, 1, fallen, s');
    assert s'.procs == s.procs[1 := Expiring(id, true)];
  }

  // ---------- an obligation sent twice ----------

  /** The first request is submitted by a single uninterrupted process. */
  lemma FirstRequestSubmitted() returns (s: State)
    ensures Does(DEMO, INITIAL, 0, s) && s.procs == map[]
    ensures s.sends == [SendOf("r1", DemoCore("r1"))] && s.preparations == map["r1" := DemoRow("r1")]
    ensures s.attempts.Keys == {"r1"} && s.attempts["r1"].core == DemoCore("r1") && s.attempts["r1"].state == SUBMITTED
  {
    s := DemoExecute(INITIAL, 0, "r1");
  }

  /** A late replay then expires it. */
  lemma FirstRequestSentAndExpired() returns (s: State)
    ensures ReachableAtomically(DEMO, s) && s.procs == map[]
    ensures s.sends == [SendOf("r1", DemoCore("r1"))]
    ensures s.preparations == map["r1" := DemoRow("r1").(state := EXPIRED, updatedAt := 60)]
    ensures s.attempts.Keys == {"r1"} && s.attempts["r1"].core == DemoCore("r1")
  {
    var submitted := FirstRequestSubmitted();
    var late := FindsLate(DEMO, submitted, 0, DemoPayload("r1"));
    InitialIsReachable(DEMO);
    DoesOn(DEMO, INITIAL, 0, submitted, late);
    DoesAtomically(DEMO, INITIAL, 0, late);
    s := Expires(DEMO, late, 0, 60);
    StepAtomicallyReaches(DEMO, late, 0, ExpireRow(60));
  }

  ghost predicate SentTwice(s: State) {
    && |s.sends| == 2 && s.sends[0].signature != s.sends[1].signature
    && var a, b := s.sends[0].requestId, s.sends[1].requestId;
       a != b && IsOf(s.preparations, a, "obligation") && IsOf(s.preparations, b, "obligation")
  }

  lemma BothAreSent(s: State, a: string, b: string)
    requires (a == "r1" && b == "r2") || (a == "r2" && b == "r1")
    requires s.sends == [SendOf(a, DemoCore(a))] + [SendOf(b, DemoCore(b))]
    requires IsOf(s.preparations, a, "obligation") && IsOf(s.preparations, b, "obligation")
    ensures SentTwice(s)
  {
    DemoIdsDiffer();
    assert s.sends[0] == SendOf(a, DemoCore(a)) && s.sends[1] == SendOf(b, DemoCore(b));
  }

  /** Even without interleaving, one obligation can be sent twice under two request ids: a late
      replay expires the preparation of a submitted request and frees its obligation. */
  lemma ObligationSentTwice() returns (s: State)
    ensures ReachableAtomically(DEMO, s) && SentTwice(s)
  {
    var first := FirstRequestSentAndExpired();
    SecondIsUnused(first);
    s := DemoExecute(first, 0, "r2");
    DoesAtomically(DEMO, first, 0, s);
    BothAreSent(s, "r1", "r2");
  }

  /** Process 0 holds a validated request that process 1 has fenced. */
  lemma ReadyAndFenced() returns (s: State)
    ensures ReachableGuarded(DEMO, s) && Fenced("r1") in s.facts
    ensures s.procs == map[0 := DemoReady("r1")] && s.attempts == map[] && s.sends == []
    ensures s.preparations == map["r1" := DemoRow("r1").(state := EXPIRED, updatedAt := 60)]
  {
    InitialIsReachable(DEMO);
    var ready := DemoArm(INITIAL, 0, "r1");
    DoesGuarded(DEMO, INITIAL, 0, ready);
    var overdue := DemoOverdue(ready, "r1");
    DoesGuarded(DEMO, ready, 1, overdue);
    s := Expires(DEMO, overdue, 1, 60);
    StepGuarded(DEMO, overdue, 1, ExpireRow(60));
  }

  /** Process 1 prepares and sends another request of the obligation. */
  lemma AnotherSentMeanwhile() returns (s: State)
    ensures ReachableGuarded(DEMO, s) && 0 in s.procs && s.procs[0] == DemoReady("r1") && Unused(s, "r1")
    ensures s.sends == [SendOf("r2", DemoCore("r2"))]
    ensures IsOf(s.preparations, "r1", "obligation") && IsOf(s.preparations, "r2", "obligation")
  {
    var fenced := ReadyAndFenced();
    SecondIsUnused(fenced);
    s := DemoExecute(fenced, 1, "r2");
    DoesGuarded(DEMO, fenced, 1, s);
    FirstIsUnused(s);
  }

  /** With interleaving, never expiring a claimed request is not enough: process 1 fences a request,
      prepares and sends another one, and process 0 then sends the first. */
  lemma ObligationSentTwiceByRace() returns (s: State)
    ensures ReachableGuarded(DEMO, s) && SentTwice(s)
  {
    var meanwhile := AnotherSentMeanwhile();
    s := DemoSend(meanwhile, 0, "r1", Lost);
    DoesGuarded(DEMO, meanwhile, 0, s);
    BothAreSent(s, "r2", "r1");
  }

  // ---------- a fence passed, a verdict lost, a rejection remade ----------

  lemma GuardedIsReachable(cfg: Config, s: State)
    requires ReachableGuarded(cfg, s)
    ensures Reachable(cfg, s)
  {
  }

  /** With interleaving, a request that recover answered as failed_before_broadcast and free to
      rematerialize can still be sent. */
  lemma FencedCanBeSent() returns (s: State, s': State)
    ensures Reachable(DEMO, s) && Fenced("r1") in s.facts
    ensures Leads(DEMO, s, s') && SentFor(s', "r1")
  {
    s := ReadyAndFenced();
    GuardedIsReachable(DEMO, s);
    s' := DemoSend(s, 0, "r1", Lost);
    DoesLeads(DEMO, s, 0, s');
    assert s'.sends[0].requestId == "r1";
  }

  /** The process's broadcast is rejected, and it records that. */
  lemma DemoReject(s: State, p: Pid, id: string) returns (s': State)
    requires p in s.procs && s.procs[p] == DemoReady(id) && Unused(s, id)
    ensures Does(DEMO, s, p, s')
    ensures s'.procs == s.procs - {p} && s'.preparations == s.preparations
    ensures s'.attempts == AfterRejection(s.attempts[id := StartedAttempt(DemoCore(id), 0)], id, 0)
  {
    var sent := DemoSend(s, p, id, Rejected);
    s' := RecordsRejection(DEMO, sent, p, 0);
    DoesOn(DEMO, s, p, sent, s');
    assert s'.procs == s.procs - {p};
  }

  lemma FirstRequestRejected() returns (s: State)
    ensures ReachableAtomically(DEMO, s) && s.procs == map[] && s.preparations == map["r1" := DemoRow("r1")]
    ensures s.attempts.Keys == {"r1"} && s.attempts["r1"].core == DemoCore("r1") && s.attempts["r1"].state == FAILED
    ensures s.attempts["r1"].observation == Some(DefinitiveRejection)
  {
    var ready := DemoArm(INITIAL, 0, "r1");
    s := DemoReject(ready, 0, "r1");
    DoesOn(DEMO, INITIAL, 0, ready, s);
    InitialIsReachable(DEMO);
    DoesAtomically(DEMO, INITIAL, 0, s);
  }

  /** A definitive rejection, without interleaving: recover then answers with permission to
      rematerialize, and a second request of the obligation can be sent. */
  lemma RejectionAuthorizesAnother() returns (s: State)
    ensures ReachableAtomically(DEMO, s) && RecoverAnswered("r1", true) in s.facts
    ensures "r1" in s.attempts && s.attempts["r1"].observation == Some(DefinitiveRejection)
    ensures Open(DEMO, s, "obligation")
  {
    var rejected := FirstRequestRejected();
    s := RecoversFailed(DEMO, rejected, 0, "r1", 0);
    DoesAtomically(DEMO, rejected, 0, s);
    SecondIsUnused(s);
    SecondIsAdmissible(s);
  }

  /** Two processes read the submitted attempt. */
  lemma SubmittedReadTwice(s: State) returns (s': State)
    requires Reachable(DEMO, s) && s.procs == map[]
    requires "r1" in s.preparations && "r1" in s.attempts && s.attempts["r1"].state == SUBMITTED
    ensures Reachable(DEMO, s') && s'.attempts == s.attempts
    ensures var pc := Observing("r1", StatusQuery, s.preparations["r1"], s.attempts["r1"]);
            s'.procs == map[1 := pc, 2 := pc]
  {
    var once := DemoRead(s, 2, "r1");
    s' := DemoRead(once, 1, "r1");
  }

  /** With interleaving, a confirmed attempt can lose its state to a status query that read it earlier. */
  lemma ConfirmedCanBeOverwritten() returns (s: State, events: seq<Event>)
    ensures Reachable(DEMO, s) && "r1" in s.attempts && s.attempts["r1"].state == CONFIRMED
    ensures Run(DEMO, s, events).Some? && Overwritten(Run(DEMO, s, events).value, "r1", CONFIRMED)
  {
    var submitted := FirstRequestSubmitted();
    InitialIsReachable(DEMO);
    DoesLeads(DEMO, INITIAL, 0, submitted);
    LeadsReachably(DEMO, INITIAL, submitted);
    s := SubmittedReadTwice(submitted);
    s := DemoConfirm(s, 1, "r1");
    assert Stale(s, 2, "r1");
    events := StaleCanOverwrite(DEMO, s, 2, "r1");
  }

  /** A process starts a status query and reads the submitted attempt. */
  lemma DemoRead(s: State, p: Pid, id: string) returns (s': State)
    requires Reachable(DEMO, s) && p !in s.procs
    requires id in s.preparations && id in s.attempts && s.attempts[id].state == SUBMITTED
    ensures Reachable(DEMO, s')
    ensures s' == s.(procs := s.procs[p := Observing(id, StatusQuery, s.preparations[id], s.attempts[id])])
  {
    ReachableStep(DEMO, s, p, QueryBegin(id, StatusQuery));
    var s1 := Step(DEMO, s, p, QueryBegin(id, StatusQuery)).value;
    ReachableStep(DEMO, s1, p, QueryAttempt);
    s' := Step(DEMO, s1, p, QueryAttempt).value;
    assert s'.procs == s.procs[p := Observing(id, StatusQuery, s.preparations[id], s.attempts[id])];
  }

  /** The process observes a confirmation and records it. */
  lemma DemoConfirm(s: State, p: Pid, id: string) returns (s': State)
    requires Reachable(DEMO, s) && id in s.attempts && p in s.procs
    requires s.procs[p].Observing? && s.procs[p].requestId == id
    ensures Reachable(DEMO, s') && id in s'.attempts && s'.attempts[id].state == CONFIRMED
    ensures forall q :: q != p && q in s.procs ==> q in s'.procs && s'.procs[q] == s.procs[q]
  {
    ReachableStep(DEMO, s, p, Observe(0, Status(false, true)));
    var s1 := Step(DEMO, s, p, Observe(0, Status(false, true))).value;
    ReachableStep(DEMO, s1, p, Record(0));
    s' := Step(DEMO, s1, p, Record(0)).value;
  }
}
