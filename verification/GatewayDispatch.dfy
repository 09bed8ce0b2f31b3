/** Dispatch with durable idempotency (gateway/service.py): any number of processes handle
    requests against one journal and may crash between any two transactions. */
module GatewayDispatch {
  import opened Prelude
  import opened GatewayJournals

  type Pid = nat

  /** How a backend call ends: a result, a protocol error, or any other exception. */
  datatype BackendOutcome = Result(body: string) | Refused(error: string) | Exploded

  datatype Pc =
    | Dispatching(request: Request)
    | Completing(request: Request, response: Response, failed: bool)
    | Responding(request: Request, kind: ResponseKind, response: Response)

  /** Why a response left the gateway. */
  datatype Answer = FreshAnswer(response: Response) | ReplayAnswer(response: Response) | ErrorAnswer(response: Response)

  datatype State = State(journal: Journal, procs: map<Pid, Pc>, dispatched: seq<string>, returned: seq<Answer>)

  const INITIAL := State(EMPTY, map[], [], [])

  datatype Action =
    | Begin(request: Request)
    | Dispatch(outcome: BackendOutcome)
    | Commit
    | Abort
    | Crash

  const CONFLICT_BODY := "idempotency_conflict"
  const RECOVERY_BODY := "needs_recovery"
  const FAILURE_BODY := "backend_failure"

  function Envelope(r: Request, ok: bool, body: string): Response {
    Response(r.id, r.command, ok, false, body, None)
  }

  /** The response built from the backend's outcome, and whether it is stored as failed. */
  function OutcomeResponse(r: Request, outcome: BackendOutcome): (Response, bool) {
    match outcome
    case Result(body) => (Envelope(r, true, body), false)
    case Refused(error) => (Envelope(r, false, error), true)
    case Exploded => (Envelope(r, false, FAILURE_BODY), true)
  }

  /** The first answer to a request: the backend's result if it was stored, the error of a refusal,
      and a general failure for any other exception, also one while storing the result. */
  ghost predicate AnswersOutcome(r: Request, outcome: BackendOutcome, storeFails: bool, response: Response) {
    && response.requestId == r.id && response.command == r.command && !response.replayed
    && (response.ok <==> outcome.Result? && !storeFails)
    && (outcome.Result? && !storeFails ==> response.body == outcome.body)
    && (outcome.Refused? ==> response.body == outcome.error)
    && (outcome.Exploded? || (outcome.Result? && storeFails) ==> response.body == "backend_failure")
  }

  /** The answer to a known request id: a conflict for another input, the stored response marked as a
      replay, or the demand for recovery while there is none. */
  ghost predicate AnswersKnown(row: RequestRow, r: Request, response: Response) {
    if row.hash != r.hash then response == Response(r.id, r.command, false, false, "idempotency_conflict", response.sequence)
    else if row.response.Some? then response == row.response.value.(replayed := true, sequence := response.sequence)
    else response == Response(r.id, r.command, false, false, "needs_recovery", response.sequence)
  }

  function BeginStep(s: State, p: Pid, r: Request): State {
    var next := s.(journal := AfterReserve(s.journal, r));
    match ReserveResult(s.journal, r)
    case New(_) => next.(procs := s.procs[p := Dispatching(r)])
    case Replay(response) => next.(returned := s.returned + [ReplayAnswer(response)])
    case Conflict(_) => next.(procs := s.procs[p := Responding(r, CONFLICT_RESPONSE, Envelope(r, false, CONFLICT_BODY))])
    case NeedsRecovery(_) => next.(procs := s.procs[p := Responding(r, RECOVERY_RESPONSE, Envelope(r, false, RECOVERY_BODY))])
  }

  function DispatchStep(s: State, p: Pid, r: Request, outcome: BackendOutcome): State {
    var (response, failed) := OutcomeResponse(r, outcome);
    s.(procs := s.procs[p := Completing(r, response, failed)], dispatched := s.dispatched + [r.id])
  }

  function CompleteStep(s: State, p: Pid, pc: Pc): State
    requires pc.Completing?
  {
    s.(journal := AfterComplete(s.journal, pc.request, pc.response, pc.failed),
       procs := s.procs - {p},
       returned := s.returned + [FreshAnswer(Numbered(s.journal, pc.response))])
  }

  function RespondStep(s: State, p: Pid, pc: Pc): State
    requires pc.Responding?
  {
    s.(journal := WithResponse(s.journal, pc.request.id, pc.kind, pc.response),
       procs := s.procs - {p},
       returned := s.returned + [ErrorAnswer(Numbered(s.journal, pc.response))])
  }

  /** A transaction that fails: a successful completion falls back to a recorded failure, any
      other one leaves the handler with an exception. */
  function AbortStep(s: State, p: Pid, pc: Pc): State {
    if pc.Completing? && !pc.failed then
      s.(procs := s.procs[p := Completing(pc.request, Envelope(pc.request, false, FAILURE_BODY), true)])
    else s.(procs := s.procs - {p})
  }

  function Step(s: State, p: Pid, a: Action): Option<State> {
    if p !in s.procs then
      if a.Begin? then Some(BeginStep(s, p, a.request)) else None
    else
      var pc := s.procs[p];
      match a
      case Begin(_) => None
      case Dispatch(outcome) => if pc.Dispatching? then Some(DispatchStep(s, p, pc.request, outcome)) else None
      case Commit =>
        if pc.Completing? then Some(CompleteStep(s, p, pc))
        else if pc.Responding? then Some(RespondStep(s, p, pc)) else None
      case Abort => if pc.Dispatching? then None else Some(AbortStep(s, p, pc))
      case Crash => Some(s.(procs := s.procs - {p}))
  }

  datatype Event = Event(pid: Pid, action: Action)

  function Run(s: State, events: seq<Event>): Option<State>
    decreases |events|
  {
    if events == [] then Some(s)
    else
      match Step(s, events[0].pid, events[0].action)
      case None => None
      case Some(next) => Run(next, events[1..])
  }

  // ---------- the invariant ----------

  /** The process holds the only claim on its request, which has no response yet. */
  ghost predicate Holds(pc: Pc) {
    pc.Dispatching? || pc.Completing?
  }

  ghost predicate PcFits(s: State, pc: Pc) {
    && (Holds(pc) ==>
         && pc.request.id in s.journal.rows && s.journal.rows[pc.request.id].hash == pc.request.hash
         && s.journal.rows[pc.request.id].response.None?)
    && (pc.Dispatching? ==> pc.request.id !in s.dispatched)
    && (pc.Completing? ==> pc.response.requestId == pc.request.id && !pc.response.replayed)
  }

  ghost predicate PcsFit(s: State) {
    forall p :: p in s.procs ==> PcFits(s, s.procs[p])
  }

  ghost predicate HoldersExclusive(s: State) {
    forall p, q :: p in s.procs && q in s.procs && SameHold(s.procs[p], s.procs[q]) ==> p == q
  }

  ghost predicate SameHold(a: Pc, b: Pc) {
    Holds(a) && Holds(b) && a.request.id == b.request.id
  }

  ghost predicate DispatchesDistinct(s: State) {
    && (forall i :: 0 <= i < |s.dispatched| ==> s.dispatched[i] in s.journal.rows)
    && forall i, j :: 0 <= i < j < |s.dispatched| ==> s.dispatched[i] != s.dispatched[j]
  }

  ghost predicate StoredJournaled(s: State) {
    forall id :: id in s.journal.rows && s.journal.rows[id].response.Some? ==>
      var response := s.journal.rows[id].response.value;
      Journaled(s.journal, response) && response.requestId == id && !response.replayed
  }

  /** A fresh or replayed answer repeats what is stored for its request. */
  ghost predicate AnswerFits(s: State, a: Answer) {
    && Journaled(s.journal, a.response)
    && (!a.ErrorAnswer? ==>
         && a.response.requestId in s.journal.rows
         && var stored := s.journal.rows[a.response.requestId].response;
            stored.Some? && SameAnswer(a.response, stored.value) && a.response.replayed == a.ReplayAnswer?
            && (a.FreshAnswer? ==> a.response == stored.value))
  }

  ghost predicate AnswersFit(s: State) {
    forall i :: 0 <= i < |s.returned| ==> AnswerFits(s, s.returned[i])
  }

  ghost predicate NumbersDistinct(s: State) {
    forall i, j :: 0 <= i < j < |s.returned| ==>
      s.returned[i].response.sequence != s.returned[j].response.sequence
  }

  ghost predicate Inv(s: State) {
    && PcsFit(s) && HoldersExclusive(s) && DispatchesDistinct(s)
    && StoredJournaled(s) && AnswersFit(s) && NumbersDistinct(s)
  }

  // ---------- preservation ----------

  lemma AnswerFitsIsStable(s: State, s': State, a: Answer)
    requires AnswerFits(s, a) && Extends(s.journal, s'.journal)
    ensures AnswerFits(s', a)
  {
  }

  /** Earlier answers stay fitting, and a new answer numbered by a new event is distinct from them. */
  lemma AnswersStay(s: State, s': State)
    requires AnswersFit(s) && NumbersDistinct(s) && Extends(s.journal, s'.journal)
    requires s'.returned == s.returned ||
             (|s'.returned| == |s.returned| + 1 && s'.returned[..|s.returned|] == s.returned &&
              AnswerFits(s', s'.returned[|s.returned|]) &&
              s'.returned[|s.returned|].response.sequence == Some(|s.journal.events| + 1))
    ensures AnswersFit(s') && NumbersDistinct(s')
  {
    forall i | 0 <= i < |s.returned| ensures AnswerFits(s', s'.returned[i]) && s'.returned[i] == s.returned[i] {
      assert s'.returned[i] == s'.returned[..|s.returned|][i];
      AnswerFitsIsStable(s, s', s.returned[i]);
    }
  }

  lemma BeginKeepsInv(s: State, p: Pid, r: Request)
    requires Inv(s) && p !in s.procs
    ensures Inv(BeginStep(s, p, r)) && Extends(s.journal, BeginStep(s, p, r).journal)
  {
    var s' := BeginStep(s, p, r);
    ReserveDisposition(s.journal, r);
    BeginKeepsRows(s, p, r);
    if ReserveResult(s.journal, r).Replay? {
      assert AnswerFits(s', s'.returned[|s.returned|]);
    }
    AnswersStay(s, s');
  }

  lemma BeginKeepsRows(s: State, p: Pid, r: Request)
    requires PcsFit(s) && HoldersExclusive(s) && DispatchesDistinct(s) && StoredJournaled(s) && p !in s.procs
    ensures var s' := BeginStep(s, p, r);
            PcsFit(s') && HoldersExclusive(s') && DispatchesDistinct(s') && StoredJournaled(s')
  {
    var s' := BeginStep(s, p, r);
    forall q | q in s'.procs ensures PcFits(s', s'.procs[q]) {
      if q in s.procs { assert PcFits(s, s.procs[q]); }
    }
    BeginKeepsHolders(s, p, r);
  }

  lemma BeginKeepsHolders(s: State, p: Pid, r: Request)
    requires PcsFit(s) && HoldersExclusive(s) && p !in s.procs
    ensures HoldersExclusive(BeginStep(s, p, r))
  {
    forall q | q in s.procs && Holds(s.procs[q]) ensures s.procs[q].request.id in s.journal.rows {
      assert PcFits(s, s.procs[q]);
    }
  }

  lemma DispatchKeepsInv(s: State, p: Pid, outcome: BackendOutcome)
    requires Inv(s) && p in s.procs && s.procs[p].Dispatching?
    ensures Inv(DispatchStep(s, p, s.procs[p].request, outcome))
  {
    var s' := DispatchStep(s, p, s.procs[p].request, outcome);
    assert PcFits(s, s.procs[p]);
    forall q | q in s'.procs ensures PcFits(s', s'.procs[q]) {
      assert PcFits(s, s.procs[q]);
      assert q != p ==> !SameHold(s.procs[q], s.procs[p]);
    }
    AnswersStay(s, s');
  }

  lemma CompleteKeepsInv(s: State, p: Pid)
    requires Inv(s) && p in s.procs && s.procs[p].Completing?
    ensures Inv(CompleteStep(s, p, s.procs[p])) && Extends(s.journal, CompleteStep(s, p, s.procs[p]).journal)
  {
    var s' := CompleteStep(s, p, s.procs[p]);
    assert PcFits(s, s.procs[p]);
    forall q | q in s'.procs ensures PcFits(s', s'.procs[q]) {
      assert PcFits(s, s.procs[q]);
      assert !SameHold(s.procs[q], s.procs[p]);
    }
    AnswersStay(s, s');
  }

  lemma RespondKeepsInv(s: State, p: Pid)
    requires Inv(s) && p in s.procs && s.procs[p].Responding?
    ensures Inv(RespondStep(s, p, s.procs[p])) && Extends(s.journal, RespondStep(s, p, s.procs[p]).journal)
  {
    var s' := RespondStep(s, p, s.procs[p]);
    forall q | q in s'.procs ensures PcFits(s', s'.procs[q]) {
      assert PcFits(s, s.procs[q]);
    }
    AnswersStay(s, s');
  }

  lemma StepKeepsInv(s: State, p: Pid, a: Action)
    requires Inv(s) && Step(s, p, a).Some?
    ensures Inv(Step(s, p, a).value) && Extends(s.journal, Step(s, p, a).value.journal)
  {
    if p !in s.procs {
      BeginKeepsInv(s, p, a.request);
    } else if a.Dispatch? {
      DispatchKeepsInv(s, p, a.outcome);
    } else if a.Commit? && s.procs[p].Completing? {
      CompleteKeepsInv(s, p);
    } else if a.Commit? {
      RespondKeepsInv(s, p);
    } else {
      assert PcFits(s, s.procs[p]);
      AnswersStay(s, Step(s, p, a).value);
    }
  }

  lemma {:induction false} RunKeepsInv(s: State, events: seq<Event>)
    requires Inv(s) && Run(s, events).Some?
    ensures Inv(Run(s, events).value) && Extends(s.journal, Run(s, events).value.journal)
    decreases |events|
  {
    if events != [] {
      StepKeepsInv(s, events[0].pid, events[0].action);
      RunKeepsInv(Step(s, events[0].pid, events[0].action).value, events[1..]);
    }
  }

  // ---------- the theorems ----------

  ghost predicate Reachable(s: State) {
    exists events :: Run(INITIAL, events) == Some(s)
  }

  lemma ReachableInv(s: State)
    requires Reachable(s)
    ensures Inv(s)
  {
    var events :| Run(INITIAL, events) == Some(s);
    RunKeepsInv(INITIAL, events);
  }

  /** Over all processes and crashes, a request id reaches the backend at most once. */
  lemma DispatchedAtMostOnce(s: State, i: nat, j: nat)
    requires Reachable(s) && i < j < |s.dispatched|
    ensures s.dispatched[i] != s.dispatched[j]
  {
    ReachableInv(s);
  }

  /** Every response handed out is the event stored under its own number, and those numbers differ. */
  lemma ReturnedIsJournaled(s: State, i: nat)
    requires Reachable(s) && i < |s.returned|
    ensures Journaled(s.journal, s.returned[i].response)
    ensures forall j :: 0 <= j < |s.returned| && j != i ==>
              s.returned[j].response.sequence != s.returned[i].response.sequence
  {
    ReachableInv(s);
  }

  /** Whatever happens after a request was answered, its later replays repeat that answer, except
      for the replay flag and the number. */
  lemma ReplaysRepeatAnswer(s: State, events: seq<Event>, i: nat, j: nat)
    requires Reachable(s) && Run(s, events).Some?
    requires i < |s.returned| && !s.returned[i].ErrorAnswer?
    requires var later := Run(s, events).value;
             j < |later.returned| && later.returned[j].ReplayAnswer?
             && later.returned[j].response.requestId == s.returned[i].response.requestId
    ensures SameAnswer(Run(s, events).value.returned[j].response, s.returned[i].response)
    ensures Run(s, events).value.returned[j].response.replayed
  {
    ReachableInv(s);
    RunKeepsInv(s, events);
    var later := Run(s, events).value;
    assert AnswerFits(s, s.returned[i]) && AnswerFits(later, later.returned[j]);
  }

  /** Once a request has a stored response, at any later time a request with its id and its input is
      answered at once, without a dispatch, by that response with a number never handed out before. */
  lemma AnsweredInputIsReplayed(s: State, events: seq<Event>, p: Pid, r: Request)
    requires Reachable(s) && Run(s, events).Some? && p !in Run(s, events).value.procs
    requires r.id in s.journal.rows && s.journal.rows[r.id].response.Some? && s.journal.rows[r.id].hash == r.hash
    ensures var later := Run(s, events).value;
            var next := BeginStep(later, p, r);
            && Step(later, p, Begin(r)) == Some(next)
            && next.procs == later.procs && next.dispatched == later.dispatched && next.journal.rows == later.journal.rows
            && |next.returned| == |later.returned| + 1 && next.returned[..|later.returned|] == later.returned
            && var answer := next.returned[|later.returned|];
               && answer.ReplayAnswer? && answer.response.replayed
               && SameAnswer(answer.response, s.journal.rows[r.id].response.value)
               && Journaled(next.journal, answer.response)
               && forall j :: 0 <= j < |later.returned| ==> later.returned[j].response.sequence != answer.response.sequence
  {
    ReachableInv(s);
    RunKeepsInv(s, events);
    var later := Run(s, events).value;
    ReserveDisposition(later.journal, r);
    forall j | 0 <= j < |later.returned| ensures later.returned[j].response.sequence != Some(|later.journal.events| + 1) {
      assert AnswerFits(later, later.returned[j]);
    }
  }

  /** A completed request is never dispatched again and its stored response never changes. */
  lemma CompletedStays(s: State, events: seq<Event>, id: string)
    requires Reachable(s) && Run(s, events).Some?
    requires id in s.journal.rows && s.journal.rows[id].response.Some?
    ensures id in Run(s, events).value.journal.rows
    ensures Run(s, events).value.journal.rows[id] == s.journal.rows[id]
  {
    ReachableInv(s);
    RunKeepsInv(s, events);
  }

  lemma RunOne(s: State, e: Event)
    requires Step(s, e.pid, e.action).Some?
    ensures Run(s, [e]) == Step(s, e.pid, e.action)
  {
    assert [e][1..] == [];
  }

  lemma RunCons(s: State, e: Event, rest: seq<Event>)
    requires Step(s, e.pid, e.action).Some?
    ensures Run(s, [e] + rest) == Run(Step(s, e.pid, e.action).value, rest)
  {
    assert ([e] + rest)[1..] == rest;
  }

  lemma {:induction false} RunSnoc(s: State, events: seq<Event>, e: Event)
    requires Run(s, events).Some? && Step(Run(s, events).value, e.pid, e.action).Some?
    ensures Run(s, events + [e]) == Step(Run(s, events).value, e.pid, e.action)
    decreases |events|
  {
    if events == [] {
      RunOne(s, e);
      assert [] + [e] == [e];
    } else {
      var next := Step(s, events[0].pid, events[0].action).value;
      RunSnoc(next, events[1..], e);
      assert events + [e] == [events[0]] + (events[1..] + [e]);
      RunCons(s, events[0], events[1..] + [e]);
    }
  }

  // ---------- the handler ----------

  /** What a reservation does to the rows, and what a replay answers. */
  lemma ReservationAnswers(s: State, r: Request)
    requires Inv(s)
    ensures var j' := AfterReserve(s.journal, r);
            match ReserveResult(s.journal, r)
            case New(_) => r.id !in s.journal.rows && j'.rows == s.journal.rows[r.id := RequestRow(r.command, r.hash, None, RESERVED)]
            case Replay(response) =>
              && j'.rows == s.journal.rows && r.id in s.journal.rows && s.journal.rows[r.id].hash == r.hash
              && s.journal.rows[r.id].response.Some?
              && response == s.journal.rows[r.id].response.value.(replayed := true, sequence := response.sequence)
              && response.requestId == r.id && Journaled(j', response)
            case Conflict(_) => j'.rows == s.journal.rows && r.id in s.journal.rows && s.journal.rows[r.id].hash != r.hash
            case NeedsRecovery(_) =>
              && j'.rows == s.journal.rows && r.id in s.journal.rows && s.journal.rows[r.id].hash == r.hash
              && s.journal.rows[r.id].response.None?
  {
    ReserveDisposition(s.journal, r);
  }

  class ExternalExecutionGateway {
    const pid: Pid
    const journal: GatewayJournal
    ghost var dispatched: seq<string>
    ghost var returned: seq<Answer>

    ghost function Snapshot(): State
      reads this, journal
    {
      State(journal.Contents(), map[], dispatched, returned)
    }

    ghost predicate Valid()
      reads this, journal
    {
      Inv(Snapshot())
    }

    constructor (pid: Pid)
      ensures this.pid == pid && Snapshot() == INITIAL && Valid() && fresh(journal)
    {
      this.pid := pid;
      journal := new GatewayJournal();
      dispatched, returned := [], [];
    }

    /** Adds one step to the recorded run. */
    ghost method Take(s0: State, s: State, trace: seq<Event>, a: Action) returns (s': State, trace': seq<Event>)
      requires Run(s0, trace) == Some(s) && Step(s, pid, a).Some?
      ensures s' == Step(s, pid, a).value
      ensures trace' == trace + [Event(pid, a)] && Run(s0, trace') == Some(s')
    {
      RunSnoc(s0, trace, Event(pid, a));
      s' := Step(s, pid, a).value;
      trace' := trace + [Event(pid, a)];
    }

    /** handle; the backend's outcome and whether storing a success fails are parameters. The
        call is a run of the transition system, answers with a journaled response, and reaches
        the backend exactly when the request id is new. A known id is answered, by its stored
        input hash and response, with a conflict, a replay or a demand for recovery. */
    method Handle(r: Request, outcome: BackendOutcome, storeFails: bool) returns (response: Response, ghost trace: seq<Event>)
      requires Valid()
      modifies journal, this`dispatched, this`returned
      ensures Valid()
      ensures Run(old(Snapshot()), trace) == Some(Snapshot())
      ensures |returned| == |old(returned)| + 1 && returned[|old(returned)|].response == response
      ensures dispatched == old(dispatched) + (if r.id in old(journal.rows) then [] else [r.id])
      ensures Journaled(journal.Contents(), response) && response.requestId == r.id
      ensures r.id !in old(journal.rows) ==>
                && AnswersOutcome(r, outcome, storeFails, response)
                && journal.rows == old(journal.rows)[r.id :=
                     RequestRow(r.command, r.hash, Some(response), if outcome.Result? && !storeFails then COMPLETED else FAILED)]
      ensures r.id in old(journal.rows) ==>
                journal.rows == old(journal.rows) && AnswersKnown(old(journal.rows)[r.id], r, response)
    {
      ghost var s0 := Snapshot();
      ghost var s;
      var reservation;
      ReservationAnswers(s0, r);
      reservation, s, trace := ReserveRequest(s0, r);
      if reservation.New? {
        response, s, trace := DispatchNew(s0, s, trace, r, outcome, storeFails);
      } else {
        response, s, trace := AnswerKnown(s0, s, trace, r, reservation, s0.journal.rows[r.id]);
      }
      RunKeepsInv(s0, trace);
    }

    /** The reservation; a replay is handed out as it is. */
    method ReserveRequest(ghost s0: State, r: Request) returns (reservation: Reservation, ghost s: State, ghost trace: seq<Event>)
      requires s0 == Snapshot()
      modifies journal, this`returned
      ensures Run(s0, trace) == Some(s) && s.journal == journal.Contents() && s.dispatched == dispatched && s.returned == returned
      ensures reservation == ReserveResult(s0.journal, r) && journal.Contents() == AfterReserve(s0.journal, r)
      ensures s.procs == match reservation
                case New(_) => map[pid := Dispatching(r)]
                case Replay(_) => map[]
                case Conflict(_) => map[pid := Responding(r, CONFLICT_RESPONSE, Envelope(r, false, CONFLICT_BODY))]
                case NeedsRecovery(_) => map[pid := Responding(r, RECOVERY_RESPONSE, Envelope(r, false, RECOVERY_BODY))]
      ensures returned == if reservation.Replay? then old(returned) + [ReplayAnswer(reservation.response)] else old(returned)
    {
      s, trace := Take(s0, s0, [], Begin(r));
      reservation := journal.Reserve(r);
      if reservation.Replay? {
        returned := returned + [ReplayAnswer(reservation.response)];
      }
      assert s == BeginStep(s0, pid, r);
    }

    /** The answer to a request id that is known. */
    method AnswerKnown(ghost s0: State, ghost s1: State, ghost trace0: seq<Event>, r: Request, reservation: Reservation,
                       ghost row: RequestRow)
      returns (response: Response, ghost s: State, ghost trace: seq<Event>)
      requires Run(s0, trace0) == Some(s1) && !reservation.New?
      requires reservation.Conflict? <==> row.hash != r.hash
      requires reservation.Replay? <==> row.hash == r.hash && row.response.Some?
      requires reservation.Replay? ==>
                 reservation.response == row.response.value.(replayed := true, sequence := reservation.response.sequence)
      requires s1.journal == journal.Contents() && s1.dispatched == dispatched && s1.returned == returned
      requires s1.procs == match reservation
                 case Conflict(_) => map[pid := Responding(r, CONFLICT_RESPONSE, Envelope(r, false, CONFLICT_BODY))]
                 case NeedsRecovery(_) => map[pid := Responding(r, RECOVERY_RESPONSE, Envelope(r, false, RECOVERY_BODY))]
                 case _ => map[]
      requires reservation.Replay? ==>
                 Journaled(journal.Contents(), reservation.response) && |returned| > 0 && returned[|returned| - 1].response == reservation.response
      modifies journal, this`returned
      ensures Run(s0, trace) == Some(s) && s == Snapshot() && journal.rows == old(journal.rows)
      ensures Journaled(journal.Contents(), response)
      ensures if reservation.Replay? then returned == old(returned) else returned == old(returned) + [ErrorAnswer(response)]
      ensures AnswersKnown(row, r, response) && (reservation.Replay? ==> response == reservation.response)
    {
      if reservation.Replay? {
        response, s, trace := reservation.response, s1, trace0;
      } else if reservation.Conflict? {
        response, s, trace := RespondError(s0, s1, trace0, r, CONFLICT_RESPONSE, CONFLICT_BODY);
      } else {
        response, s, trace := RespondError(s0, s1, trace0, r, RECOVERY_RESPONSE, RECOVERY_BODY);
      }
    }

    /** The journaled error response to a request that may not be dispatched. */
    method RespondError(ghost s0: State, ghost s1: State, ghost trace0: seq<Event>, r: Request, kind: ResponseKind, body: string)
      returns (response: Response, ghost s: State, ghost trace: seq<Event>)
      requires Run(s0, trace0) == Some(s1)
      requires s1 == Snapshot().(procs := map[pid := Responding(r, kind, Envelope(r, false, body))])
      modifies journal, this`returned
      ensures Run(s0, trace) == Some(s) && s == Snapshot()
      ensures returned == old(returned) + [ErrorAnswer(response)] && journal.rows == old(journal.rows)
      ensures Journaled(journal.Contents(), response)
      ensures response == Envelope(r, false, body).(sequence := response.sequence)
    {
      s, trace := Take(s0, s1, trace0, Commit);
      response := journal.RecordResponse(r.id, kind, Envelope(r, false, body));
      returned := returned + [ErrorAnswer(response)];
      assert s.procs == map[];
    }

    /** The backend call and the durable completion of a newly reserved request. */
    method DispatchNew(ghost s0: State, ghost s1: State, ghost trace0: seq<Event>, r: Request, outcome: BackendOutcome, storeFails: bool)
      returns (response: Response, ghost s: State, ghost trace: seq<Event>)
      requires Run(s0, trace0) == Some(s1)
      requires s1 == Snapshot().(procs := map[pid := Dispatching(r)])
      requires r.id in journal.rows && journal.rows[r.id] == RequestRow(r.command, r.hash, None, RESERVED)
      modifies journal, this`dispatched, this`returned
      ensures Run(s0, trace) == Some(s) && s == Snapshot()
      ensures dispatched == old(dispatched) + [r.id] && returned == old(returned) + [FreshAnswer(response)]
      ensures Journaled(journal.Contents(), response)
      ensures AnswersOutcome(r, outcome, storeFails, response)
      ensures journal.rows == old(journal.rows)[r.id :=
                RequestRow(r.command, r.hash, Some(response), if outcome.Result? && !storeFails then COMPLETED else FAILED)]
    {
      s, trace := Take(s0, s1, trace0, Dispatch(outcome));
      dispatched := dispatched + [r.id];
      match outcome {
        case Result(body) =>
          if storeFails {
            s, trace := Take(s0, s, trace, Abort);
            response := journal.Complete(r, Envelope(r, false, FAILURE_BODY), true);
          } else {
            response := journal.Complete(r, Envelope(r, true, body), false);
          }
        case Refused(error) => response := journal.Complete(r, Envelope(r, false, error), true);
        case Exploded => response := journal.Complete(r, Envelope(r, false, FAILURE_BODY), true);
      }
      s, trace := Take(s0, s, trace, Commit);
      returned := returned + [FreshAnswer(response)];
      assert s.procs == map[];
    }
  }
}
