/** The durable journal at the gateway boundary (gateway/journal.py): request rows and an
    append-only list of events, numbered from 1 in insertion order. */
module GatewayJournals {
  import opened Prelude

  datatype Request = Request(id: string, command: string, hash: string)

  datatype Response = Response(
    requestId: string,
    command: string,
    ok: bool,
    replayed: bool,
    body: string,
    sequence: Option<nat>)

  datatype ResponseKind =
    | REQUEST_COMPLETED
    | REQUEST_FAILED
    | RESPONSE_REPLAYED
    | CONFLICT_RESPONSE
    | RECOVERY_RESPONSE

  datatype EventBody =
    | Reserved(hash: string, command: string)
    | ConflictDetected(storedHash: string, receivedHash: string)
    | RecoveryRequired(state: RowState)
    | Empty
    | Responded(kind: ResponseKind, response: Response)

  datatype EventRow = EventRow(requestId: string, body: EventBody)

  datatype RowState = RESERVED | COMPLETED | FAILED

  datatype RequestRow = RequestRow(command: string, hash: string, response: Option<Response>, state: RowState)

  datatype Journal = Journal(rows: map<string, RequestRow>, events: seq<EventRow>)

  const EMPTY := Journal(map[], [])

  datatype Reservation =
    | New(sequence: nat)
    | Replay(response: Response)
    | Conflict(sequence: nat)
    | NeedsRecovery(sequence: nat)

  // ---------- transactions as functions ----------

  function WithEvent(j: Journal, requestId: string, body: EventBody): Journal {
    j.(events := j.events + [EventRow(requestId, body)])
  }

  /** The response that _response_event persists: the one given, numbered by its event. */
  function Numbered(j: Journal, response: Response): Response {
    response.(sequence := Some(|j.events| + 1))
  }

  function WithResponse(j: Journal, requestId: string, kind: ResponseKind, response: Response): Journal {
    WithEvent(j, requestId, Responded(kind, Numbered(j, response)))
  }

  function AfterReserve(j: Journal, r: Request): Journal {
    if r.id !in j.rows then
      WithEvent(j.(rows := j.rows[r.id := RequestRow(r.command, r.hash, None, RESERVED)]), r.id, Reserved(r.hash, r.command))
    else
      var row := j.rows[r.id];
      if row.hash != r.hash then WithEvent(j, r.id, ConflictDetected(row.hash, r.hash))
      else if row.response.Some? then
        WithResponse(j, r.id, RESPONSE_REPLAYED, row.response.value.(replayed := true))
      else WithEvent(j, r.id, RecoveryRequired(row.state))
  }

  function ReserveResult(j: Journal, r: Request): Reservation {
    if r.id !in j.rows then New(|j.events| + 1)
    else
      var row := j.rows[r.id];
      if row.hash != r.hash then Conflict(|j.events| + 1)
      else if row.response.Some? then Replay(Numbered(j, row.response.value.(replayed := true)))
      else NeedsRecovery(|j.events| + 1)
  }

  function AfterComplete(j: Journal, r: Request, response: Response, failed: bool): Journal {
    var kind := if failed then REQUEST_FAILED else REQUEST_COMPLETED;
    var next := WithResponse(j, r.id, kind, response);
    if r.id in j.rows && j.rows[r.id].hash == r.hash then
      next.(rows := j.rows[r.id := j.rows[r.id].(
        response := Some(Numbered(j, response)), state := if failed then FAILED else COMPLETED)])
    else next
  }

  // ---------- what the journal keeps ----------

  /** A response is stored as the event its own number points to. */
  ghost predicate Journaled(j: Journal, response: Response) {
    && response.sequence.Some? && 1 <= response.sequence.value <= |j.events|
    && var body := j.events[response.sequence.value - 1].body;
       body.Responded? && body.response == response
  }

  /** Events are never rewritten; rows keep their request and, once set, their response. */
  ghost predicate Extends(j: Journal, j': Journal) {
    && j.events <= j'.events
    && forall id :: id in j.rows ==>
         && id in j'.rows && j'.rows[id].hash == j.rows[id].hash && j'.rows[id].command == j.rows[id].command
         && (j.rows[id].response.Some? ==> j'.rows[id] == j.rows[id])
  }

  /** The same answer, apart from the replay flag and the number. */
  predicate SameAnswer(a: Response, b: Response) {
    a == b.(replayed := a.replayed, sequence := a.sequence)
  }

  lemma ReserveDisposition(j: Journal, r: Request)
    ensures ReserveResult(j, r).New? <==> r.id !in j.rows
    ensures ReserveResult(j, r).Conflict? <==> r.id in j.rows && j.rows[r.id].hash != r.hash
    ensures ReserveResult(j, r).Replay? <==>
              r.id in j.rows && j.rows[r.id].hash == r.hash && j.rows[r.id].response.Some?
    ensures Extends(j, AfterReserve(j, r)) && |AfterReserve(j, r).events| == |j.events| + 1
    ensures ReserveResult(j, r).Replay? ==>
              Journaled(AfterReserve(j, r), ReserveResult(j, r).response) &&
              SameAnswer(ReserveResult(j, r).response, j.rows[r.id].response.value) &&
              ReserveResult(j, r).response.replayed
  {
  }

  /** The journal itself; each public method is one database transaction. */
  class GatewayJournal {
    var rows: map<string, RequestRow>
    var events: seq<EventRow>

    ghost function Contents(): Journal
      reads this
    {
      Journal(rows, events)
    }

    constructor ()
      ensures Contents() == EMPTY
    {
      rows, events := map[], [];
    }

    /** INSERT into the event table; returns the row number. */
    method InsertEvent(requestId: string, body: EventBody) returns (sequence: nat)
      modifies this`events
      ensures Contents() == WithEvent(old(Contents()), requestId, body)
      ensures sequence == |old(events)| + 1 == |events|
    {
      events := events + [EventRow(requestId, body)];
      sequence := |events|;
    }

    /** Inserts an empty event to learn its number, then overwrites it with the numbered response. */
    method ResponseEvent(requestId: string, kind: ResponseKind, response: Response) returns (persisted: Response)
      modifies this`events
      ensures Contents() == WithResponse(old(Contents()), requestId, kind, response)
      ensures persisted == Numbered(old(Contents()), response)
    {
      var sequence := InsertEvent(requestId, Empty);
      persisted := response.(sequence := Some(sequence));
      events := events[sequence - 1 := EventRow(requestId, Responded(kind, persisted))];
    }

    method Reserve(r: Request) returns (reservation: Reservation)
      modifies this
      ensures Contents() == AfterReserve(old(Contents()), r)
      ensures reservation == ReserveResult(old(Contents()), r)
      ensures |events| == |old(events)| + 1 && events[..|old(events)|] == old(events) && events[|old(events)|].requestId == r.id
      ensures r.id !in old(rows) ==>
                && reservation == New(|events|)
                && rows == old(rows)[r.id := RequestRow(r.command, r.hash, None, RESERVED)]
                && events[|old(events)|].body == Reserved(r.hash, r.command)
      ensures r.id in old(rows) ==> rows == old(rows)
      ensures r.id in old(rows) && old(rows)[r.id].hash != r.hash ==>
                && reservation == Conflict(|events|)
                && events[|old(events)|].body == ConflictDetected(old(rows)[r.id].hash, r.hash)
      ensures r.id in old(rows) && old(rows)[r.id].hash == r.hash && old(rows)[r.id].response.Some? ==>
                var response := old(rows)[r.id].response.value.(replayed := true, sequence := Some(|events|));
                && reservation == Replay(response)
                && events[|old(events)|].body == Responded(RESPONSE_REPLAYED, response)
      ensures r.id in old(rows) && old(rows)[r.id].hash == r.hash && old(rows)[r.id].response.None? ==>
                && reservation == NeedsRecovery(|events|)
                && events[|old(events)|].body == RecoveryRequired(old(rows)[r.id].state)
    {
      if r.id !in rows {
        rows := rows[r.id := RequestRow(r.command, r.hash, None, RESERVED)];
        var sequence := InsertEvent(r.id, Reserved(r.hash, r.command));
        return New(sequence);
      }
      var row := rows[r.id];
      if row.hash != r.hash {
        var sequence := InsertEvent(r.id, ConflictDetected(row.hash, r.hash));
        return Conflict(sequence);
      }
      if row.response.Some? {
        var response := ResponseEvent(r.id, RESPONSE_REPLAYED, row.response.value.(replayed := true));
        return Replay(response);
      }
      var sequence := InsertEvent(r.id, RecoveryRequired(row.state));
      return NeedsRecovery(sequence);
    }

    method RecordResponse(requestId: string, kind: ResponseKind, response: Response) returns (persisted: Response)
      modifies this
      ensures Contents() == WithResponse(old(Contents()), requestId, kind, response)
      ensures persisted == Numbered(old(Contents()), response)
      ensures persisted == response.(sequence := Some(|events|)) && rows == old(rows)
      ensures events == old(events) + [EventRow(requestId, Responded(kind, persisted))]
    {
      persisted := ResponseEvent(requestId, kind, response);
    }

    method Complete(r: Request, response: Response, failed: bool) returns (persisted: Response)
      modifies this
      ensures Contents() == AfterComplete(old(Contents()), r, response, failed)
      ensures persisted == Numbered(old(Contents()), response)
      ensures persisted == response.(sequence := Some(|events|))
      ensures events == old(events) + [EventRow(r.id, Responded(if failed then REQUEST_FAILED else REQUEST_COMPLETED, persisted))]
      ensures rows == if r.id in old(rows) && old(rows)[r.id].hash == r.hash
                      then old(rows)[r.id := RequestRow(old(rows)[r.id].command, r.hash, Some(persisted), if failed then FAILED else COMPLETED)]
                      else old(rows)
    {
      persisted := ResponseEvent(r.id, if failed then REQUEST_FAILED else REQUEST_COMPLETED, response);
      if r.id in rows && rows[r.id].hash == r.hash {
        rows := rows[r.id := rows[r.id].(
          response := Some(persisted), state := if failed then FAILED else COMPLETED)];
      }
    }
  }
}
