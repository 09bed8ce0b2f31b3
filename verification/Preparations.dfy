/** The durable table of prepared executions (PreparationStore in gateway/solana_prepare.py). */
module Preparations {
  import opened Prelude

  /** The prepared execution a caller receives; simulation evidence is kept out of the model. */
  datatype Prepared = Prepared(
    requestId: string,
    planHash: string,
    message: string,
    messageHash: string,
    commitmentHash: string,
    signer: string,
    expiresAt: int)

  datatype PreparationState = PREPARED | EXPIRED

  datatype PreparationRow = PreparationRow(
    obligationId: string,
    planHash: string,
    prepared: Prepared,
    lastValidBlockHeight: int,
    state: PreparationState,
    updatedAt: int)

  type PreparationTable = map<string, PreparationRow>

  /** The rows the lookup of save and replay_or_block considers. */
  predicate Matches(t: PreparationTable, requestId: string, obligationId: string, id: string) {
    id in t && (id == requestId || (t[id].obligationId == obligationId && t[id].state != EXPIRED))
  }

  /** The row the lookup may return: a match with the latest update; ties are broken arbitrarily. */
  predicate Selects(t: PreparationTable, requestId: string, obligationId: string, pick: Option<string>) {
    match pick
    case None => forall id <- t :: !Matches(t, requestId, obligationId, id)
    case Some(id) =>
      Matches(t, requestId, obligationId, id) &&
      forall other <- t :: Matches(t, requestId, obligationId, other) ==> t[other].updatedAt <= t[id].updatedAt
  }

  datatype Lookup = Fresh | Replay(prepared: Prepared) | PreparationConflict

  function LookedUp(t: PreparationTable, pick: Option<string>, requestId: string, planHash: string): Lookup
    requires pick.Some? ==> pick.value in t
  {
    match pick
    case None => Fresh
    case Some(id) =>
      if id == requestId && t[id].planHash == planHash then Replay(t[id].prepared) else PreparationConflict
  }

  /** The table after save: a row is inserted only when the lookup finds nothing. */
  function SaveTable(t: PreparationTable, pick: Option<string>, requestId: string, row: PreparationRow): PreparationTable {
    if pick.None? then t[requestId := row] else t
  }

  /** What save returns. */
  function SaveResult(t: PreparationTable, pick: Option<string>, requestId: string, row: PreparationRow): Result<Prepared, ()>
    requires pick.Some? ==> pick.value in t
  {
    match LookedUp(t, pick, requestId, row.planHash)
    case Fresh => Ok(row.prepared)
    case Replay(prepared) => Ok(prepared)
    case PreparationConflict => Err(())
  }

  function AfterExpiry(t: PreparationTable, requestId: string, now: int): PreparationTable {
    if requestId in t then t[requestId := t[requestId].(state := EXPIRED, updatedAt := now)] else t
  }

  /** At most one row of an obligation is not expired. */
  ghost predicate ObligationsExclusive(t: PreparationTable) {
    forall a, b ::
      (a in t && b in t && t[a].state != EXPIRED && t[b].state != EXPIRED && t[a].obligationId == t[b].obligationId)
      ==> a == b
  }

  /** Rows are never removed; only the state and the update time of a row ever change, and an
      expired row stays expired. */
  ghost predicate RowsKept(t: PreparationTable, t': PreparationTable) {
    forall id :: id in t ==> id in t' && SameRow(t[id], t'[id]) && (t[id].state == EXPIRED ==> t'[id].state == EXPIRED)
  }

  predicate SameRow(a: PreparationRow, b: PreparationRow) {
    a == b.(state := a.state, updatedAt := a.updatedAt)
  }

  lemma SaveKeepsObligationsExclusive(t: PreparationTable, pick: Option<string>, requestId: string, row: PreparationRow)
    requires ObligationsExclusive(t) && Selects(t, requestId, row.obligationId, pick)
    ensures ObligationsExclusive(SaveTable(t, pick, requestId, row))
    ensures RowsKept(t, SaveTable(t, pick, requestId, row))
  {
    if pick.None? {
      assert requestId in t ==> Matches(t, requestId, row.obligationId, requestId);
      forall a | a in t && t[a].state != EXPIRED ensures t[a].obligationId != row.obligationId {
        assert !Matches(t, requestId, row.obligationId, a);
      }
    }
  }

  lemma ExpireKeepsObligationsExclusive(t: PreparationTable, requestId: string, now: int)
    requires ObligationsExclusive(t)
    ensures ObligationsExclusive(AfterExpiry(t, requestId, now)) && RowsKept(t, AfterExpiry(t, requestId, now))
  {
  }

  /** Every preparation of the obligation is expired. */
  ghost predicate ObligationFree(t: PreparationTable, obligationId: string) {
    forall id :: id in t && t[id].obligationId == obligationId ==> t[id].state == EXPIRED
  }

  /** A preparation under a new request id is admitted if and only if every row of its obligation
      is expired; the tie-breaking of the lookup does not matter. */
  lemma SaveAdmitsIffObligationFree(t: PreparationTable, pick: Option<string>, requestId: string, row: PreparationRow)
    requires Selects(t, requestId, row.obligationId, pick) && requestId !in t
    ensures SaveResult(t, pick, requestId, row).Ok? <==> ObligationFree(t, row.obligationId)
    ensures SaveResult(t, pick, requestId, row).Ok? ==> SaveTable(t, pick, requestId, row) == t[requestId := row]
    ensures SaveResult(t, pick, requestId, row).Err? ==> SaveTable(t, pick, requestId, row) == t
  {
    if pick.None? {
      forall id | id in t && t[id].obligationId == row.obligationId ensures t[id].state == EXPIRED {
        assert !Matches(t, requestId, row.obligationId, id);
      }
    }
  }

  /** No other live row of the obligation is as recent as that of the request. */
  ghost predicate MostRecent(t: PreparationTable, requestId: string, obligationId: string)
    requires requestId in t
  {
    forall id :: id in t && id != requestId && t[id].obligationId == obligationId && t[id].state != EXPIRED ==>
      t[id].updatedAt < t[requestId].updatedAt
  }

  /** Another live row of the obligation is more recent. */
  ghost predicate Superseded(t: PreparationTable, requestId: string, obligationId: string)
    requires requestId in t
  {
    exists id :: id in t && id != requestId && t[id].obligationId == obligationId && t[id].state != EXPIRED
                 && t[id].updatedAt > t[requestId].updatedAt
  }

  /** What a lookup answers, whichever of several equally recent rows it picks: nothing is found for
      an unused id of a free obligation; a known request is answered again for its own plan while
      its row is the most recent; everything else is a conflict. */
  lemma LookupMeans(t: PreparationTable, pick: Option<string>, requestId: string, obligationId: string, planHash: string)
    requires Selects(t, requestId, obligationId, pick)
    ensures var r := LookedUp(t, pick, requestId, planHash);
            && (r.Fresh? <==> requestId !in t && ObligationFree(t, obligationId))
            && (r.Replay? ==> requestId in t && t[requestId].planHash == planHash && r.prepared == t[requestId].prepared
                              && !Superseded(t, requestId, obligationId))
            && (requestId in t && t[requestId].planHash == planHash && MostRecent(t, requestId, obligationId) ==> r.Replay?)
  {
    assert requestId in t ==> Matches(t, requestId, obligationId, requestId);
    if pick.None? {
      forall id | id in t && t[id].obligationId == obligationId ensures t[id].state == EXPIRED {
        assert !Matches(t, requestId, obligationId, id);
      }
    } else if requestId in t && Superseded(t, requestId, obligationId) {
      var id :| id in t && id != requestId && t[id].obligationId == obligationId && t[id].state != EXPIRED
                && t[id].updatedAt > t[requestId].updatedAt;
      assert Matches(t, requestId, obligationId, id);
    }
  }

  /** A successful save answers with the value stored for the request, and leaves it stored. */
  lemma SaveAnswersStored(t: PreparationTable, pick: Option<string>, requestId: string, row: PreparationRow)
    requires Selects(t, requestId, row.obligationId, pick)
    requires SaveResult(t, pick, requestId, row).Ok?
    ensures var t' := SaveTable(t, pick, requestId, row);
            requestId in t' && t'[requestId].planHash == row.planHash &&
            t'[requestId].prepared == SaveResult(t, pick, requestId, row).value
    ensures requestId in t ==> SaveResult(t, pick, requestId, row).value == t[requestId].prepared
  {
    assert requestId in t ==> Matches(t, requestId, row.obligationId, requestId);
  }

  lemma {:induction false} LatestExists(t: PreparationTable, ids: set<string>) returns (id: string)
    requires ids != {} && forall x <- ids :: x in t
    ensures id in ids && forall x <- ids :: t[x].updatedAt <= t[id].updatedAt
    decreases ids
  {
    var first :| first in ids;
    id := first;
    if ids - {first} != {} {
      var rest := LatestExists(t, ids - {first});
      if t[rest].updatedAt > t[first].updatedAt {
        id := rest;
      }
      assert forall x <- ids :: x == first || x in ids - {first};
    } else {
      assert forall x <- ids :: x == first || x in ids - {first};
    }
  }

  /** The store itself; each method is one database transaction. */
  class PreparationStore {
    var rows: PreparationTable

    constructor ()
      ensures rows == map[]
    {
      rows := map[];
    }

    /** SELECT ... ORDER BY updated_at DESC LIMIT 1. */
    method Select(requestId: string, obligationId: string) returns (pick: Option<string>)
      ensures Selects(rows, requestId, obligationId, pick)
    {
      ghost var matching := set id | id in rows && Matches(rows, requestId, obligationId, id);
      if exists id <- rows :: Matches(rows, requestId, obligationId, id) {
        ghost var found :| found in rows && Matches(rows, requestId, obligationId, found);
        assert found in matching;
        ghost var latest := LatestExists(rows, matching);
        assert Selects(rows, requestId, obligationId, Some(latest));
        var id :| id in rows && Selects(rows, requestId, obligationId, Some(id));
        pick := Some(id);
      } else {
        pick := None;
      }
    }

    method ReplayOrBlock(requestId: string, obligationId: string, planHash: string)
      returns (r: Lookup, ghost pick: Option<string>)
      ensures Selects(rows, requestId, obligationId, pick)
      ensures r == LookedUp(rows, pick, requestId, planHash)
      ensures r.Fresh? <==> requestId !in rows && ObligationFree(rows, obligationId)
      ensures r.Replay? ==> requestId in rows && rows[requestId].planHash == planHash && r.prepared == rows[requestId].prepared
                            && !Superseded(rows, requestId, obligationId)
      ensures requestId in rows && rows[requestId].planHash == planHash && MostRecent(rows, requestId, obligationId) ==> r.Replay?
    {
      var existing := Select(requestId, obligationId);
      pick := existing;
      LookupMeans(rows, pick, requestId, obligationId, planHash);
      if existing.None? {
        r := Fresh;
      } else if existing.value == requestId && rows[existing.value].planHash == planHash {
        r := Replay(rows[existing.value].prepared);
      } else {
        r := PreparationConflict;
      }
    }

    method Save(requestId: string, obligationId: string, planHash: string, prepared: Prepared,
                lastValidBlockHeight: int, now: int)
      returns (r: Result<Prepared, ()>, ghost pick: Option<string>)
      modifies this
      ensures Selects(old(rows), requestId, obligationId, pick)
      ensures var row := PreparationRow(obligationId, planHash, prepared, lastValidBlockHeight, PREPARED, now);
              && rows == SaveTable(old(rows), pick, requestId, row)
              && r == SaveResult(old(rows), pick, requestId, row)
      ensures requestId !in old(rows) ==> (r.Ok? <==> ObligationFree(old(rows), obligationId))
      ensures requestId !in old(rows) && r.Ok? ==>
                && r.value == prepared
                && rows == old(rows)[requestId := PreparationRow(obligationId, planHash, prepared, lastValidBlockHeight, PREPARED, now)]
      ensures requestId in old(rows) || r.Err? ==> rows == old(rows)
      ensures requestId in old(rows) && r.Ok? ==>
                && r.value == old(rows)[requestId].prepared && old(rows)[requestId].planHash == planHash
                && !Superseded(old(rows), requestId, obligationId)
      ensures requestId in old(rows) && old(rows)[requestId].planHash == planHash && MostRecent(old(rows), requestId, obligationId) ==> r.Ok?
    {
      var existing := Select(requestId, obligationId);
      pick := existing;
      LookupMeans(rows, pick, requestId, obligationId, planHash);
      if existing.Some? {
        if existing.value == requestId && rows[existing.value].planHash == planHash {
          return Ok(rows[existing.value].prepared), pick;
        }
        return Err(()), pick;
      }
      rows := rows[requestId :=
        PreparationRow(obligationId, planHash, prepared, lastValidBlockHeight, PREPARED, now)];
      r := Ok(prepared);
    }

    method Expire(requestId: string, now: int)
      modifies this
      ensures rows == AfterExpiry(old(rows), requestId, now)
      ensures rows == if requestId in old(rows)
                      then old(rows)[requestId := old(rows)[requestId].(state := EXPIRED, updatedAt := now)] else old(rows)
    {
      if requestId in rows {
        rows := rows[requestId := rows[requestId].(state := EXPIRED, updatedAt := now)];
      }
    }
  }
}
