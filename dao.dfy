/**
 * The data-access object of LocationDao.kt as a class over the table it
 * changes: `insert` and `markSynced` update the rows in place, `getPending`
 * and `pendingCount` are read-only queries. The storage engine's commit is
 * a parameter: when a write does not commit, the table is left as it was
 * and the call reports failure.
 */
module Dao {
  import opened Entities
  import opened Store

  class LocationDao {
    /** The rows of `location_logs`, in ascending key order. */
    var rows: seq<LocationEntity>
    /** AUTOINCREMENT's record of the largest key ever used. */
    var lastId: int

    function Snapshot(): Table
      reads this
    {
      Table(rows, lastId)
    }

    ghost predicate Valid()
      reads this
    {
      ValidTable(Snapshot())
    }

    constructor ()
      ensures Valid() && rows == [] && lastId == 0
    {
      rows := [];
      lastId := 0;
    }

    /** `@Insert`: stores the record, generating its key when it has none. */
    method Insert(location: LocationEntity, commits: bool) returns (ok: bool)
      requires Valid()
      modifies this
      ensures Valid()
      ensures ok <==> commits && InsertRecord(old(Snapshot()), location).Some?
      ensures Snapshot() == if ok then InsertRecord(old(Snapshot()), location).value else old(Snapshot())
      ensures Grows(old(rows), rows)
    {
      InsertRecordEffect(Snapshot(), location);
      var r := InsertRecord(Snapshot(), location);
      if commits && r.Some? {
        InsertGrows(Snapshot(), location);
        rows, lastId := r.value.rows, r.value.lastId;
        ok := true;
      } else {
        ok := false;
      }
    }

    /** `SELECT * FROM location_logs WHERE synced = 0 ORDER BY id ASC`. */
    function GetPending(): (r: seq<LocationEntity>)
      reads this
      requires Valid()
      ensures Ascending(r)
      ensures r == Unsynced(rows)
    {
      PendingAscending(rows);
      Unsynced(rows)
    }

    /** `UPDATE location_logs SET synced = 1 WHERE id IN (:ids)`. */
    method MarkSynced(ids: seq<int>, commits: bool) returns (ok: bool)
      requires Valid()
      modifies this
      ensures Valid()
      ensures ok == commits
      ensures rows == if commits then MarkAll(old(rows), ids) else old(rows)
      ensures lastId == old(lastId)
      ensures Grows(old(rows), rows)
    {
      MarkKeepsValid(Snapshot(), ids);
      MarkGrows(rows, ids);
      if commits {
        rows := MarkAll(rows, ids);
      }
      ok := commits;
    }

    /** `SELECT COUNT(*) FROM location_logs WHERE synced = 0`, as first observed. */
    function PendingCount(): (n: nat)
      reads this
      requires Valid()
      ensures n == |GetPending()|
    {
      CountIsPendingLength(rows);
      CountUnsynced(rows)
    }
  }
}
