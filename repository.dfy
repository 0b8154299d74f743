/**
 * LocationRepository.kt: every operation forwards to the data-access object
 * it was built with. `save` and `markSynced` report whether the write took
 * effect, which is how their callers use them.
 */
module Repository {
  import opened Entities
  import opened Store
  import opened Dao

  class LocationRepository {
    const dao: LocationDao

    constructor (dao: LocationDao)
      ensures this.dao == dao
    {
      this.dao := dao;
    }

    method Save(location: LocationEntity, commits: bool) returns (ok: bool)
      requires dao.Valid()
      modifies dao
      ensures dao.Valid()
      ensures ok <==> commits && InsertRecord(old(dao.Snapshot()), location).Some?
      ensures dao.Snapshot() == if ok then InsertRecord(old(dao.Snapshot()), location).value else old(dao.Snapshot())
    {
      ok := dao.Insert(location, commits);
    }

    function Pending(): (r: seq<LocationEntity>)
      reads dao
      requires dao.Valid()
      ensures r == dao.GetPending()
      ensures Ascending(r)
    {
      dao.GetPending()
    }

    method MarkSynced(ids: seq<int>, commits: bool) returns (ok: bool)
      requires dao.Valid()
      modifies dao
      ensures dao.Valid()
      ensures ok == commits
      ensures dao.rows == if commits then MarkAll(old(dao.rows), ids) else old(dao.rows)
      ensures dao.lastId == old(dao.lastId)
    {
      ok := dao.MarkSynced(ids, commits);
    }

    function PendingCount(): (n: nat)
      reads dao
      requires dao.Valid()
      ensures n == dao.PendingCount() && n == |Pending()|
    {
      dao.PendingCount()
    }
  }
}
