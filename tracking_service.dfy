/**
 * The two parts of LocationTrackingService.kt that feed the sync pipeline:
 * turning a position fix into a stored record, and the throttle in
 * `checkAndTriggerSync` that asks the scheduler for an immediate sync at
 * most once a minute. Clock reads, the identifier of each built work
 * request and the outcomes of storage writes and enqueues are parameters.
 */
module TrackingService {
  import opened Entities
  import opened Store
  import opened Dao
  import opened Repository
  import opened Scheduler

  /** `MIN_SYNC_INTERVAL_MS`: one minute. */
  const MinSyncIntervalMs: int := 60000

  /** The employee every sample is recorded for. */
  const EmployeeId: string := "EMP001"

  /** A fix as delivered by the location provider; `speed` is meaningful only when `hasSpeed`. */
  datatype Fix = Fix(latitude: real, longitude: real, accuracy: real, hasSpeed: bool, speed: real)

  /** The record built from a fix, stamped with the wall-clock time `timestamp`. */
  function SampleFromFix(fix: Fix, timestamp: int): (e: LocationEntity)
    ensures e.id == 0 && !e.synced && e.employeeId == EmployeeId
    ensures e.speed.None? <==> !fix.hasSpeed
    ensures fix.hasSpeed ==> e.speed == Some(fix.speed)
    ensures e.latitude == fix.latitude && e.longitude == fix.longitude && e.accuracy == fix.accuracy
    ensures e.timestamp == timestamp
  {
    NewLocationEntity(EmployeeId, fix.latitude, fix.longitude, fix.accuracy,
                      if fix.hasSpeed then Some(fix.speed) else None, timestamp)
  }

  /** Every request time is at least the throttle interval after the one before it. */
  ghost predicate Spaced(times: seq<int>) {
    forall i :: 0 <= i < |times| - 1 ==> times[i] + MinSyncIntervalMs <= times[i + 1]
  }

  /** Spacing between neighbours gives spacing between any two requests. */
  lemma {:induction false} SpacedApart(times: seq<int>, i: nat, j: nat)
    requires Spaced(times)
    requires i < j < |times|
    ensures times[i] + (j - i) * MinSyncIntervalMs <= times[j]
    decreases j - i
  {
    if i + 1 < j {
      SpacedApart(times, i + 1, j);
    }
  }

  /** No 60-second window holds two sync requests. */
  lemma AtMostOnePerWindow(times: seq<int>, start: int, i: nat, j: nat)
    requires Spaced(times)
    requires i < |times| && j < |times|
    requires start <= times[i] < start + MinSyncIntervalMs
    requires start <= times[j] < start + MinSyncIntervalMs
    ensures i == j
  {
    if i < j {
      SpacedApart(times, i, j);
    } else if j < i {
      SpacedApart(times, j, i);
    }
  }

  /** Appending a request that passed the throttle keeps the spacing. */
  lemma SpacedSnoc(times: seq<int>, now: int)
    requires Spaced(times)
    requires times != [] ==> times[|times| - 1] + MinSyncIntervalMs <= now
    ensures Spaced(times + [now])
  {
    var t := times + [now];
    forall i | 0 <= i < |t| - 1 ensures t[i] + MinSyncIntervalMs <= t[i + 1] {
      if i < |times| - 1 {
        assert t[i] == times[i] && t[i + 1] == times[i + 1];
      }
    }
  }

  class LocationTrackingService {
    const repository: LocationRepository
    const workManager: WorkManager
    /** Wall-clock time of the last sync this service asked for; 0 before the first. */
    var lastSyncTime: int
    /** The times at which this service asked the scheduler for an immediate sync. */
    ghost var syncRequests: seq<int>

    ghost predicate Valid()
      reads this, repository.dao
    {
      && repository.dao.Valid()
      && Spaced(syncRequests)
      && lastSyncTime == (if syncRequests == [] then 0 else syncRequests[|syncRequests| - 1])
    }

    constructor (repository: LocationRepository, workManager: WorkManager)
      requires repository.dao.Valid()
      ensures this.repository == repository && this.workManager == workManager
      ensures lastSyncTime == 0 && syncRequests == []
      ensures Valid()
    {
      this.repository := repository;
      this.workManager := workManager;
      lastSyncTime := 0;
      syncRequests := [];
    }

    /**
     * `checkAndTriggerSync` at wall-clock time `now`: inside the throttle
     * interval it does nothing; otherwise it asks for an immediate sync only
     * when records are pending, and only then restarts the interval.
     * `id` and `enqueues` are passed on to `StartOneTimeSync`.
     */
    method CheckAndTriggerSync(now: int, id: nat, enqueues: bool)
      requires Valid()
      modifies this, workManager
      ensures Valid()
      ensures var fire := now - old(lastSyncTime) >= MinSyncIntervalMs && repository.PendingCount() > 0;
        && lastSyncTime == (if fire then now else old(lastSyncTime))
        && syncRequests == old(syncRequests) + (if fire then [now] else [])
        && workManager.slots == (if fire && enqueues
                                 then old(workManager.slots)[ImmediateSyncWorkName := ImmediateRequest(id)]
                                 else old(workManager.slots))
    {
      if now - lastSyncTime < MinSyncIntervalMs {
        return;
      }
      var count := repository.PendingCount();
      if count > 0 {
        StartOneTimeSync(workManager, id, enqueues);
        SpacedSnoc(syncRequests, now);
        lastSyncTime := now;
        syncRequests := syncRequests + [now];
      }
    }

    /**
     * `onLocationResult`: no fix, nothing happens. Otherwise the sample built
     * from the fix at `timestamp` is saved (the write commits when `commits`),
     * and only a successful save goes on to the throttle check at `now`.
     */
    method OnLocationResult(fix: Option<Fix>, timestamp: int, commits: bool, now: int, id: nat, enqueues: bool)
      requires Valid()
      modifies this, repository.dao, workManager
      ensures Valid()
      ensures fix.None? || !commits ==>
        && repository.dao.Snapshot() == old(repository.dao.Snapshot())
        && lastSyncTime == old(lastSyncTime) && syncRequests == old(syncRequests)
        && workManager.slots == old(workManager.slots)
      ensures fix.Some? && commits ==>
        && repository.dao.Snapshot() == InsertRecord(old(repository.dao.Snapshot()), SampleFromFix(fix.value, timestamp)).value
        && repository.PendingCount() == old(repository.PendingCount()) + 1
        && var fire := now - old(lastSyncTime) >= MinSyncIntervalMs;
           && lastSyncTime == (if fire then now else old(lastSyncTime))
           && syncRequests == old(syncRequests) + (if fire then [now] else [])
           && workManager.slots == (if fire && enqueues
                                    then old(workManager.slots)[ImmediateSyncWorkName := ImmediateRequest(id)]
                                    else old(workManager.slots))
    {
      if fix.None? {
        return;
      }
      var sample := SampleFromFix(fix.value, timestamp);
      SampleIsNew(repository.dao.Snapshot(), sample);
      var saved := repository.Save(sample, commits);
      if !saved {
        return;
      }
      CheckAndTriggerSync(now, id, enqueues);
    }
  }

  /**
   * A sample from a fix always fits in a well-formed table: its key is
   * generated, so the insert cannot conflict, and it adds one pending record.
   */
  lemma SampleIsNew(t: Table, e: LocationEntity)
    requires ValidTable(t) && e.id == 0 && !e.synced
    ensures InsertRecord(t, e).Some?
    ensures CountUnsynced(InsertRecord(t, e).value.rows) == CountUnsynced(t.rows) + 1
  {
    InsertRecordEffect(t, e);
  }
}
