/**
 * SyncScheduler.kt over the job runner's unique-work slots. The job runner
 * itself is not modelled: it is a table from unique work names to the
 * request currently held under that name, and the two policies the
 * scheduler uses decide what an enqueue does to an occupied slot.
 */
module Scheduler {
  import opened Config

  /** Unique work name of the periodic job. */
  const PeriodicWorkName: string := "location_sync_periodic"
  /** Unique work name of the one-time ("immediate") job. */
  const ImmediateSyncWorkName: string := "location_sync_immediate"

  /** The platform's lowest period for periodic work, in minutes. */
  const MinPeriodicIntervalMinutes: int := 15

  datatype NetworkType = NotRequired | Connected

  /** KEEP leaves an occupied slot alone; REPLACE puts the new request in it. */
  datatype Policy = Keep | Replace

  datatype WorkKind = OneTime(initialDelaySeconds: int) | Periodic(intervalMinutes: int)

  /**
   * A built work request for the sync worker. `id` is the identifier the
   * builder draws for every request it builds; it tells two otherwise equal
   * requests apart.
   */
  datatype WorkRequest = WorkRequest(id: nat, kind: WorkKind, network: NetworkType, tag: string)

  type Slots = map<string, WorkRequest>

  /** `enqueueUniqueWork` / `enqueueUniquePeriodicWork` on the slot table. */
  function EnqueueUnique(slots: Slots, name: string, policy: Policy, request: WorkRequest): (r: Slots)
    ensures name in r
    ensures r[name] == if policy == Keep && name in slots then slots[name] else request
    ensures forall other :: other != name ==> (other in r <==> other in slots)
    ensures forall other :: other != name && other in slots ==> r[other] == slots[other]
  {
    if policy == Keep && name in slots then slots else slots[name := request]
  }

  /** The period actually requested: the configured one, raised to the platform floor. */
  function IntervalFloor(configured: int): (m: int)
    ensures m >= MinPeriodicIntervalMinutes && m >= configured
    ensures m == configured || m == MinPeriodicIntervalMinutes
  {
    Max(configured, MinPeriodicIntervalMinutes)
  }

  /** With the shipped configuration the floor changes nothing: the period is 15 minutes. */
  lemma ConfiguredInterval()
    ensures IntervalFloor(PeriodicSyncIntervalMinutes) == PeriodicSyncIntervalMinutes == 15
  {
  }

  /** The one-time request: network required, initial delay, tag `immediate_sync`. */
  function ImmediateRequest(id: nat): (r: WorkRequest)
    ensures r.id == id && r.kind == OneTime(5) && r.network == Connected && r.tag == "immediate_sync"
  {
    WorkRequest(id, OneTime(ImmediateSyncDelaySeconds), Connected, "immediate_sync")
  }

  /** The periodic request: network required, floored period, tag `periodic_sync`. */
  function PeriodicRequest(id: nat): (r: WorkRequest)
    ensures r.id == id && r.kind == Periodic(15) && r.network == Connected && r.tag == "periodic_sync"
  {
    WorkRequest(id, Periodic(IntervalFloor(PeriodicSyncIntervalMinutes)), Connected, "periodic_sync")
  }

  /** Enqueueing under KEEP a second time changes nothing, whatever the second request is. */
  lemma KeepIdempotent(slots: Slots, name: string, first: WorkRequest, second: WorkRequest)
    ensures var once := EnqueueUnique(slots, name, Keep, first);
      EnqueueUnique(once, name, Keep, second) == once
  {
  }

  /** Enqueueing under REPLACE twice is enqueueing the second request once. */
  lemma ReplaceOverwrites(slots: Slots, name: string, first: WorkRequest, second: WorkRequest)
    ensures EnqueueUnique(EnqueueUnique(slots, name, Replace, first), name, Replace, second)
         == EnqueueUnique(slots, name, Replace, second)
  {
  }

  /** A run of enqueues of `requests`, in order, under one name and one policy. */
  function EnqueueAll(slots: Slots, name: string, policy: Policy, requests: seq<WorkRequest>): Slots
    decreases |requests|
  {
    if requests == [] then slots
    else EnqueueAll(EnqueueUnique(slots, name, policy, requests[0]), name, policy, requests[1..])
  }

  /**
   * After any non-empty run of REPLACE enqueues the slot holds exactly one
   * request, the last one, and no other slot has changed.
   */
  lemma {:induction false} ReplaceKeepsLatest(slots: Slots, name: string, requests: seq<WorkRequest>)
    requires requests != []
    ensures EnqueueAll(slots, name, Replace, requests) == slots[name := requests[|requests| - 1]]
    decreases |requests|
  {
    var next := EnqueueUnique(slots, name, Replace, requests[0]);
    if |requests| > 1 {
      ReplaceKeepsLatest(next, name, requests[1..]);
      assert requests[1..][|requests[1..]| - 1] == requests[|requests| - 1];
      assert next[name := requests[|requests| - 1]] == slots[name := requests[|requests| - 1]];
    } else {
      assert requests[1..] == [];
    }
  }

  /**
   * After any non-empty run of KEEP enqueues the slot holds what it held
   * before, or the first request when it was free; no other slot has changed.
   */
  lemma {:induction false} KeepKeepsFirst(slots: Slots, name: string, requests: seq<WorkRequest>)
    requires requests != []
    ensures EnqueueAll(slots, name, Keep, requests)
         == slots[name := if name in slots then slots[name] else requests[0]]
    decreases |requests|
  {
    var next := EnqueueUnique(slots, name, Keep, requests[0]);
    assert next == slots[name := if name in slots then slots[name] else requests[0]];
    if |requests| > 1 {
      KeepKeepsFirst(next, name, requests[1..]);
      assert next[name := next[name]] == next;
    } else {
      assert requests[1..] == [];
    }
  }

  /** The job runner's unique-work table, shared by every caller in the process. */
  class WorkManager {
    var slots: Slots

    constructor ()
      ensures slots == map[]
    {
      slots := map[];
    }

    method EnqueueUniqueWork(name: string, policy: Policy, request: WorkRequest)
      modifies this
      ensures slots == EnqueueUnique(old(slots), name, policy, request)
    {
      slots := EnqueueUnique(slots, name, policy, request);
    }
  }

  /**
   * `startOneTimeSync`: REPLACE the immediate slot with a fresh one-time
   * request. `id` is the new request's identifier; `enqueues` is false
   * when the job runner throws, which the scheduler catches and logs, so
   * the table is left as it was and the caller sees no error.
   */
  method StartOneTimeSync(wm: WorkManager, id: nat, enqueues: bool)
    modifies wm
    ensures wm.slots == if enqueues then old(wm.slots)[ImmediateSyncWorkName := ImmediateRequest(id)] else old(wm.slots)
    ensures PeriodicWorkName in old(wm.slots) <==> PeriodicWorkName in wm.slots
    ensures PeriodicWorkName in wm.slots ==> wm.slots[PeriodicWorkName] == old(wm.slots)[PeriodicWorkName]
  {
    var request := ImmediateRequest(id);
    if enqueues {
      wm.EnqueueUniqueWork(ImmediateSyncWorkName, Replace, request);
    }
  }

  /**
   * `scheduleLocationSync`: KEEP the periodic slot, so an already scheduled
   * periodic job stays as it is; a free slot gets the new request. As
   * above, a failing job runner leaves the table unchanged.
   */
  method ScheduleLocationSync(wm: WorkManager, id: nat, enqueues: bool)
    modifies wm
    ensures wm.slots == if enqueues && PeriodicWorkName !in old(wm.slots)
                        then old(wm.slots)[PeriodicWorkName := PeriodicRequest(id)]
                        else old(wm.slots)
    ensures ImmediateSyncWorkName in old(wm.slots) <==> ImmediateSyncWorkName in wm.slots
    ensures ImmediateSyncWorkName in wm.slots ==> wm.slots[ImmediateSyncWorkName] == old(wm.slots)[ImmediateSyncWorkName]
  {
    var request := PeriodicRequest(id);
    if enqueues {
      wm.EnqueueUniqueWork(PeriodicWorkName, Keep, request);
    }
  }
}
