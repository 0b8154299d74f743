/**
 * LocationSyncWorker.kt: the background job that drains the pending queue
 * to the server in batches. Its two loops are proved to do what
 * `SyncSpec.SyncBatchFrom` and `SyncSpec.DoWorkSpec` say: the same result,
 * the same uploads in the same order, the same waits, and the same table.
 */
module SyncWorker {
  import opened Config
  import opened Entities
  import opened Store
  import opened Remote
  import opened Dao
  import opened Repository
  import opened SyncSpec

  class LocationSyncWorker {
    /** Every backoff delay this worker has waited, in order. */
    ghost var waited: seq<nat>

    constructor ()
      ensures waited == []
    {
      waited := [];
    }

    /** The coroutine `delay`: only the length of the wait is observable here. */
    method Delay(ms: nat)
      modifies this
      ensures waited == old(waited) + [ms]
    {
      waited := waited + [ms];
    }

    /**
     * `syncBatch`: upload the batch, retrying transient failures with
     * exponential backoff, and mark it synced once the server accepts it.
     * `commit` is whether the "mark synced" write commits. The ghost `runs`
     * and `k` name the outcome the run's specification gives this batch:
     * batch number `k`, starting at the next upload call.
     */
    method SyncBatch(api: LocationApi, batch: seq<LocationEntity>, repository: LocationRepository,
                     batchIds: seq<int>, commit: bool, ghost runs: (nat, nat) -> BatchRun, ghost k: nat)
      returns (result: SyncResult)
      requires repository.dao.Valid()
      requires RunsFollowAt(runs, api.respond, k, commit)
      modifies this, api, repository.dao
      ensures var b := runs(|old(api.sent)|, k);
        && result == b.result
        && api.sent == old(api.sent) + Repeat(Requests(batch), b.uploads)
        && waited == old(waited) + b.delays
        && repository.dao.rows == (if result == BatchSuccess then MarkAll(old(repository.dao.rows), batchIds)
                                   else old(repository.dao.rows))
      ensures repository.dao.Valid() && repository.dao.lastId == old(repository.dao.lastId)
    {
      RunAtBatch(runs, api.respond, k, commit, |api.sent|);
      var requests := Requests(batch);
      var attempt: nat := 0;
      ghost var sent0, waited0, u0 := api.sent, waited, |api.sent|;
      while attempt < MaxRetryAttempts
        invariant attempt <= MaxRetryAttempts
        invariant api.sent == sent0 + Repeat(requests, attempt)
        invariant waited == waited0 + Waits(attempt)
        invariant forall i :: u0 <= i < u0 + attempt ==> IsTransient(api.respond(i))
        invariant repository.dao.Valid()
        invariant repository.dao.rows == old(repository.dao.rows) && repository.dao.lastId == old(repository.dao.lastId)
      {
        BatchEndsAt(api.respond, u0, attempt, commit);
        SentSnoc(sent0, requests, attempt);
        var r := api.Upload(requests);
        if r.Ok? {
          assert api.sent == sent0 + Repeat(requests, attempt + 1);
          var marked := repository.MarkSynced(batchIds, commit);
          if marked {
            return BatchSuccess;
          } else {
            return BatchRetry;
          }
        }
        WaitSnoc(waited0, attempt);
        attempt := attempt + 1;
        if IsClientError(r) {
          return BatchFailure;
        } else if IsServerError(r) {
          if attempt < MaxRetryAttempts {
            Delay(CalculateBackoffDelay(attempt));
          }
        } else if r.IOErr? {
          if attempt < MaxRetryAttempts {
            Delay(CalculateBackoffDelay(attempt));
          }
        } else {
          if attempt < MaxRetryAttempts {
            Delay(CalculateBackoffDelay(attempt));
          }
        }
      }
      BatchEndsAt(api.respond, u0, attempt, commit);
      return BatchRetry;
    }

    /**
     * `doWork`: stop at once when offline (Retry) or when nothing is pending
     * (Success); otherwise run the batch loop (`SyncQueue`) and turn its
     * totals into the result. The database, the client and the network check
     * are built from the application context in the source; here they are
     * parameters, and `commits(k)` says whether the k-th "mark synced" write
     * commits.
     */
    method DoWork(online: bool, repository: LocationRepository, api: LocationApi, commits: nat -> bool)
      returns (result: Result)
      requires repository.dao.Valid()
      modifies this, api, repository.dao
      ensures var r := DoWorkSpec(online, old(repository.dao.rows), api.respond, |old(api.sent)|, commits);
        && result == r.result
        && repository.dao.rows == r.rows
        && api.sent == old(api.sent) + Uploaded(r.steps)
        && waited == old(waited) + Delays(r.steps)
      ensures repository.dao.Valid() && repository.dao.lastId == old(repository.dao.lastId)
    {
      if !online {
        return Retry;
      }
      var allPending := repository.dao.GetPending();
      if allPending == [] {
        return Success;
      }
      BatchRunsFollow(api.respond, commits);
      ghost var runs: (nat, nat) -> BatchRun :| RunsFollow(runs, api.respond, commits);
      DrainFollowsRuns(runs);
      ghost var drain: (seq<LocationEntity>, nat, nat) -> DrainRun :| DrainFollows(drain, runs);
      ghost var c := LoopStart(allPending, repository.dao.rows, repository.dao.lastId, api.sent, waited, runs, drain);
      Starts(c, api.respond, commits, Observe(repository, api));
      var totalSynced, hasErrors, steps := SyncQueue(repository, api, allPending, commits, c);
      DrainAt(drain, runs, allPending, |c.sent0|, 0);
      RunOfDrainFollowing(c.rows0, api.respond, |c.sent0|, commits, runs, steps, hasErrors);
      if totalSynced > 0 && !hasErrors {
        result := Success;
      } else if hasErrors {
        result := Retry;
      } else {
        result := Success;
      }
    }

    /**
     * The `while` loop of `doWork`: sync the pending queue batch by batch,
     * re-reading it after every successful batch, and stop at the first
     * batch that does not succeed. `steps` are the batches it went through.
     */
    method SyncQueue(repository: LocationRepository, api: LocationApi, queue: seq<LocationEntity>,
                     commits: nat -> bool, ghost c: LoopStart)
      returns (totalSynced: nat, hasErrors: bool, ghost steps: seq<Step>)
      requires Prepared(c, api.respond, commits)
      requires Drained(repository, api, c, [], 0, queue, 0)
      modifies this, api, repository.dao
      ensures Ended(repository, api, c, steps, totalSynced, hasErrors)
    {
      var allPending := queue;
      totalSynced, hasErrors := 0, false;
      var k: nat := 0;
      steps := [];
      while allPending != []
        invariant Drained(repository, api, c, steps, totalSynced, allPending, k)
        invariant !hasErrors
        decreases |allPending|
      {
        var r, n;
        r, n, steps := SyncNext(repository, api, allPending, commits, c, steps, totalSynced, k);
        if r != BatchSuccess {
          hasErrors := true;
          break;
        }
        totalSynced := totalSynced + n;
        allPending := repository.dao.GetPending();
        k := k + 1;
        // The table has exactly the synced prefix of the queue marked.
        assert repository.dao.rows == MarkAll(c.rows0, Ids(c.queue[..totalSynced]));
      }
      if !hasErrors {
        Finishes(c, api.respond, commits, steps, totalSynced, k, Observe(repository, api));
      }
    }

    /**
     * One pass of the loop's body up to the `when`: take the next batch of
     * at most `SyncBatchSize` records and sync it; `n` is its size.
     */
    method SyncNext(repository: LocationRepository, api: LocationApi, pending: seq<LocationEntity>,
                    commits: nat -> bool, ghost c: LoopStart, ghost steps: seq<Step>, t: nat, k: nat)
      returns (r: SyncResult, n: nat, ghost steps': seq<Step>)
      requires pending != []
      requires Prepared(c, api.respond, commits)
      requires Drained(repository, api, c, steps, t, pending, k)
      modifies this, api, repository.dao
      ensures repository.dao.Valid()
      ensures r == BatchSuccess ==>
        && Drained(repository, api, c, steps', t + n, repository.dao.GetPending(), k + 1)
        && |repository.dao.GetPending()| < |pending|
      ensures r != BatchSuccess ==> Ended(repository, api, c, steps', t, true)
    {
      var batch := Take(pending, SyncBatchSize);
      var batchIds := Ids(batch);
      ghost var o := Observe(repository, api);
      ghost var b := c.runs(|api.sent|, k);
      RunsFollowBatch(c.runs, api.respond, commits, k);
      r := SyncBatch(api, batch, repository, batchIds, commits(k), c.runs, k);
      n := |batch|;
      steps' := steps + [Step(batch, b)];
      ghost var o' := Observe(repository, api);
      assert o' == Observed(if r == BatchSuccess then MarkAll(o.rows, Ids(batch)) else o.rows, o.lastId,
                            o.sent + Repeat(Requests(batch), b.uploads), o.waited + b.delays);
      Moves(c, api.respond, commits, steps, t, pending, k, batch, b, o, o', r, n, steps');
    }

    /** What the loop can observe: the table, the key counter, the bodies sent and the waits. */
    ghost function Observe(repository: LocationRepository, api: LocationApi): Observed
      reads this, repository.dao, api
    {
      Observed(repository.dao.rows, repository.dao.lastId, api.sent, waited)
    }

    /** The loop's invariant (`DrainedAt`) in the current state. */
    ghost predicate Drained(repository: LocationRepository, api: LocationApi, c: LoopStart,
                            steps: seq<Step>, t: nat, pending: seq<LocationEntity>, k: nat)
      reads this, repository.dao, api
    {
      repository.dao.Valid() && DrainedAt(c, steps, t, pending, k, Observe(repository, api))
    }

    /** The loop is over (`EndedAt`) in the current state. */
    ghost predicate Ended(repository: LocationRepository, api: LocationApi, c: LoopStart, steps: seq<Step>,
                          t: nat, hasErrors: bool)
      reads this, repository.dao, api
    {
      repository.dao.Valid() && EndedAt(c, steps, t, hasErrors, Observe(repository, api))
    }
  }

  /** The table, its key counter, the bodies sent to the server and the waits, at one point of the run. */
  datatype Observed = Observed(rows: seq<LocationEntity>, lastId: int, sent: seq<seq<LocationRequest>>, waited: seq<nat>)

  /**
   * What holds of the loop's start throughout: the queue is the pending
   * records of the table it read, in key order, and `runs` and `drain` are
   * how each batch and each remainder of the loop go against the server's
   * responses and the store's commits.
   */
  ghost predicate Prepared(c: LoopStart, respond: nat -> Response, commits: nat -> bool) {
    && c.queue == Unsynced(c.rows0) && Ascending(c.rows0)
    && RunsFollow(c.runs, respond, commits) && DrainFollows(c.drain, c.runs)
  }

  /**
   * The loop's invariant: the batches `steps` succeeded and synced the
   * first `t` records of the queue, `pending` is the rest, the table has
   * exactly those records marked, and the server and the worker saw
   * exactly those batches' uploads and waits.
   */
  ghost predicate DrainedAt(c: LoopStart, steps: seq<Step>, t: nat, pending: seq<LocationEntity>, k: nat, o: Observed)
  {
    && o.lastId == c.lastId0
    && DrainedSoFar(c.queue, c.drain, |c.sent0|, steps, t, pending, |o.sent|, k)
    && o.rows == MarkAll(c.rows0, Ids(c.queue[..t]))
    && o.sent == c.sent0 + Uploaded(steps) && o.waited == c.waited0 + Delays(steps)
  }

  /**
   * The loop is over: `steps` is the whole run, which ended with or
   * without an error as `hasErrors` says; the table has the first `t`
   * records of the queue marked, and the server and the worker saw exactly
   * those batches' uploads and waits.
   */
  ghost predicate EndedAt(c: LoopStart, steps: seq<Step>, t: nat, hasErrors: bool, o: Observed) {
    && o.lastId == c.lastId0
    && c.drain(c.queue, |c.sent0|, 0) == DrainRun(steps, hasErrors)
    && t == SyncedCount(steps) <= |c.queue|
    && o.rows == MarkAll(c.rows0, Ids(c.queue[..t]))
    && o.sent == c.sent0 + Uploaded(steps) && o.waited == c.waited0 + Delays(steps)
  }

  /** The loop's invariant holds before its first pass. */
  lemma Starts(c: LoopStart, respond: nat -> Response, commits: nat -> bool, o: Observed)
    requires Ascending(o.rows)
    requires c == LoopStart(Unsynced(o.rows), o.rows, o.lastId, o.sent, o.waited, c.runs, c.drain)
    requires RunsFollow(c.runs, respond, commits) && DrainFollows(c.drain, c.runs)
    ensures Prepared(c, respond, commits)
    ensures DrainedAt(c, [], 0, c.queue, 0, o)
  {
    assert c.queue[..0] == [];
    MarkWithoutPendingKeys(c.rows0, []);
    LoopStarts(c.queue, c.drain, |o.sent|);
    PendingAscending(c.rows0);
  }

  /**
   * A successful batch: the table has the batch marked, the server got it
   * once per upload and the worker waited the backoffs; the loop's invariant
   * holds again one batch further on (`steps'`, `t'`), over the re-read
   * pending queue, which is shorter.
   */
  lemma Advances(c: LoopStart, respond: nat -> Response, commits: nat -> bool,
                 steps: seq<Step>, t: nat, pending: seq<LocationEntity>, k: nat,
                 batch: seq<LocationEntity>, b: BatchRun, o: Observed, o': Observed, t': nat, steps': seq<Step>)
    requires Prepared(c, respond, commits) && DrainedAt(c, steps, t, pending, k, o)
    requires pending != [] && batch == Take(pending, SyncBatchSize)
    requires b == c.runs(|o.sent|, k) && b.result == BatchSuccess
    requires o' == Observed(MarkAll(o.rows, Ids(batch)), o.lastId, o.sent + Repeat(Requests(batch), b.uploads),
                            o.waited + b.delays)
    requires t' == t + |batch| && steps' == steps + [Step(batch, b)]
    ensures DrainedAt(c, steps', t', Unsynced(o'.rows), k + 1, o')
    ensures |Unsynced(o'.rows)| < |pending|
  {
    var u := |o.sent|;
    NextBatch(c.queue, c.drain, |c.sent0|, steps, t, pending, u, k);
    MarkNextBatch(c.rows0, c.queue, t, batch, t');
    LogsAppend(c.sent0, c.waited0, steps, Step(batch, b));
    LoopContinues(c.queue, c.drain, c.runs, |c.sent0|, steps, t, pending, u, k,
                  steps', t', Unsynced(o'.rows), |o'.sent|, k + 1);
    assert o'.rows == MarkAll(c.rows0, Ids(c.queue[..t']));
    assert o'.sent == c.sent0 + Uploaded(steps');
    assert o'.waited == c.waited0 + Delays(steps');
  }

  /** A batch that did not succeed: the table is as it was, and the loop is over with an error. */
  lemma Halts(c: LoopStart, respond: nat -> Response, commits: nat -> bool,
              steps: seq<Step>, t: nat, pending: seq<LocationEntity>, k: nat,
              batch: seq<LocationEntity>, b: BatchRun, o: Observed, o': Observed, steps': seq<Step>)
    requires Prepared(c, respond, commits) && DrainedAt(c, steps, t, pending, k, o)
    requires pending != [] && batch == Take(pending, SyncBatchSize)
    requires b == c.runs(|o.sent|, k) && b.result != BatchSuccess
    requires o' == Observed(o.rows, o.lastId, o.sent + Repeat(Requests(batch), b.uploads), o.waited + b.delays)
    requires steps' == steps + [Step(batch, b)]
    ensures EndedAt(c, steps', t, true, o')
  {
    LogsAppend(c.sent0, c.waited0, steps, Step(batch, b));
    LoopStops(c.queue, c.drain, c.runs, |c.sent0|, steps, t, pending, |o.sent|, k);
  }

  /** One pass of the loop, as `Advances` or `Halts` says depending on how the batch went. */
  lemma Moves(c: LoopStart, respond: nat -> Response, commits: nat -> bool,
              steps: seq<Step>, t: nat, pending: seq<LocationEntity>, k: nat,
              batch: seq<LocationEntity>, b: BatchRun, o: Observed, o': Observed,
              r: SyncResult, n: nat, steps': seq<Step>)
    requires Prepared(c, respond, commits) && DrainedAt(c, steps, t, pending, k, o)
    requires pending != [] && batch == Take(pending, SyncBatchSize)
    requires b == c.runs(|o.sent|, k)
    requires o' == Observed(if b.result == BatchSuccess then MarkAll(o.rows, Ids(batch)) else o.rows, o.lastId,
                            o.sent + Repeat(Requests(batch), b.uploads), o.waited + b.delays)
    requires r == b.result && n == |batch| && steps' == steps + [Step(batch, b)]
    ensures r == BatchSuccess ==>
      && DrainedAt(c, steps', t + n, Unsynced(o'.rows), k + 1, o')
      && |Unsynced(o'.rows)| < |pending|
    ensures r != BatchSuccess ==> EndedAt(c, steps', t, true, o')
  {
    if r == BatchSuccess {
      Advances(c, respond, commits, steps, t, pending, k, batch, b, o, o', t + n, steps');
    } else {
      Halts(c, respond, commits, steps, t, pending, k, batch, b, o, o', steps');
    }
  }

  /** The loop ran out of pending records with no error: the run is over. */
  lemma Finishes(c: LoopStart, respond: nat -> Response, commits: nat -> bool, steps: seq<Step>, t: nat, k: nat,
                 o: Observed)
    requires Prepared(c, respond, commits) && DrainedAt(c, steps, t, [], k, o)
    ensures EndedAt(c, steps, t, false, o)
  {
    LoopDrained(c.queue, c.drain, c.runs, |c.sent0|, steps, t, |o.sent|, k);
  }

  /**
   * What the batch loop started from: the queue it read, the table, the
   * key counter and the logs at that point, and how each batch and each
   * remainder of the loop go.
   */
  datatype LoopStart = LoopStart(queue: seq<LocationEntity>, rows0: seq<LocationEntity>, lastId0: int,
                                 sent0: seq<seq<LocationRequest>>, waited0: seq<nat>,
                                 runs: (nat, nat) -> BatchRun, drain: (seq<LocationEntity>, nat, nat) -> DrainRun)
}
