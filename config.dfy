/** Tuning constants of the sync pipeline (Config.kt). */
module Config {
  /** Most records uploaded in one request. */
  const SyncBatchSize: nat := 100
  /** Upload attempts per batch within one worker run. */
  const MaxRetryAttempts: nat := 3
  /** Requested period of the periodic sync job, in minutes. */
  const PeriodicSyncIntervalMinutes: int := 15
  /** Initial delay of the one-time ("immediate") sync job, in seconds. */
  const ImmediateSyncDelaySeconds: int := 5

  function Min(a: int, b: int): int { if a <= b then a else b }
  function Max(a: int, b: int): int { if a >= b then a else b }
}
