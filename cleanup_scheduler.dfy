/**
 * `CleanupScheduler`: a background job that sweeps the reconnection table
 * once per interval, with an idempotent start and a stop. The job's
 * coroutine is modelled as a record of its interval and of the rounds it
 * has run; one round (wait, then sweep) is an explicit step.
 */
module Cleanup {
  import opened Util
  import opened Discord
  import opened ReconnectionStore
  import opened ReconnectionServices

  /** Milliseconds per hour (`intervalHours * 3600_000`). */
  const MS_PER_HOUR: int := 3_600_000

  /** The default interval of `startPeriodicCleanup`. */
  const DEFAULT_INTERVAL_HOURS: int := 24

  /** A launched cleanup coroutine: its wait per round, how many rounds it finished and how long it waited in all. */
  datatype CleanupJob = CleanupJob(intervalMs: int, active: bool, rounds: nat, waitedMs: int)

  class CleanupScheduler {
    const service: ReconnectionService
    var cleanupJob: Option<CleanupJob>

    /** Every finished round was preceded by one full wait. */
    ghost predicate Valid()
      reads this
    {
      cleanupJob.Some? ==> cleanupJob.value.waitedMs == cleanupJob.value.rounds * cleanupJob.value.intervalMs
    }

    constructor (service: ReconnectionService)
      ensures Valid() && this.service == service && cleanupJob.None?
    {
      this.service := service;
      cleanupJob := None;
    }

    /**
     * `startPeriodicCleanup`: while a job is active nothing happens; otherwise
     * a new job is launched that has not yet waited or swept.
     */
    method StartPeriodicCleanup(intervalHours: int)
      requires Valid()
      modifies this
      ensures Valid()
      ensures old(cleanupJob).Some? && old(cleanupJob).value.active ==> cleanupJob == old(cleanupJob)
      ensures !(old(cleanupJob).Some? && old(cleanupJob).value.active) ==>
        cleanupJob == Some(CleanupJob(intervalHours * MS_PER_HOUR, true, 0, 0))
    {
      if cleanupJob.Some? && cleanupJob.value.active {
        return;
      }
      cleanupJob := Some(CleanupJob(intervalHours * MS_PER_HOUR, true, 0, 0));
    }

    /**
     * One round of the job's loop: the full interval is waited first, then
     * the table is swept. The sweep does not throw here, so the loop always
     * goes on (an error other than cancellation would only be logged).
     */
    method RunRound() returns (cleaned: int)
      requires Valid() && cleanupJob.Some? && cleanupJob.value.active
      modifies this, service.database
      ensures Valid() && cleanupJob.Some? && cleanupJob.value.active
      ensures cleanupJob.value.intervalMs == old(cleanupJob).value.intervalMs
      ensures cleanupJob.value.rounds == old(cleanupJob).value.rounds + 1
      ensures cleanupJob.value.waitedMs == old(cleanupJob).value.waitedMs + cleanupJob.value.intervalMs
      ensures service.jda.None? || !service.database.connected ==> cleaned == 0 && service.database.rows == old(service.database.rows)
      ensures service.jda.Some? && service.database.connected ==>
        && service.database.rows == old(service.database.rows) - InvalidGuilds(service.jda.value, old(service.database.rows))
        && cleaned == |InvalidGuilds(service.jda.value, old(service.database.rows))|
    {
      var job := cleanupJob.value;
      cleanupJob := Some(job.(waitedMs := job.waitedMs + job.intervalMs));
      cleaned := service.CleanupInvalidStates();
      cleanupJob := Some(job.(rounds := job.rounds + 1, waitedMs := job.waitedMs + job.intervalMs));
    }

    /** The scope the job runs in is cancelled (at shutdown): the job stays recorded but is no longer active. */
    method ScopeCancelled()
      requires Valid()
      modifies this
      ensures Valid()
      ensures old(cleanupJob).None? ==> cleanupJob.None?
      ensures old(cleanupJob).Some? ==> cleanupJob == Some(old(cleanupJob).value.(active := false))
    {
      if cleanupJob.Some? {
        cleanupJob := Some(cleanupJob.value.(active := false));
      }
    }

    /** `stop`: the job, if any, is cancelled and forgotten. */
    method Stop()
      requires Valid()
      modifies this
      ensures Valid() && cleanupJob.None?
    {
      cleanupJob := None;
    }

    /** `runCleanupNow`: one sweep right away, returning how many records it removed. */
    method RunCleanupNow() returns (cleaned: int)
      modifies service.database
      ensures service.jda.None? || !service.database.connected ==> cleaned == 0 && service.database.rows == old(service.database.rows)
      ensures service.jda.Some? && service.database.connected ==>
        && service.database.rows == old(service.database.rows) - InvalidGuilds(service.jda.value, old(service.database.rows))
        && cleaned == |InvalidGuilds(service.jda.value, old(service.database.rows))|
    {
      cleaned := service.CleanupInvalidStates();
    }
  }
}
