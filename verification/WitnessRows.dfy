/** The smallest rows that a creation may insert; the literal runs start from them. */
module WitnessRows {
  import opened Options
  import opened QueueStore

  function QueuedJob(now: int): JobRow {
    JobRow(Bootstrap, None, 0, 1, now, JobQueued, ZERO, 0, "", false, None, None, None, None)
  }

  function QueuedSource(j: JobId): SourceRow {
    SourceRow(j, Telegram, "channel", "", SourceQueued, ZERO, "")
  }
}
