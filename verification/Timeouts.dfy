/** The time-outs shared by masters and workers, in nanoseconds. */
module Timeouts {
  /** Instants and durations; all clocks share one origin. */
  type Time = int

  const SECOND: Time := 1_000_000_000

  datatype TimeoutConfig = TimeoutConfig(workerTimeout: Time, graceful: Time, heartbeat: Time)

  /** The worker time-out is raised to twice the heartbeat interval and three seconds. */
  function Adjust(config: TimeoutConfig): TimeoutConfig {
    if config.workerTimeout < 2 * config.heartbeat + 3 * SECOND
    then config.(workerTimeout := 2 * config.heartbeat + 3 * SECOND)
    else config
  }

  /** Only a worker time-out that is too short for two heartbeats and three seconds is changed, to just that. */
  lemma AdjustRaises(config: TimeoutConfig)
    ensures var least := 2 * config.heartbeat + 3_000_000_000;
      && Adjust(config).workerTimeout == (if config.workerTimeout < least then least else config.workerTimeout)
      && Adjust(config).graceful == config.graceful && Adjust(config).heartbeat == config.heartbeat
      && (Adjust(config) == config <==> least <= config.workerTimeout)
  {}

  const DEFAULT_TIMEOUTS := Adjust(TimeoutConfig(15 * SECOND, 5 * SECOND, 3 * SECOND))
}
