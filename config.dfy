/** The tunable thresholds of the application (config.py:30-43), passed to every component
 *  explicitly instead of being read from a global settings object. */
module Config {

  datatype Settings = Settings(
    minCtr: real,               // min_ctr_threshold
    maxDrr: real,               // max_drr_threshold
    highCtr: real,              // high_ctr_threshold
    highCr: real,               // high_cr_threshold
    maxAcceptableDrr: real,     // max_acceptable_drr
    criticalDrr: real,          // critical_drr_threshold
    minClicks: int,             // min_clicks_for_analysis
    bidIncreasePercent: real,   // bid_increase_percent
    bidDecreasePercent: real,   // bid_decrease_percent
    autoOptimizationEnabled: bool)

  /** The values the settings class declares when no environment variable overrides them. */
  const Defaults := Settings(0.5, 15.0, 3.0, 4.0, 25.0, 50.0, 30, 20.0, 30.0, false)
}
