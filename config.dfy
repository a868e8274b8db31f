/** Configuration consumed by the core (the defaults of src/settings.rs). */
module Config {

  /** Durations are in milliseconds, sizes in bytes. The root URL is not part of this model. */
  datatype Settings = Settings(
    tokenTimeout: nat,
    responseLongPollDuration: nat,
    pageUpdateLongPollDuration: nat,
    maxResponseSize: nat,
    maxPageSize: nat,
    cleanupInterval: nat,
    sessionKeepAlive: nat,
    maxMemoryUsage: nat)

  /** `Settings::default`: one day, 5 s, 30 s, 4 KB, 1 MB, 3 s, one day, 500 MB (decimal units). */
  const DefaultSettings: Settings := Settings(
    tokenTimeout := 86_400_000,
    responseLongPollDuration := 5_000,
    pageUpdateLongPollDuration := 30_000,
    maxResponseSize := 4_000,
    maxPageSize := 1_000_000,
    cleanupInterval := 3_000,
    sessionKeepAlive := 86_400_000,
    maxMemoryUsage := 500_000_000)
}
