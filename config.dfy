/**
 * The shape of the configuration record loaded from the YAML workload file
 * (internal/config/config.go). Loading itself (file read and YAML decoding)
 * is not modelled; only the record is.
 */
module Config {
  import opened Wrappers

  /** Connection settings; each is a pointer in the source, so it may be absent. */
  datatype AuthZed = AuthZed(api: Option<string>, key: Option<string>, schema: Option<string>)

  /** Workload settings: the read:write ratio and the run length in seconds. */
  datatype Workload = Workload(readRatio: int, durationSec: int)

  datatype Config = Config(authZed: AuthZed, workload: Workload)
}
