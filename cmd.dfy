/**
 * Start-up logic of the command (cmd/main.go): the command-line overrides of
 * the loaded workload settings, the preflight check of the service
 * connection, and the decision whether the workload is started.
 *
 * The health probe is an abstract outcome; a preflight failure ends the
 * process (log.Fatalf), which the model reports as an aborted launch.
 */
module Cmd {
  import opened Wrappers
  import Config

  const HealthPath := "/healthz"

  // ---------------------------------------------------------------------------
  // Flag overrides
  // ---------------------------------------------------------------------------

  /**
   * `-duration-sec` and `-read-ratio` replace the loaded values only when
   * they are positive (both default to 0); nothing else is touched.
   */
  function ApplyOverrides(cfg: Config.Config, durationFlag: int, readRatioFlag: int): (r: Config.Config)
    ensures durationFlag > 0 ==> r.workload.durationSec == durationFlag
    ensures durationFlag <= 0 ==> r.workload.durationSec == cfg.workload.durationSec
    ensures readRatioFlag > 0 ==> r.workload.readRatio == readRatioFlag
    ensures readRatioFlag <= 0 ==> r.workload.readRatio == cfg.workload.readRatio
    ensures r.authZed == cfg.authZed
  {
    var w := cfg.workload;
    var w := if durationFlag > 0 then w.(durationSec := durationFlag) else w;
    var w := if readRatioFlag > 0 then w.(readRatio := readRatioFlag) else w;
    cfg.(workload := w)
  }

  /** Applying the same flags a second time changes nothing. */
  lemma OverridesIdempotent(cfg: Config.Config, durationFlag: int, readRatioFlag: int)
    ensures ApplyOverrides(ApplyOverrides(cfg, durationFlag, readRatioFlag), durationFlag, readRatioFlag)
         == ApplyOverrides(cfg, durationFlag, readRatioFlag)
  {
  }

  /**
   * The effective ratio is positive exactly when the flag or the file asks for
   * a positive one: a flag of 0 (or less) can never force write-only mode.
   */
  lemma ReadRatioFlagCannotDisableReads(cfg: Config.Config, durationFlag: int, readRatioFlag: int)
    ensures ApplyOverrides(cfg, durationFlag, readRatioFlag).workload.readRatio > 0
        <==> readRatioFlag > 0 || cfg.workload.readRatio > 0
    ensures ApplyOverrides(cfg, durationFlag, readRatioFlag).workload.readRatio >= cfg.workload.readRatio
        || readRatioFlag > 0
  {
  }

  // ---------------------------------------------------------------------------
  // Preflight
  // ---------------------------------------------------------------------------

  /** The result of the health GET: a transport error or a response status. */
  datatype Health = HealthTransportError | HealthResponse(status: int)

  /**
   * The preflight verdict. `Passed` and `Unreachable` carry the URL that was
   * probed; `NilDereference` is the panic raised when a diagnostic is built
   * from a missing response.
   */
  datatype PreflightResult =
    | Passed(probed: string)
    | EndpointMissing
    | KeyMissing
    | Unreachable(probed: string, status: Option<int>)
    | NilDereference(probed: string)

  /** True when the health endpoint was contacted at all. */
  predicate Probed(r: PreflightResult)
  {
    r.Passed? || r.Unreachable? || r.NilDereference?
  }

  /**
   * The preflight checks in order: a missing endpoint, then a missing key,
   * then the health URL, which passes only on status exactly 200. A failed
   * probe is reported with the response status when there is a response.
   */
  function Preflight(auth: Config.AuthZed, health: Health): (r: PreflightResult)
    ensures auth.api.None? ==> r == EndpointMissing
    ensures auth.api.Some? && auth.key.None? ==> r == KeyMissing
    ensures Probed(r) <==> auth.api.Some? && auth.key.Some?
    ensures Probed(r) ==> r.probed == auth.api.value + HealthPath
    ensures r.Passed? <==> auth.api.Some? && auth.key.Some? && health == HealthResponse(200)
    ensures !r.NilDereference?
    ensures r.Unreachable? ==> r.status == (if health.HealthResponse? then Some(health.status) else None)
  {
    if auth.api.None? then EndpointMissing
    else if auth.key.None? then KeyMissing
    else
      var url := auth.api.value + HealthPath;
      match health
      case HealthTransportError => Unreachable(url, None)
      case HealthResponse(status) => if status == 200 then Passed(url) else Unreachable(url, Some(status))
  }

  /** Without an endpoint and a key, the verdict does not depend on the (unsent) health probe. */
  lemma CredentialsCheckedBeforeProbe(auth: Config.AuthZed, h1: Health, h2: Health)
    requires auth.api.None? || auth.key.None?
    ensures Preflight(auth, h1) == Preflight(auth, h2)
    ensures !Probed(Preflight(auth, h1))
  {
  }

  /**
   * The preflight as the source writes it: the failure message is formatted
   * with the response's status code even when the GET returned an error, and
   * then there is no response to read it from.
   */
  function PreflightAsWritten(auth: Config.AuthZed, health: Health): (r: PreflightResult)
    ensures !(health.HealthTransportError? && auth.api.Some? && auth.key.Some?) ==> r == Preflight(auth, health)
    ensures health.HealthTransportError? && auth.api.Some? && auth.key.Some? ==> r == NilDereference(auth.api.value + HealthPath)
  {
    if auth.api.None? then EndpointMissing
    else if auth.key.None? then KeyMissing
    else
      var url := auth.api.value + HealthPath;
      match health
      case HealthTransportError => NilDereference(url)
      case HealthResponse(status) => if status == 200 then Passed(url) else Unreachable(url, Some(status))
  }

  /** A concrete input on which the as-written preflight panics instead of reporting the unreachable API. */
  lemma PreflightAsWrittenPanicsOnTransportError()
    ensures var auth := Config.AuthZed(Some("http://localhost:8443"), Some("key"), None);
      && PreflightAsWritten(auth, HealthTransportError) == NilDereference("http://localhost:8443/healthz")
      && Preflight(auth, HealthTransportError) == Unreachable("http://localhost:8443/healthz", None)
  {
  }

  /** The as-written preflight lets a run through on exactly the same inputs as the corrected one. */
  lemma PreflightAsWrittenPassesIffPreflight(auth: Config.AuthZed, health: Health)
    ensures PreflightAsWritten(auth, health).Passed? <==> Preflight(auth, health).Passed?
    ensures PreflightAsWritten(auth, health) != Preflight(auth, health)
        <==> health.HealthTransportError? && auth.api.Some? && auth.key.Some?
  {
  }

  // ---------------------------------------------------------------------------
  // Launch
  // ---------------------------------------------------------------------------

  /** Whether the workload runs, and with which settings; a run that does not start ends the process. */
  datatype Launch = Aborted(reason: PreflightResult) | Started(workload: Config.Workload, dryRun: bool)

  /**
   * The path through `main` after the configuration is loaded: apply the flag
   * overrides, run the preflight (as the source writes it) unless in dry-run
   * mode, then start the workload with the effective settings.
   */
  function LaunchWorkload(loaded: Config.Config, durationFlag: int, readRatioFlag: int, dryRun: bool, health: Health): (r: Launch)
    ensures dryRun ==> r.Started?
    ensures !dryRun ==> (r.Started? <==> Preflight(loaded.authZed, health).Passed?)
    ensures r.Aborted? ==> r.reason == PreflightAsWritten(loaded.authZed, health)
    ensures r.Aborted? && health.HealthTransportError? && loaded.authZed.api.Some? && loaded.authZed.key.Some?
            ==> r.reason.NilDereference?
    ensures r.Started? ==> r.dryRun == dryRun
    ensures r.Started? ==> r.workload == ApplyOverrides(loaded, durationFlag, readRatioFlag).workload
  {
    var cfg := ApplyOverrides(loaded, durationFlag, readRatioFlag);
    PreflightAsWrittenPassesIffPreflight(cfg.authZed, health);
    if !dryRun && !PreflightAsWritten(cfg.authZed, health).Passed? then Aborted(PreflightAsWritten(cfg.authZed, health))
    else Started(cfg.workload, dryRun)
  }

  /** A live run starts only with an endpoint and a key present and a healthy service. */
  lemma LiveRunNeedsCredentialsAndHealth(loaded: Config.Config, durationFlag: int, readRatioFlag: int, health: Health)
    requires LaunchWorkload(loaded, durationFlag, readRatioFlag, false, health).Started?
    ensures loaded.authZed.api.Some? && loaded.authZed.key.Some?
    ensures health == HealthResponse(200)
  {
  }
}
