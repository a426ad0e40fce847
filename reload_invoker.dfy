/**
 * The command sequencing of `reload_doc`: `bench reload-doc` for the record,
 * then `bench clear-cache` only when the reload exited with code 0. Process
 * execution is not modelled; what each command does is an input, and the
 * output is the list of argument vectors handed to the process runner.
 */
module ReloadInvoker {

  /** An argument vector, as passed to `subprocess.run`. */
  type Argv = seq<string>

  /**
   * What running a command came to: an exit code, the timeout expiring, or
   * another exception raised by the runner (a missing `bench` executable, say).
   */
  datatype ProcResult = Exited(code: int) | TimedOut | Raised

  /**
   * What one dispatch meets: whether changing into the bench directory
   * succeeds, and what the reload and the cache-clear commands come to.
   */
  datatype Env = Env(chdirOk: bool, reload: ProcResult, clearCache: ProcResult)

  /** The outcome that `reload_doc` reports in its log. */
  datatype Report =
    | Reloaded(cacheCleared: bool)
    | ReloadFailed
    | TimeoutReported
    | ExceptionReported

  /** `bench --site <site> reload-doc <module> <doctype> <docname> --force` */
  function ReloadCommand(site: string, moduleName: string, doctype: string, docname: string): (argv: Argv)
    ensures |argv| == 8 && argv[..4] == ["bench", "--site", site, "reload-doc"]
    ensures argv[4..7] == [moduleName, doctype, docname] && argv[7] == "--force"
    ensures argv != ClearCacheCommand(site)
  {
    ["bench", "--site", site, "reload-doc", moduleName, doctype, docname, "--force"]
  }

  /** `bench --site <site> clear-cache` */
  function ClearCacheCommand(site: string): (argv: Argv)
    ensures |argv| == 4 && argv[..3] == ["bench", "--site", site] && argv[3] == "clear-cache"
  {
    ["bench", "--site", site, "clear-cache"]
  }

  /** Whether a dispatch's reload command exits with code 0. */
  predicate ReloadSucceeds(env: Env)
  {
    env.chdirOk && env.reload == Exited(0)
  }

  /**
   * The commands one call of `reload_doc` issues, in order. A failed change
   * of directory raises before any command; otherwise the reload command
   * comes first, and the cache-clear command follows it only on exit code 0.
   */
  function Commands(site: string, moduleName: string, doctype: string, docname: string, env: Env): (cmds: seq<Argv>)
    ensures |cmds| <= 2
    ensures |cmds| >= 1 <==> env.chdirOk
    ensures |cmds| >= 1 ==> cmds[0] == ReloadCommand(site, moduleName, doctype, docname)
    ensures |cmds| == 2 <==> ReloadSucceeds(env)
    ensures |cmds| == 2 ==> cmds[1] == ClearCacheCommand(site)
  {
    if !env.chdirOk then []
    else if env.reload == Exited(0) then
      [ReloadCommand(site, moduleName, doctype, docname), ClearCacheCommand(site)]
    else
      [ReloadCommand(site, moduleName, doctype, docname)]
  }

  /** The cache is cleared if and only if the reload exited with code 0. */
  lemma ClearCacheIffReloadSucceeded(site: string, moduleName: string, doctype: string, docname: string, env: Env)
    ensures ClearCacheCommand(site) in Commands(site, moduleName, doctype, docname, env) <==> ReloadSucceeds(env)
  {
    var cmds := Commands(site, moduleName, doctype, docname, env);
    if |cmds| >= 1 {
      assert |cmds[0]| == 8 != |ClearCacheCommand(site)|;
    }
  }

  /** Every cache-clear command comes right after the reload command of the same dispatch. */
  lemma ClearCacheFollowsReload(site: string, moduleName: string, doctype: string, docname: string, env: Env)
    ensures var cmds := Commands(site, moduleName, doctype, docname, env);
      forall i :: 0 <= i < |cmds| && cmds[i] == ClearCacheCommand(site) ==>
        i >= 1 && cmds[i - 1] == ReloadCommand(site, moduleName, doctype, docname)
  {
    var cmds := Commands(site, moduleName, doctype, docname, env);
    if |cmds| >= 1 {
      assert |cmds[0]| == 8 != |ClearCacheCommand(site)|;
    }
  }

  /**
   * The outcome `reload_doc` logs: a failed change of directory or another
   * exception from either command is reported as an exception, a timeout of
   * either command as a timeout, a nonzero reload exit as a failed reload.
   */
  function ReportOf(env: Env): (r: Report)
    ensures r.Reloaded? <==> ReloadSucceeds(env) && env.clearCache.Exited?
    ensures r == Reloaded(true) <==> ReloadSucceeds(env) && env.clearCache == Exited(0)
    ensures r == ReloadFailed <==> env.chdirOk && env.reload.Exited? && env.reload.code != 0
    ensures r == TimeoutReported <==>
      env.chdirOk && (env.reload == TimedOut || (env.reload == Exited(0) && env.clearCache == TimedOut))
    ensures r == ExceptionReported <==>
      !env.chdirOk || env.reload == Raised || (env.reload == Exited(0) && env.clearCache == Raised)
  {
    if !env.chdirOk then ExceptionReported
    else
      match env.reload
      case Raised => ExceptionReported
      case TimedOut => TimeoutReported
      case Exited(code) =>
        if code != 0 then ReloadFailed
        else
          match env.clearCache
          case Exited(c) => Reloaded(c == 0)
          case TimedOut => TimeoutReported
          case Raised => ExceptionReported
  }

  /**
   * The timeout handler is shared by both commands: a reload that succeeded
   * followed by a cache clear that timed out is logged as a reload timeout.
   */
  lemma CacheClearTimeoutReportedAsReloadTimeout(site: string, moduleName: string, doctype: string, docname: string, env: Env)
    requires ReloadSucceeds(env) && env.clearCache == TimedOut
    ensures ReportOf(env) == TimeoutReported
    ensures Commands(site, moduleName, doctype, docname, env) ==
      [ReloadCommand(site, moduleName, doctype, docname), ClearCacheCommand(site)]
  {
  }
}
