/**
 * Static configuration of the reload watcher: the site, the bench directory,
 * the watched apps and the throttle window.
 */
module Config {
  import opened Wrappers

  /** Site used when the FRAPPE_SITE environment variable is not set. */
  const DefaultSiteName: string := "synthlane.localhost"

  /** The bench directory `/workspace/frappe-bench`, as its path segments. */
  const BenchPath: seq<string> := ["workspace", "frappe-bench"]

  /** Apps whose DocType records are watched. */
  const AppsToWatch: seq<string> := ["frappe", "erpnext", "synthlane_ims"]

  /** Throttle window of the handler, in seconds. */
  const DebounceSeconds: int := 1

  /** Resolution of the integer clock that stands for `time.time()`. */
  const TicksPerSecond: int := 1000

  /** The site name: the value of FRAPPE_SITE when it is set, the default otherwise. */
  function SiteName(env: Option<string>): (site: string)
    ensures env.Some? ==> site == env.value
    ensures env.None? ==> site == DefaultSiteName
  {
    match env
    case Some(s) => s
    case None => DefaultSiteName
  }
}
