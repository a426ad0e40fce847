/**
 * `DocTypeReloadHandler`: the object the filesystem observer calls back. It
 * holds the throttle map, which `on_modified` reads and updates in place, and
 * runs a qualifying change through the timestamp patch and the reload
 * commands. The clock, the file contents, the timestamp string and the
 * process results are inputs of each call.
 */
module Watcher {
  import opened Wrappers
  import Config
  import opened PathClassifier
  import opened JsonRecord
  import opened ReloadInvoker
  import Throttle

  /** What handling one event came to. */
  datatype Handled =
    | Ignored
    | Throttled(doc: DocRef)
    | Dispatched(doc: DocRef, written: Option<Json>, commands: seq<Argv>, report: Report)

  class DocTypeReloadHandler {
    /** The site the bench commands act on. */
    const site: string
    /** The bench directory, as its resolved path segments. */
    const benchRoot: seq<string>
    /** The throttle window, in ticks. */
    const debounceTicks: int
    /** Time of the last dispatch of each record key. */
    var lastReload: map<string, int>

    /** A handler for the site named by FRAPPE_SITE (given as `frappeSite`), with an empty throttle map. */
    constructor (frappeSite: Option<string>)
      ensures site == Config.SiteName(frappeSite)
      ensures benchRoot == Config.BenchPath
      ensures debounceTicks == Config.DebounceSeconds * Config.TicksPerSecond
      ensures lastReload == map[]
    {
      site := Config.SiteName(frappeSite);
      benchRoot := Config.BenchPath;
      debounceTicks := Config.DebounceSeconds * Config.TicksPerSecond;
      lastReload := map[];
    }

    /**
     * What `on_modified` does with a modification event, as a relation
     * between the throttle map before (`last`) and after (`last'`) and the
     * result `h`: a non-record is ignored; a record whose key dispatched
     * within the window is throttled; otherwise the key's time is set to
     * `now`, the record is patched and the reload commands are issued.
     */
    ghost predicate HandledModification(last: map<string, int>, last': map<string, int>, event: Event,
                                        now: int, loaded: Option<Json>, stamp: string, env: Env, h: Handled)
    {
      match Classify(event, benchRoot)
      case None => h == Ignored && last' == last
      case Some(doc) =>
        var key := Throttle.FileKey(doc.moduleName, doc.doctype, doc.docname);
        && last' == Throttle.Step(last, key, now, debounceTicks)
        && if Throttle.Admits(last, key, now, debounceTicks) then
             h == Dispatched(doc, PatchTimestamp(loaded, stamp),
                             Commands(site, doc.moduleName, doc.doctype, doc.docname, env), ReportOf(env))
           else
             h == Throttled(doc)
    }

    /**
     * An event is ignored, and the throttle map left alone, unless it is a
     * DocType record path; an event that is not ignored names the record
     * given by the path's fourth, fifth and sixth parts.
     */
    lemma IgnoredUnlessRecord(last: map<string, int>, last': map<string, int>, event: Event,
                              now: int, loaded: Option<Json>, stamp: string, env: Env, h: Handled)
      requires HandledModification(last, last', event, now, loaded, stamp, env, h)
      ensures !IsDocTypeRecord(event, benchRoot) ==> h == Ignored && last' == last
      ensures h != Ignored ==>
        && IsDocTypeRecord(event, benchRoot)
        && var parts := event.resolved.value[|benchRoot|..];
           h.doc == DocRef(parts[1], parts[3], parts[4], parts[5])
    {
    }

    /**
     * A throttled event changes nothing; a dispatch stores `now` for its key
     * and issues at most two commands, `reload-doc` for the record first and
     * `clear-cache` exactly when the reload exited with code 0.
     */
    lemma DispatchContract(last: map<string, int>, last': map<string, int>, event: Event,
                           now: int, loaded: Option<Json>, stamp: string, env: Env, h: Handled)
      requires HandledModification(last, last', event, now, loaded, stamp, env, h)
      ensures h.Throttled? ==> last' == last
      ensures h.Dispatched? ==>
        var key := Throttle.FileKey(h.doc.moduleName, h.doc.doctype, h.doc.docname);
        && key in last' && last'[key] == now
        && (forall k :: k in last && k != key ==> k in last' && last'[k] == last[k])
        && |h.commands| <= 2
        && (|h.commands| >= 1 ==> h.commands[0] == ReloadCommand(site, h.doc.moduleName, h.doc.doctype, h.doc.docname))
        && (ClearCacheCommand(site) in h.commands <==> ReloadSucceeds(env))
    {
      if h.Dispatched? {
        ClearCacheIffReloadSucceeded(site, h.doc.moduleName, h.doc.doctype, h.doc.docname, env);
      }
    }

    /**
     * The throttle key leaves out the app: after a change to record
     * `M/D/N` under `erpnext` dispatches, a change to the same record path
     * under `frappe` less than the window later is throttled.
     */
    lemma SharedEntryAcrossApps(m: string, d: string, n: string, t1: int, t2: int,
                                last0: map<string, int>, last1: map<string, int>, last2: map<string, int>,
                                loaded: Option<Json>, stamp: string, env: Env, h1: Handled, h2: Handled)
      requires t2 - t1 < debounceTicks
      requires HandledModification(last0, last1, RecordEvent("erpnext", m, d, n), t1, loaded, stamp, env, h1)
      requires h1.Dispatched?
      requires HandledModification(last1, last2, RecordEvent("frappe", m, d, n), t2, loaded, stamp, env, h2)
      ensures h1.doc == DocRef("erpnext", m, d, n)
      ensures h2 == Throttled(DocRef("frappe", m, d, n))
    {
      var rel1 := ["apps", "erpnext", "erpnext", m, d, n, n + ".json"];
      var rel2 := ["apps", "frappe", "frappe", m, d, n, n + ".json"];
      assert (benchRoot + rel1)[|benchRoot|..] == rel1;
      assert (benchRoot + rel2)[|benchRoot|..] == rel2;
    }

    /** A modification event on `apps/{app}/{app}/{m}/{d}/{n}/{n}.json` under the bench. */
    function RecordEvent(app: string, m: string, d: string, n: string): Event
    {
      var path := benchRoot + ["apps", app, app, m, d, n, n + ".json"];
      Event(Modified, false, path, Some(path))
    }

    /**
     * `on_modified`: classify the path, consult and update the throttle map,
     * then patch the record and issue the reload commands.
     */
    method OnModified(event: Event, now: int, loaded: Option<Json>, stamp: string, env: Env) returns (h: Handled)
      modifies this`lastReload
      ensures HandledModification(old(lastReload), lastReload, event, now, loaded, stamp, env, h)
    {
      var doc := Classify(event, benchRoot);
      if doc.None? {
        return Ignored;
      }
      var r := doc.value;
      var key := Throttle.FileKey(r.moduleName, r.doctype, r.docname);
      if key in lastReload && now - lastReload[key] < debounceTicks {
        return Throttled(r);
      }
      lastReload := lastReload[key := now];
      var written := UpdateJsonTimestamp(loaded, stamp);
      var cmds, report := ReloadDoc(r.moduleName, r.doctype, r.docname, env);
      h := Dispatched(r, written, cmds, report);
    }

    /**
     * The observer's callback dispatch: only modifications reach
     * `on_modified`; creations, deletions and moves fall through to the base
     * class's handlers, which do nothing.
     */
    method HandleEvent(event: Event, now: int, loaded: Option<Json>, stamp: string, env: Env) returns (h: Handled)
      modifies this`lastReload
      ensures event.kind != Modified ==> h == Ignored && lastReload == old(lastReload)
      ensures event.kind == Modified ==>
        HandledModification(old(lastReload), lastReload, event, now, loaded, stamp, env, h)
    {
      if event.kind == Modified {
        h := OnModified(event, now, loaded, stamp, env);
      } else {
        h := Ignored;
      }
    }

    /**
     * `update_json_timestamp`: sets the loaded record's `modified` member to
     * `stamp` and returns what is written back, or None when loading or
     * patching failed (the failure is logged and swallowed).
     */
    method UpdateJsonTimestamp(loaded: Option<Json>, stamp: string) returns (written: Option<Json>)
      ensures written == PatchTimestamp(loaded, stamp)
    {
      match loaded {
        case Some(JObject(members)) =>
          var data := members;
          data := SetMember(data, ModifiedField, JString(stamp));
          written := Some(JObject(data));
        case _ =>
          written := None;
      }
    }

    /**
     * `reload_doc`: appends each command to the log as it is run, the
     * reload first and the cache clear only after a reload that exited with
     * code 0, and returns the log with the outcome it reports.
     */
    method ReloadDoc(moduleName: string, doctype: string, docname: string, env: Env)
      returns (cmds: seq<Argv>, report: Report)
      ensures cmds == Commands(site, moduleName, doctype, docname, env)
      ensures report == ReportOf(env)
    {
      cmds := [];
      if !env.chdirOk {
        return cmds, ExceptionReported;
      }
      cmds := cmds + [ReloadCommand(site, moduleName, doctype, docname)];
      match env.reload {
        case Raised =>
          report := ExceptionReported;
        case TimedOut =>
          report := TimeoutReported;
        case Exited(code) =>
          if code == 0 {
            cmds := cmds + [ClearCacheCommand(site)];
            match env.clearCache {
              case Exited(c) => report := Reloaded(c == 0);
              case TimedOut => report := TimeoutReported;
              case Raised => report := ExceptionReported;
            }
          } else {
            report := ReloadFailed;
          }
      }
    }
  }

  /**
   * A modification of ERPNext's `setup_taxes` onboarding step seen by a new
   * handler: the record is patched, reloaded and the cache cleared; the same
   * change half a second later is throttled.
   */
  method ScenarioOnboardingStep(stamp: string)
  {
    var handler := new DocTypeReloadHandler(None);
    var rel := ["apps", "erpnext", "erpnext", "accounts", "onboarding_step", "setup_taxes", "setup_taxes.json"];
    var path := Config.BenchPath + rel;
    var event := Event(Modified, false, path, Some(path));
    ExampleOnboardingStep();
    var doc := DocRef("erpnext", "accounts", "onboarding_step", "setup_taxes");
    var loaded := Some(JObject([Member("doctype", JString("Onboarding Step")), Member("modified", JString("2024-01-01"))]));
    var ok := Env(true, Exited(0), Exited(0));
    var h := handler.HandleEvent(event, 5000, loaded, stamp, ok);
    assert h.Dispatched?;
    assert h.commands == [
      ["bench", "--site", "synthlane.localhost", "reload-doc", "accounts", "onboarding_step", "setup_taxes", "--force"],
      ["bench", "--site", "synthlane.localhost", "clear-cache"]];
    assert h.report == Reloaded(true);
    var again := handler.HandleEvent(event, 5500, loaded, stamp, ok);
    assert again == Throttled(doc);
  }
}
