/**
 * The path classifier of `DocTypeReloadHandler.on_modified`: the guard checks
 * that decide whether a changed file is a DocType JSON record
 * `apps/{app}/{app}/{module}/{doctype}/{name}/{name}.json` under the bench
 * directory, and the extraction of the record's module, doctype and name.
 * Paths are sequences of segment names; the root is not a segment.
 */
module PathClassifier {
  import opened Wrappers
  import Config

  /** The kinds of events the filesystem observer delivers. */
  datatype EventKind = Created | Modified | Deleted | Moved

  /**
   * A filesystem event as the handler receives it. `srcPath` is the path the
   * observer reported; `resolved` is that path after `Path.resolve()`, or
   * None when resolving raised.
   */
  datatype Event = Event(kind: EventKind, isDirectory: bool, srcPath: seq<string>, resolved: Option<seq<string>>)

  /** A reloadable record: the watched app and the record's module, doctype and name. */
  datatype DocRef = DocRef(app: string, moduleName: string, doctype: string, docname: string)

  /** Index of the last occurrence of `c` in `s`, or -1 when there is none (Python's `str.rfind`). */
  function RFind(s: string, c: char): (r: int)
    ensures -1 <= r < |s|
    ensures r == -1 ==> c !in s
    ensures 0 <= r ==> s[r] == c && forall j :: r < j < |s| ==> s[j] != c
    decreases |s|
  {
    if |s| == 0 then -1
    else if s[|s| - 1] == c then |s| - 1
    else RFind(s[..|s| - 1], c)
  }

  /** The last segment of a path, or "" for the empty path (`Path.name`). */
  function Name(path: seq<string>): string
  {
    if |path| == 0 then "" else path[|path| - 1]
  }

  /**
   * `Path.suffix`: from the last dot of the name on, provided that dot is
   * neither the first nor the last character; "" otherwise.
   */
  function Suffix(name: string): (suffix: string)
    ensures suffix == "" || (2 <= |suffix| < |name| && suffix == name[|name| - |suffix|..])
    ensures suffix != "" ==> suffix[0] == '.' && '.' !in suffix[1..]
  {
    var i := RFind(name, '.');
    if 0 < i < |name| - 1 then name[i..] else ""
  }

  /** The file name ends in ".json" and has at least one character before it. */
  predicate HasJsonExtension(name: string)
  {
    |name| > 5 && name[|name| - 5..] == ".json"
  }

  /** Python's suffix test `suffix == ".json"` accepts exactly the names with a non-empty stem and a ".json" ending. */
  lemma SuffixIsJson(name: string)
    ensures Suffix(name) == ".json" <==> HasJsonExtension(name)
  {
    var i := RFind(name, '.');
    if HasJsonExtension(name) {
      var k := |name| - 5;
      assert name[k] == ".json"[0];
      assert forall j :: k < j < |name| ==> name[j] == ".json"[j - k];
      assert i == k;
    }
    if Suffix(name) == ".json" {
      assert 0 < i < |name| - 1 && name[i..] == ".json";
      assert |name| - i == 5;
    }
  }

  /**
   * The resolution, prefix test and `relative_to` steps together: the path
   * lies under the bench root, and these are its parts relative to it. The
   * source's string prefix test admits a sibling such as `frappe-bench2`,
   * but `relative_to` then raises, so only segment prefixes get through.
   */
  function RelativeParts(resolved: Option<seq<string>>, root: seq<string>): (r: Option<seq<string>>)
    ensures r.Some? <==> resolved.Some? && root <= resolved.value
    ensures r.Some? ==> root + r.value == resolved.value
  {
    match resolved
    case Some(path) => if root <= path then Some(path[|root|..]) else None
    case None => None
  }

  /**
   * The declarative acceptance condition: a file (not a directory) named
   * `*.json`, under the bench root, whose relative parts start with "apps",
   * a watched app twice, and at least four more parts where the seventh is
   * the sixth followed by ".json".
   */
  predicate IsDocTypeRecord(e: Event, root: seq<string>)
  {
    && !e.isDirectory
    && HasJsonExtension(Name(e.srcPath))
    && e.resolved.Some?
    && root <= e.resolved.value
    && var parts := e.resolved.value[|root|..];
       && |parts| >= 7
       && parts[0] == "apps"
       && parts[1] in Config.AppsToWatch
       && parts[2] == parts[1]
       && parts[6] == parts[5] + ".json"
  }

  /**
   * The guard checks of `on_modified`, in the source's order, up to the point
   * where the record is identified. None means the event is ignored.
   */
  function Classify(e: Event, root: seq<string>): (r: Option<DocRef>)
    ensures r.Some? <==> IsDocTypeRecord(e, root)
    ensures r.Some? ==>
      var parts := e.resolved.value[|root|..];
      r.value == DocRef(parts[1], parts[3], parts[4], parts[5])
  {
    SuffixIsJson(Name(e.srcPath));
    if e.isDirectory then None
    else if Suffix(Name(e.srcPath)) != ".json" then None
    else
      match RelativeParts(e.resolved, root)
      case None => None
      case Some(parts) =>
        if |parts| < 6 then None
        else if parts[0] != "apps" then None
        else if |parts| < 2 then None
        else
          var app := parts[1];
          if app !in Config.AppsToWatch then None
          else if |parts| >= 6 && parts[2] == app && |parts| >= 7 && parts[6] == parts[5] + ".json" then
            Some(DocRef(app, parts[3], parts[4], parts[5]))
          else None
  }

  /** A modification of `setup_taxes.json` in ERPNext's onboarding steps names that record. */
  lemma ExampleOnboardingStep()
    ensures
      var rel := ["apps", "erpnext", "erpnext", "accounts", "onboarding_step", "setup_taxes", "setup_taxes.json"];
      var e := Event(Modified, false, Config.BenchPath + rel, Some(Config.BenchPath + rel));
      Classify(e, Config.BenchPath) == Some(DocRef("erpnext", "accounts", "onboarding_step", "setup_taxes"))
  {
    var rel := ["apps", "erpnext", "erpnext", "accounts", "onboarding_step", "setup_taxes", "setup_taxes.json"];
    var e := Event(Modified, false, Config.BenchPath + rel, Some(Config.BenchPath + rel));
    assert (Config.BenchPath + rel)[|Config.BenchPath|..] == rel;
    SuffixIsJson("setup_taxes.json");
  }

  /** `apps/erpnext/readme.json` has too few parts and is ignored. */
  lemma ExampleShortPathRejected()
    ensures
      var rel := ["apps", "erpnext", "readme.json"];
      Classify(Event(Modified, false, Config.BenchPath + rel, Some(Config.BenchPath + rel)), Config.BenchPath) == None
  {
    var rel := ["apps", "erpnext", "readme.json"];
    assert (Config.BenchPath + rel)[|Config.BenchPath|..] == rel;
  }

  /**
   * The depth test is `len(parts) >= 7`: a JSON file one level below a
   * directory named like the record's file is classified as that record.
   */
  lemma ExampleDeeperPathAccepted()
    ensures
      var rel := ["apps", "frappe", "frappe", "desk", "workspace", "home", "home.json", "notes.json"];
      var e := Event(Modified, false, Config.BenchPath + rel, Some(Config.BenchPath + rel));
      Classify(e, Config.BenchPath) == Some(DocRef("frappe", "desk", "workspace", "home"))
  {
    var rel := ["apps", "frappe", "frappe", "desk", "workspace", "home", "home.json", "notes.json"];
    assert (Config.BenchPath + rel)[|Config.BenchPath|..] == rel;
    SuffixIsJson("notes.json");
  }

  /** An app directory that is not the watched app's own package is ignored. */
  lemma ExampleMismatchedAppRejected()
    ensures
      var rel := ["apps", "erpnext", "frappe", "accounts", "onboarding_step", "setup_taxes", "setup_taxes.json"];
      Classify(Event(Modified, false, Config.BenchPath + rel, Some(Config.BenchPath + rel)), Config.BenchPath) == None
  {
    var rel := ["apps", "erpnext", "frappe", "accounts", "onboarding_step", "setup_taxes", "setup_taxes.json"];
    assert (Config.BenchPath + rel)[|Config.BenchPath|..] == rel;
  }
}
