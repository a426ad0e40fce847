# DocType reload watcher, modelled in Dafny

This project models the decision logic of `reload-doc-watcher.py`. That script is a
file watcher running beside a Frappe bench. When a DocType record's JSON file changes
under one of the watched apps (`frappe`, `erpnext`, `synthlane_ims`), it stamps a new
`modified` time into the file. It then runs `bench --site <site> reload-doc <module>
<doctype> <docname> --force`, and runs `bench --site <site> clear-cache` when that
reload succeeds. A per-record throttle stops a burst of saves from starting a burst of
reloads.

Modules, one per part of `DocTypeReloadHandler`:

- `PathClassifier` (`path_classifier.dfy`) holds the guard checks of `on_modified`.
  They are written over path segments, in the source's order (`Classify`). They are
  proved equivalent to a declarative condition (`IsDocTypeRecord`). Python's
  `Path.suffix` is modelled exactly: it takes the last dot, but only when that dot is
  neither the first nor the last character.
- `Throttle` (`throttle.dfy`) holds the leading-edge throttle. Its map goes from key
  `module.doctype.docname` to the time of the last dispatch. `Run` feeds it a sequence
  of events, and lemmas state what holds over such a run.
- `JsonRecord` (`json_record.dfy`) holds the loaded record as a JSON value. Objects
  are member lists in file order. `obj["modified"] = stamp` is modelled with Python
  dict semantics: a key that already exists keeps its position, and a new key goes at
  the end.
- `ReloadInvoker` (`reload_invoker.dfy`) holds the commands `reload_doc` issues, in
  order, and the outcome it reports. What each process does is an input.
- `Watcher` (`watcher.dfy`) holds the handler class. Its `lastReload` map is updated
  in place by `OnModified`. Every other input of a call is a parameter: the clock
  tick, the loaded file, the timestamp string, and the process results.
- `Config` (`config.dfy`) holds the constants `SITE_NAME`, `BENCH_PATH`,
  `APPS_TO_WATCH` and the one-second throttle window.

Time is an integer tick of one millisecond, so the one-second window is 1000 ticks.

The model follows the code as written. Four behaviours of the code are proved and
called out here:

- The depth test is `len(parts) >= 7`. A JSON file below a directory named
  `<name>.json` is therefore taken as record `<name>` (`ExampleDeeperPathAccepted`).
- The throttle key joins module, doctype and name with dots. It leaves out the app.
  The same record under two apps shares one entry (`SharedEntryAcrossApps`). Segments
  that contain dots can make two records share a key (`FileKeyCollision`). Without
  dots in the module and doctype the key is injective (`FileKeyInjective`).
- The code throttles; it does not debounce. The first event of a burst dispatches, whenever the record
  has not dispatched within the window, and the rest are dropped (`BurstDispatchesOnce`). No dispatch waits for the burst to
  settle.
- Both commands share one `TimeoutExpired` handler. A cache clear that times out
  after a successful reload is therefore reported as a reload timeout
  (`CacheClearTimeoutReportedAsReloadTimeout`).

Some comments in `reload-doc-watcher.py` describe a step differently from what its code does. Line numbers below are in that file, and the model follows the code:

- The comments on lines 27 and 95 speak of waiting one second and of debouncing. Lines 99-103 are a leading-edge throttle: the first event dispatches at once, and later events within the window are dropped.
- The comment on line 161 says the cache of the doctype is cleared. Lines 162-166 run `clear-cache` for the whole site.
- The comments on lines 60 and 77 show exactly seven parts. Line 87 accepts seven or more.
- The app name is `parts[1]` (line 73). It does not come from the directory the observer was scheduled on (lines 205-208).

## Model

| member | source | states |
|---|---|---|
| `PathClassifier.RFind` | reload-doc-watcher.py:36 | the index of the last occurrence of the character, or -1 exactly when it does not occur; no later position holds it |
| `PathClassifier.Suffix` | reload-doc-watcher.py:36 | `Path.suffix` is empty or a proper ending of the name of at least two characters, a dot followed by no further dot (the exact `.json` case is `SuffixIsJson`) |
| `PathClassifier.SuffixIsJson` | reload-doc-watcher.py:35-37 | `Path.suffix == ".json"` holds exactly when the file name ends in `.json` with at least one character before it |
| `PathClassifier.RelativeParts` | reload-doc-watcher.py:39-58 | the parts relative to the bench exist exactly when the resolved path has the bench root as a segment prefix, and the root followed by them gives back the path |
| `PathClassifier.Classify` | reload-doc-watcher.py:29-94 | the guard sequence accepts an event iff it is not a directory, the name has a `.json` suffix, the path is under the bench, `parts[0] == "apps"`, `parts[1]` is a watched app, `parts[2] == parts[1]`, there are at least 7 parts and `parts[6] == parts[5] + ".json"`; an accepted event yields `(parts[1], parts[3], parts[4], parts[5])` |
| `PathClassifier.ExampleOnboardingStep` | reload-doc-watcher.py:60-61 | `apps/erpnext/erpnext/accounts/onboarding_step/setup_taxes/setup_taxes.json` yields app `erpnext`, module `accounts`, doctype `onboarding_step`, name `setup_taxes` |
| `PathClassifier.ExampleShortPathRejected` | reload-doc-watcher.py:62-63 | `apps/erpnext/readme.json` is ignored |
| `PathClassifier.ExampleDeeperPathAccepted` | reload-doc-watcher.py:87-94 | only the first seven parts are inspected: a deeper JSON file under `<name>/<name>.json/` is classified as record `<name>` |
| `PathClassifier.ExampleMismatchedAppRejected` | reload-doc-watcher.py:87 | a path whose third part is not the app named in the second is ignored |
| `Throttle.FileKey` | reload-doc-watcher.py:96 | the key is the module, a dot, the doctype, a dot and the name, in that order; no app appears in it (see `FileKeyCollision`, `FileKeyInjective`) |
| `Throttle.Admits` | reload-doc-watcher.py:99-100 | an event passes when its key has no entry; one that passes with an entry is at least the window after it; a dropped one has an entry less than the window before it |
| `Throttle.Run` | reload-doc-watcher.py:95-103 | the handler's throttle applied to a sequence of events: no more dispatches than events, no key is removed, and every new key is one of the events' keys |
| `Throttle.Step` | reload-doc-watcher.py:96-103 | a dropped event leaves the map unchanged; a dispatched one stores `now` under its key; every other entry keeps its value; with a non-negative window no stored time decreases |
| `Throttle.LatestDispatchIsStored` | reload-doc-watcher.py:99-103 | after any run, the map holds for each dispatched key the time of that key's latest dispatch |
| `Throttle.DispatchesSpacedOut` | reload-doc-watcher.py:99-103 | two consecutive dispatches of the same key are at least the window apart, whatever order the times come in |
| `Throttle.StoredTimesNeverDecrease` | reload-doc-watcher.py:99-103 | with a non-negative window, the time stored for every key is never lowered by a run, even when the supplied times are not monotone |
| `Throttle.StoredKeysWereDispatched` | reload-doc-watcher.py:103 | every key in the map after a run was there at the start or was dispatched during the run |
| `Throttle.DispatchedWereOffered` | reload-doc-watcher.py:95-103 | every dispatched event is one of the events offered |
| `Throttle.UntouchedKeyKeepsEntry` | reload-doc-watcher.py:103 | a key on which no event occurs keeps its starting entry, or its absence, through a run |
| `Throttle.FirstEventOnKeyDispatches` | reload-doc-watcher.py:99-103 | leading edge: the first event on a key in a run dispatches whenever the starting map lets it through (no entry, or an entry at least the window old) |
| `Throttle.BurstDispatchesOnce` | reload-doc-watcher.py:95-103 | a burst on one key whose first event the starting map lets through, staying within the window of that event, dispatches exactly once, the first event, and stores its time |
| `Throttle.FileKeyCollision` | reload-doc-watcher.py:96 | module `setup.wizard`, doctype `page` and module `setup`, doctype `wizard.page` get the same key |
| `Throttle.FileKeyInjective` | reload-doc-watcher.py:96 | when module and doctype contain no dot, equal keys mean equal (module, doctype, name) |
| `JsonRecord.SetMember` | reload-doc-watcher.py:121 | item assignment keeps the key order, or appends a new key at the end, and leaves every member with another key at its position |
| `JsonRecord.SetMemberLookup` | reload-doc-watcher.py:121 | after the assignment the key reads as the new value and every other key reads as before |
| `JsonRecord.SetMemberKeepsKeysDistinct` | reload-doc-watcher.py:117-121 | the patched object still has distinct keys |
| `JsonRecord.PatchTimestamp` | reload-doc-watcher.py:113-130 | the patch succeeds iff the file loaded as a JSON object; then `modified` is the new stamp, every other key keeps its value, the key order is kept (`modified` is appended if absent), and a record with distinct keys keeps them distinct |
| `ReloadInvoker.ReloadCommand` | reload-doc-watcher.py:138-146 | eight arguments: `bench --site SITE reload-doc`, then module, doctype and name in that order, then `--force`; never equal to the cache-clear command |
| `ReloadInvoker.ClearCacheCommand` | reload-doc-watcher.py:162-166 | four arguments: `bench --site SITE clear-cache` |
| `ReloadInvoker.Commands` | reload-doc-watcher.py:134-181 | at most two commands; none if changing into the bench fails; otherwise the first is `bench --site SITE reload-doc module doctype docname --force`; a second exists iff the reload exited 0, and it is `bench --site SITE clear-cache` |
| `ReloadInvoker.ClearCacheIffReloadSucceeded` | reload-doc-watcher.py:156-174 | `clear-cache` is issued if and only if the reload exited with code 0 |
| `ReloadInvoker.ClearCacheFollowsReload` | reload-doc-watcher.py:138-174 | every `clear-cache` comes right after the record's `reload-doc`, never before it |
| `ReloadInvoker.ReportOf` | reload-doc-watcher.py:156-192 | each outcome characterised both ways: a reload iff the reload exited 0 and the cache clear exited (a full success iff both exited 0); a reload error iff the reload exited nonzero; a timeout iff the reload, or the cache clear after a successful reload, timed out; an exception iff changing into the bench failed or either command raised |
| `ReloadInvoker.CacheClearTimeoutReportedAsReloadTimeout` | reload-doc-watcher.py:169-188 | a successful reload followed by a cache-clear timeout issues both commands and is reported as a timeout |
| `Config.SiteName` | reload-doc-watcher.py:17 | the site is the value of `FRAPPE_SITE` when it is set and `synthlane.localhost` otherwise |
| `Watcher.DocTypeReloadHandler.constructor` | reload-doc-watcher.py:17-27 | a new handler has an empty throttle map, a one-second window, the bench root and the site from `FRAPPE_SITE` or its default |
| `Watcher.DocTypeReloadHandler.OnModified` | reload-doc-watcher.py:29-111 | the new throttle map and the result are those of `HandledModification`: ignored and unchanged for a non-record; throttled and unchanged within the window; otherwise the key's time is set to `now`, the patch is applied and the reload commands are issued even when the patch failed |
| `Watcher.DocTypeReloadHandler.HandleEvent` | reload-doc-watcher.py:22-29 | only modification events reach `on_modified`; creations, deletions and moves are ignored and change nothing |
| `Watcher.DocTypeReloadHandler.IgnoredUnlessRecord` | reload-doc-watcher.py:29-94 | an event is ignored with no change to the map unless its path is a DocType record path; a handled event names the record of parts 3 to 5 |
| `Watcher.DocTypeReloadHandler.DispatchContract` | reload-doc-watcher.py:95-111 | a throttled event changes nothing; a dispatch stores `now` under its key only and issues at most two commands, `reload-doc` first and `clear-cache` iff the reload exited 0 |
| `Watcher.DocTypeReloadHandler.UpdateJsonTimestamp` | reload-doc-watcher.py:113-130 | what is written back is exactly the patched record, or nothing when loading or patching failed |
| `Watcher.DocTypeReloadHandler.ReloadDoc` | reload-doc-watcher.py:132-192 | the command log it builds and the outcome it reports are exactly those of `Commands` and `ReportOf` |
| `Watcher.DocTypeReloadHandler.SharedEntryAcrossApps` | reload-doc-watcher.py:96 | after a change to `apps/erpnext/erpnext/M/D/N/N.json` dispatches, a change to `apps/frappe/frappe/M/D/N/N.json` less than the window later is throttled by the handler |

## Left out

- The watchdog `Observer`, the scheduling of one watch per existing app directory, the `main` loop with its sleep, and shutdown on `KeyboardInterrupt` (reload-doc-watcher.py:195-221) are left out. They are event-subscription plumbing and threading. Events are handed to `HandleEvent` one at a time.
- Process execution is not modelled. Each command's result (an exit code, a timeout or another exception) is an input. The 30 s and 10 s timeouts, the captured stdout and stderr, and the log lines are not modelled; `ReportOf` stands for the final outcome message only. After a reload that exits 0 the source also prints a success line (line 157) before the cache-clear outcome, and that line is not modelled.
- The current directory change (`os.chdir`) is an input flag. When it fails, no command is issued.
- JSON parsing and writing are not modelled: `json.load`, `json.dump` with `indent=1` and `ensure_ascii=False`, and the trailing newline. A failed read or parse is the input `None`. JSON numbers are integers only.
- `time.time()` becomes an integer millisecond tick supplied by the caller. `datetime.now().strftime(...)` becomes an opaque timestamp string. That the new timestamp is later than the old one depends on the wall clock and is not modelled.
- `Path.resolve()` is an input: the resolved segments, or `None` when resolving raises. The bench path is taken as already resolved, so the failure branch of resolving it (reload-doc-watcher.py:46-51) is not modelled.
- Reading `FRAPPE_SITE` from the environment becomes the constructor's `Option` argument.
- The modification event caused by the handler's own write to the record is not modelled, nor is its timing against the 30 s reload. Whether the throttle catches it depends on when the observer delivers it.
- PatchTimestamp: write failures (line 123) are not modelled. If `open(..., 'w')` raises before truncating, nothing is written, yet `PatchTimestamp` and `UpdateJsonTimestamp` still return `Some` of the patched record. If `json.dump` fails after truncating, a partial file is left, which the model does not represent. Either failure is swallowed, and the reload commands follow regardless, as the model states.
