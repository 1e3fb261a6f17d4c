# Onboarding tour orchestrator — a Dafny model

This project models the guided-tour script of Mautic's administration pages,
`app/bundles/CoreBundle/Assets/js/libraries/tour/tour.js`. The script has
these parts:

- **Route resolver.** It maps the page path to a tour key and that tour's step
  list. It uses a chain of `startsWith` tests and three `===` tests, and
  falls through to `unknownTour` with no steps.
- **Progress store.** It keeps two Web Storage scopes:
  - the session cursor `<key>Step` in `sessionStorage`;
  - the durable completion flag `<key>Completed` in `localStorage`.
- **Initialisation (`initTourForCurrentPage`).**
  - It skips a completed tour.
  - Otherwise it builds the tour in the rendering engine.
  - It resumes at the stored cursor or starts from the top.
  - It subscribes `show`/`complete` handlers that write the store.
- **Reset (`window.resetTour`).** It purges keys by suffix, completes the live
  tour and re-runs initialisation. The Ctrl+Alt+R `keydown` listener calls it.
- **Element waiter (`lazyElement`).** It settles on the first document
  state that contains a matching element.

The model is functional.

- **Stores.** They are immutable `map<string, string>`.
- **Routing.** It is a pure function `Routes.Resolve` onto an enumeration of
  tours. Each tour has a key (`Routes.Key`) and its step ids (`Routes.Steps`).
- **Orchestrator.** Its transitions are functions on a `Page`. A `Page` holds
  the path, both stores and the live tour that `window.currentTour` holds.
  Each transition returns the new page and the trace of its rendering-engine
  calls (`addStep`, `start`, `show`, `complete`).
- **Engine notifications.** They are `Event`s handed to `Deliver`, which runs
  the live tour's handlers.
- **Engine internals.** The engine (Shepherd) is not visible here. Two facts
  about it are explicit parameters of the model (`Orchestrator.Engine`):
  - `openingShowHeard`: whether the `show` notification emitted by the opening
    `start()`/`show(id)` reaches the handlers. Those handlers are subscribed
    only after that call (tour.js:211-226).
  - `completeNotifies`: whether `complete()` notifies the `complete` handlers.
  Every lemma states which of the two it depends on.
- **Element waiter.** The document is a sequence of snapshots: one at call
  time, then one after each child-list mutation batch. CSS matching is the set
  of selectors an element matches.

Modules: `Strings` (`startsWith`/`endsWith`), `Routes`, `Options` and `Storage`
(storage.dfy), `Waiter`, `Orchestrator`, `TourFacts` (the orchestrator's
properties).

The model follows the code, also where it departs from what a tour orchestrator is usually expected to do:

- A stored cursor that names no step of the tour is still passed to
  `show(id)`. There is no fallback to step 1 (`TourFacts.InitResumes`).
- Completion does not clear the session cursor
  (`TourFacts.CompleteMarksOnce`).
- A pending element waiter is not cancelled by a reset.
- Only the exact string `"true"` gates a tour.

## Model

All source paths are relative to the repository root.

| member | source | states |
|---|---|---|
| Routes.Resolve | app/bundles/CoreBundle/Assets/js/libraries/tour/tour.js:90-189 | a path that gets a tour is at least as long as the shortest rule (`/s/dwc`); the full meaning of the chain is stated by `Routes.Decides` (a known tour is chosen exactly when its own rule matches) and `Routes.UnknownWhenNoRule` (`unknownTour` exactly when no rule matches) |
| Routes.RuleOf | app/bundles/CoreBundle/Assets/js/libraries/tour/tour.js:90-184 | the reference rule table: exactly the contacts, import and point actions tours use an exact (`===`) test, the other sixteen a `startsWith` test |
| Routes.Key | app/bundles/CoreBundle/Assets/js/libraries/tour/tour.js:87-189 | each tour's `tourKey` is non-empty; `Routes.KeyInjective` shows no two tours share one |
| Routes.KeyInjective | app/bundles/CoreBundle/Assets/js/libraries/tour/tour.js:87-189 | distinct tours have distinct `tourKey`s, so their `<key>Step` and `<key>Completed` records never collide |
| Routes.Steps | app/bundles/CoreBundle/Assets/js/libraries/tour/tour.js:87-818 | a tour's step list (`tourSteps`) is empty exactly for `unknownTour`, so a tour object is created only for mapped paths (the `tourSteps.length > 0` test at line 197); the ids are those of the step arrays further down the file |
| Routes.Decides | app/bundles/CoreBundle/Assets/js/libraries/tour/tour.js:90-189 | a known tour is selected for a path exactly when that tour's own rule (prefix or exact) matches; no earlier branch shadows a later one |
| Routes.RulesDisjoint | app/bundles/CoreBundle/Assets/js/libraries/tour/tour.js:90-184 | no path matches the rules of two different tours |
| Routes.UnknownWhenNoRule | app/bundles/CoreBundle/Assets/js/libraries/tour/tour.js:185-189 | `unknownTour` is chosen exactly when no rule matches the path |
| Routes.LookupAnyOrder | app/bundles/CoreBundle/Assets/js/libraries/tour/tour.js:90-189 | first-match lookup over any ordering of the rule table gives the resolver's answer, so the priority order is irrelevant |
| Routes.ResolveIsTableLookup | app/bundles/CoreBundle/Assets/js/libraries/tour/tour.js:90-189 | the branch chain equals one generic first-match routine over a (matcher, tour) table in the script's order |
| Routes.OnlyContacts | app/bundles/CoreBundle/Assets/js/libraries/tour/tour.js:100-103 | the contacts tour is chosen exactly for the path `/s/contacts` and for no sub-path |
| Routes.OnlyImportContacts | app/bundles/CoreBundle/Assets/js/libraries/tour/tour.js:105-108 | the import tour is chosen exactly for `/s/contacts/import/new` |
| Routes.OnlyPointActions | app/bundles/CoreBundle/Assets/js/libraries/tour/tour.js:155-158 | the point actions tour is chosen exactly for `/s/points`, by equality |
| Routes.OnlyPointTriggers | app/bundles/CoreBundle/Assets/js/libraries/tour/tour.js:160-163 | the point triggers tour is chosen exactly for paths starting with `/s/points/triggers` |
| Routes.OnlyPointGroups | app/bundles/CoreBundle/Assets/js/libraries/tour/tour.js:165-168 | the point groups tour is chosen exactly for paths starting with `/s/points/groups` |
| Routes.OnlyDashboard | app/bundles/CoreBundle/Assets/js/libraries/tour/tour.js:90-93 | the dashboard tour is chosen exactly for paths starting with `/s/dashboard` |
| TourFacts.ContactsSubpathUnmapped | app/bundles/CoreBundle/Assets/js/libraries/tour/tour.js:100-108 | `/s/contacts/5` has no tour |
| TourFacts.PointsSubpathUnmapped | app/bundles/CoreBundle/Assets/js/libraries/tour/tour.js:155-168 | `/s/points/` has no tour |
| TourFacts.ImportHistoryUnmapped | app/bundles/CoreBundle/Assets/js/libraries/tour/tour.js:436-443 | the import history page `/s/contacts/import` that import-step6 links to has no tour, so a page there holding the live import tour breaks the page invariant |
| TourFacts.PointTriggersSubpathMapped | app/bundles/CoreBundle/Assets/js/libraries/tour/tour.js:160-163 | `/s/points/triggers/new` gets the point triggers tour |
| Storage.WithoutSuffix | app/bundles/CoreBundle/Assets/js/libraries/tour/tour.js:11-22 | after a purge by suffix, exactly the keys not ending in the suffix remain, each with its old value |
| Storage.RemoveKeysEndingWith | app/bundles/CoreBundle/Assets/js/libraries/tour/tour.js:11-22 | the key-by-key removal loop over `Object.keys` yields exactly the reference purge, whatever the key order |
| Storage.PurgeIdempotent | app/bundles/CoreBundle/Assets/js/libraries/tour/tour.js:11-22 | a purged store has no key with the suffix, and purging again changes nothing |
| Storage.PurgeClearsProgress | app/bundles/CoreBundle/Assets/js/libraries/tour/tour.js:9-22 | after the reset purge no tour has a cursor and no tour counts as completed |
| Storage.CursorKey | app/bundles/CoreBundle/Assets/js/libraries/tour/tour.js:211 | the session cursor key `<tourKey>Step` ends in `Step`, so the reset purge removes it |
| Storage.FlagKey | app/bundles/CoreBundle/Assets/js/libraries/tour/tour.js:192 | the durable flag key `<tourKey>Completed` ends in `Completed`, so the reset purge removes it |
| Storage.IsCompleted | app/bundles/CoreBundle/Assets/js/libraries/tour/tour.js:191-194 | the completion gate; what it means is stated by `Storage.CompletionGate` (exactly a present flag holding `"true"`), and `TourFacts.InitGated` and `TourFacts.CompletionGatesReload` state its effect on initialisation and reload |
| Storage.CompletionGate | app/bundles/CoreBundle/Assets/js/libraries/tour/tour.js:191-194 | a tour counts as completed exactly when its flag key is present and holds the string `"true"`; any other stored value does not gate |
| Storage.MarkCompleted | app/bundles/CoreBundle/Assets/js/libraries/tour/tour.js:220-222 | writing the flag makes the tour completed and leaves every other durable key alone |
| Storage.SetCursor | app/bundles/CoreBundle/Assets/js/libraries/tour/tour.js:224-226 | writing the cursor makes it read back as the step id and leaves every other session key alone |
| Storage.MarkCompletedIdempotent | app/bundles/CoreBundle/Assets/js/libraries/tour/tour.js:220-222 | marking a tour completed twice is the same as once |
| Waiter.LazyElement | app/bundles/CoreBundle/Assets/js/libraries/tour/tour.js:43-71 | resolves immediately if the call-time document matches, else at the first later mutation batch that matches, with that document's matches. It never resolves when nothing matches (no timeout). It resolves at most once, stops checking after the match, and agrees with the reference first-match search |
| Waiter.Query | app/bundles/CoreBundle/Assets/js/libraries/tour/tour.js:47-48 | `mQuery(selector)` returns at most as many elements as the document has; `Waiter.QueryExact` states that it returns exactly the matching ones |
| Waiter.QueryExact | app/bundles/CoreBundle/Assets/js/libraries/tour/tour.js:47-49 | the selector query returns exactly the document's matching elements, so it is non-empty exactly when some element matches |
| Waiter.FirstPresent | app/bundles/CoreBundle/Assets/js/libraries/tour/tour.js:43-71 | reference search: the index of the first document holding a match, with none before it; none when no document matches |
| Orchestrator.AddSteps | app/bundles/CoreBundle/Assets/js/libraries/tour/tour.js:206-209 | one `addStep` call per step, in step order, and nothing else |
| Orchestrator.Opening | app/bundles/CoreBundle/Assets/js/libraries/tour/tour.js:211-217 | the opening call is `show(cursor)` exactly when the cursor is present and non-empty, otherwise `start()` |
| Orchestrator.Deliver | app/bundles/CoreBundle/Assets/js/libraries/tour/tour.js:219-226 | a `show` notification touches only the session store and a `complete` notification only the durable store |
| Orchestrator.Init | app/bundles/CoreBundle/Assets/js/libraries/tour/tour.js:83-227 | initialisation never writes durable storage and keeps the path |
| Orchestrator.InitTour | app/bundles/CoreBundle/Assets/js/libraries/tour/tour.js:191-227 | initialisation for the resolved tour keeps the path and never writes durable storage; its cases are stated by `TourFacts.InitTourStarts`, `TourFacts.InitTourResumes` and `TourFacts.InitTourSessionWrites` |
| Orchestrator.PageLoad | app/bundles/CoreBundle/Assets/js/libraries/tour/tour.js:825-826 | a page load yields a page whose live tour, if any, belongs to its path |
| Orchestrator.CompleteLive | app/bundles/CoreBundle/Assets/js/libraries/tour/tour.js:24-27 | `complete()` is called exactly when a live tour exists, and leaves the session store alone |
| Orchestrator.ClearProgress | app/bundles/CoreBundle/Assets/js/libraries/tour/tour.js:9-22 | the reset purge keeps exactly the session keys not ending in `Step` and the durable keys not ending in `Completed`, each with its old value |
| TourFacts.InitGated | app/bundles/CoreBundle/Assets/js/libraries/tour/tour.js:191-195 | if the flag is exactly `"true"`, initialisation changes nothing: no engine call, no storage write, same live tour |
| TourFacts.InitCreatesIff | app/bundles/CoreBundle/Assets/js/libraries/tour/tour.js:185-209 | the engine is called exactly when the path is mapped and its tour not completed; otherwise the page is unchanged; a created tour is the page's own |
| TourFacts.InitResumes | app/bundles/CoreBundle/Assets/js/libraries/tour/tour.js:206-213 | a non-empty cursor gives every `addStep`, then `show(cursor)`; the cursor is not checked against the steps |
| TourFacts.InitStartsFresh | app/bundles/CoreBundle/Assets/js/libraries/tour/tour.js:206-217 | an absent or empty cursor gives every `addStep`, then `start()` |
| TourFacts.InitTourStarts | app/bundles/CoreBundle/Assets/js/libraries/tour/tour.js:197-217 | for any mapped, uncompleted tour with no usable cursor, initialisation adds all its steps, calls `start()` and leaves that tour live |
| TourFacts.InitTourResumes | app/bundles/CoreBundle/Assets/js/libraries/tour/tour.js:197-213 | for any mapped, uncompleted tour with a non-empty cursor, initialisation adds all its steps and calls `show(cursor)` |
| TourFacts.InitTourSessionWrites | app/bundles/CoreBundle/Assets/js/libraries/tour/tour.js:197-227 | for any resolved tour, initialisation writes no session key but that tour's cursor, and none at all when the opening `show` is not heard |
| TourFacts.InitStorageWrites | app/bundles/CoreBundle/Assets/js/libraries/tour/tour.js:191-227 | initialisation writes no durable key; it writes at most the page's own cursor, and only when the opening `show` notification is heard |
| TourFacts.ShowRecordsCursor | app/bundles/CoreBundle/Assets/js/libraries/tour/tour.js:224-226 | every `show` overwrites the live tour's cursor with the shown id and changes nothing else |
| TourFacts.CompleteMarksOnce | app/bundles/CoreBundle/Assets/js/libraries/tour/tour.js:219-222 | `complete` marks the live tour completed, keeps the session cursor, and is idempotent |
| TourFacts.CompletionGatesReload | app/bundles/CoreBundle/Assets/js/libraries/tour/tour.js:191-195 | after the live tour completes, reloading the same path starts nothing, whatever the session holds |
| TourFacts.InitKeepsWellformed | app/bundles/CoreBundle/Assets/js/libraries/tour/tour.js:197-198 | initialisation keeps the invariant that the live tour belongs to the page's route |
| TourFacts.DeliverKeepsWellformed | app/bundles/CoreBundle/Assets/js/libraries/tour/tour.js:219-226 | the handlers keep the invariant |
| TourFacts.ResetKeepsWellformed | app/bundles/CoreBundle/Assets/js/libraries/tour/tour.js:9-32 | reset, the documented reset and the keyboard handler keep the invariant |
| TourFacts.ResetTouchesOnlySuffixKeys | app/bundles/CoreBundle/Assets/js/libraries/tour/tour.js:9-32 | across the whole reset, every session key not ending in `Step` and every durable key not ending in `Completed` keeps its value |
| TourFacts.ResetRecompletesLiveTour | app/bundles/CoreBundle/Assets/js/libraries/tour/tour.js:9-32 | with a live tour and a notifying `complete()`, reset ends with the purge plus that tour's flag set to `"true"`, and its only engine call is `complete()`: the tour is not restarted |
| TourFacts.ResetRecompletesAnyRoute | app/bundles/CoreBundle/Assets/js/libraries/tour/tour.js:9-32 | with a live tour and a notifying `complete()`, the reset as written leaves that tour's flag `"true"` on any route, without the page invariant |
| TourFacts.ResetAfterNavigation | app/bundles/CoreBundle/Assets/js/libraries/tour/tour.js:9-32 | with the dashboard tour still live after navigating to `/s/config` and a notifying `complete()`, the reset as written makes the config tour live and leaves `dashboardTourCompleted = "true"` |
| TourFacts.ResetRestartsWithoutNotification | app/bundles/CoreBundle/Assets/js/libraries/tour/tour.js:9-32 | with no live tour, or a silent `complete()`, reset rebuilds and `start()`s the page's tour and leaves no completion flag |
| TourFacts.RestartingResetRestarts | app/bundles/CoreBundle/Assets/js/libraries/tour/tour.js:4-7 | the documented reset restarts the page's tour from the top and leaves no completion flag, both for an engine whose `complete()` notifies synchronously and for one that does not notify during the reset |
| TourFacts.LateCompletionRecompletes | app/bundles/CoreBundle/Assets/js/libraries/tour/tour.js:219-222 | a `complete` notification that arrives only after the documented reset still reaches the old tour's handler and re-marks the page's tour completed |
| Orchestrator.Reset | app/bundles/CoreBundle/Assets/js/libraries/tour/tour.js:9-32 | keeps the path; its behaviour is stated by `TourFacts.ResetTouchesOnlySuffixKeys`, `TourFacts.ResetRecompletesLiveTour`, `TourFacts.ResetRestartsWithoutNotification` and `TourFacts.ResetKeepsWellformed` |
| Orchestrator.RestartingReset | app/bundles/CoreBundle/Assets/js/libraries/tour/tour.js:4-7 | the corrected reset keeps the path; `TourFacts.RestartingResetRestarts` states that it restarts the tour, and `TourFacts.LateCompletionRecompletes` gives its limit |
| Orchestrator.OnKeyDown | app/bundles/CoreBundle/Assets/js/libraries/tour/tour.js:829-834 | keeps the path; `TourFacts.ShortcutOnly` states that only Ctrl+Alt+`r` resets and every other key event changes nothing |
| TourFacts.ShortcutOnly | app/bundles/CoreBundle/Assets/js/libraries/tour/tour.js:829-834 | only Ctrl+Alt with `key` exactly `"r"` resets; any other key event changes nothing |
| TourFacts.DashboardFirstVisit | app/bundles/CoreBundle/Assets/js/libraries/tour/tour.js:230-297 | a first visit to `/s/dashboard` adds the five dashboard steps and starts. The cursor holds `dashboard1` only if the opening `show` is heard |
| TourFacts.DashboardFinished | app/bundles/CoreBundle/Assets/js/libraries/tour/tour.js:219-222 | finishing the dashboard tour stores `dashboardTourCompleted = "true"` and keeps the cursor; reloading the dashboard starts nothing |
| TourFacts.SegmentsResume | app/bundles/CoreBundle/Assets/js/libraries/tour/tour.js:110-113 | with the cursor `segments3`, every page under `/s/segments` adds the eleven segments steps in order and resumes with `show("segments3")` |
| TourFacts.ResumeOnLoad | app/bundles/CoreBundle/Assets/js/libraries/tour/tour.js:191-217 | a page load on a mapped path with only that tour's cursor stored adds every step and resumes at the cursor |

## Findings

| source | as written | input that shows it | evidently intended | confidence | as-written member | corrected member |
|---|---|---|---|---|---|---|
| app/bundles/CoreBundle/Assets/js/libraries/tour/tour.js:9-30 | the purge runs before `complete()` on the live tour, so the tour's own `complete` handler rewrites `<key>Completed = "true"` and the re-run initialisation exits at the gate | a page on `/s/dashboard` with the dashboard tour live and an engine whose `complete()` notifies its handlers; after the reset the flag is `"true"` and the only engine call is `complete()` | "restarting the current tour" (doc comment at line 5, log message at line 31): the page's tour starts again from step 1 | medium, not executed: it depends on the engine notifying `complete` handlers synchronously from `complete()` | TourFacts.ResetRecompletesLiveTour (on Orchestrator.Reset) | TourFacts.RestartingResetRestarts (on Orchestrator.RestartingReset) |

The keyboard handler (`Orchestrator.OnKeyDown`) calls `Orchestrator.Reset`,
the reset as written. `RestartingReset` completes the live tour before the
purge and is the reset the documentation describes.

## Left out

- The rendering engine (Shepherd) is not modelled. That covers tooltips,
  overlays, scrolling, `attachTo`, `advanceOn` wiring and `beforeShowPromise`
  scheduling. The engine appears only as the recorded call trace and the
  `Event`s fed to `Deliver`.
- The timing of the opening `show` notification and whether `complete()`
  notifies are engine internals that cannot be seen here. They are the
  `Engine` parameters, not claims. On a page whose live tour belongs to
  its route, `completeNotifies = false` covers both an engine that never
  notifies and one that notifies later; a later notification is a
  `Completed` event delivered after the reset
  (`TourFacts.LateCompletionRecompletes`). `Deliver` writes under the key
  of the tour live when the event arrives, while the source's handler
  writes under the key of the tour object that emitted it; the two agree
  only on such a page. A late `complete` after a reset on a page whose live
  tour is not its own is therefore not modelled.
- When the opening call is `show(id)` and the engine holds no step with that
  id, the model assumes no `show` notification is emitted.
- The step button actions (DOM lookups, one-shot click listeners, the
  `mQuery(...).click()` navigation at tour.js:290-293, 436-444, 460-468 and
  486-491) are browser I/O. In the model they amount to the engine's
  `next()`/`complete()`, whose effects arrive as `Shown`/`Completed` events.
- Step copy (titles, text, buttons, padding, classes) is data. Only step ids
  are kept.
- `console.log` output is not modelled.
- Cross-tab storage races are not modelled. Neither is storage that is
  unavailable or throws: the code handles neither.
- Resilience the code does not implement is left out: clearing the cursor on
  completion, a fallback for stale cursors, and cancelling pending waiters on
  reset.
- Waiter.LazyElement: the observer reacts only to child-list mutations. A
  document change that is not a node insertion or removal (an attribute
  change) produces no snapshot, so it is seen only at the next child-list
  batch. The model takes the batches as given.
- The path is fixed for a page view. The tours themselves navigate inside
  one document: config1's button (tour.js:486-491) clicks a menu link,
  waits with `lazyElement` for the next page's element and calls `next()`
  on the same tour. Some of these navigations keep the route (config1
  stays under `/s/config`; segments2's `a#new` at tour.js:535-538 stays
  under `/s/segments`). Others leave a live tour on a path that is not its
  own, where `Orchestrator.Wellformed` fails and the lemmas that assume it
  say nothing:
  - dashboard5's "Go to Configuration" (tour.js:288-293) completes the
    dashboard tour and opens the configuration page with that tour still
    held in `window.currentTour`;
  - import-step6's history link to `/s/contacts/import` (tour.js:436-443)
    leaves the import tour live on a path that has no tour
    (`TourFacts.ImportHistoryUnmapped`).
  The as-written reset still re-marks the live tour's flag on any route
  (`TourFacts.ResetRecompletesAnyRoute`); with the dashboard tour live on
  `/s/config` it starts the config tour and leaves
  `dashboardTourCompleted = "true"` (`TourFacts.ResetAfterNavigation`).
  Navigation itself (a change of path within a page view) is not a
  transition of the model.
- app/bundles/ConfigBundle/ConfigEvents.php is a single string constant with
  no behaviour and is not modelled.
