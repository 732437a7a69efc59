# Tmux pane manager — Dafny model

This project models the core of a plugin that keeps one terminal-multiplexer
pane per child worker session. When a child session is created, the plugin
spawns a pane for it. When the session ends, the pane is closed. The model
covers four parts:

- **The pane manager** (`manager.dfy`, class `Manager.TmuxPaneManager`). It
  owns the session cache (`sessions`, a map from session id to tracked pane)
  and the set of sessions whose admission is in progress (`pendingSessions`).
  Only admission (`onSessionCreated`) reconciles the cache from results the
  executor confirmed. It queries the window, asks the decision engine,
  executes the batch, and then drops and adds exactly the sessions the
  batch's results confirm. Deletion and `cleanup` drop entries whatever
  their closes report: a missing window state or a close whose result is
  never read still removes the entry. `cleanupSync` runs no query, asks no
  decision engine and uses no executor. The orphan sweep queries and closes
  but asks no decision engine. A JavaScript `Map` iterates in insertion
  order, so the class also keeps `order`, the cache's keys in insertion
  order. `Valid()` ties `order` to `sessions`.
- **The event hook** (`session_watcher.dfy`). It turns a raw host event into
  at most one call of "session created" or "session deleted".
- **The suppression policy** (`suppression.dfy`). An explicit
  `metadata.tmux === false` opt-out wins. Otherwise a session is suppressed
  when its title matches an exclude pattern.
- **The configuration schema** (`config.dfy`). It has a layout enum, range
  checks on three numbers, and defaults for absent fields.

`core_types.dfy` gives the shapes of the data exchanged with collaborators
whose code is not part of this model: window state, decisions and executor
results. `manager_scenarios.dfy` states five concrete runs of the manager
as verified methods; nothing is executed. Three follow the manager's test
file (src/manager.test.ts): enabling, tracking after a spawn, untracking
after a delete. One follows the duplicate-creation guard of
src/manager.ts:117-121, and one follows the startup orphan sweep. The
decision engine is not reproduced: the two spawn scenarios hold for every
decider that allows the spawn in that window.

**Collaborators.** Every manager operation takes its collaborators as
parameters:

- `Deps` holds `isInsideTmux`, `queryWindowState`, `executeActions` and
  `executeAction` as they behave during that one call. An awaited promise
  either resolves (`Resolved`) or is rejected (`Rejected`).
- The decision engine's `decideSpawnActions` and `decideCloseAction` are
  passed as `SpawnDecider` and `CloseDecider`.
- The clock reading (`now`) and the cached multiplexer path
  (`cachedTmuxPath`) are plain parameters.

Each contract therefore holds for every possible collaborator outcome.

**Points where the code's behaviour is easy to misread (the model follows the code):**

- The orphan sweep closes every observed agent pane whose title starts with
  `omo-subagent-`. It closes these panes whether or not they are tracked.
  The method's own doc comment (src/manager.ts:287-289) says that tracked
  panes are skipped.
- Deleting a session "fails open" only when the query returns no state. If
  the query promise or the close promise is rejected, the exception
  propagates and the entry stays in the cache.
- `cleanup` clears the cache on both the no-state path and the close-all
  path. If its query promise is rejected, the cache is left as it was.
- The code deletes a `replace`'s old session only when that action's result
  reports success. It does not handle a replace that half succeeded, where
  the close worked but the spawn failed.

## Model

| member | source | states |
|---|---|---|
| `Config.ParseLayout` | src/config.ts:3-9 | a layout string is accepted exactly when it is one of the five names, and the layout it yields has that name |
| `Config.Parse` | src/config.ts:13-19 | accepted exactly when every present field is valid (layout name, size in [20,80], main width ≥ 40, agent width ≥ 20); the result is always a valid configuration; present values are kept and absent ones take the defaults; a rejection carries at least one issue |
| `Config.ParseEmptyYieldsDefaults` | src/config.ts:14-18 | an empty input parses to main-vertical, 60, 120, 40, [] |
| `Config.LayoutNameRoundTrip` | src/config.ts:3-9 | every layout's name parses back to that layout |
| `Config.LayoutAcceptedExactly` | src/config.ts:14 | a config with only a layout is accepted exactly for the five names and keeps that layout |
| `Config.MainPaneSizeRange` | src/config.ts:15 | `main_pane_size` alone is accepted exactly in [20,80]; 19 and 81 are rejected; 50 is accepted and kept |
| `Config.ValidWidthsPositive` | src/config.ts:16-17 | every accepted configuration has positive minimum widths |
| `Config.ParseToRaw` | src/config.ts:13-19 | round trip: a valid configuration written out in full parses back to itself |
| `Config.ParseIsIdempotent` | src/config.ts:13-19 | re-parsing a parsed configuration gives the same result |
| `Suppression.AnyMatch` | src/suppression.ts:30-34 | the early-return search is true exactly when some pattern in the list matches the text |
| `Suppression.ShouldSuppress` | src/suppression.ts:19-37 | a `tmux: false` opt-out always suppresses; otherwise the result is true exactly when some exclude pattern matches the title, with a missing title read as "" |
| `Suppression.OptOutWins` | src/suppression.ts:24-26 | with the opt-out set, the session is suppressed whatever its title and patterns |
| `Suppression.NoPatternsNoSuppression` | src/suppression.ts:30-37 | with no exclude patterns, only the opt-out suppresses (`tmux: true`, other fields or no metadata do not) |
| `Suppression.MissingTitleIsEmpty` | src/suppression.ts:29 | a missing title gives the same answer as the empty title |
| `Suppression.PatternOrderIrrelevant` | src/suppression.ts:30-34 | two pattern lists with the same members give the same answer |
| `SessionWatcher.Route` | src/hooks/session-watcher.ts:24-41 | at most one callback per event; no callback for other event types; a created event calls back exactly when `info.id` and `info.parentID` are truthy, with `{id, parentID, title, metadata}` copied from `info`; a deleted event calls back exactly when a delete handler exists and `info.id` is truthy, with that id |
| `SessionWatcher.CreatedEventRoundTrip` | src/hooks/session-watcher.ts:24-33 | a child session's created event reaches the manager with exactly that session's fields |
| `SessionWatcher.NoParentNoCall` | src/hooks/session-watcher.ts:26 | a created event without a truthy parent id makes no call |
| `Manager.RetiredByMembers` | src/manager.ts:168-175 | a session is retired by a batch exactly when one of the batch's results is a successful close of it or a successful replace of it |
| `Manager.CacheAfterBatchChanges` | src/manager.ts:168-192 | after reconciliation, an id is cached exactly when it was cached and not retired, or it is the new session and the batch confirmed a spawn with a pane id; other entries are unchanged; the new entry records the spawned pane and the title |
| `Manager.RetireStep` | src/manager.ts:168-175 | one loop step: deleting what result `i` retires from the state after `i` results gives the state after `i + 1` results, for the map and for its insertion order |
| `Manager.OrphanedAppend` | src/manager.ts:296-298 | the filter keeps observed order: filtering a concatenation gives the concatenation of the filtered parts |
| `Manager.Orphaned` | src/manager.ts:296-298 | the filtered panes are exactly the observed panes whose title starts with `omo-subagent-` |
| `Manager.TmuxPaneManager.constructor` | src/manager.ts:54-68 | a new manager has an empty cache and nothing pending |
| `Manager.TmuxPaneManager.IsEnabled` | src/manager.ts:70-72 | enabled exactly when inside the multiplexer and the source pane id is present and non-empty; what disabling leads to is stated by `OnSessionCreated` and `OnSessionDeleted`, whose disabled exits change nothing |
| `Manager.TmuxPaneManager.GetTrackedSessions` | src/manager.ts:74-76 | the tracked ids, each once, exactly the cache's keys |
| `Manager.TmuxPaneManager.GetTmuxConfig` | src/manager.ts:78-86 | the executor's settings are enabled and copy the configured layout, size and widths; they reach the executor through the execution context that `AdmissionOf` and `RetirementOf` build |
| `Manager.TmuxPaneManager.GetCapacityConfig` | src/manager.ts:88-93 | the capacity floors are the configured minimum widths, at least 40 and 20 for an accepted configuration |
| `Manager.TmuxPaneManager.GetSessionMappings` | src/manager.ts:95-101 | one mapping per tracked session, in insertion order, with its id, pane and creation time |
| `Manager.TmuxPaneManager.TrackedCloseActions` | src/manager.ts:237-240 | one close per tracked session, for its pane, and every tracked session gets one |
| `Manager.TmuxPaneManager.Description` | src/manager.ts:107 | the description is the given title, or "Subagent" when the title is absent; `CacheAfterBatchChanges` states that the new cache entry records it |
| `Manager.TmuxPaneManager.OnSessionCreated` | src/manager.ts:103-196 | the pending set is the same on return, on every path; the cache is unchanged when disabled, when the parent id is missing, or when the id is already tracked or pending; otherwise the cache is unchanged unless the batch ran, and then it is exactly the reconciled cache; `raised` exactly when the query or the batch was rejected |
| `Manager.TmuxPaneManager.AdmitPending` | src/manager.ts:130-192 | a failed or empty query, a refused decision or a rejected batch leaves the cache unchanged; an executed batch yields the reconciled cache and its insertion order |
| `Manager.TmuxPaneManager.RetireOne` | src/manager.ts:169-174 | for one executed action, a successful close drops its session, a successful replace drops its old session, and anything else changes nothing, in the map and in its order |
| `Manager.TmuxPaneManager.RemoveRetired` | src/manager.ts:168-175 | the loop deletes exactly the retired sessions from the cache and from its order |
| `Manager.TmuxPaneManager.OnSessionDeleted` | src/manager.ts:198-223 | disabled or untracked: nothing changes and no close is issued; tracked: the close issued is the engine's decision; the entry is dropped (and nothing else) unless the query or the close was rejected |
| `Manager.TmuxPaneManager.Cleanup` | src/manager.ts:225-251 | empty cache or no source pane: nothing happens; a rejected query changes nothing; otherwise the cache ends empty, after one close per tracked session when the window was observed |
| `Manager.TmuxPaneManager.CleanupSync` | src/manager.ts:257-283 | without a cached executable path, the cache is untouched; with one, one `kill-pane -t <pane>` per tracked session in insertion order, then an empty cache |
| `Manager.TmuxPaneManager.CleanupOrphanedPanes` | src/manager.ts:290-321 | closes exactly the observed agent panes with the `omo-subagent-` title prefix, in observed order, each with session id "orphan"; modifies nothing |
| `ManagerScenarios.EnabledOnlyInsideTmux` | src/manager.test.ts:32-60 | disabled outside the multiplexer, enabled inside it with a source pane |
| `ManagerScenarios.TracksSessionAfterSpawn` | src/manager.test.ts:62-95 | a confirmed spawn with empty results tracks exactly ["session-123"], described by its title |
| `ManagerScenarios.UntracksSessionAfterDelete` | src/manager.test.ts:97-132 | create then delete leaves nothing tracked, whatever the close decision |
| `ManagerScenarios.SecondCreationIgnored` | src/manager.ts:117-121 | a second creation request for a tracked session changes nothing, whatever its batch would report: the entry stays pane "%1", titled "test-agent", created and last seen at 0; the order stays ["session-123"]; nothing is pending and nothing is raised |
| `ManagerScenarios.SweepClosesOnlyPrefixedPane` | src/manager.ts:290-321 | the sweep closes only the pane with the plugin's prefix |

## Left out

- Concurrency: the model runs each handler to completion. It does not model an await point at which another handler changes the cache. `cleanup`'s `Promise.all` closes are not executed: the model never calls the executor there. It returns the closes `cleanup` would issue, one per tracked session in insertion order. Each close's rejection is caught in the source, so no outcome affects the cache.
- The collaborators' internals are not part of this model: window queries, action execution, the decision engine (capacity arithmetic, eviction choice), the cached executable path and the presence check. Each is a parameter, so every contract holds for any result they give.
- Logging is left out; every `log` call is a no-op.
- The clock is left out: `Date.now()` becomes the `now` parameter, and timestamps are integers in milliseconds.
- The synchronous `kill-pane` subprocess and its 2000 ms timeout are left out. The model records the command lines it would run; a failed command is swallowed, as in the source.
- Glob matching is left out: `minimatch` is the `Matcher` parameter.
- Schema-library mechanics are left out. Numbers are integers (non-integer input and wrong-typed fields are not modelled), and unknown keys are ignored.
- Session metadata is a flat map of scalar values; nested objects and arrays are not modelled.
- Event `properties` that are present but not an object are modelled the same as absent properties.
- A rejection raised by the manager inside the event hook is not modelled. The hook is modelled only by the callbacks it makes.
- Plugin wiring (src/index.ts) is not part of this model: environment lookup, signal handlers and process exit.
- Per-close outcomes in the three cleanup operations are not kept. Each operation returns the closes or commands it issues, and any failure of one is swallowed, as in the source.
