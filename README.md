# Horizon Client: the in-memory stores, modelled in Dafny

Horizon Client is a Vue front end for a workflow-automation server. Its logic
lives in a handful of Pinia stores and one composable, all in-memory state
containers:

- the **workflows** store: a list of workflows that belong to projects, with
  per-project statistics (success rate, average `"Xm Ys"` duration, last run)
  and global status counts;
- the **projects** store and the composable that joins projects with their
  workflows and deletes a project together with its workflows;
- the **workspace** store: a list of workspaces plus the id of the current one,
  with fallbacks to the default workspace;
- the **auth** store and the **navigation guard** that decides where a route
  change goes;
- the **node library**: node definitions from the server, normalised with
  defaults, grouped by group name and searched by substring;
- the **settings** store: scalar and nested boolean preferences with defaults,
  import with fallbacks, and reset;
- the **canvas** store: the version history of the workflow being edited.

Each store whose functions update its fields becomes a `class` whose methods
state the whole new state. The getters become module-level functions over the
store's list, so the composable can combine two stores. Pure aggregates carry
their own contracts, and lemmas relate them (counts that add up, round trips,
invariants kept by every action).

Files: `wrappers.dfy` (`Option`, `Outcome`, `Fetch`), `collections.dfy`
(filter, find-index, remove-at, reverse, subsequence), `text.dfy` (the string
parts of JavaScript the stores rely on: `split(/[ms]/)`, `parseInt`,
number-to-string, ASCII `toLowerCase`, `includes`), then one file per store.

Conventions:

- Times are integers: milliseconds since the epoch.
- The current time, generated ids, values read from `localStorage`, the answer
  to `confirm`, and the results of `socketService` calls are parameters. They
  are not effects.
- A success rate is kept exactly, in tenths of a percent.

## Model

| member | source | states |
|---|---|---|
| Workflows.WorkflowById | src/stores/workflows.ts:22-24 | `None` exactly when no workflow has the id; otherwise the first workflow with that id |
| Workflows.WorkflowsByProject | src/stores/workflows.ts:26-29 | exactly the workflows carrying the project id, each as many times as in the list, as an order-preserving subsequence of the list |
| Workflows.StatusCount | src/stores/workflows.ts:99-102 | zero exactly when no workflow of the list has the status; never more than the list size |
| Workflows.StatusCountAppend | src/stores/workflows.ts:99-102 | counting by status distributes over concatenation, which with the zero case pins every count |
| Workflows.ActiveWorkflowsCount | src/stores/workflows.ts:31-40 | zero exactly when none of the project's workflows is running or succeeded; never more than the project's workflow count |
| Workflows.ActiveWorkflowsCountByStatus | src/stores/workflows.ts:31-40 | a project's active count is its running count plus its success count |
| Workflows.ActiveWorkflowsCountAppend | src/stores/workflows.ts:31-40 | appending a workflow adds one to a project's active count exactly when it belongs to that project and is running or succeeded |
| Workflows.WithoutProjectSize | src/stores/workflows.ts:281-283 | filtering a project out removes exactly as many workflows as that project has |
| Workflows.WithoutProjectKeepsOthers | src/stores/workflows.ts:281-283 | filtering out project p leaves the workflow list of every other project unchanged |
| Workflows.DurationSeconds | src/stores/workflows.ts:61-66 | a duration without `m` or `s` yields NaN (`None`); every other duration yields a number |
| Workflows.SplitFormatted | src/stores/workflows.ts:62-71 | `split(/[ms]/)` of a rendered `Mm Ss` gives the minutes, a space and the seconds, then an empty piece |
| Workflows.DurationRoundTrip | src/stores/workflows.ts:61-71 | a rendered `${m}m ${s}s` parses back to 60·m + s |
| Workflows.SecondsOnlyReadAsMinutes | src/stores/workflows.ts:61-66 | the literal rule: `"<n>s"` counts as n minutes, because its first piece is taken as the minutes |
| Workflows.TotalSecondsDefined | src/stores/workflows.ts:61-66 | the reduce is a number exactly when every duration in the list parses |
| Workflows.TotalSecondsOfTwo | src/stores/workflows.ts:61-66 | the total of two workflows is the sum of their two durations |
| Workflows.RoundedAverage | src/stores/workflows.ts:67 | `Math.round(total / n)`: the nearest integer, a half rounding up |
| Workflows.JsRemainder | src/stores/workflows.ts:69 | JavaScript `%`: the sign of the dividend, magnitude below the divisor, and for non-negative operands a == b·(a/b) + r |
| Workflows.AverageDurationRoundTrip | src/stores/workflows.ts:67-71 | for a non-negative average, the seconds part is below 60 and the rendering parses back to the average |
| Workflows.AverageDurationOfProject | src/stores/workflows.ts:42-83 | when a project's durations all parse, its avgDuration is the rounded mean rendered, and it parses back to that mean |
| Workflows.AverageOfProject | src/stores/workflows.ts:42-83 | a project with parsing durations gets as avgDuration the rendering of `Math.round(total / n)` |
| Workflows.RoundedAverageNonNegative | src/stores/workflows.ts:67 | the rounded mean of a non-negative total is not negative |
| Workflows.AverageOfTwoExample | src/stores/workflows.ts:61-71 | two workflows of a project lasting `2m 15s` and `1m 45s` give avgDuration `2m 0s` |
| Workflows.AverageOfTotal240 | src/stores/workflows.ts:67-71 | two workflows of a project totalling 240 seconds average to 120 seconds |
| Workflows.TwoMinutes | src/stores/workflows.ts:68-71 | an average of 120 seconds renders as `2m 0s` |
| Workflows.FormattedExamples | src/stores/workflows.ts:71 | the template renders (2, 15), (1, 45) and (2, 0) as `2m 15s`, `1m 45s` and `2m 0s` |
| Workflows.SuccessRateTenths | src/stores/workflows.ts:57-79 | the rate rounded to one decimal lies in [0, 100.0]; it is 100.0 when all succeeded and 0 when none did |
| Workflows.LastExecution | src/stores/workflows.ts:73-81 | `None` exactly when no lastRun is after the epoch; otherwise the largest lastRun, one that occurs in the list |
| Workflows.ProjectWorkflowStats | src/stores/workflows.ts:42-83 | executions is the project's workflow count; rate at most 100.0; the empty-project stats are 0, 0, `"0m 0s"`, undefined; the last execution as above |
| Workflows.SuccessRateAllSucceeded | src/stores/workflows.ts:57-79 | a non-empty project whose workflows all succeeded has rate 100.0 |
| Workflows.SuccessRateNoneSucceeded | src/stores/workflows.ts:57-79 | a project none of whose workflows succeeded has rate 0 |
| Workflows.WorkflowTotals | src/stores/workflows.ts:86-104 | the total is the list size, each of running, success, failed and pending is the count of workflows with that status, and all are zero for the empty list |
| Workflows.TotalsAfterCreate | src/stores/workflows.ts:86-104 | adding a workflow raises the total and the count of its own status by one, and no other count |
| Workflows.StatusCountsPartition | src/stores/workflows.ts:86-104 | the four status counts add up to the list size |
| Workflows.WorkflowTotalsAddUp | src/stores/workflows.ts:86-104 | total = running + success + failed + pending |
| Workflows.Patched | src/stores/workflows.ts:254-266 | present fields overwrite; id, projectId and createdAt are kept; updatedAt is the update time |
| Workflows.WorkflowsStore.CreateWorkflow | src/stores/workflows.ts:237-252 | appends exactly one workflow, with lastRun = createdAt = updatedAt = now |
| Workflows.WorkflowsStore.UpdateWorkflow | src/stores/workflows.ts:254-269 | unknown id: `None` and no change; otherwise only the first match is replaced by its patched version |
| Workflows.WorkflowsStore.DeleteWorkflow | src/stores/workflows.ts:271-279 | `true` exactly when the id exists; then the first match is removed and the rest keep their order; otherwise no change |
| Workflows.WorkflowsStore.DeleteWorkflowsByProjectId | src/stores/workflows.ts:281-290 | keeps exactly the other projects' workflows in order; `true` iff the length changed iff the project had workflows |
| Workflows.WorkflowsStore.RunWorkflow | src/stores/workflows.ts:292-314 | unknown id: `false` and no change; otherwise the first match becomes running with lastRun and updatedAt = now |
| Projects.ProjectById | src/stores/projects.ts:19-21 | the first project with that id, or `None` exactly when there is none |
| Projects.CountWithStatus | src/stores/projects.ts:23-29 | the count is at most the list size and zero exactly when no project has the status |
| Projects.AllProjectsStats | src/stores/projects.ts:31-37 | total is the list size; active and inactive are the two counts |
| Projects.ProjectStatsAddUp | src/stores/projects.ts:31-37 | total = active + inactive |
| Projects.CountWithStatusAppend | src/stores/projects.ts:23-29 | counting distributes over concatenation |
| Projects.StatsAfterCreate | src/stores/projects.ts:95-109 | creating a project raises the total and its status count by one and leaves the other count alone |
| Projects.StatsAfterRemove | src/stores/projects.ts:128-136 | removing a project lowers the total and its status count by one |
| Projects.DefaultProjects | src/stores/projects.ts:61-89 | the seed is three projects, ids "1", "2", "3", active, inactive, active |
| Projects.DefaultProjectsStats | src/stores/projects.ts:61-89 | the seed's stats are 3 total, 2 active, 1 inactive, and its ids are distinct |
| Projects.Patched | src/stores/projects.ts:111-120 | present fields overwrite; id and createdAt are kept; updatedAt is the update time |
| Projects.ProjectsStore.LoadDefaultProjects | src/stores/projects.ts:61-89 | the list becomes the seed |
| Projects.ProjectsStore.CreateProject | src/stores/projects.ts:95-109 | appends exactly one project with createdAt = updatedAt = now |
| Projects.ProjectsStore.UpdateProject | src/stores/projects.ts:111-126 | unknown id: `None` and no change; otherwise only the first match is replaced by its patched version |
| Projects.ProjectsStore.DeleteProject | src/stores/projects.ts:128-136 | `true` exactly when the id exists; then the first match is removed and the rest keep their order; otherwise no change |
| ProjectWorkflows.ProjectWithStatsOf | src/composables/useProjectWorkflows.ts:16-30 | `None` exactly for an unknown project id; otherwise the first project with that id, with `getWorkflowStats` and `getActiveWorkflowsCount` of that id |
| ProjectWorkflows.ProjectsWithWorkflows | src/composables/useProjectWorkflows.ts:35-42 | one entry per project in the same order; each entry holds `getWorkflowsByProjectId`, `getWorkflowStats` and `getActiveWorkflowsCount` of that project's id |
| ProjectWorkflows.GlobalStatsOf | src/composables/useProjectWorkflows.ts:80-88 | the project half is `getAllProjectsStats` and the workflow half is `getAllWorkflowStats`; the totals are the two list sizes |
| ProjectWorkflows.GlobalStatsAddUp | src/composables/useProjectWorkflows.ts:80-88 | projects: total = active + inactive; workflows: total = the sum of the four status counts |
| ProjectWorkflows.DeleteProjectAndWorkflows | src/composables/useProjectWorkflows.ts:47-62 | workflows are removed first and stay removed; the project is deleted only if some were removed; the result is true iff workflows were removed and the project was found |
| Workspaces.CurrentOf | src/stores/workspace.ts:18-27 | the workspace with the current id, else the first one, else none |
| Workspaces.DefaultOf | src/stores/workspace.ts:29-31 | the first workspace marked default, else the first one, else none |
| Workspaces.DefaultIdOrEmpty | src/stores/workspace.ts:115-120 | `""` for an empty list, otherwise an id that exists in the list |
| Workspaces.InitialCurrentId | src/stores/workspace.ts:55-62 | the saved id when it is non-empty and present in the list, else the default workspace's id |
| Workspaces.WithoutWorkspace | src/stores/workspace.ts:115 | exactly the workspaces with another id, each as many times as in the list, in order |
| Workspaces.DeleteKeepsCurrentResolving | src/stores/workspace.ts:115-120 | after a delete the current id still names a workspace whenever any workspace is left |
| Workspaces.Patched | src/stores/workspace.ts:97-104 | present fields overwrite; updatedAt is the update time |
| Workspaces.DefaultWorkspaceAt | src/stores/workspace.ts:65-76 | the default workspace has id `"default"` and is marked default |
| Workspaces.WorkspaceStore.CreateDefaultWorkspace | src/stores/workspace.ts:65-80 | exactly one workspace, the default one, and the current id is `"default"` |
| Workspaces.WorkspaceStore.InitWorkspaces | src/stores/workspace.ts:34-63 | the saved list or just the default workspace; the current id as `InitialCurrentId` says, so it resolves |
| Workspaces.WorkspaceStore.CurrentWorkspace | src/stores/workspace.ts:18-27 | initialises an empty store first, then returns `CurrentOf` of the state |
| Workspaces.WorkspaceStore.CreateWorkspace | src/stores/workspace.ts:82-95 | appends exactly one workspace, created and updated now |
| Workspaces.WorkspaceStore.UpdateWorkspace | src/stores/workspace.ts:97-107 | unknown id: no change; otherwise only that index is replaced by its patched version |
| Workspaces.WorkspaceStore.DeleteWorkspace | src/stores/workspace.ts:109-123 | the default workspace: fails with the source's message and changes nothing; otherwise removes that id, and a deleted current id moves to the default's id |
| Workspaces.WorkspaceStore.SwitchWorkspace | src/stores/workspace.ts:125-131 | the current id changes only to an id that exists |
| Auth.AccountFor | src/stores/auth.ts:26-50 | only the two credential pairs log in: admin gets id "1" and role admin, the user gets id "2" and role user |
| Auth.UpdatedUser | src/stores/auth.ts:76-81 | present fields overwrite and the rest persist |
| Auth.AuthStore.IsAuthenticated | src/stores/auth.ts:16 | holds exactly when a user is set |
| Auth.AuthStore.Login | src/stores/auth.ts:19-57 | `true` exactly for a known pair, which sets the user; otherwise the user is unchanged; never loading afterwards |
| Auth.AuthStore.Logout | src/stores/auth.ts:59-62 | no user and not authenticated |
| Auth.AuthStore.InitAuth | src/stores/auth.ts:64-74 | the saved user when one was read, else no change |
| Auth.AuthStore.UpdateProfile | src/stores/auth.ts:76-81 | no-op without a user; otherwise the merged user; authentication unchanged |
| AuthGuard.Decide | src/guards/auth.ts:19-39 | redirect to `/` iff authenticated on a login path; redirect to `/auth/login` iff unauthenticated off the public routes; proceed otherwise |
| AuthGuard.NoRedirectLoop | src/guards/auth.ts:19-39 | following a redirect with the same authentication proceeds |
| AuthGuard.Guard.Navigate | src/guards/auth.ts:4-39 | `initAuth` runs on the first navigation only; the decision is `Decide` on the store's state |
| CanvasSession.NextVersion | src/stores/canvas.ts:88-92 | the last entry's version with patch + 1, or `0.0.1` for an empty history |
| CanvasSession.SaveKeepsConsecutive | src/stores/canvas.ts:86-98 | appending under the next version keeps every version the previous one bumped |
| CanvasSession.ConsecutiveIncreasing | src/stores/canvas.ts:86-98 | later entries share major and minor, and their patch is larger by the distance, so versions never repeat |
| CanvasSession.FreshHistoryVersions | src/stores/canvas.ts:86-98 | a history saved from empty holds `0.0.1`, `0.0.2`, … in order |
| CanvasSession.IndexOfVersion | src/stores/canvas.ts:111 | -1 exactly when no entry has the version; otherwise the first such entry |
| CanvasSession.SelectedDraftIffLast | src/stores/canvas.ts:115-118 | in a consecutive history, selecting gives draft exactly for the last entry |
| CanvasSession.CanvasStore.LoadInitialWorkflow | src/stores/canvas.ts:42-84 | a stored non-empty history becomes the history, with the last version as current draft; none stored: the start node is added |
| CanvasSession.CanvasStore.InitCanvas | src/stores/canvas.ts:30-40 | attaches the engine for that flow and loads its history in the same four cases as `loadInitialWorkflow`, engine calls included |
| CanvasSession.CanvasStore.OnCanvasChange | src/stores/canvas.ts:34-39 | a change event sets the changes flag |
| CanvasSession.CanvasStore.Save | src/stores/canvas.ts:86-103 | appends exactly one snapshot under the next version, earlier entries untouched, changes cleared, history stored |
| CanvasSession.CanvasStore.GetHistory | src/stores/canvas.ts:105-107 | the history reversed, same length |
| CanvasSession.CanvasStore.SelectHistory | src/stores/canvas.ts:109-120 | absent version: nothing changes; present: that version is current, draft iff it is the last entry's, and that snapshot is shown |
| CanvasSession.CanvasStore.ClearHistory | src/stores/canvas.ts:122-125 | empty history, and none stored for the flow |
| NodesLibrary.OrDefault | src/stores/nodesLibrary.ts:35-38 | JavaScript `a \|\| b` on an optional string: a present non-empty value, else the fallback |
| NodesLibrary.Normalise | src/stores/nodesLibrary.ts:29-45 | type = key, design (0, 0), the defaults for a missing icon, color, connectors, tags and properties, and the first element of an array-valued group |
| NodesLibrary.NormaliseAll | src/stores/nodesLibrary.ts:29-45 | one node per server entry, in order |
| NodesLibrary.NodesInGroupSnoc | src/stores/nodesLibrary.ts:73-102 | a group's node list grows by a pushed node exactly when the node carries that group |
| NodesLibrary.GroupsForPlacement | src/stores/nodesLibrary.ts:58-80 | the keys are exactly the server's names; each group is named by its key and holds exactly its nodes; unlisted nodes are in no group |
| NodesLibrary.FallbackPlacement | src/stores/nodesLibrary.ts:89-105 | every group is non-empty and named by its key; every node is in the group of its own name and in no other |
| NodesLibrary.SearchNodes | src/stores/nodesLibrary.ts:108-115 | an order-preserving subsequence holding exactly the nodes whose name, desc or group contains the query, ignoring ASCII case, each as many times as in the list |
| NodesLibrary.SearchEmptyQuery | src/stores/nodesLibrary.ts:108-115 | the empty query returns every node |
| NodesLibrary.NodesBySubgroup | src/stores/nodesLibrary.ts:151-156 | `[]` for an unknown group; otherwise the order-preserving subsequence of that group's nodes holding every node that matches the subgroup, as many times as in the group, and no other |
| NodesLibrary.NodeLibraryStore.GroupByNames | src/stores/nodesLibrary.ts:61-80 | the two loops build `GroupsFor` of the nodes and names |
| NodesLibrary.NodeLibraryStore.FallbackGroupNodes | src/stores/nodesLibrary.ts:89-105 | the loop builds `FallbackGroups` of the nodes |
| NodesLibrary.NodeLibraryStore.LoadNodeGroups | src/stores/nodesLibrary.ts:58-86 | the server's names group the nodes; a failed call falls back |
| NodesLibrary.NodeLibraryStore.LoadNodes | src/stores/nodesLibrary.ts:21-55 | normalised nodes then grouped; a failed call records the error message or its default; loading ends false |
| NodesLibrary.NodeLibraryStore.ShowNodePanel | src/stores/nodesLibrary.ts:138-140 | the panel is visible |
| NodesLibrary.NodeLibraryStore.HideNodePanel | src/stores/nodesLibrary.ts:142-144 | the panel is hidden |
| NodesLibrary.NodeLibraryStore.ToggleNodePanel | src/stores/nodesLibrary.ts:146-148 | visibility flips, so two toggles restore it |
| Settings.SetNotification | src/stores/settings.ts:127-134 | the keyed field takes the value and every other key keeps its own |
| Settings.SetPerformance | src/stores/settings.ts:135-142 | the keyed field takes the value and every other key keeps its own |
| Settings.SetPrivacy | src/stores/settings.ts:143-146 | the keyed field takes the value and every other key keeps its own |
| Settings.MergeNotifications | src/stores/settings.ts:259-261 | `Object.assign`: keys present in the patch overwrite and absent keys keep their value |
| Settings.MergePerformance | src/stores/settings.ts:262-264 | `Object.assign`: keys present in the patch overwrite and absent keys keep their value |
| Settings.MergePrivacy | src/stores/settings.ts:265-267 | `Object.assign`: keys present in the patch overwrite and absent keys keep their value |
| Settings.NotificationsAsPatch | src/stores/settings.ts:154 | a snapshot of the group carries every key |
| Settings.PerformanceAsPatch | src/stores/settings.ts:155 | a snapshot of the group carries every key |
| Settings.PrivacyAsPatch | src/stores/settings.ts:156 | a snapshot of the group carries every key |
| Settings.NotificationsExtensional | src/stores/settings.ts:46-52 | two notification groups agreeing on every key are equal |
| Settings.PerformanceExtensional | src/stores/settings.ts:54-57 | two performance groups agreeing on every key are equal |
| Settings.PrivacyExtensional | src/stores/settings.ts:59-62 | two privacy groups agreeing on every key are equal |
| Settings.Imported | src/stores/settings.ts:253-267 | falsy scalars become the defaults; a present group is merged key by key; an absent group is untouched |
| Settings.ImportSnapshotRestores | src/stores/settings.ts:148-268 | importing a saved snapshot whose scalars are truthy restores exactly that state |
| Settings.ImportIdempotent | src/stores/settings.ts:253-268 | importing the same data twice is the same as once |
| Settings.SettingsStore.constructor | src/stores/settings.ts:41-62 | the initial state is the defaults |
| Settings.SettingsStore.SaveSettings | src/stores/settings.ts:148-160 | the stored snapshot equals the current state |
| Settings.SettingsStore.SetTheme | src/stores/settings.ts:105-110 | only the theme changes, and the state is saved |
| Settings.SettingsStore.SetFontSize | src/stores/settings.ts:111-116 | only the font size changes, and the state is saved |
| Settings.SettingsStore.SetCanvasRefreshRate | src/stores/settings.ts:117-121 | only the refresh rate changes, and the state is saved |
| Settings.SettingsStore.SetLanguage | src/stores/settings.ts:122-126 | only the language changes, and the state is saved |
| Settings.SettingsStore.UpdateNotifications | src/stores/settings.ts:127-134 | only that notification key changes, and the state is saved |
| Settings.SettingsStore.UpdatePerformance | src/stores/settings.ts:135-142 | only that performance key changes, and the state is saved |
| Settings.SettingsStore.UpdatePrivacy | src/stores/settings.ts:143-146 | only that privacy key changes, and the state is saved |
| Settings.SettingsStore.ImportSettings | src/stores/settings.ts:253-272 | the state becomes `Imported` of the old state and is saved |
| Settings.SettingsStore.LoadSettings | src/stores/settings.ts:162-190 | nothing saved: no change; otherwise the same merge as an import, then saved |
| Settings.SettingsStore.ResetToDefaults | src/stores/settings.ts:274-307 | confirmed: every field is the default and that is saved; declined: no change |
| Settings.SettingsStore.ClearData | src/stores/settings.ts:217-251 | confirmed: storage cleared and every field is the same default as a reset; declined: no change |
| Text.FirstUnitSeparatorIsFirst | src/stores/workflows.ts:62-63 | the index where `split(/[ms]/)` cuts is an `m` or `s`, and none comes before it |
| Text.SplitUnitsAfterPiece | src/stores/workflows.ts:62-63 | a piece free of `m` and `s` followed by one of them is split off as the first piece |
| Text.SplitUnitsPieces | src/stores/workflows.ts:62-63 | `split(/[ms]/)` yields one piece exactly when the string holds no `m` or `s`, and no piece holds one |
| Text.ParseIntNatToString | src/stores/workflows.ts:64-71 | `parseInt` reads back any natural number rendered by a template literal |
| Text.ParseIntToString | src/stores/workflows.ts:64-71 | `parseInt` reads back any integer rendered by a template literal |
| Text.ParseIntSkipsSpace | src/stores/workflows.ts:64 | leading whitespace does not change what `parseInt` reads |

## Left out

- `src/services/socket.ts` (the socket.io RPC layer), `src/router/index.ts` (a static route table) and `src/stores/index.ts` (re-exports) are not part of this model. `getNodes` and `getNodeGroups` results are parameters (`Fetch`): a value or a failure with its optional message.
- `localStorage`: values read are parameters, and `JSON.parse` failures are not modelled. Writes are not modelled either, except in the settings store (`stored`) and the canvas store (`stored`, a map from flow id to history), where what is saved is part of the behaviour. Rehydrating dates with `new Date(...)` is left out too, as times are plain integers.
- Workflows `initializeData`/`loadDefaultWorkflows`, projects `initializeData`, and the composable's `initializeStores`: these only read storage or load seed data. The projects seed is modelled (`DefaultProjects`); the workflows seed is not.
- `setLoading`/`setError` of the workflows and projects stores: plain flag setters with no logic.
- The timer in `runWorkflow` that later sets a random status and duration, and the login delay (`setTimeout`, `Math.random`): timing and randomness. The synchronous part is modelled.
- Id generation from `Date.now()`/`Math.random()` (workflows, projects, workspaces): ids are parameters.
- DOM and browser effects in settings: applying the theme and the font size to `document`, `exportData` (a Blob download), `availableThemes`, `alert` and `window.location.reload`. `confirm` is a boolean parameter.
- Floating point: the success rate is exact, in tenths of a percent. `Math.round` on a float product can differ from that by one tenth at an exact half.
- Workflows.DurationSeconds: `parseInt` is decimal only (no `0x` prefix, and no exponent rendering for numbers of 1e21 and above). `trim()` before `parseInt` is not modelled separately, as `parseInt` already skips leading white space and stops at the first non-digit.
- Settings numbers are integers: a NaN font size or refresh rate in imported data is not modelled, and a missing field is read as `""`, `0` or absent.
- The canvas engine: what `getWorkflowData()` returns is a parameter. `loadWorkflowData` and `actionAddNode` are recorded as a list of calls. The subscription is the `OnCanvasChange` method. Versions are natural-number triples, so `Number("x")` giving NaN is not modelled.
- Canvas storage holding `"null"`, and a JSON parse error, are not modelled. An empty stored history is taken as it is, and the version and the engine are left alone, since reading its last entry throws.
- `getNodeInfo` and `getNodeStats` of the node library: plain socket calls with no logic of their own.
- NodesLibrary.SearchNodes: `toLowerCase` is ASCII only.
- NodesLibrary.Normalise: a group given as an empty array, or no group at all (JavaScript `undefined`), is not modelled. A missing `title` is not modelled either.
- Prototype-chain keys (`groupedNodes["constructor"]`) in the `Record` lookups of the node library.
- Vue reactivity (`ref`, `computed`, `reactive`): fields and functions stand for them.
- `workspaceId` on projects: the code's `Project` has no such field, so the model has none either.
