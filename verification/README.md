# A verified model of the dbgjs clients

dbgjs is a debugger service for JavaScript targets. Two of its clients turn asynchronous, reordered and
stale answers into something a person can look at. This project models both and proves what they keep.

**The terminal client** (`packages/dbgjs-tui/src`). The application shows an outline: sections of flat,
depth-annotated rows. The rows are made from a trie of source URIs, from process trees with window groups, and from
resource graphs. The focus is a row index per tab; when data is refreshed it is restored through the path of node
ids that identified the old row. Data is loaded by queries tagged with a section, a context id and a 64-bit
generation that may wrap around; they are answered in any order, while contexts are switched and source
projections are cycled.

**The VS Code extension** (`packages/vscode-extension/src`). A reconciler starts debug sessions for root targets on
its own. An adapter turns the snapshots it observes into Debug Adapter Protocol events (*Events: Stopped,
Continued, Output, LoadedSource* of the Debug Adapter Protocol specification).

## How the files fit together

| part | modules |
|---|---|
| source trie, its counters, its rows | `SourceTrie`, `SourceMetrics`, `SourceUri`, `OrderedMap`, `SourceRows`, `SourcePreorder`, `SourceOutline`, `SourceOrder` |
| rows and node-id paths, rows that hang from a row, text of keys | `Outline`, `Siblings`, `Subsequences`, `KeyText`, `Numerals` |
| walks of resources and runtime targets | `NodeWalk`, `NodeReach`, `NodeSiblings`, `ResourceOutline`, `ResourceReach`, `RuntimeTargets`, `TargetReach` |
| process trees | `ProcessOutline`, `ProcessWriter`, `ProcessReach`, `ProcessPaths`, `ProcessWindows`, `ProcessItems`, `ProcessSiblings`, `ProcessPlaces`, `ProcessSection` |
| target depths, connection names | `TargetDepths`, `ConnectionNames` |
| application state: operations as functions, and the class that performs them in place | `AppModel`, `TuiApp` |
| the sections other than Sources | `Sidebar`, `SidebarKeys`, `SidebarFocus` |
| selection, focus and the source-row cache | `SelectionMoves`, `NavigationExact`, `FocusRestore`, `SourceNavigation`, `SourceCache`, `SourceFocus` |
| event loop and service controller: a step function, and the classes that perform it in place | `ClientModel`, `TargetTasks`, `TuiClient` |
| target lists of the service, and what they spare the client | `ServiceForest`, `ServiceOrder`, `ServiceTargets` |
| what is asked for, what arrives, what a key does | `Demand`, `Arrivals`, `KeyEffects` |
| what every run of the client keeps | `ClientFrames`, `ClientLoads`, `ClientData`, `ClientSync`, `ClientInvariant`, `ClientRuns`, `VanishedContext`, `RowTexts` |
| two runs, key by key | `Walkthroughs`, `DocumentRun` |
| VS Code extension | `SessionReconciler`, `DapObserver`, `DapStream`, `DapSources` |

Code that works in place is a class or a method with loops, proved against a specification function: the row
builders, the application, the service controller, the event loop, the reconciler, the observer and the source
list. What the program promises is then proved about the functions and about runs, in terms that do not use these
functions: of rows, ids, relations and fields.

Two devices keep the in-place part checkable. A method that changes many fields of `App` is split into small
steps, whose contracts name the new value of each field they change. And the service controller and the client
carry ghost counters that do not wrap around, next to the wrapped ones; a query in flight is known by its
unwrapped number, and the program only ever compares wrapped generations.

A run of the client is a sequence of turns: draw, take one event, bring the observers in line. An event is lawful
when its message is in flight, an answer is about what was asked, and a new list of contexts still shows the
current one. `ClientRuns.Reachable` states are those reached from start-up by lawful turns.
`ClientRuns.ReachableStatesAreInOrder` gives the invariant of every one of them; the results on loads and navigation
follow from it.

That a list shows the current context is needed: `set_contexts` (`packages/dbgjs-tui/src/app.rs:522-535`) keeps the
old index when the current context has vanished, so another context becomes current while the old one's data
stays, or, when the list is too short for the index, the next use of the current context panics
(`packages/dbgjs-tui/src/app.rs:444-446`). `VanishedContext.VanishedContextBreaks` says exactly when the protocol
survives, for every list.

The results on focus, cache and runs hold for any row builders of the sections other than Sources that make no
source-folder rows. `Sidebar` gives the program's builders, and `SidebarKeys.SidebarHasNoFolders` shows that they are
of this kind.

Two parts of the client are exact only on some inputs: the handles of observers need target ids that differ
(`TargetTasks.AllAbortedIffIdsDiffer`), and depths need parents without cycles (`TargetDepths.DepthsExact`). The
service sends no others: `ServiceForest` models its target lists, and `ServiceTargets` shows that with them the running
observers are always those of the targets set last, and that every depth is the parent's plus one.

## Found on the way

- A list that no longer shows the current context makes another context current under the old one's snapshot (`VanishedContext.OtherContextBecomesCurrent`); a list too short for the old index makes the program panic (`VanishedContext.IndexRunsOut`). Both inputs arrive as the answer to a query started with the key `r`.
- An answer is also taken when a positive multiple of 2^64 newer queries has been started (`ClientRuns.TakenUpToWrapAround`).
- A breakpoint that is bound at two places of one script has two rows with the same key (the service lists one application per physical breakpoint, `packages/dbgjs/src/debugger/target_debugger.rs:6545-6600`, and `packages/dbgjs-tui/src/app.rs:2237-2243` leaves the position out of the key). With the second one selected, which takes six keys from start-up, the same snapshot arriving again moves the selection to the first (`Walkthroughs.SelectionMovesInARun`). `FocusRestore.RefreshOfSameRows` says exactly when unchanged rows keep the focus.
- The keys by which target groups are opened by default are not the keys of target groups: a group is opened only when some connection is named like its projection and connection, as `attached:x` (`SidebarFocus.DefaultsOpenGroup`).
- A focused document is shown after every event but one: the key `m` while the focus behind the document is in Sources takes the content away and leaves the focus (`ClientSync.EventKeepsDocument`). A document opened with Enter on a source row is such an input (`DocumentRun.DocumentIsUndercut`). At the end of the turn the document is no longer focused (`ClientSync.TurnSyncs`).
- A listing of sources that repeats a new path announces it as often (`DapSources.ChangesSent`). Such a listing is sent: a breakpoint's source has an entry of kind "intent" without a connection (`packages/dbgjs/src/service/debugger_service/source.rs:152-168`) beside the entry of the bound target for the same path, and `packages/vscode-extension/src/dapAdapter.ts:894-908` keeps both.

## Model

| member | source | states |
|---|---|---|
| `SourceTrie.BuildFromSnapshot` | packages/dbgjs-tui/src/app.rs:3657-3680 | the loop that inserts every snapshot, walking down and creating folders, builds the trie that the next rows describe |
| `SourceMetrics.TrieFaithful` | packages/dbgjs-tui/src/app.rs:3657-3680 | a URI is found at one place only, the one its components give, with its number of occurrences and the revision of the first |
| `SourceMetrics.FoldersExact` | packages/dbgjs-tui/src/app.rs:3663-3666 | there is a folder at a path exactly when some URI lies below it |
| `SourceMetrics.CountersExact` | packages/dbgjs-tui/src/app.rs:3754-3770 | each folder's counters are the number of distinct URIs and of snapshots below it |
| `SourceMetrics.RootTotals` | packages/dbgjs-tui/src/app.rs:3754-3770 | the root's counters are the distinct URIs and the snapshots of the whole tree |
| `Outline.RowNodeIdPath` | packages/dbgjs-tui/src/app.rs:3465-3482 | the upward scan returns the keys met when climbing to ever smaller depths, outermost first |
| `SourceRows.RowWriter.AppendRows` | packages/dbgjs-tui/src/app.rs:3696-3752 | the recursive writer pushes the rows of the folder and leaves its path as it found it |
| `SourcePreorder.RowsShow` | packages/dbgjs-tui/src/app.rs:3696-3752 | the rows are the trie's nodes in preorder, those left out whose ancestors are not all expanded |
| `SourcePreorder.PathIsAncestry` | packages/dbgjs-tui/src/app.rs:3465-3482 | the path of a source row is exactly its ancestor folders and itself, one longer than its depth |
| `SourceOutline.RowsExact` | packages/dbgjs-tui/src/app.rs:3696-3752 | a node has a row if and only if it is in the snapshot and all folders above it are expanded; no node has two |
| `SourceOutline.ExpandAllShowsAll` | packages/dbgjs-tui/src/app.rs:3682-3694 | with the collected folder keys expanded every folder and URI has exactly one row |
| `SourceOutline.CollapseRemovesBlock` | packages/dbgjs-tui/src/app.rs:3725-3730 | collapsing a folder deletes the one contiguous block of its descendants after it and moves nothing else |
| `SourceOrder.SnapshotInOrder` | packages/dbgjs-tui/src/app.rs:3696-3752 | of two rows that hang in the same folder a folder stands before a file; folders stand by name, files by name and then URI |
| `SourceOrder.SnapshotMarkers` | packages/dbgjs-tui/src/app.rs:3696-3752 | a folder's row can be expanded and says whether it is, a file's cannot; both are indented by the folders they hang in |
| `OrderedMap.LessExact` | packages/dbgjs-tui/src/app.rs:3644-3646 | the order of the maps: a proper prefix comes first, otherwise the smaller code point at the first difference |
| `SourceUri.HierarchicalPlace` | packages/dbgjs-tui/src/app.rs:3773-3804 | below its origin a URI hangs in the non-empty segments of its path but the last, which names the file with query and fragment |
| `SourceUri.PlainPlace` | packages/dbgjs-tui/src/app.rs:3773-3804 | a text that is no URL is cut at its slashes; a URL that cannot be a base, or a text with nothing between slashes, is a file at the top |
| `SourceUri.SplitExact` | packages/dbgjs-tui/src/app.rs:3773-3804 | slashes separate the components, and every non-empty word between them is one |
| `KeyText.TextInjective` | packages/dbgjs-tui/src/app.rs:3806-3818 | in every key format of the program, keys of different nodes have different texts |
| `KeyText.FolderPathIsGood` | packages/dbgjs-tui/src/app.rs:3773-3804 | folder paths made from URIs are of the kind whose joined text is unambiguous |
| `RowTexts.TextsSpeakForKeys` | packages/dbgjs-tui/src/app.rs:359-359 | in every reachable state, for rows of any sections: a row's text is among the texts of the expanded keys if and only if its key is expanded, and two rows have the same text if and only if they have the same key |
| `ResourceOutline.AppendConnectionResourceRows` | packages/dbgjs-tui/src/app.rs:2462-2532 | the writer with its shared visited set terminates on any graph and pushes the rows described next |
| `ResourceReach.RowsAreReachable` | packages/dbgjs-tui/src/app.rs:2462-2558 | no resource has two rows, those shown are exactly the ones reachable from the roots along edges leaving expanded nodes, and each row's path is such a walk |
| `ResourceReach.ShownAlongRelations` | packages/dbgjs-tui/src/app.rs:2462-2558 | a resource has a row if and only if it is the connection's and a trail of relations between resources of the connection leads to it, each step leaving an expanded one, from one that no such relation points at, or from any when every one is pointed at; none has two |
| `ResourceReach.RowTellsRelations` | packages/dbgjs-tui/src/app.rs:2511-2558 | a row can be expanded if and only if such a relation leaves its resource; it stands at the top only where a trail may start, and hangs from a row otherwise |
| `ResourceReach.HangsAlongRelation` | packages/dbgjs-tui/src/app.rs:2511-2531 | what hangs from a row is related to it |
| `ResourceReach.SiblingsAscend` | packages/dbgjs-tui/src/app.rs:2511-2558 | rows that hang from the same row, and those at the top, stand by id |
| `RuntimeTargets.AppendProcessTargetRows` | packages/dbgjs-tui/src/app.rs:1862-1940 | the writer of the targets below a process terminates on any parent relation and pushes the rows described next |
| `RuntimeTargets.TargetsAreReachable` | packages/dbgjs-tui/src/app.rs:1862-1940 | no target has two rows below its process; those shown are exactly the ones that a chain of expanded targets leads to from one without a parent there, and each row's path is such a chain |
| `TargetReach.ShownAlongParents` | packages/dbgjs-tui/src/app.rs:1862-1940 | a target of the process has a row if and only if a chain of expanded parents leads to it from one without a parent among the targets of the process; none has two |
| `TargetReach.RowTellsParents` | packages/dbgjs-tui/src/app.rs:1862-1940 | a row can be expanded if and only if its target is a parent of one of the process; it stands at the top only where a chain starts, and hangs from a row otherwise |
| `TargetReach.HangsFromParent` | packages/dbgjs-tui/src/app.rs:1862-1940 | what hangs from a row has it for a parent |
| `TargetReach.SiblingsAscend` | packages/dbgjs-tui/src/app.rs:1862-1940 | targets that hang from the same row stand by id |
| `TargetReach.TopsAscend` | packages/dbgjs-tui/src/app.rs:1862-1940 | so do those at the top |
| `ProcessWriter.BuildProcessRows` | packages/dbgjs-tui/src/app.rs:1635-1860 | the writer with its visited set terminates on any parent relation and pushes the rows described next, sessions, children, windows and runtime targets |
| `ProcessPaths.ShownProcesses` | packages/dbgjs-tui/src/app.rs:1687-1860 | no process is shown twice; every shown one is reachable from a root through expanded processes; with all windows open exactly the reachable ones are shown |
| `ProcessWindows.ShownExactly` | packages/dbgjs-tui/src/app.rs:1687-1860 | with any windows closed: every shown process is entered from a root by a chain of expanded parents on which each window other than the last one met is open; when process ids differ, the shown processes are exactly these |
| `ProcessPaths.AcyclicShowsAll` | packages/dbgjs-tui/src/app.rs:1687-1860 | with everything expanded and no parent cycle every process is shown, although window groups skip and re-parent siblings |
| `ProcessSection.TreesInOrder` | packages/dbgjs-tui/src/app.rs:1635-1685 | the rows of the trees follow each other without a gap and are all rows; each begins with the row of its tree, and only that one is at the top |
| `ProcessSection.RowsPlaced` | packages/dbgjs-tui/src/app.rs:1635-1860 | of every row of the section: a process row holds one row per session in order, then its children, then its targets; what hangs from it are its children by process id, a window at the least id in it and once; below a window and a tree its processes in snapshot order; and the marker tells whether there is anything below |
| `ProcessSection.RowsRooted` | packages/dbgjs-tui/src/app.rs:1635-1860 | only rows of trees stand at the top, every other row hangs from one |
| `ProcessSection.SectionShows` | packages/dbgjs-tui/src/app.rs:1635-1860 | in the whole section a process is shown only if it is entered in an open tree of that root, and always then when process ids differ |
| `ProcessSection.SectionDistinct` | packages/dbgjs-tui/src/app.rs:1635-1860 | when the roots differ no process has two rows in the section |
| `TargetDepths.TargetDepths` | packages/dbgjs-tui/src/app.rs:3503-3529 | the climbing loop stops on any parent relation and computes the depths described next |
| `TargetDepths.DepthBound` | packages/dbgjs-tui/src/app.rs:3513-3526 | every target has a depth, and no depth exceeds the number of targets |
| `TargetDepths.DepthsExact` | packages/dbgjs-tui/src/app.rs:3503-3529 | depth 0 without a parent in the set; the parent's plus one if and only if the parent is on no cycle |
| `TargetDepths.AcyclicHasNoCycle` | packages/dbgjs-tui/src/app.rs:3503-3529 | in an acyclic relation the condition of the row above always holds |
| `ServiceForest.TargetForest` | packages/dbgjs/src/api/service_api.rs:585-672 | the service's walk over reported parents and openers, with its visited set, terminates on any reports and makes the list described next |
| `ServiceForest.EachTargetOnce` | packages/dbgjs/src/api/service_api.rs:585-672 | whatever is reported, cyclic or repeated, each target is listed exactly once and never before its parent |
| `ServiceForest.AcyclicKeepsParents` | packages/dbgjs/src/api/service_api.rs:596-613 | when the effective parents, parent first and then opener, have no cycle, the list keeps every one of them |
| `ServiceForest.ParentExact` | packages/dbgjs/src/api/service_api.rs:596-613 | a listed parent counts before a listed opener, and nothing that is not listed counts |
| `ServiceOrder.SiblingsAscend` | packages/dbgjs/src/api/service_api.rs:585-672 | targets under the same parent stand by id |
| `ServiceOrder.TopsAscend` | packages/dbgjs/src/api/service_api.rs:614-672 | those without a parent are first, by id, ones whose report names no listed parent or opener, then, by id, what only a cycle leads to |
| `ServiceTargets.GroupDepths` | packages/dbgjs-tui/src/app.rs:2104-2150 | with the service's list, in each group of targets of a connection a target without its parent in the group has depth 0, and any other one more than its parent |
| `ConnectionNames.AvailableConnectionName` | packages/dbgjs-tui/src/app.rs:2873-2908 | the base name if it is free or has the same configuration, else the unused name with the least suffix, at most one more than the connections; in no case empty or with white space at an end |
| `ConnectionNames.Pigeonhole` | packages/dbgjs-tui/src/app.rs:2896-2907 | as many taken names as suffixes tried need as many connections, which bounds the search |
| `ConnectionNames.BaseExact` | packages/dbgjs-tui/src/app.rs:2873-2882 | the base name is the target's name without the white space at its ends, or `runtime` when nothing is left |
| `FocusRestore.RestoredRowExact` | packages/dbgjs-tui/src/app.rs:2592-2605 | the restored row is the first row of the deepest node of the old path that still exists, and none if none exists |
| `FocusRestore.RefreshLands` | packages/dbgjs-tui/src/app.rs:522-695 | after every refresh each tab's focus stays in its section, on the deepest surviving node, or on the header when none survives or the section is collapsed; a dropped refresh moves nothing |
| `FocusRestore.RefreshOfSameRows` | packages/dbgjs-tui/src/app.rs:2579-2612 | a refresh that leaves the rows as they are keeps the focus if and only if it was on a header, or in an open section on the first row with its path |
| `FocusRestore.SourceFocusIsStable` | packages/dbgjs-tui/src/app.rs:2579-2612 | in Sources that condition always holds for an existing row of the open section |
| `SidebarFocus.SameSnapshotMovesFocus` | packages/dbgjs-tui/src/app.rs:2204-2266 | with a breakpoint applied at two places of one script and the second selected, the unchanged snapshot arriving again moves the selection to the first |
| `Walkthroughs.SelectionMovesInARun` | packages/dbgjs-tui/src/app.rs:2204-2266 | that state is reached from start-up by keys, and there the snapshot may arrive again |
| `SidebarFocus.DefaultsOpenGroup` | packages/dbgjs-tui/src/app.rs:2121-2126 | after the defaults a target group is open if and only if it was before, or a connection is named like its projection and connection |
| `SidebarKeys.SidebarHasNoFolders` | packages/dbgjs-tui/src/app.rs:795-808 | no row of the other sections has the key of a source folder, which is what the results on the source cache ask of them |
| `SourceNavigation.LeftThenRight` | packages/dbgjs-tui/src/app.rs:993-1086 | from a source row, Left and then Right restore the expanded set, the collapsed sections, the rows and the focus; only the memory of visited children differs |
| `SourceNavigation.FolderMemoryKept` | packages/dbgjs-tui/src/app.rs:2614-2625 | writing the edges on the way to a folder does not overwrite the child the folder remembers |
| `NavigationExact.LeftExact` | packages/dbgjs-tui/src/app.rs:993-1034 | Left closes the node above the focused row and focuses its first row, or closes the section and focuses the header; the memory gets the row that was left and the way to the new focus |
| `NavigationExact.RightExact` | packages/dbgjs-tui/src/app.rs:1036-1086 | Right opens the row or the section and focuses the remembered child if it is still there, else the first child, else nothing else |
| `NavigationExact.ToggleExact` | packages/dbgjs-tui/src/app.rs:1088-1109 | Space flips just this node or section, and keeps the number of the focused row as far as there are rows |
| `NavigationExact.LinkedWrites` | packages/dbgjs-tui/src/app.rs:2614-2625 | every node on the way remembers where the way went on, the others what they did |
| `NavigationExact.TabExact` | packages/dbgjs-tui/src/app.rs:456-463 | showing a tab keeps its focus on its row, or takes it to the last row there is or the header; the runtime tab keeps no details |
| `NavigationExact.ViewportExact` | packages/dbgjs-tui/src/app.rs:2667-2677 | a section without height takes the focus of both tabs back to its header, and its rows are no positions |
| `SourceCache.CacheKept` | packages/dbgjs-tui/src/app.rs:2190-2202 | editing keys of other sections in the shared expanded set leaves the cached source rows fresh without a rebuild |
| `SourceCache.RefreshKeepsFresh` | packages/dbgjs-tui/src/app.rs:522-616 | every refresh leaves the cached rows a fresh flattening of the trie of the selected kind |
| `SourceFocus.LeftHereOk` | packages/dbgjs-tui/src/app.rs:993-1034 | after Left on a source row the cache is fresh and the focused row still exists |
| `SourceFocus.RightOk` | packages/dbgjs-tui/src/app.rs:1036-1086 | the same after Right in any section |
| `SourceFocus.ToggleOk` | packages/dbgjs-tui/src/app.rs:1088-1109 | the same after expanding or collapsing with Space |
| `SourceFocus.SelectionOk` | packages/dbgjs-tui/src/app.rs:949-965 | the same after moving the selection over headers and rows of the shown sections |
| `SelectionMoves.PositionsDistinct` | packages/dbgjs-tui/src/app.rs:2650-2665 | no header and no row can be selected in two places |
| `SelectionMoves.DownThenUp` | packages/dbgjs-tui/src/app.rs:949-965 | Up undoes Down exactly when the selection is not at the last of several positions |
| `SelectionMoves.PositionsExact` | packages/dbgjs-tui/src/app.rs:2650-2665 | the focus can be on the header of each section of the tab and on every row of an open, visible one, and nowhere else |
| `SelectionMoves.PositionsInOrder` | packages/dbgjs-tui/src/app.rs:2650-2665 | the positions go section by section, header first, rows from the top down |
| `SelectionMoves.MovesByDelta` | packages/dbgjs-tui/src/app.rs:949-965 | from the i-th position the selection moves by the given number of places and stops at the ends |
| `SelectionMoves.SelectsEdge` | packages/dbgjs-tui/src/app.rs:967-991 | Home and End end at the first and the last position |
| `TuiApp.FindSurvivor` | packages/dbgjs-tui/src/app.rs:2597-2604 | the search over prefixes, longest first, finds the restored row |
| `TuiApp.FindChild` | packages/dbgjs-tui/src/app.rs:1060-1080 | one pass over the rows finds the remembered child, or else the first child |
| `TuiApp.App.constructor` | packages/dbgjs-tui/src/app.rs:383-434 | the state at start-up |
| `TuiApp.App.SetTab` | packages/dbgjs-tui/src/app.rs:456-463 | switching the tab clamps its focus and drops target details for the runtime tab |
| `TuiApp.App.ActivateContext` | packages/dbgjs-tui/src/app.rs:485-520 | switching the context forgets everything of the old one and what was loading |
| `TuiApp.App.SetContexts` | packages/dbgjs-tui/src/app.rs:522-535 | stores the list and finds the current context again, keeping the old index when it is gone |
| `TuiApp.App.ApplyContext` | packages/dbgjs-tui/src/app.rs:537-570 | drops foreign and older snapshots, else replaces the snapshot, drops unbacked details and restores the focus |
| `TuiApp.App.SetProcesses` | packages/dbgjs-tui/src/app.rs:572-579 | stores the processes, asks for the connections again, expands defaults, restores the focus |
| `TuiApp.App.SetSources` | packages/dbgjs-tui/src/app.rs:588-616 | ignores other kinds and repeated trees, else rebuilds trie and rows, opening the folders of a kind seen first |
| `TuiApp.App.ToggleSourceKind` | packages/dbgjs-tui/src/app.rs:626-643 | cycles the projection, drops the tree and its pending query, focuses the Sources header |
| `TuiApp.App.SetTargetDetail` | packages/dbgjs-tui/src/app.rs:663-688 | stores a detail only for an attached target of the current snapshot in the same generation |
| `TuiApp.App.MoveSelection` | packages/dbgjs-tui/src/app.rs:949-965 | moves over the focusable positions, stopping at the ends |
| `TuiApp.App.NavigateLeft` | packages/dbgjs-tui/src/app.rs:993-1034 | closes the parent or the section, remembers the child, focuses the parent or the header |
| `TuiApp.App.NavigateRight` | packages/dbgjs-tui/src/app.rs:1036-1086 | opens the row or the section and enters the remembered or first child |
| `TuiApp.App.ToggleExpanded` | packages/dbgjs-tui/src/app.rs:1088-1109 | flips the row or the section and clamps the focus |
| `TuiApp.App.RefreshActiveData` | packages/dbgjs-tui/src/app.rs:736-752 | marks the loadable sections of the tab, and the processes that open connections need, as not queried |
| `TuiApp.App.ExpandDefaults` | packages/dbgjs-tui/src/app.rs:2560-2577 | adds the keys of process trees, connection groups and applied breakpoints |
| `TuiApp.App.RestoreFocusPaths` | packages/dbgjs-tui/src/app.rs:2592-2612 | restores the focus of both tabs and what their nodes remember |
| `TuiApp.App.RememberFocusPath` | packages/dbgjs-tui/src/app.rs:2614-2625 | every node on the way to the focus remembers its child there |
| `TuiApp.App.FocusPositions` | packages/dbgjs-tui/src/app.rs:2650-2665 | the headers of the tab and the rows of its open, visible sections, in order |
| `TuiClient.ServiceController.Load` | packages/dbgjs-tui/src/service.rs:262-335 | the section's 64-bit generation moves on by one, wrapping around; no other changes |
| `TuiClient.ServiceController.SetTargets` | packages/dbgjs-tui/src/service.rs:175-256 | a new generation; what has a handle is aborted, every target gets an observer, and handles are kept by connection and target id |
| `TargetTasks.SpawningIsOk` | packages/dbgjs-tui/src/service.rs:175-256 | afterwards the observers of the current generation are those of the targets, one each in order; any other is older |
| `TargetTasks.AllAbortedIffIdsDiffer` | packages/dbgjs-tui/src/service.rs:175-178 | aborting all handles ends every observer of the targets if and only if their ids differ pairwise |
| `ServiceTargets.OnlyCurrentObservers` | packages/dbgjs-tui/src/service.rs:175-256 | however often targets are set from snapshots of the service, exactly one observer per target set last is running |
| `TuiClient.ServiceController.SetSource` | packages/dbgjs-tui/src/service.rs:337-383 | a new generation, and one query for the wanted source or none |
| `TuiClient.TuiClient.RequestActiveData` | packages/dbgjs-tui/src/main.rs:218-251 | goes through the open sections of the tab and starts the loads they need |
| `TuiClient.TuiClient.HandleKey` | packages/dbgjs-tui/src/main.rs:104-166 | quits, or does what the key means and requests demanded data |
| `TuiClient.TuiClient.HandleData` | packages/dbgjs-tui/src/main.rs:273-291 | an answer of another context or generation is dropped, another one ends the loading and hands its data on, whatever the data |
| `TuiClient.TuiClient.HandleTargetDetail` | packages/dbgjs-tui/src/main.rs:257-272 | a detail of an older target generation is dropped, else stored or removed |
| `TuiClient.TuiClient.SyncObservers` | packages/dbgjs-tui/src/main.rs:76-99 | observers and the source query are replaced when what should be watched has changed |
| `TuiClient.TuiClient.RunTurn` | packages/dbgjs-tui/src/main.rs:49-99 | one turn in place, on a message with wrapped generations, is the turn of the step function |
| `TuiClient.TuiClient.Run` | packages/dbgjs-tui/src/main.rs:49-99 | the loop in place, on the messages of any possible run, ends in the state that the run theorems speak of |
| `ClientFrames.PressTakes` | packages/dbgjs-tui/src/main.rs:104-166 | every key moves, starts an action, cycles the projection, switches the context or asks for new queries, and changes only what that changes |
| `KeyEffects.ListKeys` | packages/dbgjs-tui/src/main.rs:114-117 | which keys move the selection up, down, to the first and to the last place |
| `KeyEffects.TreeKeys` | packages/dbgjs-tui/src/main.rs:118-119 | which keys go out of a node and into it |
| `KeyEffects.TabKeys` | packages/dbgjs-tui/src/main.rs:106-113 | which keys change the tab, and that Esc leaves the document |
| `KeyEffects.ActionKeys` | packages/dbgjs-tui/src/main.rs:129-152 | an action starts if and only if the key asks for one where the focus is, the row offers one and none is pending |
| `KeyEffects.OtherKeys` | packages/dbgjs-tui/src/main.rs:129-161 | the keys that toggle, cycle the projection and ask for new data, and the ones that do nothing elsewhere |
| `KeyEffects.EnterKey` | packages/dbgjs-tui/src/main.rs:120-128 | Enter switches to the other context on the selected row, else focuses the shown document of a selected source, else does nothing |
| `KeyEffects.SwitchAsksAnew` | packages/dbgjs-tui/src/main.rs:153-160 | after `[` and `]` nothing of the old context is left but the processes, its observers are ended and their messages stale, and exactly the open sections with data load anew, except contexts that were queried before |
| `KeyEffects.RefreshAsksAnew` | packages/dbgjs-tui/src/app.rs:736-752 | after `r` exactly the open sections with data are loading, and those that were; open connections ask for the processes |
| `KeyEffects.KindStartsEmpty` | packages/dbgjs-tui/src/app.rs:626-643 | after `m` in Sources nothing of the old projection is left, open Sources are asked for anew, and all else stays |
| `ClientRuns.KindsInTurn` | packages/dbgjs-tui/src/app.rs:626-643 | in every reachable state one of three projections is selected; only `m` in Sources turns it, from source-mapped to formatted to loaded and around |
| `ClientFrames.RequestExact` | packages/dbgjs-tui/src/main.rs:218-251 | a request starts exactly one load for each listed section that needs one and none for others |
| `ClientFrames.RefreshHasEffect` | packages/dbgjs-tui/src/app.rs:522-695 | a refresh replaces its own data if it is not dropped, and nothing else; the current context stays, unless a new list does not show it |
| `ClientFrames.RefreshIsSound` | packages/dbgjs-tui/src/app.rs:522-535 | after a refresh the current context can be looked up if and only if it was no list of contexts, or one that shows the current context or reaches its index |
| `Arrivals.RefreshBrings` | packages/dbgjs-tui/src/app.rs:522-695 | each refresh brings its data, queried marks, default rows, folders opened and details kept, each given member by member, and leaves all else |
| `Arrivals.SnapshotArrives` | packages/dbgjs-tui/src/app.rs:537-570 | a snapshot is shown after it arrived if and only if it was before, or is of the current context with none or no newer one shown; otherwise nothing changes |
| `Arrivals.ActionArrives` | packages/dbgjs-tui/src/app.rs:767-776 | the same for the snapshot of a finished action, which is no longer pending in any case |
| `Arrivals.FirstSnapshotIsTaken` | packages/dbgjs-tui/src/app.rs:541-546 | the first snapshot of the current context is taken over whatever its revision |
| `Arrivals.SwitchKeyTurns` | packages/dbgjs-tui/src/app.rs:471-475 | `[` and `]` make the context before or after the current one current, around the ends, with no snapshot shown |
| `Arrivals.DetailArrives` | packages/dbgjs-tui/src/main.rs:257-272 | a detail of the running observers is stored if and only if it is of the current context and the first node of its target is attached to the debugger in its generation; a lost one is removed; any other message changes nothing |
| `Arrivals.AnswerArrives` | packages/dbgjs-tui/src/main.rs:273-291 | an answer of the current context with the section's generation ends the loading and brings its data; any other is only taken off the wire |
| `Arrivals.ContentArrives` | packages/dbgjs-tui/src/main.rs:292-309 | a text is shown if and only if it is of the current context and source generation and of what is still selected |
| `ClientInvariant.HandleKeepsInv` | packages/dbgjs-tui/src/main.rs:253-311 | every event keeps the loads, the ownership of data, the backing of details, the pending action, and the source cache and focus in order |
| `ClientRuns.RunsAreGood` | packages/dbgjs-tui/src/main.rs:28-102 | so does every run, in whatever order keys, ticks and answers come |
| `ClientRuns.ReachableStatesAreInOrder` | packages/dbgjs-tui/src/main.rs:28-102 | in every reachable state each loading section awaits its latest load, resources, captures and sources come from queries of the current context, the tree has the selected kind, details are backed by the current snapshot, an action is pending exactly while one is in flight, the cached rows are fresh, a focused source row exists, and observers and document follow the selection |
| `ClientRuns.LoadingAwaitsOneLoad` | packages/dbgjs-tui/src/main.rs:218-291 | in every reachable state in which fewer than 2^64 loads of a loading section are newer than any one of it in flight, exactly one load in flight would be taken for it: its latest, of the current context, and of the selected kind for Sources |
| `ClientRuns.NothingIsStuckLoading` | packages/dbgjs-tui/src/main.rs:273-291 | in every reachable state with nothing in flight nothing is loading |
| `ClientRuns.TakenAnswerIsLatest` | packages/dbgjs-tui/src/main.rs:273-291 | in every reachable state, with fewer than 2^64 newer loads, an answer is taken if and only if it is of the latest load of its section and of the current context |
| `ClientRuns.TakenUpToWrapAround` | packages/dbgjs-tui/src/main.rs:279-281 | in every reachable state an answer in flight is taken if and only if it is of the current context and a multiple of 2^64 newer loads have started; if none has, it is of the latest load |
| `ClientRuns.RequestMeetsDemand` | packages/dbgjs-tui/src/main.rs:218-251 | after a request nothing that is wanted is without a query, by what is shown, queried, loading and held |
| `Demand.RequestStarts` | packages/dbgjs-tui/src/main.rs:218-251 | a section starts to load if and only if it is open in the shown tab, or is Processes under open Connections, has data, is not loading, and was not queried, or shows an unexplored process tree that is looked into, or has an outdated graph |
| `Demand.RequestSends` | packages/dbgjs-tui/src/main.rs:218-251 | the queries on their way afterwards are those before and one for each such section, for the current context and projection |
| `ClientRuns.ReachableWatches` | packages/dbgjs-tui/src/main.rs:76-99 | in every reachable state a target has a running observer if and only if the debug tab shows a snapshot with a node of it attached to the debugger |
| `ClientRuns.TurnAsks` | packages/dbgjs-tui/src/main.rs:76-99 | after every turn the text is asked for of the source that the event left selected, or of the shown document, in all its revisions |
| `ClientRuns.LeftThenRightAnytime` | packages/dbgjs-tui/src/app.rs:993-1086 | in every reachable state Left and then Right on a source row is the identity up to the memory of visited children, with no condition on the row |
| `ClientRuns.RevisionNeverDecreases` | packages/dbgjs-tui/src/app.rs:537-548 | along a run without a context switch the snapshot's revision never decreases |
| `ClientData.AnswerKeepsDetails` | packages/dbgjs-tui/src/app.rs:549-558 | taking an answer leaves every detail backed by a debugger-attached target in the same connection generation |
| `ClientRuns.StaleObserversAreIgnored` | packages/dbgjs-tui/src/main.rs:262-272 | an event from before the last change of targets, or of the source, changes nothing |
| `ClientRuns.FinishedAction` | packages/dbgjs-tui/src/app.rs:767-776 | in every reachable state an action that finishes was the only one in flight and the next may start; its snapshot is taken over if and only if it is of the current context and not older, and otherwise nothing else changes |
| `ClientSync.TurnSyncs` | packages/dbgjs-tui/src/main.rs:76-99 | after every turn exactly the attached targets of the open debug tab are watched, a shown document is the selected source in its current revisions, and a focused document is shown |
| `ClientSync.EventKeepsDocument` | packages/dbgjs-tui/src/main.rs:104-166 | an event keeps a focused document shown if and only if it is not the key `m` with the document focused and the focus behind it in Sources |
| `DocumentRun.DocumentIsUndercut` | packages/dbgjs-tui/src/main.rs:127-153 | from start-up, keys and answers open a document with Enter on a source row; then `m` leaves it focused without content |
| `VanishedContext.VanishedContextBreaks` | packages/dbgjs-tui/src/app.rs:522-535 | any list of contexts taken as an answer keeps the protocol in order if and only if it shows the current context, or reaches the kept index while nothing of that context is shown or loading |
| `VanishedContext.OtherContextBecomesCurrent` | packages/dbgjs-tui/src/app.rs:522-535 | from start-up with contexts a and b and a current, the key `r` and an answer that lists just b make b current under the snapshot of a |
| `VanishedContext.IndexRunsOut` | packages/dbgjs-tui/src/app.rs:444-446 | from start-up with b current, the key `r` and an answer that lists just a leave an index past the end, so that the next draw panics |
| `SessionReconciler.Reconciler.BindSession` | packages/vscode-extension/src/debugSessionReconciler.ts:66-73 | binding a session ends the start of its target and schedules a reconciliation |
| `SessionReconciler.Reconciler.SessionTerminated` | packages/vscode-extension/src/debugSessionReconciler.ts:119-135 | the target is suppressed exactly when a confirmed session without parent ended unexpectedly and its target is still a root |
| `SessionReconciler.Reconciler.RunReconcile` | packages/vscode-extension/src/debugSessionReconciler.ts:154-204 | forgets suppressions of targets that are no longer roots and starts the first root that is not active, pending or suppressed |
| `SessionReconciler.Reconciler.StartResolved` | packages/vscode-extension/src/debugSessionReconciler.ts:185-213 | a declined start is no longer pending; the loop goes on with the next root, looking at the sets as they are then |
| `SessionReconciler.Reconciler.StartRejected` | packages/vscode-extension/src/debugSessionReconciler.ts:205-208 | a start that throws is no longer pending and ends the reconciliation |
| `SessionReconciler.StartsAreSeparated` | packages/vscode-extension/src/debugSessionReconciler.ts:188-212 | between two automatic starts of a target it was bound, declined, or failed |
| `SessionReconciler.StoppedStaysStopped` | packages/vscode-extension/src/debugSessionReconciler.ts:126-132 | a target stopped by the user is started again only after a reconciliation saw it no longer a root |
| `SessionReconciler.StartsAreOfSeenRoots` | packages/vscode-extension/src/debugSessionReconciler.ts:162-195 | every automatically started target was a root that the running reconciliation saw, and not active when it began |
| `DapObserver.Observer.Observe` | packages/vscode-extension/src/dapAdapter.ts:803-859 | the loop sends the events described next, for any sequence of snapshots, time-outs, failures and cancellation |
| `DapStream.ContinuedAreSeparated` | packages/vscode-extension/src/dapAdapter.ts:837-856 | every `continued` comes after a `stopped`, and between two of them there is one |
| `DapStream.StopsIncrease` | packages/vscode-extension/src/dapAdapter.ts:837-848 | stops with no `continued` between them have strictly increasing epochs |
| `DapStream.SnapshotIsReported` | packages/vscode-extension/src/dapAdapter.ts:837-856 | after the output of a snapshot exactly the stop or the continuation is sent that the client does not know of from what was sent before |
| `DapStream.StreamEnds` | packages/vscode-extension/src/dapAdapter.ts:803-859 | nothing follows a rejected or cancelled pass, and only its output one whose sources could not be refreshed |
| `DapStream.TimeOutIsSkipped` | packages/vscode-extension/src/dapAdapter.ts:803-859 | a pass that timed out leaves no trace |
| `DapStream.EachIndexPrintedOnce` | packages/vscode-extension/src/dapAdapter.ts:827-835 | printed log indices strictly increase, and an index is printed if and only if it is positive and seen before any higher one |
| `DapStream.AllLogsPrinted` | packages/vscode-extension/src/dapAdapter.ts:827-835 | of the entries with indices from 1 on, as the service counts them, all seen are printed if and only if none arrives for the first time after a higher one, and no index is printed twice |
| `DapSources.Sources.SettleRefresh` | packages/vscode-extension/src/dapAdapter.ts:866-892 | a listing, with duplicates or none when nothing is bound, replaces the paths and sends the events; a failing one changes nothing |
| `DapSources.RefreshReplays` | packages/vscode-extension/src/dapAdapter.ts:866-892 | replaying all events sent so far gives exactly the listed paths after every refresh |
| `DapSources.ChangesSent` | packages/vscode-extension/src/dapAdapter.ts:870-890 | a new path is announced once per listing of it, and a path that is gone is removed exactly once |
| `DapSources.PathsExact` | packages/vscode-extension/src/dapAdapter.ts:866-908 | listed are the paths of the bound target's sources and of those without a connection, and none before a target is bound |

## Left out

- Which processes are offered as connections, and the rows of Attention and Call Stacks: parameters of the sidebar (`Sidebar.Parts`), of which only the kind of their keys matters.
- Log entries that are evicted before the adapter sees them are not among the entries of a snapshot; that the service counts entries from 1 on (`packages/dbgjs/src/debugger/debugger_driver.rs:28-42`) is assumed of its snapshots.
- Labels, states, tones, messages, inspectors, footer hints, scroll offsets and the line cursor of the document: presentation. Viewport heights are inputs of each turn.
- Which action a row offers: an input of the key event. `perform_action` and what the service does with it.
- `url::Url::parse` and its standard rules are a parameter that gives an origin, segments, query and fragment; the text of keys needs of it only slash-free segments and roots of the form scheme and authority.
- Source revisions are opaque texts; the order in which `source_revision_token` sorts them is that of the text.
- Ordered maps of the program are sorted association lists (`OrderedMap`), and the trie built in place is a value; sets of expanded keys are sets of structured keys, which `RowTexts` shows to come to the same as the sets of texts.
- tokio tasks, channels, retries, time-outs and sockets: each query or action in flight delivers one event at some time, or never. The context observer's cursor is not modelled; any snapshot may arrive at any time.
- The suffix of an available connection name is an unbounded number; the program's 32-bit counter would need four thousand million connections to overflow.
- A process id, a generation of a connection and a revision are natural numbers without an upper limit.
- In the reconciler the session placement query, the binding event emitter and the log are left out; a snapshot change may come between any two steps.
- `ClientSync.TurnSyncs`: takes an answer about a source to carry the path asked for. `show_source` (`packages/dbgjs/src/service/debugger_service/source.rs:379-480`) strips a trailing `?formatted`, so a script whose own URL ends so can be answered under another path.
- How the service collects the reports of targets that `ServiceForest` starts from.
- `DapObserver.Observer.Observe`: the text of an output event is kept as the log entry itself; sequence numbers, other requests and other observers of the same session are not modelled.
- `reconcileChildren`, frame and variable references, and breakpoints of the adapter: they would add simpler members of the same kind.
