# dprs / dplw — a verified model of the dashboard's state machines

dprs is a terminal dashboard for Docker containers, and dplw is its log viewer.
This project models, in Dafny, the sequential logic at their core:

- **The log watchers.** Each one keeps a capacity-bounded FIFO of log lines, has a `running`
  flag that freezes the buffer once cleared, and has a stop that is idempotent. The manager
  keeps a list of watchers, which it builds by parsing the discovery output of `docker ps`.
  There are two generations: `LogWatcher` and `LegacyLogWatcher`.
- **The log viewer.** It holds a bounded log deque, a scroll cursor, follow mode, and a parse
  cache of the same length as the deque (`SharedLogView` and its older form `LegacyLogView`).
  The tab bar selects a tab cyclically (`SharedLogTabs`, and `LegacyLogTabs`, which is partial on
  an empty list).
- **The modal input state** (`Modes`):
  - the visual-mode range;
  - a one-line command editor with a cursor and a capped, de-duplicated history;
  - cyclic navigation through search matches.
- **The container list** (`AppState`, and its older form `LegacyAppState`):
  - wrap-around selection;
  - case-insensitive filtering into a list of indices;
  - the selection rules after a refresh;
  - half-page and word jumps;
  - parsing of the `docker ps` listing;
  - formatting of the IP address list.
- **The command interpreter** (`Commands`): `:N` and `:$` jumps, quit, container operations
  and how their results are aggregated, container resolution by prefix, and the command history.
- **Configuration** (`Config`):
  - `#RRGGBB` colours;
  - key-binding lookup and key-event names;
  - the auto-refresh interval;
  - merging the default colours into a loaded configuration.
- **The context menu** (`ContextMenu`): cycling through actions, matching actions to
  containers, enabled conditions, and placeholder substitution.
- **Compose view** (`ComposeView`): grouping containers into compose projects, sorted by name.
- **Copying an IP address** (`CopyIp`): extracting the first address from docker's address field.
- **Toasts** (`Toast`): one notification that expires after its duration.

Everything outside the program is an explicit input to the model:

- **Docker** is an oracle `Process.Docker`. It maps an argument vector, built from the same
  constants the program uses, to an outcome: `Exited(success, stdout, stderr)` or `SpawnFailed(error)`.
- **Regular-expression matching** is an oracle on pattern and text.
- **The clock** is a `now` parameter.
- **The clipboard's answer** is a `Result` parameter.
- **The parsed TOML file** is a parameter of `Config.Load`.

Strings are sequences of characters and are treated as ASCII. Trimming, lower-casing and
byte-indexed slicing follow Rust's behaviour on ASCII text. The shared helpers are:

- `Text`: trim, split, replace, decimal parsing with Rust's `usize` rules;
- `Bounded`: last-n buffers and wrap-around indices;
- `Keys`: the terminal key events;
- `Wrappers`: `Option`, `Result`.

Objects whose fields the program updates in place are classes. Each class has a `Valid()`
invariant, and each method's `ensures` gives its whole new state in terms of the old one.
Loops become `while` loops, each proved against a recursive specification function. That
function's properties are proved as lemmas.

## Model

| member | source | states |
|---|---|---|
| LogWatcher.FollowArgs | src/docker_log_watcher.rs:38-45 | the follow command is `docker logs … <name>`: five arguments, starting with `logs`, ending with the container name |
| LogWatcher.Entry | src/docker_log_watcher.rs:69-91 | a stdout line is stored unchanged; a stderr line is stored as `ERROR: ` followed by exactly the line |
| LogWatcher.DockerLogWatcher.constructor | src/docker_log_watcher.rs:26-34 | a new watcher has the given name and capacity, an empty buffer, is not running and has no handle |
| LogWatcher.DockerLogWatcher.Start | src/docker_log_watcher.rs:36-113 | start always answers `Ok` and leaves the watcher running with a handle |
| LogWatcher.DockerLogWatcher.ReaderStep | src/docker_log_watcher.rs:63-96 | while running, a line is appended and then the oldest lines are dropped until at most `max_logs` remain (the buffer is the last `max_logs` lines); once `running` is false nothing is appended and the reader stops |
| LogWatcher.DockerLogWatcher.DropOldest | src/docker_log_watcher.rs:72-74 | the trimming loop leaves exactly the last `max_logs` lines, oldest first |
| LogWatcher.DockerLogWatcher.Stop | src/docker_log_watcher.rs:115-123 | stop takes the handle and leaves the watcher not running; it clears `running` only when a handle was present, which the invariant (the flag is only up while a handle is held) makes the only case where it was up, so a second stop changes nothing |
| LogWatcher.DockerLogWatcher.GetLogs | src/docker_log_watcher.rs:125-128 | the logs returned are the buffer, never longer than the capacity |
| LogWatcher.DockerLogWatcher.ContainerName | src/docker_log_watcher.rs:130-132 | the name given at construction |
| LogWatcher.StoppedWatcherCollectsNothing | src/docker_log_watcher.rs:64-67 | after stop, a reader step leaves the log count unchanged |
| LogWatcher.DiscoveredNamesAreClean | src/docker_log_watcher.rs:188-193 | each discovered container name is non-empty, trimmed and free of newlines, and there are no more names than output lines |
| LogWatcher.DiscoveredNames | src/docker_log_watcher.rs:188-193 | the containers watched after a discovery are named by the output lines, trimmed, blank lines skipped: no name is empty |
| LogWatcher.Names | src/docker_log_watcher.rs:135-137 | the names of the manager's watchers, position by position |
| LogWatcher.NamesAppend | src/docker_log_watcher.rs:152-157 | appending a watcher appends its name |
| LogWatcher.DockerLogManager.constructor | src/docker_log_watcher.rs:146-150 | a new manager has no watchers |
| LogWatcher.DockerLogManager.StartWatchingContainer | src/docker_log_watcher.rs:152-157 | one fresh, running watcher with an empty buffer is appended under the given name; the call answers `Ok` |
| LogWatcher.DockerLogManager.StopAll | src/docker_log_watcher.rs:198-202 | every watcher is stopped (flag down, handle released), and their buffers are unchanged; the list keeps its length |
| LogWatcher.DockerLogManager.StartWatchingAllContainers | src/docker_log_watcher.rs:159-196 | a spawn failure or a non-zero exit is an error, and the old watchers are then left running and in place; on success the old watchers are stopped, and the list is replaced by one new running watcher per non-blank trimmed line of the output |
| LogWatcher.DockerLogManager.WatchEachLine | src/docker_log_watcher.rs:188-193 | the loop creates exactly the watchers named by the non-blank trimmed lines, in order |
| LogWatcher.DockerLogManager.WatchLine | src/docker_log_watcher.rs:188-193 | one output line: a blank line (once trimmed) adds nothing; any other line appends one fresh running watcher named by the trimmed line, and the watchers already there stay |
| LogWatcher.NonEmptyTrimStep | src/docker_log_watcher.rs:188-193 | the names the remaining lines give are the first line's trimmed name, unless it is blank, followed by the names of the lines after it |
| LogWatcher.DockerLogManager.GetWatcher | src/docker_log_watcher.rs:204-206 | `None` exactly when the index is at or past the count, else the watcher at that index |
| LogWatcher.DockerLogManager.WatcherCount | src/docker_log_watcher.rs:208-210 | the number of watchers |
| LogWatcher.DockerLogManager.Refresh | src/docker_log_watcher.rs:212-214 | a spawn failure or a non-zero exit of the discovery is an error, and the list and every watcher's flag, handle and lines are then unchanged; on success the old watchers are stopped with their lines kept, and the list is one fresh running watcher with an empty buffer per non-blank trimmed output line |
| LegacyLogWatcher.BacklogArgs | dprs/src/docker_log_watcher.rs:71-75 | the backlog command is `docker logs … <id>`: four arguments ending with the container id |
| LegacyLogWatcher.FollowArgs | dprs/src/docker_log_watcher.rs:37-39 | the follow command has five arguments ending with the container id |
| LegacyLogWatcher.Backlog | dprs/src/docker_log_watcher.rs:71-86 | a failed spawn loads nothing; otherwise the stdout lines are loaded |
| LegacyLogWatcher.DockerLogWatcher.constructor | dprs/src/docker_log_watcher.rs:17-24 | the watcher has the given id and name, an empty buffer, and starts running |
| LegacyLogWatcher.DockerLogWatcher.StartWatching | dprs/src/docker_log_watcher.rs:26-34 | starting loads the backlog after the existing lines and returns a handle for this container |
| LegacyLogWatcher.DockerLogWatcher.LoadExistingLogs | dprs/src/docker_log_watcher.rs:71-86 | the backlog lines are appended in order |
| LegacyLogWatcher.DockerLogWatcher.ReaderStep | dprs/src/docker_log_watcher.rs:55-66 | an unreadable line is skipped; a line read while running is appended without any bound; a line read after stop is dropped and ends the reader |
| LegacyLogWatcher.DockerLogWatcher.StopWatching | dprs/src/docker_log_watcher.rs:88-91 | clears `running` |
| LegacyLogWatcher.DockerLogWatcher.GetLogs | dprs/src/docker_log_watcher.rs:93-96 | all lines collected so far |
| LegacyLogWatcher.DockerLogWatcher.ContainerName | dprs/src/docker_log_watcher.rs:98-100 | the name given at construction |
| LegacyLogWatcher.DockerLogWatcher.ContainerId | dprs/src/docker_log_watcher.rs:102-104 | the id given at construction |
| LegacyLogWatcher.ParseEntryExact | dprs/src/docker_log_watcher.rs:134-137 | a discovery line is accepted exactly when it is `id|name` with no other bar, and it yields that pair |
| LegacyLogWatcher.ParseEntry | dprs/src/docker_log_watcher.rs:134-137 | an accepted discovery line is its id, a bar and its name, and neither part holds a bar |
| LegacyLogWatcher.Entries | dprs/src/docker_log_watcher.rs:133-146 | the accepted discovery lines, never more than the lines |
| LegacyLogWatcher.EntriesStep | dprs/src/docker_log_watcher.rs:133-146 | the entries from a line on are that line's own entry, if it is well formed, followed by the entries of the lines after it |
| LegacyLogWatcher.EntriesAreParsedLines | dprs/src/docker_log_watcher.rs:133-146 | every watcher entry comes from some line of the output |
| LegacyLogWatcher.Pairs | dprs/src/docker_log_watcher.rs:107-110 | the (id, name) pairs of the watchers, position by position |
| LegacyLogWatcher.HandlesOf | dprs/src/docker_log_watcher.rs:107-110 | one handle per watcher, for that watcher's container |
| LegacyLogWatcher.PairsAppend | dprs/src/docker_log_watcher.rs:143-144 | pushing a watcher and its handle extends both lists by that one entry |
| LegacyLogWatcher.DockerLogManager.constructor | dprs/src/docker_log_watcher.rs:113-118 | no watchers and no handles |
| LegacyLogWatcher.DockerLogManager.StartWatchingAllContainers | dprs/src/docker_log_watcher.rs:120-149 | only a spawn failure is an error, and it leaves everything in place; a non-zero exit is not checked; otherwise every old watcher is stopped and the lists are rebuilt from the accepted `id|name` lines, each new watcher running with its backlog loaded |
| LegacyLogWatcher.DockerLogManager.WatchEachLine | dprs/src/docker_log_watcher.rs:133-146 | the loop yields exactly the parsed entries, in order, with one handle each |
| LegacyLogWatcher.DockerLogManager.WatchLine | dprs/src/docker_log_watcher.rs:134-145 | a malformed line adds nothing; a well-formed one adds one fresh watcher and its handle |
| LegacyLogWatcher.DockerLogManager.GetWatcher | dprs/src/docker_log_watcher.rs:151-153 | `None` exactly when the index is at or past the count, else the watcher at that index |
| LegacyLogWatcher.DockerLogManager.StopAll | dprs/src/docker_log_watcher.rs:155-165 | every watcher stops running with its lines kept, and the handle list is emptied |
| LegacyLogWatcher.DockerLogManager.WatcherCount | dprs/src/docker_log_watcher.rs:167-169 | the number of watchers |
| LegacyLogWatcher.DockerLogManager.Refresh | dprs/src/docker_log_watcher.rs:171-173 | a spawn failure is an error, and the list, the handles and every watcher's flag and lines are then unchanged; otherwise the old watchers are stopped with their lines kept, and the list is one fresh running watcher per well-formed `id|name` output line, holding that container's backlog |
| Bounded.LastN | src/docker_log_watcher.rs:70-74 | pushing and then popping the front while over capacity keeps the last `n` elements: of length `min(|s|, n)` and a suffix of the input |
| Bounded.LastNAppend | src/docker_log_watcher.rs:70-74 | bounding after every append equals bounding the whole history once |
| Bounded.FeedKeepsMostRecent | src/docker_log_watcher.rs:70-74 | feeding any sequence of lines into a bounded buffer leaves the last `n` lines of the whole history, in arrival order |
| Bounded.NextIndex | src/shared/display/log_tabs.rs:28-32 | the next index wraps from the last position to 0 and otherwise moves up by one |
| Bounded.PreviousIndex | src/shared/display/log_tabs.rs:34-43 | the previous index wraps from 0 to the last position and otherwise moves down by one |
| Bounded.NextPreviousInverse | src/shared/display/log_tabs.rs:28-43 | next and previous undo each other on every valid index |
| Bounded.NextTimesAdvances | src/shared/display/log_tabs.rs:28-32 | `k` steps forward without wrapping land at `i + k` |
| Bounded.NextTimesCompose | src/shared/display/log_tabs.rs:28-32 | `a` steps then `b` steps equal `a + b` steps |
| Bounded.NextCycle | src/shared/display/log_tabs.rs:28-32 | `n` steps forward over `n` tabs return to the start |
| SharedLogView.MaxScroll | src/shared/display/log_view.rs:117-119 | the bottom scroll position is the last line's index, or 0 for an empty view |
| SharedLogView.LogView.constructor | src/shared/display/log_view.rs:48-57 | a new view is empty, at position 0, in follow mode |
| SharedLogView.LogView.AddLog | src/shared/display/log_view.rs:59-81 | the entry is appended and the oldest dropped at capacity; the parse cache gets an unparsed slot and keeps the deque's length; in follow mode the view moves to the bottom, otherwise the position is kept |
| SharedLogView.LogView.ScrollUp | src/shared/display/log_view.rs:83-88 | moves up one line and leaves follow mode, except at the top, where nothing changes |
| SharedLogView.LogView.ScrollDown | src/shared/display/log_view.rs:90-95 | moves down one line and leaves follow mode, except at the bottom, where nothing changes |
| SharedLogView.LogView.PageUp | src/shared/display/log_view.rs:97-104 | moves up a page, saturating at 0, and leaves follow mode |
| SharedLogView.LogView.PageDown | src/shared/display/log_view.rs:106-110 | moves down a page, clamped to the bottom, and leaves follow mode |
| SharedLogView.LogView.EnableFollow | src/shared/display/log_view.rs:112-115 | follow mode on, at the bottom |
| SharedLogView.LogView.ScrollToBottom | src/shared/display/log_view.rs:117-119 | the position is the last line |
| SharedLogView.LogView.ScrollToTop | src/shared/display/log_view.rs:121-123 | the position is 0 |
| SharedLogView.LogView.GetScrollPosition | src/shared/display/log_view.rs:125-127 | the position never passes the last line |
| SharedLogView.LogView.GetLogCount | src/shared/display/log_view.rs:129-131 | the count never exceeds the capacity |
| SharedLogView.LogView.SetScrollPosition | src/shared/display/log_view.rs:133-135 | the requested position, clamped to the last line |
| SharedLogView.ScrollingScenario | src/bin/dplw.rs:274-300 | twenty lines added to a ten-line view, then scrolled to the top: two steps up stay at 0, one step down gives 1, the bottom is past 0 and the top is 0 again |
| LegacyLogView.LogView.constructor | src/log_view.rs:42-48 | a new view is empty at position 0 |
| LegacyLogView.LogView.AddLog | src/log_view.rs:50-66 | the entry is appended and the oldest dropped at capacity; the view always jumps to the bottom |
| LegacyLogView.LogView.ScrollUp | src/log_view.rs:68-72 | one line up, saturating at 0 |
| LegacyLogView.LogView.ScrollDown | src/log_view.rs:74-78 | one line down, except at the bottom |
| LegacyLogView.LogView.ScrollToBottom | src/log_view.rs:80-82 | the position is the last line |
| LegacyLogView.LogView.ScrollToTop | src/log_view.rs:84-86 | the position is 0 |
| LegacyLogView.LogView.GetScrollPosition | src/log_view.rs:88-90 | the position never passes the last line |
| SharedLogTabs.LogTabs.constructor | src/shared/display/log_tabs.rs:24-26 | the titles are kept, and the first tab is selected |
| SharedLogTabs.LogTabs.Next | src/shared/display/log_tabs.rs:28-32 | moves to the next tab, wrapping around; an empty tab list is left alone |
| SharedLogTabs.LogTabs.Previous | src/shared/display/log_tabs.rs:34-43 | moves to the previous tab, wrapping around; an empty tab list is left alone |
| SharedLogTabs.LogTabs.SetIndex | src/shared/display/log_tabs.rs:45-49 | an index in range is selected; one out of range is ignored |
| SharedLogTabs.LogTabs.GetActiveTabName | src/shared/display/log_tabs.rs:51-53 | the selected title, or `None` exactly when the index is out of range |
| LegacyLogTabs.LogTabs.constructor | src/display/log_tabs.rs:22-24 | the titles are kept, and the first tab is selected |
| LegacyLogTabs.LogTabs.Next | src/display/log_tabs.rs:26-28 | moves to the next tab with wrap-around; requires a non-empty list (the remainder by zero panics) |
| LegacyLogTabs.LogTabs.Previous | src/display/log_tabs.rs:30-36 | moves to the previous tab with wrap-around; at index 0 it requires a non-empty list (the subtraction underflows) |
| LegacyLogTabs.LogTabs.SetIndex | src/display/log_tabs.rs:38-42 | an index in range is selected; one out of range is ignored |
| LegacyLogTabs.LogTabs.GetActive | src/display/log_tabs.rs:44-46 | the selected title, or `None` exactly when the index is out of range |
| Modes.DisplayName | src/dprs/modes/handler.rs:18-25 | each mode's status-bar name is an upper-case word of at least six letters |
| Modes.DisplayNameInjective | src/dprs/modes/handler.rs:18-25 | different modes show different names |
| Modes.HalfOpen | src/dprs/modes/handler.rs:54-56 | the integers from `lo` up to, and not including, `hi` |
| Modes.Range | src/dprs/modes/handler.rs:47-57 | the indices between the two ends inclusive, in either order |
| Modes.VisualSelection.constructor | src/dprs/modes/handler.rs:36-45 | a selection starts and ends at the start index and holds just that index |
| Modes.VisualSelection.ExtendTo | src/dprs/modes/handler.rs:47-57 | the current end moves to the index, and the selected set becomes every index between the start and the new end |
| Modes.VisualSelection.IsSelected | src/dprs/modes/handler.rs:59-61 | an index is selected exactly when it lies between the start and the current end, in either order |
| Modes.InsertAt | src/dprs/modes/handler.rs:139-145 | typing puts the character at the cursor and grows the line by one |
| Modes.RemoveAt | src/dprs/modes/handler.rs:147-160 | erasing shortens the line by one |
| Modes.RemoveInserted | src/dprs/modes/handler.rs:139-160 | erasing a character just typed restores the line |
| Modes.AddedToHistoryOk | src/dprs/modes/handler.rs:94-101 | adding keeps the history free of empty and duplicate entries and at most 100 long; a new non-empty command becomes the newest entry; a known one is not added again |
| Modes.Navigate | src/dprs/modes/handler.rs:103-135 | browsing the history always leaves the index inside the history |
| Modes.NavigateShowsEntry | src/dprs/modes/handler.rs:103-135 | whenever browsing moves to another entry, the line shows that entry |
| Modes.UpThenDown | src/dprs/modes/handler.rs:103-135 | one step up followed by one step down returns to the same entry, or to an empty line when browsing had not started |
| Modes.CommandState.constructor | src/dprs/modes/handler.rs:79-86 | an empty line, the cursor at 0, no history and no history index |
| Modes.CommandState.Clear | src/dprs/modes/handler.rs:88-92 | the line, the cursor and the history index are reset; the history is kept |
| Modes.CommandState.AddToHistory | src/dprs/modes/handler.rs:94-101 | the history becomes the added history, which stays well formed |
| Modes.CommandState.NavigateHistory | src/dprs/modes/handler.rs:103-135 | the index and the line move as `Navigate` says, and the cursor goes to the end of the line whenever there is a history |
| Modes.CommandState.HandleKey | src/dprs/modes/handler.rs:137-194 | for every key: a plain character is inserted at the cursor; Backspace and Delete erase around the cursor when there is something to erase; the arrow keys, Home and End move the cursor within the line; Up and Down browse the history and, when there is one, put the cursor at the end of the line; Ctrl+character and other keys are not handled and change nothing |
| Modes.NextMatchIndex | src/dprs/modes/handler.rs:236-258 | the next current match is always a valid match index |
| Modes.NextMatchInverse | src/dprs/modes/handler.rs:236-258 | a forward step and a backward step undo each other |
| Modes.SearchState.constructor | src/dprs/modes/handler.rs:213-221 | an empty query searching forward, with no matches and no current match |
| Modes.SearchState.Clear | src/dprs/modes/handler.rs:223-227 | the query, the matches and the current match are cleared |
| Modes.SearchState.SetQuery | src/dprs/modes/handler.rs:229-234 | the query and its direction are stored, and the previous matches are dropped |
| Modes.SearchState.NextMatch | src/dprs/modes/handler.rs:236-258 | with no matches nothing changes; otherwise the current match moves one step in the search direction, cyclically, and the row of that match is returned |
| Modes.SearchState.UpdateMatches | src/dprs/modes/handler.rs:260-267 | the matches are replaced; the first becomes current if none was, an existing current match is kept, and no matches means no current match |
| Modes.ConfirmedSearchScenario | src/dprs/modes/handler.rs:229-267 | a forward search that finds two rows and then takes one step lands on the second row |
| AppState.ToggledRecent | src/dprs/app/state_machine.rs:770-782 | toggling "recent" switches to the recent list from any other list, and from the recent list back to the running list |
| AppState.ToggledAll | src/dprs/app/state_machine.rs:785-797 | toggling "all" switches to the full list from any other list, and from the full list back to the running list |
| AppState.FormatIpAddresses | src/dprs/app/state_machine.rs:156-173 | the result is empty exactly when the field has no addresses; one to three addresses are all shown, joined by `, `; with more than three addresses, the first three are shown joined by `, `, followed by `, ... (+n)` where n is how many more there are |
| AppState.IpTokensClean | src/dprs/app/state_machine.rs:158-162 | every address taken from the field is non-empty and free of whitespace, commas and spaces |
| AppState.TrimmedPieceClean | src/dprs/app/state_machine.rs:158-162 | a non-blank piece free of commas and spaces trims to a clean address |
| AppState.IpTokensOfJoin | src/dprs/app/state_machine.rs:158-169 | splitting a `, `-joined list of clean addresses gives back the same list (split and join are inverse) |
| AppState.IpTokens | src/dprs/app/state_machine.rs:157-162 | the addresses of an IP field are non-empty, and there are no more of them than pieces between commas and spaces |
| AppState.FormatIpIdempotent | src/dprs/app/state_machine.rs:156-173 | for at most three addresses, formatting a formatted field changes nothing |
| AppState.MatchingIndicesSpec | src/dprs/app/state_machine.rs:416-443 | the filter's index list holds exactly the positions of the containers whose lower-cased name, image or status contains the query; the indices are in range and strictly ascending |
| AppState.MatchingIndices | src/dprs/app/state_machine.rs:416-443 | the filter never yields more indices than there are containers |
| AppState.NewIndicesSpec | src/dprs/app/state_machine.rs:322-344 | the new-container indices are exactly the positions of containers whose names were not listed before, in range and ascending |
| AppState.NewIndices | src/dprs/app/state_machine.rs:322-344 | never more new-container indices than containers |
| AppState.Pick | src/dprs/app/state_machine.rs:445-455 | the displayed containers are the containers at the filter's valid indices, in index order; with all indices valid, one per index |
| AppState.PsArgs | src/dprs/app/state_machine.rs:277-299 | every listing command is a `ps` with the four-column format last |
| AppState.StatsOf | src/dprs/app/state_machine.rs:325-328 | cached statistics when the container has them, else `N/A` for both |
| AppState.ParseContainerLine | src/dprs/app/state_machine.rs:316-347 | a line yields a container exactly when it has at least four bar-separated fields; the name has no bar, and the address and compose project wait for the metadata |
| AppState.ParseContainerLineExact | src/dprs/app/state_machine.rs:316-347 | `name|image|status|ports` yields exactly those four fields |
| AppState.ParsedSnoc | src/dprs/app/state_machine.rs:315-347 | parsing one more line appends its container, when it has one, to the list so far |
| AppState.Parsed | src/dprs/app/state_machine.rs:315-347 | at most one container per output line |
| AppState.NewIndicesSnoc | src/dprs/app/state_machine.rs:343-345 | one more container extends the new-container indices by its position exactly when its name is new |
| AppState.WithMetadata | src/dprs/app/state_machine.rs:350-363 | metadata fills in a container's address and project when it has some, and never changes the listed columns; a container without metadata is unchanged |
| AppState.AllWithMetadata | src/dprs/app/state_machine.rs:352-362 | every row gets its own metadata, and the rows keep their number, order and names |
| AppState.Rows | src/dprs/app/state_machine.rs:315-363 | one row per parsed line, with the parsed names, whatever metadata is found |
| AppState.Fetched | src/dprs/app/state_machine.rs:301-313 | a listing that fails to run or exits with failure leaves no containers |
| AppState.SelectionAfterRefresh | src/dprs/app/state_machine.rs:375-385 | after a refresh, an empty list has no selection; otherwise the selection is a valid row, and a selection that was still valid is kept |
| AppState.NamePrefix | src/dprs/app/state_machine.rs:576-576 | a name's word prefix is the part before its first `-` |
| AppState.SplitFirstPiece | src/dprs/app/state_machine.rs:576-576 | the first piece of a split is a prefix of the text and holds no separator |
| AppState.NextWordStart | src/dprs/app/state_machine.rs:578-589 | the first later row whose prefix differs from the current one; none means every later row shares the prefix |
| AppState.PreviousWordStart | src/dprs/app/state_machine.rs:612-623 | the nearest earlier row whose prefix differs from the current one; none means every earlier row shares it |
| AppState.WordNextTarget | src/dprs/app/state_machine.rs:578-595 | the word jump lands on a later row whose prefix differs from the current one, or on the last row when no later row has a different prefix |
| AppState.WordPreviousTarget | src/dprs/app/state_machine.rs:612-629 | the backward word jump lands on an earlier row whose prefix differs from the current one, or on the first row when no earlier row has a different prefix |
| AppState.AppState.constructor | src/dprs/app/state_machine.rs:176-212 | no containers, the first row selected, the running list, no filter, normal mode, no visual selection |
| AppState.AppState.Displayed | src/dprs/app/state_machine.rs:445-455 | with no filter, all containers; always drawn from the containers |
| AppState.AppState.DisplayedCount | src/dprs/app/state_machine.rs:457-467 | outside compose view, the number of displayed containers |
| AppState.AppState.SelectedContainer | src/dprs/app/state_machine.rs:254-267 | the selected displayed container exactly when the selection is within the displayed rows |
| AppState.AppState.SelectBoth | src/dprs/app/state_machine.rs:230-231 | the list and the table select the same row |
| AppState.AppState.SelectAt | src/dprs/app/state_machine.rs:510-519 | selects a row and moves the visual selection's cursor to it; the visual anchor stays |
| AppState.AppState.Next | src/dprs/app/state_machine.rs:214-232 | with rows displayed, the selection becomes a valid row: the next row, wrapping from the last to the first, or the first when nothing was selected, or the first when a stale selection is at or past the count; with no rows nothing changes |
| AppState.AppState.Previous | src/dprs/app/state_machine.rs:234-252 | with rows displayed, the selection moves back one row, wrapping from the first to the last; no selection goes to the first row; with no rows nothing changes |
| AppState.AppState.UpdateFilter | src/dprs/app/state_machine.rs:402-405 | stores the filter text and applies it |
| AppState.AppState.ApplyFilter | src/dprs/app/state_machine.rs:416-443 | an empty filter clears the index list and keeps the selection; otherwise the index list is the matching rows, and the first match is selected, or nothing when no row matches |
| AppState.AppState.ClearFilter | src/dprs/app/state_machine.rs:407-414 | the filter is gone, and the first row is selected when there is one |
| AppState.AppState.GoToFirst | src/dprs/app/state_machine.rs:510-519 | the first row, which the visual cursor follows while the visual anchor stays; nothing changes with no rows |
| AppState.AppState.GoToLast | src/dprs/app/state_machine.rs:521-531 | the last row, which the visual cursor follows while the visual anchor stays; nothing changes with no rows |
| AppState.AppState.HalfPageUp | src/dprs/app/state_machine.rs:533-547 | up by half the row count, saturating at the first row; the visual cursor follows and the visual anchor stays; nothing changes with no rows or no selection |
| AppState.AppState.HalfPageDown | src/dprs/app/state_machine.rs:549-563 | down by half the row count, clamped to the last row; the visual cursor follows and the visual anchor stays; nothing changes with no rows or no selection |
| AppState.AppState.FindNextWord | src/dprs/app/state_machine.rs:578-589 | the loop finds the first later row with a different prefix |
| AppState.AppState.FindPreviousWord | src/dprs/app/state_machine.rs:612-623 | the loop finds the nearest earlier row with a different prefix |
| AppState.AppState.WordNext | src/dprs/app/state_machine.rs:565-597 | jumps to the next row with a different name prefix, or to the last row when there is none; the visual cursor lands on the new row, also when it is the old one, and the visual anchor stays; a stale selection is left alone |
| AppState.AppState.WordPrevious | src/dprs/app/state_machine.rs:599-631 | jumps to the previous row with a different name prefix, or to the first row when there is none; the visual cursor lands on the new row, also when it is the old one, and the visual anchor stays; a stale selection is left alone |
| AppState.AppState.GetSelectedIndices | src/dprs/app/state_machine.rs:633-648 | in visual mode, the selected indices in ascending order; otherwise the single selected row, or none |
| AppState.AppState.EnterVisualMode | src/dprs/app/state_machine.rs:480-485 | with a selected row, visual mode starts there and selects just that row; without one, nothing changes |
| AppState.AppState.NextSearchResult | src/dprs/app/state_machine.rs:691-696 | the current match steps in the search direction, and the row of that match is selected |
| AppState.AppState.PreviousSearchResult | src/dprs/app/state_machine.rs:698-705 | the current match steps backwards and the direction is forward afterwards |
| AppState.AppState.RefreshContainers | src/dprs/app/state_machine.rs:269-388 | a listing that cannot run, or that fails, is an error with its message; the containers and the new-container indices are then empty, and the selection and the remembered names are kept. Otherwise the containers are the parsed rows, the new-container indices are the rows whose names are new, the previous names are recorded, and the selection is reset as `SelectionAfterRefresh` says |
| AppState.AppState.LoadRows | src/dprs/app/state_machine.rs:315-385 | after a successful listing, the rows are the parsed lines with their metadata; the new-row indices are the rows whose names were not listed before; the names are remembered for the next refresh; and the selection follows the refresh rules of `SelectionAfterRefresh` |
| AppState.AppState.ReadRows | src/dprs/app/state_machine.rs:315-363 | the rows are the parsed lines with their metadata applied, and the new-row indices are the positions of names not listed before |
| AppState.AppState.ParseLine | src/dprs/app/state_machine.rs:316-345 | a well-formed line appends its container, and the container's position is appended to the new-row indices exactly when its name is new; a malformed line changes nothing |
| AppState.AppState.ParseOutput | src/dprs/app/state_machine.rs:315-347 | the parsing loop builds exactly the parsed rows and the new-container indices |
| AppState.AppState.ApplyMetadata | src/dprs/app/state_machine.rs:352-362 | every container receives its metadata, in place |
| AppState.AppState.RefreshFromTop | src/dprs/app/state_machine.rs:775-780 | the reload after a filter change, ignoring its error, then the reset of the selection: on success the containers are the parsed rows, the new-container indices mark the names not listed before, the names are remembered, and the first row is selected when there are rows; on failure the list and the new-container indices are empty, and the selection and the remembered names are kept |
| AppState.AppState.ToggleRecent | src/dprs/app/state_machine.rs:770-782 | switches the list and refreshes, ignoring a refresh error. On success the containers are the parsed rows, the new-container indices mark the names not listed before, the names are remembered, and the first row is selected when there are rows, none otherwise. On failure the list and the new-container indices are empty, and the selection and the remembered names are kept |
| AppState.AppState.ToggleAll | src/dprs/app/state_machine.rs:785-797 | switches the list and refreshes, ignoring a refresh error. On success the containers are the parsed rows, the new-container indices mark the names not listed before, the names are remembered, and the first row is selected when there are rows, none otherwise. On failure the list and the new-container indices are empty, and the selection and the remembered names are kept |
| AppState.NameSet | src/dprs/app/state_machine.rs:270-272 | the set of names of the listed containers |
| AppState.NewIndicesByName | src/dprs/app/state_machine.rs:343-363 | filling in metadata does not change which rows count as new |
| LegacyAppState.IpArgs | src/app/state_machine.rs:162-169 | the address query is a four-argument `inspect` ending with the container name |
| LegacyAppState.LoadRows | src/app/state_machine.rs:153-190 | the listing yields at most one row per line |
| LegacyAppState.ReadLineOutcome | src/app/state_machine.rs:154-185 | a line with fewer than four fields is skipped, and only such a line is; a row read from a line carries the line's first field as its name and an address with no whitespace at either end |
| LegacyAppState.LoadRowsStep | src/app/state_machine.rs:153-190 | reading the lines from `k` on is reading line `k` and then, unless it failed, the lines after it |
| LegacyAppState.LoadedRowsAreClean | src/app/state_machine.rs:153-190 | every row read has a name without bars and an address with no whitespace at either end |
| LegacyAppState.LoadRowsComplete | src/app/state_machine.rs:153-190 | when every address query could run, there is one row for each line with at least four fields |
| LegacyAppState.CountRows | src/app/state_machine.rs:154-155 | the number of lines with at least four fields, never more than the lines |
| LegacyAppState.MatchingIndicesSpec | src/app/state_machine.rs:231-257 | the filter's index list holds exactly the positions of the containers whose lower-cased name, image or status contains the query, in ascending order |
| LegacyAppState.AppState.constructor | src/app/state_machine.rs:52-68 | no containers and no filter, with the first row selected |
| LegacyAppState.AppState.Displayed | src/app/state_machine.rs:259-269 | with no filter, all containers; always drawn from the containers |
| LegacyAppState.AppState.DisplayedCount | src/app/state_machine.rs:271-277 | with no filter, the container count; with a valid index list, the number of displayed containers |
| LegacyAppState.AppState.SelectedContainer | src/app/state_machine.rs:110-122 | the selected displayed container exactly when the selection is within the displayed rows |
| LegacyAppState.AppState.SelectBoth | src/app/state_machine.rs:86-87 | the list and the table select the same row |
| LegacyAppState.AppState.Next | src/app/state_machine.rs:70-88 | with rows displayed, the next row, wrapping from the last to the first, or the first when nothing was selected, or the first when a stale selection is at or past the count; with no rows nothing changes |
| LegacyAppState.AppState.Previous | src/app/state_machine.rs:90-108 | with rows displayed, the previous row, wrapping from the first to the last; no selection goes to the first row; with no rows nothing changes |
| LegacyAppState.AppState.RefreshContainers | src/app/state_machine.rs:124-203 | a listing that cannot run, or that fails, is an error with its message, leaving no containers and the selection as it was. Otherwise the rows are read up to the first address query that cannot run; such a query is an error that keeps the rows read so far and the selection. A complete read resets the selection as in the current version |
| LegacyAppState.AppState.LoadListing | src/app/state_machine.rs:153-190 | the reading loop builds exactly the rows of `LoadRows` and reports the same failure |
| LegacyAppState.AppState.ReadLine | src/app/state_machine.rs:154-185 | one pass of the reading loop gives exactly the outcome `ReadLineOutcome` describes |
| LegacyAppState.AppState.UpdateFilter | src/app/state_machine.rs:217-220 | stores the filter text and applies it |
| LegacyAppState.AppState.ApplyFilter | src/app/state_machine.rs:231-257 | an empty filter clears the index list and keeps the selection; otherwise the index list is the matching rows, and the first match is selected, or nothing when no row matches |
| LegacyAppState.AppState.ClearFilter | src/app/state_machine.rs:222-229 | the filter is gone, and the first row is selected when there is one |
| Commands.RecordedSpec | src/dprs/commands/commands.rs:302-309 | recording keeps the history free of duplicates and at most 100 long, and the command is in it afterwards; a new command is appended as the newest entry, and at 100 entries the oldest is dropped; a known command leaves the history as it was |
| Commands.FilterBy | src/dprs/commands/commands.rs:271-277 | a filtered list is never longer than the list |
| Commands.FilterBySpec | src/dprs/commands/commands.rs:271-277 | a container is kept exactly when it is in the list and satisfies the test |
| Commands.FilterByAgree | src/dprs/commands/commands.rs:252-277 | two tests that agree on every container keep the same containers |
| Commands.ResolveContainerSpec | src/dprs/commands/commands.rs:247-278 | a container spec resolves to some of the displayed containers |
| Commands.ResolvePlainSpec | src/dprs/commands/commands.rs:271-277 | a spec that is neither `/regex/` nor a wildcard names exactly the containers whose name starts with it (an exact name included), in display order |
| Commands.DockerOperation | src/dprs/commands/commands.rs:280-300 | an operation on one container succeeds exactly when `docker <operation> <name>` runs and exits successfully; otherwise it is an error |
| Commands.Applied | src/dprs/commands/commands.rs:116-123 | the inner loop adds one success or one error per matched container and never removes what was collected |
| Commands.Outcomes | src/dprs/commands/commands.rs:108-124 | every argument contributes at least one success or error |
| Commands.Aggregate | src/dprs/commands/commands.rs:127-133 | the result is a success exactly when there were no errors and at least one success |
| Commands.ContainerCommandResult | src/dprs/commands/commands.rs:93-136 | stop, start and restart always answer with a success or an error |
| Commands.ArgumentsAlwaysReport | src/dprs/commands/commands.rs:108-135 | with arguments, "No operations performed" only ever comes back when there were errors, so it is unreachable |
| Commands.UnmatchedArgumentFails | src/dprs/commands/commands.rs:111-114 | an argument that matches no displayed container makes the whole command an error |
| Commands.OutcomesKeepErrors | src/dprs/commands/commands.rs:108-124 | an unmatched argument leaves an error in the collected errors |
| Commands.TargetName | src/dprs/commands/commands.rs:138-160 | without arguments there is a target exactly when a container is selected |
| Commands.LogsResult | src/dprs/commands/commands.rs:138-169 | `logs` without a target reports why; otherwise it answers with a success or an error |
| Commands.InspectResult | src/dprs/commands/commands.rs:196-227 | `inspect` without a target reports why; otherwise it answers with a success or an error |
| Commands.ExecResult | src/dprs/commands/commands.rs:171-194 | `exec` without arguments is the usage error |
| Commands.ExecDefaultsToBash | src/dprs/commands/commands.rs:180-190 | with only a container, `exec` describes running `/bin/bash` in the first matching container |
| Commands.SetResult | src/dprs/commands/commands.rs:229-240 | `set` fails exactly for a setting other than `tabular` |
| Commands.NavigationInRange | src/dprs/commands/commands.rs:50-64 | every navigation result points at a displayed row |
| Commands.LineNumberJump | src/dprs/commands/commands.rs:59-65 | `:n` jumps to row n-1 exactly when 1 ≤ n ≤ the row count, and is otherwise "Invalid line number: n" |
| Commands.LastRowJump | src/dprs/commands/commands.rs:51-57 | `:$` jumps to the last row, or reports that there are no containers |
| Commands.UnknownCommand | src/dprs/commands/commands.rs:75-89 | a word that is not a command, not a number and not `$` is "Unknown command: word" |
| Commands.Dispatch | src/dprs/commands/commands.rs:46-90 | a trimmed, non-empty command line quits exactly when it is `q` or `quit`; a jump always lands on a displayed row; a reload answers with the reloaded configuration |
| Commands.CommandExecutor.constructor | src/dprs/commands/commands.rs:31-35 | an empty history |
| Commands.CommandExecutor.GetHistory | src/dprs/commands/commands.rs:311-313 | the recorded history |
| Commands.CommandExecutor.AddToHistory | src/dprs/commands/commands.rs:302-309 | the history becomes the recorded history |
| Commands.CommandExecutor.Execute | src/dprs/commands/commands.rs:37-91 | a blank line is "Empty command" and is not recorded; any other line is recorded trimmed, and its result is its meaning as a command |
| Commands.CommandExecutor.ExecuteContainerCommand | src/dprs/commands/commands.rs:93-136 | the loops over the arguments and the containers each names give the aggregated result |
| Config.DefaultConfig | src/shared/config/config.rs:60-212 | the default configuration has auto refresh off, a history of 100, tabular mode off, the given effects flag, the `default` theme and the default colour table |
| Config.Bindings | src/shared/config/config.rs:270-275 | only the modes `normal`, `visual` and `command` have a binding table |
| Config.GetKeyBinding | src/shared/config/config.rs:269-278 | a binding is found exactly when the mode has a table, the key is in it and its action is non-empty, and then it is that action |
| Config.DefaultBindingLookups | src/shared/config/config.rs:60-118 | with the defaults, `j` selects the next row in normal mode and extends the selection in visual mode |
| Config.DefaultUnboundLookups | src/shared/config/config.rs:60-118 | with the defaults, visual mode does not bind `q`, command mode binds Enter to running the command, and a mode without a table has no bindings |
| Config.UnmappedKey | src/shared/config/config.rs:277-277 | a key bound to the empty action counts as unbound |
| Config.AutoRefreshInterval | src/shared/config/config.rs:280-286 | the interval is zero exactly when auto refresh is off |
| Config.ShouldAutoRefresh | src/shared/config/config.rs:280-282 | auto refresh is on exactly when the configured interval is not zero |
| Config.DefaultHasNoAutoRefresh | src/shared/config/config.rs:191-197 | by default there is no auto refresh |
| Config.HexDigitValue | src/shared/config/config.rs:298-300 | a hexadecimal digit has a value below 16 |
| Config.ParseHexByte | src/shared/config/config.rs:298-300 | two characters parse as a byte, below 256, in base 16 |
| Config.HexToColor | src/shared/config/config.rs:296-305 | a colour comes back exactly when the text is seven characters, starts with `#`, and all three byte fields parse; it is then an RGB colour with components below 256 |
| Config.HexChar | src/shared/config/config.rs:298-300 | each digit value has a character that parses back to it |
| Config.HexString | src/shared/config/config.rs:296-305 | a written colour is seven characters starting with `#` |
| Config.HexRoundTrip | src/shared/config/config.rs:296-305 | parsing a written colour gives that colour back, for every colour |
| Config.HexDigitCaseInsensitive | src/shared/config/config.rs:298-300 | upper- and lower-case hexadecimal digits have the same value |
| Config.HexToColorCaseInsensitive | src/shared/config/config.rs:296-305 | colour parsing ignores letter case |
| Config.ParseHexByteCaseInsensitive | src/shared/config/config.rs:298-300 | a two-character byte field parses to the same value whatever the letter case |
| Config.HexToColorExamples | src/shared/config/config.rs:296-305 | black, white and red parse in any letter case; text that is not `#` plus six characters is rejected; and, following Rust's byte parser, `#+F+F+F` is accepted as (15, 15, 15) |
| Config.GetColor | src/shared/config/config.rs:288-294 | a configured colour that parses is used; a missing key or an unparsable colour gives white |
| Config.DefaultBackground | src/shared/config/config.rs:157-157 | the default main background is black |
| Config.DefaultUnknownColor | src/shared/config/config.rs:288-294 | an unknown colour name is white |
| Config.WithDefaultsSpec | src/shared/config/config.rs:223-226 | after merging, the keys are those loaded plus the defaults; loaded colours win; a default fills only a missing key |
| Config.WithDefaults | src/shared/config/config.rs:223-226 | merging keeps every loaded colour and adds every default key |
| Config.WithDefaultsIdempotent | src/shared/config/config.rs:223-226 | merging the defaults twice is the same as merging them once |
| Config.MergeDefaultColors | src/shared/config/config.rs:223-226 | the merge loop yields the merged table |
| Config.Load | src/shared/config/config.rs:216-246 | a missing or unparsable file gives the defaults; a parsed file is kept, with the default colours merged in |
| Config.LoadedHasDefaultKeys | src/shared/config/config.rs:223-226 | every default colour name is present after loading |
| Config.KeyName | src/shared/config/config.rs:324-339 | every named key has a non-empty name |
| Config.KeyEventToString | src/shared/config/config.rs:308-342 | the key's name comes after the `Ctrl+`, `Alt+` and `Shift+` prefixes, in that order; a key without a name is `Unknown` |
| Config.AppendKeyName | src/shared/config/config.rs:324-341 | a named key gives the prefix followed by its name; a key without a name gives nothing |
| Config.StripPrefix | src/shared/config/config.rs:311-319 | the inverse of one prefix push: when the prefix is there it is removed, and otherwise the text is unchanged |
| Config.StripPrefixStep | src/shared/config/config.rs:311-319 | stripping undoes the optional push of a prefix when what follows cannot be mistaken for it |
| Config.LongNameStart | src/shared/config/config.rs:324-339 | no multi-character key name starts with C, A or S, so names never look like modifier prefixes |
| Config.KeyCodeOfName | src/shared/config/config.rs:324-339 | every key name reads back as its key |
| Config.KeyCodeOfFunctionKeyName | src/shared/config/config.rs:336-336 | `F` followed by a number below 256 reads back as that function key |
| Config.StripModifiersOf | src/shared/config/config.rs:311-319 | the modifier prefixes written before a name that cannot be mistaken for a prefix are read back, and so is the name |
| Config.KeyStringRoundTrip | src/shared/config/config.rs:308-342 | reading a key's string gives the key back, modifiers included, so no two named keys share a string |
| Config.KeyStringInjective | src/shared/config/config.rs:308-342 | different named key events have different strings |
| ComposeView.ComposeProject.ContainerCount | src/dprs/display/compose_view.rs:26-28 | the count is the number of container names the project lists, so zero exactly when it lists none |
| ComposeView.InspectArgs | src/dprs/display/compose_view.rs:38-45 | the label query is a four-argument `inspect` ending with the container name |
| ComposeView.LabelsOf | src/dprs/display/compose_view.rs:47-58 | labels are read only from a successful query, and both the directory and the project are non-empty and free of bars |
| ComposeView.LabelsOfExact | src/dprs/display/compose_view.rs:47-58 | the trimmed output `dir|project` with both parts non-empty yields exactly that pair |
| ComposeView.GroupKeys | src/dprs/display/compose_view.rs:34-70 | the grouping map has one entry per distinct working directory, and the insertion order records each key exactly once |
| ComposeView.GroupStep | src/dprs/display/compose_view.rs:56-66 | one more container creates the group of a directory, named after its project label, or appends its name to that group, exactly when it is labelled with that directory; other groups are unchanged |
| ComposeView.GroupKeyFromLabelled | src/dprs/display/compose_view.rs:56-66 | every labelled container's working directory becomes a project |
| ComposeView.LabelledFromGroupKey | src/dprs/display/compose_view.rs:59-63 | every project comes from a labelled container, and its name is the project label of the first container seen in that directory |
| ComposeView.GroupMembers | src/dprs/display/compose_view.rs:59-66 | a project's working directory is its key, and its containers are exactly the labelled containers of that directory, in list order |
| ComposeView.NoGroupNoLabelled | src/dprs/display/compose_view.rs:56-66 | a directory without a group has no labelled container |
| ComposeView.MembersEmpty | src/dprs/display/compose_view.rs:56-66 | a directory with no labelled container has no members |
| ComposeView.InsertByName | src/dprs/display/compose_view.rs:74-74 | inserting adds exactly that project (one more element, the rest kept as a multiset), at the front or after the first element |
| ComposeView.InsertKeepsSorted | src/dprs/display/compose_view.rs:74-74 | inserting into a list sorted by project name keeps it sorted |
| ComposeView.SortByName | src/dprs/display/compose_view.rs:74-74 | the sorted list is ordered by project name and is a permutation of the input |
| ComposeView.GroupList | src/dprs/display/compose_view.rs:72-72 | the map's values, one per working directory |
| ComposeView.Projects | src/dprs/display/compose_view.rs:72-75 | the result is sorted by project name and is a permutation of the grouped projects |
| ComposeView.ProjectsAreGroups | src/dprs/display/compose_view.rs:31-76 | every project lists exactly the containers labelled with its directory, never none, and no two projects share a working directory |
| ComposeView.MembersCount | src/dprs/display/compose_view.rs:59-66 | the names collected for a directory are as many as the containers labelled with it |
| ComposeView.ProjectContainerCount | src/dprs/display/compose_view.rs:26-76 | each listed project's count is the number of containers labelled with its working directory, and at least one |
| ComposeView.LabelledContainerListed | src/dprs/display/compose_view.rs:31-76 | every labelled container appears in the project of its working directory |
| ComposeView.DirsAreGroupKeys | src/dprs/display/compose_view.rs:56-66 | the labelled working directories are exactly the grouping's keys |
| ComposeView.ProjectCountIsLength | src/dprs/app/state_machine.rs:457-467 | the compose-view row count, one per labelled working directory, is the length of the project list |
| ComposeView.MembersHasLabelled | src/dprs/display/compose_view.rs:59-66 | a labelled container is a member of its directory |
| ComposeView.GroupListDistinct | src/dprs/display/compose_view.rs:59-65 | the grouped projects have distinct working directories |
| ComposeView.DistinctDirsKept | src/dprs/display/compose_view.rs:72-75 | sorting keeps the working directories distinct |
| ComposeView.GroupContainersByProject | src/dprs/display/compose_view.rs:31-76 | the grouping loop returns exactly the sorted projects |
| ContextMenu.EnabledConditionCases | src/dprs/display/context_menu.rs:159-165 | `running` and `stopped` always disagree on a container, and any other condition, such as `paused`, always holds |
| ContextMenu.LabelArgs | src/dprs/display/context_menu.rs:168-175 | the label query is a four-argument `inspect` ending with the container name |
| ContextMenu.PaddedExpectationNeverMatches | src/dprs/display/context_menu.rs:177-183 | the label value is compared after trimming, so an expected value with whitespace at either end never matches |
| ContextMenu.NoneFiresRejects | src/dprs/display/context_menu.rs:107-156 | an action with matchers, none of which fires, is not offered |
| ContextMenu.FirstFiringDecides | src/dprs/display/context_menu.rs:107-156 | the first matcher that fires decides, through the enabled condition, and later matchers are never consulted |
| ContextMenu.MatchesActionCases | src/dprs/display/context_menu.rs:96-105 | an action without matchers or condition is always offered; one without matchers but with a condition needs a container; a compose-project matcher alone fires exactly when a project is targeted |
| ContextMenu.BadPatternNeverFires | src/dprs/display/context_menu.rs:110-131 | a name or image pattern that does not compile never fires |
| ContextMenu.Available | src/dprs/display/context_menu.rs:53-59 | no more actions are offered than are configured |
| ContextMenu.AvailableSpec | src/dprs/display/context_menu.rs:53-59 | an action is offered exactly when it is configured and matches the target |
| ContextMenu.MatchesAction | src/dprs/display/context_menu.rs:90-105 | an action without matchers or condition is always offered; one without matchers but with a condition is never offered without a container |
| ContextMenu.CheckEnabledCondition | src/dprs/display/context_menu.rs:159-165 | only `running` and `stopped` can fail; `running` holds exactly when the lower-cased status contains "up", and `stopped` exactly when it does not |
| ContextMenu.CheckContainerLabel | src/dprs/display/context_menu.rs:167-183 | a label check holds only when docker's query succeeds, and an expected value with outer whitespace never matches |
| ContextMenu.NoBraceNoPlaceholder | src/dprs/display/context_menu.rs:195-208 | text without `{` contains no placeholder |
| ContextMenu.OtherPlaceholderAbsent | src/dprs/display/context_menu.rs:195-208 | a placeholder is not found inside a different one |
| ContextMenu.NoTargetKeepsCommand | src/dprs/display/context_menu.rs:189-215 | with neither a container nor a project, the command runs as written |
| ContextMenu.ContainerStageKeeps | src/dprs/display/context_menu.rs:194-198 | the container substitutions leave text without placeholders as it is |
| ContextMenu.ProjectStageKeeps | src/dprs/display/context_menu.rs:200-209 | the project substitutions leave text without placeholders as it is |
| ContextMenu.PlainCommandKept | src/dprs/display/context_menu.rs:189-215 | a command without `{` is never changed, whatever the target |
| ContextMenu.ComposeFilePlaceholder | src/dprs/display/context_menu.rs:203-205 | `{compose_file}` becomes the working directory followed by `/docker-compose.yml` |
| ContextMenu.NamePlaceholder | src/dprs/display/context_menu.rs:195-195 | `{name}` becomes the container name |
| ContextMenu.ImagePlaceholder | src/dprs/display/context_menu.rs:196-196 | `{image}` becomes the container's image, which no later replacement touches |
| ContextMenu.IpPlaceholder | src/dprs/display/context_menu.rs:197-197 | `{ip}` becomes the container's address; the earlier `{name}` and `{image}` replacements leave it alone |
| ContextMenu.ProjectPlaceholder | src/dprs/display/context_menu.rs:201-201 | `{project}` becomes the project name, which the later project replacements leave alone |
| ContextMenu.DirPlaceholder | src/dprs/display/context_menu.rs:202-202 | `{dir}` becomes the project's working directory |
| ContextMenu.ServicePlaceholder | src/dprs/display/context_menu.rs:206-208 | `{service}` becomes the first container listed for the project |
| ContextMenu.ServiceKeptWithoutContainers | src/dprs/display/context_menu.rs:206-208 | for a project that lists no container, `{service}` is left as written |
| ContextMenu.ContainerPlaceholdersNeedContainer | src/dprs/display/context_menu.rs:194-209 | with only a project targeted, `{name}`, `{image}` and `{ip}` are left as written |
| ContextMenu.ProjectStageSkips | src/dprs/display/context_menu.rs:200-209 | a placeholder that is not a project placeholder passes the project replacements unchanged |
| ContextMenu.ContextMenuState.constructor | src/dprs/display/context_menu.rs:36-44 | inactive, first position, no actions, no target |
| ContextMenu.ContextMenuState.Activate | src/dprs/display/context_menu.rs:46-60 | active at the first position, targeting the given container and project, offering exactly the matching actions |
| ContextMenu.ContextMenuState.Deactivate | src/dprs/display/context_menu.rs:62-68 | inactive, first position, no actions, no target |
| ContextMenu.ContextMenuState.Next | src/dprs/display/context_menu.rs:70-74 | the next action, wrapping around; nothing changes with no actions |
| ContextMenu.ContextMenuState.Previous | src/dprs/display/context_menu.rs:76-84 | the previous action, wrapping around; nothing changes with no actions |
| ContextMenu.ContextMenuState.SelectedAction | src/dprs/display/context_menu.rs:86-88 | the action at the position, or none exactly when the position is out of range |
| ContextMenu.ContextMenuState.ExecuteSelectedAction | src/dprs/display/context_menu.rs:189-215 | the selected action's command with the target's placeholders substituted; nothing without a selected action |
| ContextMenu.Substituted | src/dprs/display/context_menu.rs:189-215 | with neither a container nor a project the command is kept as written (the individual placeholders are stated by the `…Placeholder` lemmas above) |
| ContextMenu.OpenAndStep | src/dprs/display/context_menu.rs:46-74 | opening the menu and stepping once lands on the second offered action, or stays at the first when there is at most one |
| CopyIp.DigitRunSlice | src/dprs/app/actions/copy_ip.rs:60-66 | the digits read after the third dot are a slice of the input that ends at its end or at a non-digit |
| CopyIp.FirstPieceWins | src/dprs/app/actions/copy_ip.rs:40-45 | a non-blank first piece, split at commas and spaces, is the answer, trimmed |
| CopyIp.BlankGivesEmpty | src/dprs/app/actions/copy_ip.rs:37-79 | a blank address string gives the empty string |
| CopyIp.ScanOnlyAfterLeadingComma | src/dprs/app/actions/copy_ip.rs:37-47 | the character scan is reached only for a blank input or one whose trimmed form starts with a comma |
| CopyIp.UnseparatedInputWhole | src/dprs/app/actions/copy_ip.rs:37-45 | a non-blank input without commas or spaces is returned whole, trimmed |
| CopyIp.ConcatenatedAddressesWhole | src/dprs/app/actions/copy_ip.rs:37-45 | two addresses written together without a separator, as docker prints them for two networks, are returned whole and not split, by the extraction as written and by the corrected one |
| CopyIp.ScanCollectsIpChars | src/dprs/app/actions/copy_ip.rs:51-73 | the scan only collects digits, dots and colons |
| CopyIp.ScanExtendsResult | src/dprs/app/actions/copy_ip.rs:48-73 | the scan only extends what it has collected: its result starts with the characters collected so far |
| CopyIp.Extract | src/dprs/app/actions/copy_ip.rs:35-80 | the extraction is empty exactly when the address field is blank |
| CopyIp.FirstIp | src/dprs/app/actions/copy_ip.rs:35-80 | the corrected extraction is empty exactly when the field is blank, and never has outer whitespace |
| CopyIp.FirstIpAsWritten | src/dprs/app/actions/copy_ip.rs:35-80 | the extraction as written is empty exactly when the field is blank, and never has outer whitespace |
| CopyIp.OctetCapped | src/dprs/app/actions/copy_ip/tests.rs:97-104 | cutting after the last octet keeps a prefix of the address text |
| CopyIp.FirstIpSplitConcatenated | src/dprs/app/actions/copy_ip/tests.rs:97-104 | the extraction that tells concatenated addresses apart returns a prefix of the corrected extraction |
| CopyIp.CappedAfterFullOctet | src/dprs/app/actions/copy_ip/tests.rs:97-104 | an address whose last octet has three digits is cut right after that octet, whatever follows |
| CopyIp.SplitConcatenatedGivesFirst | src/dprs/app/actions/copy_ip/tests.rs:97-104 | an address with a three-digit last octet written together with more address characters gives exactly that address, as `192.168.1.100172.17.0.2` gives `192.168.1.100` |
| CopyIp.ExtractHasNoOuterWhitespace | src/dprs/app/actions/copy_ip.rs:35-80 | the extracted address never starts or ends with whitespace |
| CopyIp.FirstIpScanIsMaximal | src/dprs/app/actions/copy_ip.rs:51-79 | with the resume point corrected, the scanned address is a slice of the trimmed input that does not stop in the middle of a number |
| CopyIp.AsWrittenDropsLastOctet | src/dprs/app/actions/copy_ip.rs:58-67 | as written, `,1.2.3.4` yields `1.2.3.`; corrected, it yields `1.2.3.4` |
| CopyIp.ReadDigits | src/dprs/app/actions/copy_ip.rs:60-66 | the loop reads exactly the run of digits starting at the given position |
| CopyIp.ScanChars | src/dprs/app/actions/copy_ip.rs:48-73 | the character loop computes the scan from the first character with nothing collected and no dots seen |
| CopyIp.ExtractFirstIpAsWritten | src/dprs/app/actions/copy_ip.rs:35-80 | the extraction as written, resuming the digit loop at the length of what was collected |
| CopyIp.ExtractFirstIp | src/dprs/app/actions/copy_ip.rs:35-80 | the corrected extraction, resuming right after the third dot, with no outer whitespace in the result |
| CopyIp.CopyIpAddress | src/dprs/app/actions/copy_ip.rs:10-31 | no selection and a selection past the end of the container list are errors with the source's messages; a clipboard failure is reported with its cause; otherwise the selected container's first address, read by the corrected extraction `FirstIp`, is returned without outer whitespace |
| Toast.NewToast | src/display/toast.rs:19-25 | a toast keeps its message, lasts the given milliseconds in nanoseconds and is stamped with the current time |
| Toast.Elapsed | src/display/toast.rs:27-29 | time since creation, never negative: zero when the clock reads earlier than the creation stamp |
| Toast.ExpiredIff | src/display/toast.rs:27-29 | a toast is expired exactly when the clock is strictly past its creation time plus its duration |
| Toast.IsExpired | src/display/toast.rs:27-29 | a toast can only be expired once the clock is past its creation time |
| Toast.ExpiryIsPermanent | src/display/toast.rs:27-29 | once expired, a toast stays expired at every later time |
| Toast.FreshToastNotExpired | src/display/toast.rs:19-29 | a new toast is not expired when created nor at the last instant of its duration, and is expired one nanosecond later |
| Toast.ToastManager.constructor | src/display/toast.rs:37-45 | a new manager shows no toast |
| Toast.ToastManager.Show | src/display/toast.rs:47-49 | the new toast replaces any current one |
| Toast.ToastManager.Clear | src/display/toast.rs:51-53 | no toast is left |
| Toast.ToastManager.CheckExpired | src/display/toast.rs:55-61 | an expired toast is removed, anything else is kept, and what is left is never expired |
| Toast.ToastManager.GetToast | src/display/toast.rs:63-65 | the current toast, if any |
| Toast.AfterCheck | src/display/toast.rs:55-61 | what survives a check is the unexpired toast, and nothing survives exactly when there was none or it had expired |
| Toast.CheckIdempotentAndMonotone | src/display/toast.rs:55-61 | checking twice at one time is checking once, and a toast that survives a later check survives every earlier one unchanged |
| Toast.ShowAndCheck | src/display/toast.rs:47-61 | a toast just shown survives every check until its duration runs out and is gone at any check after that |

## Left out

- Threads, pipes and processes. The model leaves out the reader threads, the kill supervisor, `BufReader` and join handles (src/docker_log_watcher.rs:45-111, dprs/src/docker_log_watcher.rs:35-86). A reader is a `ReaderStep` method guarded by `running`, and any interleaving of readers is any order of calls.
- LogWatcher.DockerLogWatcher.Start: always answers `Ok`. A failure to spawn `docker logs` panics inside the reader thread in the original, and that thread is not modelled.
- `InputWatcher` and the progress channel of the container list are concurrency and are not part of this model.
- Docker itself. Every docker invocation is the `Process.Docker` oracle, keyed by the argument vector. Its answers are arbitrary, so the model makes no assumption about what docker prints.
- The stats and metadata queries. `async_fetch_stats` and `batch_fetch_metadata` run docker asynchronously and compute CPU and memory percentages in floating point. Their results enter `AppState.RefreshContainers` as a stats map and an optional metadata map.
- The compose, stop, restart and stop-selected actions, the progress modal and its percentages (floating point) are not part of this model.
- Regular expressions. The context menu's name and image matchers and the `/…/` and wildcard branches of container resolution consult an oracle for compiling and matching a pattern; the `regex` crate's semantics are not modelled. `perform_search` is not part of this model.
- Rendering and layout. The renderers, tailspin colouring, ANSI parsing, line wrapping, the hotkey bars and `get_key_for_action` are not part of this model. The last depends on hash-map iteration order.
- Binaries and main loops are not part of this model.
- Configuration I/O. Reading and writing the TOML file, the configuration path and the environment are left out. `Config.Load` takes the file's text (or its absence) and a parser oracle. `default_experimental_fx` is a parameter.
- The clipboard. Creating the clipboard context (an `unwrap` that panics) is left out. Its answer to `set_contents` is a parameter of `CopyIp.CopyIpAddress`.
- Clocks. `Instant::now` is a `now` parameter in nanoseconds, and `Utc::now` in `format_started_time` is not modelled. A log entry's timestamp is likewise a parameter.
- Text. Strings are treated as ASCII, so `to_lowercase`, `trim`, byte-indexed `insert`, `remove` and slicing behave as on ASCII text. Unicode case mapping and multi-byte characters are not modelled.
- Hash-map order. Compose grouping takes projects in order of first appearance and then sorts them stably by name. In the original, the relative order of two projects with the same name comes from hash-map iteration and is unspecified. The model picks one such order.
- The context-menu action record is not part of the selected sources. Its fields (label, command, matchers, optional enabling condition) are inferred from how `context_menu.rs` uses them.
- Commands.Dispatch: `refresh` and `reload` report outcomes that are parameters, because what they do is outside the command module. The interpreter sees the container list through a snapshot (`AppView`) of the displayed rows and the selected one.
- CopyIp.CopyIpAddress: indexes the full container list by the selected row, as the original does, even when a filter is active.
- CopyIp.CopyIpAddress: returns the corrected extraction `FirstIp`, not the as-written one the original copies; the two differ only where the copy_ip.rs:60 finding applies (`,1.2.3.4` is copied as `1.2.3.` by the original and as `1.2.3.4` here). The as-written behaviour is `CopyIp.FirstIpAsWritten`.
- CopyIp.FirstIpSplitConcatenated: the correction for concatenated addresses is not used by `CopyIp.CopyIpAddress`. Cutting three digits after the third dot gives the intended address only when the last octet has three digits (`CopyIp.SplitConcatenatedGivesFirst`); `1.2.3.4172.17.0.2` would give `1.2.3.417`. Text without separators does not say where one address ends.
- LegacyLogTabs.LogTabs.Next: requires a non-empty tab list, because the original divides by zero on an empty one.
- LegacyLogTabs.LogTabs.Previous: requires a non-empty tab list or a positive index, because the original underflows otherwise.
- Modes.SearchState.NextMatch: requires that a backward step does not start more than one past the end of the match list, because the original indexes out of bounds there.
- AppState.AppState.NextSearchResult: carries the same precondition as `Modes.SearchState.NextMatch`, and `AppState.AppState.PreviousSearchResult` carries its backward counterpart.
- Integer widths. `usize` and `u64` are unbounded naturals, except in decimal parsing (`Text.ParseUsize`), which rejects values past `usize::MAX` as Rust does. No addition in the modelled code gets near overflow.

## Findings

| source | as written | input that shows it | evidently intended | confidence | as-written member | corrected member |
|---|---|---|---|---|---|---|
| src/dprs/app/actions/copy_ip.rs:60 | after the third dot, the digit loop resumes at `trimmed[result.len()..]`. That is the length of what was collected, not the position after the third dot, and the two differ whenever characters were skipped before the address | `,1.2.3.4` gives `1.2.3.` | `1.2.3.4`: the last octet is read starting right after the third dot | not executed | CopyIp.AsWrittenDropsLastOctet | CopyIp.FirstIpScanIsMaximal |
| src/dprs/app/actions/copy_ip.rs:40-45 | the first piece split at commas and spaces is returned whole when it is not blank, so addresses docker prints together without a separator come back as one string. The repository's own test `test_extract_first_ip_from_concatenated` (src/dprs/app/actions/copy_ip/tests.rs:97-104) expects the first address instead | `192.168.1.100172.17.0.2` gives `192.168.1.100172.17.0.2` | `192.168.1.100`, as the test expects: the first address ends at most three digits after its third dot | not executed | CopyIp.ConcatenatedAddressesWhole | CopyIp.SplitConcatenatedGivesFirst |
