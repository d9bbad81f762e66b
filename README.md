# mic-select in Dafny

This project models the source-listing and switching pipeline of mic-select, a
microphone switcher for desktop launchers. The pipeline exists in two parallel
copies: the `lib/` tree used by the Linux launcher, and the older `src/` tree
with its macOS client. The model covers:

- **Domain values.** An audio source, a list of sources, and the list algebra:
  - monitor filtering;
  - case-insensitive query filtering;
  - prefix truncation;
  - the emptiness test.

  It covers the `lib/` variant, whose match also looks at the description, the
  `src/` variant, which is name only, and the `src/audio` records.
- **Configuration validation.** Five range checks, applied in a fixed order.
- **Audio-tool clients.** Each tool call's outcome (exit code and output, a
  timeout, or an exception) is an input value, so each parser is a total
  function over text:
  - the `pactl list sources` block parser;
  - the `pactl list short sources` table parser;
  - the `SwitchAudioSource` one-name-per-line parser;
  - the repository parsers for sources and active streams;
  - the digit-id stream selection loop that issues `move-source-output` calls;
  - the fail-open rule, under which a failed listing is an empty list;
  - the strict error mapping of the macOS client.
- **Use cases.**
  - Listing: validate the limit, filter by the query, truncate.
  - Switching: validate the name, then call set-default, then move-streams.
  - Each client call is recorded in a returned trace.
- **Switch-script builders.** The launcher's switch script is built by splicing
  the source name into fixed shell fragments. The model proves where the name
  lands in the script, what the script starts with, and the 50-character cut of
  the notification text.
- **Launcher result selection.** The choice between a no-sources item, at most
  ten source items and a no-match item.

Loops in the source are Dafny methods with `while` loops:
- the block parser;
- the table parsers;
- the move loop;
- the repository parsers.

Each of these methods is proved equal to a specification function defined one
line at a time. The properties are proved about those functions.

Modules, one per file:

| Module | Contents |
|---|---|
| `Text` | The Python string primitives, over ASCII |
| `Seqs` | Order-preserving filters |
| `Common` / `Process` | Option and Result values; tool outcomes |
| `LibConfig` | Configuration validation |
| `LibDomain` / `SrcDomain` / `SrcModels` | Domain values |
| `LibPactl` / `SrcPactl` / `PactlStreams` / `MacOSClient` / `SrcRepository` | Clients |
| `ListSourcesUseCase` / `SwitchSourceUseCase` / `MicrophoneService` | Use cases |
| `ShellFragments` / `UlauncherAdapter` / `SwitchMicrophoneCommand` | Script builders |
| `KeywordQueryHandler` | Launcher result selection |

Design choices:
- **The move loop follows the code.** A move that exits non-zero is skipped,
  and the later moves are still issued. A move that times out or raises escapes
  to the `try` around the whole loop, so no further move is issued. The model
  follows the code here. A looser reading would say that every stream's failure
  is skipped.
- **One model for both pactl clients.** The `lib/` and `src/` copies of
  `PactlClient.set_default_source` and `move_streams_to_source` are the same
  code, so both are modelled once in `PactlStreams`.

## Model

| member | source | states |
|---|---|---|
| LibConfig.NewConfig | lib/config.py:14-25 | construction succeeds exactly for a valid configuration and keeps it unchanged; otherwise the error is the first failing check, in the order pactl timeout, set-source timeout, move-stream timeout, max sources, notification expiry |
| LibConfig.DefaultsAccepted | lib/config.py:8-12 | the defaults 0.3, 0.5, 0.5, 10, 800 pass every check |
| LibConfig.ZeroExpiryAccepted | lib/config.py:24-25 | a notification expiry of 0 is accepted and -1 is rejected with the expiry error |
| LibDomain.EmptyQueryMatches | lib/domain/audio_source.py:17-20 | the empty query matches every source |
| LibDomain.IsMonitor | lib/domain/audio_source.py:13-15 | definition: the lower-cased name contains "monitor" |
| LibDomain.MatchesQuery | lib/domain/audio_source.py:17-20 | definition: the lower-cased query is a substring of the lower-cased name or of the lower-cased description |
| LibDomain.MatchesQueryIgnoresCase | lib/domain/audio_source.py:17-20 | matching a query and matching its lower-cased form agree |
| LibDomain.DisplayName | lib/domain/audio_source.py:22-24 | the description when it is non-empty, otherwise the name; empty only when both are |
| LibDomain.FilterMonitors | lib/domain/audio_source.py:32-35 | the result holds no monitor, holds every non-monitor, and is an order-preserving subsequence of the input; each non-monitor keeps all its copies and each monitor has none |
| LibDomain.FilterMonitorsIdempotent | lib/domain/audio_source.py:32-35 | dropping monitors twice equals dropping them once |
| LibDomain.FilterMonitorsKeepsClean | lib/domain/audio_source.py:32-35 | a list with no monitor is returned unchanged |
| LibDomain.FilterByQuery | lib/domain/audio_source.py:37-42 | the empty query gives the list itself; otherwise the result holds only matching sources, holds every matching source, and keeps their order; each matching source keeps all its copies and each other source has none |
| LibDomain.EmptyQueryShortcutAgrees | lib/domain/audio_source.py:39-41 | the early return for the empty query gives what the comprehension would have given |
| LibDomain.Limit | lib/domain/audio_source.py:44-47 | the result is the prefix of length min(n, number of sources) |
| LibDomain.IsEmpty | lib/domain/audio_source.py:49-51 | true exactly for the list with no sources |
| SrcDomain.MatchesQueryAgreesWithLib | src/domain/audio_source.py:12-18 | the name-only match and monitor test equal the `lib/` ones on a source with an empty description |
| SrcDomain.IsMonitor | src/domain/audio_source.py:12-14 | definition: the lower-cased name contains "monitor" |
| SrcDomain.MatchesQuery | src/domain/audio_source.py:16-18 | definition: the lower-cased query is a substring of the lower-cased name |
| SrcDomain.MatchesQueryIgnoresCase | src/domain/audio_source.py:16-18 | "usb" and "USB" give the same answer |
| SrcDomain.FilterMonitors | src/domain/audio_source.py:26-29 | no monitor kept, every non-monitor kept with all its copies, order preserved |
| SrcDomain.FilterMonitorsIdempotent | src/domain/audio_source.py:26-29 | applying the filter twice equals applying it once |
| SrcDomain.FilterByQuery | src/domain/audio_source.py:31-36 | the empty query is the identity; otherwise exactly the matching sources, each with all its copies, in order |
| SrcDomain.Limit | src/domain/audio_source.py:38-41 | prefix of length min(n, number of sources) |
| SrcDomain.IsEmpty | src/domain/audio_source.py:43-45 | true exactly for the list with no sources |
| SrcDomain.ChainYieldsFirstWanted | src/domain/audio_source.py:26-41 | dropping monitors, filtering by a non-empty query and limiting to 1 gives nothing when no source is a non-monitor match, and otherwise exactly the first such source in order |
| SrcModels.ToString | src/audio/models.py:13-14 | the string form of a source is its name |
| SrcModels.MatchesQuery | src/audio/models.py:16-20 | definition: true for the empty query, otherwise the lower-cased query is a substring of the lower-cased name |
| SrcModels.MatchesQuerySubstring | src/audio/models.py:16-20 | the match is the case-insensitive substring test on the name, which the empty query always passes, and changing the description never changes the answer |
| Process.ListingText | lib/infrastructure/audio_service.py:44-50 | a listing leaves text to parse exactly when the tool exited 0 with non-empty stdout |
| LibPactl.ListSources | lib/infrastructure/audio_service.py:34-84 | the loop computes the specification's sources; a failed, empty, timed-out or raising listing gives the empty list; no monitor is returned |
| LibPactl.SourcesOfFailOpen | lib/infrastructure/audio_service.py:79-84 | a failed, empty, timed-out or raising listing gives the empty list and never an error |
| LibPactl.ScanWellFormed | lib/infrastructure/audio_service.py:55-69 | after every line, each emitted source's index is its position and its name is non-empty and stripped; the pending block's index is the number of sources emitted so far |
| LibPactl.FlushWellFormed | lib/infrastructure/audio_service.py:59-65 | emitting a pending block keeps every emitted source well formed |
| LibPactl.ParseWellFormed | lib/infrastructure/audio_service.py:52-76 | each parsed source has index equal to the number of sources accepted before its header, a non-empty stripped name and a stripped description, including the final flushed block |
| LibPactl.Parse | lib/infrastructure/audio_service.py:52-76 | definition: the block scan of the lines of the listing, with the pending last block emitted; its properties are ParseWellFormed and ParseReport |
| LibPactl.FlushDropsNameless | lib/infrastructure/audio_service.py:59-64 | a block that never received a non-empty name emits nothing |
| LibPactl.LaterNameWins | lib/infrastructure/audio_service.py:66-67 | of two Name lines in one block the later overwrites the earlier |
| LibPactl.ScanHeader | lib/infrastructure/audio_service.py:58-65 | a `Source #N` header emits the pending block and opens a new one whose index is the current count |
| LibPactl.ScanDescription | lib/infrastructure/audio_service.py:56-69 | a Description line sets the description, except that an empty one right-strips to a line that no longer starts with the tag and is ignored |
| LibPactl.ParseReport | lib/infrastructure/audio_service.py:52-78 | round trip: the listing pactl prints for any devices with printable names parses back to exactly those devices, in order, each indexed by its position |
| PactlStreams.SetDefaultSource | lib/infrastructure/audio_service.py:86-100 | one call `pactl set-default-source <name>`, and the operation returns normally whatever the outcome; src/infrastructure/audio_service.py:68-82 is the same code |
| PactlStreams.StreamIdOf | lib/infrastructure/audio_service.py:123-125 | a selected stream id is all digits and stripped |
| PactlStreams.StreamIdsAsFilter | lib/infrastructure/audio_service.py:122-125 | the ids are the first fields of exactly the lines whose stripped first tab field is all digits, in listing order |
| PactlStreams.StreamIdsOfRows | lib/infrastructure/audio_service.py:122-125 | rows `<n>\t<rest>` yield the ids n, in order |
| PactlStreams.MoveRunSpec | lib/infrastructure/audio_service.py:121-142 | one move call per id in order with that id and the name, up to and including the first call that times out or raises; non-zero exits do not stop later moves; `moved` counts the calls that exited 0 |
| PactlStreams.MoveLinesAsRun | lib/infrastructure/audio_service.py:122-137 | the line-by-line loop equals the moves for the selected stream ids |
| PactlStreams.MoveLinesAborted | lib/infrastructure/audio_service.py:139-142 | once a move escapes the loop, no later line issues anything |
| PactlStreams.IssueMoves | lib/infrastructure/audio_service.py:121-137 | the loop's issued calls and move count are those of the specification |
| PactlStreams.MoveStreamsToSource | lib/infrastructure/audio_service.py:102-142 | the listing call comes first; a failed or empty listing issues nothing more; otherwise the moves of the selected ids follow; src/infrastructure/audio_service.py:84-124 is the same code |
| SrcPactl.RowOf | src/infrastructure/audio_service.py:54-58 | a source from line i has index i and a non-empty stripped name |
| SrcPactl.RowOfRejects | src/infrastructure/audio_service.py:55-57 | a line with fewer than two tab fields, or a blank second field, yields no source |
| SrcPactl.RowsFromLines | src/infrastructure/audio_service.py:53-58 | every source comes from the raw line at its index, indices increase, and every accepted line is represented, so skipped lines still consume an index |
| SrcPactl.RowOfTableLine | src/infrastructure/audio_service.py:54-58 | a table line `<n>\t<name>\t<rest>` yields the source with that name at the line's position |
| SrcPactl.RowsOfTable | src/infrastructure/audio_service.py:53-58 | a table of printable names yields those names numbered from 0 |
| SrcPactl.ListSources | src/infrastructure/audio_service.py:34-66 | the loop computes the specification's sources; fail-open on error; no monitor is returned |
| SrcPactl.ListTable | src/infrastructure/audio_service.py:36-60 | a successful listing of a table gives its numbered names with the monitors dropped |
| MacOSClient.FirstUsableSpec | src/infrastructure/macos_audio_service.py:36-40 | none is found exactly when no candidate is usable; otherwise the result is the first usable candidate |
| MacOSClient.FindSwitchAudioSource | src/infrastructure/macos_audio_service.py:29-40 | the loop returns the first usable candidate |
| MacOSClient.FindPrefersFixedPlaces | src/infrastructure/macos_audio_service.py:30-38 | /usr/local/bin wins over /opt/homebrew/bin, which wins over the PATH lookup |
| MacOSClient.New | src/infrastructure/macos_audio_service.py:14-27 | without the tool, construction fails with the install message; otherwise the client holds the found path and has a daemon exactly when virtual routing is on |
| MacOSClient.NewSucceedsWhenFound | src/infrastructure/macos_audio_service.py:18-24 | construction fails exactly when none of the three candidates is usable, and a found path is executable |
| MacOSClient.LineSource | src/infrastructure/macos_audio_service.py:62-65 | a line gives a source exactly when it is not blank, with its stripped text as name and its position as index |
| MacOSClient.RowsFromLines | src/infrastructure/macos_audio_service.py:61-65 | the sources are exactly the non-blank stripped lines, in order, each at its raw line position, and none is filtered as a monitor |
| MacOSClient.RowsOfNames | src/infrastructure/macos_audio_service.py:61-65 | printable names yield themselves numbered from 0 |
| MacOSClient.ListSources | src/infrastructure/macos_audio_service.py:42-73 | the loop computes the specification's sources; a failed, empty, timed-out or raising listing gives the empty list |
| MacOSClient.ListNames | src/infrastructure/macos_audio_service.py:42-67 | a successful listing of printable names gives exactly those names numbered from 0 |
| MacOSClient.SetDefaultSource | src/infrastructure/macos_audio_service.py:75-98 | one call `[path, "-s", name, "-t", "input"]`, which returns exactly when the tool exited 0 |
| MacOSClient.SetDefaultSourceMessages | src/infrastructure/macos_audio_service.py:84-98 | a non-zero exit raises "Failed to switch audio source: " with a non-empty reason; a timeout raises the fixed timeout message; another exception is wrapped in "Error switching audio source: " |
| MacOSClient.MoveStreamsToSource | src/infrastructure/macos_audio_service.py:100-106 | the name is routed to the daemon exactly when virtual routing is on and a daemon exists, and nothing is raised |
| SrcRepository.ListSources | src/audio/repository.py:13-45 | the loop computes the specification's sources; a failed or empty listing gives [] |
| SrcRepository.SourceRowClean | src/audio/repository.py:29-41 | an accepted line gives a source whose id equals its name, which is non-empty and stripped, and neither name nor description mentions "monitor" in any case |
| SrcRepository.SourcesClean | src/audio/repository.py:28-43 | every listed source is clean in that sense |
| SrcRepository.SourceRowOfLine | src/audio/repository.py:33-41 | a non-monitor line `<n>\t<name>\t<driver>` gives id = name = the second field and the third field as description |
| SrcRepository.DefaultSourceOf | src/audio/repository.py:47-61 | a name exactly on exit 0, and then it is the stripped stdout; None otherwise |
| SrcRepository.ListActiveOutputs | src/audio/repository.py:70-100 | the loop computes the specification's outputs; a failed or empty listing gives [] |
| SrcRepository.ParseOutputLine | src/audio/repository.py:85-95 | the loop body's parse of one line yields the specification's row for it: an output exactly for an all-digit stripped first field, with missing fields defaulting to "" and None |
| SrcRepository.OutputRowIsStream | src/audio/repository.py:86-96 | a line gives an output exactly when its stripped first field is all digits, and the output's id is that number |
| SrcRepository.OutputsAreStreams | src/audio/repository.py:84-98 | the outputs correspond one to one, in order, to the stream ids the move loop selects |
| SrcRepository.OutputRowOfLine | src/audio/repository.py:86-96 | a line `<n>\t<source>\t<app>` gives that id, source name and application |
| MicrophoneService.ListSources | src/services/microphone_service.py:18-25 | the empty query returns the repository list; otherwise exactly the matching sources, in order, each with as many copies as the repository lists, as a subsequence no longer than the input |
| MicrophoneService.EmptyQueryShortcutAgrees | src/services/microphone_service.py:22-25 | the early return for the empty query agrees with the comprehension |
| MicrophoneService.ListSourcesIdempotent | src/services/microphone_service.py:18-25 | filtering the result again by the same query changes nothing |
| MicrophoneService.ListedSourcesClean | src/services/microphone_service.py:18-25 | every source listed from the repository's pactl output is clean: id = name, non-empty, stripped, not a monitor |
| MicrophoneService.DefaultSource | src/services/microphone_service.py:27-29 | "" when the repository has no default, otherwise the repository's string |
| MicrophoneService.DefaultSourceOfOutcome | src/services/microphone_service.py:27-29 | the stripped stdout of a successful query, and "" otherwise |
| ListSourcesUseCase.Execute | lib/application/list_sources_use_case.py:12-34 | an error exactly for a limit below 1; otherwise the first `limit` of the sources `FilterByQuery` keeps (so at most `limit` sources, an order-preserving subsequence of the client's list, all matching the query), and the plain truncation when the query is empty |
| ListSourcesUseCase.LimitCheckedFirst | lib/application/list_sources_use_case.py:26-27 | a limit below 1 fails the same way whatever the client lists |
| ListSourcesUseCase.NoMonitorsPreserved | lib/application/list_sources_use_case.py:29-34 | when the client lists no monitor, the result holds none |
| ListSourcesUseCase.PactlListingHasNoMonitors | lib/application/list_sources_use_case.py:29-34 | with the pactl client, whatever its listing, the result holds no monitor |
| SwitchSourceUseCase.Execute | lib/application/switch_source_use_case.py:14-29 | an empty or all-whitespace name is rejected with no client call; otherwise set-default and then move-streams with the unstripped name; an exception from set-default skips move-streams and propagates; src/application/switch_source_use_case.py:11-25 has the same contract |
| SwitchSourceUseCase.SwitchWithPactl | lib/application/switch_source_use_case.py:24-29 | with the best-effort pactl client, every non-blank name makes both calls and the switch succeeds |
| SwitchSourceUseCase.SwitchWithMacOS | src/application/switch_source_use_case.py:21-25 | with the strict macOS client, move-streams runs only when the set-default tool exited 0, and the switch fails otherwise |
| UlauncherAdapter.ScriptShape | src/presentation/ulauncher_adapter.py:29-32 | the script starts with the quoted set-default command followed by `&&` and the stream loop header; it contains `source-outputs` and the quoted move command ending in `\|\| true` |
| UlauncherAdapter.CreateSwitchCommand | src/presentation/ulauncher_adapter.py:26-34 | definition: the script template filled in with the name; its properties are ScriptShape, QuotedWords and QuoteInNameBreaksWord |
| UlauncherAdapter.QuotedWords | src/presentation/ulauncher_adapter.py:26-34 | for a name without `'`, cutting the script at quotes gives the fixed text and the name, twice, then the title and "Switched to: " followed by the first min(50, length) characters of the name |
| UlauncherAdapter.RenderWords | src/presentation/ulauncher_adapter.py:29-34 | cutting any rendered template with quote-free fixed text at quotes gives its nine parts |
| UlauncherAdapter.SwitchScriptQuoteFree | src/presentation/ulauncher_adapter.py:29-34 | the fixed text of the script holds no single quote |
| UlauncherAdapter.QuoteInNameBreaksWord | src/presentation/ulauncher_adapter.py:29 | for the name `it's`, the first quoted word of the script is `it`: a quote in the name ends the quoted word early |
| SwitchMicrophoneCommand.Execute | src/commands/switch_microphone_command.py:27-37 | the script is the set-default fragment followed by the five move fragments, joined with " && " |
| SwitchMicrophoneCommand.MoveCommands | src/commands/switch_microphone_command.py:39-48 | definition: the five loop lines `for`, `if` with the numeric guard, the quoted move, `fi`, `done` |
| SwitchMicrophoneCommand.Fragments | src/commands/switch_microphone_command.py:29-48 | six fragments; the name appears, quoted, only in the set-default command and the move command; the other four are the same for every name |
| SwitchMicrophoneCommand.ScriptSpelledOut | src/commands/switch_microphone_command.py:29-48 | the script spelled out as the six fragments with " && " between consecutive ones |
| SwitchMicrophoneCommand.QuotedWords | src/commands/switch_microphone_command.py:30-45 | for a name without `'`, cutting the script at quotes gives exactly the set-default head, the name, the fixed text up to the move command, the name, and the fixed tail |
| SwitchMicrophoneCommand.ScriptShape | src/commands/switch_microphone_command.py:29-47 | the script starts with the quoted set-default command and the loop header; it contains `source-outputs`, the numeric `-eq` guard, and the quoted move command ending in `\|\| true` |
| SwitchMicrophoneCommand.SameLeadingCommands | src/commands/switch_microphone_command.py:29-43 | the command's script and the launcher adapter's script begin with the same set-default command and loop header |
| KeywordQueryHandler.Shown | src/handlers/keyword_query_handler.py:51-56 | the first min(10, n) sources |
| KeywordQueryHandler.BuildAllItems | src/handlers/keyword_query_handler.py:51-56 | one source item for each of the first min(10, n) sources, in order |
| KeywordQueryHandler.BuildFilteredItems | src/handlers/keyword_query_handler.py:39-49 | 1 to 10 items; the lone no-match item with the total exactly when no source matches; every source item is a matching source |
| KeywordQueryHandler.SourceItems | src/handlers/keyword_query_handler.py:53-56 | one source item per source, in order |
| KeywordQueryHandler.BuildItems | src/handlers/keyword_query_handler.py:29-56 | 1 to 10 items; the single no-sources item exactly for an empty list; a no-match item exactly when a non-empty query matches none of a non-empty list, and then it is the only item and carries the total; every source item is a matching source; for the empty query the first ten sources in order |
| KeywordQueryHandler.FilteredItemsInOrder | src/handlers/keyword_query_handler.py:39-47 | a non-empty query with a match gives the items of the first ten matching sources, in order |
| KeywordQueryHandler.OnEventNeverNoMatch | src/handlers/keyword_query_handler.py:21-27 | as written, the event handler never shows the no-match item |
| KeywordQueryHandler.OnEvent | src/handlers/keyword_query_handler.py:21-27 | 1 to 10 items, and every source item matches the query (the argument, or "" without one) |
| KeywordQueryHandler.NoMatchShownAsNoSources | src/handlers/keyword_query_handler.py:21-49 | for one source "mic" and the query "no-such-mic", the handler as written shows no-sources, and the corrected handler shows no-match with total 1 |
| KeywordQueryHandler.OnEventCorrected | src/handlers/keyword_query_handler.py:21-49 | definition: the items built from every source the repository lists, with the filtering left to `_build_items`; its property is CorrectedOnlyAddsNoMatch |
| KeywordQueryHandler.CorrectedOnlyAddsNoMatch | src/handlers/keyword_query_handler.py:29-49 | the corrected handler differs from the written one only where a non-empty query matches none of a non-empty list: it shows no-match with the total instead of no-sources |

## Left out

- Processes, time and logging. Nothing is executed. Every tool call's result is
  an input value: an exit code with stdout and stderr, a timeout, or an
  exception. Timeouts, the `timeout` wrapper's argument and log messages are
  not modelled.
- Float timeouts are real numbers, and they are only compared with 0.
- Character handling is ASCII only. This covers `lower()`, `strip()` and
  `isdigit()`: Unicode case and space rules are not modelled.
- `splitlines()` breaks lines at `\n` only. Python also breaks at `\r`,
  `\r\n`, `\v`, `\f`, `\x1c`, `\x1d`, `\x1e`, `\x85`, `\u2028` and
  `\u2029`; a listing holding one of those is split differently here.
- LibDomain.Limit: defined for n ≥ 0 only. A negative n follows Python's
  slice-from-the-end rule, which every caller excludes by rejecting n < 1.
- SrcDomain.Limit: defined for n ≥ 0 only, for the same reason.
- MacOSClient.SetDefaultSourceMessages:
  - A `RuntimeError` raised by `subprocess.run` itself would be re-raised
    unwrapped. The model treats every exception other than a timeout as
    wrapped.
  - For a non-zero exit, the message is stated as the prefix plus a non-empty
    reason. The exact stripped-stderr text is in the function.
- MacOSClient.MoveStreamsToSource: the routing daemon's own behaviour is not
  part of this model. The function states only whether the name is handed to
  the daemon.
- UlauncherAdapter.QuotedWords: holds only for names without `'`. The name is
  spliced into single quotes without escaping. QuoteInNameBreaksWord shows what
  a quote in the name does.
- SwitchMicrophoneCommand.QuotedWords: holds only for names without `'`, for the
  same reason.
- Shell semantics of the built scripts are not modelled. The `" && "` join of
  the command places `&&` straight after `do` and `then`, so the model makes no
  claim that either script is valid shell. The model is about the text only.
- `SwitchMicrophoneCommand`'s `output_repo` is left out. It is never consulted
  when building the script, so the command carries only the source name.
- The launcher's item rendering is not modelled:
  - `present_sources`;
  - `KeywordQueryEventListener` and `MicSwitcherExtension`;
  - `ItemFactory`.

  The handler's items are abstracted to the three kinds.
- The routing daemon, the macOS aggregate-device C code, the Raycast UI, the
  CLI and the dependency-injection wiring are outside the modelled core.
- `AudioSystemClient` is a protocol. The use cases see the client's results
  as inputs: a listing, or whether each call returned or raised.

## Findings

| source | as written | input that shows it | evidently intended | confidence | as-written member | corrected member |
|---|---|---|---|---|---|---|
| src/handlers/keyword_query_handler.py:21-49 | `on_event` hands `_build_items` the list already filtered by the query, so a query that matches nothing reaches `_build_items` as an empty list and shows "no sources"; the no-match branch at lines 48-49 can never run | one source named "mic" and the query "no-such-mic" | the no-match item with the total count of sources, as `_build_filtered_items` intends | not executed | KeywordQueryHandler.NoMatchShownAsNoSources | KeywordQueryHandler.CorrectedOnlyAddsNoMatch |
