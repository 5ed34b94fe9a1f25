# Zoomies, modelled in Dafny

A model of the hard parts of Zoomies' command line and of the scripts around it, with proofs of what
they promise. Zoomies runs self-hosted CI runners; the `zoomies` binary is at once the controller, the
agent and the command line an operator types at.

`dafny verify dfyconfig.toml` checks everything. One file per subject:

| file | subject |
|---|---|
| `Upgrade.dfy` | `zoomies upgrade` over every process it runs in: preview, backup, candidate, swap, re-execution, launcher |
| `Database.dfy` | the lock around the database, and the one-time import of a configuration file |
| `Launcher.dfy` | the full-screen launcher: its list, its confirmations and its pane |
| `EventStream.dfy` | reading server-sent events, against the server that writes them |
| `Flags.dfy` | flags after positional arguments |
| `GroupUsage.dfy` | a command group's usage text, and the reference that is read back out of it |
| `EditDistance.dfy` | the suggestion for a mistyped command |
| `LineWrap.dfy` | wrapping the advice of `zoomies doctor` |
| `Table.dfy` | aligned tables with coloured cells |
| `TailBuffer.dfy` | the bounded tail of a child's output, cut on a character boundary |
| `PoolEdit.dfy` | `zoomies pools edit`, which names some settings and must keep the rest |
| `RunnerImage.dfy` | the image a pool's runners are made from, and its move to the Docker variant |
| `ToolLock.dfy` | the tool cache lock file and its digests |
| `ChunkBudget.dfy` | the size budget of the web build |
| `Logo.dfy` | the documentation's animated logo |
| `Seqs.dfy`, `Text.dfy`, `Wrappers.dfy` | small facts about sequences; Go's string functions; a value that may be missing |

Strings are sequences of Unicode characters, as valid UTF-8 decodes to; where Go takes a `len`, the
model takes the length of the encoding, and the edit distance, which indexes, is over bytes. What lies
outside a command (the network, the clock, random numbers, a container runtime) is a parameter or a step
that may go either way.

## What the proofs turned up

Some of what the code or its comments promise holds only under a condition. Each is proved in the form
"holds if and only if", and each comes with an input that breaks it.

- `permute` puts a `--` in front of positional arguments. When the last flag lacks its value, that flag
  takes the `--` as its value, so a missing value goes unreported (`Flags.PermuteKeepsMeaning`,
  `Flags.MeaningKeptByTheWords`, `Flags.SeparatorTaken`).
- `readSSE` loses empty lines at the start of an event's data (`EventStream.DeliveredAsSent`,
  `EventStream.LeadingEmptyLineIsLost`).
- A stream that breaks just after the carriage returns a line began with is read as if that line were blank,
  so a frame that was still being gathered is delivered as it stands (`EventStream.BrokenExactlyWhen`,
  `EventStream.BareReturnEndsTheFrame`).
- The comment on `seedSettingsFromFile` says a file is imported once. A crash between its two writes,
  followed by `zoomies config unset` of every imported row, makes the next start import it again
  (`Database.NextStartImports`, `Database.ImportedTwice`).
- A swap always has a backup of its own request before it, but that backup can be older than another
  upgrade's swap. From any state, whether this can still happen depends on who has yet to swap and on the
  age of the backups already taken; and for all that an operator can see, on who may have
  (`Upgrade.SwapsStayCoveredExactlyWhen`, `Upgrade.LooksSafeExactlyWhen`, `Upgrade.OverlapBreaksIt`).
- `pools edit` says that anything not named is left alone. An edit of one cache or platform flag resets
  the other parts of the cache or platform to the flags' defaults, and any edit that leaves a pool with a
  Docker daemon moves it off the stock image, `--docker-mode dind` for one
  (`PoolEdit.LeftAloneExactlyWhen`, `PoolEdit.CacheSizeSwitchesTheCacheOff`,
  `PoolEdit.DockerModeMovesTheImage`).
- Two such edits at once can lose what the first one typed, when the second carries it forward as it was
  (`PoolEdit.EditsInTurnExactlyWhen`, `PoolEdit.DiskLost`).
- The launcher's pane scrolls by one number of rows and is drawn with another when the window is under
  twelve rows high, so keys jump; and after the window grows, Up can do nothing visible
  (`Launcher.KeysMoveTheView`, `Launcher.KeysJumpInAShortWindow`, `Launcher.UpIsLostWhenTheWindowGrows`).
- A table cell of nothing but colour sequences is measured by its length, so the cells after it stand too
  far left; one that ends inside an escape sequence takes its padding, and more, with it
  (`Table.RowStandsExactlyWhen`, `Table.PaintedNothingMoves`, `Table.OpenEscapeMoves`).
- The size budget looks route names up in a plain object, so a route called `constructor` has no limit
  (`ChunkBudget.AllReportedExactlyWhen`, `ChunkBudget.ConstructorIsMissed`).

## Model

| member | source | states |
|---|---|---|
| `Upgrade.Process.InstallerUpgrade` | internal/installer/upgrade.go:152-258 | A check only looks, whatever the stage; applying needs a saved or continued request, says success exactly when it was applied, and leaves what `Applies` lists |
| `Upgrade.Process.CandidatePreflight` | cmd/zoomies/install.go:475-503 | A candidate that answers, by running this same command, leaves one look at the deployment and its verdict; one that does not start or finish leaves nothing and counts as a refusal; neither changes the stage |
| `Upgrade.Process.InstallerSelfUpdate` | internal/installer/selfupdate.go:119-142 | The binary is replaced exactly when a candidate was fetched, accepted the deployment and could be installed on a run that is not dry; the candidate is always asked before |
| `Upgrade.Process.SelfUpdate` | cmd/zoomies/install.go:517-577 | The process is replaced exactly when the binary was and the new one starts; it succeeds otherwise only when there was nothing newer, or on a dry run whose candidate accepts; and exactly the asking, the swap and the start or its failure are written |
| `Upgrade.Process.DryRun` | cmd/zoomies/install.go:271-301 | A dry run looks first, asks a candidate if there is one, changes nothing, and succeeds exactly when everything it came to went well and a second look did |
| `Upgrade.Process.Prepare` | cmd/zoomies/install.go:302-341 | From flags, markers and outcomes: the request is handed over exactly when a newer release was sought, accepted, installed and started; it goes on to the deployment exactly when nothing newer was to be had or sought; and just the look, the backup and the seeking that were come to are written |
| `Upgrade.Process.RunUpgradeNamed` | cmd/zoomies/install.go:209-343 | From flags, markers and outcomes alone: how it ends, whether it succeeds, and every event it writes; they form a lawful stretch of one request, without a swap where a newer binary is ruled out, and the answer is truthful |
| `Upgrade.AnswersTruly` | cmd/zoomies/install.go:209-343 | For all flags, markers and outcomes: a refusal did nothing, a failed preview is all there is, and success means it looked, applied, or carried on in the new release |
| `Upgrade.HandedOverIsApplied` | cmd/zoomies/install.go:302-343 | A request that is handed over comes to the deployment in the new release and to nothing else: no second backup, no second search |
| `Upgrade.WholeRunHappens` | cmd/zoomies/install.go:302-343 | A plain upgrade in which all goes well looks, backs up, asks the candidate, swaps and hands over, in this order |
| `Upgrade.AppliedAsItWent` | internal/installer/upgrade.go:152-258 | Applied, failed and rolled back are each recorded exactly when they were |
| `Upgrade.AfterIsGood` | cmd/zoomies/home.go:308-321 | In every run of any number of shells, launchers, re-executions and kills, each request's log is lawful, no two processes serve one request, and an idle launcher carries no continuation marker |
| `Upgrade.SavedBeforeChanged` | cmd/zoomies/install.go:302-341 | In every run, each change of a request comes after that request's own successful backup, unless --no-backup, and each swap also after its accepted preflight |
| `Upgrade.NothingTwice` | cmd/zoomies/install.go:302-322 | In every run, across processes, no request backs up, swaps, hands over, applies or rolls back twice |
| `Upgrade.QuietChangesNothing` | cmd/zoomies/install.go:271-301 | In every run, a request with --check or --dry-run changes nothing |
| `Upgrade.BackupNewerThanLastSwap` | cmd/zoomies/install.go:313-327 | If a request that will swap is made only while nobody else has still to swap (or neither takes a backup), no swap of any request lies between a swap and the backup taken for it; checks, dry runs and upgrades that find nothing newer may overlap anything |
| `Upgrade.SwapsStayCoveredExactlyWhen` | cmd/zoomies/install.go:302-341 | From any reachable state, all swaps stay covered however the running processes go on, crash or are replaced, if and only if all are so far and each that has still to swap under a backup finds it newer than every swap and is the only one that has still to swap |
| `Upgrade.LooksSafeExactlyWhen` | cmd/zoomies/install.go:302-341 | The same from what can be seen: all swaps stay covered, whatever course with the same processes, flags, markers and log led here and whatever is still to be done, if and only if all are covered so far, each running request that by these may yet swap under a backup finds that backup newer than every swap, and no other may yet swap |
| `Upgrade.OverlapBreaksIt` | cmd/zoomies/install.go:313-340 | A run of two overlapping upgrades that leaves a swap without a backup newer than the swap before it |
| `Database.Session.TransferConfig` | cmd/zoomies/transfer.go:28-72 | Succeeds exactly when the configuration loads, the lock is free, the key resolves and a database that is there opens and rebuilds; then the lock is held and the database closed; on every error exit nothing is held; the database is never changed |
| `Database.Session.TransferExport` | cmd/zoomies/transfer.go:74-125 | On every path, with its two deferred calls, the trace is lawful: opened only under the lock, closed before the lock is let go, nothing held at the end; success exactly when everything went well, after opening; no database is changed by it |
| `Database.Session.TransferImport` | cmd/zoomies/transfer.go:127-196 | The same lawfulness; success exactly when all went well and the archive holds a database, and then, whatever was there, that database is; otherwise what was there is untouched |
| `Database.Session.RunRestore` | cmd/zoomies/restore.go:205-226 | The same for a restore: done exactly when the lock is free and the copy is good, and then the copy is the database; otherwise nothing changed |
| `Database.Session.RunConfig` | cmd/zoomies/configset.go:30-54 | The same for a config command: done exactly when lock, database and edit allow, and then exactly the edit is made to whatever was there |
| `Database.EditedRows` | cmd/zoomies/configset.go:254-287 | Key by key what an edit does: setting overwrites the keys given and keeps the rest, removing takes one key away |
| `Database.Session.RunController` | cmd/zoomies/controller.go:77-170 | The same for a controller, wherever it stops; and on any database: a staged copy first, then the import with its failures, then the edits in order if all came up |
| `Database.Session.Return` | cmd/zoomies/controller.go:85-113 | What is deferred runs last first, and lets go of everything |
| `Database.Session.Seed` | cmd/zoomies/controller.go:502-543 | On any database and with either write failing: fails exactly when a write that was needed did; the file comes in only where there is neither a note nor a row, and whole; the note is made only on success and only then; a noted database is left alone |
| `Database.AfterIsGood` | cmd/zoomies/transfer.go:127-196 | In every reachable state of any number of such commands, crashing anywhere: past the lock and holding it are the same, every command can finish lawfully, and the imports fit the history |
| `Database.WriterIsAlone` | cmd/zoomies/controller.go:77-101 | In every run, whoever writes settings or replaces the file holds the lock and nobody else has the database open |
| `Database.OpenHoldsTheLock` | cmd/zoomies/configset.go:30-54 | In every run, a process that has the database open holds the lock; while the lock is free nobody has it open |
| `Database.NothingHeldAfterwards` | cmd/zoomies/transfer.go:28-72 | In every run, a command that has ended holds nothing, and one under way is never stuck but for the lock |
| `Database.OneImportPerLapse` | cmd/zoomies/controller.go:502-543 | In every run, imports number at most one more than databases put in place and lapses (rows gone before the note was made) together; and into one database, its history included, at most one more than its own lapses |
| `Database.SecondImportNeedsLapse` | cmd/zoomies/controller.go:502-543 | A file is about to be imported only into a database that never had it, counting what a copy brought with it, or has lapsed |
| `Database.NextStartImports` | cmd/zoomies/controller.go:502-543 | From any reachable quiet state, what a start leaves; into a database that had the file before, it imports again if and only if the database has lapsed |
| `Database.ImportedTwice` | cmd/zoomies/configset.go:254-287 | A run with one crash, one `config unset` and no restore that imports the same file twice into one database |
| `Database.ImportedAtMostOnce` | cmd/zoomies/controller.go:502-543 | If no row is removed between the two writes of an import, here or in the past of a restored copy, every run imports at most once into any one database and at most once more than databases were put in place |
| `Launcher.UpdateKeepsValid` | cmd/zoomies/home.go:129-233 | Every message keeps the cursor in the list, the modes exclusive, no query outside the catalogue, a confirmation on an entry that asks for one, and the pane's offset non-negative |
| `Launcher.CursorMoves` | cmd/zoomies/home.go:200-207 | Up and its like go one entry up, Down and its like one down, Home and End to the ends; at the ends the cursor stays; nothing else changes |
| `Launcher.PageIsSteps` | cmd/zoomies/home.go:208-211 | A page is as many single steps as the window has rows for entries |
| `Launcher.ThereAndBack` | cmd/zoomies/home.go:200-203 | Down then Up, and Up then Down, return to the same entry if and only if the first did not run into its end |
| `Launcher.EnterOpens` | cmd/zoomies/home.go:212-230 | Enter shows the fleet list, all commands, or the question, each from its first entry |
| `Launcher.QuestionAnswered` | cmd/zoomies/home.go:155-164 | Yes launches the entry asked about, the ways of saying no only put the question away, and no other key does anything |
| `Launcher.BackspaceUndoes` | cmd/zoomies/home.go:165-184 | Typed text goes to the end of the query, and Backspace undoes it if and only if it was one character |
| `Launcher.SearchFinds` | cmd/zoomies/home.go:102-117 | A search shows exactly the commands that match, in the order of the table |
| `Launcher.SearchEnds` | cmd/zoomies/home.go:165-184 | Enter keeps the query and shows its matches, Esc drops it and shows every command |
| `Launcher.SlashSearches` | cmd/zoomies/home.go:198-199 | A slash searches from any list, with the query as it stands |
| `Launcher.EscLeadsHome` | cmd/zoomies/home.go:190-197 | From anywhere in the lists at most two Escs lead to the home list with no query, and one more leaves |
| `Launcher.PaneIsLeft` | cmd/zoomies/home_run.go:156-191 | Once a command is done, Enter or Esc returns to the list as it was and q leaves; before that they do neither |
| `Launcher.ResizeChangesTheSize` | cmd/zoomies/home.go:134-135 | A new window size is kept, and is all that a resize changes |
| `Launcher.StepKeepsGood` | cmd/zoomies/home_run.go:156-191 | Every step keeps what runs, what has finished and what the model shows in agreement, the exit code included |
| `Launcher.OneAtATime` | cmd/zoomies/home.go:237-244 | A command starts only when none is running, in the pane or on the terminal |
| `Launcher.StartedExactlyWhen` | cmd/zoomies/home.go:129-244 | An input starts a command if and only if it is Enter on an entry that runs one and asks nothing, or yes to its confirmation, in a window large enough; and the command is the one under the cursor |
| `Launcher.LaunchedWhere` | cmd/zoomies/home_run.go:26-28 | A launched command runs in the pane, unless it is the guided installer and not its help, which gets the terminal |
| `Launcher.ConfirmedBeforeStarted` | cmd/zoomies/home.go:155-233 | Over a whole session, a confirming entry starts only on yes, after Enter on that same entry raised the question, with no other entry under the cursor in between |
| `Launcher.SecondInterruptQuits` | cmd/zoomies/home_run.go:156-191 | From any state with a command in the pane, at most two interrupts leave the launcher |
| `Launcher.ViewIsLegal` | cmd/zoomies/home_run.go:201-217 | The slice of output shown is in bounds and a full pane whenever there is enough output, at every window height, also none |
| `Launcher.KeysMoveTheView` | cmd/zoomies/home_run.go:156-191 | At every window size, a scrolling key moves the lines seen as it says if and only if the kept place and the seen one are in step, from the two row counts; from twelve rows up that is whenever the kept offset is in view or the key does not go up |
| `Launcher.ScrollMovesTheView` | cmd/zoomies/home_run.go:133-154 | The same for any pane and any two row counts |
| `Launcher.FollowsFromTheEnd` | cmd/zoomies/home_run.go:133-154 | Going down to the end stays at the end as output comes; going up stays at the lines one went to |
| `Launcher.KeysJumpInAShortWindow` | cmd/zoomies/home_run.go:187-188 | In eight rows with a hundred lines, Up from the end jumps five lines and Down jumps back |
| `Launcher.UpIsLostWhenTheWindowGrows` | cmd/zoomies/home_run.go:201-213 | Up, a window that grows, and Up again: the second moves nothing |
| `Launcher.HomeRun.Scroll` | cmd/zoomies/home_run.go:133-154 | Drawn with any number of rows, the view moves as the key says if and only if kept and seen place were in step; nothing but offset and follow changes |
| `Launcher.HomeRun.Update` | cmd/zoomies/home_run.go:156-191 | Changing the shared run in place comes to updating the model's value, for every message |
| `Launcher.ShippedListsWellFormed` | cmd/zoomies/home.go:20-29 | The lists that ship meet what the other results ask of lists |
| `EventStream.ReadSSE` | cmd/zoomies/cli.go:544-589 | For every stream, end and callback: all frames of the stream in order, or those up to the one the callback refused, with the matching outcome |
| `EventStream.TakeLine` | cmd/zoomies/cli.go:544-589 | One line's frames and the pending frame it leaves, or the refusal |
| `EventStream.InertLineChangesNothing` | cmd/zoomies/cli.go:544-589 | A comment or an unknown field, anywhere between lines, changes no frame |
| `EventStream.FinalNewlineChangesNothing` | cmd/zoomies/cli.go:544-589 | A last line without its newline is read as if it had one |
| `EventStream.ReturnsBeforeNewlines` | cmd/zoomies/cli.go:551-553 | A line that ends in a return and a newline is read as one that ends in a newline |
| `EventStream.SpaceAfterColon` | cmd/zoomies/cli.go:568-573 | The space after the colon of a data line makes no difference |
| `EventStream.FramesAppend` | cmd/zoomies/cli.go:544-589 | Reading is compositional: frames of a prefix, then of the rest from the pending frame it left |
| `EventStream.OnlyCleanFrames` | cmd/zoomies/cli.go:544-589 | No stream at all yields a frame outside the clean ones |
| `EventStream.DeliveredAsSent` | internal/api/sse.go:69-116 | Any sequence of events, comments and retries the server writes is read back as sent, whether the stream then ends or breaks, if and only if each event is clean |
| `EventStream.BrokenAnywhere` | cmd/zoomies/cli.go:575-578 | Wherever the connection breaks, exactly the messages that were written whole are delivered |
| `EventStream.NothingHalfRead` | cmd/zoomies/cli.go:575-578 | A stream that breaks before any blank line delivers nothing |
| `EventStream.BrokenExactlyWhen` | cmd/zoomies/cli.go:548-578 | What a broken stream gave is what it would have given first however it had gone on, if and only if it did not break after the bare returns of a line with a frame pending |
| `EventStream.BareReturnEndsTheFrame` | cmd/zoomies/cli.go:551-564 | There the data gathered so far is delivered as a frame of its own |
| `EventStream.LeadingEmptyLineIsLost` | internal/api/sse.go:69-97 | Data that begins with an empty line arrives without it |
| `Flags.Permute` | cmd/zoomies/flags.go:128-170 | Flags first in order, then positionals in order behind a separator, for every table and argument list |
| `Flags.Parse` | cmd/zoomies/flags.go:109-120 | Parsing the permuted arguments gives what reading the arguments in place gives, or the swallowed outcome when a starved flag meets positionals |
| `Flags.PermutedAgrees` | cmd/zoomies/flags.go:128-170 | The same from any point of the reading, with flags set and positionals met already |
| `Flags.PermuteKeepsMeaning` | cmd/zoomies/flags.go:109-170 | Permuting keeps the meaning of the arguments if and only if no flag is starved with positionals present; what happens otherwise |
| `Flags.StarvedIsDangling` | cmd/zoomies/flags.go:128-170 | A flag starves if and only if the words end in a flag that takes a value, every flag is one there is, and every value the words before give is accepted in its turn |
| `Flags.MeaningKeptByTheWords` | cmd/zoomies/flags.go:109-170 | So for every line, permuting keeps its meaning if and only if not all of this holds of its words: there is a positional, every flag is one there is, their values are accepted in turn, and the last flag lacks its own |
| `Flags.SeparatorTaken` | cmd/zoomies/flags.go:128-170 | The words `x --out`: the missing value is reported when read in place and not after permuting, and permuting again changes them again |
| `Flags.PermuteIdempotent` | cmd/zoomies/flags.go:128-170 | Permuting twice is permuting once if and only if no value flag dangles at the end with positionals present |
| `Flags.FlagsReadBack` | cmd/zoomies/flags.go:109-120 | Flags written in any of the ways there are, with one dash or two, are read as what they say, in their order |
| `GroupUsage.FoundMatches` | cmd/zoomies/commands.go:60-62 | The match found satisfies the line expression read declaratively |
| `GroupUsage.FindMatchPrefers` | cmd/zoomies/commands.go:60-62 | If any match exists one is found, with every other match's name and arguments and the longest gap |
| `GroupUsage.SubcommandsOf` | cmd/zoomies/commands.go:133-149 | The subcommands of a help text, over every text |
| `GroupUsage.PrintGroupUsage` | cmd/zoomies/main.go:400-416 | The usage text, line by line |
| `GroupUsage.GapIsWide` | cmd/zoomies/main.go:396-416 | However long the name and arguments, at least two spaces precede the brief |
| `GroupUsage.BriefsAlign` | cmd/zoomies/main.go:396-416 | Briefs stand in one column, unless what comes before takes its whole width |
| `GroupUsage.WellFormedReadsBack` | cmd/zoomies/main.go:406-414 | A well-formed subcommand's line reads back as that subcommand |
| `GroupUsage.OnlyWellFormed` | cmd/zoomies/commands.go:133-149 | No line whatever reads as a subcommand that is not well formed |
| `GroupUsage.UsageReadsBack` | cmd/zoomies/commands.go:125-149 | A printed usage reads back as its own subcommands if and only if all are well formed |
| `EditDistance.Distance` | cmd/zoomies/main.go:339-357 | The least number of byte insertions, deletions and substitutions that turn one word into the other, over all edit scripts |
| `EditDistance.FillRow` | cmd/zoomies/main.go:346-354 | One pass fills the row in place from the row before it |
| `EditDistance.LevIsLeastEdits` | cmd/zoomies/main.go:337-357 | The recurrence is the least script length, both ways: a script that short exists and none is shorter |
| `EditDistance.LeastEditsIsAMetric` | cmd/zoomies/main.go:337-357 | Zero exactly on equal words, symmetric, triangle inequality |
| `EditDistance.Nearest` | cmd/zoomies/main.go:326-335 | The first of the nearest names when one is near enough, otherwise nothing |
| `LineWrap.WrapText` | cmd/zoomies/doctor.go:377-395 | The words in order, lines that fit or hold one word, no stray spaces, and no wrapping of the same words has fewer lines |
| `LineWrap.GreedyIsOptimal` | cmd/zoomies/doctor.go:377-395 | No wrapping whatever uses fewer lines than filling each one |
| `LineWrap.LaterStart` | cmd/zoomies/doctor.go:377-395 | Starting later in the text never needs more lines |
| `Table.MeasureWidth` | cmd/zoomies/output.go:297-315 | The number of characters a terminal shows |
| `Table.PaintShowsTheText` | cmd/zoomies/output.go:257-262 | Painted or not, a text shows as itself and measures as itself |
| `Table.PaintedExactlyWhen` | cmd/zoomies/output.go:257-262 | A text is painted exactly where there is colour and something to paint |
| `Table.ColouriseShowsTheText` | cmd/zoomies/output.go:40 | A colour sequence around a text shows the text and closes |
| `Table.RowShowsPlain` | cmd/zoomies/output.go:186-232 | A coloured row shows what the plain row shows |
| `Table.CellAtColumn` | cmd/zoomies/output.go:186-232 | With no cell ending inside an escape, every cell is seen whole, as far from its column as the cells before it show more or less than they were measured |
| `Table.RowStandsExactlyWhen` | cmd/zoomies/output.go:186-232 | For any row in wide enough columns: a cell is written outside any escape with exactly its column showing before it if and only if no cell before it ends inside an escape or is nothing but escapes |
| `Table.StandingIsSeen` | cmd/zoomies/output.go:186-232 | Such a cell is seen at its column, from its first visible character to its last |
| `Table.StandingIsPrinted` | cmd/zoomies/output.go:186-232 | And on the line as printed, its end trimmed, each of its visible characters that is not a space is in its place |
| `Table.HeadersDoNotDrift` | cmd/zoomies/output.go:214-228 | Headers without escapes whose capitals are as long show as the capitals and stand at their columns, painted or not |
| `Table.HeadersPaintedExactlyWhen` | cmd/zoomies/output.go:214-228 | A line of headers has escapes if and only if there is colour |
| `Table.NoColourNoEscape` | cmd/zoomies/output.go:186-232 | A line has an escape only if a cell of it has |
| `Table.PaintedNothingMoves` | cmd/zoomies/output.go:297-315 | A colour around no text moves the cell after it, in any columns |
| `Table.OpenEscapeMoves` | cmd/zoomies/output.go:297-315 | A cell that ends in the start of an escape moves the cell after it, in any columns |
| `Table.LineKeepsColumns` | cmd/zoomies/output.go:186-232 | Trimming a line's end moves or loses no visible character |
| `Table.MeasureColumns` | cmd/zoomies/output.go:186-232 | As many columns as the widest row has and no more, each as wide as the specification's least width |
| `Table.RowsFit` | cmd/zoomies/output.go:186-232 | Every cell fits its column |
| `Table.WidthsAreTight` | cmd/zoomies/output.go:186-232 | No column is wider than its widest cell |
| `Table.WriteRow` | cmd/zoomies/output.go:186-232 | One padded and trimmed line |
| `Table.PrintTable` | cmd/zoomies/output.go:186-232 | For any headers and cells: as many columns as the widest of them has, one set of tight widths, and each line a trimmed row in them |
| `Utf8.EncodedRune` | cmd/zoomies/install.go:416-428 | A decoder reads back each encoded character and its length, whatever follows |
| `Utf8.DecodeOfEncode` | cmd/zoomies/install.go:416-428 | Decoding undoes encoding, for every text |
| `TailBuffer.Buffer.Write` | cmd/zoomies/install.go:405-412 | The buffer stands for everything written, kept to its last bytes, and always accepts all of it |
| `TailBuffer.Buffer.ToString` | cmd/zoomies/install.go:416-428 | For any bytes, the kept tail as it reads, trimmed, marked when something was dropped; for any text written in any pieces, its longest whole-character tail that fits |
| `TailBuffer.KeptIsATail` | cmd/zoomies/install.go:399-428 | Whatever the bytes, what is kept ends them, fits, and begins a character when some were dropped |
| `TailBuffer.CutOnBoundary` | cmd/zoomies/install.go:416-428 | Dropping at most three bytes from any tail leaves exactly the whole characters that fit |
| `TailBuffer.NothingLongerIsValid` | cmd/zoomies/install.go:416-428 | No longer suffix of the kept bytes is the encoding of a text |
| `TailBuffer.LastFittingIsLongest` | cmd/zoomies/install.go:399-428 | It is the longest suffix of the text whose encoding fits |
| `PoolEdit.Resources` | cmd/zoomies/pools.go:738-798 | Every part of the size as typed or as it stands, and absent unless above zero |
| `PoolEdit.BuildBody` | cmd/zoomies/pools.go:531-723 | The request holds a setting just when it was typed, and makes of any pool it comes to what the edit of the pool that was read means, single-valued settings included, with the image the resulting Docker mode calls for |
| `PoolEdit.BodyArrives` | cmd/zoomies/pools.go:531-723 | So every typed value arrives, field by field, in whatever pool the request comes to |
| `PoolEdit.TypedArrives` | internal/api/handlers_pools.go:335-473 | Every typed flag has its value in the edited pool: sizes above zero, modes and words as tidied, marks on folders that are on, blank overrides handed back, the image as the Docker mode calls for |
| `PoolEdit.RefusedExactlyWhenLost` | cmd/zoomies/pools.go:803-809 | The two ways of giving a size are refused together if and only if going to the host's size would lose a typed figure |
| `PoolEdit.Edit` | cmd/zoomies/pools.go:962-1046 | Refused exactly on two ways of giving a size or on nothing typed; otherwise every setting gets its edited value and every typed one arrives, and the image is the one its Docker mode calls for, though the pool is read only when the guard says so |
| `PoolEdit.LeftAloneExactlyWhen` | cmd/zoomies/pools.go:962-964 | Whatever was not typed is left alone if and only if no figure, swap or mark is cleared in passing, the cache and platform flags cover all that is not at its default, and the image was typed, is not the stock one under a published tag, or goes without a Docker daemon afterwards |
| `PoolEdit.CacheSizeSwitchesTheCacheOff` | cmd/zoomies/pools.go:556-562 | Editing only the cache's size switches an enabled cache off |
| `PoolEdit.DockerModeMovesTheImage` | internal/api/handlers_pools.go:464-471 | Editing only the Docker mode, to `dind` or `host-socket`, replaces the stock image by its Docker variant under the same tag |
| `PoolEdit.NeverWithoutAClient` | internal/api/handlers_pools.go:464-471 | Whatever is typed, no edit leaves a pool that gives its jobs a daemon on the stock image, which has no client for it |
| `RunnerImage.SplitIsWell` | internal/naming/images.go:185-202 | A reference taken apart is whole, and its tag and digest are a tag and a digest, not a registry's port |
| `RunnerImage.SplitIsTheOnly` | internal/naming/images.go:185-202 | There is no other way to take it apart |
| `RunnerImage.MovedExactlyWhen` | internal/config/config.go:1451-1460 | With a daemon, an image is moved if and only if it is the stock repository with a published tag and nothing else, and then it is the Docker repository with that tag |
| `RunnerImage.MovedOnce` | internal/config/config.go:1451-1460 | Moving it again moves nothing |
| `PoolEdit.EditsInTurnExactlyWhen` | internal/api/handlers_pools.go:422-443 | Two edits that both read the pool before either is applied come to one after the other if and only if the first left alone whatever the second carries forward |
| `PoolEdit.DisjointEditsAreInTurn` | cmd/zoomies/pools.go:992-1016 | Edits of different composites never get in each other's way |
| `PoolEdit.DiskLost` | cmd/zoomies/pools.go:738-798 | A disk size typed in one edit and a process limit in another, at once: the disk size is lost |
| `ToolLock.WriteLock` | deploy/gen_toolcache_lock.go:495-503 | The lock text: the header, then a line per entry |
| `ToolLock.ReadLock` | deploy/gen_toolcache_lock.go:506-521 | The digests a text pins, with the line scanner's limit |
| `ToolLock.LockReadsBack` | deploy/gen_toolcache_lock.go:495-521 | A written lock reads back as exactly the digests its entries pin |
| `ToolLock.LockColumns` | deploy/gen_toolcache_lock.go:79-81 | Each line of a written lock has its six columns in the order the header names, one line for each entry |
| `ToolLock.FoundSuits` | deploy/gen_toolcache_lock.go:169-174 | What is found is the last build for Linux, the architecture and the platform, and nothing only when there is none |
| `ToolLock.NewestRunsTheBaseline` | deploy/gen_toolcache_lock.go:161-168 | On amd64, Ubuntu 26.04 gets just the archive that 24.04 gets |
| `ToolLock.FirstIsFirst` | deploy/gen_toolcache_lock.go:151-195 | A line is served by the first stable release on it, and by none only when there is none |
| `ToolLock.Search` | deploy/gen_toolcache_lock.go:151-195 | The search fails exactly when some line has no stable release or that release lacks a build |
| `ToolLock.PickedExactlyWhen` | deploy/gen_toolcache_lock.go:151-195 | An archive is picked if and only if it is what the first stable release on one of the lines gives for one of the platforms and architectures |
| `ToolLock.Python` | deploy/gen_toolcache_lock.go:136-195 | Fails exactly when a line has no stable release, a build is missing or an unknown archive cannot be hashed; otherwise an entry per archive picked, in order, with its own version, platform, architecture and URL, known ones with the digest they had |
| `ToolLock.DigestKept` | deploy/gen_toolcache_lock.go:136-195 | Regenerating a lock never changes the digest of a URL that stays listed |
| `ToolLock.DigestKeptForever` | deploy/gen_toolcache_lock.go:92-128 | Nor does any number of regenerations, each from the lock before |
| `ToolLock.VersionLess` | deploy/gen_toolcache_lock.go:609-619 | The order on versions, part by part as numbers, a prefix first |
| `ToolLock.VersionsWeaklyOrdered` | deploy/gen_toolcache_lock.go:609-619 | Not-before is reflexive, transitive and total on all strings |
| `ToolLock.NewestStable` | deploy/gen_toolcache_lock.go:390-399 | A stable version no other stable one comes after; nothing exactly when none is stable |
| `ChunkBudget.Walker.Walk` | web/vite.config.ts:54-60 | On any graph, cycles included: everything owed to the file is added, nothing else is, and what was added is closed |
| `ChunkBudget.ShellFiles` | web/vite.config.ts:53-63 | Exactly the files an entry leads to by static imports, with their stylesheets |
| `ChunkBudget.GenerateBundle` | web/vite.config.ts:48-110 | A right row for every measured file in order, the shell's sum, the routes the comparison reports, and the verdict |
| `ChunkBudget.MeasuredOnce` | web/vite.config.ts:68-90 | Every file with contents is measured exactly once |
| `ChunkBudget.EveryFileCharged` | web/vite.config.ts:65-90 | Every file that holds anything, stylesheets as well, is charged its gzipped size once, to the shell or to the routes; an empty one not at all |
| `ChunkBudget.BytesAddUp` | web/vite.config.ts:65-90 | Shell and route bytes add up to the gzipped bytes of every file measured |
| `ChunkBudget.NoneTooBig` | web/vite.config.ts:78-88 | None is reported if and only if every route is within its budget or bears a name the lookup inherits |
| `ChunkBudget.AllReportedExactlyWhen` | web/vite.config.ts:35-37 | Exactly the routes over budget are reported if and only if none of them bears an inherited name |
| `ChunkBudget.ConstructorIsMissed` | web/vite.config.ts:81-83 | A route chunk called `constructor` is never reported, whatever it weighs |
| `ChunkBudget.ChunkNameOfHashed` | web/vite.config.ts:39-42 | A hashed file name gives its chunk's name, in any directory |
| `Logo.Refill` | docs/javascripts/animated-logo.js:28-37 | One of each gesture, and the one drawn first differs from the last drawn |
| `Logo.Bag.NextGesture` | docs/javascripts/animated-logo.js:27-40 | One gesture is added to the draws, which stay in shuffled blocks without a repeat |
| `Logo.RecursWithinSeven` | docs/javascripts/animated-logo.js:27-40 | Every gesture comes round within any seven draws in a row |
| `Logo.EachPhaseRunsItsPeriod` | docs/javascripts/animated-logo.js:42-77 | In every run of visibility, motion, load and timer events in which a timeout fires only when it is due by the code's own clock, each phase that a timeout ended had run, pauses not counted, at least its period; a performance six seconds |
| `Logo.ClockKeepsThePhase` | docs/javascripts/animated-logo.js:55-77 | In every run, a timeout is pending exactly while the animation runs, and the clock's due time, start and remainder are what the phase has not run yet, however often it was paused |
| `Logo.DueWhenRun` | docs/javascripts/animated-logo.js:55-67 | In every run, the pending timeout is due exactly when the phase in progress has run its period |
| `Logo.Run` | docs/javascripts/animated-logo.js:8-113 | Whatever is put to the logo, in any order: exactly what can happen does; each phase a timeout ended had run its period, a timeout is pending exactly while the animation runs, a gesture shows exactly during a performance, and the gestures shown are the shuffled draws |
| `Logo.DrawsDoNotMatter` | docs/javascripts/animated-logo.js:42-77 | Which gestures are drawn has no bearing on the flags or the clock |
| `Logo.PhaseLengths` | docs/javascripts/animated-logo.js:42-53 | In every run, a performance is given 6000 ms and a pause 500, or from 2600 to under 6600 |
| `Logo.ShownWhenActive` | docs/javascripts/animated-logo.js:42-77 | In every run, a gesture shows exactly during a performance |
| `Logo.Play` | docs/javascripts/animated-logo.js:8-113 | Every lawful run is a run of the logo, after which its events alone say what it shows, whether a timeout is pending, and when that is due |
| `Logo.Animation.Sync` | docs/javascripts/animated-logo.js:55-67 | The clock stops, keeping what is left, or starts for what is left, exactly as the flags and the page call for; whatever period and time run it fitted, it still fits |
| `Logo.Animation.Tick` | docs/javascripts/animated-logo.js:42-53 | A timeout that fires continues a lawful run: flags, gesture, period and clock are what the events make them |
| `Logo.Animation.VisibilityChange` | docs/javascripts/animated-logo.js:87-87 | So does hiding or showing the page |
| `Logo.Animation.MotionChange` | docs/javascripts/animated-logo.js:69-77 | So does a change of preference, which with less motion returns to the still mark and the first wait |
| `Logo.Animation.Observed` | docs/javascripts/animated-logo.js:79-85 | So does coming into view or leaving it |
| `Logo.Animation.Enhanced` | docs/javascripts/animated-logo.js:100-110 | So does a picture that is decoded, and one decoded after disposal starts nothing |
| `Logo.Animation.Dispose` | docs/javascripts/animated-logo.js:89-98 | So does disposal, after which nothing is pending or shown |
| `Logo.TickFrom` | docs/javascripts/animated-logo.js:42-53 | A gesture is drawn exactly when a performance begins, and it is the one shown |

## Left out

- The controller's scheduler, providers, backends, API handlers and store, apart from the pieces cited above.
- Commands that fetch and print one thing, HTTP and TLS, Proxmox and Windows specifics, the MkDocs hooks: easy members or outside effects.
- Text that is not valid UTF-8, except in the edit distance and the tail buffer.
- Unicode case tables, `strconv.Atoi`, the launcher's search and the stable-version expression are parameters.
- EventStream.DeliveredAsSent: ids, comments and retry times are one line each, as the server makes them.
- GroupUsage.UsageReadsBack: group names and summaries are one line each, as in the command tables.
- Upgrade: what an applied deployment does inside; a roll back is one step. An operator does not set the continuation markers by hand.
- Database: the lease that keeps controllers on different hosts apart; the lock is one host's.
- Launcher: drawing, and the launcher opened without an environment; a command named `@fleet` does not exist.
- Table.CellAtColumn: how far a cell is off after one that ends inside an unfinished escape sequence; that it is off is in `Table.RowStandsExactlyWhen`.
- PoolEdit.Edit: the API's validation of the patched pool, which may turn an edit down as a whole; and pools the controller keeps itself, which take edits by a path of their own.
- PoolEdit.LeftAloneExactlyWhen: is about pools as the API stores them, with no negative figure and tidied modes; saving spells names, labels, platforms and an unset pull policy its own way, which changes nothing that was saved before.
- RunnerImage.MovedExactlyWhen: which tags are published is a parameter, the build's catalogue and channels.
- ToolLock.LockReadsBack: asks for entries of six words on a line the scanner can hold, which is what the generator's publishers give.
- ChunkBudget.GenerateBundle: the sorting of the printed rows and the wording of messages; a stylesheet is never itself a chunk.
- Logo.Animation.Tick: time is real-valued, and a timer fires no earlier than asked.
