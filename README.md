# Wearable-data ingestion: a Dafny model of `main.py`

The script walks a root directory of participant exports and uploads
whitelisted CSV tables to an Athena/S3 data lake. This project models the
script's core:

- **`looper`**: classifies each top-level entry as an active participant
  (`PPID <digits> Data`), a withdrawn one (`PPID <digits> Data - withdrew`) or
  an invalid name, and descends into active ones only.
- **`participantIngest`**: parses each file name with
  `^(\w+)_(\w+)_(\w+)_([0-9a-zA-Z \-]+)\.csv$`, takes group 3 as the
  participant id and group 4 as the raw table name, turns spaces and hyphens
  into underscores, and ingests the file when the table is whitelisted.
- **`ingestData`**: builds the table's storage path, adds a `pid` column, runs
  the date sniffer on `summary_date` (tables `activity` and `sleep`) or on `day`
  (table `sleep_periods`), and calls `wr.s3.to_parquet`, catching its errors.
- **`smartTyper` and `sampleEntry`**: take the first value of a column. If that
  value is text that starts like `YYYY-MM-DD`, they convert the column with
  the date parser.

The modules:

| module | file | what it holds |
|---|---|---|
| `Options` | `options.dfy` | the `Option` type |
| `Chars` | `chars.dfy` | the ASCII character classes of the regular expressions |
| `Naming` | `naming.dfy` | directory classification, file-name parsing, table-name normalisation, storage paths |
| `Typing` | `typing.dfy` | frames, `sampleEntry`, the date pattern, `smartTyper` |
| `Ingest` | `ingest.dfy` | `ingestData`, `participantIngest`, `looper` as methods over a recording upload target |
| `Runs` | `runs.dfy` | whole-run properties: where uploads come from, which files are uploaded, when a run aborts |
| `Scenarios` | `scenarios.dfy` | concrete names, dates and an example root directory |

The interface to the outside world is modelled as follows:

- **The file system** is an input value. The top-level listing is a sequence
  of `Entry` values, each with its name, whether it is a directory, and its
  files. Each file comes with the frame `pd.read_csv` would load from it.
- **`pd.to_datetime`** is a function parameter (`DateParser`). Its result
  `None` stands for the `ValueError` that `smartTyper` catches.
- **The upload target** is the `Sink` class. It records every `to_parquet`
  call and whether the call stored anything. A frame may or may not be
  stored. Anything else (`None`, a `type` object) is never stored.
- **Uncaught exceptions** are `Run.crashed`. When one is raised, the whole
  run stops. Besides the upload, the only `try` blocks are in `sampleEntry`
  and `smartTyper`, and they cover just `column[0]` and the date parse, so
  nothing catches the aborting errors listed below.

The methods `Ingest.Looper`, `Ingest.ParticipantIngest`,
`Ingest.IngestFiles`, `Ingest.IngestFile`, `Ingest.IngestData` and
`Typing.SmartTyper` follow the script's loops and in-place updates. Each is
proved against a specification function: `LooperRun`, `ParticipantRun`,
`FilesRun`, `FileStep`, `IngestSpec` and `SmartTyperSpec`. The lemmas state
what those functions guarantee.

### Where the model follows the code rather than its documentation

- **Failures are not isolated per file.** Besides the upload, only `column[0]`
  and the date parse are guarded. Three other errors abort the whole run,
  skipping every later file and participant:
  - an empty `aws_s3_data` (`s3_path[-1]`);
  - a typed table without its date column (`data[col]`);
  - a non-directory whose name matches the active convention (`os.listdir`
    on a file).

  `Runs.RunAborts` states exactly when a run aborts.
- **A non-text sample makes `smartTyper` return the `type` object, not
  `None`.** A text sample that is not a date makes it return `None`, and so
  does a failed parse. The caller assigns whatever comes back to `data`, so in
  all three cases the upload receives no frame (Finding 1).
- **File names are parsed the way Python's backtracking does it.**
  - `\w` includes `_`, so groups 1 to 3 may hold underscores:
    `x_a_b_001_sleep.csv` has tags `x_a` and `b`, and participant `001`.
  - Greedy backtracking then picks the longest possible group 1 and, after
    it, the longest group 2, which leaves the shortest possible group 3.
  - `$` also matches before one final newline.
- **Non-directories are warned about but not skipped.** One with a withdrawn
  or invalid name is skipped by the name test anyway. One with an active name
  aborts the run (Finding 2).

## Model

| member | source | states |
|---|---|---|
| Naming.ClassifyDirectoryPatterns | main.py:25-42 | an entry is withdrawn exactly when its name matches `^PPID [0-9]+ Data - withdrew$`, active exactly when it matches `^PPID [0-9]+ Data$` (the withdrawn test taking precedence), invalid exactly when it matches neither; `$` may stand before a final newline |
| Naming.ClassifyDirectory | main.py:33-42 | the withdrawn test first, then the active one, else invalid; characterised by `Naming.ClassifyDirectoryPatterns` |
| Naming.PatternsDisjoint | main.py:25-26 | no name matches both directory conventions, so the order of the two tests never decides between them |
| Naming.ParseFileName | main.py:55-61 | a parsed file name yields a participant id of word characters and a raw table name of letters, digits, spaces and hyphens |
| Naming.ParseSound | main.py:55-61 | every match the parser reports is a match of the file-name pattern with those four groups |
| Naming.ParseCompleteAndGreedy | main.py:55-61 | whenever the pattern matches a name, the parser reports a match with the same table group, the longest possible group 1 and the shortest possible participant group, as the regular-expression engine chooses |
| Naming.ParseCompleteInverse | main.py:58-59 | when the parser reports no match, no choice of four groups matches the pattern, so the file is rightly skipped |
| Naming.ParseFileNameRoundTrip | main.py:48-61 | a name built as `tag1_tag2_pid_table.csv`, with any number of leading tags in `tag1`, parses back to exactly those groups |
| Naming.ReplaceChar | main.py:63-64 | `str.replace` of one character: same length, each occurrence replaced and every other character kept |
| Naming.Normalize | main.py:62-64 | the normalised table name has the raw name's length and holds `_` where the raw name holds a space or a hyphen, and the raw character elsewhere |
| Naming.NormalizeIdempotent | main.py:62-64 | a normalised name holds no space or hyphen and normalising it again changes nothing |
| Naming.NormalizeFixesNormal | main.py:62-66 | a name without spaces or hyphens (case preserved) is its own normal form, so whitelist entries in that form are matched as written |
| Naming.TablePath | main.py:90-94 | the table path starts with the storage root, ends with `/<table>/`, and adds one `/` between them, none when the root already ends in `/` |
| Naming.TablePathTrailingSlash | main.py:92-94 | a root given with or without its trailing `/` yields the same table path |
| Typing.WithColumn | main.py:165 | assigning a column sets that column to the values and leaves the row count and every other column unchanged |
| Typing.WithConstant | main.py:97 | assigning a scalar puts it on every row of the named column and leaves every other column unchanged |
| Typing.Frame.constructor | main.py:67 | a frame is created holding the loaded table |
| Typing.Frame.AssignColumn | main.py:165 | `df[col] = series` replaces that column of the frame in place |
| Typing.Frame.AssignConstant | main.py:97 | `data['pid'] = pid` sets the `pid` column on every row of the frame in place |
| Typing.SampleEntry | main.py:186-191 | the sample is `None` exactly for an empty column, and otherwise the column's first entry |
| Typing.SampleReadsFirstOnly | main.py:188 | columns that agree on their first entry give the same sample, whatever the other rows hold |
| Typing.MonthCodeRange | main.py:158 | the month alternatives accept exactly the two-digit values 1 to 12 |
| Typing.DayCodeRange | main.py:158 | the day alternatives accept exactly the two-digit values 1 to 31, independent of the month |
| Typing.IsDateLikeMatchesPattern | main.py:158-161 | the position-based date test holds exactly when `re.match` of the date expression (with its word boundaries) succeeds |
| Typing.IsDateLike | main.py:158-161 | the date test on positions; characterised by `Typing.IsDateLikeMatchesPattern` |
| Typing.SmartTyperSpec | main.py:155-171 | the result and the frame after `smartTyper`; characterised by `Typing.SmartTyperOutcomes` |
| Typing.SmartTyperOutcomes | main.py:155-171 | each of the four results of `smartTyper` (`type`, `None`, the frame, the series), in both directions with the condition that produces it; the frame changes only when it is returned, and then only in the converted column |
| Typing.SmartTyper | main.py:135-171 | the method's result and the frame's new state are those of the specification function characterised above |
| Ingest.FoldCrashStops | main.py:57-71 | once an entry of a listing has raised, no later entry of that listing is processed |
| Ingest.Sink.ToParquet | main.py:109-119 | each upload call is recorded with its outcome, nothing but a frame is ever stored, and a failure is caught so the caller carries on |
| Ingest.IngestData | main.py:73-119 | the calls made, whether an exception escaped, and the frame's final state are those of the specification function `IngestSpec`; only frames are ever stored |
| Ingest.IngestSpec | main.py:88-119 | the calls, the abort and the final frame of `ingestData`; characterised by `Ingest.IngestSpecShape` and `Ingest.IngestSpecTyped` |
| Ingest.TyperColumns | main.py:102-106 | the fixed lookup of the date sniffer: `activity` and `sleep` to `summary_date`, `sleep_periods` to `day`; characterised by `Ingest.IngestSpecShape` and `Ingest.IngestSpecTyped` |
| Ingest.IngestSpecShape | main.py:90-119 | `ingestData` raises exactly when the storage root is empty or a typed table lacks its column, and then uploads nothing; otherwise it makes one call for the table, at its path, in the configured database, partitioned by `pid`, and any frame it sends carries the participant on every row; untyped tables are sent as loaded plus the `pid` column |
| Ingest.IngestSpecTyped | main.py:102-106 | for a typed table, the upload receives a frame exactly when the column's first value is date-like text and the whole column parses, and that frame has the parsed column in place |
| Ingest.IngestIntended | main.py:99-106 | `ingestData` corrected to upload the frame whatever `smartTyper` returns; characterised by `Ingest.IngestIntendedKeepsFrame` |
| Ingest.IngestIntendedKeepsFrame | main.py:99-106 | the corrected `ingestData` aborts exactly when the code does, always uploads a `pid`-tagged frame, and differs from the code only by sending the unconverted frame where the code sends `None` or `type` |
| Ingest.FileStep | main.py:58-71 | one file of `participantIngest`; characterised by `Runs.FileStepRun` and `Runs.FileStepUpload` |
| Ingest.IngestFile | main.py:58-71 | one file: skipped when its name does not match or its table is not whitelisted, otherwise ingested under the parsed participant and normalised table, as `FileStep` |
| Ingest.FilesRun | main.py:56-71 | the files of one directory in listing order, stopping at the first abort; characterised by `Runs.FoldCalls` and `Runs.FileStepRun` |
| Ingest.IngestFiles | main.py:56-71 | the loop over a directory's files makes the calls of each file in listing order and stops at the first exception, as `FilesRun` |
| Ingest.ParticipantRun | main.py:44-71 | `participantIngest` on one entry: a non-directory aborts, a directory runs its files; characterised by `Runs.EntryFacts` |
| Ingest.ParticipantIngest | main.py:44-71 | `participantIngest` on an entry: listing a non-directory raises; otherwise the loop over its files |
| Ingest.DirStep | main.py:29-42 | one entry of `looper`; characterised by `Runs.EntryFacts` |
| Ingest.VisitEntry | main.py:29-42 | one top-level entry: withdrawn and invalid names are skipped, an active one is handed to `participantIngest` |
| Ingest.LooperRun | main.py:17-42 | `looper` over the top-level listing in order, stopping at the first abort; characterised by `Runs.RunAborts`, `Runs.UploadsComeFromActiveFiles`, `Runs.SelectedFilesUploaded` and `Runs.SkippedEntriesIgnored` |
| Ingest.Looper | main.py:17-42 | the loop over the top-level listing makes the calls of each entry in listing order and stops at the first exception, as `LooperRun` |
| Runs.FoldCalls | main.py:28-42 | a listing's run makes only calls of its entries, makes all of them when it does not abort, and aborts exactly when some entry raises |
| Runs.FileStepRun | main.py:57-68 | one file aborts the run exactly when it is selected and its upload cannot be reached, and is uploaded exactly once exactly when it is selected and does not abort |
| Runs.FileStepUpload | main.py:59-68 | a file's upload is named after the file's participant and normalised table, that table is whitelisted, and the call is well formed (path, database, partitioning, tagged frame) |
| Runs.EntryFacts | main.py:28-42 | one top-level entry aborts exactly when it has an active name and is not a directory or holds an aborting file, every call it makes comes from one of its files, and when it does not abort every call of its files is made |
| Runs.UploadsComeFromActiveFiles | main.py:33-40 | every upload of a run is well formed and comes from a selected file of an active participant directory, so no withdrawn or invalid entry is ever uploaded |
| Runs.SelectedFilesUploaded | main.py:57-68 | in a run that does not abort, every selected file of every active directory makes exactly one upload call, and that call is among the run's calls |
| Runs.RunAborts | main.py:27-42 | a run aborts exactly when some active name is not a directory, or an active directory holds a selected file whose upload cannot be reached |
| Runs.ActiveEntriesMembers | main.py:33-40 | the entries handed to `participantIngest` are exactly the listed entries with an active name |
| Runs.SkippedEntriesIgnored | main.py:36-42 | the run over a listing equals the run over its active entries alone |
| Runs.CheckedDirStep | main.py:28-30 | one entry of `looper` corrected to skip a non-directory after the warning; characterised by `Runs.CheckedRunAborts` |
| Runs.CheckedLooperRun | main.py:28-42 | `looper` corrected to skip non-directories; characterised by `Runs.CheckedRunAborts` and `Runs.CheckedAgrees` |
| Runs.CheckedRunAborts | main.py:28-30 | with non-directories skipped, a run aborts exactly when an active directory holds a file whose upload cannot be reached |
| Runs.CheckedAgrees | main.py:28-30 | skipping non-directories changes nothing for a listing whose active names are all directories |
| Scenarios.ActiveDirectory | main.py:25 | `PPID 001 Data` is active |
| Scenarios.WithdrawnDirectory | main.py:26 | `PPID 002 Data - withdrew` is withdrawn |
| Scenarios.WithdrawnDirectoryNewline | main.py:26 | a final newline after a withdrawn name still matches |
| Scenarios.InvalidDirectory | main.py:41-42 | `notes` is invalid |
| Scenarios.PlainFileName | main.py:55-61 | `a_b_001_sleep.csv` yields participant `001` and table `sleep` |
| Scenarios.LeadingTagFileName | main.py:48-49 | `x_a_b_001_sleep periods.csv` yields tags `x_a` and `b`, participant `001`, table `sleep periods` |
| Scenarios.NoUnderscoreFileName | main.py:70-71 | `bad name.csv` does not match |
| Scenarios.NormalizeJoin | main.py:63-64 | a space or hyphen between two normal names becomes one underscore |
| Scenarios.SpacedTableName | main.py:63 | `sleep periods` normalises to `sleep_periods` |
| Scenarios.HyphenatedTableName | main.py:64 | `sleep-periods` normalises to `sleep_periods` |
| Scenarios.TablePathWithoutSlash | main.py:92 | root `s3://bucket/data` gives `s3://bucket/data/sleep/` |
| Scenarios.TablePathWithSlash | main.py:93-94 | root `s3://bucket/data/` gives the same path |
| Scenarios.DateSamples | main.py:158-161 | `2024-01-15`, `2024-02-31` and `2024-01-15 10:00` are date-like; `2024-13-40`, `2024-00-10`, `2024-01-15T10:00` and `24-01-15` are not |
| Scenarios.NumericSample | main.py:155-156 | a numeric sample gives the `type` object and leaves the frame alone |
| Scenarios.RootIngests | main.py:17-68 | with `sleep` whitelisted, the run over the example root is the ingestion of participant `001`'s frame as table `sleep` |
| Scenarios.OneActiveParticipant | main.py:17-119 | the example root is ingested without abort in one call, for participant `001`, table `sleep`, at `s3://bucket/data/sleep/`; the withdrawn participant and the stray entry contribute nothing |
| Scenarios.EmptyStorageRoot | main.py:90-93 | an empty storage root aborts the example run with no upload |
| Scenarios.UnconvertedSleepLost | main.py:104 | as written, a `sleep` frame whose first date reads `15/01/2024` is sent to the upload as `None`; the corrected version sends the tagged frame |
| Scenarios.AbortAtFirst | main.py:28-40 | a first entry with an active name that is not a directory stops the run before the next entry |
| Scenarios.CheckedStraySkipped | main.py:28-30 | with non-directories skipped, such an entry leaves the run of the next one |
| Scenarios.StrayActiveFileAborts | main.py:28-40 | a plain file `PPID 003 Data` listed before participant `001` aborts the run with no upload; skipping it gives the example root's run |

## Left out

- File system access (`os.listdir`, `os.path.isdir`, `open`, `pd.read_csv`): the listing and each file's loaded frame are inputs. Errors raised while reading a CSV are not modelled.
- The storage service's create-or-append semantics and its reasons for failing: a frame upload stores or fails nondeterministically, and nothing else is modelled about the stored tables.
- `pd.to_datetime` is a parameter. Exceptions other than `ValueError` from it (which would escape) are not modelled.
- `loadConfig`, `main`, `showDataTypes` and every `print`: configuration is the `Config` value, and logging has no effect on the model.
- Python 3's `\w` and `\d` also match non-ASCII letters and digits. The model uses their ASCII subsets.
- `column[0]` in `sampleEntry` is a label lookup in pandas. The model takes the first position, which is what it reads for the default index `pd.read_csv` builds.
- Cell values are `Text`, `Numeric`, `Missing` or `Moment`. pandas dtypes and float values are not modelled.
- Typing.SmartTyper: requires the column to be present, because its only caller reads `data[col]` first and that raises before `smartTyper` is reached.
- Naming.TablePath: requires a non-empty root, because an empty one raises in `s3_path[-1]`. `Ingest.IngestSpec` models that case as an abort.

## Findings

| source | as written | input that shows it | evidently intended | confidence | as-written member | corrected member |
|---|---|---|---|---|---|---|
| main.py:104-106 | `data = smartTyper(...)` replaces the frame with `smartTyper`'s result, which is `None` (or the `type` object) whenever no conversion happens, so the upload receives no frame and the file is never stored | a `sleep` file whose `summary_date` starts with `15/01/2024` | keep the frame and upload it unconverted when the sniffer does not convert | not executed | Scenarios.UnconvertedSleepLost | Ingest.IngestIntendedKeepsFrame |
| main.py:28-40 | a non-directory is only warned about; when its name matches the active convention it is passed to `participantIngest`, whose `os.listdir` raises and ends the whole run | a plain file `PPID 003 Data` listed before the directory `PPID 001 Data` | skip a non-directory after the warning | not executed | Scenarios.StrayActiveFileAborts | Runs.CheckedRunAborts |
