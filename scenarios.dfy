/**
  Concrete cases of the naming conventions, the type sniffer and a whole run.
 */
module Scenarios {
  import opened Options
  import opened Chars
  import opened Naming
  import opened Typing
  import opened Ingest
  import opened Runs

  lemma ActiveDirectory()
    ensures ClassifyDirectory("PPID 001 Data") == Active
  {
    assert "PPID 001 Data" == ActiveName("001");
    assert AllDigits("001");
    ClassifyDirectoryPatterns("PPID 001 Data");
  }

  lemma WithdrawnDirectory()
    ensures ClassifyDirectory("PPID 002 Data - withdrew") == Withdrawn
  {
    assert "PPID 002 Data - withdrew" == WithdrawnName("002");
    assert AllDigits("002");
    ClassifyDirectoryPatterns("PPID 002 Data - withdrew");
  }

  /** Python's `$` also matches before one final newline. */
  lemma WithdrawnDirectoryNewline()
    ensures ClassifyDirectory("PPID 002 Data - withdrew\n") == Withdrawn
  {
    assert "PPID 002 Data - withdrew\n" == WithdrawnName("002") + "\n";
    assert AllDigits("002");
    ClassifyDirectoryPatterns("PPID 002 Data - withdrew\n");
  }

  lemma InvalidDirectory()
    ensures ClassifyDirectory("notes") == Invalid
  {
  }

  /** The participant is the third group. */
  lemma PlainFileName()
    ensures ParseFileName("a_b_001_sleep.csv") == Some(FileMatch("a", "b", "001", "sleep"))
  {
    assert "a_b_001_sleep.csv" == FileName("a", "b", "001", "sleep");
    ParseFileNameRoundTrip("a", "b", "001", "sleep");
  }

  /** Extra leading tags join the first group; the table may hold a space. */
  lemma LeadingTagFileName()
    ensures ParseFileName("x_a_b_001_sleep periods.csv") == Some(FileMatch("x_a", "b", "001", "sleep periods"))
  {
    assert "x_a_b_001_sleep periods.csv" == FileName("x_a", "b", "001", "sleep periods");
    assert "x_a" == "x" + "_" + "a";
    WordJoin("x", "a");
    ParseFileNameRoundTrip("x_a", "b", "001", "sleep periods");
  }

  lemma NoUnderscoreFileName()
    ensures ParseFileName("bad name.csv") == None
  {
    var n, x := "bad name.csv", "bad name";
    assert n == x + ".csv";
    assert n[|n| - 4..] == ".csv" && n[..|n| - 4] == x;
    assert LastIndexOf(x, '_', |x|) == None;
  }

  /** A space or a hyphen between two normal names becomes an underscore. */
  lemma NormalizeJoin(a: string, c: char, b: string)
    requires IsNormal(a) && IsNormal(b) && (c == ' ' || c == '-')
    ensures Normalize(a + [c] + b) == a + "_" + b
  {
    var s := a + [c] + b;
    assert forall i :: 0 <= i < |s| ==> Normalize(s)[i] == (a + "_" + b)[i];
  }

  lemma SpacedTableName()
    ensures Normalize("sleep periods") == "sleep_periods"
  {
    assert "sleep periods" == "sleep" + [' '] + "periods";
    assert "sleep_periods" == "sleep" + "_" + "periods";
    NormalizeJoin("sleep", ' ', "periods");
  }

  lemma HyphenatedTableName()
    ensures Normalize("sleep-periods") == "sleep_periods"
  {
    assert "sleep-periods" == "sleep" + ['-'] + "periods";
    assert "sleep_periods" == "sleep" + "_" + "periods";
    NormalizeJoin("sleep", '-', "periods");
  }

  lemma TablePathWithoutSlash()
    ensures TablePath("s3://bucket/data", "sleep") == "s3://bucket/data/sleep/"
  {
  }

  lemma TablePathWithSlash()
    ensures TablePath("s3://bucket/data/", "sleep") == "s3://bucket/data/sleep/"
  {
  }

  /** The check is on the format only, and needs a word boundary after the day. */
  lemma DateSamples()
    ensures IsDateLike("2024-01-15") && IsDateLike("2024-02-31") && IsDateLike("2024-01-15 10:00")
    ensures !IsDateLike("2024-13-40") && !IsDateLike("2024-00-10") && !IsDateLike("2024-01-15T10:00")
    ensures !IsDateLike("24-01-15")
  {
  }

  /** A sample that is not text makes `smartTyper` return `type`, not `None`. */
  lemma NumericSample(t: Table, col: string, toDatetime: DateParser)
    requires col in t.columns
    ensures SmartTyperSpec(Some(Numeric(42)), t, col, true, toDatetime) == TyperOutcome(TypeObject, t)
  {
  }

  const Sleep := Table(1, map["summary_date" := [Text("2024-01-15")]])
  const Bucket := Config(["sleep"], "study", "s3://bucket/data")
  const Active001 := Entry("PPID 001 Data", true, [FileEntry("a_b_001_sleep.csv", Sleep)])
  const Withdrawn002 := Entry("PPID 002 Data - withdrew", true, [FileEntry("a_b_002_sleep.csv", Sleep)])
  const Stray := Entry("notes", false, [])
  const Root := [Active001, Withdrawn002, Stray]

  /** A listing of one active entry followed by two skipped ones runs the active one alone. */
  lemma FirstOfThree(a: Entry, w: Entry, s: Entry, cfg: Config, toDatetime: DateParser)
    requires ClassifyDirectory(a.name) == Active
    requires ClassifyDirectory(w.name) != Active && ClassifyDirectory(s.name) != Active
    ensures LooperRun([a, w, s], cfg, toDatetime) == LooperRun([a], cfg, toDatetime)
  {
    ActiveEntriesAppend([], a);
    ActiveEntriesAppend([a], w);
    ActiveEntriesAppend([a, w], s);
    assert [] + [a] == [a] && [a] + [w] == [a, w] && [a, w] + [s] == [a, w, s];
    SkippedEntriesIgnored([a, w, s], cfg, toDatetime);
    SkippedEntriesIgnored([a], cfg, toDatetime);
  }

  /** An active directory holding one file runs that file. */
  lemma OneFile(a: Entry, cfg: Config, toDatetime: DateParser)
    requires ClassifyDirectory(a.name) == Active && a.isDir && |a.files| == 1
    ensures LooperRun([a], cfg, toDatetime) == FileStep(a.files[0], cfg, toDatetime)
  {
    FoldSingle(a, DirSteps(cfg, toDatetime));
    assert a.files == [a.files[0]];
    FoldSingle(a.files[0], FileSteps(cfg, toDatetime));
  }

  /** The run over the root is the run over the one file of participant `001`. */
  lemma RootRun(cfg: Config, toDatetime: DateParser)
    ensures LooperRun(Root, cfg, toDatetime) == FileStep(Active001.files[0], cfg, toDatetime)
  {
    ActiveDirectory();
    WithdrawnDirectory();
    InvalidDirectory();
    FirstOfThree(Active001, Withdrawn002, Stray, cfg, toDatetime);
    OneFile(Active001, cfg, toDatetime);
  }

  /** A file whose name parses is ingested under the parsed participant and
      normalised table when that table is whitelisted. */
  lemma ParsedFile(f: FileEntry, m: FileMatch, cfg: Config, toDatetime: DateParser)
    requires ParseFileName(f.name) == Some(m)
    ensures FileStep(f, cfg, toDatetime) ==
      if Normalize(m.rawTable) in cfg.whitelist
      then IngestSpec(f.contents, m.pid, Normalize(m.rawTable), cfg, toDatetime, true).run
      else NoCalls
  {
  }

  /** With `sleep` whitelisted, the run over the root is the ingestion of
      participant `001`'s frame as table `sleep`. */
  lemma RootIngests(cfg: Config, toDatetime: DateParser)
    requires "sleep" in cfg.whitelist
    ensures LooperRun(Root, cfg, toDatetime) == IngestSpec(Sleep, "001", "sleep", cfg, toDatetime, true).run
  {
    RootRun(cfg, toDatetime);
    var f := Active001.files[0];
    assert f == FileEntry("a_b_001_sleep.csv", Sleep);
    PlainFileName();
    NormalizeFixesNormal("sleep");
    ParsedFile(f, FileMatch("a", "b", "001", "sleep"), cfg, toDatetime);
  }

  /** The active participant's file is uploaded once, tagged `001`; the
      withdrawn participant's file and the stray entry are never touched. */
  lemma OneActiveParticipant(toDatetime: DateParser)
    ensures var r := LooperRun(Root, Bucket, toDatetime);
      && !r.crashed && |r.calls| == 1
      && r.calls[0].pid == "001" && r.calls[0].table == "sleep"
      && r.calls[0].path == "s3://bucket/data/sleep/" && r.calls[0].database == "study"
      && (r.calls[0].payload.Dataset? <==> toDatetime([Text("2024-01-15")]).Some?)
  {
    RootIngests(Bucket, toDatetime);
    TablePathWithoutSlash();
    IngestSpecShape(Sleep, "001", "sleep", Bucket, toDatetime, true);
    IngestSpecTyped(Sleep, "001", "sleep", Bucket, toDatetime);
    assert DatePattern("2024-01-15") by {
      DateSamples();
      IsDateLikeMatchesPattern("2024-01-15");
    }
  }

  /** An empty storage root aborts the run at the first whitelisted file. */
  lemma EmptyStorageRoot(toDatetime: DateParser)
    ensures LooperRun(Root, Bucket.(s3Path := ""), toDatetime) == Run([], true)
  {
    RootIngests(Bucket.(s3Path := ""), toDatetime);
  }

  const Frame001 := Table(1, map["summary_date" := [Text("15/01/2024")]])

  /** A `sleep` file whose first date is not written `YYYY-MM-DD`: as written,
      `ingestData` hands `None` to the upload, which can never store it; the
      intended version uploads the tagged frame. */
  lemma UnconvertedSleepLost(toDatetime: DateParser)
    ensures var w := IngestSpec(Frame001, "001", "sleep", Bucket, toDatetime, true).run;
      |w.calls| == 1 && w.calls[0].payload == NotAFrame(NoneObject)
    ensures var r := IngestIntended(Frame001, "001", "sleep", Bucket, toDatetime, true).run;
      |r.calls| == 1 && r.calls[0].payload == Dataset(WithConstant(Frame001, "pid", Text("001")))
  {
    var s := "15/01/2024";
    assert !IsDateLike(s) by {
      assert !IsDigit(s[..4][2]);
    }
    IsDateLikeMatchesPattern(s);
    var tagged := WithConstant(Frame001, "pid", Text("001"));
    assert tagged.columns["summary_date"] == [Text(s)];
    SmartTyperOutcomes(SampleEntry(tagged.columns["summary_date"]), tagged, "summary_date", true, toDatetime);
    IngestIntendedKeepsFrame(Frame001, "001", "sleep", Bucket, toDatetime, true);
  }

  const StrayActive := Entry("PPID 003 Data", false, [])

  lemma StrayActiveName()
    ensures ClassifyDirectory(StrayActive.name) == Active
  {
    assert "PPID 003 Data" == ActiveName("003");
    assert AllDigits("003");
    ClassifyDirectoryPatterns("PPID 003 Data");
  }

  /** A first entry with an active name that is not a directory stops the run. */
  lemma AbortAtFirst(a: Entry, b: Entry, cfg: Config, toDatetime: DateParser)
    requires ClassifyDirectory(a.name) == Active && !a.isDir
    ensures LooperRun([a, b], cfg, toDatetime) == Run([], true)
  {
    FoldSingle(a, DirSteps(cfg, toDatetime));
    assert [a, b][..1] == [a];
    FoldCrashStops([a, b], 1, DirSteps(cfg, toDatetime));
  }

  /** Skipping a first entry that is not a directory leaves the run of the second. */
  lemma CheckedStraySkipped(a: Entry, b: Entry, cfg: Config, toDatetime: DateParser)
    requires !a.isDir && b.isDir
    ensures CheckedLooperRun([a, b], cfg, toDatetime) == LooperRun([b], cfg, toDatetime)
  {
    var f := CheckedDirSteps(cfg, toDatetime);
    assert [a, b][..1] == [a] && [a][..0] == [];
    assert Fold([a, b], f) == Then(Fold([a], f), f(b));
    FoldSingle(b, DirSteps(cfg, toDatetime));
  }

  /** A plain file named like an active participant: as written, listing it
      raises and the run stops before participant `001`; skipping it, as the
      warning suggests, gives the run of the example root. */
  lemma StrayActiveFileAborts(toDatetime: DateParser)
    ensures LooperRun([StrayActive, Active001], Bucket, toDatetime) == Run([], true)
    ensures CheckedLooperRun([StrayActive, Active001], Bucket, toDatetime) == LooperRun(Root, Bucket, toDatetime)
  {
    StrayActiveName();
    AbortAtFirst(StrayActive, Active001, Bucket, toDatetime);
    CheckedStraySkipped(StrayActive, Active001, Bucket, toDatetime);
    ActiveDirectory();
    WithdrawnDirectory();
    InvalidDirectory();
    FirstOfThree(Active001, Withdrawn002, Stray, Bucket, toDatetime);
  }
}
