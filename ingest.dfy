/**
  The ingestion walk of main.py: `looper` classifies the top-level entries,
  `participantIngest` parses and filters the files of an active participant,
  and `ingestData` tags, types and uploads one file's frame. The file system is
  an input listing, the upload target is the `Sink` class, and an exception
  that nothing catches ends the run (`Run.crashed`).
 */
module Ingest {
  import opened Naming
  import opened Typing

  /** The configuration `loadConfig` builds: the whitelist, `aws_database` and `aws_s3_data`. */
  datatype Config = Config(whitelist: seq<string>, database: string, s3Path: string)

  /** One file of a participant directory, with the frame `pd.read_csv` loads from it. */
  datatype FileEntry = FileEntry(name: string, contents: Table)

  /** One entry of the top-level listing; `files` is its listing when it is a directory. */
  datatype Entry = Entry(name: string, isDir: bool, files: seq<FileEntry>)

  /** What is passed as `df`: a frame, or whatever `smartTyper` returned instead of one. */
  datatype Payload = Dataset(table: Table) | NotAFrame(value: Typed)

  /** One call of `wr.s3.to_parquet`, with the participant whose file it came from. */
  datatype Request = Request(table: string, path: string, database: string,
                             partitionCols: seq<string>, pid: string, payload: Payload)

  /** The calls a run makes, and whether an uncaught exception ended it. */
  datatype Run = Run(calls: seq<Request>, crashed: bool)

  /** Running `a` and then, unless it crashed, `b`. */
  function Then(a: Run, b: Run): Run {
    if a.crashed then a else Run(a.calls + b.calls, b.crashed)
  }

  const NoCalls := Run([], false)

  /** Running `step` on each element of a listing in order, stopping at the first crash. */
  function Fold<T>(xs: seq<T>, step: T -> Run): Run
    decreases |xs|
  {
    if xs == [] then NoCalls
    else Then(Fold(xs[..|xs| - 1], step), step(xs[|xs| - 1]))
  }

  lemma AppendAssoc<T>(a: seq<T>, b: seq<T>, c: seq<T>)
    ensures a + b + c == a + (b + c)
  {
  }

  /** Once a prefix of a listing has crashed, the rest of it is never reached. */
  lemma {:induction false} FoldCrashStops<T>(xs: seq<T>, k: nat, step: T -> Run)
    requires k <= |xs| && Fold(xs[..k], step).crashed
    ensures Fold(xs, step) == Fold(xs[..k], step)
    decreases |xs|
  {
    if k < |xs| {
      var init := xs[..|xs| - 1];
      assert init[..k] == xs[..k];
      FoldCrashStops(init, k, step);
    } else {
      assert xs[..k] == xs;
    }
  }

  /** Folding one more element of a listing runs its step after the prefix. */
  lemma FoldStep<T>(xs: seq<T>, i: nat, step: T -> Run)
    requires i < |xs|
    ensures Fold(xs[..i + 1], step) == Then(Fold(xs[..i], step), step(xs[i]))
  {
    assert xs[..i + 1][..i] == xs[..i];
  }

  /** The manual table-to-column lookup of the type sniffer (main.py:103-106). */
  const TyperColumns: map<string, string> :=
    map["activity" := "summary_date", "sleep" := "summary_date", "sleep_periods" := "day"]

  // ---------------------------------------------------------------------------
  // The upload target
  // ---------------------------------------------------------------------------

  /** Only a frame can be stored. */
  predicate StoresOnlyFrames(req: Request, stored: bool) {
    stored ==> req.payload.Dataset?
  }

  /**
    The storage service behind `wr.s3.to_parquet`: every call is recorded with
    whether it stored the data. A call whose `df` is not a frame always raises;
    a frame may be stored or may fail for reasons outside this model. Either
    way the exception is caught and logged (main.py:109-119).
   */
  class Sink {
    var calls: seq<Request>
    var outcomes: seq<bool>

    ghost predicate Valid()
      reads this
    {
      |outcomes| == |calls| &&
      forall i {:trigger StoresOnlyFrames(calls[i], outcomes[i])} :: 0 <= i < |calls| ==> StoresOnlyFrames(calls[i], outcomes[i])
    }

    constructor ()
      ensures Valid() && calls == [] && outcomes == []
    {
      calls, outcomes := [], [];
    }

    method ToParquet(req: Request) returns (stored: bool)
      requires Valid()
      modifies this
      ensures Valid()
      ensures calls == old(calls) + [req] && outcomes == old(outcomes) + [stored]
      ensures stored ==> req.payload.Dataset?
    {
      if req.payload.Dataset? {
        stored :| true;
      } else {
        stored := false;
      }
      calls, outcomes := calls + [req], outcomes + [stored];
    }
  }

  // ---------------------------------------------------------------------------
  // ingestData (main.py:73-119)
  // ---------------------------------------------------------------------------

  datatype IngestOutcome = IngestOutcome(run: Run, frame: Table)

  /**
    What `ingestData(data, pid, tablename, config, enableTyper)` does with the
    frame `t`: an empty storage root makes `s3_path[-1]` raise; the frame gets
    a `pid` column; for a table of the typer lookup, a missing column makes
    `data[col]` raise, and otherwise `data` becomes whatever `smartTyper`
    returns; then one upload is attempted. Also gives the frame's final state.
   */
  function IngestSpec(t: Table, pid: string, table: string, cfg: Config,
                      toDatetime: DateParser, enableTyper: bool): IngestOutcome
  {
    if |cfg.s3Path| == 0 then IngestOutcome(Run([], true), t)
    else
      var path := TablePath(cfg.s3Path, table);
      var tagged := WithConstant(t, "pid", Text(pid));
      if enableTyper && table in TyperColumns then
        var col := TyperColumns[table];
        if col !in tagged.columns then IngestOutcome(Run([], true), tagged)
        else
          var o := SmartTyperSpec(SampleEntry(tagged.columns[col]), tagged, col, true, toDatetime);
          var payload := if o.result == FrameObject then Dataset(o.frame) else NotAFrame(o.result);
          IngestOutcome(Run([Request(table, path, cfg.database, ["pid"], pid, payload)], false), o.frame)
      else
        IngestOutcome(Run([Request(table, path, cfg.database, ["pid"], pid, Dataset(tagged))], false), tagged)
  }

  method IngestData(data: Frame, pid: string, table: string, cfg: Config,
                    toDatetime: DateParser, sink: Sink, enableTyper: bool) returns (crashed: bool)
    requires sink.Valid()
    modifies data, sink
    ensures sink.Valid() && old(sink.outcomes) <= sink.outcomes
    ensures var o := IngestSpec(old(data.Snapshot()), pid, table, cfg, toDatetime, enableTyper);
      sink.calls == old(sink.calls) + o.run.calls && crashed == o.run.crashed && data.Snapshot() == o.frame
  {
    if |cfg.s3Path| == 0 {
      // s3_path[-1] raises IndexError, and nothing catches it
      return true;
    }
    var tablePath := TablePath(cfg.s3Path, table);
    data.AssignConstant("pid", Text(pid));
    var typed := FrameObject;  // `data` still refers to the frame
    if enableTyper && table in TyperColumns {
      var col := TyperColumns[table];
      if col !in data.columns {
        // data[col] raises KeyError, and nothing catches it
        return true;
      }
      typed := SmartTyper(SampleEntry(data.columns[col]), data, col, true, toDatetime);
    }
    var payload := if typed == FrameObject then Dataset(data.Snapshot()) else NotAFrame(typed);
    var _ := sink.ToParquet(Request(table, tablePath, cfg.database, ["pid"], pid, payload));
    crashed := false;
  }

  /** A frame carries `pid` on every row. */
  predicate PidTagged(t: Table, pid: string) {
    "pid" in t.columns && |t.columns["pid"]| == t.rows &&
    forall k :: 0 <= k < t.rows ==> t.columns["pid"][k] == Text(pid)
  }

  /**
    `ingestData` raises exactly when the storage root is empty or the typed
    column is missing; otherwise it makes one call, for the given table, at
    the table's path, partitioned by `pid`, and any frame it uploads carries
    the `pid` column. A table outside the typer lookup is uploaded as loaded,
    with only the `pid` column set.
   */
  lemma IngestSpecShape(t: Table, pid: string, table: string, cfg: Config,
                        toDatetime: DateParser, enableTyper: bool)
    ensures var r := IngestSpec(t, pid, table, cfg, toDatetime, enableTyper).run;
      && (r.crashed <==>
            (|cfg.s3Path| == 0 || (enableTyper && table in TyperColumns && TyperColumns[table] !in t.columns)))
      && (r.crashed ==> r.calls == [])
      && (!r.crashed ==>
            (|r.calls| == 1 && |cfg.s3Path| > 0 &&
             var c := r.calls[0];
             && c.table == table && c.pid == pid && c.path == TablePath(cfg.s3Path, table)
             && c.database == cfg.database && c.partitionCols == ["pid"]
             && (c.payload.Dataset? ==> PidTagged(c.payload.table, pid))
             && (!(enableTyper && table in TyperColumns) ==>
                   c.payload == Dataset(WithConstant(t, "pid", Text(pid))))))
  {
    if |cfg.s3Path| > 0 && enableTyper && table in TyperColumns {
      var col := TyperColumns[table];
      var tagged := WithConstant(t, "pid", Text(pid));
      assert col != "pid";
      if col in tagged.columns {
        SmartTyperOutcomes(SampleEntry(tagged.columns[col]), tagged, col, true, toDatetime);
      }
    }
  }

  /**
    For a table of the typer lookup whose column is present, the uploaded
    `df` is a frame exactly when the column's first value is text that
    starts like a date and the whole column parses; that frame has the
    parsed column in place. In every other case `data` is `type` or `None`,
    which the upload rejects.
   */
  lemma IngestSpecTyped(t: Table, pid: string, table: string, cfg: Config, toDatetime: DateParser)
    requires |cfg.s3Path| > 0 && table in TyperColumns && TyperColumns[table] in t.columns
    ensures var col := TyperColumns[table];
      var sample := SampleEntry(t.columns[col]);
      var r := IngestSpec(t, pid, table, cfg, toDatetime, true).run;
      && |r.calls| == 1
      && (r.calls[0].payload.Dataset? <==>
            sample.Some? && sample.value.Text? && DatePattern(sample.value.s) &&
            toDatetime(t.columns[col]).Some?)
      && (r.calls[0].payload.Dataset? ==>
            r.calls[0].payload.table ==
              WithColumn(WithConstant(t, "pid", Text(pid)), col, toDatetime(t.columns[col]).value))
  {
    var col := TyperColumns[table];
    var tagged := WithConstant(t, "pid", Text(pid));
    assert col != "pid";
    assert tagged.columns[col] == t.columns[col];
    SmartTyperOutcomes(SampleEntry(tagged.columns[col]), tagged, col, true, toDatetime);
  }

  /**
    `ingestData` as its documentation describes it: the typer only ever
    improves the frame, so whatever `smartTyper` returns, the frame itself
    (converted in place or not) is what gets uploaded.
   */
  function IngestIntended(t: Table, pid: string, table: string, cfg: Config,
                          toDatetime: DateParser, enableTyper: bool): IngestOutcome
  {
    if |cfg.s3Path| == 0 then IngestOutcome(Run([], true), t)
    else
      var path := TablePath(cfg.s3Path, table);
      var tagged := WithConstant(t, "pid", Text(pid));
      if enableTyper && table in TyperColumns then
        var col := TyperColumns[table];
        if col !in tagged.columns then IngestOutcome(Run([], true), tagged)
        else
          var o := SmartTyperSpec(SampleEntry(tagged.columns[col]), tagged, col, true, toDatetime);
          IngestOutcome(Run([Request(table, path, cfg.database, ["pid"], pid, Dataset(o.frame))], false), o.frame)
      else
        IngestOutcome(Run([Request(table, path, cfg.database, ["pid"], pid, Dataset(tagged))], false), tagged)
  }

  /**
    The intended `ingestData` aborts exactly when the code as written does, and
    always uploads a `pid`-tagged frame. It differs from the code only where
    the code uploads something other than a frame: there it uploads the tagged
    frame unconverted, with every other field of the call the same.
   */
  lemma IngestIntendedKeepsFrame(t: Table, pid: string, table: string, cfg: Config,
                                 toDatetime: DateParser, enableTyper: bool)
    ensures var r := IngestIntended(t, pid, table, cfg, toDatetime, enableTyper).run;
      var w := IngestSpec(t, pid, table, cfg, toDatetime, enableTyper).run;
      && r.crashed == w.crashed
      && (r.crashed ==> r.calls == [])
      && (!r.crashed ==>
            && |r.calls| == 1 && |w.calls| == 1
            && r.calls[0].payload.Dataset? && PidTagged(r.calls[0].payload.table, pid)
            && (w.calls[0].payload.Dataset? ==> r == w)
            && (!w.calls[0].payload.Dataset? ==>
                  r.calls[0] == w.calls[0].(payload := Dataset(WithConstant(t, "pid", Text(pid))))))
  {
    IngestSpecShape(t, pid, table, cfg, toDatetime, enableTyper);
    if |cfg.s3Path| > 0 && enableTyper && table in TyperColumns {
      var col := TyperColumns[table];
      var tagged := WithConstant(t, "pid", Text(pid));
      assert col != "pid";
      if col in tagged.columns {
        SmartTyperOutcomes(SampleEntry(tagged.columns[col]), tagged, col, true, toDatetime);
        var o := SmartTyperSpec(SampleEntry(tagged.columns[col]), tagged, col, true, toDatetime);
        assert o.frame.columns["pid"] == tagged.columns["pid"];
      }
    }
  }

  // ---------------------------------------------------------------------------
  // participantIngest (main.py:44-71)
  // ---------------------------------------------------------------------------

  /** One file: a name that does not match is skipped with a warning; a table
      outside the whitelist is skipped; any other file is loaded and ingested. */
  function FileStep(f: FileEntry, cfg: Config, toDatetime: DateParser): Run {
    match ParseFileName(f.name)
    case None => NoCalls
    case Some(m) =>
      var tablename := Normalize(m.rawTable);
      if tablename in cfg.whitelist then IngestSpec(f.contents, m.pid, tablename, cfg, toDatetime, true).run
      else NoCalls
  }

  /** The files of one directory, in listing order. */
  function FilesRun(files: seq<FileEntry>, cfg: Config, toDatetime: DateParser): Run {
    Fold(files, FileSteps(cfg, toDatetime))
  }

  function FileSteps(cfg: Config, toDatetime: DateParser): FileEntry -> Run {
    f => FileStep(f, cfg, toDatetime)
  }

  /** `participantIngest` on one entry: listing an entry that is not a directory raises. */
  function ParticipantRun(e: Entry, cfg: Config, toDatetime: DateParser): Run {
    if !e.isDir then Run([], true) else FilesRun(e.files, cfg, toDatetime)
  }

  /** The body of `participantIngest`'s loop for one file. */
  method IngestFile(file: FileEntry, cfg: Config, toDatetime: DateParser, sink: Sink) returns (crashed: bool)
    requires sink.Valid()
    modifies sink
    ensures sink.Valid() && old(sink.outcomes) <= sink.outcomes
    ensures var r := FileStep(file, cfg, toDatetime);
      sink.calls == old(sink.calls) + r.calls && crashed == r.crashed
  {
    var m := ParseFileName(file.name);
    if m.Some? {
      var pid := m.value.pid;
      var tablename := Normalize(m.value.rawTable);
      if tablename in cfg.whitelist {
        var data := new Frame(file.contents);
        crashed := IngestData(data, pid, tablename, cfg, toDatetime, sink, true);
        return;
      }
    } else {
      // warning: the file name breaks the convention
    }
    crashed := false;
  }

  /** The loop of `participantIngest` over a directory listing. */
  method IngestFiles(files: seq<FileEntry>, cfg: Config, toDatetime: DateParser, sink: Sink) returns (crashed: bool)
    requires sink.Valid()
    modifies sink
    ensures sink.Valid() && old(sink.outcomes) <= sink.outcomes
    ensures var r := FilesRun(files, cfg, toDatetime);
      sink.calls == old(sink.calls) + r.calls && crashed == r.crashed
  {
    var i := 0;
    ghost var acc := NoCalls;
    crashed := false;
    while i < |files| && !crashed
      invariant 0 <= i <= |files|
      invariant acc == Fold(files[..i], FileSteps(cfg, toDatetime))
      invariant sink.Valid() && old(sink.outcomes) <= sink.outcomes
      invariant crashed == acc.crashed && sink.calls == old(sink.calls) + acc.calls
    {
      FoldStep(files, i, FileSteps(cfg, toDatetime));
      ghost var r := FileStep(files[i], cfg, toDatetime);
      crashed := IngestFile(files[i], cfg, toDatetime, sink);
      AppendAssoc(old(sink.calls), acc.calls, r.calls);
      acc := Then(acc, r);
      i := i + 1;
    }
    if crashed {
      FoldCrashStops(files, i, FileSteps(cfg, toDatetime));
    } else {
      assert files[..i] == files;
    }
  }

  method ParticipantIngest(e: Entry, cfg: Config, toDatetime: DateParser, sink: Sink) returns (crashed: bool)
    requires sink.Valid()
    modifies sink
    ensures sink.Valid() && old(sink.outcomes) <= sink.outcomes
    ensures var r := ParticipantRun(e, cfg, toDatetime);
      sink.calls == old(sink.calls) + r.calls && crashed == r.crashed
  {
    if !e.isDir {
      // os.listdir raises NotADirectoryError, and nothing catches it
      return true;
    }
    crashed := IngestFiles(e.files, cfg, toDatetime, sink);
  }

  // ---------------------------------------------------------------------------
  // looper (main.py:17-42)
  // ---------------------------------------------------------------------------

  /** One top-level entry: withdrawn and invalid names are skipped, an active
      one is handed to `participantIngest`. Being a non-directory only warns. */
  function DirStep(e: Entry, cfg: Config, toDatetime: DateParser): Run {
    if ClassifyDirectory(e.name) == Active then ParticipantRun(e, cfg, toDatetime) else NoCalls
  }

  /** The top-level entries, in listing order. */
  function LooperRun(es: seq<Entry>, cfg: Config, toDatetime: DateParser): Run {
    Fold(es, DirSteps(cfg, toDatetime))
  }

  function DirSteps(cfg: Config, toDatetime: DateParser): Entry -> Run {
    e => DirStep(e, cfg, toDatetime)
  }

  /** The body of `looper`'s loop for one entry. */
  method VisitEntry(entry: Entry, cfg: Config, toDatetime: DateParser, sink: Sink) returns (crashed: bool)
    requires sink.Valid()
    modifies sink
    ensures sink.Valid() && old(sink.outcomes) <= sink.outcomes
    ensures var r := DirStep(entry, cfg, toDatetime);
      sink.calls == old(sink.calls) + r.calls && crashed == r.crashed
  {
    var status := ClassifyDirectory(entry.name);
    if status == Withdrawn {
      // skipped: the participant has withdrawn
      crashed := false;
    } else if status == Active {
      crashed := ParticipantIngest(entry, cfg, toDatetime, sink);
    } else {
      // skipped with a warning: the name breaks the convention
      crashed := false;
    }
  }

  method Looper(entries: seq<Entry>, cfg: Config, toDatetime: DateParser, sink: Sink) returns (crashed: bool)
    requires sink.Valid()
    modifies sink
    ensures sink.Valid() && old(sink.outcomes) <= sink.outcomes
    ensures var r := LooperRun(entries, cfg, toDatetime);
      sink.calls == old(sink.calls) + r.calls && crashed == r.crashed
  {
    var i := 0;
    ghost var acc := NoCalls;
    crashed := false;
    while i < |entries| && !crashed
      invariant 0 <= i <= |entries|
      invariant acc == Fold(entries[..i], DirSteps(cfg, toDatetime))
      invariant sink.Valid() && old(sink.outcomes) <= sink.outcomes
      invariant crashed == acc.crashed && sink.calls == old(sink.calls) + acc.calls
    {
      FoldStep(entries, i, DirSteps(cfg, toDatetime));
      ghost var r := DirStep(entries[i], cfg, toDatetime);
      crashed := VisitEntry(entries[i], cfg, toDatetime, sink);
      AppendAssoc(old(sink.calls), acc.calls, r.calls);
      acc := Then(acc, r);
      i := i + 1;
    }
    if crashed {
      FoldCrashStops(entries, i, DirSteps(cfg, toDatetime));
    } else {
      assert entries[..i] == entries;
    }
  }
}
