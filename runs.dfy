/**
  What a whole `looper` run guarantees: where each upload comes from, that it
  targets a whitelisted table at that table's path, which files are uploaded,
  when the run aborts, and that withdrawn and invalid entries play no part.
 */
module Runs {
  import opened Chars
  import opened Naming
  import opened Typing
  import opened Ingest

  /** A listing's run makes exactly the calls of its elements' steps, and
      aborts exactly when one of those steps does. */
  lemma {:induction false} FoldCalls<T>(xs: seq<T>, step: T -> Run)
    ensures forall c :: c in Fold(xs, step).calls ==> exists x :: x in xs && c in step(x).calls
    ensures !Fold(xs, step).crashed ==>
      forall x, c :: x in xs && c in step(x).calls ==> c in Fold(xs, step).calls
    ensures Fold(xs, step).crashed <==> exists x :: x in xs && step(x).crashed
    decreases |xs|
  {
    if xs != [] {
      var init, last := xs[..|xs| - 1], xs[|xs| - 1];
      FoldCalls(init, step);
      assert xs == init + [last];
      assert forall x :: x in xs <==> x in init || x == last;
    }
  }

  lemma FoldSingle<T>(x: T, step: T -> Run)
    ensures Fold([x], step) == step(x)
  {
    assert [x][..0] == [];
    assert [] + step(x).calls == step(x).calls;
  }

  /** A matched, whitelisted file whose upload `ingestData` cannot reach:
      the storage root is empty, or the typed column is missing. */
  predicate FileCrashes(f: FileEntry, cfg: Config) {
    match ParseFileName(f.name)
    case None => false
    case Some(m) =>
      var table := Normalize(m.rawTable);
      table in cfg.whitelist &&
      (|cfg.s3Path| == 0 || (table in TyperColumns && TyperColumns[table] !in f.contents.columns))
  }

  /** A file whose name matches and whose table is whitelisted. */
  predicate Selected(f: FileEntry, cfg: Config) {
    ParseFileName(f.name).Some? && Normalize(ParseFileName(f.name).value.rawTable) in cfg.whitelist
  }

  /** An upload as `ingestData` issues it: a whitelisted, normalized table name,
      the table's path under a non-empty storage root, the configured database,
      partitioned by `pid`, and a frame tagged with the upload's participant. */
  predicate WellFormed(c: Request, cfg: Config) {
    && c.table in cfg.whitelist && IsNormal(c.table)
    && |cfg.s3Path| > 0 && c.path == TablePath(cfg.s3Path, c.table)
    && c.database == cfg.database && c.partitionCols == ["pid"]
    && IsWord(c.pid)
    && (c.payload.Dataset? ==> PidTagged(c.payload.table, c.pid))
  }

  /** The upload carries the participant and table read from the file's name. */
  predicate FromFile(c: Request, f: FileEntry) {
    ParseFileName(f.name).Some? &&
    c.pid == ParseFileName(f.name).value.pid &&
    c.table == Normalize(ParseFileName(f.name).value.rawTable)
  }

  /** One file of `participantIngest`: it aborts the run exactly in the
      `FileCrashes` cases, and it is uploaded, once, exactly when it is
      selected and does not abort. */
  lemma FileStepRun(f: FileEntry, cfg: Config, toDatetime: DateParser)
    ensures var r := FileStep(f, cfg, toDatetime);
      && (r.crashed <==> FileCrashes(f, cfg))
      && |r.calls| <= 1
      && (|r.calls| == 1 <==> Selected(f, cfg) && !FileCrashes(f, cfg))
  {
    match ParseFileName(f.name)
    case None =>
    case Some(m) =>
      IngestSpecShape(f.contents, m.pid, Normalize(m.rawTable), cfg, toDatetime, true);
  }

  /** The upload of one file is well formed and named after the file. */
  lemma FileStepUpload(f: FileEntry, cfg: Config, toDatetime: DateParser)
    ensures forall c :: c in FileStep(f, cfg, toDatetime).calls ==> WellFormed(c, cfg) && FromFile(c, f)
  {
    match ParseFileName(f.name)
    case None =>
    case Some(m) =>
      NormalizeIdempotent(m.rawTable);
      IngestSpecShape(f.contents, m.pid, Normalize(m.rawTable), cfg, toDatetime, true);
  }

  /** One top-level entry of `looper`. */
  lemma EntryFacts(e: Entry, cfg: Config, toDatetime: DateParser)
    ensures var r := DirStep(e, cfg, toDatetime);
      && (r.crashed <==>
            ClassifyDirectory(e.name) == Active &&
            (!e.isDir || exists f :: f in e.files && FileCrashes(f, cfg)))
      && (forall c :: c in r.calls ==>
            ClassifyDirectory(e.name) == Active && e.isDir &&
            exists f :: f in e.files && c in FileStep(f, cfg, toDatetime).calls)
      && (!r.crashed && ClassifyDirectory(e.name) == Active ==>
            forall f, c :: f in e.files && c in FileStep(f, cfg, toDatetime).calls ==> c in r.calls)
  {
    if ClassifyDirectory(e.name) == Active && e.isDir {
      FoldCalls(e.files, FileSteps(cfg, toDatetime));
      forall f | f in e.files
        ensures FileStep(f, cfg, toDatetime).crashed <==> FileCrashes(f, cfg)
      {
        FileStepRun(f, cfg, toDatetime);
      }
    }
  }

  /** Every upload of a run is well formed, and comes from a selected file
      listed in an active participant directory; so no file under a withdrawn
      or invalid name is ever uploaded. */
  lemma UploadsComeFromActiveFiles(es: seq<Entry>, cfg: Config, toDatetime: DateParser)
    ensures forall c :: c in LooperRun(es, cfg, toDatetime).calls ==>
      WellFormed(c, cfg) &&
      exists e, f :: e in es && ClassifyDirectory(e.name) == Active && e.isDir &&
                     f in e.files && Selected(f, cfg) && FromFile(c, f)
  {
    FoldCalls(es, DirSteps(cfg, toDatetime));
    forall c | c in LooperRun(es, cfg, toDatetime).calls
      ensures WellFormed(c, cfg) &&
        exists e, f :: e in es && ClassifyDirectory(e.name) == Active && e.isDir &&
                       f in e.files && Selected(f, cfg) && FromFile(c, f)
    {
      var e :| e in es && c in DirStep(e, cfg, toDatetime).calls;
      EntryFacts(e, cfg, toDatetime);
      var f :| f in e.files && c in FileStep(f, cfg, toDatetime).calls;
      FileStepRun(f, cfg, toDatetime);
      FileStepUpload(f, cfg, toDatetime);
    }
  }

  /** A run that is not aborted uploads every selected file of every active
      participant directory. */
  lemma SelectedFilesUploaded(es: seq<Entry>, cfg: Config, toDatetime: DateParser)
    ensures !LooperRun(es, cfg, toDatetime).crashed ==>
      forall e, f :: e in es && ClassifyDirectory(e.name) == Active && f in e.files && Selected(f, cfg) ==>
        |FileStep(f, cfg, toDatetime).calls| == 1 &&
        FileStep(f, cfg, toDatetime).calls[0] in LooperRun(es, cfg, toDatetime).calls
  {
    FoldCalls(es, DirSteps(cfg, toDatetime));
    if !LooperRun(es, cfg, toDatetime).crashed {
      forall e, f | e in es && ClassifyDirectory(e.name) == Active && f in e.files && Selected(f, cfg)
        ensures |FileStep(f, cfg, toDatetime).calls| == 1 &&
          FileStep(f, cfg, toDatetime).calls[0] in LooperRun(es, cfg, toDatetime).calls
      {
        EntryFacts(e, cfg, toDatetime);
        FileStepRun(f, cfg, toDatetime);
        assert !FileCrashes(f, cfg);
      }
    }
  }

  /** Nothing isolates one file or one participant from another: the run
      aborts exactly when some active entry is not a directory, or holds a
      selected file whose upload cannot be reached. */
  lemma RunAborts(es: seq<Entry>, cfg: Config, toDatetime: DateParser)
    ensures LooperRun(es, cfg, toDatetime).crashed <==>
      exists e :: e in es && ClassifyDirectory(e.name) == Active &&
                  (!e.isDir || exists f :: f in e.files && FileCrashes(f, cfg))
  {
    FoldCalls(es, DirSteps(cfg, toDatetime));
    forall e | e in es
      ensures DirStep(e, cfg, toDatetime).crashed <==>
        ClassifyDirectory(e.name) == Active && (!e.isDir || exists f :: f in e.files && FileCrashes(f, cfg))
    {
      EntryFacts(e, cfg, toDatetime);
    }
  }

  /** The entries `looper` hands to `participantIngest`, in listing order. */
  function ActiveEntries(es: seq<Entry>): seq<Entry>
    decreases |es|
  {
    if es == [] then []
    else
      var init, last := es[..|es| - 1], es[|es| - 1];
      if ClassifyDirectory(last.name) == Active then ActiveEntries(init) + [last] else ActiveEntries(init)
  }

  lemma ActiveEntriesAppend(es: seq<Entry>, e: Entry)
    ensures ActiveEntries(es + [e]) ==
      if ClassifyDirectory(e.name) == Active then ActiveEntries(es) + [e] else ActiveEntries(es)
  {
    assert (es + [e])[..|es|] == es;
  }

  /** The active entries are exactly the listed entries with an active name. */
  lemma {:induction false} ActiveEntriesMembers(es: seq<Entry>)
    ensures forall e :: e in ActiveEntries(es) <==> e in es && ClassifyDirectory(e.name) == Active
    decreases |es|
  {
    if es != [] {
      var init, last := es[..|es| - 1], es[|es| - 1];
      ActiveEntriesMembers(init);
      assert es == init + [last];
    }
  }

  /** Withdrawn and invalid entries play no part: the run over a listing is the
      run over its active entries alone. */
  lemma {:induction false} SkippedEntriesIgnored(es: seq<Entry>, cfg: Config, toDatetime: DateParser)
    ensures LooperRun(es, cfg, toDatetime) == LooperRun(ActiveEntries(es), cfg, toDatetime)
    decreases |es|
  {
    if es != [] {
      var init, last := es[..|es| - 1], es[|es| - 1];
      SkippedEntriesIgnored(init, cfg, toDatetime);
      var a := ActiveEntries(init);
      if ClassifyDirectory(last.name) == Active {
        assert (a + [last])[..|a|] == a;
      }
    }
  }

  /** Folding two steps that agree on every element gives the same run. */
  lemma {:induction false} FoldSame<T>(xs: seq<T>, f: T -> Run, g: T -> Run)
    requires forall x :: x in xs ==> f(x) == g(x)
    ensures Fold(xs, f) == Fold(xs, g)
    decreases |xs|
  {
    if xs != [] {
      FoldSame(xs[..|xs| - 1], f, g);
    }
  }

  /** `looper` as its warning suggests it was meant to behave: an entry that is
      not a directory is skipped, whatever its name. */
  function CheckedDirStep(e: Entry, cfg: Config, toDatetime: DateParser): Run {
    if !e.isDir then NoCalls else DirStep(e, cfg, toDatetime)
  }

  function CheckedDirSteps(cfg: Config, toDatetime: DateParser): Entry -> Run {
    e => CheckedDirStep(e, cfg, toDatetime)
  }

  function CheckedLooperRun(es: seq<Entry>, cfg: Config, toDatetime: DateParser): Run {
    Fold(es, CheckedDirSteps(cfg, toDatetime))
  }

  /** With non-directories skipped, only a file can abort the run: it aborts
      exactly when an active directory holds a file whose upload cannot be reached. */
  lemma CheckedRunAborts(es: seq<Entry>, cfg: Config, toDatetime: DateParser)
    ensures CheckedLooperRun(es, cfg, toDatetime).crashed <==>
      exists e :: e in es && ClassifyDirectory(e.name) == Active && e.isDir &&
                  exists f :: f in e.files && FileCrashes(f, cfg)
  {
    FoldCalls(es, CheckedDirSteps(cfg, toDatetime));
    forall e | e in es
      ensures CheckedDirStep(e, cfg, toDatetime).crashed <==>
        ClassifyDirectory(e.name) == Active && e.isDir && exists f :: f in e.files && FileCrashes(f, cfg)
    {
      EntryFacts(e, cfg, toDatetime);
    }
  }

  /** The two agree on every listing whose active names are all directories. */
  lemma CheckedAgrees(es: seq<Entry>, cfg: Config, toDatetime: DateParser)
    requires forall e :: e in es && ClassifyDirectory(e.name) == Active ==> e.isDir
    ensures CheckedLooperRun(es, cfg, toDatetime) == LooperRun(es, cfg, toDatetime)
  {
    FoldSame(es, CheckedDirSteps(cfg, toDatetime), DirSteps(cfg, toDatetime));
  }
}
