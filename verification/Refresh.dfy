/** Refreshing and inspecting an index: the daemon's `refresh`, `index_status`,
    `scan_and_compare`, `publish_comparison` (crates/daemon/src/lib.rs, 1101-1259) and the
    command line's `index`, `refresh`, `status` (crates/cli/src/lib.rs, 289-491). */
module Refresh {
  import opened Text
  import opened PathId
  import opened Records
  import opened Comparison
  import opened SnapshotText
  import opened Scanner
  import opened Publication

  datatype RefreshError = OpenFailed | RootMismatch | RootMissing | PolicyMismatch | ScanFailed | SaveFailed

  /** A request's optional root and exclusions, both already well-typed. */
  datatype Request = Request(root: Option<string>, excluded: Option<set<string>>)

  /** What the operating system knows: where a root really is, and what is there. */
  datatype Environment = Environment(canonical: map<string, string>, roots: map<string, (Path, Node)>)

  datatype Report = Report(scanned: nat, summary: RefreshSummary)

  // ---------------------------------------------------------------- scope

  /** Both roots resolve and lead to different places, or one does not and the texts differ. */
  predicate RootsDiffer(env: Environment, stored: Option<string>, requested: Option<string>)
  {
    stored.Some? && requested.Some?
    && if stored.value in env.canonical && requested.value in env.canonical
       then env.canonical[stored.value] != env.canonical[requested.value]
       else stored.value != requested.value
  }

  predicate PoliciesDiffer(stored: Option<set<string>>, requested: Option<set<string>>)
  {
    stored.Some? && requested.Some? && stored != requested
  }

  /** `resolve_scan_options`. */
  function ResolveScanOptions(stored: Option<set<string>>, requested: Option<set<string>>): Result<set<string>, RefreshError>
  {
    match stored
    case Some(names) =>
      if requested.Some? && requested.value != names then Err(PolicyMismatch) else Ok(names)
    case None => Ok(if requested.Some? then requested.value else {})
  }

  /** `same_root_path`. */
  predicate SameRootPath(env: Environment, left: string, right: string)
  {
    if left in env.canonical && right in env.canonical then env.canonical[left] == env.canonical[right]
    else left == right
  }

  /** The daemon's `index_root`. */
  function IndexRoot(env: Environment, stored: Option<string>, requested: Option<string>): Result<string, RefreshError>
  {
    match (stored, requested)
    case (Some(root), Some(other)) => if SameRootPath(env, root, other) then Ok(root) else Err(RootMismatch)
    case (Some(root), None) => Ok(root)
    case (None, Some(other)) => Ok(other)
    case (None, None) => Err(RootMissing)
  }

  /** The command line's `index_root`. */
  function CliIndexRoot(env: Environment, snapshot: Snapshot, requested: string): Result<string, RefreshError>
  {
    if snapshot.policy.None? then Ok(requested)
    else if snapshot.root.None? then Err(RootMissing)
    else
      var root := snapshot.root.value;
      if root in env.canonical && requested in env.canonical && env.canonical[root] == env.canonical[requested]
      then Ok(env.canonical[root]) else Err(RootMismatch)
  }

  function ScanRoot(env: Environment, excluded: set<string>, root: string, artifacts: Artifacts): Option<seq<IndexedFile>>
  {
    if root in env.canonical && env.canonical[root] in env.roots then
      var (path, node) := env.roots[env.canonical[root]];
      ScanResult(Scope(excluded, path, artifacts), node)
    else None
  }

  function OpenText(text: Option<string>): Result<Snapshot, LoadError>
  {
    match text
    case None => Ok(EMPTY)
    case Some(contents) => Parse(contents)
  }

  datatype ScanComparison = ScanComparison(root: string, files: seq<IndexedFile>, summary: RefreshSummary)

  /** `scan_and_compare`. */
  function ScanAndCompare(env: Environment, snapshot: Snapshot, request: Request, artifacts: Artifacts)
    : Result<ScanComparison, RefreshError>
  {
    match IndexRoot(env, snapshot.root, request.root)
    case Err(error) => Err(error)
    case Ok(root) =>
      match ResolveScanOptions(snapshot.policy, request.excluded)
      case Err(error) => Err(error)
      case Ok(excluded) => CompareScan(env, snapshot, excluded, root, artifacts)
  }

  function CompareScan(env: Environment, snapshot: Snapshot, excluded: set<string>, root: string, artifacts: Artifacts)
    : Result<ScanComparison, RefreshError>
  {
    match ScanRoot(env, excluded, root, artifacts)
    case None => Err(ScanFailed)
    case Some(files) => Ok(ScanComparison(root, files, Difference(snapshot.files, FilesByPath(files))))
  }

  /** What an unconditional `publish_comparison` writes. */
  function Published(snapshot: Snapshot, comparison: ScanComparison): Snapshot
  {
    snapshot.(root := Some(comparison.root), files := FilesByPath(comparison.files))
  }

  function ReportOf(comparison: ScanComparison): Report
  {
    Report(|comparison.files|, comparison.summary)
  }

  /** A refresh of an index text: what to publish and what to report. */
  function RefreshOutcome(env: Environment, text: Option<string>, request: Request, artifacts: Artifacts)
    : Result<(Snapshot, Report), RefreshError>
  {
    match OpenText(text)
    case Err(_) => Err(OpenFailed)
    case Ok(snapshot) =>
      match ScanAndCompare(env, snapshot, request, artifacts)
      case Err(error) => Err(error)
      case Ok(comparison) => Ok((Published(snapshot, comparison), ReportOf(comparison)))
  }

  function StatusOutcome(env: Environment, text: Option<string>, request: Request, artifacts: Artifacts)
    : Result<Report, RefreshError>
  {
    match OpenText(text)
    case Err(_) => Err(OpenFailed)
    case Ok(snapshot) =>
      match ScanAndCompare(env, snapshot, request, artifacts)
      case Err(error) => Err(error)
      case Ok(comparison) => Ok(ReportOf(comparison))
  }

  // ---------------------------------------------------------------- the operations

  function IndexText(fs: FileSystem, index: Path): Option<string>
    requires fs.Valid()
    reads fs
  {
    if index in fs.names then Some(fs.contents[fs.names[index]]) else None
  }

  method OpenStore(fs: FileSystem, index: Path) returns (result: Result<Snapshot, LoadError>)
    requires fs.Valid()
    ensures result == OpenText(IndexText(fs, index))
  {
    if index !in fs.names { return Ok(EMPTY); }
    var reader := new LineReader(fs.contents[fs.names[index]]);
    result := FromReader(reader);
  }

  method CompareWithScan(snapshot: Snapshot, files: seq<IndexedFile>) returns (summary: RefreshSummary)
    requires KeyedByPath(snapshot.files) && Ascending(files)
    ensures summary == Difference(snapshot.files, FilesByPath(files))
  {
    hide Difference, FilesByPath, ValuesInOrder;
    ValuesInOrderAscending(snapshot.files);
    ValuesInOrderRebuild(snapshot.files);
    var stored := new Peekable(ValuesInOrder(snapshot.files));
    var scanned := new Peekable(files);
    summary := CompareOrdered(stored, scanned);
  }

  method ScanAndCompareStore(env: Environment, snapshot: Snapshot, request: Request, artifacts: Artifacts)
    returns (result: Result<ScanComparison, RefreshError>)
    requires KeyedByPath(snapshot.files)
    ensures result == ScanAndCompare(env, snapshot, request, artifacts)
  {
    hide Difference, FilesByPath, ValuesInOrder, ScanResult, SameRootPath;
    var root := IndexRoot(env, snapshot.root, request.root);
    if root.Err? { return Err(root.error); }
    var excluded := ResolveScanOptions(snapshot.policy, request.excluded);
    if excluded.Err? { return Err(excluded.error); }
    if root.value !in env.canonical || env.canonical[root.value] !in env.roots { return Err(ScanFailed); }
    var (path, node) := env.roots[env.canonical[root.value]];
    var scope := Scope(excluded.value, path, artifacts);
    var files := Scan(scope, node);
    if files.None? { return Err(ScanFailed); }
    ScanIsExact(scope, node);
    var summary := CompareWithScan(snapshot, files.value);
    result := Ok(ScanComparison(root.value, files.value, summary));
  }

  /** `publish_comparison` with `FileIndexWriter::save`. */
  method PublishComparison(
      fs: FileSystem, snapshot: Snapshot, comparison: ScanComparison, onlyIfChanged: bool,
      index: Path, pid: nat, ids: seq<nat>, faults: Faults)
    returns (ok: bool)
    requires fs.Valid() && index != [] && |ids| == ATTEMPTS
    modifies fs
    ensures fs.Valid()
    ensures onlyIfChanged && !comparison.summary.HasChanges()
            ==> ok && fs.names == old(fs.names) && fs.contents == old(fs.contents)
    ensures (!onlyIfChanged || comparison.summary.HasChanges())
            ==> (ok <==> SaveSucceeds(old(TakenNames(fs)), old(fs.directories), index, IndexCandidates(index, pid, ids), faults))
                && (ok ==> IndexText(fs, index) == Some(Render(Published(snapshot, comparison))))
                && (!ok ==> IndexText(fs, index) == old(IndexText(fs, index)))
  {
    hide Render, CreationOutcome, Published;
    if onlyIfChanged && !comparison.summary.HasChanges() { return true; }
    ok := SaveWith(fs, Published(snapshot, comparison), index, pid, ids, faults);
    if !ok {
      UnpublishedKeepsFiles(old(fs.names), fs.names, IndexCandidates(index, pid, ids), old(fs.next), faults.unlink, index);
    }
  }

  /** The daemon's `refresh`, holding the writer guard. */
  method RefreshIndex(
      fs: FileSystem, env: Environment, request: Request, artifacts: Artifacts, pid: nat, ids: seq<nat>, faults: Faults)
    returns (result: Result<Report, RefreshError>)
    requires fs.Valid() && artifacts.Valid() && |ids| == ATTEMPTS
    modifies fs
    ensures fs.Valid()
    ensures var index := artifacts.index;
      match RefreshOutcome(env, old(IndexText(fs, index)), request, artifacts)
      case Err(error) => result == Err(error) && fs.names == old(fs.names) && fs.contents == old(fs.contents)
      case Ok((snapshot, report)) =>
        if SaveSucceeds(old(TakenNames(fs)), old(fs.directories), index, IndexCandidates(index, pid, ids), faults)
        then result == Ok(report) && IndexText(fs, index) == Some(Render(snapshot))
        else result == Err(SaveFailed) && IndexText(fs, index) == old(IndexText(fs, index))
    ensures var before := OpenText(old(IndexText(fs, artifacts.index)));
            before.Ok? && RootsDiffer(env, before.value.root, request.root)
            ==> result == Err(RootMismatch) && fs.names == old(fs.names) && fs.contents == old(fs.contents)
  {
    hide Render, Parse, ScanAndCompare, CreationOutcome, RootsDiffer;
    var store := OpenStore(fs, artifacts.index);
    if store.Err? { return Err(OpenFailed); }
    LoadedIsKeyed(IndexText(fs, artifacts.index));
    MismatchRefuses(env, store.value, request, artifacts);
    var comparison := ScanAndCompareStore(env, store.value, request, artifacts);
    if comparison.Err? { return Err(comparison.error); }
    var ok := PublishComparison(fs, store.value, comparison.value, false, artifacts.index, pid, ids, faults);
    result := if ok then Ok(ReportOf(comparison.value)) else Err(SaveFailed);
  }

  /** The daemon's `index_status`: the same scan and comparison, nothing published. */
  method IndexStatus(fs: FileSystem, env: Environment, request: Request, artifacts: Artifacts)
    returns (result: Result<Report, RefreshError>)
    requires fs.Valid()
    ensures result == StatusOutcome(env, IndexText(fs, artifacts.index), request, artifacts)
    ensures var before := OpenText(IndexText(fs, artifacts.index));
            before.Ok? && RootsDiffer(env, before.value.root, request.root) ==> result == Err(RootMismatch)
  {
    hide Render, Parse, ScanAndCompare, RootsDiffer;
    var store := OpenStore(fs, artifacts.index);
    if store.Err? { return Err(OpenFailed); }
    LoadedIsKeyed(IndexText(fs, artifacts.index));
    MismatchRefuses(env, store.value, request, artifacts);
    var comparison := ScanAndCompareStore(env, store.value, request, artifacts);
    result := if comparison.Ok? then Ok(ReportOf(comparison.value)) else Err(comparison.error);
  }

  lemma MismatchRefuses(env: Environment, snapshot: Snapshot, request: Request, artifacts: Artifacts)
    ensures RootsDiffer(env, snapshot.root, request.root)
            ==> ScanAndCompare(env, snapshot, request, artifacts) == Err(RootMismatch)
  {
  }

  // ---------------------------------------------------------------- loaded indices are well formed

  predicate LoaderKeyed(loader: Loader)
  {
    KeyedByPath(loader.files)
  }

  lemma {:induction false} LoadLinesKeepKeyed(loader: Loader, lines: seq<string>)
    requires LoaderKeyed(loader)
    ensures LoadLines(loader, lines).Ok? ==> LoaderKeyed(LoadLines(loader, lines).value)
    decreases |lines|
  {
    if lines != [] {
      LoadLineKeepsKeyed(loader, lines[0]);
      hide LoadLine;
      if LoadLine(loader, lines[0]).Ok? { LoadLinesKeepKeyed(LoadLine(loader, lines[0]).value, lines[1..]); }
    }
  }

  lemma LoadLineKeepsKeyed(loader: Loader, line: string)
    requires LoaderKeyed(loader)
    ensures LoadLine(loader, line).Ok? ==> LoaderKeyed(LoadLine(loader, line).value)
  {
    hide SplitN, FromUserPath, ParseRecord;
  }

  lemma LoadedIsKeyed(text: Option<string>)
    ensures OpenText(text).Ok? ==> KeyedByPath(OpenText(text).value.files)
  {
    hide StrLines, LoadLines;
    if text.Some? { LoadLinesKeepKeyed(START, StrLines(text.value)); }
  }

  lemma {:induction false} RecordsAreNormalized(entries: seq<Entry>)
    ensures forall i :: 0 <= i < |ToRecords(entries)| ==> IsNormalized(ToRecords(entries)[i].path)
  {
    if entries != [] {
      RecordsAreNormalized(entries[1..]);
      FromUserPathJoinsSegments(Join(entries[0].path, '/'));
      hide FromUserPath, IsNormalized, Join;
    }
  }

  lemma ScannedIsValid(env: Environment, excluded: set<string>, root: string, artifacts: Artifacts, snapshot: Snapshot)
    requires ScanRoot(env, excluded, root, artifacts).Some?
    ensures Valid(snapshot.(root := Some(root), files := FilesByPath(ScanRoot(env, excluded, root, artifacts).value)))
  {
    var (path, node) := env.roots[env.canonical[root]];
    var scope := Scope(excluded, path, artifacts);
    ScanIsExact(scope, node);
    var records := ToRecords(Kept(scope, 0, Walk([], node.children)));
    RecordsAreNormalized(Kept(scope, 0, Walk([], node.children)));
    hide IsNormalized, ToRecords, Kept, Walk, Sorted;
    FilesByPathKeyed(records);
  }
}
