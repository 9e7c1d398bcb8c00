/** The command line's `index`, `refresh` and `status` (crates/cli/src/lib.rs, 289-474), run
    under the writer guard where they write. */
module CommandLine {
  import opened Text
  import opened Records
  import opened Comparison
  import opened SnapshotText
  import opened Scanner
  import opened Publication
  import opened Refresh
  import opened RefreshTheorems
  import opened ScopeTheorems

  /** What an operation scans and reports, before anything is written. */
  function Reported(text: Option<string>, op: Operation): Option<Report>
  {
    match ScopeOf(text, op)
    case Err(_) => None
    case Ok((root, excluded)) =>
      match ScanRoot(op.env, excluded, root, op.artifacts)
      case None => None
      case Some(files) =>
        var before := if op.CliIndex? then map[] else OpenText(text).value.files;
        Some(Report(|files|, Difference(before, FilesByPath(files))))
  }

  method ScanScope(env: Environment, root: string, excluded: set<string>, artifacts: Artifacts)
    returns (files: Option<seq<IndexedFile>>)
    ensures files == ScanRoot(env, excluded, root, artifacts)
    ensures files.Some? ==> Ascending(files.value)
  {
    hide ScanResult;
    if root !in env.canonical || env.canonical[root] !in env.roots { return None; }
    var (path, node) := env.roots[env.canonical[root]];
    files := Scan(Scope(excluded, path, artifacts), node);
    if files.Some? { ScanIsExact(Scope(excluded, path, artifacts), node); }
  }

  method Save(fs: FileSystem, snapshot: Snapshot, index: Path, pid: nat, ids: seq<nat>, faults: Faults) returns (ok: bool)
    requires fs.Valid() && index != [] && |ids| == ATTEMPTS
    modifies fs
    ensures fs.Valid()
    ensures ok <==> SaveSucceeds(old(TakenNames(fs)), old(fs.directories), index, IndexCandidates(index, pid, ids), faults)
    ensures IndexText(fs, index) == if ok then Some(Render(snapshot)) else old(IndexText(fs, index))
  {
    hide Render, CreationOutcome;
    ok := SaveWith(fs, snapshot, index, pid, ids, faults);
    if !ok {
      UnpublishedKeepsFiles(old(fs.names), fs.names, IndexCandidates(index, pid, ids), old(fs.next), faults.unlink, index);
    }
  }

  /** `index`: the explicit rebuild. It reads no earlier index and is the one operation that
      sets the scope. */
  method Index(
      fs: FileSystem, env: Environment, root: string, excluded: set<string>, artifacts: Artifacts,
      pid: nat, ids: seq<nat>, faults: Faults)
    returns (result: Result<nat, RefreshError>)
    requires fs.Valid() && artifacts.Valid() && |ids| == ATTEMPTS
    modifies fs
    ensures fs.Valid()
    ensures var op, index := CliIndex(env, root, excluded, artifacts), artifacts.index;
      && IndexText(fs, index) == After(old(IndexText(fs, index)), op, result.Ok?)
      && (result.Ok? <==> PublishedBy(old(IndexText(fs, index)), op).Some?
                          && SaveSucceeds(old(TakenNames(fs)), old(fs.directories), index, IndexCandidates(index, pid, ids), faults))
      && (result.Ok? ==> Reported(old(IndexText(fs, index)), op).Some?
                         && result.value == Reported(old(IndexText(fs, index)), op).value.scanned)
    ensures result.Ok? ==>
              root in env.canonical && env.canonical[root] in env.canonical
              && ScanRoot(env, excluded, env.canonical[root], artifacts).Some?
              && (LfFree(FilesByPath(ScanRoot(env, excluded, env.canonical[root], artifacts).value)) ==>
                    HasPolicy(IndexText(fs, artifacts.index), excluded)
                    && HasRoot(IndexText(fs, artifacts.index), env.canonical[root]))
  {
    ghost var before := IndexText(fs, artifacts.index);
    RootResolves(env, root, excluded, artifacts);
    hide Render, Parse, FilesByPath, ScanRoot, Difference, SaveSucceeds, HasPolicy, HasRoot, LfFree;
    if root !in env.canonical { return Err(ScanFailed); }
    var files := ScanScope(env, env.canonical[root], excluded, artifacts);
    if files.None? { return Err(ScanFailed); }
    var store := new MemoryIndexStore();
    store.ReplaceAll(files.value);
    var snapshot := Snapshot(store.files, Some(env.canonical[root]), Some(excluded));
    var ok := Save(fs, snapshot, artifacts.index, pid, ids, faults);
    if LfFree(FilesByPath(files.value)) { IndexSetsScope(env, root, excluded, artifacts, before); }
    result := if ok then Ok(|files.value|) else Err(SaveFailed);
  }

  /** `refresh`: options first, then the root, then scan, compare and save. */
  method RefreshFiles(
      fs: FileSystem, env: Environment, root: string, requested: Option<set<string>>, artifacts: Artifacts,
      pid: nat, ids: seq<nat>, faults: Faults)
    returns (result: Result<Report, RefreshError>)
    requires fs.Valid() && artifacts.Valid() && |ids| == ATTEMPTS
    modifies fs
    ensures fs.Valid()
    ensures var op, index := CliRefresh(env, root, requested, artifacts), artifacts.index;
      && IndexText(fs, index) == After(old(IndexText(fs, index)), op, result.Ok?)
      && (result.Ok? <==> PublishedBy(old(IndexText(fs, index)), op).Some?
                          && SaveSucceeds(old(TakenNames(fs)), old(fs.directories), index, IndexCandidates(index, pid, ids), faults))
      && (result.Ok? ==> Reported(old(IndexText(fs, index)), op) == Some(result.value))
  {
    hide Render, Parse, FilesByPath, ScanRoot, Difference, SaveSucceeds, CliIndexRoot;
    var opening := OpenStore(fs, artifacts.index);
    if opening.Err? { return Err(OpenFailed); }
    var snapshot := opening.value;
    LoadedIsKeyed(IndexText(fs, artifacts.index));
    var excluded := ResolveScanOptions(snapshot.policy, requested);
    if excluded.Err? { return Err(excluded.error); }
    var scanned := CliIndexRoot(env, snapshot, root);
    if scanned.Err? { return Err(scanned.error); }
    var files := ScanScope(env, scanned.value, excluded.value, artifacts);
    if files.None? { return Err(ScanFailed); }
    var summary := CompareWithScan(snapshot, files.value);
    var store := new MemoryIndexStore();
    store.ReplaceAll(files.value);
    var ok := Save(fs, snapshot.(root := Some(scanned.value), files := store.files), artifacts.index, pid, ids, faults);
    result := if ok then Ok(Report(|files.value|, summary)) else Err(SaveFailed);
  }

  /** `status`: the same scope, scan and comparison without the guard and without a save. */
  method Status(fs: FileSystem, env: Environment, root: string, requested: Option<set<string>>, artifacts: Artifacts)
    returns (result: Result<Report, RefreshError>)
    requires fs.Valid()
    ensures var op := CliStatus(env, root, requested, artifacts);
      && (result.Ok? <==> Reported(IndexText(fs, artifacts.index), op).Some?)
      && (result.Ok? ==> Reported(IndexText(fs, artifacts.index), op) == Some(result.value))
  {
    hide Render, Parse, FilesByPath, ScanRoot, Difference, CliIndexRoot;
    var opening := OpenStore(fs, artifacts.index);
    if opening.Err? { return Err(OpenFailed); }
    var snapshot := opening.value;
    LoadedIsKeyed(IndexText(fs, artifacts.index));
    var excluded := ResolveScanOptions(snapshot.policy, requested);
    if excluded.Err? { return Err(excluded.error); }
    var scanned := CliIndexRoot(env, snapshot, root);
    if scanned.Err? { return Err(scanned.error); }
    var files := ScanScope(env, scanned.value, excluded.value, artifacts);
    if files.None? { return Err(ScanFailed); }
    var summary := CompareWithScan(snapshot, files.value);
    result := Ok(Report(|files.value|, summary));
  }

  /** What is reported: the number of files scanned, and, but for the rebuild, the difference
      between the files that were loaded and those a refresh publishes. A status reports what
      the refresh of the same request would. */
  lemma ReportIsOfTree(text: Option<string>, op: Operation)
    requires op.CliIndex? || op.CliRefresh?
    requires Reported(text, op).Some?
    ensures ScopeOf(text, op).Ok? && PublishedBy(text, op).Some?
    ensures var (root, excluded) := ScopeOf(text, op).value;
      && root in op.env.canonical && op.env.canonical[root] in op.env.roots
      && var (location, node) := op.env.roots[op.env.canonical[root]];
         var scope := Scope(excluded, location, op.artifacts);
         ScanResult(scope, node).Some? && Reported(text, op).value.scanned == |ScanResult(scope, node).value|
    ensures op.CliRefresh? ==>
              OpenText(text).Ok?
              && Reported(text, op).value.summary == Difference(OpenText(text).value.files, PublishedBy(text, op).value.files)
              && Reported(text, CliStatus(op.env, op.root, op.requested, op.artifacts)) == Reported(text, op)
  {
    hide Parse, FilesByPath, Difference, ScanResult, CliIndexRoot;
  }

  lemma RootResolves(env: Environment, root: string, excluded: set<string>, artifacts: Artifacts)
    ensures ScanRoot(env, excluded, root, artifacts).Some? ==> root in env.canonical
    ensures root in env.canonical && ScanRoot(env, excluded, env.canonical[root], artifacts).Some?
            ==> env.canonical[root] in env.canonical
  {
  }
}
