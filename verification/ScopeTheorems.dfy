/** Which root and which exclusions an operation works with, and when it refuses to
    (crates/daemon/src/lib.rs, 1234-1259; crates/indexer/src/store.rs, 284-295;
    crates/cli/src/lib.rs, 289-491), said about the outcomes of whole operations. */
module ScopeTheorems {
  import opened Text
  import opened PathId
  import opened Records
  import opened Comparison
  import opened SnapshotText
  import opened RoundTrip
  import opened Scanner
  import opened ScanTree
  import opened Refresh
  import opened RefreshTheorems

  /** The stored policy, else the requested exclusions, else none. */
  function Exclusions(stored: Option<set<string>>, requested: Option<set<string>>): set<string>
  {
    match stored
    case Some(names) => names
    case None => match requested { case Some(names) => names case None => {} }
  }

  /** A refresh refuses exactly for these reasons, in this order, and a status for the same. */
  lemma RefusalsIff(env: Environment, text: Option<string>, request: Request, artifacts: Artifacts)
    requires OpenText(text).Ok?
    ensures var snapshot := OpenText(text).value;
            var noRoot := snapshot.root == None && request.root == None;
            var mismatch := RootsDiffer(env, snapshot.root, request.root);
            var outcome := RefreshOutcome(env, text, request, artifacts);
            && (outcome == Err(RootMismatch) <==> mismatch)
            && (outcome == Err(RootMissing) <==> noRoot)
            && (outcome == Err(PolicyMismatch) <==> !mismatch && !noRoot && PoliciesDiffer(snapshot.policy, request.excluded))
            && (outcome.Err? ==> outcome.error in {RootMismatch, RootMissing, PolicyMismatch, ScanFailed})
    ensures match RefreshOutcome(env, text, request, artifacts)
            case Err(error) => StatusOutcome(env, text, request, artifacts) == Err(error)
            case Ok((_, report)) => StatusOutcome(env, text, request, artifacts) == Ok(report)
  {
    hide Parse, FilesByPath, Difference, ScanResult;
  }

  /** What a successful refresh has made of the index and what it reports: the stored root or
      else the requested one, the policy as it was, the files of that very tree under those
      exclusions, the number scanned, and the difference to what was stored. */
  lemma RefreshPublishesTree(env: Environment, text: Option<string>, request: Request, artifacts: Artifacts)
    returns (root: string)
    requires RefreshOutcome(env, text, request, artifacts).Ok?
    ensures OpenText(text).Ok? && root in env.canonical && env.canonical[root] in env.roots
    ensures var (published, report), before := RefreshOutcome(env, text, request, artifacts).value, OpenText(text).value;
            var (location, node) := env.roots[env.canonical[root]];
            var scope := Scope(Exclusions(before.policy, request.excluded), location, artifacts);
            && published.root == Some(root) && published.policy == before.policy
            && (before.root.Some? ==> before.root == Some(root)) && (before.root.None? ==> request.root == Some(root))
            && node.Directory? && IsMapOfTree(scope, node.children, published.files)
            && ScanResult(scope, node).Some? && report.scanned == |ScanResult(scope, node).value|
            && report.summary == Difference(before.files, published.files)
  {
    hide Parse, FilesByPath, Difference, ScanResult, SameRootPath, IsMapOfTree;
    var snapshot := OpenText(text).value;
    root := IndexRoot(env, snapshot.root, request.root).value;
    var (location, node) := env.roots[env.canonical[root]];
    var scope := Scope(Exclusions(snapshot.policy, request.excluded), location, artifacts);
    ScannedIsDirectory(scope, node);
    ScanMapIsTree(scope, node);
  }

  /** An index that is not there is the empty one: the first refresh takes root and exclusions
      from its request, adds every path, and stores no policy; without a root it refuses. */
  lemma FirstRefresh(env: Environment, request: Request, artifacts: Artifacts)
    ensures request.root == None ==> RefreshOutcome(env, None, request, artifacts) == Err(RootMissing)
    ensures request.root.Some? ==>
              var excluded := match request.excluded { case Some(names) => names case None => {} };
              var scanned := ScanRoot(env, excluded, request.root.value, artifacts);
              RefreshOutcome(env, None, request, artifacts)
              == if scanned == None then Err(ScanFailed)
                 else var files := FilesByPath(scanned.value);
                      Ok((Snapshot(files, request.root, None), Report(|scanned.value|, RefreshSummary(|files|, 0, 0, 0))))
  {
    hide Parse, FilesByPath, ScanRoot, Difference;
    if request.root.Some? {
      var excluded := match request.excluded { case Some(names) => names case None => {} };
      var scanned := ScanRoot(env, excluded, request.root.value, artifacts);
      if scanned.Some? { AllAdded(FilesByPath(scanned.value)); }
    }
  }

  lemma AllAdded(files: FileMap)
    ensures Difference(map[], files) == RefreshSummary(|files|, 0, 0, 0)
  {
    var none: FileMap := map[];
    assert UpdatedPaths(none, files) == {} && UnchangedPaths(none, files) == {};
    assert files.Keys - none.Keys == files.Keys && none.Keys - files.Keys == {};
  }

  lemma ScannedIsDirectory(scope: Scope, node: Node)
    requires ScanResult(scope, node).Some?
    ensures node.Directory?
  {
  }

  // ---------------------------------------------------------------- the command line

  /** With a policy the command line wants the stored root, and both resolved; without one it
      takes the root it is given. Exclusions are looked at first. */
  lemma CliRefusalsIff(env: Environment, text: Option<string>, root: string, requested: Option<set<string>>, artifacts: Artifacts)
    requires OpenText(text).Ok?
    ensures var before := OpenText(text).value;
            var scope := ScopeOf(text, CliRefresh(env, root, requested, artifacts));
            var resolved := before.root.Some? && before.root.value in env.canonical && root in env.canonical
                            && env.canonical[before.root.value] == env.canonical[root];
            && (scope == Err(PolicyMismatch) <==> PoliciesDiffer(before.policy, requested))
            && (scope == Err(RootMissing) <==> !PoliciesDiffer(before.policy, requested) && before.policy.Some? && before.root.None?)
            && (scope == Err(RootMismatch) <==> !PoliciesDiffer(before.policy, requested) && before.policy.Some?
                                                && before.root.Some? && !resolved)
            && (scope.Ok? ==> scope.value.1 == Exclusions(before.policy, requested)
                              && scope.value.0 == if before.policy.Some? then env.canonical[root] else root)
            && (scope.Ok? && before.policy.Some? ==> root in env.canonical)
            && ScopeOf(text, CliStatus(env, root, requested, artifacts)) == scope
  {
    hide Parse;
  }

  /** A refresh from the command line publishes the tree of that scope, records its root and
      keeps the policy. */
  lemma CliRefreshPublishesTree(env: Environment, text: Option<string>, root: string, requested: Option<set<string>>, artifacts: Artifacts)
    requires PublishedBy(text, CliRefresh(env, root, requested, artifacts)).Some?
    ensures OpenText(text).Ok? && ScopeOf(text, CliRefresh(env, root, requested, artifacts)).Ok?
    ensures var published := PublishedBy(text, CliRefresh(env, root, requested, artifacts)).value;
            var (scanned, excluded) := ScopeOf(text, CliRefresh(env, root, requested, artifacts)).value;
            && published.root == Some(scanned) && published.policy == OpenText(text).value.policy
            && scanned in env.canonical && env.canonical[scanned] in env.roots
            && var (location, node) := env.roots[env.canonical[scanned]];
               node.Directory? && IsMapOfTree(Scope(excluded, location, artifacts), node.children, published.files)
  {
    var op := CliRefresh(env, root, requested, artifacts);
    PublishedFilesAreInScope(text, op);
    hide Parse, FilesByPath, ScanResult, CliIndexRoot, ResolveScanOptions, IsMapOfTree;
  }

  /** A status, wherever it comes from, and an operation that does not get to save leave the
      index as it is. */
  lemma OnlySavesChangeIndex(text: Option<string>, op: Operation, saves: bool)
    ensures op.RpcStatus? || op.CliStatus? || !saves || PublishedBy(text, op).None? ==> After(text, op, saves) == text
    ensures saves && PublishedBy(text, op).Some? ==> After(text, op, saves) == Some(Render(PublishedBy(text, op).value))
  {
    hide Parse, Render, ScopeOf, FilesByPath, ScanRoot;
  }

  // ---------------------------------------------------------------- the explicit rebuild

  lemma IndexPublishes(env: Environment, root: string, excluded: set<string>, artifacts: Artifacts, text: Option<string>)
      returns (published: Snapshot)
    requires root in env.canonical && env.canonical[root] in env.canonical
    requires ScanRoot(env, excluded, env.canonical[root], artifacts).Some?
    ensures published.policy == Some(excluded) && published.root == Some(env.canonical[root]) && Valid(published)
    ensures published.files == FilesByPath(ScanRoot(env, excluded, env.canonical[root], artifacts).value)
    ensures After(text, CliIndex(env, root, excluded, artifacts), true) == Some(Render(published))
    ensures var (location, node) := env.roots[env.canonical[env.canonical[root]]];
            node.Directory? && IsMapOfTree(Scope(excluded, location, artifacts), node.children, published.files)
  {
    hide Parse, Render, FilesByPath, ScanResult, IsMapOfTree, Valid;
    var op := CliIndex(env, root, excluded, artifacts);
    published := PublishedBy(text, op).value;
    PublishedIsValid(text, op);
    PublishedFilesAreInScope(text, op);
  }

  /** Every record stands for a kept file of the tree, but may have lost a final CR. */
  ghost predicate ComesFromTree(scope: Scope, children: seq<Child>, files: FileMap)
  {
    forall key :: key in files ==> exists path, file :: StandsFor(scope, children, path, file) && IsReread(file, files[key])
  }

  /** The record of a file after a save and a load. */
  predicate IsReread(file: IndexedFile, loaded: IndexedFile)
  {
    loaded == IndexedFile(FromUserPath(StripSuffix(file.path, '\r')), file.size, file.modified)
  }

  lemma RereadComesFromTree(scope: Scope, children: seq<Child>, files: FileMap)
    requires IsMapOfTree(scope, children, files)
    ensures ComesFromTree(scope, children, Reread(files))
  {
    hide StandsFor, FromUserPath, ValuesInOrder, FilesByPath, StripPaths, Renormalize;
    var values := ValuesInOrder(files);
    ValuesInOrderMembers(files);
    forall key | key in Reread(files)
      ensures exists path, file :: StandsFor(scope, children, path, file) && IsReread(file, Reread(files)[key])
    {
      RereadMember(values, key);
      var i :| 0 <= i < |values| && key == FromUserPath(StripSuffix(values[i].path, '\r')) && Reread(files)[key] == values[i].(path := key);
      var path :| StandsFor(scope, children, path, files[values[i].path]);
      assert IsReread(values[i], Reread(files)[key]);
    }
  }

  /** After a successful `index` whose paths are LF-free, opening the index gives exactly the
      exclusions and the resolved root that were asked for, and records of kept files of that
      tree only, so of none below an excluded directory; with printable paths, all of them and
      unchanged. Nothing of the index before matters. */
  lemma IndexSetsScope(env: Environment, root: string, excluded: set<string>, artifacts: Artifacts, text: Option<string>)
    requires root in env.canonical && env.canonical[root] in env.canonical
    requires ScanRoot(env, excluded, env.canonical[root], artifacts).Some?
    requires LfFree(FilesByPath(ScanRoot(env, excluded, env.canonical[root], artifacts).value))
    ensures var after := After(text, CliIndex(env, root, excluded, artifacts), true);
            var (location, node) := env.roots[env.canonical[env.canonical[root]]];
            && HasPolicy(after, excluded) && HasRoot(after, env.canonical[root])
            && node.Directory? && ComesFromTree(Scope(excluded, location, artifacts), node.children, OpenText(after).value.files)
            && (Printable(FilesByPath(ScanRoot(env, excluded, env.canonical[root], artifacts).value)) ==>
                  IsMapOfTree(Scope(excluded, location, artifacts), node.children, OpenText(after).value.files))
  {
    var published := IndexPublishes(env, root, excluded, artifacts, text);
    hide Parse, Render, FilesByPath, ScanRoot, Printable, IsMapOfTree, ComesFromTree, Valid, After;
    var (location, node) := env.roots[env.canonical[env.canonical[root]]];
    ParseRendered(published);
    RoundTripIff(published);
    RereadComesFromTree(Scope(excluded, location, artifacts), node.children, published.files);
  }

  /** Until the next `index`, every later scan uses the exclusions given to this one. */
  lemma LaterScansUseIndexScope(
      env: Environment, root: string, excluded: set<string>, artifacts: Artifacts, text: Option<string>,
      ops: seq<Operation>, saves: seq<bool>, k: nat)
    requires root in env.canonical && env.canonical[root] in env.canonical
    requires ScanRoot(env, excluded, env.canonical[root], artifacts).Some?
    requires LfFree(FilesByPath(ScanRoot(env, excluded, env.canonical[root], artifacts).value))
    requires |ops| == |saves| && k < |ops| && forall i :: 0 <= i < |ops| ==> !ops[i].CliIndex?
    requires var texts := Texts(After(text, CliIndex(env, root, excluded, artifacts), true), ops, saves);
             |texts| == |ops| + 1 && forall i :: 0 <= i < |ops| ==> PublishesLfFree(texts[i], ops[i])
    ensures var texts := Texts(After(text, CliIndex(env, root, excluded, artifacts), true), ops, saves);
            ScopeOf(texts[k], ops[k]).Ok? ==> ScopeOf(texts[k], ops[k]).value.1 == excluded
  {
    hide After, HasPolicy, HasRoot, PublishesLfFree, ScopeOf, ScanRoot, FilesByPath, LfFree, Texts;
    IndexSetsScope(env, root, excluded, artifacts, text);
    PolicyIsFixedOverRuns(After(text, CliIndex(env, root, excluded, artifacts), true), ops, saves, excluded, k);
  }
}
