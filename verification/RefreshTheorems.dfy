/** What refreshing promises over time: a status right after a refresh is quiet, and scope
    does not drift. */
module RefreshTheorems {
  import opened Text
  import opened Records
  import opened Comparison
  import opened SnapshotText
  import opened RoundTrip
  import opened Scanner
  import opened ScanTree
  import opened Refresh

  predicate LfFree(files: FileMap)
  {
    forall path :: path in files ==> '\n' !in path
  }

  // ---------------------------------------------------------------- status after refresh

  /** The scope a request resolves to against a stored index. */
  predicate Resolves(env: Environment, snapshot: Snapshot, request: Request, root: string, excluded: set<string>)
  {
    IndexRoot(env, snapshot.root, request.root) == Ok(root)
    && ResolveScanOptions(snapshot.policy, request.excluded) == Ok(excluded)
  }

  /** A second scan of the scope finds the same user files. */
  predicate SameUserFiles(
      env: Environment, env': Environment, excluded: set<string>, root: string, artifacts: Artifacts)
  {
    var before, after := ScanRoot(env, excluded, root, artifacts), ScanRoot(env', excluded, root, artifacts);
    before.Some? && after.Some? && FilesByPath(after.value) == FilesByPath(before.value)
  }

  lemma RefreshScope(env: Environment, text: Option<string>, request: Request, artifacts: Artifacts)
    returns (root: string, excluded: set<string>)
    requires RefreshOutcome(env, text, request, artifacts).Ok?
    ensures OpenText(text).Ok? && Resolves(env, OpenText(text).value, request, root, excluded)
    ensures ScanRoot(env, excluded, root, artifacts).Some?
    ensures RefreshOutcome(env, text, request, artifacts).value.0
         == OpenText(text).value.(root := Some(root), files := FilesByPath(ScanRoot(env, excluded, root, artifacts).value))
  {
    hide Parse, FilesByPath, Difference, ScanRoot, SameRootPath;
    var snapshot := OpenText(text).value;
    root := IndexRoot(env, snapshot.root, request.root).value;
    excluded := ResolveScanOptions(snapshot.policy, request.excluded).value;
  }

  /** Asking again with the same request means the same scope. */
  lemma SameRequestSameScope(env: Environment, snapshot: Snapshot, request: Request, root: string, excluded: set<string>)
    requires Resolves(env, snapshot, request, root, excluded)
    ensures Resolves(env, snapshot.(root := Some(root)), request, root, excluded)
  {
  }

  /** An explicit policy on the index is inherited when the request names none. */
  lemma OmittedRequestSameScope(env: Environment, snapshot: Snapshot, request: Request, root: string, excluded: set<string>)
    requires Resolves(env, snapshot, request, root, excluded) && snapshot.policy.Some?
    ensures Resolves(env, snapshot.(root := Some(root)), Request(None, None), root, excluded)
  {
  }

  /** After a successful refresh, a status over the same scope with unchanged user files
      reports nothing added, updated or removed. */
  lemma StatusAfterRefresh(
      env: Environment, env': Environment, text: Option<string>, request: Request, request': Request,
      artifacts: Artifacts, root: string, excluded: set<string>)
    requires RefreshOutcome(env, text, request, artifacts).Ok?
    requires var published := RefreshOutcome(env, text, request, artifacts).value.0;
             Printable(published.files) && Resolves(env', published, request', root, excluded)
    requires OpenText(text).Ok? && Resolves(env, OpenText(text).value, request, root, excluded)
    requires SameUserFiles(env, env', excluded, root, artifacts)
    ensures var published := RefreshOutcome(env, text, request, artifacts).value.0;
            var status := StatusOutcome(env', Some(Render(published)), request', artifacts);
            status.Ok? && status.value.summary.added == 0 && status.value.summary.updated == 0
            && status.value.summary.removed == 0
            && status.value.summary.same == |published.files|
  {
    hide Render, Parse, FilesByPath, Difference, ScanResult, SameRootPath, Printable, Valid;
    var root', excluded' := RefreshScope(env, text, request, artifacts);
    var published := RefreshOutcome(env, text, request, artifacts).value.0;
    ScannedIsValid(env, excluded, root, artifacts, OpenText(text).value);
    RoundTripIff(published);
    var scanned := ScanRoot(env', excluded, root, artifacts).value;
    assert FilesByPath(scanned) == published.files;
    NothingChanged(published.files);
  }

  lemma NothingChanged(files: FileMap)
    ensures Difference(files, files) == RefreshSummary(0, 0, 0, |files|)
  {
    hide Updated, Same;
    assert files.Keys - files.Keys == {};
    CountsPartitionPaths(files, files);
    NoneUpdated(files);
  }

  lemma NoneUpdated(files: FileMap)
    ensures Updated(files, files) == 0
  {
  }

  // ---------------------------------------------------------------- why user files look the same

  datatype Edit = Put(path: Path, file: Node) | Remove(path: Path)

  function ApplyEdit(node: Node, edit: Edit): Node
    requires node.Directory? && edit.path != []
  {
    match edit
    case Put(path, file) => Directory(PutFile(node.children, path, file))
    case Remove(path) => Directory(RemoveFile(node.children, path))
  }

  /** Edits of the program's own files: index, lock, temporaries, runtime files. */
  predicate OwnEdit(scope: Scope, node: Node, edit: Edit)
  {
    node.Directory? && edit.path != [] && FreeForFile(node.children, edit.path)
    && scope.artifacts.Excludes(scope.root + edit.path) && (edit.Put? ==> edit.file.File?)
  }

  predicate OwnEdits(scope: Scope, node: Node, edits: seq<Edit>)
    decreases |edits|
  {
    edits == [] || (OwnEdit(scope, node, edits[0]) && OwnEdits(scope, ApplyEdit(node, edits[0]), edits[1..]))
  }

  function ApplyEdits(scope: Scope, node: Node, edits: seq<Edit>): Node
    requires OwnEdits(scope, node, edits)
    decreases |edits|
  {
    if edits == [] then node else ApplyEdits(scope, ApplyEdit(node, edits[0]), edits[1..])
  }

  lemma {:induction false} OwnEditsAreInvisible(scope: Scope, node: Node, edits: seq<Edit>)
    requires OwnEdits(scope, node, edits)
    ensures ScanResult(scope, ApplyEdits(scope, node, edits)) == ScanResult(scope, node)
    decreases |edits|
  {
    hide ScanResult;
    if edits != [] {
      var edit := edits[0];
      var file := if edit.Put? then edit.file else File(0, 0);
      ArtifactsAreInvisible(scope, node, edit.path, file);
      OwnEditsAreInvisible(scope, ApplyEdit(node, edit), edits[1..]);
    }
  }

  /** The index, its lock, temporaries and runtime files may live inside the scanned root:
      whatever the refresh itself created, renamed or left behind there goes unnoticed. */
  lemma OwnFilesInsideRoot(
      env: Environment, excluded: set<string>, root: string, artifacts: Artifacts, edits: seq<Edit>)
    requires ScanRoot(env, excluded, root, artifacts).Some?
    requires var (path, node) := env.roots[env.canonical[root]];
             OwnEdits(Scope(excluded, path, artifacts), node, edits)
    ensures var (path, node) := env.roots[env.canonical[root]];
            var edited := ApplyEdits(Scope(excluded, path, artifacts), node, edits);
            SameUserFiles(env, env.(roots := env.roots[env.canonical[root] := (path, edited)]), excluded, root, artifacts)
  {
    hide ScanResult, FilesByPath;
    var (path, node) := env.roots[env.canonical[root]];
    OwnEditsAreInvisible(Scope(excluded, path, artifacts), node, edits);
  }

  predicate DistinctPaths(files: seq<IndexedFile>)
  {
    forall i, j :: 0 <= i < j < |files| ==> files[i].path != files[j].path
  }

  lemma DistinctPermutation(a: seq<IndexedFile>, b: seq<IndexedFile>)
    requires multiset(a) == multiset(b) && DistinctPaths(a)
    ensures FilesByPath(a) == FilesByPath(b)
  {
    FilesByPathKeyed(a);
    FilesByPathKeyed(b);
    hide FilesByPath;
    var m, n := FilesByPath(a), FilesByPath(b);
    forall path ensures path in m <==> path in n {
      if path in m { assert m[path] in multiset(b); assert m[path] in b; }
      if path in n { assert n[path] in multiset(a); assert n[path] in a; }
    }
    forall path | path in m ensures m[path] == n[path] {
      assert n[path] in multiset(a);
      assert n[path] in a && m[path] in a;
    }
  }

  /** Directories may be listed in another order: with distinct normalised paths the same
      multiset of kept files is the same index. */
  lemma ReorderedDirectories(scope: Scope, before: Node, after: Node)
    requires ScanResult(scope, before).Some? && ScanResult(scope, after).Some?
    requires multiset(ToRecords(Kept(scope, 0, Walk([], before.children))))
          == multiset(ToRecords(Kept(scope, 0, Walk([], after.children))))
    requires DistinctPaths(ScanResult(scope, before).value)
    ensures FilesByPath(ScanResult(scope, before).value) == FilesByPath(ScanResult(scope, after).value)
    ensures ScanResult(scope, before) == ScanResult(scope, after)
  {
    ScanIsExact(scope, before);
    ScanIsExact(scope, after);
    hide Sorted, ToRecords, Kept, Walk, ReachesUnreadable, FilesByPath, ValuesInOrder;
    var a, b := ScanResult(scope, before).value, ScanResult(scope, after).value;
    DistinctPermutation(a, b);
    PermutationDistinct(a, b);
    AscendingIsValuesInOrder(a);
    AscendingIsValuesInOrder(b);
  }

  lemma PermutationDistinct(a: seq<IndexedFile>, b: seq<IndexedFile>)
    requires multiset(a) == multiset(b) && DistinctPaths(a)
    ensures DistinctPaths(b)
  {
    forall i, j | 0 <= i < j < |b| ensures b[i].path != b[j].path {
      if b[i].path == b[j].path {
        assert b[i] in multiset(a) && b[j] in multiset(a);
        assert b[i] in a && b[j] in a;
        assert b[i] == b[j];
        TwiceInMultiset(b, i, j);
        OnceInMultiset(a, b[i]);
        assert false;
      }
    }
  }

  lemma TwiceInMultiset(files: seq<IndexedFile>, i: nat, j: nat)
    requires i < j < |files| && files[i] == files[j]
    ensures multiset(files)[files[i]] >= 2
  {
    assert files == files[..j] + [files[j]] + files[j + 1..];
    assert files[..j][i] == files[i];
    assert files[i] in files[..j];
  }

  lemma {:induction false} OnceInMultiset(files: seq<IndexedFile>, file: IndexedFile)
    requires DistinctPaths(files)
    ensures multiset(files)[file] <= 1
  {
    if files != [] {
      var rest := files[1..];
      assert files == [files[0]] + rest;
      assert forall i :: 0 <= i < |rest| ==> rest[i] == files[i + 1];
      OnceInMultiset(rest, file);
      if file == files[0] { assert file !in rest; }
    }
  }

  // ---------------------------------------------------------------- end to end

  /** The same tree, or the same kept files listed in another order under distinct paths. */
  predicate Relisted(scope: Scope, before: Node, after: Node)
  {
    after == before
    || (ScanResult(scope, before).Some? && ScanResult(scope, after).Some? && DistinctPaths(ScanResult(scope, before).value)
        && multiset(ToRecords(Kept(scope, 0, Walk([], before.children))))
           == multiset(ToRecords(Kept(scope, 0, Walk([], after.children)))))
  }

  /** The request again, or one that leaves root and exclusions to a stored policy. */
  predicate AsksAgain(snapshot: Snapshot, request: Request, again: Request)
  {
    again == request || (again == Request(None, None) && snapshot.policy.Some?)
  }

  /** After a successful refresh, whatever the program then creates or removes of its own
      files inside the scanned root, and in whatever order the directories are listed, a
      status reports nothing added, updated or removed. */
  lemma QuietAfterRefresh(
      env: Environment, text: Option<string>, request: Request, again: Request, artifacts: Artifacts,
      root: string, excluded: set<string>, edits: seq<Edit>, node': Node)
    requires RefreshOutcome(env, text, request, artifacts).Ok? && OpenText(text).Ok?
    requires Resolves(env, OpenText(text).value, request, root, excluded) && AsksAgain(OpenText(text).value, request, again)
    requires Printable(RefreshOutcome(env, text, request, artifacts).value.0.files)
    requires ScanRoot(env, excluded, root, artifacts).Some?
    requires var (path, node) := env.roots[env.canonical[root]];
             OwnEdits(Scope(excluded, path, artifacts), node, edits)
             && Relisted(Scope(excluded, path, artifacts), ApplyEdits(Scope(excluded, path, artifacts), node, edits), node')
    ensures var published := RefreshOutcome(env, text, request, artifacts).value.0;
            var env' := env.(roots := env.roots[env.canonical[root] := (env.roots[env.canonical[root]].0, node')]);
            var status := StatusOutcome(env', Some(Render(published)), again, artifacts);
            status.Ok? && status.value.summary == RefreshSummary(0, 0, 0, |published.files|)
  {
    var (path, node) := env.roots[env.canonical[root]];
    var scope := Scope(excluded, path, artifacts);
    var edited := ApplyEdits(scope, node, edits);
    var env' := env.(roots := env.roots[env.canonical[root] := (path, node')]);
    RelistedScans(scope, node, edits, node');
    hide ScanResult, FilesByPath, Parse, Render, Printable, OwnEdits, Relisted, Difference, StatusOutcome, ScanAndCompare;
    assert SameUserFiles(env, env', excluded, root, artifacts);
    hide SameUserFiles, ScanRoot;
    var published := RefreshOutcome(env, text, request, artifacts).value.0;
    AgainResolves(env, env', text, request, again, artifacts, root, excluded);
    StatusAfterRefresh(env, env', text, request, again, artifacts, root, excluded);
  }

  lemma RelistedScans(scope: Scope, node: Node, edits: seq<Edit>, node': Node)
    requires ScanResult(scope, node).Some? && OwnEdits(scope, node, edits)
    requires Relisted(scope, ApplyEdits(scope, node, edits), node')
    ensures ScanResult(scope, node') == ScanResult(scope, node)
  {
    var edited := ApplyEdits(scope, node, edits);
    OwnEditsAreInvisible(scope, node, edits);
    hide ScanResult, OwnEdits, ToRecords, Kept, Walk;
    if node' != edited { ReorderedDirectories(scope, edited, node'); }
  }

  lemma AgainResolves(
      env: Environment, env': Environment, text: Option<string>, request: Request, again: Request, artifacts: Artifacts,
      root: string, excluded: set<string>)
    requires RefreshOutcome(env, text, request, artifacts).Ok? && OpenText(text).Ok? && env'.canonical == env.canonical
    requires Resolves(env, OpenText(text).value, request, root, excluded) && AsksAgain(OpenText(text).value, request, again)
    ensures Resolves(env', RefreshOutcome(env, text, request, artifacts).value.0, again, root, excluded)
  {
    hide Parse, FilesByPath, Difference, ScanRoot;
    var root', excluded' := RefreshScope(env, text, request, artifacts);
    hide RefreshOutcome;
  }

  // ---------------------------------------------------------------- scope over whole runs

  datatype Operation =
    | RpcRefresh(env: Environment, request: Request, artifacts: Artifacts)
    | RpcStatus(env: Environment, request: Request, artifacts: Artifacts)
    | CliRefresh(env: Environment, root: string, requested: Option<set<string>>, artifacts: Artifacts)
    | CliStatus(env: Environment, root: string, requested: Option<set<string>>, artifacts: Artifacts)
    | CliIndex(env: Environment, root: string, excluded: set<string>, artifacts: Artifacts)

  /** Command line scope: options first, then the root. */
  function CliScope(env: Environment, snapshot: Snapshot, root: string, requested: Option<set<string>>)
    : Result<(string, set<string>), RefreshError>
  {
    match ResolveScanOptions(snapshot.policy, requested)
    case Err(error) => Err(error)
    case Ok(excluded) =>
      match CliIndexRoot(env, snapshot, root)
      case Err(error) => Err(error)
      case Ok(root) => Ok((root, excluded))
  }

  function RpcScope(env: Environment, snapshot: Snapshot, request: Request): Result<(string, set<string>), RefreshError>
  {
    match IndexRoot(env, snapshot.root, request.root)
    case Err(error) => Err(error)
    case Ok(root) =>
      match ResolveScanOptions(snapshot.policy, request.excluded)
      case Err(error) => Err(error)
      case Ok(excluded) => Ok((root, excluded))
  }

  /** The scope an operation scans, if it gets that far. */
  function ScopeOf(text: Option<string>, op: Operation): Result<(string, set<string>), RefreshError>
  {
    if op.CliIndex? then
      if op.root in op.env.canonical then Ok((op.env.canonical[op.root], op.excluded)) else Err(ScanFailed)
    else
      match OpenText(text)
      case Err(_) => Err(OpenFailed)
      case Ok(snapshot) =>
        if op.RpcRefresh? || op.RpcStatus? then RpcScope(op.env, snapshot, op.request)
        else CliScope(op.env, snapshot, op.root, op.requested)
  }

  /** What an operation publishes when its save succeeds. */
  function PublishedBy(text: Option<string>, op: Operation): Option<Snapshot>
  {
    if op.RpcStatus? || op.CliStatus? then None
    else
      match ScopeOf(text, op)
      case Err(_) => None
      case Ok((root, excluded)) =>
        match ScanRoot(op.env, excluded, root, op.artifacts)
        case None => None
        case Some(files) =>
          if op.CliIndex? then Some(Snapshot(FilesByPath(files), Some(root), Some(excluded)))
          else Some(OpenText(text).value.(root := Some(root), files := FilesByPath(files)))
  }

  /** The index after an operation; `saves` tells whether its publication got through. */
  function After(text: Option<string>, op: Operation, saves: bool): Option<string>
  {
    var published := PublishedBy(text, op);
    if saves && published.Some? then Some(Render(published.value)) else text
  }

  /** The daemon's refresh is this operation. */
  lemma RpcRefreshPublishes(env: Environment, text: Option<string>, request: Request, artifacts: Artifacts)
    ensures PublishedBy(text, RpcRefresh(env, request, artifacts))
         == match RefreshOutcome(env, text, request, artifacts) { case Err(_) => None case Ok(pair) => Some(pair.0) }
  {
    hide Parse, FilesByPath, Difference, ScanResult, SameRootPath;
  }

  function Texts(text: Option<string>, ops: seq<Operation>, saves: seq<bool>): seq<Option<string>>
    requires |ops| == |saves|
    decreases |ops|
  {
    if ops == [] then [text] else [text] + Texts(After(text, ops[0], saves[0]), ops[1..], saves[1..])
  }

  /** Each record stands for a kept file of the tree, and each kept file's path has a record. */
  ghost predicate IsMapOfTree(scope: Scope, children: seq<Child>, files: FileMap)
  {
    && (forall key :: key in files ==> files[key].path == key && exists path :: StandsFor(scope, children, path, files[key]))
    && (forall path, file :: StandsFor(scope, children, path, file) ==> file.path in files)
  }

  /** Every file an operation publishes stands for a regular file of the tree it scanned, with
      that file's size and modification time, below no excluded directory, and none of the
      program's own files; and every such file is published under its normalised path. */
  lemma PublishedFilesAreInScope(text: Option<string>, op: Operation)
    requires PublishedBy(text, op).Some?
    ensures ScopeOf(text, op).Ok? && ScanRoot(op.env, ScopeOf(text, op).value.1, ScopeOf(text, op).value.0, op.artifacts).Some?
    ensures var (root, excluded) := ScopeOf(text, op).value;
            var (location, node) := op.env.roots[op.env.canonical[root]];
            node.Directory? && IsMapOfTree(Scope(excluded, location, op.artifacts), node.children, PublishedBy(text, op).value.files)
  {
    hide Parse, Difference, SameRootPath, CliIndexRoot, IndexRoot, ResolveScanOptions, IsMapOfTree;
    var (root, excluded) := ScopeOf(text, op).value;
    var (location, node) := op.env.roots[op.env.canonical[root]];
    var scope := Scope(excluded, location, op.artifacts);
    assert node.Directory?;
    hide ScanResult, FilesByPath;
    ScanMapIsTree(scope, node);
    assert PublishedBy(text, op).value.files == FilesByPath(ScanResult(scope, node).value);
  }

  lemma ScanMapIsTree(scope: Scope, node: Node)
    requires ScanResult(scope, node).Some? && node.Directory?
    ensures IsMapOfTree(scope, node.children, FilesByPath(ScanResult(scope, node).value))
  {
    var scanned := ScanResult(scope, node).value;
    FilesByPathKeyed(scanned);
    hide ScanResult, FilesByPath, StandsFor;
    forall key | key in FilesByPath(scanned)
      ensures exists path :: StandsFor(scope, node.children, path, FilesByPath(scanned)[key])
    {
      ScanContains(scope, node, FilesByPath(scanned)[key]);
    }
    forall path, file | StandsFor(scope, node.children, path, file) ensures file.path in FilesByPath(scanned) {
      ScanContains(scope, node, file);
    }
  }

  predicate PublishesLfFree(text: Option<string>, op: Operation)
  {
    PublishedBy(text, op).Some? ==> LfFree(PublishedBy(text, op).value.files)
  }

  predicate HasPolicy(text: Option<string>, policy: set<string>)
  {
    OpenText(text).Ok? && OpenText(text).value.policy == Some(policy)
  }

  predicate HasRoot(text: Option<string>, root: string)
  {
    OpenText(text).Ok? && OpenText(text).value.root == Some(root)
  }

  lemma PublishedIsValid(text: Option<string>, op: Operation)
    requires PublishedBy(text, op).Some?
    ensures Valid(PublishedBy(text, op).value)
  {
    hide Parse, FilesByPath, ScanResult, SameRootPath;
    var (root, excluded) := ScopeOf(text, op).value;
    ScannedIsValid(op.env, excluded, root, op.artifacts, PublishedBy(text, op).value);
  }

  /** One operation other than an explicit rebuild: a known policy stays, and is the one used. */
  lemma PolicyStaysStep(text: Option<string>, op: Operation, saves: bool, policy: set<string>)
    requires HasPolicy(text, policy) && !op.CliIndex? && PublishesLfFree(text, op)
    ensures HasPolicy(After(text, op, saves), policy)
    ensures ScopeOf(text, op).Ok? ==> ScopeOf(text, op).value.1 == policy
  {
    hide Parse, FilesByPath, ScanRoot, SameRootPath, Render;
    if PublishedBy(text, op).Some? {
      PublishedIsValid(text, op);
      ParseRendered(PublishedBy(text, op).value);
    }
  }

  lemma RootStaysStep(text: Option<string>, op: Operation, saves: bool, root: string)
    requires HasRoot(text, root) && (op.RpcRefresh? || op.RpcStatus?) && PublishesLfFree(text, op)
    ensures HasRoot(After(text, op, saves), root)
  {
    hide Parse, FilesByPath, ScanRoot, SameRootPath, Render;
    if PublishedBy(text, op).Some? {
      PublishedIsValid(text, op);
      ParseRendered(PublishedBy(text, op).value);
    }
  }

  /** Over any run of daemon operations the recorded root never changes, policy or not. */
  lemma {:induction false} RootIsFixedOverRuns(
      text: Option<string>, ops: seq<Operation>, saves: seq<bool>, root: string, k: nat)
    requires |ops| == |saves| && k <= |ops| && HasRoot(text, root)
    requires forall i :: 0 <= i < k ==> ops[i].RpcRefresh? || ops[i].RpcStatus?
    requires |Texts(text, ops, saves)| == |ops| + 1
             && forall i :: 0 <= i < k ==> PublishesLfFree(Texts(text, ops, saves)[i], ops[i])
    ensures HasRoot(Texts(text, ops, saves)[k], root)
    decreases |ops|
  {
    hide After, HasRoot, PublishesLfFree;
    var texts := Texts(text, ops, saves);
    if k == 0 {
      assert texts[0] == text;
    } else {
      var next := After(text, ops[0], saves[0]);
      var rest := Texts(next, ops[1..], saves[1..]);
      assert texts == [text] + rest;
      assert PublishesLfFree(texts[0], ops[0]);
      RootStaysStep(text, ops[0], saves[0], root);
      forall i | 0 <= i < k - 1
        ensures PublishesLfFree(rest[i], ops[1..][i]) && (ops[1..][i].RpcRefresh? || ops[1..][i].RpcStatus?)
      {
        assert texts[i + 1] == rest[i] && ops[i + 1] == ops[1..][i];
        assert PublishesLfFree(texts[i + 1], ops[i + 1]);
      }
      RootIsFixedOverRuns(next, ops[1..], saves[1..], root, k - 1);
    }
  }

  /** Over any run without an explicit rebuild a known policy never changes, and every scan
      uses it. */
  lemma {:induction false} PolicyIsFixedOverRuns(
      text: Option<string>, ops: seq<Operation>, saves: seq<bool>, policy: set<string>, k: nat)
    requires |ops| == |saves| && k <= |ops| && HasPolicy(text, policy)
    requires forall i :: 0 <= i < |ops| ==> !ops[i].CliIndex?
    requires |Texts(text, ops, saves)| == |ops| + 1
             && forall i :: 0 <= i < |ops| ==> PublishesLfFree(Texts(text, ops, saves)[i], ops[i])
    ensures HasPolicy(Texts(text, ops, saves)[k], policy)
    ensures k < |ops| && ScopeOf(Texts(text, ops, saves)[k], ops[k]).Ok?
            ==> ScopeOf(Texts(text, ops, saves)[k], ops[k]).value.1 == policy
    decreases |ops|
  {
    hide After, HasPolicy, PublishesLfFree, ScopeOf;
    var texts := Texts(text, ops, saves);
    if ops != [] {
      assert texts[0] == text && PublishesLfFree(texts[0], ops[0]);
      PolicyStaysStep(text, ops[0], saves[0], policy);
    }
    if k == 0 {
      assert texts[0] == text;
    } else {
      var next := After(text, ops[0], saves[0]);
      var rest := Texts(next, ops[1..], saves[1..]);
      assert texts == [text] + rest;
      forall i | 0 <= i < |ops[1..]| ensures PublishesLfFree(rest[i], ops[1..][i]) && !ops[1..][i].CliIndex? {
        assert texts[i + 1] == rest[i] && ops[i + 1] == ops[1..][i];
        assert PublishesLfFree(texts[i + 1], ops[i + 1]);
      }
      PolicyIsFixedOverRuns(next, ops[1..], saves[1..], policy, k - 1);
    }
  }

  /** Both together: the policy, if the index has one, under everything but a rebuild, and
      the root, if it has one, as long as only the daemon works on it. */
  lemma ScopeIsFixedOverRuns(
      text: Option<string>, ops: seq<Operation>, saves: seq<bool>, policy: set<string>, root: string, k: nat)
    requires |ops| == |saves| && k <= |ops|
    requires forall i :: 0 <= i < |ops| ==> !ops[i].CliIndex?
    requires |Texts(text, ops, saves)| == |ops| + 1
             && forall i :: 0 <= i < |ops| ==> PublishesLfFree(Texts(text, ops, saves)[i], ops[i])
    ensures HasPolicy(text, policy) ==> HasPolicy(Texts(text, ops, saves)[k], policy)
    ensures HasPolicy(text, policy) && k < |ops| && ScopeOf(Texts(text, ops, saves)[k], ops[k]).Ok?
            ==> ScopeOf(Texts(text, ops, saves)[k], ops[k]).value.1 == policy
    ensures HasRoot(text, root) && (forall i :: 0 <= i < k ==> ops[i].RpcRefresh? || ops[i].RpcStatus?)
            ==> HasRoot(Texts(text, ops, saves)[k], root)
  {
    hide HasPolicy, HasRoot, PublishesLfFree, ScopeOf, Texts;
    if HasPolicy(text, policy) { PolicyIsFixedOverRuns(text, ops, saves, policy, k); }
    if HasRoot(text, root) && forall i :: 0 <= i < k ==> ops[i].RpcRefresh? || ops[i].RpcStatus? {
      RootIsFixedOverRuns(text, ops, saves, root, k);
    }
  }
}
