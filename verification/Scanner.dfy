/** crates/indexer/src/scanner.rs: the recursive scan with exclusions, and why the
    index's own files never show up in it. */
module Scanner {
  import opened Text
  import opened PathId
  import opened Records
  import opened Metadata

  /** The components of a canonical absolute path, or of a path below a root. */
  type Path = seq<string>

  /** A directory entry as the scan sees it: regular file, directory, a directory that
      cannot be read, or anything else (links, sockets, devices). */
  datatype Node =
    | File(size: U64, modified: U64)
    | Directory(children: seq<Child>)
    | Unreadable
    | Special

  datatype Child = Child(name: string, node: Node)

  // ---------------------------------------------------------------- artifact names

  function Parent(path: Path): Path
    requires path != []
  {
    path[..|path| - 1]
  }

  function FileName(path: Path): string
    requires path != []
  {
    path[|path| - 1]
  }

  function WithFileName(path: Path, name: string): (r: Path)
    requires path != []
    ensures r != [] && Parent(r) == Parent(path) && FileName(r) == name
  {
    Parent(path) + [name]
  }

  function AdjacentLockPath(index: Path): Path
    requires index != []
  {
    WithFileName(index, FileName(index) + ".lock")
  }

  function PublicationPrefix(artifact: Path): string
    requires artifact != []
  {
    "." + FileName(artifact) + ".aifs-tmp-"
  }

  /** `temporary_index_path`. */
  function TemporaryIndexPath(index: Path, pid: nat, id: nat): (r: Path)
    requires index != []
    ensures r != [] && r != index
  {
    WithFileName(index, PublicationPrefix(index) + ShowNumber(pid) + "-" + ShowNumber(id))
  }

  /** The name `create_state_temp_at` tries. */
  function TemporaryStatePath(state: Path, pid: nat, timestamp: nat, sequence: nat): (r: Path)
    requires state != []
    ensures r != [] && r != state
  {
    WithFileName(state, "." + FileName(state) + ".aifs-tmp-" + ShowNumber(pid) + "-" + ShowNumber(timestamp)
                        + "-" + ShowNumber(sequence) + ".tmp")
  }

  predicate MatchesPublicationNamespace(path: Path, artifact: Path)
  {
    path != [] && artifact != [] && Parent(path) == Parent(artifact)
    && PublicationPrefix(artifact) <= FileName(path)
  }

  /** `IndexArtifacts`: the index and whatever runtime files the caller owns. */
  datatype Artifacts = Artifacts(index: Path, runtime: set<Path>)
  {
    ghost predicate Valid()
    {
      index != [] && [] !in runtime
    }

    predicate Excludes(path: Path)
    {
      path == index || (index != [] && path == AdjacentLockPath(index)) || path in runtime
      || MatchesPublicationNamespace(path, index)
      || exists artifact :: artifact in runtime && MatchesPublicationNamespace(path, artifact)
    }
  }

  // ---------------------------------------------------------------- reference

  datatype Entry = Entry(path: Path, size: U64, modified: U64)

  /** Every regular file below a directory, in directory order, nothing left out. */
  function Walk(relative: Path, children: seq<Child>): seq<Entry>
    decreases children
  {
    if children == [] then []
    else WalkNode(relative + [children[0].name], children[0].node) + Walk(relative, children[1..])
  }

  function WalkNode(path: Path, node: Node): seq<Entry>
    decreases node
  {
    match node
    case File(size, modified) => [Entry(path, size, modified)]
    case Directory(children) => Walk(path, children)
    case Unreadable => []
    case Special => []
  }

  datatype Scope = Scope(excluded: set<string>, root: Path, artifacts: Artifacts)
  {
    /** No excluded directory name at or below depth `depth`, and not one of our files. */
    predicate Keeps(path: Path, depth: nat)
    {
      (forall i :: depth <= i < |path| - 1 ==> path[i] !in excluded) && !artifacts.Excludes(root + path)
    }
  }

  function Kept(scope: Scope, depth: nat, entries: seq<Entry>): seq<Entry>
  {
    if entries == [] then []
    else (if scope.Keeps(entries[0].path, depth) then [entries[0]] else []) + Kept(scope, depth, entries[1..])
  }

  function ToRecord(entry: Entry): IndexedFile
  {
    IndexedFile(FromUserPath(Join(entry.path, '/')), entry.size, entry.modified)
  }

  function ToRecords(entries: seq<Entry>): seq<IndexedFile>
  {
    if entries == [] then [] else [ToRecord(entries[0])] + ToRecords(entries[1..])
  }

  /** A directory that cannot be read and is not below an excluded name. */
  predicate ReachesUnreadable(excluded: set<string>, children: seq<Child>)
    decreases children
  {
    children != [] &&
    (NodeReachesUnreadable(excluded, children[0].name, children[0].node) || ReachesUnreadable(excluded, children[1..]))
  }

  predicate NodeReachesUnreadable(excluded: set<string>, name: string, node: Node)
    decreases node
  {
    match node
    case Directory(children) => name !in excluded && ReachesUnreadable(excluded, children)
    case Unreadable => name !in excluded
    case File(_, _) => false
    case Special => false
  }

  // ---------------------------------------------------------------- the scan

  class FileList {
    var items: seq<IndexedFile>

    constructor ()
      ensures items == []
    {
      items := [];
    }

    method Push(file: IndexedFile)
      modifies this
      ensures items == old(items) + [file]
    {
      items := items + [file];
    }

    /** `sort_by` on normalised paths: the standard library's stable sort. */
    method SortByPath()
      modifies this
      ensures items == Sorted(old(items))
    {
      items := Sorted(items);
    }
  }

  ghost function KeptRecords(scope: Scope, relative: Path, children: seq<Child>): seq<IndexedFile>
  {
    ToRecords(Kept(scope, |relative|, Walk(relative, children)))
  }

  /** `scan_directory`: prunes excluded directories instead of filtering what is below. */
  method ScanDirectory(scope: Scope, relative: Path, children: seq<Child>, files: FileList) returns (ok: bool)
    modifies files
    ensures ok <==> !ReachesUnreadable(scope.excluded, children)
    ensures ok ==> files.items == old(files.items) + KeptRecords(scope, relative, children)
    decreases children, 1
  {
    hide KeptRecords, NodeReachesUnreadable;
    NoRecords(scope, relative);
    for i := 0 to |children|
      invariant ReachesUnreadable(scope.excluded, children[i..]) <==> ReachesUnreadable(scope.excluded, children)
      invariant files.items + KeptRecords(scope, relative, children[i..])
             == old(files.items) + KeptRecords(scope, relative, children)
    {
      assert children[i..][1..] == children[i + 1..];
      RecordsSplit(scope, relative, children[i..]);
      var readable := ScanEntry(scope, relative, children[i], files);
      if !readable { return false; }
    }
    ok := true;
  }

  /** One directory entry of `scan_directory`. */
  method ScanEntry(scope: Scope, relative: Path, entry: Child, files: FileList) returns (ok: bool)
    modifies files
    ensures ok <==> !NodeReachesUnreadable(scope.excluded, entry.name, entry.node)
    ensures ok ==> files.items == old(files.items) + KeptRecords(scope, relative, [entry])
    decreases entry, 0
  {
    hide ToRecord;
    var path, node := relative + [entry.name], entry.node;
    assert Walk(relative, [entry]) == WalkNode(path, node) by { assert [entry][1..] == []; }
    ok := true;
    if node.Directory? {
      KeptBelow(scope, path, node.children);
      if entry.name !in scope.excluded {
        ok := ScanDirectory(scope, path, node.children, files);
      }
    } else if node.Unreadable? {
      ok := entry.name in scope.excluded;
    } else if node.File? {
      KeptSingle(scope, |relative|, Entry(path, node.size, node.modified));
      if !scope.artifacts.Excludes(scope.root + path) {
        files.Push(ToRecord(Entry(path, node.size, node.modified)));
      }
    }
  }

  lemma NoRecords(scope: Scope, relative: Path)
    ensures KeptRecords(scope, relative, []) == []
  {
  }

  lemma RecordsSplit(scope: Scope, relative: Path, children: seq<Child>)
    requires children != []
    ensures KeptRecords(scope, relative, children)
         == KeptRecords(scope, relative, [children[0]]) + KeptRecords(scope, relative, children[1..])
  {
    hide ToRecords, Kept;
    var first, rest := WalkNode(relative + [children[0].name], children[0].node), Walk(relative, children[1..]);
    assert Walk(relative, [children[0]]) == first by { assert [children[0]][1..] == []; }
    KeptConcat(scope, |relative|, first, rest);
    ToRecordsConcat(Kept(scope, |relative|, first), Kept(scope, |relative|, rest));
  }

  /** `scan_with_artifacts`. */
  method Scan(scope: Scope, root: Node) returns (result: Option<seq<IndexedFile>>)
    ensures result == ScanResult(scope, root)
  {
    if !root.Directory? { return None; }
    var files := new FileList();
    var ok := ScanDirectory(scope, [], root.children, files);
    if !ok { return None; }
    files.SortByPath();
    assert [] + KeptRecords(scope, [], root.children) == KeptRecords(scope, [], root.children);
    result := Some(files.items);
  }

  /** What a scan yields: the kept files in path order; no result when something
      reachable cannot be read. */
  function ScanResult(scope: Scope, root: Node): Option<seq<IndexedFile>>
  {
    if !root.Directory? || ReachesUnreadable(scope.excluded, root.children) then None
    else Some(Sorted(ToRecords(Kept(scope, 0, Walk([], root.children)))))
  }

  // ---------------------------------------------------------------- lemmas for the scan

  lemma {:induction false} KeptConcat(scope: Scope, depth: nat, a: seq<Entry>, b: seq<Entry>)
    ensures Kept(scope, depth, a + b) == Kept(scope, depth, a) + Kept(scope, depth, b)
  {
    if a == [] {
      assert a + b == b;
    } else {
      KeptConcat(scope, depth, a[1..], b);
      assert (a + b)[1..] == a[1..] + b;
      hide Scope.Keeps;
      Associate([a[0]], Kept(scope, depth, a[1..]), Kept(scope, depth, b));
    }
  }

  lemma {:induction false} ToRecordsConcat(a: seq<Entry>, b: seq<Entry>)
    ensures ToRecords(a + b) == ToRecords(a) + ToRecords(b)
  {
    hide ToRecord;
    if a == [] {
      assert a + b == b;
    } else {
      ToRecordsConcat(a[1..], b);
      assert (a + b)[1..] == a[1..] + b;
      Associate([ToRecord(a[0])], ToRecords(a[1..]), ToRecords(b));
    }
  }

  lemma KeptSingle(scope: Scope, depth: nat, entry: Entry)
    requires |entry.path| == depth + 1
    ensures ToRecords(Kept(scope, depth, [entry]))
         == if scope.artifacts.Excludes(scope.root + entry.path) then [] else [ToRecord(entry)]
  {
    hide ToRecord;
  }

  ghost predicate Below(directory: Path, entries: seq<Entry>)
  {
    forall i :: 0 <= i < |entries| ==> |entries[i].path| > |directory| && directory <= entries[i].path
  }

  lemma {:induction false} WalkIsBelow(relative: Path, children: seq<Child>)
    ensures Below(relative, Walk(relative, children))
    decreases children
  {
    if children != [] {
      var path := relative + [children[0].name];
      if children[0].node.Directory? { WalkIsBelow(path, children[0].node.children); }
      WalkIsBelow(relative, children[1..]);
      assert relative <= path;
    }
  }

  /** Filtering below a directory one level up asks one more question: its own name. */
  lemma {:induction false} KeptOneLevelUp(scope: Scope, directory: Path, entries: seq<Entry>)
    requires directory != [] && Below(directory, entries)
    ensures Kept(scope, |directory| - 1, entries)
         == if FileName(directory) in scope.excluded then [] else Kept(scope, |directory|, entries)
  {
    if entries != [] {
      var path := entries[0].path;
      assert Below(directory, entries[1..]);
      KeptOneLevelUp(scope, directory, entries[1..]);
      assert path[|directory| - 1] == FileName(directory);
      assert scope.Keeps(path, |directory| - 1)
          <==> FileName(directory) !in scope.excluded && scope.Keeps(path, |directory|);
    }
  }

  lemma KeptBelow(scope: Scope, directory: Path, children: seq<Child>)
    requires directory != []
    ensures Kept(scope, |directory| - 1, Walk(directory, children))
         == if FileName(directory) in scope.excluded then [] else Kept(scope, |directory|, Walk(directory, children))
  {
    WalkIsBelow(directory, children);
    KeptOneLevelUp(scope, directory, Walk(directory, children));
  }

  // ---------------------------------------------------------------- stable sort

  function InsertInOrder(file: IndexedFile, sorted: seq<IndexedFile>): seq<IndexedFile>
  {
    if sorted == [] || Leq(file.path, sorted[0].path) then [file] + sorted
    else [sorted[0]] + InsertInOrder(file, sorted[1..])
  }

  /** Stable: a record goes before the equal ones that came after it. */
  function Sorted(files: seq<IndexedFile>): seq<IndexedFile>
  {
    if files == [] then [] else InsertInOrder(files[0], Sorted(files[1..]))
  }

  lemma {:induction false} InsertPermutes(file: IndexedFile, sorted: seq<IndexedFile>)
    ensures multiset(InsertInOrder(file, sorted)) == multiset{file} + multiset(sorted)
  {
    if sorted != [] {
      InsertPermutes(file, sorted[1..]);
      assert sorted == [sorted[0]] + sorted[1..];
    }
  }

  lemma {:induction false} InsertKeepsOrder(file: IndexedFile, sorted: seq<IndexedFile>)
    requires Ascending(sorted)
    ensures Ascending(InsertInOrder(file, sorted))
  {
    hide Leq;
    if sorted == [] {
    } else if Leq(file.path, sorted[0].path) {
      forall j | 0 <= j < |sorted| ensures Leq(file.path, sorted[j].path) {
        LeqReflexive(sorted[j].path);
        LeqTransitive(file.path, sorted[0].path, sorted[j].path);
      }
    } else {
      var head, rest := sorted[0], sorted[1..];
      assert sorted == [head] + rest;
      assert Ascending(rest);
      InsertKeepsOrder(file, rest);
      InsertPermutes(file, rest);
      LeqTotal(file.path, head.path);
      var inserted := InsertInOrder(file, rest);
      forall j | 0 <= j < |inserted| ensures Leq(head.path, inserted[j].path) {
        assert inserted[j] in multiset(inserted);
        if inserted[j] != file {
          assert inserted[j] in multiset(rest);
          assert inserted[j] in rest;
          var k :| 0 <= k < |rest| && rest[k] == inserted[j];
          assert sorted[k + 1] == rest[k];
        }
      }
    }
  }

  lemma {:induction false} SortedIsSorted(files: seq<IndexedFile>)
    ensures Ascending(Sorted(files))
    ensures multiset(Sorted(files)) == multiset(files)
  {
    if files != [] {
      SortedIsSorted(files[1..]);
      InsertKeepsOrder(files[0], Sorted(files[1..]));
      InsertPermutes(files[0], Sorted(files[1..]));
      assert files == [files[0]] + files[1..];
    }
  }

  lemma {:induction false} InsertSameMap(file: IndexedFile, sorted: seq<IndexedFile>)
    requires Ascending(sorted)
    ensures FilesByPath(InsertInOrder(file, sorted)) == FilesByPath([file] + sorted)
  {
    if sorted != [] && !Leq(file.path, sorted[0].path) {
      var head, rest := sorted[0], sorted[1..];
      assert sorted == [head] + rest;
      assert Ascending(rest);
      LeqReflexive(head.path);
      InsertSameMap(file, rest);
      FilesByPathCons(head, InsertInOrder(file, rest));
      FilesByPathCons(file, rest);
      FilesByPathCons(file, sorted);
      FilesByPathCons(head, rest);
      SwapDistinct(head, file, FilesByPath(rest));
    }
  }

  lemma SwapDistinct(a: IndexedFile, b: IndexedFile, m: FileMap)
    requires a.path != b.path
    ensures map[a.path := a] + (map[b.path := b] + m) == map[b.path := b] + (map[a.path := a] + m)
  {
  }

  /** Stability: after sorting, the last record of a path is still the one scanned last. */
  lemma {:induction false} SortedSameMap(files: seq<IndexedFile>)
    ensures FilesByPath(Sorted(files)) == FilesByPath(files)
  {
    if files != [] {
      var rest := files[1..];
      SortedSameMap(rest);
      SortedIsSorted(rest);
      InsertSameMap(files[0], Sorted(rest));
      FilesByPathCons(files[0], Sorted(rest));
      FilesByPathCons(files[0], rest);
      assert files == [files[0]] + rest;
    }
  }

  /** The scan result: ascending, and exactly the kept files, each as often as it occurs. */
  lemma ScanIsExact(scope: Scope, root: Node)
    requires ScanResult(scope, root).Some?
    ensures Ascending(ScanResult(scope, root).value)
    ensures multiset(ScanResult(scope, root).value) == multiset(ToRecords(Kept(scope, 0, Walk([], root.children))))
    ensures FilesByPath(ScanResult(scope, root).value) == FilesByPath(ToRecords(Kept(scope, 0, Walk([], root.children))))
  {
    var records := ToRecords(Kept(scope, 0, Walk([], root.children)));
    SortedIsSorted(records);
    SortedSameMap(records);
  }

  lemma {:induction false} KeptMembers(scope: Scope, depth: nat, entries: seq<Entry>, entry: Entry)
    ensures entry in Kept(scope, depth, entries) <==> entry in entries && scope.Keeps(entry.path, depth)
  {
    if entries != [] { KeptMembers(scope, depth, entries[1..], entry); }
  }

  lemma {:induction false} RecordsMembers(entries: seq<Entry>, file: IndexedFile)
    ensures file in ToRecords(entries) <==> exists entry :: entry in entries && file == ToRecord(entry)
  {
    hide ToRecord;
    if entries != [] {
      RecordsMembers(entries[1..], file);
      assert entries == [entries[0]] + entries[1..];
    }
  }

  /** A record is in the scan result exactly when it is that of a kept entry of the walk. */
  lemma ScanMembers(scope: Scope, root: Node, file: IndexedFile)
    requires ScanResult(scope, root).Some?
    ensures file in ScanResult(scope, root).value
       <==> exists entry :: entry in Walk([], root.children) && scope.Keeps(entry.path, 0) && file == ToRecord(entry)
  {
    hide ToRecord, Walk, Sorted;
    var entries := Walk([], root.children);
    var result := ScanResult(scope, root).value;
    ScanIsExact(scope, root);
    assert file in result <==> file in multiset(result);
    var kept := Kept(scope, 0, entries);
    assert file in ToRecords(kept) <==> file in multiset(ToRecords(kept));
    RecordsMembers(kept, file);
    if file in result {
      var entry :| entry in kept && file == ToRecord(entry);
      KeptMembers(scope, 0, entries, entry);
    }
    if entry :| entry in entries && scope.Keeps(entry.path, 0) && file == ToRecord(entry) {
      KeptMembers(scope, 0, entries, entry);
    }
  }

  // ---------------------------------------------------------------- the index's own files

  /** Creates or replaces a file at `path` below a directory. */
  function PutFile(children: seq<Child>, path: Path, file: Node): seq<Child>
    requires path != []
    decreases path, children
  {
    if children == [] then if |path| == 1 then [Child(path[0], file)] else []
    else if children[0].name == path[0] then
      if |path| == 1 then [Child(path[0], file)] + children[1..]
      else if children[0].node.Directory? then
        [Child(path[0], Directory(PutFile(children[0].node.children, path[1..], file)))] + children[1..]
      else children
    else [children[0]] + PutFile(children[1..], path, file)
  }

  /** Removes the file at `path`, if there is one. */
  function RemoveFile(children: seq<Child>, path: Path): seq<Child>
    requires path != []
    decreases path, children
  {
    if children == [] then []
    else if children[0].name == path[0] then
      if |path| == 1 then if children[0].node.File? then children[1..] else children
      else if children[0].node.Directory? then
        [Child(path[0], Directory(RemoveFile(children[0].node.children, path[1..])))] + children[1..]
      else children
    else [children[0]] + RemoveFile(children[1..], path)
  }

  /** Nothing but a file (or nothing) is at `path`. */
  predicate FreeForFile(children: seq<Child>, path: Path)
    requires path != []
    decreases path, children
  {
    if children == [] then true
    else if children[0].name == path[0] then
      if |path| == 1 then children[0].node.File?
      else children[0].node.Directory? ==> FreeForFile(children[0].node.children, path[1..])
    else FreeForFile(children[1..], path)
  }

  lemma KeptOfConcat(scope: Scope, depth: nat, path: Path, node: Node, rest: seq<Entry>)
    ensures Kept(scope, depth, WalkNode(path, node) + rest)
         == Kept(scope, depth, WalkNode(path, node)) + Kept(scope, depth, rest)
  {
    KeptConcat(scope, depth, WalkNode(path, node), rest);
  }

  /** Creating, rewriting or removing one of the index's own files changes nothing that is kept. */
  lemma {:induction false} PutArtifactKeepsScan(
      scope: Scope, depth: nat, relative: Path, children: seq<Child>, path: Path, file: Node)
    requires path != [] && file.File? && FreeForFile(children, path)
    requires scope.artifacts.Excludes(scope.root + (relative + path))
    ensures Kept(scope, depth, Walk(relative, PutFile(children, path, file))) == Kept(scope, depth, Walk(relative, children))
    decreases path, children
  {
    if children == [] {
      if |path| == 1 {
        assert path == [path[0]];
        assert PutFile(children, path, file)[1..] == [];
        assert Walk(relative, PutFile(children, path, file)) == [Entry(relative + path, file.size, file.modified)];
      }
    } else {
      var head, tail := children[0], children[1..];
      var here := relative + [head.name];
      KeptOfConcat(scope, depth, here, head.node, Walk(relative, tail));
      if head.name == path[0] {
        if |path| == 1 {
          assert path == [path[0]];
          var put := [Child(path[0], file)] + tail;
          assert put[1..] == tail;
          KeptOfConcat(scope, depth, here, file, Walk(relative, tail));
        } else if head.node.Directory? {
          assert here + path[1..] == relative + path;
          PutArtifactKeepsScan(scope, depth, here, head.node.children, path[1..], file);
          var edited := Directory(PutFile(head.node.children, path[1..], file));
          assert ([Child(path[0], edited)] + tail)[1..] == tail;
          KeptOfConcat(scope, depth, here, edited, Walk(relative, tail));
        }
      } else {
        PutArtifactKeepsScan(scope, depth, relative, tail, path, file);
        var edited := PutFile(tail, path, file);
        assert ([head] + edited)[1..] == edited;
        KeptOfConcat(scope, depth, here, head.node, Walk(relative, edited));
      }
    }
  }

  lemma {:induction false} RemoveArtifactKeepsScan(
      scope: Scope, depth: nat, relative: Path, children: seq<Child>, path: Path)
    requires path != []
    requires scope.artifacts.Excludes(scope.root + (relative + path))
    ensures Kept(scope, depth, Walk(relative, RemoveFile(children, path))) == Kept(scope, depth, Walk(relative, children))
    decreases path, children
  {
    if children != [] {
      var head, tail := children[0], children[1..];
      var here := relative + [head.name];
      KeptOfConcat(scope, depth, here, head.node, Walk(relative, tail));
      if head.name == path[0] {
        if |path| == 1 {
          assert path == [path[0]];
        } else if head.node.Directory? {
          assert here + path[1..] == relative + path;
          RemoveArtifactKeepsScan(scope, depth, here, head.node.children, path[1..]);
          var edited := Directory(RemoveFile(head.node.children, path[1..]));
          assert ([Child(path[0], edited)] + tail)[1..] == tail;
          KeptOfConcat(scope, depth, here, edited, Walk(relative, tail));
        }
      } else {
        RemoveArtifactKeepsScan(scope, depth, relative, tail, path);
        var edited := RemoveFile(tail, path);
        assert ([head] + edited)[1..] == edited;
        KeptOfConcat(scope, depth, here, head.node, Walk(relative, edited));
      }
    }
  }

  lemma {:induction false} EditsKeepReadability(excluded: set<string>, children: seq<Child>, path: Path, file: Node)
    requires path != [] && file.File? && FreeForFile(children, path)
    ensures ReachesUnreadable(excluded, PutFile(children, path, file)) <==> ReachesUnreadable(excluded, children)
    ensures ReachesUnreadable(excluded, RemoveFile(children, path)) <==> ReachesUnreadable(excluded, children)
    decreases path, children
  {
    if children == [] {
      assert PutFile(children, path, file) != [] ==> PutFile(children, path, file)[1..] == [];
    } else {
      var head, tail := children[0], children[1..];
      if head.name == path[0] {
        if |path| > 1 && head.node.Directory? {
          EditsKeepReadability(excluded, head.node.children, path[1..], file);
        }
      } else {
        EditsKeepReadability(excluded, tail, path, file);
      }
    }
  }

  /** A scan does not notice the index, its lock, or any temporary appearing,
      changing or disappearing inside the scanned root. */
  lemma ArtifactsAreInvisible(scope: Scope, root: Node, path: Path, file: Node)
    requires root.Directory? && path != [] && file.File? && FreeForFile(root.children, path)
    requires scope.artifacts.Excludes(scope.root + path)
    ensures ScanResult(scope, Directory(PutFile(root.children, path, file))) == ScanResult(scope, root)
    ensures ScanResult(scope, Directory(RemoveFile(root.children, path))) == ScanResult(scope, root)
  {
    assert [] + path == path;
    PutArtifactKeepsScan(scope, 0, [], root.children, path, file);
    RemoveArtifactKeepsScan(scope, 0, [], root.children, path);
    EditsKeepReadability(scope.excluded, root.children, path, file);
  }

  /** Every name the program itself creates next to an artifact is excluded. */
  lemma OwnNamesAreExcluded(artifacts: Artifacts, state: Path, pid: nat, timestamp: nat, id: nat)
    requires artifacts.Valid() && state in artifacts.runtime
    ensures artifacts.Excludes(artifacts.index)
    ensures artifacts.Excludes(AdjacentLockPath(artifacts.index))
    ensures artifacts.Excludes(TemporaryIndexPath(artifacts.index, pid, id))
    ensures artifacts.Excludes(state)
    ensures state != [] && artifacts.Excludes(TemporaryStatePath(state, pid, timestamp, id))
  {
  }
}
