/** What a scan finds, said about the tree itself (crates/indexer/src/scanner.rs, 94-143): which
    component paths lead to a record, with which metadata, and when the scan fails. */
module ScanTree {
  import opened Text
  import opened PathId
  import opened Records
  import opened Metadata
  import opened Scanner

  /** Following the components leads to the node. */
  predicate LeadsTo(children: seq<Child>, path: Path, node: Node)
    decreases |path|, |children|
  {
    path != [] && children != []
    && ((children[0].name == path[0]
         && if |path| == 1 then children[0].node == node
            else children[0].node.Directory? && LeadsTo(children[0].node.children, path[1..], node))
        || LeadsTo(children[1..], path, node))
  }

  /** A regular file at a component path, below no excluded directory, not one of the
      program's own files, and the record that stands for it. */
  ghost predicate StandsFor(scope: Scope, children: seq<Child>, path: Path, file: IndexedFile)
  {
    LeadsTo(children, path, File(file.size, file.modified))
    && (forall i :: 0 <= i < |path| - 1 ==> path[i] !in scope.excluded)
    && !scope.artifacts.Excludes(scope.root + path)
    && IsNormalized(file.path) && Segments(file.path) == Segments(Join(path, '/'))
  }

  /** A component path below a directory that was reached by another one. */
  predicate Extends(relative: Path, path: Path)
  {
    |relative| < |path| && path[..|relative|] == relative
  }

  // ---------------------------------------------------------------- the walk is the tree

  lemma {:induction false} WalkIsTree(relative: Path, children: seq<Child>, entry: Entry)
    ensures entry in Walk(relative, children)
       <==> Extends(relative, entry.path) && LeadsTo(children, entry.path[|relative|..], File(entry.size, entry.modified))
    decreases children
  {
    if children != [] {
      WalkIsTree(relative, children[1..], entry);
      NodeIsTree(relative, children[0], entry);
    }
  }

  lemma {:induction false} NodeIsTree(relative: Path, child: Child, entry: Entry)
    ensures entry in WalkNode(relative + [child.name], child.node)
       <==> Extends(relative, entry.path) && entry.path[|relative|] == child.name
            && (if |entry.path| == |relative| + 1 then child.node == File(entry.size, entry.modified)
                else child.node.Directory?
                     && LeadsTo(child.node.children, entry.path[|relative| + 1..], File(entry.size, entry.modified)))
    decreases child
  {
    var below := relative + [child.name];
    if child.node.Directory? {
      WalkIsTree(below, child.node.children, entry);
      if Extends(below, entry.path) { assert entry.path[..|below|][..|relative|] == relative; assert entry.path[..|below|][|relative|] == child.name; }
      if Extends(relative, entry.path) && entry.path[|relative|] == child.name {
        assert entry.path[..|below|] == below;
      }
    } else if child.node.File? {
      if Extends(relative, entry.path) && entry.path[|relative|] == child.name && |entry.path| == |relative| + 1 {
        assert entry.path == below;
      }
    }
  }

  lemma RootWalkIsTree(children: seq<Child>, entry: Entry)
    ensures entry in Walk([], children) <==> LeadsTo(children, entry.path, File(entry.size, entry.modified))
  {
    WalkIsTree([], children, entry);
    assert entry.path[..0] == [] && entry.path[0..] == entry.path;
  }

  lemma RecordOfEntry(entry: Entry, file: IndexedFile)
    ensures file == ToRecord(entry)
       <==> file.size == entry.size && file.modified == entry.modified && IsNormalized(file.path)
            && Segments(file.path) == Segments(Join(entry.path, '/'))
  {
    var joined := Join(entry.path, '/');
    FromUserPathJoinsSegments(joined);
    SegmentsOfJoin(Segments(joined));
    NormalizedIsFixed(file.path);
    SameKeyIffSameSegments(file.path, joined);
  }

  /** A record is returned exactly when a kept component path of the tree leads to a regular
      file with the record's size and modification time, and the record's path has the
      segments of the joined components. */
  lemma ScanContains(scope: Scope, root: Node, file: IndexedFile)
    requires ScanResult(scope, root).Some?
    ensures file in ScanResult(scope, root).value <==> exists path :: StandsFor(scope, root.children, path, file)
  {
    assert root.Directory?;
    ScanMembers(scope, root, file);
    hide ScanResult, Walk, ToRecord, LeadsTo, IsNormalized, Segments, Join;
    if file in ScanResult(scope, root).value {
      var entry :| entry in Walk([], root.children) && scope.Keeps(entry.path, 0) && file == ToRecord(entry);
      RootWalkIsTree(root.children, entry);
      RecordOfEntry(entry, file);
      assert StandsFor(scope, root.children, entry.path, file);
    }
    if path :| StandsFor(scope, root.children, path, file) {
      var entry := Entry(path, file.size, file.modified);
      RootWalkIsTree(root.children, entry);
      RecordOfEntry(entry, file);
    }
  }

  // ---------------------------------------------------------------- failure

  lemma {:induction false} UnreadableIsTree(excluded: set<string>, children: seq<Child>) returns (path: Path)
    ensures ReachesUnreadable(excluded, children)
            ==> LeadsTo(children, path, Unreadable) && forall i :: 0 <= i < |path| ==> path[i] !in excluded
    decreases children
  {
    path := [];
    if ReachesUnreadable(excluded, children) {
      var child := children[0];
      if NodeReachesUnreadable(excluded, child.name, child.node) {
        if child.node.Directory? {
          var below := UnreadableIsTree(excluded, child.node.children);
          path := [child.name] + below;
          assert path[1..] == below;
        } else {
          path := [child.name];
        }
      } else {
        path := UnreadableIsTree(excluded, children[1..]);
      }
    }
  }

  lemma {:induction false} TreeIsUnreadable(excluded: set<string>, children: seq<Child>, path: Path)
    requires LeadsTo(children, path, Unreadable) && forall i :: 0 <= i < |path| ==> path[i] !in excluded
    ensures ReachesUnreadable(excluded, children)
    decreases |path|, |children|
  {
    var child := children[0];
    if child.name == path[0] && |path| > 1 && child.node.Directory? && LeadsTo(child.node.children, path[1..], Unreadable) {
      TreeIsUnreadable(excluded, child.node.children, path[1..]);
    } else if LeadsTo(children[1..], path, Unreadable) {
      TreeIsUnreadable(excluded, children[1..], path);
    }
  }

  /** The scan fails exactly when the root is no readable directory, or a component path
      without excluded names leads to a directory that cannot be read. */
  lemma ScanFailsIff(scope: Scope, root: Node)
    ensures ScanResult(scope, root).None?
       <==> !root.Directory?
            || exists path :: LeadsTo(root.children, path, Unreadable) && forall i :: 0 <= i < |path| ==> path[i] !in scope.excluded
  {
    if root.Directory? {
      var path := UnreadableIsTree(scope.excluded, root.children);
      if path' :| LeadsTo(root.children, path', Unreadable) && forall i :: 0 <= i < |path'| ==> path'[i] !in scope.excluded {
        TreeIsUnreadable(scope.excluded, root.children, path');
      }
    }
  }

  // ---------------------------------------------------------------- one record per file

  /** No directory lists a name twice. */
  predicate UniqueNames(children: seq<Child>)
    decreases children
  {
    children == []
    || ((forall i :: 0 < i < |children| ==> children[i].name != children[0].name)
        && (children[0].node.Directory? ==> UniqueNames(children[0].node.children)) && UniqueNames(children[1..]))
  }

  predicate DistinctEntries(entries: seq<Entry>)
  {
    forall i, j :: 0 <= i < j < |entries| ==> entries[i].path != entries[j].path
  }

  lemma {:induction false} LeadsToName(children: seq<Child>, path: Path, node: Node)
    requires LeadsTo(children, path, node)
    ensures exists i :: 0 <= i < |children| && children[i].name == path[0]
    decreases children
  {
    if LeadsTo(children[1..], path, node) {
      LeadsToName(children[1..], path, node);
      var i :| 0 <= i < |children[1..]| && children[1..][i].name == path[0];
      assert children[i + 1].name == path[0];
    }
  }

  lemma {:induction false} WalkIsDistinct(relative: Path, children: seq<Child>)
    requires UniqueNames(children)
    ensures DistinctEntries(Walk(relative, children))
    decreases children
  {
    if children != [] {
      var child := children[0];
      var first, rest := WalkNode(relative + [child.name], child.node), Walk(relative, children[1..]);
      if child.node.Directory? { WalkIsDistinct(relative + [child.name], child.node.children); }
      WalkIsDistinct(relative, children[1..]);
      forall i, j | 0 <= i < |first| && 0 <= j < |rest| ensures first[i].path != rest[j].path {
        assert first[i] in first && rest[j] in rest;
        NodeIsTree(relative, child, first[i]);
        WalkIsTree(relative, children[1..], rest[j]);
        var entry := rest[j];
        LeadsToName(children[1..], entry.path[|relative|..], File(entry.size, entry.modified));
        var k :| 0 <= k < |children[1..]| && children[1..][k].name == entry.path[|relative|..][0];
        assert children[k + 1].name != child.name;
      }
    }
  }

  lemma {:induction false} KeptIsDistinct(scope: Scope, depth: nat, entries: seq<Entry>)
    requires DistinctEntries(entries)
    ensures DistinctEntries(Kept(scope, depth, entries))
  {
    hide Scope.Keeps;
    if entries != [] {
      assert forall i :: 0 <= i < |entries[1..]| ==> entries[1..][i] == entries[i + 1];
      KeptIsDistinct(scope, depth, entries[1..]);
      var rest := Kept(scope, depth, entries[1..]);
      forall i | 0 <= i < |rest| ensures rest[i].path != entries[0].path {
        KeptMembers(scope, depth, entries[1..], rest[i]);
        assert rest[i] in rest;
        var k :| 0 <= k < |entries[1..]| && entries[1..][k] == rest[i];
        assert entries[k + 1] == rest[i];
      }
    }
  }

  lemma {:induction false} RecordsAlign(entries: seq<Entry>)
    ensures |ToRecords(entries)| == |entries| && forall i :: 0 <= i < |entries| ==> ToRecords(entries)[i] == ToRecord(entries[i])
  {
    hide ToRecord;
    if entries != [] { RecordsAlign(entries[1..]); }
  }

  /** Records and component paths side by side: every kept file once, and nothing else. */
  ghost predicate OneEach(scope: Scope, children: seq<Child>, records: seq<IndexedFile>, paths: seq<Path>)
  {
    |paths| == |records|
    && (forall i, j :: 0 <= i < j < |paths| ==> paths[i] != paths[j])
    && (forall i :: 0 <= i < |paths| ==> StandsFor(scope, children, paths[i], records[i]))
    && (forall path, file :: StandsFor(scope, children, path, file) ==> path in paths)
  }

  lemma KeptStands(scope: Scope, children: seq<Child>, entry: Entry, record: IndexedFile)
    requires record == ToRecord(entry)
    ensures entry in Kept(scope, 0, Walk([], children)) ==> StandsFor(scope, children, entry.path, record)
  {
    KeptMembers(scope, 0, Walk([], children), entry);
    RootWalkIsTree(children, entry);
    RecordOfEntry(entry, record);
    hide Walk, ToRecord, Kept, LeadsTo, IsNormalized, Segments, Join;
  }

  lemma StandsIsKept(scope: Scope, children: seq<Child>, path: Path, file: IndexedFile)
    requires StandsFor(scope, children, path, file)
    ensures Entry(path, file.size, file.modified) in Kept(scope, 0, Walk([], children))
  {
    var entry := Entry(path, file.size, file.modified);
    RootWalkIsTree(children, entry);
    KeptMembers(scope, 0, Walk([], children), entry);
    hide Walk, Kept, LeadsTo, IsNormalized, Segments, Join;
  }

  function PathsOf(entries: seq<Entry>): seq<Path>
  {
    seq(|entries|, i requires 0 <= i < |entries| => entries[i].path)
  }

  lemma EachStands(scope: Scope, children: seq<Child>, kept: seq<Entry>)
    requires kept == Kept(scope, 0, Walk([], children))
    ensures |ToRecords(kept)| == |kept|
    ensures forall i :: 0 <= i < |kept| ==> StandsFor(scope, children, PathsOf(kept)[i], ToRecords(kept)[i])
  {
    hide Walk, ToRecord, ToRecords, Kept, StandsFor;
    RecordsAlign(kept);
    forall i | 0 <= i < |kept| ensures StandsFor(scope, children, PathsOf(kept)[i], ToRecords(kept)[i]) {
      KeptStands(scope, children, kept[i], ToRecords(kept)[i]);
    }
  }

  lemma KeptIsOneEach(scope: Scope, children: seq<Child>)
    requires UniqueNames(children)
    ensures var kept := Kept(scope, 0, Walk([], children)); OneEach(scope, children, ToRecords(kept), PathsOf(kept))
  {
    hide Walk, ToRecord, ToRecords, Kept, StandsFor, UniqueNames;
    var kept := Kept(scope, 0, Walk([], children));
    WalkIsDistinct([], children);
    KeptIsDistinct(scope, 0, Walk([], children));
    EachStands(scope, children, kept);
    forall path, file | StandsFor(scope, children, path, file) ensures path in PathsOf(kept) {
      StandsIsKept(scope, children, path, file);
      PathIsListed(kept, Entry(path, file.size, file.modified));
    }
  }

  lemma PathIsListed(entries: seq<Entry>, entry: Entry)
    requires entry in entries
    ensures entry.path in PathsOf(entries)
  {
    var i :| 0 <= i < |entries| && entries[i] == entry;
    assert PathsOf(entries)[i] == entry.path;
  }

  /** The result is, up to order, one record for each kept file of the tree. */
  lemma ScanIsOneEach(scope: Scope, root: Node)
    requires ScanResult(scope, root).Some? && UniqueNames(root.children)
    ensures exists records, paths :: multiset(records) == multiset(ScanResult(scope, root).value)
              && OneEach(scope, root.children, records, paths)
  {
    ScanIsExact(scope, root);
    assert root.Directory?;
    KeptIsOneEach(scope, root.children);
  }

  // ---------------------------------------------------------------- edits of the tree

  lemma OtherNamesOnly(children: seq<Child>, path: Path, node: Node)
    requires UniqueNames(children) && children != [] && path != [] && children[0].name == path[0]
    ensures !LeadsTo(children[1..], path, node)
  {
    forall i | 0 <= i < |children[1..]| ensures children[1..][i].name != path[0] { assert children[1..][i] == children[i + 1]; }
    if LeadsTo(children[1..], path, node) { LeadsToName(children[1..], path, node); }
  }

  /** Putting a file leaves every other file what and where it was. */
  lemma {:induction false} PutLeavesOthers(children: seq<Child>, path: Path, file: Node, other: Path, size: U64, modified: U64)
    requires path != [] && other != path && file.File? && FreeForFile(children, path) && UniqueNames(children)
    ensures LeadsTo(PutFile(children, path, file), other, File(size, modified)) <==> LeadsTo(children, other, File(size, modified))
    decreases path, children
  {
    if children != [] {
      var head, put := children[0], PutFile(children, path, file);
      if head.name != path[0] {
        assert put[1..] == PutFile(children[1..], path, file);
        PutLeavesOthers(children[1..], path, file, other, size, modified);
      } else if |path| == 1 || head.node.Directory? {
        assert put[1..] == children[1..];
        if |path| > 1 && |other| > 1 && other[0] == path[0] {
          assert other == [other[0]] + other[1..] && path == [path[0]] + path[1..];
          PutLeavesOthers(head.node.children, path[1..], file, other[1..], size, modified);
        } else if |path| == 1 && |other| == 1 {
          assert other[0] != path[0];
        }
      }
    } else if |path| == 1 && |other| == 1 {
      assert other[0] != path[0];
    }
  }

  /** And where its directory is there, the file is what its path leads to. */
  lemma {:induction false} PutArrives(children: seq<Child>, path: Path, file: Node, below: seq<Child>, size: U64, modified: U64)
    requires path != [] && file.File? && FreeForFile(children, path) && UniqueNames(children)
    requires |path| == 1 || LeadsTo(children, path[..|path| - 1], Directory(below))
    ensures LeadsTo(PutFile(children, path, file), path, File(size, modified)) <==> file == File(size, modified)
    decreases path, children
  {
    if children != [] {
      var head, put := children[0], PutFile(children, path, file);
      if head.name != path[0] {
        assert put[1..] == PutFile(children[1..], path, file);
        PutArrives(children[1..], path, file, below, size, modified);
      } else {
        OtherNamesOnly(children, path, File(size, modified));
        if |path| > 1 {
          var directory := path[..|path| - 1];
          OtherNamesOnly(children, directory, Directory(below));
          assert directory[1..] == path[1..][..|path| - 2];
          PutArrives(head.node.children, path[1..], file, below, size, modified);
        }
        assert put[1..] == children[1..];
      }
    }
  }

  /** Removing a file removes it, and leaves every other file what and where it was. */
  lemma {:induction false} RemoveIs(children: seq<Child>, path: Path, other: Path, size: U64, modified: U64)
    requires path != [] && UniqueNames(children)
    ensures LeadsTo(RemoveFile(children, path), other, File(size, modified))
       <==> other != path && LeadsTo(children, other, File(size, modified))
    decreases path, children
  {
    if children != [] {
      var head, left := children[0], RemoveFile(children, path);
      if head.name != path[0] {
        assert left[1..] == RemoveFile(children[1..], path);
        RemoveIs(children[1..], path, other, size, modified);
      } else {
        OtherNamesOnly(children, path, File(size, modified));
        if |path| > 1 && head.node.Directory? {
          assert left[1..] == children[1..];
          if |other| > 1 && other[0] == path[0] {
            assert other == [other[0]] + other[1..] && path == [path[0]] + path[1..];
            RemoveIs(head.node.children, path[1..], other[1..], size, modified);
          }
        } else if |other| == 1 {
          assert other[0] == path[0] && |path| == 1 ==> other == path;
        }
      }
    }
  }

  // ---------------------------------------------------------------- names

  /** What the artifact set hides, name by name: the index, its lock, each runtime file, and
      in their directories the names that start like their temporaries. Nothing else. */
  lemma ExcludesIff(artifacts: Artifacts, directory: Path, name: string)
    requires artifacts.Valid()
    ensures artifacts.Excludes(directory + [name])
       <==> (directory == artifacts.index[..|artifacts.index| - 1]
             && (name == artifacts.index[|artifacts.index| - 1] || name == artifacts.index[|artifacts.index| - 1] + ".lock"
                 || "." + artifacts.index[|artifacts.index| - 1] + ".aifs-tmp-" <= name))
            || (exists runtime :: runtime in artifacts.runtime && directory == runtime[..|runtime| - 1]
                  && (name == runtime[|runtime| - 1] || "." + runtime[|runtime| - 1] + ".aifs-tmp-" <= name))
    ensures !artifacts.Excludes([])
  {
    var path := directory + [name];
    assert Parent(path) == directory && FileName(path) == name;
    PathIsParts(artifacts.index, directory, name);
    PathIsParts(AdjacentLockPath(artifacts.index), directory, name);
    forall runtime | runtime in artifacts.runtime
      ensures path == runtime <==> directory == Parent(runtime) && name == FileName(runtime)
    {
      PathIsParts(runtime, directory, name);
    }
  }

  lemma PathIsParts(path: Path, directory: Path, name: string)
    requires path != []
    ensures directory + [name] == path <==> directory == path[..|path| - 1] && name == path[|path| - 1]
  {
    assert path == path[..|path| - 1] + [path[|path| - 1]];
    assert (directory + [name])[..|directory|] == directory;
  }

  lemma {:induction false} ShownDiffer(a: nat, b: nat)
    ensures ShowNumber(a) == ShowNumber(b) ==> a == b
  {
    DigitsOfShown(a);
    DigitsOfShown(b);
  }

  /** Another process or another counter value means another temporary name. */
  lemma TemporaryNamesDiffer(index: Path, pid: nat, id: nat, pid': nat, id': nat)
    requires index != [] && TemporaryIndexPath(index, pid, id) == TemporaryIndexPath(index, pid', id')
    ensures pid == pid' && id == id'
  {
    hide ShowNumber;
    IndexNameIs(index, pid, id);
    IndexNameIs(index, pid', id');
    MiddlesAgree(PublicationPrefix(index), ShowNumber(pid) + ['-'] + ShowNumber(id), ShowNumber(pid') + ['-'] + ShowNumber(id'), "");
    FirstAgrees(ShowNumber(pid), ShowNumber(id), ShowNumber(pid'), ShowNumber(id'));
    ShownDiffer(pid, pid');
    ShownDiffer(id, id');
  }

  lemma IndexNameIs(index: Path, pid: nat, id: nat)
    requires index != []
    ensures FileName(TemporaryIndexPath(index, pid, id)) == PublicationPrefix(index) + (ShowNumber(pid) + ['-'] + ShowNumber(id)) + ""
  {
    hide ShowNumber;
  }

  function StateSuffix(pid: nat, timestamp: nat, sequence: nat): string
  {
    ShowNumber(pid) + ['-'] + (ShowNumber(timestamp) + ['-'] + ShowNumber(sequence))
  }

  lemma StateNameIs(state: Path, pid: nat, timestamp: nat, sequence: nat)
    requires state != []
    ensures FileName(TemporaryStatePath(state, pid, timestamp, sequence))
         == PublicationPrefix(state) + StateSuffix(pid, timestamp, sequence) + ".tmp"
  {
    hide ShowNumber;
  }

  /** So it is for state files, where one of the 32 attempts differs from the next by its
      sequence number. */
  lemma StateNamesDiffer(
      state: Path, pid: nat, timestamp: nat, sequence: nat, pid': nat, timestamp': nat, sequence': nat)
    requires state != []
    requires TemporaryStatePath(state, pid, timestamp, sequence) == TemporaryStatePath(state, pid', timestamp', sequence')
    ensures pid == pid' && timestamp == timestamp' && sequence == sequence'
  {
    hide ShowNumber, PublicationPrefix, TemporaryStatePath;
    StateNameIs(state, pid, timestamp, sequence);
    StateNameIs(state, pid', timestamp', sequence');
    MiddlesAgree(PublicationPrefix(state), StateSuffix(pid, timestamp, sequence), StateSuffix(pid', timestamp', sequence'), ".tmp");
    FirstAgrees(ShowNumber(pid), ShowNumber(timestamp) + ['-'] + ShowNumber(sequence),
                ShowNumber(pid'), ShowNumber(timestamp') + ['-'] + ShowNumber(sequence'));
    FirstAgrees(ShowNumber(timestamp), ShowNumber(sequence), ShowNumber(timestamp'), ShowNumber(sequence'));
    ShownDiffer(pid, pid');
    ShownDiffer(timestamp, timestamp');
    ShownDiffer(sequence, sequence');
  }

  lemma MiddlesAgree(prefix: string, a: string, b: string, suffix: string)
    requires prefix + a + suffix == prefix + b + suffix
    ensures a == b
  {
    assert |a| == |b|;
    assert (prefix + a + suffix)[|prefix|..|prefix| + |a|] == a;
    assert (prefix + b + suffix)[|prefix|..|prefix| + |b|] == b;
  }

  /** What stands before the first dash, and what behind it. */
  lemma FirstAgrees(a: string, rest: string, b: string, rest': string)
    requires AreDigits(a) && AreDigits(b) && a + ['-'] + rest == b + ['-'] + rest'
    ensures a == b && rest == rest'
  {
    NoDash(a);
    NoDash(b);
    hide IndexOf;
    IndexOfPrefix(a, '-', rest);
    IndexOfPrefix(b, '-', rest');
    assert (a + ['-'] + rest)[..|a|] == a && (b + ['-'] + rest')[..|b|] == b;
    assert (a + ['-'] + rest)[|a| + 1..] == rest && (b + ['-'] + rest')[|b| + 1..] == rest';
  }

  lemma NoDash(digits: string)
    requires AreDigits(digits)
    ensures '-' !in digits
  {
    forall i | 0 <= i < |digits| ensures digits[i] != '-' { assert IsDigit(digits[i]); }
  }
}
