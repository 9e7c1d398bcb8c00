/** crates/indexer/src/comparison.rs and `RefreshSummary::compare` in store.rs:
    the two-iterator merge refines the comparison of two maps. */
module Comparison {
  import opened Text
  import opened Records

  datatype RefreshSummary = RefreshSummary(added: nat, updated: nat, removed: nat, same: nat)
  {
    predicate HasChanges()
    {
      added != 0 || updated != 0 || removed != 0
    }

    function Plus(other: RefreshSummary): RefreshSummary
    {
      RefreshSummary(added + other.added, updated + other.updated,
                     removed + other.removed, same + other.same)
    }
  }

  predicate SameFileMetadata(left: IndexedFile, right: IndexedFile)
  {
    left.size == right.size && left.modified == right.modified
  }

  // ---------------------------------------------------------------- reference

  function UpdatedPaths(before: FileMap, after: FileMap): set<string>
  {
    set path | path in before && path in after && !SameFileMetadata(before[path], after[path])
  }

  function UnchangedPaths(before: FileMap, after: FileMap): set<string>
  {
    set path | path in before && path in after && SameFileMetadata(before[path], after[path])
  }

  function Missing(before: FileMap, after: FileMap): nat
  {
    |before.Keys - after.Keys|
  }

  function Updated(before: FileMap, after: FileMap): nat
  {
    |UpdatedPaths(before, after)|
  }

  function Same(before: FileMap, after: FileMap): nat
  {
    |UnchangedPaths(before, after)|
  }

  /** The difference of two snapshots, as four counts of paths. */
  function Difference(before: FileMap, after: FileMap): RefreshSummary
  {
    RefreshSummary(Missing(after, before), Updated(before, after), Missing(before, after), Same(before, after))
  }

  // ---------------------------------------------------------- RefreshSummary::compare

  method Compare(oldFiles: seq<IndexedFile>, newFiles: seq<IndexedFile>) returns (summary: RefreshSummary)
    ensures summary == Difference(FilesByPath(oldFiles), FilesByPath(newFiles))
  {
    var before, after := FilesByPath(oldFiles), FilesByPath(newFiles);
    ghost var additions, updates, sames := after.Keys - before.Keys, UpdatedPaths(before, after), UnchangedPaths(before, after);
    summary := RefreshSummary(0, 0, 0, 0);
    var pending := after.Keys;
    WholeIntersection(pending, additions);
    WholeIntersection(pending, updates);
    WholeIntersection(pending, sames);
    while pending != {}
      invariant pending <= after.Keys
      invariant summary.added + |additions * pending| == |additions|
      invariant summary.updated + |updates * pending| == |updates|
      invariant summary.same + |sames * pending| == |sames|
      invariant summary.removed == 0
      decreases |pending|
    {
      var path :| path in pending;
      TakeOut(pending, path, additions);
      TakeOut(pending, path, updates);
      TakeOut(pending, path, sames);
      if path in before && SameFileMetadata(before[path], after[path]) {
        summary := summary.(same := summary.same + 1);
      } else if path in before {
        summary := summary.(updated := summary.updated + 1);
      } else {
        summary := summary.(added := summary.added + 1);
      }
      pending := pending - {path};
    }
    var removed := CountMissing(before.Keys, after.Keys);
    summary := summary.(removed := removed);
  }

  method CountMissing(paths: set<string>, others: set<string>) returns (count: nat)
    ensures count == |paths - others|
  {
    count := 0;
    var pending := paths;
    ghost var missing := paths - others;
    WholeIntersection(pending, missing);
    while pending != {}
      invariant pending <= paths
      invariant count + |missing * pending| == |missing|
      decreases |pending|
    {
      var path :| path in pending;
      TakeOut(pending, path, missing);
      if path !in others { count := count + 1; }
      pending := pending - {path};
    }
  }

  lemma WholeIntersection(whole: set<string>, part: set<string>)
    requires part <= whole
    ensures part * whole == part
  {
  }

  lemma TakeOut(pending: set<string>, path: string, part: set<string>)
    requires path in pending
    ensures |part * pending| == |part * (pending - {path})| + if path in part then 1 else 0
  {
    assert part * (pending - {path}) == (part * pending) - {path};
  }

  // ------------------------------------------------- RefreshSummary::compare_ordered

  /** A peekable record iterator. `position` counts the elements handed out. */
  class Peekable {
    const items: seq<IndexedFile>
    var position: nat

    constructor (items: seq<IndexedFile>)
      ensures this.items == items && position == 0
    {
      this.items := items;
      position := 0;
    }

    ghost predicate Valid()
      reads this
    {
      position <= |items|
    }

    ghost function Rest(): seq<IndexedFile>
      requires Valid()
      reads this
    {
      items[position..]
    }

    method Next() returns (item: Option<IndexedFile>)
      requires Valid()
      modifies this
      ensures Valid()
      ensures old(Rest()) == [] ==> item == None && position == old(position)
      ensures old(Rest()) != [] ==> item == Some(items[old(position)]) && position == old(position) + 1
    {
      if position == |items| { return None; }
      item := Some(items[position]);
      position := position + 1;
    }

    method Peek() returns (item: Option<IndexedFile>)
      requires Valid()
      ensures item == if Rest() == [] then None else Some(Rest()[0])
    {
      item := if position == |items| then None else Some(items[position]);
    }
  }

  /** Keeps the last record of every run of equal adjacent paths. */
  function LastOfRuns(files: seq<IndexedFile>): seq<IndexedFile>
  {
    if |files| == 0 then []
    else if |files| >= 2 && files[0].path == files[1].path then LastOfRuns(files[1..])
    else [files[0]] + LastOfRuns(files[1..])
  }

  function Pending(current: Option<IndexedFile>, rest: seq<IndexedFile>): seq<IndexedFile>
  {
    match current
    case None => []
    case Some(file) => [file] + LastOfRuns(rest)
  }

  ghost function DifferenceOf(a: seq<IndexedFile>, b: seq<IndexedFile>): RefreshSummary
  {
    Difference(FilesByPath(a), FilesByPath(b))
  }

  method NextLastRecord(files: Peekable) returns (record: Option<IndexedFile>)
    requires files.Valid()
    modifies files
    ensures files.Valid() && files.position >= old(files.position)
    ensures Pending(record, files.Rest()) == LastOfRuns(old(files.Rest()))
    ensures record == None ==> files.position == |files.items|
  {
    var first := files.Next();
    if first.None? { return None; }
    var last := first.value;
    assert old(files.Rest()) == [last] + files.Rest();
    var next := files.Peek();
    while next.Some? && next.value.path == last.path
      invariant files.Valid() && files.position >= old(files.position)
      invariant next == if files.Rest() == [] then None else Some(files.Rest()[0])
      invariant LastOfRuns(old(files.Rest())) == LastOfRuns([last] + files.Rest())
      decreases |files.items| - files.position
    {
      ghost var before := files.Rest();
      var item := files.Next();
      assert before == [item.value] + files.Rest();
      assert ([last] + before)[1..] == before;
      last := item.value;
      next := files.Peek();
    }
    record := Some(last);
    assert ([last] + files.Rest())[1..] == files.Rest();
    assert files.Rest() != [] ==> ([last] + files.Rest())[1] == files.Rest()[0];
  }

  method CompareOrdered(oldFiles: Peekable, newFiles: Peekable) returns (summary: RefreshSummary)
    requires oldFiles != newFiles
    requires oldFiles.position == 0 && Ascending(oldFiles.items)
    requires newFiles.position == 0 && Ascending(newFiles.items)
    modifies oldFiles, newFiles
    ensures summary == Difference(FilesByPath(oldFiles.items), FilesByPath(newFiles.items))
    ensures oldFiles.position == |oldFiles.items| && newFiles.position == |newFiles.items|
  {
    hide DifferenceOf, Difference, FilesByPath;
    LastOfRunsAscending(oldFiles.items);
    LastOfRunsAscending(newFiles.items);
    var left := NextLastRecord(oldFiles);
    var right := NextLastRecord(newFiles);
    summary := RefreshSummary(0, 0, 0, 0);
    ghost var a, b := LastOfRuns(oldFiles.items), LastOfRuns(newFiles.items);
    ghost var total := DifferenceOf(a, b);
    ZeroPlus(total);
    while left.Some? || right.Some?
      invariant oldFiles.Valid() && newFiles.Valid()
      invariant a == Pending(left, oldFiles.Rest()) && b == Pending(right, newFiles.Rest())
      invariant StrictlyAscending(a) && StrictlyAscending(b)
      invariant left == None ==> oldFiles.position == |oldFiles.items|
      invariant right == None ==> newFiles.position == |newFiles.items|
      invariant summary.Plus(DifferenceOf(a, b)) == total
      decreases |a| + |b|
    {
      PendingHead(left, oldFiles.Rest());
      PendingHead(right, newFiles.Rest());
      if left.Some? && (right.None? || Less(left.value.path, right.value.path)) {
        DropLeft(summary, a, b);
        summary := summary.(removed := summary.removed + 1);
        left := NextLastRecord(oldFiles);
        a := a[1..];
      } else if right.Some? && (left.None? || Less(right.value.path, left.value.path)) {
        DropRight(summary, a, b);
        summary := summary.(added := summary.added + 1);
        right := NextLastRecord(newFiles);
        b := b[1..];
      } else {
        LeqTotal(left.value.path, right.value.path);
        DropBoth(summary, a, b);
        if SameFileMetadata(left.value, right.value) {
          summary := summary.(same := summary.same + 1);
        } else {
          summary := summary.(updated := summary.updated + 1);
        }
        left := NextLastRecord(oldFiles);
        right := NextLastRecord(newFiles);
        a, b := a[1..], b[1..];
      }
    }
    NothingPending(summary);
    DifferenceOfRuns(oldFiles.items, newFiles.items);
  }

  // ---------------------------------------------------------------- lemmas

  lemma DifferenceOfRuns(a: seq<IndexedFile>, b: seq<IndexedFile>)
    ensures DifferenceOf(LastOfRuns(a), LastOfRuns(b)) == Difference(FilesByPath(a), FilesByPath(b))
  {
    LastOfRunsSameMap(a);
    LastOfRunsSameMap(b);
  }

  lemma PendingHead(current: Option<IndexedFile>, rest: seq<IndexedFile>)
    ensures current.None? <==> Pending(current, rest) == []
    ensures current.Some? ==> Pending(current, rest)[0] == current.value
                              && Pending(current, rest)[1..] == LastOfRuns(rest)
  {
  }

  lemma {:induction false} LastOfRunsAscending(files: seq<IndexedFile>)
    requires Ascending(files)
    ensures StrictlyAscending(LastOfRuns(files))
    ensures files != [] ==> LastOfRuns(files) != [] && LastOfRuns(files)[0].path == files[0].path
  {
    if files != [] {
      var rest := files[1..];
      assert forall i :: 0 <= i < |rest| ==> rest[i] == files[i + 1];
      LastOfRunsAscending(rest);
      if |files| >= 2 && files[0].path != files[1].path {
        assert Leq(files[0].path, files[1].path);
        PrependAscending(files[0], LastOfRuns(rest));
      }
    }
  }

  lemma PrependAscending(head: IndexedFile, rest: seq<IndexedFile>)
    requires StrictlyAscending(rest) && rest != [] && Less(head.path, rest[0].path)
    ensures StrictlyAscending([head] + rest)
  {
    forall j | 0 <= j < |rest| ensures Less(head.path, rest[j].path) {
      LeqReflexive(rest[j].path);
      LessLeqTransitive(head.path, rest[0].path, rest[j].path);
    }
  }

  lemma {:induction false} LastOfRunsSameMap(files: seq<IndexedFile>)
    ensures FilesByPath(LastOfRuns(files)) == FilesByPath(files)
  {
    if files != [] {
      var rest := files[1..];
      assert files == [files[0]] + rest;
      LastOfRunsSameMap(rest);
      FilesByPathCons(files[0], rest);
      FilesByPathCons(files[0], LastOfRuns(rest));
      if |files| >= 2 && files[0].path == files[1].path {
        FilesByPathKeyed(rest);
        assert rest[0].path in FilesByPath(rest);
      }
    }
  }

  lemma MissingGains(m: FileMap, n: FileMap, path: string, file: IndexedFile)
    requires path !in m && path !in n
    ensures Missing(m[path := file], n) == Missing(m, n) + 1
  {
    assert m[path := file].Keys - n.Keys == (m.Keys - n.Keys) + {path};
  }

  lemma MissingIgnoresRight(m: FileMap, n: FileMap, path: string, file: IndexedFile)
    requires path !in m && path !in n
    ensures Missing(m, n[path := file]) == Missing(m, n)
  {
    assert m.Keys - n[path := file].Keys == m.Keys - n.Keys;
  }

  lemma MissingIgnoresCommon(m: FileMap, n: FileMap, path: string, left: IndexedFile, right: IndexedFile)
    requires path !in m && path !in n
    ensures Missing(m[path := left], n[path := right]) == Missing(m, n)
  {
    assert m[path := left].Keys - n[path := right].Keys == m.Keys - n.Keys;
  }

  lemma CommonIgnoresOneSide(m: FileMap, n: FileMap, path: string, file: IndexedFile)
    requires path !in m && path !in n
    ensures Updated(m[path := file], n) == Updated(m, n) && Same(m[path := file], n) == Same(m, n)
    ensures Updated(m, n[path := file]) == Updated(m, n) && Same(m, n[path := file]) == Same(m, n)
  {
    assert UpdatedPaths(m[path := file], n) == UpdatedPaths(m, n) == UpdatedPaths(m, n[path := file]);
    assert UnchangedPaths(m[path := file], n) == UnchangedPaths(m, n) == UnchangedPaths(m, n[path := file]);
  }

  lemma UpdatedGains(m: FileMap, n: FileMap, path: string, left: IndexedFile, right: IndexedFile)
    requires path !in m && path !in n
    ensures Updated(m[path := left], n[path := right]) == Updated(m, n) + (if SameFileMetadata(left, right) then 0 else 1)
  {
    assert UpdatedPaths(m[path := left], n[path := right])
        == UpdatedPaths(m, n) + (if SameFileMetadata(left, right) then {} else {path});
  }

  lemma SameGains(m: FileMap, n: FileMap, path: string, left: IndexedFile, right: IndexedFile)
    requires path !in m && path !in n
    ensures Same(m[path := left], n[path := right]) == Same(m, n) + (if SameFileMetadata(left, right) then 1 else 0)
  {
    assert UnchangedPaths(m[path := left], n[path := right])
        == UnchangedPaths(m, n) + (if SameFileMetadata(left, right) then {path} else {});
  }

  /** One more path, on the old side only. */
  lemma RemovedPath(m: FileMap, n: FileMap, path: string, file: IndexedFile)
    requires path !in m && path !in n
    ensures Difference(m[path := file], n) == RefreshSummary(0, 0, 1, 0).Plus(Difference(m, n))
  {
    hide Missing, Updated, Same;
    MissingGains(m, n, path, file);
    MissingIgnoresRight(n, m, path, file);
    CommonIgnoresOneSide(m, n, path, file);
  }

  /** One more path, on the new side only. */
  lemma AddedPath(m: FileMap, n: FileMap, path: string, file: IndexedFile)
    requires path !in m && path !in n
    ensures Difference(m, n[path := file]) == RefreshSummary(1, 0, 0, 0).Plus(Difference(m, n))
  {
    hide Missing, Updated, Same;
    MissingGains(n, m, path, file);
    MissingIgnoresRight(m, n, path, file);
    CommonIgnoresOneSide(m, n, path, file);
  }

  /** One more path, on both sides. */
  lemma CommonPath(m: FileMap, n: FileMap, path: string, left: IndexedFile, right: IndexedFile)
    requires path !in m && path !in n
    ensures Difference(m[path := left], n[path := right])
         == (if SameFileMetadata(left, right) then RefreshSummary(0, 0, 0, 1) else RefreshSummary(0, 1, 0, 0))
            .Plus(Difference(m, n))
  {
    hide Missing, Updated, Same;
    MissingIgnoresCommon(m, n, path, left, right);
    MissingIgnoresCommon(n, m, path, right, left);
    UpdatedGains(m, n, path, left, right);
    SameGains(m, n, path, left, right);
  }

  lemma ZeroPlus(d: RefreshSummary)
    ensures RefreshSummary(0, 0, 0, 0).Plus(d) == d
  {
  }

  lemma Bumps(summary: RefreshSummary)
    ensures summary.(removed := summary.removed + 1) == summary.Plus(RefreshSummary(0, 0, 1, 0))
    ensures summary.(added := summary.added + 1) == summary.Plus(RefreshSummary(1, 0, 0, 0))
    ensures summary.(same := summary.same + 1) == summary.Plus(RefreshSummary(0, 0, 0, 1))
    ensures summary.(updated := summary.updated + 1) == summary.Plus(RefreshSummary(0, 1, 0, 0))
  {
  }

  lemma Counted(summary: RefreshSummary, one: RefreshSummary, rest: RefreshSummary, all: RefreshSummary)
    requires all == one.Plus(rest)
    ensures summary.Plus(one).Plus(rest) == summary.Plus(all)
  {
  }

  lemma NothingPending(summary: RefreshSummary)
    ensures summary.Plus(DifferenceOf([], [])) == summary
  {
  }

  lemma DropLeft(summary: RefreshSummary, a: seq<IndexedFile>, b: seq<IndexedFile>)
    requires StrictlyAscending(a) && StrictlyAscending(b) && a != []
    requires b == [] || Less(a[0].path, b[0].path)
    ensures StrictlyAscending(a[1..])
    ensures summary.(removed := summary.removed + 1).Plus(DifferenceOf(a[1..], b)) == summary.Plus(DifferenceOf(a, b))
  {
    TailMap(a);
    HeadIsAbsent(a[0], b);
    RemovedPath(FilesByPath(a[1..]), FilesByPath(b), a[0].path, a[0]);
    Bumps(summary);
    Counted(summary, RefreshSummary(0, 0, 1, 0), DifferenceOf(a[1..], b), DifferenceOf(a, b));
  }

  lemma DropRight(summary: RefreshSummary, a: seq<IndexedFile>, b: seq<IndexedFile>)
    requires StrictlyAscending(a) && StrictlyAscending(b) && b != []
    requires a == [] || Less(b[0].path, a[0].path)
    ensures StrictlyAscending(b[1..])
    ensures summary.(added := summary.added + 1).Plus(DifferenceOf(a, b[1..])) == summary.Plus(DifferenceOf(a, b))
  {
    TailMap(b);
    HeadIsAbsent(b[0], a);
    AddedPath(FilesByPath(a), FilesByPath(b[1..]), b[0].path, b[0]);
    Bumps(summary);
    Counted(summary, RefreshSummary(1, 0, 0, 0), DifferenceOf(a, b[1..]), DifferenceOf(a, b));
  }

  lemma DropBoth(summary: RefreshSummary, a: seq<IndexedFile>, b: seq<IndexedFile>)
    requires StrictlyAscending(a) && StrictlyAscending(b) && a != [] && b != []
    requires a[0].path == b[0].path
    ensures StrictlyAscending(a[1..]) && StrictlyAscending(b[1..])
    ensures (if SameFileMetadata(a[0], b[0]) then summary.(same := summary.same + 1)
             else summary.(updated := summary.updated + 1)).Plus(DifferenceOf(a[1..], b[1..]))
         == summary.Plus(DifferenceOf(a, b))
  {
    TailMap(a);
    TailMap(b);
    CommonPath(FilesByPath(a[1..]), FilesByPath(b[1..]), a[0].path, a[0], b[0]);
    Bumps(summary);
    Counted(summary, if SameFileMetadata(a[0], b[0]) then RefreshSummary(0, 0, 0, 1) else RefreshSummary(0, 1, 0, 0),
            DifferenceOf(a[1..], b[1..]), DifferenceOf(a, b));
  }

  // ---------------------------------------------------------------- what the counts mean

  /** Every distinct path is counted exactly once. */
  lemma CountsPartitionPaths(before: FileMap, after: FileMap)
    ensures var d := Difference(before, after);
            d.removed + d.updated + d.same == |before| && d.added + d.updated + d.same == |after|
  {
    CommonPathsPartition(before, after);
    SplitByMembership(before.Keys, after.Keys);
    SplitByMembership(after.Keys, before.Keys);
    assert before.Keys * after.Keys == after.Keys * before.Keys;
  }

  lemma CommonPathsPartition(before: FileMap, after: FileMap)
    ensures |before.Keys * after.Keys| == |UpdatedPaths(before, after)| + |UnchangedPaths(before, after)|
  {
    assert before.Keys * after.Keys == UpdatedPaths(before, after) + UnchangedPaths(before, after);
    DisjointUnionSize(UpdatedPaths(before, after), UnchangedPaths(before, after));
  }

  lemma SplitByMembership(a: set<string>, b: set<string>)
    ensures |a| == |a - b| + |a * b|
  {
  }

  lemma DisjointUnionSize(a: set<string>, b: set<string>)
    requires a !! b
    ensures |a + b| == |a| + |b|
  {
  }

  /** No change is reported exactly when the two snapshots hold the same records. */
  lemma NoChangesIffSameFiles(before: FileMap, after: FileMap)
    requires KeyedByPath(before) && KeyedByPath(after)
    ensures !Difference(before, after).HasChanges() <==> before == after
  {
  }
}
