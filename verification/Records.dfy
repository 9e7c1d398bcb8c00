/** Indexed file records and the ordered map that holds them
    (crates/indexer/src/store.rs, `MemoryIndexStore`). */
module Records {
  import opened Text

  const U64_LIMIT := 0x1_0000_0000_0000_0000

  type U64 = x: int | 0 <= x < U64_LIMIT

  datatype IndexedFile = IndexedFile(path: string, size: U64, modified: U64)

  type FileMap = map<string, IndexedFile>

  /** Collecting (path, record) pairs into a map: the last record of a path wins. */
  function FilesByPath(files: seq<IndexedFile>): FileMap
  {
    if files == [] then map[]
    else
      var last := files[|files| - 1];
      FilesByPath(files[..|files| - 1])[last.path := last]
  }

  predicate KeyedByPath(files: FileMap)
  {
    forall path :: path in files ==> files[path].path == path
  }

  predicate Ascending(files: seq<IndexedFile>)
  {
    forall i, j :: 0 <= i < j < |files| ==> Leq(files[i].path, files[j].path)
  }

  predicate StrictlyAscending(files: seq<IndexedFile>)
  {
    forall i, j :: 0 <= i < j < |files| ==> Less(files[i].path, files[j].path)
  }

  /** `BTreeMap::values`: the records in key order. */
  function ValuesInOrder(files: FileMap): seq<IndexedFile>
    decreases |files|
  {
    if files == map[] then []
    else
      var first := Minimum(files.Keys);
      [files[first]] + ValuesInOrder(files - {first})
  }

  class MemoryIndexStore {
    var files: FileMap

    constructor ()
      ensures files == map[]
    {
      files := map[];
    }

    method UpsertFile(file: IndexedFile)
      modifies this
      ensures files == old(files)[file.path := file]
    {
      files := files[file.path := file];
    }

    method ReplaceAll(replacement: seq<IndexedFile>)
      modifies this
      ensures files == FilesByPath(replacement)
    {
      files := map[];
      for i := 0 to |replacement|
        invariant files == FilesByPath(replacement[..i])
      {
        assert replacement[..i + 1][..i] == replacement[..i];
        UpsertFile(replacement[i]);
      }
      assert replacement[..|replacement|] == replacement;
    }
  }

  // ---------------------------------------------------------------- lemmas

  lemma {:induction false} FilesByPathKeyed(files: seq<IndexedFile>)
    ensures KeyedByPath(FilesByPath(files))
    ensures forall path :: path in FilesByPath(files) <==> exists i :: 0 <= i < |files| && files[i].path == path
    ensures forall path :: path in FilesByPath(files) ==> FilesByPath(files)[path] in files
  {
    if files != [] {
      var rest := files[..|files| - 1];
      FilesByPathKeyed(rest);
      var m := FilesByPath(files);
      forall path | path in m
        ensures exists i :: 0 <= i < |files| && files[i].path == path
      {
        if path in FilesByPath(rest) {
          var i :| 0 <= i < |rest| && rest[i].path == path;
          assert files[i].path == path;
        } else {
          assert files[|files| - 1].path == path;
        }
      }
      forall i | 0 <= i < |files| ensures files[i].path in m {
        if i < |rest| { assert rest[i].path in FilesByPath(rest); }
      }
    }
  }

  /** Of several records with one path the last one is kept. */
  lemma {:induction false} LastRecordWins(files: seq<IndexedFile>, i: nat)
    requires i < |files| && forall j :: i < j < |files| ==> files[j].path != files[i].path
    ensures files[i].path in FilesByPath(files) && FilesByPath(files)[files[i].path] == files[i]
  {
    var rest := files[..|files| - 1];
    if i < |rest| {
      assert forall j :: 0 <= j < |rest| ==> rest[j] == files[j];
      LastRecordWins(rest, i);
    }
  }

  lemma {:induction false} FilesByPathConcat(a: seq<IndexedFile>, b: seq<IndexedFile>)
    ensures FilesByPath(a + b) == FilesByPath(a) + FilesByPath(b)
  {
    if b == [] {
      assert a + b == a;
    } else {
      var last := b[|b| - 1];
      assert (a + b)[..|a + b| - 1] == a + b[..|b| - 1];
      FilesByPathConcat(a, b[..|b| - 1]);
    }
  }

  lemma FilesByPathCons(file: IndexedFile, rest: seq<IndexedFile>)
    ensures FilesByPath([file] + rest) == map[file.path := file] + FilesByPath(rest)
  {
    assert [file][..0] == [];
    assert FilesByPath([file]) == map[][file.path := file];
    FilesByPathConcat([file], rest);
  }

  lemma {:induction false} ValuesInOrderMembers(files: FileMap)
    requires KeyedByPath(files)
    ensures forall i :: 0 <= i < |ValuesInOrder(files)| ==>
              ValuesInOrder(files)[i].path in files && files[ValuesInOrder(files)[i].path] == ValuesInOrder(files)[i]
    decreases |files|
  {
    if files != map[] { ValuesInOrderMembers(files - {Minimum(files.Keys)}); }
  }

  lemma {:induction false} ValuesInOrderAscending(files: FileMap)
    requires KeyedByPath(files)
    ensures StrictlyAscending(ValuesInOrder(files))
    decreases |files|
  {
    if files != map[] {
      var rest := files - {Minimum(files.Keys)};
      ValuesInOrderAscending(rest);
      ValuesInOrderMembers(rest);
    }
  }

  /** The values in key order are strictly ascending and rebuild the map. */
  lemma {:induction false} ValuesInOrderRebuild(files: FileMap)
    requires KeyedByPath(files)
    ensures FilesByPath(ValuesInOrder(files)) == files
    decreases |files|
  {
    if files != map[] {
      var first := Minimum(files.Keys);
      var rest := files - {first};
      ValuesInOrderRebuild(rest);
      FilesByPathCons(files[first], ValuesInOrder(rest));
      PutBack(files, first);
    }
  }

  lemma PutBack(files: FileMap, key: string)
    requires key in files
    ensures map[key := files[key]] + (files - {key}) == files
  {
  }

  lemma MinimumIsUnique(keys: set<string>, m: string)
    requires m in keys && forall k :: k in keys ==> Leq(m, k)
    ensures Minimum(keys) == m
  {
    LeqAntisymmetric(m, Minimum(keys));
  }

  lemma HeadIsAbsent(file: IndexedFile, others: seq<IndexedFile>)
    requires StrictlyAscending(others)
    requires others == [] || Less(file.path, others[0].path)
    ensures file.path !in FilesByPath(others)
  {
    FilesByPathKeyed(others);
    if file.path in FilesByPath(others) {
      var i :| 0 <= i < |others| && others[i].path == file.path;
      if i > 0 { LeqAntisymmetric(others[0].path, others[i].path); }
    }
  }

  lemma MapCons(head: IndexedFile, rest: FileMap)
    requires head.path !in rest
    ensures map[head.path := head] + rest == rest[head.path := head]
    ensures rest[head.path := head] - {head.path} == rest
  {
  }

  lemma TailMap(files: seq<IndexedFile>)
    requires StrictlyAscending(files) && files != []
    ensures StrictlyAscending(files[1..])
    ensures files[0].path !in FilesByPath(files[1..])
    ensures FilesByPath(files) == FilesByPath(files[1..])[files[0].path := files[0]]
    ensures FilesByPath(files) - {files[0].path} == FilesByPath(files[1..])
  {
    var head, rest := files[0], files[1..];
    assert files == [head] + rest;
    FilesByPathCons(head, rest);
    assert forall i :: 0 <= i < |rest| ==> rest[i] == files[i + 1];
    HeadIsAbsent(head, rest);
    MapCons(head, FilesByPath(rest));
  }

  lemma HeadIsMinimum(files: seq<IndexedFile>)
    requires StrictlyAscending(files) && files != []
    ensures files[0].path in FilesByPath(files) && Minimum(FilesByPath(files).Keys) == files[0].path
    ensures FilesByPath(files)[files[0].path] == files[0]
  {
    TailMap(files);
    FilesByPathKeyed(files);
    var m := FilesByPath(files);
    forall k | k in m.Keys ensures Leq(files[0].path, k) {
      var i :| 0 <= i < |files| && files[i].path == k;
      if i == 0 { LeqReflexive(k); }
    }
    MinimumIsUnique(m.Keys, files[0].path);
  }

  /** Strictly ascending records are determined by their map. */
  lemma {:induction false} AscendingIsValuesInOrder(files: seq<IndexedFile>)
    requires StrictlyAscending(files)
    ensures ValuesInOrder(FilesByPath(files)) == files
  {
    if files != [] {
      TailMap(files);
      HeadIsMinimum(files);
      AscendingIsValuesInOrder(files[1..]);
    }
  }
}
