/** Loading what was printed: exactly which snapshots survive, and why the order of
    policy records does not matter. */
module RoundTrip {
  import opened Text
  import opened PathId
  import opened Records
  import opened Metadata
  import opened SnapshotText

  predicate IsPrintablePath(path: string)
  {
    '\n' !in path && (path == "" || path[|path| - 1] != '\r')
  }

  // ---------------------------------------------------------------- lines of a rendering

  function StripAll(lines: seq<string>): seq<string>
  {
    if lines == [] then [] else [StripSuffix(lines[0], '\r')] + StripAll(lines[1..])
  }

  predicate AllLfFree(lines: seq<string>)
  {
    forall i :: 0 <= i < |lines| ==> '\n' !in lines[i]
  }

  lemma {:induction false} StrLinesOfUnlines(lines: seq<string>)
    requires AllLfFree(lines)
    ensures StrLines(Unlines(lines)) == StripAll(lines)
  {
    if lines != [] {
      StrLinesOfUnlines(lines[1..]);
      StrLinesCons(lines[0], Unlines(lines[1..]));
    }
  }

  lemma {:induction false} StripAllConcat(a: seq<string>, b: seq<string>)
    ensures StripAll(a + b) == StripAll(a) + StripAll(b)
  {
    if a == [] {
      assert a + b == b;
    } else {
      StripAllConcat(a[1..], b);
      assert (a + b)[1..] == a[1..] + b;
    }
  }

  lemma {:induction false} StripAllFixed(lines: seq<string>)
    requires forall i :: 0 <= i < |lines| ==> StripSuffix(lines[i], '\r') == lines[i]
    ensures StripAll(lines) == lines
  {
    if lines != [] { StripAllFixed(lines[1..]); }
  }

  predicate Plain(lines: seq<string>)
  {
    forall i :: 0 <= i < |lines| ==> '\n' !in lines[i] && StripSuffix(lines[i], '\r') == lines[i]
  }

  lemma PlainConcat(a: seq<string>, b: seq<string>)
    requires Plain(a) && Plain(b)
    ensures Plain(a + b)
  {
  }

  lemma MetadataLineIsPlain(key: string, value: string)
    requires IsFieldSafe(key)
    ensures Plain([MetadataLine(key, value)])
  {
    EscapeIsFieldSafe(value);
    hide Escape;
    var line := MetadataLine(key, value);
    assert line[|line| - 1] == if Escape(value) == "" then '\t' else Escape(value)[|Escape(value)| - 1];
  }

  lemma MetadataLineSplits(key: string, value: string)
    requires IsFieldSafe(key)
    ensures SplitN(MetadataLine(key, value), '\t', 3) == ["meta", key, Escape(value)]
    ensures "meta\t" <= MetadataLine(key, value) && MetadataLine(key, value) != ""
  {
    hide Escape;
    var escaped := Escape(value);
    assert MetadataLine(key, value) == "meta" + ['\t'] + (key + ['\t'] + escaped);
    SplitNCons("meta", '\t', key + ['\t'] + escaped, 3);
    SplitNCons(key, '\t', escaped, 2);
  }

  lemma {:induction false} ExclusionLinesArePlain(names: seq<string>)
    ensures Plain(ExclusionLines(names))
  {
    if names != [] {
      ExclusionLinesArePlain(names[1..]);
      MetadataLineIsPlain("exclude_name", names[0]);
      hide MetadataLine;
      PlainConcat([MetadataLine("exclude_name", names[0])], ExclusionLines(names[1..]));
    }
  }

  lemma RootLinesArePlain(root: Option<string>)
    ensures Plain(RootLines(root))
  {
    if root.Some? { MetadataLineIsPlain("root", root.value); }
  }

  lemma PolicyLinesArePlain(policy: Option<set<string>>)
    ensures Plain(PolicyLines(policy))
  {
    if policy.Some? {
      MetadataLineIsPlain("scan_policy", "1");
      ExclusionLinesArePlain(InOrder(policy.value));
      hide MetadataLine, ExclusionLines, InOrder;
      PlainConcat([MetadataLine("scan_policy", "1")], ExclusionLines(InOrder(policy.value)));
    }
  }

  function FrontLines(snapshot: Snapshot): seq<string>
  {
    [HEADER] + RootLines(snapshot.root) + PolicyLines(snapshot.policy)
  }

  lemma FrontLinesArePlain(snapshot: Snapshot)
    ensures Plain(FrontLines(snapshot))
    ensures AllLfFree(FrontLines(snapshot)) && StripAll(FrontLines(snapshot)) == FrontLines(snapshot)
  {
    RootLinesArePlain(snapshot.root);
    PolicyLinesArePlain(snapshot.policy);
    hide RootLines, PolicyLines;
    PlainConcat([HEADER], RootLines(snapshot.root));
    PlainConcat([HEADER] + RootLines(snapshot.root), PolicyLines(snapshot.policy));
    StripAllFixed(FrontLines(snapshot));
  }

  // ---------------------------------------------------------------- records

  /** What is left of a record's path after its line ending was stripped. */
  function StripPaths(files: seq<IndexedFile>): seq<IndexedFile>
  {
    if files == [] then []
    else [files[0].(path := StripSuffix(files[0].path, '\r'))] + StripPaths(files[1..])
  }

  /** Records with their paths normalised again. */
  function Renormalize(files: seq<IndexedFile>): seq<IndexedFile>
  {
    if files == [] then []
    else [files[0].(path := FromUserPath(files[0].path))] + Renormalize(files[1..])
  }

  lemma RecordLineEnd(file: IndexedFile)
    ensures StripSuffix(RecordLine(file), '\r') == RecordLine(file.(path := StripSuffix(file.path, '\r')))
    ensures '\n' !in file.path ==> '\n' !in RecordLine(file)
  {
  }

  lemma {:induction false} RecordLinesEnd(files: seq<IndexedFile>)
    ensures StripAll(RecordLines(files)) == RecordLines(StripPaths(files))
    ensures (forall i :: 0 <= i < |files| ==> '\n' !in files[i].path) ==> AllLfFree(RecordLines(files))
  {
    if files != [] {
      RecordLinesEnd(files[1..]);
      RecordLineEnd(files[0]);
      assert forall i :: 0 <= i < |files[1..]| ==> files[1..][i] == files[i + 1];
    }
  }

  lemma RecordLineParses(file: IndexedFile)
    ensures ParseRecord(RecordLine(file)) == file.(path := FromUserPath(file.path))
    ensures SplitN(RecordLine(file), '\t', 3)[0] != "meta"
    ensures !("meta\t" <= RecordLine(file)) && RecordLine(file) != ""
  {
    ParseShown(file.size);
    ParseShown(file.modified);
    hide FromUserPath, ParseU64, DigitsValue, IndexOf;
    var size, modified := ShowNumber(file.size), ShowNumber(file.modified);
    assert RecordLine(file) == size + ['\t'] + (modified + ['\t'] + file.path);
    SplitNCons(size, '\t', modified + ['\t'] + file.path, 3);
    SplitNCons(modified, '\t', file.path, 2);
    assert SplitN(RecordLine(file), '\t', 3) == [size, modified, file.path];
    assert RecordLine(file)[0] == size[0];
    assert IsDigit(size[0]);
  }

  // ---------------------------------------------------------------- folding the loader

  predicate Headed(loader: Loader)
  {
    !loader.firstLine && loader.hasHeader
  }

  lemma {:induction false} LoadConcat(loader: Loader, a: seq<string>, b: seq<string>)
    ensures LoadLines(loader, a + b)
         == match LoadLines(loader, a) { case Err(e) => Err(e) case Ok(next) => LoadLines(next, b) }
    decreases |a|
  {
    hide LoadLine;
    if a == [] {
      assert a + b == b;
    } else {
      assert (a + b)[1..] == a[1..] + b;
      if LoadLine(loader, a[0]).Ok? { LoadConcat(LoadLine(loader, a[0]).value, a[1..], b); }
    }
  }

  lemma LoadOneThen(loader: Loader, line: string, rest: seq<string>)
    requires LoadLine(loader, line).Ok?
    ensures LoadLines(loader, [line] + rest) == LoadLines(LoadLine(loader, line).value, rest)
  {
  }

  function Members(names: seq<string>): set<string>
  {
    set name | name in names
  }

  lemma LoadMetadata(loader: Loader, key: string, value: string)
    requires Headed(loader) && IsFieldSafe(key)
    ensures key == "exclude_name"
            ==> (LoadLine(loader, MetadataLine(key, value))
                 == Ok(loader.(exclusionsSeen := true, excluded := loader.excluded + {value})))
    ensures key == "root" ==> LoadLine(loader, MetadataLine(key, value)) == Ok(loader.(root := Some(value)))
    ensures key == "scan_policy" && value == "1" && !loader.policySeen
            ==> (LoadLine(loader, MetadataLine(key, value)) == Ok(loader.(policySeen := true)))
  {
    hide SplitN, Escape, Unescape, MetadataLine, ParseRecord;
    MetadataLineSplits(key, value);
    UnescapeEscape(value);
    EscapeOfOne();
  }

  lemma EscapeOfOne()
    ensures Escape("1") == "1"
  {
  }

  lemma {:induction false} LoadExclusions(loader: Loader, names: seq<string>)
    requires Headed(loader)
    ensures LoadLines(loader, ExclusionLines(names))
         == Ok(loader.(exclusionsSeen := loader.exclusionsSeen || names != [], excluded := loader.excluded + Members(names)))
    decreases |names|
  {
    hide LoadLine, MetadataLine;
    if names == [] {
      assert loader.excluded + Members(names) == loader.excluded;
    } else {
      var line := MetadataLine("exclude_name", names[0]);
      var next := loader.(exclusionsSeen := true, excluded := loader.excluded + {names[0]});
      LoadMetadata(loader, "exclude_name", names[0]);
      LoadOneThen(loader, line, ExclusionLines(names[1..]));
      LoadExclusions(next, names[1..]);
      MembersCons(loader.excluded, names);
    }
  }

  lemma MembersCons(excluded: set<string>, names: seq<string>)
    requires names != []
    ensures excluded + {names[0]} + Members(names[1..]) == excluded + Members(names)
  {
  }

  lemma {:induction false} LoadRecords(loader: Loader, files: seq<IndexedFile>)
    requires Headed(loader)
    ensures LoadLines(loader, RecordLines(files))
         == Ok(loader.(files := loader.files + FilesByPath(Renormalize(files))))
    decreases |files|
  {
    if files == [] {
      assert loader.files + map[] == loader.files;
    } else {
      var file := files[0].(path := FromUserPath(files[0].path));
      var line := RecordLine(files[0]);
      RecordLineParses(files[0]);
      var next := Upsert(loader, file);
      assert LoadLine(loader, line) == Ok(next);
      LoadOneThen(loader, line, RecordLines(files[1..]));
      LoadRecords(next, files[1..]);
      FilesByPathCons(file, Renormalize(files[1..]));
      MapUpdateThenMerge(loader.files, file.path, file, FilesByPath(Renormalize(files[1..])));
    }
  }

  lemma MapUpdateThenMerge(m: FileMap, path: string, file: IndexedFile, n: FileMap)
    ensures m[path := file] + n == m + (map[path := file] + n)
  {
  }

  lemma LoadRootLines(loader: Loader, root: Option<string>)
    requires Headed(loader) && loader.root == None
    ensures LoadLines(loader, RootLines(root)) == Ok(loader.(root := root))
  {
    hide LoadLine, MetadataLine;
    if root.Some? {
      LoadMetadata(loader, "root", root.value);
      LoadOneThen(loader, MetadataLine("root", root.value), []);
      assert [MetadataLine("root", root.value)] + [] == RootLines(root);
    }
  }

  function WithPolicy(loader: Loader, policy: Option<set<string>>): Loader
  {
    match policy
    case None => loader
    case Some(names) => loader.(policySeen := true, exclusionsSeen := names != {}, excluded := names)
  }

  lemma LoadPolicyLines(loader: Loader, policy: Option<set<string>>)
    requires Headed(loader) && !loader.policySeen && !loader.exclusionsSeen && loader.excluded == {}
    ensures LoadLines(loader, PolicyLines(policy)) == Ok(WithPolicy(loader, policy))
  {
    hide LoadLine, MetadataLine, ExclusionLines;
    if policy.Some? {
      var names := InOrder(policy.value);
      LoadMetadata(loader, "scan_policy", "1");
      LoadOneThen(loader, MetadataLine("scan_policy", "1"), ExclusionLines(names));
      LoadExclusions(loader.(policySeen := true), names);
      InOrderMembers(policy.value);
      assert {} + Members(names) == policy.value;
      assert names == [] <==> policy.value == {};
    }
  }

  lemma LoadFrontLines(snapshot: Snapshot)
    ensures LoadLines(START, FrontLines(snapshot))
         == Ok(WithPolicy(START.(firstLine := false, hasHeader := true, root := snapshot.root), snapshot.policy))
  {
    var root, policy := RootLines(snapshot.root), PolicyLines(snapshot.policy);
    var headed := START.(firstLine := false, hasHeader := true);
    assert LoadLine(START, HEADER) == Ok(headed);
    hide LoadLine, RootLines, PolicyLines;
    assert FrontLines(snapshot) == [HEADER] + (root + policy);
    LoadOneThen(START, HEADER, root + policy);
    LoadConcat(headed, root, policy);
    LoadRootLines(headed, snapshot.root);
    LoadPolicyLines(headed.(root := snapshot.root), snapshot.policy);
  }

  function Reread(files: FileMap): FileMap
  {
    FilesByPath(Renormalize(StripPaths(ValuesInOrder(files))))
  }

  lemma LinesOfParts(snapshot: Snapshot)
    ensures LinesOf(snapshot) == FrontLines(snapshot) + RecordLines(ValuesInOrder(snapshot.files))
  {
    hide RecordLines, ValuesInOrder, RootLines, PolicyLines;
  }

  lemma LinesOfRendering(snapshot: Snapshot)
    requires Valid(snapshot)
    requires forall path :: path in snapshot.files ==> '\n' !in path
    ensures StrLines(Render(snapshot)) == FrontLines(snapshot) + RecordLines(StripPaths(ValuesInOrder(snapshot.files)))
  {
    hide ValuesInOrder, StripPaths, RecordLines, FrontLines, StrLines, Unlines;
    var front, values := FrontLines(snapshot), ValuesInOrder(snapshot.files);
    ValuesInOrderMembers(snapshot.files);
    FrontLinesArePlain(snapshot);
    RecordLinesEnd(values);
    LinesOfParts(snapshot);
    StrLinesOfUnlines(front + RecordLines(values));
    StripAllConcat(front, RecordLines(values));
  }

  /** What loading a rendering gives, whatever the paths do short of containing LF. */
  lemma ParseRendered(snapshot: Snapshot)
    requires Valid(snapshot)
    requires forall path :: path in snapshot.files ==> '\n' !in path
    ensures Parse(Render(snapshot)) == Ok(snapshot.(files := Reread(snapshot.files)))
  {
    hide LoadLine, LoadLines, StrLines, Render, ValuesInOrder, FilesByPath, Renormalize, StripPaths, RecordLines, FrontLines;
    var front, records := FrontLines(snapshot), StripPaths(ValuesInOrder(snapshot.files));
    LinesOfRendering(snapshot);
    LoadFrontLines(snapshot);
    LoadConcat(START, front, RecordLines(records));
    LoadRecords(LoadLines(START, front).value, records);
    assert map[] + Reread(snapshot.files) == Reread(snapshot.files);
  }

  // ---------------------------------------------------------------- the round trip

  lemma {:induction false} PrintableRecordsAreFixed(files: seq<IndexedFile>)
    requires forall i :: 0 <= i < |files| ==> IsPrintablePath(files[i].path) && IsNormalized(files[i].path)
    ensures Renormalize(StripPaths(files)) == files
  {
    if files != [] {
      var head := files[0];
      assert forall i :: 0 <= i < |files[1..]| ==> files[1..][i] == files[i + 1];
      PrintableRecordsAreFixed(files[1..]);
      NormalizedIsFixed(head.path);
      hide FromUserPath, IsNormalized;
      assert StripSuffix(head.path, '\r') == head.path;
      assert StripPaths(files) == [head] + StripPaths(files[1..]);
      assert Renormalize([head] + StripPaths(files[1..])) == [head] + files[1..];
    }
  }

  lemma {:induction false} RereadMember(files: seq<IndexedFile>, path: string)
    requires path in FilesByPath(Renormalize(StripPaths(files)))
    ensures exists i :: 0 <= i < |files| && path == FromUserPath(StripSuffix(files[i].path, '\r'))
                        && FilesByPath(Renormalize(StripPaths(files)))[path] == files[i].(path := path)
  {
    hide FromUserPath;
    if files == [] {
      assert false;
    } else {
      hide FilesByPath;
      var head := files[0].(path := FromUserPath(StripSuffix(files[0].path, '\r')));
      var rest := Renormalize(StripPaths(files[1..]));
      assert Renormalize(StripPaths(files)) == [head] + rest;
      FilesByPathCons(head, rest);
      if path in FilesByPath(rest) {
        RereadMember(files[1..], path);
        var i :| 0 <= i < |files[1..]| && path == FromUserPath(StripSuffix(files[1..][i].path, '\r'))
                 && FilesByPath(rest)[path] == files[1..][i].(path := path);
        assert files[i + 1] == files[1..][i];
      } else {
        assert path == FromUserPath(StripSuffix(files[0].path, '\r'));
      }
    }
  }

  lemma {:induction false} LongestExists(paths: set<string>) returns (longest: string)
    requires paths != {}
    ensures longest in paths && forall path :: path in paths ==> |path| <= |longest|
    decreases |paths|
  {
    var path :| path in paths;
    longest := path;
    if paths != {path} {
      var rest := paths - {path};
      assert paths == rest + {path};
      var other := LongestExists(rest);
      if |other| > |path| { longest := other; }
    }
  }

  /** The longest path that ends in CR cannot come back: only a longer one could become it. */
  lemma LongestCrPathIsLost(snapshot: Snapshot, longest: string)
    requires Valid(snapshot)
    requires longest in snapshot.files && longest != "" && longest[|longest| - 1] == '\r'
    requires forall path :: path in snapshot.files && path != "" && path[|path| - 1] == '\r' ==> |path| <= |longest|
    ensures longest !in Reread(snapshot.files)
  {
    hide ValuesInOrder, FilesByPath, Renormalize, StripPaths, FromUserPath;
    var values := ValuesInOrder(snapshot.files);
    ValuesInOrderMembers(snapshot.files);
    if longest in FilesByPath(Renormalize(StripPaths(values))) {
      RereadMember(values, longest);
      var i :| 0 <= i < |values| && longest == FromUserPath(StripSuffix(values[i].path, '\r'));
      var source := values[i].path;
      FromUserPathSize(StripSuffix(source, '\r'));
      NormalizedIsFixed(source);
      assert false;
    }
  }

  lemma CrPathIsLost(snapshot: Snapshot, path: string)
    requires Valid(snapshot)
    requires path in snapshot.files && path != "" && path[|path| - 1] == '\r'
    ensures Reread(snapshot.files) != snapshot.files
  {
    var bad := set p | p in snapshot.files && p != "" && p[|p| - 1] == '\r';
    assert path in bad;
    var longest := LongestExists(bad);
    LongestCrPathIsLost(snapshot, longest);
  }

  predicate LfFreeKeys(loader: Loader)
  {
    forall path :: path in loader.files ==> '\n' !in path
  }

  lemma {:induction false} SplitNMembers(s: string, separator: char, n: nat, c: char)
    requires n >= 1 && c !in s
    ensures forall i :: 0 <= i < |SplitN(s, separator, n)| ==> c !in SplitN(s, separator, n)[i]
    decreases n
  {
    if n > 1 && separator in s { SplitNMembers(s[IndexOf(s, separator) + 1..], separator, n - 1, c); }
  }

  lemma LoadLineKeepsLfFree(loader: Loader, line: string)
    requires LfFreeKeys(loader) && '\n' !in line
    ensures LoadLine(loader, line).Ok? ==> LfFreeKeys(LoadLine(loader, line).value)
  {
    hide SplitN, FromUserPath, Unescape, ParseOrDefault;
    SplitNMembers(line, '\t', 3, '\n');
    var parts := SplitN(line, '\t', 3);
    FromUserPathMembers(line, '\n');
    FromUserPathMembers("", '\n');
    if |parts| >= 3 { FromUserPathMembers(parts[2], '\n'); }
  }

  lemma {:induction false} LoadLinesKeepLfFree(loader: Loader, lines: seq<string>)
    requires LfFreeKeys(loader) && AllLfFree(lines)
    ensures LoadLines(loader, lines).Ok? ==> LfFreeKeys(LoadLines(loader, lines).value)
    decreases |lines|
  {
    hide LoadLine;
    if lines != [] {
      LoadLineKeepsLfFree(loader, lines[0]);
      assert forall i :: 0 <= i < |lines[1..]| ==> lines[1..][i] == lines[i + 1];
      if LoadLine(loader, lines[0]).Ok? { LoadLinesKeepLfFree(LoadLine(loader, lines[0]).value, lines[1..]); }
    }
  }

  /** No loaded path contains LF, whatever the file holds. */
  lemma LoadedPathsAreLfFree(text: string)
    ensures Parse(text).Ok? ==> forall path :: path in Parse(text).value.files ==> '\n' !in path
  {
    hide LoadLine, StrLines;
    StrLinesHaveNoLf(text);
    LoadLinesKeepLfFree(START, StrLines(text));
  }

  predicate Printable(files: FileMap)
  {
    forall path :: path in files ==> IsPrintablePath(path)
  }

  /** Loading what was saved gives the files back exactly when every path is free of LF
      and does not end in CR; root and policy then come back too, whatever they contain. */
  lemma RoundTripIff(snapshot: Snapshot)
    requires Valid(snapshot)
    ensures Parse(Render(snapshot)) == Ok(snapshot) <==> Printable(snapshot.files)
    ensures Parse(Render(snapshot)).Ok? && Parse(Render(snapshot)).value.files == snapshot.files
            ==> Printable(snapshot.files)
  {
    hide ValuesInOrder, FilesByPath, Renormalize, StripPaths, Render, Parse;
    var values := ValuesInOrder(snapshot.files);
    if path :| path in snapshot.files && '\n' in path {
      LoadedPathsAreLfFree(Render(snapshot));
    } else {
      ParseRendered(snapshot);
      if Printable(snapshot.files) {
        ValuesInOrderMembers(snapshot.files);
        PrintableRecordsAreFixed(values);
        ValuesInOrderRebuild(snapshot.files);
      } else {
        var path :| path in snapshot.files && !IsPrintablePath(path);
        CrPathIsLost(snapshot, path);
      }
    }
  }

  // ---------------------------------------------------------------- order of policy records

  predicate IsPolicyRecord(line: string)
  {
    var parts := SplitN(line, '\t', 3);
    IsKey(parts, "scan_policy") || IsKey(parts, "exclude_name")
  }

  lemma LoadLineKeepsHeaded(loader: Loader, line: string)
    requires Headed(loader)
    ensures LoadLine(loader, line).Ok? ==> Headed(LoadLine(loader, line).value)
  {
  }

  lemma PolicyRecordCommutes(loader: Loader, policy: string, line: string)
    requires Headed(loader) && IsPolicyRecord(policy)
    ensures LoadLines(loader, [policy, line]) == LoadLines(loader, [line, policy])
  {
    TwoLines(loader, policy, line);
    TwoLines(loader, line, policy);
    SplitNOfEmpty();
    hide SplitN, Unescape, ParseRecord, LoadLines;
    var a, b := SplitN(policy, '\t', 3), SplitN(line, '\t', 3);
    if IsPolicyRecord(line) && |a| == 3 && |b| == 3 {
      assert loader.excluded + {Unescape(a[2])} + {Unescape(b[2])} == loader.excluded + {Unescape(b[2])} + {Unescape(a[2])};
    }
  }

  /** After the header a policy record can trade places with either neighbour: the load
      gives the same index, or is rejected, either way. */
  lemma PolicyOrderDoesNotMatter(before: seq<string>, policy: string, line: string, after: seq<string>)
    requires IsPolicyRecord(policy)
    ensures Finish(LoadLines(START, [HEADER] + before + [policy, line] + after))
         == Finish(LoadLines(START, [HEADER] + before + [line, policy] + after))
  {
    var headed := START.(firstLine := false, hasHeader := true);
    assert LoadLine(START, HEADER) == Ok(headed);
    hide LoadLine;
    SwapWithin(headed, before, policy, line, after);
    LoadOneThen(START, HEADER, before + [policy, line] + after);
    LoadOneThen(START, HEADER, before + [line, policy] + after);
    assert [HEADER] + (before + [policy, line] + after) == [HEADER] + before + [policy, line] + after;
    assert [HEADER] + (before + [line, policy] + after) == [HEADER] + before + [line, policy] + after;
  }

  lemma SwapWithin(loader: Loader, before: seq<string>, policy: string, line: string, after: seq<string>)
    requires Headed(loader) && IsPolicyRecord(policy)
    ensures LoadLines(loader, before + [policy, line] + after) == LoadLines(loader, before + [line, policy] + after)
  {
    hide LoadLine, LoadLines, IsPolicyRecord;
    LoadConcat(loader, before + [policy, line], after);
    LoadConcat(loader, before + [line, policy], after);
    LoadConcat(loader, before, [policy, line]);
    LoadConcat(loader, before, [line, policy]);
    LoadLinesKeepHeaded(loader, before);
    if LoadLines(loader, before).Ok? { PolicyRecordCommutes(LoadLines(loader, before).value, policy, line); }
  }

  lemma {:induction false} LoadLinesKeepHeaded(loader: Loader, lines: seq<string>)
    requires Headed(loader)
    ensures LoadLines(loader, lines).Ok? ==> Headed(LoadLines(loader, lines).value)
    decreases |lines|
  {
    hide LoadLine;
    if lines != [] {
      LoadLineKeepsHeaded(loader, lines[0]);
      if LoadLine(loader, lines[0]).Ok? { LoadLinesKeepHeaded(LoadLine(loader, lines[0]).value, lines[1..]); }
    }
  }

  lemma SplitNOfEmpty()
    ensures SplitN("", '\t', 3) == [""]
  {
  }

  lemma TwoLines(loader: Loader, first: string, second: string)
    ensures LoadLines(loader, [first, second])
         == match LoadLine(loader, first) { case Err(e) => Err(e) case Ok(next) => LoadLine(next, second) }
  {
    hide LoadLine;
    assert [first, second][1..] == [second];
    assert [second][1..] == [];
    if LoadLine(loader, first).Ok? {
      var next := LoadLine(loader, first).value;
      assert LoadLines(next, [second]) == LoadLine(next, second);
    }
  }
}
