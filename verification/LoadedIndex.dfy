/** What an index text means, record by record (crates/indexer/src/store.rs, 192-266 and
    556-634), without the loader's loop: which lines count for what, which texts are
    rejected, and what the fields of a line are. */
module LoadedIndex {
  import opened Text
  import opened PathId
  import opened Records
  import opened Metadata
  import opened SnapshotText
  import opened RoundTrip

  // ---------------------------------------------------------------- lines

  /** A metadata line with this key, with or without a value. */
  predicate IsMeta(line: string, key: string)
  {
    line == "meta\t" + key || "meta\t" + key + "\t" <= line
  }

  predicate HasValue(line: string, key: string)
  {
    "meta\t" + key + "\t" <= line
  }

  function ValueOf(line: string, key: string): string
    requires HasValue(line, key)
  {
    line[|"meta\t" + key + "\t"|..]
  }

  /** Neither empty nor metadata. */
  predicate IsRecord(line: string)
  {
    line != "" && !("meta\t" <= line)
  }

  lemma {:induction false} MetaSplits(line: string, key: string)
    requires '\t' !in key
    ensures var parts := SplitN(line, '\t', 3);
      && (IsKey(parts, key) <==> IsMeta(line, key))
      && (IsMeta(line, key) ==> (|parts| == 3 <==> HasValue(line, key)))
      && (HasValue(line, key) ==> parts[2] == ValueOf(line, key))
  {
    hide SplitN, IndexOf;
    if HasValue(line, key) {
      var value := ValueOf(line, key);
      assert line == "meta" + ['\t'] + (key + ['\t'] + value);
      SplitNCons("meta", '\t', key + ['\t'] + value, 3);
      SplitNCons(key, '\t', value, 2);
      SplitNOnce(value, '\t');
    } else if line == "meta\t" + key {
      assert line == "meta" + ['\t'] + key;
      SplitNCons("meta", '\t', key, 3);
      SplitNPlain(key, '\t', 2);
    } else if IsKey(SplitN(line, '\t', 3), key) {
      SplitsBack(line, key);
    }
  }

  lemma SplitsBack(line: string, key: string)
    requires IsKey(SplitN(line, '\t', 3), key)
    ensures IsMeta(line, key)
  {
    hide SplitN, IndexOf;
    var rest := SplitNRest(line, '\t', 3);
    if |SplitN(rest, '\t', 2)| == 1 {
      SplitNWhole(rest, '\t', 2);
    } else {
      var value := SplitNRest(rest, '\t', 2);
      assert line == "meta\t" + key + "\t" + value;
    }
  }

  lemma SplitNRest(s: string, separator: char, n: nat) returns (rest: string)
    requires n >= 2 && |SplitN(s, separator, n)| >= 2
    ensures s == SplitN(s, separator, n)[0] + [separator] + rest
    ensures SplitN(rest, separator, n - 1) == SplitN(s, separator, n)[1..]
  {
    rest := s[IndexOf(s, separator) + 1..];
  }

  lemma SplitNWhole(s: string, separator: char, n: nat)
    requires n >= 1 && |SplitN(s, separator, n)| == 1
    ensures SplitN(s, separator, n) == [s]
  {
  }

  lemma SplitNOnce(s: string, separator: char)
    ensures SplitN(s, separator, 1) == [s]
  {
  }

  lemma SplitNPlain(s: string, separator: char, n: nat)
    requires n >= 1 && separator !in s
    ensures SplitN(s, separator, n) == [s]
  {
  }

  /** One line below the header, by what it starts with. */
  lemma LineMeans(loader: Loader, line: string)
    requires Headed(loader)
    ensures LoadLine(loader, line)
         == if line == "" then Ok(loader)
            else if IsMeta(line, "scan_policy") then
              if loader.policySeen || line != "meta\tscan_policy\t1" then Err(InvalidScanPolicy) else Ok(loader.(policySeen := true))
            else if IsMeta(line, "exclude_name") then
              if !HasValue(line, "exclude_name") then Err(InvalidScanPolicy)
              else Ok(loader.(exclusionsSeen := true, excluded := loader.excluded + {Unescape(ValueOf(line, "exclude_name"))}))
            else if HasValue(line, "root") then Ok(loader.(root := Some(Unescape(ValueOf(line, "root")))))
            else if "meta\t" <= line then Ok(loader)
            else Ok(Upsert(loader, ParseRecord(line)))
  {
    MetaSplits(line, "scan_policy");
    MetaSplits(line, "exclude_name");
    MetaSplits(line, "root");
    PolicyValue(line);
    hide SplitN, Unescape, ParseRecord, IsMeta;
    assert HasValue(line, "root") ==> IsMeta(line, "root") by { MetaIsMeta(line); }
  }

  lemma MetaIsMeta(line: string)
    ensures HasValue(line, "root") ==> IsMeta(line, "root")
  {
  }

  lemma PolicyValue(line: string)
    ensures line == "meta\tscan_policy\t1" <==> HasValue(line, "scan_policy") && ValueOf(line, "scan_policy") == "1"
  {
    var prefix := "meta\t" + "scan_policy" + "\t";
    assert prefix + "1" == "meta\tscan_policy\t1";
    if HasValue(line, "scan_policy") { assert line == prefix + ValueOf(line, "scan_policy"); }
    if line == "meta\tscan_policy\t1" { assert line[|prefix|..] == "1"; }
  }

  // ---------------------------------------------------------------- a whole text

  /** The record lines, in order, as records. */
  function RecordsIn(lines: seq<string>): seq<IndexedFile>
  {
    if lines == [] then []
    else (if IsRecord(lines[0]) then [ParseRecord(lines[0])] else []) + RecordsIn(lines[1..])
  }

  function ExclusionsIn(lines: seq<string>): set<string>
  {
    set i | 0 <= i < |lines| && HasValue(lines[i], "exclude_name") :: Unescape(ValueOf(lines[i], "exclude_name"))
  }

  predicate Mentions(lines: seq<string>, key: string)
  {
    exists i :: 0 <= i < |lines| && IsMeta(lines[i], key)
  }

  /** The value of the last root record, if there is one. */
  function LastRoot(lines: seq<string>): Option<string>
  {
    if lines == [] then None
    else if HasValue(lines[|lines| - 1], "root") then Some(Unescape(ValueOf(lines[|lines| - 1], "root")))
    else LastRoot(lines[..|lines| - 1])
  }

  /** A policy record that is not version 1, a second policy record, an exclusion without a
      name. `seen`: there has been a policy record already. */
  predicate IsMalformed(seen: bool, lines: seq<string>)
  {
    (exists i :: 0 <= i < |lines| && IsMeta(lines[i], "scan_policy") && lines[i] != "meta\tscan_policy\t1")
    || (exists i :: 0 <= i < |lines| && lines[i] == "meta\texclude_name")
    || (exists i, j :: 0 <= i < j < |lines| && IsMeta(lines[i], "scan_policy") && IsMeta(lines[j], "scan_policy"))
    || (seen && Mentions(lines, "scan_policy"))
  }

  /** Folding the loader over well-formed lines, from any loader below the header. */
  function Loaded(loader: Loader, lines: seq<string>): Loader
  {
    loader.(files := loader.files + FilesByPath(RecordsIn(lines)),
            root := if LastRoot(lines).Some? then LastRoot(lines) else loader.root,
            policySeen := loader.policySeen || Mentions(lines, "scan_policy"),
            exclusionsSeen := loader.exclusionsSeen || Mentions(lines, "exclude_name"),
            excluded := loader.excluded + ExclusionsIn(lines))
  }

  lemma RecordsInSnoc(lines: seq<string>, line: string)
    ensures RecordsIn(lines + [line]) == RecordsIn(lines) + if IsRecord(line) then [ParseRecord(line)] else []
    decreases |lines|
  {
    hide IsRecord, ParseRecord;
    if lines == [] {
      assert lines + [line] == [line];
      assert [line][1..] == [];
    } else {
      assert (lines + [line])[1..] == lines[1..] + [line];
      RecordsInSnoc(lines[1..], line);
      Associate(if IsRecord(lines[0]) then [ParseRecord(lines[0])] else [], RecordsIn(lines[1..]),
                if IsRecord(line) then [ParseRecord(line)] else []);
    }
  }

  lemma MentionsSnoc(lines: seq<string>, line: string, key: string)
    ensures Mentions(lines + [line], key) <==> Mentions(lines, key) || IsMeta(line, key)
  {
    hide IsMeta;
    var all := lines + [line];
    if i :| 0 <= i < |lines| && IsMeta(lines[i], key) { assert all[i] == lines[i]; }
    if IsMeta(line, key) { assert all[|lines|] == line; }
  }

  lemma ExclusionsSnoc(lines: seq<string>, line: string)
    ensures ExclusionsIn(lines + [line])
         == ExclusionsIn(lines) + if HasValue(line, "exclude_name") then {Unescape(ValueOf(line, "exclude_name"))} else {}
  {
    hide Unescape;
    var all := lines + [line];
    assert forall i :: 0 <= i < |lines| ==> all[i] == lines[i];
    assert all[|lines|] == line;
  }

  lemma LastRootSnoc(lines: seq<string>, line: string)
    ensures LastRoot(lines + [line]) == if HasValue(line, "root") then Some(Unescape(ValueOf(line, "root"))) else LastRoot(lines)
  {
    var all := lines + [line];
    assert all[|all| - 1] == line && all[..|all| - 1] == lines;
  }

  lemma MalformedSnoc(seen: bool, lines: seq<string>, line: string)
    ensures IsMalformed(seen, lines + [line])
       <==> IsMalformed(seen, lines)
            || (IsMeta(line, "scan_policy")
                && (seen || Mentions(lines, "scan_policy") || line != "meta\tscan_policy\t1"))
            || line == "meta\texclude_name"
  {
    hide IsMeta;
    var all := lines + [line];
    assert forall i :: 0 <= i < |lines| ==> all[i] == lines[i];
    assert all[|lines|] == line;
    MentionsSnoc(lines, line, "scan_policy");
  }

  lemma FilesSnoc(before: FileMap, records: seq<IndexedFile>, file: IndexedFile)
    ensures before + FilesByPath(records + [file]) == (before + FilesByPath(records))[file.path := file]
    ensures before + FilesByPath(records + []) == before + FilesByPath(records)
  {
    assert (records + [file])[..|records|] == records;
    assert records + [] == records;
  }

  /** The parts of a loader that a further line adds to, one by one. */
  lemma LoadedParts(loader: Loader, lines: seq<string>, line: string)
    ensures Loaded(loader, lines + [line]).files
         == if IsRecord(line) then Loaded(loader, lines).files[ParseRecord(line).path := ParseRecord(line)] else Loaded(loader, lines).files
    ensures Loaded(loader, lines + [line]).root
         == if HasValue(line, "root") then Some(Unescape(ValueOf(line, "root"))) else Loaded(loader, lines).root
    ensures Loaded(loader, lines + [line]).policySeen == (Loaded(loader, lines).policySeen || IsMeta(line, "scan_policy"))
    ensures Loaded(loader, lines + [line]).exclusionsSeen == (Loaded(loader, lines).exclusionsSeen || IsMeta(line, "exclude_name"))
    ensures Loaded(loader, lines + [line]).excluded
         == Loaded(loader, lines).excluded + if HasValue(line, "exclude_name") then {Unescape(ValueOf(line, "exclude_name"))} else {}
  {
    RecordsInSnoc(lines, line);
    MentionsSnoc(lines, line, "scan_policy");
    MentionsSnoc(lines, line, "exclude_name");
    ExclusionsSnoc(lines, line);
    LastRootSnoc(lines, line);
    FilesSnoc(loader.files, RecordsIn(lines), ParseRecord(line));
    hide RecordsIn, Mentions, ExclusionsIn, LastRoot, FilesByPath, ParseRecord, Unescape, IsMeta, HasValue, IsRecord;
    var more := if HasValue(line, "exclude_name") then {Unescape(ValueOf(line, "exclude_name"))} else {};
    assert loader.excluded + ExclusionsIn(lines) + more == loader.excluded + (ExclusionsIn(lines) + more);
  }

  lemma LoadedSnoc(loader: Loader, lines: seq<string>, line: string)
    requires Headed(loader)
    requires !(IsMeta(line, "scan_policy") && (Loaded(loader, lines).policySeen || line != "meta\tscan_policy\t1"))
    requires line != "meta\texclude_name"
    ensures LoadLine(Loaded(loader, lines), line) == Ok(Loaded(loader, lines + [line]))
  {
    LineMeans(Loaded(loader, lines), line);
    LoadedParts(loader, lines, line);
    KeysExclude(line);
    assert Headed(Loaded(loader, lines)) && Headed(Loaded(loader, lines + [line]));
    hide Loaded, LoadLine, ParseRecord, Unescape, IsMeta, HasValue, IsRecord;
    var now, next := Loaded(loader, lines), Loaded(loader, lines + [line]);
    assert now.excluded + {} == now.excluded;
  }

  /** A line is at most one of these. */
  lemma KeysExclude(line: string)
    ensures IsMeta(line, "scan_policy") ==> !IsMeta(line, "exclude_name") && !HasValue(line, "root") && !IsRecord(line) && line != ""
    ensures IsMeta(line, "exclude_name") ==> !HasValue(line, "root") && !IsRecord(line) && line != ""
    ensures HasValue(line, "root") ==> !IsRecord(line) && line != ""
    ensures HasValue(line, "exclude_name") ==> IsMeta(line, "exclude_name")
    ensures IsMeta(line, "exclude_name") && line != "meta\texclude_name" ==> HasValue(line, "exclude_name")
    ensures line != "" && !IsRecord(line) ==> "meta\t" <= line
    ensures IsRecord(line) ==> line != "" && !("meta\t" <= line)
  {
    if IsMeta(line, "scan_policy") { assert "meta\t" <= line && line[5] == 's'; }
    if IsMeta(line, "exclude_name") { assert "meta\t" <= line && line[5] == 'e'; }
    if HasValue(line, "root") { assert "meta\t" <= line && line[5] == 'r'; }
  }

  lemma {:induction false} LinesMean(loader: Loader, lines: seq<string>)
    requires Headed(loader)
    ensures LoadLines(loader, lines)
         == if IsMalformed(loader.policySeen, lines) then Err(InvalidScanPolicy) else Ok(Loaded(loader, lines))
    decreases |lines|
  {
    if lines == [] {
      NothingLoaded(loader);
    } else {
      var init, last := lines[..|lines| - 1], lines[|lines| - 1];
      assert lines == init + [last];
      LinesMean(loader, init);
      LoadConcat(loader, init, [last]);
      MalformedSnoc(loader.policySeen, init, last);
      OneLineLoads(Loaded(loader, init), last);
      hide LoadLines, LoadLine, IsMeta, IsMalformed, Mentions;
      if !IsMalformed(loader.policySeen, init) {
        if IsMalformed(loader.policySeen, lines) {
          LastIsMalformed(loader, init, last);
        } else {
          LoadedSnoc(loader, init, last);
        }
      }
    }
  }

  lemma LastIsMalformed(loader: Loader, init: seq<string>, last: string)
    requires Headed(loader)
    requires (IsMeta(last, "scan_policy") && (loader.policySeen || Mentions(init, "scan_policy") || last != "meta\tscan_policy\t1"))
             || last == "meta\texclude_name"
    ensures LoadLine(Loaded(loader, init), last) == Err(InvalidScanPolicy)
  {
    var loaded := Loaded(loader, init);
    assert loaded.policySeen == (loader.policySeen || Mentions(init, "scan_policy")) && Headed(loaded);
    hide Loaded, LoadLine, Mentions, ParseRecord, Unescape;
    LineMeans(loaded, last);
    KeysExclude(last);
    MetaNeedsValue(last);
    hide IsMeta, HasValue, IsRecord;
  }

  lemma MetaNeedsValue(line: string)
    ensures line == "meta\texclude_name" ==> IsMeta(line, "exclude_name") && !HasValue(line, "exclude_name")
  {
  }

  lemma OneLineLoads(loader: Loader, line: string)
    ensures LoadLines(loader, [line]) == LoadLine(loader, line)
  {
    hide LoadLine;
    assert [line][1..] == [];
  }

  lemma NothingLoaded(loader: Loader)
    ensures Loaded(loader, []) == loader && LoadLines(loader, []) == Ok(loader) && !IsMalformed(loader.policySeen, [])
  {
  }

  /** Below a header line: the text is rejected if and only if a policy record is malformed or
      repeated, an exclusion has no name, or there are exclusions without a policy record.
      Otherwise the files are the last-wins map of the record lines, the root is that of the
      last root record, and the policy, if there is a policy record, all excluded names. */
  lemma HeadedTextMeans(text: string, lines: seq<string>)
    requires StrLines(text) == ["aifs-index-v1"] + lines
    ensures Parse(text)
         == if IsMalformed(false, lines) || (Mentions(lines, "exclude_name") && !Mentions(lines, "scan_policy"))
            then Err(InvalidScanPolicy)
            else Ok(Snapshot(FilesByPath(RecordsIn(lines)), LastRoot(lines),
                             if Mentions(lines, "scan_policy") then Some(ExclusionsIn(lines)) else None))
  {
    var headed := START.(firstLine := false, hasHeader := true);
    assert LoadLine(START, "aifs-index-v1") == Ok(headed);
    hide LoadLine, IsMalformed, Mentions, LastRoot, ExclusionsIn, FilesByPath, RecordsIn, StrLines;
    LoadOneThen(START, "aifs-index-v1", lines);
    LinesMean(headed, lines);
    assert map[] + FilesByPath(RecordsIn(lines)) == FilesByPath(RecordsIn(lines));
    assert {} + ExclusionsIn(lines) == ExclusionsIn(lines);
  }

  // ---------------------------------------------------------------- without a header

  function LegacyRecords(lines: seq<string>): seq<IndexedFile>
  {
    if lines == [] then []
    else (if lines[0] != "" then [IndexedFile(FromUserPath(lines[0]), 0, 0)] else []) + LegacyRecords(lines[1..])
  }

  lemma {:induction false} LegacyLinesMean(loader: Loader, lines: seq<string>)
    requires !loader.firstLine && !loader.hasHeader
    ensures LoadLines(loader, lines) == Ok(loader.(files := loader.files + FilesByPath(LegacyRecords(lines))))
    decreases |lines|
  {
    hide FromUserPath;
    if lines == [] {
      assert loader.files + map[] == loader.files;
    } else {
      var file := IndexedFile(FromUserPath(lines[0]), 0, 0);
      var next := if lines[0] == "" then loader else Upsert(loader, file);
      LegacyLinesMean(next, lines[1..]);
      if lines[0] == "" {
        assert LegacyRecords(lines) == LegacyRecords(lines[1..]);
      } else {
        assert LegacyRecords(lines) == [file] + LegacyRecords(lines[1..]);
        FilesByPathCons(file, LegacyRecords(lines[1..]));
        MapUpdateThenMerge(loader.files, file.path, file, FilesByPath(LegacyRecords(lines[1..])));
      }
    }
  }

  /** A text that does not start with the header line is a list of paths: no sizes, no times,
      no root, no policy, and it is never rejected. */
  lemma LegacyTextMeans(text: string)
    requires StrLines(text) != [] ==> StrLines(text)[0] != "aifs-index-v1"
    ensures Parse(text) == Ok(Snapshot(FilesByPath(LegacyRecords(StrLines(text))), None, None))
  {
    hide StrLines, FromUserPath, FilesByPath;
    var lines := StrLines(text);
    if lines != [] {
      var after := START.(firstLine := false);
      LegacyLinesMean(after, lines);
      FirstLegacyLine(lines);
      assert map[] + FilesByPath(LegacyRecords(lines)) == FilesByPath(LegacyRecords(lines));
    } else {
      assert FilesByPath([]) == map[] by { NoRecords(); }
    }
  }

  lemma NoRecords()
    ensures FilesByPath([]) == map[]
  {
  }

  lemma FirstLegacyLine(lines: seq<string>)
    requires lines != [] && lines[0] != "aifs-index-v1"
    ensures LoadLines(START, lines) == LoadLines(START.(firstLine := false), lines)
  {
    hide FromUserPath;
  }

  // ---------------------------------------------------------------- fields

  /** The fields of a record line: size, modification time, path; the path keeps its tabs, a
      missing path is the empty one, and what is no 64-bit number counts as zero. */
  lemma RecordFields(size: string, modified: string, path: string)
    requires '\t' !in size && '\t' !in modified
    ensures ParseRecord(size + "\t" + modified + "\t" + path)
         == IndexedFile(FromUserPath(path), ParseOrDefault(size), ParseOrDefault(modified))
    ensures ParseRecord(size + "\t" + modified) == IndexedFile("", ParseOrDefault(size), ParseOrDefault(modified))
    ensures ParseRecord(size) == IndexedFile("", ParseOrDefault(size), 0)
  {
    EmptyPath();
    hide FromUserPath, ParseOrDefault, IndexOf, SplitN;
    assert size + "\t" + modified + "\t" + path == size + ['\t'] + (modified + ['\t'] + path);
    SplitNCons(size, '\t', modified + ['\t'] + path, 3);
    SplitNCons(modified, '\t', path, 2);
    SplitNOnce(path, '\t');
    assert size + "\t" + modified == size + ['\t'] + modified;
    SplitNCons(size, '\t', modified, 3);
    SplitNPlain(modified, '\t', 2);
    SplitNPlain(size, '\t', 3);
  }

  lemma EmptyPath()
    ensures FromUserPath("") == ""
  {
    FromUserPathJoinsSegments("");
    SegmentsAre("", '/', "", "");
  }

  /** The lines a save writes, spelled out. */
  lemma RenderingSpelled(snapshot: Snapshot)
    ensures Render(snapshot)
         == "aifs-index-v1\n"
            + (if snapshot.root.Some? then "meta\troot\t" + Escape(snapshot.root.value) + "\n" else "")
            + (if snapshot.policy.Some? then "meta\tscan_policy\t1\n" + Unlines(ExclusionLines(InOrder(snapshot.policy.value))) else "")
            + Unlines(RecordLines(ValuesInOrder(snapshot.files)))
  {
    hide ValuesInOrder, RecordLines, PolicyLines, RootLines, Unlines;
    var root, policy, records := RootLines(snapshot.root), PolicyLines(snapshot.policy), RecordLines(ValuesInOrder(snapshot.files));
    UnlinesConcat(["aifs-index-v1"] + root + policy, records);
    UnlinesConcat(["aifs-index-v1"] + root, policy);
    UnlinesConcat(["aifs-index-v1"], root);
    OneLine("aifs-index-v1");
    assert "aifs-index-v1" + "\n" == "aifs-index-v1\n";
    RootSpelled(snapshot.root);
    PolicySpelled(snapshot.policy);
    NothingSpelled();
    hide *;
  }

  lemma NothingSpelled()
    ensures Unlines([]) == ""
  {
  }

  lemma RootSpelled(root: Option<string>)
    ensures Unlines(RootLines(root)) == if root.Some? then "meta\troot\t" + Escape(root.value) + "\n" else ""
  {
    hide Escape;
    if root.Some? {
      OneLine(MetadataLine("root", root.value));
      assert "meta\t" + "root" + "\t" == "meta\troot\t";
    }
  }

  lemma PolicySpelled(policy: Option<set<string>>)
    ensures Unlines(PolicyLines(policy))
         == if policy.Some? then "meta\tscan_policy\t1\n" + Unlines(ExclusionLines(InOrder(policy.value))) else ""
  {
    if policy.Some? {
      EscapedOne();
      hide ExclusionLines, InOrder, Escape;
      OneLine(MetadataLine("scan_policy", "1"));
      assert MetadataLine("scan_policy", "1") + "\n" == "meta\tscan_policy\t1\n";
      UnlinesConcat([MetadataLine("scan_policy", "1")], ExclusionLines(InOrder(policy.value)));
    }
  }

  lemma EscapedOne()
    ensures Escape("1") == "1"
  {
  }

  lemma {:induction false} UnlinesConcat(a: seq<string>, b: seq<string>)
    ensures Unlines(a + b) == Unlines(a) + Unlines(b)
  {
    if a == [] {
      assert a + b == b;
    } else {
      assert (a + b)[1..] == a[1..] + b;
      UnlinesConcat(a[1..], b);
      Associate(a[0] + "\n", Unlines(a[1..]), Unlines(b));
    }
  }
}
