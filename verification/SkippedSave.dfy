/** `publish_comparison` with `save_only_if_changed` (crates/daemon/src/lib.rs, 1121-1139):
    when skipping the save of an unchanged index is as good as saving it. */
module SkippedSave {
  import opened Text
  import opened PathId
  import opened Records
  import opened Comparison
  import opened SnapshotText
  import opened RoundTrip
  import opened Scanner
  import opened Refresh
  import opened RefreshTheorems

  /** In memory: with nothing changed, the index a save would write is the one that was loaded
      exactly when a root is already recorded. */
  lemma SkippedSaveIffRootRecorded(env: Environment, snapshot: Snapshot, request: Request, artifacts: Artifacts)
    requires KeyedByPath(snapshot.files)
    requires ScanAndCompare(env, snapshot, request, artifacts).Ok?
    requires !ScanAndCompare(env, snapshot, request, artifacts).value.summary.HasChanges()
    ensures Published(snapshot, ScanAndCompare(env, snapshot, request, artifacts).value) == snapshot
       <==> snapshot.root.Some?
    ensures Published(snapshot, ScanAndCompare(env, snapshot, request, artifacts).value).(root := None)
         == snapshot.(root := None)
  {
    var comparison := ScanAndCompare(env, snapshot, request, artifacts).value;
    hide Difference, ScanRoot, SameRootPath;
    FilesByPathKeyed(comparison.files);
    hide FilesByPath;
    NoChangesIffSameFiles(snapshot.files, FilesByPath(comparison.files));
  }

  /** The case that differs: an index without a recorded root, unchanged files. */
  lemma SkippedSaveLosesRoot()
    ensures exists env: Environment, snapshot: Snapshot, request: Request, artifacts: Artifacts ::
              && ScanAndCompare(env, snapshot, request, artifacts).Ok?
              && !ScanAndCompare(env, snapshot, request, artifacts).value.summary.HasChanges()
              && Published(snapshot, ScanAndCompare(env, snapshot, request, artifacts).value) != snapshot
  {
    var env := Environment(map["r" := "r"], map["r" := (["r"], Directory([]))]);
    var request := Request(Some("r"), None);
    var artifacts := Artifacts(["index"], {});
    assert Walk([], []) == [];
    assert ScanResult(Scope({}, ["r"], artifacts), Directory([])) == Some([]);
    assert ScanRoot(env, {}, "r", artifacts) == Some([]);
    NothingChanged(map[]);
    assert FilesByPath([]) == map[];
    var comparison := ScanComparison("r", [], RefreshSummary(0, 0, 0, 0));
    assert CompareScan(env, EMPTY, {}, "r", artifacts) == Ok(comparison);
    assert ScanAndCompare(env, EMPTY, request, artifacts) == Ok(comparison);
    assert Published(EMPTY, comparison).root != EMPTY.root;
  }

  // ---------------------------------------------------------------- on disk

  /** On disk: what the skipped save would have written loads as the index that is there now
      if and only if a root is recorded and every path survives a save. */
  lemma SkippedSaveOnDiskIff(env: Environment, text: Option<string>, request: Request, artifacts: Artifacts)
    requires OpenText(text).Ok? && ScanAndCompare(env, OpenText(text).value, request, artifacts).Ok?
    requires !ScanAndCompare(env, OpenText(text).value, request, artifacts).value.summary.HasChanges()
    ensures var snapshot := OpenText(text).value;
            var comparison := ScanAndCompare(env, snapshot, request, artifacts).value;
            (OpenText(Some(Render(Published(snapshot, comparison)))) == OpenText(text)
             <==> snapshot.root.Some? && Printable(snapshot.files))
  {
    var snapshot := OpenText(text).value;
    LoadedIsKeyed(text);
    SkippedSaveIffRootRecorded(env, snapshot, request, artifacts);
    PublishedIsValidScan(env, snapshot, request, artifacts);
    hide Render, Parse, Printable, Valid, ScanAndCompare, KeyedByPath;
    RoundTripIff(Published(snapshot, ScanAndCompare(env, snapshot, request, artifacts).value));
  }

  lemma PublishedIsValidScan(env: Environment, snapshot: Snapshot, request: Request, artifacts: Artifacts)
    requires ScanAndCompare(env, snapshot, request, artifacts).Ok?
    ensures Valid(Published(snapshot, ScanAndCompare(env, snapshot, request, artifacts).value))
  {
    hide Difference, ScanRoot, SameRootPath, Valid, FilesByPath;
    var root := IndexRoot(env, snapshot.root, request.root).value;
    var excluded := ResolveScanOptions(snapshot.policy, request.excluded).value;
    ScannedIsValid(env, excluded, root, artifacts, snapshot);
  }

  // ---------------------------------------------------------------- the other failing input

  lemma {:induction false} UnterminatedLines(lines: seq<string>, last: string)
    requires Plain(lines) && last != "" && '\n' !in last
    ensures StrLines(Unlines(lines) + last) == lines + [last]
    decreases |lines|
  {
    if lines == [] {
      StrLinesLast(last);
      assert "" + last == last;
    } else {
      assert Unlines(lines) == lines[0] + "\n" + Unlines(lines[1..]);
      hide StrLines, Unlines, StripSuffix;
      UnterminatedLines(lines[1..], last);
      StrLinesCons(lines[0], Unlines(lines[1..]) + last);
      Associate(lines[0] + "\n", Unlines(lines[1..]), last);
      Associate([lines[0]], lines[1..], [last]);
      assert [lines[0]] + lines[1..] == lines;
    }
  }

  /** An index with a root and one record, the last line unterminated. */
  function OneRecordText(root: string, file: IndexedFile): string
  {
    Unlines(FrontLines(Snapshot(map[], Some(root), None))) + RecordLine(file)
  }

  lemma OneRecordLoads(root: string, file: IndexedFile)
    requires '\n' !in file.path && FromUserPath(file.path) == file.path
    ensures Parse(OneRecordText(root, file)) == Ok(Snapshot(map[file.path := file], Some(root), None))
  {
    hide StrLines, FromUserPath, FrontLines, ParseRecord, SplitN;
    var snapshot := Snapshot(map[], Some(root), None);
    FrontLinesArePlain(snapshot);
    RecordLineEnd(file);
    RecordLineParses(file);
    UnterminatedLines(FrontLines(snapshot), RecordLine(file));
    LoadFrontLines(snapshot);
    var headed := START.(firstLine := false, hasHeader := true, root := Some(root));
    assert LoadLine(headed, RecordLine(file)) == Ok(Upsert(headed, file));
    LoadOneThen(headed, RecordLine(file), []);
    assert [RecordLine(file)] + [] == [RecordLine(file)];
    LoadConcat(START, FrontLines(snapshot), [RecordLine(file)]);
  }

  /** Nothing has changed, yet what the skipped save would have written loads differently. */
  predicate SkippingDiffers(env: Environment, text: Option<string>, request: Request, artifacts: Artifacts)
  {
    OpenText(text).Ok? && ScanAndCompare(env, OpenText(text).value, request, artifacts).Ok?
    && var snapshot := OpenText(text).value;
       var comparison := ScanAndCompare(env, snapshot, request, artifacts).value;
       !comparison.summary.HasChanges() && OpenText(Some(Render(Published(snapshot, comparison)))) != OpenText(text)
  }

  lemma UnprintableDiffers(
      env: Environment, text: Option<string>, request: Request, artifacts: Artifacts, snapshot: Snapshot, comparison: ScanComparison)
    requires OpenText(text) == Ok(snapshot) && ScanAndCompare(env, snapshot, request, artifacts) == Ok(comparison)
    requires !comparison.summary.HasChanges() && !Printable(snapshot.files)
    ensures SkippingDiffers(env, text, request, artifacts)
  {
    hide OpenText, Render, ScanAndCompare, Printable, Published;
    SkippedSaveOnDiskIff(env, text, request, artifacts);
  }

  /** The second input that differs: a root is recorded, nothing has changed, but the last
      line is unterminated and ends in CR. Skipping keeps the path, saving loses its CR. */
  lemma SkippedSaveKeepsCr()
    ensures exists env: Environment, text: Option<string>, request: Request, artifacts: Artifacts ::
              SkippingDiffers(env, text, request, artifacts) && OpenText(text).Ok? && OpenText(text).value.root.Some?
  {
    hide FromUserPath, Join, Parse, OneRecordText, Printable, ScanAndCompare, SkippingDiffers;
    var file := IndexedFile("z\r", 0, 0);
    var env := Environment(map["r" := "r"], map["r" := (["r"], Directory([Child("z\r", File(0, 0))]))]);
    var snapshot := Snapshot(map["z\r" := file], Some("r"), None);
    CrNameIsNormalized();
    OneRecordLoads("r", file);
    var text := Some(OneRecordText("r", file));
    CrIsUnchanged(env, file, snapshot);
    CrIsNotPrintable(snapshot.files, "z\r");
    UnprintableDiffers(env, text, Request(None, None), Artifacts(["index"], {}), snapshot,
                       ScanComparison("r", [file], RefreshSummary(0, 0, 0, 1)));
  }

  lemma CrIsUnchanged(env: Environment, file: IndexedFile, snapshot: Snapshot)
    requires snapshot == Snapshot(map["z\r" := file], Some("r"), None) && file == IndexedFile("z\r", 0, 0)
    requires env == Environment(map["r" := "r"], map["r" := (["r"], Directory([Child("z\r", File(0, 0))]))])
    ensures ScanAndCompare(env, snapshot, Request(None, None), Artifacts(["index"], {}))
         == Ok(ScanComparison("r", [file], RefreshSummary(0, 0, 0, 1)))
  {
    var artifacts := Artifacts(["index"], {});
    ScanOfOneFile(artifacts, file);
    hide ScanResult;
    assert ScanRoot(env, {}, "r", artifacts) == Some([file]);
    hide ScanRoot;
    OneFileMap(file);
    NothingChanged(map["z\r" := file]);
    hide Difference, FilesByPath;
  }

  lemma CrNameIsNormalized()
    ensures FromUserPath("z\r") == "z\r" && Join(["z\r"], '/') == "z\r"
  {
    assert ReplaceChar("z\r", '\\', '/') == "z\r";
  }

  lemma OneFileMap(file: IndexedFile)
    ensures FilesByPath([file]) == map[file.path := file]
  {
    assert [file][..0] == [];
  }

  lemma CrIsNotPrintable(files: FileMap, path: string)
    requires path in files && path != "" && path[|path| - 1] == '\r'
    ensures !Printable(files)
  {
    assert !IsPrintablePath(path);
  }

  lemma ScanOfOneFile(artifacts: Artifacts, file: IndexedFile)
    requires artifacts == Artifacts(["index"], {}) && file == IndexedFile("z\r", 0, 0)
    ensures ScanResult(Scope({}, ["r"], artifacts), Directory([Child("z\r", File(0, 0))])) == Some([file])
  {
    CrNameIsNormalized();
    var entry := Entry(["z\r"], 0, 0);
    var children := [Child("z\r", File(0, 0))];
    assert [] + ["z\r"] == ["z\r"] && children[1..] == [];
    assert Walk([], children) == [entry];
    assert ToRecord(entry) == file;
    hide FromUserPath;
    assert !artifacts.Excludes(["r"] + ["z\r"]);
    assert Kept(Scope({}, ["r"], artifacts), 0, [entry]) == [entry];
    assert ToRecords([entry]) == [file];
    assert Sorted([file]) == [file];
  }
}
