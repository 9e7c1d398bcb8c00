/** The index file: what `save_with` prints and what `from_reader` loads
    (crates/indexer/src/store.rs, 192-266, 404-443, 560-634). */
module SnapshotText {
  import opened Text
  import opened PathId
  import opened Records
  import opened Metadata

  const HEADER := "aifs-index-v1"

  /** A loaded index: files by path, recorded root, known scan policy. */
  datatype Snapshot = Snapshot(files: FileMap, root: Option<string>, policy: Option<set<string>>)

  const EMPTY := Snapshot(map[], None, None)

  datatype LoadError = InvalidScanPolicy

  /** What the store's own operations keep: keys are the records' normalised paths. */
  ghost predicate Valid(snapshot: Snapshot)
  {
    && KeyedByPath(snapshot.files)
    && forall path :: path in snapshot.files ==> IsNormalized(path)
  }

  // ---------------------------------------------------------------- printing

  function RecordLine(file: IndexedFile): string
  {
    ShowNumber(file.size) + "\t" + ShowNumber(file.modified) + "\t" + file.path
  }

  function MetadataLine(key: string, value: string): string
  {
    "meta\t" + key + "\t" + Escape(value)
  }

  function RecordLines(files: seq<IndexedFile>): seq<string>
  {
    if files == [] then [] else [RecordLine(files[0])] + RecordLines(files[1..])
  }

  function ExclusionLines(names: seq<string>): seq<string>
  {
    if names == [] then [] else [MetadataLine("exclude_name", names[0])] + ExclusionLines(names[1..])
  }

  function RootLines(root: Option<string>): seq<string>
  {
    match root
    case None => []
    case Some(path) => [MetadataLine("root", path)]
  }

  function PolicyLines(policy: Option<set<string>>): seq<string>
  {
    match policy
    case None => []
    case Some(names) => [MetadataLine("scan_policy", "1")] + ExclusionLines(InOrder(names))
  }

  function LinesOf(snapshot: Snapshot): seq<string>
  {
    [HEADER] + RootLines(snapshot.root) + PolicyLines(snapshot.policy)
    + RecordLines(ValuesInOrder(snapshot.files))
  }

  function Unlines(lines: seq<string>): string
  {
    if lines == [] then "" else lines[0] + "\n" + Unlines(lines[1..])
  }

  function Render(snapshot: Snapshot): string
  {
    Unlines(LinesOf(snapshot))
  }

  /** The writing part of `save_with`. */
  method WriteSnapshot(snapshot: Snapshot) returns (output: string)
    ensures output == Render(snapshot)
  {
    hide Unlines, ExclusionLines, RecordLines, ValuesInOrder, InOrder;
    output := HEADER + "\n";
    OneLine(HEADER);
    ghost var written := [HEADER];
    if snapshot.root.Some? {
      output := WriteLineOf(output, written, "root", snapshot.root.value);
    }
    assert snapshot.root.None? ==> written + RootLines(snapshot.root) == written;
    written := written + RootLines(snapshot.root);
    if snapshot.policy.Some? {
      output := WriteLineOf(output, written, "scan_policy", "1");
      ghost var marked := written + [MetadataLine("scan_policy", "1")];
      var names := InOrder(snapshot.policy.value);
      output := WriteExclusions(output, marked, names);
      assert marked + ExclusionLines(names) == written + PolicyLines(snapshot.policy);
    }
    assert snapshot.policy.None? ==> written + PolicyLines(snapshot.policy) == written;
    written := written + PolicyLines(snapshot.policy);
    output := WriteRecords(output, written, ValuesInOrder(snapshot.files));
  }

  method WriteExclusions(output: string, ghost lines: seq<string>, names: seq<string>) returns (written: string)
    requires output == Unlines(lines)
    ensures written == Unlines(lines + ExclusionLines(names))
  {
    hide Unlines;
    written := output;
    ghost var done := lines;
    for i := 0 to |names|
      invariant written == Unlines(done)
      invariant done + ExclusionLines(names[i..]) == lines + ExclusionLines(names)
    {
      assert names[i..][1..] == names[i + 1..];
      written := WriteLineOf(written, done, "exclude_name", names[i]);
      done := done + [MetadataLine("exclude_name", names[i])];
    }
    assert done == lines + ExclusionLines(names);
  }

  method WriteRecords(output: string, ghost lines: seq<string>, files: seq<IndexedFile>) returns (written: string)
    requires output == Unlines(lines)
    ensures written == Unlines(lines + RecordLines(files))
  {
    hide Unlines, RecordLine;
    written := output;
    ghost var done := lines;
    for i := 0 to |files|
      invariant written == Unlines(done)
      invariant done + RecordLines(files[i..]) == lines + RecordLines(files)
    {
      assert files[i..][1..] == files[i + 1..];
      UnlinesSnoc(done, RecordLine(files[i]));
      written := written + RecordLine(files[i]) + "\n";
      done := done + [RecordLine(files[i])];
    }
    assert done == lines + RecordLines(files);
  }

  lemma OneLine(line: string)
    ensures Unlines([line]) == line + "\n"
  {
  }

  method WriteLineOf(output: string, ghost lines: seq<string>, key: string, value: string) returns (written: string)
    requires output == Unlines(lines)
    ensures written == Unlines(lines + [MetadataLine(key, value)])
  {
    hide Escape, Unlines;
    written := WriteMetadataRecord(output, key, value);
    UnlinesSnoc(lines, MetadataLine(key, value));
    assert written == output + MetadataLine(key, value) + "\n";
  }

  lemma {:induction false} UnlinesSnoc(lines: seq<string>, line: string)
    ensures Unlines(lines + [line]) == Unlines(lines) + line + "\n"
  {
    if lines == [] {
      assert lines + [line] == [line];
      assert Unlines([line]) == line + "\n" + Unlines([]);
    } else {
      UnlinesSnoc(lines[1..], line);
      assert (lines + [line])[1..] == lines[1..] + [line];
    }
  }

  // ---------------------------------------------------------------- loading

  datatype Loader = Loader(
    files: FileMap, root: Option<string>, policySeen: bool, exclusionsSeen: bool, excluded: set<string>,
    firstLine: bool, hasHeader: bool)

  const START := Loader(map[], None, false, false, {}, true, false)

  function Upsert(loader: Loader, file: IndexedFile): Loader
  {
    loader.(files := loader.files[file.path := file])
  }

  /** `parse_index_record` under a header. */
  function ParseRecord(line: string): IndexedFile
  {
    var parts := SplitN(line, '\t', 3);
    IndexedFile(if |parts| >= 3 then FromUserPath(parts[2]) else FromUserPath(""),
                ParseOrDefault(parts[0]),
                if |parts| >= 2 then ParseOrDefault(parts[1]) else 0)
  }

  predicate IsKey(parts: seq<string>, key: string)
  {
    |parts| >= 2 && parts[0] == "meta" && parts[1] == key
  }

  function LoadRecord(loader: Loader, line: string): Result<Loader, LoadError>
  {
    var parts := SplitN(line, '\t', 3);
    if IsKey(parts, "scan_policy") then
      if loader.policySeen || |parts| < 3 || parts[2] != "1" then Err(InvalidScanPolicy)
      else Ok(loader.(policySeen := true))
    else if IsKey(parts, "exclude_name") then
      if |parts| < 3 then Err(InvalidScanPolicy)
      else Ok(loader.(exclusionsSeen := true, excluded := loader.excluded + {Unescape(parts[2])}))
    else if IsKey(parts, "root") && |parts| == 3 then
      Ok(loader.(root := Some(Unescape(parts[2]))))
    else if "meta\t" <= line then Ok(loader)
    else Ok(Upsert(loader, ParseRecord(line)))
  }

  function LoadLine(loader: Loader, line: string): Result<Loader, LoadError>
  {
    var header := loader.firstLine && line == HEADER;
    var loader' := if loader.firstLine then loader.(firstLine := false, hasHeader := header) else loader;
    if header || line == "" then Ok(loader')
    else if loader'.hasHeader then LoadRecord(loader', line)
    else Ok(Upsert(loader', IndexedFile(FromUserPath(line), 0, 0)))
  }

  function LoadLines(loader: Loader, lines: seq<string>): Result<Loader, LoadError>
    decreases |lines|
  {
    if lines == [] then Ok(loader)
    else
      match LoadLine(loader, lines[0])
      case Err(error) => Err(error)
      case Ok(next) => LoadLines(next, lines[1..])
  }

  function Finish(result: Result<Loader, LoadError>): Result<Snapshot, LoadError>
  {
    match result
    case Err(error) => Err(error)
    case Ok(loader) =>
      if loader.exclusionsSeen && !loader.policySeen then Err(InvalidScanPolicy)
      else Ok(Snapshot(loader.files, loader.root, if loader.policySeen then Some(loader.excluded) else None))
  }

  /** Loading as a fold over `str::lines` of the whole text. */
  function Parse(text: string): Result<Snapshot, LoadError>
  {
    Finish(LoadLines(START, StrLines(text)))
  }

  /** `BufRead` over a text. */
  class LineReader {
    const text: string
    var position: nat

    constructor (text: string)
      ensures this.text == text && position == 0
    {
      this.text := text;
      position := 0;
    }

    /** `read_line`: through the next LF, or to the end; empty at the end. */
    method ReadLine() returns (line: string)
      requires position <= |text|
      modifies this
      ensures position == old(position) + |line| && position <= |text|
      ensures text[old(position)..] == line + text[position..]
      ensures line == "" <==> old(position) == |text|
      ensures line != "" && line[|line| - 1] != '\n' ==> position == |text|
      ensures line != "" ==> '\n' !in line[..|line| - 1]
    {
      var start := position;
      while position < |text|
        invariant start <= position <= |text|
        invariant '\n' !in text[start..position]
        decreases |text| - position
      {
        position := position + 1;
        if text[position - 1] == '\n' {
          line := text[start..position];
          assert line[..|line| - 1] == text[start..position - 1];
          return;
        }
        assert text[start..position] == text[start..position - 1] + [text[position - 1]];
      }
      line := text[start..position];
    }
  }

  /** `from_reader`: one reused line buffer, one pass. */
  method FromReader(reader: LineReader) returns (result: Result<Snapshot, LoadError>)
    requires reader.position == 0
    modifies reader
    ensures result == Parse(reader.text)
    ensures result.Ok? ==> reader.position == |reader.text|
  {
    hide LoadLine;
    var loader := START;
    assert reader.text[0..] == reader.text;
    while true
      invariant reader.position <= |reader.text|
      invariant LoadLines(loader, StrLines(reader.text[reader.position..])) == LoadLines(START, StrLines(reader.text))
      decreases |reader.text| - reader.position
    {
      ghost var remaining := reader.text[reader.position..];
      var line := reader.ReadLine();
      if line == "" { break; }
      ghost var rest := reader.text[reader.position..];
      FirstLine(line, rest);
      line := StripLineEnding(line);
      match LoadLine(loader, line) {
        case Err(error) => return Err(error);
        case Ok(next) => loader := next;
      }
    }
    assert reader.text[reader.position..] == "";
    result := Finish(Ok(loader));
  }

  function StripLineEnding(line: string): string
  {
    if line != "" && line[|line| - 1] == '\n' then StripSuffix(line[..|line| - 1], '\r') else line
  }

  lemma FirstLine(line: string, rest: string)
    requires line != "" && '\n' !in line[..|line| - 1]
    requires line[|line| - 1] != '\n' ==> rest == ""
    ensures StrLines(line + rest) == [StripLineEnding(line)] + StrLines(rest)
  {
    hide StrLines, StripSuffix;
    if line[|line| - 1] == '\n' {
      var body := line[..|line| - 1];
      StrLinesCons(body, rest);
      assert line + rest == body + "\n" + rest;
    } else {
      assert line == line[..|line| - 1] + [line[|line| - 1]];
      assert line + rest == line;
      StrLinesLast(line);
    }
  }
}
