/** Publication of the index (crates/indexer/src/store.rs, 404-464, 511-547) and of the
    service state (crates/daemon/src/service.rs, 119-238): exclusive temporary, write,
    flush, sync, rename. Names point at inodes; open handles keep their inode. */
module Publication {
  import opened Text
  import opened Scanner
  import opened SnapshotText
  import opened Utf8

  type Inode = nat

  datatype IoError = AlreadyExists | InvalidInput | InvalidData | Failed

  /** Where the environment makes an operation fail. `kept` is how much of the text had
      reached the file by then; `unlink` makes the clean-up removal fail as well. */
  datatype Stage = NoStage | AtWrite(kept: nat) | AtFlush(kept: nat) | AtSync | AtReplace

  datatype Faults = Faults(create: set<nat>, stage: Stage, unlink: bool)

  class FileSystem {
    var names: map<Path, Inode>
    var directories: set<Path>
    var contents: map<Inode, string>
    var next: Inode

    constructor ()
      ensures Valid() && names == map[] && directories == {} && contents == map[]
    {
      names := map[];
      directories := {};
      contents := map[];
      next := 0;
    }

    ghost predicate Valid()
      reads this
    {
      && (forall path :: path in names ==> names[path] in contents && path !in directories)
      && (forall inode :: inode in contents ==> inode < next)
    }

    predicate Taken(path: Path)
      reads this
    {
      path in names || path in directories
    }

    /** `OpenOptions::create_new`. */
    method CreateNew(path: Path, fails: bool) returns (result: Result<Inode, IoError>)
      requires Valid()
      modifies this
      ensures Valid() && directories == old(directories)
      ensures result == if fails then Err(Failed) else if old(Taken(path)) then Err(AlreadyExists) else Ok(old(next))
      ensures result.Ok? ==> names == old(names)[path := old(next)] && contents == old(contents)[old(next) := ""]
                             && next == old(next) + 1
      ensures result.Err? ==> names == old(names) && contents == old(contents) && next == old(next)
    {
      if fails { return Err(Failed); }
      if Taken(path) { return Err(AlreadyExists); }
      names := names[path := next];
      contents := contents[next := ""];
      result := Ok(next);
      next := next + 1;
    }

    method WriteAll(inode: Inode, text: string)
      requires Valid() && inode in contents
      modifies this`contents
      ensures Valid() && contents == old(contents)[inode := old(contents)[inode] + text]
    {
      contents := contents[inode := contents[inode] + text];
    }

    /** `fs::rename`: the destination name switches inodes in one step. */
    method Rename(from: Path, to: Path, fails: bool) returns (ok: bool)
      requires Valid() && from in names && from != to
      modifies this`names
      ensures Valid()
      ensures ok <==> !fails && to !in directories
      ensures names == if ok then (old(names) - {from})[to := old(names)[from]] else old(names)
    {
      if fails || to in directories { return false; }
      names := (names - {from})[to := names[from]];
      ok := true;
    }

    method Unlink(path: Path, fails: bool)
      requires Valid()
      modifies this`names
      ensures Valid() && names == if fails then old(names) else old(names) - {path}
    {
      if !fails { names := names - {path}; }
    }
  }

  // ---------------------------------------------------------------- temporary names

  const ATTEMPTS := 32

  /** Which of the candidate names the creation loop ends up with. `retry`: a failure at a
      name that exists counts as a collision (the index); otherwise it is final (the state). */
  function CreationOutcome(taken: set<Path>, candidates: seq<Path>, failing: set<nat>, retry: bool, attempt: nat)
    : (outcome: Result<nat, IoError>)
    requires attempt <= |candidates|
    ensures outcome.Ok? ==> attempt <= outcome.value < |candidates| && candidates[outcome.value] !in taken
    decreases |candidates| - attempt
  {
    if attempt == |candidates| then Err(AlreadyExists)
    else if attempt in failing && !(retry && candidates[attempt] in taken) then Err(Failed)
    else if candidates[attempt] in taken then CreationOutcome(taken, candidates, failing, retry, attempt + 1)
    else Ok(attempt)
  }

  ghost function TakenNames(fs: FileSystem): set<Path>
    reads fs
  {
    fs.names.Keys + fs.directories
  }

  /** `create_temporary_file` and `create_state_temp_at`, over the names their counters yield. */
  method CreateTemporary(fs: FileSystem, candidates: seq<Path>, failing: set<nat>, retry: bool)
    returns (result: Result<(Path, Inode), IoError>, attempts: nat)
    requires fs.Valid() && |candidates| == ATTEMPTS
    modifies fs
    ensures fs.Valid() && fs.directories == old(fs.directories)
    ensures attempts <= ATTEMPTS
    ensures match CreationOutcome(old(TakenNames(fs)), candidates, failing, retry, 0)
            case Ok(chosen) => result == Ok((candidates[chosen], old(fs.next))) && attempts == chosen + 1
            case Err(error) => result == Err(error)
    ensures result.Ok? ==> fs.names == old(fs.names)[result.value.0 := old(fs.next)]
                           && fs.contents == old(fs.contents)[old(fs.next) := ""]
                           && fs.next == old(fs.next) + 1
    ensures result.Err? ==> fs.names == old(fs.names) && fs.contents == old(fs.contents) && fs.next == old(fs.next)
  {
    attempts := 0;
    while attempts < ATTEMPTS
      invariant attempts <= ATTEMPTS
      invariant fs.Valid() && fs.directories == old(fs.directories)
      invariant fs.names == old(fs.names) && fs.contents == old(fs.contents) && fs.next == old(fs.next)
      invariant CreationOutcome(old(TakenNames(fs)), candidates, failing, retry, 0)
             == CreationOutcome(old(TakenNames(fs)), candidates, failing, retry, attempts)
    {
      var path := candidates[attempts];
      var created := fs.CreateNew(path, attempts in failing);
      attempts := attempts + 1;
      match created {
        case Ok(inode) => return Ok((path, inode)), attempts;
        case Err(error) =>
          if !(error == AlreadyExists || (retry && fs.Taken(path))) {
            return Err(error), attempts;
          }
      }
    }
    result := Err(AlreadyExists);
  }

  // ---------------------------------------------------------------- save_with

  function IndexCandidates(index: Path, pid: nat, ids: seq<nat>): (candidates: seq<Path>)
    requires index != [] && |ids| == ATTEMPTS
    ensures |candidates| == ATTEMPTS && forall i :: 0 <= i < ATTEMPTS ==> candidates[i] == TemporaryIndexPath(index, pid, ids[i])
    ensures forall i :: 0 <= i < ATTEMPTS ==> candidates[i] != index
  {
    seq(ATTEMPTS, i requires 0 <= i < ATTEMPTS => TemporaryIndexPath(index, pid, ids[i]))
  }

  /** A failed publication: every name as before, except perhaps the attempt's own
      temporary when even its removal failed. */
  ghost predicate Unpublished(
      before: map<Path, Inode>, after: map<Path, Inode>, candidates: seq<Path>, inode: Inode, unlinkFails: bool)
  {
    after == before
    || (unlinkFails && exists path :: path in candidates && path !in before && after == before[path := inode])
  }

  predicate SaveSucceeds(taken: set<Path>, directories: set<Path>, index: Path, candidates: seq<Path>, faults: Faults)
  {
    CreationOutcome(taken, candidates, faults.create, true, 0).Ok?
    && faults.stage == NoStage && index !in directories
  }

  /** `save_with`: the whole new snapshot under the destination, or the old one untouched. */
  method SaveWith(fs: FileSystem, snapshot: Snapshot, index: Path, pid: nat, ids: seq<nat>, faults: Faults)
    returns (ok: bool)
    requires fs.Valid() && index != [] && |ids| == ATTEMPTS
    modifies fs
    ensures fs.Valid() && fs.directories == old(fs.directories)
    ensures ok <==> SaveSucceeds(old(TakenNames(fs)), fs.directories, index, IndexCandidates(index, pid, ids), faults)
    ensures ok ==> fs.names == old(fs.names)[index := old(fs.next)] && fs.contents[old(fs.next)] == Render(snapshot)
    ensures !ok ==> Unpublished(old(fs.names), fs.names, IndexCandidates(index, pid, ids), old(fs.next), faults.unlink)
    ensures forall inode :: inode in old(fs.contents) ==> inode in fs.contents && fs.contents[inode] == old(fs.contents)[inode]
  {
    hide Render, CreationOutcome;
    var candidates := IndexCandidates(index, pid, ids);
    var created, attempts := CreateTemporary(fs, candidates, faults.create, true);
    if created.Err? { return false; }
    var (temporary, inode) := created.value;
    var text := WriteSnapshot(snapshot);
    var written := WriteTemporary(fs, inode, text, faults.stage);
    if written {
      ok := fs.Rename(temporary, index, faults.stage.AtReplace?);
      if ok {
        DroppedThenSet(old(fs.names), temporary, inode, index);
        return;
      }
    }
    ok := false;
    DropAdded(old(fs.names), temporary, inode);
    fs.Unlink(temporary, faults.unlink);
  }

  /** Write, flush and sync; a failure may leave any part of the text behind. */
  method WriteTemporary(fs: FileSystem, inode: Inode, text: string, stage: Stage) returns (ok: bool)
    requires fs.Valid() && inode in fs.contents && fs.contents[inode] == ""
    modifies fs`contents
    ensures fs.Valid()
    ensures ok <==> stage.NoStage? || stage.AtReplace?
    ensures ok ==> fs.contents == old(fs.contents)[inode := text]
    ensures inode in fs.contents && fs.contents == old(fs.contents)[inode := fs.contents[inode]]
  {
    if stage.AtWrite? || stage.AtFlush? {
      fs.WriteAll(inode, text[..if stage.kept <= |text| then stage.kept else |text|]);
      return false;
    }
    assert "" + text == text;
    fs.WriteAll(inode, text);
    ok := !stage.AtSync?;
  }

  lemma DropAdded(names: map<Path, Inode>, path: Path, inode: Inode)
    requires path !in names
    ensures names[path := inode] - {path} == names
  {
  }

  lemma DroppedThenSet(names: map<Path, Inode>, path: Path, inode: Inode, destination: Path)
    requires path !in names
    ensures (names[path := inode] - {path})[destination := inode] == names[destination := inode]
  {
  }

  // ---------------------------------------------------------------- write_state

  const MAX_STATE_BYTES := 64 * 1024

  /** How many bytes a text takes in the file. */
  function Size(text: string): nat
  {
    |Encode(text)|
  }

  lemma SizeOfConcat(a: string, b: string)
    ensures Size(a + b) == Size(a) + Size(b) && Size("") == 0 && Size("\n") == 1
  {
    EncodeConcat(a, b);
    assert EncodeChar('\n') == [LF];
    assert "\n"[1..] == "";
  }

  /** `StateWriter`: refuses the write that would pass the limit, counted in bytes. */
  class StateWriter {
    const fs: FileSystem
    const inode: Inode
    var remaining: nat

    constructor (fs: FileSystem, inode: Inode)
      ensures this.fs == fs && this.inode == inode && remaining == MAX_STATE_BYTES
    {
      this.fs := fs;
      this.inode := inode;
      remaining := MAX_STATE_BYTES;
    }

    method Write(buffer: string) returns (ok: bool)
      requires fs.Valid() && inode in fs.contents
      modifies this, fs`contents
      ensures fs.Valid()
      ensures ok <==> Size(buffer) <= old(remaining)
      ensures fs.contents == if ok then old(fs.contents)[inode := old(fs.contents)[inode] + buffer] else old(fs.contents)
      ensures remaining == if ok then old(remaining) - Size(buffer) else old(remaining)
    {
      if Size(buffer) > remaining { return false; }
      fs.WriteAll(inode, buffer);
      remaining := remaining - Size(buffer);
      ok := true;
    }
  }

  function Concatenated(chunks: seq<string>): string
  {
    if chunks == [] then "" else Concatenated(chunks[..|chunks| - 1]) + chunks[|chunks| - 1]
  }

  lemma {:induction false} ConcatenatedGrows(chunks: seq<string>, i: nat)
    requires i <= |chunks|
    ensures Size(Concatenated(chunks[..i])) <= Size(Concatenated(chunks))
  {
    if i == |chunks| {
      assert chunks[..i] == chunks;
    } else {
      assert chunks[..|chunks| - 1][..i] == chunks[..i];
      ConcatenatedGrows(chunks[..|chunks| - 1], i);
      SizeOfConcat(Concatenated(chunks[..|chunks| - 1]), chunks[|chunks| - 1]);
    }
  }

  function StateCandidates(state: Path, pid: nat, timestamp: nat, first: nat): (candidates: seq<Path>)
    requires state != []
    ensures |candidates| == ATTEMPTS && forall i :: 0 <= i < ATTEMPTS ==>
              candidates[i] == TemporaryStatePath(state, pid, timestamp, first + i) && candidates[i] != state
  {
    seq(ATTEMPTS, i requires 0 <= i < ATTEMPTS => TemporaryStatePath(state, pid, timestamp, first + i))
  }

  predicate StateWriteSucceeds(
      taken: set<Path>, directories: set<Path>, state: Path, chunks: seq<string>, candidates: seq<Path>, noParent: bool,
      faults: Faults)
  {
    state !in directories && !noParent
    && CreationOutcome(taken, candidates, faults.create, false, 0).Ok?
    && Size(Concatenated(chunks)) + 1 <= MAX_STATE_BYTES
    && faults.stage == NoStage
  }

  /** `write_state`, for the buffers the serializer emits one after the other; `noParent`
      tells that the parent directory cannot be created. */
  method WriteState(
      fs: FileSystem, state: Path, chunks: seq<string>, pid: nat, timestamp: nat, first: nat, noParent: bool, faults: Faults)
    returns (ok: bool)
    requires fs.Valid() && state != []
    modifies fs
    ensures fs.Valid() && fs.directories == old(fs.directories)
    ensures ok <==> StateWriteSucceeds(old(TakenNames(fs)), fs.directories, state, chunks,
                                       StateCandidates(state, pid, timestamp, first), noParent, faults)
    ensures ok ==> fs.names == old(fs.names)[state := old(fs.next)]
                   && fs.contents[old(fs.next)] == Concatenated(chunks) + "\n"
    ensures !ok ==> Unpublished(old(fs.names), fs.names, StateCandidates(state, pid, timestamp, first), old(fs.next), faults.unlink)
    ensures forall inode :: inode in old(fs.contents) ==> inode in fs.contents && fs.contents[inode] == old(fs.contents)[inode]
  {
    if state in fs.directories || noParent { return false; }
    var candidates := StateCandidates(state, pid, timestamp, first);
    var created, attempts := CreateTemporary(fs, candidates, faults.create, false);
    if created.Err? { return false; }
    var (temporary, inode) := created.value;
    hide Concatenated, CreationOutcome;
    var written := WriteChunks(fs, inode, chunks, faults.stage.AtWrite?, if faults.stage.AtWrite? then faults.stage.kept else 0);
    if written && !faults.stage.AtFlush? && !faults.stage.AtSync? {
      ok := fs.Rename(temporary, state, faults.stage.AtReplace?);
      if ok {
        DroppedThenSet(old(fs.names), temporary, inode, state);
        return;
      }
    }
    ok := false;
    DropAdded(old(fs.names), temporary, inode);
    fs.Unlink(temporary, faults.unlink);
  }

  /** Serialized buffers, then the newline, all through the limiting writer; the
      environment may fail the write of buffer `at`. */
  method WriteChunks(fs: FileSystem, inode: Inode, chunks: seq<string>, fails: bool, at: nat) returns (ok: bool)
    requires fs.Valid() && inode in fs.contents && fs.contents[inode] == ""
    modifies fs`contents
    ensures fs.Valid()
    ensures ok <==> Size(Concatenated(chunks)) + 1 <= MAX_STATE_BYTES && !fails
    ensures ok ==> fs.contents == old(fs.contents)[inode := Concatenated(chunks) + "\n"]
    ensures inode in fs.contents && fs.contents == old(fs.contents)[inode := fs.contents[inode]]
  {
    var writer := new StateWriter(fs, inode);
    SizeOfConcat("", "\n");
    for i := 0 to |chunks|
      invariant fs.Valid() && inode in fs.contents
      invariant fs.contents == old(fs.contents)[inode := Concatenated(chunks[..i])]
      invariant writer.remaining + Size(Concatenated(chunks[..i])) == MAX_STATE_BYTES
    {
      assert chunks[..i + 1][..i] == chunks[..i];
      ConcatenatedGrows(chunks, i + 1);
      SizeOfConcat(Concatenated(chunks[..i]), chunks[i]);
      if fails && i == at { return false; }
      var accepted := writer.Write(chunks[i]);
      if !accepted { return false; }
    }
    assert chunks[..|chunks|] == chunks;
    if fails { return false; }
    ok := writer.Write("\n");
  }

  // ---------------------------------------------------------------- what the outcomes mean

  /** Creation gives up only on 32 collisions (or a failing create); otherwise it takes
      the first free name. */
  lemma {:induction false} CreationTakesFirstFree(
      taken: set<Path>, candidates: seq<Path>, failing: set<nat>, retry: bool, attempt: nat)
    requires attempt <= |candidates|
    ensures var outcome := CreationOutcome(taken, candidates, failing, retry, attempt);
      && (outcome.Ok? ==> forall i :: attempt <= i < outcome.value ==> candidates[i] in taken)
      && (outcome == Err(AlreadyExists) ==> forall i :: attempt <= i < |candidates| ==> candidates[i] in taken)
      && (failing == {} ==> (outcome.Ok? <==> exists i :: attempt <= i < |candidates| && candidates[i] !in taken))
    decreases |candidates| - attempt
  {
    if attempt < |candidates| && candidates[attempt] in taken {
      CreationTakesFirstFree(taken, candidates, failing, retry, attempt + 1);
    } else if attempt < |candidates| {
      assert candidates[attempt] !in taken;
    }
  }

  /** A create that the loop goes on from: the name is taken, and either nothing else went
      wrong or, for the index, a name that exists counts as a collision anyway. */
  predicate Collides(taken: set<Path>, candidates: seq<Path>, failing: set<nat>, retry: bool, i: nat)
    requires i < |candidates|
  {
    candidates[i] in taken && (i in failing ==> retry)
  }

  /** Exactly which attempt decides, and how. */
  lemma {:induction false} CreationDecides(
      taken: set<Path>, candidates: seq<Path>, failing: set<nat>, retry: bool, attempt: nat, i: nat)
    requires attempt <= i < |candidates|
    requires !Collides(taken, candidates, failing, retry, i)
    requires forall j :: attempt <= j < i ==> Collides(taken, candidates, failing, retry, j)
    ensures CreationOutcome(taken, candidates, failing, retry, attempt) == if i in failing then Err(Failed) else Ok(i)
    decreases i - attempt
  {
    if attempt < i {
      assert Collides(taken, candidates, failing, retry, attempt);
      CreationDecides(taken, candidates, failing, retry, attempt + 1, i);
    }
  }

  /** And only when every attempt collides does it give up for that reason. */
  lemma {:induction false} CreationExhausted(taken: set<Path>, candidates: seq<Path>, failing: set<nat>, retry: bool, attempt: nat)
    requires attempt <= |candidates|
    requires forall j :: attempt <= j < |candidates| ==> Collides(taken, candidates, failing, retry, j)
    ensures CreationOutcome(taken, candidates, failing, retry, attempt) == Err(AlreadyExists)
    decreases |candidates| - attempt
  {
    if attempt < |candidates| {
      assert Collides(taken, candidates, failing, retry, attempt);
      CreationExhausted(taken, candidates, failing, retry, attempt + 1);
    }
  }

  lemma {:induction false} CreationChose(taken: set<Path>, candidates: seq<Path>, failing: set<nat>, retry: bool, attempt: nat)
    requires attempt <= |candidates|
    ensures var outcome := CreationOutcome(taken, candidates, failing, retry, attempt);
            outcome.Ok? ==>
              candidates[outcome.value] !in taken && outcome.value !in failing
              && forall j :: attempt <= j < outcome.value ==> Collides(taken, candidates, failing, retry, j)
    decreases |candidates| - attempt
  {
    if attempt < |candidates| && candidates[attempt] in taken { CreationChose(taken, candidates, failing, retry, attempt + 1); }
  }

  /** A save succeeds exactly when nothing fails after creation, the destination is no
      directory, and some one of the 32 names is free and can be created, all before it being
      taken. */
  lemma SaveSucceedsIff(taken: set<Path>, directories: set<Path>, index: Path, candidates: seq<Path>, faults: Faults)
    requires |candidates| == 32
    ensures SaveSucceeds(taken, directories, index, candidates, faults)
       <==> faults.stage == NoStage && index !in directories
            && exists i :: 0 <= i < 32 && candidates[i] !in taken && i !in faults.create
                 && forall j :: 0 <= j < i ==> candidates[j] in taken
  {
    hide CreationOutcome;
    if CreationOutcome(taken, candidates, faults.create, true, 0).Ok? {
      CreationChose(taken, candidates, faults.create, true, 0);
      var i := CreationOutcome(taken, candidates, faults.create, true, 0).value;
      forall j | 0 <= j < i ensures candidates[j] in taken { assert Collides(taken, candidates, faults.create, true, j); }
      assert candidates[i] !in taken && i !in faults.create;
    }
    if i :| 0 <= i < 32 && candidates[i] !in taken && i !in faults.create && forall j :: 0 <= j < i ==> candidates[j] in taken {
      CreationDecides(taken, candidates, faults.create, true, 0, i);
    }
  }

  /** A state file is written exactly when its directory can be there, it is no directory, its
      text with the newline is at most 64 KiB, nothing fails after creation, and one of the 32
      names is free and can be created, all before it being taken and failing in no other way. */
  lemma StateWriteSucceedsIff(
      taken: set<Path>, directories: set<Path>, state: Path, chunks: seq<string>, candidates: seq<Path>, noParent: bool,
      faults: Faults)
    requires |candidates| == 32
    ensures StateWriteSucceeds(taken, directories, state, chunks, candidates, noParent, faults)
       <==> faults.stage == NoStage && state !in directories && !noParent
            && |Encode(Concatenated(chunks) + "\n")| <= 65536
            && exists i :: 0 <= i < 32 && candidates[i] !in taken && i !in faults.create
                 && forall j :: 0 <= j < i ==> candidates[j] in taken && j !in faults.create
  {
    hide CreationOutcome, Encode;
    EncodeConcat(Concatenated(chunks), "\n");
    NewlineIsOneByte();
    if CreationOutcome(taken, candidates, faults.create, false, 0).Ok? {
      CreationChose(taken, candidates, faults.create, false, 0);
      var i := CreationOutcome(taken, candidates, faults.create, false, 0).value;
      forall j | 0 <= j < i ensures candidates[j] in taken && j !in faults.create {
        assert Collides(taken, candidates, faults.create, false, j);
      }
      assert candidates[i] !in taken && i !in faults.create;
    }
    if i :| 0 <= i < 32 && candidates[i] !in taken && i !in faults.create
            && forall j :: 0 <= j < i ==> candidates[j] in taken && j !in faults.create {
      CreationDecides(taken, candidates, faults.create, false, 0, i);
    }
  }

  lemma NewlineIsOneByte()
    ensures |Encode("\n")| == 1
  {
    assert "\n"[1..] == "";
  }

  /** After a failed publication every file that existed is still there under its name, and
      the only possible newcomer is the attempt's own temporary. */
  lemma UnpublishedKeepsFiles(
      before: map<Path, Inode>, after: map<Path, Inode>, candidates: seq<Path>, inode: Inode, unlinkFails: bool, path: Path)
    requires Unpublished(before, after, candidates, inode, unlinkFails)
    ensures path in before ==> path in after && after[path] == before[path]
    ensures path in after && path !in before ==> path in candidates && unlinkFails
    ensures path !in candidates ==> (path in after <==> path in before)
  {
  }
}
