/** One index file shared by lock-respecting writers, lock-free readers and crashes
    (crates/indexer/src/store.rs, 404-443; crates/indexer/src/writer_lock.rs, 22-79;
    crates/cli/src/lib.rs, 404-474; crates/daemon/src/lib.rs, 1183-1232). */
module SnapshotProtocol {
  import opened Text
  import opened SnapshotText
  import opened RoundTrip
  import opened Comparison

  type Inode = nat
  type Process = nat

  /** What one save is about to publish. `base` is what a refresh loaded under the lock
      (`None` for an explicit rebuild, which reads nothing), `summary` what it will report. */
  datatype Job = Job(base: Option<Snapshot>, candidate: Snapshot, summary: RefreshSummary)

  datatype Writer =
    | Locked
    | Loaded(base: Option<Snapshot>)
    | Compared(job: Job)
    | Writing(job: Job, inode: Inode, done: nat)
    | Synced(job: Job, inode: Inode)
    | Published(job: Job)

  /** A reader's open handle and what it has read through it. */
  datatype Reader = Reader(inode: Inode, buffer: string)

  /** `current` is the inode the index name points at. The history variables `log` and
      `committed` record what was published, in order, and as which inode. */
  datatype World = World(
    current: Option<Inode>, contents: map<Inode, string>, next: Inode,
    lock: Option<Process>, writers: map<Process, Writer>, readers: map<Process, Reader>,
    log: seq<Snapshot>, committed: map<Inode, nat>)

  datatype Event =
    | Acquire(p: Process)
    | LoadIndex(p: Process)
    | StartRebuild(p: Process)
    | Compare(p: Process, candidate: Snapshot)
    | CreateTemporary(p: Process)
    | Append(p: Process, size: nat)
    | Sync(p: Process)
    | Publish(p: Process)
    | Restart(p: Process)      // a daemon keeps its guard for the next request
    | Release(p: Process)      // normal end, or any error on the way
    | Kill(p: Process)
    | OpenIndex(r: Process)
    | Read(r: Process, size: nat)
    | Close(r: Process)

  predicate Init(w: World)
  {
    w == World(None, map[], 0, None, map[], map[], [EMPTY], map[])
  }

  /** What opening the index yields right now: `FileIndexStore::open`. */
  function OpenResult(w: World): Result<Snapshot, LoadError>
  {
    match w.current
    case None => Ok(EMPTY)
    case Some(inode) => if inode in w.contents then Parse(w.contents[inode]) else Err(InvalidScanPolicy)
  }

  ghost predicate Enabled(w: World, e: Event)
  {
    match e
    case Acquire(p) => w.lock == None && p !in w.writers
    case LoadIndex(p) => p in w.writers && w.writers[p] == Locked && OpenResult(w).Ok?
    case StartRebuild(p) => p in w.writers && w.writers[p] == Locked
    case Compare(p, candidate) => p in w.writers && w.writers[p].Loaded? && Valid(candidate)
    case CreateTemporary(p) => p in w.writers && w.writers[p].Compared?
    case Append(p, size) => p in w.writers && w.writers[p].Writing?
                            && w.writers[p].inode in w.contents
                            && w.writers[p].done + size <= |Render(w.writers[p].job.candidate)|
    case Sync(p) => p in w.writers && w.writers[p].Writing? && w.writers[p].done == |Render(w.writers[p].job.candidate)|
    case Publish(p) => p in w.writers && w.writers[p].Synced?
    case Restart(p) => p in w.writers
    case Release(p) => p in w.writers
    case Kill(p) => true
    case OpenIndex(r) => w.current.Some? && r !in w.readers
    case Read(r, size) => r in w.readers && w.readers[r].inode in w.contents
                          && |w.readers[r].buffer| + size <= |w.contents[w.readers[r].inode]|
    case Close(r) => r in w.readers
  }

  function Prefix(s: string, n: nat): string
  {
    if n <= |s| then s[..n] else s
  }

  ghost function Apply(w: World, e: Event): World
    requires Enabled(w, e)
  {
    match e
    case Acquire(p) => w.(lock := Some(p), writers := w.writers[p := Locked])
    case LoadIndex(p) => w.(writers := w.writers[p := Loaded(Some(OpenResult(w).value))])
    case StartRebuild(p) => w.(writers := w.writers[p := Loaded(None)])
    case Compare(p, candidate) =>
      var base := w.writers[p].base;
      var summary := if base.Some? then Difference(base.value.files, candidate.files) else RefreshSummary(0, 0, 0, 0);
      w.(writers := w.writers[p := Compared(Job(base, candidate, summary))])
    case CreateTemporary(p) =>
      w.(writers := w.writers[p := Writing(w.writers[p].job, w.next, 0)],
         contents := w.contents[w.next := ""], next := w.next + 1)
    case Append(p, size) =>
      var writer := w.writers[p];
      w.(writers := w.writers[p := writer.(done := writer.done + size)],
         contents := w.contents[writer.inode := Prefix(Render(writer.job.candidate), writer.done + size)])
    case Sync(p) => w.(writers := w.writers[p := Synced(w.writers[p].job, w.writers[p].inode)])
    case Publish(p) =>
      var writer := w.writers[p];
      w.(writers := w.writers[p := Published(writer.job)], current := Some(writer.inode),
         log := w.log + [writer.job.candidate], committed := w.committed[writer.inode := |w.log|])
    case Restart(p) => w.(writers := w.writers[p := Locked])
    case Release(p) => w.(writers := w.writers - {p}, lock := if w.lock == Some(p) then None else w.lock)
    case Kill(p) => w.(writers := w.writers - {p}, lock := if w.lock == Some(p) then None else w.lock,
                       readers := w.readers - {p})
    case OpenIndex(r) => w.(readers := w.readers[r := Reader(w.current.value, "")])
    case Read(r, size) =>
      var reader := w.readers[r];
      w.(readers := w.readers[r := reader.(buffer := Prefix(w.contents[reader.inode], |reader.buffer| + size))])
    case Close(r) => w.(readers := w.readers - {r})
  }

  // ---------------------------------------------------------------- invariant

  ghost predicate LogInv(w: World)
  {
    && |w.log| >= 1 && w.log[0] == EMPTY
    && (forall k :: 0 <= k < |w.log| ==> Valid(w.log[k]))
    && (forall i :: i in w.contents ==> i < w.next)
    && (forall i :: i in w.committed ==> i in w.contents && 1 <= w.committed[i] < |w.log|
                                         && w.contents[i] == Render(w.log[w.committed[i]]))
    && (w.current == None ==> |w.log| == 1)
    && (w.current.Some? ==> w.current.value in w.committed && w.committed[w.current.value] == |w.log| - 1)
  }

  /** What a refresh holding the lock loaded is what is in place. */
  ghost predicate BaseInPlace(w: World, base: Option<Snapshot>)
  {
    base.Some? ==> OpenResult(w) == Ok(base.value)
  }

  ghost predicate JobInv(job: Job)
  {
    Valid(job.candidate) && (job.base.Some? ==> job.summary == Difference(job.base.value.files, job.candidate.files))
  }

  ghost predicate WriterInv(w: World, writer: Writer)
  {
    match writer
    case Locked => true
    case Loaded(base) => BaseInPlace(w, base)
    case Compared(job) => JobInv(job) && BaseInPlace(w, job.base)
    case Writing(job, inode, done) =>
      JobInv(job) && BaseInPlace(w, job.base)
      && inode in w.contents && inode !in w.committed
      && done <= |Render(job.candidate)| && w.contents[inode] == Render(job.candidate)[..done]
    case Synced(job, inode) =>
      JobInv(job) && BaseInPlace(w, job.base)
      && inode in w.contents && inode !in w.committed && w.contents[inode] == Render(job.candidate)
    case Published(job) => JobInv(job) && |w.log| >= 2 && w.log[|w.log| - 1] == job.candidate
  }

  ghost predicate LockInv(w: World)
  {
    forall p :: p in w.writers ==> w.lock == Some(p)
  }

  ghost predicate ReaderInv(w: World, reader: Reader)
  {
    reader.inode in w.committed && reader.inode in w.contents && reader.buffer <= w.contents[reader.inode]
  }

  ghost predicate Inv(w: World)
  {
    && LogInv(w) && LockInv(w)
    && (forall p :: p in w.writers ==> WriterInv(w, w.writers[p]))
    && (forall r :: r in w.readers ==> ReaderInv(w, w.readers[r]))
  }

  lemma InitHolds(w: World)
    requires Init(w)
    ensures Inv(w)
  {
  }

  /** Published contents never change and the log only grows. */
  ghost predicate Grows(w: World, w': World)
  {
    && w.log <= w'.log
    && (forall i :: i in w.committed ==> i in w'.committed && w'.committed[i] == w.committed[i]
                                         && i in w.contents && i in w'.contents && w'.contents[i] == w.contents[i])
  }

  /** Events that touch neither files nor history. */
  predicate IsQuiet(e: Event)
  {
    !e.CreateTemporary? && !e.Append? && !e.Publish?
  }

  predicate SameFiles(w: World, w': World)
  {
    w'.current == w.current && w'.contents == w.contents && w'.next == w.next
    && w'.log == w.log && w'.committed == w.committed
  }

  lemma QuietEvents(w: World, e: Event)
    requires Enabled(w, e) && IsQuiet(e)
    ensures SameFiles(w, Apply(w, e))
  {
    hide Render, Parse, Difference, Valid;
  }

  lemma StepGrows(w: World, e: Event)
    requires Inv(w) && Enabled(w, e)
    ensures Grows(w, Apply(w, e))
  {
    hide Render, Parse, Difference, Valid;
    if IsQuiet(e) {
      QuietEvents(w, e);
    } else if !e.CreateTemporary? {
      assert WriterInv(w, w.writers[e.p]);
    }
  }

  lemma ReadersSurvive(w: World, w': World, reader: Reader)
    requires ReaderInv(w, reader) && Grows(w, w')
    ensures ReaderInv(w', reader)
  {
  }

  lemma ReaderSteps(w: World, e: Event)
    requires Inv(w) && Enabled(w, e)
    ensures forall r :: r in Apply(w, e).readers ==> ReaderInv(Apply(w, e), Apply(w, e).readers[r])
  {
    hide Render, Parse, Difference, Valid, WriterInv, Grows;
    var w' := Apply(w, e);
    StepGrows(w, e);
    forall r | r in w'.readers ensures ReaderInv(w', w'.readers[r]) {
      if e.OpenIndex? && r == e.r {
      } else if e.Read? && r == e.r {
        ReadKeeps(w, r, e.size);
      } else {
        ReadersSurvive(w, w', w.readers[r]);
      }
    }
  }

  lemma ReadKeeps(w: World, r: Process, size: nat)
    requires r in w.readers && ReaderInv(w, w.readers[r]) && Enabled(w, Read(r, size))
    ensures ReaderInv(w, Apply(w, Read(r, size)).readers[r])
  {
  }

  lemma LockSteps(w: World, e: Event)
    requires Inv(w) && Enabled(w, e)
    ensures LockInv(Apply(w, e))
  {
    hide Render, Parse, Difference, Valid, WriterInv, ReaderInv, LogInv;
  }

  lemma LogSteps(w: World, e: Event)
    requires Inv(w) && Enabled(w, e)
    ensures LogInv(Apply(w, e))
  {
    hide Render, Parse, Difference, Valid, ReaderInv, LockInv;
    if IsQuiet(e) {
      QuietEvents(w, e);
    } else {
      assert WriterInv(w, w.writers[e.p]);
      match e {
        case CreateTemporary(p) =>
        case Append(p, size) =>
        case Publish(p) => PublishKeepsLog(w, p);
      }
    }
  }

  lemma PublishKeepsLog(w: World, p: Process)
    requires LogInv(w) && p in w.writers && WriterInv(w, w.writers[p]) && Enabled(w, Publish(p))
    ensures LogInv(Apply(w, Publish(p)))
  {
    hide Render, Parse, Difference, Valid;
    var w' := Apply(w, Publish(p));
    forall k | 0 <= k < |w'.log| ensures Valid(w'.log[k]) {
      if k < |w.log| { assert w'.log[k] == w.log[k]; }
    }
    forall i | i in w'.committed
      ensures i in w'.contents && 1 <= w'.committed[i] < |w'.log| && w'.contents[i] == Render(w'.log[w'.committed[i]])
    {
      if i != w.writers[p].inode { assert w'.log[w.committed[i]] == w.log[w.committed[i]]; }
    }
  }

  lemma WriterFrame(w: World, w': World, writer: Writer)
    requires SameFiles(w, w') && WriterInv(w, writer)
    ensures WriterInv(w', writer)
  {
    hide Render, Parse, Difference, Valid;
  }

  lemma QuietWriterStep(w: World, e: Event, p: Process)
    requires Inv(w) && Enabled(w, e) && IsQuiet(e) && p in Apply(w, e).writers
    ensures WriterInv(w, Apply(w, e).writers[p])
  {
    hide Render, Parse, Difference, Valid, LogInv, ReaderInv;
    if p in w.writers { assert WriterInv(w, w.writers[p]); }
  }

  lemma FileWriterStep(w: World, e: Event)
    requires Inv(w) && Enabled(w, e) && !IsQuiet(e)
    ensures WriterInv(Apply(w, e), Apply(w, e).writers[e.p])
  {
    hide Render, Parse, Difference, Valid, ReaderInv;
    assert WriterInv(w, w.writers[e.p]);
    if e.Append? {
      var done, text := w.writers[e.p].done, Render(w.writers[e.p].job.candidate);
      assert Prefix(text, done + e.size) == text[..done + e.size];
    }
  }

  lemma WriterSteps(w: World, e: Event)
    requires Inv(w) && Enabled(w, e)
    ensures forall p :: p in Apply(w, e).writers ==> WriterInv(Apply(w, e), Apply(w, e).writers[p])
  {
    hide Render, Parse, Difference, Valid, LogInv, ReaderInv, WriterInv;
    var w' := Apply(w, e);
    forall p | p in w'.writers ensures WriterInv(w', w'.writers[p]) {
      if IsQuiet(e) {
        QuietEvents(w, e);
        QuietWriterStep(w, e, p);
        WriterFrame(w, w', w'.writers[p]);
      } else {
        FileWriterStep(w, e);
        assert w.lock == Some(p) && w.lock == Some(e.p);
      }
    }
  }

  lemma StepKeepsInv(w: World, e: Event)
    requires Inv(w) && Enabled(w, e)
    ensures Inv(Apply(w, e))
  {
    hide LogInv, LockInv, WriterInv, ReaderInv;
    LogSteps(w, e);
    LockSteps(w, e);
    WriterSteps(w, e);
    ReaderSteps(w, e);
  }

  // ---------------------------------------------------------------- runs

  ghost predicate IsRun(worlds: seq<World>, events: seq<Event>)
  {
    && |worlds| == |events| + 1
    && Init(worlds[0])
    && forall k :: 0 <= k < |events| ==> Enabled(worlds[k], events[k]) && worlds[k + 1] == Apply(worlds[k], events[k])
  }

  lemma {:induction false} RunKeepsInv(worlds: seq<World>, events: seq<Event>, k: nat)
    requires IsRun(worlds, events) && k < |worlds|
    ensures Inv(worlds[k])
  {
    if k == 0 {
      InitHolds(worlds[0]);
    } else {
      RunKeepsInv(worlds, events, k - 1);
      assert worlds[k - 1 + 1] == Apply(worlds[k - 1], events[k - 1]);
      StepKeepsInv(worlds[k - 1], events[k - 1]);
    }
  }

  lemma GrowsTransitive(a: World, b: World, c: World)
    requires Grows(a, b) && Grows(b, c)
    ensures Grows(a, c)
  {
  }

  lemma RunStep(worlds: seq<World>, events: seq<Event>, k: nat)
    requires IsRun(worlds, events) && k < |events|
    ensures |worlds| == |events| + 1 && Enabled(worlds[k], events[k]) && worlds[k + 1] == Apply(worlds[k], events[k])
    ensures Grows(worlds[k], worlds[k + 1])
  {
    hide Enabled, Apply, Init;
    RunKeepsInv(worlds, events, k);
    StepGrows(worlds[k], events[k]);
  }

  lemma {:induction false} RunGrows(worlds: seq<World>, events: seq<Event>, i: nat, j: nat)
    requires IsRun(worlds, events) && i <= j < |worlds|
    ensures Grows(worlds[i], worlds[j])
    decreases j
  {
    hide Enabled, Apply, Init, Grows, Inv;
    RunKeepsInv(worlds, events, i);
    if i == j {
      InvGrowsReflexive(worlds[i]);
    } else {
      RunGrows(worlds, events, i, j - 1);
      RunStep(worlds, events, j - 1);
      GrowsTransitive(worlds[i], worlds[j - 1], worlds[j]);
    }
  }

  lemma InvGrowsReflexive(w: World)
    requires Inv(w)
    ensures Grows(w, w)
  {
  }

  function InPlace(w: World): Snapshot
    requires |w.log| >= 1
  {
    w.log[|w.log| - 1]
  }

  lemma HandleStep(w: World, e: Event, r: Process)
    requires Enabled(w, e) && r in w.readers && r in Apply(w, e).readers
    ensures Apply(w, e).readers[r].inode == w.readers[r].inode
  {
    hide Render, Parse, Difference, Valid;
  }

  lemma {:induction false} HandleIsStable(worlds: seq<World>, events: seq<Event>, r: Process, i: nat, j: nat)
    requires IsRun(worlds, events) && i < j < |worlds|
    requires events[i] == OpenIndex(r)
    requires forall k :: i < k <= j ==> r in worlds[k].readers
    ensures worlds[i].current == Some(worlds[j].readers[r].inode)
    decreases j
  {
    hide Enabled, Apply;
    assert worlds[j - 1 + 1] == Apply(worlds[j - 1], events[j - 1]);
    if i + 1 < j {
      HandleIsStable(worlds, events, r, i, j - 1);
      HandleStep(worlds[j - 1], events[j - 1], r);
    } else {
      OpenTakesCurrent(worlds[i], r);
    }
  }

  lemma OpenTakesCurrent(w: World, r: Process)
    requires Enabled(w, OpenIndex(r))
    ensures r in Apply(w, OpenIndex(r)).readers && w.current == Some(Apply(w, OpenIndex(r)).readers[r].inode)
  {
  }

  lemma CurrentHoldsLastPublished(w: World)
    requires LogInv(w) && w.current.Some?
    ensures w.current.value in w.contents && w.contents[w.current.value] == Render(InPlace(w))
  {
    hide Render, Valid;
  }

  /** Whatever writers, crashes and other readers do in between, a reader that opened the
      index and has read to the end of its handle holds, byte for byte, the snapshot that
      was in place when it opened. */
  lemma ReadersSeeOneSnapshot(worlds: seq<World>, events: seq<Event>, r: Process, i: nat, j: nat)
    requires IsRun(worlds, events) && i < j < |worlds|
    requires events[i] == OpenIndex(r)
    requires forall k :: i < k <= j ==> r in worlds[k].readers
    ensures |worlds[i].log| >= 1 && worlds[j].readers[r].inode in worlds[j].contents
    ensures var reader := worlds[j].readers[r];
            worlds[j].contents[reader.inode] == Render(InPlace(worlds[i])) && reader.buffer <= Render(InPlace(worlds[i]))
    ensures var reader := worlds[j].readers[r];
            |reader.buffer| == |worlds[j].contents[reader.inode]|
            ==> (Parse(reader.buffer) == Ok(InPlace(worlds[i])) <==> Printable(InPlace(worlds[i]).files))
  {
    hide Render, Parse, Valid, IsRun, Printable;
    RunKeepsInv(worlds, events, i);
    RunKeepsInv(worlds, events, j);
    RunGrows(worlds, events, i, j);
    HandleIsStable(worlds, events, r, i, j);
    CurrentHoldsLastPublished(worlds[i]);
    var reader := worlds[j].readers[r];
    assert ReaderInv(worlds[j], reader);
    assert worlds[i].current == Some(reader.inode);
    RoundTripIff(InPlace(worlds[i]));
    if |reader.buffer| == |worlds[j].contents[reader.inode]| {
      assert reader.buffer == worlds[j].contents[reader.inode];
    }
  }

  /** What opening the index would load at any instant is the last published snapshot if and
      only if its paths survive a save. */
  lemma OpenLoadsLastPublished(w: World)
    requires Inv(w)
    ensures OpenResult(w) == Ok(InPlace(w)) <==> Printable(InPlace(w).files)
  {
    hide Render, Parse, Printable, Valid;
    EmptySnapshotLoads();
    RoundTripIff(InPlace(w));
    if w.current.Some? { CurrentHoldsLastPublished(w); }
  }

  lemma EmptySnapshotLoads()
    ensures Valid(EMPTY) && Printable(EMPTY.files)
  {
  }

  lemma PublishAppends(w: World, p: Process)
    requires Inv(w) && Enabled(w, Publish(p))
    ensures |w.log| >= 1 && p in w.writers && w.writers[p].Synced?
    ensures Apply(w, Publish(p)).log == w.log + [w.writers[p].job.candidate]
    ensures JobInv(w.writers[p].job) && BaseInPlace(w, w.writers[p].job.base)
  {
    hide Render, Parse, Difference, Valid;
    assert WriterInv(w, w.writers[p]);
  }

  /** A refresh that publishes reports the difference between the index as anyone would have
      loaded it immediately before and the one it publishes. What was loaded is the snapshot
      published immediately before if and only if that one's paths survive a save. */
  lemma SummaryIsTheDifference(worlds: seq<World>, events: seq<Event>, k: nat)
    requires IsRun(worlds, events) && k < |events| && events[k].Publish?
    ensures |worlds[k].log| >= 1 && worlds[k + 1].log == worlds[k].log + [worlds[k].writers[events[k].p].job.candidate]
    ensures var job := worlds[k].writers[events[k].p].job;
            job.base.Some? ==>
              && OpenResult(worlds[k]) == Ok(job.base.value)
              && job.summary == Difference(job.base.value.files, InPlace(worlds[k + 1]).files)
              && (job.base.value == InPlace(worlds[k]) <==> Printable(InPlace(worlds[k]).files))
  {
    hide Render, Parse, Difference, Valid, Printable, IsRun;
    RunStep(worlds, events, k);
    RunKeepsInv(worlds, events, k);
    OpenLoadsLastPublished(worlds[k]);
    PublishAppends(worlds[k], events[k].p);
  }

  /** At most one process is between acquiring the lock and releasing it. */
  lemma OneWriter(worlds: seq<World>, events: seq<Event>, k: nat, p: Process, q: Process)
    requires IsRun(worlds, events) && k < |worlds|
    requires p in worlds[k].writers && q in worlds[k].writers
    ensures p == q
  {
    RunKeepsInv(worlds, events, k);
  }
}
