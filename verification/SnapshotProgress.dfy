/** What a lone writer and a lone reader of the index can always get done
    (crates/cli/src/lib.rs, 289-339 and 404-474; crates/indexer/src/store.rs, 183-190). */
module SnapshotProgress {
  import opened Text
  import opened SnapshotText
  import opened Comparison
  import opened SnapshotProtocol

  ghost predicate Leads(from: World, events: seq<Event>, to: World)
    decreases |events|
  {
    if events == [] then from == to
    else Enabled(from, events[0]) && Leads(Apply(from, events[0]), events[1..], to)
  }

  lemma LeadsNowhere(w: World)
    ensures Leads(w, [], w)
  {
  }

  lemma {:induction false} Then(from: World, events: seq<Event>, via: World, e: Event) returns (more: seq<Event>, to: World)
    requires Leads(from, events, via) && Enabled(via, e)
    ensures to == Apply(via, e) && Leads(from, more, to) && more == events + [e]
    decreases |events|
  {
    hide Enabled, Apply;
    to := Apply(via, e);
    more := events + [e];
    if events == [] {
      assert more[1..] == [];
    } else {
      var rest, last := Then(Apply(from, events[0]), events[1..], via, e);
      assert more[1..] == events[1..] + [e];
    }
  }

  /** The writer holds what it is about to publish, all on disk. */
  lemma WritesOut(from: World, before: seq<Event>, w: World, p: Process, job: Job) returns (events: seq<Event>, w': World)
    requires Leads(from, before, w) && p in w.writers && w.writers[p] == Compared(job)
    ensures Leads(from, events, w') && p in w'.writers && w'.writers[p] == Published(job)
    ensures w'.log == w.log + [job.candidate] && w'.current == Some(w.next) && w'.readers == w.readers
    ensures w.next in w'.contents && w'.contents[w.next] == Render(job.candidate)
  {
    hide Leads, Render, Parse, Difference, Valid;
    var text := Render(job.candidate);
    events, w' := Then(from, before, w, CreateTemporary(p));
    events, w' := Then(from, events, w', Append(p, |text|));
    assert Prefix(text, |text|) == text;
    events, w' := Then(from, events, w', Sync(p));
    events, w' := Then(from, events, w', Publish(p));
  }

  /** From any state in which nobody writes and the index loads, a refresh by itself gets to
      publish its candidate and reports the difference to what it loaded. */
  lemma RefreshGetsThrough(w: World, p: Process, candidate: Snapshot) returns (events: seq<Event>, w': World)
    requires w.lock == None && p !in w.writers && OpenResult(w).Ok? && Valid(candidate)
    ensures Leads(w, events, w') && w'.log == w.log + [candidate] && p in w'.writers
    ensures w'.writers[p]
         == Published(Job(Some(OpenResult(w).value), candidate, Difference(OpenResult(w).value.files, candidate.files)))
    ensures w'.current.Some? && w'.current.value in w'.contents && w'.contents[w'.current.value] == Render(candidate)
  {
    hide Leads, Render, Parse, Difference, Valid;
    LeadsNowhere(w);
    events, w' := Then(w, [], w, Acquire(p));
    events, w' := Then(w, events, w', LoadIndex(p));
    events, w' := Then(w, events, w', Compare(p, candidate));
    events, w' := WritesOut(w, events, w', p, w'.writers[p].job);
  }

  /** A rebuild needs no readable index. */
  lemma RebuildGetsThrough(w: World, p: Process, candidate: Snapshot) returns (events: seq<Event>, w': World)
    requires w.lock == None && p !in w.writers && Valid(candidate)
    ensures Leads(w, events, w') && w'.log == w.log + [candidate]
    ensures w'.current.Some? && w'.current.value in w'.contents && w'.contents[w'.current.value] == Render(candidate)
  {
    hide Leads, Render, Parse, Difference, Valid;
    LeadsNowhere(w);
    events, w' := Then(w, [], w, Acquire(p));
    events, w' := Then(w, events, w', StartRebuild(p));
    events, w' := Then(w, events, w', Compare(p, candidate));
    events, w' := WritesOut(w, events, w', p, w'.writers[p].job);
  }

  lemma ReadsOut(w: World, r: Process, inode: Inode) returns (events: seq<Event>, w': World)
    requires w.current == Some(inode) && inode in w.contents && r !in w.readers
    ensures Leads(w, events, w') && r in w'.readers && w'.readers[r].buffer == w.contents[inode]
  {
    hide Leads, Render, Parse, Difference, Valid;
    var text := w.contents[inode];
    LeadsNowhere(w);
    events, w' := Then(w, [], w, OpenIndex(r));
    events, w' := Then(w, events, w', Read(r, |text|));
    assert Prefix(text, |text|) == text;
  }

  /** A reader by itself gets the whole of what is in place. */
  lemma ReaderGetsAll(w: World, r: Process) returns (events: seq<Event>, w': World)
    requires Inv(w) && w.current.Some? && r !in w.readers
    ensures Leads(w, events, w') && r in w'.readers && w'.readers[r].buffer == Render(InPlace(w))
  {
    hide Leads, Render, Parse, Difference, Valid, WriterInv, ReaderInv;
    CurrentHoldsLastPublished(w);
    events, w' := ReadsOut(w, r, w.current.value);
  }

  /** Whether it goes or is killed, a writer does not stay in the way. */
  lemma LeavingFreesWriterLock(w: World, p: Process, e: Event)
    requires Inv(w) && p in w.writers && (e == Kill(p) || e == Release(p))
    ensures Enabled(w, e) && Apply(w, e).lock == None && p !in Apply(w, e).writers
    ensures Apply(w, e).current == w.current && Apply(w, e).contents == w.contents && Apply(w, e).log == w.log
  {
    hide Render, Parse, Difference, Valid, WriterInv, ReaderInv;
  }
}
