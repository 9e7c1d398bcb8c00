/** The binder of `EndpointProtocol` acting alone is the binder of `UnixEndpoint`: its runs are
    exactly the fates of the sequential `bind`, and each leaves exactly the namespace that
    `bind` specifies. */
module EndpointRefinement {
  import opened Text
  import opened UnixEndpoint
  import opened EndpointProtocol

  /** What the lock file holds; it need not exist yet. */
  function StoredRecord(w: World): Record
  {
    if w.lockName.Some? && w.lockName.value in w.records then w.records[w.lockName.value] else Empty
  }

  function SpaceOf(w: World): Namespace
  {
    Namespace(w.occupant, StoredRecord(w), w.listening, w.nextSocket)
  }

  ghost predicate Leads(from: World, events: seq<Event>, to: World)
    decreases |events|
  {
    if events == [] then from == to
    else Enabled(from, events[0]) && Leads(Apply(from, events[0]), events[1..], to)
  }

  lemma {:induction false} LeadsOn(from: World, events: seq<Event>, via: World, more: seq<Event>, to: World)
    requires Leads(from, events, via) && Leads(via, more, to)
    ensures Leads(from, events + more, to)
    decreases |events|
  {
    hide Enabled, Apply;
    if events == [] {
      assert events + more == more;
    } else {
      LeadsOn(Apply(from, events[0]), events[1..], via, more, to);
      assert (events + more)[1..] == events[1..] + more;
    }
  }

  lemma Then(from: World, events: seq<Event>, via: World, e: Event) returns (more: seq<Event>, to: World)
    requires Leads(from, events, via) && Enabled(via, e)
    ensures to == Apply(via, e) && Leads(from, more, to)
  {
    hide Enabled, Apply;
    to := Apply(via, e);
    assert [e][1..] == [];
    assert Leads(via, [e], to);
    LeadsOn(from, events, via, [e], to);
    more := events + [e];
  }

  /** Only p is at work, and it holds the lock from `TryLock` on. */
  ghost predicate Alone(w: World, p: Process, owner: OwnerHash, stage: Stage)
  {
    && w.binders.Keys == {p} && w.binders[p].stage == stage && w.binders[p].owner == owner
    && w.lockName == Some(w.binders[p].lock) && w.binders[p].lock in w.records
  }

  lemma LeadsNowhere(w: World)
    ensures Leads(w, [], w)
  {
  }

  /** The lock file is opened, locked and read; nothing else changes. */
  lemma SoloOpens(w: World, p: Process, owner: OwnerHash) returns (events: seq<Event>, w': World)
    requires Inv(w) && w.binders == map[]
    ensures Leads(w, events, w') && Alone(w', p, owner, Read(StoredRecord(w))) && SpaceOf(w') == SpaceOf(w)
  {
    hide Leads;
    assert w.holders == map[];
    LeadsNowhere(w);
    events, w' := Then(w, [], w, OpenLock(p, owner));
    events, w' := Then(w, events, w', TryLock(p));
    events, w' := Then(w, events, w', ReadRecord(p));
  }

  /** Prepare, probe if there is a socket, recheck and unlink: possible exactly when bindable. */
  lemma SoloClears(w: World, p: Process, owner: OwnerHash) returns (events: seq<Event>, w': World)
    requires Alone(w, p, owner, Read(StoredRecord(w))) && Bindable(SpaceOf(w), owner)
    ensures Leads(w, events, w') && Alone(w', p, owner, Cleared) && SpaceOf(w') == SpaceOf(w).(occupant := Absent)
  {
    hide Leads;
    LeadsNowhere(w);
    events, w' := Then(w, [], w, Prepare(p));
    if w.occupant.Socket? { events, w' := Then(w, events, w', Probe(p)); }
    events, w' := Then(w, events, w', Recheck(p));
  }

  lemma SoloRefused(w: World, p: Process, owner: OwnerHash, unlinks: bool)
    requires Alone(w, p, owner, Read(StoredRecord(w))) && !Bindable(SpaceOf(w), owner)
    ensures Enabled(w, Prepare(p)) ==>
              var prepared := Apply(w, Prepare(p));
              !Enabled(prepared, Probe(p)) && !Enabled(prepared, Recheck(p))
              && Enabled(prepared, Fail(p, unlinks)) && SpaceOf(Apply(prepared, Fail(p, unlinks))) == SpaceOf(w)
    ensures Enabled(w, Fail(p, unlinks)) && SpaceOf(Apply(w, Fail(p, unlinks))) == SpaceOf(w)
  {
  }

  /** The namespace with the new socket bound and the record as far as it got. */
  function Halfway(space: Namespace, record: Record): Namespace
  {
    Namespace(Socket(space.next), record, space.listening + {space.next}, space.next + 1)
  }

  /** The step a guarded binder has taken last at each point. */
  function StepAt(at: Point): Step
  {
    match at
    case AfterTruncate => Truncated
    case MidWrite => Cut
    case AfterRecord => Recorded
    case _ => Identified
  }

  lemma SoloBinds(w: World, p: Process, owner: OwnerHash) returns (events: seq<Event>, w': World)
    requires Alone(w, p, owner, Cleared) && w.occupant == Absent
    ensures Leads(w, events, w') && Alone(w', p, owner, Bound(w.nextSocket)) && w.nextSocket < w'.nextSocket
    ensures SpaceOf(w') == Halfway(SpaceOf(w), StoredRecord(w))
  {
    hide Leads;
    LeadsNowhere(w);
    events, w' := Then(w, [], w, BindSocket(p));
  }

  lemma SoloIdentifies(w: World, p: Process, owner: OwnerHash, id: SocketId) returns (events: seq<Event>, w': World)
    requires Alone(w, p, owner, Bound(id)) && w.occupant == Socket(id)
    ensures Leads(w, events, w') && Alone(w', p, owner, Guarded(Identified, id, id)) && SpaceOf(w') == SpaceOf(w)
  {
    hide Leads;
    LeadsNowhere(w);
    events, w' := Then(w, [], w, Identify(p));
  }

  lemma SoloTruncates(w: World, p: Process, owner: OwnerHash, id: SocketId) returns (events: seq<Event>, w': World)
    requires Alone(w, p, owner, Guarded(Identified, id, id)) && w.occupant == Socket(id)
    ensures Leads(w, events, w') && Alone(w', p, owner, Guarded(Truncated, id, id))
    ensures SpaceOf(w') == SpaceOf(w).(record := Empty)
  {
    hide Leads;
    LeadsNowhere(w);
    events, w' := Then(w, [], w, Check(p));
    events, w' := Then(w, events, w', Truncate(p));
  }

  lemma SoloWrites(w: World, p: Process, owner: OwnerHash, id: SocketId, whole: bool) returns (events: seq<Event>, w': World)
    requires Alone(w, p, owner, Guarded(Truncated, id, id))
    ensures Leads(w, events, w') && Alone(w', p, owner, Guarded(if whole then Recorded else Cut, id, id))
    ensures SpaceOf(w') == SpaceOf(w).(record := if whole then Complete(owner, id) else Corrupt)
  {
    hide Leads;
    LeadsNowhere(w);
    events, w' := Then(w, [], w, WritePart(p));
    if whole { events, w' := Then(w, events, w', WriteRecord(p)); }
  }

  /** Where a binder is when it is interrupted after its bind. */
  function StageAt(at: Point, id: SocketId): Stage
  {
    if at == AfterBind then Bound(id) else Guarded(StepAt(at), id, id)
  }

  /** From the free path to the point where the binder is interrupted. */
  lemma SoloReaches(w: World, p: Process, owner: OwnerHash, at: Point) returns (events: seq<Event>, w': World)
    requires Alone(w, p, owner, Cleared) && w.occupant == Absent && at != BeforeUnlink && at != AfterUnlink
    ensures Leads(w, events, w') && Alone(w', p, owner, StageAt(at, w.nextSocket))
    ensures SpaceOf(w') == Halfway(SpaceOf(w), RecordAt(SpaceOf(w), owner, at))
  {
    hide Leads, Alone;
    var id := w.nextSocket;
    events, w' := SoloBinds(w, p, owner);
    if at != AfterBind {
      var identifying, identified := SoloIdentifies(w', p, owner, id);
      LeadsOn(w, events, w', identifying, identified);
      events, w' := events + identifying, identified;
      if at != AfterIdentify {
        var truncating, truncated := SoloTruncates(w', p, owner, id);
        LeadsOn(w, events, w', truncating, truncated);
        events, w' := events + truncating, truncated;
        if at != AfterTruncate {
          var writing, written := SoloWrites(w', p, owner, id, at == AfterRecord);
          LeadsOn(w, events, w', writing, written);
          events, w' := events + writing, written;
        }
      }
    }
  }

  lemma WithoutFresh(listening: set<SocketId>, id: SocketId)
    requires id !in listening
    ensures listening + {id} - {id} == listening
  {
  }

  /** A kill or an error there leaves what the sequential binder leaves. */
  lemma SoloEnds(w: World, p: Process, owner: OwnerHash, space: Namespace, fate: Fate)
      returns (events: seq<Event>, w': World)
    requires WellFormed(space) && !fate.Completes? && fate.at != BeforeUnlink && fate.at != AfterUnlink
    requires Alone(w, p, owner, StageAt(fate.at, space.next))
    requires SpaceOf(w) == Halfway(space, RecordAt(space, owner, fate.at))
    ensures Leads(w, events, w') && w'.binders == map[] && SpaceOf(w') == OutcomeOf(space, owner, fate)
  {
    hide Leads;
    LeadsNowhere(w);
    WithoutFresh(space.listening, space.next);
    if fate.Killed? {
      events, w' := Then(w, [], w, Kill(p));
    } else {
      events, w' := Then(w, [], w, Fail(p, fate.unlinks));
      if HasGuard(fate.at) { events, w' := Then(w, events, w', Drained(p)); }
    }
  }

  lemma SoloEndsEarly(w: World, p: Process, owner: OwnerHash, space: Namespace, fate: Fate)
      returns (events: seq<Event>, w': World)
    requires !fate.Completes? && (fate.at == BeforeUnlink || fate.at == AfterUnlink)
    requires Alone(w, p, owner, if fate.at == BeforeUnlink then Read(space.record) else Cleared)
    requires SpaceOf(w) == LeftBehind(space, owner, fate.at, false)
    ensures Leads(w, events, w') && w'.binders == map[] && SpaceOf(w') == OutcomeOf(space, owner, fate)
  {
    hide Leads;
    LeadsNowhere(w);
    events, w' := Then(w, [], w, if fate.Killed? then Kill(p) else Fail(p, true));
  }

  lemma SoloConfirms(w: World, p: Process, owner: OwnerHash) returns (events: seq<Event>, w': World)
    requires p in w.binders && AtStep(w, p, Recorded) && Alone(w, p, owner, w.binders[p].stage)
    requires w.occupant == Socket(w.binders[p].stage.socket)
    ensures Leads(w, events, w') && AtStep(w', p, Serves) && SpaceOf(w') == SpaceOf(w)
  {
    hide Leads;
    LeadsNowhere(w);
    events, w' := Then(w, [], w, Confirm(p));
  }

  /** Every fate of a bind that may go ahead is a run of a lone binder. */
  lemma SoloBind(w: World, p: Process, owner: OwnerHash, fate: Fate)
    requires Inv(w) && w.binders == map[]
    requires WellFormed(SpaceOf(w)) && Bindable(SpaceOf(w), owner)
    ensures exists events, w' :: Leads(w, events, w') && SpaceOf(w') == OutcomeOf(SpaceOf(w), owner, fate)
              && (if fate.Completes? then AtStep(w', p, Serves) else w'.binders == map[])
  {
    hide Leads, Inv, Bindable, Enabled, Apply, OutcomeOf;
    var events, now := SoloOpens(w, p, owner);
    if !fate.Completes? && fate.at == BeforeUnlink {
      var ending, ended := SoloEndsEarly(now, p, owner, SpaceOf(w), fate);
      LeadsOn(w, events, now, ending, ended);
    } else {
      var clearing, cleared := SoloClears(now, p, owner);
      LeadsOn(w, events, now, clearing, cleared);
      events, now := events + clearing, cleared;
      if !fate.Completes? && fate.at == AfterUnlink {
        var ending, ended := SoloEndsEarly(now, p, owner, SpaceOf(w), fate);
        LeadsOn(w, events, now, ending, ended);
      } else {
        SoloBindsThen(w, events, now, p, owner, SpaceOf(w), fate);
      }
    }
  }

  lemma SoloBindsThen(
      w: World, events: seq<Event>, now: World, p: Process, owner: OwnerHash, space: Namespace, fate: Fate)
    requires Leads(w, events, now) && Alone(now, p, owner, Cleared) && WellFormed(space)
    requires SpaceOf(now) == space.(occupant := Absent)
    requires fate.Completes? || (fate.at != BeforeUnlink && fate.at != AfterUnlink)
    ensures exists more, w' :: Leads(w, more, w') && SpaceOf(w') == OutcomeOf(space, owner, fate)
              && (if fate.Completes? then AtStep(w', p, Serves) else w'.binders == map[])
  {
    hide Leads, Enabled, Apply;
    var at := if fate.Completes? then AfterRecord else fate.at;
    var reaching, reached := SoloReaches(now, p, owner, at);
    LeadsOn(w, events, now, reaching, reached);
    if fate.Completes? {
      var serving, served := SoloConfirms(reached, p, owner);
      LeadsOn(w, events + reaching, reached, serving, served);
    } else {
      var ending, ended := SoloEnds(reached, p, owner, space, fate);
      LeadsOn(w, events + reaching, reached, ending, ended);
    }
  }

  // ---------------------------------------------------------------- a run that adopts

  /** A run, stated by its events only, is a run of the protocol. */
  lemma {:induction false} LeadsIsRun(from: World, events: seq<Event>, to: World)
    requires Init(from) && Leads(from, events, to)
    ensures exists worlds :: IsRun(worlds, events) && |worlds| == |events| + 1 && worlds[0] == from && worlds[|events|] == to
    decreases |events|
  {
    hide Enabled, Apply, Init;
    var worlds := Trace(from, events, to);
    assert IsRun(worlds, events);
  }

  lemma {:induction false} Trace(from: World, events: seq<Event>, to: World) returns (worlds: seq<World>)
    requires Leads(from, events, to)
    ensures |worlds| == |events| + 1 && worlds[0] == from && worlds[|events|] == to
    ensures forall k :: 0 <= k < |events| ==> Enabled(worlds[k], events[k]) && worlds[k + 1] == Apply(worlds[k], events[k])
    decreases |events|
  {
    hide Enabled, Apply;
    if events == [] {
      worlds := [from];
    } else {
      var rest := Trace(Apply(from, events[0]), events[1..], to);
      worlds := [from] + rest;
      forall k | 0 <= k < |events|
        ensures Enabled(worlds[k], events[k]) && worlds[k + 1] == Apply(worlds[k], events[k])
      {
        if k > 0 { assert worlds[k] == rest[k - 1] && events[k] == events[1..][k - 1]; }
      }
    }
  }

  /** The guard is about to unlink a socket it did not create and that has a listener. */
  predicate RemovesForeign(w: World, e: Event, p: Process)
  {
    e == Fail(p, true) && p in w.binders && w.binders[p].stage.Guarded? && Enabled(w, e)
    && w.occupant.Socket? && w.occupant.id in w.listening && w.occupant.id != w.binders[p].stage.listener
    && Apply(w, e).occupant == Absent
  }

  lemma SoloAdopts(w: World, p: Process, owner: OwnerHash) returns (events: seq<Event>, w': World)
    requires p in w.binders && w.binders[p].stage.Bound? && Alone(w, p, owner, w.binders[p].stage)
    requires w.binders[p].stage.listener < w.nextSocket
    ensures Leads(w, events, w') && RemovesForeign(w', Fail(p, true), p)
  {
    hide Leads;
    LeadsNowhere(w);
    events, w' := Then(w, [], w, ForeignSocket(true));
    events, w' := Then(w, events, w', Identify(p));
  }

  lemma LongerRun(worlds: seq<World>, events: seq<Event>, e: Event)
    requires IsRun(worlds, events) && Enabled(worlds[|events|], e)
    ensures IsRun(worlds + [Apply(worlds[|events|], e)], events + [e])
  {
    hide Enabled, Apply, Init;
  }

  lemma SoloReachesAdoption(w: World, p: Process, owner: OwnerHash) returns (events: seq<Event>, adopted: World)
    requires Init(w) && w.occupant == Absent
    ensures Leads(w, events, adopted) && RemovesForeign(adopted, Fail(p, true), p)
  {
    hide Leads, Enabled, Apply, RemovesForeign;
    InitHolds(w);
    var opening, locked := SoloOpens(w, p, owner);
    var clearing, cleared := SoloClears(locked, p, owner);
    LeadsOn(w, opening, locked, clearing, cleared);
    var binding, bound := SoloBinds(cleared, p, owner);
    LeadsOn(w, opening + clearing, cleared, binding, bound);
    var adopting, last := SoloAdopts(bound, p, owner);
    LeadsOn(w, opening + clearing + binding, bound, adopting, last);
    events, adopted := opening + clearing + binding + adopting, last;
  }

  /** The adopted socket of `ReplacementIsAdopted` occurs in a run from an empty path: its
      last step removes a live socket that is not the binder's own. */
  lemma AdoptionHappens(w: World, p: Process, owner: OwnerHash)
    requires Init(w) && w.occupant == Absent
    ensures exists worlds, events :: IsRun(worlds, events) && |events| > 0 && |worlds| == |events| + 1 && worlds[0] == w
              && RemovesForeign(worlds[|events| - 1], events[|events| - 1], p)
  {
    hide Leads, Enabled, Apply, IsRun, Init;
    var e := Fail(p, true);
    var events, adopted := SoloReachesAdoption(w, p, owner);
    LeadsIsRun(w, events, adopted);
    var worlds :| IsRun(worlds, events) && |worlds| == |events| + 1 && worlds[0] == w && worlds[|events|] == adopted;
    LongerRun(worlds, events, e);
    var run, all := worlds + [Apply(adopted, e)], events + [e];
    assert IsRun(run, all) && run[0] == w && run[|all| - 1] == adopted && all[|all| - 1] == e;
  }

  // ---------------------------------------------------------------- every lone run is one of these

  /** How a lone binder can leave the namespace: as it was, or, if it may bind, as one of the
      fates says. */
  ghost predicate IsEnding(space: Namespace, owner: OwnerHash, now: Namespace)
  {
    now == space || (Bindable(space, owner) && exists fate :: IsFateOf(space, owner, fate, now))
  }

  predicate IsFateOf(space: Namespace, owner: OwnerHash, fate: Fate, now: Namespace)
  {
    !fate.Completes? && now == OutcomeOf(space, owner, fate)
  }

  function PointOf(step: Step): Point
  {
    match step
    case Truncated => AfterTruncate
    case Cut => MidWrite
    case Recorded => AfterRecord
    case Serves => AfterRecord
    case _ => AfterIdentify
  }

  /** What a lone binder has done to the namespace by the time it is in each stage. */
  ghost predicate Progress(space: Namespace, owner: OwnerHash, stage: Stage, now: Namespace)
  {
    match stage
    case Opened => now == space
    case Locked => now == space
    case Read(record) => now == space && record == space.record
    case Prepared(existing) =>
      now == space && space.record != Corrupt
      && (if existing.Some? then space.occupant == Socket(existing.value) && space.record == Complete(owner, existing.value)
          else space.occupant == Absent)
    case Probed(refused) => now == space && space.occupant == Socket(refused) && Bindable(space, owner)
    case Cleared => now == space.(occupant := Absent) && Bindable(space, owner)
    case Bound(listener) => listener == space.next && now == Halfway(space, space.record) && Bindable(space, owner)
    case Guarded(step, listener, socket) =>
      listener == socket == space.next && now == Halfway(space, RecordAt(space, owner, PointOf(step))) && Bindable(space, owner)
    case Closed(socket) =>
      socket == space.next && now == LeftBehind(space, owner, AfterRecord, false) && Bindable(space, owner)
    case Draining(listener) =>
      listener == space.next && Bindable(space, owner)
      && (exists fate :: IsFateOf(space, owner, fate, now.(listening := space.listening)))
      && now.listening == space.listening + {listener}
  }

  ghost predicate SoloInv(w: World, p: Process, owner: OwnerHash, space: Namespace)
  {
    WellFormed(space)
    && if p in w.binders
       then Alone(w, p, owner, w.binders[p].stage) && Progress(space, owner, w.binders[p].stage, SpaceOf(w))
       else w.binders == map[] && IsEnding(space, owner, SpaceOf(w))
  }

  /** The fate a binder meets when this step ends it, or its guard, in this stage. */
  function FateAt(stage: Stage, e: Event): Fate
  {
    match stage
    case Bound(_) => Killed(AfterBind)
    case Guarded(step, _, _) => if e.Fail? then Failed(PointOf(step), e.unlinks) else Killed(PointOf(step))
    case Closed(_) => if e.DropGuard? then Failed(AfterRecord, e.unlinks) else Killed(AfterRecord)
    case _ => Killed(AfterUnlink)
  }

  /** A kill, an error or the final drop. */
  predicate Ends(e: Event)
  {
    e.Kill? || e.Fail? || e.DropGuard? || e.Drained?
  }

  lemma SoloStops(w: World, e: Event, p: Process, owner: OwnerHash, space: Namespace)
    requires SoloInv(w, p, owner, space) && Enabled(w, e) && Ends(e) && e.p == p
    ensures SoloInv(Apply(w, e), p, owner, space)
  {
    var stage := w.binders[p].stage;
    WithoutFresh(space.listening, space.next);
    if stage.Guarded? && e.Fail? {
      assert IsFateOf(space, owner, FateAt(stage, e), SpaceOf(Apply(w, e)).(listening := space.listening));
    } else if stage.Draining? {
      var fate :| IsFateOf(space, owner, fate, SpaceOf(w).(listening := space.listening));
      assert IsFateOf(space, owner, fate, SpaceOf(Apply(w, e)));
    } else if stage.Cleared? || stage.Bound? || stage.Guarded? || stage.Closed? {
      assert IsFateOf(space, owner, FateAt(stage, e), SpaceOf(Apply(w, e)));
    }
  }

  /** The steps up to the recheck. */
  predicate IsEarly(e: Event)
  {
    e.TryLock? || e.ReadRecord? || e.Prepare? || e.Probe? || e.Recheck?
  }

  lemma SoloAdvancesEarly(w: World, e: Event, p: Process, owner: OwnerHash, space: Namespace)
    requires SoloInv(w, p, owner, space) && Enabled(w, e) && IsEarly(e) && e.p == p
    ensures SoloInv(Apply(w, e), p, owner, space)
  {
    hide IsEnding, OutcomeOf, WellFormed, Halfway;
  }

  lemma SoloAdvancesLate(w: World, e: Event, p: Process, owner: OwnerHash, space: Namespace)
    requires SoloInv(w, p, owner, space) && Enabled(w, e) && !IsForeign(e) && e.p == p
    requires !e.OpenLock? && !Ends(e) && !IsEarly(e) && !e.CloseListener?
    ensures SoloInv(Apply(w, e), p, owner, space)
  {
    hide IsEnding, OutcomeOf, Bindable, LeftBehind, WellFormed;
  }

  lemma SoloCloses(w: World, p: Process, owner: OwnerHash, space: Namespace)
    requires SoloInv(w, p, owner, space) && Enabled(w, CloseListener(p))
    ensures SoloInv(Apply(w, CloseListener(p)), p, owner, space)
  {
    hide IsEnding, Bindable;
    WithoutFresh(space.listening, space.next);
  }

  lemma SoloAdvances(w: World, e: Event, p: Process, owner: OwnerHash, space: Namespace)
    requires SoloInv(w, p, owner, space) && Enabled(w, e) && !IsForeign(e) && !e.OpenLock? && !Ends(e) && e.p == p
    ensures SoloInv(Apply(w, e), p, owner, space)
  {
    hide SoloInv, Enabled, Apply;
    if IsEarly(e) {
      SoloAdvancesEarly(w, e, p, owner, space);
    } else if e.CloseListener? {
      SoloCloses(w, p, owner, space);
    } else {
      SoloAdvancesLate(w, e, p, owner, space);
    }
  }

  lemma SoloOpened(w: World, p: Process, owner: OwnerHash)
    requires Inv(w) && w.binders == map[] && WellFormed(SpaceOf(w))
    ensures Enabled(w, OpenLock(p, owner)) && SoloInv(Apply(w, OpenLock(p, owner)), p, owner, SpaceOf(w))
  {
    hide Bindable;
  }

  /** Events of binder p alone, within one bind. */
  predicate IsSolo(events: seq<Event>, p: Process)
  {
    forall i :: 0 <= i < |events| ==> !IsForeign(events[i]) && !events[i].OpenLock? && events[i].p == p
  }

  lemma {:induction false} SoloKeeps(
      w: World, events: seq<Event>, w': World, p: Process, owner: OwnerHash, space: Namespace)
    requires SoloInv(w, p, owner, space) && IsSolo(events, p) && Leads(w, events, w')
    ensures SoloInv(w', p, owner, space)
    decreases |events|
  {
    hide Enabled, Apply, SoloInv;
    if events != [] {
      assert events[0] in events;
      if Ends(events[0]) { SoloStops(w, events[0], p, owner, space); } else { SoloAdvances(w, events[0], p, owner, space); }
      assert forall i :: 0 <= i < |events[1..]| ==> events[1..][i] == events[i + 1];
      SoloKeeps(Apply(w, events[0]), events[1..], w', p, owner, space);
    }
  }

  /** Wherever a lone binder's run leads: once it serves, the namespace is the bound one; once
      it is gone, the namespace is as it was, or, if binding may go ahead, what one of the
      fates leaves. */
  lemma LoneBinderEndings(w: World, events: seq<Event>, w': World, p: Process, owner: OwnerHash)
    requires Inv(w) && w.binders == map[] && WellFormed(SpaceOf(w))
    requires IsSolo(events, p) && Leads(w, [OpenLock(p, owner)] + events, w')
    ensures p !in w'.binders ==> IsEnding(SpaceOf(w), owner, SpaceOf(w'))
    ensures AtStep(w', p, Serves) ==> Bindable(SpaceOf(w), owner) && SpaceOf(w') == BoundSpace(SpaceOf(w), owner)
  {
    hide Enabled, Apply, Inv, IsEnding;
    SoloOpened(w, p, owner);
    assert ([OpenLock(p, owner)] + events)[1..] == events;
    SoloKeeps(Apply(w, OpenLock(p, owner)), events, w', p, owner, SpaceOf(w));
  }
}
