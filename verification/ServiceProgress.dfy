/** That start, stop and status get their work done: from any state the protocol can be in, the
    runs in which the caller, and the child concerned, are not interrupted. */
module ServiceProgress {
  import opened Text
  import opened ServiceLifecycle
  import opened ServiceInvariants
  import opened ServiceTheorems
  import opened ServiceRuns

  // ---------------------------------------------------------------- one caller alone

  ghost predicate By(events: seq<Event>, p: Process)
  {
    forall e :: e in events ==> e.CallerStep? && e.p == p
  }

  /** Nothing but the place of p is different. */
  ghost predicate Only(w: World, w': World, p: Process, pc: Pc)
  {
    Inv(w') && p in w.callers && w'.callers == w.callers[p := w.callers[p].(pc := pc)] && w'.children == w.children
    && w'.next == w.next && w'.files == w.files
  }

  lemma NotYet(w: World, p: Process)
    requires Inv(w) && p in w.callers
    ensures Leads(w, [], w) && By([], p) && Only(w, w, p, w.callers[p].pc)
  {
    hide Inv;
    assert w.callers == w.callers[p := w.callers[p].(pc := w.callers[p].pc)];
  }

  /** An act that only moves the caller. */
  predicate IsQuiet(w: World, caller: Caller, act: Act)
  {
    CanAct(w, caller, act) && !act.Spawn? && !act.Publish? && !act.RemoveFile? && EffectOf(w, caller, act).NoEffect?
  }

  lemma ThenAlone(w: World, events: seq<Event>, via: World, p: Process, pc: Pc, act: Act) returns (more: seq<Event>, to: World)
    requires Inv(w) && Leads(w, events, via) && By(events, p) && Only(w, via, p, pc) && IsQuiet(via, via.callers[p], act)
    ensures Leads(w, more, to) && By(more, p) && Only(w, to, p, NextPc(via, via.callers[p], act))
  {
    hide Leads, Inv, LocksAfter, CanAct, NextPc, EffectOf;
    more, to := ThenActs(w, events, via, p, act);
  }

  /** A caller that had nothing adds its own locks to those there were. */
  lemma LocksAlone(w: World, w': World, p: Process, pc: Pc, key: Key)
    requires Inv(w) && Only(w, w', p, pc) && w.callers[p].pc.Begin?
    ensures key in w'.locks <==> key in HeldByCaller(w'.callers[p]) || key in w.locks
  {
    hide HeldByChild, PidInv, FileInv, ChildInv, PcInv;
    LocksChange(w, w', User(p));
    assert Held(w, User(p)) == {};
    if key in w.locks { assert Holds(w.locks, key, w.locks[key]); }
  }

  lemma AnswersAlone(w: World, w': World, p: Process, pc: Pc, state: Identity)
    requires Inv(w) && Only(w, w', p, pc)
    ensures AnswersAs(w', state) <==> AnswersAs(w, state)
  {
    hide HeldByChild, HeldByCaller, PidInv, FileInv, ChildInv, PcInv;
    var key, kid := Listener(state.endpoint), Kid(state.instance);
    assert Held(w', kid) == Held(w, kid);
    assert Holds(w.locks, key, kid) <==> Holds(w'.locks, key, kid);
  }

  /** The instance probe, one step or two. */
  lemma ProbesInstanceLock(
      w: World, before: seq<Event>, via: World, p: Process, found: Option<Identity>, starting: bool)
      returns (events: seq<Event>, w': World)
    requires Inv(w) && Leads(w, before, via) && By(before, p) && Only(w, via, p, Look(found, starting)) && w.callers[p].pc.Begin?
    ensures Leads(w, events, w') && By(events, p)
    ensures Only(w, w', p, InstanceKnown(found, starting, InstanceLock(StateOf(w.callers[p].role)) in w.locks))
  {
    hide Leads, Inv, By;
    LocksAlone(w, via, p, Look(found, starting), InstanceLock(StateOf(w.callers[p].role)));
    events, w' := ThenAlone(w, before, via, p, Look(found, starting), Probe);
    if InstanceLock(StateOf(w.callers[p].role)) !in w.locks {
      events, w' := ThenAlone(w, events, w', p, ProbingInstance(found, starting), EndProbe);
    }
  }

  // ---------------------------------------------------------------- status

  lemma StatusLooks(w: World, p: Process, path: StatePath) returns (events: seq<Event>, w': World)
    requires Inv(w) && p in w.callers && w.callers[p] == Caller(Inspecting(path), Begin)
    ensures Leads(w, events, w') && By(events, p)
    ensures Only(w, w', p, InstanceKnown(StoredAt(w, path), StartupLock(path) in w.locks, InstanceLock(path) in w.locks))
  {
    hide Leads, Inv, By;
    NotYet(w, p);
    var found := StoredAt(w, path);
    events, w' := ThenAlone(w, [], w, p, Begin, ReadFile);
    LocksAlone(w, w', p, Found(found), StartupLock(path));
    events, w' := ThenAlone(w, events, w', p, Found(found), Probe);
    if StartupLock(path) !in w.locks {
      events, w' := ThenAlone(w, events, w', p, ProbingStartup(found), EndProbe);
    }
    events, w' := ProbesInstanceLock(w, events, w', p, found, StartupLock(path) in w.locks);
  }

  /** What an undisturbed `status` can answer, as a table over the state it finds. */
  lemma StatusAnswers(w: World, p: Process, path: StatePath) returns (events: seq<Event>, w': World, outcome: Outcome)
    requires Inv(w) && p in w.callers && w.callers[p] == Caller(Inspecting(path), Begin)
    ensures Leads(w, events, w') && By(events, p) && Only(w, w', p, Done(outcome))
    ensures var starting, active := StartupLock(path) in w.locks, InstanceLock(path) in w.locks;
      outcome == if path !in w.files then (if starting then ReportsStarting else if active then Unresponsive else Stopped)
                 else if active && AnswersAs(w, w.files[path]) then Running(w.files[path])
                 else if !active && !starting && Listener(w.files[path].endpoint) !in w.locks then Stale(w.files[path])
                 else Unresponsive
  {
    hide Leads, Inv, By, AnswersAs;
    var starting, active := StartupLock(path) in w.locks, InstanceLock(path) in w.locks;
    var known := InstanceKnown(StoredAt(w, path), starting, active);
    events, w' := StatusLooks(w, p, path);
    var act := NoState;
    if path in w.files {
      AnswersAlone(w, w', p, known, w.files[path]);
      LocksAlone(w, w', p, known, Listener(w.files[path].endpoint));
      act := if active && AnswersAs(w, w.files[path]) then PingMatched
             else if Listener(w.files[path].endpoint) !in w.locks then PingUnavailable else PingOther;
    }
    outcome := NextPc(w', w'.callers[p], act).outcome;
    events, w' := ThenAlone(w, events, w', p, known, act);
  }

  // ---------------------------------------------------------------- under the startup lock

  predicate IsCoordinator(role: Role)
  {
    role.Starting? || role.StoppingService?
  }

  lemma CoordinatorLooks(w: World, p: Process, path: StatePath) returns (events: seq<Event>, w': World)
    requires Inv(w) && p in w.callers && IsCoordinator(w.callers[p].role) && w.callers[p].pc.Begin?
    requires path == StateOf(w.callers[p].role) && StartupLock(path) !in w.locks
    ensures Leads(w, events, w') && By(events, p)
    ensures Only(w, w', p, InstanceKnown(StoredAt(w, path), true, InstanceLock(path) in w.locks))
  {
    hide Leads, Inv, By;
    NotYet(w, p);
    events, w' := ThenAlone(w, [], w, p, Begin, Coordinate);
    events, w' := ThenAlone(w, events, w', p, Coordinating, ReadFile);
    events, w' := ProbesInstanceLock(w, events, w', p, StoredAt(w, path), true);
  }

  lemma FindsBusy(w: World, p: Process) returns (events: seq<Event>, w': World)
    requires Inv(w) && p in w.callers && IsCoordinator(w.callers[p].role) && w.callers[p].pc.Begin?
    requires StartupLock(StateOf(w.callers[p].role)) in w.locks
    ensures Leads(w, events, w') && By(events, p) && Only(w, w', p, Done(ReportsStarting))
  {
    hide Leads, Inv, By;
    NotYet(w, p);
    events, w' := ThenAlone(w, [], w, p, Begin, FindBusy);
  }

  /** A service is recorded, but nobody has its instance lock and nobody listens where it did. */
  predicate IsStale(w: World, path: StatePath)
  {
    path in w.files && InstanceLock(path) !in w.locks && Listener(w.files[path].endpoint) !in w.locks
  }

  /** The recorded service answers as itself. */
  predicate IsRunning(w: World, path: StatePath)
  {
    path in w.files && InstanceLock(path) in w.locks && AnswersAs(w, w.files[path])
  }

  // ---------------------------------------------------------------- stop

  /** What an undisturbed `stop` can answer where no recorded service is running and no file
      is stale. */
  lemma StopAnswers(w: World, p: Process, path: StatePath) returns (events: seq<Event>, w': World, outcome: Outcome)
    requires Inv(w) && p in w.callers && w.callers[p] == Caller(StoppingService(path), Begin)
    requires StartupLock(path) in w.locks || (!IsStale(w, path) && !IsRunning(w, path))
    ensures Leads(w, events, w') && By(events, p) && Only(w, w', p, Done(outcome))
    ensures outcome == if StartupLock(path) in w.locks then ReportsStarting
                       else if path in w.files || InstanceLock(path) in w.locks then Unresponsive
                       else Stopped
  {
    hide Leads, Inv, By, AnswersAs;
    if StartupLock(path) in w.locks {
      outcome := ReportsStarting;
      events, w' := FindsBusy(w, p);
    } else {
      var known := InstanceKnown(StoredAt(w, path), true, InstanceLock(path) in w.locks);
      events, w' := CoordinatorLooks(w, p, path);
      var act := if path in w.files then PingOther else NoState;
      outcome := NextPc(w', w'.callers[p], act).outcome;
      events, w' := ThenAlone(w, events, w', p, known, act);
    }
  }

  /** The last two acts of a stop. */
  lemma RemovesFile(w: World, before: seq<Event>, via: World, p: Process, path: StatePath, state: Identity)
      returns (events: seq<Event>, w': World)
    requires Leads(w, before, via) && Inv(via) && p in via.callers && via.callers[p] == Caller(StoppingService(path), Removing(state))
    requires StoredAt(via, path) == Some(state)
    ensures Leads(w, events, w') && Inv(w') && events == before + [CallerStep(p, CheckFile)] + [CallerStep(p, RemoveFile)]
    ensures w'.callers == via.callers[p := via.callers[p].(pc := Done(Stopped))] && w'.children == via.children
    ensures w'.next == via.next && w'.files == via.files - {path}
  {
    hide Leads, Inv, LocksAfter;
    events, w' := ThenActs(w, before, via, p, CheckFile);
    events, w' := ThenActs(w, events, w', p, RemoveFile);
  }

  /** An undisturbed `stop` removes a stale file. */
  lemma StopRemovesStale(w: World, p: Process, path: StatePath) returns (events: seq<Event>, w': World)
    requires Inv(w) && p in w.callers && w.callers[p] == Caller(StoppingService(path), Begin)
    requires StartupLock(path) !in w.locks && IsStale(w, path)
    ensures Leads(w, events, w') && By(events, p) && Inv(w')
    ensures w'.callers == w.callers[p := w.callers[p].(pc := Done(Stopped))] && w'.children == w.children
    ensures w'.files == w.files - {path}
  {
    hide Leads, Inv;
    var state := w.files[path];
    events, w' := CoordinatorLooks(w, p, path);
    LocksAlone(w, w', p, InstanceKnown(Some(state), true, false), Listener(state.endpoint));
    events, w' := ThenAlone(w, events, w', p, InstanceKnown(Some(state), true, false), PingUnavailable);
    events, w' := RemovesFile(w, events, w', p, path, state);
  }

  /** A stopper whose service will not go can give up, with the file and the service as they are. */
  lemma StopperGivesUp(w: World, p: Process) returns (events: seq<Event>, w': World)
    requires Inv(w) && p in w.callers
    requires w.callers[p].pc.Targeting? || w.callers[p].pc.Awaiting? || w.callers[p].pc.IndexFree?
    ensures Leads(w, events, w') && By(events, p) && Only(w, w', p, Done(Unresponsive))
  {
    hide Leads, Inv, By;
    NotYet(w, p);
    var pc := w.callers[p].pc;
    events, w' := ThenAlone(w, [], w, p, pc, PingOther);
  }

  ghost predicate ByBoth(events: seq<Event>, p: Process, c: Process)
  {
    forall e :: e in events ==> (e.CallerStep? && e.p == p) || (e.ChildStep? && e.c == c)
  }

  /** Only p and the child have moved; the child holds nothing any more. */
  ghost predicate Retired(w: World, w': World, p: Process, pc: Pc, c: Process)
  {
    Inv(w') && p in w.callers && c in w.children && w'.callers == w.callers[p := w.callers[p].(pc := pc)]
    && w'.children == w.children[c := w.children[c].(phase := Finished)] && w'.next == w.next && w'.files == w.files
  }

  lemma ThenRetired(
      w: World, events: seq<Event>, via: World, p: Process, pc: Pc, c: Process, act: Act) returns (more: seq<Event>, to: World)
    requires Leads(w, events, via) && ByBoth(events, p, c) && Retired(w, via, p, pc, c) && IsQuiet(via, via.callers[p], act)
    ensures Leads(w, more, to) && ByBoth(more, p, c) && Retired(w, to, p, NextPc(via, via.callers[p], act), c)
    ensures more == events + [CallerStep(p, act)]
  {
    hide Leads, Inv, LocksAfter, CanAct, NextPc, EffectOf;
    more, to := ThenActs(w, events, via, p, act);
  }

  /** What the retired child held is nobody's. */
  lemma RetiredFrees(w: World, w': World, p: Process, pc: Pc, c: Process, key: Key)
    requires Inv(w) && Retired(w, w', p, pc, c) && key in HeldByChild(w.children[c]) && key !in HeldByCaller(w'.callers[p])
    ensures key !in w'.locks
  {
    hide HeldByChild, HeldByCaller, PidInv, FileInv, ChildInv, PcInv;
    assert key in Held(w, Kid(c));
    assert HeldByChild(w'.children[c]) == {} by { FinishedHoldsNothing(w'.children[c]); }
    forall h ensures key !in Held(w', h) {
      if h != Kid(c) && h != User(p) {
        assert Held(w', h) == Held(w, h);
        if key in Held(w, h) { OneHolder(w, key, Kid(c), h); }
      }
    }
    FreeKey(w', key);
  }

  lemma FinishedHoldsNothing(child: Child)
    requires child.phase.Finished?
    ensures HeldByChild(child) == {}
  {
  }

  /** The shutdown request: the child stops serving, the stopper waits. */
  lemma TellsToStop(w: World, before: seq<Event>, via: World, p: Process, path: StatePath, state: Identity)
      returns (events: seq<Event>, w': World)
    requires Leads(w, before, via) && Inv(via) && p in via.callers && via.callers[p] == Caller(StoppingService(path), Targeting(state))
    requires AnswersAs(via, state) && via.children[state.instance].entered
    ensures Leads(w, events, w') && events == before + [CallerStep(p, SendShutdown)] && Inv(w')
    ensures w'.callers == via.callers[p := via.callers[p].(pc := Awaiting(state))] && w'.next == via.next && w'.files == via.files
    ensures w'.children == via.children[state.instance := via.children[state.instance].(phase := Stopping)]
  {
    hide Leads, Inv, HeldByChild, HeldByCaller, Relock;
    events, w' := Then(w, before, via, CallerStep(p, SendShutdown));
  }

  lemma MayRetire(w: World, c: Process, to: Phase)
    requires Inv(w) && c in w.children && w.children[c].entered && Moves(w.children[c].phase, to)
    requires to.Stopping? || to.EndpointClosed? || to.IndexReleased? || to.Finished?
    ensures Enabled(w, ChildStep(c, to)) && MovedTo(w.children[c], to) == w.children[c].(phase := to)
  {
    hide LockInv, PidInv, FileInv, PcInv, Relock;
  }

  /** The child ends by itself. */
  lemma ChildEnds(w: World, before: seq<Event>, via: World, c: Process) returns (events: seq<Event>, w': World)
    requires Leads(w, before, via) && Inv(via) && c in via.children && via.children[c].entered && via.children[c].phase.Stopping?
    ensures Leads(w, events, w') && Inv(w') && w'.callers == via.callers && w'.next == via.next && w'.files == via.files
    ensures w'.children == via.children[c := via.children[c].(phase := Finished)]
    ensures events == before + [ChildStep(c, EndpointClosed)] + [ChildStep(c, IndexReleased)] + [ChildStep(c, Finished)]
  {
    hide Leads, Inv, Enabled, MovedTo, Apply, LocksAfter;
    MayRetire(via, c, EndpointClosed);
    events, w' := ThenMoves(w, before, via, c, EndpointClosed);
    MayRetire(w', c, IndexReleased);
    events, w' := ThenMoves(w, events, w', c, IndexReleased);
    MayRetire(w', c, Finished);
    events, w' := ThenMoves(w, events, w', c, Finished);
  }

  /** The stopper is where it says, its recorded child has ended, nothing else is different. */
  ghost predicate Waits(w: World, w': World, p: Process, path: StatePath, state: Identity, pc: Pc)
  {
    p in w.callers && w.callers[p].role == StoppingService(path) && Retired(w, w', p, pc, state.instance)
    && InstanceLock(path) in HeldByChild(w.children[state.instance])
    && IndexLock(state.index) in HeldByChild(w.children[state.instance])
    && Listener(state.endpoint) in HeldByChild(w.children[state.instance])
  }

  lemma ThenWaits(
      w: World, before: seq<Event>, via: World, p: Process, path: StatePath, state: Identity, pc: Pc, act: Act)
      returns (events: seq<Event>, w': World)
    requires Leads(w, before, via) && ByBoth(before, p, state.instance) && Waits(w, via, p, path, state, pc)
    requires IsQuiet(via, via.callers[p], act)
    ensures Leads(w, events, w') && ByBoth(events, p, state.instance) && events == before + [CallerStep(p, act)]
    ensures Waits(w, w', p, path, state, NextPc(via, via.callers[p], act))
  {
    hide Leads, ByBoth, Inv, HeldByChild, IsQuiet, NextPc;
    events, w' := ThenRetired(w, before, via, p, pc, state.instance, act);
  }

  lemma AtAwaiting(w: World, w': World, p: Process, path: StatePath, state: Identity)
    requires Inv(w) && Waits(w, w', p, path, state, Awaiting(state))
    ensures IsQuiet(w', w'.callers[p], Probe) && NextPc(w', w'.callers[p], Probe) == ProbingStop(state)
  {
    hide Inv, HeldByChild;
    RetiredFrees(w, w', p, Awaiting(state), state.instance, InstanceLock(path));
  }

  lemma AtInstanceFree(w: World, w': World, p: Process, path: StatePath, state: Identity)
    requires Inv(w) && Waits(w, w', p, path, state, InstanceFree(state))
    ensures IsQuiet(w', w'.callers[p], Probe) && NextPc(w', w'.callers[p], Probe) == HoldingIndex(state)
  {
    hide Inv, HeldByChild;
    RetiredFrees(w, w', p, InstanceFree(state), state.instance, IndexLock(state.index));
  }

  lemma AtIndexFree(w: World, w': World, p: Process, path: StatePath, state: Identity)
    requires Inv(w) && Waits(w, w', p, path, state, IndexFree(state))
    ensures IsQuiet(w', w'.callers[p], PingUnavailable) && NextPc(w', w'.callers[p], PingUnavailable) == Removing(state)
  {
    hide Inv, HeldByChild;
    RetiredFrees(w, w', p, IndexFree(state), state.instance, Listener(state.endpoint));
  }

  lemma EndsProbe(w: World, w': World, p: Process, path: StatePath, state: Identity, pc: Pc)
    requires Waits(w, w', p, path, state, pc) && (pc == ProbingStop(state) || pc == HoldingIndex(state))
    ensures IsQuiet(w', w'.callers[p], EndProbe)
    ensures NextPc(w', w'.callers[p], EndProbe) == if pc.ProbingStop? then InstanceFree(state) else IndexFree(state)
  {
    hide Inv, HeldByChild;
  }

  /** The wait: instance lock, index lock and endpoint in turn. */
  lemma StopperWaits(
      w: World, before: seq<Event>, via: World, p: Process, path: StatePath, state: Identity)
      returns (events: seq<Event>, w': World)
    requires Inv(w) && Leads(w, before, via) && ByBoth(before, p, state.instance) && Waits(w, via, p, path, state, Awaiting(state))
    ensures Leads(w, events, w') && ByBoth(events, p, state.instance) && before <= events
    ensures Waits(w, w', p, path, state, Removing(state))
  {
    hide Leads, Inv, ByBoth, Waits, IsQuiet, NextPc;
    AtAwaiting(w, via, p, path, state);
    events, w' := ThenWaits(w, before, via, p, path, state, Awaiting(state), Probe);
    EndsProbe(w, w', p, path, state, ProbingStop(state));
    events, w' := ThenWaits(w, events, w', p, path, state, ProbingStop(state), EndProbe);
    AtInstanceFree(w, w', p, path, state);
    events, w' := ThenWaits(w, events, w', p, path, state, InstanceFree(state), Probe);
    EndsProbe(w, w', p, path, state, HoldingIndex(state));
    events, w' := ThenWaits(w, events, w', p, path, state, HoldingIndex(state), EndProbe);
    AtIndexFree(w, w', p, path, state);
    events, w' := ThenWaits(w, events, w', p, path, state, IndexFree(state), PingUnavailable);
  }

  lemma StopperFinishes(
      w: World, before: seq<Event>, via: World, p: Process, path: StatePath, state: Identity)
      returns (events: seq<Event>, w': World)
    requires Inv(w) && Leads(w, before, via) && ByBoth(before, p, state.instance) && Waits(w, via, p, path, state, Awaiting(state))
    requires StoredAt(w, path) == Some(state)
    ensures Leads(w, events, w') && ByBoth(events, p, state.instance) && Inv(w') && before <= events
    ensures w'.callers == w.callers[p := w.callers[p].(pc := Done(Stopped))] && w'.files == w.files - {path}
    ensures w'.children == w.children[state.instance := w.children[state.instance].(phase := Finished)]
  {
    hide Leads, Inv, HeldByChild, ByBoth;
    events, w' := StopperWaits(w, before, via, p, path, state);
    var asked := events;
    events, w' := RemovesFile(w, events, w', p, path, state);
    StillByBoth(asked, events, p, state.instance);
  }

  lemma StillByBoth(events: seq<Event>, more: seq<Event>, p: Process, c: Process)
    requires ByBoth(events, p, c) && more == events + [CallerStep(p, CheckFile)] + [CallerStep(p, RemoveFile)]
    ensures ByBoth(more, p, c)
  {
  }

  /** From any state in which the recorded service is serving: the run of the stopper and that
      child in which the child is told to stop and ends, and the file goes. */
  lemma StopShutsDown(w: World, p: Process, path: StatePath) returns (events: seq<Event>, w': World)
    requires Inv(w) && p in w.callers && w.callers[p] == Caller(StoppingService(path), Begin)
    requires StartupLock(path) !in w.locks && path in w.files && AnswersAs(w, w.files[path])
    ensures Leads(w, events, w') && ByBoth(events, p, w.files[path].instance) && CallerStep(p, SendShutdown) in events
    ensures Inv(w') && w'.callers == w.callers[p := w.callers[p].(pc := Done(Stopped))] && w'.files == w.files - {path}
    ensures w.files[path].instance in w.children
    ensures w'.children == w.children[w.files[path].instance := w.children[w.files[path].instance].(phase := Finished)]
  {
    hide Leads, Inv, AnswersAs, HeldByChild, HeldByCaller;
    var state := w.files[path];
    var c := state.instance;
    RecordedHoldsAll(w, path);
    events, w' := CoordinatorLooks(w, p, path);
    var known := InstanceKnown(Some(state), true, true);
    AnswersAlone(w, w', p, known, state);
    events, w' := ThenAlone(w, events, w', p, known, PingMatched);
    AnswersAlone(w, w', p, Targeting(state), state);
    var asked := events;
    events, w' := TellsToStop(w, events, w', p, path, state);
    events, w' := ChildEnds(w, events, w', c);
    ByBothSoFar(asked, events, p, c);
    var told := events;
    events, w' := StopperFinishes(w, events, w', p, path, state);
    assert told[|asked|] == CallerStep(p, SendShutdown) && events[|asked|] == told[|asked|];
  }

  lemma ByBothSoFar(asked: seq<Event>, events: seq<Event>, p: Process, c: Process)
    requires By(asked, p)
    requires events == asked + [CallerStep(p, SendShutdown)] + [ChildStep(c, EndpointClosed)] + [ChildStep(c, IndexReleased)]
                       + [ChildStep(c, Finished)]
    ensures ByBoth(events, p, c)
  {
  }

  lemma RecordedHoldsAll(w: World, path: StatePath)
    requires Inv(w) && path in w.files && AnswersAs(w, w.files[path])
    ensures var state := w.files[path];
      && state.instance in w.children && w.children[state.instance].phase.Serving? && w.children[state.instance].entered
      && InstanceLock(path) in HeldByChild(w.children[state.instance])
      && IndexLock(state.index) in HeldByChild(w.children[state.instance])
      && Listener(state.endpoint) in HeldByChild(w.children[state.instance])
    ensures InstanceLock(path) in w.locks
  {
    hide PidInv, ChildInv, PcInv;
    assert Known(w, path, w.files[path]);
    assert InstanceLock(path) in Held(w, Kid(w.files[path].instance));
    assert Holds(w.locks, InstanceLock(path), Kid(w.files[path].instance));
  }

  // ---------------------------------------------------------------- start

  /** Neither an owner nor an answer speaks against a start. */
  predicate MayStart(w: World, path: StatePath)
  {
    InstanceLock(path) !in w.locks && (path in w.files ==> Listener(w.files[path].endpoint) !in w.locks)
  }

  /** What an undisturbed `start` can answer where it may not spawn. */
  lemma StartAnswers(w: World, p: Process, config: Config) returns (events: seq<Event>, w': World, outcome: Outcome)
    requires Inv(w) && p in w.callers && w.callers[p] == Caller(Starting(config), Begin)
    requires StartupLock(config.state) in w.locks || !MayStart(w, config.state)
    ensures Leads(w, events, w') && By(events, p) && Only(w, w', p, Done(outcome))
    ensures outcome
         == if StartupLock(config.state) in w.locks then ReportsStarting
            else if !IsRunning(w, config.state) then Unresponsive
            else var state := w.files[config.state];
                 if state.index == config.index && state.endpoint == config.endpoint && state.seconds == config.seconds
                 then Running(state) else Mismatch
  {
    hide Leads, Inv, By, AnswersAs;
    var path := config.state;
    if StartupLock(path) in w.locks {
      outcome := ReportsStarting;
      events, w' := FindsBusy(w, p);
    } else {
      var known := InstanceKnown(StoredAt(w, path), true, InstanceLock(path) in w.locks);
      events, w' := CoordinatorLooks(w, p, path);
      if path in w.files { AnswersAlone(w, w', p, known, w.files[path]); }
      var act := if path !in w.files then NoState else if IsRunning(w, path) then PingMatched else PingOther;
      outcome := NextPc(w', w'.callers[p], act).outcome;
      events, w' := ThenAlone(w, events, w', p, known, act);
    }
  }

  /** The starter past its checks: nothing is different but that it holds the startup lock. */
  lemma StarterChecks(w: World, p: Process, config: Config) returns (events: seq<Event>, w': World)
    requires Inv(w) && p in w.callers && w.callers[p] == Caller(Starting(config), Begin)
    requires StartupLock(config.state) !in w.locks && MayStart(w, config.state) && IndexLock(config.index) !in w.locks
    ensures Leads(w, events, w') && By(events, p) && Only(w, w', p, Checked)
  {
    hide Leads, Inv, By;
    var path := config.state;
    var known := InstanceKnown(StoredAt(w, path), true, false);
    events, w' := CoordinatorLooks(w, p, path);
    if path in w.files { LocksAlone(w, w', p, known, Listener(w.files[path].endpoint)); }
    events, w' := ThenAlone(w, events, w', p, known, if path in w.files then PingUnavailable else NoState);
    LocksAlone(w, w', p, Clear, IndexLock(config.index));
    events, w' := ThenAlone(w, events, w', p, Clear, TakeIndex);
    events, w' := ThenAlone(w, events, w', p, Checking, EndProbe);
  }

  /** Nothing but the place of the starter is different, and that its child is there. */
  ghost predicate WithChild(w: World, w': World, p: Process, config: Config, pid: Pid, pc: Pc, phase: Phase)
  {
    Inv(w') && p in w.callers && w.callers[p].role == Starting(config) && w'.callers == w.callers[p := Caller(Starting(config), pc)]
    && w'.children == w.children[w.next := Child(config, pid, Some(p), phase, phase.Binding? || phase.Serving?)]
    && w'.next == w.next + 1 && w'.files == w.files
  }

  /** A lock is the starter's, the new child's, or was taken before. */
  lemma LocksWithChild(w: World, w': World, p: Process, config: Config, pid: Pid, pc: Pc, phase: Phase, key: Key)
    requires Inv(w) && WithChild(w, w', p, config, pid, pc, phase)
    ensures key in w'.locks ==> key in w.locks || key in HeldByCaller(w'.callers[p]) || key in HeldByChild(w'.children[w.next])
    ensures key in HeldByChild(w'.children[w.next]) ==> Holds(w'.locks, key, Kid(w.next))
  {
    hide HeldByChild, HeldByCaller, PidInv, FileInv, PcInv;
    if key in w'.locks && w'.locks[key] != Kid(w.next) && w'.locks[key] != User(p) {
      var h := w'.locks[key];
      assert Held(w', h) == Held(w, h);
      assert Holds(w'.locks, key, h);
      assert Holds(w.locks, key, h);
    } else if key in w'.locks {
      assert Holds(w'.locks, key, w'.locks[key]);
    }
    assert key in HeldByChild(w'.children[w.next]) ==> key in Held(w', Kid(w.next));
  }

  lemma StarterSpawns(w: World, before: seq<Event>, via: World, p: Process, config: Config, pid: Pid)
      returns (events: seq<Event>, w': World)
    requires Inv(w) && Leads(w, before, via) && Only(w, via, p, Checked) && w.callers[p].role == Starting(config) && PidFree(w, pid)
    ensures Leads(w, events, w') && events == before + [CallerStep(p, Spawn(pid))]
    ensures WithChild(w, w', p, config, pid, Waiting(w.next), Spawned)
  {
    hide Leads, Inv, HeldByChild, HeldByCaller, Relock;
    events, w' := Then(w, before, via, CallerStep(p, Spawn(pid)));
  }

  lemma NextChildIsNew(w: World)
    requires Inv(w)
    ensures w.next !in w.children
  {
    hide LockInv, PidInv, FileInv, PcInv;
  }

  lemma MayServe(w: World, w': World, p: Process, config: Config, pid: Pid, phase: Phase, to: Phase)
    requires Inv(w) && WithChild(w, w', p, config, pid, Waiting(w.next), phase)
    requires InstanceLock(config.state) !in w.locks && IndexLock(config.index) !in w.locks && Listener(config.endpoint) !in w.locks
    requires Moves(phase, to) && (to.HasIndex? || to.HasBoth? || to.Binding? || to.Serving?)
    ensures Enabled(w', ChildStep(w.next, to))
  {
    hide Inv;
    var child := w'.children[w.next];
    forall key | key in HeldByChild(MovedTo(child, to)) && key !in HeldByChild(child) ensures key !in w'.locks {
      LocksWithChild(w, w', p, config, pid, Waiting(w.next), phase, key);
    }
  }

  lemma ThenServes(
      w: World, before: seq<Event>, via: World, p: Process, config: Config, pid: Pid, phase: Phase, to: Phase)
      returns (events: seq<Event>, w': World)
    requires Inv(w) && Leads(w, before, via) && WithChild(w, via, p, config, pid, Waiting(w.next), phase)
    requires InstanceLock(config.state) !in w.locks && IndexLock(config.index) !in w.locks && Listener(config.endpoint) !in w.locks
    requires Moves(phase, to) && (to.HasIndex? || to.HasBoth? || to.Binding? || to.Serving?)
    ensures Leads(w, events, w') && events == before + [ChildStep(w.next, to)]
    ensures WithChild(w, w', p, config, pid, Waiting(w.next), to)
  {
    hide Leads, Inv, Enabled, Apply, LocksAfter;
    MayServe(w, via, p, config, pid, phase, to);
    events, w' := ThenMoves(w, before, via, w.next, to);
  }

  lemma ChildServes(w: World, before: seq<Event>, via: World, p: Process, config: Config, pid: Pid)
      returns (events: seq<Event>, w': World)
    requires Inv(w) && Leads(w, before, via) && WithChild(w, via, p, config, pid, Waiting(w.next), Spawned)
    requires InstanceLock(config.state) !in w.locks && IndexLock(config.index) !in w.locks && Listener(config.endpoint) !in w.locks
    ensures Leads(w, events, w') && WithChild(w, w', p, config, pid, Waiting(w.next), Serving)
    ensures events == before + [ChildStep(w.next, HasIndex)] + [ChildStep(w.next, HasBoth)] + [ChildStep(w.next, Binding)]
                      + [ChildStep(w.next, Serving)]
  {
    hide Leads, Inv, WithChild;
    events, w' := ThenServes(w, before, via, p, config, pid, Spawned, HasIndex);
    events, w' := ThenServes(w, events, w', p, config, pid, HasIndex, HasBoth);
    events, w' := ThenServes(w, events, w', p, config, pid, HasBoth, Binding);
    events, w' := ThenServes(w, events, w', p, config, pid, Binding, Serving);
  }

  lemma ThenWithChild(
      w: World, before: seq<Event>, via: World, p: Process, config: Config, pid: Pid, pc: Pc, act: Act)
      returns (events: seq<Event>, w': World)
    requires Inv(w) && Leads(w, before, via) && WithChild(w, via, p, config, pid, pc, Serving) && IsQuiet(via, via.callers[p], act)
    ensures Leads(w, events, w') && events == before + [CallerStep(p, act)]
    ensures WithChild(w, w', p, config, pid, NextPc(via, via.callers[p], act), Serving)
  {
    hide Leads, Inv, LocksAfter, CanAct, NextPc, EffectOf;
    events, w' := ThenActs(w, before, via, p, act);
  }

  lemma ServingAnswers(w: World, w': World, p: Process, config: Config, pid: Pid, pc: Pc)
    requires Inv(w) && WithChild(w, w', p, config, pid, pc, Serving)
    ensures Holds(w'.locks, Listener(config.endpoint), Kid(w.next)) && InstanceLock(config.state) in w'.locks
  {
    hide Inv;
    LocksWithChild(w, w', p, config, pid, pc, Serving, Listener(config.endpoint));
    LocksWithChild(w, w', p, config, pid, pc, Serving, InstanceLock(config.state));
  }

  /** The starter finds its child alive, answering and owning, and still alive. */
  lemma StarterConfirms(w: World, before: seq<Event>, via: World, p: Process, config: Config, pid: Pid)
      returns (events: seq<Event>, w': World)
    requires Inv(w) && Leads(w, before, via) && WithChild(w, via, p, config, pid, Waiting(w.next), Serving)
    ensures var identity := Identity(pid, config.index, config.endpoint, config.seconds, w.next);
            WithChild(w, w', p, config, pid, Ready(w.next, identity), Serving)
    ensures Leads(w, events, w')
    ensures events == before + [CallerStep(p, Poll)] + [CallerStep(p, PingChild)] + [CallerStep(p, Probe)] + [CallerStep(p, Poll)]
  {
    hide Leads, Inv;
    var c, identity := w.next, Identity(pid, config.index, config.endpoint, config.seconds, w.next);
    events, w' := ThenWithChild(w, before, via, p, config, pid, Waiting(c), Poll);
    ServingAnswers(w, w', p, config, pid, Alive(c));
    events, w' := ThenWithChild(w, events, w', p, config, pid, Alive(c), PingChild);
    ServingAnswers(w, w', p, config, pid, Pinged(c, identity));
    events, w' := ThenWithChild(w, events, w', p, config, pid, Pinged(c, identity), Probe);
    events, w' := ThenWithChild(w, events, w', p, config, pid, Confirmed(c, identity), Poll);
  }

  /** From any state in which nothing stands in the way: the run of the starter and its child
      in which the child comes to serve and the state file names it. */
  lemma StartServes(w: World, p: Process, config: Config, pid: Pid) returns (events: seq<Event>, w': World)
    requires Inv(w) && p in w.callers && w.callers[p] == Caller(Starting(config), Begin) && PidFree(w, pid)
    requires StartupLock(config.state) !in w.locks && MayStart(w, config.state)
    requires IndexLock(config.index) !in w.locks && Listener(config.endpoint) !in w.locks
    ensures Leads(w, events, w') && ByBoth(events, p, w.next) && Inv(w') && w.next !in w.children
    ensures var identity := Identity(pid, config.index, config.endpoint, config.seconds, w.next);
            w'.callers == w.callers[p := w.callers[p].(pc := Done(Started(identity)))] && w'.files == w.files[config.state := identity]
    ensures w'.children == w.children[w.next := Child(config, pid, Some(p), Serving, true)]
  {
    hide Leads, Inv, LocksAfter, PidFree;
    NextChildIsNew(w);
    events, w' := StarterChecks(w, p, config);
    var checked := events;
    events, w' := StarterSpawns(w, events, w', p, config, pid);
    events, w' := ChildServes(w, events, w', p, config, pid);
    events, w' := StarterConfirms(w, events, w', p, config, pid);
    events, w' := ThenActs(w, events, w', p, Publish);
    ByStarter(checked, events, p, w.next, pid);
  }

  lemma ByStarter(checked: seq<Event>, events: seq<Event>, p: Process, c: Process, pid: Pid)
    requires By(checked, p)
    requires events == checked + [CallerStep(p, Spawn(pid))] + [ChildStep(c, HasIndex)] + [ChildStep(c, HasBoth)]
                       + [ChildStep(c, Binding)] + [ChildStep(c, Serving)] + [CallerStep(p, Poll)] + [CallerStep(p, PingChild)]
                       + [CallerStep(p, Probe)] + [CallerStep(p, Poll)] + [CallerStep(p, Publish)]
    ensures ByBoth(events, p, c)
  {
  }

  /** A starter can always get rid of the child it spawned, wherever it and the child are. */
  lemma StarterReaps(w: World, p: Process) returns (events: seq<Event>, w': World)
    requires Inv(w) && p in w.callers && IsPostSpawn(w.callers[p].pc)
    ensures Leads(w, events, w') && By(events, p) && Inv(w') && w'.files == w.files
    ensures w'.callers == w.callers[p := w.callers[p].(pc := Done(NotHealthy))]
    ensures var c := w.callers[p].pc.child;
            c in w'.children && w'.children[c].phase.Gone? && HoldsNothing(w', Kid(c))
  {
    hide Leads, Inv, LocksAfter, HoldsNothing;
    var c := w.callers[p].pc.child;
    NotYet(w, p);
    events, w' := [], w;
    if w.callers[p].pc.ProbingReady? { events, w' := ThenActs(w, events, w', p, EndProbe); }
    if !w'.callers[p].pc.Reaping? && !w'.callers[p].pc.Killing? { events, w' := ThenActs(w, events, w', p, GiveUp); }
    if w'.callers[p].pc.Reaping? { events, w' := ThenActsOn(w, events, w', p, KillChild); }
    events, w' := ThenActsOn(w, events, w', p, WaitChild);
    ReapedHoldsNothing(w', c);
  }

  lemma ThenActsOn(from: World, events: seq<Event>, via: World, p: Process, act: Act) returns (more: seq<Event>, to: World)
    requires Leads(from, events, via) && Inv(via) && p in via.callers && (act.KillChild? || act.WaitChild?)
    requires if act.KillChild? then via.callers[p].pc.Reaping? else via.callers[p].pc.Killing?
    ensures Leads(from, more, to) && more == events + [CallerStep(p, act)] && Inv(to) && to.files == via.files
    ensures var c := via.callers[p].pc.child;
      && to.callers == via.callers[p := via.callers[p].(pc := if act.KillChild? then Killing(c) else Done(NotHealthy))]
      && c in to.children && (act.WaitChild? ==> to.children[c].phase.Gone?)
  {
    hide Leads, LockInv, ChildInv, PidInv, FileInv, HeldByChild, HeldByCaller, Relock;
    assert PcInv(via, p);
    more, to := Then(from, events, via, CallerStep(p, act));
  }

  /** A starter whose ping or whose probe came too early can look again. */
  lemma StarterRetries(w: World, p: Process) returns (events: seq<Event>, w': World)
    requires Inv(w) && p in w.callers && (w.callers[p].pc.Alive? || w.callers[p].pc.ProbingReady?)
    ensures Leads(w, events, w') && By(events, p) && Only(w, w', p, Waiting(w.callers[p].pc.child))
  {
    hide Leads, Inv, By;
    NotYet(w, p);
    events, w' := ThenAlone(w, [], w, p, w.callers[p].pc, if w.callers[p].pc.Alive? then PingFails else EndProbe);
  }

  /** Another service that answers at the endpoint is not taken for the child: its pid differs,
      and the starter goes on waiting. */
  lemma OthersAnswerIsPassedOver(w: World, p: Process, other: Process) returns (w': World)
    requires Inv(w) && p in w.callers && w.callers[p].pc.Alive? && other != w.callers[p].pc.child
    requires w.callers[p].role.Starting? && Answers(w, w.callers[p].role.config.endpoint, other)
    ensures Leads(w, [CallerStep(p, PingChild)], w') && Only(w, w', p, Waiting(w.callers[p].pc.child))
  {
    hide Leads, Inv, By;
    OthersPidDiffers(w, p, other);
    NotYet(w, p);
    var events;
    events, w' := ThenActs(w, [], w, p, PingChild);
    assert events == [CallerStep(p, PingChild)];
  }

  lemma OthersPidDiffers(w: World, p: Process, other: Process)
    requires Inv(w) && p in w.callers && w.callers[p].pc.Alive? && other != w.callers[p].pc.child
    requires other in w.children && w.children[other].phase.Serving?
    ensures w.callers[p].pc.child in w.children && w.children[w.callers[p].pc.child].pid != w.children[other].pid
  {
    hide LockInv, FileInv, ChildInv;
    assert PcInv(w, p);
  }

  lemma WaitingForServing(w: World, p: Process)
    requires Inv(w) && p in w.callers && w.callers[p].pc.Waiting?
    requires w.callers[p].pc.child in w.children && w.children[w.callers[p].pc.child].phase.Serving?
    ensures var c := w.callers[p].pc.child;
      w.callers[p].role.Starting? && w.children[c].config == w.callers[p].role.config
      && Holds(w.locks, Listener(w.children[c].config.endpoint), Kid(c)) && InstanceLock(w.children[c].config.state) in w.locks
  {
    hide PidInv, FileInv, ChildInv;
    AnsweringHoldsAll(w, w.callers[p].pc.child);
    assert PcInv(w, p);
  }

  lemma HeldStays(w: World, w': World, p: Process, pc: Pc, key: Key, c: Process)
    requires Inv(w) && Only(w, w', p, pc) && Holds(w.locks, key, Kid(c))
    ensures Holds(w'.locks, key, Kid(c))
  {
    hide HeldByChild, HeldByCaller, PidInv, FileInv, ChildInv, PcInv;
    assert Held(w', Kid(c)) == Held(w, Kid(c));
  }

  /** Whenever the child serves, however long that took, the starter can publish it. */
  lemma StarterPublishes(w: World, p: Process) returns (events: seq<Event>, w': World)
    requires Inv(w) && p in w.callers && w.callers[p].pc.Waiting?
    requires w.callers[p].pc.child in w.children && w.children[w.callers[p].pc.child].phase.Serving?
    ensures var c := w.callers[p].pc.child;
            var identity, path := IdentityOf(c, w.children[c]), w.children[c].config.state;
      Leads(w, events, w') && Inv(w') && w'.children == w.children && w'.files == w.files[path := identity]
      && w'.callers == w.callers[p := w.callers[p].(pc := Done(Started(identity)))]
  {
    hide Leads, Inv, By, LocksAfter;
    WaitingForServing(w, p);
    var c, config := w.callers[p].pc.child, w.callers[p].role.config;
    var identity, key := IdentityOf(c, w.children[c]), InstanceLock(config.state);
    NotYet(w, p);
    events, w' := ThenAlone(w, [], w, p, Waiting(c), Poll);
    HeldStays(w, w', p, Alive(c), Listener(config.endpoint), c);
    events, w' := ThenAlone(w, events, w', p, Alive(c), PingChild);
    InstanceIsChilds(w, c);
    HeldStays(w, w', p, Pinged(c, identity), key, c);
    events, w' := ThenAlone(w, events, w', p, Pinged(c, identity), Probe);
    events, w' := ThenAlone(w, events, w', p, Confirmed(c, identity), Poll);
    events, w' := ThenActs(w, events, w', p, Publish);
  }

  lemma InstanceIsChilds(w: World, c: Process)
    requires Inv(w) && c in w.children && w.children[c].phase.Serving?
    ensures Holds(w.locks, InstanceLock(w.children[c].config.state), Kid(c))
  {
    hide PidInv, FileInv, ChildInv, PcInv;
    AnsweringHoldsAll(w, c);
  }

  /** An index writer that finds the writer lock free has it while it writes, and gives it
      back. */
  lemma WriterWrites(w: World, p: Process, index: IndexPath) returns (via: World, w': World)
    requires Inv(w) && p in w.callers && w.callers[p] == Caller(Writing(index), Begin) && IndexLock(index) !in w.locks
    ensures Leads(w, [CallerStep(p, TakeIndex)], via) && Holds(via.locks, IndexLock(index), User(p))
    ensures Leads(via, [CallerStep(p, EndProbe)], w') && Only(w, w', p, Done(WroteIndex)) && IndexLock(index) !in w'.locks
  {
    hide Leads, Inv, By;
    NotYet(w, p);
    LeadsNowhere(w);
    var events;
    events, via := ThenActs(w, [], w, p, TakeIndex);
    assert events == [CallerStep(p, TakeIndex)];
    WriterHolds(via, p, index);
    LeadsNowhere(via);
    events, w' := ThenActs(via, [], via, p, EndProbe);
    assert events == [CallerStep(p, EndProbe)];
    LocksAlone(w, w', p, Done(WroteIndex), IndexLock(index));
  }

  lemma WriterHolds(w: World, p: Process, index: IndexPath)
    requires Inv(w) && p in w.callers && w.callers[p] == Caller(Writing(index), Holding)
    ensures Holds(w.locks, IndexLock(index), User(p))
  {
    hide PidInv, FileInv, ChildInv, PcInv;
    assert IndexLock(index) in Held(w, User(p));
  }

  // ---------------------------------------------------------------- a child by itself

  /** How `service_run` ends from each point without being killed. */
  function WayOut(phase: Phase): seq<Phase>
  {
    match phase
    case Spawned => [Finished]
    case HasIndex => [Finished]
    case HasBoth => [LosingIndex, Finished]
    case LosingIndex => [Finished]
    case Binding => [EndpointClosed, IndexReleased, Finished]
    case Serving => [Stopping, EndpointClosed, IndexReleased, Finished]
    case Stopping => [EndpointClosed, IndexReleased, Finished]
    case EndpointClosed => [IndexReleased, Finished]
    case IndexReleased => [Finished]
    case _ => []
  }

  function StepsOf(c: Process, phases: seq<Phase>): seq<Event>
  {
    seq(|phases|, i requires 0 <= i < |phases| => ChildStep(c, phases[i]))
  }

  lemma MayLeave(w: World, c: Process)
    requires Inv(w) && c in w.children && WayOut(w.children[c].phase) != []
    ensures Enabled(w, ChildStep(c, WayOut(w.children[c].phase)[0]))
  {
    hide LockInv, PidInv, FileInv, ChildInv, PcInv, Relock;
  }

  /** Wherever it is, a child can end by itself, giving up its locks in this order, and
      nothing it needs for that can be held by anybody else. */
  lemma {:induction false} ChildWindsDown(w: World, c: Process) returns (w': World)
    requires Inv(w) && c in w.children && !IsOver(w.children[c].phase)
    ensures Leads(w, StepsOf(c, WayOut(w.children[c].phase)), w') && Inv(w') && w'.callers == w.callers && w'.files == w.files
    ensures c in w'.children && w'.children[c].phase.Finished? && HoldsNothing(w', Kid(c))
    decreases |WayOut(w.children[c].phase)|
  {
    hide Leads, Inv, Enabled, LocksAfter, HoldsNothing;
    var way := WayOut(w.children[c].phase);
    MayLeave(w, c);
    LeadsNowhere(w);
    var first, via := ThenMoves(w, [], w, c, way[0]);
    assert StepsOf(c, way) == first + StepsOf(c, way[1..]);
    assert WayOut(way[0]) == way[1..];
    if way[0].Finished? {
      w' := via;
      assert StepsOf(c, way) == first;
      ReapedHoldsNothing(w', c);
    } else {
      w' := ChildWindsDown(via, c);
      LeadsOn(w, first, via, StepsOf(c, way[1..]), w');
    }
  }
}
