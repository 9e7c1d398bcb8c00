/** When readiness does not mean that the child still holds its locks: both ways in which an
    active probe can be somebody else's, as runs from the start. */
module ServiceReadiness {
  import opened Text
  import opened ServiceLifecycle
  import opened ServiceInvariants
  import opened ServiceTheorems
  import opened ServiceRuns
  import opened ServiceProgress

  lemma LastMoveFrees(w: World, c: Process)
    requires Inv(w) && c in w.children && w.children[c].phase.IndexReleased? && Enabled(w, ChildStep(c, Finished))
    ensures InstanceLock(w.children[c].config.state) !in Apply(w, ChildStep(c, Finished)).locks
  {
  }

  lemma ServingHasEntered(w: World, c: Process)
    requires Inv(w) && c in w.children && w.children[c].phase.Serving?
    ensures w.children[c].entered
  {
  }

  /** A serving child may retire in four steps, which free its instance lock. */
  lemma ChildRetires(w: World, c: Process) returns (events: seq<Event>, w': World)
    requires Inv(w) && c in w.children && w.children[c].phase.Serving?
    ensures Leads(w, events, w') && Inv(w') && w'.callers == w.callers && w'.files == w.files
    ensures w'.children == w.children[c := w.children[c].(phase := Finished)] && w'.next == w.next
    ensures InstanceLock(w.children[c].config.state) !in w'.locks
  {
    hide Leads, Inv, LocksAfter, Enabled, MovedTo, Apply;
    ServingHasEntered(w, c);
    LeadsNowhere(w);
    MayRetire(w, c, Stopping);
    events, w' := ThenMoves(w, [], w, c, Stopping);
    MayRetire(w', c, EndpointClosed);
    events, w' := ThenMoves(w, events, w', c, EndpointClosed);
    MayRetire(w', c, IndexReleased);
    events, w' := ThenMoves(w, events, w', c, IndexReleased);
    MayRetire(w', c, Finished);
    LastMoveFrees(w', c);
    events, w' := ThenMoves(w, events, w', c, Finished);
  }

  lemma CallerActsOn(w: World, p: Process, act: Act) returns (w': World)
    requires Inv(w) && p in w.callers && CanAct(w, w.callers[p], act) && (act.Probe? || act.Publish? || act.Poll?)
    requires act.Poll? ==> !HasExited(w, w.callers[p].pc.child)
    ensures Leads(w, [CallerStep(p, act)], w') && Inv(w') && w' == CallerActs(w, p, act)
    ensures w'.callers == w.callers[p := w.callers[p].(pc := NextPc(w, w.callers[p], act))]
    ensures w'.children == w.children && w'.files == FilesAfter(w, w.callers[p], act)
  {
    hide LockInv, PidInv, FileInv, ChildInv, PcInv, Relock, CanAct, NextPc, FilesAfter;
    w' := Apply(w, CallerStep(p, act));
    OneStep(w, CallerStep(p, act));
    StepKeepsInv(w, CallerStep(p, act));
  }

  lemma ProberTakesInstance(w: World, q: Process)
    requires Inv(w) && q in w.callers && w.callers[q].pc.Look? && InstanceLock(StateOf(w.callers[q].role)) !in w.locks
    ensures CanAct(w, w.callers[q], Probe) && NextPc(w, w.callers[q], Probe).ProbingInstance?
    ensures InstanceLock(StateOf(w.callers[q].role)) in CallerActs(w, q, Probe).locks
  {
    hide LockInv, PidInv, FileInv, ChildInv, PcInv;
  }

  lemma ReadersProbeConfirms(w: World, p: Process, q: Process) returns (events: seq<Event>, w': World)
    requires Inv(w) && p in w.callers && q in w.callers && p != q && w.callers[p].pc.Pinged? && w.callers[q].pc.Look?
    requires StateOf(w.callers[q].role) == StateOf(w.callers[p].role)
    requires InstanceLock(StateOf(w.callers[p].role)) !in w.locks
    ensures Leads(w, events, w') && Inv(w') && p in w'.callers && w'.children == w.children
    ensures w'.callers[p] == w.callers[p].(pc := Confirmed(w.callers[p].pc.child, w.callers[p].pc.identity))
  {
    hide Leads, Inv, CallerActs, HeldByChild, HeldByCaller;
    ProberTakesInstance(w, q);
    var probing := CallerActsOn(w, q, Probe);
    w' := CallerActsOn(probing, p, Probe);
    LeadsOn(w, [CallerStep(q, Probe)], probing, [CallerStep(p, Probe)], w');
    events := [CallerStep(q, Probe)] + [CallerStep(p, Probe)];
  }

  lemma ConfirmedPublishes(w: World, p: Process) returns (events: seq<Event>, w': World)
    requires Inv(w) && p in w.callers && w.callers[p].pc.Confirmed?
    requires w.callers[p].pc.child in w.children && !HasExited(w, w.callers[p].pc.child)
    ensures events != [] && events[|events| - 1] == CallerStep(p, Publish) && w'.callers.Keys == w.callers.Keys
    ensures Leads(w, events, w') && Inv(w') && w'.children == w.children
    ensures StateOf(w.callers[p].role) in w'.files && w'.files[StateOf(w.callers[p].role)] == w.callers[p].pc.identity
  {
    hide Leads, Inv, CallerActs, HeldByChild, HeldByCaller;
    var ready := CallerActsOn(w, p, Poll);
    w' := CallerActsOn(ready, p, Publish);
    LeadsOn(w, [CallerStep(p, Poll)], ready, [CallerStep(p, Publish)], w');
    events := [CallerStep(p, Poll)] + [CallerStep(p, Publish)];
  }

  lemma PingedIsMine(w: World, p: Process)
    requires Inv(w) && p in w.callers && w.callers[p].pc.Pinged?
    ensures MineAs(w, p, w.callers[p].role, w.callers[p].pc.child, w.callers[p].pc.identity)
  {
  }

  /** The last step publishes a child that is over and holds nothing. */
  ghost predicate PublishesRetired(worlds: seq<World>, events: seq<Event>, p: Process, path: StatePath)
  {
    && |worlds| == |events| + 1 && |events| > 0 && events[|events| - 1] == CallerStep(p, Publish)
    && var last := worlds[|events|];
       path in last.files && Ended(last, last.files[path]) && HoldsNothing(last, Kid(last.files[path].instance))
  }

  lemma RetiredIsPublished(w: World, p: Process, c: Process, path: StatePath)
    requires Inv(w) && path in w.files && c in w.children && w.files[path] == IdentityOf(c, w.children[c])
    requires w.children[c].phase.Finished? && w.children[c].entered
    ensures Ended(w, w.files[path]) && HoldsNothing(w, Kid(w.files[path].instance))
  {
    hide Inv, HoldsNothing;
    ReapedHoldsNothing(w, c);
  }

  /** First cause, from any state it can occur in: a status reader probes. A starter that got
      its ping then publishes a child that has meanwhile retired and released everything. */
  lemma ReadinessMayBeStale(w: World, p: Process, q: Process) returns (events: seq<Event>, w': World)
    requires Inv(w) && p in w.callers && q in w.callers && p != q
    requires w.callers[p].pc.Pinged? && w.callers[q].pc.Look? && StateOf(w.callers[q].role) == StateOf(w.callers[p].role)
    requires w.callers[p].pc.child in w.children && w.children[w.callers[p].pc.child].phase.Serving?
    ensures Leads(w, events, w') && events != [] && events[|events| - 1] == CallerStep(p, Publish)
    ensures StateOf(w.callers[p].role) in w'.files && w'.files[StateOf(w.callers[p].role)] == w.callers[p].pc.identity
    ensures Ended(w', w.callers[p].pc.identity) && HoldsNothing(w', Kid(w.callers[p].pc.child))
  {
    hide Leads, Inv, HoldsNothing;
    PingedIsMine(w, p);
    var c := w.callers[p].pc.child;
    var retiring, retired := ChildRetires(w, c);
    var confirming, confirmed := ReadersProbeConfirms(retired, p, q);
    var publishing, published := ConfirmedPublishes(confirmed, p);
    LeadsOn(w, retiring, retired, confirming, confirmed);
    LeadsOn(w, retiring + confirming, confirmed, publishing, published);
    events, w' := retiring + confirming + publishing, published;
    ReapedHoldsNothing(w', c);
  }

  // ---------------------------------------------------------------- a start from nothing

  /** One starter and the child it spawned. */
  ghost predicate StarterAndChild(w: World, p: Process, config: Config, pid: Pid, pc: Pc, phase: Phase)
  {
    Inv(w) && w.callers == map[p := Caller(Starting(config), pc)] && w.files == map[] && w.next == 1
    && w.children == map[0 := Child(config, pid, Some(p), phase, !phase.Spawned? && !phase.HasIndex? && !phase.HasBoth?)]
  }

  lemma PairLocks(w: World, p: Process, config: Config, pid: Pid, pc: Pc, phase: Phase, key: Key)
    requires StarterAndChild(w, p, config, pid, pc, phase)
    ensures key in w.locks <==> key in HeldByCaller(w.callers[p]) || key in HeldByChild(w.children[0])
    ensures key in HeldByChild(w.children[0]) ==> Holds(w.locks, key, Kid(0))
  {
    hide HeldByCaller, HeldByChild, PidInv, FileInv, ChildInv, PcInv;
    if key in w.locks { assert Holds(w.locks, key, w.locks[key]); }
    if key in HeldByCaller(w.callers[p]) { assert key in Held(w, User(p)); assert Holds(w.locks, key, User(p)); }
    if key in HeldByChild(w.children[0]) { assert key in Held(w, Kid(0)); }
  }

  lemma StarterEnters(w: World, p: Process, config: Config) returns (w': World)
    requires Init(w)
    ensures Leads(w, [Call(p, Starting(config))], w') && Inv(w') && w' == w.(callers := map[p := Caller(Starting(config), Begin)])
  {
    InitHolds(w);
    w' := Apply(w, Call(p, Starting(config)));
    OneStep(w, Call(p, Starting(config)));
    StepKeepsInv(w, Call(p, Starting(config)));
  }

  /** From the start: the starter checks, spawns, and has the answer of its serving child. */
  lemma ReachesPinged(w: World, p: Process, config: Config, pid: Pid) returns (events: seq<Event>, w': World, identity: Identity)
    requires Init(w)
    ensures Leads(w, events, w') && StarterAndChild(w', p, config, pid, Pinged(0, identity), Serving)
    ensures identity == IdentityOf(0, w'.children[0])
  {
    hide Leads, Inv;
    var entered := StarterEnters(w, p, config);
    events, w' := StarterChecks(entered, p, config);
    events, w' := StarterSpawns(entered, events, w', p, config, pid);
    events, w' := ChildServes(entered, events, w', p, config, pid);
    events, w' := ThenWithChild(entered, events, w', p, config, pid, Waiting(0), Poll);
    ServingAnswers(entered, w', p, config, pid, Alive(0));
    events, w' := ThenWithChild(entered, events, w', p, config, pid, Alive(0), PingChild);
    LeadsOn(w, [Call(p, Starting(config))], entered, events, w');
    events := [Call(p, Starting(config))] + events;
    identity := IdentityOf(0, w'.children[0]);
  }

  // ---------------------------------------------------------------- the two runs

  /** A status reader enters while the starter has its ping. */
  lemma ReaderEnters(
      from: World, before: seq<Event>, w: World, p: Process, q: Process, config: Config, pid: Pid, identity: Identity)
      returns (events: seq<Event>, w': World)
    requires Leads(from, before, w) && StarterAndChild(w, p, config, pid, Pinged(0, identity), Serving) && p != q
    ensures Leads(from, events, w') && Inv(w') && w'.children == w.children
    ensures w'.callers == map[p := Caller(Starting(config), Pinged(0, identity)), q := Caller(Inspecting(config.state), Look(None, true))]
  {
    hide Leads, Inv, LocksAfter;
    PairLocks(w, p, config, pid, Pinged(0, identity), Serving, StartupLock(config.state));
    events, w' := Then(from, before, w, Call(q, Inspecting(config.state)));
    events, w' := ThenActs(from, events, w', q, ReadFile);
    StartupIsHeld(w', p);
    events, w' := ThenActs(from, events, w', q, Probe);
  }

  lemma StartupIsHeld(w: World, p: Process)
    requires Inv(w) && p in w.callers && HoldsStartup(w.callers[p])
    ensures StartupLock(StateOf(w.callers[p].role)) in w.locks
  {
    hide PidInv, FileInv, ChildInv, PcInv;
    assert StartupLock(StateOf(w.callers[p].role)) in Held(w, User(p));
    assert Holds(w.locks, StartupLock(StateOf(w.callers[p].role)), User(p));
  }

  /** From the start, with a status reader: the child published has released everything. */
  lemma ReaderLetsStalePublish(w: World, p: Process, q: Process, config: Config, pid: Pid)
    requires Init(w) && p != q
    ensures exists worlds: seq<World>, events :: IsRun(worlds, events) && worlds[0] == w && PublishesRetired(worlds, events, p, config.state)
  {
    hide Leads, Inv, HoldsNothing, Enabled, Apply;
    var events, now, identity := ReachesPinged(w, p, config, pid);
    events, now := ReaderEnters(w, events, now, p, q, config, pid, identity);
    var ending, last := ReadinessMayBeStale(now, p, q);
    LeadsOn(w, events, now, ending, last);
    PingedIsMine(now, p);
    var worlds := Trace(w, events + ending, last);
    assert PublishesRetired(worlds, events + ending, p, config.state);
  }

  /** The starter with its ping, its retired child, and another child of the same path. */
  ghost predicate WithSecond(
      w: World, p: Process, config: Config, pid: Pid, other: Pid, identity: Identity, phase: Phase)
  {
    Inv(w) && w.callers == map[p := Caller(Starting(config), Pinged(0, identity))] && w.files == map[] && w.next == 2
    && w.children == map[0 := Child(config, pid, Some(p), Finished, true), 1 := Child(config, other, None, phase, false)]
  }

  lemma SecondMayMove(
      w: World, p: Process, config: Config, pid: Pid, other: Pid, identity: Identity, phase: Phase, to: Phase)
    requires WithSecond(w, p, config, pid, other, identity, phase)
    requires (phase.Spawned? && to.HasIndex?) || (phase.HasIndex? && to.HasBoth?)
    ensures Enabled(w, ChildStep(1, to))
  {
    hide PidInv, FileInv, ChildInv, PcInv;
    forall key | key in HeldByChild(MovedTo(w.children[1], to)) && key !in HeldByChild(w.children[1]) ensures key !in w.locks {
      assert forall h :: key !in Held(w, h);
      FreeKey(w, key);
    }
  }

  lemma SecondMoves(
      from: World, before: seq<Event>, w: World, p: Process, config: Config, pid: Pid, other: Pid, identity: Identity,
      phase: Phase, to: Phase)
      returns (events: seq<Event>, w': World)
    requires Leads(from, before, w) && WithSecond(w, p, config, pid, other, identity, phase)
    requires (phase.Spawned? && to.HasIndex?) || (phase.HasIndex? && to.HasBoth?)
    ensures Leads(from, events, w') && WithSecond(w', p, config, pid, other, identity, to)
  {
    hide Leads, Inv, LocksAfter, Enabled, Apply;
    SecondMayMove(w, p, config, pid, other, identity, phase, to);
    events, w' := ThenMoves(from, before, w, 1, to);
  }

  /** Another child of the path, started directly or left by a killed starter, takes both
      locks after the first one has retired. */
  lemma SecondChildTakesLocks(
      from: World, before: seq<Event>, w: World, p: Process, config: Config, pid: Pid, other: Pid, identity: Identity)
      returns (events: seq<Event>, w': World)
    requires Leads(from, before, w) && StarterAndChild(w, p, config, pid, Pinged(0, identity), Finished) && pid != other
    ensures Leads(from, events, w') && WithSecond(w', p, config, pid, other, identity, HasBoth)
  {
    hide Leads, Inv;
    events, w' := Then(from, before, w, RunDirectly(config, other));
    events, w' := SecondMoves(from, events, w', p, config, pid, other, identity, Spawned, HasIndex);
    events, w' := SecondMoves(from, events, w', p, config, pid, other, identity, HasIndex, HasBoth);
  }

  lemma ChildHoldsInstance(w: World, d: Process)
    requires Inv(w) && d in w.children && HoldsInstance(w.children[d].phase)
    ensures InstanceLock(w.children[d].config.state) in w.locks
  {
    hide PidInv, FileInv, ChildInv, PcInv;
    assert InstanceLock(w.children[d].config.state) in Held(w, Kid(d));
    assert Holds(w.locks, InstanceLock(w.children[d].config.state), Kid(d));
  }

  /** From the start, with no other caller at all: the second cause. */
  lemma SecondChildLetsStalePublish(w: World, p: Process, config: Config, pid: Pid, other: Pid)
    requires Init(w) && pid != other
    ensures exists worlds: seq<World>, events :: IsRun(worlds, events) && worlds[0] == w && PublishesRetired(worlds, events, p, config.state)
              && worlds[|events|].callers.Keys == {p}
  {
    hide Leads, Inv, LocksAfter, HoldsNothing, Enabled, Apply;
    var events, now, identity := ReachesPinged(w, p, config, pid);
    PingedIsMine(now, p);
    var retiring, retired := ChildRetires(now, 0);
    LeadsOn(w, events, now, retiring, retired);
    assert retired.children == map[0 := Child(config, pid, Some(p), Finished, true)];
    var taking, taken := SecondChildTakesLocks(w, events + retiring, retired, p, config, pid, other, identity);
    ChildHoldsInstance(taken, 1);
    var confirming, confirmed := ThenActs(w, taking, taken, p, Probe);
    var publishing, last := ConfirmedPublishes(confirmed, p);
    LeadsOn(w, confirming, confirmed, publishing, last);
    RetiredIsPublished(last, p, 0, config.state);
    var worlds := Trace(w, confirming + publishing, last);
    assert PublishesRetired(worlds, confirming + publishing, p, config.state);
  }
}
