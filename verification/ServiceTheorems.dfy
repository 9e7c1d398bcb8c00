/** Safety of the managed service protocol over whole runs. */
module ServiceTheorems {
  import opened Text
  import opened ServiceLifecycle
  import opened ServiceInvariants

  ghost predicate IsRun(worlds: seq<World>, events: seq<Event>)
  {
    && |worlds| == |events| + 1
    && Init(worlds[0])
    && forall k :: 0 <= k < |events| ==> Enabled(worlds[k], events[k]) && worlds[k + 1] == Apply(worlds[k], events[k])
  }

  lemma RunStep(worlds: seq<World>, events: seq<Event>, k: nat)
    requires IsRun(worlds, events) && k < |events|
    ensures |worlds| == |events| + 1 && Enabled(worlds[k], events[k]) && worlds[k + 1] == Apply(worlds[k], events[k])
  {
    hide Enabled, Apply;
  }

  lemma {:induction false} RunKeepsInv(worlds: seq<World>, events: seq<Event>, k: nat)
    requires IsRun(worlds, events) && k < |worlds|
    ensures Inv(worlds[k])
  {
    hide Enabled, Apply, Init, Inv;
    if k == 0 {
      InitHolds(worlds[0]);
    } else {
      RunKeepsInv(worlds, events, k - 1);
      RunStep(worlds, events, k - 1);
      StepKeepsInv(worlds[k - 1], events[k - 1]);
    }
  }

  lemma {:induction false} RunGrows(worlds: seq<World>, events: seq<Event>, i: nat, k: nat)
    requires IsRun(worlds, events) && i <= k < |worlds|
    ensures Grows(worlds[i], worlds[k])
    decreases k
  {
    hide Enabled, Apply, Init, Inv;
    if i < k {
      RunGrows(worlds, events, i, k - 1);
      RunStep(worlds, events, k - 1);
      RunKeepsInv(worlds, events, k - 1);
      StepGrows(worlds[k - 1], events[k - 1]);
    }
  }

  // ---------------------------------------------------------------- exclusion

  ghost predicate HoldsNothing(w: World, h: Holder)
  {
    forall key :: !Holds(w.locks, key, h)
  }

  lemma OneHolder(w: World, key: Key, h: Holder, g: Holder)
    requires LockInv(w) && key in Held(w, h) && key in Held(w, g)
    ensures h == g
  {
  }

  predicate IsServing(w: World, c: Process)
  {
    c in w.children && Listens(w.children[c].phase)
  }

  /** However starters, stoppers, readers, children and writers interleave and die, at most
      one child serves a state path, and at most one serves an index. */
  lemma AtMostOneServing(worlds: seq<World>, events: seq<Event>, k: nat, c: Process, d: Process)
    requires IsRun(worlds, events) && k < |worlds| && IsServing(worlds[k], c) && IsServing(worlds[k], d)
    requires worlds[k].children[c].config.state == worlds[k].children[d].config.state
             || worlds[k].children[c].config.index == worlds[k].children[d].config.index
    ensures c == d
  {
    RunKeepsInv(worlds, events, k);
    var w := worlds[k];
    hide IsRun, PidInv, FileInv, ChildInv, PcInv;
    if w.children[c].config.state == w.children[d].config.state {
      OneHolder(w, InstanceLock(w.children[c].config.state), Kid(c), Kid(d));
    } else {
      OneHolder(w, IndexLock(w.children[c].config.index), Kid(c), Kid(d));
    }
  }

  /** While a child serves an index, no other process has its writer lock, be it another
      child, a starter or stopper checking it, or an index writer. */
  lemma ServingExcludesWriters(worlds: seq<World>, events: seq<Event>, k: nat, c: Process, h: Holder)
    requires IsRun(worlds, events) && k < |worlds| && IsServing(worlds[k], c) && h != Kid(c)
    ensures IndexLock(worlds[k].children[c].config.index) !in Held(worlds[k], h)
    ensures h.User? && h.p in worlds[k].callers ==>
              IndexHeldBy(worlds[k].callers[h.p]) != Some(worlds[k].children[c].config.index)
    ensures h.Kid? && h.c in worlds[k].children && HoldsIndex(worlds[k].children[h.c].phase) ==>
              worlds[k].children[h.c].config.index != worlds[k].children[c].config.index
  {
    RunKeepsInv(worlds, events, k);
    var w := worlds[k];
    hide IsRun, PidInv, FileInv, ChildInv, PcInv;
    var key := IndexLock(w.children[c].config.index);
    assert key in Held(w, Kid(c));
    if key in Held(w, h) { OneHolder(w, key, Kid(c), h); }
  }

  lemma EndedHoldsNothing(w: World, c: Process)
    requires LockInv(w) && c in w.children && IsOver(w.children[c].phase)
    ensures HoldsNothing(w, Kid(c))
  {
  }

  /** When nobody, or only a probe, has the instance lock of a state path, every child of that
      path that ever entered `serve_managed_ipc` has closed its endpoint and released its
      index lock, and that is so from then on. */
  lemma FreeInstanceLock(worlds: seq<World>, events: seq<Event>, k: nat, j: nat, path: StatePath, c: Process)
    requires IsRun(worlds, events) && k <= j < |worlds|
    requires InstanceLock(path) in worlds[k].locks ==> worlds[k].locks[InstanceLock(path)].User?
    requires c in worlds[k].children && worlds[k].children[c].config.state == path && worlds[k].children[c].entered
    ensures c in worlds[j].children && !IsServing(worlds[j], c) && HoldsNothing(worlds[j], Kid(c))
  {
    hide IsRun, HeldByChild, HeldByCaller;
    RunKeepsInv(worlds, events, k);
    RunKeepsInv(worlds, events, j);
    RunGrows(worlds, events, k, j);
    var holder := if InstanceLock(path) in worlds[k].locks then worlds[k].locks[InstanceLock(path)] else User(0);
    FreeInstanceMeansEnded(worlds[k], holder, path, IdentityOf(c, worlds[k].children[c]));
    assert Continues(worlds[k].children[c], worlds[j].children[c]);
    EndedHoldsNothing(worlds[j], c);
  }

  /** Short of being killed, a child that has served gives its instance lock up last: when it
      does, it neither listens nor has its index lock any more. That is what lets a free
      instance lock stand for the end of the service. */
  lemma InstanceLockGoesLast(w: World, e: Event, c: Process)
    requires Inv(w) && Enabled(w, e) && c in w.children && w.children[c].entered
    requires HoldsInstance(w.children[c].phase) && !HoldsInstance(Apply(w, e).children[c].phase)
    ensures Apply(w, e).children[c].phase.Exited?
            || (!HoldsIndex(w.children[c].phase) && !Listens(w.children[c].phase) && e == ChildStep(c, Finished))
  {
    hide HeldByChild, HeldByCaller, Relock, LockInv, PidInv, FileInv, CanAct, NextPc, EffectOf, FilesAfter, CanTake, PcFits;
    if e.CallerStep? { EffectsFit(w, e.p, e.act); }
  }

  /** A kill frees every lock of the process at once, wherever it is. */
  lemma KillFreesAll(w: World, e: Event)
    requires Inv(w) && Enabled(w, e)
    requires (e.ChildStep? && e.to.Exited?) || (e.CallerStep? && e.act.Die?)
    ensures HoldsNothing(Apply(w, e), if e.ChildStep? then Kid(e.c) else User(e.p))
    ensures forall key :: key in (if e.ChildStep? then Held(w, Kid(e.c)) else Held(w, User(e.p))) ==> key !in Apply(w, e).locks
  {
    hide PidInv, FileInv, ChildInv, PcInv, CanTake;
    var w', h := Apply(w, e), if e.ChildStep? then Kid(e.c) else User(e.p);
    LockSteps(w, e);
    assert Held(w', h) == {};
    forall key | key in Held(w, h) ensures key !in w'.locks { assert Holds(w.locks, key, h); }
  }

  // ---------------------------------------------------------------- history of one caller

  /** The step with which a caller got where it is. */
  ghost predicate Took(w: World, e: Event, p: Process, to: Caller)
  {
    e.CallerStep? && e.p == p && p in w.callers && CanAct(w, w.callers[p], e.act)
    && to == w.callers[p].(pc := NextPc(w, w.callers[p], e.act))
  }

  ghost predicate Stayed(worlds: seq<World>, p: Process, caller: Caller, m: nat, k: nat)
  {
    m < k < |worlds| && forall i :: m < i <= k ==> p in worlds[i].callers && worlds[i].callers[p] == caller
  }

  lemma OnlyOwnSteps(w: World, e: Event, p: Process)
    requires Enabled(w, e) && p in Apply(w, e).callers && !Apply(w, e).callers[p].pc.Begin?
    requires p in w.callers ==> Apply(w, e).callers[p] != w.callers[p]
    ensures Took(w, e, p, Apply(w, e).callers[p])
  {
    hide HeldByChild, HeldByCaller, Relock, CanTake, CanAct, Moves, NextPc, FilesAfter, EffectOf;
  }

  lemma {:induction false} Since(worlds: seq<World>, events: seq<Event>, k: nat, p: Process) returns (m: nat)
    requires IsRun(worlds, events) && k < |worlds| && p in worlds[k].callers && !worlds[k].callers[p].pc.Begin?
    ensures m < k && Stayed(worlds, p, worlds[k].callers[p], m, k) && Took(worlds[m], events[m], p, worlds[k].callers[p])
  {
    hide Enabled, Apply, Took;
    m := k - 1;
    RunStep(worlds, events, m);
    if p in worlds[m].callers && worlds[m].callers[p] == worlds[k].callers[p] {
      m := Since(worlds, events, m, p);
    } else {
      OnlyOwnSteps(worlds[m], events[m], p);
    }
  }

  lemma CameFrom(w: World, caller: Caller, act: Act)
    requires CanAct(w, caller, act)
    ensures var to := NextPc(w, caller, act);
      && (to.Ready? ==> act.Poll? && caller.pc == Confirmed(to.child, to.identity) && !HasExited(w, to.child))
      && (to.Confirmed? ==> act.Probe? && caller.pc == Pinged(to.child, to.identity)
                            && InstanceLock(StateOf(caller.role)) in w.locks)
      && (to.Pinged? ==> act.PingChild? && caller.pc == Alive(to.child))
      && (IsPostSpawn(to) ==>
            (act.Spawn? && to.child == w.next && !IsPostSpawn(caller.pc)) || (IsPostSpawn(caller.pc) && caller.pc.child == to.child))
  {
  }

  // ---------------------------------------------------------------- publication

  ghost predicate Owned(worlds: seq<World>, p: Process, c: Process, m: nat, k: nat)
  {
    m < k < |worlds|
    && forall i :: m < i <= k ==> p in worlds[i].callers && IsPostSpawn(worlds[i].callers[p].pc) && worlds[i].callers[p].pc.child == c
  }

  lemma OwnedFurther(worlds: seq<World>, p: Process, c: Process, m: nat, j: nat, k: nat)
    requires k < |worlds| && p in worlds[k].callers
    requires IsPostSpawn(worlds[k].callers[p].pc) && worlds[k].callers[p].pc.child == c
    requires Owned(worlds, p, c, m, j) && Stayed(worlds, p, worlds[k].callers[p], j, k)
    ensures Owned(worlds, p, c, m, k)
  {
  }

  /** The spawn of the child a starter is waiting for. */
  lemma {:induction false} SpawnedAt(worlds: seq<World>, events: seq<Event>, k: nat, p: Process) returns (m: nat)
    requires IsRun(worlds, events) && k < |worlds| && p in worlds[k].callers && IsPostSpawn(worlds[k].callers[p].pc)
    ensures m < k && events[m].CallerStep? && events[m].p == p && events[m].act.Spawn?
    ensures worlds[m].next == worlds[k].callers[p].pc.child && Owned(worlds, p, worlds[m].next, m, k)
  {
    hide Enabled, Apply, NextPc, CanAct, Init;
    var last := Since(worlds, events, k, p);
    CameFrom(worlds[last], worlds[last].callers[p], events[last].act);
    if IsPostSpawn(worlds[last].callers[p].pc) {
      m := SpawnedAt(worlds, events, last, p);
      OwnedFurther(worlds, p, worlds[m].next, m, last, k);
    } else {
      m := last;
    }
  }

  predicate ProbesInstance(pc: Pc)
  {
    pc.ProbingInstance? || pc.ProbingReady? || pc.ProbingStop?
  }

  /** Nobody is probing this path's instance lock, and no other child of the path has it. */
  ghost predicate NoOtherHolder(w: World, path: StatePath, c: Process)
  {
    && (forall q :: q in w.callers && StateOf(w.callers[q].role) == path ==> !ProbesInstance(w.callers[q].pc))
    && (forall d :: d in w.children && d != c && w.children[d].config.state == path ==> !HoldsInstance(w.children[d].phase))
  }

  /** What an active probe means: the child in question holds the instance lock if and only
      if neither another caller's probe nor another child of the path explains it. */
  lemma ActiveMeansHeldIff(w: World, path: StatePath, c: Process)
    requires LockInv(w) && InstanceLock(path) in w.locks
    ensures Holds(w.locks, InstanceLock(path), Kid(c)) <==> NoOtherHolder(w, path, c)
  {
    var key, holder := InstanceLock(path), w.locks[InstanceLock(path)];
    assert Holds(w.locks, key, holder);
    assert key in Held(w, holder);
    forall q | q in w.callers && StateOf(w.callers[q].role) == path && ProbesInstance(w.callers[q].pc)
      ensures holder == User(q)
    {
      assert key in Held(w, User(q));
      assert Holds(w.locks, key, User(q));
    }
    forall d | d in w.children && w.children[d].config.state == path && HoldsInstance(w.children[d].phase)
      ensures holder == Kid(d)
    {
      assert key in Held(w, Kid(d));
      assert Holds(w.locks, key, Kid(d));
    }
  }

  /** How a published identity came about: this starter spawned the child, the child answered
      its ping while serving under both locks, the probe that followed found the instance
      lock taken (by the child itself exactly when nobody else explains it), and the child
      was still alive at the last look. */
  ghost predicate Published(
      worlds: seq<World>, events: seq<Event>, k: nat, p: Process, spawned: nat, pinged: nat, probed: nat, looked: nat)
  {
    && spawned < pinged < probed < looked < k < |events| < |worlds| && p in worlds[k].callers && worlds[k].callers[p].role.Starting?
    && events[spawned].CallerStep? && events[spawned].p == p && events[spawned].act.Spawn?
    && events[pinged] == CallerStep(p, PingChild)
    && events[probed] == CallerStep(p, Probe) && events[looked] == CallerStep(p, Poll)
    && var c, config := worlds[spawned].next, worlds[k].callers[p].role.config;
       && c in worlds[pinged].children && worlds[pinged].children[c].phase.Serving?
       && Holds(worlds[pinged].locks, InstanceLock(config.state), Kid(c))
       && Holds(worlds[pinged].locks, IndexLock(config.index), Kid(c))
       && Holds(worlds[pinged].locks, Listener(config.endpoint), Kid(c))
       && InstanceLock(config.state) in worlds[probed].locks
       && (Holds(worlds[probed].locks, InstanceLock(config.state), Kid(c)) <==> NoOtherHolder(worlds[probed], config.state, c))
       && !HasExited(worlds[looked], c)
       && c in worlds[k].children && worlds[k].children[c].parent == Some(p) && worlds[k].children[c].config == config
       && config.state in worlds[k + 1].files
       && worlds[k + 1].files[config.state] == IdentityOf(c, worlds[k].children[c])
  }

  lemma AnsweringHoldsAll(w: World, c: Process)
    requires LockInv(w) && c in w.children && w.children[c].phase.Serving?
    ensures Holds(w.locks, InstanceLock(w.children[c].config.state), Kid(c))
    ensures Holds(w.locks, IndexLock(w.children[c].config.index), Kid(c))
    ensures Holds(w.locks, Listener(w.children[c].config.endpoint), Kid(c))
  {
  }

  lemma PublishWrites(w: World, p: Process)
    requires Inv(w) && Enabled(w, CallerStep(p, Publish))
    ensures p in w.callers && w.callers[p].pc.Ready? && MineAs(w, p, w.callers[p].role, w.callers[p].pc.child, w.callers[p].pc.identity)
    ensures var path := StateOf(w.callers[p].role);
            && path in Apply(w, CallerStep(p, Publish)).files
            && Apply(w, CallerStep(p, Publish)).files[path] == w.callers[p].pc.identity
  {
  }

  lemma InvHasLocks(w: World)
    requires Inv(w)
    ensures LockInv(w)
  {
  }

  lemma PublishedIsOwnServingChild(worlds: seq<World>, events: seq<Event>, k: nat, p: Process)
    requires IsRun(worlds, events) && k < |events| && events[k] == CallerStep(p, Publish)
    ensures exists spawned, pinged, probed, looked :: Published(worlds, events, k, p, spawned, pinged, probed, looked)
  {
    hide Enabled, Apply, NextPc, CanAct, Init, Inv, Grows, NoOtherHolder, HeldByChild, HeldByCaller;
    RunStep(worlds, events, k);
    RunKeepsInv(worlds, events, k);
    PublishWrites(worlds[k], p);
    var c := worlds[k].callers[p].pc.child;
    var looked := Since(worlds, events, k, p);
    CameFrom(worlds[looked], worlds[looked].callers[p], events[looked].act);
    var probed := Since(worlds, events, looked, p);
    CameFrom(worlds[probed], worlds[probed].callers[p], events[probed].act);
    var pinged := Since(worlds, events, probed, p);
    CameFrom(worlds[pinged], worlds[pinged].callers[p], events[pinged].act);
    var spawned := SpawnedAt(worlds, events, pinged, p);
    RunKeepsInv(worlds, events, pinged);
    PingFoundServing(worlds[pinged], p);
    RunGrows(worlds, events, pinged, k);
    RunKeepsInv(worlds, events, probed);
    InvHasLocks(worlds[probed]);
    ActiveMeansHeldIff(worlds[probed], worlds[k].callers[p].role.config.state, c);
    assert Published(worlds, events, k, p, spawned, pinged, probed, looked);
  }

  lemma PingFoundServing(w: World, p: Process)
    requires Inv(w) && p in w.callers && CanAct(w, w.callers[p], PingChild) && NextPc(w, w.callers[p], PingChild).Pinged?
    ensures w.callers[p].pc.Alive? && w.callers[p].role.Starting?
    ensures var c := w.callers[p].pc.child;
            c in w.children && w.children[c].phase.Serving? && w.children[c].config == w.callers[p].role.config
            && Holds(w.locks, InstanceLock(w.children[c].config.state), Kid(c))
            && Holds(w.locks, IndexLock(w.children[c].config.index), Kid(c))
            && Holds(w.locks, Listener(w.children[c].config.endpoint), Kid(c))
  {
  }

  // ---------------------------------------------------------------- state files

  lemma FileChangeIsCoordinated(w: World, e: Event, path: StatePath)
    requires Inv(w) && Enabled(w, e) && !SameFile(w, Apply(w, e), path)
    ensures e.CallerStep? && (e.act.Publish? || e.act.RemoveFile?)
    ensures e.p in w.callers && HoldsStartup(w.callers[e.p]) && StateOf(w.callers[e.p].role) == path
    ensures e.p in Apply(w, e).callers && Apply(w, e).callers[e.p].pc.Done?
  {
  }

  predicate Coordinates(w: World, p: Process, path: StatePath)
  {
    p in w.callers && (w.callers[p].role.Starting? || w.callers[p].role.StoppingService?)
    && HoldsStartup(w.callers[p]) && StateOf(w.callers[p].role) == path
  }

  lemma CoordinationStarts(w: World, e: Event, p: Process, path: StatePath)
    requires Enabled(w, e) && Coordinates(Apply(w, e), p, path) && !Coordinates(w, p, path)
    ensures e == CallerStep(p, Coordinate) && Apply(w, e).files == w.files
  {
    hide HeldByChild, HeldByCaller, Relock, CanTake, Moves;
  }

  lemma CoordinatedFileStays(w: World, e: Event, p: Process, path: StatePath)
    requires Inv(w) && Enabled(w, e) && Coordinates(w, p, path) && Coordinates(Apply(w, e), p, path)
    ensures SameFile(w, Apply(w, e), path)
  {
    hide PidInv, FileInv, ChildInv, PcInv, Enabled, Apply;
    if !SameFile(w, Apply(w, e), path) {
      FileChangeIsCoordinated(w, e, path);
      OneCoordinator(w, e.p, p);
    }
  }

  /** From the moment a starter or stopper took the startup lock, the state file is as it
      found it: nobody else can have changed it. */
  lemma {:induction false} FileFixedSinceCoordination(worlds: seq<World>, events: seq<Event>, k: nat, p: Process, path: StatePath)
    returns (m: nat)
    requires IsRun(worlds, events) && k < |worlds| && Coordinates(worlds[k], p, path)
    ensures m < k && events[m] == CallerStep(p, Coordinate)
    ensures forall i :: m < i <= k ==> Coordinates(worlds[i], p, path) && SameFile(worlds[i], worlds[k], path)
    ensures SameFile(worlds[m], worlds[k], path)
  {
    hide Enabled, Apply, Coordinates, Inv, Init;
    if k == 0 {
      NobodyAtStart(worlds[0], p, path);
    } else {
      m := k - 1;
      RunStep(worlds, events, m);
      RunKeepsInv(worlds, events, m);
      if Coordinates(worlds[m], p, path) {
        CoordinatedFileStays(worlds[m], events[m], p, path);
        m := FileFixedSinceCoordination(worlds, events, m, p, path);
      } else {
        CoordinationStarts(worlds[m], events[m], p, path);
      }
    }
  }

  lemma NobodyAtStart(w: World, p: Process, path: StatePath)
    requires Init(w)
    ensures !Coordinates(w, p, path)
  {
  }

  lemma PostSpawnEnds(w: World, p: Process, act: Act)
    requires Inv(w) && p in w.callers && CanAct(w, w.callers[p], act) && IsPostSpawn(w.callers[p].pc)
    requires NextPc(w, w.callers[p], act).Done? && !act.Publish?
    ensures NextPc(w, w.callers[p], act) == Done(NotHealthy)
    ensures var w', c := CallerActs(w, p, act), w.callers[p].pc.child;
            w'.files == w.files && c in w'.children && w'.children[c].phase.Gone? && w'.children[c].parent == Some(p)
  {
    hide LockInv, PidInv, FileInv, ChildInv, HeldByChild, HeldByCaller, Relock;
    assert PcInv(w, p);
  }

  /** The child spawned after coordination began is dead and waited for, holds nothing, and
      the state file is what it was when coordination began. */
  ghost predicate CleanedUp(worlds: seq<World>, events: seq<Event>, k: nat, p: Process, began: nat, spawned: nat)
  {
    && began < spawned < k < |events| < |worlds| && events[began] == CallerStep(p, Coordinate)
    && events[spawned].CallerStep? && events[spawned].p == p && events[spawned].act.Spawn?
    && p in worlds[k].callers && SameFile(worlds[began], worlds[k + 1], StateOf(worlds[k].callers[p].role))
    && var c := worlds[spawned].next;
       c in worlds[k + 1].children && worlds[k + 1].children[c].phase.Gone? && worlds[k + 1].children[c].parent == Some(p)
       && HoldsNothing(worlds[k + 1], Kid(c))
  }

  lemma SpawnerCoordinates(w: World, p: Process)
    requires Inv(w) && p in w.callers && IsPostSpawn(w.callers[p].pc)
    ensures Coordinates(w, p, StateOf(w.callers[p].role))
  {
  }

  lemma CoordinateIsFirst(w: World, p: Process)
    requires Enabled(w, CallerStep(p, Coordinate))
    ensures p in w.callers && w.callers[p].pc.Begin?
  {
  }

  /** However a starter that survives ends after it spawned, other than by publishing, it has
      reaped the child it spawned and leaves the state file as it found it. */
  lemma OtherOutcomesLeaveNothing(worlds: seq<World>, events: seq<Event>, k: nat, p: Process)
    requires IsRun(worlds, events) && k < |events| && events[k].CallerStep? && events[k].p == p && !events[k].act.Publish?
    requires p in worlds[k].callers && IsPostSpawn(worlds[k].callers[p].pc)
    requires p in worlds[k + 1].callers && worlds[k + 1].callers[p].pc.Done?
    ensures worlds[k + 1].callers[p].pc == Done(NotHealthy)
    ensures exists began, spawned :: CleanedUp(worlds, events, k, p, began, spawned)
  {
    hide Enabled, NextPc, CanAct, Init, Inv, CallerActs, Coordinates;
    RunStep(worlds, events, k);
    RunKeepsInv(worlds, events, k);
    RunKeepsInv(worlds, events, k + 1);
    var path, act := StateOf(worlds[k].callers[p].role), events[k].act;
    StepIsAct(worlds[k], p, act);
    PostSpawnEnds(worlds[k], p, act);
    var spawned := SpawnedAt(worlds, events, k, p);
    SpawnerCoordinates(worlds[k], p);
    var began := FileFixedSinceCoordination(worlds, events, k, p, path);
    RunStep(worlds, events, began);
    CoordinateIsFirst(worlds[began], p);
    ReapedHoldsNothing(worlds[k + 1], worlds[spawned].next);
    assert CleanedUp(worlds, events, k, p, began, spawned);
  }

  lemma StepIsAct(w: World, p: Process, act: Act)
    requires Enabled(w, CallerStep(p, act))
    ensures p in w.callers && CanAct(w, w.callers[p], act) && Apply(w, CallerStep(p, act)) == CallerActs(w, p, act)
    ensures Apply(w, CallerStep(p, act)).callers == w.callers[p := w.callers[p].(pc := NextPc(w, w.callers[p], act))]
  {
    hide HeldByChild, HeldByCaller, Relock, CanAct, NextPc, FilesAfter, EffectOf;
  }

  lemma ReapedHoldsNothing(w: World, c: Process)
    requires Inv(w) && c in w.children && IsOver(w.children[c].phase)
    ensures HoldsNothing(w, Kid(c))
  {
  }

  // ---------------------------------------------------------------- removal

  /** The removed file is the one found when coordination began, and names a child of this
      path that served once, has stopped listening, and has released both locks for good. */
  ghost predicate Removed(worlds: seq<World>, events: seq<Event>, k: nat, path: StatePath, began: nat)
  {
    && began < k < |events| < |worlds| && path in worlds[k].files && path !in worlds[k + 1].files
    && events[k].CallerStep? && events[began] == CallerStep(events[k].p, Coordinate)
    && SameFile(worlds[began], worlds[k], path)
    && var state := worlds[k].files[path];
       Known(worlds[k], path, state) && Ended(worlds[k], state) && HoldsNothing(worlds[k], Kid(state.instance))
  }

  lemma MatchedFacts(w: World, p: Process)
    requires Inv(w) && Enabled(w, CallerStep(p, RemoveFile))
    ensures p in w.callers && Coordinates(w, p, StateOf(w.callers[p].role))
    ensures var path := StateOf(w.callers[p].role);
            && path in w.files && path !in Apply(w, CallerStep(p, RemoveFile)).files
            && Known(w, path, w.files[path]) && Ended(w, w.files[path])
  {
  }

  lemma RemovalIsSafe(worlds: seq<World>, events: seq<Event>, k: nat, path: StatePath)
    requires IsRun(worlds, events) && k < |events| && path in worlds[k].files && path !in worlds[k + 1].files
    ensures exists began :: Removed(worlds, events, k, path, began)
  {
    hide Enabled, Apply, Init, Inv, Coordinates, Known;
    RunStep(worlds, events, k);
    RunKeepsInv(worlds, events, k);
    FileGoneIsRemoval(worlds[k], events[k], path);
    MatchedFacts(worlds[k], events[k].p);
    var began := FileFixedSinceCoordination(worlds, events, k, events[k].p, path);
    ReapedHoldsNothing(worlds[k], worlds[k].files[path].instance);
    assert Removed(worlds, events, k, path, began);
  }

  lemma FileGoneIsRemoval(w: World, e: Event, path: StatePath)
    requires Inv(w) && Enabled(w, e) && path in w.files && path !in Apply(w, e).files
    ensures e.CallerStep? && e == CallerStep(e.p, RemoveFile) && e.p in w.callers && StateOf(w.callers[e.p].role) == path
  {
  }

  // ---------------------------------------------------------------- status

  lemma ReportsComeFrom(w: World, caller: Caller, act: Act)
    requires CanAct(w, caller, act) && IsLive(caller.pc)
    ensures var to := NextPc(w, caller, act);
      && (to.Done? && to.outcome.Running? ==>
            act.PingMatched? && caller.pc.InstanceKnown? && caller.pc.found == Some(to.outcome.state) && AnswersAs(w, to.outcome.state))
      && (to.Done? && to.outcome.Stale? ==>
            caller.pc.InstanceKnown? && caller.pc.found == Some(to.outcome.state) && !caller.pc.active)
  {
  }

  /** `running` is only ever reported while the child the state file named, a child of that
      very state path, is serving and holds the instance lock, its index lock and its
      endpoint. */
  lemma RunningIsServing(worlds: seq<World>, events: seq<Event>, k: nat, p: Process, state: Identity)
    requires IsRun(worlds, events) && k < |events| && events[k].CallerStep? && events[k].p == p
    requires p in worlds[k + 1].callers && worlds[k + 1].callers[p].pc == Done(Running(state))
    ensures p in worlds[k].callers && Known(worlds[k], StateOf(worlds[k].callers[p].role), state)
    ensures worlds[k].children[state.instance].phase.Serving?
    ensures Holds(worlds[k].locks, InstanceLock(StateOf(worlds[k].callers[p].role)), Kid(state.instance))
    ensures Holds(worlds[k].locks, IndexLock(state.index), Kid(state.instance))
    ensures Holds(worlds[k].locks, Listener(state.endpoint), Kid(state.instance))
  {
    hide Enabled, Init, Inv, CanAct, NextPc, LockInv, HeldByChild, HeldByCaller;
    RunStep(worlds, events, k);
    RunKeepsInv(worlds, events, k);
    StepIsAct(worlds[k], p, events[k].act);
    ActorIsLive(worlds[k], p, events[k].act);
    ReportsComeFrom(worlds[k], worlds[k].callers[p], events[k].act);
    FoundIsKnown(worlds[k], p);
    AnsweringHoldsAll(worlds[k], state.instance);
  }

  lemma ActorIsLive(w: World, p: Process, act: Act)
    requires p in w.callers && CanAct(w, w.callers[p], act)
    ensures IsLive(w.callers[p].pc)
  {
  }

  lemma FoundIsKnown(w: World, p: Process)
    requires Inv(w) && p in w.callers && w.callers[p].pc.InstanceKnown? && w.callers[p].pc.found.Some?
    ensures LockInv(w) && Known(w, StateOf(w.callers[p].role), w.callers[p].pc.found.value)
    ensures !w.callers[p].pc.active ==> Ended(w, w.callers[p].pc.found.value)
  {
  }

  /** `stale` is only ever reported of a child that is over: an inactive probe is never wrong. */
  lemma StaleIsOver(worlds: seq<World>, events: seq<Event>, k: nat, p: Process, state: Identity)
    requires IsRun(worlds, events) && k < |events| && events[k].CallerStep? && events[k].p == p
    requires p in worlds[k + 1].callers && worlds[k + 1].callers[p].pc == Done(Stale(state))
    ensures p in worlds[k].callers && Known(worlds[k], StateOf(worlds[k].callers[p].role), state)
    ensures Ended(worlds[k], state) && HoldsNothing(worlds[k], Kid(state.instance))
  {
    hide Enabled, Init, Inv, CanAct, NextPc, LockInv, HeldByChild, HeldByCaller;
    RunStep(worlds, events, k);
    RunKeepsInv(worlds, events, k);
    StepIsAct(worlds[k], p, events[k].act);
    ActorIsLive(worlds[k], p, events[k].act);
    ReportsComeFrom(worlds[k], worlds[k].callers[p], events[k].act);
    FoundIsKnown(worlds[k], p);
    ReapedHoldsNothing(worlds[k], state.instance);
  }
}
