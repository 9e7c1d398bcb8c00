/** What every step of the managed service protocol keeps. */
module ServiceInvariants {
  import opened Text
  import opened ServiceLifecycle

  /** A lock is held by exactly the process that is where its guard is alive. */
  ghost predicate LockInv(w: World)
  {
    forall h, k :: Holds(w.locks, k, h) <==> k in Held(w, h)
  }

  /** A child that entered `serve_managed_ipc` holds its instance lock until it is over. */
  predicate EnteredFits(child: Child)
  {
    && (HoldsInstance(child.phase) && !child.phase.HasBoth? ==> child.entered)
    && (child.entered ==> (HoldsInstance(child.phase) && !child.phase.HasBoth?) || IsOver(child.phase))
  }

  ghost predicate ChildInv(w: World)
  {
    forall c :: c in w.children ==> c < w.next && EnteredFits(w.children[c])
  }

  /** A pid is not given out again before its process has been waited for. */
  ghost predicate PidInv(w: World)
  {
    forall c, d :: c in w.children && d in w.children && c != d && w.children[c].pid == w.children[d].pid
      ==> w.children[c].phase.Gone? || w.children[d].phase.Gone?
  }

  /** The identity of a child of this state path that did enter `serve_managed_ipc`. */
  predicate Known(w: World, path: StatePath, state: Identity)
  {
    state.instance in w.children && IdentityOf(state.instance, w.children[state.instance]) == state
    && w.children[state.instance].config.state == path && w.children[state.instance].entered
  }

  predicate KnownIfAny(w: World, path: StatePath, found: Option<Identity>)
  {
    found.Some? ==> Known(w, path, found.value)
  }

  /** That child has closed its endpoint and released both locks, for good. */
  predicate Ended(w: World, state: Identity)
  {
    state.instance in w.children && w.children[state.instance].entered && IsOver(w.children[state.instance].phase)
  }

  function StoredAt(w: World, path: StatePath): Option<Identity>
  {
    if path in w.files then Some(w.files[path]) else None
  }

  /** A coordinator's copy of the state file is still what the file holds. */
  predicate IsStored(w: World, role: Role, found: Option<Identity>)
  {
    role.Starting? || role.StoppingService? ==> found == StoredAt(w, StateOf(role))
  }

  /** Whatever service the state file records is over. */
  predicate StoredIsEnded(w: World, path: StatePath)
  {
    path in w.files ==> Ended(w, w.files[path])
  }

  ghost predicate FileInv(w: World)
  {
    forall path :: path in w.files ==> Known(w, path, w.files[path])
  }

  /** The child this starter spawned, still unreaped. */
  predicate Mine(w: World, p: Process, role: Role, c: Process)
  {
    role.Starting? && c in w.children && w.children[c].parent == Some(p) && w.children[c].config == role.config
    && !w.children[c].phase.Gone?
  }

  predicate MineAs(w: World, p: Process, role: Role, c: Process, identity: Identity)
  {
    Mine(w, p, role, c) && identity == IdentityOf(c, w.children[c]) && w.children[c].entered
  }

  predicate PcFits(w: World, p: Process, role: Role, pc: Pc)
  {
    var path := StateOf(role);
    match pc
    case Begin => true
    case Coordinating => role.Starting? || role.StoppingService?
    case Found(found) => role.Inspecting? && KnownIfAny(w, path, found)
    case ProbingStartup(found) => role.Inspecting? && KnownIfAny(w, path, found)
    case Look(found, _) => !role.Writing? && KnownIfAny(w, path, found) && IsStored(w, role, found)
    case ProbingInstance(found, _) => !role.Writing? && KnownIfAny(w, path, found) && IsStored(w, role, found)
    case InstanceKnown(found, _, active) =>
      !role.Writing? && KnownIfAny(w, path, found) && IsStored(w, role, found)
      && (found.Some? && !active ==> Ended(w, found.value))
    case Clear => role.Starting? && StoredIsEnded(w, path)
    case Checking => role.Starting? && StoredIsEnded(w, path)
    case Checked => role.Starting? && StoredIsEnded(w, path)
    case Waiting(c) => Mine(w, p, role, c)
    case Alive(c) => Mine(w, p, role, c)
    case Pinged(c, identity) => MineAs(w, p, role, c, identity)
    case ProbingReady(c) => Mine(w, p, role, c)
    case Confirmed(c, identity) => MineAs(w, p, role, c, identity)
    case Ready(c, identity) => MineAs(w, p, role, c, identity)
    case Reaping(c) => Mine(w, p, role, c)
    case Killing(c) => Mine(w, p, role, c) && w.children[c].phase.Exited?
    case Targeting(state) => role.StoppingService? && Known(w, path, state) && StoredAt(w, path) == Some(state)
    case Awaiting(state) => role.StoppingService? && Known(w, path, state) && StoredAt(w, path) == Some(state)
    case ProbingStop(state) => role.StoppingService? && Known(w, path, state) && StoredAt(w, path) == Some(state)
    case InstanceFree(state) =>
      role.StoppingService? && Known(w, path, state) && Ended(w, state) && StoredAt(w, path) == Some(state)
    case HoldingIndex(state) =>
      role.StoppingService? && Known(w, path, state) && Ended(w, state) && StoredAt(w, path) == Some(state)
    case IndexFree(state) =>
      role.StoppingService? && Known(w, path, state) && Ended(w, state) && StoredAt(w, path) == Some(state)
    case Removing(state) =>
      role.StoppingService? && Known(w, path, state) && Ended(w, state) && StoredAt(w, path) == Some(state)
    case Matched(state) =>
      role.StoppingService? && Known(w, path, state) && Ended(w, state) && StoredAt(w, path) == Some(state)
    case Holding => role.Writing?
    case Done(_) => true
    case Killed => true
  }

  predicate PcInv(w: World, p: Process)
    requires p in w.callers
  {
    PcFits(w, p, w.callers[p].role, w.callers[p].pc)
  }

  ghost predicate Inv(w: World)
  {
    LockInv(w) && ChildInv(w) && PidInv(w) && FileInv(w) && forall p :: p in w.callers ==> PcInv(w, p)
  }

  lemma InitHolds(w: World)
    requires Init(w)
    ensures Inv(w)
  {
  }

  // ---------------------------------------------------------------- locks

  lemma RelockIsExact(locks: map<Key, Holder>, before: set<Key>, after: set<Key>, h: Holder)
    requires forall k :: Holds(locks, k, h) <==> k in before
    requires forall k :: k in after && k !in before ==> k !in locks
    ensures var relocked := Relock(locks, before, after, h);
            && (forall k :: Holds(relocked, k, h) <==> k in after)
            && (forall k, g :: g != h ==> (Holds(relocked, k, g) <==> Holds(locks, k, g)))
            && (after <= before ==> relocked.Keys <= locks.Keys)
  {
  }

  lemma SetChildKeepsLocks(w: World, c: Process, phase: Phase)
    requires LockInv(w) && c in w.children
    requires CanTake(w, HeldByChild(w.children[c]), HeldByChild(MovedTo(w.children[c], phase)))
    ensures LockInv(SetChild(w, c, phase))
    ensures HeldByChild(MovedTo(w.children[c], phase)) <= HeldByChild(w.children[c])
            ==> SetChild(w, c, phase).locks.Keys <= w.locks.Keys
  {
    hide HeldByChild, HeldByCaller, Relock;
    var w' := SetChild(w, c, phase);
    var before, after := HeldByChild(w.children[c]), HeldByChild(w'.children[c]);
    assert Held(w, Kid(c)) == before && Held(w', Kid(c)) == after;
    RelockIsExact(w.locks, before, after, Kid(c));
    forall h, k ensures Holds(w'.locks, k, h) <==> k in Held(w', h) {
      if h != Kid(c) { assert Held(w', h) == Held(w, h); }
    }
  }

  lemma SetCallerKeepsLocks(w: World, p: Process, pc: Pc)
    requires LockInv(w) && p in w.callers
    requires CanTake(w, HeldByCaller(w.callers[p]), HeldByCaller(w.callers[p].(pc := pc)))
    ensures LockInv(SetCaller(w, p, pc))
  {
    hide HeldByChild, HeldByCaller, Relock;
    var w' := SetCaller(w, p, pc);
    var before, after := HeldByCaller(w.callers[p]), HeldByCaller(w'.callers[p]);
    assert Held(w, User(p)) == before && Held(w', User(p)) == after;
    RelockIsExact(w.locks, before, after, User(p));
    forall h, k ensures Holds(w'.locks, k, h) <==> k in Held(w', h) {
      if h != User(p) { assert Held(w', h) == Held(w, h); }
    }
  }

  lemma AddChildKeepsLocks(w: World, config: Config, pid: Pid, parent: Option<Process>)
    requires LockInv(w) && w.next !in w.children
    ensures LockInv(AddChild(w, config, pid, parent))
  {
  }

  lemma ActsTakeFreeLocks(w: World, p: Process, act: Act)
    requires p in w.callers && PcInv(w, p) && CanAct(w, w.callers[p], act)
    ensures CanTake(w, HeldByCaller(w.callers[p]), HeldByCaller(w.callers[p].(pc := NextPc(w, w.callers[p], act))))
  {
  }

  /** Acts end, kill, reap or stop a child; none gives it a lock. */
  predicate IsActedOn(w: World, p: Process, effect: Effect)
  {
    effect.Sets? ==>
      && effect.c in w.children
      && ((w.children[effect.c].parent == Some(p) && effect.phase.Exited? && !w.children[effect.c].phase.Gone?)
          || (w.children[effect.c].parent == Some(p) && effect.phase.Gone? && w.children[effect.c].phase.Exited?)
          || (effect.phase.Stopping? && w.children[effect.c].phase.Serving?))
  }

  lemma EffectsFit(w: World, p: Process, act: Act)
    requires p in w.callers && PcInv(w, p) && CanAct(w, w.callers[p], act)
    ensures IsActedOn(w, p, EffectOf(w, w.callers[p], act))
  {
  }

  lemma ActedKeepsLocks(w: World, p: Process, effect: Effect)
    requires LockInv(w) && IsActedOn(w, p, effect)
    ensures LockInv(Acted(w, effect)) && Acted(w, effect).locks.Keys <= w.locks.Keys
  {
    hide HeldByCaller, LockInv;
    if effect.Sets? { SetChildKeepsLocks(w, effect.c, effect.phase); }
  }

  lemma CallerActsKeepLocks(w: World, p: Process, act: Act)
    requires LockInv(w) && p in w.callers && PcInv(w, p) && CanAct(w, w.callers[p], act) && w.next !in w.children
    ensures LockInv(CallerActs(w, p, act))
  {
    hide HeldByCaller, HeldByChild, CanAct, NextPc, EffectOf, LockInv, PcInv, FilesAfter;
    var caller, pc := w.callers[p], NextPc(w, w.callers[p], act);
    EffectsFit(w, p, act);
    var acted := Acted(w, EffectOf(w, caller, act));
    ActedKeepsLocks(w, p, EffectOf(w, caller, act));
    ActsTakeFreeLocks(w, p, act);
    SetCallerKeepsLocks(acted, p, pc);
    var stepped := SetCaller(acted, p, pc).(files := FilesAfter(w, caller, act));
    FilesAreNotLocks(SetCaller(acted, p, pc), FilesAfter(w, caller, act));
    if act.Spawn? {
      SpawnActsAlone(w, caller, act);
      AddChildKeepsLocks(stepped, caller.role.config, act.pid, Some(p));
    }
  }

  lemma FilesAreNotLocks(w: World, files: map<StatePath, Identity>)
    requires LockInv(w)
    ensures LockInv(w.(files := files))
  {
  }

  lemma SpawnActsAlone(w: World, caller: Caller, act: Act)
    requires CanAct(w, caller, act) && act.Spawn?
    ensures EffectOf(w, caller, act) == NoEffect && caller.role.Starting?
  {
  }

  lemma LockSteps(w: World, e: Event)
    requires Inv(w) && Enabled(w, e)
    ensures LockInv(Apply(w, e))
  {
    hide HeldByCaller, HeldByChild, CanAct, CallerActs, SetChild, AddChild, LockInv, PidInv, FileInv, PcInv, CanTake;
    match e {
      case Call(p, role) => CallKeepsLocks(w, p, role);
      case CallerStep(p, act) => CallerActsKeepLocks(w, p, act);
      case ChildStep(c, to) => SetChildKeepsLocks(w, c, to);
      case RunDirectly(config, pid) => AddChildKeepsLocks(w, config, pid, None);
    }
  }

  lemma CallKeepsLocks(w: World, p: Process, role: Role)
    requires LockInv(w) && p !in w.callers
    ensures LockInv(w.(callers := w.callers[p := Caller(role, Begin)]))
  {
  }

  // ---------------------------------------------------------------- children

  /** Children are never forgotten, and what they have done stays done. */
  ghost predicate Grows(w: World, w': World)
  {
    && w.next <= w'.next
    && forall c :: c in w.children ==> c in w'.children && Continues(w.children[c], w'.children[c])
  }

  predicate Continues(child: Child, later: Child)
  {
    later.config == child.config && later.pid == child.pid && later.parent == child.parent
    && (child.entered ==> later.entered) && (IsOver(child.phase) ==> IsOver(later.phase))
  }

  lemma ActedGrows(w: World, p: Process, effect: Effect)
    requires IsActedOn(w, p, effect)
    ensures Grows(w, Acted(w, effect))
  {
    hide HeldByChild, Relock;
  }

  lemma StepGrows(w: World, e: Event)
    requires Inv(w) && Enabled(w, e)
    ensures Grows(w, Apply(w, e))
  {
    hide HeldByChild, HeldByCaller, Relock, LockInv, PidInv, FileInv, CanAct, NextPc, EffectOf, FilesAfter, CanTake, PcFits;
    if e.CallerStep? {
      EffectsFit(w, e.p, e.act);
      ActedGrows(w, e.p, EffectOf(w, w.callers[e.p], e.act));
    }
  }

  lemma ActedKeepsChildren(w: World, p: Process, effect: Effect)
    requires ChildInv(w) && PidInv(w) && IsActedOn(w, p, effect)
    ensures ChildInv(Acted(w, effect)) && PidInv(Acted(w, effect))
  {
    hide HeldByChild, Relock;
  }

  lemma AddChildKeepsChildren(w: World, config: Config, pid: Pid, parent: Option<Process>)
    requires ChildInv(w) && PidInv(w) && PidFree(w, pid)
    ensures ChildInv(AddChild(w, config, pid, parent)) && PidInv(AddChild(w, config, pid, parent))
  {
  }

  lemma MovesKeepChildren(w: World, c: Process, to: Phase)
    requires ChildInv(w) && PidInv(w) && c in w.children && Moves(w.children[c].phase, to)
    ensures ChildInv(SetChild(w, c, to)) && PidInv(SetChild(w, c, to))
  {
    hide HeldByChild, Relock;
  }

  lemma ChildSteps(w: World, e: Event)
    requires Inv(w) && Enabled(w, e)
    ensures ChildInv(Apply(w, e)) && PidInv(Apply(w, e))
  {
    hide HeldByChild, HeldByCaller, Relock, LockInv, FileInv, NextPc, EffectOf, FilesAfter, CanTake, PcFits, Moves;
    match e {
      case Call(p, role) =>
      case CallerStep(p, act) => CallerActsKeepChildren(w, p, act);
      case ChildStep(c, to) => MovesKeepChildren(w, c, to);
      case RunDirectly(config, pid) => AddChildKeepsChildren(w, config, pid, None);
    }
  }

  lemma CallerActsKeepChildren(w: World, p: Process, act: Act)
    requires Inv(w) && p in w.callers && CanAct(w, w.callers[p], act)
    ensures ChildInv(CallerActs(w, p, act)) && PidInv(CallerActs(w, p, act))
  {
    hide HeldByChild, HeldByCaller, Relock, LockInv, FileInv, NextPc, EffectOf, FilesAfter, CanTake, PcFits, SetChild, ChildInv, PidInv;
    var caller := w.callers[p];
    EffectsFit(w, p, act);
    ActedKeepsChildren(w, p, EffectOf(w, caller, act));
    var stepped := SetCaller(Acted(w, EffectOf(w, caller, act)), p, NextPc(w, caller, act)).(files := FilesAfter(w, caller, act));
    SameChildrenSameInv(Acted(w, EffectOf(w, caller, act)), stepped);
    if act.Spawn? {
      SpawnActsAlone(w, caller, act);
      AddChildKeepsChildren(stepped, caller.role.config, act.pid, Some(p));
    }
  }

  lemma SameChildrenSameInv(w: World, w': World)
    requires ChildInv(w) && PidInv(w) && w'.children == w.children && w'.next == w.next
    ensures ChildInv(w') && PidInv(w')
  {
  }

  // ---------------------------------------------------------------- what callers know

  lemma KnownStays(w: World, w': World, path: StatePath, state: Identity)
    requires Grows(w, w') && Known(w, path, state)
    ensures Known(w', path, state) && (Ended(w, state) ==> Ended(w', state))
  {
  }

  /** Nothing another process does touches a starter's child, or, while a starter or stopper
      holds the startup lock, the state file of its path. */
  ghost predicate Undisturbed(w: World, w': World, p: Process)
    requires p in w.callers
  {
    && p in w'.callers && w'.callers[p] == w.callers[p] && Grows(w, w')
    && (IsLive(w.callers[p].pc) ==>
          forall c :: c in w.children && w.children[c].parent == Some(p) && !w.children[c].phase.Gone? ==>
            c in w'.children && !w'.children[c].phase.Gone?
            && (w.children[c].phase.Exited? ==> w'.children[c].phase.Exited?))
    && ((w.callers[p].role.Starting? || w.callers[p].role.StoppingService?) && HoldsStartup(w.callers[p]) ==>
          SameFile(w, w', StateOf(w.callers[p].role)))
  }

  predicate SameFile(w: World, w': World, path: StatePath)
  {
    if path in w.files then path in w'.files && w'.files[path] == w.files[path] else path !in w'.files
  }

  lemma UndisturbedKeepsPc(w: World, w': World, p: Process)
    requires p in w.callers && PcInv(w, p) && Undisturbed(w, w', p)
    ensures PcInv(w', p)
  {
    hide HeldByChild, HeldByCaller;
  }

  // ---------------------------------------------------------------- other callers

  /** Two coordinators of one state path are the same process. */
  lemma OneCoordinator(w: World, p: Process, q: Process)
    requires LockInv(w) && p in w.callers && q in w.callers && HoldsStartup(w.callers[p]) && HoldsStartup(w.callers[q])
    requires StateOf(w.callers[p].role) == StateOf(w.callers[q].role)
    ensures p == q
  {
    var key := StartupLock(StateOf(w.callers[p].role));
    assert key in Held(w, User(p)) && key in Held(w, User(q));
    assert Holds(w.locks, key, User(p)) && Holds(w.locks, key, User(q));
  }

  /** Only a coordinator of a path writes or removes its state file. */
  lemma FilesChangeUnderStartup(w: World, p: Process, act: Act, path: StatePath)
    requires p in w.callers && PcInv(w, p) && CanAct(w, w.callers[p], act)
    requires !SameFile(w, w.(files := FilesAfter(w, w.callers[p], act)), path)
    ensures (act.Publish? || act.RemoveFile?) && HoldsStartup(w.callers[p]) && StateOf(w.callers[p].role) == path
  {
    hide HeldByChild, HeldByCaller;
  }

  lemma ActLeavesFile(w: World, p: Process, act: Act, q: Process)
    requires LockInv(w) && p in w.callers && q in w.callers && p != q && PcInv(w, p) && CanAct(w, w.callers[p], act)
    requires (w.callers[q].role.Starting? || w.callers[q].role.StoppingService?) && HoldsStartup(w.callers[q])
    ensures SameFile(w, w.(files := FilesAfter(w, w.callers[p], act)), StateOf(w.callers[q].role))
  {
    hide HeldByChild, HeldByCaller, LockInv, PcInv, CanAct, FilesAfter;
    var path := StateOf(w.callers[q].role);
    if !SameFile(w, w.(files := FilesAfter(w, w.callers[p], act)), path) {
      FilesChangeUnderStartup(w, p, act, path);
      OneCoordinator(w, p, q);
    }
  }

  /** An act changes no child of another starter, except to make a serving one stop. */
  lemma ActLeavesChild(w: World, p: Process, act: Act, c: Process)
    requires ChildInv(w) && p in w.callers && PcInv(w, p) && CanAct(w, w.callers[p], act)
    requires c in w.children && w.children[c].parent != Some(p) && !w.children[c].phase.Gone?
    ensures c in CallerActs(w, p, act).children && !CallerActs(w, p, act).children[c].phase.Gone?
    ensures w.children[c].phase.Exited? ==> CallerActs(w, p, act).children[c].phase.Exited?
  {
    hide HeldByChild, HeldByCaller, Relock, PcInv, NextPc, CanAct, EffectOf, FilesAfter;
    EffectsFit(w, p, act);
  }

  lemma ActLeavesOthers(w: World, p: Process, act: Act, q: Process)
    requires Inv(w) && p in w.callers && q in w.callers && p != q && CanAct(w, w.callers[p], act)
    ensures Undisturbed(w, CallerActs(w, p, act), q)
  {
    hide HeldByChild, HeldByCaller, Relock, LockInv, PidInv, FileInv, PcFits, NextPc, CanAct, EffectOf, FilesAfter, Acted, Grows;
    StepGrows(w, CallerStep(p, act));
    forall c | c in w.children && w.children[c].parent == Some(q) && !w.children[c].phase.Gone?
      ensures c in CallerActs(w, p, act).children && !CallerActs(w, p, act).children[c].phase.Gone?
      ensures w.children[c].phase.Exited? ==> CallerActs(w, p, act).children[c].phase.Exited?
    {
      ActLeavesChild(w, p, act, c);
    }
    if (w.callers[q].role.Starting? || w.callers[q].role.StoppingService?) && HoldsStartup(w.callers[q]) {
      ActLeavesFile(w, p, act, q);
    }
  }

  lemma ChildMovesLeaveAll(w: World, c: Process, to: Phase, q: Process)
    requires Inv(w) && Enabled(w, ChildStep(c, to)) && q in w.callers
    ensures Undisturbed(w, Apply(w, ChildStep(c, to)), q)
  {
  }

  lemma OthersSteps(w: World, e: Event, q: Process)
    requires Inv(w) && Enabled(w, e) && q in w.callers && (e.CallerStep? ==> e.p != q)
    ensures q in Apply(w, e).callers && PcInv(Apply(w, e), q)
  {
    hide HeldByChild, HeldByCaller, Relock, LockInv, PidInv, FileInv, PcInv, CanTake, CallerActs, CanAct, Moves, SetChild;
    StepGrows(w, e);
    match e {
      case Call(p, role) =>
      case CallerStep(p, act) => ActLeavesOthers(w, p, act, q);
      case ChildStep(c, to) => ChildMovesLeaveAll(w, c, to, q);
      case RunDirectly(config, pid) =>
    }
    UndisturbedKeepsPc(w, Apply(w, e), q);
  }

  // ---------------------------------------------------------------- the acting caller

  /** A probe that got the instance lock proves it: no child of this path that entered
      `serve_managed_ipc` is still holding it, so each of them is over. */
  lemma FreeInstanceMeansEnded(w: World, h: Holder, path: StatePath, state: Identity)
    requires LockInv(w) && ChildInv(w) && Known(w, path, state)
    requires InstanceLock(path) in w.locks ==> w.locks[InstanceLock(path)] == h && !h.Kid?
    ensures Ended(w, state)
  {
    hide HeldByCaller, Relock;
    var c := state.instance;
    assert !Holds(w.locks, InstanceLock(path), Kid(c));
    assert InstanceLock(path) !in Held(w, Kid(c));
  }

  lemma ProbeHoldsInstance(w: World, p: Process)
    requires LockInv(w) && p in w.callers
    requires w.callers[p].pc.ProbingInstance? || w.callers[p].pc.ProbingStop?
    ensures Holds(w.locks, InstanceLock(StateOf(w.callers[p].role)), User(p))
  {
  }

  lemma EndedProbesFit(w: World, p: Process)
    requires Inv(w) && p in w.callers && CanAct(w, w.callers[p], EndProbe)
    ensures PcFits(w, p, w.callers[p].role, NextPc(w, w.callers[p], EndProbe))
  {
    hide HeldByChild, HeldByCaller, LockInv, ChildInv, PidInv, FileInv, Known, Ended, Mine, MineAs;
    var pc, path := w.callers[p].pc, StateOf(w.callers[p].role);
    assert PcInv(w, p);
    if pc.ProbingInstance? && pc.found.Some? {
      ProbeHoldsInstance(w, p);
      FreeInstanceMeansEnded(w, User(p), path, pc.found.value);
    } else if pc.ProbingStop? {
      ProbeHoldsInstance(w, p);
      FreeInstanceMeansEnded(w, User(p), path, pc.state);
    }
  }

  /** A process that answers with the pid of an unreaped child is that child. */
  lemma AnswerIsOwnChild(w: World, p: Process)
    requires Inv(w) && p in w.callers && CanAct(w, w.callers[p], PingChild)
    ensures PcFits(w, p, w.callers[p].role, NextPc(w, w.callers[p], PingChild))
    ensures NextPc(w, w.callers[p], PingChild).Pinged? ==> Answers(w, w.callers[p].role.config.endpoint, w.callers[p].pc.child)
  {
  }

  predicate IsPlain(act: Act)
  {
    !act.EndProbe? && !act.PingChild? && !act.Spawn? && !act.KillChild? && !act.WaitChild? && !act.SendShutdown?
    && !act.Publish? && !act.RemoveFile?
  }

  lemma DecisionsFit(w: World, p: Process, matched: bool, unavailable: bool)
    requires p in w.callers && PcInv(w, p) && w.callers[p].pc.InstanceKnown?
    ensures PcFits(w, p, w.callers[p].role, Decision(w.callers[p].role, w.callers[p].pc, matched, unavailable))
  {
    hide Known, Ended;
  }

  lemma PlainActsFit(w: World, p: Process, act: Act)
    requires FileInv(w) && p in w.callers && PcInv(w, p) && CanAct(w, w.callers[p], act) && IsPlain(act)
    ensures PcFits(w, p, w.callers[p].role, NextPc(w, w.callers[p], act))
  {
    hide HeldByChild, HeldByCaller, Known, Ended, Decision, AnswersAs, IsAnswered;
    if act.NoState? {
      DecisionsFit(w, p, false, false);
    } else if act.PingMatched? {
      DecisionsFit(w, p, true, false);
    } else if act.PingUnavailable? && w.callers[p].pc.InstanceKnown? {
      DecisionsFit(w, p, false, true);
    }
  }

  lemma SameFactsFit(w: World, w': World, p: Process, role: Role, pc: Pc)
    requires PcFits(w, p, role, pc) && w'.children == w.children && w'.files == w.files
    ensures PcFits(w', p, role, pc)
  {
  }

  lemma ShutdownFits(w: World, p: Process)
    requires p in w.callers && PcInv(w, p) && CanAct(w, w.callers[p], SendShutdown)
    ensures PcInv(CallerActs(w, p, SendShutdown), p)
  {
    hide HeldByChild, HeldByCaller, Relock;
  }

  lemma KillFits(w: World, p: Process)
    requires p in w.callers && PcInv(w, p) && CanAct(w, w.callers[p], KillChild)
    ensures PcInv(CallerActs(w, p, KillChild), p)
  {
    hide HeldByChild, HeldByCaller, Relock;
  }

  lemma OwnStep(w: World, p: Process, act: Act)
    requires Inv(w) && p in w.callers && CanAct(w, w.callers[p], act)
    ensures PcInv(CallerActs(w, p, act), p)
  {
    hide HeldByChild, HeldByCaller, Relock, LockInv, ChildInv, PidInv, CanAct, NextPc, PcFits, SetChild, FileInv;
    var w', caller := CallerActs(w, p, act), w.callers[p];
    assert PcInv(w, p);
    if act.SendShutdown? {
      ShutdownFits(w, p);
    } else if act.KillChild? {
      KillFits(w, p);
    } else if act.Spawn? || act.WaitChild? || act.Publish? || act.RemoveFile? || (act.Poll? && EffectOf(w, caller, act).Sets?) {
      LastActsFit(w, p, act);
    } else {
      if act.EndProbe? {
        EndedProbesFit(w, p);
      } else if act.PingChild? {
        AnswerIsOwnChild(w, p);
      } else {
        PlainActsFit(w, p, act);
      }
      SameFactsFit(w, w', p, caller.role, NextPc(w, caller, act));
    }
  }

  lemma LastActsFit(w: World, p: Process, act: Act)
    requires Inv(w) && p in w.callers && CanAct(w, w.callers[p], act)
    requires act.Spawn? || act.WaitChild? || act.Publish? || act.RemoveFile? || (act.Poll? && EffectOf(w, w.callers[p], act).Sets?)
    ensures PcInv(CallerActs(w, p, act), p)
  {
    hide HeldByChild, HeldByCaller, Relock, LockInv, ChildInv, PidInv, FileInv;
  }

  // ---------------------------------------------------------------- state files

  lemma FileSteps(w: World, e: Event)
    requires Inv(w) && Enabled(w, e)
    ensures FileInv(Apply(w, e))
  {
    hide HeldByChild, HeldByCaller, Relock, LockInv, ChildInv, PidInv, CanTake, NextPc, EffectOf, CanAct, Moves, Known, FilesAfter;
    var w' := Apply(w, e);
    StepGrows(w, e);
    forall path | path in w'.files ensures Known(w', path, w'.files[path]) {
      if e.CallerStep? && !SameFile(w, w', path) {
        FilesChangeUnderStartup(w, e.p, e.act, path);
        PublishedIsKnown(w, e.p, e.act, path);
      }
      KnownStays(w, w', path, w'.files[path]);
    }
  }

  lemma PublishedIsKnown(w: World, p: Process, act: Act, path: StatePath)
    requires p in w.callers && PcInv(w, p) && CanAct(w, w.callers[p], act)
    requires path in FilesAfter(w, w.callers[p], act) && !SameFile(w, w.(files := FilesAfter(w, w.callers[p], act)), path)
    ensures Known(w, path, FilesAfter(w, w.callers[p], act)[path])
  {
    hide HeldByChild, HeldByCaller;
  }

  lemma StepKeepsInv(w: World, e: Event)
    requires Inv(w) && Enabled(w, e)
    ensures Inv(Apply(w, e))
  {
    hide LockInv, ChildInv, PidInv, FileInv, PcInv, HeldByChild, HeldByCaller, Relock, CanTake, CanAct, Moves, SetChild, SetCaller, NextPc, FilesAfter, EffectOf;
    LockSteps(w, e);
    ChildSteps(w, e);
    FileSteps(w, e);
    forall q | q in Apply(w, e).callers ensures PcInv(Apply(w, e), q) {
      if e.CallerStep? && e.p == q {
        OwnStep(w, q, e.act);
      } else if q in w.callers {
        OthersSteps(w, e, q);
      } else {
        NewCallersFit(w, e, q);
      }
    }
  }

  lemma NewCallersFit(w: World, e: Event, q: Process)
    requires Enabled(w, e) && q in Apply(w, e).callers && q !in w.callers
    ensures PcInv(Apply(w, e), q)
  {
    hide HeldByChild, HeldByCaller, Relock, CanTake, CanAct, Moves, NextPc, FilesAfter, EffectOf;
  }
}
