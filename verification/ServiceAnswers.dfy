/** What the answers of start, stop and status mean (crates/daemon/src/lib.rs, 162-282, 292-382,
    558-629): over whole runs, what must have happened before each of them. */
module ServiceAnswers {
  import opened Text
  import opened ServiceLifecycle
  import opened ServiceInvariants
  import opened ServiceTheorems

  // ---------------------------------------------------------------- one step back

  lemma BeforeInstanceKnown(w: World, caller: Caller, act: Act)
    requires CanAct(w, caller, act)
    ensures var to, pc, path := NextPc(w, caller, act), caller.pc, StateOf(caller.role);
      && (to.InstanceKnown? ==>
            if to.active then act.Probe? && pc == Look(to.found, to.starting) && InstanceLock(path) in w.locks
            else act.EndProbe? && pc == ProbingInstance(to.found, to.starting))
      && (to.ProbingInstance? ==> act.Probe? && pc == Look(to.found, to.starting) && InstanceLock(path) !in w.locks)
  {
  }

  lemma BeforeLook(w: World, caller: Caller, act: Act)
    requires CanAct(w, caller, act)
    ensures var to, pc, path := NextPc(w, caller, act), caller.pc, StateOf(caller.role);
      && (to.Look? ==>
            (!caller.role.Inspecting? && act.ReadFile? && to.found == StoredAt(w, path))
            || (to.starting && act.Probe? && pc == Found(to.found) && StartupLock(path) in w.locks)
            || (!to.starting && act.EndProbe? && pc == ProbingStartup(to.found)))
      && (to.ProbingStartup? ==> act.Probe? && pc == Found(to.found) && StartupLock(path) !in w.locks)
      && (to.Found? ==> caller.role.Inspecting? && act.ReadFile? && to.found == StoredAt(w, path))
  {
  }

  lemma BeforeRemoval(w: World, caller: Caller, act: Act)
    requires CanAct(w, caller, act)
    ensures var to, pc, path := NextPc(w, caller, act), caller.pc, StateOf(caller.role);
      && (to.Matched? ==> act.CheckFile? && pc == Removing(to.state))
      && (to.Removing? ==>
            act.PingUnavailable? && Listener(to.state.endpoint) !in w.locks
            && (pc == IndexFree(to.state) || (pc.InstanceKnown? && pc.found == Some(to.state) && !pc.active)))
      && (to.IndexFree? ==> act.EndProbe? && pc == HoldingIndex(to.state))
      && (to.HoldingIndex? ==> act.Probe? && pc == InstanceFree(to.state) && IndexLock(to.state.index) !in w.locks)
      && (to.InstanceFree? ==> act.EndProbe? && pc == ProbingStop(to.state))
      && (to.ProbingStop? ==> act.Probe? && pc == Awaiting(to.state) && InstanceLock(path) !in w.locks)
      && (to.Awaiting? ==>
            (act.SendShutdown? && pc == Targeting(to.state) && AnswersAs(w, to.state))
            || (act.Probe? && (pc == Awaiting(to.state) || pc == InstanceFree(to.state))))
  {
  }

  lemma BeforeSpawn(w: World, caller: Caller, act: Act)
    requires CanAct(w, caller, act)
    ensures var to, pc := NextPc(w, caller, act), caller.pc;
      && (to.Clear? ==>
            pc.InstanceKnown? && !pc.active && caller.role.Starting?
            && (pc.found.Some? ==> Listener(pc.found.value.endpoint) !in w.locks))
      && (to.Checking? ==> act.TakeIndex? && pc.Clear? && caller.role.Starting? && IndexLock(caller.role.config.index) !in w.locks)
      && (to.Checked? ==> act.EndProbe? && pc.Checking?)
  {
  }

  // ---------------------------------------------------------------- what a caller has seen

  /** Where a caller's knowledge comes from: the file as it read it, the startup lock as it
      probed it (status readers only), and last the instance lock as it probed it. */
  ghost predicate Saw(
      worlds: seq<World>, events: seq<Event>, k: nat, p: Process, path: StatePath, reading: nat, startup: nat, probing: nat)
  {
    && reading < probing < k <= |events| < |worlds| && p in worlds[k].callers && worlds[k].callers[p].pc.InstanceKnown?
    && path == StateOf(worlds[k].callers[p].role)
    && events[reading] == CallerStep(p, ReadFile) && events[probing] == CallerStep(p, Probe)
    && worlds[k].callers[p].pc.found == StoredAt(worlds[reading], path)
    && (worlds[k].callers[p].pc.active <==> InstanceLock(path) in worlds[probing].locks)
    && (worlds[k].callers[p].role.Inspecting? ==>
          reading < startup < probing && events[startup] == CallerStep(p, Probe)
          && (worlds[k].callers[p].pc.starting <==> StartupLock(path) in worlds[startup].locks))
  }

  lemma {:induction false} Looked(worlds: seq<World>, events: seq<Event>, k: nat, p: Process)
      returns (reading: nat, startup: nat)
    requires IsRun(worlds, events) && k < |worlds| && p in worlds[k].callers && worlds[k].callers[p].pc.Look?
    ensures reading < k && events[reading] == CallerStep(p, ReadFile)
    ensures worlds[k].callers[p].pc.found == StoredAt(worlds[reading], StateOf(worlds[k].callers[p].role))
    ensures worlds[k].callers[p].role.Inspecting? ==>
              reading < startup < k && events[startup] == CallerStep(p, Probe)
              && (worlds[k].callers[p].pc.starting <==> StartupLock(StateOf(worlds[k].callers[p].role)) in worlds[startup].locks)
  {
    hide Enabled, Apply, NextPc, CanAct, Init, StateOf;
    reading := Since(worlds, events, k, p);
    BeforeLook(worlds[reading], worlds[reading].callers[p], events[reading].act);
    startup := reading;
    if !events[reading].act.ReadFile? {
      if worlds[startup].callers[p].pc.ProbingStartup? {
        startup := Since(worlds, events, startup, p);
        BeforeLook(worlds[startup], worlds[startup].callers[p], events[startup].act);
      }
      reading := Since(worlds, events, startup, p);
      BeforeLook(worlds[reading], worlds[reading].callers[p], events[reading].act);
    }
  }

  lemma SawIt(worlds: seq<World>, events: seq<Event>, k: nat, p: Process) returns (reading: nat, startup: nat, probing: nat)
    requires IsRun(worlds, events) && k < |worlds| && p in worlds[k].callers && worlds[k].callers[p].pc.InstanceKnown?
    ensures Saw(worlds, events, k, p, StateOf(worlds[k].callers[p].role), reading, startup, probing)
  {
    hide Enabled, Apply, NextPc, CanAct, Init, StateOf;
    probing := Since(worlds, events, k, p);
    BeforeInstanceKnown(worlds[probing], worlds[probing].callers[p], events[probing].act);
    if worlds[probing].callers[p].pc.ProbingInstance? {
      probing := Since(worlds, events, probing, p);
      BeforeInstanceKnown(worlds[probing], worlds[probing].callers[p], events[probing].act);
    }
    reading, startup := Looked(worlds, events, probing, p);
  }

  // ---------------------------------------------------------------- stop

  /** When a stopper reports `stopped`, there is no state file, and whatever service the file
      recorded when it took the startup lock is over and holds nothing. */
  lemma StoppedMeansGone(worlds: seq<World>, events: seq<Event>, k: nat, p: Process, path: StatePath)
      returns (began: nat)
    requires IsRun(worlds, events) && k < |events| && events[k].CallerStep? && events[k].p == p
    requires p in worlds[k].callers && worlds[k].callers[p].role == StoppingService(path)
    requires p in worlds[k + 1].callers && worlds[k + 1].callers[p].pc == Done(Stopped)
    ensures path !in worlds[k + 1].files
    ensures began < k && events[began] == CallerStep(p, Coordinate)
    ensures path in worlds[began].files ==>
              Ended(worlds[k + 1], worlds[began].files[path]) && HoldsNothing(worlds[k + 1], Kid(worlds[began].files[path].instance))
  {
    RunStep(worlds, events, k);
    RunKeepsInv(worlds, events, k);
    RunKeepsInv(worlds, events, k + 1);
    StepIsAct(worlds[k], p, events[k].act);
    StoppedComesFrom(worlds[k], p, events[k].act, path);
    hide IsRun, Enabled, Apply, Inv, CanAct, NextPc, Coordinates, CallerActs;
    began := FileFixedSinceCoordination(worlds, events, k, p, path);
    if path in worlds[began].files {
      RunGrows(worlds, events, k, k + 1);
      EndedStays(worlds[k], worlds[k + 1], worlds[began].files[path]);
      ReapedHoldsNothing(worlds[k + 1], worlds[began].files[path].instance);
    }
  }

  lemma EndedStays(w: World, w': World, state: Identity)
    requires Grows(w, w') && Ended(w, state)
    ensures Ended(w', state) && state.instance in w'.children && IsOver(w'.children[state.instance].phase)
  {
  }

  lemma StoppedComesFrom(w: World, p: Process, act: Act, path: StatePath)
    requires Inv(w) && p in w.callers && CanAct(w, w.callers[p], act) && w.callers[p].role == StoppingService(path)
    requires NextPc(w, w.callers[p], act) == Done(Stopped)
    ensures Coordinates(w, p, path) && path !in CallerActs(w, p, act).files && StoredIsEnded(w, path)
  {
    hide LockInv, PidInv, FileInv, ChildInv, HeldByChild, HeldByCaller, Relock;
    assert PcInv(w, p);
  }

  /** The removal after a shutdown: the recorded service answered as itself and was told to
      stop; later its instance lock was free, then its index lock, then nobody listened. */
  ghost predicate ShutDown(
      worlds: seq<World>, events: seq<Event>, k: nat, p: Process, path: StatePath, state: Identity,
      sent: nat, probed: nat, indexed: nat, pinged: nat)
  {
    && sent < probed < indexed < pinged < k <= |events| < |worlds|
    && events[sent] == CallerStep(p, SendShutdown) && AnswersAs(worlds[sent], state)
    && events[probed] == CallerStep(p, Probe) && InstanceLock(path) !in worlds[probed].locks
    && events[indexed] == CallerStep(p, Probe) && IndexLock(state.index) !in worlds[indexed].locks
    && events[pinged] == CallerStep(p, PingUnavailable) && Listener(state.endpoint) !in worlds[pinged].locks
  }

  /** The removal of a stale file: the instance lock was free, and then nobody listened. */
  ghost predicate FoundStale(
      worlds: seq<World>, events: seq<Event>, k: nat, p: Process, path: StatePath, state: Identity, probed: nat, pinged: nat)
  {
    && probed < pinged < k <= |events| < |worlds|
    && events[probed] == CallerStep(p, Probe) && InstanceLock(path) !in worlds[probed].locks
    && events[pinged] == CallerStep(p, PingUnavailable) && Listener(state.endpoint) !in worlds[pinged].locks
  }

  lemma {:induction false} SentBefore(worlds: seq<World>, events: seq<Event>, k: nat, p: Process) returns (sent: nat)
    requires IsRun(worlds, events) && k < |worlds| && p in worlds[k].callers && worlds[k].callers[p].pc.Awaiting?
    ensures sent < k && events[sent] == CallerStep(p, SendShutdown) && AnswersAs(worlds[sent], worlds[k].callers[p].pc.state)
  {
    hide Enabled, Apply, NextPc, CanAct, Init, StateOf, AnswersAs;
    sent := Since(worlds, events, k, p);
    BeforeRemoval(worlds[sent], worlds[sent].callers[p], events[sent].act);
    if !events[sent].act.SendShutdown? {
      if worlds[sent].callers[p].pc.InstanceFree? {
        sent := Since(worlds, events, sent, p);
        BeforeRemoval(worlds[sent], worlds[sent].callers[p], events[sent].act);
        sent := Since(worlds, events, sent, p);
        BeforeRemoval(worlds[sent], worlds[sent].callers[p], events[sent].act);
      }
      sent := SentBefore(worlds, events, sent, p);
    }
  }

  lemma {:induction false} FreedBefore(worlds: seq<World>, events: seq<Event>, k: nat, p: Process)
      returns (sent: nat, probed: nat, indexed: nat)
    requires IsRun(worlds, events) && k < |worlds| && p in worlds[k].callers && worlds[k].callers[p].pc.IndexFree?
    ensures var state := worlds[k].callers[p].pc.state;
      && sent < probed < indexed < k && events[sent] == CallerStep(p, SendShutdown) && AnswersAs(worlds[sent], state)
      && events[probed] == CallerStep(p, Probe) && InstanceLock(StateOf(worlds[k].callers[p].role)) !in worlds[probed].locks
      && events[indexed] == CallerStep(p, Probe) && IndexLock(state.index) !in worlds[indexed].locks
  {
    hide Enabled, Apply, NextPc, CanAct, Init, StateOf, AnswersAs;
    indexed := Since(worlds, events, k, p);
    BeforeRemoval(worlds[indexed], worlds[indexed].callers[p], events[indexed].act);
    indexed := Since(worlds, events, indexed, p);
    BeforeRemoval(worlds[indexed], worlds[indexed].callers[p], events[indexed].act);
    probed := Since(worlds, events, indexed, p);
    BeforeRemoval(worlds[probed], worlds[probed].callers[p], events[probed].act);
    probed := Since(worlds, events, probed, p);
    BeforeRemoval(worlds[probed], worlds[probed].callers[p], events[probed].act);
    sent := SentBefore(worlds, events, probed, p);
  }

  /** No state file is removed on less than this. */
  lemma {:induction false} RemovalSequence(worlds: seq<World>, events: seq<Event>, k: nat, p: Process)
    requires IsRun(worlds, events) && k < |events| && events[k] == CallerStep(p, RemoveFile)
    ensures p in worlds[k].callers && StateOf(worlds[k].callers[p].role) in worlds[k].files
    ensures var path := StateOf(worlds[k].callers[p].role);
      (exists probed, pinged :: FoundStale(worlds, events, k, p, path, worlds[k].files[path], probed, pinged))
      || (exists sent, probed, indexed, pinged ::
            ShutDown(worlds, events, k, p, path, worlds[k].files[path], sent, probed, indexed, pinged))
  {
    hide Enabled, Apply, NextPc, CanAct, Init, StateOf, AnswersAs, Inv;
    RunStep(worlds, events, k);
    RunKeepsInv(worlds, events, k);
    MatchedIsStored(worlds[k], p);
    var path, state := StateOf(worlds[k].callers[p].role), worlds[k].callers[p].pc.state;
    var checked := Since(worlds, events, k, p);
    BeforeRemoval(worlds[checked], worlds[checked].callers[p], events[checked].act);
    var pinged := Since(worlds, events, checked, p);
    BeforeRemoval(worlds[pinged], worlds[pinged].callers[p], events[pinged].act);
    if worlds[pinged].callers[p].pc.IndexFree? {
      var sent, probed, indexed := FreedBefore(worlds, events, pinged, p);
      assert ShutDown(worlds, events, k, p, path, state, sent, probed, indexed, pinged);
    } else {
      var _, _, probed := SawIt(worlds, events, pinged, p);
      assert FoundStale(worlds, events, k, p, path, state, probed, pinged);
    }
  }

  lemma MatchedIsStored(w: World, p: Process)
    requires Inv(w) && Enabled(w, CallerStep(p, RemoveFile))
    ensures p in w.callers && w.callers[p].pc.Matched? && StoredAt(w, StateOf(w.callers[p].role)) == Some(w.callers[p].pc.state)
  {
    hide LockInv, PidInv, FileInv, ChildInv;
    assert PcInv(w, p);
  }

  // ---------------------------------------------------------------- start

  /** A start spawns only on this: the instance lock was free, the index lock after it, and
      the service recorded by the state file, if any, is over and holds nothing. */
  lemma {:induction false} SpawnIsCleared(worlds: seq<World>, events: seq<Event>, k: nat, p: Process)
      returns (reading: nat, probed: nat, indexed: nat)
    requires IsRun(worlds, events) && k < |events| && events[k].CallerStep? && events[k].p == p && events[k].act.Spawn?
    ensures p in worlds[k].callers && worlds[k].callers[p].role.Starting?
    ensures reading < probed < indexed < k && events[reading] == CallerStep(p, ReadFile)
    ensures events[probed] == CallerStep(p, Probe) && events[indexed] == CallerStep(p, TakeIndex)
    ensures var config := worlds[k].callers[p].role.config;
      && InstanceLock(config.state) !in worlds[probed].locks && IndexLock(config.index) !in worlds[indexed].locks
      && (config.state in worlds[k].files ==>
            Ended(worlds[k], worlds[k].files[config.state])
            && HoldsNothing(worlds[k], Kid(worlds[k].files[config.state].instance)))
  {
    hide Enabled, Apply, NextPc, CanAct, Init, StateOf, Inv;
    RunStep(worlds, events, k);
    RunKeepsInv(worlds, events, k);
    CheckedIsClear(worlds[k], p, events[k].act);
    indexed := Since(worlds, events, k, p);
    BeforeSpawn(worlds[indexed], worlds[indexed].callers[p], events[indexed].act);
    indexed := Since(worlds, events, indexed, p);
    BeforeSpawn(worlds[indexed], worlds[indexed].callers[p], events[indexed].act);
    probed := Since(worlds, events, indexed, p);
    BeforeSpawn(worlds[probed], worlds[probed].callers[p], events[probed].act);
    var startup;
    reading, startup, probed := SawIt(worlds, events, probed, p);
    var path := worlds[k].callers[p].role.config.state;
    if path in worlds[k].files { ReapedHoldsNothing(worlds[k], worlds[k].files[path].instance); }
  }

  lemma CheckedIsClear(w: World, p: Process, act: Act)
    requires Inv(w) && Enabled(w, CallerStep(p, act)) && act.Spawn?
    ensures p in w.callers && w.callers[p].pc.Checked? && w.callers[p].role.Starting?
    ensures StoredIsEnded(w, w.callers[p].role.config.state) && StateOf(w.callers[p].role) == w.callers[p].role.config.state
  {
    hide LockInv, PidInv, FileInv, ChildInv;
    assert PcInv(w, p);
  }

  // ---------------------------------------------------------------- what the answers say

  /** The step that gives a caller its answer. */
  ghost predicate Answered(worlds: seq<World>, events: seq<Event>, k: nat, p: Process, outcome: Outcome)
  {
    && k < |events| < |worlds| && events[k].CallerStep? && events[k].p == p && !events[k].act.Abort?
    && p in worlds[k].callers && p in worlds[k + 1].callers && worlds[k + 1].callers[p].pc == Done(outcome)
  }

  /** What `status` answers, from what its four looks found: the state file when it was read,
      then the startup lock, then the instance lock, and last who answers the endpoint. */
  lemma StatusMeans(worlds: seq<World>, events: seq<Event>, k: nat, p: Process, path: StatePath, outcome: Outcome)
      returns (reading: nat, startup: nat, probing: nat)
    requires IsRun(worlds, events) && Answered(worlds, events, k, p, outcome) && worlds[k].callers[p].role == Inspecting(path)
    ensures reading < startup < probing < k && events[reading] == CallerStep(p, ReadFile)
    ensures events[startup] == CallerStep(p, Probe) && events[probing] == CallerStep(p, Probe)
    ensures var starting, active := StartupLock(path) in worlds[startup].locks, InstanceLock(path) in worlds[probing].locks;
      if path !in worlds[reading].files then
        outcome == (if starting then ReportsStarting else if active then Unresponsive else Stopped)
      else
        var state := worlds[reading].files[path];
        || (outcome == Running(state) && active && AnswersAs(worlds[k], state))
        || (outcome == Stale(state) && !active && !starting && Listener(state.endpoint) !in worlds[k].locks)
        || outcome == Unresponsive
  {
    hide IsRun, Enabled, Apply, Inv, AnswersAs, NextPc, CanAct, Saw;
    RunStep(worlds, events, k);
    RunKeepsInv(worlds, events, k);
    StepIsAct(worlds[k], p, events[k].act);
    StatusDecides(worlds[k], p, events[k].act, outcome);
    reading, startup, probing := SawIt(worlds, events, k, p);
    SawStatus(worlds, events, k, p, path, reading, startup, probing);
  }

  lemma SawStatus(
      worlds: seq<World>, events: seq<Event>, k: nat, p: Process, path: StatePath, reading: nat, startup: nat, probing: nat)
    requires Saw(worlds, events, k, p, path, reading, startup, probing) && worlds[k].callers[p].role.Inspecting?
    ensures reading < startup < probing < k <= |events| < |worlds|
    ensures events[reading] == CallerStep(p, ReadFile) && events[startup] == CallerStep(p, Probe) && events[probing] == CallerStep(p, Probe)
    ensures worlds[k].callers[p].pc
         == InstanceKnown(StoredAt(worlds[reading], path), StartupLock(path) in worlds[startup].locks, InstanceLock(path) in worlds[probing].locks)
  {
  }

  lemma StatusDecides(w: World, p: Process, act: Act, outcome: Outcome)
    requires Inv(w) && p in w.callers && w.callers[p].role.Inspecting? && CanAct(w, w.callers[p], act) && !act.Abort?
    requires NextPc(w, w.callers[p], act) == Done(outcome)
    ensures w.callers[p].pc.InstanceKnown?
    ensures var pc := w.callers[p].pc;
      match pc.found
      case None => outcome == (if pc.starting then ReportsStarting else if pc.active then Unresponsive else Stopped)
      case Some(state) =>
        || (outcome == Running(state) && pc.active && AnswersAs(w, state))
        || (outcome == Stale(state) && !pc.active && !pc.starting && Listener(state.endpoint) !in w.locks)
        || outcome == Unresponsive
  {
    hide LockInv, PidInv, FileInv, ChildInv;
    assert PcInv(w, p);
  }

  /** What `start` answers when it spawns nothing. */
  lemma StartMeans(worlds: seq<World>, events: seq<Event>, k: nat, p: Process, config: Config, outcome: Outcome)
    requires IsRun(worlds, events) && Answered(worlds, events, k, p, outcome) && worlds[k].callers[p].role == Starting(config)
    requires !IsPostSpawn(worlds[k].callers[p].pc)
    ensures var w := worlds[k];
      || (outcome == ReportsStarting && StartupLock(config.state) in w.locks)
      || (outcome == Unresponsive && config.state !in w.files && WasActive(worlds, events, k, p, config.state))
      || (outcome == Unresponsive && config.state in w.files)
      || (config.state in w.files && AnswersAs(w, w.files[config.state]) && WasActive(worlds, events, k, p, config.state)
          && var state := w.files[config.state];
             if state.index == config.index && state.endpoint == config.endpoint && state.seconds == config.seconds
             then outcome == Running(state) else outcome == Mismatch)
  {
    hide IsRun, Enabled, Apply, Inv, AnswersAs, NextPc, CanAct, Saw;
    RunStep(worlds, events, k);
    RunKeepsInv(worlds, events, k);
    StepIsAct(worlds[k], p, events[k].act);
    StartDecides(worlds[k], p, config, events[k].act, outcome);
    ActiveWhenKnown(worlds, events, k, p);
  }

  /** This caller's probe found the instance lock taken. */
  ghost predicate WasActive(worlds: seq<World>, events: seq<Event>, k: nat, p: Process, path: StatePath)
  {
    exists probed :: 0 <= probed < k <= |events| < |worlds| && events[probed] == CallerStep(p, Probe) && InstanceLock(path) in worlds[probed].locks
  }

  /** It found the instance lock free. */
  ghost predicate WasInactive(worlds: seq<World>, events: seq<Event>, k: nat, p: Process, path: StatePath)
  {
    exists probed :: 0 <= probed < k <= |events| < |worlds| && events[probed] == CallerStep(p, Probe) && InstanceLock(path) !in worlds[probed].locks
  }

  lemma ActiveWhenKnown(worlds: seq<World>, events: seq<Event>, k: nat, p: Process)
    requires IsRun(worlds, events) && k < |worlds| && p in worlds[k].callers
    ensures var pc, path := worlds[k].callers[p].pc, StateOf(worlds[k].callers[p].role);
      pc.InstanceKnown? ==>
        if pc.active then WasActive(worlds, events, k, p, path) else WasInactive(worlds, events, k, p, path)
  {
    hide Enabled, Apply, Init;
    if worlds[k].callers[p].pc.InstanceKnown? {
      var _, _, probing := SawIt(worlds, events, k, p);
    }
  }

  lemma StartDecides(w: World, p: Process, config: Config, act: Act, outcome: Outcome)
    requires Inv(w) && p in w.callers && w.callers[p].role == Starting(config) && CanAct(w, w.callers[p], act) && !act.Abort?
    requires NextPc(w, w.callers[p], act) == Done(outcome) && !IsPostSpawn(w.callers[p].pc)
    ensures var pc := w.callers[p].pc;
      || (outcome == ReportsStarting && StartupLock(config.state) in w.locks)
      || (outcome == Unresponsive && config.state !in w.files && pc.InstanceKnown? && pc.active)
      || (outcome == Unresponsive && config.state in w.files)
      || (config.state in w.files && AnswersAs(w, w.files[config.state]) && pc.InstanceKnown? && pc.active
          && var state := w.files[config.state];
             if state.index == config.index && state.endpoint == config.endpoint && state.seconds == config.seconds
             then outcome == Running(state) else outcome == Mismatch)
  {
    hide LockInv, PidInv, FileInv, ChildInv;
    assert PcInv(w, p);
  }

  /** What `stop` answers; that the state file changed under it never happens. */
  lemma StopMeans(worlds: seq<World>, events: seq<Event>, k: nat, p: Process, path: StatePath, outcome: Outcome)
    requires IsRun(worlds, events) && Answered(worlds, events, k, p, outcome) && worlds[k].callers[p].role == StoppingService(path)
    ensures var w := worlds[k];
      || (outcome == ReportsStarting && StartupLock(path) in w.locks)
      || (outcome == Unresponsive && path !in w.files && WasActive(worlds, events, k, p, path))
      || (outcome == Unresponsive && path in w.files)
      || (outcome == Stopped && path !in worlds[k + 1].files
          && if path in w.files then events[k] == CallerStep(p, RemoveFile) else WasInactive(worlds, events, k, p, path))
  {
    hide IsRun, Enabled, Apply, Inv, AnswersAs, NextPc, CanAct, Saw, CallerActs, FilesAfter;
    RunStep(worlds, events, k);
    RunKeepsInv(worlds, events, k);
    StepIsAct(worlds[k], p, events[k].act);
    StopDecides(worlds[k], p, path, events[k].act, outcome);
    FilesFollow(worlds[k], p, events[k].act);
    ActiveWhenKnown(worlds, events, k, p);
  }

  lemma FilesFollow(w: World, p: Process, act: Act)
    requires p in w.callers && CanAct(w, w.callers[p], act)
    ensures CallerActs(w, p, act).files == FilesAfter(w, w.callers[p], act)
  {
    hide CanAct, NextPc, EffectOf, FilesAfter, SetCaller, Acted;
  }

  lemma StopDecides(w: World, p: Process, path: StatePath, act: Act, outcome: Outcome)
    requires Inv(w) && p in w.callers && w.callers[p].role == StoppingService(path) && CanAct(w, w.callers[p], act) && !act.Abort?
    requires NextPc(w, w.callers[p], act) == Done(outcome)
    ensures var pc := w.callers[p].pc;
      || (outcome == ReportsStarting && StartupLock(path) in w.locks)
      || (outcome == Unresponsive && path !in w.files && pc.InstanceKnown? && pc.active)
      || (outcome == Unresponsive && path in w.files)
      || (outcome == Stopped && path !in FilesAfter(w, w.callers[p], act)
          && if path in w.files then act == RemoveFile else pc.InstanceKnown? && !pc.active)
  {
    hide LockInv, PidInv, FileInv, ChildInv;
    assert PcInv(w, p);
  }
}
