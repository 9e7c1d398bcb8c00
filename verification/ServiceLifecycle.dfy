/** Managed service ownership (crates/daemon/src/lib.rs, 162-382 and 558-831;
    crates/daemon/src/service_ownership.rs): starters, stoppers, status readers, children and
    index writers interleave step by step and may be killed at any of them.

    Locks are held exactly as long as the guard that owns them is alive, so what a process
    holds follows from where it is; a probe really takes the lock for one step. */
module ServiceLifecycle {
  import opened Text

  type StatePath = nat
  type IndexPath = nat
  type Endpoint = nat
  type Pid = nat
  type Process = nat

  datatype Config = Config(state: StatePath, index: IndexPath, endpoint: Endpoint, seconds: Option<nat>)

  /** What a child answers to a ping and what the state file holds. An instance id is new for
      every process that serves, so it is that process. */
  datatype Identity = Identity(pid: Pid, index: IndexPath, endpoint: Endpoint, seconds: Option<nat>, instance: Process)

  /** Where `service_run` is. `Exited`: dead but not yet waited for, its pid still taken. */
  datatype Phase =
    | Spawned | HasIndex | HasBoth
    | LosingIndex          // early return: the instance guard is dropped first
    | Binding              // inside serve_managed_ipc
    | Serving | Stopping | EndpointClosed | IndexReleased
    | Finished | Exited | Gone

  datatype Child = Child(config: Config, pid: Pid, parent: Option<Process>, phase: Phase, entered: bool)

  datatype Role = Starting(config: Config) | StoppingService(path: StatePath) | Inspecting(path: StatePath) | Writing(index: IndexPath)

  datatype Outcome =
    | ReportsStarting | Running(state: Identity) | Stale(state: Identity) | Stopped | Unresponsive
    | Mismatch | Started(state: Identity) | NotHealthy | StateChanged | Failed | WroteIndex

  datatype Pc =
    | Begin
    | Coordinating                                                   // startup lock taken
    | Found(found: Option<Identity>)
    | ProbingStartup(found: Option<Identity>)
    | Look(found: Option<Identity>, starting: bool)
    | ProbingInstance(found: Option<Identity>, starting: bool)
    | InstanceKnown(found: Option<Identity>, starting: bool, active: bool)
    // service_start
    | Clear | Checking | Checked
    | Waiting(child: Process) | Alive(child: Process)
    | Pinged(child: Process, identity: Identity) | ProbingReady(child: Process)
    | Confirmed(child: Process, identity: Identity) | Ready(child: Process, identity: Identity)
    | Reaping(child: Process) | Killing(child: Process)
    // service_stop
    | Targeting(state: Identity) | Awaiting(state: Identity) | ProbingStop(state: Identity)
    | InstanceFree(state: Identity) | HoldingIndex(state: Identity) | IndexFree(state: Identity)
    | Removing(state: Identity) | Matched(state: Identity)
    // an index writer
    | Holding
    | Done(outcome: Outcome) | Killed

  datatype Caller = Caller(role: Role, pc: Pc)

  datatype Holder = Kid(c: Process) | User(p: Process)

  datatype Key = StartupLock(state: StatePath) | InstanceLock(state: StatePath) | IndexLock(index: IndexPath) | Listener(endpoint: Endpoint)

  datatype World = World(
    locks: map<Key, Holder>, files: map<StatePath, Identity>,
    children: map<Process, Child>, callers: map<Process, Caller>, next: Process)

  datatype Act =
    | Coordinate | FindBusy | ReadFile | Probe | EndProbe | NoState
    | PingMatched | PingUnavailable | PingOther
    | TakeIndex | Spawn(pid: Pid) | Poll | PingChild | PingFails | Publish | GiveUp | KillChild | WaitChild
    | SendShutdown | CheckFile | RemoveFile
    | Abort | Die

  datatype Event =
    | Call(p: Process, role: Role)
    | CallerStep(p: Process, act: Act)
    | ChildStep(c: Process, to: Phase)
    | RunDirectly(config: Config, pid: Pid)

  predicate Init(w: World)
  {
    w == World(map[], map[], map[], map[], 0)
  }

  // ---------------------------------------------------------------- what is held where

  predicate HoldsIndex(phase: Phase)
  {
    phase.HasIndex? || phase.HasBoth? || phase.LosingIndex? || phase.Binding? || phase.Serving? || phase.Stopping?
    || phase.EndpointClosed?
  }

  predicate HoldsInstance(phase: Phase)
  {
    phase.HasBoth? || phase.Binding? || phase.Serving? || phase.Stopping? || phase.EndpointClosed? || phase.IndexReleased?
  }

  predicate Listens(phase: Phase)
  {
    phase.Serving? || phase.Stopping?
  }

  predicate IsOver(phase: Phase)
  {
    phase.Finished? || phase.Exited? || phase.Gone?
  }

  function HeldByChild(child: Child): set<Key>
  {
    (if HoldsIndex(child.phase) then {IndexLock(child.config.index)} else {})
    + (if HoldsInstance(child.phase) then {InstanceLock(child.config.state)} else {})
    + (if Listens(child.phase) then {Listener(child.config.endpoint)} else {})
  }

  function StateOf(role: Role): StatePath
  {
    match role
    case Starting(config) => config.state
    case StoppingService(path) => path
    case Inspecting(path) => path
    case Writing(index) => 0
  }

  predicate IsLive(pc: Pc)
  {
    !pc.Done? && !pc.Killed?
  }

  predicate HoldsStartup(caller: Caller)
  {
    if caller.role.Starting? || caller.role.StoppingService? then IsLive(caller.pc) && !caller.pc.Begin?
    else caller.pc.ProbingStartup?
  }

  function IndexHeldBy(caller: Caller): Option<IndexPath>
  {
    if caller.pc.Checking? && caller.role.Starting? then Some(caller.role.config.index)
    else if caller.pc.HoldingIndex? then Some(caller.pc.state.index)
    else if caller.pc.Holding? && caller.role.Writing? then Some(caller.role.index)
    else None
  }

  function HeldByCaller(caller: Caller): set<Key>
  {
    (if HoldsStartup(caller) then {StartupLock(StateOf(caller.role))} else {})
    + (if caller.pc.ProbingInstance? || caller.pc.ProbingReady? || caller.pc.ProbingStop?
       then {InstanceLock(StateOf(caller.role))} else {})
    + (if IndexHeldBy(caller).Some? then {IndexLock(IndexHeldBy(caller).value)} else {})
  }

  function Held(w: World, h: Holder): set<Key>
  {
    match h
    case Kid(c) => if c in w.children then HeldByChild(w.children[c]) else {}
    case User(p) => if p in w.callers then HeldByCaller(w.callers[p]) else {}
  }

  predicate Holds(locks: map<Key, Holder>, key: Key, h: Holder)
  {
    key in locks && locks[key] == h
  }

  function Relock(locks: map<Key, Holder>, before: set<Key>, after: set<Key>, h: Holder): map<Key, Holder>
  {
    map k | k in (locks.Keys - before) + after :: if k in after then h else locks[k]
  }

  predicate CanTake(w: World, before: set<Key>, after: set<Key>)
  {
    forall k :: k in after && k !in before ==> k !in w.locks
  }

  // ---------------------------------------------------------------- children

  function MovedTo(child: Child, phase: Phase): Child
  {
    child.(phase := phase, entered := child.entered || phase.Binding?)
  }

  function SetChild(w: World, c: Process, phase: Phase): World
    requires c in w.children
  {
    var moved := MovedTo(w.children[c], phase);
    w.(children := w.children[c := moved], locks := Relock(w.locks, HeldByChild(w.children[c]), HeldByChild(moved), Kid(c)))
  }

  /** The steps of `service_run`; `Exited` is also where a kill leads from anywhere. */
  predicate Moves(from: Phase, to: Phase)
  {
    match from
    case Spawned => to.HasIndex? || to.Finished? || to.Exited?
    case HasIndex => to.HasBoth? || to.Finished? || to.Exited?
    case HasBoth => to.Binding? || to.LosingIndex? || to.Exited?
    case LosingIndex => to.Finished? || to.Exited?
    case Binding => to.Serving? || to.EndpointClosed? || to.Exited?
    case Serving => to.Stopping? || to.Exited?
    case Stopping => to.EndpointClosed? || to.Exited?
    case EndpointClosed => to.IndexReleased? || to.Exited?
    case IndexReleased => to.Finished? || to.Exited?
    case Finished => to.Exited?
    case Exited => to.Gone?
    case Gone => false
  }

  predicate ParentGone(w: World, child: Child)
  {
    match child.parent
    case Some(p) => p in w.callers ==> !IsLive(w.callers[p].pc)
    case None => true
  }

  function IdentityOf(c: Process, child: Child): Identity
  {
    Identity(child.pid, child.config.index, child.config.endpoint, child.config.seconds, c)
  }

  predicate PidFree(w: World, pid: Pid)
  {
    forall c :: c in w.children && w.children[c].pid == pid ==> w.children[c].phase.Gone?
  }

  /** Who would answer a ping to this endpoint. */
  predicate Answers(w: World, endpoint: Endpoint, c: Process)
  {
    c in w.children && w.children[c].phase.Serving? && Holds(w.locks, Listener(endpoint), Kid(c))
  }

  predicate AnswersAs(w: World, state: Identity)
  {
    Answers(w, state.endpoint, state.instance) && IdentityOf(state.instance, w.children[state.instance]) == state
  }

  predicate IsAnswered(w: World, endpoint: Endpoint)
  {
    Listener(endpoint) in w.locks && w.locks[Listener(endpoint)].Kid? && Answers(w, endpoint, w.locks[Listener(endpoint)].c)
  }

  predicate HasExited(w: World, c: Process)
  {
    c in w.children ==> w.children[c].phase.Exited? || w.children[c].phase.Gone?
  }

  // ---------------------------------------------------------------- callers

  /** The starter owns a child it has spawned and not reaped yet. */
  predicate IsPostSpawn(pc: Pc)
  {
    pc.Waiting? || pc.Alive? || pc.Pinged? || pc.ProbingReady? || pc.Confirmed? || pc.Ready? || pc.Reaping? || pc.Killing?
  }

  predicate CanAct(w: World, caller: Caller, act: Act)
  {
    var pc, path := caller.pc, StateOf(caller.role);
    match act
    case Coordinate => pc.Begin? && (caller.role.Starting? || caller.role.StoppingService?) && StartupLock(path) !in w.locks
    case FindBusy => pc.Begin? && (caller.role.Starting? || caller.role.StoppingService?) && StartupLock(path) in w.locks
    case ReadFile => pc.Coordinating? || (pc.Begin? && caller.role.Inspecting?)
    case Probe => pc.Found? || pc.Look? || pc.Pinged? || pc.Awaiting? || pc.InstanceFree?
    case EndProbe =>
      pc.ProbingStartup? || pc.ProbingInstance? || pc.ProbingReady? || pc.ProbingStop? || pc.HoldingIndex?
      || pc.Checking? || pc.Holding?
    case NoState => pc.InstanceKnown? && pc.found.None?
    case PingMatched => pc.InstanceKnown? && pc.found.Some? && AnswersAs(w, pc.found.value)
    case PingUnavailable =>
      (pc.InstanceKnown? && pc.found.Some? && Listener(pc.found.value.endpoint) !in w.locks)
      || (pc.IndexFree? && Listener(pc.state.endpoint) !in w.locks)
    case PingOther => (pc.InstanceKnown? && pc.found.Some?) || pc.IndexFree? || pc.Targeting? || pc.Awaiting?
    case TakeIndex =>
      (pc.Clear? && caller.role.Starting? && IndexLock(caller.role.config.index) !in w.locks)
      || (pc.Begin? && caller.role.Writing? && IndexLock(caller.role.index) !in w.locks)
    case Spawn(pid) => pc.Checked? && caller.role.Starting? && PidFree(w, pid)
    case Poll => (pc.Waiting? || pc.Confirmed?) && pc.child in w.children
    case PingChild =>
      pc.Alive? && caller.role.Starting? && pc.child in w.children && IsAnswered(w, caller.role.config.endpoint)
    case PingFails => pc.Alive?
    case Publish => pc.Ready?
    case GiveUp => pc.Waiting? || pc.Alive? || pc.Pinged? || pc.Confirmed? || pc.Ready?
    case KillChild => pc.Reaping? && pc.child in w.children
    case WaitChild => pc.Killing? && pc.child in w.children
    case SendShutdown => pc.Targeting? && AnswersAs(w, pc.state)
    case CheckFile => pc.Removing?
    case RemoveFile => pc.Matched?
    case Abort => IsLive(pc) && !IsPostSpawn(pc)
    case Die => IsLive(pc)
  }

  /** The answer names the process that was spawned, with the configuration asked for. */
  predicate IsExpected(identity: Identity, child: Child, config: Config)
  {
    identity.pid == child.pid && identity.index == config.index && identity.endpoint == config.endpoint
    && identity.seconds == config.seconds
  }

  predicate SameConfig(state: Identity, config: Config)
  {
    state.index == config.index && state.endpoint == config.endpoint && state.seconds == config.seconds
  }

  function Probed(w: World, caller: Caller): Pc
    requires CanAct(w, caller, Probe)
  {
    var active := InstanceLock(StateOf(caller.role)) in w.locks;
    match caller.pc
    case Found(found) =>
      if StartupLock(StateOf(caller.role)) in w.locks then Look(found, true) else ProbingStartup(found)
    case Look(found, starting) => if active then InstanceKnown(found, starting, true) else ProbingInstance(found, starting)
    case Pinged(child, identity) => if active then Confirmed(child, identity) else ProbingReady(child)
    case Awaiting(state) => if active then Awaiting(state) else ProbingStop(state)
    case InstanceFree(state) => if IndexLock(state.index) in w.locks then Awaiting(state) else HoldingIndex(state)
  }

  function ProbeEnded(pc: Pc): Pc
  {
    match pc
    case ProbingStartup(found) => Look(found, false)
    case ProbingInstance(found, starting) => InstanceKnown(found, starting, false)
    case ProbingReady(child) => Waiting(child)
    case ProbingStop(state) => InstanceFree(state)
    case HoldingIndex(state) => IndexFree(state)
    case Checking => Checked
    case Holding => Done(WroteIndex)
    case _ => pc
  }

  /** The decision after both probes and the ping (or without a state to ping). */
  function Decision(role: Role, pc: Pc, matched: bool, unavailable: bool): Pc
    requires pc.InstanceKnown?
  {
    match pc.found
    case None =>
      (match role
       case Starting(_) => if pc.active then Done(Unresponsive) else Clear
       case StoppingService(_) => Done(if pc.active then Unresponsive else Stopped)
       case _ => Done(if pc.starting then ReportsStarting else if pc.active then Unresponsive else Stopped))
    case Some(state) =>
      if matched && pc.active then
        match role
        case Starting(config) => Done(if SameConfig(state, config) then Running(state) else Mismatch)
        case StoppingService(_) => Targeting(state)
        case _ => Done(Running(state))
      else if unavailable && !pc.active then
        match role
        case Starting(_) => Clear
        case StoppingService(_) => Removing(state)
        case _ => Done(if pc.starting then Unresponsive else Stale(state))
      else Done(Unresponsive)
  }

  function NextPc(w: World, caller: Caller, act: Act): Pc
    requires CanAct(w, caller, act)
  {
    var pc, path := caller.pc, StateOf(caller.role);
    match act
    case Coordinate => Coordinating
    case FindBusy => Done(ReportsStarting)
    case ReadFile =>
      var found := if path in w.files then Some(w.files[path]) else None;
      if caller.role.Inspecting? then Found(found) else Look(found, true)
    case Probe => Probed(w, caller)
    case EndProbe => ProbeEnded(pc)
    case NoState => Decision(caller.role, pc, false, false)
    case PingMatched => Decision(caller.role, pc, true, false)
    case PingUnavailable => if pc.IndexFree? then Removing(pc.state) else Decision(caller.role, pc, false, true)
    case PingOther => Done(Unresponsive)
    case TakeIndex => if caller.role.Writing? then Holding else Checking
    case Spawn(pid) => Waiting(w.next)
    case Poll =>
      if HasExited(w, pc.child) then Done(NotHealthy)
      else if pc.Waiting? then Alive(pc.child) else Ready(pc.child, pc.identity)
    case PingChild =>
      var answering := w.locks[Listener(caller.role.config.endpoint)].c;
      var identity := IdentityOf(answering, w.children[answering]);
      if IsExpected(identity, w.children[pc.child], caller.role.config) then Pinged(pc.child, identity) else Waiting(pc.child)
    case PingFails => Waiting(pc.child)
    case Publish => Done(Started(pc.identity))
    case GiveUp => Reaping(pc.child)
    case KillChild => Killing(pc.child)
    case WaitChild => Done(NotHealthy)
    case SendShutdown => Awaiting(pc.state)
    case CheckFile => if path in w.files && w.files[path] == pc.state then Matched(pc.state) else Done(StateChanged)
    case RemoveFile => Done(Stopped)
    case Abort => Done(Failed)
    case Die => Killed
  }

  datatype Effect = NoEffect | Sets(c: Process, phase: Phase)

  /** What an act does to a child: the shutdown request, the kill, the wait. */
  function EffectOf(w: World, caller: Caller, act: Act): Effect
    requires CanAct(w, caller, act)
  {
    match act
    case Poll => if HasExited(w, caller.pc.child) then Sets(caller.pc.child, Gone) else NoEffect
    case KillChild => Sets(caller.pc.child, Exited)
    case WaitChild => Sets(caller.pc.child, Gone)
    case SendShutdown => Sets(caller.pc.state.instance, Stopping)
    case _ => NoEffect
  }

  function Acted(w: World, effect: Effect): (acted: World)
    requires effect.Sets? ==> effect.c in w.children
    ensures acted.callers == w.callers && acted.files == w.files && acted.next == w.next
  {
    match effect
    case NoEffect => w
    case Sets(c, phase) => SetChild(w, c, phase)
  }

  function SetCaller(w: World, p: Process, pc: Pc): World
    requires p in w.callers
  {
    var moved := w.callers[p].(pc := pc);
    w.(callers := w.callers[p := moved], locks := Relock(w.locks, HeldByCaller(w.callers[p]), HeldByCaller(moved), User(p)))
  }

  function AddChild(w: World, config: Config, pid: Pid, parent: Option<Process>): World
  {
    w.(children := w.children[w.next := Child(config, pid, parent, Spawned, false)], next := w.next + 1)
  }

  function FilesAfter(w: World, caller: Caller, act: Act): map<StatePath, Identity>
    requires CanAct(w, caller, act)
  {
    match act
    case Publish => w.files[StateOf(caller.role) := caller.pc.identity]
    case RemoveFile => w.files - {StateOf(caller.role)}
    case _ => w.files
  }

  predicate Enabled(w: World, e: Event)
  {
    match e
    case Call(p, role) => p !in w.callers
    case CallerStep(p, act) => p in w.callers && CanAct(w, w.callers[p], act)
    case ChildStep(c, to) =>
      c in w.children && Moves(w.children[c].phase, to)
      && CanTake(w, HeldByChild(w.children[c]), HeldByChild(MovedTo(w.children[c], to)))
      && (to.Gone? ==> ParentGone(w, w.children[c]))
    case RunDirectly(config, pid) => PidFree(w, pid)
  }

  function CallerActs(w: World, p: Process, act: Act): World
    requires p in w.callers && CanAct(w, w.callers[p], act)
  {
    var caller := w.callers[p];
    var stepped := SetCaller(Acted(w, EffectOf(w, caller, act)), p, NextPc(w, caller, act)).(files := FilesAfter(w, caller, act));
    if act.Spawn? then AddChild(stepped, caller.role.config, act.pid, Some(p)) else stepped
  }

  function Apply(w: World, e: Event): World
    requires Enabled(w, e)
  {
    match e
    case Call(p, role) => w.(callers := w.callers[p := Caller(role, Begin)])
    case CallerStep(p, act) => CallerActs(w, p, act)
    case ChildStep(c, to) => SetChild(w, c, to)
    case RunDirectly(config, pid) => AddChild(w, config, pid, None)
  }
}
