/** crates/daemon/src/unix_endpoint.rs with any number of binders on one endpoint, killed at
    any step, and foreign replacement of the socket or the record in between.

    A socket identity is never used twice and a socket that left the path does not return.
    Nothing foreign happens while a binder is between its recheck and its bind. */
module EndpointProtocol {
  import opened Text
  import opened UnixEndpoint

  type Process = nat
  type Inode = nat

  datatype Step = Identified | Checked | Truncated | Cut | Recorded | Serves

  datatype Stage =
    | Opened                                              // lock file open, not yet locked
    | Locked
    | Read(record: Record)
    | Prepared(existing: Option<SocketId>)
    | Probed(refused: SocketId)
    | Cleared                                             // rechecked, path free
    | Bound(listener: SocketId)                           // bound, identity not yet read
    | Guarded(step: Step, listener: SocketId, socket: SocketId)
    | Closed(socket: SocketId)                            // listener dropped, guard not yet
    | Draining(listener: SocketId)                        // guard dropped, listener not yet

  datatype Binder = Binder(lock: Inode, owner: OwnerHash, stage: Stage)

  datatype World = World(
    occupant: Occupant, listening: set<SocketId>, nextSocket: SocketId,
    lockName: Option<Inode>, records: map<Inode, Record>, holders: map<Inode, Process>, nextInode: Inode,
    binders: map<Process, Binder>)

  datatype Event =
    | OpenLock(p: Process, owner: OwnerHash)
    | TryLock(p: Process)
    | ReadRecord(p: Process)
    | Prepare(p: Process)
    | Probe(p: Process)        // connection refused
    | Recheck(p: Process)      // and unlink
    | BindSocket(p: Process)
    | Identify(p: Process)
    | Check(p: Process)
    | Truncate(p: Process)
    | WritePart(p: Process)
    | WriteRecord(p: Process)
    | Confirm(p: Process)
    | CloseListener(p: Process)
    | DropGuard(p: Process, unlinks: bool)
    | Fail(p: Process, unlinks: bool)  // a refusal, or an error of any call
    | Drained(p: Process)
    | Kill(p: Process)
    | ForeignSocket(live: bool)
    | ForeignFile
    | ForeignRemove
    | ForeignRecord(record: Record)
    | ForeignClose(id: SocketId)

  predicate IsForeign(e: Event)
  {
    e.ForeignSocket? || e.ForeignFile? || e.ForeignRemove? || e.ForeignRecord? || e.ForeignClose?
  }

  /** Foreign events at the endpoint path itself. */
  predicate IsPathEvent(e: Event)
  {
    e.ForeignSocket? || e.ForeignFile? || e.ForeignRemove?
  }

  predicate Init(w: World)
  {
    w == World(w.occupant, w.listening, w.nextSocket, None, map[], map[], 0, map[])
    && (w.occupant.Socket? ==> w.occupant.id < w.nextSocket)
    && forall id :: id in w.listening ==> id < w.nextSocket
  }

  predicate HoldsLock(stage: Stage)
  {
    !stage.Opened? && !stage.Draining?
  }

  function ListenerOf(stage: Stage): set<SocketId>
  {
    if stage.Bound? || stage.Guarded? || stage.Draining? then {stage.listener} else {}
  }

  predicate At(w: World, p: Process, stage: Stage)
  {
    p in w.binders && w.binders[p].stage == stage
  }

  predicate AtStep(w: World, p: Process, step: Step)
  {
    p in w.binders && w.binders[p].stage.Guarded? && w.binders[p].stage.step == step
  }

  /** What the binder's lock descriptor reads. */
  function RecordOf(w: World, p: Process): Record
    requires p in w.binders
  {
    var inode := w.binders[p].lock;
    if inode in w.records then w.records[inode] else Empty
  }

  /** `verify_lock`: the name still denotes the inode that is open. */
  predicate LockVerified(w: World, p: Process)
    requires p in w.binders
  {
    w.lockName == Some(w.binders[p].lock)
  }

  predicate OwnSocketInPlace(w: World, p: Process)
    requires p in w.binders && w.binders[p].stage.Guarded?
  {
    LockVerified(w, p) && w.occupant == Socket(w.binders[p].stage.socket)
  }

  predicate NoOneCleared(w: World)
  {
    forall p :: p in w.binders ==> !w.binders[p].stage.Cleared?
  }

  predicate Enabled(w: World, e: Event)
  {
    match e
    case OpenLock(p, owner) => p !in w.binders
    case TryLock(p) => At(w, p, Opened) && LockVerified(w, p) && w.binders[p].lock !in w.holders
    case ReadRecord(p) => At(w, p, Locked)
    case Prepare(p) =>
      p in w.binders && w.binders[p].stage.Read?
      && var record := w.binders[p].stage.record;
         record != Corrupt
         && !w.occupant.Alien?
         && (w.occupant.Socket? ==> record == Complete(w.binders[p].owner, w.occupant.id))
    case Probe(p) =>
      p in w.binders && w.binders[p].stage.Prepared? && w.binders[p].stage.existing.Some?
      && w.occupant != Absent && (w.occupant.Socket? ==> w.occupant.id !in w.listening)
    case Recheck(p) =>
      p in w.binders && LockVerified(w, p)
      && (match w.binders[p].stage
          case Prepared(existing) => existing == None && w.occupant == Absent
          case Probed(existing) =>
            RecordOf(w, p) == Complete(w.binders[p].owner, existing) && w.occupant == Socket(existing)
          case _ => false)
    case BindSocket(p) => At(w, p, Cleared) && w.occupant == Absent
    case Identify(p) => p in w.binders && w.binders[p].stage.Bound? && w.occupant.Socket?
    case Check(p) => AtStep(w, p, Identified) && OwnSocketInPlace(w, p)
    case Truncate(p) => AtStep(w, p, Checked)
    case WritePart(p) => AtStep(w, p, Truncated)
    case WriteRecord(p) => AtStep(w, p, Truncated) || AtStep(w, p, Cut)
    case Confirm(p) => AtStep(w, p, Recorded) && OwnSocketInPlace(w, p)
    case CloseListener(p) => AtStep(w, p, Serves)
    case DropGuard(p, _) => p in w.binders && w.binders[p].stage.Closed?
    case Fail(p, _) => p in w.binders && !w.binders[p].stage.Closed? && !w.binders[p].stage.Draining?
    case Drained(p) => p in w.binders && w.binders[p].stage.Draining?
    case Kill(p) => p in w.binders
    case ForeignSocket(live) => NoOneCleared(w)
    case ForeignFile => NoOneCleared(w)
    case ForeignRemove => NoOneCleared(w)
    case ForeignRecord(record) => NoOneCleared(w) && w.lockName.Some?
    case ForeignClose(id) => forall p :: p in w.binders ==> id !in ListenerOf(w.binders[p].stage)
  }

  function Enter(w: World, p: Process, stage: Stage): World
    requires p in w.binders
  {
    w.(binders := w.binders[p := w.binders[p].(stage := stage)])
  }

  function Advance(w: World, p: Process, step: Step): World
    requires p in w.binders && w.binders[p].stage.Guarded?
  {
    Enter(w, p, w.binders[p].stage.(step := step))
  }

  function SetRecord(w: World, p: Process, record: Record): World
    requires p in w.binders
  {
    w.(records := w.records[w.binders[p].lock := record])
  }

  /** The lock and the listener of a binder go, and the binder with them. */
  function Gone(w: World, p: Process): World
    requires p in w.binders
  {
    var binder := w.binders[p];
    w.(holders := if HoldsLock(binder.stage) then w.holders - {binder.lock} else w.holders,
       listening := w.listening - ListenerOf(binder.stage),
       binders := w.binders - {p})
  }

  /** `EndpointGuard::drop`: unlink only the socket the guard identified; `unlinks` is false
      when its checks or the removal fail, which the code ignores. */
  function Unlinked(w: World, p: Process, socket: SocketId, unlinks: bool): (unlinked: World)
    requires p in w.binders
    ensures unlinked == w.(occupant := unlinked.occupant)
  {
    if unlinks && LockVerified(w, p) && w.occupant == Socket(socket) then w.(occupant := Absent) else w
  }

  function Apply(w: World, e: Event): World
    requires Enabled(w, e)
  {
    match e
    case OpenLock(p, owner) =>
      if w.lockName.Some? then w.(binders := w.binders[p := Binder(w.lockName.value, owner, Opened)])
      else w.(lockName := Some(w.nextInode), records := w.records[w.nextInode := Empty],
              nextInode := w.nextInode + 1, binders := w.binders[p := Binder(w.nextInode, owner, Opened)])
    case TryLock(p) => Enter(w, p, Locked).(holders := w.holders[w.binders[p].lock := p])
    case ReadRecord(p) => Enter(w, p, Read(RecordOf(w, p)))
    case Prepare(p) => Enter(w, p, Prepared(if w.occupant.Socket? then Some(w.occupant.id) else None))
    case Probe(p) => Enter(w, p, Probed(w.binders[p].stage.existing.value))
    case Recheck(p) => Enter(w, p, Cleared).(occupant := Absent)
    case BindSocket(p) =>
      Enter(w, p, Bound(w.nextSocket)).(
        occupant := Socket(w.nextSocket), listening := w.listening + {w.nextSocket}, nextSocket := w.nextSocket + 1)
    case Identify(p) => Enter(w, p, Guarded(Identified, w.binders[p].stage.listener, w.occupant.id))
    case Check(p) => Advance(w, p, Checked)
    case Truncate(p) => Advance(SetRecord(w, p, Empty), p, Truncated)
    case WritePart(p) => Advance(SetRecord(w, p, Corrupt), p, Cut)
    case WriteRecord(p) =>
      Advance(SetRecord(w, p, Complete(w.binders[p].owner, w.binders[p].stage.socket)), p, Recorded)
    case Confirm(p) => Advance(w, p, Serves)
    case CloseListener(p) =>
      Enter(w, p, Closed(w.binders[p].stage.socket)).(listening := w.listening - {w.binders[p].stage.listener})
    case DropGuard(p, unlinks) => Gone(Unlinked(w, p, w.binders[p].stage.socket, unlinks), p)
    case Fail(p, unlinks) =>
      if w.binders[p].stage.Guarded?
      then Enter(Unlinked(w, p, w.binders[p].stage.socket, unlinks), p, Draining(w.binders[p].stage.listener)).(
             holders := w.holders - {w.binders[p].lock})
      else Gone(w, p)
    case Drained(p) => Gone(w, p)
    case Kill(p) => Gone(w, p)
    case ForeignSocket(live) =>
      w.(occupant := Socket(w.nextSocket), nextSocket := w.nextSocket + 1,
         listening := if live then w.listening + {w.nextSocket} else w.listening)
    case ForeignFile => w.(occupant := Alien)
    case ForeignRemove => w.(occupant := Absent)
    case ForeignRecord(record) => w.(records := w.records[w.lockName.value := record])
    case ForeignClose(id) => w.(listening := w.listening - {id})
  }

  // ---------------------------------------------------------------- invariant

  ghost predicate SocketInv(w: World)
  {
    && (w.occupant.Socket? ==> w.occupant.id < w.nextSocket)
    && forall id :: id in w.listening ==> id < w.nextSocket
  }

  predicate StageInv(w: World, stage: Stage)
  {
    match stage
    case Prepared(existing) => existing.Some? ==> existing.value < w.nextSocket
    case Probed(existing) => existing < w.nextSocket
    case Cleared => w.occupant == Absent
    case Bound(listener) => listener < w.nextSocket
    case Guarded(_, listener, socket) => listener < w.nextSocket && socket < w.nextSocket
    case _ => true
  }

  predicate BinderInv(w: World, p: Process)
    requires p in w.binders
  {
    && w.lockName == Some(w.binders[p].lock)
    && (HoldsLock(w.binders[p].stage) ==> w.binders[p].lock in w.holders && w.holders[w.binders[p].lock] == p)
    && StageInv(w, w.binders[p].stage)
  }

  /** A lock is only ever held by a live binder that still needs it. */
  ghost predicate HolderInv(w: World)
  {
    forall i :: i in w.holders ==> IsHeldByBinder(w, i)
  }

  predicate LockFileInv(w: World)
  {
    w.lockName.Some? ==> w.lockName.value in w.records
  }

  ghost predicate Inv(w: World)
  {
    SocketInv(w) && HolderInv(w) && LockFileInv(w) && forall p :: p in w.binders ==> BinderInv(w, p)
  }

  lemma SocketSteps(w: World, e: Event)
    requires Inv(w) && Enabled(w, e)
    ensures SocketInv(Apply(w, e)) && w.nextSocket <= Apply(w, e).nextSocket
  {
    hide HolderInv, BinderInv, RecordOf;
  }

  predicate IsHeldByBinder(w: World, i: Inode)
    requires i in w.holders
  {
    w.holders[i] in w.binders && w.binders[w.holders[i]].lock == i && HoldsLock(w.binders[w.holders[i]].stage)
  }

  /** Steps that may give the lock back. */
  predicate IsLast(e: Event)
  {
    e.Kill? || e.DropGuard? || e.Fail? || e.Drained?
  }

  lemma LastHolderStep(w: World, e: Event, i: Inode)
    requires Enabled(w, e) && IsLast(e) && i in Apply(w, e).holders && i in w.holders && IsHeldByBinder(w, i)
    ensures IsHeldByBinder(Apply(w, e), i)
  {
    hide RecordOf, Unlinked;
  }

  lemma HolderStep(w: World, e: Event, i: Inode)
    requires Inv(w) && Enabled(w, e) && !IsForeign(e) && i in Apply(w, e).holders
    ensures IsHeldByBinder(Apply(w, e), i)
  {
    hide SocketInv, BinderInv, RecordOf, Unlinked;
    if i in w.holders { assert IsHeldByBinder(w, i); }
    if IsLast(e) { LastHolderStep(w, e, i); }
  }

  lemma HolderSteps(w: World, e: Event)
    requires Inv(w) && Enabled(w, e)
    ensures HolderInv(Apply(w, e))
  {
    hide SocketInv, BinderInv, RecordOf;
    if !IsForeign(e) {
      hide Apply, Enabled, IsHeldByBinder;
      forall i | i in Apply(w, e).holders ensures IsHeldByBinder(Apply(w, e), i) { HolderStep(w, e, i); }
    }
  }

  lemma ForeignBinderStep(w: World, e: Event, p: Process)
    requires Inv(w) && Enabled(w, e) && IsForeign(e) && p in w.binders
    ensures p in Apply(w, e).binders && BinderInv(Apply(w, e), p)
  {
  }

  lemma OwnBinderStep(w: World, e: Event)
    requires Inv(w) && Enabled(w, e) && !IsForeign(e) && e.p in Apply(w, e).binders
    ensures BinderInv(Apply(w, e), e.p)
  {
    hide RecordOf, HolderInv;
    if e.p in w.binders { assert BinderInv(w, e.p); }
  }

  /** The part of the world another binder's invariant speaks of. */
  predicate SameForOthers(w: World, w': World, p: Process)
    requires p in w.binders && p in w'.binders
  {
    && w'.binders[p] == w.binders[p] && w.nextSocket <= w'.nextSocket
    && (w.lockName.Some? ==> w'.lockName == w.lockName)
    && (w.binders[p].lock in w.holders && w.holders[w.binders[p].lock] == p ==>
          w.binders[p].lock in w'.holders && w'.holders[w.binders[p].lock] == p)
    && (w.binders[p].stage.Cleared? ==> w'.occupant == w.occupant)
  }

  lemma OtherBinderFrame(w: World, e: Event, p: Process)
    requires Inv(w) && Enabled(w, e) && !IsForeign(e) && p in w.binders && p != e.p
    ensures p in Apply(w, e).binders && SameForOthers(w, Apply(w, e), p)
  {
    hide RecordOf, HolderInv, StageInv, SocketInv;
    assert BinderInv(w, p);
    if e.p in w.binders { assert BinderInv(w, e.p); }
  }

  lemma OtherBinderStep(w: World, w': World, p: Process)
    requires p in w.binders && p in w'.binders && BinderInv(w, p) && SameForOthers(w, w', p)
    ensures BinderInv(w', p)
  {
  }

  lemma BinderSteps(w: World, e: Event, p: Process)
    requires Inv(w) && Enabled(w, e) && p in Apply(w, e).binders
    ensures BinderInv(Apply(w, e), p)
  {
    hide BinderInv, HolderInv, SocketInv, Enabled, SameForOthers;
    if IsForeign(e) {
      ForeignBinderStep(w, e, p);
    } else if p == e.p {
      OwnBinderStep(w, e);
    } else {
      OtherBinderFrame(w, e, p);
      OtherBinderStep(w, Apply(w, e), p);
    }
  }

  lemma LockFileSteps(w: World, e: Event)
    requires LockFileInv(w) && Enabled(w, e)
    ensures LockFileInv(Apply(w, e))
  {
    hide RecordOf, Unlinked;
  }

  lemma StepKeepsInv(w: World, e: Event)
    requires Inv(w) && Enabled(w, e)
    ensures Inv(Apply(w, e))
  {
    hide SocketInv, HolderInv, BinderInv, LockFileInv, Enabled, Apply;
    SocketSteps(w, e);
    HolderSteps(w, e);
    LockFileSteps(w, e);
    forall p | p in Apply(w, e).binders ensures BinderInv(Apply(w, e), p) { BinderSteps(w, e, p); }
  }

  // ---------------------------------------------------------------- single steps

  /** How a binder got where it is, for the stages that justify an unlink. */
  predicate Entered(w: World, e: Event, p: Process, to: Binder)
  {
    && p in w.binders && w.binders[p].lock == to.lock && w.binders[p].owner == to.owner
    && match to.stage
       case Read(record) => e == ReadRecord(p) && w.binders[p].stage == Locked && record == RecordOf(w, p)
       case Prepared(existing) =>
         e == Prepare(p) && w.binders[p].stage.Read?
         && (existing.Some? ==> w.occupant == Socket(existing.value)
                                && w.binders[p].stage.record == Complete(to.owner, existing.value))
       case Probed(refused) =>
         e == Probe(p) && w.binders[p].stage == Prepared(Some(refused))
         && (w.occupant.Socket? ==> w.occupant.id !in w.listening)
       case Bound(listener) => e == BindSocket(p) && listener == w.nextSocket
       case Guarded(step, listener, socket) =>
         if w.binders[p].stage.Guarded?
         then w.binders[p].stage.listener == listener && w.binders[p].stage.socket == socket
         else e == Identify(p) && w.binders[p].stage == Bound(listener) && w.occupant == Socket(socket)
       case Closed(socket) => w.binders[p].stage.Guarded? && w.binders[p].stage.socket == socket
       case _ => true
  }

  lemma OwnSteps(w: World, e: Event, p: Process)
    requires Enabled(w, e) && !IsForeign(e) && e.p == p && p in Apply(w, e).binders
    requires !Apply(w, e).binders[p].stage.Opened?
    ensures Entered(w, e, p, Apply(w, e).binders[p])
  {
  }

  lemma OnlyOwnSteps(w: World, e: Event, p: Process)
    requires Enabled(w, e) && p in Apply(w, e).binders
    requires p in w.binders ==> Apply(w, e).binders[p] != w.binders[p]
    ensures !IsForeign(e) && e.p == p
  {
  }

  lemma SocketsDoNotReturn(w: World, e: Event, id: SocketId)
    requires Enabled(w, e) && id < w.nextSocket
    ensures id < Apply(w, e).nextSocket
    ensures Apply(w, e).occupant == Socket(id) ==> w.occupant == Socket(id)
    ensures id in Apply(w, e).listening ==> id in w.listening
  {
  }

  lemma LockNameStays(w: World, e: Event)
    requires Enabled(w, e) && w.lockName.Some?
    ensures Apply(w, e).lockName == w.lockName
  {
  }

  /** Only three cooperating steps take anything off the path, and only sockets. */
  lemma WhoUnlinks(w: World, e: Event)
    requires Enabled(w, e) && !IsForeign(e)
    requires w.occupant != Absent && Apply(w, e).occupant != w.occupant
    ensures Inv(w) ==> w.occupant.Socket? && e.p in w.binders && HoldsLock(w.binders[e.p].stage)
    ensures Inv(w) && !e.Recheck? ==>
              var stage := w.binders[e.p].stage;
              (stage.Guarded? || stage.Closed?) && w.occupant == Socket(stage.socket)
    ensures Inv(w) && e.Recheck? ==>
              w.binders[e.p].stage == Probed(w.occupant.id)
              && RecordOf(w, e.p) == Complete(w.binders[e.p].owner, w.occupant.id)
  {
    hide HolderInv, BinderInv, SocketInv, RecordOf;
  }

  /** The kernel frees a dead binder's lock: whoever has the file open can take it next. */
  lemma KillFreesLock(w: World, p: Process, q: Process)
    requires Inv(w) && p in w.binders && HoldsLock(w.binders[p].stage) && At(w, q, Opened)
    ensures Enabled(w, Kill(p)) && Enabled(Apply(w, Kill(p)), TryLock(q))
  {
  }

  // ---------------------------------------------------------------- runs

  ghost predicate IsRun(worlds: seq<World>, events: seq<Event>)
  {
    && |worlds| == |events| + 1
    && Init(worlds[0])
    && forall k :: 0 <= k < |events| ==> Enabled(worlds[k], events[k]) && worlds[k + 1] == Apply(worlds[k], events[k])
  }

  lemma RunStep(worlds: seq<World>, events: seq<Event>, k: nat)
    requires IsRun(worlds, events) && k < |events|
    ensures |worlds| == |events| + 1 && Enabled(worlds[k], events[k]) && worlds[k + 1] == Apply(worlds[k], events[k])
  {
  }

  lemma InitHolds(w: World)
    requires Init(w)
    ensures Inv(w)
  {
  }

  lemma {:induction false} RunKeepsInv(worlds: seq<World>, events: seq<Event>, k: nat)
    requires IsRun(worlds, events) && k < |worlds|
    ensures Inv(worlds[k])
  {
    hide Enabled, Apply, Init, Inv;
    if k == 0 {
      InitHolds(worlds[0]);
    } else {
      RunKeepsInv(worlds, events, k - 1);
      RunStep(worlds, events, k - 1);
      StepKeepsInv(worlds[k - 1], events[k - 1]);
    }
  }

  /** At most one binder is between `prepare` and drop. */
  lemma OneBinder(worlds: seq<World>, events: seq<Event>, k: nat, p: Process, q: Process)
    requires IsRun(worlds, events) && k < |worlds|
    requires p in worlds[k].binders && HoldsLock(worlds[k].binders[p].stage)
    requires q in worlds[k].binders && HoldsLock(worlds[k].binders[q].stage)
    ensures p == q
  {
    RunKeepsInv(worlds, events, k);
    assert BinderInv(worlds[k], p) && BinderInv(worlds[k], q);
  }

  /** No step ever unlinks or replaces the lock file. */
  lemma {:induction false} LockFileIsPermanent(worlds: seq<World>, events: seq<Event>, i: nat, k: nat)
    requires IsRun(worlds, events) && i <= k < |worlds| && worlds[i].lockName.Some?
    ensures worlds[k].lockName == worlds[i].lockName
    decreases k
  {
    hide Enabled, Apply, Init;
    if i < k {
      LockFileIsPermanent(worlds, events, i, k - 1);
      RunStep(worlds, events, k - 1);
      LockNameStays(worlds[k - 1], events[k - 1]);
    }
  }

  lemma {:induction false} SocketHistory(worlds: seq<World>, events: seq<Event>, i: nat, k: nat, id: SocketId)
    requires IsRun(worlds, events) && i <= k < |worlds| && id < worlds[i].nextSocket
    ensures id < worlds[k].nextSocket
    ensures worlds[k].occupant == Socket(id) ==> worlds[i].occupant == Socket(id)
    ensures id in worlds[k].listening ==> id in worlds[i].listening
    decreases k
  {
    hide Enabled, Apply, Init;
    if i < k {
      SocketHistory(worlds, events, i, k - 1, id);
      RunStep(worlds, events, k - 1);
      SocketsDoNotReturn(worlds[k - 1], events[k - 1], id);
    }
  }

  /** Binder p was in stage `binder` from just after m up to k. */
  ghost predicate Stayed(worlds: seq<World>, p: Process, binder: Binder, m: nat, k: nat)
  {
    m < k < |worlds| && forall i :: m < i <= k ==> p in worlds[i].binders && worlds[i].binders[p] == binder
  }

  /** The step that brought a binder into its present stage. */
  lemma {:induction false} Since(worlds: seq<World>, events: seq<Event>, k: nat, p: Process) returns (m: nat)
    requires IsRun(worlds, events) && k < |worlds| && p in worlds[k].binders
    requires !worlds[k].binders[p].stage.Opened?
    ensures m < k && Stayed(worlds, p, worlds[k].binders[p], m, k)
    ensures Entered(worlds[m], events[m], p, worlds[k].binders[p])
  {
    hide Enabled, Apply, Entered;
    m := k - 1;
    RunStep(worlds, events, m);
    if p in worlds[m].binders && worlds[m].binders[p] == worlds[k].binders[p] {
      m := Since(worlds, events, m, p);
    } else {
      OnlyOwnSteps(worlds[m], events[m], p);
      OwnSteps(worlds[m], events[m], p);
    }
  }

  // ---------------------------------------------------------------- every unlink is justified

  /** Why a cooperating step may remove the socket at the path.
      `Stale`: the steps that read the record, looked at the path, and were refused.
      `Own`: the steps that bound, and that then read the identity at the path. */
  datatype Reason = Stale(read: nat, prepared: nat, probed: nat) | Own(bound: nat, identified: nat)

  ghost predicate HeldLock(worlds: seq<World>, p: Process, from: nat, to: nat)
  {
    from <= to < |worlds| && forall i :: from < i <= to ==> p in worlds[i].binders && HoldsLock(worlds[i].binders[p].stage)
  }

  /** Nobody foreign put anything at the path, or took anything off it, in between. */
  ghost predicate PathLeftAlone(events: seq<Event>, from: nat, to: nat)
  {
    to <= |events| && forall i :: from <= i < to ==> !IsPathEvent(events[i])
  }

  /** A dead socket, named by the record together with this owner when it was read and again
      at the recheck, and refusing connections at the probe and still at the recheck. */
  ghost predicate IsStale(worlds: seq<World>, events: seq<Event>, k: nat, p: Process, id: SocketId, why: Reason)
    requires why.Stale? && k < |worlds| && k <= |events| && p in worlds[k].binders
  {
    && why.read < why.prepared < why.probed < k && HeldLock(worlds, p, why.read, k)
    && events[why.read] == ReadRecord(p) && events[why.prepared] == Prepare(p) && events[why.probed] == Probe(p)
    && p in worlds[why.read].binders
    && RecordOf(worlds[why.read], p) == Complete(worlds[k].binders[p].owner, id) == RecordOf(worlds[k], p)
    && worlds[why.prepared].occupant == worlds[why.probed].occupant == Socket(id)
    && id !in worlds[why.probed].listening && id !in worlds[k].listening
  }

  /** The socket whose identity was read off the path right after the bind. It is the very
      socket the binder created if and only if no foreign event touched the path in between. */
  ghost predicate IsOwn(worlds: seq<World>, events: seq<Event>, k: nat, p: Process, id: SocketId, why: Reason)
    requires why.Own? && k < |worlds| && k <= |events|
  {
    && why.bound < why.identified < k && HeldLock(worlds, p, why.bound, k)
    && events[why.bound] == BindSocket(p) && events[why.identified] == Identify(p)
    && worlds[why.bound + 1].occupant == Socket(worlds[why.bound].nextSocket)
    && worlds[why.identified].occupant == Socket(id)
    && (id == worlds[why.bound].nextSocket <==> PathLeftAlone(events, why.bound + 1, why.identified))
  }

  ghost predicate Justified(worlds: seq<World>, events: seq<Event>, k: nat, p: Process, id: SocketId, why: Reason)
  {
    k < |worlds| && k <= |events| && p in worlds[k].binders
    && match why
       case Stale(_, _, _) => IsStale(worlds, events, k, p, id, why)
       case Own(_, _) => IsOwn(worlds, events, k, p, id, why)
  }

  lemma StageHoldsLock(worlds: seq<World>, p: Process, binder: Binder, m: nat, k: nat)
    requires Stayed(worlds, p, binder, m, k) && HoldsLock(binder.stage)
    ensures HeldLock(worlds, p, m, k)
  {
  }

  lemma HeldTwice(worlds: seq<World>, p: Process, a: nat, b: nat, c: nat)
    requires HeldLock(worlds, p, a, b) && HeldLock(worlds, p, b, c)
    ensures HeldLock(worlds, p, a, c)
  {
  }

  lemma StaleReason(worlds: seq<World>, events: seq<Event>, k: nat, p: Process, id: SocketId) returns (why: Reason)
    requires IsRun(worlds, events) && k < |worlds| && At(worlds[k], p, Probed(id)) && worlds[k].occupant == Socket(id)
    requires RecordOf(worlds[k], p) == Complete(worlds[k].binders[p].owner, id)
    ensures why.Stale? && k <= |events| && IsStale(worlds, events, k, p, id, why)
  {
    hide Enabled, Apply, RecordOf, Init;
    var probed := Since(worlds, events, k, p);
    StageHoldsLock(worlds, p, worlds[k].binders[p], probed, k);
    var prepared := Since(worlds, events, probed, p);
    StageHoldsLock(worlds, p, worlds[probed].binders[p], prepared, probed);
    var read := Since(worlds, events, prepared, p);
    StageHoldsLock(worlds, p, worlds[prepared].binders[p], read, prepared);
    HeldTwice(worlds, p, read, prepared, probed);
    HeldTwice(worlds, p, read, probed, k);
    RunKeepsInv(worlds, events, prepared);
    SocketHistory(worlds, events, prepared, probed, id);
    SocketHistory(worlds, events, probed, k, id);
    why := Stale(read, prepared, probed);
  }

  /** The step that read the guard's socket identity. */
  lemma {:induction false} IdentifiedAt(worlds: seq<World>, events: seq<Event>, k: nat, p: Process, id: SocketId)
    returns (m: nat)
    requires IsRun(worlds, events) && k < |worlds| && p in worlds[k].binders
    requires (worlds[k].binders[p].stage.Guarded? || worlds[k].binders[p].stage.Closed?)
             && worlds[k].binders[p].stage.socket == id
    ensures m < k && events[m] == Identify(p) && worlds[m].occupant == Socket(id)
    ensures p in worlds[m].binders && worlds[m].binders[p].stage.Bound? && HeldLock(worlds, p, m, k)
  {
    hide Enabled, Apply, Init;
    var last := Since(worlds, events, k, p);
    StageHoldsLock(worlds, p, worlds[k].binders[p], last, k);
    if worlds[last].binders[p].stage.Guarded? {
      m := IdentifiedAt(worlds, events, last, p, id);
      HeldTwice(worlds, p, m, last, k);
    } else {
      m := last;
    }
  }

  lemma BoundKeepsPath(w: World, e: Event, p: Process)
    requires Inv(w) && Enabled(w, e) && !IsPathEvent(e)
    requires p in w.binders && w.binders[p].stage.Bound? && p in Apply(w, e).binders && Apply(w, e).binders[p] == w.binders[p]
    ensures Apply(w, e).occupant == w.occupant
  {
    hide HolderInv, SocketInv, LockFileInv, RecordOf;
    assert BinderInv(w, p);
    if !IsForeign(e) && e.p in w.binders { assert BinderInv(w, e.p); }
  }

  lemma PathEventReplaces(w: World, e: Event, id: SocketId)
    requires Enabled(w, e) && IsPathEvent(e) && id < w.nextSocket
    ensures Apply(w, e).occupant != Socket(id)
  {
  }

  /** While a binder waits between its bind and reading the identity, only foreign path
      events make a difference, and each of them makes one. */
  lemma {:induction false} OwnUnlessReplaced(
      worlds: seq<World>, events: seq<Event>, i: nat, m: nat, p: Process, binder: Binder, id: SocketId)
    requires IsRun(worlds, events) && i <= m < |worlds| && binder.stage.Bound?
    requires forall j :: i <= j <= m ==> p in worlds[j].binders && worlds[j].binders[p] == binder
    requires worlds[i].occupant == Socket(id) && id < worlds[i].nextSocket
    ensures worlds[m].occupant == Socket(id) <==> PathLeftAlone(events, i, m)
    decreases m
  {
    hide Enabled, Apply, Init, Inv;
    if i < m {
      OwnUnlessReplaced(worlds, events, i, m - 1, p, binder, id);
      RunStep(worlds, events, m - 1);
      RunKeepsInv(worlds, events, m - 1);
      SocketHistory(worlds, events, i, m - 1, id);
      if IsPathEvent(events[m - 1]) {
        PathEventReplaces(worlds[m - 1], events[m - 1], id);
      } else {
        BoundKeepsPath(worlds[m - 1], events[m - 1], p);
        assert PathLeftAlone(events, i, m - 1) <==> PathLeftAlone(events, i, m);
      }
    }
  }

  lemma OwnReason(worlds: seq<World>, events: seq<Event>, k: nat, p: Process, id: SocketId) returns (why: Reason)
    requires IsRun(worlds, events) && k < |worlds| && p in worlds[k].binders
    requires (worlds[k].binders[p].stage.Guarded? || worlds[k].binders[p].stage.Closed?)
             && worlds[k].binders[p].stage.socket == id
    ensures why.Own? && k <= |events| && IsOwn(worlds, events, k, p, id, why)
  {
    hide Init, PathLeftAlone, RecordOf;
    var identified := IdentifiedAt(worlds, events, k, p, id);
    var bound := Since(worlds, events, identified, p);
    StageHoldsLock(worlds, p, worlds[identified].binders[p], bound, identified);
    HeldTwice(worlds, p, bound, identified, k);
    RunStep(worlds, events, bound);
    OwnUnlessReplaced(worlds, events, bound + 1, identified, p, worlds[identified].binders[p], worlds[bound].nextSocket);
    why := Own(bound, identified);
  }

  /** In every run, every cooperating step that takes something off the endpoint path removes
      a socket for one of the two reasons, while holding the endpoint lock. */
  lemma EveryUnlinkIsJustified(worlds: seq<World>, events: seq<Event>, k: nat)
    requires IsRun(worlds, events) && k < |events| && !IsForeign(events[k])
    requires worlds[k].occupant != Absent && worlds[k + 1].occupant != worlds[k].occupant
    ensures worlds[k].occupant.Socket?
    ensures exists why :: Justified(worlds, events, k, events[k].p, worlds[k].occupant.id, why)
  {
    hide Enabled, Apply, Init, IsStale, IsOwn, RecordOf;
    RunStep(worlds, events, k);
    RunKeepsInv(worlds, events, k);
    WhoUnlinks(worlds[k], events[k]);
    var p, id := events[k].p, worlds[k].occupant.id;
    var why: Reason;
    if events[k].Recheck? {
      why := StaleReason(worlds, events, k, p, id);
    } else {
      why := OwnReason(worlds, events, k, p, id);
    }
    assert Justified(worlds, events, k, p, id, why);
  }

  /** The one gap: a socket put at the path between a bind and the reading of the identity is
      adopted by the guard, which may then unlink it although it is live and not its own. */
  lemma ReplacementIsAdopted(w: World, p: Process)
    requires Inv(w) && p in w.binders && w.binders[p].stage.Bound?
    ensures Enabled(w, ForeignSocket(true))
    ensures var replaced := Apply(w, ForeignSocket(true));
            Enabled(replaced, Identify(p)) && replaced.occupant == Socket(w.nextSocket)
    ensures var adopted := Apply(Apply(w, ForeignSocket(true)), Identify(p));
            && Enabled(adopted, Fail(p, true)) && Apply(adopted, Fail(p, true)).occupant == Absent
            && w.nextSocket in Apply(adopted, Fail(p, true)).listening
  {
  }
}
