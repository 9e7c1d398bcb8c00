/** crates/daemon/src/unix_endpoint.rs, one binder at a time: prepare, probe, finish, drop,
    with the process killed at any point inside `finish`. */
module UnixEndpoint {
  import opened Text

  type SocketId = nat
  type OwnerHash = nat

  /** What is at the endpoint path. `Alien`: not an owned socket. */
  datatype Occupant = Absent | Socket(id: SocketId) | Alien

  /** Contents of the endpoint lock file. `Corrupt`: anything that does not parse as a
      record of this version and user, a truncated record included. */
  datatype Record = Empty | Complete(owner: OwnerHash, socket: SocketId) | Corrupt

  datatype BindResult = Serving(socket: SocketId) | Refused | Interrupted

  /** The last step that took effect. From `AfterIdentify` on there is a guard. */
  datatype Point = BeforeUnlink | AfterUnlink | AfterBind | AfterIdentify | AfterTruncate | MidWrite | AfterRecord

  /** `Killed`: the process dies and nothing is cleaned up. `Failed`: the next call returns an
      error, so the guard, once there is one, is dropped on the way out; `unlinks` tells
      whether its checks and its removal go through, whose own errors are ignored. */
  datatype Fate = Completes | Killed(at: Point) | Failed(at: Point, unlinks: bool)

  predicate HasGuard(at: Point)
  {
    !at.BeforeUnlink? && !at.AfterUnlink? && !at.AfterBind?
  }

  /** The new socket is taken off the path again. */
  predicate Removes(fate: Fate)
  {
    fate.Failed? && fate.unlinks && HasGuard(fate.at)
  }

  /** Everything a later bind can observe. */
  datatype Namespace = Namespace(occupant: Occupant, record: Record, listening: set<SocketId>, next: SocketId)

  /** What connecting to the endpoint path yields within its time limit. */
  datatype Connection = Connected | ConnectionRefused | NotFound | Unclear

  function Connect(space: Namespace, timesOut: bool): Connection
  {
    if timesOut then Unclear
    else if space.occupant == Absent then NotFound
    else if space.occupant.Socket? && space.occupant.id in space.listening then Connected
    else ConnectionRefused
  }

  /** When binding for an owner may go ahead: no unreadable record, and nothing at the path
      or a dead socket whose complete record names that very socket and owner. */
  predicate Bindable(space: Namespace, owner: OwnerHash)
  {
    space.record != Corrupt
    && match space.occupant
       case Absent => true
       case Socket(id) => space.record == Complete(owner, id) && id !in space.listening
       case Alien => false
  }

  /** Sockets at the path, listening or on record were all created earlier. */
  predicate WellFormed(space: Namespace)
  {
    (space.occupant.Socket? ==> space.occupant.id < space.next)
    && (space.record.Complete? ==> space.record.socket < space.next)
    && forall id :: id in space.listening ==> id < space.next
  }

  /** The namespace after a successful bind. */
  function BoundSpace(space: Namespace, owner: OwnerHash): Namespace
  {
    Namespace(Socket(space.next), Complete(owner, space.next), space.listening + {space.next}, space.next + 1)
  }

  /** The lock file at each point. */
  function RecordAt(space: Namespace, owner: OwnerHash, at: Point): Record
  {
    match at
    case AfterTruncate => Empty
    case MidWrite => Corrupt
    case AfterRecord => Complete(owner, space.next)
    case _ => space.record
  }

  /** The namespace an interrupted bind leaves: no listener, the record as far as it got, and
      the new socket unless a guard removed it. */
  function LeftBehind(space: Namespace, owner: OwnerHash, at: Point, removed: bool): Namespace
  {
    match at
    case BeforeUnlink => space
    case AfterUnlink => space.(occupant := Absent)
    case _ =>
      Namespace(if removed then Absent else Socket(space.next), RecordAt(space, owner, at), space.listening, space.next + 1)
  }

  /** What a bind that may go ahead makes of the namespace. */
  function OutcomeOf(space: Namespace, owner: OwnerHash, fate: Fate): Namespace
  {
    if fate.Completes? then BoundSpace(space, owner) else LeftBehind(space, owner, fate.at, Removes(fate))
  }

  class Endpoint {
    var occupant: Occupant
    var record: Record
    var listening: set<SocketId>
    var next: SocketId
    var locked: bool

    constructor ()
      ensures Space() == Namespace(Absent, Empty, {}, 0) && !locked
    {
      occupant, record, listening, next, locked := Absent, Empty, {}, 0, false;
    }

    function Space(): Namespace
      reads this
    {
      Namespace(occupant, record, listening, next)
    }

    /** `PendingBind::prepare`: take the lock, then accept an absent socket or one that the
        record names for this owner. A refusal drops the lock again. */
    method Prepare(owner: OwnerHash) returns (existing: Result<Option<SocketId>, ()>)
      modifies this
      ensures Space() == old(Space())
      ensures locked <==> old(locked) || existing.Ok?
      ensures existing.Ok?
         <==> (!old(locked) && record != Corrupt
               && (occupant == Absent || (occupant.Socket? && record == Complete(owner, occupant.id))))
      ensures existing.Ok? ==> existing.value == if occupant.Socket? then Some(occupant.id) else None
    {
      if locked { return Err(()); }
      locked := true;
      existing := Err(());
      if record != Corrupt {
        match occupant {
          case Alien =>
          case Absent => existing := Ok(None);
          case Socket(id) =>
            if record.Complete? && record.owner != owner {
            } else if record.Complete? && record.socket == id {
              existing := Ok(Some(id));
            }
        }
      }
      if existing.Err? { locked := false; }
    }

    /** `verify_socket`, as far as the endpoint path is concerned. */
    predicate Verified(socket: SocketId)
      reads this
    {
      occupant == Socket(socket)
    }

    /** Dropping the guard: it removes the socket only if the path still holds the one it
        bound, keeps the lock file, and then releases the lock. */
    method DropGuard(socket: SocketId, unlinks: bool)
      modifies this`occupant, this`locked
      ensures !locked && occupant == if unlinks && old(occupant) == Socket(socket) then Absent else old(occupant)
    {
      if unlinks && Verified(socket) { occupant := Absent; }
      locked := false;
    }

    /** Whatever ends `finish` early also ends the listener and the lock. */
    method Interrupt(socket: SocketId, fate: Fate) returns (result: BindResult)
      requires locked && !fate.Completes?
      modifies this`occupant, this`locked, this`listening
      ensures !locked && listening == old(listening) - {socket}
      ensures occupant == if Removes(fate) && old(occupant) == Socket(socket) then Absent else old(occupant)
      ensures result == Interrupted
    {
      if fate.Failed? && HasGuard(fate.at) { DropGuard(socket, fate.unlinks); } else { locked := false; }
      listening := listening - {socket};
      result := Interrupted;
    }

    /** `finish`: recheck, unlink, bind, read the identity, restrict, truncate, write the
        record. */
    method Finish(owner: OwnerHash, existing: Option<SocketId>, fate: Fate) returns (result: BindResult)
      requires locked && WellFormed(Space())
      modifies this
      ensures var fits := match existing
                          case Some(id) => old(record) == Complete(owner, id) && old(occupant) == Socket(id)
                          case None => old(occupant) == Absent;
        && (!fits ==> result == Refused && Space() == old(Space()) && !locked)
        && (fits ==> Space() == OutcomeOf(old(Space()), owner, fate))
        && (fits && fate.Completes? ==> result == Serving(old(next)) && locked)
        && (fits && !fate.Completes? ==> result == Interrupted && !locked)
    {
      if existing.Some? {
        if record != Complete(owner, existing.value) || occupant != Socket(existing.value) {
          locked := false;
          return Refused;
        }
      } else if occupant != Absent {
        locked := false;
        return Refused;
      }
      if !fate.Completes? && fate.at == BeforeUnlink { locked := false; return Interrupted; }
      if existing.Some? { occupant := Absent; }
      if !fate.Completes? && fate.at == AfterUnlink { locked := false; return Interrupted; }
      var socket := next;
      occupant, listening, next := Socket(socket), listening + {socket}, next + 1;
      ghost var before := old(listening);
      assert listening - {socket} == before;
      assert Verified(socket);
      if !fate.Completes? && (fate.at == AfterBind || fate.at == AfterIdentify) { result := Interrupt(socket, fate); return; }
      record := Empty;
      if !fate.Completes? && fate.at == AfterTruncate { result := Interrupt(socket, fate); return; }
      record := Corrupt;
      if !fate.Completes? && fate.at == MidWrite { result := Interrupt(socket, fate); return; }
      record := Complete(owner, socket);
      if !fate.Completes? { result := Interrupt(socket, fate); return; }
      assert Verified(socket);
      result := Serving(socket);
    }

    /** `EndpointGuard::bind`: it succeeds with a fresh recorded socket, or refuses with
        endpoint and record unchanged, unless it is interrupted itself. */
    method Bind(owner: OwnerHash, timesOut: bool, fate: Fate) returns (result: BindResult)
      requires WellFormed(Space())
      modifies this
      ensures WellFormed(Space())
      ensures old(locked) || !Bindable(old(Space()), owner) || (timesOut && old(occupant) != Absent)
              ==> result == Refused && Space() == old(Space()) && locked == old(locked)
      ensures !old(locked) && Bindable(old(Space()), owner) && !(timesOut && old(occupant) != Absent)
              ==> Space() == OutcomeOf(old(Space()), owner, fate) && (locked <==> fate.Completes?)
                  && result == (if fate.Completes? then Serving(old(next)) else Interrupted)
    {
      var existing := Prepare(owner);
      if existing.Err? { return Refused; }
      if existing.value.Some? {
        if Connect(Space(), timesOut) != ConnectionRefused {
          locked := false;
          return Refused;
        }
      }
      result := Finish(owner, existing.value, fate);
    }

    /** The listener is dropped first, then the guard. */
    method Close(socket: SocketId, unlinks: bool)
      requires locked
      modifies this
      ensures !locked && record == old(record) && next == old(next) && listening == old(listening) - {socket}
      ensures occupant == if unlinks && old(occupant) == Socket(socket) then Absent else old(occupant)
    {
      listening := listening - {socket};
      DropGuard(socket, unlinks);
    }
  }

  // ---------------------------------------------------------------- recovery

  /** What the next bind finds after an interruption: with the new socket left behind it goes
      ahead exactly when the whole record was written and the same owner returns; with the
      socket removed, or never created, exactly when no record was left cut. */
  lemma RecoveryIff(space: Namespace, owner: OwnerHash, fate: Fate, returning: OwnerHash)
    requires WellFormed(space) && Bindable(space, owner) && !fate.Completes?
    ensures WellFormed(OutcomeOf(space, owner, fate))
    ensures Bindable(OutcomeOf(space, owner, fate), returning)
       <==> match fate.at
            case BeforeUnlink => space.occupant == Absent || returning == owner
            case AfterUnlink => true
            case AfterBind => false
            case MidWrite => false
            case AfterRecord => Removes(fate) || returning == owner
            case _ => Removes(fate)
  {
  }
}
