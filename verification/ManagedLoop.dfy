/** The managed service loop on top of bounded frames: `serve_managed_ipc` and
    `handle_managed_connection` (crates/daemon/src/lib.rs, 833-875, 918-959). */
module ManagedLoop {
  import opened Text
  import opened Utf8
  import opened BoundedIo

  /** A parsed request. `Other` stands for every method that is handed on to the index. */
  datatype Message<Id> = Ping | Shutdown(target: Option<Id>) | Other

  datatype Response<Id> = Pong(identity: Id) | IdentityMismatch | Answer(frame: seq<byte>)

  /** What an accept yields: a connection, a transient error, or a lasting one. `severed`: the
      bytes end in a read error. `stalled`: the read deadline passes first. `writable`: the
      reply can be written. */
  datatype Accepted =
    | Connection(bytes: seq<byte>, cut: nat -> nat, severed: bool, stalled: bool, writable: bool)
    | Transient
    | Broken

  datatype StreamStatus = ClientDisconnected | ShutdownRequested

  datatype ConnectionError = NoRequest(cause: ReadError) | WriteFailed

  datatype Outcome = Running | ShutDown | AcceptFailed

  /** How frames are understood, and what a request does to the index. */
  datatype Handler<!World, !Id(==)> = Handler(
    identity: Id, parse: seq<byte> -> Option<Message<Id>>, apply: (World, seq<byte>) -> World)
  {
    /** A shutdown that is untargeted or names this very instance. */
    predicate StopsAt(frame: seq<byte>)
    {
      match parse(frame)
      case Some(Shutdown(target)) => target.None? || target.value == identity
      case _ => false
    }

    function Effect(world: World, frame: seq<byte>): World
    {
      if parse(frame) == Some(Other) then apply(world, frame) else world
    }

    function Reply(frame: seq<byte>): Response<Id>
    {
      match parse(frame)
      case Some(Ping) => Pong(identity)
      case Some(Shutdown(_)) => if StopsAt(frame) then Answer(frame) else IdentityMismatch
      case _ => Answer(frame)
    }
  }

  // ---------------------------------------------------------------- specification

  /** The first complete frame of a connection, if it sends one in time and in bounds. */
  function FirstFrame(accepted: Accepted): Option<seq<byte>>
  {
    match accepted
    case Connection(bytes, _, _, stalled, _) =>
      if stalled then None
      else (match FrameOf(bytes, MAX_REQUEST_BYTES) case Ok(frame) => Some(frame) case Err(_) => None)
    case Transient => None
    case Broken => None
  }

  /** The frames the loop gets to see, up to a lasting accept error. */
  function Frames(accepts: seq<Accepted>): seq<seq<byte>>
  {
    if accepts == [] || accepts[0].Broken? then []
    else (if FirstFrame(accepts[0]).Some? then [FirstFrame(accepts[0]).value] else []) + Frames(accepts[1..])
  }

  predicate EndsBroken(accepts: seq<Accepted>)
  {
    exists i :: 0 <= i < |accepts| && accepts[i].Broken?
  }

  /** The frames before the first one that stops the service. */
  function BeforeStop<World, Id(==)>(handler: Handler<World, Id>, frames: seq<seq<byte>>): (r: seq<seq<byte>>)
    ensures |r| <= |frames| && r == frames[..|r|]
    ensures forall i :: 0 <= i < |r| ==> !handler.StopsAt(r[i])
    ensures |r| < |frames| ==> handler.StopsAt(frames[|r|])
  {
    if frames == [] || handler.StopsAt(frames[0]) then [] else [frames[0]] + BeforeStop(handler, frames[1..])
  }

  function Effects<World, Id(==)>(handler: Handler<World, Id>, world: World, frames: seq<seq<byte>>): World
  {
    if frames == [] then world else Effects(handler, handler.Effect(world, frames[0]), frames[1..])
  }

  /** What serving a sequence of accepts makes of the index. */
  function EffectOf<World, Id(==)>(handler: Handler<World, Id>, world: World, accepts: seq<Accepted>): World
  {
    Effects(handler, world, BeforeStop(handler, Frames(accepts)))
  }

  /** One of the frames stops the service. */
  predicate Stops<World, Id(==)>(handler: Handler<World, Id>, accepts: seq<Accepted>)
  {
    |BeforeStop(handler, Frames(accepts))| < |Frames(accepts)|
  }

  /** How serving them ends. */
  function OutcomeOf<World, Id(==)>(handler: Handler<World, Id>, accepts: seq<Accepted>): Outcome
  {
    if Stops(handler, accepts) then ShutDown
    else if EndsBroken(accepts) then AcceptFailed else Running
  }

  /** The replies that get through: one for each complete frame, the stopping one included,
      on a connection that can be written to. */
  function Replies<World, Id(==)>(handler: Handler<World, Id>, accepts: seq<Accepted>): seq<Response<Id>>
  {
    if accepts == [] || accepts[0].Broken? then []
    else
      match FirstFrame(accepts[0])
      case None => Replies(handler, accepts[1..])
      case Some(frame) => ReplyTo(handler, accepts[0], frame) + if handler.StopsAt(frame) then [] else Replies(handler, accepts[1..])
  }

  function ReplyTo<World, Id(==)>(handler: Handler<World, Id>, accept: Accepted, frame: seq<byte>): seq<Response<Id>>
  {
    if accept.Connection? && accept.writable then [handler.Reply(frame)] else []
  }

  // ---------------------------------------------------------------- one accept at a time

  lemma FramesFirst(accept: Accepted, rest: seq<Accepted>)
    ensures Frames([accept] + rest)
         == if accept.Broken? then []
            else (if FirstFrame(accept).Some? then [FirstFrame(accept).value] else []) + Frames(rest)
  {
    hide FirstFrame;
    assert ([accept] + rest)[1..] == rest;
  }

  lemma BeforeStopFirst<World, Id>(handler: Handler<World, Id>, frame: seq<byte>, frames: seq<seq<byte>>)
    ensures BeforeStop(handler, [frame] + frames) == if handler.StopsAt(frame) then [] else [frame] + BeforeStop(handler, frames)
  {
    hide Handler.StopsAt;
    assert ([frame] + frames)[1..] == frames;
  }

  lemma EffectsFirst<World, Id>(handler: Handler<World, Id>, world: World, frame: seq<byte>, frames: seq<seq<byte>>)
    ensures Effects(handler, world, [frame] + frames) == Effects(handler, handler.Effect(world, frame), frames)
  {
    hide Handler.Effect;
    assert ([frame] + frames)[1..] == frames;
  }

  lemma NoAccepts<World, Id>(handler: Handler<World, Id>, world: World)
    ensures EffectOf(handler, world, []) == world && !Stops(handler, []) && Replies(handler, []) == []
  {
  }

  lemma EffectFirst<World, Id>(handler: Handler<World, Id>, world: World, accept: Accepted, rest: seq<Accepted>)
    ensures var accepts := [accept] + rest;
      if accept.Broken? then EffectOf(handler, world, accepts) == world && !Stops(handler, accepts)
      else if FirstFrame(accept).None? then
        EffectOf(handler, world, accepts) == EffectOf(handler, world, rest) && (Stops(handler, accepts) <==> Stops(handler, rest))
      else if handler.StopsAt(FirstFrame(accept).value) then EffectOf(handler, world, accepts) == world && Stops(handler, accepts)
      else EffectOf(handler, world, accepts) == EffectOf(handler, handler.Effect(world, FirstFrame(accept).value), rest)
           && (Stops(handler, accepts) <==> Stops(handler, rest))
  {
    FramesFirst(accept, rest);
    hide FirstFrame, Frames, Handler.Effect, Handler.StopsAt;
    var frames := Frames(rest);
    assert [] + frames == frames;
    if !accept.Broken? && FirstFrame(accept).Some? {
      var frame := FirstFrame(accept).value;
      BeforeStopFirst(handler, frame, frames);
      EffectsFirst(handler, world, frame, BeforeStop(handler, frames));
      hide BeforeStop, Effects;
    }
  }

  lemma RepliesFirst<World, Id>(handler: Handler<World, Id>, accept: Accepted, rest: seq<Accepted>)
    ensures Replies(handler, [accept] + rest)
         == if accept.Broken? then []
            else if FirstFrame(accept).None? then Replies(handler, rest)
            else ReplyTo(handler, accept, FirstFrame(accept).value)
                 + if handler.StopsAt(FirstFrame(accept).value) then [] else Replies(handler, rest)
  {
    hide FirstFrame, Handler.StopsAt, ReplyTo;
    assert ([accept] + rest)[1..] == rest;
  }

  // ---------------------------------------------------------------- the loop

  class Service<World, Id(==)> {
    const handler: Handler<World, Id>
    var world: World
    var sent: seq<Response<Id>>

    constructor (handler: Handler<World, Id>, world: World)
      ensures this.handler == handler && this.world == world && sent == []
    {
      this.handler := handler;
      this.world := world;
      sent := [];
    }

    /** `write_response`, which the peer may make fail. */
    method WriteResponse(response: Response<Id>, writable: bool) returns (written: Result<(), ConnectionError>)
      modifies this`sent
      ensures written == if writable then Ok(()) else Err(WriteFailed)
      ensures sent == old(sent) + if writable then [response] else []
    {
      if !writable { return Err(WriteFailed); }
      sent := sent + [response];
      written := Ok(());
    }

    /** `handle_managed_connection`. The shutdown is looked at before the result of the write:
        the service stops even if the reply cannot be written. */
    method HandleConnection(connection: Accepted) returns (result: Result<StreamStatus, ConnectionError>)
      requires connection.Connection?
      modifies this
      ensures match FirstFrame(connection)
              case None => result.Err? && result.error.NoRequest? && world == old(world) && sent == old(sent)
              case Some(frame) =>
                && world == handler.Effect(old(world), frame)
                && sent == old(sent) + (if connection.writable then [handler.Reply(frame)] else [])
                && result == if handler.StopsAt(frame) then Ok(ShutdownRequested)
                             else if connection.writable then Ok(ClientDisconnected) else Err(WriteFailed)
      ensures FirstFrame(connection).Some? ==>
                (match handler.parse(FirstFrame(connection).value)
                 case Some(Ping) =>
                   result != Ok(ShutdownRequested) && world == old(world)
                   && (connection.writable ==> sent == old(sent) + [Pong(handler.identity)])
                 case Some(Shutdown(Some(target))) =>
                   world == old(world) && (result == Ok(ShutdownRequested) <==> target == handler.identity)
                   && (connection.writable ==>
                         sent == old(sent) + [if target == handler.identity then Answer(FirstFrame(connection).value) else IdentityMismatch])
                 case Some(Shutdown(None)) =>
                   world == old(world) && result == Ok(ShutdownRequested)
                   && (connection.writable ==> sent == old(sent) + [Answer(FirstFrame(connection).value)])
                 case Some(Other) =>
                   world == handler.apply(old(world), FirstFrame(connection).value) && result != Ok(ShutdownRequested)
                   && (connection.writable ==> sent == old(sent) + [Answer(FirstFrame(connection).value)])
                 case None =>
                   world == old(world) && result != Ok(ShutdownRequested)
                   && (connection.writable ==> sent == old(sent) + [Answer(FirstFrame(connection).value)]))
    {
      CompleteFramesAreReceived(connection.bytes, MAX_REQUEST_BYTES, connection.severed);
      hide FrameOf, Received;
      var stream := new Stream(connection.bytes, connection.cut, connection.severed);
      var deadline := new Deadline(if connection.stalled then 0 else 2 * MAX_REQUEST_BYTES);
      var line := ReadFrame(stream, MAX_REQUEST_BYTES, deadline);
      if line.Err? { return Err(NoRequest(line.error)); }
      var response := Answer(line.value);
      var shutdownRequested := false;
      match handler.parse(line.value) {
        case None =>
        case Some(Ping) => response := Pong(handler.identity);
        case Some(Shutdown(target)) =>
          if target.Some? && target.value != handler.identity {
            response := IdentityMismatch;
          } else {
            shutdownRequested := true;
          }
        case Some(Other) => world := handler.apply(world, line.value);
      }
      var written := WriteResponse(response, connection.writable);
      if shutdownRequested { return Ok(ShutdownRequested); }
      if written.Err? { return Err(written.error); }
      result := Ok(ClientDisconnected);
    }

    /** `serve_managed_ipc`: connections one after the other, until one asks for the shutdown
        or an accept fails for good. Errors of single connections are passed over. */
    method Serve(accepts: seq<Accepted>) returns (outcome: Outcome)
      modifies this
      ensures world == EffectOf(handler, old(world), accepts)
      ensures outcome == OutcomeOf(handler, accepts)
      ensures sent == old(sent) + Replies(handler, accepts)
    {
      hide FirstFrame, Handler.Reply, Handler.Effect, Handler.StopsAt, EffectOf, Stops, Replies;
      for i := 0 to |accepts|
        invariant forall k :: 0 <= k < i ==> !accepts[k].Broken?
        invariant EffectOf(handler, world, accepts[i..]) == EffectOf(handler, old(world), accepts)
        invariant Stops(handler, accepts[i..]) <==> Stops(handler, accepts)
        invariant sent + Replies(handler, accepts[i..]) == old(sent) + Replies(handler, accepts)
      {
        ghost var rest := accepts[i + 1..];
        assert accepts[i..] == [accepts[i]] + rest;
        EffectFirst(handler, world, accepts[i], rest);
        RepliesFirst(handler, accepts[i], rest);
        match accepts[i] {
          case Broken => return AcceptFailed;
          case Transient => TransientHasNoFrame();
          case Connection(_, _, _, _, _) =>
            ghost var before := sent;
            var result := HandleConnection(accepts[i]);
            if FirstFrame(accepts[i]).Some? {
              Associate(before, ReplyTo(handler, accepts[i], FirstFrame(accepts[i]).value), Replies(handler, rest));
            }
            if result == Ok(ShutdownRequested) {
              StoppingHasNoEffect(handler, FirstFrame(accepts[i]).value);
              return ShutDown;
            }
        }
      }
      NoAccepts(handler, world);
      outcome := Running;
    }
  }

  lemma StoppingHasNoEffect<World, Id>(handler: Handler<World, Id>, frame: seq<byte>)
    requires handler.StopsAt(frame)
    ensures forall w :: handler.Effect(w, frame) == w
  {
  }

  lemma TransientHasNoFrame()
    ensures FirstFrame(Transient) == None
  {
  }

  // ---------------------------------------------------------------- what follows

  /** How bytes are cut, what follows the frame, whether the connection breaks after it and
      whether replies can be written make no difference to what the loop does. */
  lemma OnlyFirstFramesMatter<World, Id>(handler: Handler<World, Id>, world: World, a: seq<Accepted>, b: seq<Accepted>)
    requires |a| == |b|
    requires forall i :: 0 <= i < |a| ==> FirstFrame(a[i]) == FirstFrame(b[i]) && (a[i].Broken? <==> b[i].Broken?)
    ensures EffectOf(handler, world, a) == EffectOf(handler, world, b) && OutcomeOf(handler, a) == OutcomeOf(handler, b)
  {
    hide FirstFrame, BeforeStop, Effects;
    if EndsBroken(a) {
      var i :| 0 <= i < |a| && a[i].Broken?;
      assert b[i].Broken?;
    }
    SameFrames(a, b);
  }

  lemma {:induction false} SameFrames(a: seq<Accepted>, b: seq<Accepted>)
    requires |a| == |b|
    requires forall i :: 0 <= i < |a| ==> FirstFrame(a[i]) == FirstFrame(b[i]) && (a[i].Broken? <==> b[i].Broken?)
    ensures Frames(a) == Frames(b)
  {
    hide FirstFrame;
    if a != [] {
      assert forall i :: 0 <= i < |a[1..]| ==> a[1..][i] == a[i + 1] && b[1..][i] == b[i + 1];
      SameFrames(a[1..], b[1..]);
    }
  }

  /** The first frame of a connection: its first line, if that comes in time, is at most 64 KiB
      with its LF, and is text. */
  lemma FirstFrameIff(accepted: Accepted, frame: seq<byte>)
    ensures FirstFrame(accepted) == Some(frame)
       <==> accepted.Connection? && !accepted.stalled && frame <= accepted.bytes && 0 < |frame| <= 65536
            && frame[|frame| - 1] == 10 && 10 !in frame[..|frame| - 1] && IsUtf8(frame)
  {
    hide FrameOf, IsUtf8;
    if accepted.Connection? { FrameIff(accepted.bytes, MAX_REQUEST_BYTES, frame); }
  }

  /** Idle, partial, oversized, broken and non-text connections are stutter steps anywhere. */
  lemma SilentConnectionsStutter<World, Id>(
      handler: Handler<World, Id>, world: World, before: seq<Accepted>, silent: Accepted, after: seq<Accepted>)
    requires FirstFrame(silent) == None && !silent.Broken?
    ensures EffectOf(handler, world, before + [silent] + after) == EffectOf(handler, world, before + after)
    ensures OutcomeOf(handler, before + [silent] + after) == OutcomeOf(handler, before + after)
  {
    hide FirstFrame, BeforeStop, Effects, Frames;
    SilentFramesVanish(before, silent, after);
    BrokenSame(before, silent, after);
  }

  lemma {:induction false} SilentFramesVanish(before: seq<Accepted>, silent: Accepted, after: seq<Accepted>)
    requires FirstFrame(silent) == None && !silent.Broken?
    ensures Frames(before + [silent] + after) == Frames(before + after)
  {
    hide FirstFrame;
    if before == [] {
      assert before + [silent] + after == [silent] + after;
      assert ([silent] + after)[1..] == after;
      assert before + after == after;
    } else {
      assert (before + [silent] + after)[1..] == before[1..] + [silent] + after;
      assert (before + after)[1..] == before[1..] + after;
      SilentFramesVanish(before[1..], silent, after);
    }
  }

  // ---------------------------------------------------------------- what stops the service

  /** A shutdown for everyone, or for this very instance. */
  predicate IsForUs<World, Id(==)>(handler: Handler<World, Id>, message: Option<Message<Id>>)
  {
    message == Some(Shutdown(None)) || message == Some(Shutdown(Some(handler.identity)))
  }

  /** The first frame of accept number i, reached before any lasting accept error, parses as
      such a shutdown. */
  predicate AsksToStop<World, Id(==)>(handler: Handler<World, Id>, accepts: seq<Accepted>, i: nat)
  {
    i < |accepts| && (forall j :: 0 <= j < i ==> !accepts[j].Broken?)
    && FirstFrame(accepts[i]).Some? && IsForUs(handler, handler.parse(FirstFrame(accepts[i]).value))
  }

  /** One accept at a time. */
  lemma FirstAccept<World, Id>(handler: Handler<World, Id>, world: World, accept: Accepted, rest: seq<Accepted>)
    ensures var accepts := [accept] + rest;
      && (accept.Broken? ==> EffectOf(handler, world, accepts) == world && !Stops(handler, accepts))
      && (!accept.Broken? && FirstFrame(accept).None? ==>
            EffectOf(handler, world, accepts) == EffectOf(handler, world, rest)
            && (Stops(handler, accepts) <==> Stops(handler, rest)))
      && (FirstFrame(accept).Some? ==>
            var frame := FirstFrame(accept).value;
            if IsForUs(handler, handler.parse(frame))
            then EffectOf(handler, world, accepts) == world && Stops(handler, accepts)
            else EffectOf(handler, world, accepts) == EffectOf(handler, handler.Effect(world, frame), rest)
                 && (Stops(handler, accepts) <==> Stops(handler, rest)))
  {
    hide FirstFrame, EffectOf, Stops, Handler.Effect, Handler.StopsAt, IsForUs;
    BrokenHasNoFrame();
    EffectFirst(handler, world, accept, rest);
    if FirstFrame(accept).Some? { StopsAtIsForUs(handler, FirstFrame(accept).value); }
  }

  lemma StopsAtIsForUs<World, Id>(handler: Handler<World, Id>, frame: seq<byte>)
    ensures handler.StopsAt(frame) <==> IsForUs(handler, handler.parse(frame))
  {
    match handler.parse(frame) {
      case Some(Shutdown(Some(target))) =>
      case _ =>
    }
  }

  lemma AsksLater<World, Id>(handler: Handler<World, Id>, accept: Accepted, rest: seq<Accepted>, i: nat)
    ensures AsksToStop(handler, [accept] + rest, i + 1) <==> !accept.Broken? && AsksToStop(handler, rest, i)
    ensures AsksToStop(handler, [accept] + rest, 0)
       <==> FirstFrame(accept).Some? && IsForUs(handler, handler.parse(FirstFrame(accept).value))
  {
    hide FirstFrame, IsForUs;
    var accepts := [accept] + rest;
    if !accept.Broken? && AsksToStop(handler, rest, i) {
      forall j | 0 <= j < i + 1 ensures !accepts[j].Broken? { if j > 0 { assert accepts[j] == rest[j - 1]; } }
    }
    if AsksToStop(handler, accepts, i + 1) {
      assert !accepts[0].Broken?;
      forall j | 0 <= j < i ensures !rest[j].Broken? { assert rest[j] == accepts[j + 1]; }
    }
  }

  ghost predicate IsAsked<World, Id>(handler: Handler<World, Id>, accepts: seq<Accepted>)
  {
    exists i: nat :: AsksToStop(handler, accepts, i)
  }

  lemma IsAskedSplit<World, Id>(handler: Handler<World, Id>, accept: Accepted, rest: seq<Accepted>)
    ensures IsAsked(handler, [accept] + rest)
       <==> (FirstFrame(accept).Some? && IsForUs(handler, handler.parse(FirstFrame(accept).value)))
            || (!accept.Broken? && IsAsked(handler, rest))
  {
    hide FirstFrame, IsForUs, AsksToStop;
    AsksLater(handler, accept, rest, 0);
    if i: nat :| AsksToStop(handler, rest, i) { AsksLater(handler, accept, rest, i); }
    if i: nat :| AsksToStop(handler, [accept] + rest, i) {
      if i > 0 { AsksLater(handler, accept, rest, i - 1); }
    }
  }

  lemma {:induction false} StopsIff<World, Id>(handler: Handler<World, Id>, world: World, accepts: seq<Accepted>)
    ensures Stops(handler, accepts) <==> IsAsked(handler, accepts)
    decreases |accepts|
  {
    if accepts != [] {
      BrokenHasNoFrame();
      hide FirstFrame, Stops, IsForUs, EffectOf, IsAsked;
      var rest := accepts[1..];
      assert accepts == [accepts[0]] + rest;
      StopsIff(handler, world, rest);
      FirstAccept(handler, world, accepts[0], rest);
      IsAskedSplit(handler, accepts[0], rest);
    }
  }

  lemma BrokenHasNoFrame()
    ensures FirstFrame(Broken) == None
  {
  }

  /** The loop ends with a shutdown exactly when, before any lasting accept error, some
      connection's first frame is a shutdown that is untargeted or targets this identity. */
  lemma ShutsDownIff<World, Id>(handler: Handler<World, Id>, world: World, accepts: seq<Accepted>)
    ensures OutcomeOf(handler, accepts) == ShutDown <==> exists i: nat :: AsksToStop(handler, accepts, i)
    ensures OutcomeOf(handler, accepts) == AcceptFailed
       <==> !(exists i: nat :: AsksToStop(handler, accepts, i)) && exists i :: 0 <= i < |accepts| && accepts[i].Broken?
  {
    hide AsksToStop, Frames, BeforeStop;
    StopsIff(handler, world, accepts);
  }

  /** A frame that neither stops the service nor changes the index. */
  predicate IsIdle<World, Id(==)>(handler: Handler<World, Id>, message: Option<Message<Id>>)
  {
    message != Some(Other) && !IsForUs(handler, message)
  }

  lemma {:induction false} IdleIsSkipped<World, Id>(
      handler: Handler<World, Id>, world: World, before: seq<Accepted>, idle: Accepted, after: seq<Accepted>)
    requires FirstFrame(idle).Some? && IsIdle(handler, handler.parse(FirstFrame(idle).value)) && !idle.Broken?
    ensures EffectOf(handler, world, before + [idle] + after) == EffectOf(handler, world, before + after)
    decreases |before|
  {
    hide FirstFrame, EffectOf, Stops;
    if before == [] {
      assert before + [idle] + after == [idle] + after;
      assert before + after == after;
      FirstAccept(handler, world, idle, after);
    } else {
      assert before + [idle] + after == [before[0]] + (before[1..] + [idle] + after);
      assert before + after == [before[0]] + (before[1..] + after);
      FirstAccept(handler, world, before[0], before[1..] + [idle] + after);
      FirstAccept(handler, world, before[0], before[1..] + after);
      var next := if FirstFrame(before[0]).Some? then handler.Effect(world, FirstFrame(before[0]).value) else world;
      IdleIsSkipped(handler, next, before[1..], idle, after);
    }
  }

  /** A shutdown aimed at another instance, a client of an earlier generation say, leaves
      effect and outcome as if it had never connected, and is told so. */
  lemma MistargetedShutdownIsRefused<World, Id>(
      handler: Handler<World, Id>, world: World, before: seq<Accepted>, stale: Accepted, after: seq<Accepted>, target: Id)
    requires stale.Connection? && FirstFrame(stale).Some? && target != handler.identity
    requires handler.parse(FirstFrame(stale).value) == Some(Shutdown(Some(target)))
    ensures EffectOf(handler, world, before + [stale] + after) == EffectOf(handler, world, before + after)
    ensures OutcomeOf(handler, before + [stale] + after) == OutcomeOf(handler, before + after)
    ensures Replies(handler, [stale]) == if stale.writable then [IdentityMismatch] else []
  {
    IdleIsSkipped(handler, world, before, stale, after);
    assert [stale][1..] == [];
    hide FirstFrame;
    StopsSame(handler, world, before, stale, after);
    BrokenSame(before, stale, after);
  }

  lemma BrokenSame(before: seq<Accepted>, extra: Accepted, after: seq<Accepted>)
    requires !extra.Broken?
    ensures EndsBroken(before + [extra] + after) <==> EndsBroken(before + after)
  {
    var whole, less := before + [extra] + after, before + after;
    if EndsBroken(whole) {
      var i :| 0 <= i < |whole| && whole[i].Broken?;
      assert less[if i < |before| then i else i - 1].Broken?;
    }
    if EndsBroken(less) {
      var i :| 0 <= i < |less| && less[i].Broken?;
      assert whole[if i < |before| then i else i + 1].Broken?;
    }
  }

  lemma {:induction false} StopsSame<World, Id>(
      handler: Handler<World, Id>, world: World, before: seq<Accepted>, idle: Accepted, after: seq<Accepted>)
    requires FirstFrame(idle).Some? && IsIdle(handler, handler.parse(FirstFrame(idle).value)) && !idle.Broken?
    ensures Stops(handler, before + [idle] + after) <==> Stops(handler, before + after)
    decreases |before|
  {
    hide FirstFrame, EffectOf, Stops;
    if before == [] {
      assert before + [idle] + after == [idle] + after;
      assert before + after == after;
      FirstAccept(handler, world, idle, after);
    } else {
      assert before + [idle] + after == [before[0]] + (before[1..] + [idle] + after);
      assert before + after == [before[0]] + (before[1..] + after);
      FirstAccept(handler, world, before[0], before[1..] + [idle] + after);
      FirstAccept(handler, world, before[0], before[1..] + after);
      StopsSame(handler, world, before[1..], idle, after);
    }
  }

  /** A ping is answered with the serving identity and changes nothing. */
  lemma PingIsAnswered<World, Id>(handler: Handler<World, Id>, world: World, ping: Accepted)
    requires ping.Connection? && FirstFrame(ping).Some? && handler.parse(FirstFrame(ping).value) == Some(Ping)
    ensures EffectOf(handler, world, [ping]) == world && OutcomeOf(handler, [ping]) == Running
    ensures Replies(handler, [ping]) == if ping.writable then [Pong(handler.identity)] else []
  {
    assert [ping][1..] == [] && [ping] + [] == [ping];
    hide FirstFrame;
    FirstAccept(handler, world, ping, []);
  }

  /** Every other request of a sequence acts exactly once, in order, and gets its own answer. */
  lemma RequestActsInTurn<World, Id>(handler: Handler<World, Id>, world: World, request: Accepted, after: seq<Accepted>)
    requires request.Connection? && FirstFrame(request).Some? && handler.parse(FirstFrame(request).value) == Some(Other)
    ensures EffectOf(handler, world, [request] + after) == EffectOf(handler, handler.apply(world, FirstFrame(request).value), after)
    ensures Replies(handler, [request] + after)
         == (if request.writable then [Answer(FirstFrame(request).value)] else []) + Replies(handler, after)
  {
    FirstAccept(handler, world, request, after);
    assert ([request] + after)[1..] == after;
  }
}
