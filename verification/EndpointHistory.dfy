/** What a binder must have seen before it binds, writes its record, and serves
    (crates/daemon/src/unix_endpoint.rs, 323-405), over whole runs. */
module EndpointHistory {
  import opened Text
  import opened UnixEndpoint
  import opened EndpointProtocol

  lemma BeforeBind(w: World, e: Event, p: Process)
    requires Enabled(w, e) && !IsForeign(e) && e.p == p && p in Apply(w, e).binders && p in w.binders
    ensures Apply(w, e).binders[p].stage.Cleared? ==>
              e == Recheck(p)
              && ((w.binders[p].stage == Prepared(None) && w.occupant == Absent)
                  || (w.binders[p].stage.Probed? && w.occupant == Socket(w.binders[p].stage.refused)
                      && RecordOf(w, p) == Complete(w.binders[p].owner, w.binders[p].stage.refused)))
    ensures Apply(w, e).binders[p].stage == Prepared(None) ==> e == Prepare(p) && w.occupant == Absent
    ensures Apply(w, e).binders[p].stage.Probed? ==> e == Probe(p)
  {
  }

  lemma BeforeRecord(w: World, e: Event, p: Process)
    requires Enabled(w, e) && !IsForeign(e) && e.p == p && p in Apply(w, e).binders && p in w.binders
    requires Apply(w, e).binders[p].stage.Guarded? && !Apply(w, e).binders[p].stage.step.Identified?
    ensures w.binders[p].stage.Guarded? && w.binders[p].stage.socket == Apply(w, e).binders[p].stage.socket
    ensures var to, from := Apply(w, e).binders[p].stage, w.binders[p].stage.step;
      match to.step
      case Checked => e == Check(p) && LockVerified(w, p) && w.occupant == Socket(to.socket)
      case Truncated => e == Truncate(p) && from.Checked?
      case Cut => e == WritePart(p) && from.Truncated?
      case Recorded =>
        e == WriteRecord(p) && (from.Truncated? || from.Cut?)
        && w.binders[p].lock in Apply(w, e).records
        && Apply(w, e).records[w.binders[p].lock] == Complete(w.binders[p].owner, to.socket)
      case Serves => e == Confirm(p) && from.Recorded? && LockVerified(w, p) && w.occupant == Socket(to.socket)
      case Identified => true
  {
  }

  /** The step with which a binder got where it is. */
  lemma {:induction false} StepBefore(worlds: seq<World>, events: seq<Event>, k: nat, p: Process) returns (m: nat)
    requires IsRun(worlds, events) && k < |worlds| && p in worlds[k].binders && !worlds[k].binders[p].stage.Opened?
    ensures m < k && Enabled(worlds[m], events[m]) && !IsForeign(events[m]) && events[m].p == p
    ensures p in worlds[m].binders && p in Apply(worlds[m], events[m]).binders
    ensures Apply(worlds[m], events[m]).binders[p] == worlds[k].binders[p]
    ensures worlds[m].binders[p].lock == worlds[k].binders[p].lock && worlds[m].binders[p].owner == worlds[k].binders[p].owner
    ensures worlds[m + 1] == Apply(worlds[m], events[m])
  {
    hide Enabled, Apply;
    m := k - 1;
    RunStep(worlds, events, m);
    if p in worlds[m].binders && worlds[m].binders[p] == worlds[k].binders[p] {
      m := StepBefore(worlds, events, m, p);
    } else {
      OnlyOwnSteps(worlds[m], events[m], p);
      OwnSteps(worlds[m], events[m], p);
    }
  }

  /** Nobody binds on less than this: either the path was empty when it was looked at under
      the lock, and again right before; or a socket was there that refused the connection and
      that the record named for this owner, then and right before. */
  lemma BindIsCleared(worlds: seq<World>, events: seq<Event>, k: nat, p: Process)
      returns (looked: nat, rechecked: nat)
    requires IsRun(worlds, events) && k < |events| && events[k] == BindSocket(p)
    ensures looked < rechecked < k && events[rechecked] == Recheck(p) && p in worlds[rechecked].binders
    ensures if worlds[rechecked].occupant == Absent then events[looked] == Prepare(p) && worlds[looked].occupant == Absent
            else events[looked] == Probe(p) && worlds[rechecked].occupant.Socket?
                 && RecordOf(worlds[rechecked], p) == Complete(worlds[rechecked].binders[p].owner, worlds[rechecked].occupant.id)
  {
    hide Apply, Init, RecordOf;
    RunStep(worlds, events, k);
    hide Enabled;
    rechecked := StepBefore(worlds, events, k, p);
    BeforeBind(worlds[rechecked], events[rechecked], p);
    looked := StepBefore(worlds, events, rechecked, p);
    BeforeBind(worlds[looked], events[looked], p);
  }

  lemma {:induction false} CheckedAt(worlds: seq<World>, events: seq<Event>, k: nat, p: Process) returns (checked: nat)
    requires IsRun(worlds, events) && k < |worlds| && p in worlds[k].binders && worlds[k].binders[p].stage.Guarded?
    requires !worlds[k].binders[p].stage.step.Identified?
    ensures checked < k && events[checked] == Check(p) && worlds[checked].occupant == Socket(worlds[k].binders[p].stage.socket)
    ensures p in worlds[checked].binders && worlds[checked].lockName == Some(worlds[k].binders[p].lock)
  {
    hide Enabled, Apply, Init;
    checked := StepBefore(worlds, events, k, p);
    BeforeRecord(worlds[checked], events[checked], p);
    if !worlds[k].binders[p].stage.step.Checked? { checked := CheckedAt(worlds, events, checked, p); }
  }

  /** The record is touched only after the socket it is to name was seen at the path, under
      the lock file that is still in place. */
  lemma RecordIsOfVerified(worlds: seq<World>, events: seq<Event>, k: nat, p: Process) returns (checked: nat)
    requires IsRun(worlds, events) && k < |events|
    requires events[k] == Truncate(p) || events[k] == WritePart(p) || events[k] == WriteRecord(p)
    ensures p in worlds[k].binders && worlds[k].binders[p].stage.Guarded?
    ensures checked < k && events[checked] == Check(p) && worlds[checked].occupant == Socket(worlds[k].binders[p].stage.socket)
    ensures worlds[checked].lockName == Some(worlds[k].binders[p].lock)
  {
    hide Apply, Init;
    RunStep(worlds, events, k);
    hide Enabled;
    checked := CheckedAt(worlds, events, k, p);
  }

  /** A binder serves only after it has written the record of its socket whole, and has seen
      that socket at the path once more. */
  lemma ServingIsConfirmed(worlds: seq<World>, events: seq<Event>, k: nat, p: Process) returns (written: nat, confirmed: nat)
    requires IsRun(worlds, events) && k < |worlds| && AtStep(worlds[k], p, Serves)
    ensures var binder := worlds[k].binders[p];
      && written < confirmed < k && events[written] == WriteRecord(p) && events[confirmed] == Confirm(p)
      && binder.lock in worlds[written + 1].records
      && worlds[written + 1].records[binder.lock] == Complete(binder.owner, binder.stage.socket)
      && worlds[confirmed].occupant == Socket(binder.stage.socket) && worlds[confirmed].lockName == Some(binder.lock)
  {
    hide Enabled, Apply, Init;
    confirmed := StepBefore(worlds, events, k, p);
    BeforeRecord(worlds[confirmed], events[confirmed], p);
    written := StepBefore(worlds, events, confirmed, p);
    BeforeRecord(worlds[written], events[written], p);
  }
}
