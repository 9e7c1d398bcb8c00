/** Stretches of runs of the managed service protocol, given by their events. */
module ServiceRuns {
  import opened ServiceLifecycle
  import opened ServiceInvariants

  ghost predicate Leads(from: World, events: seq<Event>, to: World)
    decreases |events|
  {
    if events == [] then from == to
    else Enabled(from, events[0]) && Leads(Apply(from, events[0]), events[1..], to)
  }

  lemma {:induction false} LeadsOn(from: World, events: seq<Event>, via: World, more: seq<Event>, to: World)
    requires Leads(from, events, via) && Leads(via, more, to)
    ensures Leads(from, events + more, to)
    decreases |events|
  {
    hide Enabled, Apply;
    if events == [] {
      assert events + more == more;
    } else {
      LeadsOn(Apply(from, events[0]), events[1..], via, more, to);
      assert (events + more)[1..] == events[1..] + more;
    }
  }

  lemma OneStep(from: World, e: Event)
    requires Enabled(from, e)
    ensures Leads(from, [e], Apply(from, e))
  {
  }

  lemma LeadsNowhere(w: World)
    ensures Leads(w, [], w)
  {
  }

  lemma Then(from: World, events: seq<Event>, via: World, e: Event) returns (more: seq<Event>, to: World)
    requires Leads(from, events, via) && Inv(via) && Enabled(via, e)
    ensures to == Apply(via, e) && Inv(to) && Leads(from, more, to) && more == events + [e]
  {
    hide Enabled, Apply, Inv;
    to := Apply(via, e);
    OneStep(via, e);
    StepKeepsInv(via, e);
    LeadsOn(from, events, via, [e], to);
    more := events + [e];
  }

  /** The locks after a step of h: h has what it now holds, everybody else what they had. */
  ghost predicate LocksAfter(w: World, w': World, h: Holder)
  {
    && (forall key :: key in w'.locks <==> key in Held(w', h) || (key in w.locks && w.locks[key] != h))
    && (forall key :: key in w.locks && w.locks[key] != h ==> key in w'.locks && w'.locks[key] == w.locks[key])
  }

  lemma LocksChange(w: World, w': World, h: Holder)
    requires Inv(w) && Inv(w') && forall g :: g != h ==> Held(w', g) == Held(w, g)
    ensures LocksAfter(w, w', h)
  {
    hide Held, PidInv, FileInv, ChildInv, PcInv;
    forall key ensures key in w'.locks <==> key in Held(w', h) || (key in w.locks && w.locks[key] != h) {
      if key in w'.locks { assert Holds(w'.locks, key, w'.locks[key]); }
      if key in w.locks { assert Holds(w.locks, key, w.locks[key]); }
      if key in Held(w', h) { assert Holds(w'.locks, key, h); }
      if key in w.locks && w.locks[key] != h { assert Holds(w'.locks, key, w.locks[key]); }
    }
    forall key | key in w.locks && w.locks[key] != h ensures key in w'.locks && w'.locks[key] == w.locks[key] {
      assert Holds(w.locks, key, w.locks[key]);
      assert Holds(w'.locks, key, w.locks[key]);
    }
  }

  /** An act that spawns nothing and touches no child changes the caller's place only. */
  lemma ThenActs(from: World, events: seq<Event>, via: World, p: Process, act: Act) returns (more: seq<Event>, to: World)
    requires Leads(from, events, via) && Inv(via) && p in via.callers && CanAct(via, via.callers[p], act)
    requires !act.Spawn? && EffectOf(via, via.callers[p], act).NoEffect?
    ensures Inv(to) && Leads(from, more, to) && more == events + [CallerStep(p, act)] && LocksAfter(via, to, User(p))
    ensures to.callers == via.callers[p := via.callers[p].(pc := NextPc(via, via.callers[p], act))]
    ensures to.children == via.children && to.next == via.next && to.files == FilesAfter(via, via.callers[p], act)
  {
    hide Leads, Inv, NextPc, CanAct, FilesAfter, HeldByCaller, HeldByChild, Relock, EffectOf;
    more, to := Then(from, events, via, CallerStep(p, act));
    LocksChange(via, to, User(p));
  }

  lemma ThenMoves(from: World, events: seq<Event>, via: World, c: Process, phase: Phase) returns (more: seq<Event>, to: World)
    requires Leads(from, events, via) && Inv(via) && c in via.children && Enabled(via, ChildStep(c, phase))
    ensures to == Apply(via, ChildStep(c, phase)) && Inv(to) && Leads(from, more, to) && more == events + [ChildStep(c, phase)]
    ensures to.callers == via.callers && to.files == via.files && to.next == via.next && LocksAfter(via, to, Kid(c))
    ensures to.children == via.children[c := MovedTo(via.children[c], phase)]
  {
    hide Leads, Inv, HeldByCaller, HeldByChild, Relock, CanTake, Moves;
    more, to := Then(from, events, via, ChildStep(c, phase));
    LocksChange(via, to, Kid(c));
  }

  lemma FreeKey(w: World, key: Key)
    requires LockInv(w) && forall h :: key !in Held(w, h)
    ensures key !in w.locks
  {
    if key in w.locks { assert Holds(w.locks, key, w.locks[key]); }
  }

  lemma {:induction false} Trace(from: World, events: seq<Event>, to: World) returns (worlds: seq<World>)
    requires Leads(from, events, to)
    ensures |worlds| == |events| + 1 && worlds[0] == from && worlds[|events|] == to
    ensures forall k :: 0 <= k < |events| ==> Enabled(worlds[k], events[k]) && worlds[k + 1] == Apply(worlds[k], events[k])
    decreases |events|
  {
    hide Enabled, Apply;
    if events == [] {
      worlds := [from];
    } else {
      var rest := Trace(Apply(from, events[0]), events[1..], to);
      worlds := [from] + rest;
      forall k | 0 <= k < |events|
        ensures Enabled(worlds[k], events[k]) && worlds[k + 1] == Apply(worlds[k], events[k])
      {
        if k > 0 { assert worlds[k] == rest[k - 1] && events[k] == events[1..][k - 1]; }
      }
    }
  }
}
