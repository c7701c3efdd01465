/**
No run gets stuck.  From every state that a hazard-free run reaches, the `Get` in progress and the closing of all
handles can be finished without a hazard; then every store has been closed exactly once.
*/
module StateStoreDraining {
  import opened StateStore
  import opened StateStoreReaping
  import opened StateStoreClose

  /** The steps a handle still has to take until it is closed. */
  function Weight(hd: Handle): nat {
    match hd.phase
    case Open => 4 + hd.ops
    case Closing => 3 + hd.ops
    case Rechecking => 2
    case Unregistered => 1
    case Closed => 0
  }

  /** The steps of the handles below `n`. */
  function Load(handles: Handles, n: nat): nat {
    if n == 0 then 0 else Load(handles, n - 1) + if n - 1 in handles then Weight(handles[n - 1]) else 0
  }

  lemma {:induction false} LoadUpdate(handles: Handles, n: nat, h: HandleId, hd: Handle)
    requires h in handles
    ensures Load(handles[h := hd], n) == Load(handles, n) + if h < n then Weight(hd) - Weight(handles[h]) else 0
  {
    if n > 0 {
      LoadUpdate(handles, n - 1, h, hd);
    }
  }

  lemma {:induction false} IdsBelow(ids: set<nat>) returns (n: nat)
    ensures forall h <- ids :: h < n
    decreases ids
  {
    n := 0;
    if ids != {} {
      var h :| h in ids;
      var m := IdsBelow(ids - {h});
      n := if h < m then m else h + 1;
      assert forall k <- ids :: k == h || k in ids - {h};
    }
  }

  /** What a hazard-free run is in after each step. */
  ghost predicate Sane(s: State) {
    Inv(s) && Orderly(s) && s.fault.NoFault? && Attended(s.stores, s.active, s.handles, s.mu)
  }

  lemma SaneStep(s: State, a: Action)
    requires Sane(s) && Enabled(s, a) && !Hazard(s, a)
    ensures Sane(Apply(s, a))
  {
    InvKept(s, a);
    OrderlyKept(s, a);
    AttendedKept(s, a);
  }

  /** A handle that is not closed has a step to take, and no releaser waits behind another one. */
  function NextOf(hd: Handle, h: HandleId): Action {
    match hd.phase
    case Open => if hd.ops > 0 then OpEnd(h) else CloseBegin(h)
    case Closing => if hd.ops > 0 then OpEnd(h) else Decrement(h)
    case Rechecking => Recheck(h)
    case Unregistered => BackendClose(h)
    case Closed => OpBegin(h)
  }

  lemma NextIsEnabled(s: State, h: HandleId)
    requires HandlesOk(s.stores, s.handles) && s.fault.NoFault?
    requires s.mu.Free? && h in s.handles && !s.handles[h].phase.Closed?
    ensures Enabled(s, NextOf(s.handles[h], h))
  {
  }

  /** From `s` to `t` handle `h` has taken a step and no other handle has changed. */
  ghost predicate Lighter(s: State, t: State, h: HandleId) {
    && t.mu.Free? && h in s.handles && h in t.handles
    && t.handles == s.handles[h := t.handles[h]]
    && Weight(t.handles[h]) < Weight(s.handles[h])
  }

  lemma EarlyIsLighter(s: State, h: HandleId)
    requires s.mu.Free? && h in s.handles && (s.handles[h].phase.Open? || s.handles[h].phase.Closing?)
    requires Enabled(s, NextOf(s.handles[h], h))
    ensures Lighter(s, Apply(s, NextOf(s.handles[h], h)), h)
  {
    if s.handles[h].ops == 0 && s.handles[h].phase.Closing? {
      DecrementIsLighter(s, h);
    }
  }

  lemma DecrementIsLighter(s: State, h: HandleId)
    requires s.mu.Free? && Enabled(s, Decrement(h))
    ensures Lighter(s, Apply(s, Decrement(h)), h)
  {
  }

  lemma RecheckIsLighter(s: State, h: HandleId)
    requires s.mu.Free? && Enabled(s, Recheck(h)) && Apply(s, Recheck(h)).fault.NoFault?
    ensures Lighter(s, Apply(s, Recheck(h)), h)
  {
    var t := Apply(s, Recheck(h));
    assert t.handles[h] == s.handles[h].(phase := Closed) || t.handles[h] == s.handles[h].(phase := Unregistered);
  }

  lemma CloseIsLighter(s: State, h: HandleId)
    requires s.mu.Free? && Enabled(s, BackendClose(h))
    ensures Lighter(s, Apply(s, BackendClose(h)), h)
  {
  }

  lemma NextIsLighter(s: State, h: HandleId)
    requires s.mu.Free? && h in s.handles && !s.handles[h].phase.Closed?
    requires Enabled(s, NextOf(s.handles[h], h)) && Apply(s, NextOf(s.handles[h], h)).fault.NoFault?
    ensures Lighter(s, Apply(s, NextOf(s.handles[h], h)), h)
  {
    match s.handles[h].phase
    case Open => EarlyIsLighter(s, h);
    case Closing => EarlyIsLighter(s, h);
    case Rechecking => RecheckIsLighter(s, h);
    case Unregistered => CloseIsLighter(s, h);
  }

  /** Somebody about to recheck goes first, so that no decrement is a hazard. */
  lemma Chosen(s: State) returns (h: HandleId)
    requires Sane(s) && s.mu.Free? && !Quiet(s)
    ensures h in s.handles && !s.handles[h].phase.Closed? && Enabled(s, NextOf(s.handles[h], h))
    ensures !Hazard(s, NextOf(s.handles[h], h))
  {
    h :| h in s.handles && !s.handles[h].phase.Closed?;
    if k :| k in s.handles && s.handles[k].phase.Rechecking? {
      h := k;
    }
    NextIsEnabled(s, h);
  }

  /** One step of the draining. */
  lemma DrainStep(s: State, n: nat) returns (a: Action)
    requires Sane(s) && s.mu.Free? && !Quiet(s) && forall h <- s.handles :: h < n
    ensures Enabled(s, a) && !Hazard(s, a)
    ensures var u := Apply(s, a);
            Sane(u) && u.mu.Free? && Load(u.handles, n) < Load(s.handles, n) && forall h <- u.handles :: h < n
  {
    var h := Chosen(s);
    a := NextOf(s.handles[h], h);
    SaneStep(s, a);
    NextIsLighter(s, h);
    LoadUpdate(s.handles, n, h, Apply(s, a).handles[h]);
  }

  lemma {:induction false} DrainsFrom(s: State, n: nat) returns (t: State)
    requires Sane(s) && s.mu.Free? && forall h <- s.handles :: h < n
    ensures Reaches(s, t) && Sane(t) && Quiet(t)
    decreases Load(s.handles, n)
  {
    if Quiet(s) {
      t := s;
      ReachesSelf(s);
      return;
    }
    var a := DrainStep(s, n);
    t := DrainsFrom(Apply(s, a), n);
    ReachesVia(s, a, Apply(s, a), t);
  }

  /** The `Get` in progress is finished first. */
  lemma {:induction false} FinishesGet(s: State) returns (t: State)
    requires Sane(s)
    ensures Reaches(s, t) && Sane(t) && Quiet(t)
    decreases s.mu.Getting?, s.mu.Getting? && !s.mu.retained, s.mu.Getting? && s.mu.temp
  {
    if s.mu.Free? {
      var n := IdsBelow(s.handles.Keys);
      t := DrainsFrom(s, n);
      return;
    }
    var a: Action;
    if !s.mu.retained {
      a := GetRetain;
    } else if s.mu.temp {
      a := GetDropTemp;
    } else {
      var n := UnusedId(s.handles);
      a := GetReturn(n);
    }
    SaneStep(s, a);
    t := FinishesGet(Apply(s, a));
    ReachesVia(s, a, Apply(s, a), t);
  }

  /** Every hazard-free run can go on, without a hazard, to where all handles and every backend have been closed. */
  lemma EveryRunCanDrain(acts: seq<Action>) returns (t: State)
    requires Run(Init, acts) && HazardFree(Init, acts)
    ensures Reaches(After(Init, acts), t) && Quiet(t) && BackendsClosed(t) && t.waiting == 0
  {
    OrderlyAlongRun(Init, acts);
    AttendedAlongRun(Init, acts);
    t := FinishesGet(After(Init, acts));
    QuietMeansClosed(t);
  }
}
