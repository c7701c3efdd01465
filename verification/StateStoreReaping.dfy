/**
That a store nobody uses gets closed.  A registered store whose count is zero is attended to: either a `Get` has just
found it again, or a releaser is on its way to look at the count once more.  This holds in every interleaving.
*/
module StateStoreReaping {
  import opened StateStore

  /** `h` has brought the count of store `id` to zero and has yet to recheck. */
  predicate Releaser(handles: Handles, id: StoreId, h: HandleId) {
    h in handles && handles[h].store == id && handles[h].phase.Rechecking?
  }

  ghost predicate AttendedTo(handles: Handles, mu: Mutex, id: StoreId) {
    (mu.Getting? && mu.store == id) || exists h :: Releaser(handles, id, h)
  }

  ghost predicate Attended(stores: Stores, active: Active, handles: Handles, mu: Mutex) {
    forall id <- stores :: Registered(stores, active, id) && stores[id].refs == 0 ==> AttendedTo(handles, mu, id)
  }

  /** Rewriting a handle that neither was nor becomes a releaser. */
  lemma RewriteAttended(stores: Stores, active: Active, handles: Handles, mu: Mutex, h: HandleId, hd: Handle)
    requires Attended(stores, active, handles, mu)
    requires forall k <- handles :: handles[k].store in stores
    requires h in handles ==> !handles[h].phase.Rechecking? || stores[handles[h].store].refs > 0
    ensures Attended(stores, active, handles[h := hd], mu)
  {
    forall id | id in stores && Registered(stores, active, id) && stores[id].refs == 0
      ensures AttendedTo(handles[h := hd], mu, id)
    {
      if k :| Releaser(handles, id, k) {
        assert Releaser(handles[h := hd], id, k);
      }
    }
  }

  /** Changing the count of one store that is then attended to or in use. */
  lemma RefsAttended(stores: Stores, active: Active, handles: Handles, mu: Mutex, id: StoreId, refs: int)
    requires Attended(stores, active, handles, mu) && id in stores
    requires refs != 0 || AttendedTo(handles, mu, id)
    ensures Attended(stores[id := stores[id].(refs := refs)], active, handles, mu)
  {
    var t := stores[id := stores[id].(refs := refs)];
    assert forall i :: Registered(t, active, i) == Registered(stores, active, i);
  }

  lemma GetAttended(s: State, a: Action)
    requires Inv(s) && Enabled(s, a) && Attended(s.stores, s.active, s.handles, s.mu)
    requires a.GetLookup? || a.GetRetain? || a.GetDropTemp?
    ensures var t := Apply(s, a); Attended(t.stores, t.active, t.handles, t.mu)
  {
    var t := Apply(s, a);
    forall id | id in t.stores && Registered(t.stores, t.active, id) && t.stores[id].refs == 0
      ensures AttendedTo(t.handles, t.mu, id)
    {
      if id in s.stores && !(t.mu.Getting? && t.mu.store == id) {
        assert Registered(s.stores, s.active, id);
        assert AttendedTo(s.handles, s.mu, id);
      }
    }
  }

  lemma ReturnAttended(s: State, h: HandleId)
    requires Inv(s) && Attended(s.stores, s.active, s.handles, s.mu)
    requires s.mu.Getting? && s.mu.retained && !s.mu.temp && h !in s.handles
    ensures Attended(s.stores, s.active, s.handles[h := Handle(s.mu.store, Open, 0)], Free)
  {
    RewriteAttended(s.stores, s.active, s.handles, s.mu, h, Handle(s.mu.store, Open, 0));
    assert s.stores[s.mu.store].refs > 0;
    var t := s.handles[h := Handle(s.mu.store, Open, 0)];
    forall id | id in s.stores && Registered(s.stores, s.active, id) && s.stores[id].refs == 0
      ensures AttendedTo(t, Free, id)
    {
      assert AttendedTo(t, s.mu, id);
    }
  }

  lemma DecrementAttended(s: State, h: HandleId)
    requires Inv(s) && Attended(s.stores, s.active, s.handles, s.mu)
    requires Enabled(s, Decrement(h))
    ensures var t := Apply(s, Decrement(h)); Attended(t.stores, t.active, t.handles, t.mu)
  {
    var id, t := s.handles[h].store, Apply(s, Decrement(h));
    RewriteAttended(s.stores, s.active, s.handles, s.mu, h, t.handles[h]);
    if t.stores[id].refs == 0 {
      assert Releaser(t.handles, id, h);
    }
    RefsAttended(s.stores, s.active, t.handles, s.mu, id, s.stores[id].refs - 1);
  }

  lemma RecheckAttended(s: State, h: HandleId)
    requires Inv(s) && Attended(s.stores, s.active, s.handles, s.mu)
    requires Enabled(s, Recheck(h))
    ensures var t := Apply(s, Recheck(h)); Attended(t.stores, t.active, t.handles, t.mu)
  {
    var id, t := s.handles[h].store, Apply(s, Recheck(h));
    if s.stores[id].refs > 0 {
      RewriteAttended(s.stores, s.active, s.handles, s.mu, h, t.handles[h]);
    } else if t.fault.NoFault? {
      UnregisterAttended(s.stores, s.active, s.handles, s.mu, h);
    }
  }

  lemma UnregisterAttended(stores: Stores, active: Active, handles: Handles, mu: Mutex, h: HandleId)
    requires Attended(stores, active, handles, mu) && h in handles && handles[h].store in stores
    ensures var ta := active - {stores[handles[h].store].name};
            Attended(stores, ta, handles[h := handles[h].(phase := Unregistered)], mu)
  {
    var ta := active - {stores[handles[h].store].name};
    var t := handles[h := handles[h].(phase := Unregistered)];
    forall i | i in stores && Registered(stores, ta, i) && stores[i].refs == 0
      ensures AttendedTo(t, mu, i)
    {
      assert Registered(stores, active, i) && i != handles[h].store;
      if k :| Releaser(handles, i, k) {
        assert Releaser(t, i, k);
      }
    }
  }

  lemma CloseAttended(s: State, h: HandleId)
    requires Inv(s) && Attended(s.stores, s.active, s.handles, s.mu)
    requires h in s.handles && s.handles[h].phase.Unregistered?
    ensures var t := CloseBackend(s, h); Attended(t.stores, t.active, t.handles, t.mu)
  {
    var t := CloseBackend(s, h);
    RewriteAttended(s.stores, s.active, s.handles, s.mu, h, t.handles[h]);
    assert forall i :: Registered(t.stores, t.active, i) == Registered(s.stores, s.active, i);
  }

  lemma AttendedKept(s: State, a: Action)
    requires Inv(s) && Enabled(s, a) && Attended(s.stores, s.active, s.handles, s.mu)
    ensures var t := Apply(s, a); Attended(t.stores, t.active, t.handles, t.mu)
  {
    match a
    case GetLookup(_, _) => GetAttended(s, a);
    case GetRetain => GetAttended(s, a);
    case GetDropTemp => GetAttended(s, a);
    case GetReturn(h) => ReturnAttended(s, h);
    case OpBegin(h) => RewriteAttended(s.stores, s.active, s.handles, s.mu, h, Apply(s, a).handles[h]);
    case OpCall(_) =>
    case OpEnd(h) => RewriteAttended(s.stores, s.active, s.handles, s.mu, h, Apply(s, a).handles[h]);
    case CloseBegin(h) => RewriteAttended(s.stores, s.active, s.handles, s.mu, h, Apply(s, a).handles[h]);
    case Decrement(h) => DecrementAttended(s, h);
    case Recheck(h) => RecheckAttended(s, h);
    case BackendClose(h) => CloseAttended(s, h);
    case RegistryClose =>
  }

  /** In every interleaving a registered store without a reference is attended to. */
  lemma {:induction false} AttendedAlongRun(s: State, acts: seq<Action>)
    requires Inv(s) && Run(s, acts) && Attended(s.stores, s.active, s.handles, s.mu)
    ensures var t := After(s, acts); Attended(t.stores, t.active, t.handles, t.mu)
    decreases |acts|
  {
    if acts != [] {
      InvKept(s, acts[0]);
      AttendedKept(s, acts[0]);
      AttendedAlongRun(Apply(s, acts[0]), acts[1..]);
    }
  }

  /** The handle has a reference to give back, or has yet to recheck. */
  predicate Needs(handles: Handles, h: HandleId) {
    h in handles && (handles[h].Holds() || handles[h].phase.Rechecking?)
  }

  /** A registered store is in the hands of a `Get` or of a handle that has yet to give it back or to recheck. */
  lemma RegisteredIsHeld(s: State, id: StoreId)
    requires Inv(s) && Attended(s.stores, s.active, s.handles, s.mu) && Registered(s.stores, s.active, id)
    ensures (s.mu.Getting? && s.mu.store == id) || exists h :: Needs(s.handles, h) && s.handles[h].store == id
  {
    if s.stores[id].refs == 0 {
      assert AttendedTo(s.handles, s.mu, id);
      if h :| Releaser(s.handles, id, h) {
        assert Needs(s.handles, h);
      }
    } else if !(s.mu.Getting? && s.mu.store == id) {
      var h :| h in Holders(s.handles, id);
      assert Needs(s.handles, h);
    }
  }

  /** As long as Registry.Close has to wait, a `Get` is running or some handle has a store to give back or to recheck. */
  lemma WaitingForSomebody(acts: seq<Action>)
    requires Run(Init, acts) && After(Init, acts).waiting > 0
    ensures var s := After(Init, acts); s.mu.Getting? || exists h :: Needs(s.handles, h)
  {
    InvAlongRun(Init, acts);
    AttendedAlongRun(Init, acts);
    var s := After(Init, acts);
    assert s.active.Keys != {};
    var n :| n in s.active;
    RegisteredIsHeld(s, s.active[n]);
  }
}
