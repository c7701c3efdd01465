/**
When a shared store is closed exactly once.

Two releasers can both stand between their decrement to zero and their recheck: the first decrements to zero, a `Get`
retains the store again, and the second decrements to zero too.  Whoever rechecks second then finds the name gone.
`Hazard` is the guard of that second decrement.  Runs without a hazard close every store exactly once; from every
first hazard some continuation panics.
*/
module StateStoreClose {
  import opened StateStore
  import opened StateStoreReaping

  /** A decrement to zero while another releaser of the same store has not rechecked yet. */
  ghost predicate Hazard(s: State, a: Action)
    requires Enabled(s, a)
  {
    a.Decrement? &&
    var id := s.handles[a.handle].store;
    s.stores[id].refs == 1 && exists h <- s.handles :: s.handles[h].store == id && s.handles[h].phase.Rechecking?
  }

  ghost predicate HazardFree(s: State, acts: seq<Action>)
    requires Run(s, acts)
    decreases |acts|
  {
    acts == [] || (!Hazard(s, acts[0]) && HazardFree(Apply(s, acts[0]), acts[1..]))
  }

  /** At most one releaser of a store is about to recheck, and at most one is about to close the backend. */
  ghost predicate OneReleaser(handles: Handles) {
    forall h <- handles, k <- handles ::
      handles[h].store == handles[k].store && handles[h].phase == handles[k].phase
      && (handles[h].phase.Rechecking? || handles[h].phase.Unregistered?)
      ==> h == k
  }

  ghost predicate NeedsMet(stores: Stores, active: Active, handles: Handles) {
    forall h <- handles :: Needs(handles, h) ==> Registered(stores, active, handles[h].store)
  }

  /** `h` is about to close the backend of store `id`. */
  predicate Closer(handles: Handles, id: StoreId, h: HandleId) {
    h in handles && handles[h].store == id && handles[h].phase.Unregistered?
  }

  /** The three stages of a store: registered, unregistered with one releaser about to close it, closed once. */
  ghost predicate StageOk(stores: Stores, active: Active, handles: Handles, id: StoreId)
    requires id in stores
  {
    && stores[id].closes <= 1
    && (Registered(stores, active, id) || stores[id].closes == 1 || exists h :: Closer(handles, id, h))
    && (forall h :: Closer(handles, id, h) ==> stores[id].closes == 0)
  }

  ghost predicate Stages(stores: Stores, active: Active, handles: Handles) {
    forall id <- stores :: StageOk(stores, active, handles, id)
  }

  /** What hazard-free runs keep on top of `Inv`. */
  ghost predicate Orderly(s: State) {
    && OneReleaser(s.handles)
    && NeedsMet(s.stores, s.active, s.handles)
    && Stages(s.stores, s.active, s.handles)
  }

  // ---------- hazard-free steps keep the order ----------

  /** A handle rewritten so that it comes to need nothing new. */
  lemma QuietHandle(stores: Stores, active: Active, handles: Handles, h: HandleId, hd: Handle)
    requires OneReleaser(handles) && NeedsMet(stores, active, handles) && Stages(stores, active, handles)
    requires hd.phase.Unregistered? <==> h in handles && handles[h].phase.Unregistered?
    requires hd.phase.Rechecking? || hd.phase.Unregistered? ==>
               h in handles && hd.phase == handles[h].phase && hd.store == handles[h].store
    requires hd.Holds() ==> Registered(stores, active, hd.store)
    ensures var t := handles[h := hd]; OneReleaser(t) && NeedsMet(stores, active, t) && Stages(stores, active, t)
  {
    var t := handles[h := hd];
    forall id | id in stores ensures StageOk(stores, active, t, id) {
      assert StageOk(stores, active, handles, id);
      assert forall k :: Closer(t, id, k) == Closer(handles, id, k);
    }
  }

  /** Stores whose counts change but whose names and closes do not. */
  lemma QuietStores(stores: Stores, t: Stores, active: Active, handles: Handles)
    requires NeedsMet(stores, active, handles) && Stages(stores, active, handles)
    requires t.Keys == stores.Keys
    requires forall id <- t :: t[id].name == stores[id].name && t[id].closes == stores[id].closes
    ensures NeedsMet(t, active, handles) && Stages(t, active, handles)
  {
    assert forall id :: Registered(t, active, id) == Registered(stores, active, id);
    forall id | id in t ensures StageOk(t, active, handles, id) {
      assert StageOk(stores, active, handles, id);
    }
  }

  lemma CreateOrderly(s: State, name: Name, id: StoreId)
    requires Orderly(s) && name !in s.active && id !in s.stores
    ensures Orderly(Create(s, name, id))
  {
    var t := Create(s, name, id);
    assert forall i :: Registered(s.stores, s.active, i) ==> Registered(t.stores, t.active, i);
    forall i | i in t.stores ensures StageOk(t.stores, t.active, t.handles, i) {
      assert i in s.stores ==> StageOk(s.stores, s.active, s.handles, i);
    }
  }

  /** The decrement to zero, when no other releaser is on its way to the recheck. */
  lemma RecheckingOrderly(stores: Stores, active: Active, handles: Handles, h: HandleId)
    requires OneReleaser(handles) && NeedsMet(stores, active, handles) && Stages(stores, active, handles)
    requires h in handles && handles[h].Holds()
    requires forall k <- handles :: handles[k].store == handles[h].store ==> !handles[k].phase.Rechecking?
    ensures var t := handles[h := handles[h].(phase := Rechecking)];
            OneReleaser(t) && NeedsMet(stores, active, t) && Stages(stores, active, t)
  {
    var t := handles[h := handles[h].(phase := Rechecking)];
    forall i | i in stores ensures StageOk(stores, active, t, i) {
      assert StageOk(stores, active, handles, i);
      assert forall k :: Closer(t, i, k) == Closer(handles, i, k);
    }
  }

  /** Only the store that is unregistered loses its name. */
  lemma UnregisterFrame(stores: Stores, active: Active, id: StoreId, i: StoreId)
    requires Registered(stores, active, id)
    ensures Registered(stores, active - {stores[id].name}, i) == (i != id && Registered(stores, active, i))
  {
  }

  lemma UnregisterOneReleaser(stores: Stores, active: Active, handles: Handles, h: HandleId)
    requires OneReleaser(handles) && ClosersOk(stores, active, handles)
    requires h in handles && handles[h].phase.Rechecking? && Registered(stores, active, handles[h].store)
    ensures OneReleaser(handles[h := handles[h].(phase := Unregistered)])
  {
  }

  lemma UnregisterNeeds(stores: Stores, active: Active, handles: Handles, h: HandleId)
    requires OneReleaser(handles) && NeedsMet(stores, active, handles)
    requires h in handles && handles[h].phase.Rechecking? && handles[h].store in stores
    requires Holders(handles, handles[h].store) == {}
    ensures NeedsMet(stores, active - {stores[handles[h].store].name}, handles[h := handles[h].(phase := Unregistered)])
  {
    var t := handles[h := handles[h].(phase := Unregistered)];
    forall k | k in t && Needs(t, k)
      ensures Registered(stores, active - {stores[handles[h].store].name}, t[k].store)
    {
      assert k != h && Needs(handles, k);
      assert k !in Holders(handles, handles[h].store);
      UnregisterFrame(stores, active, handles[h].store, handles[k].store);
    }
  }

  lemma UnregisterStages(stores: Stores, active: Active, handles: Handles, h: HandleId)
    requires Stages(stores, active, handles) && ClosedOk(stores, active)
    requires h in handles && Registered(stores, active, handles[h].store) && !handles[h].phase.Unregistered?
    ensures Stages(stores, active - {stores[handles[h].store].name}, handles[h := handles[h].(phase := Unregistered)])
  {
    var id := handles[h].store;
    var t := handles[h := handles[h].(phase := Unregistered)];
    forall i | i in stores ensures StageOk(stores, active - {stores[id].name}, t, i) {
      assert StageOk(stores, active, handles, i);
      UnregisterFrame(stores, active, id, i);
      assert Closer(t, id, h);
      assert forall k :: Closer(t, i, k) == (Closer(handles, i, k) || (i == id && k == h));
    }
  }

  lemma UnregisterOrderly(s: State, h: HandleId)
    requires Inv(s) && Orderly(s) && s.mu.Free? && h in s.handles && s.handles[h].phase.Rechecking?
    requires s.stores[s.handles[h].store].refs <= 0
    ensures s.stores[s.handles[h].store].name in s.active
    ensures Orderly(Unregister(s, h, s.stores[s.handles[h].store].name))
  {
    assert Needs(s.handles, h);
    UnregisterOneReleaser(s.stores, s.active, s.handles, h);
    UnregisterNeeds(s.stores, s.active, s.handles, h);
    UnregisterStages(s.stores, s.active, s.handles, h);
  }

  lemma CloseBackendOrderly(s: State, h: HandleId)
    requires HandlesOk(s.stores, s.handles) && Orderly(s) && h in s.handles && s.handles[h].phase.Unregistered?
    ensures Orderly(CloseBackend(s, h))
  {
    var t := CloseBackend(s, h);
    CloseBackendStages(s.stores, s.active, s.handles, h);
    assert forall i :: Registered(t.stores, t.active, i) == Registered(s.stores, s.active, i);
  }

  lemma CloseBackendStages(stores: Stores, active: Active, handles: Handles, h: HandleId)
    requires Stages(stores, active, handles) && OneReleaser(handles)
    requires h in handles && handles[h].phase.Unregistered? && handles[h].store in stores
    ensures var id := handles[h].store;
            Stages(stores[id := stores[id].(closes := stores[id].closes + 1)], active,
                   handles[h := handles[h].(phase := Closed)])
  {
    var id := handles[h].store;
    var ts, th := stores[id := stores[id].(closes := stores[id].closes + 1)], handles[h := handles[h].(phase := Closed)];
    forall i | i in ts ensures StageOk(ts, active, th, i) {
      assert StageOk(stores, active, handles, i);
      assert Closer(handles, id, h);
      assert forall k :: Closer(th, i, k) == (Closer(handles, i, k) && k != h);
    }
  }

  lemma GetOrderly(s: State, a: Action)
    requires Inv(s) && Orderly(s) && Enabled(s, a)
    requires a.GetLookup? || a.GetRetain? || a.GetDropTemp? || a.GetReturn?
    ensures Orderly(Apply(s, a))
  {
    var t := Apply(s, a);
    match a
    case GetLookup(name, id) => if name !in s.active { CreateOrderly(s, name, id); }
    case GetRetain => QuietStores(s.stores, t.stores, s.active, s.handles);
    case GetDropTemp => QuietStores(s.stores, t.stores, s.active, s.handles);
    case GetReturn(h) => QuietHandle(s.stores, s.active, s.handles, h, Handle(s.mu.store, Open, 0));
  }

  lemma OpOrderly(s: State, a: Action)
    requires Inv(s) && Orderly(s) && Enabled(s, a)
    requires a.OpBegin? || a.OpCall? || a.OpEnd? || a.CloseBegin? || a.RegistryClose?
    ensures Orderly(Apply(s, a)) && Apply(s, a).fault.NoFault?
  {
    if !a.OpCall? && !a.RegistryClose? {
      assert Needs(s.handles, a.handle);
      QuietHandle(s.stores, s.active, s.handles, a.handle, Apply(s, a).handles[a.handle]);
    }
  }

  lemma DecrementOrderly(s: State, a: Action)
    requires HandlesOk(s.stores, s.handles) && Orderly(s) && Enabled(s, a) && !Hazard(s, a) && a.Decrement?
    ensures Orderly(Apply(s, a))
  {
    var h, t := a.handle, Apply(s, a);
    QuietStores(s.stores, t.stores, s.active, s.handles);
    if s.stores[s.handles[h].store].refs == 1 {
      RecheckingOrderly(t.stores, s.active, s.handles, h);
    } else {
      QuietHandle(t.stores, s.active, s.handles, h, t.handles[h]);
    }
  }

  lemma RecheckResult(s: State, h: HandleId)
    requires Enabled(s, Recheck(h))
    ensures var sh := s.stores[s.handles[h].store];
            && (sh.refs > 0 ==> Apply(s, Recheck(h)) == WithPhase(s, h, Closed))
            && (sh.refs <= 0 && sh.name in s.active && s.waiting > 0 ==>
                  Apply(s, Recheck(h)) == Unregister(s, h, sh.name))
  {
  }

  lemma FoundInUseOrderly(s: State, h: HandleId)
    requires Orderly(s) && h in s.handles && s.handles[h].phase.Rechecking?
    ensures Orderly(WithPhase(s, h, Closed))
  {
    QuietHandle(s.stores, s.active, s.handles, h, s.handles[h].(phase := Closed));
  }

  lemma RecheckOrderly(s: State, a: Action)
    requires Inv(s) && Orderly(s) && Enabled(s, a) && a.Recheck?
    ensures Orderly(Apply(s, a)) && Apply(s, a).fault.NoFault?
  {
    RecheckResult(s, a.handle);
    if s.stores[s.handles[a.handle].store].refs > 0 {
      FoundInUseOrderly(s, a.handle);
    } else {
      UnregisterOrderly(s, a.handle);
      UnregisterKeeps(s, a.handle);
    }
  }

  lemma OrderlyKept(s: State, a: Action)
    requires Inv(s) && Orderly(s) && Enabled(s, a) && !Hazard(s, a)
    ensures Orderly(Apply(s, a)) && Apply(s, a).fault.NoFault?
  {
    InvKept(s, a);
    match a
    case GetLookup(_, _) => GetOrderly(s, a);
    case GetRetain => GetOrderly(s, a);
    case GetDropTemp => GetOrderly(s, a);
    case GetReturn(_) => GetOrderly(s, a);
    case Decrement(_) => DecrementOrderly(s, a);
    case Recheck(_) => RecheckOrderly(s, a);
    case BackendClose(h) => CloseBackendOrderly(s, h);
    case _ => OpOrderly(s, a);
  }

  lemma {:induction false} OrderlyAlongRun(s: State, acts: seq<Action>)
    requires Inv(s) && Orderly(s) && s.fault.NoFault? && Run(s, acts) && HazardFree(s, acts)
    ensures var t := After(s, acts); Inv(t) && Orderly(t) && t.fault.NoFault?
    decreases |acts|
  {
    if acts != [] {
      InvKept(s, acts[0]);
      OrderlyKept(s, acts[0]);
      OrderlyAlongRun(Apply(s, acts[0]), acts[1..]);
    }
  }

  /** No `Get` is running and every handle has been closed. */
  predicate Quiet(s: State) {
    s.mu.Free? && forall h <- s.handles :: s.handles[h].phase.Closed?
  }

  /**
  Hazard-free runs: no panic; every store is closed at most once, and once all handles have been closed every store has
  been; a store with an open handle is registered; a store that is not registered has been closed once or has exactly
  one releaser about to close it; the wait group counts the registered stores.
  */
  lemma ClosedExactlyOnce(acts: seq<Action>)
    requires Run(Init, acts) && HazardFree(Init, acts)
    ensures var s := After(Init, acts);
            && s.fault.NoFault?
            && s.waiting == |s.active|
            && OneReleaser(s.handles) && NeedsMet(s.stores, s.active, s.handles)
            && (forall id <- s.stores :: s.stores[id].closes <= 1)
            && (forall id <- s.stores :: !Registered(s.stores, s.active, id) <==>
                  s.stores[id].closes == 1 || exists h :: Closer(s.handles, id, h))
            && (Quiet(s) ==> BackendsClosed(s) && s.waiting == 0)
  {
    OrderlyAlongRun(Init, acts);
    AttendedAlongRun(Init, acts);
    var s := After(Init, acts);
    if Quiet(s) { QuietMeansClosed(s); }
    StagesTell(s);
  }

  lemma StagesTell(s: State)
    requires Stages(s.stores, s.active, s.handles)
    requires ClosedOk(s.stores, s.active) && ClosersOk(s.stores, s.active, s.handles)
    ensures forall id <- s.stores :: s.stores[id].closes <= 1
    ensures forall id <- s.stores :: !Registered(s.stores, s.active, id) <==>
              s.stores[id].closes == 1 || exists h :: Closer(s.handles, id, h)
  {
    forall id | id in s.stores
      ensures s.stores[id].closes <= 1
      ensures !Registered(s.stores, s.active, id) <==>
                s.stores[id].closes == 1 || exists h :: Closer(s.handles, id, h)
    {
      assert StageOk(s.stores, s.active, s.handles, id);
    }
  }

  lemma UnregisteredIsClosed(stores: Stores, active: Active, handles: Handles)
    requires Stages(stores, active, handles) && forall h <- handles :: !handles[h].phase.Unregistered?
    requires forall id <- stores :: !Registered(stores, active, id)
    ensures forall id <- stores :: stores[id].closes == 1
  {
    forall id | id in stores ensures stores[id].closes == 1 {
      assert StageOk(stores, active, handles, id);
    }
  }

  lemma QuietMeansClosed(s: State)
    requires Inv(s) && Orderly(s) && Attended(s.stores, s.active, s.handles, s.mu) && Quiet(s)
    ensures BackendsClosed(s) && s.active == map[] && s.waiting == 0
  {
    forall id | id in s.stores ensures !Registered(s.stores, s.active, id) {
      if Registered(s.stores, s.active, id) { RegisteredIsHeld(s, id); }
    }
    UnregisteredIsClosed(s.stores, s.active, s.handles);
    assert s.active.Keys == {};
  }

  /**
  Registry.Close returns from its wait only when no handle holds or may still unregister a store.  It does not wait for
  the backends: all of them have been closed exactly when nobody is between tryUnregister and backend.Close.
  */
  lemma WhenRegistryMayClose(acts: seq<Action>)
    requires Run(Init, acts) && HazardFree(Init, acts) && After(Init, acts).waiting == 0
    ensures var s := After(Init, acts);
            && s.active == map[]
            && (forall h <- s.handles :: s.handles[h].phase.Unregistered? || s.handles[h].phase.Closed?)
            && (BackendsClosed(s) <==> forall h <- s.handles :: !s.handles[h].phase.Unregistered?)
  {
    OrderlyAlongRun(Init, acts);
    WhenNobodyWaits(After(Init, acts));
  }

  predicate BackendsClosed(s: State) {
    forall id <- s.stores :: s.stores[id].closes == 1
  }

  lemma WhenNobodyWaits(s: State)
    requires ActiveOk(s.stores, s.active, s.waiting) && HandlesOk(s.stores, s.handles) && Orderly(s) && s.waiting == 0
    ensures s.active == map[]
    ensures forall h <- s.handles :: s.handles[h].phase.Unregistered? || s.handles[h].phase.Closed?
    ensures BackendsClosed(s) <==> forall h <- s.handles :: !s.handles[h].phase.Unregistered?
  {
    assert s.active.Keys == {};
    forall h | h in s.handles
      ensures s.handles[h].phase.Unregistered? || s.handles[h].phase.Closed?
      ensures s.handles[h].phase.Unregistered? ==> s.stores[s.handles[h].store].closes == 0
    {
      assert !Needs(s.handles, h);
      assert StageOk(s.stores, s.active, s.handles, s.handles[h].store);
      assert s.handles[h].phase.Unregistered? ==> Closer(s.handles, s.handles[h].store, h);
    }
    forall id | id in s.stores && s.stores[id].closes != 1
      ensures exists h <- s.handles :: s.handles[h].phase.Unregistered?
    {
      assert StageOk(s.stores, s.active, s.handles, id);
      var h :| Closer(s.handles, id, h);
    }
  }

  // ---------- every first hazard can panic ----------

  ghost predicate CanPanic(s: State) {
    exists acts :: Run(s, acts) && After(s, acts).fault.UnknownStore?
  }

  lemma PanicAfter(s: State, a: Action)
    requires Enabled(s, a) && CanPanic(Apply(s, a))
    ensures CanPanic(s)
  {
    var acts :| Run(Apply(s, a), acts) && After(Apply(s, a), acts).fault.UnknownStore?;
    var all := [a] + acts;
    assert all[1..] == acts;
    assert Run(s, all) && After(s, all).fault.UnknownStore?;
  }

  lemma FaultIsPanic(s: State)
    requires s.fault.UnknownStore?
    ensures CanPanic(s)
  {
    assert Run(s, []) && After(s, []).fault.UnknownStore?;
  }

  /** Two releasers of one store wait for the mutex and the store is named in `active`. */
  predicate Pair(s: State, h: HandleId, k: HandleId) {
    && s.fault.NoFault? && h != k && h in s.handles && k in s.handles
    && s.handles[h].phase.Rechecking? && s.handles[k].phase.Rechecking?
    && s.handles[h].store == s.handles[k].store
    && Registered(s.stores, s.active, s.handles[h].store)
  }

  lemma SecondRecheckPanics(s: State, h: HandleId, k: HandleId)
    requires Pair(s, h, k) && s.mu.Free? && s.stores[s.handles[h].store].refs == 0 && s.waiting > 0
    ensures CanPanic(s)
  {
    var t := Apply(s, Recheck(h));
    FaultIsPanic(Apply(t, Recheck(k)));
    PanicAfter(t, Recheck(k));
    PanicAfter(s, Recheck(h));
  }

  lemma RegisteredWaits(s: State, id: StoreId)
    requires ActiveOk(s.stores, s.active, s.waiting) && Registered(s.stores, s.active, id)
    ensures s.waiting > 0
  {
    assert s.stores[id].name in s.active.Keys;
  }

  lemma UnusedId<T>(m: map<nat, T>) returns (n: nat)
    ensures n !in m
  {
    n := 0;
    var below: set<nat> := {};
    while n in m
      invariant below <= m.Keys && |below| == n && forall i :: i in below <==> 0 <= i < n
      decreases m.Keys - below
    {
      below := below + {n};
      n := n + 1;
    }
  }

  /** Some run goes from `s` to `t`. */
  ghost predicate Leads(s: State, t: State) {
    exists acts :: Run(s, acts) && After(s, acts) == t
  }

  lemma LeadsSelf(s: State)
    ensures Leads(s, s)
  {
    assert Run(s, []) && After(s, []) == s;
  }

  lemma LeadsVia(s: State, a: Action, u: State, t: State)
    requires Enabled(s, a) && Apply(s, a) == u && Leads(u, t)
    ensures Leads(s, t)
  {
    var acts :| Run(u, acts) && After(u, acts) == t;
    var all := [a] + acts;
    assert all[1..] == acts;
    assert Run(s, all) && After(s, all) == t;
  }

  /** Both releasers can take the mutex, and the count is still zero. */
  ghost predicate Met(s: State, h: HandleId, k: HandleId) {
    Inv(s) && Pair(s, h, k) && s.mu.Free? && s.stores[s.handles[h].store].refs == 0
  }

  /** A `Get` of another store finishes. */
  lemma OtherGetEnds(s: State, h: HandleId, k: HandleId) returns (t: State)
    requires Inv(s) && Pair(s, h, k) && s.stores[s.handles[h].store].refs == 0
    requires s.mu.Getting? ==> s.mu.store != s.handles[h].store
    ensures Leads(s, t) && Met(t, h, k)
    decreases s.mu.Getting?, s.mu.Getting? && !s.mu.retained, s.mu.Getting? && s.mu.temp
  {
    if s.mu.Free? {
      LeadsSelf(s);
      return s;
    }
    var a: Action;
    if !s.mu.retained {
      a := GetRetain;
    } else if s.mu.temp {
      a := GetDropTemp;
    } else {
      var n := UnusedId(s.handles);
      a := GetReturn(n);
    }
    InvKept(s, a);
    t := OtherGetEnds(Apply(s, a), h, k);
    LeadsVia(s, a, Apply(s, a), t);
  }

  /** A `Get` of the same store finishes, and its handle is closed again. */
  lemma SameGetEnds(s: State, h: HandleId, k: HandleId) returns (t: State)
    requires Inv(s) && Pair(s, h, k) && s.stores[s.handles[h].store].refs == 0
    requires s.mu.Getting? && s.mu.store == s.handles[h].store && !s.mu.temp && !s.mu.retained
    ensures Leads(s, t) && Met(t, h, k)
  {
    var n := UnusedId(s.handles);
    var s1 := Apply(s, GetRetain);
    InvKept(s, GetRetain);
    var s2 := Apply(s1, GetReturn(n));
    InvKept(s1, GetReturn(n));
    t := CloseAgain(s2, h, k, n);
    LeadsVia(s1, GetReturn(n), s2, t);
    LeadsVia(s, GetRetain, s1, t);
  }

  lemma CloseAgain(s: State, h: HandleId, k: HandleId, n: HandleId) returns (t: State)
    requires Inv(s) && Pair(s, h, k) && s.mu.Free? && n != h && n != k
    requires n in s.handles && s.handles[n] == Handle(s.handles[h].store, Open, 0)
    requires s.stores[s.handles[h].store].refs == 1
    ensures Leads(s, t) && Met(t, h, k)
  {
    var s1 := Apply(s, CloseBegin(n));
    InvKept(s, CloseBegin(n));
    t := Apply(s1, Decrement(n));
    InvKept(s1, Decrement(n));
    LeadsSelf(t);
    LeadsVia(s1, Decrement(n), t, t);
    LeadsVia(s, CloseBegin(n), s1, t);
  }

  /** Whatever `Get` is running, the two releasers can come to take the mutex one after the other. */
  lemma PairMeets(s: State, h: HandleId, k: HandleId) returns (t: State)
    requires Inv(s) && Pair(s, h, k) && s.stores[s.handles[h].store].refs == 0
    ensures Leads(s, t) && Met(t, h, k)
  {
    if s.mu.Getting? && s.mu.store == s.handles[h].store {
      t := SameGetEnds(s, h, k);
    } else {
      t := OtherGetEnds(s, h, k);
    }
  }

  /** After the first hazard of a run some continuation panics with "removing an unknown store". */
  lemma HazardCanPanic(acts: seq<Action>, a: Action)
    requires Run(Init, acts) && HazardFree(Init, acts)
    requires Enabled(After(Init, acts), a) && Hazard(After(Init, acts), a)
    ensures CanPanic(Apply(After(Init, acts), a))
  {
    OrderlyAlongRun(Init, acts);
    var s := After(Init, acts);
    InvKept(s, a);
    var t, h, k := HazardMeets(s, a);
    RegisteredWaits(t, t.handles[h].store);
    SecondRecheckPanics(t, h, k);
    PanicLater(Apply(s, a), t);
  }

  /** A first hazard leaves two releasers, which can then meet. */
  lemma HazardMeets(s: State, a: Action) returns (t: State, h: HandleId, k: HandleId)
    requires Orderly(s) && Enabled(s, a) && Hazard(s, a) && Inv(Apply(s, a))
    ensures Leads(Apply(s, a), t) && Met(t, h, k)
  {
    k := a.handle;
    h :| h in s.handles && s.handles[h].store == s.handles[k].store && s.handles[h].phase.Rechecking?;
    assert Needs(s.handles, h);
    assert Apply(s, a) == Released(s, k, Rechecking);
    assert Pair(Apply(s, a), h, k);
    t := PairMeets(Apply(s, a), h, k);
  }

  lemma PanicLater(s: State, t: State)
    requires Leads(s, t) && CanPanic(t)
    ensures CanPanic(s)
  {
    var a :| Run(s, a) && After(s, a) == t;
    var b :| Run(t, b) && After(t, b).fault.UnknownStore?;
    RunConcat(s, a, b);
    assert Run(s, a + b) && After(s, a + b).fault.UnknownStore?;
  }

  // ---------- concrete runs ----------

  const Demo := Name("demo")

  /** Store 0 is open under one name; `refs`, `mu` and the handles vary. */
  function DemoState(refs: int, mu: Mutex, handles: map<HandleId, Handle>): State {
    State(map[0 := Shared(Demo, refs, 0)], handles, map[Demo := 0], 1, mu, false, false, NoFault)
  }

  function Held(phase: Phase): Handle {
    Handle(0, phase, 0)
  }

  ghost predicate Reaches(s: State, t: State) {
    exists acts :: Run(s, acts) && HazardFree(s, acts) && After(s, acts) == t
  }

  lemma ReachesVia(s: State, a: Action, u: State, t: State)
    requires Enabled(s, a) && !Hazard(s, a) && Apply(s, a) == u && Reaches(u, t)
    ensures Reaches(s, t)
  {
    var acts :| Run(u, acts) && HazardFree(u, acts) && After(u, acts) == t;
    var all := [a] + acts;
    assert all[1..] == acts;
    assert Run(s, all) && HazardFree(s, all) && After(s, all) == t;
  }

  lemma ReachesSelf(s: State)
    ensures Reaches(s, s)
  {
    assert Run(s, []) && HazardFree(s, []) && After(s, []) == s;
  }

  lemma PanicVia(s: State, a: Action, u: State)
    requires Enabled(s, a) && Apply(s, a) == u && CanPanic(u)
    ensures CanPanic(s)
  {
    PanicAfter(s, a);
  }

  /** The handle is drained and has decremented the count to zero, but has not rechecked. */
  const Drained := DemoState(0, Free, map[0 := Held(Rechecking)])

  /** A first `Get` creates the store and returns handle 0. */
  lemma OpenedIsReachable(t: State)
    requires Reaches(DemoState(1, Free, map[0 := Held(Open)]), t)
    ensures Reaches(Init, t)
  {
    var s1 := DemoState(1, Getting(0, true, false), map[]);
    var s2 := DemoState(2, Getting(0, true, true), map[]);
    var s3 := DemoState(1, Getting(0, false, true), map[]);
    ReachesVia(s3, GetReturn(0), DemoState(1, Free, map[0 := Held(Open)]), t);
    ReachesVia(s2, GetDropTemp, s3, t);
    ReachesVia(s1, GetRetain, s2, t);
    ReachesVia(Init, GetLookup(Demo, 0), s1, t);
  }

  lemma DrainedIsReachable(t: State)
    requires Reaches(Drained, t)
    ensures Reaches(Init, t)
  {
    var s := DemoState(1, Free, map[0 := Held(Closing)]);
    ReachesVia(s, Decrement(0), Drained, t);
    ReachesVia(DemoState(1, Free, map[0 := Held(Open)]), CloseBegin(0), s, t);
    OpenedIsReachable(t);
  }

  /** Beside the drained handle 0 there is handle 1. */
  function Second(refs: int, phase: Phase): State {
    DemoState(refs, Free, map[0 := Held(Rechecking)][1 := Held(phase)])
  }

  lemma SecondClosePanics()
    ensures CanPanic(Second(1, Open))
  {
    SecondRecheckPanics(Second(0, Rechecking), 0, 1);
    PanicVia(Second(1, Closing), Decrement(1), Second(0, Rechecking));
    PanicVia(Second(1, Open), CloseBegin(1), Second(1, Closing));
  }

  lemma SecondReturnPanics()
    ensures CanPanic(DemoState(1, Getting(0, false, true), map[0 := Held(Rechecking)]))
  {
    SecondClosePanics();
    PanicVia(DemoState(1, Getting(0, false, true), map[0 := Held(Rechecking)]), GetReturn(1), Second(1, Open));
  }

  lemma SecondGetPanics()
    ensures CanPanic(DemoState(0, Getting(0, false, false), map[0 := Held(Rechecking)]))
  {
    SecondReturnPanics();
    PanicVia(DemoState(0, Getting(0, false, false), map[0 := Held(Rechecking)]), GetRetain,
             DemoState(1, Getting(0, false, true), map[0 := Held(Rechecking)]));
  }

  /** From there a second handle is opened and closed before the first rechecks: the run can panic. */
  lemma PanicIsReachable()
    ensures Reaches(Init, Drained) && CanPanic(Drained)
  {
    ReachesSelf(Drained);
    DrainedIsReachable(Drained);
    SecondGetPanics();
    PanicVia(Drained, GetLookup(Demo, 1), DemoState(0, Getting(0, false, false), map[0 := Held(Rechecking)]));
  }

  /** Without any hazard the backend registry can be closed while a store's backend is still open. */
  lemma RegistryClosesBeforeBackend()
    ensures exists t :: Reaches(Init, t) && t.registryClosed && 0 in t.stores && t.stores[0].closes == 0
  {
    var u := Apply(Drained, Recheck(0));
    var t := Apply(u, RegistryClose);
    ReachesSelf(t);
    ReachesVia(u, RegistryClose, t, t);
    ReachesVia(Drained, Recheck(0), u, t);
    DrainedIsReachable(t);
  }
}
