/**
The state store registry as a state machine over its atomic steps.

A `Registry` hands out `Store` handles; handles of one name share one backend, counted by an atomic `refCount`.
`Get` runs under the registry mutex.  Closing a handle decrements the count outside the mutex, and only then takes
the mutex to look at the count again.  Those two points are separate steps here, as are the steps inside `Get`,
so every interleaving of the original is a sequence of `Action`s.
*/
module StateStore {

  type StoreId = nat
  type HandleId = nat

  /** The name under which a store is opened. */
  datatype Name = Name(text: string)

  /** Where the single closing owner of a handle is. */
  datatype Phase =
    | Open          // the wait group of the handle accepts operations
    | Closing       // the wait group is closed; active operations still drain
    | Rechecking    // has decremented the count to zero and does not hold the mutex yet
    | Unregistered  // tryUnregister returned true; backend.Close is still to come
    | Closed        // Close has returned

  datatype Handle = Handle(store: StoreId, phase: Phase, ops: nat) {
    /** The handle still owns one reference. */
    predicate Holds() {
      phase.Open? || phase.Closing?
    }
  }

  /** `closes` counts the calls of backend.Close. */
  datatype Shared = Shared(name: Name, refs: int, closes: nat)

  /** The registry mutex: free, or held by a `Get` that has found or created `store`. */
  datatype Mutex =
    | Free
    | Getting(store: StoreId, temp: bool, retained: bool)

  datatype Fault =
    | NoFault
    | UnknownStore        // unregisterStore panics: "removing an unknown store"
    | NegativeWaitGroup   // WaitGroup.Done below zero panics
    | SelfDeadlock        // Get's own Release reaches zero and waits for the mutex that Get holds

  datatype State = State(
    stores: map<StoreId, Shared>,
    handles: map<HandleId, Handle>,
    active: map<Name, StoreId>,
    waiting: int,               // counter of the registry's wait group
    mu: Mutex,
    registryClosed: bool,
    usedAfterClose: bool,       // some operation reached a backend after its Close
    fault: Fault
  )

  datatype Action =
    | GetLookup(name: Name, newId: StoreId)  // lock; find the shared store or create it as `newId`
    | GetRetain                                // newStore: Retain
    | GetDropTemp                              // the deferred Release of a created store
    | GetReturn(handle: HandleId)              // unlock and return the handle
    | OpBegin(handle: HandleId)                // active.Add(1)
    | OpCall(handle: HandleId)                 // the backend is called
    | OpEnd(handle: HandleId)                  // active.Done()
    | CloseBegin(handle: HandleId)             // active.Close()
    | Decrement(handle: HandleId)              // active.Wait() returned; refCount.Add(-1)
    | Recheck(handle: HandleId)                // tryUnregister, under the mutex
    | BackendClose(handle: HandleId)           // backend.Close()
    | RegistryClose                            // wg.Wait() returned; the backend registry is closed

  const Init := State(map[], map[], map[], 0, Free, false, false, NoFault)

  predicate Enabled(s: State, a: Action) {
    s.fault.NoFault? && Guard(s, a)
  }

  predicate Guard(s: State, a: Action) {
    match a
    case GetLookup(_, newId) => s.mu.Free? && newId !in s.stores
    case GetRetain => s.mu.Getting? && !s.mu.retained && s.mu.store in s.stores
    case GetDropTemp => s.mu.Getting? && s.mu.retained && s.mu.temp && s.mu.store in s.stores
    case GetReturn(h) => s.mu.Getting? && s.mu.retained && !s.mu.temp && h !in s.handles
    case OpBegin(h) => h in s.handles && s.handles[h].phase.Open?
    case OpCall(h) => h in s.handles && s.handles[h].ops > 0 && s.handles[h].store in s.stores
    case OpEnd(h) => h in s.handles && s.handles[h].ops > 0
    case CloseBegin(h) => h in s.handles && s.handles[h].phase.Open?
    case Decrement(h) =>
      h in s.handles && s.handles[h].phase.Closing? && s.handles[h].ops == 0 && s.handles[h].store in s.stores
    case Recheck(h) =>
      s.mu.Free? && h in s.handles && s.handles[h].phase.Rechecking? && s.handles[h].store in s.stores
    case BackendClose(h) => h in s.handles && s.handles[h].phase.Unregistered? && s.handles[h].store in s.stores
    case RegistryClose => s.waiting == 0
  }

  function WithHandle(s: State, h: HandleId, hd: Handle): State {
    s.(handles := s.handles[h := hd])
  }

  function WithPhase(s: State, h: HandleId, phase: Phase): State
    requires h in s.handles
  {
    WithHandle(s, h, s.handles[h].(phase := phase))
  }

  function WithRefs(s: State, id: StoreId, refs: int, mu: Mutex): State
    requires id in s.stores
  {
    s.(stores := s.stores[id := s.stores[id].(refs := refs)], mu := mu)
  }

  /** Giving back the reference of a drained handle. */
  function Released(s: State, h: HandleId, phase: Phase): State
    requires h in s.handles && s.handles[h].store in s.stores
  {
    var id := s.handles[h].store;
    WithPhase(WithRefs(s, id, s.stores[id].refs - 1, s.mu), h, phase)
  }

  /** The branch of `Get` for a name that is not active. */
  function Create(s: State, name: Name, id: StoreId): State {
    s.(stores := s.stores[id := Shared(name, 1, 0)],
       active := s.active[name := id],
       waiting := s.waiting + 1,
       mu := Getting(id, true, false))
  }

  /** unregisterStore: it removes the name, whichever store the name leads to. */
  function Unregister(s: State, h: HandleId, name: Name): State
    requires h in s.handles
  {
    WithPhase(s, h, Unregistered).(active := s.active - {name}, waiting := s.waiting - 1)
  }

  function CloseBackend(s: State, h: HandleId): State
    requires h in s.handles && s.handles[h].store in s.stores
  {
    var id := s.handles[h].store;
    WithPhase(s, h, Closed).(stores := s.stores[id := s.stores[id].(closes := s.stores[id].closes + 1)])
  }

  function Apply(s: State, a: Action): State
    requires Enabled(s, a)
  {
    match a
    case GetLookup(name, newId) =>
      if name in s.active then s.(mu := Getting(s.active[name], false, false)) else Create(s, name, newId)
    case GetRetain =>
      WithRefs(s, s.mu.store, s.stores[s.mu.store].refs + 1, s.mu.(retained := true))
    case GetDropTemp =>
      var refs := s.stores[s.mu.store].refs - 1;
      if refs == 0 then
        WithRefs(s, s.mu.store, refs, s.mu).(fault := SelfDeadlock)
      else
        WithRefs(s, s.mu.store, refs, s.mu.(temp := false))
    case GetReturn(h) =>
      WithHandle(s, h, Handle(s.mu.store, Open, 0)).(mu := Free)
    case OpBegin(h) =>
      WithHandle(s, h, s.handles[h].(ops := s.handles[h].ops + 1))
    case OpCall(h) =>
      s.(usedAfterClose := s.usedAfterClose || s.stores[s.handles[h].store].closes > 0)
    case OpEnd(h) =>
      WithHandle(s, h, s.handles[h].(ops := s.handles[h].ops - 1))
    case CloseBegin(h) =>
      WithPhase(s, h, Closing)
    case Decrement(h) =>
      Released(s, h, if s.stores[s.handles[h].store].refs - 1 == 0 then Rechecking else Closed)
    case Recheck(h) =>
      var sh := s.stores[s.handles[h].store];
      if sh.refs > 0 then
        WithPhase(s, h, Closed)
      else if sh.name !in s.active then
        s.(fault := UnknownStore)
      else if s.waiting <= 0 then
        s.(fault := NegativeWaitGroup)
      else
        Unregister(s, h, sh.name)
    case BackendClose(h) =>
      CloseBackend(s, h)
    case RegistryClose =>
      s.(registryClosed := true)
  }

  /** `acts` is a run from `s`: each action is enabled where it happens. */
  predicate Run(s: State, acts: seq<Action>)
    decreases |acts|
  {
    acts == [] || (Enabled(s, acts[0]) && Run(Apply(s, acts[0]), acts[1..]))
  }

  function After(s: State, acts: seq<Action>): State
    requires Run(s, acts)
    decreases |acts|
  {
    if acts == [] then s else After(Apply(s, acts[0]), acts[1..])
  }

  lemma {:induction false} RunConcat(s: State, a: seq<Action>, b: seq<Action>)
    requires Run(s, a)
    ensures Run(s, a + b) <==> Run(After(s, a), b)
    ensures Run(s, a + b) ==> After(s, a + b) == After(After(s, a), b)
    decreases |a|
  {
    if a == [] {
      assert a + b == b;
    } else {
      assert (a + b)[0] == a[0] && (a + b)[1..] == a[1..] + b;
      RunConcat(Apply(s, a[0]), a[1..], b);
    }
  }

  // ---------- what holds in every interleaving ----------

  function Holders(hs: map<HandleId, Handle>, id: StoreId): set<HandleId> {
    set h | h in hs && hs[h].store == id && hs[h].Holds()
  }

  /** References that a running `Get` owns: its temporary one and that of the handle it is about to return. */
  function GetRefs(mu: Mutex, id: StoreId): nat {
    if mu.Getting? && mu.store == id then (if mu.temp then 1 else 0) + (if mu.retained then 1 else 0) else 0
  }

  type Stores = map<StoreId, Shared>
  type Handles = map<HandleId, Handle>
  type Active = map<Name, StoreId>

  /** Some name leads a `Get` to store `id`. */
  predicate Registered(stores: Stores, active: Active, id: StoreId) {
    id in stores && stores[id].name in active && active[stores[id].name] == id
  }

  ghost predicate HandlesOk(stores: Stores, handles: Handles) {
    forall h <- handles :: handles[h].store in stores && (handles[h].ops > 0 ==> handles[h].Holds())
  }

  /** The count equals the unreleased handles plus the references of a running `Get`. */
  ghost predicate CountsOk(stores: Stores, handles: Handles, mu: Mutex) {
    forall id <- stores :: stores[id].refs == |Holders(handles, id)| + GetRefs(mu, id)
  }

  ghost predicate ActiveOk(stores: Stores, active: Active, waiting: int) {
    && (forall n <- active :: active[n] in stores && stores[active[n]].name == n)
    && waiting == |active|
  }

  /** A store with no reference that is out of reach of every later `Get`. */
  predicate Dead(stores: Stores, active: Active, id: StoreId) {
    id in stores && stores[id].refs == 0 && !Registered(stores, active, id)
  }

  ghost predicate ClosedOk(stores: Stores, active: Active) {
    forall id <- stores :: stores[id].closes > 0 ==> Dead(stores, active, id)
  }

  ghost predicate ClosersOk(stores: Stores, active: Active, handles: Handles) {
    forall h <- handles :: handles[h].phase.Unregistered? ==> Dead(stores, active, handles[h].store)
  }

  ghost predicate Inv(s: State) {
    && HandlesOk(s.stores, s.handles)
    && CountsOk(s.stores, s.handles, s.mu)
    && ActiveOk(s.stores, s.active, s.waiting)
    && ClosedOk(s.stores, s.active)
    && ClosersOk(s.stores, s.active, s.handles)
    && (s.mu.Getting? ==> Registered(s.stores, s.active, s.mu.store))
    && !s.usedAfterClose
    && !s.fault.SelfDeadlock? && !s.fault.NegativeWaitGroup?
  }

  /** Store `id` has been unregistered at zero: its backend is closed or about to be. */
  ghost predicate Retired(s: State, id: StoreId) {
    && id in s.stores
    && (s.stores[id].closes > 0 || exists h <- s.handles :: s.handles[h].store == id && s.handles[h].phase.Unregistered?)
  }

  lemma HolderCounts(hs: map<HandleId, Handle>, h: HandleId)
    requires h in hs && hs[h].Holds()
    ensures |Holders(hs, hs[h].store)| > 0
  {
    assert h in Holders(hs, hs[h].store);
  }

  /** Rewriting one handle moves it in or out of the holders of its own store and of no other. */
  lemma HoldersUpdate(hs: map<HandleId, Handle>, h: HandleId, hd: Handle)
    requires h in hs ==> hs[h].store == hd.store
    ensures forall id :: id != hd.store ==> Holders(hs[h := hd], id) == Holders(hs, id)
    ensures |Holders(hs[h := hd], hd.store)|
            == |Holders(hs, hd.store)| - (if h in hs && hs[h].Holds() then 1 else 0) + (if hd.Holds() then 1 else 0)
  {
    var before, after := Holders(hs, hd.store), Holders(hs[h := hd], hd.store);
    assert after == if hd.Holds() then before + {h} else before - {h};
    assert h in before <==> h in hs && hs[h].Holds();
  }

  lemma CreateKeepsActive(stores: Stores, active: Active, waiting: int, name: Name, id: StoreId)
    requires ActiveOk(stores, active, waiting) && name !in active && id !in stores
    ensures ActiveOk(stores[id := Shared(name, 1, 0)], active[name := id], waiting + 1)
  {
    assert active[name := id].Keys == active.Keys + {name};
  }

  lemma CreateKeepsRest(stores: Stores, handles: Handles, active: Active, name: Name, id: StoreId)
    requires HandlesOk(stores, handles) && CountsOk(stores, handles, Free)
    requires ClosedOk(stores, active) && ClosersOk(stores, active, handles) && name !in active && id !in stores
    ensures var t, ta := stores[id := Shared(name, 1, 0)], active[name := id];
            && HandlesOk(t, handles) && CountsOk(t, handles, Getting(id, true, false))
            && ClosedOk(t, ta) && ClosersOk(t, ta, handles)
  {
    var t, ta := stores[id := Shared(name, 1, 0)], active[name := id];
    assert Holders(handles, id) == {};
    assert forall i :: Dead(stores, active, i) ==> Dead(t, ta, i);
  }

  lemma CreateKeeps(s: State, name: Name, id: StoreId)
    requires Inv(s) && s.mu.Free? && name !in s.active && id !in s.stores
    ensures Inv(Create(s, name, id))
  {
    CreateKeepsActive(s.stores, s.active, s.waiting, name, id);
    CreateKeepsRest(s.stores, s.handles, s.active, name, id);
  }

  /** Changing the count of one store, which is registered or keeps its count, revives no dead store. */
  lemma RefsKeep(stores: Stores, active: Active, handles: Handles, waiting: int, id: StoreId, refs: int)
    requires id in stores
    requires ActiveOk(stores, active, waiting) && ClosedOk(stores, active) && ClosersOk(stores, active, handles)
    requires Registered(stores, active, id) || stores[id].refs != 0
    ensures var t := stores[id := stores[id].(refs := refs)];
            && ActiveOk(t, active, waiting) && ClosedOk(t, active) && ClosersOk(t, active, handles)
            && forall i :: Registered(t, active, i) == Registered(stores, active, i)
  {
    var t := stores[id := stores[id].(refs := refs)];
    assert forall i :: Registered(t, active, i) == Registered(stores, active, i);
  }

  /** A `Get` in progress moves its own store's count together with the references it owns. */
  lemma GetKeeps(s: State, mu: Mutex)
    requires Inv(s) && s.mu.Getting? && mu.Getting? && mu.store == s.mu.store
    ensures Inv(WithRefs(s, mu.store, s.stores[mu.store].refs + GetRefs(mu, mu.store) - GetRefs(s.mu, mu.store), mu))
  {
    var refs := s.stores[mu.store].refs + GetRefs(mu, mu.store) - GetRefs(s.mu, mu.store);
    RefsKeep(s.stores, s.active, s.handles, s.waiting, mu.store, refs);
  }

  lemma ReturnKeeps(s: State, h: HandleId)
    requires Inv(s) && s.mu.Getting? && s.mu.retained && !s.mu.temp && h !in s.handles
    ensures Inv(WithHandle(s, h, Handle(s.mu.store, Open, 0)).(mu := Free))
  {
    HoldersUpdate(s.handles, h, Handle(s.mu.store, Open, 0));
  }

  /** Rewriting a handle that neither takes nor gives back a reference. */
  lemma RewriteKeeps(s: State, h: HandleId, hd: Handle)
    requires Inv(s) && h in s.handles && hd.store == s.handles[h].store && hd.Holds() == s.handles[h].Holds()
    requires (hd.ops > 0 ==> hd.Holds()) && !hd.phase.Unregistered?
    ensures Inv(WithHandle(s, h, hd))
  {
    HoldersUpdate(s.handles, h, hd);
  }

  lemma RewriteHandle(stores: Stores, active: Active, handles: Handles, h: HandleId, hd: Handle)
    requires HandlesOk(stores, handles) && ClosersOk(stores, active, handles)
    requires hd.store in stores && (hd.ops > 0 ==> hd.Holds())
    requires hd.phase.Unregistered? ==> Dead(stores, active, hd.store)
    ensures HandlesOk(stores, handles[h := hd]) && ClosersOk(stores, active, handles[h := hd])
  {
  }

  lemma ReleasedCounts(s: State, h: HandleId, phase: Phase)
    requires HandlesOk(s.stores, s.handles) && CountsOk(s.stores, s.handles, s.mu)
    requires h in s.handles && s.handles[h].Holds() && (phase.Rechecking? || phase.Closed?)
    ensures var t := Released(s, h, phase); CountsOk(t.stores, t.handles, t.mu)
  {
    HoldersUpdate(s.handles, h, s.handles[h].(phase := phase));
  }

  lemma ReleasedKeeps(s: State, h: HandleId, phase: Phase)
    requires Inv(s) && h in s.handles && s.handles[h].phase.Closing? && s.handles[h].ops == 0
    requires phase.Rechecking? || phase.Closed?
    ensures Inv(Released(s, h, phase))
  {
    var id, t := s.handles[h].store, Released(s, h, phase);
    HolderCounts(s.handles, h);
    ReleasedCounts(s, h, phase);
    RefsKeep(s.stores, s.active, s.handles, s.waiting, id, s.stores[id].refs - 1);
    RewriteHandle(t.stores, t.active, s.handles, h, t.handles[h]);
  }

  /** Removing the name takes the store out of reach of every later `Get`. */
  lemma UnregisterNames(stores: Stores, active: Active, handles: Handles, waiting: int, id: StoreId)
    requires ActiveOk(stores, active, waiting) && ClosedOk(stores, active) && ClosersOk(stores, active, handles)
    requires id in stores && stores[id].refs == 0 && stores[id].name in active
    ensures var t := active - {stores[id].name};
            && ActiveOk(stores, t, waiting - 1) && ClosedOk(stores, t) && ClosersOk(stores, t, handles)
            && Dead(stores, t, id)
            && waiting > 0
  {
    var t := active - {stores[id].name};
    assert t.Keys == active.Keys - {stores[id].name};
    assert forall i :: Dead(stores, active, i) ==> Dead(stores, t, i);
  }

  lemma UnregisterKeeps(s: State, h: HandleId)
    requires Inv(s) && s.mu.Free? && h in s.handles && s.handles[h].phase.Rechecking?
    requires var sh := s.stores[s.handles[h].store]; sh.refs <= 0 && sh.name in s.active
    ensures Inv(Unregister(s, h, s.stores[s.handles[h].store].name))
    ensures s.waiting > 0
  {
    var t := Unregister(s, h, s.stores[s.handles[h].store].name);
    UnregisterNames(s.stores, s.active, s.handles, s.waiting, s.handles[h].store);
    RewriteHandle(s.stores, t.active, s.handles, h, t.handles[h]);
    assert CountsOk(t.stores, t.handles, t.mu) by {
      HoldersUpdate(s.handles, h, t.handles[h]);
    }
  }

  lemma BackendCloseKeeps(s: State, h: HandleId)
    requires Inv(s) && h in s.handles && s.handles[h].phase.Unregistered?
    ensures Inv(CloseBackend(s, h))
  {
    var t := CloseBackend(s, h);
    HoldersUpdate(s.handles, h, t.handles[h]);
    assert forall i :: Registered(t.stores, t.active, i) == Registered(s.stores, s.active, i);
  }

  lemma GetStepKeeps(s: State, a: Action)
    requires Inv(s) && Enabled(s, a) && (a.GetLookup? || a.GetRetain? || a.GetDropTemp? || a.GetReturn?)
    ensures Inv(Apply(s, a))
  {
    match a
    case GetLookup(name, id) => if name !in s.active { CreateKeeps(s, name, id); }
    case GetRetain => GetKeeps(s, s.mu.(retained := true));
    case GetDropTemp => GetKeeps(s, s.mu.(temp := false));
    case GetReturn(h) => ReturnKeeps(s, h);
  }

  lemma OpStepKeeps(s: State, a: Action)
    requires Inv(s) && Enabled(s, a) && (a.OpBegin? || a.OpCall? || a.OpEnd? || a.CloseBegin?)
    ensures Inv(Apply(s, a))
  {
    if a.OpCall? {
      HolderCounts(s.handles, a.handle);
    } else {
      RewriteKeeps(s, a.handle, Apply(s, a).handles[a.handle]);
    }
  }

  lemma DecrementStepKeeps(s: State, a: Action)
    requires Inv(s) && Enabled(s, a) && a.Decrement?
    ensures Inv(Apply(s, a))
  {
    ReleasedKeeps(s, a.handle, Rechecking);
    ReleasedKeeps(s, a.handle, Closed);
  }

  lemma RecheckStepKeeps(s: State, a: Action)
    requires Inv(s) && Enabled(s, a) && a.Recheck?
    ensures Inv(Apply(s, a))
  {
    var h := a.handle;
    var sh := s.stores[s.handles[h].store];
    if sh.refs > 0 {
      RewriteKeeps(s, h, s.handles[h].(phase := Closed));
    } else if sh.name in s.active {
      UnregisterKeeps(s, h);
    }
  }

  lemma InvKept(s: State, a: Action)
    requires Inv(s) && Enabled(s, a)
    ensures Inv(Apply(s, a))
  {
    match a
    case GetLookup(_, _) => GetStepKeeps(s, a);
    case GetRetain => GetStepKeeps(s, a);
    case GetDropTemp => GetStepKeeps(s, a);
    case GetReturn(_) => GetStepKeeps(s, a);
    case OpBegin(_) => OpStepKeeps(s, a);
    case OpCall(_) => OpStepKeeps(s, a);
    case OpEnd(_) => OpStepKeeps(s, a);
    case CloseBegin(_) => OpStepKeeps(s, a);
    case Decrement(_) => DecrementStepKeeps(s, a);
    case Recheck(_) => RecheckStepKeeps(s, a);
    case BackendClose(h) => BackendCloseKeeps(s, h);
    case RegistryClose =>
  }

  /** Every state of every run keeps the invariant. */
  lemma {:induction false} InvAlongRun(s: State, acts: seq<Action>)
    requires Inv(s) && Run(s, acts)
    ensures Inv(After(s, acts))
    decreases |acts|
  {
    if acts != [] {
      InvKept(s, acts[0]);
      InvAlongRun(Apply(s, acts[0]), acts[1..]);
    }
  }

  /**
  In every interleaving no operation reaches a closed backend, a handle that still accepts or drains operations has
  an open backend, and `Get` never deadlocks on its own mutex.
  */
  lemma NoUseAfterClose(acts: seq<Action>)
    requires Run(Init, acts)
    ensures var s := After(Init, acts);
            && !s.usedAfterClose
            && !s.fault.SelfDeadlock?
            && (forall h <- s.handles :: s.handles[h].Holds() || s.handles[h].ops > 0 ==>
                  s.handles[h].store in s.stores && s.stores[s.handles[h].store].closes == 0)
  {
    InvAlongRun(Init, acts);
    var s := After(Init, acts);
    forall h | h in s.handles && s.handles[h].Holds()
      ensures s.stores[s.handles[h].store].closes == 0
    {
      HolderCounts(s.handles, h);
    }
  }

  /** The count is exact in every interleaving. */
  lemma CountIsExact(acts: seq<Action>)
    requires Run(Init, acts)
    ensures var s := After(Init, acts);
            && (forall id <- s.stores :: s.stores[id].refs == |Holders(s.handles, id)| + GetRefs(s.mu, id))
            && s.waiting == |s.active|
  {
    InvAlongRun(Init, acts);
  }

  /** Steps never forget a handle or move it to another store. */
  lemma HandleStep(s: State, a: Action, h: HandleId)
    requires Enabled(s, a) && h in s.handles
    ensures var t := Apply(s, a);
            && h in t.handles && t.handles[h].store == s.handles[h].store
            && (s.handles[h].phase.Unregistered? ==> t.handles[h].phase.Unregistered? || a == BackendClose(h))
  {
  }

  lemma StoreStep(s: State, a: Action, id: StoreId)
    requires Enabled(s, a) && id in s.stores
    ensures var t := Apply(s, a);
            && id in t.stores && t.stores[id].name == s.stores[id].name
            && t.stores[id].closes
               == s.stores[id].closes + (if a.BackendClose? && s.handles[a.handle].store == id then 1 else 0)
  {
  }

  lemma RetiredStep(s: State, a: Action, id: StoreId)
    requires Enabled(s, a) && Retired(s, id)
    ensures Retired(Apply(s, a), id)
  {
    StoreStep(s, a, id);
    if s.stores[id].closes == 0 {
      var h :| h in s.handles && s.handles[h].store == id && s.handles[h].phase.Unregistered?;
      HandleStep(s, a, h);
    }
  }

  /** A store that has been unregistered at zero is never retained again, whatever happens later. */
  lemma {:induction false} RetiredForever(s: State, acts: seq<Action>, id: StoreId)
    requires Inv(s) && Run(s, acts) && Retired(s, id)
    ensures var t := After(s, acts); Retired(t, id) && Dead(t.stores, t.active, id)
    decreases |acts|
  {
    if acts != [] {
      InvKept(s, acts[0]);
      RetiredStep(s, acts[0], id);
      RetiredForever(Apply(s, acts[0]), acts[1..], id);
    }
  }
}
