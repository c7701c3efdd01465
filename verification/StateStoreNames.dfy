/**
Names and stores: a handle leads to a store of the name it was got under.  Which name that is comes from the run alone,
as the name of the last lookup before the handle was returned.
*/
module StateStoreNames {
  import opened StateStore
  import opened StateStoreReaping
  import opened StateStoreClose

  datatype Asked = Nothing | Asked(name: Name)

  /** The name of the last lookup. */
  function LastLookup(acts: seq<Action>): Asked {
    if acts == [] then Nothing
    else if acts[|acts| - 1].GetLookup? then Asked(acts[|acts| - 1].name)
    else LastLookup(acts[..|acts| - 1])
  }

  /** The name under which the handle was got. */
  function GotUnder(acts: seq<Action>, h: HandleId): Asked {
    if acts == [] then Nothing
    else if acts[|acts| - 1] == GetReturn(h) then LastLookup(acts[..|acts| - 1])
    else GotUnder(acts[..|acts| - 1], h)
  }

  lemma RunInit(s: State, acts: seq<Action>)
    requires acts != [] && Run(s, acts)
    ensures var init, last := acts[..|acts| - 1], acts[|acts| - 1];
            Run(s, init) && Enabled(After(s, init), last) && After(s, acts) == Apply(After(s, init), last)
  {
    var init, last := acts[..|acts| - 1], acts[|acts| - 1];
    assert acts == init + [last];
    RunPrefix(s, init, [last]);
    RunConcat(s, init, [last]);
    assert [last][1..] == [];
  }

  lemma {:induction false} RunPrefix(s: State, a: seq<Action>, b: seq<Action>)
    requires Run(s, a + b)
    ensures Run(s, a)
    decreases |a|
  {
    if a != [] {
      assert (a + b)[0] == a[0] && (a + b)[1..] == a[1..] + b;
      RunPrefix(Apply(s, a[0]), a[1..], b);
    }
  }

  // ---------- one lookup ----------

  /** An active name leads to its store, and nothing is made; for any other name one store of that name is made. */
  ghost predicate LookedUp(s: State, n: Name, id: StoreId, t: State) {
    && t.handles == s.handles && t.mu.Getting?
    && t.mu.store in t.stores && t.stores[t.mu.store].name == n
    && (n in s.active ==> t.mu.store == s.active[n] && t.stores == s.stores && t.active == s.active)
    && (n !in s.active ==>
          && t.mu.store == id && id !in s.stores && t.stores.Keys == s.stores.Keys + {id}
          && (forall i <- s.stores :: t.stores[i] == s.stores[i])
          && t.active == s.active[n := id] && (forall h <- t.handles :: t.handles[h].store != id))
  }

  lemma LookupFinds(s: State, n: Name, id: StoreId)
    requires Inv(s) && Enabled(s, GetLookup(n, id))
    ensures LookedUp(s, n, id, Apply(s, GetLookup(n, id)))
  {
    var t := Apply(s, GetLookup(n, id));
    if n in s.active {
      assert t == s.(mu := Getting(s.active[n], false, false));
    } else {
      assert t == Create(s, n, id);
      CreateLooksUp(s, n, id);
    }
  }

  lemma CreateLooksUp(s: State, n: Name, id: StoreId)
    requires HandlesOk(s.stores, s.handles) && n !in s.active && id !in s.stores
    ensures LookedUp(s, n, id, Create(s, n, id))
  {
  }

  /** The store that a lookup settles on. */
  function Settled(s: State, n: Name, id: StoreId): StoreId {
    if n in s.active then s.active[n] else id
  }

  // ---------- a whole Get, with anything in between ----------

  predicate NoLookup(acts: seq<Action>) {
    forall a <- acts :: !a.GetLookup?
  }

  /** While the mutex is held the `Get` keeps its store, and no store is made and no handle returned. */
  lemma HeldStep(s: State, a: Action)
    requires Enabled(s, a) && s.mu.Getting? && !a.GetReturn?
    ensures var t := Apply(s, a);
            && t.mu.Getting? && t.mu.store == s.mu.store
            && t.stores.Keys == s.stores.Keys && t.handles.Keys == s.handles.Keys
  {
  }

  lemma StillGetting(s: State, a: Action)
    requires Enabled(s, a) && Apply(s, a).mu.Getting? && !a.GetLookup?
    ensures s.mu.Getting? && Apply(s, a).mu.store == s.mu.store
  {
  }

  /** Once the mutex is free it stays free without a lookup, so that no handle can be returned. */
  lemma {:induction false} FreeWithoutLookup(s: State, acts: seq<Action>)
    requires Run(s, acts) && s.mu.Free? && NoLookup(acts)
    ensures After(s, acts).mu.Free?
    decreases |acts|
  {
    if acts != [] {
      assert acts[0] in acts;
      FreeWithoutLookup(Apply(s, acts[0]), acts[1..]);
    }
  }

  /** From a lookup to the return: the store stays, and nobody else gets a store or a handle. */
  lemma {:induction false} HeldUntilReturn(s: State, acts: seq<Action>)
    requires Run(s, acts) && s.mu.Getting? && NoLookup(acts) && After(s, acts).mu.Getting?
    ensures var t := After(s, acts);
            t.mu.store == s.mu.store && t.stores.Keys == s.stores.Keys && t.handles.Keys == s.handles.Keys
    decreases |acts|
  {
    if acts != [] {
      assert acts[0] in acts;
      if acts[0].GetReturn? {
        FreeWithoutLookup(Apply(s, acts[0]), acts[1..]);
      } else {
        HeldStep(s, acts[0]);
        HeldUntilReturn(Apply(s, acts[0]), acts[1..]);
      }
    }
  }

  /** Handles come from returns only. */
  lemma ReturnStep(s: State, a: Action, h: HandleId)
    requires Enabled(s, a) && h !in s.handles && h in Apply(s, a).handles
    ensures a == GetReturn(h) && s.mu.Getting?
    ensures Apply(s, a) == s.(handles := s.handles[h := Handle(s.mu.store, Open, 0)], mu := Free)
  {
  }

  lemma Returned(s: State, h: HandleId)
    requires Enabled(s, GetReturn(h))
    ensures h !in s.handles && s.mu.Getting?
    ensures Apply(s, GetReturn(h)) == s.(handles := s.handles[h := Handle(s.mu.store, Open, 0)], mu := Free)
  {
  }

  lemma {:induction false} StoresAlongRun(s: State, acts: seq<Action>, h: HandleId)
    requires Run(s, acts) && h in s.handles
    ensures h in After(s, acts).handles && After(s, acts).handles[h].store == s.handles[h].store
    decreases |acts|
  {
    if acts != [] {
      HandleStep(s, acts[0], h);
      StoresAlongRun(Apply(s, acts[0]), acts[1..], h);
    }
  }

  lemma {:induction false} NamesAlongRun(s: State, acts: seq<Action>, id: StoreId)
    requires Run(s, acts) && id in s.stores
    ensures id in After(s, acts).stores && After(s, acts).stores[id].name == s.stores[id].name
    decreases |acts|
  {
    if acts != [] {
      StoreStep(s, acts[0], id);
      NamesAlongRun(Apply(s, acts[0]), acts[1..], id);
    }
  }

  /** The lookup, whatever the other threads do until the return, and the return. */
  predicate WholeGet(s: State, n: Name, id: StoreId, between: seq<Action>, h: HandleId) {
    NoLookup(between) && Run(s, [GetLookup(n, id)] + between + [GetReturn(h)])
  }

  lemma SplitGet(s: State, n: Name, id: StoreId, between: seq<Action>, h: HandleId)
    requires WholeGet(s, n, id, between, h)
    ensures Enabled(s, GetLookup(n, id)) && Run(Apply(s, GetLookup(n, id)), between)
    ensures var u := After(Apply(s, GetLookup(n, id)), between);
            && Enabled(u, GetReturn(h))
            && After(s, [GetLookup(n, id)] + between + [GetReturn(h)]) == Apply(u, GetReturn(h))
  {
    var all := [GetLookup(n, id)] + between + [GetReturn(h)];
    assert all[0] == GetLookup(n, id) && all[1..] == between + [GetReturn(h)];
    var t := Apply(s, GetLookup(n, id));
    RunPrefix(t, between, [GetReturn(h)]);
    RunConcat(t, between, [GetReturn(h)]);
    assert [GetReturn(h)][1..] == [];
  }

  /** From the lookup to the return the store stays, with its name, and so do the handles. */
  ghost predicate Held(t: State, u: State) {
    && t.mu.Getting? && u.mu.Getting? && u.mu.store == t.mu.store
    && t.stores.Keys == u.stores.Keys && t.handles.Keys == u.handles.Keys
    && u.mu.store in t.stores && u.stores[u.mu.store].name == t.stores[u.mu.store].name
    && (forall k <- u.handles :: u.handles[k].store == t.handles[k].store)
  }

  /**
  The handle leads to a store of that name.  If the name was active it is that store, and no store is made; otherwise
  exactly one store is made, and nobody else has it.
  */
  ghost predicate Yields(s: State, n: Name, id: StoreId, h: HandleId, t: State) {
    && h !in s.handles && t.handles.Keys == s.handles.Keys + {h}
    && t.handles[h] == Handle(Settled(s, n, id), Open, 0)
    && t.handles[h].store in t.stores && t.stores[t.handles[h].store].name == n
    && t.stores.Keys == s.stores.Keys + (if n in s.active then {} else {id})
    && (n !in s.active ==> id !in s.stores && forall k <- t.handles :: t.handles[k].store == id ==> k == h)
  }

  lemma YieldsFrom(s: State, n: Name, id: StoreId, h: HandleId, t: State, u: State)
    requires LookedUp(s, n, id, t) && Held(t, u) && h !in u.handles
    ensures Yields(s, n, id, h, u.(handles := u.handles[h := Handle(u.mu.store, Open, 0)], mu := Free))
  {
  }

  lemma HeldBetween(t: State, between: seq<Action>)
    requires Run(t, between) && NoLookup(between) && t.mu.Getting? && t.mu.store in t.stores
    requires After(t, between).mu.Getting?
    ensures Held(t, After(t, between))
  {
    var u := After(t, between);
    HeldUntilReturn(t, between);
    NamesAlongRun(t, between, t.mu.store);
    forall k | k in u.handles ensures u.handles[k].store == t.handles[k].store {
      StoresAlongRun(t, between, k);
    }
  }

  /** A `Get`, interleaved with anything, yields a store of its name. */
  lemma GetYieldsItsName(s: State, n: Name, id: StoreId, between: seq<Action>, h: HandleId)
    requires Inv(s) && WholeGet(s, n, id, between, h)
    ensures Yields(s, n, id, h, After(s, [GetLookup(n, id)] + between + [GetReturn(h)]))
  {
    SplitGet(s, n, id, between, h);
    LookupFinds(s, n, id);
    var t := Apply(s, GetLookup(n, id));
    var u := After(t, between);
    Returned(u, h);
    HeldBetween(t, between);
    YieldsFrom(s, n, id, h, t, u);
  }

  // ---------- names over every run ----------

  /** What a run tells about names: the store being got and every handle's store have the name that was asked for. */
  ghost predicate WellNamed(acts: seq<Action>, s: State) {
    && (s.mu.Getting? ==> s.mu.store in s.stores && LastLookup(acts) == Asked(s.stores[s.mu.store].name))
    && (forall h <- s.handles ::
          s.handles[h].store in s.stores && GotUnder(acts, h) == Asked(s.stores[s.handles[h].store].name))
  }

  lemma NamedHandle(acts: seq<Action>, a: Action, s: State, h: HandleId)
    requires Inv(s) && Enabled(s, a) && WellNamed(acts, s) && h in Apply(s, a).handles
    ensures var t := Apply(s, a);
            t.handles[h].store in t.stores && GotUnder(acts + [a], h) == Asked(t.stores[t.handles[h].store].name)
  {
    var t, all := Apply(s, a), acts + [a];
    assert all[..|all| - 1] == acts && all[|all| - 1] == a;
    if h in s.handles {
      HandleStep(s, a, h);
      StoreStep(s, a, s.handles[h].store);
    } else {
      ReturnStep(s, a, h);
    }
  }

  lemma NamedGet(acts: seq<Action>, a: Action, s: State)
    requires Inv(s) && Enabled(s, a) && WellNamed(acts, s) && Apply(s, a).mu.Getting?
    ensures var t := Apply(s, a);
            t.mu.store in t.stores && LastLookup(acts + [a]) == Asked(t.stores[t.mu.store].name)
  {
    var t, all := Apply(s, a), acts + [a];
    assert all[..|all| - 1] == acts && all[|all| - 1] == a;
    if a.GetLookup? {
      LookupFinds(s, a.name, a.newId);
    } else {
      StillGetting(s, a);
      StoreStep(s, a, s.mu.store);
    }
  }

  /** In every interleaving. */
  lemma {:induction false} NamesAreKept(acts: seq<Action>)
    requires Run(Init, acts)
    ensures WellNamed(acts, After(Init, acts))
  {
    if acts != [] {
      var init, a := acts[..|acts| - 1], acts[|acts| - 1];
      RunInit(Init, acts);
      NamesAreKept(init);
      InvAlongRun(Init, init);
      var s := After(Init, init);
      assert acts == init + [a];
      forall h | h in Apply(s, a).handles
        ensures var t := Apply(s, a);
                t.handles[h].store in t.stores && GotUnder(acts, h) == Asked(t.stores[t.handles[h].store].name)
      {
        NamedHandle(init, a, s, h);
      }
      if Apply(s, a).mu.Getting? { NamedGet(init, a, s); }
    }
  }

  // ---------- one store for one name ----------

  predicate BothHold(s: State, h: HandleId, k: HandleId) {
    h in s.handles && k in s.handles && s.handles[h].Holds() && s.handles[k].Holds()
  }

  /** Handles of one store were got under one name, in every run. */
  lemma OneStoreOneName(acts: seq<Action>, h: HandleId, k: HandleId)
    requires Run(Init, acts)
    requires var s := After(Init, acts); h in s.handles && k in s.handles && s.handles[h].store == s.handles[k].store
    ensures GotUnder(acts, h) == GotUnder(acts, k)
  {
    NamesAreKept(acts);
  }

  /** Without a hazard two handles in use share a store if and only if they were got under one name. */
  lemma SharedIffOneName(acts: seq<Action>, h: HandleId, k: HandleId)
    requires Run(Init, acts) && HazardFree(Init, acts) && BothHold(After(Init, acts), h, k)
    ensures var s := After(Init, acts);
            s.handles[h].store == s.handles[k].store <==> GotUnder(acts, h) == GotUnder(acts, k)
  {
    NamesAreKept(acts);
    OrderlyAlongRun(Init, acts);
    var s := After(Init, acts);
    assert Needs(s.handles, h) && Needs(s.handles, k);
  }

  /** Two handles in use that were got under one name and do not share. */
  ghost predicate SplitBetween(s: State, h: HandleId, k: HandleId) {
    && BothHold(s, h, k) && s.handles[h].store != s.handles[k].store
    && s.handles[h].store in s.stores && s.handles[k].store in s.stores
    && s.stores[s.handles[h].store].name == s.stores[s.handles[k].store].name
  }

  ghost predicate CanSplit(s: State) {
    exists t, h, k :: Leads(s, t) && SplitBetween(t, h, k)
  }

  lemma LeadsFurther(s: State, t: State, u: State)
    requires Leads(s, t) && Leads(t, u)
    ensures Leads(s, u)
  {
    var a :| Run(s, a) && After(s, a) == t;
    var b :| Run(t, b) && After(t, b) == u;
    RunConcat(s, a, b);
    assert Run(s, a + b) && After(s, a + b) == u;
  }

  lemma LeadsByOne(s: State, a: Action)
    requires Enabled(s, a)
    ensures Leads(s, Apply(s, a))
  {
    LeadsSelf(Apply(s, a));
    LeadsVia(s, a, Apply(s, a), Apply(s, a));
  }

  /** A `Get` of a name that is not active, with nothing in between. */
  lemma FreshGet(s: State, n: Name) returns (t: State, id: StoreId, h: HandleId)
    requires s.fault.NoFault? && s.mu.Free? && n !in s.active
    ensures Leads(s, t) && id !in s.stores && h !in s.handles
    ensures t == s.(stores := s.stores[id := Shared(n, 1, 0)], handles := s.handles[h := Handle(id, Open, 0)],
                    active := s.active[n := id], waiting := s.waiting + 1)
  {
    id := UnusedId(s.stores);
    h := UnusedId(s.handles);
    var s1 := Create(s, n, id);
    var s2 := WithRefs(s1, id, 2, Getting(id, true, true));
    var s3 := WithRefs(s2, id, 1, Getting(id, false, true));
    t := WithHandle(s3, h, Handle(id, Open, 0)).(mu := Free);
    assert Apply(s, GetLookup(n, id)) == s1;
    assert Apply(s1, GetRetain) == s2;
    assert Apply(s2, GetDropTemp) == s3;
    assert Apply(s3, GetReturn(h)) == t;
    assert t.stores == s.stores[id := Shared(n, 1, 0)];
    LeadsByOne(s3, GetReturn(h));
    LeadsVia(s2, GetDropTemp, s3, t);
    LeadsVia(s1, GetRetain, s2, t);
    LeadsVia(s, GetLookup(n, id), s1, t);
  }

  /** The first recheck unregisters the old store, the second unregisters the new one that was opened in between. */
  lemma MetSplits(s: State, h: HandleId, k: HandleId)
    requires Met(s, h, k)
    ensures CanSplit(s)
  {
    var n := s.stores[s.handles[h].store].name;
    RegisteredWaits(s, s.handles[h].store);
    var s1 := Unregister(s, h, n);
    assert Apply(s, Recheck(h)) == s1;
    LeadsByOne(s, Recheck(h));
    var s2, id, a := FreshGet(s1, n);
    RegisteredCounts(s, s1, n);
    var s3 := Unregister(s2, k, n);
    assert Apply(s2, Recheck(k)) == s3;
    LeadsByOne(s2, Recheck(k));
    var s4, other, b := FreshGet(s3, n);
    LeadsFurther(s, s1, s2);
    LeadsFurther(s, s2, s3);
    LeadsFurther(s, s3, s4);
    assert SplitBetween(s4, a, b);
  }

  lemma RegisteredCounts(s: State, t: State, n: Name)
    requires ActiveOk(s.stores, s.active, s.waiting) && n in s.active && t.waiting == s.waiting - 1
    ensures t.waiting + 1 > 0
  {
    assert n in s.active.Keys;
  }

  /** After the first hazard of a run some continuation has two handles in use of one name with a store each. */
  lemma HazardCanSplit(acts: seq<Action>, a: Action)
    requires Run(Init, acts) && HazardFree(Init, acts)
    requires Enabled(After(Init, acts), a) && Hazard(After(Init, acts), a)
    ensures CanSplit(Apply(After(Init, acts), a))
  {
    OrderlyAlongRun(Init, acts);
    var s := After(Init, acts);
    InvKept(s, a);
    var t, h, k := HazardMeets(s, a);
    MetSplits(t, h, k);
    var u, x, y :| Leads(t, u) && SplitBetween(u, x, y);
    LeadsFurther(Apply(s, a), t, u);
    assert SplitBetween(u, x, y);
  }

  // ---------- what steps at a distance see ----------

  lemma RunSnoc(acts: seq<Action>, a: Action)
    requires Run(Init, acts + [a])
    ensures Run(Init, acts) && Enabled(After(Init, acts), a)
  {
    RunInit(Init, acts + [a]);
    assert (acts + [a])[..|acts + [a]| - 1] == acts;
  }

  /** In every run an operation through a handle reaches an open backend of the name the handle was got under. */
  lemma OperationsReachTheirStore(acts: seq<Action>, h: HandleId)
    requires Run(Init, acts + [OpCall(h)])
    ensures Run(Init, acts)
    ensures var s := After(Init, acts);
            && h in s.handles && s.handles[h].store in s.stores
            && s.stores[s.handles[h].store].closes == 0
            && GotUnder(acts, h) == Asked(s.stores[s.handles[h].store].name)
  {
    RunSnoc(acts, OpCall(h));
    NoUseAfterClose(acts);
    NamesAreKept(acts);
  }

  /** Without a hazard, when the backend registry is closed no handle holds a store, and no name is active. */
  lemma RegistryCloseComesLast(acts: seq<Action>)
    requires Run(Init, acts + [RegistryClose]) && Run(Init, acts) && HazardFree(Init, acts)
    ensures var s := After(Init, acts);
            s.active == map[] && forall h <- s.handles :: s.handles[h].phase.Unregistered? || s.handles[h].phase.Closed?
  {
    RunSnoc(acts, RegistryClose);
    WhenRegistryMayClose(acts);
  }
}
