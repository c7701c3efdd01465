/** What a user of the registry can do: get a store under any name, use an open handle, and not use a closed one. */
module StateStoreUse {
  import opened StateStore
  import opened StateStoreReaping
  import opened StateStoreClose
  import opened StateStoreNames

  // ---------- operations ----------

  /** An open handle accepts an operation at any time; the operation calls the backend and leaves everything as it was. */
  lemma OpenHandleWorks(acts: seq<Action>, h: HandleId)
    requires Run(Init, acts)
    requires var s := After(Init, acts); s.fault.NoFault? && h in s.handles && s.handles[h].phase.Open?
    ensures Run(Init, acts + [OpBegin(h), OpCall(h), OpEnd(h)])
    ensures After(Init, acts + [OpBegin(h), OpCall(h), OpEnd(h)]) == After(Init, acts)
  {
    var s := After(Init, acts);
    InvAlongRun(Init, acts);
    NoUseAfterClose(acts);
    OperationRuns(s, h);
    RunConcat(Init, acts, [OpBegin(h), OpCall(h), OpEnd(h)]);
  }

  lemma OperationRuns(s: State, h: HandleId)
    requires s.fault.NoFault? && h in s.handles && s.handles[h].phase.Open? && s.handles[h].store in s.stores
    requires s.stores[s.handles[h].store].closes == 0
    ensures Run(s, [OpBegin(h), OpCall(h), OpEnd(h)]) && After(s, [OpBegin(h), OpCall(h), OpEnd(h)]) == s
  {
    var s1 := Apply(s, OpBegin(h));
    assert s1 == WithHandle(s, h, s.handles[h].(ops := s.handles[h].ops + 1));
    assert Apply(s1, OpCall(h)) == s1;
    assert Apply(s1, OpEnd(h)) == s;
    var acts := [OpBegin(h), OpCall(h), OpEnd(h)];
    assert acts[1..] == [OpCall(h), OpEnd(h)] && acts[1..][1..] == [OpEnd(h)] && acts[1..][1..][1..] == [];
    assert Run(s1, [OpEnd(h)]) && After(s1, [OpEnd(h)]) == s;
    assert Run(s1, [OpCall(h), OpEnd(h)]) && After(s1, [OpCall(h), OpEnd(h)]) == s;
  }

  lemma NeverReopened(s: State, a: Action, h: HandleId)
    requires Enabled(s, a) && h in s.handles && !s.handles[h].phase.Open?
    ensures h in Apply(s, a).handles && !Apply(s, a).handles[h].phase.Open?
  {
  }

  /** Once Close has begun the handle accepts no operation any more, whatever happens later. */
  lemma {:induction false} ClosedHandleRefuses(s: State, acts: seq<Action>, h: HandleId)
    requires Run(s, acts) && h in s.handles && !s.handles[h].phase.Open?
    ensures var t := After(s, acts); h in t.handles && !Enabled(t, OpBegin(h))
    decreases |acts|
  {
    if acts != [] {
      NeverReopened(s, acts[0], h);
      ClosedHandleRefuses(Apply(s, acts[0]), acts[1..], h);
    }
  }

  // ---------- getting a store ----------

  /** A `Get` of an active name, with nothing in between. */
  lemma ActiveGet(s: State, n: Name) returns (t: State, h: HandleId)
    requires s.fault.NoFault? && s.mu.Free? && n in s.active && s.active[n] in s.stores
    ensures Leads(s, t) && h !in s.handles
    ensures var id := s.active[n];
            t == s.(stores := s.stores[id := s.stores[id].(refs := s.stores[id].refs + 1)],
                    handles := s.handles[h := Handle(id, Open, 0)])
  {
    var id := s.active[n];
    var unused := UnusedId(s.stores);
    h := UnusedId(s.handles);
    var s1 := s.(mu := Getting(id, false, false));
    var s2 := WithRefs(s1, id, s.stores[id].refs + 1, Getting(id, false, true));
    t := WithHandle(s2, h, Handle(id, Open, 0)).(mu := Free);
    assert Apply(s, GetLookup(n, unused)) == s1;
    assert Apply(s1, GetRetain) == s2;
    assert Apply(s2, GetReturn(h)) == t;
    LeadsByOne(s2, GetReturn(h));
    LeadsVia(s1, GetRetain, s2, t);
    LeadsVia(s, GetLookup(n, unused), s1, t);
  }

  /** Whenever nobody holds the mutex and nothing has panicked, a store can be got under any name. */
  lemma AnyNameCanBeGot(acts: seq<Action>, n: Name) returns (t: State, h: HandleId)
    requires Run(Init, acts)
    requires var s := After(Init, acts); s.fault.NoFault? && s.mu.Free?
    ensures Leads(After(Init, acts), t) && h !in After(Init, acts).handles
    ensures h in t.handles && t.handles[h].phase.Open? && t.handles[h].store in t.stores
    ensures t.stores[t.handles[h].store].name == n && t.stores[t.handles[h].store].closes == 0
  {
    var s := After(Init, acts);
    InvAlongRun(Init, acts);
    if n in s.active {
      t, h := ActiveGet(s, n);
    } else {
      var id;
      t, id, h := FreshGet(s, n);
    }
  }
}
