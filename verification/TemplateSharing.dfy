/**
Templates that share their properties with the output.  Processing leaves alone what is shared elsewhere, and a template
that shares properties always finds them in the output.
*/
module TemplateSharing {
  import opened Names
  import opened Options
  import opened Templates
  import opened TemplateMerging
  import opened TemplateTidying
  import opened TemplateCollections

  // ---------- only what stands below is touched ----------

  /** The template shares a map strictly below the place. */
  predicate Under(t: Template, place: Path) {
    At(t, place) && t.home.value != place
  }

  /** From `a` to `b` only templates that share something below the place have changed, and new ones share nothing else. */
  predicate Confined(place: Path, a: seq<Template>, b: seq<Template>) {
    && |a| <= |b|
    && (forall i | 0 <= i < |a| :: Later(a[i], b[i]) && (!Under(a[i], place) ==> b[i] == a[i]))
    && (forall i | |a| <= i < |b| :: b[i].home.Some? ==> Under(b[i], place))
  }

  lemma ConfinedTwice(place: Path, a: seq<Template>, b: seq<Template>, c: seq<Template>)
    requires Confined(place, a, b) && Confined(place, b, c)
    ensures Confined(place, a, c)
  {
    forall i | 0 <= i < |a| ensures Later(a[i], c[i]) && (!Under(a[i], place) ==> c[i] == a[i]) {
      assert Later(a[i], b[i]) && Later(b[i], c[i]);
    }
    forall i | |a| <= i < |c| && c[i].home.Some? ensures Under(c[i], place) {
      if i < |b| {
        assert Later(b[i], c[i]);
      }
    }
  }

  lemma ConfinedOutside(place: Path, inner: Path, a: seq<Template>, b: seq<Template>)
    requires Confined(inner, a, b) && place < inner
    ensures Confined(place, a, b)
  {
    forall t: Template | Under(t, inner) ensures Under(t, place) {
      assert place <= inner <= t.home.value;
    }
  }

  lemma FreezeConfined(place: Path, ts: seq<Template>, at: Path, out: Mapping, under: Path)
    requires at <= under && place < under
    ensures Confined(place, ts, FreezeAll(ts, at, out, under))
  {
    var frozen := FreezeAll(ts, at, out, under);
    forall i | 0 <= i < |ts| ensures Later(ts[i], frozen[i]) && (!Under(ts[i], place) ==> frozen[i] == ts[i]) {
      assert frozen[i] == FreezeOne(ts[i], at, out, under);
      if At(ts[i], under) {
        assert place <= under <= ts[i].home.value;
      }
    }
  }

  lemma AddTemplateConfined(place: Path, shared: Shared, t: Template)
    requires t.home.Some? ==> Under(t, place)
    ensures Confined(place, shared.templates, AddTemplate(shared, t).templates)
  {
  }

  lemma {:induction false} AddDynamicConfined(
    place: Path, f: Field, path: string, ds: seq<Option<Dynamic>>, shared: Shared)
    ensures Confined(place, shared.templates, AddDynamic(f, path, ds, shared).templates)
    decreases |ds|
  {
    if ds != [] {
      if ds[0].None? {
        AddDynamicConfined(place, f, path, ds[1..], shared);
      } else {
        var d, full := ds[0].value, FullName(path, f.name);
        var pathMatch := if '*' in full then full else full + ".*";
        var name := if |f.objectTypes| > 1 then full + "_" + d.matching else full;
        var next := AddTemplate(shared, Template(name, pathMatch, d.matching, d.mapping, None));
        AddTemplateConfined(place, shared, Template(name, pathMatch, d.matching, d.mapping, None));
        AddDynamicConfined(place, f, path, ds[1..], next);
        ConfinedTwice(
          place, shared.templates, next.templates, AddDynamic(f, path, ds[1..], next).templates);
      }
    }
  }

  lemma {:induction false} AnalyzersKeepTemplates(list: seq<Analyzer>, o: Outcome)
    ensures AddAnalyzers(list, o).shared.templates == o.shared.templates
    decreases |list|
  {
    if list != [] && o.error.None? {
      if list[0].definition.None? {
        AnalyzersKeepTemplates(list[1..], o);
      } else {
        var name, d, known := list[0].name, list[0].definition.value, o.shared.analyzers;
        var error := if name in known && known[name] != d then Some(Inconsistent(name)) else None;
        AnalyzersKeepTemplates(list[1..], Outcome(o.out, o.shared.(analyzers := known[name := d]), error));
      }
    }
  }

  /** The templates of a finished field, and its output. */
  lemma FinishIsPlacing(p: Settings, f: Field, st: State, r: Rendered)
    requires r.after.error.None?
    ensures var placed := Placing(p, f, st.place, r);
            Finish(p, f, st, r).shared.templates == placed.shared.templates && Finish(p, f, st, r).out == placed.out
  {
    var collected := AddDefault(f, st.path, st.defaultField, r.after.shared);
    var placed := Placing(p, f, st.place, r.(after := r.after.(shared := collected)));
    AnalyzersKeepTemplates(f.analyzers, placed);
    AnalyzersKeepOut(f.analyzers, placed);
  }

  lemma FinishConfined(p: Settings, f: Field, st: State, r: Rendered)
    requires r.home.Some? ==> st.place < r.home.value
    ensures Confined(st.place, r.after.shared.templates, Finish(p, f, st, r).shared.templates)
  {
    if r.after.error.None? {
      FinishIsPlacing(p, f, st, r);
      AddTemplateConfined(st.place, r.after.shared, OwnTemplate(f, r));
      FreezeConfined(st.place, r.after.shared.templates, st.place, r.after.out, st.place + KeyOf(f));
    }
  }

  lemma {:induction false} ProcessConfined(p: Settings, fs: seq<Field>, st: State, out: Mapping, shared: Shared)
    ensures Confined(st.place, shared.templates, Process(p, fs, st, out, shared).shared.templates)
    decreases fs, 2
  {
    if fs != [] {
      var r := ProcessOne(p, fs[0], st, out, shared);
      FieldConfined(p, fs[0], st, out, shared);
      if r.error.None? {
        ProcessConfined(p, fs[1..], st, r.out, r.shared);
        ConfinedTwice(
          st.place, shared.templates, r.shared.templates, Process(p, fs[1..], st, r.out, r.shared).shared.templates);
      }
    }
  }

  lemma FieldConfined(p: Settings, f: Field, st: State, out: Mapping, shared: Shared)
    ensures Confined(st.place, shared.templates, ProcessOne(p, f, st, out, shared).shared.templates)
    decreases f, 1
  {
    if f.name != "" {
      var inner := Applied(f, st);
      var r := Render(p, f, inner, out, shared);
      RenderConfined(p, f, inner, out, shared);
      FinishConfined(p, f, inner, r);
      ConfinedTwice(
        st.place, shared.templates, r.after.shared.templates, Finish(p, f, inner, r).shared.templates);
    }
  }

  lemma RenderConfined(p: Settings, f: Field, st: State, out: Mapping, shared: Shared)
    ensures var r := Render(p, f, st, out, shared);
            && Confined(st.place, shared.templates, r.after.shared.templates)
            && (r.home.Some? ==> st.place < r.home.value)
    decreases f, 0, 1
  {
    if Grouping(f) {
      GroupConfined(p, f, st, out, shared);
    } else {
      LeafCases(p, f, st, out, shared);
      MultiConfined(p, f, st, true, out, shared);
      MultiConfined(p, f, st, false, out, shared);
      AddDynamicConfined(st.place, f, st.path, f.objectTypes, shared);
    }
  }

  lemma GroupConfined(p: Settings, f: Field, st: State, out: Mapping, shared: Shared)
    ensures Confined(st.place, shared.templates, GroupOf(p, f, st, out, shared).after.shared.templates)
    decreases f, 0, 0
  {
    var inner := State(FullName(st.path, f.name), st.defaultField, st.place + Below(f));
    var r := Process(p, f.fields, inner, PropertiesAt(out, Below(f)), shared);
    ProcessConfined(p, f.fields, inner, PropertiesAt(out, Below(f)), shared);
    ConfinedOutside(st.place, inner.place, shared.templates, r.shared.templates);
    FreezeConfined(st.place, r.shared.templates, inner.place, r.out, inner.place);
    ConfinedTwice(
      st.place, shared.templates, r.shared.templates,
      FreezeAll(r.shared.templates, inner.place, r.out, inner.place));
  }

  lemma MultiConfined(p: Settings, f: Field, st: State, bare: bool, out: Mapping, shared: Shared)
    ensures Confined(st.place, shared.templates, Multi(p, f, st, bare, out, shared).after.shared.templates)
    decreases f, 0, 0
  {
    var inner := MultiState(f, st, bare);
    var r := Process(p, f.multiFields, inner, map[], shared);
    ProcessConfined(p, f.multiFields, inner, map[], shared);
    ConfinedOutside(st.place, inner.place, shared.templates, r.shared.templates);
    FreezeConfined(st.place, r.shared.templates, inner.place, r.out, inner.place);
    ConfinedTwice(
      st.place, shared.templates, r.shared.templates,
      FreezeAll(r.shared.templates, inner.place, r.out, inner.place));
  }

  // ---------- what is shared is there ----------

  /** Names and "properties" in turn, ending in "properties". */
  predicate Shaped(path: Path) {
    |path| % 2 == 0 && forall i | 0 <= i < |path| :: i % 2 == 1 ==> path[i] == PROPERTIES
  }

  lemma {:induction false} KeyShape(parts: Path)
    requires parts != []
    ensures var key := KeyPath(parts);
            |key| % 2 == 1 && forall i | 0 <= i < |key| :: i % 2 == 1 ==> key[i] == PROPERTIES
  {
    if |parts| > 1 {
      var rest := KeyPath(parts[1..]);
      KeyShape(parts[1..]);
      var key := [parts[0], PROPERTIES] + rest;
      forall i | 0 <= i < |key| && i % 2 == 1 ensures key[i] == PROPERTIES {
        assert i >= 2 ==> key[i] == rest[i - 2];
      }
    }
  }

  lemma BelowShaped(f: Field)
    ensures Shaped(Below(f))
  {
    KeyShape(Split(f.name));
  }

  /** What stands at or below a field stands in its properties. */
  lemma KeyThenProperties(f: Field, path: Path)
    requires Shaped(path) && KeyOf(f) <= path
    ensures Below(f) <= path
  {
    KeyShape(Split(f.name));
    var n := |KeyOf(f)|;
    assert n < |path| && path[n] == PROPERTIES;
    assert path[..n + 1] == KeyOf(f) + [PROPERTIES];
  }

  predicate Filled(v: Option<Value>) {
    v.Some? && v.value.Object? && v.value.members != map[]
  }

  /** A template that shares something below the place finds it there, and it is not empty. */
  predicate Leads(place: Path, out: Mapping, t: Template) {
    Under(t, place) ==> Shaped(t.home.value[|place|..]) && Filled(Get(out, t.home.value[|place|..]))
  }

  predicate AllLead(place: Path, out: Mapping, ts: seq<Template>) {
    forall i | 0 <= i < |ts| :: Leads(place, out, ts[i])
  }

  lemma {:induction false} GetThrough(m: Mapping, a: Path, b: Path)
    requires a != [] && b != []
    ensures Get(m, a + b) == if Get(m, a).Some? && Get(m, a).value.Object? then Get(Get(m, a).value.members, b) else None
    decreases |a|
  {
    if |a| == 1 {
      assert (a + b)[1..] == b;
    } else if a[0] in m && m[a[0]].Object? {
      assert (a + b)[1..] == a[1..] + b;
      GetThrough(m[a[0]].members, a[1..], b);
    }
  }

  lemma {:induction false} PutKeepsFilled(m: Mapping, path: Path, v: Value, q: Path)
    requires path != [] && q != [] && !(path <= q) && Filled(Get(m, q))
    ensures Filled(Get(Put(m, path, v), q))
    decreases |path|
  {
    if path[0] == q[0] {
      assert |path| > 1;
      var below := m[path[0]].members;
      if |q| == 1 {
        PutKeepsKeys(below, path[1..], v);
      } else {
        assert path == [path[0]] + path[1..] && q == [q[0]] + q[1..];
        PutKeepsFilled(below, path[1..], v, q[1..]);
      }
    }
  }

  lemma {:induction false} GetAfterPut(m: Mapping, path: Path, v: Value)
    requires path != [] && Get(m, path).Some?
    ensures Get(Put(m, path, v), path) == Some(v)
    decreases |path|
  {
    if |path| > 1 {
      GetAfterPut(m[path[0]].members, path[1..], v);
    }
  }

  lemma PlaceAndKey(place: Path, key: Path, home: Path)
    ensures place + key <= home <==> place <= home && key <= home[|place|..]
    ensures place + key <= home ==> home[|place|..] == key + home[|place + key|..]
  {
    if place + key <= home {
      assert home == place + key + home[|place + key|..];
      assert home[|place|..] == key + home[|place + key|..];
    }
    if place <= home && key <= home[|place|..] {
      assert home == place + home[|place|..];
    }
  }

  /** Behind a change in which nothing below `inner` is shared any more, what is shared elsewhere is still there. */
  lemma LeadsAfterInner(place: Path, out: Mapping, inner: Path, a: seq<Template>, b: seq<Template>, last: Mapping)
    requires AllLead(place, out, a) && Confined(inner, a, b) && (forall i | 0 <= i < |a| :: !At(a[i], inner))
    ensures AllLead(place, out, FreezeAll(b, inner, last, inner))
  {
    var frozen := FreezeAll(b, inner, last, inner);
    forall i | 0 <= i < |frozen| ensures Leads(place, out, frozen[i]) {
      assert frozen[i] == FreezeOne(b[i], inner, last, inner);
      if i < |a| {
        assert b[i] == a[i] && Leads(place, out, a[i]);
      }
    }
  }

  lemma NotThroughFields(f: Field, path: Path)
    requires Shaped(path)
    ensures !(KeyOf(f) + ["fields"] <= path)
  {
    KeyShape(Split(f.name));
    var key := KeyOf(f) + ["fields"];
    if |key| <= |path| {
      assert path[|key| - 1] == PROPERTIES && key[|key| - 1] == "fields";
      assert PROPERTIES[0] != "fields"[0];
    }
  }

  lemma NothingAtMulti(place: Path, out: Mapping, f: Field, ts: seq<Template>)
    requires AllLead(place, out, ts)
    ensures forall i | 0 <= i < |ts| :: !At(ts[i], place + KeyOf(f) + ["fields"])
  {
    assert place + KeyOf(f) + ["fields"] == place + (KeyOf(f) + ["fields"]);
    forall i | 0 <= i < |ts| ensures !At(ts[i], place + (KeyOf(f) + ["fields"])) {
      assert Leads(place, out, ts[i]);
      if Under(ts[i], place) {
        NotThroughFields(f, ts[i].home.value[|place|..]);
        PlaceAndKey(place, KeyOf(f) + ["fields"], ts[i].home.value);
      }
    }
  }

  lemma MissingIsNotFilled(out: Mapping, key: Path, path: Path)
    requires key != [] && key <= path && Get(out, key).None?
    ensures !Filled(Get(out, path))
  {
    if key != path {
      assert path == key + path[|key|..];
      GetThrough(out, key, path[|key|..]);
    }
  }

  /** No template shares properties that are not there. */
  lemma NothingAtMissing(place: Path, out: Mapping, f: Field, ts: seq<Template>)
    requires AllLead(place, out, ts) && Get(out, Below(f)).None?
    ensures forall i | 0 <= i < |ts| :: !At(ts[i], place + Below(f))
  {
    forall i | 0 <= i < |ts| ensures !At(ts[i], place + Below(f)) {
      MissingIsNotShared(place, out, f, ts[i]);
    }
  }

  lemma MissingIsNotShared(place: Path, out: Mapping, f: Field, t: Template)
    requires Leads(place, out, t) && Get(out, Below(f)).None?
    ensures !At(t, place + Below(f))
  {
    if t.home.Some? {
      PlaceAndKey(place, Below(f), t.home.value);
      if Under(t, place) && Below(f) <= t.home.value[|place|..] {
        MissingIsNotFilled(out, Below(f), t.home.value[|place|..]);
      }
    }
  }

  lemma MultiLeads(p: Settings, f: Field, st: State, bare: bool, out: Mapping, shared: Shared)
    requires AllLead(st.place, out, shared.templates)
    ensures AllLead(st.place, out, Multi(p, f, st, bare, out, shared).after.shared.templates)
  {
    if f.multiFields != [] {
      var inner := MultiState(f, st, bare);
      var r := Process(p, f.multiFields, inner, map[], shared);
      NothingAtMulti(st.place, out, f, shared.templates);
      ProcessConfined(p, f.multiFields, inner, map[], shared);
      LeadsAfterInner(st.place, out, inner.place, shared.templates, r.shared.templates, r.out);
    }
  }

  lemma AddTemplateLeads(place: Path, out: Mapping, shared: Shared, t: Template)
    requires AllLead(place, out, shared.templates) && Leads(place, out, t)
    ensures AllLead(place, out, AddTemplate(shared, t).templates)
  {
  }

  lemma {:induction false} AddDynamicLeads(
    place: Path, out: Mapping, f: Field, path: string, ds: seq<Option<Dynamic>>, shared: Shared)
    requires AllLead(place, out, shared.templates)
    ensures AllLead(place, out, AddDynamic(f, path, ds, shared).templates)
    decreases |ds|
  {
    if ds != [] {
      if ds[0].None? {
        AddDynamicLeads(place, out, f, path, ds[1..], shared);
      } else {
        var d, full := ds[0].value, FullName(path, f.name);
        var pathMatch := if '*' in full then full else full + ".*";
        var name := if |f.objectTypes| > 1 then full + "_" + d.matching else full;
        var t := Template(name, pathMatch, d.matching, d.mapping, None);
        AddTemplateLeads(place, out, shared, t);
        AddDynamicLeads(place, out, f, path, ds[1..], AddTemplate(shared, t));
      }
    }
  }

  /** A leaf ends the sharing where it takes the place of something, and disturbs nothing else. */
  lemma LeafLeads(p: Settings, f: Field, st: State, out: Mapping, shared: Shared)
    requires !Grouping(f) && AllLead(st.place, out, shared.templates)
    ensures var o := ProcessOne(p, f, st, out, shared); AllLead(st.place, o.out, o.shared.templates)
  {
    if f.name != "" {
      var inner := Applied(f, st);
      var r := Render(p, f, inner, out, shared);
      LeafCases(p, f, inner, out, shared);
      MultiLeads(p, f, inner, true, out, shared);
      MultiLeads(p, f, inner, false, out, shared);
      AddDynamicLeads(st.place, out, f, st.path, f.objectTypes, shared);
      FinishIsPlacing(p, f, inner, r);
      AddTemplateLeads(st.place, out, r.after.shared, OwnTemplate(f, r));
      OverwriteLeads(st.place, out, f, r.after.shared.templates, Object(r.mapping));
    }
  }

  lemma OverwriteLeads(place: Path, out: Mapping, f: Field, ts: seq<Template>, v: Value)
    requires AllLead(place, out, ts)
    ensures AllLead(place, Put(out, KeyOf(f), v), FreezeAll(ts, place, out, place + KeyOf(f)))
  {
    var frozen := FreezeAll(ts, place, out, place + KeyOf(f));
    forall i | 0 <= i < |ts| ensures Leads(place, Put(out, KeyOf(f), v), frozen[i]) {
      assert frozen[i] == FreezeOne(ts[i], place, out, place + KeyOf(f));
      assert Leads(place, out, ts[i]);
      if Under(frozen[i], place) {
        var rel := ts[i].home.value[|place|..];
        PlaceAndKey(place, KeyOf(f), ts[i].home.value);
        PutKeepsFilled(out, KeyOf(f), v, rel);
      }
    }
  }

  // ---------- groups ----------

  lemma InsideLeads(f: Field, place: Path, out: Mapping, ts: seq<Template>)
    requires AllLead(place, out, ts) && Fits(f, out)
    ensures AllLead(place + Below(f), PropertiesAt(out, Below(f)), ts)
  {
    var at := place + Below(f);
    BelowShaped(f);
    forall i | 0 <= i < |ts| ensures Leads(at, PropertiesAt(out, Below(f)), ts[i]) {
      assert Leads(place, out, ts[i]);
      if Under(ts[i], at) {
        var home := ts[i].home.value;
        PlaceAndKey(place, Below(f), home);
        var rest := home[|at|..];
        assert home[|place|..] == Below(f) + rest;
        GetThrough(out, Below(f), rest);
        TailShaped(Below(f), rest);
      }
    }
  }

  lemma TailShaped(a: Path, b: Path)
    requires Shaped(a)
    ensures Shaped(a + b) <==> Shaped(b)
  {
    if Shaped(a + b) {
      forall i | 0 <= i < |b| && i % 2 == 1 ensures b[i] == PROPERTIES {
        assert (a + b)[|a| + i] == b[i];
      }
    }
    if Shaped(b) {
      forall i | 0 <= i < |a + b| && i % 2 == 1 ensures (a + b)[i] == PROPERTIES {
        assert i >= |a| ==> (a + b)[i] == b[i - |a|];
      }
    }
  }

  /** With `properties` standing below the group, what leads inside leads outside, and what stands elsewhere stays. */
  lemma OutsideLeads(f: Field, place: Path, out: Mapping, next: Mapping, properties: Mapping, t: Template)
    requires At(t, place + Below(f)) ==> Leads(place + Below(f), properties, t) && properties != map[]
    requires properties != map[] ==> Get(next, Below(f)) == Some(Object(properties))
    requires !At(t, place + Below(f)) ==> Leads(place, out, t)
    requires forall q :: q != [] && !(Below(f) <= q) && Shaped(q) && Filled(Get(out, q)) ==> Filled(Get(next, q))
    ensures Leads(place, next, t)
  {
    var at := place + Below(f);
    BelowShaped(f);
    if At(t, at) {
      var home := t.home.value;
      PlaceAndKey(place, Below(f), home);
      var rest := home[|at|..];
      TailShaped(Below(f), rest);
      if rest == [] {
        assert Below(f) + rest == Below(f);
      } else {
        GetThrough(next, Below(f), rest);
      }
    } else if Under(t, place) {
      PlaceAndKey(place, Below(f), t.home.value);
    }
  }

  /** What processing the fields of a group leaves behind for its templates. */
  ghost predicate Worked(
    f: Field, place: Path, out: Mapping, before: seq<Template>, after: seq<Template>, properties: Mapping) {
    && AllLead(place, out, before) && Confined(place + Below(f), before, after)
    && AllLead(place + Below(f), properties, after)
    && (PropertiesAt(out, Below(f)) != map[] ==> properties != map[])
  }

  lemma FieldsWork(p: Settings, f: Field, st: State, out: Mapping, shared: Shared)
    requires GroupLike(f) && AllLead(st.place, out, shared.templates)
    requires var r := Fields(p, f, st, out, shared); AllLead(st.place + Below(f), r.out, r.shared.templates)
    ensures var r := Fields(p, f, st, out, shared);
            Worked(f, st.place, out, shared.templates, r.shared.templates, r.out)
  {
    ProcessConfined(p, f.fields, Inside(f, st), PropertiesAt(out, Below(f)), shared);
    ProcessKeepsKeys(p, f.fields, Inside(f, st), PropertiesAt(out, Below(f)), shared);
  }

  lemma WorkedTemplate(
    f: Field, place: Path, out: Mapping, before: seq<Template>, after: seq<Template>, properties: Mapping, i: nat)
    requires Worked(f, place, out, before, after, properties) && i < |after|
    ensures var at, t := place + Below(f), after[i];
            && (At(t, at) ==> Leads(at, properties, t) && properties != map[])
            && (!At(t, at) ==> Leads(place, out, t))
  {
    var at, t := place + Below(f), after[i];
    assert Leads(at, properties, t);
    if i < |before| {
      assert Later(before[i], t) && Leads(place, out, before[i]);
    }
    if At(t, at) && t.home.value == at {
      PlaceAndKey(place, Below(f), at);
      assert at[|place|..] == Below(f);
    } else if At(t, at) {
      assert Filled(Get(properties, t.home.value[|at|..]));
    }
  }

  lemma WorkedLeads(
    f: Field, place: Path, out: Mapping, before: seq<Template>, after: seq<Template>, properties: Mapping, next: Mapping)
    requires Worked(f, place, out, before, after, properties)
    requires properties != map[] ==> Get(next, Below(f)) == Some(Object(properties))
    requires forall q :: q != [] && !(Below(f) <= q) && Shaped(q) && Filled(Get(out, q)) ==> Filled(Get(next, q))
    ensures AllLead(place, next, after)
  {
    forall i | 0 <= i < |after| ensures Leads(place, next, after[i]) {
      WorkedTemplate(f, place, out, before, after, properties, i);
      OutsideLeads(f, place, out, next, properties, after[i]);
    }
  }

  /** Properties changed in place. */
  lemma InPlaceLeads(
    f: Field, place: Path, out: Mapping, before: seq<Template>, after: seq<Template>, properties: Mapping)
    requires Worked(f, place, out, before, after, properties) && Get(out, Below(f)).Some?
    ensures AllLead(place, Put(out, Below(f), Object(properties)), after)
  {
    var next := Put(out, Below(f), Object(properties));
    GetAfterPut(out, Below(f), Object(properties));
    forall q | q != [] && !(Below(f) <= q) && Shaped(q) && Filled(Get(out, q)) ensures Filled(Get(next, q)) {
      PutKeepsFilled(out, Below(f), Object(properties), q);
    }
    WorkedLeads(f, place, out, before, after, properties, next);
  }

  /** Properties put in with the mapping of the group. */
  lemma PlacedLeads(
    f: Field, place: Path, out: Mapping, before: seq<Template>, after: seq<Template>, properties: Mapping)
    requires Worked(f, place, out, before, after, properties) && Open(out, KeyOf(f))
    ensures AllLead(place, Placed(f, out, properties), after)
  {
    var next := Placed(f, out, properties);
    EmptyWhole(f, properties);
    if Whole(f, properties) != map[] {
      GetOfPut(out, KeyOf(f), Whole(f, properties), PROPERTIES);
      forall q | q != [] && !(Below(f) <= q) && Shaped(q) && Filled(Get(out, q)) ensures Filled(Get(next, q)) {
        if KeyOf(f) <= q { KeyThenProperties(f, q); }
        PutKeepsFilled(out, KeyOf(f), Object(Whole(f, properties)), q);
      }
    }
    WorkedLeads(f, place, out, before, after, properties, next);
  }

  /** Properties that do not get into the output. */
  lemma DroppedLeads(
    f: Field, place: Path, out: Mapping, before: seq<Template>, after: seq<Template>, properties: Mapping)
    requires Worked(f, place, out, before, after, properties) && Get(out, Below(f)).None?
    ensures var at := place + Below(f); AllLead(place, out, FreezeAll(after, at, properties, at))
  {
    NothingAtMissing(place, out, f, before);
    LeadsAfterInner(place, out, place + Below(f), before, after, properties);
  }

  /** Every template that shares properties below the place finds them in the output, after any fields. */
  lemma {:induction false} ProcessLeads(p: Settings, fs: seq<Field>, st: State, out: Mapping, shared: Shared)
    requires Proper(Object(out)) && Sound(fs) && AllLead(st.place, out, shared.templates)
    ensures var r := Process(p, fs, st, out, shared); AllLead(st.place, r.out, r.shared.templates)
    decreases fs, 2
  {
    if fs != [] {
      var r := ProcessOne(p, fs[0], st, out, shared);
      if GroupLike(fs[0]) {
        GroupLeads(p, fs[0], st, out, shared);
      } else if fs[0].name != "" {
        LeafLeads(p, fs[0], st, out, shared);
      }
      if r.error.None? {
        ProcessOneProper(p, fs[0], st, out, shared);
        ProcessLeads(p, fs[1..], st, r.out, r.shared);
      }
    }
  }

  lemma GroupLeads(p: Settings, f: Field, st: State, out: Mapping, shared: Shared)
    requires GroupLike(f) && Proper(Object(out)) && Sound(f.fields) && AllLead(st.place, out, shared.templates)
    ensures var o := ProcessOne(p, f, st, out, shared); AllLead(st.place, o.out, o.shared.templates)
    decreases f, 1
  {
    GroupFindsProper(f, out);
    InsideLeads(f, st.place, out, shared.templates);
    ProcessLeads(p, f.fields, Inside(f, st), PropertiesAt(out, Below(f)), shared);
    FieldsWork(p, f, st, out, shared);
    var r := Fields(p, f, st, out, shared);
    if r.error.None? && !f.dynamicTemplate {
      GroupStep(p, f, st, out, shared);
      PlacedLeads(f, st.place, out, shared.templates, r.shared.templates, r.out);
    } else {
      UnplacedLeads(p, f, st, out, shared);
    }
  }

  lemma UnplacedLeads(p: Settings, f: Field, st: State, out: Mapping, shared: Shared)
    requires GroupLike(f) && Fits(f, out)
    requires var r := Fields(p, f, st, out, shared);
             && (r.error.Some? || f.dynamicTemplate)
             && Worked(f, st.place, out, shared.templates, r.shared.templates, r.out)
    ensures var o := ProcessOne(p, f, st, out, shared); AllLead(st.place, o.out, o.shared.templates)
  {
    var r := Fields(p, f, st, out, shared);
    GroupRendered(p, f, st, out, shared);
    var rendered := Render(p, f, Applied(f, st), out, shared);
    if Get(out, Below(f)).Some? {
      InPlaceLeads(f, st.place, out, shared.templates, r.shared.templates, r.out);
    } else {
      DroppedLeads(f, st.place, out, shared.templates, r.shared.templates, r.out);
    }
    if r.error.None? {
      FinishIsPlacing(p, f, Applied(f, st), rendered);
      OwnTemplateLeads(f, st, out, r.out, rendered);
      AddTemplateLeads(st.place, rendered.after.out, rendered.after.shared, OwnTemplate(f, rendered));
    }
  }

  lemma OwnTemplateLeads(f: Field, st: State, out: Mapping, properties: Mapping, r: Rendered)
    requires r.home == HomeOf(f, st, out, properties) && r.after.out == Changed(f, out, properties)
    ensures Leads(st.place, r.after.out, OwnTemplate(f, r))
  {
    if r.home.Some? {
      BelowShaped(f);
      GetAfterPut(out, Below(f), Object(properties));
      assert (st.place + Below(f))[|st.place|..] == Below(f);
    }
  }
}
