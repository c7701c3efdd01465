/**
What dynamic templates hold over time.  A template that shares its properties with the output gains what the output gains;
and whatever is processed, no template loses a property.
*/
module TemplateGaining {
  import opened Names
  import opened Options
  import opened Templates
  import opened TemplateMerging
  import opened TemplateTidying
  import opened TemplateCollections
  import opened TemplateSharing

  /** The names of the properties that the template holds when `out` stands at `place`. */
  function Held(place: Path, out: Mapping, t: Template): set<string> {
    if Under(t, place) then Content(place, out, t.home.value).Keys
    else if t.home.None? && PROPERTIES in t.mapping && t.mapping[PROPERTIES].Object? then
      t.mapping[PROPERTIES].members.Keys
    else {}
  }

  /** No template loses a property on the way from `out` to `next`. */
  predicate Gains(place: Path, out: Mapping, a: seq<Template>, next: Mapping, b: seq<Template>) {
    |a| <= |b| && forall i | 0 <= i < |a| :: Held(place, out, a[i]) <= Held(place, next, b[i])
  }

  lemma GainsTwice(
    place: Path, out: Mapping, a: seq<Template>, next: Mapping, b: seq<Template>, last: Mapping, c: seq<Template>)
    requires Gains(place, out, a, next, b) && Gains(place, next, b, last, c)
    ensures Gains(place, out, a, last, c)
  {
    forall i | 0 <= i < |a| ensures Held(place, out, a[i]) <= Held(place, last, c[i]) {
      assert Held(place, out, a[i]) <= Held(place, next, b[i]) <= Held(place, last, c[i]);
    }
  }

  lemma {:induction false} PutKeepsKeysAt(m: Mapping, path: Path, v: Value, q: Path)
    requires path != [] && q != [] && !(path <= q) && Filled(Get(m, q))
    ensures PropertiesAt(m, q).Keys <= PropertiesAt(Put(m, path, v), q).Keys
    decreases |path|
  {
    if path[0] == q[0] {
      assert |path| > 1;
      var below := m[path[0]].members;
      if |q| == 1 {
        PutKeepsKeys(below, path[1..], v);
      } else {
        assert path == [path[0]] + path[1..] && q == [q[0]] + q[1..];
        PutKeepsKeysAt(below, path[1..], v, q[1..]);
      }
    }
  }

  // ---------- leaves ----------

  /** Templates in front that stay as they are. */
  lemma StayingGains(place: Path, out: Mapping, a: seq<Template>, b: seq<Template>)
    requires |a| <= |b| && forall i | 0 <= i < |a| :: b[i] == a[i]
    ensures Gains(place, out, a, out, b)
  {
  }

  /** A change in which nothing below `inner` was shared before. */
  lemma InnerGains(place: Path, out: Mapping, inner: Path, a: seq<Template>, b: seq<Template>, last: Mapping)
    requires Confined(inner, a, b) && forall i | 0 <= i < |a| :: !At(a[i], inner)
    ensures Gains(place, out, a, out, FreezeAll(b, inner, last, inner))
  {
    var frozen := FreezeAll(b, inner, last, inner);
    forall i | 0 <= i < |a| ensures frozen[i] == a[i] {
      assert b[i] == a[i] && frozen[i] == FreezeOne(b[i], inner, last, inner);
    }
    StayingGains(place, out, a, frozen);
  }

  lemma MultiGains(p: Settings, f: Field, st: State, bare: bool, out: Mapping, shared: Shared)
    requires AllLead(st.place, out, shared.templates)
    ensures Gains(
              st.place, out, shared.templates, out, Multi(p, f, st, bare, out, shared).after.shared.templates)
  {
    if f.multiFields != [] {
      var inner := MultiState(f, st, bare);
      var r := Process(p, f.multiFields, inner, map[], shared);
      NothingAtMulti(st.place, out, f, shared.templates);
      ProcessConfined(p, f.multiFields, inner, map[], shared);
      InnerGains(st.place, out, inner.place, shared.templates, r.shared.templates, r.out);
    }
  }

  lemma {:induction false} DynamicStays(f: Field, path: string, ds: seq<Option<Dynamic>>, shared: Shared)
    ensures shared.templates <= AddDynamic(f, path, ds, shared).templates
    decreases |ds|
  {
    if ds != [] {
      if ds[0].None? {
        DynamicStays(f, path, ds[1..], shared);
      } else {
        var d, full := ds[0].value, FullName(path, f.name);
        var pathMatch := if '*' in full then full else full + ".*";
        var name := if |f.objectTypes| > 1 then full + "_" + d.matching else full;
        DynamicStays(f, path, ds[1..], AddTemplate(shared, Template(name, pathMatch, d.matching, d.mapping, None)));
      }
    }
  }

  lemma RenderedLeafGains(p: Settings, f: Field, st: State, out: Mapping, shared: Shared)
    requires !Grouping(f) && AllLead(st.place, out, shared.templates)
    ensures var r := Render(p, f, st, out, shared);
            && r.after.out == out && AllLead(st.place, out, r.after.shared.templates)
            && Gains(st.place, out, shared.templates, out, r.after.shared.templates)
  {
    LeafCases(p, f, st, out, shared);
    MultiLeads(p, f, st, true, out, shared);
    MultiLeads(p, f, st, false, out, shared);
    AddDynamicLeads(st.place, out, f, st.path, f.objectTypes, shared);
    MultiGains(p, f, st, true, out, shared);
    MultiGains(p, f, st, false, out, shared);
    DynamicStays(f, st.path, f.objectTypes, shared);
    StayingGains(st.place, out, shared.templates, AddDynamic(f, st.path, f.objectTypes, shared).templates);
  }

  /** What a leaf overwrites stays in the templates that shared it. */
  lemma OverwriteGains(place: Path, out: Mapping, f: Field, ts: seq<Template>, v: Value)
    requires AllLead(place, out, ts)
    ensures Gains(place, out, ts, Put(out, KeyOf(f), v), FreezeAll(ts, place, out, place + KeyOf(f)))
  {
    var under, next := place + KeyOf(f), Put(out, KeyOf(f), v);
    var frozen := FreezeAll(ts, place, out, under);
    forall i | 0 <= i < |ts| ensures Held(place, out, ts[i]) <= Held(place, next, frozen[i]) {
      assert frozen[i] == FreezeOne(ts[i], place, out, under) && Leads(place, out, ts[i]);
      if Under(ts[i], place) && !At(ts[i], under) {
        PlaceAndKey(place, KeyOf(f), ts[i].home.value);
        PutKeepsKeysAt(out, KeyOf(f), v, ts[i].home.value[|place|..]);
      }
    }
  }

  lemma LeafGains(p: Settings, f: Field, st: State, out: Mapping, shared: Shared)
    requires !Grouping(f) && AllLead(st.place, out, shared.templates)
    ensures var o := ProcessOne(p, f, st, out, shared);
            Gains(st.place, out, shared.templates, o.out, o.shared.templates)
  {
    if f.name == "" {
      StayingGains(st.place, out, shared.templates, shared.templates);
    } else {
      var inner := Applied(f, st);
      var r := Render(p, f, inner, out, shared);
      RenderedLeafGains(p, f, inner, out, shared);
      assert r.after.error.None? by { LeafCases(p, f, inner, out, shared); }
      FinishIsPlacing(p, f, inner, r);
      var placed, ts := Placing(p, f, st.place, r), r.after.shared.templates;
      OverwriteGains(st.place, out, f, ts, Object(r.mapping));
      StayingGains(st.place, out, ts, AddTemplate(r.after.shared, OwnTemplate(f, r)).templates);
      StayingGains(st.place, out, ts, ts);
      GainsTwice(st.place, out, shared.templates, out, ts, placed.out, placed.shared.templates);
    }
  }

  // ---------- groups ----------

  /** A template that shares something in the group's properties, seen from inside and from outside. */
  lemma HeldInside(f: Field, place: Path, out: Mapping, properties: Mapping, t: Template)
    requires Under(t, place + Below(f)) && Get(out, Below(f)) == Some(Object(properties))
    ensures Under(t, place) && Held(place, out, t) == Held(place + Below(f), properties, t)
  {
    var at, home := place + Below(f), t.home.value;
    PlaceAndKey(place, Below(f), home);
    GetThrough(out, Below(f), home[|at|..]);
  }

  lemma HeldAt(f: Field, place: Path, out: Mapping, t: Template)
    requires t.home == Some(place + Below(f))
    ensures Held(place, out, t) == PropertiesAt(out, Below(f)).Keys
  {
    assert (place + Below(f))[|place|..] == Below(f);
  }

  /** The properties of the group were there, or nothing shared them. */
  ghost predicate Gained(
    f: Field, place: Path, out: Mapping, before: seq<Template>, after: seq<Template>, properties: Mapping) {
    && Worked(f, place, out, before, after, properties) && Fits(f, out)
    && PropertiesAt(out, Below(f)).Keys <= properties.Keys
    && Gains(place + Below(f), PropertiesAt(out, Below(f)), before, properties, after)
  }

  lemma GroupTemplateGains(
    f: Field, place: Path, out: Mapping, before: seq<Template>, after: seq<Template>, properties: Mapping,
    next: Mapping, i: nat)
    requires Gained(f, place, out, before, after, properties) && i < |before|
    requires properties != map[] ==> Get(next, Below(f)) == Some(Object(properties))
    requires forall q :: q != [] && !(Below(f) <= q) && Shaped(q) && Filled(Get(out, q)) ==>
               PropertiesAt(out, q).Keys <= PropertiesAt(next, q).Keys
    ensures Held(place, out, before[i]) <= Held(place, next, after[i])
  {
    var at, t, u := place + Below(f), before[i], after[i];
    assert Later(t, u) && Leads(place, out, t) && Leads(at, properties, u);
    if Under(t, at) {
      SharedInsideGains(f, place, out, before, after, properties, next, i);
    } else if t.home == Some(at) {
      HeldAt(f, place, out, t);
      HeldAt(f, place, next, t);
    } else if Under(t, place) {
      PlaceAndKey(place, Below(f), t.home.value);
    }
  }

  lemma SharedInsideGains(
    f: Field, place: Path, out: Mapping, before: seq<Template>, after: seq<Template>, properties: Mapping,
    next: Mapping, i: nat)
    requires Gained(f, place, out, before, after, properties) && i < |before| && Under(before[i], place + Below(f))
    requires properties != map[] ==> Get(next, Below(f)) == Some(Object(properties))
    ensures Held(place, out, before[i]) <= Held(place, next, after[i])
  {
    var at, t, u := place + Below(f), before[i], after[i];
    assert Later(t, u) && Leads(place, out, t) && Leads(at, properties, u);
    assert Held(at, PropertiesAt(out, Below(f)), t) <= Held(at, properties, u);
    SharedIsThere(f, place, out, t);
    HeldInside(f, place, out, PropertiesAt(out, Below(f)), t);
    if Under(u, at) {
      HeldInside(f, place, next, properties, u);
    }
  }

  /** What a template shares in the properties of the group is there. */
  lemma SharedIsThere(f: Field, place: Path, out: Mapping, t: Template)
    requires Leads(place, out, t) && Under(t, place + Below(f)) && Fits(f, out)
    ensures Get(out, Below(f)) == Some(Object(PropertiesAt(out, Below(f))))
  {
    if Get(out, Below(f)).None? {
      MissingIsNotShared(place, out, f, t);
    }
  }

  lemma NextGains(
    f: Field, place: Path, out: Mapping, before: seq<Template>, after: seq<Template>, properties: Mapping, next: Mapping)
    requires Gained(f, place, out, before, after, properties)
    requires properties != map[] ==> Get(next, Below(f)) == Some(Object(properties))
    requires forall q :: q != [] && !(Below(f) <= q) && Shaped(q) && Filled(Get(out, q)) ==>
               PropertiesAt(out, q).Keys <= PropertiesAt(next, q).Keys
    ensures Gains(place, out, before, next, after)
  {
    forall i | 0 <= i < |before| ensures Held(place, out, before[i]) <= Held(place, next, after[i]) {
      GroupTemplateGains(f, place, out, before, after, properties, next, i);
    }
  }

  lemma InPlaceGains(
    f: Field, place: Path, out: Mapping, before: seq<Template>, after: seq<Template>, properties: Mapping)
    requires Gained(f, place, out, before, after, properties) && Get(out, Below(f)).Some?
    ensures Gains(place, out, before, Put(out, Below(f), Object(properties)), after)
  {
    var next := Put(out, Below(f), Object(properties));
    GetAfterPut(out, Below(f), Object(properties));
    forall q | q != [] && !(Below(f) <= q) && Shaped(q) && Filled(Get(out, q))
      ensures PropertiesAt(out, q).Keys <= PropertiesAt(next, q).Keys
    {
      PutKeepsKeysAt(out, Below(f), Object(properties), q);
    }
    NextGains(f, place, out, before, after, properties, next);
  }

  lemma PlacedGains(
    f: Field, place: Path, out: Mapping, before: seq<Template>, after: seq<Template>, properties: Mapping)
    requires Gained(f, place, out, before, after, properties) && Open(out, KeyOf(f))
    ensures Gains(place, out, before, Placed(f, out, properties), after)
  {
    var next := Placed(f, out, properties);
    EmptyWhole(f, properties);
    if Whole(f, properties) != map[] {
      GetOfPut(out, KeyOf(f), Whole(f, properties), PROPERTIES);
      forall q | q != [] && !(Below(f) <= q) && Shaped(q) && Filled(Get(out, q))
        ensures PropertiesAt(out, q).Keys <= PropertiesAt(next, q).Keys
      {
        if KeyOf(f) <= q { KeyThenProperties(f, q); }
        PutKeepsKeysAt(out, KeyOf(f), Object(Whole(f, properties)), q);
      }
    }
    NextGains(f, place, out, before, after, properties, next);
  }

  lemma DroppedGains(
    f: Field, place: Path, out: Mapping, before: seq<Template>, after: seq<Template>, properties: Mapping)
    requires Gained(f, place, out, before, after, properties) && Get(out, Below(f)).None?
    ensures var at := place + Below(f); Gains(place, out, before, out, FreezeAll(after, at, properties, at))
  {
    NothingAtMissing(place, out, f, before);
    InnerGains(place, out, place + Below(f), before, after, properties);
  }

  lemma UnplacedGains(p: Settings, f: Field, st: State, out: Mapping, shared: Shared)
    requires GroupLike(f)
    requires var r := Fields(p, f, st, out, shared);
             && (r.error.Some? || f.dynamicTemplate)
             && Gained(f, st.place, out, shared.templates, r.shared.templates, r.out)
    ensures var o := ProcessOne(p, f, st, out, shared);
            Gains(st.place, out, shared.templates, o.out, o.shared.templates)
  {
    var r := Fields(p, f, st, out, shared);
    GroupRendered(p, f, st, out, shared);
    var rendered := Render(p, f, Applied(f, st), out, shared);
    if Get(out, Below(f)).Some? {
      InPlaceGains(f, st.place, out, shared.templates, r.shared.templates, r.out);
    } else {
      DroppedGains(f, st.place, out, shared.templates, r.shared.templates, r.out);
    }
    if r.error.None? {
      FinishIsPlacing(p, f, Applied(f, st), rendered);
      var ts, next := rendered.after.shared.templates, rendered.after.out;
      var placed := Placing(p, f, st.place, rendered);
      StayingGains(st.place, next, ts, placed.shared.templates);
      GainsTwice(st.place, out, shared.templates, next, ts, next, placed.shared.templates);
    }
  }

  lemma GroupGains(p: Settings, f: Field, st: State, out: Mapping, shared: Shared)
    requires GroupLike(f) && Proper(Object(out)) && Sound(f.fields) && AllLead(st.place, out, shared.templates)
    ensures var o := ProcessOne(p, f, st, out, shared);
            Gains(st.place, out, shared.templates, o.out, o.shared.templates)
    decreases f, 1
  {
    var found, r := PropertiesAt(out, Below(f)), Fields(p, f, st, out, shared);
    GroupFindsProper(f, out);
    InsideLeads(f, st.place, out, shared.templates);
    ProcessLeads(p, f.fields, Inside(f, st), found, shared);
    FieldsWork(p, f, st, out, shared);
    ProcessKeepsKeys(p, f.fields, Inside(f, st), found, shared);
    TemplatesOnlyGain(p, f.fields, Inside(f, st), found, shared);
    if r.error.None? && !f.dynamicTemplate {
      GroupStep(p, f, st, out, shared);
      PlacedGains(f, st.place, out, shared.templates, r.shared.templates, r.out);
    } else {
      UnplacedGains(p, f, st, out, shared);
    }
  }

  /** Whatever fields are processed, no template loses a property. */
  lemma {:induction false} TemplatesOnlyGain(p: Settings, fs: seq<Field>, st: State, out: Mapping, shared: Shared)
    requires Proper(Object(out)) && Sound(fs) && AllLead(st.place, out, shared.templates)
    ensures var r := Process(p, fs, st, out, shared); Gains(st.place, out, shared.templates, r.out, r.shared.templates)
    decreases fs, 2
  {
    if fs == [] {
      StayingGains(st.place, out, shared.templates, shared.templates);
    } else {
      var r := ProcessOne(p, fs[0], st, out, shared);
      if GroupLike(fs[0]) {
        GroupGains(p, fs[0], st, out, shared);
        GroupLeads(p, fs[0], st, out, shared);
      } else if fs[0].name == "" {
        StayingGains(st.place, out, shared.templates, shared.templates);
      } else {
        LeafGains(p, fs[0], st, out, shared);
        LeafLeads(p, fs[0], st, out, shared);
      }
      if r.error.None? {
        ProcessOneProper(p, fs[0], st, out, shared);
        TemplatesOnlyGain(p, fs[1..], st, r.out, r.shared);
        var last := Process(p, fs[1..], st, r.out, r.shared);
        GainsTwice(
          st.place, out, shared.templates, r.out, r.shared.templates, last.out, last.shared.templates);
      }
    }
  }
}
