/** Explicit groups that add up, and explicit groups that do not. */
module TemplateExamples {
  import opened Names
  import opened Options
  import opened Templates
  import opened TemplateMerging
  import opened TemplateTidying
  import opened TemplateSharing
  import opened TemplateIndependence
  import opened TemplateLists
  import opened TemplateExplicit
  import opened TemplateQuiet

  const LONG: Mapping := map["type" := Scalar("long")]

  function LeafField(name: string): Field {
    Field(name, Plain, None, false, None, None, false, LONG, [], [], [], [])
  }

  function GroupField(name: string, explicitly: bool, fields: seq<Field>): Field {
    Field(name, Group, None, explicitly, None, None, false, map[], [], [], [], fields)
  }

  /** A leaf puts its mapping in place. */
  lemma LeafStep(p: Settings, name: string, st: State, out: Mapping, shared: Shared)
    requires name != "" && DotFree(name) && NoneAt(shared.templates, st.place + [name])
    ensures Process(p, [LeafField(name)], st, out, shared) == Outcome(out[name := Object(LONG)], shared, None)
  {
    var f := LeafField(name);
    ProcessSingle(p, f, st, out, shared);
    SplitOfPart(name);
    assert "type" in LONG;
    assert FreezeAll(shared.templates, st.place, out, st.place + [name]) == shared.templates;
  }

  // ---------- after a group ----------

  /** Behind a group that left properties, explicit groups of its name add up if the second brings no template. */
  lemma ExplicitAfterGroup(p: Settings, h: Field, f: Field, g: Field, st: State, out: Mapping, shared: Shared)
    requires IsGroup(h) && h.name == f.name && ExplicitAlike(f, g) && Quiet(g.fields)
    requires Proper(Object(out)) && Sound([h]) && Sound(f.fields) && Sound(g.fields)
    requires Fields(p, h, st, out, shared).out != map[]
    ensures SameGenerated(
              st.place, Process(p, [h] + [f, g], st, out, shared), Process(p, [h] + [Merge(f, g)], st, out, shared))
  {
    ProcessConcat(p, [h], [f, g], st, out, shared);
    ProcessConcat(p, [h], [Merge(f, g)], st, out, shared);
    ProcessSingle(p, h, st, out, shared);
    GroupFindsProper(h, out);
    GroupStep(p, h, st, out, shared);
    var r, o := Fields(p, h, st, out, shared), ProcessOne(p, h, st, out, shared);
    if o.error.None? {
      ProcessKeepsKeys(p, h.fields, Inside(h, st), PropertiesAt(out, Below(h)), shared);
      AfterGroup(h, out, r.out);
      ProcessProper(p, [h], st, out, shared);
      QuietAddsUpThere(p, f, g, st, o.out, o.shared);
    }
  }

  // ---------- on nothing ----------

  const NOTHING: Shared := Shared(map[], [], [])

  /** Of two explicit groups the second is lost, while one group would keep the fields of both. */
  lemma ExplicitGroupsDoNotMerge(p: Settings, name: string, a: string, b: string, st: State)
    requires p.explicitTemplates && name != "" && a != "" && b != "" && DotFree(a) && DotFree(b) && a != b
    ensures var f, g := GroupField(name, true, [LeafField(a)]), GroupField(name, true, [LeafField(b)]);
            !SameGenerated(st.place, Process(p, [f, g], st, map[], NOTHING), Process(p, [Merge(f, g)], st, map[], NOTHING))
  {
    var f, g := GroupField(name, true, [LeafField(a)]), GroupField(name, true, [LeafField(b)]);
    var first: Mapping := map[a := Object(LONG)];
    LeafStep(p, a, Inside(f, st), map[], NOTHING);
    LeafStep(p, b, Inside(g, st), first, NOTHING);
    assert b !in first && b in first[b := Object(LONG)] && a in first;
    EmptyWhole(f, first);
    QuietAddsUpNewIff(p, f, g, st, map[], NOTHING);
  }

  // ---------- sharing inside ----------

  function PropertiesOnly(properties: Mapping): Mapping {
    map[PROPERTIES := Object(properties)]
  }

  function Entry(name: string, properties: Mapping): Mapping {
    map[name := Object(PropertiesOnly(properties))]
  }

  lemma EntryLaws(e: string, before: Mapping, after: Mapping)
    ensures Get(Entry(e, before), [e, PROPERTIES]) == Some(Object(before))
    ensures Put(Entry(e, before), [e, PROPERTIES], Object(after)) == Entry(e, after)
    ensures Put(Entry(e, before), [e], Object(PropertiesOnly(after))) == Entry(e, after)
    ensures Put(map[], [e], Object(PropertiesOnly(after))) == Entry(e, after)
    ensures Get(map[], [e, PROPERTIES]).None?
  {
    assert [e, PROPERTIES][1..] == [PROPERTIES];
    assert PropertiesOnly(before)[PROPERTIES := Object(after)] == PropertiesOnly(after);
    assert Put(PropertiesOnly(before), [PROPERTIES], Object(after)) == PropertiesOnly(after);
    assert Entry(e, before)[e := Object(PropertiesOnly(after))] == Entry(e, after);
  }

  lemma GroupKeys(f: Field)
    requires DotFree(f.name)
    ensures KeyOf(f) == [f.name] && Below(f) == [f.name, PROPERTIES]
  {
    SplitOfPart(f.name);
  }

  /** The fields of a group that is one leaf. */
  lemma FieldsWithLeaf(
    p: Settings, e: string, explicitly: bool, a: string, st: State, out: Mapping, properties: Mapping, shared: Shared)
    requires e != "" && DotFree(e) && a != "" && DotFree(a) && NoneAt(shared.templates, st.place + [e, PROPERTIES, a])
    requires (out == map[] && properties == map[]) || out == Entry(e, properties)
    ensures Fields(p, GroupField(e, explicitly, [LeafField(a)]), st, out, shared) ==
            Outcome(properties[a := Object(LONG)], shared, None)
  {
    var h := GroupField(e, explicitly, [LeafField(a)]);
    GroupKeys(h);
    EntryLaws(e, properties, properties);
    assert Inside(h, st).place + [a] == st.place + [e, PROPERTIES, a];
    LeafStep(p, a, Inside(h, st), properties, shared);
  }

  lemma WholeOfProperties(f: Field, properties: Mapping)
    requires f.kind == Group && f.dynamic.None? && properties != map[]
    ensures Whole(f, properties) == PropertiesOnly(properties) && Whole(f, properties) - {PROPERTIES} == map[]
  {
    assert PROPERTIES in PropertiesOnly(properties);
  }

  /** A group adds a leaf to the properties under its name. */
  lemma GroupWithLeaf(p: Settings, e: string, a: string, st: State, out: Mapping, properties: Mapping, shared: Shared)
    requires e != "" && DotFree(e) && a != "" && DotFree(a) && NoneAt(shared.templates, st.place + [e, PROPERTIES, a])
    requires (out == map[] && properties == map[]) || out == Entry(e, properties)
    ensures Process(p, [GroupField(e, false, [LeafField(a)])], st, out, shared) ==
            Outcome(Entry(e, properties[a := Object(LONG)]), shared, None)
  {
    var h, next := GroupField(e, false, [LeafField(a)]), properties[a := Object(LONG)];
    GroupKeys(h);
    EntryLaws(e, properties, next);
    FieldsWithLeaf(p, e, false, a, st, out, properties, shared);
    ProcessSingle(p, h, st, out, shared);
    GroupStep(p, h, st, out, shared);
    assert a in next;
    WholeOfProperties(h, next);
    assert PROPERTIES in PropertiesOnly(next);
  }

  /** An explicit group adds a leaf to the properties there, and its template shares them. */
  lemma ExplicitWithLeaf(p: Settings, e: string, a: string, st: State, properties: Mapping, shared: Shared)
    requires p.explicitTemplates && e != "" && DotFree(e) && a != "" && DotFree(a)
    requires NoneAt(shared.templates, st.place + [e, PROPERTIES, a])
    ensures Process(p, [GroupField(e, true, [LeafField(a)])], st, Entry(e, properties), shared) ==
            Outcome(
              Entry(e, properties[a := Object(LONG)]),
              AddTemplate(shared, Template(e, "", "", map[], Some(st.place + [e, PROPERTIES]))), None)
  {
    var h, out, next := GroupField(e, true, [LeafField(a)]), Entry(e, properties), properties[a := Object(LONG)];
    GroupKeys(h);
    EntryLaws(e, properties, next);
    FieldsWithLeaf(p, e, true, a, st, out, properties, shared);
    ProcessSingle(p, h, st, out, shared);
    ExplicitOne(p, h, st, out, shared);
    assert a in next;
    WholeOfProperties(h, next);
    assert PROPERTIES in PropertiesOnly(next);
  }

  function Inner(e: string, place: Path): Template {
    Template(e, "", "", map[], Some(place + [e, PROPERTIES]))
  }

  /** The fields of the first group: a group, and an explicit group of the same name. */
  lemma FirstFields(p: Settings, e: string, x: string, y: string, st: State, shared: Shared)
    requires p.explicitTemplates && e != "" && x != "" && y != "" && DotFree(e) && DotFree(x) && DotFree(y)
    requires Homeless(shared.templates)
    ensures var a, b := GroupField(e, false, [LeafField(x)]), GroupField(e, true, [LeafField(y)]);
            Process(p, [a, b], st, map[], shared) ==
            Outcome(
              Entry(e, map[x := Object(LONG)][y := Object(LONG)]), AddTemplate(shared, Inner(e, st.place)), None)
  {
    var a, b := GroupField(e, false, [LeafField(x)]), GroupField(e, true, [LeafField(y)]);
    GroupWithLeaf(p, e, x, st, map[], map[], shared);
    ExplicitWithLeaf(p, e, y, st, map[x := Object(LONG)], shared);
    ProcessConcat(p, [a], [b], st, map[], shared);
    assert [a] + [b] == [a, b];
  }

  /** What the inner template holds when its output is left. */
  lemma InnerHolds(e: string, place: Path, properties: Mapping)
    ensures FreezeOne(Inner(e, place), place, Entry(e, properties), place).mapping[PROPERTIES] == Object(properties)
  {
    EntryLaws(e, properties, properties);
    assert (place + [e, PROPERTIES])[|place|..] == [e, PROPERTIES];
  }

  lemma FrontsDiffer(p: Settings, f: Field, g: Field, st: State, out: Mapping, shared: Shared, n: nat)
    requires var r := Fields(p, f, st, out, shared);
             var one := Then(p, g, st, r.out, r.shared);
             var a, b := Let(f, st, out, r).templates, Let(g, st, out, one).templates;
             && one.error.None? && n < |a| && n < |b| && n < |r.shared.templates|
             && a[n] != b[n] && a[n].home.None? && b[n].home.None?
    ensures !AddsUpNew(p, f, g, st, out, shared)
  {
    var r := Fields(p, f, st, out, shared);
    var one, own := Then(p, g, st, r.out, r.shared), Then(p, g, st, r.out, Bare(r.shared));
    ThenOnTop(p, g, st, r.out, r.shared);
    var a, b := Let(f, st, out, r).templates, Let(g, st, out, one).templates;
    var view := In(st.place, out);
    if |r.shared.templates| <= |b| {
      var front := b[..|r.shared.templates|];
      assert Seen(view, a)[n] == a[n] && Seen(view, front)[n] == b[n];
    }
  }

  lemma InnerIsNew(ts: seq<Template>, e: string, place: Path)
    requires !Known(ts, Inner(e, []))
    ensures !Known(ts, Inner(e, place))
  {
    if Known(ts, Inner(e, place)) {
      SameKnown(ts, Inner(e, place), Inner(e, []));
    }
  }

  function WithShared(name: string, e: string, x: string, y: string): Field {
    GroupField(name, true, [GroupField(e, false, [LeafField(x)]), GroupField(e, true, [LeafField(y)])])
  }

  function WithMore(name: string, e: string, z: string): Field {
    GroupField(name, true, [GroupField(e, false, [LeafField(z)])])
  }

  lemma SoundGroup(e: string, explicitly: bool, a: string)
    ensures var h := GroupField(e, explicitly, [LeafField(a)]); PROPERTIES !in h.scalars && Sound(h.fields)
  {
    assert PROPERTIES !in LONG by { assert |PROPERTIES| != |"type"|; }
    assert Sound(LeafField(a).fields);
  }

  lemma SoundBoth(name: string, e: string, x: string, y: string, z: string)
    ensures Sound(WithShared(name, e, x, y).fields) && Sound(WithMore(name, e, z).fields)
  {
    SoundGroup(e, false, x);
    SoundGroup(e, true, y);
    SoundGroup(e, false, z);
  }

  lemma InsideChanges(
    p: Settings, name: string, e: string, x: string, y: string, z: string, st: State, shared: Shared)
    requires p.explicitTemplates && Homeless(shared.templates) && !Known(shared.templates, Inner(e, []))
    requires name != "" && e != "" && x != "" && y != "" && z != ""
    requires DotFree(e) && DotFree(x) && DotFree(y) && DotFree(z) && z != x && z != y
    ensures var f, g := WithShared(name, e, x, y), WithMore(name, e, z);
            var r := Fields(p, f, st, map[], shared);
            r.error.None? && r.out != map[] && !AddsUpNew(p, f, g, st, map[], shared)
  {
    var f, g := WithShared(name, e, x, y), WithMore(name, e, z);
    var inner, n, first := Inside(f, st), |shared.templates|, map[x := Object(LONG)][y := Object(LONG)];
    FirstFields(p, e, x, y, inner, shared);
    var r := Fields(p, f, st, map[], shared);
    InnerIsNew(shared.templates, e, inner.place);
    assert r.shared.templates == shared.templates + [Inner(e, inner.place)] && e in r.out;
    GroupWithLeaf(p, e, z, inner, r.out, first, r.shared);
    InnerHolds(e, inner.place, first);
    InnerHolds(e, inner.place, first[z := Object(LONG)]);
    assert z in first[z := Object(LONG)] && z !in first;
    FrontsDiffer(p, f, g, st, map[], shared, n);
  }

  /**
  The template of a group inside changes with the properties it shares until the group around it is done.  So here the
  groups do not add up, although the second brings no template and the name of the first may be taken.
  */
  lemma SharedInsideDoesNotMerge(
    p: Settings, name: string, e: string, x: string, y: string, z: string, st: State, shared: Shared)
    requires p.explicitTemplates && Homeless(shared.templates) && !Known(shared.templates, Inner(e, []))
    requires name != "" && e != "" && x != "" && y != "" && z != ""
    requires DotFree(e) && DotFree(x) && DotFree(y) && DotFree(z) && z != x && z != y
    ensures var f, g := WithShared(name, e, x, y), WithMore(name, e, z);
            !SameGenerated(st.place, Process(p, [f, g], st, map[], shared), Process(p, [Merge(f, g)], st, map[], shared))
  {
    var f, g := WithShared(name, e, x, y), WithMore(name, e, z);
    InsideChanges(p, name, e, x, y, z, st, shared);
    SoundBoth(name, e, x, y, z);
    EmptyWhole(f, Fields(p, f, st, map[], shared).out);
    ExplicitGroupsMergeNew(p, f, g, st, map[], shared);
  }
}
