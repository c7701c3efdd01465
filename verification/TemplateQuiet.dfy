/**
When explicit groups add up, from their field lists: if the second group's fields bring no template and no analyzer, the
groups add up whenever properties are there, and otherwise only when those fields bring nothing at all.
*/
module TemplateQuiet {
  import opened Names
  import opened Options
  import opened Templates
  import opened TemplateMerging
  import opened TemplateTidying
  import opened TemplateCollections
  import opened TemplateSharing
  import opened TemplateIndependence
  import opened TemplateLists
  import opened TemplateExplicit

  /** No dynamic template and no definition of an analyzer at any depth. */
  predicate Quiet(fs: seq<Field>)
    decreases fs
  {
    forall i | 0 <= i < |fs| ::
      && !fs[i].dynamicTemplate
      && (fs[i].kind == ObjectType ==> fs[i].objectTypes == [])
      && NoDefinitions(fs[i].analyzers)
      && (Grouping(fs[i]) ==> Quiet(fs[i].fields))
      && (HasMultiFields(fs[i]) ==> Quiet(fs[i].multiFields))
  }

  predicate NoDefinitions(list: seq<Analyzer>) {
    forall i | 0 <= i < |list| :: list[i].definition.None?
  }

  lemma {:induction false} NoDefinitionsNothing(list: seq<Analyzer>, o: Outcome)
    requires NoDefinitions(list)
    ensures AddAnalyzers(list, o) == o
    decreases |list|
  {
    if list != [] && o.error.None? {
      NoDefinitionsNothing(list[1..], o);
    }
  }

  /** No template is collected, and only properties that are no map are an error. */
  predicate Silent(o: Outcome) {
    o.shared.templates == [] && (o.error.Some? ==> o.error.value.NotAMap?)
  }

  lemma {:induction false} ProcessSilent(p: Settings, fs: seq<Field>, st: State, out: Mapping, shared: Shared)
    requires Quiet(fs) && shared.templates == []
    ensures Silent(Process(p, fs, st, out, shared))
    decreases fs, 1
  {
    if fs != [] {
      FieldSilent(p, fs[0], st, out, shared);
      var r := ProcessOne(p, fs[0], st, out, shared);
      if r.error.None? {
        ProcessSilent(p, fs[1..], st, r.out, r.shared);
      }
    }
  }

  lemma FieldSilent(p: Settings, f: Field, st: State, out: Mapping, shared: Shared)
    requires Quiet([f]) && shared.templates == []
    ensures Silent(ProcessOne(p, f, st, out, shared))
    decreases f, 1
  {
    assert [f][0] == f;
    if f.name != "" {
      var inner := Applied(f, st);
      RenderSilent(p, f, inner, out, shared);
      var r := Render(p, f, inner, out, shared);
      if r.after.error.None? {
        var collected := AddDefault(f, inner.path, inner.defaultField, r.after.shared);
        NoDefinitionsNothing(f.analyzers, Placing(p, f, st.place, r.(after := r.after.(shared := collected))));
      }
    }
  }

  lemma RenderSilent(p: Settings, f: Field, st: State, out: Mapping, shared: Shared)
    requires Quiet([f]) && shared.templates == []
    ensures Silent(Render(p, f, st, out, shared).after)
    decreases f, 0, 1
  {
    assert [f][0] == f;
    if Grouping(f) {
      GroupSilent(p, f, st, out, shared);
    } else {
      LeafCases(p, f, st, out, shared);
      if HasMultiFields(f) {
        MultiSilent(p, f, st, false, out, shared);
        MultiSilent(p, f, st, true, out, shared);
      }
    }
  }

  lemma GroupSilent(p: Settings, f: Field, st: State, out: Mapping, shared: Shared)
    requires Quiet(f.fields) && shared.templates == []
    ensures Silent(GroupOf(p, f, st, out, shared).after)
    decreases f, 0, 0
  {
    var inner := State(FullName(st.path, f.name), st.defaultField, st.place + Below(f));
    ProcessSilent(p, f.fields, inner, PropertiesAt(out, Below(f)), shared);
  }

  lemma MultiSilent(p: Settings, f: Field, st: State, bare: bool, out: Mapping, shared: Shared)
    requires Quiet(f.multiFields) && shared.templates == []
    ensures Silent(Multi(p, f, st, bare, out, shared).after)
    decreases f, 0, 0
  {
    if f.multiFields != [] {
      ProcessSilent(p, f.multiFields, MultiState(f, st, bare), map[], shared);
    }
  }

  lemma {:induction false} QuietIsPlain(fs: seq<Field>)
    requires Quiet(fs)
    ensures NoExplicitGroups(fs)
    decreases fs
  {
    forall i | 0 <= i < |fs| && GroupLike(fs[i]) ensures !fs[i].dynamicTemplate && NoExplicitGroups(fs[i].fields) {
      QuietIsPlain(fs[i].fields);
    }
  }

  /** Quiet fields never fail, and collect no template. */
  lemma QuietSecond(p: Settings, g: Field, st: State, found: Mapping, shared: Shared)
    requires Proper(Object(found)) && Sound(g.fields) && Quiet(g.fields)
    ensures var own := Then(p, g, st, found, Bare(shared)); own.error.None? && own.shared.templates == []
  {
    ProcessSilent(p, g.fields, Inside(g, st), found, Bare(shared));
    ProcessProper(p, g.fields, Inside(g, st), found, Bare(shared));
  }

  // ---------- properties that are there ----------

  /** On properties that are there, a group of quiet fields adds up with any group before it. */
  lemma QuietAddsUpThere(p: Settings, f: Field, g: Field, st: State, out: Mapping, shared: Shared)
    requires ExplicitAlike(f, g) && Proper(Object(out)) && Sound(f.fields) && Sound(g.fields)
    requires Quiet(g.fields) && PropertiesAt(out, Below(f)) != map[]
    ensures SameGenerated(st.place, Process(p, [f, g], st, out, shared), Process(p, [Merge(f, g)], st, out, shared))
  {
    GroupFindsProper(f, out);
    var found, r := PropertiesAt(out, Below(f)), Fields(p, f, st, out, shared);
    ProcessProper(p, f.fields, Inside(f, st), found, shared);
    ProcessKeepsKeys(p, f.fields, Inside(f, st), found, shared);
    ExplicitGroupsMergeThere(p, f, g, st, out, shared);
    QuietSecond(p, g, st, r.out, r.shared);
  }

  // ---------- properties that are not there ----------

  /**
  When no group in either list is explicit itself: the template is known, or the first template of the second group's
  fields is the same, or these bring neither a template nor an error nor a property.
  */
  lemma PlainGroupsMergeIff(p: Settings, f: Field, g: Field, st: State, out: Mapping, shared: Shared)
    requires ExplicitAlike(f, g) && Proper(Object(out)) && Sound(f.fields) && Sound(g.fields)
    requires Get(out, Below(f)).None? && AllLead(st.place, out, shared.templates)
    requires NoExplicitGroups(f.fields) && NoExplicitGroups(g.fields)
    ensures var r := Fields(p, f, st, out, shared);
            var own, one := Then(p, g, st, r.out, Bare(r.shared)), Process(p, [Merge(f, g)], st, out, shared);
            var ts, t, more := r.shared.templates, TemplateOf(f, None, r.out), own.shared.templates;
            SameGenerated(st.place, Process(p, [f, g], st, out, shared), one) <==>
            || r.error.Some? || !p.explicitTemplates || Whole(f, r.out) == map[]
            || Known(ts, t) || FirstIs(if own.error.Some? then Keys else In(st.place, out), ts, t, more)
            || (FirstNew(ts, more).None? && own.error.None? && own.out == r.out)
  {
    ExplicitGroupsMergeNew(p, f, g, st, out, shared);
    var r := Fields(p, f, st, out, shared);
    if r.error.None? && Whole(f, r.out) != map[] {
      PlainAddsUp(p, f, g, st, out, shared);
      NewComesFirst(f, g, st, out, r.out, r.shared.templates, Then(p, g, st, r.out, Bare(r.shared)));
    }
  }

  lemma NewComesFirst(
    f: Field, g: Field, st: State, out: Mapping, properties: Mapping, ts: seq<Template>, own: Outcome)
    requires ExplicitAlike(f, g) && Get(out, Below(f)).None?
    ensures var view, t := if own.error.Some? then Keys else In(st.place, out), TemplateOf(f, None, properties);
            ComesFirst(
              Seen(view, ts), SeenOne(view, t), Seen(view, own.shared.templates),
              SeenLast(view, LastTemplate(g, st, out, own))) <==>
            || Known(ts, t) || FirstIs(view, ts, t, own.shared.templates)
            || (FirstNew(ts, own.shared.templates).None? && own.error.None? && own.out == properties)
  {
    var view, t := if own.error.Some? then Keys else In(st.place, out), TemplateOf(f, None, properties);
    ComesFirstSeen(view, ts, ts, t, own.shared.templates, LastTemplate(g, st, out, own));
    assert Whole(g, own.out) == Whole(f, own.out);
    WholeInjective(f, own.out, properties);
  }

  lemma WholeInjective(f: Field, x: Mapping, y: Mapping)
    ensures Whole(f, x) == Whole(f, y) <==> x == y
  {
    EmptyWhole(f, x);
    EmptyWhole(f, y);
  }

  lemma PlainAddsUp(p: Settings, f: Field, g: Field, st: State, out: Mapping, shared: Shared)
    requires ExplicitAlike(f, g) && Proper(Object(out)) && Sound(f.fields) && Sound(g.fields)
    requires Get(out, Below(f)).None? && AllLead(st.place, out, shared.templates)
    requires NoExplicitGroups(f.fields) && NoExplicitGroups(g.fields)
    ensures var r := Fields(p, f, st, out, shared);
            var own, t := Then(p, g, st, r.out, Bare(r.shared)), TemplateOf(f, None, r.out);
            var view := if own.error.Some? then Keys else In(st.place, out);
            AddsUpNew(p, f, g, st, out, shared) <==>
            ComesFirst(
              Seen(view, r.shared.templates), SeenOne(view, t), Seen(view, own.shared.templates),
              SeenLast(view, LastTemplate(g, st, out, own)))
  {
    GroupFindsProper(f, out);
    var r, at := Fields(p, f, st, out, shared), st.place + Below(f);
    var t := TemplateOf(f, None, r.out);
    var own, alone := Then(p, g, st, r.out, Bare(r.shared)), Then(p, g, st, map[], Bare(r.shared));
    ProcessProper(p, f.fields, Inside(f, st), PropertiesAt(out, Below(f)), shared);
    NothingAtMissing(st.place, out, f, shared.templates);
    PlainShareNothing(p, f, st, out, shared);
    NoneAtStay(r.shared.templates, at, r.out);
    PlainLists(p, g, st, out, r, t);
    var view := if own.error.Some? then Keys else In(st.place, out);
    SeenAfterOne(view, r.shared.templates, t);
    SeenAfterAdding(view, AddOne(r.shared.templates, t), alone.shared.templates);
    SeenAfterAdding(view, AddOne(r.shared.templates, t), own.shared.templates);
  }

  /** What stands in front stays, nothing new is shared, and the second group's fields collect the same on top. */
  lemma PlainLists(p: Settings, g: Field, st: State, out: Mapping, r: Outcome, t: Template)
    requires Proper(Object(r.out)) && Sound(g.fields) && NoExplicitGroups(g.fields) && t.home.None?
    requires Get(out, Below(g)).None? && NoneAt(r.shared.templates, st.place + Below(g))
    ensures var own, alone := Then(p, g, st, r.out, Bare(r.shared)), Then(p, g, st, map[], Bare(r.shared));
            var one, ts := Let(g, st, out, Then(p, g, st, r.out, r.shared)).templates, r.shared.templates;
            && |ts| <= |one| && one[..|ts|] == ts
            && Let(g, st, out, own).templates == own.shared.templates
            && Let(g, st, out, alone).templates == alone.shared.templates
            && AddAll(AddOne(ts, t), alone.shared.templates) == AddAll(AddOne(ts, t), own.shared.templates)
  {
    var at, recorded := st.place + Below(g), AddTemplate(r.shared, t);
    var own, alone := Then(p, g, st, r.out, Bare(r.shared)), Then(p, g, st, map[], Bare(r.shared));
    var one := Then(p, g, st, r.out, r.shared);
    PlainCollectSame(p, g, st, r.out, r.out, r.shared);
    FrontStays(p, g, st, r.out, r.shared);
    NoneAtStay(one.shared.templates, at, one.out);
    PlainHomeless(p, g, st, r.out, r.shared);
    PlainHomeless(p, g, st, map[], r.shared);
    HomelessStay(own.shared.templates, at, own.out, at);
    HomelessStay(alone.shared.templates, at, alone.out, at);
    PlainCollectSame(p, g, st, r.out, map[], recorded);
    PlainCollectSame(p, g, st, map[], map[], recorded);
  }

  /** Where no properties are there, quiet fields add up only if they bring no property, unless nothing is recorded. */
  lemma QuietAddsUpNewIff(p: Settings, f: Field, g: Field, st: State, out: Mapping, shared: Shared)
    requires ExplicitAlike(f, g) && Proper(Object(out)) && Sound(f.fields) && Sound(g.fields)
    requires Get(out, Below(f)).None? && AllLead(st.place, out, shared.templates)
    requires NoExplicitGroups(f.fields) && Quiet(g.fields)
    ensures var r := Fields(p, f, st, out, shared);
            SameGenerated(st.place, Process(p, [f, g], st, out, shared), Process(p, [Merge(f, g)], st, out, shared)) <==>
            || r.error.Some? || !p.explicitTemplates || Whole(f, r.out) == map[]
            || Known(r.shared.templates, TemplateOf(f, None, r.out))
            || Then(p, g, st, r.out, Bare(r.shared)).out == r.out
  {
    GroupFindsProper(f, out);
    var r := Fields(p, f, st, out, shared);
    ProcessProper(p, f.fields, Inside(f, st), PropertiesAt(out, Below(f)), shared);
    QuietIsPlain(g.fields);
    PlainGroupsMergeIff(p, f, g, st, out, shared);
    QuietSecond(p, g, st, r.out, r.shared);
  }
}
