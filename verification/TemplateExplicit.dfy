/**
When two consecutive groups that become explicit dynamic templates add up.  The first records its mapping under the name
of the group, and the second then finds that name taken.  What the second brings gets into the template all the same if
the template shares the properties in the output, and is lost in general if it does not.
*/
module TemplateExplicit {
  import opened Names
  import opened Options
  import opened Templates
  import opened TemplateMerging
  import opened TemplateTidying
  import opened TemplateCollections
  import opened TemplateSharing
  import opened TemplateIndependence
  import opened TemplateLists

  // ---------- one explicit group ----------

  predicate IsExplicit(f: Field) {
    GroupLike(f) && f.dynamicTemplate
  }

  function TemplateOf(f: Field, home: Option<Path>, properties: Mapping): Template {
    Template(f.name, "", "", if home.Some? then Whole(f, properties) - {PROPERTIES} else Whole(f, properties), home)
  }

  /** The collections after the fields: properties that were not there before get nowhere, and are let go of. */
  function Let(f: Field, st: State, out: Mapping, r: Outcome): Shared {
    if Get(out, Below(f)).Some? then r.shared else Freeze(r.shared, st.place + Below(f), r.out, st.place + Below(f))
  }

  /** And after the group's own template. */
  function WithTemplate(p: Settings, f: Field, st: State, out: Mapping, properties: Mapping, shared: Shared): Shared {
    if p.explicitTemplates && Whole(f, properties) != map[]
    then AddTemplate(shared, TemplateOf(f, HomeOf(f, st, out, properties), properties))
    else shared
  }

  lemma ExplicitOne(p: Settings, f: Field, st: State, out: Mapping, shared: Shared)
    requires IsExplicit(f) && Fits(f, out)
    ensures var r, o := Fields(p, f, st, out, shared), ProcessOne(p, f, st, out, shared);
            && o.error == r.error && o.out == Changed(f, out, r.out)
            && o.shared == (if r.error.Some? then Let(f, st, out, r)
                            else WithTemplate(p, f, st, out, r.out, Let(f, st, out, r)))
  {
    GroupRendered(p, f, st, out, shared);
  }

  // ---------- two explicit groups ----------

  predicate ExplicitAlike(f: Field, g: Field) {
    && IsExplicit(f) && IsExplicit(g)
    && f.kind == g.kind && f.name == g.name && f.defaultField == g.defaultField && f.dynamic == g.dynamic
  }

  /** The properties that the second group finds. */
  function FoundBySecond(f: Field, out: Mapping, properties: Mapping): Mapping {
    if Get(out, Below(f)).Some? then properties else map[]
  }

  lemma SecondFinds(f: Field, out: Mapping, properties: Mapping)
    requires Fits(f, out)
    ensures Fits(f, Changed(f, out, properties))
    ensures PropertiesAt(Changed(f, out, properties), Below(f)) == FoundBySecond(f, out, properties)
    ensures Get(Changed(f, out, properties), Below(f)).Some? <==> Get(out, Below(f)).Some?
  {
    if Get(out, Below(f)).Some? {
      GetAfterPut(out, Below(f), Object(properties));
    }
  }

  lemma ChangedTwice(f: Field, g: Field, out: Mapping, first: Mapping, second: Mapping)
    requires f.name == g.name && Fits(f, out)
    ensures Changed(g, Changed(f, out, first), second) == Changed(f, out, second)
  {
    SecondFinds(f, out, first);
    if Get(out, Below(f)).Some? {
      PutTwice(out, Below(f), Object(first), Object(second));
    }
  }

  /** What the fields of the second group do from `found` with these collections. */
  function Then(p: Settings, g: Field, st: State, found: Mapping, shared: Shared): Outcome {
    Process(p, g.fields, Inside(g, st), found, shared)
  }

  /** What a group leaves once its fields are processed. */
  function Done(p: Settings, g: Field, st: State, out: Mapping, second: Outcome): Outcome {
    Outcome(
      Changed(g, out, second.out),
      if second.error.Some? then Let(g, st, out, second)
      else WithTemplate(p, g, st, out, second.out, Let(g, st, out, second)),
      second.error)
  }

  /** The outcome of the two groups. */
  lemma TwoGroups(p: Settings, f: Field, g: Field, st: State, out: Mapping, shared: Shared)
    requires ExplicitAlike(f, g) && Fits(f, out) && Fields(p, f, st, out, shared).error.None?
    ensures var r := Fields(p, f, st, out, shared);
            var recorded := WithTemplate(p, f, st, out, r.out, Let(f, st, out, r));
            var second := Then(p, g, st, FoundBySecond(f, out, r.out), recorded);
            Process(p, [f, g], st, out, shared) == Done(p, g, st, out, second)
  {
    var r := Fields(p, f, st, out, shared);
    var recorded := WithTemplate(p, f, st, out, r.out, Let(f, st, out, r));
    var second := Then(p, g, st, FoundBySecond(f, out, r.out), recorded);
    ExplicitOne(p, f, st, out, shared);
    SecondFinds(f, out, r.out);
    ProcessTwo(p, f, g, st, out, shared);
    ExplicitOne(p, g, st, Changed(f, out, r.out), recorded);
    ChangedTwice(f, g, out, r.out, second.out);
  }

  /** The outcome of the one group. */
  lemma OneGroup(p: Settings, f: Field, g: Field, st: State, out: Mapping, shared: Shared)
    requires ExplicitAlike(f, g) && Fits(f, out) && Fields(p, f, st, out, shared).error.None?
    ensures var r := Fields(p, f, st, out, shared);
            Process(p, [Merge(f, g)], st, out, shared) == Done(p, g, st, out, Then(p, g, st, r.out, r.shared))
  {
    var m := Merge(f, g);
    ProcessSingle(p, m, st, out, shared);
    ExplicitOne(p, m, st, out, shared);
    FieldsOfMerge(p, f, g, st, out, shared);
    DoneAlike(p, m, g, st, out, Fields(p, m, st, out, shared));
  }

  lemma DoneAlike(p: Settings, f: Field, g: Field, st: State, out: Mapping, r: Outcome)
    requires ExplicitAlike(f, g)
    ensures Done(p, f, st, out, r) == Done(p, g, st, out, r)
  {
    assert Whole(f, r.out) == Whole(g, r.out);
  }

  lemma FirstFails(p: Settings, f: Field, g: Field, st: State, out: Mapping, shared: Shared)
    requires ExplicitAlike(f, g) && Fits(f, out) && Fields(p, f, st, out, shared).error.Some?
    ensures Same(Process(p, [f, g], st, out, shared), Process(p, [Merge(f, g)], st, out, shared))
  {
    ExplicitOne(p, f, st, out, shared);
    ExplicitOne(p, Merge(f, g), st, out, shared);
    FieldsOfMerge(p, f, g, st, out, shared);
    ProcessTwo(p, f, g, st, out, shared);
    ProcessSingle(p, Merge(f, g), st, out, shared);
  }

  // ---------- the collections after the second group's fields ----------

  function Bare(shared: Shared): Shared {
    shared.(templates := [])
  }

  predicate NoneAt(ts: seq<Template>, place: Path) {
    forall i | 0 <= i < |ts| :: !At(ts[i], place)
  }

  lemma NoneAtStay(ts: seq<Template>, place: Path, out: Mapping)
    requires NoneAt(ts, place)
    ensures FreezeAll(ts, place, out, place) == ts
  {
  }

  lemma FrozenNoneAt(ts: seq<Template>, place: Path, out: Mapping)
    ensures NoneAt(FreezeAll(ts, place, out, place), place)
  {
    var frozen := FreezeAll(ts, place, out, place);
    forall i | 0 <= i < |ts| ensures !At(frozen[i], place) {
      assert frozen[i] == FreezeOne(ts[i], place, out, place);
    }
  }

  /** The templates in front, then those collected from nothing. */
  lemma ThenOnTop(p: Settings, g: Field, st: State, found: Mapping, shared: Shared)
    ensures var own, r := Then(p, g, st, found, Bare(shared)), Then(p, g, st, found, shared);
            && own.error == r.error && own.out == r.out && Close(own.shared, r.shared)
            && OnTop(|shared.templates|, own.shared, r.shared)
  {
    var n := |shared.templates|;
    assert shared.templates[..n] == shared.templates == AddAll(shared.templates[..n], []);
    ProcessAlongside(p, Some(n), 0, g.fields, Inside(g, st), found, Bare(shared), shared);
  }

  /** A template that shares nothing below the place of the fields stays as it is. */
  lemma StaysInFront(p: Settings, g: Field, st: State, found: Mapping, shared: Shared, i: nat)
    requires i < |shared.templates| && !Under(shared.templates[i], st.place + Below(g))
    ensures var more := Then(p, g, st, found, shared).shared.templates;
            i < |more| && more[i] == shared.templates[i]
  {
    ProcessConfined(p, g.fields, Inside(g, st), found, shared);
  }

  lemma FrontStays(p: Settings, g: Field, st: State, found: Mapping, shared: Shared)
    requires NoneAt(shared.templates, st.place + Below(g))
    ensures var n, more := |shared.templates|, Then(p, g, st, found, shared).shared.templates;
            n <= |more| && more[..n] == shared.templates
  {
    ProcessConfined(p, g.fields, Inside(g, st), found, shared);
    var n, more := |shared.templates|, Then(p, g, st, found, shared).shared.templates;
    forall i | 0 <= i < n ensures more[i] == shared.templates[i] {
      StaysInFront(p, g, st, found, shared, i);
    }
  }

  /** A group whose name is taken records nothing. */
  lemma NameIsTaken(p: Settings, g: Field, st: State, out: Mapping, properties: Mapping, shared: Shared, t: Template)
    requires Known(shared.templates, t) && KeyOfTemplate(t) == TemplateKey(g.name, "", "")
    ensures WithTemplate(p, g, st, out, properties, shared) == shared
  {
    SameKnown(shared.templates, t, TemplateOf(g, HomeOf(g, st, out, properties), properties));
  }

  /** The template that the group records unless its fields fail. */
  function LastTemplate(g: Field, st: State, out: Mapping, own: Outcome): Option<Template> {
    if own.error.Some? then None else Some(TemplateOf(g, HomeOf(g, st, out, own.out), own.out))
  }

  lemma RecordsLast(p: Settings, g: Field, st: State, out: Mapping, second: Outcome, own: Outcome)
    requires p.explicitTemplates && Whole(g, second.out) != map[]
    requires own.error == second.error && own.out == second.out
    ensures var o := Done(p, g, st, out, second);
            o.shared.templates == AddLast(Let(g, st, out, second).templates, LastTemplate(g, st, out, own))
  {
  }

  // ---------- properties that are there ----------

  lemma WholeGrows(f: Field, g: Field, first: Mapping, second: Mapping)
    requires f.kind == g.kind && f.dynamic == g.dynamic && first.Keys <= second.Keys && Whole(f, first) != map[]
    ensures Whole(g, second) != map[]
  {
    EmptyWhole(f, first);
    EmptyWhole(g, second);
    if first != map[] {
      assert PROPERTIES in Whole(g, second);
    } else if second == map[] {
      assert Whole(g, second) == Whole(f, first);
    }
  }

  /** The first group records its template; the second finds the name taken, and changes what stands in front. */
  lemma TwoThere(p: Settings, f: Field, g: Field, st: State, out: Mapping, shared: Shared)
    requires ExplicitAlike(f, g) && Fits(f, out) && Fields(p, f, st, out, shared).error.None?
    requires p.explicitTemplates && Whole(f, Fields(p, f, st, out, shared).out) != map[] && Get(out, Below(f)).Some?
    ensures var r, o := Fields(p, f, st, out, shared), Process(p, [f, g], st, out, shared);
            var own, one := Then(p, g, st, r.out, Bare(r.shared)), Then(p, g, st, r.out, r.shared);
            var n, t := |r.shared.templates|, TemplateOf(f, HomeOf(f, st, out, r.out), r.out);
            && o.error == own.error && Close(o.shared, own.shared) && o.out == Changed(g, out, own.out)
            && n <= |one.shared.templates|
            && o.shared.templates == AddAll(AddOne(one.shared.templates[..n], t), own.shared.templates)
  {
    var r := Fields(p, f, st, out, shared);
    var n, t := |r.shared.templates|, TemplateOf(f, HomeOf(f, st, out, r.out), r.out);
    var recorded := AddTemplate(r.shared, t);
    var second, own := Then(p, g, st, r.out, recorded), Then(p, g, st, r.out, Bare(r.shared));
    TwoGroups(p, f, g, st, out, shared);
    ThenOnTop(p, g, st, r.out, recorded);
    ThenOnTop(p, g, st, r.out, r.shared);
    RecordedInFront(p, g, st, r.out, r.shared, t);
    AddedIsKnown(second.shared.templates[..n], t);
    AddAllKnows(AddOne(second.shared.templates[..n], t), own.shared.templates, t);
    NameIsTaken(p, g, st, out, second.out, second.shared, t);
  }

  lemma RecordedInFront(p: Settings, g: Field, st: State, found: Mapping, shared: Shared, t: Template)
    requires !Under(t, st.place + Below(g))
    ensures var n, recorded := |shared.templates|, AddTemplate(shared, t);
            var second, one := Then(p, g, st, found, recorded), Then(p, g, st, found, shared);
            && n <= |one.shared.templates| && n <= |second.shared.templates|
            && second.shared.templates[..n] == one.shared.templates[..n]
            && |recorded.templates| <= |second.shared.templates|
            && second.shared.templates[..|recorded.templates|] == AddOne(one.shared.templates[..n], t)
  {
    var n, recorded := |shared.templates|, AddTemplate(shared, t);
    var second, one := Then(p, g, st, found, recorded), Then(p, g, st, found, shared);
    assert recorded.templates[..n] == shared.templates[..n];
    ProcessAlongside(p, None, n, g.fields, Inside(g, st), found, recorded, shared);
    ProcessGrows(p, g.fields, Inside(g, st), found, shared);
    KeysInFront(shared.templates, one.shared.templates, t);
    if !Known(shared.templates, t) {
      StaysInFront(p, g, st, found, recorded, n);
      assert second.shared.templates[..n + 1] == second.shared.templates[..n] + [t];
    }
  }

  lemma KeysInFront(ts: seq<Template>, more: seq<Template>, t: Template)
    requires |ts| <= |more| && forall i | 0 <= i < |ts| :: Later(ts[i], more[i])
    ensures Known(more[..|ts|], t) <==> Known(ts, t)
  {
    var front := more[..|ts|];
    if Known(ts, t) {
      var i :| 0 <= i < |ts| && SameTemplate(ts[i], t);
      assert SameTemplate(front[i], t) by { assert Later(ts[i], more[i]); }
    }
    if Known(front, t) {
      var i :| 0 <= i < |ts| && SameTemplate(front[i], t);
      assert SameTemplate(ts[i], t) by { assert Later(ts[i], more[i]); }
    }
  }

  lemma OneThere(p: Settings, f: Field, g: Field, st: State, out: Mapping, shared: Shared)
    requires ExplicitAlike(f, g) && Fits(f, out) && Fields(p, f, st, out, shared).error.None?
    requires p.explicitTemplates && Whole(f, Fields(p, f, st, out, shared).out) != map[] && Get(out, Below(f)).Some?
    ensures var r, o := Fields(p, f, st, out, shared), Process(p, [Merge(f, g)], st, out, shared);
            var own, one := Then(p, g, st, r.out, Bare(r.shared)), Then(p, g, st, r.out, r.shared);
            var n := |r.shared.templates|;
            && o.error == own.error && Close(o.shared, own.shared) && o.out == Changed(g, out, own.out)
            && n <= |one.shared.templates|
            && o.shared.templates ==
               AddLast(AddAll(one.shared.templates[..n], own.shared.templates), LastTemplate(g, st, out, own))
  {
    var r := Fields(p, f, st, out, shared);
    var own, one := Then(p, g, st, r.out, Bare(r.shared)), Then(p, g, st, r.out, r.shared);
    OneGroup(p, f, g, st, out, shared);
    ThenOnTop(p, g, st, r.out, r.shared);
    ProcessKeepsKeys(p, g.fields, Inside(g, st), r.out, r.shared);
    WholeGrows(f, g, r.out, one.out);
    RecordsLast(p, g, st, out, one, own);
  }

  /** Templates that share the same properties hold the same, whatever stands there. */
  lemma SharedOrEmpty(f: Field, g: Field, st: State, out: Mapping, first: Mapping, second: Mapping, next: Mapping)
    requires ExplicitAlike(f, g) && Get(out, Below(f)).Some? && first.Keys <= second.Keys
    ensures var t, u := TemplateOf(f, HomeOf(f, st, out, first), first), TemplateOf(g, HomeOf(g, st, out, second), second);
            SeenOne(In(st.place, next), u) == SeenOne(In(st.place, next), t) <==> first != map[] || second == map[]
  {
    WithoutProperties(f, first);
    WithoutProperties(f, second);
    assert Whole(g, second) == Whole(f, second);
    if first == map[] && second != map[] {
      EmptyWhole(f, first);
      assert At(TemplateOf(g, HomeOf(g, st, out, second), second), st.place);
    }
  }

  lemma WithoutProperties(f: Field, properties: Mapping)
    ensures Whole(f, properties) - {PROPERTIES} == Whole(f, map[])
  {
    assert |PROPERTIES| != |"type"| && |PROPERTIES| != |"dynamic"|;
  }

  lemma NothingRecordedThere(p: Settings, f: Field, g: Field, st: State, out: Mapping, shared: Shared)
    requires ExplicitAlike(f, g) && Fits(f, out) && Get(out, Below(f)).Some?
    requires Fields(p, f, st, out, shared).error.None?
    requires !p.explicitTemplates || Whole(f, Fields(p, f, st, out, shared).out) == map[]
    ensures Process(p, [f, g], st, out, shared) == Process(p, [Merge(f, g)], st, out, shared)
  {
    TwoGroups(p, f, g, st, out, shared);
    OneGroup(p, f, g, st, out, shared);
  }

  lemma SomethingRecordedThere(p: Settings, f: Field, g: Field, st: State, out: Mapping, shared: Shared)
    requires ExplicitAlike(f, g) && Fits(f, out) && Fields(p, f, st, out, shared).error.None?
    requires p.explicitTemplates && Whole(f, Fields(p, f, st, out, shared).out) != map[] && Get(out, Below(f)).Some?
    ensures var r := Fields(p, f, st, out, shared);
            var own, one := Then(p, g, st, r.out, Bare(r.shared)), Process(p, [Merge(f, g)], st, out, shared);
            var ts, t, view := r.shared.templates, TemplateOf(f, HomeOf(f, st, out, r.out), r.out), ViewOf(st.place, one);
            SameGenerated(st.place, Process(p, [f, g], st, out, shared), one) <==>
            || Known(ts, t) || FirstIs(view, ts, t, own.shared.templates)
            || (&& FirstNew(ts, own.shared.templates).None?
                && SeenLast(view, LastTemplate(g, st, out, own)) == Some(SeenOne(view, t)))
  {
    var r := Fields(p, f, st, out, shared);
    var own, one := Then(p, g, st, r.out, Bare(r.shared)), Then(p, g, st, r.out, r.shared);
    var n, t, last := |r.shared.templates|, TemplateOf(f, HomeOf(f, st, out, r.out), r.out), LastTemplate(g, st, out, own);
    TwoThere(p, f, g, st, out, shared);
    OneThere(p, f, g, st, out, shared);
    var front, more := one.shared.templates[..n], own.shared.templates;
    var view := ViewOf(st.place, Process(p, [Merge(f, g)], st, out, shared));
    ListsSameIff(view, front, front, t, more, more, last);
    ProcessGrows(p, g.fields, Inside(g, st), r.out, r.shared);
    forall u: Template ensures Known(front, u) <==> Known(r.shared.templates, u) {
      KeysInFront(r.shared.templates, one.shared.templates, u);
    }
    ComesFirstSeen(view, r.shared.templates, front, t, more, last);
  }

  /**
  With properties there already, two explicit groups that are otherwise alike mean what one with both field lists means
  exactly when the first has nothing to record or finds its name taken, or the first template of the second group's
  fields would be its template, or these fields bring neither a template nor an error, and no first property.
  */
  lemma ExplicitGroupsMergeThere(p: Settings, f: Field, g: Field, st: State, out: Mapping, shared: Shared)
    requires ExplicitAlike(f, g) && Proper(Object(out)) && Get(out, Below(f)).Some?
    ensures var r := Fields(p, f, st, out, shared);
            var own := Then(p, g, st, r.out, Bare(r.shared));
            var ts, t, more := r.shared.templates, TemplateOf(f, HomeOf(f, st, out, r.out), r.out), own.shared.templates;
            var one := Process(p, [Merge(f, g)], st, out, shared);
            SameGenerated(st.place, Process(p, [f, g], st, out, shared), one) <==>
            || r.error.Some? || !p.explicitTemplates || Whole(f, r.out) == map[]
            || Known(ts, t) || FirstIs(ViewOf(st.place, one), ts, t, more)
            || (FirstNew(ts, more).None? && own.error.None? && (r.out != map[] || own.out == map[]))
  {
    GroupFindsProper(f, out);
    var r := Fields(p, f, st, out, shared);
    if r.error.Some? {
      FirstFails(p, f, g, st, out, shared);
      SameIsSameGenerated(st.place, Process(p, [f, g], st, out, shared), Process(p, [Merge(f, g)], st, out, shared));
    } else if !p.explicitTemplates || Whole(f, r.out) == map[] {
      NothingRecordedThere(p, f, g, st, out, shared);
    } else {
      SomethingRecordedThere(p, f, g, st, out, shared);
      ProcessKeepsKeys(p, g.fields, Inside(g, st), r.out, Bare(r.shared));
      OneThere(p, f, g, st, out, shared);
      var one := Process(p, [Merge(f, g)], st, out, shared);
      SharedOrEmpty(f, g, st, out, r.out, Then(p, g, st, r.out, Bare(r.shared)).out, one.out);
    }
  }

  // ---------- properties that are not there ----------

  lemma TwoNew(p: Settings, f: Field, g: Field, st: State, out: Mapping, shared: Shared)
    requires ExplicitAlike(f, g) && Fits(f, out) && Fields(p, f, st, out, shared).error.None?
    requires p.explicitTemplates && Whole(f, Fields(p, f, st, out, shared).out) != map[] && Get(out, Below(f)).None?
    ensures var r, o := Fields(p, f, st, out, shared), Process(p, [f, g], st, out, shared);
            var alone, t := Then(p, g, st, map[], Bare(r.shared)), TemplateOf(f, None, r.out);
            && o.error == alone.error && Close(o.shared, alone.shared) && o.out == out
            && o.shared.templates ==
               AddAll(AddOne(Let(f, st, out, r).templates, t), Let(g, st, out, alone).templates)
  {
    var r := Fields(p, f, st, out, shared);
    var at, t, kept := st.place + Below(f), TemplateOf(f, None, r.out), Let(f, st, out, r);
    var recorded, alone := AddTemplate(kept, t), Then(p, g, st, map[], Bare(r.shared));
    var second := Then(p, g, st, map[], recorded);
    TwoGroups(p, f, g, st, out, shared);
    FrozenNoneAt(r.shared.templates, at, r.out);
    FrontStays(p, g, st, map[], recorded);
    ThenOnTop(p, g, st, map[], recorded);
    FreezeAfterAdding(recorded.templates, alone.shared.templates, at, alone.out, at);
    NoneAtStay(recorded.templates, at, alone.out);
    AddedIsKnown(kept.templates, t);
    AddAllKnows(recorded.templates, Let(g, st, out, alone).templates, t);
    NameIsTaken(p, g, st, out, second.out, Let(g, st, out, second), t);
  }

  lemma OneNew(p: Settings, f: Field, g: Field, st: State, out: Mapping, shared: Shared)
    requires ExplicitAlike(f, g) && Fits(f, out) && Fields(p, f, st, out, shared).error.None?
    requires p.explicitTemplates && Whole(f, Fields(p, f, st, out, shared).out) != map[] && Get(out, Below(f)).None?
    ensures var r, o := Fields(p, f, st, out, shared), Process(p, [Merge(f, g)], st, out, shared);
            var own, one := Then(p, g, st, r.out, Bare(r.shared)), Then(p, g, st, r.out, r.shared);
            var n := |r.shared.templates|;
            && o.error == own.error && Close(o.shared, own.shared) && o.out == out
            && n <= |Let(g, st, out, one).templates|
            && o.shared.templates ==
               AddLast(
                 AddAll(Let(g, st, out, one).templates[..n], Let(g, st, out, own).templates),
                 LastTemplate(g, st, out, own))
  {
    var r := Fields(p, f, st, out, shared);
    var own, one := Then(p, g, st, r.out, Bare(r.shared)), Then(p, g, st, r.out, r.shared);
    var n, at := |r.shared.templates|, st.place + Below(f);
    OneGroup(p, f, g, st, out, shared);
    ThenOnTop(p, g, st, r.out, r.shared);
    FreezeAfterAdding(one.shared.templates[..n], own.shared.templates, at, own.out, at);
    FreezeOfTake(one.shared.templates, n, at, own.out, at);
    ProcessKeepsKeys(p, g.fields, Inside(g, st), r.out, r.shared);
    WholeGrows(f, g, r.out, one.out);
    RecordsLast(p, g, st, out, one, own);
  }

  /**
  The templates of the first group's fields are not changed by the second group's, the template of the first group comes
  first in any case, and the second group's fields collect the same whether or not they find the properties of the first.
  */
  predicate AddsUpNew(p: Settings, f: Field, g: Field, st: State, out: Mapping, shared: Shared) {
    var r := Fields(p, f, st, out, shared);
    var own, alone := Then(p, g, st, r.out, Bare(r.shared)), Then(p, g, st, map[], Bare(r.shared));
    var one, n := Let(g, st, out, Then(p, g, st, r.out, r.shared)).templates, |r.shared.templates|;
    && n <= |one|
    && SeenCondition(
         if own.error.Some? then Keys else In(st.place, out), Let(f, st, out, r).templates, one[..n],
         TemplateOf(f, None, r.out), Let(g, st, out, alone).templates, Let(g, st, out, own).templates,
         LastTemplate(g, st, out, own))
  }

  lemma SomethingRecordedNew(p: Settings, f: Field, g: Field, st: State, out: Mapping, shared: Shared)
    requires ExplicitAlike(f, g) && Proper(Object(out)) && Sound(f.fields) && Sound(g.fields)
    requires Fields(p, f, st, out, shared).error.None?
    requires p.explicitTemplates && Whole(f, Fields(p, f, st, out, shared).out) != map[] && Get(out, Below(f)).None?
    ensures SameGenerated(st.place, Process(p, [f, g], st, out, shared), Process(p, [Merge(f, g)], st, out, shared)) <==>
            AddsUpNew(p, f, g, st, out, shared)
  {
    GroupFindsProper(f, out);
    var r := Fields(p, f, st, out, shared);
    var own, alone := Then(p, g, st, r.out, Bare(r.shared)), Then(p, g, st, map[], Bare(r.shared));
    ProcessProper(p, f.fields, Inside(f, st), PropertiesAt(out, Below(f)), shared);
    ProcessApart(p, None, g.fields, Inside(g, st), r.out, map[], Bare(r.shared), Bare(r.shared));
    TwoNew(p, f, g, st, out, shared);
    OneNew(p, f, g, st, out, shared);
    ListsSameIff(
      ViewOf(st.place, Process(p, [Merge(f, g)], st, out, shared)), Let(f, st, out, r).templates,
      Let(g, st, out, Then(p, g, st, r.out, r.shared)).templates[..|r.shared.templates|], TemplateOf(f, None, r.out),
      Let(g, st, out, alone).templates, Let(g, st, out, own).templates, LastTemplate(g, st, out, own));
  }

  /** Fields that make no group a template leave nothing that shares their output. */
  lemma PlainShareNothing(p: Settings, f: Field, st: State, out: Mapping, shared: Shared)
    requires GroupLike(f) && Proper(Object(out)) && Sound(f.fields) && (NoExplicitGroups(f.fields) || !p.explicitTemplates)
    requires NoneAt(shared.templates, st.place + Below(f))
    ensures NoneAt(Fields(p, f, st, out, shared).shared.templates, st.place + Below(f))
  {
    GroupFindsProper(f, out);
    var found := PropertiesAt(out, Below(f));
    PlainHomeless(p, f, st, found, shared);
    FrontStays(p, f, st, found, shared);
    ThenOnTop(p, f, st, found, shared);
    AddAllNoneAt(shared.templates, Then(p, f, st, found, Bare(shared)).shared.templates, st.place + Below(f));
  }

  lemma PlainHomeless(p: Settings, g: Field, st: State, found: Mapping, shared: Shared)
    requires Proper(Object(found)) && Sound(g.fields) && (NoExplicitGroups(g.fields) || !p.explicitTemplates)
    ensures Homeless(Then(p, g, st, found, Bare(shared)).shared.templates)
  {
    ProcessApart(p, Some(0), g.fields, Inside(g, st), found, found, Bare(shared), Bare(shared));
  }

  lemma {:induction false} AddAllNoneAt(ts: seq<Template>, more: seq<Template>, place: Path)
    requires NoneAt(ts, place) && Homeless(more)
    ensures NoneAt(AddAll(ts, more), place)
  {
    if more != [] {
      AddAllNoneAt(ts, more[..|more| - 1], place);
      assert more[|more| - 1].home.None?;
    }
  }

  /** Such fields collect the same on any output. */
  lemma PlainCollectSame(p: Settings, g: Field, st: State, out: Mapping, other: Mapping, shared: Shared)
    requires Proper(Object(out)) && Proper(Object(other)) && Sound(g.fields)
    requires (NoExplicitGroups(g.fields) || !p.explicitTemplates) && NoneAt(shared.templates, st.place + Below(g))
    ensures var own, r := Then(p, g, st, out, Bare(shared)), Then(p, g, st, other, shared);
            && own.error == r.error && Close(own.shared, r.shared)
            && r.shared.templates == AddAll(shared.templates, own.shared.templates)
            && NoneAt(r.shared.templates, st.place + Below(g))
  {
    var n := |shared.templates|;
    assert shared.templates[..n] == shared.templates == AddAll(shared.templates[..n], []);
    ProcessApart(p, Some(n), g.fields, Inside(g, st), out, other, Bare(shared), shared);
    FrontStays(p, g, st, other, shared);
    AddAllNoneAt(shared.templates, Then(p, g, st, out, Bare(shared)).shared.templates, st.place + Below(g));
  }

  lemma NothingSupported(p: Settings, f: Field, g: Field, st: State, out: Mapping, shared: Shared)
    requires ExplicitAlike(f, g) && Proper(Object(out)) && Sound(f.fields) && Sound(g.fields)
    requires !p.explicitTemplates && Get(out, Below(f)).None? && AllLead(st.place, out, shared.templates)
    requires Fields(p, f, st, out, shared).error.None?
    ensures SameGenerated(st.place, Process(p, [f, g], st, out, shared), Process(p, [Merge(f, g)], st, out, shared))
  {
    GroupFindsProper(f, out);
    var r, at := Fields(p, f, st, out, shared), st.place + Below(f);
    TwoGroups(p, f, g, st, out, shared);
    OneGroup(p, f, g, st, out, shared);
    ProcessProper(p, f.fields, Inside(f, st), PropertiesAt(out, Below(f)), shared);
    NothingAtMissing(st.place, out, f, shared.templates);
    PlainShareNothing(p, f, st, out, shared);
    NoneAtStay(r.shared.templates, at, r.out);
    PlainCollectSame(p, g, st, r.out, map[], r.shared);
    PlainCollectSame(p, g, st, r.out, r.out, r.shared);
    var second, one := Then(p, g, st, map[], r.shared), Then(p, g, st, r.out, r.shared);
    NoneAtStay(second.shared.templates, at, second.out);
    NoneAtStay(one.shared.templates, at, one.out);
  }

  lemma NothingToRecord(p: Settings, f: Field, g: Field, st: State, out: Mapping, shared: Shared)
    requires ExplicitAlike(f, g) && Proper(Object(out)) && Sound(f.fields)
    requires Get(out, Below(f)).None? && AllLead(st.place, out, shared.templates)
    requires var r := Fields(p, f, st, out, shared); r.error.None? && Whole(f, r.out) == map[]
    ensures SameGenerated(st.place, Process(p, [f, g], st, out, shared), Process(p, [Merge(f, g)], st, out, shared))
  {
    GroupFindsProper(f, out);
    var r, at := Fields(p, f, st, out, shared), st.place + Below(f);
    TwoGroups(p, f, g, st, out, shared);
    OneGroup(p, f, g, st, out, shared);
    EmptyWhole(f, r.out);
    InsideLeads(f, st.place, out, shared.templates);
    ProcessLeads(p, f.fields, Inside(f, st), PropertiesAt(out, Below(f)), shared);
    NothingAtMissing(st.place, out, f, shared.templates);
    ProcessConfined(p, f.fields, Inside(f, st), PropertiesAt(out, Below(f)), shared);
    EmptySharesNothing(at, shared.templates, r.shared.templates);
    NoneAtStay(r.shared.templates, at, r.out);
  }

  lemma EmptySharesNothing(place: Path, a: seq<Template>, b: seq<Template>)
    requires NoneAt(a, place) && Confined(place, a, b) && AllLead(place, map[], b)
    ensures NoneAt(b, place)
  {
    forall i | 0 <= i < |b| ensures !At(b[i], place) {
      assert Leads(place, map[], b[i]);
      if i < |a| { assert Later(a[i], b[i]); }
    }
  }

  /**
  Without properties there, two explicit groups that are otherwise alike mean what one with both field lists means exactly
  when the first has nothing to record or they add up.
  */
  lemma ExplicitGroupsMergeNew(p: Settings, f: Field, g: Field, st: State, out: Mapping, shared: Shared)
    requires ExplicitAlike(f, g) && Proper(Object(out)) && Sound(f.fields) && Sound(g.fields)
    requires Get(out, Below(f)).None? && AllLead(st.place, out, shared.templates)
    ensures var r := Fields(p, f, st, out, shared);
            SameGenerated(st.place, Process(p, [f, g], st, out, shared), Process(p, [Merge(f, g)], st, out, shared)) <==>
            || r.error.Some? || !p.explicitTemplates || Whole(f, r.out) == map[]
            || AddsUpNew(p, f, g, st, out, shared)
  {
    GroupFindsProper(f, out);
    var r := Fields(p, f, st, out, shared);
    if r.error.Some? {
      FirstFails(p, f, g, st, out, shared);
      SameIsSameGenerated(st.place, Process(p, [f, g], st, out, shared), Process(p, [Merge(f, g)], st, out, shared));
    } else if !p.explicitTemplates {
      NothingSupported(p, f, g, st, out, shared);
    } else if Whole(f, r.out) == map[] {
      NothingToRecord(p, f, g, st, out, shared);
    } else {
      SomethingRecordedNew(p, f, g, st, out, shared);
    }
  }
}
