/**
What processing depends on.  The output, the analyzers, the default fields and the error do not depend on the dynamic
templates that are known; and new templates are the ones collected from nothing, less those that are known.  Templates
that were there before stay where they are, and change only with the output they share.
*/
module TemplateIndependence {
  import opened Names
  import opened Options
  import opened Templates
  import opened TemplateMerging
  import opened TemplateTidying
  import opened TemplateCollections
  import opened TemplateSharing

  function AddOne(ts: seq<Template>, t: Template): seq<Template> {
    if Known(ts, t) then ts else ts + [t]
  }

  /** Adding templates one after the other, each unless its key is known. */
  function AddAll(ts: seq<Template>, more: seq<Template>): seq<Template> {
    if more == [] then ts else AddOne(AddAll(ts, more[..|more| - 1]), more[|more| - 1])
  }

  lemma KnownStays(ts: seq<Template>, t: Template, u: Template)
    requires Known(ts, u)
    ensures Known(AddOne(ts, t), u)
  {
    var i :| 0 <= i < |ts| && SameTemplate(ts[i], u);
    assert AddOne(ts, t)[i] == ts[i];
  }

  lemma AddedIsKnown(ts: seq<Template>, t: Template)
    ensures Known(AddOne(ts, t), t)
  {
    if !Known(ts, t) {
      assert SameTemplate(AddOne(ts, t)[|ts|], t);
    }
  }

  lemma {:induction false} AddAllKnows(ts: seq<Template>, more: seq<Template>, u: Template)
    requires Known(ts, u) || Known(more, u)
    ensures Known(AddAll(ts, more), u)
  {
    if more != [] {
      var init, last := more[..|more| - 1], more[|more| - 1];
      if Known(ts, u) {
        AddAllKnows(ts, init, u);
        KnownStays(AddAll(ts, init), last, u);
      } else {
        var i :| 0 <= i < |more| && SameTemplate(more[i], u);
        if i < |init| {
          assert SameTemplate(init[i], u);
          AddAllKnows(ts, init, u);
          KnownStays(AddAll(ts, init), last, u);
        } else {
          AddedIsKnown(AddAll(ts, init), last);
          SameKnown(AddOne(AddAll(ts, init), last), last, u);
        }
      }
    }
  }

  lemma SameKnown(ts: seq<Template>, t: Template, u: Template)
    requires SameTemplate(t, u) && Known(ts, t)
    ensures Known(ts, u)
  {
    var i :| 0 <= i < |ts| && SameTemplate(ts[i], t);
    assert SameTemplate(ts[i], u);
  }

  // ---------- templates that stop sharing ----------

  lemma KnownByKey(ts: seq<Template>, t: Template, u: Template)
    requires SameTemplate(t, u)
    ensures Known(ts, t) <==> Known(ts, u)
  {
    if Known(ts, t) { SameKnown(ts, t, u); }
    if Known(ts, u) { SameKnown(ts, u, t); }
  }

  lemma {:induction false} FreezeAfterAdding(
    ts: seq<Template>, more: seq<Template>, place: Path, out: Mapping, under: Path)
    requires place <= under
    ensures FreezeAll(AddAll(ts, more), place, out, under) ==
            AddAll(FreezeAll(ts, place, out, under), FreezeAll(more, place, out, under))
  {
    if more != [] {
      var init, last := more[..|more| - 1], more[|more| - 1];
      FreezeAfterAdding(ts, init, place, out, under);
      FreezeKeepsKnown(AddAll(ts, init), place, out, under, last);
      KnownByKey(FreezeAll(AddAll(ts, init), place, out, under), last, FreezeOne(last, place, out, under));
      var frozen := FreezeAll(more, place, out, under);
      assert frozen[..|frozen| - 1] == FreezeAll(init, place, out, under);
    }
  }

  lemma FreezeOfTake(ts: seq<Template>, n: nat, place: Path, out: Mapping, under: Path)
    requires place <= under && n <= |ts|
    ensures FreezeAll(ts, place, out, under)[..n] == FreezeAll(ts[..n], place, out, under)
  {
  }

  // ---------- collections side by side ----------

  /** The templates of `b` are those of `a` on top of its own first `n`. */
  predicate OnTop(n: nat, a: Shared, b: Shared) {
    n <= |b.templates| && b.templates == AddAll(b.templates[..n], a.templates)
  }

  /** The first `k` templates are the same. */
  predicate Agree(k: nat, a: Shared, b: Shared) {
    k <= |a.templates| && k <= |b.templates| && a.templates[..k] == b.templates[..k]
  }

  /** The same but for the templates. */
  predicate Close(a: Shared, b: Shared) {
    a.analyzers == b.analyzers && a.defaults == b.defaults
  }

  predicate Beside(top: Option<nat>, k: nat, a: Shared, b: Shared) {
    Close(a, b) && Agree(k, a, b) && (top.Some? ==> OnTop(top.value, a, b))
  }

  /** The same error, and collections side by side. */
  predicate Alongside(top: Option<nat>, k: nat, a: Outcome, b: Outcome) {
    a.error == b.error && Beside(top, k, a.shared, b.shared)
  }

  lemma AddTemplateOnTop(n: nat, a: Shared, b: Shared, t: Template)
    requires OnTop(n, a, b)
    ensures OnTop(n, AddTemplate(a, t), AddTemplate(b, t))
  {
    assert AddTemplate(b, t).templates[..n] == b.templates[..n];
    if Known(a.templates, t) {
      AddAllKnows(b.templates[..n], a.templates, t);
    } else {
      var more := a.templates + [t];
      assert more[..|more| - 1] == a.templates;
    }
  }

  lemma AddTemplateBeside(top: Option<nat>, k: nat, a: Shared, b: Shared, t: Template)
    requires Beside(top, k, a, b)
    ensures Beside(top, k, AddTemplate(a, t), AddTemplate(b, t))
  {
    if top.Some? { AddTemplateOnTop(top.value, a, b, t); }
    assert AddTemplate(a, t).templates[..k] == a.templates[..k];
    assert AddTemplate(b, t).templates[..k] == b.templates[..k];
  }

  lemma FreezeBeside(top: Option<nat>, k: nat, a: Shared, b: Shared, place: Path, out: Mapping, under: Path)
    requires place <= under && Beside(top, k, a, b)
    ensures Beside(top, k, Freeze(a, place, out, under), Freeze(b, place, out, under))
  {
    FreezeOfTake(a.templates, k, place, out, under);
    FreezeOfTake(b.templates, k, place, out, under);
    if top.Some? {
      FreezeAfterAdding(b.templates[..top.value], a.templates, place, out, under);
      FreezeOfTake(b.templates, top.value, place, out, under);
    }
  }

  lemma {:induction false} AnalyzersAlongside(top: Option<nat>, k: nat, list: seq<Analyzer>, a: Outcome, b: Outcome)
    requires Alongside(top, k, a, b)
    ensures Alongside(top, k, AddAnalyzers(list, a), AddAnalyzers(list, b))
    decreases |list|
  {
    if list != [] && a.error.None? {
      if list[0].definition.None? {
        AnalyzersAlongside(top, k, list[1..], a, b);
      } else {
        var name, d, known := list[0].name, list[0].definition.value, a.shared.analyzers;
        var error := if name in known && known[name] != d then Some(Inconsistent(name)) else None;
        AnalyzersAlongside(
          top, k, list[1..],
          Outcome(a.out, a.shared.(analyzers := known[name := d]), error),
          Outcome(b.out, b.shared.(analyzers := known[name := d]), error));
      }
    }
  }

  lemma {:induction false} DynamicBeside(
    top: Option<nat>, k: nat, f: Field, path: string, ds: seq<Option<Dynamic>>, a: Shared, b: Shared)
    requires Beside(top, k, a, b)
    ensures Beside(top, k, AddDynamic(f, path, ds, a), AddDynamic(f, path, ds, b))
    decreases |ds|
  {
    if ds != [] {
      if ds[0].None? {
        DynamicBeside(top, k, f, path, ds[1..], a, b);
      } else {
        var d, full := ds[0].value, FullName(path, f.name);
        var pathMatch := if '*' in full then full else full + ".*";
        var name := if |f.objectTypes| > 1 then full + "_" + d.matching else full;
        var t := Template(name, pathMatch, d.matching, d.mapping, None);
        AddTemplateBeside(top, k, a, b, t);
        DynamicBeside(top, k, f, path, ds[1..], AddTemplate(a, t), AddTemplate(b, t));
      }
    }
  }

  // ---------- the same output, other templates ----------

  predicate BothAlongside(top: Option<nat>, k: nat, r: Rendered, s: Rendered) {
    && Alongside(top, k, r.after, s.after)
    && r.after.out == s.after.out && r.mapping == s.mapping && r.home == s.home
  }

  lemma PlacingAlongside(top: Option<nat>, k: nat, p: Settings, f: Field, place: Path, r: Rendered, s: Rendered)
    requires BothAlongside(top, k, r, s)
    ensures var x, y := Placing(p, f, place, r), Placing(p, f, place, s); Alongside(top, k, x, y) && x.out == y.out
  {
    AddTemplateBeside(top, k, r.after.shared, s.after.shared, OwnTemplate(f, r));
    FreezeBeside(top, k, r.after.shared, s.after.shared, place, r.after.out, place + KeyOf(f));
  }

  lemma FinishAlongside(top: Option<nat>, k: nat, p: Settings, f: Field, st: State, r: Rendered, s: Rendered)
    requires BothAlongside(top, k, r, s)
    ensures var x, y := Finish(p, f, st, r), Finish(p, f, st, s); Alongside(top, k, x, y) && x.out == y.out
  {
    if r.after.error.None? {
      var rr := r.(after := r.after.(shared := AddDefault(f, st.path, st.defaultField, r.after.shared)));
      var ss := s.(after := s.after.(shared := AddDefault(f, st.path, st.defaultField, s.after.shared)));
      var x, y := Placing(p, f, st.place, rr), Placing(p, f, st.place, ss);
      PlacingAlongside(top, k, p, f, st.place, rr, ss);
      AnalyzersAlongside(top, k, f.analyzers, x, y);
      AnalyzersKeepOut(f.analyzers, x);
      AnalyzersKeepOut(f.analyzers, y);
    }
  }

  /** On one output, whatever templates are known. */
  lemma {:induction false} ProcessAlongside(
    p: Settings, top: Option<nat>, k: nat, fs: seq<Field>, st: State, out: Mapping, a: Shared, b: Shared)
    requires Beside(top, k, a, b)
    ensures var x, y := Process(p, fs, st, out, a), Process(p, fs, st, out, b);
            Alongside(top, k, x, y) && x.out == y.out
    decreases fs, 2
  {
    if fs != [] {
      FieldAlongside(p, top, k, fs[0], st, out, a, b);
      var x, y := ProcessOne(p, fs[0], st, out, a), ProcessOne(p, fs[0], st, out, b);
      if x.error.None? {
        ProcessAlongside(p, top, k, fs[1..], st, x.out, x.shared, y.shared);
      }
    }
  }

  lemma FieldAlongside(
    p: Settings, top: Option<nat>, k: nat, f: Field, st: State, out: Mapping, a: Shared, b: Shared)
    requires Beside(top, k, a, b)
    ensures var x, y := ProcessOne(p, f, st, out, a), ProcessOne(p, f, st, out, b);
            Alongside(top, k, x, y) && x.out == y.out
    decreases f, 1
  {
    if f.name != "" {
      var inner := Applied(f, st);
      RenderAlongside(p, top, k, f, inner, out, a, b);
      FinishAlongside(top, k, p, f, inner, Render(p, f, inner, out, a), Render(p, f, inner, out, b));
    }
  }

  /** What a field that is no group is made of does not depend on the output or the collections. */
  lemma LeafTogether(p: Settings, f: Field, st: State, out: Mapping, other: Mapping, a: Shared, b: Shared)
    requires !Grouping(f)
    ensures var r, s := Render(p, f, st, out, a), Render(p, f, st, other, b);
            || (r == Multi(p, f, st, false, out, a) && s == Multi(p, f, st, false, other, b))
            || (r == Multi(p, f, st, true, out, a) && s == Multi(p, f, st, true, other, b))
            || (&& r == Leaf(f.scalars, out, AddDynamic(f, st.path, f.objectTypes, a))
                && s == Leaf(f.scalars, other, AddDynamic(f, st.path, f.objectTypes, b)))
            || (r == Leaf(f.scalars, out, a) && s == Leaf(f.scalars, other, b))
            || (r == Leaf(map[], out, a) && s == Leaf(map[], other, b))
  {
  }

  lemma RenderAlongside(
    p: Settings, top: Option<nat>, k: nat, f: Field, st: State, out: Mapping, a: Shared, b: Shared)
    requires Beside(top, k, a, b)
    ensures BothAlongside(top, k, Render(p, f, st, out, a), Render(p, f, st, out, b))
    decreases f, 0, 1
  {
    if Grouping(f) {
      GroupAlongside(p, top, k, f, st, out, a, b);
    } else {
      LeafTogether(p, f, st, out, out, a, b);
      DynamicBeside(top, k, f, st.path, f.objectTypes, a, b);
      MultiAlongside(p, top, k, f, st, false, out, a, b);
      MultiAlongside(p, top, k, f, st, true, out, a, b);
    }
  }

  lemma GroupAlongside(
    p: Settings, top: Option<nat>, k: nat, f: Field, st: State, out: Mapping, a: Shared, b: Shared)
    requires Beside(top, k, a, b)
    ensures BothAlongside(top, k, GroupOf(p, f, st, out, a), GroupOf(p, f, st, out, b))
    decreases f, 0, 0
  {
    var inner := State(FullName(st.path, f.name), st.defaultField, st.place + Below(f));
    var found := PropertiesAt(out, Below(f));
    ProcessAlongside(p, top, k, f.fields, inner, found, a, b);
    var x, y := Process(p, f.fields, inner, found, a), Process(p, f.fields, inner, found, b);
    FreezeBeside(top, k, x.shared, y.shared, inner.place, x.out, inner.place);
  }

  lemma MultiAlongside(
    p: Settings, top: Option<nat>, k: nat, f: Field, st: State, bare: bool, out: Mapping, a: Shared, b: Shared)
    requires Beside(top, k, a, b)
    ensures BothAlongside(top, k, Multi(p, f, st, bare, out, a), Multi(p, f, st, bare, out, b))
    decreases f, 0, 0
  {
    if f.multiFields != [] {
      var inner := MultiState(f, st, bare);
      ProcessAlongside(p, top, k, f.multiFields, inner, map[], a, b);
      var x, y := Process(p, f.multiFields, inner, map[], a), Process(p, f.multiFields, inner, map[], b);
      FreezeBeside(top, k, x.shared, y.shared, inner.place, x.out, inner.place);
    }
  }

  // ---------- another output ----------

  predicate NoExplicitGroups(fs: seq<Field>)
    decreases fs
  {
    forall i | 0 <= i < |fs| :: GroupLike(fs[i]) ==> !fs[i].dynamicTemplate && NoExplicitGroups(fs[i].fields)
  }

  /** None of the templates shares anything. */
  predicate Homeless(ts: seq<Template>) {
    forall i | 0 <= i < |ts| :: ts[i].home.None?
  }

  /** With `top` the templates of `b` are those of `a`, which share nothing, on top of its own. */
  predicate Apart(top: Option<nat>, a: Shared, b: Shared) {
    Beside(top, 0, a, b) && (top.Some? ==> Homeless(a.templates))
  }

  lemma HomelessStay(ts: seq<Template>, place: Path, out: Mapping, under: Path)
    requires place <= under && Homeless(ts)
    ensures FreezeAll(ts, place, out, under) == ts
  {
  }

  lemma FreezeApart(
    top: Option<nat>, a: Shared, b: Shared, place: Path, out: Mapping, other: Mapping, under: Path)
    requires place <= under && Apart(top, a, b)
    ensures Apart(top, Freeze(a, place, out, under), Freeze(b, place, other, under))
    ensures Apart(top, a, Freeze(b, place, other, under))
    ensures Apart(top, Freeze(a, place, out, under), b)
  {
    if top.Some? {
      HomelessStay(a.templates, place, out, under);
      HomelessStay(a.templates, place, other, under);
      FreezeBeside(top, 0, a, b, place, other, under);
    }
  }

  lemma PlacingApart(top: Option<nat>, p: Settings, f: Field, place: Path, r: Rendered, s: Rendered)
    requires r.after.error == s.after.error && Apart(top, r.after.shared, s.after.shared)
    requires top.Some? && f.dynamicTemplate && p.explicitTemplates ==>
               r.mapping == s.mapping && r.home.None? && s.home.None?
    ensures var x, y := Placing(p, f, place, r), Placing(p, f, place, s);
            x.error == y.error && Apart(top, x.shared, y.shared)
  {
    if top.Some? && f.dynamicTemplate && p.explicitTemplates {
      AddTemplateBeside(top, 0, r.after.shared, s.after.shared, OwnTemplate(f, r));
    }
    var under := place + KeyOf(f);
    FreezeApart(top, r.after.shared, s.after.shared, place, r.after.out, s.after.out, under);
  }

  lemma FinishApart(top: Option<nat>, p: Settings, f: Field, st: State, r: Rendered, s: Rendered)
    requires r.after.error == s.after.error && Apart(top, r.after.shared, s.after.shared)
    requires top.Some? && f.dynamicTemplate && p.explicitTemplates ==>
               r.mapping == s.mapping && r.home.None? && s.home.None?
    ensures var x, y := Finish(p, f, st, r), Finish(p, f, st, s); x.error == y.error && Apart(top, x.shared, y.shared)
  {
    if r.after.error.None? {
      var rr := r.(after := r.after.(shared := AddDefault(f, st.path, st.defaultField, r.after.shared)));
      var ss := s.(after := s.after.(shared := AddDefault(f, st.path, st.defaultField, s.after.shared)));
      var x, y := Placing(p, f, st.place, rr), Placing(p, f, st.place, ss);
      PlacingApart(top, p, f, st.place, rr, ss);
      AnalyzersAlongside(top, 0, f.analyzers, x, y);
      AnalyzersKeepTemplates(f.analyzers, x);
    }
  }

  /**
  On another output the error, the analyzers and the default fields are the same; and so are the new templates, unless a
  group among the fields becomes one.
  */
  lemma {:induction false} ProcessApart(
    p: Settings, top: Option<nat>, fs: seq<Field>, st: State, out: Mapping, other: Mapping, a: Shared, b: Shared)
    requires Proper(Object(out)) && Proper(Object(other)) && Sound(fs)
    requires Apart(top, a, b) && (top.Some? ==> NoExplicitGroups(fs) || !p.explicitTemplates)
    ensures var x, y := Process(p, fs, st, out, a), Process(p, fs, st, other, b);
            x.error == y.error && Apart(top, x.shared, y.shared)
    decreases fs, 2
  {
    if fs != [] {
      FieldApart(p, top, fs[0], st, out, other, a, b);
      var x, y := ProcessOne(p, fs[0], st, out, a), ProcessOne(p, fs[0], st, other, b);
      if x.error.None? {
        ProcessOneProper(p, fs[0], st, out, a);
        ProcessOneProper(p, fs[0], st, other, b);
        ProcessApart(p, top, fs[1..], st, x.out, y.out, x.shared, y.shared);
      }
    }
  }

  lemma FieldApart(
    p: Settings, top: Option<nat>, f: Field, st: State, out: Mapping, other: Mapping, a: Shared, b: Shared)
    requires Proper(Object(out)) && Proper(Object(other)) && Sound(f.fields)
    requires Apart(top, a, b) && (top.Some? ==> NoExplicitGroups([f]) || !p.explicitTemplates)
    ensures var x, y := ProcessOne(p, f, st, out, a), ProcessOne(p, f, st, other, b);
            x.error == y.error && Apart(top, x.shared, y.shared)
    decreases f, 1
  {
    if f.name != "" {
      var inner := Applied(f, st);
      assert [f][0] == f;
      if GroupLike(f) {
        GroupApart(p, top, f, st, out, other, a, b);
      } else {
        LeafApart(p, top, f, inner, out, other, a, b);
      }
      FinishApart(top, p, f, inner, Render(p, f, inner, out, a), Render(p, f, inner, other, b));
    }
  }

  lemma GroupApart(
    p: Settings, top: Option<nat>, f: Field, st: State, out: Mapping, other: Mapping, a: Shared, b: Shared)
    requires Proper(Object(out)) && Proper(Object(other)) && Sound(f.fields) && GroupLike(f)
    requires Apart(top, a, b) && (top.Some? ==> NoExplicitGroups(f.fields) || !p.explicitTemplates)
    ensures var x, y := Render(p, f, Applied(f, st), out, a).after, Render(p, f, Applied(f, st), other, b).after;
            x.error == y.error && Apart(top, x.shared, y.shared)
    decreases f, 0
  {
    GroupFindsProper(f, out);
    GroupFindsProper(f, other);
    GroupRendered(p, f, st, out, a);
    GroupRendered(p, f, st, other, b);
    ProcessApart(p, top, f.fields, Inside(f, st), PropertiesAt(out, Below(f)), PropertiesAt(other, Below(f)), a, b);
    var x, y := Fields(p, f, st, out, a), Fields(p, f, st, other, b);
    FreezeApart(top, x.shared, y.shared, st.place + Below(f), x.out, y.out, st.place + Below(f));
  }

  predicate BothApart(top: Option<nat>, r: Rendered, s: Rendered) {
    && r.after.error == s.after.error && Apart(top, r.after.shared, s.after.shared)
    && r.mapping == s.mapping && r.home.None? && s.home.None?
  }

  lemma LeafApart(
    p: Settings, top: Option<nat>, f: Field, st: State, out: Mapping, other: Mapping, a: Shared, b: Shared)
    requires !Grouping(f) && Apart(top, a, b)
    ensures BothApart(top, Render(p, f, st, out, a), Render(p, f, st, other, b))
    decreases f, 0
  {
    LeafTogether(p, f, st, out, other, a, b);
    DynamicApart(top, f, st.path, a, b);
    MultiApart(p, top, f, st, false, out, other, a, b);
    MultiApart(p, top, f, st, true, out, other, a, b);
  }

  lemma MultiApart(
    p: Settings, top: Option<nat>, f: Field, st: State, bare: bool, out: Mapping, other: Mapping, a: Shared, b: Shared)
    requires Apart(top, a, b)
    ensures BothApart(top, Multi(p, f, st, bare, out, a), Multi(p, f, st, bare, other, b))
  {
    MultiAlongside(p, top, 0, f, st, bare, out, a, b);
    if top.Some? && f.multiFields != [] {
      var inner := MultiState(f, st, bare);
      ProcessConfined(p, f.multiFields, inner, map[], a);
      HomelessAfter(a.templates, Process(p, f.multiFields, inner, map[], a), inner.place);
    }
  }

  /** New templates share nothing any more when all that stands at the place has been let go. */
  lemma HomelessAfter(ts: seq<Template>, r: Outcome, place: Path)
    requires Homeless(ts) && Confined(place, ts, r.shared.templates)
    ensures Homeless(FreezeAll(r.shared.templates, place, r.out, place))
  {
    var more := r.shared.templates;
    forall i | 0 <= i < |more| ensures FreezeOne(more[i], place, r.out, place).home.None? {
      if i < |ts| { assert Later(ts[i], more[i]); }
    }
  }

  lemma DynamicApart(top: Option<nat>, f: Field, path: string, a: Shared, b: Shared)
    requires Apart(top, a, b)
    ensures Apart(top, AddDynamic(f, path, f.objectTypes, a), AddDynamic(f, path, f.objectTypes, b))
  {
    DynamicBeside(top, 0, f, path, f.objectTypes, a, b);
    if top.Some? { DynamicHomeless(f, path, f.objectTypes, a); }
  }

  lemma {:induction false} DynamicHomeless(f: Field, path: string, ds: seq<Option<Dynamic>>, shared: Shared)
    requires Homeless(shared.templates)
    ensures Homeless(AddDynamic(f, path, ds, shared).templates)
    decreases |ds|
  {
    if ds != [] {
      if ds[0].None? {
        DynamicHomeless(f, path, ds[1..], shared);
      } else {
        var d, full := ds[0].value, FullName(path, f.name);
        var pathMatch := if '*' in full then full else full + ".*";
        var name := if |f.objectTypes| > 1 then full + "_" + d.matching else full;
        DynamicHomeless(f, path, ds[1..], AddTemplate(shared, Template(name, pathMatch, d.matching, d.mapping, None)));
      }
    }
  }
}
