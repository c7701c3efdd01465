/**
What a tree of fields stands for beside its output: default fields and the dynamic templates of object types.  A walk over
the tree comes by every field with the names that lead to it from the root and with the nearest setting for default
fields; what processing collects is read off from the walk.
*/
module TemplateVisits {
  import opened Names
  import opened Options
  import opened Templates
  import opened TemplateMerging
  import opened TemplateTidying
  import opened TemplateIndependence
  import opened TemplateLists

  // ---------- the walk ----------

  /** A field with the names from the root down to it and the nearest setting for default fields. */
  datatype Visit = Visit(names: seq<string>, setting: bool, field: Field)

  /** The visits, the analyzers defined by then, and whether a definition clashed with an earlier one. */
  datatype Trail = Trail(visits: seq<Visit>, analyzers: map<string, string>, clash: bool)

  function Defined(list: seq<Analyzer>, known: map<string, string>): (map<string, string>, bool)
    decreases |list|
  {
    if list == [] then (known, false)
    else if list[0].definition.None? then Defined(list[1..], known)
    else
      var name, d := list[0].name, list[0].definition.value;
      if name in known && known[name] != d then (known[name := d], true) else Defined(list[1..], known[name := d])
  }

  function Nearest(f: Field, setting: bool): bool {
    if f.defaultField.Some? then f.defaultField.value else setting
  }

  /** A match_only_text field that is kept as such passes neither names nor settings on to its multi-fields. */
  predicate IsBare(p: Settings, f: Field) {
    f.kind == MatchOnlyText && p.matchOnlyText
  }

  function DefinesAnalyzers(f: Field): seq<Analyzer> {
    if f.kind == Text || f.kind == MatchOnlyText then f.analyzers else []
  }

  /** A clash ends the walk, except that one among multi-fields ends only the walk over these. */
  function Walk(p: Settings, fs: seq<Field>, names: seq<string>, setting: bool, known: map<string, string>): Trail
    decreases fs, 1
  {
    if fs == [] then Trail([], known, false)
    else
      var one := WalkOne(p, fs[0], names, setting, known);
      if one.clash then one
      else
        var rest := Walk(p, fs[1..], names, setting, one.analyzers);
        rest.(visits := one.visits + rest.visits)
  }

  /** What lies below a field comes first. */
  function WalkOne(p: Settings, f: Field, names: seq<string>, setting: bool, known: map<string, string>): Trail
    decreases f, 1
  {
    if f.name == "" then Trail([], known, false)
    else
      var below := WalkBelow(p, f, names, setting, known);
      if Grouping(f) && below.clash then below
      else
        var (after, clash) := Defined(DefinesAnalyzers(f), below.analyzers);
        Trail(below.visits + [Visit(names + [f.name], Nearest(f, setting), f)], after, clash)
  }

  function WalkBelow(p: Settings, f: Field, names: seq<string>, setting: bool, known: map<string, string>): Trail
    decreases f, 0
  {
    if Grouping(f) then Walk(p, f.fields, names + [f.name], Nearest(f, setting), known)
    else if !HasMultiFields(f) then Trail([], known, false)
    else if IsBare(p, f) then Walk(p, f.multiFields, [], false, known)
    else Walk(p, f.multiFields, names + [f.name], Nearest(f, setting), known)
  }

  // ---------- what is read off ----------

  /** An indexed text-like field for which default fields are on. */
  predicate IsDefault(v: Visit) {
    v.setting && HasMultiFields(v.field) && v.field.index != Some(false)
  }

  function DefaultNames(visits: seq<Visit>): seq<string> {
    if visits == [] then []
    else (if IsDefault(visits[0]) then [Join(visits[0].names)] else []) + DefaultNames(visits[1..])
  }

  /** The template for one object type: the dotted name from the root, with a star if it has none. */
  function ObjectTemplate(v: Visit, d: Dynamic): Template {
    var full := Join(v.names);
    Template(
      if |v.field.objectTypes| > 1 then full + "_" + d.matching else full,
      if '*' in full then full else full + ".*",
      d.matching, d.mapping, None)
  }

  function TemplatesOf(v: Visit, ds: seq<Option<Dynamic>>): seq<Template> {
    if ds == [] then []
    else (if ds[0].Some? then [ObjectTemplate(v, ds[0].value)] else []) + TemplatesOf(v, ds[1..])
  }

  function ObjectTemplates(visits: seq<Visit>): seq<Template> {
    if visits == [] then []
    else
      (if visits[0].field.kind == ObjectType then TemplatesOf(visits[0], visits[0].field.objectTypes) else []) +
      ObjectTemplates(visits[1..])
  }

  /** The templates that match by path. */
  function Matched(ts: seq<Template>): seq<Template> {
    if ts == [] then []
    else Matched(ts[..|ts| - 1]) + (if ts[|ts| - 1].pathMatch != "" then [ts[|ts| - 1]] else [])
  }

  lemma OneVisit(v: Visit)
    ensures DefaultNames([v]) == if IsDefault(v) then [Join(v.names)] else []
    ensures ObjectTemplates([v]) == if v.field.kind == ObjectType then TemplatesOf(v, v.field.objectTypes) else []
  {
    assert [v][1..] == [];
  }

  lemma {:induction false} DefaultNamesConcat(a: seq<Visit>, b: seq<Visit>)
    ensures DefaultNames(a + b) == DefaultNames(a) + DefaultNames(b)
  {
    if a == [] {
      assert a + b == b;
    } else {
      assert (a + b)[0] == a[0] && (a + b)[1..] == a[1..] + b;
      DefaultNamesConcat(a[1..], b);
    }
  }

  lemma {:induction false} ObjectTemplatesConcat(a: seq<Visit>, b: seq<Visit>)
    ensures ObjectTemplates(a + b) == ObjectTemplates(a) + ObjectTemplates(b)
  {
    if a == [] {
      assert a + b == b;
    } else {
      assert (a + b)[0] == a[0] && (a + b)[1..] == a[1..] + b;
      ObjectTemplatesConcat(a[1..], b);
    }
  }

  lemma {:induction false} AddAllConcat(ts: seq<Template>, a: seq<Template>, b: seq<Template>)
    ensures AddAll(ts, a + b) == AddAll(AddAll(ts, a), b)
  {
    if b == [] {
      assert a + b == a;
    } else {
      var init := b[..|b| - 1];
      assert (a + b)[..|a + b| - 1] == a + init && (a + b)[|a + b| - 1] == b[|b| - 1];
      AddAllConcat(ts, a, init);
    }
  }

  lemma {:induction false} KnownMatched(ts: seq<Template>, t: Template)
    requires t.pathMatch != ""
    ensures Known(Matched(ts), t) <==> Known(ts, t)
  {
    if ts != [] {
      var init, last := ts[..|ts| - 1], ts[|ts| - 1];
      KnownMatched(init, t);
      assert ts == init + [last];
      KnownAtEnd(init, last, t);
      KnownAtEnd(Matched(init), last, t);
      assert Matched(init) + [] == Matched(init);
    }
  }

  lemma KnownAtEnd(ts: seq<Template>, last: Template, t: Template)
    ensures Known(ts + [last], t) <==> Known(ts, t) || SameTemplate(last, t)
  {
    if Known(ts, t) { KnownBefore(ts, last, t); }
    if SameTemplate(last, t) { assert SameTemplate((ts + [last])[|ts|], t); }
  }

  lemma MatchedAfterOne(ts: seq<Template>, t: Template)
    ensures Matched(AddOne(ts, t)) == if t.pathMatch != "" then AddOne(Matched(ts), t) else Matched(ts)
  {
    assert (ts + [t])[..|ts + [t]| - 1] == ts;
    if t.pathMatch != "" { KnownMatched(ts, t); }
  }

  lemma {:induction false} MatchedFrozen(ts: seq<Template>, place: Path, out: Mapping, under: Path)
    requires place <= under && Homeless(Matched(ts))
    ensures Matched(FreezeAll(ts, place, out, under)) == Matched(ts)
  {
    if ts != [] {
      var init, last := ts[..|ts| - 1], ts[|ts| - 1];
      var frozen := FreezeAll(ts, place, out, under);
      HomelessParts(Matched(init), if last.pathMatch != "" then [last] else []);
      MatchedFrozen(init, place, out, under);
      assert frozen[..|ts| - 1] == FreezeAll(init, place, out, under);
      assert frozen[|ts| - 1] == FreezeOne(last, place, out, under);
      if last.pathMatch != "" { assert [last][0].home.None?; }
    }
  }

  lemma HomelessParts(a: seq<Template>, b: seq<Template>)
    ensures Homeless(a + b) <==> Homeless(a) && Homeless(b)
  {
    if Homeless(a + b) {
      forall i | 0 <= i < |a| ensures a[i].home.None? { assert (a + b)[i] == a[i]; }
      forall i | 0 <= i < |b| ensures b[i].home.None? { assert (a + b)[|a| + i] == b[i]; }
    }
  }

  // ---------- collecting what is read off ----------

  /** From `a` to `b` exactly what the visits stand for has been collected. */
  predicate Told(a: Shared, visits: seq<Visit>, b: Shared) {
    && b.defaults == a.defaults + DefaultNames(visits)
    && Homeless(Matched(b.templates))
    && Matched(b.templates) == AddAll(Matched(a.templates), ObjectTemplates(visits))
  }

  lemma ToldTwice(a: Shared, v: seq<Visit>, b: Shared, w: seq<Visit>, c: Shared)
    requires Told(a, v, b) && Told(b, w, c)
    ensures Told(a, v + w, c)
  {
    DefaultNamesConcat(v, w);
    ObjectTemplatesConcat(v, w);
    AddAllConcat(Matched(a.templates), ObjectTemplates(v), ObjectTemplates(w));
  }

  lemma ToldNothing(a: Shared)
    requires Homeless(Matched(a.templates))
    ensures Told(a, [], a)
  {
  }

  lemma ToldAlike(a: Shared, visits: seq<Visit>, b: Shared, c: Shared)
    requires Told(a, visits, b) && c.defaults == b.defaults && Matched(c.templates) == Matched(b.templates)
    ensures Told(a, visits, c)
  {
  }

  lemma ToldFrozen(a: Shared, visits: seq<Visit>, b: Shared, place: Path, out: Mapping, under: Path)
    requires Told(a, visits, b) && place <= under
    ensures Told(a, visits, Freeze(b, place, out, under))
  {
    MatchedFrozen(b.templates, place, out, under);
  }

  lemma ToldOwn(a: Shared, visits: seq<Visit>, b: Shared, t: Template)
    requires Told(a, visits, b) && t.pathMatch == ""
    ensures Told(a, visits, AddTemplate(b, t))
  {
    MatchedAfterOne(b.templates, t);
  }

  // ---------- names from the root ----------

  predicate AllNamed(names: seq<string>) {
    forall i | 0 <= i < |names| :: names[i] != ""
  }

  lemma FullNameIsJoin(names: seq<string>, name: string)
    requires AllNamed(names)
    ensures FullName(Join(names), name) == Join(names + [name])
  {
    if names == [] {
      assert names + [name] == [name];
    } else {
      assert names[0] != "";
      JoinOfConcat(names, [name]);
    }
  }

  // ---------- the object types of one field ----------

  lemma {:induction false} DynamicTold(
    f: Field, names: seq<string>, setting: bool, ds: seq<Option<Dynamic>>, shared: Shared)
    requires AllNamed(names) && Homeless(Matched(shared.templates))
    ensures var v, next := Visit(names + [f.name], setting, f), AddDynamic(f, Join(names), ds, shared);
            && next.defaults == shared.defaults && next.analyzers == shared.analyzers
            && Homeless(Matched(next.templates))
            && Matched(next.templates) == AddAll(Matched(shared.templates), TemplatesOf(v, ds))
    decreases |ds|
  {
    if ds != [] {
      var v := Visit(names + [f.name], setting, f);
      if ds[0].None? {
        DynamicTold(f, names, setting, ds[1..], shared);
        assert [] + TemplatesOf(v, ds[1..]) == TemplatesOf(v, ds[1..]);
      } else {
        FullNameIsJoin(names, f.name);
        var t := ObjectTemplate(v, ds[0].value);
        var next := AddTemplate(shared, t);
        ObjectAdded(shared, t);
        DynamicTold(f, names, setting, ds[1..], next);
        AddAllConcat(Matched(shared.templates), [t], TemplatesOf(v, ds[1..]));
      }
    }
  }

  lemma ObjectAdded(shared: Shared, t: Template)
    requires Homeless(Matched(shared.templates)) && t.pathMatch != "" && t.home.None?
    ensures var next := AddTemplate(shared, t);
            Homeless(Matched(next.templates)) && Matched(next.templates) == AddAll(Matched(shared.templates), [t])
  {
    MatchedAfterOne(shared.templates, t);
    assert AddTemplate(shared, t).templates == AddOne(shared.templates, t);
    assert [t][..0] == [];
    assert AddAll(Matched(shared.templates), []) == Matched(shared.templates);
    HomelessParts(Matched(shared.templates), [t]);
  }

  // ---------- processing follows the walk ----------

  /** The outcome is the one the trail tells. */
  predicate Follows(a: Shared, trail: Trail, r: Outcome) {
    (r.error.Some? <==> trail.clash) && r.shared.analyzers == trail.analyzers && Told(a, trail.visits, r.shared)
  }

  /** No leaf sets "properties" itself, and no multi-field does. */
  predicate Tame(fs: seq<Field>)
    decreases fs
  {
    forall i | 0 <= i < |fs| :: PROPERTIES !in fs[i].scalars && Tame(fs[i].fields) && Tame(fs[i].multiFields)
  }

  lemma {:induction false} TameIsSound(fs: seq<Field>)
    requires Tame(fs)
    ensures Sound(fs)
    decreases fs
  {
    forall i | 0 <= i < |fs| ensures PROPERTIES !in fs[i].scalars && Sound(fs[i].fields) {
      TameIsSound(fs[i].fields);
    }
  }

  lemma {:induction false} AnalyzersFollow(list: seq<Analyzer>, o: Outcome)
    requires o.error.None?
    ensures var r, d := AddAnalyzers(list, o), Defined(list, o.shared.analyzers);
            && (r.error.Some? <==> d.1) && r.shared.analyzers == d.0
            && r.shared.defaults == o.shared.defaults && r.shared.templates == o.shared.templates
    decreases |list|
  {
    if list != [] {
      if list[0].definition.None? {
        AnalyzersFollow(list[1..], o);
      } else {
        var name, d, known := list[0].name, list[0].definition.value, o.shared.analyzers;
        var next := o.shared.(analyzers := known[name := d]);
        if name in known && known[name] != d {
          AnalyzersAfterError(list[1..], Outcome(o.out, next, Some(Inconsistent(name))));
        } else {
          AnalyzersFollow(list[1..], Outcome(o.out, next, None));
        }
      }
    }
  }

  lemma AnalyzersAfterError(list: seq<Analyzer>, o: Outcome)
    requires o.error.Some?
    ensures AddAnalyzers(list, o) == o
  {
  }

  /** The names that lead to the fields, and their state. */
  predicate Rooted(names: seq<string>, st: State) {
    AllNamed(names) && st.path == Join(names)
  }

  lemma PlacingTold(a: Shared, visits: seq<Visit>, p: Settings, f: Field, place: Path, r: Rendered)
    requires Told(a, visits, r.after.shared)
    ensures var o := Placing(p, f, place, r);
            Told(a, visits, o.shared) && o.error == r.after.error && o.shared.analyzers == r.after.shared.analyzers
  {
    ToldOwn(a, visits, r.after.shared, OwnTemplate(f, r));
    ToldFrozen(a, visits, r.after.shared, place, r.after.out, place + KeyOf(f));
  }

  /** The field's own visit, once what lies below it has been told. */
  lemma OwnVisit(a: Shared, below: seq<Visit>, b: Shared, f: Field, names: seq<string>, st: State)
    requires Told(a, below, b) && Rooted(names, st) && f.kind != ObjectType
    ensures Told(a, below + [Visit(names + [f.name], st.defaultField, f)], AddDefault(f, st.path, st.defaultField, b))
  {
    var v, c := Visit(names + [f.name], st.defaultField, f), AddDefault(f, st.path, st.defaultField, b);
    FullNameIsJoin(names, f.name);
    OneVisit(v);
    assert Told(b, [v], c);
    ToldTwice(a, below, b, [v], c);
  }

  lemma FinishFollows(a: Shared, visits: seq<Visit>, p: Settings, f: Field, st: State, r: Rendered)
    requires r.after.error.None?
    requires Told(a, visits, AddDefault(f, st.path, st.defaultField, r.after.shared))
    ensures var d := Defined(DefinesAnalyzers(f), r.after.shared.analyzers);
            Follows(a, Trail(visits, d.0, d.1), Finish(p, f, st, r))
  {
    var collected := AddDefault(f, st.path, st.defaultField, r.after.shared);
    var s := r.(after := r.after.(shared := collected));
    PlacingTold(a, visits, p, f, st.place, s);
    AnalyzersFollow(f.analyzers, Placing(p, f, st.place, s));
  }

  lemma {:induction false} ProcessFollows(
    p: Settings, fs: seq<Field>, names: seq<string>, st: State, out: Mapping, shared: Shared)
    requires Proper(Object(out)) && Tame(fs) && Rooted(names, st) && Homeless(Matched(shared.templates))
    ensures Follows(shared, Walk(p, fs, names, st.defaultField, shared.analyzers), Process(p, fs, st, out, shared))
    decreases fs, 2
  {
    if fs == [] {
      ToldNothing(shared);
    } else {
      FieldFollows(p, fs[0], names, st, out, shared);
      var one, r := WalkOne(p, fs[0], names, st.defaultField, shared.analyzers), ProcessOne(p, fs[0], st, out, shared);
      if r.error.None? {
        TameIsSound(fs[0].fields);
        ProcessOneProper(p, fs[0], st, out, shared);
        ProcessFollows(p, fs[1..], names, st, r.out, r.shared);
        var rest := Walk(p, fs[1..], names, st.defaultField, one.analyzers);
        ToldTwice(shared, one.visits, r.shared, rest.visits, Process(p, fs[1..], st, r.out, r.shared).shared);
      }
    }
  }

  lemma FieldFollows(p: Settings, f: Field, names: seq<string>, st: State, out: Mapping, shared: Shared)
    requires Proper(Object(out)) && Tame(f.fields) && Tame(f.multiFields) && Rooted(names, st)
    requires Homeless(Matched(shared.templates))
    ensures Follows(shared, WalkOne(p, f, names, st.defaultField, shared.analyzers), ProcessOne(p, f, st, out, shared))
    decreases f, 1
  {
    if f.name == "" {
      ToldNothing(shared);
    } else if Grouping(f) {
      GroupFollows(p, f, names, st, out, shared);
    } else {
      LeafFollows(p, f, names, st, out, shared);
    }
  }

  lemma GroupFollows(p: Settings, f: Field, names: seq<string>, st: State, out: Mapping, shared: Shared)
    requires Proper(Object(out)) && Tame(f.fields) && Rooted(names, st) && GroupLike(f)
    requires Homeless(Matched(shared.templates))
    ensures Follows(shared, WalkOne(p, f, names, st.defaultField, shared.analyzers), ProcessOne(p, f, st, out, shared))
    decreases f, 0, 2
  {
    var inner, at := Inside(f, st), st.place + Below(f);
    FullNameIsJoin(names, f.name);
    GroupFindsProper(f, out);
    GroupRendered(p, f, st, out, shared);
    ProcessFollows(p, f.fields, names + [f.name], inner, PropertiesAt(out, Below(f)), shared);
    var below := WalkBelow(p, f, names, st.defaultField, shared.analyzers);
    var r := Fields(p, f, st, out, shared);
    ToldFrozen(shared, below.visits, r.shared, at, r.out, at);
    if r.error.None? {
      var rendered := Render(p, f, Applied(f, st), out, shared);
      OwnVisit(shared, below.visits, rendered.after.shared, f, names, Applied(f, st));
      FinishFollows(
        shared, below.visits + [Visit(names + [f.name], Nearest(f, st.defaultField), f)], p, f, Applied(f, st), rendered);
    }
  }

  lemma LeafFollows(p: Settings, f: Field, names: seq<string>, st: State, out: Mapping, shared: Shared)
    requires Tame(f.multiFields) && Rooted(names, st) && !Grouping(f) && f.name != ""
    requires Homeless(Matched(shared.templates))
    ensures Follows(shared, WalkOne(p, f, names, st.defaultField, shared.analyzers), ProcessOne(p, f, st, out, shared))
    decreases f, 0, 2
  {
    var inner := Applied(f, st);
    var below := WalkBelow(p, f, names, st.defaultField, shared.analyzers);
    var visits := below.visits + [Visit(names + [f.name], Nearest(f, st.defaultField), f)];
    var rendered := Render(p, f, inner, out, shared);
    if f.kind == ObjectType {
      ObjectVisit(f, names, inner, shared);
      assert visits == [Visit(names + [f.name], Nearest(f, st.defaultField), f)];
    } else {
      RenderTold(p, f, names, st, out, shared);
      OwnVisit(shared, below.visits, rendered.after.shared, f, names, inner);
    }
    FinishFollows(shared, visits, p, f, inner, rendered);
  }

  lemma ObjectVisit(f: Field, names: seq<string>, st: State, shared: Shared)
    requires Rooted(names, st) && f.kind == ObjectType && Homeless(Matched(shared.templates))
    ensures var next := AddDynamic(f, st.path, f.objectTypes, shared);
            && next.analyzers == shared.analyzers && AddDefault(f, st.path, st.defaultField, next) == next
            && Told(shared, [Visit(names + [f.name], st.defaultField, f)], next)
  {
    var v := Visit(names + [f.name], st.defaultField, f);
    DynamicTold(f, names, st.defaultField, f.objectTypes, shared);
    OneVisit(v);
  }

  /** The multi-fields of a leaf, if it has any. */
  lemma RenderTold(p: Settings, f: Field, names: seq<string>, st: State, out: Mapping, shared: Shared)
    requires Tame(f.multiFields) && Rooted(names, st) && !Grouping(f) && f.name != "" && f.kind != ObjectType
    requires Homeless(Matched(shared.templates))
    ensures var r := Render(p, f, Applied(f, st), out, shared);
            var below := WalkBelow(p, f, names, st.defaultField, shared.analyzers);
            && r.after.error.None? && Told(shared, below.visits, r.after.shared)
            && r.after.shared.analyzers == below.analyzers
    decreases f, 0, 1
  {
    if HasMultiFields(f) {
      MultiTold(p, f, names, st, IsBare(p, f), out, shared);
      assert Render(p, f, Applied(f, st), out, shared) == Multi(p, f, Applied(f, st), IsBare(p, f), out, shared);
    } else {
      ToldNothing(shared);
      assert Render(p, f, Applied(f, st), out, shared).after == Outcome(out, shared, None);
    }
  }

  lemma MultiTold(p: Settings, f: Field, names: seq<string>, st: State, bare: bool, out: Mapping, shared: Shared)
    requires Tame(f.multiFields) && Rooted(names, st) && HasMultiFields(f) && f.name != "" && bare == IsBare(p, f)
    requires Homeless(Matched(shared.templates))
    ensures var r := Multi(p, f, Applied(f, st), bare, out, shared);
            var below := WalkBelow(p, f, names, st.defaultField, shared.analyzers);
            && r.after.error.None? && Told(shared, below.visits, r.after.shared)
            && r.after.shared.analyzers == below.analyzers
    decreases f, 0, 0
  {
    if f.multiFields == [] {
      ToldNothing(shared);
    } else {
      var inner := MultiState(f, Applied(f, st), bare);
      var above := if bare then [] else names + [f.name];
      MultiRooted(f, names, st, bare);
      ProcessFollows(p, f.multiFields, above, inner, map[], shared);
      var r := Process(p, f.multiFields, inner, map[], shared);
      var below := Walk(p, f.multiFields, above, inner.defaultField, shared.analyzers);
      ToldFrozen(shared, below.visits, r.shared, inner.place, r.out, inner.place);
    }
  }

  lemma MultiRooted(f: Field, names: seq<string>, st: State, bare: bool)
    requires Rooted(names, st) && f.name != ""
    ensures Rooted(if bare then [] else names + [f.name], MultiState(f, Applied(f, st), bare))
  {
    FullNameIsJoin(names, f.name);
  }

  // ---------- trees whose analyzers agree ----------

  /** All fields of the tree, those below a field before it. */
  function Everything(p: Settings, fs: seq<Field>, names: seq<string>, setting: bool): seq<Visit>
    decreases fs, 1
  {
    if fs == [] then []
    else EverythingOf(p, fs[0], names, setting) + Everything(p, fs[1..], names, setting)
  }

  function EverythingOf(p: Settings, f: Field, names: seq<string>, setting: bool): seq<Visit>
    decreases f, 1
  {
    if f.name == "" then []
    else EverythingBelow(p, f, names + [f.name], Nearest(f, setting)) + [Visit(names + [f.name], Nearest(f, setting), f)]
  }

  function EverythingBelow(p: Settings, f: Field, names: seq<string>, setting: bool): seq<Visit>
    decreases f, 0
  {
    if Grouping(f) then Everything(p, f.fields, names, setting)
    else if !HasMultiFields(f) then []
    else if IsBare(p, f) then Everything(p, f.multiFields, [], false)
    else Everything(p, f.multiFields, names, setting)
  }

  type Definitions = map<string, string>

  predicate Defines(defs: Definitions, list: seq<Analyzer>) {
    forall i | 0 <= i < |list| && list[i].definition.Some? ::
      list[i].name in defs && defs[list[i].name] == list[i].definition.value
  }

  /** Every analyzer has one definition throughout the tree. */
  predicate Agree(defs: Definitions, fs: seq<Field>)
    decreases fs
  {
    forall i | 0 <= i < |fs| ::
      && Defines(defs, DefinesAnalyzers(fs[i]))
      && (Grouping(fs[i]) ==> Agree(defs, fs[i].fields))
      && (HasMultiFields(fs[i]) ==> Agree(defs, fs[i].multiFields))
  }

  predicate Among(known: Definitions, defs: Definitions) {
    forall name <- known :: name in defs && defs[name] == known[name]
  }

  lemma {:induction false} DefinedAmong(defs: Definitions, list: seq<Analyzer>, known: Definitions)
    requires Defines(defs, list) && Among(known, defs)
    ensures var d := Defined(list, known); !d.1 && Among(d.0, defs)
    decreases |list|
  {
    if list != [] {
      DefinedAmong(
        defs, list[1..],
        if list[0].definition.None? then known else known[list[0].name := list[0].definition.value]);
    }
  }

  /** Then the walk comes by all fields, and without a clash. */
  lemma {:induction false} AgreeingWalk(
    defs: Definitions, p: Settings, fs: seq<Field>, names: seq<string>, setting: bool, known: Definitions)
    requires Agree(defs, fs) && Among(known, defs)
    ensures var trail := Walk(p, fs, names, setting, known);
            !trail.clash && Among(trail.analyzers, defs) && trail.visits == Everything(p, fs, names, setting)
    decreases fs, 1
  {
    if fs != [] {
      AgreeingOne(defs, p, fs[0], names, setting, known);
      AgreeingWalk(defs, p, fs[1..], names, setting, WalkOne(p, fs[0], names, setting, known).analyzers);
    }
  }

  lemma AgreeingOne(
    defs: Definitions, p: Settings, f: Field, names: seq<string>, setting: bool, known: Definitions)
    requires Agree(defs, [f]) && Among(known, defs)
    ensures var trail := WalkOne(p, f, names, setting, known);
            !trail.clash && Among(trail.analyzers, defs) && trail.visits == EverythingOf(p, f, names, setting)
    decreases f, 0, 1
  {
    assert [f][0] == f;
    if f.name != "" {
      AgreeingBelow(defs, p, f, names, setting, known);
      DefinedAmong(defs, DefinesAnalyzers(f), WalkBelow(p, f, names, setting, known).analyzers);
    }
  }

  lemma AgreeingBelow(
    defs: Definitions, p: Settings, f: Field, names: seq<string>, setting: bool, known: Definitions)
    requires Agree(defs, [f]) && Among(known, defs)
    ensures var trail := WalkBelow(p, f, names, setting, known);
            && !trail.clash && Among(trail.analyzers, defs)
            && trail.visits == EverythingBelow(p, f, names + [f.name], Nearest(f, setting))
    decreases f, 0, 0
  {
    assert [f][0] == f;
    var here, mine := names + [f.name], Nearest(f, setting);
    if Grouping(f) {
      AgreeingWalk(defs, p, f.fields, here, mine, known);
    } else if HasMultiFields(f) {
      AgreeingWalk(defs, p, f.multiFields, [], false, known);
      AgreeingWalk(defs, p, f.multiFields, here, mine, known);
    }
  }

  /**
  The default fields are the dotted names from the root of exactly the indexed text-like fields for which the nearest
  setting is on, multi-fields included; and the templates that match by path are those of the object types.
  */
  lemma CollectedFromTree(
    defs: Definitions, p: Settings, fs: seq<Field>, names: seq<string>, st: State, out: Mapping, shared: Shared)
    requires Proper(Object(out)) && Tame(fs) && Rooted(names, st) && Homeless(Matched(shared.templates))
    requires Agree(defs, fs) && Among(shared.analyzers, defs)
    ensures var r, all := Process(p, fs, st, out, shared), Everything(p, fs, names, st.defaultField);
            && r.error.None?
            && r.shared.defaults == shared.defaults + DefaultNames(all)
            && Matched(r.shared.templates) == AddAll(Matched(shared.templates), ObjectTemplates(all))
  {
    ProcessFollows(p, fs, names, st, out, shared);
    AgreeingWalk(defs, p, fs, names, st.defaultField, shared.analyzers);
  }
}
