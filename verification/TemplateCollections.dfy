/** What processing collects beside the output, and where the keys of the output come from. */
module TemplateCollections {
  import opened Names
  import opened Options
  import opened Templates
  import opened TemplateMerging
  import opened TemplateTidying

  predicate NoneTwice(ts: seq<Template>) {
    forall i, j | 0 <= i < j < |ts| :: !SameTemplate(ts[i], ts[j])
  }

  /** The same template, or one that has stopped sharing its properties and keeps what they were. */
  predicate Later(t: Template, u: Template) {
    SameTemplate(t, u) && (u == t || (t.home.Some? && u.home.None?))
  }

  /** Templates, default fields and analyzers are only added to, in order, and no template is recorded twice. */
  predicate Grown(a: Shared, b: Shared) {
    && |a.templates| <= |b.templates|
    && (forall i | 0 <= i < |a.templates| :: Later(a.templates[i], b.templates[i]))
    && (NoneTwice(a.templates) ==> NoneTwice(b.templates))
    && a.defaults <= b.defaults
    && a.analyzers.Keys <= b.analyzers.Keys
  }

  lemma GrownTwice(a: Shared, b: Shared, c: Shared)
    requires Grown(a, b) && Grown(b, c)
    ensures Grown(a, c)
  {
    forall i | 0 <= i < |a.templates| ensures Later(a.templates[i], c.templates[i]) {
      assert Later(a.templates[i], b.templates[i]) && Later(b.templates[i], c.templates[i]);
    }
  }

  lemma FreezeGrows(shared: Shared, place: Path, out: Mapping, under: Path)
    requires place <= under
    ensures Grown(shared, Freeze(shared, place, out, under))
  {
    var frozen := Freeze(shared, place, out, under);
    forall i | 0 <= i < |shared.templates| ensures Later(shared.templates[i], frozen.templates[i]) {
      assert frozen.templates[i] == FreezeOne(shared.templates[i], place, out, under);
    }
    if NoneTwice(shared.templates) {
      forall i, j | 0 <= i < j < |frozen.templates| ensures !SameTemplate(frozen.templates[i], frozen.templates[j]) {
        assert !SameTemplate(shared.templates[i], shared.templates[j]);
      }
    }
  }

  lemma AddTemplateGrows(shared: Shared, t: Template)
    ensures Grown(shared, AddTemplate(shared, t))
  {
  }

  lemma {:induction false} AddDynamicGrows(f: Field, path: string, ds: seq<Option<Dynamic>>, shared: Shared)
    ensures Grown(shared, AddDynamic(f, path, ds, shared))
    decreases |ds|
  {
    if ds != [] {
      if ds[0].None? {
        AddDynamicGrows(f, path, ds[1..], shared);
      } else {
        var d, full := ds[0].value, FullName(path, f.name);
        var pathMatch := if '*' in full then full else full + ".*";
        var name := if |f.objectTypes| > 1 then full + "_" + d.matching else full;
        var t := Template(name, pathMatch, d.matching, d.mapping, None);
        AddTemplateGrows(shared, t);
        AddDynamicGrows(f, path, ds[1..], AddTemplate(shared, t));
        GrownTwice(shared, AddTemplate(shared, t), AddDynamic(f, path, ds[1..], AddTemplate(shared, t)));
      }
    }
  }

  lemma {:induction false} AddAnalyzersGrows(list: seq<Analyzer>, o: Outcome)
    ensures Grown(o.shared, AddAnalyzers(list, o).shared)
    decreases |list|
  {
    if list != [] && o.error.None? {
      if list[0].definition.None? {
        AddAnalyzersGrows(list[1..], o);
      } else {
        var name, d, known := list[0].name, list[0].definition.value, o.shared.analyzers;
        var error := if name in known && known[name] != d then Some(Inconsistent(name)) else None;
        var next := Outcome(o.out, o.shared.(analyzers := known[name := d]), error);
        AddAnalyzersGrows(list[1..], next);
        GrownTwice(o.shared, next.shared, AddAnalyzers(list[1..], next).shared);
      }
    }
  }

  lemma PlacingGrows(p: Settings, f: Field, place: Path, r: Rendered)
    ensures Grown(r.after.shared, Placing(p, f, place, r).shared)
  {
    AddTemplateGrows(r.after.shared, OwnTemplate(f, r));
    FreezeGrows(r.after.shared, place, r.after.out, place + KeyOf(f));
  }

  lemma FinishGrows(p: Settings, f: Field, st: State, r: Rendered)
    ensures Grown(r.after.shared, Finish(p, f, st, r).shared)
  {
    if r.after.error.None? {
      var collected := AddDefault(f, st.path, st.defaultField, r.after.shared);
      var s := r.(after := r.after.(shared := collected));
      var placed := Placing(p, f, st.place, s);
      PlacingGrows(p, f, st.place, s);
      GrownTwice(r.after.shared, collected, placed.shared);
      AddAnalyzersGrows(f.analyzers, placed);
      GrownTwice(r.after.shared, placed.shared, AddAnalyzers(f.analyzers, placed).shared);
    }
  }

  lemma {:induction false} ProcessGrows(p: Settings, fs: seq<Field>, st: State, out: Mapping, shared: Shared)
    ensures Grown(shared, Process(p, fs, st, out, shared).shared)
    decreases fs, 2
  {
    if fs != [] {
      var r := ProcessOne(p, fs[0], st, out, shared);
      ProcessOneGrows(p, fs[0], st, out, shared);
      if r.error.None? {
        ProcessGrows(p, fs[1..], st, r.out, r.shared);
        GrownTwice(shared, r.shared, Process(p, fs[1..], st, r.out, r.shared).shared);
      }
    }
  }

  lemma ProcessOneGrows(p: Settings, f: Field, st: State, out: Mapping, shared: Shared)
    ensures Grown(shared, ProcessOne(p, f, st, out, shared).shared)
    decreases f, 1
  {
    if f.name != "" {
      var inner := Applied(f, st);
      var r := Render(p, f, inner, out, shared);
      RenderGrows(p, f, inner, out, shared);
      FinishGrows(p, f, inner, r);
      GrownTwice(shared, r.after.shared, Finish(p, f, inner, r).shared);
    }
  }

  lemma RenderGrows(p: Settings, f: Field, st: State, out: Mapping, shared: Shared)
    ensures Grown(shared, Render(p, f, st, out, shared).after.shared)
    decreases f, 0, 1
  {
    if Grouping(f) {
      GroupGrows(p, f, st, out, shared);
    } else {
      LeafCases(p, f, st, out, shared);
      MultiGrows(p, f, st, true, out, shared);
      MultiGrows(p, f, st, false, out, shared);
      AddDynamicGrows(f, st.path, f.objectTypes, shared);
    }
  }

  lemma GroupGrows(p: Settings, f: Field, st: State, out: Mapping, shared: Shared)
    ensures Grown(shared, GroupOf(p, f, st, out, shared).after.shared)
    decreases f, 0, 0
  {
    var inner := State(FullName(st.path, f.name), st.defaultField, st.place + Below(f));
    var r := Process(p, f.fields, inner, PropertiesAt(out, Below(f)), shared);
    ProcessGrows(p, f.fields, inner, PropertiesAt(out, Below(f)), shared);
    FreezeGrows(r.shared, inner.place, r.out, inner.place);
    GrownTwice(shared, r.shared, Freeze(r.shared, inner.place, r.out, inner.place));
  }

  lemma MultiGrows(p: Settings, f: Field, st: State, bare: bool, out: Mapping, shared: Shared)
    ensures Grown(shared, Multi(p, f, st, bare, out, shared).after.shared)
    decreases f, 0, 0
  {
    var inner := MultiState(f, st, bare);
    var r := Process(p, f.multiFields, inner, map[], shared);
    ProcessGrows(p, f.multiFields, inner, map[], shared);
    FreezeGrows(r.shared, inner.place, r.out, inner.place);
    GrownTwice(shared, r.shared, Freeze(r.shared, inner.place, r.out, inner.place));
  }

  // ---------- keys ----------

  /** The key of a field in the output, as one dotted name. */
  function GenerateKey(key: string): string
    decreases |key|
  {
    var i := FirstDot(key);
    if i == |key| then key else key[..i] + "." + (PROPERTIES + "." + GenerateKey(key[i + 1..]))
  }

  function FirstDot(s: string): (i: nat)
    ensures i <= |s| && DotFree(s[..i]) && (i < |s| ==> s[i] == '.')
  {
    if s == "" || s[0] == '.' then 0 else 1 + FirstDot(s[1..])
  }

  lemma SplitAround(a: string, w: string, b: string)
    requires DotFree(a) && DotFree(w)
    ensures Split(a + "." + (w + "." + b)) == [a, w] + Split(b)
  {
    SplitAtDot(a, w + "." + b);
    SplitOfPart(a);
    SplitAtDot(w, b);
    SplitOfPart(w);
  }

  lemma SplitWithoutDot(key: string)
    requires FirstDot(key) == |key|
    ensures Split(key) == [key]
  {
    assert key[..|key|] == key;
    SplitOfPart(key);
  }

  lemma SplitAtFirst(key: string, i: nat)
    requires i == FirstDot(key) < |key|
    ensures Split(key) == [key[..i]] + Split(key[i + 1..])
  {
    var a, b := key[..i], key[i + 1..];
    assert key == a + "." + b;
    SplitOfPart(a);
    SplitAtDot(a, b);
  }

  /** Read as a path it is the components of the name with "properties" between them. */
  lemma {:induction false} GeneratedKey(key: string)
    ensures Split(GenerateKey(key)) == KeyPath(Split(key))
    decreases |key|
  {
    var i := FirstDot(key);
    if i == |key| {
      SplitWithoutDot(key);
    } else {
      SplitAtFirst(key, i);
      var a, b := key[..i], key[i + 1..];
      GeneratedKey(b);
      SplitAround(a, PROPERTIES, GenerateKey(b));
      assert Split(key)[1..] == Split(b);
    }
  }
}
