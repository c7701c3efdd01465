/** Consecutive groups of one name mean the same as one group with all their fields. */
module TemplateMerging {
  import opened Names
  import opened Options
  import opened Templates

  // ---------- laws of output trees ----------

  lemma {:induction false} GetOfPut(m: Mapping, path: Path, members: Mapping, q: string)
    requires path != [] && Open(m, path)
    ensures Get(Put(m, path, Object(members)), path + [q]) == if q in members then Some(members[q]) else None
    decreases |path|
  {
    var longer := path + [q];
    if |path| == 1 {
      assert longer[1..] == [q];
    } else {
      assert longer[1..] == path[1..] + [q];
      GetOfPut(if path[0] in m then m[path[0]].members else map[], path[1..], members, q);
    }
  }

  lemma {:induction false} PutTwice(m: Mapping, path: Path, v: Value, w: Value)
    requires path != []
    ensures Put(Put(m, path, v), path, w) == Put(m, path, w)
    decreases |path|
  {
    if |path| > 1 {
      if path[0] !in m {
        PutTwice(map[], path[1..], v, w);
      } else if m[path[0]].Object? {
        PutTwice(m[path[0]].members, path[1..], v, w);
      }
    }
  }

  lemma {:induction false} PutOverBelow(m: Mapping, path: Path, q: string, v: Value, w: Value)
    requires path != []
    ensures Put(Put(m, path + [q], v), path, w) == Put(m, path, w)
    decreases |path|
  {
    var longer := path + [q];
    if |path| == 1 {
      assert longer[0] == path[0] && longer[1..] == [q];
    } else {
      assert longer[0] == path[0] && longer[1..] == path[1..] + [q];
      if path[0] !in m {
        PutOverBelow(map[], path[1..], q, v, w);
      } else if m[path[0]].Object? {
        PutOverBelow(m[path[0]].members, path[1..], q, v, w);
      }
    }
  }

  lemma {:induction false} PutOfGet(m: Mapping, path: Path)
    requires path != [] && Get(m, path).Some?
    ensures Put(m, path, Get(m, path).value) == m
    decreases |path|
  {
    if |path| > 1 {
      PutOfGet(m[path[0]].members, path[1..]);
    }
  }

  lemma {:induction false} PutStaysOpen(m: Mapping, path: Path, v: Value)
    requires path != [] && Open(m, path)
    ensures Open(Put(m, path, v), path)
    decreases |path|
  {
    if |path| > 1 {
      PutStaysOpen(if path[0] in m then m[path[0]].members else map[], path[1..], v);
    }
  }

  // ---------- processing composes ----------

  lemma {:induction false} ProcessConcat(p: Settings, a: seq<Field>, b: seq<Field>, st: State, out: Mapping, shared: Shared)
    ensures var r := Process(p, a, st, out, shared);
            Process(p, a + b, st, out, shared) == if r.error.Some? then r else Process(p, b, st, r.out, r.shared)
    decreases |a|
  {
    if a == [] {
      assert a + b == b;
    } else {
      assert (a + b)[0] == a[0] && (a + b)[1..] == a[1..] + b;
      var r := ProcessOne(p, a[0], st, out, shared);
      ProcessConcat(p, a[1..], b, st, r.out, r.shared);
    }
  }

  lemma PutKeepsKeys(m: Mapping, path: Path, v: Value)
    requires path != []
    ensures m.Keys <= Put(m, path, v).Keys
  {
  }

  lemma {:induction false} AnalyzersKeepOut(list: seq<Analyzer>, o: Outcome)
    ensures AddAnalyzers(list, o).out == o.out
    decreases |list|
  {
    if list != [] && o.error.None? {
      if list[0].definition.None? {
        AnalyzersKeepOut(list[1..], o);
      } else {
        var name, d, known := list[0].name, list[0].definition.value, o.shared.analyzers;
        var error := if name in known && known[name] != d then Some(Inconsistent(name)) else None;
        AnalyzersKeepOut(list[1..], Outcome(o.out, o.shared.(analyzers := known[name := d]), error));
      }
    }
  }

  lemma RenderKeepsKeys(p: Settings, f: Field, st: State, out: Mapping, shared: Shared)
    ensures out.Keys <= Render(p, f, st, out, shared).after.out.Keys
  {
    if Grouping(f) {
      var inner := State(FullName(st.path, f.name), st.defaultField, st.place + Below(f));
      var r := Process(p, f.fields, inner, PropertiesAt(out, Below(f)), shared);
      PutKeepsKeys(out, Below(f), Object(r.out));
    }
  }

  lemma FinishKeepsKeys(p: Settings, f: Field, st: State, r: Rendered)
    ensures r.after.out.Keys <= Finish(p, f, st, r).out.Keys
  {
    var collected := AddDefault(f, st.path, st.defaultField, r.after.shared);
    AnalyzersKeepOut(f.analyzers, Placing(p, f, st.place, r.(after := r.after.(shared := collected))));
    PutKeepsKeys(r.after.out, KeyOf(f), Object(r.mapping));
  }

  /** Nothing is ever taken out of the output. */
  lemma {:induction false} ProcessKeepsKeys(p: Settings, fs: seq<Field>, st: State, out: Mapping, shared: Shared)
    ensures out.Keys <= Process(p, fs, st, out, shared).out.Keys
    decreases |fs|
  {
    if fs != [] {
      ProcessOneKeepsKeys(p, fs[0], st, out, shared);
      var r := ProcessOne(p, fs[0], st, out, shared);
      ProcessKeepsKeys(p, fs[1..], st, r.out, r.shared);
    }
  }

  /** The state with the field's own default. */
  function Applied(f: Field, st: State): State {
    st.(defaultField := if f.defaultField.Some? then f.defaultField.value else st.defaultField)
  }

  lemma ProcessOneKeepsKeys(p: Settings, f: Field, st: State, out: Mapping, shared: Shared)
    ensures out.Keys <= ProcessOne(p, f, st, out, shared).out.Keys
  {
    if f.name != "" {
      var inner := Applied(f, st);
      RenderKeepsKeys(p, f, inner, out, shared);
      FinishKeepsKeys(p, f, inner, Render(p, f, inner, out, shared));
    }
  }

  // ---------- what a group does ----------

  predicate GroupLike(f: Field) {
    Grouping(f) && f.name != ""
  }

  predicate IsGroup(f: Field) {
    GroupLike(f) && !f.dynamicTemplate
  }

  function Inside(f: Field, st: State): State {
    State(FullName(st.path, f.name), Applied(f, st).defaultField, st.place + Below(f))
  }

  predicate Fits(f: Field, out: Mapping) {
    var current := Get(out, Below(f));
    current.Some? ==> current.value.Object?
  }

  function Whole(f: Field, properties: Mapping): Mapping {
    if f.kind == Nested then GroupMapping(f, properties)["type" := Scalar("nested")] else GroupMapping(f, properties)
  }

  function Placed(f: Field, out: Mapping, properties: Mapping): Mapping {
    if Whole(f, properties) == map[] then out else Put(out, KeyOf(f), Object(Whole(f, properties)))
  }

  function Fields(p: Settings, f: Field, st: State, out: Mapping, shared: Shared): Outcome {
    Process(p, f.fields, Inside(f, st), PropertiesAt(out, Below(f)), shared)
  }

  lemma GroupUnfit(p: Settings, f: Field, st: State, out: Mapping, shared: Shared)
    requires GroupLike(f) && !Fits(f, out)
    ensures ProcessOne(p, f, st, out, shared) == Outcome(out, shared, Some(NotAMap(f.name)))
  {
    assert GroupOf(p, f, Applied(f, st), out, shared).after.error == Some(NotAMap(f.name));
    assert Render(p, f, Applied(f, st), out, shared).after.error == Some(NotAMap(f.name));
  }

  /** Properties that are there are changed in place. */
  function Changed(f: Field, out: Mapping, properties: Mapping): Mapping {
    if Get(out, Below(f)).Some? then Put(out, Below(f), Object(properties)) else out
  }

  function HomeOf(f: Field, st: State, out: Mapping, properties: Mapping): Option<Path> {
    if Get(out, Below(f)).Some? && properties != map[] then Some(st.place + Below(f)) else None
  }

  lemma GroupRendered(p: Settings, f: Field, st: State, out: Mapping, shared: Shared)
    requires GroupLike(f) && Fits(f, out)
    ensures var r := Fields(p, f, st, out, shared);
            var kept := Kept(f, Get(out, Below(f)).Some?, st.place + Below(f), r);
            Render(p, f, Applied(f, st), out, shared) ==
            Rendered(Whole(f, r.out), HomeOf(f, st, out, r.out), Outcome(Changed(f, out, r.out), kept, r.error))
  {
    assert GroupOf(p, f, Applied(f, st), out, shared).mapping == GroupMapping(f, Fields(p, f, st, out, shared).out);
  }

  /** The keys of the templates. */
  function Recorded(ts: seq<Template>): (keys: seq<TemplateKey>)
    ensures |keys| == |ts|
  {
    seq(|ts|, i requires 0 <= i < |ts| => KeyOfTemplate(ts[i]))
  }

  /** The same analyzers, default fields and template keys. */
  predicate Akin(a: Shared, b: Shared) {
    a.analyzers == b.analyzers && a.defaults == b.defaults && Recorded(a.templates) == Recorded(b.templates)
  }

  lemma FreezeIsAkin(shared: Shared, place: Path, out: Mapping, under: Path)
    requires place <= under
    ensures Akin(Freeze(shared, place, out, under), shared)
  {
  }

  /** A group processes its fields on the properties that are there, and puts its mapping in place. */
  lemma GroupStep(p: Settings, f: Field, st: State, out: Mapping, shared: Shared)
    requires IsGroup(f) && Fits(f, out)
    ensures var r, o := Fields(p, f, st, out, shared), ProcessOne(p, f, st, out, shared);
            && o.error == r.error && Akin(o.shared, r.shared)
            && (r.error.None? ==> o.out == Placed(f, out, r.out) && o.shared == r.shared)
  {
    var r := Fields(p, f, st, out, shared);
    var current := Get(out, Below(f));
    GroupRendered(p, f, st, out, shared);
    FreezeIsAkin(r.shared, st.place + Below(f), r.out, st.place + Below(f));
    if current.Some? && r.error.None? {
      if Whole(f, r.out) == map[] {
        ProcessKeepsKeys(p, f.fields, Inside(f, st), current.value.members, shared);
        EmptyWhole(f, r.out);
        PutOfGet(out, Below(f));
      } else {
        PutOverBelow(out, KeyOf(f), PROPERTIES, Object(r.out), Object(Whole(f, r.out)));
      }
    }
  }

  lemma EmptyWhole(f: Field, properties: Mapping)
    ensures Whole(f, properties) == map[] ==> properties == map[]
    ensures PROPERTIES in Whole(f, properties) <==> properties != map[]
    ensures properties != map[] ==> Whole(f, properties)[PROPERTIES] == Object(properties)
  {
    if properties != map[] {
      assert PROPERTIES in GroupMapping(f, properties);
    }
  }

  /** Afterwards the properties are the ones just made. */
  lemma AfterGroup(f: Field, out: Mapping, properties: Mapping)
    requires Open(out, KeyOf(f)) && Fits(f, out) && PropertiesAt(out, Below(f)).Keys <= properties.Keys
    ensures var next := Placed(f, out, properties);
            Fits(f, next) && PropertiesAt(next, Below(f)) == properties
  {
    EmptyWhole(f, properties);
    if Whole(f, properties) != map[] {
      GetOfPut(out, KeyOf(f), Whole(f, properties), PROPERTIES);
    }
  }

  // ---------- merging ----------

  /** Two groups of one name with the same settings and no explicit dynamic template. */
  predicate Alike(f: Field, g: Field) {
    && IsGroup(f) && IsGroup(g)
    && f.kind == g.kind && f.name == g.name && f.defaultField == g.defaultField && f.dynamic == g.dynamic
  }

  function Merge(f: Field, g: Field): Field {
    f.(fields := f.fields + g.fields)
  }

  /**
  The same error, analyzers, default fields and keys of templates; without an error also the same output and the same
  templates, in content and in what they share.
  */
  predicate Same(a: Outcome, b: Outcome) {
    a.error == b.error && Akin(a.shared, b.shared) && (a.error.None? ==> a == b)
  }

  lemma FieldsOfMerge(p: Settings, f: Field, g: Field, st: State, out: Mapping, shared: Shared)
    requires f.name == g.name && f.defaultField == g.defaultField
    ensures var r := Fields(p, f, st, out, shared);
            Fields(p, Merge(f, g), st, out, shared) ==
            if r.error.Some? then r else Process(p, g.fields, Inside(g, st), r.out, r.shared)
  {
    ProcessConcat(p, f.fields, g.fields, Inside(f, st), PropertiesAt(out, Below(f)), shared);
  }

  lemma FieldsOfSecond(p: Settings, f: Field, g: Field, st: State, out: Mapping, shared: Shared)
    requires Alike(f, g) && Open(out, KeyOf(f)) && Fits(f, out) && Fields(p, f, st, out, shared).error.None?
    ensures var r := Fields(p, f, st, out, shared);
            var next := Placed(f, out, r.out);
            && Fits(g, next)
            && Fields(p, g, st, next, r.shared) == Fields(p, Merge(f, g), st, out, shared)
            && r.out.Keys <= Fields(p, Merge(f, g), st, out, shared).out.Keys
  {
    var r := Fields(p, f, st, out, shared);
    FieldsOfMerge(p, f, g, st, out, shared);
    ProcessKeepsKeys(p, f.fields, Inside(f, st), PropertiesAt(out, Below(f)), shared);
    AfterGroup(f, out, r.out);
    ProcessKeepsKeys(p, g.fields, Inside(g, st), r.out, r.shared);
  }

  lemma MergeSteps(p: Settings, f: Field, g: Field, st: State, out: Mapping, shared: Shared)
    requires Alike(f, g) && Open(out, KeyOf(f)) && Fits(f, out) && Fields(p, f, st, out, shared).error.None?
    ensures var r := ProcessOne(p, f, st, out, shared);
            r.error.None? && Same(ProcessOne(p, g, st, r.out, r.shared), ProcessOne(p, Merge(f, g), st, out, shared))
  {
    var m, r := Merge(f, g), Fields(p, f, st, out, shared);
    var next := Placed(f, out, r.out);
    FieldsOfSecond(p, f, g, st, out, shared);
    GroupStep(p, f, st, out, shared);
    GroupStep(p, g, st, next, r.shared);
    GroupStep(p, m, st, out, shared);
    PlacedTwice(f, g, out, r.out, Fields(p, m, st, out, shared).out);
  }

  /** Two groups that are alike mean what one group with the fields of both means. */
  lemma MergeGroups(p: Settings, f: Field, g: Field, st: State, out: Mapping, shared: Shared)
    requires Alike(f, g) && Open(out, KeyOf(f))
    ensures Same(Process(p, [f, g], st, out, shared), Process(p, [Merge(f, g)], st, out, shared))
  {
    ProcessTwo(p, f, g, st, out, shared);
    ProcessSingle(p, Merge(f, g), st, out, shared);
    if !Fits(f, out) {
      GroupUnfit(p, f, st, out, shared);
      GroupUnfit(p, Merge(f, g), st, out, shared);
    } else if Fields(p, f, st, out, shared).error.None? {
      MergeSteps(p, f, g, st, out, shared);
    } else {
      FieldsOfMerge(p, f, g, st, out, shared);
      GroupStep(p, f, st, out, shared);
      GroupStep(p, Merge(f, g), st, out, shared);
    }
  }

  lemma ProcessSingle(p: Settings, f: Field, st: State, out: Mapping, shared: Shared)
    ensures Process(p, [f], st, out, shared) == ProcessOne(p, f, st, out, shared)
  {
    var r := ProcessOne(p, f, st, out, shared);
    assert [f][1..] == [];
    assert r.error.None? ==> Process(p, [], st, r.out, r.shared) == r;
  }

  lemma ProcessTwo(p: Settings, f: Field, g: Field, st: State, out: Mapping, shared: Shared)
    ensures var r := ProcessOne(p, f, st, out, shared);
            Process(p, [f, g], st, out, shared) == if r.error.Some? then r else ProcessOne(p, g, st, r.out, r.shared)
  {
    var r := ProcessOne(p, f, st, out, shared);
    assert [f, g][1..] == [g];
    ProcessSingle(p, g, st, r.out, r.shared);
  }

  lemma PlacedTwice(f: Field, g: Field, out: Mapping, first: Mapping, second: Mapping)
    requires Alike(f, g) && first.Keys <= second.Keys
    ensures Placed(g, Placed(f, out, first), second) == Placed(f, out, second)
  {
    EmptyWhole(f, first);
    EmptyWhole(f, second);
    if Whole(f, second) == map[] {
      assert first == map[];
    } else if Whole(f, first) != map[] {
      PutTwice(out, KeyOf(f), Object(Whole(f, first)), Object(Whole(f, second)));
    }
  }
}
