/**
Outputs stay proper trees of properties, so that a group always finds a map to go on with; and merging every run of
consecutive groups that are alike, at every depth, leaves what a list of fields generates the same.
*/
module TemplateTidying {
  import opened Names
  import opened Options
  import opened Templates
  import opened TemplateMerging

  // ---------- proper outputs ----------

  /** Every entry is an object, and what it calls properties is again such a tree. */
  predicate Proper(v: Value)
    decreases v
  {
    && v.Object?
    && forall k <- v.members ::
         && v.members[k].Object?
         && (PROPERTIES in v.members[k].members ==> Proper(v.members[k].members[PROPERTIES]))
  }

  predicate ProperEntry(v: Value) {
    v.Object? && (PROPERTIES in v.members ==> Proper(v.members[PROPERTIES]))
  }

  /** No leaf sets "properties" itself. */
  predicate Sound(fs: seq<Field>)
    decreases fs
  {
    forall i | 0 <= i < |fs| :: PROPERTIES !in fs[i].scalars && Sound(fs[i].fields)
  }

  lemma ProperMember(m: Mapping, k: string)
    requires Proper(Object(m)) && k in m
    ensures ProperEntry(m[k])
  {
    assert Object(m).members[k] == m[k];
  }

  lemma ProperUpdate(m: Mapping, k: string, e: Value)
    requires Proper(Object(m)) && ProperEntry(e)
    ensures Proper(Object(m[k := e]))
  {
    var n := Object(m[k := e]);
    forall j | j in n.members ensures ProperEntry(n.members[j]) {
      if j != k {
        ProperMember(m, j);
      }
    }
  }

  /** Such an output is open for every name, and stays proper. */
  lemma {:induction false} PutProper(m: Mapping, parts: Path, e: Value)
    requires Proper(Object(m)) && ProperEntry(e) && parts != []
    ensures Open(m, KeyPath(parts)) && Proper(Object(Put(m, KeyPath(parts), e)))
    decreases |parts|
  {
    var k, rest := parts[0], parts[1..];
    if |parts| == 1 {
      ProperUpdate(m, k, e);
    } else {
      var below := PropertiesOf(m, k);
      ProperProperties(m, k);
      PutProper(below, rest, e);
      PutNext(m, k, KeyPath(rest), e);
      var entry := if k in m then m[k].members else map[];
      ProperUpdate(m, k, Object(entry[PROPERTIES := Object(Put(below, KeyPath(rest), e))]));
    }
  }

  function PropertiesOf(m: Mapping, k: string): Mapping
    requires Proper(Object(m))
  {
    if k in m && m[k].Object? && PROPERTIES in m[k].members && m[k].members[PROPERTIES].Object?
    then m[k].members[PROPERTIES].members
    else map[]
  }

  lemma ProperProperties(m: Mapping, k: string)
    requires Proper(Object(m))
    ensures Proper(Object(PropertiesOf(m, k)))
  {
    if k in m {
      ProperMember(m, k);
    }
  }

  lemma PutNext(m: Mapping, k: string, path: Path, e: Value)
    requires Proper(Object(m)) && path != []
    ensures var entry := if k in m then m[k].members else map[];
            Put(m, [k, PROPERTIES] + path, e) ==
            m[k := Object(entry[PROPERTIES := Object(Put(PropertiesOf(m, k), path, e))])]
    ensures Open(m, [k, PROPERTIES] + path) <==> Open(PropertiesOf(m, k), path)
    ensures Get(m, [k, PROPERTIES] + path) == Get(PropertiesOf(m, k), path)
  {
    var long := [k, PROPERTIES] + path;
    assert long[1..] == [PROPERTIES] + path && long[1..][1..] == path;
    if k in m {
      ProperMember(m, k);
    }
    assert Open(map[], path);
    assert Get(map[], path).None?;
  }

  lemma {:induction false} PropertiesProper(m: Mapping, parts: Path, properties: Mapping)
    requires Proper(Object(m)) && Proper(Object(properties)) && parts != []
    ensures Proper(Object(Put(m, KeyPath(parts) + [PROPERTIES], Object(properties))))
    ensures var current := Get(m, KeyPath(parts) + [PROPERTIES]); current.Some? ==> Proper(current.value)
    decreases |parts|
  {
    var k, rest := parts[0], parts[1..];
    var long := KeyPath(parts) + [PROPERTIES];
    if k in m {
      ProperMember(m, k);
    }
    var entry := if k in m then m[k].members else map[];
    if |parts| == 1 {
      assert long == [k, PROPERTIES] && long[1..] == [PROPERTIES];
      ProperUpdate(m, k, Object(entry[PROPERTIES := Object(properties)]));
    } else {
      var path, below := KeyPath(rest) + [PROPERTIES], PropertiesOf(m, k);
      assert long == [k, PROPERTIES] + path;
      ProperProperties(m, k);
      PropertiesProper(below, rest, properties);
      PutNext(m, k, path, Object(properties));
      ProperUpdate(m, k, Object(entry[PROPERTIES := Object(Put(below, path, Object(properties)))]));
    }
  }

  predicate Trouble(e: Option<Error>) {
    e.Some? && e.value.NotAMap?
  }

  lemma {:induction false} AnalyzersNoTrouble(list: seq<Analyzer>, o: Outcome)
    requires !Trouble(o.error)
    ensures !Trouble(AddAnalyzers(list, o).error)
    decreases |list|
  {
    if list != [] && o.error.None? {
      if list[0].definition.None? {
        AnalyzersNoTrouble(list[1..], o);
      } else {
        var name, d, known := list[0].name, list[0].definition.value, o.shared.analyzers;
        var error := if name in known && known[name] != d then Some(Inconsistent(name)) else None;
        AnalyzersNoTrouble(list[1..], Outcome(o.out, o.shared.(analyzers := known[name := d]), error));
      }
    }
  }

  lemma FinishProper(p: Settings, f: Field, st: State, r: Rendered)
    requires Proper(Object(r.after.out)) && !Trouble(r.after.error)
    requires r.after.error.None? ==> ProperEntry(Object(r.mapping))
    ensures Proper(Object(Finish(p, f, st, r).out)) && !Trouble(Finish(p, f, st, r).error)
  {
    if r.after.error.None? {
      var collected := AddDefault(f, st.path, st.defaultField, r.after.shared);
      var placed := Placing(p, f, st.place, r.(after := r.after.(shared := collected)));
      PutProper(r.after.out, Split(f.name), Object(r.mapping));
      AnalyzersKeepOut(f.analyzers, placed);
      AnalyzersNoTrouble(f.analyzers, placed);
    }
  }

  lemma WholeProper(f: Field, properties: Mapping)
    requires Proper(Object(properties))
    ensures ProperEntry(Object(Whole(f, properties)))
  {
    EmptyWhole(f, properties);
  }

  /** Outputs stay proper, and the complaint that properties are not a map never comes. */
  lemma {:induction false} ProcessProper(p: Settings, fs: seq<Field>, st: State, out: Mapping, shared: Shared)
    requires Proper(Object(out)) && Sound(fs)
    ensures var r := Process(p, fs, st, out, shared); Proper(Object(r.out)) && !Trouble(r.error)
    decreases fs, 2
  {
    if fs != [] {
      ProcessOneProper(p, fs[0], st, out, shared);
      var r := ProcessOne(p, fs[0], st, out, shared);
      if r.error.None? {
        ProcessProper(p, fs[1..], st, r.out, r.shared);
      }
    }
  }

  lemma ProcessOneProper(p: Settings, f: Field, st: State, out: Mapping, shared: Shared)
    requires Proper(Object(out)) && PROPERTIES !in f.scalars && Sound(f.fields)
    ensures var r := ProcessOne(p, f, st, out, shared); Proper(Object(r.out)) && !Trouble(r.error)
    decreases f, 1
  {
    if f.name != "" {
      var inner := Applied(f, st);
      if GroupLike(f) {
        GroupProper(p, f, st, out, shared);
      } else {
        LeafProper(p, f, inner, out, shared);
      }
      FinishProper(p, f, inner, Render(p, f, inner, out, shared));
    }
  }

  lemma LeafProper(p: Settings, f: Field, st: State, out: Mapping, shared: Shared)
    requires PROPERTIES !in f.scalars && !Grouping(f)
    ensures var r := Render(p, f, st, out, shared);
            r.after.out == out && r.after.error.None? && PROPERTIES !in r.mapping
  {
    LeafCases(p, f, st, out, shared);
    assert "fields" != PROPERTIES;
  }

  lemma GroupProper(p: Settings, f: Field, st: State, out: Mapping, shared: Shared)
    requires Proper(Object(out)) && GroupLike(f) && Sound(f.fields)
    ensures var r := Render(p, f, Applied(f, st), out, shared);
            Proper(Object(r.after.out)) && ProperEntry(Object(r.mapping)) && !Trouble(r.after.error)
    decreases f, 0
  {
    PropertiesProper(out, Split(f.name), map[]);
    ProcessProper(p, f.fields, Inside(f, st), PropertiesAt(out, Below(f)), shared);
    GroupRendered(p, f, st, out, shared);
    var r := Fields(p, f, st, out, shared);
    PropertiesProper(out, Split(f.name), r.out);
    WholeProper(f, r.out);
  }

  // ---------- merging everywhere ----------

  /** Concatenation that merges at the seam, and at the seams this opens further down. */
  function JoinLists(a: seq<Field>, b: seq<Field>): seq<Field>
    decreases a
  {
    if a == [] || b == [] || !Alike(a[|a| - 1], b[0]) then a + b
    else
      var f, g := a[|a| - 1], b[0];
      a[..|a| - 1] + [f.(fields := JoinLists(f.fields, g.fields))] + b[1..]
  }

  function Tidied(fs: seq<Field>): seq<Field>
    decreases fs
  {
    if fs == [] then [] else JoinLists([TidiedOne(fs[0])], Tidied(fs[1..]))
  }

  function TidiedOne(f: Field): Field
    decreases f
  {
    if GroupLike(f) then f.(fields := Tidied(f.fields)) else f
  }

  lemma SoundConcat(a: seq<Field>, b: seq<Field>)
    ensures Sound(a + b) <==> Sound(a) && Sound(b)
  {
    if Sound(a + b) {
      forall i | 0 <= i < |a| ensures PROPERTIES !in a[i].scalars && Sound(a[i].fields) {
        assert (a + b)[i] == a[i];
      }
      forall i | 0 <= i < |b| ensures PROPERTIES !in b[i].scalars && Sound(b[i].fields) {
        assert (a + b)[|a| + i] == b[i];
      }
    }
  }

  lemma SoundOne(f: Field)
    ensures Sound([f]) <==> PROPERTIES !in f.scalars && Sound(f.fields)
  {
    assert [f][0] == f;
  }

  lemma AtSeam(a: seq<Field>, b: seq<Field>)
    requires a != [] && b != []
    ensures a + b == a[..|a| - 1] + [a[|a| - 1], b[0]] + b[1..]
  {
    assert a == a[..|a| - 1] + [a[|a| - 1]] && b == [b[0]] + b[1..];
  }

  lemma SoundAtSeam(a: seq<Field>, b: seq<Field>)
    requires a != [] && b != [] && Sound(a) && Sound(b)
    ensures Sound(a[..|a| - 1]) && Sound([a[|a| - 1]]) && Sound([b[0]]) && Sound(b[1..])
  {
    SoundParts(a, |a| - 1);
    assert a[|a| - 1..] == [a[|a| - 1]];
    SoundParts(b, 1);
    assert b[..1] == [b[0]];
  }

  lemma SoundParts(a: seq<Field>, n: nat)
    requires n <= |a| && Sound(a)
    ensures Sound(a[..n]) && Sound(a[n..])
  {
    assert a == a[..n] + a[n..];
    SoundConcat(a[..n], a[n..]);
  }

  lemma {:induction false} JoinSound(a: seq<Field>, b: seq<Field>)
    requires Sound(a) && Sound(b)
    ensures Sound(JoinLists(a, b))
    decreases a
  {
    if a == [] || b == [] || !Alike(a[|a| - 1], b[0]) {
      SoundConcat(a, b);
    } else {
      var init, f, g, tail := a[..|a| - 1], a[|a| - 1], b[0], b[1..];
      var m := f.(fields := JoinLists(f.fields, g.fields));
      SoundAtSeam(a, b);
      SoundOne(f);
      SoundOne(g);
      JoinSound(f.fields, g.fields);
      SoundOne(m);
      SoundConcat(init, [m]);
      SoundConcat(init + [m], tail);
    }
  }

  lemma {:induction false} TidiedSound(fs: seq<Field>)
    requires Sound(fs)
    ensures Sound(Tidied(fs))
    decreases fs
  {
    if fs != [] {
      TidiedSound(fs[0].fields);
      SoundOne(TidiedOne(fs[0]));
      TidiedSound(fs[1..]);
      JoinSound([TidiedOne(fs[0])], Tidied(fs[1..]));
    }
  }

  // ---------- the same meaning ----------

  /** Lists that do the same in the middle do the same as a whole. */
  lemma SameInside(
    p: Settings, a: seq<Field>, x: seq<Field>, y: seq<Field>, b: seq<Field>, st: State, out: Mapping, shared: Shared)
    requires var r := Process(p, a, st, out, shared);
             r.error.None? ==> Same(Process(p, x, st, r.out, r.shared), Process(p, y, st, r.out, r.shared))
    ensures Same(Process(p, a + x + b, st, out, shared), Process(p, a + y + b, st, out, shared))
  {
    ProcessConcat(p, a, x, st, out, shared);
    ProcessConcat(p, a, y, st, out, shared);
    ProcessConcat(p, a + x, b, st, out, shared);
    ProcessConcat(p, a + y, b, st, out, shared);
  }

  lemma FinishIgnoresFields(p: Settings, f: Field, fs: seq<Field>, st: State, r: Rendered)
    ensures Finish(p, f, st, r) == Finish(p, f.(fields := fs), st, r)
  {
  }

  lemma RenderSame(p: Settings, f: Field, fs: seq<Field>, st: State, out: Mapping, shared: Shared)
    requires GroupLike(f) && Fits(f, out)
    requires Same(Fields(p, f, st, out, shared), Fields(p, f.(fields := fs), st, out, shared))
    ensures var r, s := Render(p, f, Applied(f, st), out, shared), Render(p, f.(fields := fs), Applied(f, st), out, shared);
            Akin(r.after.shared, s.after.shared) && r.after.error == s.after.error && (r.after.error.None? ==> r == s)
  {
    var g, at := f.(fields := fs), st.place + Below(f);
    GroupRendered(p, f, st, out, shared);
    GroupRendered(p, g, st, out, shared);
    assert KeyOf(f) == KeyOf(g) && Inside(f, st) == Inside(g, st) && Applied(f, st) == Applied(g, st);
    var x, y := Fields(p, f, st, out, shared), Fields(p, g, st, out, shared);
    FreezeIsAkin(x.shared, at, x.out, at);
    FreezeIsAkin(y.shared, at, y.out, at);
  }

  /** A group does the same with fields that do the same. */
  lemma SameBelow(p: Settings, f: Field, fs: seq<Field>, st: State, out: Mapping, shared: Shared)
    requires GroupLike(f) && Fits(f, out)
    requires Same(Fields(p, f, st, out, shared), Fields(p, f.(fields := fs), st, out, shared))
    ensures Same(ProcessOne(p, f, st, out, shared), ProcessOne(p, f.(fields := fs), st, out, shared))
  {
    RenderSame(p, f, fs, st, out, shared);
    FinishIgnoresFields(p, f, fs, Applied(f, st), Render(p, f, Applied(f, st), out, shared));
  }

  lemma GroupFindsProper(f: Field, out: Mapping)
    requires Proper(Object(out))
    ensures Open(out, KeyOf(f)) && Fits(f, out) && Proper(Object(PropertiesAt(out, Below(f))))
  {
    PutProper(out, Split(f.name), Object(map[]));
    PropertiesProper(out, Split(f.name), map[]);
  }

  lemma {:induction false} JoinMeansTheSame(
    p: Settings, a: seq<Field>, b: seq<Field>, st: State, out: Mapping, shared: Shared)
    requires Proper(Object(out)) && Sound(a) && Sound(b)
    ensures Same(Process(p, JoinLists(a, b), st, out, shared), Process(p, a + b, st, out, shared))
    decreases a, 1
  {
    if !(a == [] || b == [] || !Alike(a[|a| - 1], b[0])) {
      var init, f, g, tail := a[..|a| - 1], a[|a| - 1], b[0], b[1..];
      var r := Process(p, init, st, out, shared);
      SoundAtSeam(a, b);
      ProcessProper(p, init, st, out, shared);
      if r.error.None? {
        SoundOne(f);
        SoundOne(g);
        JoinedGroups(p, f, g, st, r.out, r.shared);
      }
      SameInside(p, init, [f.(fields := JoinLists(f.fields, g.fields))], [f, g], tail, st, out, shared);
      AtSeam(a, b);
    }
  }

  lemma JoinedGroups(p: Settings, f: Field, g: Field, st: State, out: Mapping, shared: Shared)
    requires Alike(f, g) && Proper(Object(out)) && Sound(f.fields) && Sound(g.fields)
    ensures Same(Process(p, [f.(fields := JoinLists(f.fields, g.fields))], st, out, shared),
                 Process(p, [f, g], st, out, shared))
    decreases f, 0
  {
    var m, joined := Merge(f, g), JoinLists(f.fields, g.fields);
    GroupFindsProper(f, out);
    MergeGroups(p, f, g, st, out, shared);
    JoinMeansTheSame(p, f.fields, g.fields, Inside(f, st), PropertiesAt(out, Below(f)), shared);
    SameBelow(p, m, joined, st, out, shared);
    assert m.(fields := joined) == f.(fields := joined);
    ProcessSingle(p, m, st, out, shared);
    ProcessSingle(p, f.(fields := joined), st, out, shared);
  }

  /** Tidying a list of fields keeps everything it generates. */
  lemma {:induction false} TidiedMeansTheSame(
    p: Settings, fs: seq<Field>, st: State, out: Mapping, shared: Shared)
    requires Proper(Object(out)) && Sound(fs)
    ensures Same(Process(p, Tidied(fs), st, out, shared), Process(p, fs, st, out, shared))
    decreases fs, 1
  {
    if fs != [] {
      var f, rest := fs[0], fs[1..];
      var tidy, more := TidiedOne(f), Tidied(rest);
      assert fs == [f] + rest;
      SoundConcat([f], rest);
      SoundOne(f);
      TidiedSound(f.fields);
      SoundOne(tidy);
      TidiedSound(rest);
      JoinMeansTheSame(p, [tidy], more, st, out, shared);
      TidiedRest(p, tidy, rest, st, out, shared);
      TidiedFirst(p, f, st, out, shared);
      assert [] + [tidy] == [tidy] && [] + [f] == [f];
      SameInside(p, [], [tidy], [f], rest, st, out, shared);
    }
  }

  lemma TidiedRest(p: Settings, f: Field, rest: seq<Field>, st: State, out: Mapping, shared: Shared)
    requires Proper(Object(out)) && Sound([f]) && Sound(rest)
    ensures Same(Process(p, [f] + Tidied(rest), st, out, shared), Process(p, [f] + rest, st, out, shared))
    decreases rest, 2
  {
    var r := Process(p, [f], st, out, shared);
    ProcessProper(p, [f], st, out, shared);
    if r.error.None? {
      TidiedMeansTheSame(p, rest, st, r.out, r.shared);
    }
    assert [f] + Tidied(rest) + [] == [f] + Tidied(rest) && [f] + rest + [] == [f] + rest;
    SameInside(p, [f], Tidied(rest), rest, [], st, out, shared);
  }

  lemma TidiedFirst(p: Settings, f: Field, st: State, out: Mapping, shared: Shared)
    requires Proper(Object(out)) && Sound(f.fields)
    ensures Same(Process(p, [TidiedOne(f)], st, out, shared), Process(p, [f], st, out, shared))
    decreases f, 0
  {
    if GroupLike(f) {
      GroupFindsProper(f, out);
      TidiedMeansTheSame(p, f.fields, Inside(f, st), PropertiesAt(out, Below(f)), shared);
      SameBelow(p, f, Tidied(f.fields), st, out, shared);
      ProcessSingle(p, f, st, out, shared);
      ProcessSingle(p, TidiedOne(f), st, out, shared);
    }
  }

  // ---------- nothing is left to merge ----------

  predicate Tidy(fs: seq<Field>)
    decreases fs
  {
    && (forall i | 0 <= i < |fs| - 1 :: !Alike(fs[i], fs[i + 1]))
    && (forall i | 0 <= i < |fs| :: GroupLike(fs[i]) ==> Tidy(fs[i].fields))
  }

  lemma {:induction false} JoinTidy(a: seq<Field>, b: seq<Field>)
    requires Tidy(a) && Tidy(b)
    ensures Tidy(JoinLists(a, b))
    decreases a
  {
    if !(a == [] || b == [] || !Alike(a[|a| - 1], b[0])) {
      var f, g := a[|a| - 1], b[0];
      JoinTidy(f.fields, g.fields);
      var m := f.(fields := JoinLists(f.fields, g.fields));
      var c := JoinLists(a, b);
      assert forall i | 0 <= i < |c| :: c[i] == if i < |a| - 1 then a[i] else if i == |a| - 1 then m else b[i - |a| + 1];
    }
  }

  lemma {:induction false} TidiedIsTidy(fs: seq<Field>)
    ensures Tidy(Tidied(fs))
    decreases fs
  {
    if fs != [] {
      TidiedIsTidy(fs[1..]);
      TidiedIsTidy(fs[0].fields);
      assert Tidy([TidiedOne(fs[0])]);
      JoinTidy([TidiedOne(fs[0])], Tidied(fs[1..]));
    }
  }
}
