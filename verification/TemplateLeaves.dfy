/**
Which fields come into the output, from the tree of fields alone.  An entry of the output is addressed by the components of
a dotted name; the "properties" in between are left out.
*/
module TemplateLeaves {
  import opened Names
  import opened Options
  import opened Templates
  import opened TemplateMerging
  import opened TemplateTidying
  import opened TemplateSharing
  import opened TemplateIndependence

  // ---------- entries of an output ----------

  function Entry(m: Mapping, parts: Path): Option<Value>
    requires parts != []
  {
    Get(m, KeyPath(parts))
  }

  /** The properties that an entry has. */
  function Props(v: Option<Value>): Mapping {
    if v.Some? && v.value.Object? && PROPERTIES in v.value.members && v.value.members[PROPERTIES].Object?
    then v.value.members[PROPERTIES].members
    else map[]
  }

  lemma EntryFirst(m: Mapping, parts: Path)
    requires Proper(Object(m)) && parts != []
    ensures |parts| == 1 ==> Entry(m, parts) == if parts[0] in m then Some(m[parts[0]]) else None
    ensures |parts| > 1 ==> Entry(m, parts) == Entry(PropertiesOf(m, parts[0]), parts[1..])
  {
    if |parts| > 1 {
      PutNext(m, parts[0], KeyPath(parts[1..]), Object(map[]));
    }
  }

  lemma PutOne(m: Mapping, k: string, e: Value, parts: Path)
    requires Proper(Object(m)) && ProperEntry(e) && parts != []
    ensures var n := m[k := e];
            && Proper(Object(n))
            && (parts == [k] ==> Entry(n, parts) == Some(e))
            && ([k] < parts ==> Entry(n, parts) == Entry(Props(Some(e)), parts[1..]))
            && (parts[0] != k ==> Entry(n, parts) == Entry(m, parts))
  {
    ProperUpdate(m, k, e);
    EntryFirst(m[k := e], parts);
    EntryFirst(m, parts);
  }

  /** What putting an entry in place does to every entry. */
  lemma {:induction false} PutEntry(m: Mapping, c: Path, e: Value, parts: Path)
    requires Proper(Object(m)) && ProperEntry(e) && c != [] && parts != []
    ensures var n := Put(m, KeyPath(c), e);
            && (parts == c ==> Entry(n, parts) == Some(e))
            && (c < parts ==> Entry(n, parts) == Entry(Props(Some(e)), parts[|c|..]))
            && (parts < c ==> Entry(n, parts).Some?)
            && (!(c <= parts) && !(parts <= c) ==> Entry(n, parts) == Entry(m, parts))
    decreases |c|
  {
    var k, rest := c[0], c[1..];
    if |c| == 1 {
      assert c == [k];
      PutOne(m, k, e, parts);
    } else {
      var below := PropertiesOf(m, k);
      var entry := if k in m then m[k].members else map[];
      ProperProperties(m, k);
      PutNext(m, k, KeyPath(rest), e);
      PutProper(below, rest, e);
      var inner := Put(below, KeyPath(rest), e);
      PutOne(m, k, Object(entry[PROPERTIES := Object(inner)]), parts);
      EntryFirst(m, parts);
      if parts[0] == k && |parts| > 1 {
        PutEntry(below, rest, e, parts[1..]);
        PrefixTails(c, parts);
      } else {
        PrefixHeads(c, parts);
      }
    }
  }

  lemma PrefixTails(c: Path, parts: Path)
    requires |c| > 1 && |parts| > 1 && c[0] == parts[0]
    ensures c <= parts <==> c[1..] <= parts[1..]
    ensures parts <= c <==> parts[1..] <= c[1..]
    ensures c == parts <==> c[1..] == parts[1..]
    ensures |c| <= |parts| ==> parts[1..][|c[1..]|..] == parts[|c|..]
  {
    assert c == [c[0]] + c[1..] && parts == [parts[0]] + parts[1..];
  }

  lemma PrefixHeads(c: Path, parts: Path)
    requires |c| > 1 && parts != [] && (c[0] != parts[0] || |parts| == 1)
    ensures !(c <= parts)
    ensures parts <= c <==> parts == [c[0]]
  {
    if parts == [c[0]] {
      assert c == [c[0]] + c[1..];
    }
  }

  /** An entry further down is an entry of the properties. */
  lemma {:induction false} EntryBelow(m: Mapping, c: Path, d: Path)
    requires Proper(Object(m)) && c != [] && d != []
    ensures Entry(m, c + d) == Entry(Props(Entry(m, c)), d)
    decreases |c|
  {
    EntryFirst(m, c + d);
    EntryFirst(m, c);
    if |c| == 1 {
      assert (c + d)[1..] == d;
    } else {
      assert (c + d)[1..] == c[1..] + d;
      ProperProperties(m, c[0]);
      EntryBelow(PropertiesOf(m, c[0]), c[1..], d);
    }
  }

  lemma FoundAtEntry(f: Field, out: Mapping)
    requires Proper(Object(out))
    ensures PropertiesAt(out, Below(f)) == Props(Entry(out, Split(f.name)))
    ensures Get(out, Below(f)).Some? ==> Entry(out, Split(f.name)).Some? && Entry(out, Split(f.name)).value.Object?
  {
    GetThrough(out, KeyOf(f), [PROPERTIES]);
    GroupFindsProper(f, out);
  }

  lemma {:induction false} PutInEntry(m: Mapping, path: Path, q: string, v: Value)
    requires path != [] && Get(m, path).Some? && Get(m, path).value.Object?
    ensures Put(m, path + [q], v) == Put(m, path, Object(Get(m, path).value.members[q := v]))
    decreases |path|
  {
    var long := path + [q];
    assert long[0] == path[0];
    if |path| == 1 {
      assert long[1..] == [q];
    } else {
      assert long[1..] == path[1..] + [q];
      PutInEntry(m[path[0]].members, path[1..], q, v);
    }
  }

  lemma {:induction false} EntryIsProper(m: Mapping, parts: Path)
    requires Proper(Object(m)) && parts != [] && Entry(m, parts).Some?
    ensures ProperEntry(Entry(m, parts).value)
    decreases |parts|
  {
    EntryFirst(m, parts);
    if |parts| == 1 {
      ProperMember(m, parts[0]);
    } else {
      ProperProperties(m, parts[0]);
      EntryIsProper(PropertiesOf(m, parts[0]), parts[1..]);
    }
  }

  /** What stands above an entry is there too. */
  lemma PrefixIsThere(m: Mapping, parts: Path, longer: Path)
    requires Proper(Object(m)) && parts != [] && parts <= longer && Entry(m, longer).Some?
    ensures Entry(m, parts).Some?
  {
    if parts != longer {
      var d := longer[|parts|..];
      assert longer == parts + d;
      EntryBelow(m, parts, d);
      NothingInEmpty(d);
    }
  }

  lemma NothingInEmpty(d: Path)
    requires d != []
    ensures Entry(map[], d).None?
  {
  }

  // ---------- which fields do what ----------

  /** The leaf has a mapping: migration aliases need the migration, histograms a version that knows them. */
  predicate Shows(p: Settings, f: Field) {
    match f.kind
    case Group => false
    case Nested => false
    case Alias => f.scalars != map[] && (p.migration || !f.migrationAlias)
    case Histogram => f.scalars != map[] && p.histograms
    case _ => f.scalars != map[] || (HasMultiFields(f) && f.multiFields != [])
  }

  /** The leaf puts its mapping into the output. */
  predicate Lands(p: Settings, f: Field) {
    Shows(p, f) && !f.dynamicTemplate
  }

  /** A leaf takes the place of something above the entry. */
  predicate Covers(p: Settings, fs: seq<Field>, parts: Path)
    decreases fs, 1
  {
    fs != [] && (CoversOne(p, fs[0], parts) || Covers(p, fs[1..], parts))
  }

  predicate CoversOne(p: Settings, f: Field, parts: Path)
    decreases f, 0
  {
    f.name != "" &&
    var c := Split(f.name);
    c < parts && if Grouping(f) then Covers(p, f.fields, parts[|c|..]) else Lands(p, f)
  }

  /** Some field is about the entry, about something above it or about something below it. */
  predicate Touches(p: Settings, fs: seq<Field>, parts: Path)
    decreases fs, 1
  {
    fs != [] && (TouchesOne(p, fs[0], parts) || Touches(p, fs[1..], parts))
  }

  predicate TouchesOne(p: Settings, f: Field, parts: Path)
    decreases f, 0
  {
    f.name != "" &&
    var c := Split(f.name);
    if Grouping(f) then parts <= c || (c < parts && Touches(p, f.fields, parts[|c|..]))
    else Lands(p, f) && (c <= parts || parts <= c)
  }

  predicate HasSettings(f: Field) {
    f.dynamic.Some? || f.kind == Nested
  }

  /** Some field brings the entry: a leaf at or below it, or a group there that has settings or brings something. */
  ghost predicate Brings(p: Settings, fs: seq<Field>, parts: Path)
    decreases fs, 1
  {
    fs != [] && (BringsOne(p, fs[0], parts) || Brings(p, fs[1..], parts))
  }

  ghost predicate BringsOne(p: Settings, f: Field, parts: Path)
    decreases f, 0
  {
    f.name != "" &&
    var c := Split(f.name);
    if !Grouping(f) then Lands(p, f) && parts <= c
    else if c < parts then Brings(p, f.fields, parts[|c|..])
    else parts <= c && !f.dynamicTemplate && (HasSettings(f) || exists d :: d != [] && Brings(p, f.fields, d))
  }

  /** Some field brings the entry, and no later leaf covers it. */
  ghost predicate Shown(p: Settings, fs: seq<Field>, parts: Path)
    decreases fs, 1
  {
    fs != [] && ((ShownOne(p, fs[0], parts) && !Covers(p, fs[1..], parts)) || Shown(p, fs[1..], parts))
  }

  ghost predicate ShownOne(p: Settings, f: Field, parts: Path)
    decreases f, 0
  {
    f.name != "" &&
    var c := Split(f.name);
    if !Grouping(f) then Lands(p, f) && parts <= c
    else if f.dynamicTemplate then false
    else if c < parts then Shown(p, f.fields, parts[|c|..])
    else parts <= c && (HasSettings(f) || exists d :: d != [] && Shown(p, f.fields, d))
  }

  /** The leaf `f` is the last field that is about the entry. */
  predicate ShownAs(p: Settings, fs: seq<Field>, parts: Path, f: Field)
    decreases fs, 1
  {
    fs != [] && ((ShownAsOne(p, fs[0], parts, f) && !Touches(p, fs[1..], parts)) || ShownAs(p, fs[1..], parts, f))
  }

  predicate ShownAsOne(p: Settings, g: Field, parts: Path, f: Field)
    decreases g, 0
  {
    g.name != "" &&
    var c := Split(g.name);
    if !Grouping(g) then g == f && Lands(p, g) && parts == c
    else !g.dynamicTemplate && c < parts && ShownAs(p, g.fields, parts[|c|..], f)
  }

  /** The settings of the leaf, and its multi-fields if it has any. */
  predicate IsMappingOf(v: Value, f: Field) {
    && v.Object? && v.members - {"fields"} == f.scalars - {"fields"}
    && ("fields" in v.members <==> "fields" in f.scalars || (HasMultiFields(f) && f.multiFields != []))
  }

  // ---------- one leaf ----------

  lemma LeafRendered(p: Settings, f: Field, st: State, out: Mapping, shared: Shared)
    requires !Grouping(f)
    ensures var r := Render(p, f, st, out, shared);
            && r.after.out == out && r.after.error.None?
            && (r.mapping != map[] <==> Shows(p, f))
            && (Shows(p, f) ==> IsMappingOf(Object(r.mapping), f))
            && (PROPERTIES !in f.scalars ==> PROPERTIES !in r.mapping)
  {
    if HasMultiFields(f) {
      var bare := f.kind == MatchOnlyText && p.matchOnlyText;
      assert Render(p, f, st, out, shared) == Multi(p, f, st, bare, out, shared);
      MultiRendered(p, f, st, bare, out, shared);
    }
  }

  lemma MultiRendered(p: Settings, f: Field, st: State, bare: bool, out: Mapping, shared: Shared)
    requires HasMultiFields(f)
    ensures var r := Multi(p, f, st, bare, out, shared);
            && r.after.out == out && r.after.error.None?
            && (r.mapping != map[] <==> f.scalars != map[] || f.multiFields != [])
            && IsMappingOf(Object(r.mapping), f)
            && (PROPERTIES !in f.scalars ==> PROPERTIES !in r.mapping)
            && (f.multiFields != [] ==>
                  r.mapping["fields"] == Object(Process(p, f.multiFields, MultiState(f, st, bare), map[], shared).out))
  {
    var r := Multi(p, f, st, bare, out, shared);
    if f.multiFields != [] {
      assert "fields" in r.mapping;
      assert "fields" != PROPERTIES;
    }
  }

  /** A leaf that lands puts its mapping at its name; any other leaves the output alone. */
  lemma LeafPlaced(p: Settings, f: Field, st: State, out: Mapping, shared: Shared) returns (e: Value)
    requires !Grouping(f) && f.name != ""
    ensures var o := ProcessOne(p, f, st, out, shared);
            && o.out == (if Lands(p, f) then Put(out, KeyOf(f), e) else out)
            && (Lands(p, f) ==> IsMappingOf(e, f))
            && (Lands(p, f) && PROPERTIES !in f.scalars ==> PROPERTIES !in e.members)
  {
    var inner := Applied(f, st);
    var r := Render(p, f, inner, out, shared);
    LeafRendered(p, f, inner, out, shared);
    FinishIsPlacing(p, f, inner, r);
    e := Object(r.mapping);
  }

  /** A leaf that is an explicit template is recorded under its name if that is supported, and stays out of the output. */
  lemma LeafRecorded(p: Settings, f: Field, st: State, out: Mapping, shared: Shared) returns (m: Mapping)
    requires !Grouping(f) && f.name != "" && f.dynamicTemplate && Shows(p, f)
    ensures var o := ProcessOne(p, f, st, out, shared);
            var ts := Render(p, f, Applied(f, st), out, shared).after.shared.templates;
            && o.out == out && IsMappingOf(Object(m), f)
            && o.shared.templates == if p.explicitTemplates then AddOne(ts, Template(f.name, "", "", m, None)) else ts
  {
    var inner := Applied(f, st);
    var r := Render(p, f, inner, out, shared);
    LeafRendered(p, f, inner, out, shared);
    LeafCases(p, f, inner, out, shared);
    FinishIsPlacing(p, f, inner, r);
    m := r.mapping;
  }

  // ---------- one group ----------

  /**
  A group leaves the output alone, or puts an entry with the new properties at its name: its own mapping, or the entry that
  was there with its properties changed.
  */
  lemma GroupPlaced(p: Settings, f: Field, st: State, out: Mapping, shared: Shared) returns (m: Option<Mapping>)
    requires GroupLike(f) && Proper(Object(out)) && Sound(f.fields)
    ensures var r, o := Fields(p, f, st, out, shared), ProcessOne(p, f, st, out, shared);
            && o.error == r.error
            && o.out == (if m.None? then out else Put(out, KeyOf(f), Object(m.value)))
            && (m.Some? ==> ProperEntry(Object(m.value)) && Props(Some(Object(m.value))) == r.out)
            && (m.Some? ==>
                  || Entry(out, Split(f.name)).Some?
                  || (!f.dynamicTemplate && m.value == Whole(f, r.out) && m.value != map[]))
            && (r.error.None? && !f.dynamicTemplate ==>
                  if m.Some? then m.value == Whole(f, r.out) else Whole(f, r.out) == map[])
  {
    var r := Fields(p, f, st, out, shared);
    GroupFindsProper(f, out);
    ProcessProper(p, f.fields, Inside(f, st), PropertiesAt(out, Below(f)), shared);
    if r.error.None? && !f.dynamicTemplate {
      GroupStep(p, f, st, out, shared);
      WholeProper(f, r.out);
      EmptyWhole(f, r.out);
      m := if Whole(f, r.out) == map[] then None else Some(Whole(f, r.out));
    } else {
      GroupUnplaced(p, f, st, out, shared);
      m := None;
      if Get(out, Below(f)).Some? {
        FoundAtEntry(f, out);
        EntryIsProper(out, Split(f.name));
        PutInEntry(out, KeyOf(f), PROPERTIES, Object(r.out));
        m := Some(Entry(out, Split(f.name)).value.members[PROPERTIES := Object(r.out)]);
      }
    }
  }

  lemma GroupUnplaced(p: Settings, f: Field, st: State, out: Mapping, shared: Shared)
    requires GroupLike(f) && Fits(f, out)
    requires var r := Fields(p, f, st, out, shared); r.error.Some? || f.dynamicTemplate
    ensures var r, o := Fields(p, f, st, out, shared), ProcessOne(p, f, st, out, shared);
            o.error == r.error && o.out == Changed(f, out, r.out)
  {
    GroupRendered(p, f, st, out, shared);
    var rendered := Render(p, f, Applied(f, st), out, shared);
    if rendered.after.error.None? { FinishIsPlacing(p, f, Applied(f, st), rendered); }
  }

  // ---------- what stays ----------

  /** An entry stays unless a leaf takes the place of something above it. */
  lemma {:induction false} EntriesStay(
    p: Settings, fs: seq<Field>, st: State, out: Mapping, shared: Shared, parts: Path)
    requires Proper(Object(out)) && Sound(fs) && parts != [] && Entry(out, parts).Some? && !Covers(p, fs, parts)
    ensures Entry(Process(p, fs, st, out, shared).out, parts).Some?
    decreases fs, 2
  {
    if fs != [] {
      EntryStays(p, fs[0], st, out, shared, parts);
      var r := ProcessOne(p, fs[0], st, out, shared);
      if r.error.None? {
        ProcessOneProper(p, fs[0], st, out, shared);
        EntriesStay(p, fs[1..], st, r.out, r.shared, parts);
      }
    }
  }

  lemma EntryStays(p: Settings, f: Field, st: State, out: Mapping, shared: Shared, parts: Path)
    requires Proper(Object(out)) && PROPERTIES !in f.scalars && Sound(f.fields) && parts != []
    requires Entry(out, parts).Some? && !CoversOne(p, f, parts)
    ensures Entry(ProcessOne(p, f, st, out, shared).out, parts).Some?
    decreases f, 1
  {
    if f.name != "" {
      var c := Split(f.name);
      if Grouping(f) {
        var m := GroupPlaced(p, f, st, out, shared);
        if m.Some? {
          PutEntry(out, c, Object(m.value), parts);
          if c < parts { InsideStays(p, f, st, out, shared, parts); }
        }
      } else {
        var e := LeafPlaced(p, f, st, out, shared);
        if Lands(p, f) { PutEntry(out, c, e, parts); }
      }
    }
  }

  lemma InsideStays(p: Settings, f: Field, st: State, out: Mapping, shared: Shared, parts: Path)
    requires Proper(Object(out)) && Sound(f.fields) && GroupLike(f) && Split(f.name) < parts
    requires Entry(out, parts).Some? && !CoversOne(p, f, parts)
    ensures Entry(Fields(p, f, st, out, shared).out, parts[|Split(f.name)|..]).Some?
    decreases f, 0
  {
    var c := Split(f.name);
    var d := parts[|c|..];
    assert parts == c + d;
    EntryBelow(out, c, d);
    FoundAtEntry(f, out);
    GroupFindsProper(f, out);
    EntriesStay(p, f.fields, Inside(f, st), PropertiesAt(out, Below(f)), shared, d);
  }

  /** An entry that no field is about is as before. */
  lemma {:induction false} UntouchedStays(
    p: Settings, fs: seq<Field>, st: State, out: Mapping, shared: Shared, parts: Path)
    requires Proper(Object(out)) && Sound(fs) && parts != [] && !Touches(p, fs, parts)
    ensures Entry(Process(p, fs, st, out, shared).out, parts) == Entry(out, parts)
    decreases fs, 2
  {
    if fs != [] {
      UntouchedByOne(p, fs[0], st, out, shared, parts);
      var r := ProcessOne(p, fs[0], st, out, shared);
      if r.error.None? {
        ProcessOneProper(p, fs[0], st, out, shared);
        UntouchedStays(p, fs[1..], st, r.out, r.shared, parts);
      }
    }
  }

  lemma UntouchedByOne(p: Settings, f: Field, st: State, out: Mapping, shared: Shared, parts: Path)
    requires Proper(Object(out)) && PROPERTIES !in f.scalars && Sound(f.fields) && parts != []
    requires !TouchesOne(p, f, parts)
    ensures Entry(ProcessOne(p, f, st, out, shared).out, parts) == Entry(out, parts)
    decreases f, 1
  {
    if f.name != "" {
      var c := Split(f.name);
      if Grouping(f) {
        var m := GroupPlaced(p, f, st, out, shared);
        if m.Some? {
          PutEntry(out, c, Object(m.value), parts);
          if c < parts { InsideUntouched(p, f, st, out, shared, parts); }
        }
      } else {
        var e := LeafPlaced(p, f, st, out, shared);
        if Lands(p, f) { PutEntry(out, c, e, parts); }
      }
    }
  }

  lemma InsideUntouched(p: Settings, f: Field, st: State, out: Mapping, shared: Shared, parts: Path)
    requires Proper(Object(out)) && Sound(f.fields) && GroupLike(f) && Split(f.name) < parts
    requires !TouchesOne(p, f, parts)
    ensures Entry(Fields(p, f, st, out, shared).out, parts[|Split(f.name)|..]) == Entry(out, parts)
    decreases f, 0
  {
    var c := Split(f.name);
    var d := parts[|c|..];
    assert parts == c + d;
    EntryBelow(out, c, d);
    FoundAtEntry(f, out);
    GroupFindsProper(f, out);
    UntouchedStays(p, f.fields, Inside(f, st), PropertiesAt(out, Below(f)), shared, d);
  }

  // ---------- what comes ----------

  /** What is shown by the fields is in the output. */
  lemma {:induction false} ShownIsThere(
    p: Settings, fs: seq<Field>, st: State, out: Mapping, shared: Shared, parts: Path)
    requires Proper(Object(out)) && Sound(fs) && parts != [] && Shown(p, fs, parts)
    requires Process(p, fs, st, out, shared).error.None?
    ensures Entry(Process(p, fs, st, out, shared).out, parts).Some?
    decreases fs, 2
  {
    var r := ProcessOne(p, fs[0], st, out, shared);
    ProcessOneProper(p, fs[0], st, out, shared);
    if Shown(p, fs[1..], parts) {
      ShownIsThere(p, fs[1..], st, r.out, r.shared, parts);
    } else {
      ShownByOne(p, fs[0], st, out, shared, parts);
      EntriesStay(p, fs[1..], st, r.out, r.shared, parts);
    }
  }

  lemma ShownByOne(p: Settings, f: Field, st: State, out: Mapping, shared: Shared, parts: Path)
    requires Proper(Object(out)) && PROPERTIES !in f.scalars && Sound(f.fields) && parts != []
    requires ShownOne(p, f, parts) && ProcessOne(p, f, st, out, shared).error.None?
    ensures Entry(ProcessOne(p, f, st, out, shared).out, parts).Some?
    decreases f, 1
  {
    var c := Split(f.name);
    if Grouping(f) {
      var m := GroupPlaced(p, f, st, out, shared);
      if c < parts {
        ShownInside(p, f, st, out, shared, parts[|c|..]);
      } else if !HasSettings(f) {
        var d :| d != [] && Shown(p, f.fields, d);
        ShownInside(p, f, st, out, shared, d);
      }
      EmptyWhole(f, Fields(p, f, st, out, shared).out);
      SettingsShow(f, Fields(p, f, st, out, shared).out);
      PutEntry(out, c, Object(m.value), parts);
    } else {
      var e := LeafPlaced(p, f, st, out, shared);
      PutEntry(out, c, e, parts);
    }
  }

  lemma SettingsShow(f: Field, properties: Mapping)
    requires Grouping(f)
    ensures Whole(f, properties) != map[] <==> HasSettings(f) || properties != map[]
  {
    EmptyWhole(f, properties);
    if f.kind == Nested {
      assert "type" in Whole(f, properties);
    } else if f.dynamic.Some? {
      assert "dynamic" in Whole(f, properties);
    }
  }

  lemma ShownInside(p: Settings, f: Field, st: State, out: Mapping, shared: Shared, d: Path)
    requires Proper(Object(out)) && Sound(f.fields) && GroupLike(f) && d != [] && Shown(p, f.fields, d)
    requires Fields(p, f, st, out, shared).error.None?
    ensures Entry(Fields(p, f, st, out, shared).out, d).Some? && Fields(p, f, st, out, shared).out != map[]
    decreases f, 0
  {
    GroupFindsProper(f, out);
    ShownIsThere(p, f.fields, Inside(f, st), PropertiesAt(out, Below(f)), shared, d);
    NothingInEmpty(d);
  }

  /** The last leaf that is about an entry is what stands there. */
  lemma {:induction false} ShownAsItIs(
    p: Settings, fs: seq<Field>, st: State, out: Mapping, shared: Shared, parts: Path, f: Field)
    requires Proper(Object(out)) && Sound(fs) && parts != [] && ShownAs(p, fs, parts, f)
    requires Process(p, fs, st, out, shared).error.None?
    ensures var e := Entry(Process(p, fs, st, out, shared).out, parts); e.Some? && IsMappingOf(e.value, f)
    decreases fs, 2
  {
    var r := ProcessOne(p, fs[0], st, out, shared);
    ProcessOneProper(p, fs[0], st, out, shared);
    if ShownAs(p, fs[1..], parts, f) {
      ShownAsItIs(p, fs[1..], st, r.out, r.shared, parts, f);
    } else {
      ShownAsByOne(p, fs[0], st, out, shared, parts, f);
      UntouchedStays(p, fs[1..], st, r.out, r.shared, parts);
    }
  }

  lemma ShownAsByOne(p: Settings, g: Field, st: State, out: Mapping, shared: Shared, parts: Path, f: Field)
    requires Proper(Object(out)) && PROPERTIES !in g.scalars && Sound(g.fields) && parts != []
    requires ShownAsOne(p, g, parts, f) && ProcessOne(p, g, st, out, shared).error.None?
    ensures var e := Entry(ProcessOne(p, g, st, out, shared).out, parts); e.Some? && IsMappingOf(e.value, f)
    decreases g, 1
  {
    var c := Split(g.name);
    if Grouping(g) {
      var m := GroupPlaced(p, g, st, out, shared);
      var d := parts[|c|..];
      GroupFindsProper(g, out);
      ShownAsItIs(p, g.fields, Inside(g, st), PropertiesAt(out, Below(g)), shared, d, f);
      NothingInEmpty(d);
      EmptyWhole(g, Fields(p, g, st, out, shared).out);
      PutEntry(out, c, Object(m.value), parts);
    } else {
      var e := LeafPlaced(p, g, st, out, shared);
      PutEntry(out, c, e, parts);
    }
  }

  // ---------- what does not come ----------

  /** Whatever is in the output was there before or is brought by some field. */
  lemma {:induction false} OnlyWhatIsBrought(
    p: Settings, fs: seq<Field>, st: State, out: Mapping, shared: Shared, parts: Path)
    requires Proper(Object(out)) && Sound(fs) && parts != []
    requires Entry(Process(p, fs, st, out, shared).out, parts).Some?
    ensures Entry(out, parts).Some? || Brings(p, fs, parts)
    decreases fs, 2
  {
    if fs != [] {
      var r := ProcessOne(p, fs[0], st, out, shared);
      ProcessOneProper(p, fs[0], st, out, shared);
      if r.error.None? {
        OnlyWhatIsBrought(p, fs[1..], st, r.out, r.shared, parts);
      }
      if Entry(r.out, parts).Some? {
        OnlyWhatOneBrings(p, fs[0], st, out, shared, parts);
      }
    }
  }

  lemma OnlyWhatOneBrings(p: Settings, f: Field, st: State, out: Mapping, shared: Shared, parts: Path)
    requires Proper(Object(out)) && PROPERTIES !in f.scalars && Sound(f.fields) && parts != []
    requires Entry(ProcessOne(p, f, st, out, shared).out, parts).Some?
    ensures Entry(out, parts).Some? || BringsOne(p, f, parts)
    decreases f, 1
  {
    if f.name != "" {
      var c := Split(f.name);
      if Grouping(f) {
        var m := GroupPlaced(p, f, st, out, shared);
        if m.Some? {
          PutEntry(out, c, Object(m.value), parts);
          if c < parts {
            BroughtInside(p, f, st, out, shared, parts[|c|..]);
            assert parts == c + parts[|c|..];
            EntryBelow(out, c, parts[|c|..]);
            FoundAtEntry(f, out);
          } else if parts <= c {
            BroughtAtGroup(p, f, st, out, shared, m.value, parts);
          }
        }
      } else {
        var e := LeafPlaced(p, f, st, out, shared);
        if Lands(p, f) {
          PutEntry(out, c, e, parts);
          if c < parts { NothingInEmpty(parts[|c|..]); }
        }
      }
    }
  }

  lemma BroughtInside(p: Settings, f: Field, st: State, out: Mapping, shared: Shared, d: Path)
    requires Proper(Object(out)) && Sound(f.fields) && GroupLike(f) && d != []
    requires Entry(Fields(p, f, st, out, shared).out, d).Some?
    ensures Entry(PropertiesAt(out, Below(f)), d).Some? || Brings(p, f.fields, d)
    decreases f, 0, 0
  {
    GroupFindsProper(f, out);
    OnlyWhatIsBrought(p, f.fields, Inside(f, st), PropertiesAt(out, Below(f)), shared, d);
  }

  lemma BroughtAtGroup(
    p: Settings, f: Field, st: State, out: Mapping, shared: Shared, m: Mapping, parts: Path)
    requires Proper(Object(out)) && Sound(f.fields) && GroupLike(f) && parts != [] && parts <= Split(f.name)
    requires Entry(out, Split(f.name)).Some? ||
             (!f.dynamicTemplate && m == Whole(f, Fields(p, f, st, out, shared).out) && m != map[])
    ensures Entry(out, parts).Some? || BringsOne(p, f, parts)
    decreases f, 0, 1
  {
    var c, r := Split(f.name), Fields(p, f, st, out, shared);
    if Entry(out, c).Some? {
      PrefixIsThere(out, parts, c);
    } else {
      SettingsShow(f, r.out);
      if !HasSettings(f) {
        var k :| k in r.out;
        BroughtInside(p, f, st, out, shared, [k]);
        FoundAtEntry(f, out);
        NothingInEmpty([k]);
      }
    }
  }

  // ---------- exactly what comes ----------

  /** A leaf that covers something brings something. */
  lemma {:induction false} CoveringBrings(p: Settings, fs: seq<Field>, parts: Path)
    requires Covers(p, fs, parts)
    ensures exists d :: d != [] && Brings(p, fs, d)
    decreases fs
  {
    var f, c := fs[0], Split(fs[0].name);
    if CoversOne(p, f, parts) {
      if Grouping(f) {
        CoveringBrings(p, f.fields, parts[|c|..]);
        var d :| d != [] && Brings(p, f.fields, d);
        assert (c + d)[|c|..] == d;
        assert BringsOne(p, f, c + d);
        assert Brings(p, fs, c + d);
      } else {
        assert BringsOne(p, f, c);
        assert Brings(p, fs, c);
      }
    } else {
      CoveringBrings(p, fs[1..], parts);
      var d :| d != [] && Brings(p, fs[1..], d);
      assert Brings(p, fs, d);
    }
  }

  /** Fields that bring anything show something: whatever comes last. */
  lemma {:induction false} SomethingShown(p: Settings, fs: seq<Field>, parts: Path)
    requires parts != [] && Brings(p, fs, parts) && NoExplicitGroups(fs)
    ensures exists d :: d != [] && Shown(p, fs, d)
    decreases fs
  {
    if d :| d != [] && Brings(p, fs[1..], d) {
      SomethingShown(p, fs[1..], d);
      var e :| e != [] && Shown(p, fs[1..], e);
      assert Shown(p, fs, e);
    } else {
      var f, c := fs[0], Split(fs[0].name);
      assert BringsOne(p, f, parts);
      if Grouping(f) && (c < parts || !HasSettings(f)) {
        var d := if c < parts then parts[|c|..] else var d :| d != [] && Brings(p, f.fields, d); d;
        SomethingShown(p, f.fields, d);
      }
      assert ShownOne(p, f, c);
      if Covers(p, fs[1..], c) { CoveringBrings(p, fs[1..], c); }
      assert Shown(p, fs, c);
    }
  }

  /** What is brought and not covered is shown. */
  lemma {:induction false} UncoveredIsShown(p: Settings, fs: seq<Field>, parts: Path)
    requires parts != [] && Brings(p, fs, parts) && !Covers(p, fs, parts) && NoExplicitGroups(fs)
    ensures Shown(p, fs, parts)
    decreases fs
  {
    var f, c := fs[0], Split(fs[0].name);
    if Brings(p, fs[1..], parts) {
      UncoveredIsShown(p, fs[1..], parts);
    } else {
      assert BringsOne(p, f, parts);
      if Grouping(f) && c < parts {
        UncoveredIsShown(p, f.fields, parts[|c|..]);
      } else if Grouping(f) && !HasSettings(f) {
        var d :| d != [] && Brings(p, f.fields, d);
        SomethingShown(p, f.fields, d);
      }
    }
  }

  /**
  An entry that no leaf covers is in the output if and only if it was there before or some field brings it: a leaf that
  is not left out for the migration or for the version, or a group with settings or with something inside.
  */
  lemma InOutputIff(p: Settings, fs: seq<Field>, st: State, out: Mapping, shared: Shared, parts: Path)
    requires Proper(Object(out)) && Sound(fs) && NoExplicitGroups(fs) && parts != [] && !Covers(p, fs, parts)
    requires Process(p, fs, st, out, shared).error.None?
    ensures Entry(Process(p, fs, st, out, shared).out, parts).Some? <==> Entry(out, parts).Some? || Brings(p, fs, parts)
  {
    if Entry(Process(p, fs, st, out, shared).out, parts).Some? {
      OnlyWhatIsBrought(p, fs, st, out, shared, parts);
    }
    if Entry(out, parts).Some? {
      EntriesStay(p, fs, st, out, shared, parts);
    } else if Brings(p, fs, parts) {
      UncoveredIsShown(p, fs, parts);
      ShownIsThere(p, fs, st, out, shared, parts);
    }
  }

  // ---------- the entry of a group ----------

  /** The entry of a group tells what is set for it, whether it is nested, and has the new properties. */
  lemma GroupEntry(p: Settings, f: Field, st: State, out: Mapping, shared: Shared)
    requires IsGroup(f) && Proper(Object(out)) && Sound(f.fields)
    requires ProcessOne(p, f, st, out, shared).error.None?
    requires HasSettings(f) || Fields(p, f, st, out, shared).out != map[]
    ensures var e := Entry(ProcessOne(p, f, st, out, shared).out, Split(f.name));
            && e.Some? && e.value.Object?
            && Member(e.value.members, "dynamic") == (if f.dynamic.Some? then Some(Scalar(f.dynamic.value)) else None)
            && Member(e.value.members, "type") == (if f.kind == Nested then Some(Scalar("nested")) else None)
            && Props(e) == Fields(p, f, st, out, shared).out
            && e.value.members.Keys <= {"dynamic", "type", PROPERTIES}
  {
    var m := GroupPlaced(p, f, st, out, shared);
    var properties := Fields(p, f, st, out, shared).out;
    SettingsShow(f, properties);
    PutEntry(out, Split(f.name), Object(m.value), Split(f.name));
    EmptyWhole(f, properties);
    WholeMembers(f, properties);
  }

  function Member(m: Mapping, key: string): Option<Value> {
    if key in m then Some(m[key]) else None
  }

  lemma WholeMembers(f: Field, properties: Mapping)
    requires Grouping(f)
    ensures var m := Whole(f, properties);
            && Member(m, "dynamic") == (if f.dynamic.Some? then Some(Scalar(f.dynamic.value)) else None)
            && Member(m, "type") == (if f.kind == Nested then Some(Scalar("nested")) else None)
            && m.Keys <= {"dynamic", "type", PROPERTIES}
  {
    assert |"dynamic"| != |"type"| && |"type"| != |PROPERTIES| && |"dynamic"| != |PROPERTIES|;
  }
}
