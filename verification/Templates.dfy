/**
Index templates from field definitions.  Processing a list of fields extends an output tree, and beside it collects
analyzers, dynamic templates and default fields.  The scalar settings of a leaf are taken as already rendered.

Maps are values here, but one kind of sharing between maps shows: a dynamic template made from a group whose properties
stand in the output holds that very map, and so changes with the output.  Such a template has a `home`, the place of the
map, and is read there.  When the map leaves the output for good the template keeps what the map holds by then.
*/
module Templates {
  import opened Names
  import opened Options

  // ---------- output trees ----------

  datatype Value = Scalar(text: string) | Object(members: Mapping)

  type Mapping = map<string, Value>

  type Path = seq<string>

  const PROPERTIES: string := "properties"

  function Get(m: Mapping, path: Path): Option<Value>
    requires path != []
    decreases |path|
  {
    if path[0] !in m then None
    else if |path| == 1 then Some(m[path[0]])
    else if m[path[0]].Scalar? then None
    else Get(m[path[0]].members, path[1..])
  }

  /** Missing objects on the way are created; a scalar on the way makes the write fail, which nobody notices. */
  function Put(m: Mapping, path: Path, v: Value): Mapping
    requires path != []
    decreases |path|
  {
    if |path| == 1 then m[path[0] := v]
    else if path[0] !in m then m[path[0] := Object(Put(map[], path[1..], v))]
    else if m[path[0]].Scalar? then m
    else m[path[0] := Object(Put(m[path[0]].members, path[1..], v))]
  }

  /** No scalar stands on the way. */
  predicate Open(m: Mapping, path: Path)
    requires path != []
    decreases |path|
  {
    |path| == 1 || path[0] !in m || (m[path[0]].Object? && Open(m[path[0]].members, path[1..]))
  }

  // ---------- fields ----------

  datatype Kind = Group | Nested | ObjectType | Keyword | Wildcard | Text | MatchOnlyText | Alias | Histogram | Plain

  /** `definition` is missing for an analyzer that is only referred to. */
  datatype Analyzer = Analyzer(name: string, definition: Option<string>)

  /** One object type: what it matches and the mapping for it. */
  datatype Dynamic = Dynamic(matching: string, mapping: Mapping)

  datatype Field = Field(
    name: string,
    kind: Kind,
    defaultField: Option<bool>,
    dynamicTemplate: bool,
    dynamic: Option<string>,
    index: Option<bool>,
    migrationAlias: bool,
    scalars: Mapping,
    analyzers: seq<Analyzer>,
    objectTypes: seq<Option<Dynamic>>,
    multiFields: seq<Field>,
    fields: seq<Field>)

  /** What the Elasticsearch version, the licence and the migration flag allow. */
  datatype Settings = Settings(matchOnlyText: bool, histograms: bool, explicitTemplates: bool, migration: bool)

  /** With a home, the properties of the mapping are those that stand there, and `mapping` lacks them. */
  datatype Template =
    Template(name: string, pathMatch: string, matchType: string, mapping: Mapping, home: Option<Path>)

  datatype TemplateKey = TemplateKey(name: string, pathMatch: string, matchType: string)

  function KeyOfTemplate(t: Template): TemplateKey {
    TemplateKey(t.name, t.pathMatch, t.matchType)
  }

  datatype Shared = Shared(analyzers: map<string, string>, templates: seq<Template>, defaults: seq<string>)

  /** `place` is where the current output stands, from the outermost one. */
  datatype State = State(path: string, defaultField: bool, place: Path)

  datatype Error = NotAMap(name: string) | Inconsistent(analyzer: string)

  datatype Outcome = Outcome(out: Mapping, shared: Shared, error: Option<Error>)

  /** A field's mapping, where its properties stand if they are shared, and the output and the collections it leaves. */
  datatype Rendered = Rendered(mapping: Mapping, home: Option<Path>, after: Outcome)

  function FullName(path: string, name: string): string {
    if path == "" then name else path + "." + name
  }

  /** Puts "properties" between the components. */
  function KeyPath(parts: Path): (path: Path)
    requires parts != []
    ensures path != []
  {
    if |parts| == 1 then parts else [parts[0], PROPERTIES] + KeyPath(parts[1..])
  }

  function KeyOf(f: Field): (path: Path)
    ensures path != []
  {
    KeyPath(Split(f.name))
  }

  predicate SameTemplate(t: Template, u: Template) {
    KeyOfTemplate(t) == KeyOfTemplate(u)
  }

  predicate Known(ts: seq<Template>, t: Template) {
    exists i | 0 <= i < |ts| :: SameTemplate(ts[i], t)
  }

  function AddTemplate(shared: Shared, t: Template): Shared {
    if Known(shared.templates, t) then shared else shared.(templates := shared.templates + [t])
  }

  function AddDefault(f: Field, path: string, dflt: bool, shared: Shared): Shared {
    if dflt && f.kind in {Keyword, Text, MatchOnlyText, Wildcard} && f.index != Some(false)
    then shared.(defaults := shared.defaults + [FullName(path, f.name)])
    else shared
  }

  /** A redefinition replaces the old definition before the two are compared. */
  function AddAnalyzers(list: seq<Analyzer>, o: Outcome): Outcome
    decreases |list|
  {
    if list == [] || o.error.Some? then o
    else if list[0].definition.None? then AddAnalyzers(list[1..], o)
    else
      var name, d, known := list[0].name, list[0].definition.value, o.shared.analyzers;
      var error := if name in known && known[name] != d then Some(Inconsistent(name)) else None;
      AddAnalyzers(list[1..], Outcome(o.out, o.shared.(analyzers := known[name := d]), error))
  }

  function AddDynamic(f: Field, path: string, ds: seq<Option<Dynamic>>, shared: Shared): Shared
    decreases |ds|
  {
    if ds == [] then shared
    else if ds[0].None? then AddDynamic(f, path, ds[1..], shared)
    else
      var d, full := ds[0].value, FullName(path, f.name);
      var pathMatch := if '*' in full then full else full + ".*";
      var name := if |f.objectTypes| > 1 then full + "_" + d.matching else full;
      AddDynamic(f, path, ds[1..], AddTemplate(shared, Template(name, pathMatch, d.matching, d.mapping, None)))
  }

  // ---------- shared properties ----------

  /** What stands at `home` when `out` stands at `place`. */
  function Content(place: Path, out: Mapping, home: Path): Mapping
    requires place <= home
  {
    if home == place then out else PropertiesAt(out, home[|place|..])
  }

  function PropertiesAt(out: Mapping, key: Path): Mapping
    requires key != []
  {
    var current := Get(out, key);
    if current.Some? && current.value.Object? then current.value.members else map[]
  }

  predicate At(t: Template, place: Path) {
    t.home.Some? && place <= t.home.value
  }

  /** A template that shares a map at or below `under` keeps what the map holds now. */
  function FreezeOne(t: Template, place: Path, out: Mapping, under: Path): Template
    requires place <= under
  {
    if At(t, under) then
      t.(mapping := t.mapping[PROPERTIES := Object(Content(place, out, t.home.value))], home := None)
    else t
  }

  function FreezeAll(ts: seq<Template>, place: Path, out: Mapping, under: Path): (frozen: seq<Template>)
    requires place <= under
    ensures |frozen| == |ts| && forall i | 0 <= i < |ts| :: SameTemplate(frozen[i], ts[i])
  {
    seq(|ts|, i requires 0 <= i < |ts| => FreezeOne(ts[i], place, out, under))
  }

  lemma FreezeKeepsKnown(ts: seq<Template>, place: Path, out: Mapping, under: Path, t: Template)
    requires place <= under
    ensures Known(FreezeAll(ts, place, out, under), t) <==> Known(ts, t)
  {
    var frozen := FreezeAll(ts, place, out, under);
    if Known(ts, t) {
      var i :| 0 <= i < |ts| && SameTemplate(ts[i], t);
      assert SameTemplate(frozen[i], t);
    }
    if Known(frozen, t) {
      var i :| 0 <= i < |frozen| && SameTemplate(frozen[i], t);
      assert SameTemplate(ts[i], t);
    }
  }

  function Freeze(shared: Shared, place: Path, out: Mapping, under: Path): Shared
    requires place <= under
  {
    shared.(templates := FreezeAll(shared.templates, place, out, under))
  }

  // ---------- processing ----------

  function Process(p: Settings, fs: seq<Field>, st: State, out: Mapping, shared: Shared): Outcome
    decreases fs, 3
  {
    if fs == [] then Outcome(out, shared, None)
    else
      var r := ProcessOne(p, fs[0], st, out, shared);
      if r.error.Some? then r else Process(p, fs[1..], st, r.out, r.shared)
  }

  function ProcessOne(p: Settings, f: Field, st: State, out: Mapping, shared: Shared): Outcome
    decreases f, 2
  {
    if f.name == "" then Outcome(out, shared, None)
    else
      var dflt := if f.defaultField.Some? then f.defaultField.value else st.defaultField;
      Finish(p, f, st.(defaultField := dflt), Render(p, f, st.(defaultField := dflt), out, shared))
  }

  /** The default field, the mapping and the analyzers of a rendered field. */
  function Finish(p: Settings, f: Field, st: State, r: Rendered): Outcome {
    if r.after.error.Some? then r.after
    else
      var collected := AddDefault(f, st.path, st.defaultField, r.after.shared);
      var placed := Placing(p, f, st.place, r.(after := r.after.(shared := collected)));
      if f.kind == Text || f.kind == MatchOnlyText then AddAnalyzers(f.analyzers, placed) else placed
  }

  predicate Grouping(f: Field) {
    f.kind == Group || f.kind == Nested
  }

  predicate HasMultiFields(f: Field) {
    f.kind in {Keyword, Wildcard, Text, MatchOnlyText}
  }

  /** Where the mapping goes.  A leaf that takes the place of a group ends the sharing of the group's properties. */
  function Placing(p: Settings, f: Field, place: Path, r: Rendered): Outcome {
    if r.mapping == map[] then r.after
    else if !f.dynamicTemplate then
      var out := Put(r.after.out, KeyOf(f), Object(r.mapping));
      if Grouping(f) then r.after.(out := out)
      else r.after.(out := out, shared := Freeze(r.after.shared, place, r.after.out, place + KeyOf(f)))
    else if p.explicitTemplates then r.after.(shared := AddTemplate(r.after.shared, OwnTemplate(f, r)))
    else r.after
  }

  function OwnTemplate(f: Field, r: Rendered): Template {
    Template(f.name, "", "", if r.home.Some? then r.mapping - {PROPERTIES} else r.mapping, r.home)
  }

  function Render(p: Settings, f: Field, st: State, out: Mapping, shared: Shared): Rendered
    decreases f, 1
  {
    match f.kind
    case Group => GroupOf(p, f, st, out, shared)
    case Nested =>
      var r := GroupOf(p, f, st, out, shared);
      r.(mapping := r.mapping["type" := Scalar("nested")])
    case Keyword => Multi(p, f, st, false, out, shared)
    case Wildcard => Multi(p, f, st, false, out, shared)
    case Text => Multi(p, f, st, false, out, shared)
    case MatchOnlyText => Multi(p, f, st, p.matchOnlyText, out, shared)
    case ObjectType => Leaf(f.scalars, out, AddDynamic(f, st.path, f.objectTypes, shared))
    case Alias => Leaf(if !p.migration && f.migrationAlias then map[] else f.scalars, out, shared)
    case Histogram => Leaf(if p.histograms then f.scalars else map[], out, shared)
    case Plain => Leaf(f.scalars, out, shared)
  }

  function Leaf(mapping: Mapping, out: Mapping, shared: Shared): Rendered {
    Rendered(mapping, None, Outcome(out, shared, None))
  }

  /**
  An error among the multi-fields is dropped, with what was collected before it kept.  They make a map of their own, in
  which nothing changes afterwards.  `bare` is for match_only_text, which passes no state on.
  */
  function Multi(p: Settings, f: Field, st: State, bare: bool, out: Mapping, shared: Shared): Rendered
    decreases f, 0
  {
    if f.multiFields == [] then Leaf(f.scalars, out, shared)
    else
      var inner := MultiState(f, st, bare);
      var r := Process(p, f.multiFields, inner, map[], shared);
      Leaf(f.scalars["fields" := Object(r.out)], out, Freeze(r.shared, inner.place, r.out, inner.place))
  }

  function MultiState(f: Field, st: State, bare: bool): State {
    var place := st.place + KeyOf(f) + ["fields"];
    if bare then State("", false, place) else State(FullName(st.path, f.name), st.defaultField, place)
  }

  /** The properties of the group in its output. */
  function Below(f: Field): (key: Path)
    ensures key != []
  {
    KeyOf(f) + [PROPERTIES]
  }

  /**
  Goes on with the properties that are already there, which are changed in place.  New ones get into the output with the
  mapping of the group, unless an error comes before or the mapping becomes a template.
  */
  function GroupOf(p: Settings, f: Field, st: State, out: Mapping, shared: Shared): Rendered
    decreases f, 0
  {
    var key := Below(f);
    var current := Get(out, key);
    if current.Some? && current.value.Scalar? then Rendered(map[], None, Outcome(out, shared, Some(NotAMap(f.name))))
    else
      var inner := State(FullName(st.path, f.name), st.defaultField, st.place + key);
      var r := Process(p, f.fields, inner, PropertiesAt(out, key), shared);
      Rendered(
        GroupMapping(f, r.out),
        if current.Some? && r.out != map[] then Some(inner.place) else None,
        Outcome(if current.Some? then Put(out, key, Object(r.out)) else out, Kept(f, current.Some?, inner.place, r), r.error))
  }

  /** The collections after the fields of a group: a map that does not get into the output changes no more. */
  function Kept(f: Field, found: bool, place: Path, r: Outcome): Shared {
    if !found && (r.error.Some? || f.dynamicTemplate) then Freeze(r.shared, place, r.out, place) else r.shared
  }

  function GroupMapping(f: Field, properties: Mapping): Mapping {
    (if f.dynamic.Some? then map["dynamic" := Scalar(f.dynamic.value)] else map[]) +
    (if properties != map[] then map[PROPERTIES := Object(properties)] else map[])
  }

  /** A field that is no group has multi-fields, or object types, or neither. */
  lemma LeafCases(p: Settings, f: Field, st: State, out: Mapping, shared: Shared)
    requires !Grouping(f)
    ensures var r := Render(p, f, st, out, shared);
            || r == Multi(p, f, st, false, out, shared)
            || r == Multi(p, f, st, true, out, shared)
            || r == Leaf(f.scalars, out, AddDynamic(f, st.path, f.objectTypes, shared))
            || r == Leaf(f.scalars, out, shared)
            || r == Leaf(map[], out, shared)
  {
  }
}
