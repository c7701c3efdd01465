/**
The processor as it runs: it extends the output and its own collections field by field.  Templates that share properties
with the output are let go of where the processor drops or overwrites the map, which takes no step of its own there.
*/
module TemplateProcessor {
  import opened Names
  import opened Options
  import opened Templates

  class Processor {
    const settings: Settings
    var known: map<TemplateKey, nat>
    var templates: seq<Template>
    var defaults: seq<string>
    var analyzers: map<string, string>

    /** The index records exactly the templates of the list, and where they are. */
    ghost predicate Valid()
      reads this
    {
      && (forall t: Template :: KeyOfTemplate(t) in known <==> Known(templates, t))
      && (forall key | key in known :: known[key] < |templates| && KeyOfTemplate(templates[known[key]]) == key)
    }

    function Collected(): Shared
      reads this
    {
      Shared(analyzers, templates, defaults)
    }

    constructor (settings: Settings)
      ensures this.settings == settings && Valid() && Collected() == Shared(map[], [], [])
    {
      this.settings := settings;
      known, templates, defaults, analyzers := map[], [], [], map[];
    }

    method AddDynamicTemplate(t: Template)
      requires Valid()
      modifies this
      ensures Valid() && Collected() == AddTemplate(old(Collected()), t)
    {
      if KeyOfTemplate(t) in known {
        return;
      }
      known := known[KeyOfTemplate(t) := |templates|];
      templates := templates + [t];
      KnownAfter(old(templates), t);
    }

    method LetGo(place: Path, out: Mapping, under: Path)
      requires Valid() && place <= under
      modifies this`templates
      ensures Valid() && Collected() == Freeze(old(Collected()), place, out, under)
    {
      templates := FreezeAll(templates, place, out, under);
      forall t: Template ensures KeyOfTemplate(t) in known <==> Known(templates, t) {
        FreezeKeepsKnown(old(templates), place, out, under, t);
      }
    }

    method AddToDefaultFields(f: Field, path: string)
      requires Valid()
      modifies this
      ensures Valid()
      ensures Collected() == if f.index == Some(false) then old(Collected())
                             else old(Collected()).(defaults := old(defaults) + [FullName(path, f.name)])
    {
      var fullName := if path != "" then path + "." + f.name else f.name;
      if f.index.None? || f.index.value {
        defaults := defaults + [fullName];
      }
    }

    method PutAnalyzers(list: seq<Analyzer>, ghost out: Mapping) returns (error: Option<Error>)
      requires Valid()
      modifies this
      ensures Valid()
      ensures Outcome(out, Collected(), error) == AddAnalyzers(list, Outcome(out, old(Collected()), None))
    {
      var i := 0;
      while i < |list|
        invariant i <= |list| && Valid()
        invariant AddAnalyzers(list, Outcome(out, old(Collected()), None)) ==
                  AddAnalyzers(list[i..], Outcome(out, Collected(), None))
      {
        var a := list[i];
        if a.definition.Some? {
          var clash := a.name in analyzers && analyzers[a.name] != a.definition.value;
          analyzers := analyzers[a.name := a.definition.value];
          if clash {
            return Some(Inconsistent(a.name));
          }
        }
        i := i + 1;
      }
      return None;
    }

    method AddObjectTypes(f: Field, path: string)
      requires Valid()
      modifies this
      ensures Valid() && Collected() == AddDynamic(f, path, f.objectTypes, old(Collected()))
    {
      var i := 0;
      while i < |f.objectTypes|
        invariant i <= |f.objectTypes| && Valid()
        invariant AddDynamic(f, path, f.objectTypes, old(Collected())) ==
                  AddDynamic(f, path, f.objectTypes[i..], Collected())
      {
        if f.objectTypes[i].Some? {
          var d := f.objectTypes[i].value;
          var full := FullName(path, f.name);
          var pathMatch := if '*' in full then full else full + ".*";
          var name := if |f.objectTypes| > 1 then full + "_" + d.matching else full;
          AddDynamicTemplate(Template(name, pathMatch, d.matching, d.mapping, None));
        }
        i := i + 1;
      }
    }

    method Process(fs: seq<Field>, st: State, out: Mapping) returns (result: Mapping, error: Option<Error>)
      requires Valid()
      modifies this
      ensures Valid()
      ensures Outcome(result, Collected(), error) == Templates.Process(settings, fs, st, out, old(Collected()))
      decreases fs, 3
    {
      result, error := out, None;
      var i := 0;
      while i < |fs|
        invariant i <= |fs| && Valid()
        invariant Templates.Process(settings, fs, st, out, old(Collected())) ==
                  Templates.Process(settings, fs[i..], st, result, Collected())
        invariant error.None?
      {
        result, error := ProcessField(fs[i], st, result);
        if error.Some? {
          return;
        }
        i := i + 1;
      }
    }

    method ProcessField(f: Field, st: State, out: Mapping) returns (result: Mapping, error: Option<Error>)
      requires Valid()
      modifies this
      ensures Valid()
      ensures Outcome(result, Collected(), error) == ProcessOne(settings, f, st, out, old(Collected()))
      decreases f, 2
    {
      if f.name == "" {
        return out, None;
      }
      var dflt := if f.defaultField.Some? then f.defaultField.value else st.defaultField;
      var mapping, home;
      mapping, home, result, error := RenderField(f, st.(defaultField := dflt), out);
      if error.Some? {
        return;
      }
      if dflt && f.kind in {Keyword, Text, MatchOnlyText, Wildcard} {
        AddToDefaultFields(f, st.path);
      }
      result := Place(f, st.place, mapping, home, result);
      if f.kind == Text || f.kind == MatchOnlyText {
        error := PutAnalyzers(f.analyzers, result);
      }
    }

    method Place(f: Field, place: Path, mapping: Mapping, home: Option<Path>, out: Mapping) returns (result: Mapping)
      requires Valid()
      modifies this
      ensures Valid()
      ensures Outcome(result, Collected(), None) ==
              Placing(settings, f, place, Rendered(mapping, home, Outcome(out, old(Collected()), None)))
    {
      result := out;
      if mapping != map[] {
        if f.dynamicTemplate {
          if settings.explicitTemplates {
            AddDynamicTemplate(
              Template(f.name, "", "", if home.Some? then mapping - {PROPERTIES} else mapping, home));
          }
        } else {
          result := Put(out, KeyOf(f), Object(mapping));
          if f.kind != Group && f.kind != Nested {
            LetGo(place, out, place + KeyOf(f));
          }
        }
      }
    }

    method RenderField(f: Field, st: State, out: Mapping)
      returns (mapping: Mapping, home: Option<Path>, result: Mapping, error: Option<Error>)
      requires Valid()
      modifies this
      ensures Valid()
      ensures Rendered(mapping, home, Outcome(result, Collected(), error)) ==
              Render(settings, f, st, out, old(Collected()))
      decreases f, 1
    {
      home, result, error := None, out, None;
      match f.kind
      case Group =>
        mapping, home, result, error := ProcessGroup(f, st, out);
      case Nested =>
        mapping, home, result, error := ProcessGroup(f, st, out);
        mapping := mapping["type" := Scalar("nested")];
      case Keyword | Wildcard | Text =>
        mapping := WithMultiFields(f, st, false, out);
      case MatchOnlyText =>
        mapping := WithMultiFields(f, st, settings.matchOnlyText, out);
      case ObjectType =>
        AddObjectTypes(f, st.path);
        mapping := f.scalars;
      case Alias =>
        mapping := if !settings.migration && f.migrationAlias then map[] else f.scalars;
      case Histogram =>
        mapping := if settings.histograms then f.scalars else map[];
      case Plain =>
        mapping := f.scalars;
    }

    method WithMultiFields(f: Field, st: State, bare: bool, ghost out: Mapping) returns (mapping: Mapping)
      requires Valid()
      modifies this
      ensures Valid()
      ensures Leaf(mapping, out, Collected()) == Multi(settings, f, st, bare, out, old(Collected()))
      decreases f, 0
    {
      mapping := f.scalars;
      if |f.multiFields| > 0 {
        var inner := MultiState(f, st, bare);
        var fields, dropped := Process(f.multiFields, inner, map[]);
        LetGo(inner.place, fields, inner.place);
        mapping := mapping["fields" := Object(fields)];
      }
    }

    method ProcessGroup(f: Field, st: State, out: Mapping)
      returns (mapping: Mapping, home: Option<Path>, result: Mapping, error: Option<Error>)
      requires Valid()
      modifies this
      ensures Valid()
      ensures Rendered(mapping, home, Outcome(result, Collected(), error)) ==
              GroupOf(settings, f, st, out, old(Collected()))
      decreases f, 0
    {
      var key := KeyOf(f) + [PROPERTIES];
      var current := Get(out, key);
      if current.Some? && current.value.Scalar? {
        return map[], None, out, Some(NotAMap(f.name));
      }
      var inner := State(FullName(st.path, f.name), st.defaultField, st.place + key);
      var properties: Mapping := if current.Some? then current.value.members else map[];
      properties, error := Process(f.fields, inner, properties);
      if current.None? && (error.Some? || f.dynamicTemplate) {
        LetGo(inner.place, properties, inner.place);
      }
      result := if current.Some? then Put(out, key, Object(properties)) else out;
      home := if current.Some? && properties != map[] then Some(inner.place) else None;
      mapping := MapGroup(f, properties);
    }
  }

  method MapGroup(f: Field, properties: Mapping) returns (mapping: Mapping)
    ensures mapping == GroupMapping(f, properties)
  {
    mapping := map[];
    if f.dynamic.Some? {
      mapping := mapping["dynamic" := Scalar(f.dynamic.value)];
    }
    if properties != map[] {
      mapping := mapping[PROPERTIES := Object(properties)];
    }
  }

  lemma KnownAfter(ts: seq<Template>, t: Template)
    ensures forall u: Template :: Known(ts + [t], u) <==> Known(ts, u) || SameTemplate(t, u)
  {
    forall u: Template ensures Known(ts + [t], u) <==> Known(ts, u) || SameTemplate(t, u) {
      if Known(ts, u) {
        var i :| 0 <= i < |ts| && SameTemplate(ts[i], u);
        assert (ts + [t])[i] == ts[i];
      }
      assert (ts + [t])[|ts|] == t;
    }
  }
}
