/**
Adapting ingest pipelines to older Elasticsearch versions: the data, the check table and the adapters.

JSON objects are maps from `Word`, which names the keys and processor types that the table knows and keeps every other
key as `Other`.  A parsed processor keeps its `on_failure` list and its inner processor apart from its other options.
*/
module Pipelines {
  import opened Options

  // ---------- versions ----------

  datatype Version = Version(major: int, minor: int, bugfix: int)

  predicate LessThan(v: Version, w: Version) {
    || v.major < w.major
    || (v.major == w.major && (v.minor < w.minor || (v.minor == w.minor && v.bugfix < w.bugfix)))
  }

  predicate AtMost(v: Version, w: Version) {
    !LessThan(w, v)
  }

  predicate Before(v: Version, major: int, minor: int) {
    LessThan(v, Version(major, minor, 0))
  }

  // ---------- JSON values ----------

  datatype Word =
    // sections and options
    | Processors | OnFailure | Inner /* "processor" */ | Description | If | ValueKey /* "value" */ | Field | TargetField
    | Type | PatternsKey /* "patterns" */ | AllowDuplicates | IgnoreEmptyValue | Ecs
    // processor types
    | Append | CommunityId | SetProc /* "set" */ | UriParts | UserAgent | Convert | NetworkDirection | RegisteredDomain
    | Foreach | Grok
    | Other(text: string)

  datatype Value =
    | Null
    | Bool(b: bool)
    | Number(n: int)
    | Text(s: string)
    | Strings(ss: seq<string>)   // a Go []string, which is not a JSON list of values
    | List(items: seq<Value>)
    | NilList                    // a Go []interface{} that is nil; it is an empty list, but JSON null
    | Object(fields: map<Word, Value>)

  type Fields = map<Word, Value>

  datatype Problem =
    | SectionMissing | SectionNotList | NotAnObject | NotOneKey | ConfigNotObject | UserAgentTooOld | FieldRequired

  predicate IsList(v: Value) {
    v.List? || v.NilList?
  }

  function Items(v: Value): seq<Value> {
    if v.List? then v.items else []
  }

  /** The list that appending to a nil list builds: it stays nil when nothing is appended. */
  function Listed(items: seq<Value>): Value {
    if items == [] then NilList else List(items)
  }

  predicate HasBool(o: Fields, k: Word) {
    k in o && o[k].Bool?
  }

  predicate HasText(o: Fields, k: Word) {
    k in o && o[k].Text?
  }

  function TextOr(o: Fields, k: Word, default: string): string {
    if HasText(o, k) then o[k].s else default
  }

  // ---------- processors ----------

  /** A processor type with its options, without `on_failure` and inner processor. */
  datatype Flat = Flat(name: Word, options: Fields)

  datatype Proc = Proc(flat: Flat, onFailure: Option<Value>, inner: Option<Value>)

  /** A processor with the empty name is the nil processor, which is taken as deleted. */
  predicate IsNil(name: Word) {
    name == Other("")
  }

  function Config(p: Proc): Fields {
    var c := if p.onFailure.Some? then p.flat.options[OnFailure := p.onFailure.value] else p.flat.options;
    if p.inner.Some? then c[Inner := p.inner.value] else c
  }

  function ToMap(p: Proc): Value {
    Object(map[p.flat.name := Object(Config(p))])
  }

  function Lookup(o: Fields, k: Word): Option<Value> {
    if k in o then Some(o[k]) else None
  }

  /** NewProcessor: an object with exactly one key, whose value is an object. */
  ghost function Parse(p: Value): (r: Result<Proc, Problem>)
    ensures r.Ok? ==> p.Object? && |p.fields| == 1 && r.value.flat.name in p.fields
                      && p.fields[r.value.flat.name].Object?
                      && r.value.onFailure == Lookup(p.fields[r.value.flat.name].fields, OnFailure)
                      && r.value.inner == Lookup(p.fields[r.value.flat.name].fields, Inner)
  {
    if !p.Object? then Err(NotAnObject)
    else if |p.fields| != 1 then Err(NotOneKey)
    else
      var name :| name in p.fields;
      if !p.fields[name].Object? then Err(ConfigNotObject)
      else Ok(Split(name, p.fields[name].fields))
  }

  function Split(name: Word, config: Fields): Proc {
    Proc(Flat(name, config - {OnFailure, Inner}), Lookup(config, OnFailure), Lookup(config, Inner))
  }

  // ---------- the strings of the adapters ----------

  function TrimLeft(s: string, a: char, b: char): string {
    if s != "" && (s[0] == a || s[0] == b) then TrimLeft(s[1..], a, b) else s
  }

  function TrimRight(s: string, a: char, b: char): string {
    if s != "" && (s[|s| - 1] == a || s[|s| - 1] == b) then TrimRight(s[..|s| - 1], a, b) else s
  }

  /** Replaces "." by "?.". */
  function NullSafe(s: string): string {
    if s == "" then "" else (if s[0] == '.' then "?." else [s[0]]) + NullSafe(s[1..])
  }

  /** A mustache value as a null-safe field path. */
  function Path(value: string): string {
    NullSafe(TrimRight(TrimLeft(value, '{', ' '), '}', ' '))
  }

  /**
  Lower case of the letters for which it is an ASCII letter: besides A to Z these are the dotted capital I and the Kelvin
  sign.  No other letter can make a difference to a search for an ASCII word.
  */
  function Lower(s: string): string {
    if s == "" then "" else [LowerLetter(s[0])] + Lower(s[1..])
  }

  function LowerLetter(c: char): char {
    if 'A' <= c <= 'Z' then c - 'A' + 'a'
    else if c == '\U{0130}' then 'i'
    else if c == '\U{212A}' then 'k'
    else c
  }

  predicate HasPart(s: string, part: string) {
    part <= s || (s != "" && HasPart(s[1..], part))
  }

  function Show(v: Value): string {
    if v.Text? then v.s else "%!s"
  }

  // ---------- the adapters ----------

  function WithoutEmptyValue(o: Fields): Fields {
    if !HasBool(o, IgnoreEmptyValue) then o
    else
      var rest := o - {IgnoreEmptyValue};
      if HasText(rest, If) || !HasText(rest, ValueKey) then rest
      else rest[If := Text("ctx?." + Path(rest[ValueKey].s) + " != null")]
  }

  function WithoutDuplicates(o: Fields): Fields {
    if !HasBool(o, AllowDuplicates) then o
    else
      var rest := o - {AllowDuplicates};
      if o[AllowDuplicates].b || HasPart(Lower(TextOr(rest, If, "")), "contains")
         || !HasText(rest, Field) || !HasText(rest, ValueKey)
      then rest
      else
        rest[If := Text(DuplicateGuard(TextOr(rest, If, ""), NullSafe(rest[Field].s), Path(rest[ValueKey].s)))]
  }

  function DuplicateGuard(guard: string, field: string, value: string): string {
    (if guard == "" then "ctx?." + value + " != null" else guard)
      + " && ((ctx?." + field + " instanceof List && !ctx?." + field + ".contains(ctx?." + value + ")) || ctx?."
      + field + " != ctx?." + value + ")"
  }

  predicate ConvertsIp(f: Flat) {
    f.name.Convert? && Type in f.options && f.options[Type] == Text("ip")
  }

  function IpAsGrok(f: Flat): Result<Flat, Problem>
  {
    if !ConvertsIp(f) then Ok(f)
    else
      var rest := f.options - {Type};
      if Field !in rest then Err(FieldRequired)
      else
        var target := if TargetField in rest then rest[TargetField] else rest[Field];
        Ok(Flat(Grok, (rest - {TargetField})[PatternsKey := Strings(["^%{IP:" + Show(target) + "}$"])]))
  }

  function WithoutDescription(o: Fields): Fields {
    if HasText(o, Description) then o - {Description} else o
  }

  // ---------- the check table ----------

  datatype Check =
    | AppendCheck | CommunityIdCheck | SetCheck | UriPartsCheck | UserAgentEcsCheck | UserAgentOldCheck
    | ConvertCheck | NetworkDirectionCheck | RegisteredDomainCheck | DescriptionCheck

  const Table := [AppendCheck, CommunityIdCheck, SetCheck, UriPartsCheck, UserAgentEcsCheck, UserAgentOldCheck,
                  ConvertCheck, NetworkDirectionCheck, RegisteredDomainCheck, DescriptionCheck]

  predicate ForType(c: Check, name: Word) {
    match c
    case AppendCheck => name.Append?
    case CommunityIdCheck => name.CommunityId?
    case SetCheck => name.SetProc?
    case UriPartsCheck => name.UriParts?
    case UserAgentEcsCheck => name.UserAgent?
    case UserAgentOldCheck => name.UserAgent?
    case ConvertCheck => name.Convert?
    case NetworkDirectionCheck => name.NetworkDirection?
    case RegisteredDomainCheck => name.RegisteredDomain?
    case DescriptionCheck => true
  }

  predicate ForVersion(c: Check, v: Version) {
    match c
    case AppendCheck => Before(v, 7, 10)
    case CommunityIdCheck => Before(v, 7, 12)
    case SetCheck => Before(v, 7, 9)
    case UriPartsCheck => Before(v, 7, 12)
    case UserAgentEcsCheck => Before(v, 7, 0) && !Before(v, 6, 7)
    case UserAgentOldCheck => Before(v, 6, 7)
    case ConvertCheck => Before(v, 7, 13)
    case NetworkDirectionCheck => Before(v, 7, 13)
    case RegisteredDomainCheck => Before(v, 7, 13)
    case DescriptionCheck => Before(v, 7, 9)
  }

  /** adaptConfig of one table entry; the nil processor means deletion. */
  function AdaptConfig(c: Check, f: Flat): Result<Flat, Problem> {
    match c
    case AppendCheck => Ok(f.(options := WithoutDuplicates(f.options)))
    case CommunityIdCheck => Ok(Flat(Other(""), map[]))
    case SetCheck => Ok(f.(options := WithoutEmptyValue(f.options)))
    case UriPartsCheck => Ok(Flat(Other(""), map[]))
    case UserAgentEcsCheck => Ok(f.(options := f.options[Ecs := Bool(true)]))
    case UserAgentOldCheck => Err(UserAgentTooOld)
    case ConvertCheck => IpAsGrok(f)
    case NetworkDirectionCheck => Ok(Flat(Other(""), map[]))
    case RegisteredDomainCheck => Ok(Flat(Other(""), map[]))
    case DescriptionCheck => Ok(f.(options := WithoutDescription(f.options)))
  }

  /** The checks of `table` one after the other: an error, `None` for a deleted processor, or the adapted one. */
  function RunChecks(v: Version, f: Flat, table: seq<Check>): Result<Option<Flat>, Problem>
    decreases |table|
  {
    if table == [] then Ok(Some(f))
    else if !ForType(table[0], f.name) || !ForVersion(table[0], v) then RunChecks(v, f, table[1..])
    else
      match AdaptConfig(table[0], f)
      case Err(e) => Err(e)
      case Ok(g) => if IsNil(g.name) then Ok(None) else RunChecks(v, g, table[1..])
  }

  // ---------- adapting lists of processors ----------

  /** The on_failure option after adapting: dropped when it has lost its last processor. */
  function Handlers(before: Option<Value>, after: seq<Value>): Option<Value> {
    if before.None? || (Items(before.value) != [] && after == []) then None else Some(Listed(after))
  }

  /** A processor from its adapted on_failure list, its adapted inner processor and its own checks. */
  function Assemble(
    v: Version, p: Proc, handlers: Result<seq<Value>, Problem>, inner: Result<Option<Value>, Problem>
  ): Result<Option<Proc>, Problem>
  {
    if handlers.Err? then Err(handlers.error)
    else if inner.Err? then Err(inner.error)
    else if p.inner.Some? && inner.value.None? then Ok(None)
    else
      match RunChecks(v, p.flat, Table)
      case Err(e) => Err(e)
      case Ok(None) => Ok(None)
      case Ok(Some(flat)) => Ok(Some(Proc(flat, Handlers(p.onFailure, handlers.value), inner.value)))
  }

  function Printed(r: Result<Option<Proc>, Problem>): Result<Option<Value>, Problem> {
    match r
    case Err(e) => Err(e)
    case Ok(None) => Ok(None)
    case Ok(Some(p)) => Ok(Some(ToMap(p)))
  }

  /** The answer for a list from the answers for its first processor and for the others. */
  function Prepend(first: Result<Option<Value>, Problem>, rest: Result<seq<Value>, Problem>): Result<seq<Value>, Problem> {
    if first.Err? then Err(first.error)
    else if rest.Err? then Err(rest.error)
    else if first.value.None? then rest
    else Ok([first.value.value] + rest.value)
  }

  ghost function AdaptList(v: Version, ps: seq<Value>): Result<seq<Value>, Problem>
    decreases ps
  {
    if ps == [] then Ok([]) else Prepend(AdaptOne(v, ps[0]), AdaptList(v, ps[1..]))
  }

  /** One processor: its on_failure list, its inner processor, its checks. */
  ghost function AdaptOne(v: Version, q: Value): Result<Option<Value>, Problem>
    decreases q
  {
    match Parse(q)
    case Err(e) => Err(e)
    case Ok(p) =>
      Printed(Assemble(
        v, p,
        if p.onFailure.None? || p.onFailure.value.NilList? then Ok([])
        else if !p.onFailure.value.List? then Err(SectionNotList)
        else AdaptList(v, p.onFailure.value.items),
        if !p.flat.name.Foreach? || p.inner.None? then Ok(p.inner) else AdaptOne(v, p.inner.value)))
  }

  /** adaptProcessorsForCompatibility on one section of a pipeline. */
  ghost function AdaptSection(v: Version, content: Fields, section: Word, mayMiss: bool): Result<Fields, Problem> {
    if section !in content then (if mayMiss then Ok(content) else Err(SectionMissing))
    else if !IsList(content[section]) then Err(SectionNotList)
    else
      match AdaptList(v, Items(content[section]))
      case Err(e) => Err(e)
      case Ok(qs) => Ok(content[section := Listed(qs)])
  }

  /** AdaptPipelineForCompatibility. */
  ghost function AdaptPipeline(v: Version, content: Fields): Result<Fields, Problem> {
    match AdaptSection(v, content, Processors, false)
    case Err(e) => Err(e)
    case Ok(c) => AdaptSection(v, c, OnFailure, true)
  }
}
