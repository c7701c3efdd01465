/**
Field definitions form a tree; a key is the dotted name of a leaf.  Two lists of definitions are concatenated only if
no key of the second collides with a definition of the first.
*/
module Fields {
  import opened Names
  import opened Options

  datatype Field = Field(name: string, typ: string, objectType: string, fields: seq<Field>)

  type Path = seq<string>

  // ---------- keys ----------

  function Under(space: string, name: string): string {
    if space == "" then name else space + "." + name
  }

  function Keys(fs: seq<Field>, space: string): seq<string>
    decreases fs
  {
    if fs == [] then [] else KeysOf(fs[0], space) + Keys(fs[1..], space)
  }

  function KeysOf(f: Field, space: string): seq<string>
    decreases f
  {
    var name := Under(space, f.name);
    (if f.fields == [] then [name] else Keys(f.fields, name)) +
    (if f.objectType == "histogram" then [name + ".values", name + ".counts"] else [])
  }

  lemma {:induction false} KeysOfConcat(a: seq<Field>, b: seq<Field>, space: string)
    ensures Keys(a + b, space) == Keys(a, space) + Keys(b, space)
    decreases a
  {
    if a == [] {
      assert a + b == b;
    } else {
      assert (a + b)[0] == a[0] && (a + b)[1..] == a[1..] + b;
      KeysOfConcat(a[1..], b, space);
    }
  }

  lemma KeysOfPrefix(fs: seq<Field>, i: nat, space: string)
    requires i < |fs|
    ensures Keys(fs[..i + 1], space) == Keys(fs[..i], space) + KeysOf(fs[i], space)
  {
    assert fs[..i + 1] == fs[..i] + [fs[i]];
    KeysOfConcat(fs[..i], [fs[i]], space);
    assert Keys([fs[i]], space) == KeysOf(fs[i], space) + Keys([], space);
  }

  method GetKeys(fs: seq<Field>, space: string) returns (keys: seq<string>)
    ensures keys == Keys(fs, space)
    decreases fs
  {
    keys := [];
    for i := 0 to |fs|
      invariant keys == Keys(fs[..i], space)
    {
      var own := GetKeysOf(fs[i], space);
      KeysOfPrefix(fs, i, space);
      keys := keys + own;
    }
    assert fs[..|fs|] == fs;
  }

  method GetKeysOf(f: Field, space: string) returns (keys: seq<string>)
    ensures keys == KeysOf(f, space)
    decreases f
  {
    var name := if space == "" then f.name else space + "." + f.name;
    if |f.fields| == 0 {
      keys := [name];
    } else {
      keys := GetKeys(f.fields, name);
    }
    if f.objectType == "histogram" {
      keys := keys + [name + ".values"];
      keys := keys + [name + ".counts"];
    }
  }

  // ---------- keys and the tree ----------

  /** A field of the tree with the names that lead to it. */
  datatype Spot = Spot(path: Path, field: Field)

  /** All fields of the tree; those inside a field come before it. */
  function Spots(fs: seq<Field>, above: Path): seq<Spot>
    decreases fs
  {
    if fs == [] then []
    else Spots(fs[0].fields, above + [fs[0].name]) + [Spot(above + [fs[0].name], fs[0])] + Spots(fs[1..], above)
  }

  /** The names with dots between them, without empty names in front. */
  function Dotted(path: Path): string {
    if path != [] && path[0] == "" then Dotted(path[1..]) else Join(path)
  }

  /** A leaf has its own key, and a histogram has two more. */
  function KeysAt(spot: Spot): seq<string> {
    (if spot.field.fields == [] then [Dotted(spot.path)] else []) +
    (if spot.field.objectType == "histogram" then [Dotted(spot.path) + ".values", Dotted(spot.path) + ".counts"] else [])
  }

  function AllKeysAt(spots: seq<Spot>): seq<string> {
    if spots == [] then [] else KeysAt(spots[0]) + AllKeysAt(spots[1..])
  }

  lemma {:induction false} AllKeysAtConcat(a: seq<Spot>, b: seq<Spot>)
    ensures AllKeysAt(a + b) == AllKeysAt(a) + AllKeysAt(b)
  {
    if a == [] {
      assert a + b == b;
    } else {
      assert (a + b)[0] == a[0] && (a + b)[1..] == a[1..] + b;
      AllKeysAtConcat(a[1..], b);
    }
  }

  lemma {:induction false} UnderIsDotted(path: Path, name: string)
    ensures Under(Dotted(path), name) == Dotted(path + [name])
  {
    if path == [] {
      assert path + [name] == [name];
      assert [name][1..] == [];
    } else if path[0] == "" {
      assert (path + [name])[1..] == path[1..] + [name];
      UnderIsDotted(path[1..], name);
    } else {
      JoinOfConcat(path, [name]);
    }
  }

  /** The keys of a list are the dotted names of its leaves in order, each histogram's two keys after its field. */
  lemma {:induction false} KeysAreTheLeaves(fs: seq<Field>, above: Path)
    ensures Keys(fs, Dotted(above)) == AllKeysAt(Spots(fs, above))
    decreases fs
  {
    if fs != [] {
      var f, here := fs[0], above + [fs[0].name];
      UnderIsDotted(above, f.name);
      KeysAreTheLeaves(f.fields, here);
      KeysAreTheLeaves(fs[1..], above);
      AllKeysAtConcat(Spots(f.fields, here) + [Spot(here, f)], Spots(fs[1..], above));
      AllKeysAtConcat(Spots(f.fields, here), [Spot(here, f)]);
      assert [Spot(here, f)][1..] == [];
      KeysOfSpot(f, above);
    }
  }

  lemma KeysOfSpot(f: Field, above: Path)
    requires Keys(f.fields, Dotted(above + [f.name])) == AllKeysAt(Spots(f.fields, above + [f.name]))
    ensures KeysOf(f, Dotted(above)) ==
            AllKeysAt(Spots(f.fields, above + [f.name])) + KeysAt(Spot(above + [f.name], f))
  {
    UnderIsDotted(above, f.name);
    var name := Dotted(above + [f.name]);
    var inner := AllKeysAt(Spots(f.fields, above + [f.name]));
    var more := if f.objectType == "histogram" then [name + ".values", name + ".counts"] else [];
    if f.fields == [] {
      assert KeysOf(f, Dotted(above)) == [name] + more && inner == [];
      assert KeysAt(Spot(above + [f.name], f)) == [name] + more;
    } else {
      assert KeysOf(f, Dotted(above)) == inner + more;
      assert KeysAt(Spot(above + [f.name], f)) == [] + more == more;
    }
  }

  // ---------- looking names up ----------

  /** The first definition with the name. */
  function Find(fs: seq<Field>, name: string): (f: Option<Field>)
    ensures f.Some? ==> f.value in fs && f.value.name == name
    ensures f.None? ==> forall g <- fs :: g.name != name
  {
    if fs == [] then None else if fs[0].name == name then Some(fs[0]) else Find(fs[1..], name)
  }

  function HasKey(fs: seq<Field>, keys: Path): bool
    decreases |keys|
  {
    if keys == [] then false
    else
      var f := Find(fs, keys[0]);
      if f.None? then false
      else if f.value.fields != [] then HasKey(f.value.fields, keys[1..])
      else |keys| == 1
  }

  function GetField(fs: seq<Field>, keys: Path): Option<Field>
    decreases |keys|
  {
    if keys == [] then None
    else
      var f := Find(fs, keys[0]);
      if f.None? then None
      else if f.value.fields != [] then GetField(f.value.fields, keys[1..])
      else if |keys| > 1 then None
      else f
  }

  function HasNode(fs: seq<Field>, keys: Path): bool
    decreases |keys|
  {
    if keys == [] then false
    else
      var f := Find(fs, keys[0]);
      f.Some? && (|keys| == 1 || f.value.fields == [] || HasNode(f.value.fields, keys[1..]))
  }

  datatype Conflict = Contains(key: string) | NotAnObject(key: string)

  function CanConcat(fs: seq<Field>, k: string, keys: Path): Option<Conflict>
    decreases |keys|
  {
    if keys == [] then None
    else
      var f := Find(fs, keys[0]);
      if f.None? then None
      else if |keys| == 1 then Some(Contains(k))
      else if f.value.fields == [] && f.value.typ != "object" then Some(NotAnObject(k))
      else CanConcat(f.value.fields, k, keys[1..])
  }

  // ---------- what the tree defines ----------

  /** `f` is defined at the path `p`. */
  ghost predicate Defines(fs: seq<Field>, p: Path, f: Field)
    decreases |p|
  {
    p != [] && exists g :: g in fs && g.name == p[0] && (if |p| == 1 then g == f else Defines(g.fields, p[1..], f))
  }

  ghost predicate Node(fs: seq<Field>, p: Path) {
    exists f :: Defines(fs, p, f)
  }

  ghost predicate Leaf(fs: seq<Field>, p: Path) {
    exists f :: Defines(fs, p, f) && f.fields == []
  }

  /** `f` is a leaf at a proper prefix of the path. */
  ghost predicate LeafBefore(fs: seq<Field>, p: Path, f: Field) {
    f.fields == [] && exists j :: 0 < j < |p| && Defines(fs, p[..j], f)
  }

  ghost predicate UnderLeaf(fs: seq<Field>, p: Path) {
    exists f :: LeafBefore(fs, p, f) && f.typ != "object"
  }

  /** The path is a node, or lies under a leaf that is not an object. */
  ghost predicate Blocked(fs: seq<Field>, p: Path) {
    Node(fs, p) || UnderLeaf(fs, p)
  }

  predicate UniqueNames(fs: seq<Field>)
    decreases fs
  {
    && (forall i, j | 0 <= i < j < |fs| :: fs[i].name != fs[j].name)
    && (forall i | 0 <= i < |fs| :: UniqueNames(fs[i].fields))
  }

  /** Names are single components, and no definition brings keys besides its own. */
  predicate Plain(fs: seq<Field>)
    decreases fs
  {
    forall i | 0 <= i < |fs| ::
      fs[i].name != "" && DotFree(fs[i].name) && fs[i].objectType != "histogram" && Plain(fs[i].fields)
  }

  // ---------- lookups agree with the tree ----------

  lemma FoundIsThe(fs: seq<Field>, g: Field)
    requires UniqueNames(fs) && g in fs
    ensures Find(fs, g.name) == Some(g) && UniqueNames(g.fields)
  {
    var i :| 0 <= i < |fs| && fs[i] == g;
    var f := Find(fs, g.name).value;
    var j :| 0 <= j < |fs| && fs[j] == f;
    assert i == j;
  }

  /** With unique names a path defines what lookups from name to name find. */
  lemma DefinesNext(fs: seq<Field>, p: Path, f: Field)
    requires UniqueNames(fs) && p != []
    ensures var g := Find(fs, p[0]);
            Defines(fs, p, f) <==> g.Some? && (if |p| == 1 then g.value == f else Defines(g.value.fields, p[1..], f))
  {
    if Defines(fs, p, f) {
      var g :| g in fs && g.name == p[0] && (if |p| == 1 then g == f else Defines(g.fields, p[1..], f));
      FoundIsThe(fs, g);
    }
  }

  lemma {:induction false} GetFieldOfUnique(fs: seq<Field>, p: Path, f: Field)
    requires UniqueNames(fs)
    ensures GetField(fs, p) == Some(f) <==> Defines(fs, p, f) && f.fields == []
    decreases |p|
  {
    if p != [] {
      DefinesNext(fs, p, f);
      var g := Find(fs, p[0]);
      if g.Some? {
        FoundIsThe(fs, g.value);
        GetFieldOfUnique(g.value.fields, p[1..], f);
      }
    }
  }

  lemma {:induction false} HasKeyIsGetField(fs: seq<Field>, p: Path)
    ensures HasKey(fs, p) <==> GetField(fs, p).Some?
    decreases |p|
  {
    if p != [] && Find(fs, p[0]).Some? {
      HasKeyIsGetField(Find(fs, p[0]).value.fields, p[1..]);
    }
  }

  lemma HasKeyOfUnique(fs: seq<Field>, p: Path)
    requires UniqueNames(fs)
    ensures HasKey(fs, p) <==> Leaf(fs, p)
  {
    HasKeyIsGetField(fs, p);
    if HasKey(fs, p) {
      GetFieldOfUnique(fs, p, GetField(fs, p).value);
    }
    if Leaf(fs, p) {
      var f :| Defines(fs, p, f) && f.fields == [];
      GetFieldOfUnique(fs, p, f);
    }
  }

  lemma {:induction false} ContainsOfUnique(fs: seq<Field>, k: string, p: Path)
    requires UniqueNames(fs)
    ensures CanConcat(fs, k, p) == Some(Contains(k)) <==> Node(fs, p)
    decreases |p|
  {
    if p != [] {
      forall f {
        DefinesNext(fs, p, f);
      }
      var g := Find(fs, p[0]);
      if g.Some? {
        FoundIsThe(fs, g.value);
        ContainsOfUnique(g.value.fields, k, p[1..]);
        if |p| == 1 {
          assert Defines(fs, p, g.value);
        } else if g.value.fields == [] {
          assert !Node(g.value.fields, p[1..]);
        }
      }
    }
  }

  lemma LeafBeforeNext(fs: seq<Field>, p: Path, f: Field)
    requires UniqueNames(fs) && p != []
    ensures var g := Find(fs, p[0]);
            LeafBefore(fs, p, f) <==>
            |p| > 1 && g.Some? && if g.value.fields == [] then g.value == f else LeafBefore(g.value.fields, p[1..], f)
  {
    var g := Find(fs, p[0]);
    if LeafBefore(fs, p, f) {
      var j :| 0 < j < |p| && Defines(fs, p[..j], f);
      DefinesNext(fs, p[..j], f);
      if j > 1 {
        assert p[..j][1..] == p[1..][..j - 1];
      }
    }
    if |p| > 1 && g.Some? {
      DefinesNext(fs, p[..1], f);
      if g.value.fields != [] && LeafBefore(g.value.fields, p[1..], f) {
        var j :| 0 < j < |p| - 1 && Defines(g.value.fields, p[1..][..j], f);
        assert p[..j + 1][1..] == p[1..][..j];
        DefinesNext(fs, p[..j + 1], f);
      }
    }
  }

  lemma {:induction false} NotAnObjectOfUnique(fs: seq<Field>, k: string, p: Path)
    requires UniqueNames(fs)
    ensures CanConcat(fs, k, p) == Some(NotAnObject(k)) <==> UnderLeaf(fs, p)
    decreases |p|
  {
    if p != [] {
      if UnderLeaf(fs, p) {
        var f :| LeafBefore(fs, p, f) && f.typ != "object";
        LeafBeforeNext(fs, p, f);
      }
      var g := Find(fs, p[0]);
      if g.Some? {
        FoundIsThe(fs, g.value);
        NotAnObjectOfUnique(g.value.fields, k, p[1..]);
        LeafBeforeNext(fs, p, g.value);
        if UnderLeaf(g.value.fields, p[1..]) {
          var f :| LeafBefore(g.value.fields, p[1..], f) && f.typ != "object";
          LeafBeforeNext(fs, p, f);
        }
      }
    }
  }

  lemma {:induction false} HasNodeOfUnique(fs: seq<Field>, p: Path)
    requires UniqueNames(fs)
    ensures HasNode(fs, p) <==> Node(fs, p) || exists f :: LeafBefore(fs, p, f)
    decreases |p|
  {
    if p != [] {
      ContainsOfUnique(fs, "", p);
      if f :| LeafBefore(fs, p, f) {
        LeafBeforeNext(fs, p, f);
      }
      var g := Find(fs, p[0]);
      if g.Some? {
        FoundIsThe(fs, g.value);
        HasNodeOfUnique(g.value.fields, p[1..]);
        ContainsOfUnique(g.value.fields, "", p[1..]);
        LeafBeforeNext(fs, p, g.value);
        if f :| LeafBefore(g.value.fields, p[1..], f) {
          LeafBeforeNext(fs, p, f);
        }
      }
    }
  }

  // ---------- lists with repeated names ----------

  function Without(fs: seq<Field>, name: string): seq<Field> {
    if fs == [] then []
    else if fs[0].name == name then Without(fs[1..], name)
    else [fs[0]] + Without(fs[1..], name)
  }

  /** The tree that lookups see: of siblings with one name only the first, at every level. */
  function FirstSiblings(fs: seq<Field>): seq<Field>
    decreases fs
  {
    if fs == [] then [] else [Pruned(fs[0])] + Without(FirstSiblings(fs[1..]), fs[0].name)
  }

  function Pruned(f: Field): Field
    decreases f
  {
    f.(fields := FirstSiblings(f.fields))
  }

  lemma {:induction false} FindWithout(fs: seq<Field>, name: string, n: string)
    ensures Find(Without(fs, name), n) == if n == name then None else Find(fs, n)
  {
    if fs != [] {
      FindWithout(fs[1..], name, n);
      assert ([fs[0]] + Without(fs[1..], name))[1..] == Without(fs[1..], name);
    }
  }

  lemma {:induction false} FindFirst(fs: seq<Field>, n: string)
    ensures Find(FirstSiblings(fs), n) == if Find(fs, n).Some? then Some(Pruned(Find(fs, n).value)) else None
  {
    if fs != [] {
      var rest := Without(FirstSiblings(fs[1..]), fs[0].name);
      FindFirst(fs[1..], n);
      FindWithout(FirstSiblings(fs[1..]), fs[0].name, n);
      assert ([Pruned(fs[0])] + rest)[1..] == rest;
    }
  }

  lemma UniqueCons(f: Field, fs: seq<Field>)
    requires UniqueNames(f.fields) && UniqueNames(fs) && forall g <- fs :: g.name != f.name
    ensures UniqueNames([f] + fs)
  {
    var all := [f] + fs;
    forall i, j | 0 <= i < j < |all| ensures all[i].name != all[j].name {
      assert all[j] == fs[j - 1] && fs[j - 1] in fs;
      assert i > 0 ==> all[i] == fs[i - 1];
    }
    forall i | 0 <= i < |all| ensures UniqueNames(all[i].fields) {
      assert i > 0 ==> all[i] == fs[i - 1];
    }
  }

  lemma {:induction false} WithoutUnique(fs: seq<Field>, name: string)
    requires UniqueNames(fs)
    ensures UniqueNames(Without(fs, name))
    ensures forall g <- Without(fs, name) :: g in fs && g.name != name
  {
    if fs != [] {
      var rest := fs[1..];
      assert UniqueNames(rest);
      WithoutUnique(rest, name);
      assert forall g <- rest :: g.name != fs[0].name;
      if fs[0].name != name {
        UniqueCons(fs[0], Without(rest, name));
      }
    }
  }

  lemma {:induction false} FirstIsUnique(fs: seq<Field>)
    ensures UniqueNames(FirstSiblings(fs))
    decreases fs
  {
    if fs != [] {
      FirstIsUnique(fs[0].fields);
      FirstIsUnique(fs[1..]);
      WithoutUnique(FirstSiblings(fs[1..]), fs[0].name);
      UniqueCons(Pruned(fs[0]), Without(FirstSiblings(fs[1..]), fs[0].name));
    }
  }

  lemma {:induction false} WithoutAbsent(fs: seq<Field>, name: string)
    requires forall f <- fs :: f.name != name
    ensures Without(fs, name) == fs
  {
    if fs != [] {
      WithoutAbsent(fs[1..], name);
      assert [fs[0]] + fs[1..] == fs;
    }
  }

  /** Nothing is pruned where names are unique. */
  lemma {:induction false} UniqueIsWhole(fs: seq<Field>)
    requires UniqueNames(fs)
    ensures FirstSiblings(fs) == fs
    decreases fs
  {
    if fs != [] {
      UniqueIsWhole(fs[0].fields);
      UniqueIsWhole(fs[1..]);
      WithoutAbsent(fs[1..], fs[0].name);
      assert [fs[0]] + fs[1..] == fs;
    }
  }

  lemma {:induction false} LookupsSeeFirst(fs: seq<Field>, k: string, p: Path)
    ensures CanConcat(FirstSiblings(fs), k, p) == CanConcat(fs, k, p)
    ensures GetField(FirstSiblings(fs), p) == GetField(fs, p)
    ensures HasNode(FirstSiblings(fs), p) == HasNode(fs, p)
    decreases |p|
  {
    if p != [] {
      FindFirst(fs, p[0]);
      var f := Find(fs, p[0]);
      if f.Some? {
        LookupsSeeFirst(f.value.fields, k, p[1..]);
      }
    }
  }

  /** GetField finds exactly the leaves of the tree that lookups see. */
  lemma GetFieldIff(fs: seq<Field>, p: Path, f: Field)
    ensures GetField(fs, p) == Some(f) <==> Defines(FirstSiblings(fs), p, f) && f.fields == []
  {
    FirstIsUnique(fs);
    LookupsSeeFirst(fs, "", p);
    GetFieldOfUnique(FirstSiblings(fs), p, f);
  }

  lemma HasKeyIffLeaf(fs: seq<Field>, p: Path)
    ensures HasKey(fs, p) <==> Leaf(FirstSiblings(fs), p)
  {
    FirstIsUnique(fs);
    LookupsSeeFirst(fs, "", p);
    HasKeyIsGetField(fs, p);
    HasKeyIsGetField(FirstSiblings(fs), p);
    HasKeyOfUnique(FirstSiblings(fs), p);
  }

  /** HasNode also accepts everything below a leaf. */
  lemma HasNodeIff(fs: seq<Field>, p: Path)
    ensures HasNode(fs, p) <==> Node(FirstSiblings(fs), p) || exists f :: LeafBefore(FirstSiblings(fs), p, f)
  {
    FirstIsUnique(fs);
    LookupsSeeFirst(fs, "", p);
    HasNodeOfUnique(FirstSiblings(fs), p);
  }

  lemma ContainsIffNode(fs: seq<Field>, k: string, p: Path)
    ensures CanConcat(fs, k, p) == Some(Contains(k)) <==> Node(FirstSiblings(fs), p)
  {
    FirstIsUnique(fs);
    LookupsSeeFirst(fs, k, p);
    ContainsOfUnique(FirstSiblings(fs), k, p);
  }

  lemma NotAnObjectIff(fs: seq<Field>, k: string, p: Path)
    ensures CanConcat(fs, k, p) == Some(NotAnObject(k)) <==> UnderLeaf(FirstSiblings(fs), p)
  {
    FirstIsUnique(fs);
    LookupsSeeFirst(fs, k, p);
    NotAnObjectOfUnique(FirstSiblings(fs), k, p);
  }

  // ---------- concatenation ----------

  function ConflictWith(a: seq<Field>, k: string): Option<Conflict> {
    CanConcat(a, k, Split(k))
  }

  function ConflictsOn(a: seq<Field>, keys: seq<string>): seq<Conflict> {
    if keys == [] then []
    else
      var init := ConflictsOn(a, keys[..|keys| - 1]);
      var last := ConflictWith(a, keys[|keys| - 1]);
      if last.Some? then init + [last.value] else init
  }

  function Concat(a: seq<Field>, b: seq<Field>): Result<seq<Field>, seq<Conflict>> {
    if b == [] then Ok(a)
    else if a == [] then Ok(b)
    else
      var errors := ConflictsOn(a, Keys(b, ""));
      if errors != [] then Err(errors) else Ok(a + b)
  }

  method Conflicts(a: seq<Field>, b: seq<Field>) returns (errors: seq<Conflict>)
    ensures errors == ConflictsOn(a, Keys(b, ""))
  {
    var keys := GetKeys(b, "");
    errors := [];
    for i := 0 to |keys|
      invariant errors == ConflictsOn(a, keys[..i])
    {
      var conflict := CanConcat(a, keys[i], Split(keys[i]));
      assert keys[..i + 1][..i] == keys[..i];
      if conflict.Some? {
        errors := errors + [conflict.value];
      }
    }
    assert keys[..|keys|] == keys;
  }

  method ConcatFields(a: seq<Field>, b: seq<Field>) returns (r: Result<seq<Field>, seq<Conflict>>)
    ensures r == Concat(a, b)
  {
    if |b| == 0 {
      return Ok(a);
    }
    if |a| == 0 {
      return Ok(b);
    }
    var errors := Conflicts(a, b);
    return if errors != [] then Err(errors) else Ok(a + b);
  }

  lemma {:induction false} NoConflictsIff(a: seq<Field>, keys: seq<string>)
    ensures ConflictsOn(a, keys) == [] <==> forall k <- keys :: ConflictWith(a, k).None?
  {
    if keys != [] {
      var init, last := keys[..|keys| - 1], keys[|keys| - 1];
      NoConflictsIff(a, init);
      assert keys == init + [last];
      assert forall k :: k in keys <==> k in init || k == last;
    }
  }

  lemma {:induction false} ConflictKinds(fs: seq<Field>, k: string, p: Path)
    ensures CanConcat(fs, k, p) in {None, Some(Contains(k)), Some(NotAnObject(k))}
    decreases |p|
  {
    if p != [] && Find(fs, p[0]).Some? {
      ConflictKinds(Find(fs, p[0]).value.fields, k, p[1..]);
    }
  }

  lemma ConflictIffBlocked(a: seq<Field>, k: string)
    ensures ConflictWith(a, k).Some? <==> Blocked(FirstSiblings(a), Split(k))
  {
    ConflictKinds(a, k, Split(k));
    ContainsIffNode(a, k, Split(k));
    NotAnObjectIff(a, k, Split(k));
  }

  /** The key is neither a node nor below a leaf that is not an object, in the tree that lookups see. */
  ghost predicate Fits(a: seq<Field>, k: string) {
    !Blocked(FirstSiblings(a), Split(k))
  }

  /** A concatenation succeeds exactly when every key of the second list fits the first. */
  lemma ConcatSucceedsIff(a: seq<Field>, b: seq<Field>)
    requires a != [] && b != []
    ensures Concat(a, b).Ok? <==> forall k <- Keys(b, "") :: Fits(a, k)
  {
    var keys := Keys(b, "");
    NoConflictsIff(a, keys);
    if Concat(a, b).Ok? {
      forall k | k in keys ensures Fits(a, k) {
        ConflictIffBlocked(a, k);
      }
    }
    if forall k <- keys :: Fits(a, k) {
      forall k | k in keys ensures ConflictWith(a, k).None? {
        assert Fits(a, k);
        ConflictIffBlocked(a, k);
      }
    }
  }

  // ---------- disjoint keys ----------

  ghost predicate Disjoint(a: seq<Field>, b: seq<Field>) {
    forall k <- Keys(a, "") :: k !in Keys(b, "")
  }

  /** Every key of the list is a node, or below a leaf that is not an object, in the tree that lookups see. */
  ghost predicate Guarded(a: seq<Field>) {
    forall k <- Keys(a, "") :: !Fits(a, k)
  }

  lemma KeyOfOne(k: string)
    ensures Keys([Field(k, "", "", [])], "") == [k]
  {
    assert [Field(k, "", "", [])][1..] == [];
  }

  /** Success means disjoint keys, for every second list, exactly when the first list is guarded. */
  lemma DisjointIffGuarded(a: seq<Field>)
    ensures (forall b :: Concat(a, b).Ok? ==> Disjoint(a, b)) <==> Guarded(a)
  {
    if Guarded(a) {
      forall b | Concat(a, b).Ok? ensures Disjoint(a, b) {
        GuardedKeepsApart(a, b);
      }
    } else {
      var k :| k in Keys(a, "") && Fits(a, k);
      var b := [Field(k, "", "", [])];
      KeyOfOne(k);
      if a != [] {
        ConcatSucceedsIff(a, b);
      }
      assert Concat(a, b).Ok? && !Disjoint(a, b);
    }
  }

  lemma GuardedKeepsApart(a: seq<Field>, b: seq<Field>)
    requires Guarded(a) && Concat(a, b).Ok?
    ensures Disjoint(a, b)
  {
    if a != [] && b != [] {
      ConcatSucceedsIff(a, b);
      assert forall k <- Keys(b, "") :: Fits(a, k);
    }
  }

  lemma UnderJoin(space: string, name: string, p: Path)
    requires name != "" && p != []
    ensures Under(Under(space, name), Join(p)) == Under(space, Join([name] + p))
  {
    assert ([name] + p)[1..] == p;
  }

  lemma {:induction false} KeyIsLeaf(fs: seq<Field>, space: string, k: string) returns (p: Path)
    requires Plain(fs) && k in Keys(fs, space)
    ensures p != [] && AllDotFree(p) && k == Under(space, Join(p)) && Leaf(fs, p)
    decreases fs
  {
    var f := fs[0];
    if k in KeysOf(f, space) {
      p := [f.name];
      if f.fields == [] {
        assert Defines(fs, p, f);
      } else {
        var below := KeyIsLeaf(f.fields, Under(space, f.name), k);
        UnderJoin(space, f.name, below);
        p := [f.name] + below;
        assert p[1..] == below;
        var g :| Defines(f.fields, below, g) && g.fields == [];
        assert Defines(fs, p, g);
      }
    } else {
      p := KeyIsLeaf(fs[1..], space, k);
      var g :| Defines(fs[1..], p, g) && g.fields == [];
      DefinesInTail(fs, p, g);
    }
  }

  lemma DefinesInTail(fs: seq<Field>, p: Path, f: Field)
    requires fs != [] && Defines(fs[1..], p, f)
    ensures Defines(fs, p, f)
  {
    var g :| g in fs[1..] && g.name == p[0] && (if |p| == 1 then g == f else Defines(g.fields, p[1..], f));
    assert g in fs;
  }

  lemma KeyIsLeafPath(fs: seq<Field>, k: string)
    requires Plain(fs) && k in Keys(fs, "")
    ensures Leaf(fs, Split(k))
  {
    var p := KeyIsLeaf(fs, "", k);
    SplitOfJoin(p);
  }

  /** Unique, plain names make a list guarded. */
  lemma PlainIsGuarded(a: seq<Field>)
    requires UniqueNames(a) && Plain(a)
    ensures Guarded(a)
  {
    UniqueIsWhole(a);
    forall k | k in Keys(a, "") ensures !Fits(a, k) {
      KeyIsLeafPath(a, k);
      var f :| Defines(a, Split(k), f) && f.fields == [];
      assert Node(a, Split(k));
    }
  }

  /** So a successful concatenation has the keys of both lists in order, and they share none. */
  lemma ConcatKeepsKeys(a: seq<Field>, b: seq<Field>)
    requires Guarded(a) && Concat(a, b).Ok?
    ensures Keys(Concat(a, b).value, "") == Keys(a, "") + Keys(b, "") && Disjoint(a, b)
  {
    DisjointIffGuarded(a);
    KeysOfConcat(a, b, "");
    assert a == [] ==> a + b == b;
    assert b == [] ==> a + b == a;
  }

  /** HasKey and GetKeys agree. */
  lemma HasKeyIffListed(fs: seq<Field>, k: string)
    requires UniqueNames(fs) && Plain(fs)
    ensures HasKey(fs, Split(k)) <==> k in Keys(fs, "")
  {
    if k in Keys(fs, "") {
      KeyIsLeafPath(fs, k);
      HasKeyOfUnique(fs, Split(k));
    }
    if HasKey(fs, Split(k)) {
      HasKeyIsListed(fs, "", Split(k));
      JoinOfSplit(k);
    }
  }

  lemma {:induction false} KeysOfMember(fs: seq<Field>, f: Field, space: string, k: string)
    requires f in fs && k in KeysOf(f, space)
    ensures k in Keys(fs, space)
    decreases fs
  {
    if f != fs[0] {
      KeysOfMember(fs[1..], f, space, k);
    }
  }

  lemma {:induction false} HasKeyIsListed(fs: seq<Field>, space: string, p: Path)
    requires Plain(fs) && HasKey(fs, p)
    ensures Under(space, Join(p)) in Keys(fs, space)
    decreases |p|
  {
    var f := Find(fs, p[0]).value;
    if f.fields != [] {
      HasKeyIsListed(f.fields, Under(space, f.name), p[1..]);
      assert Under(Under(space, f.name), Join(p[1..])) == Under(space, Join(p));
    }
    KeysOfMember(fs, f, space, Under(space, Join(p)));
  }

  // ---------- where the promise fails ----------

  /** A name with a dot is listed as a key that its own list does not recognise. */
  lemma DottedNamesMiss()
    ensures var a := [Field("x.y", "", "", [])]; Concat(a, a).Ok? && !Disjoint(a, a)
  {
    var f := Field("x.y", "", "", []);
    KeyOfOne("x.y");
    assert "x.y" in ["x.y"];
    assert Split("x.y") == ["x", "y"] by {
      SplitOfJoin(["x", "y"]);
    }
    assert Find([f][1..], "x").None?;
    NoConflictsIff([f], ["x.y"]);
  }

  lemma ObjectLeafAllows(f: Field, k: string)
    requires f.typ == "object" && f.fields == [] && k != f.name
    ensures ConflictWith([f], k).None?
  {
    JoinOfSplit(k);
    var p := Split(k);
    assert p != [f.name];
    assert [f][1..] == [];
    assert CanConcat([], k, p[1..]).None?;
    assert |p| == 1 ==> p == [p[0]];
  }

  /** A histogram lists keys that no lookup finds: it can be joined with a list that defines one of them. */
  lemma HistogramsMiss(h: string, b: seq<Field>)
    requires Keys(b, "") == [h + ".values"]
    ensures var a := [Field(h, "object", "histogram", [])];
            UniqueNames(a) && Concat(a, b).Ok? && !Disjoint(a, b)
  {
    var f, k := Field(h, "object", "histogram", []), h + ".values";
    ObjectLeafAllows(f, k);
    NoConflictsIff([f], Keys(b, ""));
    assert [f][1..] == [] && Keys([f], "") == KeysOf(f, "") + [];
    assert KeysOf(f, "")[1] == k;
    assert k in Keys([f], "") && k in [k];
  }

  function Pair(x: string, y: string): seq<Field> {
    [Field(x, "", "", [Field(y, "", "", [])])]
  }

  lemma KeyOfPair(x: string, y: string)
    requires x != "" && DotFree(x) && DotFree(y)
    ensures Keys(Pair(x, y), "") == [x + "." + y] && Split(x + "." + y) == [x, y]
  {
    var f := Field(y, "", "", []);
    assert [f][1..] == [] && Pair(x, y)[1..] == [];
    assert KeysOf(f, x) == [x + "." + y] + [];
    assert Keys([f], x) == [x + "." + y] + [];
    assert KeysOf(Pair(x, y)[0], "") == Keys([f], x) + [];
    SplitAtDot(x, y);
    SplitOfPart(x);
    SplitOfPart(y);
  }

  /** The first sibling of a name hides the later ones. */
  lemma PairMisses(x: string, y: string, z: string, more: seq<Field>)
    requires x != "" && DotFree(x) && DotFree(z) && y != z
    ensures ConflictWith(Pair(x, y) + more, x + "." + z).None?
  {
    KeyOfPair(x, z);
    var fs := Pair(x, y) + more;
    assert Find(fs, x) == Some(Pair(x, y)[0]);
    var below, k := Pair(x, y)[0].fields, x + "." + z;
    assert below[1..] == [];
    assert CanConcat(below, k, [z]).None?;
    assert [x, z][1..] == [z];
    assert CanConcat(fs, k, [x, z]) == CanConcat(below, k, [z]);
  }

  /** Joining lists that fit can leave two siblings of one name, and a third list then repeats a key unseen. */
  lemma ChainsMiss(x: string, y: string, z: string)
    requires x != "" && DotFree(x) && DotFree(y) && DotFree(z) && y != z
    ensures Concat(Pair(x, y), Pair(x, z)) == Ok(Pair(x, y) + Pair(x, z))
    ensures Concat(Pair(x, y) + Pair(x, z), Pair(x, z)).Ok? && !Disjoint(Pair(x, y) + Pair(x, z), Pair(x, z))
  {
    var a, b, k := Pair(x, y), Pair(x, z), x + "." + z;
    KeyOfPair(x, z);
    assert a + [] == a;
    PairMisses(x, y, z, []);
    PairMisses(x, y, z, b);
    NoConflictsIff(a, [k]);
    NoConflictsIff(a + b, [k]);
    KeysOfConcat(a, b, "");
    assert k in [k];
    assert k in Keys(a + b, "");
  }
}
