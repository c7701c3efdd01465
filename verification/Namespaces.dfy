/**
The trie of registered processors.  A namespace maps each first component of a dotted name to a plugin or to another
namespace, which holds the rest of the name.
*/
module Namespaces {
  import opened Names
  import opened Options

  datatype Constructor = Constructor(id: nat)

  /** A dot-free part of a name. */
  datatype Word = Word(text: string)

  type Path = seq<Word>

  type Plugins = map<Path, Constructor>

  /** One of the paths is a prefix of the other. */
  predicate Clash(p: Path, q: Path) {
    p <= q || q <= p
  }

  predicate Free(plugins: Plugins, p: Path) {
    forall q <- plugins :: !Clash(p, q)
  }

  predicate PrefixFree(plugins: Plugins) {
    forall p, q | p in plugins && q in plugins :: p <= q ==> p == q
  }

  // ---------- one level of the trie ----------

  /** What stands under a first component: a plugin, or a namespace with the names registered in it. */
  datatype Slot = Leaf(c: Constructor) | Inner(plugins: Plugins)

  type Level = map<Word, Slot>

  predicate Holds(level: Level, p: Path) {
    && p != []
    && p[0] in level
    && if level[p[0]].Leaf? then |p| == 1 else p[1..] in level[p[0]].plugins
  }

  function At(level: Level, p: Path): Constructor
    requires Holds(level, p)
  {
    if level[p[0]].Leaf? then level[p[0]].c else level[p[0]].plugins[p[1..]]
  }

  ghost predicate Represents(level: Level, plugins: Plugins) {
    && (forall p {:trigger Holds(level, p)} :: p in plugins <==> Holds(level, p))
    && (forall p {:trigger Holds(level, p)} :: p in plugins ==> plugins[p] == At(level, p))
  }

  predicate NoneEmpty(level: Level) {
    forall n <- level :: level[n].Inner? ==> level[n].plugins != map[]
  }

  lemma TakenBlocks(level: Level, plugins: Plugins, name: Word)
    requires Represents(level, plugins) && NoneEmpty(level) && name in level
    ensures !Free(plugins, [name])
  {
    if level[name].Leaf? {
      assert Holds(level, [name]);
      assert Clash([name], [name]);
    } else {
      var r :| r in level[name].plugins;
      var q := [name] + r;
      assert q[1..] == r && Holds(level, q);
      assert Clash([name], q);
    }
  }

  lemma LeafBlocks(level: Level, plugins: Plugins, p: Path)
    requires Represents(level, plugins) && p != [] && p[0] in level && level[p[0]].Leaf?
    ensures !Free(plugins, p)
  {
    assert Holds(level, [p[0]]);
    assert [p[0]] <= p;
    assert Clash(p, [p[0]]);
  }

  lemma UntakenIsFree(level: Level, plugins: Plugins, p: Path)
    requires Represents(level, plugins) && p != [] && p[0] !in level
    ensures Free(plugins, p)
  {
    forall q | q in plugins ensures !Clash(p, q) {
      assert Holds(level, q);
    }
  }

  lemma ClashBelow(n: Word, p: Path, q: Path)
    ensures Clash([n] + p, [n] + q) <==> Clash(p, q)
  {
    assert ([n] + p)[1..] == p && ([n] + q)[1..] == q;
    if [n] + p <= [n] + q {
      assert p == q[..|p|];
    }
    if [n] + q <= [n] + p {
      assert q == p[..|q|];
    }
  }

  lemma FreeBelow(level: Level, plugins: Plugins, p: Path)
    requires Represents(level, plugins) && p != [] && p[0] in level && level[p[0]].Inner?
    ensures Free(plugins, p) <==> Free(level[p[0]].plugins, p[1..])
  {
    var n, below := p[0], level[p[0]].plugins;
    assert p == [n] + p[1..];
    forall q | q in plugins && Clash(p, q) ensures !Free(below, p[1..]) {
      assert Holds(level, q);
      assert q == [n] + q[1..];
      ClashBelow(n, p[1..], q[1..]);
      assert q[1..] in below;
    }
    forall r | r in below && Clash(p[1..], r) ensures !Free(plugins, p) {
      var q := [n] + r;
      assert q[1..] == r && Holds(level, q);
      ClashBelow(n, p[1..], r);
    }
  }

  lemma WithLeaf(level: Level, plugins: Plugins, name: Word, c: Constructor)
    requires Represents(level, plugins) && NoneEmpty(level) && name !in level
    ensures Represents(level[name := Leaf(c)], plugins[[name] := c]) && NoneEmpty(level[name := Leaf(c)])
  {
    var next, more := level[name := Leaf(c)], plugins[[name] := c];
    forall p ensures p in more <==> Holds(next, p) {
      if p != [] && p[0] == name {
        assert !Holds(level, p);
        assert |p| == 1 ==> p == [name];
      } else {
        assert Holds(level, p) <==> Holds(next, p);
      }
    }
    forall p | p in more ensures more[p] == At(next, p) {
      assert p != [name] ==> Holds(level, p);
    }
  }

  /** The names under a first component; none when nothing stands there. */
  function Under(level: Level, n: Word): Plugins {
    if n in level && level[n].Inner? then level[n].plugins else map[]
  }

  lemma WithInner(level: Level, plugins: Plugins, p: Path, c: Constructor)
    requires Represents(level, plugins) && NoneEmpty(level) && p != [] && (p[0] in level ==> level[p[0]].Inner?)
    ensures var next := level[p[0] := Inner(Under(level, p[0])[p[1..] := c])];
            Represents(next, plugins[p := c]) && NoneEmpty(next)
  {
    var below := Under(level, p[0]);
    var next, more := level[p[0] := Inner(below[p[1..] := c])], plugins[p := c];
    forall q ensures q in more <==> Holds(next, q) {
      WithInnerAt(level, plugins, p, c, q);
    }
    forall q | q in more ensures more[q] == At(next, q) {
      WithInnerAt(level, plugins, p, c, q);
    }
    assert p[1..] in next[p[0]].plugins;
  }

  lemma WithInnerAt(level: Level, plugins: Plugins, p: Path, c: Constructor, q: Path)
    requires Represents(level, plugins) && p != [] && (p[0] in level ==> level[p[0]].Inner?)
    ensures var next := level[p[0] := Inner(Under(level, p[0])[p[1..] := c])];
            && (q in plugins[p := c] <==> Holds(next, q))
            && (q in plugins[p := c] ==> plugins[p := c][q] == At(next, q))
  {
    assert q in plugins <==> Holds(level, q);
    if q != [] && q[0] == p[0] && q[1..] == p[1..] {
      assert q == [q[0]] + q[1..] == [p[0]] + p[1..] == p;
    }
  }

  lemma LevelPrefixFree(level: Level, plugins: Plugins)
    requires Represents(level, plugins) && forall n <- level :: level[n].Inner? ==> PrefixFree(level[n].plugins)
    ensures PrefixFree(plugins)
  {
    forall p, q | p in plugins && q in plugins && p <= q ensures p == q {
      assert Holds(level, p) && Holds(level, q);
      var n := p[0];
      assert p == [n] + p[1..] && q == [n] + q[1..];
      if level[n].Inner? {
        assert p[1..] <= q[1..];
      }
    }
  }

  // ---------- dotted names ----------

  function Words(parts: seq<string>): (path: Path)
    ensures |path| == |parts|
  {
    seq(|parts|, i requires 0 <= i < |parts| => Word(parts[i]))
  }

  function PathOf(name: string): (path: Path)
    ensures path != []
  {
    Words(Split(name))
  }

  lemma PrefixOfWords(p: seq<string>, q: seq<string>)
    ensures Words(p) <= Words(q) <==> p <= q
  {
    if Words(p) <= Words(q) {
      forall i | 0 <= i < |p| ensures p[i] == q[i] {
        assert Words(p)[i] == Words(q)[i];
      }
    }
  }

  /** Names clash when they are the same or one is a dotted prefix of the other. */
  lemma ClashOfNames(a: string, b: string)
    ensures Clash(PathOf(a), PathOf(b)) <==> a == b || a + "." <= b || b + "." <= a
    ensures PathOf(a) == PathOf(b) ==> a == b
  {
    PrefixOfWords(Split(a), Split(b));
    PrefixOfWords(Split(b), Split(a));
    PrefixOfSplit(a, b);
    PrefixOfSplit(b, a);
    if PathOf(a) == PathOf(b) {
      assert Split(a) <= Split(b) && Split(b) <= Split(a);
      JoinOfSplit(a);
      JoinOfSplit(b);
    }
  }

  // ---------- configurations that pick a processor ----------

  /** The names a configuration sets, and the ones of them that hold a configuration. */
  datatype Config = Config(fields: seq<Word>, children: map<Word, Config>)

  datatype Failure = TooMany | NoneConfigured | Unknown | NoChild

  predicate Ignored(w: Word) {
    w.text == "when"
  }

  /** `fields[i]` is the one section; an empty name before it is overwritten. */
  predicate Picks(fields: seq<Word>, i: int) {
    && 0 <= i < |fields|
    && !Ignored(fields[i]) && fields[i].text != ""
    && (forall j | 0 <= j < i :: Ignored(fields[j]) || fields[j].text == "")
    && (forall j | i < j < |fields| :: Ignored(fields[j]))
  }

  /** The configuration picks the components of `p` one inside the other, down to `rest`. */
  ghost predicate Leads(cfg: Config, p: Path, rest: Config)
    decreases |p|
  {
    if p == [] then rest == cfg
    else
      && (exists i :: Picks(cfg.fields, i) && cfg.fields[i] == p[0])
      && p[0] in cfg.children
      && Leads(cfg.children[p[0]], p[1..], rest)
  }

  lemma {:induction false} LeadsClash(cfg: Config, p: Path, q: Path, restP: Config, restQ: Config)
    requires Leads(cfg, p, restP) && Leads(cfg, q, restQ)
    ensures Clash(p, q) && (p == q ==> restP == restQ)
    decreases |p|
  {
    if p != [] && q != [] {
      var i :| Picks(cfg.fields, i) && cfg.fields[i] == p[0];
      var j :| Picks(cfg.fields, j) && cfg.fields[j] == q[0];
      assert i == j;
      LeadsClash(cfg.children[p[0]], p[1..], q[1..], restP, restQ);
      ClashBelow(p[0], p[1..], q[1..]);
      assert p == [p[0]] + p[1..] && q == [p[0]] + q[1..];
    }
  }

  /** The configuration leads to a name registered with `c`. */
  ghost predicate Found(plugins: Plugins, cfg: Config, c: Constructor, rest: Config) {
    exists p :: p in plugins && plugins[p] == c && Leads(cfg, p, rest)
  }

  /** A configuration names at most one processor. */
  lemma FoundOnce(plugins: Plugins, cfg: Config, c: Constructor, rest: Config, d: Constructor, other: Config)
    requires PrefixFree(plugins) && Found(plugins, cfg, c, rest) && Found(plugins, cfg, d, other)
    ensures c == d && rest == other
  {
    var p :| p in plugins && plugins[p] == c && Leads(cfg, p, rest);
    var q :| q in plugins && plugins[q] == d && Leads(cfg, q, other);
    LeadsClash(cfg, p, q, rest, other);
  }

  lemma FoundBelow(level: Level, plugins: Plugins, cfg: Config, n: Word, c: Constructor, rest: Config)
    requires Represents(level, plugins) && (exists i :: Picks(cfg.fields, i) && cfg.fields[i] == n)
    ensures Found(plugins, cfg, c, rest) <==>
            && n in level && n in cfg.children
            && if level[n].Leaf? then c == level[n].c && rest == cfg.children[n]
               else Found(level[n].plugins, cfg.children[n], c, rest)
  {
    if Found(plugins, cfg, c, rest) {
      var p :| p in plugins && plugins[p] == c && Leads(cfg, p, rest);
      LeadsDown(level, plugins, cfg, n, p, rest);
    }
    if n in level && n in cfg.children {
      if level[n].Leaf? {
        LeadsUp(level, plugins, cfg, n, [], cfg.children[n]);
      } else if Found(level[n].plugins, cfg.children[n], c, rest) {
        var p :| p in level[n].plugins && level[n].plugins[p] == c && Leads(cfg.children[n], p, rest);
        LeadsUp(level, plugins, cfg, n, p, rest);
      }
    }
  }

  lemma LeadsDown(level: Level, plugins: Plugins, cfg: Config, n: Word, p: Path, rest: Config)
    requires Represents(level, plugins) && (exists i :: Picks(cfg.fields, i) && cfg.fields[i] == n)
    requires p in plugins && Leads(cfg, p, rest)
    ensures p != [] && p[0] == n && n in level && n in cfg.children && plugins[p] == At(level, p)
    ensures if level[n].Leaf? then rest == cfg.children[n]
            else p[1..] in level[n].plugins && Leads(cfg.children[n], p[1..], rest)
  {
    assert Holds(level, p);
    var i :| Picks(cfg.fields, i) && cfg.fields[i] == n;
    var j :| Picks(cfg.fields, j) && cfg.fields[j] == p[0];
    assert i == j;
  }

  lemma LeadsUp(level: Level, plugins: Plugins, cfg: Config, n: Word, p: Path, rest: Config)
    requires Represents(level, plugins) && (exists i :: Picks(cfg.fields, i) && cfg.fields[i] == n)
    requires n in level && n in cfg.children && Leads(cfg.children[n], p, rest)
    requires if level[n].Leaf? then p == [] else p in level[n].plugins
    ensures [n] + p in plugins && Leads(cfg, [n] + p, rest)
    ensures plugins[[n] + p] == if level[n].Leaf? then level[n].c else level[n].plugins[p]
  {
    assert ([n] + p)[1..] == p;
    assert Holds(level, [n] + p);
  }

  lemma FoundNothing(level: Level, plugins: Plugins, cfg: Config, c: Constructor, rest: Config)
    requires Represents(level, plugins) && forall i :: !Picks(cfg.fields, i)
    ensures !Found(plugins, cfg, c, rest)
  {
    assert !Holds(level, []);
  }

  method Section(fields: seq<Word>) returns (r: Result<Word, Failure>)
    ensures r.Ok? ==> exists i :: Picks(fields, i) && fields[i] == r.value
    ensures r.Err? ==> forall i :: !Picks(fields, i)
  {
    var section, at := Word(""), 0;
    for i := 0 to |fields|
      invariant section.text == "" ==> forall j | 0 <= j < i :: Ignored(fields[j]) || fields[j].text == ""
      invariant section.text != "" ==> 0 <= at < i && Picks(fields[..i], at) && fields[at] == section
    {
      if Ignored(fields[i]) {
        continue;
      }
      if section.text != "" {
        return Err(TooMany);
      }
      section, at := fields[i], i;
    }
    assert fields[..|fields|] == fields;
    return if section.text == "" then Err(NoneConfigured) else Ok(section);
  }

  // ---------- the trie ----------

  datatype Entry = Plugin(c: Constructor) | Sub(space: Namespace)

  class Namespace {
    var reg: map<Word, Entry>

    /** The registered names, by their components. */
    ghost var plugins: Plugins
    ghost var Repr: set<Namespace>

    ghost predicate Valid()
      reads this, Repr
      decreases Repr
    {
      && Owns(Repr)
      && (forall n <- reg :: reg[n].Sub? ==> reg[n].space.Valid())
      && Represents(Level(Repr), plugins)
      && NoneEmpty(Level(Repr))
    }

    /** The namespaces below lie in `all`, not around this one and apart from each other. */
    ghost predicate Owns(all: set<Namespace>)
      reads this, all
    {
      && this in all
      && (forall n <- reg :: reg[n].Sub? ==> reg[n].space in all && reg[n].space != this)
      && (forall n <- reg :: reg[n].Sub? ==> this !in reg[n].space.Repr && reg[n].space.Repr <= all)
      && (forall m, n | m in reg && n in reg && m != n && reg[m].Sub? && reg[n].Sub? ::
            reg[m].space.Repr !! reg[n].space.Repr)
    }

    ghost function Level(all: set<Namespace>): (level: Level)
      requires Owns(all)
      reads this, all
    {
      map n | n in reg :: if reg[n].Plugin? then Leaf(reg[n].c) else Inner(reg[n].space.plugins)
    }

    ghost method Settle(all: set<Namespace>, more: Plugins)
      requires Owns(all) && Represents(Level(all), more) && NoneEmpty(Level(all))
      requires forall n <- reg :: reg[n].Sub? ==> reg[n].space.Valid()
      modifies this
      ensures Valid() && reg == old(reg) && Repr == all && plugins == more
    {
      Repr, plugins := all, more;
      assert Owns(all);
      assert Level(all) == old(Level(all));
    }

    constructor ()
      ensures Valid() && fresh(Repr) && plugins == map[]
    {
      reg, plugins, Repr := map[], map[], {this};
    }

    lemma RegisteredPrefixFree()
      requires Valid()
      ensures PrefixFree(plugins)
      decreases Repr
    {
      forall n | n in reg && reg[n].Sub? {
        reg[n].space.RegisteredPrefixFree();
      }
      LevelPrefixFree(Level(Repr), plugins);
    }

    method Register(name: string, c: Constructor) returns (ok: bool)
      requires Valid()
      modifies Repr
      ensures Valid() && fresh(Repr - old(Repr))
      ensures ok <==> Free(old(plugins), PathOf(name))
      ensures ok ==> plugins == old(plugins)[PathOf(name) := c]
      ensures !ok ==> forall o <- old(Repr) :: unchanged(o)
    {
      ok := Add(PathOf(name), c);
    }

    /** Follows a configuration through the namespaces to the constructor it names and the configuration for it. */
    method Resolve(cfg: Config) returns (r: Result<(Constructor, Config), Failure>)
      requires Valid()
      ensures r.Ok? ==> Found(plugins, cfg, r.value.0, r.value.1)
      ensures r.Err? ==> forall c, rest :: !Found(plugins, cfg, c, rest)
      decreases Repr
    {
      var section := Section(cfg.fields);
      if section.Err? {
        forall c, rest {
          FoundNothing(Level(Repr), plugins, cfg, c, rest);
        }
        return Err(section.error);
      }
      var n := section.value;
      forall c, rest {
        FoundBelow(Level(Repr), plugins, cfg, n, c, rest);
      }
      if n !in reg {
        return Err(Unknown);
      }
      if n !in cfg.children {
        return Err(NoChild);
      }
      if reg[n].Plugin? {
        return Ok((reg[n].c, cfg.children[n]));
      }
      r := reg[n].space.Resolve(cfg.children[n]);
    }

    /** Succeeds exactly when no registered name equals, is a prefix of, or extends the new one. */
    method Add(names: Path, c: Constructor) returns (ok: bool)
      requires Valid() && names != []
      modifies Repr
      ensures Valid() && fresh(Repr - old(Repr))
      ensures ok <==> Free(old(plugins), names)
      ensures ok ==> plugins == old(plugins)[names := c]
      ensures !ok ==> forall o <- old(Repr) :: unchanged(o)
      decreases |names|, 1, 0
    {
      var name := names[0];
      if |names| == 1 {
        assert names == [name];
        if name in reg {
          TakenBlocks(Level(Repr), plugins, name);
          return false;
        }
        AddPlugin(name, c);
        return true;
      }
      if name in reg {
        if reg[name].Plugin? {
          LeafBlocks(Level(Repr), plugins, names);
          return false;
        }
        ok := AddBelow(names, c);
        return ok;
      }
      AddNamespace(names, c);
      return true;
    }

    method AddPlugin(name: Word, c: Constructor)
      requires Valid() && name !in reg
      modifies this
      ensures Valid() && Repr == old(Repr)
      ensures Free(old(plugins), [name]) && plugins == old(plugins)[[name] := c]
    {
      ghost var level := Level(Repr);
      UntakenIsFree(level, plugins, [name]);
      WithLeaf(level, plugins, name, c);
      reg := reg[name := Plugin(c)];
      assert Owns(Repr);
      assert Level(Repr) == level[name := Leaf(c)];
      Settle(Repr, plugins[[name] := c]);
    }

    /** Goes on in the namespace that stands under the first component. */
    method AddBelow(names: Path, c: Constructor) returns (ok: bool)
      requires Valid() && |names| > 1 && names[0] in reg && reg[names[0]].Sub?
      modifies Repr
      ensures Valid() && fresh(Repr - old(Repr))
      ensures ok <==> Free(old(plugins), names)
      ensures ok ==> plugins == old(plugins)[names := c]
      ensures !ok ==> forall o <- old(Repr) :: unchanged(o)
      decreases |names|, 0, 1
    {
      FreeBelow(Level(Repr), plugins, names);
      WithInner(Level(Repr), plugins, names, c);
      ghost var all;
      ok, all := GrowBelow(names[0], names[1..], c);
      if ok {
        Settle(all, plugins[names := c]);
      }
    }

    /** The heap part of it: the namespace below grows and every other one stays as it is. */
    method GrowBelow(name: Word, rest: Path, c: Constructor) returns (ok: bool, ghost all: set<Namespace>)
      requires Valid() && name in reg && reg[name].Sub? && rest != []
      modifies Repr - {this}
      ensures ok <==> Free(old(reg[name].space.plugins), rest)
      ensures ok ==> Owns(all) && fresh(all - Repr) && forall n <- reg :: reg[n].Sub? ==> reg[n].space.Valid()
      ensures ok ==> Level(all) == old(Level(Repr))[name := Inner(old(reg[name].space.plugins)[rest := c])]
      ensures !ok ==> forall o <- old(Repr) :: unchanged(o)
      decreases |rest| + 1, 0, 0
    {
      var space := reg[name].space;
      ok := space.Add(rest, c);
      all := Repr + space.Repr;
    }

    /** Builds the rest of the name in a new namespace before it is put in. */
    method AddNamespace(names: Path, c: Constructor)
      requires Valid() && |names| > 1 && names[0] !in reg
      modifies this
      ensures Valid() && fresh(Repr - old(Repr))
      ensures Free(old(plugins), names) && plugins == old(plugins)[names := c]
      decreases |names|, 0, 1
    {
      UntakenIsFree(Level(Repr), plugins, names);
      WithInner(Level(Repr), plugins, names, c);
      var space := NewBelow(names[1..], c);
      Attach(names[0], space);
      Settle(Repr + space.Repr, plugins[names := c]);
    }

    static method NewBelow(rest: Path, c: Constructor) returns (space: Namespace)
      requires rest != []
      ensures space.Valid() && fresh(space.Repr) && space.plugins == map[rest := c]
      decreases |rest| + 1, 0, 0
    {
      space := new Namespace();
      var added := space.Add(rest, c);
      assert added;
    }

    method Attach(name: Word, space: Namespace)
      requires Valid() && name !in reg && space.Valid() && space.Repr !! Repr
      modifies `reg
      ensures Owns(Repr + space.Repr) && forall n <- reg :: reg[n].Sub? ==> reg[n].space.Valid()
      ensures Level(Repr + space.Repr) == old(Level(Repr))[name := Inner(space.plugins)]
    {
      reg := reg[name := Sub(space)];
      assert Owns(Repr + space.Repr);
    }
  }
}
