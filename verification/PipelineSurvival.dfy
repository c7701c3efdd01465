/** Which processors of a tree are dropped, and what becomes of the others, in terms of the tree alone. */
module PipelineSurvival {
  import opened Options
  import opened Pipelines
  import opened PipelineChecks
  import opened PipelineTheorems

  /** The version knows neither the processor nor a way around it; a foreach goes with its inner processor. */
  ghost predicate Deleted(v: Version, q: Value)
    decreases q
  {
    Parse(q).Ok? &&
    var p := Parse(q).value;
    Deletes(v, p.flat) || (p.flat.name.Foreach? && p.inner.Some? && Deleted(v, p.inner.value))
  }

  /** Adapting drops a processor if and only if it can be adapted at all and is deleted.  Its handlers have no say. */
  lemma {:induction false} DroppedIff(v: Version, q: Value)
    ensures AdaptOne(v, q) == Ok(None) <==> !Broken(v, q) && Deleted(v, q)
    decreases q
  {
    FailsIffBroken(v, q);
    if Parse(q).Ok? {
      var p := Parse(q).value;
      TableByType(v, p.flat);
      AdaptedOutcome(v, p.flat);
      if p.flat.name.Foreach? && p.inner.Some? { DroppedIff(v, p.inner.value); }
    }
  }

  /** The processors of a list that are not deleted, in order. */
  ghost function Kept(v: Version, ps: seq<Value>): seq<Value> {
    if ps == [] then [] else (if Deleted(v, ps[0]) then [] else [ps[0]]) + Kept(v, ps[1..])
  }

  lemma {:induction false} KeptAreThere(v: Version, ps: seq<Value>, q: Value)
    ensures q in Kept(v, ps) <==> q in ps && !Deleted(v, q)
  {
    if ps != [] {
      KeptAreThere(v, ps[1..], q);
      assert ps == [ps[0]] + ps[1..];
    }
  }

  // ---------- survivors ----------

  /**
  `r` is what becomes of `q`: its own type and options adapted, the handlers that are kept in their order, and the inner
  processor of a foreach.  The list of handlers goes exactly when all of its handlers go; an empty one stays, as nil.
  */
  ghost predicate Becomes(v: Version, q: Value, r: Value)
    decreases q
  {
    Parse(q).Ok? && Parse(r).Ok? &&
    var p, s := Parse(q).value, Parse(r).value;
    && Adapted(v, p.flat) == Ok(Some(s.flat))
    && (p.onFailure.None? ==> s.onFailure.None?)
    && (p.onFailure.Some? ==> IsList(p.onFailure.value))
    && (p.onFailure.Some? && p.onFailure.value.NilList? ==> s.onFailure == Some(NilList))
    && (p.onFailure.Some? && p.onFailure.value.List? ==>
          var items := p.onFailure.value.items;
          && (s.onFailure.None? <==> items != [] && Kept(v, items) == [])
          && (s.onFailure.Some? ==> IsList(s.onFailure.value) && s.onFailure.value != List([]))
          && (s.onFailure.Some? ==> AllBecome(v, items, Items(s.onFailure.value))))
    && (if p.flat.name.Foreach? && p.inner.Some?
        then s.inner.Some? && Becomes(v, p.inner.value, s.inner.value)
        else s.inner == p.inner)
  }

  /** The list `rs` holds what becomes of those of `ps` that are not deleted, in order. */
  ghost predicate AllBecome(v: Version, ps: seq<Value>, rs: seq<Value>)
    decreases ps
  {
    if ps == [] then rs == []
    else if Deleted(v, ps[0]) then AllBecome(v, ps[1..], rs)
    else rs != [] && Becomes(v, ps[0], rs[0]) && AllBecome(v, ps[1..], rs[1..])
  }

  /** A processor survives if and only if it is neither broken nor deleted, and becomes what it should. */
  lemma {:induction false} SurvivorBecomes(v: Version, q: Value)
    ensures var a := AdaptOne(v, q);
            && (a.Ok? && a.value.Some? <==> !Broken(v, q) && !Deleted(v, q))
            && (a.Ok? && a.value.Some? ==> Becomes(v, q, a.value.value))
    decreases q
  {
    FailsIffBroken(v, q);
    DroppedIff(v, q);
    var a := AdaptOne(v, q);
    if a.Ok? && a.value.Some? {
      var p := Parse(q).value;
      MapOfParse(q);
      TableByType(v, p.flat);
      Survivor(v, p, HandlersOf(v, p), InnerOf(v, p));
      var r := Assemble(v, p, HandlersOf(v, p), InnerOf(v, p)).value.value;
      ParseOfMap(r);
      if p.onFailure.Some? && p.onFailure.value.List? {
        SurvivorsBecome(v, p.onFailure.value.items);
      }
      if p.flat.name.Foreach? && p.inner.Some? { SurvivorBecomes(v, p.inner.value); }
    }
  }

  lemma {:induction false} SurvivorsBecome(v: Version, ps: seq<Value>)
    requires AdaptList(v, ps).Ok?
    ensures AllBecome(v, ps, AdaptList(v, ps).value) && (AdaptList(v, ps).value == [] <==> Kept(v, ps) == [])
    decreases ps
  {
    if ps != [] {
      SurvivorBecomes(v, ps[0]);
      DroppedIff(v, ps[0]);
      FailsIffBroken(v, ps[0]);
      SurvivorsBecome(v, ps[1..]);
      var first := AdaptOne(v, ps[0]);
      if first.value.Some? {
        assert ([first.value.value] + AdaptList(v, ps[1..]).value)[1..] == AdaptList(v, ps[1..]).value;
      }
    }
  }

  // ---------- the relation is a function ----------

  /** There is only one thing a processor can become, so that the above says all about it. */
  lemma {:induction false} BecomesOne(v: Version, q: Value, r: Value, s: Value)
    requires Becomes(v, q, r) && Becomes(v, q, s)
    ensures r == s
    decreases q
  {
    var p, a, b := Parse(q).value, Parse(r).value, Parse(s).value;
    MapOfParse(r);
    MapOfParse(s);
    if p.onFailure.Some? && p.onFailure.value.List? && a.onFailure.Some? {
      AllBecomeOne(v, p.onFailure.value.items, Items(a.onFailure.value), Items(b.onFailure.value));
      SameItems(a.onFailure.value, b.onFailure.value);
    }
    assert a.onFailure == b.onFailure;
    if p.flat.name.Foreach? && p.inner.Some? { BecomesOne(v, p.inner.value, a.inner.value, b.inner.value); }
    assert a == b;
  }

  lemma SameItems(a: Value, b: Value)
    requires IsList(a) && IsList(b) && a != List([]) && b != List([]) && Items(a) == Items(b)
    ensures a == b
  {
  }

  lemma {:induction false} AllBecomeOne(v: Version, ps: seq<Value>, rs: seq<Value>, ts: seq<Value>)
    requires AllBecome(v, ps, rs) && AllBecome(v, ps, ts)
    ensures rs == ts
    decreases ps
  {
    if ps != [] {
      if Deleted(v, ps[0]) {
        AllBecomeOne(v, ps[1..], rs, ts);
      } else {
        BecomesOne(v, ps[0], rs[0], ts[0]);
        AllBecomeOne(v, ps[1..], rs[1..], ts[1..]);
        assert rs == [rs[0]] + rs[1..] && ts == [ts[0]] + ts[1..];
      }
    }
  }

  // ---------- pipelines ----------

  /** The processors and the handlers of an adapted pipeline are those kept, adapted and in order. */
  lemma PipelineBecomes(v: Version, content: Fields)
    requires AdaptPipeline(v, content).Ok?
    ensures var r := AdaptPipeline(v, content).value;
            && Processors in r && Processors in content && IsList(content[Processors]) && IsList(r[Processors])
            && AllBecome(v, Items(content[Processors]), Items(r[Processors]))
            && (OnFailure in content ==>
                  && OnFailure in r && IsList(content[OnFailure]) && IsList(r[OnFailure])
                  && AllBecome(v, Items(content[OnFailure]), Items(r[OnFailure])))
  {
    SurvivorsBecome(v, Items(content[Processors]));
    var c := AdaptSection(v, content, Processors, false).value;
    if OnFailure in content { SurvivorsBecome(v, Items(c[OnFailure])); }
  }
}
