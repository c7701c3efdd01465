/** What adapting a whole pipeline does, at every depth of `on_failure` lists and `foreach` processors. */
module PipelineTheorems {
  import opened Options
  import opened Pipelines
  import opened PipelineChecks

  // ---------- parsing and printing processors ----------

  lemma OnlyKey(m: Fields, k: Word)
    requires |m| == 1 && k in m
    ensures m == map[k := m[k]]
  {
    assert |m.Keys - {k}| == 0;
  }

  lemma SplitOfConfig(p: Proc)
    requires Clean(p.flat)
    ensures Split(p.flat.name, Config(p)) == p
  {
    assert Config(p) - {OnFailure, Inner} == p.flat.options;
  }

  lemma ConfigOfSplit(name: Word, c: Fields)
    ensures Config(Split(name, c)) == c && Clean(Split(name, c).flat)
  {
  }

  lemma ParseOfMap(p: Proc)
    requires Clean(p.flat)
    ensures Parse(ToMap(p)) == Ok(p)
  {
    SplitOfConfig(p);
    var m := map[p.flat.name := Object(Config(p))];
    assert m.Keys == {p.flat.name};
  }

  lemma MapOfParse(q: Value)
    requires Parse(q).Ok?
    ensures Clean(Parse(q).value.flat) && ToMap(Parse(q).value) == q
  {
    var name :| name in q.fields && q.fields[name].Object? && Parse(q).value == Split(name, q.fields[name].fields);
    ConfigOfSplit(name, q.fields[name].fields);
    OnlyKey(q.fields, name);
  }

  // ---------- one processor, in terms of its parts ----------

  ghost function HandlersOf(v: Version, p: Proc): Result<seq<Value>, Problem> {
    if p.onFailure.None? || p.onFailure.value.NilList? then Ok([])
    else if !p.onFailure.value.List? then Err(SectionNotList)
    else AdaptList(v, p.onFailure.value.items)
  }

  ghost function InnerOf(v: Version, p: Proc): Result<Option<Value>, Problem> {
    if !p.flat.name.Foreach? || p.inner.None? then Ok(p.inner) else AdaptOne(v, p.inner.value)
  }

  lemma AdaptOneByParts(v: Version, q: Value)
    requires Parse(q).Ok?
    ensures AdaptOne(v, q) == Printed(Assemble(v, Parse(q).value, HandlersOf(v, Parse(q).value), InnerOf(v, Parse(q).value)))
  {
  }

  /** A processor that survives: its parts and its checks survive. */
  lemma Survivor(v: Version, p: Proc, hs: Result<seq<Value>, Problem>, inner: Result<Option<Value>, Problem>)
    requires Assemble(v, p, hs, inner).Ok? && Assemble(v, p, hs, inner).value.Some? && Clean(p.flat)
    ensures var r := Assemble(v, p, hs, inner).value.value;
            && hs.Ok? && inner.Ok? && (p.inner.Some? ==> inner.value.Some?)
            && Adapted(v, p.flat) == Ok(Some(r.flat))
            && Clean(r.flat) && Accepts(v, r.flat) && (r.flat.name.Foreach? <==> p.flat.name.Foreach?)
            && r.onFailure == Handlers(p.onFailure, hs.value) && r.inner == inner.value
  {
    TableByType(v, p.flat);
    AdaptedAccepted(v, p.flat);
  }

  // ---------- soundness: what is left is accepted, at every depth ----------

  ghost predicate FineList(v: Version, ps: seq<Value>)
    decreases ps
  {
    ps == [] || (Fine(v, ps[0]) && FineList(v, ps[1..]))
  }

  /** Well formed, with types and options that `v` accepts, here and in everything nested inside. */
  ghost predicate Fine(v: Version, q: Value)
    decreases q
  {
    Parse(q).Ok? &&
    var p := Parse(q).value;
    && Accepts(v, p.flat)
    && (p.onFailure.Some? ==> IsList(p.onFailure.value))
    && (p.onFailure.Some? && p.onFailure.value.List? ==> FineList(v, p.onFailure.value.items))
    && (p.flat.name.Foreach? && p.inner.Some? ==> Fine(v, p.inner.value))
  }

  ghost predicate NoEmptyIn(ps: seq<Value>)
    decreases ps
  {
    ps == [] || (NoEmpty(ps[0]) && NoEmptyIn(ps[1..]))
  }

  /** No list of handlers that is empty without being nil, here or in anything nested inside. */
  ghost predicate NoEmpty(q: Value)
    decreases q
  {
    Parse(q).Ok? ==>
      var p := Parse(q).value;
      && (p.onFailure.Some? && p.onFailure.value.List? ==>
            p.onFailure.value.items != [] && NoEmptyIn(p.onFailure.value.items))
      && (p.flat.name.Foreach? && p.inner.Some? ==> NoEmpty(p.inner.value))
  }

  /** After adapting to `v` no processor at any depth has a type or an option that the table rejects for `v`. */
  lemma {:induction false} AdaptedIsFine(v: Version, q: Value)
    requires AdaptOne(v, q).Ok? && AdaptOne(v, q).value.Some?
    ensures Fine(v, AdaptOne(v, q).value.value) && NoEmpty(AdaptOne(v, q).value.value)
    decreases q
  {
    var p := Parse(q).value;
    AdaptOneByParts(v, q);
    MapOfParse(q);
    Survivor(v, p, HandlersOf(v, p), InnerOf(v, p));
    var r := Assemble(v, p, HandlersOf(v, p), InnerOf(v, p)).value.value;
    ParseOfMap(r);
    if p.onFailure.Some? && p.onFailure.value.List? { AdaptedListIsFine(v, p.onFailure.value.items); }
    if p.flat.name.Foreach? && p.inner.Some? { AdaptedIsFine(v, p.inner.value); }
  }

  lemma {:induction false} AdaptedListIsFine(v: Version, ps: seq<Value>)
    requires AdaptList(v, ps).Ok?
    ensures FineList(v, AdaptList(v, ps).value) && NoEmptyIn(AdaptList(v, ps).value)
    decreases ps
  {
    if ps != [] {
      var first, rest := AdaptOne(v, ps[0]), AdaptList(v, ps[1..]);
      AdaptedListIsFine(v, ps[1..]);
      if first.value.Some? {
        AdaptedIsFine(v, ps[0]);
        assert ([first.value.value] + rest.value)[1..] == rest.value;
      }
    }
  }

  // ---------- fixed points: exactly the fine processors without empty lists are left as they are ----------

  lemma {:induction false} FineIsKept(v: Version, q: Value)
    requires Fine(v, q) && NoEmpty(q)
    ensures AdaptOne(v, q) == Ok(Some(q))
    decreases q
  {
    AdaptOneByParts(v, q);
    var p := Parse(q).value;
    MapOfParse(q);
    TableByType(v, p.flat);
    AcceptedUnchanged(v, p.flat);
    if p.onFailure.Some? && p.onFailure.value.List? { FineListIsKept(v, p.onFailure.value.items); }
    if p.flat.name.Foreach? && p.inner.Some? { FineIsKept(v, p.inner.value); }
  }

  lemma {:induction false} FineListIsKept(v: Version, ps: seq<Value>)
    requires FineList(v, ps) && NoEmptyIn(ps)
    ensures AdaptList(v, ps) == Ok(ps)
    decreases ps
  {
    if ps != [] {
      FineIsKept(v, ps[0]);
      FineListIsKept(v, ps[1..]);
      assert [ps[0]] + ps[1..] == ps;
    }
  }

  /** A processor is returned unchanged exactly when it is fine and no list within reach is empty without being nil. */
  lemma UnchangedIffFine(v: Version, q: Value)
    ensures AdaptOne(v, q) == Ok(Some(q)) <==> Fine(v, q) && NoEmpty(q)
  {
    if AdaptOne(v, q) == Ok(Some(q)) { AdaptedIsFine(v, q); }
    if Fine(v, q) && NoEmpty(q) { FineIsKept(v, q); }
  }

  // ---------- two steps: a newer version first makes no difference ----------

  /** `w` answers, and what it leaves is adapted to `v` with the answer of adapting to `v` directly. */
  ghost predicate OneInTwoSteps(v: Version, w: Version, q: Value) {
    && AdaptOne(w, q).Ok?
    && (AdaptOne(w, q).value.None? ==> AdaptOne(v, q) == Ok(None))
    && (AdaptOne(w, q).value.Some? ==> AdaptOne(v, AdaptOne(w, q).value.value) == AdaptOne(v, q))
  }

  ghost predicate ListInTwoSteps(v: Version, w: Version, ps: seq<Value>) {
    AdaptList(w, ps).Ok? && AdaptList(v, AdaptList(w, ps).value) == AdaptList(v, ps)
  }

  /** The on_failure option goes through both steps to what the direct step makes of it. */
  lemma HandlersTwice(v: Version, w: Version, p: Proc)
    requires HandlersOf(v, p).Ok?
    requires p.onFailure.Some? && p.onFailure.value.List? ==> ListInTwoSteps(v, w, p.onFailure.value.items)
    ensures HandlersOf(w, p).Ok?
    ensures var once := p.(onFailure := Handlers(p.onFailure, HandlersOf(w, p).value));
            && HandlersOf(v, once).Ok?
            && Handlers(once.onFailure, HandlersOf(v, once).value) == Handlers(p.onFailure, HandlersOf(v, p).value)
  {
    if p.onFailure.Some? && p.onFailure.value.List? {
      var items := p.onFailure.value.items;
      assert items == [] ==> AdaptList(w, items).value == [];
      assert AdaptList(v, []) == Ok([]);
    }
  }

  /** Adapting to `v` reads only the handlers and the inner processor of a processor through these answers. */
  lemma AssembledTwice(v: Version, w: Version, p: Proc)
    requires Clean(p.flat) && Assemble(v, p, HandlersOf(v, p), InnerOf(v, p)).Ok? && AtMost(v, w)
    requires p.onFailure.Some? && p.onFailure.value.List? ==> ListInTwoSteps(v, w, p.onFailure.value.items)
    requires p.flat.name.Foreach? && p.inner.Some? ==> OneInTwoSteps(v, w, p.inner.value)
    ensures var a, b := Assemble(v, p, HandlersOf(v, p), InnerOf(v, p)), Assemble(w, p, HandlersOf(w, p), InnerOf(w, p));
            && b.Ok?
            && (b.value.None? ==> a == Ok(None))
            && (b.value.Some? ==> Assemble(v, b.value.value, HandlersOf(v, b.value.value), InnerOf(v, b.value.value)) == a)
  {
    TableByType(v, p.flat);
    TableByType(w, p.flat);
    AdaptedOutcome(v, p.flat);
    AdaptedInTwoSteps(v, w, p.flat);
    HandlersTwice(v, w, p);
    var b := Assemble(w, p, HandlersOf(w, p), InnerOf(w, p));
    if b.value.Some? {
      Survivor(w, p, HandlersOf(w, p), InnerOf(w, p));
      TableByType(v, b.value.value.flat);
    }
  }

  lemma {:induction false} AdaptOneTwice(v: Version, w: Version, q: Value)
    requires AtMost(v, w) && AdaptOne(v, q).Ok?
    ensures OneInTwoSteps(v, w, q)
    decreases q
  {
    var p := Parse(q).value;
    AdaptOneByParts(v, q);
    AdaptOneByParts(w, q);
    MapOfParse(q);
    if p.onFailure.Some? && p.onFailure.value.List? { AdaptListTwice(v, w, p.onFailure.value.items); }
    if p.flat.name.Foreach? && p.inner.Some? { AdaptOneTwice(v, w, p.inner.value); }
    AssembledTwice(v, w, p);
    var b := Assemble(w, p, HandlersOf(w, p), InnerOf(w, p));
    if b.value.Some? {
      Survivor(w, p, HandlersOf(w, p), InnerOf(w, p));
      ParseOfMap(b.value.value);
      AdaptOneByParts(v, ToMap(b.value.value));
    }
  }

  lemma {:induction false} AdaptListTwice(v: Version, w: Version, ps: seq<Value>)
    requires AtMost(v, w) && AdaptList(v, ps).Ok?
    ensures ListInTwoSteps(v, w, ps)
    decreases ps
  {
    if ps != [] {
      AdaptOneTwice(v, w, ps[0]);
      AdaptListTwice(v, w, ps[1..]);
      var first, rest := AdaptOne(w, ps[0]).value, AdaptList(w, ps[1..]).value;
      if first.Some? {
        assert ([first.value] + rest)[1..] == rest;
      }
    }
  }

  // ---------- order, failures, new versions ----------

  type Answer = Result<Option<Value>, Problem>

  /** The answer for a list from the answers for its processors. */
  function Collect(answers: seq<Answer>): Result<seq<Value>, Problem> {
    if answers == [] then Ok([]) else Prepend(answers[0], Collect(answers[1..]))
  }

  ghost predicate AnswersFor(v: Version, ps: seq<Value>, answers: seq<Answer>) {
    |answers| == |ps| && forall i :: 0 <= i < |ps| ==> answers[i] == AdaptOne(v, ps[i])
  }

  lemma {:induction false} AdaptListCollects(v: Version, ps: seq<Value>, answers: seq<Answer>)
    requires AnswersFor(v, ps, answers)
    ensures AdaptList(v, ps) == Collect(answers)
    decreases |ps|
  {
    if ps != [] {
      AdaptListCollects(v, ps[1..], answers[1..]);
    }
  }

  /** The answer for a list from the answers for its front and for its last processor. */
  function Extend(front: Result<seq<Value>, Problem>, last: Answer): Result<seq<Value>, Problem> {
    if front.Err? then front
    else if last.Err? then Err(last.error)
    else if last.value.None? then front
    else Ok(front.value + [last.value.value])
  }

  lemma {:induction false} CollectSnoc(answers: seq<Answer>, last: Answer)
    ensures Collect(answers + [last]) == Extend(Collect(answers), last)
  {
    if answers == [] {
      assert answers + [last] == [last] && [last][1..] == [];
      assert last.Ok? && last.value.Some? ==> [last.value.value] + [] == [] + [last.value.value];
    } else {
      CollectSnoc(answers[1..], last);
      assert (answers + [last])[1..] == answers[1..] + [last];
      var rest := Collect(answers[1..]);
      if answers[0].Ok? && rest.Ok? && last.Ok? && answers[0].value.Some? && last.value.Some? {
        assert [answers[0].value.value] + (rest.value + [last.value.value])
               == [answers[0].value.value] + rest.value + [last.value.value];
      }
    }
  }

  /** `kept` are the positions of the survivors among the answers, in order; every other answer is a deletion. */
  ghost predicate Picks(answers: seq<Answer>, survivors: seq<Value>, kept: seq<nat>) {
    && |kept| == |survivors|
    && (forall j :: 0 <= j < |kept| ==> kept[j] < |answers| && answers[kept[j]] == Ok(Some(survivors[j])))
    && (forall i, j :: 0 <= i < j < |kept| ==> kept[i] < kept[j])
    && (forall i: nat :: i < |answers| && i !in kept ==> answers[i] == Ok(None))
  }

  lemma {:induction false} CollectPicks(answers: seq<Answer>) returns (kept: seq<nat>)
    requires Collect(answers).Ok?
    ensures Picks(answers, Collect(answers).value, kept)
  {
    kept := [];
    if answers != [] {
      var n := |answers| - 1;
      var front, last := answers[..n], answers[n];
      assert answers == front + [last];
      CollectSnoc(front, last);
      kept := CollectPicks(front);
      if last.value.Some? {
        assert forall i: nat :: i in kept ==> i in kept + [n];
        assert (kept + [n])[|kept|] == n;
        kept := kept + [n];
      }
    }
  }

  /** Adapting a list keeps the order of what it keeps and adds nothing. */
  lemma SurvivorsInOrder(v: Version, ps: seq<Value>, answers: seq<Answer>) returns (kept: seq<nat>)
    requires AnswersFor(v, ps, answers) && AdaptList(v, ps).Ok?
    ensures Picks(answers, AdaptList(v, ps).value, kept)
    ensures |AdaptList(v, ps).value| <= |ps|
  {
    AdaptListCollects(v, ps, answers);
    kept := CollectPicks(answers);
    IncreasingIsShort(kept, |ps|);
  }

  lemma {:induction false} IncreasingIsShort(kept: seq<nat>, n: nat)
    requires forall j :: 0 <= j < |kept| ==> kept[j] < n
    requires forall i, j :: 0 <= i < j < |kept| ==> kept[i] < kept[j]
    ensures |kept| <= n
  {
    if kept != [] {
      IncreasingIsShort(kept[..|kept| - 1], kept[|kept| - 1]);
    }
  }

  ghost predicate BrokenList(v: Version, ps: seq<Value>)
    decreases ps
  {
    ps != [] && (Broken(v, ps[0]) || BrokenList(v, ps[1..]))
  }

  /** Malformed, or refused by the table, here or in anything nested inside. */
  ghost predicate Broken(v: Version, q: Value)
    decreases q
  {
    Parse(q).Err? ||
    var p := Parse(q).value;
    || Refuses(v, p.flat)
    || (p.onFailure.Some? && !IsList(p.onFailure.value))
    || (p.onFailure.Some? && p.onFailure.value.List? && BrokenList(v, p.onFailure.value.items))
    || (p.flat.name.Foreach? && p.inner.Some? && Broken(v, p.inner.value))
  }

  /** Adapting fails exactly on broken processors. */
  lemma {:induction false} FailsIffBroken(v: Version, q: Value)
    ensures AdaptOne(v, q).Err? <==> Broken(v, q)
    decreases q
  {
    if Parse(q).Ok? {
      var p := Parse(q).value;
      TableByType(v, p.flat);
      AdaptedOutcome(v, p.flat);
      if p.onFailure.Some? && p.onFailure.value.List? { ListFailsIffBroken(v, p.onFailure.value.items); }
      if p.flat.name.Foreach? && p.inner.Some? { FailsIffBroken(v, p.inner.value); }
    }
  }

  lemma {:induction false} ListFailsIffBroken(v: Version, ps: seq<Value>)
    ensures AdaptList(v, ps).Err? <==> BrokenList(v, ps)
    decreases ps
  {
    if ps != [] {
      FailsIffBroken(v, ps[0]);
      ListFailsIffBroken(v, ps[1..]);
    }
  }

  /** From 7.13.0 on the table is empty: whatever is not broken is fine. */
  lemma {:induction false} NewVersionsAreFine(v: Version, q: Value)
    requires !Before(v, 7, 13)
    ensures Fine(v, q) <==> !Broken(v, q)
    decreases q
  {
    if Parse(q).Ok? {
      var p := Parse(q).value;
      if p.onFailure.Some? && p.onFailure.value.List? { NewVersionsAreFineLists(v, p.onFailure.value.items); }
      if p.flat.name.Foreach? && p.inner.Some? { NewVersionsAreFine(v, p.inner.value); }
    }
  }

  lemma {:induction false} NewVersionsAreFineLists(v: Version, ps: seq<Value>)
    requires !Before(v, 7, 13)
    ensures FineList(v, ps) <==> !BrokenList(v, ps)
    decreases ps
  {
    if ps != [] {
      NewVersionsAreFine(v, ps[0]);
      NewVersionsAreFineLists(v, ps[1..]);
    }
  }

  // ---------- whole pipelines ----------

  /** A pipeline whose sections are in place; `on_failure` may be missing. */
  predicate HasSections(content: Fields) {
    && Processors in content && IsList(content[Processors])
    && (OnFailure in content ==> IsList(content[OnFailure]))
  }

  /** No list within reach that is empty without being nil. */
  ghost predicate NoEmptyLists(content: Fields) {
    && (Processors in content ==> content[Processors] != List([]) && NoEmptyIn(Items(content[Processors])))
    && (OnFailure in content ==> content[OnFailure] != List([]) && NoEmptyIn(Items(content[OnFailure])))
  }

  ghost predicate FinePipeline(v: Version, content: Fields) {
    && HasSections(content)
    && FineList(v, Items(content[Processors]))
    && (OnFailure in content ==> FineList(v, Items(content[OnFailure])))
  }

  /** An adapted pipeline is fine for its version, and everything outside the two sections is left alone. */
  lemma PipelineIsFine(v: Version, content: Fields)
    requires AdaptPipeline(v, content).Ok?
    ensures FinePipeline(v, AdaptPipeline(v, content).value) && NoEmptyLists(AdaptPipeline(v, content).value)
    ensures AdaptPipeline(v, content).value - {Processors, OnFailure} == content - {Processors, OnFailure}
    ensures OnFailure in AdaptPipeline(v, content).value <==> OnFailure in content
  {
    AdaptedListIsFine(v, Items(content[Processors]));
    if OnFailure in content { AdaptedListIsFine(v, Items(content[OnFailure])); }
  }

  lemma FinePipelineIsKept(v: Version, content: Fields)
    requires FinePipeline(v, content) && NoEmptyLists(content)
    ensures AdaptPipeline(v, content) == Ok(content)
  {
    FineListIsKept(v, Items(content[Processors]));
    assert content[Processors := content[Processors]] == content;
    if OnFailure in content {
      FineListIsKept(v, Items(content[OnFailure]));
      assert content[OnFailure := content[OnFailure]] == content;
    }
  }

  /** A pipeline is returned unchanged exactly when it is fine and no list within reach is empty without being nil. */
  lemma PipelineUnchangedIff(v: Version, content: Fields)
    ensures AdaptPipeline(v, content) == Ok(content) <==> FinePipeline(v, content) && NoEmptyLists(content)
  {
    if AdaptPipeline(v, content) == Ok(content) { PipelineIsFine(v, content); }
    if FinePipeline(v, content) && NoEmptyLists(content) { FinePipelineIsKept(v, content); }
  }

  /** An empty list of processors comes back as nil, whatever the version. */
  lemma EmptyListTurnsNil(v: Version)
    ensures AdaptPipeline(v, map[Processors := List([])]) == Ok(map[Processors := NilList])
  {
    var content: Fields := map[Processors := List([])];
    assert AdaptList(v, []) == Ok([]);
    assert content[Processors := NilList] == map[Processors := NilList];
  }

  /** Adapting again to the same version changes nothing. */
  lemma PipelineIdempotent(v: Version, content: Fields)
    requires AdaptPipeline(v, content).Ok?
    ensures AdaptPipeline(v, AdaptPipeline(v, content).value) == AdaptPipeline(v, content)
  {
    PipelineIsFine(v, content);
    FinePipelineIsKept(v, AdaptPipeline(v, content).value);
  }

  /** Adapting to a newer version first and then to `v` gives the pipeline that adapting to `v` gives. */
  lemma PipelineInTwoSteps(v: Version, w: Version, content: Fields)
    requires AtMost(v, w) && AdaptPipeline(v, content).Ok?
    ensures AdaptPipeline(w, content).Ok?
    ensures AdaptPipeline(v, AdaptPipeline(w, content).value) == AdaptPipeline(v, content)
  {
    AdaptListTwice(v, w, Items(content[Processors]));
    if OnFailure in content { AdaptListTwice(v, w, Items(content[OnFailure])); }
    var once := AdaptPipeline(w, content).value;
    var direct, twice := AdaptPipeline(v, content).value, AdaptPipeline(v, once).value;
    assert twice == direct;
  }

  // ---------- from 7.13.0 on ----------

  ghost function NilledAll(ps: seq<Value>): seq<Value>
    decreases ps
  {
    if ps == [] then [] else [Nilled(ps[0])] + NilledAll(ps[1..])
  }

  /** The processor with every empty list of handlers within reach replaced by nil. */
  ghost function Nilled(q: Value): Value
    decreases q
  {
    if Parse(q).Err? then q
    else
      var p := Parse(q).value;
      ToMap(Proc(
        p.flat,
        if p.onFailure.Some? && p.onFailure.value.List? then Some(Listed(NilledAll(p.onFailure.value.items)))
        else p.onFailure,
        if p.flat.name.Foreach? && p.inner.Some? then Some(Nilled(p.inner.value)) else p.inner))
  }

  lemma NewVersionsPass(v: Version, f: Flat)
    requires !Before(v, 7, 13)
    ensures RunChecks(v, f, Table) == Ok(Some(f))
  {
    TableByType(v, f);
    AcceptedUnchanged(v, f);
  }

  lemma NewVersionsAssemble(
    v: Version, p: Proc, handlers: Result<seq<Value>, Problem>, inner: Result<Option<Value>, Problem>)
    requires !Before(v, 7, 13) && handlers.Ok? && inner.Ok? && (p.inner.Some? ==> inner.value.Some?)
    ensures Assemble(v, p, handlers, inner) ==
            Ok(Some(Proc(p.flat, Handlers(p.onFailure, handlers.value), inner.value)))
  {
    NewVersionsPass(v, p.flat);
  }

  /** From 7.13.0 on nothing but empty lists is changed. */
  lemma {:induction false} NewVersionsOnlyNil(v: Version, q: Value)
    requires !Before(v, 7, 13) && AdaptOne(v, q).Ok?
    ensures AdaptOne(v, q) == Ok(Some(Nilled(q)))
    decreases q
  {
    var p := Parse(q).value;
    AdaptOneByParts(v, q);
    if p.onFailure.Some? && p.onFailure.value.List? { NewVersionsOnlyNilLists(v, p.onFailure.value.items); }
    if p.flat.name.Foreach? && p.inner.Some? { NewVersionsOnlyNil(v, p.inner.value); }
    NewVersionsAssemble(v, p, HandlersOf(v, p), InnerOf(v, p));
  }

  lemma {:induction false} NewVersionsOnlyNilLists(v: Version, ps: seq<Value>)
    requires !Before(v, 7, 13) && AdaptList(v, ps).Ok?
    ensures AdaptList(v, ps) == Ok(NilledAll(ps)) && |NilledAll(ps)| == |ps|
    decreases ps
  {
    if ps != [] {
      NewVersionsOnlyNil(v, ps[0]);
      NewVersionsOnlyNilLists(v, ps[1..]);
    }
  }

  /** A pipeline that can be adapted is then returned as it is exactly when no list is empty without being nil. */
  lemma NewVersionsKeepPipelines(v: Version, content: Fields)
    requires !Before(v, 7, 13) && AdaptPipeline(v, content).Ok?
    ensures AdaptPipeline(v, content) == Ok(content) <==> NoEmptyLists(content)
  {
    ListFailsIffBroken(v, Items(content[Processors]));
    NewVersionsAreFineLists(v, Items(content[Processors]));
    if OnFailure in content {
      ListFailsIffBroken(v, Items(content[OnFailure]));
      NewVersionsAreFineLists(v, Items(content[OnFailure]));
    }
    PipelineUnchangedIff(v, content);
  }

  // ---------- why the direct step has to succeed ----------

  /** A processor that will be dropped, with a handler that old versions refuse. */
  const UserAgentHandler: Proc := Proc(Flat(UserAgent, map[]), None, None)
  const DroppedProcessor: Proc := Proc(Flat(CommunityId, map[]), Some(List([ToMap(UserAgentHandler)])), None)

  lemma HandlerOutcome(v: Version)
    ensures AdaptOne(v, ToMap(UserAgentHandler)).Err? <==> Before(v, 6, 7)
  {
    ParseOfMap(UserAgentHandler);
    AdaptOneByParts(v, ToMap(UserAgentHandler));
    TableByType(v, UserAgentHandler.flat);
    AdaptedOutcome(v, UserAgentHandler.flat);
  }

  /** Adapting straight to a version before 6.7 fails; a version in between drops the processor and hides the failure. */
  lemma NewerFirstHidesAFailure(v: Version, w: Version)
    requires Before(v, 6, 7) && !Before(w, 6, 7) && Before(w, 7, 12)
    ensures AdaptOne(v, ToMap(DroppedProcessor)).Err? && AdaptOne(w, ToMap(DroppedProcessor)) == Ok(None)
  {
    var q, handler := ToMap(DroppedProcessor), ToMap(UserAgentHandler);
    ParseOfMap(DroppedProcessor);
    AdaptOneByParts(v, q);
    AdaptOneByParts(w, q);
    HandlerOutcome(v);
    HandlerOutcome(w);
    assert [handler][1..] == [];
    assert AdaptList(v, [handler]).Err? && AdaptList(w, [handler]).Ok?;
    TableByType(w, DroppedProcessor.flat);
    AdaptedOutcome(w, DroppedProcessor.flat);
  }
}
