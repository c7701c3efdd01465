/** The adapter as the original runs it: loops over the processors of a section and over the check table. */
module PipelineAdapter {
  import opened Options
  import opened Pipelines
  import PipelineTheorems

  /** NewProcessor. */
  method NewProcessor(raw: Value) returns (r: Result<Proc, Problem>)
    ensures r == Parse(raw)
  {
    if !raw.Object? {
      return Err(NotAnObject);
    }
    if |raw.fields| != 1 {
      return Err(NotOneKey);
    }
    var name :| name in raw.fields;
    PipelineTheorems.OnlyKey(raw.fields, name);
    if !raw.fields[name].Object? {
      return Err(ConfigNotObject);
    }
    return Ok(Split(name, raw.fields[name].fields));
  }

  /** The loop over the check table, left as soon as an entry fails or deletes the processor. */
  method Check(v: Version, f: Flat) returns (r: Result<Option<Flat>, Problem>)
    ensures r == RunChecks(v, f, Table)
  {
    var g := f;
    assert Table[0..] == Table;
    for i := 0 to |Table|
      invariant RunChecks(v, g, Table[i..]) == RunChecks(v, f, Table)
    {
      assert Table[i..][0] == Table[i] && Table[i..][1..] == Table[i + 1..];
      if ForType(Table[i], g.name) && ForVersion(Table[i], v) {
        match AdaptConfig(Table[i], g) {
          case Err(e) => return Err(e);
          case Ok(h) => g := h;
        }
        if IsNil(g.name) {
          return Ok(None);
        }
      }
    }
    return Ok(Some(g));
  }

  /**
  adaptProcessorsForCompatibility on a list.  `bound` is the value the list came from: a list value, or the inner
  processor of a foreach, which is adapted as a list of one.
  */
  method AdaptProcessors(v: Version, ps: seq<Value>, ghost bound: Value) returns (r: Result<seq<Value>, Problem>)
    requires forall p <- ps :: p == bound || (bound decreases to p)
    ensures r == AdaptList(v, ps)
    decreases bound, 1, 0
  {
    var filtered: seq<Value> := [];
    ghost var answers: seq<PipelineTheorems.Answer> := [];
    for i := 0 to |ps|
      invariant PipelineTheorems.AnswersFor(v, ps[..i], answers)
      invariant PipelineTheorems.Collect(answers) == Ok(filtered)
    {
      assert ps[i] in ps;
      var answer := AdaptProcessor(v, ps[i]);
      PipelineTheorems.CollectSnoc(answers, answer);
      match answer {
        case Err(e) =>
          FirstFailure(v, ps, i, answers, e);
          return Err(e);
        case Ok(None) =>
        case Ok(Some(q)) => filtered := filtered + [q];
      }
      answers := answers + [answer];
    }
    assert ps[..|ps|] == ps;
    PipelineTheorems.AdaptListCollects(v, ps, answers);
    return Ok(filtered);
  }

  /** The on_failure handlers of a processor. */
  method AdaptHandlers(v: Version, ghost raw: Value, p: Proc) returns (r: Result<seq<Value>, Problem>)
    requires Parse(raw) == Ok(p)
    ensures r == if p.onFailure.None? || p.onFailure.value.NilList? then Ok([])
                 else if !p.onFailure.value.List? then Err(SectionNotList)
                 else AdaptList(v, p.onFailure.value.items)
    decreases raw, 0, 0
  {
    if p.onFailure.None? {
      return Ok([]);
    }
    if !IsList(p.onFailure.value) {
      return Err(SectionNotList);
    }
    r := AdaptProcessors(v, Items(p.onFailure.value), p.onFailure.value);
  }

  /** The body of that loop. */
  method AdaptProcessor(v: Version, raw: Value) returns (r: Result<Option<Value>, Problem>)
    ensures r == AdaptOne(v, raw)
    decreases raw, 0, 1
  {
    var parsed := NewProcessor(raw);
    if parsed.Err? {
      return Err(parsed.error);
    }
    var p := parsed.value;
    var handlers := AdaptHandlers(v, raw, p);
    if handlers.Err? {
      return Err(handlers.error);
    }
    var inner := p.inner;
    if p.flat.name.Foreach? && p.inner.Some? {
      var list := AdaptProcessors(v, [p.inner.value], p.inner.value);
      ListOfOne(v, p.inner.value);
      if list.Err? {
        return Err(list.error);
      }
      match |list.value| {
        case 0 => return Ok(None);
        case 1 => inner := Some(list.value[0]);
        case _ => assert false;
      }
    }
    var checked := Check(v, p.flat);
    match checked {
      case Err(e) => return Err(e);
      case Ok(None) => return Ok(None);
      case Ok(Some(flat)) => return Ok(Some(ToMap(Proc(flat, Handlers(p.onFailure, handlers.value), inner))));
    }
  }

  lemma ListOfOne(v: Version, q: Value)
    ensures AdaptList(v, [q]) == Prepend(AdaptOne(v, q), Ok([]))
  {
    PipelineTheorems.AdaptListCollects(v, [q], [AdaptOne(v, q)]);
    assert [AdaptOne(v, q)][1..] == [];
  }

  /** The first failing processor decides the answer for the list. */
  lemma FirstFailure(v: Version, ps: seq<Value>, i: nat, answers: seq<PipelineTheorems.Answer>, e: Problem)
    requires i < |ps| && PipelineTheorems.AnswersFor(v, ps[..i], answers)
    requires PipelineTheorems.Collect(answers).Ok? && AdaptOne(v, ps[i]) == Err(e)
    ensures AdaptList(v, ps) == Err(e)
  {
    var all := seq(|ps|, j requires 0 <= j < |ps| => AdaptOne(v, ps[j]));
    PipelineTheorems.AdaptListCollects(v, ps, all);
    FailsAt(all, i, e);
    assert all[..i] == answers;
  }

  lemma {:induction false} FailsAt(all: seq<PipelineTheorems.Answer>, i: nat, e: Problem)
    requires i < |all| && all[i] == Err(e)
    ensures PipelineTheorems.Collect(all[..i]).Ok? ==> PipelineTheorems.Collect(all) == Err(e)
  {
    if i > 0 {
      assert all[1..][..i - 1] == all[..i][1..];
      FailsAt(all[1..], i - 1, e);
    }
  }

  method AdaptSectionOf(v: Version, content: Fields, section: Word, mayMiss: bool) returns (r: Result<Fields, Problem>)
    ensures r == AdaptSection(v, content, section, mayMiss)
  {
    if section !in content {
      return if mayMiss then Ok(content) else Err(SectionMissing);
    }
    if !IsList(content[section]) {
      return Err(SectionNotList);
    }
    var list := AdaptProcessors(v, Items(content[section]), content[section]);
    match list {
      case Err(e) => return Err(e);
      case Ok(qs) => return Ok(content[section := Listed(qs)]);
    }
  }

  /** AdaptPipelineForCompatibility. */
  method AdaptPipelineForCompatibility(v: Version, content: Fields) returns (r: Result<Fields, Problem>)
    ensures r == AdaptPipeline(v, content)
    ensures r.Ok? ==> PipelineTheorems.FinePipeline(v, r.value) && PipelineTheorems.NoEmptyLists(r.value)
  {
    r := AdaptSectionOf(v, content, Processors, false);
    if r.Ok? {
      r := AdaptSectionOf(v, r.value, OnFailure, true);
    }
    if AdaptPipeline(v, content).Ok? { PipelineTheorems.PipelineIsFine(v, content); }
  }
}
