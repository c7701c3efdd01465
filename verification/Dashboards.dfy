/**
Importing a dashboard together with the assets it refers to.

Files form a graph: a path leads to a document with references.  A reference to an index pattern is never followed;
any other reference is resolved to the path of an asset.  `Walk` is the memoised depth-first walk; it answers with the
paths in the order in which their contents are sent.
*/
module Dashboards {
  import opened Collections
  import opened Options

  datatype Path = Path(text: string)

  datatype Reference = IndexPattern | Asset(path: Path)

  /** `convertible` is false for a document whose references can be read but which cannot be converted as a whole. */
  datatype File = Garbage | Document(references: seq<Reference>, convertible: bool)

  type Files = map<Path, File>

  datatype Problem = Unsupported | Unreadable | Unparsable | NotConvertible | UploadFailed

  // ---------- the reference graph ----------

  predicate Edge(files: Files, p: Path, q: Path) {
    p in files && files[p].Document? && Asset(q) in files[p].references
  }

  ghost predicate IsChain(files: Files, c: seq<Path>) {
    c != [] && forall i :: 0 <= i < |c| - 1 ==> Edge(files, c[i], c[i + 1])
  }

  ghost predicate ChainOf(files: Files, c: seq<Path>, p: Path, q: Path) {
    IsChain(files, c) && c[0] == p && c[|c| - 1] == q
  }

  /** References lead from `p` to `q`, in any number of steps. */
  ghost predicate Connected(files: Files, p: Path, q: Path) {
    exists c :: ChainOf(files, c, p, q)
  }

  /** No asset within reach of `path` is on a cycle of references. */
  ghost predicate AcyclicFrom(files: Files, path: Path) {
    forall p, q :: Connected(files, path, p) && Edge(files, p, q) ==> !Connected(files, q, p)
  }

  ghost function Reach(files: Files, p: Path): set<Path> {
    set q | q in files && Connected(files, p, q)
  }

  lemma ConnectedSelf(files: Files, p: Path)
    ensures Connected(files, p, p)
  {
    assert ChainOf(files, [p], p, p);
  }

  lemma ConnectedStep(files: Files, p: Path, q: Path, r: Path)
    requires Edge(files, p, q) && Connected(files, q, r)
    ensures Connected(files, p, r)
  {
    var c :| ChainOf(files, c, q, r);
    var d := [p] + c;
    forall i | 0 <= i < |d| - 1 ensures Edge(files, d[i], d[i + 1]) {
      assert i > 0 ==> Edge(files, c[i - 1], c[i]);
    }
    assert ChainOf(files, d, p, r);
  }

  lemma ConnectedCases(files: Files, p: Path, r: Path)
    requires Connected(files, p, r)
    ensures p == r || exists q :: Edge(files, p, q) && Connected(files, q, r)
  {
    var c :| ChainOf(files, c, p, r);
    if |c| > 1 {
      assert Edge(files, c[0], c[1]);
      forall i | 0 <= i < |c[1..]| - 1 ensures Edge(files, c[1..][i], c[1..][i + 1]) {
        assert Edge(files, c[i + 1], c[i + 2]);
      }
      assert ChainOf(files, c[1..], c[1], r);
    }
  }

  lemma AcyclicBelow(files: Files, p: Path, q: Path)
    requires AcyclicFrom(files, p) && Edge(files, p, q)
    ensures AcyclicFrom(files, q) && !Connected(files, q, p)
  {
    ConnectedSelf(files, p);
    forall r | Connected(files, q, r) ensures Connected(files, p, r) {
      ConnectedStep(files, p, q, r);
    }
  }

  /** Following a reference leaves less to reach. */
  lemma ReachShrinks(files: Files, p: Path, q: Path)
    requires AcyclicFrom(files, p) && Edge(files, p, q)
    ensures AcyclicFrom(files, q) && Reach(files, q) < Reach(files, p)
  {
    AcyclicBelow(files, p, q);
    forall r | r in Reach(files, q) ensures r in Reach(files, p) {
      ConnectedStep(files, p, q, r);
    }
    ConnectedSelf(files, p);
    assert p in Reach(files, p) && p !in Reach(files, q);
  }

  // ---------- the walk ----------

  datatype Walked = Walked(sent: Result<seq<Path>, Problem>, loaded: set<Path>)

  /** addReferences for `path`, with the assets already loaded. */
  ghost function Walk(files: Files, path: Path, loaded: set<Path>): Walked
    requires AcyclicFrom(files, path) && path in files
    decreases Reach(files, path), 1, 0
  {
    match files[path]
    case Garbage => Walked(Err(Unparsable), loaded)
    case Document(references, convertible) =>
      var refs := WalkAll(files, path, references, loaded);
      if refs.sent.Err? then refs
      else if !convertible then Walked(Err(NotConvertible), refs.loaded)
      else Walked(Ok(refs.sent.value + [path]), refs.loaded)
  }

  /** The loop of addReferences over the references of `path`. */
  ghost function WalkAll(files: Files, path: Path, references: seq<Reference>, loaded: set<Path>): Walked
    requires AcyclicFrom(files, path) && forall r <- references :: r.Asset? ==> Edge(files, path, r.path)
    decreases Reach(files, path), 0, |references|
  {
    if references == [] then Walked(Ok([]), loaded)
    else if references[0].IndexPattern? || references[0].path in loaded then
      WalkAll(files, path, references[1..], loaded)
    else if references[0].path !in files then Walked(Err(Unreadable), loaded)
    else
      var q := references[0].path;
      ReachShrinks(files, path, q);
      var first := Walk(files, q, loaded);
      if first.sent.Err? then first
      else
        var rest := WalkAll(files, path, references[1..], first.loaded + {q});
        if rest.sent.Err? then rest else Walked(Ok(first.sent.value + rest.sent.value), rest.loaded)
  }

  // ---------- what the walk guarantees ----------

  predicate Good(files: Files, p: Path) {
    p in files && files[p].Document? && files[p].convertible
  }

  /** Marked assets are good and everything they refer to is marked. */
  ghost predicate Closed(files: Files, loaded: set<Path>) {
    forall p <- loaded :: Good(files, p) && forall q :: Edge(files, p, q) ==> q in loaded
  }

  ghost predicate AllGood(files: Files, p: Path) {
    forall q :: Connected(files, p, q) ==> Good(files, q)
  }

  /** Every asset is sent after all assets it refers to, unless those were loaded before. */
  ghost predicate InOrder(files: Files, before: set<Path>, sent: seq<Path>) {
    forall i, q :: 0 <= i < |sent| && Edge(files, sent[i], q) ==> q in before || q in sent[..i]
  }

  /** Sending `sent` with `before` loaded: new good assets below `path`, each once, references first. */
  ghost predicate SentWell(files: Files, path: Path, before: set<Path>, sent: seq<Path>) {
    && Distinct(sent)
    && (forall p <- sent :: p !in before && Good(files, p) && Connected(files, path, p))
    && InOrder(files, before, sent)
  }

  lemma ClosedReaches(files: Files, loaded: set<Path>, c: seq<Path>)
    requires Closed(files, loaded) && IsChain(files, c) && c[0] in loaded
    ensures c[|c| - 1] in loaded
    decreases |c|
  {
    if |c| > 1 {
      assert Edge(files, c[0], c[1]);
      forall i | 0 <= i < |c[1..]| - 1 ensures Edge(files, c[1..][i], c[1..][i + 1]) {
        assert Edge(files, c[i + 1], c[i + 2]);
      }
      ClosedReaches(files, loaded, c[1..]);
    }
  }

  /** A marked asset reaches only marked, good assets. */
  lemma MarkedIsAllGood(files: Files, loaded: set<Path>, p: Path)
    requires Closed(files, loaded) && p in loaded
    ensures AllGood(files, p)
    ensures forall q :: Connected(files, p, q) ==> q in loaded
  {
    forall q | Connected(files, p, q) ensures q in loaded {
      var c :| ChainOf(files, c, p, q);
      ClosedReaches(files, loaded, c);
    }
  }

  lemma SentConcat(files: Files, path: Path, before: set<Path>, a: seq<Path>, b: seq<Path>)
    requires SentWell(files, path, before, a) && SentWell(files, path, before + Elements(a), b)
    ensures SentWell(files, path, before, a + b)
    ensures Elements(a + b) == Elements(a) + Elements(b)
  {
    var all := a + b;
    forall i, q | 0 <= i < |all| && Edge(files, all[i], q)
      ensures q in before || q in all[..i]
    {
      if i < |a| {
        assert all[..i] == a[..i];
      } else {
        assert all[..i] == a + b[..i - |a|];
        assert q in before + Elements(a) || q in b[..i - |a|];
      }
    }
    assert forall i :: 0 <= i < |a| ==> a[i] in Elements(a);
  }

  /** What was sent for a reference, with the referenced asset last, counts as sent for the referrer. */
  lemma SentForReferrer(files: Files, path: Path, q: Path, before: set<Path>, front: seq<Path>)
    requires AcyclicFrom(files, path) && Edge(files, path, q) && Good(files, q) && q !in before
    requires SentWell(files, q, before, front) && q !in front
    requires forall r :: Edge(files, q, r) ==> r in before || r in front
    ensures SentWell(files, path, before, front + [q]) && path !in front + [q]
  {
    ConnectedSelf(files, q);
    AcyclicBelow(files, path, q);
    var all := front + [q];
    forall p | p in all ensures Connected(files, path, p) && p != path {
      assert Connected(files, q, p);
      ConnectedStep(files, path, q, p);
    }
    forall i, r | 0 <= i < |all| && Edge(files, all[i], r)
      ensures r in before || r in all[..i]
    {
      assert all[..i] == front[..i];
    }
  }

  /** A path is all good exactly when it is good and all its references are all good. */
  lemma AllGoodCases(files: Files, p: Path)
    ensures AllGood(files, p) <==> Good(files, p) && forall q :: Edge(files, p, q) ==> AllGood(files, q)
  {
    if AllGood(files, p) {
      ConnectedSelf(files, p);
      forall q, r | Edge(files, p, q) && Connected(files, q, r) ensures Good(files, r) {
        ConnectedStep(files, p, q, r);
      }
    }
    if Good(files, p) && forall q :: Edge(files, p, q) ==> AllGood(files, q) {
      forall r | Connected(files, p, r) ensures Good(files, r) {
        ConnectedCases(files, p, r);
      }
    }
  }

  /** What a walk that went well has sent and marked: the path itself comes last and is not marked yet. */
  ghost predicate WalkedWell(files: Files, path: Path, before: set<Path>, w: Walked) {
    w.sent.Ok? && w.sent.value != [] &&
    var front := w.sent.value[..|w.sent.value| - 1];
    && w.sent.value == front + [path]
    && SentWell(files, path, before, front) && path !in front
    && w.loaded == before + Elements(front)
    && (forall q :: Edge(files, path, q) ==> q in w.loaded)
  }

  ghost predicate AllWalkedWell(files: Files, path: Path, references: seq<Reference>, before: set<Path>, w: Walked) {
    && w.sent.Ok?
    && SentWell(files, path, before, w.sent.value) && path !in w.sent.value
    && w.loaded == before + Elements(w.sent.value)
    && (forall r <- references :: r.Asset? ==> r.path in w.loaded)
  }

  /**
  The walk sends new good assets, each once, references before referrers, the path itself last; it fails exactly when
  something reachable is missing or bad; and whether it fails or not, what is marked stays closed under references.
  */
  lemma {:induction false} WalkWell(files: Files, path: Path, loaded: set<Path>)
    requires AcyclicFrom(files, path) && path in files && Closed(files, loaded)
    ensures var w := Walk(files, path, loaded);
            && loaded <= w.loaded && Closed(files, w.loaded)
            && (w.sent.Ok? <==> AllGood(files, path))
            && (w.sent.Ok? ==> WalkedWell(files, path, loaded, w))
    decreases Reach(files, path), 1, 0
  {
    AllGoodCases(files, path);
    if files[path].Document? {
      WalkAllWell(files, path, files[path].references, loaded);
      var refs := WalkAll(files, path, files[path].references, loaded);
      if refs.sent.Ok? && files[path].convertible {
        var all := refs.sent.value + [path];
        assert all[..|all| - 1] == refs.sent.value;
      }
    }
  }

  lemma {:induction false} WalkAllWell(files: Files, path: Path, references: seq<Reference>, loaded: set<Path>)
    requires AcyclicFrom(files, path) && Closed(files, loaded)
    requires forall r <- references :: r.Asset? ==> Edge(files, path, r.path)
    ensures var w := WalkAll(files, path, references, loaded);
            && loaded <= w.loaded && Closed(files, w.loaded)
            && (w.sent.Ok? <==> forall r <- references :: r.Asset? ==> AllGood(files, r.path))
            && (w.sent.Ok? ==> AllWalkedWell(files, path, references, loaded, w))
    decreases Reach(files, path), 0, |references|, 0
  {
    if references == [] {
      return;
    }
    var ref := references[0];
    assert references == [ref] + references[1..];
    if ref.IndexPattern? || ref.path in loaded {
      WalkAllWell(files, path, references[1..], loaded);
      if ref.Asset? { MarkedIsAllGood(files, loaded, ref.path); }
    } else if ref.path !in files {
      ConnectedSelf(files, ref.path);
      assert ref in references;
    } else {
      ReachShrinks(files, path, ref.path);
      WalkWell(files, ref.path, loaded);
      if Walk(files, ref.path, loaded).sent.Ok? {
        WalkRest(files, path, references, loaded);
      } else {
        assert ref in references;
      }
    }
  }

  /** The first reference has been walked; the others follow with it marked. */
  lemma {:induction false} WalkRest(files: Files, path: Path, references: seq<Reference>, loaded: set<Path>)
    requires AcyclicFrom(files, path) && Closed(files, loaded)
    requires forall r <- references :: r.Asset? ==> Edge(files, path, r.path)
    requires references != [] && references[0].Asset? && references[0].path !in loaded && references[0].path in files
    requires AllGood(files, references[0].path) && AcyclicFrom(files, references[0].path)
    requires var w := Walk(files, references[0].path, loaded);
             Closed(files, w.loaded) && WalkedWell(files, references[0].path, loaded, w)
    ensures var w := WalkAll(files, path, references, loaded);
            && loaded <= w.loaded && Closed(files, w.loaded)
            && (w.sent.Ok? <==> forall r <- references :: r.Asset? ==> AllGood(files, r.path))
            && (w.sent.Ok? ==> AllWalkedWell(files, path, references, loaded, w))
    decreases Reach(files, path), 0, |references| - 1, 1
  {
    var q, others := references[0].path, references[1..];
    assert references == [references[0]] + others;
    var first := Walk(files, q, loaded);
    var sent := first.sent.value;
    var front := sent[..|sent| - 1];
    ConnectedSelf(files, q);
    SentForReferrer(files, path, q, loaded, front);
    assert first.loaded + {q} == loaded + Elements(sent);
    WalkAllWell(files, path, others, first.loaded + {q});
    var rest := WalkAll(files, path, others, first.loaded + {q});
    if rest.sent.Ok? {
      SentConcat(files, path, loaded, sent, rest.sent.value);
    }
  }

  /** A walk that goes well sends exactly what is reachable and not loaded, and the path itself. */
  lemma WalkSendsTheReachable(files: Files, path: Path, loaded: set<Path>)
    requires AcyclicFrom(files, path) && path in files && Closed(files, loaded) && AllGood(files, path)
    ensures var w := Walk(files, path, loaded);
            && w.sent.Ok?
            && Elements(w.sent.value) == Reach(files, path) - loaded + {path}
            && w.loaded == loaded + (Reach(files, path) - {path})
  {
    WalkWell(files, path, loaded);
    var w := Walk(files, path, loaded);
    var front := w.sent.value[..|w.sent.value| - 1];
    assert Elements(w.sent.value) == Elements(front) + {path};
    forall q | q in Reach(files, path) && q != path ensures q in w.loaded {
      ConnectedCases(files, path, q);
      var r :| Edge(files, path, r) && Connected(files, r, q);
      MarkedIsAllGood(files, w.loaded, r);
    }
    forall q | q in front ensures q in Reach(files, path) && q != path {
      assert Connected(files, path, q) && q in files;
    }
  }

  // ---------- importing dashboards, one after the other ----------

  /** The loader's marks, and the assets that really reached Kibana. */
  datatype Loader = Loader(loaded: set<Path>, uploaded: set<Path>)

  /** One call of ImportDashboard: is the Kibana version supported, and does the upload go through. */
  datatype Call = Call(file: Path, supported: bool, uploads: bool)

  ghost function ImportDashboard(files: Files, s: Loader, c: Call): (Loader, Result<seq<Path>, Problem>)
    requires AcyclicFrom(files, c.file)
  {
    if !c.supported then (s, Err(Unsupported))
    else if c.file !in files then (s, Err(Unreadable))
    else
      var w := Walk(files, c.file, s.loaded);
      if w.sent.Err? then (s.(loaded := w.loaded), Err(w.sent.error))
      else if !c.uploads then (s.(loaded := w.loaded), Err(UploadFailed))
      else (Loader(w.loaded + {c.file}, s.uploaded + Elements(w.sent.value)), w.sent)
  }

  ghost function ImportAll(files: Files, s: Loader, calls: seq<Call>): Loader
    requires forall c <- calls :: AcyclicFrom(files, c.file)
    decreases |calls|
  {
    if calls == [] then s else ImportAll(files, ImportDashboard(files, s, calls[0]).0, calls[1..])
  }

  lemma ImportKeepsClosed(files: Files, s: Loader, c: Call)
    requires AcyclicFrom(files, c.file) && Closed(files, s.loaded)
    ensures Closed(files, ImportDashboard(files, s, c).0.loaded)
  {
    if c.supported && c.file in files {
      WalkWell(files, c.file, s.loaded);
      AllGoodCases(files, c.file);
    }
  }

  /** The marks are closed under references after every series of imports, failed ones included. */
  lemma {:induction false} MarksStayClosed(files: Files, s: Loader, calls: seq<Call>)
    requires (forall c <- calls :: AcyclicFrom(files, c.file)) && Closed(files, s.loaded)
    ensures Closed(files, ImportAll(files, s, calls).loaded)
    decreases |calls|
  {
    if calls != [] {
      ImportKeepsClosed(files, s, calls[0]);
      MarksStayClosed(files, ImportDashboard(files, s, calls[0]).0, calls[1..]);
    }
  }

  /** A successful import leaves everything reachable from the dashboard sent in this call or marked before. */
  lemma SuccessfulImport(files: Files, s: Loader, c: Call)
    requires AcyclicFrom(files, c.file) && Closed(files, s.loaded) && ImportDashboard(files, s, c).1.Ok?
    ensures var (t, sent) := ImportDashboard(files, s, c);
            && Reach(files, c.file) <= t.loaded
            && Reach(files, c.file) <= Elements(sent.value) + s.loaded
            && (forall q :: Connected(files, c.file, q) ==> q in files)
  {
    WalkWell(files, c.file, s.loaded);
    WalkSendsTheReachable(files, c.file, s.loaded);
  }

  // ---------- when the marks tell what was uploaded ----------

  /** The first reference that the walk will follow. */
  function FirstUnmarked(references: seq<Reference>, loaded: set<Path>): (q: Option<Path>)
    ensures q.Some? ==> Asset(q.value) in references && q.value !in loaded
    ensures q.None? ==> forall r <- references :: r.Asset? ==> r.path in loaded
  {
    if references == [] then None
    else if references[0].Asset? && references[0].path !in loaded then Some(references[0].path)
    else FirstUnmarked(references[1..], loaded)
  }

  /** Going each time to the first unmarked reference leads to an asset that is missing or bad. */
  ghost predicate LeadsToBad(files: Files, path: Path, loaded: set<Path>)
    requires AcyclicFrom(files, path)
    decreases Reach(files, path)
  {
    path !in files || files[path].Garbage? ||
    var q := FirstUnmarked(files[path].references, loaded);
    if q.None? then !files[path].convertible
    else
      ReachShrinks(files, path, q.value);
      LeadsToBad(files, q.value, loaded)
  }

  lemma {:induction false} GoodDoesNotLead(files: Files, path: Path, loaded: set<Path>)
    requires AcyclicFrom(files, path) && AllGood(files, path)
    ensures !LeadsToBad(files, path, loaded)
    decreases Reach(files, path)
  {
    AllGoodCases(files, path);
    var q := FirstUnmarked(files[path].references, loaded);
    if q.Some? {
      ReachShrinks(files, path, q.value);
      GoodDoesNotLead(files, q.value, loaded);
    }
  }

  /** The loop gets to the first unmarked reference with nothing marked. */
  lemma {:induction false} WalkAllFirst(files: Files, path: Path, references: seq<Reference>, loaded: set<Path>)
    requires AcyclicFrom(files, path) && Closed(files, loaded)
    requires forall r <- references :: r.Asset? ==> Edge(files, path, r.path)
    ensures var q, w := FirstUnmarked(references, loaded), WalkAll(files, path, references, loaded);
            && (q.None? ==> w == Walked(Ok([]), loaded))
            && (q.Some? && q.value !in files ==> w == Walked(Err(Unreadable), loaded))
            && (q.Some? && q.value in files && AllGood(files, q.value) ==> q.value in w.loaded)
            && (q.Some? && q.value in files && !AllGood(files, q.value) ==>
                  AcyclicFrom(files, q.value) && w == Walk(files, q.value, loaded))
    decreases |references|
  {
    if references != [] {
      var ref := references[0];
      if ref.IndexPattern? || ref.path in loaded {
        WalkAllFirst(files, path, references[1..], loaded);
      } else if ref.path in files {
        ReachShrinks(files, path, ref.path);
        WalkWell(files, ref.path, loaded);
        if AllGood(files, ref.path) {
          FollowedIsMarked(files, path, references, loaded);
        }
      }
    }
  }

  lemma FollowedIsMarked(files: Files, path: Path, references: seq<Reference>, loaded: set<Path>)
    requires AcyclicFrom(files, path) && Closed(files, loaded)
    requires forall r <- references :: r.Asset? ==> Edge(files, path, r.path)
    requires references != [] && references[0].Asset? && references[0].path !in loaded && references[0].path in files
    requires AllGood(files, references[0].path) && AcyclicFrom(files, references[0].path)
    ensures references[0].path in WalkAll(files, path, references, loaded).loaded
  {
    var q := references[0].path;
    WalkWell(files, q, loaded);
    var first := Walk(files, q, loaded);
    ConnectedSelf(files, q);
    WalkAllWell(files, path, references[1..], first.loaded + {q});
  }

  /** A walk that fails marks nothing new exactly when its first unmarked references lead to the bad asset. */
  lemma {:induction false} NothingMarkedIff(files: Files, path: Path, loaded: set<Path>)
    requires AcyclicFrom(files, path) && path in files && Closed(files, loaded) && !AllGood(files, path)
    ensures Walk(files, path, loaded).loaded == loaded <==> LeadsToBad(files, path, loaded)
    decreases Reach(files, path)
  {
    if files[path].Document? {
      var references := files[path].references;
      var q := FirstUnmarked(references, loaded);
      WalkAllFirst(files, path, references, loaded);
      if q.None? {
        AllMarkedIsGood(files, path, loaded);
      } else {
        ReachShrinks(files, path, q.value);
        if q.value in files {
          if AllGood(files, q.value) {
            GoodDoesNotLead(files, q.value, loaded);
          } else {
            WalkWell(files, q.value, loaded);
            NothingMarkedIff(files, q.value, loaded);
          }
        }
      }
    }
  }

  lemma AllMarkedIsGood(files: Files, path: Path, loaded: set<Path>)
    requires Closed(files, loaded) && path in files && files[path].Document? && !AllGood(files, path)
    requires FirstUnmarked(files[path].references, loaded).None?
    ensures !files[path].convertible
  {
    AllGoodCases(files, path);
    forall q | Edge(files, path, q) ensures AllGood(files, q) {
      MarkedIsAllGood(files, loaded, q);
    }
  }

  /** The call succeeds. */
  ghost predicate Succeeds(files: Files, c: Call) {
    c.supported && c.file in files && AllGood(files, c.file) && c.uploads
  }

  /** The call leaves no mark of something that was not uploaded. */
  ghost predicate KeepsMarksTrue(files: Files, loaded: set<Path>, c: Call)
    requires AcyclicFrom(files, c.file)
  {
    || !c.supported
    || LeadsToBad(files, c.file, loaded)
    || (AllGood(files, c.file) && (c.uploads || Reach(files, c.file) - {c.file} <= loaded))
  }

  lemma ImportOutcome(files: Files, s: Loader, c: Call)
    requires AcyclicFrom(files, c.file) && Closed(files, s.loaded)
    ensures ImportDashboard(files, s, c).1.Ok? <==> Succeeds(files, c)
    ensures var t := ImportDashboard(files, s, c).0;
            t.uploaded == s.uploaded + if Succeeds(files, c) then Reach(files, c.file) - s.loaded + {c.file} else {}
    ensures var t := ImportDashboard(files, s, c).0;
            Succeeds(files, c) ==> t.loaded == s.loaded + Reach(files, c.file)
  {
    if c.supported && c.file in files {
      WalkWell(files, c.file, s.loaded);
      if AllGood(files, c.file) {
        WalkSendsTheReachable(files, c.file, s.loaded);
        ConnectedSelf(files, c.file);
      }
    }
  }

  /** The marks still tell exactly what was uploaded if and only if the call was one of those. */
  lemma MarksTellUploadsIff(files: Files, s: Loader, c: Call)
    requires AcyclicFrom(files, c.file) && Closed(files, s.loaded) && s.loaded == s.uploaded
    ensures var t := ImportDashboard(files, s, c).0;
            t.loaded == t.uploaded <==> KeepsMarksTrue(files, s.loaded, c)
    ensures KeepsMarksTrue(files, s.loaded, c) ==>
              ImportDashboard(files, s, c).0.loaded == MarksAfter(files, s.loaded, c)
  {
    ImportOutcome(files, s, c);
    if c.supported && c.file in files {
      if AllGood(files, c.file) {
        GoodDoesNotLead(files, c.file, s.loaded);
        WalkSendsTheReachable(files, c.file, s.loaded);
      } else {
        WalkWell(files, c.file, s.loaded);
        NothingMarkedIff(files, c.file, s.loaded);
      }
    } else if c.supported {
      ConnectedSelf(files, c.file);
    }
  }

  /** Such a call marks everything reachable when it succeeds, and nothing otherwise. */
  ghost function MarksAfter(files: Files, loaded: set<Path>, c: Call): set<Path> {
    if Succeeds(files, c) then loaded + Reach(files, c.file) else loaded
  }

  ghost predicate KeepMarksTrue(files: Files, loaded: set<Path>, calls: seq<Call>)
    requires forall c <- calls :: AcyclicFrom(files, c.file)
    decreases |calls|
  {
    calls == [] ||
    (KeepsMarksTrue(files, loaded, calls[0]) && KeepMarksTrue(files, MarksAfter(files, loaded, calls[0]), calls[1..]))
  }

  /** Over a series of such calls the marks tell what was uploaded: everything reachable from a successful import. */
  lemma {:induction false} MarksTellUploadsAlong(files: Files, s: Loader, calls: seq<Call>)
    requires forall c <- calls :: AcyclicFrom(files, c.file)
    requires Closed(files, s.loaded) && s.loaded == s.uploaded && KeepMarksTrue(files, s.loaded, calls)
    ensures var t := ImportAll(files, s, calls);
            && t.loaded == t.uploaded
            && forall q :: q in t.uploaded <==>
                 q in s.uploaded || exists c <- calls :: Succeeds(files, c) && q in Reach(files, c.file)
    decreases |calls|
  {
    if calls != [] {
      ImportKeepsClosed(files, s, calls[0]);
      MarksTellUploadsIff(files, s, calls[0]);
      MarksTellUploadsAlong(files, ImportDashboard(files, s, calls[0]).0, calls[1..]);
    }
  }

  /**
  What is marked but was not uploaded stays lost: a later series uploads it only if some call imports it as its own
  root, and succeeds.
  */
  lemma {:induction false} LostUnlessRoot(files: Files, s: Loader, calls: seq<Call>, a: Path)
    requires forall c <- calls :: AcyclicFrom(files, c.file)
    requires Closed(files, s.loaded) && a in s.loaded && a !in s.uploaded
    ensures a in ImportAll(files, s, calls).uploaded <==> exists c <- calls :: c.file == a && Succeeds(files, c)
    decreases |calls|
  {
    if calls != [] {
      var t := ImportDashboard(files, s, calls[0]).0;
      ImportKeepsClosed(files, s, calls[0]);
      ImportOutcome(files, s, calls[0]);
      ImportOnlyAdds(files, s, calls[0]);
      if a in t.uploaded {
        UploadsStay(files, t, calls[1..], a);
      } else {
        LostUnlessRoot(files, t, calls[1..], a);
      }
    }
  }

  lemma ImportOnlyAdds(files: Files, s: Loader, c: Call)
    requires AcyclicFrom(files, c.file) && Closed(files, s.loaded)
    ensures var t := ImportDashboard(files, s, c).0; s.loaded <= t.loaded && s.uploaded <= t.uploaded
  {
    if c.supported && c.file in files { WalkWell(files, c.file, s.loaded); }
  }

  lemma {:induction false} UploadsStay(files: Files, s: Loader, calls: seq<Call>, a: Path)
    requires forall c <- calls :: AcyclicFrom(files, c.file)
    requires Closed(files, s.loaded) && a in s.uploaded
    ensures a in ImportAll(files, s, calls).uploaded
    decreases |calls|
  {
    if calls != [] {
      ImportKeepsClosed(files, s, calls[0]);
      ImportOnlyAdds(files, s, calls[0]);
      UploadsStay(files, ImportDashboard(files, s, calls[0]).0, calls[1..], a);
    }
  }

  const Board := Path("dashboard/board.json")
  const Search := Path("search/logs.json")
  const TwoFiles := map[Board := Document([IndexPattern, Asset(Search)], true), Search := Document([], true)]

  /** A failed upload, then a retry: the retry sends the dashboard without the search it refers to. */
  lemma RetryLosesAnAsset()
    ensures AcyclicFrom(TwoFiles, Board)
    ensures var s := ImportDashboard(TwoFiles, Loader({}, {}), Call(Board, true, false)).0;
            ImportDashboard(TwoFiles, s, Call(Board, true, true)).1 == Ok([Board])
    ensures var s := ImportDashboard(TwoFiles, Loader({}, {}), Call(Board, true, false)).0;
            Search !in ImportDashboard(TwoFiles, s, Call(Board, true, true)).0.uploaded
  {
    TwoFilesAcyclic();
    assert Board != Search by {
      assert Board.text[0] != Search.text[0];
    }
    assert Walk(TwoFiles, Search, {}) == Walked(Ok([Search]), {}) by {
      assert WalkAll(TwoFiles, Search, [], {}) == Walked(Ok([]), {});
      assert [] + [Search] == [Search];
    }
    var refs := TwoFiles[Board].references;
    assert refs[1..] == [Asset(Search)] && refs[1..][1..] == [];
    assert WalkAll(TwoFiles, Board, refs[1..][1..], {Search}) == Walked(Ok([]), {Search});
    assert {} + {Search} == {Search};
    assert WalkAll(TwoFiles, Board, refs[1..], {}).loaded == {Search};
    assert WalkAll(TwoFiles, Board, refs[1..], {}).sent.Ok?;
    assert WalkAll(TwoFiles, Board, refs, {}).loaded == {Search};
    assert WalkAll(TwoFiles, Board, refs, {Search}) == Walked(Ok([]), {Search});
    assert Walk(TwoFiles, Board, {Search}) == Walked(Ok([Board]), {Search}) by {
      assert [] + [Board] == [Board];
    }
  }

  lemma TwoFilesAcyclic()
    ensures forall p :: AcyclicFrom(TwoFiles, p)
  {
    assert Board != Search by {
      assert Board.text[0] != Search.text[0];
    }
    forall p, q | Edge(TwoFiles, p, q) ensures !Connected(TwoFiles, q, p) {
      assert q == Search && p == Board;
      if Connected(TwoFiles, q, p) {
        ConnectedCases(TwoFiles, q, p);
      }
    }
  }

  // ---------- the loader as the original runs it ----------

  class KibanaLoader {
    const files: Files
    var loadedAssets: set<Path>

    /** What Kibana has received. */
    ghost var uploaded: set<Path>

    constructor (files: Files)
      ensures this.files == files && loadedAssets == uploaded == {}
    {
      this.files := files;
      loadedAssets, uploaded := {}, {};
    }

    /** `c` tells whether the Kibana version is supported and whether the upload goes through. */
    method Import(c: Call) returns (r: Result<seq<Path>, Problem>)
      requires AcyclicFrom(files, c.file)
      modifies this
      ensures (Loader(loadedAssets, uploaded), r) == ImportDashboard(files, old(Loader(loadedAssets, uploaded)), c)
    {
      if !c.supported {
        return Err(Unsupported);
      }
      if c.file !in files {
        return Err(Unreadable);
      }
      r := AddReferences(c.file);
      if r.Err? {
        return;
      }
      if !c.uploads {
        return Err(UploadFailed);
      }
      uploaded := uploaded + Elements(r.value);
      loadedAssets := loadedAssets + {c.file};
    }

    method AddReferences(path: Path) returns (r: Result<seq<Path>, Problem>)
      requires AcyclicFrom(files, path) && path in files
      modifies `loadedAssets
      ensures Walked(r, loadedAssets) == Walk(files, path, old(loadedAssets))
      decreases Reach(files, path)
    {
      if files[path].Garbage? {
        return Err(Unparsable);
      }
      var references := files[path].references;
      var result: seq<Path> := [];
      assert references[0..] == references;
      AfterNothing(WalkAll(files, path, references, loadedAssets));
      for i := 0 to |references|
        invariant Goes(files, path, references[i..], result, loadedAssets)
                  == WalkAll(files, path, references, old(loadedAssets))
      {
        assert references[i..][1..] == references[i + 1..];
        if references[i].Asset? && references[i].path !in loadedAssets {
          var q := references[i].path;
          if q !in files {
            return Err(Unreadable);
          }
          ReachShrinks(files, path, q);
          var inner := AddReferences(q);
          if inner.Err? {
            return Err(inner.error);
          }
          AppendAssoc(result, inner.value, WalkAll(files, path, references[i + 1..], loadedAssets + {q}));
          result := result + inner.value;
          loadedAssets := loadedAssets + {q};
        }
      }
      assert references[|references|..] == [] && result + [] == result;
      if !files[path].convertible {
        return Err(NotConvertible);
      }
      return Ok(result + [path]);
    }
  }

  /** The rest of the loop, with `result` already gathered. */
  ghost function Goes(files: Files, path: Path, references: seq<Reference>, result: seq<Path>, loaded: set<Path>): Walked
    requires AcyclicFrom(files, path) && forall r <- references :: r.Asset? ==> Edge(files, path, r.path)
  {
    After(result, WalkAll(files, path, references, loaded))
  }

  function After(result: seq<Path>, w: Walked): Walked {
    if w.sent.Err? then w else Walked(Ok(result + w.sent.value), w.loaded)
  }

  lemma AfterNothing(w: Walked)
    ensures After([], w) == w
  {
    if w.sent.Ok? {
      assert [] + w.sent.value == w.sent.value;
    }
  }

  lemma AppendAssoc(a: seq<Path>, b: seq<Path>, w: Walked)
    ensures After(a, After(b, w)) == After(a + b, w)
  {
    if w.sent.Ok? {
      assert a + (b + w.sent.value) == a + b + w.sent.value;
    }
  }
}
