/**
Why no cycle of references may be within reach.  Here the walk runs with a bound on the depth of its recursion, on any
graph, and answers `None` when the bound is reached.
*/
module DashboardCycles {
  import opened Collections
  import opened Options
  import opened Dashboards

  function Bounded(files: Files, path: Path, loaded: set<Path>, depth: nat): Option<Walked>
    requires path in files
    decreases depth, 0
  {
    if depth == 0 then None
    else if files[path].Garbage? then Some(Walked(Err(Unparsable), loaded))
    else
      var refs := BoundedAll(files, files[path].references, loaded, depth - 1);
      if refs.None? || refs.value.sent.Err? then refs
      else if !files[path].convertible then Some(Walked(Err(NotConvertible), refs.value.loaded))
      else Some(Walked(Ok(refs.value.sent.value + [path]), refs.value.loaded))
  }

  function BoundedAll(files: Files, references: seq<Reference>, loaded: set<Path>, depth: nat): Option<Walked>
    decreases depth, 1 + |references|
  {
    if references == [] then Some(Walked(Ok([]), loaded))
    else if references[0].IndexPattern? || references[0].path in loaded then
      BoundedAll(files, references[1..], loaded, depth)
    else if references[0].path !in files then Some(Walked(Err(Unreadable), loaded))
    else
      var first := Bounded(files, references[0].path, loaded, depth);
      if first.None? || first.value.sent.Err? then first
      else
        var rest := BoundedAll(files, references[1..], first.value.loaded + {references[0].path}, depth);
        if rest.None? || rest.value.sent.Err? then rest
        else Some(Walked(Ok(first.value.sent.value + rest.value.sent.value), rest.value.loaded))
  }

  lemma ReachSmaller(files: Files, p: Path, q: Path)
    requires Edge(files, p, q) && !Connected(files, q, p)
    ensures |Reach(files, q)| < |Reach(files, p)|
  {
    forall r | r in Reach(files, q) ensures r in Reach(files, p) {
      ConnectedStep(files, p, q, r);
    }
    ConnectedSelf(files, p);
    assert p in Reach(files, p) && p !in Reach(files, q);
    SubsetSize(Reach(files, q), Reach(files, p) - {p});
  }

  /** Without a cycle within reach the walk ends within as many calls as there are assets to reach. */
  lemma {:induction false} AcyclicEnds(files: Files, path: Path, loaded: set<Path>, depth: nat)
    requires AcyclicFrom(files, path) && path in files && |Reach(files, path)| <= depth
    ensures Bounded(files, path, loaded, depth) == Some(Walk(files, path, loaded))
    decreases depth, 0
  {
    ConnectedSelf(files, path);
    assert path in Reach(files, path);
    if files[path].Document? {
      AllEnd(files, path, files[path].references, loaded, depth - 1);
    }
  }

  lemma {:induction false} AllEnd(files: Files, path: Path, references: seq<Reference>, loaded: set<Path>, depth: nat)
    requires AcyclicFrom(files, path) && |Reach(files, path)| <= depth + 1
    requires forall r <- references :: r.Asset? ==> Edge(files, path, r.path)
    ensures BoundedAll(files, references, loaded, depth) == Some(WalkAll(files, path, references, loaded))
    decreases depth, 1 + |references|
  {
    if references != [] {
      var r, rest := references[0], references[1..];
      if r.IndexPattern? || r.path in loaded {
        AllEnd(files, path, rest, loaded, depth);
      } else if r.path in files {
        AcyclicBelow(files, path, r.path);
        ReachSmaller(files, path, r.path);
        AcyclicEnds(files, r.path, loaded, depth);
        AllEnd(files, path, rest, Walk(files, r.path, loaded).loaded + {r.path}, depth);
      }
    }
  }

  ghost predicate RefersInto(files: Files, p: Path, trap: set<Path>) {
    exists q :: q in trap && Edge(files, p, q)
  }

  /** Every asset of the set refers to one of the set. */
  ghost predicate Trap(files: Files, trap: set<Path>) {
    forall p {:trigger RefersInto(files, p, trap)} :: p in trap ==> RefersInto(files, p, trap)
  }

  predicate Ended(w: Option<Walked>) {
    w.Some? && w.value.sent.Ok?
  }

  /** A walk that comes into a trap does not end well, and no walk marks anything of it. */
  lemma {:induction false} TrapNeverEnds(files: Files, trap: set<Path>, path: Path, loaded: set<Path>, depth: nat)
    requires Trap(files, trap) && path in files && trap !! loaded
    ensures path in trap ==> !Ended(Bounded(files, path, loaded, depth))
    ensures var w := Bounded(files, path, loaded, depth); Ended(w) ==> trap !! w.value.loaded
    decreases depth, 0
  {
    if depth > 0 && files[path].Document? {
      var references := files[path].references;
      TrapInList(files, trap, references, loaded, depth - 1);
      if path in trap {
        assert RefersInto(files, path, trap);
        var q :| q in trap && Edge(files, path, q);
        assert Asset(q) in references;
      }
    }
  }

  lemma {:induction false} TrapInList(
    files: Files, trap: set<Path>, references: seq<Reference>, loaded: set<Path>, depth: nat)
    requires Trap(files, trap) && trap !! loaded
    ensures (exists r <- references :: r.Asset? && r.path in trap) ==> !Ended(BoundedAll(files, references, loaded, depth))
    ensures var w := BoundedAll(files, references, loaded, depth); Ended(w) ==> trap !! w.value.loaded
    decreases depth, 1 + |references|
  {
    if references != [] {
      var r, rest := references[0], references[1..];
      assert forall s <- references :: s == r || s in rest;
      if r.IndexPattern? || r.path in loaded {
        TrapInList(files, trap, rest, loaded, depth);
      } else if r.path in files {
        TrapNeverEnds(files, trap, r.path, loaded, depth);
        var first := Bounded(files, r.path, loaded, depth);
        if Ended(first) {
          TrapInList(files, trap, rest, first.value.loaded + {r.path}, depth);
        }
      }
    }
  }

  /** An error only comes from something bad within reach. */
  lemma {:induction false} GoodHasNoError(files: Files, path: Path, loaded: set<Path>, depth: nat)
    requires path in files && AllGood(files, path)
    ensures var w := Bounded(files, path, loaded, depth); w.Some? ==> w.value.sent.Ok?
    decreases depth, 0
  {
    ConnectedSelf(files, path);
    if depth > 0 {
      AllGoodCases(files, path);
      GoodListHasNoError(files, files[path].references, loaded, depth - 1);
    }
  }

  lemma {:induction false} GoodListHasNoError(files: Files, references: seq<Reference>, loaded: set<Path>, depth: nat)
    requires forall r <- references :: r.Asset? ==> AllGood(files, r.path)
    ensures var w := BoundedAll(files, references, loaded, depth); w.Some? ==> w.value.sent.Ok?
    decreases depth, 1 + |references|
  {
    if references != [] {
      var r, rest := references[0], references[1..];
      if r.Asset? && r.path !in loaded {
        ConnectedSelf(files, r.path);
        assert Good(files, r.path);
        GoodHasNoError(files, r.path, loaded, depth);
        var first := Bounded(files, r.path, loaded, depth);
        if first.Some? {
          GoodListHasNoError(files, rest, first.value.loaded + {r.path}, depth);
        }
      } else {
        GoodListHasNoError(files, rest, loaded, depth);
      }
    }
  }

  /** The assets from which references lead to `p`. */
  ghost function Towards(files: Files, p: Path): set<Path> {
    set x | x in files && Connected(files, x, p)
  }

  lemma CycleIsTrap(files: Files, p: Path, q: Path)
    requires Edge(files, p, q) && Connected(files, q, p)
    ensures Trap(files, Towards(files, p))
  {
    forall x | x in Towards(files, p) ensures RefersInto(files, x, Towards(files, p)) {
      ConnectedCases(files, x, p);
      var y := if x == p then q else var y :| Edge(files, x, y) && Connected(files, y, p); y;
      ConnectedInFiles(files, y, p);
      assert y in Towards(files, p) && Edge(files, x, y);
    }
  }

  lemma ConnectedInFiles(files: Files, x: Path, p: Path)
    requires Connected(files, x, p) && p in files
    ensures x in files
  {
    ConnectedCases(files, x, p);
  }

  lemma CycleNeverEnds(files: Files, path: Path, p: Path, q: Path, depth: nat)
    requires path in files && Connected(files, path, p) && Edge(files, p, q) && Connected(files, q, p)
    ensures !Ended(Bounded(files, path, {}, depth))
  {
    CycleIsTrap(files, p, q);
    TrapNeverEnds(files, Towards(files, p), path, {}, depth);
  }

  /** With all assets good and none marked, the walk ends at some depth exactly when no cycle is within reach. */
  lemma EndsIffNoCycle(files: Files, path: Path)
    requires path in files && AllGood(files, path)
    ensures (exists depth: nat :: Bounded(files, path, {}, depth).Some?) <==> AcyclicFrom(files, path)
  {
    if AcyclicFrom(files, path) {
      AcyclicEnds(files, path, {}, |Reach(files, path)|);
    }
    if depth: nat :| Bounded(files, path, {}, depth).Some? {
      GoodHasNoError(files, path, {}, depth);
      forall p, q | Connected(files, path, p) && Edge(files, p, q) ensures !Connected(files, q, p) {
        if Connected(files, q, p) {
          CycleNeverEnds(files, path, p, q, depth);
        }
      }
    }
  }

  // ---------- any marks, any assets ----------

  /** Everything within reach is good, and all that is on a cycle is marked. */
  ghost predicate Fine(files: Files, marks: set<Path>, p: Path) {
    && AllGood(files, p)
    && (forall x, y :: Connected(files, p, x) && Edge(files, x, y) && Connected(files, y, x) ==> x in marks)
  }

  lemma FineBelow(files: Files, marks: set<Path>, p: Path, q: Path)
    requires Fine(files, marks, p) && Edge(files, p, q)
    ensures Fine(files, marks, q)
  {
    forall x | Connected(files, q, x) ensures Connected(files, p, x) {
      ConnectedStep(files, p, q, x);
    }
  }

  lemma FineAbove(files: Files, marks: set<Path>, p: Path)
    requires Good(files, p) && forall q :: Edge(files, p, q) ==> Fine(files, marks, q)
    ensures Fine(files, marks, p)
  {
    AllGoodCases(files, p);
    forall x, y | Connected(files, p, x) && Edge(files, x, y) && Connected(files, y, x) ensures x in marks {
      ConnectedCases(files, p, x);
      if x == p {
        assert Fine(files, marks, y);
      }
    }
  }

  /** The marks of a walk so far: closed, and with nothing new that was not fine from the start. */
  ghost predicate Sofar(files: Files, marks: set<Path>, loaded: set<Path>) {
    marks <= loaded && forall x <- loaded :: Fine(files, marks, x)
  }

  lemma MarksAreFine(files: Files, marks: set<Path>)
    requires Closed(files, marks)
    ensures Sofar(files, marks, marks)
  {
    forall x | x in marks ensures Fine(files, marks, x) {
      MarkedIsAllGood(files, marks, x);
    }
  }

  /** Only fine assets are walked with success. */
  lemma {:induction false} EndedIsFine(files: Files, marks: set<Path>, path: Path, loaded: set<Path>, depth: nat)
    requires Sofar(files, marks, loaded) && path in files
    ensures var w := Bounded(files, path, loaded, depth);
            Ended(w) ==> Fine(files, marks, path) && Sofar(files, marks, w.value.loaded)
    decreases depth, 0
  {
    if Ended(Bounded(files, path, loaded, depth)) {
      ListEndedIsFine(files, marks, files[path].references, loaded, depth - 1);
      FineAbove(files, marks, path);
    }
  }

  lemma {:induction false} ListEndedIsFine(
    files: Files, marks: set<Path>, references: seq<Reference>, loaded: set<Path>, depth: nat)
    requires Sofar(files, marks, loaded)
    ensures var w := BoundedAll(files, references, loaded, depth);
            Ended(w) ==>
            && (forall r <- references :: r.Asset? ==> Fine(files, marks, r.path))
            && Sofar(files, marks, w.value.loaded)
    decreases depth, 1 + |references|
  {
    if references != [] && Ended(BoundedAll(files, references, loaded, depth)) {
      var r, rest := references[0], references[1..];
      assert forall s <- references :: s == r || s in rest;
      if r.IndexPattern? || r.path in loaded {
        ListEndedIsFine(files, marks, rest, loaded, depth);
      } else {
        EndedIsFine(files, marks, r.path, loaded, depth);
        ListEndedIsFine(files, marks, rest, Bounded(files, r.path, loaded, depth).value.loaded + {r.path}, depth);
      }
    }
  }

  /** Following references from an unmarked fine asset leaves less to reach. */
  lemma UnmarkedShrinks(files: Files, marks: set<Path>, p: Path, q: Path)
    requires Fine(files, marks, p) && p !in marks && Edge(files, p, q)
    ensures |Reach(files, q) - marks| < |Reach(files, p) - marks|
  {
    forall r | r in Reach(files, q) ensures r in Reach(files, p) {
      ConnectedStep(files, p, q, r);
    }
    ConnectedSelf(files, p);
    SubsetSize(Reach(files, q) - marks, (Reach(files, p) - marks) - {p});
  }

  /** Fine assets are walked with success, within as many calls as there is unmarked to reach. */
  lemma {:induction false} FineEnds(files: Files, marks: set<Path>, path: Path, loaded: set<Path>, depth: nat)
    requires Closed(files, marks) && Sofar(files, marks, loaded) && Fine(files, marks, path)
    requires |Reach(files, path) - marks| < depth
    ensures path in files && Ended(Bounded(files, path, loaded, depth))
    decreases depth, 0
  {
    ConnectedSelf(files, path);
    assert Good(files, path);
    forall r <- files[path].references | r.Asset?
      ensures Fine(files, marks, r.path) && (r.path in loaded || |Reach(files, r.path) - marks| < depth - 1)
    {
      assert Edge(files, path, r.path);
      FineBelow(files, marks, path, r.path);
      if path !in marks { UnmarkedShrinks(files, marks, path, r.path); }
    }
    FineListEnds(files, marks, files[path].references, loaded, depth - 1);
  }

  lemma {:induction false} FineListEnds(
    files: Files, marks: set<Path>, references: seq<Reference>, loaded: set<Path>, depth: nat)
    requires Closed(files, marks) && Sofar(files, marks, loaded)
    requires forall r <- references :: r.Asset? ==>
               Fine(files, marks, r.path) && (r.path in loaded || |Reach(files, r.path) - marks| < depth)
    ensures Ended(BoundedAll(files, references, loaded, depth))
    decreases depth, 1 + |references|
  {
    if references != [] {
      var r, rest := references[0], references[1..];
      if r.IndexPattern? || r.path in loaded {
        FineListEnds(files, marks, rest, loaded, depth);
      } else {
        FineEnds(files, marks, r.path, loaded, depth);
        EndedIsFine(files, marks, r.path, loaded, depth);
        EndedGrows(files, r.path, loaded, depth);
        FineListEnds(files, marks, rest, Bounded(files, r.path, loaded, depth).value.loaded + {r.path}, depth);
      }
    }
  }

  lemma {:induction false} EndedGrows(files: Files, path: Path, loaded: set<Path>, depth: nat)
    requires path in files
    ensures var w := Bounded(files, path, loaded, depth); w.Some? ==> loaded <= w.value.loaded
    decreases depth, 0
  {
    if depth > 0 && files[path].Document? {
      ListGrows(files, files[path].references, loaded, depth - 1);
    }
  }

  lemma {:induction false} ListGrows(files: Files, references: seq<Reference>, loaded: set<Path>, depth: nat)
    ensures var w := BoundedAll(files, references, loaded, depth); w.Some? ==> loaded <= w.value.loaded
    decreases depth, 1 + |references|
  {
    if references != [] {
      var r, rest := references[0], references[1..];
      if r.IndexPattern? || r.path in loaded {
        ListGrows(files, rest, loaded, depth);
      } else if r.path in files {
        EndedGrows(files, r.path, loaded, depth);
        var first := Bounded(files, r.path, loaded, depth);
        if Ended(first) {
          ListGrows(files, rest, first.value.loaded + {r.path}, depth);
        }
      }
    }
  }

  /** The first reference that the walk cannot get past. */
  ghost function FirstUnfine(files: Files, marks: set<Path>, references: seq<Reference>): Option<Path> {
    if references == [] then None
    else if references[0].Asset? && !Fine(files, marks, references[0].path) then Some(references[0].path)
    else FirstUnfine(files, marks, references[1..])
  }

  /** The walk has an answer here: the asset is missing or no document, or all its references are fine. */
  ghost predicate Stops(files: Files, marks: set<Path>, p: Path) {
    p !in files || files[p].Garbage? || FirstUnfine(files, marks, files[p].references).None?
  }

  /** Following the first reference that is not fine each time leads to where the walk stops. */
  ghost predicate LeadsToEnd(files: Files, marks: set<Path>, c: seq<Path>) {
    && c != [] && Stops(files, marks, c[|c| - 1])
    && forall i | 0 <= i < |c| - 1 ::
         c[i] in files && files[c[i]].Document? && FirstUnfine(files, marks, files[c[i]].references) == Some(c[i + 1])
  }

  lemma LeadsFurther(files: Files, marks: set<Path>, c: seq<Path>)
    requires LeadsToEnd(files, marks, c) && |c| > 1
    ensures LeadsToEnd(files, marks, c[1..])
  {
    var d := c[1..];
    forall i | 0 <= i < |d| - 1
      ensures d[i] in files && files[d[i]].Document? && FirstUnfine(files, marks, files[d[i]].references) == Some(d[i + 1])
    {
      assert d[i] == c[i + 1] && d[i + 1] == c[i + 2];
    }
  }

  lemma ReachSize(files: Files, marks: set<Path>, p: Path)
    ensures |Reach(files, p) - marks| <= |files.Keys|
  {
    SubsetSize(Reach(files, p) - marks, files.Keys);
  }

  lemma {:induction false} LeadingEnds(files: Files, marks: set<Path>, c: seq<Path>, loaded: set<Path>, depth: nat)
    requires Closed(files, marks) && Sofar(files, marks, loaded) && LeadsToEnd(files, marks, c) && c[0] in files
    requires |files.Keys| + |c| < depth
    ensures Bounded(files, c[0], loaded, depth).Some?
    decreases depth, 0
  {
    if files[c[0]].Document? {
      if |c| > 1 { LeadsFurther(files, marks, c); }
      LeadingListEnds(files, marks, c, files[c[0]].references, loaded, depth - 1);
    }
  }

  lemma {:induction false} LeadingListEnds(
    files: Files, marks: set<Path>, c: seq<Path>, references: seq<Reference>, loaded: set<Path>, depth: nat)
    requires Closed(files, marks) && Sofar(files, marks, loaded) && c != [] && |files.Keys| + |c| <= depth
    requires FirstUnfine(files, marks, references) == if |c| == 1 then None else Some(c[1])
    requires |c| > 1 ==> LeadsToEnd(files, marks, c[1..])
    ensures BoundedAll(files, references, loaded, depth).Some?
    decreases depth, 1 + |references|
  {
    if references != [] {
      var r, rest := references[0], references[1..];
      if r.IndexPattern? || r.path in loaded {
        LeadingListEnds(files, marks, c, rest, loaded, depth);
      } else if Fine(files, marks, r.path) {
        ReachSize(files, marks, r.path);
        FineEnds(files, marks, r.path, loaded, depth);
        EndedIsFine(files, marks, r.path, loaded, depth);
        LeadingListEnds(files, marks, c, rest, Bounded(files, r.path, loaded, depth).value.loaded + {r.path}, depth);
      } else if r.path in files {
        LeadingEnds(files, marks, c[1..], loaded, depth);
        EndedIsFine(files, marks, r.path, loaded, depth);
      }
    }
  }

  lemma {:induction false} EndingLeads(files: Files, marks: set<Path>, path: Path, loaded: set<Path>, depth: nat)
    returns (c: seq<Path>)
    requires Sofar(files, marks, loaded) && path in files && Bounded(files, path, loaded, depth).Some?
    ensures LeadsToEnd(files, marks, c) && c[0] == path
    decreases depth, 0
  {
    c := [path];
    if files[path].Document? && FirstUnfine(files, marks, files[path].references).Some? {
      var d := EndingListLeads(files, marks, files[path].references, loaded, depth - 1);
      c := [path] + d;
      assert c[|c| - 1] == d[|d| - 1];
    }
  }

  lemma {:induction false} EndingListLeads(
    files: Files, marks: set<Path>, references: seq<Reference>, loaded: set<Path>, depth: nat)
    returns (d: seq<Path>)
    requires Sofar(files, marks, loaded) && BoundedAll(files, references, loaded, depth).Some?
    requires FirstUnfine(files, marks, references).Some?
    ensures LeadsToEnd(files, marks, d) && FirstUnfine(files, marks, references) == Some(d[0])
    decreases depth, 1 + |references|
  {
    var r, rest := references[0], references[1..];
    if r.IndexPattern? || r.path in loaded {
      d := EndingListLeads(files, marks, rest, loaded, depth);
    } else if Fine(files, marks, r.path) {
      ConnectedSelf(files, r.path);
      GoodHasNoError(files, r.path, loaded, depth);
      EndedIsFine(files, marks, r.path, loaded, depth);
      d := EndingListLeads(files, marks, rest, Bounded(files, r.path, loaded, depth).value.loaded + {r.path}, depth);
    } else if r.path in files {
      d := EndingLeads(files, marks, r.path, loaded, depth);
    } else {
      d := [r.path];
    }
  }

  /**
  From any marks a series of imports leaves, and with bad assets too, the walk ends exactly when following the first
  reference that is not fine each time comes to an asset that is missing or bad or has only fine references.
  */
  lemma EndsIffItLeadsToEnd(files: Files, path: Path, marks: set<Path>)
    requires path in files && Closed(files, marks)
    ensures (exists depth: nat :: Bounded(files, path, marks, depth).Some?) <==>
            exists c :: LeadsToEnd(files, marks, c) && c[0] == path
  {
    MarksAreFine(files, marks);
    if c :| LeadsToEnd(files, marks, c) && c[0] == path {
      LeadingEnds(files, marks, c, marks, |files.Keys| + |c| + 1);
    }
    if depth: nat :| Bounded(files, path, marks, depth).Some? {
      var c := EndingLeads(files, marks, path, marks, depth);
    }
  }

  /** And it ends with success exactly when everything within reach is good and no unmarked cycle is. */
  lemma SucceedsIffFine(files: Files, path: Path, marks: set<Path>)
    requires path in files && Closed(files, marks)
    ensures (exists depth: nat :: Ended(Bounded(files, path, marks, depth))) <==> Fine(files, marks, path)
  {
    MarksAreFine(files, marks);
    if Fine(files, marks, path) {
      FineEnds(files, marks, path, marks, |Reach(files, path) - marks| + 1);
    }
    if depth: nat :| Ended(Bounded(files, path, marks, depth)) {
      EndedIsFine(files, marks, path, marks, depth);
    }
  }
}
