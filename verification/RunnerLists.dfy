/**
The reloadable list of runners: `Reload` diffs the wanted configurations against the running ones.

A runner is the instance number the factory gave it; every successful `Create` makes a new instance.  Each reload comes
with the hashes for which the factory is able to create a runner, and the iteration order of Go maps is left open by
picking elements arbitrarily.
*/
module RunnerLists {
  import opened Collections
  import opened Options

  type Hash = nat
  type Instance = nat
  datatype Config = Config(text: string)

  datatype Event = Started(runner: Instance) | Stopped(runner: Instance)

  /** What can be seen of a runner list: its map, the instances made so far, the calls made on runners, the counters. */
  datatype View = View(runners: map<Hash, Instance>, made: nat, log: seq<Event>, starts: nat, stops: nat)

  const EmptyView := View(map[], 0, [], 0, 0)

  function Wanted(hash: Config -> Option<Hash>, configs: seq<Config>): set<Hash> {
    set c | c in configs && hash(c).Some? :: hash(c).value
  }

  predicate AllHash(hash: Config -> Option<Hash>, configs: seq<Config>) {
    forall c <- configs :: hash(c).Some?
  }

  /** `stops` stops exactly the runners of `hashes`, each once. */
  ghost predicate StopsOf(stops: seq<Event>, runners: map<Hash, Instance>, hashes: set<Hash>) {
    && hashes <= runners.Keys
    && Distinct(stops)
    && (forall e <- stops :: e.Stopped?)
    && (forall i: Instance :: Stopped(i) in stops <==> RunsFor(runners, hashes, i))
  }

  /** `starts` starts exactly the instances `from`, `from + 1`, ..., each once. */
  ghost predicate StartsOf(starts: seq<Event>, from: nat) {
    && (forall k :: 0 <= k < |starts| ==> starts[k] == Started(from + k))
  }

  predicate RunsFor(runners: map<Hash, Instance>, hashes: set<Hash>, i: Instance) {
    exists h <- hashes :: h in runners && runners[h] == i
  }

  predicate Injective(runners: map<Hash, Instance>) {
    forall h <- runners, k <- runners :: runners[h] == runners[k] ==> h == k
  }

  /** `w` adds the hashes of `order` to `u`: the k-th of them runs instance `made + k`. */
  ghost predicate Extended(u: map<Hash, Instance>, w: map<Hash, Instance>, order: seq<Hash>, made: nat) {
    && Distinct(order)
    && (forall h <- order :: h !in u)
    && w.Keys == u.Keys + Elements(order)
    && (forall h <- u :: w[h] == u[h])
    && (forall k :: 0 <= k < |order| ==> w[order[k]] == made + k)
  }

  /** From `u` to `w`, runners were created and started for the hashes of `order`, in that order. */
  ghost predicate StartPhase(u: View, w: View, order: seq<Hash>, starts: seq<Event>) {
    && Extended(u.runners, w.runners, order, u.made)
    && w.made == u.made + |order|
    && w.log == u.log + starts && StartsOf(starts, u.made) && |starts| == |order|
    && w.starts == u.starts + |order| && w.stops == u.stops
  }

  /** From `v` to `u`, the runners of `hashes` were stopped and dropped. */
  ghost predicate StopPhase(v: View, u: View, hashes: set<Hash>, stops: seq<Event>) {
    && StopsOf(stops, v.runners, hashes)
    && u.runners == v.runners - hashes
    && u.made == v.made && u.log == v.log + stops && u.starts == v.starts
  }

  /** A reload that wants `wanted` and managed to create runners for `order`: all stops, then all starts. */
  ghost predicate Reloaded(v: View, w: View, wanted: set<Hash>, order: seq<Hash>) {
    && (forall h <- order :: h in wanted && h !in v.runners)
    && exists u: View, stops: seq<Event>, starts: seq<Event> ::
         && StopPhase(v, u, v.runners.Keys - wanted, stops)
         && u.stops == v.stops + |v.runners.Keys - wanted|
         && StartPhase(u, w, order, starts)
  }

  /** Stop of the whole list; the counters are not touched. */
  ghost predicate StoppedAll(v: View, w: View) {
    w.stops == v.stops && exists stops: seq<Event> :: StopPhase(v, w, v.runners.Keys, stops)
  }

  class RunnerList {
    const hash: Config -> Option<Hash>
    var runners: map<Hash, Instance>
    var made: nat
    var moduleStarts: nat
    var moduleStops: nat
    var moduleRunning: nat
    ghost var log: seq<Event>
    ghost var origin: seq<Config>   // the configuration from which each instance was created

    ghost function Seen(): View
      reads this
    {
      View(runners, made, log, moduleStarts, moduleStops)
    }

    ghost predicate Valid()
      reads this
    {
      Ledger(Seen()) && OriginsFit()
    }

    ghost predicate OriginsFit()
      reads this
    {
      |origin| == made && Fitting(hash, origin, runners)
    }

    constructor (hash: Config -> Option<Hash>)
      ensures Valid() && Seen() == EmptyView && this.hash == hash
    {
      this.hash := hash;
      runners, made, moduleStarts, moduleStops, moduleRunning := map[], 0, 0, 0, 0;
      log, origin := [], [];
    }

    /** The diff of wanted against running: what to start and what to stop. */
    method Diff(configs: seq<Config>)
      returns (startList: map<Hash, Config>, stopList: map<Hash, Instance>, failed: bool)
      ensures startList.Keys == Wanted(hash, configs) - runners.Keys && FromList(hash, configs, startList)
      ensures stopList.Keys == runners.Keys - Wanted(hash, configs)
      ensures forall h <- stopList :: stopList[h] == runners[h]
      ensures failed <==> !AllHash(hash, configs)
    {
      startList, stopList, failed := map[], runners, false;
      for i := 0 to |configs|
        invariant startList.Keys == Wanted(hash, configs[..i]) - runners.Keys
        invariant FromList(hash, configs, startList)
        invariant stopList.Keys == runners.Keys - Wanted(hash, configs[..i])
        invariant forall h <- stopList :: stopList[h] == runners[h]
        invariant failed <==> !AllHash(hash, configs[..i])
      {
        WantedSnoc(hash, configs, i);
        match hash(configs[i]) {
          case None => failed := true;
          case Some(h) =>
            if h in runners {
              stopList := stopList - {h};
            } else {
              startList := startList[h := configs[i]];
            }
        }
      }
      assert configs[..|configs|] == configs;
    }

    /** Stops the runners of `hashes`, in any order, and takes them off the list. */
    method StopRunners(hashes: set<Hash>) returns (ghost stops: seq<Event>)
      requires hashes <= runners.Keys && Injective(runners)
      modifies this`runners, this`log
      ensures StopPhase(old(Seen()), Seen(), hashes, stops)
    {
      stops := [];
      var todo := hashes;
      while todo != {}
        invariant todo <= hashes
        invariant runners == old(runners) - (hashes - todo)
        invariant log == old(log) + stops && StopsOf(stops, old(runners), hashes - todo)
      {
        var h :| h in todo;
        StopsSnoc(stops, old(runners), hashes - todo, h);
        stops := stops + [Stopped(runners[h])];
        log := log + [Stopped(runners[h])];
        runners := runners - {h};
        assert hashes - (todo - {h}) == hashes - todo + {h};
        todo := todo - {h};
      }
      assert hashes - {} == hashes;
    }

    /** createRunner and Start for one configuration, if the factory is able to create a runner for it. */
    method StartOne(h: Hash, config: Config, able: set<Hash>) returns (ok: bool)
      requires OriginsFit() && hash(config) == Some(h)
      modifies this`runners, this`made, this`moduleStarts, this`log, this`origin
      ensures ok <==> h in able
      ensures ok ==> Seen() == WithRunner(old(Seen()), h) && origin == old(origin) + [config]
      ensures !ok ==> Seen() == old(Seen()) && origin == old(origin)
      ensures OriginsFit()
    {
      ok := h in able;
      if ok {
        runners := runners[h := made];
        log, origin := log + [Started(made)], origin + [config];
        made, moduleStarts := made + 1, moduleStarts + 1;
      }
    }

    /** Creates and starts runners one after the other, in any order, wherever the factory is able to. */
    method StartRunners(startList: map<Hash, Config>, able: set<Hash>)
      returns (failed: bool, ghost order: seq<Hash>, ghost starts: seq<Event>)
      requires startList.Keys !! runners.Keys && OriginsFit()
      requires forall h <- startList :: hash(startList[h]) == Some(h)
      modifies this`runners, this`made, this`moduleStarts, this`log, this`origin
      ensures Elements(order) == startList.Keys * able && (failed <==> !(startList.Keys <= able))
      ensures StartPhase(old(Seen()), Seen(), order, starts)
      ensures OriginsFit() && CreatedFrom(startList.Values, old(origin), origin)
    {
      failed, order, starts := false, [], [];
      ghost var u := Seen();
      var todo := startList.Keys;
      while todo != {}
        invariant todo <= startList.Keys
        invariant Elements(order) == (startList.Keys - todo) * able && (failed <==> !(startList.Keys - todo <= able))
        invariant todo !! runners.Keys
        invariant StartPhase(u, Seen(), order, starts)
        invariant OriginsFit() && CreatedFrom(startList.Values, old(origin), origin)
      {
        var h :| h in todo;
        ghost var w, before := Seen(), origin;
        var ok := StartOne(h, startList[h], able);
        TriedOne(startList.Keys, todo, able, h);
        if ok {
          CreatedOneMore(startList.Values, old(origin), before, startList[h]);
          StartPhaseAdd(u, w, order, starts, h);
          starts, order := starts + [Started(w.made)], order + [h];
        } else {
          failed := true;
        }
        todo := todo - {h};
      }
      assert startList.Keys - {} == startList.Keys;
    }

    /** The stops of a reload are counted. */
    method StopCounted(stopList: map<Hash, Instance>) returns (ghost stops: seq<Event>)
      requires Valid() && stopList.Keys <= runners.Keys
      modifies this`runners, this`log, this`moduleStops
      ensures Valid() && StopPhase(old(Seen()), Seen(), stopList.Keys, stops)
      ensures moduleStops == old(moduleStops) + |stopList.Keys|
    {
      ghost var v := Seen();
      stops := StopRunners(stopList.Keys);
      moduleStops := moduleStops + |stopList|;
      assert |stopList| == |stopList.Keys|;
      LedgerStops(v, Seen(), stopList.Keys, stops);
      FittingLess(hash, origin, v.runners, stopList.Keys);
    }

    /** Brings the list to the wanted state as far as the factory lets it; an error is reported for what it could not. */
    method Reload(configs: seq<Config>, able: set<Hash>) returns (failed: bool, ghost order: seq<Hash>)
      requires Valid()
      modifies this
      ensures Valid()
      ensures Reloaded(old(Seen()), Seen(), Wanted(hash, configs), order)
      ensures Elements(order) == (Wanted(hash, configs) - old(runners.Keys)) * able
      ensures failed <==> !AllHash(hash, configs) || !(Wanted(hash, configs) - old(runners.Keys) <= able)
      ensures moduleRunning == |runners|
      ensures CreatedFrom(Elements(configs), old(origin), origin)
    {
      ghost var v := Seen();
      var startList, stopList, hashFailed := Diff(configs);
      ghost var stops := StopCounted(stopList);
      ghost var u := Seen();
      var createFailed;
      ghost var starts;
      createFailed, order, starts := StartRunners(startList, able);
      moduleRunning := |runners|;
      failed := hashFailed || createFailed;
      LedgerStarts(u, Seen(), order, starts);
      CreatedFromList(hash, configs, startList, old(origin), origin);
      ReloadedIn(v, u, Seen(), Wanted(hash, configs), order, stops, starts);
    }

    method Stop()
      requires Valid()
      modifies this`runners, this`log
      ensures Valid()
      ensures StoppedAll(old(Seen()), Seen())
    {
      ghost var v := Seen();
      if |runners| == 0 {
        assert StopPhase(v, v, v.runners.Keys, []);
        return;
      }
      ghost var stops := StopRunners(runners.Keys);
      FittingLess(hash, origin, v.runners, v.runners.Keys);
      LedgerStops(v, Seen(), v.runners.Keys, stops);
    }
  }

  /** Every runner was created from a configuration with the hash under which it is listed. */
  ghost predicate Fitting(hash: Config -> Option<Hash>, origin: seq<Config>, runners: map<Hash, Instance>) {
    forall h <- runners :: runners[h] < |origin| && hash(origin[runners[h]]) == Some(h)
  }

  lemma FittingLess(hash: Config -> Option<Hash>, origin: seq<Config>, runners: map<Hash, Instance>, gone: set<Hash>)
    requires Fitting(hash, origin, runners)
    ensures Fitting(hash, origin, runners - gone)
  {
  }

  /** Each configuration comes from the list and has the hash under which it stands. */
  predicate FromList(hash: Config -> Option<Hash>, configs: seq<Config>, startList: map<Hash, Config>) {
    forall h <- startList :: startList[h] in configs && hash(startList[h]) == Some(h)
  }

  /** The new instances were created from these configurations. */
  predicate CreatedFrom(configs: set<Config>, before: seq<Config>, after: seq<Config>) {
    before <= after && forall i | |before| <= i < |after| :: after[i] in configs
  }

  lemma CreatedOneMore(configs: set<Config>, before: seq<Config>, after: seq<Config>, c: Config)
    requires CreatedFrom(configs, before, after) && c in configs
    ensures CreatedFrom(configs, before, after + [c])
  {
  }

  lemma CreatedFromList(hash: Config -> Option<Hash>, configs: seq<Config>, startList: map<Hash, Config>,
                        before: seq<Config>, after: seq<Config>)
    requires FromList(hash, configs, startList) && CreatedFrom(startList.Values, before, after)
    ensures CreatedFrom(Elements(configs), before, after)
  {
  }

  lemma TriedOne(keys: set<Hash>, todo: set<Hash>, able: set<Hash>, h: Hash)
    requires h in todo && todo <= keys
    ensures (keys - (todo - {h})) * able == (keys - todo) * able + (if h in able then {h} else {})
    ensures keys - (todo - {h}) <= able <==> keys - todo <= able && h in able
  {
    assert keys - (todo - {h}) == keys - todo + {h};
  }

  /** A new instance is created for `h` and started. */
  function WithRunner(w: View, h: Hash): View {
    View(w.runners[h := w.made], w.made + 1, w.log + [Started(w.made)], w.starts + 1, w.stops)
  }

  lemma WantedSnoc(hash: Config -> Option<Hash>, configs: seq<Config>, i: nat)
    requires i < |configs|
    ensures Wanted(hash, configs[..i + 1])
            == Wanted(hash, configs[..i]) + (if hash(configs[i]).Some? then {hash(configs[i]).value} else {})
    ensures AllHash(hash, configs[..i + 1]) <==> AllHash(hash, configs[..i]) && hash(configs[i]).Some?
  {
    assert configs[..i + 1] == configs[..i] + [configs[i]];
  }

  lemma ExtendedAdd(u: map<Hash, Instance>, w: map<Hash, Instance>, order: seq<Hash>, made: nat, h: Hash)
    requires Extended(u, w, order, made) && h !in w
    ensures Extended(u, w[h := made + |order|], order + [h], made)
    ensures Elements(order + [h]) == Elements(order) + {h}
  {
    assert Elements(order + [h]) == Elements(order) + {h};
    assert Elements(order) <= w.Keys;
    assert forall k :: 0 <= k < |order| ==> order[k] in Elements(order);
  }

  /** One more successful StartOne. */
  lemma StartPhaseAdd(u: View, w: View, order: seq<Hash>, starts: seq<Event>, h: Hash)
    requires StartPhase(u, w, order, starts) && h !in w.runners
    ensures StartPhase(u, WithRunner(w, h), order + [h], starts + [Started(w.made)])
    ensures Elements(order + [h]) == Elements(order) + {h}
  {
    ExtendedAdd(u.runners, w.runners, order, u.made, h);
  }

  lemma StopsSnoc(stops: seq<Event>, runners: map<Hash, Instance>, hashes: set<Hash>, h: Hash)
    requires StopsOf(stops, runners, hashes) && h in runners && h !in hashes && Injective(runners)
    ensures StopsOf(stops + [Stopped(runners[h])], runners, hashes + {h})
  {
  }

  // ---------- the ledger of starts and stops ----------

  ghost predicate StartsLogged(log: seq<Event>, made: nat) {
    forall i: Instance :: Started(i) in log <==> i < made
  }

  ghost predicate StopsLogged(log: seq<Event>, made: nat, runners: map<Hash, Instance>) {
    forall i: Instance :: Stopped(i) in log <==> i < made && !RunsFor(runners, runners.Keys, i)
  }

  ghost predicate StopAfterStart(log: seq<Event>) {
    forall n :: 0 <= n < |log| && log[n].Stopped? ==> Started(log[n].runner) in log[..n]
  }

  /**
  Every instance was started once, before it was stopped; it was stopped once, unless it is still in the list;
  no two hashes share an instance.
  */
  ghost predicate Ledger(v: View) {
    && Injective(v.runners)
    && (forall h <- v.runners :: v.runners[h] < v.made)
    && Distinct(v.log)
    && StartsLogged(v.log, v.made)
    && StopsLogged(v.log, v.made, v.runners)
    && StopAfterStart(v.log)
  }

  lemma StopAfterStartConcat(log: seq<Event>, more: seq<Event>)
    requires StopAfterStart(log) && forall e <- more :: e.Stopped? ==> Started(e.runner) in log
    ensures StopAfterStart(log + more)
  {
    var all := log + more;
    forall n | 0 <= n < |all| && all[n].Stopped?
      ensures Started(all[n].runner) in all[..n]
    {
      if n < |log| {
        assert all[..n] == log[..n];
      } else {
        assert all[n] in more;
        assert all[..n] == log + more[..n - |log|];
      }
    }
  }

  /** Stopping the runners of `hashes` and dropping them keeps the ledger. */
  lemma LedgerStops(v: View, w: View, hashes: set<Hash>, stops: seq<Event>)
    requires Ledger(v) && StopPhase(v, w, hashes, stops)
    ensures Ledger(w)
  {
    StopAfterStartConcat(v.log, stops);
    forall i: Instance
      ensures RunsFor(v.runners, v.runners.Keys, i) <==>
                RunsFor(w.runners, w.runners.Keys, i) || RunsFor(v.runners, hashes, i)
      ensures !(RunsFor(w.runners, w.runners.Keys, i) && RunsFor(v.runners, hashes, i))
    {
      if RunsFor(v.runners, v.runners.Keys, i) {
        var h :| h in v.runners && v.runners[h] == i;
        assert h in hashes || (h in w.runners && w.runners[h] == i);
      }
    }
  }

  /** Starting new instances keeps the ledger. */
  lemma LedgerStarts(v: View, w: View, order: seq<Hash>, starts: seq<Event>)
    requires Ledger(v) && StartPhase(v, w, order, starts)
    ensures Ledger(w)
  {
    StopAfterStartConcat(v.log, starts);
    assert StartsLogged(w.log, w.made) by {
      assert forall i: Instance :: v.made <= i < w.made ==> starts[i - v.made] == Started(i);
    }
    ExtendedRuns(v.runners, w.runners, order, v.made);
    DistinctStarts(v.log, starts, v.made);
  }

  lemma DistinctStarts(log: seq<Event>, starts: seq<Event>, made: nat)
    requires Distinct(log) && StartsLogged(log, made) && StartsOf(starts, made)
    ensures Distinct(log + starts)
  {
    assert forall k :: 0 <= k < |starts| ==> starts[k] !in log;
  }

  lemma ExtendedRuns(v: map<Hash, Instance>, w: map<Hash, Instance>, order: seq<Hash>, made: nat)
    requires Extended(v, w, order, made) && Injective(v) && forall h <- v :: v[h] < made
    ensures Injective(w) && forall h <- w :: w[h] < made + |order|
    ensures forall i: Instance :: RunsFor(w, w.Keys, i) <==> RunsFor(v, v.Keys, i) || made <= i < made + |order|
  {
    forall h | h in w
      ensures h in v || exists k :: 0 <= k < |order| && order[k] == h && w[h] == made + k
    {
      if h !in v {
        assert h in Elements(order);
        var k :| 0 <= k < |order| && order[k] == h;
      }
    }
    forall i: Instance
      ensures RunsFor(w, w.Keys, i) <==> RunsFor(v, v.Keys, i) || made <= i < made + |order|
    {
      if RunsFor(v, v.Keys, i) {
        var h :| h in v && v[h] == i;
        assert h in w && w[h] == i;
      } else if made <= i < made + |order| {
        assert order[i - made] in Elements(order) && w[order[i - made]] == i;
      }
    }
  }

  lemma ReloadedIn(
    v: View, u: View, w: View, wanted: set<Hash>, order: seq<Hash>, stops: seq<Event>, starts: seq<Event>)
    requires StopPhase(v, u, v.runners.Keys - wanted, stops) && u.stops == v.stops + |v.runners.Keys - wanted|
    requires StartPhase(u, w, order, starts) && Elements(order) <= wanted - v.runners.Keys
    ensures Reloaded(v, w, wanted, order)
  {
    assert forall h <- order :: h in Elements(order);
  }

  // ---------- what a reload leaves, and histories of calls ----------

  lemma ExtendedLeaves(u: map<Hash, Instance>, w: map<Hash, Instance>, order: seq<Hash>, made: nat)
    requires Extended(u, w, order, made)
    ensures w.Keys == u.Keys + Elements(order)
    ensures forall h <- u :: h !in order ==> w[h] == u[h]
    ensures forall h <- w :: h !in u ==> made <= w[h] < made + |order|
  {
    forall h | h in w && h !in u ensures made <= w[h] < made + |order| {
      assert h in Elements(order);
      var k :| 0 <= k < |order| && order[k] == h;
    }
  }

  /** Exactly the wanted runners that were running already, as the same instances, and those created. */
  lemma ReloadLeaves(v: View, w: View, wanted: set<Hash>, order: seq<Hash>)
    requires Reloaded(v, w, wanted, order)
    ensures w.runners.Keys == v.runners.Keys * wanted + Elements(order)
    ensures forall h :: h in v.runners && h in wanted ==> w.runners[h] == v.runners[h]
    ensures forall h <- w.runners :: h !in v.runners ==> v.made <= w.runners[h] < w.made
  {
    var u: View, stops: seq<Event>, starts: seq<Event> :|
      StopPhase(v, u, v.runners.Keys - wanted, stops) && StartPhase(u, w, order, starts);
    ExtendedLeaves(u.runners, w.runners, order, u.made);
  }

  /** moduleStarts minus moduleStops is the number of runners. */
  predicate Balanced(v: View) {
    v.starts - v.stops == |v.runners|
  }

  lemma {:induction false} ElementsSize<T>(s: seq<T>)
    requires Distinct(s)
    ensures |Elements(s)| == |s|
  {
    if s != [] {
      var front, last := s[..|s| - 1], s[|s| - 1];
      ElementsSize(front);
      assert Elements(s) == Elements(front) + {last};
    }
  }

  lemma ReplacedSize<T>(before: set<T>, wanted: set<T>, added: set<T>)
    requires added !! before
    ensures |before * wanted + added| == |before| - |before - wanted| + |added|
  {
    assert before == before * wanted + (before - wanted);
  }

  /** A reload counts exactly what it changes. */
  lemma ReloadCounts(v: View, w: View, wanted: set<Hash>, order: seq<Hash>)
    requires Reloaded(v, w, wanted, order)
    ensures (w.starts - v.starts) - (w.stops - v.stops) == |w.runners| - |v.runners|
  {
    ReloadLeaves(v, w, wanted, order);
    var u: View, stops: seq<Event>, starts: seq<Event> :|
      && StopPhase(v, u, v.runners.Keys - wanted, stops)
      && u.stops == v.stops + |v.runners.Keys - wanted|
      && StartPhase(u, w, order, starts);
    ElementsSize(order);
    ReplacedSize(v.runners.Keys, wanted, Elements(order));
    assert |v.runners| == |v.runners.Keys| && |w.runners| == |w.runners.Keys|;
  }

  lemma ReloadBalances(v: View, w: View, wanted: set<Hash>, order: seq<Hash>)
    requires Reloaded(v, w, wanted, order) && Balanced(v)
    ensures Balanced(w)
  {
    ReloadCounts(v, w, wanted, order);
  }

  /** Stop does not count its stops: the balance survives it exactly when nothing was running. */
  lemma StopBalancesIffEmpty(v: View, w: View)
    requires StoppedAll(v, w) && Balanced(v)
    ensures Balanced(w) <==> v.runners == map[]
  {
    assert w.runners == map[];
    assert v.runners.Keys == {} ==> v.runners == map[];
  }

  datatype Call = ReloadCall(wanted: set<Hash>, order: seq<Hash>) | StopCall

  /** The views of a list after each of a series of calls. */
  ghost predicate History(views: seq<View>, calls: seq<Call>) {
    && |views| == |calls| + 1
    && views[0] == EmptyView
    && (forall n :: 0 <= n < |calls| ==>
          match calls[n]
          case ReloadCall(wanted, order) => Reloaded(views[n], views[n + 1], wanted, order)
          case StopCall => StoppedAll(views[n], views[n + 1]))
  }

  /**
  Over any series of Reload and Stop calls every instance is started once and stopped at most once, after its start,
  and exactly the instances in the list are started and not stopped.
  */
  lemma {:induction false} LedgerAlongHistory(views: seq<View>, calls: seq<Call>)
    requires History(views, calls)
    ensures Ledger(views[|calls|])
    decreases |calls|
  {
    if calls != [] {
      var n := |calls| - 1;
      LedgerAlongHistory(views[..n + 1], calls[..n]);
      var v, w := views[n], views[n + 1];
      match calls[n] {
        case ReloadCall(wanted, order) =>
          var u: View, stops: seq<Event>, starts: seq<Event> :|
            StopPhase(v, u, v.runners.Keys - wanted, stops) && StartPhase(u, w, order, starts);
          LedgerStops(v, u, v.runners.Keys - wanted, stops);
          LedgerStarts(u, w, order, starts);
        case StopCall =>
          var stops: seq<Event> :| StopPhase(v, w, v.runners.Keys, stops);
          LedgerStops(v, w, v.runners.Keys, stops);
      }
    }
  }

  /** Over Reload calls alone the counters tell the number of runners. */
  lemma {:induction false} BalancedAlongReloads(views: seq<View>, calls: seq<Call>)
    requires History(views, calls) && forall c <- calls :: c.ReloadCall?
    ensures Balanced(views[|calls|])
    decreases |calls|
  {
    if calls != [] {
      var n := |calls| - 1;
      BalancedAlongReloads(views[..n + 1], calls[..n]);
      assert calls[n] in calls;
      ReloadBalances(views[n], views[n + 1], calls[n].wanted, calls[n].order);
    }
  }

  // ---------- the counters of the process ----------

  /** All lists of the process share the counters; a view holds what its list has contributed to them. */
  datatype Process = Process(lists: seq<View>, starts: int, stops: int, running: nat)

  function Running(lists: seq<View>): nat {
    if lists == [] then 0 else |lists[0].runners| + Running(lists[1..])
  }

  lemma {:induction false} RunningUpdate(lists: seq<View>, i: nat, w: View)
    requires i < |lists|
    ensures Running(lists[i := w]) == Running(lists) - |lists[i].runners| + |w.runners|
  {
    if i == 0 {
      assert lists[i := w][1..] == lists[1..];
    } else {
      assert lists[i := w][1..] == lists[1..][i - 1 := w];
      RunningUpdate(lists[1..], i - 1, w);
    }
  }

  ghost predicate CallOn(v: View, w: View, c: Call) {
    match c
    case ReloadCall(wanted, order) => Reloaded(v, w, wanted, order)
    case StopCall => StoppedAll(v, w)
  }

  /** A call on list `i`; only a reload sets the running metric, to the size of its own list. */
  ghost predicate ProcessStep(a: Process, b: Process, i: nat, c: Call) {
    && i < |a.lists| == |b.lists|
    && CallOn(a.lists[i], b.lists[i], c)
    && b.lists == a.lists[i := b.lists[i]]
    && b.starts == a.starts + b.lists[i].starts - a.lists[i].starts
    && b.stops == a.stops + b.lists[i].stops - a.lists[i].stops
    && b.running == if c.ReloadCall? then |b.lists[i].runners| else a.running
  }

  /** Starts minus stops grows by the runners that appear, and by those that Stop drops without counting. */
  lemma StepCounts(a: Process, b: Process, i: nat, c: Call)
    requires ProcessStep(a, b, i, c)
    ensures (b.starts - b.stops) - (a.starts - a.stops) ==
            Running(b.lists) - Running(a.lists) + if c.StopCall? then |a.lists[i].runners| else 0
  {
    var v, w := a.lists[i], b.lists[i];
    RunningUpdate(a.lists, i, w);
    if c.ReloadCall? {
      ReloadCounts(v, w, c.wanted, c.order);
    } else {
      assert w.runners == map[];
    }
  }

  datatype ProcessCall = ProcessCall(list: nat, call: Call)

  ghost predicate ProcessHistory(states: seq<Process>, calls: seq<ProcessCall>) {
    && |states| == |calls| + 1
    && states[0].starts == states[0].stops == 0 && Running(states[0].lists) == 0
    && forall n :: 0 <= n < |calls| ==> ProcessStep(states[n], states[n + 1], calls[n].list, calls[n].call)
  }

  /** The runners that calls of Stop have stopped. */
  ghost function StoppedByStop(states: seq<Process>, calls: seq<ProcessCall>): nat
    requires ProcessHistory(states, calls)
    decreases |calls|
  {
    if calls == [] then 0
    else
      var n := |calls| - 1;
      assert ProcessStep(states[n], states[n + 1], calls[n].list, calls[n].call);
      StoppedByStop(states[..n + 1], calls[..n]) +
      if calls[n].call.StopCall? then |states[n].lists[calls[n].list].runners| else 0
  }

  /** Over any calls on any lists of the process, starts minus stops is the runners there are and those Stop has stopped. */
  lemma {:induction false} CountersAlongHistory(states: seq<Process>, calls: seq<ProcessCall>)
    requires ProcessHistory(states, calls)
    ensures var p := states[|calls|]; p.starts - p.stops == Running(p.lists) + StoppedByStop(states, calls)
    decreases |calls|
  {
    if calls != [] {
      var n := |calls| - 1;
      CountersAlongHistory(states[..n + 1], calls[..n]);
      StepCounts(states[n], states[n + 1], calls[n].list, calls[n].call);
    }
  }

  /** After a reload the running metric tells the runners of the process exactly when no other list has any. */
  lemma RunningMetricIff(a: Process, b: Process, i: nat, c: Call)
    requires ProcessStep(a, b, i, c) && c.ReloadCall?
    ensures b.running == Running(b.lists) <==> forall k: nat :: k < |b.lists| && k != i ==> b.lists[k].runners == map[]
  {
    RunningAtLeast(b.lists, i);
    if forall k: nat :: k < |b.lists| && k != i ==> b.lists[k].runners == map[] {
      RunningOnly(b.lists, i);
    } else {
      var k: nat :| k < |b.lists| && k != i && b.lists[k].runners != map[];
      RunningTwo(b.lists, i, k);
    }
  }

  lemma {:induction false} RunningAtLeast(lists: seq<View>, i: nat)
    requires i < |lists|
    ensures |lists[i].runners| <= Running(lists)
  {
    if i > 0 { RunningAtLeast(lists[1..], i - 1); }
  }

  lemma {:induction false} RunningNone(lists: seq<View>)
    requires forall k: nat :: k < |lists| ==> lists[k].runners == map[]
    ensures Running(lists) == 0
  {
    if lists != [] {
      forall k: nat | k < |lists[1..]| ensures lists[1..][k].runners == map[] {
        assert lists[k + 1].runners == map[];
      }
      RunningNone(lists[1..]);
    }
  }

  lemma {:induction false} RunningOnly(lists: seq<View>, i: nat)
    requires i < |lists| && forall k: nat :: k < |lists| && k != i ==> lists[k].runners == map[]
    ensures Running(lists) == |lists[i].runners|
  {
    forall k: nat | k < |lists[1..]| && k + 1 != i ensures lists[1..][k].runners == map[] {
      assert lists[k + 1].runners == map[];
    }
    if i == 0 {
      RunningNone(lists[1..]);
    } else {
      RunningOnly(lists[1..], i - 1);
    }
  }

  lemma {:induction false} RunningTwo(lists: seq<View>, i: nat, k: nat)
    requires i < |lists| && k < |lists| && i != k && lists[k].runners != map[]
    ensures |lists[i].runners| < Running(lists)
  {
    if i == 0 {
      RunningAtLeast(lists[1..], k - 1);
    } else if k == 0 {
      RunningAtLeast(lists[1..], i - 1);
    } else {
      RunningTwo(lists[1..], i - 1, k - 1);
    }
  }
}
