/**
The autodiscover worker: start and stop events edit the desired configurations of an event id; a timer reloads the
runner list when the flags `updated` or `retry` say so.
*/
module Autodiscover {
  import opened Collections
  import opened Options
  import opened RunnerLists

  /** The id under which an event's configurations are stored; an event without provider or id has none. */
  datatype EventId = NoId | Id(text: string)

  type Configs = map<Hash, Config>
  type Desired = map<EventId, Configs>
  type Hasher = Config -> Option<Hash>

  /** One configuration generated from an event, and whether the factory's CheckConfig accepts it. */
  datatype Proposal = Proposal(config: Config, passes: bool)

  /** A bus event; `proposals` is what CreateConfig makes of it, `None` when that fails. */
  datatype BusEvent = BusEvent(
    start: bool, stop: bool, provider: Option<string>, id: Option<string>, proposals: Option<seq<Proposal>>)

  function GetID(e: BusEvent): EventId {
    match (e.provider, e.id)
    case (Some(p), Some(i)) => Id(p + ":" + i)
    case _ => NoId
  }

  /** Events share an id exactly when they come from one instance of one provider; provider names have no colon. */
  lemma GetIDTells(a: BusEvent, b: BusEvent)
    requires a.provider.Some? && ':' !in a.provider.value && b.provider.Some? && ':' !in b.provider.value
    ensures GetID(a).NoId? <==> a.id.None?
    ensures a.id.Some? && b.id.Some? ==> (GetID(a) == GetID(b) <==> a.provider == b.provider && a.id == b.id)
  {
    if a.id.Some? && b.id.Some? && GetID(a) == GetID(b) {
      var p, i, q, j := a.provider.value, a.id.value, b.provider.value, b.id.value;
      var text := GetID(a).text;
      ColonEndsProvider(p, i, q, j);
      ColonEndsProvider(q, j, p, i);
      assert p == text[..|p|] && q == text[..|q|];
      assert i == text[|p| + 1..] && j == text[|q| + 1..];
    }
  }

  lemma ColonEndsProvider(p: string, i: string, q: string, j: string)
    requires p + ":" + i == q + ":" + j && ':' !in q
    ensures |p| >= |q|
  {
    var text := q + ":" + j;
    assert (p + ":" + i)[|p|] == ':';
    assert forall k | 0 <= k < |q| :: text[k] == q[k];
  }

  // ---------- the worker as a state machine ----------

  datatype Worker = Worker(desired: Desired, running: set<Hash>, updated: bool, retry: bool)

  /** What the worker reacts to; `Timer` carries the hashes for which the factory is able to create a runner. */
  datatype Input =
    | Start(id: EventId, proposals: Option<seq<Proposal>>)
    | Stop(id: EventId)
    | Timer(creatable: set<Hash>)

  const Idle := Worker(map[], {}, false, false)

  function Stored(d: Desired, id: EventId): Configs {
    if id in d then d[id] else map[]
  }

  /** All hashes that some event id wants. */
  function Hashes(d: Desired): set<Hash> {
    set id, h | id in d && h in d[id] :: h
  }

  /** The hashes that an event's proposals lead to: already stored, or accepted by the check. */
  function Accepted(hash: Hasher, stored: Configs, proposals: seq<Proposal>): set<Hash> {
    set p | p in proposals && hash(p.config).Some? && (hash(p.config).value in stored || p.passes) :: hash(p.config).value
  }

  /** The configurations to store for an event: the stored one of a hash, or else the first one accepted. */
  function Gather(hash: Hasher, stored: Configs, proposals: seq<Proposal>): Configs {
    if proposals == [] then map[]
    else
      var front, p := Gather(hash, stored, proposals[..|proposals| - 1]), proposals[|proposals| - 1];
      match hash(p.config)
      case None => front
      case Some(h) =>
        if h in front then front
        else if h in stored then front[h := stored[h]]
        else if p.passes then front[h := p.config]
        else front
  }

  function Step(hash: Hasher, w: Worker, input: Input): Worker {
    match input
    case Start(id, proposals) =>
      if id.NoId? then w
      else if proposals.None? then w.(desired := w.desired[id := Stored(w.desired, id)])
      else
        var next := Gather(hash, Stored(w.desired, id), proposals.value);
        w.(desired := w.desired[id := next], updated := w.updated || next.Keys != Stored(w.desired, id).Keys)
    case Stop(id) =>
      if id.NoId? then w
      else w.(desired := w.desired - {id}, updated := w.updated || |Stored(w.desired, id)| > 0)
    case Timer(creatable) =>
      if !w.updated && !w.retry then w
      else
        var wanted := Hashes(w.desired);
        w.(running := w.running * wanted + (wanted - w.running) * creatable,
           updated := false,
           retry := !(wanted - w.running <= creatable))
  }

  function After(hash: Hasher, w: Worker, inputs: seq<Input>): Worker
    decreases |inputs|
  {
    if inputs == [] then w else After(hash, Step(hash, w, inputs[0]), inputs[1..])
  }

  /** With both flags down the running hashes are exactly the desired ones. */
  ghost predicate Synced(w: Worker) {
    !w.updated && !w.retry ==> w.running == Hashes(w.desired)
  }

  /** Gathering keeps exactly the accepted hashes, and the stored configuration of a stored hash. */
  lemma {:induction false} GatherKeys(hash: Hasher, stored: Configs, proposals: seq<Proposal>)
    ensures Gather(hash, stored, proposals).Keys == Accepted(hash, stored, proposals)
    ensures forall h <- Gather(hash, stored, proposals) ::
              if h in stored then Gather(hash, stored, proposals)[h] == stored[h]
              else hash(Gather(hash, stored, proposals)[h]) == Some(h)
  {
    if proposals != [] {
      var front, p := proposals[..|proposals| - 1], proposals[|proposals| - 1];
      assert proposals == front + [p];
      GatherKeys(hash, stored, front);
    }
  }

  /** The counting step: no key outside the stored ones and not fewer of them leaves the stored keys. */
  lemma SameKeys(a: set<Hash>, b: set<Hash>)
    requires a <= b && |a| >= |b|
    ensures a == b
  {
    if a != b {
      var x :| x in b && x !in a;
      SubsetSize(a, b - {x});
    }
  }

  /** A new key or a smaller size is noticed exactly when the key set changes. */
  lemma NoticedExactly(stored: Configs, next: Configs)
    requires forall h <- next :: h in stored ==> next[h] == stored[h]
    ensures !(next.Keys <= stored.Keys) || |next| < |stored| <==> next.Keys != stored.Keys
    ensures next.Keys == stored.Keys ==> next == stored
  {
    if next.Keys <= stored.Keys && |next| >= |stored| {
      SameKeys(next.Keys, stored.Keys);
    }
  }

  /** Storing the same keys for an event id again changes no desired hash. */
  lemma SameHashes(d: Desired, id: EventId, next: Configs)
    requires next.Keys == Stored(d, id).Keys
    ensures Hashes(d[id := next]) == Hashes(d)
  {
    var t := d[id := next];
    forall h ensures h in Hashes(t) <==> h in Hashes(d) {
      if h in Hashes(d) {
        var i :| i in d && h in d[i];
        assert i in t && h in t[i];
      }
      if h in Hashes(t) {
        var i :| i in t && h in t[i];
        assert i in d && h in d[i];
      }
    }
  }

  /** Forgetting an event id without configurations changes no desired hash. */
  lemma ForgetNothing(d: Desired, id: EventId)
    requires Stored(d, id) == map[]
    ensures Hashes(d - {id}) == Hashes(d)
  {
    var t := d - {id};
    forall h | h in Hashes(d) ensures h in Hashes(t) {
      var i :| i in d && h in d[i];
      assert i in t && h in t[i];
    }
  }

  lemma StartSynced(hash: Hasher, w: Worker, id: EventId, proposals: Option<seq<Proposal>>)
    requires Synced(w)
    ensures Synced(Step(hash, w, Start(id, proposals)))
  {
    var stored := Stored(w.desired, id);
    if proposals.None? {
      SameHashes(w.desired, id, stored);
    } else {
      var next := Gather(hash, stored, proposals.value);
      if next.Keys == stored.Keys {
        SameHashes(w.desired, id, next);
      }
    }
  }

  lemma StepSynced(hash: Hasher, w: Worker, input: Input)
    requires Synced(w)
    ensures Synced(Step(hash, w, input))
  {
    match input
    case Start(id, proposals) =>
      StartSynced(hash, w, id, proposals);
    case Stop(id) =>
      if |Stored(w.desired, id)| == 0 { ForgetNothing(w.desired, id); }
    case Timer(_) =>
      var wanted := Hashes(w.desired);
      assert w.running * wanted + (wanted - w.running) == wanted;
  }

  /** No start, stop or resync is ever lost: the flags tell the truth in every reachable state. */
  lemma {:induction false} FlagsNeverLoseAnUpdate(hash: Hasher, w: Worker, inputs: seq<Input>)
    requires Synced(w)
    ensures Synced(After(hash, w, inputs))
    decreases |inputs|
  {
    if inputs != [] {
      StepSynced(hash, w, inputs[0]);
      FlagsNeverLoseAnUpdate(hash, Step(hash, w, inputs[0]), inputs[1..]);
    }
  }

  /** A reload for which every missing runner can be created leaves exactly the desired hashes and both flags down. */
  lemma TimerSettles(hash: Hasher, w: Worker, creatable: set<Hash>)
    requires Synced(w) && Hashes(w.desired) - w.running <= creatable
    ensures var t := Step(hash, w, Timer(creatable));
            t.running == Hashes(w.desired) && t.desired == w.desired && !t.updated && !t.retry
  {
    var wanted := Hashes(w.desired);
    assert w.running * wanted + (wanted - w.running) == wanted;
    assert (wanted - w.running) * creatable == wanted - w.running;
  }

  /** At every moment of the run some event id wants the hash. */
  ghost predicate WantedThroughout(hash: Hasher, w: Worker, inputs: seq<Input>, h: Hash)
    decreases |inputs|
  {
    h in Hashes(w.desired) && (inputs == [] || WantedThroughout(hash, Step(hash, w, inputs[0]), inputs[1..], h))
  }

  /** A hash that some event id wants at every moment keeps running, whatever else starts, stops and is reloaded. */
  lemma {:induction false} SharedHashSurvives(hash: Hasher, w: Worker, inputs: seq<Input>, h: Hash)
    requires h in w.running && WantedThroughout(hash, w, inputs, h)
    ensures h in After(hash, w, inputs).running
    decreases |inputs|
  {
    if inputs != [] {
      SharedHashSurvives(hash, Step(hash, w, inputs[0]), inputs[1..], h);
    }
  }

  /** The input does not take the hash from the event id. */
  predicate Spares(hash: Hasher, input: Input, id: EventId, h: Hash) {
    match input
    case Start(other, proposals) =>
      other == id && proposals.Some? ==> exists p <- proposals.value :: hash(p.config) == Some(h)
    case Stop(other) => other != id
    case Timer(_) => true
  }

  lemma SparedStep(hash: Hasher, w: Worker, input: Input, id: EventId, h: Hash)
    requires id in w.desired && h in w.desired[id] && Spares(hash, input, id, h)
    ensures var t := Step(hash, w, input); id in t.desired && h in t.desired[id]
  {
    if input.Start? && input.id == id && input.proposals.Some? {
      var stored := Stored(w.desired, id);
      GatherKeys(hash, stored, input.proposals.value);
      var p :| p in input.proposals.value && hash(p.config) == Some(h);
      assert h in Accepted(hash, stored, input.proposals.value);
    }
  }

  /** One event id that is never stopped and goes on proposing the hash is enough, whatever the other ids do. */
  lemma {:induction false} SparedIsWanted(hash: Hasher, w: Worker, inputs: seq<Input>, id: EventId, h: Hash)
    requires id in w.desired && h in w.desired[id] && forall input <- inputs :: Spares(hash, input, id, h)
    ensures WantedThroughout(hash, w, inputs, h)
    decreases |inputs|
  {
    if inputs != [] {
      assert Spares(hash, inputs[0], id, h);
      SparedStep(hash, w, inputs[0], id, h);
      SparedIsWanted(hash, Step(hash, w, inputs[0]), inputs[1..], id, h);
    }
  }

  // ---------- what start and stop events lead to ----------

  /** The other event ids keep their configurations. */
  ghost predicate OthersKept(a: Desired, b: Desired, id: EventId) {
    forall other :: other != id ==> (other in a <==> other in b) && (other in a ==> b[other] == a[other])
  }

  /** A stop takes away what is stored for the id and nothing else, and is noticed exactly when something was stored. */
  lemma StopForgets(hash: Hasher, w: Worker, id: EventId)
    requires id.Id?
    ensures var t := Step(hash, w, Stop(id));
            && id !in t.desired && OthersKept(w.desired, t.desired, id)
            && (t.updated <==> w.updated || (id in w.desired && w.desired[id] != map[]))
            && t.running == w.running && t.retry == w.retry
  {
  }

  /** A start stores the accepted hashes for the id and nothing else, and is noticed exactly when they are others. */
  lemma StartStores(hash: Hasher, w: Worker, id: EventId, proposals: seq<Proposal>)
    requires id.Id?
    ensures var t := Step(hash, w, Start(id, Some(proposals)));
            && id in t.desired && t.desired[id].Keys == Accepted(hash, Stored(w.desired, id), proposals)
            && OthersKept(w.desired, t.desired, id)
            && (t.updated <==> w.updated || t.desired[id].Keys != Stored(w.desired, id).Keys)
            && t.running == w.running && t.retry == w.retry
  {
    GatherKeys(hash, Stored(w.desired, id), proposals);
  }

  /** A tick leaves only wanted hashes running, all of them that ran before or can be created. */
  lemma TickRunsTheWanted(hash: Hasher, w: Worker, creatable: set<Hash>)
    requires Synced(w)
    ensures var t, wanted := Step(hash, w, Timer(creatable)), Hashes(w.desired);
            && t.desired == w.desired && t.running <= wanted
            && (forall h <- wanted :: h in w.running || h in creatable ==> h in t.running)
  {
  }

  /** The input does not bring the hash to any event id. */
  predicate Withholds(hash: Hasher, input: Input, h: Hash) {
    input.Start? && input.proposals.Some? ==> forall p <- input.proposals.value :: hash(p.config) != Some(h)
  }

  lemma UnwantedStep(hash: Hasher, w: Worker, input: Input, h: Hash)
    requires h !in Hashes(w.desired) && Withholds(hash, input, h)
    ensures h !in Hashes(Step(hash, w, input).desired)
    ensures h !in w.running ==> h !in Step(hash, w, input).running
  {
    var t := Step(hash, w, input);
    forall id | id in t.desired ensures h !in t.desired[id] {
      assert id in w.desired ==> h !in w.desired[id];
      if input.Start? && input.id == id && input.proposals.Some? {
        GatherKeys(hash, Stored(w.desired, id), input.proposals.value);
        assert h !in Accepted(hash, Stored(w.desired, id), input.proposals.value);
      }
    }
  }

  lemma {:induction false} UnwantedAlong(hash: Hasher, w: Worker, inputs: seq<Input>, h: Hash)
    requires h !in Hashes(w.desired) && forall input <- inputs :: Withholds(hash, input, h)
    ensures h !in Hashes(After(hash, w, inputs).desired)
    ensures h !in w.running ==> h !in After(hash, w, inputs).running
    decreases |inputs|
  {
    if inputs != [] {
      assert Withholds(hash, inputs[0], h);
      UnwantedStep(hash, w, inputs[0], h);
      UnwantedAlong(hash, Step(hash, w, inputs[0]), inputs[1..], h);
    }
  }

  /**
  After the stop of the only event id that wanted a hash, and a tick at any later time, the hash does not run, and it
  stays so until some start proposes it again.
  */
  lemma StoppedIsGone(
    hash: Hasher, w: Worker, id: EventId, a: seq<Input>, creatable: set<Hash>, b: seq<Input>, h: Hash)
    requires Synced(w) && id.Id? && (forall other <- w.desired :: other != id ==> h !in w.desired[other])
    requires (forall input <- a :: Withholds(hash, input, h)) && (forall input <- b :: Withholds(hash, input, h))
    ensures var t := After(hash, w, [Stop(id)] + a + [Timer(creatable)] + b);
            h !in t.running && h !in Hashes(t.desired)
  {
    var stopped := Step(hash, w, Stop(id));
    StepSynced(hash, w, Stop(id));
    FlagsNeverLoseAnUpdate(hash, stopped, a);
    UnwantedAlong(hash, stopped, a, h);
    var later := After(hash, stopped, a);
    TickRunsTheWanted(hash, later, creatable);
    UnwantedAlong(hash, Step(hash, later, Timer(creatable)), b, h);
    OneInput(hash, w, Stop(id));
    OneInput(hash, later, Timer(creatable));
    AfterConcat(hash, w, [Stop(id)], a);
    AfterConcat(hash, w, [Stop(id)] + a, [Timer(creatable)]);
    AfterConcat(hash, w, [Stop(id)] + a + [Timer(creatable)], b);
  }

  lemma {:induction false} AfterConcat(hash: Hasher, w: Worker, a: seq<Input>, b: seq<Input>)
    ensures After(hash, w, a + b) == After(hash, After(hash, w, a), b)
    decreases |a|
  {
    if a == [] {
      assert a + b == b;
    } else {
      assert (a + b)[1..] == a[1..] + b;
      AfterConcat(hash, Step(hash, w, a[0]), a[1..], b);
    }
  }

  // ---------- the imperative worker refines the state machine ----------

  /** Every configuration is stored under its own hash. */
  predicate WellHashed(hash: Hasher, d: Desired) {
    forall id <- d :: forall h <- d[id] :: hash(d[id][h]) == Some(h)
  }

  /** A bus event that carries both keys is a start followed by a stop. */
  function Inputs(e: BusEvent): seq<Input> {
    (if e.start then [Start(GetID(e), e.proposals)] else []) + (if e.stop then [Stop(GetID(e))] else [])
  }

  /** What arrives at the worker; `able` are the hashes for which the factory can create runners at the tick. */
  datatype Arrival = Event(event: BusEvent) | TimerFired(able: set<Hash>)

  /** What the worker hears: events as starts and stops, and every tick. */
  function Heard(arrivals: seq<Arrival>): seq<Input> {
    if arrivals == [] then [] else HeardOne(arrivals[0]) + Heard(arrivals[1..])
  }

  function HeardOne(arrival: Arrival): seq<Input> {
    match arrival
    case Event(e) => Inputs(e)
    case TimerFired(able) => [Timer(able)]
  }

  class Manager {
    var configs: Desired
    const runners: RunnerList
    var updated: bool
    var retry: bool

    ghost function State(): Worker
      reads this, runners
    {
      Worker(configs, runners.runners.Keys, updated, retry)
    }

    ghost predicate Valid()
      reads this, runners
    {
      runners.Valid() && WellHashed(runners.hash, configs) && Synced(State())
    }

    constructor (hash: Hasher)
      ensures Valid() && State() == Idle && runners.hash == hash && fresh(runners)
    {
      configs, updated, retry := map[], false, false;
      runners := new RunnerList(hash);
    }

    /** The configurations of one start event, given those already stored for its id. */
    method Collect(stored: Configs, proposals: seq<Proposal>) returns (newCfg: Configs, added: bool)
      ensures newCfg == Gather(runners.hash, stored, proposals)
      ensures added <==> !(newCfg.Keys <= stored.Keys)
    {
      newCfg, added := map[], false;
      for i := 0 to |proposals|
        invariant newCfg == Gather(runners.hash, stored, proposals[..i])
        invariant added <==> !(newCfg.Keys <= stored.Keys)
      {
        assert proposals[..i + 1][..i] == proposals[..i];
        match runners.hash(proposals[i].config) {
          case None =>
          case Some(h) =>
            if h in newCfg {
            } else if h in stored {
              newCfg := newCfg[h := stored[h]];
            } else if proposals[i].passes {
              newCfg := newCfg[h := proposals[i].config];
              added := true;
            }
        }
      }
      assert proposals[..|proposals|] == proposals;
    }

    /** Only a new key or a smaller size counts as a change; that is enough to notice every change of the key set. */
    method HandleStart(id: EventId, proposals: Option<seq<Proposal>>) returns (changed: bool)
      modifies this`configs
      ensures State().(updated := updated || changed) == Step(runners.hash, old(State()), Start(id, proposals))
      ensures !id.NoId? && proposals.Some? ==>
                && id in configs
                && configs[id].Keys == Accepted(runners.hash, Stored(old(configs), id), proposals.value)
                && (changed <==> configs[id].Keys != Stored(old(configs), id).Keys)
                && OthersKept(old(configs), configs, id)
    {
      if id.NoId? {
        return false;
      }
      if id !in configs {
        configs := configs[id := map[]];
      }
      if proposals.None? {
        return false;
      }
      var newCfg, added := Collect(configs[id], proposals.value);
      changed := added || |newCfg| < |configs[id]|;
      StartNotices(runners.hash, old(State()), id, proposals.value, newCfg, added);
      StartStores(runners.hash, old(State()), id, proposals.value);
      if changed {
        configs := configs[id := newCfg];
      }
    }

    method HandleStop(id: EventId) returns (changed: bool)
      modifies this`configs
      ensures State().(updated := updated || changed) == Step(runners.hash, old(State()), Stop(id))
      ensures id.NoId? ==> configs == old(configs) && !changed
      ensures id.Id? ==> id !in configs && OthersKept(old(configs), configs, id)
      ensures id.Id? ==> (changed <==> id in old(configs) && old(configs)[id] != map[])
    {
      if id.NoId? {
        return false;
      }
      changed := id in configs && |configs[id]| > 0;
      configs := configs - {id};
    }

    method OnStart(id: EventId, proposals: Option<seq<Proposal>>)
      requires Valid()
      modifies this`configs, this`updated
      ensures Valid() && State() == Step(runners.hash, old(State()), Start(id, proposals))
    {
      StepWellHashed(runners.hash, State(), Start(id, proposals));
      StepSynced(runners.hash, State(), Start(id, proposals));
      var changed := HandleStart(id, proposals);
      if changed { updated := true; }
    }

    method OnStop(id: EventId)
      requires Valid()
      modifies this`configs, this`updated
      ensures Valid() && State() == Step(runners.hash, old(State()), Stop(id))
    {
      StepWellHashed(runners.hash, State(), Stop(id));
      StepSynced(runners.hash, State(), Stop(id));
      var changed := HandleStop(id);
      if changed { updated := true; }
    }

    method OnEvent(e: BusEvent)
      requires Valid()
      modifies this`configs, this`updated
      ensures Valid()
      ensures State() == After(runners.hash, old(State()), Inputs(e))
      ensures EventLeaves(runners.hash, old(configs), e, configs)
    {
      TwoInputs(runners.hash, State(), e);
      EventActsOnItsId(runners.hash, State(), e);
      if e.start {
        OnStart(GetID(e), e.proposals);
      }
      if e.stop {
        OnStop(GetID(e));
      }
    }

    /** The list handed to Reload: every stored configuration of every event id. */
    method AllConfigs() returns (list: seq<Config>)
      requires WellHashed(runners.hash, configs)
      ensures Wanted(runners.hash, list) == Hashes(configs) && AllHash(runners.hash, list)
    {
      list := [];
      var todo := configs.Keys;
      while todo != {}
        invariant todo <= configs.Keys
        invariant AllHash(runners.hash, list)
        invariant Wanted(runners.hash, list) == Hashes(configs - todo)
      {
        var id :| id in todo;
        var more := ConfigsOf(configs[id]);
        WantedConcat(runners.hash, list, more);
        HashesAdd(configs, todo, id);
        list := list + more;
        todo := todo - {id};
      }
      assert configs - {} == configs;
    }

    method ConfigsOf(stored: Configs) returns (list: seq<Config>)
      requires forall h <- stored :: runners.hash(stored[h]) == Some(h)
      ensures Wanted(runners.hash, list) == stored.Keys && AllHash(runners.hash, list)
    {
      list := [];
      var todo := stored.Keys;
      while todo != {}
        invariant todo <= stored.Keys
        invariant AllHash(runners.hash, list) && Wanted(runners.hash, list) == stored.Keys - todo
      {
        var h :| h in todo;
        WantedConcat(runners.hash, list, [stored[h]]);
        list := list + [stored[h]];
        todo := todo - {h};
      }
    }

    /** Reload with every stored configuration; `order` are the hashes for which runners were created. */
    method ReloadAll(able: set<Hash>) returns (failed: bool, ghost order: seq<Hash>)
      requires Valid()
      modifies runners
      ensures runners.Valid()
      ensures runners.runners.Keys == old(runners.runners.Keys) * Hashes(configs) + Elements(order)
      ensures Elements(order) == (Hashes(configs) - old(runners.runners.Keys)) * able
      ensures failed <==> !(Hashes(configs) - old(runners.runners.Keys) <= able)
      ensures forall h :: h in old(runners.runners) && h in Hashes(configs) ==>
                h in runners.runners && runners.runners[h] == old(runners.runners)[h]
    {
      ghost var v := runners.Seen();
      var list := AllConfigs();
      failed, order := runners.Reload(list, able);
      ReloadLeaves(v, runners.Seen(), Hashes(configs), order);
    }

    method OnTimer(able: set<Hash>)
      requires Valid()
      modifies this`updated, this`retry, runners
      ensures Valid()
      ensures State() == Step(runners.hash, old(State()), Timer(able))
      ensures forall h :: h in old(runners.runners) && h in Hashes(configs) ==>
                h in runners.runners && runners.runners[h] == old(runners.runners)[h]
    {
      ghost var w := State();
      if updated || retry {
        var failed;
        ghost var order;
        failed, order := ReloadAll(able);
        updated, retry := false, failed;
      }
      StepSynced(runners.hash, w, Timer(able));
    }

    /** The worker loop until the listener is stopped: every arrival is acted on, in order. */
    method Work(arrivals: seq<Arrival>)
      requires Valid()
      modifies this, runners
      ensures Valid()
      ensures State() == After(runners.hash, old(State()), Heard(arrivals))
    {
      ghost var w := State();
      for i := 0 to |arrivals|
        invariant Valid()
        invariant State() == After(runners.hash, w, Heard(arrivals[..i]))
      {
        ghost var v := State();
        match arrivals[i] {
          case Event(e) =>
            OnEvent(e);
          case TimerFired(able) =>
            OnTimer(able);
            OneInput(runners.hash, v, Timer(able));
        }
        HeardNext(runners.hash, w, arrivals, i);
      }
      assert arrivals[..|arrivals|] == arrivals;
    }
  }

  lemma HeardNext(hash: Hasher, w: Worker, arrivals: seq<Arrival>, i: nat)
    requires i < |arrivals|
    ensures After(hash, w, Heard(arrivals[..i + 1])) ==
            After(hash, After(hash, w, Heard(arrivals[..i])), HeardOne(arrivals[i]))
  {
    assert arrivals[..i + 1] == arrivals[..i] + [arrivals[i]];
    HeardConcat(arrivals[..i], [arrivals[i]]);
    HeardSingle(arrivals[i]);
    AfterConcat(hash, w, Heard(arrivals[..i]), HeardOne(arrivals[i]));
  }

  lemma {:induction false} HeardConcat(a: seq<Arrival>, b: seq<Arrival>)
    ensures Heard(a + b) == Heard(a) + Heard(b)
  {
    if a == [] {
      assert a + b == b;
    } else {
      assert (a + b)[0] == a[0] && (a + b)[1..] == a[1..] + b;
      HeardConcat(a[1..], b);
    }
  }

  lemma HeardSingle(arrival: Arrival)
    ensures Heard([arrival]) == HeardOne(arrival)
  {
    assert [arrival][1..] == [];
  }

  /** The arrival does not bring the hash to any event id. */
  predicate BringsNot(hash: Hasher, arrival: Arrival, h: Hash) {
    arrival.Event? && arrival.event.start && arrival.event.proposals.Some? ==>
      forall p <- arrival.event.proposals.value :: hash(p.config) != Some(h)
  }

  predicate NoneBrings(hash: Hasher, arrivals: seq<Arrival>, h: Hash) {
    forall a <- arrivals :: BringsNot(hash, a, h)
  }

  lemma {:induction false} HeardWithholds(hash: Hasher, arrivals: seq<Arrival>, h: Hash)
    requires NoneBrings(hash, arrivals, h)
    ensures forall input <- Heard(arrivals) :: Withholds(hash, input, h)
    decreases |arrivals|
  {
    if arrivals != [] {
      HeardWithholds(hash, arrivals[1..], h);
      assert BringsNot(hash, arrivals[0], h);
      assert forall input <- HeardOne(arrivals[0]) :: Withholds(hash, input, h);
    }
  }

  /**
  Whatever else arrives: once the stop event of the only id that wanted a hash and then a tick have come, the hash does
  not run until an event proposes it again.
  */
  lemma StopEventStopsRunner(
    hash: Hasher, w: Worker, e: BusEvent, a: seq<Arrival>, able: set<Hash>, b: seq<Arrival>, h: Hash)
    requires Synced(w) && e.stop && !e.start && GetID(e).Id?
    requires forall other <- w.desired :: other != GetID(e) ==> h !in w.desired[other]
    requires NoneBrings(hash, a, h) && NoneBrings(hash, b, h)
    ensures h !in After(hash, w, Heard([Event(e)] + a + [TimerFired(able)] + b)).running
  {
    HeardConcat([Event(e)] + a + [TimerFired(able)], b);
    HeardConcat([Event(e)] + a, [TimerFired(able)]);
    HeardConcat([Event(e)], a);
    HeardSingle(Event(e));
    HeardSingle(TimerFired(able));
    assert Inputs(e) == [Stop(GetID(e))];
    HeardWithholds(hash, a, h);
    HeardWithholds(hash, b, h);
    StoppedIsGone(hash, w, GetID(e), Heard(a), able, Heard(b), h);
  }

  /** The worker's test for a change is the right one, and without a change there is nothing to store. */
  lemma StartNotices(
    hash: Hasher, w: Worker, id: EventId, proposals: seq<Proposal>, next: Configs, added: bool)
    requires id.Id? && next == Gather(hash, Stored(w.desired, id), proposals)
    requires added <==> !(next.Keys <= Stored(w.desired, id).Keys)
    ensures var stored := Stored(w.desired, id);
            var changed := added || |next| < |stored|;
            && (changed <==> next.Keys != stored.Keys)
            && Step(hash, w, Start(id, Some(proposals))) ==
               w.(desired := w.desired[id := if changed then next else stored], updated := w.updated || changed)
  {
    GatherKeys(hash, Stored(w.desired, id), proposals);
    NoticedExactly(Stored(w.desired, id), next);
  }

  lemma OneInput(hash: Hasher, w: Worker, input: Input)
    ensures After(hash, w, [input]) == Step(hash, w, input)
  {
    assert [input][1..] == [];
  }

  lemma TwoInputs(hash: Hasher, w: Worker, e: BusEvent)
    ensures var v := if e.start then Step(hash, w, Start(GetID(e), e.proposals)) else w;
            After(hash, w, Inputs(e)) == if e.stop then Step(hash, v, Stop(GetID(e))) else v
  {
    var v := if e.start then Step(hash, w, Start(GetID(e), e.proposals)) else w;
    var a: seq<Input> := if e.start then [Start(GetID(e), e.proposals)] else [];
    var b: seq<Input> := if e.stop then [Stop(GetID(e))] else [];
    AfterConcat(hash, w, a, b);
    if e.start { OneInput(hash, w, a[0]); }
    if e.stop { OneInput(hash, v, b[0]); }
  }

  /** An event with a stop leaves nothing for its id, one with only a start the accepted hashes; others are left alone. */
  ghost predicate EventLeaves(hash: Hasher, a: Desired, e: BusEvent, b: Desired) {
    var id := GetID(e);
    && OthersKept(a, b, id)
    && (id.NoId? || (!e.start && !e.stop) ==> b == a)
    && (id.Id? && e.stop ==> id !in b)
    && (id.Id? && e.start && !e.stop ==> id in b)
    && (id.Id? && e.start && !e.stop && e.proposals.Some? ==>
          b[id].Keys == Accepted(hash, Stored(a, id), e.proposals.value))
    && (id.Id? && e.start && !e.stop && e.proposals.None? ==> b[id] == Stored(a, id))
  }

  lemma EventActsOnItsId(hash: Hasher, w: Worker, e: BusEvent)
    ensures EventLeaves(hash, w.desired, e, After(hash, w, Inputs(e)).desired)
  {
    TwoInputs(hash, w, e);
    var id := GetID(e);
    var v := if e.start then Step(hash, w, Start(id, e.proposals)) else w;
    if id.Id? {
      StartLeaves(hash, w, e);
      StopForgets(hash, v, id);
    }
  }

  lemma StartLeaves(hash: Hasher, w: Worker, e: BusEvent)
    requires GetID(e).Id?
    ensures var v := if e.start then Step(hash, w, Start(GetID(e), e.proposals)) else w;
            EventLeaves(hash, w.desired, e.(stop := false), v.desired)
  {
    if e.proposals.Some? { StartStores(hash, w, GetID(e), e.proposals.value); }
  }

  lemma StepWellHashed(hash: Hasher, w: Worker, input: Input)
    requires WellHashed(hash, w.desired)
    ensures WellHashed(hash, Step(hash, w, input).desired)
  {
    if input.Start? && input.proposals.Some? {
      GatherKeys(hash, Stored(w.desired, input.id), input.proposals.value);
    }
  }

  lemma WantedConcat(hash: Hasher, a: seq<Config>, b: seq<Config>)
    ensures Wanted(hash, a + b) == Wanted(hash, a) + Wanted(hash, b)
    ensures b != [] && |b| == 1 && hash(b[0]).Some? ==> Wanted(hash, b) == {hash(b[0]).value}
  {
  }

  lemma HashesAdd(d: Desired, todo: set<EventId>, id: EventId)
    requires id in todo && id in d
    ensures Hashes(d - (todo - {id})) == Hashes(d - todo) + d[id].Keys
  {
    var small, big := d - todo, d - (todo - {id});
    forall h ensures h in Hashes(big) <==> h in Hashes(small) || h in d[id] {
      if h in Hashes(small) {
        var i :| i in small && h in small[i];
        assert i in big && h in big[i];
      }
      if h in d[id] {
        assert id in big && h in big[id];
      }
      if h in Hashes(big) {
        var i :| i in big && h in big[i];
        assert i == id || (i in small && h in small[i]);
      }
    }
  }
}
