/**
The cache with expiring elements.  Expired elements stay stored until `CleanUp` removes them; every other operation
treats them as absent.  Clock readings are part of an operation: `now` is the reading of its lookup, `later` the one
of its write, and `at` the readings with which Entries and CleanUp look at each element.
*/
module Caches {
  import opened Options

  type Time = int

  datatype Element<V> = Element(expiration: Time, timeout: Time, value: V)

  datatype Settings = Settings(timeout: Time, accessExpire: bool)

  datatype Operation<K, V> =
    | Get(key: K, now: Time)
    | Put(key: K, value: Option<V>, timeout: Time, now: Time, later: Time)
    | PutIfAbsent(key: K, value: Option<V>, timeout: Time, now: Time, later: Time)
    | Replace(key: K, value: Option<V>, timeout: Time, now: Time, later: Time)
    | Delete(key: K, now: Time)
    | Entries(at: map<K, Time>, now: Time, later: Time)
    | CleanUp(at: map<K, Time>, now: Time, later: Time)

  /** `Panicked` is the answer to storing nil. */
  datatype Answer<K, V> =
    | Found(value: Option<V>)
    | All(entries: map<K, V>)
    | Evicted(evicted: map<K, V>)
    | Panicked

  predicate IsExpired<V>(e: Element<V>, now: Time) {
    now > e.expiration
  }

  function Lookup<K, V>(es: map<K, Element<V>>, k: K, now: Time): Option<V> {
    if k in es && !IsExpired(es[k], now) then Some(es[k].value) else None
  }

  /** The lookup also prolongs a live element when the cache expires by access. */
  function Touched<K, V>(s: Settings, es: map<K, Element<V>>, k: K, now: Time): map<K, Element<V>> {
    if s.accessExpire && Lookup(es, k, now).Some?
    then es[k := es[k].(expiration := now + es[k].timeout)]
    else es
  }

  function Stored<K, V>(s: Settings, es: map<K, Element<V>>, k: K, v: V, timeout: Time, now: Time): map<K, Element<V>> {
    var t := if timeout <= 0 then s.timeout else timeout;
    es[k := Element(now + t, t, v)]
  }

  function ReadingAt<K, V>(op: Operation<K, V>, k: K): Time
    requires op.Entries? || op.CleanUp?
  {
    if k in op.at then op.at[k] else op.now
  }

  function Live<K, V>(es: map<K, Element<V>>, op: Operation<K, V>): map<K, Element<V>>
    requires op.Entries? || op.CleanUp?
  {
    map k | k in es && !IsExpired(es[k], ReadingAt(op, k)) :: es[k]
  }

  function Values<K, V>(es: map<K, Element<V>>): map<K, V> {
    map k | k in es :: es[k].value
  }

  /** The new elements and the answer. */
  function Step<K, V>(s: Settings, es: map<K, Element<V>>, op: Operation<K, V>): (map<K, Element<V>>, Answer<K, V>) {
    match op
    case Get(k, now) =>
      (Touched(s, es, k, now), Found(Lookup(es, k, now)))
    case Put(k, v, timeout, now, later) =>
      if v.None? then (Touched(s, es, k, now), Panicked)
      else (Stored(s, Touched(s, es, k, now), k, v.value, timeout, later), Found(Lookup(es, k, now)))
    case PutIfAbsent(k, v, timeout, now, later) =>
      if Lookup(es, k, now).Some? then (Touched(s, es, k, now), Found(Lookup(es, k, now)))
      else if v.None? then (es, Panicked)
      else (Stored(s, es, k, v.value, timeout, later), Found(None))
    case Replace(k, v, timeout, now, later) =>
      if Lookup(es, k, now).None? then (es, Found(None))
      else if v.None? then (Touched(s, es, k, now), Panicked)
      else (Stored(s, Touched(s, es, k, now), k, v.value, timeout, later), Found(Lookup(es, k, now)))
    case Delete(k, now) =>
      (Touched(s, es, k, now) - {k}, Found(Lookup(es, k, now)))
    case Entries(_, _, _) =>
      (es, All(Values(Live(es, op))))
    case CleanUp(_, _, _) =>
      (Live(es, op), Evicted(Values(es - Live(es, op).Keys)))
  }

  // ---------- runs with a nondecreasing clock ----------

  function Last<K, V>(op: Operation<K, V>): Time {
    if op.Get? || op.Delete? then op.now else op.later
  }

  /** The readings inside one operation do not go back. */
  predicate WellTimed<K, V>(op: Operation<K, V>) {
    && op.now <= Last(op)
    && (op.Entries? || op.CleanUp? ==> forall k <- op.at :: op.now <= op.at[k] <= op.later)
  }

  predicate Nondecreasing<K, V>(ops: seq<Operation<K, V>>, start: Time) {
    ops == [] || (start <= ops[0].now && WellTimed(ops[0]) && Nondecreasing(ops[1..], Last(ops[0])))
  }

  function Erased<K, V>(ops: seq<Operation<K, V>>): seq<Operation<K, V>> {
    if ops == [] then []
    else if ops[0].CleanUp? then Erased(ops[1..])
    else [ops[0]] + Erased(ops[1..])
  }

  /** The answers of everything but the clean-ups. */
  function Answers<K, V>(s: Settings, es: map<K, Element<V>>, ops: seq<Operation<K, V>>): seq<Answer<K, V>>
    decreases |ops|
  {
    if ops == [] then []
    else
      var (next, answer) := Step(s, es, ops[0]);
      (if ops[0].CleanUp? then [] else [answer]) + Answers(s, next, ops[1..])
  }

  /** `a` lacks some elements of `b`, but only ones that are expired at `now`. */
  ghost predicate Hides<K, V>(a: map<K, Element<V>>, b: map<K, Element<V>>, now: Time) {
    && (forall k <- a :: k in b && b[k] == a[k])
    && (forall k <- b :: k !in a ==> IsExpired(b[k], now))
  }

  lemma SameLookup<K, V>(s: Settings, a: map<K, Element<V>>, b: map<K, Element<V>>, t: Time, k: K, now: Time)
    requires Hides(a, b, t) && t <= now
    ensures Lookup(a, k, now) == Lookup(b, k, now)
    ensures Hides(Touched(s, a, k, now), Touched(s, b, k, now), now)
  {
  }

  /** An operation answers the same with and without the hidden elements, and keeps them hidden. */
  lemma StepHides<K, V>(s: Settings, a: map<K, Element<V>>, b: map<K, Element<V>>, t: Time, op: Operation<K, V>)
    requires Hides(a, b, t) && t <= op.now && WellTimed(op) && !op.CleanUp?
    ensures Step(s, a, op).1 == Step(s, b, op).1
    ensures Hides(Step(s, a, op).0, Step(s, b, op).0, Last(op))
  {
    if !op.Entries? {
      SameLookup(s, a, b, t, op.key, op.now);
    } else {
      assert Values(Live(a, op)) == Values(Live(b, op));
    }
  }

  lemma CleanUpHides<K, V>(s: Settings, a: map<K, Element<V>>, b: map<K, Element<V>>, t: Time, op: Operation<K, V>)
    requires Hides(a, b, t) && t <= op.now && WellTimed(op) && op.CleanUp?
    ensures Hides(Step(s, a, op).0, b, Last(op))
  {
  }

  lemma {:induction false} AnswersHide<K, V>(
    s: Settings, a: map<K, Element<V>>, b: map<K, Element<V>>, t: Time, ops: seq<Operation<K, V>>)
    requires Hides(a, b, t) && Nondecreasing(ops, t)
    ensures Answers(s, a, ops) == Answers(s, b, Erased(ops))
    decreases |ops|
  {
    if ops != [] {
      var a' := Step(s, a, ops[0]).0;
      if ops[0].CleanUp? {
        CleanUpHides(s, a, b, t, ops[0]);
        AnswersHide(s, a', b, Last(ops[0]), ops[1..]);
        assert [] + Answers(s, a', ops[1..]) == Answers(s, a', ops[1..]);
      } else {
        StepHides(s, a, b, t, ops[0]);
        AnswersHide(s, a', Step(s, b, ops[0]).0, Last(ops[0]), ops[1..]);
        assert Erased(ops)[1..] == Erased(ops[1..]);
      }
    }
  }

  /** Erasing every CleanUp from a run with a nondecreasing clock changes no answer. */
  lemma CleanUpIsInvisible<K, V>(s: Settings, es: map<K, Element<V>>, ops: seq<Operation<K, V>>, start: Time)
    requires Nondecreasing(ops, start)
    ensures Answers(s, es, ops) == Answers(s, es, Erased(ops))
  {
    AnswersHide(s, es, es, start, ops);
  }

  predicate NoneExpired<K, V>(es: map<K, Element<V>>, op: Operation<K, V>)
    requires op.CleanUp?
  {
    forall k <- es :: !IsExpired(es[k], ReadingAt(op, k))
  }

  lemma AllLiveIff<K, V>(es: map<K, Element<V>>, op: Operation<K, V>)
    requires op.CleanUp?
    ensures es.Keys - Live(es, op).Keys == {} <==> NoneExpired(es, op)
  {
    if es.Keys - Live(es, op).Keys == {} {
      forall k | k in es ensures !IsExpired(es[k], ReadingAt(op, k)) {
        assert k !in es.Keys - Live(es, op).Keys;
      }
    }
  }

  /** Size is not in the list above: it tells the difference exactly when a clean-up finds something expired. */
  lemma SizeSeesCleanUp<K, V>(s: Settings, es: map<K, Element<V>>, op: Operation<K, V>)
    requires op.CleanUp?
    ensures |Step(s, es, op).0| == |es| <==> NoneExpired(es, op)
  {
    var live, gone := Live(es, op).Keys, es.Keys - Live(es, op).Keys;
    AllLiveIff(es, op);
    assert es.Keys == live + gone;
    assert |es.Keys| == |live| + |gone|;
    assert |es| == |es.Keys| && |Live(es, op)| == |live|;
  }

  /** With a clock that goes back a clean-up does show. */
  lemma ClockGoingBackShows()
    ensures var s := Settings(5, false);
            var run: seq<Operation<int, int>> := [Put(0, Some(7), 0, 0, 0), CleanUp(map[], 10, 10), Get(0, 3)];
            && Answers(s, map[], run) == [Found(None), Found(None)]
            && Answers(s, map[], Erased(run)) == [Found(None), Found(Some(7))]
  {
    var s := Settings(5, false);
    var put, clean, get := Put(0, Some(7), 0, 0, 0), CleanUp(map[], 10, 10), Get(0, 3);
    var run: seq<Operation<int, int>> := [put, clean, get];
    var one: map<int, Element<int>> := map[0 := Element(5, 5, 7)];
    assert Step(s, map[], put).0 == one;
    assert Step(s, one, clean).0 == map[];
    assert run[1..] == [clean, get] && run[1..][1..] == [get] && [get][1..] == [];
    assert Answers(s, map[], [get]) == [Found(None)];
    assert Answers(s, one, [clean, get]) == [Found(None)];
    assert Erased([get]) == [get] && Erased([clean, get]) == [get] && Erased(run) == [put, get];
    assert [put, get][1..] == [get];
    assert Answers(s, one, [get]) == [Found(Some(7))];
  }

  // ---------- how long a value stays ----------

  function After<K, V>(s: Settings, es: map<K, Element<V>>, ops: seq<Operation<K, V>>): map<K, Element<V>>
    decreases |ops|
  {
    if ops == [] then es else After(s, Step(s, es, ops[0]).0, ops[1..])
  }

  /** The operation may read `k` but not write it. */
  predicate Spares<K(==), V>(op: Operation<K, V>, k: K) {
    op.Get? || op.Entries? || op.CleanUp? || op.key != k
  }

  function End<K, V>(ops: seq<Operation<K, V>>, start: Time): Time {
    if ops == [] then start else Last(ops[|ops| - 1])
  }

  /** The expiration of an element of `k` after `ops`: only lookups while it lives move it, and only on access expiry. */
  function Deadline<K(==), V>(s: Settings, e: Element<V>, ops: seq<Operation<K, V>>, k: K): Time
    decreases |ops|
  {
    if ops == [] then e.expiration
    else if s.accessExpire && ops[0].Get? && ops[0].key == k && !IsExpired(e, ops[0].now) then
      Deadline(s, e.(expiration := ops[0].now + e.timeout), ops[1..], k)
    else Deadline(s, e, ops[1..], k)
  }

  lemma {:induction false} ExpiredStaysExpired<K, V>(
    s: Settings, e: Element<V>, ops: seq<Operation<K, V>>, k: K, start: Time)
    requires Nondecreasing(ops, start) && IsExpired(e, start)
    ensures Deadline(s, e, ops, k) == e.expiration && start <= End(ops, start)
    decreases |ops|
  {
    if ops != [] {
      ExpiredStaysExpired(s, e, ops[1..], k, Last(ops[0]));
      EndOfTail(ops, start);
    }
  }

  lemma EndOfTail<K, V>(ops: seq<Operation<K, V>>, start: Time)
    requires ops != []
    ensures End(ops[1..], Last(ops[0])) == End(ops, start)
  {
    if |ops| > 1 {
      assert ops[1..][|ops| - 2] == ops[|ops| - 1];
    }
  }

  lemma {:induction false} GoneStaysGone<K, V>(s: Settings, es: map<K, Element<V>>, ops: seq<Operation<K, V>>, k: K)
    requires k !in es && forall op <- ops :: Spares(op, k)
    ensures k !in After(s, es, ops)
    decreases |ops|
  {
    if ops != [] {
      assert Spares(ops[0], k);
      GoneStaysGone(s, Step(s, es, ops[0]).0, ops[1..], k);
    }
  }

  /**
  A stored value is found until its deadline and not after it, whatever else happens to other keys and however often
  the cache is cleaned up.
  */
  lemma {:induction false} ValueStaysUntilDeadline<K, V>(
    s: Settings, es: map<K, Element<V>>, ops: seq<Operation<K, V>>, k: K, start: Time, now: Time)
    requires Nondecreasing(ops, start) && k in es && (forall op <- ops :: Spares(op, k)) && End(ops, start) <= now
    ensures Lookup(After(s, es, ops), k, now) == if now <= Deadline(s, es[k], ops, k) then Some(es[k].value) else None
    decreases |ops|
  {
    if ops != [] {
      var op, next := ops[0], Step(s, es, ops[0]).0;
      assert Spares(op, k);
      EndOfTail(ops, start);
      if k in next {
        ValueStaysUntilDeadline(s, next, ops[1..], k, Last(op), now);
      } else {
        GoneStaysGone(s, next, ops[1..], k);
        ExpiredStaysExpired(s, es[k], ops[1..], k, Last(op));
      }
    }
  }

  // ---------- the cache as the original runs it ----------

  /** Some elements of `all` are gone: none that is live, and every other one that is not still to be looked at. */
  ghost predicate Between<K, V>(
    live: map<K, Element<V>>, es: map<K, Element<V>>, all: map<K, Element<V>>, todo: set<K>)
  {
    && (forall k <- es :: k in all && es[k] == all[k] && (k in live || k in todo))
    && (forall k <- live :: k in es && live[k] == es[k])
  }

  /** `evicted` holds the values of what is gone. */
  ghost predicate Told<K, V>(evicted: map<K, V>, es: map<K, Element<V>>, all: map<K, Element<V>>) {
    && evicted.Keys == all.Keys - es.Keys
    && (forall k <- evicted :: evicted[k] == all[k].value)
  }

  lemma EvictOne<K, V>(
    live: map<K, Element<V>>, es: map<K, Element<V>>, all: map<K, Element<V>>, todo: set<K>, evicted: map<K, V>, k: K)
    requires Between(live, es, all, todo) && Told(evicted, es, all) && k in es && k !in live
    ensures Between(live, es - {k}, all, todo - {k}) && Told(evicted[k := es[k].value], es - {k}, all)
    ensures |evicted[k := es[k].value]| == |evicted| + 1
  {
  }

  lemma BetweenDone<K, V>(live: map<K, Element<V>>, es: map<K, Element<V>>, all: map<K, Element<V>>)
    requires Between(live, es, all, {})
    ensures es == live
  {
    assert es.Keys == live.Keys;
  }

  lemma ToldDone<K, V>(evicted: map<K, V>, es: map<K, Element<V>>, all: map<K, Element<V>>)
    requires Told(evicted, es, all)
    ensures evicted == Values(all - es.Keys)
  {
  }

  class Cache<K(==), V> {
    const settings: Settings
    var elements: map<K, Element<V>>

    constructor (timeout: Time, accessExpire: bool)
      ensures elements == map[] && settings == Settings(timeout, accessExpire)
    {
      settings, elements := Settings(timeout, accessExpire), map[];
    }

    method Find(k: K, now: Time) returns (v: Option<V>)
      modifies this
      ensures v == Lookup(old(elements), k, now)
      ensures elements == Touched(settings, old(elements), k, now)
    {
      if k in elements && !IsExpired(elements[k], now) {
        v := Some(elements[k].value);
        if settings.accessExpire {
          elements := elements[k := elements[k].(expiration := now + elements[k].timeout)];
        }
        return;
      }
      return None;
    }

    /** Storing nil panics. */
    method Store(k: K, v: Option<V>, timeout: Time, now: Time) returns (ok: bool)
      modifies this
      ensures ok <==> v.Some?
      ensures elements == if ok then Stored(settings, old(elements), k, v.value, timeout, now) else old(elements)
    {
      if v.None? {
        return false;
      }
      var t := if timeout <= 0 then settings.timeout else timeout;
      elements := elements[k := Element(now + t, t, v.value)];
      return true;
    }

    method GetValue(k: K, now: Time) returns (r: Answer<K, V>)
      modifies this
      ensures (elements, r) == Step(settings, old(elements), Get(k, now))
    {
      var v := Find(k, now);
      return Found(v);
    }

    method PutWithTimeout(k: K, v: Option<V>, timeout: Time, now: Time, later: Time) returns (r: Answer<K, V>)
      modifies this
      ensures (elements, r) == Step(settings, old(elements), Put(k, v, timeout, now, later))
    {
      var before := Find(k, now);
      var ok := Store(k, v, timeout, later);
      return if ok then Found(before) else Panicked;
    }

    method PutIfAbsentWithTimeout(k: K, v: Option<V>, timeout: Time, now: Time, later: Time) returns (r: Answer<K, V>)
      modifies this
      ensures (elements, r) == Step(settings, old(elements), PutIfAbsent(k, v, timeout, now, later))
    {
      var before := Find(k, now);
      if before.Some? {
        return Found(before);
      }
      var ok := Store(k, v, timeout, later);
      return if ok then Found(None) else Panicked;
    }

    method ReplaceWithTimeout(k: K, v: Option<V>, timeout: Time, now: Time, later: Time) returns (r: Answer<K, V>)
      modifies this
      ensures (elements, r) == Step(settings, old(elements), Replace(k, v, timeout, now, later))
    {
      var before := Find(k, now);
      if before.None? {
        return Found(None);
      }
      var ok := Store(k, v, timeout, later);
      return if ok then Found(before) else Panicked;
    }

    method DeleteKey(k: K, now: Time) returns (r: Answer<K, V>)
      modifies this
      ensures (elements, r) == Step(settings, old(elements), Delete(k, now))
    {
      var v := Find(k, now);
      elements := elements - {k};
      return Found(v);
    }

    /** Removes what is expired, in any order; the listener hears of exactly what went. */
    method CleanUpAll(at: map<K, Time>, now: Time, later: Time) returns (r: Answer<K, V>, count: nat)
      modifies this
      ensures (elements, r) == Step(settings, old(elements), CleanUp(at, now, later))
      ensures r.Evicted? && count == |r.evicted|
    {
      ghost var live := Live(elements, Operation<K, V>.CleanUp(at, now, later));
      var evicted: map<K, V> := map[];
      count := 0;
      var todo := elements.Keys;
      while todo != {}
        invariant todo <= elements.Keys && Between(live, elements, old(elements), todo)
        invariant Told(evicted, elements, old(elements)) && count == |evicted|
      {
        var k :| k in todo;
        var reading := if k in at then at[k] else now;
        if IsExpired(elements[k], reading) {
          EvictOne(live, elements, old(elements), todo, evicted, k);
          evicted := evicted[k := elements[k].value];
          elements := elements - {k};
          count := count + 1;
        }
        todo := todo - {k};
      }
      BetweenDone(live, elements, old(elements));
      ToldDone(evicted, elements, old(elements));
      r := Evicted(evicted);
    }

    /** The live elements, each looked at once in any order. */
    method AllEntries(at: map<K, Time>, now: Time, later: Time) returns (r: Answer<K, V>)
      ensures (elements, r) == Step(settings, elements, Entries(at, now, later))
    {
      ghost var op: Operation<K, V> := Entries(at, now, later);
      var copied: map<K, V> := map[];
      var todo := elements.Keys;
      while todo != {}
        invariant todo <= elements.Keys
        invariant copied == Values(Live(elements, op) - todo)
      {
        var k :| k in todo;
        var reading := if k in at then at[k] else now;
        if !IsExpired(elements[k], reading) {
          copied := copied[k := elements[k].value];
        }
        todo := todo - {k};
      }
      assert Live(elements, op) - {} == Live(elements, op);
      r := All(copied);
    }
  }
}
