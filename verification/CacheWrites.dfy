/** What the writes of a cache do, in terms of what later lookups find. */
module CacheWrites {
  import opened Options
  import opened Caches

  predicate Keyed<K, V>(op: Operation<K, V>) {
    !op.Entries? && !op.CleanUp?
  }

  predicate Stores<K, V>(op: Operation<K, V>) {
    op.Put? || op.PutIfAbsent? || op.Replace?
  }

  /** The operation wants to store a value: a put always, the others if the key is absent or present. */
  predicate Wants<K, V>(es: map<K, Element<V>>, op: Operation<K, V>) {
    || op.Put?
    || (op.PutIfAbsent? && Lookup(es, op.key, op.now).None?)
    || (op.Replace? && Lookup(es, op.key, op.now).Some?)
  }

  predicate Writes<K, V>(es: map<K, Element<V>>, op: Operation<K, V>) {
    Wants(es, op) && op.value.Some?
  }

  /** The operation can make an absent key present. */
  predicate Brings<K(==), V>(op: Operation<K, V>, k: K) {
    (op.Put? || op.PutIfAbsent?) && op.key == k && op.value.Some?
  }

  /** The timeout given for the key, or else the default. */
  function TimeoutOf<K, V>(s: Settings, op: Operation<K, V>): Time
    requires Stores(op)
  {
    if op.timeout > 0 then op.timeout else s.timeout
  }

  lemma AfterFirst<K, V>(s: Settings, es: map<K, Element<V>>, op: Operation<K, V>, ops: seq<Operation<K, V>>)
    ensures After(s, es, [op] + ops) == After(s, Step(s, es, op).0, ops)
  {
    assert ([op] + ops)[1..] == ops;
  }

  // ---------- a write ----------

  /** The deadline set by a write: its timeout from the time of the write, prolonged by lookups on access expiry only. */
  function WrittenUntil<K(==), V>(s: Settings, op: Operation<K, V>, ops: seq<Operation<K, V>>): Time
    requires Stores(op) && op.value.Some?
  {
    var t := TimeoutOf(s, op);
    Deadline(s, Element(op.later + t, t, op.value.value), ops, op.key)
  }

  lemma {:induction false} FixedDeadline<K, V>(s: Settings, e: Element<V>, ops: seq<Operation<K, V>>, k: K)
    requires !s.accessExpire
    ensures Deadline(s, e, ops, k) == e.expiration
    decreases |ops|
  {
    if ops != [] {
      FixedDeadline(s, e, ops[1..], k);
    }
  }

  /**
  After a write its value is found exactly until the deadline, whatever happens to other keys and however often the cache
  is cleaned up.  Without access expiry the deadline is the time of the write plus the timeout.
  */
  lemma WrittenIsFound<K, V>(
    s: Settings, es: map<K, Element<V>>, op: Operation<K, V>, ops: seq<Operation<K, V>>, now: Time)
    requires Writes(es, op) && Nondecreasing(ops, op.later) && End(ops, op.later) <= now
    requires forall later <- ops :: Spares(later, op.key)
    ensures Lookup(After(s, es, [op] + ops), op.key, now) ==
            if now <= WrittenUntil(s, op, ops) then op.value else None
    ensures !s.accessExpire ==> WrittenUntil(s, op, ops) == op.later + TimeoutOf(s, op)
  {
    var next := Step(s, es, op).0;
    AfterFirst(s, es, op, ops);
    ValueStaysUntilDeadline(s, next, ops, op.key, op.later, now);
    if !s.accessExpire { FixedDeadline(s, next[op.key], ops, op.key); }
  }

  // ---------- absent keys ----------

  lemma {:induction false} GoneUntilBrought<K, V>(s: Settings, es: map<K, Element<V>>, ops: seq<Operation<K, V>>, k: K)
    requires k !in es && forall op <- ops :: !Brings(op, k)
    ensures k !in After(s, es, ops)
    decreases |ops|
  {
    if ops != [] {
      assert !Brings(ops[0], k);
      GoneUntilBrought(s, Step(s, es, ops[0]).0, ops[1..], k);
    }
  }

  /** After a delete nothing is found under the key at any time, until it is put again. */
  lemma DeletedIsGone<K, V>(
    s: Settings, es: map<K, Element<V>>, k: K, at: Time, ops: seq<Operation<K, V>>, now: Time)
    requires forall op <- ops :: !Brings(op, k)
    ensures Lookup(After(s, es, [Delete(k, at)] + ops), k, now).None?
  {
    AfterFirst(s, es, Delete(k, at), ops);
    GoneUntilBrought(s, Step(s, es, Delete(k, at)).0, ops, k);
  }

  lemma AbsentStep<K, V>(s: Settings, es: map<K, Element<V>>, op: Operation<K, V>, k: K, start: Time)
    requires Lookup(es, k, start).None? && start <= op.now && WellTimed(op) && !Brings(op, k)
    ensures Lookup(Step(s, es, op).0, k, Last(op)).None?
  {
  }

  /** With a clock that does not go back, an expired key too is not found again until it is put again. */
  lemma {:induction false} AbsentUntilBrought<K, V>(
    s: Settings, es: map<K, Element<V>>, ops: seq<Operation<K, V>>, k: K, start: Time, now: Time)
    requires Lookup(es, k, start).None? && Nondecreasing(ops, start) && End(ops, start) <= now
    requires forall op <- ops :: !Brings(op, k)
    ensures Lookup(After(s, es, ops), k, now).None?
    decreases |ops|
  {
    if ops != [] {
      assert !Brings(ops[0], k);
      AbsentStep(s, es, ops[0], k, start);
      EndOfTail(ops, start);
      AbsentUntilBrought(s, Step(s, es, ops[0]).0, ops[1..], k, Last(ops[0]), now);
    }
  }

  // ---------- other keys ----------

  /** An operation on one key leaves every other element alone. */
  lemma OthersUntouched<K, V>(s: Settings, es: map<K, Element<V>>, op: Operation<K, V>, k: K)
    requires Keyed(op) && op.key != k
    ensures var next := Step(s, es, op).0; (k in next <==> k in es) && (k in es ==> next[k] == es[k])
  {
  }

  lemma CleanUpKeepsLookups<K, V>(s: Settings, es: map<K, Element<V>>, op: Operation<K, V>, k: K, now: Time)
    requires !Keyed(op) && WellTimed(op) && Last(op) <= now
    ensures Lookup(Step(s, es, op).0, k, now) == Lookup(es, k, now)
  {
  }

  /** What is found under a key does not depend on what is done to other keys or on clean-ups. */
  lemma {:induction false} FoundAsBefore<K, V>(
    s: Settings, es: map<K, Element<V>>, ops: seq<Operation<K, V>>, k: K, start: Time, now: Time)
    requires Nondecreasing(ops, start) && End(ops, start) <= now && forall op <- ops :: Keyed(op) ==> op.key != k
    ensures Lookup(After(s, es, ops), k, now) == Lookup(es, k, now)
    decreases |ops|
  {
    if ops != [] {
      var op, next := ops[0], Step(s, es, ops[0]).0;
      assert Keyed(op) ==> op.key != k;
      EndOfTail(ops, start);
      EndNotBefore(ops[1..], Last(op));
      FoundAsBefore(s, next, ops[1..], k, Last(op), now);
      if Keyed(op) {
        OthersUntouched(s, es, op, k);
      } else {
        CleanUpKeepsLookups(s, es, op, k, now);
      }
    }
  }

  lemma {:induction false} EndNotBefore<K, V>(ops: seq<Operation<K, V>>, start: Time)
    requires Nondecreasing(ops, start)
    ensures start <= End(ops, start)
    decreases |ops|
  {
    if ops != [] {
      EndNotBefore(ops[1..], Last(ops[0]));
      EndOfTail(ops, start);
    }
  }

  // ---------- operations that write nothing ----------

  /** A put of nothing, a put-if-absent on a live key and a replace on an absent one change no value. */
  lemma UnwrittenChangesNoValue<K, V>(s: Settings, es: map<K, Element<V>>, op: Operation<K, V>)
    requires Stores(op) && !Writes(es, op)
    ensures Values(Step(s, es, op).0) == Values(es)
    ensures !s.accessExpire ==> Step(s, es, op).0 == es
  {
  }

  /** Every answer is what was found before, except that storing nothing panics where something would be stored. */
  lemma AnswerIsLookup<K, V>(s: Settings, es: map<K, Element<V>>, op: Operation<K, V>)
    requires Keyed(op)
    ensures Step(s, es, op).1 ==
            if Stores(op) && Wants(es, op) && op.value.None? then Panicked else Found(Lookup(es, op.key, op.now))
  {
  }

  /** The entries are exactly what lookups at the times of the readings would find. */
  lemma EntriesAreLookups<K, V>(s: Settings, es: map<K, Element<V>>, op: Operation<K, V>, k: K)
    requires op.Entries?
    ensures Step(s, es, op).1.All? && Step(s, es, op).0 == es
    ensures var entries := Step(s, es, op).1.entries;
            (if k in entries then Some(entries[k]) else None) == Lookup(es, k, ReadingAt(op, k))
  {
  }

  /** A clean-up takes out exactly what has expired at the time it is looked at, and tells exactly that. */
  lemma CleanUpTells<K, V>(s: Settings, es: map<K, Element<V>>, op: Operation<K, V>, k: K)
    requires op.CleanUp?
    ensures Step(s, es, op).1.Evicted?
    ensures var (next, answer) := Step(s, es, op);
            var expired := k in es && IsExpired(es[k], ReadingAt(op, k));
            && (k in answer.evicted <==> expired) && (expired ==> answer.evicted[k] == es[k].value)
            && (k in next <==> k in es && !expired) && (k in next ==> next[k] == es[k])
  {
  }
}
