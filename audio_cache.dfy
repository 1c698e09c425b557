/**
 * The expiring audio cache: a map from a key derived from the text to the
 * synthesised audio, where every entry owns one timer that deletes it ten
 * minutes after it was last written. Timers live on a logical clock: `now`
 * is the clock, `timers` the pending timeouts by id, and the environment
 * delivers a timeout with `Fire`.
 */
module AudioCaching {
  import opened Common

  /** Ten minutes, in milliseconds. */
  const TTL: nat := 10 * 60 * 1000
  /** Keys are cut to this many characters. */
  const KEY_LENGTH: nat := 50

  datatype Blob = Blob(bytes: seq<bv8>, mimeType: string)

  /** What the map holds per key: the audio, the id of its timer and when it was written. */
  datatype CacheEntry = CacheEntry(blob: Blob, timer: nat, createdAt: int)

  /** A pending timeout: the key it deletes and when it is due. */
  datatype Timer = Timer(key: string, deadline: int)

  datatype EntryStats = EntryStats(key: string, size: nat, age: int)
  datatype Stats = Stats(size: nat, entries: seq<EntryStats>)

  /**
   * The whole state of a cache. `order` is the insertion order a JavaScript
   * `Map` iterates in; `nextTimer` is the id the next `setTimeout` hands out.
   */
  datatype CacheState = CacheState(
    entries: map<string, CacheEntry>,
    order: seq<string>,
    timers: map<nat, Timer>,
    nextTimer: nat,
    now: int)

  ghost predicate Distinct<T>(s: seq<T>)
  {
    forall i, j :: 0 <= i < j < |s| ==> s[i] != s[j]
  }

  /**
   * The invariant of the cache: the iteration order lists each key once, every
   * entry has exactly one pending timer, due `TTL` after the entry was written,
   * and every pending timer is the timer of the entry for its key.
   */
  ghost predicate Wellformed(st: CacheState)
  {
    && (forall k :: k in st.entries <==> k in st.order)
    && Distinct(st.order)
    && (forall k :: k in st.entries ==>
          && st.entries[k].createdAt <= st.now
          && st.entries[k].timer in st.timers
          && st.timers[st.entries[k].timer] == Timer(k, st.entries[k].createdAt + TTL))
    && (forall id :: id in st.timers ==>
          && id < st.nextTimer
          && st.timers[id].key in st.entries
          && st.entries[st.timers[id].key].timer == id)
  }

  function Empty(now: int): (st: CacheState)
    ensures Wellformed(st) && st.entries == map[] && st.timers == map[]
  {
    CacheState(map[], [], map[], 0, now)
  }

  /** `String.prototype.slice(0, n)`. */
  function Prefix(s: string, n: nat): (r: string)
    ensures r <= s
    ensures |r| == if |s| < n then |s| else n
  {
    if |s| <= n then s else s[..n]
  }

  /** `s` with `x` taken out, the rest in order: what `Map.prototype.delete` does to the iteration order. */
  function Without(s: seq<string>, x: string): (r: seq<string>)
    ensures forall y :: y in r <==> y in s && y != x
  {
    if s == [] then []
    else if s[0] == x then Without(s[1..], x)
    else [s[0]] + Without(s[1..], x)
  }

  lemma {:induction false} WithoutKeepsDistinct(s: seq<string>, x: string)
    requires Distinct(s)
    ensures Distinct(Without(s, x))
  {
    if s != [] {
      var rest := s[1..];
      assert Distinct(rest) by {
        forall i, j | 0 <= i < j < |rest| ensures rest[i] != rest[j] { assert rest[i] == s[i + 1] && rest[j] == s[j + 1]; }
      }
      WithoutKeepsDistinct(rest, x);
      if s[0] != x {
        var r := Without(rest, x);
        assert s[0] !in rest by {
          forall i | 0 <= i < |rest| ensures rest[i] != s[0] { assert rest[i] == s[i + 1]; }
        }
        forall i, j | 0 <= i < j < |[s[0]] + r| ensures ([s[0]] + r)[i] != ([s[0]] + r)[j] {
          if i == 0 {
            assert ([s[0]] + r)[j] == r[j - 1] && r[j - 1] in r;
          } else {
            assert ([s[0]] + r)[i] == r[i - 1] && ([s[0]] + r)[j] == r[j - 1];
          }
        }
      }
    }
  }

  /** Deleting a key keeps the other keys in their relative order. */
  lemma {:induction false} WithoutKeepsOrder(s: seq<string>, x: string, i: nat, j: nat)
    requires i < j < |s| && s[i] != x && s[j] != x
    ensures exists i', j' :: 0 <= i' < j' < |Without(s, x)| && Without(s, x)[i'] == s[i] && Without(s, x)[j'] == s[j]
  {
    var rest := s[1..];
    var r := Without(rest, x);
    if s[0] == x {
      assert Without(s, x) == r;
      assert rest[i - 1] == s[i] && rest[j - 1] == s[j];
      WithoutKeepsOrder(rest, x, i - 1, j - 1);
    } else if i == 0 {
      assert rest[j - 1] == s[j] && s[j] in rest;
      assert s[j] in r;
      var k :| 0 <= k < |r| && r[k] == s[j];
      assert Without(s, x)[0] == s[0] && Without(s, x)[k + 1] == s[j];
    } else {
      assert rest[i - 1] == s[i] && rest[j - 1] == s[j];
      WithoutKeepsOrder(rest, x, i - 1, j - 1);
      var i', j' :| 0 <= i' < j' < |r| && r[i'] == s[i] && r[j'] == s[j];
      assert Without(s, x)[i' + 1] == s[i] && Without(s, x)[j' + 1] == s[j];
    }
  }

  /** `cache.get(key)`, then the entry's blob or null. */
  function Lookup(st: CacheState, key: string): Option<Blob>
  {
    if key in st.entries then Some(st.entries[key].blob) else None
  }

  /**
   * `set`: cancel the timer of an entry already there, arm a fresh timer due
   * `TTL` from now, and write the entry (a key already present keeps its place
   * in the iteration order).
   */
  function AfterSet(st: CacheState, key: string, blob: Blob): CacheState
  {
    var live := if key in st.entries then st.timers - {st.entries[key].timer} else st.timers;
    CacheState(
      st.entries[key := CacheEntry(blob, st.nextTimer, st.now)],
      if key in st.entries then st.order else st.order + [key],
      live[st.nextTimer := Timer(key, st.now + TTL)],
      st.nextTimer + 1,
      st.now)
  }

  /** A timeout runs its callback, deleting its key; a timer that is no longer pending never runs. */
  function AfterFire(st: CacheState, id: nat): CacheState
  {
    if id in st.timers then
      var key := st.timers[id].key;
      st.(entries := st.entries - {key}, order := Without(st.order, key), timers := st.timers - {id})
    else st
  }

  /** `clear`: every timer cancelled, the map emptied. */
  function AfterClear(st: CacheState): CacheState
  {
    st.(entries := map[], order := [], timers := map[])
  }

  /** The clock moves on. */
  function AfterAdvance(st: CacheState, elapsed: nat): CacheState
  {
    st.(now := st.now + elapsed)
  }

  // ---------------------------------------------------------------------------
  // The invariant is kept by every step

  lemma SetKeepsWellformed(st: CacheState, key: string, blob: Blob)
    requires Wellformed(st)
    ensures Wellformed(AfterSet(st, key, blob))
  {
    var st' := AfterSet(st, key, blob);
    if key !in st.entries {
      forall i, j | 0 <= i < j < |st'.order| ensures st'.order[i] != st'.order[j] {
        if j == |st.order| {
          assert st.order[i] in st.order;
        }
      }
    }
  }

  lemma FireKeepsWellformed(st: CacheState, id: nat)
    requires Wellformed(st)
    ensures Wellformed(AfterFire(st, id))
  {
    if id in st.timers {
      WithoutKeepsDistinct(st.order, st.timers[id].key);
    }
  }

  lemma ClearKeepsWellformed(st: CacheState)
    requires Wellformed(st)
    ensures Wellformed(AfterClear(st)) && AfterClear(st).timers == map[]
  {
  }

  lemma AdvanceKeepsWellformed(st: CacheState, elapsed: nat)
    requires Wellformed(st)
    ensures Wellformed(AfterAdvance(st, elapsed))
  {
  }

  // ---------------------------------------------------------------------------
  // What `get` sees after each step

  /** After `set`, the key holds the new blob and its deadline is `TTL` from now; no other key changes. */
  lemma LookupAfterSet(st: CacheState, key: string, blob: Blob, other: string)
    requires Wellformed(st)
    ensures Lookup(AfterSet(st, key, blob), key) == Some(blob)
    ensures other != key ==> Lookup(AfterSet(st, key, blob), other) == Lookup(st, other)
    ensures var st' := AfterSet(st, key, blob);
      st'.timers[st'.entries[key].timer].deadline == st.now + TTL
  {
  }

  /** A firing timer deletes its own key and nothing else. */
  lemma LookupAfterFire(st: CacheState, id: nat, other: string)
    requires Wellformed(st)
    requires id in st.timers
    ensures Lookup(AfterFire(st, id), st.timers[id].key) == None
    ensures other != st.timers[id].key ==> Lookup(AfterFire(st, id), other) == Lookup(st, other)
  {
  }

  /** At most one timer is pending per key. */
  lemma OneTimerPerKey(st: CacheState, id1: nat, id2: nat)
    requires Wellformed(st)
    requires id1 in st.timers && id2 in st.timers
    requires st.timers[id1].key == st.timers[id2].key
    ensures id1 == id2
  {
  }

  /** The timer a `set` replaced is cancelled: when it would have fired, nothing happens to the refreshed entry. */
  lemma ReplacedTimerIsInert(st: CacheState, key: string, blob: Blob)
    requires Wellformed(st)
    requires key in st.entries
    ensures AfterFire(AfterSet(st, key, blob), st.entries[key].timer) == AfterSet(st, key, blob)
  {
    var old_id := st.entries[key].timer;
    assert old_id < st.nextTimer;
  }

  /** After `clear`, every lookup misses and no timer is pending. */
  lemma LookupAfterClear(st: CacheState, key: string)
    requires Wellformed(st)
    ensures Lookup(AfterClear(st), key) == None && AfterClear(st).timers == map[]
  {
  }

  /** The steps that can happen to a cache after a `set`. */
  datatype Step = Write(key: string, blob: Blob) | Expire(id: nat) | Tick(elapsed: nat) | ClearAll

  function Apply(st: CacheState, step: Step): CacheState
  {
    match step
    case Write(key, blob) => AfterSet(st, key, blob)
    case Expire(id) => AfterFire(st, id)
    case Tick(elapsed) => AfterAdvance(st, elapsed)
    case ClearAll => AfterClear(st)
  }

  function Run(st: CacheState, steps: seq<Step>): CacheState
    decreases |steps|
  {
    if steps == [] then st else Run(Apply(st, steps[0]), steps[1..])
  }

  lemma {:induction false} RunKeepsWellformed(st: CacheState, steps: seq<Step>)
    requires Wellformed(st)
    ensures Wellformed(Run(st, steps))
    decreases |steps|
  {
    if steps != [] {
      match steps[0] {
        case Write(key, blob) => SetKeepsWellformed(st, key, blob);
        case Expire(id) => FireKeepsWellformed(st, id);
        case Tick(elapsed) => AdvanceKeepsWellformed(st, elapsed);
        case ClearAll => ClearKeepsWellformed(st);
      }
      RunKeepsWellformed(Apply(st, steps[0]), steps[1..]);
    }
  }

  /** `step` leaves the entry for `key`, whose timer is `id`, alone. */
  predicate Spares(step: Step, key: string, id: nat)
  {
    match step
    case Write(k, _) => k != key
    case Expire(i) => i != id
    case Tick(_) => true
    case ClearAll => false
  }

  /**
   * An entry stays as written, and `get` keeps returning its blob, until its own
   * timer fires, the same key is written again or the cache is cleared.
   */
  lemma {:induction false} EntrySurvives(st: CacheState, key: string, steps: seq<Step>)
    requires Wellformed(st) && key in st.entries
    requires forall i :: 0 <= i < |steps| ==> Spares(steps[i], key, st.entries[key].timer)
    ensures key in Run(st, steps).entries && Run(st, steps).entries[key] == st.entries[key]
    decreases |steps|
  {
    if steps != [] {
      var st' := Apply(st, steps[0]);
      match steps[0] {
        case Write(k, blob) => SetKeepsWellformed(st, k, blob);
        case Expire(id) => FireKeepsWellformed(st, id);
        case Tick(elapsed) => AdvanceKeepsWellformed(st, elapsed);
      }
      assert forall i :: 0 <= i < |steps[1..]| ==> steps[1..][i] == steps[i + 1];
      EntrySurvives(st', key, steps[1..]);
    }
  }

  /** After `set(key, blob)`, `get` returns `blob` through any steps that spare the entry. */
  lemma GetAfterSetUntilExpiry(st: CacheState, key: string, blob: Blob, steps: seq<Step>)
    requires Wellformed(st)
    requires forall i :: 0 <= i < |steps| ==> Spares(steps[i], key, st.nextTimer)
    ensures Lookup(Run(AfterSet(st, key, blob), steps), key) == Some(blob)
  {
    SetKeepsWellformed(st, key, blob);
    EntrySurvives(AfterSet(st, key, blob), key, steps);
  }

  /** A sequence without repeats has as many elements as its set. */
  lemma {:induction false} DistinctCardinality(s: seq<string>)
    requires Distinct(s)
    ensures |set x | x in s| == |s|
  {
    if s != [] {
      var rest := s[1..];
      assert Distinct(rest) by {
        forall i, j | 0 <= i < j < |rest| ensures rest[i] != rest[j] { assert rest[i] == s[i + 1] && rest[j] == s[j + 1]; }
      }
      DistinctCardinality(rest);
      assert s[0] !in rest by {
        forall i | 0 <= i < |rest| ensures rest[i] != s[0] { assert rest[i] == s[i + 1]; }
      }
      assert (set x | x in s) == (set x | x in rest) + {s[0]} by {
        forall x ensures x in s <==> x in rest || x == s[0] {
          if x in s && x != s[0] {
            var i :| 0 <= i < |s| && s[i] == x;
            assert rest[i - 1] == x;
          }
        }
      }
    }
  }

  /** The iteration order lists every entry exactly once. */
  lemma OrderListsEveryEntry(st: CacheState)
    requires Wellformed(st)
    ensures |st.entries| == |st.order|
    ensures forall k :: k in st.entries ==> exists i :: 0 <= i < |st.order| && st.order[i] == k
  {
    DistinctCardinality(st.order);
    assert st.entries.Keys == set x | x in st.order;
  }

  /** Every pending timer is the timer of an entry at some position of the iteration order. */
  lemma EveryTimerHasAnEntry(st: CacheState)
    requires Wellformed(st)
    ensures forall id :: id in st.timers ==> exists j :: 0 <= j < |st.order| && st.entries[st.order[j]].timer == id
  {
    forall id | id in st.timers
      ensures exists j :: 0 <= j < |st.order| && st.entries[st.order[j]].timer == id
    {
      var key := st.timers[id].key;
      assert key in st.order;
      var j :| 0 <= j < |st.order| && st.order[j] == key;
    }
  }

  /** The per-entry records of `getStats`, in iteration order. */
  function StatsOf(keys: seq<string>, entries: map<string, CacheEntry>, now: int): (r: seq<EntryStats>)
    requires forall k :: k in keys ==> k in entries
    ensures |r| == |keys|
    ensures forall i :: 0 <= i < |keys| ==>
      r[i] == EntryStats(keys[i], |entries[keys[i]].blob.bytes|, now - entries[keys[i]].createdAt)
  {
    if keys == [] then []
    else [EntryStats(keys[0], |entries[keys[0]].blob.bytes|, now - entries[keys[0]].createdAt)]
         + StatsOf(keys[1..], entries, now)
  }

  /** Records for distinct keys of live entries: one per key, each with its size and a non-negative age. */
  lemma StatsOfDistinctKeys(keys: seq<string>, entries: map<string, CacheEntry>, now: int)
    requires forall k :: k in keys ==> k in entries && entries[k].createdAt <= now
    requires Distinct(keys)
    ensures var r := StatsOf(keys, entries, now);
      && (forall i :: 0 <= i < |r| ==>
            (r[i].key in entries && r[i].age >= 0 && r[i].size == |entries[r[i].key].blob.bytes|))
      && (forall k :: k in keys ==> exists i :: 0 <= i < |r| && r[i].key == k)
      && (forall i, j :: 0 <= i < j < |r| ==> r[i].key != r[j].key)
  {
    var r := StatsOf(keys, entries, now);
    forall i | 0 <= i < |r|
      ensures r[i].key in entries && r[i].age >= 0 && r[i].size == |entries[r[i].key].blob.bytes|
    {
      assert r[i].key == keys[i] && keys[i] in keys;
    }
    forall k | k in keys ensures exists i :: 0 <= i < |r| && r[i].key == k {
      var i :| 0 <= i < |keys| && keys[i] == k;
      assert r[i].key == k;
    }
  }

  /** The records of `getStats` cover every entry once, with its size and a non-negative age. */
  lemma StatsListEveryEntry(st: CacheState)
    requires Wellformed(st)
    ensures var r := StatsOf(st.order, st.entries, st.now);
      && |st.entries| == |r|
      && (forall i :: 0 <= i < |r| ==>
            (r[i].key in st.entries && r[i].age >= 0 && r[i].size == |st.entries[r[i].key].blob.bytes|))
      && (forall k :: k in st.entries ==> exists i :: 0 <= i < |r| && r[i].key == k)
      && (forall i, j :: 0 <= i < j < |r| ==> r[i].key != r[j].key)
  {
    OrderListsEveryEntry(st);
    StatsOfDistinctKeys(st.order, st.entries, st.now);
  }

  class AudioCache {
    /** `btoa(encodeURIComponent(text))`, kept abstract. */
    const encode: string -> string
    var entries: map<string, CacheEntry>
    var order: seq<string>
    var timers: map<nat, Timer>
    var nextTimer: nat
    var now: int

    function State(): CacheState
      reads this
    {
      CacheState(entries, order, timers, nextTimer, now)
    }

    ghost predicate Valid()
      reads this
    {
      Wellformed(State())
    }

    constructor (encode: string -> string, start: int)
      ensures Valid() && this.encode == encode && State() == Empty(start)
    {
      this.encode := encode;
      entries, order, timers, nextTimer, now := map[], [], map[], 0, start;
    }

    /** The cache key: the encoded text cut to 50 characters, so different texts can share one. */
    function GenerateKey(text: string): (key: string)
      ensures key <= encode(text)
      ensures |key| == if |encode(text)| < KEY_LENGTH then |encode(text)| else KEY_LENGTH
    {
      Prefix(encode(text), KEY_LENGTH)
    }

    method Set(text: string, blob: Blob)
      requires Valid()
      modifies this
      ensures Valid()
      ensures State() == AfterSet(old(State()), GenerateKey(text), blob)
    {
      SetKeepsWellformed(State(), GenerateKey(text), blob);
      Store(GenerateKey(text), blob);
    }

    /** The body of `set` on the key: cancel the key's old timer, schedule a new one, store the entry. */
    method Store(key: string, blob: Blob)
      modifies this
      ensures State() == AfterSet(old(State()), key, blob)
    {
      if key in entries {
        timers := timers - {entries[key].timer};
      }
      var timer := nextTimer;
      nextTimer := nextTimer + 1;
      timers := timers[timer := Timer(key, now + TTL)];
      if key !in entries {
        order := order + [key];
      }
      entries := entries[key := CacheEntry(blob, timer, now)];
    }

    /** `get`: the blob stored under the text's key, if any. Reading changes nothing. */
    function Get(text: string): (r: Option<Blob>)
      reads this
      ensures r.Some? <==> GenerateKey(text) in entries
      ensures r.Some? ==> r.value == entries[GenerateKey(text)].blob
    {
      Lookup(State(), GenerateKey(text))
    }

    /** Texts with the same key share one entry: the last `set` of either is what `get` of both returns. */
    lemma SameKeySharesEntry(text1: string, text2: string, blob: Blob)
      requires GenerateKey(text1) == GenerateKey(text2)
      ensures Lookup(AfterSet(State(), GenerateKey(text1), blob), GenerateKey(text2)) == Some(blob)
    {
    }

    /** The environment delivers the timeout with id `id`; only a pending timer that is due can run. */
    method Fire(id: nat)
      requires Valid()
      requires id in timers ==> timers[id].deadline <= now
      modifies this
      ensures Valid()
      ensures State() == AfterFire(old(State()), id)
    {
      FireKeepsWellformed(State(), id);
      if id in timers {
        var key := timers[id].key;
        entries := entries - {key};
        order := Without(order, key);
        timers := timers - {id};
      }
    }

    method Advance(elapsed: nat)
      requires Valid()
      modifies this
      ensures Valid()
      ensures State() == AfterAdvance(old(State()), elapsed)
    {
      now := now + elapsed;
    }

    /** `clear`: cancel the timer of each entry, in iteration order, then empty the map. */
    method Clear()
      requires Valid()
      modifies this
      ensures Valid()
      ensures State() == AfterClear(old(State()))
    {
      EveryTimerHasAnEntry(State());
      CancelTimers();
      assert timers == map[];
      entries := map[];
      order := [];
    }

    /** The loop of `clear`: cancel the timer of each entry, in iteration order. */
    method CancelTimers()
      requires forall k :: k in order ==> k in entries
      modifies this
      ensures entries == old(entries) && order == old(order)
      ensures nextTimer == old(nextTimer) && now == old(now)
      ensures forall id :: id in timers <==> id in old(timers) && forall j :: 0 <= j < |order| ==> id != entries[order[j]].timer
    {
      var i := 0;
      while i < |order|
        invariant 0 <= i <= |order|
        invariant entries == old(entries) && order == old(order)
        invariant nextTimer == old(nextTimer) && now == old(now)
        invariant forall id :: id in timers <==> id in old(timers) && forall j :: 0 <= j < i ==> id != entries[order[j]].timer
      {
        timers := timers - {entries[order[i]].timer};
        i := i + 1;
      }
    }

    /** `getStats`: how many entries there are, and one record per key in iteration order, with its age now. */
    function GetStats(): (r: Stats)
      reads this
      requires Valid()
      ensures r.size == |entries| == |r.entries|
      ensures forall i :: 0 <= i < |r.entries| ==>
                (r.entries[i].key in entries && r.entries[i].age >= 0
                 && r.entries[i].size == |entries[r.entries[i].key].blob.bytes|)
      ensures forall k :: k in entries ==> exists i :: 0 <= i < |r.entries| && r.entries[i].key == k
      ensures forall i, j :: 0 <= i < j < |r.entries| ==> r.entries[i].key != r.entries[j].key
    {
      StatsListEveryEntry(State());
      Stats(|entries|, StatsOf(order, entries, now))
    }
  }
}
