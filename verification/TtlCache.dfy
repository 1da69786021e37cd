/** The TTL and LRU cache of the retrieval path (backend/app/rag/cache.py).

    The ordered dictionary is a sequence of entries, oldest touch first. The
    class's methods are specified by `Step`; the theorems compare the cache with
    the history of accesses that produced it. */
module TtlCache {
  import opened Basics

  datatype Entry<K, V> = Entry(key: K, expiresAt: Micros, value: V)

  datatype Cache<K, V> = Cache(data: seq<Entry<K, V>>, hits: nat, misses: nat)

  datatype Access<K, V> = Get(key: K, at: Micros) | Set(key: K, value: V, at: Micros) | Clear(at: Micros)

  datatype Config = Config(maxsize: nat, ttl: Micros)

  // ---- The ordered dictionary -------------------------------------------------

  ghost predicate Distinct<K, V>(data: seq<Entry<K, V>>) {
    forall i, j :: 0 <= i < j < |data| ==> data[i].key != data[j].key
  }

  function Find<K(==), V>(data: seq<Entry<K, V>>, k: K): (r: Option<nat>)
    ensures r.Some? ==> r.value < |data| && data[r.value].key == k
    ensures r.None? ==> forall i :: 0 <= i < |data| ==> data[i].key != k
  {
    if data == [] then None
    else if data[|data| - 1].key == k then Some(|data| - 1)
    else Find(data[..|data| - 1], k)
  }

  function RemoveAt<T>(s: seq<T>, i: nat): seq<T>
    requires i < |s|
  {
    s[..i] + s[i + 1..]
  }

  function Without<K(==), V>(data: seq<Entry<K, V>>, k: K): seq<Entry<K, V>> {
    var i := Find(data, k);
    if i.Some? then RemoveAt(data, i.value) else data
  }

  /** The entries left after evicting from the old end down to `maxsize`. */
  function Trim<T>(s: seq<T>, maxsize: nat): seq<T> {
    if |s| > maxsize then s[|s| - maxsize..] else s
  }

  function Hit<K(==), V>(c: Cache<K, V>, k: K, now: Micros): Option<V> {
    var i := Find(c.data, k);
    if i.Some? && c.data[i.value].expiresAt >= now then Some(c.data[i.value].value) else None
  }

  function Step<K(==), V>(cfg: Config, c: Cache<K, V>, a: Access<K, V>): Cache<K, V> {
    match a
    case Get(k, now) =>
      var i := Find(c.data, k);
      if i.None? then c.(misses := c.misses + 1)
      else if c.data[i.value].expiresAt < now then Cache(RemoveAt(c.data, i.value), c.hits, c.misses + 1)
      else Cache(RemoveAt(c.data, i.value) + [c.data[i.value]], c.hits + 1, c.misses)
    case Set(k, v, now) =>
      c.(data := Trim(Without(c.data, k) + [Entry(k, now + cfg.ttl, v)], cfg.maxsize))
    case Clear(_) => Cache([], 0, 0)
  }

  function Replay<K(==), V>(cfg: Config, h: seq<Access<K, V>>): Cache<K, V> {
    if h == [] then Cache([], 0, 0)
    else Step(cfg, Replay(cfg, h[..|h| - 1]), h[|h| - 1])
  }

  // ---- Size, distinct keys and the counters ------------------------------------

  predicate IsGet<K, V>(a: Access<K, V>) { a.Get? }

  lemma {:induction false} WithoutFacts<K, V>(data: seq<Entry<K, V>>, k: K)
    requires Distinct(data)
    ensures Distinct(Without(data, k))
    ensures forall e :: e in Without(data, k) <==> e in data && e.key != k
  {}

  lemma {:induction false} StepKeepsShape<K, V>(cfg: Config, c: Cache<K, V>, a: Access<K, V>)
    requires Distinct(c.data) && |c.data| <= cfg.maxsize
    ensures var d := Step(cfg, c, a); Distinct(d.data) && |d.data| <= cfg.maxsize
  {}

  /** The cache never holds more than `maxsize` entries nor a key twice, and its
      two counters add up to the lookups made since the last clear (`k` accesses in). */
  lemma {:induction false} BoundedAndCounted<K, V>(cfg: Config, h: seq<Access<K, V>>, k: nat)
    requires k <= |h|
    requires k == 0 || h[k - 1].Clear?
    requires forall i :: k <= i < |h| ==> !h[i].Clear?
    ensures var c := Replay(cfg, h);
            Distinct(c.data) && |c.data| <= cfg.maxsize && c.hits + c.misses == Count(h[k..], IsGet)
    decreases |h|
  {
    ShapeHolds(cfg, h);
    if h != [] {
      hide Distinct, Without, Trim, Find;
      var before := h[..|h| - 1];
      if k < |h| {
        BoundedAndCounted(cfg, before, k);
        assert h[k..][..|h[k..]| - 1] == before[k..];
      }
    }
  }

  lemma {:induction false} ShapeHolds<K, V>(cfg: Config, h: seq<Access<K, V>>)
    ensures Distinct(Replay(cfg, h).data) && |Replay(cfg, h).data| <= cfg.maxsize
  {
    if h != [] {
      ShapeHolds(cfg, h[..|h| - 1]);
      StepKeepsShape(cfg, Replay(cfg, h[..|h| - 1]), h[|h| - 1]);
    }
  }

  /** The lookups from the `k`-th access on that found their key. */
  function Found<K(==), V>(cfg: Config, h: seq<Access<K, V>>, k: nat): nat
    requires k <= |h|
    decreases |h|
  {
    if k == |h| then 0
    else
      var before, a := h[..|h| - 1], h[|h| - 1];
      Found(cfg, before, k) + (if a.Get? && Hit(Replay(cfg, before), a.key, a.at).Some? then 1 else 0)
  }

  /** The hits are the lookups since the last clear that returned a value. */
  lemma {:induction false} HitsAreFound<K, V>(cfg: Config, h: seq<Access<K, V>>, k: nat)
    requires k <= |h|
    requires k == 0 || h[k - 1].Clear?
    requires forall i :: k <= i < |h| ==> !h[i].Clear?
    ensures Replay(cfg, h).hits == Found(cfg, h, k)
    decreases |h|
  {
    hide Without, Trim, Find;
    if k < |h| { HitsAreFound(cfg, h[..|h| - 1], k); }
  }

  // ---- A hit is the latest value, within its lifetime ---------------------------

  /** `h[m]` is the latest `set` of `k`, with no clear after it. */
  ghost predicate LatestSet<K, V>(h: seq<Access<K, V>>, m: int, k: K) {
    && 0 <= m < |h| && h[m].Set? && h[m].key == k
    && forall j :: m < j < |h| ==> !h[j].Clear? && (h[j].Set? ==> h[j].key != k)
  }

  /** An entry is either just set or was there before and is not being replaced. */
  lemma {:induction false} StepOrigin<K, V>(cfg: Config, c: Cache<K, V>, a: Access<K, V>, e: Entry<K, V>)
    requires Distinct(c.data)
    requires e in Step(cfg, c, a).data
    ensures !a.Clear?
    ensures a.Set? && a.key == e.key ==> e == Entry(a.key, a.at + cfg.ttl, a.value)
    ensures !(a.Set? && a.key == e.key) ==> e in c.data
  {}

  lemma {:induction false} EntryComesFromLatestSet<K, V>(cfg: Config, h: seq<Access<K, V>>, e: Entry<K, V>)
    returns (m: nat)
    requires e in Replay(cfg, h).data
    ensures LatestSet(h, m, e.key) && h[m].value == e.value && e.expiresAt == h[m].at + cfg.ttl
  {
    var before, a := h[..|h| - 1], h[|h| - 1];
    ShapeHolds(cfg, before);
    StepOrigin(cfg, Replay(cfg, before), a, e);
    if a.Set? && a.key == e.key {
      m := |h| - 1;
    } else {
      m := EntryComesFromLatestSet(cfg, before, e);
      assert h == before + [a];
    }
  }

  /** Soundness: a lookup that hits returns the value most recently set for that
      key since the last clear, and does so within that value's lifetime. */
  lemma {:induction false} HitIsLatestValue<K, V>(cfg: Config, h: seq<Access<K, V>>, k: K, now: Micros)
    returns (m: nat)
    requires Hit(Replay(cfg, h), k, now).Some?
    ensures LatestSet(h, m, k) && Hit(Replay(cfg, h), k, now) == Some(h[m].value) && now <= h[m].at + cfg.ttl
  {
    var data := Replay(cfg, h).data;
    m := EntryComesFromLatestSet(cfg, h, data[Find(data, k).value]);
  }

  // ---- A recently touched, unexpired key is always a hit --------------------------

  /** The keys an access moves to the young end of the cache. */
  function TouchedBy<K(==), V>(c: Cache<K, V>, a: Access<K, V>): set<K> {
    match a
    case Get(k, now) => if Hit(c, k, now).Some? then {k} else {}
    case Set(k, _, _) => {k}
    case Clear(_) => {}
  }

  /** The keys touched by the accesses from the `i`-th on. */
  function TouchedSince<K(==), V>(cfg: Config, h: seq<Access<K, V>>, i: nat): set<K>
    requires i <= |h|
    decreases |h|
  {
    if i == |h| then {}
    else TouchedSince(cfg, h[..|h| - 1], i) + TouchedBy(Replay(cfg, h[..|h| - 1]), h[|h| - 1])
  }

  /** `e` is the `p`-th entry, and every younger entry has a key of `others`. */
  ghost predicate SitsAt<K, V>(data: seq<Entry<K, V>>, p: int, e: Entry<K, V>, others: set<K>) {
    0 <= p < |data| && data[p] == e && forall q :: p < q < |data| ==> data[q].key in others
  }

  lemma {:induction false} DistinctKeysFit<K, V>(s: seq<Entry<K, V>>, others: set<K>)
    requires Distinct(s)
    requires forall e :: e in s ==> e.key in others
    ensures |s| <= |others|
  {
    if s != [] {
      var k := s[|s| - 1].key;
      assert s[|s| - 1] in s;
      DistinctKeysFit(s[..|s| - 1], others - {k});
    }
  }

  lemma {:induction false} RemovingKeeps<K, V>(data: seq<Entry<K, V>>, i: nat, p: nat, e: Entry<K, V>, others: set<K>)
    returns (p': nat)
    requires SitsAt(data, p, e, others) && i < |data| && i != p
    ensures SitsAt(RemoveAt(data, i), p', e, others)
  {
    p' := if i < p then p - 1 else p;
    var d := RemoveAt(data, i);
    forall q | p' < q < |d| ensures d[q].key in others {
      assert d[q] == data[if q < i then q else q + 1];
    }
  }

  lemma {:induction false} EvictionKeeps<K, V>(data: seq<Entry<K, V>>, maxsize: nat, p: nat, e: Entry<K, V>,
          others: set<K>)
    returns (p': nat)
    requires SitsAt(data, p, e, others) && Distinct(data) && |others| < maxsize
    ensures SitsAt(Trim(data, maxsize), p', e, others)
  {
    var young := data[p + 1..];
    DistinctKeysFit(young, others);
    var cut := Max(0, |data| - maxsize);
    p' := p - cut;
    var d := Trim(data, maxsize);
    assert forall j :: 0 <= j < |d| ==> d[j] == data[j + cut];
  }

  lemma {:induction false} GetRetains<K, V>(cfg: Config, c: Cache<K, V>, k: K, now: Micros, p: nat, e: Entry<K, V>,
          others: set<K>)
      returns (p': nat)
    requires SitsAt(c.data, p, e, others) && k != e.key
    requires TouchedBy(c, Get(k, now)) <= others
    ensures SitsAt(Step(cfg, c, Get(k, now)).data, p', e, others)
  {
    var i := Find(c.data, k);
    if i.None? {
      p' := p;
    } else {
      p' := RemovingKeeps(c.data, i.value, p, e, others);
      if Hit(c, k, now).Some? {
        assert k in TouchedBy(c, Get(k, now));
      }
    }
  }

  /** Taking `k` out and putting it in at the young end keeps every other entry. */
  lemma {:induction false} ReplacingKeeps<K, V>(data: seq<Entry<K, V>>, last: Entry<K, V>, p: nat, e: Entry<K, V>,
          others: set<K>)
      returns (p': nat)
    requires Distinct(data) && SitsAt(data, p, e, others) && last.key != e.key && last.key in others
    ensures Distinct(Without(data, last.key) + [last])
    ensures SitsAt(Without(data, last.key) + [last], p', e, others)
  {
    var i := Find(data, last.key);
    if i.None? {
      p' := p;
    } else {
      p' := RemovingKeeps(data, i.value, p, e, others);
    }
    WithoutFacts(data, last.key);
    var w := Without(data, last.key);
    assert forall j :: 0 <= j < |w| ==> w[j] in w;
  }

  lemma {:induction false} SetRetains<K, V>(cfg: Config, c: Cache<K, V>, k: K, v: V, now: Micros, p: nat,
          e: Entry<K, V>, others: set<K>)
      returns (p': nat)
    requires Distinct(c.data) && SitsAt(c.data, p, e, others) && k != e.key
    requires k in others && |others| < cfg.maxsize
    ensures SitsAt(Step(cfg, c, Set(k, v, now)).data, p', e, others)
  {
    hide Distinct, SitsAt, Without, Trim;
    var last := Entry(k, now + cfg.ttl, v);
    p' := ReplacingKeeps(c.data, last, p, e, others);
    p' := EvictionKeeps(Without(c.data, k) + [last], cfg.maxsize, p', e, others);
  }

  /** One access other than a clear or a touch of `e.key` keeps `e`. */
  lemma {:induction false} StepRetains<K, V>(cfg: Config, c: Cache<K, V>, a: Access<K, V>, p: nat, e: Entry<K, V>,
          others: set<K>)
      returns (p': nat)
    requires Distinct(c.data) && SitsAt(c.data, p, e, others)
    requires !a.Clear? && a.at <= e.expiresAt
    requires TouchedBy(c, a) <= others && e.key !in others && |others| < cfg.maxsize
    ensures SitsAt(Step(cfg, c, a).data, p', e, others)
  {
    SameKeySamePlace(c.data, p, e.key);
    var k := a.key;
    assert k == e.key ==> TouchedBy(c, a) == {k};
    match a {
      case Get(k, now) => p' := GetRetains(cfg, c, k, now, p, e, others);
      case Set(k, v, now) =>
        assert k in TouchedBy(c, a);
        p' := SetRetains(cfg, c, k, v, now, p, e, others);
    }
  }

  lemma {:induction false} Retained<K, V>(cfg: Config, h: seq<Access<K, V>>, i: nat, p: nat, e: Entry<K, V>,
          others: set<K>)
      returns (p': nat)
    requires i <= |h|
    requires SitsAt(Replay(cfg, h[..i]).data, p, e, others)
    requires forall j :: i <= j < |h| ==> !h[j].Clear? && h[j].at <= e.expiresAt
    requires TouchedSince(cfg, h, i) <= others && e.key !in others && |others| < cfg.maxsize
    ensures SitsAt(Replay(cfg, h).data, p', e, others)
    decreases |h|
  {
    if i == |h| {
      assert h[..i] == h;
      p' := p;
    } else {
      var before := h[..|h| - 1];
      assert before[..i] == h[..i];
      p' := Retained(cfg, before, i, p, e, others);
      ShapeHolds(cfg, before);
      p' := StepRetains(cfg, Replay(cfg, before), h[|h| - 1], p', e, others);
    }
  }

  lemma {:induction false} TouchPutsLast<K, V>(cfg: Config, c: Cache<K, V>, a: Access<K, V>, k: K)
    requires 1 <= cfg.maxsize
    requires k in TouchedBy(c, a)
    ensures var d := Step(cfg, c, a).data; d != [] && d[|d| - 1].key == k
  {}

  lemma {:induction false} LatestSetUnique<K, V>(h: seq<Access<K, V>>, m: int, m': int, k: K, i: nat)
    requires LatestSet(h, m, k) && m <= i < |h|
    requires LatestSet(h[..i + 1], m', k)
    ensures m == m'
  {}

  /** Completeness: with a clock that does not go back, a key whose latest value
      has not expired is a hit if fewer than `maxsize` other keys have been
      touched since its own last touch (access `i`). */
  lemma {:induction false} RecentUnexpiredKeyHits<K, V>(cfg: Config, h: seq<Access<K, V>>, k: K, m: nat, i: nat,
          now: Micros)
    requires LatestSet(h, m, k) && m <= i < |h| && now <= h[m].at + cfg.ttl
    requires forall j :: 0 <= j < |h| ==> h[j].at <= now
    requires k in TouchedBy(Replay(cfg, h[..i]), h[i])
    requires k !in TouchedSince(cfg, h, i + 1) && |TouchedSince(cfg, h, i + 1)| < cfg.maxsize
    ensures Hit(Replay(cfg, h), k, now) == Some(h[m].value)
  {
    var upTo, others := h[..i + 1], TouchedSince(cfg, h, i + 1);
    assert upTo[..|upTo| - 1] == h[..i];
    TouchPutsLast(cfg, Replay(cfg, h[..i]), h[i], k);
    var young := Replay(cfg, upTo).data;
    var e := young[|young| - 1];
    var m' := EntryComesFromLatestSet(cfg, upTo, e);
    LatestSetUnique(h, m, m', k, i);
    var p := Retained(cfg, h, i + 1, |young| - 1, e, others);
    ShapeHolds(cfg, h);
    SameKeySamePlace(Replay(cfg, h).data, p, k);
  }

  lemma {:induction false} SameKeySamePlace<K, V>(data: seq<Entry<K, V>>, p: nat, k: K)
    requires Distinct(data) && p < |data| && data[p].key == k
    ensures Find(data, k) == Some(p)
  {}

  // ---- The class --------------------------------------------------------------------

  class Store<K(==), V> {
    const cfg: Config
    var data: seq<Entry<K, V>>
    var hits: nat
    var misses: nat

    ghost predicate Valid() reads this { Distinct(data) && |data| <= cfg.maxsize }

    function Value(): Cache<K, V> reads this { Cache(data, hits, misses) }

    constructor (maxsize: nat, ttl: Micros)
      ensures Valid() && cfg == Config(maxsize, ttl) && Value() == Cache([], 0, 0)
    {
      cfg := Config(maxsize, ttl);
      data, hits, misses := [], 0, 0;
    }

    method Get(k: K, now: Micros) returns (v: Option<V>)
      requires Valid()
      modifies this
      ensures Valid() && Value() == Step(cfg, old(Value()), Access.Get(k, now))
      ensures v == Hit(old(Value()), k, now)
    {
      StepKeepsShape(cfg, Value(), Access.Get(k, now));
      var i := Find(data, k);
      if i.None? {
        misses := misses + 1;
        return None;
      }
      var entry := data[i.value];
      if entry.expiresAt < now {
        data := RemoveAt(data, i.value);
        misses := misses + 1;
        return None;
      }
      data := RemoveAt(data, i.value) + [entry];
      hits := hits + 1;
      v := Some(entry.value);
    }

    method Set(k: K, value: V, now: Micros)
      requires Valid()
      modifies this`data
      ensures Valid() && Value() == Step(cfg, old(Value()), Access.Set(k, value, now))
    {
      StepKeepsShape(cfg, Value(), Access.Set(k, value, now));
      hide Distinct, Without;
      var expiresAt := now + cfg.ttl;
      data := Without(data, k) + [Entry(k, expiresAt, value)];
      ghost var full := data;
      while |data| > cfg.maxsize
        invariant |data| <= |full| && data == full[|full| - |data|..]
        invariant |data| >= Min(|full|, cfg.maxsize)
      {
        data := data[1..];
      }
    }

    method Clear()
      modifies this
      ensures Valid() && Value() == Cache([], 0, 0)
    {
      data, hits, misses := [], 0, 0;
    }
  }
}
