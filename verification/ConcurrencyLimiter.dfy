/** The Agent concurrency limiter (backend/app/services/agent_concurrency.py),
    compared with the list of the executions that currently hold slots. Each
    block the source runs under its lock is one step. */
module ConcurrencyLimiter {
  import opened Basics

  /** One Agent execution; `agent == None` is the source's "direct-chat". */
  datatype Execution = Execution(tenant: Id, user: Id, agent: Option<Id>)

  /** The keys of the source's counter dictionary. */
  datatype SlotKey =
    | TenantSlot(tenant: Id)
    | UserSlot(tenant: Id, user: Id)
    | AgentSlot(tenant: Id, agent: Option<Id>)

  datatype Slot = Slot(key: SlotKey, limit: nat)

  /** The settings after clamping at zero; zero switches a scope off. */
  datatype Limits = Limits(tenant: nat, user: nat, agent: nat)

  type Counts = map<SlotKey, nat>

  function Slots(x: Execution, limits: Limits): seq<Slot> {
    var all := [Slot(TenantSlot(x.tenant), limits.tenant),
                Slot(UserSlot(x.tenant, x.user), limits.user),
                Slot(AgentSlot(x.tenant, x.agent), limits.agent)];
    Filter(all, (s: Slot) => s.limit > 0)
  }

  function LimitOf(limits: Limits, k: SlotKey): nat {
    match k
    case TenantSlot(_) => limits.tenant
    case UserSlot(_, _) => limits.user
    case AgentSlot(_, _) => limits.agent
  }

  /** `x` occupies a slot of `k`. */
  predicate Covers(limits: Limits, x: Execution, k: SlotKey) {
    && LimitOf(limits, k) > 0
    && match k
       case TenantSlot(t) => x.tenant == t
       case UserSlot(t, u) => x.tenant == t && x.user == u
       case AgentSlot(t, a) => x.tenant == t && x.agent == a
  }

  function Occupancy(limits: Limits, holders: seq<Execution>, k: SlotKey): nat {
    Count(holders, (x: Execution) => Covers(limits, x, k))
  }

  function Get(active: Counts, k: SlotKey): nat { if k in active then active[k] else 0 }

  lemma SlotsInOrder(x: Execution, limits: Limits)
    ensures Slots(x, limits) ==
            (if limits.tenant > 0 then [Slot(TenantSlot(x.tenant), limits.tenant)] else []) +
            (if limits.user > 0 then [Slot(UserSlot(x.tenant, x.user), limits.user)] else []) +
            (if limits.agent > 0 then [Slot(AgentSlot(x.tenant, x.agent), limits.agent)] else [])
  {
    var on := (s: Slot) => s.limit > 0;
    var a, b, c := Slot(TenantSlot(x.tenant), limits.tenant), Slot(UserSlot(x.tenant, x.user), limits.user),
                   Slot(AgentSlot(x.tenant, x.agent), limits.agent);
    assert [a, b, c][..2] == [a, b] && [a, b][..1] == [a] && [a][..0] == [];
    assert Filter([a], on) == if on(a) then [a] else [];
    assert Filter([a, b], on) == Filter([a], on) + (if on(b) then [b] else []);
  }

  lemma {:induction false} OccupancyIs(limits: Limits, holders: seq<Execution>, k: SlotKey, of: Execution -> bool)
    requires forall x :: of(x) <==> Covers(limits, x, k)
    ensures Occupancy(limits, holders, k) == Count(holders, of)
  {
    if holders != [] { OccupancyIs(limits, holders[..|holders| - 1], k, of); }
  }

  lemma SlotsAreTheCoveredKeys(x: Execution, limits: Limits)
    ensures var s := Slots(x, limits);
            && (forall i, j :: 0 <= i < j < |s| ==> s[i].key != s[j].key)
            && (forall slot :: slot in s ==> slot.limit == LimitOf(limits, slot.key) && Covers(limits, x, slot.key))
            && (forall k :: Covers(limits, x, k) ==> Slot(k, LimitOf(limits, k)) in s)
  {
    hide Slots;
    SlotsInOrder(x, limits);
  }

  // ---- Steps -------------------------------------------------------------------

  function FirstBlocked(active: Counts, slots: seq<Slot>): (r: Option<Slot>)
    ensures r.Some? ==> r.value in slots && Get(active, r.value.key) >= r.value.limit
    ensures r.None? <==> forall s :: s in slots ==> Get(active, s.key) < s.limit
  {
    if slots == [] then None
    else if Get(active, slots[0].key) >= slots[0].limit then Some(slots[0])
    else
      assert slots == [slots[0]] + slots[1..];
      FirstBlocked(active, slots[1..])
  }

  function Increment(active: Counts, slots: seq<Slot>): Counts {
    if slots == [] then active
    else
      var m := Increment(active, slots[..|slots| - 1]);
      var k := slots[|slots| - 1].key;
      m[k := Get(m, k) + 1]
  }

  function Decrement(active: Counts, slots: seq<Slot>): Counts {
    if slots == [] then active
    else
      var m := Decrement(active, slots[..|slots| - 1]);
      var k := slots[|slots| - 1].key;
      if Get(m, k) <= 1 then m - {k} else m[k := Get(m, k) - 1]
  }

  /** The counter dictionary and the executions that hold slots. */
  datatype Holding = Holding(active: Counts, holders: seq<Execution>)

  /** One pass of `_acquire` under the lock, or the end of the `i`-th holder. */
  datatype Event = TryAcquire(who: Execution) | Finish(i: nat)

  function Step(limits: Limits, s: Holding, ev: Event): Holding {
    match ev
    case TryAcquire(x) =>
      if FirstBlocked(s.active, Slots(x, limits)).Some? then s
      else Holding(Increment(s.active, Slots(x, limits)), s.holders + [x])
    case Finish(i) =>
      if i >= |s.holders| then s
      else Holding(Decrement(s.active, Slots(s.holders[i], limits)), s.holders[..i] + s.holders[i + 1..])
  }

  function Run(limits: Limits, run: seq<Event>): Holding {
    if run == [] then Holding(map[], [])
    else Step(limits, Run(limits, run[..|run| - 1]), run[|run| - 1])
  }

  // ---- Every count is the number of current holders -------------------------------

  ghost predicate Consistent(limits: Limits, s: Holding) {
    && (forall k :: Get(s.active, k) == Occupancy(limits, s.holders, k))
    && (forall k :: k in s.active ==> 1 <= s.active[k] <= LimitOf(limits, k))
  }

  lemma {:induction false} IncrementEach(active: Counts, slots: seq<Slot>, k: SlotKey)
    requires forall i, j :: 0 <= i < j < |slots| ==> slots[i].key != slots[j].key
    ensures Get(Increment(active, slots), k) == Get(active, k) +
        (if exists s :: s in slots && s.key == k then 1 else 0)
    ensures k in Increment(active, slots) <==> k in active || exists s :: s in slots && s.key == k
  {
    if slots != [] {
      var last := slots[|slots| - 1];
      var front := slots[..|slots| - 1];
      IncrementEach(active, front, k);
      assert slots == front + [last];
      assert last in slots;
    }
  }

  lemma {:induction false} DecrementEach(active: Counts, slots: seq<Slot>, k: SlotKey)
    requires forall i, j :: 0 <= i < j < |slots| ==> slots[i].key != slots[j].key
    requires forall s :: s in slots ==> s.key in active
    requires forall key :: key in active ==> active[key] >= 1
    ensures Get(Decrement(active, slots), k) ==
        Get(active, k) - (if exists s :: s in slots && s.key == k then 1 else 0)
    ensures k in Decrement(active, slots) ==> k in active && Decrement(active, slots)[k] >= 1
  {
    if slots != [] {
      var last := slots[|slots| - 1];
      var front := slots[..|slots| - 1];
      DecrementEach(active, front, k);
      DecrementEach(active, front, last.key);
      assert slots == front + [last];
      assert last in slots;
      assert Get(active, last.key) >= 1;
    }
  }

  lemma OccupancyAppend(limits: Limits, holders: seq<Execution>, x: Execution, k: SlotKey)
    ensures Occupancy(limits, holders + [x], k) == Occupancy(limits, holders, k) +
        (if Covers(limits, x, k) then 1 else 0)
  {}

  lemma {:induction false} AcquireKeeps(limits: Limits, s: Holding, x: Execution)
    requires Consistent(limits, s) && FirstBlocked(s.active, Slots(x, limits)).None?
    ensures Consistent(limits, Step(limits, s, TryAcquire(x)))
  {
    var slots, next := Slots(x, limits), Step(limits, s, TryAcquire(x));
    SlotsAreTheCoveredKeys(x, limits);
    forall k
      ensures Get(next.active, k) == Occupancy(limits, next.holders, k)
      ensures k in next.active ==> 1 <= next.active[k] <= LimitOf(limits, k)
    {
      IncrementEach(s.active, slots, k);
      OccupancyAppend(limits, s.holders, x, k);
      assert Covers(limits, x, k) ==> Slot(k, LimitOf(limits, k)) in slots;
    }
  }

  lemma {:induction false} FinishKeeps(limits: Limits, s: Holding, i: nat)
    requires Consistent(limits, s) && i < |s.holders|
    ensures Consistent(limits, Step(limits, s, Finish(i)))
  {
    var x := s.holders[i];
    var slots, next := Slots(x, limits), Step(limits, s, Finish(i));
    SlotsAreTheCoveredKeys(x, limits);
    forall slot | slot in slots ensures slot.key in s.active {
      CountWithout(s.holders, i, (h: Execution) => Covers(limits, h, slot.key));
      assert Get(s.active, slot.key) == Occupancy(limits, s.holders, slot.key);
    }
    forall k
      ensures Get(next.active, k) == Occupancy(limits, next.holders, k)
      ensures k in next.active ==> 1 <= next.active[k] <= LimitOf(limits, k)
    {
      DecrementEach(s.active, slots, k);
      CountWithout(s.holders, i, (h: Execution) => Covers(limits, h, k));
      assert Get(s.active, k) == Occupancy(limits, s.holders, k);
      assert Covers(limits, x, k) ==> Slot(k, LimitOf(limits, k)) in slots;
    }
  }

  /** Over every interleaving of acquisitions and releases, each stored count is
      the number of current holders of that key, between one and its limit. */
  lemma {:induction false} CountsAreHolders(limits: Limits, run: seq<Event>)
    ensures Consistent(limits, Run(limits, run))
  {
    if run != [] {
      var s, ev := Run(limits, run[..|run| - 1]), run[|run| - 1];
      CountsAreHolders(limits, run[..|run| - 1]);
      match ev {
        case TryAcquire(x) => if FirstBlocked(s.active, Slots(x, limits)).None? { AcquireKeeps(limits, s, x); }
        case Finish(i) => if i < |s.holders| { FinishKeeps(limits, s, i); }
      }
    }
  }

  /** All or nothing, and exactly when there is room: an execution is admitted
      iff every scope that is switched on has fewer holders than its limit; if
      not, the counters do not change at all. */
  lemma AdmittedExactlyWhenRoom(limits: Limits, run: seq<Event>, x: Execution)
    ensures var s := Run(limits, run);
            var next := Step(limits, s, TryAcquire(x));
            if forall k :: Covers(limits, x, k) ==> Occupancy(limits, s.holders, k) < LimitOf(limits, k)
            then next.holders == s.holders + [x] &&
                 forall k :: Get(next.active, k) == Get(s.active, k) + (if Covers(limits, x, k) then 1 else 0)
            else next == s
  {
    var s := Run(limits, run);
    CountsAreHolders(limits, run);
    SlotsAreTheCoveredKeys(x, limits);
    var next := Step(limits, s, TryAcquire(x));
    forall slot | slot in Slots(x, limits)
      ensures Get(s.active, slot.key) == Occupancy(limits, s.holders, slot.key) && Covers(limits, x, slot.key) {}
    if FirstBlocked(s.active, Slots(x, limits)).None? {
      AcquireKeeps(limits, s, x);
      forall k ensures Get(next.active, k) == Get(s.active, k) + (if Covers(limits, x, k) then 1 else 0) {
        OccupancyAppend(limits, s.holders, x, k);
        assert Get(s.active, k) == Occupancy(limits, s.holders, k);
        assert Get(next.active, k) == Occupancy(limits, next.holders, k);
      }
      forall k | Covers(limits, x, k) ensures Occupancy(limits, s.holders, k) < LimitOf(limits, k) {
        assert Slot(k, LimitOf(limits, k)) in Slots(x, limits);
        assert Get(s.active, k) == Occupancy(limits, s.holders, k);
      }
    }
  }

  /** An execution is admitted exactly when its tenant runs fewer than the tenant limit,
      its user fewer than the user limit, and its agent, or direct chat, fewer than the
      agent limit, each within the tenant; a limit of zero does not count. */
  lemma {:induction false} AdmittedExactly(limits: Limits, run: seq<Event>, x: Execution)
    ensures var before, after := Run(limits, run).holders, Run(limits, run + [TryAcquire(x)]).holders;
            var ofTenant := (h: Execution) => h.tenant == x.tenant;
            var ofUser := (h: Execution) => h.tenant == x.tenant && h.user == x.user;
            var ofAgent := (h: Execution) => h.tenant == x.tenant && h.agent == x.agent;
            after ==
            if && (limits.tenant > 0 ==> Count(before, ofTenant) < limits.tenant)
               && (limits.user > 0 ==> Count(before, ofUser) < limits.user)
               && (limits.agent > 0 ==> Count(before, ofAgent) < limits.agent)
            then before + [x] else before
  {
    hide Step, Slots;
    var s := Run(limits, run);
    assert (run + [TryAcquire(x)])[..|run|] == run;
    AdmittedExactlyWhenRoom(limits, run, x);
    var t, u, a := TenantSlot(x.tenant), UserSlot(x.tenant, x.user), AgentSlot(x.tenant, x.agent);
    if limits.tenant > 0 { OccupancyIs(limits, s.holders, t, (h: Execution) => h.tenant == x.tenant); }
    if limits.user > 0 {
      OccupancyIs(limits, s.holders, u, (h: Execution) => h.tenant == x.tenant && h.user == x.user);
    }
    if limits.agent > 0 {
      OccupancyIs(limits, s.holders, a, (h: Execution) => h.tenant == x.tenant && h.agent == x.agent);
    }
    assert Covers(limits, x, t) <==> limits.tenant > 0;
    assert Covers(limits, x, u) <==> limits.user > 0;
    assert Covers(limits, x, a) <==> limits.agent > 0;
    assert forall k :: Covers(limits, x, k) ==> k == t || k == u || k == a;
  }

  /** A refused execution is told the first scope without room: its tenant, or else its
      user, or else its agent. */
  lemma {:induction false} BlockedBy(limits: Limits, run: seq<Event>, x: Execution)
    ensures var s := Run(limits, run);
            var ofTenant := (h: Execution) => h.tenant == x.tenant;
            var ofUser := (h: Execution) => h.tenant == x.tenant && h.user == x.user;
            var ofAgent := (h: Execution) => h.tenant == x.tenant && h.agent == x.agent;
            FirstBlocked(s.active, Slots(x, limits)) ==
            if limits.tenant > 0 && Count(s.holders, ofTenant) >= limits.tenant
            then Some(Slot(TenantSlot(x.tenant), limits.tenant))
            else if limits.user > 0 && Count(s.holders, ofUser) >= limits.user
            then Some(Slot(UserSlot(x.tenant, x.user), limits.user))
            else if limits.agent > 0 && Count(s.holders, ofAgent) >= limits.agent
            then Some(Slot(AgentSlot(x.tenant, x.agent), limits.agent))
            else None
  {
    hide Run, Slots;
    var s := Run(limits, run);
    var t, u, a := TenantSlot(x.tenant), UserSlot(x.tenant, x.user), AgentSlot(x.tenant, x.agent);
    CountsAreHolders(limits, run);
    if limits.tenant > 0 { OccupancyIs(limits, s.holders, t, (h: Execution) => h.tenant == x.tenant); }
    if limits.user > 0 {
      OccupancyIs(limits, s.holders, u, (h: Execution) => h.tenant == x.tenant && h.user == x.user);
    }
    if limits.agent > 0 {
      OccupancyIs(limits, s.holders, a, (h: Execution) => h.tenant == x.tenant && h.agent == x.agent);
    }
    assert Get(s.active, t) == Occupancy(limits, s.holders, t);
    assert Get(s.active, u) == Occupancy(limits, s.holders, u);
    assert Get(s.active, a) == Occupancy(limits, s.holders, a);
    SlotsInOrder(x, limits);
    var one := if limits.tenant > 0 then [Slot(t, limits.tenant)] else [];
    var two := if limits.user > 0 then [Slot(u, limits.user)] else [];
    var three := if limits.agent > 0 then [Slot(a, limits.agent)] else [];
    FirstBlockedOf(s.active, one, two + three);
    FirstBlockedOf(s.active, two, three);
    assert one + (two + three) == one + two + three;
  }

  lemma {:induction false} FirstBlockedOf(active: Counts, a: seq<Slot>, b: seq<Slot>)
    requires |a| <= 1
    ensures FirstBlocked(active, a + b) == if FirstBlocked(active, a).Some? then FirstBlocked(active, a)
                                           else FirstBlocked(active, b)
  {
    if a == [] { assert a + b == b; } else { assert (a + b)[1..] == b; }
  }

  /** When the last holder has finished the dictionary is empty again. */
  lemma {:induction false} EmptyWhenIdle(limits: Limits, run: seq<Event>)
    requires Run(limits, run).holders == []
    ensures Run(limits, run).active == map[]
  {
    var s := Run(limits, run);
    CountsAreHolders(limits, run);
    forall k ensures k !in s.active {
      assert Get(s.active, k) == Occupancy(limits, s.holders, k);
    }
  }

  // ---- The counts of one tenant add up ------------------------------------------

  /** The holders of one tenant for which `tag` is `v`. */
  function TagCount<T(==)>(holders: seq<Execution>, tenant: Id, tag: Execution -> T, v: T): nat {
    Count(holders, (x: Execution) => x.tenant == tenant && tag(x) == v)
  }

  function TaggedAmong<T(==)>(holders: seq<Execution>, tenant: Id, tag: Execution -> T, tags: seq<T>): nat {
    Count(holders, (x: Execution) => x.tenant == tenant && tag(x) in tags)
  }

  lemma {:induction false} CountDisjoint(s: seq<Execution>, p: Execution -> bool, q: Execution -> bool,
          either: Execution -> bool)
    requires forall x :: x in s ==> !(p(x) && q(x)) && (either(x) == (p(x) || q(x)))
    ensures Count(s, either) == Count(s, p) + Count(s, q)
  {
    if s != [] { CountDisjoint(s[..|s| - 1], p, q, either); }
  }

  /** Holders of one tenant, grouped by a tag, add up over the tags. */
  lemma {:induction false} TotalByTag<T>(holders: seq<Execution>, tenant: Id, tag: Execution -> T, tags: seq<T>,
          f: T -> int)
    requires NoDuplicates(tags)
    requires forall v :: v in tags ==> f(v) == TagCount(holders, tenant, tag, v)
    ensures SumOf(tags, f) == TaggedAmong(holders, tenant, tag, tags)
  {
    if tags == [] {
      NoneCounted(holders, (x: Execution) => x.tenant == tenant && tag(x) in tags);
    } else {
      var front, v := tags[..|tags| - 1], tags[|tags| - 1];
      TotalByTag(holders, tenant, tag, front, f);
      assert tags == front + [v];
      CountDisjoint(holders, (x: Execution) => x.tenant == tenant && tag(x) in front,
                    (x: Execution) => x.tenant == tenant && tag(x) == v,
                    (x: Execution) => x.tenant == tenant && tag(x) in tags);
    }
  }

  lemma {:induction false} NoneCounted<T>(s: seq<T>, p: T -> bool)
    requires forall x :: x in s ==> !p(x)
    ensures Count(s, p) == 0
  {
    if s != [] { NoneCounted(s[..|s| - 1], p); }
  }

  /** What tells the slots of one scope of a tenant apart. */
  ghost predicate Distinguishes<T(!new)>(limits: Limits, tenant: Id, tag: Execution -> T, slot: T -> SlotKey) {
    forall x: Execution, v: T :: Covers(limits, x, slot(v)) <==> x.tenant == tenant && tag(x) == v
  }

  lemma {:induction false} ScopeSumsToTenant<T(!new)>(limits: Limits, run: seq<Event>, tenant: Id,
          tag: Execution -> T, slot: T -> SlotKey, tags: seq<T>, f: T -> int)
    requires limits.tenant > 0 && NoDuplicates(tags) && Distinguishes(limits, tenant, tag, slot)
    requires forall v :: f(v) == Get(Run(limits, run).active, slot(v))
    requires forall v :: slot(v) in Run(limits, run).active ==> v in tags
    ensures SumOf(tags, f) == Get(Run(limits, run).active, TenantSlot(tenant))
  {
    hide Run, SumOf, Count, NoDuplicates, Get, TaggedAmong;
    var s := Run(limits, run);
    CountsAreHolders(limits, run);
    forall v | v in tags ensures f(v) == TagCount(s.holders, tenant, tag, v) {
      assert f(v) == Get(s.active, slot(v)) == Occupancy(limits, s.holders, slot(v));
      CountSame(s.holders, (x: Execution) => Covers(limits, x, slot(v)),
                (x: Execution) => x.tenant == tenant && tag(x) == v);
    }
    TotalByTag(s.holders, tenant, tag, tags, f);
    forall x | x in s.holders && x.tenant == tenant ensures tag(x) in tags {
      assert Covers(limits, x, slot(tag(x)));
      HolderIsCounted(limits, s, x, slot(tag(x)));
    }
    assert Get(s.active, TenantSlot(tenant)) == Occupancy(limits, s.holders, TenantSlot(tenant));
    AllAreTagged(limits, s.holders, tenant, tag, tags);
  }

  lemma {:induction false} AllAreTagged<T>(limits: Limits, holders: seq<Execution>, tenant: Id, tag: Execution -> T,
          tags: seq<T>)
    requires limits.tenant > 0
    requires forall x :: x in holders && x.tenant == tenant ==> tag(x) in tags
    ensures Occupancy(limits, holders, TenantSlot(tenant)) == TaggedAmong(holders, tenant, tag, tags)
  {
    hide Count;
    CountSame(holders, (x: Execution) => Covers(limits, x, TenantSlot(tenant)),
              (x: Execution) => x.tenant == tenant && tag(x) in tags);
  }

  function UserCount(active: Counts, tenant: Id): Id -> int { (u: Id) => Get(active, UserSlot(tenant, u)) }

  function AgentCount(active: Counts, tenant: Id): Option<Id> -> int {
    (a: Option<Id>) => Get(active, AgentSlot(tenant, a))
  }

  /** With the tenant and user scopes on, the user counts of a tenant add up to
      its tenant count, over any list of users that has each counted one once. */
  lemma {:induction false} UserCountsSumToTenant(limits: Limits, run: seq<Event>, tenant: Id, users: seq<Id>)
    requires limits.tenant > 0 && limits.user > 0 && NoDuplicates(users)
    requires forall u :: UserSlot(tenant, u) in Run(limits, run).active ==> u in users
    ensures var active := Run(limits, run).active;
            SumOf(users, UserCount(active, tenant)) == Get(active, TenantSlot(tenant))
  {
    ScopeSumsToTenant(limits, run, tenant, (x: Execution) => x.user, (u: Id) => UserSlot(tenant, u), users,
                      UserCount(Run(limits, run).active, tenant));
  }

  /** Likewise for the Agents of a tenant, "direct-chat" counting as one of them. */
  lemma {:induction false} AgentCountsSumToTenant(limits: Limits, run: seq<Event>, tenant: Id,
          agents: seq<Option<Id>>)
    requires limits.tenant > 0 && limits.agent > 0 && NoDuplicates(agents)
    requires forall a :: AgentSlot(tenant, a) in Run(limits, run).active ==> a in agents
    ensures var active := Run(limits, run).active;
            SumOf(agents, AgentCount(active, tenant)) == Get(active, TenantSlot(tenant))
  {
    ScopeSumsToTenant(limits, run, tenant, (x: Execution) => x.agent, (a: Option<Id>) => AgentSlot(tenant, a), agents,
                      AgentCount(Run(limits, run).active, tenant));
  }

  lemma {:induction false} HolderIsCounted(limits: Limits, s: Holding, x: Execution, k: SlotKey)
    requires Consistent(limits, s) && x in s.holders && Covers(limits, x, k)
    ensures k in s.active
  {
    var i :| 0 <= i < |s.holders| && s.holders[i] == x;
    CountWithout(s.holders, i, (h: Execution) => Covers(limits, h, k));
    assert Get(s.active, k) == Occupancy(limits, s.holders, k);
  }

  // ---- The class -------------------------------------------------------------------

  class InMemoryAgentConcurrencyLimiter {
    const limits: Limits
    var active: Counts
    /** The executions inside the context manager, in order of admission. */
    ghost var holders: seq<Execution>

    ghost function Value(): Holding reads this { Holding(active, holders) }

    ghost predicate Valid() reads this { Consistent(limits, Value()) }

    constructor (tenantLimit: int, userLimit: int, agentLimit: int)
      ensures Valid() && active == map[] && holders == []
      ensures limits == Limits(Max(tenantLimit, 0), Max(userLimit, 0), Max(agentLimit, 0))
    {
      limits := Limits(Max(tenantLimit, 0), Max(userLimit, 0), Max(agentLimit, 0));
      active, holders := map[], [];
    }

    method BlockedSlot(slots: seq<Slot>) returns (blocked: Option<Slot>)
      ensures blocked == FirstBlocked(active, slots)
    {
      var i := 0;
      while i < |slots|
        invariant 0 <= i <= |slots|
        invariant FirstBlocked(active, slots) == FirstBlocked(active, slots[i..])
      {
        if Get(active, slots[i].key) >= slots[i].limit { return Some(slots[i]); }
        i := i + 1;
      }
      blocked := None;
    }

    /** One pass under the lock: takes every slot and reports the new counts, or
        none of them and the slot that was full. */
    method TryOnce(x: Execution) returns (blocked: Option<Slot>, counts: seq<nat>)
      requires Valid()
      modifies this
      ensures Valid() && Value() == Step(limits, old(Value()), TryAcquire(x))
      ensures blocked == FirstBlocked(old(active), Slots(x, limits))
      ensures blocked.None? ==>
                && |counts| == |Slots(x, limits)|
                && forall j :: 0 <= j < |counts| ==> counts[j] == Get(active, Slots(x, limits)[j].key)
    {
      counts := [];
      var slots := Slots(x, limits);
      SlotsAreTheCoveredKeys(x, limits);
      blocked := BlockedSlot(slots);
      if blocked.Some? { return; }
      AcquireKeeps(limits, Value(), x);
      counts := TakeAll(slots);
      holders := holders + [x];
    }

    method TakeAll(slots: seq<Slot>) returns (counts: seq<nat>)
      requires forall i, j :: 0 <= i < j < |slots| ==> slots[i].key != slots[j].key
      modifies this`active
      ensures active == Increment(old(active), slots)
      ensures |counts| == |slots| && forall j :: 0 <= j < |counts| ==> counts[j] == Get(active, slots[j].key)
    {
      counts := [];
      var i := 0;
      while i < |slots|
        invariant 0 <= i <= |slots| && |counts| == i
        invariant active == Increment(old(active), slots[..i])
        invariant forall j :: 0 <= j < i ==> counts[j] == Get(active, slots[j].key)
      {
        assert slots[..i + 1][..i] == slots[..i];
        var key := slots[i].key;
        active := active[key := Get(active, key) + 1];
        counts := counts + [active[key]];
        i := i + 1;
      }
      assert slots[..i] == slots;
    }

    /** The exit of the context manager for the `i`-th holder. */
    method Release(ghost i: nat, x: Execution)
      requires Valid() && i < |holders| && holders[i] == x
      modifies this
      ensures Valid() && Value() == Step(limits, old(Value()), Finish(i))
    {
      hide Slots, Consistent;
      var slots := Slots(x, limits);
      FinishKeeps(limits, Value(), i);
      var j := 0;
      while j < |slots|
        invariant 0 <= j <= |slots|
        invariant active == Decrement(old(active), slots[..j]) && holders == old(holders)
      {
        assert slots[..j + 1][..j] == slots[..j];
        var key := slots[j].key;
        var count := Get(active, key);
        if count <= 1 { active := active - {key}; } else { active := active[key := count - 1]; }
        j := j + 1;
      }
      assert slots[..j] == slots;
      holders := holders[..i] + holders[i + 1..];
    }
  }
}
