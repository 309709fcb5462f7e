/** The registry of per-tenant connection pools: bounded, least recently used first out, and
    emptied of idle pools. Losing a pool costs a reconnection; it must never cost isolation, and
    no pool may be forgotten without being disposed. */
module PoolRegistry {
  import opened Wrappers

  type TenantId = nat
  type EngineId = nat
  /** Which of a tenant's passwords a pool was created with. */
  type Password = nat
  /** Readings of one monotone clock. */
  type Time = int

  datatype Pool = Pool(tenant: TenantId, password: Password)
  datatype Entry = Entry(tenant: TenantId, engine: EngineId, lastUsed: Time)

  /** `entries` is the ordered dictionary; `created` lists every engine ever created, by number;
      an engine taken out of the dictionary is disposed at once or awaits disposal. */
  datatype Registry = Registry(
    entries: seq<Entry>, created: seq<Pool>, awaiting: seq<EngineId>, disposed: seq<EngineId>)

  datatype Limits = Limits(maxTenants: nat, idleTtl: Time)

  // ---------------------------------------------------------- specification

  function Engines(entries: seq<Entry>): (engines: seq<EngineId>)
    ensures |engines| == |entries| && forall i | 0 <= i < |entries| :: engines[i] == entries[i].engine
  {
    seq(|entries|, i requires 0 <= i < |entries| => entries[i].engine)
  }

  predicate Idle(e: Entry, now: Time, ttl: Time) {
    now - e.lastUsed > ttl
  }

  /** How many entries at the front of the dictionary are idle. */
  function IdleCount(entries: seq<Entry>, now: Time, ttl: Time): (k: nat)
    ensures k <= |entries| && forall i | 0 <= i < k :: Idle(entries[i], now, ttl)
    ensures k < |entries| ==> !Idle(entries[k], now, ttl)
  {
    if entries == [] || !Idle(entries[0], now, ttl) then 0 else 1 + IdleCount(entries[1..], now, ttl)
  }

  /** How many entries at the front have to go before another one fits. */
  function ExcessCount(entries: seq<Entry>, maxTenants: nat): (k: nat)
    requires maxTenants >= 1
    ensures k <= |entries| && |entries| - k < maxTenants
  {
    if |entries| < maxTenants then 0 else |entries| - maxTenants + 1
  }

  /** The first k pools are taken out and disposed. */
  function Shed(r: Registry, k: nat): Registry
    requires k <= |r.entries|
  {
    r.(entries := r.entries[k..], disposed := r.disposed + Engines(r.entries[..k]))
  }

  predicate Tracked(r: Registry, tenant: TenantId) {
    exists i :: 0 <= i < |r.entries| && r.entries[i].tenant == tenant
  }

  function IndexOf(entries: seq<Entry>, tenant: TenantId): (i: nat)
    requires exists i :: 0 <= i < |entries| && entries[i].tenant == tenant
    ensures i < |entries| && entries[i].tenant == tenant
  {
    if entries[0].tenant == tenant then 0 else 1 + IndexOf(entries[1..], tenant)
  }

  /** move_to_end, with the time of use. */
  function Touch(r: Registry, i: nat, at: Time): Registry
    requires i < |r.entries|
  {
    r.(entries := r.entries[..i] + r.entries[i + 1..] + [r.entries[i].(lastUsed := at)])
  }

  function Open(r: Registry, pool: Pool, at: Time): Registry {
    r.(entries := r.entries + [Entry(pool.tenant, |r.created|, at)], created := r.created + [pool])
  }

  /** Taking one entry out and disposing it at once. */
  function Popped(r: Registry, i: nat): Registry
    requires i < |r.entries|
  {
    r.(entries := r.entries[..i] + r.entries[i + 1..], disposed := r.disposed + [r.entries[i].engine])
  }

  /** Taking one entry out for disposal later. */
  function Detach(r: Registry, i: nat): Registry
    requires i < |r.entries|
  {
    r.(entries := r.entries[..i] + r.entries[i + 1..], awaiting := r.awaiting + [r.entries[i].engine])
  }

  function DetachAll(r: Registry): Registry {
    r.(entries := [], awaiting := r.awaiting + Engines(r.entries))
  }

  function FinishAt(r: Registry, i: nat): Registry
    requires i < |r.awaiting|
  {
    r.(awaiting := r.awaiting[..i] + r.awaiting[i + 1..], disposed := r.disposed + [r.awaiting[i]])
  }

  /** The engine a lookup hands out, if opening a new one is needed and its URL can be built. */
  datatype Lookup = Lookup(registry: Registry, engine: Option<EngineId>)

  function LookedUp(r: Registry, limits: Limits, pool: Pool, now: Time, later: Time, urlOk: bool): Lookup
    requires limits.maxTenants >= 1
  {
    Handed(Shed(r, IdleCount(r.entries, now, limits.idleTtl)), limits, pool, later, urlOk)
  }

  /** A lookup once idle pools are gone: a warm pool, or room for a new one. */
  function Handed(r: Registry, limits: Limits, pool: Pool, later: Time, urlOk: bool): Lookup
    requires limits.maxTenants >= 1
  {
    if Tracked(r, pool.tenant) then
      var i := IndexOf(r.entries, pool.tenant);
      Lookup(Touch(r, i, later), Some(r.entries[i].engine))
    else Opened(Shed(r, ExcessCount(r.entries, limits.maxTenants)), pool, later, urlOk)
  }

  function Opened(r: Registry, pool: Pool, later: Time, urlOk: bool): Lookup {
    if urlOk then Lookup(Open(r, pool, later), Some(|r.created|)) else Lookup(r, None)
  }

  // ---------------------------------------------------------- invariants

  predicate Sorted(entries: seq<Entry>) {
    forall i, j | 0 <= i < j < |entries| :: entries[i].lastUsed <= entries[j].lastUsed
  }

  predicate OnePerTenant(entries: seq<Entry>) {
    forall i, j | 0 <= i < j < |entries| :: entries[i].tenant != entries[j].tenant
  }

  predicate NotAfter(entries: seq<Entry>, clock: Time) {
    forall i | 0 <= i < |entries| :: entries[i].lastUsed <= clock
  }

  /** A tenant's entry holds an engine created for that tenant. */
  predicate OwnEngines(r: Registry) {
    forall i | 0 <= i < |r.entries| ::
      r.entries[i].engine < |r.created| && r.created[r.entries[i].engine].tenant == r.entries[i].tenant
  }

  function Numbers(n: nat): (ids: seq<EngineId>)
    ensures |ids| == n && forall i | 0 <= i < n :: ids[i] == i
  {
    if n == 0 then [] else Numbers(n - 1) + [n - 1]
  }

  /** Every engine ever created is in the dictionary, awaiting disposal, or disposed; in one place,
      once. */
  predicate EachOnce(r: Registry) {
    multiset(Engines(r.entries)) + multiset(r.awaiting) + multiset(r.disposed) == multiset(Numbers(|r.created|))
  }

  ghost predicate Ordered(r: Registry, clock: Time) {
    Sorted(r.entries) && OnePerTenant(r.entries) && NotAfter(r.entries, clock)
  }

  ghost predicate Inv(r: Registry, limits: Limits, clock: Time) {
    && limits.maxTenants >= 1
    && |r.entries| <= limits.maxTenants
    && Ordered(r, clock)
    && OwnEngines(r)
    && EachOnce(r)
  }

  lemma ShedKeepsInv(r: Registry, k: nat, limits: Limits, clock: Time)
    requires Inv(r, limits, clock) && k <= |r.entries|
    ensures Inv(Shed(r, k), limits, clock)
  {
    var t := Shed(r, k);
    assert Engines(r.entries) == Engines(r.entries[..k]) + Engines(t.entries);
  }

  lemma EnginesWithout(entries: seq<Entry>, i: nat)
    requires i < |entries|
    ensures multiset(Engines(entries))
         == multiset(Engines(entries[..i] + entries[i + 1..])) + multiset{entries[i].engine}
  {
    assert Engines(entries) == Engines(entries[..i]) + [entries[i].engine] + Engines(entries[i + 1..]);
    assert Engines(entries[..i] + entries[i + 1..]) == Engines(entries[..i]) + Engines(entries[i + 1..]);
  }

  lemma TouchKeepsInv(r: Registry, i: nat, limits: Limits, clock: Time, at: Time)
    requires Inv(r, limits, clock) && i < |r.entries| && clock <= at
    ensures Inv(Touch(r, i, at), limits, at)
  {
    var rest, t := r.entries[..i] + r.entries[i + 1..], Touch(r, i, at);
    EnginesWithout(r.entries, i);
    assert Engines(t.entries) == Engines(rest) + [r.entries[i].engine];
  }

  lemma OpenKeepsOrder(r: Registry, pool: Pool, clock: Time, at: Time)
    requires Ordered(r, clock) && OwnEngines(r) && !Tracked(r, pool.tenant) && clock <= at
    ensures Ordered(Open(r, pool, at), at) && OwnEngines(Open(r, pool, at))
  {
    var t := Open(r, pool, at);
    assert forall i | 0 <= i < |r.entries| :: t.entries[i] == r.entries[i];
  }

  lemma OpenKeepsEachOnce(r: Registry, pool: Pool, at: Time)
    requires EachOnce(r)
    ensures EachOnce(Open(r, pool, at))
  {
    var t := Open(r, pool, at);
    assert Engines(t.entries) == Engines(r.entries) + [|r.created|];
    assert Numbers(|t.created|) == Numbers(|r.created|) + [|r.created|];
  }

  lemma OpenKeepsInv(r: Registry, pool: Pool, limits: Limits, clock: Time, at: Time)
    requires Inv(r, limits, clock) && !Tracked(r, pool.tenant) && |r.entries| < limits.maxTenants && clock <= at
    ensures Inv(Open(r, pool, at), limits, at)
  {
    OpenKeepsOrder(r, pool, clock, at);
    OpenKeepsEachOnce(r, pool, at);
  }

  lemma DetachKeepsInv(r: Registry, i: nat, limits: Limits, clock: Time)
    requires Inv(r, limits, clock) && i < |r.entries|
    ensures Inv(Detach(r, i), limits, clock)
  {
    EnginesWithout(r.entries, i);
  }

  lemma DetachAllKeepsInv(r: Registry, limits: Limits, clock: Time)
    requires Inv(r, limits, clock)
    ensures Inv(DetachAll(r), limits, clock)
  {
    assert Engines([]) == [];
  }

  lemma FinishKeepsInv(r: Registry, i: nat, limits: Limits, clock: Time)
    requires Inv(r, limits, clock) && i < |r.awaiting|
    ensures Inv(FinishAt(r, i), limits, clock)
  {
    assert r.awaiting == r.awaiting[..i] + [r.awaiting[i]] + r.awaiting[i + 1..];
  }

  lemma HandedKeepsInv(r: Registry, limits: Limits, clock: Time, pool: Pool, later: Time, urlOk: bool)
    requires Inv(r, limits, clock) && clock <= later
    ensures Inv(Handed(r, limits, pool, later, urlOk).registry, limits, later)
  {
    if Tracked(r, pool.tenant) {
      TouchKeepsInv(r, IndexOf(r.entries, pool.tenant), limits, clock, later);
    } else {
      var k := ExcessCount(r.entries, limits.maxTenants);
      ShedKeepsInv(r, k, limits, clock);
      if urlOk {
        OpenKeepsInv(Shed(r, k), pool, limits, clock, later);
      }
    }
  }

  lemma LookupKeepsInv(r: Registry, limits: Limits, clock: Time, pool: Pool, now: Time, later: Time, urlOk: bool)
    requires Inv(r, limits, clock) && clock <= now <= later
    ensures Inv(LookedUp(r, limits, pool, now, later, urlOk).registry, limits, later)
  {
    var k := IdleCount(r.entries, now, limits.idleTtl);
    ShedKeepsInv(r, k, limits, clock);
    HandedKeepsInv(Shed(r, k), limits, clock, pool, later, urlOk);
  }

  // ---------------------------------------------------------- what a lookup does

  /** The idle pools are a prefix of the dictionary, so the sweep removes all of them and only them:
      none older than the time to live is left at that reading. */
  lemma {:induction false} IdleIsPrefix(entries: seq<Entry>, now: Time, ttl: Time)
    requires Sorted(entries)
    ensures forall i | 0 <= i < |entries| :: Idle(entries[i], now, ttl) <==> i < IdleCount(entries, now, ttl)
  {
    var k := IdleCount(entries, now, ttl);
    forall i | k <= i < |entries| ensures !Idle(entries[i], now, ttl) {
      assert entries[k].lastUsed <= entries[i].lastUsed;
    }
  }

  /** Making room costs at most one pool, and that one was used no later than any that stays. */
  lemma CapacityTakesTheLeastRecentlyUsed(r: Registry, limits: Limits, clock: Time)
    requires Inv(r, limits, clock)
    ensures var k := ExcessCount(r.entries, limits.maxTenants);
            && k <= 1
            && (k == 1 <==> |r.entries| == limits.maxTenants)
            && forall i, j | 0 <= i < k <= j < |r.entries| :: r.entries[i].lastUsed <= r.entries[j].lastUsed
  {
  }

  /** A pool of this tenant is tracked and was opened with another password. */
  ghost predicate StaleWarm(r: Registry, pool: Pool) {
    exists i :: 0 <= i < |r.entries| && r.entries[i].tenant == pool.tenant
                && r.entries[i].engine < |r.created| && r.created[r.entries[i].engine].password != pool.password
  }

  /** The engine handed out belongs to the tenant; it is the one a freshly opened pool would be, or it
      is not. */
  predicate HandsOut(found: Lookup, pool: Pool, asFresh: bool) {
    && found.engine.Some? && found.engine.value < |found.registry.created|
    && var given := found.registry.created[found.engine.value];
       given.tenant == pool.tenant && (given == pool) == asFresh
  }

  lemma WarmPoolIsTheTenants(r: Registry, pool: Pool, later: Time)
    requires OwnEngines(r) && OnePerTenant(r.entries) && Tracked(r, pool.tenant)
    ensures var i := IndexOf(r.entries, pool.tenant);
            HandsOut(Lookup(Touch(r, i, later), Some(r.entries[i].engine)), pool, !StaleWarm(r, pool))
  {
    var i := IndexOf(r.entries, pool.tenant);
    assert r.created[r.entries[i].engine].tenant == pool.tenant;
    assert forall j | 0 <= j < |r.entries| && r.entries[j].tenant == pool.tenant :: j == i;
  }

  /** A lookup hands out an engine of the right tenant, whatever happens. The engine is the one a
      freshly opened pool would be, except exactly when a pool that is still warm was opened with
      another password. */
  lemma LookupIsFreshIff(r: Registry, limits: Limits, clock: Time, pool: Pool, now: Time, later: Time)
    requires Inv(r, limits, clock) && clock <= now <= later
    ensures var swept := Shed(r, IdleCount(r.entries, now, limits.idleTtl));
            HandsOut(LookedUp(r, limits, pool, now, later, true), pool, !StaleWarm(swept, pool))
  {
    var k := IdleCount(r.entries, now, limits.idleTtl);
    ShedKeepsInv(r, k, limits, clock);
    var swept := Shed(r, k);
    if Tracked(swept, pool.tenant) {
      WarmPoolIsTheTenants(swept, pool, later);
    }
  }

  // ---------------------------------------------------------- rotation

  /** The registry among credential rotations: `rotated` are the tenants whose password changed
      since their pool was last evicted. */
  datatype World = World(registry: Registry, current: map<TenantId, Password>, rotated: set<TenantId>, clock: Time)

  datatype Event =
    | Find(tenant: TenantId, now: Time, later: Time, urlOk: bool)
    | Rotate(tenant: TenantId)
    | Evict(tenant: TenantId)
    | Dispose(position: nat)
    | CloseAll

  function Current(w: World, tenant: TenantId): Password {
    if tenant in w.current then w.current[tenant] else 0
  }

  function Credential(w: World, tenant: TenantId): Pool {
    Pool(tenant, Current(w, tenant))
  }

  function Apply(w: World, limits: Limits, e: Event): World
    requires limits.maxTenants >= 1
  {
    match e
    case Find(tenant, now, later, urlOk) =>
      if w.clock <= now <= later then
        w.(registry := LookedUp(w.registry, limits, Credential(w, tenant), now, later, urlOk).registry, clock := later)
      else w
    case Rotate(tenant) =>
      w.(current := w.current[tenant := Current(w, tenant) + 1], rotated := w.rotated + {tenant})
    case Evict(tenant) =>
      w.(registry := if Tracked(w.registry, tenant) then Detach(w.registry, IndexOf(w.registry.entries, tenant))
                     else w.registry,
         rotated := w.rotated - {tenant})
    case Dispose(position) =>
      if position < |w.registry.awaiting| then w.(registry := FinishAt(w.registry, position)) else w
    case CloseAll => w.(registry := DetachAll(w.registry))
  }

  function Run(w: World, limits: Limits, es: seq<Event>): World
    requires limits.maxTenants >= 1
    decreases |es|
  {
    if es == [] then w else Run(Apply(w, limits, es[0]), limits, es[1..])
  }

  /** Pools of tenants that are not waiting for an eviction carry the current password. */
  ghost predicate Warm(w: World) {
    forall i | 0 <= i < |w.registry.entries| ::
      var e := w.registry.entries[i];
      && e.engine < |w.registry.created|
      && (e.tenant !in w.rotated ==> w.registry.created[e.engine].password == Current(w, e.tenant))
  }

  ghost predicate WorldInv(w: World, limits: Limits) {
    Inv(w.registry, limits, w.clock) && Warm(w)
  }

  lemma ShedKeepsWarm(w: World, k: nat)
    requires Warm(w) && k <= |w.registry.entries|
    ensures Warm(w.(registry := Shed(w.registry, k)))
  {
  }

  lemma FindKeepsWarm(w: World, limits: Limits, tenant: TenantId, now: Time, later: Time, urlOk: bool)
    requires WorldInv(w, limits) && w.clock <= now <= later
    ensures Warm(Apply(w, limits, Find(tenant, now, later, urlOk)))
  {
    var k := IdleCount(w.registry.entries, now, limits.idleTtl);
    ShedKeepsWarm(w, k);
    var swept := w.(registry := Shed(w.registry, k));
    if Tracked(swept.registry, tenant) {
      TouchKeepsWarm(swept, IndexOf(swept.registry.entries, tenant), later);
    } else {
      var excess := ExcessCount(swept.registry.entries, limits.maxTenants);
      ShedKeepsWarm(swept, excess);
      if urlOk {
        OpenKeepsWarm(swept.(registry := Shed(swept.registry, excess)), tenant, later);
      }
    }
  }

  lemma TouchKeepsWarm(w: World, i: nat, at: Time)
    requires Warm(w) && i < |w.registry.entries|
    ensures Warm(w.(registry := Touch(w.registry, i, at), clock := at))
  {
  }

  lemma OpenKeepsWarm(w: World, tenant: TenantId, at: Time)
    requires Warm(w)
    ensures Warm(w.(registry := Open(w.registry, Credential(w, tenant), at), clock := at))
  {
  }

  lemma DetachKeepsWarm(w: World, limits: Limits, i: nat)
    requires WorldInv(w, limits) && i < |w.registry.entries|
    ensures Warm(w.(registry := Detach(w.registry, i), rotated := w.rotated - {w.registry.entries[i].tenant}))
  {
    var tenant := w.registry.entries[i].tenant;
    assert forall j | 0 <= j < |w.registry.entries| && j != i :: w.registry.entries[j].tenant != tenant;
  }

  lemma EvictKeepsInv(w: World, limits: Limits, tenant: TenantId)
    requires WorldInv(w, limits)
    ensures WorldInv(Apply(w, limits, Evict(tenant)), limits)
  {
    if Tracked(w.registry, tenant) {
      var i := IndexOf(w.registry.entries, tenant);
      DetachKeepsInv(w.registry, i, limits, w.clock);
      DetachKeepsWarm(w, limits, i);
    }
  }

  lemma FindKeepsInv(w: World, limits: Limits, e: Event)
    requires WorldInv(w, limits) && e.Find?
    ensures WorldInv(Apply(w, limits, e), limits)
  {
    if w.clock <= e.now <= e.later {
      LookupKeepsInv(w.registry, limits, w.clock, Credential(w, e.tenant), e.now, e.later, e.urlOk);
      FindKeepsWarm(w, limits, e.tenant, e.now, e.later, e.urlOk);
    }
  }

  lemma DisposalKeepsInv(w: World, limits: Limits, e: Event)
    requires WorldInv(w, limits) && (e.Rotate? || e.Dispose? || e.CloseAll?)
    ensures WorldInv(Apply(w, limits, e), limits)
  {
    if e.Dispose? && e.position < |w.registry.awaiting| {
      FinishKeepsInv(w.registry, e.position, limits, w.clock);
    } else if e.CloseAll? {
      DetachAllKeepsInv(w.registry, limits, w.clock);
    }
  }

  lemma ApplyKeepsInv(w: World, limits: Limits, e: Event)
    requires WorldInv(w, limits)
    ensures WorldInv(Apply(w, limits, e), limits)
  {
    match e
    case Find(_, _, _, _) => FindKeepsInv(w, limits, e);
    case Evict(tenant) => EvictKeepsInv(w, limits, tenant);
    case _ => DisposalKeepsInv(w, limits, e);
  }

  const START: World := World(Registry([], [], [], []), map[], {}, 0)

  lemma {:induction false} RunKeepsInv(w: World, limits: Limits, es: seq<Event>)
    requires WorldInv(w, limits)
    ensures WorldInv(Run(w, limits, es), limits)
    decreases |es|
  {
    if es != [] {
      ApplyKeepsInv(w, limits, es[0]);
      RunKeepsInv(Apply(w, limits, es[0]), limits, es[1..]);
    }
  }

  lemma StartIsOk(limits: Limits)
    requires limits.maxTenants >= 1
    ensures WorldInv(START, limits)
  {
    assert Engines([]) == [] && Numbers(0) == [];
  }

  /** After any history the registry is bounded, ordered by last use, holds one pool a tenant, and
      has lost track of no engine: each ever opened is held by its own tenant, awaits disposal, or
      has been disposed, exactly once. */
  lemma RegistryStaysSound(limits: Limits, es: seq<Event>)
    requires limits.maxTenants >= 1
    ensures var r := Run(START, limits, es).registry;
            && |r.entries| <= limits.maxTenants && Sorted(r.entries) && OnePerTenant(r.entries)
            && OwnEngines(r)
            && forall e: EngineId | e < |r.created| ::
                 multiset(Engines(r.entries))[e] + multiset(r.awaiting)[e] + multiset(r.disposed)[e] == 1
  {
    StartIsOk(limits);
    RunKeepsInv(START, limits, es);
    var r := Run(START, limits, es).registry;
    forall e: EngineId | e < |r.created|
      ensures multiset(Engines(r.entries))[e] + multiset(r.awaiting)[e] + multiset(r.disposed)[e] == 1
    {
      NumbersOnce(|r.created|, e);
      var all := multiset(Engines(r.entries)) + multiset(r.awaiting) + multiset(r.disposed);
      assert all[e] == multiset(Numbers(|r.created|))[e];
    }
  }

  lemma NumbersOnce(n: nat, e: EngineId)
    requires e < n
    ensures multiset(Numbers(n))[e] == 1
  {
    var ids := Numbers(n);
    assert ids == ids[..e] + [ids[e]] + ids[e + 1..];
    assert e !in ids[..e] && e !in ids[e + 1..];
  }

  /** When every rotation is followed by an eviction before the tenant is looked up again, a lookup
      is as good as a fresh connection: the engine carries the password of that moment. */
  lemma EvictedRotationsStayInvisible(limits: Limits, es: seq<Event>, tenant: TenantId, now: Time, later: Time)
    requires limits.maxTenants >= 1
    requires var w := Run(START, limits, es); tenant !in w.rotated && w.clock <= now <= later
    ensures var w := Run(START, limits, es);
            var found := LookedUp(w.registry, limits, Credential(w, tenant), now, later, true);
            && found.engine.Some? && found.engine.value < |found.registry.created|
            && found.registry.created[found.engine.value] == Credential(w, tenant)
  {
    StartIsOk(limits);
    RunKeepsInv(START, limits, es);
    var w := Run(START, limits, es);
    LookupIsFreshIff(w.registry, limits, w.clock, Credential(w, tenant), now, later);
  }

  // ---------------------------------------------------------- last use

  /** This event is a lookup of the tenant that hands out an engine. */
  predicate Serves(w: World, limits: Limits, e: Event, tenant: TenantId)
    requires limits.maxTenants >= 1
  {
    && e.Find? && e.tenant == tenant && w.clock <= e.now <= e.later
    && LookedUp(w.registry, limits, Credential(w, tenant), e.now, e.later, e.urlOk).engine.Some?
  }

  /** When the tenant was last handed an engine in this history. */
  function LastUse(limits: Limits, es: seq<Event>, tenant: TenantId): Option<Time>
    requires limits.maxTenants >= 1
    decreases |es|
  {
    if es == [] then None
    else
      var n := |es| - 1;
      if Serves(Run(START, limits, es[..n]), limits, es[n], tenant) then Some(es[n].later)
      else LastUse(limits, es[..n], tenant)
  }

  lemma {:induction false} RunSnoc(w: World, limits: Limits, es: seq<Event>)
    requires limits.maxTenants >= 1 && es != []
    ensures Run(w, limits, es) == Apply(Run(w, limits, es[..|es| - 1]), limits, es[|es| - 1])
    decreases |es|
  {
    if |es| > 1 {
      RunSnoc(Apply(w, limits, es[0]), limits, es[1..]);
      assert es[1..][..|es| - 2] == es[..|es| - 1][1..];
    }
  }

  /** Entries never change but for the one a lookup hands out, which gets its time. */
  predicate UsedWhenServed(before: Registry, found: Lookup, tenant: TenantId, later: Time) {
    forall e | e in found.registry.entries ::
      if found.engine.Some? && e.tenant == tenant then e.lastUsed == later else e in before.entries
  }

  /** The entry handed out is at the end, under this tenant and with this time. */
  predicate LastServed(found: Lookup, tenant: TenantId, later: Time) {
    found.engine.Some? ==>
      && found.registry.entries != []
      && found.registry.entries[|found.registry.entries| - 1] == Entry(tenant, found.engine.value, later)
  }

  lemma HandedUse(r: Registry, limits: Limits, pool: Pool, later: Time, urlOk: bool)
    requires limits.maxTenants >= 1 && OnePerTenant(r.entries)
    ensures var found := Handed(r, limits, pool, later, urlOk);
            UsedWhenServed(r, found, pool.tenant, later) && LastServed(found, pool.tenant, later)
  {
    var found := Handed(r, limits, pool, later, urlOk);
    forall e | e in found.registry.entries
      ensures if found.engine.Some? && e.tenant == pool.tenant then e.lastUsed == later else e in r.entries
    {
      if Tracked(r, pool.tenant) {
        var i := IndexOf(r.entries, pool.tenant);
        assert e == r.entries[i].(lastUsed := later) || e in r.entries[..i] || e in r.entries[i + 1..];
      }
    }
  }

  lemma LookupUse(r: Registry, limits: Limits, clock: Time, pool: Pool, now: Time, later: Time, urlOk: bool)
    requires Inv(r, limits, clock)
    ensures var found := LookedUp(r, limits, pool, now, later, urlOk);
            UsedWhenServed(r, found, pool.tenant, later) && LastServed(found, pool.tenant, later)
  {
    var swept := Shed(r, IdleCount(r.entries, now, limits.idleTtl));
    assert forall e | e in swept.entries :: e in r.entries;
    HandedUse(swept, limits, pool, later, urlOk);
  }

  lemma OthersOnlyLose(w: World, limits: Limits, e: Event)
    requires limits.maxTenants >= 1 && !e.Find?
    ensures forall x | x in Apply(w, limits, e).registry.entries :: x in w.registry.entries
  {
  }

  /** After every history the time on a tracked pool is when its tenant was last handed an engine. */
  lemma {:induction false} LastUsedIsLastUse(limits: Limits, es: seq<Event>)
    requires limits.maxTenants >= 1
    ensures forall e | e in Run(START, limits, es).registry.entries :: LastUse(limits, es, e.tenant) == Some(e.lastUsed)
    decreases |es|
  {
    if es != [] {
      var n := |es| - 1;
      var w := Run(START, limits, es[..n]);
      LastUsedIsLastUse(limits, es[..n]);
      RunSnoc(START, limits, es);
      StartIsOk(limits);
      RunKeepsInv(START, limits, es[..n]);
      LastUseStep(w, limits, es, es[n]);
    }
  }

  lemma LastUseStep(w: World, limits: Limits, es: seq<Event>, e: Event)
    requires limits.maxTenants >= 1 && es != [] && e == es[|es| - 1] && w == Run(START, limits, es[..|es| - 1])
    requires WorldInv(w, limits)
    requires forall x | x in w.registry.entries :: LastUse(limits, es[..|es| - 1], x.tenant) == Some(x.lastUsed)
    ensures forall x | x in Apply(w, limits, e).registry.entries :: LastUse(limits, es, x.tenant) == Some(x.lastUsed)
  {
    if e.Find? && w.clock <= e.now <= e.later {
      LookupUse(w.registry, limits, w.clock, Credential(w, e.tenant), e.now, e.later, e.urlOk);
    } else if !e.Find? {
      OthersOnlyLose(w, limits, e);
    }
  }

  /** A lookup that hands out an engine leaves the tenant's entry at the end, where the pools that go
      last are. */
  lemma LookupComesLast(limits: Limits, es: seq<Event>, pool: Pool, now: Time, later: Time, urlOk: bool)
    requires limits.maxTenants >= 1
    requires var w := Run(START, limits, es); w.clock <= now <= later
    ensures LastServed(LookedUp(Run(START, limits, es).registry, limits, pool, now, later, urlOk), pool.tenant, later)
  {
    StartIsOk(limits);
    RunKeepsInv(START, limits, es);
    var w := Run(START, limits, es);
    LookupUse(w.registry, limits, w.clock, pool, now, later, urlOk);
  }

  function TenantsOf(entries: seq<Entry>): set<TenantId> {
    set i | 0 <= i < |entries| :: entries[i].tenant
  }

  /** The tracked tenants whose last use is not too long ago. */
  ghost function WarmTenants(limits: Limits, es: seq<Event>, now: Time): set<TenantId>
    requires limits.maxTenants >= 1
  {
    set t | t in TenantsOf(Run(START, limits, es).registry.entries)
            && LastUse(limits, es, t).Some? && now - LastUse(limits, es, t).value <= limits.idleTtl
  }

  lemma {:induction false} OneTenantEach(entries: seq<Entry>)
    requires OnePerTenant(entries)
    ensures |TenantsOf(entries)| == |entries|
    decreases |entries|
  {
    if entries != [] {
      var n := |entries| - 1;
      OneTenantEach(entries[..n]);
      assert TenantsOf(entries) == TenantsOf(entries[..n]) + {entries[n].tenant};
      assert entries[n].tenant !in TenantsOf(entries[..n]);
    }
  }

  /** The tenants of what the sweep leaves. */
  lemma WarmSuffix(entries: seq<Entry>, now: Time, ttl: Time)
    requires Sorted(entries)
    ensures TenantsOf(entries[IdleCount(entries, now, ttl)..])
         == set i | 0 <= i < |entries| && now - entries[i].lastUsed <= ttl :: entries[i].tenant
  {
    var k := IdleCount(entries, now, ttl);
    IdleIsPrefix(entries, now, ttl);
    forall i | 0 <= i < |entries| ensures now - entries[i].lastUsed <= ttl <==> k <= i {}
    forall t | t in TenantsOf(entries[k..])
      ensures exists i :: 0 <= i < |entries| && now - entries[i].lastUsed <= ttl && entries[i].tenant == t
    {
      var i :| 0 <= i < |entries[k..]| && entries[k..][i].tenant == t;
      assert entries[k + i].tenant == t;
    }
    forall i | 0 <= i < |entries| && now - entries[i].lastUsed <= ttl
      ensures entries[i].tenant in TenantsOf(entries[k..])
    {
      assert entries[k..][i - k] == entries[i];
    }
  }

  lemma WarmByUse(limits: Limits, es: seq<Event>, now: Time)
    requires limits.maxTenants >= 1
    ensures var entries := Run(START, limits, es).registry.entries;
            (set i | 0 <= i < |entries| && now - entries[i].lastUsed <= limits.idleTtl :: entries[i].tenant)
            == WarmTenants(limits, es, now)
  {
    LastUsedIsLastUse(limits, es);
    var entries := Run(START, limits, es).registry.entries;
    forall i | 0 <= i < |entries| ensures LastUse(limits, es, entries[i].tenant) == Some(entries[i].lastUsed) {
      assert entries[i] in entries;
    }
  }

  lemma TrackedIff(r: Registry, tenant: TenantId)
    ensures Tracked(r, tenant) <==> tenant in TenantsOf(r.entries)
  {
  }

  lemma TouchKeepsTenants(r: Registry, i: nat, at: Time)
    requires i < |r.entries|
    ensures TenantsOf(Touch(r, i, at).entries) == TenantsOf(r.entries)
  {
    var moved := Touch(r, i, at).entries;
    forall j | 0 <= j < |r.entries| ensures r.entries[j].tenant in TenantsOf(moved) {
      assert moved[if j < i then j else if j == i then |moved| - 1 else j - 1].tenant == r.entries[j].tenant;
    }
    forall j | 0 <= j < |moved| ensures moved[j].tenant in TenantsOf(r.entries) {
      assert moved[j].tenant == r.entries[if j < i then j else if j == |moved| - 1 then i else j + 1].tenant;
    }
  }

  lemma OpenAddsTenant(r: Registry, pool: Pool, at: Time)
    ensures TenantsOf(Open(r, pool, at).entries) == TenantsOf(r.entries) + {pool.tenant}
  {
    var more := Open(r, pool, at).entries;
    forall j | 0 <= j < |r.entries| ensures r.entries[j].tenant in TenantsOf(more) {
      assert more[j] == r.entries[j];
    }
    assert more[|r.entries|].tenant == pool.tenant;
  }

  lemma FirstLeaves(entries: seq<Entry>)
    requires OnePerTenant(entries) && entries != []
    ensures TenantsOf(entries[1..]) == TenantsOf(entries) - {entries[0].tenant}
  {
    forall j | 1 <= j < |entries| ensures entries[j].tenant in TenantsOf(entries[1..]) {
      assert entries[1..][j - 1] == entries[j];
    }
  }

  /** What a lookup does to the tenants of a registry that was swept. */
  lemma HandedTenants(r: Registry, limits: Limits, pool: Pool, later: Time, urlOk: bool)
    requires limits.maxTenants >= 1 && OnePerTenant(r.entries) && |r.entries| <= limits.maxTenants
    ensures var before := TenantsOf(r.entries); var found := Handed(r, limits, pool, later, urlOk);
            var after, added := TenantsOf(found.registry.entries), if urlOk then {pool.tenant} else {};
            && found.registry.awaiting == r.awaiting
            && (found.engine.Some? <==> urlOk || pool.tenant in before)
            && (pool.tenant in before ==> after == before)
            && (pool.tenant !in before && |before| < limits.maxTenants ==> after == before + added)
            && (pool.tenant !in before && |before| >= limits.maxTenants ==>
                  r.entries != [] && after == before - {r.entries[0].tenant} + added)
  {
    TrackedIff(r, pool.tenant);
    OneTenantEach(r.entries);
    if Tracked(r, pool.tenant) {
      TouchKeepsTenants(r, IndexOf(r.entries, pool.tenant), later);
    } else {
      var k := ExcessCount(r.entries, limits.maxTenants);
      if k == 1 {
        FirstLeaves(r.entries);
      }
      OpenAddsTenant(Shed(r, k), pool, later);
    }
  }

  /** Only a tenant without a warm pool opens one, under its own credential. */
  lemma WarmTenantsOpenNothing(limits: Limits, es: seq<Event>, tenant: TenantId, now: Time, later: Time, urlOk: bool)
    requires limits.maxTenants >= 1 && Run(START, limits, es).clock <= now <= later
    ensures var w := Run(START, limits, es); var u := Apply(w, limits, Find(tenant, now, later, urlOk));
            u.registry.created == if tenant !in WarmTenants(limits, es, now) && urlOk
                                  then w.registry.created + [Credential(w, tenant)] else w.registry.created
  {
    SweptRegistry(limits, es, now);
    TrackedIff(Swept(limits, es, now), tenant);
  }

  ghost predicate ServedLongestAgo(limits: Limits, es: seq<Event>, tenants: set<TenantId>, oldest: TenantId)
    requires limits.maxTenants >= 1
  {
    && oldest in tenants && LastUse(limits, es, oldest).Some?
    && forall t | t in tenants ::
         LastUse(limits, es, t).Some? && LastUse(limits, es, oldest).value <= LastUse(limits, es, t).value
  }

  lemma FrontWasServedLongestAgo(limits: Limits, es: seq<Event>, k: nat, tenants: set<TenantId>)
    requires limits.maxTenants >= 1 && Sorted(Run(START, limits, es).registry.entries)
    requires k < |Run(START, limits, es).registry.entries|
    requires tenants == TenantsOf(Run(START, limits, es).registry.entries[k..])
    ensures ServedLongestAgo(limits, es, tenants, Run(START, limits, es).registry.entries[k].tenant)
  {
    LastUsedIsLastUse(limits, es);
    var entries := Run(START, limits, es).registry.entries;
    assert entries[k] in entries && entries[k..][0] == entries[k];
    forall t | t in tenants
      ensures LastUse(limits, es, t).Some? && entries[k].lastUsed <= LastUse(limits, es, t).value
    {
      var i :| 0 <= i < |entries[k..]| && entries[k..][i].tenant == t;
      assert entries[k + i] in entries && entries[k + i].tenant == t;
    }
  }

  /** The registry after the sweep of a lookup. */
  function Swept(limits: Limits, es: seq<Event>, now: Time): Registry
    requires limits.maxTenants >= 1
  {
    var r := Run(START, limits, es).registry;
    Shed(r, IdleCount(r.entries, now, limits.idleTtl))
  }

  lemma SweptRegistry(limits: Limits, es: seq<Event>, now: Time)
    requires limits.maxTenants >= 1
    ensures var r, warm := Swept(limits, es, now), WarmTenants(limits, es, now);
            && TenantsOf(r.entries) == warm && OnePerTenant(r.entries) && |r.entries| <= limits.maxTenants
            && r.awaiting == Run(START, limits, es).registry.awaiting
            && r.created == Run(START, limits, es).registry.created
            && (r.entries != [] ==> ServedLongestAgo(limits, es, warm, r.entries[0].tenant))
  {
    StartIsOk(limits);
    RunKeepsInv(START, limits, es);
    var entries := Run(START, limits, es).registry.entries;
    WarmSuffix(entries, now, limits.idleTtl);
    WarmByUse(limits, es, now);
    var k := IdleCount(entries, now, limits.idleTtl);
    if k < |entries| {
      FrontWasServedLongestAgo(limits, es, k, TenantsOf(entries[k..]));
    }
  }

  lemma LookupIsHanded(limits: Limits, es: seq<Event>, tenant: TenantId, now: Time, later: Time, urlOk: bool)
    requires limits.maxTenants >= 1 && Run(START, limits, es).clock <= now <= later
    ensures var w := Run(START, limits, es);
            var found := Handed(Swept(limits, es, now), limits, Credential(w, tenant), later, urlOk);
            && Apply(w, limits, Find(tenant, now, later, urlOk)).registry == found.registry
            && (Serves(w, limits, Find(tenant, now, later, urlOk), tenant) <==> found.engine.Some?)
  {
  }

  /** What a lookup costs, after every history. Tenants last served longer ago than the time to live
      lose their pools. A tenant that is still warm costs no other one its pool. Any other tenant is
      added, if its URL can be built, and when the registry is full the tenant served longest ago goes
      first. A pool that goes is disposed at once. */
  lemma LookupCosts(limits: Limits, es: seq<Event>, tenant: TenantId, now: Time, later: Time, urlOk: bool)
    returns (oldest: TenantId)
    requires limits.maxTenants >= 1 && Run(START, limits, es).clock <= now <= later
    ensures var w := Run(START, limits, es); var u := Apply(w, limits, Find(tenant, now, later, urlOk));
            var warm, after := WarmTenants(limits, es, now), TenantsOf(u.registry.entries);
            var added := if urlOk then {tenant} else {};
            && u.registry.awaiting == w.registry.awaiting
            && (Serves(w, limits, Find(tenant, now, later, urlOk), tenant) <==> urlOk || tenant in warm)
            && (tenant in warm ==> after == warm)
            && (tenant !in warm && |warm| < limits.maxTenants ==> after == warm + added)
            && (tenant !in warm && |warm| >= limits.maxTenants ==>
                  ServedLongestAgo(limits, es, warm, oldest) && after == warm - {oldest} + added)
  {
    var pool, swept := Credential(Run(START, limits, es), tenant), Swept(limits, es, now);
    LookupIsHanded(limits, es, tenant, now, later, urlOk);
    SweptRegistry(limits, es, now);
    HandedTenants(swept, limits, pool, later, urlOk);
    oldest := if swept.entries != [] then swept.entries[0].tenant else tenant;
  }

  lemma WarmPoolBecomesStale(limits: Limits, es: seq<Event>, tenant: TenantId, now: Time)
    requires limits.maxTenants >= 1 && tenant in WarmTenants(limits, es, now)
    requires tenant !in Run(START, limits, es).rotated
    ensures StaleWarm(Swept(limits, es, now), Credential(Apply(Run(START, limits, es), limits, Rotate(tenant)), tenant))
  {
    StartIsOk(limits);
    RunKeepsInv(START, limits, es);
    SweptRegistry(limits, es, now);
    var w, r := Run(START, limits, es), Swept(limits, es, now);
    var i :| 0 <= i < |r.entries| && r.entries[i].tenant == tenant;
    ShedKeepsWarm(w, IdleCount(w.registry.entries, now, limits.idleTtl));
    assert r.created[r.entries[i].engine].password == Current(w, tenant);
  }

  /** Without the eviction a rotation shows: a tenant whose pool is still warm is handed an engine with
      the password of before. */
  lemma UnevictedRotationShows(limits: Limits, es: seq<Event>, tenant: TenantId, now: Time, later: Time)
    requires limits.maxTenants >= 1
    requires var w := Run(START, limits, es);
             tenant !in w.rotated && w.clock <= now <= later && tenant in WarmTenants(limits, es, now)
    ensures var w := Apply(Run(START, limits, es), limits, Rotate(tenant));
            var pool := Credential(w, tenant);
            HandsOut(LookedUp(w.registry, limits, pool, now, later, true), pool, false)
  {
    StartIsOk(limits);
    RunKeepsInv(START, limits, es);
    WarmPoolBecomesStale(limits, es, tenant, now);
    var w := Run(START, limits, es);
    var rotated := Apply(w, limits, Rotate(tenant));
    LookupIsFreshIff(w.registry, limits, w.clock, Credential(rotated, tenant), now, later);
  }

  /** A pool that left the dictionary is disposed later, and only once. */
  lemma DisposalFinishes(w: World, limits: Limits, position: nat)
    requires limits.maxTenants >= 1 && position < |w.registry.awaiting|
    ensures var r, t := w.registry, Apply(w, limits, Dispose(position)).registry;
            && t.disposed == r.disposed + [r.awaiting[position]]
            && t.awaiting == r.awaiting[..position] + r.awaiting[position + 1..] && t.entries == r.entries
  {
  }

  // ---------------------------------------------------------- the registry

  class TenantPoolRegistry {
    const limits: Limits
    var entries: seq<Entry>
    var created: seq<Pool>
    var awaiting: seq<EngineId>
    var disposed: seq<EngineId>

    ghost function View(): Registry
      reads this
    {
      Registry(entries, created, awaiting, disposed)
    }

    constructor (limits: Limits)
      ensures this.limits == limits && View() == Registry([], [], [], [])
    {
      this.limits := limits;
      entries, created, awaiting, disposed := [], [], [], [];
    }

    /** The session factory of a tenant's pool, which is opened if need be; None when its URL
        cannot be built, after room was made for it. */
    method SessionsFor(pool: Pool, now: Time, later: Time, urlOk: bool, ghost clock: Time)
      returns (engine: Option<EngineId>)
      requires Inv(View(), limits, clock) && clock <= now <= later
      modifies this
      ensures Lookup(View(), engine) == LookedUp(old(View()), limits, pool, now, later, urlOk)
      ensures engine.Some? ==> entries != [] && entries[|entries| - 1] == Entry(pool.tenant, engine.value, later)
    {
      LookupUse(View(), limits, clock, pool, now, later, urlOk);
      EvictIdle(now);
      engine := HandOut(pool, later, urlOk);
    }

    /** The rest of a lookup, under the same lock. */
    method HandOut(pool: Pool, later: Time, urlOk: bool) returns (engine: Option<EngineId>)
      requires limits.maxTenants >= 1
      modifies this
      ensures Lookup(View(), engine) == Handed(old(View()), limits, pool, later, urlOk)
    {
      if Tracked(Registry(entries, created, awaiting, disposed), pool.tenant) {
        var i := IndexOf(entries, pool.tenant);
        var entry := entries[i].(lastUsed := later);
        entries := entries[..i] + entries[i + 1..] + [entry];
        return Some(entry.engine);
      }
      MakeRoom();
      if !urlOk {
        return None;
      }
      var number := |created|;
      created := created + [pool];
      entries := entries + [Entry(pool.tenant, number, later)];
      return Some(number);
    }

    method MakeRoom()
      requires limits.maxTenants >= 1
      modifies this
      ensures View() == Shed(old(View()), ExcessCount(old(entries), limits.maxTenants))
      ensures |entries| == (if |old(entries)| < limits.maxTenants then |old(entries)| else limits.maxTenants - 1)
      ensures entries == old(entries)[|old(entries)| - |entries|..]
      ensures disposed == old(disposed) + Engines(old(entries)[..|old(entries)| - |entries|])
    {
      ghost var k := 0;
      while |entries| >= limits.maxTenants
        invariant k <= |old(entries)| && (k > 0 ==> |old(entries)| - k + 1 >= limits.maxTenants)
        invariant View() == Shed(old(View()), k)
        decreases |entries|
      {
        ShedOneMore(old(View()), k);
        disposed := disposed + [entries[0].engine];
        entries := entries[1..];
        k := k + 1;
      }
    }

    /** The tenants whose pools are idle: by the order of last use, those of a prefix. */
    method StaleTenants(now: Time) returns (stale: seq<TenantId>)
      requires Sorted(entries)
      ensures |stale| == IdleCount(entries, now, limits.idleTtl)
      ensures forall j | 0 <= j < |stale| :: stale[j] == entries[j].tenant
    {
      ghost var k := IdleCount(entries, now, limits.idleTtl);
      IdleIsPrefix(entries, now, limits.idleTtl);
      stale := [];
      for i := 0 to |entries|
        invariant |stale| == (if i < k then i else k)
        invariant forall j | 0 <= j < |stale| :: stale[j] == entries[j].tenant
      {
        if Idle(entries[i], now, limits.idleTtl) {
          stale := stale + [entries[i].tenant];
        }
      }
    }

    /** Takes one tenant's pool out and disposes it, under the lock. */
    method PopAndDispose(tenant: TenantId)
      requires Tracked(View(), tenant)
      modifies this
      ensures View() == Popped(old(View()), IndexOf(old(entries), tenant))
    {
      var i := IndexOf(entries, tenant);
      disposed := disposed + [entries[i].engine];
      entries := entries[..i] + entries[i + 1..];
    }

    method EvictIdle(now: Time)
      requires Sorted(entries) && OnePerTenant(entries)
      modifies this
      ensures View() == Shed(old(View()), IdleCount(old(entries), now, limits.idleTtl))
      ensures forall e :: e in entries <==> e in old(entries) && now - e.lastUsed <= limits.idleTtl
    {
      IdleIsPrefix(entries, now, limits.idleTtl);
      var stale := StaleTenants(now);
      ghost var before := View();
      for j := 0 to |stale|
        invariant View() == Shed(before, j)
      {
        PopFirst(before, j);
        PopAndDispose(stale[j]);
      }
    }

    /** Drops one tenant's pool: it leaves the dictionary under the lock and is disposed after. */
    method Evict(tenant: TenantId)
      modifies this
      ensures View() == if !Tracked(old(View()), tenant) then old(View())
                        else FinishAt(Detach(old(View()), IndexOf(old(entries), tenant)), |old(awaiting)|)
      ensures forall i | 0 <= i < |old(entries)| && old(entries)[i].tenant == tenant && OnePerTenant(old(entries)) ::
                && entries == old(entries)[..i] + old(entries)[i + 1..]
                && disposed == old(disposed) + [old(entries)[i].engine] && awaiting == old(awaiting)
    {
      if Tracked(Registry(entries, created, awaiting, disposed), tenant) {
        var i := IndexOf(entries, tenant);
        var engine := entries[i].engine;
        entries := entries[..i] + entries[i + 1..];
        ghost var waiting := awaiting + [engine];
        assert waiting[..|awaiting|] + waiting[|awaiting| + 1..] == awaiting;
        disposed := disposed + [engine];
      }
    }

    /** Shutdown: the dictionary is emptied first, then every pool that was in it is disposed. */
    method Close()
      modifies this
      ensures View() == Registry([], old(created), old(awaiting), old(disposed) + Engines(old(entries)))
    {
      var closing := entries;
      entries := [];
      for i := 0 to |closing|
        invariant entries == [] && created == old(created) && awaiting == old(awaiting)
        invariant disposed == old(disposed) + Engines(closing[..i])
      {
        assert Engines(closing[..i + 1]) == Engines(closing[..i]) + [closing[i].engine];
        disposed := disposed + [closing[i].engine];
      }
      assert closing[..|closing|] == closing;
    }
  }

  lemma PopFirst(r: Registry, k: nat)
    requires k < |r.entries|
    ensures var t, tenant := Shed(r, k), r.entries[k].tenant;
            && Tracked(t, tenant) && IndexOf(t.entries, tenant) == 0
            && Popped(t, 0) == Shed(r, k + 1)
  {
    ShedOneMore(r, k);
    var t := Shed(r, k);
    assert t.entries[..0] + t.entries[1..] == t.entries[1..];
  }

  lemma ShedOneMore(r: Registry, k: nat)
    requires k < |r.entries|
    ensures var t := Shed(r, k);
            && t.entries != [] && t.entries[0] == r.entries[k]
            && Shed(r, k + 1) == t.(entries := t.entries[1..], disposed := t.disposed + [t.entries[0].engine])
  {
    assert Engines(r.entries[..k + 1]) == Engines(r.entries[..k]) + [r.entries[k].engine];
  }
}
