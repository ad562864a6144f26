/** Three-scope budget: every take is charged to the deployment, the tenant and the
    audience together or to none, and full scoped buckets are evicted when the table is
    full.  Keys stand for the keyed digests of the scope, which are taken as injective. */
module ScopedBudget {
  import opened Common
  import opened TokenBudget

  datatype Policy = Policy(requests: nat, bits: nat, burst: nat)

  /** `capacity` is the table size; `None` is the reference without a table limit. */
  datatype Config = Config(deployment: Policy, tenant: Policy, audience: Policy, capacity: Option<nat>)

  datatype Key = TenantKey(tenant: string) | AudienceKey(tenant: string, audience: string)

  datatype Demand = OneRequest | Bytes(amount: int)

  datatype Take = Take(tenant: string, audience: string, demand: Demand, clock: Option<real>) {
    function Keys(): set<Key> {
      {TenantKey(tenant), AudienceKey(tenant, audience)}
    }
  }

  datatype Scoped = Scoped(
    config: Config, now: real, last: Option<real>, closed: bool,
    global: Bucket, buckets: map<Key, Bucket>)

  function AtLeastOne(n: nat): real {
    if n < 1 then 1.0 else n as real
  }

  /** A zero limit still has a positive underlying rate; zero is refused before any debit. */
  function RatesOf(p: Policy): Rates {
    Rates(AtLeastOne(p.requests), AtLeastOne(p.bits) / 8.0, AtLeastOne(p.burst))
  }

  function PolicyFor(c: Config, k: Key): Policy {
    if k.TenantKey? then c.tenant else c.audience
  }

  function InitialScoped(c: Config): Scoped {
    Scoped(c, 0.0, None, false, FreshBucket(RatesOf(c.deployment)), map[])
  }

  predicate Denies(p: Policy, d: Demand) {
    match d
    case OneRequest => p.requests == 0
    case Bytes(n) => n > 0 && (p.bits == 0 || p.burst == 0)
  }

  predicate Enough(level: Level, d: Demand) {
    match d
    case OneRequest => level.requests >= 1.0
    case Bytes(n) => n as real <= level.bytes
  }

  function Charge(b: Bucket, d: Demand): Bucket {
    match d
    case OneRequest => b.(requests := b.requests - 1.0)
    case Bytes(n) => b.(bytes := b.bytes - n as real)
  }

  predicate Ticks(s: Scoped, clock: Option<real>) {
    !s.closed && clock.Some? && 0.0 <= clock.value <= MAX_SAFE as real
    && (s.last.Some? ==> clock.value >= s.last.value)
  }

  predicate IsFull(b: Bucket, now: real) {
    LevelAt(b, now) == FullLevel(b.rates)
  }

  /** The sweep refills every bucket it looks at and drops those that are full. */
  function Swept(buckets: map<Key, Bucket>, keep: set<Key>, now: real): map<Key, Bucket> {
    map k | k in buckets && (k in keep || !IsFull(buckets[k], now)) ::
      if k in keep then buckets[k] else Refill(buckets[k], Some(now))
  }

  predicate Fits(c: Config, buckets: map<Key, Bucket>, keys: set<Key>) {
    c.capacity.Some? ==> |buckets| + |keys - buckets.Keys| <= c.capacity.value
  }

  function Ensured(c: Config, buckets: map<Key, Bucket>, k: Key): map<Key, Bucket> {
    if k in buckets then buckets else buckets[k := FreshBucket(RatesOf(PolicyFor(c, k)))]
  }

  /** Availability is checked in order and stops at the first scope that lacks it; each
      bucket that is looked at is refilled.  Only then are all three charged. */
  function Settle(s: Scoped, op: Take): (Scoped, bool)
    requires TenantKey(op.tenant) in s.buckets && AudienceKey(op.tenant, op.audience) in s.buckets
  {
    var t, a := TenantKey(op.tenant), AudienceKey(op.tenant, op.audience);
    var g := Refill(s.global, Some(s.now));
    var bt := Refill(s.buckets[t], Some(s.now));
    var ba := Refill(s.buckets[a], Some(s.now));
    if !Enough(LevelAt(s.global, s.now), op.demand) then (s.(global := g), false)
    else if !Enough(LevelAt(s.buckets[t], s.now), op.demand) then (s.(global := g, buckets := s.buckets[t := bt]), false)
    else if !Enough(LevelAt(s.buckets[a], s.now), op.demand) then
      (s.(global := g, buckets := s.buckets[t := bt][a := ba]), false)
    else
      (s.(global := Charge(g, op.demand),
          buckets := s.buckets[t := Charge(bt, op.demand)][a := Charge(ba, op.demand)]), true)
  }

  predicate Malformed(op: Take) {
    op.demand.Bytes? && !SafeAmount(op.demand.amount)
  }

  predicate ZeroLimit(c: Config, d: Demand) {
    Denies(c.tenant, d) || Denies(c.audience, d)
  }

  function Ticked(s: Scoped, now: real): Scoped {
    s.(now := now, last := Some(now))
  }

  function MakeRoom(s: Scoped, keys: set<Key>): map<Key, Bucket> {
    if Fits(s.config, s.buckets, keys) then s.buckets else Swept(s.buckets, keys, s.now)
  }

  /** The table a take settles against. */
  function Prepared(s: Scoped, op: Take): Scoped {
    s.(buckets := Ensured(s.config, Ensured(s.config, MakeRoom(s, op.Keys()), TenantKey(op.tenant)),
                          AudienceKey(op.tenant, op.audience)))
  }

  function Perform(s: Scoped, op: Take): (Scoped, bool) {
    if Malformed(op) then (s, false)
    else if !Ticks(s, op.clock) then (s.(closed := true), false)
    else
      var u := Ticked(s, op.clock.value);
      if ZeroLimit(s.config, op.demand) then (u, false)
      else
        var room := MakeRoom(u, op.Keys());
        if !Fits(s.config, room, op.Keys()) then (u.(buckets := room), false)
        else
          Settle(Prepared(u, op), op)
  }

  // ---------------------------------------------------------------- levels, the abstract view

  datatype Scope = Deployment | Of(key: Key)

  function RatesFor(c: Config, x: Scope): Rates {
    match x
    case Deployment => RatesOf(c.deployment)
    case Of(k) => RatesOf(PolicyFor(c, k))
  }

  /** What a scope could spend at `now`; a scope without a bucket is full. */
  function LevelOf(s: Scoped, x: Scope, now: real): Level {
    match x
    case Deployment => LevelAt(s.global, now)
    case Of(k) => if k in s.buckets then LevelAt(s.buckets[k], now) else FullLevel(RatesOf(PolicyFor(s.config, k)))
  }

  predicate Charged(op: Take, x: Scope) {
    x == Deployment || x == Of(TenantKey(op.tenant)) || x == Of(AudienceKey(op.tenant, op.audience))
  }

  function Spend(level: Level, d: Demand): Level {
    match d
    case OneRequest => level.(requests := level.requests - 1.0)
    case Bytes(n) => level.(bytes := level.bytes - n as real)
  }

  ghost predicate Coherent(s: Scoped) {
    && s.now >= 0.0 && (s.last.Some? ==> s.last.value == s.now) && (s.last.None? ==> s.now == 0.0)
    && Usable(s.global, s.now) && s.global.rates == RatesOf(s.config.deployment)
    && (forall k :: k in s.buckets ==>
          Usable(s.buckets[k], s.now) && s.buckets[k].rates == RatesOf(PolicyFor(s.config, k)))
  }

  ghost predicate Valid(s: Scoped) {
    Coherent(s) && (s.config.capacity.Some? ==> |s.buckets| <= s.config.capacity.value)
  }

  /** The buckets that a sweep for `keys` cannot drop. */
  function Busy(s: Scoped, keys: set<Key>, now: real): set<Key> {
    set k | k in s.buckets && k !in keys && !IsFull(s.buckets[k], now)
  }

  predicate Crowded(s: Scoped, op: Take, now: real) {
    s.config.capacity.Some? && |Busy(s, op.Keys(), now)| + 2 > s.config.capacity.value
  }

  lemma SweptSize(s: Scoped, keys: set<Key>, now: real)
    ensures var room := Swept(s.buckets, keys, now); |room| + |keys - room.Keys| == |Busy(s, keys, now)| + |keys|
  {
    var room := Swept(s.buckets, keys, now);
    var busy := Busy(s, keys, now);
    assert room.Keys == busy + (keys * room.Keys);
    assert |room.Keys| == |busy| + |keys * room.Keys|;
    assert keys == (keys - room.Keys) + (keys * room.Keys);
  }

  lemma TwoKeys(op: Take)
    ensures |op.Keys()| == 2
  {
    var t, a := TenantKey(op.tenant), AudienceKey(op.tenant, op.audience);
    assert op.Keys() == {t} + {a};
  }

  /** A capacity refusal happens exactly when too many other scopes are mid-refill. */
  lemma RoomExactly(s: Scoped, op: Take)
    ensures Fits(s.config, MakeRoom(s, op.Keys()), op.Keys()) <==> !Crowded(s, op, s.now)
  {
    var keys := op.Keys();
    TwoKeys(op);
    SweptSize(s, keys, s.now);
    if Fits(s.config, s.buckets, keys) {
      var busy := Busy(s, keys, s.now);
      assert busy + keys <= s.buckets.Keys + keys;
      SubsetSize(busy + keys, s.buckets.Keys + keys);
      assert s.buckets.Keys + keys == s.buckets.Keys + (keys - s.buckets.Keys);
    }
  }

  /** Sweeping changes no scope's level, now or later. */
  lemma SweepInvisible(s: Scoped, keys: set<Key>, x: Scope)
    requires Coherent(s)
    ensures var u := s.(buckets := MakeRoom(s, keys)); LevelOf(u, x, s.now) == LevelOf(s, x, s.now)
    ensures forall k :: k in MakeRoom(s, keys) ==>
              k in s.buckets && Usable(MakeRoom(s, keys)[k], s.now) && MakeRoom(s, keys)[k].rates == s.buckets[k].rates
  {
    forall k | k in s.buckets
      ensures Usable(Refill(s.buckets[k], Some(s.now)), s.now)
      ensures LevelAt(Refill(s.buckets[k], Some(s.now)), s.now) == LevelAt(s.buckets[k], s.now)
    {
      RefillUnobservable(s.buckets[k], s.now, s.now);
    }
    hide LevelAt;
    hide Usable;
  }

  lemma FreshIsFull(rates: Rates, now: real)
    requires rates.Valid() && now >= 0.0
    ensures Usable(FreshBucket(rates), now) && LevelAt(FreshBucket(rates), now) == FullLevel(rates)
  {
  }

  lemma RatesPositive(p: Policy)
    ensures RatesOf(p).Valid()
  {
  }

  // ---------------------------------------------------------------- one take

  lemma ChargeLevel(b: Bucket, now: real, d: Demand)
    requires Usable(b, now) && now >= 0.0 && Enough(LevelAt(b, now), d) && (d.Bytes? ==> d.amount >= 0)
    ensures Usable(Charge(Refill(b, Some(now)), d), now)
    ensures LevelAt(Charge(Refill(b, Some(now)), d), now) == Spend(LevelAt(b, now), d)
  {
    ToppedBounds(b.rates.requests, b.requests, b.rates.requests, b.last, now);
    ToppedBounds(b.rates.burst, b.bytes, b.rates.bytes, b.last, now);
    assert Gain(b.rates.requests, now, now) == 0.0 && Gain(b.rates.bytes, now, now) == 0.0;
    hide Gain;
  }

  /** Putting a bucket in place changes the level of its own scope and of no other. */
  lemma Replaced(s: Scoped, k: Key, b: Bucket, x: Scope)
    requires Coherent(s) && Usable(b, s.now) && b.rates == RatesOf(PolicyFor(s.config, k))
    ensures var u := s.(buckets := s.buckets[k := b]);
            && Coherent(u)
            && LevelOf(u, x, s.now) == if x == Of(k) then LevelAt(b, s.now) else LevelOf(s, x, s.now)
  {
    hide LevelAt;
    hide Usable;
  }

  lemma ReplacedGlobal(s: Scoped, b: Bucket, x: Scope)
    requires Coherent(s) && Usable(b, s.now) && b.rates == RatesOf(s.config.deployment)
    ensures var u := s.(global := b);
            && Coherent(u)
            && LevelOf(u, x, s.now) == if x == Deployment then LevelAt(b, s.now) else LevelOf(s, x, s.now)
  {
    hide LevelAt;
    hide Usable;
  }

  /** The first `n` of the three buckets replaced. */
  function Installed(s: Scoped, op: Take, g: Bucket, bt: Bucket, ba: Bucket, n: nat): Scoped {
    var t, a := TenantKey(op.tenant), AudienceKey(op.tenant, op.audience);
    if n == 1 then s.(global := g)
    else if n == 2 then s.(global := g, buckets := s.buckets[t := bt])
    else s.(global := g, buckets := s.buckets[t := bt][a := ba])
  }

  lemma InstalledLevels(s: Scoped, op: Take, g: Bucket, bt: Bucket, ba: Bucket, n: nat, x: Scope)
    requires Coherent(s)
    requires Usable(g, s.now) && g.rates == RatesOf(s.config.deployment)
    requires Usable(bt, s.now) && bt.rates == RatesOf(s.config.tenant)
    requires Usable(ba, s.now) && ba.rates == RatesOf(s.config.audience)
    ensures var u := Installed(s, op, g, bt, ba, n);
            && Coherent(u)
            && LevelOf(u, x, s.now) ==
               if x == Deployment then LevelAt(g, s.now)
               else if n != 1 && x == Of(TenantKey(op.tenant)) then LevelAt(bt, s.now)
               else if n != 1 && n != 2 && x == Of(AudienceKey(op.tenant, op.audience)) then LevelAt(ba, s.now)
               else LevelOf(s, x, s.now)
  {
    var t, a := TenantKey(op.tenant), AudienceKey(op.tenant, op.audience);
    hide LevelAt;
    hide Usable;
    hide LevelOf;
    hide Coherent;
    ReplacedGlobal(s, g, x);
    var v := s.(global := g);
    Replaced(v, t, bt, x);
    Replaced(v.(buckets := v.buckets[t := bt]), a, ba, x);
  }

  lemma SettleRefines(s: Scoped, op: Take, x: Scope)
    requires Coherent(s) && !Malformed(op)
    requires TenantKey(op.tenant) in s.buckets && AudienceKey(op.tenant, op.audience) in s.buckets
    ensures var (u, granted) := Settle(s, op);
            && Coherent(u) && u.buckets.Keys == s.buckets.Keys
            && u.config == s.config && u.now == s.now && u.last == s.last && u.closed == s.closed
            && (granted <==> && Enough(LevelOf(s, Deployment, s.now), op.demand)
                             && Enough(LevelOf(s, Of(TenantKey(op.tenant)), s.now), op.demand)
                             && Enough(LevelOf(s, Of(AudienceKey(op.tenant, op.audience)), s.now), op.demand))
            && LevelOf(u, x, s.now) == if granted && Charged(op, x) then Spend(LevelOf(s, x, s.now), op.demand)
                                       else LevelOf(s, x, s.now)
  {
    var d, now, t, a := op.demand, s.now, TenantKey(op.tenant), AudienceKey(op.tenant, op.audience);
    Touched(s.global, now, d);
    Touched(s.buckets[t], now, d);
    Touched(s.buckets[a], now, d);
    var g, bt, ba := Refill(s.global, Some(now)), Refill(s.buckets[t], Some(now)), Refill(s.buckets[a], Some(now));
    assert s.buckets[t].rates == RatesOf(s.config.tenant) && s.buckets[a].rates == RatesOf(s.config.audience);
    hide LevelAt;
    hide Usable;
    hide Coherent;
    hide Enough;
    hide Spend;
    hide Refill;
    if !Enough(LevelAt(s.global, now), d) {
      InstalledLevels(s, op, g, bt, ba, 1, x);
    } else if !Enough(LevelAt(s.buckets[t], now), d) {
      InstalledLevels(s, op, g, bt, ba, 2, x);
    } else if !Enough(LevelAt(s.buckets[a], now), d) {
      InstalledLevels(s, op, g, bt, ba, 3, x);
    } else {
      InstalledLevels(s, op, Charge(g, d), Charge(bt, d), Charge(ba, d), 3, x);
    }
  }

  /** A bucket that a take looks at, with or without charging it. */
  lemma Touched(b: Bucket, now: real, d: Demand)
    requires Usable(b, now) && now >= 0.0 && (d.Bytes? ==> d.amount >= 0)
    ensures var r := Refill(b, Some(now)); Usable(r, now) && LevelAt(r, now) == LevelAt(b, now) && r.rates == b.rates
    ensures Enough(LevelAt(b, now), d) ==>
              var c := Charge(Refill(b, Some(now)), d);
              Usable(c, now) && LevelAt(c, now) == Spend(LevelAt(b, now), d) && c.rates == b.rates
  {
    RefillUnobservable(b, now, now);
    if Enough(LevelAt(b, now), d) { ChargeLevel(b, now, d); }
    hide LevelAt;
    hide Usable;
    hide Enough;
    hide Spend;
  }

  lemma TickKeeps(s: Scoped, now: real)
    requires Coherent(s) && now >= s.now
    ensures Coherent(Ticked(s, now))
  {
  }

  predicate Admissible(s: Scoped, op: Take) {
    !Malformed(op) && Ticks(s, op.clock)
  }

  /** Every scope the take would be charged to can afford it at the time of the take. */
  predicate Affordable(s: Scoped, op: Take)
    requires op.clock.Some?
  {
    var now := op.clock.value;
    && Enough(LevelOf(s, Deployment, now), op.demand)
    && Enough(LevelOf(s, Of(TenantKey(op.tenant)), now), op.demand)
    && Enough(LevelOf(s, Of(AudienceKey(op.tenant, op.audience)), now), op.demand)
  }

  /** Creating a missing bucket changes no scope's level. */
  lemma EnsureInvisible(s: Scoped, k: Key, x: Scope)
    requires Coherent(s)
    ensures var u := s.(buckets := Ensured(s.config, s.buckets, k));
            Coherent(u) && LevelOf(u, x, s.now) == LevelOf(s, x, s.now)
  {
    var b := FreshBucket(RatesOf(PolicyFor(s.config, k)));
    RatesPositive(PolicyFor(s.config, k));
    FreshIsFull(b.rates, s.now);
    Replaced(s, k, b, x);
    hide LevelAt;
    hide Usable;
    hide Coherent;
  }

  /** The table with room for both keys and both keys present: no level has changed. */
  lemma PreparedInvisible(s: Scoped, op: Take, x: Scope)
    requires Coherent(s)
    ensures var c, room := s.config, MakeRoom(s, op.Keys());
            var t, a := TenantKey(op.tenant), AudienceKey(op.tenant, op.audience);
            var u := s.(buckets := Ensured(c, Ensured(c, room, t), a));
            && Coherent(s.(buckets := room)) && LevelOf(s.(buckets := room), x, s.now) == LevelOf(s, x, s.now)
            && Coherent(u) && LevelOf(u, x, s.now) == LevelOf(s, x, s.now)
            && u.buckets.Keys == room.Keys + op.Keys()
  {
    var c, room := s.config, MakeRoom(s, op.Keys());
    var t, a := TenantKey(op.tenant), AudienceKey(op.tenant, op.audience);
    SweptCoherent(s, op.Keys(), x);
    var v := s.(buckets := room);
    hide MakeRoom;
    EnsureInvisible(v, t, x);
    var w := v.(buckets := Ensured(c, room, t));
    EnsureInvisible(w, a, x);
    hide LevelOf;
    hide Coherent;
  }

  lemma SweptCoherent(s: Scoped, keys: set<Key>, x: Scope)
    requires Coherent(s)
    ensures var u := s.(buckets := MakeRoom(s, keys)); Coherent(u) && LevelOf(u, x, s.now) == LevelOf(s, x, s.now)
  {
    SweepInvisible(s, keys, x);
    hide LevelOf;
    hide Usable;
    hide MakeRoom;
  }

  lemma KeysUnion(buckets: map<Key, Bucket>, keys: set<Key>)
    ensures |buckets.Keys + keys| == |buckets| + |keys - buckets.Keys|
  {
    assert buckets.Keys + keys == buckets.Keys + (keys - buckets.Keys);
  }

  /** Perform as seen through levels. */
  ghost predicate Refines(s: Scoped, op: Take, x: Scope)
    requires Admissible(s, op)
  {
    var (u, granted) := Perform(s, op);
    var now := op.clock.value;
    && Coherent(u) && u.config == s.config && u.closed == s.closed && u.now == now && u.last == Some(now)
    && (granted <==> !ZeroLimit(s.config, op.demand) && !Crowded(s, op, now) && Affordable(s, op))
    && LevelOf(u, x, now) == if granted && Charged(op, x) then Spend(LevelOf(s, x, now), op.demand) else LevelOf(s, x, now)
  }

  /** A take debits the three scopes together or none of them, touches no other scope, and
      is granted exactly when all three can afford it and the table is not crowded. */
  lemma PerformRefines(s: Scoped, op: Take, x: Scope)
    requires Coherent(s) && Admissible(s, op)
    ensures Refines(s, op, x)
  {
    var u := Ticked(s, op.clock.value);
    TickKeeps(s, op.clock.value);
    SameLevels(s, u, x);
    if ZeroLimit(s.config, op.demand) {
    } else if Fits(s.config, MakeRoom(u, op.Keys()), op.Keys()) {
      SettledRefines(s, op, x);
    } else {
      RefusedRefines(s, op, x);
    }
    hide LevelOf;
    hide Coherent;
    hide MakeRoom;
    hide Settle;
    hide Crowded;
    hide Enough;
  }

  lemma RefusedRefines(s: Scoped, op: Take, x: Scope)
    requires Coherent(s) && Admissible(s, op) && !ZeroLimit(s.config, op.demand)
    requires var u := Ticked(s, op.clock.value); !Fits(s.config, MakeRoom(u, op.Keys()), op.Keys())
    ensures Refines(s, op, x)
  {
    var u := Ticked(s, op.clock.value);
    TickKeeps(s, op.clock.value);
    SameLevels(s, u, x);
    RoomExactly(u, op);
    assert Crowded(u, op, u.now) <==> Crowded(s, op, u.now);
    PreparedInvisible(u, op, x);
    hide LevelOf;
    hide Coherent;
    hide MakeRoom;
    hide Settle;
    hide Crowded;
    hide Affordable;
    assert Perform(s, op) == (u.(buckets := MakeRoom(u, op.Keys())), false);
  }

  lemma SettledRefines(s: Scoped, op: Take, x: Scope)
    requires Coherent(s) && Admissible(s, op) && !ZeroLimit(s.config, op.demand)
    requires var u := Ticked(s, op.clock.value); Fits(s.config, MakeRoom(u, op.Keys()), op.Keys())
    ensures Refines(s, op, x)
  {
    var u := Ticked(s, op.clock.value);
    TickKeeps(s, op.clock.value);
    SameLevels(s, u, x);
    SameLevels(s, u, Deployment);
    SameLevels(s, u, Of(TenantKey(op.tenant)));
    SameLevels(s, u, Of(AudienceKey(op.tenant, op.audience)));
    RoomExactly(u, op);
    assert Crowded(u, op, u.now) <==> Crowded(s, op, u.now);
    PreparedSettles(u, op, x);
    hide LevelOf;
    hide Coherent;
    hide MakeRoom;
    hide Settle;
    hide Crowded;
    hide Enough;
    hide Spend;
    hide Prepared;
    assert Perform(s, op) == Settle(Prepared(u, op), op);
  }

  lemma SameLevels(s: Scoped, u: Scoped, x: Scope)
    requires u.global == s.global && u.buckets == s.buckets && u.config == s.config
    ensures LevelOf(u, x, u.now) == LevelOf(s, x, u.now)
  {
  }

  lemma PreparedSettles(s: Scoped, op: Take, x: Scope)
    requires Coherent(s) && !Malformed(op)
    ensures var v := Prepared(s, op);
            && TenantKey(op.tenant) in v.buckets && AudienceKey(op.tenant, op.audience) in v.buckets
            && var (u, granted) := Settle(v, op);
            && Coherent(u) && u.config == s.config && u.now == s.now && u.last == s.last && u.closed == s.closed
            && (granted <==> && Enough(LevelOf(s, Deployment, s.now), op.demand)
                             && Enough(LevelOf(s, Of(TenantKey(op.tenant)), s.now), op.demand)
                             && Enough(LevelOf(s, Of(AudienceKey(op.tenant, op.audience)), s.now), op.demand))
            && LevelOf(u, x, s.now) == if granted && Charged(op, x) then Spend(LevelOf(s, x, s.now), op.demand)
                                       else LevelOf(s, x, s.now)
  {
    hide LevelOf;
    hide Coherent;
    hide MakeRoom;
    hide Settle;
    hide Enough;
    hide Spend;
    PreparedInvisible(s, op, x);
    PreparedInvisible(s, op, Deployment);
    PreparedInvisible(s, op, Of(TenantKey(op.tenant)));
    PreparedInvisible(s, op, Of(AudienceKey(op.tenant, op.audience)));
    SettleRefines(Prepared(s, op), op, x);
  }

  lemma {:induction false} MapSubsetSize(a: map<Key, Bucket>, b: map<Key, Bucket>)
    requires a.Keys <= b.Keys
    ensures |a| <= |b|
  {
    SubsetSize(a.Keys, b.Keys);
  }

  /** The table never outgrows its capacity. */
  lemma TableBounded(s: Scoped, op: Take)
    requires Valid(s)
    ensures Valid(Perform(s, op).0)
  {
    if Admissible(s, op) {
      PerformRefines(s, op, Deployment);
      var u := Ticked(s, op.clock.value);
      var room := MakeRoom(u, op.Keys());
      assert room.Keys <= s.buckets.Keys;
      MapSubsetSize(room, s.buckets);
      if !ZeroLimit(s.config, op.demand) && Fits(s.config, room, op.Keys()) {
        TickKeeps(s, op.clock.value);
        PreparedInvisible(u, op, Deployment);
        SettleRefines(Prepared(u, op), op, Deployment);
        KeysUnion(room, op.Keys());
      }
      hide Coherent;
      hide LevelOf;
      hide Settle;
      hide MakeRoom;
    }
  }

  // ---------------------------------------------------------------- every run

  function Run(s: Scoped, ops: seq<Take>): Scoped {
    if ops == [] then s else Perform(Run(s, ops[..|ops| - 1]), ops[|ops| - 1]).0
  }

  /** What one take was granted on behalf of a scope. */
  function GrantOf(s: Scoped, op: Take, x: Scope): Level {
    if !Perform(s, op).1 || !Charged(op, x) then Level(0.0, 0.0)
    else match op.demand
      case OneRequest => Level(1.0, 0.0)
      case Bytes(n) => Level(0.0, n as real)
  }

  function Plus(a: Level, b: Level): Level {
    Level(a.requests + b.requests, a.bytes + b.bytes)
  }

  /** Everything a run was granted on behalf of a scope. */
  function Granted(s: Scoped, ops: seq<Take>, x: Scope): Level {
    if ops == [] then Level(0.0, 0.0)
    else
      var init := ops[..|ops| - 1];
      Plus(Granted(s, init, x), GrantOf(Run(s, init), ops[|ops| - 1], x))
  }

  lemma {:induction false} RunCoherent(s: Scoped, ops: seq<Take>)
    requires Valid(s)
    ensures Valid(Run(s, ops)) && Run(s, ops).config == s.config && Run(s, ops).now >= s.now
  {
    if ops != [] {
      var u, op := Run(s, ops[..|ops| - 1]), ops[|ops| - 1];
      RunCoherent(s, ops[..|ops| - 1]);
      TableBounded(u, op);
      if Admissible(u, op) { PerformRefines(u, op, Deployment); }
      hide Valid;
    }
  }

  lemma LevelOfGrows(s: Scoped, x: Scope, late: real)
    requires Coherent(s) && late >= s.now
    ensures LevelOf(s, x, late) == Grown(LevelOf(s, x, s.now), RatesFor(s.config, x), s.now, late)
  {
    match x
    case Deployment => LevelGrows(s.global, s.now, late);
    case Of(k) =>
      if k in s.buckets {
        LevelGrows(s.buckets[k], s.now, late);
      } else {
        RatesPositive(PolicyFor(s.config, k));
        FullStaysFull(RatesOf(PolicyFor(s.config, k)), s.now, late);
      }
  }

  lemma LevelOfBounds(s: Scoped, x: Scope)
    requires Coherent(s)
    ensures var level, rates := LevelOf(s, x, s.now), RatesFor(s.config, x);
            0.0 <= level.requests <= rates.requests && 0.0 <= level.bytes <= rates.burst
  {
    match x
    case Deployment =>
      BucketBounds(s.global, s.now);
    case Of(k) =>
      RatesPositive(PolicyFor(s.config, k));
      if k in s.buckets { BucketBounds(s.buckets[k], s.now); }
  }

  lemma BucketBounds(b: Bucket, now: real)
    requires Usable(b, now)
    ensures 0.0 <= LevelAt(b, now).requests <= b.rates.requests && 0.0 <= LevelAt(b, now).bytes <= b.rates.burst
  {
    ToppedBounds(b.rates.requests, b.requests, b.rates.requests, b.last, now);
    ToppedBounds(b.rates.burst, b.bytes, b.rates.bytes, b.last, now);
  }

  /** Balance after plus grant never exceeds balance before plus accrual. */
  ghost predicate Conserves(before: Level, granted: Level, after: Level, rates: Rates, from: real, to: real) {
    && after.requests + granted.requests <= before.requests + Gain(rates.requests, from, to)
    && after.bytes + granted.bytes <= before.bytes + Gain(rates.bytes, from, to)
  }

  lemma TakeConserves(s: Scoped, op: Take, x: Scope)
    requires Valid(s)
    ensures var u := Perform(s, op).0;
            && u.now >= s.now
            && Conserves(LevelOf(s, x, s.now), GrantOf(s, op, x), LevelOf(u, x, u.now), RatesFor(s.config, x), s.now, u.now)
  {
    if Admissible(s, op) {
      AdmittedConserves(s, op, x);
    } else {
      var rates := RatesFor(s.config, x);
      assert Gain(rates.requests, s.now, s.now) == 0.0 && Gain(rates.bytes, s.now, s.now) == 0.0;
    }
  }

  lemma GrownBounded(level: Level, rates: Rates, early: real, late: real)
    requires rates.Valid() && early <= late
    requires 0.0 <= level.requests <= rates.requests && 0.0 <= level.bytes <= rates.burst
    ensures Grown(level, rates, early, late).requests <= level.requests + Gain(rates.requests, early, late)
    ensures Grown(level, rates, early, late).bytes <= level.bytes + Gain(rates.bytes, early, late)
  {
    ToppedBounds(rates.requests, level.requests, rates.requests, Some(early), late);
    ToppedBounds(rates.burst, level.bytes, rates.bytes, Some(early), late);
    hide Gain;
  }

  lemma AdmittedConserves(s: Scoped, op: Take, x: Scope)
    requires Valid(s) && Admissible(s, op)
    ensures var u := Perform(s, op).0;
            && u.now >= s.now
            && Conserves(LevelOf(s, x, s.now), GrantOf(s, op, x), LevelOf(u, x, u.now), RatesFor(s.config, x), s.now, u.now)
  {
    hide LevelOf;
    hide Perform;
    hide Gain;
    hide Grown;
    hide RatesOf;
    var rates, now := RatesFor(s.config, x), op.clock.value;
    RatesPositive(if x.Of? then PolicyFor(s.config, x.key) else s.config.deployment);
    PerformRefines(s, op, x);
    LevelOfGrows(s, x, now);
    LevelOfBounds(s, x);
    GrownBounded(LevelOf(s, x, s.now), rates, s.now, now);
  }

  lemma {:induction false} RunConserves(s: Scoped, ops: seq<Take>, x: Scope)
    requires Valid(s)
    ensures var u := Run(s, ops);
            Conserves(LevelOf(s, x, s.now), Granted(s, ops, x), LevelOf(u, x, u.now), RatesFor(s.config, x), s.now, u.now)
  {
    var rates := RatesFor(s.config, x);
    if ops == [] {
      assert Gain(rates.requests, s.now, s.now) == 0.0 && Gain(rates.bytes, s.now, s.now) == 0.0;
    } else {
      var init, op := ops[..|ops| - 1], ops[|ops| - 1];
      var mid := Run(s, init);
      RunConserves(s, init, x);
      RunCoherent(s, init);
      TakeConserves(mid, op, x);
      RatesPositive(s.config.deployment);
      if x.Of? { RatesPositive(PolicyFor(s.config, x.key)); }
      GainAdds(rates.requests, s.now, mid.now, Perform(mid, op).0.now);
      GainAdds(rates.bytes, s.now, mid.now, Perform(mid, op).0.now);
      hide Gain;
      hide LevelOf;
      hide Perform;
      hide GrantOf;
    }
  }

  lemma RatesLimit(s: Scoped, ops: seq<Take>, x: Scope)
    requires Valid(s)
    ensures var u, rates, granted := Run(s, ops), RatesFor(s.config, x), Granted(s, ops, x);
            && u.now >= s.now
            && granted.requests <= rates.requests + Gain(rates.requests, s.now, u.now)
            && granted.bytes <= rates.burst + Gain(rates.bytes, s.now, u.now)
  {
    RunConserves(s, ops, x);
    RunCoherent(s, ops);
    LevelOfBounds(s, x);
    LevelOfBounds(Run(s, ops), x);
    hide Gain;
    hide Granted;
    hide Run;
    hide LevelOf;
  }

  function LimitsFor(c: Config, x: Scope): Policy {
    match x
    case Deployment => c.deployment
    case Of(k) => PolicyFor(c, k)
  }

  /** What `limit` per second come to in `ms` milliseconds. */
  function Yield(limit: nat, ms: real): real {
    limit as real * ms / 1000.0
  }

  predicate Positive(p: Policy) {
    p.requests > 0 && p.bits > 0 && p.burst > 0
  }

  /** Over any run from any reachable state, every scope is granted at most its limits allow,
      in the policy's own units: a burst of bytes and its bits per second, and one second's
      requests and its requests per second; times are milliseconds. */
  lemma RateLimited(s: Scoped, ops: seq<Take>, x: Scope)
    requires Valid(s) && Positive(LimitsFor(s.config, x))
    ensures var p, granted, elapsed := LimitsFor(s.config, x), Granted(s, ops, x), Run(s, ops).now - s.now;
            && elapsed >= 0.0
            && 8.0 * granted.bytes <= 8.0 * p.burst as real + Yield(p.bits, elapsed)
            && granted.requests <= p.requests as real + Yield(p.requests, elapsed)
  {
    hide Valid;
    hide Run;
    hide Granted;
    hide Gain;
    hide RatesOf;
    hide Yield;
    RatesLimit(s, ops, x);
    RatesInUnits(LimitsFor(s.config, x), s.now, Run(s, ops).now);
  }

  /** The rates of a bucket in the units of its policy. */
  lemma RatesInUnits(p: Policy, from: real, to: real)
    requires Positive(p)
    ensures var rates := RatesOf(p);
            && rates.requests == p.requests as real && rates.burst == p.burst as real
            && 8.0 * Gain(rates.bytes, from, to) == Yield(p.bits, to - from)
            && Gain(rates.requests, from, to) == Yield(p.requests, to - from)
  {
    Units(p.bits as real, to - from);
    Units(p.requests as real * 8.0, to - from);
  }

  lemma Units(bits: real, elapsed: real)
    ensures 8.0 * (elapsed / 1000.0 * (bits / 8.0)) == bits * elapsed / 1000.0
  {
    assert elapsed / 1000.0 * (bits / 8.0) == (elapsed * bits) / 8000.0;
  }

  lemma GrownAtLeast(level: Level, rates: Rates, early: real, late: real)
    requires level.requests >= 0.0 && level.bytes >= 0.0
    ensures Grown(level, rates, early, late).bytes >= Min(rates.burst, Gain(rates.bytes, early, late))
    ensures Grown(level, rates, early, late).requests >= Min(rates.requests, Gain(rates.requests, early, late))
  {
    hide Gain;
  }

  /** A scope that is left alone for t milliseconds affords what its limits yield in that
      time, up to its burst. */
  lemma IdleScopeAffords(s: Scoped, x: Scope, t: real)
    requires Coherent(s) && t >= 0.0 && Positive(LimitsFor(s.config, x))
    ensures var p, level := LimitsFor(s.config, x), LevelOf(s, x, s.now + t);
            && 8.0 * level.bytes >= Min(8.0 * p.burst as real, Yield(p.bits, t))
            && level.requests >= Min(p.requests as real, Yield(p.requests, t))
  {
    var now, rates := s.now, RatesFor(s.config, x);
    hide Coherent;
    hide Yield;
    hide Gain;
    hide Grown;
    LevelOfGrows(s, x, now + t);
    LevelOfBounds(s, x);
    RatesInUnits(LimitsFor(s.config, x), now, now + t);
    GrownAtLeast(LevelOf(s, x, now), rates, now, now + t);
    hide LevelOf;
    hide RatesOf;
    assert now + t - now == t;
  }

  /** A scope that was never used affords its whole burst. */
  lemma FreshScopeAffords(c: Config, x: Scope, now: real)
    requires Positive(LimitsFor(c, x)) && now >= 0.0
    ensures LevelOf(InitialScoped(c), x, now) == Level(LimitsFor(c, x).requests as real, LimitsFor(c, x).burst as real)
  {
  }

  /** After t idle milliseconds a take within what all three limits yield in that time is
      granted, unless the table is crowded. */
  lemma IdleTakeGranted(s: Scoped, op: Take, n: int, t: real)
    requires Coherent(s) && Admissible(s, op) && op.demand == Bytes(n) && op.clock == Some(s.now + t) && t >= 0.0
    requires Positive(s.config.deployment) && Positive(s.config.tenant) && Positive(s.config.audience)
    requires forall p :: p == s.config.deployment || p == s.config.tenant || p == s.config.audience ==>
               n <= p.burst && 8.0 * n as real <= Yield(p.bits, t)
    requires !Crowded(s, op, op.clock.value)
    ensures Perform(s, op).1
  {
    hide Yield;
    hide LevelOf;
    hide Coherent;
    ScopeAffordsBytes(s, Deployment, n, t);
    ScopeAffordsBytes(s, Of(TenantKey(op.tenant)), n, t);
    ScopeAffordsBytes(s, Of(AudienceKey(op.tenant, op.audience)), n, t);
    PerformRefines(s, op, Deployment);
    hide Perform;
    hide Crowded;
  }

  lemma ScopeAffordsBytes(s: Scoped, x: Scope, n: int, t: real)
    requires Coherent(s) && t >= 0.0 && Positive(LimitsFor(s.config, x))
    requires n <= LimitsFor(s.config, x).burst && 8.0 * n as real <= Yield(LimitsFor(s.config, x).bits, t)
    ensures n as real <= LevelOf(s, x, s.now + t).bytes
  {
    hide Coherent;
    hide Yield;
    hide LevelOf;
    IdleScopeAffords(s, x, t);
  }

  lemma InitiallyValid(c: Config)
    ensures Valid(InitialScoped(c))
  {
    RatesPositive(c.deployment);
  }

  /** The take reads the clock; a malformed one does not. */
  predicate ReadsClock(op: Take) {
    op.demand.Bytes? ==> 0 <= op.demand.amount <= 0x1f_ffff_ffff_ffff
  }

  predicate Later(ops: seq<Take>, t: real) {
    forall j :: 0 <= j < |ops| && ReadsClock(ops[j]) && ops[j].clock.Some? ==> t >= ops[j].clock.value
  }

  /** The reading is there, in range, and no earlier than any before it. */
  predicate Forward(ops: seq<Take>, clock: Option<real>) {
    clock.Some? && 0.0 <= clock.value <= 0x1f_ffff_ffff_ffff as real && Later(ops, clock.value)
  }

  ghost predicate AllForward(ops: seq<Take>) {
    forall i :: 0 <= i < |ops| && ReadsClock(ops[i]) ==> Forward(ops[..i], ops[i].clock)
  }

  /** An open budget remembers its last reading, which is the latest. */
  ghost predicate LastReading(s: Scoped, ops: seq<Take>) {
    && (s.last.Some? ==> forall t: real :: Later(ops, t) <==> t >= s.last.value)
    && (s.last.None? ==> forall t: real :: Later(ops, t))
  }

  lemma LaterLast(ops: seq<Take>, op: Take, t: real)
    ensures Later(ops + [op], t) <==> Later(ops, t) && (ReadsClock(op) && op.clock.Some? ==> t >= op.clock.value)
  {
    var all := ops + [op];
    assert all[|ops|] == op && forall j :: 0 <= j < |ops| ==> all[j] == ops[j];
  }

  lemma AllForwardLast(ops: seq<Take>, op: Take)
    ensures AllForward(ops + [op]) <==> AllForward(ops) && (ReadsClock(op) ==> Forward(ops, op.clock))
  {
    hide Forward;
    var all := ops + [op];
    assert all[|ops|] == op && all[..|ops|] == ops && forall j :: 0 <= j < |ops| ==> all[j] == ops[j] && all[..j] == ops[..j];
  }

  lemma TickMarks(s: Scoped, op: Take)
    ensures var u := Perform(s, op).0;
            && (u.closed <==> s.closed || (ReadsClock(op) && !Ticks(s, op.clock)))
            && u.last == if ReadsClock(op) && Ticks(s, op.clock) then op.clock else s.last
  {
    hide Refill;
    hide Charge;
    hide Enough;
    hide MakeRoom;
    hide Fits;
  }

  lemma ReadingStep(s: Scoped, ops: seq<Take>, op: Take)
    requires !s.closed && LastReading(s, ops)
    ensures var u := Perform(s, op).0;
            && (!u.closed <==> ReadsClock(op) ==> Forward(ops, op.clock))
            && (!u.closed ==> LastReading(u, ops + [op]))
  {
    TickMarks(s, op);
    hide Perform;
    forall t: real ensures Later(ops + [op], t) <==> Later(ops, t) && (ReadsClock(op) && op.clock.Some? ==> t >= op.clock.value) { LaterLast(ops, op, t); }
    assert op.clock.Some? ==> (Forward(ops, op.clock) <==> 0.0 <= op.clock.value <= MAX_SAFE as real && Later(ops, op.clock.value));
    hide Later;
    hide Forward;
    hide ReadsClock;
    if op.clock.None? { assert !Forward(ops, op.clock) by { NoReading(ops); } }
  }

  lemma NoReading(ops: seq<Take>)
    ensures !Forward(ops, None)
  {
  }

  /** In every run a budget is open exactly as long as every clock reading was there, finite,
      in range and not earlier than one before it. */
  lemma {:induction false} OpenExactly(c: Config, ops: seq<Take>)
    ensures var s := Run(InitialScoped(c), ops); (!s.closed <==> AllForward(ops)) && (!s.closed ==> LastReading(s, ops))
  {
    if ops != [] {
      hide AllForward;
      hide LastReading;
      var init, op := ops[..|ops| - 1], ops[|ops| - 1];
      assert ops == init + [op];
      OpenExactly(c, init);
      AllForwardLast(init, op);
      var s := Run(InitialScoped(c), init);
      TickMarks(s, op);
      if !s.closed { ReadingStep(s, init, op); }
      hide Perform;
    }
  }

  predicate NoBytes(p: Policy) {
    p.bits == 0 || p.burst == 0
  }

  predicate NoRequests(p: Policy) {
    p.requests == 0
  }

  /** Nothing of what a zero limit of the tenant or audience policy forbids. */
  predicate WithinZeroLimits(c: Config, l: Level) {
    && (NoBytes(c.tenant) || NoBytes(c.audience) ==> l.bytes == 0.0)
    && (NoRequests(c.tenant) || NoRequests(c.audience) ==> l.requests == 0.0)
  }

  lemma ZeroLimitGrant(s: Scoped, op: Take, x: Scope)
    requires Valid(s)
    ensures WithinZeroLimits(s.config, GrantOf(s, op, x))
  {
    if Admissible(s, op) {
      PerformRefines(s, op, x);
      hide Perform;
    }
  }

  lemma PlusZero(c: Config, a: Level, b: Level)
    requires WithinZeroLimits(c, a) && WithinZeroLimits(c, b)
    ensures WithinZeroLimits(c, Plus(a, b))
  {
  }

  /** A zero byte limit of the tenant or audience policy grants no byte at all, and a zero
      request limit no request. */
  lemma {:induction false} ZeroLimitGrantsNothing(s: Scoped, ops: seq<Take>, x: Scope)
    requires Valid(s)
    ensures WithinZeroLimits(s.config, Granted(s, ops, x))
  {
    if ops != [] {
      hide GrantOf;
      hide Run;
      hide Valid;
      hide WithinZeroLimits;
      hide Plus;
      var init := ops[..|ops| - 1];
      ZeroLimitGrantsNothing(s, init, x);
      RunCoherent(s, init);
      ZeroLimitGrant(Run(s, init), ops[|ops| - 1], x);
      PlusZero(s.config, Granted(s, init, x), GrantOf(Run(s, init), ops[|ops| - 1], x));
    }
  }

  // ---------------------------------------------------------------- eviction is unobservable

  /** The same budget kept without a table limit. */
  ghost predicate Mirrors(s: Scoped, u: Scoped) {
    && u.config == s.config.(capacity := None)
    && u.now == s.now && u.last == s.last && u.closed == s.closed
    && forall x :: LevelOf(u, x, s.now) == LevelOf(s, x, s.now)
  }

  predicate RefusedForRoom(s: Scoped, op: Take) {
    Admissible(s, op) && !ZeroLimit(s.config, op.demand) && Crowded(s, op, op.clock.value)
  }

  /** The reference sees every take except those the table refused for lack of room. */
  function MirrorStep(s: Scoped, u: Scoped, op: Take): (Scoped, bool) {
    if RefusedForRoom(s, op) then (Ticked(u, op.clock.value), false) else Perform(u, op)
  }

  lemma MirrorLevels(s: Scoped, u: Scoped, x: Scope, late: real)
    requires Coherent(s) && Coherent(u) && Mirrors(s, u) && late >= s.now
    ensures LevelOf(u, x, late) == LevelOf(s, x, late)
  {
    LevelOfGrows(s, x, late);
    LevelOfGrows(u, x, late);
    hide LevelOf;
    hide Coherent;
  }

  /** The part of `Mirrors` about one scope. */
  ghost predicate MirrorsAt(s: Scoped, u: Scoped, x: Scope) {
    && u.config == s.config.(capacity := None)
    && u.now == s.now && u.last == s.last && u.closed == s.closed
    && LevelOf(u, x, s.now) == LevelOf(s, x, s.now)
  }

  lemma MirrorRefused(s: Scoped, u: Scoped, op: Take, x: Scope)
    requires Coherent(s) && Coherent(u) && Mirrors(s, u) && RefusedForRoom(s, op)
    ensures !Perform(s, op).1 && Coherent(MirrorStep(s, u, op).0)
    ensures MirrorsAt(Perform(s, op).0, MirrorStep(s, u, op).0, x)
  {
    var now := op.clock.value;
    PerformRefines(s, op, x);
    MirrorLevels(s, u, x, now);
    TickKeeps(u, now);
    SameLevels(u, Ticked(u, now), x);
    hide LevelOf;
    hide Coherent;
    hide Perform;
    hide Affordable;
  }

  lemma MirrorAfforded(s: Scoped, u: Scoped, op: Take)
    requires Coherent(s) && Coherent(u) && Mirrors(s, u) && Admissible(s, op)
    ensures Affordable(s, op) <==> Affordable(u, op)
  {
    var now := op.clock.value;
    MirrorLevels(s, u, Deployment, now);
    MirrorLevels(s, u, Of(TenantKey(op.tenant)), now);
    MirrorLevels(s, u, Of(AudienceKey(op.tenant, op.audience)), now);
    hide LevelOf;
  }

  lemma MirrorAnswered(s: Scoped, u: Scoped, op: Take, x: Scope)
    requires Coherent(s) && Coherent(u) && Mirrors(s, u) && Admissible(s, op) && !RefusedForRoom(s, op)
    ensures MirrorStep(s, u, op).1 == Perform(s, op).1 && Coherent(MirrorStep(s, u, op).0)
    ensures MirrorsAt(Perform(s, op).0, MirrorStep(s, u, op).0, x)
  {
    PerformRefines(s, op, x);
    PerformRefines(u, op, x);
    MirrorAfforded(s, u, op);
    MirrorLevels(s, u, x, op.clock.value);
    hide LevelOf;
    hide Coherent;
    hide Perform;
    hide Affordable;
    hide Spend;
  }

  lemma MirrorKept(s: Scoped, u: Scoped, op: Take)
    requires Coherent(s) && Coherent(u) && Mirrors(s, u)
    ensures MirrorStep(s, u, op).1 == Perform(s, op).1
    ensures Coherent(Perform(s, op).0) && Coherent(MirrorStep(s, u, op).0)
    ensures Mirrors(Perform(s, op).0, MirrorStep(s, u, op).0)
  {
    var s', u' := Perform(s, op).0, MirrorStep(s, u, op).0;
    if Admissible(s, op) {
      PerformRefines(s, op, Deployment);
      forall x
        ensures MirrorsAt(s', u', x) && Coherent(u') && MirrorStep(s, u, op).1 == Perform(s, op).1
      {
        if RefusedForRoom(s, op) { MirrorRefused(s, u, op, x); } else { MirrorAnswered(s, u, op, x); }
      }
      assert MirrorsAt(s', u', Deployment);
      forall x
        ensures LevelOf(u', x, s'.now) == LevelOf(s', x, s'.now)
      {
        assert MirrorsAt(s', u', x);
      }
    } else {
      assert !Admissible(u, op);
      forall x
        ensures LevelOf(u', x, s'.now) == LevelOf(s', x, s'.now)
      {
        SameLevels(s, s', x);
        SameLevels(u, u', x);
      }
    }
    hide LevelOf;
    hide Coherent;
  }

  function MirrorRun(s: Scoped, u: Scoped, ops: seq<Take>): Scoped {
    if ops == [] then u
    else MirrorStep(Run(s, ops[..|ops| - 1]), MirrorRun(s, u, ops[..|ops| - 1]), ops[|ops| - 1]).0
  }

  lemma {:induction false} MirrorRunKept(c: Config, ops: seq<Take>)
    ensures var s, u := InitialScoped(c), InitialScoped(c.(capacity := None));
            && Coherent(Run(s, ops)) && Coherent(MirrorRun(s, u, ops)) && Mirrors(Run(s, ops), MirrorRun(s, u, ops))
  {
    var s, u := InitialScoped(c), InitialScoped(c.(capacity := None));
    if ops == [] {
      InitiallyValid(c);
      InitiallyValid(c.(capacity := None));
    } else {
      MirrorRunKept(c, ops[..|ops| - 1]);
      MirrorKept(Run(s, ops[..|ops| - 1]), MirrorRun(s, u, ops[..|ops| - 1]), ops[|ops| - 1]);
    }
  }

  /** After any run, the next take is answered exactly as an unbounded family of buckets
      would answer it, unless it is refused for lack of room. */
  lemma EvictionUnobservable(c: Config, ops: seq<Take>, op: Take)
    ensures var s := Run(InitialScoped(c), ops);
            var u := MirrorRun(InitialScoped(c), InitialScoped(c.(capacity := None)), ops);
            if RefusedForRoom(s, op) then !Perform(s, op).1 else Perform(s, op).1 == Perform(u, op).1
  {
    var s := Run(InitialScoped(c), ops);
    var u := MirrorRun(InitialScoped(c), InitialScoped(c.(capacity := None)), ops);
    MirrorRunKept(c, ops);
    MirrorKept(s, u, op);
    hide Perform;
    hide Run;
    hide Coherent;
    hide Mirrors;
  }

  // ---------------------------------------------------------------- the mutable budget

  class HlsScopedBudget {
    const config: Config
    var now: real
    var last: Option<real>
    var closed: bool
    var global: Bucket
    var buckets: map<Key, Bucket>

    function View(): Scoped
      reads this
    {
      Scoped(config, now, last, closed, global, buckets)
    }

    constructor (config: Config)
      ensures View() == InitialScoped(config)
    {
      this.config := config;
      now, last, closed := 0.0, None, false;
      global, buckets := FreshBucket(RatesOf(config.deployment)), map[];
    }

    method Tick(clock: Option<real>) returns (ok: bool)
      modifies this
      ensures ok == Ticks(old(View()), clock)
      ensures View() == if ok then Ticked(old(View()), clock.value) else old(View()).(closed := true)
    {
      if closed {
        return false;
      }
      if clock.None? || clock.value < 0.0 || clock.value > MAX_SAFE as real || (last.Some? && clock.value < last.value) {
        closed := true;
        return false;
      }
      now, last := clock.value, clock;
      ok := true;
    }

    /** Visits the table in any order; every visited bucket outside `keys` is refilled and
        dropped if that leaves it full. */
    method Sweep(keys: set<Key>)
      requires Coherent(View())
      modifies this`buckets
      ensures buckets == Swept(old(buckets), keys, now)
    {
      hide LevelAt;
      var todo := buckets.Keys;
      while todo != {}
        invariant todo <= buckets.Keys <= old(buckets).Keys
        invariant forall k :: k in todo ==> buckets[k] == old(buckets)[k]
        invariant forall k :: k in old(buckets) && k !in todo ==>
                    (k in buckets <==> k in Swept(old(buckets), keys, now))
        invariant forall k :: k in buckets && k !in todo ==> buckets[k] == Swept(old(buckets), keys, now)[k]
        decreases todo
      {
        var k :| k in todo;
        if k !in keys {
          var b := Refill(buckets[k], Some(now));
          if b.requests == b.rates.requests && b.bytes == b.rates.burst {
            buckets := buckets - {k};
          } else {
            buckets := buckets[k := b];
          }
        }
        todo := todo - {k};
      }
    }

    method TakeFrom(op: Take) returns (granted: bool)
      requires Coherent(View())
      modifies this
      ensures (View(), granted) == Perform(old(View()), op)
    {
      hide LevelAt;
      hide Coherent;
      if Malformed(op) {
        return false;
      }
      var ticked := Tick(op.clock);
      if !ticked {
        return false;
      }
      TickedCoherent(old(View()), op.clock.value);
      if ZeroLimit(config, op.demand) {
        return false;
      }
      var keys := op.Keys();
      if !Fits(config, buckets, keys) {
        Sweep(keys);
        if !Fits(config, buckets, keys) {
          return false;
        }
      }
      buckets := Ensured(config, buckets, TenantKey(op.tenant));
      buckets := Ensured(config, buckets, AudienceKey(op.tenant, op.audience));
      granted := Debit(op);
    }

    /** Three availability checks, then three debits, at one frozen time. */
    method Debit(op: Take) returns (granted: bool)
      requires TenantKey(op.tenant) in buckets && AudienceKey(op.tenant, op.audience) in buckets
      modifies this`global, this`buckets
      ensures (View(), granted) == Settle(old(View()), op)
    {
      hide LevelAt;
      var t, a := TenantKey(op.tenant), AudienceKey(op.tenant, op.audience);
      var available := Enough(LevelAt(global, now), op.demand);
      global := Refill(global, Some(now));
      if !available {
        return false;
      }
      available := Enough(LevelAt(buckets[t], now), op.demand);
      buckets := buckets[t := Refill(buckets[t], Some(now))];
      if !available {
        return false;
      }
      available := Enough(LevelAt(buckets[a], now), op.demand);
      buckets := buckets[a := Refill(buckets[a], Some(now))];
      if !available {
        return false;
      }
      global := Charge(global, op.demand);
      buckets := buckets[t := Charge(buckets[t], op.demand)];
      buckets := buckets[a := Charge(buckets[a], op.demand)];
      granted := true;
      assert buckets == Settle(old(View()), op).0.buckets;
    }
  }

  lemma TickedCoherent(s: Scoped, now: real)
    requires Coherent(s) && Ticks(s, Some(now))
    ensures Coherent(Ticked(s, now))
  {
  }
}
