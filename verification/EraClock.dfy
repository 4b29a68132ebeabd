/** The era clock: the era number is computed from the block time, the era length and an offset, and
    survives changes of the era length. */
module EraClock {
  import opened Arith
  import opened PoolTypes
  import opened PoolSteps
  import opened Worlds
  import opened Reachability
  import opened Flight

  /** The era by the clock, before the saturation at the ends of the 64-bit range. */
  function Reading(c: Clock, now: nat): int
    requires c.eraSeconds > 0
  {
    now / c.eraSeconds + c.offset
  }

  // ---- Arithmetic ----

  lemma QuotientMonotone(m: nat, n: nat, d: nat)
    requires d > 0 && m <= n
    ensures 0 <= m / d <= n / d && n / d - m / d <= n - m && n / d <= n
  {
    QuotientLipschitz(m, n, d);
    QuotientLipschitz(0, n, d);
  }

  lemma SmallWord(n: nat)
    requires n <= I64_MAX
    ensures AsI64(n) == n
  {
    assert n < U64_MAX + 1;
  }

  lemma LargeWord(n: nat)
    requires I64_MAX < n <= U64_MAX
    ensures AsI64(n) == n - (U64_MAX + 1)
  {
    assert n < U64_MAX + 1;
  }

  // ---- Changing the era length ----

  /** What an accepted change of the era length computes. */
  lemma ResetShape(clock: Clock, eraSeconds: nat, now: nat)
    requires now <= MAX_SECONDS && ResetClock(clock, eraSeconds, now).Ok?
    ensures clock.eraSeconds > 0 && MIN_ERA_SECONDS <= eraSeconds <= MAX_ERA_SECONDS
    ensures ResetClock(clock, eraSeconds, now).value
         == Clock(clock.era, eraSeconds, AsI64(SatAddSigned(now / clock.eraSeconds, clock.offset)) - now / eraSeconds,
                  UnbondingEras(eraSeconds))
  {
    QuotientMonotone(0, now, eraSeconds);
    SmallWord(now / eraSeconds);
  }

  /** A change of the era length is accepted within eight hours and a day, as long as the new offset fits its
      signed word. */
  lemma ResetAccepted(clock: Clock, eraSeconds: nat, now: nat)
    requires clock.eraSeconds > 0 && now <= MAX_SECONDS
    ensures var era := now / clock.eraSeconds + clock.offset;
      var signed := if era < 0 then 0 else if era <= I64_MAX then era
                    else if era <= U64_MAX then era - U64_MAX - 1 else -1;
      ResetClock(clock, eraSeconds, now).Ok? <==>
        && 28800 <= eraSeconds <= 86400
        && -0x8000_0000_0000_0000 <= signed - now / eraSeconds
  {
    var era := SatAddSigned(now / clock.eraSeconds, clock.offset);
    if era <= I64_MAX {
      SmallWord(era);
    } else {
      LargeWord(era);
    }
    if eraSeconds > 0 {
      QuotientMonotone(0, now, eraSeconds);
      SmallWord(now / eraSeconds);
    }
  }

  /** The new length shows the same era at that instant exactly when the era number is in the signed
      64-bit range it is cast to. */
  lemma ResetKeepsEra(clock: Clock, eraSeconds: nat, now: nat)
    requires now <= MAX_SECONDS && ResetClock(clock, eraSeconds, now).Ok?
    ensures var after := ResetClock(clock, eraSeconds, now).value;
      var before := CurrentEra(now, clock.eraSeconds, clock.offset);
      before.Ok? && (CurrentEra(now, after.eraSeconds, after.offset) == before <==> before.value <= I64_MAX)
  {
    ResetShape(clock, eraSeconds, now);
    QuotientMonotone(0, now, eraSeconds);
    var era := SatAddSigned(now / clock.eraSeconds, clock.offset);
    if era <= I64_MAX {
      SmallWord(era);
    } else {
      LargeWord(era);
    }
  }

  const FAR_CLOCK := Clock(0, 1, I64_MAX, 2)

  /** At the first era outside the signed range the change puts the clock back to era 0. */
  lemma ResetOfFarClock()
    ensures CurrentEra(1, 1, I64_MAX) == Ok(I64_MAX + 1)
    ensures ResetClock(FAR_CLOCK, DEFAULT_ERA_SECONDS, 1)
         == Ok(Clock(0, DEFAULT_ERA_SECONDS, -(I64_MAX + 1), UnbondingEras(DEFAULT_ERA_SECONDS)))
    ensures CurrentEra(1, DEFAULT_ERA_SECONDS, -(I64_MAX + 1)) == Ok(0)
  {
    LargeWord(I64_MAX + 1);
    SmallWord(0);
  }

  const FAR_POOL := MigrateParams(
    0, 0, 0, ["v"], 0, CAL_BASE, 0, 0, "fees", [], 0, 2, None, FAR_CLOCK.eraSeconds, FAR_CLOCK.offset)

  lemma FarPool(key: PacketKey) returns (w: World)
    ensures Reachable(w) && w.s.pool.clock == FAR_CLOCK && w.s.pool.config.admin == "admin" && w.now == 1
  {
    var start := Genesis(Deployment("admin", "admin", "stack", 0, 0, []), 0, 0);
    GenesisReachable(Deployment("admin", "admin", "stack", 0, 0, []), 0, 0, CAL_BASE);
    var e := Event(DoMigratePool("admin", FAR_POOL, key), 1, 0);
    assert Allowed(start, e);
    ReachableNext(start, e, CAL_BASE);
    w := Next(start, e);
  }

  function ChangedLength(eraSeconds: nat): ConfigParams {
    ConfigParams(None, None, None, None, None, Some(eraSeconds), None, None, None, None, None, None)
  }

  /** Such a clock can be brought in by a migration; the accepted change of the era length then loses all
      its eras. */
  lemma ErasLost(key: PacketKey) returns (w: World, e: Event)
    ensures Reachable(w) && Allowed(w, e) && e.action.DoConfigPool? && e.now == w.now
    ensures Apply(w.s, e.action, e.now, e.height).Ok?
    ensures CurrentEra(w.now, w.s.pool.clock.eraSeconds, w.s.pool.clock.offset) == Ok(I64_MAX + 1)
    ensures var after := Next(w, e).s.pool.clock; CurrentEra(w.now, after.eraSeconds, after.offset) == Ok(0)
  {
    w := FarPool(key);
    e := Event(DoConfigPool("admin", ChangedLength(DEFAULT_ERA_SECONDS)), w.now, w.height);
    ResetOfFarClock();
  }

  /** The unbonding period that goes with an era length is the least one whose eras, but for the first,
      cover the unbonding time of the host chain, three weeks. */
  lemma UnbondingCovered(eraSeconds: nat, period: nat)
    requires MIN_ERA_SECONDS <= eraSeconds <= MAX_ERA_SECONDS && period > 0
    ensures (period - 1) * eraSeconds >= 1_814_400 <==> period >= UnbondingEras(eraSeconds)
  {
    var n := UNBONDING_SECONDS + eraSeconds - 1;
    FloorBounds(n, eraSeconds);
    var eras := n / eraSeconds;
    if period - 1 >= eras {
      MulLe(eras, period - 1, eraSeconds);
    } else {
      MulLe(period, eras, eraSeconds);
      assert (period - 1) * eraSeconds == period * eraSeconds - eraSeconds;
    }
  }

  // ---- Over whole runs ----

  /** The clock has not been set ahead: it has counted from zero at most one era per second, and the
      era of the pool is not past it. */
  predicate OnTime(c: Clock, now: nat) {
    c.eraSeconds > 0 && 0 <= Reading(c, now) <= now && c.era <= Reading(c, now)
  }

  predicate ClockOk(p: PoolInfo, now: nat) {
    p.status == RegisterEnded || OnTime(p.clock, now)
  }

  /** On time, the saturation never strikes. */
  lemma NoClipping(c: Clock, now: nat)
    requires OnTime(c, now) && now <= MAX_SECONDS
    ensures CurrentEra(now, c.eraSeconds, c.offset) == Ok(Reading(c, now))
  {
  }

  lemma TimePasses(c: Clock, now: nat, later: nat)
    requires OnTime(c, now) && now <= later
    ensures OnTime(c, later) && Reading(c, now) <= Reading(c, later)
  {
    QuotientMonotone(now, later, c.eraSeconds);
  }

  lemma ResetOnTime(clock: Clock, eraSeconds: nat, now: nat)
    requires OnTime(clock, now) && now <= MAX_SECONDS && ResetClock(clock, eraSeconds, now).Ok?
    ensures OnTime(ResetClock(clock, eraSeconds, now).value, now)
    ensures Reading(ResetClock(clock, eraSeconds, now).value, now) == Reading(clock, now)
  {
    ResetShape(clock, eraSeconds, now);
    NoClipping(clock, now);
    SmallWord(Reading(clock, now));
  }

  lemma ConfigOnTime(s: PoolState, sender: string, c: ConfigParams, now: nat)
    requires OnTime(s.pool.clock, now) && now <= MAX_SECONDS && ConfigPool(s, sender, c, now).Ok?
    ensures var after := ConfigPool(s, sender, c, now).value.state.pool.clock;
      OnTime(after, now) && Reading(after, now) == Reading(s.pool.clock, now)
    ensures c.eraSeconds.Some? ==>
      var after := ConfigPool(s, sender, c, now).value.state.pool.clock;
      after.unbondingPeriod > 0 && (after.unbondingPeriod - 1) * after.eraSeconds >= 1_814_400
  {
    if c.eraSeconds.Some? {
      var clock := s.pool.clock.(unbondingPeriod := c.unbondingPeriod.GetOr(s.pool.clock.unbondingPeriod));
      ResetOnTime(clock, c.eraSeconds.value, now);
      ResetShape(clock, c.eraSeconds.value, now);
      UnbondingCovered(c.eraSeconds.value, UnbondingEras(c.eraSeconds.value));
    }
  }

  /** Before the pool is set up there is no era length, so it cannot be changed either. */
  lemma ConfigStaysRegistered(s: PoolState, sender: string, c: ConfigParams, now: nat)
    requires ConfigPool(s, sender, c, now).Ok?
    ensures ConfigPool(s, sender, c, now).value.state.pool.status == s.pool.status
  {
  }

  /** A new pool starts in era 0, by its own clock as well. */
  lemma InitOnTime(s: PoolState, sender: string, params: InitParams, now: nat, key: PacketKey)
    requires now <= MAX_SECONDS && InitPool(s, sender, params, now, key).Ok? && s.pool.status == RegisterEnded
    ensures var after := InitPool(s, sender, params, now, key).value.state.pool.clock;
      OnTime(after, now) && Reading(after, now) == 0
  {
    var eraSeconds := params.eraSeconds.GetOr(DEFAULT_ERA_SECONDS);
    QuotientMonotone(0, now, eraSeconds);
    SmallWord(now / eraSeconds);
  }

  /** A migrated pool brings its clock along; it is to be on time. */
  predicate MigratedOnTime(s: PoolState, a: Action, now: nat) {
    a.DoMigratePool? && s.pool.status == RegisterEnded
    ==> OnTime(Clock(a.migrate.era, a.migrate.eraSeconds, a.migrate.offset, a.migrate.unbondingPeriod), now)
  }

  lemma MigrateShape(s: PoolState, sender: string, params: MigrateParams, key: PacketKey)
    requires MigratePool(s, sender, params, key).Ok?
    ensures var after := MigratePool(s, sender, params, key).value.state.pool.clock;
      if s.pool.status == RegisterEnded then
        after == Clock(params.era, params.eraSeconds, params.offset, params.unbondingPeriod)
      else after == s.pool.clock
  {
  }

  /** The era goes up only when the clock shows a later one. */
  lemma EraUpdateOnTime(s: PoolState, now: nat, height: nat, key: PacketKey)
    requires OnTime(s.pool.clock, now) && now <= MAX_SECONDS && EraUpdate(s, now, height, key).Ok?
    ensures var after := EraUpdate(s, now, height, key).value.state.pool.clock;
      OnTime(after, now) && after == s.pool.clock.(era := s.pool.clock.era + 1)
  {
    NoClipping(s.pool.clock, now);
  }

  /** Every other message leaves the clock alone, but for taking an era back, and sets nothing up. */
  predicate ClockRests(p: PoolInfo, q: PoolInfo) {
    && q.clock.(era := p.clock.era) == p.clock && q.clock.era <= p.clock.era
    && (p.status == RegisterEnded ==> q.status == RegisterEnded)
  }

  lemma AdminRests(s: PoolState, a: Action, now: nat)
    requires ByAdmin(a) && !a.DoInitPool? && !a.DoMigratePool? && !a.DoConfigPool? && ApplyAdmin(s, a, now).Ok?
    ensures ClockRests(s.pool, ApplyAdmin(s, a, now).value.state.pool)
  {
  }

  lemma UserRests(s: PoolState, a: Action)
    requires ByUser(a) && ApplyUser(s, a).Ok?
    ensures ClockRests(s.pool, ApplyUser(s, a).value.state.pool)
  {
  }

  lemma StepRests(s: PoolState, a: Action, now: nat, height: nat)
    requires (a.DoEraBond? || a.DoCollectWithdraw? || a.DoRebond? || a.DoEraActive?) && ApplyEra(s, a, now, height).Ok?
    ensures ClockRests(s.pool, ApplyEra(s, a, now, height).value.state.pool)
  {
    if a.DoEraBond? {
      EraBondShape(s, a.query, a.selected, now, a.key);
    }
  }

  lemma DeliverRests(s: PoolState, slot: Option<PacketKey>, key: PacketKey, success: bool, now: nat, height: nat)
    requires SingleFlight(s, slot) && Deliver(s, key, success, now, height).Ok?
    ensures ClockRests(s.pool, Deliver(s, key, success, now, height).value.state.pool)
  {
    assert Fits(s.mail.sudoPayloads[key].txType, s.pool);
  }

  lemma OtherRests(s: PoolState, slot: Option<PacketKey>, a: Action, now: nat, height: nat)
    requires SingleFlight(s, slot) && Apply(s, a, now, height).Ok?
    requires !a.DoInitPool? && !a.DoMigratePool? && !a.DoConfigPool? && !a.DoEraUpdate?
    ensures ClockRests(s.pool, Apply(s, a, now, height).value.state.pool)
  {
    if a.DoConfigStack? {
    } else if ByAdmin(a) {
      AdminRests(s, a, now);
    } else if ByUser(a) {
      UserRests(s, a);
    } else if a.DoDeliver? {
      DeliverRests(s, slot, a.key, a.success, now, height);
    } else {
      StepRests(s, a, now, height);
    }
  }

  lemma RestingOk(p: PoolInfo, q: PoolInfo, now: nat)
    requires ClockOk(p, now) && ClockRests(p, q)
    ensures ClockOk(q, now)
    ensures p.status != RegisterEnded && q.status != RegisterEnded ==> Reading(q.clock, now) == Reading(p.clock, now)
  {
  }

  /** The clock stays on time, and no message moves what it shows. */
  lemma MessageOnTime(s: PoolState, slot: Option<PacketKey>, a: Action, now: nat, height: nat)
    requires SingleFlight(s, slot) && ClockOk(s.pool, now) && now <= MAX_SECONDS
    requires MigratedOnTime(s, a, now) && Apply(s, a, now, height).Ok?
    ensures var after := Apply(s, a, now, height).value.state.pool;
      && ClockOk(after, now)
      && (s.pool.status != RegisterEnded && after.status != RegisterEnded ==>
          Reading(after.clock, now) == Reading(s.pool.clock, now))
  {
    if a.DoInitPool? {
      if s.pool.status == RegisterEnded {
        InitOnTime(s, a.sender, a.init, now, a.key);
      }
    } else if a.DoMigratePool? {
      MigrateShape(s, a.sender, a.migrate, a.key);
    } else if a.DoConfigPool? {
      ConfigStaysRegistered(s, a.sender, a.config, now);
      if s.pool.status != RegisterEnded {
        ConfigOnTime(s, a.sender, a.config, now);
      }
    } else if a.DoEraUpdate? {
      EraUpdateOnTime(s, now, height, a.key);
    } else {
      OtherRests(s, slot, a, now, height);
      RestingOk(s.pool, Apply(s, a, now, height).value.state.pool, now);
    }
  }

  /** Whatever mix of waiting and reconfiguration: the computed era is never clipped and never goes
      down, and the era of the pool is never past it. */
  lemma ClockKept(w: World, e: Event)
    requires SingleFlight(w.s, w.h.slot) && Allowed(w, e)
    requires ClockOk(w.s.pool, w.now) && MigratedOnTime(w.s, e.action, e.now)
    ensures ClockOk(Next(w, e).s.pool, e.now)
    ensures w.s.pool.status != RegisterEnded && Next(w, e).s.pool.status != RegisterEnded ==>
      && CurrentEra(e.now, Next(w, e).s.pool.clock.eraSeconds, Next(w, e).s.pool.clock.offset)
         == Ok(Reading(Next(w, e).s.pool.clock, e.now))
      && Reading(Next(w, e).s.pool.clock, e.now) >= Reading(w.s.pool.clock, w.now)
  {
    var p := w.s.pool;
    if p.status != RegisterEnded {
      TimePasses(p.clock, w.now, e.now);
    }
    if Apply(w.s, e.action, e.now, e.height).Ok? {
      MessageOnTime(w.s, w.h.slot, e.action, e.now, e.height);
    }
    if Next(w, e).s.pool.status != RegisterEnded {
      NoClipping(Next(w, e).s.pool.clock, e.now);
    }
  }

  // ---- A pool stays set up ----

  lemma AdminSetUp(s: PoolState, a: Action, now: nat)
    requires ByAdmin(a) && ApplyAdmin(s, a, now).Ok? && ApplyAdmin(s, a, now).value.state.pool.status == RegisterEnded
    ensures s.pool.status == RegisterEnded
  {
  }

  lemma UserSetUp(s: PoolState, a: Action)
    requires ByUser(a) && ApplyUser(s, a).Ok? && ApplyUser(s, a).value.state.pool.status == RegisterEnded
    ensures s.pool.status == RegisterEnded
  {
  }

  lemma EraSetUp(s: PoolState, a: Action, now: nat, height: nat)
    requires ApplyEra(s, a, now, height).Ok? && ApplyEra(s, a, now, height).value.state.pool.status == RegisterEnded
    ensures s.pool.status == RegisterEnded
  {
    if a.DoDeliver? {
      var s1 := s.(mail := s.mail.(sudoPayloads := s.mail.sudoPayloads - {a.key}));
      if a.success {
        CallbackShape(s1, s.mail.sudoPayloads[a.key], now, height);
      } else {
        FailedCallbackShape(s1, s.mail.sudoPayloads[a.key]);
      }
    }
  }

  lemma StaysSetUp(w: World, e: Event)
    requires w.s.pool.status != RegisterEnded
    ensures Next(w, e).s.pool.status != RegisterEnded
  {
    var s, a := w.s, e.action;
    if Apply(s, a, e.now, e.height).Ok? && Next(w, e).s.pool.status == RegisterEnded && !a.DoConfigStack? {
      if ByAdmin(a) {
        AdminSetUp(s, a, e.now);
      } else if ByUser(a) {
        UserSetUp(s, a);
      } else {
        EraSetUp(s, a, e.now, e.height);
      }
    }
  }
}
