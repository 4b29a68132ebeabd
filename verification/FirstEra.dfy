/** Short concrete runs: a pool is set up, and goes through an era without deposits and withdrawals. Other
    modules continue them to show what can happen. */
module FirstEra {
  import opened Arith
  import opened Allocation
  import opened Payload
  import opened PoolTypes
  import opened PoolSteps
  import opened Worlds
  import opened Reachability

  /** The packets of the run, in the order they are sent. */
  function Packet(n: nat): PacketKey { PacketKey("channel", n) }

  const DEPLOYMENT := Deployment("admin", "admin", "stack", 0, 0, [])

  function ReadyPool(period: nat, commission: nat): PoolInfo {
    PoolInfo(Book(0, 0, 0, CAL_BASE, 0, 0), Clock(0, 86400, 0, period),
             Config("admin", false, 0, 20, 0, commission, "fees", false, 100, 0),
             ActiveEnded, NO_SNAPSHOT, ["v"], End, 0, ShareTokens([], []))
  }

  /** Nothing has been stored or is waiting, but for the pool and the given packets. */
  ghost predicate At(w: World, limit: nat, pool: PoolInfo, payloads: map<PacketKey, SudoPayload>, now: nat, height: nat)
  {
    && ReachableWithin(w, limit) && w.s.pool == pool && w.s.mail.sudoPayloads == payloads
    && w.s.ledger == Ledger(map[], map[]) && w.s.unbondTimes == map[] && w.h.settlement.unsettled == map[]
    && w.s.stack.admin == "admin" && w.s.stack.feeCommission == 0 && w.now == now && w.height == height
  }

  lemma Dealt(period: nat, commission: nat, limit: nat) returns (w: World)
    requires commission <= limit
    ensures At(w, limit, ReadyPool(period, commission).(status := InitStarted),
               map[Packet(0) := SudoPayload("", TxSetWithdrawAddr)], 0, 0)
  {
    var start := Genesis(DEPLOYMENT, 0, 0);
    GenesisReachable(DEPLOYMENT, 0, 0, limit);
    var params := InitParams(["v"], "fees", 0, period, Some(commission), None);
    var e := Event(DoInitPool("admin", params, Packet(0)), 0, 0);
    assert Orderly(start, e, limit);
    ReachableNext(start, e, limit);
    w := Next(start, e);
  }

  /** A delivery removes the payload and leaves the rest to the callback. */
  lemma OnlyPacket(s: PoolState, key: PacketKey, payload: SudoPayload, now: nat, height: nat)
    requires s.mail.sudoPayloads == map[key := payload]
    ensures Deliver(s, key, true, now, height)
      == Callback(s.(mail := s.mail.(sudoPayloads := map[])), payload, now, height)
  {
    assert s.mail.sudoPayloads - {key} == map[];
  }

  function WithoutPackets(s: PoolState): PoolState {
    s.(mail := s.mail.(sudoPayloads := map[]))
  }

  /** The answer to the only packet that is out, when its callback changes the pool record only. */
  lemma Answer(before: World, limit: nat, was: PoolInfo, key: PacketKey, payload: SudoPayload, becomes: PoolInfo,
               now: nat, height: nat, later: nat) returns (w: World)
    requires At(before, limit, was, map[key := payload], now, height) && height <= later && now <= MAX_SECONDS
    requires Callback(WithoutPackets(before.s), payload, now, later)
          == Ok(Outcome(WithoutPackets(before.s).(pool := becomes), NO_EFFECTS))
    ensures At(w, limit, becomes, map[], now, later)
  {
    var e := Event(DoDeliver(key, true), now, later);
    OnlyPacket(before.s, key, payload, now, later);
    ReachableNext(before, e, limit);
    w := Next(before, e);
  }

  /** The set-up is answered. */
  lemma Ready(period: nat, commission: nat, limit: nat) returns (w: World)
    requires commission <= limit
    ensures At(w, limit, ReadyPool(period, commission), map[], 0, 0)
  {
    var before := Dealt(period, commission, limit);
    var pool := ReadyPool(period, commission);
    w := Answer(before, limit, pool.(status := InitStarted), Packet(0), SudoPayload("", TxSetWithdrawAddr), pool,
                0, 0, 0);
  }

  // ---- An era in which nothing was deposited or withdrawn ----

  function Started(p: PoolInfo): PoolInfo {
    p.(clock := p.clock.(era := 1), status := EraUpdateEnded, snapshot := EraSnapshot(1, 0, 0, 0, 0, 1))
  }

  lemma EraBegun(before: World, limit: nat, period: nat, commission: nat) returns (w: World)
    requires At(before, limit, ReadyPool(period, commission), map[], 0, 0)
    ensures At(w, limit, Started(ReadyPool(period, commission)), map[], 86400, 1)
  {
    var e := Event(DoEraUpdate(Packet(1)), 86400, 1);
    assert CurrentEra(86400, 86400, 0) == Ok(1);
    ReachableNext(before, e, limit);
    w := Next(before, e);
  }

  const NOTHING_DELEGATED := Some(DelegationQuery([], 2))

  /** The bond step of an empty snapshot sends an empty packet. */
  lemma EmptyBond(s: PoolState, period: nat, commission: nat)
    requires s.pool == Started(ReadyPool(period, commission))
    ensures EraBond(s, NOTHING_DELEGATED, [], 86400, Packet(2)).Ok?
    ensures var after := EraBond(s, NOTHING_DELEGATED, [], 86400, Packet(2)).value.state;
      && after.pool == s.pool.(status := BondStarted) && after.ledger == s.ledger && after.unbondTimes == s.unbondTimes
      && after.mail.sudoPayloads == s.mail.sudoPayloads[Packet(2) := SudoPayload("", TxEraBond)]
      && after.stack == s.stack
  {
  }

  lemma EraBonding(before: World, limit: nat, period: nat, commission: nat) returns (w: World)
    requires At(before, limit, Started(ReadyPool(period, commission)), map[], 86400, 1)
    ensures At(w, limit, Started(ReadyPool(period, commission)).(status := BondStarted),
               map[Packet(2) := SudoPayload("", TxEraBond)], 86400, 2)
  {
    var e := Event(DoEraBond(NOTHING_DELEGATED, [], Packet(2)), 86400, 2);
    assert ProperDelegations([]);
    ReachableNext(before, e, limit);
    EmptyBond(before.s, period, commission);
    w := Next(before, e);
  }

  function Bonded(p: PoolInfo): PoolInfo {
    Started(p).(status := BondEnded, snapshot := EraSnapshot(1, 0, 0, 0, 0, 2))
  }

  lemma EraBonded(before: World, limit: nat, period: nat, commission: nat) returns (w: World)
    requires At(before, limit, Started(ReadyPool(period, commission)).(status := BondStarted),
                map[Packet(2) := SudoPayload("", TxEraBond)], 86400, 2)
    ensures At(w, limit, Bonded(ReadyPool(period, commission)), map[], 86400, 2)
  {
    var pool := ReadyPool(period, commission);
    w := Answer(before, limit, Started(pool).(status := BondStarted), Packet(2), SudoPayload("", TxEraBond),
                Bonded(pool), 86400, 2, 2);
  }

  lemma BondEndedWorld(period: nat, commission: nat, limit: nat) returns (w: World)
    requires commission <= limit
    ensures At(w, limit, Bonded(ReadyPool(period, commission)), map[], 86400, 2)
  {
    w := Ready(period, commission, limit);
    w := EraBegun(w, limit, period, commission);
    w := EraBonding(w, limit, period, commission);
    w := EraBonded(w, limit, period, commission);
  }

  // ---- Nothing is collected ----

  lemma NothingCollected(before: World, limit: nat, period: nat, commission: nat) returns (w: World)
    requires At(before, limit, Bonded(ReadyPool(period, commission)), map[], 86400, 2)
    ensures At(w, limit, Bonded(ReadyPool(period, commission)).(status := WithdrawEnded), map[], 86400, 2)
  {
    var e := Event(DoCollectWithdraw(None, Packet(3)), 86400, 2);
    ReachableNext(before, e, limit);
    w := Next(before, e);
  }

  lemma NothingRestaked(before: World, limit: nat, period: nat, commission: nat) returns (w: World)
    requires At(before, limit, Bonded(ReadyPool(period, commission)).(status := WithdrawEnded), map[], 86400, 2)
    ensures At(w, limit, Bonded(ReadyPool(period, commission)).(status := RebondEnded), map[], 86400, 2)
  {
    var e := Event(DoRebond([], Packet(3)), 86400, 2);
    assert NoneOut(before.s, TxEraRebond);
    ReachableNext(before, e, limit);
    w := Next(before, e);
  }

  lemma RebondEndedWorld(period: nat, commission: nat, limit: nat) returns (w: World)
    requires commission <= limit
    ensures At(w, limit, Bonded(ReadyPool(period, commission)).(status := RebondEnded), map[], 86400, 2)
  {
    w := BondEndedWorld(period, commission, limit);
    w := NothingCollected(w, limit, period, commission);
    w := NothingRestaked(w, limit, period, commission);
  }

  // ---- Ten tokens are collected ----

  const TEN_REWARDS := Some(BalanceQuery(10, 3))

  lemma Collecting(before: World, limit: nat, period: nat, commission: nat) returns (w: World)
    requires At(before, limit, Bonded(ReadyPool(period, commission)), map[], 86400, 2)
    ensures At(w, limit,
               Bonded(ReadyPool(period, commission)).(status := WithdrawStarted,
                                                      snapshot := EraSnapshot(1, 0, 0, 0, 10, 2)),
               map[Packet(3) := SudoPayload("", TxEraCollectWithdraw)], 86400, 3)
  {
    var e := Event(DoCollectWithdraw(TEN_REWARDS, Packet(3)), 86400, 3);
    ReachableNext(before, e, limit);
    w := Next(before, e);
  }

  function Collected(p: PoolInfo): PoolInfo {
    Bonded(p).(status := WithdrawEnded, snapshot := EraSnapshot(1, 0, 0, 0, 10, 3))
  }

  lemma CollectionAnswered(before: World, limit: nat, period: nat, commission: nat) returns (w: World)
    requires At(before, limit,
                Bonded(ReadyPool(period, commission)).(status := WithdrawStarted,
                                                       snapshot := EraSnapshot(1, 0, 0, 0, 10, 2)),
                map[Packet(3) := SudoPayload("", TxEraCollectWithdraw)], 86400, 3)
    ensures At(w, limit, Collected(ReadyPool(period, commission)), map[], 86400, 3)
  {
    var pool := ReadyPool(period, commission);
    w := Answer(before, limit, Bonded(pool).(status := WithdrawStarted, snapshot := EraSnapshot(1, 0, 0, 0, 10, 2)),
                Packet(3), SudoPayload("", TxEraCollectWithdraw), Collected(pool), 86400, 3, 3);
  }

  lemma CollectedWorld(period: nat, commission: nat, limit: nat) returns (w: World)
    requires commission <= limit
    ensures At(w, limit, Collected(ReadyPool(period, commission)), map[], 86400, 3)
  {
    w := BondEndedWorld(period, commission, limit);
    w := Collecting(w, limit, period, commission);
    w := CollectionAnswered(w, limit, period, commission);
  }
}
