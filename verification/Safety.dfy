/** The invariants together, over every run from a freshly registered pool, and what follows from them
    for whoever uses the pool. */
module Safety {
  import opened Arith
  import opened Sums
  import opened Allocation
  import opened Payload
  import opened PoolTypes
  import opened PoolSteps
  import opened Worlds
  import opened Reachability
  import opened Flight
  import opened Solvency
  import opened BookValue
  import opened Settlements
  import opened UnstakeLedger
  import opened Withdrawals
  import opened LiquidShares
  import UnbondWindow
  import EraClock

  ghost predicate Inv(w: World) {
    && SingleFlight(w.s, w.h.slot)
    && Healthy(w.s)
    && Balanced(w.s.pool, w.h.lsm)
    && Accounted(w.s.pool, w.h.settlement)
    && LedgerOk(w.s.ledger, w.s.mail.sudoPayloads, w.h.settlement.issued, w.h.payouts)
    && (w.h.patient ==> Waiting(w.s.ledger.unstakes, w.h.settlement.unsettled))
    && AllSpelled(w.s.mail.sudoPayloads)
  }

  lemma InvStart(d: Deployment, now: nat, height: nat)
    ensures Inv(Genesis(d, now, height))
  {
    SumByEmpty<nat, Issue>(Tokens());
    SumByEmpty<nat, UnstakeInfo>(Open());
    SumByEmpty<PacketKey, Ticket>(Due());
  }

  lemma InvKept(w: World, e: Event)
    requires Inv(w) && Allowed(w, e)
    ensures Inv(Next(w, e))
  {
    SingleFlightKept(w, e);
    HealthyKept(w, e);
    BalancedKept(w, e);
    AccountedKept(w, e);
    LedgerKept(w, e);
    WaitingKept(w, e);
    SpelledKept(w, e);
  }

  lemma {:induction false} InvRun(w: World, events: seq<Event>)
    requires Inv(w) && AllAllowed(w, events)
    ensures Inv(Run(w, events))
    decreases |events|
  {
    if events != [] {
      InvKept(w, events[0]);
      InvRun(Next(w, events[0]), events[1..]);
    }
  }

  /** Everything holds after every run of a new pool. */
  lemma EveryRunSafe(d: Deployment, now: nat, height: nat, events: seq<Event>)
    requires AllAllowed(Genesis(d, now, height), events)
    ensures Inv(Run(Genesis(d, now, height), events))
  {
    InvStart(d, now, height);
    InvRun(Genesis(d, now, height), events);
  }

  lemma ReachableSafe(w: World)
    requires Reachable(w)
    ensures Inv(w)
  {
    var d, now: nat, height: nat, events :| now <= MAX_SECONDS && RunTo(Genesis(d, now, height), events, w, CAL_BASE);
    EveryRunSafe(d, now, height, events);
  }

  // ---- Callbacks ----

  lemma WithdrawalAnswered(w: World, key: PacketKey)
    requires Inv(w) && key in w.s.mail.sudoPayloads && w.s.mail.sudoPayloads[key].txType == TxUserWithdraw
    ensures PaidOut(w.s.ledger, w.s.mail.sudoPayloads[key].message).Ok?
    ensures Reverted(w.s.ledger, w.s.mail.sudoPayloads[key].message).Ok?
  {
    assert forall i :: i in w.h.settlement.issued ==> i <= U64_MAX;
    PaidLedger(w.s.ledger, w.s.mail.sudoPayloads, key, w.h.settlement.issued, w.h.payouts);
    FailedLedger(w.s.ledger, w.s.mail.sudoPayloads, key, w.h.settlement.issued, w.h.payouts);
  }

  lemma WithdrawalDelivered(s: PoolState, key: PacketKey, success: bool, now: nat, height: nat)
    requires key in s.mail.sudoPayloads && s.mail.sudoPayloads[key].txType == TxUserWithdraw
    requires PaidOut(s.ledger, s.mail.sudoPayloads[key].message).Ok?
    requires Reverted(s.ledger, s.mail.sudoPayloads[key].message).Ok?
    ensures Deliver(s, key, success, now, height).Ok?
  {
  }

  lemma EraPacketDelivered(w: World, key: PacketKey, success: bool, now: nat, height: nat)
    requires Inv(w) && key in w.s.mail.sudoPayloads && !UserPacket(w.s.mail.sudoPayloads[key].txType)
    ensures Deliver(w.s, key, success, now, height).Ok?
  {
    EraCallbackAccepted(w.s, w.h.slot, key, success, now, height);
  }

  /** The liquid-share packets: a redemption can always be answered, a stake can always fail, and it can
      succeed exactly when it can be booked. */
  lemma SharePacketDelivered(s: PoolState, key: PacketKey, success: bool, now: nat, height: nat)
    requires key in s.mail.sudoPayloads && AllSpelled(s.mail.sudoPayloads)
    requires s.mail.sudoPayloads[key].txType == TxStakeLsm || s.mail.sudoPayloads[key].txType == TxRedeemShares
    ensures Deliver(s, key, success, now, height).Ok? <==> !Unbookable(s, key, success)
  {
    var payload := s.mail.sudoPayloads[key];
    if payload.txType == TxStakeLsm {
      StakeAnswered(s.(mail := s.mail.(sudoPayloads := s.mail.sudoPayloads - {key})), payload.message);
    }
  }

  /** The success of a liquid-share stake whose booking or mint would leave 128 bits, or find no rate. */
  predicate Unbookable(s: PoolState, key: PacketKey, success: bool)
    requires key in s.mail.sudoPayloads
    requires s.mail.sudoPayloads[key].txType == TxStakeLsm ==> Spelled(s.mail.sudoPayloads[key].message)
  {
    success && s.mail.sudoPayloads[key].txType == TxStakeLsm
    && !Bookable(s.pool.book, Worth(s.mail.sudoPayloads[key].message))
  }

  /** No callback can get stuck: whatever is out can be acknowledged and can fail, but for the one case of
      a liquid-share stake that cannot be booked. In particular no subtraction of a callback underflows. */
  lemma CallbacksAccepted(w: World, key: PacketKey, success: bool, now: nat, height: nat)
    requires Inv(w) && key in w.s.mail.sudoPayloads
    ensures Deliver(w.s, key, success, now, height).Ok? <==> !Unbookable(w.s, key, success)
  {
    if w.s.mail.sudoPayloads[key].txType == TxUserWithdraw {
      WithdrawalAnswered(w, key);
      WithdrawalDelivered(w.s, key, success, now, height);
    } else if UserPacket(w.s.mail.sudoPayloads[key].txType) {
      SharePacketDelivered(w.s, key, success, now, height);
    } else {
      EraPacketDelivered(w, key, success, now, height);
    }
  }

  // ---- Settlement ----

  /** The unbond counter of a pool whose period has always been at least two eras, and that was not
      migrated: the amounts of the records waiting for their bond step, and 5 for each. */
  lemma CounterOfPatientPool(w: World)
    requires Inv(w) && w.h.patient && w.h.settlement.carried == 0
    ensures w.s.pool.book.unbond == SumBy(Uncovered(w.s.ledger.unstakes, w.h.settlement.unsettled), Needed())
  {
    CounterIsUncovered(w.s, w.h.settlement);
  }

  lemma {:induction false} NothingCarried(w: World, events: seq<Event>)
    requires w.h.settlement.carried == 0 && forall i :: 0 <= i < |events| ==> !events[i].action.DoMigratePool?
    ensures Run(w, events).h.settlement.carried == 0
    decreases |events|
  {
    if events != [] {
      CarriedStaysZero(w, events[0]);
      NothingCarried(Next(w, events[0]), events[1..]);
    }
  }

  /** In particular for every run of a new pool without a migration. */
  lemma CounterOfNewPool(d: Deployment, now: nat, height: nat, events: seq<Event>)
    requires AllAllowed(Genesis(d, now, height), events)
    requires forall i :: 0 <= i < |events| ==> !events[i].action.DoMigratePool?
    requires Run(Genesis(d, now, height), events).h.patient
    ensures var end := Run(Genesis(d, now, height), events);
      && Waiting(end.s.ledger.unstakes, end.h.settlement.unsettled)
      && end.s.pool.book.unbond == SumBy(Uncovered(end.s.ledger.unstakes, end.h.settlement.unsettled), Needed())
  {
    EveryRunSafe(d, now, height, events);
    NothingCarried(Genesis(d, now, height), events);
    CounterOfPatientPool(Run(Genesis(d, now, height), events));
  }

  // ---- The unbonding window ----

  /** The bond steps of a run all use a period of at least `span` seconds. */
  predicate PeriodsAtLeast(w: World, events: seq<Event>, span: nat)
    decreases |events|
  {
    events == [] || ((events[0].action.DoEraBond? ==> span <= UnbondWindow.PeriodSeconds(w.s.pool))
                     && PeriodsAtLeast(Next(w, events[0]), events[1..], span))
  }

  lemma {:induction false} WindowRun(w: World, events: seq<Event>, span: nat)
    requires SingleFlight(w.s, w.h.slot) && AllAllowed(w, events) && PeriodsAtLeast(w, events, span)
    requires UnbondWindow.Watched(w.s, w.h.window, w.now, span)
    ensures var end := Run(w, events); UnbondWindow.Watched(end.s, end.h.window, end.now, span)
    decreases |events|
  {
    if events != [] {
      SingleFlightKept(w, events[0]);
      UnbondWindow.WatchedKept(w, events[0], span);
      WindowRun(Next(w, events[0]), events[1..], span);
    }
  }

  lemma WindowGenesis(d: Deployment, now: nat, height: nat, span: nat)
    ensures var w := Genesis(d, now, height);
      SingleFlight(w.s, w.h.slot) && UnbondWindow.Watched(w.s, w.h.window, w.now, span)
  {
  }

  /** Over every run: the times kept for a validator are in order and at most seven, and of any eight
      undelegations in a row the last is submitted more than the period after the first is acknowledged. */
  lemma EighthWaits(d: Deployment, now: nat, height: nat, events: seq<Event>,
                    span: nat, v: string)
    requires AllAllowed(Genesis(d, now, height), events)
    requires PeriodsAtLeast(Genesis(d, now, height), events, span)
    ensures var end := Run(Genesis(d, now, height), events);
      v in end.s.unbondTimes ==>
        && v in end.h.window.acks && v in end.h.window.submits
        && UnbondWindow.WithinLimit(end.s.unbondTimes[v], end.h.window.acks[v], end.h.window.submits[v], span)
  {
    var start := Genesis(d, now, height);
    WindowGenesis(d, now, height, span);
    WindowRun(start, events, span);
    var end := Run(start, events);
    if v in end.s.unbondTimes {
      UnbondWindow.ValidatorWithin(end.s.unbondTimes, end.h.window.acks, end.h.window.submits, end.now, span, v);
    }
  }

  lemma {:induction false} AnyPeriods(w: World, events: seq<Event>)
    ensures PeriodsAtLeast(w, events, 0)
    decreases |events|
  {
    if events != [] {
      AnyPeriods(Next(w, events[0]), events[1..]);
    }
  }

  /** Over every run: a validator of which fewer than seven undelegations were acknowledged within the period
      can be undelegated from. */
  lemma FewRecentUsable(d: Deployment, start: nat, height: nat, events: seq<Event>, v: string, now: nat, period: nat)
    requires AllAllowed(Genesis(d, start, height), events)
    requires UnbondWindow.FewRecent(Run(Genesis(d, start, height), events).h.window.acks, v, now, period)
    ensures Allocation.Eligible(Run(Genesis(d, start, height), events).s.unbondTimes, v, now, period)
  {
    var begin := Genesis(d, start, height);
    AnyPeriods(begin, events);
    WindowGenesis(d, start, height, 0);
    WindowRun(begin, events, 0);
    var end := Run(begin, events);
    UnbondWindow.FewRecentEligible(end.s.unbondTimes, end.h.window.acks, end.h.window.submits, end.now, 0, v, now,
                                   period);
  }

  // ---- The clock ----

  /** Whoever migrates a pool brings a clock that is on time. */
  predicate MigratesOnTime(w: World, events: seq<Event>)
    decreases |events|
  {
    events == []
      || (EraClock.MigratedOnTime(w.s, events[0].action, events[0].now)
          && MigratesOnTime(Next(w, events[0]), events[1..]))
  }

  lemma {:induction false} ClockRun(w: World, events: seq<Event>)
    requires SingleFlight(w.s, w.h.slot) && AllAllowed(w, events) && MigratesOnTime(w, events)
    requires EraClock.ClockOk(w.s.pool, w.now)
    ensures EraClock.ClockOk(Run(w, events).s.pool, Run(w, events).now)
    decreases |events|
  {
    if events != [] {
      SingleFlightKept(w, events[0]);
      EraClock.ClockKept(w, events[0]);
      ClockRun(Next(w, events[0]), events[1..]);
    }
  }

  /** Over every run the computed era is exact, never past the block time, and the pool's era is never
      past it. */
  lemma EraNeverAhead(d: Deployment, now: nat, height: nat, events: seq<Event>)
    requires AllAllowed(Genesis(d, now, height), events) && now <= MAX_SECONDS
    requires MigratesOnTime(Genesis(d, now, height), events)
    ensures var end := Run(Genesis(d, now, height), events);
      end.s.pool.status != RegisterEnded ==>
        var computed := CurrentEra(end.now, end.s.pool.clock.eraSeconds, end.s.pool.clock.offset);
        computed.Ok? && end.s.pool.clock.era <= computed.value <= end.now
  {
    var start := Genesis(d, now, height);
    WindowGenesis(d, now, height, 0);
    ClockRun(start, events);
    TimeWithin(start, events);
    var end := Run(start, events);
    if end.s.pool.status != RegisterEnded {
      EraClock.NoClipping(end.s.pool.clock, end.now);
    }
  }

  lemma {:induction false} TimeWithin(w: World, events: seq<Event>)
    requires AllAllowed(w, events) && w.now <= MAX_SECONDS
    ensures w.now <= Run(w, events).now <= MAX_SECONDS
    decreases |events|
  {
    if events != [] {
      TimeWithin(Next(w, events[0]), events[1..]);
    }
  }

  /** Whatever happens to a pool that is set up, the computed era never goes down. */
  lemma {:induction false} EraNeverFalls(w: World, events: seq<Event>)
    requires SingleFlight(w.s, w.h.slot) && AllAllowed(w, events) && MigratesOnTime(w, events)
    requires w.s.pool.status != RegisterEnded && EraClock.OnTime(w.s.pool.clock, w.now)
    ensures Run(w, events).s.pool.clock.eraSeconds > 0
    ensures EraClock.Reading(Run(w, events).s.pool.clock, Run(w, events).now) >= EraClock.Reading(w.s.pool.clock, w.now)
    decreases |events|
  {
    if events != [] {
      SingleFlightKept(w, events[0]);
      EraClock.ClockKept(w, events[0]);
      EraClock.StaysSetUp(w, events[0]);
      EraNeverFalls(Next(w, events[0]), events[1..]);
    }
  }
}
