/** How short an unbonding period may be. With two eras or more no unstake is paid out before a bond step
    has covered it; with fewer there is a run in which one is. */
module EarlyWithdrawal {
  import opened Arith
  import opened Sums
  import opened Payload
  import opened PoolTypes
  import opened PoolSteps
  import opened Worlds
  import opened Settlements
  import opened Withdrawals
  import opened Reachability
  import opened Safety
  import opened FirstEra

  /** Whatever happens, withdrawals at this unbonding period name covered unstakes only. */
  ghost predicate PaysCoveredOnly(period: nat) {
    forall w, sender, receiver, indices, key, i ::
      Reachable(w) && w.s.pool.clock.unbondingPeriod == period && Withdraw(w.s, sender, receiver, indices, key).Ok?
      ==> i in indices ==> i !in w.h.settlement.unsettled
  }

  // A short run: a user of a new pool stakes 100 and unstakes 50, and the next era begins. Its deposits are
  // still on their way when the user withdraws.

  function NewPool(period: nat): PoolInfo { ReadyPool(period, 100_000) }

  ghost predicate IsStaked(w: World, period: nat) {
    At(w, CAL_BASE, NewPool(period).(book := Book(100, 0, 100, CAL_BASE, 100, 0)), map[], 0, 0)
  }

  ghost predicate IsUnstaked(w: World, period: nat) {
    && Reachable(w) && w.now == 0 && w.height == 0 && w.s.mail.sudoPayloads == map[]
    && w.s.pool == NewPool(period).(book := Book(100, 50, 50, CAL_BASE, 50, 0), nextUnstakeIndex := 1)
    && w.s.ledger.unstakes == map[1 := UnstakeInfo(0, "user", 45, Default, 1)] && 1 in w.h.settlement.unsettled
  }

  ghost predicate IsBegun(w: World, period: nat) {
    && Reachable(w) && w.s.pool.clock == Clock(1, 86400, 0, period)
    && w.s.ledger.unstakes == map[1 := UnstakeInfo(0, "user", 45, Default, 1)] && 1 in w.h.settlement.unsettled
  }

  lemma StakedWorld(period: nat) returns (w: World)
    ensures IsStaked(w, period)
  {
    var before := Ready(period, 100_000, CAL_BASE);
    var e := Event(DoStake("user", 100), 0, 0);
    ReachableNext(before, e, CAL_BASE);
    assert MulDiv(100, CAL_BASE, CAL_BASE) == Ok(100);
    w := Next(before, e);
  }

  lemma UnstakeOfFifty(s: PoolState, period: nat)
    requires s.pool == NewPool(period).(book := Book(100, 0, 100, CAL_BASE, 100, 0)) && s.ledger == Ledger(map[], map[])
    ensures Unstake(s, "user", 50).Ok?
    ensures var after := Unstake(s, "user", 50).value.state;
      && after.pool == NewPool(period).(book := Book(100, 50, 50, CAL_BASE, 50, 0), nextUnstakeIndex := 1)
      && after.ledger.unstakes == map[1 := UnstakeInfo(0, "user", 45, Default, 1)] && after.mail == s.mail
  {
    assert MulDiv(50, CAL_BASE, CAL_BASE) == Ok(50);
  }

  lemma UserIsAddress()
    ensures IsAddress("user")
  {
    assert !IsDigit("user"[0]);
  }

  lemma UnstakedWorld(before: World, period: nat) returns (w: World)
    requires IsStaked(before, period)
    ensures IsUnstaked(w, period)
  {
    UserIsAddress();
    var e := Event(DoUnstake("user", 50), 0, 0);
    ReachableNext(before, e, CAL_BASE);
    UnstakeOfFifty(before.s, period);
    w := Next(before, e);
  }

  lemma DepositingEra(s: PoolState, period: nat)
    requires s.pool == NewPool(period).(book := Book(100, 50, 50, CAL_BASE, 50, 0), nextUnstakeIndex := 1)
    ensures EraUpdate(s, 86400, 1, Packet(1)).Ok?
    ensures var after := EraUpdate(s, 86400, 1, Packet(1)).value.state;
      after.pool.clock == Clock(1, 86400, 0, period) && after.ledger == s.ledger
  {
    assert CurrentEra(86400, 86400, 0) == Ok(1);
  }

  lemma BegunWorld(before: World, period: nat) returns (w: World)
    requires IsUnstaked(before, period)
    ensures IsBegun(w, period)
  {
    var e := Event(DoEraUpdate(Packet(1)), 86400, 1);
    ReachableNext(before, e, CAL_BASE);
    DepositingEra(before.s, period);
    w := Next(before, e);
  }

  lemma ShortRun(period: nat) returns (w: World)
    ensures IsBegun(w, period)
  {
    w := StakedWorld(period);
    w := UnstakedWorld(w, period);
    w := BegunWorld(w, period);
  }

  /** With a shorter period that withdrawal is accepted. */
  lemma PaidTooEarly(w: World, period: nat)
    requires period < 2 && IsBegun(w, period)
    ensures Withdraw(w.s, "user", "user", [1], Packet(2)).Ok? && 1 in w.h.settlement.unsettled
  {
    var table := w.s.ledger.unstakes;
    assert [1][1..] == [];
    assert MarkPending(table[1 := table[1].(status := Pending)], [], "user", 1, period, 45).Ok?;
  }

  /** Two eras are exactly what it takes. */
  lemma TwoErasSuffice(period: nat)
    ensures PaysCoveredOnly(period) <==> period >= 2
  {
    if period >= 2 {
      forall w, sender, receiver, indices, key, i |
        Reachable(w) && w.s.pool.clock.unbondingPeriod == period && Withdraw(w.s, sender, receiver, indices, key).Ok?
          && i in indices
        ensures i !in w.h.settlement.unsettled
      {
        ReachableSafe(w);
        PaidUnstakesSettled(w.s, sender, receiver, indices, key, w.h.settlement);
      }
    } else {
      var w := ShortRun(period);
      PaidTooEarly(w, period);
      assert 1 in [1];
    }
  }
}
