/** The platform commission must be a share. The contract does not check it, and a run in which it is more
    than the whole gain leaves the pool insolvent. */
module Commission {
  import opened Arith
  import opened Allocation
  import opened PoolTypes
  import opened PoolSteps
  import opened Worlds
  import opened Solvency
  import opened Reachability
  import opened Safety
  import opened FirstEra

  /** The gain that shows it: one token if that is enough, otherwise a million. */
  function SmallGain(commission: nat): nat {
    if commission >= 2 * CAL_BASE then 1 else CAL_BASE
  }

  function GainQuery(commission: nat): Option<DelegationQuery> {
    Some(DelegationQuery([Delegation("v", SmallGain(commission))], 3))
  }

  lemma OverchargeRaw(gain: nat, commission: nat)
    requires CAL_BASE < commission <= U128_MAX && gain == SmallGain(commission)
    ensures MulDiv(gain, commission, CAL_BASE).Ok?
    ensures gain < MulDiv(gain, commission, CAL_BASE).value <= U128_MAX
  {
    if commission >= 2 * CAL_BASE {
      assert gain * commission == commission;
    } else {
      assert gain * commission == CAL_BASE * commission;
    }
  }

  lemma OverchargeRate(gain: nat, raw: nat)
    requires 0 < gain < raw && gain * CAL_BASE <= U128_MAX
    ensures MulDiv(gain, CAL_BASE, raw).Ok? && MulDiv(gain, CAL_BASE, raw).value < CAL_BASE
    ensures MulDiv(gain, CAL_BASE, raw).value * raw <= gain * CAL_BASE
  {
    var q := MulDiv(gain, CAL_BASE, raw).value;
    MulLe(gain + 1, raw, CAL_BASE);
    if CAL_BASE <= q {
      MulLe(CAL_BASE, q, raw);
    }
  }

  /** Closing the era of an empty pool with that gain mints more fee than there is stake, and the
      first-stake correction then puts the stake back to nothing at the old rate. */
  lemma OverchargedEra(s: PoolState, period: nat, commission: nat)
    requires s.pool == FirstEra.Bonded(ReadyPool(period, commission)).(status := RebondEnded)
    requires s.stack.feeCommission == 0
    requires CAL_BASE < commission <= U128_MAX
    ensures EraActive(s, GainQuery(commission)).Ok?
    ensures !Solvent(EraActive(s, GainQuery(commission)).value.state.pool.book)
  {
    var gain := SmallGain(commission);
    var ds := [Delegation("v", gain)];
    assert ds[1..] == [];
    assert SumDelegations(ds, 0) == Ok(gain);
    OverchargeRaw(gain, commission);
    var raw := MulDiv(gain, commission, CAL_BASE).value;
    assert EraFees(s.pool, 0, gain) == Ok(Fees(raw, 0)) by {
      assert MulDiv(raw, 0, CAL_BASE) == Ok(0);
    }
    OverchargeRate(gain, raw);
  }

  lemma OverchargedRun(commission: nat) returns (w: World)
    requires CAL_BASE < commission <= U128_MAX
    ensures ReachableWithin(w, commission) && !Solvent(w.s.pool.book)
  {
    var before := RebondEndedWorld(2, commission, commission);
    OverchargedEra(before.s, 2, commission);
    var e := Event(DoEraActive(GainQuery(commission)), 86400, 3);
    ReachableNext(before, e, commission);
    w := Next(before, e);
  }

  /** No run in which every commission is within the limit leaves the pool insolvent. */
  ghost predicate SafeLimit(limit: nat) {
    forall w :: ReachableWithin(w, limit) ==> Solvent(w.s.pool.book)
  }

  /** That is so exactly when the limit is at most the whole gain. */
  lemma SafeCommissions(limit: nat)
    requires limit <= U128_MAX
    ensures SafeLimit(limit) <==> limit <= CAL_BASE
  {
    if limit <= CAL_BASE {
      forall w | ReachableWithin(w, limit) ensures Solvent(w.s.pool.book) {
        var d, now: nat, height: nat, events :| now <= MAX_SECONDS && RunTo(Genesis(d, now, height), events, w, limit);
        OrderlyWithin(Genesis(d, now, height), events, limit, CAL_BASE);
        EveryRunSafe(d, now, height, events);
      }
    } else {
      var w := OverchargedRun(limit);
    }
  }
}
