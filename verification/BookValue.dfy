/** What the active counter means: the delegations at the snapshot plus everything that came in and
    minus everything that went out since, whatever happens in the middle of the era. */
module BookValue {
  import opened Arith
  import Payload
  import opened PoolTypes
  import opened PoolSteps
  import opened Worlds
  import opened Flight
  import opened Solvency

  /** Until the bond step is acknowledged the deposits and withdrawals since the snapshot are what
      the counters exceed the snapshot by; afterwards they are the counters themselves. */
  predicate Balanced(p: PoolInfo, lsm: nat) {
    var b := p.book;
    && (BeforeBond(p.status) ==>
          b.active - p.snapshot.active == (b.bond - p.snapshot.bond) - (b.unbond - p.snapshot.unbond) + lsm)
    && (AfterBond(p.status) ==> b.active - p.snapshot.active == b.bond - b.unbond + lsm)
  }

  lemma SetupBalanced(s: PoolState, a: Action, now: nat, lsm: nat)
    requires Balanced(s.pool, lsm) && (a.DoInitPool? || a.DoMigratePool?) && ApplyAdmin(s, a, now).Ok?
    ensures Balanced(ApplyAdmin(s, a, now).value.state.pool, lsm)
  {
  }

  lemma AdminBalanced(s: PoolState, a: Action, now: nat, lsm: nat)
    requires Balanced(s.pool, lsm) && ByAdmin(a) && ApplyAdmin(s, a, now).Ok?
    ensures Balanced(ApplyAdmin(s, a, now).value.state.pool, lsm)
  {
    if a.DoInitPool? || a.DoMigratePool? {
      SetupBalanced(s, a, now, lsm);
    }
  }

  lemma UserBalanced(s: PoolState, a: Action, lsm: nat)
    requires Balanced(s.pool, lsm) && ByUser(a) && ApplyUser(s, a).Ok?
    ensures Balanced(ApplyUser(s, a).value.state.pool, lsm)
  {
  }

  /** A callback arrives in the phase that sent its packet, so it moves the balance along. */
  lemma CallbackBalanced(s: PoolState, payload: SudoPayload, now: nat, height: nat, lsm: nat)
    requires Balanced(s.pool, lsm) && Fits(payload.txType, s.pool)
    requires s.pool.validatorUpdate != End ==> s.pool.status == ActiveEnded
    requires Callback(s, payload, now, height).Ok?
    ensures var after := Callback(s, payload, now, height).value.state;
      if payload.txType == TxStakeLsm
      then after.pool.book.active >= s.pool.book.active
           && Balanced(after.pool, lsm + (after.pool.book.active - s.pool.book.active))
      else Balanced(after.pool, lsm)
  {
  }

  lemma FailedCallbackBalanced(s: PoolState, payload: SudoPayload, lsm: nat)
    requires Balanced(s.pool, lsm) && Fits(payload.txType, s.pool)
    requires s.pool.validatorUpdate != End ==> s.pool.status == ActiveEnded
    requires FailedCallback(s, payload).Ok?
    ensures Balanced(FailedCallback(s, payload).value.state.pool, lsm)
  {
  }

  lemma EraUpdateBalanced(s: PoolState, now: nat, height: nat, key: PacketKey)
    requires EraUpdate(s, now, height, key).Ok?
    ensures Balanced(EraUpdate(s, now, height, key).value.state.pool, 0)
  {
  }

  /** The end of the era is outside the balance: it starts anew with the next snapshot. */
  lemma EraActiveBalanced(s: PoolState, query: Option<DelegationQuery>, lsm: nat)
    requires EraActive(s, query).Ok?
    ensures Balanced(EraActive(s, query).value.state.pool, lsm)
  {
  }

  lemma StepBalanced(s: PoolState, a: Action, now: nat, height: nat, lsm: nat)
    requires Balanced(s.pool, lsm)
      && (a.DoEraUpdate? || a.DoEraBond? || a.DoCollectWithdraw? || a.DoRebond? || a.DoEraActive?)
    requires ApplyEra(s, a, now, height).Ok?
    ensures Balanced(ApplyEra(s, a, now, height).value.state.pool, if a.DoEraUpdate? then 0 else lsm)
  {
    match a
    case DoEraUpdate(key) => EraUpdateBalanced(s, now, height, key);
    case DoEraBond(query, selected, key) => EraBondShape(s, query, selected, now, key);
    case DoEraActive(query) => EraActiveBalanced(s, query, lsm);
    case _ =>
  }

  lemma DeliverBalanced(s: PoolState, slot: Option<PacketKey>, key: PacketKey, success: bool, now: nat, height: nat,
                        lsm: nat)
    requires SingleFlight(s, slot) && Balanced(s.pool, lsm) && Deliver(s, key, success, now, height).Ok?
    ensures var after := Deliver(s, key, success, now, height).value.state;
      Balanced(after.pool, Lsm(lsm, s, DoDeliver(key, success), after))
  {
    var s1 := s.(mail := s.mail.(sudoPayloads := s.mail.sudoPayloads - {key}));
    var payload := s.mail.sudoPayloads[key];
    assert Fits(payload.txType, s.pool);
    if success {
      CallbackBalanced(s1, payload, now, height, lsm);
    } else {
      FailedCallbackBalanced(s1, payload, lsm);
    }
  }

  /** Every message keeps the balance. */
  lemma BalancedKept(w: World, e: Event)
    requires SingleFlight(w.s, w.h.slot) && Balanced(w.s.pool, w.h.lsm)
    ensures Balanced(Next(w, e).s.pool, Next(w, e).h.lsm)
  {
    var s, a := w.s, e.action;
    if Apply(s, a, e.now, e.height).Ok? {
      if a.DoConfigStack? {
      } else if ByAdmin(a) {
        AdminBalanced(s, a, e.now, w.h.lsm);
      } else if ByUser(a) {
        UserBalanced(s, a, w.h.lsm);
      } else if a.DoDeliver? {
        DeliverBalanced(s, w.h.slot, a.key, a.success, e.now, e.height, w.h.lsm);
      } else {
        StepBalanced(s, a, e.now, e.height, w.h.lsm);
      }
    }
  }

  /** What the active stake should be at the end of an era: the reported delegations, what waits to be
      bonded, minus what waits to be unbonded, plus the liquid shares taken since the snapshot. */
  function BookTotal(reported: nat, bond: nat, unbond: nat, lsm: nat): nat {
    if reported + bond + lsm > unbond then reported + bond + lsm - unbond else 0
  }

  /** era_active sets the active stake to exactly that, or, when the first-stake correction applies,
      to at most 999 more. */
  lemma EraActiveSetsBookTotal(s: PoolState, query: Option<DelegationQuery>, lsm: nat)
    requires Balanced(s.pool, lsm) && Healthy(s) && EraActive(s, query).Ok?
    ensures query.Some? && SumDelegations(query.value.delegations, 0).Ok?
    ensures var before := s.pool.book;
      var after := EraActive(s, query).value.state.pool.book;
      var expected := BookTotal(SumDelegations(query.value.delegations, 0).value, before.bond, before.unbond, lsm);
      && after.bond == before.bond && after.unbond == before.unbond
      && expected <= after.active < expected + 1000
      && (before.rate != DEFAULT_RATE || after.rate != DEFAULT_RATE ==> after.active == expected)
  {
    var reported := SumDelegations(query.value.delegations, 0).value;
    var after := EraActive(s, query).value.state;
    var c := EraActiveCloses(s, query);
    assert AfterBond(s.pool.status);
    assert c.newActive == BookTotal(reported, s.pool.book.bond, s.pool.book.unbond, lsm);
    if c.keep {
      CorrectionIsRounding(s, reported, c, after);
    }
  }
}
