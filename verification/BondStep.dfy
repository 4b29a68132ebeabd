/** What the bond step of an era sends: it moves exactly the difference of the snapshot, and no
    delegating validator is left out. */
module BondStep {
  import opened Arith
  import opened Sums
  import opened Allocation
  import opened PoolTypes
  import opened PoolSteps
  import opened Worlds
  import opened UnbondWindow

  lemma {:induction false} UndelegationsTotal(infos: seq<UnbondInfo>)
    ensures Undelegated(Undelegations(infos)) == InfoTotal(infos) && Delegated(Undelegations(infos)) == 0
  {
    if infos != [] {
      UndelegationsTotal(infos[1..]);
      assert Undelegations(infos)[1..] == Undelegations(infos[1..]);
    }
  }

  lemma {:induction false} UndelegatesNothing(msgs: seq<RemoteMsg>)
    requires NoUndelegation(msgs)
    ensures Undelegated(msgs) == 0
  {
    if msgs != [] {
      UndelegatesNothing(msgs[1..]);
    }
  }

  lemma PlanExact(s: PoolState, query: Option<DelegationQuery>, now: nat)
    requires BondByUnbonding(s, query, now).Ok? && query.Some? && NoDup(query.value.delegations)
    ensures var (plan, rewards) := BondByUnbonding(s, query, now).value;
      && InfoTotal(plan.infos) == s.pool.snapshot.unbond - s.pool.snapshot.bond
      && NoDupInfos(plan.infos) && InfoNames(plan.infos) <= Names(query.value.delegations)
      && rewards == RewardOnly(query.value.delegations, plan.infos)
  {
    var ds, amount := query.value.delegations, s.pool.snapshot.unbond - s.pool.snapshot.bond;
    if amount != 0 {
      var period := PeriodSeconds(s.pool);
      SortNames(ds);
      AllotAdds(SortDesc(ds), amount, s.unbondTimes, now, period);
      AllotDistinct(SortDesc(ds), amount, s.unbondTimes, now, period);
    }
  }

  function NameSet(names: seq<string>): set<string> { set v | v in names }

  /** In an era that withdraws, the undelegations add up to the surplus of withdrawals, name no validator
      twice, and together with the reward withdrawals cover every delegating validator exactly once. */
  lemma UnbondingEraExact(s: PoolState, query: Option<DelegationQuery>, selected: seq<string>, now: nat, key: PacketKey)
    requires EraBond(s, query, selected, now, key).Ok? && s.pool.snapshot.unbond >= s.pool.snapshot.bond
    requires query.Some? ==> NoDup(query.value.delegations)
    ensures query.Some?
    ensures var e := EraBond(s, query, selected, now, key).value.effects;
      var chosen := Bonded(e.remote);
      && Undelegated(e.remote) == s.pool.snapshot.unbond - s.pool.snapshot.bond && Delegated(e.remote) == 0
      && Distinct(chosen) && NameSet(chosen) !! e.rewards
      && NameSet(chosen) + e.rewards == Names(query.value.delegations)
  {
    PlanExact(s, query, now);
    var infos := BondByUnbonding(s, query, now).value.0.infos;
    UndelegationsTotal(infos);
    BondedIsValidators(infos);
    ValidatorsNames(infos);
    EveryDelegationTouched(query.value.delegations, infos);
    assert NameSet(Validators(infos)) == InfoNames(infos);
  }

  /** In an era that deposits, the delegations add up to the surplus of deposits. */
  lemma BondingEraExact(s: PoolState, query: Option<DelegationQuery>, selected: seq<string>, now: nat, key: PacketKey)
    requires EraBond(s, query, selected, now, key).Ok? && s.pool.snapshot.unbond < s.pool.snapshot.bond
    ensures var e := EraBond(s, query, selected, now, key).value.effects;
      Delegated(e.remote) == s.pool.snapshot.bond - s.pool.snapshot.unbond && Undelegated(e.remote) == 0
        && e.rewards == {}
  {
    var amount := s.pool.snapshot.bond - s.pool.snapshot.unbond;
    SplitConserves(amount, selected);
    SharesOnlyDelegate(amount, selected, 0);
    SmallOnlyDelegates(amount, selected, 0);
    UndelegatesNothing(Shares(amount, selected, 0));
    UndelegatesNothing(Small(amount, selected, 0));
  }

  /** A direct delegation delegates exactly its amount and books nothing. */
  lemma DirectDelegationUnbooked(s: PoolState, sender: string, amount: nat)
    requires PoolDelegate(s, sender, amount).Ok?
    ensures var o := PoolDelegate(s, sender, amount).value;
      && o.state == s && sender == s.pool.config.admin
      && Delegated(o.effects.remote) == amount && Undelegated(o.effects.remote) == 0
      && o.effects.token == [] && o.effects.bank == []
  {
    SplitConserves(amount, s.pool.validators);
    SharesOnlyDelegate(amount, s.pool.validators, 0);
    UndelegatesNothing(Shares(amount, s.pool.validators, 0));
  }
}
