/** What each message of an administrator comes to: who may send it, which values it takes, and which fields
    it sets. */
module AdminMessages {
  import opened Arith
  import opened Sums
  import opened Allocation
  import opened Payload
  import opened PoolTypes
  import opened PoolSteps
  import opened Worlds
  import opened EraClock
  import opened UserMessages

  // ---- Setting a pool up ----

  /** One to ten validators. */
  predicate SomeValidators(vals: seq<string>) { 1 <= |vals| <= 10 }

  /** Both administrators set a pool up: once, or again after the set-up of the remote account has failed. */
  lemma InitAccepted(s: PoolState, sender: string, params: InitParams, now: nat, key: PacketKey)
    ensures InitPool(s, sender, params, now, key).Ok? <==>
      && sender == s.stack.admin == s.pool.config.admin && SomeValidators(params.validators)
      && (s.pool.status == InitFailed
          || (s.pool.status == RegisterEnded && (params.eraSeconds.Some? ==> params.eraSeconds.value >= 28800)))
  {
  }

  /** The record of a new pool: empty, at rate one, in era 0 by its own clock, with the parameters given. */
  lemma InitExact(s: PoolState, sender: string, params: InitParams, now: nat, key: PacketKey)
    requires InitPool(s, sender, params, now, key).Ok? && s.pool.status == RegisterEnded && now <= MAX_SECONDS
    ensures var o := InitPool(s, sender, params, now, key).value;
      var eraSeconds := if params.eraSeconds.Some? then params.eraSeconds.value else 86400;
      && eraSeconds > 0
      && o.state.pool.book == Book(0, 0, 0, 1_000_000, 0, 0)
      && o.state.pool.clock == Clock(0, eraSeconds, -(now / eraSeconds), params.unbondingPeriod)
      && o.state.pool.config
         == Config(s.pool.config.admin, false, params.minimalStake, 20, 0,
                   if params.platformFeeCommission.Some? then params.platformFeeCommission.value else 100_000,
                   params.platformFeeReceiver, false, 100, 0)
      && o.state.pool == s.pool.(book := o.state.pool.book, clock := o.state.pool.clock, config := o.state.pool.config,
                                 status := InitStarted, validators := params.validators, validatorUpdate := End,
                                 nextUnstakeIndex := 0, shareTokens := s.pool.shareTokens.(pending := []))
      && SetUpWith(s, o, key)
  {
    var eraSeconds := params.eraSeconds.GetOr(DEFAULT_ERA_SECONDS);
    QuotientMonotone(0, now, eraSeconds);
    SmallWord(now / eraSeconds);
  }

  /** The rate of the first era is noted, the stack has no fee yet, and the packet is out. */
  predicate SetUpWith(s: PoolState, o: Outcome, key: PacketKey) {
    var p := o.state.pool;
    && o.state.stack == s.stack.(eraRate := s.stack.eraRate[p.clock.era := p.book.rate], totalFee := 0)
    && o.state == s.(pool := p, stack := o.state.stack, mail := o.state.mail)
    && o.state.mail.sudoPayloads == s.mail.sudoPayloads[key := SudoPayload("", TxSetWithdrawAddr)]
    && o.effects == Effects([], [], {}, [])
  }

  /** A pool is imported by its administrator, at the rate that its own numbers give. */
  lemma MigrateAccepted(s: PoolState, sender: string, params: MigrateParams, key: PacketKey)
    ensures MigratePool(s, sender, params, key).Ok? <==>
      && sender == s.pool.config.admin && SomeValidators(params.validators)
      && (s.pool.status == InitFailed
          || (s.pool.status == RegisterEnded && params.rate > 0
              && if params.totalLsd == 0 then params.rate == 1_000_000
                 else params.active * 1_000_000 <= U128_MAX
                      && RoundsDown(params.rate, params.active * 1_000_000, params.totalLsd)))
  {
    if params.totalLsd > 0 && MulDiv(params.active, 1_000_000, params.totalLsd).Ok? {
      var rate := MulDiv(params.active, 1_000_000, params.totalLsd).value;
      if RoundsDown(params.rate, params.active * 1_000_000, params.totalLsd) {
        OneQuotient(params.rate, rate, params.active * 1_000_000, params.totalLsd);
      }
    }
  }

  lemma MigrateExact(s: PoolState, sender: string, params: MigrateParams, key: PacketKey)
    requires MigratePool(s, sender, params, key).Ok? && s.pool.status == RegisterEnded
    ensures var o := MigratePool(s, sender, params, key).value;
      && o.state.pool.book
         == Book(params.bond, params.unbond, params.active, params.rate, params.totalLsd, params.totalPlatformFee)
      && o.state.pool.clock == Clock(params.era, params.eraSeconds, params.offset, params.unbondingPeriod)
      && o.state.pool.config
         == Config(s.pool.config.admin, false, params.minimalStake, 20, 0,
                   if params.platformFeeCommission.Some? then params.platformFeeCommission.value else 100_000,
                   params.platformFeeReceiver, true, 50, 0)
      && o.state.pool == s.pool.(book := o.state.pool.book, clock := o.state.pool.clock, config := o.state.pool.config,
                                 status := InitStarted, validators := params.validators, validatorUpdate := End,
                                 nextUnstakeIndex := 0,
                                 shareTokens := s.pool.shareTokens.(pending := params.shareTokens))
      && SetUpWith(s, o, key)
  {
  }

  /** A retry sends the packet again and changes nothing else. */
  lemma RetryExact(s: PoolState, a: Action, now: nat)
    requires (a.DoInitPool? || a.DoMigratePool?) && ApplyAdmin(s, a, now).Ok? && s.pool.status == InitFailed
    ensures Key(a).Some?
    ensures var o := ApplyAdmin(s, a, now).value;
      && o.state == s.(mail := o.state.mail) && o.effects == Effects([], [], {}, [])
      && o.state.mail.sudoPayloads == s.mail.sudoPayloads[Key(a).value := SudoPayload("", TxSetWithdrawAddr)]
  {
  }

  // ---- Settings ----

  /** A parameter that is given replaces the value; otherwise the value stays. */
  predicate Sets<T(==)>(given: Option<T>, before: T, after: T) {
    match given
    case Some(value) => after == value
    case None => after == before
  }

  /** On a clock that is on time, only the administrator and the limits on the era length matter. */
  lemma ConfigAccepted(s: PoolState, sender: string, c: ConfigParams, now: nat)
    requires OnTime(s.pool.clock, now) && now <= MAX_SECONDS
    ensures ConfigPool(s, sender, c, now).Ok? <==>
      sender == s.pool.config.admin && (c.eraSeconds.Some? ==> 28800 <= c.eraSeconds.value <= 86400)
  {
    if c.eraSeconds.Some? && 28800 <= c.eraSeconds.value <= 86400 {
      NoClipping(s.pool.clock, now);
      SmallWord(Reading(s.pool.clock, now));
      QuotientMonotone(0, now, c.eraSeconds.value);
      SmallWord(now / c.eraSeconds.value);
    }
  }

  /** Each setting of the pool is its own. */
  lemma ConfigExact(s: PoolState, sender: string, c: ConfigParams, now: nat)
    requires ConfigPool(s, sender, c, now).Ok?
    ensures var o, from := ConfigPool(s, sender, c, now).value, s.pool.config;
      var to := o.state.pool.config;
      && sender == from.admin
      && Sets(c.newAdmin, from.admin, to.admin) && Sets(c.paused, from.paused, to.paused)
      && Sets(c.minimalStake, from.minimalStake, to.minimalStake)
      && Sets(c.unstakeTimesLimit, from.unstakeTimesLimit, to.unstakeTimesLimit)
      && Sets(c.unbondCommission, from.unbondCommission, to.unbondCommission)
      && Sets(c.platformFeeCommission, from.platformFeeCommission, to.platformFeeCommission)
      && Sets(c.platformFeeReceiver, from.platformFeeReceiver, to.platformFeeReceiver)
      && Sets(c.lsmSupport, from.lsmSupport, to.lsmSupport)
      && Sets(c.lsmPendingLimit, from.lsmPendingLimit, to.lsmPendingLimit)
      && Sets(c.rateChangeLimit, from.rateChangeLimit, to.rateChangeLimit)
      && Sets(c.eraSeconds, s.pool.clock.eraSeconds, o.state.pool.clock.eraSeconds)
      && (c.eraSeconds.None? ==>
            && Sets(c.unbondingPeriod, s.pool.clock.unbondingPeriod, o.state.pool.clock.unbondingPeriod)
            && o.state.pool.clock.offset == s.pool.clock.offset)
      && o.state.pool.clock.era == s.pool.clock.era
      && o.state == s.(pool := s.pool.(config := to, clock := o.state.pool.clock))
      && o.effects == Effects([], [], {}, [])
  {
  }

  /** Each setting of the stack is its own, and a pool is entrusted once. */
  lemma ConfigStackExact(s: PoolState, sender: string, c: StackParams)
    ensures ConfigStack(s, sender, c).Ok? <==> sender == s.stack.admin
    ensures ConfigStack(s, sender, c).Ok? ==>
      var o, from := ConfigStack(s, sender, c).value, s.stack;
      var to := o.state.stack;
      && Sets(c.newAdmin, from.admin, to.admin) && Sets(c.feeReceiver, from.feeReceiver, to.feeReceiver)
      && Sets(c.feeCommission, from.feeCommission, to.feeCommission) && Sets(c.tokenCode, from.tokenCode, to.tokenCode)
      && to.totalFee == from.totalFee && to.eraRate == from.eraRate && o.state == s.(stack := to)
      && o.effects == Effects([], [], {}, [])
      && from.entrusted <= to.entrusted && (Distinct(from.entrusted) ==> Distinct(to.entrusted))
      && forall pool :: pool in to.entrusted <==> pool in from.entrusted || c.entrust == Some(pool)
  {
  }

  // ---- The validator set ----

  /** The administrator, between eras. */
  predicate BetweenEras(s: PoolState, sender: string) {
    sender == s.pool.config.admin && s.pool.status == ActiveEnded
  }

  lemma AddValidatorExact(s: PoolState, sender: string, v: string)
    ensures AddValidator(s, sender, v).Ok? <==>
      BetweenEras(s, sender) && |s.pool.validators| < 10 && v !in s.pool.validators
    ensures AddValidator(s, sender, v).Ok? ==>
      AddValidator(s, sender, v).value
      == Outcome(s.(pool := s.pool.(validators := s.pool.validators + [v])), Effects([], [], {}, []))
  {
  }

  /** Removing a validator leaves the others as often as they are there. */
  lemma {:induction false} WithoutExact(vals: seq<string>, v: string, u: string)
    ensures multiset(Without(vals, v))[u] == if u == v then 0 else multiset(vals)[u]
  {
    if vals != [] {
      WithoutExact(vals[1..], v, u);
      assert vals == [vals[0]] + vals[1..];
    }
  }

  lemma {:induction false} NothingToMove(ds: seq<Delegation>, source: string, target: string)
    requires source !in Names(ds)
    ensures Redelegations(ds, source, target) == []
  {
    if ds != [] {
      NothingToMove(ds[1..], source, target);
    }
  }

  /** What is delegated to a validator. */
  function DelegatedTo(ds: seq<Delegation>, v: string): nat {
    if v in Names(ds) then AmountOf(ds, v) else 0
  }

  /** All that is delegated to the old validator moves to the new one, in one piece. */
  lemma {:induction false} RedelegationsExact(ds: seq<Delegation>, source: string, target: string)
    requires NoDup(ds)
    ensures Redelegations(ds, source, target)
      == if DelegatedTo(ds, source) == 0 then [] else [Redelegate(source, target, DelegatedTo(ds, source))]
  {
    if ds != [] {
      if ds[0].validator == source {
        NothingToMove(ds[1..], source, target);
      } else {
        RedelegationsExact(ds[1..], source, target);
      }
    }
  }

  lemma {:induction false} FoundExact(ds: seq<Delegation>, v: string)
    ensures FindDelegation(ds, v) == if v in Names(ds) then Some(AmountOf(ds, v)) else None
  {
    if ds != [] {
      FoundExact(ds[1..], v);
    }
  }

  /** Whether the set may change: no change is under way, and what is delegated is known. */
  predicate Changeable(s: PoolState, sender: string, v: string, query: Option<DelegationQuery>) {
    BetweenEras(s, sender) && s.pool.validatorUpdate == End && v in s.pool.validators && query.Some?
  }

  /** The new validator takes the place of the old one at the end of the list, and all that was delegated to
      the old one moves to it. */
  lemma UpdateValidatorExact(s: PoolState, sender: string, source: string, target: string,
                             query: Option<DelegationQuery>, key: PacketKey)
    requires query.Some? ==> NoDup(query.value.delegations)
    ensures UpdateValidator(s, sender, source, target, query, key).Ok? <==>
      Changeable(s, sender, source, query) && target !in s.pool.validators
    ensures UpdateValidator(s, sender, source, target, query, key).Ok? ==>
      var o := UpdateValidator(s, sender, source, target, query, key).value;
      var moved, left := DelegatedTo(query.value.delegations, source), Without(s.pool.validators, source);
      && o.state == s.(pool := o.state.pool, mail := o.state.mail)
      && o.state.pool == s.pool.(validators := left + [target], validatorUpdate := o.state.pool.validatorUpdate)
      && if moved == 0
         then o.state.pool.validatorUpdate == WaitQueryUpdate && o.state.mail == s.mail
              && o.effects == Effects([], [], {}, [])
         else o.state.pool.validatorUpdate == Start
              && o.effects == Effects([], [Redelegate(source, target, moved)], {}, [])
              && o.state.mail.sudoPayloads
                 == s.mail.sudoPayloads[key := SudoPayload(Join(left + [target]), TxUpdateValidator)]
  {
    if query.Some? {
      RedelegationsExact(query.value.delegations, source, target);
    }
  }

  /** A validator leaves at once when nothing is delegated to it; otherwise that moves to the first of the others,
      and the validator leaves when it has. */
  lemma RmValidatorExact(s: PoolState, sender: string, v: string, query: Option<DelegationQuery>, key: PacketKey)
    ensures RmValidator(s, sender, v, query, key).Ok? <==>
      && Changeable(s, sender, v, query) && |s.pool.validators| > 1
      && (DelegatedTo(query.value.delegations, v) > 0 ==> Without(s.pool.validators, v) != [])
    ensures RmValidator(s, sender, v, query, key).Ok? ==>
      var o := RmValidator(s, sender, v, query, key).value;
      var moved, left := DelegatedTo(query.value.delegations, v), Without(s.pool.validators, v);
      && o.state == s.(pool := o.state.pool, mail := o.state.mail)
      && if moved == 0
         then o.state.pool == s.pool.(validators := left, validatorUpdate := WaitQueryUpdate) && o.state.mail == s.mail
              && o.effects == Effects([], [], {}, [])
         else left != [] && o.state.pool == s.pool.(validatorUpdate := Start)
              && o.effects == Effects([], [Redelegate(v, left[0], moved)], {}, [])
              && o.state.mail.sudoPayloads == s.mail.sudoPayloads[key := SudoPayload(v, TxRmValidator)]
  {
    if query.Some? {
      FoundExact(query.value.delegations, v);
    }
  }

  /** The answers to the two, and the end of a change. */
  lemma ChangeAnswered(s: PoolState, vals: seq<string>, v: string, now: nat, height: nat)
    requires AllPlain(vals) && vals != []
    ensures Callback(s, SudoPayload(Join(vals), TxUpdateValidator), now, height)
      == Ok(Outcome(s.(pool := s.pool.(validators := vals, validatorUpdate := WaitQueryUpdate)),
                    Effects([], [], {}, [])))
    ensures Callback(s, SudoPayload(v, TxRmValidator), now, height)
      == Ok(Outcome(s.(pool := s.pool.(validators := Without(s.pool.validators, v),
                                       validatorUpdate := WaitQueryUpdate)), Effects([], [], {}, [])))
    ensures forall t :: t == TxUpdateValidator || t == TxRmValidator ==>
      FailedCallback(s, SudoPayload("", t))
      == Ok(Outcome(s.(pool := s.pool.(validatorUpdate := End)), Effects([], [], {}, [])))
  {
    SplitJoin(vals);
  }

  lemma ChangeEnds(s: PoolState, sender: string)
    ensures UpdateValidatorsIcq(s, sender).Ok? <==>
      sender == s.pool.config.admin && s.pool.validatorUpdate == WaitQueryUpdate
    ensures UpdateValidatorsIcq(s, sender).Ok? ==>
      UpdateValidatorsIcq(s, sender).value
      == Outcome(s.(pool := s.pool.(validatorUpdate := End)), Effects([], [], {}, []))
  {
  }

  /** Every message of an administrator reaches its own handler with its arguments in their places. */
  lemma AdminDispatch(s: PoolState, a: Action, now: nat, height: nat)
    ensures a.DoInitPool? ==> Apply(s, a, now, height) == InitPool(s, a.sender, a.init, now, a.key)
    ensures a.DoMigratePool? ==> Apply(s, a, now, height) == MigratePool(s, a.sender, a.migrate, a.key)
    ensures a.DoConfigPool? ==> Apply(s, a, now, height) == ConfigPool(s, a.sender, a.config, now)
    ensures a.DoConfigStack? ==> Apply(s, a, now, height) == ConfigStack(s, a.sender, a.stackConfig)
    ensures a.DoPoolDelegate? ==> Apply(s, a, now, height) == PoolDelegate(s, a.sender, a.amount)
    ensures a.DoAddValidator? ==> Apply(s, a, now, height) == AddValidator(s, a.sender, a.validator)
    ensures a.DoUpdateValidator? ==>
      Apply(s, a, now, height) == UpdateValidator(s, a.sender, a.validator, a.target, a.query, a.key)
    ensures a.DoRmValidator? ==> Apply(s, a, now, height) == RmValidator(s, a.sender, a.validator, a.query, a.key)
    ensures a.DoUpdateValidatorsIcq? ==> Apply(s, a, now, height) == UpdateValidatorsIcq(s, a.sender)
  {
  }
}
