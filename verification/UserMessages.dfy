/** What each message of a user comes to, to the last token: when it is accepted, what it books, and what it
    sends. Every division rounds down, and nothing beyond what is named here changes. */
module UserMessages {
  import opened Arith
  import opened Sums
  import opened Payload
  import opened Allocation
  import opened PoolTypes
  import opened PoolSteps
  import opened UnstakeLedger
  import opened LiquidShares

  /** q is n divided by d, rounded down. */
  predicate RoundsDown(q: nat, n: nat, d: nat) {
    q * d <= n < (q + 1) * d
  }

  lemma RoundedIs(q: nat, a: nat, b: nat, d: nat)
    requires RoundsDown(q, a * b, d)
    ensures MulDiv(a, b, d).Ok? <==> a * b <= U128_MAX
    ensures MulDiv(a, b, d).Ok? ==> MulDiv(a, b, d).value == q
  {
    if MulDiv(a, b, d).Ok? {
      OneQuotient(q, MulDiv(a, b, d).value, a * b, d);
    }
  }

  lemma OneQuotient(q: nat, r: nat, n: nat, d: nat)
    requires RoundsDown(q, n, d) && RoundsDown(r, n, d)
    ensures q == r
  {
    if q < r {
      MulLe(q + 1, r, d);
    } else if r < q {
      MulLe(r + 1, q, d);
    }
  }

  // ---- Staking ----

  /** A stake is worth the liquid tokens that its amount buys at the rate; they go to the staker. */
  lemma StakeExact(s: PoolState, staker: string, amount: nat, minted: nat)
    requires RoundsDown(minted, amount * 1_000_000, s.pool.book.rate)
    ensures Stake(s, staker, amount).Ok? <==>
      && !s.pool.config.paused && s.pool.config.minimalStake <= amount
      && s.pool.book.active + amount <= U128_MAX && s.pool.book.bond + amount <= U128_MAX
      && amount * 1_000_000 <= U128_MAX && s.pool.book.totalLsd + minted <= U128_MAX
    ensures Stake(s, staker, amount).Ok? ==>
      var o, b := Stake(s, staker, amount).value, s.pool.book;
      && o.state == s.(pool := s.pool.(book := o.state.pool.book))
      && o.state.pool.book == b.(active := b.active + amount, bond := b.bond + amount, totalLsd := b.totalLsd + minted)
      && o.effects == Effects([Mint(staker, minted)], [], {}, [])
  {
    RoundedIs(minted, amount, 1_000_000, s.pool.book.rate);
  }

  /** At rate zero nothing can be staked, and no arriving shares can be booked. */
  lemma NoRateNoStake(s: PoolState, staker: string, amount: nat, message: string)
    requires s.pool.book.rate == 0
    ensures Stake(s, staker, amount).Err? && StakeLsmDone(s, message).Err?
  {
  }

  // ---- Unstaking ----

  /** The commission on an unstake. */
  predicate Commission(p: PoolInfo, amount: nat, fee: nat) {
    if p.config.unbondCommission == 0 then fee == 0 else RoundsDown(fee, amount * p.config.unbondCommission, 1_000_000)
  }

  /** What a user has open or pending. */
  function RecordsOf(l: Ledger, user: string): seq<nat> {
    if user in l.userIndex then l.userIndex[user] else []
  }

  predicate UnstakeAccepted(s: PoolState, user: string, amount: nat, fee: nat, tokens: nat) {
    var p := s.pool;
    && |RecordsOf(s.ledger, user)| < p.config.unstakeTimesLimit && p.nextUnstakeIndex < U64_MAX
    && amount * p.config.unbondCommission <= U128_MAX && fee < amount
    && (amount - fee) * p.book.rate <= U128_MAX && amount - fee <= p.book.totalLsd
    && 5 < tokens <= p.book.active && p.book.unbond + tokens <= U128_MAX
  }

  /** Of the amount the commission goes to the platform and the rest is burned; what is burned is worth its
      share at the rate, which moves from the active stake to the unbond counter; and the sender gets a record
      of that less 5. */
  lemma UnstakeExact(s: PoolState, user: string, amount: nat, fee: nat, tokens: nat)
    requires Commission(s.pool, amount, fee) && fee <= amount
    requires RoundsDown(tokens, (amount - fee) * s.pool.book.rate, 1_000_000)
    ensures Unstake(s, user, amount).Ok? <==> UnstakeAccepted(s, user, amount, fee, tokens)
    ensures Unstake(s, user, amount).Ok? ==>
      var o, b, index := Unstake(s, user, amount).value, s.pool.book, s.pool.nextUnstakeIndex + 1;
      && o.state == s.(pool := s.pool.(book := o.state.pool.book, nextUnstakeIndex := index), ledger := o.state.ledger)
      && o.state.pool.book
         == b.(unbond := b.unbond + tokens, active := b.active - tokens, totalLsd := b.totalLsd - (amount - fee))
      && o.state.ledger.unstakes
         == s.ledger.unstakes[index := UnstakeInfo(s.pool.clock.era, user, tokens - 5, Default, index)]
      && o.state.ledger.userIndex == s.ledger.userIndex[user := RecordsOf(s.ledger, user) + [index]]
      && o.effects.remote == [] && o.effects.bank == [] && o.effects.rewards == {}
      && o.effects.token == if fee == 0 then [BurnFrom(user, amount)]
                            else [TransferFrom(user, s.pool.config.platformFeeReceiver, fee),
                                  BurnFrom(user, amount - fee)]
  {
    var c := s.pool.config.unbondCommission;
    if c != 0 {
      RoundedIs(fee, amount, c, 1_000_000);
    }
    RoundedIs(tokens, amount - fee, s.pool.book.rate, 1_000_000);
  }

  /** A commission over the whole amount refuses every unstake. */
  lemma OverCommission(s: PoolState, user: string, amount: nat, fee: nat)
    requires Commission(s.pool, amount, fee) && fee > amount
    ensures Unstake(s, user, amount).Err?
  {
    if s.pool.config.unbondCommission != 0 {
      RoundedIs(fee, amount, s.pool.config.unbondCommission, 1_000_000);
    }
  }

  // ---- Withdrawing ----

  /** An open record of the sender that is due. */
  predicate Withdrawable(table: map<nat, UnstakeInfo>, i: nat, sender: string, era: nat, period: nat) {
    && i in table && table[i].unstaker == sender && table[i].status == Default
    && table[i].era + period <= era
  }

  lemma {:induction false} MarkPendingAccepts(table: map<nat, UnstakeInfo>, indices: seq<nat>, sender: string,
                                  era: nat, period: nat, total: nat)
    requires era <= U64_MAX && Distinct(indices)
    requires forall i :: i in indices ==> i in table && Withdrawable(table, i, sender, era, period)
    requires total + IndexSum(table, indices) <= U128_MAX
    ensures MarkPending(table, indices, sender, era, period, total).Ok?
  {
    if indices != [] {
      var i, rest := indices[0], indices[1..];
      assert indices == [i] + rest;
      assert i in indices && i !in rest;
      var next := table[i := table[i].(status := Pending)];
      forall j | j in rest ensures Withdrawable(next, j, sender, era, period) {
        assert j in indices;
      }
      MarkedStep(table, i, rest);
      MarkPendingAccepts(next, rest, sender, era, period, total + table[i].amount);
    }
  }

  lemma {:induction false} MarkPendingSum(table: map<nat, UnstakeInfo>, indices: seq<nat>, sender: string,
                                  era: nat, period: nat, total: nat)
    requires MarkPending(table, indices, sender, era, period, total).Ok? && total <= U128_MAX
    ensures MarkPending(table, indices, sender, era, period, total).value.total <= U128_MAX
  {
    if indices != [] {
      var i := indices[0];
      MarkPendingSum(table[i := table[i].(status := Pending)], indices[1..], sender, era, period,
                     total + table[i].amount);
    }
  }

  /** A withdrawal is accepted exactly for distinct withdrawable records with something in them. */
  lemma WithdrawAccepted(s: PoolState, sender: string, receiver: string, indices: seq<nat>, key: PacketKey)
    requires s.pool.clock.era <= U64_MAX
    ensures Withdraw(s, sender, receiver, indices, key).Ok? <==>
      && Distinct(indices)
      && (forall i :: i in indices ==>
            Withdrawable(s.ledger.unstakes, i, sender, s.pool.clock.era, s.pool.clock.unbondingPeriod))
      && 0 < IndexSum(s.ledger.unstakes, indices) <= U128_MAX
    ensures Withdraw(s, sender, receiver, indices, key).Ok? ==>
      var o := Withdraw(s, sender, receiver, indices, key).value;
      && o.effects == Effects([], [Send(receiver, IndexSum(s.ledger.unstakes, indices))], {}, [])
      && o.state.pool == s.pool && o.state.unbondTimes == s.unbondTimes && o.state.stack == s.stack
      && o.state.ledger.userIndex == s.ledger.userIndex && o.state.ledger.unstakes.Keys == s.ledger.unstakes.Keys
      && forall i :: i in s.ledger.unstakes ==>
           o.state.ledger.unstakes[i]
           == if i in indices then s.ledger.unstakes[i].(status := Pending) else s.ledger.unstakes[i]
  {
    var table, era, period := s.ledger.unstakes, s.pool.clock.era, s.pool.clock.unbondingPeriod;
    if Withdraw(s, sender, receiver, indices, key).Ok? {
      WithdrawShape(s, sender, receiver, indices, key);
      MarkPendingExact(table, indices, sender, era, period, 0);
      MarkPendingSum(table, indices, sender, era, period, 0);
    } else if Distinct(indices) && (forall i :: i in indices ==> Withdrawable(table, i, sender, era, period))
              && 0 < IndexSum(table, indices) <= U128_MAX {
      MarkPendingAccepts(table, indices, sender, era, period, 0);
      MarkPendingExact(table, indices, sender, era, period, 0);
    }
  }

  /** A payload that names no record removes and reopens nothing. */
  lemma NoRecordNamed(s: PoolState, amount: string, user: string, receiver: string)
    requires Plain(amount) && Plain(user) && Plain(receiver)
    ensures WithdrawDone(s, Join([amount, user, receiver])).Err?
    ensures WithdrawFailed(s, Join([amount, user, receiver])) == Ok(Outcome(s, Effects([], [], {}, [])))
  {
    SplitJoin([amount, user, receiver]);
  }

  // ---- Liquid shares ----

  /** Liquid shares are worth their part of the validator's tokens; the payload says so. */
  lemma StakeLsmExact(s: PoolState, staker: string, ibcDenom: string, denom: string, validator: string, shares: nat,
                      tokens: nat, validatorShares: nat, key: PacketKey, worth: nat)
    requires RoundsDown(worth, shares * tokens, validatorShares / 1_000_000_000_000_000_000)
    ensures StakeLsm(s, staker, ibcDenom, denom, validator, shares, tokens, validatorShares, key).Ok? <==>
      var p := s.pool;
      && p.config.lsmSupport && |p.shareTokens.pending| < p.config.lsmPendingLimit
      && p.status == ActiveEnded && p.validatorUpdate == End && !p.config.paused
      && p.config.minimalStake <= shares && validator in p.validators && shares * tokens <= U128_MAX && worth > 0
    ensures StakeLsm(s, staker, ibcDenom, denom, validator, shares, tokens, validatorShares, key).Ok? ==>
      var o := StakeLsm(s, staker, ibcDenom, denom, validator, shares, tokens, validatorShares, key).value;
      && o.state == s.(mail := o.state.mail) && o.effects == Effects([], [IbcTransfer(shares)], {}, [])
      && o.state.mail.sudoPayloads
         == s.mail.sudoPayloads[key := SudoPayload(LsmMessage(staker, worth, shares, ibcDenom, denom), TxStakeLsm)]
  {
    RoundedIs(worth, shares, tokens, validatorShares / 1_000_000_000_000_000_000);
  }

  /** Shares of a validator that has less than one whole share cannot be staked. */
  lemma NoSharesNoStake(s: PoolState, staker: string, ibcDenom: string, denom: string, validator: string, shares: nat,
                        tokens: nat, validatorShares: nat, key: PacketKey)
    requires validatorShares < 1_000_000_000_000_000_000
    ensures StakeLsm(s, staker, ibcDenom, denom, validator, shares, tokens, validatorShares, key).Err?
  {
  }

  /** When they have arrived, the liquid tokens that their worth buys at the rate go to the staker. */
  lemma StakeLsmDoneExact(s: PoolState, staker: string, worth: nat, shares: nat, ibcDenom: string, denom: string,
                          minted: nat)
    requires Plain(staker) && Plain(ibcDenom) && Plain(denom) && worth <= U128_MAX && shares <= U128_MAX
    requires RoundsDown(minted, worth * 1_000_000, s.pool.book.rate)
    ensures var message, b := LsmMessage(staker, worth, shares, ibcDenom, denom), s.pool.book;
      && (StakeLsmDone(s, message).Ok? <==>
            b.active + worth <= U128_MAX && worth * 1_000_000 <= U128_MAX && b.totalLsd + minted <= U128_MAX)
      && (StakeLsmDone(s, message).Ok? ==>
            var o := StakeLsmDone(s, message).value;
            && o.state == s.(pool := s.pool.(book := o.state.pool.book, shareTokens := o.state.pool.shareTokens))
            && o.state.pool.book == b.(active := b.active + worth, totalLsd := b.totalLsd + minted)
            && o.state.pool.shareTokens
               == s.pool.shareTokens.(pending := s.pool.shareTokens.pending + [Coin(denom, shares)])
            && o.effects == Effects([Mint(staker, minted)], [], {}, []))
  {
    LsmRoundTrip(staker, worth, shares, ibcDenom, denom);
    ParseDec(worth, U128_MAX);
    ParseDec(shares, U128_MAX);
    RoundedIs(minted, worth, 1_000_000, s.pool.book.rate);
  }

  lemma DenomAdded(denoms: seq<string>, d: string, rest: seq<string>)
    requires Distinct(denoms + ([d] + rest))
    ensures d !in denoms
  {
    var all := denoms + ([d] + rest);
    forall i | 0 <= i < |denoms| ensures denoms[i] != d {
      assert all[i] == denoms[i] && all[|denoms|] == d;
    }
  }

  lemma {:induction false} DenomsAccepted(tokens: seq<Coin>, pending: seq<Coin>, denoms: seq<string>)
    requires (forall t :: t in tokens ==> t in pending) && Distinct(denoms + DenomsOf(tokens))
    ensures Denoms(tokens, pending, denoms).Ok?
    decreases |tokens|
  {
    if tokens != [] {
      var d, rest := tokens[0].denom, tokens[1..];
      assert tokens == [tokens[0]] + rest;
      assert denoms + DenomsOf(tokens) == (denoms + [d]) + DenomsOf(rest);
      assert denoms + DenomsOf(tokens) == denoms + ([d] + DenomsOf(rest));
      DenomAdded(denoms, d, DenomsOf(rest));
      DenomsAccepted(rest, pending, denoms + [d]);
    }
  }

  lemma {:induction false} RedemptionsAre(tokens: seq<Coin>)
    ensures |Redemptions(tokens)| == |tokens|
    ensures forall i :: 0 <= i < |tokens| ==> Redemptions(tokens)[i] == Redeem(tokens[i].denom, tokens[i].amount)
  {
    if tokens != [] {
      RedemptionsAre(tokens[1..]);
    }
  }

  /** A redemption is accepted exactly for one to ten waiting tokens of distinct denominations; it redeems each
      of them once. */
  lemma RedeemExact(s: PoolState, tokens: seq<Coin>, key: PacketKey)
    ensures RedeemShares(s, tokens, key).Ok? <==>
      && 1 <= |tokens| <= 10 && s.pool.config.lsmSupport
      && (forall t :: t in tokens ==> t in s.pool.shareTokens.pending) && Distinct(DenomsOf(tokens))
    ensures RedeemShares(s, tokens, key).Ok? ==>
      var o := RedeemShares(s, tokens, key).value;
      && o.state == s.(mail := o.state.mail, pool := s.pool.(shareTokens := o.state.pool.shareTokens))
      && o.state.pool.shareTokens
         == s.pool.shareTokens.(redeeming := s.pool.shareTokens.redeeming + DenomsOf(tokens))
      && o.effects.token == [] && o.effects.bank == [] && o.effects.rewards == {}
      && |o.effects.remote| == |tokens|
      && forall i :: 0 <= i < |tokens| ==> o.effects.remote[i] == Redeem(tokens[i].denom, tokens[i].amount)
  {
    assert [] + DenomsOf(tokens) == DenomsOf(tokens);
    RedemptionsAre(tokens);
    if RedeemShares(s, tokens, key).Ok? {
      DenomsExact(tokens, s.pool.shareTokens.pending, []);
    } else if (forall t :: t in tokens ==> t in s.pool.shareTokens.pending) && Distinct(DenomsOf(tokens)) {
      DenomsAccepted(tokens, s.pool.shareTokens.pending, []);
    }
  }

  // ---- Which message reaches which handler ----

  /** Every message of a user reaches its own handler with its arguments in their places. */
  lemma UserDispatch(s: PoolState, a: Action, now: nat, height: nat)
    requires ByUser(a)
    ensures a.DoStake? ==> Apply(s, a, now, height) == Stake(s, a.sender, a.amount)
    ensures a.DoUnstake? ==> Apply(s, a, now, height) == Unstake(s, a.sender, a.amount)
    ensures a.DoWithdraw? ==> Apply(s, a, now, height) == Withdraw(s, a.sender, a.receiver, a.indices, a.key)
    ensures a.DoStakeLsm? ==>
      Apply(s, a, now, height)
      == StakeLsm(s, a.sender, a.ibcDenom, a.denom, a.validator, a.amount, a.validatorTokens, a.validatorShares, a.key)
    ensures a.DoRedeem? ==> Apply(s, a, now, height) == RedeemShares(s, a.tokens, a.key)
  {
  }
}
