/** The pool contract with its stored state: one method per message and per callback. A method that
    returns an error has changed nothing, as the chain rolls the message back. Each method does what
    the function of the same name in PoolSteps says. */
module StakeManager {
  import opened Arith
  import opened Allocation
  import opened Payload
  import opened PoolTypes
  import Steps = PoolSteps
  import opened PoolLoops

  /** The method and the function agree: on the error, or on the new state and the messages. */
  predicate Agrees(before: PoolState, spec: Result<Outcome>, after: PoolState, r: Result<Effects>) {
    match spec
    case Ok(o) => after == o.state && r == Ok(o.effects)
    case Err(e) => after == before && r == Err(e)
  }

  class StakeManager {
    var pool: PoolInfo
    var ledger: Ledger
    var unbondTimes: Times
    var mail: Mail
    var stack: Stack

    function State(): PoolState
      reads this
    {
      PoolState(pool, ledger, unbondTimes, mail, stack)
    }

    constructor (d: Deployment)
      ensures State() == Registered(d)
    {
      var s := Registered(d);
      pool, ledger, unbondTimes, mail, stack := s.pool, s.ledger, s.unbondTimes, s.mail, s.stack;
    }

    // ---- Payload plumbing ----

    method NextReplyId() returns (id: nat)
      modifies `mail
      ensures id == old(mail).latestReplyId
      ensures mail == old(mail).(latestReplyId := Steps.NextReplyId(old(mail).latestReplyId))
    {
      id := mail.latestReplyId;
      var saved := id + 1;
      if saved > REPLY_ID_RANGE_END {
        saved := REPLY_ID_RANGE_START;
      }
      mail := mail.(latestReplyId := saved);
    }

    /** Sends a packet with a payload; the reply files it under the packet's channel and sequence. */
    method Submit(key: PacketKey, payload: SudoPayload)
      modifies `mail
      ensures State() == Steps.Submit(old(State()), key, payload)
    {
      var id := NextReplyId();
      mail := mail.(replyPayloads := mail.replyPayloads[id := payload]);
      mail := mail.(sudoPayloads := mail.sudoPayloads[key := mail.replyPayloads[id]]);
    }

    // ---- Setting a pool up ----

    method DealPool(p: PoolInfo, key: PacketKey)
      modifies this
      ensures State() == Steps.DealPool(old(State()), p, key).state
    {
      pool := p.(status := InitStarted);
      stack := stack.(eraRate := stack.eraRate[p.clock.era := p.book.rate]);
      stack := stack.(totalFee := 0);
      Submit(key, SudoPayload("", TxSetWithdrawAddr));
    }

    method InitPool(sender: string, params: InitParams, now: nat, key: PacketKey) returns (r: Result<Effects>)
      modifies this
      ensures Agrees(old(State()), Steps.InitPool(old(State()), sender, params, now, key), State(), r)
    {
      if sender != stack.admin {
        return Err(Unauthorized);
      }
      if !(0 < |params.validators| <= VALIDATOR_LEN_LIMIT) {
        return Err(ValidatorAddressesListSize);
      }
      if sender != pool.config.admin {
        return Err(Unauthorized);
      }
      if pool.status == InitFailed {
        Submit(key, SudoPayload("", TxSetWithdrawAddr));
        return Ok(NO_EFFECTS);
      }
      if pool.status != RegisterEnded {
        return Err(StatusNotAllow);
      }
      var eraSeconds := DEFAULT_ERA_SECONDS;
      if params.eraSeconds.Some? {
        if params.eraSeconds.value < MIN_ERA_SECONDS {
          return Err(LessThanMinimalEraSeconds);
        }
        eraSeconds := params.eraSeconds.value;
      }
      var quotient :- Div(now, eraSeconds);
      var p := pool;
      p := p.(validators := params.validators, shareTokens := p.shareTokens.(pending := []), nextUnstakeIndex := 0,
             validatorUpdate := End);
      p := p.(clock := Clock(0, eraSeconds, 0 - Steps.AsI64(quotient), params.unbondingPeriod));
      p := p.(book := Book(0, 0, 0, CAL_BASE, 0, 0));
      p := p.(config := Config(p.config.admin, false, params.minimalStake, 20, 0,
                               params.platformFeeCommission.GetOr(100_000), params.platformFeeReceiver, false, 100, 0));
      DealPool(p, key);
      return Ok(NO_EFFECTS);
    }

    method MigratePool(sender: string, params: MigrateParams, key: PacketKey) returns (r: Result<Effects>)
      modifies this
      ensures Agrees(old(State()), Steps.MigratePool(old(State()), sender, params, key), State(), r)
    {
      if !(0 < |params.validators| <= VALIDATOR_LEN_LIMIT) {
        return Err(ValidatorAddressesListSize);
      }
      if sender != pool.config.admin {
        return Err(Unauthorized);
      }
      if pool.status == InitFailed {
        Submit(key, SudoPayload("", TxSetWithdrawAddr));
        return Ok(NO_EFFECTS);
      }
      if pool.status != RegisterEnded {
        return Err(StatusNotAllow);
      }
      if params.rate == 0 {
        return Err(RateIsZero);
      }
      var p := pool;
      p := p.(book := Book(params.bond, params.unbond, params.active, params.rate, params.totalLsd,
                           params.totalPlatformFee));
      p := p.(clock := Clock(params.era, params.eraSeconds, params.offset, params.unbondingPeriod));
      p := p.(validators := params.validators, shareTokens := p.shareTokens.(pending := params.shareTokens),
              nextUnstakeIndex := 0, validatorUpdate := End);
      p := p.(config := Config(p.config.admin, false, params.minimalStake, 20, 0,
                               params.platformFeeCommission.GetOr(100_000), params.platformFeeReceiver, true, 50, 0));
      var expected := CAL_BASE;
      if p.book.totalLsd != 0 {
        expected :- MulDiv(p.book.active, CAL_BASE, p.book.totalLsd);
      }
      if expected != p.book.rate {
        return Err(RateNotMatch);
      }
      DealPool(p, key);
      return Ok(NO_EFFECTS);
    }

    method ConfigPool(sender: string, c: ConfigParams, now: nat) returns (r: Result<Effects>)
      modifies `pool
      ensures Agrees(old(State()), Steps.ConfigPool(old(State()), sender, c, now), State(), r)
    {
      var p := pool;
      if sender != p.config.admin {
        return Err(Unauthorized);
      }
      if c.unbondingPeriod.Some? {
        p := p.(clock := p.clock.(unbondingPeriod := c.unbondingPeriod.value));
      }
      if c.eraSeconds.Some? {
        var clock :- ChangeEraSeconds(p.clock, c.eraSeconds.value, now);
        p := p.(clock := clock);
      }
      pool := p.(config := Steps.Reconfigured(p.config, c));
      return Ok(NO_EFFECTS);
    }

    static method ChangeEraSeconds(clock: Clock, eraSeconds: nat, now: nat) returns (r: Result<Clock>)
      ensures r == Steps.ResetClock(clock, eraSeconds, now)
    {
      if eraSeconds < MIN_ERA_SECONDS {
        return Err(LessThanMinimalEraSeconds);
      }
      if eraSeconds > MAX_ERA_SECONDS {
        return Err(ExceedMaxEraSeconds);
      }
      var c := clock;
      var current :- Steps.CurrentEra(now, c.eraSeconds, c.offset);
      c := c.(eraSeconds := eraSeconds);
      var quotient := Div(now, c.eraSeconds).value;
      var offset :- Steps.Sub64Signed(Steps.AsI64(current), Steps.AsI64(quotient));
      c := c.(offset := offset);
      c := c.(unbondingPeriod := Steps.UnbondingEras(c.eraSeconds));
      return Ok(c);
    }

    // ---- Users ----

    method Stake(staker: string, amount: nat) returns (r: Result<Effects>)
      modifies `pool
      ensures Agrees(old(State()), Steps.Stake(old(State()), staker, amount), State(), r)
    {
      var p := pool;
      if p.config.paused {
        return Err(PoolIsPaused);
      }
      if amount < p.config.minimalStake {
        return Err(LessThanMinimalStake);
      }
      var active :- Add(p.book.active, amount);
      var bond :- Add(p.book.bond, amount);
      p := p.(book := p.book.(active := active, bond := bond));
      var minted :- MulDiv(amount, CAL_BASE, p.book.rate);
      var total :- Add(p.book.totalLsd, minted);
      p := p.(book := p.book.(totalLsd := total));
      pool := p;
      return Ok(NO_EFFECTS.(token := [Mint(staker, minted)]));
    }

    method Unstake(user: string, lsdAmount: nat) returns (r: Result<Effects>)
      modifies `pool, `ledger
      ensures Agrees(old(State()), Steps.Unstake(old(State()), user, lsdAmount), State(), r)
    {
      if lsdAmount == 0 {
        return Err(LsdTokenAmountZero);
      }
      var p := pool;
      var mine: seq<nat> := [];
      if user in ledger.userIndex {
        mine := ledger.userIndex[user];
      }
      if |mine| >= p.config.unstakeTimesLimit {
        return Err(UnstakeTimesLimitReached);
      }
      var msgs: seq<TokenMsg> := [];
      var burned := lsdAmount;
      if p.config.unbondCommission > 0 {
        var fee :- MulDiv(lsdAmount, p.config.unbondCommission, CAL_BASE);
        burned :- Sub(lsdAmount, fee);
        if fee > 0 {
          msgs := [TransferFrom(user, p.config.platformFeeReceiver, fee)];
        }
      }
      if burned == 0 {
        return Err(BurnLsdTokenAmountIsZero);
      }
      var tokens :- MulDiv(burned, p.book.rate, CAL_BASE);
      var index :- Add64(p.nextUnstakeIndex, 1);
      p := p.(nextUnstakeIndex := index);
      var unbond :- Add(p.book.unbond, tokens);
      var active :- Sub(p.book.active, tokens);
      p := p.(book := p.book.(unbond := unbond, active := active));
      msgs := msgs + [BurnFrom(user, burned)];
      var total :- Sub(p.book.totalLsd, burned);
      p := p.(book := p.book.(totalLsd := total));
      var received := if tokens > 5 then tokens - 5 else 0;
      if received == 0 {
        return Err(ZeroWithdrawAmount);
      }
      mine := mine + [index];
      ledger := ledger.(unstakes := ledger.unstakes[index := UnstakeInfo(p.clock.era, user, received, Default, index)]);
      pool := p;
      ledger := ledger.(userIndex := ledger.userIndex[user := mine]);
      return Ok(NO_EFFECTS.(token := msgs));
    }

    method Withdraw(sender: string, receiver: string, indices: seq<nat>, key: PacketKey) returns (r: Result<Effects>)
      modifies this
      ensures Agrees(old(State()), Steps.Withdraw(old(State()), sender, receiver, indices, key), State(), r)
    {
      if indices == [] {
        return Err(EmptyUnstakeList);
      }
      var attempt := MarkAll(ledger.unstakes, indices, sender, pool.clock.era, pool.clock.unbondingPeriod);
      var marked :- attempt;
      if marked.total == 0 {
        return Err(ZeroWithdrawAmount);
      }
      ledger := ledger.(unstakes := marked.table);
      Submit(key, SudoPayload(WithdrawMessage(marked.total, sender, receiver, indices), TxUserWithdraw));
      return Ok(NO_EFFECTS.(remote := [Send(receiver, marked.total)]));
    }

    method WithdrawDone(message: string) returns (r: Result<Effects>)
      modifies `ledger
      ensures Agrees(old(State()), Steps.WithdrawDone(old(State()), message), State(), r)
    {
      var parts := Split(message);
      if |parts| <= 3 {
        return Err(UnsupportedMessage);
      }
      var user := parts[1];
      if user in ledger.userIndex {
        var table, kept := Retain(ledger.unstakes, ledger.userIndex[user], parts[1..]);
        ledger := Ledger(table, ledger.userIndex[user := kept]);
      }
      return Ok(NO_EFFECTS);
    }

    method WithdrawFailed(message: string) returns (r: Result<Effects>)
      modifies `ledger
      ensures Agrees(old(State()), Steps.WithdrawFailed(old(State()), message), State(), r)
    {
      var parts := Split(message);
      var attempt := ReopenAll(ledger.unstakes, if |parts| <= 3 then [] else parts[3..]);
      var table :- attempt;
      ledger := ledger.(unstakes := table);
      return Ok(NO_EFFECTS);
    }

    // ---- Liquid shares ----

    method StakeLsm(staker: string, ibcDenom: string, denom: string, validator: string, shares: nat,
                    validatorTokens: nat, validatorShares: nat, key: PacketKey) returns (r: Result<Effects>)
      modifies `mail
      ensures Agrees(old(State()),
                     Steps.StakeLsm(old(State()), staker, ibcDenom, denom, validator, shares, validatorTokens,
                                    validatorShares, key),
                     State(), r)
    {
      if !pool.config.lsmSupport {
        return Err(LsmStakeNotSupport);
      }
      if |pool.shareTokens.pending| >= pool.config.lsmPendingLimit {
        return Err(LsmPendingStakeOverLimit);
      }
      if pool.status != ActiveEnded {
        return Err(EraProcessNotEnd);
      }
      if pool.validatorUpdate != End {
        return Err(PoolIcqNotUpdated);
      }
      if pool.config.paused {
        return Err(PoolIsPaused);
      }
      if shares < pool.config.minimalStake {
        return Err(LessThanMinimalStake);
      }
      if validator !in pool.validators {
        return Err(ValidatorNotSupport);
      }
      var tokens :- MulDiv(shares, validatorTokens, validatorShares / SHARE_BASE);
      if tokens == 0 {
        return Err(TokenAmountZero);
      }
      Submit(key, SudoPayload(LsmMessage(staker, tokens, shares, ibcDenom, denom), TxStakeLsm));
      return Ok(NO_EFFECTS.(remote := [IbcTransfer(shares)]));
    }

    method StakeLsmDone(message: string) returns (r: Result<Effects>)
      modifies `pool
      ensures Agrees(old(State()), Steps.StakeLsmDone(old(State()), message), State(), r)
    {
      var parts := Split(message);
      if |parts| != 5 {
        return Err(UnsupportedMessage);
      }
      var tokens := ParseUint(parts[1], U128_MAX);
      if tokens.None? {
        return Err(UnsupportedMessage);
      }
      var shares := ParseUint(parts[2], U128_MAX);
      if shares.None? {
        return Err(UnsupportedMessage);
      }
      var p := pool;
      var active :- Add(p.book.active, tokens.value);
      p := p.(book := p.book.(active := active));
      var minted :- MulDiv(tokens.value, CAL_BASE, p.book.rate);
      var total :- Add(p.book.totalLsd, minted);
      p := p.(book := p.book.(totalLsd := total));
      p := p.(shareTokens := p.shareTokens.(pending := p.shareTokens.pending + [Coin(parts[4], shares.value)]));
      pool := p;
      return Ok(NO_EFFECTS.(token := [Mint(parts[0], minted)]));
    }

    method StakeLsmFailed(message: string) returns (r: Result<Effects>)
      ensures Agrees(State(), Steps.StakeLsmFailed(State(), message), State(), r)
    {
      var parts := Split(message);
      if |parts| != 5 {
        return Err(UnsupportedMessage);
      }
      var shares := ParseUint(parts[2], U128_MAX);
      if shares.None? {
        return Err(UnsupportedMessage);
      }
      return Ok(NO_EFFECTS.(bank := [BankSend(parts[0], parts[3], shares.value)]));
    }

    method RedeemShares(tokens: seq<Coin>, key: PacketKey) returns (r: Result<Effects>)
      modifies this
      ensures Agrees(old(State()), Steps.RedeemShares(old(State()), tokens, key), State(), r)
    {
      if |tokens| == 0 || |tokens| > 10 {
        return Err(TokensLenNotMatch);
      }
      if !pool.config.lsmSupport {
        return Err(LsmStakeNotSupport);
      }
      var attempt := CollectRedemptions(tokens, pool.shareTokens.pending);
      var collected :- attempt;
      pool := pool.(shareTokens := pool.shareTokens.(redeeming := pool.shareTokens.redeeming + collected.0));
      Submit(key, SudoPayload(Join(collected.0, COMMA), TxRedeemShares));
      return Ok(NO_EFFECTS.(remote := collected.1));
    }

    method RedeemDone(message: string) returns (r: Result<Effects>)
      modifies `pool
      ensures Agrees(old(State()), Steps.RedeemDone(old(State()), message), State(), r)
    {
      var denoms := Split(message, COMMA);
      var pending := RetainCoins(pool.shareTokens.pending, denoms);
      var redeeming := RetainNames(pool.shareTokens.redeeming, denoms);
      pool := pool.(shareTokens := ShareTokens(pending, redeeming));
      return Ok(NO_EFFECTS);
    }

    method RedeemFailed(message: string) returns (r: Result<Effects>)
      modifies `pool
      ensures Agrees(old(State()), Steps.RedeemFailed(old(State()), message), State(), r)
    {
      var redeeming := RetainNames(pool.shareTokens.redeeming, Split(message, COMMA));
      pool := pool.(shareTokens := pool.shareTokens.(redeeming := redeeming));
      return Ok(NO_EFFECTS);
    }

    // ---- The era ----

    method EraUpdate(now: nat, height: nat, key: PacketKey) returns (r: Result<Effects>)
      modifies this
      ensures Agrees(old(State()), Steps.EraUpdate(old(State()), now, height, key), State(), r)
    {
      var p := pool;
      if p.config.paused {
        return Err(PoolIsPaused);
      }
      if p.status != ActiveEnded || p.validatorUpdate != End {
        return Err(StatusNotAllow);
      }
      var current :- Steps.CurrentEra(now, p.clock.eraSeconds, p.clock.offset);
      if current <= p.clock.era {
        return Err(AlreadyLatestEra);
      }
      p := p.(status := EraUpdateStarted);
      var era :- Add64(p.clock.era, 1);
      p := p.(clock := p.clock.(era := era));
      p := p.(snapshot := EraSnapshot(p.clock.era, p.book.bond, p.book.unbond, p.book.active, 0, height));
      if p.snapshot.bond == 0 {
        pool := p.(status := EraUpdateEnded);
        return Ok(NO_EFFECTS);
      }
      pool := p;
      Submit(key, SudoPayload("", TxEraUpdate));
      return Ok(NO_EFFECTS.(remote := [IbcTransfer(p.snapshot.bond)]));
    }

    method EraUpdateDone(height: nat) returns (r: Result<Effects>)
      modifies `pool
      ensures Agrees(old(State()), Steps.EraUpdateDone(old(State()), height), State(), r)
    {
      pool := pool.(status := EraUpdateEnded);
      pool := pool.(snapshot := pool.snapshot.(lastStepHeight := height));
      return Ok(NO_EFFECTS);
    }

    method EraUpdateFailed() returns (r: Result<Effects>)
      modifies `pool
      ensures Agrees(old(State()), Steps.EraUpdateFailed(old(State())), State(), r)
    {
      var p := pool;
      p := p.(status := ActiveEnded);
      var era :- Sub(p.clock.era, 1);
      p := p.(clock := p.clock.(era := era));
      p := p.(snapshot := NO_SNAPSHOT);
      pool := p;
      return Ok(NO_EFFECTS);
    }

    /** What the bond step withdraws from the validators, and whose rewards it collects beside it. */
    method Unbonding(query: Option<DelegationQuery>, now: nat) returns (r: Result<(Plan, set<string>)>)
      requires pool.snapshot.unbond >= pool.snapshot.bond
      ensures r == Steps.BondByUnbonding(State(), query, now)
    {
      var amount := pool.snapshot.unbond - pool.snapshot.bond;
      if query.None? {
        return Err(NotFound);
      }
      if query.value.height <= pool.snapshot.lastStepHeight {
        return Err(DelegationSubmissionHeight);
      }
      var ds := query.value.delegations;
      var plan := Plan([], unbondTimes);
      if amount > 0 {
        var period :- Mul64(pool.clock.unbondingPeriod, pool.clock.eraSeconds);
        var attempt := AllocateUnbond(ds, amount, unbondTimes, now, period);
        plan :- attempt;
      }
      return Ok((plan, RewardOnly(ds, plan.infos)));
    }

    method EraBond(query: Option<DelegationQuery>, selected: seq<string>, now: nat,
                   key: PacketKey) returns (r: Result<Effects>)
      modifies this
      ensures Agrees(old(State()), Steps.EraBond(old(State()), query, selected, now, key), State(), r)
    {
      if pool.status != EraUpdateEnded {
        return Err(StatusNotAllow);
      }
      if pool.snapshot.unbond >= pool.snapshot.bond {
        var attempt := Unbonding(query, now);
        var step :- attempt;
        var plan, rewards := step.0, step.1;
        var names, msgs := BuildUndelegations(plan.infos);
        unbondTimes := plan.times;
        pool := pool.(status := BondStarted);
        Submit(key, SudoPayload(Join(names), TxEraBond));
        return Ok(NO_EFFECTS.(remote := msgs, rewards := rewards));
      }
      var amount := pool.snapshot.bond - pool.snapshot.unbond;
      if selected == [] {
        return Err(ValidatorsEmpty);
      }
      var attempt: Result<seq<RemoteMsg>>;
      if amount < STAKE_SPLIT_THRESHOLD {
        attempt := DelegateToFirst(amount, selected, pool.validators);
      } else {
        attempt := DelegateShares(amount, selected, pool.validators);
      }
      var msgs :- attempt;
      pool := pool.(status := BondStarted);
      Submit(key, SudoPayload("", TxEraBond));
      return Ok(NO_EFFECTS.(remote := msgs));
    }

    method EraBondDone(message: string, now: nat, height: nat) returns (r: Result<Effects>)
      modifies `pool, `unbondTimes
      ensures Agrees(old(State()), Steps.EraBondDone(old(State()), message, now, height), State(), r)
    {
      var p := pool;
      var times := unbondTimes;
      if |message| > 0 {
        times := StampAll(times, Split(message), now);
      }
      p := p.(status := BondEnded);
      p := p.(snapshot := p.snapshot.(lastStepHeight := height));
      var bond :- Sub(p.book.bond, p.snapshot.bond);
      var unbond :- Sub(p.book.unbond, p.snapshot.unbond);
      unbondTimes := times;
      pool := p.(book := p.book.(bond := bond, unbond := unbond));
      return Ok(NO_EFFECTS);
    }

    method CollectWithdraw(query: Option<BalanceQuery>, key: PacketKey) returns (r: Result<Effects>)
      modifies this
      ensures Agrees(old(State()), Steps.CollectWithdraw(old(State()), query, key), State(), r)
    {
      var p := pool;
      if p.status != BondEnded {
        return Err(StatusNotAllow);
      }
      p := p.(status := WithdrawStarted);
      var amount := 0;
      if query.Some? {
        if query.value.height <= p.snapshot.lastStepHeight {
          return Err(WithdrawAddrBalanceSubmissionHeight);
        }
        amount := query.value.amount;
      }
      if amount == 0 {
        pool := p.(status := WithdrawEnded);
        return Ok(NO_EFFECTS);
      }
      Submit(key, SudoPayload("", TxEraCollectWithdraw));
      pool := p.(snapshot := p.snapshot.(restakeAmount := amount));
      return Ok(NO_EFFECTS.(remote := [Send("pool", amount)]));
    }

    method CollectWithdrawDone(height: nat) returns (r: Result<Effects>)
      modifies `pool
      ensures Agrees(old(State()), Steps.CollectWithdrawDone(old(State()), height), State(), r)
    {
      pool := pool.(status := WithdrawEnded);
      pool := pool.(snapshot := pool.snapshot.(lastStepHeight := height));
      return Ok(NO_EFFECTS);
    }

    /** RebondStarted is set on a copy of the record that is stored in one branch only. */
    method Rebond(selected: seq<string>, key: PacketKey) returns (r: Result<Effects>)
      modifies this
      ensures Agrees(old(State()), Steps.Rebond(old(State()), selected, key), State(), r)
    {
      var p := pool;
      if p.status != WithdrawEnded {
        return Err(StatusNotAllow);
      }
      p := p.(status := RebondStarted);
      var amount := p.snapshot.restakeAmount;
      if amount == 0 {
        p := p.(status := RebondEnded);
        pool := p;
        return Ok(NO_EFFECTS);
      }
      if selected == [] {
        return Err(ValidatorsEmpty);
      }
      var attempt := DelegateShares(amount, selected, p.validators);
      var msgs :- attempt;
      Submit(key, SudoPayload("", TxEraRebond));
      return Ok(NO_EFFECTS.(remote := msgs));
    }

    method RebondDone(height: nat) returns (r: Result<Effects>)
      modifies `pool
      ensures Agrees(old(State()), Steps.RebondDone(old(State()), height), State(), r)
    {
      pool := pool.(status := RebondEnded);
      pool := pool.(snapshot := pool.snapshot.(lastStepHeight := height));
      return Ok(NO_EFFECTS);
    }

    /** The platform's and the stack's share of what the delegations gained. */
    method CountFees(reported: nat) returns (r: Result<Steps.Fees>)
      ensures r == Steps.EraFees(pool, stack.feeCommission, reported)
    {
      if reported <= pool.snapshot.active {
        return Ok(Steps.Fees(0, 0));
      }
      var reward := reported - pool.snapshot.active;
      var raw :- MulDiv(reward, pool.config.platformFeeCommission, pool.book.rate);
      var stackFee :- MulDiv(raw, stack.feeCommission, CAL_BASE);
      var platformFee :- Sub(raw, stackFee);
      return Ok(Steps.Fees(platformFee, stackFee));
    }

    static method CloseBook(p: PoolInfo, reported: nat, fees: Steps.Fees) returns (r: Result<Book>)
      ensures r == Steps.ClosedBook(p, reported, fees)
    {
      var gross :- Add(p.book.active, reported);
      var newActive := 0;
      if gross > p.snapshot.active {
        newActive := gross - p.snapshot.active;
      }
      var withPlatform :- Add(p.book.totalLsd, fees.platform);
      var total :- Add(withPlatform, fees.stack);
      var newRate := CAL_BASE;
      if total > 0 {
        newRate :- MulDiv(newActive, CAL_BASE, total);
      }
      if p.config.rateChangeLimit != 0 {
        var change :- Steps.RateChange(p.book.rate, newRate);
        if change > p.config.rateChangeLimit {
          return Err(RateChangeOverLimit);
        }
      }
      if p.book.rate == DEFAULT_RATE && newRate < DEFAULT_RATE && p.book.active < newActive + 1000 {
        newRate := DEFAULT_RATE;
        newActive := p.book.active;
      }
      return Ok(p.book.(rate := newRate, active := newActive, totalLsd := total));
    }

    method Report(query: Option<DelegationQuery>) returns (r: Result<nat>)
      ensures r == Steps.Reported(pool, query)
    {
      if pool.status != RebondEnded {
        return Err(StatusNotAllow);
      }
      if pool.shareTokens.pending != [] {
        return Err(PendingShareNotEmpty);
      }
      if query.None? {
        return Err(DelegationsNotExist);
      }
      if query.value.height <= pool.snapshot.lastStepHeight {
        return Err(DelegationSubmissionHeight);
      }
      r := SumAll(query.value.delegations);
    }

    method EndEra(fees: Steps.Fees, book: Book) returns (r: Result<Effects>)
      modifies `pool, `stack
      ensures Agrees(old(State()), Steps.EndEra(old(State()), fees, book), State(), r)
    {
      var p := pool.(status := ActiveEnded, book := book.(totalPlatformFee := pool.book.totalPlatformFee));
      var msgs: seq<TokenMsg> := [];
      if fees.platform > 0 {
        msgs := msgs + [Mint(p.config.platformFeeReceiver, fees.platform)];
        var totalPlatformFee :- Add(p.book.totalPlatformFee, fees.platform);
        p := p.(book := p.book.(totalPlatformFee := totalPlatformFee));
      }
      var totalStackFee := stack.totalFee;
      if fees.stack > 0 {
        msgs := msgs + [Mint(stack.feeReceiver, fees.stack)];
        totalStackFee :- Add(totalStackFee, fees.stack);
      }
      assert msgs == (if fees.platform > 0 then [Mint(p.config.platformFeeReceiver, fees.platform)] else [])
                     + (if fees.stack > 0 then [Mint(stack.feeReceiver, fees.stack)] else []);
      pool := p;
      stack := stack.(totalFee := totalStackFee, eraRate := stack.eraRate[p.clock.era := p.book.rate]);
      return Ok(NO_EFFECTS.(token := msgs));
    }

    method EraActive(query: Option<DelegationQuery>) returns (r: Result<Effects>)
      modifies `pool, `stack
      ensures Agrees(old(State()), Steps.EraActive(old(State()), query), State(), r)
    {
      var report := Report(query);
      var reported :- report;
      var count := CountFees(reported);
      var fees :- count;
      var closing := CloseBook(pool, reported, fees);
      var book :- closing;
      r := EndEra(fees, book);
    }

    // ---- The validator set ----

    method PoolDelegate(sender: string, amount: nat) returns (r: Result<Effects>)
      ensures Agrees(old(State()), Steps.PoolDelegate(old(State()), sender, amount), State(), r)
    {
      if pool.status != ActiveEnded {
        return Err(StatusNotAllow);
      }
      if sender != pool.config.admin {
        return Err(Unauthorized);
      }
      if pool.validators == [] {
        return Err(ValidatorsEmpty);
      }
      var msgs := DelegateToAll(amount, pool.validators);
      return Ok(NO_EFFECTS.(remote := msgs));
    }

    method AddValidator(sender: string, v: string) returns (r: Result<Effects>)
      modifies `pool
      ensures Agrees(old(State()), Steps.AddValidator(old(State()), sender, v), State(), r)
    {
      if sender != pool.config.admin {
        return Err(Unauthorized);
      }
      if pool.status != ActiveEnded {
        return Err(EraProcessNotEnd);
      }
      if |pool.validators| >= VALIDATOR_LEN_LIMIT {
        return Err(ValidatorAddressesListSize);
      }
      if v in pool.validators {
        return Err(ValidatorAlreadyExit);
      }
      pool := pool.(validators := pool.validators + [v]);
      return Ok(NO_EFFECTS);
    }

    method UpdateValidator(sender: string, source: string, target: string, query: Option<DelegationQuery>,
                           key: PacketKey)
      returns (r: Result<Effects>)
      modifies this
      ensures Agrees(old(State()), Steps.UpdateValidator(old(State()), sender, source, target, query, key), State(), r)
    {
      var p := pool;
      if sender != p.config.admin {
        return Err(Unauthorized);
      }
      if p.status != ActiveEnded {
        return Err(EraProcessNotEnd);
      }
      if p.validatorUpdate != End {
        return Err(StatusNotAllow);
      }
      if source !in p.validators {
        return Err(OldValidatorNotExist);
      }
      if target in p.validators {
        return Err(NewValidatorAlreadyExist);
      }
      if query.None? {
        return Err(NotFound);
      }
      var vals := RetainOthers(p.validators, source);
      vals := vals + [target];
      var msgs := BuildRedelegations(query.value.delegations, source, target);
      if msgs != [] {
        Submit(key, SudoPayload(Join(vals), TxUpdateValidator));
        p := p.(validatorUpdate := ValidatorUpdateStatus.Start);
      } else {
        p := p.(validatorUpdate := WaitQueryUpdate);
      }
      pool := p.(validators := vals);
      return Ok(NO_EFFECTS.(remote := msgs));
    }

    method UpdateValidatorDone(message: string) returns (r: Result<Effects>)
      modifies `pool
      ensures Agrees(old(State()), Steps.UpdateValidatorDone(old(State()), message), State(), r)
    {
      pool := pool.(validators := Split(message));
      pool := pool.(validatorUpdate := WaitQueryUpdate);
      return Ok(NO_EFFECTS);
    }

    method RmValidator(sender: string, v: string, query: Option<DelegationQuery>,
                       key: PacketKey) returns (r: Result<Effects>)
      modifies this
      ensures Agrees(old(State()), Steps.RmValidator(old(State()), sender, v, query, key), State(), r)
    {
      var p := pool;
      if sender != p.config.admin {
        return Err(Unauthorized);
      }
      if p.status != ActiveEnded {
        return Err(EraProcessNotEnd);
      }
      if v !in p.validators {
        return Err(OldValidatorNotExist);
      }
      if p.validatorUpdate != End {
        return Err(StatusNotAllow);
      }
      if query.None? {
        return Err(NotFound);
      }
      if |p.validators| <= 1 {
        return Err(ValidatorAddressesListSize);
      }
      var left := RetainOthers(p.validators, v);
      var found := Steps.FindDelegation(query.value.delegations, v);
      if found.None? || found.value == 0 {
        pool := p.(validatorUpdate := WaitQueryUpdate, validators := left);
        return Ok(NO_EFFECTS);
      }
      if left == [] {
        return Err(ValidatorsEmpty);
      }
      Submit(key, SudoPayload(v, TxRmValidator));
      pool := p.(validatorUpdate := ValidatorUpdateStatus.Start);
      return Ok(NO_EFFECTS.(remote := [Redelegate(v, left[0], found.value)]));
    }

    method RmValidatorDone(message: string) returns (r: Result<Effects>)
      modifies `pool
      ensures Agrees(old(State()), Steps.RmValidatorDone(old(State()), message), State(), r)
    {
      var left := RetainOthers(pool.validators, message);
      pool := pool.(validators := left);
      pool := pool.(validatorUpdate := WaitQueryUpdate);
      return Ok(NO_EFFECTS);
    }

    method UpdateValidatorsIcq(sender: string) returns (r: Result<Effects>)
      modifies `pool
      ensures Agrees(old(State()), Steps.UpdateValidatorsIcq(old(State()), sender), State(), r)
    {
      if sender != pool.config.admin {
        return Err(Unauthorized);
      }
      if pool.validatorUpdate != WaitQueryUpdate {
        return Err(StatusNotAllow);
      }
      pool := pool.(validatorUpdate := End);
      return Ok(NO_EFFECTS);
    }

    // ---- Callbacks ----

    method SetStatus(status: EraStatus) returns (r: Result<Effects>)
      modifies `pool
      ensures Agrees(old(State()), Steps.WithStatus(old(State()), status), State(), r)
    {
      pool := pool.(status := status);
      return Ok(NO_EFFECTS);
    }

    method SetValidatorUpdate(status: ValidatorUpdateStatus) returns (r: Result<Effects>)
      modifies `pool
      ensures Agrees(old(State()), Steps.WithValidatorUpdate(old(State()), status), State(), r)
    {
      pool := pool.(validatorUpdate := status);
      return Ok(NO_EFFECTS);
    }

    method Callback(payload: SudoPayload, now: nat, height: nat) returns (r: Result<Effects>)
      modifies this
      ensures Agrees(old(State()), Steps.Callback(old(State()), payload, now, height), State(), r)
    {
      match payload.txType {
        case TxSetWithdrawAddr => r := SetStatus(ActiveEnded);
        case TxEraUpdate => r := EraUpdateDone(height);
        case TxEraBond => r := EraBondDone(payload.message, now, height);
        case TxEraCollectWithdraw => r := CollectWithdrawDone(height);
        case TxEraRebond => r := RebondDone(height);
        case TxUserWithdraw => r := WithdrawDone(payload.message);
        case TxUpdateValidator => r := UpdateValidatorDone(payload.message);
        case TxRmValidator => r := RmValidatorDone(payload.message);
        case TxStakeLsm => r := StakeLsmDone(payload.message);
        case TxRedeemShares => r := RedeemDone(payload.message);
      }
    }

    method FailedCallback(payload: SudoPayload) returns (r: Result<Effects>)
      modifies this
      ensures Agrees(old(State()), Steps.FailedCallback(old(State()), payload), State(), r)
    {
      match payload.txType {
        case TxSetWithdrawAddr => r := SetStatus(InitFailed);
        case TxEraUpdate => r := EraUpdateFailed();
        case TxEraBond => r := SetStatus(EraUpdateEnded);
        case TxEraCollectWithdraw => r := SetStatus(BondEnded);
        case TxEraRebond => r := SetStatus(WithdrawEnded);
        case TxUserWithdraw => r := WithdrawFailed(payload.message);
        case TxUpdateValidator => r := SetValidatorUpdate(End);
        case TxRmValidator => r := SetValidatorUpdate(End);
        case TxStakeLsm => r := StakeLsmFailed(payload.message);
        case TxRedeemShares => r := RedeemFailed(payload.message);
      }
    }

    /** An acknowledgement, an error or a timeout. The payload is removed before the callback runs; if
        the callback is refused, the message is rolled back and the payload is still there. */
    method Sudo(key: PacketKey, success: bool, now: nat, height: nat) returns (r: Result<Effects>)
      modifies this
      ensures Agrees(old(State()), Steps.Deliver(old(State()), key, success, now, height), State(), r)
    {
      if key !in mail.sudoPayloads {
        return Err(CallBackErrErrorMsg);
      }
      var before := mail;
      var payload := mail.sudoPayloads[key];
      mail := mail.(sudoPayloads := mail.sudoPayloads - {key});
      if success {
        r := Callback(payload, now, height);
      } else {
        r := FailedCallback(payload);
      }
      if r.Err? {
        mail := before;
      }
    }

    // ---- All messages ----

    method ConfigStack(sender: string, c: StackParams) returns (r: Result<Effects>)
      modifies `stack
      ensures Agrees(old(State()), Steps.ConfigStack(old(State()), sender, c), State(), r)
    {
      if stack.admin != sender {
        return Err(Unauthorized);
      }
      if c.feeReceiver.Some? {
        stack := stack.(feeReceiver := c.feeReceiver.value);
      }
      if c.feeCommission.Some? {
        stack := stack.(feeCommission := c.feeCommission.value);
      }
      if c.newAdmin.Some? {
        stack := stack.(admin := c.newAdmin.value);
      }
      if c.tokenCode.Some? {
        stack := stack.(tokenCode := c.tokenCode.value);
      }
      if c.entrust.Some? {
        if c.entrust.value !in stack.entrusted {
          stack := stack.(entrusted := stack.entrusted + [c.entrust.value]);
        }
      }
      return Ok(NO_EFFECTS);
    }

    method ExecuteAdmin(a: Steps.Action, now: nat) returns (r: Result<Effects>)
      requires Steps.ByAdmin(a)
      modifies this
      ensures Agrees(old(State()), Steps.ApplyAdmin(old(State()), a, now), State(), r)
    {
      match a {
        case DoInitPool(sender, params, key) => r := InitPool(sender, params, now, key);
        case DoMigratePool(sender, params, key) => r := MigratePool(sender, params, key);
        case DoConfigPool(sender, config) => r := ConfigPool(sender, config, now);
        case DoPoolDelegate(sender, amount) => r := PoolDelegate(sender, amount);
        case DoAddValidator(sender, v) => r := AddValidator(sender, v);
        case DoUpdateValidator(sender, v, target, query, key) => r := UpdateValidator(sender, v, target, query, key);
        case DoRmValidator(sender, v, query, key) => r := RmValidator(sender, v, query, key);
        case DoUpdateValidatorsIcq(sender) => r := UpdateValidatorsIcq(sender);
      }
    }

    method ExecuteUser(a: Steps.Action) returns (r: Result<Effects>)
      requires Steps.ByUser(a)
      modifies this
      ensures Agrees(old(State()), Steps.ApplyUser(old(State()), a), State(), r)
    {
      match a {
        case DoStake(sender, amount) => r := Stake(sender, amount);
        case DoUnstake(sender, amount) => r := Unstake(sender, amount);
        case DoWithdraw(sender, receiver, indices, key) => r := Withdraw(sender, receiver, indices, key);
        case DoStakeLsm(sender, ibcDenom, denom, validator, amount, tokens, shares, key) =>
          r := StakeLsm(sender, ibcDenom, denom, validator, amount, tokens, shares, key);
        case DoRedeem(tokens, key) => r := RedeemShares(tokens, key);
      }
    }

    method ExecuteEra(a: Steps.Action, now: nat, height: nat) returns (r: Result<Effects>)
      requires a.DoEraUpdate? || a.DoEraBond? || a.DoCollectWithdraw? || a.DoRebond? || a.DoEraActive? || a.DoDeliver?
      modifies this
      ensures Agrees(old(State()), Steps.ApplyEra(old(State()), a, now, height), State(), r)
    {
      match a {
        case DoEraUpdate(key) => r := EraUpdate(now, height, key);
        case DoEraBond(query, selected, key) => r := EraBond(query, selected, now, key);
        case DoCollectWithdraw(balance, key) => r := CollectWithdraw(balance, key);
        case DoRebond(selected, key) => r := Rebond(selected, key);
        case DoEraActive(query) => r := EraActive(query);
        case DoDeliver(key, success) => r := Sudo(key, success, now, height);
      }
    }

    /** Any message: the object goes through the very states the runs of Worlds go through. */
    method Execute(a: Steps.Action, now: nat, height: nat) returns (r: Result<Effects>)
      modifies this
      ensures Agrees(old(State()), Steps.Apply(old(State()), a, now, height), State(), r)
    {
      if a.DoConfigStack? {
        r := ConfigStack(a.sender, a.stackConfig);
      } else if Steps.ByAdmin(a) {
        r := ExecuteAdmin(a, now);
      } else if Steps.ByUser(a) {
        r := ExecuteUser(a);
      } else {
        r := ExecuteEra(a, now, height);
      }
    }
  }
}
