/** What every message of the pool does, as a function of the stored state: either an error, which
    leaves everything as it was, or the new state with the messages sent along. */
module PoolSteps {
  import opened Arith
  import opened Allocation
  import opened Payload
  import opened PoolTypes

  // ---- Payload plumbing ----

  /** The id after `id` in the ring of reply ids. */
  function NextReplyId(id: nat): nat {
    if id + 1 > REPLY_ID_RANGE_END then REPLY_ID_RANGE_START else id + 1
  }

  /** A packet is sent with a payload: the payload is stored under a reply id, and the reply of the
      same transaction moves it to the channel and sequence number the packet was given. */
  function Submit(s: PoolState, key: PacketKey, payload: SudoPayload): PoolState {
    s.(mail := Mail(NextReplyId(s.mail.latestReplyId),
                    s.mail.replyPayloads[s.mail.latestReplyId := payload],
                    s.mail.sudoPayloads[key := payload]))
  }

  // ---- Era clock ----

  function SatAddSigned(q: nat, offset: int): nat {
    if q + offset < 0 then 0 else if q + offset > U64_MAX then U64_MAX else q + offset
  }

  function CurrentEra(now: nat, eraSeconds: nat, offset: int): Result<nat> {
    var q :- Div(now, eraSeconds);
    Ok(SatAddSigned(q, offset))
  }

  /** The two's complement reading of a 64-bit word. */
  function AsI64(n: nat): int {
    var w := n % (U64_MAX + 1);
    if w <= I64_MAX then w else w - (U64_MAX + 1)
  }

  function Sub64Signed(a: int, b: int): Result<int> {
    if -(I64_MAX + 1) <= a - b <= I64_MAX then Ok(a - b) else Err(Overflow)
  }

  /** Eras covering the unbonding time, rounded up, and one more. */
  function UnbondingEras(eraSeconds: nat): nat
    requires eraSeconds > 0
  {
    (UNBONDING_SECONDS + eraSeconds - 1) / eraSeconds + 1
  }

  // ---- Setting a pool up ----

  function InitPool(s: PoolState, sender: string, params: InitParams, now: nat, key: PacketKey): Result<Outcome> {
    var p := s.pool;
    if sender != s.stack.admin then Err(Unauthorized) else
    if !(0 < |params.validators| <= VALIDATOR_LEN_LIMIT) then Err(ValidatorAddressesListSize) else
    if sender != p.config.admin then Err(Unauthorized) else
    if p.status == InitFailed then Ok(Outcome(Submit(s, key, SudoPayload("", TxSetWithdrawAddr)), NO_EFFECTS))
    else
      if p.status != RegisterEnded then Err(StatusNotAllow) else
      if params.eraSeconds.Some? && params.eraSeconds.value < MIN_ERA_SECONDS then Err(LessThanMinimalEraSeconds) else
      var eraSeconds := params.eraSeconds.GetOr(DEFAULT_ERA_SECONDS);
      var quotient :- Div(now, eraSeconds);
      var pool := p.(
        book := Book(0, 0, 0, CAL_BASE, 0, 0),
        clock := Clock(0, eraSeconds, 0 - AsI64(quotient), params.unbondingPeriod),
        config := Config(p.config.admin, false, params.minimalStake, 20, 0,
                         params.platformFeeCommission.GetOr(100_000), params.platformFeeReceiver, false, 100, 0),
        validators := params.validators, shareTokens := p.shareTokens.(pending := []), nextUnstakeIndex := 0,
        validatorUpdate := End);
      Ok(DealPool(s, pool, key))
  }

  function MigratePool(s: PoolState, sender: string, params: MigrateParams, key: PacketKey): Result<Outcome> {
    var p := s.pool;
    if !(0 < |params.validators| <= VALIDATOR_LEN_LIMIT) then Err(ValidatorAddressesListSize) else
    if sender != p.config.admin then Err(Unauthorized) else
    if p.status == InitFailed then Ok(Outcome(Submit(s, key, SudoPayload("", TxSetWithdrawAddr)), NO_EFFECTS))
    else
      if p.status != RegisterEnded then Err(StatusNotAllow) else
      if params.rate == 0 then Err(RateIsZero) else
      var pool := p.(
        book := Book(params.bond, params.unbond, params.active, params.rate, params.totalLsd, params.totalPlatformFee),
        clock := Clock(params.era, params.eraSeconds, params.offset, params.unbondingPeriod),
        config := Config(p.config.admin, false, params.minimalStake, 20, 0,
                         params.platformFeeCommission.GetOr(100_000), params.platformFeeReceiver, true, 50, 0),
        validators := params.validators, shareTokens := p.shareTokens.(pending := params.shareTokens),
        nextUnstakeIndex := 0, validatorUpdate := End);
      var expected :- if pool.book.totalLsd == 0 then Ok(CAL_BASE)
        else MulDiv(pool.book.active, CAL_BASE, pool.book.totalLsd);
      if expected != pool.book.rate then Err(RateNotMatch) else
      Ok(DealPool(s, pool, key))
  }

  function DealPool(s: PoolState, pool: PoolInfo, key: PacketKey): Outcome {
    var s1 := s.(
      pool := pool.(status := InitStarted),
      stack := s.stack.(eraRate := s.stack.eraRate[pool.clock.era := pool.book.rate], totalFee := 0));
    Outcome(Submit(s1, key, SudoPayload("", TxSetWithdrawAddr)), NO_EFFECTS)
  }

  function ConfigPool(s: PoolState, sender: string, c: ConfigParams, now: nat): Result<Outcome> {
    var p := s.pool;
    if sender != p.config.admin then Err(Unauthorized) else
    var clock := p.clock.(unbondingPeriod := c.unbondingPeriod.GetOr(p.clock.unbondingPeriod));
    var reset :- if c.eraSeconds.None? then Ok(clock) else ResetClock(clock, c.eraSeconds.value, now);
    Ok(Outcome(s.(pool := p.(clock := reset, config := Reconfigured(p.config, c))), NO_EFFECTS))
  }

  /** A pool is entrusted once. */
  function Entrusted(pools: seq<string>, pool: Option<string>): seq<string> {
    if pool.Some? && pool.value !in pools then pools + [pool.value] else pools
  }

  function ConfigStack(s: PoolState, sender: string, c: StackParams): Result<Outcome> {
    if sender != s.stack.admin then Err(Unauthorized) else
    Ok(Outcome(s.(stack := s.stack.(feeReceiver := c.feeReceiver.GetOr(s.stack.feeReceiver),
                                    feeCommission := c.feeCommission.GetOr(s.stack.feeCommission),
                                    admin := c.newAdmin.GetOr(s.stack.admin),
                                    tokenCode := c.tokenCode.GetOr(s.stack.tokenCode),
                                    entrusted := Entrusted(s.stack.entrusted, c.entrust))), NO_EFFECTS))
  }

  /** The settings with every given parameter replaced. */
  function Reconfigured(base: Config, c: ConfigParams): Config {
    Config(
      c.newAdmin.GetOr(base.admin), c.paused.GetOr(base.paused), c.minimalStake.GetOr(base.minimalStake),
      c.unstakeTimesLimit.GetOr(base.unstakeTimesLimit), c.unbondCommission.GetOr(base.unbondCommission),
      c.platformFeeCommission.GetOr(base.platformFeeCommission), c.platformFeeReceiver.GetOr(base.platformFeeReceiver),
      c.lsmSupport.GetOr(base.lsmSupport), c.lsmPendingLimit.GetOr(base.lsmPendingLimit),
      c.rateChangeLimit.GetOr(base.rateChangeLimit))
  }

  /** A new era length, with the offset that keeps the era number and the unbonding period it implies. */
  function ResetClock(clock: Clock, eraSeconds: nat, now: nat): Result<Clock> {
    if eraSeconds < MIN_ERA_SECONDS then Err(LessThanMinimalEraSeconds) else
    if eraSeconds > MAX_ERA_SECONDS then Err(ExceedMaxEraSeconds) else
    var current :- CurrentEra(now, clock.eraSeconds, clock.offset);
    var quotient :- Div(now, eraSeconds);
    var offset :- Sub64Signed(AsI64(current), AsI64(quotient));
    Ok(clock.(eraSeconds := eraSeconds, offset := offset, unbondingPeriod := UnbondingEras(eraSeconds)))
  }

  // ---- Users ----

  function Stake(s: PoolState, staker: string, amount: nat): Result<Outcome> {
    var p := s.pool;
    if p.config.paused then Err(PoolIsPaused) else
    if amount < p.config.minimalStake then Err(LessThanMinimalStake) else
    var active :- Add(p.book.active, amount);
    var bond :- Add(p.book.bond, amount);
    var minted :- MulDiv(amount, CAL_BASE, p.book.rate);
    var total :- Add(p.book.totalLsd, minted);
    Ok(Outcome(s.(pool := p.(book := p.book.(active := active, bond := bond, totalLsd := total))),
               NO_EFFECTS.(token := [Mint(staker, minted)])))
  }

  /** The commission kept back from an unstake. */
  function UnstakeFee(p: PoolInfo, lsdAmount: nat): Result<nat> {
    if p.config.unbondCommission > 0 then MulDiv(lsdAmount, p.config.unbondCommission, CAL_BASE) else Ok(0)
  }

  function Unstake(s: PoolState, user: string, lsdAmount: nat): Result<Outcome> {
    var p := s.pool;
    if lsdAmount == 0 then Err(LsdTokenAmountZero) else
    var mine := if user in s.ledger.userIndex then s.ledger.userIndex[user] else [];
    if |mine| >= p.config.unstakeTimesLimit then Err(UnstakeTimesLimitReached) else
    var fee :- UnstakeFee(p, lsdAmount);
    var burned :- Sub(lsdAmount, fee);
    if burned == 0 then Err(BurnLsdTokenAmountIsZero) else
    var tokens :- MulDiv(burned, p.book.rate, CAL_BASE);
    var index :- Add64(p.nextUnstakeIndex, 1);
    var unbond :- Add(p.book.unbond, tokens);
    var active :- Sub(p.book.active, tokens);
    var total :- Sub(p.book.totalLsd, burned);
    if tokens <= 5 then Err(ZeroWithdrawAmount) else
    Ok(Outcome(
      s.(pool := p.(nextUnstakeIndex := index, book := p.book.(unbond := unbond, active := active, totalLsd := total)),
         ledger := Ledger(
           s.ledger.unstakes[index := UnstakeInfo(p.clock.era, user, tokens - 5, Default, index)],
           s.ledger.userIndex[user := mine + [index]])),
      NO_EFFECTS.(token := (if fee > 0 then [TransferFrom(user, p.config.platformFeeReceiver, fee)] else [])
                           + [BurnFrom(user, burned)])))
  }

  datatype Marked = Marked(table: map<nat, UnstakeInfo>, total: nat)

  /** Marks the listed records pending one by one, adding up their amounts. */
  function MarkPending(table: map<nat, UnstakeInfo>, indices: seq<nat>, sender: string, era: nat, period: nat,
                       total: nat): Result<Marked> {
    if indices == [] then Ok(Marked(table, total))
    else
      var i := indices[0];
      if i !in table then Err(NotFound) else
      var record := table[i];
      if record.unstaker != sender then Err(UnstakerNotMatch) else
      if record.status == Pending then Err(UnstakeStatusNotMatch) else
      var due :- Add64(record.era, period);
      if due > era then Err(UnstakeNotWithdrawable) else
      var sum :- Add(total, record.amount);
      MarkPending(table[i := record.(status := Pending)], indices[1..], sender, era, period, sum)
  }

  function Withdraw(s: PoolState, sender: string, receiver: string, indices: seq<nat>,
                    key: PacketKey): Result<Outcome> {
    var p := s.pool;
    if indices == [] then Err(EmptyUnstakeList) else
    var marked :- MarkPending(s.ledger.unstakes, indices, sender, p.clock.era, p.clock.unbondingPeriod, 0);
    if marked.total == 0 then Err(ZeroWithdrawAmount) else
    Ok(Outcome(
      Submit(s.(ledger := s.ledger.(unstakes := marked.table)), key,
             SudoPayload(WithdrawMessage(marked.total, sender, receiver, indices), TxUserWithdraw)),
      NO_EFFECTS.(remote := [Send(receiver, marked.total)])))
  }

  /** The entries of a user's list that the payload does not name, and those it does. */
  function Kept(list: seq<nat>, fields: seq<string>): seq<nat> {
    if list == [] then []
    else (if Dec(list[0]) in fields then [] else [list[0]]) + Kept(list[1..], fields)
  }

  function Dropped(list: seq<nat>, fields: seq<string>): set<nat> {
    set i | i in list && Dec(i) in fields
  }

  /** The ledger without the records that the payload names. */
  function PaidOut(l: Ledger, message: string): Result<Ledger> {
    var parts := Split(message);
    if |parts| <= 3 then Err(UnsupportedMessage) else
    var user := parts[1];
    if user !in l.userIndex then Ok(l)
    else
      Ok(Ledger(l.unstakes - Dropped(l.userIndex[user], parts[1..]),
                l.userIndex[user := Kept(l.userIndex[user], parts[1..])]))
  }

  function WithdrawDone(s: PoolState, message: string): Result<Outcome> {
    var ledger :- PaidOut(s.ledger, message);
    Ok(Outcome(s.(ledger := ledger), NO_EFFECTS))
  }

  /** Makes the named records withdrawable again. */
  function Reopen(table: map<nat, UnstakeInfo>, fields: seq<string>): Result<map<nat, UnstakeInfo>> {
    if fields == [] then Ok(table)
    else
      var index := ParseUint(fields[0], U64_MAX);
      if !(index.Some? && index.value in table) then Err(NotFound) else
      Reopen(table[index.value := table[index.value].(status := Default)], fields[1..])
  }

  function Reverted(l: Ledger, message: string): Result<Ledger> {
    var parts := Split(message);
    var table :- Reopen(l.unstakes, if |parts| <= 3 then [] else parts[3..]);
    Ok(l.(unstakes := table))
  }

  function WithdrawFailed(s: PoolState, message: string): Result<Outcome> {
    var ledger :- Reverted(s.ledger, message);
    Ok(Outcome(s.(ledger := ledger), NO_EFFECTS))
  }

  // ---- Liquid shares ----

  function StakeLsm(s: PoolState, staker: string, ibcDenom: string, denom: string, validator: string,
                    shares: nat, validatorTokens: nat, validatorShares: nat, key: PacketKey): Result<Outcome> {
    var p := s.pool;
    if !p.config.lsmSupport then Err(LsmStakeNotSupport) else
    if |p.shareTokens.pending| >= p.config.lsmPendingLimit then Err(LsmPendingStakeOverLimit) else
    if p.status != ActiveEnded then Err(EraProcessNotEnd) else
    if p.validatorUpdate != End then Err(PoolIcqNotUpdated) else
    if p.config.paused then Err(PoolIsPaused) else
    if shares < p.config.minimalStake then Err(LessThanMinimalStake) else
    if validator !in p.validators then Err(ValidatorNotSupport) else
    var tokens :- MulDiv(shares, validatorTokens, validatorShares / SHARE_BASE);
    if tokens == 0 then Err(TokenAmountZero) else
    Ok(Outcome(
      Submit(s, key, SudoPayload(LsmMessage(staker, tokens, shares, ibcDenom, denom), TxStakeLsm)),
      NO_EFFECTS.(remote := [IbcTransfer(shares)])))
  }

  function StakeLsmDone(s: PoolState, message: string): Result<Outcome> {
    var parts := Split(message);
    if |parts| != 5 then Err(UnsupportedMessage) else
    var tokens := ParseUint(parts[1], U128_MAX);
    var shares := ParseUint(parts[2], U128_MAX);
    if !(tokens.Some? && shares.Some?) then Err(UnsupportedMessage) else
    var p := s.pool;
    var active :- Add(p.book.active, tokens.value);
    var minted :- MulDiv(tokens.value, CAL_BASE, p.book.rate);
    var total :- Add(p.book.totalLsd, minted);
    Ok(Outcome(
      s.(pool := p.(book := p.book.(active := active, totalLsd := total),
                    shareTokens := p.shareTokens.(pending := p.shareTokens.pending + [Coin(parts[4], shares.value)]))),
      NO_EFFECTS.(token := [Mint(parts[0], minted)])))
  }

  function StakeLsmFailed(s: PoolState, message: string): Result<Outcome> {
    var parts := Split(message);
    if |parts| != 5 then Err(UnsupportedMessage) else
    var shares := ParseUint(parts[2], U128_MAX);
    if !shares.Some? then Err(UnsupportedMessage) else
    Ok(Outcome(s, NO_EFFECTS.(bank := [BankSend(parts[0], parts[3], shares.value)])))
  }

  /** The denominations of the tokens to redeem: each is waiting, and none is named twice. */
  function Denoms(tokens: seq<Coin>, pending: seq<Coin>, denoms: seq<string>): Result<seq<string>> {
    if tokens == [] then Ok(denoms) else
    if tokens[0] !in pending then Err(ShareTokenNotExist) else
    if tokens[0].denom in denoms then Err(DuplicateToken) else
    Denoms(tokens[1..], pending, denoms + [tokens[0].denom])
  }

  function Redemptions(tokens: seq<Coin>): seq<RemoteMsg> {
    if tokens == [] then [] else [RemoteMsg.Redeem(tokens[0].denom, tokens[0].amount)] + Redemptions(tokens[1..])
  }

  function RedeemShares(s: PoolState, tokens: seq<Coin>, key: PacketKey): Result<Outcome> {
    var p := s.pool;
    if !(0 < |tokens| <= 10) then Err(TokensLenNotMatch) else
    if !p.config.lsmSupport then Err(LsmStakeNotSupport) else
    var denoms :- Denoms(tokens, p.shareTokens.pending, []);
    Ok(Outcome(
      Submit(s.(pool := p.(shareTokens := p.shareTokens.(redeeming := p.shareTokens.redeeming + denoms))), key,
             SudoPayload(Join(denoms, COMMA), TxRedeemShares)),
      NO_EFFECTS.(remote := Redemptions(tokens))))
  }

  /** The coins whose denomination is not among the given ones, and the denominations that are not. */
  function NotOf(coins: seq<Coin>, denoms: seq<string>): seq<Coin> {
    if coins == [] then []
    else (if coins[0].denom in denoms then [] else [coins[0]]) + NotOf(coins[1..], denoms)
  }

  function NotIn(names: seq<string>, denoms: seq<string>): seq<string> {
    if names == [] then [] else (if names[0] in denoms then [] else [names[0]]) + NotIn(names[1..], denoms)
  }

  function RedeemDone(s: PoolState, message: string): Result<Outcome> {
    var tokens, denoms := s.pool.shareTokens, Split(message, COMMA);
    var left := ShareTokens(NotOf(tokens.pending, denoms), NotIn(tokens.redeeming, denoms));
    Ok(Outcome(s.(pool := s.pool.(shareTokens := left)), NO_EFFECTS))
  }

  function RedeemFailed(s: PoolState, message: string): Result<Outcome> {
    var tokens := s.pool.shareTokens;
    var left := tokens.(redeeming := NotIn(tokens.redeeming, Split(message, COMMA)));
    Ok(Outcome(s.(pool := s.pool.(shareTokens := left)), NO_EFFECTS))
  }

  // ---- The era ----

  function EraUpdate(s: PoolState, now: nat, height: nat, key: PacketKey): Result<Outcome> {
    var p := s.pool;
    if p.config.paused then Err(PoolIsPaused) else
    if !(p.status == ActiveEnded && p.validatorUpdate == End) then Err(StatusNotAllow) else
    var current :- CurrentEra(now, p.clock.eraSeconds, p.clock.offset);
    if current <= p.clock.era then Err(AlreadyLatestEra) else
    var era :- Add64(p.clock.era, 1);
    var snapshot := EraSnapshot(era, p.book.bond, p.book.unbond, p.book.active, 0, height);
    var p1 := p.(clock := p.clock.(era := era), snapshot := snapshot);
    if p.book.bond == 0 then Ok(Outcome(s.(pool := p1.(status := EraUpdateEnded)), NO_EFFECTS))
    else
      Ok(Outcome(
        Submit(s.(pool := p1.(status := EraUpdateStarted)), key, SudoPayload("", TxEraUpdate)),
        NO_EFFECTS.(remote := [IbcTransfer(p.book.bond)])))
  }

  function EraUpdateDone(s: PoolState, height: nat): Result<Outcome> {
    var p := s.pool;
    Ok(Outcome(s.(pool := p.(status := EraUpdateEnded, snapshot := p.snapshot.(lastStepHeight := height))), NO_EFFECTS))
  }

  function EraUpdateFailed(s: PoolState): Result<Outcome> {
    var p := s.pool;
    var era :- Sub(p.clock.era, 1);
    Ok(Outcome(s.(pool := p.(clock := p.clock.(era := era), status := ActiveEnded, snapshot := NO_SNAPSHOT)),
               NO_EFFECTS))
  }

  function Undelegations(infos: seq<UnbondInfo>): seq<RemoteMsg> {
    if infos == [] then [] else [Undelegate(infos[0].validator, infos[0].amount)] + Undelegations(infos[1..])
  }

  function Validators(infos: seq<UnbondInfo>): seq<string> {
    if infos == [] then [] else [infos[0].validator] + Validators(infos[1..])
  }

  predicate AllSupported(vals: seq<string>, supported: seq<string>) {
    forall i :: 0 <= i < |vals| ==> vals[i] in supported
  }

  /** The bond step of an era whose withdrawals are at least its deposits. */
  function BondByUnbonding(s: PoolState, query: Option<DelegationQuery>, now: nat): Result<(Plan, set<string>)> {
    var p := s.pool;
    var amount :- Sub(p.snapshot.unbond, p.snapshot.bond);
    if !query.Some? then Err(NotFound) else
    if query.value.height <= p.snapshot.lastStepHeight then Err(DelegationSubmissionHeight) else
    var ds := query.value.delegations;
    var plan :- if amount == 0 then Ok(Plan([], s.unbondTimes))
                else
                  var period :- Mul64(p.clock.unbondingPeriod, p.clock.eraSeconds);
                  Allocate(ds, amount, s.unbondTimes, now, period);
    Ok((plan, RewardOnly(ds, plan.infos)))
  }

  function EraBond(s: PoolState, query: Option<DelegationQuery>, selected: seq<string>, now: nat,
                   key: PacketKey): Result<Outcome> {
    var p := s.pool;
    if p.status != EraUpdateEnded then Err(StatusNotAllow) else
    var s1 := s.(pool := p.(status := BondStarted));
    if p.snapshot.unbond >= p.snapshot.bond then
      var (plan, rewards) :- BondByUnbonding(s, query, now);
      Ok(Outcome(
        Submit(s1.(unbondTimes := plan.times), key, SudoPayload(Join(Validators(plan.infos)), TxEraBond)),
        NO_EFFECTS.(remote := Undelegations(plan.infos), rewards := rewards)))
    else
      var amount := p.snapshot.bond - p.snapshot.unbond;
      if selected == [] then Err(ValidatorsEmpty) else
      if !AllSupported(selected, p.validators) then Err(ValidatorNotSupport) else
      Ok(Outcome(
        Submit(s1, key, SudoPayload("", TxEraBond)),
        NO_EFFECTS.(remote :=
          if amount < STAKE_SPLIT_THRESHOLD then Small(amount, selected, 0) else Shares(amount, selected, 0))))
  }

  /** Notes an acknowledged undelegation with each validator in turn. */
  function Stamp(times: Times, vals: seq<string>, now: nat): Times
    decreases |vals|
  {
    if vals == [] then times
    else
      var past := if vals[0] in times then times[vals[0]] else [];
      Stamp(times[vals[0] := past + [now]], vals[1..], now)
  }

  function EraBondDone(s: PoolState, message: string, now: nat, height: nat): Result<Outcome> {
    var p := s.pool;
    var times := if |message| > 0 then Stamp(s.unbondTimes, Split(message), now) else s.unbondTimes;
    var bond :- Sub(p.book.bond, p.snapshot.bond);
    var unbond :- Sub(p.book.unbond, p.snapshot.unbond);
    Ok(Outcome(
      s.(unbondTimes := times,
         pool := p.(status := BondEnded, book := p.book.(bond := bond, unbond := unbond),
                    snapshot := p.snapshot.(lastStepHeight := height))),
      NO_EFFECTS))
  }

  function CollectWithdraw(s: PoolState, query: Option<BalanceQuery>, key: PacketKey): Result<Outcome> {
    var p := s.pool;
    if p.status != BondEnded then Err(StatusNotAllow) else
    if !(query.Some? ==> query.value.height > p.snapshot.lastStepHeight) then Err(WithdrawAddrBalanceSubmissionHeight)
    else
    var amount := if query.Some? then query.value.amount else 0;
    if amount == 0 then Ok(Outcome(s.(pool := p.(status := WithdrawEnded)), NO_EFFECTS))
    else
      Ok(Outcome(
        Submit(s.(pool := p.(status := WithdrawStarted, snapshot := p.snapshot.(restakeAmount := amount))),
               key, SudoPayload("", TxEraCollectWithdraw)),
        NO_EFFECTS.(remote := [Send("pool", amount)])))
  }

  function CollectWithdrawDone(s: PoolState, height: nat): Result<Outcome> {
    var p := s.pool;
    Ok(Outcome(s.(pool := p.(status := WithdrawEnded, snapshot := p.snapshot.(lastStepHeight := height))), NO_EFFECTS))
  }

  /** The stored status stays at WithdrawEnded while the packet is out: the record is saved only
      when there is nothing to restake. */
  function Rebond(s: PoolState, selected: seq<string>, key: PacketKey): Result<Outcome> {
    var p := s.pool;
    if p.status != WithdrawEnded then Err(StatusNotAllow) else
    var amount := p.snapshot.restakeAmount;
    if amount == 0 then Ok(Outcome(s.(pool := p.(status := RebondEnded)), NO_EFFECTS))
    else
      if selected == [] then Err(ValidatorsEmpty) else
      if !AllSupported(selected, p.validators) then Err(ValidatorNotSupport) else
      Ok(Outcome(Submit(s, key, SudoPayload("", TxEraRebond)), NO_EFFECTS.(remote := Shares(amount, selected, 0))))
  }

  function RebondDone(s: PoolState, height: nat): Result<Outcome> {
    var p := s.pool;
    Ok(Outcome(s.(pool := p.(status := RebondEnded, snapshot := p.snapshot.(lastStepHeight := height))), NO_EFFECTS))
  }

  function SumDelegations(ds: seq<Delegation>, total: nat): Result<nat> {
    if ds == [] then Ok(total)
    else
      var sum :- Add(total, ds[0].amount);
      SumDelegations(ds[1..], sum)
  }

  datatype Fees = Fees(platform: nat, stack: nat)

  /** Fees are minted on what the delegations gained over the snapshot. */
  function EraFees(p: PoolInfo, stackFeeCommission: nat, reported: nat): Result<Fees> {
    if reported > p.snapshot.active then
      var raw :- MulDiv(reported - p.snapshot.active, p.config.platformFeeCommission, p.book.rate);
      var stack :- MulDiv(raw, stackFeeCommission, CAL_BASE);
      var platform :- Sub(raw, stack);
      Ok(Fees(platform, stack))
    else Ok(Fees(0, 0))
  }

  /** How far the rate moves, as a share of the rate it moves from. */
  function RateChange(from: nat, to: nat): Result<nat> {
    MulDiv(if from > to then from - to else to - from, CAL_BASE, from)
  }

  /** The first stakes of a pool may lose a little to rounding; then the rate is kept. */
  predicate FirstStake(p: PoolInfo, newRate: nat, newActive: nat) {
    p.book.rate == DEFAULT_RATE && newRate < DEFAULT_RATE && p.book.active < newActive + 1000
  }

  /** The active stake, the token total and the rate at the end of an era. */
  function ClosedBook(p: PoolInfo, reported: nat, fees: Fees): Result<Book> {
    var gross :- Add(p.book.active, reported);
    var newActive := if gross > p.snapshot.active then gross - p.snapshot.active else 0;
    var withPlatform :- Add(p.book.totalLsd, fees.platform);
    var total :- Add(withPlatform, fees.stack);
    var newRate :- if total > 0 then MulDiv(newActive, CAL_BASE, total) else Ok(CAL_BASE);
    var change :- if p.config.rateChangeLimit != 0 then RateChange(p.book.rate, newRate) else Ok(0);
    if change > p.config.rateChangeLimit then Err(RateChangeOverLimit) else
    var keep := FirstStake(p, newRate, newActive);
    Ok(p.book.(rate := if keep then DEFAULT_RATE else newRate, active := if keep then p.book.active else newActive,
               totalLsd := total))
  }

  /** The delegations as reported, once the era is through and the report is recent enough. */
  function Reported(p: PoolInfo, query: Option<DelegationQuery>): Result<nat> {
    if p.status != RebondEnded then Err(StatusNotAllow) else
    if p.shareTokens.pending != [] then Err(PendingShareNotEmpty) else
    if !query.Some? then Err(DelegationsNotExist) else
    if query.value.height <= p.snapshot.lastStepHeight then Err(DelegationSubmissionHeight) else
    SumDelegations(query.value.delegations, 0)
  }

  /** The era ends with the new book, and the fees are minted. */
  function EndEra(s: PoolState, fees: Fees, book: Book): Result<Outcome> {
    var p := s.pool;
    var totalPlatformFee :- if fees.platform > 0 then Add(p.book.totalPlatformFee, fees.platform)
      else Ok(p.book.totalPlatformFee);
    var totalStackFee :- if fees.stack > 0 then Add(s.stack.totalFee, fees.stack) else Ok(s.stack.totalFee);
    Ok(Outcome(
      s.(pool := p.(status := ActiveEnded, book := book.(totalPlatformFee := totalPlatformFee)),
         stack := s.stack.(totalFee := totalStackFee, eraRate := s.stack.eraRate[p.clock.era := book.rate])),
      NO_EFFECTS.(token := (if fees.platform > 0 then [Mint(p.config.platformFeeReceiver, fees.platform)] else [])
                           + (if fees.stack > 0 then [Mint(s.stack.feeReceiver, fees.stack)] else []))))
  }

  function EraActive(s: PoolState, query: Option<DelegationQuery>): Result<Outcome> {
    var reported :- Reported(s.pool, query);
    var fees :- EraFees(s.pool, s.stack.feeCommission, reported);
    var book :- ClosedBook(s.pool, reported, fees);
    EndEra(s, fees, book)
  }

  // ---- The validator set ----

  function Without(vals: seq<string>, v: string): seq<string> {
    if vals == [] then [] else (if vals[0] == v then [] else [vals[0]]) + Without(vals[1..], v)
  }

  /** The redelegations away from a validator, up to the first empty delegation to it. */
  function Redelegations(ds: seq<Delegation>, source: string, target: string): seq<RemoteMsg> {
    if ds == [] then []
    else if ds[0].validator != source then Redelegations(ds[1..], source, target)
    else if ds[0].amount == 0 then []
    else [Redelegate(source, target, ds[0].amount)] + Redelegations(ds[1..], source, target)
  }

  /** The administrator delegates directly from the remote account; nothing is booked. */
  function PoolDelegate(s: PoolState, sender: string, amount: nat): Result<Outcome> {
    if s.pool.status != ActiveEnded then Err(StatusNotAllow)
    else if sender != s.pool.config.admin then Err(Unauthorized)
    else if s.pool.validators == [] then Err(ValidatorsEmpty)
    else Ok(Outcome(s, NO_EFFECTS.(remote := Shares(amount, s.pool.validators, 0))))
  }

  function AddValidator(s: PoolState, sender: string, v: string): Result<Outcome> {
    var p := s.pool;
    if sender != p.config.admin then Err(Unauthorized) else
    if p.status != ActiveEnded then Err(EraProcessNotEnd) else
    if |p.validators| >= VALIDATOR_LEN_LIMIT then Err(ValidatorAddressesListSize) else
    if v in p.validators then Err(ValidatorAlreadyExit) else
    Ok(Outcome(s.(pool := p.(validators := p.validators + [v])), NO_EFFECTS))
  }

  function UpdateValidator(s: PoolState, sender: string, source: string, target: string,
                           query: Option<DelegationQuery>, key: PacketKey): Result<Outcome> {
    var p := s.pool;
    if sender != p.config.admin then Err(Unauthorized) else
    if p.status != ActiveEnded then Err(EraProcessNotEnd) else
    if p.validatorUpdate != End then Err(StatusNotAllow) else
    if source !in p.validators then Err(OldValidatorNotExist) else
    if target in p.validators then Err(NewValidatorAlreadyExist) else
    if !query.Some? then Err(NotFound) else
    var vals := Without(p.validators, source) + [target];
    var msgs := Redelegations(query.value.delegations, source, target);
    if msgs == [] then
      Ok(Outcome(s.(pool := p.(validators := vals, validatorUpdate := WaitQueryUpdate)), NO_EFFECTS))
    else
      Ok(Outcome(
        Submit(s.(pool := p.(validators := vals, validatorUpdate := Start)), key,
               SudoPayload(Join(vals), TxUpdateValidator)),
        NO_EFFECTS.(remote := msgs)))
  }

  function UpdateValidatorDone(s: PoolState, message: string): Result<Outcome> {
    Ok(Outcome(s.(pool := s.pool.(validators := Split(message), validatorUpdate := WaitQueryUpdate)), NO_EFFECTS))
  }

  function FindDelegation(ds: seq<Delegation>, v: string): Option<nat> {
    if ds == [] then None else if ds[0].validator == v then Some(ds[0].amount) else FindDelegation(ds[1..], v)
  }

  function RmValidator(s: PoolState, sender: string, v: string, query: Option<DelegationQuery>,
                       key: PacketKey): Result<Outcome> {
    var p := s.pool;
    if sender != p.config.admin then Err(Unauthorized) else
    if p.status != ActiveEnded then Err(EraProcessNotEnd) else
    if v !in p.validators then Err(OldValidatorNotExist) else
    if p.validatorUpdate != End then Err(StatusNotAllow) else
    if !query.Some? then Err(NotFound) else
    if |p.validators| <= 1 then Err(ValidatorAddressesListSize) else
    var left := Without(p.validators, v);
    var amount := FindDelegation(query.value.delegations, v);
    if amount.None? || amount.value == 0 then
      Ok(Outcome(s.(pool := p.(validators := left, validatorUpdate := WaitQueryUpdate)), NO_EFFECTS))
    else
      if left == [] then Err(ValidatorsEmpty) else
      Ok(Outcome(
        Submit(s.(pool := p.(validatorUpdate := Start)), key, SudoPayload(v, TxRmValidator)),
        NO_EFFECTS.(remote := [Redelegate(v, left[0], amount.value)])))
  }

  function RmValidatorDone(s: PoolState, message: string): Result<Outcome> {
    Ok(Outcome(s.(pool := s.pool.(validators := Without(s.pool.validators, message),
                                  validatorUpdate := WaitQueryUpdate)), NO_EFFECTS))
  }

  function UpdateValidatorsIcq(s: PoolState, sender: string): Result<Outcome> {
    if sender != s.pool.config.admin then Err(Unauthorized) else
    if s.pool.validatorUpdate != WaitQueryUpdate then Err(StatusNotAllow) else
    Ok(Outcome(s.(pool := s.pool.(validatorUpdate := End)), NO_EFFECTS))
  }

  function WithStatus(s: PoolState, status: EraStatus): Result<Outcome> {
    Ok(Outcome(s.(pool := s.pool.(status := status)), NO_EFFECTS))
  }

  function WithValidatorUpdate(s: PoolState, status: ValidatorUpdateStatus): Result<Outcome> {
    Ok(Outcome(s.(pool := s.pool.(validatorUpdate := status)), NO_EFFECTS))
  }

  // ---- Callbacks ----

  function Callback(s: PoolState, payload: SudoPayload, now: nat, height: nat): Result<Outcome> {
    match payload.txType
    case TxSetWithdrawAddr => WithStatus(s, ActiveEnded)
    case TxEraUpdate => EraUpdateDone(s, height)
    case TxEraBond => EraBondDone(s, payload.message, now, height)
    case TxEraCollectWithdraw => CollectWithdrawDone(s, height)
    case TxEraRebond => RebondDone(s, height)
    case TxUserWithdraw => WithdrawDone(s, payload.message)
    case TxUpdateValidator => UpdateValidatorDone(s, payload.message)
    case TxRmValidator => RmValidatorDone(s, payload.message)
    case TxStakeLsm => StakeLsmDone(s, payload.message)
    case TxRedeemShares => RedeemDone(s, payload.message)
  }

  function FailedCallback(s: PoolState, payload: SudoPayload): Result<Outcome> {
    match payload.txType
    case TxSetWithdrawAddr => WithStatus(s, InitFailed)
    case TxEraUpdate => EraUpdateFailed(s)
    case TxEraBond => WithStatus(s, EraUpdateEnded)
    case TxEraCollectWithdraw => WithStatus(s, BondEnded)
    case TxEraRebond => WithStatus(s, WithdrawEnded)
    case TxUserWithdraw => WithdrawFailed(s, payload.message)
    case TxUpdateValidator => WithValidatorUpdate(s, End)
    case TxRmValidator => WithValidatorUpdate(s, End)
    case TxStakeLsm => StakeLsmFailed(s, payload.message)
    case TxRedeemShares => RedeemFailed(s, payload.message)
  }

  /** An acknowledgement, an error or a timeout reaches the payload stored for its packet and
      removes it. */
  function Deliver(s: PoolState, key: PacketKey, success: bool, now: nat, height: nat): Result<Outcome> {
    if key !in s.mail.sudoPayloads then Err(CallBackErrErrorMsg) else
    var s1 := s.(mail := s.mail.(sudoPayloads := s.mail.sudoPayloads - {key}));
    if success then Callback(s1, s.mail.sudoPayloads[key], now, height)
    else FailedCallback(s1, s.mail.sudoPayloads[key])
  }

  // ---- All messages together ----

  datatype Action =
    | DoInitPool(sender: string, init: InitParams, key: PacketKey)
    | DoMigratePool(sender: string, migrate: MigrateParams, key: PacketKey)
    | DoConfigPool(sender: string, config: ConfigParams)
    | DoConfigStack(sender: string, stackConfig: StackParams)
    | DoStake(sender: string, amount: nat)
    | DoUnstake(sender: string, amount: nat)
    | DoWithdraw(sender: string, receiver: string, indices: seq<nat>, key: PacketKey)
    | DoStakeLsm(sender: string, ibcDenom: string, denom: string, validator: string,
                 amount: nat, validatorTokens: nat, validatorShares: nat, key: PacketKey)
    | DoRedeem(tokens: seq<Coin>, key: PacketKey)
    | DoEraUpdate(key: PacketKey)
    | DoEraBond(query: Option<DelegationQuery>, selected: seq<string>, key: PacketKey)
    | DoCollectWithdraw(balance: Option<BalanceQuery>, key: PacketKey)
    | DoRebond(selected: seq<string>, key: PacketKey)
    | DoEraActive(query: Option<DelegationQuery>)
    | DoPoolDelegate(sender: string, amount: nat)
    | DoAddValidator(sender: string, validator: string)
    | DoUpdateValidator(sender: string, validator: string, target: string, query: Option<DelegationQuery>,
                        key: PacketKey)
    | DoRmValidator(sender: string, validator: string, query: Option<DelegationQuery>, key: PacketKey)
    | DoUpdateValidatorsIcq(sender: string)
    | DoDeliver(key: PacketKey, success: bool)

  function ApplyAdmin(s: PoolState, a: Action, now: nat): Result<Outcome> {
    match a
    case DoInitPool(sender, params, key) => InitPool(s, sender, params, now, key)
    case DoMigratePool(sender, params, key) => MigratePool(s, sender, params, key)
    case DoConfigPool(sender, config) => ConfigPool(s, sender, config, now)
    case DoPoolDelegate(sender, amount) => PoolDelegate(s, sender, amount)
    case DoAddValidator(sender, v) => AddValidator(s, sender, v)
    case DoUpdateValidator(sender, v, target, query, key) => UpdateValidator(s, sender, v, target, query, key)
    case DoRmValidator(sender, v, query, key) => RmValidator(s, sender, v, query, key)
    case DoUpdateValidatorsIcq(sender) => UpdateValidatorsIcq(s, sender)
    case _ => Err(Unauthorized)
  }

  function ApplyUser(s: PoolState, a: Action): Result<Outcome> {
    match a
    case DoStake(sender, amount) => Stake(s, sender, amount)
    case DoUnstake(sender, amount) => Unstake(s, sender, amount)
    case DoWithdraw(sender, receiver, indices, key) => Withdraw(s, sender, receiver, indices, key)
    case DoStakeLsm(sender, ibcDenom, denom, validator, amount, tokens, shares, key) =>
      StakeLsm(s, sender, ibcDenom, denom, validator, amount, tokens, shares, key)
    case DoRedeem(tokens, key) => RedeemShares(s, tokens, key)
    case _ => Err(Unauthorized)
  }

  function ApplyEra(s: PoolState, a: Action, now: nat, height: nat): Result<Outcome> {
    match a
    case DoEraUpdate(key) => EraUpdate(s, now, height, key)
    case DoEraBond(query, selected, key) => EraBond(s, query, selected, now, key)
    case DoCollectWithdraw(balance, key) => CollectWithdraw(s, balance, key)
    case DoRebond(selected, key) => Rebond(s, selected, key)
    case DoEraActive(query) => EraActive(s, query)
    case DoDeliver(key, success) => Deliver(s, key, success, now, height)
    case _ => Err(Unauthorized)
  }

  predicate ByAdmin(a: Action) {
    || a.DoInitPool? || a.DoMigratePool? || a.DoConfigPool? || a.DoPoolDelegate?
    || a.DoAddValidator? || a.DoUpdateValidator? || a.DoRmValidator? || a.DoUpdateValidatorsIcq?
  }

  predicate ByUser(a: Action) { a.DoStake? || a.DoUnstake? || a.DoWithdraw? || a.DoStakeLsm? || a.DoRedeem? }

  function Apply(s: PoolState, a: Action, now: nat, height: nat): Result<Outcome> {
    if a.DoConfigStack? then ConfigStack(s, a.sender, a.stackConfig)
    else if ByAdmin(a) then ApplyAdmin(s, a, now)
    else if ByUser(a) then ApplyUser(s, a)
    else ApplyEra(s, a, now, height)
  }
}
