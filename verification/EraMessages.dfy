/** What each step of an era comes to, to the last token: when it is accepted, what it changes, and what it
    sends. The numbers are written out from the stored record and the reports. */
module EraMessages {
  import opened Arith
  import opened Sums
  import opened Allocation
  import opened PoolTypes
  import opened PoolSteps
  import opened UserMessages
  import opened BondStep

  // ---- Beginning an era ----

  /** The era that the clock shows, within what 64 bits hold. */
  function ClockEra(c: Clock, now: nat): nat
    requires c.eraSeconds > 0
  {
    var era := now / c.eraSeconds + c.offset;
    if era < 0 then 0 else if era <= U64_MAX then era else U64_MAX
  }

  /** An era begins as soon as the clock is ahead, and one at a time: what is booked is noted, and the deposits
      are sent. */
  lemma EraUpdateExact(s: PoolState, now: nat, height: nat, key: PacketKey)
    requires s.pool.clock.eraSeconds > 0
    ensures EraUpdate(s, now, height, key).Ok? <==>
      && !s.pool.config.paused && s.pool.status == ActiveEnded && s.pool.validatorUpdate == End
      && s.pool.clock.era < ClockEra(s.pool.clock, now)
    ensures EraUpdate(s, now, height, key).Ok? ==>
      var o, p := EraUpdate(s, now, height, key).value, s.pool;
      && o.state == s.(mail := o.state.mail, pool := p.(clock := p.clock.(era := p.clock.era + 1),
                                                        status := o.state.pool.status, snapshot :=
                                                          o.state.pool.snapshot))
      && o.state.pool.snapshot
         == EraSnapshot(p.clock.era + 1, p.book.bond, p.book.unbond, p.book.active, 0, height)
      && if p.book.bond == 0
         then o.state.pool.status == EraUpdateEnded && o.state.mail == s.mail && o.effects == Effects([], [], {}, [])
         else o.state.pool.status == EraUpdateStarted && o.effects == Effects([], [IbcTransfer(p.book.bond)], {}, [])
              && o.state.mail.sudoPayloads == s.mail.sudoPayloads[key := SudoPayload("", TxEraUpdate)]
  {
  }

  /** A deposit packet that failed takes the pool back to where the era can begin again. */
  lemma EraUpdateFailedExact(s: PoolState)
    ensures EraUpdateFailed(s).Ok? <==> s.pool.clock.era > 0
    ensures EraUpdateFailed(s).Ok? ==>
      EraUpdateFailed(s).value
      == Outcome(s.(pool := s.pool.(clock := s.pool.clock.(era := s.pool.clock.era - 1), status := ActiveEnded,
                                    snapshot := EraSnapshot(0, 0, 0, 0, 0, 0))), Effects([], [], {}, []))
  {
  }

  // ---- Splitting ----

  lemma SharesHead(amount: nat, vals: seq<string>, i: nat)
    requires i < |vals|
    ensures Shares(amount, vals, i) == [Delegate(vals[i], ShareOf(amount, |vals|, i))] + Shares(amount, vals, i + 1)
  {
  }

  lemma {:induction false} SharesAre(amount: nat, vals: seq<string>, i: nat, j: nat)
    requires i <= j < |vals|
    ensures |Shares(amount, vals, i)| == |vals| - i
    ensures Shares(amount, vals, i)[j - i] == Delegate(vals[j], ShareOf(amount, |vals|, j))
    decreases |vals| - i
  {
    SharesHead(amount, vals, i);
    if i < j {
      SharesAre(amount, vals, i + 1, j);
    } else if i + 1 < |vals| {
      SharesAre(amount, vals, i + 1, i + 1);
    } else {
      assert Shares(amount, vals, i + 1) == [];
    }
  }

  /** An even split: one delegation per validator in their order, all of the same amount but for the first,
      which has what is left over, less than one token for each of them. */
  predicate EvenSplit(msgs: seq<RemoteMsg>, amount: nat, vals: seq<string>) {
    && vals != [] && |msgs| == |vals|
    && (forall i :: 0 <= i < |vals| ==> msgs[i].Delegate? && msgs[i].validator == vals[i])
    && (forall i, j :: 0 < i < j < |vals| ==> msgs[i].amount == msgs[j].amount)
    && (forall i :: 0 < i < |vals| ==> msgs[i].amount <= msgs[0].amount < msgs[i].amount + |vals|)
    && Delegated(msgs) == amount
  }

  lemma SharesEven(amount: nat, vals: seq<string>)
    requires vals != []
    ensures EvenSplit(Shares(amount, vals, 0), amount, vals)
  {
    var n := |vals|;
    FloorBounds(amount, n);
    SplitConserves(amount, vals);
    SharesAre(amount, vals, 0, 0);
    forall i | 0 <= i < n ensures Shares(amount, vals, 0)[i] == Delegate(vals[i], ShareOf(amount, n, i)) {
      SharesAre(amount, vals, 0, i);
    }
  }

  function SmallPart(amount: nat, vals: seq<string>, i: nat): RemoteMsg
    requires i < |vals|
  {
    if i == 0 then Delegate(vals[0], amount) else WithdrawReward(vals[i])
  }

  lemma SmallHead(amount: nat, vals: seq<string>, i: nat)
    requires i < |vals|
    ensures Small(amount, vals, i) == [SmallPart(amount, vals, i)] + Small(amount, vals, i + 1)
  {
  }

  lemma {:induction false} SmallAre(amount: nat, vals: seq<string>, i: nat, j: nat)
    requires i <= j < |vals|
    ensures |Small(amount, vals, i)| == |vals| - i && Small(amount, vals, i)[j - i] == SmallPart(amount, vals, j)
    decreases |vals| - i
  {
    SmallHead(amount, vals, i);
    if i < j {
      SmallAre(amount, vals, i + 1, j);
    } else if i + 1 < |vals| {
      SmallAre(amount, vals, i + 1, i + 1);
    } else {
      assert Small(amount, vals, i + 1) == [];
    }
  }

  /** All to the first validator; from the others only the rewards are withdrawn. */
  predicate AllToFirst(msgs: seq<RemoteMsg>, amount: nat, vals: seq<string>) {
    && vals != [] && |msgs| == |vals| && msgs[0] == Delegate(vals[0], amount)
    && (forall i :: 0 < i < |vals| ==> msgs[i] == WithdrawReward(vals[i]))
  }

  lemma SmallToFirst(amount: nat, vals: seq<string>)
    requires vals != []
    ensures AllToFirst(Small(amount, vals, 0), amount, vals)
  {
    SmallAre(amount, vals, 0, 0);
    forall i | 0 <= i < |vals| ensures Small(amount, vals, 0)[i] == SmallPart(amount, vals, i) {
      SmallAre(amount, vals, 0, i);
    }
  }

  // ---- The bond step ----

  /** The selected validators are some, and all of the pool. */
  predicate Selected(vals: seq<string>, p: PoolInfo) {
    vals != [] && forall v :: v in vals ==> v in p.validators
  }

  /** A surplus of deposits is delegated to the selected validators: less than 10,000 to the first of them,
      more in even parts. */
  lemma DepositExact(s: PoolState, query: Option<DelegationQuery>, selected: seq<string>, now: nat, key: PacketKey)
    requires s.pool.snapshot.unbond < s.pool.snapshot.bond
    ensures EraBond(s, query, selected, now, key).Ok? <==>
      s.pool.status == EraUpdateEnded && Selected(selected, s.pool)
    ensures EraBond(s, query, selected, now, key).Ok? ==>
      var o, amount := EraBond(s, query, selected, now, key).value, s.pool.snapshot.bond - s.pool.snapshot.unbond;
      && o.state == s.(pool := s.pool.(status := BondStarted), mail := o.state.mail)
      && o.state.mail.sudoPayloads == s.mail.sudoPayloads[key := SudoPayload("", TxEraBond)]
      && o.effects == Effects([], o.effects.remote, {}, [])
      && if amount < 10_000 then AllToFirst(o.effects.remote, amount, selected)
         else EvenSplit(o.effects.remote, amount, selected)
  {
    if selected != [] {
      SharesEven(s.pool.snapshot.bond - s.pool.snapshot.unbond, selected);
      SmallToFirst(s.pool.snapshot.bond - s.pool.snapshot.unbond, selected);
    }
  }

  /** A surplus of withdrawals is accepted exactly when it is on offer: from the largest delegation down, from
      the validators the host chain lets be undelegated from, ahead of the first stored time that overflows. */
  lemma SurplusAccepted(s: PoolState, query: Option<DelegationQuery>, selected: seq<string>, now: nat, key: PacketKey)
    requires s.pool.snapshot.unbond >= s.pool.snapshot.bond
    requires query.Some? ==> NoDup(query.value.delegations)
    ensures EraBond(s, query, selected, now, key).Ok? <==>
      && s.pool.status == EraUpdateEnded
      && query.Some? && query.value.height > s.pool.snapshot.lastStepHeight
      && var amount := s.pool.snapshot.unbond - s.pool.snapshot.bond;
         var period := s.pool.clock.unbondingPeriod * s.pool.clock.eraSeconds;
         amount > 0 ==>
           period <= U64_MAX && amount <= Offered(SortDesc(query.value.delegations), s.unbondTimes, now, period)
  {
    if query.Some? {
      AllocateExact(query.value.delegations, s.pool.snapshot.unbond - s.pool.snapshot.bond, s.unbondTimes, now,
                    s.pool.clock.unbondingPeriod * s.pool.clock.eraSeconds);
    }
  }

  /** The acknowledgement takes out of the counters what was in the snapshot, also what came in since stays. */
  lemma BondDoneExact(s: PoolState, message: string, now: nat, height: nat)
    ensures EraBondDone(s, message, now, height).Ok? <==>
      s.pool.snapshot.bond <= s.pool.book.bond && s.pool.snapshot.unbond <= s.pool.book.unbond
    ensures EraBondDone(s, message, now, height).Ok? ==>
      var o, p := EraBondDone(s, message, now, height).value, s.pool;
      && o.state == s.(unbondTimes := o.state.unbondTimes, pool := o.state.pool)
      && o.state.pool == p.(status := BondEnded, book := o.state.pool.book,
                            snapshot := p.snapshot.(lastStepHeight := height))
      && o.state.pool.book == p.book.(bond := o.state.pool.book.bond, unbond := o.state.pool.book.unbond)
      && o.state.pool.book.bond + p.snapshot.bond == p.book.bond
      && o.state.pool.book.unbond + p.snapshot.unbond == p.book.unbond
      && o.effects == Effects([], [], {}, [])
  {
  }

  // ---- Collecting and restaking ----

  /** Rewards are collected whole, to the pool, on a report that is newer than the last step. */
  lemma CollectExact(s: PoolState, query: Option<BalanceQuery>, key: PacketKey)
    ensures CollectWithdraw(s, query, key).Ok? <==>
      s.pool.status == BondEnded && (query.Some? ==> query.value.height > s.pool.snapshot.lastStepHeight)
    ensures CollectWithdraw(s, query, key).Ok? ==>
      var o, p := CollectWithdraw(s, query, key).value, s.pool;
      if query.None? || query.value.amount == 0
      then o == Outcome(s.(pool := p.(status := WithdrawEnded)), Effects([], [], {}, []))
      else
        var amount := query.value.amount;
        && o.state.pool == p.(status := WithdrawStarted, snapshot := p.snapshot.(restakeAmount := amount))
        && o.state == s.(pool := o.state.pool, mail := o.state.mail)
        && o.state.mail.sudoPayloads == s.mail.sudoPayloads[key := SudoPayload("", TxEraCollectWithdraw)]
        && o.effects == Effects([], [Send("pool", amount)], {}, [])
  {
  }

  /** The collected amount is restaked in even parts, and nothing is sent when there is none. */
  lemma RebondExact(s: PoolState, selected: seq<string>, key: PacketKey)
    ensures Rebond(s, selected, key).Ok? <==>
      s.pool.status == WithdrawEnded && (s.pool.snapshot.restakeAmount > 0 ==> Selected(selected, s.pool))
    ensures Rebond(s, selected, key).Ok? ==>
      var o := Rebond(s, selected, key).value;
      if s.pool.snapshot.restakeAmount == 0
      then o == Outcome(s.(pool := s.pool.(status := RebondEnded)), Effects([], [], {}, []))
      else
        && o.state == s.(mail := o.state.mail)
        && o.state.mail.sudoPayloads == s.mail.sudoPayloads[key := SudoPayload("", TxEraRebond)]
        && o.effects == Effects([], o.effects.remote, {}, [])
        && EvenSplit(o.effects.remote, s.pool.snapshot.restakeAmount, selected)
  {
    if selected != [] {
      SharesEven(s.pool.snapshot.restakeAmount, selected);
    }
  }

  /** Every acknowledged step notes its height, so that the next one needs newer reports. */
  lemma StepsNoteHeight(s: PoolState, t: TxType, now: nat, height: nat)
    requires t == TxEraUpdate || t == TxEraCollectWithdraw || t == TxEraRebond
    ensures Callback(s, SudoPayload("", t), now, height)
      == Ok(Outcome(s.(pool := s.pool.(snapshot := s.pool.snapshot.(lastStepHeight := height),
                                       status := match t case TxEraUpdate => EraUpdateEnded
                                                         case TxEraCollectWithdraw => WithdrawEnded
                                                         case _ => RebondEnded)),
                    Effects([], [], {}, [])))
  {
  }

  // ---- The end of an era ----

  /** All that is delegated. */
  function TotalOf(ds: seq<Delegation>): nat {
    if ds == [] then 0 else ds[0].amount + TotalOf(ds[1..])
  }

  lemma {:induction false} SumIsTotal(ds: seq<Delegation>, before: nat)
    requires before <= U128_MAX
    ensures SumDelegations(ds, before).Ok? <==> before + TotalOf(ds) <= U128_MAX
    ensures SumDelegations(ds, before).Ok? ==> SumDelegations(ds, before).value == before + TotalOf(ds)
  {
    if ds != [] && before + ds[0].amount <= U128_MAX {
      SumIsTotal(ds[1..], before + ds[0].amount);
    }
  }

  /** The numbers of the end of an era: the platform's commission on the gain, in liquid tokens, and the
      stack's part of it; the active stake with what the delegations have gained or lost; and the rate, which
      is the active stake per liquid token, those of the commission included. */
  datatype Figures = Figures(commission: nat, stackPart: nat, active: nat, rate: nat)

  function Gain(p: PoolInfo, reported: nat): nat {
    if reported > p.snapshot.active then reported - p.snapshot.active else 0
  }

  predicate Figured(s: PoolState, reported: nat, f: Figures) {
    var p, total := s.pool, s.pool.book.totalLsd + f.commission;
    && (if Gain(p, reported) == 0 then f.commission == 0
        else RoundsDown(f.commission, Gain(p, reported) * p.config.platformFeeCommission, p.book.rate))
    && RoundsDown(f.stackPart, f.commission * s.stack.feeCommission, 1_000_000)
    && (if p.book.active + reported <= p.snapshot.active then f.active == 0
        else f.active + p.snapshot.active == p.book.active + reported)
    && (if total == 0 then f.rate == 1_000_000 else RoundsDown(f.rate, f.active * 1_000_000, total))
  }

  lemma FeesFigured(s: PoolState, reported: nat, f: Figures)
    requires Figured(s, reported, f)
    ensures var p := s.pool;
      EraFees(p, s.stack.feeCommission, reported).Ok? <==>
        Gain(p, reported) > 0 ==>
          && Gain(p, reported) * p.config.platformFeeCommission <= U128_MAX
          && f.commission * s.stack.feeCommission <= U128_MAX && f.stackPart <= f.commission
    ensures EraFees(s.pool, s.stack.feeCommission, reported).Ok? ==>
      && f.stackPart <= f.commission
      && EraFees(s.pool, s.stack.feeCommission, reported).value == Fees(f.commission - f.stackPart, f.stackPart)
  {
    var gain := Gain(s.pool, reported);
    if gain > 0 {
      RoundedIs(f.commission, gain, s.pool.config.platformFeeCommission, s.pool.book.rate);
      RoundedIs(f.stackPart, f.commission, s.stack.feeCommission, 1_000_000);
    }
  }

  /** The rate stays at one when the first stakes lose less than 1000 to rounding. */
  predicate KeptAtOne(p: PoolInfo, f: Figures) {
    p.book.rate == 1_000_000 && f.rate < 1_000_000 && p.book.active < f.active + 1000
  }

  /** The rate does not move by more than the limit, in millionths of what it was, unless there is none. */
  predicate WithinRateLimit(p: PoolInfo, to: nat) {
    var from := p.book.rate;
    var change := if from > to then from - to else to - from;
    p.config.rateChangeLimit == 0
    || (change * 1_000_000 <= U128_MAX && change * 1_000_000 < (p.config.rateChangeLimit + 1) * from)
  }

  lemma LimitFigured(p: PoolInfo, to: nat)
    requires p.config.rateChangeLimit != 0
    ensures RateChange(p.book.rate, to).Ok? && RateChange(p.book.rate, to).value <= p.config.rateChangeLimit
      <==> WithinRateLimit(p, to)
  {
    var from, limit := p.book.rate, p.config.rateChangeLimit;
    var change := if from > to then from - to else to - from;
    if RateChange(from, to).Ok? {
      var share := RateChange(from, to).value;
      if share <= limit {
        MulLe(share + 1, limit + 1, from);
      } else {
        MulLe(limit + 1, share, from);
      }
    }
  }

  lemma BookFigured(s: PoolState, reported: nat, f: Figures)
    requires Figured(s, reported, f) && f.stackPart <= f.commission
    ensures var p, fees := s.pool, Fees(f.commission - f.stackPart, f.stackPart);
      ClosedBook(p, reported, fees).Ok? <==>
        && p.book.active + reported <= U128_MAX && p.book.totalLsd + f.commission <= U128_MAX
        && (p.book.totalLsd + f.commission > 0 ==> f.active * 1_000_000 <= U128_MAX)
        && WithinRateLimit(p, f.rate)
    ensures var p, fees := s.pool, Fees(f.commission - f.stackPart, f.stackPart);
      ClosedBook(p, reported, fees).Ok? ==>
        ClosedBook(p, reported, fees).value
        == p.book.(totalLsd := p.book.totalLsd + f.commission,
                   rate := if KeptAtOne(p, f) then 1_000_000 else f.rate,
                   active := if KeptAtOne(p, f) then p.book.active else f.active)
  {
    var total := s.pool.book.totalLsd + f.commission;
    if total > 0 {
      RoundedIs(f.rate, f.active, 1_000_000, total);
    }
    if s.pool.config.rateChangeLimit != 0 {
      LimitFigured(s.pool, f.rate);
    }
  }

  /** What is minted to an account. */
  function MintedTo(msgs: seq<TokenMsg>, account: string): nat {
    if msgs == [] then 0
    else (if msgs[0].Mint? && msgs[0].recipient == account then msgs[0].amount else 0) + MintedTo(msgs[1..], account)
  }

  predicate OnlyMints(msgs: seq<TokenMsg>) {
    forall m :: m in msgs ==> m.Mint?
  }

  /** The report is there, recent, and no liquid share is waiting. */
  predicate Closable(p: PoolInfo, query: Option<DelegationQuery>) {
    && p.status == RebondEnded && p.shareTokens.pending == []
    && query.Some? && query.value.height > p.snapshot.lastStepHeight && TotalOf(query.value.delegations) <= U128_MAX
  }

  /** All numbers fit their words. */
  predicate FiguresFit(s: PoolState, reported: nat, f: Figures) {
    var p := s.pool;
    && (Gain(p, reported) > 0 ==>
          && Gain(p, reported) * p.config.platformFeeCommission <= U128_MAX
          && f.commission * s.stack.feeCommission <= U128_MAX && f.stackPart <= f.commission)
    && p.book.active + reported <= U128_MAX && p.book.totalLsd + f.commission <= U128_MAX
    && (p.book.totalLsd + f.commission > 0 ==> f.active * 1_000_000 <= U128_MAX)
    && p.book.totalPlatformFee + f.commission <= U128_MAX + f.stackPart && s.stack.totalFee + f.stackPart <= U128_MAX
  }

  lemma FeesMinted(fees: Fees, platform: string, stack: string, account: string)
    ensures var msgs := (if fees.platform > 0 then [Mint(platform, fees.platform)] else [])
                        + (if fees.stack > 0 then [Mint(stack, fees.stack)] else []);
      && OnlyMints(msgs)
      && MintedTo(msgs, account)
         == (if account == platform then fees.platform else 0) + (if account == stack then fees.stack else 0)
  {
    var first := if fees.platform > 0 then [Mint(platform, fees.platform)] else [];
    var second := if fees.stack > 0 then [Mint(stack, fees.stack)] else [];
    var msgs := first + second;
    if fees.platform > 0 {
      assert msgs[1..] == second;
    } else {
      assert msgs == second;
    }
    if fees.stack > 0 {
      assert second[1..] == [];
    }
  }

  /** An era ends exactly when its report is there, the numbers fit and the rate stays within the limit. */
  lemma EraActiveAccepted(s: PoolState, query: Option<DelegationQuery>, f: Figures)
    requires query.Some? ==> Figured(s, TotalOf(query.value.delegations), f)
    requires s.pool.book.totalPlatformFee <= U128_MAX && s.stack.totalFee <= U128_MAX
    ensures EraActive(s, query).Ok? <==>
      && Closable(s.pool, query) && FiguresFit(s, TotalOf(query.value.delegations), f)
      && WithinRateLimit(s.pool, f.rate)
  {
    if Closable(s.pool, query) {
      var reported := TotalOf(query.value.delegations);
      SumIsTotal(query.value.delegations, 0);
      FeesFigured(s, reported, f);
      if EraFees(s.pool, s.stack.feeCommission, reported).Ok? {
        BookFigured(s, reported, f);
      }
    } else if query.Some? {
      SumIsTotal(query.value.delegations, 0);
    }
  }

  /** Of the commission on the gain the stack's receiver is minted its part and the platform's receiver the
      rest, each is added to its own total, and the book closes with the new figures. */
  lemma EraActiveExact(s: PoolState, query: Option<DelegationQuery>, f: Figures)
    requires EraActive(s, query).Ok? && query.Some? && Figured(s, TotalOf(query.value.delegations), f)
    ensures f.stackPart <= f.commission
    ensures var o, p := EraActive(s, query).value, s.pool;
      && OnlyMints(o.effects.token) && o.effects == Effects(o.effects.token, [], {}, [])
      && (forall account :: MintedTo(o.effects.token, account)
                            == (if account == p.config.platformFeeReceiver then f.commission - f.stackPart else 0)
                               + (if account == s.stack.feeReceiver then f.stackPart else 0))
    ensures var o, p := EraActive(s, query).value, s.pool;
      && o.state == s.(pool := p.(status := ActiveEnded, book := o.state.pool.book), stack := o.state.stack)
      && o.state.pool.book
         == p.book.(totalPlatformFee := p.book.totalPlatformFee + (f.commission - f.stackPart),
                    totalLsd := p.book.totalLsd + f.commission,
                    rate := if KeptAtOne(p, f) then 1_000_000 else f.rate,
                    active := if KeptAtOne(p, f) then p.book.active else f.active)
      && o.state.stack == s.stack.(totalFee := s.stack.totalFee + f.stackPart,
                                   eraRate := s.stack.eraRate[p.clock.era := o.state.pool.book.rate])
  {
    var reported := TotalOf(query.value.delegations);
    SumIsTotal(query.value.delegations, 0);
    FeesFigured(s, reported, f);
    BookFigured(s, reported, f);
    forall account ensures MintedTo(EraActive(s, query).value.effects.token, account)
                           == (if account == s.pool.config.platformFeeReceiver then f.commission - f.stackPart else 0)
                              + (if account == s.stack.feeReceiver then f.stackPart else 0) {
      FeesMinted(Fees(f.commission - f.stackPart, f.stackPart), s.pool.config.platformFeeReceiver, s.stack.feeReceiver,
                 account);
    }
    FeesMinted(Fees(f.commission - f.stackPart, f.stackPart), s.pool.config.platformFeeReceiver, s.stack.feeReceiver,
               "");
  }

  /** A gain cannot be booked at rate zero. */
  lemma NoRateNoGain(s: PoolState, query: Option<DelegationQuery>)
    requires s.pool.book.rate == 0 && query.Some? && Gain(s.pool, TotalOf(query.value.delegations)) > 0
    ensures EraActive(s, query).Err?
  {
    SumIsTotal(query.value.delegations, 0);
  }

  // ---- Delegating directly ----

  /** The administrator may delegate between eras; it goes evenly to all validators of the pool. */
  lemma PoolDelegateExact(s: PoolState, sender: string, amount: nat)
    ensures PoolDelegate(s, sender, amount).Ok? <==>
      s.pool.status == ActiveEnded && sender == s.pool.config.admin && s.pool.validators != []
    ensures PoolDelegate(s, sender, amount).Ok? ==>
      var o := PoolDelegate(s, sender, amount).value;
      && o.state == s && o.effects == Effects([], o.effects.remote, {}, [])
      && EvenSplit(o.effects.remote, amount, s.pool.validators)
  {
    if s.pool.validators != [] {
      SharesEven(amount, s.pool.validators);
    }
  }

  /** Every step of an era reaches its own handler with its arguments in their places, and an answer reaches the
      callback for the payload of its packet. */
  lemma EraDispatch(s: PoolState, a: Action, now: nat, height: nat)
    ensures a.DoEraUpdate? ==> Apply(s, a, now, height) == EraUpdate(s, now, height, a.key)
    ensures a.DoEraBond? ==> Apply(s, a, now, height) == EraBond(s, a.query, a.selected, now, a.key)
    ensures a.DoCollectWithdraw? ==> Apply(s, a, now, height) == CollectWithdraw(s, a.balance, a.key)
    ensures a.DoRebond? ==> Apply(s, a, now, height) == Rebond(s, a.selected, a.key)
    ensures a.DoEraActive? ==> Apply(s, a, now, height) == EraActive(s, a.query)
    ensures a.DoDeliver? && a.key in s.mail.sudoPayloads ==>
      var left := s.(mail := s.mail.(sudoPayloads := s.mail.sudoPayloads - {a.key}));
      Apply(s, a, now, height)
      == if a.success then Callback(left, s.mail.sudoPayloads[a.key], now, height)
         else FailedCallback(left, s.mail.sudoPayloads[a.key])
    ensures a.DoDeliver? && a.key !in s.mail.sudoPayloads ==> Apply(s, a, now, height).Err?
  {
  }
}
