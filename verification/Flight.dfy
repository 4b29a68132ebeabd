/** Which packets may be out in which phase. At most one packet of the era or of the admin is out at a
    time, so a callback always finds the pool in the phase that sent it. */
module Flight {
  import opened Arith
  import opened Payload
  import opened PoolTypes
  import opened PoolSteps
  import opened Worlds

  /** Between the snapshot and the acknowledgement of the bond step. */
  predicate BeforeBond(status: EraStatus) {
    status == EraUpdateStarted || status == EraUpdateEnded || status == BondStarted
  }

  /** Between the acknowledgement of the bond step and the end of the era. */
  predicate AfterBond(status: EraStatus) {
    status == BondEnded || status == WithdrawStarted || status == WithdrawEnded || status == RebondEnded
  }

  /** The phase in which a packet of this type may be out. */
  predicate Fits(t: TxType, p: PoolInfo) {
    match t
    case TxSetWithdrawAddr => p.status == InitStarted || p.status == InitFailed
    case TxEraUpdate => p.status == EraUpdateStarted
    case TxEraBond => p.status == BondStarted
    case TxEraCollectWithdraw => p.status == WithdrawStarted
    case TxEraRebond => p.status == WithdrawEnded
    case TxUpdateValidator => p.validatorUpdate == ValidatorUpdateStatus.Start
    case TxRmValidator => p.validatorUpdate == ValidatorUpdateStatus.Start
    case _ => true
  }

  /** The phases that wait for a packet. */
  predicate Waits(p: PoolInfo) {
    || p.status == InitStarted || p.status == EraUpdateStarted || p.status == BondStarted || p.status == WithdrawStarted
    || p.validatorUpdate == ValidatorUpdateStatus.Start
  }

  predicate Exclusive(payloads: map<PacketKey, SudoPayload>, slot: Option<PacketKey>) {
    && (slot.Some? ==> slot.value in payloads && !UserPacket(payloads[slot.value].txType))
    && (forall key :: key in payloads && !UserPacket(payloads[key].txType) ==> slot == Some(key))
  }

  predicate PhaseOk(payloads: map<PacketKey, SudoPayload>, slot: Option<PacketKey>, p: PoolInfo) {
    && (if slot.Some? then slot.value in payloads && Fits(payloads[slot.value].txType, p) else !Waits(p))
    && (p.validatorUpdate != End ==> p.status == ActiveEnded)
    && p.status != RebondStarted
    && (BeforeBond(p.status) ==>
        p.snapshot.bond <= p.book.bond && p.snapshot.unbond <= p.book.unbond && p.snapshot.era == p.clock.era > 0)
  }

  predicate SingleFlight(s: PoolState, slot: Option<PacketKey>) {
    Exclusive(s.mail.sudoPayloads, slot) && PhaseOk(s.mail.sudoPayloads, slot, s.pool)
  }

  // ---- One lemma per kind of message ----

  /** A packet of the era or of the admin takes the free slot. */
  lemma TakeSlot(payloads: map<PacketKey, SudoPayload>, key: PacketKey, payload: SudoPayload)
    requires Exclusive(payloads, None) && key !in payloads && !UserPacket(payload.txType)
    ensures Exclusive(payloads[key := payload], Some(key))
  {
  }

  lemma InitKept(s: PoolState, sender: string, params: InitParams, now: nat, key: PacketKey, slot: Option<PacketKey>)
    requires SingleFlight(s, slot) && NoneOut(s, TxSetWithdrawAddr) && key !in s.mail.sudoPayloads
    requires InitPool(s, sender, params, now, key).Ok?
    ensures SingleFlight(InitPool(s, sender, params, now, key).value.state, Some(key))
  {
    TakeSlot(s.mail.sudoPayloads, key, SudoPayload("", TxSetWithdrawAddr));
  }

  lemma DealKept(s: PoolState, pool: PoolInfo, key: PacketKey, slot: Option<PacketKey>)
    requires SingleFlight(s, slot) && s.pool.status == RegisterEnded && pool.validatorUpdate == End
    requires key !in s.mail.sudoPayloads
    ensures SingleFlight(DealPool(s, pool, key).state, Some(key))
  {
    TakeSlot(s.mail.sudoPayloads, key, SudoPayload("", TxSetWithdrawAddr));
  }

  lemma MigrateKept(s: PoolState, sender: string, params: MigrateParams, key: PacketKey, slot: Option<PacketKey>)
    requires SingleFlight(s, slot) && NoneOut(s, TxSetWithdrawAddr) && key !in s.mail.sudoPayloads
    requires MigratePool(s, sender, params, key).Ok?
    ensures SingleFlight(MigratePool(s, sender, params, key).value.state, Some(key))
  {
    if s.pool.status == InitFailed {
      TakeSlot(s.mail.sudoPayloads, key, SudoPayload("", TxSetWithdrawAddr));
    } else {
      var pool :| MigratePool(s, sender, params, key).value == DealPool(s, pool, key) && pool.validatorUpdate == End;
      DealKept(s, pool, key, slot);
    }
  }

  lemma ConfigKept(s: PoolState, sender: string, config: ConfigParams, now: nat, slot: Option<PacketKey>)
    requires SingleFlight(s, slot) && ConfigPool(s, sender, config, now).Ok?
    ensures SingleFlight(ConfigPool(s, sender, config, now).value.state, slot)
  {
  }

  lemma StakeKept(s: PoolState, user: string, amount: nat, slot: Option<PacketKey>)
    requires SingleFlight(s, slot) && Stake(s, user, amount).Ok?
    ensures SingleFlight(Stake(s, user, amount).value.state, slot)
  {
  }

  lemma UnstakeKept(s: PoolState, user: string, amount: nat, slot: Option<PacketKey>)
    requires SingleFlight(s, slot) && Unstake(s, user, amount).Ok?
    ensures SingleFlight(Unstake(s, user, amount).value.state, slot)
  {
  }

  lemma WithdrawKept(s: PoolState, user: string, receiver: string, indices: seq<nat>, key: PacketKey,
                     slot: Option<PacketKey>)
    requires SingleFlight(s, slot) && key !in s.mail.sudoPayloads && Withdraw(s, user, receiver, indices, key).Ok?
    ensures SingleFlight(Withdraw(s, user, receiver, indices, key).value.state, slot)
  {
  }

  lemma StakeLsmKept(s: PoolState, staker: string, ibcDenom: string, denom: string, validator: string,
                     shares: nat, tokens: nat, validatorShares: nat, key: PacketKey, slot: Option<PacketKey>)
    requires SingleFlight(s, slot) && key !in s.mail.sudoPayloads
    requires StakeLsm(s, staker, ibcDenom, denom, validator, shares, tokens, validatorShares, key).Ok?
    ensures var o := StakeLsm(s, staker, ibcDenom, denom, validator, shares, tokens, validatorShares, key).value;
      SingleFlight(o.state, slot)
  {
  }

  lemma RedeemKept(s: PoolState, tokens: seq<Coin>, key: PacketKey, slot: Option<PacketKey>)
    requires SingleFlight(s, slot) && key !in s.mail.sudoPayloads && RedeemShares(s, tokens, key).Ok?
    ensures SingleFlight(RedeemShares(s, tokens, key).value.state, slot)
  {
  }

  lemma EraUpdateKept(s: PoolState, now: nat, height: nat, key: PacketKey, slot: Option<PacketKey>)
    requires SingleFlight(s, slot) && key !in s.mail.sudoPayloads && EraUpdate(s, now, height, key).Ok?
    ensures SingleFlight(EraUpdate(s, now, height, key).value.state, if s.pool.book.bond == 0 then slot else Some(key))
  {
    TakeSlot(s.mail.sudoPayloads, key, SudoPayload("", TxEraUpdate));
  }

  lemma EraBondKept(s: PoolState, query: Option<DelegationQuery>, selected: seq<string>, now: nat, key: PacketKey,
                    slot: Option<PacketKey>)
    requires SingleFlight(s, slot) && key !in s.mail.sudoPayloads && EraBond(s, query, selected, now, key).Ok?
    ensures SingleFlight(EraBond(s, query, selected, now, key).value.state, Some(key))
  {
    EraBondShape(s, query, selected, now, key);
    TakeSlot(s.mail.sudoPayloads, key, EraBond(s, query, selected, now, key).value.state.mail.sudoPayloads[key]);
  }

  /** The bond step starts from EraUpdateEnded and changes the status, the times and the packets only. */
  lemma EraBondShape(s: PoolState, query: Option<DelegationQuery>, selected: seq<string>, now: nat, key: PacketKey)
    requires EraBond(s, query, selected, now, key).Ok?
    ensures var after := EraBond(s, query, selected, now, key).value.state;
      && s.pool.status == EraUpdateEnded
      && after.pool == s.pool.(status := BondStarted)
      && key in after.mail.sudoPayloads && after.mail.sudoPayloads[key].txType == TxEraBond
      && after.mail.sudoPayloads == s.mail.sudoPayloads[key := after.mail.sudoPayloads[key]]
      && after.ledger == s.ledger
  {
  }

  lemma CollectKept(s: PoolState, query: Option<BalanceQuery>, key: PacketKey, slot: Option<PacketKey>)
    requires SingleFlight(s, slot) && key !in s.mail.sudoPayloads && CollectWithdraw(s, query, key).Ok?
    ensures SingleFlight(CollectWithdraw(s, query, key).value.state,
                         if query.Some? && query.value.amount != 0 then Some(key) else slot)
  {
    TakeSlot(s.mail.sudoPayloads, key, SudoPayload("", TxEraCollectWithdraw));
  }

  lemma RebondKept(s: PoolState, selected: seq<string>, key: PacketKey, slot: Option<PacketKey>)
    requires SingleFlight(s, slot) && key !in s.mail.sudoPayloads && NoneOut(s, TxEraRebond)
    requires Rebond(s, selected, key).Ok?
    ensures SingleFlight(Rebond(s, selected, key).value.state,
                         if s.pool.snapshot.restakeAmount != 0 then Some(key) else slot)
  {
    TakeSlot(s.mail.sudoPayloads, key, SudoPayload("", TxEraRebond));
  }

  lemma EraActiveKept(s: PoolState, query: Option<DelegationQuery>, slot: Option<PacketKey>)
    requires SingleFlight(s, slot) && EraActive(s, query).Ok?
    ensures SingleFlight(EraActive(s, query).value.state, slot)
  {
  }

  lemma AddValidatorKept(s: PoolState, sender: string, v: string, slot: Option<PacketKey>)
    requires SingleFlight(s, slot) && AddValidator(s, sender, v).Ok?
    ensures SingleFlight(AddValidator(s, sender, v).value.state, slot)
  {
  }

  /** Changing the validator set happens between eras; it either sends a redelegation and waits for
      it, or is done at once. */
  predicate SetChange(s: PoolState, after: PoolState, key: PacketKey, t: TxType) {
    && s.pool.status == ActiveEnded && s.pool.validatorUpdate == End
    && after.pool.(validators := s.pool.validators, validatorUpdate := End) == s.pool
    && (if after.mail.sudoPayloads == s.mail.sudoPayloads then after.pool.validatorUpdate == WaitQueryUpdate
        else after.pool.validatorUpdate == ValidatorUpdateStatus.Start && key in after.mail.sudoPayloads
             && after.mail.sudoPayloads == s.mail.sudoPayloads[key := after.mail.sudoPayloads[key]]
             && after.mail.sudoPayloads[key].txType == t)
  }

  lemma UpdateValidatorShape(s: PoolState, sender: string, v: string, target: string, query: Option<DelegationQuery>,
                             key: PacketKey)
    requires UpdateValidator(s, sender, v, target, query, key).Ok? && key !in s.mail.sudoPayloads
    ensures SetChange(s, UpdateValidator(s, sender, v, target, query, key).value.state, key, TxUpdateValidator)
  {
  }

  lemma RmValidatorShape(s: PoolState, sender: string, v: string, query: Option<DelegationQuery>, key: PacketKey)
    requires RmValidator(s, sender, v, query, key).Ok? && key !in s.mail.sudoPayloads
    ensures SetChange(s, RmValidator(s, sender, v, query, key).value.state, key, TxRmValidator)
  {
  }

  lemma SetChangeKept(s: PoolState, after: PoolState, key: PacketKey, t: TxType, slot: Option<PacketKey>)
    requires SingleFlight(s, slot) && key !in s.mail.sudoPayloads && SetChange(s, after, key, t)
    requires t == TxUpdateValidator || t == TxRmValidator
    ensures SingleFlight(after, if key in after.mail.sudoPayloads then Some(key) else slot)
  {
    if key in after.mail.sudoPayloads {
      TakeSlot(s.mail.sudoPayloads, key, after.mail.sudoPayloads[key]);
    }
  }

  lemma IcqKept(s: PoolState, sender: string, slot: Option<PacketKey>)
    requires SingleFlight(s, slot) && UpdateValidatorsIcq(s, sender).Ok?
    ensures SingleFlight(UpdateValidatorsIcq(s, sender).value.state, slot)
  {
  }

  /** What a callback of the given type does to the phase of the pool. */
  predicate CallbackPhase(t: TxType, success: bool, before: PoolInfo, after: PoolInfo) {
    match t
    case TxSetWithdrawAddr => after == before.(status := if success then ActiveEnded else InitFailed)
    case TxEraUpdate =>
      if success then after.status == EraUpdateEnded && SamePhase(before, after.(status := before.status))
      else after.status == ActiveEnded && after.validatorUpdate == before.validatorUpdate
    case TxEraBond =>
      if success then after.status == BondEnded && after.validatorUpdate == before.validatorUpdate
      else after == before.(status := EraUpdateEnded)
    case TxEraCollectWithdraw =>
      after.status == (if success then WithdrawEnded else BondEnded) && after.validatorUpdate == before.validatorUpdate
    case TxEraRebond =>
      after.status == (if success then RebondEnded else WithdrawEnded)
        && after.validatorUpdate == before.validatorUpdate
    case TxUpdateValidator =>
      after.validatorUpdate == (if success then WaitQueryUpdate else End) && after.status == before.status
    case TxRmValidator =>
      after.validatorUpdate == (if success then WaitQueryUpdate else End) && after.status == before.status
    case TxUserWithdraw => after == before
    case TxStakeLsm => SamePhase(before, after)
    case TxRedeemShares => SamePhase(before, after)
  }

  predicate SamePhase(before: PoolInfo, after: PoolInfo) {
    && after.status == before.status && after.validatorUpdate == before.validatorUpdate
    && after.clock.era == before.clock.era
    && after.book.bond == before.book.bond && after.book.unbond == before.book.unbond
    && after.snapshot.(lastStepHeight := 0) == before.snapshot.(lastStepHeight := 0)
  }

  lemma BondDonePhase(s: PoolState, message: string, now: nat, height: nat)
    requires EraBondDone(s, message, now, height).Ok?
    ensures var after := EraBondDone(s, message, now, height).value.state;
      CallbackPhase(TxEraBond, true, s.pool, after.pool) && after.mail.sudoPayloads == s.mail.sudoPayloads
  {
  }

  lemma WithdrawPhase(s: PoolState, message: string)
    ensures WithdrawDone(s, message).Ok? ==>
      var after := WithdrawDone(s, message).value.state;
      after.pool == s.pool && after.mail.sudoPayloads == s.mail.sudoPayloads
    ensures WithdrawFailed(s, message).Ok? ==>
      var after := WithdrawFailed(s, message).value.state;
      after.pool == s.pool && after.mail.sudoPayloads == s.mail.sudoPayloads
  {
  }

  lemma LsmPhase(s: PoolState, message: string)
    ensures StakeLsmDone(s, message).Ok? ==>
      var after := StakeLsmDone(s, message).value.state;
      SamePhase(s.pool, after.pool) && after.mail.sudoPayloads == s.mail.sudoPayloads
    ensures StakeLsmFailed(s, message).Ok? ==>
      var after := StakeLsmFailed(s, message).value.state;
      SamePhase(s.pool, after.pool) && after.mail.sudoPayloads == s.mail.sudoPayloads
  {
  }

  lemma RedeemPhase(s: PoolState, message: string)
    ensures var after := RedeemDone(s, message).value.state;
      SamePhase(s.pool, after.pool) && after.mail.sudoPayloads == s.mail.sudoPayloads
    ensures var after := RedeemFailed(s, message).value.state;
      SamePhase(s.pool, after.pool) && after.mail.sudoPayloads == s.mail.sudoPayloads
  {
  }

  lemma CallbackShape(s: PoolState, payload: SudoPayload, now: nat, height: nat)
    requires Callback(s, payload, now, height).Ok?
    ensures var after := Callback(s, payload, now, height).value.state;
      CallbackPhase(payload.txType, true, s.pool, after.pool) && after.mail.sudoPayloads == s.mail.sudoPayloads
  {
    match payload.txType
    case TxEraBond => BondDonePhase(s, payload.message, now, height);
    case TxUserWithdraw => WithdrawPhase(s, payload.message);
    case TxStakeLsm => LsmPhase(s, payload.message);
    case TxRedeemShares => RedeemPhase(s, payload.message);
    case _ =>
  }

  lemma FailedCallbackShape(s: PoolState, payload: SudoPayload)
    requires FailedCallback(s, payload).Ok?
    ensures var after := FailedCallback(s, payload).value.state;
      CallbackPhase(payload.txType, false, s.pool, after.pool) && after.mail.sudoPayloads == s.mail.sudoPayloads
  {
    match payload.txType
    case TxUserWithdraw => WithdrawPhase(s, payload.message);
    case TxStakeLsm => LsmPhase(s, payload.message);
    case TxRedeemShares => RedeemPhase(s, payload.message);
    case _ =>
  }

  lemma DeliverKept(s: PoolState, key: PacketKey, success: bool, now: nat, height: nat, slot: Option<PacketKey>)
    requires SingleFlight(s, slot) && Deliver(s, key, success, now, height).Ok?
    ensures SingleFlight(Deliver(s, key, success, now, height).value.state, if slot == Some(key) then None else slot)
  {
    var s1 := s.(mail := s.mail.(sudoPayloads := s.mail.sudoPayloads - {key}));
    if success {
      CallbackShape(s1, s.mail.sudoPayloads[key], now, height);
    } else {
      FailedCallbackShape(s1, s.mail.sudoPayloads[key]);
    }
    var after := Deliver(s, key, success, now, height).value.state;
    assert CallbackPhase(s.mail.sudoPayloads[key].txType, success, s.pool, after.pool)
      && after.mail.sudoPayloads == s.mail.sudoPayloads - {key};
    PhaseAfter(s, s.mail.sudoPayloads[key].txType, success, after.pool, key, slot);
  }

  lemma PhaseAfter(s: PoolState, t: TxType, success: bool, after: PoolInfo, key: PacketKey, slot: Option<PacketKey>)
    requires SingleFlight(s, slot) && key in s.mail.sudoPayloads && s.mail.sudoPayloads[key].txType == t
    requires CallbackPhase(t, success, s.pool, after)
    ensures var rest := if slot == Some(key) then None else slot;
      Exclusive(s.mail.sudoPayloads - {key}, rest) && PhaseOk(s.mail.sudoPayloads - {key}, rest, after)
  {
  }

  lemma AdminKept(s: PoolState, slot: Option<PacketKey>, a: Action, now: nat)
    requires SingleFlight(s, slot) && Alone(s, a) && ByAdmin(a) && ApplyAdmin(s, a, now).Ok?
    requires Key(a).Some? ==> Key(a).value !in s.mail.sudoPayloads
    ensures var after := ApplyAdmin(s, a, now).value.state; SingleFlight(after, Slot(slot, a, after))
  {
    match a
    case DoInitPool(sender, params, key) => InitKept(s, sender, params, now, key, slot);
    case DoMigratePool(sender, params, key) => MigrateKept(s, sender, params, key, slot);
    case DoConfigPool(sender, config) => ConfigKept(s, sender, config, now, slot);
    case DoPoolDelegate(_, _) =>
    case DoAddValidator(sender, v) => AddValidatorKept(s, sender, v, slot);
    case DoUpdateValidator(sender, v, target, query, key) =>
      UpdateValidatorShape(s, sender, v, target, query, key);
      SetChangeKept(s, ApplyAdmin(s, a, now).value.state, key, TxUpdateValidator, slot);
    case DoRmValidator(sender, v, query, key) =>
      RmValidatorShape(s, sender, v, query, key);
      SetChangeKept(s, ApplyAdmin(s, a, now).value.state, key, TxRmValidator, slot);
    case DoUpdateValidatorsIcq(sender) => IcqKept(s, sender, slot);
  }

  lemma UserKept(s: PoolState, slot: Option<PacketKey>, a: Action)
    requires SingleFlight(s, slot) && ByUser(a) && ApplyUser(s, a).Ok?
    requires Key(a).Some? ==> Key(a).value !in s.mail.sudoPayloads
    ensures var after := ApplyUser(s, a).value.state; SingleFlight(after, Slot(slot, a, after))
  {
    match a
    case DoStake(sender, amount) => StakeKept(s, sender, amount, slot);
    case DoUnstake(sender, amount) => UnstakeKept(s, sender, amount, slot);
    case DoWithdraw(sender, receiver, indices, key) => WithdrawKept(s, sender, receiver, indices, key, slot);
    case DoStakeLsm(sender, ibcDenom, denom, v, amount, tokens, shares, key) =>
      StakeLsmKept(s, sender, ibcDenom, denom, v, amount, tokens, shares, key, slot);
    case DoRedeem(tokens, key) => RedeemKept(s, tokens, key, slot);
  }

  lemma EraKept(s: PoolState, slot: Option<PacketKey>, a: Action, now: nat, height: nat)
    requires SingleFlight(s, slot) && Alone(s, a) && ApplyEra(s, a, now, height).Ok?
    requires Key(a).Some? ==> Key(a).value !in s.mail.sudoPayloads
    ensures var after := ApplyEra(s, a, now, height).value.state; SingleFlight(after, Slot(slot, a, after))
  {
    match a
    case DoEraUpdate(key) => EraUpdateKept(s, now, height, key, slot);
    case DoEraBond(query, selected, key) => EraBondKept(s, query, selected, now, key, slot);
    case DoCollectWithdraw(query, key) => CollectKept(s, query, key, slot);
    case DoRebond(selected, key) => RebondKept(s, selected, key, slot);
    case DoEraActive(query) => EraActiveKept(s, query, slot);
    case DoDeliver(key, success) => DeliverKept(s, key, success, now, height, slot);
    case _ =>
  }

  lemma MessageKept(s: PoolState, slot: Option<PacketKey>, a: Action, now: nat, height: nat)
    requires SingleFlight(s, slot) && Alone(s, a) && Apply(s, a, now, height).Ok?
    requires Key(a).Some? ==> Key(a).value !in s.mail.sudoPayloads
    ensures var after := Apply(s, a, now, height).value.state; SingleFlight(after, Slot(slot, a, after))
  {
    if a.DoConfigStack? {
    } else if ByAdmin(a) {
      AdminKept(s, slot, a, now);
    } else if ByUser(a) {
      UserKept(s, slot, a);
    } else {
      EraKept(s, slot, a, now, height);
    }
  }

  /** Every message keeps the discipline. */
  lemma SingleFlightKept(w: World, e: Event)
    requires SingleFlight(w.s, w.h.slot) && Allowed(w, e)
    ensures SingleFlight(Next(w, e).s, Next(w, e).h.slot)
  {
    if Apply(w.s, e.action, e.now, e.height).Ok? {
      MessageKept(w.s, w.h.slot, e.action, e.now, e.height);
    }
  }

  // ---- What the discipline means ----

  /** Exactly one packet of the type is out. */
  ghost predicate OneOut(s: PoolState, t: TxType) {
    exists key :: key in s.mail.sudoPayloads && s.mail.sudoPayloads[key].txType == t
      && forall other :: other in s.mail.sudoPayloads && s.mail.sudoPayloads[other].txType == t ==> other == key
  }

  /** The type of packet a phase waits for. */
  function Awaited(status: EraStatus): Option<TxType> {
    match status
    case EraUpdateStarted => Some(TxEraUpdate)
    case BondStarted => Some(TxEraBond)
    case WithdrawStarted => Some(TxEraCollectWithdraw)
    case _ => None
  }

  /** A packet of the awaited type is only out in the phase that waits for it. */
  lemma PacketInPhase(s: PoolState, slot: Option<PacketKey>, phase: EraStatus, key: PacketKey)
    requires SingleFlight(s, slot) && Awaited(phase).Some?
    requires key in s.mail.sudoPayloads && s.mail.sudoPayloads[key].txType == Awaited(phase).value
    ensures s.pool.status == phase && slot == Some(key)
  {
  }

  lemma PhaseHasPacket(s: PoolState, slot: Option<PacketKey>, phase: EraStatus)
    requires SingleFlight(s, slot) && Awaited(phase).Some? && s.pool.status == phase
    ensures slot.Some? && slot.value in s.mail.sudoPayloads
    ensures s.mail.sudoPayloads[slot.value].txType == Awaited(phase).value
  {
  }

  /** A waiting phase of the era is held exactly while one packet of its type is out, and otherwise
      none is. */
  lemma PhaseIsPacket(s: PoolState, slot: Option<PacketKey>, phase: EraStatus)
    requires SingleFlight(s, slot) && Awaited(phase).Some?
    ensures s.pool.status == phase <==> OneOut(s, Awaited(phase).value)
    ensures s.pool.status != phase <==> NoneOut(s, Awaited(phase).value)
  {
    var t := Awaited(phase).value;
    forall key | key in s.mail.sudoPayloads && s.mail.sudoPayloads[key].txType == t
      ensures s.pool.status == phase && slot == Some(key)
    {
      PacketInPhase(s, slot, phase, key);
    }
    if s.pool.status == phase {
      PhaseHasPacket(s, slot, phase);
    }
  }

  /** A redelegation is only out between eras. */
  lemma RedelegationBetweenEras(s: PoolState, slot: Option<PacketKey>, key: PacketKey)
    requires SingleFlight(s, slot) && key in s.mail.sudoPayloads
    requires s.mail.sudoPayloads[key].txType == TxUpdateValidator || s.mail.sudoPayloads[key].txType == TxRmValidator
    ensures s.pool.status == ActiveEnded && s.pool.validatorUpdate == ValidatorUpdateStatus.Start
  {
  }

  /** The subtractions of the bond acknowledgement cannot underflow. */
  lemma BondAckFits(s: PoolState, slot: Option<PacketKey>, key: PacketKey, now: nat, height: nat)
    requires SingleFlight(s, slot) && key in s.mail.sudoPayloads && s.mail.sudoPayloads[key].txType == TxEraBond
    ensures s.pool.snapshot.bond <= s.pool.book.bond && s.pool.snapshot.unbond <= s.pool.book.unbond
    ensures Deliver(s, key, true, now, height).Ok?
  {
  }

  /** No callback of the era or of the admin is ever refused. */
  lemma EraCallbackAccepted(s: PoolState, slot: Option<PacketKey>, key: PacketKey, success: bool, now: nat, height: nat)
    requires SingleFlight(s, slot) && key in s.mail.sudoPayloads && !UserPacket(s.mail.sudoPayloads[key].txType)
    ensures Deliver(s, key, success, now, height).Ok?
  {
    assert Fits(s.mail.sudoPayloads[key].txType, s.pool);
  }
}
