/** The pool never owes more than it holds: at the stored rate, all liquid tokens together are worth
    no more than the active stake. */
module Solvency {
  import opened Arith
  import opened Allocation
  import Payload
  import opened PoolTypes
  import opened PoolSteps
  import opened Worlds

  predicate Solvent(b: Book) {
    b.rate * b.totalLsd <= b.active * CAL_BASE
  }

  // ---- Arithmetic ----

  lemma Distribute(a: nat, b: nat, c: nat)
    ensures a * (b + c) == a * b + a * c && (b + c) * a == b * a + c * a
  {
  }

  lemma CancelLe(a: nat, b: nat, c: nat)
    requires c > 0 && a * c <= b * c
    ensures a <= b
  {
    if b < a {
      MulLe(b + 1, a, c);
    }
  }

  lemma CancelLt(a: nat, b: nat, c: nat)
    requires a * c < b * c
    ensures a < b
  {
    if b <= a {
      MulLe(b, a, c);
    }
  }

  // ---- Users ----

  /** Minting at the current rate keeps the pool solvent. */
  lemma MintSolvent(b: Book, amount: nat, minted: nat)
    requires Solvent(b) && minted * b.rate <= amount * CAL_BASE
    ensures b.rate * (b.totalLsd + minted) <= (b.active + amount) * CAL_BASE
  {
    Distribute(b.rate, b.totalLsd, minted);
    Distribute(CAL_BASE, b.active, amount);
  }

  lemma StakeSolvent(s: PoolState, user: string, amount: nat)
    requires Solvent(s.pool.book) && Stake(s, user, amount).Ok?
    ensures Solvent(Stake(s, user, amount).value.state.pool.book)
  {
    var minted := MulDiv(amount, CAL_BASE, s.pool.book.rate).value;
    MintSolvent(s.pool.book, amount, minted);
  }

  lemma LsmSolvent(s: PoolState, message: string)
    requires Solvent(s.pool.book) && StakeLsmDone(s, message).Ok?
    ensures Solvent(StakeLsmDone(s, message).value.state.pool.book)
  {
    var tokens := Payload.ParseUint(Payload.Split(message)[1], U128_MAX).value;
    var minted := MulDiv(tokens, CAL_BASE, s.pool.book.rate).value;
    MintSolvent(s.pool.book, tokens, minted);
  }

  /** What a burn is worth is covered by the active stake, so taking it out cannot underflow. */
  lemma BurnCovered(b: Book, burned: nat, tokens: nat)
    requires Solvent(b) && burned <= b.totalLsd && tokens * CAL_BASE <= burned * b.rate
    ensures tokens <= b.active
    ensures b.rate * (b.totalLsd - burned) <= (b.active - tokens) * CAL_BASE
  {
    Distribute(b.rate, b.totalLsd - burned, burned);
    CancelLe(tokens, b.active, CAL_BASE);
    Distribute(CAL_BASE, b.active - tokens, tokens);
  }

  lemma UnstakeSolvent(s: PoolState, user: string, amount: nat)
    requires Solvent(s.pool.book) && Unstake(s, user, amount).Ok?
    ensures Solvent(Unstake(s, user, amount).value.state.pool.book)
  {
    var burned := amount - UnstakeFee(s.pool, amount).value;
    var tokens := MulDiv(burned, s.pool.book.rate, CAL_BASE).value;
    BurnCovered(s.pool.book, burned, tokens);
  }

  /** A burn within the total never makes the active stake underflow. */
  lemma UnstakeNeverUnderflows(s: PoolState, user: string, amount: nat)
    requires Solvent(s.pool.book) && UnstakeFee(s.pool, amount).Ok? && UnstakeFee(s.pool, amount).value <= amount
    requires amount - UnstakeFee(s.pool, amount).value <= s.pool.book.totalLsd
    ensures Unstake(s, user, amount) != Err(Underflow)
  {
    var b, burned := s.pool.book, amount - UnstakeFee(s.pool, amount).value;
    if MulDiv(burned, b.rate, CAL_BASE).Ok? {
      BurnCovered(b, burned, MulDiv(burned, b.rate, CAL_BASE).value);
    }
  }

  /** Nobody profits from staking and unstaking at once: what comes back is at least 5 less. */
  lemma NoRoundTripProfit(s: PoolState, user: string, amount: nat)
    requires Stake(s, user, amount).Ok?
    ensures var o := Stake(s, user, amount).value;
      && |o.effects.token| == 1 && o.effects.token[0].Mint? && o.effects.token[0].recipient == user
      && var minted := o.effects.token[0].amount;
         Unstake(o.state, user, minted).Ok? ==>
           var after := Unstake(o.state, user, minted).value.state;
           && after.pool.nextUnstakeIndex in after.ledger.unstakes
           && after.ledger.unstakes[after.pool.nextUnstakeIndex].unstaker == user
           && after.ledger.unstakes[after.pool.nextUnstakeIndex].amount + 5 <= amount
  {
    var rate := s.pool.book.rate;
    var o := Stake(s, user, amount).value;
    var minted := o.effects.token[0].amount;
    if Unstake(o.state, user, minted).Ok? {
      var burned := minted - UnstakeFee(o.state.pool, minted).value;
      var tokens := MulDiv(burned, rate, CAL_BASE).value;
      MulLe(burned, minted, rate);
      CancelLe(tokens, amount, CAL_BASE);
    }
  }

  // ---- The end of the era ----

  /** Fees are worth no more than the gain they are taken from. */
  lemma FeesCovered(p: PoolInfo, stackCommission: nat, reported: nat)
    requires p.config.platformFeeCommission <= CAL_BASE && EraFees(p, stackCommission, reported).Ok?
    ensures var fees := EraFees(p, stackCommission, reported).value;
      var gain := if reported > p.snapshot.active then reported - p.snapshot.active else 0;
      (fees.platform + fees.stack) * p.book.rate <= gain * CAL_BASE
  {
    if reported > p.snapshot.active {
      var gain := reported - p.snapshot.active;
      MulLe(p.config.platformFeeCommission, CAL_BASE, gain);
    }
  }

  /** The rounding correction for first stakes only applies when no fee is taken. */
  lemma CorrectionCovered(active: nat, lsd: nat, gain: nat, fees: nat, newActive: nat, newRate: nat)
    requires CAL_BASE * lsd <= active * CAL_BASE && fees * CAL_BASE <= gain * CAL_BASE
    requires newActive * CAL_BASE < newRate * (lsd + fees) + (lsd + fees) && newRate < CAL_BASE
    requires gain > 0 ==> newActive == active + gain
    ensures gain == 0 && fees == 0 && lsd <= active
  {
    CancelLe(lsd, active, CAL_BASE);
    CancelLe(fees, gain, CAL_BASE);
    Distribute(lsd + fees, newRate, 1);
    MulLe(newRate + 1, CAL_BASE, lsd + fees);
    CancelLt(newActive, lsd + fees, CAL_BASE);
  }

  /** The numbers of an accepted era_active. */
  datatype Closing = Closing(reported: nat, fees: Fees, newActive: nat, total: nat, newRate: nat, keep: bool)

  /** What an accepted era_active has computed on the way to its new book. */
  ghost predicate Closes(s: PoolState, reported: nat, c: Closing, after: PoolState) {
    var p := s.pool;
    && p.status == RebondEnded && after.pool.status == ActiveEnded
    && c.reported == reported
    && EraFees(p, s.stack.feeCommission, reported) == Ok(c.fees)
    && c.newActive
       == (if p.book.active + reported > p.snapshot.active then p.book.active + reported - p.snapshot.active else 0)
    && c.total == p.book.totalLsd + c.fees.platform + c.fees.stack
    && (if c.total > 0 then MulDiv(c.newActive, CAL_BASE, c.total) == Ok(c.newRate) else c.newRate == CAL_BASE)
    && c.keep == FirstStake(p, c.newRate, c.newActive)
    && after.pool.book == p.book.(rate := if c.keep then DEFAULT_RATE else c.newRate,
                                  active := if c.keep then p.book.active else c.newActive,
                                  totalLsd := c.total, totalPlatformFee := p.book.totalPlatformFee + c.fees.platform)
  }

  lemma EraActiveCloses(s: PoolState, query: Option<DelegationQuery>) returns (c: Closing)
    requires EraActive(s, query).Ok?
    ensures query.Some? && SumDelegations(query.value.delegations, 0).Ok?
    ensures Closes(s, SumDelegations(query.value.delegations, 0).value, c, EraActive(s, query).value.state)
  {
    var reported := SumDelegations(query.value.delegations, 0).value;
    var fees := EraFees(s.pool, s.stack.feeCommission, reported).value;
    var gross := s.pool.book.active + reported;
    var newActive := if gross > s.pool.snapshot.active then gross - s.pool.snapshot.active else 0;
    var total := s.pool.book.totalLsd + fees.platform + fees.stack;
    var newRate := if total > 0 then MulDiv(newActive, CAL_BASE, total).value else CAL_BASE;
    c := Closing(reported, fees, newActive, total, newRate, FirstStake(s.pool, newRate, newActive));
  }

  /** When the correction applies nothing was gained, and it only puts rounding back. */
  lemma CorrectionIsRounding(s: PoolState, reported: nat, c: Closing, after: PoolState)
    requires Solvent(s.pool.book) && s.pool.config.platformFeeCommission <= CAL_BASE
    requires Closes(s, reported, c, after) && c.keep
    ensures reported <= s.pool.snapshot.active && c.fees == Fees(0, 0) && c.total <= s.pool.book.active
    ensures c.newActive <= s.pool.book.active < c.newActive + 1000
  {
    var p := s.pool;
    FeesCovered(p, s.stack.feeCommission, reported);
    var gain := if reported > p.snapshot.active then reported - p.snapshot.active else 0;
    CorrectionCovered(p.book.active, p.book.totalLsd, gain, c.fees.platform + c.fees.stack, c.newActive, c.newRate);
  }

  lemma ClosingSolvent(s: PoolState, reported: nat, c: Closing, after: PoolState)
    requires Solvent(s.pool.book) && s.pool.config.platformFeeCommission <= CAL_BASE && Closes(s, reported, c, after)
    ensures Solvent(after.pool.book)
  {
    if c.keep {
      CorrectionIsRounding(s, reported, c, after);
      MulLe(c.total, s.pool.book.active, CAL_BASE);
    }
  }

  lemma EraActiveSolvent(s: PoolState, query: Option<DelegationQuery>)
    requires Solvent(s.pool.book) && s.pool.config.platformFeeCommission <= CAL_BASE && EraActive(s, query).Ok?
    ensures Solvent(EraActive(s, query).value.state.pool.book)
  {
    var c := EraActiveCloses(s, query);
    ClosingSolvent(s, SumDelegations(query.value.delegations, 0).value, c, EraActive(s, query).value.state);
  }

  /** Without a loss of delegated stake the rate does not fall, although fees are minted. */
  lemma RateNeverFalls(s: PoolState, query: Option<DelegationQuery>)
    requires Solvent(s.pool.book) && s.pool.config.platformFeeCommission <= CAL_BASE && EraActive(s, query).Ok?
    requires SumDelegations(query.value.delegations, 0).value >= s.pool.snapshot.active
    requires EraActive(s, query).value.state.pool.book.totalLsd > 0
    ensures EraActive(s, query).value.state.pool.book.rate >= s.pool.book.rate
  {
    var b := s.pool.book;
    var reported := SumDelegations(query.value.delegations, 0).value;
    var c := EraActiveCloses(s, query);
    if !c.keep {
      var gain := reported - s.pool.snapshot.active;
      var fees := c.fees.platform + c.fees.stack;
      FeesCovered(s.pool, s.stack.feeCommission, reported);
      Distribute(b.rate, b.totalLsd, fees);
      Distribute(CAL_BASE, b.active, gain);
      assert c.newActive == b.active + gain;
      RateReaches(b.rate, c.newActive, c.total, c.newRate);
    }
  }

  lemma RateReaches(rate: nat, newActive: nat, total: nat, newRate: nat)
    requires total > 0 && MulDiv(newActive, CAL_BASE, total) == Ok(newRate)
    requires rate * total <= newActive * CAL_BASE
    ensures rate <= newRate
  {
    Distribute(total, newRate, 1);
    CancelLt(rate, newRate + 1, total);
  }

  /** With a limit set, an accepted era moves the rate by no more than that share of it. */
  lemma RateMovesWithinLimit(s: PoolState, query: Option<DelegationQuery>)
    requires EraActive(s, query).Ok? && s.pool.config.rateChangeLimit != 0 && s.pool.book.rate > 0
    ensures var from, to := s.pool.book.rate, EraActive(s, query).value.state.pool.book.rate;
      (if from > to then from - to else to - from) * CAL_BASE < (s.pool.config.rateChangeLimit + 1) * from
  {
    var from, to := s.pool.book.rate, EraActive(s, query).value.state.pool.book.rate;
    var c := EraActiveCloses(s, query);
    if c.keep {
      MulLe(1, s.pool.config.rateChangeLimit + 1, from);
    } else {
      var change := RateChange(from, to).value;
      MulLe(change, s.pool.config.rateChangeLimit, from);
      Distribute(from, s.pool.config.rateChangeLimit, 1);
      Distribute(from, change, 1);
    }
  }

  // ---- Setting up ----

  lemma MigrateSolvent(s: PoolState, sender: string, params: MigrateParams, key: PacketKey)
    requires Solvent(s.pool.book) && MigratePool(s, sender, params, key).Ok?
    ensures Solvent(MigratePool(s, sender, params, key).value.state.pool.book)
  {
    if s.pool.status != InitFailed {
      if params.totalLsd != 0 {
        assert MulDiv(params.active, CAL_BASE, params.totalLsd) == Ok(params.rate);
      }
    }
  }

  // ---- Every message ----

  ghost predicate Healthy(s: PoolState) {
    Solvent(s.pool.book) && s.pool.config.platformFeeCommission <= CAL_BASE
  }

  lemma AdminHealthy(s: PoolState, a: Action, now: nat)
    requires Healthy(s) && CommissionWithin(a, CAL_BASE) && ByAdmin(a) && ApplyAdmin(s, a, now).Ok?
    ensures Healthy(ApplyAdmin(s, a, now).value.state)
  {
    match a
    case DoMigratePool(sender, params, key) => MigrateSolvent(s, sender, params, key);
    case _ =>
  }

  lemma UserHealthy(s: PoolState, a: Action)
    requires Healthy(s) && ByUser(a) && ApplyUser(s, a).Ok?
    ensures Healthy(ApplyUser(s, a).value.state)
  {
    match a
    case DoStake(sender, amount) => StakeSolvent(s, sender, amount);
    case DoUnstake(sender, amount) => UnstakeSolvent(s, sender, amount);
    case _ =>
  }

  lemma CallbackHealthy(s: PoolState, payload: SudoPayload, now: nat, height: nat)
    requires Healthy(s)
    ensures Callback(s, payload, now, height).Ok? ==> Healthy(Callback(s, payload, now, height).value.state)
    ensures FailedCallback(s, payload).Ok? ==> Healthy(FailedCallback(s, payload).value.state)
  {
    if payload.txType == TxStakeLsm && StakeLsmDone(s, payload.message).Ok? {
      LsmSolvent(s, payload.message);
    }
  }

  lemma EraHealthy(s: PoolState, a: Action, now: nat, height: nat)
    requires Healthy(s) && ApplyEra(s, a, now, height).Ok?
    ensures Healthy(ApplyEra(s, a, now, height).value.state)
  {
    match a
    case DoEraActive(query) => EraActiveSolvent(s, query);
    case DoDeliver(key, success) =>
      CallbackHealthy(s.(mail := s.mail.(sudoPayloads := s.mail.sudoPayloads - {key})), s.mail.sudoPayloads[key], now,
                      height);
    case _ =>
  }

  /** Every message of every run keeps the pool solvent. */
  lemma HealthyKept(w: World, e: Event)
    requires Healthy(w.s) && Lawful(w, e, CAL_BASE)
    ensures Healthy(Next(w, e).s)
  {
    var s, a := w.s, e.action;
    if Apply(s, a, e.now, e.height).Ok? {
      if a.DoConfigStack? {
      } else if ByAdmin(a) {
        AdminHealthy(s, a, e.now);
      } else if ByUser(a) {
        UserHealthy(s, a);
      } else {
        EraHealthy(s, a, e.now, e.height);
      }
    }
  }
}
