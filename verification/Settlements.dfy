/** No payout before settlement: a withdrawal is only accepted for an unstake that an acknowledged bond
    step has covered, and until then the unbond counter accounts for it. */
module Settlements {
  import opened Arith
  import opened Sums
  import opened PoolTypes
  import opened PoolSteps
  import opened Worlds
  import opened Flight

  function Tokens(): Issue -> nat { (issue: Issue) => issue.tokens }

  predicate Inside(part: map<nat, Issue>, whole: map<nat, Issue>) {
    forall i :: i in part ==> i in whole && whole[i] == part[i]
  }

  /** Indices are handed out in order, and nothing has happened before the pool is set up. */
  predicate Fresh(p: PoolInfo, h: Settlement) {
    && p.nextUnstakeIndex <= U64_MAX
    && (forall i :: i in h.issued ==> 1 <= i <= p.nextUnstakeIndex)
    && (p.status == RegisterEnded ==> p.book.rate == 0 && h.issued == map[] && h.carried == 0 && p.book.unbond == 0)
  }

  /** Uncovered unstakes are recent: from the last era at the earliest while its snapshot is being
      bonded, from the current era otherwise. */
  predicate Recent(p: PoolInfo, h: Settlement) {
    forall i :: i in h.unsettled ==>
      if i in h.inSnapshot then h.unsettled[i].era + 1 >= p.clock.era else h.unsettled[i].era >= p.clock.era
  }

  ghost predicate Counted(p: PoolInfo, h: Settlement) {
    && p.book.unbond == h.carried + SumBy(h.unsettled, Tokens())
    && (BeforeBond(p.status) ==> p.snapshot.unbond == h.carried + SumBy(h.inSnapshot, Tokens()))
  }

  predicate Nested(p: PoolInfo, h: Settlement) {
    && Inside(h.unsettled, h.issued) && Inside(h.inSnapshot, h.unsettled)
    && (!BeforeBond(p.status) ==> h.inSnapshot == map[])
  }

  ghost predicate Accounted(p: PoolInfo, h: Settlement) {
    Fresh(p, h) && Nested(p, h) && Recent(p, h) && Counted(p, h)
  }

  /** The parts of the pool record the accounting looks at. */
  predicate SameCounters(p: PoolInfo, q: PoolInfo) {
    && q.book.unbond == p.book.unbond && q.book.rate == p.book.rate && q.clock.era == p.clock.era
    && q.nextUnstakeIndex == p.nextUnstakeIndex && q.snapshot.unbond == p.snapshot.unbond
  }

  predicate Bystander(p: PoolInfo, q: PoolInfo) {
    && SameCounters(p, q) && BeforeBond(p.status) == BeforeBond(q.status)
    && (q.status == RegisterEnded ==> p.status == RegisterEnded)
  }

  lemma StillAccounted(p: PoolInfo, q: PoolInfo, h: Settlement)
    requires Accounted(p, h) && Bystander(p, q)
    ensures Accounted(q, h)
  {
  }

  /** What an accepted unstake changes in the pool record. */
  predicate Counts(p: PoolInfo, q: PoolInfo) {
    && q.nextUnstakeIndex == p.nextUnstakeIndex + 1 <= U64_MAX
    && q.book.unbond > p.book.unbond + 5 && q.book.rate == p.book.rate > 0
    && q.(book := p.book, nextUnstakeIndex := p.nextUnstakeIndex) == p
  }

  lemma UnstakeShape(s: PoolState, user: string, amount: nat)
    requires Unstake(s, user, amount).Ok?
    ensures Counts(s.pool, Unstake(s, user, amount).value.state.pool)
  {
    var burned := amount - UnstakeFee(s.pool, amount).value;
    assert s.pool.book.rate == 0 ==> burned * s.pool.book.rate == 0;
  }

  function WithIssue(h: Settlement, index: nat, issue: Issue): Settlement {
    h.(issued := h.issued[index := issue], unsettled := h.unsettled[index := issue])
  }

  lemma IssueAccounted(p: PoolInfo, q: PoolInfo, h: Settlement, issue: Issue)
    requires Accounted(p, h) && Counts(p, q)
    requires issue.era == p.clock.era && q.book.unbond == p.book.unbond + issue.tokens
    ensures Accounted(q, WithIssue(h, q.nextUnstakeIndex, issue))
  {
    SumByInsert(h.unsettled, Tokens(), q.nextUnstakeIndex, issue);
  }

  /** What the history notes of it. */
  lemma UnstakeNoted(h: Settlement, s: PoolState, user: string, amount: nat, after: PoolState)
    requires after.pool.book.unbond >= s.pool.book.unbond
    ensures Settle(h, s, DoUnstake(user, amount), after)
         == WithIssue(h, after.pool.nextUnstakeIndex,
                      Issue(s.pool.clock.era, user, after.pool.book.unbond - s.pool.book.unbond))
  {
  }

  lemma UnstakeAccounted(s: PoolState, user: string, amount: nat, h: Settlement)
    requires Accounted(s.pool, h) && Unstake(s, user, amount).Ok?
    ensures var after := Unstake(s, user, amount).value.state;
      Accounted(after.pool, Settle(h, s, DoUnstake(user, amount), after))
  {
    var after := Unstake(s, user, amount).value.state;
    UnstakeShape(s, user, amount);
    UnstakeNoted(h, s, user, amount, after);
    IssueAccounted(s.pool, after.pool, h, Issue(s.pool.clock.era, user, after.pool.book.unbond - s.pool.book.unbond));
  }

  lemma EraUpdateAccounted(s: PoolState, now: nat, height: nat, key: PacketKey, h: Settlement)
    requires Accounted(s.pool, h) && EraUpdate(s, now, height, key).Ok?
    ensures Accounted(EraUpdate(s, now, height, key).value.state.pool, h.(inSnapshot := h.unsettled))
  {
  }

  lemma RollbackAccounted(s: PoolState, h: Settlement)
    requires Accounted(s.pool, h) && s.pool.status == EraUpdateStarted && EraUpdateFailed(s).Ok?
    ensures Accounted(EraUpdateFailed(s).value.state.pool, h.(inSnapshot := map[]))
  {
  }

  lemma BondAccounted(s: PoolState, message: string, now: nat, height: nat, h: Settlement)
    requires Accounted(s.pool, h) && s.pool.status == BondStarted && EraBondDone(s, message, now, height).Ok?
    ensures Accounted(EraBondDone(s, message, now, height).value.state.pool,
                      h.(unsettled := h.unsettled - h.inSnapshot.Keys, inSnapshot := map[], carried := 0))
  {
    SumBySplit(h.unsettled, h.inSnapshot, Tokens());
  }

  lemma SetupAccounted(s: PoolState, a: Action, now: nat, h: Settlement)
    requires Accounted(s.pool, h) && (a.DoInitPool? || a.DoMigratePool?) && ApplyAdmin(s, a, now).Ok?
    ensures var after := ApplyAdmin(s, a, now).value.state; Accounted(after.pool, Settle(h, s, a, after))
  {
  }

  lemma AdminBystander(s: PoolState, a: Action, now: nat)
    requires ByAdmin(a) && !a.DoInitPool? && !a.DoMigratePool? && ApplyAdmin(s, a, now).Ok?
    ensures Bystander(s.pool, ApplyAdmin(s, a, now).value.state.pool)
  {
  }

  lemma AdminAccounted(s: PoolState, a: Action, now: nat, h: Settlement)
    requires Accounted(s.pool, h) && ByAdmin(a) && ApplyAdmin(s, a, now).Ok?
    ensures var after := ApplyAdmin(s, a, now).value.state; Accounted(after.pool, Settle(h, s, a, after))
  {
    if a.DoInitPool? || a.DoMigratePool? {
      SetupAccounted(s, a, now, h);
    } else {
      AdminBystander(s, a, now);
      StillAccounted(s.pool, ApplyAdmin(s, a, now).value.state.pool, h);
    }
  }

  lemma UserBystander(s: PoolState, a: Action)
    requires ByUser(a) && !a.DoUnstake? && ApplyUser(s, a).Ok?
    ensures Bystander(s.pool, ApplyUser(s, a).value.state.pool)
  {
  }

  lemma UserAccounted(s: PoolState, a: Action, h: Settlement)
    requires Accounted(s.pool, h) && ByUser(a) && ApplyUser(s, a).Ok?
    ensures var after := ApplyUser(s, a).value.state; Accounted(after.pool, Settle(h, s, a, after))
  {
    if a.DoUnstake? {
      UnstakeAccounted(s, a.sender, a.amount, h);
    } else {
      UserBystander(s, a);
      StillAccounted(s.pool, ApplyUser(s, a).value.state.pool, h);
    }
  }

  lemma StepBystander(s: PoolState, a: Action, now: nat, height: nat)
    requires (a.DoEraBond? || a.DoCollectWithdraw? || a.DoRebond?) && ApplyEra(s, a, now, height).Ok?
    ensures Bystander(s.pool, ApplyEra(s, a, now, height).value.state.pool)
  {
    if a.DoEraBond? {
      EraBondShape(s, a.query, a.selected, now, a.key);
    }
  }

  /** era_active may change the rate, but not of a pool that is not set up. */
  lemma EraActiveAccounted(s: PoolState, query: Option<DelegationQuery>, h: Settlement)
    requires Accounted(s.pool, h) && EraActive(s, query).Ok?
    ensures Accounted(EraActive(s, query).value.state.pool, h)
  {
    var after := EraActive(s, query).value.state.pool;
    StillAccounted(s.pool, after.(book := after.book.(rate := s.pool.book.rate)), h);
  }

  lemma StepAccounted(s: PoolState, a: Action, now: nat, height: nat, h: Settlement)
    requires Accounted(s.pool, h)
      && (a.DoEraUpdate? || a.DoEraBond? || a.DoCollectWithdraw? || a.DoRebond? || a.DoEraActive?)
    requires ApplyEra(s, a, now, height).Ok?
    ensures var after := ApplyEra(s, a, now, height).value.state; Accounted(after.pool, Settle(h, s, a, after))
  {
    if a.DoEraUpdate? {
      EraUpdateAccounted(s, now, height, a.key, h);
    } else if a.DoEraActive? {
      EraActiveAccounted(s, a.query, h);
    } else {
      StepBystander(s, a, now, height);
      StillAccounted(s.pool, ApplyEra(s, a, now, height).value.state.pool, h);
    }
  }

  lemma DeliverAccounted(s: PoolState, slot: Option<PacketKey>, key: PacketKey, success: bool, now: nat, height: nat,
                         h: Settlement)
    requires SingleFlight(s, slot) && Accounted(s.pool, h) && Deliver(s, key, success, now, height).Ok?
    ensures var after := Deliver(s, key, success, now, height).value.state;
      Accounted(after.pool, Settle(h, s, DoDeliver(key, success), after))
  {
    var s1 := s.(mail := s.mail.(sudoPayloads := s.mail.sudoPayloads - {key}));
    var payload := s.mail.sudoPayloads[key];
    assert Fits(payload.txType, s.pool);
    if payload.txType == TxEraBond && success {
      BondAccounted(s1, payload.message, now, height, h);
    } else if payload.txType == TxEraUpdate && !success {
      RollbackAccounted(s1, h);
    } else if success {
      CallbackBystander(s1, payload, now, height);
      StillAccounted(s.pool, Callback(s1, payload, now, height).value.state.pool, h);
    } else {
      FailureBystander(s1, payload);
      StillAccounted(s.pool, FailedCallback(s1, payload).value.state.pool, h);
    }
  }

  lemma CallbackBystander(s: PoolState, payload: SudoPayload, now: nat, height: nat)
    requires payload.txType != TxEraBond && Fits(payload.txType, s.pool) && Callback(s, payload, now, height).Ok?
    requires s.pool.validatorUpdate != End ==> s.pool.status == ActiveEnded
    ensures Bystander(s.pool, Callback(s, payload, now, height).value.state.pool)
  {
  }

  lemma FailureBystander(s: PoolState, payload: SudoPayload)
    requires payload.txType != TxEraUpdate && Fits(payload.txType, s.pool) && FailedCallback(s, payload).Ok?
    requires s.pool.validatorUpdate != End ==> s.pool.status == ActiveEnded
    ensures Bystander(s.pool, FailedCallback(s, payload).value.state.pool)
  {
  }

  lemma MessageAccounted(s: PoolState, slot: Option<PacketKey>, a: Action, now: nat, height: nat, h: Settlement)
    requires SingleFlight(s, slot) && Accounted(s.pool, h) && Apply(s, a, now, height).Ok?
    ensures var after := Apply(s, a, now, height).value.state; Accounted(after.pool, Settle(h, s, a, after))
  {
    if a.DoConfigStack? {
    } else if ByAdmin(a) {
      AdminAccounted(s, a, now, h);
    } else if ByUser(a) {
      UserAccounted(s, a, h);
    } else if a.DoDeliver? {
      DeliverAccounted(s, slot, a.key, a.success, now, height, h);
    } else {
      StepAccounted(s, a, now, height, h);
    }
  }

  /** Every message keeps the accounts. */
  lemma AccountedKept(w: World, e: Event)
    requires SingleFlight(w.s, w.h.slot) && Accounted(w.s.pool, w.h.settlement)
    ensures Accounted(Next(w, e).s.pool, Next(w, e).h.settlement)
  {
    if Apply(w.s, e.action, e.now, e.height).Ok? {
      MessageAccounted(w.s, w.h.slot, e.action, e.now, e.height, w.h.settlement);
    }
  }
}
