/** Where payouts come from. What the acknowledged deposits and bond steps have left on the remote account is
    exactly what the covered unstakes are owed: so withdrawals are paid from tokens that are there. */
module Funding {
  import opened Arith
  import opened Sums
  import opened Allocation
  import opened PoolTypes
  import opened PoolSteps
  import opened Worlds
  import opened Reachability
  import opened Flight
  import opened Settlements
  import opened UnstakeLedger
  import opened Withdrawals
  import opened BondStep
  import opened Safety

  /** The deposits of the era that have arrived and wait for the bond step. */
  function InTransit(p: PoolInfo): nat {
    if p.status == EraUpdateEnded || p.status == BondStarted then p.snapshot.bond else 0
  }

  /** The packets that are out carry the amounts of the snapshot. */
  predicate Offers(p: PoolInfo, f: Flow) {
    && (p.status == EraUpdateStarted ==> f.offered == p.snapshot.bond)
    && (p.status == BondStarted ==> f.delegating + p.snapshot.unbond == f.undelegating + p.snapshot.bond)
  }

  predicate Funded(p: PoolInfo, issued: nat, carried: nat, f: Flow) {
    && f.transferred + f.undelegated + p.book.unbond == f.delegated + f.imported + issued + InTransit(p)
    && Offers(p, f) && carried <= f.imported
  }

  ghost predicate WorldFunded(w: World) {
    Funded(w.s.pool, SumBy(w.h.settlement.issued, Tokens()), w.h.settlement.carried, w.h.flow)
  }

  // ---- Every message keeps it ----

  /** Whether a phase is one of those between a snapshot and the answer to its bond step. */
  predicate Bonding(status: EraStatus) {
    status == EraUpdateStarted || status == EraUpdateEnded || status == BondStarted
  }

  predicate Uninvolved(p: PoolInfo, q: PoolInfo) {
    && q.book.unbond == p.book.unbond && q.snapshot.bond == p.snapshot.bond && q.snapshot.unbond == p.snapshot.unbond
    && (Bonding(p.status) || Bonding(q.status) ==> p.status == q.status)
  }

  lemma StillFunded(p: PoolInfo, q: PoolInfo, issued: nat, carried: nat, f: Flow)
    requires Funded(p, issued, carried, f) && Uninvolved(p, q)
    ensures Funded(q, issued, carried, f)
  {
  }

  lemma SetupFunded(s: PoolState, a: Action, now: nat, h: Settlement, f: Flow, issued: nat)
    requires (a.DoInitPool? || a.DoMigratePool?) && ApplyAdmin(s, a, now).Ok?
    requires Fresh(s.pool, h) && Funded(s.pool, issued, h.carried, f)
    ensures var o := ApplyAdmin(s, a, now).value;
      Funded(o.state.pool, issued, Settle(h, s, a, o.state).carried, Count(f, s, a, o))
  {
  }

  lemma AdminUninvolved(s: PoolState, a: Action, now: nat)
    requires ByAdmin(a) && !a.DoInitPool? && !a.DoMigratePool? && ApplyAdmin(s, a, now).Ok?
    ensures Uninvolved(s.pool, ApplyAdmin(s, a, now).value.state.pool)
  {
  }

  lemma UserUninvolved(s: PoolState, a: Action)
    requires ByUser(a) && !a.DoUnstake? && ApplyUser(s, a).Ok?
    ensures Uninvolved(s.pool, ApplyUser(s, a).value.state.pool)
  {
  }

  lemma StepUninvolved(s: PoolState, a: Action, now: nat, height: nat)
    requires (a.DoCollectWithdraw? || a.DoRebond? || a.DoEraActive?) && ApplyEra(s, a, now, height).Ok?
    ensures Uninvolved(s.pool, ApplyEra(s, a, now, height).value.state.pool)
  {
  }

  lemma UnstakeFunded(p: PoolInfo, q: PoolInfo, issued: nat, carried: nat, f: Flow)
    requires Funded(p, issued, carried, f) && Counts(p, q)
    ensures Funded(q, issued + (q.book.unbond - p.book.unbond), carried, f)
  {
  }

  lemma EraUpdateFunded(s: PoolState, now: nat, height: nat, key: PacketKey, issued: nat, carried: nat, f: Flow)
    requires Funded(s.pool, issued, carried, f) && EraUpdate(s, now, height, key).Ok?
    ensures var o := EraUpdate(s, now, height, key).value;
      Funded(o.state.pool, issued, carried, f.(offered := Transferred(o.effects.remote)))
  {
  }

  lemma EraBondFunded(s: PoolState, query: Option<DelegationQuery>, selected: seq<string>, now: nat, key: PacketKey,
                      issued: nat, carried: nat, f: Flow)
    requires Funded(s.pool, issued, carried, f) && EraBond(s, query, selected, now, key).Ok?
    requires query.Some? ==> ProperDelegations(query.value.delegations)
    ensures var o := EraBond(s, query, selected, now, key).value;
      Funded(o.state.pool, issued, carried,
             f.(delegating := Delegated(o.effects.remote), undelegating := Undelegated(o.effects.remote)))
  {
    EraBondShape(s, query, selected, now, key);
    if s.pool.snapshot.unbond >= s.pool.snapshot.bond {
      UnbondingEraExact(s, query, selected, now, key);
    } else {
      BondingEraExact(s, query, selected, now, key);
    }
  }

  /** The answers that matter; each finds the phase that sent its packet. */
  lemma DepositArrived(s: PoolState, height: nat, issued: nat, carried: nat, f: Flow)
    requires Funded(s.pool, issued, carried, f) && s.pool.status == EraUpdateStarted
    ensures Funded(EraUpdateDone(s, height).value.state.pool, issued, carried,
                   f.(transferred := f.transferred + f.offered))
  {
  }

  lemma DepositFailed(s: PoolState, issued: nat, carried: nat, f: Flow)
    requires Funded(s.pool, issued, carried, f) && s.pool.status == EraUpdateStarted && EraUpdateFailed(s).Ok?
    ensures Funded(EraUpdateFailed(s).value.state.pool, issued, carried, f)
  {
  }

  lemma BondSettled(s: PoolState, message: string, now: nat, height: nat, issued: nat, carried: nat, f: Flow)
    requires Funded(s.pool, issued, carried, f) && s.pool.status == BondStarted
    requires EraBondDone(s, message, now, height).Ok?
    ensures Funded(EraBondDone(s, message, now, height).value.state.pool, issued, 0,
                   f.(delegated := f.delegated + f.delegating, undelegated := f.undelegated + f.undelegating))
  {
  }

  lemma BondFailed(s: PoolState, issued: nat, carried: nat, f: Flow)
    requires Funded(s.pool, issued, carried, f) && s.pool.status == BondStarted
    ensures Funded(WithStatus(s, EraUpdateEnded).value.state.pool, issued, carried, f)
  {
  }

  lemma CallbackUninvolved(s: PoolState, payload: SudoPayload, now: nat, height: nat)
    requires payload.txType != TxEraBond && payload.txType != TxEraUpdate && Fits(payload.txType, s.pool)
    requires Callback(s, payload, now, height).Ok? && (s.pool.validatorUpdate != End ==> s.pool.status == ActiveEnded)
    ensures Uninvolved(s.pool, Callback(s, payload, now, height).value.state.pool)
  {
  }

  lemma FailureUninvolved(s: PoolState, payload: SudoPayload)
    requires payload.txType != TxEraBond && payload.txType != TxEraUpdate && Fits(payload.txType, s.pool)
    requires FailedCallback(s, payload).Ok? && (s.pool.validatorUpdate != End ==> s.pool.status == ActiveEnded)
    ensures Uninvolved(s.pool, FailedCallback(s, payload).value.state.pool)
  {
  }

  lemma SuccessFunded(s: PoolState, key: PacketKey, now: nat, height: nat, h: Settlement, f: Flow, issued: nat)
    requires Deliver(s, key, true, now, height).Ok? && key in s.mail.sudoPayloads
    requires Fits(s.mail.sudoPayloads[key].txType, s.pool)
    requires s.pool.validatorUpdate != End ==> s.pool.status == ActiveEnded
    requires Funded(s.pool, issued, h.carried, f)
    ensures var o, a := Deliver(s, key, true, now, height).value, DoDeliver(key, true);
      Funded(o.state.pool, issued, Settle(h, s, a, o.state).carried, Count(f, s, a, o))
  {
    var s1 := s.(mail := s.mail.(sudoPayloads := s.mail.sudoPayloads - {key}));
    var payload := s.mail.sudoPayloads[key];
    if payload.txType == TxEraBond {
      BondSettled(s1, payload.message, now, height, issued, h.carried, f);
    } else if payload.txType == TxEraUpdate {
      DepositArrived(s1, height, issued, h.carried, f);
    } else {
      CallbackUninvolved(s1, payload, now, height);
      StillFunded(s.pool, Callback(s1, payload, now, height).value.state.pool, issued, h.carried, f);
    }
  }

  lemma FailureFunded(s: PoolState, key: PacketKey, now: nat, height: nat, h: Settlement, f: Flow, issued: nat)
    requires Deliver(s, key, false, now, height).Ok? && key in s.mail.sudoPayloads
    requires Fits(s.mail.sudoPayloads[key].txType, s.pool)
    requires s.pool.validatorUpdate != End ==> s.pool.status == ActiveEnded
    requires Funded(s.pool, issued, h.carried, f)
    ensures var o, a := Deliver(s, key, false, now, height).value, DoDeliver(key, false);
      Funded(o.state.pool, issued, Settle(h, s, a, o.state).carried, Count(f, s, a, o))
  {
    var s1 := s.(mail := s.mail.(sudoPayloads := s.mail.sudoPayloads - {key}));
    var payload := s.mail.sudoPayloads[key];
    if payload.txType == TxEraBond {
      BondFailed(s1, issued, h.carried, f);
    } else if payload.txType == TxEraUpdate {
      DepositFailed(s1, issued, h.carried, f);
    } else {
      FailureUninvolved(s1, payload);
      StillFunded(s.pool, FailedCallback(s1, payload).value.state.pool, issued, h.carried, f);
    }
  }

  /** What the histories note of the other messages. */
  lemma Unnoted(s: PoolState, a: Action, o: Outcome, h: Settlement, f: Flow)
    requires !a.DoInitPool? && !a.DoMigratePool? && !a.DoUnstake? && !a.DoEraUpdate? && !a.DoEraBond? && !a.DoDeliver?
    ensures Settle(h, s, a, o.state) == h && Count(f, s, a, o) == f
  {
  }

  lemma OtherUninvolved(s: PoolState, a: Action, now: nat, height: nat)
    requires !a.DoInitPool? && !a.DoMigratePool? && !a.DoUnstake? && !a.DoEraUpdate? && !a.DoEraBond? && !a.DoDeliver?
    requires Apply(s, a, now, height).Ok?
    ensures Uninvolved(s.pool, Apply(s, a, now, height).value.state.pool)
  {
    if a.DoConfigStack? {
    } else if ByAdmin(a) {
      AdminUninvolved(s, a, now);
    } else if ByUser(a) {
      UserUninvolved(s, a);
    } else {
      StepUninvolved(s, a, now, height);
    }
  }

  lemma UnstakeMessageFunded(s: PoolState, user: string, amount: nat, h: Settlement, f: Flow)
    requires Unstake(s, user, amount).Ok? && Fresh(s.pool, h) && Funded(s.pool, SumBy(h.issued, Tokens()), h.carried, f)
    ensures var o, a := Unstake(s, user, amount).value, DoUnstake(user, amount);
      Funded(o.state.pool, SumBy(Settle(h, s, a, o.state).issued, Tokens()), Settle(h, s, a, o.state).carried,
             Count(f, s, a, o))
  {
    UnstakeShape(s, user, amount);
    var after := Unstake(s, user, amount).value.state;
    UnstakeNoted(h, s, user, amount, after);
    UnstakeFunded(s.pool, after.pool, SumBy(h.issued, Tokens()), h.carried, f);
    SumByInsert(h.issued, Tokens(), after.pool.nextUnstakeIndex,
                Issue(s.pool.clock.era, user, after.pool.book.unbond - s.pool.book.unbond));
  }

  lemma DeliveryFunded(s: PoolState, slot: Option<PacketKey>, a: Action, now: nat, height: nat, h: Settlement, f: Flow,
                       issued: nat)
    requires SingleFlight(s, slot) && a.DoDeliver? && Apply(s, a, now, height).Ok?
    requires Funded(s.pool, issued, h.carried, f)
    ensures var o := Apply(s, a, now, height).value;
      Funded(o.state.pool, issued, Settle(h, s, a, o.state).carried, Count(f, s, a, o))
  {
    assert Fits(s.mail.sudoPayloads[a.key].txType, s.pool);
    if a.success {
      SuccessFunded(s, a.key, now, height, h, f, issued);
    } else {
      FailureFunded(s, a.key, now, height, h, f, issued);
    }
  }

  lemma QuietFunded(s: PoolState, a: Action, now: nat, height: nat, h: Settlement, f: Flow, issued: nat)
    requires !a.DoInitPool? && !a.DoMigratePool? && !a.DoUnstake? && !a.DoEraUpdate? && !a.DoEraBond? && !a.DoDeliver?
    requires Apply(s, a, now, height).Ok? && Funded(s.pool, issued, h.carried, f)
    ensures var o := Apply(s, a, now, height).value;
      Funded(o.state.pool, issued, Settle(h, s, a, o.state).carried, Count(f, s, a, o))
  {
    OtherUninvolved(s, a, now, height);
    Unnoted(s, a, Apply(s, a, now, height).value, h, f);
    StillFunded(s.pool, Apply(s, a, now, height).value.state.pool, issued, h.carried, f);
  }

  /** Apart from an unstake, a message changes no issue. */
  lemma MessageFunded(s: PoolState, slot: Option<PacketKey>, a: Action, now: nat, height: nat, h: Settlement, f: Flow,
                      issued: nat)
    requires SingleFlight(s, slot) && Fresh(s.pool, h) && Proper(a) && !a.DoUnstake? && Apply(s, a, now, height).Ok?
    requires Funded(s.pool, issued, h.carried, f)
    ensures var o := Apply(s, a, now, height).value;
      Funded(o.state.pool, issued, Settle(h, s, a, o.state).carried, Count(f, s, a, o))
  {
    if a.DoInitPool? || a.DoMigratePool? {
      SetupFunded(s, a, now, h, f, issued);
    } else if a.DoEraUpdate? {
      EraUpdateFunded(s, now, height, a.key, issued, h.carried, f);
    } else if a.DoEraBond? {
      EraBondFunded(s, a.query, a.selected, now, a.key, issued, h.carried, f);
    } else if a.DoDeliver? {
      DeliveryFunded(s, slot, a, now, height, h, f, issued);
    } else {
      QuietFunded(s, a, now, height, h, f, issued);
    }
  }

  lemma IssuesStay(h: Settlement, s: PoolState, a: Action, after: PoolState)
    requires !a.DoUnstake?
    ensures Settle(h, s, a, after).issued == h.issued
  {
  }

  lemma FundedKept(w: World, e: Event)
    requires SingleFlight(w.s, w.h.slot) && Fresh(w.s.pool, w.h.settlement) && WorldFunded(w) && Allowed(w, e)
    ensures WorldFunded(Next(w, e))
  {
    var s, a, h, f := w.s, e.action, w.h.settlement, w.h.flow;
    if Apply(s, a, e.now, e.height).Ok? {
      if a.DoUnstake? {
        UnstakeMessageFunded(s, a.sender, a.amount, h, f);
      } else {
        IssuesStay(h, s, a, Apply(s, a, e.now, e.height).value.state);
        MessageFunded(s, w.h.slot, a, e.now, e.height, h, f, SumBy(h.issued, Tokens()));
      }
    }
  }

  lemma {:induction false} FundedRun(w: World, events: seq<Event>)
    requires Inv(w) && WorldFunded(w) && AllAllowed(w, events)
    ensures WorldFunded(Run(w, events))
    decreases |events|
  {
    if events != [] {
      FundedKept(w, events[0]);
      InvKept(w, events[0]);
      FundedRun(Next(w, events[0]), events[1..]);
    }
  }

  lemma ReachableFunded(w: World)
    requires Reachable(w)
    ensures WorldFunded(w)
  {
    var d, now: nat, height: nat, events :| now <= MAX_SECONDS && RunTo(Genesis(d, now, height), events, w, CAL_BASE);
    InvStart(d, now, height);
    SumByEmpty<nat, Issue>(Tokens());
    FundedRun(Genesis(d, now, height), events);
  }

  // ---- What that means for payouts ----

  lemma {:induction false} NeededOfOpen(table: map<nat, UnstakeInfo>)
    requires forall i :: i in table ==> table[i].status == Default
    ensures SumBy(table, Needed()) == SumBy(table, Open()) + 5 * |table|
    decreases |table|
  {
    if table != map[] {
      var i :| i in table;
      SumByRemove(table, Needed(), i);
      SumByRemove(table, Open(), i);
      assert (table - {i}).Keys == table.Keys - {i};
      NeededOfOpen(table - {i});
    }
  }

  /** The records that a bond step has covered. */
  function Covered(table: map<nat, UnstakeInfo>, unsettled: map<nat, Issue>): map<nat, UnstakeInfo> {
    table - unsettled.Keys
  }

  /** Over every run with a period of at least two: what acknowledged transfers and bond steps have left on
      the remote account is what has been paid, is being paid and is still owed to covered unstakes, 5 for
      each of those, what a migration brought along, and the deposits waiting for their bond step. */
  lemma FundsExact(w: World)
    requires Reachable(w) && w.h.patient
    ensures var f, p, h := w.h.flow, w.h.payouts, w.h.settlement;
      f.transferred + f.undelegated + h.carried
      == f.delegated + f.imported + InTransit(w.s.pool)
         + p.paid + SumBy(p.tickets, Due()) + SumBy(Covered(w.s.ledger.unstakes, h.unsettled), Open())
         + 5 * (|h.issued| - |h.unsettled|)
  {
    ReachableSafe(w);
    ReachableFunded(w);
    var table, unsettled := w.s.ledger.unstakes, w.h.settlement.unsettled;
    CounterIsUncovered(w.s, w.h.settlement);
    UncoveredParts(table, unsettled);
  }

  lemma UncoveredParts(table: map<nat, UnstakeInfo>, unsettled: map<nat, Issue>)
    requires Waiting(table, unsettled)
    ensures SumBy(Uncovered(table, unsettled), Needed()) == SumBy(Uncovered(table, unsettled), Open()) + 5 * |unsettled|
    ensures SumBy(table, Open())
      == SumBy(Uncovered(table, unsettled), Open()) + SumBy(Covered(table, unsettled), Open())
  {
    var part := Uncovered(table, unsettled);
    assert part.Keys == unsettled.Keys;
    assert |part| == |part.Keys| == |unsettled.Keys| == |unsettled|;
    NeededOfOpen(part);
    SumBySplit(table, part, Open());
  }

  /** So what is paid and being paid never exceeds what is there. */
  lemma PayoutsFunded(w: World)
    requires Reachable(w) && w.h.patient
    ensures w.h.payouts.paid + SumBy(w.h.payouts.tickets, Due()) + w.h.flow.delegated
      <= w.h.flow.transferred + w.h.flow.undelegated
  {
    FundsExact(w);
    ReachableFunded(w);
    ReachableSafe(w);
    IssuedIncludes(w.h.settlement);
  }

  lemma IssuedIncludes(h: Settlement)
    requires Inside(h.unsettled, h.issued)
    ensures |h.unsettled| <= |h.issued|
  {
    SubsetSize(h.unsettled.Keys, h.issued.Keys);
  }

  lemma SubsetSize(a: set<nat>, b: set<nat>)
    requires a <= b
    ensures |a| <= |b|
  {
    assert b == a + (b - a);
  }
}
