/** A withdrawal pays only what an acknowledged bond step has covered, provided the unbonding period is
    at least two eras; while it has been so all along, the unbond counter is exactly what the records
    still waiting for their bond step will need. */
module Withdrawals {
  import opened Arith
  import opened Sums
  import opened Payload
  import opened PoolTypes
  import opened PoolSteps
  import opened Worlds
  import opened Flight
  import opened Settlements
  import opened UnstakeLedger

  /** No payout before settlement. */
  lemma PaidUnstakesSettled(s: PoolState, sender: string, receiver: string, indices: seq<nat>, key: PacketKey,
                            h: Settlement)
    requires Accounted(s.pool, h) && Recorded(s.ledger.unstakes, h.issued)
    requires s.pool.clock.unbondingPeriod >= 2 && Withdraw(s, sender, receiver, indices, key).Ok?
    ensures forall i :: i in indices ==> i in h.issued && i !in h.unsettled
  {
    WithdrawShape(s, sender, receiver, indices, key);
    forall i | i in indices ensures i in h.issued && i !in h.unsettled {
      assert s.ledger.unstakes[i].era == h.issued[i].era;
    }
  }

  /** What has not been covered yet is still there, open. */
  predicate Waiting(table: map<nat, UnstakeInfo>, unsettled: map<nat, Issue>) {
    forall i :: i in unsettled ==> i in table && table[i].status == Default
  }

  // ---- Every message keeps that, as long as the period is at least two ----

  /** Apart from an unstake, nothing becomes uncovered. */
  lemma SettleShrinks(h: Settlement, s: PoolState, a: Action, after: PoolState)
    requires !a.DoUnstake?
    ensures Settle(h, s, a, after).unsettled.Keys <= h.unsettled.Keys
  {
  }

  lemma UnstakeWaiting(s: PoolState, user: string, amount: nat, h: Settlement)
    requires Waiting(s.ledger.unstakes, h.unsettled) && Unstake(s, user, amount).Ok?
    ensures var after := Unstake(s, user, amount).value.state;
      Waiting(after.ledger.unstakes, Settle(h, s, DoUnstake(user, amount), after).unsettled)
  {
    UnstakeRecord(s, user, amount);
  }

  lemma WithdrawWaiting(s: PoolState, sender: string, receiver: string, indices: seq<nat>, key: PacketKey,
                        h: Settlement)
    requires Accounted(s.pool, h) && Recorded(s.ledger.unstakes, h.issued) && Waiting(s.ledger.unstakes, h.unsettled)
    requires Withdraw(s, sender, receiver, indices, key).Ok?
    requires StillPatient(true, Withdraw(s, sender, receiver, indices, key).value.state)
    ensures Waiting(Withdraw(s, sender, receiver, indices, key).value.state.ledger.unstakes, h.unsettled)
  {
    WithdrawShape(s, sender, receiver, indices, key);
    assert indices[0] in s.ledger.unstakes;
    PaidUnstakesSettled(s, sender, receiver, indices, key, h);
  }

  /** Only pending records are removed or reopened. */
  lemma AnswerWaiting(l: Ledger, payloads: map<PacketKey, SudoPayload>, key: PacketKey, h: Settlement, p: Payouts)
    requires LedgerOk(l, payloads, h.issued, p) && Waiting(l.unstakes, h.unsettled)
    requires key in payloads && payloads[key].txType == TxUserWithdraw && (forall i :: i in h.issued ==> i <= U64_MAX)
    ensures PaidOut(l, payloads[key].message).Ok?
    ensures Waiting(PaidOut(l, payloads[key].message).value.unstakes, h.unsettled)
    ensures Reverted(l, payloads[key].message).Ok?
    ensures Waiting(Reverted(l, payloads[key].message).value.unstakes, h.unsettled)
  {
    TicketOf(l.unstakes, payloads, p, key);
    var t := p.tickets[key];
    assert forall i :: i in t.indices ==> i in h.issued;
    PaidExact(l, payloads[key].message, t);
    FailedExact(l, payloads[key].message, t);
  }

  lemma DeliverWaiting(s: PoolState, key: PacketKey, success: bool, now: nat, height: nat, h: Settlement, p: Payouts)
    requires LedgerOk(s.ledger, s.mail.sudoPayloads, h.issued, p) && Waiting(s.ledger.unstakes, h.unsettled)
    requires Deliver(s, key, success, now, height).Ok? && (forall i :: i in h.issued ==> i <= U64_MAX)
    ensures Waiting(Deliver(s, key, success, now, height).value.state.ledger.unstakes, h.unsettled)
  {
    DeliverShape(s, key, success, now, height);
    if s.mail.sudoPayloads[key].txType == TxUserWithdraw {
      AnswerWaiting(s.ledger, s.mail.sudoPayloads, key, h, p);
    }
  }

  lemma FewerWaiting(table: map<nat, UnstakeInfo>, before: map<nat, Issue>, after: map<nat, Issue>)
    requires Waiting(table, before) && after.Keys <= before.Keys
    ensures Waiting(table, after)
  {
  }

  /** What is left of the uncovered unstakes waits over a table that is left alone. */
  lemma SettledWaiting(table: map<nat, UnstakeInfo>, h: Settlement, s: PoolState, a: Action, after: PoolState)
    requires Waiting(table, h.unsettled) && !a.DoUnstake?
    ensures Waiting(table, Settle(h, s, a, after).unsettled)
  {
    SettleShrinks(h, s, a, after);
    FewerWaiting(table, h.unsettled, Settle(h, s, a, after).unsettled);
  }

  lemma QuietTable(s: PoolState, a: Action, now: nat, height: nat)
    requires Apply(s, a, now, height).Ok? && (Key(a).Some? ==> Key(a).value !in s.mail.sudoPayloads)
    requires !a.DoUnstake? && !a.DoWithdraw? && !a.DoDeliver?
    ensures Apply(s, a, now, height).value.state.ledger == s.ledger
  {
    if a.DoConfigStack? {
    } else if ByAdmin(a) {
      AdminQuiet(s, a, now);
    } else if ByUser(a) {
      UserQuiet(s, a);
    } else {
      StepQuiet(s, a, now, height);
    }
  }

  lemma QuietWaiting(s: PoolState, a: Action, now: nat, height: nat, h: Settlement)
    requires Waiting(s.ledger.unstakes, h.unsettled) && Apply(s, a, now, height).Ok?
    requires !a.DoUnstake? && !a.DoWithdraw? && !a.DoDeliver? && (Key(a).Some? ==> Key(a).value !in s.mail.sudoPayloads)
    ensures var after := Apply(s, a, now, height).value.state;
      Waiting(after.ledger.unstakes, Settle(h, s, a, after).unsettled)
  {
    QuietTable(s, a, now, height);
    SettledWaiting(s.ledger.unstakes, h, s, a, Apply(s, a, now, height).value.state);
  }

  lemma AnsweredWaiting(s: PoolState, key: PacketKey, success: bool, now: nat, height: nat, h: Settlement, p: Payouts)
    requires LedgerOk(s.ledger, s.mail.sudoPayloads, h.issued, p) && Waiting(s.ledger.unstakes, h.unsettled)
    requires Deliver(s, key, success, now, height).Ok? && (forall i :: i in h.issued ==> i <= U64_MAX)
    ensures var after := Deliver(s, key, success, now, height).value.state;
      Waiting(after.ledger.unstakes, Settle(h, s, DoDeliver(key, success), after).unsettled)
  {
    var after := Deliver(s, key, success, now, height).value.state;
    DeliverWaiting(s, key, success, now, height, h, p);
    SettledWaiting(after.ledger.unstakes, h, s, DoDeliver(key, success), after);
  }

  lemma WithdrawNoted(h: Settlement, s: PoolState, sender: string, receiver: string, indices: seq<nat>,
                      key: PacketKey, after: PoolState)
    ensures Settle(h, s, DoWithdraw(sender, receiver, indices, key), after) == h
  {
  }

  lemma MessageWaiting(s: PoolState, a: Action, now: nat, height: nat, h: Settlement, p: Payouts)
    requires Accounted(s.pool, h) && LedgerOk(s.ledger, s.mail.sudoPayloads, h.issued, p)
    requires Waiting(s.ledger.unstakes, h.unsettled)
    requires Apply(s, a, now, height).Ok? && (Key(a).Some? ==> Key(a).value !in s.mail.sudoPayloads)
    requires StillPatient(true, Apply(s, a, now, height).value.state)
    ensures var after := Apply(s, a, now, height).value.state;
      Waiting(after.ledger.unstakes, Settle(h, s, a, after).unsettled)
  {
    if a.DoUnstake? {
      UnstakeWaiting(s, a.sender, a.amount, h);
    } else if a.DoWithdraw? {
      WithdrawWaiting(s, a.sender, a.receiver, a.indices, a.key, h);
      WithdrawNoted(h, s, a.sender, a.receiver, a.indices, a.key, Apply(s, a, now, height).value.state);
    } else if a.DoDeliver? {
      AnsweredWaiting(s, a.key, a.success, now, height, h, p);
    } else {
      QuietWaiting(s, a, now, height, h);
    }
  }

  lemma WaitingKept(w: World, e: Event)
    requires Accounted(w.s.pool, w.h.settlement) && Allowed(w, e)
    requires LedgerOk(w.s.ledger, w.s.mail.sudoPayloads, w.h.settlement.issued, w.h.payouts)
    requires w.h.patient ==> Waiting(w.s.ledger.unstakes, w.h.settlement.unsettled)
    ensures Next(w, e).h.patient ==> Waiting(Next(w, e).s.ledger.unstakes, Next(w, e).h.settlement.unsettled)
  {
    if Apply(w.s, e.action, e.now, e.height).Ok? && Next(w, e).h.patient {
      MessageWaiting(w.s, e.action, e.now, e.height, w.h.settlement, w.h.payouts);
    }
  }

  // ---- The counter and the records ----

  function Needed(): UnstakeInfo -> nat { (r: UnstakeInfo) => r.amount + 5 }

  function Uncovered(table: map<nat, UnstakeInfo>, unsettled: map<nat, Issue>): map<nat, UnstakeInfo>
    requires Waiting(table, unsettled)
  {
    map i | i in unsettled :: table[i]
  }

  /** The unbond counter is the amounts of the uncovered records, and 5 for each. */
  lemma CounterIsUncovered(s: PoolState, h: Settlement)
    requires Accounted(s.pool, h) && Recorded(s.ledger.unstakes, h.issued) && Waiting(s.ledger.unstakes, h.unsettled)
    ensures s.pool.book.unbond == h.carried + SumBy(Uncovered(s.ledger.unstakes, h.unsettled), Needed())
  {
    SumBySame(h.unsettled, Uncovered(s.ledger.unstakes, h.unsettled), Tokens(), Needed());
  }

  /** Only a migration brings anything else into the counter. */
  lemma CarriedStaysZero(w: World, e: Event)
    requires w.h.settlement.carried == 0 && !e.action.DoMigratePool?
    ensures Next(w, e).h.settlement.carried == 0
  {
  }
}
