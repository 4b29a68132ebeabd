/** What a failed packet undoes, and what an answered liquid-share stake comes to. */
module Rollbacks {
  import opened Arith
  import opened Allocation
  import opened Payload
  import opened PoolTypes
  import opened PoolSteps
  import opened Worlds
  import opened UnstakeLedger
  import opened LiquidShares

  /** A failed era update leaves the pool as it was before the era began, but for the snapshot. */
  lemma EraUpdateUndone(s: PoolState, now: nat, height: nat, key: PacketKey, later: nat, laterHeight: nat)
    requires EraUpdate(s, now, height, key).Ok? && s.pool.book.bond > 0
    ensures var sent := EraUpdate(s, now, height, key).value.state;
      && Deliver(sent, key, false, later, laterHeight).Ok?
      && Deliver(sent, key, false, later, laterHeight).value.state.pool == s.pool.(snapshot := NO_SNAPSHOT)
  {
  }

  /** A failed bond step leaves the pool where the bond step can be tried again with the same numbers. */
  lemma EraBondUndone(s: PoolState, query: Option<DelegationQuery>, selected: seq<string>, now: nat, key: PacketKey,
                      later: nat, height: nat)
    requires EraBond(s, query, selected, now, key).Ok?
    ensures var sent := EraBond(s, query, selected, now, key).value.state;
      && Deliver(sent, key, false, later, height).Ok?
      && Deliver(sent, key, false, later, height).value.state.pool == s.pool
  {
  }

  lemma MarkThenReopen(table: map<nat, UnstakeInfo>, indices: seq<nat>)
    requires forall i :: i in indices ==> i in table && table[i].status == Default
    ensures ReopenedTable(MarkedTable(table, indices), indices) == table
  {
  }

  lemma MarkedBacked(table: map<nat, UnstakeInfo>, t: Ticket)
    requires Claims(table, t)
    ensures Backed(MarkedTable(table, t.indices), t)
  {
  }

  /** A failed withdrawal leaves every record and every list as it was. */
  lemma WithdrawUndone(s: PoolState, sender: string, receiver: string, indices: seq<nat>, key: PacketKey, now: nat,
                       height: nat)
    requires Withdraw(s, sender, receiver, indices, key).Ok? && IsAddress(sender) && IsAddress(receiver)
    requires forall i :: i in indices ==> i <= U64_MAX
    ensures var sent := Withdraw(s, sender, receiver, indices, key).value.state;
      && Deliver(sent, key, false, now, height).Ok?
      && Deliver(sent, key, false, now, height).value.state.ledger == s.ledger
  {
    WithdrawShape(s, sender, receiver, indices, key);
    var table := s.ledger.unstakes;
    var t := Ticket(IndexSum(table, indices), sender, receiver, indices);
    var sent := Withdraw(s, sender, receiver, indices, key).value.state;
    MarkedBacked(table, t);
    FailedExact(sent.ledger, sent.mail.sudoPayloads[key].message, t);
    MarkThenReopen(table, indices);
  }

  lemma MessageAnswered(later: PoolState, staker: string, worth: nat, shares: nat, ibcDenom: string, denom: string)
    requires Plain(staker) && Plain(ibcDenom) && Plain(denom) && worth <= U128_MAX && shares <= U128_MAX
    ensures var message := LsmMessage(staker, worth, shares, ibcDenom, denom);
      && StakeLsmFailed(later, message)
         == Ok(Outcome(later, NO_EFFECTS.(bank := [BankSend(staker, ibcDenom, shares)])))
      && (StakeLsmDone(later, message).Ok? ==>
            var o := StakeLsmDone(later, message).value;
            && o.state.pool.book.active == later.pool.book.active + worth
            && o.state.pool.shareTokens.pending == later.pool.shareTokens.pending + [Coin(denom, shares)]
            && o.effects.token == [Mint(staker, o.state.pool.book.totalLsd - later.pool.book.totalLsd)])
  {
    LsmRoundTrip(staker, worth, shares, ibcDenom, denom);
    ParseDec(worth, U128_MAX);
    ParseDec(shares, U128_MAX);
  }

  /** A liquid-share stake that fails is paid back to the staker in full; one that succeeds is booked and
      minted to the staker at the rate of that moment. */
  lemma LsmAnswered(s: PoolState, staker: string, ibcDenom: string, denom: string, validator: string, shares: nat,
                    tokens: nat, validatorShares: nat, key: PacketKey, later: PoolState)
    requires StakeLsm(s, staker, ibcDenom, denom, validator, shares, tokens, validatorShares, key).Ok?
    requires Plain(staker) && Plain(ibcDenom) && Plain(denom)
    ensures var sent :=
      StakeLsm(s, staker, ibcDenom, denom, validator, shares, tokens, validatorShares, key).value.state;
      var message := sent.mail.sudoPayloads[key].message;
      var worth := MulDiv(shares, tokens, validatorShares / SHARE_BASE).value;
      && StakeLsmFailed(later, message)
         == Ok(Outcome(later, NO_EFFECTS.(bank := [BankSend(staker, ibcDenom, shares)])))
      && (StakeLsmDone(later, message).Ok? ==>
            var o := StakeLsmDone(later, message).value;
            && o.state.pool.book.active == later.pool.book.active + worth
            && o.state.pool.shareTokens.pending == later.pool.shareTokens.pending + [Coin(denom, shares)]
            && o.effects.token == [Mint(staker, o.state.pool.book.totalLsd - later.pool.book.totalLsd)])
  {
    var worth := MulDiv(shares, tokens, validatorShares / SHARE_BASE).value;
    AmountsFit(shares, tokens, validatorShares / SHARE_BASE);
    MessageAnswered(later, staker, worth, shares, ibcDenom, denom);
  }
}
