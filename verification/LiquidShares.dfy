/** Liquid shares: the payload of a liquid-share stake is always well spelled, so the only thing that can
    stop its acknowledgement is arithmetic; and a redemption removes whole denominations. */
module LiquidShares {
  import opened Arith
  import opened Sums
  import opened Payload
  import Allocation
  import opened PoolTypes
  import opened PoolSteps
  import opened Worlds
  import opened Flight

  // ---- Stakes ----

  /** Both callbacks of a liquid-share stake can read it. */
  predicate Spelled(message: string) {
    var parts := Split(message);
    |parts| == 5 && ParseUint(parts[1], U128_MAX).Some? && ParseUint(parts[2], U128_MAX).Some?
  }

  ghost predicate AllSpelled(payloads: map<PacketKey, SudoPayload>) {
    forall k :: k in payloads && payloads[k].txType == TxStakeLsm ==> Spelled(payloads[k].message)
  }

  /** What a liquid-share stake is worth, as its payload says. */
  function Worth(message: string): nat
    requires Spelled(message)
  {
    ParseUint(Split(message)[1], U128_MAX).value
  }

  /** The stake can be booked and its liquid tokens minted. */
  predicate Bookable(b: Book, worth: nat) {
    && b.active + worth <= U128_MAX && worth * CAL_BASE <= U128_MAX
    && b.rate > 0 && b.totalLsd + worth * CAL_BASE / b.rate <= U128_MAX
  }

  /** The failure of a well spelled stake is always accepted, its success exactly when it can be booked. */
  lemma StakeAnswered(s: PoolState, message: string)
    requires Spelled(message)
    ensures StakeLsmFailed(s, message).Ok?
    ensures StakeLsmDone(s, message).Ok? <==> Bookable(s.pool.book, Worth(message))
  {
  }

  /** What a stake is worth fits into the amounts its payload is parsed into. */
  lemma AmountsFit(shares: nat, validatorTokens: nat, validatorShares: nat)
    requires MulDiv(shares, validatorTokens, validatorShares).Ok?
    requires MulDiv(shares, validatorTokens, validatorShares).value > 0
    ensures MulDiv(shares, validatorTokens, validatorShares).value <= U128_MAX && shares <= U128_MAX
  {
    var q := MulDiv(shares, validatorTokens, validatorShares).value;
    MulLe(1, validatorShares, q);
    if validatorTokens > 0 {
      MulLe(1, validatorTokens, shares);
    }
  }

  lemma MessageSpelled(staker: string, tokens: nat, shares: nat, ibcDenom: string, denom: string)
    requires Plain(staker) && Plain(ibcDenom) && Plain(denom) && tokens <= U128_MAX && shares <= U128_MAX
    ensures Spelled(LsmMessage(staker, tokens, shares, ibcDenom, denom))
    ensures Worth(LsmMessage(staker, tokens, shares, ibcDenom, denom)) == tokens
  {
    LsmRoundTrip(staker, tokens, shares, ibcDenom, denom);
    ParseDec(tokens, U128_MAX);
    ParseDec(shares, U128_MAX);
  }

  lemma StakeSpelled(s: PoolState, staker: string, ibcDenom: string, denom: string, validator: string, shares: nat,
                     tokens: nat, validatorShares: nat, key: PacketKey)
    requires AllSpelled(s.mail.sudoPayloads) && Plain(staker) && Plain(ibcDenom) && Plain(denom)
    requires StakeLsm(s, staker, ibcDenom, denom, validator, shares, tokens, validatorShares, key).Ok?
    ensures var o := StakeLsm(s, staker, ibcDenom, denom, validator, shares, tokens, validatorShares, key).value;
      AllSpelled(o.state.mail.sudoPayloads)
  {
    AmountsFit(shares, tokens, validatorShares / SHARE_BASE);
    MessageSpelled(staker, MulDiv(shares, tokens, validatorShares / SHARE_BASE).value, shares, ibcDenom, denom);
  }

  lemma AdminSpelled(s: PoolState, a: Action, now: nat)
    requires AllSpelled(s.mail.sudoPayloads) && ByAdmin(a) && ApplyAdmin(s, a, now).Ok?
    ensures AllSpelled(ApplyAdmin(s, a, now).value.state.mail.sudoPayloads)
  {
  }

  lemma UserSpelled(s: PoolState, a: Action)
    requires AllSpelled(s.mail.sudoPayloads) && ByUser(a) && Proper(a) && ApplyUser(s, a).Ok?
    ensures AllSpelled(ApplyUser(s, a).value.state.mail.sudoPayloads)
  {
    if a.DoStakeLsm? {
      StakeSpelled(s, a.sender, a.ibcDenom, a.denom, a.validator, a.amount, a.validatorTokens, a.validatorShares,
                   a.key);
    }
  }

  lemma StepSpelled(s: PoolState, a: Action, now: nat, height: nat)
    requires a.DoEraUpdate? || a.DoEraBond? || a.DoCollectWithdraw? || a.DoRebond? || a.DoEraActive?
    requires AllSpelled(s.mail.sudoPayloads) && ApplyEra(s, a, now, height).Ok?
    ensures AllSpelled(ApplyEra(s, a, now, height).value.state.mail.sudoPayloads)
  {
    if a.DoEraBond? {
      EraBondShape(s, a.query, a.selected, now, a.key);
    }
  }

  lemma DeliverSpelled(s: PoolState, key: PacketKey, success: bool, now: nat, height: nat)
    requires AllSpelled(s.mail.sudoPayloads) && Deliver(s, key, success, now, height).Ok?
    ensures AllSpelled(Deliver(s, key, success, now, height).value.state.mail.sudoPayloads)
  {
    var s1 := s.(mail := s.mail.(sudoPayloads := s.mail.sudoPayloads - {key}));
    if success {
      CallbackShape(s1, s.mail.sudoPayloads[key], now, height);
    } else {
      FailedCallbackShape(s1, s.mail.sudoPayloads[key]);
    }
  }

  /** Every message keeps the payloads readable. */
  lemma SpelledKept(w: World, e: Event)
    requires AllSpelled(w.s.mail.sudoPayloads) && Allowed(w, e)
    ensures AllSpelled(Next(w, e).s.mail.sudoPayloads)
  {
    var s, a := w.s, e.action;
    if Apply(s, a, e.now, e.height).Ok? {
      if a.DoConfigStack? {
      } else if ByAdmin(a) {
        AdminSpelled(s, a, e.now);
      } else if ByUser(a) {
        UserSpelled(s, a);
      } else if a.DoDeliver? {
        DeliverSpelled(s, a.key, a.success, e.now, e.height);
      } else {
        StepSpelled(s, a, e.now, e.height);
      }
    }
  }

  // ---- Redemptions ----

  function DenomsOf(tokens: seq<Coin>): seq<string> {
    if tokens == [] then [] else [tokens[0].denom] + DenomsOf(tokens[1..])
  }

  /** An accepted redemption names waiting tokens of distinct denominations. */
  lemma {:induction false} DenomsExact(tokens: seq<Coin>, pending: seq<Coin>, denoms: seq<string>)
    requires Denoms(tokens, pending, denoms).Ok? && Distinct(denoms)
    ensures Denoms(tokens, pending, denoms).value == denoms + DenomsOf(tokens)
    ensures Distinct(denoms + DenomsOf(tokens))
    ensures forall t :: t in tokens ==> t in pending && t.denom in DenomsOf(tokens)
    decreases |tokens|
  {
    if tokens == [] {
      assert denoms + [] == denoms;
    } else {
      var next := denoms + [tokens[0].denom];
      DenomsExact(tokens[1..], pending, next);
      assert next + DenomsOf(tokens[1..]) == denoms + DenomsOf(tokens);
      assert tokens == [tokens[0]] + tokens[1..];
    }
  }

  /** The coins whose denomination is among the given ones. */
  function OfDenoms(coins: seq<Coin>, denoms: seq<string>): seq<Coin> {
    if coins == [] then []
    else (if coins[0].denom in denoms then [coins[0]] else []) + OfDenoms(coins[1..], denoms)
  }

  /** A coin is in the one part or in the other, as often as it was in the whole. */
  lemma {:induction false} PartsCount(coins: seq<Coin>, denoms: seq<string>, c: Coin)
    ensures multiset(OfDenoms(coins, denoms))[c] == if c.denom in denoms then multiset(coins)[c] else 0
    ensures multiset(NotOf(coins, denoms))[c] == if c.denom in denoms then 0 else multiset(coins)[c]
  {
    if coins != [] {
      PartsCount(coins[1..], denoms, c);
      assert coins == [coins[0]] + coins[1..];
    }
  }

  lemma Parts(coins: seq<Coin>, denoms: seq<string>)
    ensures multiset(coins) == multiset(NotOf(coins, denoms)) + multiset(OfDenoms(coins, denoms))
  {
    forall c ensures multiset(coins)[c] == multiset(NotOf(coins, denoms))[c] + multiset(OfDenoms(coins, denoms))[c] {
      PartsCount(coins, denoms, c);
    }
  }

  /** The denominations come back from the payload of a redemption. */
  lemma RedemptionText(s: PoolState, tokens: seq<Coin>, key: PacketKey)
    requires RedeemShares(s, tokens, key).Ok? && AllPlain(DenomsOf(tokens), COMMA)
    ensures Split(RedeemShares(s, tokens, key).value.state.mail.sudoPayloads[key].message, COMMA) == DenomsOf(tokens)
    ensures forall t :: t in tokens ==> t in s.pool.shareTokens.pending && t.denom in DenomsOf(tokens)
  {
    DenomsExact(tokens, s.pool.shareTokens.pending, []);
    assert [] + DenomsOf(tokens) == DenomsOf(tokens);
    SplitJoin(DenomsOf(tokens), COMMA);
  }

  lemma {:induction false} DenomsOfAll(tokens: seq<Coin>)
    ensures forall t :: t in tokens ==> t.denom in DenomsOf(tokens)
  {
    if tokens != [] {
      DenomsOfAll(tokens[1..]);
      assert tokens == [tokens[0]] + tokens[1..];
    }
  }

  lemma Cancelled(left: multiset<Coin>, theirs: multiset<Coin>, tokens: multiset<Coin>)
    ensures left + theirs == left + tokens <==> theirs == tokens
  {
    if left + theirs == left + tokens {
      forall c ensures theirs[c] == tokens[c] {
        assert (left + theirs)[c] == (left + tokens)[c];
      }
    }
  }

  lemma Beyond(left: multiset<Coin>, theirs: multiset<Coin>, tokens: multiset<Coin>)
    requires forall c :: c in tokens ==> c !in left
    ensures left == left + theirs - tokens <==> theirs <= tokens
  {
    if theirs <= tokens {
      forall c ensures left[c] == (left + theirs - tokens)[c] {
        assert theirs[c] <= tokens[c];
      }
    }
    if left == left + theirs - tokens {
      forall c ensures theirs[c] <= tokens[c] {
        assert left[c] == (left + theirs - tokens)[c];
      }
    }
  }

  /** Taking out whole denominations takes out exactly the tokens if and only if the tokens, counted with
      repetitions, are all there is of their denominations; it takes out nothing beyond them if and only if
      there is nothing beyond them. */
  lemma RemovalExact(pending: seq<Coin>, tokens: seq<Coin>)
    ensures var left, theirs := NotOf(pending, DenomsOf(tokens)), OfDenoms(pending, DenomsOf(tokens));
      && (multiset(pending) == multiset(left) + multiset(tokens) <==> multiset(theirs) == multiset(tokens))
      && (multiset(left) == multiset(pending) - multiset(tokens) <==> multiset(theirs) <= multiset(tokens))
  {
    var denoms := DenomsOf(tokens);
    var left, theirs := multiset(NotOf(pending, denoms)), multiset(OfDenoms(pending, denoms));
    Parts(pending, denoms);
    DenomsOfAll(tokens);
    forall c | c in multiset(tokens) ensures c !in left {
      assert c in tokens;
      PartsCount(pending, denoms, c);
    }
    Cancelled(left, theirs, multiset(tokens));
    Beyond(left, theirs, multiset(tokens));
  }

  /** The acknowledgement of a redemption takes out exactly the tokens it redeemed if and only if by then
      they are all that is waiting of their denominations: whatever else there is of these goes as well,
      also an equal stake. */
  lemma RedemptionExact(s: PoolState, tokens: seq<Coin>, key: PacketKey, later: PoolState)
    requires RedeemShares(s, tokens, key).Ok? && AllPlain(DenomsOf(tokens), COMMA)
    ensures var message := RedeemShares(s, tokens, key).value.state.mail.sudoPayloads[key].message;
      var before := later.pool.shareTokens.pending;
      var after := RedeemDone(later, message).value.state.pool.shareTokens.pending;
      var theirs := OfDenoms(before, DenomsOf(tokens));
      && (multiset(before) == multiset(after) + multiset(tokens) <==> multiset(theirs) == multiset(tokens))
      && (multiset(after) == multiset(before) - multiset(tokens) <==> multiset(theirs) <= multiset(tokens))
  {
    RedemptionText(s, tokens, key);
    RemovalExact(later.pool.shareTokens.pending, tokens);
  }

  lemma BothOf(denom: string, first: nat, second: nat)
    ensures NotOf([Coin(denom, first), Coin(denom, second)], [denom]) == []
  {
    var last := [Coin(denom, second)];
    assert [Coin(denom, first), Coin(denom, second)][1..] == last && last[1..] == [];
    assert NotOf(last, [denom]) == [];
  }

  /** Two stakes of one denomination, of different amounts or the same: redeeming the one takes the other
      off the list, unredeemed. */
  lemma RedemptionTakesBoth(s: PoolState, denom: string, first: nat, second: nat, key: PacketKey, now: nat, height: nat)
    requires s.pool.shareTokens.pending == [Coin(denom, first), Coin(denom, second)]
    requires s.pool.config.lsmSupport && Plain(denom, COMMA) && key !in s.mail.sudoPayloads
    ensures var sent := RedeemShares(s, [Coin(denom, first)], key);
      && sent.Ok? && sent.value.effects.remote == [Allocation.Redeem(denom, first)]
      && Deliver(sent.value.state, key, true, now, height).Ok?
      && Deliver(sent.value.state, key, true, now, height).value.state.pool.shareTokens.pending == []
  {
    var tokens := [Coin(denom, first)];
    assert tokens[1..] == [];
    assert DenomsOf(tokens) == [denom];
    assert s.pool.shareTokens.pending[0] == tokens[0];
    assert [] + [denom] == [denom];
    assert Denoms(tokens, s.pool.shareTokens.pending, []) == Denoms([], s.pool.shareTokens.pending, [denom]);
    assert Redemptions(tokens) == [Allocation.Redeem(denom, first)];
    RedemptionText(s, tokens, key);
    BothOf(denom, first, second);
  }
}
