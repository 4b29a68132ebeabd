/** The liquid shares of a pool over whole runs: every share whose stake was acknowledged or that a migration
    brought along is waiting to be redeemed or has been redeemed, unless a redemption met other shares of its
    denominations. */
module ShareLedger {
  import opened Arith
  import opened Sums
  import opened Payload
  import Allocation
  import opened PoolTypes
  import opened PoolSteps
  import opened Worlds
  import opened Reachability
  import opened Flight
  import opened LiquidShares
  import First = FirstEra

  // ---- What an observer writes down ----

  /** The stakes and redemptions whose packets are out, and the shares acknowledged, redeemed and brought
      along so far. */
  datatype Shares = Shares(
    staking: map<PacketKey, Coin>, redeeming: map<PacketKey, seq<Coin>>,
    acked: multiset<Coin>, redeemed: multiset<Coin>, imported: multiset<Coin>)

  datatype Tracked = Tracked(w: World, b: Shares)

  function WithoutStake(b: Shares, key: PacketKey, success: bool): Shares
    requires key in b.staking
  {
    b.(staking := b.staking - {key}, acked := if success then b.acked + multiset{b.staking[key]} else b.acked)
  }

  function WithoutRedemption(b: Shares, key: PacketKey, success: bool): Shares
    requires key in b.redeeming
  {
    b.(redeeming := b.redeeming - {key},
       redeemed := if success then b.redeemed + multiset(b.redeeming[key]) else b.redeemed)
  }

  /** An accepted message. */
  function Note(b: Shares, s: PoolState, a: Action): Shares {
    match a
    case DoMigratePool(_, params, _) =>
      if s.pool.status == RegisterEnded then b.(imported := b.imported + multiset(params.shareTokens)) else b
    case DoStakeLsm(_, _, denom, _, amount, _, _, key) => b.(staking := b.staking[key := Coin(denom, amount)])
    case DoRedeem(tokens, key) => b.(redeeming := b.redeeming[key := tokens])
    case DoDeliver(key, success) =>
      if key in b.staking then WithoutStake(b, key, success)
      else if key in b.redeeming then WithoutRedemption(b, key, success)
      else b
    case _ => b
  }

  function Step(t: Tracked, e: Event): Tracked {
    Tracked(Next(t.w, e), if Apply(t.w.s, e.action, e.now, e.height).Ok? then Note(t.b, t.w.s, e.action) else t.b)
  }

  function Start(d: Deployment, now: nat, height: nat): Tracked {
    Tracked(Genesis(d, now, height), Shares(map[], map[], multiset{}, multiset{}, multiset{}))
  }

  /** Every share is where it should be: waiting or redeemed. */
  predicate Balanced(pending: seq<Coin>, b: Shares) {
    b.acked + b.imported == multiset(pending) + b.redeemed
  }

  predicate BalancedAt(t: Tracked) {
    Balanced(t.w.s.pool.shareTokens.pending, t.b)
  }

  /** Any message in its turn; names of denominations have no comma in them. */
  ghost predicate Fair(w: World, e: Event) {
    Lawful(w, e, U128_MAX) && (e.action.DoRedeem? ==> AllPlain(DenomsOf(e.action.tokens), COMMA))
  }

  // ---- The condition ----

  /** The token is all that is waiting of its denomination. */
  predicate Sole(pending: seq<Coin>, t: Coin) {
    OfDenoms(pending, [t.denom]) == [t]
  }

  /** A redemption of tokens that are not alone in their denomination, or are being redeemed already; or the
      acknowledgement of a stake whose denomination is being redeemed. */
  predicate Clashes(s: PoolState, a: Action) {
    || (a.DoRedeem? && exists t :: t in a.tokens
                                   && (!Sole(s.pool.shareTokens.pending, t) || t.denom in s.pool.shareTokens.redeeming))
    || (Delivers(s, a, TxStakeLsm, true)
        && StakedDenom(s.mail.sudoPayloads[a.key].message) in s.pool.shareTokens.redeeming)
  }

  function StakedDenom(message: string): string {
    var parts := Split(message);
    if |parts| == 5 then parts[4] else ""
  }

  /** Such a message is accepted. */
  ghost predicate Clash(w: World, e: Event) {
    Apply(w.s, e.action, e.now, e.height).Ok? && Clashes(w.s, e.action)
  }

  ghost predicate Careful(w: World, e: Event) {
    Fair(w, e) && !Clash(w, e)
  }

  // ---- Coins of a denomination ----

  function IfOf(c: Coin, denoms: seq<string>): seq<Coin> {
    if c.denom in denoms then [c] else []
  }

  lemma {:induction false} OfDenomsAppend(coins: seq<Coin>, c: Coin, denoms: seq<string>)
    ensures OfDenoms(coins + [c], denoms) == OfDenoms(coins, denoms) + IfOf(c, denoms)
  {
    var all := coins + [c];
    if coins == [] {
      assert all == [c] && all[1..] == [];
      assert IfOf(c, denoms) + [] == [] + IfOf(c, denoms);
    } else {
      var first, rest := IfOf(coins[0], denoms), OfDenoms(coins[1..], denoms);
      assert all[0] == coins[0] && all[1..] == coins[1..] + [c];
      OfDenomsAppend(coins[1..], c, denoms);
      assert first + (rest + IfOf(c, denoms)) == (first + rest) + IfOf(c, denoms);
    }
  }

  lemma {:induction false} OfDenomsLeft(coins: seq<Coin>, denoms: seq<string>, d: string)
    ensures OfDenoms(NotOf(coins, denoms), [d]) == if d in denoms then [] else OfDenoms(coins, [d])
  {
    if coins != [] {
      OfDenomsLeft(coins[1..], denoms, d);
      if coins[0].denom in denoms {
        assert NotOf(coins, denoms) == NotOf(coins[1..], denoms);
      } else {
        assert NotOf(coins, denoms)[1..] == NotOf(coins[1..], denoms);
      }
    }
  }

  lemma {:induction false} NotInExact(names: seq<string>, denoms: seq<string>, d: string)
    ensures d in NotIn(names, denoms) <==> d in names && d !in denoms
  {
    if names != [] {
      NotInExact(names[1..], denoms, d);
      assert names == [names[0]] + names[1..];
    }
  }

  /** Tokens of distinct denominations: each occurs once, and no other shares its denomination. */
  lemma {:induction false} OncePerDenom(tokens: seq<Coin>, t: Coin, c: Coin)
    requires Distinct(DenomsOf(tokens)) && t in tokens && c.denom == t.denom
    ensures multiset(tokens)[c] == if c == t then 1 else 0
  {
    var first, rest := tokens[0], tokens[1..];
    assert tokens == [first] + rest;
    assert DenomsOf(tokens) == [first.denom] + DenomsOf(rest);
    DistinctTail(first.denom, DenomsOf(rest));
    DenomsOfAll(rest);
    if t in rest {
      OncePerDenom(rest, t, c);
    } else {
      assert c !in rest;
    }
  }

  lemma DistinctTail(d: string, denoms: seq<string>)
    requires Distinct([d] + denoms)
    ensures Distinct(denoms) && d !in denoms
  {
    var all := [d] + denoms;
    forall i | 0 <= i < |denoms| ensures denoms[i] != d {
      assert all[0] == d && all[i + 1] == denoms[i];
    }
    forall i, j | 0 <= i < j < |denoms| ensures denoms[i] != denoms[j] {
      assert all[i + 1] == denoms[i] && all[j + 1] == denoms[j];
    }
  }

  lemma {:induction false} TokenOf(tokens: seq<Coin>, d: string) returns (t: Coin)
    requires d in DenomsOf(tokens)
    ensures t in tokens && t.denom == d
  {
    if tokens[0].denom == d {
      t := tokens[0];
    } else {
      t := TokenOf(tokens[1..], d);
    }
  }

  lemma SoleCount(pending: seq<Coin>, t: Coin, c: Coin)
    requires c.denom == t.denom
    ensures multiset(OfDenoms(pending, [t.denom]))[c] == multiset(pending)[c]
  {
    PartsCount(pending, [t.denom], c);
  }

  lemma SoleIsExact(pending: seq<Coin>, tokens: seq<Coin>)
    requires Distinct(DenomsOf(tokens)) && forall t :: t in tokens ==> Sole(pending, t)
    ensures multiset(OfDenoms(pending, DenomsOf(tokens))) == multiset(tokens)
  {
    var denoms := DenomsOf(tokens);
    DenomsOfAll(tokens);
    forall c ensures multiset(OfDenoms(pending, denoms))[c] == multiset(tokens)[c] {
      PartsCount(pending, denoms, c);
      if c.denom in denoms {
        var t := TokenOf(tokens, c.denom);
        OncePerDenom(tokens, t, c);
        SoleCount(pending, t, c);
        assert Sole(pending, t);
      } else {
        assert c !in tokens;
      }
    }
  }

  lemma ExactIsSole(pending: seq<Coin>, tokens: seq<Coin>, t: Coin)
    requires Distinct(DenomsOf(tokens)) && t in tokens
    requires multiset(OfDenoms(pending, DenomsOf(tokens))) == multiset(tokens)
    ensures Sole(pending, t)
  {
    var denoms, own := DenomsOf(tokens), OfDenoms(pending, [t.denom]);
    DenomsOfAll(tokens);
    forall c ensures multiset(own)[c] == multiset{t}[c] {
      PartsCount(pending, [t.denom], c);
      PartsCount(pending, denoms, c);
      if c.denom == t.denom {
        OncePerDenom(tokens, t, c);
      }
    }
    assert multiset(own) == multiset{t};
    assert |own| == |multiset(own)| == 1;
    assert own[0] in multiset(own);
  }

  /** The acknowledgement of a redemption keeps the balance if and only if each of its tokens is alone in its
      denomination by then. */
  lemma RedemptionBalance(pending: seq<Coin>, b: Shares, tokens: seq<Coin>)
    requires Balanced(pending, b) && Distinct(DenomsOf(tokens))
    ensures Balanced(NotOf(pending, DenomsOf(tokens)), b.(redeemed := b.redeemed + multiset(tokens)))
      <==> forall t :: t in tokens ==> Sole(pending, t)
  {
    var left, theirs := NotOf(pending, DenomsOf(tokens)), OfDenoms(pending, DenomsOf(tokens));
    Parts(pending, DenomsOf(tokens));
    Redeemed(multiset(left), multiset(theirs), multiset(tokens), b.redeemed);
    if multiset(theirs) == multiset(tokens) {
      forall t | t in tokens ensures Sole(pending, t) {
        ExactIsSole(pending, tokens, t);
      }
    }
    if forall t :: t in tokens ==> Sole(pending, t) {
      SoleIsExact(pending, tokens);
    }
  }

  lemma Redeemed(left: multiset<Coin>, theirs: multiset<Coin>, tokens: multiset<Coin>, redeemed: multiset<Coin>)
    ensures left + theirs + redeemed == left + (redeemed + tokens) <==> theirs == tokens
  {
    assert left + theirs + redeemed == (left + redeemed) + theirs;
    assert left + (redeemed + tokens) == (left + redeemed) + tokens;
    Cancelled(left + redeemed, theirs, tokens);
  }

  // ---- The packets that are out ----

  /** The payload under a key, if it concerns liquid shares. */
  function ShareMail(payloads: map<PacketKey, SudoPayload>, key: PacketKey): Option<SudoPayload> {
    if key in payloads && (payloads[key].txType == TxStakeLsm || payloads[key].txType == TxRedeemShares)
    then Some(payloads[key]) else None
  }

  predicate Carries(message: string, c: Coin) {
    && Spelled(message) && Split(message)[4] == c.denom && ParseUint(Split(message)[2], U128_MAX).value == c.amount
  }

  predicate Names(message: string, tokens: seq<Coin>) {
    Split(message, COMMA) == DenomsOf(tokens) && Distinct(DenomsOf(tokens))
  }

  /** The payloads say what the observer has written down. */
  ghost predicate Mailed(payloads: map<PacketKey, SudoPayload>, b: Shares) {
    && (forall k :: k in b.staking ==>
          k in payloads && payloads[k].txType == TxStakeLsm && Carries(payloads[k].message, b.staking[k]))
    && (forall k :: k in b.redeeming ==>
          k in payloads && payloads[k].txType == TxRedeemShares && Names(payloads[k].message, b.redeeming[k]))
    && (forall k :: ShareMail(payloads, k).Some? ==> k in b.staking || k in b.redeeming)
  }

  /** Before its set-up a pool has no shares. */
  predicate Unused(p: PoolInfo, b: Shares) {
    p.status == RegisterEnded ==> p.shareTokens.pending == [] && b.staking == map[] && b.redeeming == map[]
  }

  ghost predicate Known(t: Tracked) {
    Mailed(t.w.s.mail.sudoPayloads, t.b) && Unused(t.w.s.pool, t.b)
  }

  /** A redemption of that denomination is out under the key. */
  predicate Redeeming(b: Shares, k: PacketKey, d: string) {
    k in b.redeeming && d in DenomsOf(b.redeeming[k])
  }

  /** While no message clashes: the tokens of a redemption that is out stay alone in their denominations, and
      the stored denominations are those being redeemed. */
  ghost predicate Matched(tokens: ShareTokens, b: Shares) {
    && (forall k, t :: k in b.redeeming && t in b.redeeming[k] ==> Sole(tokens.pending, t))
    && (forall k, l, d :: Redeeming(b, k, d) && Redeeming(b, l, d) ==> k == l)
    && (forall d :: d in tokens.redeeming <==> exists k :: Redeeming(b, k, d))
  }

  ghost predicate InOrder(t: Tracked) {
    Known(t) && BalancedAt(t) && Matched(t.w.s.pool.shareTokens, t.b)
  }

  // ---- What the messages do to the shares ----

  /** Nothing. */
  ghost predicate Apart(s: PoolState, after: PoolState) {
    && after.pool.shareTokens == s.pool.shareTokens
    && (after.pool.status == RegisterEnded ==> s.pool.status == RegisterEnded)
    && (forall k :: ShareMail(after.mail.sudoPayloads, k) == ShareMail(s.mail.sudoPayloads, k))
  }

  lemma AdminApart(s: PoolState, a: Action, now: nat)
    requires ByAdmin(a) && !a.DoInitPool? && !a.DoMigratePool? && ApplyAdmin(s, a, now).Ok?
    requires Key(a).Some? ==> Key(a).value !in s.mail.sudoPayloads
    ensures Apart(s, ApplyAdmin(s, a, now).value.state)
  {
  }

  lemma SetupShares(s: PoolState, a: Action, now: nat)
    requires (a.DoInitPool? || a.DoMigratePool?) && ApplyAdmin(s, a, now).Ok?
    requires Key(a).value !in s.mail.sudoPayloads
    ensures var after := ApplyAdmin(s, a, now).value.state;
      && after.pool.status != RegisterEnded
      && (forall k :: ShareMail(after.mail.sudoPayloads, k) == ShareMail(s.mail.sudoPayloads, k))
      && after.pool.shareTokens.redeeming == s.pool.shareTokens.redeeming
      && after.pool.shareTokens.pending
         == (if s.pool.status != RegisterEnded then s.pool.shareTokens.pending
             else if a.DoInitPool? then [] else a.migrate.shareTokens)
  {
  }

  lemma UserApart(s: PoolState, a: Action)
    requires (a.DoStake? || a.DoUnstake? || a.DoWithdraw?) && ApplyUser(s, a).Ok?
    requires Key(a).Some? ==> Key(a).value !in s.mail.sudoPayloads
    ensures Apart(s, ApplyUser(s, a).value.state)
  {
  }

  lemma StepApart(s: PoolState, a: Action, now: nat, height: nat)
    requires a.DoEraUpdate? || a.DoEraBond? || a.DoCollectWithdraw? || a.DoRebond? || a.DoEraActive?
    requires ApplyEra(s, a, now, height).Ok? && (Key(a).Some? ==> Key(a).value !in s.mail.sudoPayloads)
    ensures Apart(s, ApplyEra(s, a, now, height).value.state)
  {
    if a.DoEraBond? {
      EraBondShape(s, a.query, a.selected, now, a.key);
    }
  }

  lemma DeliveryApart(s: PoolState, key: PacketKey, success: bool, now: nat, height: nat)
    requires Deliver(s, key, success, now, height).Ok? && ShareMail(s.mail.sudoPayloads, key).None?
    ensures Apart(s, Deliver(s, key, success, now, height).value.state)
  {
    var s1 := s.(mail := s.mail.(sudoPayloads := s.mail.sudoPayloads - {key}));
    if success {
      CallbackShape(s1, s.mail.sudoPayloads[key], now, height);
    } else {
      FailedCallbackShape(s1, s.mail.sudoPayloads[key]);
    }
  }

  lemma StakeSent(s: PoolState, a: Action)
    requires a.DoStakeLsm? && Proper(a) && ApplyUser(s, a).Ok? && a.key !in s.mail.sudoPayloads
    ensures var after := ApplyUser(s, a).value.state;
      && s.pool.status == ActiveEnded && after.pool == s.pool
      && a.key in after.mail.sudoPayloads && after.mail.sudoPayloads[a.key].txType == TxStakeLsm
      && after.mail.sudoPayloads == s.mail.sudoPayloads[a.key := after.mail.sudoPayloads[a.key]]
      && Carries(after.mail.sudoPayloads[a.key].message, Coin(a.denom, a.amount))
      && Ok(Worth(after.mail.sudoPayloads[a.key].message))
         == MulDiv(a.amount, a.validatorTokens, a.validatorShares / SHARE_BASE)
  {
    var worth := MulDiv(a.amount, a.validatorTokens, a.validatorShares / SHARE_BASE).value;
    AmountsFit(a.amount, a.validatorTokens, a.validatorShares / SHARE_BASE);
    MessageCarries(a.sender, worth, a.amount, a.ibcDenom, a.denom);
  }

  lemma MessageCarries(staker: string, tokens: nat, shares: nat, ibcDenom: string, denom: string)
    requires Plain(staker) && Plain(ibcDenom) && Plain(denom) && tokens <= U128_MAX && shares <= U128_MAX
    ensures Carries(LsmMessage(staker, tokens, shares, ibcDenom, denom), Coin(denom, shares))
    ensures Worth(LsmMessage(staker, tokens, shares, ibcDenom, denom)) == tokens
  {
    MessageSpelled(staker, tokens, shares, ibcDenom, denom);
    LsmRoundTrip(staker, tokens, shares, ibcDenom, denom);
    ParseDec(shares, U128_MAX);
  }

  lemma RedemptionSent(s: PoolState, tokens: seq<Coin>, key: PacketKey)
    requires RedeemShares(s, tokens, key).Ok? && AllPlain(DenomsOf(tokens), COMMA)
    ensures var after := RedeemShares(s, tokens, key).value.state;
      && after.pool.status == s.pool.status
      && after.pool.shareTokens == s.pool.shareTokens.(redeeming := s.pool.shareTokens.redeeming + DenomsOf(tokens))
      && key in after.mail.sudoPayloads && after.mail.sudoPayloads[key].txType == TxRedeemShares
      && after.mail.sudoPayloads == s.mail.sudoPayloads[key := after.mail.sudoPayloads[key]]
      && Names(after.mail.sudoPayloads[key].message, tokens)
    ensures tokens != [] && forall t :: t in tokens ==> t in s.pool.shareTokens.pending
  {
    DenomsExact(tokens, s.pool.shareTokens.pending, []);
    assert [] + DenomsOf(tokens) == DenomsOf(tokens);
    RedemptionText(s, tokens, key);
  }

  lemma StakeAnswer(s: PoolState, key: PacketKey, success: bool, c: Coin, now: nat, height: nat)
    requires key in s.mail.sudoPayloads && s.mail.sudoPayloads[key].txType == TxStakeLsm
    requires Carries(s.mail.sudoPayloads[key].message, c) && Deliver(s, key, success, now, height).Ok?
    ensures var after := Deliver(s, key, success, now, height).value.state;
      && after.pool.status == s.pool.status && after.mail.sudoPayloads == s.mail.sudoPayloads - {key}
      && after.pool.shareTokens
         == s.pool.shareTokens.(pending := s.pool.shareTokens.pending + if success then [c] else [])
    ensures StakedDenom(s.mail.sudoPayloads[key].message) == c.denom
  {
    assert s.pool.shareTokens.pending + [] == s.pool.shareTokens.pending;
  }

  lemma RedemptionAnswer(s: PoolState, key: PacketKey, success: bool, tokens: seq<Coin>, now: nat, height: nat)
    requires key in s.mail.sudoPayloads && s.mail.sudoPayloads[key].txType == TxRedeemShares
    requires Names(s.mail.sudoPayloads[key].message, tokens)
    ensures Deliver(s, key, success, now, height).Ok?
    ensures var after, held := Deliver(s, key, success, now, height).value.state, s.pool.shareTokens;
      && after.pool.status == s.pool.status && after.mail.sudoPayloads == s.mail.sudoPayloads - {key}
      && after.pool.shareTokens
         == ShareTokens(if success then NotOf(held.pending, DenomsOf(tokens)) else held.pending,
                        NotIn(held.redeeming, DenomsOf(tokens)))
  {
  }

  // ---- The payloads and the observer stay in step ----

  lemma MailSame(before: map<PacketKey, SudoPayload>, after: map<PacketKey, SudoPayload>, b: Shares)
    requires Mailed(before, b) && forall k :: ShareMail(after, k) == ShareMail(before, k)
    ensures Mailed(after, b)
  {
    forall k | k in b.staking || k in b.redeeming ensures k in after && after[k] == before[k] {
      assert ShareMail(after, k) == ShareMail(before, k);
    }
  }

  lemma MailAdded(payloads: map<PacketKey, SudoPayload>, key: PacketKey, payload: SudoPayload, b: Shares, more: Shares)
    requires Mailed(payloads, b) && key !in payloads
    requires (payload.txType == TxStakeLsm && key in more.staking && Carries(payload.message, more.staking[key])
              && more == b.(staking := b.staking[key := more.staking[key]]))
             || (payload.txType == TxRedeemShares && key in more.redeeming
                 && Names(payload.message, more.redeeming[key])
                 && more == b.(redeeming := b.redeeming[key := more.redeeming[key]]))
    ensures Mailed(payloads[key := payload], more)
  {
    var after := payloads[key := payload];
    forall k | ShareMail(after, k).Some? ensures k in more.staking || k in more.redeeming {
      if k != key {
        assert ShareMail(payloads, k).Some?;
      }
    }
  }

  lemma MailRemoved(payloads: map<PacketKey, SudoPayload>, key: PacketKey, b: Shares, less: Shares)
    requires Mailed(payloads, b)
    requires less.staking == b.staking - {key} && less.redeeming == b.redeeming - {key}
    ensures Mailed(payloads - {key}, less)
  {
    forall k | ShareMail(payloads - {key}, k).Some? ensures k in less.staking || k in less.redeeming {
      assert ShareMail(payloads, k).Some?;
    }
  }

  // ---- The tokens that are out stay alone ----

  lemma MatchedSent(held: ShareTokens, b: Shares, key: PacketKey, tokens: seq<Coin>)
    requires Matched(held, b) && key !in b.redeeming
    requires forall t :: t in tokens ==> Sole(held.pending, t) && t.denom !in held.redeeming
    ensures Matched(held.(redeeming := held.redeeming + DenomsOf(tokens)), b.(redeeming := b.redeeming[key := tokens]))
  {
    var more := b.(redeeming := b.redeeming[key := tokens]);
    forall k, d ensures Redeeming(more, k, d) <==> if k == key then d in DenomsOf(tokens) else Redeeming(b, k, d) {
    }
    forall d | d in DenomsOf(tokens) ensures d !in held.redeeming {
      var t := TokenOf(tokens, d);
    }
    forall d ensures d in held.redeeming + DenomsOf(tokens) <==> exists k :: Redeeming(more, k, d) {
      if d in DenomsOf(tokens) {
        assert Redeeming(more, key, d);
      } else if d in held.redeeming {
        var k :| Redeeming(b, k, d);
        assert Redeeming(more, k, d);
      }
    }
  }

  lemma StillSole(held: ShareTokens, b: Shares, key: PacketKey, k: PacketKey, t: Coin)
    requires Matched(held, b) && key in b.redeeming && k in b.redeeming && k != key && t in b.redeeming[k]
    ensures Sole(NotOf(held.pending, DenomsOf(b.redeeming[key])), t)
  {
    DenomsOfAll(b.redeeming[k]);
    assert Sole(held.pending, t) && Redeeming(b, k, t.denom);
    assert t.denom in DenomsOf(b.redeeming[key]) ==> Redeeming(b, key, t.denom);
    OfDenomsLeft(held.pending, DenomsOf(b.redeeming[key]), t.denom);
  }

  lemma StillRedeeming(held: ShareTokens, b: Shares, key: PacketKey, less: Shares, d: string)
    requires Matched(held, b) && key in b.redeeming && less.redeeming == b.redeeming - {key}
    ensures d in NotIn(held.redeeming, DenomsOf(b.redeeming[key])) <==> exists k :: Redeeming(less, k, d)
  {
    var denoms := DenomsOf(b.redeeming[key]);
    NotInExact(held.redeeming, denoms, d);
    if d in held.redeeming && d !in denoms {
      var k :| Redeeming(b, k, d);
      assert Redeeming(less, k, d);
    }
    if exists k :: Redeeming(less, k, d) {
      var k :| Redeeming(less, k, d);
      assert Redeeming(b, k, d);
      assert d in denoms ==> Redeeming(b, key, d);
    }
  }

  lemma MatchedAnswered(held: ShareTokens, b: Shares, key: PacketKey, success: bool, less: Shares)
    requires Matched(held, b) && key in b.redeeming && less.redeeming == b.redeeming - {key}
    ensures var denoms := DenomsOf(b.redeeming[key]);
      Matched(ShareTokens(if success then NotOf(held.pending, denoms) else held.pending, NotIn(held.redeeming, denoms)),
              less)
  {
    forall k, t | k in less.redeeming && t in less.redeeming[k]
      ensures Sole(held.pending, t) && Sole(NotOf(held.pending, DenomsOf(b.redeeming[key])), t)
    {
      StillSole(held, b, key, k, t);
    }
    forall k, d ensures Redeeming(less, k, d) ==> Redeeming(b, k, d) {
    }
    forall d ensures d in NotIn(held.redeeming, DenomsOf(b.redeeming[key])) <==> exists k :: Redeeming(less, k, d) {
      StillRedeeming(held, b, key, less, d);
    }
  }

  lemma MatchedStaked(held: ShareTokens, b: Shares, c: Coin, less: Shares)
    requires Matched(held, b) && c.denom !in held.redeeming && less.redeeming == b.redeeming
    ensures Matched(held.(pending := held.pending + [c]), less)
  {
    forall k, t | k in less.redeeming && t in less.redeeming[k] ensures Sole(held.pending + [c], t) {
      DenomsOfAll(b.redeeming[k]);
      assert Redeeming(b, k, t.denom);
      assert Sole(held.pending, t) && t.denom in held.redeeming;
      OfDenomsAppend(held.pending, c, [t.denom]);
      assert OfDenoms(held.pending, [t.denom]) + [] == OfDenoms(held.pending, [t.denom]);
    }
    forall k, d ensures Redeeming(less, k, d) <==> Redeeming(b, k, d) {
    }
  }

  // ---- Every message ----

  lemma Unheard(s: PoolState, a: Action, b: Shares)
    requires !a.DoMigratePool? && !a.DoStakeLsm? && !a.DoRedeem?
    requires Mailed(s.mail.sudoPayloads, b) && (a.DoDeliver? ==> ShareMail(s.mail.sudoPayloads, a.key).None?)
    ensures Note(b, s, a) == b
  {
  }

  /** The messages that do not concern liquid shares. */
  predicate Elsewhere(s: PoolState, a: Action) {
    && !a.DoInitPool? && !a.DoMigratePool? && !a.DoStakeLsm? && !a.DoRedeem?
    && (a.DoDeliver? ==> ShareMail(s.mail.sudoPayloads, a.key).None?)
  }

  lemma ElsewhereApart(s: PoolState, a: Action, now: nat, height: nat)
    requires Elsewhere(s, a) && Apply(s, a, now, height).Ok?
    requires Key(a).Some? ==> Key(a).value !in s.mail.sudoPayloads
    ensures Apart(s, Apply(s, a, now, height).value.state)
  {
    if a.DoConfigStack? {
    } else if ByAdmin(a) {
      AdminApart(s, a, now);
    } else if ByUser(a) {
      UserApart(s, a);
    } else if a.DoDeliver? {
      DeliveryApart(s, a.key, a.success, now, height);
    } else {
      StepApart(s, a, now, height);
    }
  }

  /** Without a clash the balance stays. */
  ghost predicate Stays(held: ShareTokens, b: Shares, after: ShareTokens, noted: Shares, clash: bool) {
    !clash && Balanced(held.pending, b) && Matched(held, b) ==> Balanced(after.pending, noted) && Matched(after, noted)
  }

  ghost predicate Keeps(s: PoolState, b: Shares, after: PoolState, noted: Shares, clash: bool) {
    && Mailed(after.mail.sudoPayloads, noted) && Unused(after.pool, noted)
    && Stays(s.pool.shareTokens, b, after.pool.shareTokens, noted, clash)
  }

  lemma KeptElsewhere(s: PoolState, after: PoolState, b: Shares)
    requires Mailed(s.mail.sudoPayloads, b) && Unused(s.pool, b) && Apart(s, after)
    ensures Keeps(s, b, after, b, false)
  {
    MailSame(s.mail.sudoPayloads, after.mail.sudoPayloads, b);
  }

  lemma KeptBySetup(s: PoolState, a: Action, now: nat, b: Shares)
    requires (a.DoInitPool? || a.DoMigratePool?) && ApplyAdmin(s, a, now).Ok?
    requires Mailed(s.mail.sudoPayloads, b) && Unused(s.pool, b) && Key(a).value !in s.mail.sudoPayloads
    ensures Keeps(s, b, ApplyAdmin(s, a, now).value.state, Note(b, s, a), false)
  {
    var after := ApplyAdmin(s, a, now).value.state;
    SetupShares(s, a, now);
    MailSame(s.mail.sudoPayloads, after.mail.sudoPayloads, b);
    if a.DoMigratePool? {
      Imported(b.acked, b.imported, multiset(a.migrate.shareTokens));
      SameRedemptions(after.pool.shareTokens, b, Note(b, s, a));
    }
  }

  lemma Imported(acked: multiset<Coin>, imported: multiset<Coin>, tokens: multiset<Coin>)
    ensures acked + (imported + tokens) == tokens + (acked + imported)
  {
  }

  lemma KeptByStake(s: PoolState, a: Action, b: Shares)
    requires a.DoStakeLsm? && Proper(a) && ApplyUser(s, a).Ok? && a.key !in s.mail.sudoPayloads
    requires Mailed(s.mail.sudoPayloads, b) && Unused(s.pool, b)
    ensures Keeps(s, b, ApplyUser(s, a).value.state, Note(b, s, a), false)
  {
    StakeSent(s, a);
    var payload := ApplyUser(s, a).value.state.mail.sudoPayloads[a.key];
    MailAdded(s.mail.sudoPayloads, a.key, payload, b, Note(b, s, a));
    SameRedemptions(s.pool.shareTokens, b, Note(b, s, a));
  }

  lemma SameRedemptions(held: ShareTokens, b: Shares, c: Shares)
    requires b.redeeming == c.redeeming
    ensures Matched(held, b) ==> Matched(held, c)
  {
    forall k, d ensures Redeeming(b, k, d) <==> Redeeming(c, k, d) {
    }
  }

  lemma KeptByRedemption(s: PoolState, a: Action, b: Shares)
    requires a.DoRedeem? && RedeemShares(s, a.tokens, a.key).Ok? && AllPlain(DenomsOf(a.tokens), COMMA)
    requires Mailed(s.mail.sudoPayloads, b) && Unused(s.pool, b) && a.key !in s.mail.sudoPayloads
    ensures Keeps(s, b, RedeemShares(s, a.tokens, a.key).value.state, Note(b, s, a), Clashes(s, a))
  {
    RedemptionSent(s, a.tokens, a.key);
    var payload := RedeemShares(s, a.tokens, a.key).value.state.mail.sudoPayloads[a.key];
    MailAdded(s.mail.sudoPayloads, a.key, payload, b, Note(b, s, a));
    assert a.tokens[0] in s.pool.shareTokens.pending;
    if !Clashes(s, a) && Matched(s.pool.shareTokens, b) {
      MatchedSent(s.pool.shareTokens, b, a.key, a.tokens);
    }
  }

  /** An answer removes its packet. */
  lemma KnownAfterAnswer(s: PoolState, after: PoolState, b: Shares, key: PacketKey, less: Shares)
    requires Mailed(s.mail.sudoPayloads, b) && Unused(s.pool, b) && (key in b.staking || key in b.redeeming)
    requires after.pool.status == s.pool.status && after.mail.sudoPayloads == s.mail.sudoPayloads - {key}
    requires less.staking == b.staking - {key} && less.redeeming == b.redeeming - {key}
    ensures Mailed(after.mail.sudoPayloads, less) && Unused(after.pool, less)
  {
    MailRemoved(s.mail.sudoPayloads, key, b, less);
  }

  lemma Acknowledged(acked: multiset<Coin>, imported: multiset<Coin>, pending: multiset<Coin>, redeemed: multiset<Coin>,
                     shares: multiset<Coin>)
    requires acked + imported == pending + redeemed
    ensures (acked + shares) + imported == (pending + shares) + redeemed
  {
    assert (acked + shares) + imported == (acked + imported) + shares;
    assert (pending + shares) + redeemed == (pending + redeemed) + shares;
  }

  lemma StakeSettled(held: ShareTokens, b: Shares, c: Coin, success: bool, less: Shares)
    requires Balanced(held.pending, b) && Matched(held, b) && (success ==> c.denom !in held.redeeming)
    requires less.redeeming == b.redeeming && less.redeemed == b.redeemed && less.imported == b.imported
    requires less.acked == if success then b.acked + multiset{c} else b.acked
    ensures var after := held.(pending := held.pending + if success then [c] else []);
      Balanced(after.pending, less) && Matched(after, less)
  {
    if success {
      MatchedStaked(held, b, c, less);
      assert multiset(held.pending + [c]) == multiset(held.pending) + multiset{c};
      Acknowledged(b.acked, b.imported, multiset(held.pending), b.redeemed, multiset{c});
    } else {
      assert held.pending + [] == held.pending;
      SameRedemptions(held, b, less);
    }
  }

  /** Unless the denomination is being redeemed, the answer to a stake keeps the balance. */
  lemma StakeAnswerStays(s: PoolState, after: PoolState, b: Shares, c: Coin, success: bool, less: Shares, clash: bool)
    requires after.pool.shareTokens
          == s.pool.shareTokens.(pending := s.pool.shareTokens.pending + if success then [c] else [])
    requires !clash && success ==> c.denom !in s.pool.shareTokens.redeeming
    requires less.redeeming == b.redeeming && less.redeemed == b.redeemed && less.imported == b.imported
    requires less.acked == if success then b.acked + multiset{c} else b.acked
    ensures Stays(s.pool.shareTokens, b, after.pool.shareTokens, less, clash)
  {
    var held := s.pool.shareTokens;
    if !clash && Balanced(held.pending, b) && Matched(held, b) {
      StakeSettled(held, b, c, success, less);
    }
  }

  lemma StakeAnswerClash(s: PoolState, a: Action, b: Shares)
    requires a.DoDeliver? && a.key in b.staking && Mailed(s.mail.sudoPayloads, b)
    ensures !Clashes(s, a) && a.success ==> b.staking[a.key].denom !in s.pool.shareTokens.redeeming
    ensures a.key !in b.redeeming
  {
    assert Carries(s.mail.sudoPayloads[a.key].message, b.staking[a.key]);
  }

  lemma KeptByStakeAnswer(s: PoolState, a: Action, now: nat, height: nat, b: Shares, less: Shares)
    requires a.DoDeliver? && a.key in b.staking && Deliver(s, a.key, a.success, now, height).Ok?
    requires Mailed(s.mail.sudoPayloads, b) && Unused(s.pool, b) && less == WithoutStake(b, a.key, a.success)
    ensures Keeps(s, b, Deliver(s, a.key, a.success, now, height).value.state, less, Clashes(s, a))
  {
    var after := Deliver(s, a.key, a.success, now, height).value.state;
    StakeAnswer(s, a.key, a.success, b.staking[a.key], now, height);
    StakeAnswerClash(s, a, b);
    assert b.redeeming - {a.key} == b.redeeming;
    KnownAfterAnswer(s, after, b, a.key, less);
    StakeAnswerStays(s, after, b, b.staking[a.key], a.success, less, Clashes(s, a));
  }

  lemma RedemptionSettled(held: ShareTokens, b: Shares, key: PacketKey, success: bool, less: Shares)
    requires Balanced(held.pending, b) && Matched(held, b) && key in b.redeeming
    requires Distinct(DenomsOf(b.redeeming[key])) && less.redeeming == b.redeeming - {key}
    requires less.acked == b.acked && less.imported == b.imported
    requires less.redeemed == if success then b.redeemed + multiset(b.redeeming[key]) else b.redeemed
    ensures var denoms := DenomsOf(b.redeeming[key]);
      var after := ShareTokens(if success then NotOf(held.pending, denoms) else held.pending,
                               NotIn(held.redeeming, denoms));
      Balanced(after.pending, less) && Matched(after, less)
  {
    MatchedAnswered(held, b, key, success, less);
    if success {
      RedemptionBalance(held.pending, b, b.redeeming[key]);
    }
  }

  lemma RedemptionAnswerStays(s: PoolState, after: PoolState, b: Shares, key: PacketKey, success: bool, less: Shares)
    requires key in b.redeeming && Distinct(DenomsOf(b.redeeming[key]))
    requires var held, denoms := s.pool.shareTokens, DenomsOf(b.redeeming[key]);
      after.pool.shareTokens == ShareTokens(if success then NotOf(held.pending, denoms) else held.pending,
                                            NotIn(held.redeeming, denoms))
    requires less.acked == b.acked && less.imported == b.imported && less.redeeming == b.redeeming - {key}
    requires less.redeemed == if success then b.redeemed + multiset(b.redeeming[key]) else b.redeemed
    ensures Stays(s.pool.shareTokens, b, after.pool.shareTokens, less, false)
  {
    var held := s.pool.shareTokens;
    if Balanced(held.pending, b) && Matched(held, b) {
      RedemptionSettled(held, b, key, success, less);
    }
  }

  lemma KeptByRedemptionAnswer(s: PoolState, a: Action, now: nat, height: nat, b: Shares, less: Shares)
    requires a.DoDeliver? && a.key in b.redeeming && a.key !in b.staking
    requires Mailed(s.mail.sudoPayloads, b) && Unused(s.pool, b) && less == WithoutRedemption(b, a.key, a.success)
    ensures Deliver(s, a.key, a.success, now, height).Ok?
    ensures Keeps(s, b, Deliver(s, a.key, a.success, now, height).value.state, less, false)
  {
    RedemptionAnswer(s, a.key, a.success, b.redeeming[a.key], now, height);
    var after := Deliver(s, a.key, a.success, now, height).value.state;
    assert b.staking - {a.key} == b.staking;
    KnownAfterAnswer(s, after, b, a.key, less);
    RedemptionAnswerStays(s, after, b, a.key, a.success, less);
  }

  /** Every message keeps the payloads and the observer in step, and unless it clashes the balance as well. */
  lemma MessageKeeps(s: PoolState, a: Action, now: nat, height: nat, b: Shares)
    requires Mailed(s.mail.sudoPayloads, b) && Unused(s.pool, b) && Apply(s, a, now, height).Ok? && Proper(a)
    requires Key(a).Some? ==> Key(a).value !in s.mail.sudoPayloads
    requires a.DoRedeem? ==> AllPlain(DenomsOf(a.tokens), COMMA)
    ensures Keeps(s, b, Apply(s, a, now, height).value.state, Note(b, s, a), Clashes(s, a))
  {
    if a.DoInitPool? || a.DoMigratePool? {
      KeptBySetup(s, a, now, b);
    } else if a.DoStakeLsm? {
      KeptByStake(s, a, b);
    } else if a.DoRedeem? {
      KeptByRedemption(s, a, b);
    } else if a.DoDeliver? && a.key in b.staking {
      KeptByStakeAnswer(s, a, now, height, b, Note(b, s, a));
    } else if a.DoDeliver? && a.key in b.redeeming {
      KeptByRedemptionAnswer(s, a, now, height, b, Note(b, s, a));
    } else {
      Unheard(s, a, b);
      ElsewhereApart(s, a, now, height);
      KeptElsewhere(s, Apply(s, a, now, height).value.state, b);
    }
  }

  lemma KnownKept(t: Tracked, e: Event)
    requires Known(t) && Fair(t.w, e)
    ensures Known(Step(t, e))
    ensures InOrder(t) && !Clash(t.w, e) ==> InOrder(Step(t, e))
  {
    if Apply(t.w.s, e.action, e.now, e.height).Ok? {
      NextState(t.w, e);
      MessageKeeps(t.w.s, e.action, e.now, e.height, t.b);
    }
  }

  // ---- Whole runs ----

  function Follow(t: Tracked, events: seq<Event>): Tracked
    decreases |events|
  {
    if events == [] then t else Follow(Step(t, events[0]), events[1..])
  }

  ghost predicate AllFair(w: World, events: seq<Event>)
    decreases |events|
  {
    events == [] || (Fair(w, events[0]) && AllFair(Next(w, events[0]), events[1..]))
  }

  ghost predicate SomeClash(w: World, events: seq<Event>)
    decreases |events|
  {
    events != [] && (Clash(w, events[0]) || SomeClash(Next(w, events[0]), events[1..]))
  }

  /** Some way on, without a further clash, leads to where a share is missing or counted twice. */
  ghost predicate CanMiscount(t: Tracked) {
    exists events :: AllFair(t.w, events) && !SomeClash(t.w, events) && !BalancedAt(Follow(t, events))
  }

  /** At some point of the run that was so. */
  ghost predicate EverCanMiscount(t: Tracked, events: seq<Event>)
    decreases |events|
  {
    CanMiscount(t) || (events != [] && EverCanMiscount(Step(t, events[0]), events[1..]))
  }

  lemma {:induction false} InOrderAlong(t: Tracked, events: seq<Event>)
    requires InOrder(t) && AllFair(t.w, events) && !SomeClash(t.w, events)
    ensures InOrder(Follow(t, events))
    decreases |events|
  {
    if events != [] {
      KnownKept(t, events[0]);
      InOrderAlong(Step(t, events[0]), events[1..]);
    }
  }

  lemma CannotMiscount(t: Tracked)
    requires InOrder(t)
    ensures !CanMiscount(t)
  {
    forall events | AllFair(t.w, events) && !SomeClash(t.w, events) ensures BalancedAt(Follow(t, events)) {
      InOrderAlong(t, events);
    }
  }

  lemma MiscountedNow(t: Tracked)
    requires !BalancedAt(t)
    ensures CanMiscount(t)
  {
    assert AllFair(t.w, []) && !SomeClash(t.w, []) && Follow(t, []) == t;
  }

  lemma MiscountedNext(t: Tracked, e: Event)
    requires Careful(t.w, e) && CanMiscount(Step(t, e))
    ensures CanMiscount(t)
  {
    var rest :| AllFair(Next(t.w, e), rest) && !SomeClash(Next(t.w, e), rest) && !BalancedAt(Follow(Step(t, e), rest));
    var events := [e] + rest;
    assert events[1..] == rest;
    assert AllFair(t.w, events) && !SomeClash(t.w, events) && Follow(t, events) == Follow(Step(t, e), rest);
  }

  // ---- A clash leads to a miscount ----

  lemma AnswerCareful(t: Tracked, key: PacketKey)
    requires Known(t) && key in t.b.redeeming && t.w.now <= MAX_SECONDS
    ensures Careful(t.w, AnswerNow(t.w, key, true))
  {
  }

  /** The acknowledgement of a redemption that is out. */
  lemma Acknowledge(t: Tracked, key: PacketKey)
    requires Known(t) && key in t.b.redeeming && t.w.now <= MAX_SECONDS
    ensures var e, tokens := AnswerNow(t.w, key, true), t.b.redeeming[key];
      && Careful(t.w, e) && Distinct(DenomsOf(tokens))
      && Step(t, e).b == t.b.(redeeming := t.b.redeeming - {key}, redeemed := t.b.redeemed + multiset(tokens))
      && Step(t, e).w.s.pool.shareTokens.pending == NotOf(t.w.s.pool.shareTokens.pending, DenomsOf(tokens))
      && Known(Step(t, e)) && Step(t, e).w.now == t.w.now
  {
    AnswerCareful(t, key);
    KnownKept(t, AnswerNow(t.w, key, true));
    AcknowledgedState(t, key);
  }

  lemma AcknowledgedState(t: Tracked, key: PacketKey)
    requires Mailed(t.w.s.mail.sudoPayloads, t.b) && key in t.b.redeeming
    ensures var e, tokens := AnswerNow(t.w, key, true), t.b.redeeming[key];
      && Distinct(DenomsOf(tokens))
      && Step(t, e).b == t.b.(redeeming := t.b.redeeming - {key}, redeemed := t.b.redeemed + multiset(tokens))
      && Step(t, e).w.s.pool.shareTokens.pending == NotOf(t.w.s.pool.shareTokens.pending, DenomsOf(tokens))
      && Step(t, e).w.now == t.w.now
  {
    RedemptionAnswer(t.w.s, key, true, t.b.redeeming[key], t.w.now, t.w.height);
    NextState(t.w, AnswerNow(t.w, key, true));
  }

  lemma AloneNoMore(t: Tracked, key: PacketKey, token: Coin)
    requires Known(t) && BalancedAt(t) && key in t.b.redeeming && t.w.now <= MAX_SECONDS
    requires token in t.b.redeeming[key] && !Sole(t.w.s.pool.shareTokens.pending, token)
    ensures CanMiscount(t)
  {
    var e, tokens := AnswerNow(t.w, key, true), t.b.redeeming[key];
    Acknowledge(t, key);
    RedemptionBalance(t.w.s.pool.shareTokens.pending, t.b, tokens);
    MiscountedNow(Step(t, e));
    MiscountedNext(t, e);
  }

  /** The token was being redeemed already: the first acknowledgement takes it away, the second finds nothing. */
  lemma RedeemedTwice(t: Tracked, first: PacketKey, second: PacketKey, token: Coin)
    requires Known(t) && BalancedAt(t) && t.w.now <= MAX_SECONDS && first != second
    requires Redeeming(t.b, first, token.denom) && second in t.b.redeeming && token in t.b.redeeming[second]
    ensures CanMiscount(t)
  {
    var e := AnswerNow(t.w, first, true);
    Acknowledge(t, first);
    OfDenomsLeft(t.w.s.pool.shareTokens.pending, DenomsOf(t.b.redeeming[first]), token.denom);
    if BalancedAt(Step(t, e)) {
      AloneNoMore(Step(t, e), second, token);
    } else {
      MiscountedNow(Step(t, e));
    }
    MiscountedNext(t, e);
  }

  lemma RedemptionStep(t: Tracked, e: Event)
    requires Known(t) && Fair(t.w, e) && e.action.DoRedeem? && Apply(t.w.s, e.action, e.now, e.height).Ok?
    ensures Known(Step(t, e)) && Step(t, e).w.now == e.now && e.action.key !in t.b.redeeming
    ensures Step(t, e).b == t.b.(redeeming := t.b.redeeming[e.action.key := e.action.tokens])
    ensures Step(t, e).w.s.pool.shareTokens.pending == t.w.s.pool.shareTokens.pending
  {
    KnownKept(t, e);
    NextState(t.w, e);
    RedemptionSent(t.w.s, e.action.tokens, e.action.key);
  }

  lemma RedemptionClash(t: Tracked, e: Event)
    requires InOrder(t) && Fair(t.w, e) && Clash(t.w, e) && e.action.DoRedeem?
    ensures CanMiscount(Step(t, e))
  {
    var held, key := t.w.s.pool.shareTokens, e.action.key;
    var token :| token in e.action.tokens && (!Sole(held.pending, token) || token.denom in held.redeeming);
    RedemptionStep(t, e);
    if !Sole(held.pending, token) {
      AloneNoMore(Step(t, e), key, token);
    } else {
      var first :| Redeeming(t.b, first, token.denom);
      assert Redeeming(Step(t, e).b, first, token.denom);
      RedeemedTwice(Step(t, e), first, key, token);
    }
  }

  lemma StakeStep(t: Tracked, e: Event)
    requires Known(t) && Fair(t.w, e) && Delivers(t.w.s, e.action, TxStakeLsm, true)
    requires Apply(t.w.s, e.action, e.now, e.height).Ok?
    ensures Known(Step(t, e)) && Step(t, e).w.now == e.now && e.action.key in t.b.staking
    ensures var c := t.b.staking[e.action.key];
      && StakedDenom(t.w.s.mail.sudoPayloads[e.action.key].message) == c.denom
      && Step(t, e).b == WithoutStake(t.b, e.action.key, true)
      && Step(t, e).w.s.pool.shareTokens.pending == t.w.s.pool.shareTokens.pending + [c]
  {
    var key := e.action.key;
    assert ShareMail(t.w.s.mail.sudoPayloads, key).Some?;
    KnownKept(t, e);
    NextState(t.w, e);
    StakeAnswer(t.w.s, key, true, t.b.staking[key], e.now, e.height);
  }

  lemma StakeClash(t: Tracked, e: Event)
    requires InOrder(t) && Fair(t.w, e) && Clash(t.w, e) && !e.action.DoRedeem?
    ensures CanMiscount(Step(t, e))
  {
    var held, key := t.w.s.pool.shareTokens, e.action.key;
    StakeStep(t, e);
    var c := t.b.staking[key];
    var first :| Redeeming(t.b, first, c.denom);
    var token := TokenOf(t.b.redeeming[first], c.denom);
    assert Sole(held.pending, token);
    OfDenomsAppend(held.pending, c, [token.denom]);
    assert OfDenoms(held.pending + [c], [token.denom]) == [token, c];
    if BalancedAt(Step(t, e)) {
      AloneNoMore(Step(t, e), first, token);
    } else {
      MiscountedNow(Step(t, e));
    }
  }

  /** While the shares are in order, a message opens a way to a miscount if and only if it clashes. */
  lemma MiscountIffClash(t: Tracked, e: Event)
    requires InOrder(t) && Fair(t.w, e)
    ensures CanMiscount(Step(t, e)) <==> Clash(t.w, e)
  {
    if Clash(t.w, e) {
      if e.action.DoRedeem? {
        RedemptionClash(t, e);
      } else {
        StakeClash(t, e);
      }
    } else {
      KnownKept(t, e);
      CannotMiscount(Step(t, e));
    }
  }

  lemma {:induction false} MiscountsFrom(t: Tracked, events: seq<Event>)
    requires InOrder(t) && AllFair(t.w, events)
    ensures EverCanMiscount(t, events) <==> SomeClash(t.w, events)
    ensures !SomeClash(t.w, events) ==> BalancedAt(Follow(t, events))
    decreases |events|
  {
    CannotMiscount(t);
    if events != [] {
      var e, rest := events[0], events[1..];
      MiscountIffClash(t, e);
      if !Clash(t.w, e) {
        KnownKept(t, e);
        MiscountsFrom(Step(t, e), rest);
      }
    }
  }

  /** Over every run of a new pool: a share could at some point be lost, or redeemed twice, if and only if
      some redemption or stake clashed; and in a run without a clash the shares acknowledged and brought
      along are, one by one, those waiting and those redeemed. */
  lemma SharesBalancedIffNoClash(d: Deployment, now: nat, height: nat, events: seq<Event>)
    requires AllFair(Genesis(d, now, height), events)
    ensures EverCanMiscount(Start(d, now, height), events) <==> SomeClash(Genesis(d, now, height), events)
    ensures !SomeClash(Genesis(d, now, height), events) ==> BalancedAt(Follow(Start(d, now, height), events))
  {
    var start := Start(d, now, height);
    forall k, c ensures !Redeeming(start.b, k, c) {
    }
    MiscountsFrom(start, events);
  }

  // ---- A run in which a share is lost ----

  const SHARE := Coin("share", 10)

  /** The pool accepts liquid shares, and that many of them are waiting. */
  predicate TakesShares(p: PoolInfo, waiting: seq<Coin>) {
    && p.config.lsmSupport && p.config.lsmPendingLimit == 100 && p.config.minimalStake == 0 && !p.config.paused
    && p.status == ActiveEnded && p.validatorUpdate == End && p.validators == ["v"]
    && p.shareTokens == ShareTokens(waiting, []) && |waiting| < 10
    && p.book.rate == CAL_BASE && p.book.active == p.book.totalLsd == 10 * |waiting|
  }

  ghost predicate Holds(w: World, waiting: seq<Coin>) {
    Reachable(w) && TakesShares(w.s.pool, waiting) && w.s.mail.sudoPayloads == map[] && w.now == 0 && w.height == 0
  }

  const TAKE_SHARES :=
    ConfigParams(None, None, None, None, None, None, None, None, Some(true), None, None, None)

  lemma SharesTaken() returns (w: World)
    ensures Holds(w, [])
  {
    var before := First.Ready(2, 100_000, CAL_BASE);
    var e := Event(DoConfigPool("admin", TAKE_SHARES), 0, 0);
    ReachableNext(before, e, CAL_BASE);
    NextState(before, e);
    w := Next(before, e);
  }

  /** A stake is out whose payload says what it is worth. */
  ghost predicate Waits(w: World, waiting: seq<Coin>, key: PacketKey) {
    && Reachable(w) && TakesShares(w.s.pool, waiting) && w.now == 0 && w.height == 0
    && key in w.s.mail.sudoPayloads && w.s.mail.sudoPayloads == map[key := w.s.mail.sudoPayloads[key]]
    && w.s.mail.sudoPayloads[key].txType == TxStakeLsm
    && Carries(w.s.mail.sudoPayloads[key].message, SHARE) && Worth(w.s.mail.sudoPayloads[key].message) == 10
  }

  function ShareStake(key: PacketKey): Action { DoStakeLsm("user", "ibc", "share", "v", 10, 1, SHARE_BASE, key) }

  lemma ShareAccepted(s: PoolState, waiting: seq<Coin>, key: PacketKey)
    requires TakesShares(s.pool, waiting)
    ensures ApplyUser(s, ShareStake(key)).Ok? && MulDiv(10, 1, SHARE_BASE / SHARE_BASE) == Ok(10)
  {
  }

  lemma ShareAllowed(w: World, waiting: seq<Coin>, key: PacketKey)
    requires Holds(w, waiting)
    ensures Allowed(w, Event(ShareStake(key), 0, 0))
    ensures Apply(w.s, ShareStake(key), 0, 0) == ApplyUser(w.s, ShareStake(key))
  {
  }

  lemma ShareSent(before: World, waiting: seq<Coin>, key: PacketKey) returns (w: World)
    requires Holds(before, waiting)
    ensures Waits(w, waiting, key)
  {
    var e := Event(ShareStake(key), 0, 0);
    ShareAccepted(before.s, waiting, key);
    ShareAllowed(before, waiting, key);
    StakeSent(before.s, e.action);
    ReachableNext(before, e, CAL_BASE);
    NextState(before, e);
    w := Next(before, e);
  }

  lemma ShareBooked(s: PoolState, waiting: seq<Coin>, key: PacketKey)
    requires TakesShares(s.pool, waiting) && |waiting| < 9
    requires key in s.mail.sudoPayloads && s.mail.sudoPayloads[key].txType == TxStakeLsm
    requires Carries(s.mail.sudoPayloads[key].message, SHARE) && Worth(s.mail.sudoPayloads[key].message) == 10
    ensures Deliver(s, key, true, 0, 0).Ok?
    ensures var after := Deliver(s, key, true, 0, 0).value.state;
      TakesShares(after.pool, waiting + [SHARE]) && after.mail.sudoPayloads == s.mail.sudoPayloads - {key}
  {
    assert MulDiv(10, CAL_BASE, CAL_BASE) == Ok(10);
  }

  lemma ShareAcked(before: World, waiting: seq<Coin>, key: PacketKey) returns (w: World)
    requires Waits(before, waiting, key) && |waiting| < 9
    ensures Holds(w, waiting + [SHARE])
  {
    var e := AnswerNow(before, key, true);
    ShareBooked(before.s, waiting, key);
    ReachableNext(before, e, CAL_BASE);
    NextState(before, e);
    w := Next(before, e);
  }

  lemma OneSent(w: World, send: Event, key: PacketKey)
    requires Holds(w, [SHARE, SHARE]) && send == Event(DoRedeem([SHARE], key), 0, 0)
    ensures Fair(w, send) && Apply(w.s, send.action, 0, 0) == RedeemShares(w.s, [SHARE], key)
    ensures RedeemShares(w.s, [SHARE], key).Ok?
    ensures RedeemShares(w.s, [SHARE], key).value.effects.remote == [Allocation.Redeem("share", 10)]
    ensures Next(w, send).s == RedeemShares(w.s, [SHARE], key).value.state
    ensures Next(w, send).now == 0 && Next(w, send).height == 0
  {
    RedemptionTakesBoth(w.s, "share", 10, 10, key, 0, 0);
    assert DenomsOf([SHARE]) == ["share"] by {
      assert [SHARE][1..] == [];
    }
    NextState(w, send);
  }

  lemma OneAnswered(s: PoolState, w: World, key: PacketKey)
    requires TakesShares(s.pool, [SHARE, SHARE]) && key !in s.mail.sudoPayloads
    requires RedeemShares(s, [SHARE], key).Ok? && w.s == RedeemShares(s, [SHARE], key).value.state
    requires w.now == 0 && w.height == 0
    ensures Fair(w, AnswerNow(w, key, true))
    ensures Next(w, AnswerNow(w, key, true)).s.pool.shareTokens.pending == []
  {
    RedemptionTakesBoth(s, "share", 10, 10, key, 0, 0);
    NextState(w, AnswerNow(w, key, true));
  }

  /** Two equal stakes are acknowledged, one of them is redeemed, and nothing is left waiting. */
  lemma EqualSharesLost(first: PacketKey, second: PacketKey, third: PacketKey)
    returns (w: World, send: Event, answer: Event)
    ensures Reachable(w) && w.s.pool.shareTokens.pending == [SHARE, SHARE]
    ensures Fair(w, send) && Fair(Next(w, send), answer)
    ensures Apply(w.s, send.action, send.now, send.height).Ok?
    ensures Apply(w.s, send.action, send.now, send.height).value.effects.remote == [Allocation.Redeem("share", 10)]
    ensures answer == AnswerNow(w, third, true) && Next(Next(w, send), answer).s.pool.shareTokens.pending == []
  {
    w := SharesTaken();
    w := ShareSent(w, [], first);
    w := ShareAcked(w, [], first);
    w := ShareSent(w, [SHARE], second);
    w := ShareAcked(w, [SHARE], second);
    assert [] + [SHARE] == [SHARE] && [SHARE] + [SHARE] == [SHARE, SHARE];
    send, answer := Event(DoRedeem([SHARE], third), 0, 0), AnswerNow(w, third, true);
    OneSent(w, send, third);
    OneAnswered(w.s, Next(w, send), third);
  }
}
