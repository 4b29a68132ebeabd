/** Payloads wait for exactly one callback each: reply ids do not repeat within a ring, a payload is
    delivered at most once, and what a failed step or a change of the validator set leaves behind. */
module Callbacks {
  import opened Arith
  import opened Allocation
  import opened Payload
  import opened PoolTypes
  import opened PoolSteps
  import opened Worlds
  import opened Flight

  // ---- Reply ids ----

  const RING: nat := REPLY_ID_RANGE_END - REPLY_ID_RANGE_START + 1

  /** The ids kept for replies. */
  predicate InRing(id: nat) { 1_000_000_000 <= id <= 1_001_000_000 }

  /** The n-th id allocated after the given one. */
  function NthReplyId(id: nat, n: nat): nat {
    if n == 0 then id else NextReplyId(NthReplyId(id, n - 1))
  }

  lemma RingStep(n: nat)
    ensures (n + 1) % RING == if n % RING == RING - 1 then 0 else n % RING + 1
  {
    var q := n / RING;
    assert n == q * RING + n % RING;
    if n % RING == RING - 1 {
      assert n + 1 == (q + 1) * RING;
    } else {
      assert n + 1 == q * RING + (n % RING + 1);
    }
  }

  lemma {:induction false} NthInRing(id: nat, n: nat)
    requires InRing(id)
    ensures InRing(NthReplyId(id, n))
    ensures NthReplyId(id, n) == REPLY_ID_RANGE_START + (id - REPLY_ID_RANGE_START + n) % RING
  {
    if n > 0 {
      NthInRing(id, n - 1);
      RingStep(id - REPLY_ID_RANGE_START + n - 1);
    }
  }

  /** Two allocations get the same id exactly when a whole number of rings lies between them, so any
      1,000,001 in a row are distinct. */
  lemma ReplyIdsRepeat(id: nat, i: nat, j: nat)
    requires InRing(id) && i <= j
    ensures InRing(NthReplyId(id, i))
    ensures NthReplyId(id, i) == NthReplyId(id, j) <==> (j - i) % 1_000_001 == 0
    ensures i < j < i + 1_000_001 ==> NthReplyId(id, i) != NthReplyId(id, j)
  {
    NthInRing(id, i);
    NthInRing(id, j);
    SameRemainder(id - REPLY_ID_RANGE_START + i, id - REPLY_ID_RANGE_START + j);
    if 0 < j - i < 1_000_001 {
      assert (j - i) % RING == j - i;
    }
  }

  lemma SameRemainder(a: nat, b: nat)
    requires a <= b
    ensures a % RING == b % RING <==> (b - a) % RING == 0
  {
    var m, n := a / RING, b / RING;
    assert a == m * RING + a % RING && b == n * RING + b % RING;
    if a % RING == b % RING {
      assert b - a == (n - m) * RING;
    }
  }

  function SubmitAll(s: PoolState, keys: seq<PacketKey>, payloads: seq<SudoPayload>): PoolState
    requires |keys| == |payloads|
    decreases |keys|
  {
    if keys == [] then s
    else Submit(SubmitAll(s, keys[..|keys| - 1], payloads[..|keys| - 1]), keys[|keys| - 1], payloads[|keys| - 1])
  }

  /** Each submission takes the next id of the ring. */
  lemma {:induction false} SubmissionsTakeIds(s: PoolState, keys: seq<PacketKey>, payloads: seq<SudoPayload>)
    requires |keys| == |payloads|
    ensures SubmitAll(s, keys, payloads).mail.latestReplyId == NthReplyId(s.mail.latestReplyId, |keys|)
    decreases |keys|
  {
    if keys != [] {
      SubmissionsTakeIds(s, keys[..|keys| - 1], payloads[..|keys| - 1]);
    }
  }

  /** Of any 1,000,001 submissions in a row none overwrites the payload of another before its reply. */
  lemma {:induction false} SubmissionsKept(s: PoolState, keys: seq<PacketKey>, payloads: seq<SudoPayload>, j: nat)
    requires |keys| == |payloads| <= 1_000_001 && j < |keys| && InRing(s.mail.latestReplyId)
    ensures var id := NthReplyId(s.mail.latestReplyId, j);
      && id in SubmitAll(s, keys, payloads).mail.replyPayloads
      && SubmitAll(s, keys, payloads).mail.replyPayloads[id] == payloads[j]
    decreases |keys|
  {
    var n := |keys| - 1;
    SubmissionsTakeIds(s, keys[..n], payloads[..n]);
    if j < n {
      SubmissionsKept(s, keys[..n], payloads[..n], j);
      ReplyIdsRepeat(s.mail.latestReplyId, j, n);
    }
  }

  // ---- One delivery per payload ----

  function Out(s: PoolState, key: PacketKey): nat {
    if key in s.mail.sudoPayloads then 1 else 0
  }

  /** Whether this message sends a packet under the key, and whether it is a callback that reaches one. */
  function Sends(w: World, e: Event, key: PacketKey): nat {
    if Key(e.action) == Some(key) then Out(Next(w, e).s, key) else 0
  }

  function Fires(w: World, e: Event, key: PacketKey): nat {
    if e.action.DoDeliver? && e.action.key == key && Apply(w.s, e.action, e.now, e.height).Ok? then 1 else 0
  }

  /** Only the packet of a message itself is added. */
  ghost predicate MailGrows(before: PoolState, after: PoolState, key: Option<PacketKey>) {
    forall k :: Some(k) != key ==> (k in before.mail.sudoPayloads <==> k in after.mail.sudoPayloads)
  }

  lemma AdminMail(s: PoolState, a: Action, now: nat)
    requires ByAdmin(a) && ApplyAdmin(s, a, now).Ok?
    ensures MailGrows(s, ApplyAdmin(s, a, now).value.state, Key(a))
  {
  }

  lemma UserMail(s: PoolState, a: Action)
    requires ByUser(a) && ApplyUser(s, a).Ok?
    ensures MailGrows(s, ApplyUser(s, a).value.state, Key(a))
  {
  }

  lemma StepMail(s: PoolState, a: Action, now: nat, height: nat)
    requires a.DoEraUpdate? || a.DoEraBond? || a.DoCollectWithdraw? || a.DoRebond? || a.DoEraActive?
    requires ApplyEra(s, a, now, height).Ok?
    ensures MailGrows(s, ApplyEra(s, a, now, height).value.state, Key(a))
  {
    if a.DoEraBond? {
      EraBondShape(s, a.query, a.selected, now, a.key);
    }
  }

  lemma DeliverMail(s: PoolState, key: PacketKey, success: bool, now: nat, height: nat)
    requires Deliver(s, key, success, now, height).Ok?
    ensures key in s.mail.sudoPayloads
    ensures Deliver(s, key, success, now, height).value.state.mail.sudoPayloads == s.mail.sudoPayloads - {key}
  {
    var s1 := s.(mail := s.mail.(sudoPayloads := s.mail.sudoPayloads - {key}));
    if success {
      CallbackShape(s1, s.mail.sudoPayloads[key], now, height);
    } else {
      FailedCallbackShape(s1, s.mail.sudoPayloads[key]);
    }
  }

  /** Per message: what was out and what is sent is either still out or was delivered. */
  lemma StepBalances(w: World, e: Event, key: PacketKey)
    requires Allowed(w, e)
    ensures Out(Next(w, e).s, key) + Fires(w, e, key) == Out(w.s, key) + Sends(w, e, key)
  {
    var s, a := w.s, e.action;
    if Apply(s, a, e.now, e.height).Ok? {
      if a.DoConfigStack? {
      } else if ByAdmin(a) {
        AdminMail(s, a, e.now);
      } else if ByUser(a) {
        UserMail(s, a);
      } else if a.DoDeliver? {
        DeliverMail(s, a.key, a.success, e.now, e.height);
      } else {
        StepMail(s, a, e.now, e.height);
      }
    }
  }

  function AllSends(w: World, events: seq<Event>, key: PacketKey): nat
    decreases |events|
  {
    if events == [] then 0 else Sends(w, events[0], key) + AllSends(Next(w, events[0]), events[1..], key)
  }

  function AllFires(w: World, events: seq<Event>, key: PacketKey): nat
    decreases |events|
  {
    if events == [] then 0 else Fires(w, events[0], key) + AllFires(Next(w, events[0]), events[1..], key)
  }

  /** Over a whole run each packet sent is answered at most once: those not answered are still out. */
  lemma {:induction false} OneCallbackEach(w: World, events: seq<Event>, key: PacketKey)
    requires AllAllowed(w, events)
    ensures Out(Run(w, events).s, key) + AllFires(w, events, key) == Out(w.s, key) + AllSends(w, events, key)
    decreases |events|
  {
    if events != [] {
      StepBalances(w, events[0], key);
      OneCallbackEach(Next(w, events[0]), events[1..], key);
    }
  }

  // ---- What a failed collection leaves behind ----

  /** A collection that failed is not forgotten: if the next attempt finds nothing to collect, the amount
      of the failed one is restaked although it never arrived. */
  lemma FailedCollectionRestaked(s: PoolState, amount: nat, key: PacketKey, next: PacketKey, selected: seq<string>,
                                 now: nat, height: nat)
    requires s.pool.status == BondEnded && amount > 0 && selected != [] && AllSupported(selected, s.pool.validators)
    ensures var collecting := CollectWithdraw(s, Some(BalanceQuery(amount, s.pool.snapshot.lastStepHeight + 1)), key);
      && collecting.Ok?
      && var failed := Deliver(collecting.value.state, key, false, now, height);
         && failed.Ok? && CollectWithdraw(failed.value.state, None, next).Ok?
         && var empty := CollectWithdraw(failed.value.state, None, next).value.state;
            Rebond(empty, selected, next).Ok? && Delegated(Rebond(empty, selected, next).value.effects.remote) == amount
  {
    SplitConserves(amount, selected);
  }

  /** An empty collection, without a query result or with nothing in it, leads to an empty restake exactly
      when no earlier one has left an amount. */
  lemma EmptyCollection(s: PoolState, query: Option<BalanceQuery>, key: PacketKey)
    requires s.pool.status == BondEnded
    requires query.Some? ==> query.value.amount == 0 && query.value.height > s.pool.snapshot.lastStepHeight
    ensures CollectWithdraw(s, query, key).Ok?
    ensures var after := CollectWithdraw(s, query, key).value.state;
      (Rebond(after, [], key).Ok? && Rebond(after, [], key).value.state.pool.status == RebondEnded)
      <==> s.pool.snapshot.restakeAmount == 0
  {
  }

  // ---- The validator set in a payload ----

  /** The acknowledgement of a validator change restores the very set that was sent, if the names can be
      joined; the failure leaves the new set in place although nothing was redelegated. */
  lemma UpdateAnswered(s: PoolState, sender: string, source: string, target: string, query: Option<DelegationQuery>,
                       key: PacketKey,
                       success: bool, now: nat, height: nat)
    requires UpdateValidator(s, sender, source, target, query, key).Ok? && key !in s.mail.sudoPayloads
    requires key in UpdateValidator(s, sender, source, target, query, key).value.state.mail.sudoPayloads
    requires AllPlain(Without(s.pool.validators, source) + [target])
    ensures var sent := UpdateValidator(s, sender, source, target, query, key).value.state;
      && Deliver(sent, key, success, now, height).Ok?
      && Deliver(sent, key, success, now, height).value.state.pool.validators
         == Without(s.pool.validators, source) + [target]
      && source !in Without(s.pool.validators, source) && source in s.pool.validators
  {
    SplitJoin(Without(s.pool.validators, source) + [target]);
    WithoutIt(s.pool.validators, source);
  }

  /** A validator added while a change is out is kept if and only if the change fails: its success
      overwrites the set with the one that was sent. */
  lemma AddedMeanwhile(s: PoolState, sender: string, source: string, target: string, query: Option<DelegationQuery>,
                       key: PacketKey,
                       v: string, success: bool, now: nat, height: nat)
    requires UpdateValidator(s, sender, source, target, query, key).Ok? && key !in s.mail.sudoPayloads
    requires key in UpdateValidator(s, sender, source, target, query, key).value.state.mail.sudoPayloads
    requires AllPlain(Without(s.pool.validators, source) + [target])
    requires AddValidator(UpdateValidator(s, sender, source, target, query, key).value.state, sender, v).Ok?
    ensures var added :=
      AddValidator(UpdateValidator(s, sender, source, target, query, key).value.state, sender, v).value.state;
      && Deliver(added, key, success, now, height).Ok?
      && (v in Deliver(added, key, success, now, height).value.state.pool.validators <==> !success)
  {
    SplitJoin(Without(s.pool.validators, source) + [target]);
  }

  lemma {:induction false} WithoutIt(vals: seq<string>, v: string)
    ensures v !in Without(vals, v)
    ensures forall u :: u in vals && u != v ==> u in Without(vals, v)
  {
    if vals != [] {
      WithoutIt(vals[1..], v);
      assert vals == [vals[0]] + vals[1..];
    }
  }
}
