/** Collected and restaked amounts over whole runs: what is restaked has been collected, unless an empty
    collection passes over an amount that a failed one has left behind. */
module Restakes {
  import opened Arith
  import opened Allocation
  import opened PoolTypes
  import opened PoolSteps
  import opened Worlds
  import opened Reachability
  import opened Flight
  import opened Safety

  // ---- What an observer writes down ----

  /** The amounts of the collection and of the restake that were sent last, the sums of the acknowledged
      ones, and the amount of the collection that failed in this era. */
  datatype Tally = Tally(collecting: nat, collected: nat, restaking: nat, restaked: nat, failed: nat)

  datatype Counted = Counted(w: World, n: Tally)

  /** An accepted message. */
  function Note(n: Tally, s: PoolState, a: Action, o: Outcome): Tally {
    if a.DoCollectWithdraw? then n.(collecting := SentAmount(o.effects.remote))
    else if a.DoRebond? then n.(restaking := Delegated(o.effects.remote))
    else if a.DoEraUpdate? then n.(failed := 0)
    else if Delivers(s, a, TxEraCollectWithdraw, true) then n.(collected := n.collected + n.collecting)
    else if Delivers(s, a, TxEraCollectWithdraw, false) then n.(failed := n.collecting)
    else if Delivers(s, a, TxEraRebond, true) then n.(restaked := n.restaked + n.restaking)
    else n
  }

  function Step(t: Counted, e: Event): Counted {
    match Apply(t.w.s, e.action, e.now, e.height)
    case Ok(o) => Counted(Next(t.w, e), Note(t.n, t.w.s, e.action, o))
    case Err(_) => Counted(Next(t.w, e), t.n)
  }

  function Start(d: Deployment, now: nat, height: nat): Counted {
    Counted(Genesis(d, now, height), Tally(0, 0, 0, 0, 0))
  }

  // ---- The condition ----

  /** An empty collection is accepted while an amount is left from before, in a pool that can restake. */
  predicate PassesOver(s: PoolState, a: Action) {
    && a.DoCollectWithdraw? && CollectWithdraw(s, a.balance, a.key).Ok?
    && (a.balance.Some? ==> a.balance.value.amount == 0)
    && s.pool.snapshot.restakeAmount != 0 && s.pool.validators != []
  }

  // ---- The invariant ----

  predicate BeforeCollection(status: EraStatus) {
    status == EraUpdateStarted || status == EraUpdateEnded || status == BondStarted || status == BondEnded
  }

  /** The amount waiting to be restaked has been collected; a pool without validators cannot restake. */
  predicate Even(p: PoolInfo, n: Tally) {
    && (BeforeCollection(p.status) ==> p.snapshot.restakeAmount == n.failed)
    && (p.status == WithdrawStarted ==> n.collecting == p.snapshot.restakeAmount)
    && (p.status != WithdrawEnded ==> n.collected == n.restaked)
    && (p.status == WithdrawEnded ==>
          n.collected == n.restaked + p.snapshot.restakeAmount || (p.validators == [] && n.collected == n.restaked))
  }

  /** The restake that is out, if any, is of that amount. */
  ghost predicate Restaking(payloads: map<PacketKey, SudoPayload>, p: PoolInfo, n: Tally) {
    forall k :: k in payloads && payloads[k].txType == TxEraRebond ==>
      p.status == WithdrawEnded && p.validators != [] && n.restaking == p.snapshot.restakeAmount
  }

  ghost predicate EvenState(s: PoolState, n: Tally) {
    Even(s.pool, n) && Restaking(s.mail.sudoPayloads, s.pool, n)
  }

  // ---- What the messages do to it ----

  /** Where in the era the pool is, as far as collections and restakes go. */
  function Part(status: EraStatus): nat {
    if BeforeCollection(status) then 0
    else if status == WithdrawStarted then 1
    else if status == WithdrawEnded then 2 else 3
  }

  /** A message that has nothing to do with them. */
  ghost predicate Apart(s: PoolState, after: PoolState) {
    && Part(after.pool.status) == Part(s.pool.status)
    && (Part(s.pool.status) < 3 ==> after.pool.snapshot.restakeAmount == s.pool.snapshot.restakeAmount)
    && (s.pool.status == WithdrawEnded ==> after.pool.validators == s.pool.validators)
    && (forall k :: k in after.mail.sudoPayloads && after.mail.sudoPayloads[k].txType == TxEraRebond ==>
          k in s.mail.sudoPayloads && s.mail.sudoPayloads[k].txType == TxEraRebond)
  }

  lemma EvenApart(s: PoolState, after: PoolState, n: Tally)
    requires EvenState(s, n) && Apart(s, after)
    ensures EvenState(after, n)
  {
  }

  lemma AdminApart(s: PoolState, a: Action, now: nat)
    requires ByAdmin(a) && ApplyAdmin(s, a, now).Ok? && (Key(a).Some? ==> Key(a).value !in s.mail.sudoPayloads)
    ensures Apart(s, ApplyAdmin(s, a, now).value.state)
  {
  }

  lemma UserApart(s: PoolState, a: Action)
    requires ByUser(a) && ApplyUser(s, a).Ok? && (Key(a).Some? ==> Key(a).value !in s.mail.sudoPayloads)
    ensures Apart(s, ApplyUser(s, a).value.state)
  {
  }

  lemma StepApart(s: PoolState, a: Action, now: nat, height: nat)
    requires (a.DoEraBond? || a.DoEraActive?) && ApplyEra(s, a, now, height).Ok?
    requires Key(a).Some? ==> Key(a).value !in s.mail.sudoPayloads
    ensures Apart(s, ApplyEra(s, a, now, height).value.state)
  {
    if a.DoEraBond? {
      EraBondShape(s, a.query, a.selected, now, a.key);
    }
  }

  lemma EraUpdateEven(s: PoolState, now: nat, height: nat, key: PacketKey, n: Tally)
    requires EvenState(s, n) && EraUpdate(s, now, height, key).Ok? && key !in s.mail.sudoPayloads
    ensures EvenState(EraUpdate(s, now, height, key).value.state, n.(failed := 0))
  {
  }

  lemma CollectEven(s: PoolState, a: Action, n: Tally)
    requires a.DoCollectWithdraw? && EvenState(s, n) && CollectWithdraw(s, a.balance, a.key).Ok?
    requires a.key !in s.mail.sudoPayloads && !PassesOver(s, a)
    ensures var o := CollectWithdraw(s, a.balance, a.key).value;
      EvenState(o.state, n.(collecting := SentAmount(o.effects.remote)))
  {
  }

  lemma RebondEven(s: PoolState, a: Action, n: Tally)
    requires a.DoRebond? && EvenState(s, n) && Rebond(s, a.selected, a.key).Ok?
    requires a.key !in s.mail.sudoPayloads && NoneOut(s, TxEraRebond)
    ensures var o := Rebond(s, a.selected, a.key).value;
      EvenState(o.state, n.(restaking := Delegated(o.effects.remote)))
  {
    if s.pool.snapshot.restakeAmount != 0 {
      SplitConserves(s.pool.snapshot.restakeAmount, a.selected);
      assert a.selected[0] in s.pool.validators;
    }
  }

  lemma CollectAnswerEven(s: PoolState, slot: Option<PacketKey>, key: PacketKey, success: bool, now: nat, height: nat,
                          n: Tally)
    requires SingleFlight(s, slot) && EvenState(s, n) && Deliver(s, key, success, now, height).Ok?
    requires s.mail.sudoPayloads[key].txType == TxEraCollectWithdraw
    ensures EvenState(Deliver(s, key, success, now, height).value.state,
                      if success then n.(collected := n.collected + n.collecting) else n.(failed := n.collecting))
  {
    assert Fits(s.mail.sudoPayloads[key].txType, s.pool);
  }

  lemma RebondAnswerEven(s: PoolState, slot: Option<PacketKey>, key: PacketKey, success: bool, now: nat, height: nat,
                         n: Tally)
    requires SingleFlight(s, slot) && EvenState(s, n) && Deliver(s, key, success, now, height).Ok?
    requires s.mail.sudoPayloads[key].txType == TxEraRebond
    ensures EvenState(Deliver(s, key, success, now, height).value.state,
                      if success then n.(restaked := n.restaked + n.restaking) else n)
  {
    assert Fits(s.mail.sudoPayloads[key].txType, s.pool);
  }

  lemma EraUpdateFailedEven(s: PoolState, slot: Option<PacketKey>, key: PacketKey, now: nat, height: nat, n: Tally)
    requires SingleFlight(s, slot) && EvenState(s, n) && Deliver(s, key, false, now, height).Ok?
    requires s.mail.sudoPayloads[key].txType == TxEraUpdate
    ensures EvenState(Deliver(s, key, false, now, height).value.state, n)
  {
    assert Fits(s.mail.sudoPayloads[key].txType, s.pool);
  }

  /** The answers to the other packets. */
  lemma SuccessApart(s: PoolState, slot: Option<PacketKey>, key: PacketKey, now: nat, height: nat)
    requires SingleFlight(s, slot) && Deliver(s, key, true, now, height).Ok?
    requires s.mail.sudoPayloads[key].txType != TxEraCollectWithdraw && s.mail.sudoPayloads[key].txType != TxEraRebond
    ensures Apart(s, Deliver(s, key, true, now, height).value.state)
  {
    assert Fits(s.mail.sudoPayloads[key].txType, s.pool);
  }

  lemma FailureApart(s: PoolState, slot: Option<PacketKey>, key: PacketKey, now: nat, height: nat)
    requires SingleFlight(s, slot) && Deliver(s, key, false, now, height).Ok?
    requires s.mail.sudoPayloads[key].txType != TxEraCollectWithdraw && s.mail.sudoPayloads[key].txType != TxEraRebond
    requires s.mail.sudoPayloads[key].txType != TxEraUpdate
    ensures Apart(s, Deliver(s, key, false, now, height).value.state)
  {
    assert Fits(s.mail.sudoPayloads[key].txType, s.pool);
  }

  lemma AnswerEven(s: PoolState, slot: Option<PacketKey>, a: Action, now: nat, height: nat, n: Tally)
    requires SingleFlight(s, slot) && EvenState(s, n) && a.DoDeliver? && Deliver(s, a.key, a.success, now, height).Ok?
    ensures var o := Deliver(s, a.key, a.success, now, height).value; EvenState(o.state, Note(n, s, a, o))
  {
    var t := s.mail.sudoPayloads[a.key].txType;
    if t == TxEraCollectWithdraw {
      CollectAnswerEven(s, slot, a.key, a.success, now, height, n);
    } else if t == TxEraRebond {
      RebondAnswerEven(s, slot, a.key, a.success, now, height, n);
    } else if a.success {
      SuccessApart(s, slot, a.key, now, height);
      EvenApart(s, Deliver(s, a.key, a.success, now, height).value.state, n);
    } else if t == TxEraUpdate {
      EraUpdateFailedEven(s, slot, a.key, now, height, n);
    } else {
      FailureApart(s, slot, a.key, now, height);
      EvenApart(s, Deliver(s, a.key, a.success, now, height).value.state, n);
    }
  }

  lemma QuietEven(s: PoolState, a: Action, now: nat, height: nat, n: Tally)
    requires EvenState(s, n) && Apply(s, a, now, height).Ok? && (Key(a).Some? ==> Key(a).value !in s.mail.sudoPayloads)
    requires !a.DoEraUpdate? && !a.DoCollectWithdraw? && !a.DoRebond? && !a.DoDeliver?
    ensures EvenState(Apply(s, a, now, height).value.state, n)
  {
    if a.DoConfigStack? {
    } else if ByAdmin(a) {
      AdminApart(s, a, now);
      EvenApart(s, ApplyAdmin(s, a, now).value.state, n);
    } else if ByUser(a) {
      UserApart(s, a);
      EvenApart(s, ApplyUser(s, a).value.state, n);
    } else {
      StepApart(s, a, now, height);
      EvenApart(s, ApplyEra(s, a, now, height).value.state, n);
    }
  }

  /** Unless it passes over an amount, every message keeps the two sums even. */
  lemma MessageEven(s: PoolState, slot: Option<PacketKey>, a: Action, now: nat, height: nat, n: Tally)
    requires SingleFlight(s, slot) && EvenState(s, n) && Apply(s, a, now, height).Ok? && Alone(s, a)
    requires Key(a).Some? ==> Key(a).value !in s.mail.sudoPayloads
    requires !PassesOver(s, a)
    ensures var o := Apply(s, a, now, height).value; EvenState(o.state, Note(n, s, a, o))
  {
    if a.DoEraUpdate? {
      EraUpdateEven(s, now, height, a.key, n);
    } else if a.DoCollectWithdraw? {
      CollectEven(s, a, n);
    } else if a.DoRebond? {
      RebondEven(s, a, n);
    } else if a.DoDeliver? {
      AnswerEven(s, slot, a, now, height, n);
    } else {
      QuietEven(s, a, now, height, n);
    }
  }

  // ---- Whole runs ----

  ghost predicate InOrder(t: Counted) {
    SingleFlight(t.w.s, t.w.h.slot) && EvenState(t.w.s, t.n)
  }

  lemma EvenKept(t: Counted, e: Event)
    requires InOrder(t) && Allowed(t.w, e) && !PassesOver(t.w.s, e.action)
    ensures InOrder(Step(t, e))
  {
    SingleFlightKept(t.w, e);
    if Apply(t.w.s, e.action, e.now, e.height).Ok? {
      NextState(t.w, e);
      MessageEven(t.w.s, t.w.h.slot, e.action, e.now, e.height, t.n);
    }
  }

  function Follow(t: Counted, events: seq<Event>): Counted
    decreases |events|
  {
    if events == [] then t else Follow(Step(t, events[0]), events[1..])
  }

  predicate SomePassesOver(w: World, events: seq<Event>)
    decreases |events|
  {
    events != [] && (PassesOver(w.s, events[0].action) || SomePassesOver(Next(w, events[0]), events[1..]))
  }

  predicate Exceeds(t: Counted) { t.n.restaked > t.n.collected }

  /** Some way on, without passing over another amount, leads to where more has been restaked than collected. */
  ghost predicate CanExceed(t: Counted) {
    exists events :: AllAllowed(t.w, events) && !SomePassesOver(t.w, events) && Exceeds(Follow(t, events))
  }

  ghost predicate EverCanExceed(t: Counted, events: seq<Event>)
    decreases |events|
  {
    CanExceed(t) || (events != [] && EverCanExceed(Step(t, events[0]), events[1..]))
  }

  lemma {:induction false} InOrderAlong(t: Counted, events: seq<Event>)
    requires InOrder(t) && AllAllowed(t.w, events) && !SomePassesOver(t.w, events)
    ensures InOrder(Follow(t, events))
    decreases |events|
  {
    if events != [] {
      EvenKept(t, events[0]);
      InOrderAlong(Step(t, events[0]), events[1..]);
    }
  }

  lemma CannotExceed(t: Counted)
    requires InOrder(t)
    ensures !CanExceed(t)
  {
    forall events | AllAllowed(t.w, events) && !SomePassesOver(t.w, events) ensures !Exceeds(Follow(t, events)) {
      InOrderAlong(t, events);
    }
  }

  // ---- Passing over an amount leads to too much being restaked ----

  lemma PassedOver(t: Counted, e: Event)
    requires InOrder(t) && Allowed(t.w, e) && PassesOver(t.w.s, e.action)
    ensures var s, next := t.w.s, Step(t, e);
      && next.w.s == s.(pool := s.pool.(status := WithdrawEnded)) && next.w.now == e.now
      && next.n.restaked == next.n.collected && NoneOut(s, TxEraRebond)
  {
    NextState(t.w, e);
  }

  lemma RestakeSent(t: Counted, e: Event, key: PacketKey)
    requires t.w.s.pool.validators != []
    requires e == Event(DoRebond([t.w.s.pool.validators[0]], key), t.w.now, t.w.height)
    requires t.w.s.pool.status == WithdrawEnded && t.w.s.pool.snapshot.restakeAmount != 0 && t.w.now <= MAX_SECONDS
    requires key !in t.w.s.mail.sudoPayloads && NoneOut(t.w.s, TxEraRebond)
    ensures Allowed(t.w, e) && !PassesOver(t.w.s, e.action)
    ensures var s, next := t.w.s, Step(t, e);
      && key in next.w.s.mail.sudoPayloads && next.w.s.mail.sudoPayloads[key].txType == TxEraRebond
      && next.n == t.n.(restaking := s.pool.snapshot.restakeAmount) && next.w.now == t.w.now
  {
    NextState(t.w, e);
    SplitConserves(t.w.s.pool.snapshot.restakeAmount, [t.w.s.pool.validators[0]]);
  }

  lemma RestakeAcknowledged(t: Counted, key: PacketKey)
    requires key in t.w.s.mail.sudoPayloads && t.w.s.mail.sudoPayloads[key].txType == TxEraRebond
    requires t.w.now <= MAX_SECONDS
    ensures var e := AnswerNow(t.w, key, true);
      && Allowed(t.w, e) && !PassesOver(t.w.s, e.action)
      && Step(t, e).n == t.n.(restaked := t.n.restaked + t.n.restaking)
  {
  }

  lemma ExceedsNow(t: Counted)
    requires Exceeds(t)
    ensures CanExceed(t)
  {
    assert AllAllowed(t.w, []) && !SomePassesOver(t.w, []) && Follow(t, []) == t;
  }

  lemma ExceedsNext(t: Counted, e: Event)
    requires Allowed(t.w, e) && !PassesOver(t.w.s, e.action) && CanExceed(Step(t, e))
    ensures CanExceed(t)
  {
    var rest :| AllAllowed(Next(t.w, e), rest) && !SomePassesOver(Next(t.w, e), rest)
      && Exceeds(Follow(Step(t, e), rest));
    var events := [e] + rest;
    assert events[1..] == rest;
    assert AllAllowed(t.w, events) && !SomePassesOver(t.w, events) && Follow(t, events) == Follow(Step(t, e), rest);
  }

  /** The restake that makes it happen. */
  lemma Restake(t: Counted, key: PacketKey)
    requires t.w.s.pool.validators != [] && t.w.s.pool.status == WithdrawEnded && t.n.restaked == t.n.collected
    requires t.w.s.pool.snapshot.restakeAmount != 0 && t.w.now <= MAX_SECONDS
    requires key !in t.w.s.mail.sudoPayloads && NoneOut(t.w.s, TxEraRebond)
    ensures CanExceed(t)
  {
    var e := Event(DoRebond([t.w.s.pool.validators[0]], key), t.w.now, t.w.height);
    RestakeSent(t, e, key);
    RestakeAcknowledged(Step(t, e), key);
    ExceedsNow(Step(Step(t, e), AnswerNow(Step(t, e).w, key, true)));
    ExceedsNext(Step(t, e), AnswerNow(Step(t, e).w, key, true));
    ExceedsNext(t, e);
  }

  lemma PassingExceeds(t: Counted, e: Event)
    requires InOrder(t) && Allowed(t.w, e) && PassesOver(t.w.s, e.action)
    ensures CanExceed(Step(t, e))
  {
    PassedOver(t, e);
    Restake(Step(t, e), e.action.key);
  }

  /** While the sums are even, a message opens a way to restaking more than was collected if and only if it
      is an empty collection that passes over an amount. */
  lemma ExceedIffPassesOver(t: Counted, e: Event)
    requires InOrder(t) && Allowed(t.w, e)
    ensures CanExceed(Step(t, e)) <==> PassesOver(t.w.s, e.action)
  {
    if PassesOver(t.w.s, e.action) {
      PassingExceeds(t, e);
    } else {
      EvenKept(t, e);
      CannotExceed(Step(t, e));
    }
  }

  /** What it passes over is the amount of the collection that failed in this era. */
  lemma PassesOverFailed(t: Counted, e: Event)
    requires InOrder(t) && PassesOver(t.w.s, e.action)
    ensures t.w.s.pool.snapshot.restakeAmount == t.n.failed > 0
  {
  }

  lemma {:induction false} ExceedsFrom(t: Counted, events: seq<Event>)
    requires InOrder(t) && AllAllowed(t.w, events)
    ensures EverCanExceed(t, events) <==> SomePassesOver(t.w, events)
    ensures !SomePassesOver(t.w, events) ==> InOrder(Follow(t, events))
    decreases |events|
  {
    CannotExceed(t);
    if events != [] {
      var e, rest := events[0], events[1..];
      ExceedIffPassesOver(t, e);
      if !PassesOver(t.w.s, e.action) {
        EvenKept(t, e);
        ExceedsFrom(Step(t, e), rest);
      }
    }
  }

  /** Over every run of a new pool: more could at some point be restaked than was collected if and only if an
      empty collection passed over the amount of a failed one; and otherwise all that was collected has been
      restaked, but for the amount that is waiting. */
  lemma RestakesWithinCollections(d: Deployment, now: nat, height: nat, events: seq<Event>)
    requires AllAllowed(Genesis(d, now, height), events)
    ensures EverCanExceed(Start(d, now, height), events) <==> SomePassesOver(Genesis(d, now, height), events)
    ensures !SomePassesOver(Genesis(d, now, height), events) ==>
      var end := Follow(Start(d, now, height), events);
      && end.n.restaked <= end.n.collected <= end.n.restaked + end.w.s.pool.snapshot.restakeAmount
      && (end.w.s.pool.status != WithdrawEnded ==> end.n.restaked == end.n.collected)
  {
    WindowGenesis(d, now, height, 0);
    ExceedsFrom(Start(d, now, height), events);
  }
}
