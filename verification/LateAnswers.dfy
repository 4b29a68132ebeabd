/** Restake packets and set-up packets are not guarded by the stored status: a second one can be sent while
    the first is out, and then an answer can arrive after the phase it belongs to. This module shows what
    that does, and that overlapping is exactly what it takes. */
module LateAnswers {
  import opened Arith
  import opened Allocation
  import opened PoolTypes
  import opened PoolSteps
  import opened Worlds
  import opened Reachability
  import opened Flight
  import opened Solvency
  import opened BookValue
  import opened Safety
  import opened FirstEra

  // ---- The status moving backwards ----

  /** How far a pool has come, from its registration to the end of the era. */
  function Progress(status: EraStatus): nat {
    match status
    case RegisterEnded => 0
    case InitStarted => 1
    case InitFailed => 1
    case EraUpdateStarted => 2
    case EraUpdateEnded => 3
    case BondStarted => 4
    case BondEnded => 5
    case WithdrawStarted => 6
    case WithdrawEnded => 7
    case RebondStarted => 8
    case RebondEnded => 9
    case ActiveEnded => 10
  }

  /** The packets that can be sent again while they are out. */
  predicate Repeatable(t: TxType) { t == TxEraRebond || t == TxSetWithdrawAddr }

  /** An answer to a restake or a set-up takes the pool back to an earlier phase. */
  predicate MovesBack(w: World, e: Event) {
    && e.action.DoDeliver? && e.action.key in w.s.mail.sudoPayloads
    && Repeatable(w.s.mail.sudoPayloads[e.action.key].txType)
    && Progress(Next(w, e).s.pool.status) < Progress(w.s.pool.status)
  }

  predicate SomeMoveBack(w: World, events: seq<Event>)
    decreases |events|
  {
    events != [] && (MovesBack(w, events[0]) || SomeMoveBack(Next(w, events[0]), events[1..]))
  }

  /** From here an orderly run may lead to such an answer. */
  ghost predicate CanGoBack(w: World) {
    exists events :: AllAllowed(w, events) && SomeMoveBack(w, events)
  }

  /** What an answer to one of the two packets makes of the pool, whatever it finds. */
  function Answered(t: TxType, success: bool): EraStatus
    requires Repeatable(t)
  {
    if t == TxEraRebond then (if success then RebondEnded else WithdrawEnded)
    else if success then ActiveEnded else InitFailed
  }

  lemma AnswerShape(w: World, e: Event)
    requires e.action.DoDeliver? && e.action.key in w.s.mail.sudoPayloads
    requires Repeatable(w.s.mail.sudoPayloads[e.action.key].txType)
    ensures Apply(w.s, e.action, e.now, e.height).Ok?
    ensures var next := Next(w, e); next.now == e.now && next.height == e.height
    ensures Next(w, e).s.pool.status == Answered(w.s.mail.sudoPayloads[e.action.key].txType, e.action.success)
    ensures Next(w, e).s.mail.sudoPayloads == w.s.mail.sudoPayloads - {e.action.key}
  {
  }

  /** Every such packet that is out finds the pool no further than its own phase. */
  predicate NoneLate(s: PoolState) {
    forall key :: key in s.mail.sudoPayloads && Repeatable(s.mail.sudoPayloads[key].txType) ==>
      Progress(s.pool.status) <= Progress(Answered(s.mail.sudoPayloads[key].txType, false))
  }

  lemma NoneLateInFlight(s: PoolState, slot: Option<PacketKey>)
    requires SingleFlight(s, slot)
    ensures NoneLate(s)
  {
    forall key | key in s.mail.sudoPayloads && Repeatable(s.mail.sudoPayloads[key].txType)
      ensures Progress(s.pool.status) <= Progress(Answered(s.mail.sudoPayloads[key].txType, false))
    {
      assert Fits(s.mail.sudoPayloads[key].txType, s.pool);
    }
  }

  lemma NoneGoesBack(w: World, e: Event)
    requires NoneLate(w.s)
    ensures !MovesBack(w, e)
  {
    if MovesBack(w, e) {
      AnswerShape(w, e);
    }
  }

  lemma AnswerInPhase(w: World, e: Event)
    requires SingleFlight(w.s, w.h.slot)
    ensures !MovesBack(w, e)
  {
    NoneLateInFlight(w.s, w.h.slot);
    NoneGoesBack(w, e);
  }

  /** An orderly run never goes back. */
  lemma {:induction false} OrderlyRunForward(w: World, events: seq<Event>)
    requires SingleFlight(w.s, w.h.slot) && AllAllowed(w, events)
    ensures !SomeMoveBack(w, events)
    decreases |events|
  {
    if events != [] {
      AnswerInPhase(w, events[0]);
      SingleFlightKept(w, events[0]);
      OrderlyRunForward(Next(w, events[0]), events[1..]);
    }
  }

  // ---- After an overlap ----

  lemma AnswerAllowed(w: World, key: PacketKey, success: bool)
    requires w.now <= MAX_SECONDS
    ensures Allowed(w, AnswerNow(w, key, success))
  {
  }

  /** A failure that comes after a success goes back. */
  lemma LateFailure(w: World, key: PacketKey)
    requires w.now <= MAX_SECONDS && key in w.s.mail.sudoPayloads
    requires Repeatable(w.s.mail.sudoPayloads[key].txType)
    requires w.s.pool.status == Answered(w.s.mail.sudoPayloads[key].txType, true)
    ensures AllAllowed(w, [AnswerNow(w, key, false)]) && SomeMoveBack(w, [AnswerNow(w, key, false)])
  {
    var e := AnswerNow(w, key, false);
    AnswerAllowed(w, key, false);
    AnswerShape(w, e);
    assert MovesBack(w, e);
    assert [e][1..] == [];
  }

  lemma ThenBack(w: World, e: Event, rest: seq<Event>)
    requires Allowed(w, e) && AllAllowed(Next(w, e), rest) && SomeMoveBack(Next(w, e), rest)
    ensures CanGoBack(w)
  {
    var events := [e] + rest;
    assert events[1..] == rest;
    assert AllAllowed(w, events) && SomeMoveBack(w, events);
  }

  /** Two answers in a row, of which the second goes back. */
  lemma TwoAnswers(w: World, first: PacketKey, second: PacketKey)
    requires w.now <= MAX_SECONDS && first != second
    requires first in w.s.mail.sudoPayloads && second in w.s.mail.sudoPayloads
    requires Repeatable(w.s.mail.sudoPayloads[first].txType)
    requires w.s.mail.sudoPayloads[second].txType == w.s.mail.sudoPayloads[first].txType
    ensures CanGoBack(w)
  {
    var e := AnswerNow(w, first, true);
    AnswerAllowed(w, first, true);
    AnswerShape(w, e);
    LateFailure(Next(w, e), second);
    ThenBack(w, e, [AnswerNow(Next(w, e), second, false)]);
  }

  lemma OneAnswer(w: World, key: PacketKey)
    requires w.now <= MAX_SECONDS && key in w.s.mail.sudoPayloads && w.s.mail.sudoPayloads[key].txType == TxEraRebond
    requires w.s.pool.status == RebondEnded
    ensures CanGoBack(w)
  {
    LateFailure(w, key);
  }

  lemma RebondShape(s: PoolState, a: Action, now: nat, height: nat)
    requires a.DoRebond? && Apply(s, a, now, height).Ok?
    ensures var after := Apply(s, a, now, height).value.state;
      if s.pool.snapshot.restakeAmount == 0
      then after.pool.status == RebondEnded && after.mail.sudoPayloads == s.mail.sudoPayloads
      else after.mail.sudoPayloads == s.mail.sudoPayloads[a.key := SudoPayload("", TxEraRebond)]
  {
  }

  lemma OverlappingRebond(w: World, e: Event)
    requires SingleFlight(w.s, w.h.slot) && Lawful(w, e, CAL_BASE) && Overlaps(w, e) && e.action.DoRebond?
    ensures CanGoBack(Next(w, e))
  {
    var other :| other in w.s.mail.sudoPayloads && w.s.mail.sudoPayloads[other].txType == TxEraRebond;
    NextState(w, e);
    RebondShape(w.s, e.action, e.now, e.height);
    if w.s.pool.snapshot.restakeAmount == 0 {
      OneAnswer(Next(w, e), other);
    } else {
      TwoAnswers(Next(w, e), other, e.action.key);
    }
  }

  lemma RetryShape(s: PoolState, a: Action, now: nat)
    requires a.DoInitPool? || a.DoMigratePool?
    requires ApplyAdmin(s, a, now).Ok? && s.pool.status != RegisterEnded
    ensures s.pool.status == InitFailed
    ensures Key(a).Some?
    ensures ApplyAdmin(s, a, now).value.state == Submit(s, Key(a).value, SudoPayload("", TxSetWithdrawAddr))
  {
  }

  lemma OverlappingRetry(w: World, e: Event)
    requires SingleFlight(w.s, w.h.slot) && Lawful(w, e, CAL_BASE) && Overlaps(w, e) && !e.action.DoRebond?
    ensures CanGoBack(Next(w, e))
  {
    var other :| other in w.s.mail.sudoPayloads && w.s.mail.sudoPayloads[other].txType == TxSetWithdrawAddr;
    assert Fits(TxSetWithdrawAddr, w.s.pool);
    NextState(w, e);
    RetryShape(w.s, e.action, e.now);
    TwoAnswers(Next(w, e), other, Key(e.action).value);
  }

  /** After any message of an orderly run, an answer may go back if and only if that message was a restake
      or a set-up sent while one of its type was out. */
  lemma LateAnswerIffOverlap(w: World, e: Event)
    requires SingleFlight(w.s, w.h.slot) && Lawful(w, e, CAL_BASE)
    ensures CanGoBack(Next(w, e)) <==> Overlaps(w, e)
  {
    if Overlaps(w, e) {
      if e.action.DoRebond? {
        OverlappingRebond(w, e);
      } else {
        OverlappingRetry(w, e);
      }
    } else {
      SingleFlightKept(w, e);
      forall events | AllAllowed(Next(w, e), events) ensures !SomeMoveBack(Next(w, e), events) {
        OrderlyRunForward(Next(w, e), events);
      }
    }
  }

  /** For the restake: whoever sends it has only to see that none is out. */
  lemma RebondAlone(w: World, e: Event)
    requires Reachable(w) && Lawful(w, e, CAL_BASE) && e.action.DoRebond? && Apply(w.s, e.action, e.now, e.height).Ok?
    ensures CanGoBack(Next(w, e)) <==> !NoneOut(w.s, TxEraRebond)
  {
    ReachableSafe(w);
    LateAnswerIffOverlap(w, e);
  }

  /** And for the retry of the set-up. */
  lemma RetryAlone(w: World, e: Event)
    requires Reachable(w) && Lawful(w, e, CAL_BASE) && (e.action.DoInitPool? || e.action.DoMigratePool?)
    requires Apply(w.s, e.action, e.now, e.height).Ok?
    ensures CanGoBack(Next(w, e)) <==> !NoneOut(w.s, TxSetWithdrawAddr)
  {
    ReachableSafe(w);
    LateAnswerIffOverlap(w, e);
  }

  // ---- Over whole runs ----

  /** Somewhere in the run a restake or a set-up is sent while one of its type is out. */
  ghost predicate SomeOverlap(w: World, events: seq<Event>)
    decreases |events|
  {
    events != [] && (Overlaps(w, events[0]) || SomeOverlap(Next(w, events[0]), events[1..]))
  }

  /** At some point of the run an answer could have gone back. */
  ghost predicate EverCanGoBack(w: World, events: seq<Event>)
    decreases |events|
  {
    CanGoBack(w) || (events != [] && EverCanGoBack(Next(w, events[0]), events[1..]))
  }

  lemma CannotGoBack(w: World)
    requires SingleFlight(w.s, w.h.slot)
    ensures !CanGoBack(w)
  {
    forall events | AllAllowed(w, events) ensures !SomeMoveBack(w, events) {
      OrderlyRunForward(w, events);
    }
  }

  lemma {:induction false} BackFrom(w: World, events: seq<Event>)
    requires SingleFlight(w.s, w.h.slot) && AllLawful(w, events, CAL_BASE)
    ensures EverCanGoBack(w, events) <==> SomeOverlap(w, events)
    ensures SomeMoveBack(w, events) ==> SomeOverlap(w, events)
    decreases |events|
  {
    CannotGoBack(w);
    if events != [] {
      var e, rest := events[0], events[1..];
      AnswerInPhase(w, e);
      if Overlaps(w, e) {
        LateAnswerIffOverlap(w, e);
        EverNow(Next(w, e), rest);
      } else {
        SingleFlightKept(w, e);
        BackFrom(Next(w, e), rest);
      }
    }
  }

  lemma EverNow(w: World, events: seq<Event>)
    requires CanGoBack(w)
    ensures EverCanGoBack(w, events)
  {
  }

  /** In a run of a new pool a late answer could at some point take the status back if and only if some
      restake or set-up was sent while one of its type was out; and where one did, that had happened. */
  lemma StatusGoesBackIffOverlap(d: Deployment, now: nat, height: nat, events: seq<Event>)
    requires AllLawful(Genesis(d, now, height), events, CAL_BASE)
    ensures EverCanGoBack(Genesis(d, now, height), events) <==> SomeOverlap(Genesis(d, now, height), events)
    ensures SomeMoveBack(Genesis(d, now, height), events) ==> SomeOverlap(Genesis(d, now, height), events)
  {
    WindowGenesis(d, now, height, 0);
    BackFrom(Genesis(d, now, height), events);
  }

  // ---- A finished era that is opened again ----

  /** Two restake packets. The first is acknowledged and the era is closed; then the second fails, and the
      pool is back in the era, its book already closed. */
  lemma OverlappingRestakes(s: PoolState, selected: seq<string>, first: PacketKey, second: PacketKey,
                            query: Option<DelegationQuery>, now: nat, height: nat)
    requires Rebond(s, selected, first).Ok? && s.pool.snapshot.restakeAmount != 0 && first != second
    ensures Rebond(Rebond(s, selected, first).value.state, selected, second).Ok?
    ensures var twice := Rebond(Rebond(s, selected, first).value.state, selected, second).value.state;
      && Deliver(twice, first, true, now, height).Ok?
      && var done := Deliver(twice, first, true, now, height).value.state;
         && done.pool == s.pool.(status := RebondEnded, snapshot := s.pool.snapshot.(lastStepHeight := height))
         && done.stack == s.stack
         && (EraActive(done, query).Ok? ==>
               var ended := EraActive(done, query).value.state;
               && ended.pool.status == ActiveEnded && ended.pool.snapshot == done.pool.snapshot
               && Deliver(ended, second, false, now, height).Ok?
               && Deliver(ended, second, false, now, height).value.state.pool == ended.pool.(status := WithdrawEnded))
  {
  }

  /** Such a pool accepts the restake again. */
  lemma RestakedAgain(s: PoolState, selected: seq<string>, key: PacketKey, now: nat, height: nat)
    requires s.pool.status == WithdrawEnded && s.pool.snapshot.restakeAmount != 0
    requires selected != [] && AllSupported(selected, s.pool.validators)
    ensures Rebond(s, selected, key).Ok?
    ensures Delegated(Rebond(s, selected, key).value.effects.remote) == s.pool.snapshot.restakeAmount
    ensures var sent := Rebond(s, selected, key).value.state;
      && Deliver(sent, key, true, now, height).Ok?
      && Deliver(sent, key, true, now, height).value.state.pool
         == s.pool.(status := RebondEnded, snapshot := s.pool.snapshot.(lastStepHeight := height))
  {
    SplitConserves(s.pool.snapshot.restakeAmount, selected);
  }

  /** Closing an era with a gain puts the active stake at its book value. */
  lemma GainClosed(s: PoolState, query: Option<DelegationQuery>)
    requires Healthy(s) && EraActive(s, query).Ok? && query.Some? && SumDelegations(query.value.delegations, 0).Ok?
    requires SumDelegations(query.value.delegations, 0).value > s.pool.snapshot.active
    ensures var after := EraActive(s, query).value.state.pool;
      && after.book.active
         == s.pool.book.active + SumDelegations(query.value.delegations, 0).value - s.pool.snapshot.active
      && after.book.bond == s.pool.book.bond && after.book.unbond == s.pool.book.unbond
      && after.snapshot == s.pool.snapshot
  {
    var reported := SumDelegations(query.value.delegations, 0).value;
    var c := EraActiveCloses(s, query);
    if c.keep {
      CorrectionIsRounding(s, reported, c, EraActive(s, query).value.state);
    }
  }

  /** Closing the same era a second time counts its first gain twice: the active stake ends up above its
      book value by exactly what was reported over the snapshot the first time. */
  lemma ClosedTwice(s: PoolState, first: Option<DelegationQuery>, again: PoolState, second: Option<DelegationQuery>,
                    lsm: nat)
    requires Healthy(s) && Balanced(s.pool, lsm) && s.pool.status == RebondEnded
    requires EraActive(s, first).Ok? && first.Some? && SumDelegations(first.value.delegations, 0).Ok?
    requires SumDelegations(first.value.delegations, 0).value > s.pool.snapshot.active
    requires Healthy(again) && again.pool.book == EraActive(s, first).value.state.pool.book
    requires again.pool.snapshot.(lastStepHeight := 0) == s.pool.snapshot.(lastStepHeight := 0)
    requires EraActive(again, second).Ok? && second.Some? && SumDelegations(second.value.delegations, 0).Ok?
    requires SumDelegations(second.value.delegations, 0).value > s.pool.snapshot.active
    ensures var b := s.pool.book;
      EraActive(again, second).value.state.pool.book.active
      == BookTotal(SumDelegations(second.value.delegations, 0).value, b.bond, b.unbond, lsm)
         + (SumDelegations(first.value.delegations, 0).value - s.pool.snapshot.active)
  {
    GainClosed(s, first);
    GainClosed(again, second);
  }

  // ---- A run in which it happens ----

  /** A lawful way from one world to another. */
  ghost predicate Leads(w: World, events: seq<Event>, end: World) {
    AllLawful(w, events, CAL_BASE) && Run(w, events) == end
  }

  lemma {:induction false} LeadsOn(w: World, events: seq<Event>, end: World, e: Event)
    requires Leads(w, events, end) && Lawful(end, e, CAL_BASE)
    ensures Leads(w, events + [e], Next(end, e))
    decreases |events|
  {
    if events == [] {
      assert [e][1..] == [];
      assert events + [e] == [e];
    } else {
      assert (events + [e])[1..] == events[1..] + [e];
      LeadsOn(Next(w, events[0]), events[1..], end, e);
    }
  }

  /** One more message of a run whose state is known. */
  lemma Onward(w: World, events: seq<Event>, before: World, e: Event) returns (more: seq<Event>, after: World)
    requires Leads(w, events, before) && Lawful(before, e, CAL_BASE)
    requires Apply(before.s, e.action, e.now, e.height).Ok?
    ensures Leads(w, more, after) && more == events + [e] && after.now == e.now && after.height == e.height
    ensures after.s == Apply(before.s, e.action, e.now, e.height).value.state
  {
    LeadsOn(w, events, before, e);
    NextState(before, e);
    more, after := events + [e], Next(before, e);
  }

  function Reporting(amount: nat, height: nat): Option<DelegationQuery> {
    Some(DelegationQuery([Delegation("v", amount)], height))
  }

  lemma Reported(amount: nat, height: nat)
    requires amount <= U128_MAX
    ensures SumDelegations(Reporting(amount, height).value.delegations, 0) == Ok(amount)
  {
    assert [Delegation("v", amount)][1..] == [];
  }

  function CollectedPool(): PoolInfo { Collected(ReadyPool(2, 100_000)) }

  function Restaked(height: nat): PoolInfo {
    CollectedPool().(status := RebondEnded, snapshot := EraSnapshot(1, 0, 0, 0, 10, height))
  }

  function Closed(height: nat): PoolInfo {
    Restaked(height).(status := ActiveEnded, book := Book(0, 0, 10, 10_000_000, 1, 1))
  }

  lemma ClosedOnce(s: PoolState)
    requires s.pool == Restaked(4) && s.stack.feeCommission == 0
    ensures EraActive(s, Reporting(10, 5)).Ok? && EraActive(s, Reporting(10, 5)).value.state.pool == Closed(4)
    ensures EraActive(s, Reporting(10, 5)).value.state.mail == s.mail
    ensures var stack := EraActive(s, Reporting(10, 5)).value.state.stack;
      stack.feeCommission == 0 && stack.admin == s.stack.admin
  {
    Reported(10, 5);
    assert EraFees(s.pool, 0, 10) == Ok(Fees(1, 0)) by {
      assert MulDiv(10, 100_000, CAL_BASE) == Ok(1) && MulDiv(1, 0, CAL_BASE) == Ok(0);
    }
    assert MulDiv(10, CAL_BASE, 1) == Ok(10_000_000);
  }

  lemma ClosedAgain(s: PoolState)
    requires s.pool == Restaked(6).(book := Closed(6).book) && s.stack.feeCommission == 0
    ensures EraActive(s, Reporting(20, 7)).Ok?
    ensures EraActive(s, Reporting(20, 7)).value.state.pool.status == ActiveEnded
    ensures EraActive(s, Reporting(20, 7)).value.state.pool.book == Book(0, 0, 30, 30_000_000, 1, 1)
  {
    Reported(20, 7);
    assert EraFees(s.pool, 0, 20) == Ok(Fees(0, 0)) by {
      assert MulDiv(20, 100_000, 10_000_000) == Ok(0) && MulDiv(0, 0, CAL_BASE) == Ok(0);
    }
    assert MulDiv(30, CAL_BASE, 1) == Ok(30_000_000);
  }

  /** A stage of the run: how it got here, and what is stored. */
  ghost predicate Stage(w: World, events: seq<Event>, v: World, pool: PoolInfo, out: map<PacketKey, SudoPayload>,
                        height: nat)
  {
    && Leads(w, events, v) && v.s.pool == pool && v.s.mail.sudoPayloads == out
    && v.s.stack.admin == "admin" && v.s.stack.feeCommission == 0 && v.now == 86400 && v.height == height
  }

  const RESTAKE := SudoPayload("", TxEraRebond)

  lemma RestakeSent(w: World, events: seq<Event>, v: World, pool: PoolInfo, out: map<PacketKey, SudoPayload>,
                    height: nat, key: PacketKey)
    returns (more: seq<Event>, next: World)
    requires Stage(w, events, v, pool, out, height) && key !in out
    requires pool.status == WithdrawEnded && pool.snapshot.restakeAmount == 10 && pool.validators == ["v"]
    ensures Stage(w, more, next, pool, out[key := RESTAKE], height) && events <= more
  {
    var e := Event(DoRebond(["v"], key), 86400, height);
    more, next := Onward(w, events, v, e);
  }

  lemma RestakeAnswered(w: World, events: seq<Event>, v: World, pool: PoolInfo, out: map<PacketKey, SudoPayload>,
                        height: nat, key: PacketKey, success: bool, later: nat)
    returns (more: seq<Event>, next: World)
    requires Stage(w, events, v, pool, out, height) && key in out && out[key] == RESTAKE && height <= later
    ensures Stage(w, more, next, RestakeOutcome(pool, success, later), out - {key}, later)
    ensures more == events + [Event(DoDeliver(key, success), 86400, later)]
  {
    var e := Event(DoDeliver(key, success), 86400, later);
    more, next := Onward(w, events, v, e);
  }

  function RestakeOutcome(p: PoolInfo, success: bool, height: nat): PoolInfo {
    if success then p.(status := RebondEnded, snapshot := p.snapshot.(lastStepHeight := height))
    else p.(status := WithdrawEnded)
  }

  /** Two restakes are sent, the first is acknowledged and the era is closed. */
  lemma EraFinished() returns (w: World, events: seq<Event>, v: World)
    ensures Reachable(w) && Stage(w, events, v, Closed(4), map[Packet(5) := RESTAKE], 5)
    ensures EndsWith(events, Reporting(10, 5))
  {
    w := CollectedWorld(2, 100_000, CAL_BASE);
    events, v := [], w;
    events, v := RestakeSent(w, events, v, CollectedPool(), map[], 3, Packet(4));
    events, v := RestakeSent(w, events, v, CollectedPool(), map[Packet(4) := RESTAKE], 3, Packet(5));
    var out := map[Packet(4) := RESTAKE, Packet(5) := RESTAKE];
    assert map[Packet(4) := RESTAKE][Packet(5) := RESTAKE] == out;
    events, v := RestakeAnswered(w, events, v, CollectedPool(), out, 3, Packet(4), true, 4);
    assert out - {Packet(4)} == map[Packet(5) := RESTAKE];
    events, v := EraClosed(w, events, v);
  }

  /** The last message closes an era with this report of the delegations. */
  predicate EndsWith(events: seq<Event>, query: Option<DelegationQuery>) {
    events != [] && events[|events| - 1].action == DoEraActive(query)
  }

  /** The end of an era as one more message. */
  lemma Closing(w: World, events: seq<Event>, before: World, query: Option<DelegationQuery>, height: nat)
    returns (more: seq<Event>, after: World)
    requires Leads(w, events, before) && before.now <= MAX_SECONDS && before.height <= height
    requires EraActive(before.s, query).Ok?
    ensures Leads(w, more, after) && events <= more && after.now == before.now && after.height == height
    ensures EndsWith(more, query)
    ensures after.s == EraActive(before.s, query).value.state
  {
    more, after := Onward(w, events, before, Event(DoEraActive(query), before.now, height));
  }

  lemma EraClosed(w: World, events: seq<Event>, v: World) returns (more: seq<Event>, next: World)
    requires Stage(w, events, v, Restaked(4), map[Packet(5) := RESTAKE], 4)
    ensures Stage(w, more, next, Closed(4), map[Packet(5) := RESTAKE], 5) && EndsWith(more, Reporting(10, 5))
  {
    ClosedOnce(v.s);
    more, next := Closing(w, events, v, Reporting(10, 5), 5);
  }

  lemma EraClosedAgain(w: World, events: seq<Event>, v: World) returns (more: seq<Event>, next: World)
    requires Stage(w, events, v, Restaked(6).(book := Closed(6).book), map[], 6)
    ensures Leads(w, more, next) && events <= more
    ensures next.s.pool.status == ActiveEnded && next.s.pool.book.active == 30 && EndsWith(more, Reporting(20, 7))
  {
    ClosedAgain(v.s);
    more, next := Closing(w, events, v, Reporting(20, 7), 7);
  }

  /** The second restake fails. */
  lemma EraReopened(w: World, events: seq<Event>, v: World) returns (more: seq<Event>, next: World)
    requires Stage(w, events, v, Closed(4), map[Packet(5) := RESTAKE], 5)
    ensures Stage(w, more, next, Closed(4).(status := WithdrawEnded), map[], 5)
    ensures more == events + [Event(DoDeliver(Packet(5), false), 86400, 5)] && MovesBack(v, more[|events|])
  {
    more, next := RestakeAnswered(w, events, v, Closed(4), map[Packet(5) := RESTAKE], 5, Packet(5), false, 5);
    AnswerShape(v, more[|events|]);
    assert map[Packet(5) := RESTAKE] - {Packet(5)} == map[];
  }

  lemma RestakedOnceMore(w: World, events: seq<Event>, v: World) returns (more: seq<Event>, next: World)
    requires Stage(w, events, v, Closed(4).(status := WithdrawEnded), map[], 5)
    ensures Leads(w, more, next) && events <= more
    ensures next.s.pool.status == ActiveEnded && next.s.pool.book.active == 30 && EndsWith(more, Reporting(20, 7))
  {
    var reopened := Closed(4).(status := WithdrawEnded);
    more, next := RestakeSent(w, events, v, reopened, map[], 5, Packet(6));
    more, next := RestakeAnswered(w, more, next, reopened, map[Packet(6) := RESTAKE], 5, Packet(6), true, 6);
    assert map[Packet(6) := RESTAKE] - {Packet(6)} == map[];
    more, next := EraClosedAgain(w, more, next);
  }

  /** A reachable pool sends its restake of ten twice. The first is acknowledged, and its era ends with ten
      reported and ten booked; then the second fails and the era is open again. It is restaked again, which
      is acknowledged, and closed again: twenty are reported now, and thirty are booked. */
  lemma FinishedEraReopened() returns (w: World, closing: seq<Event>, late: Event, closingAgain: seq<Event>)
    ensures Reachable(w) && AllLawful(w, closing + [late], CAL_BASE) && AllLawful(w, closingAgain, CAL_BASE)
    ensures EndsWith(closing, Reporting(10, 5)) && EndsWith(closingAgain, Reporting(20, 7))
    ensures Run(w, closing).s.pool.status == ActiveEnded && Run(w, closing).s.pool.book.active == 10
    ensures MovesBack(Run(w, closing), late) && Run(w, closing + [late]).s.pool.status == WithdrawEnded
    ensures closing + [late] <= closingAgain
    ensures Run(w, closingAgain).s.pool.status == ActiveEnded && Run(w, closingAgain).s.pool.book.active == 30
  {
    var events, v, last;
    w, closing, v := EraFinished();
    events, last := EraReopened(w, closing, v);
    late := events[|closing|];
    closingAgain, last := RestakedOnceMore(w, events, last);
  }

  // ---- A running pool that fails its set-up ----

  /** The steps of an era, liquid-share stakes and changes of the validator set. */
  predicate NeedsRunningPool(a: Action) {
    || a.DoEraUpdate? || a.DoEraBond? || a.DoCollectWithdraw? || a.DoRebond? || a.DoEraActive?
    || a.DoStakeLsm? || a.DoPoolDelegate? || a.DoAddValidator? || a.DoUpdateValidator? || a.DoRmValidator?
  }

  /** The failure of a set-up packet that is still out puts a pool into InitFailed wherever it is, and then
      none of these is accepted. */
  lemma LateSetupFailure(s: PoolState, key: PacketKey, now: nat, height: nat, a: Action, later: nat, laterHeight: nat)
    requires key in s.mail.sudoPayloads && s.mail.sudoPayloads[key].txType == TxSetWithdrawAddr && NeedsRunningPool(a)
    ensures Deliver(s, key, false, now, height).Ok?
    ensures var after := Deliver(s, key, false, now, height).value.state;
      after.pool == s.pool.(status := InitFailed) && Apply(after, a, later, laterHeight).Err?
  {
  }

  const SETUP := SudoPayload("", TxSetWithdrawAddr)

  function NewPool(): PoolInfo { ReadyPool(2, 100_000) }

  lemma SetupSent(w: World, events: seq<Event>, v: World, out: map<PacketKey, SudoPayload>, key: PacketKey)
    returns (more: seq<Event>, next: World)
    requires Stage(w, events, v, NewPool().(status := InitFailed), out, 1) && key !in out
    ensures Stage(w, more, next, NewPool().(status := InitFailed), out[key := SETUP], 1)
  {
    var params := InitParams(["v"], "fees", 0, 2, Some(100_000), None);
    more, next := Onward(w, events, v, Event(DoInitPool("admin", params, key), 86400, 1));
  }

  lemma SetupAnswered(w: World, events: seq<Event>, v: World, pool: PoolInfo, out: map<PacketKey, SudoPayload>,
                      key: PacketKey, success: bool)
    returns (more: seq<Event>, next: World)
    requires Stage(w, events, v, pool, out, 1) && key in out && out[key] == SETUP
    ensures Stage(w, more, next, pool.(status := if success then ActiveEnded else InitFailed), out - {key}, 1)
    ensures more == events + [Event(DoDeliver(key, success), 86400, 1)]
  {
    more, next := Onward(w, events, v, Event(DoDeliver(key, success), 86400, 1));
  }

  lemma SetupFailedOnce() returns (w: World, events: seq<Event>, v: World)
    ensures Reachable(w) && Stage(w, events, v, NewPool().(status := InitFailed), map[], 1)
  {
    w := Dealt(2, 100_000, CAL_BASE);
    events, v := Onward(w, [], w, Event(DoDeliver(Packet(0), false), 86400, 1));
    assert map[Packet(0) := SETUP] - {Packet(0)} == map[];
  }

  /** The retry is answered, and a user stakes; the other retry is still out. */
  lemma PoolRunning() returns (w: World, events: seq<Event>, v: World)
    ensures Reachable(w)
    ensures Stage(w, events, v, NewPool().(book := Book(100, 0, 100, CAL_BASE, 100, 0)), map[Packet(2) := SETUP], 1)
  {
    w, events, v := SetupFailedOnce();
    events, v := SetupSent(w, events, v, map[], Packet(1));
    events, v := SetupSent(w, events, v, map[Packet(1) := SETUP], Packet(2));
    var out := map[Packet(1) := SETUP, Packet(2) := SETUP];
    assert map[Packet(1) := SETUP][Packet(2) := SETUP] == out;
    events, v := SetupAnswered(w, events, v, NewPool().(status := InitFailed), out, Packet(1), true);
    assert out - {Packet(1)} == map[Packet(2) := SETUP];
    assert MulDiv(100, CAL_BASE, CAL_BASE) == Ok(100);
    events, v := Onward(w, events, v, Event(DoStake("user", 100), 86400, 1));
  }

  /** A reachable pool retries its set-up twice and starts to run with a deposit; then the second retry
      fails and puts it back into InitFailed. */
  lemma RunningPoolFails() returns (w: World, running: seq<Event>, late: Event)
    ensures Reachable(w) && AllLawful(w, running + [late], CAL_BASE)
    ensures Run(w, running).s.pool.status == ActiveEnded && Run(w, running).s.pool.book.bond == 100
    ensures MovesBack(Run(w, running), late) && Run(w, running + [late]).s.pool.status == InitFailed
  {
    var v, more, next;
    w, running, v := PoolRunning();
    late := Event(DoDeliver(Packet(2), false), 86400, 1);
    more, next := SetupAnswered(w, running, v, v.s.pool, map[Packet(2) := SETUP], Packet(2), false);
    NextState(v, late);
  }
}
