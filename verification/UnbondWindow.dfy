/** The window of recent undelegations. The host chain accepts seven per validator and unbonding period;
    the pool keeps the times of the acknowledged ones and drops the old ones as it allocates. Over every
    run the list of a validator is sorted, has at most seven entries, and the eighth undelegation is
    submitted more than one unbonding period after the first was acknowledged. */
module UnbondWindow {
  import opened Arith
  import opened Sums
  import opened Allocation
  import opened Payload
  import opened PoolTypes
  import opened PoolSteps
  import opened Worlds
  import opened Flight

  predicate Sorted(xs: seq<nat>) {
    forall i, j :: 0 <= i < j < |xs| ==> xs[i] <= xs[j]
  }

  predicate UpTo(xs: seq<nat>, now: nat) {
    forall i :: 0 <= i < |xs| ==> xs[i] <= now
  }

  /** The stored list is the end of the list of all acknowledgements; what was dropped from it is more
      than `span` old. */
  predicate Remembers(stored: seq<nat>, acks: seq<nat>, now: nat, span: nat) {
    && |stored| <= 7 && |stored| <= |acks| && stored == acks[|acks| - |stored|..]
    && (forall k :: 0 <= k < |acks| - |stored| ==> acks[k] + span < now)
  }

  /** Any eight undelegations in a row: the last is submitted more than `span` after the first is
      acknowledged. */
  predicate Spaced(acks: seq<nat>, submits: seq<nat>, span: nat) {
    |submits| == |acks| && forall k :: 0 <= k < |acks| - 7 ==> acks[k] + span < submits[k + 7]
  }

  predicate ValidatorOk(stored: seq<nat>, acks: seq<nat>, submits: seq<nat>, now: nat, span: nat) {
    Sorted(acks) && UpTo(acks, now) && Remembers(stored, acks, now, span) && Spaced(acks, submits, span)
  }

  predicate WindowOk(times: Times, acks: Times, submits: Times, now: nat, span: nat) {
    && acks.Keys == times.Keys && submits.Keys == times.Keys
    && forall v :: v in times ==> ValidatorOk(times[v], acks[v], submits[v], now, span)
  }

  lemma LaterOk(times: Times, acks: Times, submits: Times, now: nat, later: nat, span: nat)
    requires WindowOk(times, acks, submits, now, span) && now <= later
    ensures WindowOk(times, acks, submits, later, span)
  {
    forall v | v in times ensures ValidatorOk(times[v], acks[v], submits[v], later, span) {
      assert ValidatorOk(times[v], acks[v], submits[v], now, span);
    }
  }

  /** What the host chain asks of a validator's undelegations, and what the stored list is like: in
      order, at most seven, and of any eight in a row the last is submitted more than `span` after the
      first is acknowledged. */
  predicate WithinLimit(stored: seq<nat>, acks: seq<nat>, submits: seq<nat>, span: nat) {
    && |stored| <= 7 && (forall i, j :: 0 <= i < j < |stored| ==> stored[i] <= stored[j])
    && |submits| == |acks| && (forall k :: 0 <= k < |acks| - 7 ==> submits[k + 7] > acks[k] + span)
  }

  lemma ValidatorWithin(times: Times, acks: Times, submits: Times, now: nat, span: nat, v: string)
    requires WindowOk(times, acks, submits, now, span) && v in times
    ensures WithinLimit(times[v], acks[v], submits[v], span)
  {
    assert ValidatorOk(times[v], acks[v], submits[v], now, span);
  }

  /** Fewer than seven undelegations within the period, counted over all that were ever acknowledged. */
  predicate FewRecent(acks: Times, v: string, now: nat, period: nat) {
    v !in acks || |acks[v]| < 7 || now > acks[v][|acks[v]| - 7] + period
  }

  /** Then the stored times let the validator be used. */
  lemma FewRecentEligible(times: Times, acks: Times, submits: Times, at: nat, span: nat, v: string, now: nat,
                          period: nat)
    requires WindowOk(times, acks, submits, at, span) && FewRecent(acks, v, now, period)
    ensures Eligible(times, v, now, period)
  {
    if v in times {
      assert ValidatorOk(times[v], acks[v], submits[v], at, span);
    }
  }

  // ---- Dropping old entries ----

  lemma TailOk(stored: seq<nat>, acks: seq<nat>, submits: seq<nat>, now: nat, span: nat)
    requires ValidatorOk(stored, acks, submits, now, span) && stored != [] && stored[0] + span < now
    ensures ValidatorOk(stored[1..], acks, submits, now, span)
  {
  }

  lemma DropOk(times: Times, acks: Times, submits: Times, v: string, now: nat, span: nat)
    requires WindowOk(times, acks, submits, now, span) && v in times && times[v] != [] && times[v][0] + span < now
    ensures WindowOk(times[v := times[v][1..]], acks, submits, now, span)
  {
    TailOk(times[v], acks[v], submits[v], now, span);
    forall u | u in times && u != v ensures ValidatorOk(times[u], acks[u], submits[u], now, span) {
    }
  }

  lemma VisitOk(times: Times, acks: Times, submits: Times, v: string, now: nat, period: nat, span: nat)
    requires WindowOk(times, acks, submits, now, span) && span <= period && Visit(times, v, now, period).Ok?
    ensures WindowOk(Visit(times, v, now, period).value, acks, submits, now, span)
  {
    if Visit(times, v, now, period).value != times {
      DropOk(times, acks, submits, v, now, span);
    }
  }

  /** A visit only shortens. */
  lemma VisitShortens(times: Times, v: string, now: nat, period: nat)
    requires Visit(times, v, now, period).Ok?
    ensures var visited := Visit(times, v, now, period).value;
      visited.Keys == times.Keys && forall u :: u in times ==> |visited[u]| <= |times[u]|
  {
  }

  /** Whoever is chosen has room for one more. */
  predicate Room(times: Times, v: string) {
    v in times ==> |times[v]| < 7
  }

  lemma {:induction false} AllotOk(ds: seq<Delegation>, remaining: nat, times: Times, acks: Times, submits: Times,
                                  now: nat, period: nat, span: nat)
    requires WindowOk(times, acks, submits, now, span) && span <= period && Allot(ds, remaining, times, now, period).Ok?
    ensures var g := Allot(ds, remaining, times, now, period).value;
      && WindowOk(g.times, acks, submits, now, span)
      && g.times.Keys == times.Keys && (forall u :: u in times ==> |g.times[u]| <= |times[u]|)
      && (forall v :: v in InfoNames(g.infos) ==> Room(g.times, v))
  {
    if ds != [] && remaining != 0 {
      assert ds == [ds[0]] + ds[1..];
      AllotStep(ds[0], ds[1..], remaining, times, now, period);
      VisitOk(times, acks, submits, ds[0].validator, now, period, span);
      VisitShortens(times, ds[0].validator, now, period);
      var visited := Visit(times, ds[0].validator, now, period).value;
      if Blocked(visited, ds[0].validator) {
        AllotOk(ds[1..], remaining, visited, acks, submits, now, period, span);
      } else {
        var take := if ds[0].amount < remaining then ds[0].amount else remaining;
        AllotOk(ds[1..], remaining - take, visited, acks, submits, now, period, span);
      }
    }
  }

  // ---- The names in the payload ----

  predicate NamesOk(vals: seq<string>) {
    AllPlain(vals) && Distinct(vals) && "" !in vals
  }

  lemma {:induction false} ValidatorsNames(infos: seq<UnbondInfo>)
    ensures forall v :: v in Validators(infos) <==> v in InfoNames(infos)
    ensures NoDupInfos(infos) ==> Distinct(Validators(infos))
  {
    if infos != [] {
      ValidatorsNames(infos[1..]);
      assert Validators(infos) == [infos[0].validator] + Validators(infos[1..]);
    }
  }

  lemma {:induction false} NamesProper(ds: seq<Delegation>, v: string)
    requires forall i :: 0 <= i < |ds| ==> Plain(ds[i].validator) && ds[i].validator != ""
    requires v in Names(ds)
    ensures Plain(v) && v != ""
  {
    if ds[0].validator != v {
      NamesProper(ds[1..], v);
    }
  }

  lemma {:induction false} BondedIsValidators(infos: seq<UnbondInfo>)
    ensures Bonded(Undelegations(infos)) == Validators(infos)
  {
    if infos != [] {
      BondedIsValidators(infos[1..]);
      assert Undelegations(infos)[1..] == Undelegations(infos[1..]);
    }
  }

  lemma {:induction false} BondsNothing(msgs: seq<RemoteMsg>)
    requires NoUndelegation(msgs)
    ensures Bonded(msgs) == []
  {
    if msgs != [] {
      BondsNothing(msgs[1..]);
    }
  }

  lemma DepositBondsNothing(amount: nat, vals: seq<string>)
    ensures Bonded(Shares(amount, vals, 0)) == [] && Bonded(Small(amount, vals, 0)) == []
  {
    SharesOnlyDelegate(amount, vals, 0);
    SmallOnlyDelegates(amount, vals, 0);
    BondsNothing(Shares(amount, vals, 0));
    BondsNothing(Small(amount, vals, 0));
  }

  /** The names come back from the payload, also when there are none. */
  lemma PayloadNames(vals: seq<string>)
    requires NamesOk(vals)
    ensures |Join(vals)| > 0 <==> vals != []
    ensures vals != [] ==> Split(Join(vals)) == vals
  {
    SplitJoin(vals);
    if vals != [] {
      assert vals[0] in vals;
    }
  }

  // ---- Noting acknowledgements ----

  /** The undelegations that are out may be noted. */
  predicate Pending(times: Times, acks: Times, bonding: seq<string>, sentAt: nat, span: nat) {
    forall v :: v in bonding && v in times ==>
      && |times[v]| < 7
      && v in acks && (|acks[v]| >= 7 ==> acks[v][|acks[v]| - 7] + span < sentAt)
  }

  lemma RoomIsPending(times: Times, acks: Times, submits: Times, bonding: seq<string>, now: nat, span: nat)
    requires WindowOk(times, acks, submits, now, span) && forall v :: v in bonding ==> Room(times, v)
    ensures Pending(times, acks, bonding, now, span)
  {
    forall v | v in bonding && v in times
      ensures |times[v]| < 7
      ensures v in acks && (|acks[v]| >= 7 ==> acks[v][|acks[v]| - 7] + span < now)
    {
      assert Room(times, v) && ValidatorOk(times[v], acks[v], submits[v], now, span);
    }
  }

  lemma NotedOk(stored: seq<nat>, acks: seq<nat>, submits: seq<nat>, now: nat, sentAt: nat, span: nat)
    requires ValidatorOk(stored, acks, submits, now, span) && |stored| < 7
    requires |acks| >= 7 ==> acks[|acks| - 7] + span < sentAt
    ensures ValidatorOk(stored + [now], acks + [now], submits + [sentAt], now, span)
  {
    assert (acks + [now])[|acks| - |stored|..] == acks[|acks| - |stored|..] + [now];
  }

  function Past(times: Times, v: string): seq<nat> {
    if v in times then times[v] else []
  }

  /** Noting one acknowledgement. */
  lemma NoteOne(times: Times, acks: Times, submits: Times, v: string, now: nat, sentAt: nat, span: nat)
    requires WindowOk(times, acks, submits, now, span) && Pending(times, acks, [v], sentAt, span)
    ensures WindowOk(times[v := Past(times, v) + [now]], acks[v := Past(acks, v) + [now]],
                     submits[v := Past(submits, v) + [sentAt]], now, span)
  {
    if v in times {
      assert v in [v];
      NotedOk(times[v], acks[v], submits[v], now, sentAt, span);
    } else {
      NotedOk([], [], [], now, sentAt, span);
    }
  }

  lemma PendingRest(times: Times, acks: Times, vals: seq<string>, now: nat, sentAt: nat, span: nat)
    requires vals != [] && Distinct(vals) && Pending(times, acks, vals, sentAt, span)
    ensures Pending(times, acks, [vals[0]], sentAt, span)
    ensures Pending(times[vals[0] := Past(times, vals[0]) + [now]], acks[vals[0] := Past(acks, vals[0]) + [now]],
                    vals[1..], sentAt, span)
  {
    assert forall v :: v in vals[1..] ==> v in vals && v != vals[0];
  }

  lemma {:induction false} StampOk(times: Times, acks: Times, submits: Times, vals: seq<string>, now: nat,
                                  sentAt: nat, span: nat)
    requires WindowOk(times, acks, submits, now, span) && Distinct(vals) && Pending(times, acks, vals, sentAt, span)
    ensures WindowOk(Stamp(times, vals, now), Stamp(acks, vals, now), Stamp(submits, vals, sentAt), now, span)
    decreases |vals|
  {
    if vals != [] {
      PendingRest(times, acks, vals, now, sentAt, span);
      NoteOne(times, acks, submits, vals[0], now, sentAt, span);
      StampOk(times[vals[0] := Past(times, vals[0]) + [now]], acks[vals[0] := Past(acks, vals[0]) + [now]],
              submits[vals[0] := Past(submits, vals[0]) + [sentAt]], vals[1..], now, sentAt, span);
    }
  }

  lemma LoggedNone(times: Times, now: nat)
    ensures Logged(times, [], now) == times
  {
    forall v | v in times ensures Logged(times, [], now)[v] == times[v] {
      assert times[v] + [] == times[v];
    }
  }

  lemma LoggedOne(times: Times, v: string, rest: seq<string>, now: nat)
    requires v !in rest
    ensures Logged(times[v := Past(times, v) + [now]], rest, now) == Logged(times, [v] + rest, now)
  {
    var next := times[v := Past(times, v) + [now]];
    var one, all := Logged(next, rest, now), Logged(times, [v] + rest, now);
    forall u ensures u in one <==> u in all {
    }
    forall u | u in one ensures one[u] == all[u] {
      if u == v {
        assert next[v] + [] == next[v];
      }
    }
  }

  /** What the acknowledgement stores is one more time for each validator named. */
  lemma {:induction false} StampLogged(times: Times, vals: seq<string>, now: nat)
    requires Distinct(vals)
    ensures Stamp(times, vals, now) == Logged(times, vals, now)
    decreases |vals|
  {
    if vals == [] {
      LoggedNone(times, now);
    } else {
      var v, rest := vals[0], vals[1..];
      assert vals == [v] + rest;
      assert v !in rest;
      StampLogged(times[v := Past(times, v) + [now]], rest, now);
      LoggedOne(times, v, rest, now);
    }
  }

  // ---- The messages of the pool ----

  predicate Promised(times: Times, h: Window, span: nat) {
    NamesOk(h.bonding) && Pending(times, h.acks, h.bonding, h.sentAt, span)
  }

  /** The bond packet that is out names the undelegations it carries, and each of them may be noted. */
  ghost predicate Pledged(payloads: map<PacketKey, SudoPayload>, times: Times, h: Window, span: nat) {
    forall k :: k in payloads && payloads[k].txType == TxEraBond ==>
      payloads[k].message == Join(h.bonding) && Promised(times, h, span)
  }

  ghost predicate Watched(s: PoolState, h: Window, now: nat, span: nat) {
    WindowOk(s.unbondTimes, h.acks, h.submits, now, span) && Pledged(s.mail.sudoPayloads, s.unbondTimes, h, span)
  }

  /** The unbonding period in seconds, as the bond step computes it. */
  function PeriodSeconds(p: PoolInfo): nat {
    p.clock.unbondingPeriod * p.clock.eraSeconds
  }

  lemma PlanOk(s: PoolState, query: Option<DelegationQuery>, h: Window, now: nat, span: nat)
    requires BondByUnbonding(s, query, now).Ok? && WindowOk(s.unbondTimes, h.acks, h.submits, now, span)
    requires span <= PeriodSeconds(s.pool) && (query.Some? ==> ProperDelegations(query.value.delegations))
    ensures var plan := BondByUnbonding(s, query, now).value.0;
      && WindowOk(plan.times, h.acks, h.submits, now, span)
      && Promised(plan.times, h.(bonding := Validators(plan.infos), sentAt := now), span)
  {
    var plan := BondByUnbonding(s, query, now).value.0;
    var amount, ds := s.pool.snapshot.unbond - s.pool.snapshot.bond, query.value.delegations;
    if amount != 0 {
      var period := PeriodSeconds(s.pool);
      assert Allocate(ds, amount, s.unbondTimes, now, period) == Ok(plan);
      AllotOk(SortDesc(ds), amount, s.unbondTimes, h.acks, h.submits, now, period, span);
      SortNames(ds);
      AllotDistinct(SortDesc(ds), amount, s.unbondTimes, now, period);
      ValidatorsNames(plan.infos);
      forall v | v in Validators(plan.infos) ensures Plain(v) && v != "" {
        NamesProper(ds, v);
      }
      RoomIsPending(plan.times, h.acks, h.submits, Validators(plan.infos), now, span);
    }
  }

  /** The two ways the bond step goes. */
  lemma EraBondBranches(s: PoolState, query: Option<DelegationQuery>, selected: seq<string>, now: nat, key: PacketKey)
    requires EraBond(s, query, selected, now, key).Ok?
    ensures var o := EraBond(s, query, selected, now, key).value;
      if s.pool.snapshot.unbond >= s.pool.snapshot.bond
      then BondByUnbonding(s, query, now).Ok?
           && var plan := BondByUnbonding(s, query, now).value.0;
              && o.state.unbondTimes == plan.times && Bonded(o.effects.remote) == Validators(plan.infos)
              && o.state.mail.sudoPayloads
                 == s.mail.sudoPayloads[key := SudoPayload(Join(Validators(plan.infos)), TxEraBond)]
      else o.state.unbondTimes == s.unbondTimes && Bonded(o.effects.remote) == []
           && o.state.mail.sudoPayloads == s.mail.sudoPayloads[key := SudoPayload("", TxEraBond)]
  {
    if s.pool.snapshot.unbond >= s.pool.snapshot.bond {
      BondedIsValidators(BondByUnbonding(s, query, now).value.0.infos);
    } else {
      DepositBondsNothing(s.pool.snapshot.bond - s.pool.snapshot.unbond, selected);
    }
  }

  lemma BondPledged(payloads: map<PacketKey, SudoPayload>, key: PacketKey, times: Times, h: Window, span: nat)
    requires (forall k :: k in payloads ==> payloads[k].txType != TxEraBond) && Promised(times, h, span)
    ensures Pledged(payloads[key := SudoPayload(Join(h.bonding), TxEraBond)], times, h, span)
  {
  }

  lemma EraBondWatched(s: PoolState, query: Option<DelegationQuery>, selected: seq<string>, now: nat, key: PacketKey,
                       h: Window, span: nat)
    requires Watched(s, h, now, span) && NoneOut(s, TxEraBond) && span <= PeriodSeconds(s.pool)
    requires EraBond(s, query, selected, now, key).Ok? && (query.Some? ==> ProperDelegations(query.value.delegations))
    ensures var o := EraBond(s, query, selected, now, key).value;
      Watched(o.state, h.(bonding := Bonded(o.effects.remote), sentAt := now), now, span)
  {
    var o := EraBond(s, query, selected, now, key).value;
    EraBondBranches(s, query, selected, now, key);
    if s.pool.snapshot.unbond >= s.pool.snapshot.bond {
      PlanOk(s, query, h, now, span);
    }
    BondPledged(s.mail.sudoPayloads, key, o.state.unbondTimes, h.(bonding := Bonded(o.effects.remote), sentAt := now),
                span);
  }

  /** The acknowledgement notes exactly the undelegations that were sent. */
  lemma BondDoneStamps(s: PoolState, message: string, now: nat, height: nat, vals: seq<string>)
    requires EraBondDone(s, message, now, height).Ok? && NamesOk(vals) && message == Join(vals)
    ensures EraBondDone(s, message, now, height).value.state.unbondTimes == Stamp(s.unbondTimes, vals, now)
  {
    PayloadNames(vals);
  }

  lemma BondDoneWatched(s: PoolState, key: PacketKey, now: nat, height: nat, h: Window, span: nat)
    requires Watched(s, h, now, span) && key in s.mail.sudoPayloads && s.mail.sudoPayloads[key].txType == TxEraBond
    requires Deliver(s, key, true, now, height).Ok?
    ensures WindowOk(Deliver(s, key, true, now, height).value.state.unbondTimes,
                     Logged(h.acks, h.bonding, now), Logged(h.submits, h.bonding, h.sentAt), now, span)
  {
    var s1 := s.(mail := s.mail.(sudoPayloads := s.mail.sudoPayloads - {key}));
    BondDoneStamps(s1, s.mail.sudoPayloads[key].message, now, height, h.bonding);
    StampOk(s.unbondTimes, h.acks, h.submits, h.bonding, now, h.sentAt, span);
    StampLogged(h.acks, h.bonding, now);
    StampLogged(h.submits, h.bonding, h.sentAt);
  }

  // ---- Every other message ----

  /** No bond packet goes out and no time is touched. */
  ghost predicate Calm(s: PoolState, after: PoolState) {
    && after.unbondTimes == s.unbondTimes
    && forall k :: k in after.mail.sudoPayloads && after.mail.sudoPayloads[k].txType == TxEraBond
         ==> k in s.mail.sudoPayloads && s.mail.sudoPayloads[k] == after.mail.sudoPayloads[k]
  }

  lemma AdminCalm(s: PoolState, a: Action, now: nat)
    requires ByAdmin(a) && ApplyAdmin(s, a, now).Ok?
    ensures Calm(s, ApplyAdmin(s, a, now).value.state)
  {
  }

  lemma UserCalm(s: PoolState, a: Action)
    requires ByUser(a) && ApplyUser(s, a).Ok?
    ensures Calm(s, ApplyUser(s, a).value.state)
  {
  }

  lemma StepCalm(s: PoolState, a: Action, now: nat, height: nat)
    requires (a.DoEraUpdate? || a.DoCollectWithdraw? || a.DoRebond? || a.DoEraActive?)
      && ApplyEra(s, a, now, height).Ok?
    ensures Calm(s, ApplyEra(s, a, now, height).value.state)
  {
  }

  lemma OtherCallbackCalm(s: PoolState, payload: SudoPayload, now: nat, height: nat)
    ensures payload.txType != TxEraBond && Callback(s, payload, now, height).Ok? ==>
      Calm(s, Callback(s, payload, now, height).value.state)
    ensures FailedCallback(s, payload).Ok? ==> Calm(s, FailedCallback(s, payload).value.state)
  {
  }

  lemma CalmWatched(s: PoolState, after: PoolState, h: Window, now: nat, span: nat)
    requires Watched(s, h, now, span) && Calm(s, after)
    ensures Watched(after, h, now, span)
  {
  }

  lemma OnlyBondPacket(s: PoolState, slot: Option<PacketKey>, key: PacketKey)
    requires SingleFlight(s, slot) && key in s.mail.sudoPayloads && s.mail.sudoPayloads[key].txType == TxEraBond
    ensures forall k :: k in s.mail.sudoPayloads - {key} ==> s.mail.sudoPayloads[k].txType != TxEraBond
  {
  }

  lemma NoPledge(payloads: map<PacketKey, SudoPayload>, times: Times, h: Window, span: nat)
    requires forall k :: k in payloads ==> payloads[k].txType != TxEraBond
    ensures Pledged(payloads, times, h, span)
  {
  }

  lemma BondSuccessWatched(s: PoolState, slot: Option<PacketKey>, key: PacketKey, now: nat, height: nat, h: Window,
                           span: nat)
    requires SingleFlight(s, slot) && Watched(s, h, now, span) && Deliver(s, key, true, now, height).Ok?
    requires s.mail.sudoPayloads[key].txType == TxEraBond
    ensures Watched(Deliver(s, key, true, now, height).value.state,
                    h.(bonding := [], acks := Logged(h.acks, h.bonding, now),
                       submits := Logged(h.submits, h.bonding, h.sentAt)), now, span)
  {
    var s1 := s.(mail := s.mail.(sudoPayloads := s.mail.sudoPayloads - {key}));
    BondDoneWatched(s, key, now, height, h, span);
    CallbackShape(s1, s.mail.sudoPayloads[key], now, height);
    OnlyBondPacket(s, slot, key);
    NoPledge(s.mail.sudoPayloads - {key}, Deliver(s, key, true, now, height).value.state.unbondTimes,
             h.(bonding := [], acks := Logged(h.acks, h.bonding, now),
                submits := Logged(h.submits, h.bonding, h.sentAt)),
             span);
  }

  lemma BondFailureWatched(s: PoolState, slot: Option<PacketKey>, key: PacketKey, now: nat, height: nat, h: Window,
                           span: nat)
    requires SingleFlight(s, slot) && Watched(s, h, now, span) && Deliver(s, key, false, now, height).Ok?
    requires s.mail.sudoPayloads[key].txType == TxEraBond
    ensures Watched(Deliver(s, key, false, now, height).value.state, h.(bonding := []), now, span)
  {
    OnlyBondPacket(s, slot, key);
  }

  lemma BondAnswerNoted(s: PoolState, key: PacketKey, success: bool, o: Outcome, h: Window, now: nat)
    requires key in s.mail.sudoPayloads
    ensures Watch(h, s, DoDeliver(key, success), o, now)
      == if s.mail.sudoPayloads[key].txType != TxEraBond then h
         else if !success then h.(bonding := [])
         else h.(bonding := [], acks := Logged(h.acks, h.bonding, now),
                 submits := Logged(h.submits, h.bonding, h.sentAt))
  {
  }

  lemma DeliverWatched(s: PoolState, slot: Option<PacketKey>, key: PacketKey, success: bool, now: nat, height: nat,
                       h: Window, span: nat)
    requires SingleFlight(s, slot) && Watched(s, h, now, span) && Deliver(s, key, success, now, height).Ok?
    ensures var o := Deliver(s, key, success, now, height).value;
      Watched(o.state, Watch(h, s, DoDeliver(key, success), o, now), now, span)
  {
    var payload, o := s.mail.sudoPayloads[key], Deliver(s, key, success, now, height).value;
    BondAnswerNoted(s, key, success, o, h, now);
    if payload.txType != TxEraBond {
      var s1 := s.(mail := s.mail.(sudoPayloads := s.mail.sudoPayloads - {key}));
      OtherCallbackCalm(s1, payload, now, height);
      assert Calm(s, o.state);
      CalmWatched(s, o.state, h, now, span);
    } else if success {
      BondSuccessWatched(s, slot, key, now, height, h, span);
    } else {
      BondFailureWatched(s, slot, key, now, height, h, span);
    }
  }

  lemma MessageWatched(s: PoolState, slot: Option<PacketKey>, a: Action, now: nat, height: nat, h: Window, span: nat)
    requires SingleFlight(s, slot) && Proper(a) && Watched(s, h, now, span) && Apply(s, a, now, height).Ok?
    requires a.DoEraBond? ==> span <= PeriodSeconds(s.pool)
    ensures var o := Apply(s, a, now, height).value; Watched(o.state, Watch(h, s, a, o, now), now, span)
  {
    if a.DoEraBond? {
      assert s.pool.status == EraUpdateEnded;
      assert NoneOut(s, TxEraBond);
      EraBondWatched(s, a.query, a.selected, now, a.key, h, span);
    } else if a.DoDeliver? {
      DeliverWatched(s, slot, a.key, a.success, now, height, h, span);
    } else {
      OtherCalm(s, a, now, height);
      CalmWatched(s, Apply(s, a, now, height).value.state, h, now, span);
    }
  }

  lemma OtherCalm(s: PoolState, a: Action, now: nat, height: nat)
    requires !a.DoEraBond? && !a.DoDeliver? && Apply(s, a, now, height).Ok?
    ensures Calm(s, Apply(s, a, now, height).value.state)
  {
    if a.DoConfigStack? {
    } else if ByAdmin(a) {
      AdminCalm(s, a, now);
    } else if ByUser(a) {
      UserCalm(s, a);
    } else {
      StepCalm(s, a, now, height);
    }
  }

  /** Every message keeps the window, for any span no longer than the periods the bond steps use. */
  lemma WatchedKept(w: World, e: Event, span: nat)
    requires SingleFlight(w.s, w.h.slot) && Allowed(w, e) && Watched(w.s, w.h.window, w.now, span)
    requires e.action.DoEraBond? ==> span <= PeriodSeconds(w.s.pool)
    ensures Watched(Next(w, e).s, Next(w, e).h.window, e.now, span)
  {
    LaterOk(w.s.unbondTimes, w.h.window.acks, w.h.window.submits, w.now, e.now, span);
    if Apply(w.s, e.action, e.now, e.height).Ok? {
      MessageWatched(w.s, w.h.slot, e.action, e.now, e.height, w.h.window, span);
    }
  }
}
