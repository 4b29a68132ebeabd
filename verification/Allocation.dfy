/** Which validators an era undelegates from, and how much from each: the greedy allocator of
    the bond step, the per-validator window of recent undelegations it consults, and the even
    split used when an era delegates instead. */
module Allocation {
  import opened Arith
  import opened Sums

  /** How many stored times the allocator stops at. */
  const MAX_UNBONDS: nat := 7
  const STAKE_SPLIT_THRESHOLD: nat := 10_000

  datatype Delegation = Delegation(validator: string, amount: nat)
  datatype UnbondInfo = UnbondInfo(validator: string, amount: nat)
  /** Per validator, the times at which undelegations were acknowledged, oldest first. */
  type Times = map<string, seq<nat>>
  datatype Greedy = Greedy(infos: seq<UnbondInfo>, remaining: nat, times: Times)
  datatype Plan = Plan(infos: seq<UnbondInfo>, times: Times)

  function Names(ds: seq<Delegation>): set<string> {
    if ds == [] then {} else {ds[0].validator} + Names(ds[1..])
  }

  /** The delegations of one query result name distinct validators. */
  predicate NoDup(ds: seq<Delegation>) {
    ds == [] || (ds[0].validator !in Names(ds[1..]) && NoDup(ds[1..]))
  }

  function InfoNames(infos: seq<UnbondInfo>): set<string> {
    if infos == [] then {} else {infos[0].validator} + InfoNames(infos[1..])
  }

  predicate NoDupInfos(infos: seq<UnbondInfo>) {
    infos == [] || (infos[0].validator !in InfoNames(infos[1..]) && NoDupInfos(infos[1..]))
  }

  function InfoTotal(infos: seq<UnbondInfo>): nat {
    if infos == [] then 0 else infos[0].amount + InfoTotal(infos[1..])
  }

  // ---- The stable descending sort ----

  predicate SortedDesc(ds: seq<Delegation>) {
    |ds| <= 1 || (ds[1].amount <= ds[0].amount && SortedDesc(ds[1..]))
  }

  function Insert(d: Delegation, ds: seq<Delegation>): seq<Delegation> {
    if ds == [] || ds[0].amount <= d.amount then [d] + ds else [ds[0]] + Insert(d, ds[1..])
  }

  /** `sort_by` with the comparison reversed: largest delegation first, equal ones in the order given. */
  function SortDesc(ds: seq<Delegation>): seq<Delegation> {
    if ds == [] then [] else Insert(ds[0], SortDesc(ds[1..]))
  }

  lemma {:induction false} InsertSorted(d: Delegation, ds: seq<Delegation>)
    requires SortedDesc(ds)
    ensures SortedDesc(Insert(d, ds))
  {
    var r := Insert(d, ds);
    if ds == [] || ds[0].amount <= d.amount {
      assert r[1..] == ds;
    } else {
      InsertSorted(d, ds[1..]);
      assert r[1..] == Insert(d, ds[1..]);
    }
  }

  lemma {:induction false} SortSorted(ds: seq<Delegation>)
    ensures SortedDesc(SortDesc(ds))
  {
    if ds != [] {
      SortSorted(ds[1..]);
      InsertSorted(ds[0], SortDesc(ds[1..]));
    }
  }

  lemma {:induction false} InsertPermutes(d: Delegation, ds: seq<Delegation>)
    ensures multiset(Insert(d, ds)) == multiset{d} + multiset(ds)
  {
    if ds != [] && ds[0].amount > d.amount {
      InsertPermutes(d, ds[1..]);
      assert ds == [ds[0]] + ds[1..];
    }
  }

  lemma {:induction false} SortPermutes(ds: seq<Delegation>)
    ensures multiset(SortDesc(ds)) == multiset(ds)
  {
    if ds != [] {
      SortPermutes(ds[1..]);
      InsertPermutes(ds[0], SortDesc(ds[1..]));
      assert ds == [ds[0]] + ds[1..];
    }
  }

  function OfAmount(ds: seq<Delegation>, amount: nat): seq<Delegation> {
    if ds == [] then []
    else if ds[0].amount == amount then [ds[0]] + OfAmount(ds[1..], amount) else OfAmount(ds[1..], amount)
  }

  lemma HeadOfAmount(d: Delegation, rest: seq<Delegation>, amount: nat)
    ensures OfAmount([d] + rest, amount)
      == if d.amount == amount then [d] + OfAmount(rest, amount) else OfAmount(rest, amount)
  {
    assert ([d] + rest)[1..] == rest;
  }

  lemma {:induction false} InsertStable(d: Delegation, ds: seq<Delegation>, amount: nat)
    ensures OfAmount(Insert(d, ds), amount)
      == if d.amount == amount then [d] + OfAmount(ds, amount) else OfAmount(ds, amount)
  {
    if ds == [] || ds[0].amount <= d.amount {
      HeadOfAmount(d, ds, amount);
    } else {
      HeadOfAmount(ds[0], Insert(d, ds[1..]), amount);
      InsertStable(d, ds[1..], amount);
      HeadOfAmount(ds[0], ds[1..], amount);
      assert [ds[0]] + ds[1..] == ds;
    }
  }

  lemma {:induction false} SortStable(ds: seq<Delegation>, amount: nat)
    ensures OfAmount(SortDesc(ds), amount) == OfAmount(ds, amount)
  {
    if ds != [] {
      SortStable(ds[1..], amount);
      InsertStable(ds[0], SortDesc(ds[1..]), amount);
    }
  }

  lemma {:induction false} InsertNames(d: Delegation, ds: seq<Delegation>)
    ensures Names(Insert(d, ds)) == Names(ds) + {d.validator}
    ensures NoDup(ds) && d.validator !in Names(ds) ==> NoDup(Insert(d, ds))
  {
    if ds == [] || ds[0].amount <= d.amount {
      assert ([d] + ds)[1..] == ds;
    } else {
      InsertNames(d, ds[1..]);
      assert Insert(d, ds)[1..] == Insert(d, ds[1..]);
    }
  }

  lemma {:induction false} SortNames(ds: seq<Delegation>)
    ensures Names(SortDesc(ds)) == Names(ds)
    ensures NoDup(ds) ==> NoDup(SortDesc(ds))
  {
    if ds != [] {
      SortNames(ds[1..]);
      InsertNames(ds[0], SortDesc(ds[1..]));
    }
  }

  // ---- The window of recent undelegations ----

  /** A visit drops the oldest time of a validator once it is older than the unbonding period. */
  function Visit(times: Times, v: string, now: nat, period: nat): Result<Times> {
    if v !in times || times[v] == [] then Ok(times)
    else
      var expiry :- Add64(times[v][0], period);
      Ok(if now > expiry then times[v := times[v][1..]] else times)
  }

  predicate Blocked(times: Times, v: string) {
    v in times && |times[v]| >= MAX_UNBONDS
  }

  /** Whether the host chain takes one more undelegation from the validator: it keeps seven at a time, each
      for the unbonding period. The allocator does not use this; it is proved to agree with it. */
  predicate Eligible(times: Times, v: string, now: nat, period: nat) {
    v !in times || |times[v]| < 7 || (|times[v]| == 7 && now > times[v][0] + period)
  }

  // ---- The allocator ----

  function Allot(ds: seq<Delegation>, remaining: nat, times: Times, now: nat, period: nat): Result<Greedy> {
    if ds == [] || remaining == 0 then Ok(Greedy([], remaining, times))
    else
      var visited :- Visit(times, ds[0].validator, now, period);
      if Blocked(visited, ds[0].validator) then Allot(ds[1..], remaining, visited, now, period)
      else
        var take := if ds[0].amount < remaining then ds[0].amount else remaining;
        var rest :- Allot(ds[1..], remaining - take, visited, now, period);
        Ok(rest.(infos := [UnbondInfo(ds[0].validator, take)] + rest.infos))
  }

  function Allocate(ds: seq<Delegation>, target: nat, times: Times, now: nat, period: nat): Result<Plan> {
    var g :- Allot(SortDesc(ds), target, times, now, period);
    if g.remaining != 0 then Err(ValidatorForUnbondNotEnough) else Ok(Plan(g.infos, g.times))
  }

  /** The clearing step of the allocator's loop. */
  method ClearOldest(times: Times, v: string, now: nat, period: nat) returns (r: Result<Times>)
    ensures r == Visit(times, v, now, period)
  {
    if v in times {
      var stamps := times[v];
      if stamps != [] {
        var expiry :- Add64(stamps[0], period);
        if now > expiry {
          stamps := stamps[1..];
          return Ok(times[v := stamps]);
        }
      }
    }
    return Ok(times);
  }

  /** The pass with what has been chosen so far. */
  function AllotFrom(infos: seq<UnbondInfo>, ds: seq<Delegation>, remaining: nat, times: Times, now: nat,
                     period: nat): Result<Greedy>
    decreases |ds|
  {
    if ds == [] || remaining == 0 then Ok(Greedy(infos, remaining, times))
    else
      var visited :- Visit(times, ds[0].validator, now, period);
      if Blocked(visited, ds[0].validator) then AllotFrom(infos, ds[1..], remaining, visited, now, period)
      else
        var take := if ds[0].amount < remaining then ds[0].amount else remaining;
        AllotFrom(infos + [UnbondInfo(ds[0].validator, take)], ds[1..], remaining - take, visited, now, period)
  }

  /** The allocator as the contract runs it. */
  method AllocateUnbond(ds: seq<Delegation>, target: nat, times: Times, now: nat, period: nat)
    returns (r: Result<Plan>)
    ensures r == Allocate(ds, target, times, now, period)
  {
    AllotFromNothing(SortDesc(ds), target, times, now, period);
    var attempt := RunAllotment(SortDesc(ds), target, times, now, period);
    var g :- attempt;
    if g.remaining != 0 {
      return Err(ValidatorForUnbondNotEnough);
    }
    return Ok(Plan(g.infos, g.times));
  }

  method RunAllotment(sorted: seq<Delegation>, target: nat, times: Times, now: nat,
                      period: nat) returns (r: Result<Greedy>)
    ensures r == AllotFrom([], sorted, target, times, now, period)
  {
    var infos: seq<UnbondInfo> := [];
    var remaining := target;
    var table := times;
    var i := 0;
    assert sorted[0..] == sorted;
    while i < |sorted| && remaining != 0
      invariant 0 <= i <= |sorted|
      invariant AllotFrom([], sorted, target, times, now, period)
        == AllotFrom(infos, sorted[i..], remaining, table, now, period)
    {
      var d := sorted[i];
      assert sorted[i..][1..] == sorted[i + 1..];
      i := i + 1;
      table :- ClearOldest(table, d.validator, now, period);
      if Blocked(table, d.validator) {
        continue;
      }
      var current := remaining;
      if d.amount < remaining {
        current := d.amount;
      }
      remaining := remaining - current;
      infos := infos + [UnbondInfo(d.validator, current)];
    }
    return Ok(Greedy(infos, remaining, table));
  }

  lemma {:induction false} AllotFromSome(infos: seq<UnbondInfo>, ds: seq<Delegation>, remaining: nat, times: Times,
                                  now: nat, period: nat)
    ensures AllotFrom(infos, ds, remaining, times, now, period)
      == Prepend(infos, Allot(ds, remaining, times, now, period))
    decreases |ds|
  {
    if ds == [] || remaining == 0 {
      assert infos + [] == infos;
    } else {
      var v := ds[0].validator;
      assert ds == [ds[0]] + ds[1..];
      AllotStep(ds[0], ds[1..], remaining, times, now, period);
      var visited := Visit(times, v, now, period);
      if visited.Ok? {
        if Blocked(visited.value, v) {
          AllotFromSome(infos, ds[1..], remaining, visited.value, now, period);
        } else {
          var take := if ds[0].amount < remaining then ds[0].amount else remaining;
          AllotFromSome(infos + [UnbondInfo(v, take)], ds[1..], remaining - take, visited.value, now, period);
          PrependTwice(infos, [UnbondInfo(v, take)], Allot(ds[1..], remaining - take, visited.value, now, period));
        }
      }
    }
  }

  lemma AllotFromNothing(ds: seq<Delegation>, remaining: nat, times: Times, now: nat, period: nat)
    ensures AllotFrom([], ds, remaining, times, now, period) == Allot(ds, remaining, times, now, period)
  {
    AllotFromSome([], ds, remaining, times, now, period);
    PrependNothing(Allot(ds, remaining, times, now, period));
  }

  /** One delegation of the pass. */
  lemma AllotStep(d: Delegation, rest: seq<Delegation>, remaining: nat, times: Times, now: nat, period: nat)
    requires remaining != 0
    ensures var visited := Visit(times, d.validator, now, period);
      var take := if d.amount < remaining then d.amount else remaining;
      Allot([d] + rest, remaining, times, now, period) ==
        if visited.Err? then Err(visited.error)
        else if Blocked(visited.value, d.validator) then Allot(rest, remaining, visited.value, now, period)
        else Prepend([UnbondInfo(d.validator, take)], Allot(rest, remaining - take, visited.value, now, period))
  {
    assert ([d] + rest)[1..] == rest;
  }

  function Prepend(infos: seq<UnbondInfo>, r: Result<Greedy>): Result<Greedy> {
    if r.Ok? then Ok(r.value.(infos := infos + r.value.infos)) else r
  }

  lemma PrependNothing(r: Result<Greedy>)
    ensures Prepend([], r) == r
  {
    if r.Ok? {
      assert [] + r.value.infos == r.value.infos;
    }
  }

  lemma PrependTwice(xs: seq<UnbondInfo>, ys: seq<UnbondInfo>, r: Result<Greedy>)
    ensures Prepend(xs, Prepend(ys, r)) == Prepend(xs + ys, r)
  {
    if r.Ok? {
      assert xs + (ys + r.value.infos) == xs + ys + r.value.infos;
    }
  }

  // ---- Exactness and completeness ----

  /** What the eligible validators hold together. */
  function Available(ds: seq<Delegation>, times: Times, now: nat, period: nat): nat {
    if ds == [] then 0 else Usable(ds[0], times, now, period) + Available(ds[1..], times, now, period)
  }

  function Usable(d: Delegation, times: Times, now: nat, period: nat): nat {
    if Eligible(times, d.validator, now, period) then d.amount else 0
  }

  function AmountOf(ds: seq<Delegation>, v: string): nat
    requires v in Names(ds)
  {
    if ds[0].validator == v then ds[0].amount else AmountOf(ds[1..], v)
  }

  lemma {:induction false} InsertAvailable(d: Delegation, ds: seq<Delegation>, times: Times, now: nat, period: nat)
    ensures Available(Insert(d, ds), times, now, period)
         == Usable(d, times, now, period) + Available(ds, times, now, period)
  {
    var r := Insert(d, ds);
    if ds == [] || ds[0].amount <= d.amount {
      assert r[0] == d && r[1..] == ds;
    } else {
      assert r[0] == ds[0] && r[1..] == Insert(d, ds[1..]);
      InsertAvailable(d, ds[1..], times, now, period);
    }
  }

  lemma {:induction false} SortAvailable(ds: seq<Delegation>, times: Times, now: nat, period: nat)
    ensures Available(SortDesc(ds), times, now, period) == Available(ds, times, now, period)
  {
    if ds != [] {
      SortAvailable(ds[1..], times, now, period);
      InsertAvailable(ds[0], SortDesc(ds[1..]), times, now, period);
    }
  }

  lemma {:induction false} InsertAmount(d: Delegation, ds: seq<Delegation>, v: string)
    requires v in Names(ds) + {d.validator} && d.validator !in Names(ds)
    ensures v in Names(Insert(d, ds))
    ensures AmountOf(Insert(d, ds), v) == if v == d.validator then d.amount else AmountOf(ds, v)
  {
    InsertNames(d, ds);
    if ds == [] || ds[0].amount <= d.amount {
      assert ([d] + ds)[1..] == ds;
    } else {
      assert Insert(d, ds)[1..] == Insert(d, ds[1..]);
      if v != ds[0].validator {
        InsertAmount(d, ds[1..], v);
      }
    }
  }

  lemma {:induction false} SortAmount(ds: seq<Delegation>, v: string)
    requires NoDup(ds) && v in Names(ds)
    ensures v in Names(SortDesc(ds)) && AmountOf(SortDesc(ds), v) == AmountOf(ds, v)
  {
    SortNames(ds[1..]);
    InsertAmount(ds[0], SortDesc(ds[1..]), v);
    if v != ds[0].validator {
      SortAmount(ds[1..], v);
    }
  }

  // ---- The overflow guard ----

  /** The addition of a visit does not fit its word. */
  predicate Overflows(times: Times, v: string, period: nat) {
    v in times && times[v] != [] && times[v][0] + period > U64_MAX
  }

  /** What the eligible validators ahead of the first overflow hold together. */
  function Offered(ds: seq<Delegation>, times: Times, now: nat, period: nat): nat {
    if ds == [] || Overflows(times, ds[0].validator, period) then 0
    else Usable(ds[0], times, now, period) + Offered(ds[1..], times, now, period)
  }

  ghost predicate VisitsFit(ds: seq<Delegation>, times: Times, period: nat) {
    forall v :: v in Names(ds) ==> !Overflows(times, v, period)
  }

  lemma {:induction false} OfferedFrame(ds: seq<Delegation>, before: Times, after: Times, now: nat, period: nat)
    requires forall u :: u in Names(ds) ==> (u in before <==> u in after)
    requires forall u :: u in Names(ds) && u in before ==> before[u] == after[u]
    ensures Offered(ds, before, now, period) == Offered(ds, after, now, period)
  {
    if ds != [] {
      OfferedFrame(ds[1..], before, after, now, period);
    }
  }

  lemma {:induction false} AllOffered(ds: seq<Delegation>, times: Times, now: nat, period: nat)
    requires VisitsFit(ds, times, period)
    ensures Offered(ds, times, now, period) == Available(ds, times, now, period)
  {
    if ds != [] {
      AllOffered(ds[1..], times, now, period);
    }
  }

  /** After a zero delegation in a sorted list nothing is left. */
  lemma {:induction false} NothingOffered(ds: seq<Delegation>, times: Times, now: nat, period: nat)
    requires SortedDesc(ds) && (ds != [] ==> ds[0].amount == 0)
    ensures Offered(ds, times, now, period) == 0
  {
    if ds != [] {
      NothingOffered(ds[1..], times, now, period);
    }
  }

  /** What a visit to the head leaves for the rest of the list. */
  lemma VisitTail(ds: seq<Delegation>, times: Times, now: nat, period: nat)
    requires ds != [] && NoDup(ds)
    ensures Visit(times, ds[0].validator, now, period).Err? <==> Overflows(times, ds[0].validator, period)
    ensures Visit(times, ds[0].validator, now, period).Ok? ==>
      var visited := Visit(times, ds[0].validator, now, period).value;
      && NoDup(ds[1..]) && (SortedDesc(ds) ==> SortedDesc(ds[1..]))
      && (Blocked(visited, ds[0].validator) <==> !Eligible(times, ds[0].validator, now, period))
      && (forall w :: w != ds[0].validator ==> (w in times <==> w in visited))
      && (forall w :: w != ds[0].validator && w in times ==> times[w] == visited[w])
  {
  }

  /** A pass meets its target exactly when that is on offer ahead of the first overflow. */
  lemma {:induction false} AllotMeets(ds: seq<Delegation>, remaining: nat, times: Times, now: nat, period: nat)
    requires NoDup(ds)
    ensures remaining <= Offered(ds, times, now, period) <==>
      Allot(ds, remaining, times, now, period).Ok? && Allot(ds, remaining, times, now, period).value.remaining == 0
  {
    if ds != [] && remaining != 0 {
      var v, tail := ds[0].validator, ds[1..];
      VisitTail(ds, times, now, period);
      assert ds == [ds[0]] + tail;
      AllotStep(ds[0], tail, remaining, times, now, period);
      var visit := Visit(times, v, now, period);
      if visit.Ok? {
        OfferedFrame(tail, times, visit.value, now, period);
        var take := if ds[0].amount < remaining then ds[0].amount else remaining;
        AllotMeets(tail, if Blocked(visit.value, v) then remaining else remaining - take, visit.value, now, period);
      }
    }
  }

  /** The chosen amounts and what is left always make up what was wanted. */
  lemma {:induction false} AllotAdds(ds: seq<Delegation>, remaining: nat, times: Times, now: nat, period: nat)
    requires Allot(ds, remaining, times, now, period).Ok?
    ensures var g := Allot(ds, remaining, times, now, period).value; InfoTotal(g.infos) + g.remaining == remaining
  {
    if ds != [] && remaining != 0 {
      assert ds == [ds[0]] + ds[1..];
      AllotStep(ds[0], ds[1..], remaining, times, now, period);
      var visited := Visit(times, ds[0].validator, now, period).value;
      if Blocked(visited, ds[0].validator) {
        AllotAdds(ds[1..], remaining, visited, now, period);
      } else {
        var take := if ds[0].amount < remaining then ds[0].amount else remaining;
        AllotAdds(ds[1..], remaining - take, visited, now, period);
        var rest := Allot(ds[1..], remaining - take, visited, now, period).value;
        assert ([UnbondInfo(ds[0].validator, take)] + rest.infos)[1..] == rest.infos;
      }
    }
  }

  /** No validator is chosen twice, and only delegating ones are. */
  lemma {:induction false} AllotDistinct(ds: seq<Delegation>, remaining: nat, times: Times, now: nat, period: nat)
    requires NoDup(ds) && Allot(ds, remaining, times, now, period).Ok?
    ensures var g := Allot(ds, remaining, times, now, period).value;
      NoDupInfos(g.infos) && InfoNames(g.infos) <= Names(ds)
  {
    if ds != [] && remaining != 0 {
      assert ds == [ds[0]] + ds[1..];
      AllotStep(ds[0], ds[1..], remaining, times, now, period);
      var visited := Visit(times, ds[0].validator, now, period).value;
      if Blocked(visited, ds[0].validator) {
        AllotDistinct(ds[1..], remaining, visited, now, period);
      } else {
        var take := if ds[0].amount < remaining then ds[0].amount else remaining;
        AllotDistinct(ds[1..], remaining - take, visited, now, period);
      }
    }
  }

  /** Each amount is within its validator's delegation, and the validator is eligible. */
  lemma {:induction false} AllotWithin(ds: seq<Delegation>, remaining: nat, times: Times, now: nat, period: nat,
                                  k: nat)
    requires NoDup(ds)
    requires Allot(ds, remaining, times, now, period).Ok? && k < |Allot(ds, remaining, times, now, period).value.infos|
    ensures var info := Allot(ds, remaining, times, now, period).value.infos[k];
      && info.validator in Names(ds) && info.amount <= AmountOf(ds, info.validator)
      && Eligible(times, info.validator, now, period)
  {
    var v := ds[0].validator;
    var visited := Visit(times, v, now, period).value;
    assert ds == [ds[0]] + ds[1..];
    AllotStep(ds[0], ds[1..], remaining, times, now, period);
    if Blocked(visited, v) {
      AllotWithin(ds[1..], remaining, visited, now, period, k);
    } else {
      var take := if ds[0].amount < remaining then ds[0].amount else remaining;
      if k > 0 {
        AllotWithin(ds[1..], remaining - take, visited, now, period, k - 1);
      }
    }
  }

  /** Once the target is met, no zero delegation has been chosen: they come last. */
  lemma {:induction false} AllotPositive(ds: seq<Delegation>, remaining: nat, times: Times, now: nat, period: nat,
                                  k: nat)
    requires NoDup(ds) && SortedDesc(ds)
    requires Allot(ds, remaining, times, now, period).Ok? && k < |Allot(ds, remaining, times, now, period).value.infos|
    requires Allot(ds, remaining, times, now, period).value.remaining == 0
    ensures Allot(ds, remaining, times, now, period).value.infos[k].amount > 0
  {
    var v := ds[0].validator;
    var visited := Visit(times, v, now, period).value;
    assert ds == [ds[0]] + ds[1..];
    AllotStep(ds[0], ds[1..], remaining, times, now, period);
    if Blocked(visited, v) {
      AllotPositive(ds[1..], remaining, visited, now, period, k);
    } else {
      var take := if ds[0].amount < remaining then ds[0].amount else remaining;
      if k > 0 {
        AllotPositive(ds[1..], remaining - take, visited, now, period, k - 1);
      } else if take == 0 {
        NothingOffered(ds[1..], visited, now, period);
        AllotMeets(ds[1..], remaining, visited, now, period);
      }
    }
  }

  /** Allocation succeeds exactly when the eligible delegations cover the target, counted from the
      largest down to the first whose stored time overflows; the amounts then add up to the target. */
  lemma AllocateExact(ds: seq<Delegation>, target: nat, times: Times, now: nat, period: nat)
    requires NoDup(ds)
    ensures Allocate(ds, target, times, now, period).Ok? <==> target <= Offered(SortDesc(ds), times, now, period)
    ensures VisitsFit(ds, times, period) ==>
      Offered(SortDesc(ds), times, now, period) == Available(ds, times, now, period)
    ensures Allocate(ds, target, times, now, period).Ok? ==>
      var infos := Allocate(ds, target, times, now, period).value.infos;
      InfoTotal(infos) == target && NoDupInfos(infos) && InfoNames(infos) <= Names(ds)
  {
    var sorted := SortDesc(ds);
    SortNames(ds);
    AllotMeets(sorted, target, times, now, period);
    if VisitsFit(ds, times, period) {
      AllOffered(sorted, times, now, period);
      SortAvailable(ds, times, now, period);
    }
    if Allot(sorted, target, times, now, period).Ok? {
      AllotAdds(sorted, target, times, now, period);
      AllotDistinct(sorted, target, times, now, period);
    }
  }

  lemma AllocateWithin(ds: seq<Delegation>, target: nat, times: Times, now: nat, period: nat, k: nat)
    requires NoDup(ds)
    requires Allocate(ds, target, times, now, period).Ok? && k < |Allocate(ds, target, times, now, period).value.infos|
    ensures var info := Allocate(ds, target, times, now, period).value.infos[k];
      && info.validator in Names(ds) && Eligible(times, info.validator, now, period)
      && 0 < info.amount <= AmountOf(ds, info.validator)
  {
    SortNames(ds);
    SortSorted(ds);
    AllotWithin(SortDesc(ds), target, times, now, period, k);
    AllotPositive(SortDesc(ds), target, times, now, period, k);
    SortAmount(ds, Allocate(ds, target, times, now, period).value.infos[k].validator);
  }

  // ---- Optimality ----

  /** Another way to reach the target: an amount per validator, each validator eligible and each
      amount within its delegation. */
  ghost predicate Alternative(other: map<string, nat>, ds: seq<Delegation>, times: Times, now: nat, period: nat) {
    forall v :: v in other ==>
      v in Names(ds) && Eligible(times, v, now, period) && other[v] <= AmountOf(ds, v)
  }

  lemma {:induction false} LargestFirst(ds: seq<Delegation>, v: string)
    requires SortedDesc(ds) && v in Names(ds)
    ensures AmountOf(ds, v) <= ds[0].amount
  {
    if ds[0].validator != v {
      LargestFirst(ds[1..], v);
    }
  }

  /** Without the head validator and one more, the alternative is one for the rest of the list. */
  lemma AlternativeRest(other: map<string, nat>, u: string, ds: seq<Delegation>, before: Times, after: Times,
                        now: nat, period: nat)
    requires ds != [] && NoDup(ds) && Alternative(other, ds, before, now, period)
    requires u == ds[0].validator || ds[0].validator !in other
    requires forall w :: w != ds[0].validator ==> (w in before <==> w in after)
    requires forall w :: w != ds[0].validator && w in before ==> before[w] == after[w]
    ensures Alternative(other - {u}, ds[1..], after, now, period)
  {
    forall v | v in other - {u}
      ensures v in Names(ds[1..]) && Eligible(after, v, now, period) && other[v] <= AmountOf(ds[1..], v)
    {
      assert v in other && v != ds[0].validator;
    }
  }

  /** Some validator of the alternative can be given up against the head of the sorted list. */
  lemma GiveUpOne(other: map<string, nat>, ds: seq<Delegation>, times: Times, now: nat, period: nat) returns (u: string)
    requires ds != [] && SortedDesc(ds) && Alternative(other, ds, times, now, period) && other != map[]
    ensures u in other && (u == ds[0].validator || ds[0].validator !in other)
    ensures SumBy(other, Same()) <= SumBy(other - {u}, Same()) + ds[0].amount
    ensures |other - {u}| == |other| - 1
  {
    if ds[0].validator in other {
      u := ds[0].validator;
    } else {
      u :| u in other;
    }
    LargestFirst(ds, u);
    SumByRemove(other, Same(), u);
    assert (other - {u}).Keys == other.Keys - {u};
  }

  /** The n largest eligible delegations of a sorted list, added up. */
  function Largest(ds: seq<Delegation>, n: nat, times: Times, now: nat, period: nat): nat {
    if ds == [] || n == 0 then 0
    else if Eligible(times, ds[0].validator, now, period) then
      ds[0].amount + Largest(ds[1..], n - 1, times, now, period)
    else Largest(ds[1..], n, times, now, period)
  }

  lemma {:induction false} LargestFrame(ds: seq<Delegation>, n: nat, before: Times, after: Times, now: nat, period: nat)
    requires forall u :: u in Names(ds) ==> (u in before <==> u in after)
    requires forall u :: u in Names(ds) && u in before ==> before[u] == after[u]
    ensures Largest(ds, n, before, now, period) == Largest(ds, n, after, now, period)
  {
    if ds != [] && n != 0 {
      LargestFrame(ds[1..], n - 1, before, after, now, period);
      LargestFrame(ds[1..], n, before, after, now, period);
    }
  }

  /** What remains of the alternative once the head has been dealt with. */
  lemma RestOfAlternative(other: map<string, nat>, ds: seq<Delegation>, times: Times, now: nat, period: nat)
    returns (rest: map<string, nat>)
    requires ds != [] && NoDup(ds) && SortedDesc(ds) && Alternative(other, ds, times, now, period) && other != map[]
    ensures NoDup(ds[1..]) && SortedDesc(ds[1..]) && Alternative(rest, ds[1..], times, now, period)
    ensures if Eligible(times, ds[0].validator, now, period)
            then |rest| == |other| - 1 && SumBy(other, Same()) <= SumBy(rest, Same()) + ds[0].amount
            else rest == other
  {
    var v := ds[0].validator;
    if Eligible(times, v, now, period) {
      var u := GiveUpOne(other, ds, times, now, period);
      AlternativeRest(other, u, ds, times, times, now, period);
      rest := other - {u};
    } else {
      assert v !in other && other - {v} == other;
      AlternativeRest(other, v, ds, times, times, now, period);
      rest := other;
    }
  }

  /** n eligible validators cannot hold more than the n largest. */
  lemma {:induction false} AtMostLargest(ds: seq<Delegation>, times: Times, now: nat, period: nat,
                                  other: map<string, nat>)
    requires NoDup(ds) && SortedDesc(ds) && Alternative(other, ds, times, now, period)
    ensures SumBy(other, Same()) <= Largest(ds, |other|, times, now, period)
  {
    if ds == [] {
      assert other == map[];
    } else if other != map[] {
      var rest := RestOfAlternative(other, ds, times, now, period);
      AtMostLargest(ds[1..], times, now, period, rest);
    }
  }

  /** The pass stops as soon as the largest so far cover what is wanted. */
  lemma {:induction false} AllotFewest(ds: seq<Delegation>, remaining: nat, times: Times, now: nat, period: nat,
                                  n: nat)
    requires NoDup(ds) && remaining <= Largest(ds, n, times, now, period)
    requires Allot(ds, remaining, times, now, period).Ok?
    ensures |Allot(ds, remaining, times, now, period).value.infos| <= n
  {
    if ds != [] && remaining != 0 {
      var v, tail := ds[0].validator, ds[1..];
      VisitTail(ds, times, now, period);
      assert ds == [ds[0]] + tail;
      AllotStep(ds[0], tail, remaining, times, now, period);
      var visited := Visit(times, v, now, period).value;
      if Blocked(visited, v) {
        LargestFrame(tail, n, times, visited, now, period);
        AllotFewest(tail, remaining, visited, now, period, n);
      } else {
        LargestFrame(tail, n - 1, times, visited, now, period);
        var take := if ds[0].amount < remaining then ds[0].amount else remaining;
        AllotFewest(tail, remaining - take, visited, now, period, n - 1);
      }
    }
  }

  /** No other allocation of the same amount touches fewer validators, and where no stored time
      overflows one is found whenever there is any. */
  lemma AllocateFewest(ds: seq<Delegation>, target: nat, times: Times, now: nat, period: nat,
                       other: map<string, nat>)
    requires NoDup(ds) && Alternative(other, ds, times, now, period) && SumBy(other, Same()) == target
    ensures VisitsFit(ds, times, period) ==> Allocate(ds, target, times, now, period).Ok?
    ensures Allocate(ds, target, times, now, period).Ok? ==>
      |Allocate(ds, target, times, now, period).value.infos| <= |other|
  {
    SortNames(ds);
    SortSorted(ds);
    forall v | v in other ensures v in Names(SortDesc(ds)) && other[v] <= AmountOf(SortDesc(ds), v) {
      SortAmount(ds, v);
    }
    AllocateExact(ds, target, times, now, period);
    AlternativeAvailable(ds, times, now, period, other);
    AtMostLargest(SortDesc(ds), times, now, period, other);
    if Allocate(ds, target, times, now, period).Ok? {
      AllotFewest(SortDesc(ds), target, times, now, period, |other|);
    }
  }

  lemma {:induction false} AlternativeAvailable(ds: seq<Delegation>, times: Times, now: nat, period: nat,
                                  other: map<string, nat>)
    requires NoDup(ds) && Alternative(other, ds, times, now, period)
    ensures SumBy(other, Same()) <= Available(ds, times, now, period)
  {
    if ds == [] {
      assert other == map[];
    } else if ds[0].validator in other {
      SumByRemove(other, Same(), ds[0].validator);
      AlternativeAvailable(ds[1..], times, now, period, other - {ds[0].validator});
    } else {
      AlternativeAvailable(ds[1..], times, now, period, other);
    }
  }

  // ---- Reward withdrawals beside the undelegations ----

  /** The delegating validators left without an undelegation, found as the contract finds them:
      a set difference, taken only when the two lists have different lengths. */
  function RewardOnly(ds: seq<Delegation>, infos: seq<UnbondInfo>): set<string> {
    if |infos| != |ds| then Names(ds) - InfoNames(infos) else {}
  }

  lemma {:induction false} NamesCount(ds: seq<Delegation>)
    requires NoDup(ds)
    ensures |Names(ds)| == |ds|
  {
    if ds != [] {
      NamesCount(ds[1..]);
    }
  }

  lemma {:induction false} InfoNamesCount(infos: seq<UnbondInfo>)
    requires NoDupInfos(infos)
    ensures |InfoNames(infos)| == |infos|
  {
    if infos != [] {
      InfoNamesCount(infos[1..]);
    }
  }

  lemma SubsetOfSameSize(a: set<string>, b: set<string>)
    requires a <= b && |a| == |b|
    ensures a == b
  {
    assert |b - a| == 0;
  }

  /** Every delegating validator is undelegated from or has its reward withdrawn, never both. */
  lemma EveryDelegationTouched(ds: seq<Delegation>, infos: seq<UnbondInfo>)
    requires NoDup(ds) && NoDupInfos(infos) && InfoNames(infos) <= Names(ds)
    ensures InfoNames(infos) + RewardOnly(ds, infos) == Names(ds)
    ensures InfoNames(infos) !! RewardOnly(ds, infos)
  {
    if |infos| == |ds| {
      NamesCount(ds);
      InfoNamesCount(infos);
      SubsetOfSameSize(InfoNames(infos), Names(ds));
    }
  }

  // ---- Delegating a surplus ----

  datatype RemoteMsg =
    | Delegate(validator: string, amount: nat)
    | Undelegate(validator: string, amount: nat)
    | WithdrawReward(validator: string)
    | Redelegate(source: string, target: string, amount: nat)
    | Send(receiver: string, amount: nat)
    | IbcTransfer(amount: nat)
    | Redeem(denom: string, amount: nat)

  function Delegated(msgs: seq<RemoteMsg>): nat {
    if msgs == [] then 0
    else (if msgs[0].Delegate? then msgs[0].amount else 0) + Delegated(msgs[1..])
  }

  function Undelegated(msgs: seq<RemoteMsg>): nat {
    if msgs == [] then 0 else (if msgs[0].Undelegate? then msgs[0].amount else 0) + Undelegated(msgs[1..])
  }

  /** An equal share, and for the first validator the remainder as well. */
  function ShareOf(amount: nat, count: nat, i: nat): nat
    requires count > 0
  {
    FloorBounds(amount, count);
    amount / count + if i == 0 then amount - amount / count * count else 0
  }

  /** The shares of the validators from index i on. */
  function Shares(amount: nat, vals: seq<string>, i: nat): seq<RemoteMsg>
    requires i <= |vals|
    decreases |vals| - i
  {
    if i == |vals| then [] else [Delegate(vals[i], ShareOf(amount, |vals|, i))] + Shares(amount, vals, i + 1)
  }

  /** A small amount goes to the first validator whole; the others only have rewards withdrawn. */
  function Small(amount: nat, vals: seq<string>, i: nat): seq<RemoteMsg>
    requires i <= |vals|
    decreases |vals| - i
  {
    if i == |vals| then []
    else [if i == 0 then Delegate(vals[0], amount) else WithdrawReward(vals[i])] + Small(amount, vals, i + 1)
  }

  predicate NoUndelegation(msgs: seq<RemoteMsg>) {
    msgs == [] || (!msgs[0].Undelegate? && NoUndelegation(msgs[1..]))
  }

  lemma {:induction false} SharesOnlyDelegate(amount: nat, vals: seq<string>, i: nat)
    requires i <= |vals|
    ensures NoUndelegation(Shares(amount, vals, i))
    decreases |vals| - i
  {
    if i < |vals| {
      SharesOnlyDelegate(amount, vals, i + 1);
      assert Shares(amount, vals, i)[1..] == Shares(amount, vals, i + 1);
    }
  }

  lemma {:induction false} SmallOnlyDelegates(amount: nat, vals: seq<string>, i: nat)
    requires i <= |vals|
    ensures NoUndelegation(Small(amount, vals, i))
    decreases |vals| - i
  {
    if i < |vals| {
      SmallOnlyDelegates(amount, vals, i + 1);
      assert Small(amount, vals, i)[1..] == Small(amount, vals, i + 1);
    }
  }

  lemma OneMoreShare(count: nat, share: nat)
    ensures (count + 1) * share == count * share + share
  {
  }

  lemma SharesHead(amount: nat, vals: seq<string>, i: nat)
    requires 0 < i < |vals|
    ensures Delegated(Shares(amount, vals, i)) == amount / |vals| + Delegated(Shares(amount, vals, i + 1))
  {
    assert Shares(amount, vals, i)[1..] == Shares(amount, vals, i + 1);
  }

  lemma {:induction false} SharesRest(amount: nat, vals: seq<string>, i: nat)
    requires 0 < i <= |vals|
    ensures Delegated(Shares(amount, vals, i)) == (|vals| - i) * (amount / |vals|)
    decreases |vals| - i
  {
    if i < |vals| {
      SharesRest(amount, vals, i + 1);
      SharesHead(amount, vals, i);
      OneMoreShare(|vals| - (i + 1), amount / |vals|);
    }
  }

  lemma {:induction false} SmallRest(amount: nat, vals: seq<string>, i: nat)
    requires 0 < i <= |vals|
    ensures Delegated(Small(amount, vals, i)) == 0
    decreases |vals| - i
  {
    if i < |vals| {
      SmallRest(amount, vals, i + 1);
      assert Small(amount, vals, i)[1..] == Small(amount, vals, i + 1);
    }
  }

  /** Neither way of splitting loses or invents anything. */
  lemma SplitConserves(amount: nat, vals: seq<string>)
    requires vals != []
    ensures Delegated(Shares(amount, vals, 0)) == amount == Delegated(Small(amount, vals, 0))
  {
    SharesRest(amount, vals, 1);
    SmallRest(amount, vals, 1);
    assert Shares(amount, vals, 0)[1..] == Shares(amount, vals, 1);
    assert Small(amount, vals, 0)[1..] == Small(amount, vals, 1);
    FloorBounds(amount, |vals|);
    assert (|vals| - 1) * (amount / |vals|) == amount / |vals| * |vals| - amount / |vals|;
  }
}
