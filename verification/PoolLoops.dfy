/** The loops of the pool's handlers, each against the recursive function that says what it computes. */
module PoolLoops {
  import opened Arith
  import opened Allocation
  import opened Payload
  import opened PoolTypes
  import opened PoolSteps

  method MarkAll(unstakes: map<nat, UnstakeInfo>, indices: seq<nat>, sender: string, era: nat, period: nat)
    returns (r: Result<Marked>)
    ensures r == MarkPending(unstakes, indices, sender, era, period, 0)
  {
    var table, total := unstakes, 0;
    var i := 0;
    assert indices[0..] == indices;
    while i < |indices|
      invariant 0 <= i <= |indices|
      invariant MarkPending(unstakes, indices, sender, era, period, 0)
        == MarkPending(table, indices[i..], sender, era, period, total)
    {
      var index := indices[i];
      assert indices[i..][1..] == indices[i + 1..];
      if index !in table {
        return Err(NotFound);
      }
      var record := table[index];
      if record.unstaker != sender {
        return Err(UnstakerNotMatch);
      }
      if record.status == Pending {
        return Err(UnstakeStatusNotMatch);
      }
      var due :- Add64(record.era, period);
      if due > era {
        return Err(UnstakeNotWithdrawable);
      }
      total :- Add(total, record.amount);
      table := table[index := record.(status := Pending)];
      i := i + 1;
    }
    return Ok(Marked(table, total));
  }

  datatype Swept = Swept(table: map<nat, UnstakeInfo>, kept: seq<nat>)

  /** Removing the named records and entries one by one. */
  function Sweep(at: Swept, list: seq<nat>, fields: seq<string>): Swept
    decreases |list|
  {
    if list == [] then at
    else Sweep(if Dec(list[0]) in fields then Swept(at.table - {list[0]}, at.kept)
               else Swept(at.table, at.kept + [list[0]]),
               list[1..], fields)
  }

  lemma {:induction false} SweptTable(at: Swept, list: seq<nat>, fields: seq<string>)
    ensures Sweep(at, list, fields).table == at.table - Dropped(list, fields)
    decreases |list|
  {
    if list != [] {
      DroppedHead(list, fields);
      SweptTable(Swept(at.table - {list[0]}, at.kept), list[1..], fields);
      SweptTable(Swept(at.table, at.kept + [list[0]]), list[1..], fields);
    }
  }

  lemma {:induction false} SweptKept(at: Swept, list: seq<nat>, fields: seq<string>)
    ensures Sweep(at, list, fields).kept == at.kept + Kept(list, fields)
    decreases |list|
  {
    if list != [] {
      if Dec(list[0]) in fields {
        SweptKept(Swept(at.table - {list[0]}, at.kept), list[1..], fields);
      } else {
        SweptKept(Swept(at.table, at.kept + [list[0]]), list[1..], fields);
      }
    }
  }

  lemma DroppedHead(list: seq<nat>, fields: seq<string>)
    requires list != []
    ensures Dropped(list, fields) == (if Dec(list[0]) in fields then {list[0]} else {}) + Dropped(list[1..], fields)
  {
    assert list == [list[0]] + list[1..];
  }

  /** Removes the named records, and their indices from the user's list. */
  method Retain(unstakes: map<nat, UnstakeInfo>, list: seq<nat>, fields: seq<string>)
    returns (table: map<nat, UnstakeInfo>, kept: seq<nat>)
    ensures table == unstakes - Dropped(list, fields) && kept == Kept(list, fields)
  {
    table, kept := unstakes, [];
    var i := 0;
    assert list[0..] == list;
    while i < |list|
      invariant 0 <= i <= |list|
      invariant Sweep(Swept(table, kept), list[i..], fields) == Sweep(Swept(unstakes, []), list, fields)
    {
      assert list[i..][1..] == list[i + 1..];
      if Dec(list[i]) in fields {
        table := table - {list[i]};
      } else {
        kept := kept + [list[i]];
      }
      i := i + 1;
    }
    SweptTable(Swept(unstakes, []), list, fields);
    SweptKept(Swept(unstakes, []), list, fields);
  }

  method ReopenAll(unstakes: map<nat, UnstakeInfo>, fields: seq<string>) returns (r: Result<map<nat, UnstakeInfo>>)
    ensures r == Reopen(unstakes, fields)
  {
    var table := unstakes;
    var i := 0;
    assert fields[0..] == fields;
    while i < |fields|
      invariant 0 <= i <= |fields|
      invariant Reopen(unstakes, fields) == Reopen(table, fields[i..])
    {
      assert fields[i..][1..] == fields[i + 1..];
      var index := ParseUint(fields[i], U64_MAX);
      if index.None? {
        return Err(NotFound);
      }
      if index.value !in table {
        return Err(NotFound);
      }
      table := table[index.value := table[index.value].(status := Default)];
      i := i + 1;
    }
    return Ok(table);
  }

  method BuildUndelegations(infos: seq<UnbondInfo>) returns (names: seq<string>, msgs: seq<RemoteMsg>)
    ensures names == Validators(infos) && msgs == Undelegations(infos)
  {
    names, msgs := [], [];
    var i := 0;
    assert infos[0..] == infos;
    while i < |infos|
      invariant 0 <= i <= |infos|
      invariant names + Validators(infos[i..]) == Validators(infos)
      invariant msgs + Undelegations(infos[i..]) == Undelegations(infos)
    {
      assert infos[i..][1..] == infos[i + 1..];
      names := names + [infos[i].validator];
      msgs := msgs + [Undelegate(infos[i].validator, infos[i].amount)];
      i := i + 1;
    }
  }

  /** A small deposit: all of it to the first validator, a reward withdrawal from each other. */
  method DelegateToFirst(amount: nat, vals: seq<string>, supported: seq<string>) returns (r: Result<seq<RemoteMsg>>)
    ensures r == if AllSupported(vals, supported) then Ok(Small(amount, vals, 0)) else Err(ValidatorNotSupport)
  {
    var msgs := [];
    var i := 0;
    while i < |vals|
      invariant 0 <= i <= |vals|
      invariant forall j :: 0 <= j < i ==> vals[j] in supported
      invariant msgs + Small(amount, vals, i) == Small(amount, vals, 0)
    {
      if vals[i] !in supported {
        return Err(ValidatorNotSupport);
      }
      if i == 0 {
        msgs := msgs + [Delegate(vals[i], amount)];
      } else {
        msgs := msgs + [WithdrawReward(vals[i])];
      }
      i := i + 1;
    }
    assert msgs + [] == msgs;
    return Ok(msgs);
  }

  method DelegateShares(amount: nat, vals: seq<string>, supported: seq<string>) returns (r: Result<seq<RemoteMsg>>)
    requires vals != []
    ensures r == if AllSupported(vals, supported) then Ok(Shares(amount, vals, 0)) else Err(ValidatorNotSupport)
  {
    var share := amount / |vals|;
    FloorBounds(amount, |vals|);
    var remainder := amount - share * |vals|;
    var msgs := [];
    var i := 0;
    while i < |vals|
      invariant 0 <= i <= |vals|
      invariant forall j :: 0 <= j < i ==> vals[j] in supported
      invariant msgs + Shares(amount, vals, i) == Shares(amount, vals, 0)
    {
      if vals[i] !in supported {
        return Err(ValidatorNotSupport);
      }
      var mine := share;
      if i == 0 {
        mine := mine + remainder;
      }
      msgs := msgs + [Delegate(vals[i], mine)];
      i := i + 1;
    }
    assert msgs + [] == msgs;
    return Ok(msgs);
  }

  /** The shares of a direct delegation, which goes to every validator of the pool. */
  method DelegateToAll(amount: nat, vals: seq<string>) returns (msgs: seq<RemoteMsg>)
    requires vals != []
    ensures msgs == Shares(amount, vals, 0)
  {
    var share := amount / |vals|;
    FloorBounds(amount, |vals|);
    var remainder := amount - share * |vals|;
    msgs := [];
    for i := 0 to |vals|
      invariant msgs + Shares(amount, vals, i) == Shares(amount, vals, 0)
    {
      var mine := share;
      if i == 0 {
        mine := mine + remainder;
      }
      msgs := msgs + [Delegate(vals[i], mine)];
    }
    assert msgs + [] == msgs;
  }

  method StampAll(before: Times, vals: seq<string>, now: nat) returns (times: Times)
    ensures times == Stamp(before, vals, now)
  {
    times := before;
    var i := 0;
    assert vals[0..] == vals;
    while i < |vals|
      invariant 0 <= i <= |vals|
      invariant Stamp(before, vals, now) == Stamp(times, vals[i..], now)
    {
      assert vals[i..][1..] == vals[i + 1..];
      if vals[i] in times {
        times := times[vals[i] := times[vals[i]] + [now]];
      } else {
        assert [] + [now] == [now];
        times := times[vals[i] := [now]];
      }
      i := i + 1;
    }
  }

  method SumAll(ds: seq<Delegation>) returns (r: Result<nat>)
    ensures r == SumDelegations(ds, 0)
  {
    var total := 0;
    var i := 0;
    assert ds[0..] == ds;
    while i < |ds|
      invariant 0 <= i <= |ds|
      invariant SumDelegations(ds, 0) == SumDelegations(ds[i..], total)
    {
      assert ds[i..][1..] == ds[i + 1..];
      total :- Add(total, ds[i].amount);
      i := i + 1;
    }
    return Ok(total);
  }

  method RetainOthers(vals: seq<string>, v: string) returns (left: seq<string>)
    ensures left == Without(vals, v)
  {
    left := [];
    var i := 0;
    assert vals[0..] == vals;
    while i < |vals|
      invariant 0 <= i <= |vals|
      invariant left + Without(vals[i..], v) == Without(vals, v)
    {
      assert vals[i..][1..] == vals[i + 1..];
      if vals[i] != v {
        left := left + [vals[i]];
      }
      i := i + 1;
    }
  }

  method BuildRedelegations(ds: seq<Delegation>, source: string, target: string) returns (msgs: seq<RemoteMsg>)
    ensures msgs == Redelegations(ds, source, target)
  {
    msgs := [];
    var i := 0;
    assert ds[0..] == ds;
    while i < |ds|
      invariant 0 <= i <= |ds|
      invariant msgs + Redelegations(ds[i..], source, target) == Redelegations(ds, source, target)
    {
      assert ds[i..][1..] == ds[i + 1..];
      if ds[i].validator == source {
        if ds[i].amount == 0 {
          break;
        }
        msgs := msgs + [Redelegate(source, target, ds[i].amount)];
      }
      i := i + 1;
    }
  }

  /** The denominations and messages of a redemption; the first token that is not waiting, or whose
      denomination was named before, ends it. */
  method CollectRedemptions(tokens: seq<Coin>, pending: seq<Coin>) returns (r: Result<(seq<string>, seq<RemoteMsg>)>)
    ensures var spec := Denoms(tokens, pending, []);
      r == if spec.Ok? then Ok((spec.value, Redemptions(tokens))) else Err(spec.error)
  {
    var denoms: seq<string>, msgs: seq<RemoteMsg> := [], [];
    var i := 0;
    assert tokens[0..] == tokens;
    while i < |tokens|
      invariant 0 <= i <= |tokens|
      invariant Denoms(tokens, pending, []) == Denoms(tokens[i..], pending, denoms)
      invariant msgs + Redemptions(tokens[i..]) == Redemptions(tokens)
    {
      assert tokens[i..][1..] == tokens[i + 1..];
      if tokens[i] !in pending {
        return Err(ShareTokenNotExist);
      }
      if tokens[i].denom in denoms {
        return Err(DuplicateToken);
      }
      denoms := denoms + [tokens[i].denom];
      msgs := msgs + [RemoteMsg.Redeem(tokens[i].denom, tokens[i].amount)];
      i := i + 1;
    }
    assert msgs + [] == msgs;
    return Ok((denoms, msgs));
  }

  method RetainCoins(coins: seq<Coin>, denoms: seq<string>) returns (left: seq<Coin>)
    ensures left == NotOf(coins, denoms)
  {
    left := [];
    var i := 0;
    assert coins[0..] == coins;
    while i < |coins|
      invariant 0 <= i <= |coins|
      invariant left + NotOf(coins[i..], denoms) == NotOf(coins, denoms)
    {
      assert coins[i..][1..] == coins[i + 1..];
      if coins[i].denom !in denoms {
        left := left + [coins[i]];
      }
      i := i + 1;
    }
  }

  method RetainNames(names: seq<string>, denoms: seq<string>) returns (left: seq<string>)
    ensures left == NotIn(names, denoms)
  {
    left := [];
    var i := 0;
    assert names[0..] == names;
    while i < |names|
      invariant 0 <= i <= |names|
      invariant left + NotIn(names[i..], denoms) == NotIn(names, denoms)
    {
      assert names[i..][1..] == names[i + 1..];
      if names[i] !in denoms {
        left := left + [names[i]];
      }
      i := i + 1;
    }
  }
}
