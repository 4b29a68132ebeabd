/** The unstake records, the users' lists, and the withdrawal packets that are out always agree, and
    everything ever added to the unbond counter by unstakes is still accounted for. */
module UnstakeLedger {
  import opened Arith
  import opened Sums
  import opened Allocation
  import opened Payload
  import opened PoolTypes
  import opened PoolSteps
  import opened Worlds
  import opened Flight
  import opened Settlements

  function Open(): UnstakeInfo -> nat { (r: UnstakeInfo) => if r.status == Default then r.amount else 0 }

  function Due(): Ticket -> nat { (t: Ticket) => t.amount }

  function IndexSum(table: map<nat, UnstakeInfo>, indices: seq<nat>): nat
    requires forall i :: i in indices ==> i in table
  {
    if indices == [] then 0 else table[indices[0]].amount + IndexSum(table, indices[1..])
  }

  // ---- The invariant ----

  /** Every live record is an unstake that was accepted, less 5 kept against rounding. */
  predicate Recorded(table: map<nat, UnstakeInfo>, issued: map<nat, Issue>) {
    forall i :: i in table ==>
      && i in issued && table[i].index == i && table[i].era == issued[i].era
      && table[i].unstaker == issued[i].unstaker && table[i].amount + 5 == issued[i].tokens
      && IsAddress(table[i].unstaker)
  }

  predicate ListOk(user: string, list: seq<nat>, table: map<nat, UnstakeInfo>) {
    Distinct(list) && forall i :: i in list ==> i in table && table[i].unstaker == user
  }

  /** A record is in the list of its unstaker, once, and in no other. */
  predicate Listed(l: Ledger) {
    && (forall u :: u in l.userIndex ==> ListOk(u, l.userIndex[u], l.unstakes))
    && (forall i :: i in l.unstakes ==>
        l.unstakes[i].unstaker in l.userIndex && i in l.userIndex[l.unstakes[i].unstaker])
  }

  predicate TicketText(payload: SudoPayload, t: Ticket) {
    payload == SudoPayload(WithdrawMessage(t.amount, t.user, t.receiver, t.indices), TxUserWithdraw)
  }

  /** The withdrawal payloads that are out are the tickets. */
  predicate Carried(payloads: map<PacketKey, SudoPayload>, tickets: map<PacketKey, Ticket>) {
    && (forall k :: k in payloads && payloads[k].txType == TxUserWithdraw ==> k in tickets)
    && (forall k :: k in tickets ==> k in payloads && TicketText(payloads[k], tickets[k]))
  }

  predicate TicketOk(k: PacketKey, t: Ticket, table: map<nat, UnstakeInfo>, holder: map<nat, PacketKey>) {
    && t.indices != [] && Distinct(t.indices) && IsAddress(t.user) && IsAddress(t.receiver)
    && (forall i :: i in t.indices ==>
          i in holder && holder[i] == k && i in table && table[i].unstaker == t.user && table[i].status == Pending)
    && t.amount == IndexSum(table, t.indices)
  }

  /** A record is pending exactly while one packet holds it. */
  predicate Held(table: map<nat, UnstakeInfo>, p: Payouts) {
    && (forall k :: k in p.tickets ==> TicketOk(k, p.tickets[k], table, p.holder))
    && (forall i :: i in table && table[i].status == Pending ==> i in p.holder)
    && (forall i :: i in p.holder ==> p.holder[i] in p.tickets && i in p.tickets[p.holder[i]].indices)
  }

  /** Paid, pending, open, and 5 for every unstake make up everything ever added to unbond. */
  ghost predicate Conserved(table: map<nat, UnstakeInfo>, issued: map<nat, Issue>, p: Payouts) {
    p.paid + SumBy(p.tickets, Due()) + SumBy(table, Open()) + 5 * |issued| == SumBy(issued, Tokens())
  }

  ghost predicate LedgerOk(l: Ledger, payloads: map<PacketKey, SudoPayload>, issued: map<nat, Issue>, p: Payouts) {
    && Recorded(l.unstakes, issued) && Listed(l) && Carried(payloads, p.tickets)
    && Held(l.unstakes, p) && Conserved(l.unstakes, issued, p)
  }

  // ---- Marking records pending ----

  function MarkedTable(table: map<nat, UnstakeInfo>, indices: seq<nat>): map<nat, UnstakeInfo> {
    map i | i in table :: if i in indices then table[i].(status := Pending) else table[i]
  }

  lemma {:induction false} SumFrame(table: map<nat, UnstakeInfo>, other: map<nat, UnstakeInfo>, indices: seq<nat>)
    requires forall i :: i in indices ==> i in table && i in other && table[i].amount == other[i].amount
    ensures IndexSum(table, indices) == IndexSum(other, indices)
  {
    if indices != [] {
      SumFrame(table, other, indices[1..]);
    }
  }

  /** An accepted list has no repeated index, and names open, due records of the sender. */
  lemma {:induction false} MarkPendingChecks(table: map<nat, UnstakeInfo>, indices: seq<nat>, sender: string,
                                  era: nat, period: nat, total: nat)
    requires MarkPending(table, indices, sender, era, period, total).Ok?
    ensures Distinct(indices)
    ensures forall i :: i in indices ==>
      i in table && table[i].unstaker == sender && table[i].status == Default && table[i].era + period <= era
  {
    if indices != [] {
      var i, rest := indices[0], indices[1..];
      MarkPendingChecks(table[i := table[i].(status := Pending)], rest, sender, era, period, total + table[i].amount);
      assert i !in rest;
      assert indices == [i] + rest;
    }
  }

  /** Marking moves exactly the listed amounts from open to pending. */
  lemma {:induction false} MarkPendingExact(table: map<nat, UnstakeInfo>, indices: seq<nat>, sender: string, era: nat,
                                  period: nat, total: nat)
    requires MarkPending(table, indices, sender, era, period, total).Ok?
    ensures forall i :: i in indices ==> i in table
    ensures MarkPending(table, indices, sender, era, period, total).value
      == Marked(MarkedTable(table, indices), total + IndexSum(table, indices))
    ensures SumBy(MarkedTable(table, indices), Open()) + IndexSum(table, indices) == SumBy(table, Open())
  {
    if indices == [] {
      assert MarkedTable(table, indices) == table;
    } else {
      var i, rest := indices[0], indices[1..];
      var next := table[i := table[i].(status := Pending)];
      MarkPendingExact(next, rest, sender, era, period, total + table[i].amount);
      MarkedStep(table, i, rest);
      SumByUpdate(table, Open(), i, next[i]);
      assert indices == [i] + rest;
    }
  }

  lemma MarkedStep(table: map<nat, UnstakeInfo>, i: nat, rest: seq<nat>)
    requires i in table && (forall j :: j in rest ==> j in table)
    ensures var next := table[i := table[i].(status := Pending)];
      && MarkedTable(next, rest) == MarkedTable(table, [i] + rest)
      && IndexSum(table, [i] + rest) == table[i].amount + IndexSum(next, rest)
  {
    var next := table[i := table[i].(status := Pending)];
    assert ([i] + rest)[1..] == rest;
    SumFrame(next, table, rest);
  }

  /** A list that names an index twice is refused. */
  lemma RepeatedIndexRefused(s: PoolState, sender: string, receiver: string, indices: seq<nat>, key: PacketKey)
    requires !Distinct(indices)
    ensures Withdraw(s, sender, receiver, indices, key).Err?
  {
    if MarkPending(s.ledger.unstakes, indices, sender, s.pool.clock.era, s.pool.clock.unbondingPeriod, 0).Ok? {
      MarkPendingChecks(s.ledger.unstakes, indices, sender, s.pool.clock.era, s.pool.clock.unbondingPeriod, 0);
    }
  }

  /** Open, due records of the ticket's user. */
  predicate Claims(table: map<nat, UnstakeInfo>, t: Ticket) {
    && t.indices != [] && Distinct(t.indices) && IsAddress(t.user) && IsAddress(t.receiver)
    && (forall i :: i in t.indices ==> i in table && table[i].unstaker == t.user && table[i].status == Default)
  }

  lemma MarkedHeld(table: map<nat, UnstakeInfo>, p: Payouts, key: PacketKey, t: Ticket)
    requires Held(table, p) && key !in p.tickets
    requires Claims(table, t) && t.amount == IndexSum(table, t.indices)
    ensures Held(MarkedTable(table, t.indices), Hold(p, key, t))
  {
    var after := MarkedTable(table, t.indices);
    var holder := HoldAll(p.holder, t.indices, key);
    var tickets := p.tickets[key := t];
    forall k | k in tickets ensures TicketOk(k, tickets[k], after, holder) {
      SumFrame(table, after, tickets[k].indices);
      if k != key {
        assert TicketOk(k, p.tickets[k], table, p.holder);
      }
    }
    forall i | i in holder ensures holder[i] in tickets && i in tickets[holder[i]].indices {
      if i in p.holder && i !in t.indices {
        assert holder[i] == p.holder[i];
      }
    }
  }

  lemma MarkedListed(l: Ledger, indices: seq<nat>)
    requires Listed(l)
    ensures Listed(l.(unstakes := MarkedTable(l.unstakes, indices)))
  {
    var after := l.(unstakes := MarkedTable(l.unstakes, indices));
    forall u | u in l.userIndex ensures ListOk(u, l.userIndex[u], after.unstakes) {
      assert ListOk(u, l.userIndex[u], l.unstakes);
    }
  }

  lemma NewTicketCarried(payloads: map<PacketKey, SudoPayload>, tickets: map<PacketKey, Ticket>, key: PacketKey,
                         t: Ticket, payload: SudoPayload)
    requires Carried(payloads, tickets) && key !in payloads && TicketText(payload, t)
    ensures Carried(payloads[key := payload], tickets[key := t]) && key !in tickets
  {
  }

  lemma MarkedRecorded(table: map<nat, UnstakeInfo>, indices: seq<nat>, issued: map<nat, Issue>)
    requires Recorded(table, issued)
    ensures Recorded(MarkedTable(table, indices), issued)
  {
  }

  lemma TicketLedger(l: Ledger, payloads: map<PacketKey, SudoPayload>, issued: map<nat, Issue>, p: Payouts,
                     key: PacketKey, t: Ticket, payload: SudoPayload)
    requires LedgerOk(l, payloads, issued, p) && key !in payloads && TicketText(payload, t)
    requires Claims(l.unstakes, t) && t.amount == IndexSum(l.unstakes, t.indices)
    requires SumBy(MarkedTable(l.unstakes, t.indices), Open()) + t.amount == SumBy(l.unstakes, Open())
    ensures LedgerOk(l.(unstakes := MarkedTable(l.unstakes, t.indices)), payloads[key := payload], issued,
                     Hold(p, key, t))
  {
    NewTicketCarried(payloads, p.tickets, key, t, payload);
    MarkedHeld(l.unstakes, p, key, t);
    MarkedListed(l, t.indices);
    MarkedRecorded(l.unstakes, t.indices, issued);
    SumByInsert(p.tickets, Due(), key, t);
  }

  /** What an accepted withdrawal changes and sends. */
  lemma WithdrawShape(s: PoolState, sender: string, receiver: string, indices: seq<nat>, key: PacketKey)
    requires Withdraw(s, sender, receiver, indices, key).Ok?
    ensures indices != [] && Distinct(indices)
    ensures forall i :: i in indices ==>
      && i in s.ledger.unstakes && s.ledger.unstakes[i].unstaker == sender && s.ledger.unstakes[i].status == Default
      && s.ledger.unstakes[i].era + s.pool.clock.unbondingPeriod <= s.pool.clock.era
    ensures SumBy(MarkedTable(s.ledger.unstakes, indices), Open()) + IndexSum(s.ledger.unstakes, indices)
      == SumBy(s.ledger.unstakes, Open())
    ensures var o := Withdraw(s, sender, receiver, indices, key).value;
      var total := IndexSum(s.ledger.unstakes, indices);
      && o.effects.remote == [Send(receiver, total)] && o.state.pool == s.pool
      && o.state.ledger == s.ledger.(unstakes := MarkedTable(s.ledger.unstakes, indices))
      && o.state.mail.sudoPayloads
         == s.mail.sudoPayloads[key := SudoPayload(WithdrawMessage(total, sender, receiver, indices), TxUserWithdraw)]
  {
    MarkPendingChecks(s.ledger.unstakes, indices, sender, s.pool.clock.era, s.pool.clock.unbondingPeriod, 0);
    MarkPendingExact(s.ledger.unstakes, indices, sender, s.pool.clock.era, s.pool.clock.unbondingPeriod, 0);
  }

  lemma WithdrawLedger(s: PoolState, sender: string, receiver: string, indices: seq<nat>, key: PacketKey,
                       issued: map<nat, Issue>, p: Payouts)
    requires LedgerOk(s.ledger, s.mail.sudoPayloads, issued, p) && key !in s.mail.sudoPayloads
    requires IsAddress(sender) && IsAddress(receiver) && Withdraw(s, sender, receiver, indices, key).Ok?
    ensures var o := Withdraw(s, sender, receiver, indices, key).value;
      var t := Ticket(SentAmount(o.effects.remote), sender, receiver, indices);
      LedgerOk(o.state.ledger, o.state.mail.sudoPayloads, issued, Hold(p, key, t))
  {
    WithdrawShape(s, sender, receiver, indices, key);
    var t := Ticket(IndexSum(s.ledger.unstakes, indices), sender, receiver, indices);
    TicketLedger(s.ledger, s.mail.sudoPayloads, issued, p, key, t,
                 SudoPayload(WithdrawMessage(t.amount, sender, receiver, indices), TxUserWithdraw));
  }

  // ---- A withdrawal that was paid ----

  predicate PendingAll(table: map<nat, UnstakeInfo>, keys: set<nat>) {
    forall i :: i in keys ==> i in table && table[i].status == Pending
  }

  lemma {:induction false} DropKeepsOpen(table: map<nat, UnstakeInfo>, keys: set<nat>)
    requires PendingAll(table, keys)
    ensures SumBy(table - keys, Open()) == SumBy(table, Open())
    decreases |keys|
  {
    if keys == {} {
      assert table - keys == table;
    } else {
      var i :| i in keys;
      SumByRemove(table, Open(), i);
      DropKeepsOpen(table - {i}, keys - {i});
      assert table - {i} - (keys - {i}) == table - keys;
    }
  }

  lemma {:induction false} KeptExact(list: seq<nat>, fields: seq<string>)
    ensures forall i :: i in Kept(list, fields) <==> i in list && Dec(i) !in fields
    ensures Distinct(list) ==> Distinct(Kept(list, fields))
  {
    if list != [] {
      KeptExact(list[1..], fields);
      assert list == [list[0]] + list[1..];
    }
  }

  /** One user's list loses the given indices and nothing else. */
  ghost predicate Shortened(before: map<string, seq<nat>>, after: map<string, seq<nat>>, user: string,
                            indices: seq<nat>) {
    && user in before && user in after && after == before[user := after[user]] && Distinct(after[user])
    && (forall i :: i in after[user] <==> i in before[user] && i !in indices)
  }

  /** What the payment of a ticket changes: exactly its records go, from the table and from the list. */
  ghost predicate PaidBy(l: Ledger, after: Ledger, t: Ticket) {
    && after.unstakes == l.unstakes - IndexSet(t.indices)
    && Shortened(l.userIndex, after.userIndex, t.user, t.indices)
  }

  /** A ticket whose records are in the table. */
  predicate Backed(table: map<nat, UnstakeInfo>, t: Ticket) {
    && t.indices != [] && Distinct(t.indices) && IsAddress(t.user) && IsAddress(t.receiver)
    && (forall i :: i in t.indices ==> i in table && table[i].unstaker == t.user && table[i].status == Pending)
  }

  /** The success callback finds the indices of the ticket in its payload, and no others. */
  lemma NamedIndices(t: Ticket)
    requires t.indices != [] && IsAddress(t.user) && IsAddress(t.receiver)
    ensures var parts := Split(WithdrawMessage(t.amount, t.user, t.receiver, t.indices));
      |parts| > 3 && parts[1] == t.user && forall i :: Dec(i) in parts[1..] <==> i in t.indices
  {
    WithdrawRoundTrip(t.amount, t.user, t.receiver, t.indices);
    var parts := Split(WithdrawMessage(t.amount, t.user, t.receiver, t.indices));
    forall i ensures Dec(i) in parts[1..] <==> i in t.indices {
      WithdrawMembership(t.amount, t.user, t.receiver, t.indices, i);
    }
  }

  lemma DroppedExact(list: seq<nat>, fields: seq<string>, indices: seq<nat>)
    requires (forall i :: Dec(i) in fields <==> i in indices) && (forall i :: i in indices ==> i in list)
    ensures Dropped(list, fields) == IndexSet(indices)
  {
  }

  lemma PaidExact(l: Ledger, message: string, t: Ticket)
    requires Listed(l) && Backed(l.unstakes, t)
    requires message == WithdrawMessage(t.amount, t.user, t.receiver, t.indices)
    ensures PaidOut(l, message).Ok? && PaidBy(l, PaidOut(l, message).value, t)
  {
    NamedIndices(t);
    var fields := Split(message)[1..];
    assert t.indices[0] in t.indices;
    var list := l.userIndex[t.user];
    assert ListOk(t.user, list, l.unstakes);
    KeptExact(list, fields);
    DroppedExact(list, fields, t.indices);
  }

  lemma PaidListed(l: Ledger, after: Ledger, t: Ticket)
    requires Listed(l) && PaidBy(l, after, t) && Backed(l.unstakes, t)
    ensures Listed(after)
  {
    forall u | u in after.userIndex ensures ListOk(u, after.userIndex[u], after.unstakes) {
      assert ListOk(u, l.userIndex[u], l.unstakes);
    }
  }

  /** A table that has lost or reopened the records of a ticket and kept the others. */
  predicate Released(table: map<nat, UnstakeInfo>, after: map<nat, UnstakeInfo>, indices: seq<nat>) {
    && (forall i :: i in after ==> i in table && after[i].amount == table[i].amount)
    && (forall i :: i in table && i !in indices ==> i in after && after[i] == table[i])
    && (forall i :: i in after && i in indices ==> after[i].status == Default)
  }

  lemma OtherTicketOk(table: map<nat, UnstakeInfo>, after: map<nat, UnstakeInfo>, p: Payouts, key: PacketKey,
                      k: PacketKey)
    requires Held(table, p) && key in p.tickets && k in p.tickets && k != key
    requires Released(table, after, p.tickets[key].indices)
    ensures TicketOk(k, p.tickets[k], after, ReleaseAll(p.holder, p.tickets[key].indices))
  {
    var t := p.tickets[key];
    assert TicketOk(key, t, table, p.holder);
    assert TicketOk(k, p.tickets[k], table, p.holder);
    assert forall i :: i in p.tickets[k].indices ==> i !in t.indices;
    SumFrame(table, after, p.tickets[k].indices);
  }

  /** Closing a ticket leaves the others as they were. */
  lemma ReleasedHeld(table: map<nat, UnstakeInfo>, after: map<nat, UnstakeInfo>, p: Payouts, key: PacketKey,
                     success: bool)
    requires Held(table, p) && key in p.tickets && Released(table, after, p.tickets[key].indices)
    ensures Held(after, Close(p, key, success))
  {
    var t := p.tickets[key];
    var holder := ReleaseAll(p.holder, t.indices);
    forall k | k in p.tickets - {key} ensures TicketOk(k, p.tickets[k], after, holder) {
      OtherTicketOk(table, after, p, key, k);
    }
    forall i | i in holder ensures holder[i] in p.tickets - {key} && i in p.tickets[holder[i]].indices {
      assert i in p.holder && i !in t.indices;
    }
  }

  /** Closing a ticket, paid or not, over a table that has lost or reopened its records. */
  lemma ClosedConserved(table: map<nat, UnstakeInfo>, after: map<nat, UnstakeInfo>, issued: map<nat, Issue>,
                        p: Payouts, key: PacketKey, success: bool)
    requires Conserved(table, issued, p) && key in p.tickets
    requires SumBy(after, Open()) == SumBy(table, Open()) + if success then 0 else p.tickets[key].amount
    ensures Conserved(after, issued, Close(p, key, success))
  {
    SumByRemove(p.tickets, Due(), key);
  }

  lemma ClosedCarried(payloads: map<PacketKey, SudoPayload>, p: Payouts, key: PacketKey, success: bool)
    requires Carried(payloads, p.tickets) && key in p.tickets
    ensures Carried(payloads - {key}, Close(p, key, success).tickets)
  {
  }

  /** The ticket behind a withdrawal payload. */
  lemma TicketOf(table: map<nat, UnstakeInfo>, payloads: map<PacketKey, SudoPayload>, p: Payouts, key: PacketKey)
    requires Carried(payloads, p.tickets) && Held(table, p)
    requires key in payloads && payloads[key].txType == TxUserWithdraw
    ensures key in p.tickets && TicketText(payloads[key], p.tickets[key]) && Backed(table, p.tickets[key])
    ensures p.tickets[key].amount == IndexSum(table, p.tickets[key].indices)
  {
    assert TicketOk(key, p.tickets[key], table, p.holder);
  }

  lemma PaidHeld(table: map<nat, UnstakeInfo>, p: Payouts, key: PacketKey)
    requires Held(table, p) && key in p.tickets
    ensures Held(table - IndexSet(p.tickets[key].indices), Close(p, key, true))
  {
    ReleasedHeld(table, table - IndexSet(p.tickets[key].indices), p, key, true);
  }

  lemma PaidOpen(table: map<nat, UnstakeInfo>, t: Ticket)
    requires Backed(table, t)
    ensures SumBy(table - IndexSet(t.indices), Open()) == SumBy(table, Open())
  {
    DropKeepsOpen(table, IndexSet(t.indices));
  }

  lemma PaidLedger(l: Ledger, payloads: map<PacketKey, SudoPayload>, key: PacketKey, issued: map<nat, Issue>,
                   p: Payouts)
    requires LedgerOk(l, payloads, issued, p) && key in payloads && payloads[key].txType == TxUserWithdraw
    ensures key in p.tickets && PaidOut(l, payloads[key].message).Ok?
    ensures LedgerOk(PaidOut(l, payloads[key].message).value, payloads - {key}, issued, Close(p, key, true))
  {
    TicketOf(l.unstakes, payloads, p, key);
    PaidExact(l, payloads[key].message, p.tickets[key]);
    PaidClosed(l, PaidOut(l, payloads[key].message).value, payloads, key, issued, p);
  }

  lemma PaidClosed(l: Ledger, after: Ledger, payloads: map<PacketKey, SudoPayload>, key: PacketKey,
                   issued: map<nat, Issue>, p: Payouts)
    requires LedgerOk(l, payloads, issued, p) && key in p.tickets && Backed(l.unstakes, p.tickets[key])
    requires PaidBy(l, after, p.tickets[key])
    ensures LedgerOk(after, payloads - {key}, issued, Close(p, key, true))
  {
    PaidListed(l, after, p.tickets[key]);
    PaidHeld(l.unstakes, p, key);
    PaidOpen(l.unstakes, p.tickets[key]);
    ClosedCarried(payloads, p, key, true);
    ClosedConserved(l.unstakes, after.unstakes, issued, p, key, true);
  }

  // ---- A withdrawal that failed ----

  function ReopenedTable(table: map<nat, UnstakeInfo>, indices: seq<nat>): map<nat, UnstakeInfo> {
    map i | i in table :: if i in indices then table[i].(status := Default) else table[i]
  }

  /** Reopening gives the pending amounts back, record by record. */
  lemma {:induction false} ReopenExact(table: map<nat, UnstakeInfo>, indices: seq<nat>)
    requires Distinct(indices) && forall i :: i in indices ==> i in table && i <= U64_MAX && table[i].status == Pending
    ensures Reopen(table, Decs(indices)).Ok?
    ensures Reopen(table, Decs(indices)).value == ReopenedTable(table, indices)
    ensures SumBy(ReopenedTable(table, indices), Open()) == SumBy(table, Open()) + IndexSum(table, indices)
  {
    if indices == [] {
      assert ReopenedTable(table, indices) == table;
    } else {
      var i, rest := indices[0], indices[1..];
      assert indices == [i] + rest;
      assert Decs(indices)[1..] == Decs(rest);
      ParseDec(i, U64_MAX);
      var next := table[i := table[i].(status := Default)];
      forall j | j in rest ensures j in next && j <= U64_MAX && next[j].status == Pending {
        assert j in indices && j != i;
      }
      ReopenExact(next, rest);
      SumByUpdate(table, Open(), i, next[i]);
      ReopenedStep(table, i, rest);
    }
  }

  lemma ReopenedStep(table: map<nat, UnstakeInfo>, i: nat, rest: seq<nat>)
    requires i in table && (forall j :: j in rest ==> j in table)
    ensures var next := table[i := table[i].(status := Default)];
      && ReopenedTable(next, rest) == ReopenedTable(table, [i] + rest)
      && IndexSum(table, [i] + rest) == table[i].amount + IndexSum(next, rest)
  {
    var next := table[i := table[i].(status := Default)];
    assert ([i] + rest)[1..] == rest;
    SumFrame(next, table, rest);
  }

  lemma ReopenedListed(l: Ledger, indices: seq<nat>)
    requires Listed(l)
    ensures Listed(l.(unstakes := ReopenedTable(l.unstakes, indices)))
  {
    var after := l.(unstakes := ReopenedTable(l.unstakes, indices));
    forall u | u in l.userIndex ensures ListOk(u, l.userIndex[u], after.unstakes) {
      assert ListOk(u, l.userIndex[u], l.unstakes);
    }
  }

  /** The callback reopens exactly the records of its ticket. */
  lemma FailedExact(l: Ledger, message: string, t: Ticket)
    requires Backed(l.unstakes, t) && (forall i :: i in t.indices ==> i <= U64_MAX)
    requires message == WithdrawMessage(t.amount, t.user, t.receiver, t.indices)
    ensures Reverted(l, message) == Ok(l.(unstakes := ReopenedTable(l.unstakes, t.indices)))
    ensures SumBy(ReopenedTable(l.unstakes, t.indices), Open())
      == SumBy(l.unstakes, Open()) + IndexSum(l.unstakes, t.indices)
  {
    WithdrawRoundTrip(t.amount, t.user, t.receiver, t.indices);
    assert Split(message)[3..] == Decs(t.indices);
    ReopenExact(l.unstakes, t.indices);
  }

  lemma FailedHeld(table: map<nat, UnstakeInfo>, p: Payouts, key: PacketKey)
    requires Held(table, p) && key in p.tickets
    ensures Held(ReopenedTable(table, p.tickets[key].indices), Close(p, key, false))
  {
    ReleasedHeld(table, ReopenedTable(table, p.tickets[key].indices), p, key, false);
  }

  lemma ReopenedRecorded(table: map<nat, UnstakeInfo>, indices: seq<nat>, issued: map<nat, Issue>)
    requires Recorded(table, issued)
    ensures Recorded(ReopenedTable(table, indices), issued)
  {
  }

  lemma FailedClosed(l: Ledger, payloads: map<PacketKey, SudoPayload>, key: PacketKey, issued: map<nat, Issue>,
                     p: Payouts)
    requires LedgerOk(l, payloads, issued, p) && key in p.tickets
    requires SumBy(ReopenedTable(l.unstakes, p.tickets[key].indices), Open())
      == SumBy(l.unstakes, Open()) + p.tickets[key].amount
    ensures LedgerOk(l.(unstakes := ReopenedTable(l.unstakes, p.tickets[key].indices)), payloads - {key}, issued,
                     Close(p, key, false))
  {
    ReopenedRecorded(l.unstakes, p.tickets[key].indices, issued);
    ReopenedListed(l, p.tickets[key].indices);
    FailedHeld(l.unstakes, p, key);
    ClosedCarried(payloads, p, key, false);
    ClosedConserved(l.unstakes, ReopenedTable(l.unstakes, p.tickets[key].indices), issued, p, key, false);
  }

  lemma FailedLedger(l: Ledger, payloads: map<PacketKey, SudoPayload>, key: PacketKey, issued: map<nat, Issue>,
                     p: Payouts)
    requires LedgerOk(l, payloads, issued, p) && (forall i :: i in issued ==> i <= U64_MAX)
    requires key in payloads && payloads[key].txType == TxUserWithdraw
    ensures key in p.tickets && Reverted(l, payloads[key].message).Ok?
    ensures LedgerOk(Reverted(l, payloads[key].message).value, payloads - {key}, issued, Close(p, key, false))
  {
    TicketOf(l.unstakes, payloads, p, key);
    FailedExact(l, payloads[key].message, p.tickets[key]);
    FailedClosed(l, payloads, key, issued, p);
  }

  // ---- A new record ----

  lemma NewRecordListed(l: Ledger, user: string, record: UnstakeInfo, index: nat, list: seq<nat>)
    requires Listed(l) && index !in l.unstakes && record.unstaker == user
    requires list == if user in l.userIndex then l.userIndex[user] else []
    ensures Listed(Ledger(l.unstakes[index := record], l.userIndex[user := list + [index]]))
  {
    var after := Ledger(l.unstakes[index := record], l.userIndex[user := list + [index]]);
    forall u | u in after.userIndex ensures ListOk(u, after.userIndex[u], after.unstakes) {
      assert u in l.userIndex ==> ListOk(u, l.userIndex[u], l.unstakes);
    }
  }

  lemma NewRecordHeld(table: map<nat, UnstakeInfo>, p: Payouts, record: UnstakeInfo, index: nat)
    requires Held(table, p) && index !in table && record.status == Default
    ensures Held(table[index := record], p)
  {
    forall k | k in p.tickets ensures TicketOk(k, p.tickets[k], table[index := record], p.holder) {
      assert TicketOk(k, p.tickets[k], table, p.holder);
      SumFrame(table, table[index := record], p.tickets[k].indices);
    }
  }

  /** The ledger with a record for an accepted unstake, at the end of its user's list. */
  function WithRecord(l: Ledger, index: nat, issue: Issue): Ledger
    requires issue.tokens > 5
  {
    Ledger(l.unstakes[index := UnstakeInfo(issue.era, issue.unstaker, issue.tokens - 5, Default, index)],
           l.userIndex[issue.unstaker := (if issue.unstaker in l.userIndex then l.userIndex[issue.unstaker] else [])
                       + [index]])
  }

  /** What an accepted unstake changes in the ledger. */
  predicate RecordedUnstake(s: PoolState, after: PoolState, user: string) {
    && after.pool.book.unbond > s.pool.book.unbond + 5 && after.mail == s.mail
    && after.pool.nextUnstakeIndex == s.pool.nextUnstakeIndex + 1
    && after.ledger == WithRecord(s.ledger, after.pool.nextUnstakeIndex,
                                  Issue(s.pool.clock.era, user, after.pool.book.unbond - s.pool.book.unbond))
  }

  lemma UnstakeRecord(s: PoolState, user: string, amount: nat)
    requires Unstake(s, user, amount).Ok?
    ensures RecordedUnstake(s, Unstake(s, user, amount).value.state, user)
  {
  }

  lemma NewRecordRecorded(table: map<nat, UnstakeInfo>, issued: map<nat, Issue>, record: UnstakeInfo, index: nat,
                          issue: Issue)
    requires Recorded(table, issued) && index !in issued
    requires record == UnstakeInfo(issue.era, issue.unstaker, record.amount, Default, index)
    requires record.amount + 5 == issue.tokens && IsAddress(issue.unstaker)
    ensures Recorded(table[index := record], issued[index := issue])
  {
  }

  lemma NewRecordConserved(table: map<nat, UnstakeInfo>, issued: map<nat, Issue>, p: Payouts, record: UnstakeInfo,
                           index: nat, issue: Issue)
    requires Conserved(table, issued, p) && index !in issued && index !in table
    requires record.status == Default && record.amount + 5 == issue.tokens
    ensures Conserved(table[index := record], issued[index := issue], p)
  {
    SumByInsert(table, Open(), index, record);
    SumByInsert(issued, Tokens(), index, issue);
  }

  lemma NewRecordLedger(l: Ledger, payloads: map<PacketKey, SudoPayload>, issued: map<nat, Issue>, p: Payouts,
                        index: nat, issue: Issue)
    requires LedgerOk(l, payloads, issued, p) && index !in issued && issue.tokens > 5 && IsAddress(issue.unstaker)
    ensures LedgerOk(WithRecord(l, index, issue), payloads, issued[index := issue], p)
  {
    assert index !in l.unstakes;
    var record := UnstakeInfo(issue.era, issue.unstaker, issue.tokens - 5, Default, index);
    NewRecordRecorded(l.unstakes, issued, record, index, issue);
    NewRecordListed(l, issue.unstaker, record, index,
                    if issue.unstaker in l.userIndex then l.userIndex[issue.unstaker] else []);
    NewRecordHeld(l.unstakes, p, record, index);
    NewRecordConserved(l.unstakes, issued, p, record, index, issue);
  }

  lemma UnstakeLedger(s: PoolState, after: PoolState, user: string, issued: map<nat, Issue>, p: Payouts)
    requires LedgerOk(s.ledger, s.mail.sudoPayloads, issued, p) && s.pool.nextUnstakeIndex + 1 !in issued
    requires IsAddress(user)
    requires RecordedUnstake(s, after, user)
    ensures LedgerOk(after.ledger, after.mail.sudoPayloads,
                     issued[after.pool.nextUnstakeIndex := Issue(s.pool.clock.era, user,
                                                                 after.pool.book.unbond - s.pool.book.unbond)], p)
  {
    NewRecordLedger(s.ledger, s.mail.sudoPayloads, issued, p, s.pool.nextUnstakeIndex + 1,
                    Issue(s.pool.clock.era, user, after.pool.book.unbond - s.pool.book.unbond));
  }

  // ---- Every other message ----

  ghost predicate SameWithdrawals(before: map<PacketKey, SudoPayload>, after: map<PacketKey, SudoPayload>) {
    forall k :: (k in before && before[k].txType == TxUserWithdraw) || (k in after && after[k].txType == TxUserWithdraw)
      ==> k in before && k in after && before[k] == after[k]
  }

  ghost predicate Quiet(s: PoolState, after: PoolState) {
    after.ledger == s.ledger && SameWithdrawals(s.mail.sudoPayloads, after.mail.sudoPayloads)
  }

  lemma StillLedger(l: Ledger, before: map<PacketKey, SudoPayload>, after: map<PacketKey, SudoPayload>,
                    issued: map<nat, Issue>, p: Payouts)
    requires LedgerOk(l, before, issued, p) && SameWithdrawals(before, after)
    ensures LedgerOk(l, after, issued, p)
  {
  }

  lemma SetupQuiet(s: PoolState, a: Action, now: nat)
    requires (a.DoInitPool? || a.DoMigratePool?) && ApplyAdmin(s, a, now).Ok?
    requires Key(a).Some? ==> Key(a).value !in s.mail.sudoPayloads
    ensures Quiet(s, ApplyAdmin(s, a, now).value.state)
  {
  }

  lemma ValidatorsQuiet(s: PoolState, a: Action, now: nat)
    requires (a.DoUpdateValidator? || a.DoRmValidator?) && ApplyAdmin(s, a, now).Ok?
    requires Key(a).Some? ==> Key(a).value !in s.mail.sudoPayloads
    ensures Quiet(s, ApplyAdmin(s, a, now).value.state)
  {
  }

  lemma AdminQuiet(s: PoolState, a: Action, now: nat)
    requires ByAdmin(a) && ApplyAdmin(s, a, now).Ok? && (Key(a).Some? ==> Key(a).value !in s.mail.sudoPayloads)
    ensures Quiet(s, ApplyAdmin(s, a, now).value.state)
  {
    if a.DoInitPool? || a.DoMigratePool? {
      SetupQuiet(s, a, now);
    } else if a.DoUpdateValidator? || a.DoRmValidator? {
      ValidatorsQuiet(s, a, now);
    }
  }

  lemma UserQuiet(s: PoolState, a: Action)
    requires (a.DoStake? || a.DoStakeLsm? || a.DoRedeem?) && ApplyUser(s, a).Ok?
      && (Key(a).Some? ==> Key(a).value !in s.mail.sudoPayloads)
    ensures Quiet(s, ApplyUser(s, a).value.state)
  {
  }

  lemma BondQuiet(s: PoolState, query: Option<DelegationQuery>, selected: seq<string>, now: nat, key: PacketKey)
    requires EraBond(s, query, selected, now, key).Ok? && key !in s.mail.sudoPayloads
    ensures Quiet(s, EraBond(s, query, selected, now, key).value.state)
  {
    EraBondShape(s, query, selected, now, key);
  }

  lemma StepQuiet(s: PoolState, a: Action, now: nat, height: nat)
    requires a.DoEraUpdate? || a.DoEraBond? || a.DoCollectWithdraw? || a.DoRebond? || a.DoEraActive?
    requires ApplyEra(s, a, now, height).Ok? && (Key(a).Some? ==> Key(a).value !in s.mail.sudoPayloads)
    ensures Quiet(s, ApplyEra(s, a, now, height).value.state)
  {
    if a.DoEraBond? {
      BondQuiet(s, a.query, a.selected, now, a.key);
    }
  }

  lemma DeliverQuiet(s: PoolState, payload: SudoPayload, now: nat, height: nat)
    requires payload.txType != TxUserWithdraw
    ensures Callback(s, payload, now, height).Ok? ==> Callback(s, payload, now, height).value.state.ledger == s.ledger
    ensures FailedCallback(s, payload).Ok? ==> FailedCallback(s, payload).value.state.ledger == s.ledger
  {
  }

  /** What a delivery does to the ledger. */
  lemma DeliverShape(s: PoolState, key: PacketKey, success: bool, now: nat, height: nat)
    requires Deliver(s, key, success, now, height).Ok?
    ensures key in s.mail.sudoPayloads
    ensures var payload, after := s.mail.sudoPayloads[key], Deliver(s, key, success, now, height).value.state;
      && after.mail.sudoPayloads == s.mail.sudoPayloads - {key}
      && (if payload.txType != TxUserWithdraw then after.ledger == s.ledger
          else if success then PaidOut(s.ledger, payload.message) == Ok(after.ledger)
          else Reverted(s.ledger, payload.message) == Ok(after.ledger))
  {
    var s1 := s.(mail := s.mail.(sudoPayloads := s.mail.sudoPayloads - {key}));
    var payload := s.mail.sudoPayloads[key];
    if success {
      CallbackShape(s1, payload, now, height);
    } else {
      FailedCallbackShape(s1, payload);
    }
    if payload.txType != TxUserWithdraw {
      DeliverQuiet(s1, payload, now, height);
    }
  }

  lemma CarriedWithout(payloads: map<PacketKey, SudoPayload>, tickets: map<PacketKey, Ticket>, key: PacketKey)
    requires Carried(payloads, tickets) && key in payloads && payloads[key].txType != TxUserWithdraw
    ensures Carried(payloads - {key}, tickets) && key !in tickets
  {
  }

  lemma OtherDelivery(l: Ledger, payloads: map<PacketKey, SudoPayload>, key: PacketKey, issued: map<nat, Issue>,
                      p: Payouts)
    requires LedgerOk(l, payloads, issued, p) && key in payloads && payloads[key].txType != TxUserWithdraw
    ensures LedgerOk(l, payloads - {key}, issued, p) && key !in p.tickets
  {
    CarriedWithout(payloads, p.tickets, key);
  }

  lemma DeliverLedger(s: PoolState, key: PacketKey, success: bool, now: nat, height: nat, issued: map<nat, Issue>,
                      p: Payouts)
    requires LedgerOk(s.ledger, s.mail.sudoPayloads, issued, p) && (forall i :: i in issued ==> i <= U64_MAX)
    requires Deliver(s, key, success, now, height).Ok?
    ensures var after := Deliver(s, key, success, now, height).value.state;
      LedgerOk(after.ledger, after.mail.sudoPayloads, issued, if key in p.tickets then Close(p, key, success) else p)
  {
    DeliverShape(s, key, success, now, height);
    if s.mail.sudoPayloads[key].txType != TxUserWithdraw {
      OtherDelivery(s.ledger, s.mail.sudoPayloads, key, issued, p);
    } else if success {
      PaidLedger(s.ledger, s.mail.sudoPayloads, key, issued, p);
    } else {
      FailedLedger(s.ledger, s.mail.sudoPayloads, key, issued, p);
    }
  }

  lemma QuietLedger(s: PoolState, after: PoolState, issued: map<nat, Issue>, p: Payouts)
    requires LedgerOk(s.ledger, s.mail.sudoPayloads, issued, p) && Quiet(s, after)
    ensures LedgerOk(after.ledger, after.mail.sudoPayloads, issued, p)
  {
    StillLedger(s.ledger, s.mail.sudoPayloads, after.mail.sudoPayloads, issued, p);
  }

  lemma AdminLedger(s: PoolState, a: Action, now: nat, issued: map<nat, Issue>, p: Payouts)
    requires LedgerOk(s.ledger, s.mail.sudoPayloads, issued, p)
    requires ByAdmin(a) && ApplyAdmin(s, a, now).Ok? && (Key(a).Some? ==> Key(a).value !in s.mail.sudoPayloads)
    ensures var after := ApplyAdmin(s, a, now).value.state; LedgerOk(after.ledger, after.mail.sudoPayloads, issued, p)
  {
    AdminQuiet(s, a, now);
    QuietLedger(s, ApplyAdmin(s, a, now).value.state, issued, p);
  }

  lemma StepLedger(s: PoolState, a: Action, now: nat, height: nat, issued: map<nat, Issue>, p: Payouts)
    requires LedgerOk(s.ledger, s.mail.sudoPayloads, issued, p)
    requires a.DoEraUpdate? || a.DoEraBond? || a.DoCollectWithdraw? || a.DoRebond? || a.DoEraActive?
    requires ApplyEra(s, a, now, height).Ok? && (Key(a).Some? ==> Key(a).value !in s.mail.sudoPayloads)
    ensures var after := ApplyEra(s, a, now, height).value.state;
      LedgerOk(after.ledger, after.mail.sudoPayloads, issued, p)
  {
    StepQuiet(s, a, now, height);
    QuietLedger(s, ApplyEra(s, a, now, height).value.state, issued, p);
  }

  /** The three kinds of user messages. What the history notes of each is kept apart from what it does to
      the ledger. */
  lemma UnstakeBooked(h: Settlement, p: Payouts, s: PoolState, user: string, amount: nat, o: Outcome)
    requires o.state.pool.book.unbond >= s.pool.book.unbond
    ensures Pay(p, s, DoUnstake(user, amount), o) == p
    ensures Settle(h, s, DoUnstake(user, amount), o.state).issued
         == h.issued[o.state.pool.nextUnstakeIndex := Issue(s.pool.clock.era, user,
                                                            o.state.pool.book.unbond - s.pool.book.unbond)]
  {
  }

  lemma NotedLedger(s: PoolState, after: PoolState, user: string, issued: map<nat, Issue>, p: Payouts,
                    noted: map<nat, Issue>, kept: Payouts)
    requires LedgerOk(s.ledger, s.mail.sudoPayloads, issued, p) && s.pool.nextUnstakeIndex + 1 !in issued
    requires IsAddress(user) && RecordedUnstake(s, after, user) && kept == p
    requires noted == issued[after.pool.nextUnstakeIndex :=
                             Issue(s.pool.clock.era, user, after.pool.book.unbond - s.pool.book.unbond)]
    ensures LedgerOk(after.ledger, after.mail.sudoPayloads, noted, kept)
  {
    UnstakeLedger(s, after, user, issued, p);
  }

  lemma RecordedMessage(s: PoolState, user: string, amount: nat, o: Outcome, h: Settlement, p: Payouts)
    requires LedgerOk(s.ledger, s.mail.sudoPayloads, h.issued, p) && s.pool.nextUnstakeIndex + 1 !in h.issued
    requires IsAddress(user)
    requires RecordedUnstake(s, o.state, user)
    ensures LedgerOk(o.state.ledger, o.state.mail.sudoPayloads,
                     Settle(h, s, DoUnstake(user, amount), o.state).issued, Pay(p, s, DoUnstake(user, amount), o))
  {
    var a := DoUnstake(user, amount);
    UnstakeBooked(h, p, s, user, amount, o);
    NotedLedger(s, o.state, user, h.issued, p, Settle(h, s, a, o.state).issued, Pay(p, s, a, o));
  }

  lemma UnstakeMessage(s: PoolState, user: string, amount: nat, h: Settlement, p: Payouts)
    requires LedgerOk(s.ledger, s.mail.sudoPayloads, h.issued, p) && s.pool.nextUnstakeIndex + 1 !in h.issued
    requires IsAddress(user)
    requires Unstake(s, user, amount).Ok?
    ensures var o := Unstake(s, user, amount).value;
      LedgerOk(o.state.ledger, o.state.mail.sudoPayloads,
               Settle(h, s, DoUnstake(user, amount), o.state).issued, Pay(p, s, DoUnstake(user, amount), o))
  {
    UnstakeRecord(s, user, amount);
    RecordedMessage(s, user, amount, Unstake(s, user, amount).value, h, p);
  }

  lemma WithdrawBooked(h: Settlement, p: Payouts, s: PoolState, sender: string, receiver: string, indices: seq<nat>,
                       key: PacketKey, o: Outcome)
    ensures var a := DoWithdraw(sender, receiver, indices, key);
      && Settle(h, s, a, o.state).issued == h.issued
      && Pay(p, s, a, o) == Hold(p, key, Ticket(SentAmount(o.effects.remote), sender, receiver, indices))
  {
  }

  lemma WithdrawMessageKept(s: PoolState, sender: string, receiver: string, indices: seq<nat>, key: PacketKey,
                            h: Settlement, p: Payouts)
    requires LedgerOk(s.ledger, s.mail.sudoPayloads, h.issued, p) && key !in s.mail.sudoPayloads
    requires IsAddress(sender) && IsAddress(receiver) && Withdraw(s, sender, receiver, indices, key).Ok?
    ensures var a, o := DoWithdraw(sender, receiver, indices, key), Withdraw(s, sender, receiver, indices, key).value;
      LedgerOk(o.state.ledger, o.state.mail.sudoPayloads, Settle(h, s, a, o.state).issued, Pay(p, s, a, o))
  {
    WithdrawLedger(s, sender, receiver, indices, key, h.issued, p);
    WithdrawBooked(h, p, s, sender, receiver, indices, key, Withdraw(s, sender, receiver, indices, key).value);
  }

  lemma QuietUserMessage(s: PoolState, a: Action, issued: map<nat, Issue>, p: Payouts)
    requires LedgerOk(s.ledger, s.mail.sudoPayloads, issued, p)
    requires Key(a).Some? ==> Key(a).value !in s.mail.sudoPayloads
    requires (a.DoStake? || a.DoStakeLsm? || a.DoRedeem?) && ApplyUser(s, a).Ok?
    ensures var after := ApplyUser(s, a).value.state; LedgerOk(after.ledger, after.mail.sudoPayloads, issued, p)
  {
    UserQuiet(s, a);
    QuietLedger(s, ApplyUser(s, a).value.state, issued, p);
  }

  function Answered(p: Payouts, a: Action): Payouts {
    if a.DoDeliver? && a.key in p.tickets then Close(p, a.key, a.success) else p
  }

  lemma Unobserved(h: Settlement, p: Payouts, s: PoolState, a: Action, o: Outcome)
    requires !a.DoUnstake? && !a.DoWithdraw?
    ensures Settle(h, s, a, o.state).issued == h.issued && Pay(p, s, a, o) == Answered(p, a)
  {
  }

  lemma StackLedger(s: PoolState, a: Action, issued: map<nat, Issue>, p: Payouts)
    requires LedgerOk(s.ledger, s.mail.sudoPayloads, issued, p) && a.DoConfigStack?
    requires ConfigStack(s, a.sender, a.stackConfig).Ok?
    ensures var after := ConfigStack(s, a.sender, a.stackConfig).value.state;
      LedgerOk(after.ledger, after.mail.sudoPayloads, issued, p)
  {
  }

  lemma OtherLedger(s: PoolState, a: Action, now: nat, height: nat, issued: map<nat, Issue>, p: Payouts)
    requires LedgerOk(s.ledger, s.mail.sudoPayloads, issued, p) && !a.DoDeliver? && !a.DoUnstake? && !a.DoWithdraw?
    requires Apply(s, a, now, height).Ok? && (Key(a).Some? ==> Key(a).value !in s.mail.sudoPayloads)
    ensures var after := Apply(s, a, now, height).value.state;
      LedgerOk(after.ledger, after.mail.sudoPayloads, issued, p)
  {
    if a.DoConfigStack? {
      StackLedger(s, a, issued, p);
    } else if ByAdmin(a) {
      AdminLedger(s, a, now, issued, p);
    } else if ByUser(a) {
      QuietUserMessage(s, a, issued, p);
    } else {
      StepLedger(s, a, now, height, issued, p);
    }
  }

  lemma ObservedLedger(s: PoolState, a: Action, now: nat, height: nat, h: Settlement, p: Payouts)
    requires LedgerOk(s.ledger, s.mail.sudoPayloads, h.issued, p) && (forall i :: i in h.issued ==> i <= U64_MAX)
    requires !a.DoUnstake? && !a.DoWithdraw?
    requires Apply(s, a, now, height).Ok? && (Key(a).Some? ==> Key(a).value !in s.mail.sudoPayloads)
    ensures var o := Apply(s, a, now, height).value;
      LedgerOk(o.state.ledger, o.state.mail.sudoPayloads, Settle(h, s, a, o.state).issued, Pay(p, s, a, o))
  {
    Unobserved(h, p, s, a, Apply(s, a, now, height).value);
    if a.DoDeliver? {
      DeliverLedger(s, a.key, a.success, now, height, h.issued, p);
    } else {
      OtherLedger(s, a, now, height, h.issued, p);
    }
  }

  lemma MessageLedger(s: PoolState, a: Action, now: nat, height: nat, h: Settlement, p: Payouts)
    requires LedgerOk(s.ledger, s.mail.sudoPayloads, h.issued, p) && Fresh(s.pool, h)
    requires Proper(a) && Apply(s, a, now, height).Ok? && (Key(a).Some? ==> Key(a).value !in s.mail.sudoPayloads)
    ensures var o := Apply(s, a, now, height).value;
      LedgerOk(o.state.ledger, o.state.mail.sudoPayloads, Settle(h, s, a, o.state).issued, Pay(p, s, a, o))
  {
    if a.DoUnstake? {
      UnstakeMessage(s, a.sender, a.amount, h, p);
    } else if a.DoWithdraw? {
      WithdrawMessageKept(s, a.sender, a.receiver, a.indices, a.key, h, p);
    } else {
      ObservedLedger(s, a, now, height, h, p);
    }
  }

  /** Every message keeps the ledger. */
  lemma LedgerKept(w: World, e: Event)
    requires LedgerOk(w.s.ledger, w.s.mail.sudoPayloads, w.h.settlement.issued, w.h.payouts)
    requires Fresh(w.s.pool, w.h.settlement) && Allowed(w, e)
    ensures var v := Next(w, e); LedgerOk(v.s.ledger, v.s.mail.sudoPayloads, v.h.settlement.issued, v.h.payouts)
  {
    if Apply(w.s, e.action, e.now, e.height).Ok? {
      MessageLedger(w.s, e.action, e.now, e.height, w.h.settlement, w.h.payouts);
    }
  }
}
