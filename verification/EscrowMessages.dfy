/** What each message and each packet of the escrow comes to: when it is accepted, which balance it changes, and
    who is paid. */
module EscrowMessages {
  import opened Arith
  import opened Escrow

  /** The balance of one line has changed to the given one; the others have not. */
  ghost predicate OnlyLine(before: Balances, after: Balances, line: Line, outstanding: int, totalSent: int) {
    && line in after && after[line].outstanding == outstanding && after[line].totalSent == totalSent
    && forall l :: l != line ==> (l in after <==> l in before) && (l in before ==> after[l] == before[l])
  }

  function Total(b: Balances, line: Line): nat {
    if line in b then b[line].totalSent else 0
  }

  /** A transfer is accepted for something, over a known channel, of a token that may be paid back; the packet
      says what was sent, by whom and to whom, and both counters of its line grow. */
  lemma TransferExact(s: EscrowState, channel: string, receiver: string, a: Amount, sender: string)
    ensures Transfer(s, channel, receiver, a, sender).Ok? <==>
      && 0 < a.amount <= 0xFFFF_FFFF_FFFF_FFFF && channel in s.channels
      && (a.Cw20? ==> a.address in s.allow || s.defaultGas.Some?)
      && Outstanding(s.balances, (channel, a.Denom())) + a.amount <= U128_MAX
      && Total(s.balances, (channel, a.Denom())) + a.amount <= U128_MAX
    ensures Transfer(s, channel, receiver, a, sender).Ok? ==>
      var sent, line := Transfer(s, channel, receiver, a, sender).value, (channel, a.Denom());
      && sent.data.amount == a.amount && sent.data.denom == a.Denom()
      && sent.data.sender == sender && sent.data.receiver == receiver
      && sent.state == s.(balances := sent.state.balances)
      && OnlyLine(s.balances, sent.state.balances, line, Outstanding(s.balances, line) + a.amount,
                  Total(s.balances, line) + a.amount)
  {
  }

  /** Undoing a reduction gives the outstanding amount back and leaves the total. */
  lemma UndoExact(b: Balances, line: Line, amount: nat)
    ensures UndoReduce(b, line, amount).Ok? <==> Outstanding(b, line) + amount <= U128_MAX
    ensures UndoReduce(b, line, amount).Ok? ==>
      OnlyLine(b, UndoReduce(b, line, amount).value, line, Outstanding(b, line) + amount, Total(b, line))
  {
  }

  /** Only the administrator allows tokens, and never with less gas than before. */
  lemma AllowExact(s: EscrowState, sender: string, contract: string, gas: Option<nat>)
    ensures Allow(s, sender, contract, gas).Ok? <==>
      && sender == s.admin
      && (contract in s.allow && gas.Some? ==> s.allow[contract].Some? && s.allow[contract].value <= gas.value)
    ensures Allow(s, sender, contract, gas).Ok? ==>
      var after := Allow(s, sender, contract, gas).value;
      && after == s.(allow := after.allow) && contract in after.allow && after.allow[contract] == gas
      && (forall c :: c != contract ==> (c in after.allow <==> c in s.allow))
      && (forall c :: c != contract && c in s.allow ==> after.allow[c] == s.allow[c])
  {
  }

  /** Only the administrator hands over; a migration may set the default limit, and nothing else. */
  lemma SettingsExact(s: EscrowState, sender: string, admin: string, gas: Option<nat>)
    ensures UpdateAdmin(s, sender, admin) == if sender == s.admin then Ok(s.(admin := admin)) else Err(Unauthorized)
    ensures MigrateGas(s, gas).(defaultGas := s.defaultGas) == s
    ensures MigrateGas(s, gas).defaultGas == if gas.Some? then gas else s.defaultGas
  {
  }

  /** Of the entries of the first allow list the last one of each token counts, and there is no other. */
  lemma {:induction false} LastEntryCounts(entries: seq<(string, Option<nat>)>, i: nat)
    requires i < |entries| && forall j :: i < j < |entries| ==> entries[j].0 != entries[i].0
    ensures entries[i].0 in AllowTable(entries) && AllowTable(entries)[entries[i].0] == entries[i].1
  {
    var front := entries[..|entries| - 1];
    if i < |front| {
      assert forall j :: 0 <= j < |front| ==> front[j] == entries[j];
      assert entries[|entries| - 1].0 != entries[i].0;
      LastEntryCounts(front, i);
    }
  }

  lemma {:induction false} NoOtherEntry(entries: seq<(string, Option<nat>)>, contract: string)
    requires forall j :: 0 <= j < |entries| ==> entries[j].0 != contract
    ensures contract !in AllowTable(entries)
  {
    if entries != [] {
      NoOtherEntry(entries[..|entries| - 1], contract);
    }
  }

  /** A payout runs with the limit of its token, or else with the default one. */
  lemma GasExact(s: EscrowState, a: Amount)
    ensures a.Native? ==> CheckGas(s, a) == Ok(None)
    ensures a.Cw20? && a.address in s.allow ==> CheckGas(s, a) == Ok(s.allow[a.address])
    ensures a.Cw20? && a.address !in s.allow && s.defaultGas.Some? ==> CheckGas(s, a) == Ok(s.defaultGas)
    ensures a.Cw20? && a.address !in s.allow && s.defaultGas.None? ==> CheckGas(s, a).Err?
  {
  }

  /** There is that much to pay out on the line, and its token is permitted. */
  predicate Payable(s: EscrowState, line: Line, amount: nat) {
    line in s.balances && amount <= s.balances[line].outstanding && Permitted(s, line.1)
  }

  /** A packet is answered with success exactly when it names a token of this chain of which there is that much,
      and the payout goes through; it pays the receiver it names, and takes that from the line. */
  lemma ReceiveExact(s: EscrowState, packet: Packet, payoutWorks: bool)
    ensures var denom, r := ParseVoucher(packet.data.denom, packet.src), Receive(s, packet, payoutWorks);
      r.ack.Success? <==> payoutWorks && denom.Ok?
                          && Payable(s, (packet.dest.channel, denom.value), packet.data.amount)
    ensures var denom, r := ParseVoucher(packet.data.denom, packet.src), Receive(s, packet, payoutWorks);
      r.ack.Success? ==>
        var line := (packet.dest.channel, denom.value);
        && r.payout.Some? && r.payout.value.receiver == packet.data.receiver
        && r.payout.value.amount.Denom() == denom.value && r.payout.value.amount.amount == packet.data.amount
        && OnlyLine(s.balances, r.state.balances, line, Outstanding(s.balances, line) - packet.data.amount,
                    Total(s.balances, line))
        && r.state == s.(balances := r.state.balances, replyArgs := r.state.replyArgs)
    ensures Receive(s, packet, payoutWorks).ack.Failure? ==> Receive(s, packet, payoutWorks).payout.None?
  {
    var denom := ParseVoucher(packet.data.denom, packet.src);
    if denom.Ok? {
      PermittedAtAnyAmount(s, denom.value, packet.data.amount);
      DenomRoundTrip(denom.value, packet.data.amount);
    }
  }

  /** The failure of a packet of ours pays its sender back, if there is that much on the line. */
  lemma FailureExact(s: EscrowState, packet: Packet)
    ensures OnFailure(s, packet).Ok? <==>
      Payable(s, (packet.src.channel, packet.data.denom), packet.data.amount)
    ensures OnFailure(s, packet).Ok? ==>
      var r, line := OnFailure(s, packet).value, (packet.src.channel, packet.data.denom);
      && r.payout.receiver == packet.data.sender
      && r.payout.amount.Denom() == packet.data.denom && r.payout.amount.amount == packet.data.amount
      && r.state == s.(balances := r.state.balances)
      && OnlyLine(s.balances, r.state.balances, line, Outstanding(s.balances, line) - packet.data.amount,
                  Total(s.balances, line))
  {
    PermittedAtAnyAmount(s, packet.data.denom, packet.data.amount);
    DenomRoundTrip(packet.data.denom, packet.data.amount);
  }
}
