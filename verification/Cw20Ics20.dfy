/** The ICS-20 contract with its stored state. Each method does what the function of the same name in
    Escrow says. */
module Cw20Ics20 {
  import opened Arith
  import E = Escrow
  import opened Escrow

  class Cw20Ics20 {
    var channels: map<string, Endpoint>
    var balances: Balances
    var allow: map<string, Option<nat>>
    var defaultGas: Option<nat>
    var admin: string
    var replyArgs: Option<ReplyArgs>

    function State(): EscrowState
      reads this
    {
      EscrowState(channels, balances, allow, defaultGas, admin, replyArgs)
    }

    constructor (admin: string, allowList: seq<(string, Option<nat>)>, gas: Option<nat>)
      ensures State() == EscrowState(map[], map[], AllowTable(allowList), gas, admin, None)
    {
      channels, balances, defaultGas, replyArgs := map[], map[], gas, None;
      this.admin := admin;
      var table: map<string, Option<nat>> := map[];
      var i := 0;
      while i < |allowList|
        invariant 0 <= i <= |allowList|
        invariant table == AllowTable(allowList[..i])
      {
        assert allowList[..i + 1][..i] == allowList[..i];
        table := table[allowList[i].0 := allowList[i].1];
        i := i + 1;
      }
      assert allowList[..i] == allowList;
      allow := table;
    }

    // ---- Channel balances ----

    method IncreaseChannelBalance(line: Line, amount: nat) returns (r: Result<bool>)
      modifies `balances
      ensures var spec := Increase(old(balances), line, amount);
        if spec.Ok? then r == Ok(true) && balances == spec.value else r == Err(spec.error) && balances == old(balances)
    {
      var state := Balance(0, 0);
      if line in balances {
        state := balances[line];
      }
      var outstanding :- Add(state.outstanding, amount);
      state := state.(outstanding := outstanding);
      var totalSent :- Add(state.totalSent, amount);
      state := state.(totalSent := totalSent);
      balances := balances[line := state];
      return Ok(true);
    }

    method ReduceChannelBalance(line: Line, amount: nat) returns (r: Result<bool>)
      modifies `balances
      ensures var spec := Reduce(old(balances), line, amount);
        if spec.Ok? then r == Ok(true) && balances == spec.value else r == Err(spec.error) && balances == old(balances)
    {
      if line !in balances {
        return Err(InsufficientFunds);
      }
      var state := balances[line];
      if amount > state.outstanding {
        return Err(InsufficientFunds);
      }
      state := state.(outstanding := state.outstanding - amount);
      balances := balances[line := state];
      return Ok(true);
    }

    method UndoReduceChannelBalance(line: Line, amount: nat) returns (r: Result<bool>)
      modifies `balances
      ensures var spec := UndoReduce(old(balances), line, amount);
        if spec.Ok? then r == Ok(true) && balances == spec.value else r == Err(spec.error) && balances == old(balances)
    {
      var state := Balance(0, 0);
      if line in balances {
        state := balances[line];
      }
      var outstanding :- Add(state.outstanding, amount);
      balances := balances[line := state.(outstanding := outstanding)];
      return Ok(true);
    }

    // ---- Messages ----

    /** The channel is recorded when it connects. */
    method Connect(channel: string, remote: Endpoint)
      modifies `channels
      ensures State() == old(State()).(channels := old(channels)[channel := remote])
    {
      channels := channels[channel := remote];
    }

    method Transfer(channel: string, receiver: string, what: Amount, sender: string) returns (r: Result<Data>)
      modifies `balances
      ensures var spec := E.Transfer(old(State()), channel, receiver, what, sender);
        if spec.Ok? then r == Ok(spec.value.data) && State() == spec.value.state
        else r == Err(spec.error) && State() == old(State())
    {
      if what.amount == 0 {
        return Err(NoFunds);
      }
      if channel !in channels {
        return Err(NoSuchChannel);
      }
      if what.Cw20? {
        if defaultGas.None? {
          if what.address !in allow {
            return Err(NotOnAllowList);
          }
        }
      }
      var packet := Data(what.amount, what.Denom(), receiver, sender);
      if packet.amount > U64_MAX {
        return Err(AmountOverflow);
      }
      var increased := IncreaseChannelBalance((channel, what.Denom()), what.amount);
      if increased.Err? {
        return Err(increased.error);
      }
      return Ok(packet);
    }

    method Allow(sender: string, contract: string, gas: Option<nat>) returns (r: Result<bool>)
      modifies `allow
      ensures var spec := E.Allow(old(State()), sender, contract, gas);
        if spec.Ok? then r == Ok(true) && State() == spec.value else r == Err(spec.error) && State() == old(State())
    {
      if sender != admin {
        return Err(Unauthorized);
      }
      if contract in allow {
        var limit := allow[contract];
        if limit.None? && gas.Some? {
          return Err(CannotLowerGas);
        }
        if limit.Some? && gas.Some? && gas.value < limit.value {
          return Err(CannotLowerGas);
        }
      }
      allow := allow[contract := gas];
      return Ok(true);
    }

    method UpdateAdmin(sender: string, newAdmin: string) returns (r: Result<bool>)
      modifies `admin
      ensures var spec := E.UpdateAdmin(old(State()), sender, newAdmin);
        if spec.Ok? then r == Ok(true) && State() == spec.value else r == Err(spec.error) && State() == old(State())
    {
      if sender != admin {
        return Err(Unauthorized);
      }
      admin := newAdmin;
      return Ok(true);
    }

    method Migrate(gas: Option<nat>)
      modifies `defaultGas
      ensures State() == MigrateGas(old(State()), gas)
    {
      if gas.Some? {
        defaultGas := gas;
      }
    }

    method CheckGasLimit(a: Amount) returns (r: Result<Option<nat>>)
      ensures r == CheckGas(State(), a)
    {
      match a {
        case Cw20(address, _) =>
          if address in allow {
            return Ok(allow[address]);
          }
          if defaultGas.Some? {
            return Ok(Some(defaultGas.value));
          }
          return Err(NotOnAllowList);
        case Native(_, _) =>
          return Ok(None);
      }
    }

    // ---- Packets ----

    method DoReceive(packet: Packet) returns (r: Result<Payout>)
      modifies `balances, `replyArgs
      ensures var spec := Accept(old(State()), packet);
        match spec
        case Err(e) => r == Err(e) && State() == old(State())
        case Ok(reduced) =>
          && State() == reduced
          && var amount := FromParts(ParseVoucher(packet.data.denom, packet.src).value, packet.data.amount);
             r == (if CheckGas(reduced, amount).Ok? then Ok(Payout(amount, packet.data.receiver))
                   else Err(CheckGas(reduced, amount).error))
    {
      var denom :- ParseVoucher(packet.data.denom, packet.src);
      var line := (packet.dest.channel, denom);
      var reduced := ReduceChannelBalance(line, packet.data.amount);
      if reduced.Err? {
        return Err(reduced.error);
      }
      replyArgs := Some(ReplyArgs(line, packet.data.amount));
      var amount := FromParts(denom, packet.data.amount);
      var gas := CheckGasLimit(amount);
      if gas.Err? {
        return Err(gas.error);
      }
      return Ok(Payout(amount, packet.data.receiver));
    }

    /** Receives a packet, with the outcome of the payout it asks for, and answers it. The error of the
        first part is not propagated: what it has stored stays. */
    method Receive(packet: Packet, payoutWorks: bool) returns (ack: Ack, payout: Option<Payout>)
      modifies `balances, `replyArgs
      ensures Received(State(), ack, payout) == E.Receive(old(State()), packet, payoutWorks)
    {
      var before, args := balances, replyArgs;
      var r := DoReceive(packet);
      if r.Err? {
        return Failure(r.error), None;
      }
      if payoutWorks {
        return Success, Some(r.value);
      }
      var undone := UndoReduceChannelBalance(replyArgs.value.line, replyArgs.value.amount);
      if undone.Err? {
        balances, replyArgs := before, args;
        return Failure(undone.error), None;
      }
      return Failure(InvalidPacket), None;
    }

    /** A packet of ours was refused or timed out. */
    method OnPacketFailure(packet: Packet) returns (r: Result<Payout>)
      modifies `balances
      ensures var spec := OnFailure(old(State()), packet);
        if spec.Ok? then r == Ok(spec.value.payout) && State() == spec.value.state
        else r == Err(spec.error) && State() == old(State())
    {
      var before := balances;
      var reduced := ReduceChannelBalance((packet.src.channel, packet.data.denom), packet.data.amount);
      if reduced.Err? {
        return Err(reduced.error);
      }
      var amount := FromParts(packet.data.denom, packet.data.amount);
      var gas := CheckGasLimit(amount);
      if gas.Err? {
        balances := before;
        return Err(gas.error);
      }
      return Ok(Payout(amount, packet.data.sender));
    }
  }
}
