/** The ICS-20 escrow: what has been sent over each channel in each denomination, and which cw20 tokens
    may be paid out. */
module Escrow {
  import opened Arith

  // ---- Amounts and denominations ----

  datatype Amount = Native(denom: string, amount: nat) | Cw20(address: string, amount: nat) {
    /** The denomination under which the amount is kept and sent. */
    function Denom(): string {
      match this
      case Native(denom, _) => denom
      case Cw20(address, _) => CW20_PREFIX + address
    }
  }

  const CW20_PREFIX := "cw20:"

  predicate StartsWith(s: string, prefix: string) {
    |prefix| <= |s| && s[..|prefix|] == prefix
  }

  function FromParts(denom: string, amount: nat): Amount {
    if StartsWith(denom, CW20_PREFIX) then Cw20(denom[|CW20_PREFIX|..], amount) else Native(denom, amount)
  }

  /** An amount survives the encoding exactly when it is not a native coin that is called like a token. */
  lemma AmountRoundTrip(a: Amount)
    ensures FromParts(a.Denom(), a.amount) == a <==> (a.Native? ==> !StartsWith(a.denom, CW20_PREFIX))
  {
    match a
    case Native(denom, amount) =>
    case Cw20(address, amount) =>
      assert (CW20_PREFIX + address)[..|CW20_PREFIX|] == CW20_PREFIX;
      assert (CW20_PREFIX + address)[|CW20_PREFIX|..] == address;
  }

  /** The other way round nothing is lost. */
  lemma DenomRoundTrip(denom: string, amount: nat)
    ensures FromParts(denom, amount).Denom() == denom && FromParts(denom, amount).amount == amount
  {
  }

  datatype Endpoint = Endpoint(port: string, channel: string)

  function FirstSlash(s: string): (i: nat)
    ensures i <= |s| && (i < |s| ==> s[i] == '/') && '/' !in s[..i]
  {
    if s == "" || s[0] == '/' then 0
    else
      var i := FirstSlash(s[1..]) + 1;
      assert s[..i] == [s[0]] + s[1..][..i - 1];
      i
  }

  /** A token of this chain comes back from the other end under this name. */
  function Voucher(remote: Endpoint, denom: string): string {
    remote.port + "/" + remote.channel + "/" + denom
  }

  function ParseVoucher(voucher: string, remote: Endpoint): Result<string> {
    var i := FirstSlash(voucher);
    if i == |voucher| then Err(NoForeignTokens) else
    var rest := voucher[i + 1..];
    var j := FirstSlash(rest);
    if j == |rest| then Err(NoForeignTokens) else
    if voucher[..i] != remote.port then Err(FromOtherPort) else
    if rest[..j] != remote.channel then Err(FromOtherChannel) else
    Ok(rest[j + 1..])
  }

  lemma SlashAfter(head: string, tail: string)
    requires '/' !in head
    ensures FirstSlash(head + "/" + tail) == |head|
  {
    var s := head + "/" + tail;
    assert s[..|head|] == head && s[|head|] == '/';
  }

  lemma VoucherParts(remote: Endpoint, denom: string)
    ensures Voucher(remote, denom) == remote.port + "/" + (remote.channel + "/" + denom)
  {
  }

  lemma VoucherParses(remote: Endpoint, denom: string)
    requires '/' !in remote.port && '/' !in remote.channel
    ensures ParseVoucher(Voucher(remote, denom), remote) == Ok(denom)
  {
    var tail := remote.channel + "/" + denom;
    var voucher := Voucher(remote, denom);
    VoucherParts(remote, denom);
    SlashAfter(remote.port, tail);
    assert voucher[|remote.port| + 1..] == tail;
    SlashAfter(remote.channel, denom);
    assert tail[|remote.channel| + 1..] == denom;
  }

  lemma CutAt(s: string, i: nat)
    requires i < |s| && s[i] == '/'
    ensures s[..i] + "/" + s[i + 1..] == s
  {
    assert s[..i] + "/" == s[..i + 1];
  }

  lemma ParsedIsVoucher(voucher: string, remote: Endpoint)
    requires ParseVoucher(voucher, remote).Ok?
    ensures voucher == Voucher(remote, ParseVoucher(voucher, remote).value)
  {
    var rest := voucher[FirstSlash(voucher) + 1..];
    CutAt(voucher, FirstSlash(voucher));
    CutAt(rest, FirstSlash(rest));
    VoucherParts(remote, rest[FirstSlash(rest) + 1..]);
  }

  /** A name is read back exactly when it is a voucher of the remote end. */
  lemma VoucherRoundTrip(voucher: string, remote: Endpoint, denom: string)
    requires '/' !in remote.port && '/' !in remote.channel
    ensures ParseVoucher(voucher, remote) == Ok(denom) <==> voucher == Voucher(remote, denom)
  {
    VoucherParses(remote, denom);
    if ParseVoucher(voucher, remote) == Ok(denom) {
      ParsedIsVoucher(voucher, remote);
    }
  }

  // ---- Channel balances ----

  datatype Balance = Balance(outstanding: nat, totalSent: nat)

  /** A channel and a denomination. */
  type Line = (string, string)

  type Balances = map<Line, Balance>

  function Outstanding(b: Balances, line: Line): nat {
    if line in b then b[line].outstanding else 0
  }

  function Increase(b: Balances, line: Line, amount: nat): Result<Balances> {
    var current := if line in b then b[line] else Balance(0, 0);
    var outstanding :- Add(current.outstanding, amount);
    var totalSent :- Add(current.totalSent, amount);
    Ok(b[line := Balance(outstanding, totalSent)])
  }

  function Reduce(b: Balances, line: Line, amount: nat): Result<Balances> {
    if line !in b then Err(InsufficientFunds) else
    if amount > b[line].outstanding then Err(InsufficientFunds) else
    Ok(b[line := b[line].(outstanding := b[line].outstanding - amount)])
  }

  function UndoReduce(b: Balances, line: Line, amount: nat): Result<Balances> {
    var current := if line in b then b[line] else Balance(0, 0);
    var outstanding :- Add(current.outstanding, amount);
    Ok(b[line := current.(outstanding := outstanding)])
  }

  predicate Representable(b: Balances) {
    forall line :: line in b ==> b[line].outstanding <= U128_MAX && b[line].totalSent <= U128_MAX
  }

  /** Undoing a reduction leaves the balances as they were. */
  lemma UndoRestores(b: Balances, line: Line, amount: nat)
    requires Representable(b) && Reduce(b, line, amount).Ok?
    ensures UndoReduce(Reduce(b, line, amount).value, line, amount) == Ok(b)
  {
    assert Reduce(b, line, amount).value[line := b[line]] == b;
  }

  // ---- The stored state ----

  datatype ReplyArgs = ReplyArgs(line: Line, amount: nat)

  /** Gas limits: None means no limit. */
  datatype EscrowState = EscrowState(
    channels: map<string, Endpoint>, balances: Balances, allow: map<string, Option<nat>>,
    defaultGas: Option<nat>, admin: string, replyArgs: Option<ReplyArgs>)

  /** The allow list from the entries it is set up with; a later entry replaces an earlier one. */
  function AllowTable(entries: seq<(string, Option<nat>)>): map<string, Option<nat>> {
    if entries == [] then map[]
    else
      var last := entries[|entries| - 1];
      AllowTable(entries[..|entries| - 1])[last.0 := last.1]
  }

  datatype Data = Data(amount: nat, denom: string, receiver: string, sender: string)

  datatype Packet = Packet(src: Endpoint, dest: Endpoint, data: Data)

  /** The gas limit of a payout, or that it is not permitted. */
  function CheckGas(s: EscrowState, a: Amount): Result<Option<nat>> {
    if a.Native? then Ok(None)
    else if a.address in s.allow then Ok(s.allow[a.address])
    else if s.defaultGas.Some? then Ok(s.defaultGas)
    else Err(NotOnAllowList)
  }

  datatype Sent = Sent(state: EscrowState, data: Data)

  function Transfer(s: EscrowState, channel: string, receiver: string, a: Amount, sender: string): Result<Sent> {
    if a.amount == 0 then Err(NoFunds) else
    if channel !in s.channels then Err(NoSuchChannel) else
    if a.Cw20? && s.defaultGas.None? && a.address !in s.allow then Err(NotOnAllowList) else
    if a.amount > U64_MAX then Err(AmountOverflow) else
    var balances :- Increase(s.balances, (channel, a.Denom()), a.amount);
    Ok(Sent(s.(balances := balances), Data(a.amount, a.Denom(), receiver, sender)))
  }

  function Allow(s: EscrowState, sender: string, contract: string, gas: Option<nat>): Result<EscrowState> {
    if sender != s.admin then Err(Unauthorized) else
    if contract in s.allow && LowersGas(s.allow[contract], gas) then Err(CannotLowerGas) else
    Ok(s.(allow := s.allow[contract := gas]))
  }

  predicate LowersGas(from: Option<nat>, to: Option<nat>) {
    to.Some? && (from.None? || to.value < from.value)
  }

  function UpdateAdmin(s: EscrowState, sender: string, admin: string): Result<EscrowState> {
    if sender != s.admin then Err(Unauthorized) else Ok(s.(admin := admin))
  }

  function MigrateGas(s: EscrowState, gas: Option<nat>): EscrowState {
    if gas.Some? then s.(defaultGas := gas) else s
  }

  // ---- Packets ----

  datatype Payout = Payout(amount: Amount, receiver: string)

  datatype Ack = Success | Failure(error: Error)

  /** The answer to a packet, and the payout it was answered with. */
  datatype Received = Received(state: EscrowState, ack: Ack, payout: Option<Payout>)

  /** The first part of a receipt: the balance is reduced and remembered for the reply. */
  function Accept(s: EscrowState, packet: Packet): Result<EscrowState> {
    var denom :- ParseVoucher(packet.data.denom, packet.src);
    var line := (packet.dest.channel, denom);
    var balances :- Reduce(s.balances, line, packet.data.amount);
    Ok(s.(balances := balances, replyArgs := Some(ReplyArgs(line, packet.data.amount))))
  }

  /** Receiving never fails as a message: an error becomes an acknowledgement, and what was stored
      before the error stays stored. A payout that fails is undone by the reply. */
  function Receive(s: EscrowState, packet: Packet, payoutWorks: bool): Received {
    match Accept(s, packet)
    case Err(e) => Received(s, Failure(e), None)
    case Ok(reduced) => PayOut(s, reduced, packet, payoutWorks)
  }

  /** Should the reply itself fail, the whole receipt is rolled back. */
  function PayOut(s: EscrowState, reduced: EscrowState, packet: Packet, payoutWorks: bool): Received
    requires ParseVoucher(packet.data.denom, packet.src).Ok? && reduced.replyArgs.Some?
  {
    var amount := FromParts(ParseVoucher(packet.data.denom, packet.src).value, packet.data.amount);
    match CheckGas(reduced, amount)
    case Err(e) => Received(reduced, Failure(e), None)
    case Ok(_) =>
      if payoutWorks then Received(reduced, Success, Some(Payout(amount, packet.data.receiver)))
      else match Reply(reduced)
        case Ok(undone) => Received(undone, Failure(InvalidPacket), None)
        case Err(e) => Received(s, Failure(e), None)
  }

  function Reply(s: EscrowState): Result<EscrowState>
    requires s.replyArgs.Some?
  {
    var args := s.replyArgs.value;
    var balances :- UndoReduce(s.balances, args.line, args.amount);
    Ok(s.(balances := balances))
  }

  datatype Refunded = Refunded(state: EscrowState, payout: Payout)

  /** A packet of ours failed or timed out: its amount goes back to the sender. */
  function OnFailure(s: EscrowState, packet: Packet): Result<Refunded> {
    var balances :- Reduce(s.balances, (packet.src.channel, packet.data.denom), packet.data.amount);
    var amount := FromParts(packet.data.denom, packet.data.amount);
    var gas :- CheckGas(s, amount);
    Ok(Refunded(s.(balances := balances), Payout(amount, packet.data.sender)))
  }

  // ---- What stays permitted ----

  predicate Permitted(s: EscrowState, denom: string) {
    CheckGas(s, FromParts(denom, 0)).Ok?
  }

  lemma PermittedAtAnyAmount(s: EscrowState, denom: string, amount: nat)
    ensures CheckGas(s, FromParts(denom, amount)).Ok? <==> Permitted(s, denom)
  {
  }

  /** Every denomination that has a balance may be paid out. */
  predicate EntriesPermitted(s: EscrowState) {
    forall line :: line in s.balances ==> Permitted(s, line.1)
  }

  /** Not a native coin that is called like a token. */
  predicate Faithful(a: Amount) { a.Native? ==> !StartsWith(a.denom, CW20_PREFIX) }

  lemma TransferPermitted(s: EscrowState, channel: string, receiver: string, a: Amount, sender: string)
    requires EntriesPermitted(s) && Representable(s.balances) && Faithful(a)
    requires Transfer(s, channel, receiver, a, sender).Ok?
    ensures EntriesPermitted(Transfer(s, channel, receiver, a, sender).value.state)
    ensures Representable(Transfer(s, channel, receiver, a, sender).value.state.balances)
  {
    AmountRoundTrip(a);
    PermittedAtAnyAmount(s, a.Denom(), a.amount);
  }

  /** Permissions are never withdrawn and gas limits never lowered. */
  lemma AllowMonotone(s: EscrowState, sender: string, contract: string, gas: Option<nat>)
    requires Allow(s, sender, contract, gas).Ok?
    ensures var after := Allow(s, sender, contract, gas).value;
      && (forall c :: c in s.allow ==> c in after.allow && !LowersGas(s.allow[c], after.allow[c]))
      && (forall denom :: Permitted(s, denom) ==> Permitted(after, denom))
  {
  }

  lemma MigrateMonotone(s: EscrowState, gas: Option<nat>)
    ensures forall denom :: Permitted(s, denom) ==> Permitted(MigrateGas(s, gas), denom)
  {
  }

  /** Exactly when a receipt that is answered with an error has nevertheless changed a balance: the
      amount was there, and the token may not be paid out. */
  lemma LossyReceipt(s: EscrowState, packet: Packet, payoutWorks: bool)
    requires Representable(s.balances)
    ensures var r := Receive(s, packet, payoutWorks);
      r.ack.Failure? && r.state.balances != s.balances
      <==> var denom := ParseVoucher(packet.data.denom, packet.src);
           denom.Ok? && packet.data.amount > 0
             && Outstanding(s.balances, (packet.dest.channel, denom.value)) >= packet.data.amount
           && !Permitted(s, denom.value)
  {
    var denom := ParseVoucher(packet.data.denom, packet.src);
    if denom.Ok? && Accept(s, packet).Ok? {
      var line := (packet.dest.channel, denom.value);
      PermittedAtAnyAmount(s, denom.value, packet.data.amount);
      UndoRestores(s.balances, line, packet.data.amount);
      assert Reduce(s.balances, line, packet.data.amount).value[line].outstanding
        == s.balances[line].outstanding - packet.data.amount;
      if packet.data.amount == 0 {
        assert Reduce(s.balances, line, 0).value == s.balances;
      }
    }
  }

  /** While every balance is permitted that never happens: an error acknowledgement changes nothing. */
  lemma ErrorAckNeutral(s: EscrowState, packet: Packet, payoutWorks: bool)
    requires Representable(s.balances) && EntriesPermitted(s)
    ensures var r := Receive(s, packet, payoutWorks);
      r.ack.Failure? ==> r.state.balances == s.balances && r.payout.None?
  {
    LossyReceipt(s, packet, payoutWorks);
  }

  /** A receipt that succeeds takes exactly what it pays out. */
  lemma SuccessPays(s: EscrowState, packet: Packet, payoutWorks: bool)
    ensures var r := Receive(s, packet, payoutWorks);
      r.ack.Success? ==>
        && ParseVoucher(packet.data.denom, packet.src).Ok? && payoutWorks
        && var denom := ParseVoucher(packet.data.denom, packet.src).value;
           && Reduce(s.balances, (packet.dest.channel, denom), packet.data.amount) == Ok(r.state.balances)
           && r.payout == Some(Payout(FromParts(denom, packet.data.amount), packet.data.receiver))
           && FromParts(denom, packet.data.amount).Denom() == denom
  {
    if ParseVoucher(packet.data.denom, packet.src).Ok? {
      DenomRoundTrip(ParseVoucher(packet.data.denom, packet.src).value, packet.data.amount);
    }
  }
}
