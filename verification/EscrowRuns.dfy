/** The escrow, an honest counterparty, and the packets between them. Whatever was sent is in flight, on
    the other side, or on its way back, so a refund or a return never finds too little, and what the
    contract holds covers all channels. */
module EscrowRuns {
  import opened Arith
  import opened Sums
  import opened Escrow

  const LOCAL_PORT := "wasm"

  /** Not yet received; received and taken; received and refused. */
  datatype Stage = InFlight | Taken | Refused

  /** A packet that is not finished yet, with the channel and denomination of this chain it is about. */
  datatype Leg = Leg(packet: Packet, line: Line, stage: Stage) {
    function Amount(): nat { packet.data.amount }
  }

  /** Who sent what to whom. */
  datatype Origin = Origin(what: Amount, sender: string, receiver: string)

  /** This contract and what it holds, the vouchers on the other side, and the packets each way; and for each
      packet ever sent what an observer of the sending has written down. */
  datatype Net = Net(
    escrow: EscrowState, holdings: map<string, nat>, vouchers: map<Line, nat>,
    sent: map<nat, Leg>, returning: map<nat, Leg>, origins: map<nat, Origin>)

  function VouchersOf(n: Net, line: Line): nat {
    if line in n.vouchers then n.vouchers[line] else 0
  }

  function Holding(n: Net, denom: string): nat {
    if denom in n.holdings then n.holdings[denom] else 0
  }

  function Gain(n: Net, denom: string, amount: nat): map<string, nat> {
    n.holdings[denom := Holding(n, denom) + amount]
  }

  function Spend(n: Net, denom: string, amount: nat): map<string, nat> {
    n.holdings[denom := if amount <= Holding(n, denom) then Holding(n, denom) - amount else 0]
  }

  function Minted(n: Net, line: Line, amount: nat): map<Line, nat> {
    n.vouchers[line := VouchersOf(n, line) + amount]
  }

  function NewNet(admin: string, allow: map<string, Option<nat>>, gas: Option<nat>): Net {
    Net(EscrowState(map[], map[], allow, gas, admin, None), map[], map[], map[], map[], map[])
  }

  // ---- The steps ----

  datatype Move =
    | Connect(channel: string, remote: Endpoint)
    | Permit(sender: string, contract: string, gas: Option<nat>)
    | Migrate(gas: Option<nat>)
    | Donate(denom: string, amount: nat)
    | Send(id: nat, channel: string, receiver: string, what: Amount, sender: string)
    | TheyReceive(id: nat, accept: bool)
    | WeGetAck(id: nat, refundWorks: bool)
    | WeTimeOut(id: nat, refundWorks: bool)
    | SendBack(id: nat, line: Line, amount: nat, receiver: string)
    | WeReceive(id: nat, payoutWorks: bool)
    | WeReceiveAny(packet: Packet, payoutWorks: bool)
    | SetAdmin(sender: string, newAdmin: string)
    | TheyGetAck(id: nat)
    | TheyTimeOut(id: nat)

  function DoSend(n: Net, id: nat, channel: string, receiver: string, what: Amount, sender: string): Net {
    match Transfer(n.escrow, channel, receiver, what, sender)
    case Err(_) => n
    case Ok(s) =>
      if id in n.sent then n
      else
        var packet := Packet(Endpoint(LOCAL_PORT, channel), n.escrow.channels[channel], s.data);
        n.(escrow := s.state, holdings := Gain(n, s.data.denom, s.data.amount),
           sent := n.sent[id := Leg(packet, (channel, s.data.denom), InFlight)],
           origins := n.origins[id := Origin(what, sender, receiver)])
  }

  /** A failed packet is undone here, and what the payout names is spent; if that is refused, nothing happens and
      it can be tried again. */
  function Refund(n: Net, id: nat, refundWorks: bool): Net
    requires id in n.sent
  {
    match OnFailure(n.escrow, n.sent[id].packet)
    case Err(_) => n
    case Ok(r) =>
      n.(escrow := r.state, sent := n.sent - {id},
         holdings := if refundWorks && r.payout.amount.amount <= Holding(n, r.payout.amount.Denom())
                     then Spend(n, r.payout.amount.Denom(), r.payout.amount.amount) else n.holdings)
  }

  function DoTheyReceive(n: Net, id: nat, accept: bool): Net {
    if id !in n.sent || n.sent[id].stage != InFlight then n
    else if accept then
      n.(sent := n.sent[id := n.sent[id].(stage := Taken)], vouchers := Minted(n, n.sent[id].line, n.sent[id].Amount()))
    else n.(sent := n.sent[id := n.sent[id].(stage := Refused)])
  }

  function DoWeGetAck(n: Net, id: nat, refundWorks: bool): Net {
    if id !in n.sent || n.sent[id].stage == InFlight then n
    else if n.sent[id].stage == Taken then n.(sent := n.sent - {id})
    else Refund(n, id, refundWorks)
  }

  function DoSendBack(n: Net, id: nat, line: Line, amount: nat, receiver: string): Net {
    if id in n.returning || line.0 !in n.escrow.channels || amount > VouchersOf(n, line) then n
    else
      var remote := n.escrow.channels[line.0];
      var packet := Packet(remote, Endpoint(LOCAL_PORT, line.0), Data(amount, Voucher(remote, line.1), receiver, ""));
      n.(vouchers := n.vouchers[line := VouchersOf(n, line) - amount],
         returning := n.returning[id := Leg(packet, line, InFlight)])
  }

  /** A payout works only if there is enough to pay it from. */
  predicate Payable(n: Net, id: nat, payoutWorks: bool)
    requires id in n.returning
  {
    payoutWorks && n.returning[id].Amount() <= Holding(n, n.returning[id].line.1)
  }

  /** A return has been answered. */
  function Answered(n: Net, id: nat, r: Received): Net
    requires id in n.returning
  {
    var leg := n.returning[id];
    if r.ack.Success? then
      n.(escrow := r.state, holdings := Spend(n, leg.line.1, leg.Amount()),
         returning := n.returning[id := leg.(stage := Taken)])
    else n.(escrow := r.state, returning := n.returning[id := leg.(stage := Refused)])
  }

  function DoWeReceive(n: Net, id: nat, payoutWorks: bool): Net {
    if id !in n.returning || n.returning[id].stage != InFlight then n
    else Answered(n, id, Receive(n.escrow, n.returning[id].packet, Payable(n, id, payoutWorks)))
  }

  /** A packet that nobody sent as it is: whatever it says, it is answered. */
  function DoWeReceiveAny(n: Net, packet: Packet, payoutWorks: bool): Net {
    var denom := ParseVoucher(packet.data.denom, packet.src);
    if denom.Err? then n.(escrow := Receive(n.escrow, packet, payoutWorks).state)
    else
      var r := Receive(n.escrow, packet, payoutWorks && packet.data.amount <= Holding(n, denom.value));
      if r.ack.Success? then n.(escrow := r.state, holdings := Spend(n, denom.value, packet.data.amount))
      else n.(escrow := r.state)
  }

  /** The other side takes the vouchers back when a return has failed. */
  function Restore(n: Net, id: nat): Net
    requires id in n.returning
  {
    n.(returning := n.returning - {id}, vouchers := Minted(n, n.returning[id].line, n.returning[id].Amount()))
  }

  function DoTheyGetAck(n: Net, id: nat): Net {
    if id !in n.returning || n.returning[id].stage == InFlight then n
    else if n.returning[id].stage == Taken then n.(returning := n.returning - {id})
    else Restore(n, id)
  }

  function Step(n: Net, m: Move): Net {
    match m
    case Connect(channel, remote) =>
      if channel in n.escrow.channels then n
      else n.(escrow := n.escrow.(channels := n.escrow.channels[channel := remote]))
    case Permit(sender, contract, gas) =>
      var r := Allow(n.escrow, sender, contract, gas);
      if r.Ok? then n.(escrow := r.value) else n
    case Migrate(gas) => n.(escrow := MigrateGas(n.escrow, gas))
    case Donate(denom, amount) => n.(holdings := Gain(n, denom, amount))
    case Send(id, channel, receiver, what, sender) => DoSend(n, id, channel, receiver, what, sender)
    case TheyReceive(id, accept) => DoTheyReceive(n, id, accept)
    case WeGetAck(id, refundWorks) => DoWeGetAck(n, id, refundWorks)
    case WeTimeOut(id, refundWorks) =>
      if id in n.sent && n.sent[id].stage == InFlight then Refund(n, id, refundWorks) else n
    case SendBack(id, line, amount, receiver) => DoSendBack(n, id, line, amount, receiver)
    case WeReceive(id, payoutWorks) => DoWeReceive(n, id, payoutWorks)
    case WeReceiveAny(packet, payoutWorks) => DoWeReceiveAny(n, packet, payoutWorks)
    case SetAdmin(sender, newAdmin) =>
      var r := UpdateAdmin(n.escrow, sender, newAdmin);
      if r.Ok? then n.(escrow := r.value) else n
    case TheyGetAck(id) => DoTheyGetAck(n, id)
    case TheyTimeOut(id) => if id in n.returning && n.returning[id].stage == InFlight then Restore(n, id) else n
  }

  /** What is taken for granted: identifiers of the other end have no slash in them, native coins are not
      called like tokens, and on a channel whose other end is honest a packet that was not sent as a return
      is not about a token of this chain. On the other channels anything may arrive. */
  predicate Proper(m: Move, honest: set<string>) {
    match m
    case Connect(_, remote) => '/' !in remote.port && '/' !in remote.channel
    case Send(_, _, _, what, _) => Faithful(what)
    case WeReceiveAny(packet, _) => packet.dest.channel in honest ==> ParseVoucher(packet.data.denom, packet.src).Err?
    case _ => true
  }

  // ---- The invariants ----

  predicate SentOk(leg: Leg) {
    leg.line == (leg.packet.src.channel, leg.packet.data.denom) && leg.Amount() > 0
  }

  /** The packet says what was sent. */
  predicate OriginOk(leg: Leg, o: Origin) {
    Faithful(o.what) && leg.packet.data == Data(o.what.amount, o.what.Denom(), o.receiver, o.sender)
  }

  predicate ReturningOk(leg: Leg) {
    && leg.packet.dest.channel == leg.line.0 && leg.packet.data.denom == Voucher(leg.packet.src, leg.line.1)
    && '/' !in leg.packet.src.port && '/' !in leg.packet.src.channel
  }

  predicate LegsOk(n: Net) {
    && (forall id :: id in n.sent ==> SentOk(n.sent[id]) && id in n.origins && OriginOk(n.sent[id], n.origins[id]))
    && (forall id :: id in n.returning ==> ReturningOk(n.returning[id]))
    && (forall c :: c in n.escrow.channels ==>
        '/' !in n.escrow.channels[c].port && '/' !in n.escrow.channels[c].channel)
  }

  predicate Sound(n: Net) {
    LegsOk(n) && EntriesPermitted(n.escrow) && Representable(n.escrow.balances)
  }

  /** What a leg stands for on a line: nothing any more once it has been taken. */
  function Due(line: Line): Leg -> nat {
    (leg: Leg) => if leg.line == line && leg.stage != Taken then leg.Amount() else 0
  }

  /** What was sent and not returned is under way, on the other side, or on its way back. */
  ghost predicate Conserved(n: Net, line: Line) {
    Outstanding(n.escrow.balances, line)
      == SumBy(n.sent, Due(line)) + VouchersOf(n, line) + SumBy(n.returning, Due(line))
  }

  function Owed(): Balance -> nat { (b: Balance) => b.outstanding }

  /** The balances of one denomination over all channels. */
  function Slice(b: Balances, denom: string): Balances {
    map line | line in b && line.1 == denom :: b[line]
  }

  /** The contract holds at least what all channels together are owed. */
  ghost predicate Covered(n: Net, denom: string) {
    SumBy(Slice(n.escrow.balances, denom), Owed()) <= Holding(n, denom)
  }

  /** The lines of honest channels are conserved; the holdings cover everything. */
  ghost predicate Inv(n: Net, honest: set<string>) {
    && Sound(n)
    && (forall line: Line :: line.0 in honest ==> Conserved(n, line))
    && (forall denom :: Covered(n, denom))
  }

  // ---- Sums ----

  lemma SetBalance(b: Balances, line: Line, value: Balance, denom: string)
    ensures var before, after := SumBy(Slice(b, denom), Owed()), SumBy(Slice(b[line := value], denom), Owed());
      if line.1 == denom then after + Outstanding(b, line) == before + value.outstanding else after == before
  {
    if line.1 != denom {
      assert Slice(b[line := value], denom) == Slice(b, denom);
    } else {
      assert Slice(b[line := value], denom) == Slice(b, denom)[line := value];
      if line in b {
        assert Slice(b, denom)[line] == b[line];
        SumByUpdate(Slice(b, denom), Owed(), line, value);
      } else {
        SumByInsert(Slice(b, denom), Owed(), line, value);
      }
    }
  }

  lemma LineWithin(b: Balances, line: Line)
    ensures Outstanding(b, line) <= SumBy(Slice(b, line.1), Owed())
  {
    if line in b {
      assert Slice(b, line.1)[line] == b[line];
      SumByBound(Slice(b, line.1), Owed(), line);
    }
  }

  // ---- Every step keeps the legs and the permissions in order ----

  lemma SendSound(n: Net, id: nat, channel: string, receiver: string, what: Amount, sender: string)
    requires Sound(n) && Faithful(what)
    ensures Sound(DoSend(n, id, channel, receiver, what, sender))
  {
    if Transfer(n.escrow, channel, receiver, what, sender).Ok? {
      TransferPermitted(n.escrow, channel, receiver, what, sender);
    }
  }

  lemma ReduceKeepsEntries(s: EscrowState, line: Line, amount: nat)
    requires EntriesPermitted(s) && Representable(s.balances) && Reduce(s.balances, line, amount).Ok?
    ensures EntriesPermitted(s.(balances := Reduce(s.balances, line, amount).value))
    ensures Representable(Reduce(s.balances, line, amount).value)
  {
  }

  /** A refund that is accepted reduces the line of its packet; otherwise nothing happens. */
  lemma RefundShape(n: Net, id: nat, refundWorks: bool)
    requires id in n.sent
    ensures var packet, after := n.sent[id].packet, Refund(n, id, refundWorks);
      var reduced := Reduce(n.escrow.balances, (packet.src.channel, packet.data.denom), packet.data.amount);
      after == n
      || (reduced.Ok? && after == n.(escrow := n.escrow.(balances := reduced.value), sent := n.sent - {id},
                                     holdings := after.holdings))
  {
  }

  lemma RefundSound(n: Net, id: nat, refundWorks: bool)
    requires Sound(n) && id in n.sent
    ensures Sound(Refund(n, id, refundWorks))
  {
    var packet := n.sent[id].packet;
    RefundShape(n, id, refundWorks);
    if Refund(n, id, refundWorks) != n {
      ReduceKeepsEntries(n.escrow, (packet.src.channel, packet.data.denom), packet.data.amount);
    }
  }

  /** What receiving a packet leaves of the state. */
  lemma ReceiveSound(s: EscrowState, packet: Packet, payoutWorks: bool)
    requires EntriesPermitted(s) && Representable(s.balances)
    ensures var after := Receive(s, packet, payoutWorks).state;
      EntriesPermitted(after) && Representable(after.balances) && after.channels == s.channels
  {
    ErrorAckNeutral(s, packet, payoutWorks);
    SuccessPays(s, packet, payoutWorks);
    if Receive(s, packet, payoutWorks).ack.Success? {
      ReduceKeepsEntries(s, (packet.dest.channel, ParseVoucher(packet.data.denom, packet.src).value),
                         packet.data.amount);
    }
  }

  lemma AnsweredSound(n: Net, id: nat, r: Received)
    requires Sound(n) && id in n.returning
    requires EntriesPermitted(r.state) && Representable(r.state.balances) && r.state.channels == n.escrow.channels
    ensures Sound(Answered(n, id, r))
  {
  }

  lemma WeReceiveSound(n: Net, id: nat, payoutWorks: bool)
    requires Sound(n)
    ensures Sound(DoWeReceive(n, id, payoutWorks))
  {
    if id in n.returning && n.returning[id].stage == InFlight {
      var r := Receive(n.escrow, n.returning[id].packet, Payable(n, id, payoutWorks));
      ReceiveSound(n.escrow, n.returning[id].packet, Payable(n, id, payoutWorks));
      AnsweredSound(n, id, r);
    }
  }

  lemma PermitSound(n: Net, sender: string, contract: string, gas: Option<nat>)
    requires Sound(n) && Allow(n.escrow, sender, contract, gas).Ok?
    ensures Sound(n.(escrow := Allow(n.escrow, sender, contract, gas).value))
  {
    AllowMonotone(n.escrow, sender, contract, gas);
  }

  lemma MigrateSound(n: Net, gas: Option<nat>)
    requires Sound(n)
    ensures Sound(n.(escrow := MigrateGas(n.escrow, gas)))
  {
    MigrateMonotone(n.escrow, gas);
  }

  /** Such a packet touches the contract and the holdings only. */
  lemma AnyShape(n: Net, packet: Packet, payoutWorks: bool) returns (works: bool)
    ensures var after := DoWeReceiveAny(n, packet, payoutWorks);
      && after.escrow == Receive(n.escrow, packet, works).state
      && after == n.(escrow := after.escrow, holdings := after.holdings)
  {
    var denom := ParseVoucher(packet.data.denom, packet.src);
    works := if denom.Ok? then payoutWorks && packet.data.amount <= Holding(n, denom.value) else payoutWorks;
  }

  lemma AnySound(n: Net, packet: Packet, payoutWorks: bool)
    requires Sound(n)
    ensures Sound(DoWeReceiveAny(n, packet, payoutWorks))
  {
    var works := AnyShape(n, packet, payoutWorks);
    ReceiveSound(n.escrow, packet, works);
  }

  predicate ByUs(m: Move) {
    || m.Connect? || m.Permit? || m.Migrate? || m.SetAdmin? || m.Donate? || m.Send? || m.WeReceive? || m.WeReceiveAny?
  }

  lemma ConfigSound(n: Net, m: Move, honest: set<string>)
    requires Sound(n) && Proper(m, honest) && (m.Connect? || m.Permit? || m.Migrate? || m.SetAdmin? || m.Donate?)
    ensures Sound(Step(n, m))
  {
    if m.Permit? {
      if Allow(n.escrow, m.sender, m.contract, m.gas).Ok? {
        PermitSound(n, m.sender, m.contract, m.gas);
      }
    } else if m.Migrate? {
      MigrateSound(n, m.gas);
    }
  }

  lemma OurStepSound(n: Net, m: Move, honest: set<string>)
    requires Sound(n) && Proper(m, honest) && ByUs(m)
    ensures Sound(Step(n, m))
  {
    if m.Send? {
      SendSound(n, m.id, m.channel, m.receiver, m.what, m.sender);
    } else if m.WeReceive? {
      WeReceiveSound(n, m.id, m.payoutWorks);
    } else if m.WeReceiveAny? {
      AnySound(n, m.packet, m.payoutWorks);
    } else {
      ConfigSound(n, m, honest);
    }
  }

  lemma TheyReceiveSound(n: Net, id: nat, accept: bool)
    requires Sound(n)
    ensures Sound(DoTheyReceive(n, id, accept))
  {
  }

  lemma SendBackSound(n: Net, id: nat, line: Line, amount: nat, receiver: string)
    requires Sound(n)
    ensures Sound(DoSendBack(n, id, line, amount, receiver))
  {
  }

  lemma LessReturningSound(n: Net, after: Net, id: nat)
    requires Sound(n) && after == n.(returning := n.returning - {id}, vouchers := after.vouchers)
    ensures Sound(after)
  {
  }

  lemma TheirStepSound(n: Net, m: Move)
    requires Sound(n) && !ByUs(m) && !m.WeGetAck? && !m.WeTimeOut?
    ensures Sound(Step(n, m))
  {
    if m.TheyReceive? {
      TheyReceiveSound(n, m.id, m.accept);
    } else if m.SendBack? {
      SendBackSound(n, m.id, m.line, m.amount, m.receiver);
    } else if Step(n, m) != n {
      LessReturningSound(n, Step(n, m), m.id);
    }
  }

  lemma SoundKept(n: Net, m: Move, honest: set<string>)
    requires Sound(n) && Proper(m, honest)
    ensures Sound(Step(n, m))
  {
    if ByUs(m) {
      OurStepSound(n, m, honest);
    } else if m.WeGetAck? || m.WeTimeOut? {
      if m.id in n.sent {
        RefundSound(n, m.id, m.refundWorks);
      }
    } else {
      TheirStepSound(n, m);
    }
  }

  // ---- Every step keeps each line ----

  lemma SendConserved(n: Net, id: nat, channel: string, receiver: string, what: Amount, sender: string, line: Line)
    requires Conserved(n, line)
    ensures Conserved(DoSend(n, id, channel, receiver, what, sender), line)
  {
    var after := DoSend(n, id, channel, receiver, what, sender);
    if id in after.sent && id !in n.sent {
      SumByInsert(n.sent, Due(line), id, after.sent[id]);
    }
  }

  lemma RefundConserved(n: Net, id: nat, refundWorks: bool, line: Line)
    requires LegsOk(n) && Conserved(n, line) && id in n.sent && n.sent[id].stage != Taken
    ensures Conserved(Refund(n, id, refundWorks), line)
  {
    assert SentOk(n.sent[id]);
    SumByRemove(n.sent, Due(line), id);
  }

  lemma TheyReceiveConserved(n: Net, id: nat, accept: bool, line: Line)
    requires Conserved(n, line)
    ensures Conserved(DoTheyReceive(n, id, accept), line)
  {
    if id in n.sent {
      SumByUpdate(n.sent, Due(line), id, n.sent[id].(stage := if accept then Taken else Refused));
    }
  }

  lemma WeGetAckConserved(n: Net, id: nat, refundWorks: bool, line: Line)
    requires LegsOk(n) && Conserved(n, line)
    ensures Conserved(DoWeGetAck(n, id, refundWorks), line)
  {
    if id in n.sent {
      SumByRemove(n.sent, Due(line), id);
      if n.sent[id].stage == Refused {
        RefundConserved(n, id, refundWorks, line);
      }
    }
  }

  lemma SendBackConserved(n: Net, id: nat, on: Line, amount: nat, receiver: string, line: Line)
    requires Conserved(n, line)
    ensures Conserved(DoSendBack(n, id, on, amount, receiver), line)
  {
    var after := DoSendBack(n, id, on, amount, receiver);
    if id in after.returning && id !in n.returning {
      SumByInsert(n.returning, Due(line), id, after.returning[id]);
    }
  }

  /** A return reduces its own line by its amount when it is paid, and nothing otherwise. */
  lemma ReturnShape(s: EscrowState, leg: Leg, payoutWorks: bool)
    requires EntriesPermitted(s) && Representable(s.balances) && ReturningOk(leg)
    ensures var r := Receive(s, leg.packet, payoutWorks);
      if r.ack.Success? then Reduce(s.balances, leg.line, leg.Amount()) == Ok(r.state.balances)
      else r.state.balances == s.balances
  {
    VoucherRoundTrip(leg.packet.data.denom, leg.packet.src, leg.line.1);
    ErrorAckNeutral(s, leg.packet, payoutWorks);
    SuccessPays(s, leg.packet, payoutWorks);
  }

  lemma AnsweredConserved(n: Net, id: nat, r: Received, line: Line)
    requires Conserved(n, line) && id in n.returning && n.returning[id].stage != Taken
    requires if r.ack.Success? then
      Reduce(n.escrow.balances, n.returning[id].line, n.returning[id].Amount()) == Ok(r.state.balances)
             else r.state.balances == n.escrow.balances
    ensures Conserved(Answered(n, id, r), line)
  {
    SumByUpdate(n.returning, Due(line), id, Answered(n, id, r).returning[id]);
  }

  lemma WeReceiveConserved(n: Net, id: nat, payoutWorks: bool, line: Line)
    requires Sound(n) && Conserved(n, line)
    ensures Conserved(DoWeReceive(n, id, payoutWorks), line)
  {
    if id in n.returning && n.returning[id].stage == InFlight {
      var works := Payable(n, id, payoutWorks);
      ReturnShape(n.escrow, n.returning[id], works);
      AnsweredConserved(n, id, Receive(n.escrow, n.returning[id].packet, works), line);
    }
  }

  lemma RestoreConserved(n: Net, id: nat, line: Line)
    requires Conserved(n, line) && id in n.returning && n.returning[id].stage != Taken
    ensures Conserved(Restore(n, id), line)
  {
    SumByRemove(n.returning, Due(line), id);
  }

  lemma TheyGetAckConserved(n: Net, id: nat, line: Line)
    requires Conserved(n, line)
    ensures Conserved(DoTheyGetAck(n, id), line)
  {
    if id in n.returning {
      if n.returning[id].stage == Refused {
        RestoreConserved(n, id, line);
      } else {
        SumByRemove(n.returning, Due(line), id);
      }
    }
  }

  /** Whatever arrives on a channel touches the lines of that channel only. */
  lemma AnyTouchesItsChannel(n: Net, packet: Packet, payoutWorks: bool, line: Line)
    requires Sound(n) && packet.dest.channel != line.0
    ensures var after := DoWeReceiveAny(n, packet, payoutWorks);
      && Outstanding(after.escrow.balances, line) == Outstanding(n.escrow.balances, line)
      && VouchersOf(after, line) == VouchersOf(n, line) && after.sent == n.sent && after.returning == n.returning
  {
    var works := AnyShape(n, packet, payoutWorks);
    ReceiptTouchesItsChannel(n.escrow, packet, works, line);
  }

  lemma ReceiptTouchesItsChannel(s: EscrowState, packet: Packet, works: bool, line: Line)
    requires EntriesPermitted(s) && Representable(s.balances) && packet.dest.channel != line.0
    ensures Outstanding(Receive(s, packet, works).state.balances, line) == Outstanding(s.balances, line)
  {
    ErrorAckNeutral(s, packet, works);
    SuccessPays(s, packet, works);
  }

  /** A packet that is not about a token of this chain changes nothing. */
  lemma ForeignChangesNothing(n: Net, packet: Packet, payoutWorks: bool)
    requires ParseVoucher(packet.data.denom, packet.src).Err?
    ensures DoWeReceiveAny(n, packet, payoutWorks) == n
  {
  }

  lemma AnyConserved(n: Net, packet: Packet, payoutWorks: bool, line: Line, honest: set<string>)
    requires Sound(n) && Conserved(n, line) && line.0 in honest && Proper(WeReceiveAny(packet, payoutWorks), honest)
    ensures Conserved(DoWeReceiveAny(n, packet, payoutWorks), line)
  {
    if packet.dest.channel in honest {
      ForeignChangesNothing(n, packet, payoutWorks);
    } else {
      AnyTouchesItsChannel(n, packet, payoutWorks, line);
    }
  }

  lemma OurStepConserved(n: Net, m: Move, line: Line, honest: set<string>)
    requires Sound(n) && Conserved(n, line) && line.0 in honest && Proper(m, honest) && ByUs(m)
    ensures Conserved(Step(n, m), line)
  {
    if m.Send? {
      SendConserved(n, m.id, m.channel, m.receiver, m.what, m.sender, line);
    } else if m.WeReceive? {
      WeReceiveConserved(n, m.id, m.payoutWorks, line);
    } else if m.WeReceiveAny? {
      AnyConserved(n, m.packet, m.payoutWorks, line, honest);
    }
  }

  lemma ConservedKept(n: Net, m: Move, line: Line, honest: set<string>)
    requires Sound(n) && Conserved(n, line) && line.0 in honest && Proper(m, honest)
    ensures Conserved(Step(n, m), line)
  {
    if ByUs(m) {
      OurStepConserved(n, m, line, honest);
    } else if m.TheyReceive? {
      TheyReceiveConserved(n, m.id, m.accept, line);
    } else if m.WeGetAck? {
      WeGetAckConserved(n, m.id, m.refundWorks, line);
    } else if m.WeTimeOut? {
      if m.id in n.sent && n.sent[m.id].stage == InFlight {
        RefundConserved(n, m.id, m.refundWorks, line);
      }
    } else if m.SendBack? {
      SendBackConserved(n, m.id, m.line, m.amount, m.receiver, line);
    } else if m.TheyGetAck? {
      TheyGetAckConserved(n, m.id, line);
    } else if m.id in n.returning && n.returning[m.id].stage == InFlight {
      RestoreConserved(n, m.id, line);
    }
  }

  // ---- Every step keeps the holdings sufficient ----

  lemma SendCovered(n: Net, id: nat, channel: string, receiver: string, what: Amount, sender: string, denom: string)
    requires Covered(n, denom)
    ensures Covered(DoSend(n, id, channel, receiver, what, sender), denom)
  {
    if Transfer(n.escrow, channel, receiver, what, sender).Ok? {
      var line := (channel, what.Denom());
      SetBalance(n.escrow.balances, line, Increase(n.escrow.balances, line, what.amount).value[line], denom);
    }
  }

  lemma ReduceCovered(n: Net, line: Line, amount: nat, holdings: map<string, nat>, denom: string)
    requires Covered(n, denom) && Reduce(n.escrow.balances, line, amount).Ok?
    requires holdings == n.holdings || (amount <= Holding(n, line.1) && holdings == Spend(n, line.1, amount))
    ensures SumBy(Slice(Reduce(n.escrow.balances, line, amount).value, denom), Owed())
      <= Holding(n.(holdings := holdings), denom)
  {
    SetBalance(n.escrow.balances, line, Reduce(n.escrow.balances, line, amount).value[line], denom);
  }

  lemma RefundCovered(n: Net, id: nat, refundWorks: bool, denom: string)
    requires LegsOk(n) && Covered(n, denom) && id in n.sent
    ensures Covered(Refund(n, id, refundWorks), denom)
  {
    var leg := n.sent[id];
    assert SentOk(leg);
    if OnFailure(n.escrow, leg.packet).Ok? {
      ReduceCovered(n, leg.line, leg.Amount(), Refund(n, id, refundWorks).holdings, denom);
    }
  }

  lemma WeReceiveCovered(n: Net, id: nat, payoutWorks: bool, denom: string)
    requires Sound(n) && Covered(n, denom)
    ensures Covered(DoWeReceive(n, id, payoutWorks), denom)
  {
    if id in n.returning && n.returning[id].stage == InFlight {
      var leg := n.returning[id];
      var works := Payable(n, id, payoutWorks);
      ReturnShape(n.escrow, leg, works);
      SuccessPays(n.escrow, leg.packet, works);
      if Receive(n.escrow, leg.packet, works).ack.Success? {
        ReduceCovered(n, leg.line, leg.Amount(), Spend(n, leg.line.1, leg.Amount()), denom);
      }
    }
  }

  /** Not even a packet nobody sent can take more than its own line has. */
  lemma AnyCovered(n: Net, packet: Packet, payoutWorks: bool, denom: string)
    requires Sound(n) && Covered(n, denom)
    ensures Covered(DoWeReceiveAny(n, packet, payoutWorks), denom)
  {
    var own := ParseVoucher(packet.data.denom, packet.src);
    if own.Err? {
      ForeignChangesNothing(n, packet, payoutWorks);
    } else {
      var works := payoutWorks && packet.data.amount <= Holding(n, own.value);
      ErrorAckNeutral(n.escrow, packet, works);
      SuccessPays(n.escrow, packet, works);
      if Receive(n.escrow, packet, works).ack.Success? {
        ReduceCovered(n, (packet.dest.channel, own.value), packet.data.amount,
                      Spend(n, own.value, packet.data.amount), denom);
      }
    }
  }

  /** The other steps change no balance and spend nothing. */
  lemma SettingsCovered(n: Net, m: Move, denom: string)
    requires Covered(n, denom) && (m.Connect? || m.Permit? || m.Migrate? || m.SetAdmin? || m.Donate?)
    ensures Covered(Step(n, m), denom)
  {
    assert Step(n, m).escrow.balances == n.escrow.balances && Holding(Step(n, m), denom) >= Holding(n, denom);
  }

  lemma TheirsCovered(n: Net, m: Move, denom: string)
    requires Covered(n, denom) && (m.TheyReceive? || m.SendBack? || m.TheyGetAck? || m.TheyTimeOut?)
    ensures Covered(Step(n, m), denom)
  {
    assert Step(n, m).escrow == n.escrow && Step(n, m).holdings == n.holdings;
  }

  lemma CoveredKept(n: Net, m: Move, denom: string)
    requires Sound(n) && Covered(n, denom)
    ensures Covered(Step(n, m), denom)
  {
    if m.Send? {
      SendCovered(n, m.id, m.channel, m.receiver, m.what, m.sender, denom);
    } else if m.WeGetAck? || m.WeTimeOut? {
      if m.id in n.sent {
        RefundCovered(n, m.id, m.refundWorks, denom);
      }
    } else if m.WeReceive? {
      WeReceiveCovered(n, m.id, m.payoutWorks, denom);
    } else if m.WeReceiveAny? {
      AnyCovered(n, m.packet, m.payoutWorks, denom);
    } else if m.TheyReceive? || m.SendBack? || m.TheyGetAck? || m.TheyTimeOut? {
      TheirsCovered(n, m, denom);
    } else {
      SettingsCovered(n, m, denom);
    }
  }

  // ---- Over whole runs ----

  function Run(n: Net, moves: seq<Move>): Net
    decreases |moves|
  {
    if moves == [] then n else Run(Step(n, moves[0]), moves[1..])
  }

  lemma InvStart(admin: string, allow: map<string, Option<nat>>, gas: Option<nat>, honest: set<string>)
    ensures Inv(NewNet(admin, allow, gas), honest)
  {
    var n := NewNet(admin, allow, gas);
    forall line: Line ensures Conserved(n, line) {
      SumByEmpty<nat, Leg>(Due(line));
    }
    forall denom ensures Covered(n, denom) {
      assert Slice(map[], denom) == map[];
      SumByEmpty<Line, Balance>(Owed());
    }
  }

  lemma InvKept(n: Net, m: Move, honest: set<string>)
    requires Inv(n, honest) && Proper(m, honest)
    ensures Inv(Step(n, m), honest)
  {
    SoundKept(n, m, honest);
    forall line: Line | line.0 in honest ensures Conserved(Step(n, m), line) {
      ConservedKept(n, m, line, honest);
    }
    forall denom ensures Covered(Step(n, m), denom) {
      CoveredKept(n, m, denom);
    }
  }

  predicate AllProper(moves: seq<Move>, honest: set<string>) {
    forall i :: 0 <= i < |moves| ==> Proper(moves[i], honest)
  }

  lemma {:induction false} RunConserved(n: Net, moves: seq<Move>, honest: set<string>)
    requires Inv(n, honest) && AllProper(moves, honest)
    ensures Inv(Run(n, moves), honest)
    decreases |moves|
  {
    if moves != [] {
      InvKept(n, moves[0], honest);
      RunConserved(Step(n, moves[0]), moves[1..], honest);
    }
  }

  /** What runs of a new contract lead to, with the given channels honest and the others not. */
  ghost predicate Reachable(n: Net, honest: set<string>) {
    exists admin, allow, gas, moves :: AllProper(moves, honest) && n == Run(NewNet(admin, allow, gas), moves)
  }

  /** After every run of a new contract the lines of honest channels are conserved, whatever arrives on the
      others, and the holdings cover all channels together. */
  lemma EveryRunConserved(n: Net, honest: set<string>)
    requires Reachable(n, honest)
    ensures Inv(n, honest)
  {
    var admin, allow, gas, moves :| AllProper(moves, honest) && n == Run(NewNet(admin, allow, gas), moves);
    InvStart(admin, allow, gas, honest);
    RunConserved(NewNet(admin, allow, gas), moves, honest);
  }

  // ---- Refunds and returns are always covered ----

  /** Over every run: the refund of a packet pays back what was sent, to whoever sent it. */
  lemma RefundOwed(n: Net, id: nat, honest: set<string>)
    requires Reachable(n, honest) && id in n.sent && OnFailure(n.escrow, n.sent[id].packet).Ok?
    ensures id in n.origins
    ensures OnFailure(n.escrow, n.sent[id].packet).value.payout == Payout(n.origins[id].what, n.origins[id].sender)
  {
    EveryRunConserved(n, honest);
    assert OriginOk(n.sent[id], n.origins[id]);
    AmountRoundTrip(n.origins[id].what);
  }

  /** A refund over an honest channel is never refused, and there is enough to pay it from. */
  lemma RefundAccepted(n: Net, id: nat, honest: set<string>)
    requires Reachable(n, honest) && id in n.sent && n.sent[id].line.0 in honest && n.sent[id].stage != Taken
    ensures OnFailure(n.escrow, n.sent[id].packet).Ok?
    ensures var payout := OnFailure(n.escrow, n.sent[id].packet).value.payout;
      payout.amount.amount <= Holding(n, payout.amount.Denom())
  {
    EveryRunConserved(n, honest);
    var leg := n.sent[id];
    var line := leg.line;
    assert SentOk(leg);
    assert Conserved(n, line) && Covered(n, line.1);
    SumByBound(n.sent, Due(line), id);
    LineWithin(n.escrow.balances, line);
    PermittedAtAnyAmount(n.escrow, line.1, leg.Amount());
    DenomRoundTrip(line.1, leg.Amount());
  }

  /** Whatever is returned over an honest channel is there. */
  lemma ReturnCovered(n: Net, id: nat, honest: set<string>)
    requires Reachable(n, honest) && id in n.returning && n.returning[id].line.0 in honest
    requires n.returning[id].stage == InFlight
    ensures n.returning[id].Amount() <= Outstanding(n.escrow.balances, n.returning[id].line)
      <= Holding(n, n.returning[id].line.1)
  {
    EveryRunConserved(n, honest);
    var line := n.returning[id].line;
    assert Conserved(n, line) && Covered(n, line.1);
    SumByBound(n.returning, Due(line), id);
    LineWithin(n.escrow.balances, line);
  }

  /** A return in flight over an honest channel is answered with success if and only if its payout goes
      through and its line has ever been used; the latter can fail for a return of nothing only. */
  lemma ReturnAccepted(n: Net, id: nat, honest: set<string>, payoutWorks: bool)
    requires Reachable(n, honest) && id in n.returning && n.returning[id].line.0 in honest
    requires n.returning[id].stage == InFlight
    ensures Receive(n.escrow, n.returning[id].packet, payoutWorks).ack.Success?
      <==> payoutWorks && n.returning[id].line in n.escrow.balances
    ensures n.returning[id].Amount() > 0 ==> n.returning[id].line in n.escrow.balances
  {
    EveryRunConserved(n, honest);
    ReturnCovered(n, id, honest);
    var leg := n.returning[id];
    assert ReturningOk(leg);
    VoucherRoundTrip(leg.packet.data.denom, leg.packet.src, leg.line.1);
    PermittedAtAnyAmount(n.escrow, leg.line.1, leg.Amount());
  }

  /** What exists on the other side of an honest channel is locked here. */
  lemma VouchersLocked(n: Net, line: Line, honest: set<string>)
    requires Reachable(n, honest) && line.0 in honest
    ensures VouchersOf(n, line) <= Outstanding(n.escrow.balances, line) <= Holding(n, line.1)
  {
    EveryRunConserved(n, honest);
    assert Conserved(n, line) && Covered(n, line.1);
    LineWithin(n.escrow.balances, line);
  }
}
