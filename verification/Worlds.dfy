/** Whole runs of the pool. A world is the stored state together with the clock and with a history:
    what an observer of the messages would have written down. The history is never read by the
    contract; the invariants use it to say what the stored numbers mean. */
module Worlds {
  import opened Arith
  import opened Allocation
  import opened Payload
  import opened PoolTypes
  import opened PoolSteps

  /** Block times are 64-bit nanoseconds. */
  const MAX_SECONDS: nat := U64_MAX / 1_000_000_000

  /** An unstake, as it was accepted: the era, the user, and what it added to the unbond counter. */
  datatype Issue = Issue(era: nat, unstaker: string, tokens: nat)

  /** A withdrawal packet that is out. */
  datatype Ticket = Ticket(amount: nat, user: string, receiver: string, indices: seq<nat>)

  /** Which unstakes have been covered by an acknowledged bond step: every unstake ever accepted, those
      still uncovered, those of them in the current snapshot, and what a migrated pool brought along in
      its unbond counter. */
  datatype Settlement = Settlement(
    issued: map<nat, Issue>, unsettled: map<nat, Issue>, inSnapshot: map<nat, Issue>, carried: nat)

  /** The withdrawals that are out, the packet each pending record waits for, and the total paid. */
  datatype Payouts = Payouts(tickets: map<PacketKey, Ticket>, holder: map<nat, PacketKey>, paid: nat)

  /** The undelegations of the bond packet that is out and when it was sent; per validator the times of
      all acknowledged undelegations, and of their submissions. */
  datatype Window = Window(bonding: seq<string>, sentAt: nat, acks: Times, submits: Times)

  /** What moved between the two chains: the amounts of the deposit packet and of the bond packet that are
      out, and the sums of the acknowledged ones; and the withdrawals a migrated pool still owed. */
  datatype Flow = Flow(
    offered: nat, delegating: nat, undelegating: nat,
    transferred: nat, delegated: nat, undelegated: nat, imported: nat)

  /** The packet of the era or of the admin that is out, if any; the liquid-share stake acknowledged
      since the era snapshot; whether the unbonding period has been at least two eras all along; and the
      records above. */
  datatype History = History(
    slot: Option<PacketKey>, lsm: nat, patient: bool, settlement: Settlement, payouts: Payouts, window: Window,
    flow: Flow)

  datatype World = World(s: PoolState, now: nat, height: nat, h: History)

  /** A message, with the time and height of its block. */
  datatype Event = Event(action: Action, now: nat, height: nat)

  function NewHistory(): History {
    History(None, 0, true, Settlement(map[], map[], map[], 0), Payouts(map[], map[], 0), Window([], 0, map[], map[]),
            Flow(0, 0, 0, 0, 0, 0, 0))
  }

  function Genesis(d: Deployment, now: nat, height: nat): World {
    World(Registered(d), now, height, NewHistory())
  }

  // ---- The observers ----

  predicate UserPacket(t: TxType) { t == TxUserWithdraw || t == TxStakeLsm || t == TxRedeemShares }

  /** The slot is taken by the packet of an era step, a redelegation or the set-up, and freed by
      the delivery to it. */
  function Slot(slot: Option<PacketKey>, a: Action, after: PoolState): Option<PacketKey> {
    if a.DoDeliver? then (if slot == Some(a.key) then None else slot)
    else if Key(a).Some? && Key(a).value in after.mail.sudoPayloads
            && !UserPacket(after.mail.sudoPayloads[Key(a).value].txType) then Key(a)
    else slot
  }

  /** Whether a delivery of the given type and result happens. */
  predicate Delivers(s: PoolState, a: Action, t: TxType, success: bool) {
    a.DoDeliver? && a.success == success && a.key in s.mail.sudoPayloads && s.mail.sudoPayloads[a.key].txType == t
  }

  function Lsm(lsm: nat, s: PoolState, a: Action, after: PoolState): nat {
    if a.DoEraUpdate? then 0
    else if Delivers(s, a, TxStakeLsm, true) && after.pool.book.active >= s.pool.book.active
    then lsm + (after.pool.book.active - s.pool.book.active)
    else lsm
  }

  function Settle(h: Settlement, s: PoolState, a: Action, after: PoolState): Settlement {
    if a.DoMigratePool? && s.pool.status == RegisterEnded then h.(carried := a.migrate.unbond)
    else if a.DoUnstake? && after.pool.book.unbond >= s.pool.book.unbond then
      var index := after.pool.nextUnstakeIndex;
      var issue := Issue(s.pool.clock.era, a.sender, after.pool.book.unbond - s.pool.book.unbond);
      h.(issued := h.issued[index := issue], unsettled := h.unsettled[index := issue])
    else if a.DoEraUpdate? then h.(inSnapshot := h.unsettled)
    else if Delivers(s, a, TxEraUpdate, false) then h.(inSnapshot := map[])
    else if Delivers(s, a, TxEraBond, true) then
      h.(unsettled := h.unsettled - h.inSnapshot.Keys, inSnapshot := map[], carried := 0)
    else h
  }

  function StillPatient(patient: bool, after: PoolState): bool {
    patient && (after.pool.status == RegisterEnded || after.pool.clock.unbondingPeriod >= 2)
  }

  function SentAmount(msgs: seq<RemoteMsg>): nat {
    if msgs != [] && msgs[0].Send? then msgs[0].amount else 0
  }

  function IndexSet(indices: seq<nat>): set<nat> { set i | i in indices }

  function ReleaseAll(holder: map<nat, PacketKey>, indices: seq<nat>): map<nat, PacketKey> {
    holder - IndexSet(indices)
  }

  function HoldAll(holder: map<nat, PacketKey>, indices: seq<nat>, key: PacketKey): map<nat, PacketKey> {
    map i | i in holder.Keys + IndexSet(indices) :: if i in indices then key else holder[i]
  }

  /** A withdrawal packet goes out. */
  function Hold(h: Payouts, key: PacketKey, t: Ticket): Payouts {
    h.(tickets := h.tickets[key := t], holder := HoldAll(h.holder, t.indices, key))
  }

  /** A withdrawal packet has been answered. */
  function Close(h: Payouts, key: PacketKey, success: bool): Payouts
    requires key in h.tickets
  {
    Payouts(h.tickets - {key}, ReleaseAll(h.holder, h.tickets[key].indices),
            h.paid + if success then h.tickets[key].amount else 0)
  }

  function Pay(h: Payouts, s: PoolState, a: Action, o: Outcome): Payouts {
    if a.DoWithdraw? then Hold(h, a.key, Ticket(SentAmount(o.effects.remote), a.sender, a.receiver, a.indices))
    else if a.DoDeliver? && a.key in h.tickets then Close(h, a.key, a.success)
    else h
  }

  function Bonded(msgs: seq<RemoteMsg>): seq<string> {
    if msgs == [] then []
    else (if msgs[0].Undelegate? then [msgs[0].validator] else []) + Bonded(msgs[1..])
  }

  /** One more time for each validator named. */
  function Logged(times: Times, names: seq<string>, at: nat): Times {
    map v | v in times.Keys + (set u | u in names) ::
      (if v in times then times[v] else []) + if v in names then [at] else []
  }

  function Watch(h: Window, s: PoolState, a: Action, o: Outcome, now: nat): Window {
    if a.DoEraBond? then h.(bonding := Bonded(o.effects.remote), sentAt := now)
    else if Delivers(s, a, TxEraBond, true) then
      h.(bonding := [], acks := Logged(h.acks, h.bonding, now), submits := Logged(h.submits, h.bonding, h.sentAt))
    else if Delivers(s, a, TxEraBond, false) then h.(bonding := [])
    else h
  }

  function Transferred(msgs: seq<RemoteMsg>): nat {
    if msgs != [] && msgs[0].IbcTransfer? then msgs[0].amount else 0
  }

  function Count(h: Flow, s: PoolState, a: Action, o: Outcome): Flow {
    if a.DoMigratePool? && s.pool.status == RegisterEnded then h.(imported := h.imported + a.migrate.unbond)
    else if a.DoEraUpdate? then h.(offered := Transferred(o.effects.remote))
    else if Delivers(s, a, TxEraUpdate, true) then h.(transferred := h.transferred + h.offered)
    else if a.DoEraBond? then
      h.(delegating := Delegated(o.effects.remote), undelegating := Undelegated(o.effects.remote))
    else if Delivers(s, a, TxEraBond, true)
    then h.(delegated := h.delegated + h.delegating, undelegated := h.undelegated + h.undelegating)
    else h
  }

  function Observe(h: History, s: PoolState, a: Action, o: Outcome, now: nat): History {
    History(Slot(h.slot, a, o.state), Lsm(h.lsm, s, a, o.state), StillPatient(h.patient, o.state),
            Settle(h.settlement, s, a, o.state), Pay(h.payouts, s, a, o), Watch(h.window, s, a, o, now),
            Count(h.flow, s, a, o))
  }

  /** One message. A refused one only lets the time pass. */
  function Next(w: World, e: Event): World {
    match Apply(w.s, e.action, e.now, e.height)
    case Ok(o) => World(o.state, e.now, e.height, Observe(w.h, w.s, e.action, o, e.now))
    case Err(_) => World(w.s, e.now, e.height, w.h)
  }

  // ---- The environment ----

  function Key(a: Action): Option<PacketKey> {
    match a
    case DoInitPool(_, _, key) => Some(key)
    case DoMigratePool(_, _, key) => Some(key)
    case DoWithdraw(_, _, _, key) => Some(key)
    case DoStakeLsm(_, _, _, _, _, _, _, key) => Some(key)
    case DoEraUpdate(key) => Some(key)
    case DoEraBond(_, _, key) => Some(key)
    case DoCollectWithdraw(_, key) => Some(key)
    case DoRebond(_, key) => Some(key)
    case DoUpdateValidator(_, _, _, _, key) => Some(key)
    case DoRmValidator(_, _, _, key) => Some(key)
    case DoRedeem(_, key) => Some(key)
    case _ => None
  }

  /** No packet of this type is waiting for its callback. */
  predicate NoneOut(s: PoolState, t: TxType) {
    forall key :: key in s.mail.sudoPayloads ==> s.mail.sudoPayloads[key].txType != t
  }

  /** Validators of one query result are distinct, and their names can be joined. */
  predicate ProperDelegations(ds: seq<Delegation>) {
    NoDup(ds) && forall i :: 0 <= i < |ds| ==> Plain(ds[i].validator) && ds[i].validator != ""
  }

  /** What is taken for granted of each kind of message: account and denomination names as the chains form
      them, and distinct validators in a query result. */
  ghost predicate Proper(a: Action) {
    match a
    case DoUnstake(sender, _) => IsAddress(sender)
    case DoWithdraw(sender, receiver, _, _) => IsAddress(sender) && IsAddress(receiver)
    case DoStakeLsm(sender, ibcDenom, denom, _, _, _, _, _) => Plain(sender) && Plain(ibcDenom) && Plain(denom)
    case DoEraBond(query, _, _) => query.Some? ==> ProperDelegations(query.value.delegations)
    case _ => true
  }

  /** The platform commission a message sets. */
  function SetsCommission(a: Action): Option<nat> {
    match a
    case DoInitPool(_, params, _) => params.platformFeeCommission
    case DoMigratePool(_, params, _) => params.platformFeeCommission
    case DoConfigPool(_, config) => config.platformFeeCommission
    case _ => None
  }

  predicate CommissionWithin(a: Action, limit: nat) {
    SetsCommission(a).Some? ==> SetsCommission(a).value <= limit
  }

  /** A restake, or a set-up, while none of its type is waiting for its callback. */
  ghost predicate Alone(s: PoolState, a: Action) {
    && (a.DoInitPool? || a.DoMigratePool? ==> NoneOut(s, TxSetWithdrawAddr))
    && (a.DoRebond? ==> NoneOut(s, TxEraRebond))
  }

  /** A restake or a set-up is accepted although a packet of its type is still out. */
  ghost predicate Overlaps(w: World, e: Event) {
    Apply(w.s, e.action, e.now, e.height).Ok? && !Alone(w.s, e.action)
  }

  /** Time does not run backwards, a packet number is not given out while it is in use, and commissions
      stay within the limit. */
  ghost predicate Lawful(w: World, e: Event, limit: nat) {
    && w.now <= e.now <= MAX_SECONDS
    && w.height <= e.height
    && (Key(e.action).Some? ==> Key(e.action).value !in w.s.mail.sudoPayloads)
    && Proper(e.action) && CommissionWithin(e.action, limit)
  }

  /** In addition, restakes and set-ups do not overlap. */
  ghost predicate Orderly(w: World, e: Event, limit: nat) {
    Lawful(w, e, limit) && !Overlaps(w, e)
  }

  /** And commissions are shares. */
  ghost predicate Allowed(w: World, e: Event) {
    Orderly(w, e, CAL_BASE)
  }

  function Run(w: World, events: seq<Event>): World
    decreases |events|
  {
    if events == [] then w else Run(Next(w, events[0]), events[1..])
  }

  ghost predicate AllLawful(w: World, events: seq<Event>, limit: nat)
    decreases |events|
  {
    events == [] || (Lawful(w, events[0], limit) && AllLawful(Next(w, events[0]), events[1..], limit))
  }

  ghost predicate AllOrderly(w: World, events: seq<Event>, limit: nat)
    decreases |events|
  {
    events == [] || (Orderly(w, events[0], limit) && AllOrderly(Next(w, events[0]), events[1..], limit))
  }

  ghost predicate AllAllowed(w: World, events: seq<Event>) {
    AllOrderly(w, events, CAL_BASE)
  }
}
