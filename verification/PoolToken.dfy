/** The pool together with its token. The pool's messages to the token run in the same transaction, so
    the pool's own count of liquid tokens follows the real supply. */
module PoolToken {
  import opened Arith
  import opened Sums
  import opened PoolTypes
  import opened PoolSteps
  import opened Worlds
  import opened Solvency
  import T = Token

  // ---- The pool's messages to the token ----

  function RunOne(t: T.TokenState, me: string, msg: TokenMsg, b: T.Block): Result<T.TokenState> {
    match msg
    case Mint(recipient, amount) => T.MintTo(t, me, recipient, amount)
    case TransferFrom(owner, recipient, amount) => T.TransferFrom(t, me, owner, recipient, amount, b)
    case BurnFrom(owner, amount) => T.BurnFrom(t, me, owner, amount, b)
  }

  function RunAll(t: T.TokenState, me: string, msgs: seq<TokenMsg>, b: T.Block): Result<T.TokenState>
    decreases |msgs|
  {
    if msgs == [] then Ok(t)
    else
      var next :- RunOne(t, me, msgs[0], b);
      RunAll(next, me, msgs[1..], b)
  }

  function NetOf(msg: TokenMsg): int {
    if msg.Mint? then msg.amount else if msg.BurnFrom? then 0 - msg.amount else 0
  }

  /** What the messages mint, less what they burn. */
  function Net(msgs: seq<TokenMsg>): int {
    if msgs == [] then 0 else NetOf(msgs[0]) + Net(msgs[1..])
  }

  lemma {:induction false} NetAppend(xs: seq<TokenMsg>, ys: seq<TokenMsg>)
    ensures Net(xs + ys) == Net(xs) + Net(ys)
  {
    if xs == [] {
      assert xs + ys == ys;
    } else {
      assert (xs + ys)[1..] == xs[1..] + ys;
      NetAppend(xs[1..], ys);
    }
  }

  lemma {:induction false} RunAllSupply(t: T.TokenState, me: string, msgs: seq<TokenMsg>, b: T.Block)
    requires T.Conserved(t) && T.Transposed(t.grants) && RunAll(t, me, msgs, b).Ok?
    ensures var after := RunAll(t, me, msgs, b).value;
      && T.Conserved(after) && T.Transposed(after.grants) && after.mint == t.mint
      && after.supply == t.supply + Net(msgs)
    decreases |msgs|
  {
    if msgs != [] {
      RunOneSupply(t, me, msgs[0], b);
      RunAllSupply(RunOne(t, me, msgs[0], b).value, me, msgs[1..], b);
    }
  }

  function AsAction(msg: TokenMsg): T.TokenAction {
    match msg
    case Mint(recipient, amount) => T.DoMint(recipient, amount)
    case TransferFrom(owner, recipient, amount) => T.DoTransferFrom(owner, recipient, amount)
    case BurnFrom(owner, amount) => T.DoBurnFrom(owner, amount)
  }

  lemma RunOneSupply(t: T.TokenState, me: string, msg: TokenMsg, b: T.Block)
    requires T.Conserved(t) && T.Transposed(t.grants) && RunOne(t, me, msg, b).Ok?
    ensures var after := RunOne(t, me, msg, b).value;
      && T.Conserved(after) && T.Transposed(after.grants) && after.mint == t.mint
      && after.supply == t.supply + Net([msg])
  {
    T.ConservedKept(t, T.Request(me, AsAction(msg), b));
    T.TransposedKept(t, T.Request(me, AsAction(msg), b));
    assert [msg][1..] == [];
  }

  // ---- What each message of the pool adds to its count ----

  /** Before it is set up a pool has no rate, so nothing is minted or burned. */
  predicate NotYet(p: PoolInfo) {
    p.status == RegisterEnded ==> p.book.rate == 0 && p.book.totalLsd == 0
  }

  predicate Migrates(s: PoolState, a: Action) { a.DoMigratePool? && s.pool.status == RegisterEnded }

  /** What a migrated pool counts at first although its token is new. */
  function Imported(s: PoolState, a: Action): nat {
    if Migrates(s, a) then a.migrate.totalLsd else 0
  }

  predicate Counts(s: PoolState, o: Outcome, imported: nat) {
    o.state.pool.book.totalLsd == s.pool.book.totalLsd + Net(o.effects.token) + imported && NotYet(o.state.pool)
  }

  lemma NetOne(msg: TokenMsg)
    ensures Net([msg]) == NetOf(msg)
  {
    assert [msg][1..] == [];
  }

  lemma StakeCounts(s: PoolState, user: string, amount: nat)
    requires NotYet(s.pool) && Stake(s, user, amount).Ok?
    ensures Counts(s, Stake(s, user, amount).value, 0)
  {
    NetOne(Stake(s, user, amount).value.effects.token[0]);
  }

  lemma UnstakeCounts(s: PoolState, user: string, amount: nat)
    requires NotYet(s.pool) && Unstake(s, user, amount).Ok?
    ensures Counts(s, Unstake(s, user, amount).value, 0)
  {
    var fee := UnstakeFee(s.pool, amount).value;
    var move, burn := TransferFrom(user, s.pool.config.platformFeeReceiver, fee), BurnFrom(user, amount - fee);
    NetOne(move);
    NetOne(burn);
    NetAppend(if fee > 0 then [move] else [], [burn]);
    assert s.pool.book.rate == 0 ==> (amount - fee) * s.pool.book.rate == 0;
  }

  lemma LsmCounts(s: PoolState, message: string)
    requires NotYet(s.pool) && StakeLsmDone(s, message).Ok?
    ensures Counts(s, StakeLsmDone(s, message).value, 0)
  {
    NetOne(StakeLsmDone(s, message).value.effects.token[0]);
  }

  /** The fees of an era are added to the count as they are minted. */
  lemma EraActiveCounts(s: PoolState, query: Option<DelegationQuery>)
    requires NotYet(s.pool) && EraActive(s, query).Ok?
    ensures Counts(s, EraActive(s, query).value, 0)
  {
    var c := EraActiveCloses(s, query);
    var platform := Mint(s.pool.config.platformFeeReceiver, c.fees.platform);
    var stack := Mint(s.stack.feeReceiver, c.fees.stack);
    NetOne(platform);
    NetOne(stack);
    NetAppend(if c.fees.platform > 0 then [platform] else [], if c.fees.stack > 0 then [stack] else []);
    assert EraActive(s, query).value.effects.token
        == (if c.fees.platform > 0 then [platform] else []) + (if c.fees.stack > 0 then [stack] else []);
  }

  lemma AdminCounts(s: PoolState, a: Action, now: nat)
    requires NotYet(s.pool) && ByAdmin(a) && ApplyAdmin(s, a, now).Ok?
    ensures Counts(s, ApplyAdmin(s, a, now).value, Imported(s, a))
  {
  }

  lemma UserCounts(s: PoolState, a: Action)
    requires NotYet(s.pool) && ByUser(a) && ApplyUser(s, a).Ok?
    ensures Counts(s, ApplyUser(s, a).value, 0)
  {
    if a.DoStake? {
      StakeCounts(s, a.sender, a.amount);
    } else if a.DoUnstake? {
      UnstakeCounts(s, a.sender, a.amount);
    }
  }

  lemma CallbackCounts(s: PoolState, payload: SudoPayload, now: nat, height: nat)
    requires NotYet(s.pool)
    ensures Callback(s, payload, now, height).Ok? ==> Counts(s, Callback(s, payload, now, height).value, 0)
    ensures FailedCallback(s, payload).Ok? ==> Counts(s, FailedCallback(s, payload).value, 0)
  {
    if payload.txType == TxStakeLsm && StakeLsmDone(s, payload.message).Ok? {
      LsmCounts(s, payload.message);
    }
  }

  lemma EraCounts(s: PoolState, a: Action, now: nat, height: nat)
    requires NotYet(s.pool) && ApplyEra(s, a, now, height).Ok?
    ensures Counts(s, ApplyEra(s, a, now, height).value, 0)
  {
    if a.DoEraActive? {
      EraActiveCounts(s, a.query);
    } else if a.DoDeliver? {
      CallbackCounts(s.(mail := s.mail.(sudoPayloads := s.mail.sudoPayloads - {a.key})), s.mail.sudoPayloads[a.key],
                     now, height);
    }
  }

  lemma MessageCounts(s: PoolState, a: Action, now: nat, height: nat)
    requires NotYet(s.pool) && Apply(s, a, now, height).Ok?
    ensures Counts(s, Apply(s, a, now, height).value, Imported(s, a))
  {
    if a.DoConfigStack? {
    } else if ByAdmin(a) {
      AdminCounts(s, a, now);
    } else if ByUser(a) {
      UserCounts(s, a);
    } else {
      EraCounts(s, a, now, height);
    }
  }

  // ---- The two contracts together ----

  /** Both contracts, what was imported by a migration, and what others have minted and burned. */
  datatype Joint = Joint(w: World, token: T.TokenState, imported: nat, minted: nat, burned: nat)

  /** A message to the pool, or a message of anyone else to the token. */
  datatype JointEvent = OnPool(event: Event) | OnToken(request: T.Request)

  function JointStart(me: string, d: Deployment, now: nat, height: nat): Joint {
    Joint(Genesis(d, now, height),
          T.TokenState(map[], 0, Some(T.Minting(d.admin, [me], None)), T.Grants(map[], map[])), 0, 0, 0)
  }

  function JointNext(j: Joint, me: string, e: JointEvent): Joint {
    match e
    case OnPool(event) => PoolNext(j, me, event)
    case OnToken(request) => TokenNext(j, me, request)
  }

  /** If a message to the token is refused, the whole message to the pool is. */
  function PoolNext(j: Joint, me: string, e: Event): Joint {
    match Apply(j.w.s, e.action, e.now, e.height)
    case Err(_) => j.(w := Next(j.w, e))
    case Ok(o) =>
      match RunAll(j.token, me, o.effects.token, T.Block(e.height, e.now))
      case Err(_) => j.(w := World(j.w.s, e.now, e.height, j.w.h))
      case Ok(token) => Joint(Next(j.w, e), token, j.imported + Imported(j.w.s, e.action), j.minted, j.burned)
  }

  function TokenNext(j: Joint, me: string, q: T.Request): Joint {
    if q.sender == me then j
    else
      var token := T.Next(j.token, q);
      if token.supply >= j.token.supply then j.(token := token, minted := j.minted + (token.supply - j.token.supply))
      else j.(token := token, burned := j.burned + (j.token.supply - token.supply))
  }

  ghost predicate JointAllowed(j: Joint, e: JointEvent) {
    e.OnPool? ==> Allowed(j.w, e.event)
  }

  /** The pool's count and the token's supply differ by what others minted and burned, and by what was
      imported. */
  ghost predicate Agrees(j: Joint) {
    && j.w.s.pool.book.totalLsd + j.minted == j.token.supply + j.burned + j.imported
    && T.Conserved(j.token) && T.Transposed(j.token.grants)
    && NotYet(j.w.s.pool) && Healthy(j.w.s)
  }

  lemma StartAgrees(me: string, d: Deployment, now: nat, height: nat)
    ensures Agrees(JointStart(me, d, now, height))
  {
    SumByEmpty<string, nat>(Same());
  }

  lemma PoolAgrees(j: Joint, me: string, e: Event)
    requires Agrees(j) && Allowed(j.w, e)
    ensures Agrees(PoolNext(j, me, e))
  {
    HealthyKept(j.w, e);
    if Apply(j.w.s, e.action, e.now, e.height).Ok? {
      var o := Apply(j.w.s, e.action, e.now, e.height).value;
      MessageCounts(j.w.s, e.action, e.now, e.height);
      if RunAll(j.token, me, o.effects.token, T.Block(e.height, e.now)).Ok? {
        RunAllSupply(j.token, me, o.effects.token, T.Block(e.height, e.now));
      }
    }
  }

  lemma AgreementKept(j: Joint, me: string, e: JointEvent)
    requires Agrees(j) && JointAllowed(j, e)
    ensures Agrees(JointNext(j, me, e))
  {
    match e
    case OnPool(event) => PoolAgrees(j, me, event);
    case OnToken(request) =>
      T.ConservedKept(j.token, request);
      T.TransposedKept(j.token, request);
  }

  function JointRun(j: Joint, me: string, events: seq<JointEvent>): Joint
    decreases |events|
  {
    if events == [] then j else JointRun(JointNext(j, me, events[0]), me, events[1..])
  }

  ghost predicate AllJointAllowed(j: Joint, me: string, events: seq<JointEvent>)
    decreases |events|
  {
    events == [] || (JointAllowed(j, events[0]) && AllJointAllowed(JointNext(j, me, events[0]), me, events[1..]))
  }

  lemma {:induction false} AgreementRun(j: Joint, me: string, events: seq<JointEvent>)
    requires Agrees(j) && AllJointAllowed(j, me, events)
    ensures Agrees(JointRun(j, me, events))
    decreases |events|
  {
    if events != [] {
      AgreementKept(j, me, events[0]);
      AgreementRun(JointNext(j, me, events[0]), me, events[1..]);
    }
  }

  // ---- The pool as the only minter ----

  predicate OnlyMinter(t: T.TokenState, me: string) {
    t.mint.Some? ==> forall m :: m in t.mint.value.minters ==> m == me
  }

  predicate AddsMinter(e: JointEvent) { e.OnToken? && e.request.action.DoAddMinter? }

  lemma {:induction false} OthersSubset(minters: seq<string>, minter: string)
    ensures forall m :: m in T.Others(minters, minter) ==> m in minters
  {
    if minters != [] {
      OthersSubset(minters[1..], minter);
    }
  }

  lemma PoolKeepsMinters(j: Joint, me: string, e: Event)
    requires Agrees(j)
    ensures PoolNext(j, me, e).token.mint == j.token.mint && PoolNext(j, me, e).minted == j.minted
  {
    var r := Apply(j.w.s, e.action, e.now, e.height);
    if r.Ok? && RunAll(j.token, me, r.value.effects.token, T.Block(e.height, e.now)).Ok? {
      RunAllSupply(j.token, me, r.value.effects.token, T.Block(e.height, e.now));
    }
  }

  /** Nobody else can mint, and removing a minter or changing the admin does not change that. */
  lemma OutsidersCannotMint(t: T.TokenState, me: string, q: T.Request)
    requires OnlyMinter(t, me) && q.sender != me && !q.action.DoAddMinter?
    ensures OnlyMinter(T.Next(t, q), me) && T.Next(t, q).supply <= t.supply
  {
    if q.action.DoRemoveMinter? && t.mint.Some? {
      OthersSubset(t.mint.value.minters, q.action.minter);
    }
  }

  lemma OnlyMinterKept(j: Joint, me: string, e: JointEvent)
    requires Agrees(j) && OnlyMinter(j.token, me) && !AddsMinter(e)
    ensures OnlyMinter(JointNext(j, me, e).token, me) && JointNext(j, me, e).minted == j.minted
  {
    match e
    case OnPool(event) => PoolKeepsMinters(j, me, event);
    case OnToken(request) =>
      if request.sender != me {
        OutsidersCannotMint(j.token, me, request);
      }
  }

  lemma {:induction false} NothingMintedOutside(j: Joint, me: string, events: seq<JointEvent>)
    requires Agrees(j) && AllJointAllowed(j, me, events) && OnlyMinter(j.token, me)
    requires forall i :: 0 <= i < |events| ==> !AddsMinter(events[i])
    ensures JointRun(j, me, events).minted == j.minted
    decreases |events|
  {
    if events != [] {
      OnlyMinterKept(j, me, events[0]);
      AgreementKept(j, me, events[0]);
      NothingMintedOutside(JointNext(j, me, events[0]), me, events[1..]);
    }
  }

  lemma Backed(j: Joint)
    requires Agrees(j) && j.minted == 0
    ensures j.w.s.pool.book.totalLsd - j.token.supply == j.burned + j.imported
    ensures j.w.s.pool.book.rate * j.token.supply <= j.w.s.pool.book.active * CAL_BASE
  {
    MulLe(j.token.supply, j.w.s.pool.book.totalLsd, j.w.s.pool.book.rate);
  }

  /** While the pool is the only minter, its count exceeds the supply by what others burned and what was
      imported, and every token there is is backed at the stored rate. */
  lemma SupplyBacked(me: string, d: Deployment, now: nat, height: nat,
                     events: seq<JointEvent>)
    requires AllJointAllowed(JointStart(me, d, now, height), me, events)
    requires forall i :: 0 <= i < |events| ==> !AddsMinter(events[i])
    ensures var end := JointRun(JointStart(me, d, now, height), me, events);
      && end.w.s.pool.book.totalLsd - end.token.supply == end.burned + end.imported
      && end.w.s.pool.book.rate * end.token.supply <= end.w.s.pool.book.active * CAL_BASE
  {
    var start := JointStart(me, d, now, height);
    StartAgrees(me, d, now, height);
    AgreementRun(start, me, events);
    NothingMintedOutside(start, me, events);
    Backed(JointRun(start, me, events));
  }
}
