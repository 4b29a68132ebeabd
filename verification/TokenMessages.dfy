/** What each message of the token comes to: whose balance falls and whose rises, what becomes of the
    allowance it uses, and, over whole runs, that nobody moves more than was granted. */
module TokenMessages {
  import opened Arith
  import opened Sums
  import opened Token

  // ---- Balances ----

  /** The amount has gone from the one account to the other; no other balance has changed. */
  ghost predicate Moved(before: map<string, nat>, after: map<string, nat>, from: string, to: string, amount: nat) {
    forall a :: BalanceOf(after, a) + (if a == from then amount else 0)
             == BalanceOf(before, a) + (if a == to then amount else 0)
  }

  /** The account's balance has fallen, or risen, by the amount; no other balance has changed. */
  ghost predicate Taken(before: map<string, nat>, after: map<string, nat>, account: string, amount: nat) {
    forall a :: BalanceOf(after, a) + (if a == account then amount else 0) == BalanceOf(before, a)
  }

  ghost predicate Given(before: map<string, nat>, after: map<string, nat>, account: string, amount: nat) {
    Taken(after, before, account, amount)
  }

  lemma TransferExact(s: TokenState, sender: string, recipient: string, amount: nat, b: Block)
    requires Conserved(s)
    ensures Apply(s, sender, DoTransfer(recipient, amount), b).Ok? <==> amount <= BalanceOf(s.balances, sender)
    ensures Apply(s, sender, DoTransfer(recipient, amount), b) == Apply(s, sender, DoSend(recipient, amount), b)
    ensures Apply(s, sender, DoTransfer(recipient, amount), b).Ok? ==>
      var after := Apply(s, sender, DoTransfer(recipient, amount), b).value;
      after == s.(balances := after.balances) && Moved(s.balances, after.balances, sender, recipient, amount)
  {
    MoveExact(s.balances, sender, recipient, amount);
  }

  lemma BurnMessageExact(s: TokenState, sender: string, amount: nat, b: Block)
    requires Conserved(s)
    ensures Apply(s, sender, DoBurn(amount), b).Ok? <==> amount <= BalanceOf(s.balances, sender)
    ensures Apply(s, sender, DoBurn(amount), b).Ok? ==>
      var after := Apply(s, sender, DoBurn(amount), b).value;
      && after == s.(balances := after.balances, supply := after.supply) && after.supply + amount == s.supply
      && Taken(s.balances, after.balances, sender, amount)
  {
    BurnExact(s, sender, amount);
  }

  lemma MintMessageExact(s: TokenState, sender: string, recipient: string, amount: nat, b: Block)
    requires Conserved(s) && Apply(s, sender, DoMint(recipient, amount), b).Ok?
    ensures var after := Apply(s, sender, DoMint(recipient, amount), b).value;
      && after == s.(balances := after.balances, supply := after.supply) && after.supply == s.supply + amount
      && Given(s.balances, after.balances, recipient, amount)
  {
  }

  // ---- Minters ----

  lemma {:induction false} OthersExact(minters: seq<string>, minter: string, m: string)
    ensures m in Others(minters, minter) <==> m in minters && m != minter
  {
    if minters != [] {
      OthersExact(minters[1..], minter, m);
      assert minters == [minters[0]] + minters[1..];
    }
  }

  /** Who may mint is the administrator's to say, and only that. */
  lemma MintersExact(s: TokenState, sender: string, who: string, b: Block)
    ensures forall a :: a == DoAddMinter(who) || a == DoRemoveMinter(who) || a == DoTransferAdmin(who) ==>
      (Apply(s, sender, a, b).Ok? <==> s.mint.Some? && s.mint.value.admin == sender)
    ensures s.mint.Some? && s.mint.value.admin == sender ==>
      var added := Apply(s, sender, DoAddMinter(who), b).value;
      var removed := Apply(s, sender, DoRemoveMinter(who), b).value;
      && added.mint.Some? && removed.mint.Some?
      && (forall m :: m in added.mint.value.minters <==> m in s.mint.value.minters || m == who)
      && (forall m :: m in removed.mint.value.minters <==> m in s.mint.value.minters && m != who)
      && added == s.(mint := Some(s.mint.value.(minters := added.mint.value.minters)))
      && removed == s.(mint := Some(s.mint.value.(minters := removed.mint.value.minters)))
      && Apply(s, sender, DoTransferAdmin(who), b) == Ok(s.(mint := Some(s.mint.value.(admin := who))))
  {
    if s.mint.Some? {
      forall m ensures m in Others(s.mint.value.minters, who) <==> m in s.mint.value.minters && m != who {
        OthersExact(s.mint.value.minters, who, m);
      }
    }
  }

  // ---- Allowances ----

  /** Not expired yet. */
  predicate Live(e: Expiration, b: Block) {
    match e
    case Never => true
    case AtHeight(height) => b.height < height
    case AtTime(time) => b.time < time
  }

  predicate LiveIfGiven(e: Option<Expiration>, b: Block) { e.Some? ==> Live(e.value, b) }

  /** What is left to the spender, whether expired or not. */
  function Left(g: Grants, owner: string, spender: string): nat {
    if (owner, spender) in g.allowances then g.allowances[(owner, spender)].amount else 0
  }

  /** Only that allowance has changed; it is the given one now. */
  ghost predicate OnlyAllowance(before: Grants, after: Grants, owner: string, spender: string, now: Option<Allowance>) {
    && Transposed(after)
    && (match now
        case Some(allowance) => (owner, spender) in after.allowances && after.allowances[(owner, spender)] == allowance
        case None => (owner, spender) !in after.allowances)
    && (forall p :: p != (owner, spender) ==> (p in after.allowances <==> p in before.allowances))
    && (forall p :: p != (owner, spender) && p in before.allowances ==> after.allowances[p] == before.allowances[p])
  }

  /** An allowance is raised by the amount; a new expiration that is given replaces the old one. */
  lemma IncreaseExact(s: TokenState, owner: string, spender: string, amount: nat, expires: Option<Expiration>, b: Block)
    requires Transposed(s.grants)
    ensures Apply(s, owner, DoIncrease(spender, amount, expires), b).Ok? <==>
      spender != owner && LiveIfGiven(expires, b) && Left(s.grants, owner, spender) + amount <= U128_MAX
    ensures Apply(s, owner, DoIncrease(spender, amount, expires), b).Ok? ==>
      var after, key := Apply(s, owner, DoIncrease(spender, amount, expires), b).value, (owner, spender);
      var until := if expires.Some? then expires.value
                   else if key in s.grants.allowances then s.grants.allowances[key].expires else Never;
      && after == s.(grants := after.grants)
      && OnlyAllowance(s.grants, after.grants, owner, spender,
                       Some(Allowance(Left(s.grants, owner, spender) + amount, until)))
  {
    if Apply(s, owner, DoIncrease(spender, amount, expires), b).Ok? {
      IncreaseTransposed(s.grants, owner, spender, amount, expires, b);
    }
  }

  /** It is lowered by the amount, and removed when nothing would be left. */
  lemma DecreaseExact(s: TokenState, owner: string, spender: string, amount: nat, expires: Option<Expiration>, b: Block)
    requires Transposed(s.grants)
    ensures Apply(s, owner, DoDecrease(spender, amount, expires), b).Ok? <==>
      && spender != owner && (owner, spender) in s.grants.allowances
      && (amount < Left(s.grants, owner, spender) ==> LiveIfGiven(expires, b))
    ensures Apply(s, owner, DoDecrease(spender, amount, expires), b).Ok? ==>
      var after, was :=
        Apply(s, owner, DoDecrease(spender, amount, expires), b).value, s.grants.allowances[(owner, spender)];
      && after == s.(grants := after.grants)
      && OnlyAllowance(s.grants, after.grants, owner, spender,
                 if amount >= was.amount then None
                 else Some(Allowance(was.amount - amount, if expires.Some? then expires.value else was.expires)))
  {
    if Apply(s, owner, DoDecrease(spender, amount, expires), b).Ok? {
      DecreaseTransposed(s.grants, owner, spender, amount, expires, b);
    }
  }

  /** The spender may use that much of the allowance now. */
  predicate Usable(g: Grants, owner: string, spender: string, amount: nat, b: Block) {
    && (owner, spender) in g.allowances && Live(g.allowances[(owner, spender)].expires, b)
    && amount <= g.allowances[(owner, spender)].amount
  }

  /** The allowance is less by the amount, until when it was. */
  ghost predicate Spent(before: Grants, after: Grants, owner: string, spender: string, amount: nat)
    requires (owner, spender) in before.allowances && amount <= before.allowances[(owner, spender)].amount
  {
    var was := before.allowances[(owner, spender)];
    OnlyAllowance(before, after, owner, spender, Some(Allowance(was.amount - amount, was.expires)))
  }

  lemma DeductExact(g: Grants, owner: string, spender: string, amount: nat, b: Block)
    requires Transposed(g)
    ensures DeductAllowance(g, owner, spender, amount, b).Ok? <==> Usable(g, owner, spender, amount, b)
    ensures DeductAllowance(g, owner, spender, amount, b).Ok? ==>
      Spent(g, DeductAllowance(g, owner, spender, amount, b).value, owner, spender, amount)
  {
    DeductTransposed(g, owner, spender, amount, b);
  }

  /** A spender moves the owner's tokens exactly when the allowance and the balance cover them, and the
      allowance is spent. */
  lemma TransferFromExact(s: TokenState, spender: string, owner: string, recipient: string, amount: nat, b: Block)
    requires Conserved(s) && Transposed(s.grants)
    ensures Apply(s, spender, DoTransferFrom(owner, recipient, amount), b).Ok? <==>
      Usable(s.grants, owner, spender, amount, b) && amount <= BalanceOf(s.balances, owner)
    ensures Apply(s, spender, DoTransferFrom(owner, recipient, amount), b)
         == Apply(s, spender, DoSendFrom(owner, recipient, amount), b)
    ensures Apply(s, spender, DoTransferFrom(owner, recipient, amount), b).Ok? ==>
      var after := Apply(s, spender, DoTransferFrom(owner, recipient, amount), b).value;
      && after == s.(balances := after.balances, grants := after.grants)
      && Moved(s.balances, after.balances, owner, recipient, amount)
      && Spent(s.grants, after.grants, owner, spender, amount)
  {
    DeductExact(s.grants, owner, spender, amount, b);
    MoveExact(s.balances, owner, recipient, amount);
  }

  /** And burns them likewise. */
  lemma BurnFromExact(s: TokenState, spender: string, owner: string, amount: nat, b: Block)
    requires Conserved(s) && Transposed(s.grants)
    ensures Apply(s, spender, DoBurnFrom(owner, amount), b).Ok? <==>
      Usable(s.grants, owner, spender, amount, b) && amount <= BalanceOf(s.balances, owner)
    ensures Apply(s, spender, DoBurnFrom(owner, amount), b).Ok? ==>
      var after := Apply(s, spender, DoBurnFrom(owner, amount), b).value;
      && after == s.(balances := after.balances, supply := after.supply, grants := after.grants)
      && after.supply + amount == s.supply && Taken(s.balances, after.balances, owner, amount)
      && Spent(s.grants, after.grants, owner, spender, amount)
  {
    DeductExact(s.grants, owner, spender, amount, b);
    BurnExact(s, owner, amount);
  }

  // ---- Over whole runs ----

  /** What was ever granted to a spender by an owner, taken back, and moved by the spender. */
  datatype Grant = Grant(granted: nat, revoked: nat, moved: nat)

  datatype Tallied = Tallied(s: TokenState, accounts: map<Pair, Grant>)

  function AccountOf(accounts: map<Pair, Grant>, pair: Pair): Grant {
    if pair in accounts then accounts[pair] else Grant(0, 0, 0)
  }

  /** What an accepted message adds to which account. */
  function Noted(t: Tallied, q: Request): map<Pair, Grant> {
    match q.action
    case DoIncrease(spender, amount, _) =>
      var a := AccountOf(t.accounts, (q.sender, spender));
      t.accounts[(q.sender, spender) := a.(granted := a.granted + amount)]
    case DoDecrease(spender, amount, _) =>
      var a, left := AccountOf(t.accounts, (q.sender, spender)), Left(t.s.grants, q.sender, spender);
      t.accounts[(q.sender, spender) := a.(revoked := a.revoked + if amount < left then amount else left)]
    case DoTransferFrom(owner, _, amount) => Moves(t.accounts, (owner, q.sender), amount)
    case DoSendFrom(owner, _, amount) => Moves(t.accounts, (owner, q.sender), amount)
    case DoBurnFrom(owner, amount) => Moves(t.accounts, (owner, q.sender), amount)
    case _ => t.accounts
  }

  function Moves(accounts: map<Pair, Grant>, pair: Pair, amount: nat): map<Pair, Grant> {
    var a := AccountOf(accounts, pair);
    accounts[pair := a.(moved := a.moved + amount)]
  }

  function StepTallied(t: Tallied, m: TokenStep): Tallied {
    match m
    case Message(q) =>
      Tallied(Step(t.s, m), if Apply(t.s, q.sender, q.action, q.block).Ok? then Noted(t, q) else t.accounts)
    case Migration => Tallied(Step(t.s, m), t.accounts)
  }

  function RunTallied(t: Tallied, steps: seq<TokenStep>): Tallied
    decreases |steps|
  {
    if steps == [] then t else RunTallied(StepTallied(t, steps[0]), steps[1..])
  }

  /** What is left, what was taken back and what was moved make up what was granted. */
  ghost predicate AllSettled(g: Grants, accounts: map<Pair, Grant>) {
    forall o, s :: var a := AccountOf(accounts, (o, s)); Left(g, o, s) + a.revoked + a.moved == a.granted
  }

  ghost predicate Settled(t: Tallied) {
    Conserved(t.s) && Transposed(t.s.grants) && AllSettled(t.s.grants, t.accounts)
  }

  /** One account changes together with its allowance. */
  lemma SettledOne(before: Grants, after: Grants, accounts: map<Pair, Grant>, owner: string, spender: string,
                   now: Option<Allowance>, a: Grant)
    requires AllSettled(before, accounts) && OnlyAllowance(before, after, owner, spender, now)
    requires (if now.Some? then now.value.amount else 0) + a.revoked + a.moved == a.granted
    ensures AllSettled(after, accounts[(owner, spender) := a])
  {
    var more := accounts[(owner, spender) := a];
    forall o, s ensures var b := AccountOf(more, (o, s)); Left(after, o, s) + b.revoked + b.moved == b.granted {
      if (o, s) != (owner, spender) {
        assert (o, s) in after.allowances <==> (o, s) in before.allowances;
        assert AccountOf(more, (o, s)) == AccountOf(accounts, (o, s));
      }
    }
  }

  lemma AllowancesStay(s: TokenState, q: Request)
    requires Apply(s, q.sender, q.action, q.block).Ok?
    requires match q.action
             case DoIncrease(_, _, _) => false
             case DoDecrease(_, _, _) => false
             case DoTransferFrom(_, _, _) => false
             case DoSendFrom(_, _, _) => false
             case DoBurnFrom(_, _) => false
             case _ => true
    ensures Next(s, q).grants == s.grants
  {
  }

  lemma IncreaseSettled(t: Tallied, q: Request)
    requires Settled(t) && q.action.DoIncrease? && Apply(t.s, q.sender, q.action, q.block).Ok?
    ensures Settled(StepTallied(t, Message(q)))
  {
    var a := q.action;
    ConservedKept(t.s, q);
    IncreaseExact(t.s, q.sender, a.spender, a.amount, a.expires, q.block);
    var after, was := Next(t.s, q).grants, AccountOf(t.accounts, (q.sender, a.spender));
    SettledOne(t.s.grants, after, t.accounts, q.sender, a.spender, Some(after.allowances[(q.sender, a.spender)]),
               was.(granted := was.granted + a.amount));
  }

  lemma LoweredSettled(before: Grants, after: Grants, accounts: map<Pair, Grant>, owner: string, spender: string,
                       amount: nat, now: Option<Allowance>)
    requires AllSettled(before, accounts) && OnlyAllowance(before, after, owner, spender, now)
    requires var left := Left(before, owner, spender);
      if amount >= left then now.None? else now.Some? && now.value.amount == left - amount
    ensures var a, left := AccountOf(accounts, (owner, spender)), Left(before, owner, spender);
      AllSettled(after, accounts[(owner, spender) := a.(revoked := a.revoked + if amount < left then amount else left)])
  {
    var a, left := AccountOf(accounts, (owner, spender)), Left(before, owner, spender);
    SettledOne(before, after, accounts, owner, spender, now,
               a.(revoked := a.revoked + if amount < left then amount else left));
  }

  lemma DecreaseNoted(t: Tallied, q: Request)
    requires q.action.DoDecrease? && Apply(t.s, q.sender, q.action, q.block).Ok?
    ensures var a, key := q.action, (q.sender, q.action.spender);
      var was, left := AccountOf(t.accounts, key), Left(t.s.grants, q.sender, a.spender);
      StepTallied(t, Message(q))
      == Tallied(Next(t.s, q),
                 t.accounts[key := was.(revoked := was.revoked + if a.amount < left then a.amount else left)])
  {
  }

  /** What the decrease leaves. */
  lemma DecreaseLeaves(s: TokenState, q: Request) returns (now: Option<Allowance>)
    requires Transposed(s.grants) && q.action.DoDecrease? && Apply(s, q.sender, q.action, q.block).Ok?
    ensures Next(s, q) == s.(grants := Next(s, q).grants)
    ensures OnlyAllowance(s.grants, Next(s, q).grants, q.sender, q.action.spender, now)
    ensures var left := Left(s.grants, q.sender, q.action.spender);
      if q.action.amount >= left then now.None? else now.Some? && now.value.amount == left - q.action.amount
  {
    var a, was := q.action, s.grants.allowances[(q.sender, q.action.spender)];
    DecreaseExact(s, q.sender, a.spender, a.amount, a.expires, q.block);
    now := if a.amount >= was.amount then None
           else Some(Allowance(was.amount - a.amount, if a.expires.Some? then a.expires.value else was.expires));
  }

  lemma DecreaseSettled(t: Tallied, q: Request)
    requires Settled(t) && q.action.DoDecrease? && Apply(t.s, q.sender, q.action, q.block).Ok?
    ensures Settled(StepTallied(t, Message(q)))
  {
    DecreaseNoted(t, q);
    var now := DecreaseLeaves(t.s, q);
    DecreasedTo(t, Next(t.s, q), q.sender, q.action.spender, q.action.amount, now);
  }

  lemma DecreasedTo(t: Tallied, after: TokenState, owner: string, spender: string, amount: nat, now: Option<Allowance>)
    requires Settled(t) && after == t.s.(grants := after.grants)
    requires OnlyAllowance(t.s.grants, after.grants, owner, spender, now)
    requires var left := Left(t.s.grants, owner, spender);
      if amount >= left then now.None? else now.Some? && now.value.amount == left - amount
    ensures var was, left := AccountOf(t.accounts, (owner, spender)), Left(t.s.grants, owner, spender);
      var revoked := was.revoked + if amount < left then amount else left;
      Settled(Tallied(after, t.accounts[(owner, spender) := was.(revoked := revoked)]))
  {
    LoweredSettled(t.s.grants, after.grants, t.accounts, owner, spender, amount, now);
  }

  lemma SpentSettled(t: Tallied, q: Request, owner: string, amount: nat)
    requires Settled(t) && Apply(t.s, q.sender, q.action, q.block).Ok?
    requires Usable(t.s.grants, owner, q.sender, amount, q.block)
    requires Spent(t.s.grants, Next(t.s, q).grants, owner, q.sender, amount)
    requires Noted(t, q) == Moves(t.accounts, (owner, q.sender), amount)
    ensures Settled(StepTallied(t, Message(q)))
  {
    ConservedKept(t.s, q);
    var after, was := Next(t.s, q).grants, AccountOf(t.accounts, (owner, q.sender));
    SettledOne(t.s.grants, after, t.accounts, owner, q.sender, Some(after.allowances[(owner, q.sender)]),
               was.(moved := was.moved + amount));
  }

  lemma SettledKept(t: Tallied, q: Request)
    requires Settled(t)
    ensures Settled(StepTallied(t, Message(q)))
  {
    if Apply(t.s, q.sender, q.action, q.block).Ok? {
      match q.action
      case DoIncrease(_, _, _) => IncreaseSettled(t, q);
      case DoDecrease(_, _, _) => DecreaseSettled(t, q);
      case DoTransferFrom(owner, recipient, amount) =>
        TransferFromExact(t.s, q.sender, owner, recipient, amount, q.block);
        SpentSettled(t, q, owner, amount);
      case DoSendFrom(owner, contract, amount) =>
        TransferFromExact(t.s, q.sender, owner, contract, amount, q.block);
        SpentSettled(t, q, owner, amount);
      case DoBurnFrom(owner, amount) =>
        BurnFromExact(t.s, q.sender, owner, amount, q.block);
        SpentSettled(t, q, owner, amount);
      case _ =>
        AllowancesStay(t.s, q);
        ConservedKept(t.s, q);
    }
  }

  lemma {:induction false} SettledRun(t: Tallied, steps: seq<TokenStep>)
    requires Settled(t)
    ensures Settled(RunTallied(t, steps))
    decreases |steps|
  {
    if steps != [] {
      match steps[0] {
        case Message(q) => SettledKept(t, q);
        case Migration => MigrationSettled(t.s.grants);
      }
      SettledRun(StepTallied(t, steps[0]), steps[1..]);
    }
  }

  lemma {:induction false} SameRun(t: Tallied, steps: seq<TokenStep>)
    ensures RunTallied(t, steps).s == Run(t.s, steps)
    decreases |steps|
  {
    if steps != [] {
      SameRun(StepTallied(t, steps[0]), steps[1..]);
    }
  }

  /** Over every run of a new token a spender moves no more than the owner has granted and not taken back; the
      rest is the allowance. */
  lemma MovedWithinGranted(accounts: seq<Account>, mint: Option<Minting>, steps: seq<TokenStep>, owner: string,
                           spender: string)
    requires Instantiate(accounts, mint).Ok?
    ensures var start := Instantiate(accounts, mint).value;
      var a := AccountOf(RunTallied(Tallied(start, map[]), steps).accounts, (owner, spender));
      && a.moved + a.revoked <= a.granted
      && Left(Run(start, steps).grants, owner, spender) == a.granted - a.moved - a.revoked
  {
    var t := Tallied(Instantiate(accounts, mint).value, map[]);
    InstantiateConserved(accounts, mint);
    SettledRun(t, steps);
    SameRun(t, steps);
  }

  // ---- Creation ----

  function TotalOf(accounts: seq<Account>): nat {
    if accounts == [] then 0 else accounts[0].amount + TotalOf(accounts[1..])
  }

  lemma AddressesRest(accounts: seq<Account>)
    requires accounts != [] && Distinct(Addresses(accounts))
    ensures Distinct(Addresses(accounts[1..]))
    ensures forall i :: 0 <= i < |accounts[1..]| ==> accounts[1..][i].address != accounts[0].address
  {
    var names, rest := Addresses(accounts), accounts[1..];
    assert forall i :: 0 <= i < |rest| ==> Addresses(rest)[i] == names[i + 1] && rest[i].address == names[i + 1];
    assert names[0] == accounts[0].address;
  }

  lemma {:induction false} OpenExact(accounts: seq<Account>, at: Opening)
    requires at.supply <= U128_MAX && Distinct(Addresses(accounts))
    ensures Open(accounts, at).Ok? <==> at.supply + TotalOf(accounts) <= U128_MAX
    ensures Open(accounts, at).Ok? ==>
      var end := Open(accounts, at).value;
      && end.supply == at.supply + TotalOf(accounts)
      && (forall i :: 0 <= i < |accounts| ==> BalanceOf(end.balances, accounts[i].address) == accounts[i].amount)
      && (forall a :: (forall i :: 0 <= i < |accounts| ==> accounts[i].address != a) ==>
                        BalanceOf(end.balances, a) == BalanceOf(at.balances, a))
  {
    if accounts != [] && at.supply + accounts[0].amount <= U128_MAX {
      var rest := accounts[1..];
      var next := Opening(at.balances[accounts[0].address := accounts[0].amount], at.supply + accounts[0].amount);
      AddressesRest(accounts);
      OpenExact(rest, next);
      if Open(accounts, at).Ok? {
        var end := Open(accounts, at).value;
        forall a | forall i :: 0 <= i < |accounts| ==> accounts[i].address != a
          ensures BalanceOf(end.balances, a) == BalanceOf(at.balances, a)
        {
          assert accounts[0].address != a;
          assert forall i :: 0 <= i < |rest| ==> rest[i] == accounts[i + 1];
        }
      }
    }
  }

  /** A token is created exactly for distinct accounts within the width and the cap; each of them has its
      amount and nobody else has anything, and nothing is granted. */
  lemma InstantiateExact(accounts: seq<Account>, mint: Option<Minting>)
    ensures Instantiate(accounts, mint).Ok? <==>
      && Distinct(Addresses(accounts)) && TotalOf(accounts) <= U128_MAX
      && (mint.Some? && mint.value.cap.Some? ==> TotalOf(accounts) <= mint.value.cap.value)
    ensures Instantiate(accounts, mint).Ok? ==>
      var s := Instantiate(accounts, mint).value;
      && s.supply == TotalOf(accounts) && s.mint == mint && s.grants == Grants(map[], map[])
      && (forall i :: 0 <= i < |accounts| ==> BalanceOf(s.balances, accounts[i].address) == accounts[i].amount)
      && (forall a :: (forall i :: 0 <= i < |accounts| ==> accounts[i].address != a) ==> BalanceOf(s.balances, a) == 0)
  {
    if Distinct(Addresses(accounts)) {
      OpenExact(accounts, Opening(map[], 0));
    }
  }
}
