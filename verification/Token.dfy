/** The liquid staking token: balances with a total supply, and allowances kept twice, by owner and by
    spender. */
module Token {
  import opened Arith
  import opened Sums

  datatype Block = Block(height: nat, time: nat)
  datatype Expiration = Never | AtHeight(height: nat) | AtTime(time: nat)
  datatype Allowance = Allowance(amount: nat, expires: Expiration)
  datatype Minting = Minting(admin: string, minters: seq<string>, cap: Option<nat>)

  type Pair = (string, string)

  /** The allowances by (owner, spender) and the index by (spender, owner). */
  datatype Grants = Grants(allowances: map<Pair, Allowance>, bySpender: map<Pair, Allowance>)

  datatype TokenState = TokenState(balances: map<string, nat>, supply: nat, mint: Option<Minting>, grants: Grants)

  datatype Account = Account(address: string, amount: nat)

  predicate IsExpired(e: Expiration, b: Block) {
    match e
    case Never => false
    case AtHeight(h) => b.height >= h
    case AtTime(t) => b.time >= t
  }

  // ---- Balances ----

  function BalanceOf(balances: map<string, nat>, a: string): nat {
    if a in balances then balances[a] else 0
  }

  function Debit(balances: map<string, nat>, a: string, amount: nat): Result<map<string, nat>> {
    var left :- Sub(BalanceOf(balances, a), amount);
    Ok(balances[a := left])
  }

  function Credit(balances: map<string, nat>, a: string, amount: nat): Result<map<string, nat>> {
    var sum :- Add(BalanceOf(balances, a), amount);
    Ok(balances[a := sum])
  }

  function Move(balances: map<string, nat>, from: string, to: string, amount: nat): Result<map<string, nat>> {
    var taken :- Debit(balances, from, amount);
    Credit(taken, to, amount)
  }

  function Transfer(s: TokenState, sender: string, recipient: string, amount: nat): Result<TokenState> {
    var balances :- Move(s.balances, sender, recipient, amount);
    Ok(s.(balances := balances))
  }

  function Burn(s: TokenState, sender: string, amount: nat): Result<TokenState> {
    var balances :- Debit(s.balances, sender, amount);
    var supply :- Sub(s.supply, amount);
    Ok(s.(balances := balances, supply := supply))
  }

  function Cap(s: TokenState): Option<nat> {
    if s.mint.Some? then s.mint.value.cap else None
  }

  function MintTo(s: TokenState, sender: string, recipient: string, amount: nat): Result<TokenState> {
    if s.mint.None? then Err(Unauthorized) else
    if sender !in s.mint.value.minters then Err(Unauthorized) else
    var supply :- Add(s.supply, amount);
    if Cap(s).Some? && supply > Cap(s).value then Err(CannotExceedCap) else
    var balances :- Credit(s.balances, recipient, amount);
    Ok(s.(balances := balances, supply := supply))
  }

  // ---- Minters ----

  function AddMinter(s: TokenState, sender: string, minter: string): Result<TokenState> {
    if s.mint.None? then Err(Unauthorized) else
    if s.mint.value.admin != sender then Err(Unauthorized) else
    Ok(s.(mint := Some(s.mint.value.(minters := s.mint.value.minters + [minter]))))
  }

  function Others(minters: seq<string>, minter: string): seq<string> {
    if minters == [] then [] else (if minters[0] == minter then [] else [minters[0]]) + Others(minters[1..], minter)
  }

  function RemoveMinter(s: TokenState, sender: string, minter: string): Result<TokenState> {
    if s.mint.None? then Err(Unauthorized) else
    if s.mint.value.admin != sender then Err(Unauthorized) else
    Ok(s.(mint := Some(s.mint.value.(minters := Others(s.mint.value.minters, minter)))))
  }

  function TransferAdmin(s: TokenState, sender: string, admin: string): Result<TokenState> {
    if s.mint.None? then Err(Unauthorized) else
    if s.mint.value.admin != sender then Err(Unauthorized) else
    Ok(s.(mint := Some(s.mint.value.(admin := admin))))
  }

  // ---- Allowances ----

  const NO_ALLOWANCE := Allowance(0, Never)

  function Stored(table: map<Pair, Allowance>, key: Pair): Allowance {
    if key in table then table[key] else NO_ALLOWANCE
  }

  /** One table's share of an increase: the same update is run on both. */
  function Raised(table: map<Pair, Allowance>, key: Pair, amount: nat, expires: Option<Expiration>,
                  b: Block): Result<map<Pair, Allowance>> {
    var current := Stored(table, key);
    if expires.Some? && IsExpired(expires.value, b) then Err(InvalidExpiration) else
    var sum :- Add(current.amount, amount);
    Ok(table[key := Allowance(sum, expires.GetOr(current.expires))])
  }

  function IncreaseAllowance(g: Grants, owner: string, spender: string, amount: nat, expires: Option<Expiration>,
                             b: Block): Result<Grants> {
    if spender == owner then Err(CannotSetOwnAccount) else
    var allowances :- Raised(g.allowances, (owner, spender), amount, expires, b);
    var bySpender :- Raised(g.bySpender, (spender, owner), amount, expires, b);
    Ok(Grants(allowances, bySpender))
  }

  function DecreaseAllowance(g: Grants, owner: string, spender: string, amount: nat, expires: Option<Expiration>,
                             b: Block): Result<Grants> {
    if spender == owner then Err(CannotSetOwnAccount) else
    if (owner, spender) !in g.allowances then Err(NotFound) else
    var current := g.allowances[(owner, spender)];
    if amount < current.amount then
      if expires.Some? && IsExpired(expires.value, b) then Err(InvalidExpiration) else
      var left := Allowance(current.amount - amount, expires.GetOr(current.expires));
      Ok(Grants(g.allowances[(owner, spender) := left], g.bySpender[(spender, owner) := left]))
    else Ok(Grants(g.allowances - {(owner, spender)}, g.bySpender - {(spender, owner)}))
  }

  function Lowered(table: map<Pair, Allowance>, key: Pair, amount: nat, b: Block): Result<map<Pair, Allowance>> {
    if key !in table then Err(NoAllowance) else
    if IsExpired(table[key].expires, b) then Err(Expired) else
    var left :- Sub(table[key].amount, amount);
    Ok(table[key := table[key].(amount := left)])
  }

  function DeductAllowance(g: Grants, owner: string, spender: string, amount: nat, b: Block): Result<Grants> {
    var allowances :- Lowered(g.allowances, (owner, spender), amount, b);
    var bySpender :- Lowered(g.bySpender, (spender, owner), amount, b);
    Ok(Grants(allowances, bySpender))
  }

  function TransferFrom(s: TokenState, spender: string, owner: string, recipient: string, amount: nat,
                        b: Block): Result<TokenState> {
    var grants :- DeductAllowance(s.grants, owner, spender, amount, b);
    Transfer(s.(grants := grants), owner, recipient, amount)
  }

  function BurnFrom(s: TokenState, spender: string, owner: string, amount: nat, b: Block): Result<TokenState> {
    var grants :- DeductAllowance(s.grants, owner, spender, amount, b);
    Burn(s.(grants := grants), owner, amount)
  }

  // ---- All messages together ----

  datatype TokenAction =
    | DoTransfer(recipient: string, amount: nat)
    | DoBurn(amount: nat)
    | DoSend(contract: string, amount: nat)
    | DoMint(recipient: string, amount: nat)
    | DoIncrease(spender: string, amount: nat, expires: Option<Expiration>)
    | DoDecrease(spender: string, amount: nat, expires: Option<Expiration>)
    | DoTransferFrom(owner: string, recipient: string, amount: nat)
    | DoSendFrom(owner: string, contract: string, amount: nat)
    | DoBurnFrom(owner: string, amount: nat)
    | DoAddMinter(minter: string)
    | DoRemoveMinter(minter: string)
    | DoTransferAdmin(admin: string)

  function Apply(s: TokenState, sender: string, a: TokenAction, b: Block): Result<TokenState> {
    match a
    case DoTransfer(recipient, amount) => Transfer(s, sender, recipient, amount)
    case DoSend(contract, amount) => Transfer(s, sender, contract, amount)
    case DoBurn(amount) => Burn(s, sender, amount)
    case DoMint(recipient, amount) => MintTo(s, sender, recipient, amount)
    case DoIncrease(spender, amount, expires) =>
      var grants :- IncreaseAllowance(s.grants, sender, spender, amount, expires, b);
      Ok(s.(grants := grants))
    case DoDecrease(spender, amount, expires) =>
      var grants :- DecreaseAllowance(s.grants, sender, spender, amount, expires, b);
      Ok(s.(grants := grants))
    case DoTransferFrom(owner, recipient, amount) => TransferFrom(s, sender, owner, recipient, amount, b)
    case DoSendFrom(owner, contract, amount) => TransferFrom(s, sender, owner, contract, amount, b)
    case DoBurnFrom(owner, amount) => BurnFrom(s, sender, owner, amount, b)
    case DoAddMinter(minter) => AddMinter(s, sender, minter)
    case DoRemoveMinter(minter) => RemoveMinter(s, sender, minter)
    case DoTransferAdmin(admin) => TransferAdmin(s, sender, admin)
  }

  datatype Request = Request(sender: string, action: TokenAction, block: Block)

  function Next(s: TokenState, q: Request): TokenState {
    var r := Apply(s, q.sender, q.action, q.block);
    if r.Ok? then r.value else s
  }

  // ---- Conservation ----

  ghost predicate Conserved(s: TokenState) {
    && SumBy(s.balances, Same()) == s.supply <= U128_MAX
    && (Cap(s).Some? ==> s.supply <= Cap(s).value)
  }

  lemma BalanceWithin(balances: map<string, nat>, a: string)
    ensures BalanceOf(balances, a) <= SumBy(balances, Same())
  {
    if a in balances {
      SumByBound(balances, Same(), a);
    }
  }

  lemma SetBalance(balances: map<string, nat>, a: string, amount: nat)
    ensures SumBy(balances[a := amount], Same()) + BalanceOf(balances, a) == SumBy(balances, Same()) + amount
  {
    if a in balances {
      SumByUpdate(balances, Same(), a, amount);
    } else {
      SumByInsert(balances, Same(), a, amount);
    }
  }

  lemma DebitSum(balances: map<string, nat>, a: string, amount: nat)
    requires amount <= BalanceOf(balances, a)
    ensures Debit(balances, a, amount).Ok?
    ensures SumBy(Debit(balances, a, amount).value, Same()) + amount == SumBy(balances, Same())
  {
    SetBalance(balances, a, BalanceOf(balances, a) - amount);
  }

  lemma CreditSum(balances: map<string, nat>, a: string, amount: nat)
    requires SumBy(balances, Same()) + amount <= U128_MAX
    ensures Credit(balances, a, amount).Ok?
    ensures SumBy(Credit(balances, a, amount).value, Same()) == SumBy(balances, Same()) + amount
  {
    BalanceWithin(balances, a);
    SetBalance(balances, a, BalanceOf(balances, a) + amount);
  }

  lemma MoveSums(balances: map<string, nat>, from: string, to: string, amount: nat)
    requires SumBy(balances, Same()) <= U128_MAX && amount <= BalanceOf(balances, from)
    ensures Move(balances, from, to, amount).Ok?
    ensures SumBy(Move(balances, from, to, amount).value, Same()) == SumBy(balances, Same())
  {
    DebitSum(balances, from, amount);
    CreditSum(Debit(balances, from, amount).value, to, amount);
  }

  /** A move is accepted exactly when the sender has the amount, also to itself, and moves nothing else. */
  lemma MoveExact(balances: map<string, nat>, from: string, to: string, amount: nat)
    requires SumBy(balances, Same()) <= U128_MAX
    ensures Move(balances, from, to, amount).Ok? <==> amount <= BalanceOf(balances, from)
    ensures Move(balances, from, to, amount).Ok? ==>
      var after := Move(balances, from, to, amount).value;
      && SumBy(after, Same()) == SumBy(balances, Same())
      && (from == to ==> BalanceOf(after, from) == BalanceOf(balances, from))
      && (from != to ==> BalanceOf(after, from) == BalanceOf(balances, from) - amount
                         && BalanceOf(after, to) == BalanceOf(balances, to) + amount)
      && (forall a :: a != from && a != to ==> BalanceOf(after, a) == BalanceOf(balances, a))
  {
    if amount <= BalanceOf(balances, from) {
      MoveSums(balances, from, to, amount);
    }
  }

  /** A burn is accepted exactly when the account has the amount: the supply covers it. */
  lemma BurnExact(s: TokenState, a: string, amount: nat)
    requires Conserved(s)
    ensures Burn(s, a, amount).Ok? <==> amount <= BalanceOf(s.balances, a)
    ensures Burn(s, a, amount).Ok? ==>
      Conserved(Burn(s, a, amount).value) && Burn(s, a, amount).value.supply == s.supply - amount
  {
    BalanceWithin(s.balances, a);
    if amount <= BalanceOf(s.balances, a) {
      SetBalance(s.balances, a, BalanceOf(s.balances, a) - amount);
    }
  }

  /** A minter's mint is accepted exactly when the supply stays within 128 bits and the cap: crediting
      the recipient cannot overflow. */
  lemma MintExact(s: TokenState, sender: string, recipient: string, amount: nat)
    requires Conserved(s)
    ensures MintTo(s, sender, recipient, amount).Ok? <==>
      && s.mint.Some? && sender in s.mint.value.minters
      && s.supply + amount <= U128_MAX && (Cap(s).Some? ==> s.supply + amount <= Cap(s).value)
    ensures MintTo(s, sender, recipient, amount).Ok? ==>
      Conserved(MintTo(s, sender, recipient, amount).value)
        && MintTo(s, sender, recipient, amount).value.supply == s.supply + amount
  {
    BalanceWithin(s.balances, recipient);
    SetBalance(s.balances, recipient, BalanceOf(s.balances, recipient) + amount);
  }

  lemma TransferConserved(s: TokenState, from: string, to: string, amount: nat)
    requires Conserved(s) && Transfer(s, from, to, amount).Ok?
    ensures Conserved(Transfer(s, from, to, amount).value)
  {
    MoveExact(s.balances, from, to, amount);
  }

  lemma ConservedKept(s: TokenState, q: Request)
    requires Conserved(s)
    ensures Conserved(Next(s, q))
  {
    if Apply(s, q.sender, q.action, q.block).Ok? {
      match q.action
      case DoTransfer(recipient, amount) => TransferConserved(s, q.sender, recipient, amount);
      case DoSend(contract, amount) => TransferConserved(s, q.sender, contract, amount);
      case DoBurn(amount) => BurnExact(s, q.sender, amount);
      case DoMint(recipient, amount) => MintExact(s, q.sender, recipient, amount);
      case DoTransferFrom(owner, recipient, amount) =>
        TransferConserved(s.(grants := DeductAllowance(s.grants, owner, q.sender, amount, q.block).value), owner,
                          recipient, amount);
      case DoSendFrom(owner, contract, amount) =>
        TransferConserved(s.(grants := DeductAllowance(s.grants, owner, q.sender, amount, q.block).value), owner,
                          contract, amount);
      case DoBurnFrom(owner, amount) =>
        BurnExact(s.(grants := DeductAllowance(s.grants, owner, q.sender, amount, q.block).value), owner, amount);
      case _ =>
    }
  }

  // ---- The index ----

  /** The index by spender is the allowances with owner and spender exchanged. */
  ghost predicate Transposed(g: Grants) {
    && (forall o, s :: (o, s) in g.allowances ==> (s, o) in g.bySpender && g.bySpender[(s, o)] == g.allowances[(o, s)])
    && (forall s, o :: (s, o) in g.bySpender ==> (o, s) in g.allowances)
  }

  lemma SetBoth(g: Grants, owner: string, spender: string, value: Allowance)
    requires Transposed(g)
    ensures Transposed(Grants(g.allowances[(owner, spender) := value], g.bySpender[(spender, owner) := value]))
  {
  }

  lemma RemoveBoth(g: Grants, owner: string, spender: string)
    requires Transposed(g)
    ensures Transposed(Grants(g.allowances - {(owner, spender)}, g.bySpender - {(spender, owner)}))
  {
  }

  lemma IncreaseTransposed(g: Grants, owner: string, spender: string, amount: nat, expires: Option<Expiration>,
                           b: Block)
    requires Transposed(g) && IncreaseAllowance(g, owner, spender, amount, expires, b).Ok?
    ensures Transposed(IncreaseAllowance(g, owner, spender, amount, expires, b).value)
  {
    var after := IncreaseAllowance(g, owner, spender, amount, expires, b).value;
    SetBoth(g, owner, spender, after.allowances[(owner, spender)]);
  }

  lemma DecreaseTransposed(g: Grants, owner: string, spender: string, amount: nat, expires: Option<Expiration>,
                           b: Block)
    requires Transposed(g) && DecreaseAllowance(g, owner, spender, amount, expires, b).Ok?
    ensures Transposed(DecreaseAllowance(g, owner, spender, amount, expires, b).value)
  {
    var after := DecreaseAllowance(g, owner, spender, amount, expires, b).value;
    if (owner, spender) in after.allowances {
      SetBoth(g, owner, spender, after.allowances[(owner, spender)]);
    } else {
      RemoveBoth(g, owner, spender);
    }
  }

  /** The allowance is spent in both tables, or in neither. */
  lemma DeductTransposed(g: Grants, owner: string, spender: string, amount: nat, b: Block)
    requires Transposed(g)
    ensures DeductAllowance(g, owner, spender, amount, b).Ok?
      <==> Lowered(g.allowances, (owner, spender), amount, b).Ok?
    ensures DeductAllowance(g, owner, spender, amount, b).Ok? ==>
      Transposed(DeductAllowance(g, owner, spender, amount, b).value)
  {
    if Lowered(g.allowances, (owner, spender), amount, b).Ok? {
      var after := DeductAllowance(g, owner, spender, amount, b).value;
      SetBoth(g, owner, spender, after.allowances[(owner, spender)]);
    }
  }

  lemma TransposedKept(s: TokenState, q: Request)
    requires Transposed(s.grants)
    ensures Transposed(Next(s, q).grants)
  {
    if Apply(s, q.sender, q.action, q.block).Ok? {
      match q.action
      case DoIncrease(spender, amount, expires) =>
        IncreaseTransposed(s.grants, q.sender, spender, amount, expires, q.block);
      case DoDecrease(spender, amount, expires) =>
        DecreaseTransposed(s.grants, q.sender, spender, amount, expires, q.block);
      case DoTransferFrom(owner, _, amount) => DeductTransposed(s.grants, owner, q.sender, amount, q.block);
      case DoSendFrom(owner, _, amount) => DeductTransposed(s.grants, owner, q.sender, amount, q.block);
      case DoBurnFrom(owner, amount) => DeductTransposed(s.grants, owner, q.sender, amount, q.block);
      case _ =>
    }
  }

  // ---- Creation and migration ----

  function Addresses(accounts: seq<Account>): seq<string> {
    seq(|accounts|, i requires 0 <= i < |accounts| => accounts[i].address)
  }

  datatype Opening = Opening(balances: map<string, nat>, supply: nat)

  /** The initial balances one by one, each overwriting what is there. */
  function Open(accounts: seq<Account>, at: Opening): Result<Opening> {
    if accounts == [] then Ok(at)
    else
      var supply :- Add(at.supply, accounts[0].amount);
      Open(accounts[1..], Opening(at.balances[accounts[0].address := accounts[0].amount], supply))
  }

  function CreateAccounts(accounts: seq<Account>): Result<Opening> {
    if !Distinct(Addresses(accounts)) then Err(DuplicateInitialBalanceAddresses) else Open(accounts, Opening(map[], 0))
  }

  lemma {:induction false} OpenConserved(accounts: seq<Account>, at: Opening)
    requires SumBy(at.balances, Same()) == at.supply <= U128_MAX && Distinct(Addresses(accounts))
    requires forall i :: 0 <= i < |accounts| ==> accounts[i].address !in at.balances
    requires Open(accounts, at).Ok?
    ensures var end := Open(accounts, at).value; SumBy(end.balances, Same()) == end.supply <= U128_MAX
  {
    if accounts != [] {
      var first, rest := accounts[0], accounts[1..];
      SumByInsert(at.balances, Same(), first.address, first.amount);
      var names := Addresses(accounts);
      assert forall i :: 0 <= i < |rest| ==> Addresses(rest)[i] == names[i + 1];
      forall i | 0 <= i < |rest| ensures rest[i].address != first.address {
        assert names[0] == first.address && names[i + 1] == rest[i].address;
      }
      OpenConserved(rest, Opening(at.balances[first.address := first.amount], at.supply + first.amount));
    }
  }

  /** A new token, with its initial accounts and minter. */
  function Instantiate(accounts: seq<Account>, mint: Option<Minting>): Result<TokenState> {
    var opening :- CreateAccounts(accounts);
    if mint.Some? && mint.value.cap.Some? && opening.supply > mint.value.cap.value then Err(CannotExceedCap) else
    Ok(TokenState(opening.balances, opening.supply, mint, Grants(map[], map[])))
  }

  /** Because addresses may not repeat, a new token is conserved. */
  lemma InstantiateConserved(accounts: seq<Account>, mint: Option<Minting>)
    requires Instantiate(accounts, mint).Ok?
    ensures Conserved(Instantiate(accounts, mint).value) && Transposed(Instantiate(accounts, mint).value.grants)
  {
    OpenConserved(accounts, Opening(map[], 0));
  }

  /** The index after a migration: every allowance written over what the index held. */
  predicate Rebuilt(g: Grants, before: map<Pair, Allowance>) {
    && (forall k :: k in g.bySpender ==> (k.1, k.0) in g.allowances || k in before)
    && (forall k :: k in g.allowances ==> (k.1, k.0) in g.bySpender && g.bySpender[(k.1, k.0)] == g.allowances[k])
    && (forall k :: k in before ==> k in g.bySpender && ((k.1, k.0) !in g.allowances ==> g.bySpender[k] == before[k]))
  }

  lemma RebuildOne(done: map<Pair, Allowance>, index: map<Pair, Allowance>, before: map<Pair, Allowance>, k: Pair,
                   value: Allowance)
    requires Rebuilt(Grants(done, index), before) && k !in done
    ensures Rebuilt(Grants(done[k := value], index[(k.1, k.0) := value]), before)
  {
    var g := Grants(done[k := value], index[(k.1, k.0) := value]);
    forall j | j in g.allowances ensures (j.1, j.0) in g.bySpender && g.bySpender[(j.1, j.0)] == g.allowances[j] {
      if j != k {
        assert (j.1, j.0) != (k.1, k.0);
      }
    }
    forall j | j in g.bySpender ensures (j.1, j.0) in g.allowances || j in before {
      if j == (k.1, k.0) {
        assert (j.1, j.0) == k;
      }
    }
  }

  /** The migration makes the index right exactly when the index held nothing but allowances before; in
      particular when it was empty. */
  lemma RebuildTransposes(g: Grants, before: map<Pair, Allowance>)
    requires Rebuilt(g, before)
    ensures Transposed(g) <==> forall s, o :: (s, o) in before ==> (o, s) in g.allowances
  {
    if Transposed(g) {
      forall s, o | (s, o) in before ensures (o, s) in g.allowances {
        assert (s, o) in g.bySpender;
      }
    }
    forall o, s | (o, s) in g.allowances ensures (s, o) in g.bySpender && g.bySpender[(s, o)] == g.allowances[(o, s)] {
      var k := (o, s);
      assert k in g.allowances;
    }
    if forall s, o :: (s, o) in before ==> (o, s) in g.allowances {
      forall s, o | (s, o) in g.bySpender ensures (o, s) in g.allowances {
        var k := (s, o);
        assert k in g.bySpender;
      }
    }
  }

  /** What a migration makes of the two tables. */
  function Migrated(g: Grants): Grants {
    var keys := g.bySpender.Keys + set k | k in g.allowances :: (k.1, k.0);
    Grants(g.allowances,
           map k | k in keys :: if (k.1, k.0) in g.allowances then g.allowances[(k.1, k.0)] else g.bySpender[k])
  }

  /** In whatever order the allowances are written. */
  lemma RebuiltIsMigrated(g: Grants, before: map<Pair, Allowance>)
    requires Rebuilt(g, before)
    ensures g == Migrated(Grants(g.allowances, before))
  {
    var index := Migrated(Grants(g.allowances, before)).bySpender;
    forall k ensures k in g.bySpender <==> k in index {
      if (k.1, k.0) in g.allowances {
        var owner := (k.1, k.0);
        assert (owner.1, owner.0) == k;
      }
    }
    forall k | k in g.bySpender ensures g.bySpender[k] == index[k] {
      if (k.1, k.0) in g.allowances {
        var owner := (k.1, k.0);
        assert (owner.1, owner.0) == k && g.bySpender[k] == g.allowances[owner];
      }
    }
  }

  /** On an index that is right, a migration changes nothing. */
  lemma MigrationSettled(g: Grants)
    requires Transposed(g)
    ensures Migrated(g) == g
  {
    forall k ensures k in g.bySpender <==> k in Migrated(g).bySpender {
      if exists a :: a in g.allowances && k == (a.1, a.0) {
        var a :| a in g.allowances && k == (a.1, a.0);
        assert (a.0, a.1) in g.allowances;
      }
    }
    forall k | k in g.bySpender ensures g.bySpender[k] == Migrated(g).bySpender[k] {
      assert (k.0, k.1) in g.bySpender && (k.1, k.0) in g.allowances;
    }
  }

  // ---- Whole runs ----

  datatype TokenStep = Message(request: Request) | Migration

  function Step(s: TokenState, m: TokenStep): TokenState {
    match m
    case Message(q) => Next(s, q)
    case Migration => s.(grants := Migrated(s.grants))
  }

  function Run(s: TokenState, steps: seq<TokenStep>): TokenState
    decreases |steps|
  {
    if steps == [] then s else Run(Step(s, steps[0]), steps[1..])
  }

  lemma {:induction false} RunKept(s: TokenState, steps: seq<TokenStep>)
    requires Conserved(s) && Transposed(s.grants)
    ensures Conserved(Run(s, steps)) && Transposed(Run(s, steps).grants)
    decreases |steps|
  {
    if steps != [] {
      match steps[0] {
        case Message(q) =>
          ConservedKept(s, q);
          TransposedKept(s, q);
        case Migration =>
          MigrationSettled(s.grants);
      }
      RunKept(Step(s, steps[0]), steps[1..]);
    }
  }

  /** After every run of a newly created token, migrations included, the balances add up to the supply,
      within the cap, and the index is the transpose of the allowances. */
  lemma EveryTokenRun(accounts: seq<Account>, mint: Option<Minting>, steps: seq<TokenStep>)
    requires Instantiate(accounts, mint).Ok?
    ensures var end := Run(Instantiate(accounts, mint).value, steps); Conserved(end) && Transposed(end.grants)
  {
    InstantiateConserved(accounts, mint);
    RunKept(Instantiate(accounts, mint).value, steps);
  }
}
