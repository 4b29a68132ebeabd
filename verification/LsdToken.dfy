/** The token contract with its stored state. Each method does what the function of the same name in
    Token says; one that returns an error has changed nothing. */
module LsdToken {
  import opened Arith
  import opened Sums
  import T = Token
  import opened Token

  predicate Agrees(before: TokenState, spec: Result<TokenState>, after: TokenState, r: Result<bool>) {
    match spec
    case Ok(s) => after == s && r == Ok(true)
    case Err(e) => after == before && r == Err(e)
  }

  class LsdToken {
    var balances: map<string, nat>
    var supply: nat
    var mint: Option<Minting>
    var allowances: map<Pair, Allowance>
    var bySpender: map<Pair, Allowance>

    function State(): TokenState
      reads this
    {
      TokenState(balances, supply, mint, Grants(allowances, bySpender))
    }

    constructor (opening: Opening, mint: Option<Minting>)
      ensures State() == TokenState(opening.balances, opening.supply, mint, Grants(map[], map[]))
    {
      balances, supply := opening.balances, opening.supply;
      this.mint := mint;
      allowances, bySpender := map[], map[];
    }

    static method Instantiate(accounts: seq<Account>, mint: Option<Minting>) returns (r: Result<LsdToken>)
      ensures match T.Instantiate(accounts, mint)
        case Ok(s) => r.Ok? && fresh(r.value) && r.value.State() == s
        case Err(e) => r == Err(e)
    {
      var attempt := CreateAll(accounts);
      if attempt.Err? {
        return Err(attempt.error);
      }
      if mint.Some? && mint.value.cap.Some? && attempt.value.supply > mint.value.cap.value {
        return Err(CannotExceedCap);
      }
      var token := new LsdToken(attempt.value, mint);
      return Ok(token);
    }

    /** Whether no address occurs twice. */
    static method ValidateAccounts(accounts: seq<Account>) returns (valid: bool)
      ensures valid == Distinct(Addresses(accounts))
    {
      var seen: set<string> := {};
      var names := Addresses(accounts);
      var i := 0;
      while i < |accounts|
        invariant 0 <= i <= |accounts|
        invariant forall a :: a in seen <==> a in names[..i]
        invariant Distinct(names[..i])
      {
        assert names[i] == accounts[i].address;
        if accounts[i].address in seen {
          var j :| 0 <= j < i && names[j] == names[i];
          assert !Distinct(names);
          return false;
        }
        seen := seen + {accounts[i].address};
        i := i + 1;
      }
      assert names[..i] == names;
      return true;
    }

    static method CreateAll(accounts: seq<Account>) returns (r: Result<Opening>)
      ensures r == CreateAccounts(accounts)
    {
      var valid := ValidateAccounts(accounts);
      if !valid {
        return Err(DuplicateInitialBalanceAddresses);
      }
      var table: map<string, nat>, total := map[], 0;
      var i := 0;
      assert accounts[0..] == accounts;
      while i < |accounts|
        invariant 0 <= i <= |accounts|
        invariant Open(accounts, Opening(map[], 0)) == Open(accounts[i..], Opening(table, total))
      {
        assert accounts[i..][1..] == accounts[i + 1..];
        table := table[accounts[i].address := accounts[i].amount];
        total :- Add(total, accounts[i].amount);
        i := i + 1;
      }
      return Ok(Opening(table, total));
    }

    /** Takes an amount from one balance and adds it to another, which may be the same. */
    method MoveTokens(from: string, to: string, amount: nat) returns (r: Result<bool>)
      modifies `balances
      ensures Agrees(old(State()), T.Transfer(old(State()), from, to, amount), State(), r)
    {
      var table := balances;
      var left :- Sub(BalanceOf(table, from), amount);
      table := table[from := left];
      var sum :- Add(BalanceOf(table, to), amount);
      table := table[to := sum];
      balances := table;
      return Ok(true);
    }

    method Transfer(sender: string, recipient: string, amount: nat) returns (r: Result<bool>)
      modifies `balances
      ensures Agrees(old(State()), T.Apply(old(State()), sender, DoTransfer(recipient, amount), Block(0, 0)), State(),
                     r)
    {
      r := MoveTokens(sender, recipient, amount);
    }

    /** A transfer to a contract, which is then notified of it. */
    method SendTokens(sender: string, contract: string, amount: nat) returns (r: Result<bool>)
      modifies `balances
      ensures Agrees(old(State()), T.Apply(old(State()), sender, DoSend(contract, amount), Block(0, 0)), State(), r)
    {
      r := MoveTokens(sender, contract, amount);
    }

    method Burn(sender: string, amount: nat) returns (r: Result<bool>)
      modifies `balances, `supply
      ensures Agrees(old(State()), T.Burn(old(State()), sender, amount), State(), r)
    {
      var left :- Sub(BalanceOf(balances, sender), amount);
      var less :- Sub(supply, amount);
      balances := balances[sender := left];
      supply := less;
      return Ok(true);
    }

    method MintTo(sender: string, recipient: string, amount: nat) returns (r: Result<bool>)
      modifies `balances, `supply
      ensures Agrees(old(State()), T.MintTo(old(State()), sender, recipient, amount), State(), r)
    {
      if mint.None? {
        return Err(Unauthorized);
      }
      if sender !in mint.value.minters {
        return Err(Unauthorized);
      }
      var more :- Add(supply, amount);
      if mint.value.cap.Some? && more > mint.value.cap.value {
        return Err(CannotExceedCap);
      }
      var sum :- Add(BalanceOf(balances, recipient), amount);
      supply := more;
      balances := balances[recipient := sum];
      return Ok(true);
    }

    method AddMinter(sender: string, minter: string) returns (r: Result<bool>)
      modifies `mint
      ensures Agrees(old(State()), T.AddMinter(old(State()), sender, minter), State(), r)
    {
      if mint.None? {
        return Err(Unauthorized);
      }
      if mint.value.admin != sender {
        return Err(Unauthorized);
      }
      mint := Some(mint.value.(minters := mint.value.minters + [minter]));
      return Ok(true);
    }

    static method Retain(minters: seq<string>, minter: string) returns (left: seq<string>)
      ensures left == Others(minters, minter)
    {
      left := [];
      var i := 0;
      assert minters[0..] == minters;
      while i < |minters|
        invariant 0 <= i <= |minters|
        invariant left + Others(minters[i..], minter) == Others(minters, minter)
      {
        assert minters[i..][1..] == minters[i + 1..];
        if minters[i] != minter {
          left := left + [minters[i]];
        }
        i := i + 1;
      }
    }

    method RemoveMinter(sender: string, minter: string) returns (r: Result<bool>)
      modifies `mint
      ensures Agrees(old(State()), T.RemoveMinter(old(State()), sender, minter), State(), r)
    {
      if mint.None? {
        return Err(Unauthorized);
      }
      if mint.value.admin != sender {
        return Err(Unauthorized);
      }
      var left := Retain(mint.value.minters, minter);
      mint := Some(mint.value.(minters := left));
      return Ok(true);
    }

    method TransferAdmin(sender: string, admin: string) returns (r: Result<bool>)
      modifies `mint
      ensures Agrees(old(State()), T.TransferAdmin(old(State()), sender, admin), State(), r)
    {
      if mint.None? {
        return Err(Unauthorized);
      }
      if mint.value.admin != sender {
        return Err(Unauthorized);
      }
      mint := Some(mint.value.(admin := admin));
      return Ok(true);
    }

    /** The update both tables of an increase go through. */
    static method Raise(table: map<Pair, Allowance>, key: Pair, amount: nat, expires: Option<Expiration>, b: Block)
      returns (r: Result<map<Pair, Allowance>>)
      ensures r == Raised(table, key, amount, expires, b)
    {
      var value := NO_ALLOWANCE;
      if key in table {
        value := table[key];
      }
      if expires.Some? {
        if IsExpired(expires.value, b) {
          return Err(InvalidExpiration);
        }
        value := value.(expires := expires.value);
      }
      var sum :- Add(value.amount, amount);
      value := value.(amount := sum);
      return Ok(table[key := value]);
    }

    method IncreaseAllowance(owner: string, spender: string, amount: nat, expires: Option<Expiration>,
                             b: Block) returns (r: Result<bool>)
      modifies `allowances, `bySpender
      ensures Agrees(old(State()), T.Apply(old(State()), owner, DoIncrease(spender, amount, expires), b), State(), r)
    {
      if spender == owner {
        return Err(CannotSetOwnAccount);
      }
      var first := Raise(allowances, (owner, spender), amount, expires, b);
      var byOwner :- first;
      var second := Raise(bySpender, (spender, owner), amount, expires, b);
      var index :- second;
      allowances, bySpender := byOwner, index;
      return Ok(true);
    }

    method DecreaseAllowance(owner: string, spender: string, amount: nat, expires: Option<Expiration>,
                             b: Block) returns (r: Result<bool>)
      modifies `allowances, `bySpender
      ensures Agrees(old(State()), T.Apply(old(State()), owner, DoDecrease(spender, amount, expires), b), State(), r)
    {
      if spender == owner {
        return Err(CannotSetOwnAccount);
      }
      if (owner, spender) !in allowances {
        return Err(NotFound);
      }
      var value := allowances[(owner, spender)];
      if amount < value.amount {
        value := value.(amount := value.amount - amount);
        if expires.Some? {
          if IsExpired(expires.value, b) {
            return Err(InvalidExpiration);
          }
          value := value.(expires := expires.value);
        }
        allowances := allowances[(owner, spender) := value];
        bySpender := bySpender[(spender, owner) := value];
      } else {
        allowances := allowances - {(owner, spender)};
        bySpender := bySpender - {(spender, owner)};
      }
      return Ok(true);
    }

    static method Lower(table: map<Pair, Allowance>, key: Pair, amount: nat,
                        b: Block) returns (r: Result<map<Pair, Allowance>>)
      ensures r == Lowered(table, key, amount, b)
    {
      if key !in table {
        return Err(NoAllowance);
      }
      var value := table[key];
      if IsExpired(value.expires, b) {
        return Err(Expired);
      }
      var left :- Sub(value.amount, amount);
      return Ok(table[key := value.(amount := left)]);
    }

    /** Spends an allowance in both tables; what comes after may still fail, and then the caller puts
        the tables back. */
    method DeductAllowance(owner: string, spender: string, amount: nat, b: Block) returns (r: Result<bool>)
      modifies `allowances, `bySpender
      ensures var spec := T.DeductAllowance(old(State()).grants, owner, spender, amount, b);
        if spec.Ok? then r == Ok(true) && State() == old(State()).(grants := spec.value)
        else r == Err(spec.error) && State() == old(State())
    {
      var first := Lower(allowances, (owner, spender), amount, b);
      var byOwner :- first;
      var second := Lower(bySpender, (spender, owner), amount, b);
      var index :- second;
      allowances, bySpender := byOwner, index;
      return Ok(true);
    }

    method TransferFrom(spender: string, owner: string, recipient: string, amount: nat,
                        b: Block) returns (r: Result<bool>)
      modifies this
      ensures Agrees(old(State()), T.TransferFrom(old(State()), spender, owner, recipient, amount, b), State(), r)
    {
      var granted, indexed := allowances, bySpender;
      var deducted := DeductAllowance(owner, spender, amount, b);
      if deducted.Err? {
        return deducted;
      }
      r := MoveTokens(owner, recipient, amount);
      if r.Err? {
        allowances, bySpender := granted, indexed;
      }
    }

    method BurnFrom(spender: string, owner: string, amount: nat, b: Block) returns (r: Result<bool>)
      modifies this
      ensures Agrees(old(State()), T.BurnFrom(old(State()), spender, owner, amount, b), State(), r)
    {
      var granted, indexed := allowances, bySpender;
      var deducted := DeductAllowance(owner, spender, amount, b);
      if deducted.Err? {
        return deducted;
      }
      r := Burn(owner, amount);
      if r.Err? {
        allowances, bySpender := granted, indexed;
      }
    }

    /** Writes every allowance into the index, in some order. */
    static method RebuildIndex(allowances: map<Pair, Allowance>,
                               before: map<Pair, Allowance>) returns (index: map<Pair, Allowance>)
      ensures Rebuilt(Grants(allowances, index), before)
    {
      index := before;
      var todo := allowances.Keys;
      ghost var done: map<Pair, Allowance> := map[];
      while todo != {}
        invariant forall k :: k in allowances <==> k in todo || k in done
        invariant forall k :: k in done ==> k !in todo && done[k] == allowances[k]
        invariant Rebuilt(Grants(done, index), before)
        decreases |todo|
      {
        var k :| k in todo;
        RebuildOne(done, index, before, k, allowances[k]);
        index := index[(k.1, k.0) := allowances[k]];
        todo := todo - {k};
        done := done[k := allowances[k]];
      }
      assert done == allowances;
    }

    method MigrateIndex()
      modifies `bySpender
      ensures State() == old(State()).(grants := Migrated(old(State().grants)))
    {
      ghost var before := bySpender;
      bySpender := RebuildIndex(allowances, bySpender);
      RebuiltIsMigrated(State().grants, before);
    }
  }
}
