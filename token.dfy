/**
 * The ERC-20 token contract ("DApp Token", symbol "DAPP", 18 decimals) as its
 * tests exercise it: the whole supply is minted to the deployer, `transfer`,
 * `approve`, `transferFrom`, `balanceOf`, `allowance`, and the `Transfer` and
 * `Approval` events.
 *
 * The caller of a contract method (Solidity's `msg.sender`) is an explicit
 * `sender` parameter. A call that reverts returns `false` and leaves the
 * contract exactly as it was; a call that commits returns `true`.
 */
module TokenContract {
  import opened Ledger

  /** One whole token in the smallest unit: 10^18, as the token has 18 decimals. */
  const TokenUnit: nat := 1_000_000_000_000_000_000

  /** The events the token contract emits, in the order it emits them. */
  datatype TokenEvent =
    | Transfer(from: Address, to: Address, value: nat)
    | Approval(owner: Address, spender: Address, value: nat)

  class Token {
    const name: string := "DApp Token"
    const symbol: string := "DAPP"
    const decimals: nat := 18
    /** A fixed supply of 1,000,000 whole tokens. */
    const totalSupply: nat := 1_000_000 * TokenUnit

    /** `balanceOf[owner]`. */
    var balances: map<Address, nat>
    /** `allowance[owner][spender]`, keyed by the pair (owner, spender). */
    var allowances: map<(Address, Address), nat>
    /** Every event emitted so far. */
    var log: seq<TokenEvent>

    /** The balances always add up to the fixed total supply: no call mints or burns. */
    ghost predicate Valid()
      reads this
    {
      Sum(balances) == totalSupply
    }

    /** Deployment mints the whole supply to the deployer; nobody else holds anything. */
    constructor (deployer: Address)
      ensures Valid()
      ensures Get(balances, deployer) == totalSupply
      ensures forall a :: a != deployer ==> Get(balances, a) == 0
      ensures allowances == map[] && log == []
    {
      balances := map[deployer := totalSupply];
      allowances := map[];
      log := [];
      new;
      SumSingleton(deployer, totalSupply);
    }

    /** `balanceOf(owner)`. No balance can exceed the supply, so none overflows a `uint256`. */
    method BalanceOf(owner: Address) returns (r: nat)
      requires Valid()
      ensures r == Get(balances, owner)
      ensures r <= totalSupply < MaxUint256
    {
      r := Get(balances, owner);
      GetAtMostSum(balances, owner);
    }

    /** `allowance(owner, spender)`: what `spender` may still move out of `owner`'s balance. */
    method Allowance(owner: Address, spender: Address) returns (r: nat)
      ensures r == Get(allowances, (owner, spender))
      ensures (owner, spender) !in allowances ==> r == 0
    {
      r := Get(allowances, (owner, spender));
    }

    /**
     * `transfer(to, value)` by `sender`: reverts when `to` is the zero address or
     * `value` exceeds the sender's balance; otherwise moves `value` from the sender
     * to `to` and emits one `Transfer`. Only the sender's balance can go down.
     */
    method Transfer(sender: Address, to: Address, value: nat) returns (ok: bool)
      requires Valid()
      modifies this
      ensures Valid()
      ensures ok <==> to != ZeroAddress && value <= old(Get(balances, sender))
      ensures ok ==> balances == Move(old(balances), sender, to, value)
      ensures ok ==> allowances == old(allowances)
      ensures ok ==> log == old(log) + [TokenEvent.Transfer(sender, to, value)]
      ensures forall a :: a != sender ==> Get(balances, a) >= old(Get(balances, a))
      ensures !ok ==> unchanged(this)
    {
      if to == ZeroAddress || value > Get(balances, sender) {
        return false;
      }
      balances := Move(balances, sender, to, value);
      log := log + [TokenEvent.Transfer(sender, to, value)];
      ok := true;
    }

    /**
     * `approve(spender, value)` by `sender`: sets (does not add to) the allowance
     * of `spender` over the sender's balance to exactly `value` and emits one
     * `Approval`. Balances do not change.
     */
    method Approve(sender: Address, spender: Address, value: nat) returns (ok: bool)
      requires Valid()
      modifies this
      ensures Valid()
      ensures ok
      ensures allowances == old(allowances)[(sender, spender) := value]
      ensures Get(allowances, (sender, spender)) == value
      ensures balances == old(balances)
      ensures log == old(log) + [TokenEvent.Approval(sender, spender, value)]
    {
      allowances := allowances[(sender, spender) := value];
      log := log + [TokenEvent.Approval(sender, spender, value)];
      ok := true;
    }

    /**
     * `transferFrom(from, to, value)` by the spender `sender`: reverts when `to` is
     * the zero address, when `value` exceeds `from`'s balance, or when it exceeds
     * what `from` has allowed `sender`; otherwise moves `value` from `from` to `to`,
     * lowers that allowance by `value` and emits one `Transfer`. Only `from`'s
     * balance can go down, and by no more than the allowance it granted.
     */
    method TransferFrom(sender: Address, from: Address, to: Address, value: nat) returns (ok: bool)
      requires Valid()
      modifies this
      ensures Valid()
      ensures ok <==> to != ZeroAddress
                      && value <= old(Get(balances, from))
                      && value <= old(Get(allowances, (from, sender)))
      ensures ok ==> balances == Move(old(balances), from, to, value)
      ensures ok ==> allowances == Debit(old(allowances), (from, sender), value)
      ensures ok ==> log == old(log) + [TokenEvent.Transfer(from, to, value)]
      ensures forall a :: a != from ==> Get(balances, a) >= old(Get(balances, a))
      ensures old(Get(balances, from)) - Get(balances, from) <= old(Get(allowances, (from, sender)))
      ensures !ok ==> unchanged(this)
    {
      if to == ZeroAddress || value > Get(balances, from) || value > Get(allowances, (from, sender)) {
        return false;
      }
      allowances := Debit(allowances, (from, sender), value);
      balances := Move(balances, from, to, value);
      log := log + [TokenEvent.Transfer(from, to, value)];
      ok := true;
    }
  }
}
