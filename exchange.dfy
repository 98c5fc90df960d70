/**
 * The exchange contract's custody ledger as its tests exercise it: the fee
 * account and fee percent fixed at construction, the fallback that refuses
 * plain Ether payments, `depositEther`, `depositToken`, `withdrawEther`, the
 * `tokens(asset, user)` balance and the `Deposit` and `Withdraw` events.
 *
 * As for the token, `msg.sender` is the `sender` parameter and `msg.value` the
 * `value` parameter; a revert returns `false` and changes nothing, here nor in
 * the token contract the call reached.
 */
module ExchangeContract {
  import opened Ledger
  import opened TokenContract

  /**
   * What a custody balance is held in. `Native` is Ether, which the contract
   * keys by the reserved `ETHER_ADDRESS` (the zero address); `Tok(token)` is
   * the token contract deployed as `token`.
   */
  datatype Asset = Native | Tok(token: Token)

  /** The events the exchange emits; `balance` is the user's balance after the call. */
  datatype ExchangeEvent =
    | Deposit(asset: Asset, user: Address, amount: nat, balance: nat)
    | Withdraw(asset: Asset, user: Address, amount: nat, balance: nat)

  class Exchange {
    /** The exchange's own address, which holds the deposited tokens. */
    const address: ContractAddress
    const feeAccount: Address
    const feePercent: nat

    /** `tokens[asset][user]`, keyed by the pair (asset, user). */
    var tokens: map<(Asset, Address), nat>
    /** Every event emitted so far. */
    var log: seq<ExchangeEvent>

    /** Every custody balance fits in a `uint256`. */
    ghost predicate Valid()
      reads this
    {
      forall key :: key in tokens ==> tokens[key] <= MaxUint256
    }

    /** Deployment stores the fee account and fee percent as given; nothing is in custody. */
    constructor (address: ContractAddress, feeAccount: Address, feePercent: nat)
      ensures Valid()
      ensures this.address == address
      ensures this.feeAccount == feeAccount && this.feePercent == feePercent
      ensures tokens == map[] && log == []
    {
      this.address := address;
      this.feeAccount := feeAccount;
      this.feePercent := feePercent;
      tokens := map[];
      log := [];
    }

    /** `tokens(asset, user)`: the user's custody balance, 0 before any deposit. */
    method BalanceOf(asset: Asset, user: Address) returns (r: nat)
      requires Valid()
      ensures r == Get(tokens, (asset, user))
      ensures r <= MaxUint256
    {
      r := Get(tokens, (asset, user));
    }

    /** The fallback: any Ether sent to the exchange outside `depositEther` is refused. */
    method Fallback(sender: Address, value: nat) returns (ok: bool)
      ensures !ok
    {
      ok := false;
    }

    /**
     * `depositEther()` with `value` attached: credits the sender's Ether balance
     * with `value` and emits one `Deposit`. It reverts only when the new balance
     * would overflow a `uint256`.
     */
    method DepositEther(sender: Address, value: nat) returns (ok: bool)
      requires Valid()
      modifies this
      ensures Valid()
      ensures ok <==> old(Get(tokens, (Native, sender))) + value <= MaxUint256
      ensures ok ==> tokens == Credit(old(tokens), (Native, sender), value)
      ensures ok ==> log == old(log) + [Deposit(Native, sender, value, Get(tokens, (Native, sender)))]
      ensures !ok ==> unchanged(this)
    {
      var balance := Get(tokens, (Native, sender)) + value;
      if balance > MaxUint256 {
        return false;
      }
      tokens := Credit(tokens, (Native, sender), value);
      log := log + [Deposit(Native, sender, value, balance)];
      ok := true;
    }

    /**
     * `depositToken(token, amount)`: reverts for `ETHER_ADDRESS`; otherwise pulls
     * `amount` from the sender into the exchange's own address through the token's
     * `transferFrom` (the exchange being the spender), which reverts without a
     * sufficient allowance or balance, then credits the sender's custody balance
     * with `amount` and emits one `Deposit`. A custody balance that would overflow
     * a `uint256` also reverts the whole call.
     */
    method DepositToken(sender: Address, asset: Asset, amount: nat) returns (ok: bool)
      requires Valid()
      requires asset.Tok? ==> asset.token.Valid()
      modifies this, if asset.Tok? then {asset.token} else {}
      ensures Valid()
      ensures asset.Tok? ==> asset.token.Valid()
      ensures ok <==> asset.Tok?
                      && old(Get(tokens, (asset, sender))) + amount <= MaxUint256
                      && amount <= old(Get(asset.token.balances, sender))
                      && amount <= old(Get(asset.token.allowances, (sender, address)))
      ensures ok ==> tokens == Credit(old(tokens), (asset, sender), amount)
      ensures ok ==> log == old(log) + [Deposit(asset, sender, amount, Get(tokens, (asset, sender)))]
      ensures ok ==> asset.token.balances == Move(old(asset.token.balances), sender, address, amount)
      ensures ok ==> asset.token.allowances == Debit(old(asset.token.allowances), (sender, address), amount)
      ensures ok ==> asset.token.log == old(asset.token.log) + [TokenEvent.Transfer(sender, address, amount)]
      ensures !ok ==> unchanged(this) && (asset.Tok? ==> unchanged(asset.token))
    {
      if asset.Native? {
        return false;
      }
      var balance := Get(tokens, (asset, sender)) + amount;
      if balance > MaxUint256 {
        return false;
      }
      ok := asset.token.TransferFrom(address, sender, address, amount);
      if ok {
        tokens := Credit(tokens, (asset, sender), amount);
        log := log + [Deposit(asset, sender, amount, balance)];
      }
    }

    /**
     * `withdrawEther(amount)`: reverts when `amount` exceeds the sender's Ether
     * balance; otherwise debits it by `amount` and emits one `Withdraw`.
     */
    method WithdrawEther(sender: Address, amount: nat) returns (ok: bool)
      requires Valid()
      modifies this
      ensures Valid()
      ensures ok <==> amount <= old(Get(tokens, (Native, sender)))
      ensures ok ==> tokens == Debit(old(tokens), (Native, sender), amount)
      ensures ok ==> log == old(log) + [Withdraw(Native, sender, amount, Get(tokens, (Native, sender)))]
      ensures !ok ==> unchanged(this)
    {
      if amount > Get(tokens, (Native, sender)) {
        return false;
      }
      tokens := Debit(tokens, (Native, sender), amount);
      log := log + [Withdraw(Native, sender, amount, Get(tokens, (Native, sender)))];
      ok := true;
    }
  }
}
