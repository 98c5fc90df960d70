/**
 * The exchange contract's documented scenarios, replayed against the model with
 * their concrete amounts. The accounts are the deployer, the fee account and
 * `user1`; the fee percent is 10.
 */
module ExchangeScenarios {
  import opened Ledger
  import opened TokenContract
  import opened ExchangeContract

  /** One Ether in wei, 10^18. */
  const EtherUnit: nat := 1_000_000_000_000_000_000

  /** Deployment keeps the fee account and the fee percent it was given. */
  method Deployment(exchangeAddress: ContractAddress, feeAccount: Address) returns (exchange: Exchange)
    ensures fresh(exchange) && exchange.Valid()
    ensures exchange.feeAccount == feeAccount && exchange.feePercent == 10
  {
    exchange := new Exchange(exchangeAddress, feeAccount, 10);
  }

  /** Sending 1 wei straight to the exchange is refused and credits nobody. */
  method FallbackRefused(exchangeAddress: ContractAddress, feeAccount: Address, user1: Address)
    returns (exchange: Exchange, ok: bool, balance: nat)
    ensures fresh(exchange) && exchange.Valid()
    ensures !ok && balance == 0
    ensures exchange.tokens == map[] && exchange.log == []
  {
    exchange := new Exchange(exchangeAddress, feeAccount, 10);
    ok := exchange.Fallback(user1, 1);
    balance := exchange.BalanceOf(Native, user1);
  }

  /** Depositing 1 Ether credits it to the user and emits a Deposit whose balance is 1 Ether. */
  method DepositingEther(exchangeAddress: ContractAddress, feeAccount: Address, user1: Address)
    returns (exchange: Exchange, ok: bool, balance: nat)
    ensures fresh(exchange) && exchange.Valid()
    ensures ok && balance == EtherUnit
    ensures exchange.log == [Deposit(Native, user1, EtherUnit, EtherUnit)]
  {
    exchange := new Exchange(exchangeAddress, feeAccount, 10);
    ok := exchange.DepositEther(user1, EtherUnit);
    balance := exchange.BalanceOf(Native, user1);
  }

  /**
   * Depositing 10 tokens after approving the exchange for them: the exchange's
   * own token balance and the user's custody balance are both 10 tokens, and the
   * exchange emits one Deposit.
   */
  method DepositingTokens(deployer: Address, exchangeAddress: ContractAddress, feeAccount: Address, user1: Address)
    returns (token: Token, exchange: Exchange, ok: bool)
    requires user1 != ZeroAddress && user1 != deployer
    requires exchangeAddress != deployer && exchangeAddress != user1
    ensures fresh(token) && fresh(exchange) && token.Valid() && exchange.Valid()
    ensures ok
    ensures Get(token.balances, exchangeAddress) == 10 * TokenUnit
    ensures Get(token.balances, user1) == 90 * TokenUnit
    ensures Get(exchange.tokens, (Tok(token), user1)) == 10 * TokenUnit
    ensures exchange.log == [Deposit(Tok(token), user1, 10 * TokenUnit, 10 * TokenUnit)]
  {
    token := new Token(deployer);
    var funded := token.Transfer(deployer, user1, 100 * TokenUnit);
    exchange := new Exchange(exchangeAddress, feeAccount, 10);
    var approved := token.Approve(user1, exchangeAddress, 10 * TokenUnit);
    ok := exchange.DepositToken(user1, Tok(token), 10 * TokenUnit);
  }

  /**
   * Rejected token deposits: `ETHER_ADDRESS` as the token, and a token the user
   * never approved the exchange for. Neither ledger changes.
   */
  method RejectedTokenDeposits(deployer: Address, exchangeAddress: ContractAddress, feeAccount: Address, user1: Address)
    returns (token: Token, exchange: Exchange, etherAsToken: bool, unapproved: bool)
    requires user1 != ZeroAddress && user1 != deployer
    requires exchangeAddress != deployer && exchangeAddress != user1
    ensures fresh(token) && fresh(exchange) && token.Valid() && exchange.Valid()
    ensures !etherAsToken && !unapproved
    ensures exchange.tokens == map[] && exchange.log == []
    ensures Get(token.balances, deployer) == 999_900 * TokenUnit
    ensures Get(token.balances, user1) == 100 * TokenUnit
    ensures Get(token.balances, exchangeAddress) == 0
    ensures token.allowances == map[]
    ensures token.log == [TokenEvent.Transfer(deployer, user1, 100 * TokenUnit)]
  {
    token := new Token(deployer);
    var funded := token.Transfer(deployer, user1, 100 * TokenUnit);
    exchange := new Exchange(exchangeAddress, feeAccount, 10);
    etherAsToken := exchange.DepositToken(user1, Native, 10 * TokenUnit);
    unapproved := exchange.DepositToken(user1, Tok(token), 10 * TokenUnit);
  }

  /** Withdrawing the 1 Ether just deposited leaves 0 and emits a Withdraw whose balance is 0. */
  method WithdrawingEther(exchangeAddress: ContractAddress, feeAccount: Address, user1: Address)
    returns (exchange: Exchange, ok: bool, balance: nat)
    ensures fresh(exchange) && exchange.Valid()
    ensures ok && balance == 0
    ensures exchange.log == [Deposit(Native, user1, EtherUnit, EtherUnit), Withdraw(Native, user1, EtherUnit, 0)]
  {
    exchange := new Exchange(exchangeAddress, feeAccount, 10);
    var deposited := exchange.DepositEther(user1, EtherUnit);
    ok := exchange.WithdrawEther(user1, EtherUnit);
    balance := exchange.BalanceOf(Native, user1);
  }

  /** Withdrawing 100 Ether against a 1 Ether balance is refused; the balance stays 1 Ether. */
  method RejectedWithdraw(exchangeAddress: ContractAddress, feeAccount: Address, user1: Address)
    returns (exchange: Exchange, ok: bool, balance: nat)
    ensures fresh(exchange) && exchange.Valid()
    ensures !ok && balance == EtherUnit
  {
    exchange := new Exchange(exchangeAddress, feeAccount, 10);
    var deposited := exchange.DepositEther(user1, EtherUnit);
    ok := exchange.WithdrawEther(user1, 100 * EtherUnit);
    balance := exchange.BalanceOf(Native, user1);
  }
}
