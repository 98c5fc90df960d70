/**
 * The token contract's documented scenarios, replayed against the model with
 * their concrete amounts: each method deploys a fresh token, makes the calls
 * the scenario makes and states the outcome the scenario asserts.
 */
module TokenScenarios {
  import opened Ledger
  import opened TokenContract

  /** Deployment: the name, symbol, decimals and supply, all of it held by the deployer. */
  method Deployment(deployer: Address, other: Address) returns (token: Token)
    requires other != deployer
    ensures fresh(token) && token.Valid()
    ensures token.name == "DApp Token" && token.symbol == "DAPP" && token.decimals == 18
    ensures token.totalSupply == 1_000_000 * TokenUnit
    ensures Get(token.balances, deployer) == 1_000_000 * TokenUnit
    ensures Get(token.balances, other) == 0
  {
    token := new Token(deployer);
  }

  /** Sending 100 tokens leaves 999,900 with the deployer, 100 with the receiver, and one Transfer. */
  method SendingTokens(deployer: Address, receiver: Address) returns (token: Token, ok: bool)
    requires receiver != ZeroAddress && receiver != deployer
    ensures fresh(token) && token.Valid()
    ensures ok
    ensures Get(token.balances, deployer) == 999_900 * TokenUnit
    ensures Get(token.balances, receiver) == 100 * TokenUnit
    ensures token.log == [TokenEvent.Transfer(deployer, receiver, 100 * TokenUnit)]
  {
    token := new Token(deployer);
    ok := token.Transfer(deployer, receiver, 100 * TokenUnit);
  }

  /**
   * Rejected sends: 100,000,000 tokens (more than the supply) from the deployer,
   * 10 tokens from a receiver holding none, and 100 tokens to the zero address.
   * None of them changes any balance or emits anything.
   */
  method RejectedSends(deployer: Address, receiver: Address) returns (token: Token, tooMuch: bool, noFunds: bool, zeroRecipient: bool)
    requires receiver != ZeroAddress && receiver != deployer
    ensures fresh(token) && token.Valid()
    ensures !tooMuch && !noFunds && !zeroRecipient
    ensures Get(token.balances, deployer) == token.totalSupply
    ensures Get(token.balances, receiver) == 0
    ensures token.log == []
  {
    token := new Token(deployer);
    tooMuch := token.Transfer(deployer, receiver, 100_000_000 * TokenUnit);
    noFunds := token.Transfer(receiver, deployer, 10 * TokenUnit);
    zeroRecipient := token.Transfer(deployer, ZeroAddress, 100 * TokenUnit);
  }

  /** Approving the exchange for 100 tokens sets that allowance and emits one Approval. */
  method ApprovingTokens(deployer: Address, exchange: Address) returns (token: Token, ok: bool, allowance: nat)
    ensures fresh(token) && token.Valid()
    ensures ok && allowance == 100 * TokenUnit
    ensures token.log == [TokenEvent.Approval(deployer, exchange, 100 * TokenUnit)]
  {
    token := new Token(deployer);
    ok := token.Approve(deployer, exchange, 100 * TokenUnit);
    allowance := token.Allowance(deployer, exchange);
  }

  /**
   * A delegated transfer: once the deployer approves the exchange for 100 tokens,
   * the exchange moves them to the receiver; the allowance drops to 0 and the
   * last event is the Transfer from the deployer to the receiver.
   */
  method DelegatedTransfer(deployer: Address, receiver: Address, exchange: Address)
    returns (token: Token, ok: bool, allowance: nat)
    requires receiver != ZeroAddress && receiver != deployer
    ensures fresh(token) && token.Valid()
    ensures ok
    ensures Get(token.balances, deployer) == 999_900 * TokenUnit
    ensures Get(token.balances, receiver) == 100 * TokenUnit
    ensures allowance == 0
    ensures token.log == [TokenEvent.Approval(deployer, exchange, 100 * TokenUnit),
                          TokenEvent.Transfer(deployer, receiver, 100 * TokenUnit)]
  {
    token := new Token(deployer);
    var approved := token.Approve(deployer, exchange, 100 * TokenUnit);
    ok := token.TransferFrom(exchange, deployer, receiver, 100 * TokenUnit);
    allowance := token.Allowance(deployer, exchange);
  }
}
