# DApp token and exchange custody ledger

This project models two Ethereum contracts of a small decentralised exchange,
as far as their Truffle test suites (`test/Token.test.js`,
`test/Exchange.test.js`) fix their behaviour. The contracts' own Solidity
source is not part of this model, so every contract below is read off the
tests' before/after assertions, with the gaps filled as the EIP-20 token
standard describes.

- **Token** (`TokenContract.Token`): an EIP-20 token, "DApp Token" / "DAPP"
  with 18 decimals and a fixed supply of 1,000,000 tokens minted to the
  deployer. `transfer`, `approve`, `transferFrom`, `balanceOf`, `allowance`,
  and an event log of `Transfer` and `Approval` records.
- **Exchange** (`ExchangeContract.Exchange`): the custody ledger
  `tokens[asset][user]`, the fee account and fee percent fixed at deployment,
  a fallback that refuses plain Ether, `depositEther`, `depositToken` (which
  pulls tokens through the token's `transferFrom`, the exchange being both
  spender and recipient), `withdrawEther`, and an event log of `Deposit` and
  `Withdraw` records.

Both are classes whose methods update map fields in place, as the contracts'
storage mappings are. The caller (`msg.sender`) and the attached Ether
(`msg.value`) are explicit parameters. A call that reverts returns `false`
and leaves every object it could touch unchanged; a call that commits returns
`true`. A mapping reads 0 for a key never written, which `Ledger.Get` models.

The asset key is `datatype Asset = Native | Tok(token: Token)`: `Native`
stands for the reserved `ETHER_ADDRESS`, `Tok(t)` for the address of the
deployed token `t`.

What is proved:

- The token's balances always sum to the fixed total supply (`Token.Valid`,
  kept by every method), so no balance exceeds the supply and none can
  overflow a `uint256`.
- Each token method's revert condition in both directions, its exact new
  state, its one event, and the authorisation facts: only the sender's (for
  `transferFrom`, only the owner's) balance can go down, and `transferFrom`
  takes no more than the allowance granted.
- Each exchange method's revert condition in both directions, its exact new
  state in the exchange and, for `depositToken`, in the token, and its event;
  every custody balance fits in a `uint256`.
- The tests' scenarios with their concrete amounts (999,900 + 100; allowance
  100 then 0; a 1 Ether deposit and withdrawal; a 10 token deposit).

Decisions where the tests say nothing:

- `approve` never reverts; EIP-20 does not require a check of the spender, and
  no test calls `approve` with the zero address.
- `transferFrom` refuses the zero recipient, as `transfer` does in the tests,
  and refuses an amount above the owner's balance or above the allowance.
- Custody credits use checked `uint256` addition: a deposit that would make a
  balance exceed 2^256 - 1 reverts.
- The test helpers `tokens(n)` and `ether(n)` are taken as `n * 10^18` in the
  smallest unit.
- `transfer` to the zero address reverts. The tests at test/Token.test.js:88,
  122 and 179 pass the number `0x0` and accept any rejection (they do not ask
  for a revert, as lines 81 and 84 do), so they would also pass if the client
  refused the call before sending it; the contract-side revert is the EIP-20
  convention rather than something those tests pin down.
- Custody is not proved to be backed by the exchange's own token balance.
  `depositToken` called with the exchange's own address as the depositor raises
  custody while the token balances stay the same (the move is from the
  exchange to itself); nothing in the tests makes that call.

## Model

| member | source | states |
|---|---|---|
| `Ledger.Credit` | test/Exchange.test.js:45-48 | a deposit raises exactly the credited key by the amount, every other key reads as before, and the sum of the map rises by the amount |
| `Ledger.Debit` | test/Exchange.test.js:114-117 | a withdrawal of at most the balance lowers exactly that key by the amount, nothing else changes, and the sum falls by the amount |
| `Ledger.Move` | test/Token.test.js:54-62 | a move lowers the source by the amount and raises the destination by it (a move to oneself changes nothing), other keys are untouched and the sum is conserved |
| `Ledger.SumRemove` | test/Token.test.js:54-62 | the sum of a map is the amount of any one key plus the sum of the rest |
| `Ledger.SumUpdate` | test/Token.test.js:54-62 | overwriting one amount changes the sum by exactly the difference |
| `Ledger.SumSingleton` | test/Token.test.js:35-38 | a map whose only holder is the deployer sums to the deployer's amount |
| `Ledger.GetAtMostSum` | test/Token.test.js:76-81 | no one balance exceeds the sum of all balances |
| `Ledger.DebitUndoesCredit` | test/Exchange.test.js:106-117 | withdrawing what was just deposited restores every balance |
| `TokenContract.Token.constructor` | test/Token.test.js:8-38 | name "DApp Token", symbol "DAPP", 18 decimals, supply 1,000,000 tokens, all of it held by the deployer, nobody else holding anything, no allowances, no events |
| `TokenContract.Token.BalanceOf` | test/Token.test.js:35-38 | returns the stored balance (0 for an unknown holder), which never exceeds the total supply and so fits a `uint256` |
| `TokenContract.Token.Allowance` | test/Token.test.js:104-107 | returns the allowance of the spender over the owner's balance, 0 when none was granted |
| `TokenContract.Token.Transfer` | test/Token.test.js:47-89 | commits exactly when the recipient is not the zero address and the amount is at most the sender's balance; then moves the amount, keeps the supply, emits one matching Transfer; only the sender's balance can fall; a revert changes nothing |
| `TokenContract.Token.Approve` | test/Token.test.js:97-117 | sets the allowance of (sender, spender) to exactly the amount, leaves balances and every other allowance alone, emits one matching Approval |
| `TokenContract.Token.TransferFrom` | test/Token.test.js:131-163 | commits exactly when the recipient is not the zero address and the amount is within both the owner's balance and the spender's allowance; then moves the amount, lowers the allowance by it, emits one matching Transfer; only the owner's balance falls, by no more than the allowance; a revert changes nothing |
| `TokenScenarios.Deployment` | test/Token.test.js:17-38 | a fresh token has the documented name, symbol, decimals and supply, all with the deployer |
| `TokenScenarios.SendingTokens` | test/Token.test.js:46-71 | sending 100 tokens leaves 999,900 with the deployer and 100 with the receiver, with one Transfer event |
| `TokenScenarios.RejectedSends` | test/Token.test.js:74-89 | sends above the supply, from an empty balance, or to the zero address all revert and leave the balances and log as deployed |
| `TokenScenarios.ApprovingTokens` | test/Token.test.js:94-117 | approving the exchange for 100 tokens makes its allowance 100 tokens and emits one Approval |
| `TokenScenarios.DelegatedTransfer` | test/Token.test.js:127-163 | after that approval the exchange moves 100 tokens to the receiver, the allowance drops to 0 and a Transfer follows the Approval |
| `ExchangeContract.Exchange.constructor` | test/Exchange.test.js:8-29 | the fee account and fee percent are stored as given; custody is empty |
| `ExchangeContract.Exchange.BalanceOf` | test/Exchange.test.js:45-48 | returns the user's custody balance in the asset, 0 before any deposit, always within `uint256` |
| `ExchangeContract.Exchange.Fallback` | test/Exchange.test.js:32-35 | Ether sent outside `depositEther` is always refused, for any amount, and changes nothing |
| `ExchangeContract.Exchange.DepositEther` | test/Exchange.test.js:38-58 | credits the attached value to the sender's Ether balance and emits Deposit with the new balance; reverts, changing nothing, only on `uint256` overflow |
| `ExchangeContract.Exchange.DepositToken` | test/Exchange.test.js:61-100 | reverts for the Ether asset, without a sufficient allowance or balance, or on overflow, changing neither contract; otherwise moves the amount into the exchange's own token balance, spends the allowance, credits the sender's custody balance by it and emits Deposit with the new balance |
| `ExchangeContract.Exchange.WithdrawEther` | test/Exchange.test.js:103-134 | commits exactly when the amount is within the sender's Ether balance; then debits it and emits Withdraw with the new balance; a revert changes nothing |
| `ExchangeScenarios.Deployment` | test/Exchange.test.js:21-29 | a fresh exchange reports the fee account and fee percent 10 |
| `ExchangeScenarios.FallbackRefused` | test/Exchange.test.js:32-35 | sending 1 wei directly is refused; custody stays empty and no event is emitted |
| `ExchangeScenarios.DepositingEther` | test/Exchange.test.js:38-58 | depositing 1 Ether gives the user a balance of 1 Ether and one Deposit event carrying it |
| `ExchangeScenarios.DepositingTokens` | test/Exchange.test.js:64-90 | after approval, depositing 10 tokens gives the exchange 10 tokens in the token contract and the user 10 tokens in custody, with one Deposit |
| `ExchangeScenarios.RejectedTokenDeposits` | test/Exchange.test.js:92-99 | a deposit naming the Ether asset and an unapproved deposit both revert; custody and the exchange's log stay empty, and the token keeps the balances, allowances and log it had after funding user1 |
| `ExchangeScenarios.WithdrawingEther` | test/Exchange.test.js:106-127 | withdrawing the 1 Ether deposited leaves 0 and emits Withdraw with balance 0 |
| `ExchangeScenarios.RejectedWithdraw` | test/Exchange.test.js:129-133 | withdrawing 100 Ether against 1 is refused and the balance stays 1 Ether |

## Left out

- The order book (`makeOrder`, `cancelOrder`, `fillOrder`) and fee settlement: no test exercises them; `feePercent` is only stored.
- `withdrawToken`: no test exercises it.
- The Ether paid out to the user by `withdrawEther` and the Ether held by the exchange: only the custody ledger is observed, so the outward payment (and its failure) is not modelled.
- Gas, the EVM's revert mechanism and block data: a revert is a `false` result with unchanged state.
- The test harness (`artifacts.require`, `beforeEach`, `should.be.rejectedWith`) and the un-awaited funding transfer at test/Exchange.test.js:15, whose timing is a harness race; the scenarios perform that transfer before depositing.
- The test helpers `tokens` and `ether` (`./helpers`) are not part of this model; all amounts are naturals in the smallest unit.
- The `uint256` width of call arguments: arguments are naturals; the ABI would reject a larger value before the contract runs.
- Token `name`, `symbol` and `decimals` are constants only.
