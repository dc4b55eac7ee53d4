# Agent market vault exchange — a Dafny model

This project models the on-chain core of the agent market program, a Solana/Anchor program for a
two-token vault exchange. Users register trading agents and initialise markets, which are ordered
pairs of token mints. They move tokens into and out of vault token accounts, place trade intents,
and settle a trade as a two-leg swap against the market's vaults.

The model is functional. A `State` holds:

- maps from address to `Agent`, `Market`, `Trade` and `Vault` records;
- the set of mints;
- the token accounts, each with a mint and an authority;
- a balance ledger `map<Address, nat>`.

Each instruction is a pure function `State -> Result<State>`. The host's all-or-nothing unit of work
is `Accounts.Commit`: the new state on success, the old one on any error.

Modules and files:

- `numbers.dfy` (`Numbers`): the 8-bit and 64-bit unsigned types of records and arguments.
- `addresses.dfy` (`Addresses`): addresses and seed tuples. A program address is the free
  constructor `Pda(seeds)`, so derivation is injective by construction. `Derive(seeds)` returns the
  address and bump reached by the bump search.
- `errors.dfy` (`Errors`): the program's error codes, the account-constraint failures of the
  validation layer, the token program's failures, and the runtime's refusal of a call that passes
  an unsigned account as a signer.
- `accounts.dfy` (`Accounts`): the record shapes, the state, `Occupied` (where an `init` fails), the
  validity invariant, and `Commit`.
- `token_program.dfy` (`TokenProgram`): the balance move, the token program's checked transfer, the
  call into it from the program (the runtime checks the authority's signature first), and the per-mint
  supply with its conservation proofs.
- `register_agent.dfy`, `initialize_market.dfy`, `place_trade.dfy`, `deposit_tokens.dfy`,
  `withdraw_tokens.dfy`, `execute_trade.dfy`: one module per instruction.
- `scenario.dfy` (`Scenario`): one concrete run through all instructions. It creates a market for
  (T1, T2), registers an agent and deposits. A withdrawal from the T1 vault is then refused as
  written and pays out when corrected. Finally it places a buy of 95 T2 for 100 T1 and settles it.

The source suggests more checking than its instructions perform, and the model follows what the
instructions do:

- The error enum (`errors.rs:4-18`) declares `InvalidTradeType`, `InvalidVault`,
  `InvalidTokenMint`, `InvalidAgentOwner` and `Unauthorized`, but no instruction raises any of them.
  The only program error ever raised is `InvalidTokenAccounts`.
- The comment on `place_trade`'s trade type (`lib.rs:45`) reads 0 = buy, 1 = sell, 2 = swap. Nothing
  range-checks the value, and settlement treats every type other than 0 (2 and 255 included) as a
  sell.
- Deposit and withdraw check neither the vault, the mint nor the agent's owner.
- Market initialisation creates no vaults. The comment at `initialize_market.rs:34` says the bump is
  set automatically, but the handler writes only the two mints, so the stored bump stays 0.
- Settlement never checks that the signer owns the agent. It only checks that the trade's agent is
  the presented agent, and that the user signs for the inbound token account.
- Settlement never checks that the trade belongs to the presented market: the trade account carries
  `has_one = agent` but no `has_one = market` (see "## Findings").
- The code does not compile as written, so two readings were chosen:
  - The trade record stores `amount` and `price`, but settlement reads `amount_in` and
    `amount_out`. The model reads them as `amount` and `price`, in placement's argument order
    (`Settlement.AmountIn`, `Settlement.AmountOut`).
  - The vault constraint `has_one = token_in_mint` is read as the vault's `token` field.
- Vault records, mints and token accounts are part of the initial state.

## Model

| member | source | states |
|---|---|---|
| `Addresses.Derive` | anchor-programs/programs/anchor-programs/src/instructions/place_trade.rs:28-29 | the derived address is the program address of the seeds followed by the returned bump |
| `Addresses.DeriveBumpUnique` | anchor-programs/programs/anchor-programs/src/instructions/execute_trade.rs:50-51 | re-deriving with a stored bump gives the derived address if and only if the stored bump is the derivation's bump |
| `Addresses.DeriveInjective` | anchor-programs/programs/anchor-programs/src/instructions/place_trade.rs:28 | two seed tuples with the same derived address are equal |
| `Addresses.AgentAddressInjective` | anchor-programs/programs/anchor-programs/src/instructions/register_agent.rs:10 | an agent address determines its user |
| `Addresses.MarketAddressInjective` | anchor-programs/programs/anchor-programs/src/instructions/initialize_market.rs:11 | a market address determines its ordered mint pair |
| `Addresses.TradeAddressInjective` | anchor-programs/programs/anchor-programs/src/instructions/place_trade.rs:28 | a trade address determines its (agent, market) pair |
| `Accounts.OneTradePerAgentAndMarket` | anchor-programs/programs/anchor-programs/src/instructions/place_trade.rs:24-30 | in a valid state, two live trades with the same agent and market are the same record |
| `Accounts.OneAgentPerOwner` | anchor-programs/programs/anchor-programs/src/instructions/register_agent.rs:6-12 | in a valid state, two agents with the same owner are the same record |
| `TokenProgram.Move` | anchor-programs/programs/anchor-programs/src/instructions/deposit_tokens.rs:30 | succeeds exactly when both entries exist and the source covers the amount; on success each balance changes by its net movement and no key is added |
| `TokenProgram.Transfer` | anchor-programs/programs/anchor-programs/src/instructions/deposit_tokens.rs:24-30 | succeeds exactly when both accounts exist, the source covers the amount, the mints agree, the authority owns the source and has signed; fails only with a token error; on success it moves only the two balances |
| `TokenProgram.MoveConservesSupply` | anchor-programs/programs/anchor-programs/src/instructions/execute_trade.rs:109-118 | a move between two accounts of one mint leaves every mint's total balance unchanged |
| `TokenProgram.TransferConservesSupply` | anchor-programs/programs/anchor-programs/src/instructions/deposit_tokens.rs:24-30 | every successful transfer leaves every mint's total balance unchanged |
| `TokenProgram.InvokeTransfer` | anchor-programs/programs/anchor-programs/src/instructions/withdraw_tokens.rs:30-40 | the call succeeds exactly when the token program allows the transfer; an authority that neither signed the transaction nor is signed for by seeds fails with the runtime's PrivilegeEscalation before any balance is read; the token program's MissingSignature can then never occur; on success only the two balances move |
| `TokenProgram.InvokeConservesSupply` | anchor-programs/programs/anchor-programs/src/instructions/withdraw_tokens.rs:30-40 | every successful call into the transfer leaves every mint's total balance unchanged |
| `Registration.RegisterAgent` | anchor-programs/programs/anchor-programs/src/instructions/register_agent.rs:6-24 | succeeds exactly when the ("agent", user) address is free, else AccountAlreadyInUse; the new agent's owner is the signer and its bump is the derivation bump; nothing else changes |
| `Registration.RegisterTwiceFails` | anchor-programs/programs/anchor-programs/src/instructions/register_agent.rs:6-12 | registering the same user again fails with AccountAlreadyInUse |
| `Registration.DistinctUsersDistinctAgents` | anchor-programs/programs/anchor-programs/src/instructions/register_agent.rs:10 | one user's registration never blocks another's |
| `Registration.RegisterPreservesValid` | anchor-programs/programs/anchor-programs/src/instructions/register_agent.rs:20-24 | registration keeps every record at its derived address |
| `MarketSetup.InitializeMarket` | anchor-programs/programs/anchor-programs/src/instructions/initialize_market.rs:7-35 | succeeds exactly when the ("market", token_a, token_b) address is free; stores the mints in the given order with bump 0; changes no other record |
| `MarketSetup.InitializeTwiceFails` | anchor-programs/programs/anchor-programs/src/instructions/initialize_market.rs:7-13 | initialising the same ordered pair again fails with AccountAlreadyInUse |
| `MarketSetup.ReversedPairIsAnotherMarket` | anchor-programs/programs/anchor-programs/src/instructions/initialize_market.rs:11 | (T2, T1) has another address than (T1, T2) and can still be created after it |
| `MarketSetup.EqualMintsAccepted` | anchor-programs/programs/anchor-programs/src/instructions/initialize_market.rs:16-20 | a market with token_a equal to token_b is created whenever its address is free |
| `MarketSetup.InitializePreservesValid` | anchor-programs/programs/anchor-programs/src/instructions/initialize_market.rs:28-35 | market creation keeps every record at its derived address |
| `TradeIntents.PlaceTrade` | anchor-programs/programs/anchor-programs/src/instructions/place_trade.rs:24-58 | succeeds exactly when agent and market exist and the trade address is free; the new record stores the agent key, market key, trade type, amount, price and derivation bump; no other record or balance changes |
| `TradeIntents.PlaceTwiceFails` | anchor-programs/programs/anchor-programs/src/instructions/place_trade.rs:24-30 | while a trade is live, any second placement for the same agent and market fails |
| `TradeIntents.DistinctPairsDistinctTrades` | anchor-programs/programs/anchor-programs/src/instructions/place_trade.rs:28 | different (agent, market) pairs have different trade addresses |
| `TradeIntents.AnyTradeTypeAccepted` | anchor-programs/programs/anchor-programs/src/instructions/place_trade.rs:50-52 | success does not depend on trade type, amount or price |
| `TradeIntents.PlacePreservesValid` | anchor-programs/programs/anchor-programs/src/instructions/place_trade.rs:45-58 | placement keeps every record at its derived address |
| `Deposit.DepositTokens` | anchor-programs/programs/anchor-programs/src/instructions/deposit_tokens.rs:5-31 | succeeds exactly when the accounts load and the user-signed transfer is allowed; an account that does not load fails with AccountNotInitialized; never raises a program error, and the runtime never refuses the call, because the user signed the transaction; on success only the two balances move |
| `Deposit.DepositInsufficientFails` | anchor-programs/programs/anchor-programs/src/instructions/deposit_tokens.rs:30 | a deposit larger than the user's balance fails with InsufficientFunds |
| `Deposit.DepositMovesAmount` | anchor-programs/programs/anchor-programs/src/instructions/deposit_tokens.rs:24-30 | the user's balance falls by the amount and the vault account's rises by it |
| `Deposit.DepositZeroIsNoOp` | anchor-programs/programs/anchor-programs/src/instructions/deposit_tokens.rs:20-30 | a zero deposit that passes the checks leaves the state unchanged |
| `Deposit.DepositConservesSupply` | anchor-programs/programs/anchor-programs/src/instructions/deposit_tokens.rs:24-30 | a deposit leaves every mint's total balance unchanged |
| `Deposit.DepositPreservesValid` | anchor-programs/programs/anchor-programs/src/instructions/deposit_tokens.rs:20-31 | a deposit keeps the validity invariant |
| `Withdraw.WithdrawSignedBy` | anchor-programs/programs/anchor-programs/src/instructions/withdraw_tokens.rs:30-40 | the vault-authorised transfer succeeds exactly when the token program allows it with the user and the program address of the seeds as signers; a vault that is neither fails with PrivilegeEscalation whatever the balances; on success only the two balances move |
| `Withdraw.WithdrawTokens` | anchor-programs/programs/anchor-programs/src/instructions/withdraw_tokens.rs:22-42 | succeeds exactly when the accounts load and the token program allows the vault-authorised transfer with the user and the program address of ("vault", market key, vault bump) as signers; fails with AccountNotInitialized when an account does not load, and otherwise with PrivilegeEscalation when the vault is not signed for; never raises a program error; on success only the vault account and the user's account move |
| `Withdraw.WithdrawSignsForMarketSeededVault` | anchor-programs/programs/anchor-programs/src/instructions/withdraw_tokens.rs:26-40 | a vault at the program address of ("vault", market key, bump) is paid out from whenever funds and accounts are in order; the vault account falls by the amount and the user's rises by it |
| `Withdraw.WithdrawNeverSignsForTradeVault` | anchor-programs/programs/anchor-programs/src/instructions/withdraw_tokens.rs:26-29 | a vault at a ("vault", token_a, token_b, mint, bump) address is never signed for; once the accounts load, the withdrawal fails with PrivilegeEscalation whatever the balances |
| `Withdraw.WithdrawTokensFixed` | anchor-programs/programs/anchor-programs/src/instructions/withdraw_tokens.rs:26-40 | succeeds exactly when the accounts load and the token program allows the transfer with the program address of ("vault", token_a, token_b, vault token, vault bump) as signer; otherwise the same failure and effect contract as `Withdraw.WithdrawTokens` |
| `Withdraw.FixedWithdrawSignsForTradeVault` | anchor-programs/programs/anchor-programs/src/instructions/withdraw_tokens.rs:26-40 | the corrected withdrawal succeeds from a vault at its derivation address when funds and accounts are in order; the vault account falls by the amount and the user's rises by it |
| `Withdraw.WithdrawInsufficientFails` | anchor-programs/programs/anchor-programs/src/instructions/withdraw_tokens.rs:40 | a withdrawal from a vault at the program address of ("vault", market key, bump) that exceeds the vault's balance fails with InsufficientFunds |
| `Withdraw.FixedWithdrawInsufficientFails` | anchor-programs/programs/anchor-programs/src/instructions/withdraw_tokens.rs:40 | a corrected withdrawal from a vault at its derivation address that exceeds the vault's balance fails with InsufficientFunds |
| `Withdraw.WithdrawConservesSupply` | anchor-programs/programs/anchor-programs/src/instructions/withdraw_tokens.rs:30-40 | a withdrawal leaves every mint's total balance unchanged |
| `Withdraw.FixedWithdrawConservesSupply` | anchor-programs/programs/anchor-programs/src/instructions/withdraw_tokens.rs:30-40 | a corrected withdrawal leaves every mint's total balance unchanged |
| `Withdraw.WithdrawPreservesValid` | anchor-programs/programs/anchor-programs/src/instructions/withdraw_tokens.rs:22-42 | a withdrawal keeps the validity invariant |
| `Settlement.Route` | anchor-programs/programs/anchor-programs/src/instructions/execute_trade.rs:96-100 | the resolved pair is the market's pair in one order or the other: type 0 gives (token_a, token_b), and every other type, 2 included, gives (token_b, token_a) |
| `Settlement.ExecuteTrade` | anchor-programs/programs/anchor-programs/src/instructions/execute_trade.rs:9-152 | success implies every constraint held, the mints were the resolved pair, both legs were funded and the trade's agent is the presented agent; the new state is the old one with the four balances moved and the trade removed; a failed account constraint is reported as a constraint error, ahead of the mint check; once admissible, the only failures are token errors; the only program error is InvalidTokenAccounts; the runtime never refuses either leg |
| `Settlement.OutboundSignerIsVaultOut` | anchor-programs/programs/anchor-programs/src/instructions/execute_trade.rs:122-128 | once validation passes, the outbound leg's signing seeds give exactly the out-vault's address |
| `Settlement.ExecuteSucceedsIff` | anchor-programs/programs/anchor-programs/src/instructions/execute_trade.rs:91-141 | settlement succeeds if and only if the accounts are admissible and both legs are funded |
| `Settlement.MismatchedMintsRejected` | anchor-programs/programs/anchor-programs/src/instructions/execute_trade.rs:103-106 | with the constraints met but mints other than the resolved pair, settlement fails with InvalidTokenAccounts before any balance is looked at |
| `Settlement.ExecuteIsAllOrNothing` | anchor-programs/programs/anchor-programs/src/instructions/execute_trade.rs:118-141 | the committed state is either unchanged or fully settled |
| `Settlement.OutboundFailureUndoesInbound` | anchor-programs/programs/anchor-programs/src/instructions/execute_trade.rs:118-141 | in a valid state, when the inbound leg succeeds and the outbound leg fails, the instruction fails with InsufficientFunds and commits nothing, though the inbound leg alone moved funds |
| `Settlement.ExecuteConservesSupply` | anchor-programs/programs/anchor-programs/src/instructions/execute_trade.rs:109-141 | settlement leaves every mint's total balance unchanged |
| `Settlement.ExecuteOnce` | anchor-programs/programs/anchor-programs/src/instructions/execute_trade.rs:13 | once settled, the trade cannot be settled again with any accounts that name it |
| `Settlement.ExecuteMovesFourBalances` | anchor-programs/programs/anchor-programs/src/instructions/execute_trade.rs:109-141 | with four distinct accounts: user-in falls by amount_in, vault-in rises by it, vault-out falls by amount_out, user-out rises by it, and no other balance changes |
| `Settlement.ExecuteIgnoresTradeMarket` | anchor-programs/programs/anchor-programs/src/instructions/execute_trade.rs:13 | whether settlement succeeds does not depend on the market the trade record names |
| `Settlement.ExecuteTradeChecked` | anchor-programs/programs/anchor-programs/src/instructions/execute_trade.rs:13-14 | the corrected settlement: success implies the trade's market and agent are the presented ones, every constraint held and both legs were funded; a failed constraint is a constraint error; once admissible with the matching market, the only failures are token errors; the effect is the same settlement |
| `Settlement.ExecuteCheckedSucceedsIff` | anchor-programs/programs/anchor-programs/src/instructions/execute_trade.rs:13-141 | the corrected settlement succeeds if and only if the accounts are admissible, both legs are funded and the trade names the presented market |
| `Settlement.ExecutePreservesValid` | anchor-programs/programs/anchor-programs/src/instructions/execute_trade.rs:147-148 | settlement keeps the validity invariant |

## Left out

- `lib.rs` is entry-point dispatch and `instructions/mod.rs` only re-exports, so neither is modelled.
- Rent, lamports, account space, payer funding and the refund when an account is closed are left
  out. `init` is modelled as "fails if the address is occupied" and `close` as removing the record.
  Payer funding hides one problem: placement names the agent record as payer, and a program address
  cannot sign for account creation.
- `Addresses.Derive`: the bump search is not modelled. It always returns the first candidate, 255,
  because the curve test behind the search is a hash the model does not compute. No property
  depends on the value.
- The real address hash is not modelled. `Pda(seeds)` stands for it and is injective by
  construction, because the program relies on distinct seeds giving distinct addresses. The program
  id is not part of the seeds, because there is only one program.
- Associated-token-account addresses are not modelled. Each token account carries its mint and
  authority as explicit fields, so two accounts may share a (mint, authority) pair.
- `TokenProgram.Transfer`: balances are unbounded naturals and the destination overflow check is
  not modelled. It cannot fire while a mint's supply fits in 64 bits, which the token program
  enforces when minting.
- `TokenProgram.Transfer`: delegates and frozen accounts are not modelled. Only the owner is accepted
  as authority, and no account is frozen. None of the program's instructions approves a delegate or
  freezes an account.
- `Withdraw.WithdrawNeverSignsForTradeVault`: the runtime's curve test on signer seeds is not
  modelled. The lemma's exact error, PrivilegeEscalation, assumes the three-element tuple with the
  vault's bump lands off the curve. Otherwise the runtime rejects the seeds themselves, with another
  error. Either way the call fails before the token program runs, and the withdrawal fails.
- Mutability markers (`mut`), discriminators and account ownership by the program are not
  modelled. They are folded into "the address holds a record of that type".
- `msg!` logging and the commented-out agent balance placeholder are left out; they have no
  behaviour.

## Findings

| source | as written | input that shows it | evidently intended | confidence | as-written member | corrected member |
|---|---|---|---|---|---|---|
| anchor-programs/programs/anchor-programs/src/instructions/withdraw_tokens.rs:26-29 | signs for the vault with ("vault", market key, bump) | any vault that settlement accepts sits at ("vault", token_a, token_b, mint, bump), a five-element tuple, so the three-element signing tuple names another address and the runtime refuses every withdrawal from it with PrivilegeEscalation, before the token program reads a balance | sign with the seeds the vault is derived from, as settlement does at execute_trade.rs:122-128 | medium, not executed | `Withdraw.WithdrawTokens`, shown by `Withdraw.WithdrawNeverSignsForTradeVault` | `Withdraw.WithdrawTokensFixed`, proved by `Withdraw.FixedWithdrawSignsForTradeVault` |
| anchor-programs/programs/anchor-programs/src/instructions/execute_trade.rs:13 | the trade account is constrained by `has_one = agent` only, never by its market | a trade placed in market M1 is settled with market M2's record and M2's vaults presented; the outcome is the same as for a trade that names M2 | reject a trade whose stored market is not the presented market, as the agent is checked | medium, not executed | `Settlement.ExecuteTrade`, shown by `Settlement.ExecuteIgnoresTradeMarket` | `Settlement.ExecuteTradeChecked`, proved by `Settlement.ExecuteCheckedSucceedsIff` |
