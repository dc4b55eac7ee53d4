/** `withdraw_tokens`: a transfer out of a vault token account, signed for the
    vault with program-address seeds. */
module Withdraw {
  import opened Numbers
  import opened Addresses
  import opened Errors
  import opened Accounts
  import opened TokenProgram

  datatype WithdrawAccounts = WithdrawAccounts(
    agent: Address,
    market: Address,
    user: Signer,
    userTokenAccount: Address,
    vault: Address,
    vaultTokenAccount: Address)

  predicate Loaded(st: State, a: WithdrawAccounts)
  {
    && a.agent in st.agents
    && a.market in st.markets
    && a.userTokenAccount in st.tokenAccounts
    && a.vault in st.vaults
    && a.vaultTokenAccount in st.tokenAccounts
  }

  /** The seeds the instruction signs with: ("vault", market key, vault bump). */
  function WithdrawSignerSeeds(market: Address, bump: u8): seq<Seed>
  {
    [Tag("vault"), KeyOf(market), BumpOf(bump)]
  }

  /** The seeds a vault of the presented market for its own mint is derived from,
      the same tuple the settlement constraints check. */
  function VaultSignerSeeds(m: Market, v: Vault): seq<Seed>
  {
    VaultSeeds(m.tokenA, m.tokenB, v.token) + [BumpOf(v.bump)]
  }

  /** The transfer both withdrawal variants perform: `amount` from the vault token
      account to the user's, with the vault as authority and the program address
      of `seeds` (besides the user) as signer. The runtime checks that the vault
      is signed for before the token program reads a balance. */
  function WithdrawSignedBy(st: State, a: WithdrawAccounts, seeds: seq<Seed>, amount: u64): (r: Result<State>)
    requires Loaded(st, a)
    ensures r.Ok? <==> TransferAllowed(st.tokenAccounts, st.ledger, a.vaultTokenAccount, a.userTokenAccount,
                                       a.vault, {a.user, ProgramAddress(seeds)}, amount)
    ensures a.vault !in {a.user, ProgramAddress(seeds)} ==> r == Err(Runtime(PrivilegeEscalation))
    ensures r.Err? ==> r.error.Token? || r.error == Runtime(PrivilegeEscalation)
    ensures r.Ok? ==> r.value.(ledger := st.ledger) == st
    ensures r.Ok? ==> r.value.ledger.Keys == st.ledger.Keys
    ensures r.Ok? ==> forall k :: k in st.ledger ==>
      r.value.ledger[k] == st.ledger[k] + Net(k, a.vaultTokenAccount, a.userTokenAccount, amount)
  {
    var l :- InvokeTransfer(st.tokenAccounts, st.ledger, a.vaultTokenAccount, a.userTokenAccount,
                            a.vault, {a.user, ProgramAddress(seeds)}, amount);
    Ok(st.(ledger := l))
  }

  /** The instruction as written: it signs with ("vault", market key, bump). No
      agent owner, vault or mint check is made, so none of the program's own
      errors is ever raised. */
  function WithdrawTokens(st: State, a: WithdrawAccounts, amount: u64): (r: Result<State>)
    ensures r.Ok? <==> Loaded(st, a) && TransferAllowed(st.tokenAccounts, st.ledger, a.vaultTokenAccount,
                          a.userTokenAccount, a.vault,
                          {a.user, ProgramAddress(WithdrawSignerSeeds(a.market, st.vaults[a.vault].bump))}, amount)
    ensures !Loaded(st, a) ==> r == Err(Constraint(AccountNotInitialized))
    ensures Loaded(st, a) && a.vault !in {a.user, ProgramAddress(WithdrawSignerSeeds(a.market, st.vaults[a.vault].bump))}
        ==> r == Err(Runtime(PrivilegeEscalation))
    ensures r.Err? ==> !r.error.Program?
    ensures r.Ok? ==> r.value.(ledger := st.ledger) == st
    ensures r.Ok? ==> r.value.ledger.Keys == st.ledger.Keys
    ensures r.Ok? ==> forall k :: k in st.ledger ==>
      r.value.ledger[k] == st.ledger[k] + Net(k, a.vaultTokenAccount, a.userTokenAccount, amount)
  {
    if !Loaded(st, a) then Err(Constraint(AccountNotInitialized))
    else WithdrawSignedBy(st, a, WithdrawSignerSeeds(a.market, st.vaults[a.vault].bump), amount)
  }

  /** The withdrawal signing with the seeds the vault is derived from. */
  function WithdrawTokensFixed(st: State, a: WithdrawAccounts, amount: u64): (r: Result<State>)
    ensures r.Ok? <==> Loaded(st, a) && TransferAllowed(st.tokenAccounts, st.ledger, a.vaultTokenAccount,
                          a.userTokenAccount, a.vault,
                          {a.user, ProgramAddress(VaultSignerSeeds(st.markets[a.market], st.vaults[a.vault]))}, amount)
    ensures !Loaded(st, a) ==> r == Err(Constraint(AccountNotInitialized))
    ensures Loaded(st, a) && a.vault !in {a.user, ProgramAddress(VaultSignerSeeds(st.markets[a.market], st.vaults[a.vault]))}
        ==> r == Err(Runtime(PrivilegeEscalation))
    ensures r.Err? ==> !r.error.Program?
    ensures r.Ok? ==> r.value.(ledger := st.ledger) == st
    ensures r.Ok? ==> r.value.ledger.Keys == st.ledger.Keys
    ensures r.Ok? ==> forall k :: k in st.ledger ==>
      r.value.ledger[k] == st.ledger[k] + Net(k, a.vaultTokenAccount, a.userTokenAccount, amount)
  {
    if !Loaded(st, a) then Err(Constraint(AccountNotInitialized))
    else WithdrawSignedBy(st, a, VaultSignerSeeds(st.markets[a.market], st.vaults[a.vault]), amount)
  }

  /** The conditions under which only the vault's signature is in question:
      the accounts load, the vault owns its token account, both token accounts
      hold the same mint and the vault holds enough. */
  predicate OtherwiseWithdrawable(st: State, a: WithdrawAccounts, amount: u64)
  {
    && Loaded(st, a)
    && a.vaultTokenAccount in st.ledger && a.userTokenAccount in st.ledger
    && amount <= st.ledger[a.vaultTokenAccount]
    && st.tokenAccounts[a.vaultTokenAccount].mint == st.tokenAccounts[a.userTokenAccount].mint
    && st.tokenAccounts[a.vaultTokenAccount].authority == a.vault
  }

  /** The instruction as written pays out from a vault that sits at the program
      address of ("vault", market key, bump) whenever the funds and accounts are
      in order; the vault account falls by the amount and the user's rises by it. */
  lemma WithdrawSignsForMarketSeededVault(st: State, a: WithdrawAccounts, amount: u64)
    requires OtherwiseWithdrawable(st, a, amount)
    requires a.vault == ProgramAddress(WithdrawSignerSeeds(a.market, st.vaults[a.vault].bump))
    ensures WithdrawTokens(st, a, amount).Ok?
    ensures a.vaultTokenAccount != a.userTokenAccount ==>
      && WithdrawTokens(st, a, amount).value.ledger[a.vaultTokenAccount] == st.ledger[a.vaultTokenAccount] - amount
      && WithdrawTokens(st, a, amount).value.ledger[a.userTokenAccount] == st.ledger[a.userTokenAccount] + amount
  {
  }

  /** A vault at a settlement-style address ("vault", token_a, token_b, mint, bump)
      can never be signed for by the instruction as written: its three-element
      seed tuple names another address, so once the accounts load the runtime
      refuses the call, whatever the balances. */
  lemma WithdrawNeverSignsForTradeVault(st: State, a: WithdrawAccounts, amount: u64,
                                        tokenA: Address, tokenB: Address, mint: Address, bump: u8)
    requires a.vault == ProgramAddress(VaultSeeds(tokenA, tokenB, mint) + [BumpOf(bump)])
    ensures WithdrawTokens(st, a, amount).Err?
    ensures Loaded(st, a) ==> WithdrawTokens(st, a, amount) == Err(Runtime(PrivilegeEscalation))
  {
  }

  /** The corrected withdrawal pays out from a vault at its settlement address
      whenever the funds and accounts are in order. */
  lemma FixedWithdrawSignsForTradeVault(st: State, a: WithdrawAccounts, amount: u64)
    requires OtherwiseWithdrawable(st, a, amount)
    requires a.vault == ProgramAddress(VaultSignerSeeds(st.markets[a.market], st.vaults[a.vault]))
    ensures WithdrawTokensFixed(st, a, amount).Ok?
    ensures a.vaultTokenAccount != a.userTokenAccount ==>
      && WithdrawTokensFixed(st, a, amount).value.ledger[a.vaultTokenAccount] == st.ledger[a.vaultTokenAccount] - amount
      && WithdrawTokensFixed(st, a, amount).value.ledger[a.userTokenAccount] == st.ledger[a.userTokenAccount] + amount
  {
  }

  /** A withdrawal, as written, from a vault its seeds sign for fails when the
      vault's balance cannot cover it. */
  lemma WithdrawInsufficientFails(st: State, a: WithdrawAccounts, amount: u64)
    requires Loaded(st, a)
    requires a.vault == ProgramAddress(WithdrawSignerSeeds(a.market, st.vaults[a.vault].bump))
    requires a.vaultTokenAccount in st.ledger && a.userTokenAccount in st.ledger
    requires st.ledger[a.vaultTokenAccount] < amount
    ensures WithdrawTokens(st, a, amount) == Err(Token(InsufficientFunds))
  {
  }

  /** A corrected withdrawal from a vault at its derivation address fails when
      the vault's balance cannot cover it. */
  lemma FixedWithdrawInsufficientFails(st: State, a: WithdrawAccounts, amount: u64)
    requires Loaded(st, a)
    requires a.vault == ProgramAddress(VaultSignerSeeds(st.markets[a.market], st.vaults[a.vault]))
    requires a.vaultTokenAccount in st.ledger && a.userTokenAccount in st.ledger
    requires st.ledger[a.vaultTokenAccount] < amount
    ensures WithdrawTokensFixed(st, a, amount) == Err(Token(InsufficientFunds))
  {
  }

  lemma WithdrawConservesSupply(st: State, a: WithdrawAccounts, amount: u64, mint: Address)
    requires WithdrawTokens(st, a, amount).Ok?
    ensures Supply(st.tokenAccounts, WithdrawTokens(st, a, amount).value.ledger, mint)
         == Supply(st.tokenAccounts, st.ledger, mint)
  {
    var seeds := WithdrawSignerSeeds(a.market, st.vaults[a.vault].bump);
    InvokeConservesSupply(st.tokenAccounts, st.ledger, a.vaultTokenAccount, a.userTokenAccount,
                          a.vault, {a.user, ProgramAddress(seeds)}, amount, mint);
  }

  lemma FixedWithdrawConservesSupply(st: State, a: WithdrawAccounts, amount: u64, mint: Address)
    requires WithdrawTokensFixed(st, a, amount).Ok?
    ensures Supply(st.tokenAccounts, WithdrawTokensFixed(st, a, amount).value.ledger, mint)
         == Supply(st.tokenAccounts, st.ledger, mint)
  {
    var seeds := VaultSignerSeeds(st.markets[a.market], st.vaults[a.vault]);
    InvokeConservesSupply(st.tokenAccounts, st.ledger, a.vaultTokenAccount, a.userTokenAccount,
                          a.vault, {a.user, ProgramAddress(seeds)}, amount, mint);
  }

  lemma WithdrawPreservesValid(st: State, a: WithdrawAccounts, amount: u64)
    requires Valid(st)
    requires WithdrawTokens(st, a, amount).Ok?
    ensures Valid(WithdrawTokens(st, a, amount).value)
  {
  }
}
