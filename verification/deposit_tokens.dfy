/** `deposit_tokens`: a user-signed transfer into a vault token account. */
module Deposit {
  import opened Numbers
  import opened Addresses
  import opened Errors
  import opened Accounts
  import opened TokenProgram

  /** The accounts the instruction is given. */
  datatype DepositAccounts = DepositAccounts(
    agent: Address,
    market: Address,
    user: Signer,
    userTokenAccount: Address,
    vaultTokenAccount: Address)

  /** Every typed account holds a record of its type. */
  predicate Loaded(st: State, a: DepositAccounts)
  {
    && a.agent in st.agents
    && a.market in st.markets
    && a.userTokenAccount in st.tokenAccounts
    && a.vaultTokenAccount in st.tokenAccounts
  }

  /** Move `amount` from the user's token account to the given vault token
      account, signed by the user. Neither the agent, the market, the mint nor
      the destination is checked against anything, and a zero amount is allowed;
      the only failures are unloaded accounts and the transfer's own: the user
      signed the transaction, so the runtime always lets the call through. */
  function DepositTokens(st: State, a: DepositAccounts, amount: u64): (r: Result<State>)
    ensures r.Ok? <==> Loaded(st, a) && TransferAllowed(st.tokenAccounts, st.ledger,
                          a.userTokenAccount, a.vaultTokenAccount, a.user, {a.user}, amount)
    ensures !Loaded(st, a) ==> r == Err(Constraint(AccountNotInitialized))
    ensures r.Err? ==> !r.error.Program? && !r.error.Runtime?
    ensures r.Ok? ==> r.value.(ledger := st.ledger) == st
    ensures r.Ok? ==> r.value.ledger.Keys == st.ledger.Keys
    ensures r.Ok? ==> forall k :: k in st.ledger ==>
      r.value.ledger[k] == st.ledger[k] + Net(k, a.userTokenAccount, a.vaultTokenAccount, amount)
  {
    if !Loaded(st, a) then Err(Constraint(AccountNotInitialized))
    else
      var l :- InvokeTransfer(st.tokenAccounts, st.ledger, a.userTokenAccount, a.vaultTokenAccount, a.user, {a.user}, amount);
      Ok(st.(ledger := l))
  }

  /** A deposit the user's balance cannot cover fails. */
  lemma DepositInsufficientFails(st: State, a: DepositAccounts, amount: u64)
    requires Loaded(st, a)
    requires a.userTokenAccount in st.ledger && a.vaultTokenAccount in st.ledger
    requires st.ledger[a.userTokenAccount] < amount
    ensures DepositTokens(st, a, amount) == Err(Token(InsufficientFunds))
  {
  }

  /** The user's balance drops by `amount`, the vault's rises by `amount`. */
  lemma DepositMovesAmount(st: State, a: DepositAccounts, amount: u64)
    requires DepositTokens(st, a, amount).Ok?
    requires a.userTokenAccount != a.vaultTokenAccount
    ensures DepositTokens(st, a, amount).value.ledger[a.userTokenAccount] == st.ledger[a.userTokenAccount] - amount
    ensures DepositTokens(st, a, amount).value.ledger[a.vaultTokenAccount] == st.ledger[a.vaultTokenAccount] + amount
  {
  }

  /** A zero deposit that passes the checks changes nothing. */
  lemma DepositZeroIsNoOp(st: State, a: DepositAccounts)
    requires DepositTokens(st, a, 0).Ok?
    ensures DepositTokens(st, a, 0).value == st
  {
  }

  lemma DepositConservesSupply(st: State, a: DepositAccounts, amount: u64, mint: Address)
    requires DepositTokens(st, a, amount).Ok?
    ensures Supply(st.tokenAccounts, DepositTokens(st, a, amount).value.ledger, mint)
         == Supply(st.tokenAccounts, st.ledger, mint)
  {
    InvokeConservesSupply(st.tokenAccounts, st.ledger, a.userTokenAccount, a.vaultTokenAccount,
                          a.user, {a.user}, amount, mint);
  }

  lemma DepositPreservesValid(st: State, a: DepositAccounts, amount: u64)
    requires Valid(st)
    requires DepositTokens(st, a, amount).Ok?
    ensures Valid(DepositTokens(st, a, amount).value)
  {
  }
}
