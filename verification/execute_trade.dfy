/** `execute_trade`: validate a placed trade against its market and vaults,
    settle it with two transfers, and retire the trade record. */
module Settlement {
  import opened Numbers
  import opened Addresses
  import opened Errors
  import opened Accounts
  import opened TokenProgram

  datatype ExecuteAccounts = ExecuteAccounts(
    trade: Address,
    market: Address,
    agent: Address,
    user: Signer,
    tokenInMint: Address,
    tokenOutMint: Address,
    userIn: Address,
    userOut: Address,
    vaultIn: Address,
    vaultTokenIn: Address,
    vaultOut: Address,
    vaultTokenOut: Address)

  /** The trade record has no `amount_in` / `amount_out` fields; the settlement
      reads them as the stored `amount` and `price`, the order in which
      placement takes them. */
  function AmountIn(t: Trade): nat { t.amount }

  function AmountOut(t: Trade): nat { t.price }

  /** The (in, out) mints of a trade: type 0 buys token B with token A; every
      other value, 2 and 255 included, sells token B for token A. */
  function Route(tradeType: u8, m: Market): (r: (Address, Address))
    ensures r == (m.tokenA, m.tokenB) || r == (m.tokenB, m.tokenA)
    ensures tradeType == 0 ==> r.0 == m.tokenA && r.1 == m.tokenB
    ensures tradeType != 0 ==> r.0 == m.tokenB && r.1 == m.tokenA
  {
    if tradeType == 0 then (m.tokenA, m.tokenB) else (m.tokenB, m.tokenA)
  }

  /** The address a vault of market `m` for `mint` must sit at, given its stored bump. */
  function VaultAddress(m: Market, mint: Address, bump: u8): Address
  {
    ProgramAddress(VaultSeeds(m.tokenA, m.tokenB, mint) + [BumpOf(bump)])
  }

  /** The seeds the settlement signs the outbound leg with. */
  function OutboundSignerSeeds(m: Market, tokenOut: Address, bump: u8): seq<Seed>
  {
    [Tag("vault"), KeyOf(m.tokenA), KeyOf(m.tokenB), KeyOf(tokenOut), BumpOf(bump)]
  }

  /** Every typed account holds a record of its type. */
  predicate Loaded(st: State, a: ExecuteAccounts)
  {
    && a.trade in st.trades
    && a.market in st.markets
    && a.agent in st.agents
    && a.tokenInMint in st.mints
    && a.tokenOutMint in st.mints
    && a.userIn in st.tokenAccounts
    && a.userOut in st.tokenAccounts
    && a.vaultIn in st.vaults
    && a.vaultTokenIn in st.tokenAccounts
    && a.vaultOut in st.vaults
    && a.vaultTokenOut in st.tokenAccounts
  }

  /** Token account `k` holds `mint` and is controlled by `authority`. */
  predicate HeldBy(st: State, k: Address, mint: Address, authority: Address)
    requires k in st.tokenAccounts
  {
    st.tokenAccounts[k] == TokenAccount(mint, authority)
  }

  /** Vault `v` is the market's vault for `mint`, at the address derived for it. */
  predicate VaultOf(st: State, market: Address, v: Address, mint: Address)
    requires market in st.markets && v in st.vaults
  {
    && v == VaultAddress(st.markets[market], mint, st.vaults[v].bump)
    && st.vaults[v].market == market
    && st.vaults[v].token == mint
  }

  /** The account constraints of the instruction, all together. */
  predicate ConstraintsHold(st: State, a: ExecuteAccounts)
  {
    && Loaded(st, a)
    && st.trades[a.trade].agent == a.agent
    && HeldBy(st, a.userIn, a.tokenInMint, a.user)
    && HeldBy(st, a.userOut, a.tokenOutMint, a.user)
    && VaultOf(st, a.market, a.vaultIn, a.tokenInMint)
    && HeldBy(st, a.vaultTokenIn, a.tokenInMint, a.vaultIn)
    && VaultOf(st, a.market, a.vaultOut, a.tokenOutMint)
    && HeldBy(st, a.vaultTokenOut, a.tokenOutMint, a.vaultOut)
  }

  /** Everything the settlement validates before moving a balance: the
      constraints, and that the presented mints are the pair the trade resolves to. */
  predicate Admissible(st: State, a: ExecuteAccounts)
  {
    && ConstraintsHold(st, a)
    && (a.tokenInMint, a.tokenOutMint) == Route(st.trades[a.trade].tradeType, st.markets[a.market])
  }

  /** The user holds `amount_in` and, after the inbound leg, the out-vault holds `amount_out`. */
  predicate FundsSuffice(st: State, a: ExecuteAccounts)
    requires a.trade in st.trades
  {
    var t := st.trades[a.trade];
    && a.userIn in st.ledger && a.vaultTokenIn in st.ledger
    && a.vaultTokenOut in st.ledger && a.userOut in st.ledger
    && AmountIn(t) <= st.ledger[a.userIn]
    && AmountOut(t) <= st.ledger[a.vaultTokenOut] + Net(a.vaultTokenOut, a.userIn, a.vaultTokenIn, AmountIn(t))
  }

  /** `post` is `st` settled for trade `tradeKey`: every balance moves by the
      inbound leg (`amountIn` from userIn to vaultTokenIn) plus the outbound leg
      (`amountOut` from vaultTokenOut to userOut), the trade is gone, and
      nothing else changes. */
  ghost predicate Settled(st: State, post: State, tradeKey: Address, amountIn: nat, amountOut: nat,
                          userIn: Address, vaultTokenIn: Address, vaultTokenOut: Address, userOut: Address)
  {
    && post.ledger.Keys == st.ledger.Keys
    && (forall k :: k in st.ledger ==>
          post.ledger[k] == st.ledger[k] + Net(k, userIn, vaultTokenIn, amountIn)
                                         + Net(k, vaultTokenOut, userOut, amountOut))
    && post.trades == st.trades - {tradeKey}
    && post.(ledger := st.ledger, trades := st.trades) == st
  }

  /** The inbound leg: the user pays `amount_in` into the in-vault, signing for themself. */
  function InboundLeg(st: State, a: ExecuteAccounts, t: Trade): Result<Ledger>
  {
    InvokeTransfer(st.tokenAccounts, st.ledger, a.userIn, a.vaultTokenIn, a.user, {a.user}, AmountIn(t))
  }

  /** The outbound leg on the ledger the inbound leg left: the out-vault pays
      `amount_out` to the user, signed for with the vault's seeds. */
  function OutboundLeg(st: State, a: ExecuteAccounts, t: Trade, m: Market, tokenOut: Address, l: Ledger): Result<Ledger>
    requires a.vaultOut in st.vaults
  {
    var signer := ProgramAddress(OutboundSignerSeeds(m, tokenOut, st.vaults[a.vaultOut].bump));
    InvokeTransfer(st.tokenAccounts, l, a.vaultTokenOut, a.userOut, a.vaultOut, {a.user, signer}, AmountOut(t))
  }

  /** The instruction: account constraints in declaration order, the direction
      and mint check, the two legs, then the trade record is closed. The host
      commits the result only when every step succeeds. */
  function ExecuteTrade(st: State, a: ExecuteAccounts): (r: Result<State>)
    ensures r.Ok? ==> Admissible(st, a) && FundsSuffice(st, a)
    ensures r.Ok? ==> st.trades[a.trade].agent == a.agent
    ensures r.Ok? ==> var t := st.trades[a.trade];
      Settled(st, r.value, a.trade, AmountIn(t), AmountOut(t), a.userIn, a.vaultTokenIn, a.vaultTokenOut, a.userOut)
    ensures !ConstraintsHold(st, a) ==> r.Err? && r.error.Constraint?
    ensures Admissible(st, a) && r.Err? ==> r.error.Token?
    ensures r.Err? && r.error.Program? ==> r.error.code == InvalidTokenAccounts
    ensures r.Err? ==> !r.error.Runtime?
  {
    if !Loaded(st, a) then Err(Constraint(AccountNotInitialized))
    else
      var t := st.trades[a.trade];
      var m := st.markets[a.market];
      var userIn := st.tokenAccounts[a.userIn];
      var userOut := st.tokenAccounts[a.userOut];
      var vaultIn := st.vaults[a.vaultIn];
      var vaultTokenIn := st.tokenAccounts[a.vaultTokenIn];
      var vaultOut := st.vaults[a.vaultOut];
      var vaultTokenOut := st.tokenAccounts[a.vaultTokenOut];
      if t.agent != a.agent then Err(Constraint(ConstraintHasOne))
      else if userIn.mint != a.tokenInMint then Err(Constraint(ConstraintTokenMint))
      else if userIn.authority != a.user then Err(Constraint(ConstraintTokenOwner))
      else if userOut.mint != a.tokenOutMint || userOut.authority != a.user then Err(Constraint(ConstraintAssociated))
      else if a.vaultIn != VaultAddress(m, a.tokenInMint, vaultIn.bump) then Err(Constraint(ConstraintSeeds))
      else if vaultIn.market != a.market || vaultIn.token != a.tokenInMint then Err(Constraint(ConstraintHasOne))
      else if vaultTokenIn.mint != a.tokenInMint || vaultTokenIn.authority != a.vaultIn then Err(Constraint(ConstraintAssociated))
      else if a.vaultOut != VaultAddress(m, a.tokenOutMint, vaultOut.bump) then Err(Constraint(ConstraintSeeds))
      else if vaultOut.market != a.market || vaultOut.token != a.tokenOutMint then Err(Constraint(ConstraintHasOne))
      else if vaultTokenOut.mint != a.tokenOutMint || vaultTokenOut.authority != a.vaultOut then Err(Constraint(ConstraintAssociated))
      else
        var route := Route(t.tradeType, m);
        if a.tokenInMint != route.0 || a.tokenOutMint != route.1 then Err(Program(InvalidTokenAccounts))
        else
          var afterIn :- InboundLeg(st, a, t);
          OutboundSignerIsVaultOut(st, a);
          var afterOut :- OutboundLeg(st, a, t, m, route.1, afterIn);
          Ok(st.(ledger := afterOut, trades := st.trades - {a.trade}))
  }

  /** Once the checks pass, the outbound leg's signing seeds are exactly the
      seeds the out-vault is derived from, so its signature never fails. */
  lemma OutboundSignerIsVaultOut(st: State, a: ExecuteAccounts)
    requires Admissible(st, a)
    ensures var m := st.markets[a.market];
      var tokenOut := Route(st.trades[a.trade].tradeType, m).1;
      ProgramAddress(OutboundSignerSeeds(m, tokenOut, st.vaults[a.vaultOut].bump)) == a.vaultOut
  {
  }

  /** Settlement succeeds exactly when the trade is admissible and both legs are funded. */
  lemma ExecuteSucceedsIff(st: State, a: ExecuteAccounts)
    ensures ExecuteTrade(st, a).Ok? <==> Admissible(st, a) && FundsSuffice(st, a)
  {
    if Admissible(st, a) && FundsSuffice(st, a) {
      var t := st.trades[a.trade];
      var m := st.markets[a.market];
      var route := Route(t.tradeType, m);
      assert InboundLeg(st, a, t).Ok?;
      var afterIn := InboundLeg(st, a, t).value;
      OutboundSignerIsVaultOut(st, a);
      assert OutboundLeg(st, a, t, m, route.1, afterIn).Ok?;
    }
  }

  /** With the constraints met but the presented mints not the resolved pair,
      settlement fails with InvalidTokenAccounts, whatever the balances. */
  lemma MismatchedMintsRejected(st: State, a: ExecuteAccounts)
    requires ConstraintsHold(st, a)
    requires (a.tokenInMint, a.tokenOutMint) != Route(st.trades[a.trade].tradeType, st.markets[a.market])
    ensures ExecuteTrade(st, a) == Err(Program(InvalidTokenAccounts))
  {
  }

  /** All or nothing: after the host commits, the ledger is either untouched or
      fully settled; a failed outbound leg leaves no trace of the inbound one. */
  lemma ExecuteIsAllOrNothing(st: State, a: ExecuteAccounts)
    ensures var post := Commit(st, ExecuteTrade(st, a));
      || post == st
      || (a.trade in st.trades &&
          var t := st.trades[a.trade];
          Settled(st, post, a.trade, AmountIn(t), AmountOut(t), a.userIn, a.vaultTokenIn, a.vaultTokenOut, a.userOut))
  {
  }

  /** When the inbound leg would succeed but the outbound leg then fails, the
      instruction fails with the outbound leg's error and the committed state is
      the one before it, although the inbound leg alone would have moved funds.
      In a valid state every token account has a balance, so the outbound leg
      can only fail for want of funds. */
  lemma OutboundFailureUndoesInbound(st: State, a: ExecuteAccounts)
    requires Valid(st)
    requires Admissible(st, a)
    requires InboundLeg(st, a, st.trades[a.trade]).Ok?
    requires var t := st.trades[a.trade];
      var m := st.markets[a.market];
      OutboundLeg(st, a, t, m, Route(t.tradeType, m).1, InboundLeg(st, a, t).value).Err?
    ensures ExecuteTrade(st, a).Err? && ExecuteTrade(st, a).error == Token(InsufficientFunds)
    ensures Commit(st, ExecuteTrade(st, a)) == st
    ensures AmountIn(st.trades[a.trade]) > 0 && a.userIn != a.vaultTokenIn ==>
      InboundLeg(st, a, st.trades[a.trade]).value != st.ledger
  {
    var t := st.trades[a.trade];
    var l := InboundLeg(st, a, t).value;
    OutboundSignerIsVaultOut(st, a);
    if AmountIn(t) > 0 && a.userIn != a.vaultTokenIn {
      assert l[a.userIn] == st.ledger[a.userIn] - AmountIn(t);
    }
  }

  /** Each leg moves tokens between two accounts of one mint, so settlement
      conserves the total balance of every mint. */
  lemma ExecuteConservesSupply(st: State, a: ExecuteAccounts, mint: Address)
    requires ExecuteTrade(st, a).Ok?
    ensures Supply(st.tokenAccounts, ExecuteTrade(st, a).value.ledger, mint) == Supply(st.tokenAccounts, st.ledger, mint)
  {
    var t := st.trades[a.trade];
    var m := st.markets[a.market];
    var route := Route(t.tradeType, m);
    var signer := ProgramAddress(OutboundSignerSeeds(m, route.1, st.vaults[a.vaultOut].bump));
    var afterIn := InboundLeg(st, a, t).value;
    InvokeConservesSupply(st.tokenAccounts, st.ledger, a.userIn, a.vaultTokenIn, a.user, {a.user}, AmountIn(t), mint);
    InvokeConservesSupply(st.tokenAccounts, afterIn, a.vaultTokenOut, a.userOut, a.vaultOut,
                          {a.user, signer}, AmountOut(t), mint);
  }

  /** A settled trade is gone, so no set of accounts naming it can settle it again. */
  lemma ExecuteOnce(st: State, a: ExecuteAccounts, b: ExecuteAccounts)
    requires ExecuteTrade(st, a).Ok?
    requires b.trade == a.trade
    ensures ExecuteTrade(ExecuteTrade(st, a).value, b) == Err(Constraint(AccountNotInitialized))
  {
  }

  /** When the four accounts are distinct, exactly the four balances the
      settlement names change, each by its leg's amount. */
  lemma ExecuteMovesFourBalances(st: State, a: ExecuteAccounts)
    requires ExecuteTrade(st, a).Ok?
    requires |{a.userIn, a.vaultTokenIn, a.vaultTokenOut, a.userOut}| == 4
    ensures var t := st.trades[a.trade];
      var l := ExecuteTrade(st, a).value.ledger;
      && l[a.userIn] == st.ledger[a.userIn] - AmountIn(t)
      && l[a.vaultTokenIn] == st.ledger[a.vaultTokenIn] + AmountIn(t)
      && l[a.vaultTokenOut] == st.ledger[a.vaultTokenOut] - AmountOut(t)
      && l[a.userOut] == st.ledger[a.userOut] + AmountOut(t)
      && forall k :: k in st.ledger && k !in {a.userIn, a.vaultTokenIn, a.vaultTokenOut, a.userOut} ==> l[k] == st.ledger[k]
  {
  }

  /** The trade's own market is never compared with the presented market: a
      trade record that names any other market settles, or fails, exactly as
      one that names the presented market. */
  lemma ExecuteIgnoresTradeMarket(st: State, a: ExecuteAccounts, other: Address)
    requires a.trade in st.trades
    ensures var moved := st.(trades := st.trades[a.trade := st.trades[a.trade].(market := other)]);
      ExecuteTrade(moved, a).Ok? <==> ExecuteTrade(st, a).Ok?
  {
  }

  /** Settlement with the trade's market checked as well as its agent, the way
      the trade account's constraints check `has_one = agent`. */
  function ExecuteTradeChecked(st: State, a: ExecuteAccounts): (r: Result<State>)
    ensures r.Ok? ==> Admissible(st, a) && FundsSuffice(st, a)
    ensures r.Ok? ==> st.trades[a.trade].market == a.market && st.trades[a.trade].agent == a.agent
    ensures r.Ok? ==> var t := st.trades[a.trade];
      Settled(st, r.value, a.trade, AmountIn(t), AmountOut(t), a.userIn, a.vaultTokenIn, a.vaultTokenOut, a.userOut)
    ensures !ConstraintsHold(st, a) ==> r.Err? && r.error.Constraint?
    ensures Admissible(st, a) && st.trades[a.trade].market == a.market && r.Err? ==> r.error.Token?
    ensures r.Err? && r.error.Program? ==> r.error.code == InvalidTokenAccounts
    ensures r.Err? ==> !r.error.Runtime?
  {
    if Loaded(st, a) && st.trades[a.trade].market != a.market then Err(Constraint(ConstraintHasOne))
    else ExecuteTrade(st, a)
  }

  /** The corrected settlement succeeds exactly when the trade belongs to the
      presented market, the accounts are admissible and both legs are funded. */
  lemma ExecuteCheckedSucceedsIff(st: State, a: ExecuteAccounts)
    ensures ExecuteTradeChecked(st, a).Ok?
        <==> Admissible(st, a) && FundsSuffice(st, a) && st.trades[a.trade].market == a.market
  {
    ExecuteSucceedsIff(st, a);
  }

  lemma ExecutePreservesValid(st: State, a: ExecuteAccounts)
    requires Valid(st)
    requires ExecuteTrade(st, a).Ok?
    ensures Valid(ExecuteTrade(st, a).value)
  {
  }
}
