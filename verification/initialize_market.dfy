/** `initialize_market`: create the Market record for an ordered pair of mints. */
module MarketSetup {
  import opened Addresses
  import opened Errors
  import opened Accounts

  /** Create a Market for (tokenA, tokenB), in that order, at the address derived
      from ("market", tokenA, tokenB). The mint accounts are not inspected, the
      two mints may be equal, and the handler writes only the two mints: the
      record's bump keeps the zero a fresh account starts with. No Vault is created. */
  function InitializeMarket(st: State, tokenA: Address, tokenB: Address): (r: Result<State>)
    ensures r.Ok? <==> !Occupied(st, Derive(MarketSeeds(tokenA, tokenB)).addr)
    ensures r.Err? ==> r.error == Constraint(AccountAlreadyInUse)
    ensures r.Ok? ==> var k := Derive(MarketSeeds(tokenA, tokenB)).addr;
      && r.value.markets.Keys == st.markets.Keys + {k}
      && r.value.markets[k].tokenA == tokenA
      && r.value.markets[k].tokenB == tokenB
      && r.value.markets[k].bump == 0
      && (forall m :: m in st.markets ==> r.value.markets[m] == st.markets[m])
    ensures r.Ok? ==> r.value.(markets := st.markets) == st
  {
    var k := Derive(MarketSeeds(tokenA, tokenB)).addr;
    if Occupied(st, k) then Err(Constraint(AccountAlreadyInUse))
    else Ok(st.(markets := st.markets[k := Market(tokenA, tokenB, 0)]))
  }

  /** The same ordered pair cannot be initialised twice. */
  lemma InitializeTwiceFails(st: State, tokenA: Address, tokenB: Address)
    requires InitializeMarket(st, tokenA, tokenB).Ok?
    ensures InitializeMarket(InitializeMarket(st, tokenA, tokenB).value, tokenA, tokenB)
         == Err(Constraint(AccountAlreadyInUse))
  {
  }

  /** The pair is ordered: (T2, T1) is a different market from (T1, T2), and
      creating one does not block the other. */
  lemma ReversedPairIsAnotherMarket(st: State, t1: Address, t2: Address)
    requires t1 != t2
    requires InitializeMarket(st, t1, t2).Ok?
    requires InitializeMarket(st, t2, t1).Ok?
    ensures Derive(MarketSeeds(t1, t2)).addr != Derive(MarketSeeds(t2, t1)).addr
    ensures InitializeMarket(InitializeMarket(st, t1, t2).value, t2, t1).Ok?
  {
    if Derive(MarketSeeds(t1, t2)).addr == Derive(MarketSeeds(t2, t1)).addr {
      MarketAddressInjective(t1, t2, t2, t1);
    }
  }

  /** Nothing rejects a market whose two mints are the same. */
  lemma EqualMintsAccepted(st: State, t: Address)
    requires !Occupied(st, Derive(MarketSeeds(t, t)).addr)
    ensures InitializeMarket(st, t, t).Ok?
    ensures var m := InitializeMarket(st, t, t).value.markets[Derive(MarketSeeds(t, t)).addr];
      m.tokenA == m.tokenB == t
  {
  }

  lemma InitializePreservesValid(st: State, tokenA: Address, tokenB: Address)
    requires Valid(st)
    requires InitializeMarket(st, tokenA, tokenB).Ok?
    ensures Valid(InitializeMarket(st, tokenA, tokenB).value)
  {
  }
}
