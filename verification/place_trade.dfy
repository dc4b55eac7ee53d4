/** `place_trade`: record a trade intent for one agent in one market. */
module TradeIntents {
  import opened Numbers
  import opened Addresses
  import opened Errors
  import opened Accounts

  /** The address of the trade of `agent` in `market`. */
  function TradeAddress(agent: Address, market: Address): Address
  {
    Derive(TradeSeeds(agent, market)).addr
  }

  /** Create a Trade at the address derived from ("trade", agent, market).
      The agent and market must hold their records; no one signs; the trade
      type, amount and price are stored as given, without any range check. */
  function PlaceTrade(st: State, agent: Address, market: Address, tradeType: u8, amount: u64, price: u64): (r: Result<State>)
    ensures r.Ok? <==> agent in st.agents && market in st.markets && !Occupied(st, TradeAddress(agent, market))
    ensures r.Err? ==> r.error == Constraint(AccountNotInitialized) || r.error == Constraint(AccountAlreadyInUse)
    ensures r.Err? && agent in st.agents && market in st.markets ==> r.error == Constraint(AccountAlreadyInUse)
    ensures r.Ok? ==> var k := TradeAddress(agent, market);
      && r.value.trades.Keys == st.trades.Keys + {k}
      && r.value.trades[k].agent == agent
      && r.value.trades[k].market == market
      && r.value.trades[k].tradeType == tradeType
      && r.value.trades[k].amount == amount
      && r.value.trades[k].price == price
      && r.value.trades[k].bump == Derive(TradeSeeds(agent, market)).bump
      && (forall t :: t in st.trades ==> r.value.trades[t] == st.trades[t])
    ensures r.Ok? ==> r.value.(trades := st.trades) == st
  {
    if agent !in st.agents || market !in st.markets then Err(Constraint(AccountNotInitialized))
    else
      var d := Derive(TradeSeeds(agent, market));
      if Occupied(st, d.addr) then Err(Constraint(AccountAlreadyInUse))
      else Ok(st.(trades := st.trades[d.addr := Trade(agent, market, tradeType, amount, price, d.bump)]))
  }

  /** While a trade is live, a second placement for the same (agent, market) fails. */
  lemma PlaceTwiceFails(st: State, agent: Address, market: Address,
                        t1: u8, a1: u64, p1: u64, t2: u8, a2: u64, p2: u64)
    requires PlaceTrade(st, agent, market, t1, a1, p1).Ok?
    ensures PlaceTrade(PlaceTrade(st, agent, market, t1, a1, p1).value, agent, market, t2, a2, p2)
         == Err(Constraint(AccountAlreadyInUse))
  {
  }

  /** Distinct (agent, market) pairs get distinct trade addresses. */
  lemma DistinctPairsDistinctTrades(g1: Address, m1: Address, g2: Address, m2: Address)
    requires (g1, m1) != (g2, m2)
    ensures TradeAddress(g1, m1) != TradeAddress(g2, m2)
  {
    if TradeAddress(g1, m1) == TradeAddress(g2, m2) {
      TradeAddressInjective(g1, m1, g2, m2);
    }
  }

  /** Whether placement succeeds does not depend on the trade type or amounts:
      a type of 2 or 255 is accepted exactly when a type of 0 is. */
  lemma AnyTradeTypeAccepted(st: State, agent: Address, market: Address,
                             tradeType: u8, amount: u64, price: u64)
    ensures PlaceTrade(st, agent, market, tradeType, amount, price).Ok?
        <==> PlaceTrade(st, agent, market, 0, 0, 0).Ok?
  {
  }

  lemma PlacePreservesValid(st: State, agent: Address, market: Address, tradeType: u8, amount: u64, price: u64)
    requires Valid(st)
    requires PlaceTrade(st, agent, market, tradeType, amount, price).Ok?
    ensures Valid(PlaceTrade(st, agent, market, tradeType, amount, price).value)
  {
  }
}
