/** The program's account records and the world state they live in. */
module Accounts {
  import opened Numbers
  import opened Addresses
  import opened Errors

  datatype Market = Market(tokenA: Address, tokenB: Address, bump: u8)

  datatype Agent = Agent(owner: Address, bump: u8)

  /** A placed, unsettled trade. The record stores `amount` and `price`. */
  datatype Trade = Trade(agent: Address, market: Address, tradeType: u8, amount: u64, price: u64, bump: u8)

  datatype Vault = Vault(market: Address, token: Address, bump: u8)

  /** The token program's view of a token account, without its balance. */
  datatype TokenAccount = TokenAccount(mint: Address, authority: Address)

  /** Everything the instructions read or write. Each record sits at its address;
      `ledger` holds the balance of every token account. Vaults, mints and token
      accounts are set up outside the program. */
  datatype State = State(
    agents: map<Address, Agent>,
    markets: map<Address, Market>,
    trades: map<Address, Trade>,
    vaults: map<Address, Vault>,
    mints: set<Address>,
    tokenAccounts: map<Address, TokenAccount>,
    ledger: map<Address, nat>)

  /** An address `init` cannot create an account at. */
  predicate Occupied(st: State, k: Address)
  {
    || k in st.agents
    || k in st.markets
    || k in st.trades
    || k in st.vaults
    || k in st.mints
    || k in st.tokenAccounts
  }

  /** The host's unit of work: the state after an instruction is its result
      when it succeeded and the state before it otherwise. */
  function Commit(st: State, r: Result<State>): (post: State)
    ensures r.Err? ==> post == st
    ensures r.Ok? ==> post == r.value
  {
    match r
    case Ok(s) => s
    case Err(_) => st
  }

  /** The invariant the program's own instructions keep: every balance entry
      belongs to a token account, and every record the program creates sits at
      the address derived from its defining fields (agents and trades also
      store the bump of that derivation). */
  ghost predicate Valid(st: State)
  {
    && st.ledger.Keys == st.tokenAccounts.Keys
    && (forall k :: k in st.agents ==>
          Derive(AgentSeeds(st.agents[k].owner)) == Derivation(k, st.agents[k].bump))
    && (forall k :: k in st.markets ==>
          k == Derive(MarketSeeds(st.markets[k].tokenA, st.markets[k].tokenB)).addr)
    && (forall k :: k in st.trades ==>
          Derive(TradeSeeds(st.trades[k].agent, st.trades[k].market)) == Derivation(k, st.trades[k].bump))
  }

  /** In a valid state there is at most one live trade per (agent, market). */
  lemma OneTradePerAgentAndMarket(st: State, k1: Address, k2: Address)
    requires Valid(st)
    requires k1 in st.trades && k2 in st.trades
    requires st.trades[k1].agent == st.trades[k2].agent
    requires st.trades[k1].market == st.trades[k2].market
    ensures k1 == k2
  {
  }

  /** In a valid state there is at most one agent per owner. */
  lemma OneAgentPerOwner(st: State, k1: Address, k2: Address)
    requires Valid(st)
    requires k1 in st.agents && k2 in st.agents
    requires st.agents[k1].owner == st.agents[k2].owner
    ensures k1 == k2
  {
  }
}
