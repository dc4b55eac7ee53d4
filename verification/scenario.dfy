/** One run through every instruction: a market for (T1, T2), an agent, a
    deposit, a withdrawal attempt, a buy of 95 T2 for 100 T1, and its settlement. */
module Scenario {
  import opened Addresses
  import opened Errors
  import opened Accounts
  import opened Registration
  import opened MarketSetup
  import opened TradeIntents
  import opened Deposit
  import opened Withdraw
  import opened Settlement

  const T1: Address := Wallet(1)
  const T2: Address := Wallet(2)
  const User: Signer := Wallet(10)
  const UserT1: Address := Wallet(21)
  const UserT2: Address := Wallet(22)
  const VaultT1: Address := Wallet(31)
  const VaultT2: Address := Wallet(32)

  function MarketKey(): Address { Derive(MarketSeeds(T1, T2)).addr }
  function AgentKey(): Address { Derive(AgentSeeds(User)).addr }
  function Vault1(): Address { VaultAddress(Market(T1, T2, 0), T1, 255) }
  function Vault2(): Address { VaultAddress(Market(T1, T2, 0), T2, 255) }

  function TradeKey(): Address { TradeAddress(AgentKey(), MarketKey()) }

  lemma KeysDistinct()
    ensures Vault1() != Vault2()
    ensures MarketKey() !in {AgentKey(), Vault1(), Vault2(), TradeKey()}
    ensures AgentKey() !in {Vault1(), Vault2(), TradeKey()}
    ensures TradeKey() !in {Vault1(), Vault2()}
  {
    assert Vault1().seeds[3] == KeyOf(T1) && Vault2().seeds[3] == KeyOf(T2);
    assert TradeKey().seeds[0] == Tag("trade") && MarketKey().seeds[0] == Tag("market");
    assert "trade"[0] != "market"[0];
  }

  /** Vaults, mints and token accounts exist before any instruction runs. */
  function Genesis(): State
  {
    State(
      map[], map[], map[],
      map[Vault1() := Vault(MarketKey(), T1, 255), Vault2() := Vault(MarketKey(), T2, 255)],
      {T1, T2},
      map[UserT1 := TokenAccount(T1, User), UserT2 := TokenAccount(T2, User),
          VaultT1 := TokenAccount(T1, Vault1()), VaultT2 := TokenAccount(T2, Vault2())],
      map[UserT1 := 1000, UserT2 := 0, VaultT1 := 0, VaultT2 := 500])
  }

  function WithMarket(): State { Genesis().(markets := map[MarketKey() := Market(T1, T2, 0)]) }

  function WithAgent(): State { WithMarket().(agents := map[AgentKey() := Agent(User, 255)]) }

  function Deposited(): State
  {
    WithAgent().(ledger := map[UserT1 := 600, UserT2 := 0, VaultT1 := 400, VaultT2 := 500])
  }

  function Placed(): State
  {
    Deposited().(trades := map[TradeKey() := Trade(AgentKey(), MarketKey(), 0, 100, 95, 255)])
  }

  function BuyAccounts(): ExecuteAccounts
  {
    ExecuteAccounts(TradeKey(), MarketKey(), AgentKey(), User, T1, T2,
                    UserT1, UserT2, Vault1(), VaultT1, Vault2(), VaultT2)
  }

  lemma SetupSteps()
    ensures InitializeMarket(Genesis(), T1, T2) == Ok(WithMarket())
    ensures RegisterAgent(WithMarket(), User) == Ok(WithAgent())
  {
  }

  lemma DepositStep()
    ensures DepositTokens(WithAgent(), DepositAccounts(AgentKey(), MarketKey(), User, UserT1, VaultT1), 400)
         == Ok(Deposited())
  {
    var r := DepositTokens(WithAgent(), DepositAccounts(AgentKey(), MarketKey(), User, UserT1, VaultT1), 400);
    assert r.Ok?;
    assert r.value.ledger == Deposited().ledger;
  }

  /** Withdrawing 50 T1 from the T1 vault: as written the runtime refuses the
      vault's signature; the corrected withdrawal pays out. */
  lemma WithdrawStep()
    ensures WithdrawTokens(Deposited(), WithdrawAccounts(AgentKey(), MarketKey(), User, UserT1, Vault1(), VaultT1), 50)
         == Err(Runtime(PrivilegeEscalation))
    ensures WithdrawTokensFixed(Deposited(), WithdrawAccounts(AgentKey(), MarketKey(), User, UserT1, Vault1(), VaultT1), 50)
         == Ok(Deposited().(ledger := map[UserT1 := 650, UserT2 := 0, VaultT1 := 350, VaultT2 := 500]))
  {
    var a := WithdrawAccounts(AgentKey(), MarketKey(), User, UserT1, Vault1(), VaultT1);
    WithdrawNeverSignsForTradeVault(Deposited(), a, 50, T1, T2, T1, 255);
    var r := WithdrawTokensFixed(Deposited(), a, 50);
    assert r.Ok?;
    assert r.value.ledger == map[UserT1 := 650, UserT2 := 0, VaultT1 := 350, VaultT2 := 500];
  }

  lemma PlaceStep()
    ensures PlaceTrade(Deposited(), AgentKey(), MarketKey(), 0, 100, 95) == Ok(Placed())
  {
    KeysDistinct();
  }

  lemma ExecuteStep()
    ensures ExecuteTrade(Placed(), BuyAccounts()).Ok?
    ensures ExecuteTrade(Placed(), BuyAccounts()).value.ledger
         == map[UserT1 := 500, UserT2 := 95, VaultT1 := 500, VaultT2 := 405]
    ensures TradeKey() !in ExecuteTrade(Placed(), BuyAccounts()).value.trades
    ensures ExecuteTradeChecked(Placed(), BuyAccounts()) == ExecuteTrade(Placed(), BuyAccounts())
  {
    KeysDistinct();
    var st := Placed();
    var a := BuyAccounts();
    assert Admissible(st, a);
    assert FundsSuffice(st, a);
    ExecuteSucceedsIff(st, a);
    var post := ExecuteTrade(st, a).value;
    assert post.ledger == map[UserT1 := 500, UserT2 := 95, VaultT1 := 500, VaultT2 := 405];
  }
}
