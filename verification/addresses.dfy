/** Program-derived addresses.
    An address is either a wallet (an account with a private key) or a program
    address computed from a seed tuple. The hash behind a program address is
    modelled by the free constructor `Pda`, so distinct seed tuples always give
    distinct addresses: this is the injectivity the program relies on. */
module Addresses {
  import opened Numbers

  /** One element of a seed tuple: a literal tag, a 32-byte key, or a bump byte. */
  datatype Seed = Tag(name: string) | KeyOf(key: Address) | BumpOf(bump: u8)

  datatype Address = Wallet(id: nat) | Pda(seeds: seq<Seed>)

  /** Only keys with a private key can sign a transaction; a program address never can. */
  type Signer = a: Address | a.Wallet? witness Wallet(0)

  /** An address together with the bump that produced it. */
  datatype Derivation = Derivation(addr: Address, bump: u8)

  /** The address of a seed tuple whose last element is the bump
      (the runtime's program-address creation). */
  function ProgramAddress(seedsWithBump: seq<Seed>): (a: Address)
    ensures !a.Wallet?
  {
    Pda(seedsWithBump)
  }

  /** The bump search is not modelled: its first candidate is taken. */
  function CanonicalBump(seeds: seq<Seed>): u8
  {
    255
  }

  /** Find the program address of a seed tuple and the bump that reaches it. */
  function Derive(seeds: seq<Seed>): (d: Derivation)
    ensures d.addr == ProgramAddress(seeds + [BumpOf(d.bump)])
  {
    var b := CanonicalBump(seeds);
    Derivation(ProgramAddress(seeds + [BumpOf(b)]), b)
  }

  function AgentSeeds(user: Address): seq<Seed>
  {
    [Tag("agent"), KeyOf(user)]
  }

  function MarketSeeds(tokenA: Address, tokenB: Address): seq<Seed>
  {
    [Tag("market"), KeyOf(tokenA), KeyOf(tokenB)]
  }

  function TradeSeeds(agent: Address, market: Address): seq<Seed>
  {
    [Tag("trade"), KeyOf(agent), KeyOf(market)]
  }

  /** The seed tuple a market's vault for `mint` is derived from. */
  function VaultSeeds(tokenA: Address, tokenB: Address, mint: Address): seq<Seed>
  {
    [Tag("vault"), KeyOf(tokenA), KeyOf(tokenB), KeyOf(mint)]
  }

  /** The bump is unique: re-deriving with a stored bump reproduces the derived
      address exactly when the stored bump is the one the derivation found, so a
      check of the form `seeds = [...], bump = stored` pins the stored bump down. */
  lemma DeriveBumpUnique(seeds: seq<Seed>, b: u8)
    ensures ProgramAddress(seeds + [BumpOf(b)]) == Derive(seeds).addr <==> b == Derive(seeds).bump
  {
    var d := Derive(seeds);
    if ProgramAddress(seeds + [BumpOf(b)]) == d.addr {
      var t1 := seeds + [BumpOf(b)];
      var t2 := seeds + [BumpOf(d.bump)];
      assert t1 == t2;
      assert t1[|seeds|] == t2[|seeds|];
    }
  }

  /** Distinct seed tuples never share a derived address. */
  lemma DeriveInjective(s1: seq<Seed>, s2: seq<Seed>)
    requires Derive(s1).addr == Derive(s2).addr
    ensures s1 == s2
  {
    var t1 := s1 + [BumpOf(Derive(s1).bump)];
    var t2 := s2 + [BumpOf(Derive(s2).bump)];
    assert t1 == t2;
    assert s1 == t1[..|t1| - 1];
    assert s2 == t2[..|t2| - 1];
  }

  /** One agent address per user. */
  lemma AgentAddressInjective(u1: Address, u2: Address)
    requires Derive(AgentSeeds(u1)).addr == Derive(AgentSeeds(u2)).addr
    ensures u1 == u2
  {
    DeriveInjective(AgentSeeds(u1), AgentSeeds(u2));
    assert AgentSeeds(u1)[1] == AgentSeeds(u2)[1];
  }

  /** A market address determines its ordered pair of mints. */
  lemma MarketAddressInjective(a1: Address, b1: Address, a2: Address, b2: Address)
    requires Derive(MarketSeeds(a1, b1)).addr == Derive(MarketSeeds(a2, b2)).addr
    ensures a1 == a2 && b1 == b2
  {
    DeriveInjective(MarketSeeds(a1, b1), MarketSeeds(a2, b2));
    assert MarketSeeds(a1, b1)[1] == MarketSeeds(a2, b2)[1];
    assert MarketSeeds(a1, b1)[2] == MarketSeeds(a2, b2)[2];
  }

  /** A trade address determines its (agent, market) pair. */
  lemma TradeAddressInjective(g1: Address, m1: Address, g2: Address, m2: Address)
    requires Derive(TradeSeeds(g1, m1)).addr == Derive(TradeSeeds(g2, m2)).addr
    ensures g1 == g2 && m1 == m2
  {
    DeriveInjective(TradeSeeds(g1, m1), TradeSeeds(g2, m2));
    assert TradeSeeds(g1, m1)[1] == TradeSeeds(g2, m2)[1];
    assert TradeSeeds(g1, m1)[2] == TradeSeeds(g2, m2)[2];
  }
}
