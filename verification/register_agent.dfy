/** `register_agent`: create the caller's Agent record at its derived address. */
module Registration {
  import opened Addresses
  import opened Errors
  import opened Accounts

  /** Create an Agent owned by `user` at the address derived from ("agent", user).
      Fails when that address already holds an account. */
  function RegisterAgent(st: State, user: Signer): (r: Result<State>)
    ensures r.Ok? <==> !Occupied(st, Derive(AgentSeeds(user)).addr)
    ensures r.Err? ==> r.error == Constraint(AccountAlreadyInUse)
    ensures r.Ok? ==> var d := Derive(AgentSeeds(user));
      && r.value.agents.Keys == st.agents.Keys + {d.addr}
      && r.value.agents[d.addr].owner == user
      && r.value.agents[d.addr].bump == d.bump
      && (forall k :: k in st.agents ==> r.value.agents[k] == st.agents[k])
    ensures r.Ok? ==> r.value.(agents := st.agents) == st
  {
    var d := Derive(AgentSeeds(user));
    if Occupied(st, d.addr) then Err(Constraint(AccountAlreadyInUse))
    else Ok(st.(agents := st.agents[d.addr := Agent(user, d.bump)]))
  }

  /** A user who has registered cannot register again. */
  lemma RegisterTwiceFails(st: State, user: Signer)
    requires RegisterAgent(st, user).Ok?
    ensures RegisterAgent(RegisterAgent(st, user).value, user) == Err(Constraint(AccountAlreadyInUse))
  {
  }

  /** Two users' agents never share an address, so neither registration blocks the other. */
  lemma DistinctUsersDistinctAgents(st: State, u1: Signer, u2: Signer)
    requires u1 != u2
    requires RegisterAgent(st, u1).Ok?
    requires RegisterAgent(st, u2).Ok?
    ensures RegisterAgent(RegisterAgent(st, u1).value, u2).Ok?
  {
    if Derive(AgentSeeds(u1)).addr == Derive(AgentSeeds(u2)).addr {
      AgentAddressInjective(u1, u2);
    }
  }

  lemma RegisterPreservesValid(st: State, user: Signer)
    requires Valid(st)
    requires RegisterAgent(st, user).Ok?
    ensures Valid(RegisterAgent(st, user).value)
  {
  }
}
