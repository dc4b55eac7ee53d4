/** The token transfer primitive over the balance ledger, and the per-mint
    supply it conserves. */
module TokenProgram {
  import opened Addresses
  import opened Errors
  import opened Accounts

  type Ledger = map<Address, nat>

  /** The signed change that moving `amount` from `from` to `to` makes to
      account `k`; a move onto the same account changes nothing. */
  function Net(k: Address, from: Address, to: Address, amount: nat): int
  {
    (if k == to then amount else 0) - (if k == from then amount else 0)
  }

  /** Move `amount` between two balance entries; fails, changing nothing,
      when an entry is missing or the source holds too little. */
  function Move(l: Ledger, from: Address, to: Address, amount: nat): (r: Result<Ledger>)
    ensures r.Ok? <==> from in l && to in l && amount <= l[from]
    ensures r.Err? ==> r.error == Token(InvalidAccount) || r.error == Token(InsufficientFunds)
    ensures r.Ok? ==> r.value.Keys == l.Keys
    ensures r.Ok? ==> forall k :: k in l ==> r.value[k] == l[k] + Net(k, from, to, amount)
  {
    if from !in l || to !in l then Err(Token(InvalidAccount))
    else if l[from] < amount then Err(Token(InsufficientFunds))
    else
      var debited := l[from := l[from] - amount];
      Ok(debited[to := debited[to] + amount])
  }

  /** When the token program lets `authority` move `amount` from `from` to `to`:
      both are token accounts with balances, the source holds enough, both hold
      the same mint, the authority owns the source and has signed. */
  predicate TransferAllowed(meta: map<Address, TokenAccount>, l: Ledger, from: Address, to: Address,
                            authority: Address, signers: set<Address>, amount: nat)
  {
    && from in meta && to in meta && from in l && to in l
    && amount <= l[from]
    && meta[from].mint == meta[to].mint
    && meta[from].authority == authority
    && authority in signers
  }

  /** The token program's transfer, with its checks in the order it makes them. */
  function Transfer(meta: map<Address, TokenAccount>, l: Ledger, from: Address, to: Address,
                    authority: Address, signers: set<Address>, amount: nat): (r: Result<Ledger>)
    ensures r.Ok? <==> TransferAllowed(meta, l, from, to, authority, signers, amount)
    ensures r.Err? ==> r.error.Token?
    ensures r.Ok? ==> r.value.Keys == l.Keys
    ensures r.Ok? ==> forall k :: k in l ==> r.value[k] == l[k] + Net(k, from, to, amount)
  {
    if from !in meta || to !in meta || from !in l || to !in l then Err(Token(InvalidAccount))
    else if l[from] < amount then Err(Token(InsufficientFunds))
    else if meta[from].mint != meta[to].mint then Err(Token(MintMismatch))
    else if meta[from].authority != authority then Err(Token(OwnerMismatch))
    else if authority !in signers then Err(Token(MissingSignature))
    else Move(l, from, to, amount)
  }

  /** A call from the program into the token program's transfer, passing
      `authority` as a signer. The runtime refuses the call before the token
      program runs unless `authority` is in `signers`: it signed the transaction,
      or it is a program address the caller signs for. Past that gate the token
      program's own signature check cannot fail. */
  function InvokeTransfer(meta: map<Address, TokenAccount>, l: Ledger, from: Address, to: Address,
                          authority: Address, signers: set<Address>, amount: nat): (r: Result<Ledger>)
    ensures r.Ok? <==> TransferAllowed(meta, l, from, to, authority, signers, amount)
    ensures authority !in signers ==> r == Err(Runtime(PrivilegeEscalation))
    ensures r.Err? ==> r.error.Token? || r.error == Runtime(PrivilegeEscalation)
    ensures r.Err? ==> r.error != Token(MissingSignature)
    ensures r.Ok? ==> r.value.Keys == l.Keys
    ensures r.Ok? ==> forall k :: k in l ==> r.value[k] == l[k] + Net(k, from, to, amount)
  {
    if authority !in signers then Err(Runtime(PrivilegeEscalation))
    else Transfer(meta, l, from, to, authority, signers, amount)
  }

  /** The balance account `k` contributes to the supply of `mint`. */
  function Held(meta: map<Address, TokenAccount>, l: Ledger, mint: Address, k: Address): nat
  {
    if k in l && k in meta && meta[k].mint == mint then l[k] else 0
  }

  ghost function SumHeld(keys: set<Address>, meta: map<Address, TokenAccount>, l: Ledger, mint: Address): nat
    decreases keys
  {
    if keys == {} then 0
    else
      var k :| k in keys;
      Held(meta, l, mint, k) + SumHeld(keys - {k}, meta, l, mint)
  }

  /** The total balance of `mint` over all ledger entries. */
  ghost function Supply(meta: map<Address, TokenAccount>, l: Ledger, mint: Address): nat
  {
    SumHeld(l.Keys, meta, l, mint)
  }

  /** The sum may be split at any key, not only the one it picks. */
  lemma {:induction false} SumHeldSplit(keys: set<Address>, meta: map<Address, TokenAccount>, l: Ledger,
                                        mint: Address, x: Address)
    requires x in keys
    ensures SumHeld(keys, meta, l, mint) == Held(meta, l, mint, x) + SumHeld(keys - {x}, meta, l, mint)
    decreases keys
  {
    var y :| y in keys && SumHeld(keys, meta, l, mint) == Held(meta, l, mint, y) + SumHeld(keys - {y}, meta, l, mint);
    if y != x {
      SumHeldSplit(keys - {y}, meta, l, mint, x);
      SumHeldSplit(keys - {x}, meta, l, mint, y);
      assert keys - {y} - {x} == keys - {x} - {y};
    }
  }

  /** Ledgers that agree on what each key holds of `mint` have the same sum. */
  lemma {:induction false} SumHeldAgree(keys: set<Address>, meta: map<Address, TokenAccount>,
                                        l1: Ledger, l2: Ledger, mint: Address)
    requires forall k :: k in keys ==> Held(meta, l1, mint, k) == Held(meta, l2, mint, k)
    ensures SumHeld(keys, meta, l1, mint) == SumHeld(keys, meta, l2, mint)
    decreases keys
  {
    if keys != {} {
      var x :| x in keys;
      SumHeldSplit(keys, meta, l1, mint, x);
      SumHeldSplit(keys, meta, l2, mint, x);
      SumHeldAgree(keys - {x}, meta, l1, l2, mint);
    }
  }

  /** Overwriting one balance changes the sum by exactly that key's change. */
  lemma SumHeldUpdate(keys: set<Address>, meta: map<Address, TokenAccount>, l: Ledger,
                      mint: Address, x: Address, v: nat)
    requires x in keys && x in l
    ensures SumHeld(keys, meta, l[x := v], mint)
         == SumHeld(keys, meta, l, mint) - Held(meta, l, mint, x) + Held(meta, l[x := v], mint, x)
  {
    SumHeldSplit(keys, meta, l, mint, x);
    SumHeldSplit(keys, meta, l[x := v], mint, x);
    SumHeldAgree(keys - {x}, meta, l, l[x := v], mint);
  }

  /** A move between two accounts of one mint conserves the supply of every mint. */
  lemma MoveConservesSupply(meta: map<Address, TokenAccount>, l: Ledger, from: Address, to: Address,
                            amount: nat, mint: Address)
    requires from in meta && to in meta && meta[from].mint == meta[to].mint
    requires Move(l, from, to, amount).Ok?
    ensures Supply(meta, Move(l, from, to, amount).value, mint) == Supply(meta, l, mint)
  {
    var debited := l[from := l[from] - amount];
    var moved := debited[to := debited[to] + amount];
    assert Move(l, from, to, amount).value == moved;
    if from == to {
      assert moved == l;
    } else {
      SumHeldUpdate(l.Keys, meta, l, mint, from, l[from] - amount);
      assert debited.Keys == l.Keys;
      SumHeldUpdate(debited.Keys, meta, debited, mint, to, debited[to] + amount);
      assert moved.Keys == l.Keys;
    }
  }

  /** Every successful transfer conserves the supply of every mint. */
  lemma TransferConservesSupply(meta: map<Address, TokenAccount>, l: Ledger, from: Address, to: Address,
                                authority: Address, signers: set<Address>, amount: nat, mint: Address)
    requires Transfer(meta, l, from, to, authority, signers, amount).Ok?
    ensures Supply(meta, Transfer(meta, l, from, to, authority, signers, amount).value, mint) == Supply(meta, l, mint)
  {
    MoveConservesSupply(meta, l, from, to, amount, mint);
  }

  /** Every successful call into the transfer conserves the supply of every mint. */
  lemma InvokeConservesSupply(meta: map<Address, TokenAccount>, l: Ledger, from: Address, to: Address,
                              authority: Address, signers: set<Address>, amount: nat, mint: Address)
    requires InvokeTransfer(meta, l, from, to, authority, signers, amount).Ok?
    ensures Supply(meta, InvokeTransfer(meta, l, from, to, authority, signers, amount).value, mint)
         == Supply(meta, l, mint)
  {
    TransferConservesSupply(meta, l, from, to, authority, signers, amount, mint);
  }
}
