/** The part of the token program the owner-gated mint program calls:
    reassigning a mint's minting authority and minting new units.
    Only its authorization contract is kept: an instruction succeeds only
    when the presented authority is the mint's current authority and has
    signed. Everything else about token accounts is reduced to a map from
    holding account to balance. */
module Token {
  import opened Types

  /** A mint: who may create supply, how much exists, and the balances of
      the holding accounts of this mint. */
  datatype Mint = Mint(authority: Option<Pubkey>, supply: nat, holders: map<Pubkey, nat>)

  datatype TokenError =
    | FixedSupply              // the mint authority has been removed
    | OwnerMismatch            // the presented authority is not the mint's
    | MissingRequiredSignature // the presented authority did not sign
    | InvalidDestination       // the destination is not a holding account of this mint

  /** `presented` is the mint's authority and has signed. */
  predicate Authorizes(m: Mint, presented: Pubkey, signers: set<Pubkey>) {
    m.authority == Some(presented) && presented in signers
  }

  /** Replaces the mint authority of `m`, authorized by `current`. */
  function SetMintAuthority(m: Mint, current: Pubkey, signers: set<Pubkey>, newAuthority: Option<Pubkey>): (r: Result<Mint, TokenError>)
    ensures r.Ok? <==> Authorizes(m, current, signers)
    ensures r.Ok? ==> r.value.authority == newAuthority
    ensures r.Ok? ==> r.value.supply == m.supply && r.value.holders == m.holders
    ensures m.authority.None? ==> r == Err(FixedSupply)
  {
    match m.authority
    case None => Err(FixedSupply)
    case Some(a) =>
      if a != current then Err(OwnerMismatch)
      else if current !in signers then Err(MissingRequiredSignature)
      else Ok(m.(authority := newAuthority))
  }

  /** Creates `amount` new units into `destination`, authorized by `authority`. */
  function MintTo(m: Mint, destination: Pubkey, authority: Pubkey, signers: set<Pubkey>, amount: u64): (r: Result<Mint, TokenError>)
    ensures r.Ok? <==> destination in m.holders && Authorizes(m, authority, signers)
    ensures r.Ok? ==> r.value.authority == m.authority && r.value.supply == m.supply + amount
    ensures r.Ok? ==> r.value.holders.Keys == m.holders.Keys
                      && r.value.holders[destination] == m.holders[destination] + amount
                      && forall h | h in m.holders && h != destination :: r.value.holders[h] == m.holders[h]
    ensures destination in m.holders && m.authority.None? ==> r == Err(FixedSupply)
  {
    if destination !in m.holders then Err(InvalidDestination)
    else match m.authority
      case None => Err(FixedSupply)
      case Some(a) =>
        if a != authority then Err(OwnerMismatch)
        else if authority !in signers then Err(MissingRequiredSignature)
        else Ok(m.(supply := m.supply + amount,
                   holders := m.holders[destination := m.holders[destination] + amount]))
  }
}
