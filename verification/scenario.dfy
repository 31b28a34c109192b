/** One concrete run of the whole lifecycle: initialize, mint, a rejected
    stranger, disable, and a rejected mint by the owner afterwards. */
module Scenario {
  import opened Types
  import opened Derivation
  import Token
  import opened OwnerMintToken

  const Mint0: Pubkey := Wallet(1)
  const Owner: Pubkey := Wallet(2)
  const Signer0: Pubkey := Wallet(3)
  const Payer: Pubkey := Wallet(4)
  const Holder: Pubkey := Wallet(5)
  const Stranger: Pubkey := Wallet(6)

  /** Bump 255 of the authority address lands on the curve, so the search
      settles on 254; the configuration address keeps bump 255. */
  const Rt: Runtime := Runtime({Derived(AuthorityLabel, Mint0, 255)})
  const Pda: Pubkey := Derived(AuthorityLabel, Mint0, 254)
  const ConfigAddr: Pubkey := Derived(ConfigLabel, Mint0, 255)

  const Start: Ledger := Ledger(map[Mint0 := Token.Mint(Some(Signer0), 0, map[Holder := 0])], map[])

  lemma EndToEnd()
    ensures var r1 := Initialize(Rt, Start, InitializeAccounts(Payer, Mint0, Pda, Signer0, ConfigAddr), {Payer, Signer0}, Owner);
            && r1 == Ok(Ledger(map[Mint0 := Token.Mint(Some(Pda), 0, map[Holder := 0])],
                               map[ConfigAddr := MintConfig(Owner, Mint0, 254)]))
            && var ma := MintTokensAccounts(Owner, Mint0, Pda, Holder, ConfigAddr);
               var r2 := MintTokens(Rt, r1.value, ma, {Owner}, 100);
               && r2.Ok? && r2.value.mints[Mint0].holders[Holder] == 100 && r2.value.mints[Mint0].supply == 100
               && MintTokens(Rt, r2.value, ma.(owner := Stranger), {Stranger}, 1) == Err(Unauthorized)
               && var r3 := DisableMinting(Rt, r2.value, DisableMintingAccounts(Owner, Mint0, Pda, ConfigAddr), {Owner});
                  && r3.Ok? && r3.value.mints[Mint0].authority == None
                  && MintTokens(Rt, r3.value, ma, {Owner}, 1) == Err(TokenFailure(Token.FixedSupply))
  {
    assert !Viable(Rt, AuthorityLabel, Mint0, 255);
    assert Viable(Rt, AuthorityLabel, Mint0, 254);
    assert FindProgramAddress(Rt, AuthorityLabel, Mint0) == Some((Pda, 254));
    assert Viable(Rt, ConfigLabel, Mint0, 255);
    assert FindProgramAddress(Rt, ConfigLabel, Mint0) == Some((ConfigAddr, 255));
    var m0 := Start.mints[Mint0];
    assert Token.SetMintAuthority(m0, Signer0, {Payer, Signer0}, Some(Pda)) == Ok(m0.(authority := Some(Pda)));
    var r1 := Initialize(Rt, Start, InitializeAccounts(Payer, Mint0, Pda, Signer0, ConfigAddr), {Payer, Signer0}, Owner);
    assert r1 == Ok(Ledger(Start.mints[Mint0 := m0.(authority := Some(Pda))],
                           map[ConfigAddr := MintConfig(Owner, Mint0, 254)]));
    assert Start.mints[Mint0 := m0.(authority := Some(Pda))] == map[Mint0 := Token.Mint(Some(Pda), 0, map[Holder := 0])];
  }
}
