/** The owner-gated mint program: three instructions over a ledger of mints
    and configuration records.

    `Initialize` records (owner, mint, bump) at the mint's configuration
    address and hands the mint authority from a signing wallet to the mint's
    derived authority address. `MintTokens` and `DisableMinting` let only the
    recorded owner act, and sign for the derived authority by re-deriving it
    from the recorded bump. Each instruction returns the new ledger or the
    error that aborted it; an aborted instruction changes nothing. */
module OwnerMintToken {
  import opened Types
  import opened Derivation
  import Token

  /** The persistent configuration record of one mint. */
  datatype MintConfig = MintConfig(owner: Pubkey, mint: Pubkey, bump: u8)

  /** Mint accounts and configuration records, each keyed by account address. */
  datatype Ledger = Ledger(mints: map<Pubkey, Token.Mint>, configs: map<Pubkey, MintConfig>)

  datatype Error =
    | Unauthorized                         // the caller is not the recorded owner
    | AccountNotSigner                     // an account declared as a signer did not sign
    | AccountNotInitialized                // a mint or configuration account does not exist
    | AccountInUse                         // the configuration address is already occupied
    | ConstraintSeeds                      // an account is not at the address its seeds derive
    | BumpSearchExhausted                  // no bump yields an address off the curve
    | TokenFailure(cause: Token.TokenError) // the token program refused the call

  /** The accounts `initialize` is given, in declaration order. */
  datatype InitializeAccounts = InitializeAccounts(
    payer: Pubkey,
    mint: Pubkey,
    mintAuthorityPda: Pubkey,
    currentMintAuthority: Pubkey,
    config: Pubkey)

  /** The accounts `mint_tokens` is given, in declaration order. */
  datatype MintTokensAccounts = MintTokensAccounts(
    owner: Pubkey,
    mint: Pubkey,
    mintAuthorityPda: Pubkey,
    destination: Pubkey,
    config: Pubkey)

  /** The accounts `disable_minting` is given, in declaration order. */
  datatype DisableMintingAccounts = DisableMintingAccounts(
    owner: Pubkey,
    mint: Pubkey,
    mintAuthorityPda: Pubkey,
    config: Pubkey)

  /** The mint's configuration is stored at its derived configuration address. */
  predicate ConfigAt(rt: Runtime, mint: Pubkey, config: Pubkey) {
    ConfigAddress(rt, mint) == Some(config)
  }

  /** Creates the configuration record of `a.mint` and moves the mint
      authority from `a.currentMintAuthority` to the mint's derived
      authority address. */
  function Initialize(rt: Runtime, l: Ledger, a: InitializeAccounts, signers: TxSigners, owner: Pubkey): (r: Result<Ledger, Error>)
    // The record is created once, at the mint's configuration address.
    ensures r.Ok? ==> a.config !in l.configs && ConfigAt(rt, a.mint, a.config)
    // It holds exactly the owner argument, the mint and the canonical authority bump.
    ensures r.Ok? ==> exists bump: u8 ::
                        && FindProgramAddress(rt, AuthorityLabel, a.mint) == Some((a.mintAuthorityPda, bump))
                        && r.value.configs == l.configs[a.config := MintConfig(owner, a.mint, bump)]
    // The authority moves from the signing wallet to the derived address.
    ensures r.Ok? ==> && a.mint in l.mints && a.mint in r.value.mints
                      && a.payer in signers && a.currentMintAuthority in signers
                      && l.mints[a.mint].authority == Some(a.currentMintAuthority)
                      && r.value.mints[a.mint].authority == Some(a.mintAuthorityPda)
                      && a.mintAuthorityPda != a.currentMintAuthority
    // Nothing is minted, and no other mint is touched.
    ensures r.Ok? ==> && r.value.mints[a.mint].supply == l.mints[a.mint].supply
                      && r.value.mints[a.mint].holders == l.mints[a.mint].holders
                      && r.value.mints == l.mints[a.mint := r.value.mints[a.mint]]
  {
    // Loading the accounts: the two signers and the mint account.
    if a.payer !in signers then Err(AccountNotSigner)
    else if a.mint !in l.mints then Err(AccountNotInitialized)
    else if a.currentMintAuthority !in signers then Err(AccountNotSigner)
    // The `init` constraint on `config` runs before every other constraint.
    else match FindProgramAddress(rt, ConfigLabel, a.mint)
      case None => Err(BumpSearchExhausted)
      case Some((configAddr, _)) =>
        if a.config != configAddr then Err(ConstraintSeeds)
        else if a.config in l.configs then Err(AccountInUse)
        // Then the seeds constraint on `mint_authority_pda`, which finds its bump.
        else match FindProgramAddress(rt, AuthorityLabel, a.mint)
          case None => Err(BumpSearchExhausted)
          case Some((pda, bump)) =>
            if a.mintAuthorityPda != pda then Err(ConstraintSeeds)
            else
              var cfg := MintConfig(owner, a.mint, bump);
              match Token.SetMintAuthority(l.mints[a.mint], a.currentMintAuthority, signers, Some(pda))
              case Err(e) => Err(TokenFailure(e))
              case Ok(m) => Ok(Ledger(l.mints[a.mint := m], l.configs[a.config := cfg]))
  }

  /** `account` is a holding account of some mint of the ledger. */
  predicate IsTokenAccount(l: Ledger, account: Pubkey) {
    exists m | m in l.mints :: account in l.mints[m].holders
  }

  /** The account checks shared by `mint_tokens` and `disable_minting`,
      followed by the owner check; yields the configuration record. */
  function CheckOwner(rt: Runtime, l: Ledger, owner: Pubkey, mint: Pubkey, pda: Pubkey, config: Pubkey, signers: TxSigners): (r: Result<MintConfig, Error>)
    ensures r.Ok? ==> && owner in signers && mint in l.mints && config in l.configs
                      && r.value == l.configs[config] && owner == r.value.owner
                      && ConfigAt(rt, mint, config)
                      && CreateProgramAddress(rt, AuthorityLabel, mint, r.value.bump) == Some(pda)
    ensures r == Err(Unauthorized) ==> config in l.configs && owner != l.configs[config].owner
  {
    if owner !in signers then Err(AccountNotSigner)
    else if mint !in l.mints then Err(AccountNotInitialized)
    else if config !in l.configs then Err(AccountNotInitialized)
    else
      var cfg := l.configs[config];
      if CreateProgramAddress(rt, AuthorityLabel, mint, cfg.bump) != Some(pda) then Err(ConstraintSeeds)
      else match FindProgramAddress(rt, ConfigLabel, mint)
        case None => Err(BumpSearchExhausted)
        case Some((configAddr, _)) =>
          if config != configAddr then Err(ConstraintSeeds)
          else if owner != cfg.owner then Err(Unauthorized)
          else Ok(cfg)
  }

  /** The accounts of a gated call are the right ones and the owner signed:
      everything `CheckOwner` examines before comparing the caller with the
      recorded owner. Then the caller alone decides the outcome. */
  function GateAccountsValid(rt: Runtime, l: Ledger, owner: Pubkey, mint: Pubkey, pda: Pubkey, config: Pubkey, signers: TxSigners): (valid: bool)
    ensures valid ==> config in l.configs
                      && CheckOwner(rt, l, owner, mint, pda, config, signers)
                         == if owner == l.configs[config].owner then Ok(l.configs[config]) else Err(Unauthorized)
  {
    && owner in signers && mint in l.mints && config in l.configs
    && CreateProgramAddress(rt, AuthorityLabel, mint, l.configs[config].bump) == Some(pda)
    && ConfigAt(rt, mint, config)
  }

  /** Lets the recorded owner create `amount` new units into `a.destination`,
      signing for the derived authority with the recorded bump. */
  function MintTokens(rt: Runtime, l: Ledger, a: MintTokensAccounts, signers: TxSigners, amount: u64): (r: Result<Ledger, Error>)
    // Only the owner recorded in the mint's own record, having signed, mints.
    ensures r.Ok? ==> && a.owner in signers && a.config in l.configs
                      && a.owner == l.configs[a.config].owner
                      && ConfigAt(rt, a.mint, a.config)
    // The authority used is the address derived from the recorded bump.
    ensures r.Ok? ==> && a.mint in l.mints
                      && l.mints[a.mint].authority == Some(a.mintAuthorityPda)
                      && CreateProgramAddress(rt, AuthorityLabel, a.mint, l.configs[a.config].bump) == Some(a.mintAuthorityPda)
    // Supply and the destination balance each rise by exactly `amount`.
    ensures r.Ok? ==> && a.mint in r.value.mints
                      && a.destination in l.mints[a.mint].holders
                      && r.value.mints[a.mint].supply == l.mints[a.mint].supply + amount
                      && r.value.mints[a.mint].holders.Keys == l.mints[a.mint].holders.Keys
                      && r.value.mints[a.mint].holders[a.destination] == l.mints[a.mint].holders[a.destination] + amount
                      && r.value.mints[a.mint].authority == l.mints[a.mint].authority
    // Nothing else changes; in particular the configuration records do not.
    ensures r.Ok? ==> && r.value.configs == l.configs
                      && r.value.mints == l.mints[a.mint := r.value.mints[a.mint]]
                      && forall h | h in l.mints[a.mint].holders && h != a.destination ::
                           r.value.mints[a.mint].holders[h] == l.mints[a.mint].holders[h]
    // Once the authority is removed, nobody mints.
    ensures a.mint in l.mints && l.mints[a.mint].authority.None? ==> r.Err?
  {
    // `destination` is loaded with the other accounts, before any constraint
    // and before the owner check.
    if a.owner !in signers then Err(AccountNotSigner)
    else if a.mint !in l.mints || !IsTokenAccount(l, a.destination) then Err(AccountNotInitialized)
    else match CheckOwner(rt, l, a.owner, a.mint, a.mintAuthorityPda, a.config, signers)
    case Err(e) => Err(e)
    case Ok(cfg) =>
      match Token.MintTo(l.mints[a.mint], a.destination, a.mintAuthorityPda, signers + {a.mintAuthorityPda}, amount)
      case Err(e) => Err(TokenFailure(e))
      case Ok(m) => Ok(l.(mints := l.mints[a.mint := m]))
  }

  /** Lets the recorded owner remove the mint authority for good, signing
      for the derived authority with the recorded bump. */
  function DisableMinting(rt: Runtime, l: Ledger, a: DisableMintingAccounts, signers: TxSigners): (r: Result<Ledger, Error>)
    // Only the owner recorded in the mint's own record, having signed, disables.
    ensures r.Ok? ==> && a.owner in signers && a.config in l.configs
                      && a.owner == l.configs[a.config].owner
                      && ConfigAt(rt, a.mint, a.config)
    // The authority signed for is the address derived from the recorded bump.
    ensures r.Ok? ==> CreateProgramAddress(rt, AuthorityLabel, a.mint, l.configs[a.config].bump) == Some(a.mintAuthorityPda)
    // The derived authority held the mint, and afterwards nobody does.
    ensures r.Ok? ==> && a.mint in l.mints && a.mint in r.value.mints
                      && l.mints[a.mint].authority == Some(a.mintAuthorityPda)
                      && r.value.mints[a.mint].authority.None?
    // Nothing else changes.
    ensures r.Ok? ==> && r.value.configs == l.configs
                      && r.value.mints[a.mint].supply == l.mints[a.mint].supply
                      && r.value.mints[a.mint].holders == l.mints[a.mint].holders
                      && r.value.mints == l.mints[a.mint := r.value.mints[a.mint]]
    // A removed authority cannot be removed again.
    ensures a.mint in l.mints && l.mints[a.mint].authority.None? ==> r.Err?
  {
    match CheckOwner(rt, l, a.owner, a.mint, a.mintAuthorityPda, a.config, signers)
    case Err(e) => Err(e)
    case Ok(cfg) =>
      match Token.SetMintAuthority(l.mints[a.mint], a.mintAuthorityPda, signers + {a.mintAuthorityPda}, None)
      case Err(e) => Err(TokenFailure(e))
      case Ok(m) => Ok(l.(mints := l.mints[a.mint := m]))
  }

  /** A caller other than the recorded owner is turned away with
      `Unauthorized` once the accounts check out, and in every case fails. */
  lemma NonOwnerCannotMint(rt: Runtime, l: Ledger, a: MintTokensAccounts, signers: TxSigners, amount: u64)
    requires a.config in l.configs && a.owner != l.configs[a.config].owner
    ensures MintTokens(rt, l, a, signers, amount).Err?
    ensures GateAccountsValid(rt, l, a.owner, a.mint, a.mintAuthorityPda, a.config, signers)
            && IsTokenAccount(l, a.destination)
            ==> MintTokens(rt, l, a, signers, amount) == Err(Unauthorized)
  {
  }

  /** The same for disabling. */
  lemma NonOwnerCannotDisable(rt: Runtime, l: Ledger, a: DisableMintingAccounts, signers: TxSigners)
    requires a.config in l.configs && a.owner != l.configs[a.config].owner
    ensures DisableMinting(rt, l, a, signers).Err?
    ensures GateAccountsValid(rt, l, a.owner, a.mint, a.mintAuthorityPda, a.config, signers)
            ==> DisableMinting(rt, l, a, signers) == Err(Unauthorized)
  {
  }

  /** Whatever record the caller passes, only the owner in the record at the
      mint's own configuration address can mint: anyone else fails. */
  lemma StrangerCannotMint(rt: Runtime, l: Ledger, a: MintTokensAccounts, signers: TxSigners, amount: u64)
    requires ConfigAddress(rt, a.mint).Some? && ConfigAddress(rt, a.mint).value in l.configs
    requires a.owner != l.configs[ConfigAddress(rt, a.mint).value].owner
    ensures MintTokens(rt, l, a, signers, amount).Err?
  {
  }

  /** The same for disabling. */
  lemma StrangerCannotDisable(rt: Runtime, l: Ledger, a: DisableMintingAccounts, signers: TxSigners)
    requires ConfigAddress(rt, a.mint).Some? && ConfigAddress(rt, a.mint).value in l.configs
    requires a.owner != l.configs[ConfigAddress(rt, a.mint).value].owner
    ensures DisableMinting(rt, l, a, signers).Err?
  {
  }

  /** Initialization is single-shot: once the configuration address of a mint
      is occupied, every further `initialize` for that mint fails with
      `AccountInUse` once the other accounts check out, and in every case
      fails. */
  lemma InitializeIsSingleShot(rt: Runtime, l: Ledger, a: InitializeAccounts, signers: TxSigners, owner: Pubkey)
    requires ConfigAddress(rt, a.mint).Some? && ConfigAddress(rt, a.mint).value in l.configs
    ensures Initialize(rt, l, a, signers, owner).Err?
    ensures && a.payer in signers && a.mint in l.mints && a.currentMintAuthority in signers
            && a.config == ConfigAddress(rt, a.mint).value
            ==> Initialize(rt, l, a, signers, owner) == Err(AccountInUse)
  {
  }

  /** The converse of `Initialize`'s contract: when both signers signed, the
      signer holds the mint authority, the configuration address is free and
      both derived addresses are the right ones, `initialize` succeeds and
      records the owner argument with the canonical authority bump. */
  lemma InitializeSucceeds(rt: Runtime, l: Ledger, a: InitializeAccounts, signers: TxSigners, owner: Pubkey)
    requires a.payer in signers && a.currentMintAuthority in signers
    requires a.mint in l.mints && l.mints[a.mint].authority == Some(a.currentMintAuthority)
    requires ConfigAt(rt, a.mint, a.config) && a.config !in l.configs
    requires FindProgramAddress(rt, AuthorityLabel, a.mint).Some?
    requires a.mintAuthorityPda == FindProgramAddress(rt, AuthorityLabel, a.mint).value.0
    ensures Initialize(rt, l, a, signers, owner).Ok?
    ensures Initialize(rt, l, a, signers, owner).value.configs[a.config]
            == MintConfig(owner, a.mint, FindProgramAddress(rt, AuthorityLabel, a.mint).value.1)
  {
  }
}
