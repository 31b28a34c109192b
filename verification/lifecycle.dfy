/** The mint-authority lifecycle over sequences of instructions.

    A failed instruction leaves the ledger as it was. Over any sequence of
    instructions: configuration records are never changed or removed, a
    configured mint's authority is its derived authority address or nothing
    (never a wallet), a removed authority stays removed, and after removal
    every mint fails, the owner's included. */
module Lifecycle {
  import opened Types
  import opened Derivation
  import Token
  import opened OwnerMintToken

  datatype Instruction =
    | InitializeIx(initAccounts: InitializeAccounts, initSigners: TxSigners, owner: Pubkey)
    | MintTokensIx(mintAccounts: MintTokensAccounts, mintSigners: TxSigners, amount: u64)
    | DisableMintingIx(disableAccounts: DisableMintingAccounts, disableSigners: TxSigners)

  function Execute(rt: Runtime, l: Ledger, ix: Instruction): Result<Ledger, Error> {
    match ix
    case InitializeIx(a, s, owner) => Initialize(rt, l, a, s, owner)
    case MintTokensIx(a, s, amount) => MintTokens(rt, l, a, s, amount)
    case DisableMintingIx(a, s) => DisableMinting(rt, l, a, s)
  }

  /** Existing records keep their address and contents. */
  ghost predicate ConfigsKept(l: Ledger, l': Ledger) {
    forall addr | addr in l.configs :: addr in l'.configs && l'.configs[addr] == l.configs[addr]
  }

  /** All or nothing: a failed instruction leaves the ledger unchanged. No
      instruction, successful or not, creates or deletes a mint account or
      changes or removes an existing record. */
  function Step(rt: Runtime, l: Ledger, ix: Instruction): (r: Ledger)
    ensures Execute(rt, l, ix).Err? ==> r == l
    ensures r.mints.Keys == l.mints.Keys
    ensures ConfigsKept(l, r)
  {
    match Execute(rt, l, ix)
    case Ok(l') => l'
    case Err(_) => l
  }

  /** A transaction history: the instructions applied in order. Over the
      whole history the mint accounts stay the same and every existing record
      is kept. */
  function Run(rt: Runtime, l: Ledger, txs: seq<Instruction>): (r: Ledger)
    ensures |txs| == 0 ==> r == l
    ensures r.mints.Keys == l.mints.Keys
    ensures ConfigsKept(l, r)
    decreases |txs|
  {
    if |txs| == 0 then l else Run(rt, Step(rt, l, txs[0]), txs[1..])
  }

  /** The record at `addr` governs its mint: it sits at the mint's
      configuration address, its bump is the canonical authority bump, and
      the mint's authority is the derived authority address or nothing. */
  ghost predicate Governs(rt: Runtime, l: Ledger, addr: Pubkey, cfg: MintConfig) {
    && cfg.mint in l.mints
    && ConfigAt(rt, cfg.mint, addr)
    && FindProgramAddress(rt, AuthorityLabel, cfg.mint) == Some((Derived(AuthorityLabel, cfg.mint, cfg.bump), cfg.bump))
    && (l.mints[cfg.mint].authority.None?
        || l.mints[cfg.mint].authority == Some(Derived(AuthorityLabel, cfg.mint, cfg.bump)))
  }

  ghost predicate Valid(rt: Runtime, l: Ledger) {
    forall addr | addr in l.configs :: Governs(rt, l, addr, l.configs[addr])
  }

  /** A ledger with no configuration records satisfies the invariant. */
  lemma FreshLedgerIsValid(rt: Runtime, mints: map<Pubkey, Token.Mint>)
    ensures Valid(rt, Ledger(mints, map[]))
  {
  }

  /** Under the invariant, no wallet key can ever authorize minting for a
      configured mint: its authority is the derived address or nothing. */
  lemma NoWalletAuthority(rt: Runtime, l: Ledger, addr: Pubkey)
    requires Valid(rt, l) && addr in l.configs
    ensures l.configs[addr].mint in l.mints
    ensures l.mints[l.configs[addr].mint].authority.None?
            || l.mints[l.configs[addr].mint].authority.value.Derived?
  {
    assert Governs(rt, l, addr, l.configs[addr]);
  }

  /** At most one record per mint. */
  lemma OneConfigPerMint(rt: Runtime, l: Ledger, a1: Pubkey, a2: Pubkey)
    requires Valid(rt, l) && a1 in l.configs && a2 in l.configs
    requires l.configs[a1].mint == l.configs[a2].mint
    ensures a1 == a2
  {
    assert Governs(rt, l, a1, l.configs[a1]);
    assert Governs(rt, l, a2, l.configs[a2]);
  }

  /** A record found at the configuration address of `mint` is the record of
      `mint`. The gated instructions never compare `config.mint` with the
      mint account; the derived address alone ties them together. */
  lemma ConfigAtBindsMint(rt: Runtime, l: Ledger, mint: Pubkey, addr: Pubkey)
    requires Valid(rt, l) && addr in l.configs && ConfigAt(rt, mint, addr)
    ensures l.configs[addr].mint == mint
  {
    var cfg := l.configs[addr];
    assert Governs(rt, l, addr, cfg);
    ConfigAddressIsInjective(rt, cfg.mint, mint);
  }

  /** Adding a record that governs its mint, and pointing that mint's
      authority at the derived address, keeps the invariant. */
  lemma {:induction false} NewConfigKeepsValid(rt: Runtime, l: Ledger, l': Ledger, addr: Pubkey, cfg: MintConfig)
    requires Valid(rt, l)
    requires cfg.mint in l.mints && cfg.mint in l'.mints
    requires l'.configs == l.configs[addr := cfg] && addr !in l.configs
    requires l'.mints == l.mints[cfg.mint := l'.mints[cfg.mint]]
    requires ConfigAt(rt, cfg.mint, addr)
    requires FindProgramAddress(rt, AuthorityLabel, cfg.mint) == Some((Derived(AuthorityLabel, cfg.mint, cfg.bump), cfg.bump))
    requires l'.mints[cfg.mint].authority == Some(Derived(AuthorityLabel, cfg.mint, cfg.bump))
    ensures Valid(rt, l')
  {
    forall addr' | addr' in l'.configs
      ensures Governs(rt, l', addr', l'.configs[addr'])
    {
      if addr' != addr {
        var prior := l.configs[addr'];
        assert Governs(rt, l, addr', prior);
        assert prior.mint != cfg.mint;
      }
    }
  }

  lemma InitializePreservesValid(rt: Runtime, l: Ledger, a: InitializeAccounts, s: TxSigners, owner: Pubkey)
    requires Valid(rt, l)
    ensures Initialize(rt, l, a, s, owner).Ok? ==> Valid(rt, Initialize(rt, l, a, s, owner).value)
  {
    var r := Initialize(rt, l, a, s, owner);
    if r.Ok? {
      var l' := r.value;
      var bump: u8 :| && FindProgramAddress(rt, AuthorityLabel, a.mint) == Some((a.mintAuthorityPda, bump))
                      && l'.configs == l.configs[a.config := MintConfig(owner, a.mint, bump)];
      assert a.mintAuthorityPda == Derived(AuthorityLabel, a.mint, bump);
      NewConfigKeepsValid(rt, l, l', a.config, MintConfig(owner, a.mint, bump));
    }
  }

  lemma InitializeKeepsAccounts(rt: Runtime, l: Ledger, a: InitializeAccounts, s: TxSigners, owner: Pubkey)
    ensures Initialize(rt, l, a, s, owner).Ok? ==> ConfigsKept(l, Initialize(rt, l, a, s, owner).value)
    ensures Initialize(rt, l, a, s, owner).Ok? ==> Initialize(rt, l, a, s, owner).value.mints.Keys == l.mints.Keys
  {
    var r := Initialize(rt, l, a, s, owner);
    if r.Ok? {
      var l' := r.value;
      var bump: u8 :| l'.configs == l.configs[a.config := MintConfig(owner, a.mint, bump)];
      assert a.config !in l.configs;
      assert l'.mints == l.mints[a.mint := l'.mints[a.mint]];
    }
  }

  /** Changing one mint account without adding an authority keeps the
      invariant, as long as the records stay as they were. */
  lemma {:induction false} MintUpdateKeepsValid(rt: Runtime, l: Ledger, l': Ledger, mint: Pubkey)
    requires Valid(rt, l)
    requires mint in l.mints && mint in l'.mints && l'.configs == l.configs
    requires l'.mints == l.mints[mint := l'.mints[mint]]
    requires l'.mints[mint].authority.None? || l'.mints[mint].authority == l.mints[mint].authority
    ensures Valid(rt, l')
  {
    forall addr | addr in l'.configs
      ensures Governs(rt, l', addr, l'.configs[addr])
    {
      assert Governs(rt, l, addr, l.configs[addr]);
    }
  }

  lemma MintTokensPreservesValid(rt: Runtime, l: Ledger, a: MintTokensAccounts, s: TxSigners, amount: u64)
    requires Valid(rt, l)
    ensures MintTokens(rt, l, a, s, amount).Ok? ==> Valid(rt, MintTokens(rt, l, a, s, amount).value)
    ensures MintTokens(rt, l, a, s, amount).Ok? ==> ConfigsKept(l, MintTokens(rt, l, a, s, amount).value)
    ensures MintTokens(rt, l, a, s, amount).Ok? ==> MintTokens(rt, l, a, s, amount).value.mints.Keys == l.mints.Keys
  {
    var r := MintTokens(rt, l, a, s, amount);
    if r.Ok? {
      MintUpdateKeepsValid(rt, l, r.value, a.mint);
    }
  }

  lemma DisableMintingPreservesValid(rt: Runtime, l: Ledger, a: DisableMintingAccounts, s: TxSigners)
    requires Valid(rt, l)
    ensures DisableMinting(rt, l, a, s).Ok? ==> Valid(rt, DisableMinting(rt, l, a, s).value)
    ensures DisableMinting(rt, l, a, s).Ok? ==> ConfigsKept(l, DisableMinting(rt, l, a, s).value)
    ensures DisableMinting(rt, l, a, s).Ok? ==> DisableMinting(rt, l, a, s).value.mints.Keys == l.mints.Keys
  {
    var r := DisableMinting(rt, l, a, s);
    if r.Ok? {
      MintUpdateKeepsValid(rt, l, r.value, a.mint);
    }
  }

  /** One instruction keeps the invariant, keeps every existing record, and
      neither creates nor deletes mint accounts. */
  lemma StepPreserves(rt: Runtime, l: Ledger, ix: Instruction)
    requires Valid(rt, l)
    ensures Valid(rt, Step(rt, l, ix))
    ensures ConfigsKept(l, Step(rt, l, ix))
    ensures Step(rt, l, ix).mints.Keys == l.mints.Keys
  {
    match ix
    case InitializeIx(a, s, owner) =>
      InitializePreservesValid(rt, l, a, s, owner);
      InitializeKeepsAccounts(rt, l, a, s, owner);
    case MintTokensIx(a, s, amount) =>
      MintTokensPreservesValid(rt, l, a, s, amount);
    case DisableMintingIx(a, s) =>
      DisableMintingPreservesValid(rt, l, a, s);
  }

  /** Every sequence of instructions keeps the invariant, keeps every
      existing record unchanged, and keeps the set of mint accounts. */
  lemma {:induction false} RunPreserves(rt: Runtime, l: Ledger, txs: seq<Instruction>)
    requires Valid(rt, l)
    ensures Valid(rt, Run(rt, l, txs))
    ensures ConfigsKept(l, Run(rt, l, txs))
    ensures Run(rt, l, txs).mints.Keys == l.mints.Keys
    decreases |txs|
  {
    if |txs| > 0 {
      var l1 := Step(rt, l, txs[0]);
      StepPreserves(rt, l, txs[0]);
      RunPreserves(rt, l1, txs[1..]);
    }
  }

  /** A `mint_tokens` by anyone but the recorded owner leaves the whole
      ledger as it was: supply, balances, authority and records alike. */
  lemma NonOwnerMintChangesNothing(rt: Runtime, l: Ledger, a: MintTokensAccounts, s: TxSigners, amount: u64)
    requires a.config in l.configs && a.owner != l.configs[a.config].owner
    ensures Step(rt, l, MintTokensIx(a, s, amount)) == l
  {
    NonOwnerCannotMint(rt, l, a, s, amount);
  }

  /** A `disable_minting` by anyone but the recorded owner leaves the whole
      ledger as it was. */
  lemma NonOwnerDisableChangesNothing(rt: Runtime, l: Ledger, d: DisableMintingAccounts, s: TxSigners)
    requires d.config in l.configs && d.owner != l.configs[d.config].owner
    ensures Step(rt, l, DisableMintingIx(d, s)) == l
  {
    NonOwnerCannotDisable(rt, l, d, s);
  }

  /** A removed authority is never restored by any instruction. */
  lemma StepKeepsDisabled(rt: Runtime, l: Ledger, ix: Instruction, mint: Pubkey)
    requires mint in l.mints && l.mints[mint].authority.None?
    ensures mint in Step(rt, l, ix).mints && Step(rt, l, ix).mints[mint].authority.None?
  {
  }

  /** Removal is terminal over any sequence of instructions. */
  lemma {:induction false} RunKeepsDisabled(rt: Runtime, l: Ledger, txs: seq<Instruction>, mint: Pubkey)
    requires mint in l.mints && l.mints[mint].authority.None?
    ensures mint in Run(rt, l, txs).mints && Run(rt, l, txs).mints[mint].authority.None?
    decreases |txs|
  {
    if |txs| > 0 {
      StepKeepsDisabled(rt, l, txs[0], mint);
      RunKeepsDisabled(rt, Step(rt, l, txs[0]), txs[1..], mint);
    }
  }

  /** After a successful `disable_minting`, whatever follows, every
      `mint_tokens` for that mint fails, even when the owner calls it. */
  lemma MintingFailsAfterDisable(rt: Runtime, l: Ledger, d: DisableMintingAccounts, ds: TxSigners,
                                 txs: seq<Instruction>, a: MintTokensAccounts, s: TxSigners, amount: u64)
    requires DisableMinting(rt, l, d, ds).Ok?
    requires a.mint == d.mint
    ensures MintTokens(rt, Run(rt, DisableMinting(rt, l, d, ds).value, txs), a, s, amount).Err?
  {
    RunKeepsDisabled(rt, DisableMinting(rt, l, d, ds).value, txs, d.mint);
  }

  /** After a successful `initialize`, whatever follows, every further
      `initialize` of the same mint fails. */
  lemma InitializeOncePerMint(rt: Runtime, l: Ledger, a: InitializeAccounts, s: TxSigners, owner: Pubkey,
                              txs: seq<Instruction>, a2: InitializeAccounts, s2: TxSigners, owner2: Pubkey)
    requires Initialize(rt, l, a, s, owner).Ok?
    requires a2.mint == a.mint
    ensures Initialize(rt, Run(rt, Initialize(rt, l, a, s, owner).value, txs), a2, s2, owner2).Err?
  {
    var l1 := Initialize(rt, l, a, s, owner).value;
    assert a.config in l1.configs;
    InitializeIsSingleShot(rt, Run(rt, l1, txs), a2, s2, owner2);
  }

  /** The record written by `initialize` is never changed afterwards, so the
      owner and bump it records are the ones every later call checks. */
  lemma ConfigFixedAfterInitialize(rt: Runtime, l: Ledger, a: InitializeAccounts, s: TxSigners, owner: Pubkey,
                                   txs: seq<Instruction>)
    requires Initialize(rt, l, a, s, owner).Ok?
    ensures a.config in Run(rt, Initialize(rt, l, a, s, owner).value, txs).configs
    ensures Run(rt, Initialize(rt, l, a, s, owner).value, txs).configs[a.config].owner == owner
    ensures Run(rt, Initialize(rt, l, a, s, owner).value, txs).configs[a.config].mint == a.mint
    ensures Initialize(rt, l, a, s, owner).value.configs[a.config]
            == Run(rt, Initialize(rt, l, a, s, owner).value, txs).configs[a.config]
  {
    var l1 := Initialize(rt, l, a, s, owner).value;
    assert a.config in l1.configs;
  }

  /** The recorded owner can mint while the derived authority still holds the
      mint: the address re-derived from the recorded bump is the one that
      `initialize` installed. */
  lemma OwnerCanMint(rt: Runtime, l: Ledger, a: MintTokensAccounts, s: TxSigners, amount: u64)
    requires Valid(rt, l)
    requires a.config in l.configs && ConfigAt(rt, a.mint, a.config)
    requires a.owner == l.configs[a.config].owner && a.owner in s
    requires a.mintAuthorityPda == Derived(AuthorityLabel, a.mint, l.configs[a.config].bump)
    requires a.mint in l.mints && a.destination in l.mints[a.mint].holders
    requires l.mints[a.mint].authority.Some?
    ensures MintTokens(rt, l, a, s, amount).Ok?
  {
    ConfigAtBindsMint(rt, l, a.mint, a.config);
    assert Governs(rt, l, a.config, l.configs[a.config]);
    assert IsTokenAccount(l, a.destination) by {
      assert a.destination in l.mints[a.mint].holders;
    }
  }

  /** The recorded owner can disable minting while any authority remains:
      under the invariant that authority is the address re-derived from the
      recorded bump, which signs the token-program call. */
  lemma OwnerCanDisable(rt: Runtime, l: Ledger, d: DisableMintingAccounts, s: TxSigners)
    requires Valid(rt, l)
    requires GateAccountsValid(rt, l, d.owner, d.mint, d.mintAuthorityPda, d.config, s)
    requires d.owner == l.configs[d.config].owner
    requires l.mints[d.mint].authority.Some?
    ensures DisableMinting(rt, l, d, s).Ok?
    ensures DisableMinting(rt, l, d, s).value.mints[d.mint].authority.None?
  {
    ConfigAtBindsMint(rt, l, d.mint, d.config);
    assert Governs(rt, l, d.config, l.configs[d.config]);
  }

  /** Two successful mints by the same accounts add up: the second also
      succeeds, and supply and balance rise by `a1 + a2`. The second call
      succeeds only because balances are unbounded here: the token program's
      `u64` overflow check, which would refuse it when the sum passes
      2^64 - 1, is not modelled. */
  lemma MintTwiceAdds(rt: Runtime, l: Ledger, a: MintTokensAccounts, s: TxSigners, a1: u64, a2: u64)
    requires MintTokens(rt, l, a, s, a1).Ok?
    ensures MintTokens(rt, MintTokens(rt, l, a, s, a1).value, a, s, a2).Ok?
    ensures var l2 := MintTokens(rt, MintTokens(rt, l, a, s, a1).value, a, s, a2).value;
            && l2.mints[a.mint].supply == l.mints[a.mint].supply + a1 + a2
            && l2.mints[a.mint].holders[a.destination] == l.mints[a.mint].holders[a.destination] + a1 + a2
            && l2.configs == l.configs
  {
    var l1 := MintTokens(rt, l, a, s, a1).value;
    assert CheckOwner(rt, l1, a.owner, a.mint, a.mintAuthorityPda, a.config, s)
        == CheckOwner(rt, l, a.owner, a.mint, a.mintAuthorityPda, a.config, s);
  }
}
