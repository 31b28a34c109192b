# Owner-gated mint authority, modelled in Dafny

This project models the `owner_mint_token` program, an Anchor program for
Solana. The program takes the minting authority of a token mint away from a
signing wallet and gives it to a program-derived address (PDA). From then on,
only the owner named in the mint's configuration record can mint new tokens
or remove the authority for good.

The model is functional. A `Ledger` holds the mint accounts and the
configuration records, each keyed by account address. Each instruction is a
pure function that returns either the new ledger or the error that aborted
it. A failed instruction leaves the ledger unchanged, as a failed Solana
transaction does.

- `types.dfy` (`Types`): `u8` and `u64`, `Option`, `Result`, and `Pubkey`.
  A `Pubkey` is either a `Wallet` key, which has a secret and can sign, or a
  `Derived(tag, base, bump)` address. Constructor injectivity makes address
  derivation injective. A derived address is never a wallet key, so nobody
  can sign for it directly. `TxSigners` is the set of keys that signed a
  top-level transaction; only wallet keys can be in it.
- `derivation.dfy` (`Derivation`): `CreateProgramAddress` and
  `FindProgramAddress`. The hash is abstracted. `Runtime.onCurve` is the fixed
  set of candidate addresses that land on the curve. The search tries bumps
  from 255 down to 1, never 0, and returns the canonical bump, which is the
  highest one that works. `ConfigAddress` is the mint's configuration
  address.
- `token.dfy` (`Token`): the token program as an abstract contract.
  `SetMintAuthority` and `MintTo` succeed only when the presented authority is
  the mint's current authority and has signed.
- `program.dfy` (`OwnerMintToken`): `MintConfig`, the account structs,
  `Initialize`, `MintTokens` and `DisableMinting`, and the `Unauthorized` error
  together with the framework's account-check errors.
- `lifecycle.dfy` (`Lifecycle`): instruction sequences (`Run`), the ledger
  invariant `Valid`, and lemmas about sequences of instructions. Every
  configured mint's authority is its PDA or nothing. A removed authority stays
  removed. Configuration records never change.
- `scenario.dfy` (`Scenario`): one concrete run through initialize, mint, a
  rejected stranger, disable, and a rejected mint.

The mint authority moves from a signing wallet, to the PDA (at `initialize`),
to nothing (at `disable_minting`). The only authority writes in the program
are `Some(pda)` in `initialize` and `None` in `disable_minting`. The token
program refuses any authority change once the authority is `None`. So `None`
is terminal for every mint (`RunKeepsDisabled`), and `initialize` runs at most
once per mint because its `init` constraint needs an empty configuration
address (`InitializeOncePerMint`).

Checks run in the framework's order. First every account that is not being
created is loaded, in field order: each `Signer` must have signed, and each
typed account (the mint, `destination`, an existing `config`) must exist.
Then the `init` constraint on `config` in `initialize` runs: its address must
be the derived one and must be free. Then the other `seeds` constraints run,
in field order. Then the handler compares the caller with the recorded owner,
and last comes the call into the token program. So when an account or a
signature is wrong, the framework's check fails first. `Unauthorized` is the
error only when all the accounts are correct and the caller is not the
recorded owner (`NonOwnerCannotMint`).

The gated instructions never compare `config.mint` with the mint account they
are given. The model shows that this is safe under the invariant: a record
found at a mint's configuration address is that mint's record
(`ConfigAtBindsMint`).

## Model

| member | source | states |
|---|---|---|
| `Derivation.CreateProgramAddress` | programs/ctuc/src/lib.rs:115-116 | Deriving from a tag, a base and an explicit bump fails exactly when the candidate lies on the curve. Otherwise it yields the address of exactly that tag, base and bump. |
| `Derivation.SearchBump` | programs/ctuc/src/lib.rs:95 | The search returns a viable bump between 1 and its start, and no higher bump up to the start is viable. When it returns nothing, no bump from 1 to the start is viable. |
| `Derivation.FindProgramAddress` | programs/ctuc/src/lib.rs:102 | The address found can be recreated from its bump, the bump is at least 1, and every higher bump is unusable. When there is no result, every bump from 1 to 255 is unusable. |
| `Derivation.FindIsCanonical` | programs/ctuc/src/lib.rs:95-96 | The search returns (address, bump) if and only if the bump is canonical: it is at least 1, it is viable, and every higher bump is not. |
| `Derivation.ConfigAddress` | programs/ctuc/src/lib.rs:131 | A mint has a configuration address exactly when the search on the `config` seeds succeeds. That address is derived from the `config` tag and the mint, with the canonical bump. |
| `Derivation.CreateIsInjective` | programs/ctuc/src/lib.rs:129 | Two seed sets that derive the same address are the same tag, base and bump. |
| `Derivation.AuthorityIsNotConfig` | programs/ctuc/src/lib.rs:95-102 | The mint's authority address and its configuration address never coincide, whatever the bump, because their tags differ. |
| `Derivation.ConfigAddressIsInjective` | programs/ctuc/src/lib.rs:131 | Two mints with the same configuration address are the same mint. |
| `Token.SetMintAuthority` | programs/ctuc/src/lib.rs:23-27 | The authority change succeeds if and only if the presented authority is the current one and signed. On success only the authority changes. With no authority it fails with `FixedSupply`. |
| `Token.MintTo` | programs/ctuc/src/lib.rs:52-55 | Minting succeeds if and only if the destination holds this mint and the presented authority is the current one and signed. On success supply and destination balance rise by the amount, and other balances and the authority stay the same. |
| `OwnerMintToken.Initialize` | programs/ctuc/src/lib.rs:11-29 | On success the record is new and sits at the mint's configuration address. It stores the owner argument, the mint and the canonical authority bump. The authority was the signing wallet and is now the PDA, which differs from that wallet. Supply, balances and other mints are unchanged. |
| `OwnerMintToken.GateAccountsValid` | programs/ctuc/src/lib.rs:126-132 | Once the owner has signed, the mint and record exist, the record sits at the mint's configuration address and the PDA comes from the recorded bump, the owner check alone decides the gate. It passes with the record for the recorded owner and gives `Unauthorized` for anyone else. |
| `OwnerMintToken.CheckOwner` | programs/ctuc/src/lib.rs:110-134 | A gated call passes only if the owner signed, the mint and record exist, the record sits at the mint's configuration address, the PDA is re-derived from the recorded bump, and the caller is the recorded owner. `Unauthorized` means the caller differs from the recorded owner. |
| `OwnerMintToken.MintTokens` | programs/ctuc/src/lib.rs:31-57 | The destination must be an existing token account. Only the signed owner named in the record at the mint's own configuration address mints, using the PDA derived from the recorded bump, which must still be the mint's authority. Supply and destination balance rise by exactly `amount`. Records, authority, other balances and other mints are unchanged. With no authority it always fails. |
| `OwnerMintToken.DisableMinting` | programs/ctuc/src/lib.rs:59-85 | Only the signed owner named in the record at the mint's own configuration address disables, and only while the PDA derived from the recorded bump holds the authority. Afterwards the authority is `None`. Records, supply, balances and other mints are unchanged. A second disable fails. |
| `OwnerMintToken.NonOwnerCannotMint` | programs/ctuc/src/lib.rs:32-36 | A caller who is not the recorded owner never mints. When every account is correct, the call fails with exactly `Unauthorized`. Here "every account" includes a destination that exists as a token account. |
| `OwnerMintToken.NonOwnerCannotDisable` | programs/ctuc/src/lib.rs:60-64 | A caller who is not the recorded owner never disables. When every account is correct, the call fails with exactly `Unauthorized`. |
| `OwnerMintToken.StrangerCannotMint` | programs/ctuc/src/lib.rs:119-120 | Whatever record the caller passes, a caller who is not the owner in the record at the mint's own configuration address never mints. |
| `OwnerMintToken.StrangerCannotDisable` | programs/ctuc/src/lib.rs:131-132 | Whatever record the caller passes, a caller who is not the owner in the record at the mint's own configuration address never disables. |
| `OwnerMintToken.InitializeIsSingleShot` | programs/ctuc/src/lib.rs:98-105 | Once the mint's configuration address holds a record, `initialize` for that mint fails. If both signers signed, the mint exists and `config` is that address, it fails with `AccountInUse`, whatever the authority PDA is. |
| `OwnerMintToken.InitializeSucceeds` | programs/ctuc/src/lib.rs:11-29 | `initialize` succeeds if both signers signed, the signer holds the mint authority, `config` is the mint's free configuration address and the PDA is the derived one. The new record holds the owner argument, the mint and the canonical bump. |
| `Lifecycle.FreshLedgerIsValid` | programs/ctuc/src/lib.rs:98-105 | A ledger with no configuration records meets the invariant, whatever its mints. |
| `Lifecycle.NoWalletAuthority` | programs/ctuc/src/lib.rs:23-27 | Under the invariant a configured mint's authority is a derived address or nothing, never a wallet key. |
| `Lifecycle.OneConfigPerMint` | programs/ctuc/src/lib.rs:98-104 | Under the invariant two records for the same mint are the same record. |
| `Lifecycle.ConfigAtBindsMint` | programs/ctuc/src/lib.rs:119-120 | Under the invariant a record found at a mint's configuration address names that mint, although the gated instructions never compare the two. |
| `Lifecycle.NewConfigKeepsValid` | programs/ctuc/src/lib.rs:12-15 | Adding a new record that governs its mint keeps the invariant for every other record, and pointing that mint's authority at its PDA keeps it too. |
| `Lifecycle.MintUpdateKeepsValid` | programs/ctuc/src/lib.rs:38-55 | Changing one mint account while keeping its authority, or removing it, keeps the invariant when the records are unchanged. |
| `Lifecycle.InitializePreservesValid` | programs/ctuc/src/lib.rs:12-15 | A successful `initialize` keeps every record at its mint's configuration address, with the canonical bump, and with the mint's authority set to that PDA or to nothing. |
| `Lifecycle.InitializeKeepsAccounts` | programs/ctuc/src/lib.rs:98-105 | A successful `initialize` adds a record without changing any existing one, and creates or deletes no mint account. |
| `Lifecycle.MintTokensPreservesValid` | programs/ctuc/src/lib.rs:119-120 | A successful `mint_tokens` keeps the invariant and every record, and changes no set of mint accounts. |
| `Lifecycle.DisableMintingPreservesValid` | programs/ctuc/src/lib.rs:131-132 | A successful `disable_minting` keeps the invariant and every record, and changes no set of mint accounts. |
| `Lifecycle.Step` | programs/ctuc/src/lib.rs:7-86 | A failed instruction leaves the ledger unchanged. No instruction, successful or not, creates or deletes a mint account or changes or removes a record. |
| `Lifecycle.Run` | programs/ctuc/src/lib.rs:7-86 | Over any sequence of instructions the mint accounts stay the same and every existing record is kept. The empty sequence changes nothing. |
| `Lifecycle.StepPreserves` | programs/ctuc/src/lib.rs:7-86 | Any single instruction, successful or not, keeps the invariant and every existing record, and keeps the set of mint accounts. |
| `Lifecycle.RunPreserves` | programs/ctuc/src/lib.rs:136-141 | Over any sequence of instructions, the invariant, every existing record and the set of mint accounts are kept. |
| `Lifecycle.NonOwnerMintChangesNothing` | programs/ctuc/src/lib.rs:32-36 | A `mint_tokens` by anyone but the recorded owner leaves the ledger exactly as it was: supply, balances, authority and records. |
| `Lifecycle.NonOwnerDisableChangesNothing` | programs/ctuc/src/lib.rs:60-64 | A `disable_minting` by anyone but the recorded owner leaves the ledger exactly as it was. |
| `Lifecycle.StepKeepsDisabled` | programs/ctuc/src/lib.rs:79-83 | No instruction restores a removed authority. |
| `Lifecycle.RunKeepsDisabled` | programs/ctuc/src/lib.rs:81-82 | Over any sequence of instructions, a removed authority stays removed. |
| `Lifecycle.MintingFailsAfterDisable` | programs/ctuc/src/lib.rs:38-55 | After a successful `disable_minting`, whatever follows, every `mint_tokens` for that mint fails, even by the owner. |
| `Lifecycle.InitializeOncePerMint` | programs/ctuc/src/lib.rs:99-103 | After a successful `initialize`, whatever follows, every further `initialize` of that mint fails. |
| `Lifecycle.ConfigFixedAfterInitialize` | programs/ctuc/src/lib.rs:13-14 | After `initialize`, whatever follows, the record still names the owner argument and the mint, and is unchanged. |
| `Lifecycle.OwnerCanMint` | programs/ctuc/src/lib.rs:115 | Under the invariant the recorded owner's mint succeeds while any authority remains. The PDA re-derived from the recorded bump is the one `initialize` installed. |
| `Lifecycle.OwnerCanDisable` | programs/ctuc/src/lib.rs:59-85 | Under the invariant, with the accounts correct, the recorded owner's `disable_minting` succeeds while any authority remains, and the authority is then `None`. |
| `Lifecycle.MintTwiceAdds` | programs/ctuc/src/lib.rs:39-44 | After a successful mint, a second mint with the same accounts also succeeds. Supply and destination balance rise by `a1 + a2` in total, and the records are unchanged. The second call succeeds only because the `u64` overflow check is not modelled. |
| `Scenario.EndToEnd` | programs/ctuc/src/lib.rs:11-85 | In a concrete run, bump 255 of the authority address is on the curve, so the record stores bump 254. The owner mints 100. A stranger is `Unauthorized`. Disable sets the authority to `None`. A further mint by the owner fails with `FixedSupply`. |

## Left out

- The real address derivation: SHA-256, the curve test and the program id. A `Derived` constructor stands for the hash. `Runtime.onCurve` says which candidates land on the curve. One program is modelled, so the program id is implicit.
- Anchor's account framing: the 8-byte discriminator, the `space = 8 + 32 + 32 + 1` sizing, and account ownership checks. A configuration record exists or does not. A mint account exists or does not.
- The `#[account(mut)]` writability checks on `payer`, `mint` and `destination`. Writability is not modelled, so a call with a read-only account is not refused.
- The program-id checks on `system_program` and `token_program`. The model has one token program and calls it directly.
- The payer's funding, rent, and the system program's account creation. Only the signature check on `payer` and the "address already in use" failure of `init` are kept.
- Calls from other programs. `TxSigners` holds only top-level transaction signers, which are wallet keys. So an `owner` or `current_mint_authority` that is another program's derived address, such as a multisig, can never act in the model, although such a program could sign for it through its own `invoke_signed`.
- Signature verification by the runtime. `TxSigners` is the set of keys that signed. `invoke_signed` adds the PDA to the signer set of the token-program call.
- The token program's internals: decimals, frozen accounts, account and mint layouts. A holding account is an entry of the mint's `holders` map. A destination that does not hold this mint fails with `InvalidDestination`.
- Lifecycle.MintTwiceAdds: the second mint is proved to succeed only because overflow is not modelled; the token program would refuse it when the sum passes 2^64 - 1.
- Token.MintTo: supply and balances are unbounded, so the token program's `u64` overflow check is not modelled, and a mint that would overflow succeeds in the model.
- Transaction atomicity and concurrency. Each instruction is one indivisible function from ledger to ledger, and a failed one returns the old ledger.
- `find_program_address` aborts the transaction when no bump works. The model reports this as the `BumpSearchExhausted` error.
- `tests/ctuc.js` is an unfilled placeholder. It calls `initialize` without its `owner` argument and asserts nothing, so it is not part of this model.
