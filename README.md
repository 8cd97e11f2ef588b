# Solfidence reputation ledger in Dafny

This project models `solfidence`, the on-chain reputation ledger. It is an Anchor program for
Solana with three instructions:

- `initialize(user_name)` creates a `UserAccount` record `{owner, user_name, reputation}` at a fresh
  account address. The owner is the signing `user`, and the counter starts at 0.
- `create_reputation_nft()` calls the SPL Token program's `mint_to`. It mints one unit of a mint into
  a token account. It signs as the program-derived mint authority, whose seed is `b"mint_authority"`.
- `update_reputation(delta)` replaces the counter with `max(0, reputation + delta)`.

The last two instructions need the record's recorded `owner` to have signed (`has_one = owner`
plus a `Signer`).

Layout:

- `wrappers.dfy`: `Result` and `Outcome`. A failed instruction commits nothing (`ValueOr`).
- `numeric.dfy`: the i64 and u64 types and Rust's `as` casts between them, in two's complement.
- `utf8.dfy`: the UTF-8 well-formedness that a `String` argument must pass to decode.
- `pda.dfy`: addresses, `create_program_address` and `find_program_address`.
- `token.dfy`: the token program's `mint_to`, both as a pure function and as a `TokenProgram`
  class that holds the mint authorities and the token accounts.
- `ledger_spec.dfy`: the record, the Anchor constraints, each handler as a pure transition, and
  the dispatcher `Step`/`Run` over the whole chain state.
- `solfidence.dfy`: class `Ledger`, the program's account store. Its three methods are the
  handlers, and they update the store in place. Each method is proved equal to its transition.
- `properties.dfy`: lemmas about the transitions.

What the code does, and what the model therefore states:

- `create_reputation_nft` has no single-issuance guard and the record has no minted flag: every
  repeated call mints another unit (`CreateReputationNftMintsAgain`).
- A negative `delta` is clamped at 0, never rejected; `update_reputation` has no error of its own.
- Nothing ties `user_token_account` to the owner: any token account of the mint can receive the unit.
- `mint_to` succeeds whenever the mint's authority is the program's derived address. That address
  comes from the fixed seed alone, so any registered owner can mint from any such mint.

Conventions of the model:

- The `i64` addition in `update_reputation` aborts the transaction on overflow
  (`ArithmeticOverflow`). This is what Rust does with `overflow-checks = true`, which the Anchor
  workspace template enables for release builds. The workspace `Cargo.toml` is not part of this
  model.
- Each user name is modelled as its byte sequence. A name that is not valid UTF-8 fails to decode
  (`InstructionDidNotDeserialize`) before any account is looked at.
- `init` refuses an address that holds any account: a record, a token account or a mint.
- A transaction's signatures are passed in as a set of signing addresses.

## Model

| member | source | states |
|---|---|---|
| Numeric.U64AsI64 | programs/solfidence/src/lib.rs:48 | `reputation as i64` keeps the 64 bits: the result equals the input modulo 2^64, equals it exactly up to i64::MAX, and is negative above it |
| Numeric.I64AsU64 | programs/solfidence/src/lib.rs:49 | `as u64` keeps the 64 bits: the result equals the input modulo 2^64, and is exact for non-negative values |
| Pda.FindProgramAddress | programs/solfidence/src/lib.rs:87-90 | the derived address lies off the curve, and the returned bump re-derives it through create_program_address |
| Pda.FindProgramAddressInjective | programs/solfidence/src/lib.rs:87-90 | equal derived addresses have equal seeds and program ids; this restates the collision-freedom the model assumes of the derivation |
| Token.ApplyMintTo | programs/solfidence/src/lib.rs:31-41 | mint_to succeeds iff the destination holds the mint, the mint exists, its authority is the given one, and that authority signed; on success exactly the destination gains `amount` and nothing else changes |
| Token.TokenProgram.MintTo | programs/solfidence/src/lib.rs:31-41 | the token program's state after mint_to is the ApplyMintTo result, or unchanged on failure; mint authorities never change |
| LedgerSpec.HasOneOwner | programs/solfidence/src/lib.rs:72-76 | the account constraints pass iff the record exists, `owner` signed, and the record's owner is `owner` |
| LedgerSpec.Initialize | programs/solfidence/src/lib.rs:11-17 | succeeds iff the name is valid UTF-8, `user` signed, the address holds neither a record nor another program's account, and the name is at most 32 bytes; the new record is (user, name, 0) and every existing record is kept |
| LedgerSpec.NewReputation | programs/solfidence/src/lib.rs:48-49 | for a counter within i64 range, the result is `max(0, old + delta)`, at most i64::MAX, and fails only on i64 overflow |
| LedgerSpec.UpdateReputation | programs/solfidence/src/lib.rs:46-51 | succeeds only under the owner constraints, and then exactly when the new counter does not overflow; it changes only the counter of that one record, never owner or name |
| LedgerSpec.CreateReputationNft | programs/solfidence/src/lib.rs:19-44 | succeeds iff the owner constraints hold, `mint_authority` is the derived address, the token account holds the mint and the mint's authority is that address; the one token account gains exactly 1 and all else is unchanged |
| LedgerSpec.Step | programs/solfidence/src/lib.rs:7-52 | one transaction never changes mint authorities; only create_reputation_nft changes token balances, and it never changes records |
| Solfidence.Ledger.Initialize | programs/solfidence/src/lib.rs:11-17 | the handler writes owner, name and reputation 0 into the fresh record; the store becomes the Initialize result (with the token program's mints and token accounts counted as addresses in use), or stays unchanged on error; the store invariant is kept |
| Solfidence.Ledger.CreateReputationNft | programs/solfidence/src/lib.rs:19-44 | it checks constraints and the seeds, then calls mint_to signed with `[b"mint_authority", [bump]]`; token balances become the CreateReputationNft result and the ledger itself is unchanged |
| Solfidence.Ledger.UpdateReputation | programs/solfidence/src/lib.rs:46-51 | it writes `((rep as i64) + delta).max(0) as u64` in place; the store becomes the UpdateReputation result, or stays unchanged on error; the store invariant is kept |
| LedgerProperties.InitializeTwiceFails | programs/solfidence/src/lib.rs:63 | a second `init` of an initialized address always fails, with AccountAlreadyInUse once its argument decodes and its user signed, and the first record stays as written |
| LedgerProperties.NameFitsSpace | programs/solfidence/src/lib.rs:63 | the layout arithmetic behind the name bound: the record fits `8 + 32 + (4 + 32) + 8` bytes iff the name has at most 32 bytes |
| LedgerProperties.UpdateReputationClamps | programs/solfidence/src/lib.rs:46-50 | an authorized update succeeds iff old + delta fits an i64; a non-positive delta is never rejected; the result is `max(0, old + delta)` and the store stays valid |
| LedgerProperties.UpdateReputationNeedsOwner | programs/solfidence/src/lib.rs:100-102 | a missing record, a missing signature, or a wrong owner makes update_reputation fail |
| LedgerProperties.NonNegativeUpdatesAccumulate | programs/solfidence/src/lib.rs:48-49 | a run of non-negative updates by the owner succeeds while the total fits, and ends at start + sum of the deltas with owner and name untouched |
| LedgerProperties.NonNegativeUpdatesMonotone | programs/solfidence/src/lib.rs:48-49 | with non-negative deltas, the counter after a longer prefix of updates is at least the counter after a shorter one |
| LedgerProperties.CreateReputationNftMintsAgain | programs/solfidence/src/lib.rs:19-44 | after a successful mint, the same call succeeds again and the balance is then 2 above where it started: there is no single-issuance guard |
| LedgerProperties.ClientDerivedAuthorityAccepted | programs/solfidence/src/lib.rs:28-38 | the signer seeds `[b"mint_authority", [bump]]` with the found bump re-derive the address the seeds constraint accepted, so the mint authority signs the mint_to call |
| LedgerProperties.AuthorityHasNoKeypair | programs/solfidence/src/lib.rs:86-91 | the mint authority is no keypair address, and a transaction signed by keypairs never carries its signature |
| LedgerProperties.CreateReputationNftNeedsOwnerAndAuthority | programs/solfidence/src/lib.rs:72-91 | without the signing recorded owner, or when the mint's authority is not the program's derived address, the mint fails |
| LedgerProperties.StepPreservesValid | programs/solfidence/src/lib.rs:54-59 | every transaction keeps names within 32 bytes and counters within i64 range |
| LedgerProperties.RunPreservesValid | programs/solfidence/src/lib.rs:54-59 | every sequence of transactions from a valid store keeps it valid |
| LedgerProperties.StepKeepsIdentity | programs/solfidence/src/lib.rs:11-51 | no transaction removes a record or changes its owner or name |
| LedgerProperties.RunKeepsIdentity | programs/solfidence/src/lib.rs:11-51 | over any sequence of transactions, records persist and keep their owner and name |
| LedgerProperties.OnlyOwnerChangesRecord | programs/solfidence/src/lib.rs:98-103 | an existing record changes only through update_reputation on that record, by its recorded owner who signed |
| LedgerProperties.OnlyOwnerMints | programs/solfidence/src/lib.rs:70-96 | token balances change only through create_reputation_nft by the signing owner of an existing record, and then by exactly +1 in exactly one token account |
| LedgerProperties.TestSuiteScenario | tests/solfidence.ts:25-138 | in the test run, initialize gives (wallet, "test_user", 0), the mint leaves balance 1, and update_reputation(10) gives 10 |
| Utf8.AsciiIsValid | programs/solfidence/src/lib.rs:11 | every ASCII name decodes as a `String` argument |
| Utf8.InvalidLeadRejected | programs/solfidence/src/lib.rs:11 | a name starting with a stray continuation byte, 0xC0, 0xC1 or 0xF5..0xFF does not decode |
| LedgerProperties.StepPreservesDisjoint | programs/solfidence/src/lib.rs:63 | no transaction makes a record share its address with a token account or a mint |
| LedgerProperties.RunPreservesDisjoint | programs/solfidence/src/lib.rs:63 | over any sequence of transactions, records, token accounts and mints keep distinct addresses |
| LedgerProperties.StepKeepsKeypairOwners | programs/solfidence/src/lib.rs:11-16 | a transaction signed by keypairs creates records only for keypair owners |
| LedgerProperties.RunKeepsKeypairOwners | programs/solfidence/src/lib.rs:11-16 | over transactions signed by keypairs, every record is owned by a keypair address, so the mint authority never owns a record |
| LedgerProperties.TestUserInitialized | tests/solfidence.ts:25-42 | initialize("test_user") on a fresh address signed by the wallet and the new account creates exactly the record (wallet, "test_user", 0) |
| LedgerProperties.TestMintStep | tests/solfidence.ts:106-122 | create_reputation_nft by the record's owner into the wallet's empty token account of a mint whose authority is the derived address leaves balance exactly 1 |
| LedgerProperties.TestUpdateStep | tests/solfidence.ts:125-137 | update_reputation(10) by the owner on a record at 0 gives reputation 10 |

## Left out

- The bump search: `find_program_address` tries bumps from 255 downwards until the candidate lies
  off the ed25519 curve. The model treats every candidate as off-curve, so the bump is always 255.
  The SHA-256 derivation is a datatype constructor.
- The seed-count and seed-length limits of `create_program_address`. The program's one seed is
  within them.
- Lamports, rent, and allocation by the System program. Also left out: the signature of the new
  account that `init` needs through `create_account`, and the discriminator and owner-program checks
  of `Account<UserAccount>` beyond "a record exists at that address".
- The program-id checks of `token_program`, `system_program` and `rent`, and the `mut` markers.
- Token program internals: frozen accounts, mints without an authority, the supply counter, and
  u64 overflow of balances. Balances are unbounded naturals.
- Client-side creation of the mint and its token account. The token program's state is given, not
  built.
- The precedence among the errors is fixed, and only success versus failure is relied on. For
  `initialize` the order is: name not decodable, signer missing, address in use, name too long. For
  the other two instructions it is: record missing, signer missing, `has_one`, then seeds.
- Transaction atomicity and ordering come from the runtime. Each handler is one atomic step, and
  an error returns the state unchanged.
- Pda.FindProgramAddressInjective: collision-freedom of the derivation is assumed by construction
  (`Derived` is a datatype constructor) and the lemma restates that assumption; SHA-256 collision
  resistance is not modelled.
- LedgerSpec.Initialize: funded system accounts (wallets) are not part of the chain state, so an
  `init` at a wallet's own address, which the System program refuses, is not rejected here.
- Solfidence.Ledger.Initialize: same gap as `LedgerSpec.Initialize`, since it sees only its own
  records and the token program's accounts, not funded wallets.
- The transition functions accept any set of signers. The facts that depend on signatures coming
  from private keys take `SignedByKeypairs` as a hypothesis.
- The web app (`app/solana-auth-app`) and the RPC test client. They are UI and network I/O. The
  test's assertions appear only as `TestSuiteScenario` and its three step lemmas.
