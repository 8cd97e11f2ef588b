/** What the ledger program guarantees, stated over its transitions. */
module LedgerProperties {
  import opened Wrappers
  import opened Numeric
  import opened Pda
  import opened Token
  import opened LedgerSpec
  import opened Utf8

  // ---- initialize ----

  /** `init` needs an address that holds no account: a second `initialize`
      of the same address always fails, with `AccountAlreadyInUse` once its
      argument decodes and its `user` signed, and the first record stays. */
  lemma InitializeTwiceFails(store: Store, inUse: set<Address>, userAccount: Address, user: Address,
                             signers: set<Address>, userName: Bytes, user2: Address, signers2: set<Address>,
                             userName2: Bytes)
    requires Initialize(store, inUse, userAccount, user, signers, userName).Ok?
    ensures var s1 := Initialize(store, inUse, userAccount, user, signers, userName).value;
      var r2 := Initialize(s1, inUse, userAccount, user2, signers2, userName2);
      && r2.Err?
      && (ValidUtf8(userName2) && user2 in signers2 ==> r2 == Err(AccountAlreadyInUse))
      && s1[userAccount] == UserAccount(user, userName, 0)
  {
  }

  /** The arithmetic behind the name bound of `Initialize`: the layout
      `8 + 32 + (4 + 32) + 8` leaves exactly 32 bytes for the name. */
  lemma NameFitsSpace(account: UserAccount)
    ensures SerializedSize(account) <= USER_ACCOUNT_SPACE <==> |account.userName| <= NAME_CAPACITY
  {
  }

  // ---- update_reputation ----

  /** On a valid store, an authorized update sets the counter to
      `max(0, old + delta)`; it fails only when `old + delta` overflows an
      i64, never because `delta` is negative, and the result is never
      negative nor above `i64::MAX`. */
  lemma UpdateReputationClamps(store: Store, userAccount: Address, owner: Address, signers: set<Address>, delta: I64)
    requires ValidStore(store)
    requires HasOneOwner(store, userAccount, owner, signers).Pass?
    ensures var r := UpdateReputation(store, userAccount, owner, signers, delta);
      && (r.Ok? <==> store[userAccount].reputation + delta <= I64_MAX)
      && (delta <= 0 ==> r.Ok?)
      && (r.Ok? ==> r.value[userAccount].reputation == Max(0, store[userAccount].reputation + delta))
      && (r.Ok? ==> ValidStore(r.value))
  {
    var r := UpdateReputation(store, userAccount, owner, signers, delta);
    if r.Ok? {
      forall a | a in r.value
        ensures |r.value[a].userName| <= NAME_CAPACITY && r.value[a].reputation <= I64_MAX
      {
        if a != userAccount { assert r.value[a] == store[a]; }
      }
    }
  }

  /** Whoever is not the recorded owner, or did not sign, cannot update. */
  lemma UpdateReputationNeedsOwner(store: Store, userAccount: Address, owner: Address, signers: set<Address>, delta: I64)
    requires userAccount !in store || owner !in signers || store[userAccount].owner != owner
    ensures UpdateReputation(store, userAccount, owner, signers, delta).Err?
  {
  }

  /** `delta` summed over a sequence of updates. */
  function Sum(deltas: seq<int>): int
    decreases |deltas|
  {
    if deltas == [] then 0 else deltas[0] + Sum(deltas[1..])
  }

  lemma {:induction false} SumAppend(a: seq<int>, b: seq<int>)
    ensures Sum(a + b) == Sum(a) + Sum(b)
    decreases |a|
  {
    if a == [] {
      assert a + b == b;
    } else {
      assert (a + b)[1..] == a[1..] + b;
      SumAppend(a[1..], b);
    }
  }

  lemma {:induction false} SumNonNegative(deltas: seq<int>)
    requires forall i :: 0 <= i < |deltas| ==> deltas[i] >= 0
    ensures Sum(deltas) >= 0
    decreases |deltas|
  {
    if deltas != [] {
      SumNonNegative(deltas[1..]);
    }
  }

  /** Repeated `update_reputation` calls by one caller on one record. */
  function ApplyUpdates(store: Store, userAccount: Address, owner: Address, signers: set<Address>,
                        deltas: seq<I64>): Result<Store, Error>
    decreases |deltas|
  {
    if deltas == [] then Ok(store)
    else
      match UpdateReputation(store, userAccount, owner, signers, deltas[0])
      case Err(e) => Err(e)
      case Ok(s) => ApplyUpdates(s, userAccount, owner, signers, deltas[1..])
  }

  /** With non-negative deltas the clamp never fires: the owner's updates
      all succeed (while the total fits an i64), and the counter ends at its
      start plus the sum of the deltas, with owner and name untouched. */
  lemma {:induction false} NonNegativeUpdatesAccumulate(store: Store, userAccount: Address, owner: Address,
                                                        signers: set<Address>, deltas: seq<I64>)
    requires ValidStore(store)
    requires HasOneOwner(store, userAccount, owner, signers).Pass?
    requires forall i :: 0 <= i < |deltas| ==> deltas[i] >= 0
    requires store[userAccount].reputation + Sum(deltas) <= I64_MAX
    ensures var r := ApplyUpdates(store, userAccount, owner, signers, deltas);
      && r.Ok? && ValidStore(r.value) && userAccount in r.value
      && r.value[userAccount].reputation == store[userAccount].reputation + Sum(deltas)
      && r.value[userAccount].owner == store[userAccount].owner
      && r.value[userAccount].userName == store[userAccount].userName
    decreases |deltas|
  {
    if deltas != [] {
      SumNonNegative(deltas[1..]);
      UpdateReputationClamps(store, userAccount, owner, signers, deltas[0]);
      var s := UpdateReputation(store, userAccount, owner, signers, deltas[0]).value;
      assert forall i :: 0 <= i < |deltas[1..]| ==> deltas[1..][i] >= 0 by {
        forall i | 0 <= i < |deltas[1..]| ensures deltas[1..][i] >= 0 {
          assert deltas[1..][i] == deltas[i + 1];
        }
      }
      NonNegativeUpdatesAccumulate(s, userAccount, owner, signers, deltas[1..]);
    }
  }

  /** With non-negative deltas the counter never decreases: after any
      longer prefix of the updates it is at least what it was after a
      shorter one. */
  lemma NonNegativeUpdatesMonotone(store: Store, userAccount: Address, owner: Address, signers: set<Address>,
                                   deltas: seq<I64>, i: nat, j: nat)
    requires ValidStore(store)
    requires HasOneOwner(store, userAccount, owner, signers).Pass?
    requires forall k :: 0 <= k < |deltas| ==> deltas[k] >= 0
    requires store[userAccount].reputation + Sum(deltas) <= I64_MAX
    requires i <= j <= |deltas|
    ensures var ri := ApplyUpdates(store, userAccount, owner, signers, deltas[..i]);
      var rj := ApplyUpdates(store, userAccount, owner, signers, deltas[..j]);
      && ri.Ok? && userAccount in ri.value
      && rj.Ok? && userAccount in rj.value
      && ri.value[userAccount].reputation <= rj.value[userAccount].reputation
  {
    assert deltas == deltas[..i] + deltas[i..j] + deltas[j..];
    SumAppend(deltas[..i] + deltas[i..j], deltas[j..]);
    SumAppend(deltas[..i], deltas[i..j]);
    assert deltas[..j] == deltas[..i] + deltas[i..j];
    SumNonNegative(deltas[i..j]);
    SumNonNegative(deltas[j..]);
    NonNegativeUpdatesAccumulate(store, userAccount, owner, signers, deltas[..i]);
    NonNegativeUpdatesAccumulate(store, userAccount, owner, signers, deltas[..j]);
  }

  // ---- create_reputation_nft ----

  /** There is no single-issuance guard: whenever a mint succeeded, the very
      same call succeeds again and the destination then holds two more units. */
  lemma CreateReputationNftMintsAgain(store: Store, mintAuthorities: map<Address, Address>, holdings: Holdings,
                                      programId: Address, userAccount: Address, owner: Address,
                                      signers: set<Address>, mint: Address, userTokenAccount: Address,
                                      mintAuthority: Address)
    requires CreateReputationNft(store, mintAuthorities, holdings, programId, userAccount, owner, signers,
                                 mint, userTokenAccount, mintAuthority).Ok?
    ensures var h1 := CreateReputationNft(store, mintAuthorities, holdings, programId, userAccount, owner, signers,
                                          mint, userTokenAccount, mintAuthority).value;
      var r2 := CreateReputationNft(store, mintAuthorities, h1, programId, userAccount, owner, signers,
                                    mint, userTokenAccount, mintAuthority);
      r2.Ok? && r2.value[userTokenAccount].amount == holdings[userTokenAccount].amount + 2
  {
  }

  /** The signer seeds `[b"mint_authority", [bump]]` of the `mint_to` call,
      with the bump found for the seed, re-derive the very address the
      seeds constraint accepted, so the token program sees the mint
      authority as a signer. */
  lemma ClientDerivedAuthorityAccepted(programId: Address)
    ensures var (pda, bump) := MintAuthority(programId);
      CreateProgramAddress([MINT_AUTHORITY_SEED, [bump]], programId) == pda
  {
    var (pda, bump) := MintAuthority(programId);
    assert [MINT_AUTHORITY_SEED, [bump]] == [MINT_AUTHORITY_SEED] + [[bump]];
  }

  /** The mint authority is no keypair address, so a transaction signed by
      keypairs never carries its signature: the program alone signs for it,
      in the `mint_to` call of `create_reputation_nft`. */
  lemma AuthorityHasNoKeypair(programId: Address, tx: Transaction)
    requires SignedByKeypairs(tx)
    ensures forall id :: MintAuthority(programId).0 != Key(id)
    ensures MintAuthority(programId).0 !in tx.signers
  {
  }

  /** A mint succeeds only for the recorded owner who signed, and only with
      the program's own derived authority, which must be the mint's authority. */
  lemma CreateReputationNftNeedsOwnerAndAuthority(store: Store, mintAuthorities: map<Address, Address>,
                                                  holdings: Holdings, programId: Address, userAccount: Address,
                                                  owner: Address, signers: set<Address>, mint: Address,
                                                  userTokenAccount: Address, mintAuthority: Address)
    requires userAccount !in store || owner !in signers || store[userAccount].owner != owner
             || mint !in mintAuthorities || mintAuthorities[mint] != MintAuthority(programId).0
    ensures CreateReputationNft(store, mintAuthorities, holdings, programId, userAccount, owner, signers,
                                mint, userTokenAccount, mintAuthority).Err?
  {
  }

  // ---- the program as a whole ----

  /** Every transaction keeps the store valid. */
  lemma StepPreservesValid(programId: Address, c: Chain, tx: Transaction)
    requires ValidStore(c.accounts)
    ensures ValidStore(Step(programId, c, tx).accounts)
  {
    match tx.ix
    case InitializeIx(_, _, _) =>
    case CreateReputationNftIx(_, _, _, _, _) =>
    case UpdateReputationIx(userAccount, owner, delta) =>
      if HasOneOwner(c.accounts, userAccount, owner, tx.signers).Pass? {
        UpdateReputationClamps(c.accounts, userAccount, owner, tx.signers, delta);
      }
  }

  /** Every run of transactions from a valid store keeps it valid. */
  lemma {:induction false} RunPreservesValid(programId: Address, c: Chain, txs: seq<Transaction>)
    requires ValidStore(c.accounts)
    ensures ValidStore(Run(programId, c, txs).accounts)
    decreases |txs|
  {
    if txs != [] {
      StepPreservesValid(programId, c, txs[0]);
      RunPreservesValid(programId, Step(programId, c, txs[0]), txs[1..]);
    }
  }

  /** A record, once created, is never removed, and its owner and name never change. */
  predicate KeepsIdentity(before: Store, after: Store) {
    forall a :: a in before ==> a in after && after[a].owner == before[a].owner && after[a].userName == before[a].userName
  }

  lemma StepKeepsIdentity(programId: Address, c: Chain, tx: Transaction)
    ensures KeepsIdentity(c.accounts, Step(programId, c, tx).accounts)
  {
  }

  lemma {:induction false} RunKeepsIdentity(programId: Address, c: Chain, txs: seq<Transaction>)
    ensures KeepsIdentity(c.accounts, Run(programId, c, txs).accounts)
    decreases |txs|
  {
    if txs != [] {
      var c1 := Step(programId, c, txs[0]);
      StepKeepsIdentity(programId, c, txs[0]);
      RunKeepsIdentity(programId, c1, txs[1..]);
    }
  }

  /** Only the recorded owner, having signed, changes an existing record,
      and only through `update_reputation` on that record. */
  lemma OnlyOwnerChangesRecord(programId: Address, c: Chain, tx: Transaction, a: Address)
    requires a in c.accounts
    requires Step(programId, c, tx).accounts[a] != c.accounts[a]
    ensures tx.ix.UpdateReputationIx? && tx.ix.userAccount == a
    ensures tx.ix.owner == c.accounts[a].owner && tx.ix.owner in tx.signers
  {
  }

  /** Token balances change only through `create_reputation_nft` called by
      the signing owner of an existing record, and then by exactly one unit
      in exactly one token account. */
  lemma OnlyOwnerMints(programId: Address, c: Chain, tx: Transaction)
    requires Step(programId, c, tx).holdings != c.holdings
    ensures tx.ix.CreateReputationNftIx?
    ensures tx.ix.userAccount in c.accounts && c.accounts[tx.ix.userAccount].owner == tx.ix.owner
    ensures tx.ix.owner in tx.signers
    ensures var to := tx.ix.userTokenAccount;
      to in c.holdings
      && Step(programId, c, tx).holdings == c.holdings[to := c.holdings[to].(amount := c.holdings[to].amount + 1)]
  {
    var to := tx.ix.userTokenAccount;
    var h := Step(programId, c, tx).holdings;
    assert h == c.holdings[to := c.holdings[to].(amount := c.holdings[to].amount + 1)];
  }

  /** Records, token accounts and mints keep distinct addresses: `init`
      never allocates an address that holds a token account or a mint. */
  lemma StepPreservesDisjoint(programId: Address, c: Chain, tx: Transaction)
    requires DisjointAccounts(c)
    ensures DisjointAccounts(Step(programId, c, tx))
  {
  }

  lemma {:induction false} RunPreservesDisjoint(programId: Address, c: Chain, txs: seq<Transaction>)
    requires DisjointAccounts(c)
    ensures DisjointAccounts(Run(programId, c, txs))
    decreases |txs|
  {
    if txs != [] {
      StepPreservesDisjoint(programId, c, txs[0]);
      RunPreservesDisjoint(programId, Step(programId, c, txs[0]), txs[1..]);
    }
  }

  /** Every record is owned by a keypair address. */
  predicate OwnedByKeypairs(store: Store) {
    forall a :: a in store ==> OnCurve(store[a].owner)
  }

  lemma StepKeepsKeypairOwners(programId: Address, c: Chain, tx: Transaction)
    requires OwnedByKeypairs(c.accounts) && SignedByKeypairs(tx)
    ensures OwnedByKeypairs(Step(programId, c, tx).accounts)
  {
  }

  /** In transactions signed by keypairs, every record that is ever created
      is owned by a keypair address; in particular the mint authority never
      owns a record. */
  lemma {:induction false} RunKeepsKeypairOwners(programId: Address, c: Chain, txs: seq<Transaction>)
    requires OwnedByKeypairs(c.accounts)
    requires forall i :: 0 <= i < |txs| ==> SignedByKeypairs(txs[i])
    ensures var s := Run(programId, c, txs).accounts;
      OwnedByKeypairs(s) && forall a :: a in s ==> s[a].owner != MintAuthority(programId).0
    decreases |txs|
  {
    if txs != [] {
      StepKeepsKeypairOwners(programId, c, txs[0]);
      RunKeepsKeypairOwners(programId, Step(programId, c, txs[0]), txs[1..]);
    } else {
      assert Run(programId, c, txs) == c;
    }
  }

  // ---- the program's own test run ----

  /** The name `"test_user"` of the test suite. */
  const TEST_USER: Bytes := [0x74, 0x65, 0x73, 0x74, 0x5f, 0x75, 0x73, 0x65, 0x72]

  /** The test suite's `initialize("test_user")` on a fresh address. */
  lemma TestUserInitialized(programId: Address, c0: Chain, wallet: nat, userAccount: nat)
    requires c0.accounts == map[] && Key(userAccount) !in c0.holdings && Key(userAccount) !in c0.mintAuthorities
    ensures Step(programId, c0, Transaction(InitializeIx(Key(userAccount), Key(wallet), TEST_USER),
                                            {Key(wallet), Key(userAccount)}))
         == c0.(accounts := map[Key(userAccount) := UserAccount(Key(wallet), TEST_USER, 0)])
  {
    AsciiIsValid(TEST_USER);
  }

  /** The test suite's `create_reputation_nft` into the wallet's empty token account. */
  lemma TestMintStep(programId: Address, c1: Chain, wallet: nat, userAccount: nat, mint: nat, ata: nat)
    requires c1.mintAuthorities == map[Key(mint) := MintAuthority(programId).0]
    requires c1.holdings == map[Key(ata) := TokenAccount(Key(mint), Key(wallet), 0)]
    requires Key(userAccount) in c1.accounts && c1.accounts[Key(userAccount)].owner == Key(wallet)
    ensures Step(programId, c1, Transaction(CreateReputationNftIx(Key(userAccount), Key(wallet), Key(mint), Key(ata),
                                                                  MintAuthority(programId).0), {Key(wallet)}))
         == c1.(holdings := map[Key(ata) := TokenAccount(Key(mint), Key(wallet), 1)])
  {
  }

  /** The test suite's `update_reputation(10)` on a record at 0. */
  lemma TestUpdateStep(programId: Address, c2: Chain, wallet: nat, userAccount: nat)
    requires Key(userAccount) in c2.accounts
    requires c2.accounts[Key(userAccount)].owner == Key(wallet) && c2.accounts[Key(userAccount)].reputation == 0
    ensures var c3 := Step(programId, c2, Transaction(UpdateReputationIx(Key(userAccount), Key(wallet), 10), {Key(wallet)}));
      Key(userAccount) in c3.accounts && c3.accounts[Key(userAccount)].reputation == 10
  {
  }

  /** The test suite's run: `initialize("test_user")` gives owner = wallet,
      name "test_user", reputation 0; `create_reputation_nft` leaves the
      new token account with balance 1; `update_reputation(10)` gives 10. */
  lemma TestSuiteScenario(programId: Address, wallet: nat, userAccount: nat, mint: nat, ata: nat)
    requires |{wallet, userAccount, mint, ata}| == 4
    ensures
      var c0 := Chain(map[], map[Key(mint) := MintAuthority(programId).0],
                      map[Key(ata) := TokenAccount(Key(mint), Key(wallet), 0)]);
      var c1 := Step(programId, c0, Transaction(InitializeIx(Key(userAccount), Key(wallet), TEST_USER),
                                                {Key(wallet), Key(userAccount)}));
      var c2 := Step(programId, c1, Transaction(CreateReputationNftIx(Key(userAccount), Key(wallet), Key(mint), Key(ata),
                                                                      MintAuthority(programId).0), {Key(wallet)}));
      var c3 := Step(programId, c2, Transaction(UpdateReputationIx(Key(userAccount), Key(wallet), 10), {Key(wallet)}));
      && c1.accounts[Key(userAccount)] == UserAccount(Key(wallet), TEST_USER, 0)
      && c2.holdings[Key(ata)].amount == 1
      && c3.accounts[Key(userAccount)].reputation == 10
  {
    var c0 := Chain(map[], map[Key(mint) := MintAuthority(programId).0],
                    map[Key(ata) := TokenAccount(Key(mint), Key(wallet), 0)]);
    TestUserInitialized(programId, c0, wallet, userAccount);
    var c1 := c0.(accounts := map[Key(userAccount) := UserAccount(Key(wallet), TEST_USER, 0)]);
    TestMintStep(programId, c1, wallet, userAccount, mint, ata);
    var c2 := c1.(holdings := map[Key(ata) := TokenAccount(Key(mint), Key(wallet), 1)]);
    TestUpdateStep(programId, c2, wallet, userAccount);
  }
}
