/** The reputation ledger program as pure transitions: the `UserAccount`
    record, the Anchor account constraints of each instruction, the three
    handlers, and the instruction dispatcher over the whole chain state.
    Every transition either yields the new state or an error, and an error
    means the transaction changed nothing. */
module LedgerSpec {
  import opened Wrappers
  import opened Numeric
  import opened Pda
  import opened Token
  import opened Utf8

  /** The program's per-user record. */
  datatype UserAccount = UserAccount(owner: Address, userName: Bytes, reputation: U64)

  /** The program's accounts, keyed by account address. */
  type Store = map<Address, UserAccount>

  datatype Error =
    | InstructionDidNotDeserialize  // the `user_name` argument is not valid UTF-8
    | AccountNotInitialized    // an `Account<UserAccount>` address holds no record
    | AccountNotSigner         // a `Signer` account did not sign
    | ConstraintHasOne         // `has_one = owner` failed
    | ConstraintSeeds          // `mint_authority` is not the derived address
    | AccountAlreadyInUse      // `init` on an address that already holds some account
    | AccountDidNotSerialize   // the record does not fit the space `init` allocated
    | ArithmeticOverflow       // the i64 addition in `update_reputation` overflowed
    | TokenProgramError(cause: TokenError)  // the `mint_to` call failed

  // Space reserved by `init`: discriminator, owner, length-prefixed name, reputation.
  const DISCRIMINATOR_SIZE: nat := 8
  const PUBKEY_SIZE: nat := 32
  const STRING_PREFIX_SIZE: nat := 4
  const NAME_CAPACITY: nat := 32
  const U64_SIZE: nat := 8
  const USER_ACCOUNT_SPACE: nat := DISCRIMINATOR_SIZE + PUBKEY_SIZE + (STRING_PREFIX_SIZE + NAME_CAPACITY) + U64_SIZE

  /** The seed `b"mint_authority"`. */
  const MINT_AUTHORITY_SEED: Bytes :=
    [0x6d, 0x69, 0x6e, 0x74, 0x5f, 0x61, 0x75, 0x74, 0x68, 0x6f, 0x72, 0x69, 0x74, 0x79]

  /** A freshly allocated record before the handler writes it. */
  const ZEROED_ACCOUNT: UserAccount := UserAccount(DEFAULT_PUBKEY, [], 0)

  /** Bytes the record takes once serialized into its account. */
  function SerializedSize(account: UserAccount): nat {
    DISCRIMINATOR_SIZE + PUBKEY_SIZE + STRING_PREFIX_SIZE + |account.userName| + U64_SIZE
  }

  /** What every record in a reachable store satisfies: the name fits the
      space reserved for it, and the counter fits an i64 (it is always
      written from a non-negative i64), so `reputation as i64` is exact. */
  predicate ValidStore(store: Store) {
    forall a :: a in store ==> |store[a].userName| <= NAME_CAPACITY && store[a].reputation <= I64_MAX
  }

  /** The mint authority and its bump: `seeds = [b"mint_authority"], bump`. */
  function MintAuthority(programId: Address): (Address, Byte) {
    FindProgramAddress([MINT_AUTHORITY_SEED], programId)
  }

  /** The account constraints shared by `create_reputation_nft` and
      `update_reputation`: the record exists, `owner` signed, and
      `has_one = owner` holds. */
  function HasOneOwner(store: Store, userAccount: Address, owner: Address, signers: set<Address>): (r: Outcome<Error>)
    ensures r.Pass? <==> userAccount in store && owner in signers && store[userAccount].owner == owner
  {
    if userAccount !in store then Fail(AccountNotInitialized)
    else if owner !in signers then Fail(AccountNotSigner)
    else if store[userAccount].owner != owner then Fail(ConstraintHasOne)
    else Pass
  }

  /** `initialize(user_name)`: creates the record at `userAccount`, owned by
      the signing `user`, with reputation 0. `inUse` holds the addresses of
      the accounts other programs own (token accounts, mints): `init`
      allocates only an address that holds no account at all. */
  function Initialize(store: Store, inUse: set<Address>, userAccount: Address, user: Address,
                      signers: set<Address>, userName: Bytes): (r: Result<Store, Error>)
    ensures r.Ok? <==>
      && ValidUtf8(userName) && user in signers
      && userAccount !in store && userAccount !in inUse
      && |userName| <= NAME_CAPACITY
    ensures r.Ok? ==> r.value.Keys == store.Keys + {userAccount}
    ensures r.Ok? ==> r.value[userAccount] == UserAccount(user, userName, 0)
    ensures r.Ok? ==> forall a :: a in store ==> r.value[a] == store[a]
  {
    if !ValidUtf8(userName) then Err(InstructionDidNotDeserialize)
    else if user !in signers then Err(AccountNotSigner)
    else if userAccount in store || userAccount in inUse then Err(AccountAlreadyInUse)
    else
      var record := ZEROED_ACCOUNT.(owner := user, userName := userName, reputation := 0);
      if SerializedSize(record) > USER_ACCOUNT_SPACE then Err(AccountDidNotSerialize)
      else Ok(store[userAccount := record])
  }

  /** The new counter of `update_reputation`:
      `((reputation as i64) + delta).max(0) as u64`, with an overflowing
      addition aborting the instruction. */
  function NewReputation(reputation: U64, delta: I64): (r: Result<U64, Error>)
    ensures reputation <= I64_MAX ==> (r.Ok? <==> reputation + delta <= I64_MAX)
    ensures reputation <= I64_MAX && r.Ok? ==> r.value == Max(0, reputation + delta) && r.value <= I64_MAX
    ensures r.Err? ==> r.error == ArithmeticOverflow
  {
    var sum := U64AsI64(reputation) + delta;
    if !InI64(sum) then Err(ArithmeticOverflow)
    else Ok(I64AsU64(Max(sum, 0)))
  }

  /** `update_reputation(delta)`: replaces the counter of the owner's record. */
  function UpdateReputation(store: Store, userAccount: Address, owner: Address, signers: set<Address>,
                            delta: I64): (r: Result<Store, Error>)
    ensures r.Ok? ==> HasOneOwner(store, userAccount, owner, signers).Pass?
    ensures r.Ok? ==> r.value.Keys == store.Keys
    ensures r.Ok? ==>
      && r.value[userAccount].owner == store[userAccount].owner
      && r.value[userAccount].userName == store[userAccount].userName
      && NewReputation(store[userAccount].reputation, delta) == Ok(r.value[userAccount].reputation)
    ensures r.Ok? ==> forall a :: a in store && a != userAccount ==> r.value[a] == store[a]
    ensures HasOneOwner(store, userAccount, owner, signers).Pass? ==>
      (r.Ok? <==> NewReputation(store[userAccount].reputation, delta).Ok?)
  {
    match HasOneOwner(store, userAccount, owner, signers)
    case Fail(e) => Err(e)
    case Pass =>
      var record := store[userAccount];
      match NewReputation(record.reputation, delta)
      case Err(e) => Err(e)
      case Ok(reputation) => Ok(store[userAccount := record.(reputation := reputation)])
  }

  /** `create_reputation_nft()`: mints one unit of `mint` into
      `userTokenAccount`, signing as the derived mint authority. The user's
      records are not touched; only the token holdings change. */
  function CreateReputationNft(store: Store, mintAuthorities: map<Address, Address>, holdings: Holdings,
                               programId: Address, userAccount: Address, owner: Address,
                               signers: set<Address>, mint: Address, userTokenAccount: Address,
                               mintAuthority: Address): (r: Result<Holdings, Error>)
    ensures r.Ok? <==>
      && HasOneOwner(store, userAccount, owner, signers).Pass?
      && mintAuthority == MintAuthority(programId).0
      && userTokenAccount in holdings && holdings[userTokenAccount].mint == mint
      && mint in mintAuthorities && mintAuthorities[mint] == mintAuthority
    ensures r.Ok? ==> r.value.Keys == holdings.Keys
    ensures r.Ok? ==>
      r.value[userTokenAccount] == holdings[userTokenAccount].(amount := holdings[userTokenAccount].amount + 1)
    ensures r.Ok? ==> forall a :: a in holdings && a != userTokenAccount ==> r.value[a] == holdings[a]
  {
    match HasOneOwner(store, userAccount, owner, signers)
    case Fail(e) => Err(e)
    case Pass =>
      var (pda, bump) := MintAuthority(programId);
      if mintAuthority != pda then Err(ConstraintSeeds)
      else
        var signerSeeds := [MINT_AUTHORITY_SEED, [bump]];
        assert signerSeeds == [MINT_AUTHORITY_SEED] + [[bump]];
        var cpiSigners := signers + {CreateProgramAddress(signerSeeds, programId)};
        match ApplyMintTo(mintAuthorities, holdings, mint, userTokenAccount, mintAuthority, cpiSigners, 1)
        case Err(e) => Err(TokenProgramError(e))
        case Ok(h) => Ok(h)
  }

  /** The program's instructions with their arguments and accounts. */
  datatype Instruction =
    | InitializeIx(userAccount: Address, user: Address, userName: Bytes)
    | CreateReputationNftIx(userAccount: Address, owner: Address, mint: Address,
                            userTokenAccount: Address, mintAuthority: Address)
    | UpdateReputationIx(userAccount: Address, owner: Address, delta: I64)

  /** One instruction and the keys that signed its transaction. */
  datatype Transaction = Transaction(ix: Instruction, signers: set<Address>)

  /** Everything the instructions read or write: the program's records and
      the token program's mints and token accounts. */
  datatype Chain = Chain(accounts: Store, mintAuthorities: map<Address, Address>, holdings: Holdings)

  /** Accounts of different kinds never share an address. */
  predicate DisjointAccounts(c: Chain) {
    && c.accounts.Keys !! c.holdings.Keys
    && c.accounts.Keys !! c.mintAuthorities.Keys
    && c.holdings.Keys !! c.mintAuthorities.Keys
  }

  /** A transaction's signatures come from private keys, so only keypair
      addresses sign it; derived addresses sign only through a program's
      `invoke_signed`. */
  predicate SignedByKeypairs(tx: Transaction) {
    forall a :: a in tx.signers ==> OnCurve(a)
  }

  /** Executes one transaction atomically: its effect, or no effect. */
  function Step(programId: Address, c: Chain, tx: Transaction): (c': Chain)
    ensures c'.mintAuthorities == c.mintAuthorities
    ensures !tx.ix.CreateReputationNftIx? ==> c'.holdings == c.holdings
    ensures tx.ix.CreateReputationNftIx? ==> c'.accounts == c.accounts
  {
    match tx.ix
    case InitializeIx(userAccount, user, userName) =>
      var inUse := c.holdings.Keys + c.mintAuthorities.Keys;
      c.(accounts := Initialize(c.accounts, inUse, userAccount, user, tx.signers, userName).ValueOr(c.accounts))
    case CreateReputationNftIx(userAccount, owner, mint, userTokenAccount, mintAuthority) =>
      c.(holdings := CreateReputationNft(c.accounts, c.mintAuthorities, c.holdings, programId, userAccount,
                                         owner, tx.signers, mint, userTokenAccount, mintAuthority).ValueOr(c.holdings))
    case UpdateReputationIx(userAccount, owner, delta) =>
      c.(accounts := UpdateReputation(c.accounts, userAccount, owner, tx.signers, delta).ValueOr(c.accounts))
  }

  /** Executes transactions in order. */
  function Run(programId: Address, c: Chain, txs: seq<Transaction>): Chain
    decreases |txs|
  {
    if txs == [] then c else Run(programId, Step(programId, c, txs[0]), txs[1..])
  }
}
