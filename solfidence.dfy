/** The `solfidence` program: its account store, updated in place by the
    three instruction handlers. Each handler first runs the Anchor account
    constraints and then writes the record, or calls the token program;
    any failure aborts the transaction with nothing changed. */
module Solfidence {
  import opened Wrappers
  import opened Numeric
  import opened Pda
  import opened Token
  import opened Utf8
  import opened LedgerSpec

  class Ledger {
    /** The program's own id, from `declare_id!`. */
    const programId: Address
    /** The SPL Token program that `create_reputation_nft` invokes. */
    const token: TokenProgram
    /** The program's `UserAccount` records, keyed by account address. */
    var accounts: Store

    ghost predicate Valid()
      reads this
    {
      ValidStore(accounts)
    }

    constructor (programId: Address, token: TokenProgram)
      ensures this.programId == programId && this.token == token
      ensures accounts == map[] && Valid()
    {
      this.programId := programId;
      this.token := token;
      accounts := map[];
    }

    /** Addresses holding the token program's accounts: mints and token accounts. */
    function TokenAddresses(): set<Address>
      reads this, token
    {
      token.holdings.Keys + token.mintAuthority.Keys
    }

    /** `initialize(user_name)` with accounts `user_account` (init) and `user` (signer). */
    method Initialize(userAccount: Address, user: Address, signers: set<Address>, userName: Bytes)
      returns (r: Outcome<Error>)
      requires Valid()
      modifies this
      ensures Valid()
      ensures r == LedgerSpec.Initialize(old(accounts), TokenAddresses(), userAccount, user, signers, userName).ToOutcome()
      ensures accounts == LedgerSpec.Initialize(old(accounts), TokenAddresses(), userAccount, user, signers, userName)
                                    .ValueOr(old(accounts))
    {
      if !ValidUtf8(userName) { return Fail(InstructionDidNotDeserialize); }
      if user !in signers { return Fail(AccountNotSigner); }
      if userAccount in accounts || userAccount in token.holdings || userAccount in token.mintAuthority {
        return Fail(AccountAlreadyInUse);
      }
      var userAcct := ZEROED_ACCOUNT;
      userAcct := userAcct.(owner := user);
      userAcct := userAcct.(userName := userName);
      userAcct := userAcct.(reputation := 0);
      // the record is written back into its `USER_ACCOUNT_SPACE` bytes on exit
      if SerializedSize(userAcct) > USER_ACCOUNT_SPACE { return Fail(AccountDidNotSerialize); }
      accounts := accounts[userAccount := userAcct];
      return Pass;
    }

    /** `create_reputation_nft()` with accounts `user_account`, `owner`
        (signer), `mint`, `user_token_account` and `mint_authority`. */
    method CreateReputationNft(userAccount: Address, owner: Address, signers: set<Address>, mint: Address,
                               userTokenAccount: Address, mintAuthority: Address) returns (r: Outcome<Error>)
      modifies token
      ensures unchanged(this)
      ensures token.mintAuthority == old(token.mintAuthority)
      ensures r == LedgerSpec.CreateReputationNft(accounts, old(token.mintAuthority), old(token.holdings), programId,
                                                  userAccount, owner, signers, mint, userTokenAccount, mintAuthority).ToOutcome()
      ensures token.holdings == LedgerSpec.CreateReputationNft(accounts, old(token.mintAuthority), old(token.holdings), programId,
                                                               userAccount, owner, signers, mint, userTokenAccount, mintAuthority)
                                          .ValueOr(old(token.holdings))
    {
      var constraints := HasOneOwner(accounts, userAccount, owner, signers);
      if constraints.Fail? { return constraints; }
      var (pda, bump) := FindProgramAddress([MINT_AUTHORITY_SEED], programId);
      if mintAuthority != pda { return Fail(ConstraintSeeds); }
      var signerSeeds := [MINT_AUTHORITY_SEED, [bump]];
      var minted := token.MintTo(mint, userTokenAccount, mintAuthority,
                                 signers + {CreateProgramAddress(signerSeeds, programId)}, 1);
      if minted.Fail? { return Fail(TokenProgramError(minted.error)); }
      return Pass;
    }

    /** `update_reputation(delta)` with accounts `user_account` and `owner` (signer). */
    method UpdateReputation(userAccount: Address, owner: Address, signers: set<Address>, delta: I64)
      returns (r: Outcome<Error>)
      requires Valid()
      modifies this
      ensures Valid()
      ensures r == LedgerSpec.UpdateReputation(old(accounts), userAccount, owner, signers, delta).ToOutcome()
      ensures accounts == LedgerSpec.UpdateReputation(old(accounts), userAccount, owner, signers, delta).ValueOr(old(accounts))
    {
      var constraints := HasOneOwner(accounts, userAccount, owner, signers);
      if constraints.Fail? { return constraints; }
      var userAcct := accounts[userAccount];
      var newReputation := U64AsI64(userAcct.reputation) + delta;
      if !InI64(newReputation) { return Fail(ArithmeticOverflow); }
      userAcct := userAcct.(reputation := I64AsU64(Max(newReputation, 0)));
      accounts := accounts[userAccount := userAcct];
      return Pass;
    }
  }
}
