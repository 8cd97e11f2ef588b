/** The SPL Token program as seen through its `mint_to` instruction: the
    only token operation the ledger program invokes. Mints and token
    accounts are created by clients beforehand; here they are state the
    token program already holds. */
module Token {
  import opened Wrappers
  import opened Pda

  /** A token account: which mint it holds, whose it is, how many units. */
  datatype TokenAccount = TokenAccount(mint: Address, owner: Address, amount: nat)

  type Holdings = map<Address, TokenAccount>

  datatype TokenError =
    | UninitializedAccount      // destination token account does not exist
    | InvalidMint               // the mint does not exist
    | MintMismatch              // destination holds a different mint
    | OwnerMismatch             // the given authority is not the mint's authority
    | MissingRequiredSignature  // the mint's authority did not sign

  /** `mint_to(mint, destination, authority, amount)`: adds `amount` units
      to `destination` when it holds `mint` and the mint's authority signed. */
  function ApplyMintTo(mintAuthority: map<Address, Address>, holdings: Holdings, mint: Address,
                       destination: Address, authority: Address, signers: set<Address>,
                       amount: nat): (r: Result<Holdings, TokenError>)
    ensures r.Ok? <==>
      && destination in holdings && holdings[destination].mint == mint
      && mint in mintAuthority && mintAuthority[mint] == authority
      && authority in signers
    ensures r.Ok? ==> r.value.Keys == holdings.Keys
    ensures r.Ok? ==>
      && r.value[destination].amount == holdings[destination].amount + amount
      && r.value[destination].mint == holdings[destination].mint
      && r.value[destination].owner == holdings[destination].owner
    ensures r.Ok? ==> forall a :: a in holdings && a != destination ==> r.value[a] == holdings[a]
  {
    if destination !in holdings then Err(UninitializedAccount)
    else if mint !in mintAuthority then Err(InvalidMint)
    else if holdings[destination].mint != mint then Err(MintMismatch)
    else if mintAuthority[mint] != authority then Err(OwnerMismatch)
    else if authority !in signers then Err(MissingRequiredSignature)
    else
      var account := holdings[destination];
      Ok(holdings[destination := account.(amount := account.amount + amount)])
  }

  /** The token program's state: each mint's authority and the token accounts. */
  class TokenProgram {
    var mintAuthority: map<Address, Address>
    var holdings: Holdings

    constructor (mintAuthority: map<Address, Address>, holdings: Holdings)
      ensures this.mintAuthority == mintAuthority && this.holdings == holdings
    {
      this.mintAuthority := mintAuthority;
      this.holdings := holdings;
    }

    /** Mints `amount` units into `destination`; on failure nothing changes. */
    method MintTo(mint: Address, destination: Address, authority: Address, signers: set<Address>,
                  amount: nat) returns (r: Outcome<TokenError>)
      modifies this
      ensures mintAuthority == old(mintAuthority)
      ensures r == ApplyMintTo(old(mintAuthority), old(holdings), mint, destination, authority, signers, amount).ToOutcome()
      ensures holdings == ApplyMintTo(old(mintAuthority), old(holdings), mint, destination, authority, signers, amount).ValueOr(old(holdings))
    {
      if destination !in holdings { return Fail(UninitializedAccount); }
      if mint !in mintAuthority { return Fail(InvalidMint); }
      var account := holdings[destination];
      if account.mint != mint { return Fail(MintMismatch); }
      if mintAuthority[mint] != authority { return Fail(OwnerMismatch); }
      if authority !in signers { return Fail(MissingRequiredSignature); }
      account := account.(amount := account.amount + amount);
      holdings := holdings[destination := account];
      return Pass;
    }
  }
}
