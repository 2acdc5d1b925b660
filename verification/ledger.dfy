/**
 * The slice of ledger state the inbound handler touches: one account per
 * address, each holding either raw bytes (accounts this program does not
 * interpret) or one of the typed records below.
 */
module Ledgers {
  import opened Wrappers
  import opened Ints
  import opened Addresses

  /** SPL token mint: supply, decimals and the two authorities. */
  datatype Mint = Mint(supply: u64, decimals: byte, mintAuthority: Option<Address>, freezeAuthority: Option<Address>)

  /** SPL token account: which mint, which owner, how many units. */
  datatype TokenHolding = TokenHolding(mint: Address, owner: Address, amount: u64)

  /** `ReplayMarker`: the consumed (token id, nonce) pair, when, and the derivation bump. */
  datatype ReplayMarker = ReplayMarker(tokenId: TokenId, nonce: u64, createdAt: int, bump: byte)

  /** `NftOrigin`: where an inbound token came from and its metadata. */
  datatype NftOrigin = NftOrigin(
    originChain: u16,
    originTokenId: TokenId,
    originMint: seq<byte>,
    metadataUri: string,
    createdAt: int,
    bump: byte)

  datatype Account =
    | Raw(bytes: seq<byte>)
    | MintAccount(mintState: Mint)
    | TokenAccount(holding: TokenHolding)
    | MarkerAccount(marker: ReplayMarker)
    | OriginAccount(origin: NftOrigin)

  /** An address is in `accounts` exactly when an account exists there. */
  datatype Ledger = Ledger(accounts: map<Address, Account>)

  /** Failures raised by the host runtime or by the token programs, not by this program. */
  datatype HostError =
    | MissingSignature          // an account that must sign did not
    | AccountAlreadyInUse       // create_account over an existing account
    | AssociatedAddressMismatch // token account is not the associated address of (owner, mint)
    | IndexOutOfBounds          // a slice past the end of account data (a panic)
    | InvalidAccountData        // account is not of the expected token type
    | MintMismatch              // token account belongs to another mint
    | FixedSupply               // mint has no mint authority
    | OwnerMismatch             // signer is not the mint authority
    | Overflow                  // u64 supply or balance would overflow
    | InsufficientFunds         // the payer of a new account has no lamports to fund it
    | AccountDidNotSerialize    // a record does not fit the space allocated for it

  /** Length of the discriminator that opens the data of every typed account of this program. */
  const DISCRIMINATOR_LEN: nat := 8

  /**
   * A layout serialises every typed account to at least a discriminator's
   * worth of bytes: this program's records carry an 8-byte discriminator
   * before their body, and SPL mints (82 bytes) and token accounts (165
   * bytes) are longer still.
   */
  ghost predicate HasDiscriminator(layout: Account -> seq<byte>) {
    forall a: Account :: !a.Raw? ==> |layout(a)| >= DISCRIMINATOR_LEN
  }

  /** The byte layout of typed accounts, left abstract apart from its minimum length. */
  type Layout = f: Account -> seq<byte> | HasDiscriminator(f) witness a => seq(DISCRIMINATOR_LEN, i => 0)

  /**
   * The bytes stored at `at`: raw accounts hold their bytes, typed accounts
   * their serialised form (`layout`), and a missing account none. Data is
   * empty only where no account exists or an empty raw account sits; a typed
   * account always holds at least its discriminator.
   */
  function AccountData(layout: Layout, l: Ledger, at: Address): (data: seq<byte>)
    ensures |data| == 0 <==> at !in l.accounts || l.accounts[at] == Raw([])
    ensures at in l.accounts && !l.accounts[at].Raw? ==> |data| >= DISCRIMINATOR_LEN
  {
    if at !in l.accounts then []
    else match l.accounts[at]
      case Raw(bytes) => bytes
      case _ => layout(l.accounts[at])
  }

  /** Whether the account at `at` holds any data (`!data_is_empty()`). */
  predicate HoldsData(layout: Layout, l: Ledger, at: Address) {
    |AccountData(layout, l, at)| > 0
  }

  /**
   * System-program account creation, funded by `payer`: fails if an account
   * already exists at `at`, then if the payer has no account to draw the
   * rent from; otherwise `at` holds `account` and nothing else changes.
   */
  function CreateAccount(l: Ledger, payer: Address, at: Address, account: Account): (r: Result<Ledger, HostError>)
    ensures r.Success? <==> at !in l.accounts && payer in l.accounts
    ensures at in l.accounts ==> r == Failure(AccountAlreadyInUse)
    ensures at !in l.accounts && payer !in l.accounts ==> r == Failure(InsufficientFunds)
    ensures r.Success? ==> r.value.accounts.Keys == l.accounts.Keys + {at}
    ensures r.Success? ==> r.value.accounts[at] == account
    ensures r.Success? ==> forall a :: a in l.accounts ==> r.value.accounts[a] == l.accounts[a]
  {
    if at in l.accounts then Failure(AccountAlreadyInUse)
    else if payer !in l.accounts then Failure(InsufficientFunds)
    else Success(Ledger(l.accounts[at := account]))
  }

  /** A typed record written by a successful creation holds data. */
  lemma CreatedRecordHoldsData(layout: Layout, l: Ledger, payer: Address, at: Address, account: Account)
    requires CreateAccount(l, payer, at, account).Success?
    requires !account.Raw?
    ensures HoldsData(layout, CreateAccount(l, payer, at, account).value, at)
  {
  }
}
