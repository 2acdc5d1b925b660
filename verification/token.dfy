/**
 * Abstract effects of the token-program calls the handler makes: mint
 * initialisation and associated-token-account creation (both done by the
 * account constraints before the handler runs) and `mint_to`.
 */
module Token {
  import opened Wrappers
  import opened Ints
  import opened Addresses
  import opened Ledgers

  predicate IsMint(l: Ledger, at: Address) {
    at in l.accounts && l.accounts[at].MintAccount?
  }

  predicate IsTokenAccount(l: Ledger, at: Address) {
    at in l.accounts && l.accounts[at].TokenAccount?
  }

  /**
   * `init` with `payer`, `mint::decimals`, `mint::authority` and
   * `mint::freeze_authority`: a new mint with zero supply at an address where
   * no account exists yet, funded by `payer`.
   */
  function InitializeMint(l: Ledger, payer: Address, at: Address, decimals: byte, authority: Address): (r: Result<Ledger, HostError>)
    ensures r.Success? <==> at !in l.accounts && payer in l.accounts
    ensures at in l.accounts ==> r == Failure(AccountAlreadyInUse)
    ensures at !in l.accounts && payer !in l.accounts ==> r == Failure(InsufficientFunds)
    ensures r.Success? ==> IsMint(r.value, at)
    ensures r.Success? ==> r.value.accounts[at].mintState.supply == 0
    ensures r.Success? ==> r.value.accounts[at].mintState.decimals == decimals
    ensures r.Success? ==> r.value.accounts[at].mintState.mintAuthority == Some(authority)
    ensures r.Success? ==> r.value.accounts[at].mintState.freezeAuthority == Some(authority)
    ensures r.Success? ==> r.value.accounts.Keys == l.accounts.Keys + {at}
    ensures r.Success? ==> forall a :: a in l.accounts ==> r.value.accounts[a] == l.accounts[a]
  {
    CreateAccount(l, payer, at, MintAccount(Mint(0, decimals, Some(authority), Some(authority))))
  }

  /**
   * `init` with `associated_token::mint` and `associated_token::authority`:
   * the account must sit at the associated address of (wallet, mint), must not
   * exist yet, `mint` must be an initialised mint, and `payer` funds it. The
   * new account is empty and owned by `wallet`.
   */
  function CreateAssociatedTokenAccount(l: Ledger, payer: Address, at: Address, wallet: Address, mint: Address): (r: Result<Ledger, HostError>)
    ensures r.Success? <==>
      at == AssociatedTokenAddress(wallet, mint) && at !in l.accounts && IsMint(l, mint) && payer in l.accounts
    ensures at != AssociatedTokenAddress(wallet, mint) ==> r == Failure(AssociatedAddressMismatch)
    ensures at == AssociatedTokenAddress(wallet, mint) && at in l.accounts ==> r == Failure(AccountAlreadyInUse)
    ensures r.Success? ==> at in r.value.accounts && r.value.accounts[at] == TokenAccount(TokenHolding(mint, wallet, 0))
    ensures r.Success? ==> r.value.accounts.Keys == l.accounts.Keys + {at}
    ensures r.Success? ==> forall a :: a in l.accounts ==> r.value.accounts[a] == l.accounts[a]
  {
    if at != AssociatedTokenAddress(wallet, mint) then Failure(AssociatedAddressMismatch)
    else if at in l.accounts then Failure(AccountAlreadyInUse)
    else if !IsMint(l, mint) then Failure(InvalidAccountData)
    else CreateAccount(l, payer, at, TokenAccount(TokenHolding(mint, wallet, 0)))
  }

  /**
   * `mint_to(mint, dest, authority, amount)`: checks in the token program's
   * order (the authority must be the mint authority and have signed), then
   * raises the destination balance and the mint supply by the same amount,
   * with u64 overflow checks.
   */
  function MintTo(l: Ledger, mint: Address, dest: Address, authority: Address, authoritySigned: bool, amount: u64)
    : (r: Result<Ledger, HostError>)
    ensures r.Success? <==>
      && IsTokenAccount(l, dest) && l.accounts[dest].holding.mint == mint
      && IsMint(l, mint) && l.accounts[mint].mintState.mintAuthority == Some(authority)
      && authoritySigned
      && l.accounts[dest].holding.amount + amount <= MAX_U64
      && l.accounts[mint].mintState.supply + amount <= MAX_U64
    ensures r.Success? ==> IsMint(r.value, mint) && IsTokenAccount(r.value, dest)
    ensures r.Success? ==>
      r.value.accounts[mint].mintState == l.accounts[mint].mintState.(supply := l.accounts[mint].mintState.supply + amount)
    ensures r.Success? ==>
      r.value.accounts[dest].holding == l.accounts[dest].holding.(amount := l.accounts[dest].holding.amount + amount)
    ensures r.Success? ==> r.value.accounts.Keys == l.accounts.Keys
    ensures r.Success? ==> forall a :: a in l.accounts && a != mint && a != dest ==> r.value.accounts[a] == l.accounts[a]
  {
    if !IsTokenAccount(l, dest) then Failure(InvalidAccountData)
    else
      var h := l.accounts[dest].holding;
      if h.mint != mint then Failure(MintMismatch)
      else if !IsMint(l, mint) then Failure(InvalidAccountData)
      else
        var m := l.accounts[mint].mintState;
        if m.mintAuthority.None? then Failure(FixedSupply)
        else if m.mintAuthority.value != authority then Failure(OwnerMismatch)
        else if !authoritySigned then Failure(MissingSignature)
        else if h.amount + amount > MAX_U64 then Failure(Overflow)
        else if m.supply + amount > MAX_U64 then Failure(Overflow)
        else
          Success(Ledger(l.accounts[dest := TokenAccount(h.(amount := h.amount + amount))]
                                  [mint := MintAccount(m.(supply := m.supply + amount))]))
  }
}
