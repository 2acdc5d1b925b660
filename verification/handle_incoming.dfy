/**
 * The inbound cross-chain instruction `handle_incoming`: the account
 * constraints checked before the handler runs, the handler's guarded steps,
 * and a declarative statement of when the whole instruction succeeds and
 * what it then leaves behind.
 *
 * The host runs an instruction atomically: a failure discards every effect,
 * which is why the handler yields either the new ledger or an error, never a
 * partially updated ledger.
 */
module HandleIncoming {
  import opened Wrappers
  import opened Ints
  import opened Addresses
  import opened Ledgers
  import opened Token

  /** `CrossChainNftPayload`, as decoded from the instruction data. */
  datatype Payload = Payload(
    tokenId: TokenId,
    originChainId: u16,
    originMint: seq<byte>,
    recipient: Address,
    metadataUri: string,
    nonce: u64)

  /**
   * What the handler relies on but this model leaves abstract: the bump the
   * address search returns, the Borsh decoders of the gateway config and of
   * the payload, the byte layout of typed accounts, whether an origin record
   * fits the `NftOrigin::LEN` bytes allocated for it, and the clock.
   */
  datatype Env = Env(
    bump: Address -> byte,
    configDecodes: seq<byte> -> bool,
    decodePayload: seq<byte> -> Option<Payload>,
    layout: Layout,
    originFits: NftOrigin -> bool,
    now: int)

  /** The accounts passed to the instruction and the keys that signed the transaction. */
  datatype Accounts = Accounts(
    payer: Address,
    recipient: Address,
    mint: Address,
    recipientTokenAccount: Address,
    gatewayConfig: Address,
    replayMarker: Address,
    signers: set<nat>)

  /** Only keypair addresses can sign a transaction. */
  predicate IsSigner(acc: Accounts, a: Address) {
    a.Wallet? && a.key in acc.signers
  }

  /** The program's own `ErrorCode` enum. */
  datatype ErrorCode = UnauthorizedGateway | InvalidPayload | ReplayAttack | ReplayPdaMismatch

  datatype Error = Program(code: ErrorCode) | Host(fault: HostError)

  /** A host or token-program failure, as the instruction reports it. */
  function AsHost(e: HostError): Error {
    Host(e)
  }

  // ---------------------------------------------------------------------
  // Reference: when the instruction succeeds and what it leaves behind
  // ---------------------------------------------------------------------

  /**
   * The account constraints hold: payer and mint sign, the payer has an
   * account to fund the new ones, and mint and token account are fresh.
   */
  predicate AccountsValid(l: Ledger, acc: Accounts) {
    && IsSigner(acc, acc.payer)
    && IsSigner(acc, acc.mint)
    && acc.payer in l.accounts
    && acc.mint !in l.accounts
    && acc.recipientTokenAccount == AssociatedTokenAddress(acc.recipient, acc.mint)
    && acc.recipientTokenAccount !in l.accounts
  }

  /** The supplied config account is the derived one and its body after the discriminator decodes. */
  predicate ConfigValid(env: Env, l: Ledger, acc: Accounts) {
    var data := AccountData(env.layout, l, acc.gatewayConfig);
    && acc.gatewayConfig == ConfigAddress()
    && |data| >= DISCRIMINATOR_LEN
    && env.configDecodes(data[DISCRIMINATOR_LEN..])
  }

  /** The message key (token id, nonce) is unconsumed and its marker account was supplied. */
  predicate FreshMessage(l: Ledger, acc: Accounts, p: Payload) {
    && acc.replayMarker == ReplayMarkerAddress(p.tokenId, p.nonce)
    && ReplayMarkerAddress(p.tokenId, p.nonce) !in l.accounts
    && OriginAddress(p.tokenId) !in l.accounts
  }

  /** All guards of the instruction pass on ledger `l`. */
  predicate Accepts(env: Env, l: Ledger, acc: Accounts, payload: seq<byte>) {
    && AccountsValid(l, acc)
    && ConfigValid(env, l, acc)
    && env.decodePayload(payload).Some?
    && FreshMessage(l, acc, env.decodePayload(payload).value)
    && env.originFits(OriginFor(env, env.decodePayload(payload).value))
  }

  function MarkerFor(env: Env, p: Payload): ReplayMarker {
    ReplayMarker(p.tokenId, p.nonce, env.now, env.bump(ReplayMarkerAddress(p.tokenId, p.nonce)))
  }

  function OriginFor(env: Env, p: Payload): NftOrigin {
    NftOrigin(p.originChainId, p.tokenId, p.originMint, p.metadataUri, env.now, env.bump(OriginAddress(p.tokenId)))
  }

  /**
   * The ledger after an accepted message: a 0-decimal mint of supply 1 whose
   * authorities are the payer, the recipient's associated account holding
   * that unit, the replay marker and the origin record; nothing else.
   */
  function Effects(env: Env, l: Ledger, acc: Accounts, p: Payload): Ledger {
    Ledger(l.accounts
      [acc.mint := MintAccount(Mint(1, 0, Some(acc.payer), Some(acc.payer)))]
      [acc.recipientTokenAccount := TokenAccount(TokenHolding(acc.mint, acc.recipient, 1))]
      [ReplayMarkerAddress(p.tokenId, p.nonce) := MarkerAccount(MarkerFor(env, p))]
      [OriginAddress(p.tokenId) := OriginAccount(OriginFor(env, p))])
  }

  // ---------------------------------------------------------------------
  // The instruction
  // ---------------------------------------------------------------------

  /** The ledger the account constraints leave: fresh mint and empty token account added. */
  function Validated(l: Ledger, acc: Accounts): Ledger {
    Ledger(l.accounts[acc.mint := MintAccount(Mint(0, 0, Some(acc.payer), Some(acc.payer)))]
                     [acc.recipientTokenAccount := TokenAccount(TokenHolding(acc.mint, acc.recipient, 0))])
  }

  /**
   * The `HandleIncoming` account constraints, in declaration order: `payer`
   * signs; `mint` signs and is initialised, at the payer's expense, with 0
   * decimals and the payer as both authorities; `recipient_token_account` is
   * initialised, at the payer's expense, as the recipient's associated
   * account for that mint.
   */
  function ValidateAccounts(l: Ledger, acc: Accounts): (r: Result<Ledger, Error>)
    ensures r.Success? <==> AccountsValid(l, acc)
    ensures r.Success? ==> r.value == Validated(l, acc)
    ensures r.Failure? ==> r.error.Host?
  {
    if !IsSigner(acc, acc.payer) || !IsSigner(acc, acc.mint) then Failure(Host(MissingSignature))
    else
      var withMint :- InitializeMint(l, acc.payer, acc.mint, 0, acc.payer).MapFailure(AsHost);
      CreateAssociatedTokenAccount(withMint, acc.payer, acc.recipientTokenAccount, acc.recipient, acc.mint).MapFailure(AsHost)
  }

  /** The body of `handler`, run on the ledger the account constraints produced. */
  function Handler(env: Env, l: Ledger, acc: Accounts, payload: seq<byte>): Result<Ledger, Error> {
    // gateway config: derived address, then decodable body after the discriminator
    if acc.gatewayConfig != ConfigAddress() then Failure(Program(UnauthorizedGateway))
    else
      var data := AccountData(env.layout, l, acc.gatewayConfig);
      if |data| < DISCRIMINATOR_LEN then Failure(Host(IndexOutOfBounds))
      else if !env.configDecodes(data[DISCRIMINATOR_LEN..]) then Failure(Program(UnauthorizedGateway))
      else
        // payload
        var p :- env.decodePayload(payload).ToResult(Program(InvalidPayload));
        // replay guard: derived marker address, still empty
        var markerAt := ReplayMarkerAddress(p.tokenId, p.nonce);
        if acc.replayMarker != markerAt then Failure(Program(ReplayPdaMismatch))
        else if HoldsData(env.layout, l, markerAt) then Failure(Program(ReplayAttack))
        else
          var marked :- CreateAccount(l, acc.payer, markerAt, MarkerAccount(MarkerFor(env, p))).MapFailure(AsHost);
          // one unit to the recipient's token account, the payer signing as mint authority
          var minted :- MintTo(marked, acc.mint, acc.recipientTokenAccount, acc.payer, IsSigner(acc, acc.payer), 1)
                        .MapFailure(AsHost);
          // origin record: a new account, then its serialised body
          var origin := OriginFor(env, p);
          var recorded :- CreateAccount(minted, acc.payer, OriginAddress(p.tokenId), OriginAccount(origin)).MapFailure(AsHost);
          if !env.originFits(origin) then Failure(Host(AccountDidNotSerialize)) else Success(recorded)
  }

  /**
   * Run on the ledger the account constraints produced, the handler body
   * succeeds exactly when the config, payload and replay guards pass on the
   * original ledger, and then leaves `Effects`.
   */
  lemma HandlerOnValidated(env: Env, l: Ledger, acc: Accounts, payload: seq<byte>)
    requires AccountsValid(l, acc)
    ensures Handler(env, Validated(l, acc), acc, payload).Success? <==>
      && ConfigValid(env, l, acc)
      && env.decodePayload(payload).Some?
      && FreshMessage(l, acc, env.decodePayload(payload).value)
      && env.originFits(OriginFor(env, env.decodePayload(payload).value))
    ensures Handler(env, Validated(l, acc), acc, payload).Success? ==>
      Handler(env, Validated(l, acc), acc, payload).value == Effects(env, l, acc, env.decodePayload(payload).value)
  {
    var lv := Validated(l, acc);
    // the mint is a wallet and the token account belongs to another program:
    // neither is one of this program's derived addresses
    assert acc.mint.Wallet? && acc.recipientTokenAccount.program == AssociatedToken;
    assert AccountData(env.layout, lv, ConfigAddress()) == AccountData(env.layout, l, ConfigAddress());
    assert ConfigValid(env, lv, acc) == ConfigValid(env, l, acc);
    if ConfigValid(env, l, acc) && env.decodePayload(payload).Some? {
      var p := env.decodePayload(payload).value;
      var markerAt := ReplayMarkerAddress(p.tokenId, p.nonce);
      var originAt := OriginAddress(p.tokenId);
      assert (markerAt in lv.accounts) == (markerAt in l.accounts);
      assert AccountData(env.layout, lv, markerAt) == AccountData(env.layout, l, markerAt);
      if acc.replayMarker == markerAt && markerAt !in l.accounts {
        var marked := Ledger(lv.accounts[markerAt := MarkerAccount(MarkerFor(env, p))]);
        assert CreateAccount(lv, acc.payer, markerAt, MarkerAccount(MarkerFor(env, p))) == Success(marked);
        var minted := Ledger(marked.accounts
          [acc.recipientTokenAccount := TokenAccount(TokenHolding(acc.mint, acc.recipient, 1))]
          [acc.mint := MintAccount(Mint(1, 0, Some(acc.payer), Some(acc.payer)))]);
        assert MintTo(marked, acc.mint, acc.recipientTokenAccount, acc.payer, true, 1) == Success(minted);
        assert (originAt in minted.accounts) == (originAt in l.accounts);
        if originAt !in l.accounts && env.originFits(OriginFor(env, p)) {
          var final := Ledger(minted.accounts[originAt := OriginAccount(OriginFor(env, p))]);
          assert Handler(env, lv, acc, payload) == Success(final);
          assert final.accounts == Effects(env, l, acc, p).accounts;
        }
      }
    }
  }

  /**
   * The whole instruction. It succeeds exactly when every guard passes, and
   * then leaves precisely `Effects`; on failure there is no new ledger.
   */
  function Handle(env: Env, l: Ledger, acc: Accounts, payload: seq<byte>): (r: Result<Ledger, Error>)
    ensures r.Success? <==> Accepts(env, l, acc, payload)
    ensures r.Success? ==> r.value == Effects(env, l, acc, env.decodePayload(payload).value)
  {
    var validated :- ValidateAccounts(l, acc);
    HandlerOnValidated(env, l, acc, payload);
    Handler(env, validated, acc, payload)
  }
}
