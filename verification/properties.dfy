/**
 * Properties of `HandleIncoming.Handle`: which error each guard raises and in
 * which order the guards are consulted, what a successful call leaves behind,
 * and why a consumed message cannot be applied again.
 */
module HandleIncomingProperties {
  import opened Wrappers
  import opened Ints
  import opened Addresses
  import opened Ledgers
  import opened Token
  import opened HandleIncoming

  // ---------------------------------------------------------------------
  // Guards, in the order the instruction consults them
  // ---------------------------------------------------------------------

  /**
   * A payer with no account cannot fund the new mint: with both signatures
   * present and the mint fresh, the call fails for lack of funds.
   */
  lemma UnfundedPayerRejected(env: Env, l: Ledger, acc: Accounts, payload: seq<byte>)
    requires IsSigner(acc, acc.payer) && IsSigner(acc, acc.mint)
    requires acc.mint !in l.accounts
    requires acc.payer !in l.accounts
    ensures Handle(env, l, acc, payload) == Failure(Host(InsufficientFunds))
  {
  }

  /** The payer's own account can never be initialised as the new mint. */
  lemma PayerAsMintRejected(env: Env, l: Ledger, acc: Accounts, payload: seq<byte>)
    requires acc.payer == acc.mint
    ensures Handle(env, l, acc, payload).Failure?
  {
  }

  /** A config account other than the derived one is refused, whatever the payload. */
  lemma ConfigAddressMismatchRejected(env: Env, l: Ledger, acc: Accounts, payload: seq<byte>)
    requires AccountsValid(l, acc)
    requires acc.gatewayConfig != ConfigAddress()
    ensures Handle(env, l, acc, payload) == Failure(Program(UnauthorizedGateway))
  {
  }

  /** Slicing off the discriminator of a config account shorter than 8 bytes aborts the program. */
  lemma ConfigTooShortPanics(env: Env, l: Ledger, acc: Accounts, payload: seq<byte>)
    requires AccountsValid(l, acc)
    requires acc.gatewayConfig == ConfigAddress()
    requires |AccountData(env.layout, l, ConfigAddress())| < DISCRIMINATOR_LEN
    ensures Handle(env, l, acc, payload) == Failure(Host(IndexOutOfBounds))
  {
  }

  /** A config body that does not decode is refused as an unauthorized gateway, whatever the payload. */
  lemma ConfigUndecodableRejected(env: Env, l: Ledger, acc: Accounts, payload: seq<byte>)
    requires AccountsValid(l, acc)
    requires acc.gatewayConfig == ConfigAddress()
    requires |AccountData(env.layout, l, ConfigAddress())| >= DISCRIMINATOR_LEN
    requires !env.configDecodes(AccountData(env.layout, l, ConfigAddress())[DISCRIMINATOR_LEN..])
    ensures Handle(env, l, acc, payload) == Failure(Program(UnauthorizedGateway))
  {
  }

  /** With a valid config, a payload that does not decode is refused before the replay guard. */
  lemma PayloadUndecodableRejected(env: Env, l: Ledger, acc: Accounts, payload: seq<byte>)
    requires AccountsValid(l, acc)
    requires ConfigValid(env, l, acc)
    requires env.decodePayload(payload).None?
    ensures Handle(env, l, acc, payload) == Failure(Program(InvalidPayload))
  {
  }

  /** A replay-marker account other than the one derived from (token id, nonce) is refused. */
  lemma ReplayAddressMismatchRejected(env: Env, l: Ledger, acc: Accounts, payload: seq<byte>, p: Payload)
    requires AccountsValid(l, acc)
    requires ConfigValid(env, l, acc)
    requires env.decodePayload(payload) == Some(p)
    requires acc.replayMarker != ReplayMarkerAddress(p.tokenId, p.nonce)
    ensures Handle(env, l, acc, payload) == Failure(Program(ReplayPdaMismatch))
  {
  }

  /** A marker account that already holds data is a replay. */
  lemma ReplayMarkerOccupiedRejected(env: Env, l: Ledger, acc: Accounts, payload: seq<byte>, p: Payload)
    requires AccountsValid(l, acc)
    requires ConfigValid(env, l, acc)
    requires env.decodePayload(payload) == Some(p)
    requires acc.replayMarker == ReplayMarkerAddress(p.tokenId, p.nonce)
    requires HoldsData(env.layout, l, ReplayMarkerAddress(p.tokenId, p.nonce))
    ensures Handle(env, l, acc, payload) == Failure(Program(ReplayAttack))
  {
  }

  /**
   * A marker address that holds an account without data passes the replay
   * check but cannot be created: the message is blocked, not applied.
   */
  lemma EmptyMarkerAccountBlocks(env: Env, l: Ledger, acc: Accounts, payload: seq<byte>, p: Payload)
    requires AccountsValid(l, acc)
    requires ConfigValid(env, l, acc)
    requires env.decodePayload(payload) == Some(p)
    requires acc.replayMarker == ReplayMarkerAddress(p.tokenId, p.nonce)
    requires ReplayMarkerAddress(p.tokenId, p.nonce) in l.accounts
    requires !HoldsData(env.layout, l, ReplayMarkerAddress(p.tokenId, p.nonce))
    ensures Handle(env, l, acc, payload) == Failure(Host(AccountAlreadyInUse))
  {
  }

  /** Creating the origin record over an existing one aborts the whole call. */
  lemma OriginExistsRejected(env: Env, l: Ledger, acc: Accounts, payload: seq<byte>, p: Payload)
    requires AccountsValid(l, acc)
    requires ConfigValid(env, l, acc)
    requires env.decodePayload(payload) == Some(p)
    requires acc.replayMarker == ReplayMarkerAddress(p.tokenId, p.nonce)
    requires ReplayMarkerAddress(p.tokenId, p.nonce) !in l.accounts
    requires OriginAddress(p.tokenId) in l.accounts
    ensures Handle(env, l, acc, payload) == Failure(Host(AccountAlreadyInUse))
  {
  }

  /**
   * With every guard before it passing, an origin record that does not fit
   * the space allocated for it aborts the whole call.
   */
  lemma OriginTooLargeRejected(env: Env, l: Ledger, acc: Accounts, payload: seq<byte>, p: Payload)
    requires AccountsValid(l, acc)
    requires ConfigValid(env, l, acc)
    requires env.decodePayload(payload) == Some(p)
    requires FreshMessage(l, acc, p)
    requires !env.originFits(OriginFor(env, p))
    ensures Handle(env, l, acc, payload) == Failure(Host(AccountDidNotSerialize))
  {
  }

  /**
   * The only ways the instruction fails: a missing signature, an unfunded
   * payer, an account that already exists, a wrong associated address, a
   * too-short config account, an origin record too large for its account, or
   * one of the program's own error codes. The mint-to step never fails.
   */
  lemma FailuresComeFromGuards(env: Env, l: Ledger, acc: Accounts, payload: seq<byte>)
    ensures Handle(env, l, acc, payload).Failure? ==>
      var e := Handle(env, l, acc, payload).error;
      || e.Program?
      || e.fault in {MissingSignature, InsufficientFunds, AccountAlreadyInUse, AssociatedAddressMismatch,
                     IndexOutOfBounds, AccountDidNotSerialize}
  {
  }

  /** The payload's `recipient` field is never consulted: changing it alone changes nothing. */
  lemma RecipientFieldIgnored(env: Env, l: Ledger, acc: Accounts, payload1: seq<byte>, payload2: seq<byte>)
    requires env.decodePayload(payload1).Some? && env.decodePayload(payload2).Some?
    requires env.decodePayload(payload2).value == env.decodePayload(payload1).value.(recipient := env.decodePayload(payload2).value.recipient)
    ensures Handle(env, l, acc, payload1) == Handle(env, l, acc, payload2)
  {
  }

  // ---------------------------------------------------------------------
  // Effects of a successful call
  // ---------------------------------------------------------------------

  /**
   * Success creates exactly four accounts (mint, token account, marker,
   * origin) and changes no account that existed before.
   */
  lemma SuccessTouchesOnlyNewAccounts(env: Env, l: Ledger, acc: Accounts, payload: seq<byte>, p: Payload, l': Ledger)
    requires env.decodePayload(payload) == Some(p)
    requires Handle(env, l, acc, payload) == Success(l')
    ensures l'.accounts.Keys == l.accounts.Keys +
      {acc.mint, acc.recipientTokenAccount, ReplayMarkerAddress(p.tokenId, p.nonce), OriginAddress(p.tokenId)}
    ensures acc.mint !in l.accounts && acc.recipientTokenAccount !in l.accounts
    ensures ReplayMarkerAddress(p.tokenId, p.nonce) !in l.accounts && OriginAddress(p.tokenId) !in l.accounts
    ensures forall a :: a in l.accounts ==> l'.accounts[a] == l.accounts[a]
  {
  }

  /**
   * Success leaves a 0-decimal mint with supply exactly 1, and that one unit
   * in the recipient's associated token account.
   */
  lemma SuccessMintsOneUnit(env: Env, l: Ledger, acc: Accounts, payload: seq<byte>, l': Ledger)
    requires Handle(env, l, acc, payload) == Success(l')
    ensures IsMint(l', acc.mint)
    ensures l'.accounts[acc.mint].mintState.supply == 1
    ensures l'.accounts[acc.mint].mintState.decimals == 0
    ensures l'.accounts[acc.mint].mintState.mintAuthority == Some(acc.payer)
    ensures l'.accounts[acc.mint].mintState.freezeAuthority == Some(acc.payer)
    ensures acc.recipientTokenAccount == AssociatedTokenAddress(acc.recipient, acc.mint)
    ensures IsTokenAccount(l', acc.recipientTokenAccount)
    ensures l'.accounts[acc.recipientTokenAccount].holding == TokenHolding(acc.mint, acc.recipient, 1)
  {
  }

  /** Every account a successful call creates holds data, so none reads as `data_is_empty`. */
  lemma SuccessWritesData(env: Env, l: Ledger, acc: Accounts, payload: seq<byte>, p: Payload, l': Ledger)
    requires env.decodePayload(payload) == Some(p)
    requires Handle(env, l, acc, payload) == Success(l')
    ensures HoldsData(env.layout, l', acc.mint)
    ensures HoldsData(env.layout, l', acc.recipientTokenAccount)
    ensures HoldsData(env.layout, l', ReplayMarkerAddress(p.tokenId, p.nonce))
    ensures HoldsData(env.layout, l', OriginAddress(p.tokenId))
  {
  }

  /** Success records the consumed (token id, nonce) and the derivation bump at the derived marker address. */
  lemma SuccessRecordsMarker(env: Env, l: Ledger, acc: Accounts, payload: seq<byte>, p: Payload, l': Ledger)
    requires env.decodePayload(payload) == Some(p)
    requires Handle(env, l, acc, payload) == Success(l')
    ensures acc.replayMarker == ReplayMarkerAddress(p.tokenId, p.nonce)
    ensures acc.replayMarker in l'.accounts && l'.accounts[acc.replayMarker].MarkerAccount?
    ensures l'.accounts[acc.replayMarker].marker.tokenId == p.tokenId
    ensures l'.accounts[acc.replayMarker].marker.nonce == p.nonce
    ensures l'.accounts[acc.replayMarker].marker.bump == env.bump(ReplayMarkerAddress(p.tokenId, p.nonce))
  {
  }

  /** Success writes the payload's origin chain, token id, origin mint and metadata URI to the origin record. */
  lemma SuccessRecordsOrigin(env: Env, l: Ledger, acc: Accounts, payload: seq<byte>, p: Payload, l': Ledger)
    requires env.decodePayload(payload) == Some(p)
    requires Handle(env, l, acc, payload) == Success(l')
    ensures OriginAddress(p.tokenId) in l'.accounts && l'.accounts[OriginAddress(p.tokenId)].OriginAccount?
    ensures l'.accounts[OriginAddress(p.tokenId)].origin.originChain == p.originChainId
    ensures l'.accounts[OriginAddress(p.tokenId)].origin.originTokenId == p.tokenId
    ensures l'.accounts[OriginAddress(p.tokenId)].origin.originMint == p.originMint
    ensures l'.accounts[OriginAddress(p.tokenId)].origin.metadataUri == p.metadataUri
    ensures l'.accounts[OriginAddress(p.tokenId)].origin.bump == env.bump(OriginAddress(p.tokenId))
  {
  }

  // ---------------------------------------------------------------------
  // Replay safety for one pair of calls
  // ---------------------------------------------------------------------

  /**
   * After a message with key (token id, nonce) is applied, no call carrying
   * the same key can succeed, whatever its accounts, recipient or other
   * fields; when the guards before the replay check pass, it is refused as a
   * replay.
   */
  lemma SecondDeliveryFails(env: Env, l: Ledger, acc: Accounts, payload: seq<byte>, p: Payload, l': Ledger,
                            acc2: Accounts, payload2: seq<byte>, p2: Payload)
    requires env.decodePayload(payload) == Some(p)
    requires Handle(env, l, acc, payload) == Success(l')
    requires env.decodePayload(payload2) == Some(p2)
    requires p2.tokenId == p.tokenId && p2.nonce == p.nonce
    ensures Handle(env, l', acc2, payload2).Failure?
    ensures AccountsValid(l', acc2) && ConfigValid(env, l', acc2)
            && acc2.replayMarker == ReplayMarkerAddress(p.tokenId, p.nonce)
            ==> Handle(env, l', acc2, payload2) == Failure(Program(ReplayAttack))
  {
    var at := ReplayMarkerAddress(p.tokenId, p.nonce);
    assert at in l'.accounts;
    if AccountsValid(l', acc2) && ConfigValid(env, l', acc2) && acc2.replayMarker == at {
      assert l'.accounts[at] == MarkerAccount(MarkerFor(env, p));
      ReplayMarkerOccupiedRejected(env, l', acc2, payload2, p2);
    }
  }

  /**
   * Once a token's origin record exists, no further inbound message for that
   * token id succeeds, whatever its nonce.
   */
  lemma OriginRecordedOnce(env: Env, l: Ledger, acc: Accounts, payload: seq<byte>, p: Payload)
    requires env.decodePayload(payload) == Some(p)
    requires OriginAddress(p.tokenId) in l.accounts
    ensures Handle(env, l, acc, payload).Failure?
  {
  }
}
