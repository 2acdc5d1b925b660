/**
 * Account addresses and the deterministic (program-derived) addresses the
 * inbound handler relies on.
 *
 * The host derives an address by hashing a program id with a tuple of seeds
 * and searching for a "bump" byte that puts the result off the ed25519 curve.
 * Here a derived address is the seed tuple itself, tagged with the deriving
 * program: derivation is therefore injective in (program, seeds) and can never
 * coincide with a keypair (wallet) address, which is what the hash is relied
 * on for. The bump the search returns is left abstract (see `Env.bump`).
 */
module Addresses {
  import opened Ints

  /** A 32-byte token identifier, `[u8; 32]` in the program. */
  type TokenId = s: seq<byte> | |s| == 32 witness seq(32, i => 0)

  /** The programs whose derived addresses appear in the handler. */
  datatype Program = UniversalNft | AssociatedToken

  /** Seed tuples, one constructor per derivation domain. */
  datatype Seeds =
    | GatewayConfigSeed
    | ReplaySeed(tokenId: TokenId, nonce: u64)
    | OriginSeed(tokenId: TokenId)
    | AssociatedSeed(wallet: Address, mint: Address)

  /** A public key: either an on-curve keypair address or a program-derived one. */
  datatype Address = Wallet(key: nat) | Derived(program: Program, seeds: Seeds)

  /** `find_program_address(&[GatewayConfig::SEED], &crate::ID)`. */
  function ConfigAddress(): (a: Address)
    ensures a.Derived? && a.program == UniversalNft
  {
    Derived(UniversalNft, GatewayConfigSeed)
  }

  /** `derive_replay_marker_pda(token_id, nonce)`. */
  function ReplayMarkerAddress(tokenId: TokenId, nonce: u64): (a: Address)
    ensures a.Derived? && a.program == UniversalNft
    ensures a != ConfigAddress()
  {
    Derived(UniversalNft, ReplaySeed(tokenId, nonce))
  }

  /** `derive_nft_origin_pda(token_id)`. */
  function OriginAddress(tokenId: TokenId): (a: Address)
    ensures a.Derived? && a.program == UniversalNft
    ensures a != ConfigAddress()
    ensures forall t: TokenId, nonce: u64 :: a != ReplayMarkerAddress(t, nonce)
  {
    Derived(UniversalNft, OriginSeed(tokenId))
  }

  /** The associated token account of `wallet` for `mint`. */
  function AssociatedTokenAddress(wallet: Address, mint: Address): (a: Address)
    ensures a.Derived? && a.program == AssociatedToken
    ensures a != mint && a != wallet
  {
    var seeds := AssociatedSeed(wallet, mint);
    // a datatype value is never equal to one of its own components
    assert wallet < seeds && mint < seeds;
    Derived(AssociatedToken, seeds)
  }

  /** Replay-marker derivation is injective in its seed pair. */
  lemma ReplayMarkerAddressInjective(t1: TokenId, n1: u64, t2: TokenId, n2: u64)
    ensures ReplayMarkerAddress(t1, n1) == ReplayMarkerAddress(t2, n2) <==> t1 == t2 && n1 == n2
  {
  }

  /** Origin derivation is injective in the token id. */
  lemma OriginAddressInjective(t1: TokenId, t2: TokenId)
    ensures OriginAddress(t1) == OriginAddress(t2) <==> t1 == t2
  {
  }
}
