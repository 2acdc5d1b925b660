# Universal NFT inbound handler — Dafny model

A model of the inbound cross-chain handler of the Solana `universal_nft`
program: `handler` in `instructions/handle_incoming.rs` together with its
`HandleIncoming` account constraints. A gateway delivers a cross-chain NFT
transfer through it. `lib.rs` registers only `initialize` and declares no
`instructions`, `state` or `utils` module, so the handler is not wired into the
program as the repository stands; the model describes it as the instruction it
is written to be. Run as an instruction, it is one all-or-nothing transaction:

1. the account constraints run first: the payer signs and funds the new
   accounts, a fresh mint with 0 decimals is initialised with the payer as
   mint and freeze authority, and the recipient's associated token account for
   that mint is created;
2. the supplied gateway-config account must be the address derived from the
   config seed, and its data after the 8-byte discriminator must decode;
3. the payload bytes must decode to a `CrossChainNftPayload`;
4. the supplied replay-marker account must be the address derived from
   `(token_id, nonce)`, and it must hold no data (the replay guard);
5. the marker account is created and records `token_id`, `nonce`, the clock
   and the bump;
6. one token is minted into the recipient's token account, the payer signing
   as mint authority;
7. an origin record for `token_id` is created at its derived address and
   written; the model follows the guard at line 114 as written (see "Left
   out" for the parts of this step it does not follow literally).

The ledger is one map from address to account (`Ledgers.Ledger`). An account
holds raw bytes, or a mint, token-account, replay-marker or origin record. An
address is a keypair (`Wallet`) or a program-derived address (`Derived`). A
derived address is its program and seed tuple, so derivation is injective and
separates domains by construction. Only keypair addresses can sign. What the
code leaves to other components is passed in as `HandleIncoming.Env`:

- the bump found by the address search;
- whether a config body decodes;
- the payload decoder;
- the byte layout of typed accounts, constrained only to give every typed
  account at least its 8-byte discriminator (`Ledgers.Layout`);
- whether an origin record fits the space allocated for it;
- the clock.

`HandleIncoming.Handle` returns either the new ledger or an error, never a
partial ledger. `ReplaySafety.Step` commits a success and discards a failure,
as the host does.

Behaviour of the code that the model makes explicit:

- A gateway-config account with fewer than 8 bytes of data (for example one
  that does not exist) makes `&data[8..]` panic. The result is a host abort,
  not `UnauthorizedGateway` (`HandleIncomingProperties.ConfigTooShortPanics`).
- The replay guard reads the marker's data, but marker creation fails on any
  existing account. A marker address that holds an account with no data
  therefore blocks the message with an abort
  (`HandleIncomingProperties.EmptyMarkerAccountBlocks`).
- The origin record is created, never updated, although the comments at
  lines 101 and 113 speak of "create or update". The guard at line 114
  compares the payer with the origin address. A signing payer never equals
  that address, so `create_account` always runs, and it aborts over an
  existing account. A token id received once can therefore never be received
  again, whatever the nonce (`HandleIncomingProperties.OriginExistsRejected`,
  `HandleIncomingProperties.OriginRecordedOnce`).
- The payload's `recipient` field is only logged. The tokens go to the
  `recipient` account supplied with the instruction
  (`HandleIncomingProperties.RecipientFieldIgnored`).
- The decoded gateway config is bound at line 48 and never used afterwards:
  no caller is compared with it. The only gateway check is that the config
  account sits at its derived address and decodes.
- Replay markers are keyed by `(token_id, nonce)` alone (line 55). There is no
  per-chain key and no nonce watermark: any unused nonce is accepted, in any
  order.
- Nothing bounds the length of `metadata_uri` or `origin_mint` before they are
  written to the origin record (lines 104-111, 134).

## Model

| member | source | states |
|---|---|---|
| `HandleIncoming.Handle` | protocol-contracts-solana/programs/universal_nft/src/instructions/handle_incoming.rs:41-151 | The instruction succeeds exactly when every guard holds on the original ledger (`Accepts`), including that the origin record fits its allocated space. On success the new ledger is exactly `Effects`: the old accounts plus the mint, token account, marker and origin record. |
| `HandleIncoming.ValidateAccounts` | protocol-contracts-solana/programs/universal_nft/src/instructions/handle_incoming.rs:10-29 | The account constraints pass exactly when the payer and mint sign, the payer has an account to fund the new ones, the mint is fresh, and the token account is the recipient's associated address and is fresh. On success they add a 0-supply, 0-decimal mint with the payer as both authorities and an empty token account. Every failure is a host error. |
| `HandleIncoming.HandlerOnValidated` | protocol-contracts-solana/programs/universal_nft/src/instructions/handle_incoming.rs:44-134 | On the ledger the constraints leave, the handler body succeeds exactly when the config, payload, marker-address and marker-freshness guards, the origin-freshness condition and the origin-size condition hold on the original ledger. It then yields `Effects`. |
| `Token.InitializeMint` | protocol-contracts-solana/programs/universal_nft/src/instructions/handle_incoming.rs:15-22 | Mint initialisation succeeds exactly when no account exists at the mint address and the payer has an account. An existing account gives `AccountAlreadyInUse`, and an unfunded payer gives `InsufficientFunds`. It creates a mint with supply 0, the given decimals, and the payer as mint and freeze authority. No other account changes. |
| `Token.CreateAssociatedTokenAccount` | protocol-contracts-solana/programs/universal_nft/src/instructions/handle_incoming.rs:23-29 | Creation succeeds exactly when the address is the associated address of (recipient, mint), no account exists there, the mint is initialised and the payer has an account. A wrong address gives `AssociatedAddressMismatch` and an existing account gives `AccountAlreadyInUse`. The new account holds 0 units of that mint. |
| `Token.MintTo` | protocol-contracts-solana/programs/universal_nft/src/instructions/handle_incoming.rs:89-99 | Minting succeeds exactly when the destination is a token account of that mint, the authority is the mint authority and has signed, and neither the u64 balance nor the u64 supply overflows. Supply and balance then rise by the same amount and nothing else changes. |
| `Ledgers.CreateAccount` | protocol-contracts-solana/programs/universal_nft/src/instructions/handle_incoming.rs:60-76 | Account creation succeeds exactly when no account exists at the address and the payer has an account. An existing account gives `AccountAlreadyInUse`; otherwise an unfunded payer gives `InsufficientFunds`. On success the address holds the new record and every other account is unchanged. |
| `Ledgers.AccountData` | protocol-contracts-solana/programs/universal_nft/src/instructions/handle_incoming.rs:47-60 | An address's data is empty exactly when no account exists there or an empty raw account sits there. A typed account, such as a marker allocated `8 + ReplayMarker::LEN` bytes, always has at least its 8-byte discriminator. |
| `Ledgers.CreatedRecordHoldsData` | protocol-contracts-solana/programs/universal_nft/src/instructions/handle_incoming.rs:57-76 | A typed record written by a successful account creation holds data. |
| `Addresses.ConfigAddress` | protocol-contracts-solana/programs/universal_nft/src/instructions/handle_incoming.rs:45 | The config address is derived under this program's own id. |
| `Addresses.ReplayMarkerAddress` | protocol-contracts-solana/programs/universal_nft/src/instructions/handle_incoming.rs:55 | The marker address is derived under this program and differs from the config address. |
| `Addresses.OriginAddress` | protocol-contracts-solana/programs/universal_nft/src/instructions/handle_incoming.rs:102 | The origin address is derived under this program and differs from the config address and from every replay-marker address, of any token and nonce. |
| `Addresses.AssociatedTokenAddress` | protocol-contracts-solana/programs/universal_nft/src/instructions/handle_incoming.rs:26-27 | The associated address belongs to the associated-token program and differs from both the wallet and the mint. |
| `Addresses.ReplayMarkerAddressInjective` | protocol-contracts-solana/programs/universal_nft/src/instructions/handle_incoming.rs:55 | Two marker addresses are equal if and only if their token ids and nonces are equal. |
| `Addresses.OriginAddressInjective` | protocol-contracts-solana/programs/universal_nft/src/instructions/handle_incoming.rs:102 | Two origin addresses are equal if and only if their token ids are equal. |
| `HandleIncomingProperties.UnfundedPayerRejected` | protocol-contracts-solana/programs/universal_nft/src/instructions/handle_incoming.rs:12-22 | With both signatures present and a fresh mint, a payer without an account fails with `InsufficientFunds`. |
| `HandleIncomingProperties.PayerAsMintRejected` | protocol-contracts-solana/programs/universal_nft/src/instructions/handle_incoming.rs:12-22 | A call that names the payer as the mint always fails. |
| `HandleIncomingProperties.ConfigAddressMismatchRejected` | protocol-contracts-solana/programs/universal_nft/src/instructions/handle_incoming.rs:45-46 | Once the account constraints pass, a config account other than the derived one fails with `UnauthorizedGateway`, whatever the payload. |
| `HandleIncomingProperties.ConfigTooShortPanics` | protocol-contracts-solana/programs/universal_nft/src/instructions/handle_incoming.rs:47-48 | A correct config address with fewer than 8 bytes of data aborts with an out-of-bounds slice. |
| `HandleIncomingProperties.ConfigUndecodableRejected` | protocol-contracts-solana/programs/universal_nft/src/instructions/handle_incoming.rs:47-48 | A correct config address whose body after the discriminator does not decode fails with `UnauthorizedGateway`, whatever the payload. |
| `HandleIncomingProperties.PayloadUndecodableRejected` | protocol-contracts-solana/programs/universal_nft/src/instructions/handle_incoming.rs:51-52 | With a valid config, payload bytes that do not decode fail with `InvalidPayload`. |
| `HandleIncomingProperties.ReplayAddressMismatchRejected` | protocol-contracts-solana/programs/universal_nft/src/instructions/handle_incoming.rs:55-56 | With a valid config and a decoded payload, a marker account other than the one derived from (token id, nonce) fails with `ReplayPdaMismatch`. |
| `HandleIncomingProperties.ReplayMarkerOccupiedRejected` | protocol-contracts-solana/programs/universal_nft/src/instructions/handle_incoming.rs:57-59 | After the earlier guards pass, a marker account that holds data fails with `ReplayAttack`. |
| `HandleIncomingProperties.EmptyMarkerAccountBlocks` | protocol-contracts-solana/programs/universal_nft/src/instructions/handle_incoming.rs:57-76 | A marker address that holds an account with no data passes the replay check, but marker creation then aborts with `AccountAlreadyInUse`. |
| `HandleIncomingProperties.OriginExistsRejected` | protocol-contracts-solana/programs/universal_nft/src/instructions/handle_incoming.rs:113-129 | After every replay guard passes, an existing origin record aborts the call with `AccountAlreadyInUse`. |
| `HandleIncomingProperties.OriginTooLargeRejected` | protocol-contracts-solana/programs/universal_nft/src/instructions/handle_incoming.rs:119-134 | When every earlier guard passes but the origin record does not fit its account, the call fails with `AccountDidNotSerialize`. |
| `HandleIncomingProperties.FailuresComeFromGuards` | protocol-contracts-solana/programs/universal_nft/src/instructions/handle_incoming.rs:41-134 | Every failure is a program error code, a missing signature, an unfunded payer, an existing account, a wrong associated address, the config panic, or an origin record too large for its account. The mint-to step never fails. |
| `HandleIncomingProperties.RecipientFieldIgnored` | protocol-contracts-solana/programs/universal_nft/src/instructions/handle_incoming.rs:137-148 | Two payloads that differ only in `recipient` give the same outcome. |
| `HandleIncomingProperties.SuccessTouchesOnlyNewAccounts` | protocol-contracts-solana/programs/universal_nft/src/instructions/handle_incoming.rs:60-134 | A success adds exactly four accounts: mint, token account, marker and origin record. None of them existed before, and every account that existed is unchanged. |
| `HandleIncomingProperties.SuccessMintsOneUnit` | protocol-contracts-solana/programs/universal_nft/src/instructions/handle_incoming.rs:15-99 | After a success the mint has 0 decimals, supply exactly 1 and the payer as both authorities. The recipient's associated token account holds exactly that one unit. |
| `HandleIncomingProperties.SuccessWritesData` | protocol-contracts-solana/programs/universal_nft/src/instructions/handle_incoming.rs:57-134 | After a success the mint, token account, marker and origin record all hold data, so none of them passes a `data_is_empty` test. |
| `HandleIncomingProperties.SuccessRecordsMarker` | protocol-contracts-solana/programs/universal_nft/src/instructions/handle_incoming.rs:78-86 | After a success a marker sits at the derived replay address. It records the payload's token id and nonce and the derivation bump. |
| `HandleIncomingProperties.SuccessRecordsOrigin` | protocol-contracts-solana/programs/universal_nft/src/instructions/handle_incoming.rs:102-111 | After a success the origin record at the derived address holds the payload's origin chain, token id, origin mint and metadata URI, and the derivation bump. |
| `HandleIncomingProperties.SecondDeliveryFails` | protocol-contracts-solana/programs/universal_nft/src/instructions/handle_incoming.rs:54-59 | After a success, any call whose payload has the same (token id, nonce) fails, whatever its accounts or other fields. If the account, config and marker-address guards pass, the failure is `ReplayAttack`. |
| `HandleIncomingProperties.OriginRecordedOnce` | protocol-contracts-solana/programs/universal_nft/src/instructions/handle_incoming.rs:113-134 | While an origin record exists for a token id, every inbound message for that token id fails. |
| `ReplaySafety.Step` | protocol-contracts-solana/programs/universal_nft/src/instructions/handle_incoming.rs:41-151 | A rejected call leaves the ledger exactly as it was. A call never removes or alters an account that existed. |
| `ReplaySafety.StepCommitsHandle` | protocol-contracts-solana/programs/universal_nft/src/instructions/handle_incoming.rs:41-151 | A transaction's ledger is the result of `Handle` on success and the old ledger on failure. |
| `ReplaySafety.RejectedCallConsumesNothing` | protocol-contracts-solana/programs/universal_nft/src/instructions/handle_incoming.rs:54-59 | A rejected call leaves no trace. A later call, including one with the same key, behaves as if the rejected call had not happened. |
| `ReplaySafety.RunKeepsAccounts` | protocol-contracts-solana/programs/universal_nft/src/instructions/handle_incoming.rs:60-134 | Along any history, an account that exists at some point stays unchanged for the rest of the history. |
| `ReplaySafety.LaterSameKeyFails` | protocol-contracts-solana/programs/universal_nft/src/instructions/handle_incoming.rs:54-86 | In any history, once a call with key (token id, nonce) is applied, every later call with the same key fails. |
| `ReplaySafety.LaterSameKeyIsReplayAttack` | protocol-contracts-solana/programs/universal_nft/src/instructions/handle_incoming.rs:54-59 | In any history, a later call with an applied call's key whose account, config and marker-address guards pass fails with `ReplayAttack`. |
| `ReplaySafety.StepAddsMarkerOfItsKey` | protocol-contracts-solana/programs/universal_nft/src/instructions/handle_incoming.rs:54-86 | One transaction creates the marker for (t, n) if and only if it applies a call with key (t, n). |
| `ReplaySafety.MarkerComesFromAppliedCall` | protocol-contracts-solana/programs/universal_nft/src/instructions/handle_incoming.rs:54-86 | A marker present after a history and absent before it was created by an applied call with its key; the lemma returns that call's index. |
| `ReplaySafety.AppliedCallMarks` | protocol-contracts-solana/programs/universal_nft/src/instructions/handle_incoming.rs:78-86 | An applied call's marker record is present in the ledger right after that call. |
| `ReplaySafety.MarkerIffApplied` | protocol-contracts-solana/programs/universal_nft/src/instructions/handle_incoming.rs:54-86 | After a history, a marker exists for (t, n) if and only if it existed before or some applied call carried (t, n). |

## Left out

- `initialize` in `lib.rs` only logs a message.
- Byte layouts: the Borsh layouts of the payload, the gateway config, the marker and the origin record are not modelled. Decoding is an abstract partial function in `Env`. No round-trip law, field width or length bound is claimed.
- The contents of the gateway config are not modelled. The handler only checks that the config decodes and never uses the decoded value, so the model keeps only that check.
- Address derivation: the bump search and hashing of `find_program_address` are left out. Derivation is a free constructor over (program, seeds) and the bump is a parameter. Running out of bumps is not modelled.
- Cross-program calls: the System, SPL Token and Associated Token programs are modelled only by their abstract effects. The model covers create-if-absent, mint initialisation, associated-account creation and `mint_to` with its account, authority and u64 overflow checks.
- Frozen and native-token accounts are not modelled in `mint_to`, because the handler's accounts are always fresh.
- Pre-funded addresses: Anchor's `init` path for an address that already holds lamports is not modelled, nor is the associated-token program's equivalent path. Any existing account at the mint or token-account address aborts.
- The `recipient: SystemAccount` owner check is not modelled, because account owners are not modelled.
- Signatures are only "keypair address in the signer set".
- The origin-record step (lines 101-134) is modelled as the guard at line 114 gives it: the record is always created, which aborts where one exists, and then serialised. The update path that the comments at lines 101 and 113 describe is not modelled, because no line of the handler takes it. Some lines of this step are not followed literally. Line 114 compares a `Pubkey` with a `&Pubkey`. Line 132 asks for an `AccountInfo` from a bare key, which has no such conversion. The create-account call at lines 115-128 passes no account info for the origin address. The model does not follow those lines literally. Because the payer signs, it is a keypair address and never equals the derived origin address, so in this model the guard at line 114 always holds.
- `ReplaySafety.Run`: a history consists of `handle_incoming` transactions only, and no other instruction touches the ledger between them. Two consequences hold only in that closed world. First, the "only if" half of `ReplaySafety.MarkerIffApplied` is closed-world only: anyone can fund and create an account at an unused marker address, which then blocks that message (`HandleIncomingProperties.EmptyMarkerAccountBlocks`). Second, `ReplaySafety.RunKeepsAccounts`' claim that existing accounts stay unchanged is closed-world only: the payer is debited for rent, and as mint and freeze authority it can later mint more units or freeze the recipient's token account. `ReplaySafety.LaterSameKeyFails` does not depend on the closed world, because no other instruction can close an account this program owns.
- Rent and lamport amounts are not modelled. A payer counts as able to fund a new account exactly when an account exists at its address. The payer's debit is not recorded. A failure of `Clock::get` or `Rent::get` is not modelled. The clock value is the parameter `Env.now`.
- `HandleIncoming.Handle`: the replay marker's `try_serialize` (line 86) is taken never to fail, because its account is allocated `8 + ReplayMarker::LEN` bytes. The origin record's fit in `NftOrigin::LEN` bytes (lines 119-120, 134) is the abstract `Env.originFits`. The model does not decide it from the discriminator and the unbounded `metadata_uri`.
- `HandleIncoming.ValidateAccounts`: the `mut` constraints on `payer` and `replay_marker` (lines 12, 33) and the `Program` and `Sysvar` account checks (lines 35-38) are not modelled. A call with the wrong program or sysvar account is not rejected in the model.
- `Token.MintTo`: the authority's signature is a boolean input. The handler passes whether the payer signed, which the account constraints already guarantee.
- `emit!` and `msg!` output, including the hex formatting of the token id, is not modelled.
