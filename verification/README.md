# Trophy hub: a Dafny model

This project models the trophy hub contract of the terra-trophies "badges"
repository. The contract is an on-chain registry of trophies (achievement
records). It decides who may mint NFT instances of each trophy and tells a
separate NFT contract to mint them. The hub's behaviour is modelled as the
repository's test suite (`contracts/trophy-hub/src/contract_tests.rs`) fixes it:

- **Bootstrap.** Instantiation emits one sub-message that deploys the NFT
  code, with the instantiator as admin, label `trophy-nft` and reply id 0.
  The reply with id 0 carries an `instantiate_contract` event. Its
  `contract_address` attribute becomes the NFT address, and the trophy
  counter starts at 0.
- **Registry.** `CreateTrophy` hands out dense ids from 1. It stores the
  creator, the mint rule (`ByMinter(addr)` or `BySignature(pubkey)`), the
  metadata, an optional expiry height, an optional supply cap and a current
  supply of 0. `EditTrophy` is creator-only and replaces the metadata.
- **Mint authorization.** `MintByMinter` checks the stored rule, the caller,
  the expiry and the cap. It then emits one `Mint { trophy_id, start_serial,
  owners }` instruction, whose serials continue without gaps from the
  current supply. `MintBySignature` checks a signature over the caller's own
  address against the stored key, then emits a single-owner mint.
- **Migration.** A legacy `{creator, metadata, instance_count}` record turns
  into a current record under the same id. The rule becomes
  `ByMinter(creator)`, there is no expiry and no cap, and the current supply
  is the instance count.

Layout:

- `types.dfy` (`HubTypes`): the values.
- `engine.dfy` (`MintEngine`): the mint decisions as functions, plus lemmas
  over whole runs of mint requests.
- `bootstrap.dfy` (`Bootstrap`): the instantiation message and reading the
  address out of the reply.
- `migration.dfy` (`Migration`): the record upgrade.
- `hub.dfy` (`TrophyHub`): class `Hub`. Its fields are the contract's
  storage: NFT address, trophy counter, trophy map, legacy map and claim
  set. It has one method per entry point.
- `contract_tests.dfy` (`ContractTests`): each test of the suite as a
  method. The method's postcondition is what the test asserts, proved from
  the entry points' contracts.

Modelling choices (`contracts/trophy-hub/src/contract.rs` is not part of this
model, so these follow the tests; where the tests are silent they are the
model's own choices, listed below):

- Signatures are checked by a `Verifier` function passed into
  `MintBySignature`. It stands for the host's secp256k1 check over the
  SHA-256 digest of the message. The message is always the caller's address.
- An `AtHeight(h)` expiry counts as expired when `height >= h`, as cw721's
  `Expiration` does. The tests only pin 12345 against 10000 (expired) and
  20000 (open).
- The claim set and the `AlreadyClaimed` error are this model's addition,
  to allow one signature mint per (trophy, claimant); no test exercises
  them, so the error's message text is the model's own. The signature is
  checked first because in the test at lines 201-208 Alice has already
  minted and still gets "signature verification failed".
- Mint checks run in this order. `MintByMinter`: record exists, rule is
  `ByMinter`, caller is the minter, not expired, fits the cap.
  `MintBySignature`: record exists, rule is `BySignature`, not expired, one
  more fits, signature verifies, not yet claimed. If the NFT address is
  unset, `ContractInfoNotFound` is reported after all of these. The
  contract's `Valid()` invariant makes that case unreachable, and both mint
  methods state so in their postconditions.
- The bootstrap reply sets the NFT address and starts the counter at 0; the
  init-hook test shows this without any instantiate call. A second reply,
  and a reply with another id, are rejected. `Instantiate` writes no state.
- Only the error messages the tests assert are the source's:
  "caller is not creator", "caller is not minter", "minting rule is not
  `ByMinter`", "minting time has elapsed", "max supply exceeded" and
  "signature verification failed". The other messages are the model's
  wording.

## Model

| member | source | states |
|---|---|---|
| `MintEngine.MinterAuthorization` | contracts/trophy-hub/src/contract_tests.rs:250-313 | a by-minter mint is accepted iff the stored rule is `ByMinter(caller)`, the trophy is not expired and current supply + owners fits the cap; otherwise the first failing check (rule, caller, expiry, supply) is the error; an accepted mint starts at current supply + 1 with the owners in order |
| `MintEngine.SignatureAuthorization` | contracts/trophy-hub/src/contract_tests.rs:177-208 | a by-signature mint is accepted iff rule is `BySignature`, not expired, one more fits, the signature verifies for the caller's own address and the caller has no claim; a non-verifying signature is reported as such whatever the claim set holds; an accepted mint is a single-owner mint to the caller |
| `MintEngine.ExpiryGate` | contracts/trophy-hub/src/contract_tests.rs:271-291 | at or past the expiry height no mint of either kind is accepted; strictly before it, the decision equals the one for the same trophy without expiry |
| `MintEngine.SignatureNotTrophyBound` | contracts/trophy-hub/src/contract_tests.rs:155-163 | the signed message is only the claimant's address, so a signature one trophy accepts is accepted by any other open trophy with the same key, room, and no claim by that caller |
| `MintEngine.MintKeepsCap` | contracts/trophy-hub/src/contract_tests.rs:298-312 | an accepted mint keeps the trophy within its cap, and a mint whose owners would take supply past the cap fails with "max supply exceeded" |
| `MintEngine.SerialsGapless` | contracts/trophy-hub/src/contract_tests.rs:224-247 | over any run of by-minter requests, the emitted tokens carry serials current supply + 1, + 2, ... in call order with no gap; refused requests consume nothing; the final supply grows by exactly the tokens emitted and no other field changes |
| `MintEngine.CapPreserved` | contracts/trophy-hub/src/contract_tests.rs:293-313 | no run of by-minter requests takes a trophy past its cap |
| `MintEngine.ClaimedAtMostOnce` | contracts/trophy-hub/src/contract_tests.rs:178-208 | over any run of by-signature requests, each accepted mint has one owner who had not claimed before; different accepted mints have different owners; every owner ends in the claim set |
| `Bootstrap.FirstMatch` | contracts/trophy-hub/src/contract_tests.rs:354-364 | gives the index of the first element satisfying the condition (the first `instantiate_contract` event, then the first `contract_address` attribute), or none when no element does |
| `Bootstrap.ContractAddress` | contracts/trophy-hub/src/contract_tests.rs:354-364 | the address is the first `contract_address` attribute of the first `instantiate_contract` event; one is found whenever that event has such an attribute; a failed sub-message or a missing event is an error |
| `Migration.UpgradeFaithful` | contracts/trophy-hub/src/contract_tests.rs:341-349 | the upgrade has rule `ByMinter(creator)`, no expiry, no cap and supply = instance count; it loses nothing (downgrading gives the legacy record back); the creator can always mint from it, from serial instance count + 1 |
| `Migration.UpgradeAll` | contracts/trophy-hub/src/contract_tests.rs:331-332 | every legacy record is upgraded under its own id and no other id appears |
| `Migration.MigrationIdempotent` | contracts/trophy-hub/src/contract_tests.rs:331-349 | migrating twice equals migrating once; no legacy record remains; every id that held a record still holds one; current records untouched unless a legacy record shares the id |
| `TrophyHub.Hub.constructor` | contracts/trophy-hub/src/contract_tests.rs:32 | fresh storage: NFT address and counter unset, no records, no claims; the invariant holds |
| `TrophyHub.Hub.Instantiate` | contracts/trophy-hub/src/contract_tests.rs:46-67 | exactly one sub-message: deploy the NFT code id with admin = sender, label `trophy-nft`, reply on success with id 0 |
| `TrophyHub.Hub.HandleReply` | contracts/trophy-hub/src/contract_tests.rs:31-43 | accepted iff id is 0, the address is unset and the reply carries it; then NFT address = that address and counter = 0; a wrong id, a second reply or a missing address fails without effect; the invariant is preserved |
| `TrophyHub.Hub.CreateTrophy` | contracts/trophy-hub/src/contract_tests.rs:74-80 | the new id is counter + 1 and was never used; the record stores creator = sender, rule, metadata, expiry, cap and supply 0; the counter becomes the new id; fails without effect before bootstrap; the invariant is preserved |
| `TrophyHub.Hub.EditTrophy` | contracts/trophy-hub/src/contract_tests.rs:86-104 | succeeds iff the trophy exists and the sender is its creator (else "caller is not creator" / not found); success replaces only the metadata; nothing else in storage changes |
| `TrophyHub.Hub.MintByMinter` | contracts/trophy-hub/src/contract_tests.rs:121-141 | the result is the by-minter decision on the stored record, addressed to the NFT contract; on success only that trophy's supply grows by the number of owners; on failure storage is unchanged; under the invariant the NFT address is never missing; the invariant (cap included) is preserved |
| `TrophyHub.Hub.MintBySignature` | contracts/trophy-hub/src/contract_tests.rs:178-208 | the result is the by-signature decision on the stored record and claim set; on success the caller was unclaimed and is now claimed and supply grows by one; on failure storage is unchanged; under the invariant the NFT address is never missing; the invariant is preserved |
| `TrophyHub.Hub.Migrate` | contracts/trophy-hub/src/contract_tests.rs:331-332 | trophy and legacy storage become the migration of the old ones (legacy records upgraded in place, legacy map emptied); NFT address, counter and claims unchanged; the invariant is preserved |
| `TrophyHub.Hub.StoreLegacyTrophy` | contracts/trophy-hub/src/contract_tests.rs:322-328 | writes one legacy record under its id; nothing else changes; a staging step of the scenario, not an entry point, so it does not promise the invariant |
| `TrophyHub.Hub.StoreTrophyCount` | contracts/trophy-hub/src/contract_tests.rs:329 | sets the counter; nothing else changes; a staging step of the scenario, not an entry point, so it does not promise the invariant |
| `TrophyHub.Hub.QueryContractInfo` | contracts/trophy-hub/src/contract_tests.rs:35-42 | answers the NFT address and counter iff both are set, else not found |
| `TrophyHub.Hub.QueryTrophyInfo` | contracts/trophy-hub/src/contract_tests.rs:98-103 | answers the current record under the id iff one exists, else "trophy not found" |
| `ContractTests.SetupTest` | contracts/trophy-hub/src/contract_tests.rs:380-384 | after the mock reply: NFT address "nft", counter 0, no records, invariant holds |
| `ContractTests.ProperInitHook` | contracts/trophy-hub/src/contract_tests.rs:30-43 | the contract-info query answers nft = "nft", trophy_count = 0 |
| `ContractTests.ProperInstantiation` | contracts/trophy-hub/src/contract_tests.rs:45-67 | instantiating by "deployer" with code 123 emits exactly the deployment with admin "deployer", label "trophy-nft", reply id 0 |
| `ContractTests.EditingTrophy` | contracts/trophy-hub/src/contract_tests.rs:69-105 | the first trophy gets id 1; a non-creator's edit fails with "caller is not creator"; the creator's edit succeeds; the query shows the new name and the unchanged rule and supply |
| `ContractTests.MintingByMinter` | contracts/trophy-hub/src/contract_tests.rs:107-142 | a non-minter fails with "caller is not minter"; the minter then mints `[alice, bob]` to "nft" from serial 1 |
| `ContractTests.MintingBySignature` | contracts/trophy-hub/src/contract_tests.rs:145-209 | for any verifier that accepts alice's signature only for alice: alice mints from serial 1; bob with alice's signature and alice, after minting, with another key's signature both fail with "signature verification failed" |
| `ContractTests.MintingMultipleTimes` | contracts/trophy-hub/src/contract_tests.rs:211-248 | the first mint of `[alice, bob]` starts at serial 1 and the next mint of `[charlie]` at serial 3 |
| `ContractTests.MintingAssertRule` | contracts/trophy-hub/src/contract_tests.rs:250-269 | minting by minter from a `BySignature` trophy fails with "minting rule is not `ByMinter`" |
| `ContractTests.MintingAssertExpiry` | contracts/trophy-hub/src/contract_tests.rs:271-291 | at height 12345 a trophy expiring at height 10000 fails with "minting time has elapsed" |
| `ContractTests.MintingAssertMaxSupply` | contracts/trophy-hub/src/contract_tests.rs:293-313 | minting 2 from a trophy capped at 1 fails with "max supply exceeded" |
| `ContractTests.Migrating` | contracts/trophy-hub/src/contract_tests.rs:315-350 | after migrating legacy id 1, the query answers creator "creator", rule `ByMinter("creator")`, the same metadata, no expiry, no cap, supply 0 |

## Left out

- Cryptography: ECDSA/secp256k1 signing and verification, SHA-256 digests, base64 encoding and random key generation. Verification is a `Verifier` function parameter, and the scenario states only the three verification facts the test relies on.
- Host plumbing: mock dependencies, storage encoding, (de)serialisation, and the wrappers around `CosmosMsg`, `WasmMsg` and `SubMsg`. Emitted instructions are plain datatypes. No funds are ever attached, so they are not represented.
- Response attributes and any data a successful `execute` returns, other than the emitted message. `CreateTrophy` returning the new id is a convenience of the model.
- Metadata contents beyond storing and replacing the record; no schema validation.
- `Expiration` variants other than `AtHeight`, including time-based expiry; only height is exercised.
- 64-bit widths of ids, serials and supplies: they are unbounded here, so overflow of `u64` is not modelled.
- Migrate: it leaves the trophy counter as it finds it and does not derive a missing counter from the number of migrated records, because the migration test stores the counter explicitly.
- The generic error-assertion helper of the test suite: errors are a datatype, and `ErrorMessage` gives their text.
