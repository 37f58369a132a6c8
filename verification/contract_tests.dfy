/**
 * The hub's test scenarios, each a method that drives one `Hub` through the
 * same calls and returns what the scenario observes; the postconditions are
 * the observations the scenario expects, proved from the entry points'
 * contracts alone.
 */
module ContractTests {
  import opened HubTypes
  import opened MintEngine
  import opened TrophyHub

  /** The reply the NFT instantiation produces: its address is "nft". */
  function MockReply(): Reply {
    Reply(0, Succeeded([Event("instantiate_contract", [Attribute("contract_address", "nft")])]))
  }

  function MockMetadata(): Metadata {
    Metadata(
      Some("ipfs://image"), None, None, Some("This is a test"), Some("Test Trophy"),
      None, None, Some("ipfs://video"), None)
  }

  function MockEnv(): Env {
    Env(MockHeight)
  }

  /** A hub whose bootstrap reply has been handled. */
  method SetupTest() returns (hub: Hub)
    ensures fresh(hub) && hub.Valid()
    ensures hub.nft == Some("nft") && hub.trophyCount == Some(0)
    ensures hub.trophies == map[] && hub.legacy == map[] && hub.claimed == {}
  {
    hub := new Hub();
    var r := hub.HandleReply(MockReply());
  }

  /** The bootstrap reply alone sets the NFT address, and no trophy exists yet. */
  method ProperInitHook() returns (info: Result<ContractInfoResponse, ContractError>)
    ensures info == Ok(ContractInfoResponse("nft", 0))
  {
    var hub := SetupTest();
    info := hub.QueryContractInfo();
  }

  /** Instantiation emits exactly the NFT deployment, admin the deployer, reply id 0. */
  method ProperInstantiation() returns (messages: seq<SubMsg>)
    ensures messages == [ReplyOnSuccess(WasmInstantiate(Some("deployer"), 123, "trophy-nft"), 0)]
  {
    var hub := new Hub();
    messages := hub.Instantiate("deployer", 123);
  }

  /** Only the creator edits; the creator's edit is what a later query shows. */
  method EditingTrophy() returns (created: Result<nat, ContractError>,
                                  denied: Result<(), ContractError>,
                                  edited: Result<(), ContractError>,
                                  queried: Result<TrophyInfo, ContractError>)
    ensures created == Ok(1)
    ensures denied.Err? && ErrorMessage(denied.error) == "caller is not creator"
    ensures edited.Ok?
    ensures queried.Ok? && queried.value.metadata.name == Some("Updated Trophy Name")
    ensures queried.Ok? && queried.value.rule == ByMinter("creator") && queried.value.currentSupply == 0
  {
    var hub := SetupTest();
    created := hub.CreateTrophy("creator", ByMinter("creator"), MockMetadata(), Some(AtHeight(20000)), None);
    var metadata := MockMetadata().(name := Some("Updated Trophy Name"));
    denied := hub.EditTrophy("non-creator", 1, metadata);
    edited := hub.EditTrophy("creator", 1, metadata);
    queried := hub.QueryTrophyInfo(1);
  }

  /** A non-minter is refused; the minter's first mint then starts at serial 1. */
  method MintingByMinter() returns (denied: Result<CosmosMsg, ContractError>,
                                    minted: Result<CosmosMsg, ContractError>)
    ensures denied.Err? && ErrorMessage(denied.error) == "caller is not minter"
    ensures minted == Ok(WasmExecute("nft", Mint(1, 1, ["alice", "bob"])))
  {
    var hub := SetupTest();
    var created := hub.CreateTrophy("creator", ByMinter("minter"), MockMetadata(), None, None);
    denied := hub.MintByMinter(MockEnv(), "non-minter", 1, ["alice", "bob"]);
    minted := hub.MintByMinter(MockEnv(), "minter", 1, ["alice", "bob"]);
  }

  /**
   * Alice's signature over her own address, by the trophy's key, mints to her
   * at serial 1. Bob presenting the same signature is refused, and so is
   * Alice, after her mint, presenting a signature by another key: the
   * signature is checked before her earlier claim.
   */
  method MintingBySignature(verify: Verifier, pk1: string, sig1: string, sig2: string)
    returns (claimed: Result<CosmosMsg, ContractError>,
             byBob: Result<CosmosMsg, ContractError>,
             withOtherKey: Result<CosmosMsg, ContractError>)
    requires verify(pk1, "alice", sig1)
    requires !verify(pk1, "bob", sig1)
    requires !verify(pk1, "alice", sig2)
    ensures claimed == Ok(WasmExecute("nft", Mint(1, 1, ["alice"])))
    ensures byBob.Err? && ErrorMessage(byBob.error) == "signature verification failed"
    ensures withOtherKey.Err? && ErrorMessage(withOtherKey.error) == "signature verification failed"
  {
    var hub := SetupTest();
    var created := hub.CreateTrophy("creator", BySignature(pk1), MockMetadata(), None, None);
    claimed := hub.MintBySignature(MockEnv(), "alice", 1, sig1, verify);
    byBob := hub.MintBySignature(MockEnv(), "bob", 1, sig1, verify);
    withOtherKey := hub.MintBySignature(MockEnv(), "alice", 1, sig2, verify);
  }

  /** After two instances exist, the next mint starts at serial 3. */
  method MintingMultipleTimes() returns (first: Result<CosmosMsg, ContractError>,
                                         second: Result<CosmosMsg, ContractError>)
    ensures first == Ok(WasmExecute("nft", Mint(1, 1, ["alice", "bob"])))
    ensures second == Ok(WasmExecute("nft", Mint(1, 3, ["charlie"])))
  {
    var hub := SetupTest();
    var created := hub.CreateTrophy("creator", ByMinter("minter"), MockMetadata(), Some(AtHeight(20000)), None);
    first := hub.MintByMinter(MockEnv(), "minter", 1, ["alice", "bob"]);
    second := hub.MintByMinter(MockEnv(), "minter", 1, ["charlie"]);
  }

  /** Minting by minter from a `BySignature` trophy is refused. */
  method MintingAssertRule() returns (denied: Result<CosmosMsg, ContractError>)
    ensures denied.Err? && ErrorMessage(denied.error) == "minting rule is not `ByMinter`"
  {
    var hub := SetupTest();
    var created := hub.CreateTrophy("creator", BySignature("pubkey"), MockMetadata(), None, None);
    denied := hub.MintByMinter(MockEnv(), "minter", 1, ["charlie"]);
  }

  /** At height 12345 a trophy that expired at height 10000 refuses mints. */
  method MintingAssertExpiry() returns (denied: Result<CosmosMsg, ContractError>)
    ensures denied.Err? && ErrorMessage(denied.error) == "minting time has elapsed"
  {
    var hub := SetupTest();
    var created := hub.CreateTrophy("creator", ByMinter("minter"), MockMetadata(), Some(AtHeight(10000)), None);
    denied := hub.MintByMinter(MockEnv(), "minter", 1, ["charlie"]);
  }

  /** Two instances of a trophy capped at one are refused. */
  method MintingAssertMaxSupply() returns (denied: Result<CosmosMsg, ContractError>)
    ensures denied.Err? && ErrorMessage(denied.error) == "max supply exceeded"
  {
    var hub := SetupTest();
    var created := hub.CreateTrophy("creator", ByMinter("minter"), MockMetadata(), None, Some(1));
    denied := hub.MintByMinter(MockEnv(), "minter", 1, ["alice", "bob"]);
  }

  /** A legacy record under id 1 reads, after migration, as its current-schema upgrade. */
  method Migrating() returns (queried: Result<TrophyInfo, ContractError>)
    ensures queried == Ok(TrophyInfo("creator", ByMinter("creator"), MockMetadata(), None, None, 0))
  {
    var hub := SetupTest();
    hub.StoreLegacyTrophy(1, LegacyTrophyInfo("creator", MockMetadata(), 0));
    hub.StoreTrophyCount(1);
    hub.Migrate();
    queried := hub.QueryTrophyInfo(1);
  }
}
