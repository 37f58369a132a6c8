/**
 * Values the trophy hub stores, receives and emits: addresses, trophy records
 * (current and legacy schema), mint rules, the mint and instantiate
 * instructions addressed to the NFT contract, the bootstrap reply, and the
 * errors a call can end with.
 */
module HubTypes {

  datatype Option<+T> = None | Some(value: T)

  datatype Result<+T, +E> = Ok(value: T) | Err(error: E)

  /** Canonical string form of an account or contract address. */
  type Addr = string

  /** The part of the execution environment the hub looks at: the block height. */
  datatype Env = Env(height: nat)

  /** Block height of the host's mock environment. */
  const MockHeight: nat := 12345

  /** One entry of the metadata's `attributes` list. */
  datatype Trait = Trait(displayType: Option<string>, traitType: string, value: string)

  /** Descriptive record of a trophy; the hub stores and replaces it, never inspects it. */
  datatype Metadata = Metadata(
    image: Option<string>,
    imageData: Option<string>,
    externalUrl: Option<string>,
    description: Option<string>,
    name: Option<string>,
    attributes: Option<seq<Trait>>,
    backgroundColor: Option<string>,
    animationUrl: Option<string>,
    youtubeUrl: Option<string>)

  /** Who may mint instances of a trophy: one fixed minter, or anyone holding a signature by a key. */
  datatype MintRule = ByMinter(minter: Addr) | BySignature(publicKey: string)

  /** Deadline of a trophy; only the block-height form is modelled. */
  datatype Expiration = AtHeight(height: nat)

  datatype TrophyInfo = TrophyInfo(
    creator: Addr,
    rule: MintRule,
    metadata: Metadata,
    expiry: Option<Expiration>,
    maxSupply: Option<nat>,
    currentSupply: nat)

  /** Trophy record of the schema before mint rules, expiry and supply caps existed. */
  datatype LegacyTrophyInfo = LegacyTrophyInfo(creator: Addr, metadata: Metadata, instanceCount: nat)

  /** The NFT contract's mint instruction: serial startSerial + k goes to owners[k]. */
  datatype NftMsg = Mint(trophyId: nat, startSerial: nat, owners: seq<Addr>)

  /** An execute message to another contract, with no funds attached. */
  datatype CosmosMsg = WasmExecute(contractAddr: Addr, msg: NftMsg)

  /** Deployment of a contract from stored code, with an empty init message and no funds. */
  datatype WasmInstantiate = WasmInstantiate(admin: Option<Addr>, codeId: nat, contractLabel: string)

  /** A sub-message whose successful execution is answered by a reply carrying `id`. */
  datatype SubMsg = ReplyOnSuccess(msg: WasmInstantiate, id: nat)

  datatype Attribute = Attribute(key: string, value: string)

  datatype Event = Event(ty: string, attributes: seq<Attribute>)

  /** Outcome of a sub-message as delivered to the reply handler. */
  datatype SubMsgResult = Succeeded(events: seq<Event>) | Failed(reason: string)

  datatype Reply = Reply(id: nat, result: SubMsgResult)

  datatype ContractInfoResponse = ContractInfoResponse(nft: Addr, trophyCount: nat)

  datatype ContractError =
    | TrophyNotFound
    | ContractInfoNotFound
    | CallerNotCreator
    | CallerNotMinter
    | RuleNotByMinter
    | RuleNotBySignature
    | MintingTimeElapsed
    | MaxSupplyExceeded
    | SignatureVerificationFailed
    | AlreadyClaimed
    | UnknownReplyId(id: nat)
    | ReplyFailed(reason: string)
    | ContractAddressMissing
    | AlreadyBootstrapped

  /** The text a failed call reports. */
  function ErrorMessage(e: ContractError): string {
    match e
    case TrophyNotFound => "trophy not found"
    case ContractInfoNotFound => "contract info not found"
    case CallerNotCreator => "caller is not creator"
    case CallerNotMinter => "caller is not minter"
    case RuleNotByMinter => "minting rule is not `ByMinter`"
    case RuleNotBySignature => "minting rule is not `BySignature`"
    case MintingTimeElapsed => "minting time has elapsed"
    case MaxSupplyExceeded => "max supply exceeded"
    case SignatureVerificationFailed => "signature verification failed"
    case AlreadyClaimed => "caller has already claimed this trophy"
    case UnknownReplyId(_) => "invalid reply id"
    case ReplyFailed(reason) => reason
    case ContractAddressMissing => "cannot find contract address"
    case AlreadyBootstrapped => "nft contract already set"
  }
}
