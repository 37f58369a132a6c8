/**
 * Collaborator bootstrap: the instantiation of the NFT contract issued when
 * the hub is instantiated, and the reading of that contract's address out of
 * the one reply the hub expects.
 */
module Bootstrap {
  import opened HubTypes

  /** Correlation id of the NFT instantiation sub-message and of its reply. */
  const InstantiateReplyId: nat := 0

  /** Label under which the NFT contract is deployed. */
  const NftLabel: string := "trophy-nft"

  /** Event type, and attribute key within it, that carry the deployed address. */
  const InstantiateEvent: string := "instantiate_contract"
  const ContractAddressKey: string := "contract_address"

  /** The sub-message sent at instantiation: deploy code `codeId` administered by `admin`. */
  function InstantiateNft(admin: Addr, codeId: nat): SubMsg {
    ReplyOnSuccess(WasmInstantiate(Some(admin), codeId, NftLabel), InstantiateReplyId)
  }

  /**
   * Index of the first element of `s` that `matches`, as an iterator's
   * `find` locates it, or None when no element does.
   */
  function FirstMatch<T>(s: seq<T>, matches: T -> bool): (r: Option<nat>)
    ensures r.Some? ==> r.value < |s| && matches(s[r.value])
    ensures r.Some? ==> forall j :: 0 <= j < r.value ==> !matches(s[j])
    ensures r.None? ==> forall j :: 0 <= j < |s| ==> !matches(s[j])
  {
    if s == [] then None
    else if matches(s[0]) then Some(0)
    else match FirstMatch(s[1..], matches)
      case None => None
      case Some(i) => Some(i + 1)
  }

  /**
   * The deployed NFT address carried by a reply's result: the value of the
   * first `contract_address` attribute of the first `instantiate_contract`
   * event. A failed sub-message reports its own error.
   */
  function ContractAddress(result: SubMsgResult): (r: Result<Addr, ContractError>)
    ensures result.Failed? ==> r == Err(ReplyFailed(result.reason))
    ensures result.Succeeded? && (forall e :: e in result.events ==> e.ty != InstantiateEvent)
        ==> r == Err(ContractAddressMissing)
    ensures r.Ok? ==>
      exists i, j :: && result.Succeeded?
                     && 0 <= i < |result.events| && result.events[i].ty == InstantiateEvent
                     && (forall k :: 0 <= k < i ==> result.events[k].ty != InstantiateEvent)
                     && 0 <= j < |result.events[i].attributes|
                     && result.events[i].attributes[j] == Attribute(ContractAddressKey, r.value)
                     && (forall k :: 0 <= k < j ==> result.events[i].attributes[k].key != ContractAddressKey)
    ensures (exists i, j :: && result.Succeeded?
                            && 0 <= i < |result.events| && result.events[i].ty == InstantiateEvent
                            && 0 <= j < |result.events[i].attributes|
                            && result.events[i].attributes[j].key == ContractAddressKey
                            && (forall k :: 0 <= k < i ==> result.events[k].ty != InstantiateEvent))
        ==> r.Ok?
  {
    match result
    case Failed(reason) => Err(ReplyFailed(reason))
    case Succeeded(events) =>
      match FirstMatch(events, (e: Event) => e.ty == InstantiateEvent)
      case None => Err(ContractAddressMissing)
      case Some(i) =>
        match FirstMatch(events[i].attributes, (a: Attribute) => a.key == ContractAddressKey)
        case None => Err(ContractAddressMissing)
        case Some(j) => Ok(events[i].attributes[j].value)
  }
}
