/**
 * The trophy hub contract: its persistent state and its entry points
 * (instantiate, reply, execute, migrate, query). Every call runs to
 * completion on its own, and a call that fails leaves the state as it was.
 */
module TrophyHub {
  import opened HubTypes
  import opened MintEngine
  import Migration
  import Bootstrap

  class Hub {
    /** Address of the NFT contract; unset until the bootstrap reply arrives. */
    var nft: Option<Addr>
    /** Number of trophies created so far; the last id handed out. Unset before the bootstrap reply. */
    var trophyCount: Option<nat>
    /** Current-schema trophy records by id. */
    var trophies: map<nat, TrophyInfo>
    /** Records of the old schema still awaiting migration, by id. */
    var legacy: map<nat, LegacyTrophyInfo>
    /** (trophy id, claimant) pairs that have minted by signature. */
    var claimed: set<(nat, Addr)>

    /** The trophy counter, reading an unset counter as 0. */
    function Count(): nat
      reads this
    {
      if trophyCount.Some? then trophyCount.value else 0
    }

    /**
     * The contract's invariant: ids are 1-based, dense and at most the
     * counter; current and legacy records never share an id; no capped trophy
     * exceeds its cap; claims only exist for `BySignature` trophies; and
     * nothing exists before the bootstrap reply has set up the contract.
     */
    ghost predicate Valid()
      reads this
    {
      && (nft.None? ==> trophyCount.None?)
      && (forall id :: id in trophies ==> 1 <= id <= Count())
      && (forall id :: id in legacy ==> 1 <= id <= Count())
      && (forall id :: 1 <= id <= Count() ==> id in trophies || id in legacy)
      && trophies.Keys !! legacy.Keys
      && (forall id :: id in trophies ==> WithinCap(trophies[id]))
      && (forall c :: c in claimed ==> c.0 in trophies && trophies[c.0].rule.BySignature?)
    }

    /** Empty storage, before anything has run. */
    constructor ()
      ensures nft == None && trophyCount == None
      ensures trophies == map[] && legacy == map[] && claimed == {}
      ensures Valid()
    {
      nft := None;
      trophyCount := None;
      trophies := map[];
      legacy := map[];
      claimed := {};
    }

    /**
     * Instantiation: one sub-message deploying the NFT code with the sender
     * as its admin, whose reply carries the bootstrap correlation id.
     */
    method Instantiate(sender: Addr, nftCodeId: nat) returns (messages: seq<SubMsg>)
      ensures |messages| == 1
      ensures messages[0].msg == WasmInstantiate(Some(sender), nftCodeId, Bootstrap.NftLabel)
      ensures messages[0].id == Bootstrap.InstantiateReplyId
    {
      messages := [Bootstrap.InstantiateNft(sender, nftCodeId)];
    }

    /**
     * The bootstrap reply: accepted once, with the expected id, when it
     * carries the deployed address; it then sets the NFT address and starts
     * the trophy counter at 0.
     */
    method HandleReply(reply: Reply) returns (r: Result<(), ContractError>)
      modifies this
      ensures reply.id != Bootstrap.InstantiateReplyId ==> r == Err(UnknownReplyId(reply.id))
      ensures reply.id == Bootstrap.InstantiateReplyId && old(nft).Some? ==> r == Err(AlreadyBootstrapped)
      ensures reply.id == Bootstrap.InstantiateReplyId && old(nft).None?
              && Bootstrap.ContractAddress(reply.result).Err?
          ==> r == Err(Bootstrap.ContractAddress(reply.result).error)
      ensures r.Ok? <==> reply.id == Bootstrap.InstantiateReplyId && old(nft).None?
                         && Bootstrap.ContractAddress(reply.result).Ok?
      ensures r.Ok? ==> nft == Some(Bootstrap.ContractAddress(reply.result).value) && trophyCount == Some(0)
      ensures r.Err? ==> nft == old(nft) && trophyCount == old(trophyCount)
      ensures trophies == old(trophies) && legacy == old(legacy) && claimed == old(claimed)
      ensures old(Valid()) ==> Valid()
    {
      if reply.id != Bootstrap.InstantiateReplyId {
        return Err(UnknownReplyId(reply.id));
      }
      if nft.Some? {
        return Err(AlreadyBootstrapped);
      }
      var address := Bootstrap.ContractAddress(reply.result);
      if address.Err? {
        return Err(address.error);
      }
      nft := Some(address.value);
      trophyCount := Some(0);
      r := Ok(());
    }

    /**
     * `CreateTrophy`: the next id goes to a new record owned by the sender,
     * with nothing minted yet.
     */
    method CreateTrophy(
      sender: Addr, rule: MintRule, metadata: Metadata, expiry: Option<Expiration>, maxSupply: Option<nat>)
      returns (r: Result<nat, ContractError>)
      modifies this
      ensures r.Ok? <==> old(trophyCount).Some?
      ensures r.Err? ==> r.error == ContractInfoNotFound && trophies == old(trophies) && trophyCount == old(trophyCount)
      ensures r.Ok? ==> r.value == old(Count()) + 1 && trophyCount == Some(r.value)
      ensures r.Ok? ==> trophies == old(trophies)[r.value := TrophyInfo(sender, rule, metadata, expiry, maxSupply, 0)]
      ensures r.Ok? && old(Valid()) ==> r.value !in old(trophies) && r.value !in old(legacy)
      ensures nft == old(nft) && legacy == old(legacy) && claimed == old(claimed)
      ensures old(Valid()) ==> Valid()
    {
      if trophyCount.None? {
        return Err(ContractInfoNotFound);
      }
      var id := trophyCount.value + 1;
      trophies := trophies[id := TrophyInfo(sender, rule, metadata, expiry, maxSupply, 0)];
      trophyCount := Some(id);
      r := Ok(id);
    }

    /** `EditTrophy`: the creator, and only the creator, replaces the metadata; nothing else changes. */
    method EditTrophy(sender: Addr, id: nat, metadata: Metadata) returns (r: Result<(), ContractError>)
      modifies this
      ensures id !in old(trophies) ==> r == Err(TrophyNotFound)
      ensures id in old(trophies) && sender != old(trophies)[id].creator ==> r == Err(CallerNotCreator)
      ensures r.Ok? <==> id in old(trophies) && sender == old(trophies)[id].creator
      ensures r.Ok? ==> trophies == old(trophies)[id := old(trophies)[id].(metadata := metadata)]
      ensures r.Err? ==> trophies == old(trophies)
      ensures nft == old(nft) && trophyCount == old(trophyCount) && legacy == old(legacy) && claimed == old(claimed)
      ensures old(Valid()) ==> r != Err(ContractInfoNotFound)
      ensures old(Valid()) ==> Valid()
    {
      if id !in trophies {
        return Err(TrophyNotFound);
      }
      var t := trophies[id];
      if sender != t.creator {
        return Err(CallerNotCreator);
      }
      trophies := trophies[id := t.(metadata := metadata)];
      r := Ok(());
    }

    /**
     * `MintByMinter`: the stored rule must name the sender as minter, the
     * trophy must not have expired and the new instances must fit the cap;
     * then the supply grows by the number of owners and the NFT contract is
     * told to mint serials from the old supply + 1 on, to the owners in order.
     */
    method MintByMinter(env: Env, sender: Addr, id: nat, owners: seq<Addr>)
      returns (r: Result<CosmosMsg, ContractError>)
      modifies this
      ensures id !in old(trophies) ==> r == Err(TrophyNotFound)
      ensures id in old(trophies) ==>
        var decision := AuthorizeByMinter(id, old(trophies)[id], sender, env.height, owners);
        && (decision.Err? ==> r == Err(decision.error))
        && (decision.Ok? && old(nft).None? ==> r == Err(ContractInfoNotFound))
        && (decision.Ok? && old(nft).Some? ==> r == Ok(WasmExecute(old(nft).value, decision.value)))
      ensures r.Ok? ==> id in old(trophies) && trophies == old(trophies)[id := Minted(old(trophies)[id], r.value.msg)]
      ensures r.Err? ==> trophies == old(trophies)
      ensures nft == old(nft) && trophyCount == old(trophyCount) && legacy == old(legacy) && claimed == old(claimed)
      ensures old(Valid()) ==> r != Err(ContractInfoNotFound)
      ensures old(Valid()) ==> Valid()
    {
      if id !in trophies {
        return Err(TrophyNotFound);
      }
      var t := trophies[id];
      match t.rule {
        case BySignature(_) =>
          return Err(RuleNotByMinter);
        case ByMinter(minter) =>
          if sender != minter {
            return Err(CallerNotMinter);
          }
      }
      if t.expiry.Some? && env.height >= t.expiry.value.height {
        return Err(MintingTimeElapsed);
      }
      if t.maxSupply.Some? && t.currentSupply + |owners| > t.maxSupply.value {
        return Err(MaxSupplyExceeded);
      }
      if nft.None? {
        return Err(ContractInfoNotFound);
      }
      var startSerial := t.currentSupply + 1;
      trophies := trophies[id := t.(currentSupply := t.currentSupply + |owners|)];
      r := Ok(WasmExecute(nft.value, Mint(id, startSerial, owners)));
    }

    /**
     * `MintBySignature`: the stored rule must be `BySignature`, the trophy
     * must not have expired and one more instance must fit the cap; the
     * signature must verify, under the stored key, for the sender's own
     * address; and the sender must not have claimed this trophy before. Then
     * the claim is recorded, the supply grows by one and the NFT contract is
     * told to mint the next serial to the sender.
     */
    method MintBySignature(env: Env, sender: Addr, id: nat, signature: string, verify: Verifier)
      returns (r: Result<CosmosMsg, ContractError>)
      modifies this
      ensures id !in old(trophies) ==> r == Err(TrophyNotFound)
      ensures id in old(trophies) ==>
        var decision := AuthorizeBySignature(id, old(trophies)[id], old(claimed), sender, env.height, signature, verify);
        && (decision.Err? ==> r == Err(decision.error))
        && (decision.Ok? && old(nft).None? ==> r == Err(ContractInfoNotFound))
        && (decision.Ok? && old(nft).Some? ==> r == Ok(WasmExecute(old(nft).value, decision.value)))
      ensures r.Ok? ==> id in old(trophies) && trophies == old(trophies)[id := Minted(old(trophies)[id], r.value.msg)]
      ensures r.Ok? ==> (id, sender) !in old(claimed) && claimed == old(claimed) + {(id, sender)}
      ensures r.Err? ==> trophies == old(trophies) && claimed == old(claimed)
      ensures nft == old(nft) && trophyCount == old(trophyCount) && legacy == old(legacy)
      ensures old(Valid()) ==> r != Err(ContractInfoNotFound)
      ensures old(Valid()) ==> Valid()
    {
      if id !in trophies {
        return Err(TrophyNotFound);
      }
      var t := trophies[id];
      if !t.rule.BySignature? {
        return Err(RuleNotBySignature);
      }
      if t.expiry.Some? && env.height >= t.expiry.value.height {
        return Err(MintingTimeElapsed);
      }
      if t.maxSupply.Some? && t.currentSupply + 1 > t.maxSupply.value {
        return Err(MaxSupplyExceeded);
      }
      if !verify(t.rule.publicKey, sender, signature) {
        return Err(SignatureVerificationFailed);
      }
      if (id, sender) in claimed {
        return Err(AlreadyClaimed);
      }
      if nft.None? {
        return Err(ContractInfoNotFound);
      }
      claimed := claimed + {(id, sender)};
      var startSerial := t.currentSupply + 1;
      trophies := trophies[id := t.(currentSupply := startSerial)];
      r := Ok(WasmExecute(nft.value, Mint(id, startSerial, [sender])));
    }

    /**
     * Migration: every legacy record is upgraded and stored as a current
     * record under its id, and the legacy records are removed.
     */
    method Migrate()
      modifies this
      ensures (trophies, legacy) == Migration.Migrated(old(trophies), old(legacy))
      ensures nft == old(nft) && trophyCount == old(trophyCount) && claimed == old(claimed)
      ensures old(Valid()) ==> Valid()
    {
      var upgraded := Migration.UpgradeAll(legacy);
      ghost var migrated := Migration.Migrated(trophies, legacy);
      assert migrated.0 == trophies + upgraded;
      trophies := trophies + upgraded;
      legacy := map[];
      assert migrated.1 == legacy;
    }

    /**
     * Direct write of a legacy record into storage, as a deployment of the
     * old schema left it. This only stages the migration scenario: it is not
     * an entry point of the contract and does not preserve `Valid()`.
     */
    method StoreLegacyTrophy(id: nat, info: LegacyTrophyInfo)
      modifies this
      ensures legacy == old(legacy)[id := info]
      ensures nft == old(nft) && trophyCount == old(trophyCount) && trophies == old(trophies) && claimed == old(claimed)
    {
      legacy := legacy[id := info];
    }

    /**
     * Direct write of the trophy counter into storage. This only stages the
     * migration scenario: it is not an entry point of the contract and does
     * not preserve `Valid()` (lowering the counter below an existing id
     * breaks density).
     */
    method StoreTrophyCount(count: nat)
      modifies this
      ensures trophyCount == Some(count)
      ensures nft == old(nft) && trophies == old(trophies) && legacy == old(legacy) && claimed == old(claimed)
    {
      trophyCount := Some(count);
    }

    /** Query `ContractInfo`: the NFT address and the trophy count, once both are set. */
    function QueryContractInfo(): (r: Result<ContractInfoResponse, ContractError>)
      reads this
      ensures r.Ok? <==> nft.Some? && trophyCount.Some?
      ensures r.Ok? ==> r.value.nft == nft.value && r.value.trophyCount == trophyCount.value
      ensures r.Err? ==> r.error == ContractInfoNotFound
    {
      if nft.Some? && trophyCount.Some? then Ok(ContractInfoResponse(nft.value, trophyCount.value))
      else Err(ContractInfoNotFound)
    }

    /** Query `TrophyInfo`: the current record stored under `id`. */
    function QueryTrophyInfo(id: nat): (r: Result<TrophyInfo, ContractError>)
      reads this
      ensures r.Ok? <==> id in trophies
      ensures r.Ok? ==> r.value == trophies[id]
      ensures r.Err? ==> r.error == TrophyNotFound
    {
      if id in trophies then Ok(trophies[id]) else Err(TrophyNotFound)
    }
  }
}
