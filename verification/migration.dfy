/**
 * Legacy migration: records of the schema before mint rules existed become
 * current-schema records under the same id. The creator becomes the minter,
 * there is no deadline and no cap, and the instance count becomes the current
 * supply.
 */
module Migration {
  import opened HubTypes
  import opened MintEngine

  /** The current-schema record a legacy record turns into. */
  function Upgrade(l: LegacyTrophyInfo): TrophyInfo {
    TrophyInfo(l.creator, ByMinter(l.creator), l.metadata, None, None, l.instanceCount)
  }

  /** The legacy view of a current record: the fields the old schema had. */
  function Downgrade(t: TrophyInfo): LegacyTrophyInfo {
    LegacyTrophyInfo(t.creator, t.metadata, t.currentSupply)
  }

  /**
   * Upgrading loses nothing the legacy record held, and the upgraded record
   * is one its creator can always mint from, continuing the serials after
   * the instances that already exist.
   */
  lemma UpgradeFaithful(id: nat, l: LegacyTrophyInfo, height: nat, owners: seq<Addr>)
    ensures Downgrade(Upgrade(l)) == l
    ensures Upgrade(l).rule == ByMinter(l.creator)
    ensures Upgrade(l).expiry == None && Upgrade(l).maxSupply == None
    ensures WithinCap(Upgrade(l))
    ensures AuthorizeByMinter(id, Upgrade(l), l.creator, height, owners)
            == Ok(Mint(id, l.instanceCount + 1, owners))
  {
  }

  /** Upgrades every legacy record, one id at a time, keeping each under its id. */
  method UpgradeAll(legacy: map<nat, LegacyTrophyInfo>) returns (upgraded: map<nat, TrophyInfo>)
    ensures upgraded.Keys == legacy.Keys
    ensures forall id :: id in legacy ==> upgraded[id] == Upgrade(legacy[id])
  {
    upgraded := map[];
    var pending := legacy.Keys;
    while pending != {}
      invariant pending <= legacy.Keys
      invariant upgraded.Keys == legacy.Keys - pending
      invariant forall id :: id in upgraded ==> upgraded[id] == Upgrade(legacy[id])
      decreases pending
    {
      var id :| id in pending;
      upgraded := upgraded[id := Upgrade(legacy[id])];
      pending := pending - {id};
    }
  }

  /** Trophy and legacy storage after a migration: the legacy records moved, upgraded, into the trophies. */
  function Migrated(trophies: map<nat, TrophyInfo>, legacy: map<nat, LegacyTrophyInfo>)
    : (map<nat, TrophyInfo>, map<nat, LegacyTrophyInfo>)
  {
    (trophies + map id | id in legacy :: Upgrade(legacy[id]), map[])
  }

  /**
   * Migration is idempotent, keeps every record that was already current
   * when no legacy record shares its id, and leaves a record under every id
   * that had one.
   */
  lemma MigrationIdempotent(trophies: map<nat, TrophyInfo>, legacy: map<nat, LegacyTrophyInfo>)
    ensures Migrated(Migrated(trophies, legacy).0, Migrated(trophies, legacy).1) == Migrated(trophies, legacy)
    ensures Migrated(trophies, legacy).1 == map[]
    ensures Migrated(trophies, legacy).0.Keys == trophies.Keys + legacy.Keys
    ensures forall id :: id in trophies && id !in legacy ==> Migrated(trophies, legacy).0[id] == trophies[id]
    ensures forall id :: id in legacy ==> Migrated(trophies, legacy).0[id] == Upgrade(legacy[id])
  {
    var (t1, l1) := Migrated(trophies, legacy);
    assert (map id | id in l1 :: Upgrade(l1[id])) == map[];
    assert t1 + map[] == t1;
  }
}
