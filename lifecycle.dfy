/** Setup followed by cleanup. Setup associates each zone with its planned
    shard; cleanup removes the static shard lists' associations. The two agree
    only when the cluster's shards carry the names the static lists expect. */
module Lifecycle {
  import opened Config
  import opened Admin
  import opened Planner
  import opened Setup
  import opened SetupProperties
  import opened Cleanup

  /** A planned shard missing from its zone's static list keeps its
      association through a fault-free setup and cleanup, while the zone's
      name is removed. */
  lemma PlannedAssociationOutlivesCleanup(st: State, zones: seq<ZoneConfig>, colls: seq<string>,
                                          shards: seq<string>, i: nat)
    requires NamesDistinct(zones) && PrefixesDistinct(zones) && SetupOk(zones, shards) && i < |zones|
    requires zones[i].name != ""
    requires PlanAt(DropConfig(shards), i) !in zones[i].shards
    ensures var after := Run(st, map[], SetupCommands(zones, colls, shards, map[]) + CleanupCommands(zones));
      && (PlanAt(DropConfig(shards), i), zones[i].name) in after.zoneShards
      && zones[i].name !in after.zoneNames
  {
    var f: map<Command, string> := map[];
    var setup := SetupCommands(zones, colls, shards, f);
    var pair := (PlanAt(DropConfig(shards), i), zones[i].name);
    RunAppend(st, f, setup, CleanupCommands(zones));
    FaultFreeSetup(st, zones, colls, shards, i);
    FaultFreeCleanup(Run(st, f, setup), zones);
    forall j, s | 0 <= j < |zones| && s in zones[j].shards ensures (s, zones[j].name) != pair {
      if zones[j].name == zones[i].name {
        NameIndex(zones, i, j);
      }
    }
    assert pair !in ConfiguredPairs(zones);
    assert zones[i].name in ZoneNames(zones);
  }

  lemma NameIndex(zones: seq<ZoneConfig>, i: nat, j: nat)
    requires i < |zones| && j < |zones| && NamesDistinct(zones)
    requires zones[i].name == zones[j].name
    ensures i == j
  {
  }

  /** With the demo configuration and a cluster whose shards are named as
      the static lists expect, each zone's planned shard is its listed one,
      and a fault-free setup followed by cleanup leaves none of the planned
      associations. */
  lemma DemoPlanMatchesStaticLists(st: State, colls: seq<string>)
    ensures var shards := ["config", "shard00", "shard01"];
      && SetupOk(Zones, shards)
      && PlanAt(DropConfig(shards), 0) == "shard00" && PlanAt(DropConfig(shards), 1) == "shard01"
      && var after := Run(st, map[], SetupCommands(Zones, colls, shards, map[]) + CleanupCommands(Zones));
         && ("shard00", "region1") !in after.zoneShards && ("shard01", "region2") !in after.zoneShards
  {
    var shards := ["config", "shard00", "shard01"];
    var f: map<Command, string> := map[];
    assert DropConfig(shards) == ["shard00", "shard01"] by {
      assert shards[1..] == ["shard00", "shard01"];
    }
    ConfigInvariants();
    var setup := SetupCommands(Zones, colls, shards, f);
    RunAppend(st, f, setup, CleanupCommands(Zones));
    FaultFreeCleanup(Run(st, f, setup), Zones);
    assert "shard00" in Zones[0].shards && "shard01" in Zones[1].shards;
    assert ("shard00", "region1") in ConfiguredPairs(Zones);
    assert ("shard01", "region2") in ConfiguredPairs(Zones);
  }
}
