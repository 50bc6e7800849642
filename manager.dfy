/** The zone sharding manager: it reads the shard list, associates each
    zone with its planned shard, places each zone's database, shards its
    tenant collections with their zone ranges, reports zone status, and
    cleans the zones up again. Every command goes through the cluster's
    admin channel; each method is proved to issue exactly the commands its
    specification function lists. */
module Manager {
  import opened Wrappers
  import opened Config
  import opened ShardKeys
  import opened Admin
  import opened Messages
  import opened Planner
  import opened Setup
  import opened Status
  import opened Cleanup

  class ZoneShardingManager {
    const cluster: Cluster
    const zones: seq<ZoneConfig>
    const tenantCollections: seq<string>

    /** The manager over a cluster, with the demo's configuration. */
    constructor (cluster: Cluster)
      ensures this.cluster == cluster
      ensures zones == Config.Zones && tenantCollections == Config.TenantCollections
    {
      this.cluster := cluster;
      zones := Config.Zones;
      tenantCollections := Config.TenantCollections;
    }

    /** The shard ids `listShards` reports, or none when it fails. */
    method GetShardList() returns (shards: seq<string>)
      ensures cluster.shardReply.None? ==> shards == []
      ensures cluster.shardReply.Some? ==> shards == ShardIds(cluster.shardReply.value)
    {
      var reply := cluster.ListShards();
      match reply
      case None =>
        shards := [];
      case Some(docs) =>
        shards := ShardIds(docs);
    }

    /** Associates each zone with its planned shard. A failure is reported
        (as a no-op when it says "already" or "duplicate") and the loop goes
        on; with no shard besides `config` it fails before any command. */
    method CreateZones(actualShards: seq<string>) returns (ok: bool, report: seq<Outcome>)
      modifies cluster
      ensures ok == CreateZonesOk(zones, DropConfig(actualShards))
      ensures ok ==>
        && cluster.Snapshot() == Run(old(cluster.Snapshot()), cluster.faults, AddCommands(zones, DropConfig(actualShards), |zones|))
        && report == Report(cluster.faults, AddCommands(zones, DropConfig(actualShards), |zones|))
      ensures !ok ==> cluster.Snapshot() == old(cluster.Snapshot()) && report == []
    {
      var shardNames := DropConfig(actualShards);
      if |zones| > 0 && |shardNames| == 0 {
        return false, [];
      }
      report := AddZoneShards(shardNames);
      ok := true;
    }

    /** The association loop of `create_zones`, one `addShardToZone` per zone. */
    method AddZoneShards(shardNames: seq<string>) returns (report: seq<Outcome>)
      requires |zones| > 0 ==> |shardNames| > 0
      modifies cluster
      ensures cluster.Snapshot() == Run(old(cluster.Snapshot()), cluster.faults, AddCommands(zones, shardNames, |zones|))
      ensures report == Report(cluster.faults, AddCommands(zones, shardNames, |zones|))
    {
      ghost var st0 := cluster.Snapshot();
      ghost var f := cluster.faults;
      report := [];
      var i := 0;
      while i < |zones|
        invariant 0 <= i <= |zones|
        invariant cluster.Snapshot() == Run(st0, f, AddCommands(zones, shardNames, i))
        invariant report == Report(f, AddCommands(zones, shardNames, i))
      {
        var actualShard := if i < |shardNames| then shardNames[i] else shardNames[|shardNames| - 1];
        ghost var done := AddCommands(zones, shardNames, i);
        ghost var cmd := AddShardToZone(actualShard, zones[i].name);
        assert actualShard == PlanAt(shardNames, i);
        ghost var before := cluster.Snapshot();
        var r := cluster.AddShardToZone(actualShard, zones[i].name);
        assert cluster.Snapshot() == Exec(before, f, cmd);
        report := report + [Classify(NoOpPhrases(AddShardToZone(actualShard, zones[i].name)), r)];
        AddCommandsSnoc(zones, shardNames, i);
        ReportSnoc(f, done, cmd);
        RunSnoc(st0, f, done, cmd);
        i := i + 1;
      }
    }

    /** True on success or on an "already enabled" failure. */
    method EnableShardingForDatabase(db: string) returns (ok: bool)
      modifies cluster
      ensures ok == !CommandOutcome(cluster.faults, EnableSharding(db)).Failed?
      ensures cluster.Snapshot() == Exec(old(cluster.Snapshot()), cluster.faults, EnableSharding(db))
    {
      var r := cluster.EnableSharding(db);
      ok := !Classify(NoOpPhrases(EnableSharding(db)), r).Failed?;
    }

    /** True only on success: no failure of `movePrimary` is a no-op. */
    method MoveDatabasePrimary(db: string, shard: string) returns (ok: bool)
      modifies cluster
      ensures ok == (MovePrimary(db, shard) !in cluster.faults)
      ensures cluster.Snapshot() == Exec(old(cluster.Snapshot()), cluster.faults, MovePrimary(db, shard))
    {
      var r := cluster.MovePrimary(db, shard);
      ok := r.Ok?;
    }

    /** Shards `db.coll`; when that succeeds and the zone is configured,
        installs the zone's ranges. */
    method ShardCollection(db: string, coll: string, key: seq<KeyField>, zoneName: string) returns (ok: bool)
      modifies cluster
      ensures ok == ShardCollectionOk(Namespace(db, coll), key, cluster.faults)
      ensures cluster.Snapshot() == Run(old(cluster.Snapshot()), cluster.faults,
                                        ShardCollectionCommands(zones, Namespace(db, coll), key, zoneName, cluster.faults))
    {
      ghost var st0 := cluster.Snapshot();
      var ns := Namespace(db, coll);
      var sc := Command.ShardCollection(ns, key);
      var r := cluster.ShardCollection(ns, key);
      assert [sc][..0] == [];
      ghost var st1 := cluster.Snapshot();
      assert st1 == Run(st0, cluster.faults, [sc]);
      if r.Err? {
        ok := !Classify(NoOpPhrases(sc), r).Failed?;
        return;
      }
      if zoneName != "" {
        var zoneConfig := Lookup(zones, zoneName);
        if zoneConfig.Some? {
          InstallRanges(ns, zoneConfig.value.countries, zoneName);
          RunAppend(st0, cluster.faults, [sc], RangeCommands(ns, zoneConfig.value.countries, zoneName, cluster.faults));
        }
      }
      ok := true;
    }

    /** The range loop of `shard_collection`: one range per country, in
        order; the first failure abandons the remaining countries. */
    method InstallRanges(ns: Namespace, countries: seq<string>, zoneName: string)
      modifies cluster
      ensures cluster.Snapshot() == Run(old(cluster.Snapshot()), cluster.faults, RangeCommands(ns, countries, zoneName, cluster.faults))
    {
      ghost var st0 := cluster.Snapshot();
      ghost var f := cluster.faults;
      ghost var full := RangeCommands(ns, countries, zoneName, f);
      ghost var done: seq<Command> := [];
      var i := 0;
      while i < |countries|
        invariant 0 <= i <= |countries|
        invariant done + RangeCommands(ns, countries[i..], zoneName, f) == full
        invariant cluster.Snapshot() == Run(st0, f, done)
      {
        var country := countries[i];
        ghost var cmd := RangeCommand(ns, country, zoneName);
        ghost var rest := RangeCommands(ns, countries[i + 1..], zoneName, f);
        assert countries[i..][0] == country && countries[i..][1..] == countries[i + 1..];
        assert RangeCommands(ns, countries[i..], zoneName, f) == if cmd in f then [cmd] else [cmd] + rest;
        var ok := InstallRange(ns, country, zoneName);
        RunSnoc(st0, f, done, cmd);
        done := done + [cmd];
        if !ok {
          assert done == full;
          break;
        }
        assert done + rest == full;
        i := i + 1;
      }
      assert countries[i..] == [] ==> done == full;
    }

    /** One range of the range loop: the country's documents go to the zone. */
    method InstallRange(ns: Namespace, country: string, zoneName: string) returns (ok: bool)
      modifies cluster
      ensures ok == (RangeCommand(ns, country, zoneName) !in cluster.faults)
      ensures cluster.Snapshot() == Exec(old(cluster.Snapshot()), cluster.faults, RangeCommand(ns, country, zoneName))
    {
      var r := cluster.UpdateZoneKeyRange(ns, RangeMin(country), RangeMax(country), zoneName);
      ok := r.Ok?;
    }

    /** The plan as a dictionary from zone name to shard. */
    method BuildZoneShards(shardNames: seq<string>) returns (zoneShards: map<string, string>)
      requires NamesDistinct(zones)
      requires |zones| > 0 ==> |shardNames| > 0
      ensures zoneShards.Keys == set i | 0 <= i < |zones| :: zones[i].name
      ensures forall i :: 0 <= i < |zones| ==> zoneShards[zones[i].name] == PlanAt(shardNames, i)
    {
      zoneShards := map[];
      var i := 0;
      while i < |zones|
        invariant 0 <= i <= |zones|
        invariant zoneShards.Keys == set k | 0 <= k < i :: zones[k].name
        invariant forall k :: 0 <= k < i ==> zoneShards[zones[k].name] == PlanAt(shardNames, k)
      {
        zoneShards := zoneShards[zones[i].name := if i < |shardNames| then shardNames[i] else shardNames[|shardNames| - 1]];
        i := i + 1;
      }
    }

    /** The collection loop of `setup_atlas_zone_sharding`: shard every
        tenant collection of `db` on the tenant key. */
    method ShardTenantCollections(db: string, zoneName: string)
      modifies cluster
      ensures cluster.Snapshot() == Run(old(cluster.Snapshot()), cluster.faults,
                                        CollectionsCommands(zones, db, tenantCollections, zoneName, cluster.faults))
    {
      ghost var st0 := cluster.Snapshot();
      var j := 0;
      while j < |tenantCollections|
        invariant 0 <= j <= |tenantCollections|
        invariant cluster.Snapshot() == Run(st0, cluster.faults, CollectionsCommands(zones, db, tenantCollections[..j], zoneName, cluster.faults))
      {
        ghost var done := CollectionsCommands(zones, db, tenantCollections[..j], zoneName, cluster.faults);
        var shardKey := TenantKey;
        var _ := ShardCollection(db, tenantCollections[j], shardKey, zoneName);
        RunAppend(st0, cluster.faults, done,
                  ShardCollectionCommands(zones, Namespace(db, tenantCollections[j]), TenantKey, zoneName, cluster.faults));
        assert tenantCollections[..j + 1][..j] == tenantCollections[..j];
        j := j + 1;
      }
      assert tenantCollections[..j] == tenantCollections;
    }

    /** The body of the zone loop of `setup_atlas_zone_sharding`, the steps
        for one zone: enable sharding, move the primary to the zone's shard,
        shard the tenant collections; a failed step skips the rest of the
        zone. */
    method SetupZone(z: ZoneConfig, primaryShard: string)
      modifies cluster
      ensures cluster.Snapshot() == Run(old(cluster.Snapshot()), cluster.faults,
                                        ZoneCommands(zones, tenantCollections, z, primaryShard, cluster.faults))
    {
      ghost var st0 := cluster.Snapshot();
      var databaseName := z.databasePrefix;
      ghost var en := EnableSharding(databaseName);
      ghost var mp := MovePrimary(databaseName, primaryShard);
      assert [en][..0] == [] && [en, mp][..1] == [en];
      var enabled := EnableShardingForDatabase(databaseName);
      assert cluster.Snapshot() == Run(st0, cluster.faults, [en]);
      if !enabled {
        return;
      }
      ghost var st1 := cluster.Snapshot();
      var moved := MoveDatabasePrimary(databaseName, primaryShard);
      assert cluster.Snapshot() == Exec(st1, cluster.faults, mp);
      RunSnoc(st0, cluster.faults, [en], mp);
      assert [en] + [mp] == [en, mp];
      if !moved {
        return;
      }
      ShardTenantCollections(databaseName, z.name);
      RunAppend(st0, cluster.faults, [en, mp], CollectionsCommands(zones, databaseName, tenantCollections, z.name, cluster.faults));
    }

    /** The whole setup: it stops with False when `listShards` fails or
        reports fewer than two shards (counting `config`), or when
        `create_zones` fails; otherwise it runs the steps of every zone, in
        zone order, and returns True whatever those steps report. */
    method SetupAtlasZoneSharding() returns (ok: bool)
      requires NamesDistinct(zones)
      modifies cluster
      ensures var shards := if cluster.shardReply.Some? then ShardIds(cluster.shardReply.value) else [];
        && ok == SetupOk(zones, shards)
        && cluster.Snapshot() == Run(old(cluster.Snapshot()), cluster.faults, SetupCommands(zones, tenantCollections, shards, cluster.faults))
    {
      ghost var st0 := cluster.Snapshot();
      var shards := GetShardList();
      if |shards| == 0 {
        return false;
      }
      if |shards| < 2 {
        return false;
      }
      var created, _ := CreateZones(shards);
      if !created {
        return false;
      }
      var shardNames := DropConfig(shards);
      ghost var adds := AddCommands(zones, shardNames, |zones|);
      assert cluster.Snapshot() == Run(st0, cluster.faults, adds);
      var zoneShards := BuildZoneShards(shardNames);
      ConfigureZones(shardNames, zoneShards);
      RunAppend(st0, cluster.faults, adds, PipelineCommands(zones, tenantCollections, shardNames, cluster.faults, |zones|));
      ok := true;
    }

    /** The zone loop of `setup_atlas_zone_sharding`: the steps of every
        zone, in zone order, each zone with the shard the plan dictionary
        gives it. */
    method ConfigureZones(shardNames: seq<string>, zoneShards: map<string, string>)
      requires |zones| > 0 ==> |shardNames| > 0
      requires forall i :: 0 <= i < |zones| ==> zones[i].name in zoneShards && zoneShards[zones[i].name] == PlanAt(shardNames, i)
      modifies cluster
      ensures cluster.Snapshot() == Run(old(cluster.Snapshot()), cluster.faults,
                                        PipelineCommands(zones, tenantCollections, shardNames, cluster.faults, |zones|))
    {
      ghost var st0 := cluster.Snapshot();
      var i := 0;
      while i < |zones|
        invariant 0 <= i <= |zones|
        invariant cluster.Snapshot() == Run(st0, cluster.faults, PipelineCommands(zones, tenantCollections, shardNames, cluster.faults, i))
      {
        var z := zones[i];
        var fallback := shardNames[0];  // the default of `.get` is evaluated first
        var primaryShard := if z.name in zoneShards then zoneShards[z.name] else fallback;
        assert primaryShard == PlanAt(shardNames, i);
        PipelineStep(st0, zones, tenantCollections, shardNames, cluster.faults, i);
        SetupZone(z, primaryShard);
        i := i + 1;
      }
    }

    /** The status of every configured zone; empty when `listShards` fails. */
    method GetZoneStatus() returns (zonesInfo: map<string, ZoneInfo>)
      requires NamesDistinct(zones)
      ensures cluster.shardReply.None? ==> zonesInfo == map[]
      ensures cluster.shardReply.Some? ==>
        && zonesInfo.Keys == (set i | 0 <= i < |zones| :: zones[i].name)
        && forall i :: 0 <= i < |zones| ==> zonesInfo[zones[i].name] == ZoneInfoOf(zones[i], IndexById(cluster.shardReply.value))
    {
      var reply := cluster.ListShards();
      if reply.None? {
        return map[];
      }
      var shardsInfo := IndexById(reply.value);
      zonesInfo := map[];
      var i := 0;
      while i < |zones|
        invariant 0 <= i <= |zones|
        invariant zonesInfo.Keys == set k | 0 <= k < i :: zones[k].name
        invariant forall k :: 0 <= k < i ==> zonesInfo[zones[k].name] == ZoneInfoOf(zones[k], shardsInfo)
      {
        var z := zones[i];
        var details := ShardDetails(z.shards, shardsInfo);
        assert details == ZoneInfoOf(z, shardsInfo).shardDetails;
        zonesInfo := zonesInfo[z.name := ZoneInfo(z.shards, z.countries, z.databasePrefix, details)];
        i := i + 1;
      }
    }

    /** The shard loop of `get_zone_status`: the reported entry of each
        listed shard the cluster knows. */
    method ShardDetails(shards: seq<string>, shardsInfo: map<string, ShardDoc>) returns (details: map<string, ShardDoc>)
      ensures details.Keys == set s | s in shards && s in shardsInfo
      ensures forall s :: s in details ==> details[s] == shardsInfo[s]
    {
      details := map[];
      var j := 0;
      while j < |shards|
        invariant 0 <= j <= |shards|
        invariant details.Keys == set s | s in shards[..j] && s in shardsInfo
        invariant forall s :: s in details ==> details[s] == shardsInfo[s]
      {
        assert shards[..j + 1] == shards[..j] + [shards[j]];
        if shards[j] in shardsInfo {
          details := details[shards[j] := shardsInfo[shards[j]]];
        }
        j := j + 1;
      }
      assert shards[..j] == shards;
    }

    /** Removes every static shard from its zone, then every zone; each
        failure is reported (as a no-op when it says "not in zone" or "not
        found") and the cleanup goes on. */
    method CleanupZones() returns (ok: bool, report: seq<Outcome>)
      modifies cluster
      ensures ok
      ensures cluster.Snapshot() == Run(old(cluster.Snapshot()), cluster.faults, CleanupCommands(zones))
      ensures report == Report(cluster.faults, CleanupCommands(zones))
    {
      ghost var st0 := cluster.Snapshot();
      var removed := RemoveShardsFromZones();
      var deleted := RemoveZones();
      report := removed + deleted;
      RunAppend(st0, cluster.faults, ShardRemovals(zones, |zones|), ZoneDeletions(zones, |zones|));
      ReportAppend(cluster.faults, ShardRemovals(zones, |zones|), ZoneDeletions(zones, |zones|));
      ok := true;
    }

    /** The first loop of `cleanup_zones`: every static shard out of its
        zone, zone by zone. */
    method RemoveShardsFromZones() returns (report: seq<Outcome>)
      modifies cluster
      ensures cluster.Snapshot() == Run(old(cluster.Snapshot()), cluster.faults, ShardRemovals(zones, |zones|))
      ensures report == Report(cluster.faults, ShardRemovals(zones, |zones|))
    {
      ghost var st0 := cluster.Snapshot();
      ghost var f := cluster.faults;
      report := [];
      var i := 0;
      while i < |zones|
        invariant 0 <= i <= |zones|
        invariant cluster.Snapshot() == Run(st0, f, ShardRemovals(zones, i))
        invariant report == Report(f, ShardRemovals(zones, i))
      {
        ghost var prior := ShardRemovals(zones, i);
        var removed := RemoveZoneShards(zones[i]);
        report := report + removed;
        RunAppend(st0, f, prior, ZoneRemovals(zones[i]));
        ReportAppend(f, prior, ZoneRemovals(zones[i]));
        assert ShardRemovals(zones, i + 1) == prior + ZoneRemovals(zones[i]);
        i := i + 1;
      }
    }

    /** The inner loop of `cleanup_zones`: the static shards of one zone out
        of it, in list order. */
    method RemoveZoneShards(z: ZoneConfig) returns (report: seq<Outcome>)
      modifies cluster
      ensures cluster.Snapshot() == Run(old(cluster.Snapshot()), cluster.faults, ZoneRemovals(z))
      ensures report == Report(cluster.faults, ZoneRemovals(z))
    {
      ghost var st0 := cluster.Snapshot();
      ghost var f := cluster.faults;
      report := [];
      var j := 0;
      while j < |z.shards|
        invariant 0 <= j <= |z.shards|
        invariant cluster.Snapshot() == Run(st0, f, ZoneRemovals(z)[..j])
        invariant report == Report(f, ZoneRemovals(z)[..j])
      {
        ghost var done := ZoneRemovals(z)[..j];
        ghost var cmd := RemoveShardFromZone(z.shards[j], z.name);
        ghost var before := cluster.Snapshot();
        var r := cluster.RemoveShardFromZone(z.shards[j], z.name);
        assert cluster.Snapshot() == Exec(before, f, cmd);
        report := report + [Classify(NoOpPhrases(RemoveShardFromZone(z.shards[j], z.name)), r)];
        assert ZoneRemovals(z)[..j + 1] == done + [cmd];
        RunSnoc(st0, f, done, cmd);
        ReportSnoc(f, done, cmd);
        j := j + 1;
      }
      assert ZoneRemovals(z)[..j] == ZoneRemovals(z);
    }

    /** The second loop of `cleanup_zones`: every zone removed, in zone order. */
    method RemoveZones() returns (report: seq<Outcome>)
      modifies cluster
      ensures cluster.Snapshot() == Run(old(cluster.Snapshot()), cluster.faults, ZoneDeletions(zones, |zones|))
      ensures report == Report(cluster.faults, ZoneDeletions(zones, |zones|))
    {
      ghost var st0 := cluster.Snapshot();
      ghost var f := cluster.faults;
      report := [];
      var i := 0;
      while i < |zones|
        invariant 0 <= i <= |zones|
        invariant cluster.Snapshot() == Run(st0, f, ZoneDeletions(zones, i))
        invariant report == Report(f, ZoneDeletions(zones, i))
      {
        ghost var done := ZoneDeletions(zones, i);
        ghost var cmd := RemoveZone(zones[i].name);
        ghost var before := cluster.Snapshot();
        var r := cluster.RemoveZone(zones[i].name);
        assert cluster.Snapshot() == Exec(before, f, cmd);
        report := report + [Classify(NoOpPhrases(RemoveZone(zones[i].name)), r)];
        ZoneDeletionsStep(zones, i);
        RunSnoc(st0, f, done, cmd);
        ReportSnoc(f, done, cmd);
        i := i + 1;
      }
    }
  }
}
