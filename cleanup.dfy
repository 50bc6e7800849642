/** The commands the cleanup issues: every `removeShardFromZone` for the
    static shard lists, then every `removeZone`. */
module Cleanup {
  import opened Config
  import opened Admin

  /** One removal per static shard of a zone, in list order. */
  function ZoneRemovals(z: ZoneConfig): seq<Command> {
    seq(|z.shards|, j requires 0 <= j < |z.shards| => RemoveShardFromZone(z.shards[j], z.name))
  }

  /** The removals of the first `k` zones, in zone order. */
  function ShardRemovals(zones: seq<ZoneConfig>, k: nat): seq<Command>
    requires k <= |zones|
  {
    if k == 0 then [] else ShardRemovals(zones, k - 1) + ZoneRemovals(zones[k - 1])
  }

  /** One `removeZone` per zone of the first `k`, in zone order. */
  function ZoneDeletions(zones: seq<ZoneConfig>, k: nat): seq<Command>
    requires k <= |zones|
  {
    seq(k, i requires 0 <= i < k => RemoveZone(zones[i].name))
  }

  lemma ZoneDeletionsStep(zones: seq<ZoneConfig>, k: nat)
    requires k < |zones|
    ensures ZoneDeletions(zones, k + 1) == ZoneDeletions(zones, k) + [RemoveZone(zones[k].name)]
  {
  }

  function CleanupCommands(zones: seq<ZoneConfig>): seq<Command> {
    ShardRemovals(zones, |zones|) + ZoneDeletions(zones, |zones|)
  }

  /** The (shard, zone) pairs of the static lists of the first `k` zones. */
  function PairsUpTo(zones: seq<ZoneConfig>, k: nat): set<(string, string)>
    requires k <= |zones|
  {
    set i, s | 0 <= i < k && s in zones[i].shards :: (s, zones[i].name)
  }

  /** The (shard, zone) pairs of the static configuration. */
  function ConfiguredPairs(zones: seq<ZoneConfig>): set<(string, string)> {
    PairsUpTo(zones, |zones|)
  }

  /** The configured zone names. */
  function ZoneNames(zones: seq<ZoneConfig>): set<string> {
    set i | 0 <= i < |zones| :: zones[i].name
  }

  /** The removals of the first `k` zones are `removeShardFromZone`s of exactly
      the configured (shard, zone) pairs of those zones. */
  lemma {:induction false} ShardRemovalsPairs(zones: seq<ZoneConfig>, k: nat)
    requires k <= |zones|
    ensures forall c :: c in ShardRemovals(zones, k) ==> c.RemoveShardFromZone?
    ensures forall s, z :: RemoveShardFromZone(s, z) in ShardRemovals(zones, k) <==> (s, z) in PairsUpTo(zones, k)
    decreases k
  {
    if k > 0 {
      ShardRemovalsPairs(zones, k - 1);
      var prior := ShardRemovals(zones, k - 1);
      var zr := ZoneRemovals(zones[k - 1]);
      assert ShardRemovals(zones, k) == prior + zr;
      forall s, z ensures RemoveShardFromZone(s, z) in zr <==> z == zones[k - 1].name && s in zones[k - 1].shards {
        if z == zones[k - 1].name && s in zones[k - 1].shards {
          var j :| 0 <= j < |zones[k - 1].shards| && zones[k - 1].shards[j] == s;
          assert zr[j] == RemoveShardFromZone(s, z);
        }
      }
      forall s, z ensures (s, z) in PairsUpTo(zones, k) <==> (s, z) in PairsUpTo(zones, k - 1) || (z == zones[k - 1].name && s in zones[k - 1].shards) {
        if (s, z) in PairsUpTo(zones, k) {
          var i, t :| 0 <= i < k && t in zones[i].shards && (s, z) == (t, zones[i].name);
          if i < k - 1 {
            assert (s, z) in PairsUpTo(zones, k - 1);
          }
        }
      }
    }
  }

  /** Cleanup removes every association before it removes any zone. */
  lemma CleanupOrder(zones: seq<ZoneConfig>)
    ensures var cmds := CleanupCommands(zones);
      var n := |ShardRemovals(zones, |zones|)|;
      && (forall j :: 0 <= j < n ==> cmds[j].RemoveShardFromZone?)
      && (forall j :: n <= j < |cmds| ==> cmds[j] == RemoveZone(zones[j - n].name))
      && |cmds| == n + |zones|
  {
    ShardRemovalsPairs(zones, |zones|);
    var removals := ShardRemovals(zones, |zones|);
    forall j | 0 <= j < |removals| ensures removals[j].RemoveShardFromZone? {
      assert removals[j] in removals;
    }
  }

  /** When no removal fails, cleanup takes away exactly the configured
      associations and zone names, and changes nothing else. */
  lemma FaultFreeCleanup(st: State, zones: seq<ZoneConfig>)
    ensures var after := Run(st, map[], CleanupCommands(zones));
      && after.zoneShards == st.zoneShards - ConfiguredPairs(zones)
      && after.zoneNames == st.zoneNames - ZoneNames(zones)
      && after.shardedDbs == st.shardedDbs && after.primaries == st.primaries
      && after.collections == st.collections && after.ranges == st.ranges
  {
    var f: map<Command, string> := map[];
    var removals := ShardRemovals(zones, |zones|);
    var deletions := ZoneDeletions(zones, |zones|);
    RunAppend(st, f, removals, deletions);
    ShardRemovalsPairs(zones, |zones|);
    RunRemovals(st, f, removals);
    var mid := Run(st, f, removals);
    assert RemovedAssociations(f, removals) == ConfiguredPairs(zones) by {
      forall p | p in ConfiguredPairs(zones) ensures p in RemovedAssociations(f, removals) {
        assert RemoveShardFromZone(p.0, p.1) in removals;
      }
    }
    RunZoneRemovals(mid, f, deletions);
    assert RemovedZones(f, deletions) == ZoneNames(zones) by {
      forall n | n in ZoneNames(zones) ensures n in RemovedZones(f, deletions) {
        var i :| 0 <= i < |zones| && zones[i].name == n;
        assert deletions[i] == RemoveZone(n);
      }
    }
  }
}
