/** What the setup trace promises: the per-zone steps stay on their zone's
    database, the primary goes to the shard the zone was associated with,
    a failed step skips the rest of its zone, and every range routes the
    zone's own countries to it. */
module SetupProperties {
  import opened Config
  import opened ShardKeys
  import opened Admin
  import opened Messages
  import opened Planner
  import opened Setup

  /** The database a per-zone command acts on. */
  predicate OnDatabase(c: Command, db: string) {
    match c
    case EnableSharding(d) => d == db
    case MovePrimary(d, _) => d == db
    case ShardCollection(ns, _) => ns.db == db
    case UpdateZoneKeyRange(ns, _, _, _) => ns.db == db
    case _ => false
  }

  /** A zone range for the whole of one of `countries`: `{country: c, region: ""}`
      up to `{country: c, region: MaxKey}`, for the zone `zone`, on `ns`. */
  predicate CountryRange(c: Command, ns: Namespace, countries: seq<string>, zone: string) {
    && c.UpdateZoneKeyRange?
    && c.ns == ns && c.zone == zone
    && c.min.country in countries
    && c.min == RangeMin(c.min.country) && c.max == RangeMax(c.min.country)
  }

  /** Every range of the range loop is a country range of the zone. */
  lemma RangeCommandsShape(ns: Namespace, countries: seq<string>, zone: string, faults: map<Command, string>)
    ensures forall c :: c in RangeCommands(ns, countries, zone, faults) ==> CountryRange(c, ns, countries, zone)
  {
    var r := RangeCommands(ns, countries, zone, faults);
    RangeCommandsPrefix(ns, countries, zone, faults);
    forall c | c in r ensures CountryRange(c, ns, countries, zone) {
      var j :| 0 <= j < |r| && r[j] == c;
      assert c == AllRanges(ns, countries, zone)[j];
    }
  }

  /** With no range failing, the loop installs a range for every country. */
  lemma {:induction false} RangeCommandsComplete(ns: Namespace, countries: seq<string>, zone: string, faults: map<Command, string>)
    requires forall c :: c in countries ==> RangeCommand(ns, c, zone) !in faults
    ensures RangeCommands(ns, countries, zone, faults) == AllRanges(ns, countries, zone)
    decreases |countries|
  {
    if countries != [] {
      assert countries[0] in countries;
      assert forall c :: c in countries[1..] ==> c in countries;
      RangeCommandsComplete(ns, countries[1..], zone, faults);
      assert AllRanges(ns, countries, zone) == [RangeCommand(ns, countries[0], zone)] + AllRanges(ns, countries[1..], zone);
    }
  }

  /** `shard_collection`'s commands: the `shardCollection` itself, then only
      country ranges of the looked-up zone, and those exactly when it did not
      fail and the zone is named and configured. */
  lemma ShardCollectionShape(zones: seq<ZoneConfig>, ns: Namespace, key: seq<KeyField>, zoneName: string,
                             faults: map<Command, string>)
    ensures var cmds := ShardCollectionCommands(zones, ns, key, zoneName, faults);
      && |cmds| > 0 && cmds[0] == ShardCollection(ns, key)
      && (|cmds| > 1 ==> ShardCollection(ns, key) !in faults && zoneName != "" && Lookup(zones, zoneName).Some?)
      && (forall c :: c in cmds[1..] ==> CountryRange(c, ns, Lookup(zones, zoneName).value.countries, zoneName))
  {
    var sc := ShardCollection(ns, key);
    var cmds := ShardCollectionCommands(zones, ns, key, zoneName, faults);
    if !(sc in faults || zoneName == "") && Lookup(zones, zoneName).Some? {
      var z := Lookup(zones, zoneName).value;
      RangeCommandsShape(ns, z.countries, zoneName, faults);
      assert cmds[1..] == RangeCommands(ns, z.countries, zoneName, faults);
    }
  }

  /** A `shardCollection` that fails, even as a no-op, installs no range. */
  lemma AlreadyShardedInstallsNoRanges(zones: seq<ZoneConfig>, ns: Namespace, key: seq<KeyField>, zoneName: string,
                                       faults: map<Command, string>)
    requires ShardCollection(ns, key) in faults
    ensures ShardCollectionOk(ns, key, faults) <==> CommandOutcome(faults, ShardCollection(ns, key)).AlreadyApplied?
    ensures forall c :: c in ShardCollectionCommands(zones, ns, key, zoneName, faults) ==> !c.UpdateZoneKeyRange?
  {
    CommandOutcomeCases(faults, ShardCollection(ns, key));
  }

  /** A per-zone command of zone `i`: on the zone's database, the primary to
      the zone's planned shard, collections among `colls` with the tenant key,
      and ranges of the zone's own countries for the zone. */
  predicate ZoneStep(zones: seq<ZoneConfig>, colls: seq<string>, names: seq<string>, i: nat, c: Command)
    requires i < |zones| && |names| > 0
  {
    var db := zones[i].databasePrefix;
    && OnDatabase(c, db)
    && (c.EnableSharding? || c.MovePrimary? || c.ShardCollection? || c.UpdateZoneKeyRange?)
    && (c.MovePrimary? ==> c.to == PlanAt(names, i))
    && (c.ShardCollection? ==> c.ns.coll in colls && c.key == TenantKey)
    && (c.UpdateZoneKeyRange? ==> c.ns.coll in colls && CountryRange(c, c.ns, zones[i].countries, zones[i].name))
  }

  /** A command of the collection loop of database `db` for zone `z`: on `db`,
      a listed collection sharded with the tenant key or a range of one of
      the zone's countries for the zone. */
  predicate CollectionStep(db: string, colls: seq<string>, z: ZoneConfig, c: Command) {
    && OnDatabase(c, db)
    && (c.ShardCollection? || c.UpdateZoneKeyRange?)
    && (c.ShardCollection? ==> c.ns.coll in colls && c.key == TenantKey)
    && (c.UpdateZoneKeyRange? ==> c.ns.coll in colls && CountryRange(c, c.ns, z.countries, z.name))
  }

  lemma {:induction false} CollectionsMember(zones: seq<ZoneConfig>, db: string, colls: seq<string>, z: ZoneConfig,
                                            faults: map<Command, string>, c: Command)
    requires z in zones && NamesDistinct(zones)
    requires c in CollectionsCommands(zones, db, colls, z.name, faults)
    ensures CollectionStep(db, colls, z, c)
    decreases |colls|
  {
    var front, last := colls[..|colls| - 1], colls[|colls| - 1];
    var ns := Namespace(db, last);
    var prior := CollectionsCommands(zones, db, front, z.name, faults);
    var sc := ShardCollectionCommands(zones, ns, TenantKey, z.name, faults);
    assert CollectionsCommands(zones, db, colls, z.name, faults) == prior + sc;
    assert colls == front + [last];
    if c in prior {
      CollectionsMember(zones, db, front, z, faults, c);
    } else {
      ShardCollectionShape(zones, ns, TenantKey, z.name, faults);
      var i :| 0 <= i < |zones| && zones[i] == z;
      LookupAt(zones, i);
      if c != sc[0] {
        assert sc == [sc[0]] + sc[1..];
        assert c in sc[1..];
      }
    }
  }

  /** Every command of zone `i`'s steps is a step of zone `i`. */
  lemma ZoneCommandsShape(zones: seq<ZoneConfig>, colls: seq<string>, names: seq<string>, i: nat,
                          faults: map<Command, string>, c: Command)
    requires i < |zones| && |names| > 0 && NamesDistinct(zones)
    requires c in ZoneCommands(zones, colls, zones[i], PlanAt(names, i), faults)
    ensures ZoneStep(zones, colls, names, i, c)
  {
    var db := zones[i].databasePrefix;
    if c != EnableSharding(db) && c != MovePrimary(db, PlanAt(names, i)) {
      CollectionsMember(zones, db, colls, zones[i], faults, c);
    }
  }

  /** A command of the first `k` zones' steps is a command of one of them,
      zone `i`. */
  lemma PipelineMemberZone(zones: seq<ZoneConfig>, colls: seq<string>, names: seq<string>,
                           faults: map<Command, string>, k: nat, c: Command) returns (i: nat)
    requires k <= |zones| && |names| > 0
    requires c in PipelineCommands(zones, colls, names, faults, k)
    ensures i < k && c in ZoneCommands(zones, colls, zones[i], PlanAt(names, i), faults)
  {
    i := ConcatMember(ZoneBlocks(zones, colls, names, faults), k, c);
  }

  /** Zone `j`'s steps are among the first `k` zones' steps when `j < k`. */
  lemma PipelineHasZone(zones: seq<ZoneConfig>, colls: seq<string>, names: seq<string>,
                        faults: map<Command, string>, k: nat, j: nat, c: Command)
    requires j < k <= |zones| && |names| > 0
    requires c in ZoneCommands(zones, colls, zones[j], PlanAt(names, j), faults)
    ensures c in PipelineCommands(zones, colls, names, faults, k)
  {
    ConcatHas(ZoneBlocks(zones, colls, names, faults), k, j, c);
  }

  /** Every per-zone command of setup is a step of some zone. */
  lemma PipelineShape(zones: seq<ZoneConfig>, colls: seq<string>, names: seq<string>,
                      faults: map<Command, string>, c: Command)
    requires |names| > 0 && NamesDistinct(zones)
    requires c in PipelineCommands(zones, colls, names, faults, |zones|)
    ensures exists i :: 0 <= i < |zones| && ZoneStep(zones, colls, names, i, c)
  {
    var i := PipelineMemberZone(zones, colls, names, faults, |zones|, c);
    ZoneCommandsShape(zones, colls, names, i, faults, c);
  }

  /** With distinct databases, a per-zone command on zone `i`'s database
      belongs to zone `i`'s steps. */
  lemma PipelineOnDatabase(zones: seq<ZoneConfig>, colls: seq<string>, names: seq<string>,
                           faults: map<Command, string>, i: nat, c: Command)
    requires |names| > 0 && i < |zones| && NamesDistinct(zones) && PrefixesDistinct(zones)
    requires c in PipelineCommands(zones, colls, names, faults, |zones|)
    requires OnDatabase(c, zones[i].databasePrefix)
    ensures c in ZoneCommands(zones, colls, zones[i], PlanAt(names, i), faults)
  {
    var j := PipelineMemberZone(zones, colls, names, faults, |zones|, c);
    ZoneCommandsShape(zones, colls, names, j, faults, c);
    PrefixIndex(zones, i, j);
  }

  lemma PrefixIndex(zones: seq<ZoneConfig>, i: nat, j: nat)
    requires i < |zones| && j < |zones| && PrefixesDistinct(zones)
    requires zones[i].databasePrefix == zones[j].databasePrefix
    ensures i == j
  {
  }

  /** Every `movePrimary` of the per-zone steps moves a zone's database to
      that zone's planned shard. */
  lemma PipelineMoves(zones: seq<ZoneConfig>, colls: seq<string>, names: seq<string>,
                      faults: map<Command, string>)
    requires |names| > 0 && NamesDistinct(zones)
    ensures forall c :: c in PipelineCommands(zones, colls, names, faults, |zones|) && c.MovePrimary? ==>
      exists i :: 0 <= i < |zones| && c == MovePrimary(zones[i].databasePrefix, PlanAt(names, i))
  {
    forall c | c in PipelineCommands(zones, colls, names, faults, |zones|) && c.MovePrimary?
      ensures exists i :: 0 <= i < |zones| && c == MovePrimary(zones[i].databasePrefix, PlanAt(names, i))
    {
      PipelineShape(zones, colls, names, faults, c);
    }
  }

  /** Zone `i` is associated, by the `i`-th command, with the shard its
      database's primary is later moved to: every `movePrimary` of setup
      comes after the associations and names the shard of its own zone's
      association, so the `.get` default never applies. */
  lemma PrimaryFollowsAssociation(zones: seq<ZoneConfig>, colls: seq<string>, shards: seq<string>,
                                  faults: map<Command, string>)
    requires NamesDistinct(zones) && SetupOk(zones, shards)
    ensures var cmds := SetupCommands(zones, colls, shards, faults);
      && |zones| <= |cmds|
      && (forall i :: 0 <= i < |zones| ==> cmds[i] == AddShardToZone(PlanAt(DropConfig(shards), i), zones[i].name))
      && (forall j :: 0 <= j < |cmds| && cmds[j].MovePrimary? ==>
            |zones| <= j && exists i :: 0 <= i < |zones| && cmds[j] == MovePrimary(zones[i].databasePrefix, cmds[i].shard))
  {
    var names := DropConfig(shards);
    if |zones| > 0 {
      var adds := AddCommands(zones, names, |zones|);
      var pipe := PipelineCommands(zones, colls, names, faults, |zones|);
      assert adds + pipe == SetupCommands(zones, colls, shards, faults);
      PipelineMoves(zones, colls, names, faults);
      MovesAfterAssociations(zones, names, adds, pipe);
    }
  }

  lemma MovesAfterAssociations(zones: seq<ZoneConfig>, names: seq<string>, adds: seq<Command>, pipe: seq<Command>)
    requires |names| > 0 && adds == AddCommands(zones, names, |zones|)
    requires forall c :: c in pipe && c.MovePrimary? ==>
      exists i :: 0 <= i < |zones| && c == MovePrimary(zones[i].databasePrefix, PlanAt(names, i))
    ensures var cmds := adds + pipe;
      && (forall j :: 0 <= j < |cmds| && cmds[j].MovePrimary? ==>
            |zones| <= j && exists i :: 0 <= i < |zones| && cmds[j] == MovePrimary(zones[i].databasePrefix, cmds[i].shard))
  {
    var cmds := adds + pipe;
    forall j | 0 <= j < |cmds| && cmds[j].MovePrimary?
      ensures |zones| <= j && exists i :: 0 <= i < |zones| && cmds[j] == MovePrimary(zones[i].databasePrefix, cmds[i].shard)
    {
      assert cmds[j] == pipe[j - |zones|];
      var i :| 0 <= i < |zones| && cmds[j] == MovePrimary(zones[i].databasePrefix, PlanAt(names, i));
      assert cmds[i] == adds[i];
    }
  }

  /** The per-zone pipeline of zone `i`: a failed `enableSharding` skips the
      rest of the zone; a failed `movePrimary` skips its collections; when
      both succeed every tenant collection is sharded with the tenant key. */
  lemma ZonePipeline(zones: seq<ZoneConfig>, colls: seq<string>, names: seq<string>,
                     faults: map<Command, string>, i: nat)
    requires |names| > 0 && i < |zones| && NamesDistinct(zones) && PrefixesDistinct(zones)
    ensures var db := zones[i].databasePrefix;
      var pipe := PipelineCommands(zones, colls, names, faults, |zones|);
      && EnableSharding(db) in pipe
      && (CommandOutcome(faults, EnableSharding(db)).Failed? ==>
            forall c :: c in pipe && OnDatabase(c, db) ==> c == EnableSharding(db))
      && (!CommandOutcome(faults, EnableSharding(db)).Failed? ==> MovePrimary(db, PlanAt(names, i)) in pipe)
      && (MovePrimary(db, PlanAt(names, i)) in faults ==>
            forall c :: c in pipe && OnDatabase(c, db) ==> c.EnableSharding? || c.MovePrimary?)
      && (!CommandOutcome(faults, EnableSharding(db)).Failed? && MovePrimary(db, PlanAt(names, i)) !in faults ==>
            forall coll :: coll in colls ==> ShardCollection(Namespace(db, coll), TenantKey) in pipe)
  {
    var z := zones[i];
    var db := z.databasePrefix;
    var pipe := PipelineCommands(zones, colls, names, faults, |zones|);
    var zc := ZoneCommands(zones, colls, z, PlanAt(names, i), faults);
    PipelineHasZone(zones, colls, names, faults, |zones|, i, EnableSharding(db));
    if !CommandOutcome(faults, EnableSharding(db)).Failed? {
      PipelineHasZone(zones, colls, names, faults, |zones|, i, MovePrimary(db, PlanAt(names, i)));
      if MovePrimary(db, PlanAt(names, i)) !in faults {
        forall coll | coll in colls ensures ShardCollection(Namespace(db, coll), TenantKey) in pipe {
          CollectionsShardsEach(zones, db, colls, z.name, faults, coll);
          PipelineHasZone(zones, colls, names, faults, |zones|, i, ShardCollection(Namespace(db, coll), TenantKey));
        }
      }
    }
    forall c | c in pipe && OnDatabase(c, db)
      ensures CommandOutcome(faults, EnableSharding(db)).Failed? ==> c == EnableSharding(db)
      ensures MovePrimary(db, PlanAt(names, i)) in faults ==> c.EnableSharding? || c.MovePrimary?
    {
      PipelineOnDatabase(zones, colls, names, faults, i, c);
    }
  }

  /** Each tenant collection is sharded with the tenant key, in list order. */
  lemma CollectionsShardsEach(zones: seq<ZoneConfig>, db: string, colls: seq<string>, zoneName: string,
                              faults: map<Command, string>, coll: string)
    requires coll in colls
    ensures ShardCollection(Namespace(db, coll), TenantKey) in CollectionsCommands(zones, db, colls, zoneName, faults)
  {
    var sc := ShardCollectionCommands(zones, Namespace(db, coll), TenantKey, zoneName, faults);
    assert sc[0] == ShardCollection(Namespace(db, coll), TenantKey);
    CollectionsInclude(zones, db, colls, zoneName, faults, coll, sc[0]);
  }

  /** The collection loop issues every command of each collection's `shard_collection`. */
  lemma {:induction false} CollectionsInclude(zones: seq<ZoneConfig>, db: string, colls: seq<string>, zoneName: string,
                                             faults: map<Command, string>, coll: string, c: Command)
    requires coll in colls
    requires c in ShardCollectionCommands(zones, Namespace(db, coll), TenantKey, zoneName, faults)
    ensures c in CollectionsCommands(zones, db, colls, zoneName, faults)
    decreases |colls|
  {
    var front, last := colls[..|colls| - 1], colls[|colls| - 1];
    var prior := CollectionsCommands(zones, db, front, zoneName, faults);
    var sc := ShardCollectionCommands(zones, Namespace(db, last), TenantKey, zoneName, faults);
    assert CollectionsCommands(zones, db, colls, zoneName, faults) == prior + sc;
    if coll != last {
      assert colls == front + [last];
      CollectionsInclude(zones, db, front, zoneName, faults, coll, c);
    }
  }

  /** A command of setup that is not an association is a per-zone step. */
  lemma SetupStep(zones: seq<ZoneConfig>, colls: seq<string>, shards: seq<string>,
                  faults: map<Command, string>, c: Command)
    requires NamesDistinct(zones)
    requires c in SetupCommands(zones, colls, shards, faults) && !c.AddShardToZone?
    ensures SetupOk(zones, shards) && |DropConfig(shards)| > 0
    ensures exists i :: 0 <= i < |zones| && ZoneStep(zones, colls, DropConfig(shards), i, c)
  {
    var names := DropConfig(shards);
    var adds := AddCommands(zones, names, |zones|);
    var pipe := PipelineCommands(zones, colls, names, faults, |zones|);
    assert SetupCommands(zones, colls, shards, faults) == adds + pipe;
    assert c !in adds;
    PipelineShape(zones, colls, names, faults, c);
  }

  /** Routing is unambiguous: a shard key that falls in two ranges setup
      installs falls in ranges of the same zone, the zone that declares the
      key's country. */
  lemma RangesRouteUniquely(zones: seq<ZoneConfig>, colls: seq<string>, shards: seq<string>,
                            faults: map<Command, string>, c1: Command, c2: Command, k: KeyPoint)
    requires NamesDistinct(zones) && CountriesDisjoint(zones)
    requires c1 in SetupCommands(zones, colls, shards, faults) && c1.UpdateZoneKeyRange?
    requires c2 in SetupCommands(zones, colls, shards, faults) && c2.UpdateZoneKeyRange?
    requires InRange(k, c1.min, c1.max) && InRange(k, c2.min, c2.max)
    ensures c1.zone == c2.zone
    ensures exists i :: 0 <= i < |zones| && c1.zone == zones[i].name && k.country in zones[i].countries
  {
    SetupStep(zones, colls, shards, faults, c1);
    SetupStep(zones, colls, shards, faults, c2);
    var names := DropConfig(shards);
    var i :| 0 <= i < |zones| && ZoneStep(zones, colls, names, i, c1);
    var j :| 0 <= j < |zones| && ZoneStep(zones, colls, names, j, c2);
    RangeCoversExactlyCountry(c1.min.country, k);
    RangeCoversExactlyCountry(c2.min.country, k);
    CountryIndex(zones, i, j, k.country);
  }

  lemma CountryIndex(zones: seq<ZoneConfig>, i: nat, j: nat, country: string)
    requires i < |zones| && j < |zones| && CountriesDisjoint(zones)
    requires country in zones[i].countries && country in zones[j].countries
    ensures i == j
  {
  }

  // ---- The fault-free run ---------------------------------------------------

  /** On a cluster where no command fails, every command of zone `i`'s
      pipeline is issued: the association, its database's primary move, each
      tenant collection's sharding, and a range per country of the zone. */
  lemma FaultFreeSetupCommands(zones: seq<ZoneConfig>, colls: seq<string>, shards: seq<string>, i: nat)
    requires NamesDistinct(zones) && PrefixesDistinct(zones) && SetupOk(zones, shards) && i < |zones|
    requires zones[i].name != ""
    ensures var names := DropConfig(shards);
      var cmds := SetupCommands(zones, colls, shards, map[]);
      var db := zones[i].databasePrefix;
      && AddShardToZone(PlanAt(names, i), zones[i].name) in cmds
      && EnableSharding(db) in cmds
      && MovePrimary(db, PlanAt(names, i)) in cmds
      && (forall coll :: coll in colls ==> ShardCollection(Namespace(db, coll), TenantKey) in cmds)
      && (forall coll, country :: coll in colls && country in zones[i].countries ==>
            RangeCommand(Namespace(db, coll), country, zones[i].name) in cmds)
  {
    var names := DropConfig(shards);
    var f: map<Command, string> := map[];
    var z := zones[i];
    var db := z.databasePrefix;
    var adds := AddCommands(zones, names, |zones|);
    var pipe := PipelineCommands(zones, colls, names, f, |zones|);
    var cmds := SetupCommands(zones, colls, shards, f);
    assert cmds == adds + pipe;
    assert adds[i] == AddShardToZone(PlanAt(names, i), z.name);
    CommandOutcomeCases(f, EnableSharding(db));
    ZonePipeline(zones, colls, names, f, i);
    LookupAt(zones, i);
    forall coll, country | coll in colls && country in z.countries
      ensures RangeCommand(Namespace(db, coll), country, z.name) in cmds
    {
      var ns := Namespace(db, coll);
      RangeCommandsComplete(ns, z.countries, z.name, f);
      var k :| 0 <= k < |z.countries| && z.countries[k] == country;
      var rc := RangeCommand(ns, country, z.name);
      assert rc == AllRanges(ns, z.countries, z.name)[k];
      var sc := ShardCollectionCommands(zones, ns, TenantKey, z.name, f);
      assert sc == [ShardCollection(ns, TenantKey)] + AllRanges(ns, z.countries, z.name);
      assert rc in sc;
      CollectionsInclude(zones, db, colls, z.name, f, coll, rc);
      PipelineHasZone(zones, colls, names, f, |zones|, i, rc);
    }
  }

  /** No command of setup removes an association. */
  lemma SetupRemovesNothing(zones: seq<ZoneConfig>, colls: seq<string>, shards: seq<string>,
                            faults: map<Command, string>)
    requires NamesDistinct(zones)
    ensures forall c :: c in SetupCommands(zones, colls, shards, faults) ==> !c.RemoveShardFromZone? && !c.RemoveZone?
  {
    if SetupOk(zones, shards) {
      var names := DropConfig(shards);
      forall c | c in PipelineCommands(zones, colls, names, faults, |zones|)
        ensures !c.RemoveShardFromZone? && !c.RemoveZone?
      {
        PipelineShape(zones, colls, names, faults, c);
      }
    }
  }

  /** Every `shardCollection` of setup uses the tenant key, and every
      `movePrimary` of zone `i`'s database names zone `i`'s planned shard. */
  lemma SetupKeysAndPrimaries(zones: seq<ZoneConfig>, colls: seq<string>, shards: seq<string>,
                              faults: map<Command, string>, i: nat)
    requires NamesDistinct(zones) && PrefixesDistinct(zones) && SetupOk(zones, shards) && i < |zones|
    ensures forall c :: c in SetupCommands(zones, colls, shards, faults) && c.ShardCollection? ==> c.key == TenantKey
    ensures forall c :: c in SetupCommands(zones, colls, shards, faults) && c.MovePrimary? && c.db == zones[i].databasePrefix ==>
      c.to == PlanAt(DropConfig(shards), i)
  {
    var names := DropConfig(shards);
    var pipe := PipelineCommands(zones, colls, names, faults, |zones|);
    assert SetupCommands(zones, colls, shards, faults) == AddCommands(zones, names, |zones|) + pipe;
    forall c | c in pipe
      ensures c.ShardCollection? ==> c.key == TenantKey
      ensures c.MovePrimary? && c.db == zones[i].databasePrefix ==> c.to == PlanAt(names, i)
    {
      PipelineShape(zones, colls, names, faults, c);
      var j :| 0 <= j < |zones| && ZoneStep(zones, colls, names, j, c);
      if c.MovePrimary? && c.db == zones[i].databasePrefix {
        PrefixIndex(zones, i, j);
      }
    }
  }

  /** The associations setup adds are the planned pairs whose
      `addShardToZone` does not fail, and no others: no per-zone step
      associates a shard. */
  lemma SetupAssociations(zones: seq<ZoneConfig>, colls: seq<string>, shards: seq<string>,
                          faults: map<Command, string>)
    requires NamesDistinct(zones) && SetupOk(zones, shards)
    ensures var names := DropConfig(shards);
      AddedAssociations(faults, SetupCommands(zones, colls, shards, faults))
      == set j | 0 <= j < |zones| && AddShardToZone(PlanAt(names, j), zones[j].name) !in faults :: (PlanAt(names, j), zones[j].name)
  {
    var names := DropConfig(shards);
    var adds := AddCommands(zones, names, |zones|);
    var pipe := PipelineCommands(zones, colls, names, faults, |zones|);
    var cmds := adds + pipe;
    assert cmds == SetupCommands(zones, colls, shards, faults);
    var planned := set j | 0 <= j < |zones| && AddShardToZone(PlanAt(names, j), zones[j].name) !in faults :: (PlanAt(names, j), zones[j].name);
    forall c | c in pipe ensures !c.AddShardToZone? {
      PipelineShape(zones, colls, names, faults, c);
    }
    forall p | p in AddedAssociations(faults, cmds) ensures p in planned {
      var c :| c in cmds && c.AddShardToZone? && c !in faults && p == (c.shard, c.zone);
      assert c !in pipe;
      var j :| 0 <= j < |adds| && adds[j] == c;
      assert c == AddShardToZone(PlanAt(names, j), zones[j].name);
    }
    forall p | p in planned ensures p in AddedAssociations(faults, cmds) {
      var j :| 0 <= j < |zones| && AddShardToZone(PlanAt(names, j), zones[j].name) !in faults && p == (PlanAt(names, j), zones[j].name);
      assert cmds[j] == adds[j];
    }
  }

  /** On a cluster where no command fails, setup adds exactly the planned
      associations and leaves zone `i` associated with its planned shard, its
      database sharding-enabled, its database's primary on that shard, every
      tenant collection sharded with the tenant key and a range per country of
      the zone, whatever the cluster's state before. */
  lemma FaultFreeSetup(st: State, zones: seq<ZoneConfig>, colls: seq<string>, shards: seq<string>, i: nat)
    requires NamesDistinct(zones) && PrefixesDistinct(zones) && SetupOk(zones, shards) && i < |zones|
    requires zones[i].name != ""
    ensures var names := DropConfig(shards);
      var after := Run(st, map[], SetupCommands(zones, colls, shards, map[]));
      var db := zones[i].databasePrefix;
      && after.zoneShards == st.zoneShards + (set j | 0 <= j < |zones| :: (PlanAt(names, j), zones[j].name))
      && (PlanAt(names, i), zones[i].name) in after.zoneShards
      && db in after.shardedDbs
      && db in after.primaries && after.primaries[db] == PlanAt(names, i)
      && (forall coll :: coll in colls ==>
            Namespace(db, coll) in after.collections && after.collections[Namespace(db, coll)] == TenantKey)
      && (forall coll, country :: coll in colls && country in zones[i].countries ==>
            ZoneRange(Namespace(db, coll), RangeMin(country), RangeMax(country), zones[i].name) in after.ranges)
  {
    var names := DropConfig(shards);
    var f: map<Command, string> := map[];
    var cmds := SetupCommands(zones, colls, shards, f);
    var db := zones[i].databasePrefix;
    FaultFreeSetupCommands(zones, colls, shards, i);
    SetupRemovesNothing(zones, colls, shards, f);
    SetupKeysAndPrimaries(zones, colls, shards, f, i);
    RunAssociationsGrow(st, f, cmds);
    SetupAssociations(zones, colls, shards, f);
    assert AddedAssociations(f, cmds) == set j | 0 <= j < |zones| :: (PlanAt(names, j), zones[j].name);
    assert (PlanAt(names, i), zones[i].name) in AddedAssociations(f, cmds);
    RunShardedDbs(st, f, cmds, db);
    RunPrimary(st, f, cmds, db, PlanAt(names, i));
    forall coll | coll in colls
      ensures Namespace(db, coll) in Run(st, f, cmds).collections
      ensures Run(st, f, cmds).collections[Namespace(db, coll)] == TenantKey
    {
      RunCollection(st, f, cmds, Namespace(db, coll), TenantKey);
    }
    RunRanges(st, f, cmds);
    forall coll, country | coll in colls && country in zones[i].countries
      ensures ZoneRange(Namespace(db, coll), RangeMin(country), RangeMax(country), zones[i].name) in Run(st, f, cmds).ranges
    {
      var rg := ZoneRange(Namespace(db, coll), RangeMin(country), RangeMax(country), zones[i].name);
      InstalledRangesMembers(f, cmds, rg);
      assert RangeCommand(Namespace(db, coll), country, zones[i].name) in cmds;
    }
  }

  // ---- The static shard lists ---------------------------------------------------

  /** Two configurations alike in everything but their static shard lists. */
  predicate SameButShards(a: seq<ZoneConfig>, b: seq<ZoneConfig>) {
    && |a| == |b|
    && forall i :: 0 <= i < |a| ==>
         a[i].name == b[i].name && a[i].countries == b[i].countries && a[i].databasePrefix == b[i].databasePrefix
  }

  lemma {:induction false} LookupButShards(a: seq<ZoneConfig>, b: seq<ZoneConfig>, name: string)
    requires SameButShards(a, b)
    ensures Lookup(a, name).None? == Lookup(b, name).None?
    ensures Lookup(a, name).Some? ==> Lookup(a, name).value.countries == Lookup(b, name).value.countries
    decreases |a|
  {
    if |a| > 0 && a[0].name != name {
      assert SameButShards(a[1..], b[1..]) by {
        forall i | 0 <= i < |a[1..]| ensures a[1..][i].name == b[1..][i].name && a[1..][i].countries == b[1..][i].countries
          && a[1..][i].databasePrefix == b[1..][i].databasePrefix
        {
          assert a[1..][i] == a[i + 1] && b[1..][i] == b[i + 1];
        }
      }
      LookupButShards(a[1..], b[1..], name);
    }
  }

  lemma {:induction false} CollectionsButShards(a: seq<ZoneConfig>, b: seq<ZoneConfig>, db: string, colls: seq<string>,
                                               zoneName: string, faults: map<Command, string>)
    requires SameButShards(a, b)
    ensures CollectionsCommands(a, db, colls, zoneName, faults) == CollectionsCommands(b, db, colls, zoneName, faults)
    decreases |colls|
  {
    LookupButShards(a, b, zoneName);
    if colls != [] {
      CollectionsButShards(a, b, db, colls[..|colls| - 1], zoneName, faults);
    }
  }

  lemma ZoneButShards(a: seq<ZoneConfig>, b: seq<ZoneConfig>, colls: seq<string>, names: seq<string>,
                      faults: map<Command, string>, i: nat)
    requires SameButShards(a, b) && i < |a| && |names| > 0
    ensures ZoneCommands(a, colls, a[i], PlanAt(names, i), faults) == ZoneCommands(b, colls, b[i], PlanAt(names, i), faults)
  {
    CollectionsButShards(a, b, a[i].databasePrefix, colls, a[i].name, faults);
  }

  lemma PipelineButShards(a: seq<ZoneConfig>, b: seq<ZoneConfig>, colls: seq<string>, names: seq<string>,
                          faults: map<Command, string>, k: nat)
    requires SameButShards(a, b) && k <= |a| && (k > 0 ==> |names| > 0)
    ensures PipelineCommands(a, colls, names, faults, k) == PipelineCommands(b, colls, names, faults, k)
  {
    var fa, fb := ZoneBlocks(a, colls, names, faults), ZoneBlocks(b, colls, names, faults);
    forall i: nat | i < k ensures fa(i) == fb(i) {
      ZoneButShards(a, b, colls, names, faults, i);
    }
    ConcatSame(fa, fb, k);
  }

  /** The planner never reads the static shard lists: setup issues the same
      commands whatever those lists say. */
  lemma SetupIgnoresStaticShards(a: seq<ZoneConfig>, b: seq<ZoneConfig>, colls: seq<string>, shards: seq<string>,
                                 faults: map<Command, string>)
    requires SameButShards(a, b)
    ensures SetupCommands(a, colls, shards, faults) == SetupCommands(b, colls, shards, faults)
  {
    if SetupOk(a, shards) {
      PipelineButShards(a, b, colls, DropConfig(shards), faults, |a|);
      assert AddCommands(a, DropConfig(shards), |a|) == AddCommands(b, DropConfig(shards), |b|);
    }
  }

  /** Setup gives up before any command when `listShards` reported fewer than
      two shards: an empty reply (also what a failed `listShards` yields) or a
      single shard. */
  lemma TooFewShardsIssueNothing(zones: seq<ZoneConfig>, colls: seq<string>, shards: seq<string>,
                                 faults: map<Command, string>)
    requires |shards| < 2
    ensures !SetupOk(zones, shards) && SetupCommands(zones, colls, shards, faults) == []
  {
  }
}
