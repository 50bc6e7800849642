# Atlas zone sharding manager, modelled in Dafny

This project models the zone sharding manager of a MongoDB Atlas demo.
The manager reads the cluster's shard list, drops the `config` shard, and
plans one shard per configured zone: zone *i* gets shard *i*, and every zone
past the end of the list gets the last shard. It then:

- associates each zone with its planned shard;
- enables sharding on each zone's database and moves the database's primary
  to the zone's shard;
- shards the tenant collections on the compound key `{country: 1, region: 1}`;
- installs one zone key range per country of the zone.

It can also report the status of each zone, and it can clean the zones up
again: it removes the shards of the static per-zone lists from their zones,
then removes the zones.

The cluster is reached only through its admin command channel, modelled as
the class `Admin.Cluster`:

- Each command is a method that records the command in `log`.
- Whether a command fails, and with which message, is an input: the constant
  map `faults`.
- A command that does not fail takes its effect on the fields `zoneShards`,
  `zoneNames`, `shardedDbs`, `primaries`, `collections` and `ranges`.
- `Admin.Exec` and `Admin.Run` give the same effect on values.

Each manager method in `Manager.ZoneShardingManager` is proved to leave the
cluster in the state `Run(old state, faults, S)`, where `S` is a
specification function of the configuration, the `listShards` reply and the
faults. Those functions live in `Setup` and `Cleanup`, and the modules
`SetupProperties`, `Cleanup` and `Lifecycle` prove what those command
sequences promise.

The text matching that turns a failure into a warning rather than an error
("already", "duplicate", "already enabled", "already sharded", "not in zone",
"not found") is one adapter, `Messages.Classify`. It looks for the phrase in
the ASCII lower-cased message. The status lines that `create_zones` and
`cleanup_zones` print are modelled as a returned report of `Outcome`s:
`Applied`, `AlreadyApplied` or `Failed(message)`.

The configuration (`Config`) is the zone dictionary as a sequence of
`ZoneConfig` values in declaration order. Dictionary keys are distinct, which
the model states as `NamesDistinct`.

## Model

| member | source | states |
|---|---|---|
| Config.ConfigInvariants | config.py:12-28 | exactly two zones, region1 then region2; zone names, country lists and database prefixes pairwise distinct or disjoint; static lists shard00 and shard01; both collection lists non-empty and disjoint; the demo data size positive |
| Config.LookupFinds | setup_atlas_zones.py:110-111 | `zones.get(name)` yields nothing exactly when no zone has that name; otherwise it yields a configured zone with that name |
| Config.LookupAt | setup_atlas_zones.py:110 | with distinct names, looking up zone *i*'s name yields zone *i* |
| Config.ZoneOfTenant | config.py:15-20 | the zone of a country is absent exactly when no zone declares the country; otherwise the zone it names declares it |
| Config.TenantInExactlyOneZone | config.py:15-20 | with disjoint country lists, a country of zone *i* belongs to zone *i* and is declared by no other zone |
| Config.ConfiguredTenantZones | config.py:15-20 | CN and TR belong to region1; AE, US, EU and GB belong to region2 |
| Planner.DropConfig | setup_atlas_zones.py:51 | the filtered list holds exactly the shards other than `config`; it is no longer than the input and is the input itself when `config` is absent |
| Planner.DropConfigAppend | setup_atlas_zones.py:51 | filtering keeps the order of the kept shards |
| Planner.PlanAt | setup_atlas_zones.py:57 | the planned shard is one of the filtered shards |
| Planner.Plan | setup_atlas_zones.py:172-174 | one planned shard per zone, each among the filtered shards |
| Planner.PlanPositional | setup_atlas_zones.py:57 | a zone within the shard count gets the shard at its own position |
| Planner.PlanOverflow | setup_atlas_zones.py:57 | every zone beyond the shard count gets the last shard |
| Planner.PlanInjective | setup_atlas_zones.py:57 | with at least as many distinct shards as zones, no shard backs two zones |
| Planner.ConfigCountsTowardsTwo | setup_atlas_zones.py:159-169 | the two-shard check counts `config`, so a cluster with `config` and one shard `s` passes the check and both zones are planned onto `s` |
| ShardKeys.StrLessIrreflexive | setup_atlas_zones.py:119-120 | no string precedes itself in the key order |
| ShardKeys.StrLessAsymmetric | setup_atlas_zones.py:119-120 | two strings never precede each other |
| ShardKeys.StrLessTotal | setup_atlas_zones.py:119-120 | of two different strings, one precedes the other |
| ShardKeys.BoundExtremes | setup_atlas_zones.py:119-120 | the empty string is the least region bound and `MaxKey` the greatest |
| ShardKeys.RangeMin | setup_atlas_zones.py:119 | the lower bound of a country's range is the least key of that country: every other key of the country lies above it |
| ShardKeys.RangeMax | setup_atlas_zones.py:120 | the upper bound of a country's range lies above every document of that country, whatever its region string, and below every key of a later country |
| ShardKeys.RangeCoversExactlyCountry | setup_atlas_zones.py:117-122 | a key lies in a country's range exactly when it has that country and a string region |
| ShardKeys.CountryRangesDisjoint | setup_atlas_zones.py:114-122 | the ranges of two different countries share no key |
| Messages.LowerChar | setup_atlas_zones.py:68 | ASCII lower-casing of one character maps A-Z to a-z and leaves every other character alone |
| Messages.LowerChars | setup_atlas_zones.py:68 | lower-casing keeps the length and lower-cases each character |
| Messages.LowerIsLower | setup_atlas_zones.py:68 | a lower-cased message has no upper-case letter, and lower-casing such a message changes nothing |
| Messages.MentionsAnyPhrase | setup_atlas_zones.py:68-69 | a message mentions the phrases exactly when its lower-cased form contains one of them |
| Messages.ContainsOccurs | setup_atlas_zones.py:69 | `sub in s` holds exactly when `sub` occurs at some position of `s` |
| Messages.ClassifyCases | setup_atlas_zones.py:66-72 | a success is Applied; a failure whose lower-cased message contains a listed phrase is AlreadyApplied; any other failure is Failed with the original message; each case in both directions |
| Messages.CommandOutcomeCases | setup_atlas_zones.py:60-72 | a command is Applied exactly when the cluster does not fail it; a real failure carries the cluster's message |
| Messages.NoNoOpForPrimaryOrRange | setup_atlas_zones.py:136-147 | every failure of `movePrimary` or `updateZoneKeyRange` counts as a failure: no message makes it a no-op |
| Messages.ClassifyIgnoresCase | setup_atlas_zones.py:68-69 | classification gives the same no-op verdict for a message and its lower-cased form |
| Messages.AlreadyInZoneIsNoOp | setup_atlas_zones.py:68-70 | the failure "Shard ALREADY in zone" of `addShardToZone` is a no-op |
| Messages.AlreadyEnabledIsNoOp | setup_atlas_zones.py:91-93 | the failure "Sharding Already Enabled" of `enableSharding` is a no-op |
| Admin.Exec | setup_atlas_zones.py:62-65 | issuing a command records it; a failed command changes nothing else |
| Admin.RunAppend | setup_atlas_zones.py:176-191 | issuing two command sequences one after the other is issuing their concatenation |
| Admin.RunLog | setup_atlas_zones.py:149-194 | the log records exactly the commands issued, in order |
| Admin.InstalledRanges | setup_atlas_zones.py:117-122 | a run installs at most one range per command |
| Admin.RunRanges | setup_atlas_zones.py:117-122 | no command removes a range: the ranges after a run are the earlier ones followed by those the run installed |
| Admin.InstalledRangesMembers | setup_atlas_zones.py:117-122 | a range is installed exactly when a range command for it succeeds |
| Admin.RunAssociationsGrow | setup_atlas_zones.py:62-65 | without removals, a run only adds associations, namely those of its successful `addShardToZone` commands |
| Admin.RunShardedDbs | setup_atlas_zones.py:87 | once a run's `enableSharding` of a database succeeds, the database is sharding-enabled after the run: no command disables sharding |
| Admin.RunPrimary | setup_atlas_zones.py:139-142 | a database's primary after a run is the shard that all of its `movePrimary` commands name, when one of them succeeds |
| Admin.RunCollection | setup_atlas_zones.py:100-103 | a collection's shard key after a run is the key it is always sharded with, when one `shardCollection` succeeds |
| Admin.RunRemovals | setup_atlas_zones.py:250-253 | a run of `removeShardFromZone` commands only removes associations, namely those of the successful removals |
| Admin.RunZoneRemovals | setup_atlas_zones.py:265 | a run of `removeZone` commands only removes zone names, namely those of the successful removals |
| Admin.Cluster.ListShards | setup_atlas_zones.py:37 | `listShards` returns the cluster's reply and changes nothing |
| Admin.Cluster.AddShardToZone | setup_atlas_zones.py:62-65 | the reply is the cluster's response; the new state is the old one after the command |
| Admin.Cluster.EnableSharding | setup_atlas_zones.py:87 | the reply is the cluster's response; the new state is the old one after the command |
| Admin.Cluster.MovePrimary | setup_atlas_zones.py:139-142 | the reply is the cluster's response; the new state is the old one after the command |
| Admin.Cluster.ShardCollection | setup_atlas_zones.py:100-103 | the reply is the cluster's response; the new state is the old one after the command |
| Admin.Cluster.UpdateZoneKeyRange | setup_atlas_zones.py:117-122 | the reply is the cluster's response; the new state is the old one after the command |
| Admin.Cluster.RemoveShardFromZone | setup_atlas_zones.py:250-253 | the reply is the cluster's response; the new state is the old one after the command |
| Admin.Cluster.RemoveZone | setup_atlas_zones.py:265 | the reply is the cluster's response; the new state is the old one after the command |
| Setup.ReportLines | setup_atlas_zones.py:66-72 | the report has one line per command issued, and each line is that command's outcome |
| Setup.RangeCommandsPrefix | setup_atlas_zones.py:114-126 | ranges are issued in country order, for at most every country: every range but the last succeeded, and when the loop stops early the last one failed |
| SetupProperties.RangeCommandsShape | setup_atlas_zones.py:117-122 | every range of the loop, for the namespace, spans `{country: c, region: ""}` to `{country: c, region: MaxKey}` for a country `c` of the zone, and names that zone |
| SetupProperties.RangeCommandsComplete | setup_atlas_zones.py:114-123 | when no range fails, the loop issues one range per country, in country order |
| SetupProperties.ShardCollectionShape | setup_atlas_zones.py:99-128 | `shard_collection` first issues `shardCollection`; it issues ranges only when that succeeds and the zone is named and configured, and it issues only ranges of the configured countries |
| SetupProperties.AlreadyShardedInstallsNoRanges | setup_atlas_zones.py:129-134 | when `shardCollection` fails, no range is installed, and the result is True exactly when the failure says "already sharded" |
| SetupProperties.CollectionsMember | setup_atlas_zones.py:189-191 | every command of the collection loop acts on the zone's database: it shards a listed collection with the tenant key, or adds a range of one of the zone's countries for that zone |
| SetupProperties.ZoneCommandsShape | setup_atlas_zones.py:176-191 | every command of one zone's steps acts on that zone's database; a primary move names the zone's planned shard |
| SetupProperties.PipelineMemberZone | setup_atlas_zones.py:176 | a command of the zone loop belongs to the steps of one of the zones |
| SetupProperties.PipelineHasZone | setup_atlas_zones.py:176 | the zone loop issues every command of each zone's steps |
| SetupProperties.PipelineShape | setup_atlas_zones.py:176-191 | every command of the zone loop is a step of some zone: on its database, with its shard, the tenant key and its countries |
| SetupProperties.PipelineOnDatabase | setup_atlas_zones.py:176-191 | with distinct databases, a command of the zone loop on zone *i*'s database comes from zone *i*'s steps |
| SetupProperties.PipelineMoves | setup_atlas_zones.py:178-185 | every `movePrimary` moves some zone's database to that zone's planned shard |
| SetupProperties.PrimaryFollowsAssociation | setup_atlas_zones.py:169-185 | the first commands are the associations, one per zone, in zone order; every later `movePrimary` moves a zone's database to the shard of that zone's association, so the `.get` default never applies |
| SetupProperties.ZonePipeline | setup_atlas_zones.py:176-191 | for each zone: `enableSharding` is issued; when it fails, nothing else touches the database; otherwise the primary is moved; when that fails, no collection is sharded; when both succeed, every tenant collection is sharded with the tenant key |
| SetupProperties.CollectionsShardsEach | setup_atlas_zones.py:189-191 | every tenant collection is sharded with the tenant key |
| SetupProperties.CollectionsInclude | setup_atlas_zones.py:189-191 | the collection loop issues every command of each collection's `shard_collection` |
| SetupProperties.SetupStep | setup_atlas_zones.py:149-194 | a command of setup other than an association happens only past the shard checks, and is a step of some zone |
| SetupProperties.RangesRouteUniquely | setup_atlas_zones.py:114-122 | with disjoint country lists, a key that lies in two ranges of setup lies in ranges of the same zone, namely the zone that declares the key's country |
| SetupProperties.FaultFreeSetupCommands | setup_atlas_zones.py:149-194 | when no command fails, setup issues zone *i*'s association, its `enableSharding`, its primary move, the sharding of every tenant collection, and a range for every country of the zone |
| SetupProperties.SetupRemovesNothing | setup_atlas_zones.py:149-194 | setup issues no removal |
| SetupProperties.SetupKeysAndPrimaries | setup_atlas_zones.py:178-191 | every collection setup shards uses the tenant key, and every primary move of zone *i*'s database names zone *i*'s planned shard |
| SetupProperties.SetupAssociations | setup_atlas_zones.py:149-194 | the associations setup adds are exactly the planned (shard, zone) pairs whose `addShardToZone` does not fail; no per-zone step adds one |
| SetupProperties.FaultFreeSetup | setup_atlas_zones.py:149-194 | when no command fails, setup adds exactly the planned associations, one per zone, and no other; it leaves each zone associated with its planned shard, its database sharding-enabled, its database's primary on that shard, every tenant collection sharded with the tenant key, and a range per country of the zone |
| SetupProperties.LookupButShards | setup_atlas_zones.py:110-112 | looking up a zone finds the same countries whatever the static shard lists say |
| SetupProperties.CollectionsButShards | setup_atlas_zones.py:189-191 | the collection loop does not depend on the static shard lists |
| SetupProperties.ZoneButShards | setup_atlas_zones.py:177-191 | one zone's steps do not depend on the static shard lists |
| SetupProperties.PipelineButShards | setup_atlas_zones.py:176-191 | the zone loop does not depend on the static shard lists |
| SetupProperties.SetupIgnoresStaticShards | setup_atlas_zones.py:149-194 | setup issues the same commands whatever the static shard lists say |
| SetupProperties.TooFewShardsIssueNothing | setup_atlas_zones.py:154-161 | with fewer than two reported shards (an empty reply, which is also what a failed `listShards` gives, or one shard), setup fails and issues no command |
| Status.IndexById | setup_atlas_zones.py:203 | the index's keys are the reported ids; each holds a reported entry with that id |
| Status.IndexByIdLast | setup_atlas_zones.py:203 | when several reported entries share an id, the index holds the last of them |
| Status.ZoneInfoDetails | setup_atlas_zones.py:206-217 | a zone's shard details hold exactly those static shards the cluster reports, each with a reported entry of its id |
| Cleanup.ShardRemovalsPairs | setup_atlas_zones.py:246-260 | the removals are `removeShardFromZone` commands for exactly the configured (shard, zone) pairs |
| Cleanup.CleanupOrder | setup_atlas_zones.py:246-272 | every association removal comes before every zone removal; the zone removals follow zone order, one per zone |
| Cleanup.FaultFreeCleanup | setup_atlas_zones.py:240-278 | when no command fails, cleanup removes exactly the configured associations and zone names, and changes nothing else |
| Lifecycle.PlannedAssociationOutlivesCleanup | setup_atlas_zones.py:246-260 | when a planned shard is missing from its zone's static list, a fault-free setup followed by cleanup removes the zone's name but not its association with the planned shard |
| Lifecycle.DemoPlanMatchesStaticLists | config.py:14-19 | with the demo configuration and shards named `config`, `shard00` and `shard01`, each zone gets its listed shard, and setup followed by cleanup leaves neither planned association |
| Manager.ZoneShardingManager.constructor | setup_atlas_zones.py:19-22 | the manager holds the cluster, the configured zones and the tenant collections |
| Manager.ZoneShardingManager.GetShardList | setup_atlas_zones.py:34-43 | the shard ids in reply order, or the empty list when `listShards` fails |
| Manager.ZoneShardingManager.CreateZones | setup_atlas_zones.py:45-82 | fails with no command exactly when there is a zone but no shard besides `config`; otherwise it issues the associations, one per zone in zone order with the planned shard, whatever each reply, and reports each command's outcome |
| Manager.ZoneShardingManager.AddZoneShards | setup_atlas_zones.py:53-76 | the association loop issues one `addShardToZone` per zone with its planned shard, and reports each outcome |
| Manager.ZoneShardingManager.EnableShardingForDatabase | setup_atlas_zones.py:84-95 | True exactly on success or on an "already enabled" failure; the command is issued |
| Manager.ZoneShardingManager.MoveDatabasePrimary | setup_atlas_zones.py:136-147 | True exactly when the move succeeds; the command is issued |
| Manager.ZoneShardingManager.ShardCollection | setup_atlas_zones.py:97-134 | True unless `shardCollection` fails with a message other than "already sharded"; issues exactly the `shard_collection` commands |
| Manager.ZoneShardingManager.InstallRanges | setup_atlas_zones.py:107-126 | the range loop issues exactly the range commands up to and including the first failure |
| Manager.ZoneShardingManager.InstallRange | setup_atlas_zones.py:117-122 | issues the country's range command; True exactly when it does not fail |
| Manager.ZoneShardingManager.BuildZoneShards | setup_atlas_zones.py:169-174 | the plan dictionary maps each zone name to that zone's planned shard, and has no other key |
| Manager.ZoneShardingManager.ShardTenantCollections | setup_atlas_zones.py:189-191 | shards every tenant collection of the database, in list order, with the tenant key |
| Manager.ZoneShardingManager.SetupZone | setup_atlas_zones.py:177-191 | issues exactly one zone's steps: enable, then move the primary, then the collections, a failed step skipping the rest |
| Manager.ZoneShardingManager.ConfigureZones | setup_atlas_zones.py:176-191 | issues every zone's steps in zone order, each zone with the shard the plan dictionary gives it |
| Manager.ZoneShardingManager.SetupAtlasZoneSharding | setup_atlas_zones.py:149-194 | True exactly when at least two shards are reported and `create_zones` succeeds; issues exactly the setup commands |
| Manager.ZoneShardingManager.GetZoneStatus | setup_atlas_zones.py:196-223 | empty when `listShards` fails; otherwise one entry per configured zone with its static shards, countries, database and the reported details of its static shards |
| Manager.ZoneShardingManager.ShardDetails | setup_atlas_zones.py:215-217 | the details hold exactly the listed shards the cluster reports, each with its reported entry |
| Manager.ZoneShardingManager.CleanupZones | setup_atlas_zones.py:240-278 | always True; issues exactly the cleanup commands and reports each command's outcome |
| Manager.ZoneShardingManager.RemoveShardsFromZones | setup_atlas_zones.py:246-260 | removes the static shards from their zones, zone by zone, and reports each outcome |
| Manager.ZoneShardingManager.RemoveZoneShards | setup_atlas_zones.py:248-260 | removes one zone's static shards from it, in list order, and reports each outcome |
| Manager.ZoneShardingManager.RemoveZones | setup_atlas_zones.py:263-272 | removes every zone in zone order, whatever each reply, and reports each outcome |

## Left out

- The MongoDB client, the connection and `main` are left out. The admin channel is the `Admin.Cluster` abstraction: which commands fail, and with what message, is the input `faults`.
- The cluster's own semantics are not modelled. A command that does not fail takes the plain effect given by `Admin.Effect`. The server's checks are left out, for example a `removeZone` refused while the zone still has shards or ranges, or an overlapping range being rejected. Chunk routing and balancing are left out too; the key-range lemmas in `ShardKeys` stand in for routing.
- `print_status` and every console line are left out. `create_zones` and `cleanup_zones` return a report of outcomes in their place. The other methods print only.
- `verify_data_placement` only forwards a `dataDistribution` reply, so it is not modelled.
- Exceptions raised outside a command are not modelled: a `KeyError` on a malformed `listShards` reply, or an exception inside the outer `try` of `create_zones` or `cleanup_zones`. The one exception modelled is the `IndexError` of `shard_names[-1]` on an empty list.
- The message of a failed `listShards` is not kept: a failed reply is `None`.
- `Messages.Lower` lower-cases ASCII letters only. Python's `str.lower()` also maps non-ASCII letters.
- The default `zone_name=None` of `shard_collection` is modelled as the empty string `""`. Both take the same falsy branch that skips the ranges, and no stated property depends on the difference.
- `faults` is keyed by the command, so the model gives the same command the same reply every time it is issued, whatever came before. A server whose reply to a repeated command changes with its state is not modelled; no stated property depends on a repeated command.
- `shardCollection` and `updateZoneKeyRange` take a namespace, modelled as the pair `Namespace(db, coll)` rather than the string `"db.coll"`.
- `Manager.ZoneShardingManager.SetupAtlasZoneSharding` and `GetZoneStatus` require distinct zone names. This stands for the key uniqueness of the configuration dictionary, which `Config.ConfigInvariants` proves for the demo configuration.
- The connection settings of `config.py`, both URIs and the Atlas placeholders, are left out, and so is `COMMON_COLLECTIONS` apart from its invariants. The manager never reads them.
- `run_demo.py`, `models.py` and `test_demo.py` are not part of this model. The configuration assertions of test_demo.py:53-66 appear in `Config.ConfigInvariants`.
- Idempotence of a second setup run is not stated. Without the server's semantics the model cannot say which replies a second run receives; the classification lemmas say how any such reply is treated.
