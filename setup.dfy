/** The commands the setup procedure issues, as functions of the
    configuration, the `listShards` reply and the commands that fail.
    The manager's methods are proved to issue exactly these. */
module Setup {
  import opened Config
  import opened ShardKeys
  import opened Admin
  import opened Messages
  import opened Planner

  /** `[shard["_id"] for shard in result["shards"]]`. */
  function ShardIds(docs: seq<ShardDoc>): (ids: seq<string>)
    ensures |ids| == |docs|
    ensures forall i :: 0 <= i < |docs| ==> ids[i] == docs[i].id
  {
    seq(|docs|, i requires 0 <= i < |docs| => docs[i].id)
  }

  /** The outcomes of a sequence of commands, one per command, as the
      status lines report them. */
  function Report(faults: map<Command, string>, cmds: seq<Command>): seq<Outcome> {
    if |cmds| == 0 then []
    else Report(faults, cmds[..|cmds| - 1]) + [CommandOutcome(faults, cmds[|cmds| - 1])]
  }

  /** One status line per command, each the outcome of that command. */
  lemma {:induction false} ReportLines(faults: map<Command, string>, cmds: seq<Command>)
    ensures |Report(faults, cmds)| == |cmds|
    ensures forall i :: 0 <= i < |cmds| ==> Report(faults, cmds)[i] == CommandOutcome(faults, cmds[i])
    decreases |cmds|
  {
    if |cmds| > 0 {
      ReportLines(faults, cmds[..|cmds| - 1]);
    }
  }

  lemma ReportSnoc(faults: map<Command, string>, cmds: seq<Command>, cmd: Command)
    ensures Report(faults, cmds + [cmd]) == Report(faults, cmds) + [CommandOutcome(faults, cmd)]
  {
    assert (cmds + [cmd])[..|cmds|] == cmds;
  }

  lemma {:induction false} ReportAppend(faults: map<Command, string>, a: seq<Command>, b: seq<Command>)
    ensures Report(faults, a + b) == Report(faults, a) + Report(faults, b)
    decreases |b|
  {
    if |b| == 0 {
      assert a + b == a;
    } else {
      var front, last := b[..|b| - 1], b[|b| - 1];
      assert b == front + [last];
      assert a + b == (a + front) + [last];
      calc {
        Report(faults, a + b);
        { ReportSnoc(faults, a + front, last); }
        Report(faults, a + front) + [CommandOutcome(faults, last)];
        { ReportAppend(faults, a, front); }
        Report(faults, a) + Report(faults, front) + [CommandOutcome(faults, last)];
        { ReportSnoc(faults, front, last); }
        Report(faults, a) + Report(faults, b);
      }
    }
  }

  // ---- create_zones -------------------------------------------------------

  /** `create_zones` fails (with `shard_names[-1]` on an empty list) exactly
      when there is a zone but no shard besides `config`. */
  predicate CreateZonesOk(zones: seq<ZoneConfig>, names: seq<string>) {
    |zones| == 0 || |names| > 0
  }

  /** One `addShardToZone` per zone, in zone order, with the planned shard. */
  function AddCommands(zones: seq<ZoneConfig>, names: seq<string>, k: nat): seq<Command>
    requires k <= |zones| && (k > 0 ==> |names| > 0)
  {
    seq(k, i requires 0 <= i < k => AddShardToZone(PlanAt(names, i), zones[i].name))
  }

  lemma AddCommandsSnoc(zones: seq<ZoneConfig>, names: seq<string>, k: nat)
    requires k < |zones| && |names| > 0
    ensures AddCommands(zones, names, k + 1) == AddCommands(zones, names, k) + [AddShardToZone(PlanAt(names, k), zones[k].name)]
  {
  }

  // ---- shard_collection -------------------------------------------------------

  function RangeCommand(ns: Namespace, country: string, zone: string): Command {
    UpdateZoneKeyRange(ns, RangeMin(country), RangeMax(country), zone)
  }

  /** One range per country, in the order the zone lists them. */
  function AllRanges(ns: Namespace, countries: seq<string>, zone: string): seq<Command> {
    seq(|countries|, i requires 0 <= i < |countries| => RangeCommand(ns, countries[i], zone))
  }

  /** The range loop: ranges in country order, up to and including the first
      one that fails. */
  function RangeCommands(ns: Namespace, countries: seq<string>, zone: string, faults: map<Command, string>): seq<Command>
    decreases |countries|
  {
    if countries == [] then []
    else
      var c := RangeCommand(ns, countries[0], zone);
      if c in faults then [c] else [c] + RangeCommands(ns, countries[1..], zone, faults)
  }

  /** The range loop issues a prefix of the ranges, one per country in
      order; every range but the last succeeded, and when the loop stops
      before the last country the last range it issued failed. */
  lemma {:induction false} RangeCommandsPrefix(ns: Namespace, countries: seq<string>, zone: string, faults: map<Command, string>)
    ensures var r := RangeCommands(ns, countries, zone, faults);
      && |r| <= |countries|
      && r == AllRanges(ns, countries, zone)[..|r|]
      && (forall j :: 0 <= j < |r| - 1 ==> r[j] !in faults)
      && (|r| < |countries| ==> |r| > 0 && r[|r| - 1] in faults)
    decreases |countries|
  {
    if countries != [] {
      var c := RangeCommand(ns, countries[0], zone);
      assert AllRanges(ns, countries, zone) == [c] + AllRanges(ns, countries[1..], zone);
      if c !in faults {
        RangeCommandsPrefix(ns, countries[1..], zone, faults);
        var rest := RangeCommands(ns, countries[1..], zone, faults);
        assert RangeCommands(ns, countries, zone, faults) == [c] + rest;
      }
    }
  }

  /** `shard_collection`: `shardCollection`, then, when it succeeds and the
      zone is named and configured, the zone's ranges. */
  function ShardCollectionCommands(zones: seq<ZoneConfig>, ns: Namespace, key: seq<KeyField>, zoneName: string,
                                   faults: map<Command, string>): seq<Command>
  {
    var sc := ShardCollection(ns, key);
    if sc in faults || zoneName == "" then [sc]
    else match Lookup(zones, zoneName)
      case None => [sc]
      case Some(z) => [sc] + RangeCommands(ns, z.countries, zoneName, faults)
  }

  /** `shard_collection` returns True unless `shardCollection` fails with a
      message other than "already sharded". */
  predicate ShardCollectionOk(ns: Namespace, key: seq<KeyField>, faults: map<Command, string>) {
    !CommandOutcome(faults, ShardCollection(ns, key)).Failed?
  }

  // ---- setup_atlas_zone_sharding -------------------------------------------------

  /** Every tenant collection of a zone's database, in list order. */
  function CollectionsCommands(zones: seq<ZoneConfig>, db: string, colls: seq<string>, zoneName: string,
                               faults: map<Command, string>): seq<Command>
    decreases |colls|
  {
    if colls == [] then []
    else CollectionsCommands(zones, db, colls[..|colls| - 1], zoneName, faults)
         + ShardCollectionCommands(zones, Namespace(db, colls[|colls| - 1]), TenantKey, zoneName, faults)
  }

  /** The steps for one zone: enable sharding, then move the primary, then
      shard the tenant collections; a failed step skips the rest of the zone. */
  function ZoneCommands(zones: seq<ZoneConfig>, colls: seq<string>, z: ZoneConfig, shard: string,
                        faults: map<Command, string>): seq<Command>
  {
    var en := EnableSharding(z.databasePrefix);
    var mp := MovePrimary(z.databasePrefix, shard);
    if CommandOutcome(faults, en).Failed? then [en]
    else if mp in faults then [en, mp]
    else [en, mp] + CollectionsCommands(zones, z.databasePrefix, colls, z.name, faults)
  }

  /** The blocks `block(0)`, ..., `block(k - 1)` one after another. */
  function Concat<T>(block: nat -> seq<T>, k: nat): seq<T> {
    if k == 0 then [] else Concat(block, k - 1) + block(k - 1)
  }

  /** An element of a concatenation comes from one of its blocks. */
  lemma {:induction false} ConcatMember<T>(block: nat -> seq<T>, k: nat, c: T) returns (i: nat)
    requires c in Concat(block, k)
    ensures i < k && c in block(i)
  {
    if c in Concat(block, k - 1) {
      i := ConcatMember(block, k - 1, c);
    } else {
      i := k - 1;
    }
  }

  /** Every element of each of the first `k` blocks is in their concatenation. */
  lemma {:induction false} ConcatHas<T>(block: nat -> seq<T>, k: nat, j: nat, c: T)
    requires j < k && c in block(j)
    ensures c in Concat(block, k)
  {
    if j < k - 1 {
      ConcatHas(block, k - 1, j, c);
    }
  }

  /** Concatenations of blocks that agree agree. */
  lemma {:induction false} ConcatSame<T>(f: nat -> seq<T>, g: nat -> seq<T>, k: nat)
    requires forall i: nat :: i < k ==> f(i) == g(i)
    ensures Concat(f, k) == Concat(g, k)
  {
    if k > 0 {
      ConcatSame(f, g, k - 1);
    }
  }

  /** Zone `i`'s steps, for each configured zone. */
  function ZoneBlocks(zones: seq<ZoneConfig>, colls: seq<string>, names: seq<string>,
                      faults: map<Command, string>): nat -> seq<Command> {
    (i: nat) => if i < |zones| && |names| > 0 then ZoneCommands(zones, colls, zones[i], PlanAt(names, i), faults) else []
  }

  /** The per-zone steps of the first `k` zones, in zone order. */
  function PipelineCommands(zones: seq<ZoneConfig>, colls: seq<string>, names: seq<string>,
                            faults: map<Command, string>, k: nat): seq<Command>
    requires k <= |zones| && (k > 0 ==> |names| > 0)
  {
    Concat(ZoneBlocks(zones, colls, names, faults), k)
  }

  /** The first `k + 1` zones' steps are the first `k` zones' steps followed
      by zone `k`'s. */
  lemma PipelineSnoc(zones: seq<ZoneConfig>, colls: seq<string>, names: seq<string>,
                     faults: map<Command, string>, k: nat)
    requires k < |zones| && |names| > 0
    ensures PipelineCommands(zones, colls, names, faults, k + 1)
         == PipelineCommands(zones, colls, names, faults, k) + ZoneCommands(zones, colls, zones[k], PlanAt(names, k), faults)
  {
  }

  /** One more zone's steps on top of the previous zones'. */
  lemma PipelineStep(st: State, zones: seq<ZoneConfig>, colls: seq<string>, names: seq<string>,
                     faults: map<Command, string>, k: nat)
    requires k < |zones| && |names| > 0
    ensures Run(st, faults, PipelineCommands(zones, colls, names, faults, k + 1))
         == Run(Run(st, faults, PipelineCommands(zones, colls, names, faults, k)), faults,
                ZoneCommands(zones, colls, zones[k], PlanAt(names, k), faults))
  {
    PipelineSnoc(zones, colls, names, faults, k);
    RunAppend(st, faults, PipelineCommands(zones, colls, names, faults, k),
              ZoneCommands(zones, colls, zones[k], PlanAt(names, k), faults));
  }

  /** Setup goes past its checks when `listShards` reported at least two
      shards (counting `config`) and `create_zones` succeeds. */
  predicate SetupOk(zones: seq<ZoneConfig>, shards: seq<string>) {
    |shards| >= 2 && CreateZonesOk(zones, DropConfig(shards))
  }

  /** Everything setup issues: the zone associations, then the per-zone steps. */
  function SetupCommands(zones: seq<ZoneConfig>, colls: seq<string>, shards: seq<string>,
                         faults: map<Command, string>): seq<Command>
  {
    if !SetupOk(zones, shards) then []
    else
      var names := DropConfig(shards);
      AddCommands(zones, names, |zones|) + PipelineCommands(zones, colls, names, faults, |zones|)
  }
}
