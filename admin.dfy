/** The administrative command channel of the sharded cluster, abstracted.
    The cluster's decision whether a command fails, and with which message,
    is an input (`faults`); a command that does not fail takes effect. */
module Admin {
  import opened Wrappers
  import opened ShardKeys

  /** `listShards` reports each shard's `_id` and host. */
  datatype ShardDoc = ShardDoc(id: string, host: string)

  /** `database.collection`. */
  datatype Namespace = Namespace(db: string, coll: string)

  /** The state-changing admin commands the manager issues. */
  datatype Command =
    | AddShardToZone(shard: string, zone: string)
    | RemoveShardFromZone(shard: string, zone: string)
    | RemoveZone(zone: string)
    | EnableSharding(db: string)
    | MovePrimary(db: string, to: string)
    | ShardCollection(ns: Namespace, key: seq<KeyField>)
    | UpdateZoneKeyRange(ns: Namespace, min: KeyPoint, max: KeyPoint, zone: string)

  /** The reply to a command: success, or a failure with its message (`str(e)`). */
  datatype CmdResult = Ok | Err(msg: string)

  /** A zone key range installed on a collection. */
  datatype ZoneRange = ZoneRange(ns: Namespace, min: KeyPoint, max: KeyPoint, zone: string)

  /** The cluster's configuration state, and the commands issued so far. */
  datatype State = State(
    zoneShards: set<(string, string)>,      // (shard, zone) associations
    zoneNames: set<string>,
    shardedDbs: set<string>,
    primaries: map<string, string>,          // database -> primary shard
    collections: map<Namespace, seq<KeyField>>,
    ranges: seq<ZoneRange>,
    log: seq<Command>)

  function Respond(faults: map<Command, string>, cmd: Command): (r: CmdResult)
    ensures r.Err? <==> cmd in faults
    ensures r.Err? ==> r.msg == faults[cmd]
  {
    if cmd in faults then Err(faults[cmd]) else Ok
  }

  /** The effect of a command that succeeds. */
  function Effect(st: State, cmd: Command): State {
    match cmd
    case AddShardToZone(s, z) => st.(zoneShards := st.zoneShards + {(s, z)}, zoneNames := st.zoneNames + {z})
    case RemoveShardFromZone(s, z) => st.(zoneShards := st.zoneShards - {(s, z)})
    case RemoveZone(z) => st.(zoneNames := st.zoneNames - {z})
    case EnableSharding(db) => st.(shardedDbs := st.shardedDbs + {db})
    case MovePrimary(db, to) => st.(primaries := st.primaries[db := to])
    case ShardCollection(ns, key) => st.(collections := st.collections[ns := key])
    case UpdateZoneKeyRange(ns, lo, hi, z) => st.(ranges := st.ranges + [ZoneRange(ns, lo, hi, z)])
  }

  /** Issuing one command: it is logged; it takes effect unless it fails. */
  function Exec(st: State, faults: map<Command, string>, cmd: Command): (r: State)
    ensures r.log == st.log + [cmd]
    ensures cmd in faults ==> r == st.(log := st.log + [cmd])
  {
    var logged := st.(log := st.log + [cmd]);
    if cmd in faults then logged else Effect(logged, cmd)
  }

  /** Issuing a sequence of commands in order. */
  function Run(st: State, faults: map<Command, string>, cmds: seq<Command>): (r: State)
    decreases |cmds|
  {
    if cmds == [] then st
    else Exec(Run(st, faults, cmds[..|cmds| - 1]), faults, cmds[|cmds| - 1])
  }

  lemma RunSnoc(st: State, faults: map<Command, string>, cmds: seq<Command>, cmd: Command)
    ensures Run(st, faults, cmds + [cmd]) == Exec(Run(st, faults, cmds), faults, cmd)
  {
    assert (cmds + [cmd])[..|cmds|] == cmds;
  }

  lemma {:induction false} RunAppend(st: State, faults: map<Command, string>, a: seq<Command>, b: seq<Command>)
    ensures Run(st, faults, a + b) == Run(Run(st, faults, a), faults, b)
    decreases |b|
  {
    if b == [] {
      assert a + b == a;
    } else {
      var b' := b[..|b| - 1];
      assert a + b == (a + b') + [b[|b| - 1]];
      assert b == b' + [b[|b| - 1]];
      RunSnoc(st, faults, a + b', b[|b| - 1]);
      RunSnoc(Run(st, faults, a), faults, b', b[|b| - 1]);
      RunAppend(st, faults, a, b');
    }
  }

  /** The log records exactly the commands issued. */
  lemma {:induction false} RunLog(st: State, faults: map<Command, string>, cmds: seq<Command>)
    ensures Run(st, faults, cmds).log == st.log + cmds
    decreases |cmds|
  {
    if cmds != [] {
      RunLog(st, faults, cmds[..|cmds| - 1]);
      assert cmds == cmds[..|cmds| - 1] + [cmds[|cmds| - 1]];
    }
  }

  /** The ranges a command sequence installs: its successful range commands, in order. */
  function InstalledRanges(faults: map<Command, string>, cmds: seq<Command>): (r: seq<ZoneRange>)
    ensures |r| <= |cmds|
    decreases |cmds|
  {
    if cmds == [] then []
    else
      var init := InstalledRanges(faults, cmds[..|cmds| - 1]);
      var last := cmds[|cmds| - 1];
      if last.UpdateZoneKeyRange? && last !in faults
      then init + [ZoneRange(last.ns, last.min, last.max, last.zone)]
      else init
  }

  /** No command removes a range: the ranges after a run are the ranges
      before it followed by those the run installed. */
  lemma {:induction false} RunRanges(st: State, faults: map<Command, string>, cmds: seq<Command>)
    ensures Run(st, faults, cmds).ranges == st.ranges + InstalledRanges(faults, cmds)
    decreases |cmds|
  {
    if cmds != [] {
      RunRanges(st, faults, cmds[..|cmds| - 1]);
    }
  }

  /** A range is installed by a run exactly when one of its range commands succeeds. */
  lemma {:induction false} InstalledRangesMembers(faults: map<Command, string>, cmds: seq<Command>, rg: ZoneRange)
    ensures rg in InstalledRanges(faults, cmds) <==>
      exists c :: c in cmds && c == UpdateZoneKeyRange(rg.ns, rg.min, rg.max, rg.zone) && c !in faults
    decreases |cmds|
  {
    if cmds != [] {
      var init := cmds[..|cmds| - 1];
      InstalledRangesMembers(faults, init, rg);
      assert cmds == init + [cmds[|cmds| - 1]];
      var c := UpdateZoneKeyRange(rg.ns, rg.min, rg.max, rg.zone);
      if c in cmds && c !in faults && c !in init {
        assert c == cmds[|cmds| - 1];
      }
    }
  }

  /** The associations a sequence of commands without removals adds. */
  function AddedAssociations(faults: map<Command, string>, cmds: seq<Command>): set<(string, string)> {
    set c | c in cmds && c.AddShardToZone? && c !in faults :: (c.shard, c.zone)
  }

  /** Without removal commands, associations only grow, by the successful additions. */
  lemma {:induction false} RunAssociationsGrow(st: State, faults: map<Command, string>, cmds: seq<Command>)
    requires forall c :: c in cmds ==> !c.RemoveShardFromZone?
    ensures Run(st, faults, cmds).zoneShards == st.zoneShards + AddedAssociations(faults, cmds)
    decreases |cmds|
  {
    if cmds != [] {
      var init := cmds[..|cmds| - 1];
      assert cmds == init + [cmds[|cmds| - 1]];
      RunAssociationsGrow(st, faults, init);
    }
  }

  /** No command disables sharding: once a run's `enableSharding` of a
      database succeeds, the database stays sharding-enabled. */
  lemma {:induction false} RunShardedDbs(st: State, faults: map<Command, string>, cmds: seq<Command>, db: string)
    requires EnableSharding(db) in cmds && EnableSharding(db) !in faults
    ensures db in Run(st, faults, cmds).shardedDbs
    decreases |cmds|
  {
    var init := cmds[..|cmds| - 1];
    var last := cmds[|cmds| - 1];
    assert cmds == init + [last];
    if last != EnableSharding(db) {
      assert EnableSharding(db) in init;
      RunShardedDbs(st, faults, init, db);
    }
  }

  /** A database's primary after a run: if every `movePrimary` of it in the
      run names the same shard and one of them succeeds, that shard. */
  lemma {:induction false} RunPrimary(st: State, faults: map<Command, string>, cmds: seq<Command>, db: string, shard: string)
    requires forall c :: c in cmds && c.MovePrimary? && c.db == db ==> c.to == shard
    requires MovePrimary(db, shard) in cmds && MovePrimary(db, shard) !in faults
    ensures db in Run(st, faults, cmds).primaries && Run(st, faults, cmds).primaries[db] == shard
    decreases |cmds|
  {
    var init := cmds[..|cmds| - 1];
    var last := cmds[|cmds| - 1];
    assert cmds == init + [last];
    if last != MovePrimary(db, shard) || last in faults {
      assert MovePrimary(db, shard) in init;
      RunPrimary(st, faults, init, db, shard);
    }
  }

  /** A collection's shard key after a run that shards it successfully with
      the same key every time it tries. */
  lemma {:induction false} RunCollection(st: State, faults: map<Command, string>, cmds: seq<Command>, ns: Namespace, key: seq<KeyField>)
    requires forall c :: c in cmds && c.ShardCollection? && c.ns == ns ==> c.key == key
    requires ShardCollection(ns, key) in cmds && ShardCollection(ns, key) !in faults
    ensures ns in Run(st, faults, cmds).collections && Run(st, faults, cmds).collections[ns] == key
    decreases |cmds|
  {
    var init := cmds[..|cmds| - 1];
    var last := cmds[|cmds| - 1];
    assert cmds == init + [last];
    if last != ShardCollection(ns, key) || last in faults {
      assert ShardCollection(ns, key) in init;
      RunCollection(st, faults, init, ns, key);
    }
  }

  /** The associations the successful removals of a run take away. */
  function RemovedAssociations(faults: map<Command, string>, cmds: seq<Command>): set<(string, string)> {
    set c | c in cmds && c.RemoveShardFromZone? && c !in faults :: (c.shard, c.zone)
  }

  /** A run of removals only takes associations away, the successful ones. */
  lemma {:induction false} RunRemovals(st: State, faults: map<Command, string>, cmds: seq<Command>)
    requires forall c :: c in cmds ==> c.RemoveShardFromZone?
    ensures var after := Run(st, faults, cmds);
      && after.zoneShards == st.zoneShards - RemovedAssociations(faults, cmds)
      && after.zoneNames == st.zoneNames && after.shardedDbs == st.shardedDbs && after.primaries == st.primaries
      && after.collections == st.collections && after.ranges == st.ranges
    decreases |cmds|
  {
    if cmds != [] {
      var init, last := cmds[..|cmds| - 1], cmds[|cmds| - 1];
      assert cmds == init + [last];
      assert forall c :: c in init ==> c in cmds;
      RunRemovals(st, faults, init);
      assert Run(st, faults, cmds) == Exec(Run(st, faults, init), faults, last);
      assert RemovedAssociations(faults, cmds)
          == RemovedAssociations(faults, init) + (if last !in faults then {(last.shard, last.zone)} else {});
    }
  }

  /** The zones the successful `removeZone`s of a run take away. */
  function RemovedZones(faults: map<Command, string>, cmds: seq<Command>): set<string> {
    set c | c in cmds && c.RemoveZone? && c !in faults :: c.zone
  }

  /** A run of zone removals only takes zone names away, the successful ones. */
  lemma {:induction false} RunZoneRemovals(st: State, faults: map<Command, string>, cmds: seq<Command>)
    requires forall c :: c in cmds ==> c.RemoveZone?
    ensures var after := Run(st, faults, cmds);
      && after.zoneNames == st.zoneNames - RemovedZones(faults, cmds)
      && after.zoneShards == st.zoneShards && after.shardedDbs == st.shardedDbs && after.primaries == st.primaries
      && after.collections == st.collections && after.ranges == st.ranges
    decreases |cmds|
  {
    if cmds != [] {
      var init, last := cmds[..|cmds| - 1], cmds[|cmds| - 1];
      assert cmds == init + [last];
      assert forall c :: c in init ==> c in cmds;
      RunZoneRemovals(st, faults, init);
      assert Run(st, faults, cmds) == Exec(Run(st, faults, init), faults, last);
      assert RemovedZones(faults, cmds) == RemovedZones(faults, init) + (if last !in faults then {last.zone} else {});
    }
  }

  /** The cluster as seen through its admin channel. */
  class Cluster {
    /** The reply to `listShards`; `None` when the command raises. */
    const shardReply: Option<seq<ShardDoc>>
    /** The commands that fail, with their messages. */
    const faults: map<Command, string>

    var zoneShards: set<(string, string)>
    var zoneNames: set<string>
    var shardedDbs: set<string>
    var primaries: map<string, string>
    var collections: map<Namespace, seq<KeyField>>
    var ranges: seq<ZoneRange>
    var log: seq<Command>

    function Snapshot(): State
      reads this
    {
      State(zoneShards, zoneNames, shardedDbs, primaries, collections, ranges, log)
    }

    constructor (shardReply: Option<seq<ShardDoc>>, faults: map<Command, string>, initial: State)
      ensures this.shardReply == shardReply && this.faults == faults
      ensures Snapshot() == initial
    {
      this.shardReply := shardReply;
      this.faults := faults;
      zoneShards := initial.zoneShards;
      zoneNames := initial.zoneNames;
      shardedDbs := initial.shardedDbs;
      primaries := initial.primaries;
      collections := initial.collections;
      ranges := initial.ranges;
      log := initial.log;
    }

    /** `listShards`: read-only. */
    method ListShards() returns (r: Option<seq<ShardDoc>>)
      ensures r == shardReply
    {
      r := shardReply;
    }

    method AddShardToZone(shard: string, zone: string) returns (r: CmdResult)
      modifies this
      ensures r == Respond(faults, Command.AddShardToZone(shard, zone))
      ensures Snapshot() == Exec(old(Snapshot()), faults, Command.AddShardToZone(shard, zone))
    {
      var cmd := Command.AddShardToZone(shard, zone);
      log := log + [cmd];
      if cmd in faults {
        r := Err(faults[cmd]);
      } else {
        zoneShards := zoneShards + {(shard, zone)};
        zoneNames := zoneNames + {zone};
        r := Ok;
      }
    }

    method RemoveShardFromZone(shard: string, zone: string) returns (r: CmdResult)
      modifies this
      ensures r == Respond(faults, Command.RemoveShardFromZone(shard, zone))
      ensures Snapshot() == Exec(old(Snapshot()), faults, Command.RemoveShardFromZone(shard, zone))
    {
      var cmd := Command.RemoveShardFromZone(shard, zone);
      log := log + [cmd];
      if cmd in faults {
        r := Err(faults[cmd]);
      } else {
        zoneShards := zoneShards - {(shard, zone)};
        r := Ok;
      }
    }

    method RemoveZone(zone: string) returns (r: CmdResult)
      modifies this
      ensures r == Respond(faults, Command.RemoveZone(zone))
      ensures Snapshot() == Exec(old(Snapshot()), faults, Command.RemoveZone(zone))
    {
      var cmd := Command.RemoveZone(zone);
      log := log + [cmd];
      if cmd in faults {
        r := Err(faults[cmd]);
      } else {
        zoneNames := zoneNames - {zone};
        r := Ok;
      }
    }

    method EnableSharding(db: string) returns (r: CmdResult)
      modifies this
      ensures r == Respond(faults, Command.EnableSharding(db))
      ensures Snapshot() == Exec(old(Snapshot()), faults, Command.EnableSharding(db))
    {
      var cmd := Command.EnableSharding(db);
      log := log + [cmd];
      if cmd in faults {
        r := Err(faults[cmd]);
      } else {
        shardedDbs := shardedDbs + {db};
        r := Ok;
      }
    }

    method MovePrimary(db: string, to: string) returns (r: CmdResult)
      modifies this
      ensures r == Respond(faults, Command.MovePrimary(db, to))
      ensures Snapshot() == Exec(old(Snapshot()), faults, Command.MovePrimary(db, to))
    {
      var cmd := Command.MovePrimary(db, to);
      log := log + [cmd];
      if cmd in faults {
        r := Err(faults[cmd]);
      } else {
        primaries := primaries[db := to];
        r := Ok;
      }
    }

    method ShardCollection(ns: Namespace, key: seq<KeyField>) returns (r: CmdResult)
      modifies this
      ensures r == Respond(faults, Command.ShardCollection(ns, key))
      ensures Snapshot() == Exec(old(Snapshot()), faults, Command.ShardCollection(ns, key))
    {
      var cmd := Command.ShardCollection(ns, key);
      log := log + [cmd];
      if cmd in faults {
        r := Err(faults[cmd]);
      } else {
        collections := collections[ns := key];
        r := Ok;
      }
    }

    method UpdateZoneKeyRange(ns: Namespace, min: KeyPoint, max: KeyPoint, zone: string) returns (r: CmdResult)
      modifies this
      ensures r == Respond(faults, Command.UpdateZoneKeyRange(ns, min, max, zone))
      ensures Snapshot() == Exec(old(Snapshot()), faults, Command.UpdateZoneKeyRange(ns, min, max, zone))
    {
      var cmd := Command.UpdateZoneKeyRange(ns, min, max, zone);
      log := log + [cmd];
      if cmd in faults {
        r := Err(faults[cmd]);
      } else {
        ranges := ranges + [ZoneRange(ns, min, max, zone)];
        r := Ok;
      }
    }
  }
}
