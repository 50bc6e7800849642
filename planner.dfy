/** The zone-to-shard planner: drop the `config` shard, then give zone `i`
    the shard at position `i`, and every zone beyond the shard count the
    last shard. */
module Planner {

  const ConfigShard: string := "config"

  /** `[s for s in shards if s != "config"]`. */
  function DropConfig(shards: seq<string>): (r: seq<string>)
    ensures forall x :: x in r <==> x in shards && x != ConfigShard
    ensures |r| <= |shards|
    ensures ConfigShard !in shards ==> r == shards
    decreases |shards|
  {
    if |shards| == 0 then []
    else
      var rest := DropConfig(shards[1..]);
      assert shards == [shards[0]] + shards[1..];
      if shards[0] == ConfigShard then rest else [shards[0]] + rest
  }

  /** Filtering keeps the order of the shards it keeps. */
  lemma {:induction false} DropConfigAppend(a: seq<string>, b: seq<string>)
    ensures DropConfig(a + b) == DropConfig(a) + DropConfig(b)
    decreases |a|
  {
    if |a| > 0 {
      assert (a + b)[1..] == a[1..] + b;
      DropConfigAppend(a[1..], b);
    } else {
      assert a + b == b;
    }
  }

  /** The shard planned for zone `i`: `shard_names[i] if i < len else shard_names[-1]`. */
  function PlanAt(names: seq<string>, i: nat): (s: string)
    requires |names| > 0
    ensures s in names
  {
    if i < |names| then names[i] else names[|names| - 1]
  }

  /** The plan for `count` zones, in zone order. */
  function Plan(names: seq<string>, count: nat): (p: seq<string>)
    requires |names| > 0
    ensures |p| == count
    ensures forall i :: 0 <= i < count ==> p[i] in names
  {
    seq(count, i requires 0 <= i < count => PlanAt(names, i))
  }

  /** Zones within the shard count get their positional shard. */
  lemma PlanPositional(names: seq<string>, count: nat, i: nat)
    requires |names| > 0 && i < count && i < |names|
    ensures Plan(names, count)[i] == names[i]
  {
  }

  /** Zones beyond the shard count all get the last shard. */
  lemma PlanOverflow(names: seq<string>, count: nat, i: nat)
    requires |names| > 0 && |names| <= i < count
    ensures Plan(names, count)[i] == names[|names| - 1]
  {
  }

  predicate Distinct(s: seq<string>) {
    forall i, j :: 0 <= i < j < |s| ==> s[i] != s[j]
  }

  /** With at least as many distinct shards as zones, no shard backs two zones. */
  lemma PlanInjective(names: seq<string>, count: nat)
    requires |names| > 0 && count <= |names| && Distinct(names)
    ensures Distinct(Plan(names, count))
  {
  }

  /** Filtering happens after the shard count is taken: two shards of which
      one is `config` pass the two-shard check, and both zones then land on
      the other shard. */
  lemma {:induction false} ConfigCountsTowardsTwo(s: string)
    requires s != ConfigShard
    ensures DropConfig([ConfigShard, s]) == [s]
    ensures Plan(DropConfig([ConfigShard, s]), 2) == [s, s]
  {
    assert [ConfigShard, s][1..] == [s];
    assert [s][1..] == [];
  }
}
