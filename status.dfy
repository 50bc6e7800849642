/** The zone status report: for each configured zone, its static shard
    list, countries and database, and the `listShards` entry of each of its
    static shards that the cluster reports. */
module Status {
  import opened Config
  import opened Admin

  datatype ZoneInfo = ZoneInfo(
    configuredShards: seq<string>,
    countries: seq<string>,
    database: string,
    shardDetails: map<string, ShardDoc>)

  /** `{shard["_id"]: shard for shard in shards}`: a later entry with the
      same id replaces an earlier one. */
  function IndexById(docs: seq<ShardDoc>): (m: map<string, ShardDoc>)
    ensures m.Keys == set d | d in docs :: d.id
    ensures forall id :: id in m ==> m[id] in docs && m[id].id == id
    decreases |docs|
  {
    if docs == [] then map[]
    else
      var init := docs[..|docs| - 1];
      var last := docs[|docs| - 1];
      var m := IndexById(init);
      assert docs == init + [last];
      m[last.id := last]
  }

  /** The entry an id is indexed by is the last reported entry with that id. */
  lemma {:induction false} IndexByIdLast(docs: seq<ShardDoc>, i: nat)
    requires i < |docs|
    requires forall j :: i < j < |docs| ==> docs[j].id != docs[i].id
    ensures IndexById(docs)[docs[i].id] == docs[i]
    decreases |docs|
  {
    var init := docs[..|docs| - 1];
    if i < |docs| - 1 {
      assert init[i] == docs[i];
      forall j | i < j < |init| ensures init[j].id != init[i].id {
        assert init[j] == docs[j];
      }
      IndexByIdLast(init, i);
    }
  }

  /** The status entry of one zone. */
  function ZoneInfoOf(z: ZoneConfig, index: map<string, ShardDoc>): ZoneInfo {
    ZoneInfo(z.shards, z.countries, z.databasePrefix, map s | s in z.shards && s in index :: index[s])
  }

  /** A zone's shard details hold exactly its static shards that `listShards`
      reports, each with the reported entry of that id. */
  lemma ZoneInfoDetails(z: ZoneConfig, docs: seq<ShardDoc>, s: string)
    ensures s in ZoneInfoOf(z, IndexById(docs)).shardDetails <==> s in z.shards && exists d :: d in docs && d.id == s
    ensures s in ZoneInfoOf(z, IndexById(docs)).shardDetails ==>
      var d := ZoneInfoOf(z, IndexById(docs)).shardDetails[s]; d in docs && d.id == s
  {
    var index := IndexById(docs);
    if s in z.shards && exists d :: d in docs && d.id == s {
      var d :| d in docs && d.id == s;
      assert s in (set d | d in docs :: d.id);
    }
  }
}
