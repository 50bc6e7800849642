/** The static configuration of the demo: the zones with their tenant
    countries, database names and static shard lists, and the collection
    lists. It is an immutable value; the manager receives it at construction. */
module Config {
  import opened Wrappers

  /** One entry of the zone dictionary. `shards` is the static shard list;
      only the status report and the cleanup read it. */
  datatype ZoneConfig = ZoneConfig(
    name: string,
    shards: seq<string>,
    countries: seq<string>,
    databasePrefix: string)

  const Zones: seq<ZoneConfig> := [
    ZoneConfig("region1", ["shard00"], ["CN", "TR"], "app_region1"),
    ZoneConfig("region2", ["shard01"], ["AE", "US", "EU", "GB"], "app_region2")
  ]

  const DemoDataSize: int := 1000
  const CommonCollections: seq<string> := ["users", "products", "categories"]
  const TenantCollections: seq<string> := ["orders", "transactions", "logs"]

  /** Zone names are dictionary keys, hence distinct. */
  predicate NamesDistinct(zones: seq<ZoneConfig>) {
    forall i, j :: 0 <= i < j < |zones| ==> zones[i].name != zones[j].name
  }

  /** No tenant country is declared in two zones. */
  predicate CountriesDisjoint(zones: seq<ZoneConfig>) {
    forall i, j, c :: 0 <= i < j < |zones| && c in zones[i].countries ==> c !in zones[j].countries
  }

  /** Every zone has its own database. */
  predicate PrefixesDistinct(zones: seq<ZoneConfig>) {
    forall i, j :: 0 <= i < j < |zones| ==> zones[i].databasePrefix != zones[j].databasePrefix
  }

  predicate WellFormed(zones: seq<ZoneConfig>) {
    NamesDistinct(zones) && CountriesDisjoint(zones) && PrefixesDistinct(zones)
  }

  /** `zones.get(name)`: the entry whose key is `name`, if any (the first one,
      which is the only one when names are distinct). */
  function Lookup(zones: seq<ZoneConfig>, name: string): Option<ZoneConfig>
    decreases |zones|
  {
    if |zones| == 0 then None
    else if zones[0].name == name then Some(zones[0])
    else Lookup(zones[1..], name)
  }

  /** The lookup finds nothing exactly when no zone has the name; what it
      finds is a configured zone with that name. */
  lemma {:induction false} LookupFinds(zones: seq<ZoneConfig>, name: string)
    ensures Lookup(zones, name).None? <==> forall i :: 0 <= i < |zones| ==> zones[i].name != name
    ensures Lookup(zones, name).Some? ==> Lookup(zones, name).value in zones && Lookup(zones, name).value.name == name
    decreases |zones|
  {
    if |zones| > 0 && zones[0].name != name {
      LookupFinds(zones[1..], name);
      assert forall i :: 0 < i < |zones| ==> zones[i] == zones[1..][i - 1];
    }
  }

  lemma {:induction false} LookupAt(zones: seq<ZoneConfig>, i: nat)
    requires NamesDistinct(zones) && i < |zones|
    ensures Lookup(zones, zones[i].name) == Some(zones[i])
    decreases i
  {
    if i > 0 {
      assert zones[0].name != zones[i].name;
      assert zones[1..][i - 1] == zones[i];
      assert NamesDistinct(zones[1..]) by {
        forall a, b | 0 <= a < b < |zones[1..]| ensures zones[1..][a].name != zones[1..][b].name {
          assert zones[1..][a] == zones[a + 1] && zones[1..][b] == zones[b + 1];
        }
      }
      LookupAt(zones[1..], i - 1);
    }
  }

  /** The zone a tenant country belongs to, if any. */
  function ZoneOfTenant(zones: seq<ZoneConfig>, country: string): (r: Option<string>)
    ensures r.None? <==> forall i :: 0 <= i < |zones| ==> country !in zones[i].countries
    ensures r.Some? ==> exists i :: 0 <= i < |zones| && zones[i].name == r.value && country in zones[i].countries
    decreases |zones|
  {
    if |zones| == 0 then None
    else if country in zones[0].countries then Some(zones[0].name)
    else
      var r := ZoneOfTenant(zones[1..], country);
      assert forall i :: 0 < i < |zones| ==> zones[i] == zones[1..][i - 1];
      r
  }

  /** With disjoint country lists, a country declared by zone `i` belongs to
      that zone and to no other. */
  lemma {:induction false} TenantInExactlyOneZone(zones: seq<ZoneConfig>, i: nat, country: string)
    requires CountriesDisjoint(zones) && i < |zones| && country in zones[i].countries
    ensures ZoneOfTenant(zones, country) == Some(zones[i].name)
    ensures forall j :: 0 <= j < |zones| && j != i ==> country !in zones[j].countries
    decreases i
  {
    if i > 0 {
      assert country !in zones[0].countries;
      assert zones[1..][i - 1] == zones[i];
      assert CountriesDisjoint(zones[1..]) by {
        forall a, b, c | 0 <= a < b < |zones[1..]| && c in zones[1..][a].countries
          ensures c !in zones[1..][b].countries
        {
          assert zones[1..][a] == zones[a + 1] && zones[1..][b] == zones[b + 1];
        }
      }
      TenantInExactlyOneZone(zones[1..], i - 1, country);
    }
  }

  /** The invariants the configuration literal satisfies. */
  lemma ConfigInvariants()
    ensures |Zones| == 2 && Zones[0].name == "region1" && Zones[1].name == "region2"
    ensures WellFormed(Zones)
    ensures Zones[0].databasePrefix == "app_region1" && Zones[1].databasePrefix == "app_region2"
    ensures Zones[0].shards == ["shard00"] && Zones[1].shards == ["shard01"]
    ensures |CommonCollections| > 0 && |TenantCollections| > 0
    ensures forall c :: c in CommonCollections ==> c !in TenantCollections
    ensures DemoDataSize > 0
  {
  }

  /** Each configured country belongs to exactly one zone. */
  lemma ConfiguredTenantZones()
    ensures ZoneOfTenant(Zones, "CN") == Some("region1") && ZoneOfTenant(Zones, "TR") == Some("region1")
    ensures ZoneOfTenant(Zones, "AE") == Some("region2") && ZoneOfTenant(Zones, "US") == Some("region2")
    ensures ZoneOfTenant(Zones, "EU") == Some("region2") && ZoneOfTenant(Zones, "GB") == Some("region2")
  {
    ConfigInvariants();
    TenantInExactlyOneZone(Zones, 0, "CN");
    TenantInExactlyOneZone(Zones, 0, "TR");
    TenantInExactlyOneZone(Zones, 1, "AE");
    TenantInExactlyOneZone(Zones, 1, "US");
    TenantInExactlyOneZone(Zones, 1, "EU");
    TenantInExactlyOneZone(Zones, 1, "GB");
  }
}
