/** The compound shard key `{country: 1, region: 1}` and the zone key
    ranges installed on it. `MaxKey` is an abstract bound above every string. */
module ShardKeys {

  /** A value of the `region` field in a range bound. */
  datatype Bound = Str(s: string) | MaxKey

  /** A point of the key space: a `{country, region}` document. */
  datatype KeyPoint = KeyPoint(country: string, region: Bound)

  /** One field of a shard key specification with its direction. */
  datatype KeyField = KeyField(field: string, direction: int)

  /** The key the manager shards every tenant collection on. */
  const TenantKey: seq<KeyField> := [KeyField("country", 1), KeyField("region", 1)]

  /** Lexicographic order on strings, by character code. */
  predicate StrLess(a: string, b: string)
    decreases |a|
  {
    |b| > 0 && (|a| == 0 || a[0] < b[0] || (a[0] == b[0] && StrLess(a[1..], b[1..])))
  }

  lemma {:induction false} StrLessIrreflexive(a: string)
    ensures !StrLess(a, a)
    decreases |a|
  {
    if |a| > 0 { StrLessIrreflexive(a[1..]); }
  }

  lemma {:induction false} StrLessAsymmetric(a: string, b: string)
    ensures !(StrLess(a, b) && StrLess(b, a))
    decreases |a|
  {
    if |a| > 0 && |b| > 0 && a[0] == b[0] { StrLessAsymmetric(a[1..], b[1..]); }
  }

  lemma {:induction false} StrLessTotal(a: string, b: string)
    ensures a == b || StrLess(a, b) || StrLess(b, a)
    decreases |a|
  {
    if |a| > 0 && |b| > 0 && a[0] == b[0] {
      StrLessTotal(a[1..], b[1..]);
      if a[1..] == b[1..] { assert a == [a[0]] + a[1..] && b == [b[0]] + b[1..]; }
    }
  }

  /** Order on region bounds: strings in lexicographic order, `MaxKey` above all. */
  predicate BoundLess(a: Bound, b: Bound) {
    match (a, b)
    case (Str(x), Str(y)) => StrLess(x, y)
    case (Str(_), MaxKey) => true
    case (MaxKey, _) => false
  }

  /** The empty string is the least string bound, and `MaxKey` the greatest bound. */
  lemma BoundExtremes(s: string)
    ensures s != "" ==> BoundLess(Str(""), Str(s))
    ensures BoundLess(Str(s), MaxKey) && !BoundLess(MaxKey, Str(s)) && !BoundLess(MaxKey, MaxKey)
  {
  }

  /** Compound key order: by country, then by region. */
  predicate KeyLess(a: KeyPoint, b: KeyPoint) {
    StrLess(a.country, b.country) || (a.country == b.country && BoundLess(a.region, b.region))
  }

  /** `lo <= k < hi`: the half-open range of a zone key range. */
  predicate InRange(k: KeyPoint, lo: KeyPoint, hi: KeyPoint) {
    (k == lo || KeyLess(lo, k)) && KeyLess(k, hi)
  }

  /** Lower bound of the range of a country, `{country: c, region: ""}`:
      the least key of that country. */
  function RangeMin(country: string): (k: KeyPoint)
    ensures k.country == country
    ensures forall p: KeyPoint :: p.country == country ==> p == k || KeyLess(k, p)
  {
    KeyPoint(country, Str(""))
  }

  /** Upper bound of the range of a country, `{country: c, region: MaxKey}`:
      above every document of that country and below every key of a later
      country. */
  function RangeMax(country: string): (k: KeyPoint)
    ensures forall p: KeyPoint :: p.country == country && p.region.Str? ==> KeyLess(p, k)
    ensures forall p: KeyPoint :: StrLess(country, p.country) ==> KeyLess(k, p)
  {
    KeyPoint(country, MaxKey)
  }

  /** The range of a country holds exactly the documents of that country
      (whatever their region string). */
  lemma {:induction false} RangeCoversExactlyCountry(country: string, k: KeyPoint)
    ensures InRange(k, RangeMin(country), RangeMax(country)) <==> k.country == country && k.region.Str?
  {
    if k.country == country && k.region.Str? {
      BoundExtremes(k.region.s);
      StrLessIrreflexive(country);
    }
    if InRange(k, RangeMin(country), RangeMax(country)) {
      StrLessIrreflexive(country);
      StrLessAsymmetric(country, k.country);
      StrLessTotal(country, k.country);
    }
  }

  /** Ranges of two different countries share no key. */
  lemma CountryRangesDisjoint(c1: string, c2: string, k: KeyPoint)
    requires c1 != c2
    ensures !(InRange(k, RangeMin(c1), RangeMax(c1)) && InRange(k, RangeMin(c2), RangeMax(c2)))
  {
    RangeCoversExactlyCountry(c1, k);
    RangeCoversExactlyCountry(c2, k);
  }
}
