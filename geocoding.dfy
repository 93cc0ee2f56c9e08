/** The city lookup of the geocoding service: the least-recently-used cache
    that fronts the geocoder, the edit distance behind fuzzy matches, the
    tiered scoring and ranking of `searchCities`, and `getCityById`.  The
    bundled city table is a parameter. */
module Geocoding {
  import opened Wrappers
  import opened Text
  import Sorting

  // ---------------------------------------------------------------------
  // LRUCache

  predicate Distinct<K(==)>(s: seq<K>) {
    forall i, j :: 0 <= i < j < |s| ==> s[i] != s[j]
  }

  /** `s` with `k` removed and the other keys in their order. */
  function Without<K(==, !new)>(s: seq<K>, k: K): (r: seq<K>)
    ensures forall x :: x in r <==> x in s && x != k
    ensures |r| <= |s|
  {
    if s == [] then []
    else if s[0] == k then Without(s[1..], k)
    else [s[0]] + Without(s[1..], k)
  }

  /** Removing a key of a duplicate-free sequence deletes exactly its
      position and nothing else. */
  lemma {:induction false} WithoutAt<K(!new)>(s: seq<K>, p: nat)
    requires Distinct(s) && p < |s|
    ensures Without(s, s[p]) == s[..p] + s[p + 1..]
  {
    if p == 0 {
      WithoutAbsent(s[1..], s[0]);
    } else {
      assert Distinct(s[1..]);
      WithoutAt(s[1..], p - 1);
      assert s[1..][..p - 1] == s[1..p];
      assert s[1..][p..] == s[p + 1..];
    }
  }

  lemma {:induction false} WithoutAbsent<K(!new)>(s: seq<K>, k: K)
    requires k !in s
    ensures Without(s, k) == s
  {
    if s != [] {
      WithoutAbsent(s[1..], k);
    }
  }

  lemma WithoutDistinct<K(!new)>(s: seq<K>, k: K)
    requires Distinct(s)
    ensures Distinct(Without(s, k))
    ensures |Without(s, k)| == if k in s then |s| - 1 else |s|
  {
    if k in s {
      var p :| 0 <= p < |s| && s[p] == k;
      WithoutAt(s, p);
    } else {
      WithoutAbsent(s, k);
    }
  }

  /** The number of entries the cache keeps: `maxSize`, except that a
      non-positive `maxSize` still lets the entry just written in. */
  function Capacity(maxSize: int): nat {
    if maxSize < 1 then 1 else maxSize
  }

  /** `LRUCache<K, V>`: a JavaScript `Map`, whose keys iterate in insertion
      order, so the first key is the least recently used. */
  class LruCache<K(==, !new), V> {
    var keys: seq<K>
    var values: map<K, V>
    const maxSize: int

    ghost predicate Valid()
      reads this
    {
      Distinct(keys) && (forall k :: k in values <==> k in keys) && |keys| <= Capacity(maxSize)
    }

    constructor (maxSize: int)
      ensures Valid() && keys == [] && values == map[] && this.maxSize == maxSize
    {
      keys := [];
      values := map[];
      this.maxSize := maxSize;
    }

    /** `Map.prototype.delete`. */
    method Delete(key: K)
      modifies this`keys, this`values
      ensures keys == Without(old(keys), key) && values == old(values) - {key}
    {
      keys := Without(keys, key);
      values := values - {key};
    }

    /** `Map.prototype.set`: a new key goes last, an existing one keeps its
        place. */
    method Put(key: K, value: V)
      modifies this`keys, this`values
      ensures keys == if key in old(keys) then old(keys) else old(keys) + [key]
      ensures values == old(values)[key := value]
    {
      if key !in keys {
        keys := keys + [key];
      }
      values := values[key := value];
    }

    /** `get`: a hit is moved to the most recent end; a miss changes
        nothing. */
    method Get(key: K) returns (r: Option<V>)
      requires Valid()
      modifies this`keys, this`values
      ensures Valid() && values == old(values)
      ensures r == if key in old(values) then Some(old(values)[key]) else None
      ensures keys == if key in old(values) then Without(old(keys), key) + [key] else old(keys)
    {
      if key !in values {
        return None;
      }
      var value := values[key];
      Delete(key);
      Put(key, value);
      WithoutDistinct(old(keys), key);
      r := Some(value);
    }

    /** `set`: an existing key is moved to the end; a new key into a full
        cache evicts the first (oldest) key. */
    method Set(key: K, value: V)
      requires Valid()
      modifies this`keys, this`values
      ensures Valid()
      ensures key in old(values) ==>
        keys == Without(old(keys), key) + [key] && values == old(values)[key := value]
      ensures key !in old(values) && |old(keys)| < maxSize ==>
        keys == old(keys) + [key] && values == old(values)[key := value]
      ensures key !in old(values) && |old(keys)| >= maxSize && old(keys) != [] ==>
        keys == old(keys)[1..] + [key] && values == (old(values) - {old(keys)[0]})[key := value]
      ensures key !in old(values) && old(keys) == [] ==> keys == [key] && values == map[key := value]
    {
      if key in values {
        Delete(key);
        WithoutDistinct(old(keys), key);
      } else if |keys| >= maxSize && keys != [] {
        var first := keys[0];
        Delete(first);
        WithoutAt(old(keys), 0);
      }
      Put(key, value);
    }

    /** `has`: reads only, so neither the entries nor their order change. */
    method Has(key: K) returns (b: bool)
      requires Valid()
      ensures b == (key in keys) && b == (key in values)
    {
      b := key in values;
    }
  }

  /** Writing a key and then reading it gives back the value written. */
  method GetAfterSet<K(==, !new), V>(cache: LruCache<K, V>, key: K, value: V) returns (r: Option<V>)
    requires cache.Valid()
    modifies cache
    ensures cache.Valid() && r == Some(value)
    ensures 0 < |cache.keys| <= Capacity(cache.maxSize) && cache.keys[|cache.keys| - 1] == key
  {
    cache.Set(key, value);
    r := cache.Get(key);
  }

  /** The service's cache of geocoding results. */
  const GeocodingCacheSize := 100

  // ---------------------------------------------------------------------
  // getLevenshteinDistance

  function Min3(x: nat, y: nat, z: nat): (m: nat)
    ensures m <= x && m <= y && m <= z && (m == x || m == y || m == z)
  {
    if x <= y && x <= z then x else if y <= z then y else z
  }

  /** `matrix[i][j]` of `getLevenshteinDistance(a, b)`: rows follow `b`,
      columns follow `a`, and a matching pair copies the diagonal. */
  function Entry(a: string, b: string, i: nat, j: nat): nat
    requires i <= |b| && j <= |a|
    decreases i + j
  {
    if i == 0 then j
    else if j == 0 then i
    else if b[i - 1] == a[j - 1] then Entry(a, b, i - 1, j - 1)
    else Min3(Entry(a, b, i - 1, j - 1) + 1, Entry(a, b, i, j - 1) + 1, Entry(a, b, i - 1, j) + 1)
  }

  function EditDistance(a: string, b: string): nat {
    Entry(a, b, |b|, |a|)
  }

  /** The textbook Levenshtein recurrence over prefixes, in which keeping a
      matching pair is one option among the three edits. */
  function Levenshtein(a: string, b: string, i: nat, j: nat): nat
    requires i <= |b| && j <= |a|
    decreases i + j
  {
    if i == 0 then j
    else if j == 0 then i
    else Min3(Levenshtein(a, b, i - 1, j - 1) + (if b[i - 1] == a[j - 1] then 0 else 1),
              Levenshtein(a, b, i, j - 1) + 1, Levenshtein(a, b, i - 1, j) + 1)
  }

  /** Each edit changes the length by at most one. */
  lemma {:induction false} LevenshteinLower(a: string, b: string, i: nat, j: nat)
    requires i <= |b| && j <= |a|
    ensures Levenshtein(a, b, i, j) >= i - j && Levenshtein(a, b, i, j) >= j - i
    decreases i + j
  {
    if i > 0 && j > 0 {
      LevenshteinLower(a, b, i - 1, j - 1);
      LevenshteinLower(a, b, i, j - 1);
      LevenshteinLower(a, b, i - 1, j);
    }
  }

  /** Dropping the last character of `a` changes the distance by at most one. */
  lemma {:induction false} LevenshteinColumnStep(a: string, b: string, i: nat, j: nat)
    requires i <= |b| && 1 <= j <= |a|
    ensures Levenshtein(a, b, i, j - 1) <= Levenshtein(a, b, i, j) + 1
    decreases i
  {
    if i == 0 {
    } else if j == 1 {
      LevenshteinLower(a, b, i, 1);
    } else {
      LevenshteinColumnStep(a, b, i - 1, j);
    }
  }

  /** Dropping the last character of `b` changes the distance by at most one. */
  lemma {:induction false} LevenshteinRowStep(a: string, b: string, i: nat, j: nat)
    requires 1 <= i <= |b| && j <= |a|
    ensures Levenshtein(a, b, i - 1, j) <= Levenshtein(a, b, i, j) + 1
    decreases j
  {
    if j == 0 {
    } else if i == 1 {
      LevenshteinLower(a, b, 1, j);
    } else {
      LevenshteinRowStep(a, b, i, j - 1);
    }
  }

  /** Copying the diagonal on a match, as the source does, gives the
      textbook distance: keeping the match is never worse than an edit. */
  lemma {:induction false} EntryIsLevenshtein(a: string, b: string, i: nat, j: nat)
    requires i <= |b| && j <= |a|
    ensures Entry(a, b, i, j) == Levenshtein(a, b, i, j)
    decreases i + j
  {
    if i > 0 && j > 0 {
      EntryIsLevenshtein(a, b, i - 1, j - 1);
      EntryIsLevenshtein(a, b, i, j - 1);
      EntryIsLevenshtein(a, b, i - 1, j);
      if b[i - 1] == a[j - 1] {
        LevenshteinRowStep(a, b, i, j - 1);
        LevenshteinColumnStep(a, b, i - 1, j);
      }
    }
  }

  lemma {:induction false} EntryUpper(a: string, b: string, i: nat, j: nat)
    requires i <= |b| && j <= |a|
    ensures Entry(a, b, i, j) <= if i < j then j else i
    decreases i + j
  {
    if i > 0 && j > 0 {
      EntryUpper(a, b, i - 1, j - 1);
    }
  }

  lemma {:induction false} EntryDiagonal(a: string, k: nat)
    requires k <= |a|
    ensures Entry(a, a, k, k) == 0
  {
    if k > 0 {
      EntryDiagonal(a, k - 1);
    }
  }

  /** The distance of a string to itself is 0, to or from the empty string
      it is the other's length, and in general it lies between the
      difference of the lengths and the longer length. */
  lemma EditDistanceBounds(a: string, b: string)
    ensures EditDistance(a, a) == 0
    ensures EditDistance("", b) == |b| && EditDistance(a, "") == |a|
    ensures EditDistance(a, b) >= |a| - |b| && EditDistance(a, b) >= |b| - |a|
    ensures EditDistance(a, b) <= if |a| < |b| then |b| else |a|
  {
    EntryDiagonal(a, |a|);
    EntryIsLevenshtein(a, b, |b|, |a|);
    LevenshteinLower(a, b, |b|, |a|);
    EntryUpper(a, b, |b|, |a|);
  }

  /** Rows `0 .. n-1` of the matrix hold their entries. */
  ghost predicate RowsDone(matrix: array2<nat>, a: string, b: string, n: nat)
    reads matrix
    requires matrix.Length0 == |b| + 1 && matrix.Length1 == |a| + 1 && n <= |b| + 1
  {
    forall r, c {:trigger matrix[r, c]} :: 0 <= r < n && 0 <= c <= |a| ==> matrix[r, c] == Entry(a, b, r, c)
  }

  /** The inner loop of `getLevenshteinDistance`: fills row `i` from row
      `i - 1` and the row's first cell. */
  method FillRow(matrix: array2<nat>, a: string, b: string, i: nat)
    requires matrix.Length0 == |b| + 1 && matrix.Length1 == |a| + 1 && 1 <= i <= |b|
    requires RowsDone(matrix, a, b, i) && matrix[i, 0] == i
    modifies matrix
    ensures RowsDone(matrix, a, b, i + 1)
    ensures forall r, c :: i < r <= |b| && 0 <= c <= |a| ==> matrix[r, c] == old(matrix[r, c])
  {
    for j := 1 to |a| + 1
      invariant forall r, c :: 0 <= r <= |b| && 0 <= c <= |a| && r != i ==> matrix[r, c] == old(matrix[r, c])
      invariant forall c {:trigger matrix[i, c]} :: 0 <= c < j ==> matrix[i, c] == Entry(a, b, i, c)
    {
      var diagonal, left, up := matrix[i - 1, j - 1], matrix[i, j - 1], matrix[i - 1, j];
      assert diagonal == Entry(a, b, i - 1, j - 1) && up == Entry(a, b, i - 1, j);
      var cell := if b[i - 1] == a[j - 1] then diagonal else Min3(diagonal + 1, left + 1, up + 1);
      assert cell == Entry(a, b, i, j);
      matrix[i, j] := cell;
    }
  }

  /** `getLevenshteinDistance(a, b)`: fills the `(|b|+1) x (|a|+1)` matrix
      row by row and reads its last cell. */
  method LevenshteinDistance(a: string, b: string) returns (d: nat)
    ensures d == EditDistance(a, b) == Levenshtein(a, b, |b|, |a|)
  {
    var matrix := new nat[|b| + 1, |a| + 1];
    for i := 0 to |b| + 1
      invariant forall r :: 0 <= r < i ==> matrix[r, 0] == r
    {
      matrix[i, 0] := i;
    }
    for j := 0 to |a| + 1
      invariant forall r :: 0 <= r <= |b| ==> matrix[r, 0] == r
      invariant forall c :: 0 <= c < j ==> matrix[0, c] == c
    {
      matrix[0, j] := j;
    }
    for i := 1 to |b| + 1
      invariant RowsDone(matrix, a, b, i)
      invariant forall r :: i <= r <= |b| ==> matrix[r, 0] == r
    {
      FillRow(matrix, a, b, i);
    }
    d := matrix[|b|, |a|];
    EntryIsLevenshtein(a, b, |b|, |a|);
  }

  // ---------------------------------------------------------------------
  // searchCities and getCityById

  /** A row of the bundled city table; `population` may be missing. */
  datatype City = City(
    id: string, name: string, state: string, country: string, lat: real, lng: real,
    population: Option<int>)

  /** The `Location` record the service returns for a city. */
  datatype Location = Location(
    id: string, name: string, city: string, state: string, country: string, lat: real, lng: real,
    placeType: string, displayName: string)

  function ToLocation(c: City): Location {
    Location(c.id, c.name, c.name, c.state, c.country, c.lat, c.lng, "city", c.name + ", " + c.state)
  }

  predicate StartsWith(s: string, prefix: string) {
    |prefix| <= |s| && s[..|prefix|] == prefix
  }

  /** The tiered match score of a city name against the lowered, trimmed
      query: exact 100, prefix 80, substring 60, substring of the state 40,
      otherwise 50 - 10 d for an edit distance d of at most 3, else 0. */
  function MatchScore(q: string, c: City): int {
    var cityName, stateName := Lower(c.name), Lower(c.state);
    if cityName == q then 100
    else if StartsWith(cityName, q) then 80
    else if Contains(cityName, q) then 60
    else if Contains(stateName, q) then 40
    else
      var d := EditDistance(q, cityName);
      if d <= 3 then 50 - d * 10 else 0
  }

  /** `Math.min(20, population / 500000)`, added when the population is
      present and non-zero. */
  function PopulationBoost(population: Option<int>): (b: real)
    ensures b <= 20.0
    ensures population.Some? && population.value > 0 ==> b > 0.0
    ensures population.None? || population.value == 0 ==> b == 0.0
  {
    if population.Some? && population.value != 0 then
      var x := population.value as real / 500000.0;
      if 20.0 < x then 20.0 else x
    else 0.0
  }

  function CityScore(q: string, c: City): real {
    MatchScore(q, c) as real + PopulationBoost(c.population)
  }

  /** The score tiers: the match score is one of eight values, 100 exactly
      for the city's own name, and the boost adds at most 20. */
  lemma MatchScoreTiers(q: string, c: City)
    ensures MatchScore(q, c) in {100, 80, 60, 50, 40, 30, 20, 0}
    ensures MatchScore(q, c) == 100 <==> Lower(c.name) == q
    ensures MatchScore(q, c) == 50 ==> false
    ensures CityScore(q, c) <= MatchScore(q, c) as real + 20.0
  {
    var cityName := Lower(c.name);
    if EditDistance(q, cityName) == 0 {
      EditDistanceZero(q, cityName);
    }
  }

  /** Distance 0 means equal strings, so the fuzzy tier never gives 50. */
  lemma EditDistanceZero(a: string, b: string)
    requires EditDistance(a, b) == 0
    ensures a == b
  {
    EntryIsLevenshtein(a, b, |b|, |a|);
    LevenshteinZero(a, b, |b|, |a|);
  }

  lemma {:induction false} LevenshteinZero(a: string, b: string, i: nat, j: nat)
    requires i <= |b| && j <= |a| && Levenshtein(a, b, i, j) == 0
    ensures i == j && b[..i] == a[..j]
    decreases i + j
  {
    if i > 0 && j > 0 {
      LevenshteinZero(a, b, i - 1, j - 1);
      assert b[..i] == b[..i - 1] + [b[i - 1]];
      assert a[..j] == a[..j - 1] + [a[j - 1]];
    }
  }

  /** One candidate of `searchCities` with its score. */
  datatype Scored = Scored(city: City, score: real)

  function ScoreOf(s: Scored): real { s.score }

  /** The `results` list: the cities scoring above 0, in table order. */
  function ScoredCities(q: string, cities: seq<City>): seq<Scored>
    decreases |cities|
  {
    if cities == [] then []
    else
      var rest, c := ScoredCities(q, cities[..|cities| - 1]), cities[|cities| - 1];
      if CityScore(q, c) > 0.0 then rest + [Scored(c, CityScore(q, c))] else rest
  }

  /** A candidate is exactly a city of the table with a positive score,
      carrying that score. */
  lemma {:induction false} ScoredCitiesMembers(q: string, cities: seq<City>)
    ensures forall s :: s in ScoredCities(q, cities) ==> s.city in cities && s.score == CityScore(q, s.city) > 0.0
    ensures forall c :: c in cities && CityScore(q, c) > 0.0 ==> Scored(c, CityScore(q, c)) in ScoredCities(q, cities)
    decreases |cities|
  {
    if cities != [] {
      var init := cities[..|cities| - 1];
      ScoredCitiesMembers(q, init);
      assert cities == init + [cities[|cities| - 1]];
    }
  }

  /** A city with a positive population is always a candidate, whether or
      not its name or state matches the query: the boost is added before
      the `score > 0` filter. */
  lemma PopulatedCityAlwaysCandidate(q: string, cities: seq<City>, c: City)
    requires c in cities && c.population.Some? && c.population.value > 0
    ensures exists s :: s in ScoredCities(q, cities) && s.city == c
  {
    MatchScoreTiers(q, c);
    ScoredCitiesMembers(q, cities);
    assert Scored(c, CityScore(q, c)) in ScoredCities(q, cities);
  }

  /** `Array.prototype.slice(0, limit)`: a negative limit counts from the
      end. */
  function SliceTo<T>(s: seq<T>, limit: int): (r: seq<T>)
    ensures |r| <= |s| && r == s[..|r|]
    ensures limit >= 0 ==> |r| == if limit < |s| then limit else |s|
  {
    if limit >= 0 then (if limit < |s| then s[..limit] else s)
    else if |s| + limit > 0 then s[..|s| + limit]
    else []
  }

  /** The candidates ranked by non-increasing score, ties in table order. */
  function Ranked(q: string, cities: seq<City>): seq<Scored> {
    Sorting.SortDesc(ScoredCities(q, cities), ScoreOf)
  }

  function Locations(s: seq<Scored>): (r: seq<Location>)
    ensures |r| == |s|
  {
    seq(|s|, k requires 0 <= k < |s| => ToLocation(s[k].city))
  }

  /** What `searchCities(query, limit)` returns. */
  function SearchResult(query: string, limit: int, cities: seq<City>): seq<Location> {
    if |query| < 2 then []
    else Locations(SliceTo(Ranked(Trim(Lower(query)), cities), limit))
  }

  /** The ranking holds exactly the candidates, by non-increasing score,
      each with a positive score; the result is its first `limit` entries. */
  lemma SearchResultRanked(query: string, limit: int, cities: seq<City>)
    requires |query| >= 2
    ensures var q := Trim(Lower(query)); var ranked := Ranked(q, cities);
      multiset(ranked) == multiset(ScoredCities(q, cities)) &&
      Sorting.SortedDesc(ranked, ScoreOf) &&
      (forall k :: 0 <= k < |ranked| ==> ranked[k].city in cities && ranked[k].score == CityScore(q, ranked[k].city) > 0.0) &&
      SearchResult(query, limit, cities) == Locations(ranked[..|SliceTo(ranked, limit)|])
  {
    var q := Trim(Lower(query));
    var candidates := ScoredCities(q, cities);
    Sorting.SortDescPermutes(candidates, ScoreOf);
    Sorting.SortDescSorted(candidates, ScoreOf);
    ScoredCitiesMembers(q, cities);
    var ranked := Ranked(q, cities);
    forall k | 0 <= k < |ranked|
      ensures ranked[k].city in cities && ranked[k].score == CityScore(q, ranked[k].city) > 0.0
    {
      assert ranked[k] in multiset(candidates);
    }
  }

  /** The score of one city, as the loop body of `searchCities` computes
      it, calling the edit distance only when no substring tier applies. */
  method ScoreCity(q: string, c: City) returns (score: real)
    ensures score == CityScore(q, c)
  {
    var cityName, stateName := Lower(c.name), Lower(c.state);
    var base: int := 0;
    if cityName == q {
      base := 100;
    } else if StartsWith(cityName, q) {
      base := 80;
    } else if Contains(cityName, q) {
      base := 60;
    } else if Contains(stateName, q) {
      base := 40;
    } else {
      var distance := LevenshteinDistance(q, cityName);
      if distance <= 3 {
        base := 50 - distance * 10;
      }
    }
    score := base as real;
    if c.population.Some? && c.population.value != 0 {
      score := score + PopulationBoost(c.population);
    }
  }

  /** `searchCities(query, limit)`: score every city, keep the positive
      ones, sort them in place by non-increasing score and keep the first
      `limit`. */
  method SearchCities(query: string, limit: int, cities: seq<City>) returns (r: seq<Location>)
    ensures r == SearchResult(query, limit, cities)
    ensures |query| < 2 ==> r == []
    ensures limit >= 0 ==> |r| <= limit
  {
    if |query| < 2 {
      return [];
    }
    var q := Trim(Lower(query));
    var results: seq<Scored> := [];
    for i := 0 to |cities|
      invariant results == ScoredCities(q, cities[..i])
    {
      var score := ScoreCity(q, cities[i]);
      assert cities[..i + 1][..i] == cities[..i];
      if score > 0.0 {
        results := results + [Scored(cities[i], score)];
      }
    }
    assert cities[..|cities|] == cities;
    var sorted := new Scored[|results|](k requires 0 <= k < |results| => results[k]);
    assert sorted[..] == results;
    Sorting.SortDescInPlace(sorted, ScoreOf);
    r := Locations(SliceTo(sorted[..], limit));
  }

  /** Index of the first city with the given id, as `Array.prototype.find`
      scans. */
  function FirstWithId(cities: seq<City>, id: string): (r: Option<nat>)
    ensures r.Some? ==> (r.value < |cities| && cities[r.value].id == id &&
                         forall k :: 0 <= k < r.value ==> cities[k].id != id)
    ensures r.None? ==> forall k :: 0 <= k < |cities| ==> cities[k].id != id
  {
    if cities == [] then None
    else if cities[0].id == id then Some(0)
    else match FirstWithId(cities[1..], id)
      case Some(k) => Some(k + 1)
      case None => None
  }

  /** `getCityById`: the first city with that id as a `Location` whose
      display name is "name, state", or nothing when no city has it. */
  function GetCityById(cities: seq<City>, id: string): (r: Option<Location>)
    ensures r.None? <==> forall k :: 0 <= k < |cities| ==> cities[k].id != id
    ensures r.Some? ==> (r.value.id == id && r.value.displayName == r.value.name + ", " + r.value.state &&
                         r.value.placeType == "city" &&
                         exists k :: 0 <= k < |cities| && cities[k].id == id &&
                                     r.value.name == cities[k].name && r.value.city == cities[k].name &&
                                     r.value.state == cities[k].state && r.value.country == cities[k].country &&
                                     r.value.lat == cities[k].lat && r.value.lng == cities[k].lng &&
                                     (forall m :: 0 <= m < k ==> cities[m].id != id))
  {
    match FirstWithId(cities, id)
    case Some(k) => Some(ToLocation(cities[k]))
    case None => None
  }
}
