/** `rankRoutes` (lib/services/mockRouteService.ts): weighted scoring of the
    generated routes, category labels and the sort by score.  JavaScript
    numbers are modelled as exact reals. */
module Ranking {
  import opened Wrappers
  import opened RouteTypes
  import Sorting

  datatype RankWeights = RankWeights(time: real, cost: real, reliability: real)

  /** The weight table per preference. */
  function Weights(preference: Preference): (w: RankWeights)
    ensures w.time >= 0.0 && w.cost >= 0.0 && w.reliability >= 0.0
    ensures w.time + w.cost + w.reliability == 1.0
    ensures preference == Fastest ==> w.time > w.cost && w.time > w.reliability
    ensures preference == Cheapest ==> w.cost > w.time && w.cost > w.reliability
    ensures preference == Balanced ==> w.time == w.cost && w.time > w.reliability
  {
    match preference
    case Fastest => RankWeights(0.7, 0.2, 0.1)
    case Cheapest => RankWeights(0.2, 0.7, 0.1)
    case Balanced => RankWeights(0.4, 0.4, 0.2)
  }

  function TotalCost(r: Route): int { r.totalCost }
  function TotalMinutes(r: Route): int { r.totalDurationMinutes }

  /** `Math.min(...routes.map(key))` over a non-empty list. */
  function MinOf(s: seq<Route>, key: Route -> int): (m: int)
    requires |s| > 0
    ensures forall i :: 0 <= i < |s| ==> m <= key(s[i])
    ensures exists i :: 0 <= i < |s| && m == key(s[i])
  {
    if |s| == 1 then key(s[0])
    else
      var rest := MinOf(s[1..], key);
      assert forall i :: 1 <= i < |s| ==> s[i] == s[1..][i - 1];
      if key(s[0]) <= rest then key(s[0]) else rest
  }

  /** `Math.max(...routes.map(key))` over a non-empty list. */
  function MaxOf(s: seq<Route>, key: Route -> int): (m: int)
    requires |s| > 0
    ensures forall i :: 0 <= i < |s| ==> key(s[i]) <= m
    ensures exists i :: 0 <= i < |s| && m == key(s[i])
  {
    if |s| == 1 then key(s[0])
    else
      var rest := MaxOf(s[1..], key);
      assert forall i :: 1 <= i < |s| ==> s[i] == s[1..][i - 1];
      if key(s[0]) >= rest then key(s[0]) else rest
  }

  datatype Bounds = Bounds(minCost: int, maxCost: int, minTime: int, maxTime: int)

  function BoundsOf(s: seq<Route>): (b: Bounds)
    requires |s| > 0
    ensures b.minCost <= b.maxCost && b.minTime <= b.maxTime
  {
    Bounds(MinOf(s, TotalCost), MaxOf(s, TotalCost), MinOf(s, TotalMinutes), MaxOf(s, TotalMinutes))
  }

  /** The min-max normalised score: 100 at the minimum, 0 at the maximum,
      and 100 for everyone when all values are equal. */
  function Normalized(x: int, lo: int, hi: int): (score: real)
    requires lo <= x <= hi
    ensures 0.0 <= score <= 100.0
    ensures x == lo ==> score == 100.0
    ensures x == hi && lo < hi ==> score == 0.0
  {
    if hi == lo then 100.0
    else
      var f := (x - lo) as real / (hi - lo) as real;
      assert 0.0 <= f <= 1.0 by {
        assert (x - lo) as real <= (hi - lo) as real;
      }
      100.0 * (1.0 - f)
  }

  /** A lower value never earns a lower normalised score. */
  lemma NormalizedAntitone(x1: int, x2: int, lo: int, hi: int)
    requires lo <= x1 <= x2 <= hi
    ensures Normalized(x1, lo, hi) >= Normalized(x2, lo, hi)
  {
    if lo < hi {
      var d := (hi - lo) as real;
      assert (x1 - lo) as real / d <= (x2 - lo) as real / d;
    }
  }

  /** `r` lies within the cost and duration bounds `b`. */
  predicate InBounds(r: Route, b: Bounds) {
    b.minCost <= r.totalCost <= b.maxCost && b.minTime <= r.totalDurationMinutes <= b.maxTime
  }

  function RouteScore(r: Route, w: RankWeights, b: Bounds): real
    requires InBounds(r, b)
  {
    Normalized(r.totalDurationMinutes, b.minTime, b.maxTime) * w.time
      + Normalized(r.totalCost, b.minCost, b.maxCost) * w.cost
      + r.reliability as real * w.reliability
  }

  /** The three category assignments, in source order: a later one
      overrides an earlier one, and none keeps the route's own label. */
  function Categorize(r: Route, score: real, b: Bounds): Option<Category> {
    var c1 := if r.totalDurationMinutes == b.minTime then Some(FastestLabel) else r.category;
    var c2 := if r.totalCost == b.minCost then Some(CheapestLabel) else c1;
    if score > 80.0 then Some(BestValue) else c2
  }

  /** One iteration of the scoring loop. */
  function ScoreRoute(r: Route, w: RankWeights, b: Bounds): Route
    requires InBounds(r, b)
  {
    var s := RouteScore(r, w, b);
    r.(score := Some(s), category := Categorize(r, s, b))
  }

  /** Every route scored against the bounds of the whole list. */
  function ScoreAll(s: seq<Route>, preference: Preference): (r: seq<Route>)
    ensures |r| == |s|
  {
    if s == [] then []
    else
      var b := BoundsOf(s);
      var w := Weights(preference);
      seq(|s|, i requires 0 <= i < |s| =>
        assert b.minCost <= s[i].totalCost <= b.maxCost && b.minTime <= s[i].totalDurationMinutes <= b.maxTime;
        ScoreRoute(s[i], w, b))
  }

  /** The sort key `b.score || 0`. */
  function ScoreKey(r: Route): real {
    if r.score.Some? then r.score.value else 0.0
  }

  /** The list `rankRoutes` returns. */
  function Ranked(s: seq<Route>, preference: Preference): seq<Route> {
    Sorting.SortDesc(ScoreAll(s, preference), ScoreKey)
  }

  /** Every route of a non-empty list lies within the list's bounds. */
  lemma BoundsContain(s: seq<Route>)
    requires |s| > 0
    ensures forall i :: 0 <= i < |s| ==> InBounds(s[i], BoundsOf(s))
  {
    var b := BoundsOf(s);
    forall i | 0 <= i < |s| ensures InBounds(s[i], b) {
      assert TotalCost(s[i]) == s[i].totalCost && TotalMinutes(s[i]) == s[i].totalDurationMinutes;
    }
  }

  /** The scoring loop of `rankRoutes`: each route in turn gets its score
      and category against the same weights and bounds. */
  method ScoreEach(a: array<Route>, w: RankWeights, b: Bounds)
    requires forall j :: 0 <= j < a.Length ==> InBounds(a[j], b)
    modifies a
    ensures forall j :: 0 <= j < a.Length ==> a[j] == ScoreRoute(old(a[j]), w, b)
  {
    var i := 0;
    while i < a.Length
      invariant 0 <= i <= a.Length
      invariant forall j :: 0 <= j < i ==> a[j] == ScoreRoute(old(a[j]), w, b)
      invariant forall j :: i <= j < a.Length ==> a[j] == old(a[j])
    {
      a[i] := ScoreRoute(a[i], w, b);
      i := i + 1;
    }
  }

  /** A list scored route by route against the whole list's bounds is
      the list `ScoreAll` describes. */
  lemma ScoredEachIsScoreAll(s: seq<Route>, preference: Preference, t: seq<Route>)
    requires |s| > 0 && |t| == |s|
    requires forall j :: 0 <= j < |s| ==> InBounds(s[j], BoundsOf(s))
    requires forall j :: 0 <= j < |s| ==> t[j] == ScoreRoute(s[j], Weights(preference), BoundsOf(s))
    ensures t == ScoreAll(s, preference)
  {
  }

  /** `rankRoutes` on the routes array: each route gets its score and
      category, then the array is sorted in place by descending score. */
  method RankRoutes(a: array<Route>, preference: Preference)
    modifies a
    ensures a[..] == Ranked(old(a[..]), preference)
  {
    if a.Length > 0 {
      ghost var input := a[..];
      var w := Weights(preference);
      var b := BoundsOf(a[..]);
      BoundsContain(a[..]);
      ScoreEach(a, w, b);
      ScoredEachIsScoreAll(input, preference, a[..]);
    }
    Sorting.SortDescInPlace(a, ScoreKey);
  }

  /** Ranking only rescores and reorders: the result is a permutation of
      the scored list, whose i-th route is the i-th input route with only
      its score and category replaced. */
  lemma RankedPermutesScored(s: seq<Route>, preference: Preference)
    ensures multiset(Ranked(s, preference)) == multiset(ScoreAll(s, preference))
    ensures forall i :: 0 <= i < |s| ==>
      ScoreAll(s, preference)[i].(score := s[i].score, category := s[i].category) == s[i]
  {
    Sorting.SortDescPermutes(ScoreAll(s, preference), ScoreKey);
  }

  /** The ranked list is ordered by non-increasing score, so its head has
      the highest score of all. */
  lemma RankedSorted(s: seq<Route>, preference: Preference)
    ensures Sorting.SortedDesc(Ranked(s, preference), ScoreKey)
    ensures |Ranked(s, preference)| == |s|
    ensures forall i :: 0 < i < |s| ==> ScoreKey(Ranked(s, preference)[0]) >= ScoreKey(Ranked(s, preference)[i])
  {
    Sorting.SortDescSorted(ScoreAll(s, preference), ScoreKey);
  }

  /** One route's score lies within 0..100: it is a weighted mean of three
      values within 0..100. */
  lemma RouteScoreWithinRange(r: Route, preference: Preference, b: Bounds)
    requires b.minCost <= r.totalCost <= b.maxCost && b.minTime <= r.totalDurationMinutes <= b.maxTime
    requires 0 <= r.reliability <= 100
    ensures 0.0 <= RouteScore(r, Weights(preference), b) <= 100.0
  {
    WeightedSumWithin(preference,
      Normalized(r.totalDurationMinutes, b.minTime, b.maxTime), Normalized(r.totalCost, b.minCost, b.maxCost), r.reliability as real);
  }

  /** A weighted mean of three values within 0..100 lies within 0..100. */
  lemma WeightedSumWithin(preference: Preference, t: real, c: real, rel: real)
    requires 0.0 <= t <= 100.0 && 0.0 <= c <= 100.0 && 0.0 <= rel <= 100.0
    ensures var w := Weights(preference);
      0.0 <= t * w.time + c * w.cost + rel * w.reliability <= 100.0
  {
    match preference
    case Fastest =>
    case Cheapest =>
    case Balanced =>
  }

  /** Every scored route carries a score, and the score lies within 0..100
      when every reliability does. */
  lemma ScoresWithinRange(s: seq<Route>, preference: Preference)
    requires forall i :: 0 <= i < |s| ==> 0 <= s[i].reliability <= 100
    ensures forall i :: 0 <= i < |s| ==>
      ScoreAll(s, preference)[i].score.Some? && 0.0 <= ScoreKey(ScoreAll(s, preference)[i]) <= 100.0
  {
    if s != [] {
      var b := BoundsOf(s);
      var w := Weights(preference);
      forall i | 0 <= i < |s|
        ensures ScoreAll(s, preference)[i].score.Some? && 0.0 <= ScoreKey(ScoreAll(s, preference)[i]) <= 100.0
      {
        RouteScoreWithinRange(s[i], preference, b);
      }
    }
  }

  /** When every route has the same cost and the same duration (a single
      route in particular), both normalised scores are 100. */
  lemma UniformRoutesScore(s: seq<Route>, preference: Preference)
    requires |s| > 0
    requires forall i :: 0 <= i < |s| ==> s[i].totalCost == s[0].totalCost && s[i].totalDurationMinutes == s[0].totalDurationMinutes
    ensures var w := Weights(preference);
      forall i :: 0 <= i < |s| ==>
        ScoreKey(ScoreAll(s, preference)[i]) == 100.0 * (w.time + w.cost) + s[i].reliability as real * w.reliability
  {
    forall i | 0 <= i < |s|
      ensures var w := Weights(preference);
        ScoreKey(ScoreAll(s, preference)[i]) == 100.0 * (w.time + w.cost) + s[i].reliability as real * w.reliability
    {
      UniformRouteScoreAt(s, preference, i);
    }
  }

  lemma UniformRouteScoreAt(s: seq<Route>, preference: Preference, i: nat)
    requires i < |s|
    requires forall i :: 0 <= i < |s| ==> s[i].totalCost == s[0].totalCost && s[i].totalDurationMinutes == s[0].totalDurationMinutes
    ensures var w := Weights(preference);
      ScoreKey(ScoreAll(s, preference)[i]) == 100.0 * (w.time + w.cost) + s[i].reliability as real * w.reliability
  {
    UniformBounds(s);
    ScoreOfScored(s, preference, i);
    UniformRouteScore(s[i], preference, BoundsOf(s));
  }

  /** The score the i-th scored route carries. */
  lemma ScoreOfScored(s: seq<Route>, preference: Preference, i: nat)
    requires i < |s| && InBounds(s[i], BoundsOf(s))
    ensures ScoreKey(ScoreAll(s, preference)[i]) == RouteScore(s[i], Weights(preference), BoundsOf(s))
  {
  }

  lemma UniformBounds(s: seq<Route>)
    requires |s| > 0
    requires forall i :: 0 <= i < |s| ==> s[i].totalCost == s[0].totalCost && s[i].totalDurationMinutes == s[0].totalDurationMinutes
    ensures BoundsOf(s) == Bounds(s[0].totalCost, s[0].totalCost, s[0].totalDurationMinutes, s[0].totalDurationMinutes)
  {
    var b := BoundsOf(s);
    assert b.minCost == b.maxCost == s[0].totalCost;
    assert b.minTime == b.maxTime == s[0].totalDurationMinutes;
  }

  lemma UniformRouteScore(r: Route, preference: Preference, b: Bounds)
    requires b.minCost == r.totalCost == b.maxCost && b.minTime == r.totalDurationMinutes == b.maxTime
    ensures var w := Weights(preference);
      RouteScore(r, w, b) == 100.0 * (w.time + w.cost) + r.reliability as real * w.reliability
  {
    match preference
    case Fastest =>
    case Cheapest =>
    case Balanced =>
  }

  /** The category rules, in the order the loop applies them: a score above
      80 is labelled Best Value; otherwise a cheapest route is Cheapest;
      otherwise a fastest route is Fastest; otherwise the route keeps the
      label it came with. */
  lemma CategoryRules(s: seq<Route>, preference: Preference, i: nat)
    requires i < |s|
    ensures var r := ScoreAll(s, preference)[i]; var b := BoundsOf(s);
      && r.score.Some?
      && (ScoreKey(r) > 80.0 ==> r.category == Some(BestValue))
      && (r.category == Some(BestValue) && s[i].category != Some(BestValue) ==> ScoreKey(r) > 80.0)
      && (ScoreKey(r) <= 80.0 && s[i].totalCost == b.minCost ==> r.category == Some(CheapestLabel))
      && (ScoreKey(r) <= 80.0 && s[i].totalCost != b.minCost && s[i].totalDurationMinutes == b.minTime ==>
            r.category == Some(FastestLabel))
      && (ScoreKey(r) <= 80.0 && s[i].totalCost != b.minCost && s[i].totalDurationMinutes != b.minTime ==>
            r.category == s[i].category)
  {
  }

  /** A route of least total cost is always labelled Cheapest or Best Value. */
  lemma CheapestRouteLabelled(s: seq<Route>, preference: Preference, i: nat)
    requires i < |s|
    requires forall j :: 0 <= j < |s| ==> s[i].totalCost <= s[j].totalCost
    ensures ScoreAll(s, preference)[i].category in {Some(CheapestLabel), Some(BestValue)}
  {
    var b := BoundsOf(s);
    assert b.minCost <= s[i].totalCost;
    assert exists j :: 0 <= j < |s| && b.minCost == s[j].totalCost;
  }

  /** A route that is no dearer, no slower and no less reliable than another
      scores at least as high, whatever the preference. */
  lemma RouteScoreDominance(r1: Route, r2: Route, preference: Preference, b: Bounds)
    requires b.minCost <= r1.totalCost <= r2.totalCost <= b.maxCost
    requires b.minTime <= r1.totalDurationMinutes <= r2.totalDurationMinutes <= b.maxTime
    requires r1.reliability >= r2.reliability
    ensures RouteScore(r1, Weights(preference), b) >= RouteScore(r2, Weights(preference), b)
  {
    NormalizedAntitone(r1.totalCost, r2.totalCost, b.minCost, b.maxCost);
    NormalizedAntitone(r1.totalDurationMinutes, r2.totalDurationMinutes, b.minTime, b.maxTime);
    WeightedSumMonotone(preference,
      Normalized(r1.totalDurationMinutes, b.minTime, b.maxTime), Normalized(r1.totalCost, b.minCost, b.maxCost), r1.reliability as real,
      Normalized(r2.totalDurationMinutes, b.minTime, b.maxTime), Normalized(r2.totalCost, b.minCost, b.maxCost), r2.reliability as real);
  }

  /** The weighted sum grows with each of its three terms. */
  lemma WeightedSumMonotone(preference: Preference, t1: real, c1: real, rel1: real, t2: real, c2: real, rel2: real)
    requires t1 >= t2 && c1 >= c2 && rel1 >= rel2
    ensures var w := Weights(preference);
      t1 * w.time + c1 * w.cost + rel1 * w.reliability >= t2 * w.time + c2 * w.cost + rel2 * w.reliability
  {
    match preference
    case Fastest =>
    case Cheapest =>
    case Balanced =>
  }

  /** Within one ranking, a route that is no dearer, no slower and no less
      reliable than another scores at least as high, whatever the preference. */
  lemma ScoreDominance(s: seq<Route>, preference: Preference, i: nat, j: nat)
    requires i < |s| && j < |s|
    requires s[i].totalCost <= s[j].totalCost
    requires s[i].totalDurationMinutes <= s[j].totalDurationMinutes
    requires s[i].reliability >= s[j].reliability
    ensures ScoreKey(ScoreAll(s, preference)[i]) >= ScoreKey(ScoreAll(s, preference)[j])
  {
    var b := BoundsOf(s);
    var w := Weights(preference);
    RouteScoreDominance(s[i], s[j], preference, b);
    assert ScoreAll(s, preference)[i] == ScoreRoute(s[i], w, b);
    assert ScoreAll(s, preference)[j] == ScoreRoute(s[j], w, b);
  }
}
