/** Support and resistance levels: pivots of a window of candles, clustered
    greedily into levels, and ranked by distance from the latest close.
    Prices are reals in price units. */
module SupportResistance {
  import opened Market
  import opened Numbers
  import opened Rounding
  import opened Sequences

  datatype Bar = Bar(low: real, high: real, close: real)

  datatype Strength = Weak | Medium | Strong

  datatype Level = Level(price: real, touches: nat, strength: Strength)

  datatype Detected = Detected(
    supports: seq<Level>,
    resistances: seq<Level>,
    nearestSupport: Option<real>,
    nearestResistance: Option<real>)

  const MIN_TOLERANCE: real := 0.000000000001
  const TOP: nat := 5

  // ----- averages and tolerances -----

  function Average(xs: seq<real>): real
    requires xs != []
  {
    SumReals(xs) / |xs| as real
  }

  function Tolerance(average: real, percent: real): (t: real)
    ensures t >= MIN_TOLERANCE
  {
    if Abs(average) * percent > MIN_TOLERANCE then Abs(average) * percent else MIN_TOLERANCE
  }

  predicate Near(cluster: seq<real>, price: real, percent: real)
    requires cluster != []
  {
    Abs(price - Average(cluster)) <= Tolerance(Average(cluster), percent)
  }

  function StrengthOf(touches: nat): Strength
  {
    if touches >= 3 then Strong else if touches == 2 then Medium else Weak
  }

  function LevelOf(cluster: seq<real>): Level
    requires cluster != []
  {
    Level(Average(cluster), |cluster|, StrengthOf(|cluster|))
  }

  /** What a level says of its cluster: the mean price, how many pivots it has,
      strong from three on and medium at two. */
  lemma LevelFigures(cluster: seq<real>)
    requires cluster != []
    ensures var level := LevelOf(cluster);
            && level.touches == |cluster| && level.price * |cluster| as real == SumReals(cluster)
            && (level.strength.Strong? <==> |cluster| >= 3)
            && (level.strength.Medium? <==> |cluster| == 2)
            && (level.strength.Weak? <==> |cluster| == 1)
  {
    AverageTimes(cluster);
    hide Average;
  }

  lemma AverageTimes(xs: seq<real>)
    requires xs != []
    ensures Average(xs) * |xs| as real == SumReals(xs)
  {
    hide SumReals;
  }

  /** A price joins a cluster within the given share of its mean, or within the
      absolute minimum. */
  lemma NearExactlyWhen(cluster: seq<real>, price: real, percent: real)
    requires cluster != []
    ensures var mean := SumReals(cluster) / |cluster| as real;
            var off := if price < mean then mean - price else price - mean;
            Near(cluster, price, percent)
            <==> off <= (if mean < 0.0 then -mean else mean) * percent || off <= 0.000000000001
  {
    hide SumReals;
  }

  predicate NoEmpty(clusters: seq<seq<real>>)
  {
    forall i :: 0 <= i < |clusters| ==> clusters[i] != []
  }

  function LevelsOf(clusters: seq<seq<real>>): (levels: seq<Level>)
    requires NoEmpty(clusters)
    ensures |levels| == |clusters|
    ensures forall i :: 0 <= i < |clusters| ==> levels[i] == LevelOf(clusters[i])
  {
    seq(|clusters|, i requires 0 <= i < |clusters| => LevelOf(clusters[i]))
  }

  predicate Ordered(xs: seq<real>)
  {
    forall i, j :: 0 <= i <= j < |xs| ==> xs[i] <= xs[j]
  }

  // ----- sorting -----

  predicate Lower(x: real, y: real)
  {
    x < y
  }

  function SortedOf(xs: seq<real>): (ys: seq<real>)
    ensures |ys| == |xs|
  {
    SortBy(xs, Lower)
  }

  lemma SortedOrders(xs: seq<real>)
    ensures Ordered(SortedOf(xs)) && multiset(SortedOf(xs)) == multiset(xs)
  {
    SortOrders(xs, Lower);
    SortKeeps(xs, Lower);
    var ys := SortedOf(xs);
    hide SortBy;
    forall i, j | 0 <= i < j < |ys| ensures ys[i] <= ys[j] {
      assert !Lower(ys[j], ys[i]);
    }
  }

  // ----- the clustering: first match among all clusters -----

  /** The first cluster from `from` on that `price` is near to. */
  function FirstMatch(clusters: seq<seq<real>>, price: real, percent: real, from: nat): (i: nat)
    requires NoEmpty(clusters) && from <= |clusters|
    ensures from <= i <= |clusters|
    ensures i < |clusters| ==> Near(clusters[i], price, percent)
    ensures forall k :: from <= k < i ==> !Near(clusters[k], price, percent)
    decreases |clusters| - from
  {
    if from == |clusters| || Near(clusters[from], price, percent) then from
    else FirstMatch(clusters, price, percent, from + 1)
  }

  function Place(clusters: seq<seq<real>>, price: real, i: nat): (placed: seq<seq<real>>)
    requires NoEmpty(clusters) && i <= |clusters|
    ensures NoEmpty(placed)
  {
    if i < |clusters| then clusters[i := clusters[i] + [price]] else clusters + [[price]]
  }

  /** Each price joins the first cluster it is near to, or starts a new one. */
  function Greedy(xs: seq<real>, percent: real): (clusters: seq<seq<real>>)
    ensures NoEmpty(clusters)
  {
    if xs == [] then []
    else
      var before, price := Greedy(xs[..|xs| - 1], percent), xs[|xs| - 1];
      Place(before, price, FirstMatch(before, price, percent, 0))
  }

  // ----- the same clustering, looking at the last cluster only -----

  /** A price joins the last cluster or starts a new one. */
  function Grown(before: seq<seq<real>>, price: real, percent: real): (clusters: seq<seq<real>>)
    requires NoEmpty(before)
    ensures NoEmpty(clusters) && clusters != []
  {
    var n := |before|;
    if n > 0 && Near(before[n - 1], price, percent) then before[n - 1 := before[n - 1] + [price]]
    else before + [[price]]
  }

  function Linear(xs: seq<real>, percent: real): (clusters: seq<seq<real>>)
    ensures NoEmpty(clusters)
    ensures clusters == [] <==> xs == []
  {
    if xs == [] then []
    else
      Grown(Linear(xs[..|xs| - 1], percent), xs[|xs| - 1], percent)
  }

  // ----- the loops -----

  method ClusterLevels(prices: seq<real>, tolerancePercent: real) returns (levels: seq<Level>)
    ensures levels == LevelsOf(Linear(SortedOf(prices), tolerancePercent))
  {
    hide Near, Greedy, Linear, LevelOf;
    var sorted := SortedOf(prices);
    var clusters: seq<seq<real>> := [];
    GreedyStarts(tolerancePercent);
    for p := 0 to |sorted|
      invariant NoEmpty(clusters)
      invariant clusters == Greedy(sorted[..p], tolerancePercent)
    {
      var price, matched, i := sorted[p], false, 0;
      while i < |clusters| && !matched
        invariant i <= |clusters| && (matched ==> i < |clusters|)
        invariant matched ==> Near(clusters[i], price, tolerancePercent)
        invariant forall k :: 0 <= k < i ==> !Near(clusters[k], price, tolerancePercent)
        decreases |clusters| - i, !matched
      {
        if Near(clusters[i], price, tolerancePercent) {
          matched := true;
        } else {
          i := i + 1;
        }
      }
      GreedySnoc(sorted, p, tolerancePercent);
      if matched {
        clusters := clusters[i := clusters[i] + [price]];
      } else {
        clusters := clusters + [[price]];
      }
    }
    assert sorted[..|sorted|] == sorted;
    SortedOrders(prices);
    GreedyIsLinear(sorted, tolerancePercent);
    levels := [];
    for k := 0 to |clusters|
      invariant |levels| == k && forall i :: 0 <= i < k ==> levels[i] == LevelOf(clusters[i])
    {
      levels := levels + [LevelOf(clusters[k])];
    }
  }

  lemma GreedyStarts(percent: real)
    ensures Greedy([], percent) == []
  {
  }

  lemma GreedySnoc(xs: seq<real>, p: nat, percent: real)
    requires p < |xs|
    ensures var before := Greedy(xs[..p], percent);
            Greedy(xs[..p + 1], percent) == Place(before, xs[p], FirstMatch(before, xs[p], percent, 0))
  {
    assert xs[..p + 1][..p] == xs[..p];
  }

  // ----- why only the last cluster matters -----

  function Concat(clusters: seq<seq<real>>): seq<real>
  {
    if clusters == [] then [] else Concat(clusters[..|clusters| - 1]) + clusters[|clusters| - 1]
  }

  /** Everything after cluster `i` lies beyond its tolerance. */
  predicate Beyond(clusters: seq<seq<real>>, percent: real)
    requires NoEmpty(clusters)
  {
    forall i, j, k :: 0 <= i < j < |clusters| && 0 <= k < |clusters[j]|
      ==> clusters[j][k] > Average(clusters[i]) + Tolerance(Average(clusters[i]), percent)
  }

  predicate AllAtMost(clusters: seq<seq<real>>, bound: real)
  {
    forall j, k :: 0 <= j < |clusters| && 0 <= k < |clusters[j]| ==> clusters[j][k] <= bound
  }

  lemma {:induction false} SumAtMost(xs: seq<real>, hi: real)
    requires forall i :: 0 <= i < |xs| ==> xs[i] <= hi
    ensures SumReals(xs) <= hi * |xs| as real
  {
    if xs != [] {
      var n := |xs| - 1;
      SumAtMost(xs[..n], hi);
      assert hi * (n + 1) as real == hi * n as real + hi;
    }
  }

  lemma {:induction false} SumAbove(xs: seq<real>, lo: real)
    requires xs != [] && forall i :: 0 <= i < |xs| ==> xs[i] > lo
    ensures SumReals(xs) > lo * |xs| as real
  {
    var n := |xs| - 1;
    if n == 0 {
      assert SumReals(xs[..0]) == 0.0;
    } else {
      SumAbove(xs[..n], lo);
      assert lo * (n + 1) as real == lo * n as real + lo;
    }
  }

  lemma AverageAtMost(xs: seq<real>, hi: real)
    requires xs != [] && forall i :: 0 <= i < |xs| ==> xs[i] <= hi
    ensures Average(xs) <= hi
  {
    SumAtMost(xs, hi);
    QuotientAtMost(SumReals(xs), hi, |xs| as real);
  }

  lemma AverageAbove(xs: seq<real>, lo: real)
    requires xs != [] && forall i :: 0 <= i < |xs| ==> xs[i] > lo
    ensures Average(xs) > lo
  {
    SumAbove(xs, lo);
    QuotientAbove(SumReals(xs), lo, |xs| as real);
  }

  lemma LinearUnfolds(xs: seq<real>, percent: real)
    requires xs != []
    ensures Linear(xs, percent) == Grown(Linear(xs[..|xs| - 1], percent), xs[|xs| - 1], percent)
  {
  }

  /** A price above everything so far can only be near the last cluster. */
  lemma OnlyLastIsNear(clusters: seq<seq<real>>, percent: real, price: real, i: nat)
    requires NoEmpty(clusters) && Beyond(clusters, percent) && AllAtMost(clusters, price)
    requires i + 1 < |clusters|
    ensures !Near(clusters[i], price, percent)
  {
    hide Average, Tolerance;
    var j := i + 1;
    assert clusters[j] != [];
    assert clusters[j][0] > Average(clusters[i]) + Tolerance(Average(clusters[i]), percent);
    assert clusters[j][0] <= price;
  }

  /** A price above everything so far that misses a cluster lies beyond it. */
  lemma MissedIsBeyond(cluster: seq<real>, percent: real, price: real)
    requires cluster != [] && !Near(cluster, price, percent)
    requires forall k :: 0 <= k < |cluster| ==> cluster[k] <= price
    ensures price > Average(cluster) + Tolerance(Average(cluster), percent)
  {
    AverageAtMost(cluster, price);
  }

  lemma StillBeyond(clusters: seq<seq<real>>, percent: real, price: real)
    requires clusters != [] && NoEmpty(clusters) && Beyond(clusters, percent) && AllAtMost(clusters, price)
    ensures var n := |clusters| - 1;
            var joined := clusters[n := clusters[n] + [price]];
            NoEmpty(joined) && Beyond(joined, percent) && AllAtMost(joined, price)
  {
    hide Average, Tolerance;
    var n := |clusters| - 1;
    var joined := clusters[n := clusters[n] + [price]];
    assert clusters[n] != [] && clusters[n][0] <= price;
    forall i, j, k | 0 <= i < j < |joined| && 0 <= k < |joined[j]|
      ensures joined[j][k] > Average(joined[i]) + Tolerance(Average(joined[i]), percent)
    {
      assert joined[i] == clusters[i];
      if j == n && k == |clusters[n]| {
        assert clusters[n][0] > Average(clusters[i]) + Tolerance(Average(clusters[i]), percent);
      } else {
        assert joined[j][k] == clusters[j][k];
      }
    }
  }

  lemma StartedBeyond(clusters: seq<seq<real>>, percent: real, price: real)
    requires NoEmpty(clusters) && Beyond(clusters, percent) && AllAtMost(clusters, price)
    requires clusters != [] ==> !Near(clusters[|clusters| - 1], price, percent)
    ensures var started := clusters + [[price]];
            NoEmpty(started) && Beyond(started, percent) && AllAtMost(started, price)
  {
    hide Average, Tolerance;
    var n := |clusters|;
    var started := clusters + [[price]];
    forall i, j, k | 0 <= i < j < |started| && 0 <= k < |started[j]|
      ensures started[j][k] > Average(started[i]) + Tolerance(Average(started[i]), percent)
    {
      if j < n {
        assert started[j][k] == clusters[j][k];
      } else {
        if i + 1 < n {
          OnlyLastIsNear(clusters, percent, price, i);
        }
        MissedIsBeyond(clusters[i], percent, price);
      }
    }
  }

  lemma {:induction false} LinearShape(xs: seq<real>, percent: real)
    requires Ordered(xs)
    ensures Beyond(Linear(xs, percent), percent)
    ensures xs != [] ==> AllAtMost(Linear(xs, percent), xs[|xs| - 1])
  {
    hide Near, Beyond, Average, Tolerance;
    if xs == [] {
      BeyondStarts(percent);
    } else {
      var n := |xs| - 1;
      LinearShape(xs[..n], percent);
      LinearUnfolds(xs, percent);
      var before := Linear(xs[..n], percent);
      hide Linear;
      if n > 0 {
        assert xs[n - 1] <= xs[n];
      }
      assert AllAtMost(before, xs[n]);
      if before != [] && Near(before[|before| - 1], xs[n], percent) {
        StillBeyond(before, percent, xs[n]);
      } else {
        StartedBeyond(before, percent, xs[n]);
      }
    }
  }

  lemma BeyondStarts(percent: real)
    ensures Linear([], percent) == [] && Beyond([], percent)
  {
  }

  /** On sorted prices the nested first-match search is a linear scan. */
  lemma {:induction false} GreedyIsLinear(xs: seq<real>, percent: real)
    requires Ordered(xs)
    ensures Greedy(xs, percent) == Linear(xs, percent)
  {
    hide Near, Beyond, Average, Tolerance, Ordered;
    if xs != [] {
      var n := |xs| - 1;
      var before, price := Linear(xs[..n], percent), xs[n];
      OrderedPrefix(xs);
      GreedyIsLinear(xs[..n], percent);
      LinearShape(xs[..n], percent);
      AboveBefore(xs, percent);
      LinearUnfolds(xs, percent);
      var i := FirstMatch(before, price, percent, 0);
      if i + 1 < |before| {
        OnlyLastIsNear(before, percent, price, i);
      }
    }
  }

  lemma OrderedPrefix(xs: seq<real>)
    requires Ordered(xs) && xs != []
    ensures Ordered(xs[..|xs| - 1])
  {
  }

  lemma AboveBefore(xs: seq<real>, percent: real)
    requires Ordered(xs) && xs != []
    ensures AllAtMost(Linear(xs[..|xs| - 1], percent), xs[|xs| - 1])
  {
    hide Near, Beyond, Average, Tolerance, Linear;
    var n := |xs| - 1;
    if n == 0 {
      BeyondStarts(percent);
    } else {
      LinearShape(xs[..n], percent);
      assert xs[n - 1] <= xs[n];
    }
  }

  // ----- what the clusters are -----

  /** An account of a clustering that mentions no search: the clusters are
      consecutive slices of the prices, each price after a cluster's first is
      near the ones before it, and each cluster starts where the previous one
      was missed. */
  predicate Clustering(xs: seq<real>, clusters: seq<seq<real>>, percent: real)
  {
    && NoEmpty(clusters)
    && Concat(clusters) == xs
    && (forall i, k :: 0 <= i < |clusters| && 0 < k < |clusters[i]| ==> Near(clusters[i][..k], clusters[i][k], percent))
    && (forall i :: 0 <= i < |clusters| - 1 ==> !Near(clusters[i], clusters[i + 1][0], percent))
  }

  lemma ConcatSnoc(clusters: seq<seq<real>>, c: seq<real>)
    ensures Concat(clusters + [c]) == Concat(clusters) + c
  {
    assert (clusters + [c])[..|clusters|] == clusters;
  }

  lemma ConcatGrow(clusters: seq<seq<real>>, x: real)
    requires clusters != []
    ensures var n := |clusters| - 1; Concat(clusters[n := clusters[n] + [x]]) == Concat(clusters) + [x]
  {
    var n := |clusters| - 1;
    var grown := clusters[n := clusters[n] + [x]];
    assert grown[..n] == clusters[..n];
    assert Concat(clusters[..n]) + (clusters[n] + [x]) == Concat(clusters[..n]) + clusters[n] + [x];
  }

  lemma {:induction false} LinearClusters(xs: seq<real>, percent: real)
    ensures Clustering(xs, Linear(xs, percent), percent)
  {
    hide Near, Concat;
    if xs == [] {
      ConcatNothing();
    } else {
      var n := |xs| - 1;
      LinearClusters(xs[..n], percent);
      LinearUnfolds(xs, percent);
      var before, m := Linear(xs[..n], percent), |Linear(xs[..n], percent)|;
      assert xs == xs[..n] + [xs[n]];
      hide Linear;
      if m > 0 && Near(before[m - 1], xs[n], percent) {
        ConcatGrow(before, xs[n]);
        JoinedClusters(xs[..n], before, xs[n], percent);
      } else {
        ConcatSnoc(before, [xs[n]]);
      }
    }
  }

  lemma ConcatNothing()
    ensures Concat([]) == []
  {
  }

  lemma JoinedClusters(xs: seq<real>, before: seq<seq<real>>, x: real, percent: real)
    requires before != [] && Clustering(xs, before, percent) && Near(before[|before| - 1], x, percent)
    ensures var m := |before| - 1; Clustering(xs + [x], before[m := before[m] + [x]], percent)
  {
    hide Near, Concat;
    var m := |before| - 1;
    var joined := before[m := before[m] + [x]];
    ConcatGrow(before, x);
    forall i, k | 0 <= i < |joined| && 0 < k < |joined[i]|
      ensures Near(joined[i][..k], joined[i][k], percent)
    {
      if i == m {
        assert joined[m][..k] == before[m][..k];
        if k == |before[m]| {
          assert before[m][..k] == before[m];
        }
      }
    }
    forall i | 0 <= i < m ensures !Near(joined[i], joined[i + 1][0], percent) {
      assert joined[i] == before[i] && joined[i + 1][0] == before[i + 1][0];
    }
  }

  lemma ShrinkStarted(xs: seq<real>, clusters: seq<seq<real>>, percent: real)
    requires clusters != [] && Clustering(xs, clusters, percent) && |clusters[|clusters| - 1]| == 1
    ensures var m, n := |clusters| - 1, |xs| - 1;
            && xs != []
            && Clustering(xs[..n], clusters[..m], percent)
            && clusters == Grown(clusters[..m], xs[n], percent)
  {
    hide Near, Concat;
    var m, n := |clusters| - 1, |xs| - 1;
    ConcatUnfolds(clusters);
    assert clusters[m] == [clusters[m][0]] && xs[n] == clusters[m][0];
    assert xs[..n] == Concat(clusters[..m]);
    ShrunkClusters(clusters, clusters[..m], percent);
    assert clusters == clusters[..m] + [clusters[m]];
  }

  lemma ShrinkJoined(xs: seq<real>, clusters: seq<seq<real>>, percent: real)
    requires clusters != [] && Clustering(xs, clusters, percent) && |clusters[|clusters| - 1]| > 1
    ensures var m, n := |clusters| - 1, |xs| - 1;
            var before := clusters[m := clusters[m][..|clusters[m]| - 1]];
            && xs != []
            && Clustering(xs[..n], before, percent)
            && clusters == Grown(before, xs[n], percent)
  {
    hide Near, Concat;
    var m, n := |clusters| - 1, |xs| - 1;
    var k := |clusters[m]| - 1;
    var before := clusters[m := clusters[m][..k]];
    ConcatUnfolds(clusters);
    ShrunkConcat(clusters);
    assert xs[n] == clusters[m][k];
    ShrunkClusters(clusters, before, percent);
    assert before[m] + [xs[n]] == clusters[m];
    assert before[m := clusters[m]] == clusters;
  }

  /** That account fixes the clusters: no other clustering of these prices meets it. */
  lemma {:induction false} ClusteringUnique(xs: seq<real>, clusters: seq<seq<real>>, percent: real)
    requires Clustering(xs, clusters, percent)
    ensures clusters == Linear(xs, percent)
  {
    hide Near, Concat, Linear;
    if clusters == [] {
      ConcatNothing();
      BeyondStarts(percent);
    } else {
      var m := |clusters| - 1;
      var before := if |clusters[m]| == 1 then clusters[..m] else clusters[m := clusters[m][..|clusters[m]| - 1]];
      if |clusters[m]| == 1 {
        ShrinkStarted(xs, clusters, percent);
      } else {
        ShrinkJoined(xs, clusters, percent);
      }
      hide Clustering;
      ClusteringUnique(xs[..|xs| - 1], before, percent);
      LinearUnfolds(xs, percent);
    }
  }

  lemma ConcatUnfolds(clusters: seq<seq<real>>)
    requires clusters != []
    ensures Concat(clusters) == Concat(clusters[..|clusters| - 1]) + clusters[|clusters| - 1]
  {
  }

  lemma ShrunkConcat(clusters: seq<seq<real>>)
    requires clusters != [] && |clusters[|clusters| - 1]| > 1
    ensures var m := |clusters| - 1;
            var k := |clusters[m]| - 1;
            var xs := Concat(clusters);
            |xs| > 0 && Concat(clusters[m := clusters[m][..k]]) == xs[..|xs| - 1]
  {
    var m := |clusters| - 1;
    var k := |clusters[m]| - 1;
    var shrunk := clusters[m := clusters[m][..k]];
    ConcatUnfolds(clusters);
    ConcatUnfolds(shrunk);
    assert shrunk[..m] == clusters[..m];
    hide Concat;
  }

  lemma ShrunkClusters(clusters: seq<seq<real>>, before: seq<seq<real>>, percent: real)
    requires clusters != [] && NoEmpty(clusters)
    requires forall i, k :: 0 <= i < |clusters| && 0 < k < |clusters[i]|
               ==> Near(clusters[i][..k], clusters[i][k], percent)
    requires forall i :: 0 <= i < |clusters| - 1 ==> !Near(clusters[i], clusters[i + 1][0], percent)
    requires var m := |clusters| - 1;
             var k := |clusters[m]| - 1;
             before == if k == 0 then clusters[..m] else clusters[m := clusters[m][..k]]
    ensures Clustering(Concat(before), before, percent)
  {
    hide Near, Concat;
    var m := |clusters| - 1;
    var last := |clusters[m]| - 1;
    forall i, k | 0 <= i < |before| && 0 < k < |before[i]|
      ensures Near(before[i][..k], before[i][k], percent)
    {
      assert before[i][..k] == clusters[i][..k] && before[i][k] == clusters[i][k];
    }
    forall i | 0 <= i < |before| - 1 ensures !Near(before[i], before[i + 1][0], percent) {
      assert before[i] == clusters[i] && before[i + 1][0] == clusters[i + 1][0];
    }
  }

  function TotalTouches(levels: seq<Level>): nat
  {
    if levels == [] then 0 else TotalTouches(levels[..|levels| - 1]) + levels[|levels| - 1].touches
  }

  lemma {:induction false} TouchesCount(clusters: seq<seq<real>>)
    requires NoEmpty(clusters)
    ensures TotalTouches(LevelsOf(clusters)) == |Concat(clusters)|
  {
    if clusters != [] {
      var m := |clusters| - 1;
      TouchesCount(clusters[..m]);
      assert LevelsOf(clusters)[..m] == LevelsOf(clusters[..m]);
    }
  }

  /** Each level exceeds the one before by more than that one's tolerance. */
  predicate Separated(levels: seq<Level>, percent: real)
  {
    forall i, j :: 0 <= i < j < |levels| ==> levels[j].price > levels[i].price + Tolerance(levels[i].price, percent)
  }

  /** The levels of any prices: every pivot counts once, and the levels are
      separated by more than their tolerances. */
  lemma LevelsSeparated(prices: seq<real>, percent: real)
    ensures var levels := LevelsOf(Linear(SortedOf(prices), percent));
            TotalTouches(levels) == |prices| && Separated(levels, percent)
  {
    hide Average, Tolerance, Near, Linear;
    var xs := SortedOf(prices);
    var clusters := Linear(xs, percent);
    SortedOrders(prices);
    LinearClusters(xs, percent);
    LinearShape(xs, percent);
    TouchesCount(clusters);
    forall i, j | 0 <= i < j < |clusters|
      ensures Average(clusters[j]) > Average(clusters[i]) + Tolerance(Average(clusters[i]), percent)
    {
      AverageAbove(clusters[j], Average(clusters[i]) + Tolerance(Average(clusters[i]), percent));
    }
  }
}
