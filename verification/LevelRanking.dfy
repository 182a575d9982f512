/** The detector around the clustering: pivots of the window, and the ranking
    of the levels on each side of the latest close. */
module LevelRanking {
  import opened Market
  import opened Numbers
  import opened Rounding
  import opened Sequences
  import opened SupportResistance

  // ----- pivots -----

  /** A bar whose low is the lowest of the five around it. */
  predicate PivotLow(w: seq<Bar>, i: int)
  {
    2 <= i < |w| - 2 && forall k :: i - 2 <= k <= i + 2 ==> w[i].low <= w[k].low
  }

  predicate PivotHigh(w: seq<Bar>, i: int)
  {
    2 <= i < |w| - 2 && forall k :: i - 2 <= k <= i + 2 ==> w[k].high <= w[i].high
  }

  function PivotLows(w: seq<Bar>, m: nat): seq<real>
    requires m <= |w|
  {
    if m == 0 then []
    else if PivotLow(w, m - 1) then PivotLows(w, m - 1) + [w[m - 1].low]
    else PivotLows(w, m - 1)
  }

  function PivotHighs(w: seq<Bar>, m: nat): seq<real>
    requires m <= |w|
  {
    if m == 0 then []
    else if PivotHigh(w, m - 1) then PivotHighs(w, m - 1) + [w[m - 1].high]
    else PivotHighs(w, m - 1)
  }

  lemma FiveAround(w: seq<Bar>, i: int)
    requires 2 <= i < |w| - 2
    ensures PivotLow(w, i) <==>
              && w[i].low <= Min(w[i - 1].low, w[i - 2].low)
              && w[i].low <= Min(w[i + 1].low, w[i + 2].low)
    ensures PivotHigh(w, i) <==>
              && w[i].high >= Max(w[i - 1].high, w[i - 2].high)
              && w[i].high >= Max(w[i + 1].high, w[i + 2].high)
  {
    if w[i].low <= Min(w[i - 1].low, w[i - 2].low) && w[i].low <= Min(w[i + 1].low, w[i + 2].low) {
      forall k | i - 2 <= k <= i + 2 ensures w[i].low <= w[k].low {
        assert k == i - 2 || k == i - 1 || k == i || k == i + 1 || k == i + 2;
      }
    }
    if w[i].high >= Max(w[i - 1].high, w[i - 2].high) && w[i].high >= Max(w[i + 1].high, w[i + 2].high) {
      forall k | i - 2 <= k <= i + 2 ensures w[k].high <= w[i].high {
        assert k == i - 2 || k == i - 1 || k == i || k == i + 1 || k == i + 2;
      }
    }
  }

  // ----- sides and ranking -----

  function AtMost(levels: seq<Level>, close: real): (ls: seq<Level>)
    ensures forall l :: l in ls <==> l in levels && l.price <= close
  {
    if levels == [] then []
    else
      var n := |levels| - 1;
      assert levels == levels[..n] + [levels[n]];
      if levels[n].price <= close then AtMost(levels[..n], close) + [levels[n]] else AtMost(levels[..n], close)
  }

  function AtLeast(levels: seq<Level>, close: real): (ls: seq<Level>)
    ensures forall l :: l in ls <==> l in levels && l.price >= close
  {
    if levels == [] then []
    else
      var n := |levels| - 1;
      assert levels == levels[..n] + [levels[n]];
      if levels[n].price >= close then AtLeast(levels[..n], close) + [levels[n]] else AtLeast(levels[..n], close)
  }

  /** The sort key: smaller distance first, then more touches. */
  predicate RanksBefore(a: Level, b: Level, close: real)
  {
    var da, db := Abs(close - a.price), Abs(close - b.price);
    da < db || (da == db && a.touches > b.touches)
  }

  function RanksBy(close: real): (Level, Level) -> bool
  {
    (a, b) => RanksBefore(a, b, close)
  }

  /** A stable sort by that key. */
  function Ranked(levels: seq<Level>, close: real): seq<Level>
  {
    SortBy(levels, RanksBy(close))
  }

  function Top(levels: seq<Level>): seq<Level>
  {
    if |levels| <= TOP then levels else levels[..TOP]
  }

  predicate Rising(levels: seq<Level>)
  {
    forall i, j :: 0 <= i < j < |levels| ==> levels[i].price < levels[j].price
  }

  lemma SeparatedRises(levels: seq<Level>, percent: real)
    requires Separated(levels, percent)
    ensures Rising(levels)
  {
    hide Tolerance;
  }

  lemma RisingSnoc(levels: seq<Level>, l: Level)
    requires Rising(levels) && forall k :: k in levels ==> k.price < l.price
    ensures Rising(levels + [l])
  {
  }

  lemma RisingInit(levels: seq<Level>)
    requires Rising(levels) && levels != []
    ensures Rising(levels[..|levels| - 1])
    ensures forall l :: l in levels[..|levels| - 1] ==> l.price < levels[|levels| - 1].price
  {
  }

  lemma {:induction false} SidesRise(levels: seq<Level>, close: real)
    requires Rising(levels)
    ensures Rising(AtMost(levels, close)) && Rising(AtLeast(levels, close))
  {
    hide Rising;
    if levels == [] {
      NothingRises();
    } else {
      var n := |levels| - 1;
      RisingInit(levels);
      SidesRise(levels[..n], close);
      RisingSnoc(AtMost(levels[..n], close), levels[n]);
      RisingSnoc(AtLeast(levels[..n], close), levels[n]);
    }
  }

  lemma NothingRises()
    ensures Rising([])
  {
  }

  /** Levels at or below the close rank from the highest down. */
  lemma SupportsRank(levels: seq<Level>, close: real)
    requires Rising(levels) && forall l :: l in levels ==> l.price <= close
    ensures Ranked(levels, close) == Reverse(levels)
  {
    forall i, j | 0 <= i < j < |levels| ensures RanksBy(close)(levels[j], levels[i]) {
      assert levels[i] in levels && levels[j] in levels;
    }
    SortOpposite(levels, RanksBy(close));
  }

  /** Levels at or above the close rank from the lowest up. */
  lemma ResistancesRank(levels: seq<Level>, close: real)
    requires Rising(levels) && forall l :: l in levels ==> l.price >= close
    ensures Ranked(levels, close) == levels
  {
    forall i, j | 0 <= i < j < |levels| ensures !RanksBy(close)(levels[j], levels[i]) {
      assert levels[i] in levels && levels[j] in levels;
    }
    SortOrdered(levels, RanksBy(close));
  }

  // ----- the detector -----

  function Window(frame: seq<Bar>, lookback: nat): seq<Bar>
  {
    if |frame| <= lookback then frame else frame[|frame| - lookback..]
  }

  function LevelsFrom(pivots: seq<real>, percent: real): seq<Level>
  {
    LevelsOf(Linear(SortedOf(pivots), percent))
  }

  /** Support levels of a window, lowest first. */
  function SupportLevels(w: seq<Bar>, percent: real): seq<Level>
    requires w != []
  {
    AtMost(LevelsFrom(PivotLows(w, |w|), percent), w[|w| - 1].close)
  }

  function ResistanceLevels(w: seq<Bar>, percent: real): seq<Level>
    requires w != []
  {
    AtLeast(LevelsFrom(PivotHighs(w, |w|), percent), w[|w| - 1].close)
  }

  function Detection(w: seq<Bar>, percent: real): Detected
  {
    if |w| < 5 then Detected([], [], None, None)
    else
      var s, r := SupportLevels(w, percent), ResistanceLevels(w, percent);
      Detected(Top(Reverse(s)), Top(r),
               if s == [] then None else Some(s[|s| - 1].price),
               if r == [] then None else Some(r[0].price))
  }

  lemma PivotsStart(w: seq<Bar>)
    requires |w| >= 5
    ensures PivotLows(w, 2) == [] && PivotHighs(w, 2) == []
  {
    assert !PivotLow(w, 0) && !PivotLow(w, 1) && !PivotHigh(w, 0) && !PivotHigh(w, 1);
    assert PivotLows(w, 0) == [] && PivotHighs(w, 0) == [];
    assert PivotLows(w, 1) == [] && PivotHighs(w, 1) == [];
  }

  lemma PivotsEnd(w: seq<Bar>)
    requires |w| >= 5
    ensures PivotLows(w, |w|) == PivotLows(w, |w| - 2) && PivotHighs(w, |w|) == PivotHighs(w, |w| - 2)
  {
    assert PivotLows(w, |w| - 1) == PivotLows(w, |w| - 2) && PivotHighs(w, |w| - 1) == PivotHighs(w, |w| - 2);
  }

  method DetectSupportResistance(frame: seq<Bar>, lookback: nat, tolerancePercent: real) returns (d: Detected)
    ensures d == Detection(Window(frame, lookback), tolerancePercent)
  {
    hide PivotLow, PivotHigh, Min, Max, Ranked, Reverse, Rising, AtMost, AtLeast, LevelsOf, Linear, SortedOf;
    var window := Window(frame, lookback);
    hide Window;
    if |window| < 5 {
      return Detected([], [], None, None);
    }
    var lows, highs: seq<real> := [], [];
    PivotsStart(window);
    for index := 2 to |window| - 2
      invariant lows == PivotLows(window, index) && highs == PivotHighs(window, index)
    {
      FiveAround(window, index);
      var low, high := window[index].low, window[index].high;
      if low <= Min(window[index - 1].low, window[index - 2].low)
         && low <= Min(window[index + 1].low, window[index + 2].low) {
        lows := lows + [low];
      }
      if high >= Max(window[index - 1].high, window[index - 2].high)
         && high >= Max(window[index + 1].high, window[index + 2].high) {
        highs := highs + [high];
      }
    }
    PivotsEnd(window);
    hide PivotLows, PivotHighs;
    d := Rank(lows, highs, window[|window| - 1].close, tolerancePercent);
  }

  method Rank(lows: seq<real>, highs: seq<real>, latestClose: real, tolerancePercent: real) returns (d: Detected)
    ensures var s, r := AtMost(LevelsFrom(lows, tolerancePercent), latestClose),
                        AtLeast(LevelsFrom(highs, tolerancePercent), latestClose);
            d == Detected(Top(Reverse(s)), Top(r),
                          if s == [] then None else Some(s[|s| - 1].price),
                          if r == [] then None else Some(r[0].price))
  {
    hide Ranked, Rising, AtMost, AtLeast, LevelsOf, Linear, SortedOf, Reverse, Separated;
    var lowLevels := ClusterLevels(lows, tolerancePercent);
    var highLevels := ClusterLevels(highs, tolerancePercent);
    ghost var s, r := AtMost(lowLevels, latestClose), AtLeast(highLevels, latestClose);
    LevelsSeparated(lows, tolerancePercent);
    LevelsSeparated(highs, tolerancePercent);
    SeparatedRises(lowLevels, tolerancePercent);
    SeparatedRises(highLevels, tolerancePercent);
    SidesRise(lowLevels, latestClose);
    SidesRise(highLevels, latestClose);
    SupportsRank(s, latestClose);
    ResistancesRank(r, latestClose);
    ReverseElements(s);
    var supports := Ranked(AtMost(lowLevels, latestClose), latestClose);
    var resistances := Ranked(AtLeast(highLevels, latestClose), latestClose);
    d := Detected(Top(supports), Top(resistances),
                  if supports != [] then Some(supports[0].price) else None,
                  if resistances != [] then Some(resistances[0].price) else None);
  }

  /** `p` is the highest level price at or below the close, if there is one. */
  predicate HighestAtMost(levels: seq<Level>, close: real, p: Option<real>)
  {
    match p
    case None => forall l :: l in levels ==> l.price > close
    case Some(price) =>
      && price <= close
      && (exists l :: l in levels && l.price == price)
      && (forall l :: l in levels && l.price <= close ==> l.price <= price)
  }

  predicate LowestAtLeast(levels: seq<Level>, close: real, p: Option<real>)
  {
    match p
    case None => forall l :: l in levels ==> l.price < close
    case Some(price) =>
      && price >= close
      && (exists l :: l in levels && l.price == price)
      && (forall l :: l in levels && l.price >= close ==> l.price >= price)
  }

  lemma LastIsHighest(levels: seq<Level>, close: real)
    requires Rising(levels)
    ensures var s := AtMost(levels, close);
            HighestAtMost(levels, close, if s == [] then None else Some(s[|s| - 1].price))
  {
    SidesRise(levels, close);
    var s := AtMost(levels, close);
    if s != [] {
      assert s[|s| - 1] in s;
    }
  }

  lemma FirstIsLowest(levels: seq<Level>, close: real)
    requires Rising(levels)
    ensures var r := AtLeast(levels, close);
            LowestAtLeast(levels, close, if r == [] then None else Some(r[0].price))
  {
    SidesRise(levels, close);
    var r := AtLeast(levels, close);
    if r != [] {
      assert r[0] in r;
    }
  }

  /** The nearest support is the highest level of the pivot lows at or below
      the latest close, and the nearest resistance the lowest level of the
      pivot highs at or above it; each is missing exactly when there is none. */
  lemma NearestLevels(w: seq<Bar>, percent: real)
    requires |w| >= 5
    ensures var d, close := Detection(w, percent), w[|w| - 1].close;
            && HighestAtMost(LevelsFrom(PivotLows(w, |w|), percent), close, d.nearestSupport)
            && LowestAtLeast(LevelsFrom(PivotHighs(w, |w|), percent), close, d.nearestResistance)
  {
    var close := w[|w| - 1].close;
    var lows, highs := LevelsFrom(PivotLows(w, |w|), percent), LevelsFrom(PivotHighs(w, |w|), percent);
    LevelsSeparated(PivotLows(w, |w|), percent);
    LevelsSeparated(PivotHighs(w, |w|), percent);
    SeparatedRises(lows, percent);
    SeparatedRises(highs, percent);
    LastIsHighest(lows, close);
    FirstIsLowest(highs, close);
    hide HighestAtMost, LowestAtLeast, AtMost, AtLeast, LevelsFrom, PivotLows, PivotHighs, Reverse;
  }

  // ----- the same, said of the whole frame -----

  /** Bar `k` has the lowest low of the five around it. */
  predicate LowestOfFive(frame: seq<Bar>, k: int)
  {
    && 2 <= k < |frame| - 2
    && frame[k].low <= frame[k - 1].low && frame[k].low <= frame[k - 2].low
    && frame[k].low <= frame[k + 1].low && frame[k].low <= frame[k + 2].low
  }

  predicate HighestOfFive(frame: seq<Bar>, k: int)
  {
    && 2 <= k < |frame| - 2
    && frame[k].high >= frame[k - 1].high && frame[k].high >= frame[k - 2].high
    && frame[k].high >= frame[k + 1].high && frame[k].high >= frame[k + 2].high
  }

  predicate Increasing(ks: seq<nat>)
  {
    forall p, q :: 0 <= p < q < |ks| ==> ks[p] < ks[q]
  }

  /** `lows` are the pivot lows of the bars `w`, in order, and `ks` their places. */
  ghost predicate AreLows(w: seq<Bar>, ks: seq<nat>, lows: seq<real>)
  {
    && Increasing(ks) && |ks| == |lows|
    && (forall k :: k in ks <==> LowestOfFive(w, k))
    && (forall q :: 0 <= q < |ks| ==> ks[q] < |w| && lows[q] == w[ks[q]].low)
  }

  ghost predicate AreHighs(w: seq<Bar>, ks: seq<nat>, highs: seq<real>)
  {
    && Increasing(ks) && |ks| == |highs|
    && (forall k :: k in ks <==> HighestOfFive(w, k))
    && (forall q :: 0 <= q < |ks| ==> ks[q] < |w| && highs[q] == w[ks[q]].high)
  }

  function LowsAt(w: seq<Bar>, n: nat): (ks: seq<nat>)
    requires n <= |w|
    ensures Increasing(ks) && forall k :: k in ks <==> 0 <= k < n && PivotLow(w, k)
  {
    if n == 0 then []
    else if PivotLow(w, n - 1) then
      var rest := LowsAt(w, n - 1);
      assert forall q :: 0 <= q < |rest| ==> rest[q] in rest;
      rest + [n - 1]
    else LowsAt(w, n - 1)
  }

  function HighsAt(w: seq<Bar>, n: nat): (ks: seq<nat>)
    requires n <= |w|
    ensures Increasing(ks) && forall k :: k in ks <==> 0 <= k < n && PivotHigh(w, k)
  {
    if n == 0 then []
    else if PivotHigh(w, n - 1) then
      var rest := HighsAt(w, n - 1);
      assert forall q :: 0 <= q < |rest| ==> rest[q] in rest;
      rest + [n - 1]
    else HighsAt(w, n - 1)
  }

  lemma {:induction false} LowsValues(w: seq<Bar>, n: nat)
    requires n <= |w|
    ensures |PivotLows(w, n)| == |LowsAt(w, n)|
    ensures forall q :: 0 <= q < |LowsAt(w, n)| ==> LowsAt(w, n)[q] < n && PivotLows(w, n)[q] == w[LowsAt(w, n)[q]].low
  {
    hide PivotLow, Increasing;
    if n > 0 {
      LowsValues(w, n - 1);
    }
  }

  lemma {:induction false} HighsValues(w: seq<Bar>, n: nat)
    requires n <= |w|
    ensures |PivotHighs(w, n)| == |HighsAt(w, n)|
    ensures forall q :: 0 <= q < |HighsAt(w, n)| ==>
              HighsAt(w, n)[q] < n && PivotHighs(w, n)[q] == w[HighsAt(w, n)[q]].high
  {
    hide PivotHigh, Increasing;
    if n > 0 {
      HighsValues(w, n - 1);
    }
  }

  lemma PivotExactly(w: seq<Bar>, k: int)
    ensures PivotLow(w, k) <==> LowestOfFive(w, k)
    ensures PivotHigh(w, k) <==> HighestOfFive(w, k)
  {
    if 2 <= k < |w| - 2 {
      FiveAround(w, k);
      hide PivotLow, PivotHigh;
    }
  }

  lemma LowsOf(w: seq<Bar>)
    ensures AreLows(w, LowsAt(w, |w|), PivotLows(w, |w|))
  {
    LowsValues(w, |w|);
    InsideLow(w);
    hide PivotLow, LowestOfFive, Increasing, LowsAt, PivotLows;
  }

  lemma InsideLow(w: seq<Bar>)
    ensures forall k :: LowestOfFive(w, k) <==> 0 <= k < |w| && PivotLow(w, k)
  {
    forall k ensures LowestOfFive(w, k) <==> 0 <= k < |w| && PivotLow(w, k) {
      PivotExactly(w, k);
    }
  }

  lemma HighsOf(w: seq<Bar>)
    ensures AreHighs(w, HighsAt(w, |w|), PivotHighs(w, |w|))
  {
    HighsValues(w, |w|);
    InsideHigh(w);
    hide PivotHigh, HighestOfFive, Increasing, HighsAt, PivotHighs;
  }

  lemma InsideHigh(w: seq<Bar>)
    ensures forall k :: HighestOfFive(w, k) <==> 0 <= k < |w| && PivotHigh(w, k)
  {
    forall k ensures HighestOfFive(w, k) <==> 0 <= k < |w| && PivotHigh(w, k) {
      PivotExactly(w, k);
    }
  }

  /** The last `lookback` bars, or all when there are fewer. */
  function LastBars(frame: seq<Bar>, lookback: nat): seq<Bar>
  {
    frame[if |frame| > lookback then |frame| - lookback else 0..]
  }

  lemma WindowIsLast(frame: seq<Bar>, lookback: nat)
    ensures Window(frame, lookback) == LastBars(frame, lookback)
  {
  }

  /** At most five levels on one side of the close, from the nearest out, and no
      nearer one left out. */
  predicate AreNearest(shown: seq<Level>, levels: seq<Level>, side: Level -> bool, nearer: (Level, Level) -> bool)
  {
    && |shown| <= 5
    && (forall l :: l in shown ==> l in levels && side(l))
    && (forall i, j :: 0 <= i < j < |shown| ==> nearer(shown[i], shown[j]))
    && (forall l :: l in levels && side(l) && l !in shown ==> |shown| == 5 && forall k :: k in shown ==> nearer(k, l))
  }

  function NotAbove(close: real): Level -> bool
  {
    (l: Level) => l.price <= close
  }

  function NotBelow(close: real): Level -> bool
  {
    (l: Level) => l.price >= close
  }

  predicate Higher(a: Level, b: Level)
  {
    a.price > b.price
  }

  predicate LowerLevel(a: Level, b: Level)
  {
    a.price < b.price
  }

  /** The first five of a side listed from the nearest out. */
  lemma FirstFive(listed: seq<Level>, levels: seq<Level>, side: Level -> bool, nearer: (Level, Level) -> bool)
    requires forall l :: l in listed <==> l in levels && side(l)
    requires forall i, j :: 0 <= i < j < |listed| ==> nearer(listed[i], listed[j])
    ensures AreNearest(Top(listed), levels, side, nearer)
  {
    var shown := Top(listed);
    assert |shown| <= |listed| && |shown| <= 5 && (|shown| == |listed| || |shown| == 5);
    assert shown == listed[..|shown|];
    hide Top;
    forall l | l in levels && side(l) && l !in shown
      ensures |shown| == 5 && forall k :: k in shown ==> nearer(k, l)
    {
      var j :| 0 <= j < |listed| && listed[j] == l;
      LeftOut(listed, |shown|, j, nearer);
    }
  }

  lemma LeftOut(listed: seq<Level>, n: nat, j: nat, nearer: (Level, Level) -> bool)
    requires n <= |listed| && j < |listed| && listed[j] !in listed[..n]
    requires forall i, j :: 0 <= i < j < |listed| ==> nearer(listed[i], listed[j])
    ensures n <= j && forall k :: k in listed[..n] ==> nearer(k, listed[j])
  {
    if j < n {
      assert false;
    }
  }

  lemma FiveHighest(levels: seq<Level>, close: real)
    requires Rising(levels)
    ensures AreNearest(Top(Reverse(AtMost(levels, close))), levels, NotAbove(close), Higher)
  {
    SidesRise(levels, close);
    var s := AtMost(levels, close);
    ReverseElements(s);
    forall l ensures l in Reverse(s) <==> l in s {
      ReversedMembers(s, l);
    }
    hide AtMost, Reverse, Top, AreNearest;
    FirstFive(Reverse(s), levels, NotAbove(close), Higher);
  }

  lemma ReversedMembers(s: seq<Level>, l: Level)
    ensures l in Reverse(s) <==> l in s
  {
    ReverseMultiset(s);
    assert l in multiset(Reverse(s)) <==> l in multiset(s);
  }

  lemma FiveLowest(levels: seq<Level>, close: real)
    requires Rising(levels)
    ensures AreNearest(Top(AtLeast(levels, close)), levels, NotBelow(close), LowerLevel)
  {
    SidesRise(levels, close);
    hide AtLeast, Top, AreNearest;
    FirstFive(AtLeast(levels, close), levels, NotBelow(close), LowerLevel);
  }

  /** What the detector says of a frame.  With fewer than five bars in view it
      finds nothing.  Otherwise the levels come from the pivots among the last
      `lookback` bars, or all when there are fewer; both lists and both nearest
      levels are taken around the close of the frame's last bar. */
  lemma DetectedInFrame(frame: seq<Bar>, lookback: nat, percent: real, d: Detected)
    returns (lowAt: seq<nat>, lows: seq<real>, highAt: seq<nat>, highs: seq<real>)
    requires d == Detection(Window(frame, lookback), percent)
    ensures |LastBars(frame, lookback)| < 5 ==> d == Detected([], [], None, None)
    ensures |LastBars(frame, lookback)| >= 5 ==>
              var bars, close := LastBars(frame, lookback), frame[|frame| - 1].close;
              var supports, resistances := LevelsFrom(lows, percent), LevelsFrom(highs, percent);
              && AreLows(bars, lowAt, lows) && AreHighs(bars, highAt, highs)
              && AreNearest(d.supports, supports, NotAbove(close), Higher)
              && AreNearest(d.resistances, resistances, NotBelow(close), LowerLevel)
              && HighestAtMost(supports, close, d.nearestSupport)
              && LowestAtLeast(resistances, close, d.nearestResistance)
  {
    var w := LastBars(frame, lookback);
    WindowIsLast(frame, lookback);
    lowAt, lows, highAt, highs := LowsAt(w, |w|), PivotLows(w, |w|), HighsAt(w, |w|), PivotHighs(w, |w|);
    if |w| >= 5 {
      assert w[|w| - 1] == frame[|frame| - 1];
      LowsOf(w);
      HighsOf(w);
      NearestLevels(w, percent);
      LevelsRise(lows, percent);
      LevelsRise(highs, percent);
      hide Window, LastBars, AreLows, AreHighs, PivotLows, PivotHighs, LowsAt, HighsAt, HighestAtMost, LowestAtLeast,
        LevelsFrom, AreNearest, AtMost, AtLeast, Reverse, Top, Rising;
      FiveHighest(LevelsFrom(lows, percent), w[|w| - 1].close);
      FiveLowest(LevelsFrom(highs, percent), w[|w| - 1].close);
    }
  }

  lemma LevelsRise(pivots: seq<real>, percent: real)
    ensures Rising(LevelsFrom(pivots, percent))
  {
    LevelsSeparated(pivots, percent);
    hide LevelsOf, Linear, SortedOf, Separated;
    SeparatedRises(LevelsFrom(pivots, percent), percent);
  }

  /** Bars before the last `lookback` ones never change the answer. */
  lemma OlderBarsDoNotCount(older: seq<Bar>, frame: seq<Bar>, lookback: nat, percent: real)
    requires |frame| >= lookback
    ensures Detection(Window(older + frame, lookback), percent) == Detection(Window(frame, lookback), percent)
  {
    WindowIsLast(frame, lookback);
    WindowIsLast(older + frame, lookback);
    hide Window, Detection;
    assert LastBars(older + frame, lookback) == LastBars(frame, lookback);
  }
}
