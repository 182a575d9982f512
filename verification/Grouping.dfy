/** Grouping of trades by a key, and why the groups' figures add up. */
module Grouping {
  import opened Sequences
  import opened Drawdown
  import opened Analytics

  type KeyOf = AnalyticsTrade -> string

  function OfKey(trades: seq<AnalyticsTrade>, keyOf: KeyOf, key: string): seq<AnalyticsTrade>
  {
    if trades == [] then []
    else if keyOf(trades[|trades| - 1]) == key then
      OfKey(trades[..|trades| - 1], keyOf, key) + [trades[|trades| - 1]]
    else OfKey(trades[..|trades| - 1], keyOf, key)
  }

  lemma OfKeySnoc(trades: seq<AnalyticsTrade>, t: AnalyticsTrade, keyOf: KeyOf, key: string)
    ensures OfKey(trades + [t], keyOf, key)
            == if keyOf(t) == key then OfKey(trades, keyOf, key) + [t] else OfKey(trades, keyOf, key)
  {
    assert (trades + [t])[..|trades|] == trades;
  }

  predicate Distinct(keys: seq<string>)
  {
    forall i, j :: 0 <= i < j < |keys| ==> keys[i] != keys[j]
  }

  predicate Covers(keys: seq<string>, trades: seq<AnalyticsTrade>, keyOf: KeyOf)
  {
    forall t :: t in trades ==> keyOf(t) in keys
  }

  function Keys(groups: seq<Group>): (ks: seq<string>)
    ensures |ks| == |groups|
    ensures forall i :: 0 <= i < |ks| ==> ks[i] == groups[i].key
  {
    seq(|groups|, i requires 0 <= i < |groups| => groups[i].key)
  }

  /** One group per key that occurs, holding that key's trades in their order. */
  predicate IsPartition(groups: seq<Group>, trades: seq<AnalyticsTrade>, keyOf: KeyOf)
  {
    && Distinct(Keys(groups))
    && Covers(Keys(groups), trades, keyOf)
    && forall i :: 0 <= i < |groups| ==>
         groups[i].trades != [] && groups[i].trades == OfKey(trades, keyOf, groups[i].key)
  }

  // ----- the loop -----

  /** The entries of the map, in the order their keys were first set. */
  ghost predicate Holds(keys: seq<string>, groups: map<string, seq<AnalyticsTrade>>, trades: seq<AnalyticsTrade>,
                        keyOf: KeyOf)
  {
    && Distinct(keys)
    && Covers(keys, trades, keyOf)
    && (forall k :: k in keys <==> k in groups)
    && (forall k :: k in groups ==> groups[k] != [] && groups[k] == OfKey(trades, keyOf, k))
  }

  lemma HoldsStep(keys: seq<string>, groups: map<string, seq<AnalyticsTrade>>, trades: seq<AnalyticsTrade>,
                  t: AnalyticsTrade, keyOf: KeyOf)
    requires Holds(keys, groups, trades, keyOf)
    ensures var key := keyOf(t);
            var had := if key in groups then groups[key] else [];
            Holds(if key in groups then keys else keys + [key], groups[key := had + [t]], trades + [t], keyOf)
  {
    hide OfKey;
    var key := keyOf(t);
    if key !in groups {
      NoneOfKey(keys, trades, keyOf, key);
    }
    forall k ensures OfKey(trades + [t], keyOf, k)
                     == if key == k then OfKey(trades, keyOf, k) + [t] else OfKey(trades, keyOf, k)
    {
      OfKeySnoc(trades, t, keyOf, k);
    }
    forall u | u in trades + [t] ensures u in trades || u == t {
    }
  }

  lemma {:induction false} NoneOfKey(keys: seq<string>, trades: seq<AnalyticsTrade>, keyOf: KeyOf, key: string)
    requires Covers(keys, trades, keyOf) && key !in keys
    ensures OfKey(trades, keyOf, key) == []
  {
    if trades != [] {
      var n := |trades| - 1;
      assert keyOf(trades[n]) in keys;
      forall t | t in trades[..n] ensures t in trades {
      }
      NoneOfKey(keys, trades[..n], keyOf, key);
    }
  }

  lemma HoldsNothing(keyOf: KeyOf)
    ensures Holds([], map[], [], keyOf)
  {
  }

  function Entries(keys: seq<string>, groups: map<string, seq<AnalyticsTrade>>): (es: seq<Group>)
    requires forall k :: k in keys ==> k in groups
    ensures |es| == |keys|
    ensures forall i :: 0 <= i < |keys| ==> es[i] == Group(keys[i], groups[keys[i]])
  {
    seq(|keys|, i requires 0 <= i < |keys| => Group(keys[i], groups[keys[i]]))
  }

  /** `collate` is the locale's order on keys, whatever it is. */
  function ByKey(collate: (string, string) -> bool): (Group, Group) -> bool
  {
    (a: Group, b: Group) => collate(a.key, b.key)
  }

  /** The groups a report shows: each of its keys with that key's trades. */
  function GroupsOf(out: seq<GroupedTradingMetrics>, trades: seq<AnalyticsTrade>, keyOf: KeyOf): (groups: seq<Group>)
    ensures |groups| == |out|
    ensures forall i :: 0 <= i < |out| ==> groups[i] == Group(out[i].key, OfKey(trades, keyOf, out[i].key))
  {
    seq(|out|, i requires 0 <= i < |out| => Group(out[i].key, OfKey(trades, keyOf, out[i].key)))
  }

  /** The groups shown partition the trades, each with its own figures. */
  predicate IsReport(out: seq<GroupedTradingMetrics>, trades: seq<AnalyticsTrade>, keyOf: KeyOf)
  {
    && IsPartition(GroupsOf(out, trades, keyOf), trades, keyOf)
    && forall i :: 0 <= i < |out| ==> IsMetrics(OfKey(trades, keyOf, out[i].key), out[i].metrics)
  }

  lemma ReportOfGroups(out: seq<GroupedTradingMetrics>, groups: seq<Group>, trades: seq<AnalyticsTrade>, keyOf: KeyOf)
    requires IsPartition(groups, trades, keyOf) && |out| == |groups|
    requires forall i :: 0 <= i < |out| ==>
               out[i].key == groups[i].key && IsMetrics(groups[i].trades, out[i].metrics)
    ensures IsReport(out, trades, keyOf)
  {
    hide OfKey, IsMetrics, Distinct, Covers;
    assert GroupsOf(out, trades, keyOf) == groups;
  }

  method Grouped(trades: seq<AnalyticsTrade>, keyOf: KeyOf, collate: (string, string) -> bool)
    returns (out: seq<GroupedTradingMetrics>)
    ensures IsReport(out, trades, keyOf)
    ensures WeakOrder(collate) ==> forall i, j :: 0 <= i < j < |out| ==> !collate(out[j].key, out[i].key)
  {
    hide WeakOrder, Holds, IsPartition, IsMetrics, Distinct, Covers, SortBy, IsReport;
    var groups: map<string, seq<AnalyticsTrade>> := map[];
    var keys: seq<string> := [];
    HoldsNothing(keyOf);
    for i := 0 to |trades|
      invariant Holds(keys, groups, trades[..i], keyOf)
    {
      HoldsStep(keys, groups, trades[..i], trades[i], keyOf);
      assert trades[..i + 1] == trades[..i] + [trades[i]];
      var key := keyOf(trades[i]);
      if key !in groups {
        keys := keys + [key];
      }
      groups := groups[key := (if key in groups then groups[key] else []) + [trades[i]]];
    }
    assert trades[..|trades|] == trades;
    HoldsKeys(keys, groups, trades, keyOf);
    var entries := Entries(keys, groups);
    var sorted := SortBy(entries, ByKey(collate));
    SortKeeps(entries, ByKey(collate));
    PartitionReordered(entries, sorted, trades, keyOf);
    if WeakOrder(collate) {
      SortedKeys(entries, collate);
    }
    out := [];
    for i := 0 to |sorted|
      invariant |out| == i
      invariant forall k :: 0 <= k < i ==> out[k].key == sorted[k].key && IsMetrics(sorted[k].trades, out[k].metrics)
    {
      var metrics := Calculate(sorted[i].trades);
      out := out + [GroupedTradingMetrics(sorted[i].key, metrics)];
    }
    ReportOfGroups(out, sorted, trades, keyOf);
  }

  lemma SortedKeys(groups: seq<Group>, collate: (string, string) -> bool)
    requires WeakOrder(collate)
    ensures var sorted := SortBy(groups, ByKey(collate));
            forall i, j :: 0 <= i < j < |sorted| ==> !collate(sorted[j].key, sorted[i].key)
  {
    var before := ByKey(collate);
    forall a, b, c | !before(b, a) && !before(c, b) ensures !before(c, a) {
      assert !collate(b.key, a.key) && !collate(c.key, b.key);
    }
    forall a, b | before(a, b) ensures !before(b, a) {
      assert collate(a.key, b.key);
    }
    assert WeakOrder(before);
    SortOrders(groups, ByKey(collate));
    hide SortBy;
    var sorted := SortBy(groups, ByKey(collate));
    forall i, j | 0 <= i < j < |sorted| ensures !collate(sorted[j].key, sorted[i].key) {
      assert !ByKey(collate)(sorted[j], sorted[i]);
    }
  }

  lemma HoldsKeys(keys: seq<string>, groups: map<string, seq<AnalyticsTrade>>, trades: seq<AnalyticsTrade>,
                  keyOf: KeyOf)
    requires Holds(keys, groups, trades, keyOf)
    ensures forall k :: k in keys ==> k in groups
    ensures IsPartition(Entries(keys, groups), trades, keyOf)
  {
    hide OfKey;
    assert Keys(Entries(keys, groups)) == keys;
  }

  /** Reordering the groups leaves a partition a partition. */
  lemma PartitionReordered(a: seq<Group>, b: seq<Group>, trades: seq<AnalyticsTrade>, keyOf: KeyOf)
    requires IsPartition(a, trades, keyOf) && multiset(a) == multiset(b)
    ensures IsPartition(b, trades, keyOf)
  {
    hide OfKey;
    forall i | 0 <= i < |b| ensures b[i] in a {
      assert b[i] in multiset(b);
    }
    forall t | t in trades ensures keyOf(t) in Keys(b) {
      var i :| 0 <= i < |a| && Keys(a)[i] == keyOf(t);
      assert a[i] in multiset(a);
      var j :| 0 <= j < |b| && b[j] == a[i];
      assert Keys(b)[j] == keyOf(t);
    }
    DistinctReordered(a, b);
  }

  lemma DistinctReordered(a: seq<Group>, b: seq<Group>)
    requires Distinct(Keys(a)) && multiset(a) == multiset(b)
    ensures Distinct(Keys(b))
  {
    if !Distinct(Keys(b)) {
      var i, j :| 0 <= i < j < |b| && b[i].key == b[j].key;
      assert b[i] in multiset(b) && b[j] in multiset(b);
      var p :| 0 <= p < |a| && a[p] == b[i];
      var q :| 0 <= q < |a| && a[q] == b[j];
      assert Keys(a)[p] == Keys(a)[q];
      assert p == q;
      TwiceInSequence(b, i, j);
      OnceInSequence(a, p);
    }
  }

  lemma TwiceInSequence(b: seq<Group>, i: nat, j: nat)
    requires i < j < |b| && b[i] == b[j]
    ensures multiset(b)[b[i]] >= 2
  {
    assert b == b[..i] + [b[i]] + b[i + 1..j] + [b[j]] + b[j + 1..];
  }

  lemma OnceInSequence(a: seq<Group>, p: nat)
    requires Distinct(Keys(a)) && p < |a|
    ensures multiset(a)[a[p]] == 1
  {
    var x := a[p];
    forall k | 0 <= k < |a| && k != p ensures a[k] != x {
      assert Keys(a)[k] != Keys(a)[p];
    }
    assert a == a[..p] + [x] + a[p + 1..];
    assert x !in a[..p] && x !in a[p + 1..];
  }

  // ----- the groups add up -----

  function SumOver(groups: seq<Group>, f: seq<AnalyticsTrade> -> int): int
  {
    if groups == [] then 0 else SumOver(groups[..|groups| - 1], f) + f(groups[|groups| - 1].trades)
  }

  /** The figure of a set of trades is a sum over the trades. */
  ghost predicate Additive(f: seq<AnalyticsTrade> -> int, w: AnalyticsTrade -> int)
  {
    && f([]) == 0
    && forall ts: seq<AnalyticsTrade>, t: AnalyticsTrade :: f(ts + [t]) == f(ts) + w(t)
  }

  function SumKeys(keys: seq<string>, trades: seq<AnalyticsTrade>, keyOf: KeyOf, f: seq<AnalyticsTrade> -> int): int
  {
    if keys == [] then 0
    else SumKeys(keys[..|keys| - 1], trades, keyOf, f) + f(OfKey(trades, keyOf, keys[|keys| - 1]))
  }

  lemma {:induction false} SumKeysSnoc(keys: seq<string>, trades: seq<AnalyticsTrade>, t: AnalyticsTrade, keyOf: KeyOf,
                                       f: seq<AnalyticsTrade> -> int, w: AnalyticsTrade -> int)
    requires Additive(f, w) && Distinct(keys)
    ensures SumKeys(keys, trades + [t], keyOf, f)
            == SumKeys(keys, trades, keyOf, f) + if keyOf(t) in keys then w(t) else 0
  {
    if keys != [] {
      var n := |keys| - 1;
      SumKeysSnoc(keys[..n], trades, t, keyOf, f, w);
      OfKeySnoc(trades, t, keyOf, keys[n]);
      assert keys == keys[..n] + [keys[n]];
    }
  }

  lemma {:induction false} SumKeysNothing(keys: seq<string>, keyOf: KeyOf, f: seq<AnalyticsTrade> -> int)
    requires f([]) == 0
    ensures SumKeys(keys, [], keyOf, f) == 0
  {
    if keys != [] {
      SumKeysNothing(keys[..|keys| - 1], keyOf, f);
      assert OfKey([], keyOf, keys[|keys| - 1]) == [];
    }
  }

  lemma {:induction false} KeysAddUp(keys: seq<string>, trades: seq<AnalyticsTrade>, keyOf: KeyOf,
                                     f: seq<AnalyticsTrade> -> int, w: AnalyticsTrade -> int)
    requires Additive(f, w) && Distinct(keys) && Covers(keys, trades, keyOf)
    ensures SumKeys(keys, trades, keyOf, f) == f(trades)
  {
    hide SumKeys;
    if trades == [] {
      SumKeysNothing(keys, keyOf, f);
    } else {
      var before, t := trades[..|trades| - 1], trades[|trades| - 1];
      assert trades == before + [t];
      KeysAddUp(keys, before, keyOf, f, w);
      SumKeysSnoc(keys, before, t, keyOf, f, w);
    }
  }

  lemma {:induction false} SumOverIsSumKeys(groups: seq<Group>, trades: seq<AnalyticsTrade>, keyOf: KeyOf,
                                            f: seq<AnalyticsTrade> -> int)
    requires forall i :: 0 <= i < |groups| ==> groups[i].trades == OfKey(trades, keyOf, groups[i].key)
    ensures SumOver(groups, f) == SumKeys(Keys(groups), trades, keyOf, f)
  {
    hide OfKey;
    if groups != [] {
      var n := |groups| - 1;
      SumOverIsSumKeys(groups[..n], trades, keyOf, f);
      assert Keys(groups)[..n] == Keys(groups[..n]);
    }
  }

  function Size(ts: seq<AnalyticsTrade>): int
  {
    |ts|
  }

  function Wins(ts: seq<AnalyticsTrade>): int
  {
    |Where(ts, Won)|
  }

  function GrossProfit(ts: seq<AnalyticsTrade>): int
  {
    Net(Where(ts, Won))
  }

  function GrossLoss(ts: seq<AnalyticsTrade>): int
  {
    Net(Where(ts, Lost))
  }

  function One(t: AnalyticsTrade): int
  {
    1
  }

  function PnlOf(t: AnalyticsTrade): int
  {
    t.pnl
  }

  function WinOf(t: AnalyticsTrade): int
  {
    if Won(t) then 1 else 0
  }

  function ProfitOf(t: AnalyticsTrade): int
  {
    if Won(t) then t.pnl else 0
  }

  function LossOf(t: AnalyticsTrade): int
  {
    if Lost(t) then t.pnl else 0
  }

  lemma FiguresAdditive()
    ensures Additive(Size, One)
    ensures Additive(Net, PnlOf)
    ensures Additive(Wins, WinOf)
    ensures Additive(GrossProfit, ProfitOf)
    ensures Additive(GrossLoss, LossOf)
  {
    hide Net, Where;
    NothingWhere(Won);
    NothingWhere(Lost);
    forall ts: seq<AnalyticsTrade>, t: AnalyticsTrade
      ensures Net(ts + [t]) == Net(ts) + t.pnl
      ensures Wins(ts + [t]) == Wins(ts) + WinOf(t)
      ensures GrossProfit(ts + [t]) == GrossProfit(ts) + ProfitOf(t)
      ensures GrossLoss(ts + [t]) == GrossLoss(ts) + LossOf(t)
    {
      NetSnoc(ts, t);
      WhereSnoc(ts, t, Won);
      WhereSnoc(ts, t, Lost);
      NetSnoc(Where(ts, Won), t);
      NetSnoc(Where(ts, Lost), t);
    }
  }

  /** Whatever the key, the groups' counts, wins, gross profits, gross losses
      and net profits add up to those of all the trades. */
  lemma GroupsAddUp(groups: seq<Group>, trades: seq<AnalyticsTrade>, keyOf: KeyOf)
    requires IsPartition(groups, trades, keyOf)
    ensures SumOver(groups, Size) == |trades|
    ensures SumOver(groups, Net) == Net(trades)
    ensures SumOver(groups, Wins) == Wins(trades)
    ensures SumOver(groups, GrossProfit) == GrossProfit(trades)
    ensures SumOver(groups, GrossLoss) == GrossLoss(trades)
  {
    hide Net, Where, OfKey, SumOver, SumKeys, Distinct, Covers, Additive, Wins, GrossProfit, GrossLoss;
    FiguresAdditive();
    var keys := Keys(groups);
    SumOverIsSumKeys(groups, trades, keyOf, Size);
    SumOverIsSumKeys(groups, trades, keyOf, Net);
    SumOverIsSumKeys(groups, trades, keyOf, Wins);
    SumOverIsSumKeys(groups, trades, keyOf, GrossProfit);
    SumOverIsSumKeys(groups, trades, keyOf, GrossLoss);
    KeysAddUp(keys, trades, keyOf, Size, One);
    KeysAddUp(keys, trades, keyOf, Net, PnlOf);
    KeysAddUp(keys, trades, keyOf, Wins, WinOf);
    KeysAddUp(keys, trades, keyOf, GrossProfit, ProfitOf);
    KeysAddUp(keys, trades, keyOf, GrossLoss, LossOf);
  }

  function Shown(out: seq<GroupedTradingMetrics>, field: TradingMetrics -> int): int
  {
    if out == [] then 0 else Shown(out[..|out| - 1], field) + field(out[|out| - 1].metrics)
  }

  lemma {:induction false} ShownIsSum(out: seq<GroupedTradingMetrics>, groups: seq<Group>,
                                      field: TradingMetrics -> int, f: seq<AnalyticsTrade> -> int)
    requires |out| == |groups|
    requires forall i :: 0 <= i < |out| ==> field(out[i].metrics) == f(groups[i].trades)
    ensures Shown(out, field) == SumOver(groups, f)
  {
    if out != [] {
      ShownIsSum(out[..|out| - 1], groups[..|out| - 1], field, f);
    }
  }

  function Trades(m: TradingMetrics): int
  {
    m.totalTrades
  }

  function NetPnL(m: TradingMetrics): int
  {
    m.netPnL
  }

  function Profit(m: TradingMetrics): int
  {
    m.grossProfit
  }

  function LossTotal(m: TradingMetrics): int
  {
    m.grossLoss
  }

  lemma FiguresShown(trades: seq<AnalyticsTrade>, m: TradingMetrics)
    requires IsMetrics(trades, m)
    ensures Trades(m) == Size(trades) && NetPnL(m) == Net(trades)
    ensures Profit(m) == GrossProfit(trades) && LossTotal(m) == GrossLoss(trades)
  {
    hide Net, Where, IsLargestFall, Rate, Expectancy, SortBy;
  }

  /** The figures shown for the groups add up to those shown ungrouped. */
  lemma ShownGroupsAddUp(out: seq<GroupedTradingMetrics>, trades: seq<AnalyticsTrade>, keyOf: KeyOf,
                         all: TradingMetrics)
    requires IsReport(out, trades, keyOf) && IsMetrics(trades, all)
    ensures Shown(out, Trades) == all.totalTrades
    ensures Shown(out, NetPnL) == all.netPnL
    ensures Shown(out, Profit) == all.grossProfit
    ensures Shown(out, LossTotal) == all.grossLoss
  {
    hide Net, Where, SumOver, Shown, IsMetrics, IsPartition, OfKey, Size, GrossProfit, GrossLoss;
    var groups := GroupsOf(out, trades, keyOf);
    GroupsAddUp(groups, trades, keyOf);
    forall i | 0 <= i < |out|
      ensures Trades(out[i].metrics) == Size(groups[i].trades) && NetPnL(out[i].metrics) == Net(groups[i].trades)
      ensures Profit(out[i].metrics) == GrossProfit(groups[i].trades)
      ensures LossTotal(out[i].metrics) == GrossLoss(groups[i].trades)
    {
      FiguresShown(groups[i].trades, out[i].metrics);
    }
    FiguresShown(trades, all);
    SizeIsLength(trades);
    ShownIsSum(out, groups, Trades, Size);
    ShownIsSum(out, groups, NetPnL, Net);
    ShownIsSum(out, groups, Profit, GrossProfit);
    ShownIsSum(out, groups, LossTotal, GrossLoss);
  }

  lemma SizeIsLength(trades: seq<AnalyticsTrade>)
    ensures Size(trades) == |trades|
  {
  }
}
