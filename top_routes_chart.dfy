/** The demand chart (components/TopRoutesChart.tsx): the routes of a copy
    of the input, sorted by descending flightCount with a stable sort. The
    comparator `b.flightCount - a.flightCount` orders b first exactly when
    its count is larger, so equal counts keep their input order. */
module TopRoutesChart {
  import opened Types
  import GeminiService

  const NoDataMessage := "No demand data available."

  /** Non-increasing flightCount. */
  ghost predicate DescendingByDemand(s: seq<RouteInfo>)
  {
    forall i, j :: 0 <= i < j < |s| ==> s[i].flightCount >= s[j].flightCount
  }

  /** The routes of `s` with flightCount `k`, in their order in `s`. */
  function WithFlightCount(s: seq<RouteInfo>, k: int): seq<RouteInfo>
  {
    if |s| == 0 then []
    else (if s[0].flightCount == k then [s[0]] else []) + WithFlightCount(s[1..], k)
  }

  /** `r` is what a stable descending sort by flightCount makes of `s`: a
      permutation, ordered, and with each group of equal counts in its
      original order. */
  ghost predicate IsStableDemandSort(s: seq<RouteInfo>, r: seq<RouteInfo>)
  {
    && |r| == |s|
    && multiset(r) == multiset(s)
    && DescendingByDemand(r)
    && forall k :: WithFlightCount(r, k) == WithFlightCount(s, k)
  }

  /** Insert `x` before the first route whose count is not larger. */
  function InsertByDemand(x: RouteInfo, sorted: seq<RouteInfo>): (r: seq<RouteInfo>)
    ensures |r| == |sorted| + 1
    ensures multiset(r) == multiset{x} + multiset(sorted)
  {
    if |sorted| == 0 || x.flightCount >= sorted[0].flightCount then [x] + sorted
    else
      assert sorted == [sorted[0]] + sorted[1..];
      [sorted[0]] + InsertByDemand(x, sorted[1..])
  }

  /** The sorted copy of the chart data. */
  function SortByDemand(s: seq<RouteInfo>): (r: seq<RouteInfo>)
    ensures |r| == |s|
    ensures multiset(r) == multiset(s)
  {
    if |s| == 0 then []
    else
      assert s == [s[0]] + s[1..];
      InsertByDemand(s[0], SortByDemand(s[1..]))
  }

  /** Every route of a descending sequence, and any route of no larger
      count inserted into it, has a count at most that of its head. */
  lemma InsertBelowHead(x: RouteInfo, sorted: seq<RouteInfo>)
    requires DescendingByDemand(sorted) && |sorted| > 0 && x.flightCount < sorted[0].flightCount
    ensures forall y :: y in InsertByDemand(x, sorted[1..]) ==> y.flightCount <= sorted[0].flightCount
  {
    forall y | y in InsertByDemand(x, sorted[1..]) ensures y.flightCount <= sorted[0].flightCount {
      assert y in multiset(InsertByDemand(x, sorted[1..]));
      if y != x {
        assert y in multiset(sorted[1..]);
        var m :| 0 <= m < |sorted[1..]| && sorted[1..][m] == y;
        assert sorted[m + 1] == y;
      }
    }
  }

  lemma {:induction false} InsertProperties(x: RouteInfo, sorted: seq<RouteInfo>)
    requires DescendingByDemand(sorted)
    ensures var r := InsertByDemand(x, sorted);
      && |r| == |sorted| + 1
      && multiset(r) == multiset{x} + multiset(sorted)
      && DescendingByDemand(r)
      && (|r| > 0 && r[0] != x ==> |sorted| > 0 && r[0] == sorted[0])
  {
    if |sorted| == 0 || x.flightCount >= sorted[0].flightCount {
    } else {
      var tail := InsertByDemand(x, sorted[1..]);
      InsertProperties(x, sorted[1..]);
      InsertBelowHead(x, sorted);
      var r := [sorted[0]] + tail;
      forall i, j | 0 <= i < j < |r| ensures r[i].flightCount >= r[j].flightCount {
        if i == 0 {
          assert r[j] == tail[j - 1] && tail[j - 1] in tail;
        }
      }
    }
  }

  lemma {:induction false} WithFlightCountAppend(a: seq<RouteInfo>, b: seq<RouteInfo>, k: int)
    ensures WithFlightCount(a + b, k) == WithFlightCount(a, k) + WithFlightCount(b, k)
  {
    if |a| == 0 {
      assert a + b == b;
    } else {
      var head := if a[0].flightCount == k then [a[0]] else [];
      assert (a + b)[0] == a[0];
      assert (a + b)[1..] == a[1..] + b;
      assert WithFlightCount(a + b, k) == head + WithFlightCount(a[1..] + b, k);
      WithFlightCountAppend(a[1..], b, k);
      assert WithFlightCount(a, k) == head + WithFlightCount(a[1..], k);
    }
  }

  /** Inserting into a sorted sequence puts `x` in front of every route of equal count. */
  lemma {:induction false} InsertStable(x: RouteInfo, sorted: seq<RouteInfo>, k: int)
    requires DescendingByDemand(sorted)
    ensures WithFlightCount(InsertByDemand(x, sorted), k) == WithFlightCount([x], k) + WithFlightCount(sorted, k)
  {
    if |sorted| == 0 || x.flightCount >= sorted[0].flightCount {
      WithFlightCountAppend([x], sorted, k);
    } else {
      InsertStable(x, sorted[1..], k);
      WithFlightCountAppend([sorted[0]], InsertByDemand(x, sorted[1..]), k);
      WithFlightCountAppend([sorted[0]], sorted[1..], k);
      assert sorted == [sorted[0]] + sorted[1..];
      if x.flightCount == k {
        assert sorted[0].flightCount != k;
      }
    }
  }

  /** The sort is a stable descending sort by flightCount. */
  lemma {:induction false} SortByDemandIsStableSort(s: seq<RouteInfo>)
    ensures IsStableDemandSort(s, SortByDemand(s))
  {
    if |s| > 0 {
      SortByDemandIsStableSort(s[1..]);
      InsertProperties(s[0], SortByDemand(s[1..]));
      assert s == [s[0]] + s[1..];
      forall k ensures WithFlightCount(SortByDemand(s), k) == WithFlightCount(s, k) {
        InsertStable(s[0], SortByDemand(s[1..]), k);
        WithFlightCountAppend([s[0]], s[1..], k);
      }
    }
  }

  lemma {:induction false} CountedRouteIsKept(s: seq<RouteInfo>, i: nat)
    requires i < |s|
    ensures |WithFlightCount(s, s[i].flightCount)| > 0
  {
    if i > 0 {
      CountedRouteIsKept(s[1..], i - 1);
    }
  }

  lemma {:induction false} KeptRouteIsCounted(s: seq<RouteInfo>, k: int)
    requires |WithFlightCount(s, k)| > 0
    ensures exists i :: 0 <= i < |s| && s[i].flightCount == k
  {
    if s[0].flightCount != k {
      KeptRouteIsCounted(s[1..], k);
      var i :| 0 <= i < |s[1..]| && s[1..][i].flightCount == k;
      assert s[i + 1].flightCount == k;
    }
  }

  lemma SameGroupsSameEmptiness(r1: seq<RouteInfo>, r2: seq<RouteInfo>)
    requires forall k :: WithFlightCount(r1, k) == WithFlightCount(r2, k)
    ensures |r1| == 0 <==> |r2| == 0
  {
    if |r1| > 0 {
      CountedRouteIsKept(r1, 0);
      KeptRouteIsCounted(r2, r1[0].flightCount);
    }
    if |r2| > 0 {
      CountedRouteIsKept(r2, 0);
      KeptRouteIsCounted(r1, r2[0].flightCount);
    }
  }

  /** Two descending sequences with the same per-count subsequences are equal. */
  lemma {:induction false} StableSortUnique(r1: seq<RouteInfo>, r2: seq<RouteInfo>)
    requires DescendingByDemand(r1) && DescendingByDemand(r2)
    requires forall k :: WithFlightCount(r1, k) == WithFlightCount(r2, k)
    ensures r1 == r2
  {
    SameGroupsSameEmptiness(r1, r2);
    if |r1| == 0 {
    } else {
      var m1, m2 := r1[0].flightCount, r2[0].flightCount;
      CountedRouteIsKept(r1, 0);
      CountedRouteIsKept(r2, 0);
      KeptRouteIsCounted(r2, m1);
      KeptRouteIsCounted(r1, m2);
      assert m1 == m2;
      assert WithFlightCount(r1, m1)[0] == r1[0];
      assert WithFlightCount(r2, m1)[0] == r2[0];
      forall k ensures WithFlightCount(r1[1..], k) == WithFlightCount(r2[1..], k) {
        var head := if r1[0].flightCount == k then [r1[0]] else [];
        assert WithFlightCount(r1, k) == head + WithFlightCount(r1[1..], k);
        assert WithFlightCount(r2, k) == head + WithFlightCount(r2[1..], k);
        assert (head + WithFlightCount(r1[1..], k))[|head|..] == WithFlightCount(r1[1..], k);
        assert (head + WithFlightCount(r2[1..], k))[|head|..] == WithFlightCount(r2[1..], k);
      }
      StableSortUnique(r1[1..], r2[1..]);
      assert r1 == [r1[0]] + r1[1..];
      assert r2 == [r2[0]] + r2[1..];
    }
  }

  /** Every stable descending sort of `s` is SortByDemand(s), so the model
      does not depend on which stable algorithm sorts the copy. */
  lemma StableSortIsSortByDemand(s: seq<RouteInfo>, r: seq<RouteInfo>)
    requires IsStableDemandSort(s, r)
    ensures r == SortByDemand(s)
  {
    SortByDemandIsStableSort(s);
    StableSortUnique(r, SortByDemand(s));
  }

  datatype DemandChartView = NoDemandData(message: string) | BarChart(bars: seq<RouteInfo>)

  /** The chart for `data` (None stands for a missing prop): a message when
      there are no routes, otherwise bars for a stably sorted copy. */
  function TopRoutesChartView(data: Option<seq<RouteInfo>>): (v: DemandChartView)
    ensures v.NoDemandData? <==> data.None? || |data.value| == 0
    ensures v.NoDemandData? ==> v.message == NoDataMessage
    ensures v.BarChart? ==> IsStableDemandSort(data.value, v.bars)
  {
    if data.None? || |data.value| == 0 then NoDemandData(NoDataMessage)
    else
      SortByDemandIsStableSort(data.value);
      BarChart(SortByDemand(data.value))
  }

  /** Four routes with counts 80, 120, 95, 88 are charted as 120, 95, 88, 80. */
  lemma SortExample(a: RouteInfo, b: RouteInfo, c: RouteInfo, d: RouteInfo)
    requires a.flightCount == 80 && b.flightCount == 120 && c.flightCount == 95 && d.flightCount == 88
    ensures SortByDemand([a, b, c, d]) == [b, c, d, a]
  {
    assert [a, b, c, d][1..] == [b, c, d];
    assert [b, c, d][1..] == [c, d];
    assert [c, d][1..] == [d];
    assert [d][1..] == [];
    assert SortByDemand([d]) == [d];
    assert InsertByDemand(c, [d]) == [c, d];
    assert SortByDemand([c, d]) == [c, d];
    assert SortByDemand([b, c, d]) == [b, c, d];
    assert InsertByDemand(a, [d]) == [d, a];
    assert InsertByDemand(a, [c, d]) == [c, d, a];
  }

  /** The mock roster (120, 95, 80, 88) is charted as 120, 95, 88, 80: the
      third and fourth routes trade places. */
  lemma MockDemandOrder(today: Day, draws: seq<GeminiService.Draw>)
    requires |draws| == GeminiService.MockDrawCount
    ensures var rs := GeminiService.CreateMockData(today, draws).routes;
      SortByDemand(rs) == [rs[0], rs[1], rs[3], rs[2]]
  {
    var rs := GeminiService.CreateMockData(today, draws).routes;
    var a, b, c, d := rs[0], rs[1], rs[2], rs[3];
    assert rs == [a, b, c, d];
    assert [a, b, c, d][1..] == [b, c, d];
    assert [b, c, d][1..] == [c, d];
    assert [c, d][1..] == [d];
    assert [d][1..] == [];
    assert SortByDemand([d]) == [d];
    assert InsertByDemand(c, []) == [c];
    assert InsertByDemand(c, [d]) == [d, c];
    assert SortByDemand([c, d]) == [d, c];
    assert SortByDemand([b, c, d]) == [b, d, c];
  }
}
